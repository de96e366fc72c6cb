/**
 * The bulk e-mail page (client/src/pages/BulkEmail.jsx): the whole client
 * list with check boxes, and a button that posts the selected ids to
 * `/api/users/bulk-email` without asking first. The page's state is the
 * fields of `BulkEmailPage`; `HandleSend` returns the ids it would post.
 */
module BulkEmail {
  import opened Wrappers
  import opened JsStrings
  import opened ClientSelection

  /** The page's message line. */
  datatype Notice =
    | NoNotice
    | Warning(text: string)         // shown before any request
    | Failed(detail: string)        // after a failed request, behind an "Error:" prefix
    | Sent(sentCount: int, failedCount: int)

  const SelectFirst := "Please select at least one client to send emails to."
  const SendFailure := "Failed to send emails"

  class BulkEmailPage {
    var clients: seq<Client>
    var selected: seq<int>
    var notice: Notice

    predicate Valid()
      reads this
    {
      WellFormed(clients, selected)
    }

    /** The page once `fetchClients` has stored the list. */
    constructor(clients: seq<Client>)
      requires DistinctIds(clients)
      ensures Valid() && this.clients == clients && selected == [] && notice == NoNotice
    {
      this.clients := clients;
      selected, notice := [], NoNotice;
    }

    /** The header check box: ticked when the list is non-empty and the selection is as long as it. */
    predicate HeaderChecked()
      reads this
    {
      |clients| > 0 && |selected| == |clients|
    }

    /** Comparing lengths is enough: on a valid page the header box is ticked exactly when every client is selected. */
    lemma HeaderCheckedIffAllSelected()
      requires Valid()
      ensures HeaderChecked() <==> |clients| > 0 && forall c :: c in clients ==> c.id in selected
    {
      FullLengthIffAllSelected(clients, selected);
    }

    /** `handleSelectOne` for the id of a listed row. */
    method SelectOne(id: int)
      requires Valid() && id in Ids(clients)
      modifies this`selected
      ensures Valid() && selected == Toggled(old(selected), id)
      ensures id in selected <==> id !in old(selected)
    {
      selected := Toggled(selected, id);
    }

    /** `handleSelectAll`: ticking selects every client in list order, unticking clears the selection. */
    method SelectAll(checked: bool)
      requires Valid()
      modifies this`selected
      ensures Valid()
      ensures checked ==> selected == Ids(clients)
      ensures !checked ==> selected == []
      ensures checked && |clients| > 0 ==> HeaderChecked()
      ensures !checked ==> !HeaderChecked()
    {
      if checked {
        selected := Ids(clients);
      } else {
        selected := [];
      }
    }

    /**
     * `handleSendEmails` up to the request: an empty selection gives a
     * warning; otherwise the message is cleared and the selected ids are
     * posted.
     */
    method HandleSend() returns (clientIds: Option<seq<int>>)
      modifies this`notice
      ensures clientIds.None? <==> selected == []
      ensures clientIds.None? ==> notice == Warning(SelectFirst)
      ensures clientIds.Some? ==> clientIds.value == selected && notice == NoNotice
    {
      if |selected| == 0 {
        notice := Warning(SelectFirst);
        return None;
      }
      notice := NoNotice;
      return Some(selected);
    }

    /** A successful post reports the counts and clears the selection. */
    method SendSucceeded(sentCount: int, failedCount: int)
      requires Valid()
      modifies this`notice, this`selected
      ensures Valid() && selected == [] && notice == Sent(sentCount, failedCount)
    {
      notice := Sent(sentCount, failedCount);
      selected := [];
    }

    /** A failed post shows the server's message, or the page's own; the selection stays. */
    method SendFailed(serverMessage: Option<string>)
      modifies this`notice
      ensures notice == Failed(if Filled(serverMessage) then serverMessage.value else SendFailure)
    {
      notice := Failed(if Filled(serverMessage) then serverMessage.value else SendFailure);
    }
  }
}
