/**
 * The invitation page (client/src/pages/SendInvitations.jsx): a searchable
 * client list with check boxes, and a button that asks for confirmation and
 * posts the selected ids to `/api/users/bulk-email`. The page's state is
 * the fields of `InvitationsPage`; the request and the confirmation dialog
 * are the boundary, so `HandleSend` returns the ids it would post and takes
 * the user's answer as a parameter.
 */
module SendInvitations {
  import opened Wrappers
  import opened JsStrings
  import opened ClientSelection

  /** Whether a client row matches the lower-cased search term; the phone is compared as typed. */
  predicate Matches(c: Client, term: string) {
    || Includes(Lower(c.name), term)
    || Includes(Lower(c.email), term)
    || (c.phone.Some? && c.phone.value != [] && Includes(c.phone.value, term))
  }

  function FilterBy(clients: seq<Client>, term: string): (r: seq<Client>)
    ensures forall c :: c in r <==> c in clients && Matches(c, term)
    ensures |r| <= |clients|
  {
    if clients == [] then []
    else
      var rest := FilterBy(clients[1..], term);
      assert forall c :: c in clients[1..] ==> c in clients;
      assert clients == [clients[0]] + clients[1..];
      if Matches(clients[0], term) then [clients[0]] + rest else rest
  }

  /** A one-client list is kept exactly when the client matches. */
  lemma FilterBySingleton(c: Client, term: string)
    ensures FilterBy([c], term) == if Matches(c, term) then [c] else []
  {
    assert [c][1..] == [];
  }

  /** Filtering distributes over concatenation: order and repetitions are kept. */
  lemma {:induction false} FilterByAppend(a: seq<Client>, b: seq<Client>, term: string)
    ensures FilterBy(a + b, term) == FilterBy(a, term) + FilterBy(b, term)
    decreases |a|
  {
    if a != [] {
      assert (a + b)[0] == a[0] && (a + b)[1..] == a[1..] + b;
      FilterByAppend(a[1..], b, term);
    } else {
      assert a + b == b;
    }
  }

  /** Filtering keeps the clients' ids distinct. */
  lemma {:induction false} FilterByKeepsDistinct(clients: seq<Client>, term: string)
    requires DistinctIds(clients)
    ensures DistinctIds(FilterBy(clients, term))
    decreases |clients|
  {
    if clients != [] {
      var rest := FilterBy(clients[1..], term);
      assert DistinctIds(clients[1..]);
      FilterByKeepsDistinct(clients[1..], term);
      forall c | c in rest ensures c.id != clients[0].id {
        var k :| 0 <= k < |clients[1..]| && clients[1..][k] == c;
        assert clients[k + 1] == c;
      }
    }
  }

  function Filtered(clients: seq<Client>, searchTerm: string): (r: seq<Client>)
    ensures searchTerm == [] ==> r == clients
    ensures searchTerm != [] ==> forall c :: c in r <==> c in clients && Matches(c, Lower(searchTerm))
  {
    if searchTerm == [] then clients else FilterBy(clients, Lower(searchTerm))
  }

  /** The letter case of the search term does not matter: typing it upper- or lower-case shows the same rows. */
  lemma SearchIgnoresCase(clients: seq<Client>, searchTerm: string)
    ensures Filtered(clients, Upper(searchTerm)) == Filtered(clients, searchTerm)
    ensures Filtered(clients, Lower(searchTerm)) == Filtered(clients, searchTerm)
  {
    LowerOfUpper(searchTerm);
    LowerIsLowerCase(searchTerm);
  }

  /** The page's message line. */
  datatype Notice =
    | NoNotice
    | Warning(text: string)         // shown before any request
    | Failed(detail: string)        // after a failed request, behind an "Error:" prefix
    | Sent(sentCount: int, failedCount: int)

  const SelectFirst := "Please select at least one client to send invitations to."
  const SendFailure := "Failed to send invitations"

  class InvitationsPage {
    var clients: seq<Client>
    var selected: seq<int>
    var searchTerm: string
    var notice: Notice

    predicate Valid()
      reads this
    {
      WellFormed(clients, selected)
    }

    /** The page once `fetchClients` has stored the list. */
    constructor(clients: seq<Client>)
      requires DistinctIds(clients)
      ensures Valid() && this.clients == clients && selected == [] && searchTerm == [] && notice == NoNotice
    {
      this.clients := clients;
      selected, searchTerm, notice := [], [], NoNotice;
    }

    /** `allFilteredSelected`: the header box is ticked when something is shown and all of it is selected. */
    predicate AllFilteredSelected()
      reads this
    {
      var shown := Filtered(clients, searchTerm);
      |shown| > 0 && forall c :: c in shown ==> c.id in selected
    }

    /** `handleSelectOne` for the id of a listed row. */
    method SelectOne(id: int)
      requires Valid() && id in Ids(clients)
      modifies this`selected
      ensures Valid() && selected == Toggled(old(selected), id)
      ensures id in selected <==> id !in old(selected)
    {
      selected := Toggled(selected, id);
    }

    /** `handleSelectAll`: ticking selects exactly the rows on show, unticking clears the selection. */
    method SelectAll(checked: bool)
      requires Valid()
      modifies this`selected
      ensures Valid()
      ensures checked ==> selected == Ids(Filtered(clients, searchTerm))
      ensures !checked ==> selected == []
      ensures checked && |Filtered(clients, searchTerm)| > 0 ==> AllFilteredSelected()
      ensures !checked ==> !AllFilteredSelected()
    {
      if checked {
        var shown := Filtered(clients, searchTerm);
        if searchTerm != [] {
          FilterByKeepsDistinct(clients, Lower(searchTerm));
        }
        selected := Ids(shown);
        forall x | x in selected ensures x in Ids(clients) {
          var i :| 0 <= i < |shown| && Ids(shown)[i] == x;
          assert shown[i] in clients;
          var k :| 0 <= k < |clients| && clients[k] == shown[i];
          assert Ids(clients)[k] == x;
        }
        forall c | c in shown ensures c.id in selected {
          var i :| 0 <= i < |shown| && shown[i] == c;
          assert selected[i] == c.id;
        }
      } else {
        selected := [];
        if |Filtered(clients, searchTerm)| > 0 {
          assert Filtered(clients, searchTerm)[0] in Filtered(clients, searchTerm);
        }
      }
    }

    /** A new search term; the selection is kept. */
    method Search(term: string)
      modifies this`searchTerm
      ensures searchTerm == term
    {
      searchTerm := term;
    }

    /**
     * `handleSendInvitations` up to the request: an empty selection gives a
     * warning; a declined confirmation changes nothing; otherwise the
     * message is cleared and the selected ids are posted.
     */
    method HandleSend(confirmed: bool) returns (clientIds: Option<seq<int>>)
      modifies this`notice
      ensures selected == [] ==> clientIds.None? && notice == Warning(SelectFirst)
      ensures selected != [] && !confirmed ==> clientIds.None? && notice == old(notice)
      ensures clientIds.Some? <==> selected != [] && confirmed
      ensures clientIds.Some? ==> clientIds.value == selected && notice == NoNotice
    {
      if |selected| == 0 {
        notice := Warning(SelectFirst);
        return None;
      }
      if !confirmed {
        return None;
      }
      notice := NoNotice;
      return Some(selected);
    }

    /** A successful post reports the counts and clears the selection. */
    method SendSucceeded(sentCount: int, failedCount: int)
      requires Valid()
      modifies this`notice, this`selected
      ensures Valid() && selected == [] && notice == Sent(sentCount, failedCount)
    {
      notice := Sent(sentCount, failedCount);
      selected := [];
    }

    /** A failed post shows the server's message, or the page's own; the selection stays. */
    method SendFailed(serverMessage: Option<string>)
      modifies this`notice
      ensures notice == Failed(if Filled(serverMessage) then serverMessage.value else SendFailure)
    {
      notice := Failed(if Filled(serverMessage) then serverMessage.value else SendFailure);
    }
  }
}
