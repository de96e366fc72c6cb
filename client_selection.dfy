/**
 * The client-selection list shared by the invitation and bulk-email pages
 * (client/src/pages/SendInvitations.jsx, client/src/pages/BulkEmail.jsx):
 * a list of selected client ids that a checkbox toggles.
 */
module ClientSelection {
  import opened Wrappers

  /** A client row as `/api/users?role=client` returns it. */
  datatype Client = Client(id: int, name: string, email: string, phone: Option<string>)

  /** `clients.map(c => c.id)`. */
  function Ids(clients: seq<Client>): (ids: seq<int>)
    ensures |ids| == |clients| && forall i :: 0 <= i < |clients| ==> ids[i] == clients[i].id
  {
    seq(|clients|, i requires 0 <= i < |clients| => clients[i].id)
  }

  predicate NoDuplicates(s: seq<int>) {
    forall i, j :: 0 <= i < j < |s| ==> s[i] != s[j]
  }

  /** The server lists each client once. */
  predicate DistinctIds(clients: seq<Client>) {
    forall i, j :: 0 <= i < j < |clients| ==> clients[i].id != clients[j].id
  }

  /**
   * What the selection keeps between renders: each id at most once, and
   * only ids of listed clients (a row checkbox is the only way in).
   */
  predicate WellFormed(clients: seq<Client>, selected: seq<int>) {
    DistinctIds(clients) && NoDuplicates(selected) && forall x :: x in selected ==> x in Ids(clients)
  }

  /** `selected.filter(sid => sid !== id)`: every other id, in the same order. */
  function Without(s: seq<int>, id: int): (r: seq<int>)
    ensures forall x :: x in r <==> x in s && x != id
    ensures |r| <= |s|
    ensures id !in s ==> r == s
    ensures NoDuplicates(s) ==> NoDuplicates(r)
  {
    if s == [] then []
    else
      var rest := Without(s[1..], id);
      assert forall x :: x in s[1..] ==> x in s;
      assert s == [s[0]] + s[1..];
      assert NoDuplicates(s) ==> NoDuplicates(s[1..]) && s[0] !in s[1..];
      if s[0] == id then rest else [s[0]] + rest
  }

  /** A one-element list keeps its element exactly when it is not `id`. */
  lemma WithoutSingleton(x: int, id: int)
    ensures Without([x], id) == if x == id then [] else [x]
  {
    assert [x][1..] == [];
  }

  /** Filtering distributes over concatenation: order and repetitions are kept. */
  lemma {:induction false} WithoutAppend(a: seq<int>, b: seq<int>, id: int)
    ensures Without(a + b, id) == Without(a, id) + Without(b, id)
    decreases |a|
  {
    if a != [] {
      assert (a + b)[0] == a[0] && (a + b)[1..] == a[1..] + b;
      WithoutAppend(a[1..], b, id);
    } else {
      assert a + b == b;
    }
  }

  /** `handleSelectOne`: a selected id is removed, any other id appended. */
  function Toggled(selected: seq<int>, id: int): (r: seq<int>)
    ensures id in selected ==> id !in r && forall x :: x != id ==> (x in r <==> x in selected)
    ensures id !in selected ==> r == selected + [id]
    ensures NoDuplicates(selected) ==> NoDuplicates(r)
  {
    if id in selected then Without(selected, id) else selected + [id]
  }

  /** Toggling the same id twice gives back the same set of selected ids. */
  lemma ToggleTwiceSameSelection(selected: seq<int>, id: int)
    ensures forall x :: x in Toggled(Toggled(selected, id), id) <==> x in selected
  {
    var once := Toggled(selected, id);
    if id !in selected {
      assert id in once;
    } else {
      assert id !in once;
    }
  }

  /** On a list without duplicates, toggling an unselected id twice gives back the very same list. */
  lemma ToggleTwiceUnselected(selected: seq<int>, id: int)
    requires id !in selected
    ensures Toggled(Toggled(selected, id), id) == selected
  {
    var once := selected + [id];
    assert id in once;
    WithoutLast(selected, id);
  }

  lemma {:induction false} WithoutLast(s: seq<int>, id: int)
    requires id !in s
    ensures Without(s + [id], id) == s
    decreases |s|
  {
    if s != [] {
      assert (s + [id])[1..] == s[1..] + [id];
      WithoutLast(s[1..], id);
    }
  }

  /** The ids of `s` as a set has as many elements as `s` when nothing repeats. */
  lemma {:induction false} DistinctCount(s: seq<int>)
    requires NoDuplicates(s)
    ensures |set x | x in s| == |s|
    decreases |s|
  {
    if s != [] {
      var rest := s[1..];
      DistinctCount(rest);
      assert s[0] !in rest;
      assert (set x | x in s) == {s[0]} + (set x | x in rest) by {
        assert s == [s[0]] + rest;
      }
    }
  }

  /** A subset has no more elements than its superset. */
  lemma SubsetAtMost(a: set<int>, b: set<int>)
    requires a <= b
    ensures |a| <= |b|
  {
    assert b == a + (b - a);
    assert a * (b - a) == {};
  }

  /**
   * The bulk-email header checkbox compares lengths only; on a well-formed
   * selection of a non-empty list that is the same as every client being
   * selected, in both directions.
   */
  lemma {:induction false} FullLengthIffAllSelected(clients: seq<Client>, selected: seq<int>)
    requires WellFormed(clients, selected)
    ensures |selected| == |clients| <==> forall c :: c in clients ==> c.id in selected
  {
    var ids := Ids(clients);
    var chosen := set x | x in selected;
    var all := set x | x in ids;
    DistinctCount(selected);
    DistinctCount(ids);
    assert chosen <= all;
    if |selected| == |clients| {
      if chosen != all {
        var missing :| missing in all && missing !in chosen;
        SubsetAtMost(chosen, all - {missing});
      }
      forall c | c in clients ensures c.id in selected {
        var i :| 0 <= i < |clients| && clients[i] == c;
        assert ids[i] in all;
      }
    } else if forall c :: c in clients ==> c.id in selected {
      forall x | x in all ensures x in chosen {
        var i :| 0 <= i < |ids| && ids[i] == x;
        assert clients[i] in clients;
      }
      assert chosen == all;
    }
  }
}
