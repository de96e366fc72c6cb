/**
 * A database table with an auto-increment primary key, as a sequence of rows
 * in ascending id order. A query without ORDER BY is modelled as returning
 * rows in this order, so `findOne` yields the lowest-id match.
 */
module Tables {
  import opened Wrappers

  datatype Row<T> = Row(id: int, val: T)

  /** Why the ORM or the database refuses a row; the handlers turn any of these into a 500 reply. */
  datatype DbError =
    | NotNullViolation(column: string)
    | ValidationError(column: string)
    | InvalidEnumValue(column: string)
    | UniqueViolation(constraint: string)

  /** Primary keys strictly increase along the table (and so are distinct). */
  ghost predicate Ascending<T>(t: seq<Row<T>>) {
    forall i, j :: 0 <= i < j < |t| ==> t[i].id < t[j].id
  }

  /** Every key is below the next value of the id sequence. */
  ghost predicate Below<T>(t: seq<Row<T>>, next: int) {
    forall i :: 0 <= i < |t| ==> t[i].id < next
  }

  ghost predicate WellKeyed<T>(t: seq<Row<T>>, next: int) {
    Ascending(t) && Below(t, next)
  }

  function Ids<T>(t: seq<Row<T>>): set<int> {
    set i | 0 <= i < |t| :: t[i].id
  }

  function Values<T>(t: seq<Row<T>>): (vs: seq<T>)
    ensures |vs| == |t| && forall i :: 0 <= i < |t| ==> vs[i] == t[i].val
  {
    seq(|t|, i requires 0 <= i < |t| => t[i].val)
  }

  /** Appending a row whose key is the next sequence value keeps the table well keyed. */
  lemma AppendWellKeyed<T>(t: seq<Row<T>>, next: int, v: T)
    requires WellKeyed(t, next)
    ensures WellKeyed(t + [Row(next, v)], next + 1)
  {
  }

  /** `findByPk(id)`: the position of the row with that key. */
  function IndexOfId<T>(t: seq<Row<T>>, id: int): (r: Option<nat>)
    ensures r.None? <==> forall i :: 0 <= i < |t| ==> t[i].id != id
    ensures r.Some? ==> r.value < |t| && t[r.value].id == id
  {
    if t == [] then None
    else if t[0].id == id then Some(0)
    else
      match IndexOfId(t[1..], id)
      case None => None
      case Some(i) => Some(i + 1)
  }

  /** In a well-keyed table a key picks out one position. */
  lemma IndexOfIdUnique<T>(t: seq<Row<T>>, id: int, k: nat)
    requires Ascending(t) && k < |t| && t[k].id == id
    ensures IndexOfId(t, id) == Some(k)
  {
  }

  /** `findOne({ where })`: the first row, in key order, whose value satisfies `p`. */
  function FindFirst<T>(t: seq<Row<T>>, p: T -> bool): (r: Option<nat>)
    ensures r.None? <==> forall i :: 0 <= i < |t| ==> !p(t[i].val)
    ensures r.Some? ==> r.value < |t| && p(t[r.value].val)
                        && forall j :: 0 <= j < r.value ==> !p(t[j].val)
  {
    if t == [] then None
    else if p(t[0].val) then Some(0)
    else
      match FindFirst(t[1..], p)
      case None => None
      case Some(i) => Some(i + 1)
  }

  /** `findAll({ where })`: the rows whose value satisfies `p`, in key order. */
  function Where<T>(t: seq<Row<T>>, p: T -> bool): (r: seq<Row<T>>)
    ensures forall i :: 0 <= i < |r| ==> r[i] in t && p(r[i].val)
    ensures forall i :: 0 <= i < |t| && p(t[i].val) ==> t[i] in r
    ensures |r| <= |t|
    ensures Ascending(t) ==> Ascending(r)
  {
    if t == [] then []
    else (if p(t[0].val) then [t[0]] else []) + Where(t[1..], p)
  }

  /** `destroy({ where: { id } })`: the table without the row with that key. */
  function DeleteId<T>(t: seq<Row<T>>, id: int): (r: seq<Row<T>>)
    ensures forall i :: 0 <= i < |r| ==> r[i] in t && r[i].id != id
    ensures forall i :: 0 <= i < |t| && t[i].id != id ==> t[i] in r
    ensures |r| <= |t|
  {
    if t == [] then []
    else (if t[0].id == id then [] else [t[0]]) + DeleteId(t[1..], id)
  }

  /** Removing rows keeps the keys ascending and below the sequence. */
  lemma DeleteIdWellKeyed<T>(t: seq<Row<T>>, id: int, next: int)
    requires WellKeyed(t, next)
    ensures WellKeyed(DeleteId(t, id), next)
  {
    var lo := if t == [] then 0 else t[0].id - 1;
    assert forall i :: 0 <= i < |t| ==> lo < t[i].id;
    DeleteIdBetween(t, id, lo, next);
  }

  /** Deleting from an ascending table whose keys lie strictly between `lo` and `next` keeps both facts. */
  lemma {:induction false} DeleteIdBetween<T>(t: seq<Row<T>>, id: int, lo: int, next: int)
    requires Ascending(t) && forall i :: 0 <= i < |t| ==> lo < t[i].id < next
    ensures var r := DeleteId(t, id); Ascending(r) && forall i :: 0 <= i < |r| ==> lo < r[i].id < next
    decreases |t|
  {
    if t != [] {
      assert Ascending(t[1..]);
      DeleteIdBetween(t[1..], id, t[0].id, next);
      if t[0].id != id {
        ConsBetween(t[0], DeleteId(t[1..], id), lo, next);
      }
    }
  }

  /** A row below every key of an ascending table can be put in front of it. */
  lemma ConsBetween<T>(h: Row<T>, rest: seq<Row<T>>, lo: int, next: int)
    requires lo < h.id < next && Ascending(rest) && forall i :: 0 <= i < |rest| ==> h.id < rest[i].id < next
    ensures Ascending([h] + rest) && forall i :: 0 <= i < |rest| + 1 ==> lo < ([h] + rest)[i].id < next
  {
    var r := [h] + rest;
    assert forall i :: 1 <= i < |r| ==> r[i] == rest[i - 1];
  }

  /** A row not carrying the deleted key survives the delete. */
  lemma DeleteIdKeepsOthers<T>(t: seq<Row<T>>, id: int)
    ensures Ids(DeleteId(t, id)) == Ids(t) - {id}
  {
    var r := DeleteId(t, id);
    forall k | k in Ids(t) - {id} ensures k in Ids(r) {
      var i :| 0 <= i < |t| && t[i].id == k;
      assert t[i] in r;
      var j :| 0 <= j < |r| && r[j] == t[i];
      assert r[j].id == k;
    }
    forall k | k in Ids(r) ensures k in Ids(t) - {id} {
      var j :| 0 <= j < |r| && r[j].id == k;
      assert r[j] in t;
      var i :| 0 <= i < |t| && t[i] == r[j];
      assert t[i].id == k;
    }
  }
}
