// Shared vocabulary: optional values and the ascending order in which SQLite
// returns rows selected with "ORDER BY user_id".
module Prelude {
  datatype Option<+T> = None | Some(value: T)

  // The elements of a finite set of integers in ascending order.
  function Ascending(ids: set<int>): (s: seq<int>)
    ensures forall i, j :: 0 <= i < j < |s| ==> s[i] < s[j]
    ensures forall x :: x in ids <==> x in s
  {
    if ids == {} then []
    else
      LeastExists(ids);
      var least :| IsLeast(least, ids);
      [least] + Ascending(ids - {least})
  }

  predicate IsLeast(m: int, ids: set<int>) { m in ids && forall x :: x in ids ==> m <= x }

  lemma LeastExists(ids: set<int>)
    requires ids != {}
    ensures exists m :: IsLeast(m, ids)
  {
    var m := SomeMember(ids);
    var rest := ids - {m};
    if rest == {} {
      assert ids == {m};
      assert IsLeast(m, ids);
    } else {
      LeastExists(rest);
      var k :| IsLeast(k, rest);
      LeastOfBoth(ids, m, k);
      assert IsLeast(if k < m then k else m, ids);
    }
  }

  lemma SomeMember(ids: set<int>) returns (m: int)
    requires ids != {}
    ensures m in ids
  {
    NoMembers(ids);
    m :| m in ids;
  }

  lemma NoMembers(ids: set<int>)
    ensures (forall m: int :: m !in ids) ==> ids == {}
  {
    if forall m: int :: m !in ids {
      assert ids == {};
    }
  }

  lemma LeastOfBoth(ids: set<int>, m: int, k: int)
    requires m in ids && IsLeast(k, ids - {m})
    ensures IsLeast(if k < m then k else m, ids)
  {
    forall x | x in ids ensures k <= x || m <= x {
      if x != m { assert x in ids - {m}; }
    }
  }

  // UPDATE statements issued one row at a time over a list of ids.
  function UpdateRows<V>(rows: map<int, V>, ids: seq<int>, f: (int, V) -> V): map<int, V> {
    if ids == [] then rows
    else
      var k := |ids| - 1;
      var u := ids[k];
      var earlier := UpdateRows(rows, ids[..k], f);
      if u in earlier then earlier[u := f(u, earlier[u])] else earlier
  }

  lemma {:induction false} UpdateRowsAt<V>(rows: map<int, V>, ids: seq<int>, f: (int, V) -> V)
    requires forall i, j :: 0 <= i < j < |ids| ==> ids[i] < ids[j]
    ensures UpdateRows(rows, ids, f).Keys == rows.Keys
    ensures forall u :: u in rows ==>
      UpdateRows(rows, ids, f)[u] == if u in ids then f(u, rows[u]) else rows[u]
  {
    if ids != [] {
      var k := |ids| - 1;
      UpdateRowsAt(rows, ids[..k], f);
      assert ids == ids[..k] + [ids[k]];
    }
  }

  lemma UpdateRowsNext<V>(rows: map<int, V>, ids: seq<int>, i: nat, f: (int, V) -> V)
    requires forall i, j :: 0 <= i < j < |ids| ==> ids[i] < ids[j]
    requires i < |ids| && ids[i] in rows
    ensures ids[i] in UpdateRows(rows, ids[..i], f)
    ensures UpdateRows(rows, ids[..i], f)[ids[i]] == rows[ids[i]]
    ensures UpdateRows(rows, ids[..i + 1], f) == UpdateRows(rows, ids[..i], f)[ids[i] := f(ids[i], rows[ids[i]])]
  {
    UpdateRowsAt(rows, ids[..i], f);
    assert ids[..i + 1][..i] == ids[..i];
  }
}
