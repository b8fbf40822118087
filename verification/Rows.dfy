/** Tables as sequences of rows in insertion order: the first row a WHERE clause selects, the update of
    that row, the rows of one owner, and how these commute. */
module Rows {
  import opened Wrappers

  function First<T>(rows: seq<T>, where: T -> bool): (r: Option<T>)
    ensures r.Some? ==> where(r.value) && r.value in rows
    ensures r.None? <==> forall i | 0 <= i < |rows| :: !where(rows[i])
  {
    if rows == [] then None
    else if where(rows[0]) then Some(rows[0])
    else First(rows[1..], where)
  }

  /** The position of that row, |rows| when there is none. */
  function IndexOf<T>(rows: seq<T>, where: T -> bool): (k: nat)
    ensures k <= |rows|
    ensures k < |rows| ==> where(rows[k])
    ensures forall i | 0 <= i < k :: !where(rows[i])
  {
    if rows == [] then 0
    else if where(rows[0]) then 0
    else
      var k := IndexOf(rows[1..], where);
      assert forall i | 0 < i < k + 1 :: rows[i] == rows[1..][i - 1];
      k + 1
  }

  /** UPDATE of the one row a key selects. */
  function UpdateFirst<T>(rows: seq<T>, where: T -> bool, change: T -> T): (r: seq<T>)
    ensures |r| == |rows|
  {
    if rows == [] then []
    else if where(rows[0]) then [change(rows[0])] + rows[1..]
    else [rows[0]] + UpdateFirst(rows[1..], where, change)
  }

  function Filter<T(!new)>(rows: seq<T>, p: T -> bool): (r: seq<T>)
    ensures forall x :: x in r <==> x in rows && p(x)
  {
    if rows == [] then []
    else if p(rows[0]) then [rows[0]] + Filter(rows[1..], p)
    else Filter(rows[1..], p)
  }

  /** One more row of a prefix. */
  lemma FilterNext<T(!new)>(rows: seq<T>, i: nat, p: T -> bool)
    requires i < |rows|
    ensures Filter(rows[..i + 1], p) == Filter(rows[..i], p) + if p(rows[i]) then [rows[i]] else []
  {
    assert rows[..i + 1] == rows[..i] + [rows[i]];
    FilterAppend(rows[..i], rows[i], p);
  }

  /** Every row the clause selects belongs to p. */
  ghost predicate Within<T(!new)>(rows: seq<T>, where: T -> bool, p: T -> bool) {
    forall i | 0 <= i < |rows| :: where(rows[i]) ==> p(rows[i])
  }

  lemma {:induction false} FilterAppend<T(!new)>(rows: seq<T>, x: T, p: T -> bool)
    ensures Filter(rows + [x], p) == Filter(rows, p) + if p(x) then [x] else []
  {
    if rows != [] {
      assert (rows + [x])[1..] == rows[1..] + [x];
      FilterAppend(rows[1..], x, p);
    }
  }

  /** The row the clause selects, if any, belongs to p. */
  predicate Owned<T>(rows: seq<T>, where: T -> bool, p: T -> bool) {
    First(rows, where).Some? ==> p(First(rows, where).value)
  }

  /** A query reads the same from p's rows alone exactly when the row it selects, if any, is p's... */
  lemma {:induction false} FirstInFilter<T(!new)>(rows: seq<T>, where: T -> bool, p: T -> bool)
    ensures First(Filter(rows, p), where) == First(rows, where) <==> Owned(rows, where, p)
  {
    if rows != [] {
      var r := Filter(rows[1..], p);
      assert p(rows[0]) ==> ([rows[0]] + r)[1..] == r;
      FirstInFilter(rows[1..], where, p);
    }
  }

  /** ...then an update shows in p's rows as the same update... */
  lemma {:induction false} UpdateInFilter<T(!new)>(rows: seq<T>, where: T -> bool, change: T -> T, p: T -> bool)
    requires Owned(rows, where, p) && forall x | p(x) :: p(change(x))
    ensures Filter(UpdateFirst(rows, where, change), p) == UpdateFirst(Filter(rows, p), where, change)
  {
    if rows != [] {
      var r := rows[1..];
      var u := UpdateFirst(r, where, change);
      assert ([change(rows[0])] + r)[1..] == r && ([rows[0]] + u)[1..] == u;
      var f := Filter(r, p);
      assert ([rows[0]] + f)[1..] == f;
      if !where(rows[0]) { UpdateInFilter(r, where, change, p); }
    }
  }

  /** ...and an update of a row outside p does not show at all. */
  lemma {:induction false} UpdateOutsideFilter<T(!new)>(rows: seq<T>, where: T -> bool, change: T -> T, p: T -> bool)
    requires First(rows, where).Some? ==> !p(First(rows, where).value) && !p(change(First(rows, where).value))
    ensures Filter(UpdateFirst(rows, where, change), p) == Filter(rows, p)
  {
    if rows != [] {
      var r := rows[1..];
      var u := UpdateFirst(r, where, change);
      assert ([change(rows[0])] + r)[1..] == r && ([rows[0]] + u)[1..] == u;
      if !where(rows[0]) { UpdateOutsideFilter(r, where, change, p); }
    }
  }

  lemma {:induction false} FilterFilter<T(!new)>(rows: seq<T>, where: T -> bool, p: T -> bool)
    requires Within(rows, where, p)
    ensures Filter(Filter(rows, p), where) == Filter(rows, where)
  {
    if rows != [] {
      var f := Filter(rows[1..], p);
      assert ([rows[0]] + f)[1..] == f;
      FilterFilter(rows[1..], where, p);
    }
  }

  lemma {:induction false} FilterNone<T(!new)>(rows: seq<T>, p: T -> bool)
    requires forall i | 0 <= i < |rows| :: !p(rows[i])
    ensures Filter(rows, p) == []
  {
    if rows != [] {
      assert forall i | 0 <= i < |rows[1..]| :: rows[1..][i] == rows[i + 1];
      FilterNone(rows[1..], p);
    }
  }

  /** An update that changes neither clause keeps every selected row within p. */
  lemma {:induction false} WithinUpdate<T(!new)>(
    rows: seq<T>, where: T -> bool, change: T -> T, key: T -> bool, p: T -> bool)
    requires Within(rows, key, p)
    requires forall x :: key(change(x)) == key(x) && p(change(x)) == p(x)
    ensures Within(UpdateFirst(rows, where, change), key, p)
  {
    if First(rows, where).Some? {
      var k := UpdateFirstAt(rows, where, change);
    } else {
      UpdateFirstNone(rows, where, change);
    }
  }

  /** The updated row is some row's successor, the others are kept. */
  lemma {:induction false} UpdateFirstAt<T>(rows: seq<T>, where: T -> bool, change: T -> T) returns (k: nat)
    requires First(rows, where).Some?
    ensures k < |rows| && where(rows[k]) && First(rows, where) == Some(rows[k])
    ensures UpdateFirst(rows, where, change) == rows[k := change(rows[k])]
  {
    if where(rows[0]) {
      k := 0;
    } else {
      var j := UpdateFirstAt(rows[1..], where, change);
      k := j + 1;
    }
  }

  /** A row that the clause selects and none before it. */
  lemma {:induction false} FirstIs<T>(rows: seq<T>, where: T -> bool, k: nat)
    requires k < |rows| && where(rows[k]) && forall j | 0 <= j < k :: !where(rows[j])
    ensures First(rows, where) == Some(rows[k])
    ensures forall change: T -> T :: UpdateFirst(rows, where, change) == rows[k := change(rows[k])]
  {
    if k > 0 {
      FirstIs(rows[1..], where, k - 1);
      forall change: T -> T ensures UpdateFirst(rows, where, change) == rows[k := change(rows[k])] {
        assert UpdateFirst(rows[1..], where, change) == rows[1..][k - 1 := change(rows[k])];
      }
    }
  }

  /** at lists the positions of the rows that p selects, in order. */
  ghost predicate Positions<T(!new)>(rows: seq<T>, p: T -> bool, at: seq<nat>) {
    && (forall i, j | 0 <= i < j < |at| :: at[i] < at[j])
    && (forall i | 0 <= i < |at| :: at[i] < |rows| && p(rows[at[i]]))
    && (forall k | 0 <= k < |rows| && p(rows[k]) :: k in at)
  }

  /** A filter keeps exactly those rows, in that order. */
  lemma {:induction false} FilterAt<T(!new)>(rows: seq<T>, p: T -> bool) returns (at: seq<nat>)
    ensures Positions(rows, p, at)
    ensures |Filter(rows, p)| == |at| && forall i | 0 <= i < |at| :: Filter(rows, p)[i] == rows[at[i]]
  {
    at := [];
    if rows != [] {
      var n := |rows| - 1;
      var before := FilterAt(rows[..n], p);
      assert rows == rows[..n] + [rows[n]];
      FilterAppend(rows[..n], rows[n], p);
      at := before + if p(rows[n]) then [n] else [];
      OneMorePosition(rows, p, before, at);
    }
  }

  lemma OneMorePosition<T(!new)>(rows: seq<T>, p: T -> bool, before: seq<nat>, at: seq<nat>)
    requires rows != [] && Positions(rows[..|rows| - 1], p, before)
    requires at == before + if p(rows[|rows| - 1]) then [|rows| - 1] else []
    ensures Positions(rows, p, at)
  {
    var n := |rows| - 1;
    forall i | 0 <= i < |before| ensures before[i] < n && p(rows[before[i]]) {
      assert rows[..n][before[i]] == rows[before[i]];
    }
    forall k | 0 <= k < |rows| && p(rows[k]) ensures k in at {
      if k < n {
        assert rows[..n][k] == rows[k] && k in before;
      } else {
        assert at[|before|] == n;
      }
    }
  }

  lemma {:induction false} UpdateFirstNone<T>(rows: seq<T>, where: T -> bool, change: T -> T)
    requires First(rows, where).None?
    ensures UpdateFirst(rows, where, change) == rows
  {
    if rows != [] {
      assert First(rows[1..], where).None?;
      UpdateFirstNone(rows[1..], where, change);
    }
  }

  // ---- the same, executed row by row ----------------------------------------------------------------

  method SelectFirst<T>(rows: seq<T>, where: T -> bool) returns (r: Option<T>)
    ensures r == First(rows, where)
  {
    var i := 0;
    while i < |rows|
      invariant i <= |rows| && First(rows, where) == First(rows[i..], where)
    {
      if where(rows[i]) { return Some(rows[i]); }
      assert rows[i..][1..] == rows[i + 1..];
      i := i + 1;
    }
    r := None;
  }

  method Find<T>(rows: seq<T>, where: T -> bool) returns (k: nat)
    ensures k == IndexOf(rows, where)
  {
    k := 0;
    while k < |rows| && !where(rows[k])
      invariant k <= |rows| && forall i | 0 <= i < k :: !where(rows[i])
    {
      k := k + 1;
    }
  }

  method Update<T>(rows: seq<T>, where: T -> bool, change: T -> T) returns (r: seq<T>)
    ensures r == UpdateFirst(rows, where, change)
  {
    r := [];
    var i := 0;
    while i < |rows|
      invariant i <= |rows|
      invariant UpdateFirst(rows, where, change) == r + UpdateFirst(rows[i..], where, change)
    {
      assert rows[i..][1..] == rows[i + 1..];
      if where(rows[i]) {
        return r + [change(rows[i])] + rows[i + 1..];
      }
      r := r + [rows[i]];
      i := i + 1;
    }
  }

  method Select<T(!new)>(rows: seq<T>, p: T -> bool) returns (r: seq<T>)
    ensures r == Filter(rows, p)
  {
    r := [];
    var i := 0;
    while i < |rows|
      invariant i <= |rows| && Filter(rows, p) == r + Filter(rows[i..], p)
    {
      assert rows[i..][1..] == rows[i + 1..];
      if p(rows[i]) { r := r + [rows[i]]; }
      i := i + 1;
    }
  }
}
