/** Append-only tables whose rows are never deleted: cancelling a row stamps it with the id of an audit entry. */
module MatchTables {
  import opened Prelude

  datatype Row<T> = Row(val: T, stamp: Option<nat>)

  type Table<T> = seq<Row<T>>

  predicate Live<T>(rows: Table<T>, i: nat) {
    i < |rows| && rows[i].stamp.None?
  }

  function Append<T>(rows: Table<T>, val: T): Table<T> {
    rows + [Row(val, None)]
  }

  function SetVal<T>(rows: Table<T>, i: nat, val: T): Table<T>
    requires i < |rows|
  {
    rows[i := rows[i].(val := val)]
  }

  /** Stamps the rows named by ids that are still live. */
  function Stamp<T>(rows: Table<T>, ids: set<nat>, k: nat): (after: Table<T>)
    ensures |after| == |rows|
  {
    seq(|rows|, i requires 0 <= i < |rows| =>
      if i in ids && rows[i].stamp.None? then rows[i].(stamp := Some(k)) else rows[i])
  }

  /** Removes exactly the stamps k left. */
  function Clear<T>(rows: Table<T>, k: nat): (after: Table<T>)
    ensures |after| == |rows|
  {
    seq(|rows|, i requires 0 <= i < |rows| => if rows[i].stamp == Some(k) then rows[i].(stamp := None) else rows[i])
  }

  /** Nothing stamped k has changed, and nothing else has come to bear k. */
  ghost predicate Kept<T>(before: Table<T>, after: Table<T>, k: nat) {
    && |before| <= |after|
    && (forall i :: 0 <= i < |before| && before[i].stamp == Some(k) ==> after[i] == before[i])
    && (forall i :: 0 <= i < |after| && after[i].stamp == Some(k) ==> i < |before| && before[i].stamp == Some(k))
  }

  lemma KeptTrans<T>(a: Table<T>, b: Table<T>, c: Table<T>, k: nat)
    requires Kept(a, b, k) && Kept(b, c, k)
    ensures Kept(a, c, k)
  {}

  /** All stamps are audit ids already handed out. */
  ghost predicate StampsBelow<T>(rows: Table<T>, n: nat) {
    forall i :: 0 <= i < |rows| && rows[i].stamp.Some? ==> rows[i].stamp.value < n
  }

  /** Rows under k survive the change, and the stamps in use stay below n. */
  ghost predicate Carried<T>(before: Table<T>, after: Table<T>, k: nat, n: nat) {
    Kept(before, after, k) && StampsBelow(after, n)
  }

  lemma CarriedAppend<T>(rows: Table<T>, val: T, k: nat, n: nat)
    requires StampsBelow(rows, n)
    ensures Carried(rows, Append(rows, val), k, n)
  {}

  lemma CarriedStamp<T>(rows: Table<T>, ids: set<nat>, j: nat, k: nat)
    requires StampsBelow(rows, j) && k != j
    ensures Carried(rows, Stamp(rows, ids, j), k, j + 1)
  {}

  lemma CarriedClear<T>(rows: Table<T>, j: nat, k: nat, n: nat)
    requires StampsBelow(rows, n) && k != j
    ensures Carried(rows, Clear(rows, j), k, n)
  {}

  lemma CarriedSet<T>(rows: Table<T>, i: nat, val: T, k: nat, n: nat)
    requires StampsBelow(rows, n) && Live(rows, i)
    ensures Carried(rows, SetVal(rows, i, val), k, n)
  {}

  /** Stamping with k and clearing k cancel out when k is fresh. */
  lemma ClearUndoesStamp<T>(rows: Table<T>, ids: set<nat>, k: nat)
    requires StampsBelow(rows, k)
    ensures Clear(Stamp(rows, ids, k), k) == rows
  {}

  // ---------------------------------------------------------------- counting rows by where they stand

  function Count<T(==)>(s: seq<T>, x: T): nat {
    if s == [] then 0 else Count(s[..|s| - 1], x) + (if s[|s| - 1] == x then 1 else 0)
  }

  lemma {:induction false} CountAgrees<T>(s: seq<T>, t: seq<T>, x: T)
    requires |s| <= |t|
    requires forall i :: 0 <= i < |s| ==> (s[i] == x <==> t[i] == x)
    requires forall i :: |s| <= i < |t| ==> t[i] != x
    ensures Count(t, x) == Count(s, x)
  {
    if |s| < |t| { CountAgrees(s, t[..|t| - 1], x); } else if s != [] { CountAgrees(s[..|s| - 1], t[..|t| - 1], x); }
  }

  lemma {:induction false} CountMatches<T>(s: seq<T>, t: seq<T>, x: T, y: T)
    requires |s| == |t| && forall i :: 0 <= i < |s| ==> (s[i] == x <==> t[i] == y)
    ensures Count(s, x) == Count(t, y)
  {
    if s != [] { CountMatches(s[..|s| - 1], t[..|t| - 1], x, y); }
  }

  lemma {:induction false} CountUpdated<T>(s: seq<T>, i: nat, y: T, x: T)
    requires i < |s|
    ensures Count(s[i := y], x) + (if s[i] == x then 1 else 0) == Count(s, x) + (if y == x then 1 else 0)
  {
    var t := s[i := y];
    if i == |s| - 1 {
      assert t[..|s| - 1] == s[..|s| - 1];
    } else {
      assert t[..|s| - 1] == s[..|s| - 1][i := y];
      CountUpdated(s[..|s| - 1], i, y, x);
    }
  }

  lemma {:induction false} CountIsZero<T>(s: seq<T>, x: T)
    ensures Count(s, x) == 0 <==> x !in s
  {
    if s != [] {
      CountIsZero(s[..|s| - 1], x);
      assert s == s[..|s| - 1] + [s[|s| - 1]];
    }
  }

  lemma {:induction false} CountIsOne<T>(s: seq<T>, x: T, i: nat, j: nat)
    requires i < j < |s| && s[i] == x && s[j] == x
    ensures Count(s, x) >= 2
  {
    var init := s[..|s| - 1];
    if j == |s| - 1 {
      assert init[i] == x;
      CountIsZero(init, x);
    } else {
      CountIsOne(init, x, i, j);
    }
  }

  /** A row under an audit stamp, with what matters about it. */
  type Tag<K> = (Option<nat>, K)

  /** What leaves the live rows arrives under the fresh stamp. */
  lemma {:induction false} CountShifted<K>(s: seq<Tag<K>>, t: seq<Tag<K>>, k: nat, x: K)
    requires |s| == |t|
    requires forall i :: 0 <= i < |s| ==> s[i].0 != Some(k)
    requires forall i :: 0 <= i < |s| ==> t[i] == s[i] || (s[i].0 == None && t[i] == (Some(k), s[i].1))
    ensures Count(t, (None, x)) + Count(t, (Some(k), x)) == Count(s, (None, x))
  {
    if s != [] { CountShifted(s[..|s| - 1], t[..|t| - 1], k, x); }
  }

  /** Removing stamp k gives the live rows back what k holds. */
  lemma {:induction false} CountRestored<K>(s: seq<Tag<K>>, t: seq<Tag<K>>, k: nat, x: K)
    requires |s| == |t|
    requires forall i :: 0 <= i < |s| ==> t[i] == if s[i].0 == Some(k) then (None, s[i].1) else s[i]
    ensures Count(t, (None, x)) == Count(s, (None, x)) + Count(s, (Some(k), x))
  {
    if s != [] { CountRestored(s[..|s| - 1], t[..|t| - 1], k, x); }
  }
}
