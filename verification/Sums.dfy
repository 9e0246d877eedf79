/** Sums over the rollup table, as SQL's SUM with a condition. */
module Sums {
  import opened AuditEvent
  import opened Store

  /** The total count of the rows whose key satisfies `w`. */
  ghost function SumOver(m: RollupTable, w: RollupKey -> bool): nat
    decreases |m|
  {
    if m == map[] then 0
    else
      var k :| k in m;
      (if w(k) then m[k] else 0) + SumOver(m - {k}, w)
  }

  /** The order in which rows are visited does not matter. */
  lemma {:induction false} SumRemove(m: RollupTable, w: RollupKey -> bool, k: RollupKey)
    requires k in m
    ensures SumOver(m, w) == (if w(k) then m[k] else 0) + SumOver(m - {k}, w)
    decreases |m|
  {
    var j :| j in m && SumOver(m, w) == (if w(j) then m[j] else 0) + SumOver(m - {j}, w);
    if j != k {
      SumRemove(m - {j}, w, k);
      SumRemove(m - {k}, w, j);
      assert m - {j} - {k} == m - {k} - {j};
    }
  }

  lemma {:induction false} SumUpdate(m: RollupTable, w: RollupKey -> bool, k: RollupKey, n: nat)
    ensures SumOver(m[k := n], w) + (if w(k) then Get(m, k) else 0) == SumOver(m, w) + if w(k) then n else 0
  {
    SumRemove(m[k := n], w, k);
    if k in m {
      SumRemove(m, w, k);
      assert m[k := n] - {k} == m - {k};
    } else {
      assert m[k := n] - {k} == m;
    }
  }

  lemma {:induction false} SumEqual(m: RollupTable, v: RollupKey -> bool, w: RollupKey -> bool)
    requires forall k :: k in m ==> v(k) == w(k)
    ensures SumOver(m, v) == SumOver(m, w)
    decreases |m|
  {
    if m != map[] {
      var k :| k in m;
      SumRemove(m, v, k);
      SumRemove(m, w, k);
      SumEqual(m - {k}, v, w);
    }
  }

  /** A condition that splits in two. */
  lemma {:induction false} SumSplit(m: RollupTable, u: RollupKey -> bool, v: RollupKey -> bool, w: RollupKey -> bool)
    requires forall k :: k in m ==> (u(k) <==> v(k) || w(k)) && !(v(k) && w(k))
    ensures SumOver(m, u) == SumOver(m, v) + SumOver(m, w)
    decreases |m|
  {
    if m != map[] {
      var k :| k in m;
      SumRemove(m, u, k);
      SumRemove(m, v, k);
      SumRemove(m, w, k);
      SumSplit(m - {k}, u, v, w);
    }
  }

  lemma {:induction false} SumNone(m: RollupTable, w: RollupKey -> bool)
    requires forall k :: k in m ==> !w(k)
    ensures SumOver(m, w) == 0
    decreases |m|
  {
    if m != map[] {
      var k :| k in m;
      SumRemove(m, w, k);
      SumNone(m - {k}, w);
    }
  }

  /** The total count of a list of rollups whose key satisfies `w`. */
  ghost function SumOfList(rs: seq<MetricRollup>, w: RollupKey -> bool): nat
    requires Positive(rs)
  {
    if rs == [] then 0
    else SumOfList(rs[..|rs| - 1], w) + if w(KeyOf(rs[|rs| - 1])) then rs[|rs| - 1].count else 0
  }

  lemma NoSum(w: RollupKey -> bool)
    ensures SumOfList([], w) == 0
  {
  }

  /** Counts are conserved: what is upserted is what every sum over the table grows by. */
  lemma {:induction false} UpsertConserves(m: RollupTable, rs: seq<MetricRollup>, w: RollupKey -> bool)
    requires Positive(rs)
    ensures SumOver(UpsertAll(m, rs), w) == SumOver(m, w) + SumOfList(rs, w)
  {
    hide KeyOf;
    if rs != [] {
      var before, last := UpsertAll(m, rs[..|rs| - 1]), rs[|rs| - 1];
      UpsertConserves(m, rs[..|rs| - 1], w);
      SumUpdate(before, w, KeyOf(last), Get(before, KeyOf(last)) + last.count);
      hide SumOver;
    }
  }
}
