/**
The audit database: a table of events, unique by id and kept in insertion order,
and a table of rollup counts by primary key. Transactions happen entirely or not at all.
*/
module Store {
  import opened AuditEvent
  import opened Clock
  import opened Text

  // ----- Event table -----

  predicate HasId(events: seq<Event>, id: string) {
    exists i :: 0 <= i < |events| && events[i].id == id
  }

  /** A duplicate id leaves the original row. */
  function InsertOne(events: seq<Event>, e: Event): seq<Event> {
    if HasId(events, e.id) then events else events + [e]
  }

  function InsertAll(events: seq<Event>, es: seq<Event>): seq<Event> {
    if es == [] then events else InsertOne(InsertAll(events, es[..|es| - 1]), es[|es| - 1])
  }

  lemma {:induction false} InsertAppend(events: seq<Event>, a: seq<Event>, b: seq<Event>)
    ensures InsertAll(events, a + b) == InsertAll(InsertAll(events, a), b)
  {
    if b == [] {
      assert a + b == a;
    } else {
      InsertAppend(events, a, b[..|b| - 1]);
      assert (a + b)[..|a + b| - 1] == a + b[..|b| - 1];
    }
  }

  /** Rows stay, and everything inserted is there afterwards. */
  lemma {:induction false} InsertKeeps(events: seq<Event>, es: seq<Event>)
    ensures events <= InsertAll(events, es)
    ensures forall e :: e in es ==> HasId(InsertAll(events, es), e.id)
  {
    if es != [] {
      var before := InsertAll(events, es[..|es| - 1]);
      var last := es[|es| - 1];
      InsertKeeps(events, es[..|es| - 1]);
      var after := InsertOne(before, last);
      assert before <= after;
      forall e | e in es ensures HasId(after, e.id) {
        if e == last {
          assert HasId(before, e.id) || after[|before|].id == e.id;
        } else {
          assert e in es[..|es| - 1];
          var i :| 0 <= i < |before| && before[i].id == e.id;
          assert after[i].id == e.id;
        }
      }
    }
  }

  /** Only what is inserted is added. */
  lemma {:induction false} InsertAddsOnly(events: seq<Event>, es: seq<Event>)
    ensures forall e :: e in InsertAll(events, es) ==> e in events || e in es
  {
    if es != [] {
      InsertAddsOnly(events, es[..|es| - 1]);
    }
  }

  lemma {:induction false} InsertPresent(events: seq<Event>, es: seq<Event>)
    requires forall e :: e in es ==> HasId(events, e.id)
    ensures InsertAll(events, es) == events
  {
    if es != [] {
      InsertPresent(events, es[..|es| - 1]);
      assert es[|es| - 1] in es;
    }
  }

  /** Replaying rows that are already there, with more behind them, is harmless. */
  lemma InsertReplay(events: seq<Event>, done: seq<Event>, more: seq<Event>)
    ensures InsertAll(InsertAll(events, done), done + more) == InsertAll(events, done + more)
  {
    var t := InsertAll(events, done);
    InsertAppend(t, done, more);
    InsertKeeps(events, done);
    InsertPresent(t, done);
    InsertAppend(events, done, more);
  }

  predicate UniqueIds(events: seq<Event>) {
    forall i, j :: 0 <= i < j < |events| ==> events[i].id != events[j].id
  }

  lemma InsertKeepsUnique(events: seq<Event>, es: seq<Event>)
    requires UniqueIds(events)
    ensures UniqueIds(InsertAll(events, es))
  {
  }

  // ----- Rollup table -----

  datatype RollupKey = RollupKey(
    bucketStart: Time,
    bucketSize: int,
    endpoint: string,
    method_: string,
    action: string,
    result: string,
    statusClass: string,
    statusCode: int)

  type RollupTable = map<RollupKey, nat>

  function Get(table: RollupTable, key: RollupKey): nat {
    if key in table then table[key] else 0
  }

  function KeyOf(r: MetricRollup): RollupKey {
    RollupKey(r.bucketStart, TruncDiv(r.bucketSize, SECOND), TrimSpace(r.endpoint), ToUpper(TrimSpace(r.method_)),
              TrimSpace(r.action), ToLower(TrimSpace(r.result)), ToLower(TrimSpace(r.statusClass)), r.statusCode)
  }

  /** Spelled alike, but for white space around the fields, and for case in all but endpoint and action. */
  predicate SpelledAlike(a: MetricRollup, b: MetricRollup) {
    && TrimSpace(a.endpoint) == TrimSpace(b.endpoint) && TrimSpace(a.action) == TrimSpace(b.action)
    && ToLower(TrimSpace(a.method_)) == ToLower(TrimSpace(b.method_))
    && ToLower(TrimSpace(a.result)) == ToLower(TrimSpace(b.result))
    && ToLower(TrimSpace(a.statusClass)) == ToLower(TrimSpace(b.statusClass))
  }

  /** Rollups share a row exactly if they are spelled alike and agree in start, code and whole seconds of size. */
  lemma SameRow(a: MetricRollup, b: MetricRollup)
    ensures KeyOf(a) == KeyOf(b) <==>
      SpelledAlike(a, b) && a.bucketStart == b.bucketStart && a.statusCode == b.statusCode
      && TruncDiv(a.bucketSize, SECOND) == TruncDiv(b.bucketSize, SECOND)
  {
    SameFolded(TrimSpace(a.method_), TrimSpace(b.method_));
    hide TrimSpace, ToUpper, ToLower;
  }

  function UpsertOne(table: RollupTable, r: MetricRollup): RollupTable
    requires r.count > 0
  {
    table[KeyOf(r) := Get(table, KeyOf(r)) + r.count]
  }

  predicate Positive(rs: seq<MetricRollup>) {
    forall i :: 0 <= i < |rs| ==> rs[i].count > 0
  }

  function UpsertAll(table: RollupTable, rs: seq<MetricRollup>): RollupTable
    requires Positive(rs)
  {
    if rs == [] then table else UpsertOne(UpsertAll(table, rs[..|rs| - 1]), rs[|rs| - 1])
  }

  lemma {:induction false} UpsertAppend(table: RollupTable, a: seq<MetricRollup>, b: seq<MetricRollup>)
    requires Positive(a) && Positive(b)
    ensures Positive(a + b) && UpsertAll(table, a + b) == UpsertAll(UpsertAll(table, a), b)
  {
    if b == [] {
      assert a + b == a;
    } else {
      UpsertAppend(table, a, b[..|b| - 1]);
      assert (a + b)[..|a + b| - 1] == a + b[..|b| - 1];
    }
  }

  /** The total count of the rollups with one primary key. */
  function SumFor(rs: seq<MetricRollup>, key: RollupKey): nat
    requires Positive(rs)
  {
    if rs == [] then 0
    else SumFor(rs[..|rs| - 1], key) + if KeyOf(rs[|rs| - 1]) == key then rs[|rs| - 1].count else 0
  }

  lemma {:induction false} UpsertIsSum(table: RollupTable, rs: seq<MetricRollup>, key: RollupKey)
    requires Positive(rs)
    ensures Get(UpsertAll(table, rs), key) == Get(table, key) + SumFor(rs, key)
    ensures key in UpsertAll(table, rs) <==> key in table || SumFor(rs, key) > 0
  {
    if rs != [] { UpsertIsSum(table, rs[..|rs| - 1], key); }
  }

  /** Two lists of rollups with the same totals leave the same table. */
  lemma UpsertBySums(table: RollupTable, a: seq<MetricRollup>, b: seq<MetricRollup>)
    requires Positive(a) && Positive(b)
    requires forall key :: SumFor(a, key) == SumFor(b, key)
    ensures UpsertAll(table, a) == UpsertAll(table, b)
  {
    hide UpsertAll, SumFor;
    forall key ensures key in UpsertAll(table, a) <==> key in UpsertAll(table, b)
               ensures Get(UpsertAll(table, a), key) == Get(UpsertAll(table, b), key) {
      UpsertIsSum(table, a, key);
      UpsertIsSum(table, b, key);
    }
    assert forall key :: key in UpsertAll(table, a) ==> Get(UpsertAll(table, a), key) == UpsertAll(table, a)[key];
    assert forall key :: key in UpsertAll(table, b) ==> Get(UpsertAll(table, b), key) == UpsertAll(table, b)[key];
  }

  // ----- Merging -----

  /** Missing bucket size, start and count are filled in before merging. */
  function Defaulted(r: MetricRollup, now: Time): (d: MetricRollup)
    ensures d.count > 0
  {
    var size := if r.bucketSize <= 0 then MINUTE else r.bucketSize;
    r.(bucketSize := size,
       bucketStart := if r.bucketStart == ZERO_TIME then Truncated(now, size) else r.bucketStart,
       count := if r.count <= 0 then 1 else r.count)
  }

  /**
   What is missing is filled in, and nothing else changes: a minute for the size, one for
   the count, and for the start that of the bucket of that size which holds this moment,
   in buckets counted from the first instant of year 1.
   */
  lemma DefaultsFillIn(r: MetricRollup, now: Time)
    ensures var d := Defaulted(r, now);
      && d.endpoint == r.endpoint && d.method_ == r.method_ && d.action == r.action && d.result == r.result
      && d.statusClass == r.statusClass && d.statusCode == r.statusCode
      && (r.count > 0 ==> d.count == r.count) && (r.count <= 0 ==> d.count == 1)
      && (r.bucketSize > 0 ==> d.bucketSize == r.bucketSize) && (r.bucketSize <= 0 ==> d.bucketSize == 60 * SECOND)
      && (r.bucketStart != ZERO_TIME ==> d.bucketStart == r.bucketStart)
      && (r.bucketStart == ZERO_TIME ==> d.bucketStart <= now < d.bucketStart + d.bucketSize)
      && (r.bucketStart == ZERO_TIME ==> (d.bucketStart - ZERO_TIME) % d.bucketSize == 0)
  {
  }

  /**
   The text rollups are merged by. A number stands for the formatted time: only that
   it is injective and free of `|` matters. The bucket size is not part of the text.
   */
  function MergeKey(r: MetricRollup): string {
    Joined(SignedDecimal(r.bucketStart), Joined(r.endpoint, Joined(r.method_, Joined(r.action, Joined(r.result,
      Joined(r.statusClass, SignedDecimal(r.statusCode)))))))
  }

  function Joined(first: string, rest: string): string {
    first + "|" + rest
  }

  type Merging = map<string, MetricRollup>

  function MergeOne(merged: Merging, r: MetricRollup): Merging {
    var key := MergeKey(r);
    if key !in merged || merged[key].count == 0 then merged[key := r]
    else merged[key := merged[key].(count := merged[key].count + r.count)]
  }

  function Merged(rs: seq<MetricRollup>, now: Time): Merging {
    if rs == [] then map[] else MergeOne(Merged(rs[..|rs| - 1], now), Defaulted(rs[|rs| - 1], now))
  }

  ghost predicate Keyed(merged: Merging) {
    forall key :: key in merged ==> MergeKey(merged[key]) == key && merged[key].count > 0
  }

  lemma {:induction false} MergedKeys(rs: seq<MetricRollup>, now: Time)
    ensures Keyed(Merged(rs, now))
  {
    if rs != [] {
      MergedKeys(rs[..|rs| - 1], now);
      MergeOneKeyed(Merged(rs[..|rs| - 1], now), Defaulted(rs[|rs| - 1], now));
    }
  }

  lemma MergeOneKeyed(merged: Merging, r: MetricRollup)
    requires Keyed(merged) && r.count > 0
    ensures Keyed(MergeOne(merged, r))
  {
    forall key | key in merged ensures MergeKey(merged[key].(count := merged[key].count + r.count)) == key {
      Recounted(merged[key], merged[key].count + r.count);
    }
    hide MergeKey;
  }

  /** Counts are no part of either key. */
  lemma Recounted(r: MetricRollup, count: int)
    ensures MergeKey(r.(count := count)) == MergeKey(r) && KeyOf(r.(count := count)) == KeyOf(r)
  {
  }

  /** `out` lists the merged rollups once each, in some order. */
  ghost predicate Lists(out: seq<MetricRollup>, merged: Merging) {
    && (forall i :: 0 <= i < |out| ==> MergeKey(out[i]) in merged && merged[MergeKey(out[i])] == out[i])
    && (forall i, j :: 0 <= i < j < |out| ==> MergeKey(out[i]) != MergeKey(out[j]))
    && (forall key :: key in merged ==> merged[key] in out)
  }

  lemma MergedStep(rs: seq<MetricRollup>, i: nat, now: Time)
    requires i < |rs|
    ensures Merged(rs[..i + 1], now) == MergeOne(Merged(rs[..i], now), Defaulted(rs[i], now))
  {
    assert rs[..i + 1][..i] == rs[..i];
    hide MergeOne, Defaulted;
  }

  method MergeRollups(rollups: seq<MetricRollup>, now: Time) returns (out: seq<MetricRollup>)
    ensures Lists(out, Merged(rollups, now)) && Positive(out)
  {
    hide MergeKey, Truncated, Lists;
    var merged: Merging := map[];
    assert rollups[..0] == [];
    assert Merged(rollups[..0], now) == map[];
    hide Merged;
    for i := 0 to |rollups|
      invariant merged == Merged(rollups[..i], now)
    {
      var rollup := rollups[i];
      if rollup.bucketSize <= 0 {
        rollup := rollup.(bucketSize := MINUTE);
      }
      if rollup.bucketStart == ZERO_TIME {
        rollup := rollup.(bucketStart := Truncated(now, rollup.bucketSize));
      }
      if rollup.count <= 0 {
        rollup := rollup.(count := 1);
      }
      MergedStep(rollups, i, now);
      assert rollup == Defaulted(rollups[i], now);
      hide Defaulted;
      var key := MergeKey(rollup);
      if key !in merged || merged[key].count == 0 {
        merged := merged[key := rollup];
      } else {
        merged := merged[key := merged[key].(count := merged[key].count + rollup.count)];
      }
    }
    assert rollups[..|rollups|] == rollups;
    MergedKeys(rollups, now);
    out := Values(merged);
  }

  /** Ranges over the map, in whatever order its keys come. */
  method Values(merged: Merging) returns (out: seq<MetricRollup>)
    requires Keyed(merged)
    ensures Lists(out, merged) && Positive(out)
  {
    hide MergeKey;
    out := [];
    var pending := merged.Keys;
    while pending != {}
      invariant pending <= merged.Keys
      invariant Positive(out)
      invariant forall i :: 0 <= i < |out| ==>
        MergeKey(out[i]) in merged && MergeKey(out[i]) !in pending && merged[MergeKey(out[i])] == out[i]
      invariant forall i, j :: 0 <= i < j < |out| ==> MergeKey(out[i]) != MergeKey(out[j])
      invariant forall key :: key in merged && key !in pending ==> merged[key] in out
      decreases |pending|
    {
      var key :| key in pending;
      out := out + [merged[key]];
      pending := pending - {key};
    }
  }

  // ----- What a merged batch adds -----

  /** The total count that a merged map holds for one primary key. */
  ghost function MapSum(merged: Merging, key: RollupKey): nat
    requires Keyed(merged)
    decreases |merged|
  {
    if merged == map[] then 0
    else
      var text :| text in merged;
      (if KeyOf(merged[text]) == key then merged[text].count else 0) + MapSum(merged - {text}, key)
  }

  lemma {:induction false} MapSumRemove(merged: Merging, key: RollupKey, text: string)
    requires Keyed(merged) && text in merged
    ensures MapSum(merged, key)
      == (if KeyOf(merged[text]) == key then merged[text].count else 0) + MapSum(merged - {text}, key)
    decreases |merged|
  {
    hide KeyOf, MergeKey;
    var first :| first in merged && MapSum(merged, key)
      == (if KeyOf(merged[first]) == key then merged[first].count else 0) + MapSum(merged - {first}, key);
    if first != text {
      MapSumRemove(merged - {first}, key, text);
      MapSumRemove(merged - {text}, key, first);
      assert merged - {first} - {text} == merged - {text} - {first};
    }
  }

  lemma MapSumUpdate(merged: Merging, key: RollupKey, text: string, r: MetricRollup)
    requires Keyed(merged) && MergeKey(r) == text && r.count > 0
    ensures Keyed(merged[text := r])
    ensures MapSum(merged[text := r], key) == (if KeyOf(r) == key then r.count else 0) + MapSum(merged - {text}, key)
  {
    hide KeyOf, MergeKey;
    MapSumRemove(merged[text := r], key, text);
    assert merged[text := r] - {text} == merged - {text};
  }

  /** One more rollup adds its count, if what it is merged into has the same primary key. */
  lemma MergeOneSum(merged: Merging, key: RollupKey, r: MetricRollup)
    requires Keyed(merged) && r.count > 0
    requires MergeKey(r) in merged ==> KeyOf(merged[MergeKey(r)]) == KeyOf(r)
    ensures Keyed(MergeOne(merged, r))
    ensures MapSum(MergeOne(merged, r), key) == MapSum(merged, key) + if KeyOf(r) == key then r.count else 0
  {
    hide KeyOf, MergeKey;
    var text := MergeKey(r);
    if text in merged {
      var more := merged[text].(count := merged[text].count + r.count);
      Recounted(merged[text], more.count);
      MapSumUpdate(merged, key, text, more);
      MapSumRemove(merged, key, text);
    } else {
      MapSumUpdate(merged, key, text, r);
      assert merged - {text} == merged;
    }
  }

  lemma ListsButLast(out: seq<MetricRollup>, merged: Merging)
    requires Lists(out, merged) && Keyed(merged) && out != []
    ensures var last := out[|out| - 1];
      MergeKey(last) in merged && merged[MergeKey(last)] == last && Lists(out[..|out| - 1], merged - {MergeKey(last)})
  {
    hide MergeKey;
    var n := |out| - 1;
    var less := merged - {MergeKey(out[n])};
    forall key | key in less ensures less[key] in out[..n] {
      assert merged[key] in out;
      var i :| 0 <= i < |out| && out[i] == merged[key];
      assert MergeKey(out[i]) in merged;
      assert i != n ==> out[..n][i] == merged[key];
    }
  }

  lemma {:induction false} ListsSum(out: seq<MetricRollup>, merged: Merging, key: RollupKey)
    requires Lists(out, merged) && Keyed(merged)
    ensures Positive(out) && SumFor(out, key) == MapSum(merged, key)
  {
    hide KeyOf, MergeKey;
    assert forall text :: text in merged ==> merged[text] in out;
    if out == [] {
      assert merged == map[];
    } else {
      var n := |out| - 1;
      ListsButLast(out, merged);
      ListsSum(out[..n], merged - {MergeKey(out[n])}, key);
      MapSumRemove(merged, key, MergeKey(out[n]));
      hide Lists;
    }
  }

  ghost function AnyOrder(merged: Merging): seq<MetricRollup>
    decreases |merged|
  {
    if merged == map[] then []
    else
      var text :| text in merged;
      AnyOrder(merged - {text}) + [merged[text]]
  }

  lemma {:induction false} AnyOrderLists(merged: Merging)
    requires Keyed(merged)
    ensures Lists(AnyOrder(merged), merged) && Positive(AnyOrder(merged))
    decreases |merged|
  {
    hide MergeKey;
    if merged != map[] {
      var text :| text in merged && AnyOrder(merged) == AnyOrder(merged - {text}) + [merged[text]];
      AnyOrderLists(merged - {text});
      ListsOneMore(AnyOrder(merged - {text}), merged, text);
    }
  }

  lemma ListsOneMore(out: seq<MetricRollup>, merged: Merging, text: string)
    requires Keyed(merged) && text in merged && Lists(out, merged - {text}) && Positive(out)
    ensures Lists(out + [merged[text]], merged) && Positive(out + [merged[text]])
  {
    hide MergeKey;
    var more := out + [merged[text]];
    assert more[|out|] == merged[text];
    forall i | 0 <= i < |more| ensures MergeKey(more[i]) in merged && merged[MergeKey(more[i])] == more[i] {
      if i < |out| { assert MergeKey(out[i]) in merged - {text}; }
    }
    forall i, j | 0 <= i < j < |more| ensures MergeKey(more[i]) != MergeKey(more[j]) {
      assert MergeKey(out[i]) in merged - {text};
    }
    forall key | key in merged ensures merged[key] in more {
      if key != text { assert (merged - {text})[key] in out; }
    }
  }

  lemma ListsPositive(out: seq<MetricRollup>, merged: Merging)
    requires Lists(out, merged) && Keyed(merged)
    ensures Positive(out)
  {
    hide MergeKey;
  }

  /** The rollup table after a batch has been merged and the result upserted. */
  ghost function MergedInto(table: RollupTable, rs: seq<MetricRollup>, now: Time): RollupTable {
    MergedKeys(rs, now);
    AnyOrderLists(Merged(rs, now));
    UpsertAll(table, AnyOrder(Merged(rs, now)))
  }

  /** The order in which the map gives its entries makes no difference to the table. */
  lemma {:induction false} AnyOrderWillDo(table: RollupTable, rs: seq<MetricRollup>, now: Time, out: seq<MetricRollup>)
    requires Lists(out, Merged(rs, now))
    ensures Positive(out) && UpsertAll(table, out) == MergedInto(table, rs, now)
  {
    hide KeyOf, MergeKey, Merged, UpsertAll, AnyOrder, Lists;
    MergedKeys(rs, now);
    var merged := Merged(rs, now);
    AnyOrderLists(merged);
    ListsPositive(out, merged);
    forall key ensures SumFor(out, key) == SumFor(AnyOrder(merged), key) {
      ListsSum(out, merged, key);
      ListsSum(AnyOrder(merged), merged, key);
    }
    UpsertBySums(table, out, AnyOrder(merged));
  }

  // ----- When merging is faithful -----

  function Defaults(rs: seq<MetricRollup>, now: Time): (ds: seq<MetricRollup>)
    ensures |ds| == |rs| && Positive(ds)
    ensures forall i :: 0 <= i < |rs| ==> ds[i] == Defaulted(rs[i], now)
  {
    seq(|rs|, i requires 0 <= i < |rs| => Defaulted(rs[i], now))
  }

  /** Rollups that are merged have one primary key. */
  predicate NonConflating(ds: seq<MetricRollup>) {
    forall i, j :: 0 <= i < |ds| && 0 <= j < |ds| && MergeKey(ds[i]) == MergeKey(ds[j]) ==> KeyOf(ds[i]) == KeyOf(ds[j])
  }

  /** Merging the batch and upserting the result is upserting the rollups one at a time. */
  ghost predicate Faithful(rs: seq<MetricRollup>, now: Time) {
    forall table: RollupTable :: MergedInto(table, rs, now) == UpsertAll(table, Defaults(rs, now))
  }

  /** Every text of the batch is in the merged map, under the primary key of some rollup with that text. */
  ghost predicate Represents(merged: Merging, ds: seq<MetricRollup>) {
    && (forall text :: text in merged ==>
      exists i :: 0 <= i < |ds| && MergeKey(ds[i]) == text && KeyOf(ds[i]) == KeyOf(merged[text]))
    && (forall i :: 0 <= i < |ds| ==> MergeKey(ds[i]) in merged)
  }

  lemma DefaultsButLast(rs: seq<MetricRollup>, now: Time)
    requires rs != []
    ensures Defaults(rs, now)[..|rs| - 1] == Defaults(rs[..|rs| - 1], now)
    ensures Defaults(rs, now)[|rs| - 1] == Defaulted(rs[|rs| - 1], now)
  {
    hide Defaulted;
  }

  lemma RepresentsOneMore(merged: Merging, ds: seq<MetricRollup>)
    requires ds != [] && Keyed(merged) && Represents(merged, ds[..|ds| - 1])
    ensures Represents(MergeOne(merged, ds[|ds| - 1]), ds)
  {
    hide KeyOf, MergeKey;
    var n := |ds| - 1;
    var after := MergeOne(merged, ds[n]);
    forall text | text in after
      ensures exists i :: 0 <= i < |ds| && MergeKey(ds[i]) == text && KeyOf(ds[i]) == KeyOf(after[text]) {
      if text in merged {
        var i :| 0 <= i < n && MergeKey(ds[..n][i]) == text && KeyOf(ds[..n][i]) == KeyOf(merged[text]);
        assert ds[..n][i] == ds[i];
        Recounted(merged[text], merged[text].count + ds[n].count);
      }
    }
    forall i | 0 <= i < |ds| ensures MergeKey(ds[i]) in after {
      if i < n { assert ds[..n][i] == ds[i]; }
    }
  }

  lemma {:induction false} MergedRepresents(rs: seq<MetricRollup>, now: Time)
    ensures Represents(Merged(rs, now), Defaults(rs, now))
  {
    hide KeyOf, MergeKey, Defaulted, MergeOne;
    if rs != [] {
      MergedRepresents(rs[..|rs| - 1], now);
      MergedKeys(rs[..|rs| - 1], now);
      DefaultsButLast(rs, now);
      RepresentsOneMore(Merged(rs[..|rs| - 1], now), Defaults(rs, now));
    }
  }

  lemma {:induction false} MergedSums(rs: seq<MetricRollup>, now: Time, key: RollupKey)
    requires NonConflating(Defaults(rs, now))
    ensures Keyed(Merged(rs, now)) && MapSum(Merged(rs, now), key) == SumFor(Defaults(rs, now), key)
  {
    hide KeyOf, MergeKey, Defaulted, MergeOne, Defaults;
    MergedKeys(rs, now);
    if rs != [] {
      var n, ds := |rs| - 1, Defaults(rs, now);
      DefaultsButLast(rs, now);
      ButLastIsNonConflating(ds);
      MergedSums(rs[..n], now, key);
      MergedRepresents(rs[..n], now);
      var before := Merged(rs[..n], now);
      if MergeKey(ds[n]) in before {
        var text := MergeKey(ds[n]);
        var i :| 0 <= i < n && MergeKey(ds[..n][i]) == text && KeyOf(ds[..n][i]) == KeyOf(before[text]);
        assert ds[..n][i] == ds[i];
      }
      hide Represents, NonConflating;
      MergeOneSum(before, key, ds[n]);
    }
  }

  lemma ButLastIsNonConflating(ds: seq<MetricRollup>)
    requires NonConflating(ds) && ds != []
    ensures NonConflating(ds[..|ds| - 1])
  {
    hide KeyOf, MergeKey;
  }

  /**
   For any batch whose merging conflates no primary keys, and any table: merging the
   batch and upserting the result is adding its rollups one at a time.
   */
  lemma {:induction false} MergingIsFaithful(table: RollupTable, rs: seq<MetricRollup>, now: Time)
    requires NonConflating(Defaults(rs, now))
    ensures MergedInto(table, rs, now) == UpsertAll(table, Defaults(rs, now))
  {
    hide KeyOf, MergeKey, Merged, UpsertAll, AnyOrder, Lists, Defaults, NonConflating;
    MergedKeys(rs, now);
    AnyOrderLists(Merged(rs, now));
    var out := AnyOrder(Merged(rs, now));
    forall key ensures SumFor(out, key) == SumFor(Defaults(rs, now), key) {
      ListsSum(out, Merged(rs, now), key);
      MergedSums(rs, now, key);
    }
    UpsertBySums(table, out, Defaults(rs, now));
  }

  lemma SumForTwo(a: MetricRollup, b: MetricRollup, key: RollupKey)
    requires a.count > 0 && b.count > 0
    ensures SumFor([a, b], key) == (if KeyOf(a) == key then a.count else 0) + (if KeyOf(b) == key then b.count else 0)
  {
    hide KeyOf;
    assert [a, b][..1] == [a] && [a][..0] == [];
    assert SumFor([], key) == 0;
    assert SumFor([a], key) == if KeyOf(a) == key then a.count else 0;
  }

  /** Two rollups with one text: the first lends its primary key to both. */
  lemma MergedTwo(a: MetricRollup, b: MetricRollup, now: Time, key: RollupKey)
    requires MergeKey(Defaulted(a, now)) == MergeKey(Defaulted(b, now))
    ensures Keyed(Merged([a, b], now))
    ensures KeyOf(Defaulted(a, now)) != key ==> MapSum(Merged([a, b], now), key) == 0
  {
    var first, second := Defaulted(a, now), Defaulted(b, now);
    MergedKeys([a, b], now);
    Recounted(first, first.count + second.count);
    hide KeyOf, MergeKey, Defaulted;
    assert [a, b][..1] == [a] && [a][..0] == [];
    assert Merged([a], now) == map[MergeKey(first) := first];
    var text := MergeKey(first);
    var merged := Merged([a, b], now);
    assert merged == map[text := first.(count := first.count + second.count)];
    MapSumRemove(merged, key, text);
    assert merged - {text} == map[];
  }

  /** A pair merges faithfully, for one table or for all, exactly when it is not conflated. */
  lemma MergingTwo(table: RollupTable, a: MetricRollup, b: MetricRollup, now: Time)
    ensures MergedInto(table, [a, b], now) == UpsertAll(table, Defaults([a, b], now))
      <==> NonConflating(Defaults([a, b], now))
  {
    var first, second := Defaulted(a, now), Defaulted(b, now);
    assert Defaults([a, b], now) == [first, second];
    if NonConflating([first, second]) {
      MergingIsFaithful(table, [a, b], now);
    } else {
      assert MergeKey(first) == MergeKey(second) && KeyOf(first) != KeyOf(second);
      hide KeyOf, MergeKey, Defaulted, Merged, UpsertAll, AnyOrder, Lists, Defaults;
      var key := KeyOf(second);
      MergedKeys([a, b], now);
      AnyOrderLists(Merged([a, b], now));
      MergedTwo(a, b, now, key);
      ListsSum(AnyOrder(Merged([a, b], now)), Merged([a, b], now), key);
      UpsertIsSum(table, AnyOrder(Merged([a, b], now)), key);
      UpsertIsSum(table, [first, second], key);
      SumForTwo(first, second, key);
    }
  }

  lemma PairConflates(a: MetricRollup, b: MetricRollup)
    ensures NonConflating([a, b]) <==> (MergeKey(a) == MergeKey(b) ==> KeyOf(a) == KeyOf(b))
  {
    hide KeyOf, MergeKey;
    assert [a, b][0] == a && [a, b][1] == b;
  }

  /** A batch of any length conflates nothing exactly when each of its pairs merges faithfully. */
  lemma PairsDecide(rs: seq<MetricRollup>, now: Time)
    ensures NonConflating(Defaults(rs, now)) <==> forall i, j :: 0 <= i < j < |rs| ==> Faithful([rs[i], rs[j]], now)
  {
    hide KeyOf, MergeKey, Defaulted, MergedInto, UpsertAll;
    var ds := Defaults(rs, now);
    forall i, j | 0 <= i < j < |rs|
      ensures Faithful([rs[i], rs[j]], now) <==> (MergeKey(ds[i]) == MergeKey(ds[j]) ==> KeyOf(ds[i]) == KeyOf(ds[j])) {
      assert Defaults([rs[i], rs[j]], now) == [ds[i], ds[j]];
      PairConflates(ds[i], ds[j]);
      forall table ensures MergedInto(table, [rs[i], rs[j]], now) == UpsertAll(table, [ds[i], ds[j]])
                           <==> NonConflating([ds[i], ds[j]]) {
        MergingTwo(table, rs[i], rs[j], now);
      }
      MergingTwo(map[], rs[i], rs[j], now);
    }
  }

  /** No two rows share a primary key, so one statement can upsert them all on any database. */
  predicate DistinctKeys(rs: seq<MetricRollup>) {
    forall i, j :: 0 <= i < j < |rs| ==> KeyOf(rs[i]) != KeyOf(rs[j])
  }

  /** A primary key has one spelling in the batch. */
  predicate OneSpelling(ds: seq<MetricRollup>) {
    forall i, j :: 0 <= i < |ds| && 0 <= j < |ds| && KeyOf(ds[i]) == KeyOf(ds[j]) ==> MergeKey(ds[i]) == MergeKey(ds[j])
  }

  /** The merged rows of a batch that conflates nothing have distinct primary keys iff each has one spelling. */
  lemma MergedRowsAreDistinct(rs: seq<MetricRollup>, now: Time, out: seq<MetricRollup>)
    requires NonConflating(Defaults(rs, now)) && Lists(out, Merged(rs, now))
    ensures DistinctKeys(out) <==> OneSpelling(Defaults(rs, now))
  {
    hide KeyOf, MergeKey, Defaulted, Merged, Defaults;
    MergedRepresents(rs, now);
    MergedKeys(rs, now);
    var ds, merged := Defaults(rs, now), Merged(rs, now);
    if OneSpelling(ds) {
      forall i, j | 0 <= i < j < |out| ensures KeyOf(out[i]) != KeyOf(out[j]) {
        var x, y := MergeKey(out[i]), MergeKey(out[j]);
        var a :| 0 <= a < |ds| && MergeKey(ds[a]) == x && KeyOf(ds[a]) == KeyOf(merged[x]);
        var b :| 0 <= b < |ds| && MergeKey(ds[b]) == y && KeyOf(ds[b]) == KeyOf(merged[y]);
      }
    } else {
      var i, j :| 0 <= i < |ds| && 0 <= j < |ds| && KeyOf(ds[i]) == KeyOf(ds[j]) && MergeKey(ds[i]) != MergeKey(ds[j]);
      TextIsListed(ds, merged, out, i);
      TextIsListed(ds, merged, out, j);
    }
  }

  lemma TextIsListed(ds: seq<MetricRollup>, merged: Merging, out: seq<MetricRollup>, i: nat)
    requires NonConflating(ds) && Represents(merged, ds) && Keyed(merged) && Lists(out, merged) && i < |ds|
    ensures exists k :: 0 <= k < |out| && MergeKey(out[k]) == MergeKey(ds[i]) && KeyOf(out[k]) == KeyOf(ds[i])
  {
    hide KeyOf, MergeKey;
    var text := MergeKey(ds[i]);
    assert text in merged && merged[text] in out;
    var j :| 0 <= j < |ds| && MergeKey(ds[j]) == text && KeyOf(ds[j]) == KeyOf(merged[text]);
  }

  // ----- Which rollups are merged faithfully -----

  predicate PipeFree(s: string) {
    '|' !in s
  }

  /** Merging has nothing to fill in. */
  predicate Complete(r: MetricRollup) {
    r.bucketSize > 0 && r.bucketStart != ZERO_TIME && r.count > 0
  }

  predicate AllComplete(rs: seq<MetricRollup>) {
    forall i :: 0 <= i < |rs| ==> Complete(rs[i])
  }

  /** Only the endpoint may hold a `|`. */
  predicate Legible(r: MetricRollup) {
    PipeFree(r.method_) && PipeFree(r.action) && PipeFree(r.result) && PipeFree(r.statusClass)
  }

  /** Storing changes no field. */
  predicate Canonical(r: MetricRollup) {
    && TrimSpace(r.endpoint) == r.endpoint && TrimSpace(r.action) == r.action
    && ToUpper(TrimSpace(r.method_)) == r.method_ && ToLower(TrimSpace(r.result)) == r.result
    && ToLower(TrimSpace(r.statusClass)) == r.statusClass
  }

  lemma CompleteNeedsNoDefaults(rs: seq<MetricRollup>, now: Time)
    requires AllComplete(rs)
    ensures Positive(rs) && Defaults(rs, now) == rs
  {
    assert forall i :: 0 <= i < |rs| ==> Complete(rs[i]) && Defaulted(rs[i], now) == rs[i];
  }

  lemma SignedDecimalInjective(a: int, b: int)
    ensures PipeFree(SignedDecimal(a))
    ensures SignedDecimal(a) == SignedDecimal(b) ==> a == b
  {
    forall n: nat ensures IsDigit(Decimal(n)[0]) && PipeFree(Decimal(n)) {}
    assert a < 0 ==> SignedDecimal(a)[0] == '-' && SignedDecimal(a)[1..] == Decimal(-a);
    assert b < 0 ==> SignedDecimal(b)[0] == '-' && SignedDecimal(b)[1..] == Decimal(-b);
  }

  /** A text before the first `|` is determined, and so is what follows it. */
  lemma SplitAtFirstPipe(a: string, x: string, b: string, y: string)
    requires PipeFree(a) && PipeFree(b) && Joined(a, x) == Joined(b, y)
    ensures a == b && x == y
  {
    var s, t := Joined(a, x), Joined(b, y);
    assert s[|a|] == '|' && t[|b|] == '|';
    assert forall i :: 0 <= i < |a| ==> s[i] == a[i];
    assert forall i :: 0 <= i < |b| ==> t[i] == b[i];
    assert |a| == |b|;
    assert s[..|a|] == a && t[..|b|] == b;
    assert s[|a| + 1..] == x && t[|b| + 1..] == y;
  }

  /** So is a text after the last `|`, and what precedes it. */
  lemma SplitAtLastPipe(x: string, a: string, y: string, b: string)
    requires PipeFree(a) && PipeFree(b) && Joined(x, a) == Joined(y, b)
    ensures x == y && a == b
  {
    var s, t := Joined(x, a), Joined(y, b);
    assert s[|x|] == '|' && t[|y|] == '|';
    assert forall i :: |x| < i < |s| ==> s[i] == a[i - |x| - 1];
    assert forall i :: |y| < i < |t| ==> t[i] == b[i - |y| - 1];
    assert |x| == |y|;
    assert s[..|x|] == x && t[..|y|] == y;
    assert s[|x| + 1..] == a && t[|y| + 1..] == b;
  }

  lemma JoinedAssociates(a: string, b: string, c: string)
    ensures Joined(a, Joined(b, c)) == Joined(Joined(a, b), c)
  {
  }

  /** The first `n` fields of a merge text, with a `|` between them, for n from 2 to 7. */
  function Fields(r: MetricRollup, n: nat): string
    requires 2 <= n <= 7
  {
    if n == 2 then Joined(SignedDecimal(r.bucketStart), r.endpoint)
    else Joined(Fields(r, n - 1), Field(r, n))
  }

  function Field(r: MetricRollup, n: nat): string
    requires 3 <= n <= 7
  {
    if n == 3 then r.method_
    else if n == 4 then r.action
    else if n == 5 then r.result
    else if n == 6 then r.statusClass
    else SignedDecimal(r.statusCode)
  }

  lemma MergeKeyIsFields(r: MetricRollup)
    ensures MergeKey(r) == Fields(r, 7)
  {
    var f2, f3, f4, f5 := Fields(r, 2), Fields(r, 3), Fields(r, 4), Fields(r, 5);
    var c7 := Field(r, 7);
    var c6 := Joined(r.statusClass, c7);
    var c5 := Joined(r.result, c6);
    var c4 := Joined(r.action, c5);
    JoinedAssociates(Fields(r, 5), r.statusClass, c7);
    JoinedAssociates(Fields(r, 4), r.result, c6);
    JoinedAssociates(Fields(r, 3), r.action, c5);
    JoinedAssociates(Fields(r, 2), r.method_, c4);
    JoinedAssociates(SignedDecimal(r.bucketStart), r.endpoint, Joined(r.method_, c4));
    assert Fields(r, 7) == Joined(Fields(r, 6), c7) && Fields(r, 6) == Joined(f5, r.statusClass);
    hide Joined, SignedDecimal;
  }

  lemma {:induction false} FieldsDetermine(r: MetricRollup, q: MetricRollup, n: nat)
    requires 2 <= n <= 7 && Legible(r) && Legible(q) && Fields(r, n) == Fields(q, n)
    ensures r.bucketStart == q.bucketStart && r.endpoint == q.endpoint
    ensures forall k :: 3 <= k <= n ==> Field(r, k) == Field(q, k)
  {
    hide SignedDecimal, Joined, PipeFree;
    if n == 2 {
      SignedDecimalInjective(r.bucketStart, q.bucketStart);
      SignedDecimalInjective(q.bucketStart, r.bucketStart);
      SplitAtFirstPipe(SignedDecimal(r.bucketStart), r.endpoint, SignedDecimal(q.bucketStart), q.endpoint);
    } else {
      SignedDecimalInjective(r.statusCode, q.statusCode);
      SignedDecimalInjective(q.statusCode, r.statusCode);
      SplitAtLastPipe(Fields(r, n - 1), Field(r, n), Fields(q, n - 1), Field(q, n));
      FieldsDetermine(r, q, n - 1);
    }
  }

  /** With a `|` nowhere but in the endpoint, the text determines every field in it. */
  lemma MergeKeyDetermines(r: MetricRollup, q: MetricRollup)
    requires Legible(r) && Legible(q) && MergeKey(r) == MergeKey(q)
    ensures q == r.(bucketSize := q.bucketSize, count := q.count)
  {
    MergeKeyIsFields(r);
    MergeKeyIsFields(q);
    hide MergeKey, Fields, Legible, SignedDecimal;
    FieldsDetermine(r, q, 7);
    SignedDecimalInjective(r.statusCode, q.statusCode);
    assert Field(r, 3) == Field(q, 3) && Field(r, 4) == Field(q, 4) && Field(r, 5) == Field(q, 5);
    assert Field(r, 6) == Field(q, 6) && Field(r, 7) == Field(q, 7);
  }

  /** Legible rollups of one bucket size are never conflated. */
  lemma LegibleIsNonConflating(ds: seq<MetricRollup>, size: Duration)
    requires forall i :: 0 <= i < |ds| ==> Legible(ds[i]) && ds[i].bucketSize == size
    ensures NonConflating(ds)
  {
    hide Legible, MergeKey;
    forall i, j | 0 <= i < |ds| && 0 <= j < |ds| && MergeKey(ds[i]) == MergeKey(ds[j])
      ensures KeyOf(ds[i]) == KeyOf(ds[j]) {
      MergeKeyDetermines(ds[i], ds[j]);
      Recounted(ds[i], ds[j].count);
    }
  }

  /** If storing changes no field as well, text and primary key are equal together. */
  lemma MergeKeyIsPrimaryKey(r: MetricRollup, q: MetricRollup)
    requires Legible(r) && Legible(q) && Canonical(r) && Canonical(q) && r.bucketSize == q.bucketSize
    ensures MergeKey(r) == MergeKey(q) <==> KeyOf(r) == KeyOf(q)
  {
    if MergeKey(r) == MergeKey(q) {
      LegibleIsNonConflating([r, q], r.bucketSize);
      assert MergeKey([r, q][0]) == MergeKey([r, q][1]);
    }
    hide TrimSpace, ToUpper, ToLower, Legible, Joined, SignedDecimal;
  }

  /** Two different primary keys that the merge text does not tell apart. */
  lemma PipeMovesBetweenFields()
    ensures var a := MetricRollup(0, MINUTE, "x", "y|z", "", "", "", 0, 1);
      var b := MetricRollup(0, MINUTE, "x|y", "z", "", "", "", 0, 1);
      MergeKey(a) == MergeKey(b) && KeyOf(a) != KeyOf(b)
  {
    assert Joined("x", Joined("y|z", "")) == "x|y|z|";
    var rest := Joined("", Joined("", Joined("", SignedDecimal(0))));
    assert Joined("x", Joined("y|z", rest)) == Joined("x|y", Joined("z", rest));
    assert TrimSpace("x") == "x" && TrimSpace("x|y") == "x|y";
    assert |"x"| == 1 && |"x|y"| == 3;
  }

  // ----- Conflations that cancel out -----

  lemma SumForFour(a: MetricRollup, b: MetricRollup, c: MetricRollup, d: MetricRollup, key: RollupKey)
    requires a.count == b.count == c.count == d.count == 1
    ensures SumFor([a, b, c, d], key) == (if KeyOf(a) == key then 1 else 0) + (if KeyOf(b) == key then 1 else 0)
      + (if KeyOf(c) == key then 1 else 0) + (if KeyOf(d) == key then 1 else 0)
  {
    hide KeyOf;
    SumForTwo(a, b, key);
    assert [a, b, c][..2] == [a, b] && [a, b, c, d][..3] == [a, b, c];
    assert SumFor([a, b, c], key) == SumFor([a, b], key) + if KeyOf(c) == key then 1 else 0;
  }

  lemma MergedMore(rs: seq<MetricRollup>, r: MetricRollup, now: Time)
    ensures Merged(rs + [r], now) == MergeOne(Merged(rs, now), Defaulted(r, now))
  {
    assert (rs + [r])[..|rs|] == rs;
    hide MergeOne, Defaulted;
  }

  lemma MergedNone(now: Time)
    ensures Merged([], now) == map[]
  {
  }

  lemma SameTextTwice(merged: Merging, a: MetricRollup, b: MetricRollup)
    requires MergeKey(a) == MergeKey(b) && MergeKey(a) !in merged && a.count == b.count == 1
    ensures MergeOne(MergeOne(merged, a), b) == merged[MergeKey(a) := a.(count := 2)]
  {
    hide MergeKey;
  }

  lemma MergedFour(a: MetricRollup, b: MetricRollup, c: MetricRollup, d: MetricRollup, now: Time)
    requires Complete(a) && Complete(b) && Complete(c) && Complete(d)
    requires a.count == b.count == c.count == d.count == 1
    requires MergeKey(a) == MergeKey(b) && MergeKey(c) == MergeKey(d) && MergeKey(a) != MergeKey(c)
    ensures Merged([a, b, c, d], now) == map[MergeKey(a) := a.(count := 2), MergeKey(c) := c.(count := 2)]
  {
    hide MergeKey, Merged, MergeOne;
    assert Defaulted(a, now) == a && Defaulted(b, now) == b && Defaulted(c, now) == c && Defaulted(d, now) == d;
    hide Defaulted, Complete;
    MergedNone(now);
    MergedMore([], a, now);
    MergedMore([a], b, now);
    MergedMore([a, b], c, now);
    MergedMore([a, b, c], d, now);
    assert [] + [a] == [a] && [a] + [b] == [a, b] && [a, b] + [c] == [a, b, c] && [a, b, c] + [d] == [a, b, c, d];
    SameTextTwice(map[], a, b);
    SameTextTwice(map[MergeKey(a) := a.(count := 2)], c, d);
  }

  /** Two conflations that trade primary keys leave the table right. */
  lemma SwappedKeysCancel(a: MetricRollup, b: MetricRollup, c: MetricRollup, d: MetricRollup, now: Time)
    requires Complete(a) && Complete(b) && Complete(c) && Complete(d)
    requires a.count == b.count == c.count == d.count == 1
    requires MergeKey(a) == MergeKey(b) && MergeKey(c) == MergeKey(d) && MergeKey(a) != MergeKey(c)
    requires KeyOf(a) == KeyOf(d) && KeyOf(b) == KeyOf(c)
    ensures Faithful([a, b, c, d], now)
  {
    hide KeyOf, MergeKey, Merged, UpsertAll, Lists, Defaulted;
    var rs := [a, b, c, d];
    CompleteNeedsNoDefaults(rs, now);
    MergedFour(a, b, c, d, now);
    MergedKeys(rs, now);
    var merged := Merged(rs, now);
    AnyOrderLists(merged);
    Recounted(a, 2);
    Recounted(c, 2);
    forall key ensures SumFor(AnyOrder(merged), key) == SumFor(rs, key) {
      ListsSum(AnyOrder(merged), merged, key);
      MapSumRemove(merged, key, MergeKey(a));
      MapSumRemove(merged - {MergeKey(a)}, key, MergeKey(c));
      assert merged - {MergeKey(a)} - {MergeKey(c)} == map[];
      SumForFour(a, b, c, d, key);
    }
    forall table: RollupTable ensures MergedInto(table, rs, now) == UpsertAll(table, Defaults(rs, now)) {
      UpsertBySums(table, AnyOrder(merged), rs);
    }
  }

  function Plain(endpoint: string, method_: string): MetricRollup {
    MetricRollup(MINUTE, MINUTE, endpoint, method_, "", "", "", 0, 1)
  }

  lemma SamePlainText(e1: string, m1: string, e2: string, m2: string)
    ensures MergeKey(Plain(e1, m1)) == MergeKey(Plain(e2, m2)) <==> Joined(e1, m1) == Joined(e2, m2)
  {
    var start, rest := SignedDecimal(MINUTE), Joined("", Joined("", Joined("", SignedDecimal(0))));
    JoinedAssociates(e1, m1, rest);
    JoinedAssociates(e2, m2, rest);
    hide SignedDecimal;
    var x, y := Joined(e1, m1), Joined(e2, m2);
    if Joined(start, Joined(x, rest)) == Joined(start, Joined(y, rest)) {
      assert Joined(start, Joined(x, rest))[|start| + 1..] == Joined(x, rest);
      assert Joined(start, Joined(y, rest))[|start| + 1..] == Joined(y, rest);
      assert Joined(x, rest)[..|x|] == x && Joined(y, rest)[..|y|] == y;
    }
  }

  lemma PlainTexts()
    ensures MergeKey(Plain("x", "Y|Z")) == MergeKey(Plain("x|Y", "Z")) != MergeKey(Plain(" x|Y", "Z"))
    ensures MergeKey(Plain(" x|Y", "Z")) == MergeKey(Plain(" x", "Y|Z"))
  {
    assert Joined("x", "Y|Z") == "x|Y|Z" == Joined("x|Y", "Z");
    assert Joined(" x|Y", "Z") == " x|Y|Z" == Joined(" x", "Y|Z");
    assert "x|Y|Z"[0] != " x|Y|Z"[0];
    hide MergeKey, Joined;
    SamePlainText("x", "Y|Z", "x|Y", "Z");
    SamePlainText(" x|Y", "Z", " x", "Y|Z");
    SamePlainText("x", "Y|Z", " x|Y", "Z");
  }

  lemma PlainKeys()
    ensures KeyOf(Plain("x", "Y|Z")) == KeyOf(Plain(" x", "Y|Z")) != KeyOf(Plain("x|Y", "Z"))
    ensures KeyOf(Plain("x|Y", "Z")) == KeyOf(Plain(" x|Y", "Z"))
  {
    TrimmedOnce();
    hide TrimSpace, ToUpper, ToLower;
  }

  /** So a batch may conflate primary keys and be merged faithfully all the same. */
  lemma ConflationMayCancel(now: Time)
    ensures var rs := [Plain("x", "Y|Z"), Plain("x|Y", "Z"), Plain(" x|Y", "Z"), Plain(" x", "Y|Z")];
      !NonConflating(Defaults(rs, now)) && Faithful(rs, now)
  {
    var a, b, c, d := Plain("x", "Y|Z"), Plain("x|Y", "Z"), Plain(" x|Y", "Z"), Plain(" x", "Y|Z");
    var rs := [a, b, c, d];
    hide MergeKey, KeyOf;
    PlainTexts();
    PlainKeys();
    CompleteNeedsNoDefaults(rs, now);
    assert Defaults(rs, now)[0] == a && Defaults(rs, now)[1] == b;
    hide Plain;
    SwappedKeysCancel(a, b, c, d, now);
  }

  lemma TrimmedOnce()
    ensures TrimSpace("x") == TrimSpace(" x") == "x" && TrimSpace("x|Y") == TrimSpace(" x|Y") == "x|Y" && "x" != "x|Y"
  {
    assert " x"[1..] == "x" && " x|Y"[1..] == "x|Y";
    assert |"x"| == 1 && |"x|Y"| == 3;
  }
}
