/** The repository object: transactions over the two tables. */
module Repository {
  import opened AuditEvent
  import opened Clock
  import opened Store

  datatype Tables = Tables(events: seq<Event>, rollups: RollupTable)

  /** The rows a batch of events is inserted as; each is prepared (again) on the way. */
  ghost function RowsOf(events: seq<Event>, random: nat -> string, now: Time): (rows: seq<Event>)
    ensures |rows| == |events|
  {
    if events == [] then []
    else
      var n := |events| - 1;
      RowsOf(events[..n], random, now) + [StoredForm(Prepared(events[n], random(n), now))]
  }

  /** An event that has been prepared: preparing it again needs neither generator nor clock. */
  predicate IsPrepared(e: Event) {
    e.id != "" && e.timestamp != ZERO_TIME
  }

  predicate AllPrepared(events: seq<Event>) {
    forall i :: 0 <= i < |events| ==> IsPrepared(events[i])
  }

  ghost function StoredRow(e: Event): Event {
    StoredForm(Prepared(e, "", ZERO_TIME))
  }

  lemma RowKeepsId(e: Event)
    requires IsPrepared(e)
    ensures StoredRow(e).id == e.id
  {
  }

  ghost function Rows(events: seq<Event>): (rows: seq<Event>)
    ensures |rows| == |events|
    ensures forall i :: 0 <= i < |events| ==> rows[i] == StoredRow(events[i])
  {
    seq(|events|, i requires 0 <= i < |events| => StoredRow(events[i]))
  }

  lemma PreparedAlready(e: Event, random: string, now: Time)
    requires IsPrepared(e)
    ensures StoredForm(Prepared(e, random, now)) == StoredRow(e)
  {
  }

  lemma {:induction false} RowsOfPrepared(events: seq<Event>, random: nat -> string, now: Time)
    requires AllPrepared(events)
    ensures RowsOf(events, random, now) == Rows(events)
  {
    hide StoredRow, Prepared, StoredForm, IsPrepared, Rows;
    if events != [] {
      var n := |events| - 1;
      RowsOfPrepared(events[..n], random, now);
      PreparedAlready(events[n], random(n), now);
      assert Rows(events) == Rows(events[..n]) + [StoredRow(events[n])];
    }
  }

  lemma RowsAppend(a: seq<Event>, b: seq<Event>)
    ensures Rows(a + b) == Rows(a) + Rows(b)
  {
  }

  /** Both tables after a batch: events in order, first of an id wins; rollups one at a time. */
  function Appended(t: Tables, rows: seq<Event>, rollups: seq<MetricRollup>): Tables
    requires Positive(rollups)
  {
    Tables(InsertAll(t.events, rows), UpsertAll(t.rollups, rollups))
  }

  lemma AppendingComposes(t: Tables, e1: seq<Event>, r1: seq<MetricRollup>, e2: seq<Event>, r2: seq<MetricRollup>)
    requires Positive(r1) && Positive(r2)
    ensures Positive(r1 + r2)
    ensures Appended(t, e1 + e2, r1 + r2) == Appended(Appended(t, e1, r1), e2, r2)
  {
    InsertAppend(t.events, e1, e2);
    UpsertAppend(t.rollups, r1, r2);
  }

  /** Both tables after a transaction on a batch, whose rollups are merged first. */
  ghost function Batched(t: Tables, rows: seq<Event>, rollups: seq<MetricRollup>, now: Time): Tables {
    Tables(InsertAll(t.events, rows), MergedInto(t.rollups, rollups, now))
  }

  /** One batch or two, each merged on its own: the same tables, if all of it conflates no primary keys. */
  lemma BatchingIsHomomorphic(t: Tables, e1: seq<Event>, r1: seq<MetricRollup>, e2: seq<Event>,
        r2: seq<MetricRollup>, now: Time)
    requires NonConflating(Defaults(r1 + r2, now))
    ensures Batched(t, e1 + e2, r1 + r2, now) == Batched(Batched(t, e1, r1, now), e2, r2, now)
  {
    hide MergedInto, UpsertAll, InsertAll, MergeKey, KeyOf, Defaulted;
    var d1, d2 := Defaults(r1, now), Defaults(r2, now);
    assert Defaults(r1 + r2, now) == d1 + d2;
    PartIsNonConflating(d1, d2);
    InsertAppend(t.events, e1, e2);
    UpsertAppend(t.rollups, d1, d2);
    MergingIsFaithful(t.rollups, r1 + r2, now);
    MergingIsFaithful(t.rollups, r1, now);
    MergingIsFaithful(UpsertAll(t.rollups, d1), r2, now);
  }

  lemma PartIsNonConflating(a: seq<MetricRollup>, b: seq<MetricRollup>)
    requires NonConflating(a + b)
    ensures NonConflating(a) && NonConflating(b)
  {
    hide MergeKey, KeyOf;
    var ab := a + b;
    forall i, j | 0 <= i < |a| && 0 <= j < |a| && MergeKey(a[i]) == MergeKey(a[j]) ensures KeyOf(a[i]) == KeyOf(a[j]) {
      assert ab[i] == a[i] && ab[j] == a[j];
    }
    forall i, j | 0 <= i < |b| && 0 <= j < |b| && MergeKey(b[i]) == MergeKey(b[j]) ensures KeyOf(b[i]) == KeyOf(b[j]) {
      assert ab[|a| + i] == b[i] && ab[|a| + j] == b[j];
    }
  }

  /** A batch that needs no defaults and conflates nothing is stored as if one rollup at a time. */
  lemma BatchedIsAppended(t: Tables, rows: seq<Event>, rollups: seq<MetricRollup>, now: Time)
    requires Mergeable(rollups)
    ensures Positive(rollups) && Batched(t, rows, rollups, now) == Appended(t, rows, rollups)
  {
    hide MergedInto, UpsertAll, InsertAll, NonConflating, AllComplete;
    CompleteNeedsNoDefaults(rollups, now);
    MergingIsFaithful(t.rollups, rollups, now);
  }

  predicate Mergeable(rollups: seq<MetricRollup>) {
    AllComplete(rollups) && NonConflating(rollups)
  }

  lemma NothingMerged(table: RollupTable, now: Time)
    ensures MergedInto(table, [], now) == table
  {
  }

  /** Of the events with one id, the first stays. */
  lemma FirstIdWins(events: seq<Event>, rows: seq<Event>, i: nat)
    requires i < |rows| && !HasId(events, rows[i].id)
    requires forall j :: 0 <= j < i ==> rows[j].id != rows[i].id
    ensures rows[i] in InsertAll(events, rows)
  {
    assert rows == rows[..i] + ([rows[i]] + rows[i + 1..]);
    InsertAppend(events, rows[..i], [rows[i]] + rows[i + 1..]);
    InsertAppend(InsertAll(events, rows[..i]), [rows[i]], rows[i + 1..]);
    var before := InsertAll(events, rows[..i]);
    InsertAddsOnly(events, rows[..i]);
    assert !HasId(before, rows[i].id) by {
      forall k | 0 <= k < |before| ensures before[k].id != rows[i].id {
        assert before[k] in before;
        assert before[k] in events || before[k] in rows[..i];
      }
    }
    var after := InsertAll(before, [rows[i]]);
    assert [rows[i]][..0] == [];
    assert after == before + [rows[i]];
    InsertKeeps(after, rows[i + 1..]);
    assert InsertAll(after, rows[i + 1..])[|before|] == rows[i];
  }

  lemma ListsSomething(out: seq<MetricRollup>, rs: seq<MetricRollup>, now: Time)
    requires rs != [] && Lists(out, Merged(rs, now))
    ensures out != []
  {
    hide MergeKey, Defaulted;
    var last := Defaulted(rs[|rs| - 1], now);
    assert MergeKey(last) in Merged(rs, now);
  }

  lemma InsertIntoEmpty(row: Event)
    ensures InsertAll([], [row]) == [row]
  {
    assert [row][..0] == [];
    assert InsertAll([], [row]) == InsertOne([], row);
  }

  /** Rows with a timestamp at or after the cutoff, in order. */
  function NotBefore(events: seq<Event>, cutoff: Time): seq<Event> {
    if events == [] then []
    else
      var last := events[|events| - 1];
      NotBefore(events[..|events| - 1], cutoff) + if last.timestamp < cutoff then [] else [last]
  }

  /** `kept[i]` is row `from[i]` of the old table; the rows named are exactly those not before the cutoff, in order. */
  predicate KeepsExactly(events: seq<Event>, kept: seq<Event>, cutoff: Time, from: seq<nat>) {
    && |from| == |kept|
    && (forall i :: 0 <= i < |kept| ==> from[i] < |events| && kept[i] == events[from[i]])
    && (forall i, j :: 0 <= i < j < |from| ==> from[i] < from[j])
    && (forall k :: 0 <= k < |events| ==> (k in from <==> events[k].timestamp >= cutoff))
  }

  lemma {:induction false} NotBeforeKeeps(events: seq<Event>, cutoff: Time) returns (from: seq<nat>)
    ensures KeepsExactly(events, NotBefore(events, cutoff), cutoff, from)
  {
    if events == [] {
      from := [];
    } else {
      var n := |events| - 1;
      from := NotBeforeKeeps(events[..n], cutoff);
      KeepsOneMore(events, NotBefore(events[..n], cutoff), cutoff, from);
      hide KeepsExactly;
      if events[n].timestamp >= cutoff { from := from + [n]; }
    }
  }

  lemma KeepsOneMore(events: seq<Event>, kept: seq<Event>, cutoff: Time, from: seq<nat>)
    requires events != [] && KeepsExactly(events[..|events| - 1], kept, cutoff, from)
    ensures var (n, last) := (|events| - 1, events[|events| - 1]);
      if last.timestamp >= cutoff then KeepsExactly(events, kept + [last], cutoff, from + [n])
      else KeepsExactly(events, kept, cutoff, from)
  {
    var n := |events| - 1;
    var more := from + [n];
    assert forall i :: 0 <= i < |from| ==> from[i] in from && from[i] < n;
    forall k | 0 <= k < |events| ensures k in more <==> k in from || k == n {
      if k in from { var i :| 0 <= i < |from| && from[i] == k; assert more[i] == k; }
      assert more[|from|] == n;
    }
    forall k | 0 <= k < n ensures k in from <==> events[k].timestamp >= cutoff {
      assert events[..n][k] == events[k];
    }
  }

  /** Pruning keeps ids unique, and pruning again from the same cutoff removes nothing more. */
  lemma PruningSettles(events: seq<Event>, kept: seq<Event>, cutoff: Time, from: seq<nat>)
    requires KeepsExactly(events, kept, cutoff, from)
    ensures UniqueIds(events) ==> UniqueIds(kept)
    ensures forall e :: e in kept <==> e in events && e.timestamp >= cutoff
    ensures NotBefore(kept, cutoff) == kept
  {
    forall e | e in events && e.timestamp >= cutoff ensures e in kept {
      var k :| 0 <= k < |events| && events[k] == e;
      var i :| 0 <= i < |from| && from[i] == k;
      assert kept[i] == e;
    }
    forall i | 0 <= i < |kept| ensures kept[i].timestamp >= cutoff {
      assert from[i] in from;
    }
    NothingToPrune(kept, cutoff);
  }

  lemma {:induction false} NothingToPrune(events: seq<Event>, cutoff: Time)
    requires forall i :: 0 <= i < |events| ==> events[i].timestamp >= cutoff
    ensures NotBefore(events, cutoff) == events
  {
    if events != [] { NothingToPrune(events[..|events| - 1], cutoff); }
  }

  // ----- Pruning beside a flush -----

  /** Both tables after pruning from this cutoff. */
  function PrunedAt(t: Tables, cutoff: Time): Tables {
    Tables(NotBefore(t.events, cutoff), RollupsNotBefore(t.rollups, cutoff))
  }

  function RollupsNotBefore(table: RollupTable, cutoff: Time): RollupTable {
    map k | k in table && !(k.bucketStart < cutoff) :: table[k]
  }

  lemma RollupsKept(table: RollupTable, cutoff: Time)
    ensures forall k :: k in RollupsNotBefore(table, cutoff) <==> k in table && k.bucketStart >= cutoff
    ensures forall k :: k in RollupsNotBefore(table, cutoff) ==> RollupsNotBefore(table, cutoff)[k] == table[k]
  {
  }

  lemma {:induction false} NotBeforeMembers(events: seq<Event>, cutoff: Time)
    ensures forall e :: e in NotBefore(events, cutoff) <==> e in events && e.timestamp >= cutoff
  {
    if events != [] {
      var prefix := events[..|events| - 1];
      NotBeforeMembers(prefix, cutoff);
      assert events == prefix + [events[|events| - 1]];
    }
  }

  /** A row from after the cutoff, whose id no row from before has. */
  predicate FreshRow(events: seq<Event>, row: Event, cutoff: Time) {
    row.timestamp >= cutoff && forall e :: e in events && e.timestamp < cutoff ==> e.id != row.id
  }

  lemma PruneThenInsert(events: seq<Event>, row: Event, cutoff: Time)
    requires FreshRow(events, row, cutoff)
    ensures NotBefore(InsertOne(events, row), cutoff) == InsertOne(NotBefore(events, cutoff), row)
  {
    SameIds(events, row, cutoff);
    hide HasId, FreshRow;
    assert (events + [row])[..|events|] == events;
    assert row.timestamp >= cutoff by { IsFresh(events, row, cutoff); }
  }

  lemma IsFresh(events: seq<Event>, row: Event, cutoff: Time)
    requires FreshRow(events, row, cutoff)
    ensures row.timestamp >= cutoff
  {
  }

  /** The id of a fresh row is there after pruning if it was before. */
  lemma SameIds(events: seq<Event>, row: Event, cutoff: Time)
    requires FreshRow(events, row, cutoff)
    ensures HasId(events, row.id) == HasId(NotBefore(events, cutoff), row.id)
  {
    NotBeforeMembers(events, cutoff);
    hide NotBefore;
    var kept := NotBefore(events, cutoff);
    if i :| 0 <= i < |events| && events[i].id == row.id {
      assert events[i] in kept;
      var j :| 0 <= j < |kept| && kept[j] == events[i];
    }
    if j :| 0 <= j < |kept| && kept[j].id == row.id {
      assert kept[j] in events;
      var i :| 0 <= i < |events| && events[i] == kept[j];
    }
  }

  lemma {:induction false} PruneThenInsertAll(events: seq<Event>, rows: seq<Event>, cutoff: Time)
    requires forall row :: row in rows ==> FreshRow(events, row, cutoff)
    ensures NotBefore(InsertAll(events, rows), cutoff) == InsertAll(NotBefore(events, cutoff), rows)
  {
    hide NotBefore, InsertOne;
    if rows != [] {
      var prefix, last := rows[..|rows| - 1], rows[|rows| - 1];
      assert forall row :: row in prefix ==> row in rows;
      PruneThenInsertAll(events, prefix, cutoff);
      InsertAddsOnly(events, prefix);
      assert last in rows;
      assert FreshRow(InsertAll(events, prefix), last, cutoff);
      PruneThenInsert(InsertAll(events, prefix), last, cutoff);
    }
  }

  lemma PruneThenUpsert(table: RollupTable, r: MetricRollup, cutoff: Time)
    requires r.count > 0 && r.bucketStart >= cutoff
    ensures RollupsNotBefore(UpsertOne(table, r), cutoff) == UpsertOne(RollupsNotBefore(table, cutoff), r)
  {
    assert KeyOf(r).bucketStart >= cutoff;
    hide KeyOf;
    assert Get(RollupsNotBefore(table, cutoff), KeyOf(r)) == Get(table, KeyOf(r));
  }

  lemma {:induction false} PruneThenUpsertAll(table: RollupTable, rollups: seq<MetricRollup>, cutoff: Time)
    requires Positive(rollups) && forall i :: 0 <= i < |rollups| ==> rollups[i].bucketStart >= cutoff
    ensures RollupsNotBefore(UpsertAll(table, rollups), cutoff) == UpsertAll(RollupsNotBefore(table, cutoff), rollups)
  {
    hide RollupsNotBefore, UpsertOne;
    if rollups != [] {
      var n := |rollups| - 1;
      PruneThenUpsertAll(table, rollups[..n], cutoff);
      PruneThenUpsert(UpsertAll(table, rollups[..n]), rollups[n], cutoff);
    }
  }

  /**
   A prune whose cutoff is not after anything in a batch can come before the batch or
   after it, if no row it removes has an id of the batch.
   */
  lemma PruneCommutes(t: Tables, rows: seq<Event>, rollups: seq<MetricRollup>, cutoff: Time)
    requires Positive(rollups) && forall i :: 0 <= i < |rollups| ==> rollups[i].bucketStart >= cutoff
    requires forall row :: row in rows ==> FreshRow(t.events, row, cutoff)
    ensures PrunedAt(Appended(t, rows, rollups), cutoff) == Appended(PrunedAt(t, cutoff), rows, rollups)
  {
    PruneThenInsertAll(t.events, rows, cutoff);
    PruneThenUpsertAll(t.rollups, rollups, cutoff);
    hide NotBefore, InsertAll, UpsertAll;
  }

  class Repository {
    var events: seq<Event>
    var rollups: RollupTable

    constructor ()
      ensures events == [] && rollups == map[]
    {
      events, rollups := [], map[];
    }

    ghost function Contents(): Tables
      reads this
    {
      Tables(events, rollups)
    }

    method PrepareEventModels(given: seq<Event>, random: nat -> string, now: Time) returns (models: seq<Event>)
      ensures models == RowsOf(given, random, now)
    {
      hide Prepared;
      models := [];
      for i := 0 to |given|
        invariant models == RowsOf(given[..i], random, now)
      {
        var event := new EventRef(given[i]);
        PrepareEvent(event, random(i), now);
        assert given[..i + 1][..i] == given[..i];
        models := models + [StoredForm(event.value)];
      }
      assert given[..|given|] == given;
    }

    /** Merged rollups without a positive count would be left out; there are none. */
    method PrepareRollupModels(given: seq<MetricRollup>, now: Time) returns (models: seq<MetricRollup>)
      ensures Lists(models, Merged(given, now)) && Positive(models)
    {
      hide Merged, Lists, MergeKey;
      var merged := MergeRollups(given, now);
      models := [];
      for i := 0 to |merged|
        invariant models == merged[..i]
      {
        if merged[i].count > 0 {
          models := models + [merged[i]];
        }
      }
      assert models == merged;
    }

    /** `commits` says whether the transaction goes through. */
    method AppendBatch(given: seq<Event>, random: nat -> string, now: Time, commits: bool) returns (ok: bool)
      modifies this
      ensures ok == (commits || given == [])
      ensures rollups == old(rollups)
      ensures events == if ok then InsertAll(old(events), RowsOf(given, random, now)) else old(events)
    {
      if |given| == 0 {
        return true;
      }
      var models := PrepareEventModels(given, random, now);
      if !commits {
        return false;
      }
      events := InsertAll(events, models);
      return true;
    }

    /** For a batch that conflates nothing, the merged upsert adds each rollup in turn. */
    method AppendMetricRollups(given: seq<MetricRollup>, now: Time, commits: bool) returns (ok: bool)
      modifies this
      ensures ok == (commits || given == [])
      ensures events == old(events)
      ensures rollups == if ok then MergedInto(old(rollups), given, now) else old(rollups)
      ensures ok && NonConflating(Defaults(given, now)) ==> rollups == UpsertAll(old(rollups), Defaults(given, now))
    {
      hide MergedInto, UpsertAll, NonConflating, Lists, Merged;
      if NonConflating(Defaults(given, now)) { MergingIsFaithful(rollups, given, now); }
      if |given| == 0 {
        NothingMerged(rollups, now);
        return true;
      }
      var models := PrepareRollupModels(given, now);
      // Something was merged, so the early return for an empty list of rows is never taken.
      ListsSomething(models, given, now);
      assert models != [];
      if !commits {
        return false;
      }
      AnyOrderWillDo(rollups, given, now, models);
      rollups := UpsertAll(rollups, models);
      return true;
    }

    /** Events and rollups in one transaction. */
    method AppendAuditBatch(given: seq<Event>, counted: seq<MetricRollup>, random: nat -> string, now: Time,
          commits: bool)
      returns (ok: bool)
      modifies this
      ensures ok == (commits || (given == [] && counted == []))
      ensures Contents() ==
        if ok then Batched(old(Contents()), RowsOf(given, random, now), counted, now) else old(Contents())
      ensures ok && NonConflating(Defaults(counted, now)) ==> rollups == UpsertAll(old(rollups), Defaults(counted, now))
    {
      hide MergedInto, UpsertAll, NonConflating, Lists, Merged;
      if NonConflating(Defaults(counted, now)) { MergingIsFaithful(rollups, counted, now); }
      if |given| == 0 && |counted| == 0 {
        NothingMerged(rollups, now);
        return true;
      }
      var eventModels := PrepareEventModels(given, random, now);
      var rollupModels := PrepareRollupModels(counted, now);
      if !commits {
        return false;
      }
      AnyOrderWillDo(rollups, counted, now, rollupModels);
      events := InsertAll(events, eventModels);
      rollups := UpsertAll(rollups, rollupModels);
      return true;
    }

    /** Empties both tables and leaves a marker, or does nothing. */
    method Reset(marker: Event, random: string, now: Time, commits: bool) returns (ok: bool)
      modifies this
      ensures ok == commits
      ensures Contents() == if ok then Tables([StoredForm(Prepared(marker, random, now))], map[]) else old(Contents())
    {
      var event := new EventRef(marker);
      PrepareEvent(event, random, now);
      if !commits {
        return false;
      }
      events := [];
      rollups := map[];
      events := InsertAll(events, [StoredForm(event.value)]);
      InsertIntoEmpty(StoredForm(event.value));
      return true;
    }

    /**
     Rows from before the cutoff go, whole days back from now; the others stay, in
     order and with their counts. `from` says which row of the old table each was.
     */
    method PruneRetention(days: int, now: Time, commits: bool) returns (ok: bool, ghost from: seq<nat>)
      modifies this
      ensures ok == (commits || days <= 0)
      ensures days <= 0 || !ok ==> Contents() == old(Contents())
      ensures days > 0 && ok ==> KeepsExactly(old(events), events, now - days * (24 * HOUR), from)
      ensures days > 0 && ok ==> forall k ::
        k in rollups <==> k in old(rollups) && k.bucketStart >= now - days * (24 * HOUR)
      ensures forall k :: k in rollups ==> rollups[k] == old(rollups)[k]
      ensures days > 0 && ok ==> Contents() == PrunedAt(old(Contents()), now - days * (24 * HOUR))
    {
      hide NotBefore, RollupsNotBefore, KeepsExactly;
      from := [];
      if days <= 0 {
        return true, from;
      }
      var cutoff := now - days * (24 * HOUR);
      if !commits {
        return false, from;
      }
      from := NotBeforeKeeps(events, cutoff);
      RollupsKept(rollups, cutoff);
      events := NotBefore(events, cutoff);
      rollups := RollupsNotBefore(rollups, cutoff);
      return true, from;
    }
  }
}
