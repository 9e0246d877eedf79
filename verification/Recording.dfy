/**
What one recorded event does to the tables, the synchronous recorder that does it
at once, and the flush of the asynchronous recorder's buffers with its retries.
*/
module Recording {
  import opened AuditEvent
  import opened AuditPolicy
  import opened Clock
  import opened Repository
  import opened Store

  /** A prepared event with what the policy decided about it. */
  datatype Recorded = Recorded(event: Event, decision: Decision)

  ghost predicate WellRecorded(r: Recorded) {
    IsPrepared(r.event) && (r.decision.countMetric ==> Complete(NewMetricRollup(r.event)))
  }

  /** The rollups an event is counted by: one or none. */
  function RollupsOf(r: Recorded): (rs: seq<MetricRollup>)
    ensures Positive(rs)
  {
    if r.decision.countMetric then [NewMetricRollup(r.event)] else []
  }

  function EventsOf(r: Recorded): seq<Event> {
    if r.decision.persist then [r.event] else []
  }

  // ----- The synchronous recorder -----

  /** The effect of recording one event: count it, then store it if it is to be stored. */
  ghost function SyncApply(t: Tables, r: Recorded): Tables {
    var counted := UpsertAll(t.rollups, RollupsOf(r));
    if !r.decision.persist then Tables(t.events, counted)
    else Tables(InsertOne(t.events, StoredRow(r.event)), counted)
  }

  ghost function SyncRun(t: Tables, rs: seq<Recorded>): Tables {
    if rs == [] then t else SyncApply(SyncRun(t, rs[..|rs| - 1]), rs[|rs| - 1])
  }

  /** Whether the repository offers events and rollups in one transaction, and which transactions commit. */
  datatype Storage = Storage(atomic: bool, firstCommits: bool, secondCommits: bool)

  class SyncRecorder {
    const repo: Repository?
    const policy: Policy
    var enqueueTotal: nat
    var policySkippedTotal: nat
    var sampledOutTotal: nat

    constructor (repo: Repository?, policy: Policy)
      ensures this.repo == repo && this.policy == policy
    {
      this.repo, this.policy := repo, policy;
      enqueueTotal, policySkippedTotal, sampledOutTotal := 0, 0, 0;
    }

    /** The event as prepared and decided in the state the call finds. */
    ghost function Outcome(event: Event, random: string, now: Time): Recorded
      reads policy
    {
      var p := Prepared(event, random, now);
      Recorded(p, Decide(policy.cfg, p, policy.random(policy.drawn)))
    }

    method Record(given: Event, random: string, now: Time, storage: Storage) returns (ok: bool)
      requires now != ZERO_TIME
      modifies this, repo, policy
      ensures repo == null ==> ok && unchanged(this) && unchanged(policy)
      ensures repo != null && storage.firstCommits && storage.secondCommits ==> ok
      ensures repo != null && ok ==>
        var (o, t) := (old(Outcome(given, random, now)), old(repo.Contents()));
        && repo.events == (if o.decision.persist then InsertOne(t.events, StoredRow(o.event)) else t.events)
        && repo.rollups == MergedInto(t.rollups, RollupsOf(o), now)
        && (WellRecorded(o) ==> repo.Contents() == SyncApply(t, o))
      ensures repo != null && !ok ==>
        var (o, t) := (old(Outcome(given, random, now)), old(repo.Contents()));
        var half := !storage.atomic && storage.firstCommits && o.decision.persist && o.decision.countMetric;
        repo.events == t.events && repo.rollups == if half then MergedInto(t.rollups, RollupsOf(o), now) else t.rollups
      ensures repo != null ==>
        var o := old(Outcome(given, random, now));
        && enqueueTotal == old(enqueueTotal) + (if o.decision.persist then 1 else 0)
        && policySkippedTotal == old(policySkippedTotal) + (if ok && !o.decision.persist then 1 else 0)
        && sampledOutTotal == old(sampledOutTotal) + if ok && !o.decision.persist && o.decision.sampledOut then 1 else 0
    {
      hide Prepared, Decide, Complete, InsertOne, InsertAll, MergedInto, UpsertAll, StoredRow, RowsOf, NewMetricRollup;
      if repo == null {
        return true;
      }
      var event := new EventRef(given);
      PrepareEvent(event, random, now);
      var prepared := event.value;
      var decision := policy.DecideEvent(prepared);
      ghost var recorded := old(Outcome(given, random, now));
      assert recorded == Recorded(prepared, decision);
      OneRow(prepared, nth => random, now);
      NothingMerged(repo.rollups, now);
      if WellRecorded(recorded) { CountedAlone(repo.Contents(), recorded, now); }
      var rollup := None;
      if decision.countMetric {
        rollup := Some(NewMetricRollup(prepared));
      }
      if !decision.persist {
        if rollup.Some? {
          ok := repo.AppendMetricRollups([rollup.value], now, storage.firstCommits);
          if !ok {
            return false;
          }
        }
        policySkippedTotal := policySkippedTotal + 1;
        if decision.sampledOut {
          sampledOutTotal := sampledOutTotal + 1;
        }
        return true;
      }
      enqueueTotal := enqueueTotal + 1;
      if rollup.Some? {
        if storage.atomic {
          ok := repo.AppendAuditBatch([prepared], [rollup.value], nth => random, now, storage.firstCommits);
          return ok;
        }
        ok := repo.AppendMetricRollups([rollup.value], now, storage.firstCommits);
        if !ok {
          return false;
        }
      }
      var commits := if rollup.Some? then storage.secondCommits else storage.firstCommits;
      ok := repo.AppendBatch([prepared], nth => random, now, commits);
    }
  }

  lemma OneRow(e: Event, random: nat -> string, now: Time)
    requires IsPrepared(e)
    ensures RowsOf([e], random, now) == [StoredRow(e)]
    ensures forall events :: InsertAll(events, [StoredRow(e)]) == InsertOne(events, StoredRow(e))
  {
    assert [e][..0] == [];
    RowsOfPrepared([e], random, now);
    forall events: seq<Event> ensures InsertAll(events, [StoredRow(e)]) == InsertOne(events, StoredRow(e)) {
      assert [StoredRow(e)][..0] == [];
    }
  }

  /** One rollup on its own is merged with nothing. */
  lemma CountedAlone(t: Tables, r: Recorded, now: Time)
    requires WellRecorded(r)
    ensures MergedInto(t.rollups, RollupsOf(r), now) == SyncApply(t, r).rollups
  {
    hide MergedInto, UpsertAll, NewMetricRollup, MergeKey, KeyOf, Defaults;
    CompleteNeedsNoDefaults(RollupsOf(r), now);
    MergingIsFaithful(t.rollups, RollupsOf(r), now);
  }

  // ----- Batches -----

  function AllEvents(rs: seq<Recorded>): seq<Event> {
    if rs == [] then [] else AllEvents(rs[..|rs| - 1]) + EventsOf(rs[|rs| - 1])
  }

  function AllRollups(rs: seq<Recorded>): (out: seq<MetricRollup>)
    ensures Positive(out)
  {
    if rs == [] then [] else AllRollups(rs[..|rs| - 1]) + RollupsOf(rs[|rs| - 1])
  }

  lemma {:induction false} AllAppend(a: seq<Recorded>, b: seq<Recorded>)
    ensures AllEvents(a + b) == AllEvents(a) + AllEvents(b)
    ensures AllRollups(a + b) == AllRollups(a) + AllRollups(b)
  {
    hide EventsOf, RollupsOf;
    if b == [] {
      assert a + b == a;
    } else {
      var prefix, last := b[..|b| - 1], b[|b| - 1];
      AllAppend(a, prefix);
      assert (a + b)[..|a + b| - 1] == a + prefix;
      assert AllEvents(a) + AllEvents(prefix) + EventsOf(last) == AllEvents(a) + (AllEvents(prefix) + EventsOf(last));
      assert AllRollups(a) + AllRollups(prefix) + RollupsOf(last)
          == AllRollups(a) + (AllRollups(prefix) + RollupsOf(last));
    }
  }

  ghost predicate AllWellRecorded(rs: seq<Recorded>) {
    forall i :: 0 <= i < |rs| ==> WellRecorded(rs[i])
  }

  /** Items whose rollups a merge would not conflate, however they are batched. */
  ghost predicate Recordable(rs: seq<Recorded>) {
    AllWellRecorded(rs) && NonConflating(AllRollups(rs))
  }

  lemma {:induction false} BatchIsComplete(rs: seq<Recorded>)
    requires AllWellRecorded(rs)
    ensures AllComplete(AllRollups(rs)) && AllPrepared(AllEvents(rs))
  {
    hide Complete, IsPrepared, NewMetricRollup;
    if rs != [] {
      BatchIsComplete(rs[..|rs| - 1]);
      assert WellRecorded(rs[|rs| - 1]);
    }
  }

  lemma PartIsRecordable(rs: seq<Recorded>, i: nat, j: nat)
    requires Recordable(rs) && i <= j <= |rs|
    ensures Recordable(rs[i..j])
  {
    hide WellRecorded, NonConflating, AllRollups, AllEvents;
    assert rs == rs[..j] + rs[j..] && rs[..j] == rs[..i] + rs[i..j];
    AllAppend(rs[..j], rs[j..]);
    AllAppend(rs[..i], rs[i..j]);
    PartIsNonConflating(AllRollups(rs[..j]), AllRollups(rs[j..]));
    PartIsNonConflating(AllRollups(rs[..i]), AllRollups(rs[i..j]));
  }

  lemma EarlierIsRecordable(a: seq<Recorded>, b: seq<Recorded>)
    requires a <= b && Recordable(b)
    ensures Recordable(a)
  {
    hide Recordable;
    PartIsRecordable(b, 0, |a|);
    assert b[0..|a|] == a;
  }

  /** Recording events one at a time leaves the tables that one batch of them leaves. */
  lemma {:induction false} SyncRunIsBatch(t: Tables, rs: seq<Recorded>)
    ensures SyncRun(t, rs) == Appended(t, Rows(AllEvents(rs)), AllRollups(rs))
  {
    if rs != [] {
      var prefix, last := rs[..|rs| - 1], rs[|rs| - 1];
      SyncRunIsBatch(t, prefix);
      RowsAppend(AllEvents(prefix), EventsOf(last));
      AppendingComposes(t, Rows(AllEvents(prefix)), AllRollups(prefix), Rows(EventsOf(last)), RollupsOf(last));
      var before := InsertAll(t.events, Rows(AllEvents(prefix)));
      if last.decision.persist {
        assert Rows([last.event])[..0] == [] && Rows([last.event])[0] == StoredRow(last.event);
      }
    }
  }

  // ----- Flushing a batch -----

  datatype FlushConfig = FlushConfig(retryMaxAttempts: nat, initialBackoff: Duration, maxBackoff: Duration)

  /**
   What the world does to one attempt: when it is made, whether its first and second
   transactions commit, and whether the context ends while waiting to retry.
   */
  datatype Attempt = Attempt(now: Time, firstCommits: bool, secondCommits: bool, interrupted: bool)

  /** One attempt on a batch. Without an atomic repository the events go in first, alone. */
  ghost function FlushOnceResult(atomic: bool, t: Tables, events: seq<Event>, rollups: seq<MetricRollup>,
                                 random: nat -> string, a: Attempt): (Tables, bool) {
    var rows := RowsOf(events, random, a.now);
    var failed := if atomic then (events != [] || rollups != []) && !a.firstCommits
                  else (events != [] && !a.firstCommits) || (rollups != [] && !a.secondCommits);
    var half := failed && !atomic && (events == [] || a.firstCommits);
    if half then (t.(events := InsertAll(t.events, rows)), false)
    else if failed then (t, false)
    else (Batched(t, rows, rollups, a.now), true)
  }

  /** Doubling is 64-bit arithmetic; only an exact double above the maximum is cut back. */
  function NextBackoff(backoff: Duration, max: Duration): Duration {
    var doubled := Wrap64(backoff * 2);
    if doubled > max then max else doubled
  }

  datatype RetryResult = RetryResult(tables: Tables, ok: bool, failures: nat, waits: seq<Duration>, exhausted: bool)

  /** The attempts from number `attempt` on, with the wait that would follow a failure. */
  ghost function Retry(cfg: FlushConfig, atomic: bool, t: Tables, events: seq<Event>, rollups: seq<MetricRollup>,
                       random: nat -> string, world: nat -> Attempt, attempt: nat, backoff: Duration): RetryResult
    decreases cfg.retryMaxAttempts - attempt
  {
    if attempt > cfg.retryMaxAttempts then RetryResult(t, false, 0, [], true)
    else
      var (t', ok) := FlushOnceResult(atomic, t, events, rollups, random, world(attempt));
      if ok then RetryResult(t', true, 0, [], false)
      else if attempt == cfg.retryMaxAttempts then RetryResult(t', false, 1, [], true)
      else if world(attempt).interrupted then RetryResult(t', false, 1, [backoff], false)
      else
        var next := NextBackoff(backoff, cfg.maxBackoff);
        var rest := Retry(cfg, atomic, t', events, rollups, random, world, attempt + 1, next);
        rest.(failures := rest.failures + 1, waits := [backoff] + rest.waits)
  }

  /** One attempt, and what it leaves to the next. */
  lemma RetryOnce(cfg: FlushConfig, atomic: bool, t: Tables, events: seq<Event>, rollups: seq<MetricRollup>,
                  random: nat -> string, world: nat -> Attempt, attempt: nat, backoff: Duration)
    ensures var r := Retry(cfg, atomic, t, events, rollups, random, world, attempt, backoff);
      var (t', ok) := FlushOnceResult(atomic, t, events, rollups, random, world(attempt));
      if attempt > cfg.retryMaxAttempts then r == RetryResult(t, false, 0, [], true)
      else if ok then r == RetryResult(t', true, 0, [], false)
      else if attempt == cfg.retryMaxAttempts then r == RetryResult(t', false, 1, [], true)
      else if world(attempt).interrupted then r == RetryResult(t', false, 1, [backoff], false)
      else
        var next := NextBackoff(backoff, cfg.maxBackoff);
        var rest := Retry(cfg, atomic, t', events, rollups, random, world, attempt + 1, next);
        r == rest.(failures := rest.failures + 1, waits := [backoff] + rest.waits)
  {
    hide FlushOnceResult;
  }

  // ----- The consumer -----

  datatype Item = Item(event: Event, rollup: Option<MetricRollup>, priority: Priority)

  /** The consumer tells stored items by their event id. */
  function ItemEvents(item: Item): seq<Event> {
    if item.event.id != "" then [item.event] else []
  }

  function ItemRollups(item: Item): seq<MetricRollup> {
    if item.rollup.Some? then [item.rollup.value] else []
  }

  /** What the items of a channel carry, in order. */
  function ChannelEvents(chan: seq<Item>): seq<Event> {
    if chan == [] then [] else ChannelEvents(chan[..|chan| - 1]) + ItemEvents(chan[|chan| - 1])
  }

  function ChannelRollups(chan: seq<Item>): seq<MetricRollup> {
    if chan == [] then [] else ChannelRollups(chan[..|chan| - 1]) + ItemRollups(chan[|chan| - 1])
  }

  lemma NothingCarried(chan: seq<Item>)
    ensures ChannelEvents(chan[..0]) == [] && ChannelRollups(chan[..0]) == []
  {
  }

  lemma CarriedOneMore(chan: seq<Item>, i: nat)
    requires i < |chan|
    ensures ChannelEvents(chan[..i + 1]) == ChannelEvents(chan[..i]) + ItemEvents(chan[i])
    ensures ChannelRollups(chan[..i + 1]) == ChannelRollups(chan[..i]) + ItemRollups(chan[i])
  {
    hide ItemEvents, ItemRollups;
    assert chan[..i + 1][..i] == chan[..i];
  }

  /** The consumer's buffers and the repository they are flushed to. */
  class Consumer {
    const cfg: FlushConfig
    const atomic: bool
    const repo: Repository
    var events: seq<Event>
    var rollups: seq<MetricRollup>
    var retryTotal: nat
    var retryExhaustedTotal: nat

    constructor (cfg: FlushConfig, atomic: bool, repo: Repository)
      ensures this.cfg == cfg && this.atomic == atomic && this.repo == repo
      ensures events == [] && rollups == [] && retryTotal == 0 && retryExhaustedTotal == 0
    {
      this.cfg, this.atomic, this.repo := cfg, atomic, repo;
      events, rollups, retryTotal, retryExhaustedTotal := [], [], 0, 0;
    }

    method Add(item: Item)
      modifies this`events, this`rollups
      ensures events == old(events) + ItemEvents(item) && rollups == old(rollups) + ItemRollups(item)
    {
      if item.event.id != "" {
        events := events + [item.event];
      }
      if item.rollup.Some? {
        rollups := rollups + [item.rollup.value];
      }
    }

    /** Receives until the channel is empty. */
    method Drain(chan: seq<Item>)
      modifies this`events, this`rollups
      ensures events == old(events) + ChannelEvents(chan) && rollups == old(rollups) + ChannelRollups(chan)
    {
      NothingCarried(chan);
      hide ChannelEvents, ChannelRollups, ItemEvents, ItemRollups;
      for i := 0 to |chan|
        invariant events == old(events) + ChannelEvents(chan[..i])
        invariant rollups == old(rollups) + ChannelRollups(chan[..i])
      {
        Add(chan[i]);
        CarriedOneMore(chan, i);
      }
      assert chan[..|chan|] == chan;
    }

    method FlushOnce(a: Attempt, random: nat -> string) returns (ok: bool)
      modifies repo
      ensures (repo.Contents(), ok) == FlushOnceResult(atomic, old(repo.Contents()), events, rollups, random, a)
    {
      hide MergedInto, NonConflating, UpsertAll;
      NothingMerged(repo.rollups, a.now);
      if atomic {
        ok := repo.AppendAuditBatch(events, rollups, random, a.now, a.firstCommits);
        return ok;
      }
      if |events| > 0 {
        ok := repo.AppendBatch(events, random, a.now, a.firstCommits);
        if !ok {
          return false;
        }
      }
      if |rollups| > 0 {
        ok := repo.AppendMetricRollups(rollups, a.now, a.secondCommits);
        if !ok {
          return false;
        }
      }
      return true;
    }

    method FlushWithRetry(world: nat -> Attempt, random: nat -> string)
      returns (ok: bool, ghost waits: seq<Duration>)
      modifies repo, this`retryTotal, this`retryExhaustedTotal
      ensures var r := Retry(cfg, atomic, old(repo.Contents()), events, rollups, random, world, 1, cfg.initialBackoff);
        && repo.Contents() == r.tables && ok == r.ok && waits == r.waits
        && retryTotal == old(retryTotal) + r.failures
        && retryExhaustedTotal == old(retryExhaustedTotal) + if r.exhausted then 1 else 0
    {
      hide Retry, FlushOnceResult, Wrap64;
      var backoff := cfg.initialBackoff;
      var attempt := 1;
      waits := [];
      ghost var whole := Retry(cfg, atomic, repo.Contents(), events, rollups, random, world, 1, backoff);
      while attempt <= cfg.retryMaxAttempts
        invariant attempt >= 1 && events == old(events) && rollups == old(rollups)
        invariant retryTotal >= old(retryTotal) && retryExhaustedTotal == old(retryExhaustedTotal)
        invariant var rest := Retry(cfg, atomic, repo.Contents(), events, rollups, random, world, attempt, backoff);
          whole == rest.(failures := retryTotal - old(retryTotal) + rest.failures, waits := waits + rest.waits)
        decreases cfg.retryMaxAttempts - attempt
      {
        RetryOnce(cfg, atomic, repo.Contents(), events, rollups, random, world, attempt, backoff);
        ok := FlushOnce(world(attempt), random);
        if ok {
          return true, waits;
        }
        retryTotal := retryTotal + 1;
        if attempt == cfg.retryMaxAttempts {
          break;
        }
        waits := waits + [backoff];
        if world(attempt).interrupted {
          return false, waits;
        }
        backoff := Wrap64(backoff * 2);
        if backoff > cfg.maxBackoff {
          backoff := cfg.maxBackoff;
        }
        attempt := attempt + 1;
      }
      RetryOnce(cfg, atomic, repo.Contents(), events, rollups, random, world, attempt, backoff);
      retryExhaustedTotal := retryExhaustedTotal + 1;
      return false, waits;
    }

    /** Empties the buffers if everything was stored, and keeps them in order if not. */
    method Flush(world: nat -> Attempt, random: nat -> string) returns (ok: bool)
      modifies this, repo
      ensures old(events) == [] && old(rollups) == [] ==> ok && unchanged(this) && unchanged(repo)
      ensures events == (if ok then [] else old(events)) && rollups == (if ok then [] else old(rollups))
      ensures AllPrepared(old(events)) && AllComplete(old(rollups)) ==>
        var t := old(repo.Contents());
        && (ok ==> repo.Contents() == FlushedTo(t, old(events), old(rollups)))
        && (!ok ==> Partial(t, repo.Contents(), events) && (atomic ==> repo.Contents() == t))
      ensures ok && AllPrepared(old(events)) && Mergeable(old(rollups)) ==>
        Positive(old(rollups)) && repo.Contents() == Appended(old(repo.Contents()), Rows(old(events)), old(rollups))
    {
      hide Retry, FlushOnceResult, AllComplete, AllPrepared, Mergeable, Batched, Appended;
      if Mergeable(rollups) {
        BatchedIsAppended(repo.Contents(), Rows(events), rollups, ZERO_TIME);
        MergeableIsComplete(rollups);
      }
      if |events| == 0 && |rollups| == 0 {
        FlushedNothing(repo.Contents());
        return true;
      }
      ghost var waits;
      if AllPrepared(events) && AllComplete(rollups) {
        RetryEffect(cfg, atomic, repo.Contents(), events, rollups, random, world, 1, cfg.initialBackoff);
      }
      ok, waits := FlushWithRetry(world, random);
      if ok {
        events := [];
        rollups := [];
      }
    }

    /**
     A Flush or a Close: everything queued so far joins the buffers and is flushed with
     them. Success means all of it is stored, once; failure keeps all of it, in order.
     */
    method FlushQueued(chan: seq<Item>, world: nat -> Attempt, random: nat -> string) returns (ok: bool)
      modifies this, repo
      ensures var e, r := old(events) + ChannelEvents(chan), old(rollups) + ChannelRollups(chan);
        && events == (if ok then [] else e) && rollups == (if ok then [] else r)
        && (AllPrepared(e) && AllComplete(r) ==>
              if ok then repo.Contents() == FlushedTo(old(repo.Contents()), e, r)
              else Partial(old(repo.Contents()), repo.Contents(), e))
    {
      hide FlushedTo, Partial, ChannelEvents, ChannelRollups, AllPrepared, AllComplete, Mergeable;
      Drain(chan);
      ok := Flush(world, random);
    }
  }

  // ----- What retrying means -----

  /** A whole batch in the tables, its events as rows and its rollups merged. */
  ghost function FlushedTo(t: Tables, events: seq<Event>, rollups: seq<MetricRollup>): Tables {
    Batched(t, Rows(events), rollups, ZERO_TIME)
  }

  lemma MergeableIsComplete(rollups: seq<MetricRollup>)
    requires Mergeable(rollups)
    ensures AllComplete(rollups)
  {
  }

  lemma FlushedNothing(t: Tables)
    ensures FlushedTo(t, [], []) == t
  {
    NothingMerged(t.rollups, ZERO_TIME);
    assert Rows([]) == [];
    hide MergedInto;
  }

  /** Complete rollups merge alike at all times. */
  lemma {:induction false} MergedAtAnyTime(rs: seq<MetricRollup>, now: Time, later: Time)
    requires AllComplete(rs)
    ensures Merged(rs, now) == Merged(rs, later)
  {
    hide MergeOne;
    if rs != [] {
      assert Complete(rs[|rs| - 1]);
      MergedAtAnyTime(rs[..|rs| - 1], now, later);
    }
  }

  lemma BatchedAtAnyTime(t: Tables, rows: seq<Event>, rollups: seq<MetricRollup>, now: Time)
    requires AllComplete(rollups)
    ensures Batched(t, rows, rollups, now) == Batched(t, rows, rollups, ZERO_TIME)
  {
    MergedAtAnyTime(rollups, now, ZERO_TIME);
    hide Merged, AnyOrder, UpsertAll;
  }

  /** Half a flush: nothing of it in the tables, or the events alone. */
  ghost predicate Partial(t: Tables, t': Tables, events: seq<Event>) {
    t' == t || t' == t.(events := InsertAll(t.events, Rows(events)))
  }

  /**
   A flush that succeeds after any failures stores the batch exactly once; one that
   fails has stored no rollup, and without an atomic repository at most all the events.
   */
  lemma {:induction false} RetryEffect(cfg: FlushConfig, atomic: bool, t: Tables, events: seq<Event>,
        rollups: seq<MetricRollup>,
                                       random: nat -> string, world: nat -> Attempt, attempt: nat, backoff: Duration)
    requires AllPrepared(events) && AllComplete(rollups)
    ensures var r := Retry(cfg, atomic, t, events, rollups, random, world, attempt, backoff);
      && (r.ok ==> r.tables == FlushedTo(t, events, rollups))
      && (!r.ok ==> Partial(t, r.tables, events) && (atomic ==> r.tables == t))
    decreases cfg.retryMaxAttempts - attempt
  {
    hide Retry, FlushOnceResult, Partial, FlushedTo, AllPrepared, AllComplete;
    RetryOnce(cfg, atomic, t, events, rollups, random, world, attempt, backoff);
    AttemptEffect(atomic, t, events, rollups, random, world(attempt));
    if attempt < cfg.retryMaxAttempts {
      var t' := FlushOnceResult(atomic, t, events, rollups, random, world(attempt)).0;
      var backoff' := NextBackoff(backoff, cfg.maxBackoff);
      RetryEffect(cfg, atomic, t', events, rollups, random, world, attempt + 1, backoff');
      var t'' := Retry(cfg, atomic, t', events, rollups, random, world, attempt + 1, backoff').tables;
      if Partial(t, t', events) { PartialAgain(t, t', events, rollups, t''); }
    }
    assert Partial(t, t, events) by { PartialAlready(t, events); }
  }

  lemma PartialAlready(t: Tables, events: seq<Event>)
    ensures Partial(t, t, events)
  {
  }

  lemma AttemptEffect(atomic: bool, t: Tables, events: seq<Event>, rollups: seq<MetricRollup>,
        random: nat -> string, a: Attempt)
    requires AllPrepared(events) && AllComplete(rollups)
    ensures var (t', ok) := FlushOnceResult(atomic, t, events, rollups, random, a);
      && (ok ==> t' == FlushedTo(t, events, rollups))
      && (!ok ==> Partial(t, t', events) && (atomic ==> t' == t))
  {
    hide InsertAll, MergedInto, Rows, AllPrepared, AllComplete;
    RowsOfPrepared(events, random, a.now);
    BatchedAtAnyTime(t, Rows(events), rollups, a.now);
  }

  /** The events of half a flush, inserted again, change nothing. */
  lemma PartialAgain(t: Tables, t': Tables, events: seq<Event>, rollups: seq<MetricRollup>, t'': Tables)
    requires Partial(t, t', events)
    ensures FlushedTo(t', events, rollups) == FlushedTo(t, events, rollups)
    ensures Partial(t', t'', events) ==> Partial(t, t'', events)
  {
    InsertReplay(t.events, Rows(events), []);
    assert Rows(events) + [] == Rows(events);
    hide InsertAll, MergedInto, Rows;
  }

  /** A batch that failed and is flushed again with more behind it ends up as if it had not failed. */
  lemma {:induction false} FailedFlushLosesNothing(t: Tables, t': Tables, e1: seq<Event>, r1: seq<MetricRollup>,
                                                   e2: seq<Event>, r2: seq<MetricRollup>)
    requires Mergeable(r1 + r2) && Partial(t, t', e1)
    ensures FlushedTo(t', e1 + e2, r1 + r2) == FlushedTo(FlushedTo(t, e1, r1), e2, r2)
  {
    hide MergedInto, InsertAll, Rows, NonConflating, AllComplete, Defaults;
    RowsAppend(e1, e2);
    CompleteNeedsNoDefaults(r1 + r2, ZERO_TIME);
    BatchingIsHomomorphic(t, Rows(e1), r1, Rows(e2), r2, ZERO_TIME);
    InsertReplay(t.events, Rows(e1), Rows(e2));
  }

  lemma PartialEvents(t: Tables, events: seq<Event>)
    ensures t.(events := InsertAll(t.events, Rows(events))) == Appended(t, Rows(events), [])
  {
    assert UpsertAll(t.rollups, []) == t.rollups;
    hide InsertAll, Rows;
  }

  /**
   Pruning between the failed attempts of a flush does no harm: if its cutoff is not after
   anything in the batch, and no row it removes has an id of the batch, the flush that
   succeeds afterwards ends as if it had not failed and pruning had come after it.
   */
  lemma {:induction false} PruneDuringRetry(t: Tables, t': Tables, events: seq<Event>, rollups: seq<MetricRollup>,
        cutoff: Time)
    requires Mergeable(rollups) && Partial(t, t', events)
    requires forall i :: 0 <= i < |rollups| ==> rollups[i].bucketStart >= cutoff
    requires forall row :: row in Rows(events) ==> FreshRow(t.events, row, cutoff)
    ensures FlushedTo(PrunedAt(t', cutoff), events, rollups) == PrunedAt(FlushedTo(t, events, rollups), cutoff)
  {
    hide Rows, Mergeable, FreshRow, PrunedAt, InsertAll, MergedInto, UpsertAll;
    BatchedIsAppended(t, Rows(events), rollups, ZERO_TIME);
    BatchedIsAppended(PrunedAt(t, cutoff), Rows(events), rollups, ZERO_TIME);
    PruneCommutes(t, Rows(events), rollups, cutoff);
    PruneCommutes(t, Rows(events), [], cutoff);
    PartialEvents(t, events);
    PartialEvents(PrunedAt(t, cutoff), events);
    PartialAgain(PrunedAt(t, cutoff), PrunedAt(t', cutoff), events, rollups, t');
  }

  /** The wait after failure number `k` as documented: doubled each time, up to the maximum. */
  function Backoff(cfg: FlushConfig, k: nat): Duration
    requires k > 0
  {
    if k == 1 then cfg.initialBackoff else Min(cfg.initialBackoff * Pow2(k - 1), cfg.maxBackoff)
  }

  function Min(a: int, b: int): int {
    if a < b then a else b
  }

  function Pow2(k: nat): (p: nat)
    ensures p > 0
  {
    if k == 0 then 1 else 2 * Pow2(k - 1)
  }

  /** The wait the loop arrives at. */
  function LoopBackoff(cfg: FlushConfig, k: nat): Duration
    requires k > 0
  {
    if k == 1 then cfg.initialBackoff else NextBackoff(LoopBackoff(cfg, k - 1), cfg.maxBackoff)
  }

  predicate ValidBackoff(cfg: FlushConfig) {
    0 < cfg.initialBackoff <= MAX_INT64 && 0 < cfg.maxBackoff <= MAX_INT64
  }

  /**
   At most the allowed attempts are made, every failed one is counted, and the waits
   are the loop's, one after each failure that is followed by another attempt or cut short.
   */
  lemma {:induction false} RetryBounds(cfg: FlushConfig, atomic: bool, t: Tables, events: seq<Event>,
        rollups: seq<MetricRollup>,
                                       random: nat -> string, world: nat -> Attempt, attempt: nat)
    requires 0 < attempt <= cfg.retryMaxAttempts
    ensures var r := Retry(cfg, atomic, t, events, rollups, random, world, attempt, LoopBackoff(cfg, attempt));
      && r.failures + (if r.ok then 1 else 0) <= cfg.retryMaxAttempts + 1 - attempt
      && |r.waits| == r.failures - (if r.exhausted then 1 else 0)
      && (r.exhausted ==> !r.ok && r.failures == cfg.retryMaxAttempts + 1 - attempt)
      && (forall i :: 0 <= i < |r.waits| ==> r.waits[i] == LoopBackoff(cfg, attempt + i))
    decreases cfg.retryMaxAttempts - attempt
  {
    hide Retry, FlushOnceResult, NextBackoff;
    RetryOnce(cfg, atomic, t, events, rollups, random, world, attempt, LoopBackoff(cfg, attempt));
    if attempt < cfg.retryMaxAttempts {
      var t' := FlushOnceResult(atomic, t, events, rollups, random, world(attempt)).0;
      RetryBounds(cfg, atomic, t', events, rollups, random, world, attempt + 1);
    }
  }

  lemma {:induction false} Pow2Grows(k: nat)
    requires k >= 64
    ensures Pow2(k) > MAX_INT64
  {
    if k == 64 {
      assert Pow2(4) == 16;
      Pow2Sum(4, 4);
      hide Pow2;
      Pow2Sum(8, 8);
      Pow2Sum(16, 16);
      Pow2Sum(32, 32);
    } else {
      Pow2Grows(k - 1);
    }
  }

  lemma {:induction false} Pow2Sum(a: nat, b: nat)
    ensures Pow2(a + b) == Pow2(a) * Pow2(b)
  {
    if b > 0 {
      Pow2Sum(a, b - 1);
      assert Pow2(a + b) == 2 * (Pow2(a) * Pow2(b - 1));
    }
  }

  lemma DoublingPow2(i: int, k: nat)
    requires i > 0 && k > 0
    ensures i * Pow2(k) == 2 * (i * Pow2(k - 1)) && i * Pow2(k - 1) > 0
  {
    var p := Pow2(k - 1);
    assert Pow2(k) == 2 * p;
    hide Pow2;
    assert i * (2 * p) == 2 * (i * p);
    MultipleBound(i, p);
  }

  /** Doubling within bounds stays within bounds, and within 64 bits. */
  lemma DoubledWithin(x: int, max: Duration)
    requires 0 < x && 0 < max && 2 * max <= MAX_INT64
    ensures NextBackoff(Min(x, max), max) == Min(2 * x, max)
  {
  }

  lemma DoubledOnce(x: int, max: Duration)
    requires 0 < x && 2 * x <= MAX_INT64
    ensures NextBackoff(x, max) == Min(2 * x, max)
  {
  }

  lemma {:induction false} LoopIsDocumented(cfg: FlushConfig, k: nat)
    requires ValidBackoff(cfg) && 2 * cfg.initialBackoff <= MAX_INT64 && 2 * cfg.maxBackoff <= MAX_INT64 && k > 0
    ensures LoopBackoff(cfg, k) == Backoff(cfg, k)
  {
    hide Pow2, NextBackoff, Min;
    if k == 2 {
      assert LoopBackoff(cfg, 2) == NextBackoff(LoopBackoff(cfg, 1), cfg.maxBackoff);
      DoublingPow2(cfg.initialBackoff, 1);
      assert Pow2(0) == 1 by { PowZero(); }
      DoubledOnce(cfg.initialBackoff, cfg.maxBackoff);
    } else if k > 2 {
      LoopIsDocumented(cfg, k - 1);
      DoublingPow2(cfg.initialBackoff, k - 1);
      DoubledWithin(cfg.initialBackoff * Pow2(k - 2), cfg.maxBackoff);
    }
  }

  lemma PowZero()
    ensures Pow2(0) == 1
  {
  }

  /** The waits are the documented ones, however many failures, exactly when doubling either bound fits in 64 bits. */
  lemma BackoffIsDocumented(cfg: FlushConfig)
    requires ValidBackoff(cfg)
    ensures (forall k: nat :: k > 0 ==> LoopBackoff(cfg, k) == Backoff(cfg, k))
      <==> 2 * cfg.initialBackoff <= MAX_INT64 && 2 * cfg.maxBackoff <= MAX_INT64
  {
    var i, m := cfg.initialBackoff, cfg.maxBackoff;
    if 2 * i <= MAX_INT64 && 2 * m <= MAX_INT64 {
      forall k: nat | k > 0 ensures LoopBackoff(cfg, k) == Backoff(cfg, k) {
        LoopIsDocumented(cfg, k);
      }
    } else if 2 * i > MAX_INT64 {
      DoublingOverflows(i, m);
      assert LoopBackoff(cfg, 2) == NextBackoff(LoopBackoff(cfg, 1), m);
      assert Pow2(1) == 2;
    } else {
      DoublingOverflows(m, m);
      MaximumIsReached(cfg, 65);
      MaximumIsReached(cfg, 66);
      assert LoopBackoff(cfg, 66) == NextBackoff(LoopBackoff(cfg, 65), m);
    }
  }

  lemma DoublingOverflows(backoff: Duration, max: Duration)
    requires 0 < backoff <= MAX_INT64 < 2 * backoff && max > 0
    ensures NextBackoff(backoff, max) < 0
  {
    assert Wrap64(backoff * 2) == backoff * 2 - 0x1_0000_0000_0000_0000;
  }

  lemma MaximumIsReached(cfg: FlushConfig, k: nat)
    requires ValidBackoff(cfg) && k >= 65
    ensures Backoff(cfg, k) == cfg.maxBackoff
  {
    hide Pow2;
    Pow2Grows(k - 1);
    MultipleBound(cfg.initialBackoff, Pow2(k - 1));
  }
}
