/** What a Reset of the asynchronous recorder leaves behind. */
module ProtocolReset {
  import opened AuditEvent
  import opened Recording
  import opened Repository
  import opened Store
  import opened Protocol
  import opened ProtocolFifo
  import opened ProtocolStore
  import opened ProtocolControl
  import opened ProtocolRuns
  import opened ProtocolTheorems

  /** Rows are the marker or recorded since the Reset; counts are those of items since; nothing else remains. */
  ghost predicate OnlySince(q: Queue, db: Database) {
    && db.wiped <= q.acked <= q.taken <= |q.sent| && |db.base.events| == 1
    && (forall e :: e in db.tables.events ==> e == db.base.events[0] || e in Rows(AllEvents(q.sent[db.wiped..q.taken])))
    && db.tables.rollups == UpsertAll(map[], AllRollups(q.sent[db.wiped..q.acked]))
    && (db.wiped == |q.sent| ==> db.tables == Tables(db.base.events, map[]))
  }

  lemma RowsWithin(a: seq<Event>, b: seq<Event>)
    requires forall e :: e in a ==> e in b
    ensures forall row :: row in Rows(a) ==> row in Rows(b)
  {
    hide StoredRow;
    forall row | row in Rows(a) ensures row in Rows(b) {
      var i :| 0 <= i < |a| && Rows(a)[i] == row;
      assert a[i] in a;
      var j :| 0 <= j < |b| && b[j] == a[i];
      assert Rows(b)[j] == row;
    }
  }

  /** Flushed or buffered events are of items received since the last Reset. */
  lemma ReceivedSince(q: Queue, db: Database)
    requires Fifo(q) && db.wiped <= q.acked && db.partial <= |q.events|
    ensures forall e :: e in AllEvents(FlushedItems(q, db)) ==> e in AllEvents(q.sent[db.wiped..q.taken])
    ensures forall e :: e in q.events[..db.partial] ==> e in AllEvents(q.sent[db.wiped..q.taken])
  {
    hide AllEvents, AllRollups, Thinned;
    ThinnedEvents(q.sent, db.wiped, q.acked, db.torn);
    assert q.sent[db.wiped..q.taken] == q.sent[db.wiped..q.acked] + q.sent[q.acked..q.taken];
    AllAppend(q.sent[db.wiped..q.acked], q.sent[q.acked..q.taken]);
  }

  lemma StoreIsOnlySince(atomic: bool, q: Queue, db: Database, pc: ConsumerPc)
    requires StoreInv(atomic, q, db, pc) && Fifo(q) && |db.base.events| == 1 && db.base.rollups == map[]
    ensures OnlySince(q, db)
  {
    hide Rows, AllEvents, AllRollups, Fifo, UpsertAll, InsertAll, Thinned;
    if db.wiped == |q.sent| { NothingSince(atomic, q, db, pc); }
    ReceivedSince(q, db);
    RowsWithin(AllEvents(FlushedItems(q, db)), AllEvents(q.sent[db.wiped..q.taken]));
    RowsWithin(q.events[..db.partial], AllEvents(q.sent[db.wiped..q.taken]));
    InsertAddsOnly(db.base.events, Rows(AllEvents(FlushedItems(q, db))));
    InsertAddsOnly(Flushed(q, db).events, Rows(q.events[..db.partial]));
    ThinnedEvents(q.sent, db.wiped, q.acked, db.torn);
  }

  lemma NothingSince(atomic: bool, q: Queue, db: Database, pc: ConsumerPc)
    requires StoreInv(atomic, q, db, pc) && Fifo(q) && db.wiped == |q.sent|
    ensures db.tables == db.base
  {
    hide Rows, AllEvents, AllRollups, InsertAll, UpsertAll;
    NothingRecorded();
    NothingUpserted(db.base);
    assert FlushedItems(q, db) == [] && q.sent[q.acked..q.taken] == [];
    assert q.events[..db.partial] == [];
  }

  lemma NothingUpserted(t: Tables)
    ensures Rows([]) == [] && InsertAll(t.events, []) == t.events && UpsertAll(t.rollups, []) == t.rollups
  {
  }

  /**
   Reset is a barrier: after it has returned nil nothing recorded before it was called
   is stored or will reappear. Every row is a marker or was recorded later, and the
   counts are those of later items; with no later item a marker is all there is.
   */
  lemma {:induction false} ResetIsBarrier(cfg: Config, t: Tables, states: seq<State>, steps: seq<Step>, i: nat,
        j: nat, caller: nat)
    requires ValidConfig(cfg) && Run(cfg, t, states, steps) && i <= j < |states|
    requires caller in states[i].clients && states[i].clients[caller].ResetReturned? && states[i].clients[caller].ok
    requires Recordable(states[j].queue.sent)
    ensures states[i].clients[caller].before <= states[j].db.wiped
    ensures OnlySince(states[j].queue, states[j].db)
  {
    hide Run, Control, Recordable, StoreInv, OnlySince, Fifo;
    var s := states[j];
    ControlAlways(cfg, t, states, steps, j);
    AlwaysLater(cfg, t, states, steps, i, j);
    StoreAlways(cfg, t, states, steps, j);
    assert Returned(states[i].clients[caller]);
    CallerKnown(cfg, s, caller);
    StoreIsOnlySince(cfg.atomic, s.queue, s.db, s.pc);
  }

  /** With nothing recorded since the call, the Reset leaves exactly its marker. */
  lemma ResetLeavesMarker(cfg: Config, s: State, caller: nat, a: ClientAction)
    requires Control(cfg, s) && ClientEnabled(cfg, s, caller, a) && a.DoReset? && a.commits
    requires |s.queue.sent| == s.clients[caller].before
    ensures var s' := ClientApply(cfg, s, caller, a);
      && s'.db.tables == Tables([StoredForm(Prepared(s.clients[caller].event, a.random, a.now))], map[])
      && s'.db.wiped == |s.queue.sent| && s'.db.torn == {} && Pending(s'.queue) == 0 && s'.queue.chan == []
  {
    assert CallerOk(s.queue, s.db, s.gate.replies, caller, s.clients[caller]);
    assert s.queue.sent[s.queue.acked..s.queue.taken] == [];
    assert AllEvents([]) == [] && AllRollups([]) == [];
    hide ReplyInv, GateInv, StatsInv, PcInv;
  }

  // ----- A Reset between the two halves of a flush -----

  const MARKER := EMPTY_EVENT.(id := "marker", action := "audit.reset")

  /** A Reset asks for its flush, and the consumer has nothing to flush. */
  lemma AsksForFlush(cfg: Config, t: Tables, c: nat) returns (s: State)
    requires ValidConfig(cfg)
    ensures Reachable(cfg, t, s)
    ensures s == Init(t).(clients := map[c := FlushAwaiting(0, Some(MARKER))], pc := Replying(Request(c), true))
  {
    hide Reachable;
    ReachInit(cfg, t);
    var s0 := Init(t);
    ReachStep(cfg, t, s0, ByClient(c, CallReset(MARKER)));
    var s1 := At(s0, c, FlushCalled(0, Some(MARKER)));
    ReachStep(cfg, t, s1, ByClient(c, FlushCheck));
    var s2 := At(s1, c, FlushOffered(0, Some(MARKER)));
    ReachStep(cfg, t, s2, ByConsumer(ReceiveFlush(c)));
    var s3 := At(s2.(pc := Draining(Request(c))), c, FlushAwaiting(0, Some(MARKER)));
    ReachStep(cfg, t, s3, ByConsumer(DrainEnd));
    s := s3.(pc := Replying(Request(c), true));
    assert Apply(cfg, s3, ByConsumer(DrainEnd)) == s;
    assert s.clients == map[c := FlushAwaiting(0, Some(MARKER))];
  }

  /** It is told so, and is about to go to the repository. */
  lemma ResetterWaits(cfg: Config, t: Tables, c: nat) returns (s: State)
    requires ValidConfig(cfg)
    ensures Reachable(cfg, t, s)
    ensures s == Init(t).(clients := map[c := Resetting(0, MARKER)], gate := Init(t).gate.(replies := map[c := true]))
  {
    hide Reachable;
    var s0 := AsksForFlush(cfg, t, c);
    ReachStep(cfg, t, s0, ByConsumer(Reply));
    var s1 := s0.(gate := s0.gate.(replies := map[c := true]), pc := Selecting);
    assert Apply(cfg, s0, ByConsumer(Reply)) == s1;
    ReachStep(cfg, t, s1, ByClient(c, FlushCollect));
    s := At(s1, c, Resetting(0, MARKER));
    assert s.clients == map[c := Resetting(0, MARKER)];
  }

  /** The consumer receives the only item and starts a flush, for a full batch or for a tick. */
  lemma StartsFlushing(cfg: Config, t: Tables, s: State) returns (s': State)
    requires ValidConfig(cfg) && Reachable(cfg, t, s) && s.pc.Selecting?
    requires s.queue == Sent(Init(t).queue, ItemFor(cfg, LIMITED))
    ensures Reachable(cfg, t, s') && s'.pc in {Attempting(BatchFull, 1), Attempting(Tick, 1)}
    ensures s' == s.(queue := Taken(s.queue), pc := s'.pc)
    ensures |s'.queue.events| == 1 && s'.queue.rollups == RollupsOf(ItemFor(cfg, LIMITED))
  {
    LimitedIsStoredAndCounted(cfg);
    hide Reachable, ClientApply, ClientEnabled, ItemFor, NewMetricRollup;
    ReachStep(cfg, t, s, ByConsumer(ReceiveItem));
    s' := Apply(cfg, s, ByConsumer(ReceiveItem));
    if s'.pc.Selecting? {
      ReachStep(cfg, t, s', ByConsumer(TickerFires));
      s' := Apply(cfg, s', ByConsumer(TickerFires));
    }
  }

  /** The events go in, the Reset takes them out again, and the rollups follow. */
  lemma TearsFlush(cfg: Config, t: Tables, s: State, c: nat) returns (s': State)
    requires !cfg.atomic && s.queue.rollups != []
    requires Reachable(cfg, t, s) && s.pc in {Attempting(BatchFull, 1), Attempting(Tick, 1)}
    requires c in s.clients && s.clients[c] == Resetting(0, MARKER)
    ensures Reachable(cfg, t, s') && s'.pc.Selecting? && s'.stats == s.stats && s'.queue == Acknowledged(s.queue)
    ensures var marker := Tables([StoredForm(Prepared(MARKER, "", 1))], map[]);
      && s'.db.base == marker && s'.db.wiped == s.queue.acked
      && s'.db.tables == marker.(rollups := MergedInto(map[], s.queue.rollups, 1))
  {
    hide Reachable, InsertAll, MergedInto, Prepared, StoredForm, Rows;
    ReachStep(cfg, t, s, ByConsumer(AttemptSucceeds(1)));
    var s1 := Apply(cfg, s, ByConsumer(AttemptSucceeds(1)));
    var reset := DoReset("", 1, true);
    ReachStep(cfg, t, s1, ByClient(c, reset));
    var s2 := Apply(cfg, s1, ByClient(c, reset));
    ReachStep(cfg, t, s2, ByConsumer(HalfSucceeds(1)));
    s' := Apply(cfg, s2, ByConsumer(HalfSucceeds(1)));
  }

  /** Some suffix of what is flushed accounts for the tables, as if the Reset had come just before it. */
  ghost predicate Explained(s: State) {
    s.queue.acked <= |s.queue.sent| &&
    exists k: nat :: k <= s.queue.acked && s.db.tables == SyncRun(s.db.base, s.queue.sent[k..s.queue.acked])
  }

  /**
   Every flush has succeeded at the first attempt, and yet an event that was to be stored
   is not there although it is counted: no moment for the Reset explains the tables.
   */
  ghost predicate LostEvent(s: State) {
    && s.pc.Selecting? && s.stats.failedFlushes == 0 && s.stats.retryTotal == 0
    && s.queue.acked == |s.queue.sent| == 1 && Recordable(s.queue.sent)
    && s.queue.sent[0].decision.persist && !HasId(s.db.tables.events, s.queue.sent[0].event.id)
    && s.db.tables.rollups == UpsertAll(map[], AllRollups(s.queue.sent)) != map[]
    && !Explained(s)
  }

  /** Without an atomic repository a Reset can tear a flush, whatever the rest of the configuration. */
  lemma ResetMayTear(cfg: Config, t: Tables) returns (s: State)
    requires ValidConfig(cfg) && !cfg.atomic
    ensures Reachable(cfg, t, s) && LostEvent(s)
  {
    hide Reachable, ItemFor, Recordable, Prepared, StoredForm, MergedInto, NewMetricRollup, AllRollups, UpsertAll;
    LimitedIsStoredAndCounted(cfg);
    var r := ItemFor(cfg, LIMITED);
    var s1 := ResetterWaits(cfg, t, 2);
    var s2 := SendsItem(cfg, t, s1, 1, LIMITED);
    var s3 := StartsFlushing(cfg, t, s2);
    s := TearsFlush(cfg, t, s3, 2);
    assert s.queue.sent == [r];
    assert s.queue.acked == 1 by { TakenOne(s2.queue); }
    assert s.stats == Init(t).stats;
    OneIsRecordable(r);
    CountedAlone(Tables([], map[]), r, 1);
    MarkerIsNotLimited();
    hide Acknowledged, Taken, LostEvent, Explained;
    MarkerAndCount(s, r);
  }

  lemma TakenOne(q: Queue)
    requires q.chan != [] && q.taken == 0
    ensures Acknowledged(Taken(q)).acked == 1
  {
  }

  lemma MarkerIsNotLimited()
    ensures StoredForm(Prepared(MARKER, "", 1)).id == "marker" != "limited"
  {
    assert "marker"[0] == 'm' && "limited"[0] == 'l';
  }

  lemma OneIsRecordable(r: Recorded)
    requires WellRecorded(r)
    ensures Recordable([r]) && AllRollups([r]) == RollupsOf(r) && AllEvents([r]) == EventsOf(r)
  {
    hide WellRecorded, NewMetricRollup, KeyOf, MergeKey, AllRollups, AllEvents;
    NothingRecorded();
    AllOneMore([], r);
    assert [] + [r] == [r] && [] + RollupsOf(r) == RollupsOf(r) && [] + EventsOf(r) == EventsOf(r);
    assert NonConflating(AllRollups([r]));
  }

  lemma {:induction false} OneCount(r: MetricRollup)
    requires r.count > 0
    ensures UpsertAll(map[], [r]) == map[KeyOf(r) := r.count] != map[]
  {
    hide KeyOf;
    assert [r][..0] == [];
    assert KeyOf(r) in map[KeyOf(r) := r.count];
  }

  /** A marker in one table and the count of `r` in the other: no synchronous run, with or without `r`, leaves that. */
  lemma MarkerAndCount(s: State, r: Recorded)
    requires s.queue.sent == [r] && s.queue.acked == 1 && WellRecorded(r)
    requires r.decision.persist && r.decision.countMetric
    requires s.pc.Selecting? && s.stats.failedFlushes == 0 && s.stats.retryTotal == 0
    requires |s.db.base.events| == 1 && s.db.base.events[0].id != r.event.id && s.db.base.rollups == map[]
    requires s.db.tables == s.db.base.(rollups := UpsertAll(map[], RollupsOf(r)))
    ensures LostEvent(s)
  {
    OneIsRecordable(r);
    OneCount(NewMetricRollup(r.event));
    RunOfOne(s.db.base, r);
    hide Recordable, NewMetricRollup, UpsertAll, StoredRow, AllRollups, WellRecorded, SyncRun, InsertOne;
    assert [r][0..1] == [r] && [r][1..1] == [];
  }

  /** Recording one event that is stored adds its row, if its id is new. */
  lemma RunOfOne(t: Tables, r: Recorded)
    requires |t.events| == 1 && t.events[0].id != r.event.id && WellRecorded(r) && r.decision.persist
    ensures SyncRun(t, []) == t && |SyncRun(t, [r]).events| == 2
  {
    hide UpsertAll, NewMetricRollup;
    RowKeepsId(r.event);
    assert [r][..0] == [];
    assert SyncRun(t, [r]) == SyncApply(t, r);
  }

  lemma SyncedIsExplained(s: State)
    requires Synced(s)
    ensures Explained(s)
  {
    hide SyncRun;
  }

  /**
   In every run, whatever Resets it has, the tables between flushes are those of the
   synchronous recorder since the last Reset, exactly when the repository is atomic.
   Otherwise it may be that no moment for the Reset explains them, although no flush and
   no attempt has failed.
   */
  lemma {:induction false} SyncedExactlyIfAtomic(cfg: Config, t: Tables)
    requires ValidConfig(cfg)
    ensures cfg.atomic <==>
      forall s :: Reachable(cfg, t, s) && s.pc.Selecting? && Recordable(s.queue.sent) ==> Synced(s)
    ensures cfg.atomic <==>
      forall s :: Reachable(cfg, t, s) && s.pc.Selecting? && Recordable(s.queue.sent) ==> Explained(s)
    ensures !cfg.atomic ==> exists s :: Reachable(cfg, t, s) && LostEvent(s)
  {
    if cfg.atomic {
      forall s | Reachable(cfg, t, s) && Recordable(s.queue.sent) ensures Synced(s) && Explained(s) {
        hide Synced, Explained, Recordable;
        var states: seq<State>, steps: seq<Step> :| Run(cfg, t, states, steps) && states[|steps|] == s;
        AlwaysSynced(cfg, t, states, steps, |steps|);
        SyncedIsExplained(s);
      }
    } else {
      var s := ResetMayTear(cfg, t);
      if Synced(s) { SyncedIsExplained(s); }
      hide Reachable, Synced, Explained, Recordable;
    }
  }
}
