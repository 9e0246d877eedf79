/** What the tables hold in every reachable state of the asynchronous recorder. */
module ProtocolStore {
  import opened AuditEvent
  import opened Clock
  import opened Recording
  import opened Repository
  import opened Store
  import opened Protocol
  import opened ProtocolFifo

  /** An item that is counted and not stored. */
  function OnlyCounted(r: Recorded): Recorded {
    r.(decision := r.decision.(persist := false))
  }

  /** The items from `from` up to `to`, those of torn flushes only counted. */
  function Thinned(sent: seq<Recorded>, from: nat, to: nat, torn: set<nat>): (rs: seq<Recorded>)
    requires from <= to <= |sent|
    ensures |rs| == to - from
  {
    seq(to - from, i requires 0 <= i < to - from =>
      if from + i in torn then OnlyCounted(sent[from + i]) else sent[from + i])
  }

  lemma ThinnedNowhere(sent: seq<Recorded>, from: nat, to: nat, torn: set<nat>)
    requires from <= to <= |sent| && forall k :: from <= k < to ==> k !in torn
    ensures Thinned(sent, from, to, torn) == sent[from..to]
  {
  }

  lemma ThinnedAppends(sent: seq<Recorded>, from: nat, mid: nat, to: nat, torn: set<nat>)
    requires from <= mid <= to <= |sent|
    ensures Thinned(sent, from, to, torn) == Thinned(sent, from, mid, torn) + Thinned(sent, mid, to, torn)
  {
  }

  lemma ThinnedAlike(sent: seq<Recorded>, sent': seq<Recorded>, from: nat, to: nat, torn: set<nat>, torn': set<nat>)
    requires from <= to <= |sent| && sent <= sent' && forall k :: from <= k < to ==> (k in torn <==> k in torn')
    ensures Thinned(sent', from, to, torn') == Thinned(sent, from, to, torn)
  {
  }

  /** Items that are all thinned leave their counts and no event. */
  lemma {:induction false} ThinnedThroughout(sent: seq<Recorded>, from: nat, to: nat, torn: set<nat>)
    requires from <= to <= |sent| && forall k :: from <= k < to ==> k in torn
    ensures AllEvents(Thinned(sent, from, to, torn)) == []
    ensures AllRollups(Thinned(sent, from, to, torn)) == AllRollups(sent[from..to])
  {
    hide AllEvents, AllRollups, NewMetricRollup;
    NothingRecorded();
    if from == to {
      assert Thinned(sent, from, to, torn) == [] == sent[from..to];
    } else {
      var last := to - 1;
      ThinnedThroughout(sent, from, last, torn);
      assert Thinned(sent, from, to, torn) == Thinned(sent, from, last, torn) + [OnlyCounted(sent[last])];
      AllOneMore(Thinned(sent, from, last, torn), OnlyCounted(sent[last]));
      assert sent[from..to] == sent[from..last] + [sent[last]];
      AllOneMore(sent[from..last], sent[last]);
    }
  }

  lemma ThinnedIsWellRecorded(sent: seq<Recorded>, from: nat, to: nat, torn: set<nat>)
    requires from <= to <= |sent| && AllWellRecorded(sent)
    ensures AllWellRecorded(Thinned(sent, from, to, torn))
  {
    hide WellRecorded;
    forall i | 0 <= i < to - from ensures WellRecorded(Thinned(sent, from, to, torn)[i]) {
      OnlyCountedIsWellRecorded(sent[from + i]);
    }
  }

  lemma OnlyCountedIsWellRecorded(r: Recorded)
    ensures WellRecorded(OnlyCounted(r)) == WellRecorded(r)
  {
    hide Complete, NewMetricRollup, IsPrepared;
  }

  /** Thinning takes events away and no counts. */
  lemma {:induction false} ThinnedEvents(sent: seq<Recorded>, from: nat, to: nat, torn: set<nat>)
    requires from <= to <= |sent|
    ensures forall e :: e in AllEvents(Thinned(sent, from, to, torn)) ==> e in AllEvents(sent[from..to])
    ensures AllRollups(Thinned(sent, from, to, torn)) == AllRollups(sent[from..to])
  {
    hide AllEvents, AllRollups, NewMetricRollup;
    if from == to {
      assert Thinned(sent, from, to, torn) == [] == sent[from..to];
    } else {
      var last := to - 1;
      var r := if last in torn then OnlyCounted(sent[last]) else sent[last];
      ThinnedEvents(sent, from, last, torn);
      assert Thinned(sent, from, to, torn) == Thinned(sent, from, last, torn) + [r];
      AllOneMore(Thinned(sent, from, last, torn), r);
      assert sent[from..to] == sent[from..last] + [sent[last]];
      AllOneMore(sent[from..last], sent[last]);
    }
  }

  /** What has been flushed since the last Reset, as it should be in the tables. */
  function FlushedItems(q: Queue, db: Database): seq<Recorded>
    requires db.wiped <= q.acked <= |q.sent|
  {
    Thinned(q.sent, db.wiped, q.acked, db.torn)
  }

  /** The tables with exactly that added to the outcome of the Reset. */
  ghost function Flushed(q: Queue, db: Database): Tables
    requires db.wiped <= q.acked <= |q.sent|
  {
    Appended(db.base, Rows(AllEvents(FlushedItems(q, db))), AllRollups(FlushedItems(q, db)))
  }

  /** Torn items are flushed ones, since the last Reset. */
  predicate TornIsFlushed(q: Queue, db: Database) {
    forall k :: k in db.torn ==> db.wiped <= k < q.acked
  }

  /** The tables hold what is flushed, and the first `partial` of the buffered events. */
  ghost predicate StoreInv(atomic: bool, q: Queue, db: Database, pc: ConsumerPc) {
    && db.wiped <= q.acked <= q.taken <= |q.sent| && db.partial <= |q.events|
    && db.tables.rollups == Flushed(q, db).rollups
    && db.tables.events == InsertAll(Flushed(q, db).events, Rows(q.events[..db.partial]))
    && (atomic ==> db.torn == {} && db.partial == 0 && !pc.HalfDone?)
    && (pc.HalfDone? ==> db.partial == 0 || db.partial == |q.events|)
    && TornIsFlushed(q, db)
  }

  lemma SendKeepsStore(atomic: bool, q: Queue, db: Database, pc: ConsumerPc, r: Recorded)
    requires StoreInv(atomic, q, db, pc)
    ensures StoreInv(atomic, Sent(q, r), db, pc)
  {
    hide AllEvents, AllRollups, InsertAll, UpsertAll, Rows, Thinned, ItemOf;
    ThinnedAlike(q.sent, Sent(q, r).sent, db.wiped, q.acked, db.torn, db.torn);
  }

  lemma TakeKeepsStore(atomic: bool, q: Queue, db: Database, pc: ConsumerPc)
    requires StoreInv(atomic, q, db, pc) && !pc.HalfDone? && q.chan != [] && Fifo(q)
    ensures StoreInv(atomic, Taken(q), db, pc)
  {
    hide AllEvents, AllRollups, InsertAll, UpsertAll, Rows, Thinned, Fifo, ItemEvents, ItemRollups;
    TakesOne(q);
    var q' := Taken(q);
    assert Flushed(q', db) == Flushed(q, db);
    assert q'.events[..db.partial] == q.events[..db.partial];
  }

  lemma TakesOne(q: Queue)
    requires q.chan != [] && Fifo(q)
    ensures q.taken < |q.sent|
  {
    hide AllEvents, AllRollups;
  }

  /** Flushing the buffers extends what is flushed by exactly them. */
  lemma FlushedGrows(q: Queue, db: Database)
    requires Fifo(q) && db.wiped <= q.acked && TornIsFlushed(q, db)
    ensures Positive(q.rollups)
    ensures Flushed(Acknowledged(q), db) == Appended(Flushed(q, db), Rows(q.events), q.rollups)
  {
    ThinnedNowhere(q.sent, q.acked, q.taken, db.torn);
    hide AllEvents, AllRollups, InsertAll, UpsertAll, Thinned;
    var done, now := FlushedItems(q, db), q.sent[q.acked..q.taken];
    ThinnedAppends(q.sent, db.wiped, q.acked, q.taken, db.torn);
    AllAppend(done, now);
    RowsAppend(AllEvents(done), AllEvents(now));
    AppendingComposes(db.base, Rows(AllEvents(done)), AllRollups(done), Rows(AllEvents(now)), AllRollups(now));
  }

  /** If their events were removed it is extended by their counts alone. */
  lemma FlushedTorn(q: Queue, db: Database)
    requires Fifo(q) && db.wiped <= q.acked && TornIsFlushed(q, db)
    ensures Positive(q.rollups)
    ensures var db' := db.(torn := db.torn + InFlush(q));
      Flushed(Acknowledged(q), db') == Appended(Flushed(q, db), [], q.rollups)
  {
    hide AllEvents, AllRollups, InsertAll, UpsertAll, Thinned, Rows;
    var torn := db.torn + InFlush(q);
    ThinnedThroughout(q.sent, q.acked, q.taken, torn);
    ThinnedAlike(q.sent, q.sent, db.wiped, q.acked, db.torn, torn);
    hide InFlush, Between, TornIsFlushed;
    ThinnedAppends(q.sent, db.wiped, q.acked, q.taken, torn);
    var done, now := FlushedItems(q, db), Thinned(q.sent, q.acked, q.taken, torn);
    AllAppend(done, now);
    AppendingComposes(db.base, Rows(AllEvents(done)), AllRollups(done), [], AllRollups(now));
    NothingRecorded();
    assert AllEvents(done) + [] == AllEvents(done) && Rows(AllEvents(done)) + [] == Rows(AllEvents(done));
  }

  /** Inserting the buffered events over some of them already there. */
  lemma InsertBuffered(events: seq<Event>, buffered: seq<Event>, partial: nat)
    requires partial <= |buffered|
    ensures InsertAll(InsertAll(events, Rows(buffered[..partial])), Rows(buffered)) == InsertAll(events, Rows(buffered))
  {
    assert buffered == buffered[..partial] + buffered[partial..];
    RowsAppend(buffered[..partial], buffered[partial..]);
    InsertReplay(events, Rows(buffered[..partial]), Rows(buffered[partial..]));
  }

  lemma NoneInserted(events: seq<Event>, buffered: seq<Event>)
    ensures InsertAll(events, Rows(buffered[..0])) == events
    ensures InsertAll(events, Rows(buffered[..|buffered|])) == InsertAll(events, Rows(buffered))
  {
    assert Rows(buffered[..0]) == [];
    assert buffered[..|buffered|] == buffered;
  }

  lemma {:induction false} EventsInKeepsStore(q: Queue, db: Database, pc: ConsumerPc, pc': ConsumerPc)
    requires StoreInv(false, q, db, pc) && Fifo(q)
    ensures StoreInv(false, q, EventsIn(db, q), pc')
  {
    hide AllEvents, AllRollups, UpsertAll, Fifo, InsertAll, Rows, Thinned;
    assert Flushed(q, EventsIn(db, q)) == Flushed(q, db);
    InsertBuffered(Flushed(q, db).events, q.events, db.partial);
    NoneInserted(Flushed(q, db).events, q.events);
    hide Flushed;
  }

  /** The whole batch in one transaction. */
  lemma {:induction false} BatchInKeepsStore(atomic: bool, q: Queue, db: Database, pc: ConsumerPc, pc': ConsumerPc,
        now: Time)
    requires StoreInv(atomic, q, db, pc) && Fifo(q) && !pc'.HalfDone? && Mergeable(q.rollups)
    ensures var tables := Batched(db.tables, Rows(q.events), q.rollups, now);
      StoreInv(atomic, Acknowledged(q), db.(tables := tables, partial := 0), pc')
  {
    hide AllEvents, AllRollups, UpsertAll, Fifo, InsertAll, Mergeable, Batched, Rows, Thinned;
    BatchedIsAppended(db.tables, Rows(q.events), q.rollups, now);
    FlushedGrows(q, db);
    var q', db' := Acknowledged(q), db.(tables := Appended(db.tables, Rows(q.events), q.rollups), partial := 0);
    assert Flushed(q', db') == Flushed(q', db);
    InsertBuffered(Flushed(q, db).events, q.events, db.partial);
    NoneInserted(Flushed(q', db).events, []);
    assert q'.events[..0] == [];
    hide Flushed;
  }

  lemma RollupsInIsUpsert(q: Queue, db: Database, now: Time)
    requires Mergeable(q.rollups)
    ensures Positive(q.rollups)
    ensures RollupsIn(db, q, now).tables == db.tables.(rollups := UpsertAll(db.tables.rollups, q.rollups))
  {
    BatchedIsAppended(db.tables, [], q.rollups, now);
    hide MergedInto, UpsertAll, Mergeable;
  }

  lemma NothingAppended(events: seq<Event>)
    ensures Rows([]) == [] && InsertAll(events, []) == events && UpsertAll(map[], []) == map[]
  {
  }

  /** The rollups, with the events already in, or removed by a Reset and so torn off. */
  lemma {:induction false} RollupsInKeepsStore(q: Queue, db: Database, pc: ConsumerPc, pc': ConsumerPc, now: Time)
    requires StoreInv(false, q, db, pc) && pc.HalfDone? && Fifo(q) && !pc'.HalfDone? && Mergeable(q.rollups)
    ensures StoreInv(false, Acknowledged(q), RollupsIn(db, q, now), pc')
  {
    hide AllEvents, AllRollups, UpsertAll, Fifo, InsertAll, Mergeable, MergedInto, Rows, Thinned;
    RollupsInIsUpsert(q, db, now);
    var q', db' := Acknowledged(q), RollupsIn(db, q, now);
    NoneInserted(Flushed(q, db).events, q.events);
    NoneInserted(Flushed(q', db').events, []);
    NothingAppended(Flushed(q, db).events);
    assert q'.events[..0] == [];
    if db.partial == |q.events| {
      FlushedGrows(q, db);
      assert db'.torn == db.torn + {} == db.torn;
      assert Flushed(q', db') == Flushed(q', db);
    } else {
      FlushedTorn(q, db);
      assert Flushed(q', db') == Flushed(q', db.(torn := db.torn + InFlush(q)));
    }
    hide Flushed;
  }

  lemma ResetKeepsStore(atomic: bool, s: State, row: Event)
    requires StoreInv(atomic, s.queue, s.db, s.pc) && Fifo(s.queue)
    ensures StoreInv(atomic, s.queue, ResetTo(s.queue, row), s.pc)
  {
    hide AllEvents, AllRollups, Rows, InsertAll, UpsertAll;
    NothingRecorded();
    NothingAppended([row]);
    NoneInserted([row], s.queue.events);
    var q, db := s.queue, ResetTo(s.queue, row);
    assert FlushedItems(q, db) == [];
    assert Flushed(q, db) == db.tables;
  }

  lemma BufferedIsMergeable(q: Queue)
    requires Fifo(q) && Recordable(q.sent)
    ensures Mergeable(q.rollups)
  {
    hide WellRecorded, NonConflating, AllRollups, AllEvents, Complete;
    PartIsRecordable(q.sent, q.acked, q.taken);
    BatchIsComplete(q.sent[q.acked..q.taken]);
  }

  lemma ClientKeepsStore(cfg: Config, s: State, t: nat, a: ClientAction)
    requires StoreInv(cfg.atomic, s.queue, s.db, s.pc) && Fifo(s.queue) && ClientEnabled(cfg, s, t, a)
    ensures var s' := ClientApply(cfg, s, t, a); StoreInv(cfg.atomic, s'.queue, s'.db, s'.pc)
  {
    hide StoreInv, Fifo;
    if a.TrySend? || a.WaitSend? { SendKeepsStore(cfg.atomic, s.queue, s.db, s.pc, s.clients[t].item); }
    if a.DoReset? { ResetKeepsStore(cfg.atomic, s, StoredForm(Prepared(s.clients[t].event, a.random, a.now))); }
  }

  /** Moving on without touching buffers or tables. */
  lemma PcKeepsStore(atomic: bool, q: Queue, db: Database, pc: ConsumerPc, pc': ConsumerPc)
    requires StoreInv(atomic, q, db, pc) && !pc'.HalfDone?
    ensures StoreInv(atomic, q, db, pc')
  {
  }

  lemma FlushStepKeepsStore(cfg: Config, s: State, a: ConsumerAction)
    requires StoreInv(cfg.atomic, s.queue, s.db, s.pc) && Fifo(s.queue) && ConsumerEnabled(cfg, s, a)
    requires Recordable(s.queue.sent)
    requires a.AttemptSucceeds? || a.HalfSucceeds?
    ensures var s' := ConsumerApply(cfg, s, a); StoreInv(cfg.atomic, s'.queue, s'.db, s'.pc)
  {
    hide StoreInv, Fifo, Recordable, Mergeable, Batched, EventsIn, RollupsIn;
    var pc' := ConsumerApply(cfg, s, a).pc;
    BufferedIsMergeable(s.queue);
    if a.HalfSucceeds? {
      HalfMeansNotAtomic(cfg.atomic, s.queue, s.db, s.pc);
      RollupsInKeepsStore(s.queue, s.db, s.pc, pc', a.now);
    } else if OneTransaction(cfg, s.queue) {
      BatchInKeepsStore(cfg.atomic, s.queue, s.db, s.pc, pc', a.now);
    } else {
      EventsInKeepsStore(s.queue, s.db, s.pc, pc');
    }
  }

  lemma ConsumerKeepsStore(cfg: Config, s: State, a: ConsumerAction)
    requires StoreInv(cfg.atomic, s.queue, s.db, s.pc) && Fifo(s.queue) && ConsumerEnabled(cfg, s, a)
    requires Recordable(s.queue.sent)
    ensures var s' := ConsumerApply(cfg, s, a); StoreInv(cfg.atomic, s'.queue, s'.db, s'.pc)
  {
    hide StoreInv, Fifo, Recordable, Batched, EventsIn, RollupsIn;
    if a.AttemptSucceeds? || a.HalfSucceeds? {
      FlushStepKeepsStore(cfg, s, a);
    } else {
      var s' := ConsumerApply(cfg, s, a);
      if a.ReceiveItem? || a.DrainItem? { TakeKeepsStore(cfg.atomic, s.queue, s.db, s.pc); }
      PcKeepsStore(cfg.atomic, s'.queue, s.db, s.pc, s'.pc);
    }
  }

  lemma HalfMeansNotAtomic(atomic: bool, q: Queue, db: Database, pc: ConsumerPc)
    requires StoreInv(atomic, q, db, pc) && pc.HalfDone?
    ensures !atomic
  {
  }
}
