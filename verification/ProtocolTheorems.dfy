/** What holds in every run of the asynchronous recorder. */
module ProtocolTheorems {
  import opened AuditEvent
  import opened Recording
  import opened Repository
  import opened Store
  import opened Protocol
  import opened ProtocolFifo
  import opened ProtocolStore
  import opened ProtocolControl

  // ----- Every reachable state -----

  ghost predicate Control(cfg: Config, s: State) {
    && FifoInv(s) && PcInv(cfg, s.queue, s.pc, s.gate.drained, s.stats.failedFlushes)
    && ReplyInv(s) && GateInv(s) && StatsInv(s)
  }

  lemma {:induction false} StepKeepsControl(cfg: Config, s: State, step: Step)
    requires ValidConfig(cfg) && Control(cfg, s) && Enabled(cfg, s, step)
    ensures Control(cfg, Apply(cfg, s, step))
  {
    hide FifoInv, PcInv, ReplyInv, GateInv, StatsInv, ClientApply, ConsumerApply, ClientEnabled, ConsumerEnabled;
    match step
    case ByClient(t, a) =>
      ClientKeepsFifo(cfg, s, t, a);
      ClientKeepsPc(cfg, s, t, a);
      ClientKeepsReplies(cfg, s, t, a);
      ClientKeepsGate(cfg, s, t, a);
      ClientKeepsStats(cfg, s, t, a);
    case ByConsumer(a) =>
      ConsumerKeepsFifo(cfg, s, a);
      ConsumerKeepsPc(cfg, s, a);
      ConsumerKeepsReplies(cfg, s, a);
      ConsumerKeepsGate(cfg, s, a);
      ConsumerKeepsStats(cfg, s, a);
  }

  lemma InitControl(cfg: Config, t: Tables)
    requires ValidConfig(cfg)
    ensures Control(cfg, Init(t)) && StoreInv(cfg.atomic, Init(t).queue, Init(t).db, Init(t).pc)
  {
    assert Uncounted(map[]) == {};
    assert Rows([]) == [];
  }

  lemma {:induction false} ControlAlways(cfg: Config, t: Tables, states: seq<State>, steps: seq<Step>, i: nat)
    requires ValidConfig(cfg) && Run(cfg, t, states, steps) && i < |states|
    ensures Control(cfg, states[i])
  {
    hide Control, Enabled, Apply;
    if i == 0 {
      InitControl(cfg, t);
    } else {
      ControlAlways(cfg, t, states, steps, i - 1);
      assert Enabled(cfg, states[i - 1], steps[i - 1]) && states[i] == Apply(cfg, states[i - 1], steps[i - 1]);
      StepKeepsControl(cfg, states[i - 1], steps[i - 1]);
    }
  }

  /** Items sent stay sent, flushed items stay flushed, a Reset only moves forward, and results stand. */
  ghost predicate Later(s: State, s': State) {
    && s.queue.sent <= s'.queue.sent && s.queue.acked <= s'.queue.acked && s.db.wiped <= s'.db.wiped
    && (s.gate.closed ==> s'.gate.closed)
    && (forall t :: t in s.clients && Returned(s.clients[t]) ==> t in s'.clients && s'.clients[t] == s.clients[t])
  }

  lemma StepIsLater(cfg: Config, s: State, step: Step)
    requires Control(cfg, s) && Enabled(cfg, s, step)
    ensures Later(s, Apply(cfg, s, step))
  {
    hide ClientApply, ClientEnabled, ConsumerApply, ConsumerEnabled;
    match step
    case ByClient(t, a) => ClientIsLater(cfg, s, t, a);
    case ByConsumer(a) =>
      ConsumerProgress(cfg, s, a);
      ConsumerTouches(cfg, s, a);
  }

  lemma ClientIsLater(cfg: Config, s: State, t: nat, a: ClientAction)
    requires s.db.wiped <= s.queue.acked && ClientEnabled(cfg, s, t, a)
    ensures Later(s, ClientApply(cfg, s, t, a))
  {
    ClientTouches(cfg, s, t, a);
    ClientDatabase(cfg, s, t, a);
    hide ClientApply, ClientEnabled, Sends, Prepared;
  }

  lemma {:induction false} AlwaysLater(cfg: Config, t: Tables, states: seq<State>, steps: seq<Step>, i: nat, j: nat)
    requires ValidConfig(cfg) && Run(cfg, t, states, steps) && i <= j < |states|
    ensures Later(states[i], states[j])
  {
    hide Control, Enabled, Apply;
    if i < j {
      AlwaysLater(cfg, t, states, steps, i, j - 1);
      ControlAlways(cfg, t, states, steps, j - 1);
      assert Enabled(cfg, states[j - 1], steps[j - 1]) && states[j] == Apply(cfg, states[j - 1], steps[j - 1]);
      StepIsLater(cfg, states[j - 1], steps[j - 1]);
    }
  }

  /** Of recordable items, what the tables hold is always what has been flushed, give or take half a flush. */
  lemma {:induction false} StoreAlways(cfg: Config, t: Tables, states: seq<State>, steps: seq<Step>, i: nat)
    requires ValidConfig(cfg) && Run(cfg, t, states, steps) && i < |states|
    requires Recordable(states[i].queue.sent)
    ensures StoreInv(cfg.atomic, states[i].queue, states[i].db, states[i].pc)
  {
    hide StoreInv, Recordable, Control, Enabled, Apply;
    if i == 0 {
      InitControl(cfg, t);
    } else {
      var s, step := states[i - 1], steps[i - 1];
      assert Enabled(cfg, s, step) && states[i] == Apply(cfg, s, step);
      ControlAlways(cfg, t, states, steps, i - 1);
      AlwaysLater(cfg, t, states, steps, i - 1, i);
      EarlierIsRecordable(s.queue.sent, states[i].queue.sent);
      StoreAlways(cfg, t, states, steps, i - 1);
      StepKeepsStore(cfg, s, step);
    }
  }

  lemma StepKeepsStore(cfg: Config, s: State, step: Step)
    requires Control(cfg, s) && StoreInv(cfg.atomic, s.queue, s.db, s.pc) && Recordable(s.queue.sent)
    requires Enabled(cfg, s, step)
    ensures var s' := Apply(cfg, s, step); StoreInv(cfg.atomic, s'.queue, s'.db, s'.pc)
  {
    assert Fifo(s.queue);
    hide StoreInv, Control, Recordable, ClientApply, ConsumerApply, ClientEnabled, ConsumerEnabled, Fifo;
    match step
    case ByClient(u, a) => ClientKeepsStore(cfg, s, u, a);
    case ByConsumer(a) => ConsumerKeepsStore(cfg, s, a);
  }

  // ----- Conservation -----

  lemma {:induction false} ChannelCarries(rs: seq<Recorded>)
    requires forall i :: 0 <= i < |rs| ==> Sendable(rs[i])
    ensures ChannelEvents(Items(rs)) == AllEvents(rs) && ChannelRollups(Items(rs)) == AllRollups(rs)
  {
    hide ItemEvents, ItemRollups, ItemOf, EventsOf, RollupsOf;
    if rs != [] {
      var n := |rs| - 1;
      ChannelCarries(rs[..n]);
      IdTestIsPersist(rs[n]);
      assert Items(rs)[..n] == Items(rs[..n]);
    } else {
      assert Items(rs) == [];
    }
  }

  lemma ThreeParts(a: seq<Recorded>, b: seq<Recorded>, c: seq<Recorded>)
    ensures AllEvents(a + b + c) == AllEvents(a) + AllEvents(b) + AllEvents(c)
    ensures AllRollups(a + b + c) == AllRollups(a) + AllRollups(b) + AllRollups(c)
  {
    hide AllEvents, AllRollups;
    AllAppend(a + b, c);
    AllAppend(a, b);
  }

  lemma QueueCarries(q: Queue)
    requires Fifo(q) && AllSendable(q)
    ensures AllEvents(q.sent) == q.flushedEvents + q.events + ChannelEvents(q.chan)
    ensures AllRollups(q.sent) == q.flushedRollups + q.rollups + ChannelRollups(q.chan)
  {
    hide AllEvents, AllRollups, ChannelEvents, ChannelRollups, Items, Sendable;
    var done, held, rest := q.sent[..q.acked], q.sent[q.acked..q.taken], q.sent[q.taken..];
    ChannelCarries(rest);
    ThreeParts(done, held, rest);
    assert done + held == q.sent[..q.taken];
    assert q.sent[..q.taken] + rest == q.sent;
  }

  /**
   In every reachable state, what was sent is what was flushed, then what is buffered,
   then what is in the channel, in that order; and every Record call that reached the
   channel is either among the sent, dropped, or about to be counted.
   */
  lemma {:induction false} Conservation(cfg: Config, t: Tables, states: seq<State>, steps: seq<Step>, i: nat)
    requires ValidConfig(cfg) && Run(cfg, t, states, steps) && i < |states|
    ensures var (q, stats) := (states[i].queue, states[i].stats);
      && AllEvents(q.sent) == q.flushedEvents + q.events + ChannelEvents(q.chan)
      && AllRollups(q.sent) == q.flushedRollups + q.rollups + ChannelRollups(q.chan)
      && |q.sent| + stats.droppedTotal == stats.enqueueTotal + stats.enqueueErrorTotal + |Uncounted(states[i].clients)|
  {
    hide Run, Fifo, AllSendable, PcInv, ReplyInv, GateInv, ClientsReady;
    hide AllEvents, AllRollups, ChannelEvents, ChannelRollups, Uncounted;
    ControlAlways(cfg, t, states, steps, i);
    QueueCarries(states[i].queue);
  }

  // ----- The synchronous recorder is the specification -----

  predicate CommitsReset(step: Step) {
    step.ByClient? && step.action.DoReset? && step.action.commits
  }

  predicate NoReset(steps: seq<Step>, i: nat)
    requires i <= |steps|
  {
    forall k :: 0 <= k < i ==> !CommitsReset(steps[k])
  }

  /** The second half of a flush succeeds although a Reset has removed the events of the first. */
  predicate Tears(s: State, step: Step) {
    step.ByConsumer? && step.act.HalfSucceeds? && s.pc.HalfDone? && s.db.partial < |s.queue.events|
  }

  lemma TornStep(cfg: Config, s: State, step: Step)
    requires Enabled(cfg, s, step)
    ensures Apply(cfg, s, step).db.torn
      == if CommitsReset(step) then {} else s.db.torn + if Tears(s, step) then InFlush(s.queue) else {}
    ensures !CommitsReset(step) ==> var db := Apply(cfg, s, step).db; db.base == s.db.base && db.wiped == s.db.wiped
  {
    hide Prepared, StoredForm, InFlush;
    match step
    case ByClient(t, a) =>
      ClientDatabase(cfg, s, t, a);
      hide ClientApply, ClientEnabled;
    case ByConsumer(a) =>
      ConsumerTouches(cfg, s, a);
      ConsumerTears(cfg, s, a);
      hide ConsumerApply, ConsumerEnabled;
  }

  lemma ConsumerTears(cfg: Config, s: State, a: ConsumerAction)
    requires ConsumerEnabled(cfg, s, a)
    ensures ConsumerApply(cfg, s, a).db.torn
      == s.db.torn + if a.HalfSucceeds? && s.db.partial < |s.queue.events| then InFlush(s.queue) else {}
    ensures a.HalfSucceeds? ==> s.pc.HalfDone?
  {
    hide Taken, Batched, InsertAll, MergedInto, Rows, ReplyHasRoom, InFlush;
  }

  /** At step `m` of the run a flush with item `k` was torn, and up to `i` no Reset has come since. */
  predicate TornAt(states: seq<State>, steps: seq<Step>, i: nat, k: nat, m: nat)
    requires m < i <= |steps| && |states| == |steps| + 1
  {
    Tears(states[m], steps[m]) && k in InFlush(states[m].queue) && forall n :: m < n < i ==> !CommitsReset(steps[n])
  }

  /** The torn items are exactly those of half-done flushes that succeeded over a Reset with no Reset since. */
  lemma {:induction false} TornExactly(cfg: Config, t: Tables, states: seq<State>, steps: seq<Step>, i: nat, k: nat)
    requires Run(cfg, t, states, steps) && i < |states|
    ensures k in states[i].db.torn <==> exists m :: 0 <= m < i && TornAt(states, steps, i, k, m)
  {
    hide Enabled, Apply, TornAt;
    if i > 0 {
      var n := i - 1;
      TornExactly(cfg, t, states, steps, n, k);
      assert Enabled(cfg, states[n], steps[n]) && states[i] == Apply(cfg, states[n], steps[n]);
      TornStep(cfg, states[n], steps[n]);
      assert CommitsReset(steps[n]) ==> !Tears(states[n], steps[n]) by { hide *; ResetIsNoTear(states[n], steps[n]); }
      hide Tears, CommitsReset, Run;
      TornAtLater(states, steps, i, k, n);
      if m :| 0 <= m < n && TornAt(states, steps, n, k, m) { TornAtLater(states, steps, i, k, m); }
      if m :| 0 <= m < n && TornAt(states, steps, i, k, m) { TornAtLater(states, steps, i, k, m); }
    }
  }

  lemma TornAtLater(states: seq<State>, steps: seq<Step>, i: nat, k: nat, m: nat)
    requires m < i <= |steps| && |states| == |steps| + 1
    ensures TornAt(states, steps, i, k, m) <==>
      if m < i - 1 then TornAt(states, steps, i - 1, k, m) && !CommitsReset(steps[i - 1])
      else Tears(states[m], steps[m]) && k in InFlush(states[m].queue)
  {
    hide Tears, CommitsReset, InFlush;
  }

  /** A torn flush had events to lose and rollups to keep, and the repository is not atomic. */
  lemma {:induction false} TornFlushHadBoth(cfg: Config, t: Tables, states: seq<State>, steps: seq<Step>, k: nat)
    requires ValidConfig(cfg) && Run(cfg, t, states, steps) && k < |steps| && Tears(states[k], steps[k])
    requires Recordable(states[k].queue.sent)
    ensures states[k].queue.events != [] && states[k].queue.rollups != [] && !cfg.atomic
  {
    ControlAlways(cfg, t, states, steps, k);
    StoreAlways(cfg, t, states, steps, k);
    HalfMeansNotAtomic(cfg.atomic, states[k].queue, states[k].db, states[k].pc);
    hide Run, FifoInv, ReplyInv, GateInv, StatsInv, StoreInv, Recordable;
  }

  lemma ResetIsNoTear(s: State, step: Step)
    ensures CommitsReset(step) ==> !Tears(s, step)
  {
  }

  /** Once the events are in, they stay in until the rollups follow, unless a Reset comes between. */
  predicate WholeHalf(s: State) {
    s.pc.HalfDone? ==> s.db.partial == |s.queue.events|
  }

  lemma WholeHalfStep(cfg: Config, s: State, step: Step)
    requires Enabled(cfg, s, step) && WholeHalf(s) && !CommitsReset(step)
    ensures WholeHalf(Apply(cfg, s, step)) && !Tears(s, step)
  {
    match step
    case ByClient(t, a) =>
      ClientDatabase(cfg, s, t, a);
      ClientTouches(cfg, s, t, a);
      hide ClientApply, ClientEnabled, Prepared, StoredForm;
    case ByConsumer(a) =>
      hide Taken, Batched, InsertAll, MergedInto, Rows, ReplyHasRoom;
  }

  lemma {:induction false} WithoutReset(cfg: Config, t: Tables, states: seq<State>, steps: seq<Step>, i: nat)
    requires Run(cfg, t, states, steps) && i < |states| && NoReset(steps, i)
    ensures states[i].db.base == t && states[i].db.wiped == 0 && states[i].db.torn == {} && WholeHalf(states[i])
  {
    hide Enabled, Apply, Tears;
    if i > 0 {
      var n := i - 1;
      WithoutReset(cfg, t, states, steps, n);
      assert Enabled(cfg, states[n], steps[n]) && states[i] == Apply(cfg, states[n], steps[n]);
      TornStep(cfg, states[n], steps[n]);
      WholeHalfStep(cfg, states[n], steps[n]);
      hide WholeHalf;
    }
  }

  /**
   The tables are the synchronous run, from the outcome of the last Reset, of the items
   flushed since, those of torn flushes only counted.
   */
  ghost predicate Accounted(s: State) {
    s.db.wiped <= s.queue.acked <= |s.queue.sent| && s.db.tables == SyncRun(s.db.base, FlushedItems(s.queue, s.db))
  }

  /** With no flush torn: of the items flushed since, as they are. */
  ghost predicate Synced(s: State) {
    && s.db.wiped <= s.queue.acked <= |s.queue.sent|
    && s.db.tables == SyncRun(s.db.base, s.queue.sent[s.db.wiped..s.queue.acked])
  }

  lemma FlushedIsSyncRun(atomic: bool, s: State)
    requires StoreInv(atomic, s.queue, s.db, s.pc) && s.db.partial == 0
    ensures Accounted(s) && (s.db.torn == {} ==> Synced(s))
  {
    hide InsertAll, UpsertAll, AllEvents, AllRollups, SyncRun, Rows, Thinned;
    SyncRunIsBatch(s.db.base, FlushedItems(s.queue, s.db));
    NoneInserted(Flushed(s.queue, s.db).events, s.queue.events);
    if s.db.torn == {} { ThinnedNowhere(s.queue.sent, s.db.wiped, s.queue.acked, s.db.torn); }
  }

  /**
   At every moment of every run, Resets included and with either kind of repository, the
   tables are those the synchronous recorder makes of the items flushed since the last
   Reset, unless a flush has stored its events only: the items of flushes torn since
   then are counted and not stored. An atomic repository has neither.
   */
  lemma {:induction false} AlwaysSynced(cfg: Config, t: Tables, states: seq<State>, steps: seq<Step>, i: nat)
    requires ValidConfig(cfg) && Run(cfg, t, states, steps) && i < |states| && Recordable(states[i].queue.sent)
    ensures cfg.atomic ==> Synced(states[i]) && states[i].db.torn == {} && states[i].db.partial == 0
    ensures states[i].db.partial == 0 ==> Accounted(states[i])
    ensures states[i].db.partial == 0 && states[i].db.torn == {} ==> Synced(states[i])
    ensures NoReset(steps, i) ==> states[i].db.torn == {} && states[i].db.base == t && states[i].db.wiped == 0
  {
    hide SyncRun, Recordable, NoReset, Accounted, Synced, WholeHalf;
    var s := states[i];
    StoreAlways(cfg, t, states, steps, i);
    RunLength(cfg, t, states, steps);
    if NoReset(steps, i) { WithoutReset(cfg, t, states, steps, i); }
    hide Run, Flushed;
    if s.db.partial == 0 { FlushedIsSyncRun(cfg.atomic, s); }
  }

  lemma RunLength(cfg: Config, t: Tables, states: seq<State>, steps: seq<Step>)
    requires Run(cfg, t, states, steps)
    ensures |states| == |steps| + 1
  {
  }

  lemma AccountedInFull(s: State)
    requires Accounted(s) && s.queue.acked == |s.queue.sent|
    ensures s.db.wiped <= |s.queue.sent|
    ensures s.db.tables == SyncRun(s.db.base, Thinned(s.queue.sent, s.db.wiped, |s.queue.sent|, s.db.torn))
    ensures s.db.torn == {} ==> s.db.tables == SyncRun(s.db.base, s.queue.sent[s.db.wiped..])
  {
    if s.db.torn == {} { ThinnedNowhere(s.queue.sent, s.db.wiped, |s.queue.sent|, s.db.torn); }
    hide SyncRun, Thinned;
    assert s.queue.sent[s.db.wiped..] == s.queue.sent[s.db.wiped..|s.queue.sent|];
  }

  /** When the consumer has exited with success, everything it received, up to its final drain, is flushed. */
  lemma SuccessfulExit(cfg: Config, s: State)
    requires Control(cfg, s) && StoreInv(cfg.atomic, s.queue, s.db, s.pc) && s.pc == Exited(true)
    ensures s.db.wiped <= s.queue.acked == s.queue.taken == s.gate.drained <= |s.queue.sent| && s.db.partial == 0
    ensures s.queue.chan == [] ==> s.queue.taken == |s.queue.sent|
  {
    assert |s.queue.chan| == |s.queue.sent| - s.queue.taken;
    hide ReplyInv, GateInv, StatsInv, AllSendable, Flushed, AllEvents, AllRollups;
  }

  /**
   Whatever the interleaving, the batches, the ticks, the failed attempts and the
   retries, with either kind of repository: when everything received has been flushed
   the tables are exactly those the synchronous recorder makes, from the outcome of the
   last Reset, of the items sent since, in send order. Only flushes torn since that Reset
   leave their items counted and not stored, which takes a repository that is not atomic.
   */
  lemma {:induction false} AsyncRefinesSync(cfg: Config, t: Tables, states: seq<State>, steps: seq<Step>)
    requires ValidConfig(cfg) && Run(cfg, t, states, steps)
    requires var s := states[|steps|]; Recordable(s.queue.sent) && s.pc == Exited(true) && s.queue.chan == []
    ensures var s := states[|steps|]; s.db.wiped <= |s.queue.sent|
    ensures var (q, db) := (states[|steps|].queue, states[|steps|].db);
      && db.tables == SyncRun(db.base, Thinned(q.sent, db.wiped, |q.sent|, db.torn))
      && (cfg.atomic || db.torn == {} ==> db.tables == SyncRun(db.base, q.sent[db.wiped..]))
    ensures NoReset(steps, |steps|) ==> states[|steps|].db.tables == SyncRun(t, states[|steps|].queue.sent)
  {
    hide Run, SyncRun, Recordable, NoReset, Control, StoreInv, Synced, Accounted, Thinned;
    RunLength(cfg, t, states, steps);
    var s := states[|steps|];
    ControlAlways(cfg, t, states, steps, |steps|);
    StoreAlways(cfg, t, states, steps, |steps|);
    AlwaysSynced(cfg, t, states, steps, |steps|);
    SuccessfulExit(cfg, s);
    AccountedInFull(s);
    assert s.queue.sent[0..] == s.queue.sent;
  }

  /** The tables hold the events of these items that were to be stored, and their counts on top of those in `t`. */
  ghost predicate Stores(tables: Tables, t: Tables, rs: seq<Recorded>) {
    && (forall k :: 0 <= k < |rs| && rs[k].decision.persist ==> HasId(tables.events, rs[k].event.id))
    && (forall key :: Get(tables.rollups, key) >= Get(t.rollups, key) + SumFor(AllRollups(rs), key))
  }

  lemma PersistedIsListed(rs: seq<Recorded>, k: nat)
    requires k < |rs| && rs[k].decision.persist
    ensures rs[k].event in AllEvents(rs)
  {
    assert rs == rs[..k] + ([rs[k]] + rs[k + 1..]);
    AllAppend(rs[..k], [rs[k]] + rs[k + 1..]);
    AllAppend([rs[k]], rs[k + 1..]);
    AllOneMore([], rs[k]);
    assert [] + [rs[k]] == [rs[k]];
  }

  lemma BatchStores(t: Tables, rs: seq<Recorded>)
    requires AllWellRecorded(rs)
    ensures Stores(Appended(t, Rows(AllEvents(rs)), AllRollups(rs)), t, rs)
  {
    var rows := Rows(AllEvents(rs));
    InsertKeeps(t.events, rows);
    forall k | 0 <= k < |rs| && rs[k].decision.persist ensures HasId(InsertAll(t.events, rows), rs[k].event.id) {
      PersistedIsListed(rs, k);
      var j :| 0 <= j < |AllEvents(rs)| && AllEvents(rs)[j] == rs[k].event;
      assert rows[j] == StoredRow(rs[k].event);
      RowKeepsId(rs[k].event);
    }
    forall key
      ensures Get(UpsertAll(t.rollups, AllRollups(rs)), key) >= Get(t.rollups, key) + SumFor(AllRollups(rs), key) {
      UpsertIsSum(t.rollups, AllRollups(rs), key);
    }
  }

  lemma {:induction false} SumForAppend(a: seq<MetricRollup>, b: seq<MetricRollup>, key: RollupKey)
    requires Positive(a) && Positive(b)
    ensures Positive(a + b) && SumFor(a + b, key) == SumFor(a, key) + SumFor(b, key)
  {
    hide KeyOf;
    if b == [] {
      assert a + b == a;
    } else {
      SumForAppend(a, b[..|b| - 1], key);
      assert (a + b)[..|a + b| - 1] == a + b[..|b| - 1];
    }
  }

  /** Tables that store a run store its beginning. */
  lemma StoresPrefix(tables: Tables, t: Tables, rs: seq<Recorded>, n: nat)
    requires n <= |rs| && Stores(tables, t, rs)
    ensures Stores(tables, t, rs[..n])
  {
    assert rs == rs[..n] + rs[n..];
    AllAppend(rs[..n], rs[n..]);
    forall key ensures SumFor(AllRollups(rs), key) >= SumFor(AllRollups(rs[..n]), key) {
      SumForAppend(AllRollups(rs[..n]), AllRollups(rs[n..]), key);
    }
    hide AllRollups, SumFor, HasId;
  }

  /** Events of a half-done flush only add to what is stored. */
  lemma StoresMore(tables: Tables, tables': Tables, t: Tables, rs: seq<Recorded>)
    requires Stores(tables, t, rs) && tables.events <= tables'.events && tables'.rollups == tables.rollups
    ensures Stores(tables', t, rs)
  {
    hide AllRollups, SumFor;
    forall k | 0 <= k < |rs| && rs[k].decision.persist ensures HasId(tables'.events, rs[k].event.id) {
      var i :| 0 <= i < |tables.events| && tables.events[i].id == rs[k].event.id;
      assert tables'.events[i] == tables.events[i];
    }
  }

  /** What the invariants say about one caller. */
  lemma CallerKnown(cfg: Config, s: State, caller: nat)
    requires Control(cfg, s) && caller in s.clients
    ensures CallerOk(s.queue, s.db, s.gate.replies, caller, s.clients[caller]) && Fifo(s.queue)
  {
    hide PcInv, GateInv, StatsInv, Fifo, CallerOk;
  }

  lemma FlushedIsStored(atomic: bool, q: Queue, db: Database, pc: ConsumerPc, n: nat)
    requires StoreInv(atomic, q, db, pc) && db.wiped <= n <= q.acked && Recordable(q.sent)
    ensures Stores(db.tables, db.base, Thinned(q.sent, db.wiped, n, db.torn))
  {
    hide Rows, InsertAll, UpsertAll, Stores, AllEvents, AllRollups, WellRecorded, NonConflating;
    var done := FlushedItems(q, db);
    ThinnedIsWellRecorded(q.sent, db.wiped, q.acked, db.torn);
    BatchStores(db.base, done);
    InsertKeeps(Flushed(q, db).events, Rows(q.events[..db.partial]));
    assert Flushed(q, db) == Appended(db.base, Rows(AllEvents(done)), AllRollups(done));
    hide AllWellRecorded, StoreInv, Flushed;
    StoresMore(Flushed(q, db), db.tables, db.base, done);
    StoresPrefix(db.tables, db.base, done, n - db.wiped);
    assert done[..n - db.wiped] == Thinned(q.sent, db.wiped, n, db.torn);
  }

  /**
   Flush is a barrier: once it has returned nil, everything sent before it was called is
   in the tables, then and ever after, on top of the outcome of the last Reset: all of it
   without a Reset, and what followed one that came before the Flush was called. Of items
   whose flush was torn, by a Reset before the call, the counts are.
   */
  lemma {:induction false} FlushIsBarrier(cfg: Config, t: Tables, states: seq<State>, steps: seq<Step>, i: nat,
        j: nat, caller: nat)
    requires ValidConfig(cfg) && Run(cfg, t, states, steps) && i <= j < |states|
    requires caller in states[i].clients && states[i].clients[caller].FlushReturned? && states[i].clients[caller].ok
    requires Recordable(states[j].queue.sent)
    ensures var (n, sent, db) := (states[i].clients[caller].before, states[i].queue.sent, states[j].db);
      && n <= |sent| && (NoReset(steps, j) ==> db.torn == {} && db.wiped == 0 && db.base == t)
      && (db.wiped <= n ==> Stores(db.tables, db.base, Thinned(sent, db.wiped, n, db.torn)))
      && (db.wiped <= n && db.torn == {} ==> Stores(db.tables, db.base, sent[db.wiped..n]))
  {
    hide Run, Control, Stores, StoreInv, Recordable, NoReset, Fifo, WholeHalf, Thinned;
    var n, sent, s := states[i].clients[caller].before, states[i].queue.sent, states[j];
    ControlAlways(cfg, t, states, steps, i);
    CallerKnown(cfg, states[i], caller);
    AlwaysLater(cfg, t, states, steps, i, j);
    StoreAlways(cfg, t, states, steps, j);
    RunLength(cfg, t, states, steps);
    if NoReset(steps, j) { WithoutReset(cfg, t, states, steps, j); }
    if s.db.wiped <= n {
      FlushedIsStored(cfg.atomic, s.queue, s.db, s.pc, n);
      ThinnedAlike(sent, s.queue.sent, s.db.wiped, n, s.db.torn, s.db.torn);
      if s.db.torn == {} { ThinnedNowhere(sent, s.db.wiped, n, s.db.torn); }
    }
  }

  /** A caller of Flush or Reset, and how many items had been sent when it called. */
  predicate CalledAfter(s: State, t: nat, n: nat) {
    t in s.clients &&
    match s.clients[t]
    case FlushCalled(before, _) => before == n
    case FlushOffered(before, _) => before == n
    case FlushAwaiting(before, _) => before == n
    case FlushReturned(before, _) => before == n
    case Resetting(before, _) => before == n
    case ResetReturned(before, _) => before == n
    case _ => false
  }

  lemma CalledAfterStep(cfg: Config, s: State, t: nat, n: nat, step: Step)
    requires CalledAfter(s, t, n) && Enabled(cfg, s, step)
    ensures CalledAfter(Apply(cfg, s, step), t, n)
  {
    hide Sent, ResetTo, Prepared, DecidedAs;
    match step
    case ByClient(u, a) =>
      ClientTouches(cfg, s, u, a);
      if u != t { hide ClientApply, ClientEnabled; }
    case ByConsumer(a) =>
      ConsumerTouches(cfg, s, a);
      hide ConsumerApply, ConsumerEnabled;
  }

  /** Steps from `k` up to `j` without a committed Reset leave what the last one wiped. */
  lemma {:induction false} SinceCall(cfg: Config, t: Tables, states: seq<State>, steps: seq<Step>, k: nat, j: nat,
        caller: nat)
    requires Run(cfg, t, states, steps) && k < j < |states|
    requires steps[k] == ByClient(caller, CallFlush) && forall m :: k <= m < j ==> !CommitsReset(steps[m])
    ensures CalledAfter(states[j], caller, |states[k].queue.sent|)
    ensures states[j].db.wiped == states[k].db.wiped && states[j].db.base == states[k].db.base
  {
    hide Enabled, Apply, CalledAfter;
    var n := j - 1;
    assert Enabled(cfg, states[n], steps[n]) && states[j] == Apply(cfg, states[n], steps[n]);
    TornStep(cfg, states[n], steps[n]);
    if k < n {
      SinceCall(cfg, t, states, steps, k, n, caller);
      CalledAfterStep(cfg, states[n], caller, |states[k].queue.sent|, steps[n]);
    } else {
      CallFlushCalls(cfg, states[k], caller);
    }
  }

  lemma CallFlushCalls(cfg: Config, s: State, caller: nat)
    requires Enabled(cfg, s, ByClient(caller, CallFlush))
    ensures CalledAfter(Apply(cfg, s, ByClient(caller, CallFlush)), caller, |s.queue.sent|)
  {
  }

  lemma WipedWasSent(cfg: Config, s: State)
    requires Control(cfg, s)
    ensures s.db.wiped <= |s.queue.sent|
  {
    hide FifoInv, PcInv, GateInv, StatsInv, CallersOk, RequestOk;
  }

  lemma AtomicIsUntorn(q: Queue, db: Database, pc: ConsumerPc)
    requires StoreInv(true, q, db, pc)
    ensures db.torn == {}
  {
  }

  /**
   So with an atomic repository, whatever Resets came earlier: a Flush called at moment
   `k` that has returned nil by `i` leaves, at any `j` up to which no Reset has committed
   since the call, everything stored that was sent before the call and after the last Reset.
   */
  lemma {:induction false} FlushOutlivesEarlierResets(cfg: Config, t: Tables, states: seq<State>, steps: seq<Step>,
        k: nat, i: nat, j: nat, caller: nat)
    requires ValidConfig(cfg) && Run(cfg, t, states, steps) && k < i <= j < |states|
    requires steps[k] == ByClient(caller, CallFlush) && forall m :: k <= m < j ==> !CommitsReset(steps[m])
    requires caller in states[i].clients && states[i].clients[caller].FlushReturned? && states[i].clients[caller].ok
    requires Recordable(states[j].queue.sent) && cfg.atomic
    ensures var (s, db) := (states[k], states[j].db);
      && s.db.wiped <= |s.queue.sent| && db.base == s.db.base
      && Stores(db.tables, db.base, s.queue.sent[s.db.wiped..])
  {
    hide Run, Control, Stores, StoreInv, Recordable, NoReset, Fifo;
    var s := states[k];
    SinceCall(cfg, t, states, steps, k, i, caller);
    SinceCall(cfg, t, states, steps, k, j, caller);
    ControlAlways(cfg, t, states, steps, k);
    AlwaysLater(cfg, t, states, steps, k, i);
    FlushIsBarrier(cfg, t, states, steps, i, j, caller);
    StoreAlways(cfg, t, states, steps, j);
    assert states[j].db.torn == {} by { AtomicIsUntorn(states[j].queue, states[j].db, states[j].pc); }
    WipedWasSent(cfg, s);
    assert states[i].queue.sent[s.db.wiped..|s.queue.sent|] == s.queue.sent[s.db.wiped..];
  }

  // ----- Bounds -----

  predicate FailsAttempt(step: Step) {
    step.ByConsumer? && (step.act.AttemptFails? || step.act.HalfFails?)
  }

  /** How many attempts have failed. */
  function FailedAttempts(steps: seq<Step>): nat {
    if steps == [] then 0
    else
      var last := steps[|steps| - 1];
      FailedAttempts(steps[..|steps| - 1]) + if FailsAttempt(last) then 1 else 0
  }

  lemma RetryStep(cfg: Config, s: State, step: Step)
    requires Enabled(cfg, s, step)
    ensures Apply(cfg, s, step).stats.retryTotal ==
      s.stats.retryTotal + if FailsAttempt(step) then 1 else 0
  {
    hide Taken, Acknowledged, Batched, EventsIn, RollupsIn, Prepared, DecidedAs, Sent, ResetTo, AfterFlush;
  }

  /** The retry counter is exactly the number of failed attempts, in every run. */
  lemma {:induction false} RetriesAreFailedAttempts(cfg: Config, t: Tables, states: seq<State>,
        steps: seq<Step>, i: nat)
    requires Run(cfg, t, states, steps) && i < |states|
    ensures states[i].stats.retryTotal == FailedAttempts(steps[..i])
  {
    hide Enabled, Apply;
    if i > 0 {
      RetriesAreFailedAttempts(cfg, t, states, steps, i - 1);
      assert Enabled(cfg, states[i - 1], steps[i - 1]) && states[i] == Apply(cfg, states[i - 1], steps[i - 1]);
      RetryStep(cfg, states[i - 1], steps[i - 1]);
      assert steps[..i][..i - 1] == steps[..i - 1];
    }
  }

  /** Until a flush fails, batches triggered by an item and leftovers between receives keep to the batch size. */
  lemma {:induction false} BatchBounds(cfg: Config, t: Tables, states: seq<State>, steps: seq<Step>, i: nat)
    requires ValidConfig(cfg) && Run(cfg, t, states, steps) && i < |states| && states[i].stats.failedFlushes == 0
    ensures states[i].pc.Selecting? ==> Pending(states[i].queue) <= cfg.batchSize - 1
    ensures FlushingFor(states[i].pc, BatchFull) ==> cfg.batchSize <= Pending(states[i].queue) <= cfg.batchSize + 1
    ensures states[i].pc.Attempting? ==> 1 <= states[i].pc.attempt <= cfg.retryMaxAttempts
  {
    ControlAlways(cfg, t, states, steps, i);
    hide Run, FifoInv, ReplyInv, GateInv, StatsInv;
  }
}
