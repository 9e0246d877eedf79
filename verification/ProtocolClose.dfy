/** What a Close of the asynchronous recorder promises, and to whom. */
module ProtocolClose {
  import opened AuditEvent
  import opened Recording
  import opened Repository
  import opened Protocol
  import opened ProtocolFifo
  import opened ProtocolStore
  import opened ProtocolControl
  import opened ProtocolRuns
  import opened ProtocolTheorems

  lemma ReplyAlwaysHasRoom(cfg: Config, s: State)
    requires PcInv(cfg, s.queue, s.pc, s.gate.drained, s.stats.failedFlushes) && RequestOk(s) && GateInv(s)
    requires s.pc.Replying?
    ensures ReplyHasRoom(s)
  {
  }

  /**
   The close handshake: at most one close message and one result; the consumer always
   has room for the reply it wants to send; whoever gets a result gets the consumer's.
   */
  lemma {:induction false} CloseHandshake(cfg: Config, t: Tables, states: seq<State>, steps: seq<Step>, i: nat)
    requires ValidConfig(cfg) && Run(cfg, t, states, steps) && i < |states|
    ensures var s := states[i];
      && s.gate.closeSent <= 1 && s.gate.doneSent <= s.gate.closeSent && |s.gate.doneCh| <= 1
      && (s.pc.Replying? ==> ReplyHasRoom(s))
      && (forall c :: c in s.clients && s.clients[c].CloseReturned? && s.clients[c].result.Finished? ==>
            s.pc == Exited(s.clients[c].result.ok))
  {
    var s := states[i];
    ControlAlways(cfg, t, states, steps, i);
    hide Run, StatsInv, FifoInv, CallersOk, PcInv, RequestOk, ReplyHasRoom;
    if s.pc.Replying? { ReplyAlwaysHasRoom(cfg, s); }
    assert forall c :: c in s.clients ==> CloserOk(s.gate, s.pc, c, s.clients[c]);
  }

  /**
   Once the consumer has exited with success, everything sent before its final drain is
   in the tables; of items whose flush was torn since the last Reset, the counts are.
   */
  lemma {:induction false} ExitStores(cfg: Config, t: Tables, states: seq<State>, steps: seq<Step>, i: nat)
    requires ValidConfig(cfg) && Run(cfg, t, states, steps) && i < |states|
    requires Recordable(states[i].queue.sent) && states[i].pc == Exited(true)
    ensures states[i].db.wiped <= states[i].gate.drained <= |states[i].queue.sent|
    ensures var (drained, sent, db) := (states[i].gate.drained, states[i].queue.sent, states[i].db);
      && db.tables == SyncRun(db.base, Thinned(sent, db.wiped, drained, db.torn))
      && (cfg.atomic || db.torn == {} ==> db.tables == SyncRun(db.base, sent[db.wiped..drained]))
    ensures NoReset(steps, i) ==> states[i].db.tables == SyncRun(t, states[i].queue.sent[..states[i].gate.drained])
  {
    hide SyncRun, Recordable, NoReset, Control, StoreInv, Thinned;
    var s := states[i];
    ControlAlways(cfg, t, states, steps, i);
    StoreAlways(cfg, t, states, steps, i);
    RunLength(cfg, t, states, steps);
    AlwaysSynced(cfg, t, states, steps, i);
    hide Run;
    SuccessfulExit(cfg, s);
    assert s.queue.sent[0..s.gate.drained] == s.queue.sent[..s.gate.drained];
  }

  /** A Record that has not looked before the recorder was closed. */
  predicate LateRecord(s: State, t: nat) {
    s.gate.closed && t in s.clients && (s.clients[t].Offering? || s.clients[t].RecordReturned?)
  }

  lemma LateRecordStep(cfg: Config, s: State, t: nat, step: Step)
    requires LateRecord(s, t) && Enabled(cfg, s, step)
    ensures var s' := Apply(cfg, s, step);
      LateRecord(s', t) && (step.ByClient? && step.t == t ==> s' == At(s, t, RecordReturned))
  {
    hide ClientApply, ClientEnabled, ConsumerApply, ConsumerEnabled;
    match step
    case ByClient(u, a) =>
      ClientTouches(cfg, s, u, a);
      if u == t { LateRecordOwnStep(cfg, s, t, a); }
    case ByConsumer(a) => ConsumerTouches(cfg, s, a);
  }

  lemma LateRecordOwnStep(cfg: Config, s: State, t: nat, a: ClientAction)
    requires LateRecord(s, t) && ClientEnabled(cfg, s, t, a)
    ensures ClientApply(cfg, s, t, a) == At(s, t, RecordReturned)
  {
    assert a.Decide?;
    hide Prepared, DecidedAs;
  }

  /** A Record that starts after the recorder was closed sends nothing, drops nothing and counts nothing. */
  lemma {:induction false} RecordAfterCloseIsNoop(cfg: Config, t: Tables, states: seq<State>, steps: seq<Step>,
        i: nat, j: nat, caller: nat)
    requires Run(cfg, t, states, steps) && i < j < |states|
    requires states[i].gate.closed && steps[i].ByClient? && steps[i].t == caller && steps[i].action.CallRecord?
    ensures LateRecord(states[j], caller)
    ensures i < j - 1 && steps[j - 1].ByClient? && steps[j - 1].t == caller ==>
      states[j] == At(states[j - 1], caller, RecordReturned)
  {
    hide Enabled, Apply, LateRecord;
    assert Enabled(cfg, states[j - 1], steps[j - 1]) && states[j] == Apply(cfg, states[j - 1], steps[j - 1]);
    if i < j - 1 {
      RecordAfterCloseIsNoop(cfg, t, states, steps, i, j - 1, caller);
      LateRecordStep(cfg, states[j - 1], caller, steps[j - 1]);
    } else {
      LateRecordStarts(cfg, states[i], caller, steps[i]);
    }
  }

  lemma LateRecordStarts(cfg: Config, s: State, t: nat, step: Step)
    requires s.gate.closed && step.ByClient? && step.t == t && step.action.CallRecord? && Enabled(cfg, s, step)
    ensures LateRecord(Apply(cfg, s, step), t)
  {
  }

  // ----- Who closed the recorder, and what each Close is told -----

  /** One Close closes the recorder, and sends and waits; every other one polls. */
  predicate CloserFits(gate: Gate, c: nat, client: Client) {
    && (client.CloseSending? || client.CloseAwaiting? ==> gate.closer == Some(c))
    && (client.CloseReturned? && client.result.TimedOut? ==> gate.closer == Some(c))
    && (client.ClosePolling? ==> gate.closer.Some? && gate.closer != Some(c))
    && (client.CloseReturned? && client.result.NothingToReport? ==> gate.closer.Some? && gate.closer != Some(c))
    && (gate.closer == Some(c) ==> client.CloseSending? || client.CloseAwaiting? || client.CloseReturned?)
  }

  predicate HasResult(s: State, c: nat) {
    c in s.clients && s.clients[c].CloseReturned? && s.clients[c].result.Finished?
  }

  ghost predicate OneResult(s: State) {
    && (forall c, d :: HasResult(s, c) && HasResult(s, d) ==> c == d)
    && (forall c :: HasResult(s, c) ==> s.pc.Exited? && s.gate.doneCh == [])
  }

  ghost predicate CloseInv(s: State) {
    && (s.gate.closed <==> s.gate.closer.Some?)
    && (s.gate.closer.Some? ==> s.gate.closer.value in s.clients)
    && (forall c :: c in s.clients ==> CloserFits(s.gate, c, s.clients[c]))
    && OneResult(s)
  }

  /** The gate's part in a caller's step. */
  lemma ClientMovesGate(cfg: Config, s: State, t: nat, a: ClientAction)
    requires ClientEnabled(cfg, s, t, a) && (s.gate.closed <==> s.gate.closer.Some?)
    ensures var (gate, gate') := (s.gate, ClientApply(cfg, s, t, a).gate);
      && (gate'.closed <==> gate'.closer.Some?)
      && (gate'.closer == gate.closer || (gate.closer.None? && gate'.closer == Some(t)))
      && (gate'.doneCh == gate.doneCh || (gate.doneCh != [] && gate'.doneCh == gate.doneCh[1..]))
      && (gate.closed ==> gate'.closed)
  {
    hide Prepared, DecidedAs, ItemOf, ResetTo, Sent, AfterFlush;
  }

  lemma OwnCloserFits(cfg: Config, s: State, t: nat, a: ClientAction)
    requires ClientEnabled(cfg, s, t, a) && (s.gate.closed <==> s.gate.closer.Some?)
    requires t in s.clients ==> CloserFits(s.gate, t, s.clients[t])
    requires s.gate.closer == Some(t) ==> t in s.clients
    ensures var s' := ClientApply(cfg, s, t, a); t in s'.clients ==> CloserFits(s'.gate, t, s'.clients[t])
  {
    hide Prepared, DecidedAs, ItemOf, ResetTo, Sent;
  }

  lemma OwnResult(cfg: Config, s: State, t: nat, a: ClientAction)
    requires ClientEnabled(cfg, s, t, a)
    ensures !HasResult(s, t)
    ensures HasResult(ClientApply(cfg, s, t, a), t) ==>
      s.gate.doneCh != [] && ClientApply(cfg, s, t, a).gate.doneCh == s.gate.doneCh[1..]
  {
    hide Prepared, DecidedAs, ItemOf, ResetTo, Sent;
  }

  lemma ClientKeepsResult(cfg: Config, s: State, t: nat, a: ClientAction)
    requires GateInv(s) && OneResult(s) && (s.gate.closed <==> s.gate.closer.Some?) && ClientEnabled(cfg, s, t, a)
    ensures OneResult(ClientApply(cfg, s, t, a))
  {
    var s' := ClientApply(cfg, s, t, a);
    ClientTouches(cfg, s, t, a);
    ClientMovesGate(cfg, s, t, a);
    OwnResult(cfg, s, t, a);
    hide ClientApply, ClientEnabled, Sends, CloserOk;
    forall c | c != t ensures HasResult(s', c) == HasResult(s, c) {}
  }

  lemma ClientKeepsClose(cfg: Config, s: State, t: nat, a: ClientAction)
    requires GateInv(s) && CloseInv(s) && ClientEnabled(cfg, s, t, a)
    ensures CloseInv(ClientApply(cfg, s, t, a))
  {
    var s' := ClientApply(cfg, s, t, a);
    hide GateInv, OneResult, CloserFits;
    ClientTouches(cfg, s, t, a);
    ClientMovesGate(cfg, s, t, a);
    OwnCloserFits(cfg, s, t, a);
    ClientKeepsResult(cfg, s, t, a);
    hide ClientApply, ClientEnabled, Sends;
    forall c | c in s'.clients ensures CloserFits(s'.gate, c, s'.clients[c]) {
      if c != t {
        assert CloserFits(s.gate, c, s.clients[c]);
        OtherCloserFits(s.gate, s'.gate, t, c, s.clients[c]);
      }
    }
  }

  lemma OtherCloserFits(gate: Gate, gate': Gate, t: nat, c: nat, client: Client)
    requires CloserFits(gate, c, client) && c != t
    requires gate'.closer == gate.closer || (gate.closer.None? && gate'.closer == Some(t))
    ensures CloserFits(gate', c, client)
  {
  }

  lemma ConsumerKeepsCloser(cfg: Config, s: State, a: ConsumerAction)
    requires ConsumerEnabled(cfg, s, a)
    ensures ConsumerApply(cfg, s, a).gate.closer == s.gate.closer
  {
    hide Taken, Acknowledged, Batched, EventsIn, RollupsIn;
  }

  lemma ConsumerKeepsClose(cfg: Config, s: State, a: ConsumerAction)
    requires CloseInv(s) && ConsumerEnabled(cfg, s, a)
    ensures CloseInv(ConsumerApply(cfg, s, a))
  {
    var s' := ConsumerApply(cfg, s, a);
    ConsumerTouches(cfg, s, a);
    ConsumerQueue(cfg, s, a);
    ConsumerKeepsCloser(cfg, s, a);
    hide ConsumerApply, ConsumerEnabled;
    forall c ensures !HasResult(s', c) {
      assert !HasResult(s, c);
    }
    forall c | c in s'.clients ensures CloserFits(s'.gate, c, s'.clients[c]) {
      assert CloserFits(s.gate, c, s.clients[c]);
    }
  }

  lemma {:induction false} CloseAlways(cfg: Config, t: Tables, states: seq<State>, steps: seq<Step>, i: nat)
    requires ValidConfig(cfg) && Run(cfg, t, states, steps) && i < |states|
    ensures CloseInv(states[i]) && GateInv(states[i])
  {
    ControlAlways(cfg, t, states, steps, i);
    assert GateInv(states[i]);
    hide Enabled, Apply, CloseInv, GateInv, Control;
    if i == 0 {
      assert CloseInv(Init(t)) by { InitClose(t); }
    } else {
      CloseAlways(cfg, t, states, steps, i - 1);
      assert Enabled(cfg, states[i - 1], steps[i - 1]) && states[i] == Apply(cfg, states[i - 1], steps[i - 1]);
      StepKeepsClose(cfg, states[i - 1], steps[i - 1]);
    }
  }

  lemma InitClose(t: Tables)
    ensures CloseInv(Init(t))
  {
  }

  lemma StepKeepsClose(cfg: Config, s: State, step: Step)
    requires GateInv(s) && CloseInv(s) && Enabled(cfg, s, step)
    ensures CloseInv(Apply(cfg, s, step))
  {
    hide CloseInv, GateInv, ClientApply, ClientEnabled, ConsumerApply, ConsumerEnabled;
    match step
    case ByClient(t, a) => ClientKeepsClose(cfg, s, t, a);
    case ByConsumer(a) => ConsumerKeepsClose(cfg, s, a);
  }

  /** The closer and the consumer's last word stay, and so does what a returned Close was told. */
  ghost predicate Settled(s: State, s': State) {
    && (s.gate.closer.Some? ==> s'.gate.closer == s.gate.closer)
    && (s.pc.Exited? ==> s'.pc == s.pc)
    && (forall c :: HasResult(s, c) ==> HasResult(s', c))
  }

  lemma StepSettles(cfg: Config, s: State, step: Step)
    requires CloseInv(s) && Enabled(cfg, s, step)
    ensures Settled(s, Apply(cfg, s, step))
  {
    hide ClientApply, ClientEnabled, ConsumerApply, ConsumerEnabled, CloserFits;
    match step
    case ByClient(t, a) =>
      ClientTouches(cfg, s, t, a);
      ClientMovesGate(cfg, s, t, a);
      OwnResult(cfg, s, t, a);
    case ByConsumer(a) =>
      ConsumerTouches(cfg, s, a);
      ConsumerQueue(cfg, s, a);
      ConsumerKeepsCloser(cfg, s, a);
      assert forall c :: !HasResult(s, c);
  }

  lemma {:induction false} AlwaysSettled(cfg: Config, t: Tables, states: seq<State>, steps: seq<Step>, i: nat, j: nat)
    requires ValidConfig(cfg) && Run(cfg, t, states, steps) && i <= j < |states|
    ensures Settled(states[i], states[j])
  {
    hide Enabled, Apply, CloseInv, GateInv;
    if i < j {
      AlwaysSettled(cfg, t, states, steps, i, j - 1);
      CloseAlways(cfg, t, states, steps, j - 1);
      assert Enabled(cfg, states[j - 1], steps[j - 1]) && states[j] == Apply(cfg, states[j - 1], steps[j - 1]);
      StepSettles(cfg, states[j - 1], steps[j - 1]);
    }
  }

  /** What a caller of Close sees as success: the consumer's, or no error because nothing was found. */
  predicate ReturnsNil(s: State, c: nat) {
    c in s.clients && s.clients[c].CloseReturned?
    && (s.clients[c].result == Finished(true) || s.clients[c].result == NothingToReport)
  }

  /** How things stand, for its caller, when a Close looks whether the recorder is closed. */
  datatype Standing = First | AfterSuccess | AfterFailure | AfterTimeout | WhileWaiting

  function StandingOf(s: State): Standing {
    if !s.gate.closed || s.gate.closer.None? || s.gate.closer.value !in s.clients then First
    else
      match s.clients[s.gate.closer.value]
      case CloseReturned(Finished(ok)) => if ok then AfterSuccess else AfterFailure
      case CloseReturned(_) => AfterTimeout
      case _ => WhileWaiting
  }

  predicate Checks(step: Step, c: nat) {
    step.ByClient? && step.t == c && step.action.CloseCheck?
  }

  /** In this run the Close of `c` looks at moment `i`, in this standing, and at moment `j` it has returned nil. */
  ghost predicate NilAfter(cfg: Config, t: Tables, standing: Standing, states: seq<State>, steps: seq<Step>,
        i: nat, j: nat, c: nat)
  {
    && Run(cfg, t, states, steps) && i < j < |states| && i < |steps|
    && Checks(steps[i], c) && StandingOf(states[i]) == standing && ReturnsNil(states[j], c)
  }

  /** After a look in this standing, a nil always means that the consumer has exited with success. */
  ghost predicate NilIsSuccess(cfg: Config, t: Tables, standing: Standing) {
    forall states: seq<State>, steps: seq<Step>, i: nat, j: nat, c: nat ::
      NilAfter(cfg, t, standing, states, steps, i, j, c) ==> states[j].pc == Exited(true)
  }

  /** After a look in this standing, a nil always means that everything sent before the look is flushed. */
  ghost predicate NilIsSafe(cfg: Config, t: Tables, standing: Standing) {
    forall states: seq<State>, steps: seq<Step>, i: nat, j: nat, c: nat ::
      NilAfter(cfg, t, standing, states, steps, i, j, c) ==> |states[i].queue.sent| <= states[j].queue.acked
  }

  /** Some Close that looks in this standing returns nil although an item sent before is not stored. */
  ghost predicate NilTooSoon(cfg: Config, t: Tables, standing: Standing) {
    exists states: seq<State>, steps: seq<Step>, i: nat, j: nat, c: nat ::
      NilAfter(cfg, t, standing, states, steps, i, j, c) && TooSoon(t, states, i, j)
  }

  /** Something was sent by moment `i`; at moment `j` nothing is flushed and the tables are as they were at first. */
  predicate TooSoon(t: Tables, states: seq<State>, i: nat, j: nat)
    requires i < |states| && j < |states|
  {
    states[j].queue.acked == 0 < |states[i].queue.sent| && states[j].db.tables == t
  }

  lemma CheckMakesCloser(cfg: Config, s: State, c: nat, step: Step)
    requires Enabled(cfg, s, step) && Checks(step, c) && !s.gate.closed
    ensures Apply(cfg, s, step).gate.closer == Some(c)
  {
  }

  /** The last drain for a Close comes after the recorder was closed, when `n` items had been sent. */
  predicate FinalDrain(s: State, n: nat) {
    FlushingFor(s.pc, Closing) || s.pc.Exited? ==> n <= s.gate.drained
  }

  lemma FinalDrainStep(cfg: Config, s: State, n: nat, step: Step)
    requires FinalDrain(s, n) && n <= |s.queue.sent| && Enabled(cfg, s, step)
    ensures FinalDrain(Apply(cfg, s, step), n)
  {
    match step
    case ByClient(t, a) =>
      ClientTouches(cfg, s, t, a);
      hide ClientApply, ClientEnabled, Sends;
    case ByConsumer(a) =>
      ConsumerTouches(cfg, s, a);
      ConsumerDrains(cfg, s, a);
      hide ConsumerApply, ConsumerEnabled;
  }

  /** Only the end of a drain notes how far it got, and only from there does a flush for a Close go on. */
  lemma ConsumerDrains(cfg: Config, s: State, a: ConsumerAction)
    requires ConsumerEnabled(cfg, s, a)
    ensures var s' := ConsumerApply(cfg, s, a);
      s'.gate.drained == (if a.DrainEnd? then |s.queue.sent| else s.gate.drained)
    ensures !a.DrainEnd? ==> var s' := ConsumerApply(cfg, s, a);
      FlushingFor(s'.pc, Closing) || s'.pc.Exited? ==> FlushingFor(s.pc, Closing)
  {
    hide Taken, Acknowledged, Batched, EventsIn, RollupsIn, Pending;
  }

  lemma NotClosing(s: State, n: nat)
    requires GateInv(s) && !s.gate.closed
    ensures FinalDrain(s, n)
  {
  }

  lemma {:induction false} FinalDrainIsLate(cfg: Config, t: Tables, states: seq<State>, steps: seq<Step>,
        i: nat, j: nat)
    requires ValidConfig(cfg) && Run(cfg, t, states, steps) && i <= j < |states| && !states[i].gate.closed
    ensures FinalDrain(states[j], |states[i].queue.sent|)
  {
    hide Enabled, Apply, FinalDrain, GateInv, CloseInv;
    if i == j {
      CloseAlways(cfg, t, states, steps, i);
      NotClosing(states[i], |states[i].queue.sent|);
    } else {
      FinalDrainIsLate(cfg, t, states, steps, i, j - 1);
      AlwaysLater(cfg, t, states, steps, i, j - 1);
      assert Enabled(cfg, states[j - 1], steps[j - 1]) && states[j] == Apply(cfg, states[j - 1], steps[j - 1]);
      FinalDrainStep(cfg, states[j - 1], |states[i].queue.sent|, steps[j - 1]);
    }
  }

  /** After the final drain a successful exit has flushed everything up to it. */
  lemma DrainedIsFlushed(cfg: Config, s: State, n: nat)
    requires Control(cfg, s) && s.pc == Exited(true) && FinalDrain(s, n)
    ensures n <= s.gate.drained == s.queue.acked
  {
    hide FifoInv, ReplyInv, GateInv, StatsInv;
  }

  /**
   The first Close never returns for want of a result: its nil is the consumer's success,
   and the final drain came after its look. So everything sent before the look is flushed,
   and the tables are the synchronous run of all that was sent before the final drain.
   */
  lemma {:induction false} FirstCloseIsTold(cfg: Config, t: Tables, states: seq<State>, steps: seq<Step>,
        i: nat, j: nat, c: nat)
    requires ValidConfig(cfg) && Run(cfg, t, states, steps) && i < j < |states|
    requires Checks(steps[i], c) && !states[i].gate.closed
    ensures c in states[j].clients && states[j].clients[c] != CloseReturned(NothingToReport)
    ensures ReturnsNil(states[j], c) ==>
      states[j].pc == Exited(true) && |states[i].queue.sent| <= states[j].gate.drained == states[j].queue.acked
    ensures ReturnsNil(states[j], c) && Recordable(states[j].queue.sent) ==>
      var (drained, sent, db) := (states[j].gate.drained, states[j].queue.sent, states[j].db);
      && db.wiped <= drained <= |sent| && db.tables == SyncRun(db.base, Thinned(sent, db.wiped, drained, db.torn))
      && (cfg.atomic || db.torn == {} ==> db.tables == SyncRun(db.base, sent[db.wiped..drained]))
  {
    hide Enabled, Apply, Recordable, SyncRun, FinalDrain, Control, Thinned;
    assert Enabled(cfg, states[i], steps[i]) && states[i + 1] == Apply(cfg, states[i], steps[i]);
    CheckMakesCloser(cfg, states[i], c, steps[i]);
    AlwaysSettled(cfg, t, states, steps, i + 1, j);
    CloseAlways(cfg, t, states, steps, j);
    assert CloserFits(states[j].gate, c, states[j].clients[c]);
    assert CloserOk(states[j].gate, states[j].pc, c, states[j].clients[c]);
    hide CloseInv, GateInv;
    if ReturnsNil(states[j], c) {
      FinalDrainIsLate(cfg, t, states, steps, i, j);
      ControlAlways(cfg, t, states, steps, j);
      DrainedIsFlushed(cfg, states[j], |states[i].queue.sent|);
      if Recordable(states[j].queue.sent) { ExitStores(cfg, t, states, steps, j); }
    }
  }

  lemma {:induction false} SuccessWhenTold(cfg: Config, t: Tables, standing: Standing)
    requires ValidConfig(cfg) && (standing.First? || standing.AfterSuccess?)
    ensures NilIsSuccess(cfg, t, standing) && (standing.First? ==> NilIsSafe(cfg, t, standing))
  {
    forall states: seq<State>, steps: seq<Step>, i: nat, j: nat, c: nat |
      NilAfter(cfg, t, standing, states, steps, i, j, c)
      ensures states[j].pc == Exited(true) && (standing.First? ==> |states[i].queue.sent| <= states[j].queue.acked) {
      hide Run, CloseInv, GateInv;
      CloseAlways(cfg, t, states, steps, i);
      if standing.First? {
        ClosedHasCloser(states[i]);
        FirstCloseIsTold(cfg, t, states, steps, i, j, c);
      } else {
        SuccessMeansExited(states[i]);
        AlwaysSettled(cfg, t, states, steps, i, j);
      }
    }
  }

  lemma ClosedHasCloser(s: State)
    requires CloseInv(s)
    ensures StandingOf(s).First? <==> !s.gate.closed
  {
  }

  lemma SuccessMeansExited(s: State)
    requires GateInv(s) && StandingOf(s).AfterSuccess?
    ensures s.pc == Exited(true)
  {
    var c := s.gate.closer.value;
    assert CloserOk(s.gate, s.pc, c, s.clients[c]);
  }

  // ----- Runs in which a nil comes too soon -----

  /** A Close takes the mutex. */
  lemma Locks(cfg: Config, t: Tables, s: State, c: nat) returns (s': State)
    requires Reachable(cfg, t, s) && c !in s.clients && s.gate.mutex.None?
    ensures Reachable(cfg, t, s')
    ensures s' == s.(gate := s.gate.(mutex := Some(c)), clients := s.clients[c := CloseLocked])
  {
    hide Reachable, ConsumerApply, ConsumerEnabled;
    ReachStep(cfg, t, s, ByClient(c, CallClose));
    var s1 := At(s, c, CloseCalled);
    ReachStep(cfg, t, s1, ByClient(c, CloseLock));
    s' := At(s1.(gate := s1.gate.(mutex := Some(c))), c, CloseLocked);
    assert s'.clients == s.clients[c := CloseLocked];
  }

  /** It finds the recorder open and closes it. */
  lemma Closes(cfg: Config, t: Tables, s: State, c: nat) returns (s': State)
    requires Reachable(cfg, t, s) && c !in s.clients && s.gate.mutex.None? && !s.gate.closed
    ensures Reachable(cfg, t, s')
    ensures s' == s.(gate := s.gate.(mutex := Some(c), closed := true, closer := Some(c)),
                     clients := s.clients[c := CloseSending])
  {
    hide Reachable, ConsumerApply, ConsumerEnabled;
    var s1 := Locks(cfg, t, s, c);
    ReachStep(cfg, t, s1, ByClient(c, CloseCheck));
    s' := At(s1.(gate := s1.gate.(closed := true, closer := Some(c))), c, CloseSending);
    assert s'.clients == s.clients[c := CloseSending];
  }

  /** It gives up before its message is taken. */
  lemma GivesUp(cfg: Config, t: Tables, s: State, c: nat) returns (s': State)
    requires Reachable(cfg, t, s) && c in s.clients && s.clients[c].CloseSending?
    ensures Reachable(cfg, t, s')
    ensures s' == s.(gate := s.gate.(mutex := None), clients := s.clients[c := CloseReturned(TimedOut)])
  {
    hide Reachable, ConsumerApply, ConsumerEnabled;
    ReachStep(cfg, t, s, ByClient(c, CloseCancelled));
    s' := At(s.(gate := s.gate.(mutex := None)), c, CloseReturned(TimedOut));
  }

  /** It sends its message and waits. */
  lemma SendsMessage(cfg: Config, t: Tables, s: State, c: nat) returns (s': State)
    requires Reachable(cfg, t, s) && c in s.clients && s.clients[c].CloseSending? && s.gate.closeCh == 0
    ensures Reachable(cfg, t, s')
    ensures s' == s.(gate := s.gate.(closeCh := 1, closeSent := s.gate.closeSent + 1, mutex := None),
                     clients := s.clients[c := CloseAwaiting])
  {
    hide Reachable, ConsumerApply, ConsumerEnabled;
    ReachStep(cfg, t, s, ByClient(c, CloseSend));
    s' := At(s.(gate := s.gate.(closeCh := 1, closeSent := s.gate.closeSent + 1, mutex := None)), c, CloseAwaiting);
  }

  /** A Close that finds the recorder closed and no result returns nil, whatever is still queued. */
  lemma PollsTooSoon(cfg: Config, t: Tables, s: State, c: nat)
    requires Reachable(cfg, t, s) && c !in s.clients && s.gate.mutex.None? && s.gate.closed && s.gate.doneCh == []
    requires s.queue.acked == 0 < |s.queue.sent| && s.db.tables == t
    requires s.gate.closer.Some? && s.gate.closer.value in s.clients
    ensures NilTooSoon(cfg, t, StandingOf(s)) && (s.pc != Exited(true) ==> !NilIsSuccess(cfg, t, StandingOf(s)))
  {
    hide Reachable;
    var s1 := Locks(cfg, t, s, c);
    var s2 := At(s1.(gate := s1.gate.(mutex := None)), c, ClosePolling);
    var s3 := At(s2, c, CloseReturned(NothingToReport));
    TwoMoreSteps(cfg, t, s1, ByClient(c, CloseCheck), s2, ByClient(c, ClosePoll), s3);
    var states: seq<State>, steps: seq<Step> :| EndsWith(cfg, t, states, steps, s1, ByClient(c, CloseCheck), s3);
    var i := |steps| - 2;
    assert StandingOf(s1) == StandingOf(s);
    assert NilAfter(cfg, t, StandingOf(s), states, steps, i, i + 2, c);
    assert TooSoon(t, states, i, i + 2);
  }

  /** A run whose last but one step is `first`, made in `s1`, and which ends in `s3`. */
  ghost predicate EndsWith(cfg: Config, t: Tables, states: seq<State>, steps: seq<Step>, s1: State,
        first: Step, s3: State)
  {
    && Run(cfg, t, states, steps) && |steps| >= 2
    && states[|steps| - 2] == s1 && states[|steps|] == s3 && steps[|steps| - 2] == first
  }

  lemma TwoMoreSteps(cfg: Config, t: Tables, s1: State, first: Step, s2: State, second: Step, s3: State)
    requires Reachable(cfg, t, s1) && Enabled(cfg, s1, first) && s2 == Apply(cfg, s1, first)
    requires Enabled(cfg, s2, second) && s3 == Apply(cfg, s2, second)
    ensures exists states: seq<State>, steps: seq<Step> :: EndsWith(cfg, t, states, steps, s1, first, s3)
  {
    hide Enabled, Apply;
    var states: seq<State>, steps: seq<Step> :| Run(cfg, t, states, steps) && states[|steps|] == s1;
    var states', steps' := states + [s2, s3], steps + [first, second];
    forall i | 0 <= i < |steps'|
      ensures Enabled(cfg, states'[i], steps'[i]) && states'[i + 1] == Apply(cfg, states'[i], steps'[i]) {
      if i < |steps| { assert Enabled(cfg, states[i], steps[i]); }
    }
    assert Run(cfg, t, states', steps');
    assert EndsWith(cfg, t, states', steps', s1, first, s3);
  }

  lemma QueuedItem(cfg: Config, t: Tables) returns (s: State)
    requires ValidConfig(cfg)
    ensures Reachable(cfg, t, s)
    ensures s == Init(t).(queue := Sent(Init(t).queue, ItemFor(cfg, STARTUP)), clients := map[1 := Counting(false)])
    ensures s.queue.acked == 0 && |s.queue.sent| == 1
  {
    StartupIsStored(cfg);
    hide Reachable, ItemFor;
    ReachInit(cfg, t);
    s := SendsItem(cfg, t, Init(t), 1, STARTUP);
    assert s.clients == map[1 := Counting(false)];
  }

  /** The first Close timed out before its message was taken: the consumer was never told. */
  lemma TooSoonAfterTimeout(cfg: Config, t: Tables)
    requires ValidConfig(cfg)
    ensures NilTooSoon(cfg, t, AfterTimeout) && !NilIsSuccess(cfg, t, AfterTimeout)
  {
    hide Reachable, NilTooSoon, NilIsSuccess, ItemFor, Sent;
    var s := QueuedItem(cfg, t);
    var s1 := Closes(cfg, t, s, 2);
    var s2 := GivesUp(cfg, t, s1, 2);
    PollsTooSoon(cfg, t, s2, 3);
  }

  /** The first Close is still waiting for the consumer. */
  lemma TooSoonWhileWaiting(cfg: Config, t: Tables)
    requires ValidConfig(cfg)
    ensures NilTooSoon(cfg, t, WhileWaiting) && !NilIsSuccess(cfg, t, WhileWaiting)
  {
    hide Reachable, NilTooSoon, NilIsSuccess, ItemFor, Sent;
    var s := QueuedItem(cfg, t);
    var s1 := Closes(cfg, t, s, 2);
    var s2 := SendsMessage(cfg, t, s1, 2);
    PollsTooSoon(cfg, t, s2, 3);
  }

  /** The consumer drains for a close message. */
  lemma StartsDraining(cfg: Config, t: Tables, s: State) returns (s': State)
    requires Reachable(cfg, t, s) && s.pc.Selecting? && s.gate.closeCh == 1
    ensures Reachable(cfg, t, s') && s' == s.(gate := s.gate.(closeCh := 0), pc := Draining(Closing))
  {
    hide Reachable, ClientApply, ClientEnabled;
    ReachStep(cfg, t, s, ByConsumer(ReceiveClose));
    s' := s.(gate := s.gate.(closeCh := 0), pc := Draining(Closing));
  }

  lemma TakesStartup(cfg: Config, t: Tables, s: State) returns (s': State)
    requires Reachable(cfg, t, s) && s.pc.Draining? && s.queue.chan == [ItemOf(ItemFor(cfg, STARTUP))]
    requires s.queue.events == []
    ensures Reachable(cfg, t, s') && s' == s.(queue := Taken(s.queue))
    ensures |s'.queue.events| == 1 && s'.queue.chan == [] && s'.queue.sent == s.queue.sent
    ensures s'.queue.acked == s.queue.acked
  {
    StartupIsStored(cfg);
    hide Reachable, ClientApply, ClientEnabled, ItemFor;
    ReachStep(cfg, t, s, ByConsumer(DrainItem));
    s' := s.(queue := Taken(s.queue));
  }

  /** The final flush fails: every attempt it is allowed, or the first one and then its context ends. */
  lemma FailsToFlush(cfg: Config, t: Tables, s: State) returns (s': State)
    requires ValidConfig(cfg) && Reachable(cfg, t, s) && s.pc == Draining(Closing) && s.queue.chan == []
    requires s.queue.events != []
    ensures Reachable(cfg, t, s') && s'.pc == Replying(Closing, false) && s'.queue == s.queue && s'.clients == s.clients
    ensures s'.gate == s.gate.(drained := |s.queue.sent|) && s'.db == s.db
  {
    hide Reachable, ClientApply, ClientEnabled;
    ReachStep(cfg, t, s, ByConsumer(DrainEnd));
    var s1 := s.(gate := s.gate.(drained := |s.queue.sent|), pc := Attempting(Closing, 1));
    assert s1 == Apply(cfg, s, ByConsumer(DrainEnd));
    ReachStep(cfg, t, s1, ByConsumer(AttemptFails));
    s' := Apply(cfg, s1, ByConsumer(AttemptFails));
    if cfg.retryMaxAttempts > 1 {
      ReachStep(cfg, t, s', ByConsumer(WaitInterrupted));
      s' := Apply(cfg, s', ByConsumer(WaitInterrupted));
    }
  }

  /** The consumer reports, and the waiting Close receives the report. */
  lemma ReportsTo(cfg: Config, t: Tables, s: State, c: nat) returns (s': State)
    requires Reachable(cfg, t, s) && s.pc.Replying? && s.pc.cause == Closing && s.gate.doneCh == []
    requires c in s.clients && s.clients[c].CloseAwaiting?
    ensures Reachable(cfg, t, s') && s'.pc == Exited(s.pc.ok) && s'.queue == s.queue
    ensures s'.clients == s.clients[c := CloseReturned(Finished(s.pc.ok))]
    ensures s'.gate == s.gate.(doneSent := s.gate.doneSent + 1) && s'.db == s.db
  {
    hide Reachable;
    ReachStep(cfg, t, s, ByConsumer(Reply));
    var s1 := s.(gate := s.gate.(doneCh := [s.pc.ok], doneSent := s.gate.doneSent + 1), pc := Exited(s.pc.ok));
    assert s1 == Apply(cfg, s, ByConsumer(Reply));
    ReachStep(cfg, t, s1, ByClient(c, CloseReceive));
    s' := Apply(cfg, s1, ByClient(c, CloseReceive));
  }

  /** The final drain finds nothing, and there is nothing to flush. */
  lemma FindsNothing(cfg: Config, t: Tables, s: State) returns (s': State)
    requires Reachable(cfg, t, s) && s.pc == Draining(Closing) && s.queue.chan == [] && Pending(s.queue) == 0
    ensures Reachable(cfg, t, s')
    ensures s' == s.(gate := s.gate.(drained := |s.queue.sent|), pc := Replying(Closing, true))
  {
    hide Reachable, ClientApply, ClientEnabled;
    ReachStep(cfg, t, s, ByConsumer(DrainEnd));
    s' := Apply(cfg, s, ByConsumer(DrainEnd));
  }

  /** The Close of `c` waits for the consumer, no one else closes, and nothing has been flushed. */
  ghost predicate AwaitedBy(cfg: Config, t: Tables, s: State, c: nat) {
    && Reachable(cfg, t, s) && c in s.clients && s.clients[c].CloseAwaiting?
    && s.gate.closed && s.gate.closer == Some(c) && s.gate.mutex.None? && s.gate.doneCh == []
    && s.queue.acked == 0 && s.db.tables == t
  }

  /** It is told of a failure, and then another Close returns nil too soon. */
  lemma ReportsThenPolls(cfg: Config, t: Tables, s: State, c: nat, d: nat)
    requires AwaitedBy(cfg, t, s, c) && s.pc == Replying(Closing, false) && d !in s.clients && d != c
    requires |s.queue.sent| > 0
    ensures NilTooSoon(cfg, t, AfterFailure) && !NilIsSuccess(cfg, t, AfterFailure)
  {
    hide Reachable, NilTooSoon, NilIsSuccess;
    var s' := ReportsTo(cfg, t, s, c);
    PollsTooSoon(cfg, t, s', d);
  }

  /** With one item queued, the recorder is closed and the consumer starts its final drain. */
  lemma DrainsForClose(cfg: Config, t: Tables) returns (s: State)
    requires ValidConfig(cfg)
    ensures AwaitedBy(cfg, t, s, 2) && s.pc == Draining(Closing) && 3 !in s.clients
    ensures s.queue == Sent(Init(t).queue, ItemFor(cfg, STARTUP))
  {
    hide Reachable, ItemFor, ItemOf;
    var s0 := QueuedItem(cfg, t);
    var s1 := Closes(cfg, t, s0, 2);
    var s2 := SendsMessage(cfg, t, s1, 2);
    s := StartsDraining(cfg, t, s2);
  }

  lemma FinalFlushFails(cfg: Config, t: Tables) returns (s: State)
    requires ValidConfig(cfg)
    ensures AwaitedBy(cfg, t, s, 2) && s.pc == Replying(Closing, false) && 3 !in s.clients && |s.queue.sent| > 0
  {
    hide Reachable, ItemFor, ItemOf;
    var s0 := DrainsForClose(cfg, t);
    var s1 := TakesStartup(cfg, t, s0);
    s := FailsToFlush(cfg, t, s1);
  }

  /** The first Close reported the failure of the final flush, and left nothing to report. */
  lemma TooSoonAfterFailure(cfg: Config, t: Tables)
    requires ValidConfig(cfg)
    ensures NilTooSoon(cfg, t, AfterFailure) && !NilIsSuccess(cfg, t, AfterFailure)
  {
    hide AwaitedBy, NilTooSoon, NilIsSuccess;
    var s := FinalFlushFails(cfg, t);
    ReportsThenPolls(cfg, t, s, 2, 3);
  }

  /** A Record is decided on, and then the recorder is closed and the consumer finds nothing to flush. */
  lemma ClosesBeforeSend(cfg: Config, t: Tables, r: Recorded) returns (s: State)
    requires ValidConfig(cfg) && r == ItemFor(cfg, STARTUP)
    ensures AwaitedBy(cfg, t, s, 2) && s.pc == Replying(Closing, true) && 3 !in s.clients
    ensures 1 in s.clients && s.clients[1] == Decided(r) && s.queue == Init(t).queue
  {
    StartupIsStored(cfg);
    hide Reachable, ItemFor, ItemOf;
    ReachInit(cfg, t);
    var s0 := DecidesOn(cfg, t, Init(t), 1, STARTUP);
    var s1 := Closes(cfg, t, s0, 2);
    var s2 := SendsMessage(cfg, t, s1, 2);
    var s3 := StartsDraining(cfg, t, s2);
    s := FindsNothing(cfg, t, s3);
  }

  /** The Close is told of success, the Record sends, and another Close returns nil. */
  lemma ReportsThenSends(cfg: Config, t: Tables, s: State, r: Recorded)
    requires ValidConfig(cfg) && AwaitedBy(cfg, t, s, 2) && s.pc == Replying(Closing, true) && 3 !in s.clients
    requires 1 in s.clients && s.clients[1] == Decided(r) && s.queue == Init(t).queue
    ensures NilTooSoon(cfg, t, AfterSuccess)
  {
    hide Reachable, NilTooSoon, ItemOf;
    var s1 := ReportsTo(cfg, t, s, 2);
    var s2 := PutsOnChannel(cfg, t, s1, 1, r);
    PollsTooSoon(cfg, t, s2, 3);
  }

  /**
   The first Close returned nil, and then a Record that had been decided on before the
   recorder was closed put its item on the channel, where no one will receive it.
   */
  lemma TooSoonAfterSuccess(cfg: Config, t: Tables)
    requires ValidConfig(cfg)
    ensures NilTooSoon(cfg, t, AfterSuccess)
  {
    hide AwaitedBy, NilTooSoon, ItemFor;
    var s := ClosesBeforeSend(cfg, t, ItemFor(cfg, STARTUP));
    ReportsThenSends(cfg, t, s, ItemFor(cfg, STARTUP));
  }

  /**
   What a nil from Close means, in every run. It is the consumer's success exactly when
   the Close was the first to look, or the first one had already returned nil. It means
   that everything sent before the look is flushed exactly when the Close was the first.
   In every other standing some run returns nil with an item sent before and not stored.
   */
  lemma {:induction false} NilReliableExactly(cfg: Config, t: Tables, standing: Standing)
    requires ValidConfig(cfg)
    ensures NilIsSuccess(cfg, t, standing) <==> standing.First? || standing.AfterSuccess?
    ensures NilIsSafe(cfg, t, standing) <==> standing.First?
    ensures NilTooSoon(cfg, t, standing) <==> !standing.First?
  {
    hide NilAfter;
    if standing.First? || standing.AfterSuccess? { SuccessWhenTold(cfg, t, standing); }
    match standing {
      case First =>
      case AfterSuccess => TooSoonAfterSuccess(cfg, t);
      case AfterFailure => TooSoonAfterFailure(cfg, t);
      case AfterTimeout => TooSoonAfterTimeout(cfg, t);
      case WhileWaiting => TooSoonWhileWaiting(cfg, t);
    }
  }

  // ----- Who gets the result -----

  /**
   The consumer's result goes to one Close only. If it was not the one that closed the
   recorder, that one never learns it: it waits on, and returns only when its context ends.
   */
  lemma {:induction false} ResultGoesToOne(cfg: Config, t: Tables, states: seq<State>, steps: seq<Step>,
        i: nat, j: nat, c: nat)
    requires ValidConfig(cfg) && Run(cfg, t, states, steps) && i <= j < |states| && HasResult(states[i], c)
    ensures HasResult(states[j], c) && forall d :: HasResult(states[j], d) ==> d == c
    ensures var closer := states[j].gate.closer;
      && closer.Some? && closer.value in states[j].clients
      && (closer.value != c && states[j].clients[closer.value].CloseReturned? ==>
            states[j].clients[closer.value].result == TimedOut)
  {
    hide Run, CloserOk;
    AlwaysSettled(cfg, t, states, steps, i, j);
    CloseAlways(cfg, t, states, steps, j);
    var s := states[j];
    assert s.gate.closed by { ExitedIsClosed(s); }
    var f := s.gate.closer.value;
    assert CloserFits(s.gate, f, s.clients[f]);
    assert HasResult(s, f) ==> f == c;
  }

  lemma ExitedIsClosed(s: State)
    requires GateInv(s) && s.pc.Exited?
    ensures s.gate.closed
  {
  }

  /** The Close of `f` closed the recorder and is waiting; the Close of `c` has the result. */
  predicate LosesResult(s: State, f: nat, c: nat) {
    s.gate.closer == Some(f) && f in s.clients && s.clients[f] == CloseAwaiting
    && c in s.clients && s.clients[c] == CloseReturned(Finished(true))
  }

  /** That can happen: a polling Close may be faster than the one that waits. */
  lemma PollerMayTakeResult(cfg: Config, t: Tables)
    requires ValidConfig(cfg)
    ensures exists s :: Reachable(cfg, t, s) && LosesResult(s, 2, 3)
  {
    hide Reachable;
    ReachInit(cfg, t);
    var s1 := Closes(cfg, t, Init(t), 2);
    var s2 := SendsMessage(cfg, t, s1, 2);
    var s3 := StartsDraining(cfg, t, s2);
    var s4 := Exits(cfg, t, s3);
    hide ClientApply, ClientEnabled, ConsumerApply, ConsumerEnabled;
    var s5 := Polls(cfg, t, s4, 3);
    assert LosesResult(s5, 2, 3);
  }

  /** A Close that finds the recorder closed, and a result. */
  lemma Polls(cfg: Config, t: Tables, s: State, c: nat) returns (s': State)
    requires Reachable(cfg, t, s) && c !in s.clients && s.gate.mutex.None? && s.gate.closed && |s.gate.doneCh| == 1
    ensures Reachable(cfg, t, s')
    ensures s' == s.(gate := s.gate.(doneCh := []),
                     clients := s.clients[c := CloseReturned(Finished(s.gate.doneCh[0]))])
  {
    hide Reachable, ConsumerApply, ConsumerEnabled;
    var s1 := Locks(cfg, t, s, c);
    ReachStep(cfg, t, s1, ByClient(c, CloseCheck));
    var s2 := At(s1.(gate := s1.gate.(mutex := None)), c, ClosePolling);
    ReachStep(cfg, t, s2, ByClient(c, ClosePoll));
    assert s.gate.doneCh[1..] == [];
    s' := At(s2.(gate := s2.gate.(doneCh := [])), c, CloseReturned(Finished(s.gate.doneCh[0])));
    assert s'.clients == s.clients[c := CloseReturned(Finished(s.gate.doneCh[0]))];
  }

  /** With nothing to flush the consumer reports success at once. */
  lemma Exits(cfg: Config, t: Tables, s: State) returns (s': State)
    requires Reachable(cfg, t, s) && s.pc == Draining(Closing) && s.queue.chan == [] && Pending(s.queue) == 0
    requires s.gate.doneCh == []
    ensures Reachable(cfg, t, s') && s'.pc == Exited(true) && s'.clients == s.clients
    ensures s'.gate == s.gate.(drained := |s.queue.sent|, doneCh := [true], doneSent := s.gate.doneSent + 1)
  {
    hide Reachable, ClientApply, ClientEnabled;
    var s1 := FindsNothing(cfg, t, s);
    ReachStep(cfg, t, s1, ByConsumer(Reply));
    s' := Apply(cfg, s1, ByConsumer(Reply));
  }
}
