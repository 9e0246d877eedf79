/** What a Record does when the channel is full, what each call is told, and when the consumer flushes. */
module ProtocolEnqueue {
  import opened AuditEvent
  import opened AuditPolicy
  import opened Recording
  import opened Repository
  import opened Protocol
  import opened ProtocolFifo
  import opened ProtocolControl
  import opened ProtocolTheorems

  predicate Full(cfg: Config, s: State) {
    |s.queue.chan| >= cfg.channelSize
  }

  /** The item waits for room if there is none. */
  predicate MayWait(cfg: Config, r: Recorded) {
    r.decision.priority == Critical || !cfg.dropOnFull
  }

  /** The Record of caller `t` is about to send this item. */
  predicate Sending(s: State, t: nat, r: Recorded) {
    t in s.clients && s.clients[t] == Decided(r)
  }

  predicate WaitingForRoom(s: State, t: nat, r: Recorded) {
    t in s.clients && s.clients[t] == Blocked(r)
  }

  /** A Record gives up waiting: its time is over or its context has ended. */
  predicate GivesUpWaiting(step: Step) {
    step.ByClient? && (step.action.WaitExpired? || step.action.WaitCancelled?)
  }

  // ----- One step -----

  /** A Record comes to wait only by finding no room for an item that may wait. */
  lemma StartsWaiting(cfg: Config, s: State, step: Step, t: nat, r: Recorded)
    requires Enabled(cfg, s, step) && WaitingForRoom(Apply(cfg, s, step), t, r) && !WaitingForRoom(s, t, r)
    ensures step == ByClient(t, TrySend) && Sending(s, t, r) && Full(cfg, s) && MayWait(cfg, r)
  {
    hide Sent, ResetTo, Prepared, DecidedAs;
    match step
    case ByClient(u, a) =>
      ClientTouches(cfg, s, u, a);
      if u != t { hide ClientApply, ClientEnabled; }
    case ByConsumer(a) =>
      ConsumerTouches(cfg, s, a);
      hide ConsumerApply, ConsumerEnabled;
  }

  /** A drop is the step of a Record that gives up waiting, or one that finds no room for an item that may not wait. */
  lemma DropStep(cfg: Config, s: State, step: Step)
    requires Enabled(cfg, s, step)
    ensures var s' := Apply(cfg, s, step);
      s.stats.droppedTotal <= s'.stats.droppedTotal <= s.stats.droppedTotal + 1
      && (s'.stats.droppedTotal > s.stats.droppedTotal <==> Drops(cfg, s, step))
      && (Drops(cfg, s, step) ==> s'.queue == s.queue)
  {
    hide Sent, ResetTo, Prepared, DecidedAs, AfterFlush;
    match step
    case ByClient(t, a) =>
    case ByConsumer(a) =>
      ConsumerStats(cfg, s, a);
      hide ConsumerApply, ConsumerEnabled;
  }

  predicate Drops(cfg: Config, s: State, step: Step) {
    || GivesUpWaiting(step)
    || (step.ByClient? && step.action.TrySend? && Full(cfg, s)
        && step.t in s.clients && s.clients[step.t].Decided? && !MayWait(cfg, s.clients[step.t].item))
  }

  // ----- Runs -----

  /** A Record that is waiting found the channel full at some step before, and has waited ever since. */
  lemma {:induction false} WaitingSince(cfg: Config, t: Tables, states: seq<State>, steps: seq<Step>, i: nat,
        caller: nat, r: Recorded) returns (m: nat)
    requires Run(cfg, t, states, steps) && i < |states| && WaitingForRoom(states[i], caller, r)
    ensures m < i && steps[m] == ByClient(caller, TrySend) && Sending(states[m], caller, r) && Full(cfg, states[m])
    ensures MayWait(cfg, r) && forall n :: m < n <= i ==> WaitingForRoom(states[n], caller, r)
  {
    hide Enabled, Apply, WaitingForRoom, Sending, MayWait;
    NoOneWaits(t, caller, r);
    m := 0;
    if i > 0 {
      var n := i - 1;
      assert Enabled(cfg, states[n], steps[n]) && states[i] == Apply(cfg, states[n], steps[n]);
      if WaitingForRoom(states[n], caller, r) {
        m := WaitingSince(cfg, t, states, steps, n, caller, r);
      } else {
        StartsWaiting(cfg, states[n], steps[n], caller, r);
        m := n;
      }
    }
  }

  lemma NoOneWaits(t: Tables, caller: nat, r: Recorded)
    ensures !WaitingForRoom(Init(t), caller, r)
  {
  }

  /**
   An item is dropped at once only if it may not wait: it is not critical, dropping is on,
   and the channel is full. An item that may wait is dropped only when its Record gives up
   after having found the channel full and waited. Nothing else is ever dropped.
   */
  lemma {:induction false} DropsAreExplained(cfg: Config, t: Tables, states: seq<State>, steps: seq<Step>, k: nat)
    requires Run(cfg, t, states, steps) && k < |steps|
    requires states[k + 1].stats.droppedTotal > states[k].stats.droppedTotal
    ensures steps[k].ByClient?
    ensures var (caller, s) := (steps[k].t, states[k]);
      || (exists r :: Sending(s, caller, r) && steps[k].action == TrySend && Full(cfg, s)
                      && r.decision.priority != Critical && cfg.dropOnFull)
      || (exists r, m :: 0 <= m < k && WaitingForRoom(s, caller, r) && GivesUpWaiting(steps[k])
                      && FoundFull(cfg, states, steps, m, caller, r))
  {
    var s := states[k];
    assert Enabled(cfg, s, steps[k]) && states[k + 1] == Apply(cfg, s, steps[k]);
    DropStep(cfg, s, steps[k]);
    if GivesUpWaiting(steps[k]) {
      var r := GivesUpItem(cfg, s, steps[k]);
      hide Enabled, Apply, WaitingForRoom, Sending;
      var m := WaitingSince(cfg, t, states, steps, k, steps[k].t, r);
      assert FoundFull(cfg, states, steps, m, steps[k].t, r);
    } else {
      hide Enabled, Apply;
      assert Sending(s, steps[k].t, s.clients[steps[k].t].item);
    }
  }

  lemma GivesUpItem(cfg: Config, s: State, step: Step) returns (r: Recorded)
    requires Enabled(cfg, s, step) && GivesUpWaiting(step)
    ensures WaitingForRoom(s, step.t, r)
  {
    r := s.clients[step.t].item;
  }

  /** At step `m` the Record of this caller found the channel full with an item that may wait. */
  predicate FoundFull(cfg: Config, states: seq<State>, steps: seq<Step>, m: nat, caller: nat, r: Recorded)
    requires m < |steps| && |states| == |steps| + 1
  {
    steps[m] == ByClient(caller, TrySend) && Sending(states[m], caller, r) && Full(cfg, states[m]) && MayWait(cfg, r)
  }

  /** The item is on the channel, behind the others, and its Record is done. */
  predicate Enqueued(s: State, s': State, t: nat, r: Recorded) {
    s'.queue == Sent(s.queue, r) && t in s'.clients && s'.clients[t] == Counting(false)
  }

  /** With room, no Record drops anything or waits: its item is the last on the channel. */
  lemma {:induction false} RoomIsUsed(cfg: Config, t: Tables, states: seq<State>, steps: seq<Step>, k: nat)
    requires Run(cfg, t, states, steps) && k < |steps| && steps[k].ByClient? && steps[k].action == TrySend
    requires !Full(cfg, states[k])
    ensures states[k + 1].stats == states[k].stats
    ensures exists r :: Sending(states[k], steps[k].t, r) && Enqueued(states[k], states[k + 1], steps[k].t, r)
  {
    var s := states[k];
    assert Enabled(cfg, s, steps[k]) && states[k + 1] == Apply(cfg, s, steps[k]);
    hide Sent, ResetTo, Prepared, DecidedAs;
    var r := s.clients[steps[k].t].item;
    assert Sending(s, steps[k].t, r) && Enqueued(s, states[k + 1], steps[k].t, r);
  }

  /** An item that is not critical never waits while dropping is on. */
  lemma {:induction false} OnlyCriticalWaits(cfg: Config, t: Tables, states: seq<State>, steps: seq<Step>, i: nat,
        caller: nat, r: Recorded)
    requires Run(cfg, t, states, steps) && i < |states| && WaitingForRoom(states[i], caller, r)
    ensures r.decision.priority == Critical || !cfg.dropOnFull
  {
    hide Run, WaitingForRoom, Sending;
    var m := WaitingSince(cfg, t, states, steps, i, caller, r);
  }

  /** How many Records have given up because their context ended. */
  function Cancellations(steps: seq<Step>): nat {
    if steps == [] then 0
    else
      var last := steps[|steps| - 1];
      Cancellations(steps[..|steps| - 1]) + if last.ByClient? && last.action.WaitCancelled? then 1 else 0
  }

  /** Callers that will be told of an error. */
  function Erring(clients: map<nat, Client>): set<nat> {
    set t | t in clients && clients[t] == Counting(true)
  }

  lemma ErringStep(cfg: Config, s: State, step: Step)
    requires Enabled(cfg, s, step)
    ensures var s' := Apply(cfg, s, step);
      s'.stats.enqueueErrorTotal + |Erring(s'.clients)|
        == s.stats.enqueueErrorTotal + |Erring(s.clients)|
           + if step.ByClient? && step.action.WaitCancelled? then 1 else 0
  {
    match step
    case ByClient(t, a) =>
      ClientErring(cfg, s, t, a);
    case ByConsumer(a) =>
      ConsumerStats(cfg, s, a);
      ConsumerTouches(cfg, s, a);
      hide ConsumerApply, ConsumerEnabled;
      assert Erring(Apply(cfg, s, step).clients) == Erring(s.clients);
  }

  lemma ClientErring(cfg: Config, s: State, t: nat, a: ClientAction)
    requires ClientEnabled(cfg, s, t, a)
    ensures var s' := ClientApply(cfg, s, t, a);
      s'.stats.enqueueErrorTotal + |Erring(s'.clients)|
        == s.stats.enqueueErrorTotal + |Erring(s.clients)| + if a.WaitCancelled? then 1 else 0
  {
    var s' := ClientApply(cfg, s, t, a);
    ClientTouches(cfg, s, t, a);
    OwnErring(cfg, s, t, a);
    hide ClientApply, ClientEnabled, Sends, Erring;
    ErringUpdate(s.clients, t, s'.clients[t]);
  }

  lemma ErringIs(clients: map<nat, Client>, u: nat)
    ensures u in Erring(clients) <==> u in clients && clients[u] == Counting(true)
  {
  }

  lemma SetMoves(before: set<nat>, after: set<nat>, t: nat)
    requires forall u :: u != t ==> (u in after <==> u in before)
    ensures |after| + (if t in before then 1 else 0) == |before| + if t in after then 1 else 0
  {
    var others := before - {t};
    assert t in after ==> after == others + {t};
    assert t !in after ==> after == others;
    assert t in before ==> before == others + {t};
    assert t !in before ==> before == others;
  }

  lemma ErringUpdate(clients: map<nat, Client>, t: nat, c: Client)
    ensures |Erring(clients[t := c])| + (if t in clients && clients[t] == Counting(true) then 1 else 0)
      == |Erring(clients)| + if c == Counting(true) then 1 else 0
  {
    hide Erring;
    forall u ensures u != t ==> (u in Erring(clients[t := c]) <==> u in Erring(clients)) {
      ErringIs(clients, u);
      ErringIs(clients[t := c], u);
    }
    ErringIs(clients, t);
    ErringIs(clients[t := c], t);
    SetMoves(Erring(clients), Erring(clients[t := c]), t);
  }

  lemma OwnErring(cfg: Config, s: State, t: nat, a: ClientAction)
    requires ClientEnabled(cfg, s, t, a)
    ensures var s' := ClientApply(cfg, s, t, a);
      var was := t in s.clients && s.clients[t] == Counting(true);
      && t in s'.clients && (s'.clients[t] == Counting(true) <==> a.WaitCancelled?)
      && s'.stats.enqueueErrorTotal == s.stats.enqueueErrorTotal + (if was then 1 else 0)
  {
    hide Sent, ResetTo, Prepared, DecidedAs;
  }

  /** Records are told of an error exactly as often as a context ended while one was waiting for room. */
  lemma {:induction false} ErrorsAreCancellations(cfg: Config, t: Tables, states: seq<State>, steps: seq<Step>, i: nat)
    requires Run(cfg, t, states, steps) && i < |states|
    ensures states[i].stats.enqueueErrorTotal + |Erring(states[i].clients)| == Cancellations(steps[..i])
  {
    hide Enabled, Apply, Erring;
    if i == 0 {
      assert Erring(map[]) == {} by { NoneErring(); }
    } else {
      ErrorsAreCancellations(cfg, t, states, steps, i - 1);
      assert Enabled(cfg, states[i - 1], steps[i - 1]) && states[i] == Apply(cfg, states[i - 1], steps[i - 1]);
      ErringStep(cfg, states[i - 1], steps[i - 1]);
      assert steps[..i][..i - 1] == steps[..i - 1];
    }
  }

  lemma NoneErring()
    ensures Erring(map[]) == {}
  {
  }

  // ----- When the consumer flushes -----

  /** The first attempt of a flush. */
  predicate FirstAttempt(pc: ConsumerPc) {
    pc.Attempting? && pc.attempt == 1
  }

  /** An item has filled a batch, or a tick or the end of a drain finds something pending. */
  predicate CallsForFlush(cfg: Config, s: State, step: Step, s': State) {
    && step.ByConsumer?
    && (|| (step.act.ReceiveItem? && Pending(s'.queue) >= cfg.batchSize)
        || ((step.act.TickerFires? || step.act.DrainEnd?) && Pending(s.queue) > 0))
  }

  /**
   In every run a flush begins exactly when an item fills a batch, a tick finds something
   pending, or a drain for a Flush, a Reset or a Close has ended with something pending.
   */
  lemma {:induction false} FlushesBegin(cfg: Config, t: Tables, states: seq<State>, steps: seq<Step>, k: nat)
    requires ValidConfig(cfg) && Run(cfg, t, states, steps) && k < |steps|
    ensures FirstAttempt(states[k + 1].pc) && !FirstAttempt(states[k].pc) <==>
      CallsForFlush(cfg, states[k], steps[k], states[k + 1])
    ensures steps[k] == ByConsumer(ReceiveItem) && Pending(states[k + 1].queue) < cfg.batchSize ==>
      states[k + 1].pc.Selecting?
  {
    ControlAlways(cfg, t, states, steps, k);
    var s := states[k];
    assert Enabled(cfg, s, steps[k]) && states[k + 1] == Apply(cfg, s, steps[k]);
    hide Run, FifoInv, ReplyInv, GateInv, StatsInv;
    if steps[k].ByClient? {
      ClientTouches(cfg, s, steps[k].t, steps[k].action);
      hide ClientApply, ClientEnabled;
    } else if Receiving(steps[k].act) {
      ReceivingBegins(cfg, s, steps[k].act);
      hide ConsumerApply, ConsumerEnabled;
    } else {
      FlushingBeginsNothing(cfg, s, steps[k].act);
      hide ConsumerApply, ConsumerEnabled;
    }
  }

  lemma ReceivingBegins(cfg: Config, s: State, a: ConsumerAction)
    requires cfg.batchSize > 0 && ConsumerEnabled(cfg, s, a) && Receiving(a)
    ensures !FirstAttempt(s.pc)
    ensures FirstAttempt(ConsumerApply(cfg, s, a).pc) <==>
      CallsForFlush(cfg, s, ByConsumer(a), ConsumerApply(cfg, s, a))
    ensures a.ReceiveItem? && Pending(ConsumerApply(cfg, s, a).queue) < cfg.batchSize ==>
      ConsumerApply(cfg, s, a).pc.Selecting?
  {
    hide Taken, ReplyHasRoom;
  }

  lemma FlushingBeginsNothing(cfg: Config, s: State, a: ConsumerAction)
    requires ConsumerEnabled(cfg, s, a) && !Receiving(a)
    requires PcInv(cfg, s.queue, s.pc, s.gate.drained, s.stats.failedFlushes)
    ensures !FirstAttempt(ConsumerApply(cfg, s, a).pc)
  {
    hide Taken, Batched, EventsIn, RollupsIn, Acknowledged, ReplyHasRoom;
  }

  predicate LastAttemptFails(cfg: Config, s: State, step: Step) {
    FailsAttempt(step) && (s.pc.Attempting? || s.pc.HalfDone?) && s.pc.attempt == cfg.retryMaxAttempts
  }

  predicate CloseRunsOut(s: State, step: Step) {
    step == ByConsumer(WaitInterrupted) && s.pc.Waiting? && s.pc.cause == Closing
  }

  /** A flush ends in failure only after all the attempts it is allowed, but for a Close that runs out of time. */
  lemma {:induction false} FlushesFailLate(cfg: Config, t: Tables, states: seq<State>, steps: seq<Step>, k: nat)
    requires ValidConfig(cfg) && Run(cfg, t, states, steps) && k < |steps|
    requires states[k + 1].stats.failedFlushes > states[k].stats.failedFlushes
    ensures steps[k].ByConsumer?
    ensures LastAttemptFails(cfg, states[k], steps[k]) || CloseRunsOut(states[k], steps[k])
    ensures states[k + 1].queue == states[k].queue
  {
    var s := states[k];
    assert Enabled(cfg, s, steps[k]) && states[k + 1] == Apply(cfg, s, steps[k]);
    if steps[k].ByClient? {
      ClientTouches(cfg, s, steps[k].t, steps[k].action);
      hide ClientApply, ClientEnabled;
    } else {
      hide Taken, Batched, EventsIn, RollupsIn, Acknowledged, Pending, ReplyHasRoom;
    }
  }

  // ----- Flush after Close -----

  /** A Flush or a Reset that has not looked before the recorder was closed, and so will be refused. */
  predicate LateFlush(s: State, t: nat) {
    s.gate.closed && t in s.clients
    && (s.clients[t].FlushCalled? || (s.clients[t].FlushReturned? && !s.clients[t].ok)
        || (s.clients[t].ResetReturned? && !s.clients[t].ok))
  }

  lemma LateFlushStep(cfg: Config, s: State, t: nat, step: Step)
    requires LateFlush(s, t) && Enabled(cfg, s, step)
    ensures LateFlush(Apply(cfg, s, step), t)
  {
    hide Sent, ResetTo, Prepared, DecidedAs;
    match step
    case ByClient(u, a) =>
      ClientTouches(cfg, s, u, a);
      if u != t { hide ClientApply, ClientEnabled; }
    case ByConsumer(a) =>
      ConsumerTouches(cfg, s, a);
      hide ConsumerApply, ConsumerEnabled;
  }

  /** A Flush or Reset called after the recorder was closed never succeeds. */
  lemma {:induction false} FlushAfterCloseFails(cfg: Config, t: Tables, states: seq<State>, steps: seq<Step>, i: nat,
        j: nat, caller: nat)
    requires Run(cfg, t, states, steps) && i < j < |states| && states[i].gate.closed
    requires steps[i].ByClient? && steps[i].t == caller && (steps[i].action.CallFlush? || steps[i].action.CallReset?)
    ensures LateFlush(states[j], caller)
  {
    hide Enabled, Apply, LateFlush;
    assert Enabled(cfg, states[j - 1], steps[j - 1]) && states[j] == Apply(cfg, states[j - 1], steps[j - 1]);
    if i < j - 1 {
      FlushAfterCloseFails(cfg, t, states, steps, i, j - 1, caller);
      LateFlushStep(cfg, states[j - 1], caller, steps[j - 1]);
    } else {
      LateFlushStarts(cfg, states[i], steps[i]);
    }
  }

  lemma LateFlushStarts(cfg: Config, s: State, step: Step)
    requires s.gate.closed && step.ByClient? && (step.action.CallFlush? || step.action.CallReset?)
    requires Enabled(cfg, s, step)
    ensures LateFlush(Apply(cfg, s, step), step.t)
  {
  }
}
