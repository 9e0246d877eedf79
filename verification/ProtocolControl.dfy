/** Control: where the consumer can be, who is told what, closing, and the counters. */
module ProtocolControl {
  import opened AuditEvent
  import opened Recording
  import opened Repository
  import opened Protocol
  import opened ProtocolFifo

  // ----- The consumer's place -----

  /** What the consumer is flushing for, if it is. */
  function CauseOf(pc: ConsumerPc): Option<Cause> {
    if pc.Selecting? || pc.Exited? then None else Some(pc.cause)
  }

  predicate FlushingFor(pc: ConsumerPc, cause: Cause) {
    CauseOf(pc) == Some(cause) && !pc.Draining?
  }

  /**
   Attempts are numbered within bounds; a flush is half done only if it has rollups left
   to store, and for a full batch only if the batch is full; only requests and closes are
   answered; an answer of success means the buffers were emptied; after the final drain
   nothing more is received; and until a flush fails the buffers keep to the batch size.
   */
  predicate PcInv(cfg: Config, q: Queue, pc: ConsumerPc, drained: nat, failed: nat) {
    && q.acked <= q.taken
    && (pc.Attempting? || pc.HalfDone? ==> 1 <= pc.attempt <= cfg.retryMaxAttempts)
    && (pc.Waiting? ==> 1 <= pc.attempt < cfg.retryMaxAttempts)
    && (pc.HalfDone? ==> q.rollups != [])
    && (FlushingFor(pc, BatchFull) ==> Pending(q) >= cfg.batchSize)
    && (pc.Draining? || pc.Replying? ==> pc.cause.Request? || pc.cause.Closing?)
    && (pc.Replying? || pc.Exited? ==> if pc.ok then q.acked == q.taken && Pending(q) == 0 else failed > 0)
    && (FlushingFor(pc, Closing) || pc.Exited? ==> q.taken == drained)
    && (failed == 0 ==>
      && (pc.Selecting? ==> Pending(q) < cfg.batchSize)
      && (FlushingFor(pc, BatchFull) ==> Pending(q) <= cfg.batchSize + 1))
  }

  lemma TakeAddsAtMostTwo(q: Queue)
    requires q.chan != []
    ensures Pending(Taken(q)) <= Pending(q) + 2
  {
  }

  lemma SomethingPending(rs: seq<Recorded>)
    requires rs != [] && forall i :: 0 <= i < |rs| ==> Sendable(rs[i])
    ensures |AllEvents(rs)| + |AllRollups(rs)| > 0
  {
    var last := rs[|rs| - 1];
    assert Sendable(last);
    assert AllEvents(rs) == AllEvents(rs[..|rs| - 1]) + EventsOf(last);
    assert AllRollups(rs) == AllRollups(rs[..|rs| - 1]) + RollupsOf(last);
  }

  /** Empty buffers mean that everything received has been flushed. */
  lemma NothingPending(q: Queue)
    requires Fifo(q) && Pending(q) == 0 && AllSendable(q)
    ensures q.acked == q.taken
  {
    var part := q.sent[q.acked..q.taken];
    if part != [] { SomethingPending(part); }
  }

  /** A flush starts, or ends at once because there is nothing to flush. */
  lemma StartFlushPc(cfg: Config, s: State, cause: Cause)
    requires ValidConfig(cfg) && s.queue.acked <= s.queue.taken
    requires Pending(s.queue) == 0 ==> s.queue.acked == s.queue.taken
    requires cause.Closing? ==> s.queue.taken == s.gate.drained
    requires cause.BatchFull? ==> Pending(s.queue) >= cfg.batchSize
    requires cause.BatchFull? && s.stats.failedFlushes == 0 ==> Pending(s.queue) <= cfg.batchSize + 1
    ensures var s' := StartFlush(s, cause); PcInv(cfg, s'.queue, s'.pc, s'.gate.drained, s'.stats.failedFlushes)
  {
  }

  predicate Receiving(a: ConsumerAction) {
    a.ReceiveItem? || a.ReceiveFlush? || a.TickerFires? || a.ReceiveClose? || a.DrainItem? || a.DrainEnd?
  }

  /** Receiving an item, or draining one, adds to the buffers. */
  lemma TakingKeepsPc(cfg: Config, s: State, a: ConsumerAction)
    requires ValidConfig(cfg) && FifoInv(s) && PcInv(cfg, s.queue, s.pc, s.gate.drained, s.stats.failedFlushes)
    requires ConsumerEnabled(cfg, s, a) && (a.ReceiveItem? || a.DrainItem?)
    ensures var s' := ConsumerApply(cfg, s, a); PcInv(cfg, s'.queue, s'.pc, s'.gate.drained, s'.stats.failedFlushes)
  {
    var q := s.queue;
    assert q.chan != [];
    TakeKeepsFifo(q);
    TakeAddsAtMostTwo(q);
    if Pending(Taken(q)) == 0 { NothingPending(Taken(q)); }
    hide Fifo, AllSendable, ClientsReady, StartFlush, ItemEvents, ItemRollups;
    if a.ReceiveItem? && Pending(Taken(q)) >= cfg.batchSize { StartFlushPc(cfg, s.(queue := Taken(q)), BatchFull); }
  }

  lemma StartingKeepsPc(cfg: Config, s: State, a: ConsumerAction)
    requires ValidConfig(cfg) && FifoInv(s) && PcInv(cfg, s.queue, s.pc, s.gate.drained, s.stats.failedFlushes)
    requires ConsumerEnabled(cfg, s, a) && (a.TickerFires? || a.DrainEnd?)
    ensures var s' := ConsumerApply(cfg, s, a); PcInv(cfg, s'.queue, s'.pc, s'.gate.drained, s'.stats.failedFlushes)
  {
    var q := s.queue;
    if Pending(q) == 0 { NothingPending(q); }
    assert q.chan == [] ==> q.taken == |q.sent|;
    hide Fifo, AllSendable, ClientsReady, StartFlush;
    if a.TickerFires? {
      StartFlushPc(cfg, s, Tick);
    } else {
      StartFlushPc(cfg, s.(gate := s.gate.(drained := |q.sent|)), s.pc.cause);
    }
  }

  lemma ReceivingKeepsPc(cfg: Config, s: State, a: ConsumerAction)
    requires ValidConfig(cfg) && FifoInv(s) && PcInv(cfg, s.queue, s.pc, s.gate.drained, s.stats.failedFlushes)
    requires ConsumerEnabled(cfg, s, a) && Receiving(a)
    ensures var s' := ConsumerApply(cfg, s, a); PcInv(cfg, s'.queue, s'.pc, s'.gate.drained, s'.stats.failedFlushes)
  {
    hide FifoInv, StartFlush, Taken;
    if a.ReceiveItem? || a.DrainItem? {
      TakingKeepsPc(cfg, s, a);
    } else if a.TickerFires? || a.DrainEnd? {
      StartingKeepsPc(cfg, s, a);
    }
  }

  lemma FlushingKeepsPc(cfg: Config, s: State, a: ConsumerAction)
    requires ValidConfig(cfg) && PcInv(cfg, s.queue, s.pc, s.gate.drained, s.stats.failedFlushes)
    requires ConsumerEnabled(cfg, s, a) && !Receiving(a)
    ensures var s' := ConsumerApply(cfg, s, a); PcInv(cfg, s'.queue, s'.pc, s'.gate.drained, s'.stats.failedFlushes)
  {
    hide StartFlush, Taken, Batched, EventsIn, RollupsIn;
  }

  lemma {:induction false} ConsumerKeepsPc(cfg: Config, s: State, a: ConsumerAction)
    requires ValidConfig(cfg) && FifoInv(s) && PcInv(cfg, s.queue, s.pc, s.gate.drained, s.stats.failedFlushes)
    requires ConsumerEnabled(cfg, s, a)
    ensures var s' := ConsumerApply(cfg, s, a); PcInv(cfg, s'.queue, s'.pc, s'.gate.drained, s'.stats.failedFlushes)
  {
    hide FifoInv, PcInv;
    if Receiving(a) { ReceivingKeepsPc(cfg, s, a); } else { FlushingKeepsPc(cfg, s, a); }
  }

  lemma ClientKeepsPc(cfg: Config, s: State, t: nat, a: ClientAction)
    requires PcInv(cfg, s.queue, s.pc, s.gate.drained, s.stats.failedFlushes) && ClientEnabled(cfg, s, t, a)
    ensures var s' := ClientApply(cfg, s, t, a); PcInv(cfg, s'.queue, s'.pc, s'.gate.drained, s'.stats.failedFlushes)
  {
    ClientTouches(cfg, s, t, a);
    hide ClientApply, ClientEnabled, Sends;
  }

  // ----- Flush and Reset -----

  /** What has happened to the items that were there when a Flush or a Reset began. */
  predicate CallerOk(q: Queue, db: Database, replies: map<nat, bool>, t: nat, c: Client) {
    match c
    case FlushCalled(before, _) => before <= |q.sent| && t !in replies
    case FlushOffered(before, _) => before <= |q.sent| && t !in replies
    case FlushAwaiting(before, _) => before <= |q.sent| && (t in replies && replies[t] ==> before <= q.acked)
    case FlushReturned(before, ok) => before <= |q.sent| && (ok ==> before <= q.acked)
    case Resetting(before, _) => before <= q.acked
    case ResetReturned(before, ok) => before <= |q.sent| &&
      (ok ==> before <= db.wiped && |db.base.events| == 1 && db.base.rollups == map[])
    case _ => true
  }

  predicate CallersOk(s: State) {
    forall t :: t in s.clients ==> CallerOk(s.queue, s.db, s.gate.replies, t, s.clients[t])
  }

  /** The request being served is one caller's, who has not been answered. */
  predicate RequestOk(s: State) {
    var cause := CauseOf(s.pc);
    cause.Some? && cause.value.Request? ==>
      var t := cause.value.client;
      && t in s.clients && t !in s.gate.replies && !s.clients[t].FlushCalled? && !s.clients[t].FlushOffered?
      && (!s.pc.Draining? && s.clients[t].FlushAwaiting? ==> s.clients[t].before <= s.queue.taken)
  }

  predicate ReplyInv(s: State) {
    && s.gate.replies.Keys <= s.clients.Keys
    && s.db.wiped <= s.queue.acked <= s.queue.taken <= |s.queue.sent|
    && CallersOk(s) && RequestOk(s)
  }

  /** Progress elsewhere does not disturb a caller. */
  lemma CallerStays(s: State, s': State, t: nat)
    requires t in s.clients && t in s'.clients && s'.clients[t] == s.clients[t]
    requires CallerOk(s.queue, s.db, s.gate.replies, t, s.clients[t])
    requires |s.queue.sent| <= |s'.queue.sent| && s.queue.acked <= s'.queue.acked
    requires s.db.wiped <= s'.db.wiped
    requires s'.db.base == s.db.base || (|s'.db.base.events| == 1 && s'.db.base.rollups == map[])
    requires t in s.gate.replies ==> t in s'.gate.replies && s'.gate.replies[t] == s.gate.replies[t]
    requires t !in s.gate.replies && t in s'.gate.replies ==> !s.clients[t].FlushCalled? && !s.clients[t].FlushOffered?
    requires t !in s.gate.replies && t in s'.gate.replies && s'.gate.replies[t] && s.clients[t].FlushAwaiting? ==>
      s.clients[t].before <= s'.queue.acked
    ensures CallerOk(s'.queue, s'.db, s'.gate.replies, t, s'.clients[t])
  {
  }

  lemma OwnStepOk(cfg: Config, s: State, t: nat, a: ClientAction)
    requires ReplyInv(s) && ClientEnabled(cfg, s, t, a)
    ensures var s' := ClientApply(cfg, s, t, a);
      t in s'.clients ==> CallerOk(s'.queue, s'.db, s'.gate.replies, t, s'.clients[t])
  {
    hide RequestOk, CallersOk, Prepared, StoredForm, DecidedAs, ItemOf;
    if t in s.clients { OneCallerOk(s, t); }
  }

  lemma OneCallerOk(s: State, t: nat)
    requires CallersOk(s) && t in s.clients
    ensures CallerOk(s.queue, s.db, s.gate.replies, t, s.clients[t])
  {
  }

  lemma ClientKeepsRequest(cfg: Config, s: State, t: nat, a: ClientAction)
    requires ReplyInv(s) && ClientEnabled(cfg, s, t, a)
    ensures RequestOk(ClientApply(cfg, s, t, a))
  {
    ClientTouches(cfg, s, t, a);
    if t in s.clients && !s.clients[t].FlushCalled? && !s.clients[t].FlushOffered? { OwnRequestStep(cfg, s, t, a); }
    hide CallersOk, ClientApply, ClientEnabled, Sends;
  }

  /** Someone awaiting a reply stops waiting only to return. */
  lemma OwnRequestStep(cfg: Config, s: State, t: nat, a: ClientAction)
    requires ClientEnabled(cfg, s, t, a) && t in s.clients && !s.clients[t].FlushCalled? && !s.clients[t].FlushOffered?
    ensures var clients := ClientApply(cfg, s, t, a).clients;
      t in clients ==> !clients[t].FlushCalled? && !clients[t].FlushOffered? && !clients[t].FlushAwaiting?
  {
    hide Sent, ResetTo, Prepared, DecidedAs;
  }

  lemma ClientKeepsReplies(cfg: Config, s: State, t: nat, a: ClientAction)
    requires ReplyInv(s) && ClientEnabled(cfg, s, t, a)
    ensures ReplyInv(ClientApply(cfg, s, t, a))
  {
    var s' := ClientApply(cfg, s, t, a);
    OwnStepOk(cfg, s, t, a);
    ClientKeepsRequest(cfg, s, t, a);
    ClientTouches(cfg, s, t, a);
    ClientDatabase(cfg, s, t, a);
    hide RequestOk, CallerOk, ClientApply, ClientEnabled, Sends, Prepared;
    forall u | u in s'.clients ensures CallerOk(s'.queue, s'.db, s'.gate.replies, u, s'.clients[u]) {
      if u != t { CallerStays(s, s', u); }
    }
  }

  /** Which request the consumer is serving after receiving something. */
  lemma ServedAfterReceiving(cfg: Config, s: State, a: ConsumerAction)
    requires ConsumerEnabled(cfg, s, a) && Receiving(a)
    ensures var (pc, pc') := (s.pc, ConsumerApply(cfg, s, a).pc);
      && (a.ReceiveItem? || a.TickerFires? || a.ReceiveClose? ==> CauseOf(pc').None? || !CauseOf(pc').value.Request?)
      && (a.ReceiveFlush? ==> pc' == Draining(Request(a.client)))
      && (a.DrainItem? ==> pc' == pc)
      && (a.DrainEnd? ==> s.queue.chan == [] && pc.Draining? && !pc'.Draining?)
      && (a.DrainEnd? ==> CauseOf(pc').None? || CauseOf(pc') == CauseOf(pc))
  {
    hide Taken, Prepared, Batched;
  }

  lemma ReceivingKeepsRequest(cfg: Config, s: State, a: ConsumerAction)
    requires ReplyInv(s) && Fifo(s.queue) && ConsumerEnabled(cfg, s, a) && Receiving(a)
    ensures RequestOk(ConsumerApply(cfg, s, a))
  {
    assert s.queue.chan == [] ==> s.queue.taken == |s.queue.sent|;
    ServedAfterReceiving(cfg, s, a);
    ConsumerTouches(cfg, s, a);
    ConsumerQueue(cfg, s, a);
    assert a.ReceiveFlush? ==> CallerOk(s.queue, s.db, s.gate.replies, a.client, s.clients[a.client]);
    assert a.DrainEnd? && s.pc.cause.Request? && s.pc.cause.client in s.clients ==>
      CallerOk(s.queue, s.db, s.gate.replies, s.pc.cause.client, s.clients[s.pc.cause.client]);
    hide Fifo, ConsumerApply, ConsumerEnabled, ItemEvents, ItemRollups, CallersOk;
  }

  lemma FlushingKeepsRequest(cfg: Config, s: State, a: ConsumerAction)
    requires ReplyInv(s) && ConsumerEnabled(cfg, s, a) && !Receiving(a)
    ensures RequestOk(ConsumerApply(cfg, s, a))
  {
    hide CallersOk, CallerOk, Taken, StartFlush, Batched, EventsIn, RollupsIn;
  }

  /** A reply of success reaches a caller whose items are flushed. */
  lemma ReplyKeepsCallers(cfg: Config, s: State, t: nat)
    requires ReplyInv(s) && s.pc.Replying? && ReplyHasRoom(s) && t in s.clients
    requires PcInv(cfg, s.queue, s.pc, s.gate.drained, s.stats.failedFlushes)
    ensures var s' := ConsumerApply(cfg, s, Reply); CallerOk(s'.queue, s'.db, s'.gate.replies, t, s'.clients[t])
  {
    var s' := ConsumerApply(cfg, s, Reply);
    assert CallerOk(s.queue, s.db, s.gate.replies, t, s.clients[t]);
    hide CallerOk, CallersOk;
    CallerStays(s, s', t);
  }

  /** A consumer step sends nothing, and what it has received and flushed only grows. */
  lemma ConsumerProgress(cfg: Config, s: State, a: ConsumerAction)
    requires s.queue.acked <= s.queue.taken <= |s.queue.sent| && Fifo(s.queue) && ConsumerEnabled(cfg, s, a)
    ensures var q := ConsumerApply(cfg, s, a).queue;
      q.sent == s.queue.sent && s.queue.acked <= q.acked <= q.taken <= |q.sent|
  {
    ConsumerQueue(cfg, s, a);
    assert s.queue.chan != [] ==> s.queue.taken < |s.queue.sent|;
    hide Fifo, ConsumerApply, ConsumerEnabled;
  }

  lemma {:induction false} ConsumerKeepsReplies(cfg: Config, s: State, a: ConsumerAction)
    requires ReplyInv(s) && FifoInv(s) && ConsumerEnabled(cfg, s, a)
    requires PcInv(cfg, s.queue, s.pc, s.gate.drained, s.stats.failedFlushes)
    ensures ReplyInv(ConsumerApply(cfg, s, a))
  {
    var s' := ConsumerApply(cfg, s, a);
    ConsumerProgress(cfg, s, a);
    ConsumerTouches(cfg, s, a);
    if Receiving(a) { ReceivingKeepsRequest(cfg, s, a); } else { FlushingKeepsRequest(cfg, s, a); }
    hide FifoInv, Fifo, ConsumerApply, PcInv, RequestOk;
    forall u | u in s'.clients ensures CallerOk(s'.queue, s'.db, s'.gate.replies, u, s'.clients[u]) {
      assert CallerOk(s.queue, s.db, s.gate.replies, u, s.clients[u]);
      if a.Reply? {
        ReplyKeepsCallers(cfg, s, u);
      } else if !(a.ReceiveFlush? && a.client == u) {
        CallerStays(s, s', u);
      }
    }
  }

  // ----- Closing -----

  predicate HoldsLock(c: Client) {
    c.CloseLocked? || c.CloseSending?
  }

  predicate CloserOk(gate: Gate, pc: ConsumerPc, t: nat, c: Client) {
    && (HoldsLock(c) ==> gate.mutex == Some(t))
    && (c.CloseSending? ==> gate.closed && gate.closeSent == 0)
    && (c.CloseReturned? && c.result.Finished? ==> pc == Exited(c.result.ok))
  }

  /** At most one close message and one result; the result is the consumer's last word. */
  predicate GateCounts(gate: Gate, pc: ConsumerPc) {
    && gate.closeSent <= 1 && gate.closeCh <= gate.closeSent
    && (!gate.closed ==> gate.closeSent == 0)
    && (CauseOf(pc) == Some(Closing) || pc.Exited? ==> gate.closeSent == 1 && gate.closeCh == 0)
    && gate.doneSent == (if pc.Exited? then 1 else 0)
    && |gate.doneCh| <= gate.doneSent
    && (gate.doneCh != [] ==> pc == Exited(gate.doneCh[0]))
  }

  predicate GateInv(s: State) {
    GateCounts(s.gate, s.pc) && forall t :: t in s.clients ==> CloserOk(s.gate, s.pc, t, s.clients[t])
  }

  lemma ClientKeepsCounts(cfg: Config, s: State, t: nat, a: ClientAction)
    requires GateCounts(s.gate, s.pc) && ClientEnabled(cfg, s, t, a)
    requires t in s.clients ==> CloserOk(s.gate, s.pc, t, s.clients[t])
    ensures GateCounts(ClientApply(cfg, s, t, a).gate, s.pc)
  {
    hide Prepared, DecidedAs, ItemOf, ResetTo, Sent, AfterFlush;
  }

  /** The lock changes hands only between its holder and someone who finds it free. */
  lemma ClientKeepsLock(cfg: Config, s: State, t: nat, a: ClientAction)
    requires ClientEnabled(cfg, s, t, a)
    ensures var (gate, gate') := (s.gate, ClientApply(cfg, s, t, a).gate);
      gate'.mutex != gate.mutex || gate'.closeSent != gate.closeSent ==>
        (gate.mutex.None? && gate'.closeSent == gate.closeSent) || (t in s.clients && HoldsLock(s.clients[t]))
  {
    hide Prepared, DecidedAs, ItemOf, ResetTo, Sent, AfterFlush;
  }

  lemma OwnCloserOk(cfg: Config, s: State, t: nat, a: ClientAction)
    requires GateCounts(s.gate, s.pc) && ClientEnabled(cfg, s, t, a)
    requires t in s.clients ==> CloserOk(s.gate, s.pc, t, s.clients[t])
    ensures var s' := ClientApply(cfg, s, t, a); t in s'.clients ==> CloserOk(s'.gate, s'.pc, t, s'.clients[t])
  {
    hide Prepared, DecidedAs, ItemOf, ResetTo, Sent;
  }

  lemma ClientKeepsGate(cfg: Config, s: State, t: nat, a: ClientAction)
    requires GateInv(s) && ClientEnabled(cfg, s, t, a)
    ensures GateInv(ClientApply(cfg, s, t, a))
  {
    assert t in s.clients ==> CloserOk(s.gate, s.pc, t, s.clients[t]);
    ClientTouches(cfg, s, t, a);
    ClientKeepsCounts(cfg, s, t, a);
    ClientKeepsLock(cfg, s, t, a);
    OwnCloserOk(cfg, s, t, a);
    hide ClientApply, ClientEnabled, GateCounts, Sends;
    var s' := ClientApply(cfg, s, t, a);
    forall u | u in s'.clients ensures CloserOk(s'.gate, s'.pc, u, s'.clients[u]) {
      if u in s.clients { assert CloserOk(s.gate, s.pc, u, s.clients[u]); }
    }
  }

  lemma ConsumerKeepsCounts(cfg: Config, s: State, a: ConsumerAction)
    requires GateCounts(s.gate, s.pc) && ConsumerEnabled(cfg, s, a)
    ensures GateCounts(ConsumerApply(cfg, s, a).gate, ConsumerApply(cfg, s, a).pc)
  {
    hide Taken, Acknowledged, Batched, EventsIn, RollupsIn;
  }

  lemma ConsumerKeepsGate(cfg: Config, s: State, a: ConsumerAction)
    requires GateInv(s) && ConsumerEnabled(cfg, s, a)
    ensures GateInv(ConsumerApply(cfg, s, a))
  {
    ConsumerKeepsCounts(cfg, s, a);
    ConsumerTouches(cfg, s, a);
    ConsumerQueue(cfg, s, a);
    hide ConsumerApply, ConsumerEnabled, GateCounts;
    var s' := ConsumerApply(cfg, s, a);
    forall u | u in s'.clients ensures CloserOk(s'.gate, s'.pc, u, s'.clients[u]) {
      assert CloserOk(s.gate, s.pc, u, s.clients[u]);
    }
  }

  // ----- Counters -----

  /** Record calls whose item was sent or dropped but not yet counted. */
  function Uncounted(clients: map<nat, Client>): set<nat> {
    set t | t in clients && clients[t].Counting?
  }

  predicate StatsInv(s: State) {
    |s.queue.sent| + s.stats.droppedTotal == s.stats.enqueueTotal + s.stats.enqueueErrorTotal + |Uncounted(s.clients)|
  }

  lemma UncountedAfter(clients: map<nat, Client>, t: nat, c: Client)
    ensures var was := t in clients && clients[t].Counting?;
      |Uncounted(clients[t := c])| == |Uncounted(clients)| + (if c.Counting? then 1 else 0) - (if was then 1 else 0)
  {
    var before := Uncounted(clients);
    assert Uncounted(clients[t := c]) == if c.Counting? then before + {t} else before - {t};
  }

  lemma ClientKeepsStats(cfg: Config, s: State, t: nat, a: ClientAction)
    requires StatsInv(s) && ClientEnabled(cfg, s, t, a)
    ensures StatsInv(ClientApply(cfg, s, t, a))
  {
    ClientTouches(cfg, s, t, a);
    UncountedAfter(s.clients, t, ClientApply(cfg, s, t, a).clients[t]);
    hide Uncounted, Prepared, DecidedAs, ItemOf, ResetTo;
  }

  lemma ConsumerStats(cfg: Config, s: State, a: ConsumerAction)
    requires ConsumerEnabled(cfg, s, a)
    ensures var (was, now) := (s.stats, ConsumerApply(cfg, s, a).stats);
      && now.enqueueTotal == was.enqueueTotal && now.enqueueErrorTotal == was.enqueueErrorTotal
      && now.droppedTotal == was.droppedTotal
  {
    hide Taken, Acknowledged, Batched, EventsIn, RollupsIn;
  }

  lemma ConsumerKeepsStats(cfg: Config, s: State, a: ConsumerAction)
    requires StatsInv(s) && ConsumerEnabled(cfg, s, a)
    ensures StatsInv(ConsumerApply(cfg, s, a))
  {
    ConsumerTouches(cfg, s, a);
    ConsumerQueue(cfg, s, a);
    ConsumerStats(cfg, s, a);
    hide ConsumerApply, ConsumerEnabled;
    assert Uncounted(ConsumerApply(cfg, s, a).clients) == Uncounted(s.clients);
  }
}
