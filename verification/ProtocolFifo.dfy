/** Nothing is lost, duplicated or reordered between Record and the flushes. */
module ProtocolFifo {
  import opened AuditEvent
  import opened Recording
  import opened Repository
  import opened Store
  import opened Protocol

  // ----- What a step touches -----

  predicate Sends(cfg: Config, s: State, a: ClientAction) {
    a.WaitSend? || (a.TrySend? && |s.queue.chan| < cfg.channelSize)
  }

  lemma ClientTouches(cfg: Config, s: State, t: nat, a: ClientAction)
    requires ClientEnabled(cfg, s, t, a)
    ensures var s' := ClientApply(cfg, s, t, a);
      && s'.pc == s.pc && t in s'.clients && s'.clients == s.clients[t := s'.clients[t]]
      && (Sends(cfg, s, a) ==> t in s.clients && (s.clients[t].Decided? || s.clients[t].Blocked?))
      && s'.queue == (if Sends(cfg, s, a) then Sent(s.queue, s.clients[t].item) else s.queue)
      && s'.gate.replies == s.gate.replies && s'.gate.drained == s.gate.drained
      && s'.stats.failedFlushes == s.stats.failedFlushes
      && (s.gate.closed ==> s'.gate.closed)
      && (t in s.clients && Returned(s.clients[t]) ==> false)
  {
    hide Sent, ResetTo, AfterFlush, Prepared, DecidedAs;
  }

  lemma ClientDatabase(cfg: Config, s: State, t: nat, a: ClientAction)
    requires ClientEnabled(cfg, s, t, a)
    ensures ClientApply(cfg, s, t, a).db ==
      if !a.DoReset? || !a.commits then s.db
      else ResetTo(s.queue, StoredForm(Prepared(s.clients[t].event, a.random, a.now)))
  {
    hide Sent, ResetTo, AfterFlush, Prepared, DecidedAs;
  }

  predicate Returned(c: Client) {
    c.FlushReturned? || c.ResetReturned?
  }

  /** A consumer step sends nothing and resets nothing. */
  lemma ConsumerTouches(cfg: Config, s: State, a: ConsumerAction)
    requires ConsumerEnabled(cfg, s, a)
    ensures var s' := ConsumerApply(cfg, s, a);
      && s'.db.wiped == s.db.wiped && s'.db.base == s.db.base && s.db.torn <= s'.db.torn
      && s'.clients == (if a.ReceiveFlush? then
           s.clients[a.client := FlushAwaiting(s.clients[a.client].before, s.clients[a.client].marker)] else s.clients)
      && s'.gate.replies == (if a.Reply? && s.pc.cause.Request? then
           s.gate.replies[s.pc.cause.client := s.pc.ok] else s.gate.replies)
      && s'.gate.closed == s.gate.closed && s'.gate.mutex == s.gate.mutex && s'.gate.closeSent == s.gate.closeSent
    ensures a.ReceiveFlush? ==> a.client in s.clients && s.clients[a.client].FlushOffered?
  {
    hide Taken, Acknowledged, Batched, InsertAll, MergedInto, Rows, ReplyHasRoom;
  }

  lemma ConsumerQueue(cfg: Config, s: State, a: ConsumerAction)
    requires ConsumerEnabled(cfg, s, a)
    ensures !s.pc.Exited?
    ensures a.ReceiveItem? || a.DrainItem? ==> s.queue.chan != []
    ensures ConsumerApply(cfg, s, a).queue ==
      if a.ReceiveItem? || a.DrainItem? then Taken(s.queue)
      else if a.HalfSucceeds? || (a.AttemptSucceeds? && OneTransaction(cfg, s.queue)) then Acknowledged(s.queue)
      else s.queue
  {
    hide Taken, Acknowledged, Batched, EventsIn, ReplyHasRoom;
  }

  // ----- The queue -----

  /** The sent items are the flushed ones, then the buffered ones, then those in the channel. */
  ghost predicate Fifo(q: Queue) {
    && q.acked <= q.taken <= |q.sent|
    && q.chan == Items(q.sent[q.taken..])
    && q.events == AllEvents(q.sent[q.acked..q.taken])
    && q.rollups == AllRollups(q.sent[q.acked..q.taken])
    && q.flushedEvents == AllEvents(q.sent[..q.acked])
    && q.flushedRollups == AllRollups(q.sent[..q.acked])
  }

  predicate Sendable(r: Recorded) {
    IsPrepared(r.event) && (r.decision.persist || r.decision.countMetric)
  }

  predicate AllSendable(q: Queue) {
    forall i :: 0 <= i < |q.sent| ==> Sendable(q.sent[i])
  }

  predicate ClientsReady(clients: map<nat, Client>) {
    forall t :: t in clients ==> ClientReady(clients[t])
  }

  predicate ClientReady(c: Client) {
    c.Decided? || c.Blocked? ==> Sendable(c.item)
  }

  ghost predicate FifoInv(s: State) {
    Fifo(s.queue) && AllSendable(s.queue) && ClientsReady(s.clients)
  }

  /** A prepared event always has an id, so the consumer's test is the policy's decision. */
  lemma IdTestIsPersist(r: Recorded)
    requires IsPrepared(r.event)
    ensures ItemEvents(ItemOf(r)) == EventsOf(r) && ItemRollups(ItemOf(r)) == RollupsOf(r)
  {
  }

  lemma SendKeepsFifo(q: Queue, r: Recorded)
    requires Fifo(q)
    ensures Fifo(Sent(q, r))
  {
    var q' := Sent(q, r);
    hide AllEvents, AllRollups;
    assert q'.sent[q.taken..] == q.sent[q.taken..] + [r];
    assert q'.sent[q.acked..q.taken] == q.sent[q.acked..q.taken];
    assert q'.sent[..q.acked] == q.sent[..q.acked];
  }

  lemma AllOneMore(rs: seq<Recorded>, r: Recorded)
    ensures AllEvents(rs + [r]) == AllEvents(rs) + EventsOf(r) && AllRollups(rs + [r]) == AllRollups(rs) + RollupsOf(r)
  {
    assert (rs + [r])[..|rs|] == rs;
  }

  lemma TakeKeepsFifo(q: Queue)
    requires Fifo(q) && q.chan != [] && AllSendable(q)
    ensures Fifo(Taken(q))
  {
    hide AllEvents, AllRollups, ItemEvents, ItemRollups, EventsOf, RollupsOf, ItemOf;
    var r := q.sent[q.taken];
    assert Sendable(r);
    IdTestIsPersist(r);
    AllOneMore(q.sent[q.acked..q.taken], r);
    assert q.sent[q.acked..q.taken] + [r] == q.sent[q.acked..q.taken + 1];
    assert q.chan[0] == ItemOf(r);
    assert q.sent[q.taken..][1..] == q.sent[q.taken + 1..];
  }

  lemma AcknowledgeKeepsFifo(q: Queue)
    requires Fifo(q)
    ensures Fifo(Acknowledged(q))
  {
    hide AllEvents, AllRollups, Items;
    assert q.sent[..q.taken] == q.sent[..q.acked] + q.sent[q.acked..q.taken];
    AllAppend(q.sent[..q.acked], q.sent[q.acked..q.taken]);
    assert q.sent[q.taken..q.taken] == [];
    NothingRecorded();
  }

  lemma NothingRecorded()
    ensures AllEvents([]) == [] && AllRollups([]) == []
  {
  }

  lemma ClientKeepsFifo(cfg: Config, s: State, t: nat, a: ClientAction)
    requires FifoInv(s) && ClientEnabled(cfg, s, t, a)
    ensures FifoInv(ClientApply(cfg, s, t, a))
  {
    ClientTouches(cfg, s, t, a);
    ClientStepReady(cfg, s, t, a);
    hide Fifo, ClientApply, ClientEnabled, Sends;
    if Sends(cfg, s, a) {
      SendKeepsFifo(s.queue, s.clients[t].item);
      assert ClientReady(s.clients[t]);
    }
  }

  lemma ClientStepReady(cfg: Config, s: State, t: nat, a: ClientAction)
    requires ClientsReady(s.clients) && ClientEnabled(cfg, s, t, a)
    ensures var clients := ClientApply(cfg, s, t, a).clients; t in clients ==> ClientReady(clients[t])
  {
    assert t in s.clients ==> ClientReady(s.clients[t]);
    hide Sent, ResetTo, Prepared, ClientsReady, AuditPolicy.Decide;
  }

  lemma {:induction false} ConsumerKeepsFifo(cfg: Config, s: State, a: ConsumerAction)
    requires FifoInv(s) && ConsumerEnabled(cfg, s, a)
    ensures FifoInv(ConsumerApply(cfg, s, a))
  {
    ConsumerTouches(cfg, s, a);
    ConsumerQueue(cfg, s, a);
    hide Fifo, ConsumerApply, ConsumerEnabled;
    if a.ReceiveItem? || a.DrainItem? { TakeKeepsFifo(s.queue); }
    if a.AttemptSucceeds? || a.HalfSucceeds? { AcknowledgeKeepsFifo(s.queue); }
  }
}
