/**
The asynchronous recorder as a state machine: any number of goroutines calling
Record, Flush, Reset and Close, one bounded channel, and one consumer goroutine.
Every step is one interaction with shared state; which step happens next, which
transactions commit, which timers fire and which contexts end is left open.
*/
module Protocol {
  import opened AuditEvent
  import opened AuditPolicy
  import opened Clock
  import opened Recording
  import opened Repository
  import opened Store

  // ----- Items -----

  /** An event that is only counted travels as the empty event. */
  function ItemOf(r: Recorded): Item {
    Item(if r.decision.persist then r.event else EMPTY_EVENT,
         if r.decision.countMetric then Some(NewMetricRollup(r.event)) else None,
         r.decision.priority)
  }

  function Items(rs: seq<Recorded>): (items: seq<Item>)
    ensures |items| == |rs|
    ensures forall i :: 0 <= i < |rs| ==> items[i] == ItemOf(rs[i])
  {
    seq(|rs|, i requires 0 <= i < |rs| => ItemOf(rs[i]))
  }

  // ----- States -----

  datatype Config = Config(
    policy: PolicyConfig,
    channelSize: nat,
    batchSize: nat,
    dropOnFull: bool,
    atomic: bool,
    retryMaxAttempts: nat)

  predicate ValidConfig(cfg: Config) {
    cfg.channelSize > 0 && cfg.batchSize > 0 && cfg.retryMaxAttempts > 0
  }

  /** What a flush is for. */
  datatype Cause = BatchFull | Tick | Request(client: nat) | Closing

  /** Where the consumer is. */
  datatype ConsumerPc =
    | Selecting
    | Draining(cause: Cause)
    | Attempting(cause: Cause, attempt: nat)
    | HalfDone(cause: Cause, attempt: nat)   // the events are in, the rollups are next
    | Waiting(cause: Cause, attempt: nat)
    | Replying(cause: Cause, ok: bool)
    | Exited(ok: bool)

  datatype CloseResult = Finished(ok: bool) | TimedOut | NothingToReport

  /** Where a caller is. `before` is how many items had been sent when it called. */
  datatype Client =
    | Offering(event: Event)
    | Decided(item: Recorded)
    | Blocked(item: Recorded)
    | Counting(failed: bool)
    | RecordReturned
    | FlushCalled(before: nat, marker: Option<Event>)
    | FlushOffered(before: nat, marker: Option<Event>)
    | FlushAwaiting(before: nat, marker: Option<Event>)
    | FlushReturned(before: nat, ok: bool)
    | Resetting(before: nat, event: Event)
    | ResetReturned(before: nat, ok: bool)
    | CloseCalled
    | CloseLocked
    | ClosePolling
    | CloseSending
    | CloseAwaiting
    | CloseReturned(result: CloseResult)

  /** The channel and the consumer's buffers, with the history of what went through them. */
  datatype Queue = Queue(
    chan: seq<Item>,
    events: seq<Event>,
    rollups: seq<MetricRollup>,
    sent: seq<Recorded>,                  // everything put on the channel, in order
    taken: nat,                           // how many of those the consumer has received
    acked: nat,                           // how many of those a flush has stored
    flushedEvents: seq<Event>,
    flushedRollups: seq<MetricRollup>)

  /** The tables, with the history of resets and of half-done flushes since the last one. */
  datatype Database = Database(
    tables: Tables,
    base: Tables,                         // as the run began, or as the last Reset left them
    wiped: nat,                           // how many items were flushed when the last Reset came
    partial: nat,                         // how many buffered events are already in the tables
    torn: set<nat>)                       // which items' events that Reset removed half-way through a flush

  /** Closing and replying. */
  datatype Gate = Gate(
    closed: bool,
    closer: Option<nat>,                  // whose Close it was that closed the recorder
    mutex: Option<nat>,
    closeCh: nat,
    doneCh: seq<bool>,
    replies: map<nat, bool>,
    closeSent: nat,
    doneSent: nat,
    drained: nat)                         // how many items had been sent when the last drain ended

  datatype Stats = Stats(
    enqueueTotal: nat,
    enqueueErrorTotal: nat,
    droppedTotal: nat,
    retryTotal: nat,
    failedFlushes: nat)

  datatype State = State(
    queue: Queue,
    pc: ConsumerPc,
    db: Database,
    clients: map<nat, Client>,
    gate: Gate,
    stats: Stats)

  function Init(t: Tables): State {
    State(Queue([], [], [], [], 0, 0, [], []), Selecting, Database(t, t, 0, 0, {}), map[],
          Gate(false, None, None, 0, [], map[], 0, 0, 0), Stats(0, 0, 0, 0, 0))
  }

  // ----- Steps of the callers -----

  datatype ClientAction =
    | CallRecord(event: Event)
    | CallFlush
    | CallReset(event: Event)
    | CallClose
    | Decide(random: string, now: Time, draw: real)
    | TrySend
    | WaitSend
    | WaitCancelled
    | WaitExpired
    | Count
    | FlushCheck
    | FlushCancelled
    | FlushCollect
    | DoReset(random: string, now: Time, commits: bool)
    | CloseLock
    | CloseCheck
    | ClosePoll
    | CloseSend
    | CloseCancelled
    | CloseReceive

  ghost function DecidedAs(cfg: Config, event: Event, a: ClientAction): Recorded
    requires a.Decide?
  {
    var p := Prepared(event, a.random, a.now);
    Recorded(p, AuditPolicy.Decide(cfg.policy, p, a.draw))
  }

  predicate ClientEnabled(cfg: Config, s: State, t: nat, a: ClientAction) {
    if a.CallRecord? || a.CallFlush? || a.CallReset? || a.CallClose? then t !in s.clients
    else t in s.clients && CallerReady(cfg, s, s.clients[t], t, a)
  }

  predicate CallerReady(cfg: Config, s: State, c: Client, t: nat, a: ClientAction) {
    match a
    case Decide(_, now, _) => c.Offering? && now != ZERO_TIME
    case TrySend => c.Decided?
    case WaitSend => c.Blocked? && |s.queue.chan| < cfg.channelSize
    case WaitCancelled => c.Blocked?
    case WaitExpired => c.Blocked?
    case Count => c.Counting?
    case FlushCheck => c.FlushCalled?
    case FlushCancelled => c.FlushOffered? || c.FlushAwaiting?
    case FlushCollect => c.FlushAwaiting? && t in s.gate.replies
    case DoReset(_, now, _) => c.Resetting? && now != ZERO_TIME
    case CloseLock => c.CloseCalled? && s.gate.mutex.None?
    case CloseCheck => c.CloseLocked?
    case ClosePoll => c.ClosePolling?
    case CloseSend => c.CloseSending? && s.gate.closeCh < 1
    case CloseCancelled => c.CloseSending? || c.CloseAwaiting?
    case CloseReceive => c.CloseAwaiting? && s.gate.doneCh != []
    case _ => true
  }

  function Sent(q: Queue, r: Recorded): Queue {
    q.(chan := q.chan + [ItemOf(r)], sent := q.sent + [r])
  }

  function At(s: State, t: nat, c: Client): State {
    s.(clients := s.clients[t := c])
  }

  /** A Reset goes on to the repository when its flush succeeded. */
  function AfterFlush(before: nat, marker: Option<Event>, ok: bool): Client {
    if marker.None? then FlushReturned(before, ok)
    else if ok then Resetting(before, marker.value)
    else ResetReturned(before, false)
  }

  /** The database after a committed Reset: whatever the consumer is doing, its marker is all there is. */
  function ResetTo(q: Queue, row: Event): Database {
    var empty := Tables([row], map[]);
    Database(empty, empty, q.acked, 0, {})
  }

  function Dropped(s: State): State {
    s.(stats := s.stats.(droppedTotal := s.stats.droppedTotal + 1))
  }

  ghost function ClientApply(cfg: Config, s: State, t: nat, a: ClientAction): State
    requires ClientEnabled(cfg, s, t, a)
  {
    match a
    case CallRecord(event) => At(s, t, Offering(event))
    case CallFlush => At(s, t, FlushCalled(|s.queue.sent|, None))
    case CallReset(marker) => At(s, t, FlushCalled(|s.queue.sent|, Some(marker)))
    case CallClose => At(s, t, CloseCalled)
    case Decide(_, _, _) =>
      var r := DecidedAs(cfg, s.clients[t].event, a);
      At(s, t, if s.gate.closed || (!r.decision.persist && !r.decision.countMetric) then RecordReturned else Decided(r))
    case TrySend =>
      var r := s.clients[t].item;
      if |s.queue.chan| < cfg.channelSize then At(s.(queue := Sent(s.queue, r)), t, Counting(false))
      else if r.decision.priority == Critical || !cfg.dropOnFull then At(s, t, Blocked(r))
      else At(Dropped(s), t, Counting(false))
    case WaitSend => At(s.(queue := Sent(s.queue, s.clients[t].item)), t, Counting(false))
    case WaitCancelled => At(Dropped(s), t, Counting(true))
    case WaitExpired => At(Dropped(s), t, Counting(false))
    case Count =>
      var stats := if s.clients[t].failed then s.stats.(enqueueErrorTotal := s.stats.enqueueErrorTotal + 1)
                   else s.stats.(enqueueTotal := s.stats.enqueueTotal + 1);
      At(s.(stats := stats), t, RecordReturned)
    case FlushCheck =>
      var c := s.clients[t];
      At(s, t, if s.gate.closed then AfterFlush(c.before, c.marker, false) else FlushOffered(c.before, c.marker))
    case FlushCancelled => At(s, t, AfterFlush(s.clients[t].before, s.clients[t].marker, false))
    case FlushCollect => At(s, t, AfterFlush(s.clients[t].before, s.clients[t].marker, s.gate.replies[t]))
    case DoReset(random, now, commits) =>
      var c := s.clients[t];
      if commits then
        var row := StoredForm(Prepared(c.event, random, now));
        At(s.(db := ResetTo(s.queue, row)), t, ResetReturned(c.before, true))
      else At(s, t, ResetReturned(c.before, false))
    case CloseLock => At(s.(gate := s.gate.(mutex := Some(t))), t, CloseLocked)
    case CloseCheck =>
      if s.gate.closed then At(s.(gate := s.gate.(mutex := None)), t, ClosePolling)
      else At(s.(gate := s.gate.(closed := true, closer := Some(t))), t, CloseSending)
    case ClosePoll =>
      if s.gate.doneCh != [] then
        At(s.(gate := s.gate.(doneCh := s.gate.doneCh[1..])), t, CloseReturned(Finished(s.gate.doneCh[0])))
      else At(s, t, CloseReturned(NothingToReport))
    case CloseSend =>
      var gate := s.gate.(closeCh := s.gate.closeCh + 1, closeSent := s.gate.closeSent + 1, mutex := None);
      At(s.(gate := gate), t, CloseAwaiting)
    case CloseCancelled =>
      At(if s.clients[t].CloseSending? then s.(gate := s.gate.(mutex := None)) else s, t, CloseReturned(TimedOut))
    case CloseReceive =>
      At(s.(gate := s.gate.(doneCh := s.gate.doneCh[1..])), t, CloseReturned(Finished(s.gate.doneCh[0])))
  }

  // ----- Steps of the consumer -----

  datatype ConsumerAction =
    | ReceiveItem
    | ReceiveFlush(client: nat)
    | TickerFires
    | ReceiveClose
    | DrainItem
    | DrainEnd
    | AttemptSucceeds(now: Time)
    | AttemptFails
    | HalfSucceeds(now: Time)
    | HalfFails
    | RetryAfterWait
    | WaitInterrupted
    | Reply

  predicate ConsumerEnabled(cfg: Config, s: State, a: ConsumerAction) {
    match a
    case ReceiveItem => s.pc.Selecting? && s.queue.chan != []
    case ReceiveFlush(t) => s.pc.Selecting? && t in s.clients && s.clients[t].FlushOffered?
    case TickerFires => s.pc.Selecting?
    case ReceiveClose => s.pc.Selecting? && s.gate.closeCh > 0
    case DrainItem => s.pc.Draining? && s.queue.chan != []
    case DrainEnd => s.pc.Draining? && s.queue.chan == []
    case AttemptSucceeds(_) => s.pc.Attempting?
    case AttemptFails => s.pc.Attempting? && (cfg.atomic || s.queue.events != [])
    case HalfSucceeds(_) => s.pc.HalfDone?
    case HalfFails => s.pc.HalfDone?
    case RetryAfterWait => s.pc.Waiting?
    case WaitInterrupted => s.pc.Waiting? && s.pc.cause.Closing?
    case Reply => s.pc.Replying? && ReplyHasRoom(s)
  }

  /** Both kinds of reply go to a channel with room for one. */
  predicate ReplyHasRoom(s: State)
    requires s.pc.Replying?
  {
    match s.pc.cause
    case Request(t) => t !in s.gate.replies
    case Closing => |s.gate.doneCh| < 1
    case _ => false
  }

  function Taken(q: Queue): Queue
    requires q.chan != []
  {
    q.(chan := q.chan[1..],
       events := q.events + ItemEvents(q.chan[0]),
       rollups := q.rollups + ItemRollups(q.chan[0]),
       taken := q.taken + 1)
  }

  function Pending(q: Queue): nat {
    |q.events| + |q.rollups|
  }

  /** The end of a flush: only a request or a close is told. */
  function Finish(s: State, cause: Cause, ok: bool): State {
    s.(pc := if cause.BatchFull? || cause.Tick? then Selecting else Replying(cause, ok),
       stats := s.stats.(failedFlushes := s.stats.failedFlushes + if ok then 0 else 1))
  }

  function StartFlush(s: State, cause: Cause): State {
    if Pending(s.queue) == 0 then Finish(s, cause, true) else s.(pc := Attempting(cause, 1))
  }

  /** Everything in the buffers is stored: empty them. */
  function Acknowledged(q: Queue): Queue {
    q.(events := [], rollups := [], acked := q.taken,
       flushedEvents := q.flushedEvents + q.events, flushedRollups := q.flushedRollups + q.rollups)
  }

  function FailAttempt(cfg: Config, s: State): State
    requires s.pc.Attempting? || s.pc.HalfDone?
  {
    var s1 := s.(stats := s.stats.(retryTotal := s.stats.retryTotal + 1));
    if s.pc.attempt == cfg.retryMaxAttempts then Finish(s1, s.pc.cause, false)
    else s1.(pc := Waiting(s.pc.cause, s.pc.attempt))
  }

  /** One transaction is all a flush takes: the repository is atomic, or there is nothing to count. */
  predicate OneTransaction(cfg: Config, q: Queue) {
    cfg.atomic || q.rollups == []
  }

  /** The first half of a flush that takes two. */
  ghost function EventsIn(db: Database, q: Queue): Database {
    db.(tables := db.tables.(events := InsertAll(db.tables.events, Rows(q.events))), partial := |q.events|)
  }

  function Between(from: nat, to: nat): (s: set<nat>)
    ensures forall k :: k in s <==> from <= k < to
  {
    if from >= to then {} else Between(from, to - 1) + {to - 1}
  }

  /** The items whose events and rollups are in the buffers. */
  function InFlush(q: Queue): set<nat> {
    Between(q.acked, q.taken)
  }

  /** The second half; a Reset may have come between. */
  ghost function RollupsIn(db: Database, q: Queue, now: Time): Database {
    db.(tables := db.tables.(rollups := MergedInto(db.tables.rollups, q.rollups, now)),
        partial := 0,
        torn := db.torn + if db.partial < |q.events| then InFlush(q) else {})
  }

  ghost function ConsumerApply(cfg: Config, s: State, a: ConsumerAction): State
    requires ConsumerEnabled(cfg, s, a)
  {
    match a
    case ReceiveItem =>
      var s1 := s.(queue := Taken(s.queue));
      if Pending(s1.queue) >= cfg.batchSize then StartFlush(s1, BatchFull) else s1
    case ReceiveFlush(t) =>
      At(s.(pc := Draining(Request(t))), t, FlushAwaiting(s.clients[t].before, s.clients[t].marker))
    case TickerFires => StartFlush(s, Tick)
    case ReceiveClose => s.(gate := s.gate.(closeCh := s.gate.closeCh - 1), pc := Draining(Closing))
    case DrainItem => s.(queue := Taken(s.queue))
    case DrainEnd => StartFlush(s.(gate := s.gate.(drained := |s.queue.sent|)), s.pc.cause)
    case AttemptSucceeds(now) =>
      if OneTransaction(cfg, s.queue) then
        var db := s.db.(tables := Batched(s.db.tables, Rows(s.queue.events), s.queue.rollups, now), partial := 0);
        Finish(s.(db := db, queue := Acknowledged(s.queue)), s.pc.cause, true)
      else
        s.(db := EventsIn(s.db, s.queue), pc := HalfDone(s.pc.cause, s.pc.attempt))
    case AttemptFails => FailAttempt(cfg, s)
    case HalfSucceeds(now) =>
      Finish(s.(db := RollupsIn(s.db, s.queue, now), queue := Acknowledged(s.queue)), s.pc.cause, true)
    case HalfFails => FailAttempt(cfg, s)
    case RetryAfterWait => s.(pc := Attempting(s.pc.cause, s.pc.attempt + 1))
    case WaitInterrupted => Finish(s, s.pc.cause, false)
    case Reply =>
      if s.pc.cause.Request? then
        s.(gate := s.gate.(replies := s.gate.replies[s.pc.cause.client := s.pc.ok]), pc := Selecting)
      else
        s.(gate := s.gate.(doneCh := s.gate.doneCh + [s.pc.ok], doneSent := s.gate.doneSent + 1), pc := Exited(s.pc.ok))
  }

  // ----- Runs -----

  datatype Step = ByClient(t: nat, action: ClientAction) | ByConsumer(act: ConsumerAction)

  predicate Enabled(cfg: Config, s: State, step: Step) {
    match step
    case ByClient(t, a) => ClientEnabled(cfg, s, t, a)
    case ByConsumer(a) => ConsumerEnabled(cfg, s, a)
  }

  ghost function Apply(cfg: Config, s: State, step: Step): State
    requires Enabled(cfg, s, step)
  {
    match step
    case ByClient(t, a) => ClientApply(cfg, s, t, a)
    case ByConsumer(a) => ConsumerApply(cfg, s, a)
  }

  /** A run from the tables `t`: each state follows from the one before by an enabled step. */
  ghost predicate Run(cfg: Config, t: Tables, states: seq<State>, steps: seq<Step>) {
    && |states| == |steps| + 1
    && states[0] == Init(t)
    && forall i :: 0 <= i < |steps| ==>
      Enabled(cfg, states[i], steps[i]) && states[i + 1] == Apply(cfg, states[i], steps[i])
  }
}
