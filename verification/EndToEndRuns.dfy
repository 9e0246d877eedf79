/** A run of the asynchronous recorder that serves a request, for every configuration. */
module EndToEndRuns {
  import opened AuditEvent
  import opened AuditPolicy
  import opened EndToEnd
  import opened Handlers
  import opened Protocol
  import opened ProtocolRuns
  import opened ProtocolTheorems
  import opened Recording
  import opened Repository
  import opened Text

  /** Some run without a Reset ends in this state, with this trace. */
  ghost predicate Traced(cfg: Config, visitOf: nat -> nat, t: Tables, s: State, trace: Trace) {
    exists states: seq<State>, steps: seq<Step> ::
      Run(cfg, t, states, steps) && EndsIn(cfg, visitOf, t, states, steps, s, trace)
  }

  ghost predicate EndsIn(cfg: Config, visitOf: nat -> nat, t: Tables, states: seq<State>, steps: seq<Step>, s: State,
        trace: Trace)
    requires Run(cfg, t, states, steps)
  {
    && states[|steps|] == s && NoReset(steps, |steps|)
    && TraceOf(cfg, visitOf, t, states, steps, |steps|) == trace
  }

  lemma {:induction false} TraceOfPrefix(cfg: Config, visitOf: nat -> nat, t: Tables, states: seq<State>,
        steps: seq<Step>, states': seq<State>, steps': seq<Step>, i: nat)
    requires Run(cfg, t, states, steps) && Run(cfg, t, states', steps') && states <= states' && steps <= steps'
    requires i < |states|
    ensures i < |states'| && TraceOf(cfg, visitOf, t, states', steps', i) == TraceOf(cfg, visitOf, t, states, steps, i)
  {
    hide Enabled, Apply, Observed, ClientEnabled;
    if i > 0 { TraceOfPrefix(cfg, visitOf, t, states, steps, states', steps', i - 1); }
  }

  /** What a step adds to a trace. */
  ghost function TraceAfter(cfg: Config, visitOf: nat -> nat, s: State, step: Step, trace: Trace): Trace
    requires Enabled(cfg, s, step)
  {
    if step.ByClient? then Observed(cfg, visitOf, s, step.t, step.action, trace) else trace
  }

  lemma OneMoreStep(cfg: Config, t: Tables, states: seq<State>, steps: seq<Step>, step: Step)
    requires Run(cfg, t, states, steps) && Enabled(cfg, states[|steps|], step)
    ensures Run(cfg, t, states + [Apply(cfg, states[|steps|], step)], steps + [step])
  {
    hide Enabled, Apply;
    var states', steps' := states + [Apply(cfg, states[|steps|], step)], steps + [step];
    forall i | 0 <= i < |steps'|
      ensures Enabled(cfg, states'[i], steps'[i]) && states'[i + 1] == Apply(cfg, states'[i], steps'[i]) {
      if i < |steps| { assert Enabled(cfg, states[i], steps[i]); }
    }
  }

  lemma TracedStep(cfg: Config, visitOf: nat -> nat, t: Tables, s: State, trace: Trace, step: Step)
    requires Traced(cfg, visitOf, t, s, trace) && Enabled(cfg, s, step) && !CommitsReset(step)
    ensures Traced(cfg, visitOf, t, Apply(cfg, s, step), TraceAfter(cfg, visitOf, s, step, trace))
  {
    hide Enabled, Apply, Observed, CommitsReset;
    var states: seq<State>, steps: seq<Step> :|
      Run(cfg, t, states, steps) && EndsIn(cfg, visitOf, t, states, steps, s, trace);
    RunLength(cfg, t, states, steps);
    var states', steps' := states + [Apply(cfg, s, step)], steps + [step];
    OneMoreStep(cfg, t, states, steps, step);
    TraceOfPrefix(cfg, visitOf, t, states, steps, states', steps', |steps|);
    hide Run;
    assert EndsIn(cfg, visitOf, t, states', steps', Apply(cfg, s, step), TraceAfter(cfg, visitOf, s, step, trace));
  }

  lemma TracedInit(cfg: Config, visitOf: nat -> nat, t: Tables)
    ensures Traced(cfg, visitOf, t, Init(t), Trace(map[], [], 0))
  {
    hide Enabled, Apply;
    assert Run(cfg, t, [Init(t)], []);
    assert EndsIn(cfg, visitOf, t, [Init(t)], [], Init(t), Trace(map[], [], 0));
  }

  /** A step of a caller who records nothing. */
  lemma QuietStep(cfg: Config, visitOf: nat -> nat, t: Tables, s: State, trace: Trace, step: Step)
    requires Traced(cfg, visitOf, t, s, trace) && Enabled(cfg, s, step) && !CommitsReset(step)
    requires step.ByClient? ==> !step.action.Decide? && !Settles(cfg, s, step.t, step.action)
    ensures Traced(cfg, visitOf, t, Apply(cfg, s, step), trace)
  {
    TracedStep(cfg, visitOf, t, s, trace, step);
    hide Traced, Apply, Enabled, Settles;
  }

  // ----- One refused request -----

  const REFUSED := Request.Request("GET", "/verify", "/verify", "", "", "", "", Malformed, "")
  const REFUSAL := Visit(ToVerify, false, REFUSED, World(Unreachable, "", Unreachable, Unreachable))
  const REFUSAL_OFFER := Offer(0, LimitSummary(REFUSED), "", 1, 0.0)

  function OnlyVisit(): nat -> nat {
    c => 0
  }

  lemma RefusalIsKept(cfg: Config)
    ensures var r := ItemFor(cfg, LimitSummary(REFUSED));
      r.decision.persist && r.decision.countMetric && r == AsRecorded(cfg.policy, REFUSAL_OFFER)
  {
    assert !IsAdminAction("rate_limit.denied") by {
      assert "rate_limit.denied"[0] == 'r' && "admin."[0] == 'a' && "audit."[0] == 'a';
    }
    assert "rate_limit.denied"[0] != "system.startup"[0];
  }

  lemma RefusalIsItsTrail(settings: Settings)
    ensures Interleaved(settings, [REFUSAL], [REFUSAL_OFFER])
    ensures PlainMethod(REFUSED) && Dated(REFUSAL_OFFER.now)
  {
    var offers := [REFUSAL_OFFER];
    assert offers[..0] == [];
    assert OffersOf(offers, 0) == offers by { assert OffersOf([], 0) == []; }
    assert EventsOfOffers(offers) == [LimitSummary(REFUSED)];
    assert TrimSpace("GET") == "GET";
    assert ToUpper("GET") == "GET";
  }

  const PENDING := Trace(map[1 := REFUSAL_OFFER], [], 0)
  const SETTLED := Trace(map[1 := REFUSAL_OFFER], [REFUSAL_OFFER], 0)

  /** What its Record sends. */
  ghost function RefusalItem(cfg: Config): Recorded {
    ItemFor(cfg, LimitSummary(REFUSED))
  }

  lemma DecidesOnRefusal(cfg: Config, t: Tables) returns (s: State)
    ensures s == Init(t).(clients := map[1 := Decided(RefusalItem(cfg))])
    ensures Traced(cfg, OnlyVisit(), t, s, PENDING)
  {
    RefusalIsKept(cfg);
    ItemForIs(cfg, LimitSummary(REFUSED));
    hide Traced, ItemFor, DecidedAs, ConsumerApply, ConsumerEnabled, AsRecorded, LimitSummary;
    TracedInit(cfg, OnlyVisit(), t);
    QuietStep(cfg, OnlyVisit(), t, Init(t), Trace(map[], [], 0), ByClient(1, CallRecord(LimitSummary(REFUSED))));
    var s1 := At(Init(t), 1, Offering(LimitSummary(REFUSED)));
    var decide := ClientAction.Decide("", 1, 0.0);
    TracedStep(cfg, OnlyVisit(), t, s1, Trace(map[], [], 0), ByClient(1, decide));
    s := Apply(cfg, s1, ByClient(1, decide));
    assert s.clients == map[1 := Decided(RefusalItem(cfg))];
  }

  /** Its event is put on the channel. */
  lemma RecordsRefusal(cfg: Config, t: Tables) returns (s: State)
    requires ValidConfig(cfg)
    ensures s == Init(t).(queue := Sent(Init(t).queue, RefusalItem(cfg)), clients := map[1 := Counting(false)])
    ensures Traced(cfg, OnlyVisit(), t, s, SETTLED)
  {
    hide Traced, RefusalItem, ItemOf, ConsumerApply, ConsumerEnabled;
    var s1 := DecidesOnRefusal(cfg, t);
    TracedStep(cfg, OnlyVisit(), t, s1, PENDING, ByClient(1, TrySend));
    s := Apply(cfg, s1, ByClient(1, TrySend));
    assert PENDING.offered + [REFUSAL_OFFER] == [REFUSAL_OFFER];
    assert s.clients == map[1 := Counting(false)];
  }

  /** Someone takes the mutex and finds the recorder open. */
  lemma LooksToClose(cfg: Config, t: Tables) returns (s: State)
    requires ValidConfig(cfg)
    ensures Traced(cfg, OnlyVisit(), t, s, SETTLED) && 2 in s.clients && s.clients[2] == CloseSending
    ensures s.pc == Selecting && s.queue == Sent(Init(t).queue, RefusalItem(cfg)) && s.stats == Init(t).stats
    ensures s.gate == Init(t).gate.(closed := true, closer := Some(2), mutex := Some(2))
  {
    hide Traced, RefusalItem, ItemOf, Sent, ConsumerApply, ConsumerEnabled;
    var s0 := RecordsRefusal(cfg, t);
    QuietStep(cfg, OnlyVisit(), t, s0, SETTLED, ByClient(2, CallClose));
    var s1 := At(s0, 2, CloseCalled);
    QuietStep(cfg, OnlyVisit(), t, s1, SETTLED, ByClient(2, CloseLock));
    var s2 := Apply(cfg, s1, ByClient(2, CloseLock));
    QuietStep(cfg, OnlyVisit(), t, s2, SETTLED, ByClient(2, CloseCheck));
    s := Apply(cfg, s2, ByClient(2, CloseCheck));
  }

  /** The message is handed over, and the consumer takes it. */
  lemma ClosesRecorder(cfg: Config, t: Tables) returns (s: State)
    requires ValidConfig(cfg)
    ensures Traced(cfg, OnlyVisit(), t, s, SETTLED)
    ensures s.pc == Draining(Closing) && s.queue == Sent(Init(t).queue, RefusalItem(cfg)) && s.gate.doneCh == []
    ensures s.stats.droppedTotal == 0
  {
    hide Traced, RefusalItem, ItemOf, Sent;
    var s1 := LooksToClose(cfg, t);
    QuietStep(cfg, OnlyVisit(), t, s1, SETTLED, ByClient(2, CloseSend));
    var s2 := Apply(cfg, s1, ByClient(2, CloseSend));
    QuietStep(cfg, OnlyVisit(), t, s2, SETTLED, ByConsumer(ReceiveClose));
    s := Apply(cfg, s2, ByConsumer(ReceiveClose));
  }

  /** The consumer drains the item and starts the final flush. */
  lemma StartsFinalFlush(cfg: Config, t: Tables) returns (s: State)
    requires ValidConfig(cfg)
    ensures Traced(cfg, OnlyVisit(), t, s, SETTLED)
    ensures s.pc == Attempting(Closing, 1) && s.queue.chan == [] && s.gate.doneCh == [] && s.stats.droppedTotal == 0
  {
    RefusalIsKept(cfg);
    hide Traced, ItemFor, NewMetricRollup, AsRecorded, ClientApply, ClientEnabled;
    var s0 := ClosesRecorder(cfg, t);
    QuietStep(cfg, OnlyVisit(), t, s0, SETTLED, ByConsumer(DrainItem));
    var s1 := Apply(cfg, s0, ByConsumer(DrainItem));
    assert s1.queue.chan == [] && |s1.queue.rollups| == 1;
    QuietStep(cfg, OnlyVisit(), t, s1, SETTLED, ByConsumer(DrainEnd));
    s := Apply(cfg, s1, ByConsumer(DrainEnd));
  }

  /** The flush succeeds, in one transaction or in two, and the consumer reports it. */
  lemma FinishesFlush(cfg: Config, t: Tables, s: State) returns (s': State)
    requires Traced(cfg, OnlyVisit(), t, s, SETTLED)
    requires s.pc == Attempting(Closing, 1) && s.queue.chan == [] && s.gate.doneCh == [] && s.stats.droppedTotal == 0
    ensures Traced(cfg, OnlyVisit(), t, s', SETTLED)
    ensures s'.pc == Exited(true) && s'.queue.chan == [] && s'.stats.droppedTotal == 0
  {
    hide Traced, ClientApply, ClientEnabled, Batched, EventsIn, RollupsIn;
    QuietStep(cfg, OnlyVisit(), t, s, SETTLED, ByConsumer(AttemptSucceeds(1)));
    s' := Apply(cfg, s, ByConsumer(AttemptSucceeds(1)));
    if s'.pc.HalfDone? {
      QuietStep(cfg, OnlyVisit(), t, s', SETTLED, ByConsumer(HalfSucceeds(1)));
      s' := Apply(cfg, s', ByConsumer(HalfSucceeds(1)));
    }
    QuietStep(cfg, OnlyVisit(), t, s', SETTLED, ByConsumer(Reply));
    s' := Apply(cfg, s', ByConsumer(Reply));
  }

  /** In this run a request is served, in the sense of the theorems about public requests. */
  ghost predicate ServesOne(cfg: Config, settings: Settings, t: Tables, states: seq<State>, steps: seq<Step>) {
    ServesAll(cfg, settings, [REFUSAL], OnlyVisit(), t, states, steps)
  }

  /** Whatever the configuration and the tables at first, some run serves a request. */
  lemma SomeRunServes(cfg: Config, settings: Settings, t: Tables)
    requires ValidConfig(cfg)
    ensures exists states: seq<State>, steps: seq<Step> :: ServesOne(cfg, settings, t, states, steps)
  {
    var s0 := StartsFinalFlush(cfg, t);
    var s := FinishesFlush(cfg, t, s0);
    RefusalIsItsTrail(settings);
    hide Interleaved, PlainMethod, TraceOf, Enabled, Apply, Traced;
    var states: seq<State>, steps: seq<Step> :|
      Run(cfg, t, states, steps) && EndsIn(cfg, OnlyVisit(), t, states, steps, s, SETTLED);
    assert ServesOne(cfg, settings, t, states, steps);
  }
}
