/** Runs put together step by step, for the theorems that say what may happen. */
module ProtocolRuns {
  import opened AuditEvent
  import opened AuditPolicy
  import opened Recording
  import opened Repository
  import opened Protocol

  ghost predicate Reachable(cfg: Config, t: Tables, s: State) {
    exists states: seq<State>, steps: seq<Step> :: Run(cfg, t, states, steps) && states[|steps|] == s
  }

  lemma ReachStep(cfg: Config, t: Tables, s: State, step: Step)
    requires Reachable(cfg, t, s) && Enabled(cfg, s, step)
    ensures Reachable(cfg, t, Apply(cfg, s, step))
  {
    hide Enabled, Apply;
    var states: seq<State>, steps: seq<Step> :| Run(cfg, t, states, steps) && states[|steps|] == s;
    var states', steps' := states + [Apply(cfg, s, step)], steps + [step];
    forall i | 0 <= i < |steps'|
      ensures Enabled(cfg, states'[i], steps'[i]) && states'[i + 1] == Apply(cfg, states'[i], steps'[i]) {
      if i < |steps| { assert Enabled(cfg, states[i], steps[i]); }
    }
    assert Run(cfg, t, states', steps');
  }

  lemma ReachInit(cfg: Config, t: Tables)
    ensures Reachable(cfg, t, Init(t))
  {
    hide Enabled, Apply;
    assert Run(cfg, t, [Init(t)], []);
  }

  /** What a Record of this event sends, decided a moment after the epoch. */
  ghost function ItemFor(cfg: Config, event: Event): Recorded {
    DecidedAs(cfg, event, ClientAction.Decide("", 1, 0.0))
  }

  lemma ItemForIs(cfg: Config, event: Event)
    ensures DecidedAs(cfg, event, ClientAction.Decide("", 1, 0.0)) == ItemFor(cfg, event)
  {
  }

  predicate Wanted(r: Recorded) {
    r.decision.persist || r.decision.countMetric
  }

  /** Some caller's Record gets as far as the decision. */
  lemma DecidesOn(cfg: Config, t: Tables, s: State, c: nat, event: Event) returns (s': State)
    requires Reachable(cfg, t, s) && c !in s.clients && !s.gate.closed && Wanted(ItemFor(cfg, event))
    ensures Reachable(cfg, t, s') && s' == s.(clients := s.clients[c := Decided(ItemFor(cfg, event))])
  {
    hide Reachable, ConsumerApply, ConsumerEnabled, Prepared, AuditPolicy.Decide, ItemFor;
    var a := ClientAction.Decide("", 1, 0.0);
    ReachStep(cfg, t, s, ByClient(c, CallRecord(event)));
    var s1 := At(s, c, Offering(event));
    ReachStep(cfg, t, s1, ByClient(c, a));
    ItemForIs(cfg, event);
    hide DecidedAs;
    s' := At(s1, c, Decided(ItemFor(cfg, event)));
    assert s'.clients == s.clients[c := Decided(ItemFor(cfg, event))];
  }

  /** It finds room on the channel. */
  lemma PutsOnChannel(cfg: Config, t: Tables, s: State, c: nat, r: Recorded) returns (s': State)
    requires Reachable(cfg, t, s) && c in s.clients && s.clients[c] == Decided(r) && |s.queue.chan| < cfg.channelSize
    ensures Reachable(cfg, t, s')
    ensures s' == s.(queue := Sent(s.queue, r), clients := s.clients[c := Counting(false)])
  {
    hide Reachable, ConsumerApply, ConsumerEnabled, ItemOf;
    ReachStep(cfg, t, s, ByClient(c, TrySend));
    s' := At(s.(queue := Sent(s.queue, r)), c, Counting(false));
  }

  /** Some caller records it. */
  lemma SendsItem(cfg: Config, t: Tables, s: State, c: nat, event: Event) returns (s': State)
    requires Reachable(cfg, t, s) && c !in s.clients && !s.gate.closed && |s.queue.chan| < cfg.channelSize
    requires Wanted(ItemFor(cfg, event))
    ensures Reachable(cfg, t, s')
    ensures s' == s.(queue := Sent(s.queue, ItemFor(cfg, event)), clients := s.clients[c := Counting(false)])
  {
    hide Reachable, ItemFor, Sent;
    var s1 := DecidesOn(cfg, t, s, c, event);
    s' := PutsOnChannel(cfg, t, s1, c, ItemFor(cfg, event));
    assert s'.clients == s.clients[c := Counting(false)];
  }

  /** An event that every policy stores, and none counts. */
  const STARTUP := EMPTY_EVENT.(id := "startup", action := "system.startup")

  lemma StartupIsStored(cfg: Config)
    ensures var r := ItemFor(cfg, STARTUP);
      r.decision.persist && !r.decision.countMetric && IsPrepared(r.event) && r.event.id == "startup"
  {
    assert !IsAdminAction("system.startup") by {
      assert "system.startup"[0] == 's' && "admin."[0] == 'a' && "audit."[0] == 'a';
    }
    assert |"startup"| == 7;
  }

  /** An event that every policy both stores and counts. */
  const LIMITED := EMPTY_EVENT.(id := "limited", action := "rate_limit.denied")

  lemma LimitedIsStoredAndCounted(cfg: Config)
    ensures var r := ItemFor(cfg, LIMITED);
      r.decision.persist && r.decision.countMetric && WellRecorded(r) && r.event.id == "limited"
  {
    assert !IsAdminAction("rate_limit.denied") by {
      assert "rate_limit.denied"[0] == 'r' && "admin."[0] == 'a' && "audit."[0] == 'a';
    }
    assert "rate_limit.denied"[0] != "system.startup"[0];
    assert |"limited"| == 7;
  }
}
