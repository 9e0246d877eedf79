/** Which events are stored, which are counted, and which wait for room in the queue. */
module AuditPolicy {
  import opened AuditEvent
  import opened Text

  const MODE_SUMMARY := "summary"
  const MODE_STEP := "step"
  const MODE_FAILURE_STEP := "failure_step"

  datatype Priority = Critical | Normal | BestEffort

  datatype Decision = Decision(
    persist: bool, countMetric: bool, priority: Priority, reason: string, sampledOut: bool, publicAction: bool)

  datatype PolicyConfig = PolicyConfig(
    publicMode: string,
    verifySuccessRate: real,
    verifyFailureRate: real,
    exchangeSuccessRate: real,
    exchangeFailureRate: real)

  // ----- Configuration -----

  function ClampRate(rate: real): real {
    if rate < 0.0 then 0.0 else if rate > 1.0 then 1.0 else rate
  }

  function DefaultRate(rate: real, fallback: real): real {
    if rate < 0.0 then fallback else rate
  }

  predicate KnownMode(mode: string) {
    mode == MODE_SUMMARY || mode == MODE_STEP || mode == MODE_FAILURE_STEP
  }

  function Normalized(cfg: PolicyConfig): PolicyConfig {
    var unset := cfg.publicMode == "" && cfg.verifySuccessRate == 0.0 && cfg.verifyFailureRate == 0.0
      && cfg.exchangeSuccessRate == 0.0 && cfg.exchangeFailureRate == 0.0;
    var c := if !unset then cfg
             else cfg.(verifyFailureRate := 1.0, exchangeSuccessRate := 1.0, exchangeFailureRate := 1.0);
    PolicyConfig(
      if KnownMode(c.publicMode) then c.publicMode else MODE_FAILURE_STEP,
      ClampRate(c.verifySuccessRate),
      ClampRate(DefaultRate(c.verifyFailureRate, 1.0)),
      ClampRate(DefaultRate(c.exchangeSuccessRate, 1.0)),
      ClampRate(DefaultRate(c.exchangeFailureRate, 1.0)))
  }

  method NormalizePolicyConfig(given: PolicyConfig) returns (cfg: PolicyConfig)
    ensures cfg == Normalized(given)
  {
    cfg := given;
    if cfg.publicMode == "" && cfg.verifySuccessRate == 0.0 && cfg.verifyFailureRate == 0.0
       && cfg.exchangeSuccessRate == 0.0 && cfg.exchangeFailureRate == 0.0 {
      cfg := cfg.(verifyFailureRate := 1.0);
      cfg := cfg.(exchangeSuccessRate := 1.0);
      cfg := cfg.(exchangeFailureRate := 1.0);
    }
    if !KnownMode(cfg.publicMode) {
      cfg := cfg.(publicMode := MODE_FAILURE_STEP);
    }
    cfg := cfg.(verifySuccessRate := ClampRate(cfg.verifySuccessRate));
    cfg := cfg.(verifyFailureRate := ClampRate(DefaultRate(cfg.verifyFailureRate, 1.0)));
    cfg := cfg.(exchangeSuccessRate := ClampRate(DefaultRate(cfg.exchangeSuccessRate, 1.0)));
    cfg := cfg.(exchangeFailureRate := ClampRate(DefaultRate(cfg.exchangeFailureRate, 1.0)));
  }

  // ----- Actions -----

  predicate IsAdminAction(action: string) {
    HasPrefix(action, "admin.") || HasPrefix(action, "audit.")
  }

  predicate IsPublicSummaryAction(action: string) {
    action == "gateway.request" || action == "exchange.request" || action == "verify.request"
  }

  predicate IsPublicStepAction(action: string) {
    action == "turnstile.verify" || action == "appcheck.exchange" || action == "appcheck.verify"
  }

  /** The four actions whose events are counted. */
  predicate IsCountedAction(action: string) {
    IsPublicSummaryAction(action) || action == "rate_limit.denied"
  }

  predicate IsVerifyEvent(e: Event) {
    e.action == "verify.request" || e.action == "appcheck.verify" || e.action == "forwardauth.denied"
    || Contains(ToLower(e.endpoint), "verify") || Contains(ToLower(e.path), "/verify")
  }

  predicate Failed(e: Event) {
    (e.result != "" && e.result != RESULT_SUCCESS) || e.statusCode >= 400
  }

  // ----- Decisions -----

  /** Whether sampling at this rate has to ask the generator. */
  predicate Uncertain(rate: real) {
    0.0 < rate < 1.0
  }

  predicate Sampled(rate: real, draw: real) {
    rate >= 1.0 || (rate > 0.0 && draw < rate)
  }

  function SuccessRate(cfg: PolicyConfig, e: Event): real {
    if IsVerifyEvent(e) then cfg.verifySuccessRate else cfg.exchangeSuccessRate
  }

  function SummaryRate(cfg: PolicyConfig, e: Event): real {
    if !Failed(e) then SuccessRate(cfg, e)
    else if IsVerifyEvent(e) then cfg.verifyFailureRate
    else cfg.exchangeFailureRate
  }

  function DecideSummary(cfg: PolicyConfig, e: Event, draw: real): Decision {
    var persist := Sampled(SummaryRate(cfg, e), draw);
    var priority := if Failed(e) then Critical else if IsVerifyEvent(e) then BestEffort else Normal;
    Decision(persist, true, priority, "public_summary", !persist, true)
  }

  function DecideStep(cfg: PolicyConfig, e: Event, draw: real): Decision {
    if Failed(e) then
      if cfg.publicMode == MODE_SUMMARY then Decision(false, false, Normal, "summary_mode_step_skip", true, true)
      else Decision(true, false, Critical, "public_failed_step", false, true)
    else if cfg.publicMode != MODE_STEP then Decision(false, false, BestEffort, "step_skipped_by_mode", true, true)
    else
      var persist := Sampled(SuccessRate(cfg, e), draw);
      Decision(persist, false, BestEffort, "public_success_step", !persist, true)
  }

  /** The decision on an event when the generator would draw `draw`. */
  function Decide(cfg: PolicyConfig, e: Event, draw: real): Decision {
    var action := TrimSpace(e.action);
    if IsAdminAction(action) then Decision(true, false, Critical, "admin_event", false, false)
    else if action == "system.startup" then Decision(true, false, Normal, "system_event", false, false)
    else if action == "rate_limit.denied" then Decision(true, true, Critical, "rate_limit_denied", false, true)
    else if action == "forwardauth.denied" then Decision(true, false, Critical, "forwardauth_denied", false, true)
    else if IsPublicSummaryAction(action) then DecideSummary(cfg, e, draw)
    else if IsPublicStepAction(action) then DecideStep(cfg, e, draw)
    else Decision(true, false, if Failed(e) then Critical else Normal, "default_persist", false, false)
  }

  /** The policy object with its shared generator: draw number `drawn` comes next. */
  class Policy {
    const cfg: PolicyConfig
    const random: nat -> real
    var drawn: nat

    constructor (given: PolicyConfig, random: nat -> real)
      ensures cfg == Normalized(given) && this.random == random && drawn == 0
    {
      var c := NormalizePolicyConfig(given);
      cfg := c;
      this.random := random;
      drawn := 0;
    }

    /** Asks the generator only when the rate leaves the answer open. */
    method Sample(rate: real) returns (yes: bool)
      modifies this
      ensures yes == Sampled(rate, random(old(drawn)))
      ensures drawn == old(drawn) + if Uncertain(rate) then 1 else 0
    {
      if rate >= 1.0 {
        return true;
      }
      if rate <= 0.0 {
        return false;
      }
      yes := random(drawn) < rate;
      drawn := drawn + 1;
    }

    method DecideEvent(e: Event) returns (d: Decision)
      modifies this
      ensures d == Decide(cfg, e, random(old(drawn)))
      ensures old(drawn) <= drawn <= old(drawn) + 1
    {
      var action := TrimSpace(e.action);
      var failed := e.result != "" && e.result != RESULT_SUCCESS;
      if e.statusCode >= 400 {
        failed := true;
      }
      if IsAdminAction(action) {
        return Decision(true, false, Critical, "admin_event", false, false);
      }
      if action == "system.startup" {
        return Decision(true, false, Normal, "system_event", false, false);
      }
      if action == "rate_limit.denied" {
        return Decision(true, true, Critical, "rate_limit_denied", false, true);
      }
      if action == "forwardauth.denied" {
        return Decision(true, false, Critical, "forwardauth_denied", false, true);
      }
      if IsPublicSummaryAction(action) {
        var rate := cfg.exchangeSuccessRate;
        var priority := Normal;
        if IsVerifyEvent(e) {
          rate := cfg.verifySuccessRate;
          priority := BestEffort;
        }
        if failed {
          rate := cfg.exchangeFailureRate;
          priority := Critical;
          if IsVerifyEvent(e) {
            rate := cfg.verifyFailureRate;
          }
        }
        var persist := Sample(rate);
        return Decision(persist, true, priority, "public_summary", !persist, true);
      }
      if IsPublicStepAction(action) {
        if failed {
          if cfg.publicMode == MODE_SUMMARY {
            return Decision(false, false, Normal, "summary_mode_step_skip", true, true);
          }
          return Decision(true, false, Critical, "public_failed_step", false, true);
        }
        if cfg.publicMode != MODE_STEP {
          return Decision(false, false, BestEffort, "step_skipped_by_mode", true, true);
        }
        var rate := cfg.exchangeSuccessRate;
        if IsVerifyEvent(e) {
          rate := cfg.verifySuccessRate;
        }
        var persist := Sample(rate);
        return Decision(persist, false, BestEffort, "public_success_step", !persist, true);
      }
      return Decision(true, false, if failed then Critical else Normal, "default_persist", false, false);
    }
  }

  /**
   Counting does not depend on sampling: whatever the two configurations and draws,
   an event is counted in both or in neither, and exactly for the four counted actions.
   */
  lemma {:induction false} CountingIgnoresSampling(cfg1: PolicyConfig, cfg2: PolicyConfig, e: Event,
        draw1: real, draw2: real)
    ensures Decide(cfg1, e, draw1).countMetric == Decide(cfg2, e, draw2).countMetric
    ensures Decide(cfg1, e, draw1).countMetric == IsCountedAction(TrimSpace(e.action))
    ensures Decide(cfg1, e, draw1).sampledOut == !Decide(cfg1, e, draw1).persist
  {
    hide Decide;
    CountsExactly(cfg1, e, draw1);
    CountsExactly(cfg2, e, draw2);
  }

  lemma CountedIsNotAdmin(action: string)
    requires IsCountedAction(action)
    ensures !IsAdminAction(action) && action != "system.startup" && action != "forwardauth.denied"
  {
    assert action[0] == 'r' || action[0] == 'g' || action[0] == 'e' || action[0] == 'v';
    assert "admin."[0] == 'a' && "audit."[0] == 'a' && "system.startup"[0] == 's' && "forwardauth.denied"[0] == 'f';
  }

  lemma CountsExactly(cfg: PolicyConfig, e: Event, draw: real)
    ensures Decide(cfg, e, draw).countMetric == IsCountedAction(TrimSpace(e.action))
    ensures Decide(cfg, e, draw).sampledOut == !Decide(cfg, e, draw).persist
  {
    hide TrimSpace, IsAdminAction, IsVerifyEvent, Failed, Sampled, IsPublicStepAction;
    var action := TrimSpace(e.action);
    if IsCountedAction(action) { CountedIsNotAdmin(action); }
  }

  predicate AtMost(a: PolicyConfig, b: PolicyConfig) {
    a.publicMode == b.publicMode
    && a.verifySuccessRate <= b.verifySuccessRate && a.verifyFailureRate <= b.verifyFailureRate
    && a.exchangeSuccessRate <= b.exchangeSuccessRate && a.exchangeFailureRate <= b.exchangeFailureRate
  }

  /** Raising sample rates never loses an event that was stored. */
  lemma HigherRatesKeepMore(low: PolicyConfig, high: PolicyConfig, e: Event, draw: real)
    requires AtMost(low, high) && Decide(low, e, draw).persist
    ensures Decide(high, e, draw).persist
  {
  }

  /** With every rate at one, every counted event is stored as well. */
  lemma FullRatesStoreWhatTheyCount(cfg: PolicyConfig, e: Event, draw: real)
    requires cfg.verifySuccessRate == cfg.verifyFailureRate == cfg.exchangeSuccessRate == cfg.exchangeFailureRate == 1.0
    requires Decide(cfg, e, draw).countMetric
    ensures Decide(cfg, e, draw).persist
  {
    hide TrimSpace, IsAdminAction, IsVerifyEvent, Failed, IsPublicStepAction, IsPublicSummaryAction;
  }

  /** Normalisation leaves rates between zero and one and a known mode, and settles. */
  lemma NormalizedSettles(cfg: PolicyConfig)
    ensures var n := Normalized(cfg);
      && Normalized(n) == n && KnownMode(n.publicMode)
      && 0.0 <= n.verifySuccessRate <= 1.0 && 0.0 <= n.verifyFailureRate <= 1.0
      && 0.0 <= n.exchangeSuccessRate <= 1.0 && 0.0 <= n.exchangeFailureRate <= 1.0
  {
    assert KnownMode(Normalized(cfg).publicMode);
    assert Normalized(cfg).publicMode != "" by {
      assert |MODE_SUMMARY| == 7 && |MODE_STEP| == 4 && |MODE_FAILURE_STEP| == 12;
    }
  }
}
