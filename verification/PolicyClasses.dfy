/** What the sample rates, the mode and the priority of a policy are for. */
module PolicyClasses {
  import opened AuditEvent
  import opened AuditPolicy
  import opened Text

  // ----- Classes of public events -----

  /** About verification, by its action or by where it happened. */
  predicate VerifySide(e: Event) {
    || e.action in {"verify.request", "appcheck.verify", "forwardauth.denied"}
    || Occurs("verify", ToLower(e.endpoint)) || Occurs("/verify", ToLower(e.path))
  }

  /** Something went wrong, by its result or by its status. */
  predicate WentWrong(e: Event) {
    e.result !in {"", "success"} || e.statusCode > 399
  }

  datatype Class = VerifySuccess | VerifyFailure | ExchangeSuccess | ExchangeFailure

  function ClassOf(e: Event): Class {
    if VerifySide(e) then if WentWrong(e) then VerifyFailure else VerifySuccess
    else if WentWrong(e) then ExchangeFailure else ExchangeSuccess
  }

  predicate IsSummary(e: Event) {
    TrimSpace(e.action) in {"gateway.request", "exchange.request", "verify.request"}
  }

  predicate IsStep(e: Event) {
    TrimSpace(e.action) in {"turnstile.verify", "appcheck.exchange", "appcheck.verify"}
  }

  /** The rate of this class is 1 and the others are 0. */
  predicate OnlyRate(cfg: PolicyConfig, c: Class) {
    && cfg.verifySuccessRate == (if c.VerifySuccess? then 1.0 else 0.0)
    && cfg.verifyFailureRate == (if c.VerifyFailure? then 1.0 else 0.0)
    && cfg.exchangeSuccessRate == (if c.ExchangeSuccess? then 1.0 else 0.0)
    && cfg.exchangeFailureRate == (if c.ExchangeFailure? then 1.0 else 0.0)
  }

  /** Two configurations with the same mode and the same rate for this class. */
  predicate AgreeOn(a: PolicyConfig, b: PolicyConfig, c: Class) {
    && a.publicMode == b.publicMode
    && (c.VerifySuccess? ==> a.verifySuccessRate == b.verifySuccessRate)
    && (c.VerifyFailure? ==> a.verifyFailureRate == b.verifyFailureRate)
    && (c.ExchangeSuccess? ==> a.exchangeSuccessRate == b.exchangeSuccessRate)
    && (c.ExchangeFailure? ==> a.exchangeFailureRate == b.exchangeFailureRate)
  }

  lemma SidesAgree(e: Event)
    ensures IsVerifyEvent(e) <==> VerifySide(e)
    ensures Failed(e) <==> WentWrong(e)
  {
    ContainsExactly(ToLower(e.endpoint), "verify");
    ContainsExactly(ToLower(e.path), "/verify");
    assert RESULT_SUCCESS == "success";
    hide ToLower, Contains, Occurs;
  }

  lemma SummaryIsDecided(cfg: PolicyConfig, e: Event, draw: real)
    requires IsSummary(e)
    ensures Decide(cfg, e, draw) == DecideSummary(cfg, e, draw)
  {
    hide TrimSpace, DecideSummary;
    var action := TrimSpace(e.action);
    CountedIsNotAdmin(action);
    assert action[0] != 'r';
  }

  lemma StepIsDecided(cfg: PolicyConfig, e: Event, draw: real)
    requires IsStep(e)
    ensures Decide(cfg, e, draw) == DecideStep(cfg, e, draw) && !IsSummary(e)
  {
    hide TrimSpace, DecideStep;
    var action := TrimSpace(e.action);
    StepIsNoOther(action);
  }

  lemma StepIsNoOther(action: string)
    requires action in {"turnstile.verify", "appcheck.exchange", "appcheck.verify"}
    ensures !IsAdminAction(action) && !IsPublicSummaryAction(action) && IsPublicStepAction(action)
    ensures action != "system.startup" && action != "rate_limit.denied" && action != "forwardauth.denied"
  {
    assert action[0] == 't' || (action[0] == 'a' && action[1] == 'p');
    assert "admin."[1] == 'd' && "audit."[1] == 'u';
  }

  /** A rate of 1 with the others at 0 stores exactly the summaries of its class, whatever is drawn. */
  lemma OneRateStoresItsClass(cfg: PolicyConfig, c: Class, e: Event, draw: real)
    requires OnlyRate(cfg, c) && IsSummary(e)
    ensures Decide(cfg, e, draw).persist <==> ClassOf(e) == c
  {
    hide Decide, VerifySide, WentWrong, IsVerifyEvent, Failed, IsSummary;
    SummaryIsDecided(cfg, e, draw);
    SidesAgree(e);
  }

  /** The other three rates make no difference to the decision on a summary. */
  lemma OtherRatesDoNotMatter(a: PolicyConfig, b: PolicyConfig, e: Event, draw: real)
    requires IsSummary(e) && AgreeOn(a, b, ClassOf(e))
    ensures Decide(a, e, draw) == Decide(b, e, draw)
  {
    hide Decide, VerifySide, WentWrong, IsVerifyEvent, Failed, IsSummary, Sampled;
    SummaryIsDecided(a, e, draw);
    SummaryIsDecided(b, e, draw);
    SidesAgree(e);
  }

  /** With one rate for all, a summary is stored for the draws below it, and at rate 1 for all draws. */
  lemma RateIsTheShare(cfg: PolicyConfig, e: Event, draw: real)
    requires IsSummary(e) && 0.0 <= draw < 1.0
    requires cfg.verifySuccessRate == cfg.verifyFailureRate == cfg.exchangeSuccessRate == cfg.exchangeFailureRate
    ensures Decide(cfg, e, draw).persist <==> draw < cfg.verifySuccessRate
  {
    hide Decide, IsVerifyEvent, Failed, IsSummary;
    SummaryIsDecided(cfg, e, draw);
  }

  /**
   Failed steps are stored in every known mode but `summary`; successful ones only in mode
   `step`, and there at the success rate of their side.
   */
  lemma StepsByMode(cfg: PolicyConfig, e: Event, draw: real)
    requires IsStep(e) && cfg.publicMode in {"summary", "step", "failure_step"} && 0.0 <= draw < 1.0
    ensures WentWrong(e) ==>
      (Decide(cfg, e, draw).persist <==> cfg.publicMode in {"step", "failure_step"})
    ensures !WentWrong(e) ==>
      (Decide(cfg, e, draw).persist <==>
        cfg.publicMode == "step" && draw < if VerifySide(e) then cfg.verifySuccessRate else cfg.exchangeSuccessRate)
  {
    hide Decide, VerifySide, WentWrong, IsVerifyEvent, Failed, IsStep;
    StepIsDecided(cfg, e, draw);
    SidesAgree(e);
    assert |MODE_SUMMARY| == 7 && |MODE_STEP| == 4 && |MODE_FAILURE_STEP| == 12;
  }

  /** Every other event is stored, whatever the configuration. */
  lemma OthersAreStored(cfg: PolicyConfig, e: Event, draw: real)
    requires !IsSummary(e) && !IsStep(e)
    ensures Decide(cfg, e, draw).persist
  {
    hide TrimSpace, Failed, IsAdminAction;
  }

  /** Actions whose events always wait for room. */
  predicate AlwaysCritical(action: string) {
    || "admin." <= action || "audit." <= action
    || action == "rate_limit.denied" || action == "forwardauth.denied"
  }

  /**
   What the priority says: whatever is administrative or denied is critical, and so is
   everything that went wrong, but the start of the system and the steps that are not
   stored; best effort are the successful steps and the successes of verification.
   */
  lemma PriorityByKind(cfg: PolicyConfig, e: Event, draw: real)
    ensures Decide(cfg, e, draw).priority == Critical <==>
      AlwaysCritical(TrimSpace(e.action))
      || (WentWrong(e) && TrimSpace(e.action) != "system.startup" && !(IsStep(e) && cfg.publicMode == "summary"))
    ensures Decide(cfg, e, draw).priority == BestEffort <==>
      !WentWrong(e) && ((IsSummary(e) && VerifySide(e)) || IsStep(e))
  {
    SidesAgree(e);
    var action := TrimSpace(e.action);
    hide TrimSpace, VerifySide, WentWrong, IsVerifyEvent, Failed, Sampled;
    if IsStep(e) {
      StepIsNoOther(action);
    } else if IsSummary(e) {
      CountedIsNotAdmin(action);
      assert action[0] != 'r';
    }
  }

  /** The events of public requests, as the policy reports them. */
  lemma PublicByAction(cfg: PolicyConfig, e: Event, draw: real)
    ensures Decide(cfg, e, draw).publicAction <==>
      IsSummary(e) || IsStep(e) || TrimSpace(e.action) in {"rate_limit.denied", "forwardauth.denied"}
  {
    var action := TrimSpace(e.action);
    hide TrimSpace, IsVerifyEvent, Failed, Sampled;
    if IsStep(e) {
      StepIsNoOther(action);
    } else if IsSummary(e) {
      CountedIsNotAdmin(action);
    } else if action in {"rate_limit.denied", "forwardauth.denied"} {
      assert action[0] == 'r' || action[0] == 'f';
      assert "admin."[0] == 'a' && "audit."[0] == 'a' && "system.startup"[0] == 's';
    }
  }

  /** Every failed step that is stored, and every failed or denied summary, waits for room. */
  lemma StoredFailuresAreCritical(cfg: PolicyConfig, e: Event, draw: real)
    requires WentWrong(e) && TrimSpace(e.action) != "system.startup"
    requires Decide(cfg, e, draw).persist || Decide(cfg, e, draw).countMetric
    ensures Decide(cfg, e, draw).priority == Critical
  {
    hide WentWrong, Decide, AlwaysCritical;
    PriorityByKind(cfg, e, draw);
    if IsStep(e) && cfg.publicMode == "summary" { SkippedInSummaryMode(cfg, e, draw); }
  }

  lemma SkippedInSummaryMode(cfg: PolicyConfig, e: Event, draw: real)
    requires WentWrong(e) && IsStep(e) && cfg.publicMode == "summary"
    ensures !Decide(cfg, e, draw).persist && !Decide(cfg, e, draw).countMetric
  {
    hide Decide, VerifySide, WentWrong, IsVerifyEvent, Failed, IsStep;
    StepIsDecided(cfg, e, draw);
    SidesAgree(e);
  }

  lemma ReasonsDiffer()
    ensures |"public_summary"| == 14 && |"rate_limit_denied"| == 17 && |"forwardauth_denied"| == 18
    ensures |"public_failed_step"| == 18 && |"summary_mode_step_skip"| == 22 && |"public_success_step"| == 19
    ensures |"step_skipped_by_mode"| == 20 && |"admin_event"| == 11 && |"system_event"| == 12
    ensures |"default_persist"| == 15 && "public_failed_step"[0] == 'p' && "forwardauth_denied"[0] == 'f'
  {
  }

  lemma DeniedIsNotAdmin(action: string)
    ensures action in {"rate_limit.denied", "forwardauth.denied"} ==>
      !IsAdminAction(action) && action != "system.startup"
    ensures "rate_limit.denied" != "forwardauth.denied"
  {
    assert "rate_limit.denied"[0] == 'r' && "forwardauth.denied"[0] == 'f';
    assert "admin."[0] == 'a' && "audit."[0] == 'a' && "system.startup"[0] == 's';
  }

  /** The reason given for a decision on a public event tells its kind, and why it is not stored. */
  lemma ReasonTells(cfg: PolicyConfig, e: Event, draw: real)
    ensures var d := Decide(cfg, e, draw);
      && (d.reason == "public_summary" <==> IsSummary(e))
      && (d.reason == "rate_limit_denied" <==> TrimSpace(e.action) == "rate_limit.denied")
      && (d.reason == "forwardauth_denied" <==> TrimSpace(e.action) == "forwardauth.denied")
      && (d.reason in {"public_failed_step", "summary_mode_step_skip"} <==> IsStep(e) && WentWrong(e))
      && (d.reason in {"public_success_step", "step_skipped_by_mode"} <==> IsStep(e) && !WentWrong(e))
      && (d.reason in {"summary_mode_step_skip", "step_skipped_by_mode"} ==> !d.persist)
      && (d.reason == "public_failed_step" ==> d.persist)
      && (d.reason == "public_success_step" ==> cfg.publicMode == "step")
  {
    ReasonsDiffer();
    var action := TrimSpace(e.action);
    assert |MODE_SUMMARY| == 7 && |MODE_STEP| == 4 && |MODE_FAILURE_STEP| == 12;
    hide TrimSpace, VerifySide, WentWrong, IsVerifyEvent, Failed, Sampled;
    SidesAgree(e);
    if IsStep(e) {
      StepIsNoOther(action);
    } else if IsSummary(e) {
      CountedIsNotAdmin(action);
      assert action[0] != 'r';
    } else {
      DeniedIsNotAdmin(action);
    }
  }

  // ----- Configurations -----

  /** Nothing set: the mode is `failure_step`, and all but the successes of verification are stored. */
  lemma DefaultConfiguration(e: Event, draw: real)
    ensures var cfg := Normalized(PolicyConfig("", 0.0, 0.0, 0.0, 0.0));
      && cfg == PolicyConfig("failure_step", 0.0, 1.0, 1.0, 1.0)
      && (IsSummary(e) ==> (Decide(cfg, e, draw).persist <==> !VerifySide(e) || WentWrong(e)))
      && (IsStep(e) ==> (Decide(cfg, e, draw).persist <==> WentWrong(e)))
  {
    var cfg := Normalized(PolicyConfig("", 0.0, 0.0, 0.0, 0.0));
    assert |MODE_SUMMARY| == 7 && |MODE_STEP| == 4 && |MODE_FAILURE_STEP| == 12;
    hide Decide, VerifySide, WentWrong, IsVerifyEvent, Failed, TrimSpace;
    SidesAgree(e);
    if IsSummary(e) { SummaryIsDecided(cfg, e, draw); }
    if IsStep(e) { StepIsDecided(cfg, e, draw); }
  }

  /** A failed verification is stored by default, and a successful one is not. */
  lemma DefaultKeepsFailures(e: Event, draw: real)
    requires e.action == "verify.request"
    ensures var cfg := Normalized(PolicyConfig("", 0.0, 0.0, 0.0, 0.0));
      && (e.statusCode == 401 ==> Decide(cfg, e, draw).persist)
      && (e.statusCode == 200 && e.result == "success" ==> !Decide(cfg, e, draw).persist)
  {
    assert TrimSpace("verify.request") == "verify.request";
    hide Decide, TrimSpace, Normalized;
    DefaultConfiguration(e, draw);
  }

  /**
   A set configuration keeps its mode if it is known, and its rates if they are rates; a
   negative rate means 0 for the successes of verification, and 1 otherwise.
   */
  lemma SetRatesAreKept(cfg: PolicyConfig)
    requires cfg != PolicyConfig("", 0.0, 0.0, 0.0, 0.0)
    ensures var n := Normalized(cfg);
      && n.publicMode
           == (if cfg.publicMode in {"summary", "step", "failure_step"} then cfg.publicMode else "failure_step")
      && n.verifySuccessRate == Nearest(cfg.verifySuccessRate)
      && n.verifyFailureRate == (if cfg.verifyFailureRate < 0.0 then 1.0 else Nearest(cfg.verifyFailureRate))
      && n.exchangeSuccessRate == (if cfg.exchangeSuccessRate < 0.0 then 1.0 else Nearest(cfg.exchangeSuccessRate))
      && n.exchangeFailureRate == (if cfg.exchangeFailureRate < 0.0 then 1.0 else Nearest(cfg.exchangeFailureRate))
  {
    assert MODE_SUMMARY == "summary" && MODE_STEP == "step" && MODE_FAILURE_STEP == "failure_step";
  }

  /** The rate between 0 and 1 that is nearest. */
  function Nearest(rate: real): (r: real)
    ensures 0.0 <= r <= 1.0 && (0.0 <= rate <= 1.0 ==> r == rate)
    ensures rate > 1.0 ==> r == 1.0
    ensures rate < 0.0 ==> r == 0.0
  {
    if rate <= 0.0 then 0.0 else if rate >= 1.0 then 1.0 else rate
  }
}
