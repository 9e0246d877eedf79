/** What the trail of a request says about it: who is to blame, in which code, and which services answered. */
module Trails {
  import opened AuditEvent
  import opened Clock
  import opened Handlers
  import opened Text

  // ----- Causes -----

  predicate IsJson(r: Request) {
    "application/json" <= ToLower(TrimSpace(r.contentType))
  }

  predicate OriginRefused(cfg: Settings, r: Request) {
    cfg.originAllowed.Some? && !cfg.originAllowed.value(r.origin)
  }

  predicate BadBody(r: Request) {
    r.body.Malformed? || r.body.turnstileToken == "" || |r.body.turnstileToken| > 4096
  }

  /** It got as far as the first service. */
  predicate WellFormed(cfg: Settings, v: Visit) {
    v.admitted && IsJson(v.request) && !OriginRefused(cfg, v.request) && !BadBody(v.request)
  }

  /** It got as far as the second. */
  predicate TokenAccepted(cfg: Settings, v: Visit) {
    WellFormed(cfg, v) && v.world.siteverify.Accepted?
  }

  /** A service that was asked could not be reached, or did not do its part. */
  predicate ServiceFailed(cfg: Settings, v: Visit) {
    || (WellFormed(cfg, v) && v.world.siteverify.Unreachable?)
    || (TokenAccepted(cfg, v) && (v.world.exchange.Unreachable? || v.world.exchange.Refused?))
  }

  predicate ServicePanicked(cfg: Settings, v: Visit) {
    || (WellFormed(cfg, v) && v.world.siteverify.Panicked?)
    || (TokenAccepted(cfg, v) && v.world.exchange.Panicked?)
  }

  /** The code in the summary: what the response said, or 200 if it said nothing. */
  function FinalCode(cfg: Settings, v: Visit): int {
    if StatusOf(cfg, v).Some? then StatusOf(cfg, v).value else 200
  }

  lemma SummaryHasFinalCode(cfg: Settings, v: Visit, e: Event)
    requires Summarises(cfg, v, e)
    ensures e.statusCode == FinalCode(cfg, v)
  {
    hide StatusOf;
  }

  lemma InvalidByCause(cfg: Settings, r: Request)
    ensures Invalid(cfg, r).None? <==> IsJson(r) && !OriginRefused(cfg, r) && !BadBody(r)
    ensures Invalid(cfg, r).Some? ==>
      Invalid(cfg, r).value == if !IsJson(r) then 415 else if OriginRefused(cfg, r) then 403 else 400
  {
    hide TrimSpace, ToLower;
  }

  /**
   The code of an exchange by its cause: 429 from the limiter, then 415 for the content
   type, 403 for the origin, 400 for the body, the token or its refusal, 502 for a service;
   otherwise 200. So it is 5xx exactly if a service failed, and 4xx exactly if the request
   was turned away or its token refused. There is no response exactly if a service panicked.
   */
  lemma ExchangeCodes(cfg: Settings, v: Visit)
    requires v.route.ToExchange?
    ensures var (code, r) := (FinalCode(cfg, v), v.request);
      && code in {200, 400, 403, 415, 429, 502}
      && (code == 429 <==> !v.admitted)
      && (code == 415 <==> v.admitted && !IsJson(r))
      && (code == 403 <==> v.admitted && IsJson(r) && OriginRefused(cfg, r))
      && (code == 400 <==> v.admitted && IsJson(r) && !OriginRefused(cfg, r)
                           && (BadBody(r) || v.world.siteverify.Refused?))
      && (code == 502 <==> ServiceFailed(cfg, v))
    ensures 500 <= FinalCode(cfg, v) <= 599 <==> ServiceFailed(cfg, v)
    ensures 400 <= FinalCode(cfg, v) <= 499 <==> !WellFormed(cfg, v) || v.world.siteverify.Refused?
    ensures StatusOf(cfg, v).None? <==> ServicePanicked(cfg, v)
  {
    hide IsJson, OriginRefused, BadBody, Invalid, VerifyStatus;
    InvalidByCause(cfg, v.request);
  }

  /** No token, or one that the check does not accept. */
  predicate CheckDenied(v: Visit) {
    v.admitted && (v.request.appCheckToken == "" || v.world.check.Refused? || v.world.check.Unreachable?)
  }

  /** The code of a verification by its cause: the limiter's, the configured failure, the configured success. */
  lemma VerifyCodes(cfg: Settings, v: Visit)
    requires v.route.ToVerify?
    ensures !v.admitted ==> FinalCode(cfg, v) == 429
    ensures CheckDenied(v) ==> FinalCode(cfg, v) == cfg.failureStatus
    ensures v.admitted && !CheckDenied(v) && v.world.check.Accepted? ==> FinalCode(cfg, v) == cfg.successStatus
    ensures v.admitted && !CheckDenied(v) && v.world.check.Panicked? ==> FinalCode(cfg, v) == 200
    ensures StatusOf(cfg, v).None? <==> v.admitted && !CheckDenied(v) && v.world.check.Panicked?
  {
    hide ExchangeStatus;
  }

  // ----- Steps -----

  function Short(yes: bool): nat {
    if yes then 1 else 0
  }

  /** The code of a step of siteverify, by its answer. */
  predicate SiteverifyCode(answer: Answer, code: int) {
    && (answer.Accepted? <==> code == 200) && (answer.Refused? <==> code == 400)
    && (answer.Unreachable? <==> code == 502)
  }

  /** What a step says of its service: its name, the flag of the request, and the codes of a refusal. */
  predicate Names(e: Event, service: string, limitedUse: bool, codes: Option<string>) {
    && e.metadata.Entries?
    && var m := e.metadata.entries;
    && m.Keys == {"service", "limitedUse"} + (if codes.Some? then {"errorCodes"} else {})
    && m["service"] == Words(service) && m["limitedUse"] == Scalar(if limitedUse then 1 else 0)
    && (codes.Some? ==> m["errorCodes"] == Other(codes.value))
  }

  predicate AboutRequest(e: Event, r: Request) {
    e.method_ == r.method_ && e.path == r.path && e.endpoint == r.endpoint && e.userAgent == r.userAgent
    && e.actor == "public"
  }

  /** The step of siteverify, by its answer. */
  predicate SiteverifyStep(v: Visit, e: Event)
    requires v.request.body.ExchangeRequest?
  {
    && e.action == "turnstile.verify" && SiteverifyCode(v.world.siteverify, e.statusCode)
    && (e.result == "success" <==> v.world.siteverify.Accepted?)
    && Names(e, "turnstile", v.request.body.limitedUse,
             if v.world.siteverify.Refused? then Some(v.world.errorCodes) else None)
  }

  /** The step of the token exchange, by its answer. */
  predicate ExchangeStep(v: Visit, e: Event)
    requires v.request.body.ExchangeRequest?
  {
    && e.action == "appcheck.exchange" && e.statusCode == (if v.world.exchange.Accepted? then 200 else 502)
    && (e.result == "success" <==> v.world.exchange.Accepted?)
    && Names(e, "firebase_appcheck", v.request.body.limitedUse, None)
  }

  predicate AllAbout(es: seq<Event>, r: Request) {
    forall i :: 0 <= i < |es| ==> AboutRequest(es[i], r)
  }

  lemma StepsOfExchange(cfg: Settings, v: Visit)
    requires v.route.ToExchange?
    ensures var (steps, verified) := (StepsOf(cfg, v), WellFormed(cfg, v) && !v.world.siteverify.Panicked?);
      var exchanged := TokenAccepted(cfg, v) && !v.world.exchange.Panicked?;
      && |steps| == Short(verified) + Short(exchanged) && AllAbout(steps, v.request)
      && (verified ==> SiteverifyStep(v, steps[0]))
      && (exchanged ==> ExchangeStep(v, steps[1]))
  {
    InvalidByCause(cfg, v.request);
    hide Invalid, IsJson, OriginRefused, VerifySteps;
    assert |RESULT_SUCCESS| == 7 && RESULT_FAILURE[0] == 'f' && RESULT_SUCCESS[0] == 's';
  }

  /**
   An exchange leaves one step for each service that answered, in the order they were
   asked, each with the code of its answer, and then the summary.
   */
  lemma StepsNameServices(cfg: Settings, v: Visit, es: seq<Event>)
    requires IsTrail(cfg, v, es) && v.route.ToExchange?
    ensures var verified := WellFormed(cfg, v) && !v.world.siteverify.Panicked?;
      var exchanged := TokenAccepted(cfg, v) && !v.world.exchange.Panicked?;
      && |es| == Short(verified) + Short(exchanged) + 1 && AllAbout(es, v.request)
      && (verified ==> SiteverifyStep(v, es[0]))
      && (exchanged ==> ExchangeStep(v, es[1]))
      && es[|es| - 1].action == (if v.admitted then "exchange.request" else "rate_limit.denied")
      && es[|es| - 1].statusCode == FinalCode(cfg, v)
  {
    hide StepsOf, SiteverifyStep, ExchangeStep, StatusOf;
    StepsOfExchange(cfg, v);
    var steps := es[..|es| - 1];
    assert forall i :: 0 <= i < |steps| ==> es[i] == steps[i] && AboutRequest(steps[i], v.request);
  }

  /**
   A verification leaves one step for a token that was accepted and two for one that was
   denied or missing, with the configured codes, and then the summary.
   */
  lemma StepsOfVerification(cfg: Settings, v: Visit, es: seq<Event>)
    requires IsTrail(cfg, v, es) && v.route.ToVerify?
    ensures var accepted := v.admitted && !CheckDenied(v) && v.world.check.Accepted?;
      && |es| == (if CheckDenied(v) then 3 else if accepted then 2 else 1)
      && (CheckDenied(v) ==>
            && es[0].action == "appcheck.verify" && es[0].statusCode == cfg.failureStatus && es[0].result == "failure"
            && es[1].action == "forwardauth.denied" && es[1].statusCode == cfg.failureStatus && es[1].result == "denied"
            && es[0].metadata == es[1].metadata == Entries(map["service" := Words("firebase_appcheck")]))
      && (accepted ==>
            && es[0].action == "appcheck.verify" && es[0].statusCode == cfg.successStatus && es[0].result == "success"
            && es[0].metadata == Entries(map["service" := Words("firebase_appcheck")]))
      && es[|es| - 1].action == (if v.admitted then "verify.request" else "rate_limit.denied")
      && es[|es| - 1].statusCode == FinalCode(cfg, v)
  {
    hide ExchangeSteps, StatusOf;
    var steps := es[..|es| - 1];
    assert steps == StepsOf(cfg, v);
    assert forall i :: 0 <= i < |steps| ==> es[i] == steps[i];
  }

  /** The result in the summary: denied by the limiter, or by the code. */
  lemma ResultByCode(cfg: Settings, v: Visit, e: Event)
    requires Summarises(cfg, v, e)
    ensures e.result == if !v.admitted then "denied" else if FinalCode(cfg, v) >= 400 then "failure" else "success"
  {
    hide StatusOf;
  }

  /**
   The summary of an exchange has the flag of a request that got as far as a token, even
   one that is too large; no other summary has metadata.
   */
  lemma SummaryFlag(cfg: Settings, v: Visit, e: Event)
    requires Summarises(cfg, v, e)
    ensures v.admitted && v.route.ToExchange? ==>
      && e.metadata.Entries? && e.metadata.entries.Keys == {"limitedUse"}
      && (e.metadata.entries["limitedUse"] == Scalar(1) || e.metadata.entries["limitedUse"] == Scalar(0))
      && (e.metadata.entries["limitedUse"] == Scalar(1) <==> SawFlag(cfg, v.request))
    ensures !v.admitted || v.route.ToVerify? ==> e.metadata == NilMetadata
  {
    hide StatusOf, TrimSpace, ToLower;
  }

  predicate SawFlag(cfg: Settings, r: Request) {
    && IsJson(r) && !OriginRefused(cfg, r)
    && r.body.ExchangeRequest? && r.body.turnstileToken != "" && r.body.limitedUse
  }

  // ----- Their metadata survives preparation -----

  /** The keys the handlers use. */
  predicate OrdinaryKeys(m: Metadata) {
    m.Entries? && m.entries.Keys <= {"service", "limitedUse", "errorCodes"}
  }

  lemma LowerKeys()
    ensures ToLower(TrimSpace("service")) == "service" && ToLower(TrimSpace("limitedUse")) == "limiteduse"
    ensures ToLower(TrimSpace("errorCodes")) == "errorcodes"
  {
    assert TrimSpace("service") == "service" && TrimSpace("limitedUse") == "limitedUse";
    assert TrimSpace("errorCodes") == "errorCodes";
    assert ToLower("service") == "service" && ToLower("limitedUse") == "limiteduse";
    assert ToLower("errorCodes") == "errorcodes";
  }

  predicate Lacks(s: string, c: char) {
    forall i :: 0 <= i < |s| ==> s[i] != c
  }

  lemma LacksPartAt(part: string, s: string, j: nat)
    requires j < |part| && Lacks(s, part[j])
    ensures !Occurs(part, s)
  {
    LacksPart(part, s, part[j]);
  }

  /** A few letters are in all the words that are withheld. */
  lemma WithoutTheirLetters(key: string)
    requires var k := ToLower(TrimSpace(key));
      Lacks(k, 'p') && Lacks(k, 'k') && Lacks(k, 'a') && Lacks(k, 'b') && (Lacks(k, 't') || Lacks(k, 'r'))
    ensures !NamesSecret(key)
  {
    var k := ToLower(TrimSpace(key));
    hide ToLower, TrimSpace, Occurs, Lacks;
    LacksPartAt("password", k, 0);
    LacksPartAt("passwd", k, 0);
    LacksPartAt("secret", k, if Lacks(k, 't') then 5 else 3);
    LacksPartAt("token", k, 2);
    LacksPartAt("authorization", k, 0);
    LacksPartAt("cookie", k, 3);
    LacksPartAt("set-cookie", k, 7);
    LacksPartAt("body", k, 0);
    LacksPartAt("payload", k, 0);
    LacksPartAt("credential", k, 8);
    LacksPartAt("service_account", k, 8);
    LacksPartAt("apikey", k, 0);
    LacksPartAt("api_key", k, 0);
  }

  /** None of them contains a word that is withheld. */
  lemma OrdinaryKeyIsKept(key: string)
    requires key in {"service", "limitedUse", "errorCodes"}
    ensures !NamesSecret(key)
  {
    LowerKeys();
    hide ToLower, TrimSpace, NamesSecret;
    WithoutTheirLetters(key);
  }

  /** Preparing an event of the handlers keeps all its entries, with their short values. */
  lemma HandlersMetadataIsKept(e: Event, random: string, now: Time)
    requires OrdinaryKeys(e.metadata) && e.metadata.entries != map[]
    ensures var kept := Prepared(e, random, now).metadata;
      && kept.Entries? && kept.entries.Keys == e.metadata.entries.Keys
      && forall k :: k in kept.entries ==> ValueKept(e.metadata.entries[k], kept.entries[k])
  {
    MetadataIsSafe(e, random, now);
    hide NamesSecret, Prepared, ValueKept;
    forall k | k in e.metadata.entries ensures !NamesSecret(k) { OrdinaryKeyIsKept(k); }
  }

  /** So the steps of a request are stored with the service they name. */
  lemma StoredStepsNameServices(cfg: Settings, v: Visit, es: seq<Event>, i: nat, random: string, now: Time)
    requires IsTrail(cfg, v, es) && i < |es| - 1
    ensures es[i].metadata.Entries? && "service" in es[i].metadata.entries
    ensures var kept := StoredForm(Prepared(es[i], random, now)).metadata;
      kept.Entries? && kept.entries.Keys == es[i].metadata.entries.Keys
      && kept.entries["service"] == es[i].metadata.entries["service"]
  {
    StepHasService(cfg, v, i);
    assert es[i] == es[..|es| - 1][i];
    hide StepsOf, Prepared, Summarises;
    HandlersMetadataIsKept(es[i], random, now);
  }

  lemma StepHasService(cfg: Settings, v: Visit, i: nat)
    requires i < |StepsOf(cfg, v)|
    ensures var m := StepsOf(cfg, v)[i].metadata;
      OrdinaryKeys(m) && "service" in m.entries && m.entries["service"].Words? && |m.entries["service"].text| <= 256
  {
    hide Invalid;
  }
}
