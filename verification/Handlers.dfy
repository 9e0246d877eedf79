/** The public endpoints as emitters of audit events, and how their requests are counted. */
module Handlers {
  import opened AuditEvent
  import opened AuditPolicy
  import opened Clock
  import RateLimit
  import opened Recording
  import opened Repository
  import opened Store
  import opened Sums
  import opened Text

  // ----- Requests and what the services answer -----

  datatype Body = Malformed | ExchangeRequest(turnstileToken: string, limitedUse: bool)

  /** `endpoint` is the route pattern; `appCheckToken` is the header the verify endpoint reads. */
  datatype Request = Request(
    method_: string,
    path: string,
    endpoint: string,
    userAgent: string,
    clientIP: string,
    contentType: string,
    origin: string,
    body: Body,
    appCheckToken: string)

  datatype Answer = Unreachable | Refused | Accepted | Panicked

  /**
   What siteverify, the token exchange and the token check would answer; a check that
   fails is refused. A refusal by siteverify comes with error codes.
   */
  datatype World = World(siteverify: Answer, errorCodes: string, exchange: Answer, check: Answer)

  /** Origins are checked only if there is a rule for them. */
  datatype Settings = Settings(originAllowed: Option<string -> bool>, successStatus: int, failureStatus: int)

  // ----- The response and the recorder -----

  /** The response under construction: 200 until something else is written. */
  class Context {
    const request: Request
    var status: int

    constructor (request: Request)
      ensures this.request == request && status == 200
    {
      this.request := request;
      status := 200;
    }

    method SetStatus(code: int)
      modifies this
      ensures status == if code > 0 then code else old(status)
    {
      if code > 0 {
        status := code;
      }
    }
  }

  /** What is handed to the recorder, in order. */
  class Trail {
    var events: seq<Event>

    constructor ()
      ensures events == []
    {
      events := [];
    }

    method Record(e: Event)
      modifies this
      ensures events == old(events) + [e]
    {
      events := events + [e];
    }
  }

  function RequestAuditEvent(r: Request, status: int, action: string, message: string): Event {
    Event("", ZERO_TIME, "public", action, r.method_, r.path, r.endpoint, status,
          if status >= 400 then RESULT_FAILURE else RESULT_SUCCESS, r.userAgent, message, NilMetadata)
  }

  function LimitedUse(yes: bool): Metadata {
    Entries(map["limitedUse" := Scalar(if yes then 1 else 0)])
  }

  function Service(name: string): Metadata {
    Entries(map["service" := Words(name)])
  }

  function ExchangeData(name: string, limitedUse: bool): Metadata {
    Entries(map["service" := Words(name), "limitedUse" := Scalar(if limitedUse then 1 else 0)])
  }

  /** The codes as they print. */
  function RefusalData(limitedUse: bool, errorCodes: string): Metadata {
    Entries(ExchangeData("turnstile", limitedUse).entries["errorCodes" := Other(errorCodes)])
  }

  function Step(r: Request, action: string, status: int, result: string, metadata: Metadata): Event {
    RequestAuditEvent(r, status, action, "").(result := result, metadata := metadata)
  }

  predicate HasJSONContentType(r: Request) {
    HasPrefix(ToLower(TrimSpace(r.contentType)), "application/json")
  }

  // ----- POST exchange -----

  const MAX_TOKEN := 4096

  /** Why a request is turned away before any service is asked. */
  function Invalid(cfg: Settings, r: Request): Option<int> {
    if !HasJSONContentType(r) then Some(415)
    else if cfg.originAllowed.Some? && !cfg.originAllowed.value(r.origin) then Some(403)
    else if r.body.Malformed? || r.body.turnstileToken == "" || |r.body.turnstileToken| > MAX_TOKEN then Some(400)
    else None
  }

  /** The status the client would get; none when a service panics first. */
  function ExchangeStatus(cfg: Settings, r: Request, world: World): Option<int> {
    if Invalid(cfg, r).Some? then Invalid(cfg, r)
    else
      match (world.siteverify, world.exchange)
      case (Panicked, _) => None
      case (Unreachable, _) => Some(502)
      case (Refused, _) => Some(400)
      case (Accepted, Panicked) => None
      case (Accepted, Accepted) => Some(200)
      case (Accepted, _) => Some(502)
  }

  /** What the response says: nothing new if nothing was written. */
  function Written(status: Option<int>, before: int): int {
    if status.Some? then status.value else before
  }

  function StepResult(status: int): string {
    if status == 200 then RESULT_SUCCESS else RESULT_FAILURE
  }

  /** One step event for each service that answered. */
  function ExchangeSteps(cfg: Settings, r: Request, world: World): seq<Event> {
    if Invalid(cfg, r).Some? || world.siteverify.Panicked? then []
    else
      var first := match world.siteverify case Accepted => 200 case Refused => 400 case _ => 502;
      var second := if world.exchange.Accepted? then 200 else 502;
      var limitedUse := r.body.limitedUse;
      var data := if world.siteverify.Refused? then RefusalData(limitedUse, world.errorCodes)
                  else ExchangeData("turnstile", limitedUse);
      [Step(r, "turnstile.verify", first, StepResult(first), data)]
      + if !world.siteverify.Accepted? || world.exchange.Panicked? then []
        else [Step(r, "appcheck.exchange", second, StepResult(second), ExchangeData("firebase_appcheck", limitedUse))]
  }

  /** The flag is read once the body has been found to carry a token, even one that is too large. */
  predicate SeenLimitedUse(cfg: Settings, r: Request) {
    && HasJSONContentType(r) && (cfg.originAllowed.Some? ==> cfg.originAllowed.value(r.origin))
    && r.body.ExchangeRequest? && r.body.turnstileToken != "" && r.body.limitedUse
  }

  function ExchangeSummary(r: Request, status: int, limitedUse: bool): Event {
    RequestAuditEvent(r, status, "exchange.request", "Exchange request completed").(metadata := LimitedUse(limitedUse))
  }

  function VerifySummary(r: Request, status: int): Event {
    RequestAuditEvent(r, status, "verify.request", "Verify request completed")
  }

  function LimitSummary(r: Request): Event {
    RequestAuditEvent(r, 429, "rate_limit.denied", "Public endpoint rate limit exceeded").(result := RESULT_DENIED)
  }

  class ExchangeHandler {
    const cfg: Settings
    const audit: Trail

    constructor (cfg: Settings, audit: Trail)
      ensures this.cfg == cfg && this.audit == audit
    {
      this.cfg, this.audit := cfg, audit;
    }

    /** The deferred record comes last, whether or not the rest returned in peace. */
    method Handle(c: Context, world: World) returns (panicked: bool)
      modifies c, audit
      ensures panicked <==> ExchangeStatus(cfg, c.request, world).None?
      ensures c.status == Written(ExchangeStatus(cfg, c.request, world), old(c.status))
      ensures audit.events == old(audit.events) + ExchangeSteps(cfg, c.request, world)
        + [ExchangeSummary(c.request, c.status, SeenLimitedUse(cfg, c.request))]
    {
      var limitedUse;
      limitedUse, panicked := Respond(c, world);
      audit.Record(ExchangeSummary(c.request, c.status, limitedUse));
    }

    method Respond(c: Context, world: World) returns (limitedUse: bool, panicked: bool)
      modifies c, audit
      ensures panicked <==> ExchangeStatus(cfg, c.request, world).None?
      ensures c.status == Written(ExchangeStatus(cfg, c.request, world), old(c.status))
      ensures audit.events == old(audit.events) + ExchangeSteps(cfg, c.request, world)
      ensures limitedUse == SeenLimitedUse(cfg, c.request)
    {
      var r := c.request;
      limitedUse, panicked := false, false;
      if !HasJSONContentType(r) {
        c.SetStatus(415);
        return;
      }
      if cfg.originAllowed.Some? {
        if !cfg.originAllowed.value(r.origin) {
          c.SetStatus(403);
          return;
        }
      }
      if r.body.Malformed? {
        c.SetStatus(400);
        return;
      }
      if r.body.turnstileToken == "" {
        c.SetStatus(400);
        return;
      }
      limitedUse := r.body.limitedUse;
      if |r.body.turnstileToken| > MAX_TOKEN {
        c.SetStatus(400);
        return;
      }
      if world.siteverify.Panicked? {
        panicked := true;
        return;
      }
      if world.siteverify.Unreachable? {
        audit.Record(Step(r, "turnstile.verify", 502, RESULT_FAILURE, ExchangeData("turnstile", limitedUse)));
        c.SetStatus(502);
        return;
      }
      if world.siteverify.Refused? {
        audit.Record(Step(r, "turnstile.verify", 400, RESULT_FAILURE, RefusalData(limitedUse, world.errorCodes)));
        c.SetStatus(400);
        return;
      }
      audit.Record(Step(r, "turnstile.verify", 200, RESULT_SUCCESS, ExchangeData("turnstile", limitedUse)));
      if world.exchange.Panicked? {
        panicked := true;
        return;
      }
      if !world.exchange.Accepted? {
        audit.Record(Step(r, "appcheck.exchange", 502, RESULT_FAILURE, ExchangeData("firebase_appcheck", limitedUse)));
        c.SetStatus(502);
        return;
      }
      audit.Record(Step(r, "appcheck.exchange", 200, RESULT_SUCCESS, ExchangeData("firebase_appcheck", limitedUse)));
      c.SetStatus(200);
    }
  }

  // ----- The verify endpoint -----

  predicate Denied(r: Request, world: World) {
    r.appCheckToken == "" || world.check.Refused? || world.check.Unreachable?
  }

  function VerifyStatus(cfg: Settings, r: Request, world: World): Option<int> {
    if Denied(r, world) then Some(cfg.failureStatus)
    else if world.check.Panicked? then None
    else Some(cfg.successStatus)
  }

  function VerifySteps(cfg: Settings, r: Request, world: World): seq<Event> {
    var service := Service("firebase_appcheck");
    if Denied(r, world) then
      [Step(r, "appcheck.verify", cfg.failureStatus, RESULT_FAILURE, service),
       Step(r, "forwardauth.denied", cfg.failureStatus, RESULT_DENIED, service)]
    else if world.check.Panicked? then []
    else [Step(r, "appcheck.verify", cfg.successStatus, RESULT_SUCCESS, service)]
  }

  class VerifyHandler {
    const cfg: Settings
    const audit: Trail

    constructor (cfg: Settings, audit: Trail)
      ensures this.cfg == cfg && this.audit == audit
    {
      this.cfg, this.audit := cfg, audit;
    }

    method Handle(c: Context, world: World) returns (panicked: bool)
      requires cfg.successStatus > 0 && cfg.failureStatus > 0
      modifies c, audit
      ensures panicked <==> VerifyStatus(cfg, c.request, world).None?
      ensures c.status == Written(VerifyStatus(cfg, c.request, world), old(c.status))
      ensures audit.events == old(audit.events) + VerifySteps(cfg, c.request, world)
        + [VerifySummary(c.request, c.status)]
    {
      panicked := Respond(c, world);
      audit.Record(VerifySummary(c.request, c.status));
    }

    method Respond(c: Context, world: World) returns (panicked: bool)
      requires cfg.successStatus > 0 && cfg.failureStatus > 0
      modifies c, audit
      ensures panicked <==> VerifyStatus(cfg, c.request, world).None?
      ensures c.status == Written(VerifyStatus(cfg, c.request, world), old(c.status))
      ensures audit.events == old(audit.events) + VerifySteps(cfg, c.request, world)
    {
      var r, service := c.request, Service("firebase_appcheck");
      if r.appCheckToken == "" {
        audit.Record(Step(r, "appcheck.verify", cfg.failureStatus, RESULT_FAILURE, service));
        audit.Record(Step(r, "forwardauth.denied", cfg.failureStatus, RESULT_DENIED, service));
        c.SetStatus(cfg.failureStatus);
        return false;
      }
      if world.check.Panicked? {
        return true;
      }
      if !world.check.Accepted? {
        audit.Record(Step(r, "appcheck.verify", cfg.failureStatus, RESULT_FAILURE, service));
        audit.Record(Step(r, "forwardauth.denied", cfg.failureStatus, RESULT_DENIED, service));
        c.SetStatus(cfg.failureStatus);
        return false;
      }
      c.SetStatus(cfg.successStatus);
      audit.Record(Step(r, "appcheck.verify", cfg.successStatus, RESULT_SUCCESS, service));
      return false;
    }
  }

  // ----- A public route: the limiter, then the handler, all under the panic guard -----

  datatype Route = ToExchange | ToVerify

  /** One request that reached the limiter, with its verdict and what the services would answer. */
  datatype Visit = Visit(route: Route, admitted: bool, request: Request, world: World)

  function StatusOf(cfg: Settings, v: Visit): Option<int> {
    if !v.admitted then Some(429)
    else if v.route.ToExchange? then ExchangeStatus(cfg, v.request, v.world)
    else VerifyStatus(cfg, v.request, v.world)
  }

  function StepsOf(cfg: Settings, v: Visit): seq<Event> {
    if !v.admitted then []
    else if v.route.ToExchange? then ExchangeSteps(cfg, v.request, v.world)
    else VerifySteps(cfg, v.request, v.world)
  }

  function SummaryAction(v: Visit): string {
    if !v.admitted then "rate_limit.denied" else if v.route.ToExchange? then "exchange.request" else "verify.request"
  }

  /** The event that speaks for the whole request: all it says of the request, whatever its message. */
  predicate Summarises(cfg: Settings, v: Visit, e: Event) {
    var status := if StatusOf(cfg, v).Some? then StatusOf(cfg, v).value else 200;
    && e.id == "" && e.timestamp == ZERO_TIME && e.action == SummaryAction(v) && e.statusCode == status
    && e.method_ == v.request.method_ && e.endpoint == v.request.endpoint && e.path == v.request.path
    && e.actor == "public" && e.userAgent == v.request.userAgent
    && e.metadata == (if v.admitted && v.route.ToExchange? then LimitedUse(SeenLimitedUse(cfg, v.request))
                      else NilMetadata)
    && e.result == if !v.admitted then RESULT_DENIED else if status >= 400 then RESULT_FAILURE else RESULT_SUCCESS
  }

  /** What a visit leaves in the recorder: its steps, then its summary. */
  predicate IsTrail(cfg: Settings, v: Visit, es: seq<Event>) {
    es != [] && es[..|es| - 1] == StepsOf(cfg, v) && Summarises(cfg, v, es[|es| - 1])
  }

  class PublicRoutes {
    const cfg: Settings
    const enabled: bool
    const requestsPerWindow: int
    const limiter: RateLimit.FixedWindowLimiter
    const audit: Trail
    const exchange: ExchangeHandler
    const verify: VerifyHandler

    constructor (cfg: Settings, enabled: bool, requestsPerWindow: int, window: Duration, audit: Trail)
      requires cfg.successStatus > 0 && cfg.failureStatus > 0
      ensures this.cfg == cfg && this.enabled == enabled && this.requestsPerWindow == requestsPerWindow
      ensures this.audit == audit && Wired() && fresh(limiter) && limiter.entries == map[]
      ensures limiter.window == RateLimit.EffectiveWindow(window)
    {
      this.cfg, this.enabled, this.requestsPerWindow, this.audit := cfg, enabled, requestsPerWindow, audit;
      limiter := new RateLimit.FixedWindowLimiter(window);
      exchange := new ExchangeHandler(cfg, audit);
      verify := new VerifyHandler(cfg, audit);
    }

    /** Both handlers share the settings and the recorder. */
    ghost predicate Wired() {
      && cfg.successStatus > 0 && cfg.failureStatus > 0
      && exchange.cfg == cfg && verify.cfg == cfg && exchange.audit == audit && verify.audit == audit
    }

    /** `status` is what the client gets; the panic guard answers 500 after the deferred record. */
    method Serve(route: Route, request: Request, world: World, now: Time) returns (status: int, ghost admitted: bool)
      requires Wired()
      modifies limiter, audit
      ensures Wired()
      ensures enabled && requestsPerWindow > 0 ==> (limiter.entries, admitted) == RateLimit.Allowed(
        old(limiter.entries), limiter.window, requestsPerWindow,
        RateLimit.Call(request.clientIP + "|" + request.endpoint, now))
      ensures !enabled || requestsPerWindow <= 0 ==> admitted && limiter.entries == old(limiter.entries)
      ensures old(audit.events) <= audit.events
      ensures var v := Visit(route, admitted, request, world);
        && IsTrail(cfg, v, audit.events[|old(audit.events)|..])
        && status == if StatusOf(cfg, v).Some? then StatusOf(cfg, v).value else 500
    {
      hide RateLimit.Allowed, Invalid, SeenLimitedUse;
      var c := new Context(request);
      ghost var before := audit.events;
      var verdict := RateLimit.Middleware(limiter, enabled, requestsPerWindow, request.clientIP, request.endpoint, now);
      admitted := verdict.Next?;
      ghost var v := Visit(route, admitted, request, world);
      if verdict.TooManyRequests? {
        audit.Record(LimitSummary(request));
        c.SetStatus(429);
        TrailOf(cfg, v, before, audit.events, LimitSummary(request));
        return c.status, admitted;
      }
      var panicked;
      if route.ToExchange? {
        panicked := exchange.Handle(c, world);
      } else {
        panicked := verify.Handle(c, world);
      }
      TrailOf(cfg, v, before, audit.events, audit.events[|audit.events| - 1]);
      if panicked {
        c.SetStatus(500);
      }
      return c.status, admitted;
    }
  }

  lemma TrailOf(cfg: Settings, v: Visit, before: seq<Event>, after: seq<Event>, e: Event)
    requires after == before + StepsOf(cfg, v) + [e] && Summarises(cfg, v, e)
    ensures before <= after && IsTrail(cfg, v, after[|before|..])
  {
    hide StepsOf, Summarises;
    assert after[|before|..] == StepsOf(cfg, v) + [e];
  }

  // ----- Exactly one counted rollup -----

  /** An event of request number `visit` offered to the recorder, with what the generator and the clock supply. */
  datatype Offer = Offer(visit: nat, event: Event, id: string, now: Time, draw: real)

  ghost function AsRecorded(policy: PolicyConfig, o: Offer): Recorded {
    var p := Prepared(o.event, o.id, o.now);
    Recorded(p, Decide(policy, p, o.draw))
  }

  ghost function RecordAll(policy: PolicyConfig, offers: seq<Offer>): (rs: seq<Recorded>)
    ensures |rs| == |offers|
  {
    seq(|offers|, i requires 0 <= i < |offers| => AsRecorded(policy, offers[i]))
  }

  function EventsOfOffers(offers: seq<Offer>): (es: seq<Event>)
    ensures |es| == |offers|
  {
    seq(|offers|, i requires 0 <= i < |offers| => offers[i].event)
  }

  predicate SameTimes(a: seq<Offer>, b: seq<Offer>) {
    |a| == |b| && forall i :: 0 <= i < |a| ==> a[i].event == b[i].event && a[i].now == b[i].now
  }

  lemma {:induction false} SameRollups(p1: PolicyConfig, p2: PolicyConfig, a: seq<Offer>, b: seq<Offer>)
    requires SameTimes(a, b)
    ensures AllRollups(RecordAll(p1, a)) == AllRollups(RecordAll(p2, b))
  {
    hide AsRecorded, RollupsOf;
    if a != [] {
      var n := |a| - 1;
      SameRollups(p1, p2, a[..n], b[..n]);
      assert RecordAll(p1, a)[..n] == RecordAll(p1, a[..n]) && RecordAll(p2, b)[..n] == RecordAll(p2, b[..n]);
      SameRollup(p1, p2, a[n], b[n]);
    }
  }

  /** The same event at the same time is counted alike under any two policies. */
  lemma SameRollup(p1: PolicyConfig, p2: PolicyConfig, a: Offer, b: Offer)
    requires a.event == b.event && a.now == b.now
    ensures RollupsOf(AsRecorded(p1, a)) == RollupsOf(AsRecorded(p2, b))
  {
    var e1, e2 := Prepared(a.event, a.id, a.now), Prepared(b.event, b.id, b.now);
    hide Decide, ToUpper, ToLower, TrimSpace, Safe, Truncate, StatusClass, Truncated;
    assert NewMetricRollup(e1) == NewMetricRollup(e2) && e1.action == e2.action;
    hide Prepared, NewMetricRollup;
    CountingIgnoresSampling(p1, p1, e1, a.draw, a.draw);
    CountingIgnoresSampling(p2, p2, e2, b.draw, b.draw);
  }

  /**
   Counting does not see the policy: two runs offered the same events at the same
   times end with the same rollup table, whatever the sample rates, the mode, the
   random draws and the generated ids.
   */
  lemma {:induction false} RollupsIgnoreThePolicy(p1: PolicyConfig, p2: PolicyConfig, a: seq<Offer>,
        b: seq<Offer>, t: Tables)
    requires SameTimes(a, b)
    ensures SyncRun(t, RecordAll(p1, a)).rollups == SyncRun(t, RecordAll(p2, b)).rollups
  {
    SameRollups(p1, p2, a, b);
    SyncRunIsBatch(t, RecordAll(p1, a));
    SyncRunIsBatch(t, RecordAll(p2, b));
  }

  /** Of a request's events the summary is counted, and no step is. */
  lemma {:induction false} SummaryIsCounted(cfg: Settings, v: Visit, es: seq<Event>)
    requires IsTrail(cfg, v, es)
    ensures IsCountedAction(TrimSpace(es[|es| - 1].action))
    ensures forall i :: 0 <= i < |es| - 1 ==> !IsCountedAction(TrimSpace(es[i].action))
  {
    assert es[..|es| - 1] == StepsOf(cfg, v);
    forall i | 0 <= i < |es| - 1 ensures !IsCountedAction(TrimSpace(es[i].action)) {
      assert es[i] == StepsOf(cfg, v)[i];
      StepIsNotCounted(cfg, v, i);
    }
    CountedActionIsTrimmed(SummaryAction(v));
  }

  lemma CountedActionIsTrimmed(action: string)
    requires action == "rate_limit.denied" || action == "exchange.request" || action == "verify.request"
    ensures TrimSpace(action) == action
  {
  }

  predicate StepAction(action: string) {
    || action == "turnstile.verify" || action == "appcheck.exchange"
    || action == "appcheck.verify" || action == "forwardauth.denied"
  }

  lemma StepActionIsNotCounted(action: string)
    requires StepAction(action)
    ensures !IsCountedAction(TrimSpace(action))
  {
    assert TrimSpace(action) == action;
    assert action[0] == 't' || action[0] == 'a' || action[0] == 'f';
  }

  lemma StepIsNotCounted(cfg: Settings, v: Visit, i: nat)
    requires i < |StepsOf(cfg, v)|
    ensures !IsCountedAction(TrimSpace(StepsOf(cfg, v)[i].action))
  {
    var action := StepsOf(cfg, v)[i].action;
    hide TrimSpace;
    assert StepAction(action);
    hide StepsOf;
    StepActionIsNotCounted(action);
  }

  /**
   A request that reached the limiter is counted by exactly one rollup, the one of its
   summary, for every verdict, every answer of the services including panics, every
   policy and every draw.
   */
  lemma {:induction false} OneRollupPerRequest(cfg: Settings, v: Visit, policy: PolicyConfig, offers: seq<Offer>)
    requires IsTrail(cfg, v, EventsOfOffers(offers))
    ensures offers != [] && var last := offers[|offers| - 1];
      AllRollups(RecordAll(policy, offers)) == [NewMetricRollup(Prepared(last.event, last.id, last.now))]
  {
    var es, n := EventsOfOffers(offers), |offers| - 1;
    SummaryIsCounted(cfg, v, es);
    var rs := RecordAll(policy, offers);
    assert es[n] == offers[n].event;
    forall i | 0 <= i < n ensures RollupsOf(rs[i]) == [] {
      assert es[i] == offers[i].event;
      CountingIgnoresSampling(policy, policy, rs[i].event, offers[i].draw, offers[i].draw);
    }
    NoneCounted(rs[..n]);
    CountingIgnoresSampling(policy, policy, rs[n].event, offers[n].draw, offers[n].draw);
  }

  lemma {:induction false} NoneCounted(rs: seq<Recorded>)
    requires forall i :: 0 <= i < |rs| ==> RollupsOf(rs[i]) == []
    ensures AllRollups(rs) == []
  {
    if rs != [] { NoneCounted(rs[..|rs| - 1]); }
  }

  /** A condition on rollups that does not look at the minute. */
  ghost predicate TimeBlind(w: RollupKey -> bool) {
    forall k: RollupKey, start: Time :: w(k.(bucketStart := start)) == w(k)
  }

  /** The key a visit is counted under, up to the minute. */
  function VisitKey(cfg: Settings, v: Visit): RollupKey {
    var code := if StatusOf(cfg, v).Some? then StatusOf(cfg, v).value else 200;
    var result := if !v.admitted then RESULT_DENIED else if code >= 400 then RESULT_FAILURE else RESULT_SUCCESS;
    RollupKey(0, 60, TrimSpace(v.request.endpoint), ToUpper(TrimSpace(v.request.method_)), SummaryAction(v), result,
              StatusClass(code), code)
  }

  function HowMany(cfg: Settings, visits: seq<Visit>, w: RollupKey -> bool): nat {
    if visits == [] then 0
    else HowMany(cfg, visits[..|visits| - 1], w) + if w(VisitKey(cfg, visits[|visits| - 1])) then 1 else 0
  }

  function OffersOf(offers: seq<Offer>, visit: nat): seq<Offer> {
    if offers == [] then []
    else
      var (before, last) := (OffersOf(offers[..|offers| - 1], visit), offers[|offers| - 1]);
      if last.visit == visit then before + [last] else before
  }

  /**
   What the recorder is offered by requests that may run at the same time: the events
   of each in order, those of different ones interleaved in any way.
   */
  predicate Interleaved(cfg: Settings, visits: seq<Visit>, offers: seq<Offer>) {
    && (forall i :: 0 <= i < |offers| ==> offers[i].visit < |visits|)
    && (forall v :: 0 <= v < |visits| ==> IsTrail(cfg, visits[v], EventsOfOffers(OffersOf(offers, v))))
  }

  lemma StatusClassIsLower(code: int)
    ensures ToLower(TrimSpace(StatusClass(code))) == StatusClass(code)
  {
    if code > 0 {
      var s := StatusClass(code);
      assert s[|s| - 1] == 'x' && IsDigit(s[0]);
      assert forall i :: 0 <= i < |s| - 2 ==> s[i] == Decimal(code / 100)[i];
      assert forall i :: 0 <= i < |s| ==> LowerChar(s[i]) == s[i];
      assert ToLower(s) == s;
    } else {
      assert TrimSpace("") == "";
    }
  }

  lemma ResultsAreLower(result: string)
    requires result == RESULT_SUCCESS || result == RESULT_FAILURE || result == RESULT_DENIED
    ensures ToLower(TrimSpace(result)) == result
  {
    assert TrimSpace(result) == result;
  }

  lemma SummaryKey(cfg: Settings, v: Visit, e: Event, id: string, now: Time)
    requires Summarises(cfg, v, e)
    ensures var k := KeyOf(NewMetricRollup(Prepared(e, id, now))); k.(bucketStart := 0) == VisitKey(cfg, v)
  {
    hide TrimSpace, ToUpper, ToLower, StatusClass, Safe;
    var code := if StatusOf(cfg, v).Some? then StatusOf(cfg, v).value else 200;
    ResultsAreLower(e.result);
    ResultsAreLower(RESULT_SUCCESS);
    assert |RESULT_SUCCESS| == 7 && |RESULT_FAILURE| == 7 && |RESULT_DENIED| == 6;
    TrimUpperSettles(e.method_);
    TrimUpperSettles(e.result);
    StatusClassIsLower(code);
    CountedActionIsTrimmed(SummaryAction(v));
  }

  /** What an event adds to the counts under a condition. */
  ghost function Weight(policy: PolicyConfig, o: Offer, w: RollupKey -> bool): nat {
    SumOfList(RollupsOf(AsRecorded(policy, o)), w)
  }

  ghost function TotalWeight(policy: PolicyConfig, offers: seq<Offer>, w: RollupKey -> bool): nat {
    if offers == [] then 0
    else TotalWeight(policy, offers[..|offers| - 1], w) + Weight(policy, offers[|offers| - 1], w)
  }

  lemma {:induction false} WeightIsSum(policy: PolicyConfig, offers: seq<Offer>, w: RollupKey -> bool)
    ensures SumOfList(AllRollups(RecordAll(policy, offers)), w) == TotalWeight(policy, offers, w)
  {
    hide AsRecorded, RollupsOf, KeyOf, SumOfList;
    if offers == [] {
      assert RecordAll(policy, offers) == [];
      NoSum(w);
    } else {
      var n := |offers| - 1;
      WeightIsSum(policy, offers[..n], w);
      assert RecordAll(policy, offers)[..n] == RecordAll(policy, offers[..n]);
      AtMostOne(AsRecorded(policy, offers[n]));
      SumOneMore(AllRollups(RecordAll(policy, offers[..n])), RollupsOf(AsRecorded(policy, offers[n])), w);
    }
  }

  lemma AtMostOne(r: Recorded)
    ensures |RollupsOf(r)| <= 1
  {
  }

  lemma SumOneMore(rs: seq<MetricRollup>, more: seq<MetricRollup>, w: RollupKey -> bool)
    requires Positive(rs) && Positive(more) && |more| <= 1
    ensures Positive(rs + more) && SumOfList(rs + more, w) == SumOfList(rs, w) + SumOfList(more, w)
  {
    hide KeyOf;
    if more == [] {
      assert rs + more == rs;
    } else {
      assert (rs + more)[..|rs|] == rs && more[..0] == [];
    }
  }

  /** The offers of the first `n` requests. */
  function Below(offers: seq<Offer>, n: nat): seq<Offer> {
    if offers == [] then []
    else
      var (before, last) := (Below(offers[..|offers| - 1], n), offers[|offers| - 1]);
      if last.visit < n then before + [last] else before
  }

  lemma TotalOneMore(policy: PolicyConfig, offers: seq<Offer>, o: Offer, w: RollupKey -> bool)
    ensures TotalWeight(policy, offers + [o], w) == TotalWeight(policy, offers, w) + Weight(policy, o, w)
  {
    hide Weight;
    assert (offers + [o])[..|offers|] == offers;
  }

  /** Weights add up request by request, however the requests are interleaved. */
  lemma {:induction false} WeightsSplit(policy: PolicyConfig, offers: seq<Offer>, n: nat, w: RollupKey -> bool)
    ensures TotalWeight(policy, Below(offers, n + 1), w)
      == TotalWeight(policy, Below(offers, n), w) + TotalWeight(policy, OffersOf(offers, n), w)
  {
    hide Weight;
    if offers != [] {
      var prefix, last := offers[..|offers| - 1], offers[|offers| - 1];
      WeightsSplit(policy, prefix, n, w);
      TotalOneMore(policy, Below(prefix, n + 1), last, w);
      TotalOneMore(policy, Below(prefix, n), last, w);
      TotalOneMore(policy, OffersOf(prefix, n), last, w);
      hide TotalWeight;
    }
  }

  lemma {:induction false} BelowAll(offers: seq<Offer>, n: nat)
    requires forall i :: 0 <= i < |offers| ==> offers[i].visit < n
    ensures Below(offers, n) == offers && Below(offers, 0) == []
  {
    if offers != [] {
      var m := |offers| - 1;
      var prefix := offers[..m];
      assert Below(offers, n) == Below(prefix, n) + [offers[m]];
      assert Below(offers, 0) == Below(prefix, 0);
      hide Below;
      BelowAll(prefix, n);
      assert offers == prefix + [offers[m]];
    }
  }

  lemma {:induction false} RequestsBelow(cfg: Settings, policy: PolicyConfig, visits: seq<Visit>,
        offers: seq<Offer>, n: nat, w: RollupKey -> bool)
    requires Interleaved(cfg, visits, offers) && TimeBlind(w) && n <= |visits|
    ensures TotalWeight(policy, Below(offers, n), w) == HowMany(cfg, visits[..n], w)
  {
    hide IsTrail, VisitKey, TimeBlind, EventsOfOffers, Weight, OffersOf;
    if n == 0 {
      BelowAll(offers, |visits|);
    } else {
      RequestsBelow(cfg, policy, visits, offers, n - 1, w);
      WeightsSplit(policy, offers, n - 1, w);
      RequestWeighsOne(cfg, visits[n - 1], policy, OffersOf(offers, n - 1), w);
      assert visits[..n][..n - 1] == visits[..n - 1];
      hide TotalWeight, Interleaved;
    }
  }

  lemma RequestWeighsOne(cfg: Settings, v: Visit, policy: PolicyConfig, offers: seq<Offer>, w: RollupKey -> bool)
    requires IsTrail(cfg, v, EventsOfOffers(offers)) && TimeBlind(w)
    ensures TotalWeight(policy, offers, w) == if w(VisitKey(cfg, v)) then 1 else 0
  {
    hide IsTrail, TimeBlind, EventsOfOffers, TotalWeight, AllRollups, RecordAll;
    hide VisitKey, KeyOf, NewMetricRollup, Prepared;
    OneRollupPerRequest(cfg, v, policy, offers);
    LastCounts(cfg, v, offers, w);
    WeightIsSum(policy, offers, w);
    var last := offers[|offers| - 1];
    var r := NewMetricRollup(Prepared(last.event, last.id, last.now));
    assert [r][..0] == [];
    assert SumOfList([r], w) == if w(KeyOf(r)) then r.count else 0;
  }

  lemma LastCounts(cfg: Settings, v: Visit, offers: seq<Offer>, w: RollupKey -> bool)
    requires IsTrail(cfg, v, EventsOfOffers(offers)) && TimeBlind(w)
    ensures offers != [] && var last := offers[|offers| - 1];
      var r := NewMetricRollup(Prepared(last.event, last.id, last.now));
      r.count == 1 && w(KeyOf(r)) == w(VisitKey(cfg, v))
  {
    hide StepsOf, Summarises, KeyOf, VisitKey, Prepared;
    var last := offers[|offers| - 1];
    assert EventsOfOffers(offers)[|offers| - 1] == last.event;
    SummaryKey(cfg, v, last.event, last.id, last.now);
    var k := KeyOf(NewMetricRollup(Prepared(last.event, last.id, last.now)));
    assert w(k.(bucketStart := 0)) == w(k);
  }

  /**
   Over any set of public requests, however their events are interleaved, the rollup
   table grows by exactly the number of requests: in total, and under any condition
   that does not look at the minute.
   */
  lemma {:induction false} EveryRequestIsCountedOnce(cfg: Settings, policy: PolicyConfig, visits: seq<Visit>,
        offers: seq<Offer>, t: Tables, w: RollupKey -> bool)
    requires Interleaved(cfg, visits, offers) && TimeBlind(w)
    ensures SumOver(SyncRun(t, RecordAll(policy, offers)).rollups, w) == SumOver(t.rollups, w) + HowMany(cfg, visits, w)
  {
    RequestsBelow(cfg, policy, visits, offers, |visits|, w);
    BelowAll(offers, |visits|);
    WeightIsSum(policy, offers, w);
    SyncRunIsBatch(t, RecordAll(policy, offers));
    UpsertConserves(t.rollups, AllRollups(RecordAll(policy, offers)), w);
    assert visits[..|visits|] == visits;
    hide SyncRun, RecordAll, AllRollups, UpsertAll, SumOver, SumOfList, HowMany, TotalWeight, Interleaved, TimeBlind;
  }

  // ----- The recorder's assumption holds -----

  lemma StatusClassIsPlain(code: int)
    ensures PipeFree(StatusClass(code))
  {
  }

  lemma WordsArePlain(action: string, result: string)
    requires action == "rate_limit.denied" || action == "exchange.request" || action == "verify.request"
    requires result == RESULT_SUCCESS || result == RESULT_FAILURE || result == RESULT_DENIED
    ensures PipeFree(action) && PipeFree(result) && TrimSpace(action) == action && ToLower(TrimSpace(result)) == result
  {
    CountedActionIsTrimmed(action);
    ResultsAreLower(result);
  }

  /** The method, as stored, has no `|`; the route pattern may. */
  predicate PlainMethod(r: Request) {
    PipeFree(ToUpper(TrimSpace(r.method_)))
  }

  /** An instant after the first minute of year 1. */
  predicate Dated(now: Time) {
    now >= ZERO_TIME + MINUTE
  }

  lemma SummaryIsLegible(cfg: Settings, v: Visit, e: Event, id: string, now: Time)
    requires Summarises(cfg, v, e) && PlainMethod(v.request) && Dated(now)
    ensures var r := NewMetricRollup(Prepared(e, id, now)); Legible(r) && Complete(r) && r.bucketSize == MINUTE
  {
    hide TrimSpace, ToUpper, ToLower, StatusClass, Safe, StatusOf;
    assert |RESULT_SUCCESS| == 7 && |RESULT_FAILURE| == 7 && |RESULT_DENIED| == 6;
    WordsArePlain(SummaryAction(v), e.result);
    hide PipeFree, SummaryAction, FloorTo;
    StatusClassIsPlain(e.statusCode);
  }

  /** Counted by a rollup that a merge can read, if it is counted. */
  ghost predicate Countable(r: Recorded) {
    var rollup := NewMetricRollup(r.event);
    WellRecorded(r) && (r.decision.countMetric ==> Legible(rollup) && rollup.bucketSize == MINUTE)
  }

  lemma TrailIsCountable(cfg: Settings, v: Visit, policy: PolicyConfig, offers: seq<Offer>, i: nat)
    requires IsTrail(cfg, v, EventsOfOffers(offers)) && PlainMethod(v.request) && i < |offers| && Dated(offers[i].now)
    ensures Countable(AsRecorded(policy, offers[i]))
  {
    hide Legible, Complete, Summarises, PlainMethod, Decide, NewMetricRollup;
    var es := EventsOfOffers(offers);
    SummaryIsCounted(cfg, v, es);
    assert es[i] == offers[i].event;
    var r := AsRecorded(policy, offers[i]);
    CountingIgnoresSampling(policy, policy, r.event, offers[i].draw, offers[i].draw);
    if i == |offers| - 1 { SummaryIsLegible(cfg, v, offers[i].event, offers[i].id, offers[i].now); }
  }

  /** Where an offer is among those of its own request. */
  lemma {:induction false} OfferedByVisit(offers: seq<Offer>, i: nat) returns (k: nat)
    requires i < |offers|
    ensures k < |OffersOf(offers, offers[i].visit)| && OffersOf(offers, offers[i].visit)[k] == offers[i]
  {
    var n, v := |offers| - 1, offers[i].visit;
    var before := OffersOf(offers[..n], v);
    assert OffersOf(offers, v) == if offers[n].visit == v then before + [offers[n]] else before;
    hide OffersOf;
    if i < n {
      assert offers[..n][i] == offers[i];
      k := OfferedByVisit(offers[..n], i);
    } else {
      k := |before|;
    }
  }

  lemma OfferIsCountable(cfg: Settings, visits: seq<Visit>, policy: PolicyConfig, offers: seq<Offer>, i: nat)
    requires Interleaved(cfg, visits, offers) && i < |offers| && Dated(offers[i].now)
    requires forall v :: 0 <= v < |visits| ==> PlainMethod(visits[v].request)
    ensures Countable(AsRecorded(policy, offers[i]))
  {
    hide IsTrail, PlainMethod, AsRecorded, Countable, OffersOf, Dated;
    var v := offers[i].visit;
    var k := OfferedByVisit(offers, i);
    TrailIsCountable(cfg, visits[v], policy, OffersOf(offers, v), k);
  }

  predicate AllLegible(rs: seq<MetricRollup>) {
    forall i :: 0 <= i < |rs| ==> Legible(rs[i]) && rs[i].bucketSize == MINUTE
  }

  lemma {:induction false} CountableRollups(rs: seq<Recorded>)
    requires forall i :: 0 <= i < |rs| ==> Countable(rs[i])
    ensures AllLegible(AllRollups(rs))
  {
    hide Legible, WellRecorded, NewMetricRollup;
    if rs != [] {
      CountableRollups(rs[..|rs| - 1]);
      assert Countable(rs[|rs| - 1]);
    }
  }

  /**
   Whatever public requests do, and however they are interleaved, the recorder is
   offered only what its theorems assume: prepared events, and rollups of which no
   merge conflates any.
   */
  lemma {:induction false} RequestsAreRecordable(cfg: Settings, policy: PolicyConfig, visits: seq<Visit>,
        offers: seq<Offer>)
    requires Interleaved(cfg, visits, offers)
    requires forall v :: 0 <= v < |visits| ==> PlainMethod(visits[v].request)
    requires forall i :: 0 <= i < |offers| ==> Dated(offers[i].now)
    ensures Recordable(RecordAll(policy, offers))
  {
    hide Interleaved, PlainMethod, AsRecorded, Countable, Dated;
    var rs := RecordAll(policy, offers);
    forall i | 0 <= i < |offers| ensures Countable(rs[i]) {
      OfferIsCountable(cfg, visits, policy, offers, i);
    }
    CountableIsWellRecorded(rs);
    CountableRollups(rs);
    hide Legible, WellRecorded, AllRollups;
    LegibleIsNonConflating(AllRollups(rs), MINUTE);
  }

  lemma CountableIsWellRecorded(rs: seq<Recorded>)
    requires forall i :: 0 <= i < |rs| ==> Countable(rs[i])
    ensures AllWellRecorded(rs)
  {
    hide WellRecorded, Legible, NewMetricRollup;
    forall i | 0 <= i < |rs| ensures WellRecorded(rs[i]) { assert Countable(rs[i]); }
  }

  // ----- What is not sent -----

  /** What the asynchronous recorder does not send would have changed nothing. */
  function Kept(rs: seq<Recorded>): seq<Recorded> {
    if rs == [] then []
    else
      var last := rs[|rs| - 1];
      Kept(rs[..|rs| - 1]) + if last.decision.persist || last.decision.countMetric then [last] else []
  }

  lemma {:induction false} SkippedAddNothing(t: Tables, rs: seq<Recorded>)
    ensures SyncRun(t, Kept(rs)) == SyncRun(t, rs)
  {
    hide InsertOne, StoredRow, NewMetricRollup;
    if rs != [] {
      var prefix, last := rs[..|rs| - 1], rs[|rs| - 1];
      SkippedAddNothing(t, prefix);
      if last.decision.persist || last.decision.countMetric {
        assert Kept(rs)[..|Kept(rs)| - 1] == Kept(prefix);
      } else {
        assert SyncApply(SyncRun(t, prefix), last) == SyncRun(t, prefix);
        assert Kept(rs) == Kept(prefix);
      }
    }
  }

  // ----- What the count says -----

  predicate ValidStatuses(cfg: Settings) {
    200 <= cfg.successStatus <= 299 && 100 <= cfg.failureStatus <= 599 && !(200 <= cfg.failureStatus <= 299)
  }

  /** The client got what it asked for. */
  predicate Served(cfg: Settings, v: Visit) {
    && v.admitted
    && (v.route.ToExchange? ==> Invalid(cfg, v.request).None?)
    && (v.route.ToExchange? ==> v.world.siteverify.Accepted? && v.world.exchange.Accepted?)
    && (v.route.ToVerify? ==> v.request.appCheckToken != "" && v.world.check.Accepted?)
  }

  /** A service that was asked panicked. */
  predicate Panics(cfg: Settings, v: Visit) {
    && v.admitted
    && (v.route.ToVerify? ==> v.request.appCheckToken != "" && v.world.check.Panicked?)
    && (v.route.ToExchange? ==> Invalid(cfg, v.request).None?)
    && (v.route.ToExchange? && !v.world.siteverify.Panicked? ==>
          v.world.siteverify.Accepted? && v.world.exchange.Panicked?)
  }

  /** A token is denied with a status that does not look like a failure. */
  predicate DeniedAsSuccess(cfg: Settings, v: Visit) {
    v.admitted && v.route.ToVerify? && Denied(v.request, v.world) && cfg.failureStatus < 400
  }

  /**
   A request is counted as a success exactly when it was served, unless a service
   panicked (counted with status 200 before the client is sent 500) or a token was
   denied with a configured status below 400.
   */
  lemma CountedAsServed(cfg: Settings, v: Visit, e: Event)
    requires ValidStatuses(cfg) && Summarises(cfg, v, e)
    ensures (e.result == RESULT_SUCCESS <==> Served(cfg, v))
      <==> !Panics(cfg, v) && !DeniedAsSuccess(cfg, v)
  {
    assert |RESULT_SUCCESS| == 7 && |RESULT_DENIED| == 6 && RESULT_FAILURE[0] == 'f' && RESULT_SUCCESS[0] == 's';
  }

  /** If no service panicked, the last step has the status of the summary, and fails if the request was not served. */
  lemma StepsAgreeWithSummary(cfg: Settings, v: Visit, es: seq<Event>)
    requires ValidStatuses(cfg) && IsTrail(cfg, v, es) && |es| > 1 && !Panics(cfg, v)
    ensures es[|es| - 2].statusCode == es[|es| - 1].statusCode
    ensures es[|es| - 2].result == RESULT_SUCCESS <==> Served(cfg, v)
    ensures forall i :: 0 <= i < |es| - 2 ==> (es[i].result == RESULT_SUCCESS <==> v.route.ToExchange?)
  {
    assert |RESULT_SUCCESS| == 7 && |RESULT_DENIED| == 6 && RESULT_FAILURE[0] == 'f' && RESULT_SUCCESS[0] == 's';
    var steps := StepsOf(cfg, v);
    assert es[|es| - 2] == steps[|steps| - 1];
    forall i | 0 <= i < |es| - 2 ensures es[i].result == RESULT_SUCCESS <==> v.route.ToExchange? {
      assert es[i] == steps[i];
    }
  }
}
