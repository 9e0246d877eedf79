/**
From public requests to the tables: the handlers' events go through the asynchronous
recorder, and what the rollups say afterwards is what the requests did.
*/
module EndToEnd {
  import opened AuditEvent
  import opened AuditPolicy
  import opened Clock
  import opened Handlers
  import opened Metrics
  import opened Protocol
  import opened ProtocolControl
  import opened ProtocolFifo
  import opened ProtocolRuns
  import opened ProtocolTheorems
  import opened Recording
  import opened Repository
  import opened Store
  import opened Sums
  import opened Text

  // ----- What the callers of a run offered -----

  /**
   The offers whose Record has been settled, in that order: sent, skipped by the policy,
   dropped, or refused because the recorder was closed. `pending` has those decided on.
   */
  datatype Trace = Trace(pending: map<nat, Offer>, offered: seq<Offer>, refused: nat)

  /** What one step adds. `visitOf` says for which request each caller of Record works. */
  ghost function Observed(cfg: Config, visitOf: nat -> nat, s: State, t: nat, a: ClientAction, trace: Trace): Trace
    requires ClientEnabled(cfg, s, t, a)
  {
    match a
    case Decide(random, now, draw) =>
      var offer := Offer(visitOf(t), s.clients[t].event, random, now, draw);
      if s.gate.closed then trace.(offered := trace.offered + [offer], refused := trace.refused + 1)
      else if !Wanted(DecidedAs(cfg, s.clients[t].event, a)) then trace.(offered := trace.offered + [offer])
      else trace.(pending := trace.pending[t := offer])
    case _ =>
      if Settles(cfg, s, t, a) && t in trace.pending then trace.(offered := trace.offered + [trace.pending[t]])
      else trace
  }

  /** The item is sent or dropped; only a Record that goes on to wait for room is not settled yet. */
  predicate Settles(cfg: Config, s: State, t: nat, a: ClientAction)
    requires ClientEnabled(cfg, s, t, a)
  {
    || a.WaitSend? || a.WaitCancelled? || a.WaitExpired?
    || (a.TrySend? && (|s.queue.chan| < cfg.channelSize
                       || (s.clients[t].item.decision.priority != Critical && cfg.dropOnFull)))
  }

  ghost function TraceOf(cfg: Config, visitOf: nat -> nat, t: Tables, states: seq<State>, steps: seq<Step>,
        i: nat): Trace
    requires Run(cfg, t, states, steps) && i < |states|
  {
    if i == 0 then Trace(map[], [], 0)
    else
      var before, step := TraceOf(cfg, visitOf, t, states, steps, i - 1), steps[i - 1];
      assert Enabled(cfg, states[i - 1], step);
      if step.ByClient? then Observed(cfg, visitOf, states[i - 1], step.t, step.action, before) else before
  }

  /** Who has been decided on but not settled. */
  predicate Undelivered(c: Client) {
    c.Decided? || c.Blocked?
  }

  ghost predicate OneMatches(cfg: Config, c: Client, t: nat, pending: map<nat, Offer>) {
    Undelivered(c) ==> t in pending && AsRecorded(cfg.policy, pending[t]) == c.item && Wanted(c.item)
  }

  ghost predicate PendingMatch(cfg: Config, clients: map<nat, Client>, pending: map<nat, Offer>) {
    forall c :: c in clients ==> OneMatches(cfg, clients[c], c, pending)
  }

  /** If nothing was dropped or refused, what was sent is what was offered, less what the policy skipped. */
  ghost predicate Delivered(cfg: Config, s: State, trace: Trace) {
    s.stats.droppedTotal == 0 && trace.refused == 0 ==> s.queue.sent == Kept(RecordAll(cfg.policy, trace.offered))
  }

  lemma KeptOneMore(policy: PolicyConfig, offers: seq<Offer>, o: Offer)
    ensures Kept(RecordAll(policy, offers + [o])) == Kept(RecordAll(policy, offers))
      + if Wanted(AsRecorded(policy, o)) then [AsRecorded(policy, o)] else []
  {
    hide AsRecorded;
    var rs := RecordAll(policy, offers + [o]);
    assert rs[..|offers|] == RecordAll(policy, offers);
  }

  lemma DecidedIsRecorded(cfg: Config, visit: nat, event: Event, a: ClientAction)
    requires a.Decide?
    ensures DecidedAs(cfg, event, a) == AsRecorded(cfg.policy, Offer(visit, event, a.random, a.now, a.draw))
  {
  }

  /** What a caller's step does to what is delivered. */
  lemma ClientDelivers(cfg: Config, visitOf: nat -> nat, s: State, t: nat, a: ClientAction, trace: Trace)
    requires ClientEnabled(cfg, s, t, a) && PendingMatch(cfg, s.clients, trace.pending) && Delivered(cfg, s, trace)
    ensures Delivered(cfg, ClientApply(cfg, s, t, a), Observed(cfg, visitOf, s, t, a, trace))
  {
    hide AsRecorded, RecordAll, Kept, DecidedAs, ItemOf, ResetTo, AfterFlush, Prepared, PendingMatch;
    if t in s.clients { MatchOf(cfg, s.clients, t, trace.pending); }
    if a.Decide? {
      var offer := Offer(visitOf(t), s.clients[t].event, a.random, a.now, a.draw);
      DecidedIsRecorded(cfg, visitOf(t), s.clients[t].event, a);
      KeptOneMore(cfg.policy, trace.offered, offer);
    } else if t in trace.pending {
      KeptOneMore(cfg.policy, trace.offered, trace.pending[t]);
    }
  }

  lemma ClientMatches(cfg: Config, visitOf: nat -> nat, s: State, t: nat, a: ClientAction, trace: Trace)
    requires ClientEnabled(cfg, s, t, a) && PendingMatch(cfg, s.clients, trace.pending)
    ensures PendingMatch(cfg, ClientApply(cfg, s, t, a).clients, Observed(cfg, visitOf, s, t, a, trace).pending)
  {
    hide PendingMatch, ClientApply, ClientEnabled, Observed, Sends, AsRecorded, Wanted;
    ClientTouches(cfg, s, t, a);
    OwnMatches(cfg, visitOf, s, t, a, trace);
    OwnPending(cfg, visitOf, s, t, a, trace);
    var s' := ClientApply(cfg, s, t, a);
    OthersMatch(cfg, s.clients, trace.pending, t, s'.clients[t], Observed(cfg, visitOf, s, t, a, trace).pending);
  }

  lemma OthersMatch(cfg: Config, clients: map<nat, Client>, pending: map<nat, Offer>, t: nat, c: Client,
        pending': map<nat, Offer>)
    requires PendingMatch(cfg, clients, pending)
    requires pending' == pending || (t in pending' && pending' == pending[t := pending'[t]])
    requires OneMatches(cfg, c, t, pending')
    ensures PendingMatch(cfg, clients[t := c], pending')
  {
    hide AsRecorded, Wanted;
  }

  lemma MatchOf(cfg: Config, clients: map<nat, Client>, t: nat, pending: map<nat, Offer>)
    requires PendingMatch(cfg, clients, pending) && t in clients
    ensures OneMatches(cfg, clients[t], t, pending)
  {
  }

  lemma OwnPending(cfg: Config, visitOf: nat -> nat, s: State, t: nat, a: ClientAction, trace: Trace)
    requires ClientEnabled(cfg, s, t, a)
    ensures var pending := Observed(cfg, visitOf, s, t, a, trace).pending;
      pending == trace.pending || (t in pending && pending == trace.pending[t := pending[t]])
  {
    hide DecidedAs, Settles;
  }

  lemma OwnMatches(cfg: Config, visitOf: nat -> nat, s: State, t: nat, a: ClientAction, trace: Trace)
    requires ClientEnabled(cfg, s, t, a) && PendingMatch(cfg, s.clients, trace.pending)
    ensures t in ClientApply(cfg, s, t, a).clients
    ensures OneMatches(cfg, ClientApply(cfg, s, t, a).clients[t], t, Observed(cfg, visitOf, s, t, a, trace).pending)
  {
    hide AsRecorded, DecidedAs, ItemOf, ResetTo, Prepared, Sent, PendingMatch, Settles;
    if t in s.clients { MatchOf(cfg, s.clients, t, trace.pending); }
    if a.Decide? { DecidedIsRecorded(cfg, visitOf(t), s.clients[t].event, a); }
  }

  lemma ConsumerDelivers(cfg: Config, s: State, a: ConsumerAction, trace: Trace)
    requires ConsumerEnabled(cfg, s, a) && PendingMatch(cfg, s.clients, trace.pending) && Delivered(cfg, s, trace)
    requires Fifo(s.queue)
    ensures var s' := ConsumerApply(cfg, s, a);
      PendingMatch(cfg, s'.clients, trace.pending) && Delivered(cfg, s', trace)
  {
    ConsumerTouches(cfg, s, a);
    ConsumerProgress(cfg, s, a);
    ConsumerStats(cfg, s, a);
    hide ConsumerApply, ConsumerEnabled, AsRecorded, RecordAll, Kept, Fifo;
  }

  lemma {:induction false} TraceAlways(cfg: Config, visitOf: nat -> nat, t: Tables, states: seq<State>,
        steps: seq<Step>, i: nat)
    requires ValidConfig(cfg) && Run(cfg, t, states, steps) && i < |states|
    ensures var trace := TraceOf(cfg, visitOf, t, states, steps, i);
      PendingMatch(cfg, states[i].clients, trace.pending) && Delivered(cfg, states[i], trace)
  {
    hide PendingMatch, Delivered, Control, Observed, ClientApply, ClientEnabled, ConsumerApply, ConsumerEnabled;
    if i == 0 {
      NothingOffered(cfg, t);
    } else {
      var s, step := states[i - 1], steps[i - 1];
      var trace := TraceOf(cfg, visitOf, t, states, steps, i - 1);
      assert Enabled(cfg, s, step) && states[i] == Apply(cfg, s, step);
      TraceAlways(cfg, visitOf, t, states, steps, i - 1);
      match step {
        case ByClient(c, a) =>
          ClientMatches(cfg, visitOf, s, c, a, trace);
          ClientDelivers(cfg, visitOf, s, c, a, trace);
        case ByConsumer(a) =>
          ControlAlways(cfg, t, states, steps, i - 1);
          assert Fifo(s.queue) by { ControlHasFifo(cfg, s); }
          ConsumerDelivers(cfg, s, a, trace);
      }
    }
  }

  lemma ControlHasFifo(cfg: Config, s: State)
    requires Control(cfg, s)
    ensures Fifo(s.queue)
  {
    hide Fifo, PcInv, ReplyInv, GateInv, StatsInv;
  }

  lemma NothingOffered(cfg: Config, t: Tables)
    ensures PendingMatch(cfg, Init(t).clients, map[]) && Delivered(cfg, Init(t), Trace(map[], [], 0))
  {
    assert RecordAll(cfg.policy, []) == [];
  }

  // ----- What the policy skips -----

  lemma {:induction false} KeptCounts(rs: seq<Recorded>)
    ensures AllRollups(Kept(rs)) == AllRollups(rs)
    ensures AllWellRecorded(rs) ==> AllWellRecorded(Kept(rs))
  {
    hide WellRecorded, NewMetricRollup, AllRollups;
    if rs == [] {
      assert Kept(rs) == rs;
    } else {
      var prefix, last := rs[..|rs| - 1], rs[|rs| - 1];
      KeptCounts(prefix);
      assert rs == prefix + [last];
      AllOneMore(prefix, last);
      if Wanted(last) {
        AllOneMore(Kept(prefix), last);
      } else {
        assert Kept(rs) == Kept(prefix) + [] == Kept(prefix);
        assert AllRollups(prefix) + [] == AllRollups(prefix);
      }
    }
  }

  lemma KeptIsRecordable(rs: seq<Recorded>)
    requires Recordable(rs)
    ensures Recordable(Kept(rs))
  {
    KeptCounts(rs);
    hide AllWellRecorded, NonConflating, AllRollups, Kept;
  }

  // ----- Requests all the way to the tables -----

  /**
   A finished run whose Records are those of these public requests: the events of each in
   order, those of different ones interleaved in any way, none dropped or refused.
   */
  ghost predicate ServesAll(cfg: Config, settings: Settings, visits: seq<Visit>, visitOf: nat -> nat, t: Tables,
        states: seq<State>, steps: seq<Step>)
  {
    && ValidConfig(cfg) && Run(cfg, t, states, steps) && NoReset(steps, |steps|)
    && var (s, trace) := (states[|steps|], TraceOf(cfg, visitOf, t, states, steps, |steps|));
    && s.pc == Exited(true) && s.queue.chan == [] && s.stats.droppedTotal == 0 && trace.refused == 0
    && Interleaved(settings, visits, trace.offered)
    && (forall v :: 0 <= v < |visits| ==> PlainMethod(visits[v].request))
    && (forall i :: 0 <= i < |trace.offered| ==> Dated(trace.offered[i].now))
  }

  lemma ServedTables(cfg: Config, settings: Settings, visits: seq<Visit>, visitOf: nat -> nat, t: Tables,
        states: seq<State>, steps: seq<Step>)
    requires ServesAll(cfg, settings, visits, visitOf, t, states, steps)
    ensures var offers := TraceOf(cfg, visitOf, t, states, steps, |steps|).offered;
      && Recordable(RecordAll(cfg.policy, offers))
      && states[|steps|].db.tables == SyncRun(t, RecordAll(cfg.policy, offers))
  {
    hide Run, Interleaved, PlainMethod, Dated, PendingMatch, TraceOf, RecordAll, Kept, Recordable, SyncRun, NoReset;
    RunLength(cfg, t, states, steps);
    var s, offers := states[|steps|], TraceOf(cfg, visitOf, t, states, steps, |steps|).offered;
    var rs := RecordAll(cfg.policy, offers);
    TraceAlways(cfg, visitOf, t, states, steps, |steps|);
    RequestsAreRecordable(settings, cfg.policy, visits, offers);
    KeptIsRecordable(rs);
    AlwaysSynced(cfg, t, states, steps, |steps|);
    AsyncRefinesSync(cfg, t, states, steps);
    SkippedAddNothing(t, rs);
  }

  /**
   When the recorder has shut down in peace, every public request is in the rollup table
   exactly once, under any condition that does not look at the minute: whatever the
   policy stores, however the requests interleave, however the recorder batches, retries
   and waits, and with either kind of repository.
   */
  lemma {:induction false} EveryRequestReachesTheTable(cfg: Config, settings: Settings, visits: seq<Visit>,
        visitOf: nat -> nat, t: Tables, states: seq<State>, steps: seq<Step>, w: RollupKey -> bool)
    requires ServesAll(cfg, settings, visits, visitOf, t, states, steps) && TimeBlind(w)
    ensures SumOver(states[|steps|].db.tables.rollups, w) == SumOver(t.rollups, w) + HowMany(settings, visits, w)
  {
    hide Run, Interleaved, PlainMethod, Dated, TraceOf, RecordAll, Recordable, SyncRun, NoReset, TimeBlind, SumOver;
    hide HowMany;
    RunLength(cfg, t, states, steps);
    ServedTables(cfg, settings, visits, visitOf, t, states, steps);
    var offers := TraceOf(cfg, visitOf, t, states, steps, |steps|).offered;
    EveryRequestIsCountedOnce(settings, cfg.policy, visits, offers, t, w);
  }

  // ----- The rollups are a view of the stored events -----

  /** The route pattern has no white space at its ends. */
  predicate TrimmedEndpoint(r: Request) {
    TrimSpace(r.endpoint) == r.endpoint
  }

  predicate KnownResult(result: string) {
    result == RESULT_SUCCESS || result == RESULT_FAILURE || result == RESULT_DENIED
  }

  lemma TrailEvents(cfg: Settings, v: Visit, es: seq<Event>, i: nat)
    requires IsTrail(cfg, v, es) && i < |es|
    ensures es[i].id == "" && es[i].timestamp == ZERO_TIME && KnownResult(es[i].result)
  {
    hide Invalid, StatusOf;
    if i < |es| - 1 {
      assert es[i] == es[..|es| - 1][i] == StepsOf(cfg, v)[i];
      hide Summarises;
    } else {
      hide StepsOf;
    }
  }

  lemma SummaryIsCanonical(cfg: Settings, v: Visit, e: Event, id: string, now: Time)
    requires Summarises(cfg, v, e) && TrimmedEndpoint(v.request)
    ensures Canonical(NewMetricRollup(Prepared(e, id, now)))
  {
    hide TrimSpace, ToUpper, ToLower, StatusClass, Safe, StatusOf;
    assert |RESULT_SUCCESS| == 7 && |RESULT_FAILURE| == 7 && |RESULT_DENIED| == 6;
    ResultsAreLower(e.result);
    TrimUpperSettles(e.method_);
    StatusClassIsLower(e.statusCode);
    CountedActionIsTrimmed(SummaryAction(v));
  }

  lemma PreparedResult(e: Event, id: string, now: Time)
    requires e.id == "" && KnownResult(e.result) && now != ZERO_TIME
    ensures var p := Prepared(e, id, now); IsPrepared(p) && p.result == e.result != "" && p.id == "audit_" + id
  {
    assert |RESULT_SUCCESS| == 7 && |RESULT_FAILURE| == 7 && |RESULT_DENIED| == 6;
    ResultsAreLower(e.result);
    hide TrimSpace, ToUpper, ToLower, Safe;
  }

  lemma OfferIsViewable(cfg: Settings, v: Visit, policy: PolicyConfig, offers: seq<Offer>, i: nat)
    requires IsTrail(cfg, v, EventsOfOffers(offers)) && TrimmedEndpoint(v.request) && i < |offers|
    requires offers[i].now != ZERO_TIME
    ensures var r := AsRecorded(policy, offers[i]); Viewable(r) && r.event.id == "audit_" + offers[i].id
  {
    hide Summarises, TrimmedEndpoint, AuditPolicy.Decide, NewMetricRollup, Canonical, Prepared;
    var es := EventsOfOffers(offers);
    TrailEvents(cfg, v, es, i);
    SummaryIsCounted(cfg, v, es);
    assert es[i] == offers[i].event;
    PreparedResult(offers[i].event, offers[i].id, offers[i].now);
    var r := AsRecorded(policy, offers[i]);
    CountingIgnoresSampling(policy, policy, r.event, offers[i].draw, offers[i].draw);
    PreparedKeepsAction(offers[i].event, offers[i].id, offers[i].now);
    if i == |offers| - 1 { SummaryIsCanonical(cfg, v, offers[i].event, offers[i].id, offers[i].now); }
  }

  lemma PreparedKeepsAction(e: Event, id: string, now: Time)
    ensures Prepared(e, id, now).action == e.action
  {
  }

  lemma AllViewable(cfg: Settings, visits: seq<Visit>, policy: PolicyConfig, offers: seq<Offer>, i: nat)
    requires Interleaved(cfg, visits, offers) && i < |offers| && offers[i].now != ZERO_TIME
    requires forall v :: 0 <= v < |visits| ==> TrimmedEndpoint(visits[v].request)
    ensures var r := AsRecorded(policy, offers[i]); Viewable(r) && r.event.id == "audit_" + offers[i].id
  {
    hide IsTrail, TrimmedEndpoint, AsRecorded, Viewable, OffersOf;
    var v := offers[i].visit;
    var k := OfferedByVisit(offers, i);
    OfferIsViewable(cfg, visits[v], policy, OffersOf(offers, v), k);
  }

  predicate DistinctIds(offers: seq<Offer>) {
    forall i, j :: 0 <= i < j < |offers| ==> offers[i].id != offers[j].id
  }

  lemma AllFullyRecorded(cfg: Settings, visits: seq<Visit>, policy: PolicyConfig, offers: seq<Offer>)
    requires Interleaved(cfg, visits, offers) && FullRates(policy) && DistinctIds(offers)
    requires forall i :: 0 <= i < |offers| ==> Dated(offers[i].now)
    requires forall v :: 0 <= v < |visits| ==> TrimmedEndpoint(visits[v].request)
    ensures FullyRecorded(policy, RecordAll(policy, offers), DrawsOf(offers))
  {
    hide Interleaved, TrimmedEndpoint, Viewable, FullRates;
    var rs := RecordAll(policy, offers);
    forall i | 0 <= i < |offers| ensures Viewable(rs[i]) && rs[i].event.id == "audit_" + offers[i].id {
      AllViewable(cfg, visits, policy, offers, i);
    }
    forall i | 0 <= i < |offers| ensures rs[i].decision == AuditPolicy.Decide(policy, rs[i].event, DrawsOf(offers)(i)) {
      hide Prepared, AuditPolicy.Decide;
    }
    hide AsRecorded, RecordAll, DrawsOf;
    forall i, j | 0 <= i < j < |rs| ensures rs[i].event.id != rs[j].event.id {
      assert ("audit_" + offers[i].id)[6..] == offers[i].id && ("audit_" + offers[j].id)[6..] == offers[j].id;
    }
  }

  function DrawsOf(offers: seq<Offer>): nat -> real {
    (i: nat) => if i < |offers| then offers[i].draw else 0.0
  }

  /**
   And when every rate is one and the generator does not repeat itself, every column of
   the summary over the rollups that such a run leaves in empty tables is the column
   recomputed from the events it leaves there.
   */
  lemma {:induction false} ServedRollupsAreAView(cfg: Config, settings: Settings, visits: seq<Visit>,
        visitOf: nat -> nat, states: seq<State>, steps: seq<Step>, f: MetricsFilter, stat: Stat)
    requires ServesAll(cfg, settings, visits, visitOf, Tables([], map[]), states, steps)
    requires FullRates(cfg.policy) && ViewFilter(f)
    requires DistinctIds(TraceOf(cfg, visitOf, Tables([], map[]), states, steps, |steps|).offered)
    requires forall v :: 0 <= v < |visits| ==> TrimmedEndpoint(visits[v].request)
    ensures var tables := states[|steps|].db.tables;
      RollupStat(tables.rollups, f, stat) == EventStat(tables.events, f, stat)
  {
    hide Run, Interleaved, PlainMethod, TraceOf, RecordAll, Recordable, SyncRun, NoReset, TrimmedEndpoint, Dated;
    hide FullRates, ViewFilter, RollupStat, EventStat, DrawsOf, DistinctIds, FullyRecorded;
    var t := Tables([], map[]);
    RunLength(cfg, t, states, steps);
    ServedTables(cfg, settings, visits, visitOf, t, states, steps);
    var offers := TraceOf(cfg, visitOf, t, states, steps, |steps|).offered;
    AllFullyRecorded(settings, visits, cfg.policy, offers);
    RollupsAreAView(cfg.policy, RecordAll(cfg.policy, offers), DrawsOf(offers), f, stat);
  }

  // ----- One spelling -----

  lemma {:induction false} ViewableRollups(rs: seq<Recorded>)
    requires forall i :: 0 <= i < |rs| ==> Viewable(rs[i])
    ensures forall i :: 0 <= i < |AllRollups(rs)| ==> Canonical(AllRollups(rs)[i])
  {
    hide Canonical, NewMetricRollup;
    if rs != [] {
      ViewableRollups(rs[..|rs| - 1]);
      assert Viewable(rs[|rs| - 1]);
    }
  }

  /**
   Public requests on trimmed routes spell each primary key in one way. So the rows that
   any batch of their events is merged to have distinct primary keys, as PostgreSQL
   demands of one upsert.
   */
  lemma {:induction false} RequestsHaveOneSpelling(cfg: Settings, policy: PolicyConfig, visits: seq<Visit>,
        offers: seq<Offer>, i: nat, j: nat, now: Time, out: seq<MetricRollup>)
    requires Interleaved(cfg, visits, offers) && i <= j <= |offers|
    requires forall v :: 0 <= v < |visits| ==> PlainMethod(visits[v].request) && TrimmedEndpoint(visits[v].request)
    requires forall k :: 0 <= k < |offers| ==> Dated(offers[k].now)
    requires Lists(out, Merged(AllRollups(RecordAll(policy, offers)[i..j]), now))
    ensures OneSpelling(AllRollups(RecordAll(policy, offers)[i..j])) && DistinctKeys(out)
  {
    hide Interleaved, PlainMethod, TrimmedEndpoint, Merged, Lists, Viewable, AsRecorded, AllRollups, OneSpelling;
    hide NonConflating, AllLegible;
    var rs := RecordAll(policy, offers);
    var part := rs[i..j];
    forall k | 0 <= k < |part| ensures Viewable(part[k]) && Countable(part[k]) {
      hide Countable;
      AllViewable(cfg, visits, policy, offers, i + k);
      OfferIsCountable(cfg, visits, policy, offers, i + k);
    }
    ViewableRollups(part);
    CountableRollups(part);
    SpelledOnce(AllRollups(part));
    RequestsAreRecordable(cfg, policy, visits, offers);
    PartIsRecordable(rs, i, j);
    BatchIsComplete(part);
    CompleteNeedsNoDefaults(AllRollups(part), now);
    hide AllComplete, AllWellRecorded, Countable;
    MergedRowsAreDistinct(AllRollups(part), now, out);
  }

  lemma SpelledOnce(ds: seq<MetricRollup>)
    requires AllLegible(ds) && forall i :: 0 <= i < |ds| ==> Canonical(ds[i])
    ensures OneSpelling(ds)
  {
    hide Legible, Canonical, MergeKey, KeyOf;
    forall i, j | 0 <= i < |ds| && 0 <= j < |ds| && KeyOf(ds[i]) == KeyOf(ds[j])
      ensures MergeKey(ds[i]) == MergeKey(ds[j]) {
      MergeKeyIsPrimaryKey(ds[i], ds[j]);
    }
  }
}
