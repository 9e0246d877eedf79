/** What the columns of the metrics summary say about the requests behind them. */
module Columns {
  import opened AuditEvent
  import opened AuditPolicy
  import opened EndToEnd
  import opened Handlers
  import opened Metrics
  import opened Protocol
  import opened ProtocolTheorems
  import opened Repository
  import opened Store
  import opened Sums
  import opened Text
  import opened Trails

  function NumberOf(visits: seq<Visit>, p: Visit -> bool): nat {
    if visits == [] then 0
    else NumberOf(visits[..|visits| - 1], p) + if p(visits[|visits| - 1]) then 1 else 0
  }

  // ----- Columns and filters, in terms of a request -----

  /** The request got through the limiter and was answered below 400. */
  predicate Succeeded(settings: Settings, v: Visit) {
    v.admitted && FinalCode(settings, v) < 400
  }

  predicate InColumn(settings: Settings, v: Visit, stat: Stat) {
    var code := FinalCode(settings, v);
    match stat
    case Total => true
    case Successful => Succeeded(settings, v)
    case FailedStat => !Succeeded(settings, v)
    case ExchangeSuccesses => v.admitted && v.route.ToExchange? && code < 400
    case ExchangeFailures => v.admitted && v.route.ToExchange? && code >= 400
    case VerifySuccesses => v.admitted && v.route.ToVerify? && code < 400
    case VerifyFailures => v.admitted && v.route.ToVerify? && code >= 400
    case Count4xx => 400 <= code <= 499
    case Count5xx => code >= 500
  }

  /** The request is one of those that the filter asks for, its time aside; an empty field asks for all. */
  predicate AsksFor(f: MetricsFilter, settings: Settings, v: Visit) {
    var code := FinalCode(settings, v);
    && (TrimSpace(f.endpoint) == "" || TrimSpace(f.endpoint) == TrimSpace(v.request.endpoint))
    && (TrimSpace(f.method_) == "" || ToUpper(TrimSpace(f.method_)) == ToUpper(TrimSpace(v.request.method_)))
    && (TrimSpace(f.result) == "" ||
        ToLower(TrimSpace(f.result))
          == if !v.admitted then "denied" else if Succeeded(settings, v) then "success" else "failure")
    && (f.statusClass == "1xx" ==> 100 <= code <= 199) && (f.statusClass == "2xx" ==> 200 <= code <= 299)
    && (f.statusClass == "3xx" ==> 300 <= code <= 399) && (f.statusClass == "4xx" ==> 400 <= code <= 499)
    && (f.statusClass == "5xx" ==> 500 <= code <= 599)
  }

  /** The column's condition on a key of the table, its time aside. */
  function Timeless(f: MetricsFilter, stat: Stat): RollupKey -> bool {
    (k: RollupKey) => IsCountedAction(k.action) && FieldsMatch(f, k.endpoint, k.method_, k.result)
      && ClassMatches(f.statusClass, k.statusClass) && Counts(stat, k.action, k.result, k.statusCode)
  }

  lemma TimelessIsBlind(f: MetricsFilter, stat: Stat)
    ensures TimeBlind(Timeless(f, stat))
  {
    hide FieldsMatch, ClassMatches, Counts, IsCountedAction;
  }

  lemma CountsInColumn(settings: Settings, v: Visit, stat: Stat)
    ensures var k := VisitKey(settings, v);
      Counts(stat, k.action, k.result, k.statusCode) <==> InColumn(settings, v, stat)
    ensures IsCountedAction(VisitKey(settings, v).action)
  {
    hide StatusOf, StatusClass, TrimSpace, ToUpper;
  }

  lemma FieldsAsked(f: MetricsFilter, settings: Settings, v: Visit)
    ensures var k := VisitKey(settings, v);
      FieldsMatch(f, k.endpoint, k.method_, k.result) <==>
        AsksFor(f.(statusClass := ""), settings, v)
  {
    hide StatusOf, StatusClass, TrimSpace, ToUpper, ToLower;
  }

  lemma ClassAsked(f: MetricsFilter, settings: Settings, v: Visit)
    requires KnownClass(f.statusClass)
    ensures ClassMatches(f.statusClass, VisitKey(settings, v).statusClass) <==>
      AsksFor(f.(endpoint := "", method_ := "", result := ""), settings, v)
  {
    var code := FinalCode(settings, v);
    assert TrimSpace("") == "";
    hide StatusOf, TrimSpace, ToUpper, ToLower, ClassMatches, StatusClass, CodeMatches;
    KnownClassAgrees(f.statusClass, code);
    ClassByCode(f.statusClass, code);
  }

  lemma ClassByCode(name: string, code: int)
    requires KnownClass(name)
    ensures CodeMatches(name, code) <==>
      (name == "1xx" ==> 100 <= code <= 199) && (name == "2xx" ==> 200 <= code <= 299)
      && (name == "3xx" ==> 300 <= code <= 399) && (name == "4xx" ==> 400 <= code <= 499)
      && (name == "5xx" ==> 500 <= code <= 599)
  {
    assert name != "" ==> |name| == 3;
    if name == "" {
      assert TrimSpace("") == "";
    } else {
      var n := KnownClassDigit(name);
      KnownClassRange(n);
      assert name[0] == DigitChar(n);
      hide StatusClassRange;
    }
  }

  lemma AsksBoth(f: MetricsFilter, settings: Settings, v: Visit)
    ensures AsksFor(f, settings, v) <==>
      AsksFor(f.(statusClass := ""), settings, v)
      && AsksFor(f.(endpoint := "", method_ := "", result := ""), settings, v)
  {
    assert TrimSpace("") == "";
    hide StatusOf, TrimSpace, ToUpper, ToLower;
  }

  /** A request is counted in a column under a filter exactly if it is asked for and belongs there. */
  lemma KeyInColumn(f: MetricsFilter, settings: Settings, v: Visit, stat: Stat)
    requires KnownClass(f.statusClass)
    ensures Timeless(f, stat)(VisitKey(settings, v)) <==> AsksFor(f, settings, v) && InColumn(settings, v, stat)
  {
    hide VisitKey, AsksFor, InColumn, FieldsMatch, ClassMatches, Counts, IsCountedAction, KnownClass;
    CountsInColumn(settings, v, stat);
    FieldsAsked(f, settings, v);
    ClassAsked(f, settings, v);
    AsksBoth(f, settings, v);
  }

  lemma {:induction false} HowManyIsNumber(settings: Settings, visits: seq<Visit>, w: RollupKey -> bool,
        p: Visit -> bool)
    requires forall v :: w(VisitKey(settings, v)) == p(v)
    ensures HowMany(settings, visits, w) == NumberOf(visits, p)
  {
    hide VisitKey;
    if visits != [] { HowManyIsNumber(settings, visits[..|visits| - 1], w, p); }
  }

  /** All rows are in the filter's range. */
  predicate Covers(f: MetricsFilter, m: RollupTable) {
    forall k :: k in m ==> f.from <= k.bucketStart <= f.to
  }

  lemma ColumnIsTimeless(m: RollupTable, f: MetricsFilter, stat: Stat)
    requires Covers(f, m)
    ensures RollupStat(m, f, stat) == SumOver(m, Timeless(f, stat))
  {
    hide FieldsMatch, ClassMatches, Counts, IsCountedAction, SumOver;
    SumEqual(m, RollupCounts(f, stat), Timeless(f, stat));
  }

  /** Asked for by the filter, and belonging in the column. */
  function Belongs(f: MetricsFilter, settings: Settings, stat: Stat): Visit -> bool {
    (v: Visit) => AsksFor(f, settings, v) && InColumn(settings, v, stat)
  }

  /**
   When such a run has ended, each column of the summary, under any filter whose range
   covers the table, has grown by exactly the number of requests that the filter asks for
   and that belong in the column: by their route, their verdict and their final code.
   */
  lemma {:induction false} ColumnsCountRequests(cfg: Config, settings: Settings, visits: seq<Visit>,
        visitOf: nat -> nat, t: Tables, states: seq<State>, steps: seq<Step>, f: MetricsFilter, stat: Stat)
    requires ServesAll(cfg, settings, visits, visitOf, t, states, steps) && KnownClass(f.statusClass)
    requires Covers(f, t.rollups) && Covers(f, states[|steps|].db.tables.rollups)
    ensures RollupStat(states[|steps|].db.tables.rollups, f, stat)
      == RollupStat(t.rollups, f, stat) + NumberOf(visits, Belongs(f, settings, stat))
  {
    hide Run, Interleaved, PlainMethod, Dated, TraceOf, NoReset, TimeBlind, SumOver, HowMany, RollupStat, Covers;
    hide KnownClass, VisitKey, AsksFor, InColumn, Timeless, NumberOf;
    RunLength(cfg, t, states, steps);
    TimelessIsBlind(f, stat);
    EveryRequestReachesTheTable(cfg, settings, visits, visitOf, t, states, steps, Timeless(f, stat));
    ColumnIsTimeless(t.rollups, f, stat);
    ColumnIsTimeless(states[|steps|].db.tables.rollups, f, stat);
    forall v ensures Timeless(f, stat)(VisitKey(settings, v)) == Belongs(f, settings, stat)(v) {
      KeyInColumn(f, settings, v, stat);
    }
    HowManyIsNumber(settings, visits, Timeless(f, stat), Belongs(f, settings, stat));
  }

  // ----- Success and being served -----

  /** Unless a service panicked or a denial is configured below 400, a request succeeds exactly if it was served. */
  lemma SucceededIsServed(settings: Settings, v: Visit)
    requires ValidStatuses(settings) && !Panics(settings, v) && !DeniedAsSuccess(settings, v)
    ensures Succeeded(settings, v) <==> Served(settings, v)
  {
    hide TrimSpace, ToLower;
  }

  predicate Calm(settings: Settings, visits: seq<Visit>) {
    forall i :: 0 <= i < |visits| ==> !Panics(settings, visits[i]) && !DeniedAsSuccess(settings, visits[i])
  }

  /** Served on this route. */
  function ServedOn(settings: Settings, route: Route): Visit -> bool {
    (v: Visit) => v.route == route && Served(settings, v)
  }

  lemma {:induction false} NumberAlike(visits: seq<Visit>, p: Visit -> bool, q: Visit -> bool)
    requires forall i :: 0 <= i < |visits| ==> p(visits[i]) == q(visits[i])
    ensures NumberOf(visits, p) == NumberOf(visits, q)
  {
    if visits != [] { NumberAlike(visits[..|visits| - 1], p, q); }
  }

  /** Over everything and from an empty table, the success columns then are the numbers of requests served. */
  lemma {:induction false} SuccessesAreServed(cfg: Config, settings: Settings, visits: seq<Visit>,
        visitOf: nat -> nat, states: seq<State>, steps: seq<Step>, f: MetricsFilter)
    requires ServesAll(cfg, settings, visits, visitOf, Tables([], map[]), states, steps)
    requires f.endpoint == f.method_ == f.result == f.statusClass == ""
    requires Covers(f, states[|steps|].db.tables.rollups) && ValidStatuses(settings) && Calm(settings, visits)
    ensures var m := states[|steps|].db.tables.rollups;
      && RollupStat(m, f, ExchangeSuccesses) == NumberOf(visits, ServedOn(settings, ToExchange))
      && RollupStat(m, f, VerifySuccesses) == NumberOf(visits, ServedOn(settings, ToVerify))
      && RollupStat(m, f, Total) == |visits|
  {
    hide Run, Interleaved, PlainMethod, Dated, TraceOf, NoReset, SumOver, RollupStat, ServesAll;
    hide Panics, DeniedAsSuccess;
    var t := Tables([], map[]);
    NothingCounted(f, ExchangeSuccesses);
    NothingCounted(f, VerifySuccesses);
    NothingCounted(f, Total);
    ColumnsCountRequests(cfg, settings, visits, visitOf, t, states, steps, f, ExchangeSuccesses);
    ColumnsCountRequests(cfg, settings, visits, visitOf, t, states, steps, f, VerifySuccesses);
    ColumnsCountRequests(cfg, settings, visits, visitOf, t, states, steps, f, Total);
    hide Covers, NumberOf;
    forall i | 0 <= i < |visits|
      ensures Belongs(f, settings, ExchangeSuccesses)(visits[i]) == ServedOn(settings, ToExchange)(visits[i])
      ensures Belongs(f, settings, VerifySuccesses)(visits[i]) == ServedOn(settings, ToVerify)(visits[i])
      ensures Belongs(f, settings, Total)(visits[i]) == Every()(visits[i]) {
      Unfiltered(f, settings, visits[i]);
    }
    NumberAlike(visits, Belongs(f, settings, ExchangeSuccesses), ServedOn(settings, ToExchange));
    NumberAlike(visits, Belongs(f, settings, VerifySuccesses), ServedOn(settings, ToVerify));
    NumberAlike(visits, Belongs(f, settings, Total), Every());
    NumberOfAll(visits);
  }

  lemma Unfiltered(f: MetricsFilter, settings: Settings, v: Visit)
    requires f.endpoint == f.method_ == f.result == f.statusClass == ""
    requires ValidStatuses(settings) && !Panics(settings, v) && !DeniedAsSuccess(settings, v)
    ensures Belongs(f, settings, ExchangeSuccesses)(v) == ServedOn(settings, ToExchange)(v)
    ensures Belongs(f, settings, VerifySuccesses)(v) == ServedOn(settings, ToVerify)(v)
    ensures Belongs(f, settings, Total)(v)
  {
    assert TrimSpace("") == "";
    SucceededIsServed(settings, v);
    hide TrimSpace, Served, Panics, DeniedAsSuccess, StatusOf;
  }

  function Every(): Visit -> bool {
    (v: Visit) => true
  }

  lemma {:induction false} NumberOfAll(visits: seq<Visit>)
    ensures NumberOf(visits, Every()) == |visits|
  {
    if visits != [] { NumberOfAll(visits[..|visits| - 1]); }
  }

  lemma NothingCounted(f: MetricsFilter, stat: Stat)
    ensures RollupStat(map[], f, stat) == 0
  {
  }
}
