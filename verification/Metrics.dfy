/** Request metrics: summaries and series over the rollup table, and the events behind them. */
module Metrics {
  import opened AuditEvent
  import opened AuditPolicy
  import opened Clock
  import opened Recording
  import opened Repository
  import opened Store
  import opened Sums
  import opened Text

  // ----- Filters -----

  datatype MetricsFilter = MetricsFilter(
    from: Time, to: Time, bucket: Duration, endpoint: string, method_: string, result: string, statusClass: string)

  /** The automatic bucket for a window. */
  function ChooseBucket(window: Duration): (b: Duration)
    ensures b > 0 && b % MINUTE == 0
  {
    if window <= HOUR then 5 * MINUTE
    else if window <= 6 * HOUR then 15 * MINUTE
    else if window <= 24 * HOUR then HOUR
    else if window <= 7 * 24 * HOUR then 6 * HOUR
    else 24 * HOUR
  }

  function NormalizeMetricsFilter(f: MetricsFilter, now: Time): MetricsFilter {
    var to := if f.to == ZERO_TIME then now else f.to;
    var from := if f.from == ZERO_TIME then to - 24 * HOUR else f.from;
    var bucket := if f.bucket <= 0 then ChooseBucket(Since(to, from)) else f.bucket;
    MetricsFilter(from, to, bucket, f.endpoint, ToUpper(TrimSpace(f.method_)), ToLower(TrimSpace(f.result)),
                  ToLower(TrimSpace(f.statusClass)))
  }

  /**
   A filter with no end ends now, and one with no start starts a day before its end; what
   is set stays, and only a bucket that is not positive is chosen by the window.
   */
  lemma FilterDefaults(f: MetricsFilter, now: Time)
    ensures var n := NormalizeMetricsFilter(f, now);
      && n.to == (if f.to != ZERO_TIME then f.to else now)
      && n.from == (if f.from != ZERO_TIME then f.from else n.to - 86_400 * SECOND)
      && (f.bucket > 0 ==> n.bucket == f.bucket)
      && (f.bucket <= 0 && 0 <= n.to - n.from <= 7 * 86_400 * SECOND ==>
            n.to - n.from <= 28 * n.bucket && n.bucket <= 21_600 * SECOND)
      && n.endpoint == f.endpoint && n.method_ == ToUpper(TrimSpace(f.method_))
      && n.result == ToLower(TrimSpace(f.result)) && n.statusClass == ToLower(TrimSpace(f.statusClass))
  {
    hide ToUpper, ToLower, TrimSpace;
  }

  predicate Unset(s: string) {
    TrimSpace(s) == ""
  }

  predicate FieldsMatch(f: MetricsFilter, endpoint: string, method_: string, result: string) {
    && (Unset(f.endpoint) || endpoint == TrimSpace(f.endpoint))
    && (Unset(f.method_) || method_ == ToUpper(TrimSpace(f.method_)))
    && (Unset(f.result) || result == ToLower(TrimSpace(f.result)))
  }

  /** The status class condition on rollups compares text. */
  predicate ClassMatches(wanted: string, statusClass: string) {
    Unset(wanted) || statusClass == ToLower(TrimSpace(wanted))
  }

  /** Leading sign, then digits. */
  function Atoi(s: string): Option<int> {
    var digits := if s != "" && (s[0] == '-' || s[0] == '+') then s[1..] else s;
    if digits == "" || DigitSpan(digits) < |digits| then None
    else
      assert digits[..DigitSpan(digits)] == digits;
      var magnitude: int := NatOf(digits);
      var n := if s[0] == '-' then -magnitude else magnitude;
      if n < MIN_INT64 || n > MAX_INT64 then None else Some(n)
  }

  /** The codes a status class stands for on events: text that is not a class stands for no condition. */
  function StatusClassRange(value: string): Option<(int, int)> {
    var v := ToLower(TrimSpace(value));
    if |v| >= 2 && v[|v| - 2..] == "xx" then
      match Atoi(v[..|v| - 2])
      case Some(n) => if 1 <= n <= 5 then Some((n * 100, (n + 1) * 100)) else None
      case None => None
    else None
  }

  /** A number of 64 bits is read from its digits, after either sign or none, and no other number is. */
  lemma AtoiReads(n: int)
    requires n >= 0
    ensures Atoi(Decimal(n)) == (if n <= MAX_INT64 then Some(n) else None)
    ensures Atoi("+" + Decimal(n)) == Atoi(Decimal(n))
    ensures Atoi("-" + Decimal(n)) == if -n >= MIN_INT64 then Some(-n) else None
  {
    var s := Decimal(n);
    hide Decimal, NatOf;
    DigitSpanOfPrefix(s, "");
    assert s + "" == s;
    assert ("+" + s)[1..] == s && ("-" + s)[1..] == s;
  }

  /** A class may be spelled with a plus, and then selects events by its range; a number that is no class is none. */
  lemma ClassSpellings(n: int)
    requires n >= 0
    ensures StatusClassRange("+" + Decimal(n) + "xx") == StatusClassRange(Decimal(n) + "xx")
    ensures StatusClassRange(Decimal(n) + "xx") == if 1 <= n <= 5 then Some((100 * n, 100 * n + 100)) else None
    ensures StatusClassRange("-" + Decimal(n) + "xx") == None
  {
    hide StatusClassRange, Atoi, NatOf;
    AtoiReads(n);
    SignsAside(Decimal(n), n);
  }

  lemma SignsAside(digits: string, n: int)
    requires n >= 0 && digits != "" && AllDigits(digits)
    requires Atoi(digits) == (if n <= MAX_INT64 then Some(n) else None) && Atoi("+" + digits) == Atoi(digits)
    requires Atoi("-" + digits).Some? ==> Atoi("-" + digits).value <= 0
    ensures StatusClassRange("+" + digits + "xx") == StatusClassRange(digits + "xx")
    ensures StatusClassRange(digits + "xx") == if 1 <= n <= 5 then Some((100 * n, 100 * n + 100)) else None
    ensures StatusClassRange("-" + digits + "xx") == None
  {
    hide StatusClassRange, Atoi;
    assert ("+" + digits)[1..] == digits && ("-" + digits)[1..] == digits;
    RangeOfPrefix(digits);
    RangeOfPrefix("+" + digits);
    RangeOfPrefix("-" + digits);
  }

  lemma RangeOfPrefix(prefix: string)
    requires prefix != "" && (prefix[0] in {'+', '-'} || IsDigit(prefix[0])) && AllDigits(prefix[1..])
    ensures StatusClassRange(prefix + "xx")
      == if Atoi(prefix).Some? && 1 <= Atoi(prefix).value <= 5
         then Some((100 * Atoi(prefix).value, 100 * Atoi(prefix).value + 100)) else None
  {
    ClassIsClean(prefix);
    hide TrimSpace, ToLower, Atoi;
  }

  lemma ClassIsClean(prefix: string)
    requires prefix != "" && (prefix[0] in {'+', '-'} || IsDigit(prefix[0])) && AllDigits(prefix[1..])
    ensures var v := prefix + "xx"; ToLower(TrimSpace(v)) == v && v[..|v| - 2] == prefix && v[|v| - 2..] == "xx"
  {
    var v := prefix + "xx";
    assert TrimSpace(v) == v;
    assert forall i :: 0 <= i < |v| ==> ToLower(v)[i] == v[i];
  }

  predicate CodeMatches(wanted: string, code: int) {
    match StatusClassRange(wanted)
    case Some((lo, hi)) => lo <= code < hi
    case None => true
  }

  /** Rows of the rollup table that a metrics query counts. */
  predicate RollupMatches(f: MetricsFilter, k: RollupKey) {
    && f.from <= k.bucketStart <= f.to && IsCountedAction(k.action)
    && FieldsMatch(f, k.endpoint, k.method_, k.result) && ClassMatches(f.statusClass, k.statusClass)
  }

  /** Events of the counted actions that the same filter selects from the event table. */
  predicate EventMatches(f: MetricsFilter, e: Event) {
    && f.from <= e.timestamp <= f.to && IsCountedAction(e.action)
    && FieldsMatch(f, e.endpoint, e.method_, e.result) && CodeMatches(f.statusClass, e.statusCode)
  }

  // ----- Summaries -----

  datatype Stat =
    | Total | Successful | FailedStat
    | ExchangeSuccesses | ExchangeFailures
    | VerifySuccesses | VerifyFailures
    | Count4xx | Count5xx

  /** The condition under which a column of the summary counts. */
  predicate Counts(stat: Stat, action: string, result: string, code: int) {
    match stat
    case Total => true
    case Successful => result == RESULT_SUCCESS
    case FailedStat => result != RESULT_SUCCESS
    case ExchangeSuccesses => action == "exchange.request" && result == RESULT_SUCCESS
    case ExchangeFailures => action == "exchange.request" && result != RESULT_SUCCESS
    case VerifySuccesses => action == "verify.request" && result == RESULT_SUCCESS
    case VerifyFailures => action == "verify.request" && result != RESULT_SUCCESS
    case Count4xx => 400 <= code < 500
    case Count5xx => code >= 500
  }

  function RollupCounts(f: MetricsFilter, stat: Stat): RollupKey -> bool {
    k => RollupMatches(f, k) && Counts(stat, k.action, k.result, k.statusCode)
  }

  /** A column of the summary over the rollup table. */
  ghost function RollupStat(m: RollupTable, f: MetricsFilter, stat: Stat): nat {
    SumOver(m, RollupCounts(f, stat))
  }

  predicate EventCounts(f: MetricsFilter, stat: Stat, e: Event) {
    EventMatches(f, e) && Counts(stat, e.action, e.result, e.statusCode)
  }

  /** The same column recomputed from events. */
  function EventStat(events: seq<Event>, f: MetricsFilter, stat: Stat): nat {
    if events == [] then 0
    else EventStat(events[..|events| - 1], f, stat) + if EventCounts(f, stat, events[|events| - 1]) then 1 else 0
  }

  // ----- When the two filters agree -----

  predicate KnownClass(v: string) {
    v == "" || v == "1xx" || v == "2xx" || v == "3xx" || v == "4xx" || v == "5xx"
  }

  lemma ClassOfDigit(n: nat)
    requires n <= 9
    ensures Decimal(n) + "xx" == [DigitChar(n), 'x', 'x']
  {
  }

  /** A class name and its range. */
  lemma KnownClassRange(n: nat)
    requires 1 <= n <= 5
    ensures var v := [DigitChar(n), 'x', 'x'];
      TrimSpace(v) == v && ToLower(v) == v && StatusClassRange(v) == Some((n * 100, (n + 1) * 100))
  {
    var v := [DigitChar(n), 'x', 'x'];
    assert ToLower(v) == v;
    assert v[1..] == "xx" && v[..1] == [DigitChar(n)];
    assert NatOf([DigitChar(n)]) == n by { assert Decimal(n) == [DigitChar(n)]; }
    assert DigitSpan([DigitChar(n)]) == 1;
  }

  lemma DecimalOfClass(a: nat, n: nat)
    requires n <= 9 && Decimal(a) + "xx" == [DigitChar(n), 'x', 'x']
    ensures a == n
  {
    var s, t := Decimal(a) + "xx", [DigitChar(n), 'x', 'x'];
    assert |Decimal(a)| == 1;
    assert Decimal(a)[0] == s[0] == t[0];
    assert Decimal(a) == [DigitChar(n)] == Decimal(n);
  }

  /** A code has a class name exactly when it is in the class's range. */
  lemma ClassIsRange(n: nat, code: int)
    requires 1 <= n <= 5
    ensures StatusClass(code) == [DigitChar(n), 'x', 'x'] <==> n * 100 <= code < (n + 1) * 100
  {
    if code > 0 {
      ClassOfDigit(n);
      if StatusClass(code) == [DigitChar(n), 'x', 'x'] { DecimalOfClass(code / 100, n); }
    }
  }

  lemma KnownClassDigit(v: string) returns (n: nat)
    requires KnownClass(v) && v != ""
    ensures 1 <= n <= 5 && v == [DigitChar(n), 'x', 'x']
  {
    n := if v == "1xx" then 1 else if v == "2xx" then 2 else if v == "3xx" then 3 else if v == "4xx" then 4 else 5;
    assert v[0] == DigitChar(n);
  }

  /** For the documented classes, and for none, the rollup condition and the event condition agree on every code. */
  lemma KnownClassAgrees(v: string, code: int)
    requires KnownClass(v)
    ensures ClassMatches(v, StatusClass(code)) == CodeMatches(v, code)
  {
    if v == "" {
      assert TrimSpace(v) == "" && ToLower("") == "";
    } else {
      var n := KnownClassDigit(v);
      KnownClassRange(n);
      ClassIsRange(n, code);
    }
  }

  /**
   Filtering rollups by class is filtering events by its range, for the codes of HTTP,
   exactly for the documented classes: other text selects no rollup, but selects some event.
   */
  lemma {:induction false} ClassFilterAgreesExactly(value: string)
    ensures var v := ToLower(TrimSpace(value));
      KnownClass(v) <==>
        forall code :: 100 <= code <= 599 ==> ClassMatches(v, StatusClass(code)) == CodeMatches(v, code)
  {
    var v := ToLower(TrimSpace(value));
    TrimUpperSettles(value);
    if KnownClass(v) {
      forall code | 100 <= code <= 599 ensures ClassMatches(v, StatusClass(code)) == CodeMatches(v, code) {
        KnownClassAgrees(v, code);
      }
    } else {
      NotAClass(v);
    }
  }

  lemma NotAClass(v: string)
    requires !KnownClass(v) && ToLower(TrimSpace(v)) == v
    ensures exists code :: 100 <= code <= 599 && ClassMatches(v, StatusClass(code)) != CodeMatches(v, code)
  {
    var code := if StatusClassRange(v).Some? then StatusClassRange(v).value.0 else 100;
    assert CodeMatches(v, code);
    var n := code / 100;
    ClassIsRange(n, code);
    assert StatusClass(code) == [DigitChar(n), 'x', 'x'];
    assert KnownClass([DigitChar(n), 'x', 'x']) by { DigitsAreClasses(n); }
    assert ToLower("") == "";
    assert !Unset(v);
    assert !ClassMatches(v, StatusClass(code));
  }

  lemma DigitsAreClasses(n: nat)
    requires 1 <= n <= 5
    ensures KnownClass([DigitChar(n), 'x', 'x'])
  {
    assert DigitChar(1) == '1' && DigitChar(2) == '2' && DigitChar(3) == '3' && DigitChar(4) == '4';
    assert DigitChar(5) == '5';
  }

  predicate WholeMinutes(from: Time, to: Time) {
    from % MINUTE == 0 && (to + 1) % MINUTE == 0
  }

  lemma MinuteFloor(from: Time, to: Time, ts: Time)
    requires WholeMinutes(from, to)
    ensures from <= FloorTo(ts, MINUTE) <= to <==> from <= ts <= to
  {
  }

  /** An event and its minute are in the same ranges exactly when the range is whole minutes, or empty. */
  lemma WholeMinutesExactly(from: Time, to: Time)
    ensures (forall ts :: from <= FloorTo(ts, MINUTE) <= to <==> from <= ts <= to)
      <==> from > to || WholeMinutes(from, to)
  {
    if from > to {
    } else if WholeMinutes(from, to) {
      forall ts ensures from <= FloorTo(ts, MINUTE) <= to <==> from <= ts <= to { MinuteFloor(from, to, ts); }
    } else if from % MINUTE != 0 {
      assert FloorTo(from, MINUTE) < from;
    } else {
      assert FloorTo(to + 1, MINUTE) <= to;
      assert from <= FloorTo(to + 1, MINUTE);
    }
  }

  // ----- The rollups are a view of the events -----

  /** Sampling is off: every rate is one. */
  predicate FullRates(cfg: PolicyConfig) {
    cfg.verifySuccessRate == cfg.verifyFailureRate == cfg.exchangeSuccessRate == cfg.exchangeFailureRate == 1.0
  }

  /** Prepared with a result that is not blank, and stored with the very fields it is counted by. */
  ghost predicate Viewable(r: Recorded) {
    IsPrepared(r.event) && r.event.result != "" && (r.decision.countMetric ==> Canonical(NewMetricRollup(r.event)))
  }

  /** Items as Record makes them at full rates, with fresh ids. */
  ghost predicate FullyRecorded(cfg: PolicyConfig, rs: seq<Recorded>, draws: nat -> real) {
    && FullRates(cfg)
    && (forall i :: 0 <= i < |rs| ==> Viewable(rs[i]) && rs[i].decision == Decide(cfg, rs[i].event, draws(i)))
    && (forall i, j :: 0 <= i < j < |rs| ==> rs[i].event.id != rs[j].event.id)
  }

  /** A filter on whole minutes and a documented status class. */
  predicate ViewFilter(f: MetricsFilter) {
    WholeMinutes(f.from, f.to) && KnownClass(f.statusClass)
  }

  /** What a clean event is counted and stored as are counted alike. */
  lemma RowCountsAlike(f: MetricsFilter, stat: Stat, e: Event)
    requires ViewFilter(f) && IsPrepared(e) && Canonical(NewMetricRollup(e)) && e.result != ""
    ensures RollupCounts(f, stat)(KeyOf(NewMetricRollup(e))) == EventCounts(f, stat, StoredRow(e))
  {
    var k, row := KeyOf(NewMetricRollup(e)), StoredRow(e);
    assert k.endpoint == row.endpoint && k.method_ == row.method_ && k.action == row.action && k.result == row.result;
    assert k.statusClass == StatusClass(e.statusCode) && k.statusCode == row.statusCode == e.statusCode;
    MinuteFloor(f.from, f.to, e.timestamp);
    KnownClassAgrees(f.statusClass, e.statusCode);
    hide StatusClass, ToLower, ToUpper, TrimSpace, CodeMatches, ClassMatches;
    hide FieldsMatch, Counts, FloorTo, IsCountedAction;
  }

  /** An event that is not counted is not of a counted action. */
  lemma UncountedEvent(cfg: PolicyConfig, f: MetricsFilter, stat: Stat, r: Recorded, draw: real)
    requires r.decision == Decide(cfg, r.event, draw) && !r.decision.countMetric
    ensures !EventCounts(f, stat, StoredRow(r.event))
  {
    CountingIgnoresSampling(cfg, cfg, r.event, draw, draw);
    if IsCountedAction(r.event.action) { CountedActionsAreTrimmed(r.event.action); }
  }

  lemma CountedActionsAreTrimmed(action: string)
    requires IsCountedAction(action)
    ensures TrimSpace(action) == action
  {
  }

  lemma {:induction false} FreshIds(rs: seq<Recorded>, id: string)
    requires forall i :: 0 <= i < |rs| ==> IsPrepared(rs[i].event) && rs[i].event.id != id
    ensures !HasId(SyncRun(Tables([], map[]), rs).events, id)
  {
    if rs != [] {
      FreshIds(rs[..|rs| - 1], id);
      assert StoredRow(rs[|rs| - 1].event).id == rs[|rs| - 1].event.id;
    }
  }

  /**
   In any run at full rates with fresh ids, every column of the rollup summary equals
   the column recomputed from the stored events, for whole minutes and documented classes.
   */
  lemma {:induction false} RollupsAreAView(cfg: PolicyConfig, rs: seq<Recorded>, draws: nat -> real,
        f: MetricsFilter, stat: Stat)
    requires FullyRecorded(cfg, rs, draws) && ViewFilter(f)
    ensures var t := SyncRun(Tables([], map[]), rs); RollupStat(t.rollups, f, stat) == EventStat(t.events, f, stat)
  {
    hide FullyRecorded, Viewable, SyncRun, RollupStat, EventStat, FullRates, ViewFilter, IsPrepared;
    if rs == [] {
      NothingToView(f, stat);
    } else {
      var n := |rs| - 1;
      FullyRecordedPrefix(cfg, rs, draws);
      RollupsAreAView(cfg, rs[..n], draws, f, stat);
      FreshIds(rs[..n], rs[n].event.id);
      RunOneMore(Tables([], map[]), rs);
      ViewStep(cfg, SyncRun(Tables([], map[]), rs[..n]), rs[n], draws(n), f, stat);
    }
  }

  lemma NothingToView(f: MetricsFilter, stat: Stat)
    ensures var t := SyncRun(Tables([], map[]), []); RollupStat(t.rollups, f, stat) == EventStat(t.events, f, stat)
  {
  }

  lemma RunOneMore(t: Tables, rs: seq<Recorded>)
    requires rs != []
    ensures SyncRun(t, rs) == SyncApply(SyncRun(t, rs[..|rs| - 1]), rs[|rs| - 1])
  {
    hide SyncApply;
  }

  lemma FullyRecordedPrefix(cfg: PolicyConfig, rs: seq<Recorded>, draws: nat -> real)
    requires FullyRecorded(cfg, rs, draws) && rs != []
    ensures var (n, prefix) := (|rs| - 1, rs[..|rs| - 1]);
      && FullRates(cfg) && FullyRecorded(cfg, prefix, draws)
      && Viewable(rs[n]) && rs[n].decision == Decide(cfg, rs[n].event, draws(n))
      && forall i :: 0 <= i < n ==> IsPrepared(prefix[i].event) && prefix[i].event.id != rs[n].event.id
  {
    hide Decide, NewMetricRollup, Canonical, FullRates, IsPrepared;
    assert forall i :: 0 <= i < |rs| ==> Viewable(rs[i]);
  }

  /** What an event adds to a column, if it is not stored yet. */
  lemma EventStep(events: seq<Event>, row: Event, f: MetricsFilter, stat: Stat)
    requires !HasId(events, row.id)
    ensures EventStat(InsertOne(events, row), f, stat)
      == EventStat(events, f, stat) + if EventCounts(f, stat, row) then 1 else 0
  {
    hide EventCounts;
    assert (events + [row])[..|events|] == events;
  }

  /** It is counted as a rollup just as it is counted as a row, if it is one. */
  lemma CountedAlike(cfg: PolicyConfig, r: Recorded, draw: real, f: MetricsFilter, stat: Stat)
    requires FullRates(cfg) && Viewable(r) && r.decision == Decide(cfg, r.event, draw) && ViewFilter(f)
    ensures SumOfList(RollupsOf(r), RollupCounts(f, stat))
      == if r.decision.persist && EventCounts(f, stat, StoredRow(r.event)) then 1 else 0
  {
    hide StoredRow, RollupCounts, EventCounts, Decide, SumOfList, Canonical, ViewFilter;
    if r.decision.countMetric {
      FullRatesStoreWhatTheyCount(cfg, r.event, draw);
      RowCountsAlike(f, stat, r.event);
      OneRollupSum(NewMetricRollup(r.event), RollupCounts(f, stat));
    } else {
      UncountedEvent(cfg, f, stat, r, draw);
      NoSum(RollupCounts(f, stat));
    }
  }

  lemma ViewStep(cfg: PolicyConfig, before: Tables, r: Recorded, draw: real, f: MetricsFilter, stat: Stat)
    requires FullRates(cfg) && Viewable(r) && r.decision == Decide(cfg, r.event, draw)
    requires ViewFilter(f) && !HasId(before.events, r.event.id)
    requires RollupStat(before.rollups, f, stat) == EventStat(before.events, f, stat)
    ensures var after := SyncApply(before, r); RollupStat(after.rollups, f, stat) == EventStat(after.events, f, stat)
  {
    hide FullRates, Decide, ViewFilter, EventStat, SumOver, SumOfList, UpsertAll, InsertOne, HasId, EventCounts;
    hide RollupCounts, NewMetricRollup, StoredRow, RollupsOf, Canonical, IsPrepared;
    UpsertConserves(before.rollups, RollupsOf(r), RollupCounts(f, stat));
    CountedAlike(cfg, r, draw, f, stat);
    RowKeepsId(r.event);
    if r.decision.persist { EventStep(before.events, StoredRow(r.event), f, stat); }
  }

  lemma OneRollupSum(r: MetricRollup, w: RollupKey -> bool)
    requires r.count > 0
    ensures SumOfList([r], w) == if w(KeyOf(r)) then r.count else 0
  {
    assert [r][..0] == [];
  }

  /** A blank result breaks the view: it is counted as a failure and stored as a success. */
  lemma BlankResultSplitsTheView(e: Event)
    requires IsPrepared(e) && e.result == ""
    ensures !Counts(Successful, e.action, NewMetricRollup(e).result, e.statusCode)
    ensures Counts(Successful, e.action, StoredRow(e).result, e.statusCode)
  {
    assert ToLower(TrimSpace(RESULT_SUCCESS)) == RESULT_SUCCESS;
    assert |RESULT_SUCCESS| == 7;
  }

  // ----- Series -----

  datatype Point = Point(timestamp: Time, count: nat)

  function Seconds(d: Duration): int {
    TruncDiv(d, SECOND)
  }

  /** Whole seconds since the epoch. */
  function Unix(t: Time): int {
    t / SECOND
  }

  /** Where the series starts; the division truncates, so this is a floor from the epoch on. */
  function BucketStart(t: Time, bucket: Duration): Time
    requires Seconds(bucket) > 0
  {
    TruncDiv(Unix(t), Seconds(bucket)) * Seconds(bucket) * SECOND
  }

  /** The bucket, in seconds, that the database groups a row under. */
  function TimeBucket(t: Time, bucket: Duration): int {
    FloorTo(Unix(t), if Seconds(bucket) <= 0 then 3600 else Seconds(bucket))
  }

  function InBucket(f: MetricsFilter, seconds: int): RollupKey -> bool {
    k => RollupMatches(f, k) && TimeBucket(k.bucketStart, f.bucket) == seconds
  }

  /** What the grouped query returns: a positive sum for each bucket that has one. */
  ghost predicate Grouped(rows: map<int, nat>, m: RollupTable, f: MetricsFilter) {
    forall seconds :: (if seconds in rows then rows[seconds] else 0) == SumOver(m, InBucket(f, seconds))
  }

  /** Rows as they are written: each starts a minute. */
  predicate MinuteRows(m: RollupTable) {
    forall k :: k in m ==> k.bucketStart % MINUTE == 0
  }

  /** The points at `ts` and every bucket after it up to `until`. */
  function Points(rows: map<int, nat>, ts: Time, until: Time, bucket: Duration): seq<Point>
    requires bucket > 0
    decreases until - ts
  {
    if ts > until then []
    else [Point(ts, if Unix(ts) in rows then rows[Unix(ts)] else 0)] + Points(rows, ts + bucket, until, bucket)
  }

  /** `rows` is what the database answered. A bucket shorter than a second divides by zero. */
  method Series(f: MetricsFilter, rows: map<int, nat>) returns (points: Option<seq<Point>>)
    requires f.bucket > 0
    ensures Seconds(f.bucket) == 0 ==> points == None
    ensures Seconds(f.bucket) > 0 ==> points == Some(Points(rows, BucketStart(f.from, f.bucket), f.to, f.bucket))
  {
    if Seconds(f.bucket) == 0 {
      return None;
    }
    var out := [];
    var ts := BucketStart(f.from, f.bucket);
    while ts <= f.to
      invariant out + Points(rows, ts, f.to, f.bucket) == Points(rows, BucketStart(f.from, f.bucket), f.to, f.bucket)
      decreases f.to - ts
    {
      var point := Point(ts, if Unix(ts) in rows then rows[Unix(ts)] else 0);
      assert Points(rows, ts, f.to, f.bucket) == [point] + Points(rows, ts + f.bucket, f.to, f.bucket);
      out := out + [point];
      ts := ts + f.bucket;
    }
    assert out == out + Points(rows, ts, f.to, f.bucket);
    return Some(out);
  }

  function SumPoints(points: seq<Point>): nat {
    if points == [] then 0 else points[0].count + SumPoints(points[1..])
  }

  predicate WholeSeconds(bucket: Duration) {
    bucket % SECOND == 0
  }

  lemma FloorUnique(t: int, d: int, f: int)
    requires d > 0 && f % d == 0 && f <= t < f + d
    ensures f == FloorTo(t, d)
  {
    var g := FloorTo(t, d);
    hide FloorTo;
    var a, b := f / d, g / d;
    assert f == a * d && g == b * d;
    assert f - g == (a - b) * d;
    MultipleBound(a - b, d);
  }

  /** For whole seconds the database's bucket is the floor in nanoseconds. */
  lemma BucketIsFloor(t: Time, bucket: Duration)
    requires bucket > 0 && WholeSeconds(bucket)
    ensures Seconds(bucket) > 0
    ensures TimeBucket(t, bucket) * SECOND == FloorTo(t, bucket)
    ensures t >= 0 ==> BucketStart(t, bucket) == FloorTo(t, bucket)
  {
    var n := Seconds(bucket);
    assert bucket == n * SECOND;
    var q := FloorTo(Unix(t), n);
    assert q == (q / n) * n;
    assert q * SECOND == (q / n) * bucket by {
      assert (q / n) * n * SECOND == (q / n) * (n * SECOND);
    }
    MultipleMod(q / n, bucket);
    assert q * SECOND <= t < q * SECOND + bucket;
    FloorUnique(t, bucket, q * SECOND);
    if t >= 0 {
      MultipleMod(Unix(t) / n, n);
      FloorUnique(Unix(t), n, Unix(t) / n * n);
    }
  }

  lemma NextMultiple(a: int, b: int, d: int)
    requires d > 0 && a % d == 0 && b % d == 0 && b > a
    ensures b >= a + d
  {
    assert a == (a / d) * d && b == (b / d) * d;
    MultipleBound(b / d - a / d, d);
  }

  function FromBucket(f: MetricsFilter, ts: Time): RollupKey -> bool
    requires f.bucket > 0
  {
    k => RollupMatches(f, k) && FloorTo(k.bucketStart, f.bucket) >= ts
  }

  lemma {:induction false} SeriesFrom(m: RollupTable, f: MetricsFilter, rows: map<int, nat>, ts: Time)
    requires f.bucket > 0 && WholeSeconds(f.bucket) && ts % f.bucket == 0 && Grouped(rows, m, f)
    ensures SumPoints(Points(rows, ts, f.to, f.bucket)) == SumOver(m, FromBucket(f, ts))
    decreases f.to - ts
  {
    if ts > f.to {
      SumNone(m, FromBucket(f, ts));
    } else {
      NextIsMultiple(ts, f.bucket);
      SeriesFrom(m, f, rows, ts + f.bucket);
      forall k | k in m
        ensures (FromBucket(f, ts)(k) <==> InBucket(f, Unix(ts))(k) || FromBucket(f, ts + f.bucket)(k))
          && !(InBucket(f, Unix(ts))(k) && FromBucket(f, ts + f.bucket)(k)) {
        BucketSplit(f, k, ts);
      }
      SumSplit(m, FromBucket(f, ts), InBucket(f, Unix(ts)), FromBucket(f, ts + f.bucket));
      assert (if Unix(ts) in rows then rows[Unix(ts)] else 0) == SumOver(m, InBucket(f, Unix(ts)));
    }
  }

  lemma NextIsMultiple(ts: Time, bucket: Duration)
    requires bucket > 0 && ts % bucket == 0
    ensures (ts + bucket) % bucket == 0
  {
    assert ts == (ts / bucket) * bucket;
    assert ts + bucket == (ts / bucket + 1) * bucket;
    MultipleMod(ts / bucket + 1, bucket);
  }

  /** A row is in the bucket at `ts`, or in a later one, or in an earlier one. */
  lemma BucketSplit(f: MetricsFilter, k: RollupKey, ts: Time)
    requires f.bucket > 0 && WholeSeconds(f.bucket) && ts % f.bucket == 0
    ensures FromBucket(f, ts)(k) <==> InBucket(f, Unix(ts))(k) || FromBucket(f, ts + f.bucket)(k)
    ensures !(InBucket(f, Unix(ts))(k) && FromBucket(f, ts + f.bucket)(k))
  {
    BucketIsFloor(k.bucketStart, f.bucket);
    var floor := FloorTo(k.bucketStart, f.bucket);
    if floor > ts { NextMultiple(ts, floor, f.bucket); }
    WholeBucketIsWhole(ts, f.bucket);
    hide RollupMatches, FloorTo, TimeBucket;
  }

  lemma WholeBucketIsWhole(ts: Time, bucket: Duration)
    requires bucket > 0 && WholeSeconds(bucket) && ts % bucket == 0
    ensures Unix(ts) * SECOND == ts
  {
    var n, q := bucket / SECOND, ts / bucket;
    assert ts == q * bucket && bucket == n * SECOND;
    assert q * (n * SECOND) == (q * n) * SECOND;
    MultipleMod(q * n, SECOND);
  }

  lemma MatchInRange(f: MetricsFilter, k: RollupKey)
    requires RollupMatches(f, k)
    ensures f.from <= k.bucketStart <= f.to
  {
    hide FieldsMatch, ClassMatches, IsCountedAction;
  }

  lemma FloorMonotone(a: int, b: int, d: int)
    requires d > 0 && a <= b
    ensures FloorTo(a, d) <= FloorTo(b, d)
  {
    hide FloorTo;
    if FloorTo(b, d) < FloorTo(a, d) { NextMultiple(FloorTo(b, d), FloorTo(a, d), d); }
  }

  lemma MultiplesApart(a: int, b: int, d: int)
    requires d > 0 && a % d == 0 && b % d == 0
    ensures (b - a) % d == 0
  {
    var x, y := a / d, b / d;
    assert a == x * d && b == y * d;
    assert b - a == (y - x) * d;
    MultipleMod(y - x, d);
  }

  /** Every bucket the database returns is one of the points. */
  lemma {:induction false} BucketsAreOnThePoints(f: MetricsFilter, k: RollupKey)
    requires f.bucket > 0 && WholeSeconds(f.bucket) && f.from >= 0 && RollupMatches(f, k)
    ensures var start := BucketStart(f.from, f.bucket);
      && start % f.bucket == 0 && start <= TimeBucket(k.bucketStart, f.bucket) * SECOND <= f.to
      && (TimeBucket(k.bucketStart, f.bucket) * SECOND - start) % f.bucket == 0
  {
    hide RollupMatches, FloorTo, TimeBucket, BucketStart;
    MatchInRange(f, k);
    BucketIsFloor(f.from, f.bucket);
    BucketIsFloor(k.bucketStart, f.bucket);
    FloorMonotone(f.from, k.bucketStart, f.bucket);
    MultiplesApart(FloorTo(f.from, f.bucket), FloorTo(k.bucketStart, f.bucket), f.bucket);
  }

  /**
   The series loses nothing: for any table and any range from the epoch on, the
   counts of its points add up to the total of the summary, exactly when the bucket
   is a whole number of seconds (and at least one). It makes no difference whether all
   the rows are at whole minutes, as written, or not.
   */
  lemma SeriesIsLossless(bucket: Duration)
    requires bucket > 0 && Seconds(bucket) > 0
    ensures WholeSeconds(bucket) ==>
      forall m: RollupTable, f: MetricsFilter, rows: map<int, nat> ::
        f.bucket == bucket && f.from >= 0 && Grouped(rows, m, f) ==>
        SumPoints(Points(rows, BucketStart(f.from, bucket), f.to, bucket)) == RollupStat(m, f, Total)
    ensures WholeSeconds(bucket) <==>
      forall m: RollupTable, f: MetricsFilter, rows: map<int, nat> ::
        f.bucket == bucket && f.from >= 0 && MinuteRows(m) && Grouped(rows, m, f) ==>
        SumPoints(Points(rows, BucketStart(f.from, bucket), f.to, bucket)) == RollupStat(m, f, Total)
  {
    if WholeSeconds(bucket) {
      forall m: RollupTable, f: MetricsFilter, rows: map<int, nat> |
        f.bucket == bucket && f.from >= 0 && Grouped(rows, m, f)
        ensures SumPoints(Points(rows, BucketStart(f.from, bucket), f.to, bucket)) == RollupStat(m, f, Total) {
        LosslessForWholeSeconds(m, f, rows);
      }
    } else {
      FractionLosesARow(bucket);
    }
  }

  lemma LosslessForWholeSeconds(m: RollupTable, f: MetricsFilter, rows: map<int, nat>)
    requires f.bucket > 0 && WholeSeconds(f.bucket) && f.from >= 0 && Grouped(rows, m, f)
    ensures Seconds(f.bucket) > 0
    ensures SumPoints(Points(rows, BucketStart(f.from, f.bucket), f.to, f.bucket)) == RollupStat(m, f, Total)
  {
    BucketIsFloor(f.from, f.bucket);
    var start := BucketStart(f.from, f.bucket);
    SeriesFrom(m, f, rows, start);
    forall k | k in m ensures FromBucket(f, start)(k) == RollupCounts(f, Total)(k) {
      if RollupMatches(f, k) {
        BucketsAreOnThePoints(f, k);
        BucketIsFloor(k.bucketStart, f.bucket);
      }
    }
    SumEqual(m, FromBucket(f, start), RollupCounts(f, Total));
  }

  /** Where the series starts too late: before the epoch, between two bucket boundaries. */
  predicate StartsLate(from: Time, bucket: Duration)
    requires Seconds(bucket) > 0
  {
    from < 0 && Unix(from) % Seconds(bucket) != 0
  }

  lemma LateStart(from: Time, bucket: Duration)
    requires bucket > 0 && WholeSeconds(bucket)
    ensures Seconds(bucket) > 0 && BucketStart(from, bucket) % bucket == 0
    ensures BucketStart(from, bucket) == FloorTo(from, bucket) + if StartsLate(from, bucket) then bucket else 0
  {
    BucketIsFloor(from, bucket);
    var n, u := Seconds(bucket), Unix(from);
    assert bucket == n * SECOND;
    if from < 0 {
      RoundsUp(u, n);
      var start := TruncDiv(u, n) * n;
      assert start == FloorTo(u, n) + if StartsLate(from, bucket) then n else 0;
      assert BucketStart(from, bucket) == start * SECOND;
      assert FloorTo(from, bucket) == FloorTo(u, n) * SECOND;
      hide FloorTo, TruncDiv, TimeBucket;
      assert StartsLate(from, bucket) ==> start * SECOND == FloorTo(u, n) * SECOND + n * SECOND;
      IsMultiple(FloorTo(from, bucket), bucket);
    } else {
      hide TruncDiv, TimeBucket;
      IsMultiple(FloorTo(from, bucket), bucket);
    }
  }

  lemma IsMultiple(f: int, d: int)
    requires d > 0 && f % d == 0
    ensures (f + d) % d == 0
  {
    NextIsMultiple(f, d);
  }

  /** Dividing a negative number by truncation rounds up to the next multiple. */
  lemma RoundsUp(u: int, n: int)
    requires n > 0 && u < 0
    ensures TruncDiv(u, n) * n == FloorTo(u, n) + if u % n == 0 then 0 else n
  {
    var q, r := (-u) / n, (-u) % n;
    assert -u == q * n + r && TruncDiv(u, n) == -q;
    NegatedMultiple(u, n);
    MultipleMod(-q, n);
    MultipleMod(-q - 1, n);
    var m := q * n;
    assert (-q) * n == -m && (-q - 1) * n == -m - n;
    FloorUnique(u, n, if r == 0 then -m else -m - n);
  }

  lemma NegatedMultiple(u: int, n: int)
    requires n > 0
    ensures u % n == 0 <==> (-u) % n == 0
  {
    if u % n == 0 {
      assert u == (u / n) * n && -u == (-(u / n)) * n;
      MultipleMod(-(u / n), n);
    }
    if (-u) % n == 0 {
      var q := (-u) / n;
      assert -u == q * n && u == (-q) * n;
      MultipleMod(-q, n);
    }
  }

  /** The first whole minute that is not before `from`. */
  function FirstMinute(from: Time): (minute: Time)
    ensures from <= minute < from + MINUTE && minute % MINUTE == 0
  {
    FloorTo(from + MINUTE - 1, MINUTE)
  }

  lemma NoMinuteBefore(from: Time, t: Time)
    requires t >= from && t % MINUTE == 0
    ensures t >= FirstMinute(from)
  {
  }

  /**
   For a bucket of whole seconds and any range at all, the series loses nothing of rows
   at whole minutes exactly when no whole minute of the range comes before the first
   point: the range may hold none, or its first one is not before that point. From the
   epoch on, and before it on a bucket boundary, the first point is at or before the start.
   */
  lemma LosslessStarts(from: Time, until: Time, bucket: Duration)
    requires bucket > 0 && WholeSeconds(bucket)
    ensures Seconds(bucket) > 0
    ensures FirstMinute(from) > until || FirstMinute(from) >= BucketStart(from, bucket) <==>
      forall m: RollupTable, f: MetricsFilter, rows: map<int, nat> ::
        MinuteRows(m) && Answers(m, f, rows, from, until, bucket) ==> LosesNothing(m, f, rows)
    ensures !StartsLate(from, bucket) ==> FirstMinute(from) >= BucketStart(from, bucket)
    ensures StartsLate(from, bucket) ==> BucketStart(from, bucket) == FloorTo(from, bucket) + bucket
  {
    LateStart(from, bucket);
    hide BucketStart, TimeBucket, FloorTo;
    if FirstMinute(from) > until || FirstMinute(from) >= BucketStart(from, bucket) {
      forall m: RollupTable, f: MetricsFilter, rows: map<int, nat> |
        MinuteRows(m) && Answers(m, f, rows, from, until, bucket)
        ensures LosesNothing(m, f, rows) {
        LosslessFrom(m, f, rows);
      }
    } else {
      LateStartLosesARow(from, until, bucket);
    }
  }

  /** What the database answers for a filter with this range and bucket. */
  ghost predicate Answers(m: RollupTable, f: MetricsFilter, rows: map<int, nat>, from: Time, until: Time,
        bucket: Duration)
  {
    f.from == from && f.to == until && f.bucket == bucket && Grouped(rows, m, f)
  }

  ghost predicate LosesNothing(m: RollupTable, f: MetricsFilter, rows: map<int, nat>) {
    f.bucket > 0 && Seconds(f.bucket) > 0
    && SumPoints(Points(rows, BucketStart(f.from, f.bucket), f.to, f.bucket)) == RollupStat(m, f, Total)
  }

  lemma LosslessFrom(m: RollupTable, f: MetricsFilter, rows: map<int, nat>)
    requires f.bucket > 0 && WholeSeconds(f.bucket) && Seconds(f.bucket) > 0 && Grouped(rows, m, f) && MinuteRows(m)
    requires FirstMinute(f.from) > f.to || FirstMinute(f.from) >= BucketStart(f.from, f.bucket)
    ensures LosesNothing(m, f, rows)
  {
    LateStart(f.from, f.bucket);
    var start := BucketStart(f.from, f.bucket);
    SeriesFrom(m, f, rows, start);
    forall k | k in m ensures FromBucket(f, start)(k) == RollupCounts(f, Total)(k) {
      if RollupMatches(f, k) {
        NoMinuteBefore(f.from, k.bucketStart);
        if FloorTo(k.bucketStart, f.bucket) < start {
          NextMultiple(FloorTo(k.bucketStart, f.bucket), start, f.bucket);
        }
      }
    }
    SumEqual(m, FromBucket(f, start), RollupCounts(f, Total));
  }

  /** A row at the first minute of the range, before the first point. */
  lemma LateStartLosesARow(from: Time, until: Time, bucket: Duration)
    requires bucket > 0 && WholeSeconds(bucket) && Seconds(bucket) > 0
    requires FirstMinute(from) <= until && FirstMinute(from) < BucketStart(from, bucket)
    ensures exists m: RollupTable, f: MetricsFilter, rows: map<int, nat> ::
      MinuteRows(m) && Answers(m, f, rows, from, until, bucket) && !LosesNothing(m, f, rows)
  {
    var minute := FirstMinute(from);
    var k := RollupKey(minute, 60, "", "", "verify.request", "success", "2xx", 200);
    var f := MetricsFilter(from, until, bucket, "", "", "", "");
    var m: RollupTable, rows: map<int, nat> := map[k := 1], map[TimeBucket(minute, bucket) := 1];
    assert RollupMatches(f, k) by { assert TrimSpace("") == ""; }
    LateStart(from, bucket);
    hide RollupMatches, TimeBucket, FirstMinute, BucketStart;
    forall seconds ensures (if seconds in rows then rows[seconds] else 0) == SumOver(m, InBucket(f, seconds)) {
      OneRowSum(m, k, InBucket(f, seconds));
    }
    assert MinuteRows(m) && Answers(m, f, rows, from, until, bucket);
    OneRowSum(m, k, RollupCounts(f, Total));
    SeriesFrom(m, f, rows, BucketStart(from, bucket));
    OneRowSum(m, k, FromBucket(f, BucketStart(from, bucket)));
  }

  /**
   With a fraction of a second in the bucket, a point steps over the bucket that the
   database groups the next rows under: here the row at minute `n` of a bucket of `n`
   seconds and something, in the range that starts one truncated bucket before.
   */
  lemma FractionLosesARow(bucket: Duration)
    requires bucket > 0 && Seconds(bucket) > 0 && !WholeSeconds(bucket)
    ensures exists m: RollupTable, f: MetricsFilter, rows: map<int, nat> ::
      f.bucket == bucket && f.from >= 0 && MinuteRows(m) && Grouped(rows, m, f)
      && SumPoints(Points(rows, BucketStart(f.from, bucket), f.to, bucket)) != RollupStat(m, f, Total)
  {
    var n := Seconds(bucket);
    var from, until := 59 * n * SECOND, 60 * n * SECOND;
    var k := RollupKey(until, 60, "", "", "verify.request", "success", "2xx", 200);
    var f := MetricsFilter(from, until, bucket, "", "", "", "");
    var m: RollupTable, rows: map<int, nat> := map[k := 1], map[60 * n := 1];
    assert RollupMatches(f, k) by { assert TrimSpace("") == ""; }
    MultiplesOfBucket(n);
    assert until % MINUTE == 0 by { assert until == n * MINUTE; MultipleMod(n, MINUTE); }
    assert TimeBucket(until, bucket) == 60 * n && BucketStart(from, bucket) == from;
    hide RollupMatches, TimeBucket, BucketStart;
    forall seconds ensures (if seconds in rows then rows[seconds] else 0) == SumOver(m, InBucket(f, seconds)) {
      OneRowSum(m, k, InBucket(f, seconds));
    }
    assert MinuteRows(m) && Grouped(rows, m, f);
    OneRowSum(m, k, RollupCounts(f, Total));
    assert from + bucket > until;
    assert Points(rows, from + bucket, until, bucket) == [];
    assert Points(rows, from, until, bucket) == [Point(from, 0)];
    assert SumPoints([Point(from, 0)]) == 0 by { assert [Point(from, 0)][1..] == []; }
  }

  lemma MultiplesOfBucket(n: nat)
    requires n > 0
    ensures Unix(59 * n * SECOND) == 59 * n && Unix(60 * n * SECOND) == 60 * n
    ensures FloorTo(60 * n, n) == 60 * n && TruncDiv(59 * n, n) * n == 59 * n
  {
    MultipleMod(60, n);
    MultipleMod(59, n);
    assert 59 * n == (59 * n / n) * n + (59 * n) % n;
  }

  lemma OneRowSum(m: RollupTable, k: RollupKey, w: RollupKey -> bool)
    requires m == map[k := 1]
    ensures SumOver(m, w) == if w(k) then 1 else 0
  {
    SumRemove(m, w, k);
    assert m - {k} == map[];
  }

  /** Points are one bucket apart, so strictly increasing, all within the range's buckets. */
  lemma {:induction false} PointsAreBuckets(rows: map<int, nat>, ts: Time, until: Time, bucket: Duration, i: nat)
    requires bucket > 0 && i < |Points(rows, ts, until, bucket)|
    ensures Points(rows, ts, until, bucket)[i].timestamp == ts + i * bucket <= until
    decreases i
  {
    if i > 0 {
      PointsAreBuckets(rows, ts + bucket, until, bucket, i - 1);
      assert i * bucket == (i - 1) * bucket + bucket;
    }
  }

  lemma {:induction false} PointCount(rows: map<int, nat>, ts: Time, until: Time, bucket: Duration, n: nat)
    requires bucket > 0 && until < ts + n * bucket
    ensures |Points(rows, ts, until, bucket)| <= n
    decreases n
  {
    if ts <= until {
      assert n > 0 by { assert n == 0 ==> n * bucket == 0; }
      assert n * bucket == (n - 1) * bucket + bucket;
      PointCount(rows, ts + bucket, until, bucket, n - 1);
    }
  }

  /** The automatic buckets, each for the windows it is meant for, and a longer window never gets a shorter one. */
  lemma BucketLadder(window: Duration, longer: Duration)
    requires window <= longer
    ensures ChooseBucket(window) <= ChooseBucket(longer)
    ensures ChooseBucket(window) == 5 * MINUTE <==> window <= HOUR
    ensures ChooseBucket(window) == 15 * MINUTE <==> HOUR < window <= 6 * HOUR
    ensures ChooseBucket(window) == HOUR <==> 6 * HOUR < window <= 24 * HOUR
    ensures ChooseBucket(window) == 6 * HOUR <==> 24 * HOUR < window <= 7 * 24 * HOUR
    ensures window <= 7 * 24 * HOUR ==> window <= 28 * ChooseBucket(window)
  {
  }

  /** With the automatic bucket, a window of up to seven days has at most 29 points. */
  lemma AutomaticBucketPoints(f: MetricsFilter, now: Time, rows: map<int, nat>)
    requires f.bucket <= 0
    requires var n := NormalizeMetricsFilter(f, now); n.from >= 0 && n.to - n.from <= 7 * 24 * HOUR
    ensures var n := NormalizeMetricsFilter(f, now);
      Seconds(n.bucket) > 0 && |Points(rows, BucketStart(n.from, n.bucket), n.to, n.bucket)| <= 29
  {
    var n := NormalizeMetricsFilter(f, now);
    assert n.bucket == ChooseBucket(Since(n.to, n.from));
    assert WholeSeconds(n.bucket);
    BucketIsFloor(n.from, n.bucket);
    var start := BucketStart(n.from, n.bucket);
    assert n.from < start + n.bucket;
    PointCount(rows, start, n.to, n.bucket, 29);
  }
}
