/** The fixed-window limiter in front of the public endpoints. */
module RateLimit {
  import opened Clock

  datatype RateEntry = RateEntry(windowStart: Time, count: int)

  type Entries = map<string, RateEntry>

  /** One call of the limiter; `now` is what the clock said just before the lock was taken. */
  datatype Call = Call(key: string, now: Time)

  // ----- One call -----

  /** A key without an entry reads as the zero entry. */
  function Lookup(entries: Entries, key: string): RateEntry {
    if key in entries then entries[key] else RateEntry(ZERO_TIME, 0)
  }

  predicate Opens(entry: RateEntry, window: Duration, now: Time) {
    entry.windowStart == ZERO_TIME || Since(now, entry.windowStart) >= window
  }

  /** What one call makes of its own key's entry, and the answer. */
  function Charged(entry: RateEntry, window: Duration, max: int, now: Time): (RateEntry, bool) {
    if Opens(entry, window, now) then (RateEntry(now, 1), true)
    else if entry.count >= max then (entry, false)
    else (entry.(count := entry.count + 1), true)
  }

  /** The entries pruning keeps; doubling the window is 64-bit arithmetic. */
  function Pruned(entries: Entries, window: Duration, now: Time): Entries {
    map k | k in entries && !(Since(now, entries[k].windowStart) > Wrap64(2 * window)) :: entries[k]
  }

  function Allowed(entries: Entries, window: Duration, max: int, call: Call): (Entries, bool) {
    var entry := Lookup(entries, call.key);
    var (entry', ok) := Charged(entry, window, max, call.now);
    var entries' := entries[call.key := entry'];
    (if Opens(entry, window, call.now) then Pruned(entries', window, call.now) else entries', ok)
  }

  /** The limiter object. Its methods run under its mutex. */
  class FixedWindowLimiter {
    const window: Duration
    var entries: Entries

    constructor (configured: Duration)
      ensures entries == map[] && window == EffectiveWindow(configured)
    {
      window := if configured <= 0 then MINUTE else configured;
      entries := map[];
    }

    method Allow(key: string, max: int, now: Time) returns (ok: bool)
      modifies this
      ensures (entries, ok) == Allowed(old(entries), window, max, Call(key, now))
    {
      var entry := Lookup(entries, key);
      if entry.windowStart == ZERO_TIME || Since(now, entry.windowStart) >= window {
        entries := entries[key := RateEntry(now, 1)];
        PruneLocked(now);
        return true;
      }
      if entry.count >= max {
        assert entries[key := entry] == entries;
        return false;
      }
      entry := entry.(count := entry.count + 1);
      entries := entries[key := entry];
      return true;
    }

    /** Deletes while it visits the keys, in whatever order they come. */
    method PruneLocked(now: Time)
      modifies this
      ensures entries == Pruned(old(entries), window, now)
    {
      var pending := entries.Keys;
      while pending != {}
        invariant pending <= entries.Keys <= old(entries).Keys
        invariant forall k :: k in entries ==> entries[k] == old(entries)[k]
        invariant forall k :: k in old(entries) && k !in pending ==>
          (k in entries <==> k in Pruned(old(entries), window, now))
        decreases |pending|
      {
        var key :| key in pending;
        if Since(now, entries[key].windowStart) > Wrap64(2 * window) {
          entries := entries - {key};
        }
        pending := pending - {key};
      }
    }
  }

  function EffectiveWindow(configured: Duration): (w: Duration)
    ensures w > 0
    ensures configured <= MAX_INT64 ==> w <= MAX_INT64
  {
    if configured <= 0 then MINUTE else configured
  }

  // ----- Runs -----

  /** Entries and answers after a run, starting from nothing. */
  function Run(window: Duration, max: int, calls: seq<Call>): (r: (Entries, seq<bool>))
    ensures |r.1| == |calls|
  {
    if calls == [] then (map[], [])
    else
      var before := Run(window, max, calls[..|calls| - 1]);
      var step := Allowed(before.0, window, max, calls[|calls| - 1]);
      (step.0, before.1 + [step.1])
  }

  /** The same limiter without pruning. */
  function RunKept(window: Duration, max: int, calls: seq<Call>): (r: (Entries, seq<bool>))
    ensures |r.1| == |calls|
  {
    if calls == [] then (map[], [])
    else
      var before := RunKept(window, max, calls[..|calls| - 1]);
      var call := calls[|calls| - 1];
      var step := Charged(Lookup(before.0, call.key), window, max, call.now);
      (before.0[call.key := step.0], before.1 + [step.1])
  }

  /** The clock never goes back between calls, in lock order. */
  predicate Monotone(calls: seq<Call>) {
    && (forall i :: 0 <= i < |calls| ==> calls[i].now > ZERO_TIME)
    && (forall i, j :: 0 <= i < j < |calls| ==> calls[i].now <= calls[j].now)
  }

  predicate ValidConfig(window: Duration, max: int) {
    0 < window <= MAX_INT64 && max > 0
  }

  predicate NoOverflow(window: Duration) {
    2 * window <= MAX_INT64
  }

  /** Entries of a run have counts in 1..max and start at the time of some earlier call. */
  lemma EntriesInRange(window: Duration, max: int, calls: seq<Call>)
    requires ValidConfig(window, max) && Monotone(calls)
    ensures forall k :: k in RunKept(window, max, calls).0 ==>
      var e := RunKept(window, max, calls).0[k];
      1 <= e.count <= max && ZERO_TIME < e.windowStart && e.windowStart <= calls[|calls| - 1].now
  {
    if calls != [] { EntriesInRange(window, max, calls[..|calls| - 1]); }
  }

  /** With pruning as well, counts stay in 1..max and no window starts in the future. */
  lemma {:induction false} PrunedEntriesInRange(window: Duration, max: int, calls: seq<Call>)
    requires ValidConfig(window, max) && Monotone(calls)
    ensures forall k :: k in Run(window, max, calls).0 ==>
      var e := Run(window, max, calls).0[k];
      1 <= e.count <= max && ZERO_TIME < e.windowStart && e.windowStart <= calls[|calls| - 1].now
  {
    hide Wrap64, Since;
    if calls != [] {
      PrunedEntriesInRange(window, max, calls[..|calls| - 1]);
      RunStep(window, max, calls);
      hide Run;
    }
  }

  /**
   How the pruned table relates to the full one: what it still has agrees, and what
   it lost had expired, so the next call on that key opens a window either way.
   */
  ghost predicate PrunedView(pruned: Entries, kept: Entries, window: Duration, now: Time) {
    && pruned.Keys <= kept.Keys
    && (forall k :: k in pruned ==> pruned[k] == kept[k])
    && (forall k :: k in kept && k !in pruned ==> now - kept[k].windowStart >= window)
  }

  lemma {:induction false} PrunedRun(window: Duration, max: int, calls: seq<Call>, now: Time)
    requires ValidConfig(window, max) && Monotone(calls) && NoOverflow(window)
    requires calls != [] ==> calls[|calls| - 1].now <= now
    ensures Run(window, max, calls).1 == RunKept(window, max, calls).1
    ensures PrunedView(Run(window, max, calls).0, RunKept(window, max, calls).0, window, now)
  {
    if calls != [] {
      var call := calls[|calls| - 1];
      PrunedRun(window, max, calls[..|calls| - 1], call.now);
      EntriesInRange(window, max, calls[..|calls| - 1]);
      var p, k := Run(window, max, calls[..|calls| - 1]).0, RunKept(window, max, calls[..|calls| - 1]).0;
      assert Charged(Lookup(p, call.key), window, max, call.now) == Charged(Lookup(k, call.key), window, max, call.now);
      assert Opens(Lookup(p, call.key), window, call.now) == Opens(Lookup(k, call.key), window, call.now);
    }
  }

  /** `m` calls on one key at the epoch. */
  function Burst(m: nat): (calls: seq<Call>)
    ensures |calls| == m && Monotone(calls) && forall i :: 0 <= i < m ==> calls[i] == Call("k", 0)
  {
    if m == 0 then [] else Burst(m - 1) + [Call("k", 0)]
  }

  /** A run is its last call on top of the run before. */
  lemma RunStep(window: Duration, max: int, calls: seq<Call>)
    requires calls != []
    ensures var (before, call) := (Run(window, max, calls[..|calls| - 1]), calls[|calls| - 1]);
      var (entries, ok) := Allowed(before.0, window, max, call);
      Run(window, max, calls) == (entries, before.1 + [ok])
    ensures var (before, call) := (RunKept(window, max, calls[..|calls| - 1]), calls[|calls| - 1]);
      var (entry, ok) := Charged(Lookup(before.0, call.key), window, max, call.now);
      RunKept(window, max, calls) == (before.0[call.key := entry], before.1 + [ok])
  {
  }

  lemma OverflowPrunesAll(entries: Entries, window: Duration, now: Time)
    requires !NoOverflow(window) && window <= MAX_INT64
    requires forall k :: k in entries ==> entries[k].windowStart <= now
    ensures Pruned(entries, window, now) == map[]
  {
    assert Wrap64(2 * window) == 2 * window - 0x1_0000_0000_0000_0000;
    hide Wrap64;
  }

  /** With an overflowing window, pruning deletes the entry it has just written, so nothing is ever denied. */
  lemma {:induction false} OverflowForgets(window: Duration, max: int, calls: seq<Call>)
    requires ValidConfig(window, max) && Monotone(calls) && !NoOverflow(window)
    ensures var r := Run(window, max, calls); r.0 == map[] && forall i :: 0 <= i < |calls| ==> r.1[i]
  {
    hide Pruned, Wrap64;
    if calls != [] {
      var last := calls[|calls| - 1];
      OverflowForgets(window, max, calls[..|calls| - 1]);
      RunStep(window, max, calls);
      hide Run, Monotone;
      OverflowPrunesAll(map[last.key := RateEntry(last.now, 1)], window, last.now);
    }
  }

  lemma {:induction false} BurstFillsWindow(window: Duration, max: int, m: nat)
    requires ValidConfig(window, max) && 0 < m <= max
    ensures RunKept(window, max, Burst(m)).0 == map["k" := RateEntry(0, m)]
  {
    hide Monotone;
    assert Burst(m)[..m - 1] == Burst(m - 1);
    RunStep(window, max, Burst(m));
    if m > 1 { BurstFillsWindow(window, max, m - 1); }
  }

  /** Pruning is unobservable exactly when twice the window fits in 64 bits. */
  lemma PruningUnobservable(window: Duration, max: int)
    requires ValidConfig(window, max)
    ensures NoOverflow(window) <==>
      forall calls: seq<Call> :: Monotone(calls) ==> Run(window, max, calls).1 == RunKept(window, max, calls).1
  {
    if NoOverflow(window) {
      forall calls: seq<Call> | Monotone(calls) ensures Run(window, max, calls).1 == RunKept(window, max, calls).1 {
        PrunedRun(window, max, calls, if calls == [] then 0 else calls[|calls| - 1].now);
      }
    } else {
      var calls := Burst(max + 1);
      OverflowForgets(window, max, calls);
      BurstFillsWindow(window, max, max);
      assert calls[..max] == Burst(max);
      assert Run(window, max, calls).1[max] != RunKept(window, max, calls).1[max];
    }
  }

  lemma PrunedIsFresh(entries: Entries, window: Duration, now: Time, key: string)
    requires 0 < window && NoOverflow(window) && key in Pruned(entries, window, now)
    ensures now - Pruned(entries, window, now)[key].windowStart <= 2 * window
  {
    assert Wrap64(2 * window) == 2 * window;
    hide Wrap64;
  }

  /** Right after a window opens, nothing in the table is older than two windows. */
  lemma NothingStaleAfterOpening(window: Duration, max: int, calls: seq<Call>, key: string)
    requires ValidConfig(window, max) && Monotone(calls) && NoOverflow(window) && calls != []
    requires var last := calls[|calls| - 1];
      Opens(Lookup(Run(window, max, calls[..|calls| - 1]).0, last.key), window, last.now)
    requires key in Run(window, max, calls).0
    ensures calls[|calls| - 1].now - Run(window, max, calls).0[key].windowStart <= 2 * window
  {
    RunStep(window, max, calls);
    var last := calls[|calls| - 1];
    var entries := Run(window, max, calls[..|calls| - 1]).0[last.key := RateEntry(last.now, 1)];
    hide Run, Monotone, Wrap64, Since;
    assert Run(window, max, calls).0 == Pruned(entries, window, last.now);
    PrunedIsFresh(entries, window, last.now, key);
  }

  // ----- Keys do not interfere -----

  function OnlyKey(calls: seq<Call>, key: string): seq<Call> {
    if calls == [] then []
    else
      var last := calls[|calls| - 1];
      OnlyKey(calls[..|calls| - 1], key) + if last.key == key then [last] else []
  }

  /** The answers given to one key, in order. */
  function AnswersTo(calls: seq<Call>, answers: seq<bool>, key: string): seq<bool>
    requires |calls| == |answers|
  {
    if calls == [] then []
    else
      var n := |calls| - 1;
      AnswersTo(calls[..n], answers[..n], key) + if calls[n].key == key then [answers[n]] else []
  }

  lemma OnlyKeySelects(calls: seq<Call>, key: string)
    ensures forall c :: c in OnlyKey(calls, key) ==> c in calls
  {
  }

  lemma OnlyKeyMonotone(calls: seq<Call>, key: string)
    requires Monotone(calls)
    ensures Monotone(OnlyKey(calls, key))
  {
    if calls != [] {
      var prefix := calls[..|calls| - 1];
      OnlyKeyMonotone(prefix, key);
      OnlyKeySelects(prefix, key);
      var own := OnlyKey(prefix, key);
      forall i | 0 <= i < |own| ensures own[i].now <= calls[|calls| - 1].now {
        assert own[i] in prefix;
      }
    }
  }

  lemma {:induction false} KeptRunOfKey(window: Duration, max: int, calls: seq<Call>, key: string)
    ensures var all := RunKept(window, max, calls);
      var own := RunKept(window, max, OnlyKey(calls, key));
      Lookup(all.0, key) == Lookup(own.0, key) && AnswersTo(calls, all.1, key) == own.1
  {
    if calls != [] {
      var prefix := calls[..|calls| - 1];
      KeptRunOfKey(window, max, prefix, key);
      var all := RunKept(window, max, calls);
      assert all.1[..|calls| - 1] == RunKept(window, max, prefix).1;
      if calls[|calls| - 1].key == key {
        var own := OnlyKey(calls, key);
        assert own[..|own| - 1] == OnlyKey(prefix, key);
      } else {
        assert OnlyKey(calls, key) == OnlyKey(prefix, key);
        assert AnswersTo(calls, all.1, key) == AnswersTo(prefix, RunKept(window, max, prefix).1, key);
      }
    }
  }

  lemma {:induction false} AllAdmitted(calls: seq<Call>, answers: seq<bool>, key: string)
    requires |calls| == |answers| && forall i :: 0 <= i < |calls| ==> answers[i]
    ensures |AnswersTo(calls, answers, key)| == |OnlyKey(calls, key)|
    ensures forall i :: 0 <= i < |OnlyKey(calls, key)| ==> AnswersTo(calls, answers, key)[i]
  {
    if calls != [] { AllAdmitted(calls[..|calls| - 1], answers[..|calls| - 1], key); }
  }

  /** A key is answered as if it were alone, whatever the other keys do. */
  lemma KeysAreIndependent(window: Duration, max: int, calls: seq<Call>, key: string)
    requires ValidConfig(window, max) && Monotone(calls)
    ensures AnswersTo(calls, Run(window, max, calls).1, key) == Run(window, max, OnlyKey(calls, key)).1
  {
    OnlyKeyMonotone(calls, key);
    if NoOverflow(window) {
      PruningUnobservable(window, max);
      KeptRunOfKey(window, max, calls, key);
    } else {
      OverflowForgets(window, max, calls);
      OverflowForgets(window, max, OnlyKey(calls, key));
      AllAdmitted(calls, Run(window, max, calls).1, key);
    }
  }

  // ----- How much gets through -----

  /** Calls of `key` admitted at a time in [from, until). */
  function Admitted(calls: seq<Call>, answers: seq<bool>, key: string, from: Time, until: Time): nat
    requires |calls| == |answers|
  {
    if calls == [] then 0
    else
      var n := |calls| - 1;
      Admitted(calls[..n], answers[..n], key, from, until)
      + if calls[n].key == key && answers[n] && from <= calls[n].now < until then 1 else 0
  }

  lemma {:induction false} NothingBefore(calls: seq<Call>, answers: seq<bool>, key: string, from: Time, until: Time)
    requires |calls| == |answers| && Monotone(calls)
    requires calls != [] ==> calls[|calls| - 1].now < from
    ensures Admitted(calls, answers, key, from, until) == 0
  {
    if calls != [] { NothingBefore(calls[..|calls| - 1], answers[..|calls| - 1], key, from, until); }
  }

  /**
   While the current window starts before `limit`, no more than the budget and the
   current count have been admitted, less the call that opened the first window.
   */
  predicate Within(entries: Entries, key: string, admitted: int, limit: Time, budget: int) {
    if key !in entries then admitted == 0
    else entries[key].windowStart < limit ==> admitted <= budget - 1 + entries[key].count
  }

  predicate InRange(entries: Entries, key: string, max: int, now: Time) {
    now > ZERO_TIME
    && (key in entries ==> 1 <= entries[key].count <= max && ZERO_TIME < entries[key].windowStart <= now)
  }

  lemma RangeBeforeCall(window: Duration, max: int, calls: seq<Call>)
    requires ValidConfig(window, max) && Monotone(calls) && calls != []
    ensures var n := |calls| - 1; InRange(RunKept(window, max, calls[..n]).0, calls[n].key, max, calls[n].now)
  {
    EntriesInRange(window, max, calls[..|calls| - 1]);
    hide RunKept;
  }

  /** One call on the key itself, given how things stood against one window and one quota less. */
  lemma WithinAfterCall(window: Duration, max: int, entries: Entries, call: Call, admitted: int, more: int,
        from: Time, limit: Time, budget: int)
    requires ValidConfig(window, max) && InRange(entries, call.key, max, call.now) && admitted >= 0
    requires Within(entries, call.key, admitted, limit, budget)
    requires call.now < from ==> admitted == 0
    requires 0 <= budget && from <= limit
    requires from < limit ==> budget >= max && Within(entries, call.key, admitted, limit - window, budget - max)
    requires var ok := Charged(Lookup(entries, call.key), window, max, call.now).1;
      more == admitted || (more == admitted + 1 && ok && from <= call.now)
    ensures var entry := Charged(Lookup(entries, call.key), window, max, call.now).0;
      Within(entries[call.key := entry], call.key, more, limit, budget)
  {
  }

  lemma WithinElsewhere(entries: Entries, other: string, e: RateEntry, key: string, admitted: int, limit: Time,
        budget: int)
    requires other != key && Within(entries, key, admitted, limit, budget)
    ensures Within(entries[other := e], key, admitted, limit, budget)
  {
  }

  function Times(i: nat, d: int): int {
    i * d
  }

  lemma TimesStep(i: nat, d: int)
    requires d > 0
    ensures Times(i, d) >= 0 && (if i > 0 then Times(i, d) == Times(i - 1, d) + d >= d else Times(i, d) == 0)
  {
    MultipleBound(i, d);
    if i > 0 {
      assert i * d == (i - 1) * d + d;
      MultipleBound(i - 1, d);
    }
  }

  /** In any run, `i` windows after `from` allow for `i` quotas. */
  lemma {:induction false} Budget(window: Duration, max: int, calls: seq<Call>, key: string, from: Time,
        until: Time, i: nat)
    requires ValidConfig(window, max) && Monotone(calls)
    ensures var r := RunKept(window, max, calls);
      Within(r.0, key, Admitted(calls, r.1, key, from, until), from + Times(i, window), Times(i, max))
  {
    hide Times, Charged;
    if calls == [] {
      assert RunKept(window, max, calls).0 == map[];
    } else {
      var n := |calls| - 1;
      var call := calls[n];
      OneMore(window, max, calls[..n], call, key, from, until);
      assert calls[..n] + [call] == calls;
      RangeBeforeCall(window, max, calls);
      hide RunKept, Admitted, Within, Lookup, InRange;
      var before, after := RunKept(window, max, calls[..n]), RunKept(window, max, calls);
      var admitted := Admitted(calls[..n], before.1, key, from, until);
      var more := Admitted(calls, after.1, key, from, until);
      if call.now < from { NothingBefore(calls[..n], before.1, key, from, until); }
      TimesStep(i, window);
      TimesStep(i, max);
      Budget(window, max, calls[..n], key, from, until, i);
      if i > 0 { Budget(window, max, calls[..n], key, from, until, i - 1); }
      hide Monotone;
      if call.key == key {
        WithinAfterCall(window, max, before.0, call, admitted, more, from, from + Times(i, window), Times(i, max));
      } else {
        WithinElsewhere(before.0, call.key, Charged(Lookup(before.0, call.key), window, max, call.now).0, key, admitted,
                        from + Times(i, window), Times(i, max));
      }
    }
  }

  lemma {:induction false} BoundKept(window: Duration, max: int, calls: seq<Call>, key: string, from: Time, n: nat)
    requires ValidConfig(window, max) && Monotone(calls) && n > 0
    ensures Admitted(calls, RunKept(window, max, calls).1, key, from, from + n * window) <= (n + 1) * max - 1
  {
    if calls == [] {
      MultipleBound(n + 1, max);
    } else {
      var last := |calls| - 1;
      var until := from + n * window;
      assert RunKept(window, max, calls).1[..last] == RunKept(window, max, calls[..last]).1;
      BoundKept(window, max, calls[..last], key, from, n);
      Budget(window, max, calls, key, from, until, n);
      assert Times(n, window) == n * window && Times(n, max) == n * max;
      EntriesInRange(window, max, calls);
      assert (n + 1) * max == n * max + max;
    }
  }

  /**
   In any stretch of `n` windows, wherever it starts, a key is admitted at most
   `(n + 1) * max - 1` times: one less than the usual estimate, because the window
   that straddles the start was opened by a call before it.
   */
  lemma FixedWindowBound(window: Duration, max: int, calls: seq<Call>, key: string, from: Time, n: nat)
    requires ValidConfig(window, max) && Monotone(calls) && NoOverflow(window) && n > 0
    ensures Admitted(calls, Run(window, max, calls).1, key, from, from + n * window) <= (n + 1) * max - 1
  {
    PruningUnobservable(window, max);
    BoundKept(window, max, calls, key, from, n);
  }

  /** A run and its admission count, extended by one call. */
  lemma OneMore(window: Duration, max: int, calls: seq<Call>, call: Call, key: string, from: Time, until: Time)
    ensures var (before, more) := (RunKept(window, max, calls), RunKept(window, max, calls + [call]));
      var (entry, ok) := Charged(Lookup(before.0, call.key), window, max, call.now);
      && more.0 == before.0[call.key := entry]
      && Admitted(calls + [call], more.1, key, from, until) == Admitted(calls, before.1, key, from, until)
           + if call.key == key && ok && from <= call.now < until then 1 else 0
    ensures RunKept(window, max, []).0 == map[] && Admitted([], [], key, from, until) == 0
  {
    assert (calls + [call])[..|calls|] == calls;
    assert RunKept(window, max, calls + [call]).1[..|calls|] == RunKept(window, max, calls).1;
  }

  /** `m` calls at one instant. */
  function Repeat(now: Time, m: nat): (calls: seq<Call>)
    ensures |calls| == m && forall i :: 0 <= i < m ==> calls[i] == Call("k", now)
  {
    if m == 0 then [] else Repeat(now, m - 1) + [Call("k", now)]
  }

  /** The first window opens at the epoch and is used up at its very end; the next `n` are used up as they open. */
  function Bursts(window: Duration, max: nat, n: nat): seq<Call>
    requires max > 0
  {
    if n == 0 then [Call("k", 0)] + Repeat(window - 1, max - 1)
    else Bursts(window, max, n - 1) + [Call("k", Times(n, window))] + Repeat(Times(n, window), max - 1)
  }

  lemma MonotoneThen(calls: seq<Call>, now: Time, m: nat)
    requires Monotone(calls) && now > ZERO_TIME && (calls != [] ==> calls[|calls| - 1].now <= now)
    ensures Monotone(calls + Repeat(now, m))
    ensures m > 0 ==> (calls + Repeat(now, m))[|calls| + m - 1].now == now
  {
    hide Repeat;
    var longer := calls + Repeat(now, m);
    forall i, j | 0 <= i < j < |longer| ensures longer[i].now <= longer[j].now {
      if i < |calls| { assert calls[i].now <= calls[|calls| - 1].now; }
    }
  }

  lemma RepeatOne(now: Time)
    ensures Repeat(now, 1) == [Call("k", now)]
  {
    assert Repeat(now, 0) == [];
  }

  /** The time of the last call. */
  function LastTime(calls: seq<Call>): Time
    requires calls != []
  {
    calls[|calls| - 1].now
  }

  /** A call that opens a window, and `m` more that use it up. */
  lemma MonotoneBurst(before: seq<Call>, opens: Time, now: Time, m: nat)
    requires Monotone(before) && ZERO_TIME < opens <= now && (before != [] ==> LastTime(before) <= opens)
    ensures var calls := before + [Call("k", opens)] + Repeat(now, m);
      Monotone(calls) && calls != [] && LastTime(calls) <= now
  {
    hide Repeat, Monotone;
    RepeatOne(opens);
    MonotoneThen(before, opens, 1);
    MonotoneThen(before + [Call("k", opens)], now, m);
  }

  lemma BurstsAre(window: Duration, max: nat, n: nat)
    requires max > 0
    ensures n == 0 ==> Bursts(window, max, n) == [] + [Call("k", 0)] + Repeat(window - 1, max - 1)
    ensures n > 0 ==> var now := Times(n, window);
      Bursts(window, max, n) == Bursts(window, max, n - 1) + [Call("k", now)] + Repeat(now, max - 1)
  {
    hide Repeat, Times;
    assert [] + [Call("k", 0)] == [Call("k", 0)];
  }

  lemma {:induction false} BurstsMonotone(window: Duration, max: nat, n: nat)
    requires window > 0 && max > 0
    ensures Monotone(Bursts(window, max, n))
    ensures Bursts(window, max, n) != [] && LastTime(Bursts(window, max, n)) < Times(n + 1, window)
  {
    hide Repeat, Times, Monotone, Bursts, LastTime;
    TimesStep(n + 1, window);
    TimesStep(n, window);
    BurstsAre(window, max, n);
    if n == 0 {
      NoCalls();
      MonotoneBurst([], 0, window - 1, max - 1);
    } else {
      BurstsMonotone(window, max, n - 1);
      MonotoneBurst(Bursts(window, max, n - 1), Times(n, window), Times(n, window), max - 1);
    }
  }

  lemma NoCalls()
    ensures Monotone([])
  {
  }

  /** Calls at one instant within the quota of the current window all get through. */
  lemma {:induction false} RepeatAdmitted(window: Duration, max: int, calls: seq<Call>, now: Time, m: nat,
        e: RateEntry, from: Time, until: Time)
    requires RunKept(window, max, calls).0 == map["k" := e] && !Opens(e, window, now) && e.count + m <= max
    ensures var (before, after) := (RunKept(window, max, calls), RunKept(window, max, calls + Repeat(now, m)));
      && after.0 == map["k" := e.(count := e.count + m)]
      && Admitted(calls + Repeat(now, m), after.1, "k", from, until) == Admitted(calls, before.1, "k", from, until)
           + if from <= now < until then m else 0
  {
    hide RunKept, Admitted, Repeat;
    if m == 0 {
      assert calls + Repeat(now, m) == calls;
    } else {
      RepeatAdmitted(window, max, calls, now, m - 1, e, from, until);
      RepeatOnce(now, m);
      OneMore(window, max, calls + Repeat(now, m - 1), Call("k", now), "k", from, until);
      assert calls + Repeat(now, m) == calls + Repeat(now, m - 1) + [Call("k", now)];
    }
  }

  lemma RepeatOnce(now: Time, m: nat)
    requires m > 0
    ensures Repeat(now, m) == Repeat(now, m - 1) + [Call("k", now)]
  {
  }

  lemma FirstBurst(window: Duration, max: nat, until: Time)
    requires ValidConfig(window, max) && 1 < window <= until
    ensures var r := RunKept(window, max, Bursts(window, max, 0));
      r.0 == map["k" := RateEntry(0, max)] && Admitted(Bursts(window, max, 0), r.1, "k", window - 1, until) == max - 1
  {
    hide RunKept, Admitted, Repeat;
    OneMore(window, max, [], Call("k", 0), "k", window - 1, until);
    assert [] + [Call("k", 0)] == [Call("k", 0)];
    RepeatAdmitted(window, max, [Call("k", 0)], window - 1, max - 1, RateEntry(0, 1), window - 1, until);
  }

  lemma {:induction false} BurstsAdmitted(window: Duration, max: nat, n: nat, until: Time)
    requires ValidConfig(window, max) && window > 1 && until > Times(n, window) && until >= window
    ensures var r := RunKept(window, max, Bursts(window, max, n));
      && r.0 == map["k" := RateEntry(Times(n, window), max)]
      && Admitted(Bursts(window, max, n), r.1, "k", window - 1, until) == max - 1 + Times(n, max)
  {
    hide RunKept, Admitted, Repeat;
    TimesStep(n, window);
    TimesStep(n, max);
    hide Times;
    if n == 0 {
      FirstBurst(window, max, until);
    } else {
      BurstsAdmitted(window, max, n - 1, until);
      TimesStep(n - 1, window);
      var before, now := Bursts(window, max, n - 1), Times(n, window);
      OneMore(window, max, before, Call("k", now), "k", window - 1, until);
      var earlier := map["k" := RateEntry(Times(n - 1, window), max)];
      assert earlier["k" := RateEntry(now, 1)] == map["k" := RateEntry(now, 1)];
      RepeatAdmitted(window, max, before + [Call("k", now)], now, max - 1, RateEntry(now, 1), window - 1, until);
    }
  }

  /** The bound is reached, for every quota and every number of windows. */
  lemma BoundIsReached(window: Duration, max: nat, n: nat)
    requires ValidConfig(window, max) && 1 < window && NoOverflow(window) && n > 0
    ensures var until := window - 1 + n * window;
      exists calls: seq<Call> ::
        Monotone(calls) && Admitted(calls, Run(window, max, calls).1, "k", window - 1, until) == (n + 1) * max - 1
  {
    hide Run, RunKept, Admitted, Bursts, Times, Monotone, NoOverflow, LastTime;
    var calls := Bursts(window, max, n);
    BurstsMonotone(window, max, n);
    BurstsReach(window, max, n);
    SameAnswers(window, max, calls);
  }

  lemma BurstsReach(window: Duration, max: nat, n: nat)
    requires ValidConfig(window, max) && 1 < window && n > 0
    ensures var calls := Bursts(window, max, n);
      Admitted(calls, RunKept(window, max, calls).1, "k", window - 1, window - 1 + n * window) == (n + 1) * max - 1
  {
    hide RunKept, Admitted, Bursts, Times;
    TimesStep(n, window);
    TimesAre(n, window, max);
    BurstsAdmitted(window, max, n, window - 1 + n * window);
  }

  lemma TimesAre(n: nat, window: int, max: int)
    ensures Times(n, window) == n * window && Times(n, max) == n * max && (n + 1) * max == n * max + max
  {
  }

  lemma SameAnswers(window: Duration, max: int, calls: seq<Call>)
    requires ValidConfig(window, max) && NoOverflow(window) && Monotone(calls)
    ensures Run(window, max, calls).1 == RunKept(window, max, calls).1
  {
    PruningUnobservable(window, max);
    hide *;
  }

  // ----- Windows -----

  /** Call `i` of a run opens a window for its key. */
  predicate OpensAt(window: Duration, max: int, calls: seq<Call>, i: nat)
    requires i < |calls|
  {
    Opens(Lookup(Run(window, max, calls[..i]).0, calls[i].key), window, calls[i].now)
  }

  /** After a key's window opened at call `i`, its window never starts earlier. */
  lemma {:induction false} StartsAfter(window: Duration, max: int, calls: seq<Call>, i: nat)
    requires ValidConfig(window, max) && Monotone(calls) && i < |calls|
    requires Opens(Lookup(RunKept(window, max, calls[..i]).0, calls[i].key), window, calls[i].now)
    ensures var after := RunKept(window, max, calls).0;
      calls[i].key in after && calls[i].now <= after[calls[i].key].windowStart
  {
    if i < |calls| - 1 {
      assert calls[..|calls| - 1][..i] == calls[..i];
      StartsAfter(window, max, calls[..|calls| - 1], i);
    }
  }

  /** Whether a call opens a window does not depend on pruning. */
  lemma OpensEitherWay(window: Duration, max: int, calls: seq<Call>, i: nat)
    requires ValidConfig(window, max) && Monotone(calls) && NoOverflow(window) && i < |calls|
    ensures OpensAt(window, max, calls, i)
      == Opens(Lookup(RunKept(window, max, calls[..i]).0, calls[i].key), window, calls[i].now)
  {
    PrunedRun(window, max, calls[..i], calls[i].now);
    EntriesInRange(window, max, calls[..i]);
    hide Run, RunKept, Monotone;
  }

  /** Windows of one key open at least one window apart. */
  lemma WindowsApart(window: Duration, max: int, calls: seq<Call>, i: nat, j: nat)
    requires ValidConfig(window, max) && Monotone(calls) && NoOverflow(window)
    requires i < j < |calls| && calls[i].key == calls[j].key
    requires OpensAt(window, max, calls, i) && OpensAt(window, max, calls, j)
    ensures calls[j].now - calls[i].now >= window
  {
    OpensEitherWay(window, max, calls, i);
    OpensEitherWay(window, max, calls, j);
    EntriesInRange(window, max, calls[..j]);
    hide Run, RunKept, OpensAt;
    assert calls[..j][..i] == calls[..i];
    StartsAfter(window, max, calls[..j], i);
  }

  // ----- The guard of the middleware -----

  datatype Verdict = Next | TooManyRequests

  /** A disabled limiter, or one without a positive quota, lets everything through and keeps no entries. */
  method Middleware(limiter: FixedWindowLimiter, enabled: bool, requestsPerWindow: int, clientIP: string,
        fullPath: string, now: Time)
    returns (v: Verdict)
    modifies limiter
    ensures !enabled || requestsPerWindow <= 0 ==> v == Next && limiter.entries == old(limiter.entries)
    ensures enabled && requestsPerWindow > 0 ==>
      var call := Call(clientIP + "|" + fullPath, now);
      (limiter.entries, v == Next) == Allowed(old(limiter.entries), limiter.window, requestsPerWindow, call)
  {
    if !enabled || requestsPerWindow <= 0 {
      return Next;
    }
    var ok := limiter.Allow(clientIP + "|" + fullPath, requestsPerWindow, now);
    if !ok {
      return TooManyRequests;
    }
    return Next;
  }
}
