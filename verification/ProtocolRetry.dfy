/** The consumer's steps during a flush, with no one else moving, are the retry loop. */
module ProtocolRetry {
  import opened AuditEvent
  import opened Clock
  import opened Recording
  import opened Repository
  import opened Store
  import opened Protocol

  /** The steps of one attempt: whether each transaction commits is up to the world. */
  ghost function AttemptSteps(cfg: Config, q: Queue, a: Attempt): seq<ConsumerAction> {
    if OneTransaction(cfg, q) then
      if a.firstCommits then [AttemptSucceeds(a.now)] else [AttemptFails]
    else if q.events != [] && !a.firstCommits then [AttemptFails]
    else if !a.secondCommits then [AttemptSucceeds(a.now), HalfFails]
    else [AttemptSucceeds(a.now), HalfSucceeds(a.now)]
  }

  /** What consumer steps in a row lead to, if each can be made. */
  ghost function After(cfg: Config, s: State, actions: seq<ConsumerAction>): Option<State> {
    if actions == [] then Some(s)
    else
      match After(cfg, s, actions[..|actions| - 1])
      case None => None
      case Some(before) =>
        var last := actions[|actions| - 1];
        if ConsumerEnabled(cfg, before, last) then Some(ConsumerApply(cfg, before, last)) else None
  }

  lemma AfterTwo(cfg: Config, s: State, a: ConsumerAction, b: ConsumerAction)
    requires ConsumerEnabled(cfg, s, a) && ConsumerEnabled(cfg, ConsumerApply(cfg, s, a), b)
    ensures After(cfg, s, [a]) == Some(ConsumerApply(cfg, s, a))
    ensures After(cfg, s, [a, b]) == Some(ConsumerApply(cfg, ConsumerApply(cfg, s, a), b))
  {
    hide ConsumerEnabled, ConsumerApply;
    assert [a][..0] == [] && [a, b][..1] == [a];
  }

  lemma AfterOne(cfg: Config, s: State, a: ConsumerAction)
    requires ConsumerEnabled(cfg, s, a)
    ensures After(cfg, s, [a]) == Some(ConsumerApply(cfg, s, a))
  {
    hide ConsumerEnabled, ConsumerApply;
    assert [a][..0] == [];
  }

  lemma {:induction false} AfterAppend(cfg: Config, s: State, a: seq<ConsumerAction>, b: seq<ConsumerAction>)
    requires After(cfg, s, a).Some?
    ensures After(cfg, s, a + b) == After(cfg, After(cfg, s, a).value, b)
  {
    hide ConsumerEnabled, ConsumerApply;
    if b == [] {
      assert a + b == a;
    } else {
      AfterAppend(cfg, s, a, b[..|b| - 1]);
      assert (a + b)[..|a + b| - 1] == a + b[..|b| - 1];
    }
  }

  /** Where a flush for `cause` is after an attempt with this outcome. */
  ghost predicate Attempted(cfg: Config, s: State, s': State, tables: Tables, ok: bool)
    requires s.pc.Attempting?
  {
    var (k, cause) := (s.pc.attempt, s.pc.cause);
    && s'.db.tables == tables && s'.queue == (if ok then Acknowledged(s.queue) else s.queue)
    && s'.stats.retryTotal == s.stats.retryTotal + (if ok then 0 else 1)
    && s'.pc == if ok || k == cfg.retryMaxAttempts then Finish(s, cause, ok).pc else Waiting(cause, k)
  }

  lemma OneTransactionAttempt(cfg: Config, s: State, random: nat -> string, a: Attempt)
    requires OneTransaction(cfg, s.queue) && s.pc.Attempting? && Pending(s.queue) > 0 && AllPrepared(s.queue.events)
    ensures var (tables, ok) := FlushOnceResult(cfg.atomic, s.db.tables, s.queue.events, s.queue.rollups, random, a);
      var s' := After(cfg, s, AttemptSteps(cfg, s.queue, a));
      s'.Some? && Attempted(cfg, s, s'.value, tables, ok)
  {
    hide AllPrepared, RowsOf, Rows, Batched, After, Acknowledged;
    RowsOfPrepared(s.queue.events, random, a.now);
    if a.firstCommits {
      AfterOne(cfg, s, AttemptSucceeds(a.now));
      assert ConsumerApply(cfg, s, AttemptSucceeds(a.now)).db.tables
        == Batched(s.db.tables, Rows(s.queue.events), s.queue.rollups, a.now);
    } else {
      AfterOne(cfg, s, AttemptFails);
    }
  }

  lemma FirstHalfFails(cfg: Config, s: State, random: nat -> string, a: Attempt)
    requires !OneTransaction(cfg, s.queue) && s.pc.Attempting? && s.queue.events != [] && !a.firstCommits
    ensures var (tables, ok) := FlushOnceResult(false, s.db.tables, s.queue.events, s.queue.rollups, random, a);
      var s' := After(cfg, s, AttemptSteps(cfg, s.queue, a));
      s'.Some? && Attempted(cfg, s, s'.value, tables, ok)
  {
    hide RowsOf, InsertAll, After, Batched;
    AfterOne(cfg, s, AttemptFails);
  }

  lemma BothHalves(cfg: Config, s: State, random: nat -> string, a: Attempt)
    requires !OneTransaction(cfg, s.queue) && s.pc.Attempting? && AllPrepared(s.queue.events)
    requires s.queue.events == [] || a.firstCommits
    ensures var (tables, ok) := FlushOnceResult(false, s.db.tables, s.queue.events, s.queue.rollups, random, a);
      var s' := After(cfg, s, AttemptSteps(cfg, s.queue, a));
      s'.Some? && Attempted(cfg, s, s'.value, tables, ok)
  {
    hide AllPrepared, RowsOf, Rows, InsertAll, MergedInto, After, Acknowledged;
    RowsOfPrepared(s.queue.events, random, a.now);
    var half := ConsumerApply(cfg, s, AttemptSucceeds(a.now));
    assert half.pc == HalfDone(s.pc.cause, s.pc.attempt) && half.queue == s.queue && half.stats == s.stats;
    assert half.db.tables == s.db.tables.(events := InsertAll(s.db.tables.events, Rows(s.queue.events)));
    if !a.secondCommits {
      AfterTwo(cfg, s, AttemptSucceeds(a.now), HalfFails);
    } else {
      AfterTwo(cfg, s, AttemptSucceeds(a.now), HalfSucceeds(a.now));
    }
  }

  /** The steps of an attempt can be made, and do what an attempt on the buffers does. */
  lemma AttemptIsFlushOnce(cfg: Config, s: State, random: nat -> string, a: Attempt)
    requires s.pc.Attempting? && Pending(s.queue) > 0 && AllPrepared(s.queue.events)
    ensures var (tables, ok) := FlushOnceResult(cfg.atomic, s.db.tables, s.queue.events, s.queue.rollups, random, a);
      var s' := After(cfg, s, AttemptSteps(cfg, s.queue, a));
      s'.Some? && Attempted(cfg, s, s'.value, tables, ok)
  {
    hide FlushOnceResult, After, AttemptSteps, Attempted, AllPrepared;
    if OneTransaction(cfg, s.queue) {
      OneTransactionAttempt(cfg, s, random, a);
    } else if s.queue.events != [] && !a.firstCommits {
      FirstHalfFails(cfg, s, random, a);
    } else {
      BothHalves(cfg, s, random, a);
    }
  }

  /** The steps of the attempts from the one the consumer is at, and of the waits between them. */
  ghost function FlushSteps(cfg: Config, q: Queue, t: Tables, random: nat -> string, world: nat -> Attempt,
        attempt: nat): seq<ConsumerAction>
    decreases cfg.retryMaxAttempts - attempt
  {
    var (t', ok) := FlushOnceResult(cfg.atomic, t, q.events, q.rollups, random, world(attempt));
    AttemptSteps(cfg, q, world(attempt))
    + if ok || attempt >= cfg.retryMaxAttempts then []
      else if world(attempt).interrupted then [WaitInterrupted]
      else [RetryAfterWait] + FlushSteps(cfg, q, t', random, world, attempt + 1)
  }

  lemma WaitEnds(cfg: Config, s: State)
    requires s.pc.Waiting?
    ensures After(cfg, s, [RetryAfterWait]) == Some(s.(pc := Attempting(s.pc.cause, s.pc.attempt + 1)))
    ensures s.pc.cause.Closing? ==> After(cfg, s, [WaitInterrupted]) == Some(Finish(s, s.pc.cause, false))
  {
    AfterOne(cfg, s, RetryAfterWait);
    if s.pc.cause.Closing? { AfterOne(cfg, s, WaitInterrupted); }
    hide After;
  }

  /**
   Whatever the world does, the consumer can make the steps of the loop, and they end
   with its tables, its result, its count of failures, and the buffers as it leaves them.
   Only the flush for a Close has a context that can end while it waits.
   */
  lemma {:induction false} StepsAreRetry(cfg: Config, loop: FlushConfig, s: State, random: nat -> string,
        world: nat -> Attempt, backoff: Duration)
    requires s.pc.Attempting? && 0 < s.pc.attempt <= cfg.retryMaxAttempts == loop.retryMaxAttempts
    requires Pending(s.queue) > 0 && AllPrepared(s.queue.events)
    requires s.pc.cause.Closing? || forall k :: !world(k).interrupted
    ensures var q := s.queue;
      var r := Retry(loop, cfg.atomic, s.db.tables, q.events, q.rollups, random, world, s.pc.attempt, backoff);
      var s' := After(cfg, s, FlushSteps(cfg, q, s.db.tables, random, world, s.pc.attempt));
      && s'.Some? && s'.value.db.tables == r.tables
      && s'.value.pc == Finish(s, s.pc.cause, r.ok).pc
      && s'.value.queue == (if r.ok then Acknowledged(q) else q)
      && s'.value.stats.retryTotal == s.stats.retryTotal + r.failures
    decreases cfg.retryMaxAttempts - s.pc.attempt
  {
    hide After, FlushOnceResult, AttemptSteps, AllPrepared, Retry, NextBackoff, Acknowledged;
    var q, k, t := s.queue, s.pc.attempt, s.db.tables;
    AttemptIsFlushOnce(cfg, s, random, world(k));
    RetryOnce(loop, cfg.atomic, t, q.events, q.rollups, random, world, k, backoff);
    var (t', ok) := FlushOnceResult(cfg.atomic, t, q.events, q.rollups, random, world(k));
    var steps := AttemptSteps(cfg, q, world(k));
    var s1 := After(cfg, s, steps).value;
    if ok || k == cfg.retryMaxAttempts {
      assert FlushSteps(cfg, q, t, random, world, k) == steps;
    } else if world(k).interrupted {
      AfterAppend(cfg, s, steps, [WaitInterrupted]);
      WaitEnds(cfg, s1);
    } else {
      var rest := FlushSteps(cfg, q, t', random, world, k + 1);
      AfterAppend(cfg, s, steps, [RetryAfterWait] + rest);
      WaitEnds(cfg, s1);
      AfterAppend(cfg, s1, [RetryAfterWait], rest);
      var s2 := s1.(pc := Attempting(s.pc.cause, k + 1));
      StepsAreRetry(cfg, loop, s2, random, world, NextBackoff(backoff, loop.maxBackoff));
    }
  }
}
