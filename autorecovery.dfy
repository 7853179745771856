/**
 * `auto_recover_if_needed` and the order of events in `fusion_cycle`, shared by
 * all six runtimes. A cycle persists its snapshot first and only then asks
 * whether the integrity score is high enough; if not, it logs a warning,
 * sleeps ten minutes and re-enters `fusion_cycle` recursively, with no limit on
 * the number of retries. Network results differ from attempt to attempt, so the
 * model takes the attempts as a finite sequence supplied by the environment and
 * builds the trace of events they produce.
 */
module Autorecovery {

  /** DATA_INTEGRITY_THRESHOLD, the same in every runtime. */
  const IntegrityThreshold: real := 0.5

  /** The `time.sleep(600)` before a retry. */
  const RetryBackoffSeconds: nat := 600

  /** CYCLE_INTERVAL_HOURS, named in the "Sleeping for ..." line. */
  const CycleIntervalHours: nat := 4

  /** The test in `auto_recover_if_needed`. */
  predicate NeedsRetry(score: real) {
    score < IntegrityThreshold
  }

  /** One execution of `fusion_cycle` up to the retry decision. */
  datatype Attempt<S> = Attempt(snapshot: S, integrity: real)

  datatype Event<S> =
    | Saved(snapshot: S, integrity: real)  // snapshot file, summary and dashboard written
    | LowIntegrity(score: real)            // the "Data integrity low" warning
    | Backoff(seconds: nat)                // the sleep before re-entering fusion_cycle
    | SleepNotice(hours: nat)              // "Sleeping for ... hours", logged as a fusion_cycle call returns

  /** The events produced, and whether the outermost `fusion_cycle` call returned. */
  datatype Trace<S> = Trace(events: seq<Event<S>>, finished: bool)

  /**
   * The events of `fusion_cycle` when its successive executions see `attempts`.
   * A nested call logs its "Sleeping" line when it returns, and then so does
   * every enclosing call. When the supplied attempts run out while the last
   * one still needs a retry, the trace stops there, unfinished.
   */
  function Run<S>(attempts: seq<Attempt<S>>): Trace<S>
    decreases |attempts|
  {
    if attempts == [] then Trace([], false)
    else
      var a := attempts[0];
      var saved := Saved(a.snapshot, a.integrity);
      if !NeedsRetry(a.integrity) then
        Trace([saved, SleepNotice(CycleIntervalHours)], true)
      else
        var inner := Run(attempts[1..]);
        var closing := if inner.finished then [SleepNotice(CycleIntervalHours)] else [];
        Trace([saved, LowIntegrity(a.integrity), Backoff(RetryBackoffSeconds)] + inner.events + closing,
              inner.finished)
  }

  /** The number of attempts Run goes through: up to and including the first trusted one. */
  function Consumed<S>(attempts: seq<Attempt<S>>): (c: nat)
    ensures c <= |attempts|
    ensures forall i :: 0 <= i < c - 1 ==> NeedsRetry(attempts[i].integrity)
    ensures c < |attempts| ==> 0 < c && !NeedsRetry(attempts[c - 1].integrity)
    ensures attempts != [] ==> 0 < c
    decreases |attempts|
  {
    if attempts == [] then 0
    else if !NeedsRetry(attempts[0].integrity) then 1
    else 1 + Consumed(attempts[1..])
  }

  /** The snapshots written, in order. */
  function Saves<S>(events: seq<Event<S>>): seq<Attempt<S>> {
    if events == [] then []
    else (if events[0].Saved? then [Attempt(events[0].snapshot, events[0].integrity)] else [])
         + Saves(events[1..])
  }

  function SleepNotices<S>(events: seq<Event<S>>): nat {
    if events == [] then 0 else (if events[0].SleepNotice? then 1 else 0) + SleepNotices(events[1..])
  }

  function Backoffs<S>(events: seq<Event<S>>): nat {
    if events == [] then 0 else (if events[0].Backoff? then 1 else 0) + Backoffs(events[1..])
  }

  lemma {:induction false} CountsAppend<S>(e1: seq<Event<S>>, e2: seq<Event<S>>)
    ensures Saves(e1 + e2) == Saves(e1) + Saves(e2)
    ensures SleepNotices(e1 + e2) == SleepNotices(e1) + SleepNotices(e2)
    ensures Backoffs(e1 + e2) == Backoffs(e1) + Backoffs(e2)
  {
    if e1 == [] {
      assert e1 + e2 == e2;
    } else {
      assert (e1 + e2)[0] == e1[0];
      assert (e1 + e2)[1..] == e1[1..] + e2;
      CountsAppend(e1[1..], e2);
    }
  }

  lemma CountsOne<S>(e: Event<S>)
    ensures Saves([e]) == if e.Saved? then [Attempt(e.snapshot, e.integrity)] else []
    ensures SleepNotices([e]) == if e.SleepNotice? then 1 else 0
    ensures Backoffs([e]) == if e.Backoff? then 1 else 0
  {
    assert [e][1..] == [];
  }

  lemma CountsTwo<S>(e1: Event<S>, e2: Event<S>)
    ensures Saves([e1, e2]) == Saves([e1]) + Saves([e2])
    ensures SleepNotices([e1, e2]) == SleepNotices([e1]) + SleepNotices([e2])
    ensures Backoffs([e1, e2]) == Backoffs([e1]) + Backoffs([e2])
  {
    assert [e1, e2] == [e1] + [e2];
    CountsAppend([e1], [e2]);
  }

  lemma CountsThree<S>(e1: Event<S>, e2: Event<S>, e3: Event<S>)
    ensures Saves([e1, e2, e3]) == Saves([e1]) + Saves([e2]) + Saves([e3])
    ensures SleepNotices([e1, e2, e3]) == SleepNotices([e1]) + SleepNotices([e2]) + SleepNotices([e3])
    ensures Backoffs([e1, e2, e3]) == Backoffs([e1]) + Backoffs([e2]) + Backoffs([e3])
  {
    assert [e1, e2, e3] == [e1, e2] + [e3];
    CountsAppend([e1, e2], [e3]);
    CountsTwo(e1, e2);
  }

  /** Every attempt Run goes through is persisted, in order, and nothing else is. */
  lemma {:induction false} RunPersistsEveryAttempt<S>(attempts: seq<Attempt<S>>)
    ensures Saves(Run(attempts).events) == attempts[..Consumed(attempts)]
    decreases |attempts|
  {
    if attempts != [] {
      var a := attempts[0];
      if NeedsRetry(a.integrity) {
        var inner := Run(attempts[1..]);
        var closing: seq<Event<S>> := if inner.finished then [SleepNotice(CycleIntervalHours)] else [];
        var head: seq<Event<S>> := [Saved(a.snapshot, a.integrity), LowIntegrity(a.integrity), Backoff(RetryBackoffSeconds)];
        RunPersistsEveryAttempt(attempts[1..]);
        CountsAppend(head, inner.events);
        CountsAppend(head + inner.events, closing);
        CountsThree(head[0], head[1], head[2]);
        CountsOne(head[0]);
        CountsOne(head[1]);
        CountsOne(head[2]);
        if inner.finished { CountsOne(closing[0]); }
        assert attempts[..Consumed(attempts)] == [a] + attempts[1..][..Consumed(attempts[1..])];
      } else {
        var ev: seq<Event<S>> := [Saved(a.snapshot, a.integrity), SleepNotice(CycleIntervalHours)];
        CountsTwo(ev[0], ev[1]);
        CountsOne(ev[0]);
        CountsOne(ev[1]);
      }
    }
  }

  /** The outermost call returns exactly when some supplied attempt reaches the threshold. */
  lemma {:induction false} RunFinishesIffTrusted<S>(attempts: seq<Attempt<S>>)
    ensures Run(attempts).finished <==> exists i :: 0 <= i < |attempts| && !NeedsRetry(attempts[i].integrity)
    decreases |attempts|
  {
    if attempts != [] && NeedsRetry(attempts[0].integrity) {
      RunFinishesIffTrusted(attempts[1..]);
      if exists i :: 0 <= i < |attempts| && !NeedsRetry(attempts[i].integrity) {
        var i :| 0 <= i < |attempts| && !NeedsRetry(attempts[i].integrity);
        assert attempts[1..][i - 1] == attempts[i];
      }
      if exists j :: 0 <= j < |attempts[1..]| && !NeedsRetry(attempts[1..][j].integrity) {
        var j :| 0 <= j < |attempts[1..]| && !NeedsRetry(attempts[1..][j].integrity);
        assert attempts[j + 1] == attempts[1..][j];
      }
    }
  }

  /**
   * Each retry costs one backoff, and because the retry is a nested call,
   * a finished trace logs the "Sleeping" line once per attempt.
   */
  lemma {:induction false} RunCountsBackoffsAndNotices<S>(attempts: seq<Attempt<S>>)
    ensures var t := Run(attempts);
      && Backoffs(t.events) == (if t.finished then Consumed(attempts) - 1 else Consumed(attempts))
      && SleepNotices(t.events) == (if t.finished then Consumed(attempts) else 0)
    decreases |attempts|
  {
    if attempts != [] {
      var a := attempts[0];
      if NeedsRetry(a.integrity) {
        var inner := Run(attempts[1..]);
        var closing: seq<Event<S>> := if inner.finished then [SleepNotice(CycleIntervalHours)] else [];
        var head: seq<Event<S>> := [Saved(a.snapshot, a.integrity), LowIntegrity(a.integrity), Backoff(RetryBackoffSeconds)];
        RunCountsBackoffsAndNotices(attempts[1..]);
        CountsAppend(head, inner.events);
        CountsAppend(head + inner.events, closing);
        CountsThree(head[0], head[1], head[2]);
        CountsOne(head[0]);
        CountsOne(head[1]);
        CountsOne(head[2]);
        if inner.finished { CountsOne(closing[0]); }
        assert inner.finished ==> attempts[1..] != [];
      } else {
        var ev: seq<Event<S>> := [Saved(a.snapshot, a.integrity), SleepNotice(CycleIntervalHours)];
        CountsTwo(ev[0], ev[1]);
        CountsOne(ev[0]);
        CountsOne(ev[1]);
      }
    }
  }

  /** Right after each snapshot is written comes its decision: the warning if the score is low, else the closing line. */
  ghost predicate DecisionFollowsSave<S>(events: seq<Event<S>>) {
    forall i :: 0 <= i < |events| && events[i].Saved? ==>
      i + 1 < |events| &&
      events[i + 1] == (if NeedsRetry(events[i].integrity) then LowIntegrity(events[i].integrity)
                        else SleepNotice(CycleIntervalHours))
  }

  /** A warning is always preceded by the snapshot it is about, and followed by the backoff. */
  ghost predicate WarningAfterSave<S>(events: seq<Event<S>>) {
    forall i :: 0 <= i < |events| && events[i].LowIntegrity? ==>
      0 < i && events[i - 1].Saved? && events[i - 1].integrity == events[i].score && NeedsRetry(events[i].score) &&
      i + 1 < |events| && events[i + 1] == Backoff(RetryBackoffSeconds)
  }

  /** Every attempt is persisted before its retry decision is taken. */
  lemma {:induction false} RunSavesBeforeDeciding<S>(attempts: seq<Attempt<S>>)
    ensures DecisionFollowsSave(Run(attempts).events)
    ensures WarningAfterSave(Run(attempts).events)
    decreases |attempts|
  {
    if attempts != [] {
      var a := attempts[0];
      if NeedsRetry(a.integrity) {
        var inner := Run(attempts[1..]);
        var closing: seq<Event<S>> := if inner.finished then [SleepNotice(CycleIntervalHours)] else [];
        var head: seq<Event<S>> := [Saved(a.snapshot, a.integrity), LowIntegrity(a.integrity), Backoff(RetryBackoffSeconds)];
        RunSavesBeforeDeciding(attempts[1..]);
        var ev := head + inner.events + closing;
        assert ev == Run(attempts).events;
        forall i | 0 <= i < |ev| && ev[i].Saved?
          ensures i + 1 < |ev|
          ensures ev[i + 1] == (if NeedsRetry(ev[i].integrity) then LowIntegrity(ev[i].integrity)
                                else SleepNotice(CycleIntervalHours))
        {
          if i >= 3 {
            assert ev[i] == inner.events[i - 3];
            assert ev[i + 1] == inner.events[i - 2];
          }
        }
        forall i | 0 <= i < |ev| && ev[i].LowIntegrity?
          ensures 0 < i && ev[i - 1].Saved? && ev[i - 1].integrity == ev[i].score && NeedsRetry(ev[i].score)
          ensures i + 1 < |ev| && ev[i + 1] == Backoff(RetryBackoffSeconds)
        {
          if i >= 3 {
            assert i - 3 < |inner.events|;
            assert ev[i] == inner.events[i - 3];
            assert ev[i + 1] == inner.events[i - 2];
            if i > 3 {
              assert ev[i - 1] == inner.events[i - 4];
            }
          }
        }
      }
    }
  }

  /**
   * There is no retry ceiling: when every supplied attempt is below the
   * threshold, every one of them is persisted and the cycle never returns.
   */
  lemma NoRetryCeiling<S>(attempts: seq<Attempt<S>>)
    requires forall i :: 0 <= i < |attempts| ==> NeedsRetry(attempts[i].integrity)
    ensures Saves(Run(attempts).events) == attempts
    ensures !Run(attempts).finished
    ensures Backoffs(Run(attempts).events) == |attempts|
  {
    RunPersistsEveryAttempt(attempts);
    RunFinishesIffTrusted(attempts);
    RunCountsBackoffsAndNotices(attempts);
    assert attempts[..|attempts|] == attempts;
  }
}
