/** Runs fail exactly on fatal answers, and what they still do then. */
module SwapVerdicts {
  import opened Wrappers
  import opened SwapCalls
  import opened SwapPlan
  import opened SwapFailure
  import opened SwapTells
  import opened SwapJudged

  lemma FailedStays(p: Params, at: Point, c: Call)
    requires HasFailed(at) && Asks(p, at, c)
    ensures HasFailed(Step(p, at, c)) && CleanupCall(c)
  {
  }

  lemma FollowsLast(p: Params, log: Log)
    requires Follows(p, log) && log != []
    ensures Follows(p, log[..|log| - 1]) && Asks(p, Where(p, log[..|log| - 1]), log[|log| - 1])
    ensures Where(p, log) == Step(p, Where(p, log[..|log| - 1]), log[|log| - 1])
  {
    var front := log[..|log| - 1];
    assert At(|log| - 1);
    forall n: nat | At(n) && n < |front| ensures Asks(p, Where(p, front[..n]), front[n]) {
      assert front[..n] == log[..n];
    }
  }

  /** Where a run is, its log tells, as long as it has not failed. */
  lemma {:induction false} LogTells(p: Params, log: Log)
    requires Follows(p, log)
    ensures Tells(p, log, Where(p, log))
    ensures log != [] && !HasFailed(Where(p, log[..|log| - 1])) ==>
      Judged(p, log[..|log| - 1], Where(p, log[..|log| - 1]), log[|log| - 1])
    decreases |log|
  {
    hide Asks, Step, Follows, Judged, Tells, Fatal;
    if log == [] {
      StartTells(p);
    } else {
      var front, c := log[..|log| - 1], log[|log| - 1];
      FollowsLast(p, log);
      LogTells(p, front);
      assert front + [c] == log;
      if HasFailed(Where(p, front)) {
        FailedStays(p, Where(p, front), c);
        FailedTells(p, log, Where(p, log));
      } else {
        StepJudged(p, front, Where(p, front), c);
        JudgedTells(p, front, Where(p, front), c);
      }
    }
  }

  lemma StartTells(p: Params)
    ensures Tells(p, [], StartPoint(p)) && (HasFailed(StartPoint(p)) <==> BadTerms(p))
  {
  }

  lemma FailedTells(p: Params, log: Log, at: Point)
    requires HasFailed(at)
    ensures Tells(p, log, at)
  {
  }

  lemma JudgedTells(p: Params, log: Log, at: Point, c: Call)
    requires Judged(p, log, at, c)
    ensures Tells(p, log + [c], Step(p, at, c)) && (HasFailed(Step(p, at, c)) <==> Fatal(p, log, c))
    ensures HasFailed(Step(p, at, c)) ==> Step(p, at, c) == FailPoint(p, log)
  {
    hide Tells, Fatal, Step, FailPoint;
  }

  /** A run has failed exactly when its request was refused at once or one of its answers was
      fatal. Either side is a statement of its own: one follows the plan, the other reads the log. */
  lemma {:induction false} FailsIff(p: Params, log: Log)
    requires Follows(p, log)
    ensures HasFailed(Where(p, log)) <==> HasFatal(p, log)
    decreases |log|
  {
    hide Asks, Step, Follows, Judged, Tells, Fatal;
    if log == [] {
      StartTells(p);
    } else {
      var front, c := log[..|log| - 1], log[|log| - 1];
      FollowsLast(p, log);
      FailsIff(p, front);
      FatalGrows(p, front, c);
      assert front + [c] == log;
      if HasFailed(Where(p, front)) {
        FailedStays(p, Where(p, front), c);
      } else {
        LogTells(p, log);
        JudgedTells(p, front, Where(p, front), c);
      }
    }
  }

  lemma FatalGrows(p: Params, log: Log, c: Call)
    ensures HasFatal(p, log + [c]) <==> HasFatal(p, log) || Fatal(p, log, c)
  {
    hide Fatal;
    var next := log + [c];
    assert next[..|log|] == log && next[|log|] == c;
    forall n: nat | n < |log| ensures next[..n] == log[..n] && next[n] == log[n] {
    }
    if HasFatal(p, log) && !BadTerms(p) {
      var n: nat :| n < |log| && Fatal(p, log[..n], log[n]);
      assert Fatal(p, next[..n], next[n]);
    }
    if HasFatal(p, next) && !BadTerms(p) {
      var n: nat :| n < |next| && Fatal(p, next[..n], next[n]);
      if n < |log| {
        assert Fatal(p, log[..n], log[n]);
      }
    }
  }

  /** A run that failed did so on exactly one answer, `log[n]`: up to it the run had not failed, it was
      fatal there, and from it on the run only looks at the hold and cancels it. */
  lemma {:induction false} Culprit(p: Params, log: Log) returns (n: nat)
    requires Follows(p, log) && HasFailed(Where(p, log)) && StartPoint(p) == Loading
    ensures n < |log|
    ensures forall m: nat {:trigger log[..m]} :: m <= |log| ==> (HasFailed(Where(p, log[..m])) <==> n < m)
    ensures forall m: nat :: n < m < |log| ==> CleanupCall(log[m])
    ensures Fatal(p, log[..n], log[n]) && Where(p, log[..n + 1]) == FailPoint(p, log[..n])
    decreases |log|
  {
    hide Asks, Step, Follows, CleanupCall, Fatal, Judged, FailPoint;
    var front := log[..|log| - 1];
    FollowsLast(p, log);
    assert forall m: nat {:trigger log[..m]} :: m < |log| ==> log[..m] == front[..m];
    assert log[..|log|] == log;
    if HasFailed(Where(p, front)) {
      n := Culprit(p, front);
      FailedStays(p, Where(p, front), log[|log| - 1]);
      forall m: nat | n < m < |log| ensures CleanupCall(log[m]) {
        if m < |front| {
          assert CleanupCall(front[m]);
        }
      }
    } else {
      n := |front|;
      LogTells(p, log);
      JudgedTells(p, front, Where(p, front), log[n]);
      forall m: nat | m <= |front| ensures !HasFailed(Where(p, log[..m])) {
        NotFailedBefore(p, front, m);
      }
    }
  }

  lemma CallAt(p: Params, log: Log, m: nat)
    requires Follows(p, log) && m < |log|
    ensures Asks(p, Where(p, log[..m]), log[m])
    ensures Where(p, log[..m + 1]) == Step(p, Where(p, log[..m]), log[m])
  {
    hide Asks, Step;
    assert At(m);
    assert log[..m + 1][..m] == log[..m];
  }

  /** Nothing follows the end of a run. */
  lemma StoppedEnds(p: Params, log: Log, m: nat)
    requires Follows(p, log) && m <= |log| && Where(p, log[..m]) == Stopped
    ensures m == |log|
  {
    hide Follows, Where, Step;
    if m < |log| {
      CallAt(p, log, m);
    }
  }

  /** Exactly when a failed run looks at the hold again and cancels it if it was accepted: it had
      started, and nothing it may have broadcast was stored. Otherwise the fatal answer is its last. */
  lemma CleansUpIff(p: Params, log: Log) returns (n: nat)
    requires Follows(p, log) && Where(p, log) == Stopped && StartPoint(p) == Loading
    ensures n < |log| && Fatal(p, log[..n], log[n])
    ensures var before, after := log[..n], log[n + 1..];
      if Started(p, before) && !Exposed(p, before) && RecordIn(before).Some?
      then CleanedUp(after, RecordIn(before).value) else after == []
  {
    hide Follows, Where, Fatal, Started, Exposed, RecordIn, Step, Asks;
    assert log[..|log|] == log;
    n := Culprit(p, log);
    if Started(p, log[..n]) && !Exposed(p, log[..n]) && RecordIn(log[..n]).Some? {
      CleaningEnds(p, log, n + 1, RecordIn(log[..n]).value);
    } else {
      StoppedEnds(p, log, n + 1);
    }
  }

  lemma CleaningEnds(p: Params, log: Log, m: nat, r: Record)
    requires Follows(p, log) && Where(p, log) == Stopped
    requires m <= |log| && Where(p, log[..m]) == CleaningUp(r)
    ensures CleanedUp(log[m..], r)
  {
    hide Follows, Where, StepTask, TaskCall;
    assert log[..|log|] == log;
    CallAt(p, log, m);
    if Where(p, log[..m + 1]) == Stopped {
      StoppedEnds(p, log, m + 1);
    } else {
      CallAt(p, log, m + 1);
      StoppedEnds(p, log, m + 2);
    }
  }

  /** What does not end a run: a transaction that is not visible at the first look, or a file that
      already holds what the run was about to store. If a missing transaction ended it, the run had
      confirmed it successfully right before, and looked for it right before that. */
  lemma SecondChance(p: Params, log: Log) returns (n: nat)
    requires Follows(p, log) && HasFailed(Where(p, log)) && StartPoint(p) == Loading
    ensures n < |log| && !HasFailed(Where(p, log[..n])) && HasFailed(Where(p, log[..n + 1]))
    ensures (log[n].ObserveFunding? && log[n].funding.None?) || (log[n].ObserveSpend? && log[n].spend.None?) ==>
      n >= 2 && log[n - 1] == Confirm(true) && log[n - 2] == log[n]
    ensures log[n].CreateOutbox? ==> log[n].created == CreateFailed
    ensures log[n].CreateRecovery? ==> log[n].created == CreateFailed
    ensures n >= 1 && log[n - 1].CreateOutbox? && log[n].ReadOutbox? ==> log[n].content != Got(log[n - 1].outbox)
    ensures n >= 1 && log[n - 1].CreateRecovery? && log[n].ReadRecovery? ==> log[n].found != Got(log[n - 1].record)
  {
    n := Culprit(p, log);
    FatalMeans(p, log[..n], log[n]);
    assert n >= 1 ==> log[..n][n - 1] == log[n - 1];
    assert n >= 2 ==> log[..n][n - 2] == log[n - 2];
  }

  lemma FatalMeans(p: Params, log: Log, c: Call)
    requires Fatal(p, log, c)
    ensures (c.ObserveFunding? && c.funding.None?) || (c.ObserveSpend? && c.spend.None?) ==>
      |log| >= 2 && log[|log| - 1] == Confirm(true) && log[|log| - 2] == c
    ensures c.CreateOutbox? || c.CreateRecovery? ==> c.created == CreateFailed
    ensures log != [] && log[|log| - 1].CreateOutbox? && c.ReadOutbox? ==> c.content != Got(log[|log| - 1].outbox)
    ensures log != [] && log[|log| - 1].CreateRecovery? && c.ReadRecovery? ==> c.found != Got(log[|log| - 1].record)
  {
    hide Proven, IsFresh, PhaseAsked;
  }

  /** After a look that missed, a run that has not failed confirms. */
  lemma MissIsConfirmed(p: Params, log: Log)
    requires Follows(p, log) && log != [] && !HasFailed(Where(p, log))
    requires var c := log[|log| - 1];
      (c.ObserveFunding? && c.funding.None?) || (c.ObserveSpend? && c.spend.None?)
    ensures NextCall(p, Where(p, log)) == Some(Confirm(true))
  {
    hide Follows, Where, Advance;
    FollowsLast(p, log);
  }

  /** And after a confirmation it looks for the same transaction again. */
  lemma ConfirmedIsLookedFor(p: Params, log: Log)
    requires Follows(p, log) && |log| >= 2 && log[|log| - 1] == Confirm(true)
    requires var c := log[|log| - 2];
      (c.ObserveFunding? && c.funding.None?) || (c.ObserveSpend? && c.spend.None?)
    requires !HasFailed(Where(p, log))
    ensures NextCall(p, Where(p, log)) == Some(log[|log| - 2])
  {
    hide Follows, Where, Advance, HtlcVout;
    var front := log[..|log| - 1];
    FollowsLast(p, log);
    LogTells(p, front);
    assert front[|front| - 1] == log[|log| - 2];
    ConfirmLooks(p, front, Where(p, front), log[|log| - 1]);
  }

  lemma ConfirmLooks(p: Params, log: Log, at: Point, c: Call)
    requires Tells(p, log, at) && Asks(p, at, c) && c == Confirm(true) && log != []
    ensures NextCall(p, Step(p, at, c)) == Some(log[|log| - 1])
  {
    hide Ordered, Recalls, HtlcVout, Advance;
  }

  lemma {:induction false} NotFailedBefore(p: Params, log: Log, m: nat)
    requires Follows(p, log) && !HasFailed(Where(p, log)) && m <= |log|
    ensures !HasFailed(Where(p, log[..m]))
    decreases |log|
  {
    if m == |log| {
      assert log[..m] == log;
    } else {
      var front := log[..|log| - 1];
      FollowsLast(p, log);
      if HasFailed(Where(p, front)) {
        FailedStays(p, Where(p, front), log[|log| - 1]);
      }
      NotFailedBefore(p, front, m);
      assert front[..m] == log[..m];
    }
  }
}
