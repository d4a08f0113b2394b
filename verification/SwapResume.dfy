/** When a session that already has its claim outbox can be finished by a later run, and what
    the durable observer makes of refunds. */
module SwapResume {
  import opened Wrappers
  import opened Settlement
  import opened SwapCalls
  import opened SwapWorld
  import opened SwapSafety
  import opened SwapTheorems
  import opened SwapEffects
  import opened SwapExecution
  import opened SwapPlan
  import opened SwapReplay

  /** A crash between storing the claim and recording CLAIM_PENDING leaves exactly this. */
  predicate Stranded(w: World) {
    w.claim.Complete? && w.row == SwapState.OutputSettled
  }

  /** Every run that still acts started after position `n`. */
  ghost predicate OnlyLaterRuns(t: Trace, n: nat) {
    forall k :: n <= k < |t| && t[k].Act? ==> StartsAfter(t, t[k].run, n)
  }

  /** A run that started on a stored claim never read the claim path as missing. */
  lemma LaterRunSawClaim(ps: Runs, t: Trace, n: nat, m: nat)
    requires Behaviour(ps, t) && n <= m < |t| && After(t[..n]).claim.Complete?
    requires t[m].Act? && StartsAfter(t, t[m].run, n)
    ensures ReadOutbox(Claim, Missing) !in LogOf(t[..m], t[m].run)
  {
    if ReadOutbox(Claim, Missing) in LogOf(t[..m], t[m].run) {
      var k := CallPosition(t[..m], t[m].run, ReadOutbox(Claim, Missing));
      assert t[k] == Act(t[m].run, ReadOutbox(Claim, Missing));
      PositionPossible(ps, t, k);
      WorldGrows(ps, t, n, k);
    }
  }

  lemma MoveNeedsMissing(p: Params, log: Log, c: Call)
    requires c.Transition? && c.from == SwapState.OutputSettled && Allowed(p, log, c)
    ensures ReadOutbox(Claim, Missing) in log
  {
  }

  /** A stranded row is never moved again by later runs. */
  lemma {:induction false} StrandedStays(ps: Runs, t: Trace, n: nat, m: nat)
    requires Behaviour(ps, t) && n <= m <= |t| && Stranded(After(t[..n])) && OnlyLaterRuns(t, n)
    ensures Stranded(After(t[..m]))
    decreases m - n
  {
    hide Allowed, Inv, Behaviour;
    if n < m {
      StrandedStays(ps, t, n, m - 1);
      PositionFacts(ps, t, m - 1);
      WorldGrows(ps, t, m - 1, m);
      var e := t[m - 1];
      if e.Act? && e.call.Transition? && e.call.committed {
        LaterRunSawClaim(ps, t, n, m - 1);
        MoveNeedsMissing(ps(e.run), LogOf(t[..m - 1], e.run), e.call);
      }
    }
  }

  /** Every resume of a stranded session takes the replay path and none ever succeeds. */
  lemma StrandedForever(ps: Runs, t: Trace, n: nat, m: nat)
    requires Behaviour(ps, t) && (forall i :: ps(i).core)
    requires n <= m < |t| && Stranded(After(t[..n])) && OnlyLaterRuns(t, n)
    ensures t[m].Act? && t[m].call.Return? ==> !t[m].call.outcome.Completed?
  {
    if t[m].Act? && t[m].call.Return? && t[m].call.outcome.Completed? {
      StrandedStays(ps, t, n, m);
      CompletedReportsFiles(ps, t, m);
    }
  }

  // Any other session with a stored claim can be finished.

  /** A stored claim recorded as such, found by a forward run that has not acted yet and whose
      request is well formed and matches the stored record. */
  ghost predicate Resumable(ps: Runs, t: Trace, i: nat) {
    var w := After(t);
    && Behaviour(ps, t) && (forall j :: ps(j).core)
    && LogOf(t, i) == [] && ps(i).kind.ForwardRun? && StartPoint(ps(i)) == Loading
    && w.recovery.Complete? && MatchesRequest(ps(i), w.recovery.value)
    && w.claim.Complete? && w.row in {SwapState.ClaimPending, SwapState.Settled}
  }

  lemma StoredClaimFits(ps: Runs, t: Trace)
    requires Behaviour(ps, t) && After(t).claim.Complete?
    ensures ClaimFits(After(t).claim.value)
  {
    InvHolds(ps, t);
    assert HasCreator(After(t), t, Claim);
    var j: nat, o :| Act(j, CreateOutbox(Claim, o, CreatedNew)) in t && After(t).claim.value == o;
    assert Fact(ps(j), After(t), CreateOutbox(Claim, o, CreatedNew));
  }

  lemma ResumableCanFinish(ps: Runs, t: Trace, i: nat)
    requires Resumable(ps, t, i)
    ensures CanFinish(ps(i), After(t)) && After(t).hold == Hold(InvoiceState.Settled)
    ensures Fresh(ps, t, i, After(t).recovery.value, After(t).claim.value) && ClaimFits(After(t).claim.value)
  {
    InvHolds(ps, t);
    ClaimIsSettled(ps, t);
    StoredClaimFits(ps, t);
  }

  /** A session whose stored claim is recorded as CLAIM_PENDING or SETTLED can be finished by a
      new forward run. */
  lemma ResumeCompletes(ps: Runs, t: Trace, i: nat) returns (u: Trace)
    requires Resumable(ps, t, i)
    ensures Goes(ps, t, i, u) && Follows(ps(i), LogOf(u, i)) && u != []
    ensures After(t).claim.value.fundingTxid.Some?
    ensures u[|u| - 1] == Act(i, Return(ReplayOutcome(ps(i), After(t).claim.value)))
  {
    ResumableCanFinish(ps, t, i);
    u := ReplayCompletes(ps, t, i, After(t).recovery.value, After(t).claim.value);
  }

  // When it can be finished at all.

  /** `u` continues `t` by run `i` and the environment until the run reports a completion. */
  ghost predicate Finishes(ps: Runs, t: Trace, i: nat, u: Trace) {
    && Goes(ps, t, i, u) && Follows(ps(i), LogOf(u, i)) && u != []
    && var last := u[|u| - 1];
       last.Act? && last.run == i && last.call.Return? && last.call.outcome.Completed?
  }

  /** Continuing by one run that had not acted adds only calls of a later run. */
  lemma GoesIsLater(ps: Runs, t: Trace, i: nat, u: Trace)
    requires Goes(ps, t, i, u) && LogOf(t, i) == []
    ensures OnlyLaterRuns(u, |t|) && u[..|t|] == t
    ensures forall k :: 0 <= k < |u| && u[k].Act? ==> (u[k].run == i <==> |t| <= k)
  {
    assert u[..|t|] == t;
    forall k | |t| <= k < |u| && u[k].Act? ensures u[k].run == i {
      OthersAreSilent(t, u, k, i);
    }
    forall k | 0 <= k < |t| && u[k].Act? ensures u[k].run != i {
      assert u[k] == t[k] && t[k] in t;
      LogOfMembers(t, i, t[k].call);
    }
  }

  lemma OthersAreSilent(t: Trace, u: Trace, k: nat, i: nat)
    requires |t| <= k < |u| && u[..|t|] == t && u[k].Act?
    requires forall j: nat {:trigger LogOf(u, j)} :: j != i ==> LogOf(u, j) == LogOf(t, j)
    ensures u[k].run == i
  {
    var j := u[k].run;
    assert u[..k + 1] == u[..k] + [u[k]] && u[..k][..|t|] == t;
    SnocSteps(u[..k], u[k]);
    LogPrefix(u[..k], |t|, j);
    LogPrefix(u, k + 1, j);
    assert |LogOf(u, j)| > |LogOf(t, j)|;
  }

  /** The hold behind a stored claim was accepted once. */
  lemma ClaimWasHeld(ps: Runs, t: Trace)
    requires Behaviour(ps, t) && !After(t).claim.Absent?
    ensures InvoiceReached(After(t), InvoiceState.Accepted)
  {
    hide Behaviour, Allowed, Inv;
    var a := CreationPosition(ps, t, Claim);
    CreationFacts(ps, t, a, Claim);
    LaterWorld(ps, t, a);
    if ps(t[a].run).kind.ReverseRun? {
      var r, v := HeldInvoice(ps(t[a].run), LogOf(t[..a], t[a].run), t[a].call);
      var k := CallPosition(t[..a], t[a].run, ObserveAccepted(r.hash, Some(v)));
      assert t[k] == Act(t[a].run, ObserveAccepted(r.hash, Some(v)));
      PositionPossible(ps, t, k);
      LaterWorld(ps, t, k);
    }
  }

  /** What later runs never bring back once a claim is stored and the hold was accepted: a first
      payment, a row that was not yet CLAIM_PENDING, a released reservation. */
  lemma {:induction false} LostForGood(ps: Runs, t: Trace, n: nat, m: nat)
    requires Behaviour(ps, t) && n <= m <= |t| && OnlyLaterRuns(t, n)
    requires After(t[..n]).claim.Complete? && InvoiceReached(After(t[..n]), InvoiceState.Accepted)
    ensures After(t[..n]).payment.None? ==> After(t[..m]).payment.None?
    ensures After(t[..n]).row !in {SwapState.ClaimPending, SwapState.Settled}
        ==> After(t[..m]).row !in {SwapState.ClaimPending, SwapState.Settled}
    ensures After(t[..n]).reservation == Released ==> After(t[..m]).reservation == Released
    decreases m - n
  {
    hide Allowed, Inv, Behaviour, Apply, Admissible;
    if n < m {
      var k := m - 1;
      LostForGood(ps, t, n, k);
      LaterStep(ps, t, n, k);
      PositionFacts(ps, t, k);
      PositionPossible(ps, t, k);
      StepLosesNothing(After(t[..k]), t[k]);
    }
  }

  /** What a later run does not do. */
  predicate TooLate(e: Event) {
    e.Act? ==> !e.call.Pay? && !(e.call.Transition? && e.call.to == SwapState.ClaimPending)
               && (e.call.Transition? && e.call.to == SwapState.Settled ==> e.call.from == SwapState.ClaimPending)
  }

  lemma LaterStep(ps: Runs, t: Trace, n: nat, k: nat)
    requires Behaviour(ps, t) && n <= k < |t| && OnlyLaterRuns(t, n)
    requires After(t[..n]).claim.Complete? && InvoiceReached(After(t[..n]), InvoiceState.Accepted)
    ensures TooLate(t[k])
  {
    hide Inv, Behaviour;
    if t[k].Act? {
      NoLatePay(ps, t, n, k);
      PositionFacts(ps, t, k);
      LaterRunSawClaim(ps, t, n, k);
    }
  }

  lemma StepLosesNothing(w: World, e: Event)
    requires Possible(w, e) && TooLate(e)
    ensures w.payment.None? ==> Apply(w, e).payment.None?
    ensures w.row !in {SwapState.ClaimPending, SwapState.Settled}
        ==> Apply(w, e).row !in {SwapState.ClaimPending, SwapState.Settled}
    ensures w.reservation == Released ==> Apply(w, e).reservation == Released
  {
  }

  lemma FinishNeeds(ps: Runs, t: Trace, i: nat, r: Record, c: Outbox, u: Trace)
    requires Fresh(ps, t, i, r, c) && Finishes(ps, t, i, u)
    ensures CanFinish(ps(i), After(t))
  {
    hide Behaviour, Inv, Allowed, Execution, Follows;
    var m := |u| - 1;
    GoesIsLater(ps, t, i, u);
    ClaimWasHeld(ps, t);
    CompletedReportsFiles(ps, u, m);
    CompletionWasPaid(ps, u, m);
    WorldGrows(ps, u, |t|, m);
    LostForGood(ps, u, |t|, m);
  }

  lemma CompletionWasPaid(ps: Runs, t: Trace, m: nat)
    requires Behaviour(ps, t) && m < |t| && t[m].Act? && t[m].call.Return? && t[m].call.outcome.Completed?
    ensures After(t[..m]).payment.Some?
  {
    hide Allowed, Behaviour;
    PositionFacts(ps, t, m);
    var r, o, e := CompletedGives(ps(t[m].run), LogOf(t[..m], t[m].run), t[m].call);
    PaymentFact(ps, t[..m], t[m].run, r);
  }

  /** The exact condition, for either direction and either observer: a new run can finish a
      session with a stored claim if and only if the hold was not canceled, a payment is under way
      and, under the durable observer, the row has left OUTPUT_SETTLED and the reservation was not
      released. */
  lemma FinishableIff(ps: Runs, t: Trace, i: nat, r: Record, c: Outbox)
    requires Fresh(ps, t, i, r, c)
    ensures (exists u :: Finishes(ps, t, i, u)) <==> CanFinish(ps(i), After(t))
  {
    hide Behaviour, Execution, Follows, CanFinish, Fresh, StartPoint, MatchesRequest;
    if u :| Finishes(ps, t, i, u) {
      FinishNeeds(ps, t, i, r, c, u);
    }
    if CanFinish(ps(i), After(t)) {
      FreshClaimFits(ps, t, i, r, c);
      var u := ReplayCompletes(ps, t, i, r, c);
      assert Finishes(ps, t, i, u);
    }
  }

  lemma FreshClaimFits(ps: Runs, t: Trace, i: nat, r: Record, c: Outbox)
    requires Fresh(ps, t, i, r, c)
    ensures ClaimFits(c)
  {
    StoredClaimFits(ps, t);
  }

  /** A forward session whose runs all use the durable observer: the row is the only gate. */
  lemma ForwardFinishableIff(ps: Runs, t: Trace, i: nat, r: Record, c: Outbox)
    requires Fresh(ps, t, i, r, c) && ps(i).kind.ForwardRun? && (forall j :: ps(j).core)
    ensures After(t).row in {SwapState.ClaimPending, SwapState.Settled} <==> After(t).row != SwapState.OutputSettled
    ensures (exists u :: Finishes(ps, t, i, u)) <==> After(t).row != SwapState.OutputSettled
  {
    hide Behaviour, Finishes;
    CrossStore(ps, t);
    ClaimedIsPaid(ps, t);
    FinishableIff(ps, t, i, r, c);
  }

  lemma ClaimedIsPaid(ps: Runs, t: Trace)
    requires Behaviour(ps, t) && (forall j :: ps(j).core) && After(t).claim.Complete?
    requires After(t).recovery.Complete? && After(t).recovery.value.direction == DepixToLightning
    ensures After(t).payment.Some?
  {
    InvHolds(ps, t);
    CrossStore(ps, t);
  }

  /** A reverse session resumed under the no-op observer: no row gate, only the hold and the payment. */
  lemma ReverseFinishableIff(ps: Runs, t: Trace, i: nat, r: Record, c: Outbox)
    requires Fresh(ps, t, i, r, c) && ps(i).kind.ReverseRun? && !ps(i).core
    ensures (exists u :: Finishes(ps, t, i, u))
        <==> After(t).hold != Hold(InvoiceState.Canceled) && After(t).payment.Some?
  {
    hide Behaviour, Finishes;
    ClaimWasHeld(ps, t);
    FinishableIff(ps, t, i, r, c);
  }

  // Refunds under the durable observer.

  ghost predicate RefundBlocked(w: World) {
    && (w.payment.Some? ==> StateRank(w.row) >= 3)
    && (!w.refund.Absent? ==> StateRank(w.row) >= 3)
    && w.row != SwapState.Refunding && w.row != SwapState.Refunded
  }

  lemma RefundNeedsPayment(ps: Runs, t: Trace, i: nat, c: Call)
    requires Inv(ps, t) && c.CreateOutbox? && c.path == Refund && Allowed(ps(i), LogOf(t, i), c)
    ensures After(t).payment.Some?
  {
    hide HasCreator, WriterKnown, RowBacked, Allowed, Behaviour;
    var seen := RefundSawFailure(ps(i), LogOf(t, i), c);
    LogOfMembers(t, i, seen);
  }

  lemma RefundSawFailure(p: Params, log: Log, c: Call) returns (seen: Call)
    requires c.CreateOutbox? && c.path == Refund && Allowed(p, log, c)
    ensures seen in log && seen.Track? && seen.payment.Some? && seen.payment.value.state == PaymentState.Failed
  {
    var r :| Holding(p, log, r) && CreateReady(p, log, r, Refund, c.outbox);
    var x :| Track(r.hash, Some(Payment(PaymentState.Failed, x))) in log;
    seen := Track(r.hash, Some(Payment(PaymentState.Failed, x)));
  }

  lemma RefundingNeedsRefund(ps: Runs, t: Trace, i: nat, c: Call)
    requires Inv(ps, t) && c.Transition? && c.to == SwapState.Refunding && Allowed(ps(i), LogOf(t, i), c)
    ensures !After(t).refund.Absent? && c.from == SwapState.InputLocked
  {
    var r :| Holding(ps(i), LogOf(t, i), r) && RowReady(ps(i), LogOf(t, i), r, c.to);
    SomeOutboxFact(ps, t, i, Refund);
  }

  lemma RefundBlockedKept(ps: Runs, t: Trace, e: Event)
    requires Behaviour(ps, t) && Inv(ps, t) && Admissible(ps, t, e) && (forall i :: ps(i).core)
    requires RefundBlocked(After(t))
    ensures RefundBlocked(Apply(After(t), e))
  {
    hide Allowed, Fact, HasCreator, WriterKnown, RowBacked, RefundBlocked, Behaviour;
    if e.Act? {
      FinisherIsWriter(ps, t, e.run, e.call);
      if e.call.Pay? {
        PayReachedPending(ps, t, e.run, e.call);
      } else if e.call.CreateOutbox? && e.call.path == Refund {
        RefundNeedsPayment(ps, t, e.run, e.call);
      } else if e.call.Transition? && e.call.to == SwapState.Refunding {
        RefundingNeedsRefund(ps, t, e.run, e.call);
      }
    }
    BlockedUnlessReached(After(t), e);
  }

  lemma PayReachedPending(ps: Runs, t: Trace, i: nat, c: Call)
    requires Behaviour(ps, t) && Inv(ps, t) && c.Pay? && ps(i).core && Allowed(ps(i), LogOf(t, i), c)
    ensures StateRank(After(t).row) >= 3
  {
    var r := PayGives(ps(i), LogOf(t, i), c);
    RowFact(ps, t, i, 3);
  }

  lemma BlockedUnlessReached(w: World, e: Event)
    requires RefundBlocked(w) && Possible(w, e)
    requires e.Act? ==>
      && (e.call.Pay? ==> StateRank(w.row) >= 3)
      && (e.call.CreateOutbox? && e.call.path == Refund ==> w.payment.Some?)
      && (e.call.FinishOutbox? ==> OutboxAt(w, e.call.path) == Partial(e.run))
      && (e.call.Transition? && e.call.to == SwapState.Refunding ==>
            !w.refund.Absent? && e.call.from == SwapState.InputLocked)
    ensures RefundBlocked(Apply(w, e))
  {
    if e.Act? && e.call.Transition? && e.call.committed {
      EdgeRaisesRank(e.call.from, e.call.to);
    }
  }

  lemma {:induction false} RefundStaysBlocked(ps: Runs, t: Trace, n: nat)
    requires Behaviour(ps, t) && n <= |t| && (forall i :: ps(i).core)
    ensures RefundBlocked(After(t[..n]))
    decreases n
  {
    if n > 0 {
      RefundStaysBlocked(ps, t, n - 1);
      PositionFacts(ps, t, n - 1);
      RefundBlockedKept(ps, t[..n - 1], t[n - 1]);
    }
  }

  /** A failed payment implies the row reached OUTPUT_PENDING, and the durable observer enters
      REFUNDING only from INPUT_LOCKED: with every run under that observer no refund is ever
      broadcast, although its outbox may be stored. */
  lemma DurableObserverBlocksRefund(ps: Runs, t: Trace, n: nat)
    requires Behaviour(ps, t) && (forall i :: ps(i).core) && n < |t| && t[n].Act?
    ensures !(t[n].call.Broadcast? && t[n].call.path == Refund)
  {
    if t[n].call.Broadcast? && t[n].call.path == Refund {
      PositionFacts(ps, t, n);
      RefundStaysBlocked(ps, t, n);
      RowFact(ps, t[..n], t[n].run, 8);
    }
  }
}
