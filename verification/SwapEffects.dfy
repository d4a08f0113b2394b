/** The order of external effects inside whole behaviours, and what needs runs not to overlap. */
module SwapEffects {
  import opened Wrappers
  import opened Settlement
  import opened SwapCalls
  import opened SwapWorld
  import opened SwapSafety
  import opened SwapTheorems

  /** The position of a logged call in the trace. */
  lemma {:induction false} CallPosition(t: Trace, i: nat, c: Call) returns (k: nat)
    requires c in LogOf(t, i)
    ensures k < |t| && t[k] == Act(i, c)
  {
    LogOfMembers(t, i, c);
    k :| k < |t| && t[k] == Act(i, c);
  }

  lemma PositionPossible(ps: Runs, t: Trace, k: nat)
    requires Behaviour(ps, t) && k < |t|
    ensures Possible(After(t[..k]), t[k])
  {
    assert At(k);
  }

  // Forward runs.

  ghost predicate TimedIn(p: Params, t: Trace, i: nat, r: Record) {
    exists h: U64 :: Act(i, Height(Some(h))) in t && h <= r.refundLockHeight
      && Timing.ValidateForwardTiming(p.terms.lightningCltvLimit, r.refundLockHeight - h, p.terms.claimMargin).Ok?
  }

  lemma TimedInTrace(p: Params, t: Trace, i: nat, r: Record)
    requires ForwardTimed(p, LogOf(t, i), r)
    ensures TimedIn(p, t, i, r)
  {
    var h: U64 :| Height(Some(h)) in LogOf(t, i) && h <= r.refundLockHeight
      && Timing.ValidateForwardTiming(p.terms.lightningCltvLimit, r.refundLockHeight - h, p.terms.claimMargin).Ok?;
    LogOfMembers(t, i, Height(Some(h)));
  }

  /** This run broadcast the stored funding transaction and then saw its HTLC output. */
  ghost predicate FundedIn(t: Trace, i: nat) {
    && After(t).funding.Complete?
    && Act(i, Broadcast(Funding, After(t).funding.value, true)) in t
    && exists e :: Act(i, ObserveFunding(After(t).funding.value.txid, HtlcVout(After(t).funding.value), Some(e))) in t
  }

  /** A forward run pays only after, in the same run, the refund-height check passed on the
      stored record, its funding transaction went out and the HTLC output was seen. */
  lemma ForwardPayFollowsFunding(ps: Runs, t: Trace, n: nat)
    requires Behaviour(ps, t) && n < |t| && t[n].Act? && t[n].call.Pay? && ps(t[n].run).kind.ForwardRun?
    ensures After(t[..n]).recovery.Complete? && FundedIn(t[..n], t[n].run)
    ensures TimedIn(ps(t[n].run), t[..n], t[n].run, After(t[..n]).recovery.value)
    ensures ps(t[n].run).core ==> StateRank(After(t[..n]).row) >= 3
  {
    PositionFacts(ps, t, n);
    PayFacts(ps, t[..n], t[n].run, t[n].call);
  }

  lemma PayGives(p: Params, log: Log, c: Call) returns (r: Record)
    requires c.Pay? && Allowed(p, log, c)
    ensures Holding(p, log, r) && StartedOpen(log, r) && (p.core ==> RowReached(log, 3))
    ensures p.kind.ForwardRun? ==>
      ForwardTimed(p, log, r) && exists f :: HoldsOutbox(log, Funding, f) && SawFunding(log, f.txid, HtlcVout(f))
  {
    r :| Holding(p, log, r) && c.hash == r.hash && PayReady(p, log, r, c.amountSats);
  }

  lemma PayFacts(ps: Runs, t: Trace, i: nat, c: Call)
    requires Behaviour(ps, t) && Inv(ps, t) && c.Pay? && ps(i).kind.ForwardRun? && Allowed(ps(i), LogOf(t, i), c)
    ensures After(t).recovery.Complete? && FundedIn(t, i) && TimedIn(ps(i), t, i, After(t).recovery.value)
    ensures ps(i).core ==> StateRank(After(t).row) >= 3
  {
    var r := PayGives(ps(i), LogOf(t, i), c);
    HoldingFact(ps, t, i, r);
    TimedInTrace(ps(i), t, i, r);
    var f :| HoldsOutbox(LogOf(t, i), Funding, f) && SawFunding(LogOf(t, i), f.txid, HtlcVout(f));
    var e :| ObserveFunding(f.txid, HtlcVout(f), Some(e)) in LogOf(t, i);
    FundingWasSent(ps, t, i, f, e);
    if ps(i).core {
      RowFact(ps, t, i, 3);
    }
  }

  /** A run observes only the stored funding transaction, after broadcasting it itself. */
  lemma FundingWasSent(ps: Runs, t: Trace, i: nat, f: Outbox, e: FundingEvidence)
    requires Behaviour(ps, t) && Inv(ps, t) && HoldsOutbox(LogOf(t, i), Funding, f)
    requires ObserveFunding(f.txid, HtlcVout(f), Some(e)) in LogOf(t, i)
    ensures After(t).funding == Complete(f)
    ensures Act(i, Broadcast(Funding, f, true)) in t
    ensures Act(i, ObserveFunding(f.txid, HtlcVout(f), Some(e))) in t
  {
    var log := LogOf(t, i);
    OutboxFact(ps, t, i, Funding, f);
    assert Obeys(ps(i), log);
    var m := CallWasAllowed(ps(i), log, ObserveFunding(f.txid, HtlcVout(f), Some(e)));
    var g :| HoldsOutbox(log[..m], Funding, g) && Sent(log[..m], Funding, g);
    assert HoldsOutbox(log, Funding, g);
    OutboxFact(ps, t, i, Funding, g);
    LogOfMembers(t, i, Broadcast(Funding, f, true));
    LogOfMembers(t, i, ObserveFunding(f.txid, HtlcVout(f), Some(e)));
  }

  /** A forward run starts a claim outbox only after it saw the payment succeed with the
      preimage of the record, on a settled invoice. */
  lemma ForwardClaimFollowsPayment(ps: Runs, t: Trace, n: nat)
    requires Behaviour(ps, t) && n < |t| && t[n].Act? && ps(t[n].run).kind.ForwardRun?
    requires t[n].call.CreateOutbox? && t[n].call.path == Claim
    ensures var i, w := t[n].run, After(t[..n]);
      && w.recovery.Complete? && w.hold == Hold(InvoiceState.Settled)
      && Act(i, Track(w.recovery.value.hash, Some(Payment(Succeeded, Some(w.recovery.value.preimage))))) in t[..n]
  {
    PositionFacts(ps, t, n);
    var front, i := t[..n], t[n].run;
    var r :| Holding(ps(i), LogOf(front, i), r) && CreateReady(ps(i), LogOf(front, i), r, Claim, t[n].call.outbox);
    HoldingFact(ps, front, i, r);
    PaymentFact(ps, front, i, r);
    LogOfMembers(front, i, Track(r.hash, Some(Payment(Succeeded, Some(r.preimage)))));
  }

  // Reverse runs.

  ghost predicate HeldIn(p: Params, t: Trace, i: nat, r: Record) {
    exists v, tip: U64, h: U64 ::
      && Act(i, ObserveAccepted(r.hash, Some(v))) in t && Act(i, Tip(Some(tip))) in t && Act(i, Height(Some(h))) in t
      && ReverseTimingOk(p, r, v, tip, h)
  }

  lemma HeldInTrace(ps: Runs, t: Trace, i: nat, r: Record)
    requires Inv(ps, t) && ReverseTimed(ps(i), LogOf(t, i), r)
    ensures HeldIn(ps(i), t, i, r) && InvoiceReached(After(t), InvoiceState.Accepted)
  {
    var log := LogOf(t, i);
    var v, tip: U64, h: U64 :| ObserveAccepted(r.hash, Some(v)) in log && Tip(Some(tip)) in log
      && Height(Some(h)) in log && ReverseTimingOk(ps(i), r, v, tip, h);
    LogOfMembers(t, i, ObserveAccepted(r.hash, Some(v)));
    LogOfMembers(t, i, Tip(Some(tip)));
    LogOfMembers(t, i, Height(Some(h)));
    assert Fact(ps(i), After(t), ObserveAccepted(r.hash, Some(v)));
  }

  /** A reverse run broadcasts funding only after, in the same run, it saw an exact-amount hold
      and passed the timing check on that hold's expiry. */
  lemma ReverseFundingFollowsHold(ps: Runs, t: Trace, n: nat)
    requires Behaviour(ps, t) && n < |t| && t[n].Act? && ps(t[n].run).kind.ReverseRun?
    requires t[n].call.Broadcast? && t[n].call.path == Funding
    ensures After(t[..n]).recovery.Complete? && InvoiceReached(After(t[..n]), InvoiceState.Accepted)
    ensures HeldIn(ps(t[n].run), t[..n], t[n].run, After(t[..n]).recovery.value)
  {
    PositionFacts(ps, t, n);
    var front, i := t[..n], t[n].run;
    var r :| Holding(ps(i), LogOf(front, i), r)
      && BroadcastReady(ps(i), LogOf(front, i), r, Funding, t[n].call.outbox);
    HoldingFact(ps, front, i, r);
    HeldInTrace(ps, front, i, r);
  }

  /** A reverse run settles the hold, revealing the preimage over Lightning, only after it
      broadcast the stored claim and saw it confirmed. */
  lemma ReverseSettleFollowsClaim(ps: Runs, t: Trace, n: nat)
    requires Behaviour(ps, t) && n < |t| && t[n].Act? && ps(t[n].run).kind.ReverseRun? && t[n].call.SettleHold?
    ensures var i, w := t[n].run, After(t[..n]);
      && w.claim.Complete?
      && Act(i, Broadcast(Claim, w.claim.value, true)) in t[..n]
      && exists e :: Act(i, ObserveSpend(Claim, w.claim.value, Some(e))) in t[..n]
  {
    hide Inv;
    PositionFacts(ps, t, n);
    var front, i := t[..n], t[n].run;
    var log := LogOf(front, i);
    var r :| Holding(ps(i), log, r) && SettleReady(ps(i), log, r);
    var o :| HoldsOutbox(log, Claim, o) && SawSpend(log, Claim, o);
    OutboxFact(ps, front, i, Claim, o);
    var e :| ObserveSpend(Claim, o, Some(e)) in log;
    assert Obeys(ps(i), log);
    var m := CallWasAllowed(ps(i), log, ObserveSpend(Claim, o, Some(e)));
    assert Broadcast(Claim, o, true) in log;
    LogOfMembers(front, i, Broadcast(Claim, o, true));
    LogOfMembers(front, i, ObserveSpend(Claim, o, Some(e)));
  }

  // Later runs.

  ghost predicate StartsAfter(t: Trace, i: nat, n: nat) {
    forall k :: 0 <= k < n && k < |t| && t[k].Act? ==> t[k].run != i
  }

  /** A call that shows its run an open invoice. */
  predicate Opening(c: Call) {
    (c.CreateInvoice? && c.applied) || (c.Lookup? && c.answer.Found? && c.answer.invoice.state.Open?)
  }

  lemma NoOpeningAfter(ps: Runs, t: Trace, n: nat, k: nat)
    requires Behaviour(ps, t) && n <= k < |t| && t[k].Act?
    requires InvoiceReached(After(t[..n]), InvoiceState.Accepted)
    ensures !Opening(t[k].call)
  {
    PositionPossible(ps, t, k);
    WorldGrows(ps, t, n, k);
  }

  lemma OpeningCall(log: Log, r: Record) returns (c: Call)
    requires StartedOpen(log, r)
    ensures c in log && Opening(c)
  {
    if v :| Lookup(r.hash, Found(v)) in log && v.state.Open? {
      c := Lookup(r.hash, Found(v));
    } else {
      var a: U64 :| CreateInvoice(r.hash, a, true, true) in log;
      c := CreateInvoice(r.hash, a, true, true);
    }
  }

  /** Once the invoice has left Open, no run that starts later ever pays. */
  lemma NoLatePay(ps: Runs, t: Trace, n: nat, m: nat)
    requires Behaviour(ps, t) && n <= m < |t|
    requires InvoiceReached(After(t[..n]), InvoiceState.Accepted)
    requires t[m].Act? && StartsAfter(t, t[m].run, n)
    ensures !t[m].call.Pay?
  {
    if t[m].call.Pay? {
      PositionFacts(ps, t, m);
      var r := PayGives(ps(t[m].run), LogOf(t[..m], t[m].run), t[m].call);
      var c := OpeningCall(LogOf(t[..m], t[m].run), r);
      var k := CallPosition(t[..m], t[m].run, c);
      assert t[k] == Act(t[m].run, c);
      NoOpeningAfter(ps, t, n, k);
    }
  }

  // Runs that overlap.

  lemma CancelNeeds(p: Params, log: Log, c: Call)
    requires c.CancelHold? && Allowed(p, log, c)
    ensures NoFundingSent(log) && ReadOutbox(Funding, Missing) in log
  {
  }

  predicate SendsFundingAt(t: Trace, m: nat) {
    m < |t| && t[m].Act? && t[m].call.Broadcast? && t[m].call.path == Funding
  }

  /** The funding broadcast at `m` falls between the canceling run's look at the funding file and
      its cancellation at `n`. */
  predicate Straddles(t: Trace, k: nat, m: nat, n: nat) {
    && k < m < n < |t| && t[n].Act?
    && t[k] == Act(t[n].run, ReadOutbox(Funding, Missing)) && SendsFundingAt(t, m) && t[m].run != t[n].run
  }

  /** The funding file is read as missing only before its transaction is broadcast. */
  lemma MissingBeforeSent(ps: Runs, t: Trace, k: nat, i: nat, m: nat)
    requires Behaviour(ps, t) && k < |t| && t[k] == Act(i, ReadOutbox(Funding, Missing)) && SendsFundingAt(t, m)
    ensures k < m
  {
    hide Allowed, Inv, Behaviour;
    PositionFacts(ps, t, k);
    if m <= k {
      BroadcastWasStored(ps, t, m);
      WorldGrows(ps, t, m, k);
    }
  }

  /** A cancellation follows a funding broadcast exactly when another run broadcast it after the
      canceling run had read the funding file as missing. The content is from left to right:
      `Straddles` names the broadcast. */
  lemma CancelAfterFunding(ps: Runs, t: Trace, n: nat)
    requires Behaviour(ps, t) && n < |t| && t[n].Act? && t[n].call.CancelHold?
    ensures (exists m: nat :: m < n && SendsFundingAt(t, m)) <==> (exists k: nat, m: nat :: Straddles(t, k, m, n))
  {
    hide Allowed, Inv, Behaviour, NoFundingSent;
    if m: nat :| m < n && SendsFundingAt(t, m) {
      var k := CancelStraddles(ps, t, m, n);
      assert Straddles(t, k, m, n);
    }
  }

  lemma CancelStraddles(ps: Runs, t: Trace, m: nat, n: nat) returns (k: nat)
    requires Behaviour(ps, t) && n < |t| && t[n].Act? && t[n].call.CancelHold?
    requires m < n && SendsFundingAt(t, m)
    ensures Straddles(t, k, m, n)
  {
    hide Allowed, Inv, Behaviour;
    var i := t[n].run;
    PositionFacts(ps, t, n);
    CancelNeeds(ps(i), LogOf(t[..n], i), t[n].call);
    k := CallPosition(t[..n], i, ReadOutbox(Funding, Missing));
    assert t[k] == Act(i, ReadOutbox(Funding, Missing));
    MissingBeforeSent(ps, t, k, i, m);
    if t[m].run == i {
      assert t[..n][m] == Act(i, t[m].call);
      LogOfMembers(t[..n], i, t[m].call);
    }
  }

  lemma CreationPosition(ps: Runs, t: Trace, path: Kind) returns (a: nat)
    requires Behaviour(ps, t) && !OutboxAt(After(t), path).Absent?
    ensures CreatesAt(t, a, path)
  {
    InvHolds(ps, t);
    assert HasCreator(After(t), t, path);
    var i: nat, o :| Act(i, CreateOutbox(path, o, CreatedNew)) in t;
    a :| a < |t| && t[a] == Act(i, CreateOutbox(path, o, CreatedNew));
  }

  predicate CreatesAt(t: Trace, a: nat, path: Kind) {
    && a < |t| && t[a].Act? && t[a].call.CreateOutbox? && t[a].call.path == path
    && t[a].call.created == CreatedNew
  }

  lemma CreationLeavesFile(ps: Runs, t: Trace, a: nat, k: nat, path: Kind)
    requires Behaviour(ps, t) && a < k <= |t| && CreatesAt(t, a, path)
    ensures !OutboxAt(After(t[..k]), path).Absent?
  {
    assert t[..a + 1] == t[..a] + [t[a]];
    SnocSteps(t[..a], t[a]);
    WorldGrows(ps, t, a + 1, k);
  }

  predicate SeesHeld(p: Params, c: Call) {
    c.ObserveAccepted? && c.invoice.Some? && IsHeld(p, c.invoice.value)
  }

  /** The claim of a reverse run, created at `a`, and the refund of a refund run, created at `b`,
      cross: the first of the two creations falls between what the other run looked at, at `k`,
      and its own creation. */
  predicate Crossed(ps: Runs, t: Trace, k: nat, a: nat, b: nat) {
    && CreatesAt(t, a, Claim) && ps(t[a].run).kind.ReverseRun?
    && CreatesAt(t, b, Refund) && ps(t[b].run).kind.RefundRun?
    && k < |t| && t[k].Act?
    && if a < b then k < a && t[k] == Act(t[b].run, ReadOutbox(Claim, Missing))
       else k < b < a && t[k].run == t[a].run && SeesHeld(ps(t[k].run), t[k].call)
  }

  /** A session holds both a claim and a refund outbox exactly when a reverse run and a refund run
      crossed. Overlapping reverse runs alone never do it, nor does any run of a forward session.
      The content is from left to right: `Crossed` names the two creations. */
  lemma BothStoredIffCrossed(ps: Runs, t: Trace)
    requires Behaviour(ps, t)
    ensures !After(t).claim.Absent? && !After(t).refund.Absent? <==>
      exists k: nat, a: nat, b: nat :: Crossed(ps, t, k, a, b)
  {
    hide Behaviour, Inv, Crossed, Allowed;
    if !After(t).claim.Absent? && !After(t).refund.Absent? {
      var a := CreationPosition(ps, t, Claim);
      var b := CreationPosition(ps, t, Refund);
      var k := CreationsCross(ps, t, a, b);
      assert Crossed(ps, t, k, a, b);
    } else if k: nat, a: nat, b: nat :| Crossed(ps, t, k, a, b) {
      CrossedStoresBoth(ps, t, k, a, b);
    }
  }

  lemma CrossedStoresBoth(ps: Runs, t: Trace, k: nat, a: nat, b: nat)
    requires Behaviour(ps, t) && Crossed(ps, t, k, a, b)
    ensures !After(t).claim.Absent? && !After(t).refund.Absent?
  {
    CreationLeavesFile(ps, t, a, |t|, Claim);
    CreationLeavesFile(ps, t, b, |t|, Refund);
    assert t[..|t|] == t;
  }

  lemma CreationFacts(ps: Runs, t: Trace, a: nat, path: Kind)
    requires Behaviour(ps, t) && CreatesAt(t, a, path)
    ensures Admissible(ps, t[..a], t[a]) && Behaviour(ps, t[..a])
    ensures path == Claim ==> ClaimFact(ps(t[a].run), After(t[..a]), t[a].call.outbox)
    ensures path == Refund ==> RefundFact(ps(t[a].run), After(t[..a]), t[a].call.outbox)
  {
    hide Behaviour, Allowed;
    PositionFacts(ps, t, a);
    CreationFact(ps, t[..a], t[a].run, path, t[a].call.outbox);
  }

  lemma CreationsCross(ps: Runs, t: Trace, a: nat, b: nat) returns (k: nat)
    requires Behaviour(ps, t) && CreatesAt(t, a, Claim) && CreatesAt(t, b, Refund)
    ensures Crossed(ps, t, k, a, b)
  {
    hide Behaviour, Allowed;
    CreationFacts(ps, t, a, Claim);
    CreationFacts(ps, t, b, Refund);
    if a < b {
      WorldGrows(ps, t, a, b);
      k := RefundReadClaim(ps, t, a, b);
    } else {
      WorldGrows(ps, t, b, a);
      k := ClaimSawHold(ps, t, b, a);
    }
  }

  /** A refund after a claim was begun on an older look at the claim outbox. */
  lemma RefundReadClaim(ps: Runs, t: Trace, a: nat, b: nat) returns (k: nat)
    requires Behaviour(ps, t) && a < b && CreatesAt(t, a, Claim) && CreatesAt(t, b, Refund)
    ensures k < a && t[k] == Act(t[b].run, ReadOutbox(Claim, Missing))
  {
    hide Behaviour, Inv;
    PositionFacts(ps, t, b);
    var j := t[b].run;
    assert ReadOutbox(Claim, Missing) in LogOf(t[..b], j);
    k := CallPosition(t[..b], j, ReadOutbox(Claim, Missing));
    assert t[k] == Act(j, ReadOutbox(Claim, Missing));
    PositionPossible(ps, t, k);
    if a < k {
      CreationLeavesFile(ps, t, a, k, Claim);
    }
  }

  /** A claim after a refund was begun on an older look at the hold. */
  lemma ClaimSawHold(ps: Runs, t: Trace, b: nat, a: nat) returns (k: nat)
    requires Behaviour(ps, t) && b < a && CreatesAt(t, a, Claim) && CreatesAt(t, b, Refund)
    requires ps(t[a].run).kind.ReverseRun? && After(t[..b]).hold == Hold(InvoiceState.Canceled)
    ensures k < b && t[k].Act? && t[k].run == t[a].run && SeesHeld(ps(t[k].run), t[k].call)
  {
    hide Behaviour, Inv, Allowed;
    var i := t[a].run;
    PositionFacts(ps, t, a);
    var r, v := HeldInvoice(ps(i), LogOf(t[..a], i), t[a].call);
    k := CallPosition(t[..a], i, ObserveAccepted(r.hash, Some(v)));
    assert t[k] == Act(i, ObserveAccepted(r.hash, Some(v)));
    PositionPossible(ps, t, k);
    if b <= k {
      WorldGrows(ps, t, b, k);
    }
  }

  lemma HeldInvoice(p: Params, log: Log, c: Call) returns (r: Record, v: Invoice)
    requires c.CreateOutbox? && c.path == Claim && Allowed(p, log, c) && p.kind.ReverseRun?
    ensures ObserveAccepted(r.hash, Some(v)) in log && IsHeld(p, v)
  {
    r :| Holding(p, log, r) && CreateReady(p, log, r, c.path, c.outbox);
    v :| ObserveAccepted(r.hash, Some(v)) in log && IsHeld(p, v);
  }

  // Runs that do not overlap.

  /** Between two calls of one run no other run acts; the environment still may. */
  ghost predicate NonOverlapping(t: Trace) {
    forall a: nat, b: nat, c: nat :: a < b < c < |t| && t[a].Act? && t[b].Act? && t[c].Act? && t[a].run == t[c].run
      ==> t[b].run == t[a].run
  }

  /** Without overlap the runner never cancels the hold once any run has broadcast the funding
      transaction, whatever crashed or failed in between. */
  lemma NoCancelAfterFunding(ps: Runs, t: Trace, m: nat, n: nat)
    requires Behaviour(ps, t) && NonOverlapping(t) && m < n < |t|
    requires t[m].Act? && t[m].call.Broadcast? && t[m].call.path == Funding
    requires t[n].Act?
    ensures !t[n].call.CancelHold?
  {
    if t[n].call.CancelHold? {
      var k := CancelStraddles(ps, t, m, n);
    }
  }

  /** Without overlap no session of either direction ever holds both a claim and a refund outbox. */
  lemma NonOverlapClaimXorRefund(ps: Runs, t: Trace)
    requires Behaviour(ps, t) && NonOverlapping(t)
    ensures After(t).claim.Absent? || After(t).refund.Absent?
  {
    BothStoredIffCrossed(ps, t);
    if k: nat, a: nat, b: nat :| Crossed(ps, t, k, a, b) {
      assert false;
    }
  }
}
