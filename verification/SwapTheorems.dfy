/** Safety over whole behaviours, any number of runs of any kind interleaved and crashed anywhere. */
module SwapTheorems {
  import opened Wrappers
  import opened Settlement
  import opened SwapCalls
  import opened SwapWorld
  import opened SwapSafety

  // Positions of a trace.

  lemma PositionFacts(ps: Runs, t: Trace, n: nat)
    requires Behaviour(ps, t) && n < |t|
    ensures Behaviour(ps, t[..n]) && Inv(ps, t[..n]) && Admissible(ps, t[..n], t[n])
    ensures After(t[..n + 1]) == Apply(After(t[..n]), t[n])
  {
    BehaviourPrefix(ps, t, n + 1);
    assert t[..n + 1] == t[..n] + [t[n]];
    BehaviourUnsnoc(ps, t[..n], t[n]);
    SnocSteps(t[..n], t[n]);
    InvHolds(ps, t[..n]);
  }

  /** The world only moves forward, between any two points of a behaviour. */
  lemma {:induction false} WorldGrows(ps: Runs, t: Trace, n: nat, m: nat)
    requires Behaviour(ps, t) && n <= m <= |t|
    ensures Grows(After(t[..n]), After(t[..m]))
    decreases m - n
  {
    if n < m {
      WorldGrows(ps, t, n, m - 1);
      PositionFacts(ps, t, m - 1);
      EventGrows(ps, t[..m - 1], t[m - 1]);
    }
  }

  lemma LaterWorld(ps: Runs, t: Trace, n: nat)
    requires Behaviour(ps, t) && n <= |t|
    ensures Grows(After(t[..n]), After(t))
  {
    WorldGrows(ps, t, n, |t|);
    assert t[..|t|] == t;
  }

  /** A logged call was allowed when it was made. */
  lemma CallWasAllowed(p: Params, log: Log, c: Call) returns (m: nat)
    requires Obeys(p, log) && c in log
    ensures m < |log| && log[m] == c && Allowed(p, log[..m], c)
  {
    m :| m < |log| && log[m] == c;
    assert At(m);
  }

  // One transaction per outbox, stored before it is sent.

  /** Every broadcast sends the complete contents its outbox file already had. */
  lemma BroadcastWasStored(ps: Runs, t: Trace, n: nat)
    requires Behaviour(ps, t) && n < |t| && t[n].Act? && t[n].call.Broadcast?
    ensures OutboxAt(After(t[..n]), t[n].call.path) == Complete(t[n].call.outbox)
    ensures t[n].call.outbox.kind == t[n].call.path
  {
    PositionFacts(ps, t, n);
    BroadcastFact(ps, t[..n], t[n].run, t[n].call.path, t[n].call.outbox, t[n].call.ok);
  }

  /** However many runs overlap or crash, each of funding, claim and refund is only ever
      broadcast as one transaction. */
  lemma OneTransactionPerKind(ps: Runs, t: Trace, n: nat, m: nat)
    requires Behaviour(ps, t) && n < |t| && m < |t|
    requires t[n].Act? && t[n].call.Broadcast? && t[m].Act? && t[m].call.Broadcast?
    requires t[n].call.path == t[m].call.path
    ensures t[n].call.outbox == t[m].call.outbox
  {
    BroadcastWasStored(ps, t, n);
    BroadcastWasStored(ps, t, m);
    LaterWorld(ps, t, n);
    LaterWorld(ps, t, m);
  }

  // Claim or refund, never both.

  lemma ClaimIsSettled(ps: Runs, t: Trace)
    requires Inv(ps, t) && !After(t).claim.Absent?
    requires After(t).recovery.Complete? && After(t).recovery.value.direction == DepixToLightning
    ensures After(t).hold == Hold(InvoiceState.Settled)
    ensures (forall i :: ps(i).core) ==> StateRank(After(t).row) >= 5 && After(t).reservation == Consumed
    ensures After(t).claim.Complete? ==> BindsStoredFunding(After(t), After(t).claim.value)
  {
    assert HasCreator(After(t), t, Claim);
    var i: nat, o :| Act(i, CreateOutbox(Claim, o, CreatedNew)) in t
      && (After(t).claim.Complete? ==> After(t).claim.value == o);
    assert Fact(ps(i), After(t), CreateOutbox(Claim, o, CreatedNew));
  }

  lemma RefundIsCanceled(ps: Runs, t: Trace)
    requires Inv(ps, t) && !After(t).refund.Absent?
    ensures After(t).hold == Hold(InvoiceState.Canceled)
  {
    assert HasCreator(After(t), t, Refund);
    var i: nat, o :| Act(i, CreateOutbox(Refund, o, CreatedNew)) in t
      && (After(t).refund.Complete? ==> After(t).refund.value == o);
    assert Fact(ps(i), After(t), CreateOutbox(Refund, o, CreatedNew));
  }

  /** A forward session never holds both a claim and a refund outbox, under any interleaving. */
  lemma ForwardClaimXorRefund(ps: Runs, t: Trace)
    requires Behaviour(ps, t)
    requires After(t).recovery.Complete? && After(t).recovery.value.direction == DepixToLightning
    ensures After(t).claim.Absent? || After(t).refund.Absent?
  {
    InvHolds(ps, t);
    if !After(t).claim.Absent? && !After(t).refund.Absent? {
      ClaimIsSettled(ps, t);
      RefundIsCanceled(ps, t);
    }
  }

  // Two databases, four files, one remote node.

  /** The cross-store invariant of a forward session whose runs all use the durable observer. */
  lemma CrossStore(ps: Runs, t: Trace)
    requires Behaviour(ps, t) && forall i :: ps(i).core
    requires After(t).recovery.Complete? && After(t).recovery.value.direction == DepixToLightning
    ensures !After(t).claim.Absent?
        ==> After(t).row in {SwapState.OutputSettled, SwapState.ClaimPending, SwapState.Settled}
            && After(t).reservation == Consumed && After(t).hold == Hold(InvoiceState.Settled)
    ensures After(t).row in {SwapState.ClaimPending, SwapState.Settled} ==> After(t).claim.Complete?
    ensures After(t).row != SwapState.Created ==> After(t).funding.Complete?
    ensures After(t).row in {SwapState.Refunding, SwapState.Refunded}
        ==> After(t).refund.Complete? && After(t).hold == Hold(InvoiceState.Canceled)
  {
    InvHolds(ps, t);
    if !After(t).claim.Absent? {
      ClaimIsSettled(ps, t);
    }
    if !After(t).refund.Absent? {
      RefundIsCanceled(ps, t);
    }
  }

  /** The durable row never loses rank. */
  lemma RowNeverFallsBack(ps: Runs, t: Trace, n: nat, m: nat)
    requires Behaviour(ps, t) && n <= m <= |t|
    ensures StateRank(After(t[..n]).row) <= StateRank(After(t[..m]).row)
  {
    WorldGrows(ps, t, n, m);
  }

  // What a success reports.

  /** A completed run reports what the files say, whether it ran afresh or replayed a claim. */
  lemma CompletedReportsFiles(ps: Runs, t: Trace, n: nat)
    requires Behaviour(ps, t) && n < |t| && t[n].Act? && t[n].call.Return? && t[n].call.outcome.Completed?
    ensures var w := After(t[..n]);
      && w.recovery.Complete? && w.funding.Complete? && w.claim.Complete?
      && t[n].call.outcome == Completed(w.recovery.value.direction, w.funding.value.txid, w.claim.value.txid)
      && w.hold == Hold(InvoiceState.Settled)
      && (ps(t[n].run).core ==> w.row == SwapState.Settled && w.reservation == Consumed)
  {
    hide Allowed, Behaviour, CompletedReady;
    PositionFacts(ps, t, n);
    var front, i := t[..n], t[n].run;
    var r, o, e := CompletedGives(ps(i), LogOf(front, i), t[n].call);
    HoldingFact(ps, front, i, r);
    PaymentFact(ps, front, i, r);
    OutboxFact(ps, front, i, Claim, o);
    LogOfMembers(front, i, ObserveSpend(Claim, o, Some(e)));
    StoredClaimBinds(ps, front);
    if ps(i).core {
      RowFact(ps, front, i, 7);
      ConsumedFact(ps, front, i);
      if !After(front).refund.Absent? {
        RefundIsCanceled(ps, front);
      }
    }
  }

  /** What the log of a run that reports completion holds. */
  lemma CompletedGives(p: Params, log: Log, c: Call) returns (r: Record, o: Outbox, e: SpendEvidence)
    requires c.Return? && c.outcome.Completed? && Allowed(p, log, c)
    ensures Holding(p, log, r) && SawPayment(log, r) && !p.kind.RefundRun?
    ensures HoldsOutbox(log, Claim, o) && ObserveSpend(Claim, o, Some(e)) in log
    ensures o.fundingTxid.Some? && c.outcome == Completed(RunDirection(p.kind), o.fundingTxid.value, e.txid)
    ensures p.core ==> RowReached(log, 7) && Consume(true, true) in log
  {
    r :| Holding(p, log, r) && CompletedReady(p, log, r, c.outcome);
    o, e :| HoldsOutbox(log, Claim, o) && ObserveSpend(Claim, o, Some(e)) in log
      && c.outcome.claimTxid == e.txid && o.fundingTxid == Some(c.outcome.fundingTxid);
  }

  /** A stored claim spends the stored funding transaction. */
  lemma StoredClaimBinds(ps: Runs, t: Trace)
    requires Inv(ps, t) && After(t).claim.Complete?
    ensures BindsStoredFunding(After(t), After(t).claim.value)
  {
    assert HasCreator(After(t), t, Claim);
    var j: nat, o :| Act(j, CreateOutbox(Claim, o, CreatedNew)) in t && After(t).claim.value == o;
    assert Fact(ps(j), After(t), CreateOutbox(Claim, o, CreatedNew));
  }

  /** A stored refund spends the stored funding transaction. */
  lemma StoredRefundBinds(ps: Runs, t: Trace)
    requires Inv(ps, t) && After(t).refund.Complete?
    ensures BindsStoredFunding(After(t), After(t).refund.value)
  {
    assert HasCreator(After(t), t, Refund);
    var j: nat, o :| Act(j, CreateOutbox(Refund, o, CreatedNew)) in t && After(t).refund.value == o;
    assert Fact(ps(j), After(t), CreateOutbox(Refund, o, CreatedNew));
  }

  lemma RefundGives(p: Params, log: Log, c: Call) returns (r: Record, o: Outbox, e: SpendEvidence)
    requires c.Return? && c.outcome.RefundDone? && Allowed(p, log, c)
    ensures Holding(p, log, r) && HoldsOutbox(log, Refund, o) && ObserveSpend(Refund, o, Some(e)) in log
    ensures c.outcome == RefundDone(e.fundingTxid, e.txid)
  {
    r :| Holding(p, log, r) && RefundDoneReady(p, log, r, c.outcome);
    o, e :| HoldsOutbox(log, Refund, o) && ObserveSpend(Refund, o, Some(e)) in log
      && c.outcome.refundTxid == e.txid && c.outcome.refundFundingTxid == e.fundingTxid;
  }

  /** A refund run that succeeds reports what the files say, on a canceled hold. */
  lemma RefundReportsFiles(ps: Runs, t: Trace, n: nat)
    requires Behaviour(ps, t) && n < |t| && t[n].Act? && t[n].call.Return? && t[n].call.outcome.RefundDone?
    ensures var w := After(t[..n]);
      && w.recovery.Complete? && w.funding.Complete? && w.refund.Complete?
      && t[n].call.outcome == RefundDone(w.funding.value.txid, w.refund.value.txid)
      && w.hold == Hold(InvoiceState.Canceled)
  {
    hide Allowed, Behaviour, RefundDoneReady;
    PositionFacts(ps, t, n);
    var front, i := t[..n], t[n].run;
    var r, o, e := RefundGives(ps(i), LogOf(front, i), t[n].call);
    HoldingFact(ps, front, i, r);
    OutboxFact(ps, front, i, Refund, o);
    LogOfMembers(front, i, ObserveSpend(Refund, o, Some(e)));
    StoredRefundBinds(ps, front);
    RefundIsCanceled(ps, front);
  }

  /** Replay is deterministic: any two successes of one session report the same direction,
      funding transaction and claim transaction. */
  lemma SuccessesAgree(ps: Runs, t: Trace, n: nat, m: nat)
    requires Behaviour(ps, t) && n < |t| && m < |t|
    requires t[n].Act? && t[n].call.Return? && t[n].call.outcome.Completed?
    requires t[m].Act? && t[m].call.Return? && t[m].call.outcome.Completed?
    ensures t[n].call.outcome == t[m].call.outcome
  {
    CompletedReportsFiles(ps, t, n);
    CompletedReportsFiles(ps, t, m);
    LaterWorld(ps, t, n);
    LaterWorld(ps, t, m);
  }

  /** The payment hash a Lightning call names. */
  function HashOf(c: Call): Option<Hash> {
    match c
    case Lookup(h, _) => Some(h)
    case CreateInvoice(h, _, _, _) => Some(h)
    case ObserveAccepted(h, _) => Some(h)
    case Pay(h, _, _) => Some(h)
    case SettleHold(h, _, _, _) => Some(h)
    case CancelHold(h, _, _) => Some(h)
    case Track(h, _) => Some(h)
    case _ => None
  }

  /** Every Lightning call of every run names the hash of the one stored record, which was
      complete before the call; a settlement carries that record's preimage. */
  lemma OneHash(ps: Runs, t: Trace, n: nat)
    requires Behaviour(ps, t) && n < |t| && t[n].Act? && HashOf(t[n].call).Some?
    ensures After(t[..n]).recovery.Complete? && HashOf(t[n].call).value == After(t[..n]).recovery.value.hash
    ensures After(t).recovery == After(t[..n]).recovery
    ensures t[n].call.SettleHold? ==> t[n].call.preimage == After(t[..n]).recovery.value.preimage
  {
    PositionFacts(ps, t, n);
    LaterWorld(ps, t, n);
    var log := LogOf(t[..n], t[n].run);
    forall r | Holding(ps(t[n].run), log, r) ensures After(t[..n]).recovery == Complete(r) {
      HoldingFact(ps, t[..n], t[n].run, r);
    }
  }
}
