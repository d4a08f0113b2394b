/** One run that replays a stored claim to the end, call for call, in either direction and under
    either observer. */
module SwapReplay {
  import opened Wrappers
  import opened Settlement
  import opened SwapCalls
  import opened SwapPlan
  import opened SwapWorld
  import opened SwapExecution

  predicate ClaimFits(c: Outbox) {
    c.kind == Claim && c.fundingTxid.Some? && c.fundingVout.Some?
  }

  /** What lets a run finish a session with a stored claim: the hold was not canceled, a payment is
      under way, and under the durable observer the row has left OUTPUT_SETTLED and the
      reservation was not released. */
  predicate CanFinish(p: Params, w: World) {
    && (w.hold == Hold(InvoiceState.Accepted) || w.hold == Hold(InvoiceState.Settled))
    && w.payment.Some?
    && (p.core ==> w.row in {SwapState.ClaimPending, SwapState.Settled} && w.reservation != Released)
  }

  /** A swap run that has not acted yet, well formed and matching the stored record, on a session
      whose record `r` and claim `c` are stored. */
  ghost predicate Fresh(ps: Runs, t: Trace, i: nat, r: Record, c: Outbox) {
    && Behaviour(ps, t) && LogOf(t, i) == [] && !ps(i).kind.RefundRun? && StartPoint(ps(i)) == Loading
    && After(t).recovery == Complete(r) && MatchesRequest(ps(i), r) && After(t).claim == Complete(c)
  }

  function SeenInvoice(p: Params, state: InvoiceState): Invoice {
    Invoice(state, p.terms.amountSats, true, Some(p.terms.amountSats), Some(1000))
  }

  function ClaimEvidence(c: Outbox): SpendEvidence
    requires c.fundingTxid.Some?
  {
    SpendEvidence(c.txid, c.fundingTxid.value, 1, true)
  }

  function ReplayOutcome(p: Params, c: Outbox): Outcome
    requires c.fundingTxid.Some?
  {
    Completed(RunDirection(p.kind), c.fundingTxid.value, c.txid)
  }

  function Replayer(p: Params, r: Record, state: InvoiceState): Known {
    NewKnown(r).(invoice := Some(SeenInvoice(p, state)))
  }

  function ReplayerSaw(p: Params, r: Record, c: Outbox, state: InvoiceState): Known
    requires c.fundingTxid.Some?
  {
    Replayer(p, r, state).(spend := Some(ClaimEvidence(c)))
  }

  function ReplayerHeld(p: Params, r: Record, c: Outbox, state: InvoiceState): Known
    requires c.fundingTxid.Some?
  {
    ReplayerSaw(p, r, c, state).(held := Some(SeenInvoice(p, state)))
  }

  // Opening.

  lemma LookingUpIsAllowed(p: Params, log: Log, r: Record, a: InvoiceAnswer)
    requires Holding(p, log, r)
    ensures Allowed(p, log, Lookup(r.hash, a))
  {
    hide MatchesRequest;
  }

  lemma OpeningSteps(p: Params, r: Record, c: Outbox, state: InvoiceState)
    requires !p.kind.RefundRun? && MatchesRequest(p, r) && ClaimFits(c) && (state.Accepted? || state.Settled?)
    ensures AfterLoading(p, Got(r)) == Loaded(r)
    ensures OnLookup(p, NewKnown(r), FindInvoice, Found(SeenInvoice(p, state)), End)
         == Doing(Replayer(p, r, state), Do(FindClaim, End))
    ensures OnOutbox(p, Replayer(p, r, state), FindClaim, Got(c), End) == Doing(Replayer(p, r, state), ReplayPlan(c))
  {
    hide MatchesRequest, Advance, ReplayPlan;
  }

  /** Load the record. */
  lemma ReplayLoads(ps: Runs, t: Trace, i: nat, r: Record, c: Outbox) returns (u: Trace)
    requires Fresh(ps, t, i, r, c) && ClaimFits(c)
    ensures Goes(ps, t, i, u) && After(u) == After(t) && Holding(ps(i), LogOf(u, i), r)
    ensures Stands(ps, u, i, Loaded(r))
  {
    hide Behaviour, Execution, Follows, IsAt, Allowed, StartPoint, Step, Asks, AfterLoading, MatchesRequest;
    NotStarted(ps, t, i);
    LoadingSteps(ps(i));
    OpeningSteps(ps(i), r, c, InvoiceState.Settled);
    u := Looks(ps, t, i, Loading, ReadRecovery(Got(r)));
  }

  /** Look the invoice up and read the stored claim. */
  lemma ReplayFinds(ps: Runs, t: Trace, i: nat, r: Record, c: Outbox, state: InvoiceState) returns (u: Trace)
    requires Stands(ps, t, i, Loaded(r)) && Holding(ps(i), LogOf(t, i), r) && !ps(i).kind.RefundRun?
    requires After(t).hold == Hold(state) && (state.Accepted? || state.Settled?)
    requires After(t).claim == Complete(c) && ClaimFits(c)
    ensures Goes(ps, t, i, u) && After(u) == After(t) && ReadOutbox(Claim, Got(c)) in LogOf(u, i)
    ensures Stands(ps, u, i, Doing(Replayer(ps(i), r, state), ReplayPlan(c)))
  {
    hide Behaviour, Execution, Follows, IsAt, Allowed, Step, Asks, OnLookup, OnOutbox, MatchesRequest, ReplayPlan,
      Goes, Stands;
    OpeningSteps(ps(i), r, c, state);
    LookingUpIsAllowed(ps(i), LogOf(t, i), r, Found(SeenInvoice(ps(i), state)));
    LookupSteps(ps(i), NewKnown(r), FindInvoice, End);
    FindSteps(ps(i), Replayer(ps(i), r, state), FindClaim, Claim, End);
    u := ActsThenLooks(ps, t, i, Loaded(r), Lookup(r.hash, Found(SeenInvoice(ps(i), state))),
                       ReadOutbox(Claim, Got(c)));
  }

  lemma ReplayOpens(ps: Runs, t: Trace, i: nat, r: Record, c: Outbox) returns (u: Trace)
    requires Fresh(ps, t, i, r, c) && ClaimFits(c) && CanFinish(ps(i), After(t))
    ensures Goes(ps, t, i, u) && After(u) == After(t) && Holding(ps(i), LogOf(u, i), r)
    ensures Stands(ps, u, i, Doing(Replayer(ps(i), r, After(t).hold.state), ReplayPlan(c)))
    ensures ReadOutbox(Claim, Got(c)) in LogOf(u, i)
  {
    hide Behaviour, Execution, Follows, IsAt, Allowed, StartPoint, Step, Asks, MatchesRequest, ReplayPlan, Stands;
    var v := ReplayLoads(ps, t, i, r, c);
    u := ReplayFinds(ps, v, i, r, c, After(t).hold.state);
  }

  // Broadcasting the claim again.

  lemma ResendingIsAllowed(p: Params, log: Log, r: Record, c: Outbox)
    requires !p.kind.RefundRun? && Holding(p, log, r) && ReadOutbox(Claim, Got(c)) in log && c.kind == Claim
    ensures Allowed(p, log, Broadcast(Claim, c, true))
  {
    hide MatchesRequest;
    assert BroadcastReady(p, log, r, Claim, c);
  }

  lemma SeeingClaimIsAllowed(p: Params, log: Log, c: Outbox, e: Option<SpendEvidence>)
    requires ReadOutbox(Claim, Got(c)) in log && Broadcast(Claim, c, true) in log
    ensures Allowed(p, log, ObserveSpend(Claim, c, e))
  {
    assert HoldsOutbox(log, Claim, c) && Sent(log, Claim, c);
  }

  lemma ReplayResends(ps: Runs, t: Trace, i: nat, r: Record, c: Outbox, state: InvoiceState) returns (u: Trace)
    requires !ps(i).kind.RefundRun? && Holding(ps(i), LogOf(t, i), r) && ClaimFits(c)
    requires Stands(ps, t, i, Doing(Replayer(ps(i), r, state), ReplayPlan(c)))
      && ReadOutbox(Claim, Got(c)) in LogOf(t, i)
    ensures Goes(ps, t, i, u) && After(u) == After(t) && Broadcast(Claim, c, true) in LogOf(u, i)
    ensures Stands(ps, u, i, Doing(Replayer(ps(i), r, state), ReplayPlan(c).rest))
  {
    hide Behaviour, Execution, Follows, IsAt, Allowed, Step, Asks, Advance, MatchesRequest, Stands, Goes;
    var k := Replayer(ps(i), r, state);
    SendSteps(ps(i), k, Claim, c, ReplayPlan(c).rest);
    AdvanceTo(ps(i), k, SeeSpend(Claim, c, false), AfterReplaySend(c));
    ResendingIsAllowed(ps(i), LogOf(t, i), r, c);
    u := Acts(ps, t, i, Doing(k, ReplayPlan(c)), Broadcast(Claim, c, true));
  }

  /** Replay the stored claim until it is confirmed. */
  lemma ReplaySeesSpend(ps: Runs, t: Trace, i: nat, r: Record, c: Outbox, state: InvoiceState) returns (u: Trace)
    requires ClaimFits(c) && Stands(ps, t, i, Doing(Replayer(ps(i), r, state), ReplayPlan(c).rest))
    requires ReadOutbox(Claim, Got(c)) in LogOf(t, i) && Broadcast(Claim, c, true) in LogOf(t, i)
    ensures Goes(ps, t, i, u) && After(u) == After(t) && ObserveSpend(Claim, c, Some(ClaimEvidence(c))) in LogOf(u, i)
    ensures Stands(ps, u, i, Doing(ReplayerSaw(ps(i), r, c, state), AfterReplaySend(c)))
  {
    hide Behaviour, Execution, Follows, IsAt, Allowed, Step, Asks, Advance, Stands, Goes;
    var k := Replayer(ps(i), r, state);
    SeeSpendSteps(ps(i), k, Claim, c, false, AfterReplaySend(c));
    AdvanceTo(ps(i), ReplayerSaw(ps(i), r, c, state), SeeHold, AfterReplayHold(c));
    SeeingClaimIsAllowed(ps(i), LogOf(t, i), c, Some(ClaimEvidence(c)));
    u := Acts(ps, t, i, Doing(k, ReplayPlan(c).rest), ObserveSpend(Claim, c, Some(ClaimEvidence(c))));
  }

  // Settling.

  lemma SeeingHoldIsAllowed(p: Params, log: Log, r: Record, v: Invoice)
    requires Holding(p, log, r) && !p.kind.RefundRun?
    ensures Allowed(p, log, ObserveAccepted(r.hash, Some(v)))
  {
    hide MatchesRequest;
  }

  lemma TipFits(p: Params, k: Known, state: InvoiceState, rest: Tasks)
    requires state.Accepted? || state.Settled?
    ensures var v := SeenInvoice(p, state);
      OnTip(p, k, v, Some(0), rest) == Advance(p, k.(held := Some(v), tip := 0), rest)
  {
    hide Advance;
  }

  /** See the hold. */
  lemma ReplaySeesHold(ps: Runs, t: Trace, i: nat, r: Record, c: Outbox, state: InvoiceState) returns (u: Trace)
    requires !ps(i).kind.RefundRun? && Holding(ps(i), LogOf(t, i), r) && ClaimFits(c)
    requires state.Accepted? || state.Settled?
    requires Stands(ps, t, i, Doing(ReplayerSaw(ps(i), r, c, state), AfterReplaySend(c)))
      && After(t).hold == Hold(state)
    ensures Goes(ps, t, i, u) && After(u) == After(t)
    ensures ObserveAccepted(r.hash, Some(SeenInvoice(ps(i), state))) in LogOf(u, i)
    ensures Stands(ps, u, i, Advance(ps(i), ReplayerHeld(ps(i), r, c, state), AfterReplayHold(c)))
  {
    hide Behaviour, Execution, Follows, IsAt, Allowed, Step, Asks, Advance, OnTip, MatchesRequest, Stands, Goes;
    var k, v := ReplayerSaw(ps(i), r, c, state), SeenInvoice(ps(i), state);
    HoldSteps(ps(i), k, AfterReplayHold(c));
    TipSteps(ps(i), k, v, AfterReplayHold(c));
    TipFits(ps(i), k, state, AfterReplayHold(c));
    SeeingHoldIsAllowed(ps(i), LogOf(t, i), r, v);
    u := ActsThenLooks(ps, t, i, Doing(k, AfterReplaySend(c)), ObserveAccepted(r.hash, Some(v)), Tip(Some(0)));
  }

  lemma SettlingIsAllowed(p: Params, log: Log, r: Record, c: Outbox, v: Invoice)
    requires !p.kind.RefundRun? && Holding(p, log, r) && ClaimFits(c)
    requires ReadOutbox(Claim, Got(c)) in log && ObserveSpend(Claim, c, Some(ClaimEvidence(c))) in log
    requires ObserveAccepted(r.hash, Some(v)) in log && IsHeld(p, v)
    ensures Allowed(p, log, SettleHold(r.hash, r.preimage, true, true))
  {
    hide MatchesRequest;
    assert SawHold(p, log, r) && HoldsOutbox(log, Claim, c) && SawSpend(log, Claim, c);
    assert SettleReady(p, log, r);
  }

  /** Settle the hold, unless it already is. */
  lemma ReplaySettles(ps: Runs, t: Trace, i: nat, r: Record, c: Outbox, state: InvoiceState) returns (u: Trace)
    requires !ps(i).kind.RefundRun? && Holding(ps(i), LogOf(t, i), r) && ClaimFits(c)
    requires state.Accepted? || state.Settled?
    requires Stands(ps, t, i, Advance(ps(i), ReplayerHeld(ps(i), r, c, state), AfterReplayHold(c)))
    requires ReadOutbox(Claim, Got(c)) in LogOf(t, i) && ObserveSpend(Claim, c, Some(ClaimEvidence(c))) in LogOf(t, i)
    requires ObserveAccepted(r.hash, Some(SeenInvoice(ps(i), state))) in LogOf(t, i) && After(t).hold == Hold(state)
    ensures Goes(ps, t, i, u) && After(u) == After(t).(hold := Hold(InvoiceState.Settled))
      && SettledHold(LogOf(u, i), r)
    ensures Stands(ps, u, i, Doing(ReplayerHeld(ps(i), r, c, state), AfterReplayHold(c).rest))
  {
    hide Behaviour, Follows, IsAt, Allowed, Step, Asks, Advance, MatchesRequest, Stands;
    var k := ReplayerHeld(ps(i), r, c, state);
    AdvanceTo(ps(i), k, TrackSuccess, AfterReplayTrack(c));
    if state.Settled? {
      AdvancePast(ps(i), k, SettleInvoice, AfterReplayHold(c).rest);
      u := t;
      AlreadyThere(ps, t, i, Doing(k, AfterReplayHold(c).rest));
    } else {
      AdvanceTo(ps(i), k, SettleInvoice, AfterReplayHold(c).rest);
      SettleSteps(ps(i), k, AfterReplayHold(c).rest);
      SettlingIsAllowed(ps(i), LogOf(t, i), r, c, SeenInvoice(ps(i), state));
      u := Acts(ps, t, i, Doing(k, AfterReplayHold(c)), SettleHold(r.hash, r.preimage, true, true));
    }
  }

  lemma AlreadyThere(ps: Runs, t: Trace, i: nat, at: Point)
    requires Stands(ps, t, i, at)
    ensures Goes(ps, t, i, t)
  {
    hide Execution, Follows, IsAt;
  }

  lemma TrackingIsAllowed(p: Params, log: Log, r: Record)
    requires Holding(p, log, r) && SettledHold(log, r)
    ensures Allowed(p, log, Track(r.hash, Some(Payment(Succeeded, Some(r.preimage)))))
  {
    hide MatchesRequest, SettledHold;
  }

  /** See the payment succeeded. */
  lemma ReplayTracks(ps: Runs, t: Trace, i: nat, r: Record, c: Outbox, state: InvoiceState) returns (u: Trace)
    requires Holding(ps(i), LogOf(t, i), r) && SettledHold(LogOf(t, i), r) && ClaimFits(c)
    requires Stands(ps, t, i, Doing(ReplayerHeld(ps(i), r, c, state), AfterReplayHold(c).rest))
      && !ps(i).kind.RefundRun?
    requires After(t).hold == Hold(InvoiceState.Settled) && After(t).payment.Some?
    ensures Goes(ps, t, i, u) && After(u) == After(t).(payment := Some(Succeeded)) && SawPayment(LogOf(u, i), r)
    ensures Stands(ps, u, i, Advance(ps(i), ReplayerHeld(ps(i), r, c, state), AfterReplayTrack(c)))
  {
    hide Behaviour, Execution, Follows, IsAt, Allowed, Step, Asks, Advance, SettledHold, MatchesRequest, Stands, Goes;
    var k := ReplayerHeld(ps(i), r, c, state);
    TrackSteps(ps(i), k, TrackSuccess, AfterReplayTrack(c));
    TrackingIsAllowed(ps(i), LogOf(t, i), r);
    u := HappensThenActs(ps, t, i, Doing(k, AfterReplayHold(c).rest), MovePayment(Succeeded),
                         Track(r.hash, Some(Payment(Succeeded, Some(r.preimage)))));
  }

  // Closing, under the durable observer.

  lemma ConsumingIsAllowed(p: Params, log: Log, r: Record)
    requires p.core && Holding(p, log, r) && SawPayment(log, r)
    ensures Allowed(p, log, Consume(true, true))
  {
    hide MatchesRequest, SawPayment;
  }

  /** A row already past OUTPUT_SETTLED is only reconciled. */
  lemma RowPassed(p: Params, k: Known, row: SwapState, rest: Tasks)
    requires row in {SwapState.ClaimPending, SwapState.Settled}
    ensures OnRow(p, k, OutputSettledPhase, Some(row), rest) == Doing(k, Do(ConsumeHeld(false), rest))
    ensures OnRow(p, k, SettledPhase, Some(row), rest)
         == if row == SwapState.Settled then Advance(p, k, rest)
            else Doing(k, Do(Task.Move(SettledPhase, SwapState.ClaimPending, SwapState.Settled), rest))
  {
    hide Advance;
  }

  /** Reconcile the reservation. */
  lemma ReplayConsumes(ps: Runs, t: Trace, i: nat, r: Record, k: Known, rest: Tasks) returns (u: Trace)
    requires ps(i).core && Holding(ps(i), LogOf(t, i), r) && SawPayment(LogOf(t, i), r)
    requires Stands(ps, t, i, Doing(k, Do(Phase(OutputSettledPhase), rest)))
    requires After(t).reservation != Released && After(t).row in {SwapState.ClaimPending, SwapState.Settled}
    ensures Goes(ps, t, i, u) && After(u) == After(t).(reservation := Consumed) && Consume(true, true) in LogOf(u, i)
    ensures Stands(ps, u, i, Advance(ps(i), k, rest))
  {
    hide Behaviour, Execution, Follows, IsAt, Allowed, Step, Asks, Advance, OnRow, MatchesRequest, Stands, Goes;
    var read := ReadRow(Some(After(t).row));
    PhaseSteps(ps(i), k, OutputSettledPhase, rest);
    RowPassed(ps(i), k, After(t).row, rest);
    ConsumeSteps(ps(i), k, false, rest);
    ConsumingIsAllowed(ps(i), LogOf(t, i) + [read], r);
    u := LooksThenActs(ps, t, i, Doing(k, Do(Phase(OutputSettledPhase), rest)), read, Consume(true, true));
  }

  lemma ClosingIsAllowed(p: Params, log: Log, r: Record, c: Outbox, e: SpendEvidence)
    requires p.core && Holding(p, log, r) && ReadOutbox(Claim, Got(c)) in log && ObserveSpend(Claim, c, Some(e)) in log
    requires ReadRow(Some(SwapState.ClaimPending)) in log
    ensures Allowed(p, log, Transition(SwapState.ClaimPending, SwapState.Settled, true, true))
  {
    hide MatchesRequest;
    assert HoldsOutbox(log, Claim, c) && SawSpend(log, Claim, c);
    assert RowReady(p, log, r, SwapState.Settled);
  }

  lemma ClosedRow(log: Log, c: Call)
    requires c in log
    requires c == ReadRow(Some(SwapState.Settled))
        || c == Transition(SwapState.ClaimPending, SwapState.Settled, true, true)
    ensures RowReached(log, 7)
  {
  }

  /** Close the row, unless it already is. */
  lemma ReplayCloses(ps: Runs, t: Trace, i: nat, r: Record, c: Outbox, k: Known, rest: Tasks) returns (u: Trace)
    requires ps(i).core && Holding(ps(i), LogOf(t, i), r) && ClaimFits(c)
    requires ReadOutbox(Claim, Got(c)) in LogOf(t, i) && ObserveSpend(Claim, c, Some(ClaimEvidence(c))) in LogOf(t, i)
    requires Stands(ps, t, i, Doing(k, Do(Phase(SettledPhase), rest)))
    requires After(t).row in {SwapState.ClaimPending, SwapState.Settled}
    ensures Goes(ps, t, i, u) && RowReached(LogOf(u, i), 7) && Stands(ps, u, i, Advance(ps(i), k, rest))
  {
    hide Behaviour, Execution, Follows, IsAt, Allowed, Step, Asks, Advance, OnRow, MatchesRequest, Stands, Goes,
      RowReached;
    var at, read := Doing(k, Do(Phase(SettledPhase), rest)), ReadRow(Some(After(t).row));
    PhaseSteps(ps(i), k, SettledPhase, rest);
    RowPassed(ps(i), k, After(t).row, rest);
    if After(t).row == SwapState.ClaimPending {
      var close := Transition(SwapState.ClaimPending, SwapState.Settled, true, true);
      MoveSteps(ps(i), k, SettledPhase, SwapState.ClaimPending, SwapState.Settled, rest);
      ClosingIsAllowed(ps(i), LogOf(t, i) + [read], r, c, ClaimEvidence(c));
      u := LooksThenActs(ps, t, i, at, read, close);
      ClosedRow(LogOf(u, i), close);
    } else {
      u := Looks(ps, t, i, at, read);
      ClosedRow(LogOf(u, i), read);
    }
  }

  // The whole run.

  /** What a replay has in its log when it is about to close. */
  ghost predicate Paid(p: Params, log: Log, r: Record, c: Outbox)
    requires c.fundingTxid.Some?
  {
    && Holding(p, log, r) && SettledHold(log, r) && SawPayment(log, r)
    && ReadOutbox(Claim, Got(c)) in log && ObserveSpend(Claim, c, Some(ClaimEvidence(c))) in log
  }

  lemma PaidStays(p: Params, before: Log, after: Log, r: Record, c: Outbox)
    requires Extends(before, after) && c.fundingTxid.Some? && Paid(p, before, r, c)
    ensures Paid(p, after, r, c)
  {
    hide MatchesRequest;
    SettledHoldGrows(before, after, r);
  }

  lemma ReportingIsAllowed(p: Params, log: Log, r: Record, c: Outbox)
    requires !p.kind.RefundRun? && ClaimFits(c) && Paid(p, log, r, c)
    requires p.core ==> RowReached(log, 7) && Consume(true, true) in log
    ensures Allowed(p, log, Return(ReplayOutcome(p, c)))
  {
    hide MatchesRequest, SettledHold, SawPayment, RowReached;
    assert HoldsOutbox(log, Claim, c);
    assert CompletedReady(p, log, r, ReplayOutcome(p, c));
  }

  /** A fresh run sees its claim spend the output. */
  lemma ReplaySeen(ps: Runs, t: Trace, i: nat, r: Record, c: Outbox) returns (u: Trace)
    requires Fresh(ps, t, i, r, c) && ClaimFits(c) && CanFinish(ps(i), After(t))
    ensures Goes(ps, t, i, u) && After(u) == After(t) && Holding(ps(i), LogOf(u, i), r)
    ensures ReadOutbox(Claim, Got(c)) in LogOf(u, i) && ObserveSpend(Claim, c, Some(ClaimEvidence(c))) in LogOf(u, i)
    ensures Stands(ps, u, i, Doing(ReplayerSaw(ps(i), r, c, After(t).hold.state), AfterReplaySend(c)))
  {
    hide Behaviour, Execution, Follows, IsAt, Allowed, Advance, Step, Asks, ReplayPlan, Stands, MatchesRequest,
      StartPoint;
    var state := After(t).hold.state;
    var v := ReplayOpens(ps, t, i, r, c);
    var w := ReplayResends(ps, v, i, r, c, state);
    assert Holding(ps(i), LogOf(w, i), r);
    u := ReplaySeesSpend(ps, w, i, r, c, state);
    assert Holding(ps(i), LogOf(u, i), r);
  }

  lemma ReplaySettled(ps: Runs, t: Trace, i: nat, r: Record, c: Outbox) returns (u: Trace)
    requires Fresh(ps, t, i, r, c) && ClaimFits(c) && CanFinish(ps(i), After(t))
    ensures Goes(ps, t, i, u) && Holding(ps(i), LogOf(u, i), r) && SettledHold(LogOf(u, i), r)
    ensures After(u) == After(t).(hold := Hold(InvoiceState.Settled))
    ensures ReadOutbox(Claim, Got(c)) in LogOf(u, i) && ObserveSpend(Claim, c, Some(ClaimEvidence(c))) in LogOf(u, i)
    ensures Stands(ps, u, i, Doing(ReplayerHeld(ps(i), r, c, After(t).hold.state), AfterReplayHold(c).rest))
  {
    hide Behaviour, Execution, Follows, IsAt, Allowed, Advance, Step, Asks, ReplayPlan, Stands, SettledHold,
      MatchesRequest, StartPoint;
    var state := After(t).hold.state;
    var v := ReplaySeen(ps, t, i, r, c);
    var w := ReplaySeesHold(ps, v, i, r, c, state);
    assert Holding(ps(i), LogOf(w, i), r);
    u := ReplaySettles(ps, w, i, r, c, state);
  }

  lemma ReplayPays(ps: Runs, t: Trace, i: nat, r: Record, c: Outbox) returns (u: Trace)
    requires Fresh(ps, t, i, r, c) && ClaimFits(c) && CanFinish(ps(i), After(t))
    ensures Goes(ps, t, i, u) && Paid(ps(i), LogOf(u, i), r, c)
    ensures After(u) == After(t).(hold := Hold(InvoiceState.Settled), payment := Some(Succeeded))
    ensures Stands(ps, u, i, Advance(ps(i), ReplayerHeld(ps(i), r, c, After(t).hold.state), AfterReplayTrack(c)))
  {
    hide Behaviour, Execution, Follows, IsAt, Allowed, Advance, Stands, SettledHold, MatchesRequest, StartPoint;
    var v := ReplaySettled(ps, t, i, r, c);
    assert Holding(ps(i), LogOf(v, i), r);
    u := ReplayTracks(ps, v, i, r, c, After(t).hold.state);
    SettledHoldGrows(LogOf(v, i), LogOf(u, i), r);
  }

  lemma ReplayClosesBoth(ps: Runs, t: Trace, i: nat, r: Record, c: Outbox, k: Known, rest: Tasks) returns (u: Trace)
    requires ps(i).core && ClaimFits(c) && Paid(ps(i), LogOf(t, i), r, c)
    requires Stands(ps, t, i, Doing(k, Do(Phase(OutputSettledPhase), Do(Phase(SettledPhase), rest))))
    requires After(t).row in {SwapState.ClaimPending, SwapState.Settled} && After(t).reservation != Released
    ensures Goes(ps, t, i, u) && Paid(ps(i), LogOf(u, i), r, c)
    ensures RowReached(LogOf(u, i), 7) && Consume(true, true) in LogOf(u, i)
    ensures Stands(ps, u, i, Advance(ps(i), k, rest))
  {
    hide Behaviour, Execution, Follows, IsAt, Allowed, Step, Asks, Advance, Stands, SettledHold, SawPayment,
      MatchesRequest, RowReached;
    AdvanceTo(ps(i), k, Phase(SettledPhase), rest);
    var v := ReplayConsumes(ps, t, i, r, k, Do(Phase(SettledPhase), rest));
    PaidStays(ps(i), LogOf(t, i), LogOf(v, i), r, c);
    u := ReplayCloses(ps, v, i, r, c, k, rest);
    PaidStays(ps(i), LogOf(v, i), LogOf(u, i), r, c);
  }

  /** Both closing phases, which the no-op observer passes over. */
  lemma ReplayEnds(ps: Runs, t: Trace, i: nat, r: Record, c: Outbox, k: Known) returns (u: Trace)
    requires !ps(i).kind.RefundRun? && ClaimFits(c) && Paid(ps(i), LogOf(t, i), r, c)
    requires Stands(ps, t, i, Advance(ps(i), k, AfterReplayTrack(c)))
    requires ps(i).core ==>
      After(t).row in {SwapState.ClaimPending, SwapState.Settled} && After(t).reservation != Released
    ensures Goes(ps, t, i, u) && Paid(ps(i), LogOf(u, i), r, c)
    ensures ps(i).core ==> RowReached(LogOf(u, i), 7) && Consume(true, true) in LogOf(u, i)
    ensures Stands(ps, u, i, Doing(k, Do(ReportReplay(c), End)))
  {
    hide Behaviour, Execution, Follows, IsAt, Allowed, Step, Asks, Advance, Stands, MatchesRequest, RowReached, Paid;
    var last := Do(ReportReplay(c), End);
    AdvanceTo(ps(i), k, ReportReplay(c), End);
    if ps(i).core {
      AdvanceTo(ps(i), k, Phase(OutputSettledPhase), AfterReplayTrack(c).rest);
      u := ReplayClosesBoth(ps, t, i, r, c, k, last);
    } else {
      AdvancePast(ps(i), k, Phase(OutputSettledPhase), AfterReplayTrack(c).rest);
      AdvancePast(ps(i), k, Phase(SettledPhase), last);
      u := t;
      AlreadyThere(ps, t, i, Doing(k, last));
    }
  }

  /** A session that can be finished is finished by one new run making exactly its plan's calls. */
  lemma ReplayCompletes(ps: Runs, t: Trace, i: nat, r: Record, c: Outbox) returns (u: Trace)
    requires Fresh(ps, t, i, r, c) && ClaimFits(c) && CanFinish(ps(i), After(t))
    ensures Goes(ps, t, i, u) && Follows(ps(i), LogOf(u, i)) && u != []
    ensures u[|u| - 1] == Act(i, Return(ReplayOutcome(ps(i), c)))
  {
    hide Behaviour, Execution, Follows, IsAt, Allowed, Advance, Step, Asks, MatchesRequest, StartPoint, Paid,
      RowReached;
    var k := ReplayerHeld(ps(i), r, c, After(t).hold.state);
    var v := ReplayPays(ps, t, i, r, c);
    var w := ReplayEnds(ps, v, i, r, c, k);
    ReportingIsAllowed(ps(i), LogOf(w, i), r, c);
    ReplayReports(ps(i), k, c);
    u := Acts(ps, w, i, Doing(k, Do(ReportReplay(c), End)), Return(ReplayOutcome(ps(i), c)));
  }

  lemma ReplayReports(p: Params, k: Known, c: Outbox)
    requires c.fundingTxid.Some? && k.spend == Some(ClaimEvidence(c))
    ensures Asks(p, Doing(k, Do(ReportReplay(c), End)), Return(ReplayOutcome(p, c)))
  {
  }
}
