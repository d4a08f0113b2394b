/** Task by task: each step of the plan fails exactly on an answer that is fatal by the log, and the
    log goes on telling where the run is. */
module SwapJudged {
  import opened Wrappers
  import opened Settlement
  import opened SwapCalls
  import opened SwapPlan
  import opened SwapFailure
  import opened SwapTells

  /** Most calls tell the run nothing it keeps, and complete nothing. */
  lemma PlainCall(p: Params, log: Log, k: Known, c: Call)
    requires !c.ObserveFunding? && !c.ObserveSpend? && !c.ReadOutbox? && !c.FinishOutbox?
    ensures SameMemory(Learns(p, log, k, c), k)
    ensures !c.Transition? && !c.ReadRow? && !c.Track? ==> !Completes(p, log, c)
  {
    hide IsFresh, PhaseAsked;
  }

  /** What being at a task says. */
  lemma Opens(p: Params, log: Log, k: Known, a: Task, rest: Tasks)
    requires Tells(p, log, Doing(k, Do(a, rest)))
    ensures Fits(p, log, k, a) && Recalls(p, log, k) && log != [] && Ordered(p, IsFresh(log), Do(a, rest))
    ensures if rest.End? then EndsPlan(a) else Linked(p, IsFresh(log), a, rest.first)
    ensures a.Phase? ==> p.core
  {
    hide Recalls, Linked, EndsPlan, IsFresh;
  }

  lemma ComesTo(p: Params, log: Log, k: Known, tasks: Tasks)
    requires Ordered(p, IsFresh(log), tasks) && Recalls(p, log, k) && Fits(p, log, k, tasks.first)
    requires tasks.first.Phase? ==> p.core
    ensures Tells(p, log, Doing(k, tasks))
  {
    hide Recalls, Ordered, IsFresh;
  }

  lemma FailJudged(p: Params, log: Log, at: Point, c: Call, k: Known)
    requires Wrong(p, log, c) && Step(p, at, c) == Fail(k) && Recalls(p, log, k)
    ensures Judged(p, log, at, c)
  {
    hide Wrong, Step, Completes, Proven, Recalls, FailPoint;
    FailsThere(p, log, k);
  }

  lemma PassJudged(p: Params, log: Log, k: Known, a: Task, rest: Tasks, c: Call, k2: Known)
    requires Tells(p, log, Doing(k, Do(a, rest))) && rest.Do?
    requires Step(p, Doing(k, Do(a, rest)), c) == Advance(p, k2, rest) && !Wrong(p, log, c)
    requires c == ReadOutbox(Claim, Missing) ==> p.kind.RefundRun? || IsFresh(log)
    requires (c.Lookup? ==> p.kind.RefundRun?) && SameMemory(Learns(p, log, k, c), k2)
    requires Fits(p, log + [c], k2, rest.first)
    requires NearReport(p, IsFresh(log), rest.first) <==> Completes(p, log, c)
    ensures Judged(p, log, Doing(k, Do(a, rest)), c)
  {
    hide Step, Advance, Tells, Fits, Completes, Proven, Wrong, NearReport, Learns, SameMemory, IsFresh;
    Passes(p, log, k, a, rest, c, k2);
  }

  /** The task goes on in another form. */
  lemma StayJudged(p: Params, log: Log, k: Known, a: Task, rest: Tasks, c: Call, k2: Known, b: Task)
    requires Tells(p, log, Doing(k, Do(a, rest))) && rest.Do? && Base(a) == Base(b) && !b.Phase?
    requires Step(p, Doing(k, Do(a, rest)), c) == Doing(k2, Do(b, rest))
    requires !Wrong(p, log, c) && !Completes(p, log, c)
    requires c == ReadOutbox(Claim, Missing) ==> p.kind.RefundRun? || IsFresh(log)
    requires (c.Lookup? ==> p.kind.RefundRun?) && SameMemory(Learns(p, log, k, c), k2)
    requires Fits(p, log + [c], k2, b)
    ensures Judged(p, log, Doing(k, Do(a, rest)), c)
  {
    hide Step, Fits, Completes, Proven, Wrong, Learns, SameMemory, IsFresh, Base, Recalls, Tells, Ordered, Linked;
    Opens(p, log, k, a, rest);
    SnocSays(p, log, c);
    SnocRecalls(p, log, k, c);
    SameRecalls(p, log + [c], Learns(p, log, k, c), k2);
    if p.kind.RefundRun? {
      RefundOrdered(p, Do(a, rest), IsFresh(log), IsFresh(log + [c]));
    }
    BaseOrdered(p, IsFresh(log + [c]), a, b, rest);
    ComesTo(p, log + [c], k2, Do(b, rest));
  }

  /** The answers that are wrong just when they report a failure. */
  lemma PlainWrong(p: Params, log: Log, c: Call)
    ensures c.Broadcast? ==> (Wrong(p, log, c) <==> !c.ok)
    ensures c.Transition? ==> (Wrong(p, log, c) <==> !c.ok)
    ensures c.Confirm? ==> (Wrong(p, log, c) <==> !c.ok)
    ensures c.SettleHold? ==> (Wrong(p, log, c) <==> !c.ok)
    ensures c.ObserveAccepted? ==> (Wrong(p, log, c) <==> c.invoice.None?)
    ensures c.CreateOutbox? ==> (Wrong(p, log, c) <==> c.created.CreateFailed?)
    ensures c.PrepareSpend? ==> (Wrong(p, log, c) <==> c.prepared.None? || c.prepared.value.kind != c.kind)
  {
    hide IsFresh, SettledAtStart, PhaseAsked;
  }

  lemma BaseOfStoring(path: Kind, o: Outbox)
    ensures Base(Store(path, o)) == Finding(path)
    ensures Base(FinishStore(path, o)) == Finding(path) && Base(Reread(path, o)) == Finding(path)
    ensures Base(Finding(path)) == Finding(path)
    ensures Base(MakeClaim) == Finding(Claim) && Base(MakeRefund) == Finding(Refund)
  {
  }

  lemma StoreFits(p: Params, log: Log, k: Known, path: Kind, o: Outbox)
    requires log != []
    ensures Fits(p, log, k, Store(path, o))
    ensures Last(log) == CreateOutbox(path, o, CreatedNew) ==> Fits(p, log, k, FinishStore(path, o))
    ensures Last(log) == CreateOutbox(path, o, AlreadyExists) ==> Fits(p, log, k, Reread(path, o))
  {
    hide SettledAtStart, PhaseAsked;
  }

  lemma RefundReads(p: Params, log: Log, k: Known, path: Kind, x: ReadResult<Outbox>)
    requires p.kind.RefundRun?
    ensures SameMemory(Learns(p, log, k, ReadOutbox(path, x)),
                       if path.Funding? && x.Got? then k.(fundingBox := Some(x.value)) else k)
    ensures !Completes(p, log, ReadOutbox(path, x))
  {
  }

  lemma LookLearns(p: Params, log: Log, k: Known, x: ReadResult<Outbox>)
    requires p.kind.ForwardRun? && Last(log).Height? && SettledAtStart(log)
    ensures SameMemory(Learns(p, log, k, ReadOutbox(Funding, x)), k)
    ensures !Completes(p, log, ReadOutbox(Funding, x))
  {
    hide IsFresh, SettledAtStart;
  }

  lemma SightLearns(p: Params, log: Log, k: Known, txid: Txid, vout: nat, e: Option<FundingEvidence>)
    ensures SameMemory(Learns(p, log, k, ObserveFunding(txid, vout, e)), if e.Some? then k.(funding := e) else k)
    ensures !Completes(p, log, ObserveFunding(txid, vout, e))
  {
    hide IsFresh;
  }

  lemma SendJudged(p: Params, log: Log, k: Known, path: Kind, o: Outbox, rest: Tasks, ok: bool)
    requires Tells(p, log, Doing(k, Do(Send(path, o), rest)))
    ensures Judged(p, log, Doing(k, Do(Send(path, o), rest)), Broadcast(path, o, ok))
  {
    hide Step, Asks, Advance, Recalls, SettledAtStart, IsFresh, Judged, Tells, Ordered, Learns, SameMemory, Starts,
      Exposes, Completes, Wrong;
    Opens(p, log, k, Send(path, o), rest);
    SendSteps(p, k, path, o, rest);
    SnocSays(p, log, Broadcast(path, o, ok));
    PlainWrong(p, log, Broadcast(path, o, ok));
    PlainCall(p, log, k, Broadcast(path, o, ok));
    if ok {
      PassJudged(p, log, k, Send(path, o), rest, Broadcast(path, o, ok), k);
    } else {
      FailJudged(p, log, Doing(k, Do(Send(path, o), rest)), Broadcast(path, o, ok), k);
    }
  }

  lemma PayJudged(p: Params, log: Log, k: Known, rest: Tasks, state: Option<PaymentState>)
    requires Tells(p, log, Doing(k, Do(PayInvoice, rest)))
    ensures Judged(p, log, Doing(k, Do(PayInvoice, rest)), Pay(k.r.hash, p.terms.amountSats, state))
  {
    hide Step, Asks, Advance, Recalls, SettledAtStart, IsFresh, Judged, Tells, Ordered, Learns, SameMemory, Starts,
      Exposes, Completes;
    Opens(p, log, k, PayInvoice, rest);
    PaySteps(p, k, rest);
    var c := Pay(k.r.hash, p.terms.amountSats, state);
    SnocSays(p, log, c);
    PlainCall(p, log, k, c);
    if Wrong(p, log, c) {
      FailJudged(p, log, Doing(k, Do(PayInvoice, rest)), c, k);
    } else {
      PassJudged(p, log, k, PayInvoice, rest, c, k);
    }
  }

  lemma SettleJudged(p: Params, log: Log, k: Known, rest: Tasks, applied: bool, ok: bool)
    requires Tells(p, log, Doing(k, Do(SettleInvoice, rest)))
    ensures Judged(p, log, Doing(k, Do(SettleInvoice, rest)), SettleHold(k.r.hash, k.r.preimage, applied, ok))
  {
    hide Step, Asks, Advance, Recalls, SettledAtStart, IsFresh, Judged, Tells, Ordered, Learns, SameMemory, Starts,
      Exposes, Completes, Wrong;
    Opens(p, log, k, SettleInvoice, rest);
    SettleSteps(p, k, rest);
    var c := SettleHold(k.r.hash, k.r.preimage, applied, ok);
    SnocSays(p, log, c);
    PlainWrong(p, log, c);
    PlainCall(p, log, k, c);
    if ok {
      PassJudged(p, log, k, SettleInvoice, rest, c, k);
    } else {
      FailJudged(p, log, Doing(k, Do(SettleInvoice, rest)), c, k);
    }
  }

  lemma TrackLinks(p: Params, anew: bool, a: Task, b: Task)
    requires (a.TrackSuccess? || a.TrackFailure?) && Linked(p, anew, a, b)
    ensures if a.TrackFailure? then p.kind.RefundRun? && b.LookupCanceled?
            else !p.kind.RefundRun? && IsPhase(b, OutputSettledPhase)
  {
    if a.TrackFailure? {
      assert Base(a).TrackFailure?;
    } else {
      assert Base(a).TrackSuccess?;
    }
  }

  lemma TrackComes(p: Params, log: Log, k: Known, a: Task, payment: Option<Payment>, b: Task)
    requires (a.TrackSuccess? || a.TrackFailure?) && Fits(p, log, k, a) && Linked(p, IsFresh(log), a, b)
    ensures a.TrackFailure? <==> p.kind.RefundRun?
    ensures Fits(p, log + [Track(k.r.hash, payment)], k, b)
  {
    hide IsFresh, SettledAtStart, HtlcVout, Linked;
    TrackLinks(p, IsFresh(log), a, b);
    SnocSays(p, log, Track(k.r.hash, payment));
  }

  lemma TrackCompletes(p: Params, log: Log, a: Task, c: Call, b: Task)
    requires (a.TrackSuccess? || a.TrackFailure?) && Linked(p, IsFresh(log), a, b) && c.Track?
    ensures Completes(p, log, c) <==> NearReport(p, IsFresh(log), b)
  {
    hide IsFresh, PhaseAsked, Linked;
    TrackLinks(p, IsFresh(log), a, b);
  }

  lemma TrackJudged(p: Params, log: Log, k: Known, a: Task, rest: Tasks, payment: Option<Payment>)
    requires (a.TrackSuccess? || a.TrackFailure?) && Tells(p, log, Doing(k, Do(a, rest)))
    ensures Judged(p, log, Doing(k, Do(a, rest)), Track(k.r.hash, payment))
  {
    hide Step, Asks, Advance, SettledAtStart, IsFresh, Judged, LastFunding, LastSpend, LastBox, Tells, Ordered,
      Linked, Fits, NearReport, Completes, Learns, SameMemory, Starts, Exposes;
    Opens(p, log, k, a, rest);
    TrackSteps(p, k, a, rest);
    var c := Track(k.r.hash, payment);
    SnocSays(p, log, c);
    PlainCall(p, log, k, c);
    TrackComes(p, log, k, a, payment, rest.first);
    TrackCompletes(p, log, a, c, rest.first);
    if Wrong(p, log, c) {
      FailJudged(p, log, Doing(k, Do(a, rest)), c, k);
    } else {
      PassJudged(p, log, k, a, rest, c, k);
    }
  }

  lemma SightFits(p: Params, log: Log, k: Known, o: Outbox, again: bool, e: Option<FundingEvidence>, b: Task)
    requires Fits(p, log, k, SeeFunding(o, again)) && Linked(p, IsFresh(log), SeeFunding(o, again), b)
    ensures e.Some? ==> Fits(p, log + [ObserveFunding(o.txid, HtlcVout(o), e)], k.(funding := e), b)
    ensures e.None? ==> Fits(p, log + [ObserveFunding(o.txid, HtlcVout(o), e)], k, ConfirmFunding(o))
    ensures !NearReport(p, IsFresh(log), b)
  {
    hide IsFresh, SettledAtStart, HtlcVout;
    SnocSays(p, log, ObserveFunding(o.txid, HtlcVout(o), e));
  }

  lemma SightIsWrong(p: Params, log: Log, k: Known, o: Outbox, again: bool, e: Option<FundingEvidence>)
    requires Fits(p, log, k, SeeFunding(o, again))
    ensures Wrong(p, log, ObserveFunding(o.txid, HtlcVout(o), e)) <==> e.None? && again
  {
    hide IsFresh, SettledAtStart, HtlcVout;
  }

  lemma SeeFundingJudged(p: Params, log: Log, k: Known, o: Outbox, again: bool, rest: Tasks,
                         e: Option<FundingEvidence>)
    requires Tells(p, log, Doing(k, Do(SeeFunding(o, again), rest)))
    ensures Judged(p, log, Doing(k, Do(SeeFunding(o, again), rest)), ObserveFunding(o.txid, HtlcVout(o), e))
  {
    hide Step, Asks, Advance, Recalls, SettledAtStart, IsFresh, Judged, HtlcVout, Tells, Ordered, Learns, SameMemory,
      Starts, Exposes, Completes, Linked, Fits, NearReport, Wrong;
    Opens(p, log, k, SeeFunding(o, again), rest);
    SeeFundingSteps(p, k, o, again, rest);
    var a, c := SeeFunding(o, again), ObserveFunding(o.txid, HtlcVout(o), e);
    SnocSays(p, log, c);
    SightFits(p, log, k, o, again, e, rest.first);
    SightIsWrong(p, log, k, o, again, e);
    SightLearns(p, log, k, o.txid, HtlcVout(o), e);
    if e.Some? {
      PassJudged(p, log, k, a, rest, c, k.(funding := e));
    } else if again {
      FailJudged(p, log, Doing(k, Do(a, rest)), c, k);
    } else {
      StayJudged(p, log, k, a, rest, c, k, ConfirmFunding(o));
    }
  }

  lemma ConfirmFundingJudged(p: Params, log: Log, k: Known, o: Outbox, rest: Tasks, ok: bool)
    requires Tells(p, log, Doing(k, Do(ConfirmFunding(o), rest)))
    ensures Judged(p, log, Doing(k, Do(ConfirmFunding(o), rest)), Confirm(ok))
  {
    hide Step, Asks, Advance, Recalls, SettledAtStart, IsFresh, Judged, HtlcVout, Tells, Ordered, Linked, NearReport,
      Learns, SameMemory, Starts, Exposes, Completes, Wrong;
    Opens(p, log, k, ConfirmFunding(o), rest);
    SeeFundingSteps(p, k, o, false, rest);
    SnocSays(p, log, Confirm(ok));
    PlainWrong(p, log, Confirm(ok));
    PlainCall(p, log, k, Confirm(ok));
    if ok {
      StayJudged(p, log, k, ConfirmFunding(o), rest, Confirm(ok), k, SeeFunding(o, true));
    } else {
      FailJudged(p, log, Doing(k, Do(ConfirmFunding(o), rest)), Confirm(ok), k);
    }
  }

  lemma SpendLinks(p: Params, anew: bool, path: Kind, o: Outbox, again: bool, b: Task)
    requires Linked(p, anew, SeeSpend(path, o, again), b)
    ensures if p.kind.RefundRun? then path.Refund? && IsPhase(b, RefundedPhase)
            else path.Claim? && if !anew then b.SeeHold?
                                else if p.kind.ReverseRun? then b.SettleInvoice? else IsPhase(b, SettledPhase)
  {
  }

  lemma SpendComes(p: Params, log: Log, k: Known, path: Kind, o: Outbox, again: bool, e: Option<SpendEvidence>, b: Task)
    requires Fits(p, log, k, SeeSpend(path, o, again)) && Linked(p, IsFresh(log), SeeSpend(path, o, again), b)
    ensures e.Some? ==> Fits(p, log + [ObserveSpend(path, o, e)], k.(spend := e), b)
    ensures e.None? ==> Fits(p, log + [ObserveSpend(path, o, e)], k, ConfirmSpend(path, o))
  {
    hide IsFresh, SettledAtStart, HtlcVout, Linked;
    SpendLinks(p, IsFresh(log), path, o, again, b);
    SnocSays(p, log, ObserveSpend(path, o, e));
  }

  lemma SpendCompletes(p: Params, log: Log, path: Kind, o: Outbox, again: bool, e: Option<SpendEvidence>, b: Task)
    requires Linked(p, IsFresh(log), SeeSpend(path, o, again), b)
    ensures Completes(p, log, ObserveSpend(path, o, e)) <==> NearReport(p, IsFresh(log), b) && e.Some?
  {
    hide IsFresh, PhaseAsked, Linked;
    SpendLinks(p, IsFresh(log), path, o, again, b);
  }

  lemma SpendIsWrong(p: Params, log: Log, k: Known, path: Kind, o: Outbox, again: bool, e: Option<SpendEvidence>)
    requires Fits(p, log, k, SeeSpend(path, o, again))
    ensures Wrong(p, log, ObserveSpend(path, o, e)) <==> e.None? && again
  {
    hide IsFresh, SettledAtStart, HtlcVout;
  }

  lemma SeeSpendJudged(p: Params, log: Log, k: Known, path: Kind, o: Outbox, again: bool, rest: Tasks,
                       e: Option<SpendEvidence>)
    requires Tells(p, log, Doing(k, Do(SeeSpend(path, o, again), rest)))
    ensures Judged(p, log, Doing(k, Do(SeeSpend(path, o, again), rest)), ObserveSpend(path, o, e))
  {
    hide Step, Asks, Advance, Recalls, SettledAtStart, IsFresh, Judged, Tells, Ordered, Linked, Fits, NearReport,
      Completes, Wrong;
    Opens(p, log, k, SeeSpend(path, o, again), rest);
    SeeSpendSteps(p, k, path, o, again, rest);
    var a, c := SeeSpend(path, o, again), ObserveSpend(path, o, e);
    SnocSays(p, log, c);
    SpendComes(p, log, k, path, o, again, e, rest.first);
    SpendCompletes(p, log, path, o, again, e, rest.first);
    SpendIsWrong(p, log, k, path, o, again, e);
    if e.Some? {
      PassJudged(p, log, k, a, rest, c, k.(spend := e));
    } else if again {
      FailJudged(p, log, Doing(k, Do(a, rest)), c, k);
    } else {
      StayJudged(p, log, k, a, rest, c, k, ConfirmSpend(path, o));
    }
  }

  lemma ConfirmSpendJudged(p: Params, log: Log, k: Known, path: Kind, o: Outbox, rest: Tasks, ok: bool)
    requires Tells(p, log, Doing(k, Do(ConfirmSpend(path, o), rest)))
    ensures Judged(p, log, Doing(k, Do(ConfirmSpend(path, o), rest)), Confirm(ok))
  {
    hide Step, Asks, Advance, Recalls, SettledAtStart, IsFresh, Judged, Tells, Ordered, Linked, NearReport, Learns,
      SameMemory, Starts, Exposes, Completes, Wrong;
    Opens(p, log, k, ConfirmSpend(path, o), rest);
    SeeSpendSteps(p, k, path, o, false, rest);
    SnocSays(p, log, Confirm(ok));
    PlainWrong(p, log, Confirm(ok));
    PlainCall(p, log, k, Confirm(ok));
    if ok {
      StayJudged(p, log, k, ConfirmSpend(path, o), rest, Confirm(ok), k, SeeSpend(path, o, true));
    } else {
      FailJudged(p, log, Doing(k, Do(ConfirmSpend(path, o), rest)), Confirm(ok), k);
    }
  }

  lemma SeeHoldJudged(p: Params, log: Log, k: Known, rest: Tasks, i: Option<Invoice>)
    requires Tells(p, log, Doing(k, Do(SeeHold, rest)))
    ensures Judged(p, log, Doing(k, Do(SeeHold, rest)), ObserveAccepted(k.r.hash, i))
  {
    hide Step, Asks, Advance, Recalls, SettledAtStart, IsFresh, Judged, Tells, Ordered, Linked, NearReport, Learns,
      SameMemory, Starts, Exposes, Completes, Wrong;
    Opens(p, log, k, SeeHold, rest);
    HoldSteps(p, k, rest);
    var c := ObserveAccepted(k.r.hash, i);
    SnocSays(p, log, c);
    PlainWrong(p, log, c);
    PlainCall(p, log, k, c);
    if i.Some? {
      StayJudged(p, log, k, SeeHold, rest, c, k, SeeTip(i.value));
    } else {
      FailJudged(p, log, Doing(k, Do(SeeHold, rest)), c, k);
    }
  }

  lemma HoldIsValid(i: Invoice, amountSats: U64, tip: U64)
    ensures ValidateAccepted(i, amountSats, tip).None? <==> HoldFits(i, amountSats, tip)
  {
  }

  lemma HoldKeepsMemory(p: Params, log: Log, k: Known, c: Call, i: Invoice, tip: U64)
    requires SameMemory(Learns(p, log, k, c), k)
    ensures SameMemory(Learns(p, log, k, c), k.(held := Some(i), tip := tip))
  {
    hide Learns;
  }

  lemma SeeTipJudged(p: Params, log: Log, k: Known, i: Invoice, rest: Tasks, tip: Option<U64>)
    requires Tells(p, log, Doing(k, Do(SeeTip(i), rest)))
    ensures Judged(p, log, Doing(k, Do(SeeTip(i), rest)), Tip(tip))
  {
    hide Step, Asks, Advance, Recalls, SettledAtStart, IsFresh, Judged, ValidateAccepted, HoldFits, Tells, Ordered,
      Learns, SameMemory, Starts, Exposes, Completes;
    Opens(p, log, k, SeeTip(i), rest);
    TipSteps(p, k, i, rest);
    var c := Tip(tip);
    SnocSays(p, log, c);
    PlainCall(p, log, k, c);
    if tip.Some? {
      HoldKeepsMemory(p, log, k, c, i, tip.value);
    }
    if tip.Some? {
      HoldIsValid(i, p.terms.amountSats, tip.value);
    }
    if Wrong(p, log, c) {
      FailJudged(p, log, Doing(k, Do(SeeTip(i), rest)), c, k);
    } else {
      PassJudged(p, log, k, SeeTip(i), rest, c, k.(held := Some(i), tip := tip.value));
    }
  }

  /** The row is where the phase leads, or further. */
  predicate IsPast(phase: SwapPhase, s: SwapState) {
    PhaseTransition(phase).Some?
    && (s == PhaseTransition(phase).value.1 || StateRank(s) > StateRank(PhaseTransition(phase).value.1))
  }

  function PhaseFrom(phase: SwapPhase, s: SwapState): SwapState
    requires PhaseTransition(phase).Some?
  {
    if phase.OutputSettledPhase? && s.OutputUnknown? then SwapState.OutputUnknown else PhaseTransition(phase).value.0
  }

  lemma RowSteps(p: Params, k: Known, phase: SwapPhase, rest: Tasks, s: SwapState)
    requires PhaseTransition(phase).Some?
    ensures OnRow(p, k, phase, None, rest) == Fail(k)
    ensures OnRow(p, k, phase, Some(s), rest)
      == if RowUnexpected(phase, s) then Fail(k)
         else if !IsPast(phase, s) then
           Doing(k, Do(Move(phase, PhaseFrom(phase, s), PhaseTransition(phase).value.1), rest))
         else if phase.OutputSettledPhase? then Doing(k, Do(ConsumeHeld(false), rest)) else Advance(p, k, rest)
  {
    hide Advance, Fail, StateRank, PhaseTransition;
  }

  lemma LinkedPhase(p: Params, anew: bool, a: Task, phase: SwapPhase, b: Task)
    requires Base(a) == Phase(phase) && Linked(p, anew, a, b)
    ensures PhaseTransition(phase).Some? && PhaseLinked(p, anew, phase, b)
  {
  }

  lemma RowIsWrong(p: Params, log: Log, row: Option<SwapState>)
    ensures Wrong(p, log, ReadRow(row)) <==> row.None? || RowUnexpected(PhaseAsked(log), row.value)
  {
    hide PhaseAsked, RowUnexpected;
  }

  lemma PhaseIsAsked(p: Params, log: Log, k: Known, phase: SwapPhase)
    requires p.core && Fits(p, log, k, Phase(phase))
    ensures PhaseAsked(log) == phase
  {
    hide PhaseAsked;
  }

  lemma MovingFits(p: Params, log: Log, k: Known, phase: SwapPhase, from: SwapState, next: SwapState)
    requires p.core && log != [] && PhaseTransition(phase).Some? && next == PhaseTransition(phase).value.1
    ensures Fits(p, log, k, Move(phase, from, next))
    ensures Fits(p, log, k, ConsumeHeld(Last(log).Transition?))
  {
    hide PhaseAsked, SettledAtStart, PhaseTransition;
  }

  lemma StartsMove(p: Params, log: Log, k: Known, phase: SwapPhase, rest: Tasks, s: SwapState)
    requires Tells(p, log, Doing(k, Do(Phase(phase), rest))) && rest.Do?
    requires PhaseTransition(phase).Some? && !IsPast(phase, s) && !RowUnexpected(phase, s)
    ensures Judged(p, log, Doing(k, Do(Phase(phase), rest)), ReadRow(Some(s)))
  {
    hide Step, Asks, Advance, Recalls, SettledAtStart, IsFresh, Judged, Linked, OnRow, RowUnexpected, IsPast,
      PhaseFrom, Completes, PhaseTransition, Wrong, Fits, PhaseAsked, Tells, Ordered, Learns, SameMemory, Starts,
      Exposes;
    Opens(p, log, k, Phase(phase), rest);
    PhaseIsAsked(p, log, k, phase);
    PhaseSteps(p, k, phase, rest);
    var c := ReadRow(Some(s));
    SnocSays(p, log, c);
    PlainCall(p, log, k, c);
    RowSteps(p, k, phase, rest, s);
    RowIsWrong(p, log, Some(s));
    RowBelow(p, log, phase, s);
    var from, next := PhaseFrom(phase, s), PhaseTransition(phase).value.1;
    MovingFits(p, log + [c], k, phase, from, next);
    StayJudged(p, log, k, Phase(phase), rest, c, k, Move(phase, from, next));
  }

  lemma StartsConsuming(p: Params, log: Log, k: Known, phase: SwapPhase, rest: Tasks, s: SwapState)
    requires phase.OutputSettledPhase? && Tells(p, log, Doing(k, Do(Phase(phase), rest))) && rest.Do?
    requires IsPast(phase, s) && !RowUnexpected(phase, s)
    ensures Judged(p, log, Doing(k, Do(Phase(phase), rest)), ReadRow(Some(s)))
  {
    hide Step, Asks, Advance, Recalls, SettledAtStart, IsFresh, Judged, Linked, OnRow, RowUnexpected, IsPast,
      PhaseFrom, Completes, Wrong, Fits, PhaseAsked, Tells, Ordered, Learns, SameMemory, Starts, Exposes;
    var c := ReadRow(Some(s));
    Opens(p, log, k, Phase(phase), rest);
    PhaseIsAsked(p, log, k, phase);
    PhaseSteps(p, k, phase, rest);
    SnocSays(p, log, c);
    PlainCall(p, log, k, c);
    RowSteps(p, k, phase, rest, s);
    RowIsWrong(p, log, Some(s));
    NotLastPhase(p, log, s);
    MovingFits(p, log + [c], k, phase, s, SwapState.OutputSettled);
    StayJudged(p, log, k, Phase(phase), rest, c, k, ConsumeHeld(false));
  }

  lemma PhaseJudged(p: Params, log: Log, k: Known, phase: SwapPhase, rest: Tasks, row: Option<SwapState>)
    requires Tells(p, log, Doing(k, Do(Phase(phase), rest)))
    ensures Judged(p, log, Doing(k, Do(Phase(phase), rest)), ReadRow(row))
  {
    hide Step, Asks, Advance, Recalls, SettledAtStart, IsFresh, Judged, Linked, OnRow, RowUnexpected, IsPast,
      PhaseFrom, Completes, PhaseTransition, PhaseLinked, NearReport, Wrong, Fits, PhaseAsked, Tells, Ordered, Learns,
      SameMemory, Starts, Exposes;
    Opens(p, log, k, Phase(phase), rest);
    PhaseIsAsked(p, log, k, phase);
    PhaseSteps(p, k, phase, rest);
    var a, c := Phase(phase), ReadRow(row);
    SnocSays(p, log, c);
    PlainCall(p, log, k, c);
    LinkedPhase(p, IsFresh(log), a, phase, rest.first);
    RowSteps(p, k, phase, rest, row.UnwrapOr(SwapState.Created));
    RowIsWrong(p, log, row);
    if Wrong(p, log, c) {
      FailJudged(p, log, Doing(k, Do(a, rest)), c, k);
    } else if !IsPast(phase, row.value) {
      StartsMove(p, log, k, phase, rest, row.value);
    } else if phase.OutputSettledPhase? {
      StartsConsuming(p, log, k, phase, rest, row.value);
    } else {
      RowPast(p, log, k, phase, row.value, rest.first);
      PassJudged(p, log, k, a, rest, c, k);
    }
  }

  lemma RowBelow(p: Params, log: Log, phase: SwapPhase, s: SwapState)
    requires p.core && PhaseAsked(log) == phase && PhaseTransition(phase).Some? && !IsPast(phase, s)
    ensures !Completes(p, log, ReadRow(Some(s)))
  {
    hide PhaseAsked, IsFresh;
  }

  lemma NotLastPhase(p: Params, log: Log, s: SwapState)
    requires p.core && PhaseAsked(log) == OutputSettledPhase
    ensures !Completes(p, log, ReadRow(Some(s)))
  {
    hide PhaseAsked, IsFresh;
  }

  /** Where the row moved, or was already past the phase, the next task fits. */
  lemma PhaseDone(p: Params, log: Log, k: Known, phase: SwapPhase, b: Task)
    requires p.core && log != [] && (Last(log).ReadRow? || Last(log).Transition?)
    requires PhaseLinked(p, IsFresh(log), phase, b) && !phase.OutputSettledPhase?
    ensures Fits(p, log, k, b)
    ensures NearReport(p, IsFresh(log), b) <==> !p.kind.RefundRun? && IsFresh(log) && phase.SettledPhase?
  {
    hide IsFresh, SettledAtStart, HtlcVout;
    assert PhaseAsked(log) == OutputPendingPhase;
  }

  lemma RowPast(p: Params, log: Log, k: Known, phase: SwapPhase, s: SwapState, b: Task)
    requires p.core && log != [] && PhaseAsked(log) == phase && IsPast(phase, s) && !phase.OutputSettledPhase?
    requires PhaseLinked(p, IsFresh(log), phase, b)
    ensures Fits(p, log + [ReadRow(Some(s))], k, b)
    ensures Completes(p, log, ReadRow(Some(s))) <==> NearReport(p, IsFresh(log), b)
  {
    hide IsFresh, SettledAtStart, HtlcVout, Fits, PhaseLinked, NearReport, PhaseAsked;
    SnocSays(p, log, ReadRow(Some(s)));
    PhaseDone(p, log + [ReadRow(Some(s))], k, phase, b);
  }

  lemma MoveJudged(p: Params, log: Log, k: Known, phase: SwapPhase, from: SwapState, next: SwapState, rest: Tasks,
                   committed: bool, ok: bool)
    requires Tells(p, log, Doing(k, Do(Move(phase, from, next), rest)))
    ensures Judged(p, log, Doing(k, Do(Move(phase, from, next), rest)), Transition(from, next, committed, ok))
  {
    hide Step, Asks, Advance, Recalls, SettledAtStart, IsFresh, Judged, Linked, PhaseLinked, NearReport, Completes,
      PhaseTransition, Tells, Ordered, Fits, Learns, SameMemory, Starts, Exposes, Wrong;
    var a, c := Move(phase, from, next), Transition(from, next, committed, ok);
    Opens(p, log, k, a, rest);
    MoveSteps(p, k, phase, from, next, rest);
    SnocSays(p, log, c);
    PlainWrong(p, log, c);
    PlainCall(p, log, k, c);
    MoveIsOpen(p, log, k, phase, from, next);
    LinkedPhase(p, IsFresh(log), a, phase, rest.first);
    MoveComes(p, log, k, phase, c, rest.first);
    if !ok {
      FailJudged(p, log, Doing(k, Do(a, rest)), c, k);
    } else if phase.OutputSettledPhase? {
      MovingFits(p, log + [c], k, phase, from, next);
      StayJudged(p, log, k, a, rest, c, k, ConsumeHeld(true));
    } else {
      PassJudged(p, log, k, a, rest, c, k);
    }
  }

  lemma MoveIsOpen(p: Params, log: Log, k: Known, phase: SwapPhase, from: SwapState, next: SwapState)
    requires Fits(p, log, k, Move(phase, from, next))
    ensures p.core && PhaseTransition(phase).Some? && next == PhaseTransition(phase).value.1
  {
    hide PhaseTransition;
  }

  lemma MoveComes(p: Params, log: Log, k: Known, phase: SwapPhase, c: Call, b: Task)
    requires p.core && log != [] && PhaseLinked(p, IsFresh(log), phase, b) && c.Transition?
    requires PhaseTransition(phase).Some? && c.to == PhaseTransition(phase).value.1
    ensures !phase.OutputSettledPhase? ==> Fits(p, log + [c], k, b)
    ensures !phase.OutputSettledPhase? && c.ok ==> (Completes(p, log, c) <==> NearReport(p, IsFresh(log), b))
    ensures phase.OutputSettledPhase? ==> !Completes(p, log, c)
  {
    hide IsFresh, SettledAtStart, HtlcVout, Fits, PhaseLinked, NearReport, PhaseAsked;
    SnocSays(p, log, c);
    if !phase.OutputSettledPhase? {
      PhaseDone(p, log + [c], k, phase, b);
    }
  }

  lemma ConsumeJudged(p: Params, log: Log, k: Known, moved: bool, rest: Tasks, committed: bool, ok: bool)
    requires Tells(p, log, Doing(k, Do(ConsumeHeld(moved), rest)))
    ensures Judged(p, log, Doing(k, Do(ConsumeHeld(moved), rest)), Consume(committed, ok))
  {
    hide Step, Asks, Advance, Recalls, SettledAtStart, IsFresh, Judged, Tells, Ordered, Learns, SameMemory, Starts,
      Exposes, Completes;
    Opens(p, log, k, ConsumeHeld(moved), rest);
    ConsumeSteps(p, k, moved, rest);
    var c := Consume(committed, ok);
    SnocSays(p, log, c);
    PlainCall(p, log, k, c);
    if Wrong(p, log, c) {
      FailJudged(p, log, Doing(k, Do(ConsumeHeld(moved), rest)), c, k);
    } else {
      PassJudged(p, log, k, ConsumeHeld(moved), rest, c, k);
    }
  }

  // Heights.

  lemma ForwardHeightJudged(p: Params, log: Log, k: Known, rest: Tasks, h: Option<U64>)
    requires Tells(p, log, Doing(k, Do(ForwardHeight, rest)))
    ensures Judged(p, log, Doing(k, Do(ForwardHeight, rest)), Height(h))
  {
    hide Step, Asks, Advance, IsFresh, Judged, LastFunding, LastSpend, LastBox, RecordIn, Tells, Ordered, Learns,
      SameMemory, Starts, Exposes, Completes;
    Opens(p, log, k, ForwardHeight, rest);
    HeightSteps(p, k, ForwardHeight, rest);
    var c := Height(h);
    SnocSays(p, log, c);
    PlainCall(p, log, k, c);
    SnocSettled(log, c);
    if Wrong(p, log, c) {
      FailJudged(p, log, Doing(k, Do(ForwardHeight, rest)), c, k);
    } else if k.invoice.Some? && k.invoice.value.state.Settled? {
      StayJudged(p, log, k, ForwardHeight, rest, c, k, SettledFunding(h.value));
    } else {
      PassJudged(p, log, k, ForwardHeight, rest, c, k);
    }
  }

  lemma SettledFundingJudged(p: Params, log: Log, k: Known, h: U64, rest: Tasks, x: ReadResult<Outbox>)
    requires Tells(p, log, Doing(k, Do(SettledFunding(h), rest)))
    ensures Judged(p, log, Doing(k, Do(SettledFunding(h), rest)), ReadOutbox(Funding, x))
  {
    hide Step, Asks, Advance, IsFresh, Judged, LastFunding, LastSpend, LastBox, RecordIn, Tells, Ordered, Learns,
      SameMemory, Starts, Exposes, Completes;
    Opens(p, log, k, SettledFunding(h), rest);
    FindSteps(p, k, SettledFunding(h), Funding, rest);
    var c := ReadOutbox(Funding, x);
    SnocSays(p, log, c);
    LookLearns(p, log, k, x);
    SnocSettled(log, c);
    if Wrong(p, log, c) {
      FailJudged(p, log, Doing(k, Do(SettledFunding(h), rest)), c, k);
    } else {
      PassJudged(p, log, k, SettledFunding(h), rest, c, k);
    }
  }

  lemma TimelyIsOk(p: Params, r: Record, i: Invoice, tip: U64, h: U64)
    ensures ReverseTimingOk(p, r, i, tip, h) <==> TimelyReverse(p, r, i, tip, h)
  {
  }

  lemma ReverseHeightJudged(p: Params, log: Log, k: Known, rest: Tasks, h: Option<U64>)
    requires Tells(p, log, Doing(k, Do(ReverseHeight, rest)))
    ensures Judged(p, log, Doing(k, Do(ReverseHeight, rest)), Height(h))
  {
    hide Step, Asks, Advance, IsFresh, Judged, LastFunding, LastSpend, LastBox, RecordIn, SettledAtStart,
      ReverseTimingOk, TimelyReverse, Tells, Ordered, Learns, SameMemory, Starts, Exposes, Completes;
    Opens(p, log, k, ReverseHeight, rest);
    HeightSteps(p, k, ReverseHeight, rest);
    var c := Height(h);
    SnocSays(p, log, c);
    PlainCall(p, log, k, c);
    if h.Some? && k.held.Some? {
      TimelyIsOk(p, k.r, k.held.value, k.tip, h.value);
    }
    if Wrong(p, log, c) {
      FailJudged(p, log, Doing(k, Do(ReverseHeight, rest)), c, k);
    } else {
      PassJudged(p, log, k, ReverseHeight, rest, c, k);
    }
  }

  lemma PastLockJudged(p: Params, log: Log, k: Known, rest: Tasks, h: Option<U64>)
    requires Tells(p, log, Doing(k, Do(PastLockHeight, rest)))
    ensures Judged(p, log, Doing(k, Do(PastLockHeight, rest)), Height(h))
  {
    hide Step, Asks, Advance, IsFresh, Judged, LastFunding, LastSpend, LastBox, RecordIn, SettledAtStart, Tells,
      Ordered, Learns, SameMemory, Starts, Exposes, Completes;
    Opens(p, log, k, PastLockHeight, rest);
    HeightSteps(p, k, PastLockHeight, rest);
    var c := Height(h);
    SnocSays(p, log, c);
    PlainCall(p, log, k, c);
    if Wrong(p, log, c) {
      FailJudged(p, log, Doing(k, Do(PastLockHeight, rest)), c, k);
    } else {
      PassJudged(p, log, k, PastLockHeight, rest, c, k);
    }
  }

  lemma LookupCanceledJudged(p: Params, log: Log, k: Known, rest: Tasks, x: InvoiceAnswer)
    requires Tells(p, log, Doing(k, Do(LookupCanceled, rest)))
    ensures Judged(p, log, Doing(k, Do(LookupCanceled, rest)), Lookup(k.r.hash, x))
  {
    hide Step, Asks, Advance, IsFresh, Judged, Recalls, SettledAtStart, Tells, Ordered, Learns, SameMemory, Starts,
      Exposes, Completes;
    Opens(p, log, k, LookupCanceled, rest);
    LookupSteps(p, k, LookupCanceled, rest);
    var c := Lookup(k.r.hash, x);
    SnocSays(p, log, c);
    PlainCall(p, log, k, c);
    if Wrong(p, log, c) {
      FailJudged(p, log, Doing(k, Do(LookupCanceled, rest)), c, k);
    } else {
      PassJudged(p, log, k, LookupCanceled, rest, c, k);
    }
  }

  lemma NoClaimJudged(p: Params, log: Log, k: Known, rest: Tasks, x: ReadResult<Outbox>)
    requires Tells(p, log, Doing(k, Do(NoClaim, rest)))
    ensures Judged(p, log, Doing(k, Do(NoClaim, rest)), ReadOutbox(Claim, x))
  {
    hide Step, Asks, Advance, IsFresh, Judged, Recalls, SettledAtStart, Tells, Ordered, Learns, SameMemory, Starts,
      Exposes, Completes;
    Opens(p, log, k, NoClaim, rest);
    FindSteps(p, k, NoClaim, Claim, rest);
    var c := ReadOutbox(Claim, x);
    SnocSays(p, log, c);
    RefundReads(p, log, k, Claim, x);
    if Wrong(p, log, c) {
      FailJudged(p, log, Doing(k, Do(NoClaim, rest)), c, k);
    } else {
      PassJudged(p, log, k, NoClaim, rest, c, k);
    }
  }

  lemma SomeFundingComes(p: Params, log: Log, k: Known, x: ReadResult<Outbox>, b: Task)
    requires Fits(p, log, k, SomeFunding) && Linked(p, IsFresh(log), SomeFunding, b)
    ensures p.kind.RefundRun? && !Last(log).CreateOutbox?
    ensures forall k2 :: Fits(p, log + [ReadOutbox(Funding, x)], k2, b)
    ensures !Completes(p, log, ReadOutbox(Funding, x)) && !NearReport(p, IsFresh(log), b)
  {
    hide IsFresh, SettledAtStart, HtlcVout;
  }

  lemma SomeFundingJudged(p: Params, log: Log, k: Known, rest: Tasks, x: ReadResult<Outbox>)
    requires Tells(p, log, Doing(k, Do(SomeFunding, rest)))
    ensures Judged(p, log, Doing(k, Do(SomeFunding, rest)), ReadOutbox(Funding, x))
  {
    hide Step, Asks, Advance, IsFresh, Judged, Recalls, SettledAtStart, Tells, Ordered, Linked, Fits, NearReport,
      Completes, Learns, SameMemory, Starts, Exposes;
    Opens(p, log, k, SomeFunding, rest);
    FindSteps(p, k, SomeFunding, Funding, rest);
    var c := ReadOutbox(Funding, x);
    SnocSays(p, log, c);
    SomeFundingComes(p, log, k, x, rest.first);
    RefundReads(p, log, k, Funding, x);
    if Wrong(p, log, c) {
      FailJudged(p, log, Doing(k, Do(SomeFunding, rest)), c, k);
    } else {
      PassJudged(p, log, k, SomeFunding, rest, c, k.(fundingBox := Some(x.value)));
    }
  }

  // Storing.

  // The tasks of a stored transaction fit before what follows its search.

  lemma FundingLinks(p: Params, anew: bool, b: Task)
    requires Linked(p, anew, FindFunding, b)
    ensures !p.kind.RefundRun? && anew && Linked(p, anew, Phase(InputLockedPhase), b)
  {
  }

  lemma FundingSendLinks(p: Params, o: Outbox)
    requires !p.kind.RefundRun?
    ensures Linked(p, true, Phase(InputFundingPhase), Send(Funding, o))
    ensures Linked(p, true, Send(Funding, o), SeeFunding(o, false))
    ensures Linked(p, true, SeeFunding(o, false), Phase(InputLockedPhase))
  {
  }

  lemma FundingOrdered(p: Params, anew: bool, o: Outbox, rest: Tasks)
    requires rest.Do? && Ordered(p, anew, Do(FindFunding, rest))
    ensures Ordered(p, anew, FundingPlan(o, rest))
  {
    hide Linked;
    FundingLinks(p, anew, rest.first);
    FundingSendLinks(p, o);
    var after := Do(Phase(InputLockedPhase), rest);
    var seen := Do(SeeFunding(o, false), after);
    assert Ordered(p, anew, after) && Ordered(p, anew, seen) && Ordered(p, anew, Do(Send(Funding, o), seen));
  }

  lemma ClaimLinks(p: Params, anew: bool, o: Outbox, b: Task)
    requires Linked(p, anew, FindFreshClaim, b)
    ensures Linked(p, anew, Phase(ClaimPendingPhase), Send(Claim, o))
    ensures Linked(p, anew, Send(Claim, o), SeeSpend(Claim, o, false))
    ensures Linked(p, anew, SeeSpend(Claim, o, false), b)
  {
  }

  lemma ClaimOrdered(p: Params, anew: bool, o: Outbox, rest: Tasks)
    requires rest.Do? && Ordered(p, anew, Do(FindFreshClaim, rest))
    ensures Ordered(p, anew, ClaimPlan(o, rest))
  {
    hide Linked;
    ClaimLinks(p, anew, o, rest.first);
    var seen := Do(SeeSpend(Claim, o, false), rest);
    assert Ordered(p, anew, seen) && Ordered(p, anew, Do(Send(Claim, o), seen));
  }

  lemma FindRefundLinks(p: Params, anew: bool, b: Task)
    requires Linked(p, anew, FindRefund, b)
    ensures p.kind.RefundRun? && b.ReportRefund?
  {
  }

  lemma RefundSendLinks(p: Params, anew: bool, o: Outbox)
    requires p.kind.RefundRun?
    ensures Linked(p, anew, Phase(RefundingPhase), Send(Refund, o))
    ensures Linked(p, anew, Send(Refund, o), SeeSpend(Refund, o, false))
  {
  }

  lemma RefundSeenLinks(p: Params, anew: bool, o: Outbox, b: Task)
    requires p.kind.RefundRun? && b.ReportRefund?
    ensures Linked(p, anew, SeeSpend(Refund, o, false), Phase(RefundedPhase))
    ensures Linked(p, anew, Phase(RefundedPhase), b)
  {
  }

  lemma RefundOutboxOrdered(p: Params, anew: bool, o: Outbox, rest: Tasks)
    requires rest.Do? && Ordered(p, anew, Do(FindRefund, rest))
    ensures Ordered(p, anew, SendRefundPlan(o, rest))
  {
    hide Linked;
    FindRefundLinks(p, anew, rest.first);
    RefundSendLinks(p, anew, o);
    RefundSeenLinks(p, anew, o, rest.first);
    var after := Do(Phase(RefundedPhase), rest);
    var seen := Do(SeeSpend(Refund, o, false), after);
    assert Ordered(p, anew, after) && Ordered(p, anew, seen) && Ordered(p, anew, Do(Send(Refund, o), seen));
  }

  /** A transaction was stored, or found as it should be. */
  lemma StoredJudged(p: Params, log: Log, k: Known, a: Task, path: Kind, o: Outbox, rest: Tasks, c: Call)
    requires Tells(p, log, Doing(k, Do(a, rest))) && rest.Do? && Base(a) == Finding(path)
    requires Step(p, Doing(k, Do(a, rest)), c) == Stored(p, k, path, o, rest)
    requires !Wrong(p, log, c)
    requires SameMemory(Learns(p, log, k, c), if path.Refund? then k else k.(exposed := true))
    requires c.FinishOutbox? || (c.ReadOutbox? && c.content.Got? && Last(log) != ReadOutbox(Claim, Missing))
    requires (c.FinishOutbox? || c.ReadOutbox?) && c.path == path
    ensures Judged(p, log, Doing(k, Do(a, rest)), c)
  {
    hide Step, Advance, Recalls, SettledAtStart, IsFresh, Base, Linked, Ordered, FundingPlan, ClaimPlan,
      SendRefundPlan, Wrong, Learns, SameMemory, Fits, PhaseAsked, Completes, NearReport, Finding;
    Opens(p, log, k, a, rest);
    SnocSays(p, log, c);
    SnocRecalls(p, log, k, c);
    var k2 := if path.Refund? then k else k.(exposed := true);
    SameRecalls(p, log + [c], Learns(p, log, k, c), k2);
    var plan := StoredPlan(p, IsFresh(log), a, path, o, rest);
    StoredFits(p, log, k2, path, c);
    AdvanceTells(p, log + [c], k2, plan);
  }

  /** Storing is no completion, and the phase it starts is the one the row is then read for. */
  lemma StoredFits(p: Params, log: Log, k: Known, path: Kind, c: Call)
    requires log != []
    requires c.FinishOutbox? || (c.ReadOutbox? && c.content.Got? && Last(log) != ReadOutbox(Claim, Missing))
    requires (c.FinishOutbox? || c.ReadOutbox?) && c.path == path
    ensures Fits(p, log + [c], k, Phase(StoredPhase(path)))
    ensures !Completes(p, log, c) && forall anew :: !NearReport(p, anew, Phase(StoredPhase(path)))
  {
    hide IsFresh, SettledAtStart;
    SnocSays(p, log, c);
    assert PhaseAsked(log + [c]) == StoredPhase(path);
  }

  lemma StoredPlan(p: Params, anew: bool, a: Task, path: Kind, o: Outbox, rest: Tasks) returns (plan: Tasks)
    requires rest.Do? && Ordered(p, anew, Do(a, rest)) && Base(a) == Finding(path)
    ensures plan == match path
      case Funding => FundingPlan(o, rest)
      case Claim => ClaimPlan(o, rest)
      case Refund => SendRefundPlan(o, rest)
    ensures plan.Do? && plan.first == Phase(StoredPhase(path)) && Ordered(p, anew, plan)
  {
    hide Base, Linked, Ordered, FundingPlan, ClaimPlan, SendRefundPlan;
    FindingIsBase(path);
    BaseOrdered(p, anew, a, Finding(path), rest);
    PlanStarts(path, o, rest);
    match path {
      case Funding =>
        plan := FundingPlan(o, rest);
        FundingOrdered(p, anew, o, rest);
      case Claim =>
        plan := ClaimPlan(o, rest);
        ClaimOrdered(p, anew, o, rest);
      case Refund =>
        plan := SendRefundPlan(o, rest);
        RefundOutboxOrdered(p, anew, o, rest);
    }
  }

  lemma BaseOrdered(p: Params, anew: bool, a: Task, b: Task, rest: Tasks)
    requires rest.Do? && Ordered(p, anew, Do(a, rest)) && Base(a) == Base(b)
    ensures Ordered(p, anew, Do(b, rest))
  {
  }

  lemma FindingIsBase(path: Kind)
    ensures Base(Finding(path)) == Finding(path)
  {
  }

  lemma PlanStarts(path: Kind, o: Outbox, rest: Tasks)
    ensures FundingPlan(o, rest).Do? && FundingPlan(o, rest).first == Phase(InputFundingPhase)
    ensures ClaimPlan(o, rest).Do? && ClaimPlan(o, rest).first == Phase(ClaimPendingPhase)
    ensures SendRefundPlan(o, rest).Do? && SendRefundPlan(o, rest).first == Phase(RefundingPhase)
  {
  }

  lemma FinishJudged(p: Params, log: Log, k: Known, path: Kind, o: Outbox, rest: Tasks, stored: bool, synced: bool)
    requires Tells(p, log, Doing(k, Do(FinishStore(path, o), rest)))
    ensures Judged(p, log, Doing(k, Do(FinishStore(path, o), rest)), FinishOutbox(path, o, stored, synced))
  {
    hide Step, Asks, Stored, Recalls, SettledAtStart, IsFresh, Judged, Tells, Ordered, NearReport;
    Opens(p, log, k, FinishStore(path, o), rest);
    FinishSteps(p, k, path, o, rest);
    var c := FinishOutbox(path, o, stored, synced);
    if synced {
      StoredJudged(p, log, k, FinishStore(path, o), path, o, rest, c);
    } else {
      FailJudged(p, log, Doing(k, Do(FinishStore(path, o), rest)), c, k);
    }
  }

  lemma RereadJudged(p: Params, log: Log, k: Known, path: Kind, o: Outbox, rest: Tasks, x: ReadResult<Outbox>)
    requires Tells(p, log, Doing(k, Do(Reread(path, o), rest)))
    ensures Judged(p, log, Doing(k, Do(Reread(path, o), rest)), ReadOutbox(path, x))
  {
    hide Step, Asks, Stored, Recalls, SettledAtStart, IsFresh, Judged, Tells, Ordered, NearReport;
    Opens(p, log, k, Reread(path, o), rest);
    RereadSteps(p, k, path, o, rest);
    var c := ReadOutbox(path, x);
    if x == Got(o) {
      StoredJudged(p, log, k, Reread(path, o), path, o, rest, c);
    } else {
      FailJudged(p, log, Doing(k, Do(Reread(path, o), rest)), c, k);
    }
  }

  lemma StoreJudged(p: Params, log: Log, k: Known, path: Kind, o: Outbox, rest: Tasks, created: Creation)
    requires Tells(p, log, Doing(k, Do(Store(path, o), rest)))
    ensures Judged(p, log, Doing(k, Do(Store(path, o), rest)), CreateOutbox(path, o, created))
  {
    hide Step, Asks, Stored, Recalls, SettledAtStart, IsFresh, Judged, Tells, Ordered, Linked, NearReport, Learns,
      SameMemory, Starts, Exposes, Completes, Wrong, Fits, Base, Finding;
    Opens(p, log, k, Store(path, o), rest);
    StoreSteps(p, k, path, o, rest);
    var a, c := Store(path, o), CreateOutbox(path, o, created);
    SnocSays(p, log, c);
    BaseOfStoring(path, o);
    StoreFits(p, log + [c], k, path, o);
    PlainWrong(p, log, c);
    PlainCall(p, log, k, c);
    match created
    case CreatedNew => StayJudged(p, log, k, a, rest, c, k, FinishStore(path, o));
    case AlreadyExists => StayJudged(p, log, k, a, rest, c, k, Reread(path, o));
    case CreateFailed => FailJudged(p, log, Doing(k, Do(a, rest)), c, k);
  }

  lemma MakeFundingJudged(p: Params, log: Log, k: Known, rest: Tasks, o: Option<Outbox>)
    requires Tells(p, log, Doing(k, Do(MakeFunding, rest)))
    ensures Judged(p, log, Doing(k, Do(MakeFunding, rest)), PrepareFunding(o))
  {
    hide Step, Asks, Recalls, SettledAtStart, IsFresh, Judged, Tells, Ordered, Linked, NearReport, Learns, SameMemory,
      Starts, Exposes, Completes;
    Opens(p, log, k, MakeFunding, rest);
    MakeFundingSteps(p, k, rest);
    var c := PrepareFunding(o);
    SnocSays(p, log, c);
    PlainCall(p, log, k, c);
    if Wrong(p, log, c) {
      FailJudged(p, log, Doing(k, Do(MakeFunding, rest)), c, k);
    } else {
      StayJudged(p, log, k, MakeFunding, rest, c, k, Store(Funding, o.value));
    }
  }

  lemma MakeSpendJudged(p: Params, log: Log, k: Known, a: Task, path: Kind, txid: Txid, vout: nat, rest: Tasks,
                        o: Option<Outbox>)
    requires Tells(p, log, Doing(k, Do(a, rest)))
    requires (a.MakeClaim? && path.Claim?) || (a.MakeRefund? && path.Refund?)
    requires TaskCall(p, k, a) == PrepareSpend(path, txid, vout, None)
    ensures Judged(p, log, Doing(k, Do(a, rest)), PrepareSpend(path, txid, vout, o))
  {
    hide Step, Asks, Recalls, SettledAtStart, IsFresh, Judged, Tells, Ordered, TaskCall, Linked, NearReport, Learns,
      SameMemory, Starts, Exposes, Completes, Wrong, Fits, Base, Finding;
    Opens(p, log, k, a, rest);
    MakeSpendSteps(p, k, a, path, txid, vout, rest);
    var c := PrepareSpend(path, txid, vout, o);
    SnocSays(p, log, c);
    PlainWrong(p, log, c);
    PlainCall(p, log, k, c);
    if Wrong(p, log, c) {
      FailJudged(p, log, Doing(k, Do(a, rest)), c, k);
    } else {
      BaseOfStoring(path, o.value);
      StoreFits(p, log + [c], k, path, o.value);
      StayJudged(p, log, k, a, rest, c, k, Store(path, o.value));
    }
  }

  lemma FindFundingJudged(p: Params, log: Log, k: Known, rest: Tasks, x: ReadResult<Outbox>)
    requires Tells(p, log, Doing(k, Do(FindFunding, rest)))
    ensures Judged(p, log, Doing(k, Do(FindFunding, rest)), ReadOutbox(Funding, x))
  {
    hide Step, Asks, Stored, Recalls, SettledAtStart, IsFresh, Judged, Tells, Ordered, RecordIn, LateForward, Linked,
      NearReport;
    Opens(p, log, k, FindFunding, rest);
    FindSteps(p, k, FindFunding, Funding, rest);
    var c := ReadOutbox(Funding, x);
    SnocSays(p, log, c);
    if Wrong(p, log, c) {
      FailJudged(p, log, Doing(k, Do(FindFunding, rest)), c, k);
    } else if x.Missing? {
      StayJudged(p, log, k, FindFunding, rest, c, k, MakeFunding);
    } else {
      StoredJudged(p, log, k, FindFunding, Funding, x.value, rest, c);
    }
  }

  lemma ClaimReadIsWrong(p: Params, log: Log, k: Known, x: ReadResult<Outbox>)
    requires Fits(p, log, k, FindFreshClaim) && k.funding == LastFunding(log)
    ensures Wrong(p, log, ReadOutbox(Claim, x)) <==>
      x.Corrupt? || (x.Got? && ValidateSpendOutbox(x.value, Claim, FundingOf(k).txid, FundingOf(k).vout).Some?)
  {
    hide IsFresh, SettledAtStart, LastFunding, RecordIn;
  }

  lemma KnowsFunding(p: Params, log: Log, k: Known)
    requires Recalls(p, log, k)
    ensures k.funding == LastFunding(log)
  {
    hide LastFunding, Started, Exposed, SettledAtStart;
  }

  lemma FindFreshClaimJudged(p: Params, log: Log, k: Known, rest: Tasks, x: ReadResult<Outbox>)
    requires Tells(p, log, Doing(k, Do(FindFreshClaim, rest)))
    ensures Judged(p, log, Doing(k, Do(FindFreshClaim, rest)), ReadOutbox(Claim, x))
  {
    hide Step, Asks, Stored, SettledAtStart, IsFresh, Judged, Tells, Ordered, RecordIn, LateForward, LastSpend,
      LastBox, LastFunding, NearReport, Wrong, ValidateSpendOutbox, Recalls, FundingOf;
    Opens(p, log, k, FindFreshClaim, rest);
    FindSteps(p, k, FindFreshClaim, Claim, rest);
    var c := ReadOutbox(Claim, x);
    SnocSays(p, log, c);
    KnowsFunding(p, log, k);
    ClaimReadIsWrong(p, log, k, x);
    if Wrong(p, log, c) {
      FailJudged(p, log, Doing(k, Do(FindFreshClaim, rest)), c, k);
    } else if x.Missing? {
      StayJudged(p, log, k, FindFreshClaim, rest, c, k, MakeClaim);
    } else {
      StoredJudged(p, log, k, FindFreshClaim, Claim, x.value, rest, c);
    }
  }

  lemma RefundReadIsWrong(p: Params, log: Log, k: Known, x: ReadResult<Outbox>)
    requires Fits(p, log, k, FindRefund) && k.fundingBox == LastBox(log)
    ensures p.kind.RefundRun?
    ensures Wrong(p, log, ReadOutbox(Refund, x)) <==>
      x.Corrupt?
      || (x.Got? && ValidateSpendOutbox(x.value, Refund, FundingBoxOf(k).txid, HtlcVout(FundingBoxOf(k))).Some?)
  {
    hide IsFresh, SettledAtStart, LastBox, RecordIn;
  }

  lemma KnowsBox(p: Params, log: Log, k: Known)
    requires Recalls(p, log, k) && p.kind.RefundRun?
    ensures k.fundingBox == LastBox(log)
  {
    hide LastBox, Started, Exposed, SettledAtStart;
  }

  lemma MakeRefundFits(p: Params, log: Log, k: Known)
    requires log != []
    ensures Fits(p, log, k, MakeRefund)
  {
    hide PhaseAsked, SettledAtStart;
  }

  lemma RefundTask(p: Params, log: Log, k: Known)
    requires Fits(p, log, k, FindRefund)
    ensures p.kind.RefundRun? && Last(log) != ReadOutbox(Claim, Missing)
  {
    hide PhaseAsked, SettledAtStart;
  }

  lemma FindRefundJudged(p: Params, log: Log, k: Known, rest: Tasks, x: ReadResult<Outbox>)
    requires Tells(p, log, Doing(k, Do(FindRefund, rest)))
    ensures Judged(p, log, Doing(k, Do(FindRefund, rest)), ReadOutbox(Refund, x))
  {
    hide Step, Asks, Stored, SettledAtStart, IsFresh, Judged, Tells, Ordered, RecordIn, LateForward, LastSpend,
      LastBox, LastFunding, Linked, NearReport, Learns, SameMemory, Starts, Exposes, Completes, Wrong,
      ValidateSpendOutbox, Recalls, FundingBoxOf, Fits;
    Opens(p, log, k, FindRefund, rest);
    FindSteps(p, k, FindRefund, Refund, rest);
    var c := ReadOutbox(Refund, x);
    SnocSays(p, log, c);
    RefundTask(p, log, k);
    KnowsBox(p, log, k);
    RefundReadIsWrong(p, log, k, x);
    RefundReads(p, log, k, Refund, x);
    if Wrong(p, log, c) {
      FailJudged(p, log, Doing(k, Do(FindRefund, rest)), c, k);
    } else if x.Missing? {
      MakeRefundFits(p, log + [c], k);
      StayJudged(p, log, k, FindRefund, rest, c, k, MakeRefund);
    } else {
      StoredJudged(p, log, k, FindRefund, Refund, x.value, rest, c);
    }
  }

  // The tasks before a plan is chosen.

  lemma FindInvoiceJudged(p: Params, log: Log, k: Known, rest: Tasks, x: InvoiceAnswer)
    requires Tells(p, log, Doing(k, Do(FindInvoice, rest)))
    ensures Judged(p, log, Doing(k, Do(FindInvoice, rest)), Lookup(k.r.hash, x))
  {
    hide Step, Asks, SettledAtStart, IsFresh, LastSpend, LastBox, LastFunding, RecordIn, Started, Exposed, PhaseAsked;
    LookupSteps(p, k, FindInvoice, rest);
    var c := Lookup(k.r.hash, x);
    SnocSays(p, log, c);
    SnocSettled(log, c);
  }

  lemma MakeInvoiceJudged(p: Params, log: Log, k: Known, rest: Tasks, applied: bool, ok: bool)
    requires Tells(p, log, Doing(k, Do(MakeInvoice, rest)))
    ensures Judged(p, log, Doing(k, Do(MakeInvoice, rest)), CreateInvoice(k.r.hash, p.terms.amountSats, applied, ok))
  {
    hide Step, Asks, SettledAtStart, IsFresh, LastSpend, LastBox, LastFunding, RecordIn, Started, Exposed, PhaseAsked;
    MakeInvoiceSteps(p, k);
    var c := CreateInvoice(k.r.hash, p.terms.amountSats, applied, ok);
    SnocSays(p, log, c);
    SnocSettled(log, c);
  }

  lemma ReplayOrdered(p: Params, o: Outbox)
    requires !p.kind.RefundRun?
    ensures Ordered(p, false, ReplayPlan(o))
  {
    ReplayEndOrdered(p, o);
    hide Linked, AfterReplayTrack, EndsPlan;
    ReplayLinks(p, o);
    var track := Do(TrackSuccess, AfterReplayTrack(o));
    assert Ordered(p, false, track);
    assert Ordered(p, false, AfterReplayHold(o));
    assert Ordered(p, false, AfterReplaySend(o));
    assert Ordered(p, false, Do(SeeSpend(Claim, o, false), AfterReplaySend(o)));
  }

  lemma ReplayEndOrdered(p: Params, o: Outbox)
    requires !p.kind.RefundRun?
    ensures AfterReplayTrack(o).Do? && AfterReplayTrack(o).first == Phase(OutputSettledPhase)
    ensures Ordered(p, false, AfterReplayTrack(o))
  {
    var last := Do(ReportReplay(o), End);
    assert Ordered(p, false, last);
    assert Ordered(p, false, Do(Phase(SettledPhase), last));
  }

  lemma ReplayLinks(p: Params, o: Outbox)
    requires !p.kind.RefundRun?
    ensures Linked(p, false, Send(Claim, o), SeeSpend(Claim, o, false))
    ensures Linked(p, false, SeeSpend(Claim, o, false), SeeHold)
    ensures Linked(p, false, SeeHold, SettleInvoice)
    ensures Linked(p, false, SettleInvoice, TrackSuccess)
    ensures Linked(p, false, TrackSuccess, Phase(OutputSettledPhase))
  {
    hide Linked;
    SendLinks(p, false, o);
    HoldLinks(p, false);
  }

  lemma SendLinks(p: Params, anew: bool, o: Outbox)
    requires !p.kind.RefundRun?
    ensures Linked(p, anew, Send(Claim, o), SeeSpend(Claim, o, false))
    ensures Linked(p, false, SeeSpend(Claim, o, false), SeeHold)
  {
  }

  lemma HoldLinks(p: Params, anew: bool)
    requires !p.kind.RefundRun?
    ensures !(anew && p.kind.ReverseRun?) ==> Linked(p, anew, SeeHold, SettleInvoice)
    ensures Linked(p, anew, SettleInvoice, TrackSuccess)
    ensures Linked(p, anew, TrackSuccess, Phase(OutputSettledPhase))
  {
  }

  lemma FindClaimJudged(p: Params, log: Log, k: Known, rest: Tasks, x: ReadResult<Outbox>)
    requires Tells(p, log, Doing(k, Do(FindClaim, rest)))
    ensures Judged(p, log, Doing(k, Do(FindClaim, rest)), ReadOutbox(Claim, x))
  {
    hide Step, Asks, SettledAtStart, RecordIn, LateForward, LastSpend, LastBox, LastFunding, Ordered, ReplayPlan,
      Recalls;
    Opens(p, log, k, FindClaim, rest);
    FindSteps(p, k, FindClaim, Claim, rest);
    FailsThere(p, log, k);
    var c := ReadOutbox(Claim, x);
    SnocSays(p, log, c);
    SnocRecalls(p, log, k, c);
    match x
    case Missing => OnlyTask(p, true, FindExposure);
    case Corrupt =>
    case Got(o) =>
      ReplayOrdered(p, o);
      ReplayStarts(o);
  }

  lemma OnlyTask(p: Params, anew: bool, t: Task)
    requires EndsPlan(t)
    ensures Ordered(p, anew, Do(t, End))
  {
  }

  lemma ReplayStarts(o: Outbox)
    ensures ReplayPlan(o).Do? && ReplayPlan(o).first == Send(Claim, o)
  {
  }

  lemma FreshOrdered(p: Params)
    requires !p.kind.RefundRun?
    ensures FreshPlan(p).Do? && Ordered(p, true, FreshPlan(p))
    ensures FreshPlan(p).first == if p.kind.ReverseRun? then Phase(OutputPendingPhase) else ForwardHeight
  {
    if p.kind.ForwardRun? {
      ForwardOrdered(p);
    } else {
      ReverseOrdered(p);
    }
  }

  lemma ForwardOrdered(p: Params)
    requires p.kind.ForwardRun?
    ensures Ordered(p, true, ForwardPlan())
  {
    hide Linked;
    EndLinks(p);
    HoldLinks(p, true);
    ForwardStartLinks(p);
    assert Ordered(p, true, Do(Report, End));
    var settled := Do(Phase(SettledPhase), Do(Report, End));
    assert Ordered(p, true, settled);
    assert Ordered(p, true, Do(FindFreshClaim, settled));
    assert Ordered(p, true, AfterForwardTrack());
    assert Ordered(p, true, Do(TrackSuccess, AfterForwardTrack()));
    assert Ordered(p, true, Do(SettleInvoice, Do(TrackSuccess, AfterForwardTrack())));
    assert Ordered(p, true, AfterForwardPay());
    assert Ordered(p, true, Do(PayInvoice, AfterForwardPay()));
    assert Ordered(p, true, AfterForwardFunding());
    assert Ordered(p, true, Do(FindFunding, AfterForwardFunding()));
  }

  lemma EndLinks(p: Params)
    requires !p.kind.RefundRun?
    ensures Linked(p, true, Phase(SettledPhase), Report)
    ensures Linked(p, true, Phase(OutputSettledPhase),
                   if p.kind.ReverseRun? then Phase(SettledPhase) else FindFreshClaim)
    ensures Linked(p, true, FindFreshClaim, if p.kind.ReverseRun? then SettleInvoice else Phase(SettledPhase))
  {
  }

  lemma ForwardStartLinks(p: Params)
    requires p.kind.ForwardRun?
    ensures Linked(p, true, ForwardHeight, FindFunding)
    ensures Linked(p, true, FindFunding, Phase(OutputPendingPhase))
    ensures Linked(p, true, Phase(OutputPendingPhase), PayInvoice) && Linked(p, true, PayInvoice, SeeHold)
  {
  }

  lemma ReverseOrdered(p: Params)
    requires p.kind.ReverseRun?
    ensures Ordered(p, true, ReversePlan())
  {
    hide Linked;
    EndLinks(p);
    HoldLinks(p, true);
    ReverseStartLinks(p);
    ReverseHeightLinks(p);
    assert Ordered(p, true, Do(Report, End));
    assert Ordered(p, true, Do(Phase(SettledPhase), Do(Report, End)));
    assert Ordered(p, true, AfterReverseTrack());
    assert Ordered(p, true, Do(TrackSuccess, AfterReverseTrack()));
    assert Ordered(p, true, AfterReverseClaim());
    assert Ordered(p, true, Do(FindFreshClaim, AfterReverseClaim()));
    assert Ordered(p, true, Do(FindFunding, Do(FindFreshClaim, AfterReverseClaim())));
    assert Ordered(p, true, AfterReverseHold());
    assert Ordered(p, true, Do(SeeHold, AfterReverseHold()));
    assert Ordered(p, true, Do(PayInvoice, Do(SeeHold, AfterReverseHold())));
  }

  lemma ReverseStartLinks(p: Params)
    requires p.kind.ReverseRun?
    ensures Linked(p, true, Phase(OutputPendingPhase), PayInvoice) && Linked(p, true, PayInvoice, SeeHold)
    ensures Linked(p, true, SeeHold, ReverseHeight)
  {
  }

  lemma ReverseHeightLinks(p: Params)
    requires p.kind.ReverseRun?
    ensures Linked(p, true, ReverseHeight, FindFunding) && Linked(p, true, FindFunding, FindFreshClaim)
  {
  }

  lemma RefundOrderedPlan(p: Params, anew: bool)
    requires p.kind.RefundRun?
    ensures Ordered(p, anew, RefundPlan())
  {
    hide Linked;
    FailureLinks(p, anew);
    AbsenceLinks(p, anew);
    RefundEndLinks(p, anew);
    assert Ordered(p, anew, Do(ReportRefund, End));
    assert Ordered(p, anew, Do(FindRefund, Do(ReportRefund, End)));
    var late := Do(PastLockHeight, Do(FindRefund, Do(ReportRefund, End)));
    assert Ordered(p, anew, late);
    assert Ordered(p, anew, Do(SomeFunding, late));
    assert Ordered(p, anew, AfterFailure());
    assert Ordered(p, anew, Do(LookupCanceled, AfterFailure()));
  }

  lemma FailureLinks(p: Params, anew: bool)
    requires p.kind.RefundRun?
    ensures Linked(p, anew, TrackFailure, LookupCanceled) && Linked(p, anew, LookupCanceled, NoClaim)
  {
  }

  lemma AbsenceLinks(p: Params, anew: bool)
    requires p.kind.RefundRun?
    ensures Linked(p, anew, SomeFunding, PastLockHeight) && Linked(p, anew, PastLockHeight, FindRefund)
  {
  }

  lemma RefundEndLinks(p: Params, anew: bool)
    requires p.kind.RefundRun?
    ensures Linked(p, anew, NoClaim, SomeFunding) && Linked(p, anew, FindRefund, ReportRefund)
  {
  }

  lemma ExposureReads(p: Params, log: Log, k: Known, x: ReadResult<Outbox>)
    requires Fits(p, log, k, FindExposure)
    ensures Wrong(p, log, ReadOutbox(Funding, x)) <==> x.Corrupt?
    ensures !Completes(p, log, ReadOutbox(Funding, x))
    ensures !x.Corrupt? ==>
      SameMemory(Learns(p, log, k, ReadOutbox(Funding, x)), k.(started := true, exposed := x.Got?))
  {
    hide IsFresh, SettledAtStart, RecordIn, LastBox;
  }

  lemma FreshStarts(p: Params, log: Log, k: Known, x: ReadResult<Outbox>, b: Task)
    requires Fits(p, log, k, FindExposure) && !p.kind.RefundRun?
    requires b == if p.kind.ReverseRun? then Phase(OutputPendingPhase) else ForwardHeight
    ensures forall k2 :: Fits(p, log + [ReadOutbox(Funding, x)], k2, b)
    ensures !NearReport(p, true, b)
  {
    hide IsFresh, SettledAtStart, HtlcVout;
    SnocSays(p, log, ReadOutbox(Funding, x));
  }

  lemma IsExposureRead(p: Params, log: Log, k: Known)
    requires Fits(p, log, k, FindExposure)
    ensures !p.kind.RefundRun? && log != [] && IsFresh(log)
  {
    hide SettledAtStart, HtlcVout;
  }

  lemma FindExposureJudged(p: Params, log: Log, k: Known, rest: Tasks, x: ReadResult<Outbox>)
    requires Tells(p, log, Doing(k, Do(FindExposure, rest)))
    ensures Judged(p, log, Doing(k, Do(FindExposure, rest)), ReadOutbox(Funding, x))
  {
    hide Step, Asks, SettledAtStart, RecordIn, LateForward, LastSpend, LastBox, LastFunding, Ordered, Recalls,
      Advance, FreshPlan, Learns, SameMemory, Starts, Exposes, Completes, Wrong, Fits, FailPoint, Started, Exposed,
      Proven, IsFresh, NearReport;
    Opens(p, log, k, FindExposure, rest);
    FindSteps(p, k, FindExposure, Funding, rest);
    FailsThere(p, log, k);
    ExposureReads(p, log, k, x);
    IsExposureRead(p, log, k);
    var c := ReadOutbox(Funding, x);
    SnocSays(p, log, c);
    if !x.Corrupt? {
      SnocRecalls(p, log, k, c);
      var k2 := k.(started := true, exposed := x.Got?);
      SameRecalls(p, log + [c], Learns(p, log, k, c), k2);
      FreshOrdered(p);
      FreshStarts(p, log, k, x, FreshPlan(p).first);
      AdvanceTells(p, log + [c], k2, FreshPlan(p));
    }
  }

  lemma ReturnJudged(p: Params, log: Log, k: Known, t: Task, rest: Tasks, outcome: Outcome)
    requires Tells(p, log, Doing(k, Do(t, rest))) && TaskCall(p, k, t) == Return(outcome)
    ensures Judged(p, log, Doing(k, Do(t, rest)), Return(outcome))
  {
    hide Tells, TaskCall;
    ReportSteps(p, k, t, outcome, rest);
    assert Tells(p, log + [Return(outcome)], Finished(outcome)) by {
      FinishedTells(p, log + [Return(outcome)], outcome);
    }
  }

  lemma FinishedTells(p: Params, log: Log, outcome: Outcome)
    ensures Tells(p, log, Finished(outcome))
  {
  }

  // Loading the record.

  lemma LoadedTells(p: Params, log: Log, r: Record)
    requires !p.kind.RefundRun? && 1 <= |log| <= 3 && RecordIn(log) == Some(r)
    requires forall c :: c in log ==> c.ReadRecovery? || c.CreateRecovery? || c.FinishRecovery?
    ensures Tells(p, log, Loaded(r))
  {
    hide RecordIn, Ordered;
    OpeningIsSilent(p, log);
    OnlyTask(p, IsFresh(log), FindInvoice);
  }

  lemma {:induction false} OpeningIsSilent(p: Params, log: Log)
    requires forall c :: c in log ==> c.ReadRecovery? || c.CreateRecovery? || c.FinishRecovery?
    ensures LastFunding(log) == None && LastSpend(log) == None && LastBox(log) == None && !SettledAtStart(log)
    ensures !Started(p, log) && !Exposed(p, log)
    decreases |log|
  {
    if log != [] {
      assert log[|log| - 1] in log;
      OpeningIsSilent(p, log[..|log| - 1]);
    }
  }

  lemma LoadingJudged(p: Params, log: Log, found: ReadResult<Record>)
    requires Tells(p, log, Loading)
    ensures Judged(p, log, Loading, ReadRecovery(found))
  {
    hide Asks, Ordered;
    var c := ReadRecovery(found);
    assert log + [c] == [c];
    OpeningIsSilent(p, [c]);
    if found.Got? {
      var r := found.value;
      if p.kind.RefundRun? {
        RefundOrderedPlan(p, IsFresh([c]));
      } else {
        LoadedTells(p, [c], r);
      }
    }
  }

  lemma CreatingJudged(p: Params, log: Log, r: Record, created: Creation)
    requires Tells(p, log, Creating(r))
    ensures Judged(p, log, Creating(r), CreateRecovery(r, created))
  {
    hide Asks;
    assert log + [CreateRecovery(r, created)] == [ReadRecovery(Missing), CreateRecovery(r, created)];
  }

  lemma FinishingJudged(p: Params, log: Log, r: Record, stored: bool, synced: bool)
    requires Tells(p, log, Finishing(r))
    ensures Judged(p, log, Finishing(r), FinishRecovery(r, stored, synced))
  {
    hide Asks;
    var c := FinishRecovery(r, stored, synced);
    assert log + [c] == [ReadRecovery(Missing), CreateRecovery(r, CreatedNew), c];
    OpeningIsSilent(p, log);
    if synced {
      LoadedTells(p, log + [c], r);
    }
  }

  lemma RereadingJudged(p: Params, log: Log, r: Record, found: ReadResult<Record>)
    requires Tells(p, log, Rereading(r))
    ensures Judged(p, log, Rereading(r), ReadRecovery(found))
  {
    hide Asks;
    var c := ReadRecovery(found);
    assert log + [c] == [ReadRecovery(Missing), CreateRecovery(r, AlreadyExists), c];
    OpeningIsSilent(p, log);
    if found == Got(r) {
      LoadedTells(p, log + [c], r);
    }
  }

  // Any point.

  lemma StoringJudged(p: Params, log: Log, k: Known, a: Task, rest: Tasks, c: Call)
    requires Tells(p, log, Doing(k, Do(a, rest))) && Blank(c) == TaskCall(p, k, a)
    requires a.MakeFunding? || a.MakeClaim? || a.MakeRefund? || a.Store? || a.FinishStore? || a.Reread?
    ensures Judged(p, log, Doing(k, Do(a, rest)), c)
  {
    hide Tells, Judged;
    match a {
      case MakeFunding => MakeFundingJudged(p, log, k, rest, c.prepared);
      case MakeClaim => MakeSpendJudged(p, log, k, a, Claim, c.fundingTxid, c.fundingVout, rest, c.prepared);
      case MakeRefund => MakeSpendJudged(p, log, k, a, Refund, c.fundingTxid, c.fundingVout, rest, c.prepared);
      case Store(path, o) => StoreJudged(p, log, k, path, o, rest, c.created);
      case FinishStore(path, o) => FinishJudged(p, log, k, path, o, rest, c.stored, c.synced);
      case Reread(path, o) => RereadJudged(p, log, k, path, o, rest, c.content);
    }
  }

  lemma ReadingJudged(p: Params, log: Log, k: Known, a: Task, rest: Tasks, c: Call)
    requires Tells(p, log, Doing(k, Do(a, rest))) && Blank(c) == TaskCall(p, k, a)
    requires a.FindClaim? || a.FindExposure? || a.SettledFunding? || a.FindFunding? || a.FindFreshClaim?
      || a.FindRefund? || a.NoClaim? || a.SomeFunding?
    ensures Judged(p, log, Doing(k, Do(a, rest)), c)
  {
    hide Tells, Judged;
    match a {
      case FindClaim => FindClaimJudged(p, log, k, rest, c.content);
      case FindExposure => FindExposureJudged(p, log, k, rest, c.content);
      case SettledFunding(h) => SettledFundingJudged(p, log, k, h, rest, c.content);
      case FindFunding => FindFundingJudged(p, log, k, rest, c.content);
      case FindFreshClaim => FindFreshClaimJudged(p, log, k, rest, c.content);
      case FindRefund => FindRefundJudged(p, log, k, rest, c.content);
      case NoClaim => NoClaimJudged(p, log, k, rest, c.content);
      case SomeFunding => SomeFundingJudged(p, log, k, rest, c.content);
    }
  }

  lemma ChainJudged(p: Params, log: Log, k: Known, a: Task, rest: Tasks, c: Call)
    requires Tells(p, log, Doing(k, Do(a, rest))) && Blank(c) == TaskCall(p, k, a)
    requires a.Send? || a.SeeFunding? || a.ConfirmFunding? || a.SeeSpend? || a.ConfirmSpend? || a.ForwardHeight?
      || a.ReverseHeight? || a.PastLockHeight?
    ensures Judged(p, log, Doing(k, Do(a, rest)), c)
  {
    hide Tells, Judged;
    match a {
      case Send(path, o) => SendJudged(p, log, k, path, o, rest, c.ok);
      case SeeFunding(o, again) => SeeFundingJudged(p, log, k, o, again, rest, c.funding);
      case ConfirmFunding(o) => ConfirmFundingJudged(p, log, k, o, rest, c.ok);
      case SeeSpend(path, o, again) => SeeSpendJudged(p, log, k, path, o, again, rest, c.spend);
      case ConfirmSpend(path, o) => ConfirmSpendJudged(p, log, k, path, o, rest, c.ok);
      case ForwardHeight => ForwardHeightJudged(p, log, k, rest, c.height);
      case ReverseHeight => ReverseHeightJudged(p, log, k, rest, c.height);
      case PastLockHeight => PastLockJudged(p, log, k, rest, c.height);
    }
  }

  lemma LightningJudged(p: Params, log: Log, k: Known, a: Task, rest: Tasks, c: Call)
    requires Tells(p, log, Doing(k, Do(a, rest))) && Blank(c) == TaskCall(p, k, a)
    requires a.FindInvoice? || a.MakeInvoice? || a.PayInvoice? || a.SeeHold? || a.SeeTip? || a.SettleInvoice?
      || a.TrackSuccess? || a.TrackFailure? || a.LookupCanceled?
    ensures Judged(p, log, Doing(k, Do(a, rest)), c)
  {
    hide Tells, Judged;
    match a {
      case FindInvoice => FindInvoiceJudged(p, log, k, rest, c.answer);
      case MakeInvoice => MakeInvoiceJudged(p, log, k, rest, c.applied, c.ok);
      case PayInvoice => PayJudged(p, log, k, rest, c.state);
      case SeeHold => SeeHoldJudged(p, log, k, rest, c.invoice);
      case SeeTip(i) => SeeTipJudged(p, log, k, i, rest, c.height);
      case SettleInvoice => SettleJudged(p, log, k, rest, c.applied, c.ok);
      case TrackSuccess => TrackJudged(p, log, k, a, rest, c.payment);
      case TrackFailure => TrackJudged(p, log, k, a, rest, c.payment);
      case LookupCanceled => LookupCanceledJudged(p, log, k, rest, c.answer);
    }
  }

  lemma DoingJudged(p: Params, log: Log, k: Known, a: Task, rest: Tasks, c: Call)
    requires Tells(p, log, Doing(k, Do(a, rest))) && Blank(c) == TaskCall(p, k, a)
    ensures Judged(p, log, Doing(k, Do(a, rest)), c)
  {
    hide Tells, Judged;
    match a {
      case Phase(phase) => PhaseJudged(p, log, k, phase, rest, c.row);
      case Move(phase, from, next) => MoveJudged(p, log, k, phase, from, next, rest, c.committed, c.ok);
      case ConsumeHeld(moved) => ConsumeJudged(p, log, k, moved, rest, c.committed, c.ok);
      case Report => ReturnJudged(p, log, k, a, rest, c.outcome);
      case ReportReplay(_) => ReturnJudged(p, log, k, a, rest, c.outcome);
      case ReportRefund => ReturnJudged(p, log, k, a, rest, c.outcome);
      case _ => OtherJudged(p, log, k, a, rest, c);
    }
  }

  lemma OtherJudged(p: Params, log: Log, k: Known, a: Task, rest: Tasks, c: Call)
    requires Tells(p, log, Doing(k, Do(a, rest))) && Blank(c) == TaskCall(p, k, a)
    requires !a.Phase? && !a.Move? && !a.ConsumeHeld? && !a.Report? && !a.ReportReplay? && !a.ReportRefund?
    ensures Judged(p, log, Doing(k, Do(a, rest)), c)
  {
    hide Tells, Judged, Blank, TaskCall;
    if a.Send? || a.SeeFunding? || a.ConfirmFunding? || a.SeeSpend? || a.ConfirmSpend? || a.ForwardHeight?
       || a.ReverseHeight? || a.PastLockHeight? {
      ChainJudged(p, log, k, a, rest, c);
    } else if a.FindInvoice? || a.MakeInvoice? || a.PayInvoice? || a.SeeHold? || a.SeeTip? || a.SettleInvoice?
              || a.TrackSuccess? || a.TrackFailure? || a.LookupCanceled? {
      LightningJudged(p, log, k, a, rest, c);
    } else if a.MakeFunding? || a.MakeClaim? || a.MakeRefund? || a.Store? || a.FinishStore? || a.Reread? {
      StoringJudged(p, log, k, a, rest, c);
    } else {
      ReadingJudged(p, log, k, a, rest, c);
    }
  }

  lemma StepJudged(p: Params, log: Log, at: Point, c: Call)
    requires Tells(p, log, at) && Asks(p, at, c) && !HasFailed(at)
    ensures Judged(p, log, at, c)
  {
    hide Tells, Judged, TaskCall;
    match at {
      case Loading => LoadingJudged(p, log, c.found);
      case Creating(r) => CreatingJudged(p, log, r, c.created);
      case Finishing(r) => FinishingJudged(p, log, r, c.stored, c.synced);
      case Rereading(r) => RereadingJudged(p, log, r, c.found);
      case Doing(k, tasks) => DoingJudged(p, log, k, tasks.first, tasks.rest, c);
      case Finished(_) =>
    }
  }
}
