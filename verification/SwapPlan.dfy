/** What a run does next (src/swaps/orchestrator.rs, src/cli/live.rs): after any answers so far,
    the one call the runner makes, and where each answer leads. `Follows` describes exactly the
    logs runs can have. */
module SwapPlan {
  import opened Wrappers
  import opened Settlement
  import opened SwapCalls

  datatype SwapError = InvalidInput | Durability | RecoveryMismatch | Chain | Lightning | TimingRejected | Unknown

  datatype SwapPhase =
    | RecoveryPrepared
    | InputFundingPhase
    | InputLockedPhase
    | OutputPendingPhase
    | OutputUnknownPhase
    | OutputSettledPhase
    | ClaimPendingPhase
    | SettledPhase
    | RefundingPhase
    | RefundedPhase

  function PhaseTransition(phase: SwapPhase): Option<(SwapState, SwapState)> {
    match phase
    case RecoveryPrepared => None
    case InputFundingPhase => Some((SwapState.Created, SwapState.InputFunding))
    case InputLockedPhase => Some((SwapState.InputFunding, SwapState.InputLocked))
    case OutputPendingPhase => Some((SwapState.InputLocked, SwapState.OutputPending))
    case OutputUnknownPhase => Some((SwapState.OutputPending, SwapState.OutputUnknown))
    case OutputSettledPhase => Some((SwapState.OutputPending, SwapState.OutputSettled))
    case ClaimPendingPhase => Some((SwapState.OutputSettled, SwapState.ClaimPending))
    case SettledPhase => Some((SwapState.ClaimPending, SwapState.Settled))
    case RefundingPhase => Some((SwapState.InputLocked, SwapState.Refunding))
    case RefundedPhase => Some((SwapState.Refunding, SwapState.Refunded))
  }

  /** The observer's table: the state a phase starts from and the one it asks for. */
  lemma PhasesByName()
    ensures PhaseTransition(RecoveryPrepared) == None
    ensures PhaseTransition(InputFundingPhase) == Some((SwapState.Created, SwapState.InputFunding))
    ensures PhaseTransition(InputLockedPhase) == Some((SwapState.InputFunding, SwapState.InputLocked))
    ensures PhaseTransition(OutputPendingPhase) == Some((SwapState.InputLocked, SwapState.OutputPending))
    ensures PhaseTransition(OutputUnknownPhase) == Some((SwapState.OutputPending, SwapState.OutputUnknown))
    ensures PhaseTransition(OutputSettledPhase) == Some((SwapState.OutputPending, SwapState.OutputSettled))
    ensures PhaseTransition(ClaimPendingPhase) == Some((SwapState.OutputSettled, SwapState.ClaimPending))
    ensures PhaseTransition(SettledPhase) == Some((SwapState.ClaimPending, SwapState.Settled))
    ensures PhaseTransition(RefundingPhase) == Some((SwapState.InputLocked, SwapState.Refunding))
    ensures PhaseTransition(RefundedPhase) == Some((SwapState.Refunding, SwapState.Refunded))
  {
  }

  /** Every phase asks for an edge the store allows, to a state of higher rank or, for the end of a
      refund, of the same; all but the one no run reports are among the edges the runs ask for. */
  lemma PhasesAreEdges(phase: SwapPhase)
    requires PhaseTransition(phase).Some?
    ensures var (from, next) := PhaseTransition(phase).value;
      && CanTransitionTo(from, next) && StateRank(from) <= StateRank(next)
      && (PhaseEdge(from, next) <==> phase != OutputUnknownPhase)
      && (StateRank(from) == StateRank(next) <==> phase == RefundedPhase)
  {
  }

  const MIN_ACCEPTED_HEADROOM_BLOCKS: U64 := 6

  function ValidateInvoiceAmount(invoice: Invoice, amountSats: U64): Option<SwapError> {
    if invoice.amountSats != amountSats then Some(RecoveryMismatch)
    else if invoice.state.Canceled? then Some(Lightning)
    else if invoice.state.Open? && !invoice.hasRequest then Some(Lightning)
    else None
  }

  function ValidateAccepted(invoice: Invoice, amountSats: U64, currentHeight: U64): Option<SwapError> {
    if !invoice.state.Accepted? && !invoice.state.Settled? then Some(Unknown)
    else if invoice.acceptedSats != Some(amountSats) then Some(Lightning)
    else if invoice.state.Settled? then None
    else if invoice.acceptedExpiry.None? then Some(Unknown)
    else match CheckedAdd(currentHeight, MIN_ACCEPTED_HEADROOM_BLOCKS)
         case None => Some(TimingRejected)
         case Some(required) => if invoice.acceptedExpiry.value <= required then Some(TimingRejected) else None
  }

  function ValidateFundingOutbox(o: Outbox): Option<SwapError> {
    if !o.kind.Funding? || o.fundingVout.None? then Some(RecoveryMismatch) else None
  }

  function ValidateSpendOutboxKind(o: Outbox, kind: Kind): Option<SwapError> {
    if o.kind != kind || o.fundingTxid.None? || o.fundingVout.None? then Some(RecoveryMismatch) else None
  }

  function ValidateSpendOutbox(o: Outbox, kind: Kind, txid: Txid, vout: nat): Option<SwapError> {
    match ValidateSpendOutboxKind(o, kind)
    case Some(e) => Some(e)
    case None => if o.fundingTxid != Some(txid) || o.fundingVout != Some(vout) then Some(RecoveryMismatch) else None
  }

  /** The record a run writes when none exists: the terms of its request around the supplied
      or generated material. */
  function NewRecord(p: Params): Record {
    Record(1, RunDirection(p.kind), p.terms.asset, p.terms.feeAsset, p.terms.amountSats, p.terms.assetAmountSats,
           p.terms.feeSats, p.terms.refundLockHeight, p.terms.quoteId, p.supplied.preimage, p.supplied.hash)
  }

  // Where a run is.

  /** The local variables of a run. */
  datatype Known = Known(
    r: Record, invoice: Option<Invoice>, held: Option<Invoice>, tip: U64, funding: Option<FundingEvidence>,
    fundingBox: Option<Outbox>, spend: Option<SpendEvidence>, started: bool, exposed: bool)

  datatype Task =
    | FindInvoice
    | MakeInvoice
    | FindClaim
    | FindExposure
    | ForwardHeight
    | SettledFunding(height: U64)
    | ReverseHeight
    | FindFunding
    | MakeFunding
    | FindFreshClaim
    | MakeClaim
    | Store(path: Kind, o: Outbox)
    | FinishStore(path: Kind, o: Outbox)
    | Reread(path: Kind, o: Outbox)
    | Send(path: Kind, o: Outbox)
    | SeeFunding(o: Outbox, again: bool)
    | ConfirmFunding(o: Outbox)
    | SeeSpend(path: Kind, o: Outbox, again: bool)
    | ConfirmSpend(path: Kind, o: Outbox)
    | Phase(phase: SwapPhase)
    | Move(phase: SwapPhase, from: SwapState, next: SwapState)
    | ConsumeHeld(moved: bool)
    | PayInvoice
    | SeeHold
    | SeeTip(invoice: Invoice)
    | SettleInvoice
    | TrackSuccess
    | Report
    | ReportReplay(o: Outbox)
    | TrackFailure
    | LookupCanceled
    | NoClaim
    | SomeFunding
    | PastLockHeight
    | FindRefund
    | MakeRefund
    | ReportRefund

  datatype Tasks = End | Do(first: Task, rest: Tasks)

  datatype Point =
    | Loading
    | Creating(r: Record)
    | Finishing(r: Record)
    | Rereading(r: Record)
    | Doing(k: Known, tasks: Tasks)
    | CleaningUp(r: Record)
    | Canceling(r: Record)
    | Stopped
    | Finished(outcome: Outcome)

  // The plans.

  function ReplayPlan(o: Outbox): Tasks {
    Do(Send(Claim, o), Do(SeeSpend(Claim, o, false), AfterReplaySend(o)))
  }

  function AfterReplaySend(o: Outbox): Tasks {
    Do(SeeHold, AfterReplayHold(o))
  }

  function AfterReplayHold(o: Outbox): Tasks {
    Do(SettleInvoice, Do(TrackSuccess, AfterReplayTrack(o)))
  }

  function AfterReplayTrack(o: Outbox): Tasks {
    Do(Phase(OutputSettledPhase), Do(Phase(SettledPhase), Do(ReportReplay(o), End)))
  }

  function ForwardPlan(): Tasks {
    Do(ForwardHeight, Do(FindFunding, AfterForwardFunding()))
  }

  function AfterForwardFunding(): Tasks {
    Do(Phase(OutputPendingPhase), Do(PayInvoice, AfterForwardPay()))
  }

  function AfterForwardPay(): Tasks {
    Do(SeeHold, Do(SettleInvoice, Do(TrackSuccess, AfterForwardTrack())))
  }

  function AfterForwardTrack(): Tasks {
    Do(Phase(OutputSettledPhase), Do(FindFreshClaim, Do(Phase(SettledPhase), Do(Report, End))))
  }

  function ReversePlan(): Tasks {
    Do(Phase(OutputPendingPhase), Do(PayInvoice, Do(SeeHold, AfterReverseHold())))
  }

  function AfterReverseHold(): Tasks {
    Do(ReverseHeight, Do(FindFunding, Do(FindFreshClaim, AfterReverseClaim())))
  }

  function AfterReverseClaim(): Tasks {
    Do(SettleInvoice, Do(TrackSuccess, AfterReverseTrack()))
  }

  function AfterReverseTrack(): Tasks {
    Do(Phase(OutputSettledPhase), Do(Phase(SettledPhase), Do(Report, End)))
  }

  function RefundPlan(): Tasks {
    Do(TrackFailure, Do(LookupCanceled, AfterFailure()))
  }

  function AfterFailure(): Tasks {
    Do(NoClaim, Do(SomeFunding, Do(PastLockHeight, Do(FindRefund, Do(ReportRefund, End)))))
  }

  function FundingPlan(o: Outbox, rest: Tasks): Tasks {
    Do(Phase(InputFundingPhase), Do(Send(Funding, o), Do(SeeFunding(o, false), Do(Phase(InputLockedPhase), rest))))
  }

  function ClaimPlan(o: Outbox, rest: Tasks): Tasks {
    Do(Phase(ClaimPendingPhase), Do(Send(Claim, o), Do(SeeSpend(Claim, o, false), rest)))
  }

  function SendRefundPlan(o: Outbox, rest: Tasks): Tasks {
    Do(Phase(RefundingPhase),
       Do(Send(Refund, o), Do(SeeSpend(Refund, o, false), Do(Phase(RefundedPhase), rest))))
  }

  // Questions. A call with its answer blanked is the question it asks.

  function Blank(c: Call): Call {
    match c
    case ReadRecovery(_) => ReadRecovery(Missing)
    case CreateRecovery(r, _) => CreateRecovery(r, CreatedNew)
    case FinishRecovery(r, _, _) => FinishRecovery(r, true, true)
    case ReadOutbox(path, _) => ReadOutbox(path, Missing)
    case CreateOutbox(path, o, _) => CreateOutbox(path, o, CreatedNew)
    case FinishOutbox(path, o, _, _) => FinishOutbox(path, o, true, true)
    case ReadRow(_) => ReadRow(None)
    case Transition(from, to, _, _) => Transition(from, to, true, true)
    case Consume(_, _) => Consume(true, true)
    case Height(_) => Height(None)
    case PrepareFunding(_) => PrepareFunding(None)
    case PrepareSpend(kind, txid, vout, _) => PrepareSpend(kind, txid, vout, None)
    case Broadcast(path, o, _) => Broadcast(path, o, true)
    case ObserveFunding(txid, vout, _) => ObserveFunding(txid, vout, None)
    case Confirm(_) => Confirm(true)
    case ObserveSpend(path, o, _) => ObserveSpend(path, o, None)
    case Lookup(hash, _) => Lookup(hash, NotFound)
    case CreateInvoice(hash, amount, _, _) => CreateInvoice(hash, amount, true, true)
    case ObserveAccepted(hash, _) => ObserveAccepted(hash, None)
    case Tip(_) => Tip(None)
    case Pay(hash, amount, _) => Pay(hash, amount, None)
    case SettleHold(hash, preimage, _, _) => SettleHold(hash, preimage, true, true)
    case CancelHold(hash, _, _) => CancelHold(hash, true, true)
    case Track(hash, _) => Track(hash, None)
    case Return(outcome) => Return(outcome)
  }

  function FundingOf(k: Known): FundingEvidence {
    k.funding.UnwrapOr(FundingEvidence("", 0, 0))
  }

  function SpendOf(k: Known): SpendEvidence {
    k.spend.UnwrapOr(SpendEvidence("", "", 0, false))
  }

  function FundingBoxOf(k: Known): Outbox {
    k.fundingBox.UnwrapOr(Outbox(Funding, "", "", None, None))
  }

  /** The call a task makes. */
  function TaskCall(p: Params, k: Known, t: Task): Call {
    match t
    case FindInvoice => Lookup(k.r.hash, NotFound)
    case MakeInvoice => CreateInvoice(k.r.hash, p.terms.amountSats, true, true)
    case FindClaim => ReadOutbox(Claim, Missing)
    case FindExposure => ReadOutbox(Funding, Missing)
    case ForwardHeight => Height(None)
    case SettledFunding(_) => ReadOutbox(Funding, Missing)
    case ReverseHeight => Height(None)
    case FindFunding => ReadOutbox(Funding, Missing)
    case MakeFunding => PrepareFunding(None)
    case FindFreshClaim => ReadOutbox(Claim, Missing)
    case MakeClaim => PrepareSpend(Claim, FundingOf(k).txid, FundingOf(k).vout, None)
    case Store(path, o) => CreateOutbox(path, o, CreatedNew)
    case FinishStore(path, o) => FinishOutbox(path, o, true, true)
    case Reread(path, _) => ReadOutbox(path, Missing)
    case Send(path, o) => Broadcast(path, o, true)
    case SeeFunding(o, _) => ObserveFunding(o.txid, HtlcVout(o), None)
    case ConfirmFunding(_) => Confirm(true)
    case SeeSpend(path, o, _) => ObserveSpend(path, o, None)
    case ConfirmSpend(_, _) => Confirm(true)
    case Phase(_) => ReadRow(None)
    case Move(_, from, next) => Transition(from, next, true, true)
    case ConsumeHeld(_) => Consume(true, true)
    case PayInvoice => Pay(k.r.hash, p.terms.amountSats, None)
    case SeeHold => ObserveAccepted(k.r.hash, None)
    case SeeTip(_) => Tip(None)
    case SettleInvoice => SettleHold(k.r.hash, k.r.preimage, true, true)
    case TrackSuccess => Track(k.r.hash, None)
    case Report => Return(Completed(RunDirection(p.kind), FundingOf(k).txid, SpendOf(k).txid))
    case ReportReplay(o) => Return(Completed(RunDirection(p.kind), o.fundingTxid.UnwrapOr(""), SpendOf(k).txid))
    case TrackFailure => Track(k.r.hash, None)
    case LookupCanceled => Lookup(k.r.hash, NotFound)
    case NoClaim => ReadOutbox(Claim, Missing)
    case SomeFunding => ReadOutbox(Funding, Missing)
    case PastLockHeight => Height(None)
    case FindRefund => ReadOutbox(Refund, Missing)
    case MakeRefund => PrepareSpend(Refund, FundingBoxOf(k).txid, HtlcVout(FundingBoxOf(k)), None)
    case ReportRefund => Return(RefundDone(SpendOf(k).fundingTxid, SpendOf(k).txid))
  }

  /** The one call a run at this point makes, if it still makes any. */
  function NextCall(p: Params, at: Point): Option<Call> {
    match at
    case Loading => Some(ReadRecovery(Missing))
    case Creating(r) => Some(CreateRecovery(r, CreatedNew))
    case Finishing(r) => Some(FinishRecovery(r, true, true))
    case Rereading(_) => Some(ReadRecovery(Missing))
    case Doing(k, tasks) => if tasks.End? then None else Some(TaskCall(p, k, tasks.first))
    case CleaningUp(r) => Some(ObserveAccepted(r.hash, None))
    case Canceling(r) => Some(CancelHold(r.hash, true, true))
    case Stopped => None
    case Finished(_) => None
  }

  /** Whether a call asks what the run asks here, whatever its answer. */
  predicate Asks(p: Params, at: Point, c: Call) {
    NextCall(p, at) == Some(Blank(c))
  }

  // Answers.

  /** A failed run looks at the hold once more if it started and exposed nothing. */
  function Fail(k: Known): Point {
    if k.started && !k.exposed then CleaningUp(k.r) else Stopped
  }

  /** Tasks the runner passes over without a call. */
  predicate Silent(p: Params, k: Known, t: Task) {
    match t
    case Phase(phase) => !p.core || PhaseTransition(phase).None?
    case PayInvoice => !(k.invoice.Some? && k.invoice.value.state.Open?)
    case SettleInvoice => k.held.Some? && k.held.value.state.Settled?
    case _ => false
  }

  function Advance(p: Params, k: Known, tasks: Tasks): Point {
    if tasks.End? then Stopped
    else if Silent(p, k, tasks.first) then Advance(p, k, tasks.rest)
    else if tasks.first.Report? && !(SpendOf(k).verified && FundingOf(k).confirmations != 0) then Fail(k)
    else Doing(k, tasks)
  }

  /** A run stays before a task that makes a call and reports nothing. */
  lemma AdvanceTo(p: Params, k: Known, t: Task, rest: Tasks)
    requires !Silent(p, k, t) && !t.Report?
    ensures Advance(p, k, Do(t, rest)) == Doing(k, Do(t, rest))
  {
  }

  /** A silent task is passed over. */
  lemma AdvancePast(p: Params, k: Known, t: Task, rest: Tasks)
    requires Silent(p, k, t)
    ensures Advance(p, k, Do(t, rest)) == Advance(p, k, rest)
  {
  }

  function NewKnown(r: Record): Known {
    Known(r, None, None, 0, None, None, None, false, false)
  }

  function StartPoint(p: Params): Point {
    if !p.kind.RefundRun?
       && (p.terms.amountSats == 0 || p.terms.assetAmountSats == 0 || p.terms.refundLockHeight == 0)
    then Stopped else Loading
  }

  function Loaded(r: Record): Point {
    Doing(NewKnown(r), Do(FindInvoice, End))
  }

  function AfterLoading(p: Params, found: ReadResult<Record>): Point {
    match found
    case Corrupt => Stopped
    case Got(r) =>
      if p.kind.RefundRun? then
        if r.amountSats == p.terms.amountSats then Doing(NewKnown(r), RefundPlan()) else Stopped
      else if MatchesRequest(p, r) then Loaded(r) else Stopped
    case Missing =>
      if p.kind.RefundRun? || !p.materialOk(NewRecord(p)) then Stopped else Creating(NewRecord(p))
  }

  /** An open invoice must carry a request that decodes to this hash and amount. */
  function WithInvoice(p: Params, k: Known, i: Invoice): Point {
    if i.state.Open? && !(i.hasRequest && p.invoiceOk(k.r.hash)) then Fail(k)
    else Doing(k.(invoice := Some(i)), Do(FindClaim, End))
  }

  function FreshPlan(p: Params): Tasks {
    if p.kind.ReverseRun? then ReversePlan() else ForwardPlan()
  }

  function TimeForward(p: Params, k: Known, h: U64, rest: Tasks): Point {
    if h > k.r.refundLockHeight
       || Timing.ValidateForwardTiming(p.terms.lightningCltvLimit, k.r.refundLockHeight - h, p.terms.claimMargin).Err?
    then Fail(k) else Advance(p, k, rest)
  }

  /** A transaction is stored: its exposure is marked and its own tasks come first. */
  function Stored(p: Params, k: Known, path: Kind, o: Outbox, rest: Tasks): Point {
    match path
    case Funding => Advance(p, k.(exposed := true), FundingPlan(o, rest))
    case Claim => Advance(p, k.(exposed := true), ClaimPlan(o, rest))
    case Refund => Advance(p, k, SendRefundPlan(o, rest))
  }

  function OnRow(p: Params, k: Known, phase: SwapPhase, row: Option<SwapState>, rest: Tasks): Point {
    if row.None? || PhaseTransition(phase).None? then Fail(k)
    else
      var (expected, next) := PhaseTransition(phase).value;
      var s := row.value;
      var from := if phase.OutputSettledPhase? && s.OutputUnknown? then SwapState.OutputUnknown else expected;
      if s == next || StateRank(s) > StateRank(next) then
        if phase.OutputSettledPhase? then Doing(k, Do(ConsumeHeld(false), rest)) else Advance(p, k, rest)
      else if s != from then Fail(k)
      else Doing(k, Do(Move(phase, from, next), rest))
  }

  function OnOutbox(p: Params, k: Known, t: Task, content: ReadResult<Outbox>, rest: Tasks): Point {
    match t
    case FindClaim =>
      (match content
       case Missing => Doing(k, Do(FindExposure, End))
       case Corrupt => Fail(k)
       case Got(o) => if ValidateSpendOutboxKind(o, Claim).Some? then Fail(k) else Doing(k, ReplayPlan(o)))
    case FindExposure =>
      if content.Corrupt? then Fail(k)
      else Advance(p, k.(started := true, exposed := content.Got?), FreshPlan(p))
    case SettledFunding(h) =>
      (match content
       case Missing => TimeForward(p, k, h, rest)
       case Corrupt => Fail(k)
       case Got(_) => Advance(p, k, rest))
    case FindFunding =>
      (match content
       case Missing => Doing(k, Do(MakeFunding, rest))
       case Corrupt => Fail(k)
       case Got(o) => if ValidateFundingOutbox(o).Some? then Fail(k) else Stored(p, k, Funding, o, rest))
    case FindFreshClaim =>
      (match content
       case Missing => Doing(k, Do(MakeClaim, rest))
       case Corrupt => Fail(k)
       case Got(o) =>
         if ValidateSpendOutbox(o, Claim, FundingOf(k).txid, FundingOf(k).vout).Some? then Fail(k)
         else Stored(p, k, Claim, o, rest))
    case FindRefund =>
      (match content
       case Missing => Doing(k, Do(MakeRefund, rest))
       case Corrupt => Fail(k)
       case Got(o) =>
         if ValidateSpendOutbox(o, Refund, FundingBoxOf(k).txid, HtlcVout(FundingBoxOf(k))).Some? then Fail(k)
         else Stored(p, k, Refund, o, rest))
    case NoClaim => if content.Missing? then Advance(p, k, rest) else Fail(k)
    case SomeFunding =>
      if content.Got? then Advance(p, k.(fundingBox := Some(content.value)), rest) else Fail(k)
    case Reread(path, o) => if content == Got(o) then Stored(p, k, path, o, rest) else Fail(k)
    case _ => Stopped
  }

  function OnHeight(p: Params, k: Known, t: Task, height: Option<U64>, rest: Tasks): Point {
    if height.None? then Fail(k)
    else
      match t
      case ForwardHeight =>
        if k.invoice.Some? && k.invoice.value.state.Settled? then Doing(k, Do(SettledFunding(height.value), rest))
        else TimeForward(p, k, height.value, rest)
      case ReverseHeight =>
        if k.held.Some? && ReverseTimingOk(p, k.r, k.held.value, k.tip, height.value) then Advance(p, k, rest)
        else Fail(k)
      case _ => if height.value < k.r.refundLockHeight then Fail(k) else Advance(p, k, rest)
  }

  function OnLookup(p: Params, k: Known, t: Task, answer: InvoiceAnswer, rest: Tasks): Point {
    if t.LookupCanceled? then
      if answer.Found? && IsCanceledHold(p, answer.invoice) then Advance(p, k, rest) else Fail(k)
    else
      match answer
      case Found(i) => if ValidateInvoiceAmount(i, p.terms.amountSats).Some? then Fail(k) else WithInvoice(p, k, i)
      case NotFound => Doing(k, Do(MakeInvoice, End))
      case LookupFailed => Fail(k)
  }

  /** The invoice a refund needs: canceled after the exact amount was held. */
  predicate IsCanceledHold(p: Params, i: Invoice) {
    i.state.Canceled? && i.amountSats == p.terms.amountSats && i.acceptedSats == Some(p.terms.amountSats)
  }

  function OnTrack(p: Params, k: Known, t: Task, payment: Option<Payment>, rest: Tasks): Point {
    var good := payment.Some?
      && if t.TrackFailure? then payment.value.state == PaymentState.Failed
         else payment.value == Payment(Succeeded, Some(k.r.preimage));
    if good then Advance(p, k, rest) else Fail(k)
  }

  function OnPrepared(p: Params, k: Known, path: Kind, prepared: Option<Outbox>, rest: Tasks): Point {
    if prepared.None? || prepared.value.kind != path then Fail(k) else Doing(k, Do(Store(path, prepared.value), rest))
  }

  function OnCreated(k: Known, path: Kind, o: Outbox, created: Creation, rest: Tasks): Point {
    match created
    case CreatedNew => Doing(k, Do(FinishStore(path, o), rest))
    case AlreadyExists => Doing(k, Do(Reread(path, o), rest))
    case CreateFailed => Fail(k)
  }

  function OnFundingSeen(p: Params, k: Known, o: Outbox, again: bool, e: Option<FundingEvidence>, rest: Tasks): Point {
    if e.Some? then Advance(p, k.(funding := e), rest)
    else if again then Fail(k) else Doing(k, Do(ConfirmFunding(o), rest))
  }

  function OnSpendSeen(p: Params, k: Known, path: Kind, o: Outbox, again: bool, e: Option<SpendEvidence>, rest: Tasks)
    : Point
  {
    if e.Some? then Advance(p, k.(spend := e), rest)
    else if again then Fail(k) else Doing(k, Do(ConfirmSpend(path, o), rest))
  }

  function OnTip(p: Params, k: Known, i: Invoice, tip: Option<U64>, rest: Tasks): Point {
    if tip.None? || ValidateAccepted(i, p.terms.amountSats, tip.value).Some? then Fail(k)
    else Advance(p, k.(held := Some(i), tip := tip.value), rest)
  }

  function OnOk(p: Params, k: Known, ok: bool, rest: Tasks): Point {
    if ok then Advance(p, k, rest) else Fail(k)
  }

  function OnMoved(p: Params, k: Known, phase: SwapPhase, ok: bool, rest: Tasks): Point {
    if !ok then Fail(k)
    else if phase.OutputSettledPhase? then Doing(k, Do(ConsumeHeld(true), rest)) else Advance(p, k, rest)
  }

  function OnPaid(p: Params, k: Known, state: Option<PaymentState>, rest: Tasks): Point {
    OnOk(p, k, state.Some? && state.value != PaymentState.Failed, rest)
  }

  /** A created invoice is open, for the requested amount and with a request. */
  function OnInvoice(p: Params, k: Known, ok: bool): Point {
    if ok then WithInvoice(p, k, Invoice(InvoiceState.Open, p.terms.amountSats, true, None, None)) else Fail(k)
  }

  /** Where the answer to the first task leads. */
  function StepTask(p: Params, k: Known, t: Task, rest: Tasks, c: Call): Point {
    match c
    case ReadOutbox(_, content) => OnOutbox(p, k, t, content, rest)
    case Height(h) => OnHeight(p, k, t, h, rest)
    case Lookup(_, answer) => OnLookup(p, k, t, answer, rest)
    case Track(_, payment) => OnTrack(p, k, t, payment, rest)
    case CreateInvoice(_, _, _, ok) => OnInvoice(p, k, ok)
    case PrepareFunding(o) => OnPrepared(p, k, Funding, o, rest)
    case PrepareSpend(kind, _, _, o) => OnPrepared(p, k, kind, o, rest)
    case CreateOutbox(path, o, created) => OnCreated(k, path, o, created, rest)
    case FinishOutbox(path, o, _, synced) => if synced then Stored(p, k, path, o, rest) else Fail(k)
    case Broadcast(_, _, ok) => OnOk(p, k, ok, rest)
    case ObserveFunding(_, _, e) => if t.SeeFunding? then OnFundingSeen(p, k, t.o, t.again, e, rest) else Stopped
    case ObserveSpend(path, o, e) => if t.SeeSpend? then OnSpendSeen(p, k, path, o, t.again, e, rest) else Stopped
    case Confirm(ok) =>
      if !ok then Fail(k)
      else if t.ConfirmFunding? then Doing(k, Do(SeeFunding(t.o, true), rest))
      else if t.ConfirmSpend? then Doing(k, Do(SeeSpend(t.path, t.o, true), rest)) else Stopped
    case ReadRow(row) => if t.Phase? then OnRow(p, k, t.phase, row, rest) else Stopped
    case Transition(_, _, _, ok) => if t.Move? then OnMoved(p, k, t.phase, ok, rest) else Stopped
    case Consume(_, ok) =>
      if !ok || (t.ConsumeHeld? && t.moved && p.stopAfterPayment) then Fail(k) else Advance(p, k, rest)
    case Pay(_, _, state) => OnPaid(p, k, state, rest)
    case ObserveAccepted(_, i) => if i.Some? then Doing(k, Do(SeeTip(i.value), rest)) else Fail(k)
    case Tip(tip) => if t.SeeTip? then OnTip(p, k, t.invoice, tip, rest) else Stopped
    case SettleHold(_, _, _, ok) => OnOk(p, k, ok, rest)
    case Return(outcome) => Finished(outcome)
    case _ => Stopped
  }

  /** Where a run is after its next call was answered. */
  function Step(p: Params, at: Point, c: Call): Point {
    match at
    case Loading => if c.ReadRecovery? then AfterLoading(p, c.found) else Stopped
    case Creating(r) =>
      if !c.CreateRecovery? || c.created.CreateFailed? then Stopped
      else if c.created.CreatedNew? then Finishing(r) else Rereading(r)
    case Finishing(r) => if c.FinishRecovery? && c.synced then Loaded(r) else Stopped
    case Rereading(r) => if c.ReadRecovery? && c.found == Got(r) then Loaded(r) else Stopped
    case Doing(k, tasks) => if tasks.End? then Stopped else StepTask(p, k, tasks.first, tasks.rest, c)
    case CleaningUp(r) =>
      if c.ObserveAccepted? && c.invoice.Some? && c.invoice.value.state.Accepted? then Canceling(r) else Stopped
    case _ => Stopped
  }

  // The answers, task by task.

  lemma StoreSteps(p: Params, k: Known, path: Kind, o: Outbox, rest: Tasks)
    ensures var at := Doing(k, Do(Store(path, o), rest));
      forall x ::
        && Asks(p, at, CreateOutbox(path, o, x))
        && Step(p, at, CreateOutbox(path, o, x)) == OnCreated(k, path, o, x, rest)
  {
    hide Advance, Stored, Fail;
  }

  lemma FinishSteps(p: Params, k: Known, path: Kind, o: Outbox, rest: Tasks)
    ensures var at := Doing(k, Do(FinishStore(path, o), rest));
      forall x, ok ::
        && Asks(p, at, FinishOutbox(path, o, x, ok))
        && Step(p, at, FinishOutbox(path, o, x, ok)) == if ok then Stored(p, k, path, o, rest) else Fail(k)
  {
    hide Advance, Stored, Fail;
  }

  lemma RereadSteps(p: Params, k: Known, path: Kind, o: Outbox, rest: Tasks)
    ensures var at := Doing(k, Do(Reread(path, o), rest));
      forall x ::
        && Asks(p, at, ReadOutbox(path, x))
        && Step(p, at, ReadOutbox(path, x)) == if x == Got(o) then Stored(p, k, path, o, rest) else Fail(k)
  {
    hide Advance, Stored, Fail;
  }

  lemma SendSteps(p: Params, k: Known, path: Kind, o: Outbox, rest: Tasks)
    ensures var at := Doing(k, Do(Send(path, o), rest));
      forall ok ::
        && Asks(p, at, Broadcast(path, o, ok))
        && Step(p, at, Broadcast(path, o, ok)) == OnOk(p, k, ok, rest)
  {
    hide Advance, Fail;
  }

  lemma SeeFundingSteps(p: Params, k: Known, o: Outbox, again: bool, rest: Tasks)
    ensures var at := Doing(k, Do(SeeFunding(o, again), rest));
      forall e ::
        && Asks(p, at, ObserveFunding(o.txid, HtlcVout(o), e))
        && Step(p, at, ObserveFunding(o.txid, HtlcVout(o), e)) == OnFundingSeen(p, k, o, again, e, rest)
    ensures var at := Doing(k, Do(ConfirmFunding(o), rest));
      forall ok ::
        && Asks(p, at, Confirm(ok))
        && Step(p, at, Confirm(ok)) == if ok then Doing(k, Do(SeeFunding(o, true), rest)) else Fail(k)
  {
    hide Advance, Fail, HtlcVout;
  }

  lemma SeeSpendSteps(p: Params, k: Known, path: Kind, o: Outbox, again: bool, rest: Tasks)
    ensures var at := Doing(k, Do(SeeSpend(path, o, again), rest));
      forall e ::
        && Asks(p, at, ObserveSpend(path, o, e))
        && Step(p, at, ObserveSpend(path, o, e)) == OnSpendSeen(p, k, path, o, again, e, rest)
    ensures var at := Doing(k, Do(ConfirmSpend(path, o), rest));
      forall ok ::
        && Asks(p, at, Confirm(ok))
        && Step(p, at, Confirm(ok)) == if ok then Doing(k, Do(SeeSpend(path, o, true), rest)) else Fail(k)
  {
    hide Advance, Fail;
  }

  lemma PhaseSteps(p: Params, k: Known, phase: SwapPhase, rest: Tasks)
    ensures var at := Doing(k, Do(Phase(phase), rest));
      forall row ::
        && Asks(p, at, ReadRow(row))
        && Step(p, at, ReadRow(row)) == OnRow(p, k, phase, row, rest)
  {
    hide OnRow;
  }

  lemma MoveSteps(p: Params, k: Known, phase: SwapPhase, from: SwapState, next: SwapState, rest: Tasks)
    ensures var at := Doing(k, Do(Move(phase, from, next), rest));
      forall x, ok ::
        && Asks(p, at, Transition(from, next, x, ok))
        && Step(p, at, Transition(from, next, x, ok)) == OnMoved(p, k, phase, ok, rest)
  {
    hide Advance, Fail;
  }

  lemma ConsumeSteps(p: Params, k: Known, moved: bool, rest: Tasks)
    ensures var at := Doing(k, Do(ConsumeHeld(moved), rest));
      forall x, ok ::
        && Asks(p, at, Consume(x, ok))
        && Step(p, at, Consume(x, ok)) == OnOk(p, k, ok && !(moved && p.stopAfterPayment), rest)
  {
    hide Advance, Fail;
  }

  lemma HoldSteps(p: Params, k: Known, rest: Tasks)
    ensures var at := Doing(k, Do(SeeHold, rest));
      forall i ::
        && Asks(p, at, ObserveAccepted(k.r.hash, i))
        && Step(p, at, ObserveAccepted(k.r.hash, i)) == if i.Some? then Doing(k, Do(SeeTip(i.value), rest)) else Fail(k)
  {
    hide Advance, Fail;
  }

  lemma TipSteps(p: Params, k: Known, i: Invoice, rest: Tasks)
    ensures var at := Doing(k, Do(SeeTip(i), rest));
      forall x ::
        && Asks(p, at, Tip(x))
        && Step(p, at, Tip(x)) == OnTip(p, k, i, x, rest)
  {
    hide OnTip;
  }

  lemma SettleSteps(p: Params, k: Known, rest: Tasks)
    ensures var at := Doing(k, Do(SettleInvoice, rest));
      forall x, ok ::
        && Asks(p, at, SettleHold(k.r.hash, k.r.preimage, x, ok))
        && Step(p, at, SettleHold(k.r.hash, k.r.preimage, x, ok)) == OnOk(p, k, ok, rest)
  {
    hide Advance, Fail;
  }

  /** Only what the settlement reports is seen. */
  lemma SettleIsSeen(p: Params, at: Point, hash: Hash, preimage: Preimage, applied: bool, ok: bool)
    ensures Step(p, at, SettleHold(hash, preimage, ok || applied, ok))
        == Step(p, at, SettleHold(hash, preimage, ok, ok))
  {
    hide Advance, Fail;
  }

  /** Only what the creation reports is seen. */
  lemma InvoiceIsSeen(p: Params, at: Point, hash: Hash, sats: U64, applied: bool, ok: bool)
    ensures Step(p, at, CreateInvoice(hash, sats, ok || applied, ok)) == Step(p, at, CreateInvoice(hash, sats, ok, ok))
  {
    hide Advance, Fail;
  }

  lemma TrackSteps(p: Params, k: Known, t: Task, rest: Tasks)
    requires t.TrackSuccess? || t.TrackFailure?
    ensures var at := Doing(k, Do(t, rest));
      forall x ::
        && Asks(p, at, Track(k.r.hash, x))
        && Step(p, at, Track(k.r.hash, x)) == OnTrack(p, k, t, x, rest)
  {
    hide OnTrack;
  }

  lemma PaySteps(p: Params, k: Known, rest: Tasks)
    ensures var at := Doing(k, Do(PayInvoice, rest));
      forall x ::
        && Asks(p, at, Pay(k.r.hash, p.terms.amountSats, x))
        && Step(p, at, Pay(k.r.hash, p.terms.amountSats, x)) == OnPaid(p, k, x, rest)
  {
    hide Advance, Fail;
  }

  /** Reads of outboxes that only look. */
  lemma FindSteps(p: Params, k: Known, t: Task, path: Kind, rest: Tasks)
    requires TaskCall(p, k, t) == ReadOutbox(path, Missing)
    ensures var at := Doing(k, Do(t, rest));
      forall x ::
        && Asks(p, at, ReadOutbox(path, x))
        && Step(p, at, ReadOutbox(path, x)) == OnOutbox(p, k, t, x, rest)
  {
    hide OnOutbox;
  }

  lemma FindRefundSteps(p: Params, k: Known, f: Outbox, rest: Tasks)
    requires k.fundingBox == Some(f)
    ensures var at := Doing(k, Do(FindRefund, rest));
      && (forall x :: Asks(p, at, ReadOutbox(Refund, x)))
      && Step(p, at, ReadOutbox(Refund, Missing)) == Doing(k, Do(MakeRefund, rest))
      && Step(p, at, ReadOutbox(Refund, Corrupt)) == Fail(k)
    ensures forall o ::
      Step(p, Doing(k, Do(FindRefund, rest)), ReadOutbox(Refund, Got(o)))
      == if ValidateSpendOutbox(o, Refund, f.txid, HtlcVout(f)).Some? then Fail(k) else Stored(p, k, Refund, o, rest)
  {
    hide Advance, Stored, Fail, ValidateSpendOutbox, HtlcVout;
  }

  /** Where nothing is found, something is made. */
  lemma MissingSteps(p: Params, k: Known, rest: Tasks)
    ensures OnOutbox(p, k, FindFunding, Missing, rest) == Doing(k, Do(MakeFunding, rest))
    ensures OnOutbox(p, k, FindFreshClaim, Missing, rest) == Doing(k, Do(MakeClaim, rest))
    ensures OnOutbox(p, k, NoClaim, Missing, rest) == Advance(p, k, rest)
  {
    hide Advance;
  }

  lemma MakeInvoiceSteps(p: Params, k: Known)
    ensures var at := Doing(k, Do(MakeInvoice, End));
      forall x, ok ::
        && Asks(p, at, CreateInvoice(k.r.hash, p.terms.amountSats, x, ok))
        && Step(p, at, CreateInvoice(k.r.hash, p.terms.amountSats, x, ok)) == OnInvoice(p, k, ok)
  {
    hide Fail, WithInvoice;
  }

  lemma HeightSteps(p: Params, k: Known, t: Task, rest: Tasks)
    requires t.ForwardHeight? || t.ReverseHeight? || t.PastLockHeight?
    ensures var at := Doing(k, Do(t, rest));
      forall x ::
        && Asks(p, at, Height(x))
        && Step(p, at, Height(x)) == OnHeight(p, k, t, x, rest)
  {
    hide OnHeight;
  }

  lemma LookupSteps(p: Params, k: Known, t: Task, rest: Tasks)
    requires t.FindInvoice? || t.LookupCanceled?
    ensures var at := Doing(k, Do(t, rest));
      forall x ::
        && Asks(p, at, Lookup(k.r.hash, x))
        && Step(p, at, Lookup(k.r.hash, x)) == OnLookup(p, k, t, x, rest)
  {
    hide OnLookup;
  }

  lemma MakeFundingSteps(p: Params, k: Known, rest: Tasks)
    ensures var at := Doing(k, Do(MakeFunding, rest));
      forall x ::
        && Asks(p, at, PrepareFunding(x))
        && Step(p, at, PrepareFunding(x)) == OnPrepared(p, k, Funding, x, rest)
  {
    hide OnPrepared;
  }

  lemma MakeSpendSteps(p: Params, k: Known, t: Task, path: Kind, txid: Txid, vout: nat, rest: Tasks)
    requires TaskCall(p, k, t) == PrepareSpend(path, txid, vout, None)
    ensures var at := Doing(k, Do(t, rest));
      forall x ::
        && Asks(p, at, PrepareSpend(path, txid, vout, x))
        && Step(p, at, PrepareSpend(path, txid, vout, x)) == OnPrepared(p, k, path, x, rest)
  {
    hide OnPrepared, TaskCall;
  }

  lemma LoadingSteps(p: Params)
    ensures forall x ::
      && Asks(p, Loading, ReadRecovery(x))
      && Step(p, Loading, ReadRecovery(x)) == AfterLoading(p, x)
  {
    hide AfterLoading;
  }

  lemma ReportSteps(p: Params, k: Known, t: Task, outcome: Outcome, rest: Tasks)
    requires TaskCall(p, k, t) == Return(outcome)
    ensures var at := Doing(k, Do(t, rest));
      NextCall(p, at) == Some(Return(outcome)) && Step(p, at, Return(outcome)) == Finished(outcome)
  {
    hide TaskCall, Advance, Fail;
  }

  lemma CleanupSteps(p: Params, r: Record)
    ensures forall i ::
      && Asks(p, CleaningUp(r), ObserveAccepted(r.hash, i))
      && Step(p, CleaningUp(r), ObserveAccepted(r.hash, i))
         == if i.Some? && i.value.state.Accepted? then Canceling(r) else Stopped
    ensures forall x, ok ::
      && Asks(p, Canceling(r), CancelHold(r.hash, x, ok))
      && Step(p, Canceling(r), CancelHold(r.hash, x, ok)) == Stopped
  {
  }

  // Logs.

  function Where(p: Params, log: Log): Point {
    if log == [] then StartPoint(p) else Step(p, Where(p, log[..|log| - 1]), log[|log| - 1])
  }

  /** Every call of the log is the one the run makes there: these are the logs runs can have. */
  ghost predicate Follows(p: Params, log: Log) {
    forall n: nat {:trigger At(n)} :: At(n) && n < |log| ==> Asks(p, Where(p, log[..n]), log[n])
  }

  /** `at` is where the log leaves its run; folded until a position is named. */
  ghost predicate IsAt(p: Params, log: Log, at: Point) {
    forall n: nat {:trigger At(n)} :: At(n) && n == |log| ==> at == Where(p, log[..n])
  }

  lemma FollowsSnoc(p: Params, log: Log, at: Point, c: Call)
    requires Follows(p, log) && IsAt(p, log, at) && Asks(p, at, c)
    ensures Follows(p, log + [c]) && IsAt(p, log + [c], Step(p, at, c))
  {
    var next := log + [c];
    assert At(|log|) && log[..|log|] == log;
    assert next[..|next| - 1] == log;
    forall n: nat | At(n) && n < |next| ensures Asks(p, Where(p, next[..n]), next[n]) {
      assert At(n) && next[..n] == log[..n];
    }
    assert next[..|next|] == next;
  }

  lemma StartFollows(p: Params)
    ensures Follows(p, []) && IsAt(p, [], StartPoint(p))
  {
  }

  lemma AtIsWhere(p: Params, log: Log, at: Point)
    requires IsAt(p, log, at)
    ensures at == Where(p, log)
  {
    assert At(|log|) && log[..|log|] == log;
  }

  lemma {:induction false} FirstDifference(a: Log, b: Log) returns (n: nat)
    requires !(a <= b) && !(b <= a)
    ensures n < |a| && n < |b| && a[..n] == b[..n] && a[n] != b[n]
    decreases |a|
  {
    if a[0] != b[0] {
      n := 0;
    } else {
      assert a == [a[0]] + a[1..] && b == [b[0]] + b[1..];
      var m := FirstDifference(a[1..], b[1..]);
      n := m + 1;
      assert a[..n] == [a[0]] + a[1..][..m] && b[..n] == [b[0]] + b[1..][..m];
    }
  }

  /** A run is fixed by its request and the answers it gets: where two runs of one request part,
      they had asked the same question and got different answers. */
  lemma RunsPartOnAnswers(p: Params, a: Log, b: Log) returns (n: nat)
    requires Follows(p, a) && Follows(p, b) && !(a <= b) && !(b <= a)
    ensures n < |a| && n < |b| && a[..n] == b[..n] && a[n] != b[n] && Blank(a[n]) == Blank(b[n])
  {
    n := FirstDifference(a, b);
    assert At(n);
  }
}
