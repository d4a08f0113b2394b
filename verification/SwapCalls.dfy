/** What one run of the swap runner exchanges with the outside: files, the two databases, the
    chain adapter and the Lightning adapters. A run is known by its log, the calls it made
    with the answers it got, so a crash is a log that stops; and `Obeys` is the discipline
    the runner keeps, stated on the log alone (src/swaps/orchestrator.rs, src/swaps/outbox.rs,
    src/swaps/recovery.rs, src/cli/live.rs). */
module SwapCalls {
  import opened Wrappers
  import opened Settlement
  import Timing

  type Txid = string
  type Hash = string
  type Preimage = string

  datatype Direction = DepixToLightning | LightningToDepix

  datatype Kind = Funding | Claim | Refund

  datatype Outbox = Outbox(
    kind: Kind, txid: Txid, rawHex: string, fundingTxid: Option<Txid>, fundingVout: Option<nat>)

  datatype Record = Record(
    version: nat, direction: Direction, asset: string, feeAsset: string, amountSats: U64,
    assetAmountSats: U64, feeSats: U64, refundLockHeight: U64, quoteId: Option<string>,
    preimage: Preimage, hash: Hash)

  datatype Terms = Terms(
    asset: string, feeAsset: string, amountSats: U64, assetAmountSats: U64, feeSats: U64,
    refundLockHeight: U64, quoteId: Option<string>, lightningCltvLimit: U64, claimMargin: Option<U64>)

  datatype RunKind = ForwardRun | ReverseRun | RefundRun

  /** The arguments of one run. `core` selects the durable observer over the no-op one,
      and `materialOk` stands for the key, hash and contract-rebuild checks of a record. */
  datatype Params = Params(
    kind: RunKind, terms: Terms, core: bool, stopAfterPayment: bool, supplied: Record,
    materialOk: Record -> bool, invoiceOk: Hash -> bool)

  function RunDirection(kind: RunKind): Direction {
    if kind.ReverseRun? then LightningToDepix else DepixToLightning
  }

  datatype ReadResult<+T> = Missing | Corrupt | Got(value: T)

  datatype Creation = CreatedNew | AlreadyExists | CreateFailed

  datatype InvoiceState = Open | Accepted | Settled | Canceled | Unrecognized

  datatype Invoice = Invoice(
    state: InvoiceState, amountSats: U64, hasRequest: bool, acceptedSats: Option<U64>,
    acceptedExpiry: Option<U64>)

  datatype InvoiceAnswer = Found(invoice: Invoice) | NotFound | LookupFailed

  datatype PaymentState = InFlight | Succeeded | Failed | Uncertain

  datatype Payment = Payment(state: PaymentState, preimage: Option<Preimage>)

  datatype FundingEvidence = FundingEvidence(txid: Txid, vout: nat, confirmations: nat)

  datatype SpendEvidence = SpendEvidence(txid: Txid, fundingTxid: Txid, confirmations: nat, verified: bool)

  datatype Outcome =
    | Completed(direction: Direction, fundingTxid: Txid, claimTxid: Txid)
    | RefundDone(refundFundingTxid: Txid, refundTxid: Txid)

  /** One call with its answer. Where a call can take effect and still report failure, the
      effect (`stored`, `committed`, `applied`) is recorded apart from the report. */
  datatype Call =
    | ReadRecovery(found: ReadResult<Record>)
    | CreateRecovery(record: Record, created: Creation)
    | FinishRecovery(record: Record, stored: bool, synced: bool)
    | ReadOutbox(path: Kind, content: ReadResult<Outbox>)
    | CreateOutbox(path: Kind, outbox: Outbox, created: Creation)
    | FinishOutbox(path: Kind, outbox: Outbox, stored: bool, synced: bool)
    | ReadRow(row: Option<SwapState>)
    | Transition(from: SwapState, to: SwapState, committed: bool, ok: bool)
    | Consume(committed: bool, ok: bool)
    | Height(height: Option<U64>)
    | PrepareFunding(prepared: Option<Outbox>)
    | PrepareSpend(kind: Kind, fundingTxid: Txid, fundingVout: nat, prepared: Option<Outbox>)
    | Broadcast(path: Kind, outbox: Outbox, ok: bool)
    | ObserveFunding(txid: Txid, vout: nat, funding: Option<FundingEvidence>)
    | Confirm(ok: bool)
    | ObserveSpend(path: Kind, outbox: Outbox, spend: Option<SpendEvidence>)
    | Lookup(hash: Hash, answer: InvoiceAnswer)
    | CreateInvoice(hash: Hash, amountSats: U64, applied: bool, ok: bool)
    | ObserveAccepted(hash: Hash, invoice: Option<Invoice>)
    | Tip(height: Option<U64>)
    | Pay(hash: Hash, amountSats: U64, state: Option<PaymentState>)
    | SettleHold(hash: Hash, preimage: Preimage, applied: bool, ok: bool)
    | CancelHold(hash: Hash, applied: bool, ok: bool)
    | Track(hash: Hash, payment: Option<Payment>)
    | Return(outcome: Outcome)

  type Log = seq<Call>

  // What a log shows its run to know.

  predicate HoldsRecord(log: Log, r: Record) {
    ReadRecovery(Got(r)) in log || FinishRecovery(r, true, true) in log
  }

  predicate HoldsOutbox(log: Log, path: Kind, o: Outbox) {
    ReadOutbox(path, Got(o)) in log || FinishOutbox(path, o, true, true) in log
  }

  /** The vout of a funding outbox, as every reader of it defaults it. */
  function HtlcVout(o: Outbox): nat {
    o.fundingVout.UnwrapOr(0)
  }

  predicate BindsFunding(o: Outbox, txid: Txid, vout: nat) {
    o.fundingTxid == Some(txid) && o.fundingVout == Some(vout)
  }

  /** The refund headroom check passed on a height this run read. */
  ghost predicate ForwardTimed(p: Params, log: Log, r: Record) {
    exists h: U64 :: Height(Some(h)) in log && h <= r.refundLockHeight
      && Timing.ValidateForwardTiming(p.terms.lightningCltvLimit, r.refundLockHeight - h, p.terms.claimMargin).Ok?
  }

  /** An exact-amount hold was seen Accepted or Settled. */
  predicate IsHeld(p: Params, invoice: Invoice) {
    (invoice.state.Accepted? || invoice.state.Settled?) && invoice.acceptedSats == Some(p.terms.amountSats)
  }

  ghost predicate SawHold(p: Params, log: Log, r: Record) {
    exists i :: ObserveAccepted(r.hash, Some(i)) in log && IsHeld(p, i)
  }

  predicate ReverseTimingOk(p: Params, r: Record, i: Invoice, tip: U64, h: U64) {
    && IsHeld(p, i)
    && i.acceptedExpiry.Some?
    && h <= r.refundLockHeight
    && Timing.ValidateReverseTiming(tip, i.acceptedExpiry.value, r.refundLockHeight - h, p.terms.claimMargin).Ok?
  }

  ghost predicate ReverseTimed(p: Params, log: Log, r: Record) {
    exists i, tip: U64, h: U64 ::
      && ObserveAccepted(r.hash, Some(i)) in log && Tip(Some(tip)) in log && Height(Some(h)) in log
      && ReverseTimingOk(p, r, i, tip, h)
  }

  ghost predicate SawFunding(log: Log, txid: Txid, vout: nat) {
    exists e :: ObserveFunding(txid, vout, Some(e)) in log
  }

  ghost predicate SawSpend(log: Log, path: Kind, o: Outbox) {
    exists e :: ObserveSpend(path, o, Some(e)) in log
  }

  ghost predicate Sent(log: Log, path: Kind, o: Outbox) {
    Broadcast(path, o, true) in log
  }

  /** The payment was seen to succeed with the preimage of the recovery record. */
  ghost predicate SawPayment(log: Log, r: Record) {
    Track(r.hash, Some(Payment(Succeeded, Some(r.preimage)))) in log
  }

  /** This run settled the hold itself, or saw it settled. */
  ghost predicate SettledHold(log: Log, r: Record) {
    || SettleHold(r.hash, r.preimage, true, true) in log
    || exists i :: ObserveAccepted(r.hash, Some(i)) in log && i.state.Settled?
  }

  /** The invoice this run started from was open. */
  ghost predicate StartedOpen(log: Log, r: Record) {
    || (exists i :: Lookup(r.hash, Found(i)) in log && i.state.Open?)
    || (exists a: U64 :: CreateInvoice(r.hash, a, true, true) in log)
  }

  ghost predicate StartedSettled(log: Log, r: Record) {
    exists i :: Lookup(r.hash, Found(i)) in log && i.state.Settled?
  }

  ghost predicate SawCanceled(p: Params, log: Log, r: Record) {
    exists i :: Lookup(r.hash, Found(i)) in log && i.state.Canceled?
      && i.amountSats == p.terms.amountSats && i.acceptedSats == Some(p.terms.amountSats)
  }

  ghost predicate SawFailedPayment(log: Log, r: Record) {
    exists x :: Track(r.hash, Some(Payment(PaymentState.Failed, x))) in log
  }

  ghost predicate PastLock(log: Log, r: Record) {
    exists h: U64 :: Height(Some(h)) in log && h >= r.refundLockHeight
  }

  /** The durable row was read or moved at or above a rank. */
  ghost predicate RowReached(log: Log, rank: nat) {
    || (exists s :: ReadRow(Some(s)) in log && StateRank(s) >= rank)
    || (exists f, t :: Transition(f, t, true, true) in log && StateRank(t) >= rank)
  }

  ghost predicate NoFundingSent(log: Log) {
    forall o, ok :: Call.Broadcast(Funding, o, ok) !in log
  }

  /** Terms a stored record must repeat; the refund height and the quote are not among them. */
  predicate MatchesRequest(p: Params, r: Record) {
    && r.version == 1
    && r.direction == RunDirection(p.kind)
    && r.asset == p.terms.asset
    && r.feeAsset == p.terms.feeAsset
    && r.amountSats == p.terms.amountSats
    && r.assetAmountSats == p.terms.assetAmountSats
    && r.feeSats == p.terms.feeSats
    && p.materialOk(r)
  }

  /** The record a run works under: for a swap it must match the request, for a refund
      only the Lightning amount is compared. */
  predicate Holding(p: Params, log: Log, r: Record) {
    && HoldsRecord(log, r)
    && if p.kind.RefundRun? then r.amountSats == p.terms.amountSats else MatchesRequest(p, r)
  }

  // The discipline.

  ghost predicate FundingReady(p: Params, log: Log, r: Record) {
    match p.kind
    case ForwardRun => ForwardTimed(p, log, r) || StartedSettled(log, r)
    case ReverseRun => SawHold(p, log, r) && ReverseTimed(p, log, r)
    case RefundRun => false
  }

  ghost predicate ClaimReady(p: Params, log: Log, r: Record, o: Outbox) {
    && (exists f :: HoldsOutbox(log, Funding, f) && SawFunding(log, f.txid, HtlcVout(f))
          && BindsFunding(o, f.txid, HtlcVout(f)))
    && ReadOutbox(Claim, Missing) in log
    && match p.kind
       case ForwardRun => SawPayment(log, r) && (p.core ==> RowReached(log, 5) && Consume(true, true) in log)
       case ReverseRun => SawHold(p, log, r) && ReverseTimed(p, log, r)
       case RefundRun => false
  }

  ghost predicate RefundReady(p: Params, log: Log, r: Record, o: Outbox) {
    && p.kind.RefundRun?
    && (exists f :: HoldsOutbox(log, Funding, f) && BindsFunding(o, f.txid, HtlcVout(f)))
    && SawFailedPayment(log, r)
    && SawCanceled(p, log, r)
    && ReadOutbox(Claim, Missing) in log
    && PastLock(log, r)
  }

  ghost predicate CreateReady(p: Params, log: Log, r: Record, path: Kind, o: Outbox) {
    match path
    case Funding => FundingReady(p, log, r)
    case Claim => ClaimReady(p, log, r, o)
    case Refund => RefundReady(p, log, r, o)
  }

  /** The (from, to) pairs the observer asks the store for; OUTPUT_UNKNOWN is only left. */
  predicate PhaseEdge(from: SwapState, to: SwapState) {
    match to
    case InputFunding => from.Created?
    case InputLocked => from.InputFunding?
    case OutputPending => from.InputLocked?
    case OutputSettled => from.OutputPending? || from.OutputUnknown?
    case ClaimPending => from.OutputSettled?
    case Settled => from.ClaimPending?
    case Refunding => from.InputLocked?
    case Refunded => from.Refunding?
    case _ => false
  }

  ghost predicate HoldsSome(log: Log, path: Kind) {
    exists o :: HoldsOutbox(log, path, o) && o.kind == path
  }

  /** What must already be in the log before the row moves to `to`. */
  ghost predicate RowReady(p: Params, log: Log, r: Record, to: SwapState) {
    match to
    case InputFunding => HoldsSome(log, Funding)
    case InputLocked => exists f :: HoldsOutbox(log, Funding, f) && SawFunding(log, f.txid, HtlcVout(f))
    case OutputPending => !p.kind.RefundRun?
    case OutputSettled => SawPayment(log, r)
    case ClaimPending => HoldsSome(log, Claim) && ReadOutbox(Claim, Missing) in log
    case Settled => exists o :: HoldsOutbox(log, Claim, o) && SawSpend(log, Claim, o)
    case Refunding => HoldsSome(log, Refund)
    case Refunded => exists o :: HoldsOutbox(log, Refund, o) && SawSpend(log, Refund, o)
    case _ => false
  }

  ghost predicate BroadcastReady(p: Params, log: Log, r: Record, path: Kind, o: Outbox) {
    && HoldsOutbox(log, path, o)
    && o.kind == path
    && match path
       case Funding =>
         (p.kind.ReverseRun? ==> SawHold(p, log, r) && ReverseTimed(p, log, r))
         && (p.core ==> RowReached(log, 1)) && !p.kind.RefundRun?
       case Claim => !p.kind.RefundRun? && (p.core ==> RowReached(log, 6) || ReadOutbox(Claim, Got(o)) in log)
       case Refund => p.kind.RefundRun? && (p.core ==> RowReached(log, 8))
  }

  ghost predicate PayReady(p: Params, log: Log, r: Record, amount: U64) {
    && !p.kind.RefundRun?
    && amount == p.terms.amountSats
    && StartedOpen(log, r)
    && (p.core ==> RowReached(log, 3))
    && (p.kind.ForwardRun? ==>
          && ForwardTimed(p, log, r)
          && exists f :: HoldsOutbox(log, Funding, f) && SawFunding(log, f.txid, HtlcVout(f)))
  }

  /** The hold is settled with the recovery preimage, after it was seen held. A reverse run
      and any run replaying a claim settle only after the claim was seen confirmed; a forward
      run that settles first holds an observed funding output. */
  ghost predicate SettleReady(p: Params, log: Log, r: Record) {
    && !p.kind.RefundRun?
    && SawHold(p, log, r)
    && ((exists o :: HoldsOutbox(log, Claim, o) && SawSpend(log, Claim, o))
        || (p.kind.ForwardRun? && exists f :: HoldsOutbox(log, Funding, f) && SawFunding(log, f.txid, HtlcVout(f))))
  }

  ghost predicate CompletedReady(p: Params, log: Log, r: Record, outcome: Outcome)
    requires outcome.Completed?
  {
    && !p.kind.RefundRun?
    && outcome.direction == RunDirection(p.kind)
    && (exists o, e :: HoldsOutbox(log, Claim, o) && ObserveSpend(Claim, o, Some(e)) in log
          && outcome.claimTxid == e.txid && o.fundingTxid == Some(outcome.fundingTxid))
    && SettledHold(log, r)
    && SawPayment(log, r)
    && (p.core ==> RowReached(log, 7) && Consume(true, true) in log)
  }

  ghost predicate RefundDoneReady(p: Params, log: Log, r: Record, outcome: Outcome)
    requires outcome.RefundDone?
  {
    && p.kind.RefundRun?
    && (p.core ==> RowReached(log, 8))
    && exists o, e :: HoldsOutbox(log, Refund, o) && ObserveSpend(Refund, o, Some(e)) in log
         && outcome.refundTxid == e.txid && outcome.refundFundingTxid == e.fundingTxid
  }

  /** Whether a run that has made the calls of `log` may make `call` next. The answer inside
      `call` is not looked at: the discipline binds the run, never its environment. */
  ghost predicate Allowed(p: Params, log: Log, call: Call) {
    match call
    case ReadRecovery(_) => true
    case CreateRecovery(r, _) =>
      !p.kind.RefundRun? && ReadRecovery(Missing) in log && MatchesRequest(p, r)
      && r.refundLockHeight == p.terms.refundLockHeight && r.quoteId == p.terms.quoteId
    case FinishRecovery(r, _, _) => log != [] && log[|log| - 1] == CreateRecovery(r, CreatedNew)
    case ReadOutbox(_, _) => true
    case CreateOutbox(path, o, _) =>
      ReadOutbox(path, Missing) in log && o.kind == path
      && exists r :: Holding(p, log, r) && CreateReady(p, log, r, path, o)
    case FinishOutbox(path, o, _, _) => log != [] && log[|log| - 1] == CreateOutbox(path, o, CreatedNew)
    case ReadRow(_) => p.core
    case Transition(from, to, _, _) =>
      p.core && PhaseEdge(from, to) && ReadRow(Some(from)) in log
      && exists r :: Holding(p, log, r) && RowReady(p, log, r, to)
    case Consume(_, _) => p.core && exists r :: Holding(p, log, r) && SawPayment(log, r)
    case Height(_) => true
    case PrepareFunding(_) => true
    case PrepareSpend(_, _, _, _) => true
    case Broadcast(path, o, _) => exists r :: Holding(p, log, r) && BroadcastReady(p, log, r, path, o)
    case ObserveFunding(txid, vout, _) =>
      exists f :: HoldsOutbox(log, Funding, f) && Sent(log, Funding, f) && txid == f.txid && vout == HtlcVout(f)
    case Confirm(_) => true
    case ObserveSpend(path, o, _) => HoldsOutbox(log, path, o) && Sent(log, path, o)
    case Lookup(hash, _) => exists r :: Holding(p, log, r) && hash == r.hash
    case CreateInvoice(hash, amount, _, _) =>
      !p.kind.RefundRun? && Lookup(hash, NotFound) in log && amount == p.terms.amountSats
      && exists r :: Holding(p, log, r) && hash == r.hash
    case ObserveAccepted(hash, _) => !p.kind.RefundRun? && exists r :: Holding(p, log, r) && hash == r.hash
    case Tip(_) => true
    case Pay(hash, amount, _) => exists r :: Holding(p, log, r) && hash == r.hash && PayReady(p, log, r, amount)
    case SettleHold(hash, preimage, _, _) =>
      exists r :: Holding(p, log, r) && hash == r.hash && preimage == r.preimage && SettleReady(p, log, r)
    case CancelHold(hash, _, _) =>
      !p.kind.RefundRun? && NoFundingSent(log) && ReadOutbox(Funding, Missing) in log
      && exists r :: Holding(p, log, r) && hash == r.hash && SawHeldOnly(log, r)
    case Track(hash, _) =>
      exists r :: Holding(p, log, r) && hash == r.hash && (p.kind.RefundRun? || SettledHold(log, r))
    case Return(outcome) =>
      exists r :: Holding(p, log, r)
        && if outcome.Completed? then CompletedReady(p, log, r, outcome) else RefundDoneReady(p, log, r, outcome)
  }

  /** The hold was seen Accepted. */
  ghost predicate SawHeldOnly(log: Log, r: Record) {
    exists i :: ObserveAccepted(r.hash, Some(i)) in log && i.state.Accepted?
  }

  /** One log continues another. */
  ghost predicate Extends(before: Log, after: Log) {
    before <= after && forall c {:trigger c in before} :: c in before ==> c in after
  }

  lemma RowReadyGrows(p: Params, before: Log, after: Log, r: Record, to: SwapState)
    requires Extends(before, after) && RowReady(p, before, r, to)
    ensures RowReady(p, after, r, to)
  {
    match to
    case InputFunding => var o :| HoldsOutbox(before, Funding, o) && o.kind == Funding;
      assert HoldsOutbox(after, Funding, o);
    case InputLocked => var f :| HoldsOutbox(before, Funding, f) && SawFunding(before, f.txid, HtlcVout(f));
      assert HoldsOutbox(after, Funding, f);
    case ClaimPending => var o :| HoldsOutbox(before, Claim, o) && o.kind == Claim;
      assert HoldsOutbox(after, Claim, o);
    case Settled => var o :| HoldsOutbox(before, Claim, o) && SawSpend(before, Claim, o);
      assert HoldsOutbox(after, Claim, o);
    case Refunding => var o :| HoldsOutbox(before, Refund, o) && o.kind == Refund;
      assert HoldsOutbox(after, Refund, o);
    case Refunded => var o :| HoldsOutbox(before, Refund, o) && SawSpend(before, Refund, o);
      assert HoldsOutbox(after, Refund, o);
    case _ =>
  }

  lemma FundingReadyGrows(p: Params, before: Log, after: Log, r: Record)
    requires Extends(before, after) && FundingReady(p, before, r)
    ensures FundingReady(p, after, r)
  {
    match p.kind
    case ForwardRun =>
      if ForwardTimed(p, before, r) {
        ForwardTimedGrows(p, before, after, r);
      }
    case ReverseRun =>
      ReverseTimedGrows(p, before, after, r);
    case RefundRun =>
  }

  lemma ClaimReadyGrows(p: Params, before: Log, after: Log, r: Record, o: Outbox)
    requires Extends(before, after) && ClaimReady(p, before, r, o)
    ensures ClaimReady(p, after, r, o)
  {
    var f :| HoldsOutbox(before, Funding, f) && SawFunding(before, f.txid, HtlcVout(f))
      && BindsFunding(o, f.txid, HtlcVout(f));
    assert HoldsOutbox(after, Funding, f);
    if p.kind.ReverseRun? {
      ReverseTimedGrows(p, before, after, r);
    }
  }

  lemma SettledHoldGrows(before: Log, after: Log, r: Record)
    requires Extends(before, after) && SettledHold(before, r)
    ensures SettledHold(after, r)
  {
  }

  lemma ForwardTimedGrows(p: Params, before: Log, after: Log, r: Record)
    requires Extends(before, after) && ForwardTimed(p, before, r)
    ensures ForwardTimed(p, after, r)
  {
  }

  lemma ReverseTimedGrows(p: Params, before: Log, after: Log, r: Record)
    requires Extends(before, after) && ReverseTimed(p, before, r)
    ensures ReverseTimed(p, after, r)
  {
  }

  /** Names a position of a log; quantifying over `At` keeps `Obeys` folded until a position is named. */
  predicate At(n: nat) {
    true
  }

  /** The log keeps the discipline at every call, hence at every point a crash can leave it. */
  ghost predicate Obeys(p: Params, log: Log) {
    forall n: nat {:trigger At(n)} :: At(n) && n < |log| ==> Allowed(p, log[..n], log[n])
  }

  lemma ObeysSnoc(p: Params, log: Log, call: Call)
    requires Obeys(p, log) && Allowed(p, log, call)
    ensures Obeys(p, log + [call])
  {
    var next := log + [call];
    forall n: nat | At(n) && n < |next| ensures Allowed(p, next[..n], next[n]) {
      if n < |log| {
        assert At(n) && next[..n] == log[..n];
      } else {
        assert next[..n] == log;
      }
    }
  }
}
