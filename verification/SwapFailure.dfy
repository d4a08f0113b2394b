/** When an answer ends a run, read off its log alone: what each answer means follows from the calls
    before it, without the plan (src/swaps/orchestrator.rs, src/swaps/outbox.rs,
    src/swaps/recovery.rs, src/cli/live.rs). `SwapVerdicts` proves that the plan agrees. */
module SwapFailure {
  import opened Wrappers
  import opened Settlement
  import opened SwapCalls
  import opened SwapPlan

  // What the calls so far say.

  function Last(log: Log): Call {
    if log == [] then ReadRecovery(Missing) else log[|log| - 1]
  }

  function Before(log: Log): Call {
    if |log| < 2 then ReadRecovery(Missing) else log[|log| - 2]
  }

  /** The record the run goes by: the stored one, or the one it wrote or found written. */
  function RecordIn(log: Log): Option<Record> {
    if |log| > 0 && log[0].ReadRecovery? && log[0].found.Got? then Some(log[0].found.value)
    else if |log| > 1 && log[1].CreateRecovery? then Some(log[1].record)
    else None
  }

  /** A swap run found no claim file and started from scratch. */
  predicate IsFresh(log: Log) {
    ReadOutbox(Claim, Missing) in log
  }

  /** The invoice was settled when the run looked it up. */
  ghost predicate SettledAtStart(log: Log) {
    exists hash, i :: Lookup(hash, Found(i)) in log && i.state.Settled?
  }

  function LastFunding(log: Log): Option<FundingEvidence> {
    if log == [] then None
    else
      var c := log[|log| - 1];
      if c.ObserveFunding? && c.funding.Some? then c.funding else LastFunding(log[..|log| - 1])
  }

  function LastSpend(log: Log): Option<SpendEvidence> {
    if log == [] then None
    else
      var c := log[|log| - 1];
      if c.ObserveSpend? && c.spend.Some? then c.spend else LastSpend(log[..|log| - 1])
  }

  function LastBox(log: Log): Option<Outbox> {
    if log == [] then None
    else
      var c := log[|log| - 1];
      if c.ReadOutbox? && c.path.Funding? && c.content.Got? then Some(c.content.value) else LastBox(log[..|log| - 1])
  }

  /** The phase a row read is for: each phase follows its own kind of call. */
  function PhaseAsked(log: Log): SwapPhase {
    match Last(log)
    case FinishOutbox(path, _, _, _) => StoredPhase(path)
    case ReadOutbox(path, _) =>
      if Before(log) == ReadOutbox(Claim, Missing) then OutputPendingPhase else StoredPhase(path)
    case ObserveFunding(_, _, _) => InputLockedPhase
    case ObserveSpend(path, _, _) => if path.Refund? then RefundedPhase else SettledPhase
    case Track(_, _) => OutputSettledPhase
    case Consume(_, _) => SettledPhase
    case _ => OutputPendingPhase
  }

  function StoredPhase(path: Kind): SwapPhase {
    match path
    case Funding => InputFundingPhase
    case Claim => ClaimPendingPhase
    case Refund => RefundingPhase
  }

  // When an answer is fatal.

  predicate BadTerms(p: Params) {
    !p.kind.RefundRun? && (p.terms.amountSats == 0 || p.terms.assetAmountSats == 0 || p.terms.refundLockHeight == 0)
  }

  predicate UnusableRecord(p: Params, found: ReadResult<Record>) {
    match found
    case Corrupt => true
    case Got(r) =>
      || r.amountSats != p.terms.amountSats
      || (!p.kind.RefundRun?
          && (r.version != 1 || (r.direction == LightningToDepix) != p.kind.ReverseRun? || r.asset != p.terms.asset
              || r.feeAsset != p.terms.feeAsset || r.assetAmountSats != p.terms.assetAmountSats
              || r.feeSats != p.terms.feeSats || !p.materialOk(r)))
    case Missing => p.kind.RefundRun? || !p.materialOk(NewRecord(p))
  }

  /** The row is neither where the phase starts from nor already past it. */
  predicate RowUnexpected(phase: SwapPhase, s: SwapState) {
    PhaseTransition(phase).Some?
    && var (expected, next) := PhaseTransition(phase).value;
       && s != next && StateRank(s) <= StateRank(next)
       && s != if phase.OutputSettledPhase? && s.OutputUnknown? then SwapState.OutputUnknown else expected
  }

  /** The forward bound does not hold at this height. */
  predicate LateForward(p: Params, r: Record, h: U64) {
    h > r.refundLockHeight
    || Timing.ValidateForwardTiming(p.terms.lightningCltvLimit, r.refundLockHeight - h, p.terms.claimMargin).Err?
  }

  /** The hold is for the exact amount and its expiry leaves room over the refund height. */
  predicate TimelyReverse(p: Params, r: Record, i: Invoice, tip: U64, h: U64) {
    && (i.state.Accepted? || i.state.Settled?) && i.acceptedSats == Some(p.terms.amountSats)
    && i.acceptedExpiry.Some? && h <= r.refundLockHeight
    && Timing.ValidateReverseTiming(tip, i.acceptedExpiry.value, r.refundLockHeight - h, p.terms.claimMargin).Ok?
  }

  /** Held for the exact amount, and settled or with more than six blocks left. */
  predicate HoldFits(i: Invoice, amountSats: U64, tip: U64) {
    && (i.state.Accepted? || i.state.Settled?) && i.acceptedSats == Some(amountSats)
    && (i.state.Settled? || (i.acceptedExpiry.Some? && i.acceptedExpiry.value > tip + 6))
  }

  predicate IsSpendOf(o: Outbox, kind: Kind, txid: Txid, vout: nat) {
    o.kind == kind && o.fundingTxid == Some(txid) && o.fundingVout == Some(vout)
  }

  /** A read outbox ends the run. Right after a lost creation it must be what this run tried to
      store; otherwise it is judged by what it is read for. */
  ghost predicate FatalRead(p: Params, log: Log, path: Kind, x: ReadResult<Outbox>) {
    if Last(log).CreateOutbox? then x != Got(Last(log).outbox)
    else if x.Corrupt? then true
    else if p.kind.RefundRun? then
      match path
      case Claim => x.Got?
      case Funding => x.Missing?
      case Refund =>
        x.Got? && var f := LastBox(log).UnwrapOr(Outbox(Funding, "", "", None, None));
        !IsSpendOf(x.value, Refund, f.txid, f.fundingVout.UnwrapOr(0))
    else if path.Claim? then
      x.Got?
      && if Last(log).Lookup? || Last(log).CreateInvoice? then
           x.value.kind != Claim || x.value.fundingTxid.None? || x.value.fundingVout.None?
         else
           var e := LastFunding(log).UnwrapOr(FundingEvidence("", 0, 0));
           !IsSpendOf(x.value, Claim, e.txid, e.vout)
    else if Last(log) == ReadOutbox(Claim, Missing) then false
    else if p.kind.ForwardRun? && Last(log).Height? && SettledAtStart(log) then
      x.Missing? && RecordIn(log).Some? && Last(log).height.Some?
      && LateForward(p, RecordIn(log).value, Last(log).height.value)
    else x.Got? && (x.value.kind != Funding || x.value.fundingVout.None?)
  }

  ghost predicate FatalHeight(p: Params, log: Log, h: U64) {
    RecordIn(log).Some?
    && match p.kind
       case ForwardRun => !SettledAtStart(log) && LateForward(p, RecordIn(log).value, h)
       case ReverseRun =>
         !(Before(log).ObserveAccepted? && Before(log).invoice.Some? && Last(log).Tip? && Last(log).height.Some?
           && TimelyReverse(p, RecordIn(log).value, Before(log).invoice.value, Last(log).height.value, h))
       case RefundRun => h < RecordIn(log).value.refundLockHeight
  }

  /** After this answer a fresh swap has only its evidence left to build. */
  predicate Completes(p: Params, log: Log, c: Call) {
    && !p.kind.RefundRun? && IsFresh(log)
    && if p.core then
         || (c.Transition? && c.ok && c.to == SwapState.Settled)
         || (c.ReadRow? && c.row.Some? && PhaseAsked(log) == SettledPhase && StateRank(c.row.value) >= 7)
       else if p.kind.ForwardRun? then c.ObserveSpend? && c.spend.Some?
       else c.Track?
  }

  /** The funding seen has a confirmation and the claim seen is verified. */
  predicate Proven(log: Log) {
    && LastFunding(log).Some? && LastFunding(log).value.confirmations != 0
    && LastSpend(log).Some? && LastSpend(log).value.verified
  }

  /** With this answer a swap run knows whether funding was stored, and is past the point where it
      just gives up. */
  predicate Starts(p: Params, log: Log, c: Call) {
    && !p.kind.RefundRun? && Last(log) == ReadOutbox(Claim, Missing)
    && c.ReadOutbox? && c.path.Funding? && !c.content.Corrupt?
  }

  /** With this answer a funding or a claim is known to be stored, so that it may be broadcast. A look
      that only tells whether a settled invoice was funded does not count. */
  ghost predicate Exposes(p: Params, log: Log, c: Call) {
    !p.kind.RefundRun?
    && match c
       case FinishOutbox(path, _, _, synced) => synced && !path.Refund?
       case ReadOutbox(path, content) =>
         content.Got?
         && (if path.Funding? then !(p.kind.ForwardRun? && Last(log).Height? && SettledAtStart(log))
             else path.Claim? && IsFresh(log))
       case _ => false
  }

  predicate Started(p: Params, log: Log) {
    log != [] && (Started(p, log[..|log| - 1]) || Starts(p, log[..|log| - 1], log[|log| - 1]))
  }

  ghost predicate Exposed(p: Params, log: Log) {
    log != [] && (Exposed(p, log[..|log| - 1]) || Exposes(p, log[..|log| - 1], log[|log| - 1]))
  }

  /** Where a run goes that failed on an answer after the calls of `log`: to look at the hold once more
      if it had started and nothing it may have broadcast is stored, to its end otherwise. */
  ghost function FailPoint(p: Params, log: Log): Point {
    if Started(p, log) && !Exposed(p, log) && RecordIn(log).Some? then CleaningUp(RecordIn(log).value) else Stopped
  }

  /** An answer the run cannot go on with. A missing observation is one only after a confirmation of
      the same transaction, and a lost creation only if the file holds something else. */
  ghost predicate Wrong(p: Params, log: Log, c: Call) {
    match c
    case ReadRecovery(x) =>
      if Last(log).CreateRecovery? then x != Got(Last(log).record) else UnusableRecord(p, x)
    case CreateRecovery(_, created) => created.CreateFailed?
    case FinishRecovery(_, _, synced) => !synced
    case ReadOutbox(path, x) => FatalRead(p, log, path, x)
    case CreateOutbox(_, _, created) => created.CreateFailed?
    case FinishOutbox(_, _, _, synced) => !synced
    case ReadRow(row) => row.None? || RowUnexpected(PhaseAsked(log), row.value)
    case Transition(_, _, _, ok) => !ok
    case Consume(_, ok) => !ok || (Last(log).Transition? && p.stopAfterPayment)
    case Height(h) => h.None? || FatalHeight(p, log, h.value)
    case Tip(tip) =>
      tip.None? || !(Last(log).ObserveAccepted? && Last(log).invoice.Some?
                     && HoldFits(Last(log).invoice.value, p.terms.amountSats, tip.value))
    case PrepareFunding(o) => o.None? || o.value.kind != Funding
    case PrepareSpend(kind, _, _, o) => o.None? || o.value.kind != kind
    case Broadcast(_, _, ok) => !ok
    case Confirm(ok) => !ok
    case ObserveFunding(txid, vout, e) =>
      e.None? && Last(log) == Confirm(true) && Before(log) == ObserveFunding(txid, vout, None)
    case ObserveSpend(path, o, e) =>
      e.None? && Last(log) == Confirm(true) && Before(log) == ObserveSpend(path, o, None)
    case Lookup(hash, a) =>
      if p.kind.RefundRun? then
        !(a.Found? && a.invoice.state.Canceled? && a.invoice.amountSats == p.terms.amountSats
          && a.invoice.acceptedSats == Some(p.terms.amountSats))
      else
        a.LookupFailed?
        || (a.Found? && (a.invoice.amountSats != p.terms.amountSats || a.invoice.state.Canceled?
                         || (a.invoice.state.Open? && !(a.invoice.hasRequest && p.invoiceOk(hash)))))
    case CreateInvoice(hash, _, _, ok) => !ok || !p.invoiceOk(hash)
    case ObserveAccepted(_, i) => i.None?
    case Pay(_, _, state) => state.None? || state.value == PaymentState.Failed
    case SettleHold(_, _, _, ok) => !ok
    case CancelHold(_, _, _) => false
    case Track(_, x) =>
      if p.kind.RefundRun? then x.None? || x.value.state != PaymentState.Failed
      else RecordIn(log).None? || x != Some(Payment(Succeeded, Some(RecordIn(log).value.preimage)))
    case Return(_) => false
  }

  /** After the calls of `log` this answer ends the run: it is wrong, or it completes a swap whose
      transactions were not seen confirmed and verified. */
  ghost predicate Fatal(p: Params, log: Log, c: Call) {
    Wrong(p, log, c) || (Completes(p, log, c) && !Proven(log + [c]))
  }

  predicate HasFailed(at: Point) {
    at.Stopped? || at.CleaningUp? || at.Canceling?
  }

  predicate CleanupCall(c: Call) {
    c.ObserveAccepted? || c.CancelHold?
  }

  /** The answer that ended the run, if any did: the request was refused before any call, or this
      answer was fatal after the calls before it. */
  ghost predicate HasFatal(p: Params, log: Log) {
    BadTerms(p) || exists n: nat :: n < |log| && Fatal(p, log[..n], log[n])
  }

  /** The hold was looked at once, and a cancellation followed exactly if it was Accepted. */
  predicate CleanedUp(calls: Log, r: Record) {
    && calls != [] && calls[0].ObserveAccepted? && calls[0].hash == r.hash
    && var accepted := calls[0].invoice.Some? && calls[0].invoice.value.state.Accepted?;
       if accepted then |calls| == 2 && calls[1].CancelHold? && calls[1].hash == r.hash else |calls| == 1
  }
}
