/** The durable swap runner, statement by statement (src/swaps/orchestrator.rs), with the file
    writes of src/swaps/outbox.rs and src/swaps/recovery.rs and the observer of src/cli/live.rs.
    Every answer of the environment is arbitrary; whatever the answers, the log keeps the
    discipline `Obeys` and follows the plan of `SwapPlan`, and a reported success holds what
    `CompletedReady` and `RefundDoneReady` list. */
module SwapRunner {
  import opened Wrappers
  import opened Settlement
  import opened SwapCalls
  import opened SwapPlan
  import opened SwapFailure
  import opened SwapVerdicts

  // Why a run may stop.

  predicate BadRecord(p: Params, r: Record) {
    if p.kind.RefundRun? then r.amountSats != p.terms.amountSats else !MatchesRequest(p, r)
  }

  predicate BadOutbox(path: Kind, o: Outbox) {
    if path.Funding? then ValidateFundingOutbox(o).Some? else ValidateSpendOutboxKind(o, path).Some?
  }

  predicate BadRequest(p: Params) {
    p.terms.amountSats == 0 || p.terms.assetAmountSats == 0 || p.terms.refundLockHeight == 0
    || !p.materialOk(NewRecord(p))
  }

  predicate InvoiceUnfit(p: Params, hash: Hash, i: Invoice) {
    ValidateInvoiceAmount(i, p.terms.amountSats).Some? || (i.state.Open? && !p.invoiceOk(hash))
  }

  /** The answer inside `c` alone is a reason to stop. */
  predicate Refusal(p: Params, c: Call) {
    match c
    case ReadRecovery(x) => x.Corrupt? || (x.Got? && BadRecord(p, x.value)) || (x.Missing? && p.kind.RefundRun?)
    case CreateRecovery(_, created) => !created.CreatedNew?
    case FinishRecovery(_, _, synced) => !synced
    case ReadOutbox(path, x) =>
      || x.Corrupt?
      || (x.Got? && BadOutbox(path, x.value))
      || (p.kind.RefundRun? && ((path.Claim? && !x.Missing?) || (path.Funding? && x.Missing?)))
    case CreateOutbox(_, _, created) => !created.CreatedNew?
    case FinishOutbox(_, _, _, synced) => !synced
    case ReadRow(row) => row.None?
    case Transition(_, _, _, ok) => !ok
    case Consume(_, ok) => !ok
    case Height(h) => h.None?
    case Tip(h) => h.None?
    case PrepareFunding(o) => o.None? || !o.value.kind.Funding?
    case PrepareSpend(_, _, _, o) => o.None?
    case Broadcast(_, _, ok) => !ok
    case Confirm(ok) => !ok
    case ObserveFunding(_, _, e) => e.None? || e.value.confirmations == 0
    case ObserveSpend(path, _, e) => e.None? || (path.Claim? && !e.value.verified)
    case Lookup(hash, a) =>
      if p.kind.RefundRun? then !(a.Found? && IsCanceledHold(p, a.invoice))
      else a.LookupFailed? || (a.Found? && InvoiceUnfit(p, hash, a.invoice))
    case CreateInvoice(hash, _, _, ok) => !ok || !p.invoiceOk(hash)
    case ObserveAccepted(_, i) => i.None?
    case Pay(_, _, state) => state.None? || state.value == PaymentState.Failed
    case SettleHold(_, _, _, ok) => !ok
    case Track(_, x) =>
      x.None? || (if p.kind.RefundRun? then x.value.state != PaymentState.Failed else x.value.state != Succeeded)
    case _ => false
  }

  /** What a failed run may still do: look at the hold and cancel it. */
  predicate OnlyCleanup(calls: Log) {
    forall k :: 0 <= k < |calls| ==> calls[k].ObserveAccepted? || calls[k].CancelHold?
  }

  predicate HeightUnfit(p: Params, r: Record, h: U64) {
    match p.kind
    case ForwardRun => LateForward(p, r, h)
    case ReverseRun => h > r.refundLockHeight
    case RefundRun => h < r.refundLockHeight
  }

  datatype Reason =
    | InRequest
    | Answer(call: Call)
    | HoldUnfit(hash: Hash, invoice: Invoice, tip: U64)
    | TooEarlyOrLate(r: Record, height: U64)
    | ReverseTooTight(r: Record, invoice: Invoice, tip: U64, height: U64)
    | Overtaken(path: Kind, o: Outbox)
    | RefundUnbound(o: Outbox, funding: Outbox)
    | PreimageUnfit(r: Record, preimage: Option<Preimage>)
    | AskedToStop
    | RowStuck(at: nat, phase: SwapPhase)

  ghost predicate Because(p: Params, log: Log, why: Reason) {
    match why
    case InRequest => BadRequest(p)
    case Answer(c) => c in log && Refusal(p, c)
    case HoldUnfit(hash, i, tip) =>
      && ObserveAccepted(hash, Some(i)) in log && Tip(Some(tip)) in log
      && ValidateAccepted(i, p.terms.amountSats, tip).Some?
    case TooEarlyOrLate(r, h) =>
      HoldsRecord(log, r) && Height(Some(h)) in log && HeightUnfit(p, r, h)
    case ReverseTooTight(r, i, tip, h) =>
      && ObserveAccepted(r.hash, Some(i)) in log && Tip(Some(tip)) in log && Height(Some(h)) in log
      && !ReverseTimingOk(p, r, i, tip, h)
    case Overtaken(path, o) => Call.ReadOutbox(path, Missing) in log && Call.ReadOutbox(path, Got(o)) in log
    case RefundUnbound(o, f) =>
      && Call.ReadOutbox(Refund, Got(o)) in log && HoldsOutbox(log, Funding, f)
      && ValidateSpendOutbox(o, Refund, f.txid, HtlcVout(f)).Some?
    case PreimageUnfit(r, x) =>
      HoldsRecord(log, r) && Track(r.hash, Some(Payment(Succeeded, x))) in log && x != Some(r.preimage)
    case AskedToStop => p.core && p.stopAfterPayment && Consume(true, true) in log
    case RowStuck(at, phase) =>
      && at < |log| && log[at].ReadRow? && log[at].row.Some? && RowUnexpected(phase, log[at].row.value)
      && OnlyCleanup(log[at + 1..])
  }

  /** Something in the request or among the answers is a reason to stop. */
  ghost predicate Refused(p: Params, log: Log) {
    exists why :: Because(p, log, why)
  }

  lemma Reasons(p: Params, log: Log, why: Reason)
    requires Because(p, log, why)
    ensures Refused(p, log)
  {
  }

  lemma Refuses(p: Params, log: Log, c: Call)
    requires c in log && Refusal(p, c)
    ensures Refused(p, log)
  {
    assert Because(p, log, Answer(c));
  }

  /** Most runs stop on the answer they got last. */
  lemma LastRefuses(p: Params, log: Log)
    requires log != [] && Refusal(p, log[|log| - 1])
    ensures Refused(p, log)
  {
    Refuses(p, log, log[|log| - 1]);
  }

  lemma RefusedStays(p: Params, before: Log, after: Log)
    requires Extends(before, after) && OnlyCleanup(after[|before|..]) && Refused(p, before)
    ensures Refused(p, after)
  {
    var why :| Because(p, before, why);
    if why.RowStuck? {
      assert after[why.at + 1..] == before[why.at + 1..] + after[|before|..];
    }
    assert Because(p, after, why);
  }

  ghost predicate FundingSeenIn(log: Log, e: FundingEvidence) {
    exists f :: HoldsOutbox(log, Funding, f) && ObserveFunding(f.txid, HtlcVout(f), Some(e)) in log
      && e.txid == f.txid && e.vout == HtlcVout(f)
  }

  ghost predicate ClaimSeenIn(log: Log, e: SpendEvidence) {
    exists o :: HoldsOutbox(log, Claim, o) && ObserveSpend(Claim, o, Some(e)) in log
      && o.fundingTxid == Some(e.fundingTxid) && e.txid == o.txid
  }

  /** What a completion needs, gathered. */
  lemma CompletionIsReady(p: Params, log: Log, r: Record, o: Outbox, e: SpendEvidence)
    requires !p.kind.RefundRun? && HoldsOutbox(log, Claim, o) && Call.ObserveSpend(Claim, o, Some(e)) in log
    requires o.fundingTxid.Some? && SettledHold(log, r) && SawPayment(log, r)
    requires p.core ==> RowReached(log, 7) && Consume(true, true) in log
    ensures CompletedReady(p, log, r, Completed(RunDirection(p.kind), o.fundingTxid.value, e.txid))
  {
    hide SettledHold, SawPayment, RowReached;
  }

  lemma ClaimSeenCompletes(p: Params, log: Log, r: Record, funding: FundingEvidence, e: SpendEvidence)
    requires !p.kind.RefundRun? && ClaimSeenIn(log, e) && e.fundingTxid == funding.txid
    requires SettledHold(log, r) && SawPayment(log, r)
    requires p.core ==> RowReached(log, 7) && Consume(true, true) in log
    ensures CompletedReady(p, log, r, Completed(RunDirection(p.kind), funding.txid, e.txid))
  {
    hide SettledHold, SawPayment, RowReached, CompletedReady;
    var o :| HoldsOutbox(log, Claim, o) && Call.ObserveSpend(Claim, o, Some(e)) in log
      && o.fundingTxid == Some(e.fundingTxid);
    CompletionIsReady(p, log, r, o, e);
  }

  lemma RefundIsReady(p: Params, log: Log, r: Record, o: Outbox, e: SpendEvidence)
    requires p.kind.RefundRun? && (p.core ==> RowReached(log, 8))
    requires HoldsOutbox(log, Refund, o) && Call.ObserveSpend(Refund, o, Some(e)) in log
    ensures RefundDoneReady(p, log, r, RefundDone(e.fundingTxid, e.txid))
  {
    hide RowReached;
  }

  lemma FundingMayBeSent(p: Params, log: Log, r: Record, o: Outbox)
    requires FundingReady(p, log, r) && HoldsOutbox(log, Funding, o) && o.kind == Funding
    requires p.core ==> RowReached(log, 1)
    ensures BroadcastReady(p, log, r, Funding, o)
  {
    hide SawHold, ReverseTimed, ForwardTimed, RowReached;
  }

  lemma MayCancel(p: Params, log: Log, r: Record, applied: bool, ok: bool)
    requires Holding(p, log, r) && !p.kind.RefundRun? && NoFundingSent(log)
    requires ReadOutbox(Funding, Missing) in log && SawHeldOnly(log, r)
    ensures Allowed(p, log, CancelHold(r.hash, applied, ok))
  {
    hide NoFundingSent, SawHeldOnly, MatchesRequest;
  }

  lemma ReplayMaySettle(p: Params, log: Log, r: Record, o: Outbox, e: SpendEvidence, i: Invoice)
    requires !p.kind.RefundRun? && ObserveAccepted(r.hash, Some(i)) in log && IsHeld(p, i)
    requires HoldsOutbox(log, Claim, o) && Call.ObserveSpend(Claim, o, Some(e)) in log
    ensures SettleReady(p, log, r)
  {
    assert SawHold(p, log, r) && SawSpend(log, Claim, o);
  }

  lemma MaySettle(p: Params, log: Log, r: Record, applied: bool, ok: bool)
    requires Holding(p, log, r) && SettleReady(p, log, r)
    ensures Allowed(p, log, SettleHold(r.hash, r.preimage, applied, ok))
  {
    hide SettleReady, MatchesRequest;
  }

  class Runner {
    const p: Params
    var log: Log
    /** Set once the funding transaction may have left this process (`funding_exposed`). */
    var fundingExposed: bool
    /** Where the run is in its plan. */
    ghost var point: Point

    /** The log keeps the discipline, no funding broadcast is unmarked, and every call made is the
        one the plan has there. */
    ghost predicate Sound()
      reads this
    {
      && Obeys(p, log) && (!fundingExposed ==> NoFundingSent(log))
      && Follows(p, log) && IsAt(p, log, point)
    }

    constructor (p: Params)
      ensures this.p == p && log == [] && !fundingExposed && point == StartPoint(p)
      ensures Sound()
    {
      this.p := p;
      log := [];
      fundingExposed := false;
      point := StartPoint(p);
      StartFollows(p);
    }

    /** What lies ahead of the run. */
    ghost predicate Ahead(k: Known, tasks: Tasks)
      reads this
    {
      point == Advance(p, k, tasks)
    }

    /** All that is left is to report this outcome. */
    ghost predicate Reporting(outcome: Outcome)
      reads this
    {
      NextCall(p, point) == Some(Return(outcome)) && Step(p, point, Return(outcome)) == Finished(outcome)
    }

    // Single calls. Each appends itself with an arbitrary answer.

    method Append(call: Call)
      requires Sound() && Allowed(p, log, call) && Asks(p, point, call)
      requires call.Broadcast? && call.path == Funding ==> fundingExposed
      modifies `log, `point
      ensures Sound() && Extends(old(log), log) && log == old(log) + [call] && point == Step(p, old(point), call)
    {
      ObeysSnoc(p, log, call);
      FollowsSnoc(p, log, point, call);
      log := log + [call];
      point := Step(p, point, call);
    }

    /** A run that has made no call is at its start. */
    lemma AtStart()
      requires Sound() && log == []
      ensures point == StartPoint(p)
    {
      AtIsWhere(p, log, point);
    }

    /** Whatever the runner did, its log follows the plan to where it stands, so a run that failed
        got an answer that is fatal by its log alone. */
    lemma LogFollowsPlan()
      requires Sound()
      ensures Follows(p, log) && point == Where(p, log) && Obeys(p, log)
      ensures HasFailed(point) <==> HasFatal(p, log)
    {
      hide HasFatal, Where;
      AtIsWhere(p, log, point);
      FailsIff(p, log);
    }

    lemma Unexposed()
      requires Sound() && !fundingExposed
      ensures NoFundingSent(log)
    {
    }

    method MarkExposed(exposed: bool)
      requires Sound() && (fundingExposed ==> exposed)
      modifies `fundingExposed
      ensures Sound() && fundingExposed == exposed
    {
      fundingExposed := exposed;
    }

    method ReadRecovery() returns (found: ReadResult<Record>)
      requires Sound()
      requires Asks(p, point, Call.ReadRecovery(Missing))
      modifies `log, `point
      ensures Sound() && Extends(old(log), log) && log == old(log) + [Call.ReadRecovery(found)]
      ensures point == Step(p, old(point), Call.ReadRecovery(found))
    {
      hide Sound;
      found := *;
      Append(Call.ReadRecovery(found));
    }

    method ReadOutbox(path: Kind) returns (content: ReadResult<Outbox>)
      requires Sound()
      requires Asks(p, point, Call.ReadOutbox(path, Missing))
      modifies `log, `point
      ensures Sound() && Extends(old(log), log) && log == old(log) + [Call.ReadOutbox(path, content)]
      ensures point == Step(p, old(point), Call.ReadOutbox(path, content))
    {
      hide Sound;
      content := *;
      Append(Call.ReadOutbox(path, content));
    }

    method CurrentHeight() returns (height: Option<U64>)
      requires Sound()
      requires Asks(p, point, Height(None))
      modifies `log, `point
      ensures Sound() && Extends(old(log), log) && log == old(log) + [Height(height)]
      ensures point == Step(p, old(point), Height(height))
    {
      hide Sound;
      height := *;
      Append(Height(height));
    }

    method CurrentTip() returns (height: Option<U64>)
      requires Sound()
      requires Asks(p, point, Tip(None))
      modifies `log, `point
      ensures Sound() && Extends(old(log), log) && log == old(log) + [Tip(height)]
      ensures point == Step(p, old(point), Tip(height))
    {
      hide Sound;
      height := *;
      Append(Tip(height));
    }

    method PrepareFunding() returns (prepared: Option<Outbox>)
      requires Sound()
      requires Asks(p, point, Call.PrepareFunding(None))
      modifies `log, `point
      ensures Sound() && Extends(old(log), log) && log == old(log) + [Call.PrepareFunding(prepared)]
      ensures point == Step(p, old(point), Call.PrepareFunding(prepared))
    {
      hide Sound;
      prepared := *;
      Append(Call.PrepareFunding(prepared));
    }

    /** The adapter binds the spend to the funding outpoint it is given and marks its kind
        (src/swaps/liquid.rs). */
    method PrepareSpend(kind: Kind, txid: Txid, vout: nat) returns (prepared: Option<Outbox>)
      requires Sound()
      requires Asks(p, point, Call.PrepareSpend(kind, txid, vout, None))
      modifies `log, `point
      ensures Sound() && Extends(old(log), log) && log == old(log) + [Call.PrepareSpend(kind, txid, vout, prepared)]
      ensures prepared.Some? ==> prepared.value.kind == kind && BindsFunding(prepared.value, txid, vout)
      ensures point == Step(p, old(point), Call.PrepareSpend(kind, txid, vout, prepared))
    {
      hide Sound;
      var found, newTxid, rawHex := *, *, *;
      prepared := if found then Some(Outbox(kind, newTxid, rawHex, Some(txid), Some(vout))) else None;
      Append(Call.PrepareSpend(kind, txid, vout, prepared));
    }

    method Broadcast(ghost r: Record, path: Kind, o: Outbox) returns (ok: bool)
      requires Sound() && Holding(p, log, r) && BroadcastReady(p, log, r, path, o)
      requires Asks(p, point, Call.Broadcast(path, o, true))
      requires path == Funding ==> fundingExposed
      modifies `log, `point
      ensures Sound() && Extends(old(log), log) && log == old(log) + [Call.Broadcast(path, o, ok)]
      ensures point == Step(p, old(point), Call.Broadcast(path, o, ok))
    {
      hide Sound;
      ok := *;
      Append(Call.Broadcast(path, o, ok));
    }

    method ObserveFunding(txid: Txid, vout: nat, ghost f: Outbox) returns (funding: Option<FundingEvidence>)
      requires Sound()
      requires Asks(p, point, Call.ObserveFunding(txid, vout, None))
      requires HoldsOutbox(log, Funding, f) && Sent(log, Funding, f) && txid == f.txid && vout == HtlcVout(f)
      modifies `log, `point
      ensures Sound() && Extends(old(log), log) && log == old(log) + [Call.ObserveFunding(txid, vout, funding)]
      ensures funding.Some? ==> funding.value.txid == txid && funding.value.vout == vout
      ensures point == Step(p, old(point), Call.ObserveFunding(txid, vout, funding))
    {
      hide Sound;
      var found, confirmations := *, *;
      funding := if found then Some(FundingEvidence(txid, vout, confirmations)) else None;
      Append(Call.ObserveFunding(txid, vout, funding));
    }

    method Confirm() returns (ok: bool)
      requires Sound()
      requires Asks(p, point, Call.Confirm(true))
      modifies `log, `point
      ensures Sound() && Extends(old(log), log) && log == old(log) + [Call.Confirm(ok)]
      ensures point == Step(p, old(point), Call.Confirm(ok))
    {
      hide Sound;
      ok := *;
      Append(Call.Confirm(ok));
    }

    method ObserveSpend(path: Kind, o: Outbox) returns (spend: Option<SpendEvidence>)
      requires Sound() && HoldsOutbox(log, path, o) && Sent(log, path, o)
      requires Asks(p, point, Call.ObserveSpend(path, o, None))
      modifies `log, `point
      ensures Sound() && Extends(old(log), log) && log == old(log) + [Call.ObserveSpend(path, o, spend)]
      ensures spend.Some? ==> spend.value.txid == o.txid && o.fundingTxid == Some(spend.value.fundingTxid)
      ensures point == Step(p, old(point), Call.ObserveSpend(path, o, spend))
    {
      hide Sound;
      spend := *;
      if spend.Some? && (spend.value.txid != o.txid || o.fundingTxid != Some(spend.value.fundingTxid)) {
        spend := None;
      }
      Append(Call.ObserveSpend(path, o, spend));
    }

    method LookupInvoice(ghost r: Record, hash: Hash) returns (answer: InvoiceAnswer)
      requires Sound() && Holding(p, log, r) && hash == r.hash
      requires Asks(p, point, Lookup(hash, NotFound))
      modifies `log, `point
      ensures Sound() && Extends(old(log), log) && log == old(log) + [Lookup(hash, answer)]
      ensures point == Step(p, old(point), Lookup(hash, answer))
    {
      hide Sound;
      answer := *;
      Append(Lookup(hash, answer));
    }

    method CreateHoldInvoice(ghost r: Record, hash: Hash, amountSats: U64) returns (ok: bool)
      requires Sound() && Holding(p, log, r) && hash == r.hash && !p.kind.RefundRun?
      requires Asks(p, point, CreateInvoice(hash, amountSats, true, true))
      requires Lookup(hash, NotFound) in log && amountSats == p.terms.amountSats
      modifies `log, `point
      ensures Sound() && Extends(old(log), log)
      ensures exists applied :: log == old(log) + [CreateInvoice(hash, amountSats, applied, ok)] && (ok ==> applied)
      ensures point == Step(p, old(point), CreateInvoice(hash, amountSats, ok, ok))
    {
      hide Sound, Step;
      ok := *;
      var applied: bool := *;
      InvoiceIsSeen(p, point, hash, amountSats, applied, ok);
      Append(CreateInvoice(hash, amountSats, ok || applied, ok));
    }

    method ObserveAccepted(ghost r: Record, hash: Hash) returns (invoice: Option<Invoice>)
      requires Sound() && Holding(p, log, r) && hash == r.hash && !p.kind.RefundRun?
      requires Asks(p, point, Call.ObserveAccepted(hash, None))
      modifies `log, `point
      ensures Sound() && Extends(old(log), log) && log == old(log) + [Call.ObserveAccepted(hash, invoice)]
      ensures point == Step(p, old(point), Call.ObserveAccepted(hash, invoice))
    {
      hide Sound;
      invoice := *;
      Append(Call.ObserveAccepted(hash, invoice));
    }

    method Pay(ghost r: Record, hash: Hash, amountSats: U64) returns (state: Option<PaymentState>)
      requires Sound() && Holding(p, log, r) && hash == r.hash && PayReady(p, log, r, amountSats)
      requires Asks(p, point, Call.Pay(hash, amountSats, None))
      modifies `log, `point
      ensures Sound() && Extends(old(log), log) && log == old(log) + [Call.Pay(hash, amountSats, state)]
      ensures point == Step(p, old(point), Call.Pay(hash, amountSats, state))
    {
      hide Sound;
      state := *;
      Append(Call.Pay(hash, amountSats, state));
    }

    method SettleHold(ghost r: Record, hash: Hash, preimage: Preimage) returns (ok: bool)
      requires Sound() && Holding(p, log, r) && hash == r.hash && preimage == r.preimage
      requires Asks(p, point, Call.SettleHold(hash, preimage, true, true))
      requires SettleReady(p, log, r)
      modifies `log, `point
      ensures Sound() && Extends(old(log), log)
      ensures exists applied :: log == old(log) + [Call.SettleHold(hash, preimage, applied, ok)] && (ok ==> applied)
      ensures point == Step(p, old(point), Call.SettleHold(hash, preimage, ok, ok))
    {
      hide Sound, Allowed, SettleReady, Step;
      ok := *;
      var applied: bool := *;
      MaySettle(p, log, r, ok || applied, ok);
      SettleIsSeen(p, point, hash, preimage, applied, ok);
      Append(Call.SettleHold(hash, preimage, ok || applied, ok));
    }

    method CancelHold(ghost r: Record, hash: Hash) returns (ok: bool)
      requires Sound() && Holding(p, log, r) && hash == r.hash && !p.kind.RefundRun?
      requires Asks(p, point, Call.CancelHold(hash, true, true))
      requires !fundingExposed && Call.ReadOutbox(Funding, Missing) in log && SawHeldOnly(log, r)
      modifies `log, `point
      ensures Sound() && Extends(old(log), log)
      ensures exists applied :: log == old(log) + [Call.CancelHold(hash, applied, ok)] && (ok ==> applied)
      ensures point == Step(p, old(point), Call.CancelHold(hash, ok, ok))
    {
      hide Sound, Allowed, NoFundingSent;
      ok := *;
      var applied: bool := *;
      Unexposed();
      MayCancel(p, log, r, ok || applied, ok);
      Append(Call.CancelHold(hash, ok || applied, ok));
    }

    method TrackByHash(ghost r: Record, hash: Hash) returns (payment: Option<Payment>)
      requires Sound() && Holding(p, log, r) && hash == r.hash && (p.kind.RefundRun? || SettledHold(log, r))
      requires Asks(p, point, Track(hash, None))
      modifies `log, `point
      ensures Sound() && Extends(old(log), log) && log == old(log) + [Track(hash, payment)]
      ensures point == Step(p, old(point), Track(hash, payment))
    {
      hide Sound;
      payment := *;
      Append(Track(hash, payment));
    }

    method CreateOutboxFile(ghost r: Record, path: Kind, o: Outbox) returns (created: Creation)
      requires Sound() && Call.ReadOutbox(path, Missing) in log && o.kind == path
      requires Asks(p, point, CreateOutbox(path, o, CreatedNew))
      requires Holding(p, log, r) && CreateReady(p, log, r, path, o)
      modifies `log, `point
      ensures Sound() && Extends(old(log), log) && log == old(log) + [CreateOutbox(path, o, created)]
      ensures point == Step(p, old(point), CreateOutbox(path, o, created))
    {
      hide Sound;
      created := *;
      Append(CreateOutbox(path, o, created));
    }

    method FinishOutboxFile(path: Kind, o: Outbox) returns (synced: bool)
      requires Sound() && log != [] && log[|log| - 1] == CreateOutbox(path, o, CreatedNew)
      requires Asks(p, point, FinishOutbox(path, o, true, true))
      modifies `log, `point
      ensures Sound() && Extends(old(log), log)
      ensures exists stored :: log == old(log) + [FinishOutbox(path, o, stored, synced)] && (synced ==> stored)
      ensures point == Step(p, old(point), FinishOutbox(path, o, synced, synced))
    {
      hide Sound;
      var stored: bool := *;
      synced := *;
      Append(FinishOutbox(path, o, stored || synced, synced));
    }

    method ReadSwapRow() returns (row: Option<SwapState>)
      requires Sound() && p.core
      requires Asks(p, point, ReadRow(None))
      modifies `log, `point
      ensures Sound() && Extends(old(log), log) && log == old(log) + [ReadRow(row)]
      ensures point == Step(p, old(point), ReadRow(row))
    {
      hide Sound;
      row := *;
      Append(ReadRow(row));
    }

    method TransitionSwap(ghost r: Record, from: SwapState, to: SwapState) returns (ok: bool)
      requires Sound() && p.core && PhaseEdge(from, to) && ReadRow(Some(from)) in log
      requires Asks(p, point, Transition(from, to, true, true))
      requires Holding(p, log, r) && RowReady(p, log, r, to)
      modifies `log, `point
      ensures Sound() && Extends(old(log), log)
      ensures exists committed :: log == old(log) + [Transition(from, to, committed, ok)] && (ok ==> committed)
      ensures point == Step(p, old(point), Transition(from, to, ok, ok))
    {
      hide Sound;
      var committed: bool := *;
      ok := *;
      Append(Transition(from, to, committed || ok, ok));
    }

    method ConsumeReservation(ghost r: Record) returns (ok: bool)
      requires Sound() && p.core && Holding(p, log, r) && SawPayment(log, r)
      requires Asks(p, point, Consume(true, true))
      modifies `log, `point
      ensures Sound() && Extends(old(log), log)
      ensures exists committed :: log == old(log) + [Consume(committed, ok)] && (ok ==> committed)
      ensures point == Step(p, old(point), Consume(ok, ok))
    {
      hide Sound;
      var committed: bool := *;
      ok := *;
      Append(Consume(committed || ok, ok));
    }

    // Durable files.

    /** Exclusive creation, write and sync; an existing file is compared instead. */
    method WriteOutbox(ghost r: Record, path: Kind, o: Outbox, ghost k: Known, ghost rest: Tasks)
      returns (res: Result<bool, SwapError>)
      requires Sound() && Call.ReadOutbox(path, Missing) in log && o.kind == path
      requires Holding(p, log, r) && CreateReady(p, log, r, path, o)
      requires point == Doing(k, Do(Store(path, o), rest))
      modifies `log, `point
      ensures Sound() && Extends(old(log), log)
      ensures res.Ok? ==> HoldsOutbox(log, path, o)
      ensures res.Err? ==> Refused(p, log)
      ensures point == if res.Ok? then Stored(p, k, path, o, rest) else Fail(k)
    {
      hide Sound, Step, Asks, Advance, Because, Refused, CreateReady, Holding, Stored, Fail;
      StoreSteps(p, k, path, o, rest);
      FinishSteps(p, k, path, o, rest);
      RereadSteps(p, k, path, o, rest);
      var created := CreateOutboxFile(r, path, o);
      match created
      case CreatedNew =>
        var synced := FinishOutboxFile(path, o);
        if !synced {
          LastRefuses(p, log);
        }
        return if synced then Ok(false) else Err(Durability);
      case AlreadyExists =>
        ghost var taken := CreateOutbox(path, o, AlreadyExists);
        assert taken in log;
        var existing := ReadOutbox(path);
        Refuses(p, log, taken);
        match existing {
          case Missing => return Err(Durability);
          case Corrupt => return Err(Durability);
          case Got(e) => return if e == o then Ok(true) else Err(RecoveryMismatch);
        }
      case CreateFailed =>
        LastRefuses(p, log);
        return Err(Durability);
    }

    /** `prepare_or_load_recovery`: replay a matching record or write one exclusively. */
    method LoadRecovery() returns (res: Result<Record, SwapError>)
      requires Sound() && !p.kind.RefundRun?
      requires point == StartPoint(p)
      modifies `log, `point
      ensures Sound() && Extends(old(log), log)
      ensures res.Ok? ==> Holding(p, log, res.value)
      ensures res.Err? ==> Refused(p, log)
      ensures point == if res.Ok? then Loaded(res.value) else Stopped
    {
      hide Sound;
      if p.terms.amountSats == 0 || p.terms.assetAmountSats == 0 || p.terms.refundLockHeight == 0 {
        assert Because(p, log, InRequest);
        return Err(InvalidInput);
      }
      var found := ReadRecovery();
      match found
      case Corrupt =>
        LastRefuses(p, log);
        return Err(Durability);
      case Got(r) =>
        if !MatchesRequest(p, r) {
          LastRefuses(p, log);
          return Err(RecoveryMismatch);
        }
        return Ok(r);
      case Missing =>
        var r := NewRecord(p);
        if !p.materialOk(r) {
          assert Because(p, log, InRequest);
          return Err(RecoveryMismatch);
        }
        res := WriteRecovery(r);
    }

    method WriteRecovery(r: Record) returns (res: Result<Record, SwapError>)
      requires Sound() && Allowed(p, log, CreateRecovery(r, CreateFailed))
      requires point == Creating(r)
      modifies `log, `point
      ensures Sound() && Extends(old(log), log)
      ensures res.Ok? ==> res.value == r && HoldsRecord(log, r)
      ensures res.Err? ==> Refused(p, log)
      ensures point == if res.Ok? then Loaded(res.value) else Stopped
    {
      hide Sound;
      var created: Creation := *;
      Append(CreateRecovery(r, created));
      match created
      case CreatedNew =>
        var stored: bool, synced: bool := *, *;
        Append(FinishRecovery(r, stored || synced, synced));
        if !synced {
          LastRefuses(p, log);
        }
        return if synced then Ok(r) else Err(Durability);
      case AlreadyExists =>
        ghost var taken := CreateRecovery(r, AlreadyExists);
        assert taken in log;
        var existing := ReadRecovery();
        Refuses(p, log, taken);
        match existing {
          case Missing => return Err(Durability);
          case Corrupt => return Err(Durability);
          case Got(e) => return if e == r then Ok(r) else Err(RecoveryMismatch);
        }
      case CreateFailed =>
        LastRefuses(p, log);
        return Err(Durability);
    }

    // The observer.

    /** `CoreSwapObserver::on_phase`, or nothing for the no-op observer. */
    method OnPhase(r: Record, phase: SwapPhase, ghost k: Known, ghost rest: Tasks) returns (res: Result<(), SwapError>)
      requires Sound() && Holding(p, log, r)
      requires PhaseTransition(phase).Some? ==> RowReady(p, log, r, PhaseTransition(phase).value.1)
      requires Ahead(k, Do(Phase(phase), rest))
      modifies `log, `point
      ensures Sound() && Extends(old(log), log)
      ensures res.Ok? && p.core && PhaseTransition(phase).Some?
          ==> RowReached(log, StateRank(PhaseTransition(phase).value.1))
      ensures res.Ok? && p.core && phase.OutputSettledPhase? ==> Consume(true, true) in log
      ensures res.Err? ==> Refused(p, log)
      ensures point == if res.Ok? then Advance(p, k, rest) else Fail(k)
    {
      hide Sound, Step, Asks, Advance, Because, Refused, MatchesRequest, Fail;
      PhaseSteps(p, k, phase, rest);
      if !p.core || PhaseTransition(phase).None? {
        AdvancePast(p, k, Phase(phase), rest);
        return Ok(());
      }
      var (expected, next) := PhaseTransition(phase).value;
      AdvanceTo(p, k, Phase(phase), rest);
      var row := ReadSwapRow();
      if row.None? {
        LastRefuses(p, log);
        return Err(Durability);
      }
      var current := row.value;
      if phase.OutputSettledPhase? && (current == next || StateRank(current) > StateRank(next)) {
        assert ReadRow(Some(current)) in log;
        res := ConsumeSolverReservation(r, k, false, rest);
        return;
      }
      if current == next || StateRank(current) > StateRank(next) {
        return Ok(());
      }
      var expectedState :=
        if phase.OutputSettledPhase? && current.OutputUnknown? then SwapState.OutputUnknown else expected;
      if current != expectedState {
        Reasons(p, log, RowStuck(|log| - 1, phase));
        return Err(RecoveryMismatch);
      }
      RowReadyGrows(p, old(log), log, r, next);
      res := MoveRow(r, phase, expectedState, next, k, rest);
    }

    /** The transition itself; after OUTPUT_SETTLED the reservation is consumed. */
    method MoveRow(r: Record, phase: SwapPhase, from: SwapState, next: SwapState, ghost k: Known, ghost rest: Tasks)
      returns (res: Result<(), SwapError>)
      requires Sound() && p.core && Holding(p, log, r) && RowReady(p, log, r, next)
      requires PhaseEdge(from, next) && ReadRow(Some(from)) in log
      requires phase.OutputSettledPhase? ==> SawPayment(log, r)
      requires point == Doing(k, Do(Move(phase, from, next), rest))
      modifies `log, `point
      ensures Sound() && Extends(old(log), log)
      ensures res.Ok? ==> RowReached(log, StateRank(next))
      ensures res.Ok? && phase.OutputSettledPhase? ==> Consume(true, true) in log
      ensures res.Err? ==> Refused(p, log)
      ensures point == if res.Ok? then Advance(p, k, rest) else Fail(k)
    {
      hide Sound, Step, Asks, Advance, Because, Refused, RowReady, Fail;
      MoveSteps(p, k, phase, from, next, rest);
      var ok := TransitionSwap(r, from, next);
      if !ok {
        LastRefuses(p, log);
        return Err(Durability);
      }
      assert Transition(from, next, true, true) in log;
      if phase.OutputSettledPhase? {
        res := ConsumeSolverReservation(r, k, true, rest);
        if res.Ok? && p.stopAfterPayment {
          Reasons(p, log, AskedToStop);
          return Err(Unknown);
        }
        return;
      }
      return Ok(());
    }

    method ConsumeSolverReservation(r: Record, ghost k: Known, ghost moved: bool, ghost rest: Tasks)
      returns (res: Result<(), SwapError>)
      requires Sound() && p.core && Holding(p, log, r) && SawPayment(log, r)
      requires point == Doing(k, Do(ConsumeHeld(moved), rest))
      modifies `log, `point
      ensures Sound() && Extends(old(log), log)
      ensures res.Ok? ==> Consume(true, true) in log
      ensures res.Err? ==> Refused(p, log)
      ensures point == if res.Ok? && !(moved && p.stopAfterPayment) then Advance(p, k, rest) else Fail(k)
    {
      hide Sound, Step, Asks, Advance, Because, Refused, Fail;
      ConsumeSteps(p, k, moved, rest);
      var ok := ConsumeReservation(r);
      if !ok {
        LastRefuses(p, log);
      }
      return if ok then Ok(()) else Err(Durability);
    }

    // The Lightning side.

    method EnsureInvoice(r: Record) returns (res: Result<Invoice, SwapError>)
      requires Sound() && Holding(p, log, r) && !p.kind.RefundRun?
      requires point == Loaded(r)
      modifies `log, `point
      ensures Sound() && Extends(old(log), log)
      ensures res.Ok? && res.value.state.Open? ==> StartedOpen(log, r)
      ensures res.Ok? && res.value.state.Settled? ==> StartedSettled(log, r)
      ensures res.Ok? ==> InvoiceLogged(log, r, res.value)
      ensures res.Err? ==> Refused(p, log)
      ensures point == if res.Ok? then WithInvoice(p, NewKnown(r), res.value) else Stopped
      ensures res.Ok? ==> res.value.amountSats == p.terms.amountSats && !res.value.state.Canceled?
      ensures res.Ok? && res.value.state.Open? ==> res.value.hasRequest
    {
      hide Sound;
      var answer := LookupInvoice(r, r.hash);
      match answer
      case Found(invoice) =>
        var bad := ValidateInvoiceAmount(invoice, p.terms.amountSats);
        if bad.Some? {
          LastRefuses(p, log);
        }
        return if bad.Some? then Err(bad.value) else Ok(invoice);
      case NotFound =>
        var ok := CreateHoldInvoice(r, r.hash, p.terms.amountSats);
        if !ok {
          LastRefuses(p, log);
        }
        return if ok then Ok(Invoice(InvoiceState.Open, p.terms.amountSats, true, None, None)) else Err(Lightning);
      case LookupFailed =>
        LastRefuses(p, log);
        return Err(Lightning);
    }

    /** Where a run's invoice came from: found, or just created open with a request. */
    ghost predicate InvoiceLogged(calls: Log, r: Record, invoice: Invoice) {
      || Lookup(r.hash, Found(invoice)) in calls
      || (invoice.hasRequest && exists a: U64 :: CreateInvoice(r.hash, a, true, true) in calls)
    }

    /** An open invoice must carry a request that decodes to this hash and amount. */
    method ValidateOpenInvoice(r: Record, invoice: Invoice) returns (res: Result<(), SwapError>)
      requires InvoiceLogged(log, r, invoice) && !p.kind.RefundRun?
      requires point == WithInvoice(p, NewKnown(r), invoice)
      ensures res.Ok? <==> (invoice.state.Open? ==> invoice.hasRequest && p.invoiceOk(r.hash))
      ensures res.Err? ==> Refused(p, log)
      ensures point == if res.Ok? then Doing(NewKnown(r).(invoice := Some(invoice)), Do(FindClaim, End)) else Stopped
    {
      hide Sound;
      if !invoice.state.Open? {
        return Ok(());
      }
      if !(invoice.hasRequest && p.invoiceOk(r.hash)) {
        if Lookup(r.hash, Found(invoice)) in log {
          Refuses(p, log, Lookup(r.hash, Found(invoice)));
        } else {
          ghost var a: U64 :| CreateInvoice(r.hash, a, true, true) in log;
          Refuses(p, log, CreateInvoice(r.hash, a, true, true));
        }
      }
      return if invoice.hasRequest && p.invoiceOk(r.hash) then Ok(()) else Err(Lightning);
    }

    method PayIfOpen(r: Record, invoice: Invoice, ghost k: Known, ghost rest: Tasks)
      returns (res: Result<(), SwapError>)
      requires Sound() && Holding(p, log, r)
      requires invoice.state.Open? ==> invoice.hasRequest && PayReady(p, log, r, p.terms.amountSats)
      requires Ahead(k, Do(PayInvoice, rest)) && k.r == r && k.invoice == Some(invoice)
      modifies `log, `point
      ensures Sound() && Extends(old(log), log)
      ensures res.Err? ==> Refused(p, log)
      ensures point == if res.Ok? then Advance(p, k, rest) else Fail(k)
    {
      hide Sound, Step, Asks, Advance, Because, Refused, PayReady, Fail;
      PaySteps(p, k, rest);
      if !invoice.state.Open? {
        AdvancePast(p, k, PayInvoice, rest);
        return Ok(());
      }
      AdvanceTo(p, k, PayInvoice, rest);
      if !invoice.hasRequest {
        return Err(Lightning);
      }
      var state := Pay(r, r.hash, p.terms.amountSats);
      if state.None? || state.value == PaymentState.Failed {
        LastRefuses(p, log);
      }
      return if state.None? || state.value == PaymentState.Failed then Err(Lightning) else Ok(());
    }

    /** Observe the hold, read the tip and check amount and headroom. */
    method AcceptedHold(r: Record, ghost k: Known, ghost rest: Tasks) returns (res: Result<(Invoice, U64), SwapError>)
      requires Sound() && Holding(p, log, r) && !p.kind.RefundRun?
      requires point == Doing(k, Do(SeeHold, rest)) && k.r == r
      modifies `log, `point
      ensures Sound() && Extends(old(log), log)
      ensures res.Ok? ==> Call.ObserveAccepted(r.hash, Some(res.value.0)) in log && IsHeld(p, res.value.0)
      ensures res.Ok? ==> Tip(Some(res.value.1)) in log
      ensures res.Err? ==> Refused(p, log)
      ensures point == if res.Ok? then Advance(p, k.(held := Some(res.value.0), tip := res.value.1), rest) else Fail(k)
      ensures res.Ok? && res.value.0.state.Accepted? ==>
        res.value.0.acceptedExpiry.Some?
          && res.value.0.acceptedExpiry.value > res.value.1 + MIN_ACCEPTED_HEADROOM_BLOCKS
    {
      hide Sound, Step, Asks, Advance, Because, Refused, Fail;
      HoldSteps(p, k, rest);
      var invoice := ObserveAccepted(r, r.hash);
      if invoice.None? {
        LastRefuses(p, log);
        return Err(Lightning);
      }
      assert Call.ObserveAccepted(r.hash, Some(invoice.value)) in log;
      TipSteps(p, k, invoice.value, rest);
      var tip := CurrentTip();
      if tip.None? {
        LastRefuses(p, log);
        return Err(Lightning);
      }
      assert Tip(Some(tip.value)) in log;
      var bad := ValidateAccepted(invoice.value, p.terms.amountSats, tip.value);
      if bad.Some? {
        Reasons(p, log, HoldUnfit(r.hash, invoice.value, tip.value));
      }
      return if bad.Some? then Err(bad.value) else Ok((invoice.value, tip.value));
    }

    method SettleInvoice(r: Record, invoice: Invoice, ghost k: Known, ghost rest: Tasks)
      returns (res: Result<(), SwapError>)
      requires Sound() && Holding(p, log, r) && SettleReady(p, log, r)
      requires Call.ObserveAccepted(r.hash, Some(invoice)) in log
      requires Ahead(k, Do(Task.SettleInvoice, rest)) && k.r == r && k.held == Some(invoice)
      modifies `log, `point
      ensures Sound() && Extends(old(log), log)
      ensures res.Ok? ==> SettledHold(log, r)
      ensures res.Err? ==> Refused(p, log)
      ensures point == if res.Ok? then Advance(p, k, rest) else Fail(k)
    {
      hide Sound, Step, Asks, Advance, Because, Refused, SettleReady, Fail;
      SettleSteps(p, k, rest);
      if invoice.state.Settled? {
        AdvancePast(p, k, Task.SettleInvoice, rest);
        return Ok(());
      }
      AdvanceTo(p, k, Task.SettleInvoice, rest);
      var ok := SettleHold(r, r.hash, r.preimage);
      if !ok {
        LastRefuses(p, log);
      }
      return if ok then Ok(()) else Err(Lightning);
    }

    /** Track the payment and require the committed preimage. */
    method TrackSuccess(r: Record, ghost k: Known, ghost rest: Tasks) returns (res: Result<(), SwapError>)
      requires Sound() && Holding(p, log, r) && SettledHold(log, r) && !p.kind.RefundRun?
      requires Ahead(k, Do(Task.TrackSuccess, rest)) && k.r == r
      modifies `log, `point
      ensures Sound() && Extends(old(log), log)
      ensures res.Ok? ==> SawPayment(log, r)
      ensures res.Err? ==> Refused(p, log)
      ensures point == if res.Ok? then Advance(p, k, rest) else Fail(k)
    {
      hide Sound, Step, Asks, Advance, Because, Refused, Fail;
      TrackSteps(p, k, Task.TrackSuccess, rest);
      AdvanceTo(p, k, Task.TrackSuccess, rest);
      var payment := TrackByHash(r, r.hash);
      if payment.None? {
        LastRefuses(p, log);
        return Err(Lightning);
      }
      if payment.value.state != Succeeded {
        LastRefuses(p, log);
        return Err(Unknown);
      }
      assert Track(r.hash, Some(Payment(Succeeded, payment.value.preimage))) in log;
      if payment.value.preimage != Some(r.preimage) {
        assert HoldsRecord(log, r);
        Reasons(p, log, PreimageUnfit(r, payment.value.preimage));
      }
      return if payment.value.preimage == Some(r.preimage) then Ok(()) else Err(Lightning);
    }

    /** Cooperative cancellation after a failed run that exposed no funding; its own failures are dropped. */
    method CancelIfAccepted(r: Record)
      requires Sound() && Holding(p, log, r) && !p.kind.RefundRun?
      requires !fundingExposed && Call.ReadOutbox(Funding, Missing) in log
      requires point == CleaningUp(r)
      modifies `log, `point
      ensures Sound() && Extends(old(log), log) && OnlyCleanup(log[|old(log)|..])
      ensures CleanedUp(log[|old(log)|..], r)
      ensures point == Stopped
    {
      hide Sound, Step, Asks, Advance, Because, Refused, NoFundingSent;
      CleanupSteps(p, r);
      ghost var before := log;
      var invoice := ObserveAccepted(r, r.hash);
      assert log[|before|..] == [Call.ObserveAccepted(r.hash, invoice)];
      if invoice.None? || invoice.value.state != InvoiceState.Accepted {
        return;
      }
      var _ := CancelHold(r, r.hash);
      assert log[|before|..] == [Call.ObserveAccepted(r.hash, invoice), log[|before| + 1]];
    }

    // The chain side.

    /** Replay the stored funding transaction, or prepare one and store it first. */
    method FundingOutbox(r: Record, ghost k: Known, ghost rest: Tasks) returns (res: Result<Outbox, SwapError>)
      requires Sound() && Holding(p, log, r) && FundingReady(p, log, r)
      requires Ahead(k, Do(FindFunding, rest))
      modifies `log, `point
      ensures Sound() && Extends(old(log), log)
      ensures res.Ok? ==> HoldsOutbox(log, Funding, res.value) && res.value.kind == Funding
      ensures res.Err? ==> Refused(p, log)
      ensures point == if res.Ok? then Stored(p, k, Funding, res.value, rest) else Fail(k)
    {
      hide Sound, Step, Asks, Advance, Because, Refused, FundingReady, ClaimReady, Stored, Fail;
      FindSteps(p, k, FindFunding, Funding, rest);
      MakeFundingSteps(p, k, rest);
      AdvanceTo(p, k, FindFunding, rest);
      var content := ReadOutbox(Funding);
      match content
      case Corrupt =>
        LastRefuses(p, log);
        return Err(Durability);
      case Got(stored) =>
        var bad := ValidateFundingOutbox(stored);
        if bad.Some? {
          LastRefuses(p, log);
        }
        return if bad.Some? then Err(bad.value) else Ok(stored);
      case Missing =>
        var prepared := PrepareFunding();
        if prepared.None? {
          LastRefuses(p, log);
          return Err(Chain);
        }
        if !prepared.value.kind.Funding? {
          LastRefuses(p, log);
          return Err(Durability);
        }
        FundingReadyGrows(p, old(log), log, r);
        var _ :- WriteOutbox(r, Funding, prepared.value, k, rest);
        return Ok(prepared.value);
    }

    method ObserveOrConfirmFunding(r: Record, o: Outbox, ghost k: Known, ghost rest: Tasks)
      returns (res: Result<FundingEvidence, SwapError>)
      requires Sound() && HoldsOutbox(log, Funding, o) && Sent(log, Funding, o)
      requires point == Doing(k, Do(SeeFunding(o, false), rest))
      modifies `log, `point
      ensures Sound() && Extends(old(log), log)
      ensures res.Ok? ==> Call.ObserveFunding(o.txid, HtlcVout(o), Some(res.value)) in log
      ensures res.Ok? ==> res.value.txid == o.txid && res.value.vout == HtlcVout(o)
      ensures res.Err? ==> Refused(p, log)
      ensures point == if res.Ok? then Advance(p, k.(funding := Some(res.value)), rest) else Fail(k)
    {
      hide Sound, Step, Asks, Advance, Because, Refused, Fail;
      SeeFundingSteps(p, k, o, false, rest);
      SeeFundingSteps(p, k, o, true, rest);
      var funding := ObserveFunding(o.txid, HtlcVout(o), o);
      if funding.Some? {
        return Ok(funding.value);
      }
      var confirmed := Confirm();
      if !confirmed {
        LastRefuses(p, log);
        return Err(Chain);
      }
      funding := ObserveFunding(o.txid, HtlcVout(o), o);
      if funding.None? {
        LastRefuses(p, log);
      }
      return if funding.Some? then Ok(funding.value) else Err(Chain);
    }

    method PrepareOrReplayFunding(r: Record, ghost k: Known, ghost rest: Tasks)
      returns (res: Result<FundingEvidence, SwapError>)
      requires Sound() && Holding(p, log, r) && FundingReady(p, log, r)
      requires Ahead(k, Do(FindFunding, rest)) && k.exposed == fundingExposed
      modifies this
      ensures Sound() && Extends(old(log), log)
      ensures old(fundingExposed) ==> fundingExposed
      ensures res.Ok? ==> FundingSeen(res.value)
      ensures res.Err? ==> Refused(p, log) && HasFatal(p, log)
      ensures res.Ok? ==> fundingExposed && Ahead(k.(exposed := true, funding := Some(res.value)), rest)
      ensures res.Err? ==> point == Fail(k.(exposed := fundingExposed))
    {
      hide Sound, Step, Asks, Advance, Because, Refused, MatchesRequest, FundingReady, BroadcastReady, HasFatal;
      res := FundAndSee(r, k, rest);
      LogFollowsPlan();
    }

    method FundAndSee(r: Record, ghost k: Known, ghost rest: Tasks) returns (res: Result<FundingEvidence, SwapError>)
      requires Sound() && Holding(p, log, r) && FundingReady(p, log, r)
      requires Ahead(k, Do(FindFunding, rest)) && k.exposed == fundingExposed
      modifies this
      ensures Sound() && Extends(old(log), log)
      ensures old(fundingExposed) ==> fundingExposed
      ensures res.Ok? ==> FundingSeen(res.value)
      ensures res.Err? ==> Refused(p, log)
      ensures res.Ok? ==> fundingExposed && Ahead(k.(exposed := true, funding := Some(res.value)), rest)
      ensures res.Err? ==> point == Fail(k.(exposed := fundingExposed))
    {
      hide Sound, Step, Asks, Advance, Because, Refused, MatchesRequest, FundingReady, BroadcastReady;
      var o :- FundingOutbox(r, k, rest);
      MarkExposed(true);
      ghost var k' := k.(exposed := true);
      ghost var sending := Do(Send(Funding, o), Do(SeeFunding(o, false), Do(Phase(InputLockedPhase), rest)));
      var _ :- OnPhase(r, InputFundingPhase, k', sending);
      FundingReadyGrows(p, old(log), log, r);
      FundingMayBeSent(p, log, r, o);
      res := SendFunding(r, o, k', rest);
    }

    method SendFunding(r: Record, o: Outbox, ghost k: Known, ghost rest: Tasks)
      returns (res: Result<FundingEvidence, SwapError>)
      requires Sound() && Holding(p, log, r) && fundingExposed && BroadcastReady(p, log, r, Funding, o)
      requires Ahead(k, Do(Send(Funding, o), Do(SeeFunding(o, false), Do(Phase(InputLockedPhase), rest))))
      modifies `log, `point
      ensures Sound() && Extends(old(log), log)
      ensures res.Ok? ==> FundingSeen(res.value)
      ensures res.Err? ==> Refused(p, log)
      ensures point == if res.Ok? then Advance(p, k.(funding := Some(res.value)), rest) else Fail(k)
    {
      hide Sound, Step, Asks, Advance, Because, Refused, MatchesRequest;
      ghost var seeing := Do(SeeFunding(o, false), Do(Phase(InputLockedPhase), rest));
      SendSteps(p, k, Funding, o, seeing);
      AdvanceTo(p, k, Send(Funding, o), seeing);
      AdvanceTo(p, k, SeeFunding(o, false), seeing.rest);
      var sent := Broadcast(r, Funding, o);
      if !sent {
        LastRefuses(p, log);
        return Err(Chain);
      }
      res := LockFunding(r, o, k, rest);
    }

    method LockFunding(r: Record, o: Outbox, ghost k: Known, ghost rest: Tasks)
      returns (res: Result<FundingEvidence, SwapError>)
      requires Sound() && Holding(p, log, r) && HoldsOutbox(log, Funding, o) && Sent(log, Funding, o)
      requires point == Doing(k, Do(SeeFunding(o, false), Do(Phase(InputLockedPhase), rest)))
      modifies `log, `point
      ensures Sound() && Extends(old(log), log)
      ensures res.Ok? ==> FundingSeen(res.value)
      ensures res.Err? ==> Refused(p, log)
      ensures point == if res.Ok? then Advance(p, k.(funding := Some(res.value)), rest) else Fail(k)
    {
      hide Sound, Step, Asks, Advance, Because, Refused, MatchesRequest;
      var funding :- ObserveOrConfirmFunding(r, o, k, Do(Phase(InputLockedPhase), rest));
      assert SawFunding(log, o.txid, HtlcVout(o));
      var _ :- OnPhase(r, InputLockedPhase, k.(funding := Some(funding)), rest);
      assert HoldsOutbox(log, Funding, o);
      return Ok(funding);
    }

    ghost predicate FundingSeen(e: FundingEvidence)
      reads this
    {
      FundingSeenIn(log, e)
    }

    ghost predicate ClaimSeen(e: SpendEvidence)
      reads this
    {
      ClaimSeenIn(log, e)
    }

    method MakeClaimOutbox(r: Record, funding: FundingEvidence, ghost k: Known, ghost rest: Tasks)
      returns (res: Result<Outbox, SwapError>)
      requires Sound() && Holding(p, log, r) && Call.ReadOutbox(Claim, Missing) in log
      requires forall o :: BindsFunding(o, funding.txid, funding.vout) ==> ClaimReady(p, log, r, o)
      requires point == Doing(k, Do(MakeClaim, rest)) && k.funding == Some(funding)
      modifies `log, `point
      ensures Sound() && Extends(old(log), log)
      ensures res.Ok? ==> HoldsOutbox(log, Claim, res.value) && res.value.kind == Claim
      ensures res.Ok? ==> BindsFunding(res.value, funding.txid, funding.vout)
      ensures res.Err? ==> Refused(p, log)
      ensures point == if res.Ok? then Stored(p, k, Claim, res.value, rest) else Fail(k)
    {
      hide Sound, Step, Asks, Advance, Because, Refused, MatchesRequest, ClaimReady, Stored, Fail;
      MakeSpendSteps(p, k, MakeClaim, Claim, funding.txid, funding.vout, rest);
      var prepared := PrepareSpend(Claim, funding.txid, funding.vout);
      if prepared.None? {
        LastRefuses(p, log);
        return Err(Chain);
      }
      ClaimReadyGrows(p, old(log), log, r, prepared.value);
      var _ :- WriteOutbox(r, Claim, prepared.value, k, rest);
      return Ok(prepared.value);
    }

    /** Replay the stored claim if it binds this funding, or prepare one and store it first. */
    method ClaimOutbox(r: Record, funding: FundingEvidence, ghost k: Known, ghost rest: Tasks)
      returns (res: Result<Outbox, SwapError>)
      requires Sound() && Holding(p, log, r) && FundingSeen(funding)
      requires Call.ReadOutbox(Claim, Missing) in log
      requires forall o :: BindsFunding(o, funding.txid, funding.vout) ==> ClaimReady(p, log, r, o)
      requires Ahead(k, Do(FindFreshClaim, rest)) && k.funding == Some(funding)
      modifies `log, `point
      ensures Sound() && Extends(old(log), log)
      ensures res.Ok? ==> HoldsOutbox(log, Claim, res.value) && res.value.kind == Claim
      ensures res.Ok? ==> BindsFunding(res.value, funding.txid, funding.vout)
      ensures res.Err? ==> Refused(p, log)
      ensures point == if res.Ok? then Stored(p, k, Claim, res.value, rest) else Fail(k)
    {
      hide Sound, Step, Asks, Advance, Because, Refused, FundingReady, ClaimReady, Stored, Fail, MatchesRequest;
      FindSteps(p, k, FindFreshClaim, Claim, rest);
      AdvanceTo(p, k, FindFreshClaim, rest);
      var content := ReadOutbox(Claim);
      match content
      case Corrupt =>
        LastRefuses(p, log);
        return Err(Durability);
      case Got(stored) =>
        var bad := ValidateSpendOutbox(stored, Claim, funding.txid, funding.vout);
        assert Call.ReadOutbox(Claim, Got(stored)) in log;
        Reasons(p, log, Overtaken(Claim, stored));
        return if bad.Some? then Err(bad.value) else Ok(stored);
      case Missing =>
        forall o | BindsFunding(o, funding.txid, funding.vout) ensures ClaimReady(p, log, r, o) {
          ClaimReadyGrows(p, old(log), log, r, o);
        }
        res := MakeClaimOutbox(r, funding, k, rest);
    }

    method ObserveOrConfirmSpend(path: Kind, o: Outbox, ghost k: Known, ghost rest: Tasks)
      returns (res: Result<SpendEvidence, SwapError>)
      requires Sound() && HoldsOutbox(log, path, o) && Sent(log, path, o)
      requires point == Doing(k, Do(SeeSpend(path, o, false), rest))
      modifies `log, `point
      ensures Sound() && Extends(old(log), log)
      ensures res.Ok? ==> Call.ObserveSpend(path, o, Some(res.value)) in log
      ensures res.Ok? ==> res.value.txid == o.txid && o.fundingTxid == Some(res.value.fundingTxid)
      ensures res.Err? ==> Refused(p, log)
      ensures point == if res.Ok? then Advance(p, k.(spend := Some(res.value)), rest) else Fail(k)
    {
      hide Sound, Step, Asks, Advance, Because, Refused, Fail;
      SeeSpendSteps(p, k, path, o, false, rest);
      SeeSpendSteps(p, k, path, o, true, rest);
      var spend := ObserveSpend(path, o);
      if spend.Some? {
        return Ok(spend.value);
      }
      var confirmed := Confirm();
      if !confirmed {
        LastRefuses(p, log);
        return Err(Chain);
      }
      spend := ObserveSpend(path, o);
      if spend.None? {
        LastRefuses(p, log);
      }
      return if spend.Some? then Ok(spend.value) else Err(Chain);
    }

    /** Broadcast a stored spend and see it confirmed. */
    method SendSpend(r: Record, path: Kind, o: Outbox, ghost k: Known, ghost rest: Tasks)
      returns (res: Result<SpendEvidence, SwapError>)
      requires Sound() && Holding(p, log, r) && path != Funding && BroadcastReady(p, log, r, path, o)
      requires Ahead(k, Do(Send(path, o), Do(SeeSpend(path, o, false), rest)))
      modifies `log, `point
      ensures Sound() && Extends(old(log), log)
      ensures res.Ok? ==> SawSpend(log, path, o) && Call.ObserveSpend(path, o, Some(res.value)) in log
      ensures res.Ok? ==> res.value.txid == o.txid && o.fundingTxid == Some(res.value.fundingTxid)
      ensures res.Err? ==> Refused(p, log)
      ensures point == if res.Ok? then Advance(p, k.(spend := Some(res.value)), rest) else Fail(k)
    {
      hide Sound, Step, Asks, Advance, Because, Refused, Fail;
      SendSteps(p, k, path, o, Do(SeeSpend(path, o, false), rest));
      AdvanceTo(p, k, Send(path, o), Do(SeeSpend(path, o, false), rest));
      AdvanceTo(p, k, SeeSpend(path, o, false), rest);
      var sent := Broadcast(r, path, o);
      if !sent {
        LastRefuses(p, log);
        return Err(Chain);
      }
      res := ObserveOrConfirmSpend(path, o, k, rest);
    }

    method RecordAndSendClaim(r: Record, o: Outbox, ghost k: Known, ghost rest: Tasks)
      returns (res: Result<SpendEvidence, SwapError>)
      requires Sound() && Holding(p, log, r) && !p.kind.RefundRun?
      requires HoldsOutbox(log, Claim, o) && o.kind == Claim && Call.ReadOutbox(Claim, Missing) in log
      requires Ahead(k, ClaimPlan(o, rest))
      modifies `log, `point
      ensures Sound() && Extends(old(log), log)
      ensures res.Ok? ==> ClaimSeen(res.value) && o.fundingTxid == Some(res.value.fundingTxid)
      ensures res.Err? ==> Refused(p, log)
      ensures point == if res.Ok? then Advance(p, k.(spend := Some(res.value)), rest) else Fail(k)
    {
      hide Sound, Step, Asks, Advance, Because, Refused, MatchesRequest;
      var _ :- OnPhase(r, ClaimPendingPhase, k, Do(Send(Claim, o), Do(SeeSpend(Claim, o, false), rest)));
      var claim :- SendSpend(r, Claim, o, k, rest);
      assert HoldsOutbox(log, Claim, o);
      return Ok(claim);
    }

    method ClaimOrReplay(r: Record, funding: FundingEvidence, ghost k: Known, ghost rest: Tasks)
      returns (res: Result<SpendEvidence, SwapError>)
      requires Sound() && Holding(p, log, r) && FundingSeen(funding)
      requires Call.ReadOutbox(Claim, Missing) in log && !p.kind.RefundRun?
      requires forall o :: BindsFunding(o, funding.txid, funding.vout) ==> ClaimReady(p, log, r, o)
      requires Ahead(k, Do(FindFreshClaim, rest)) && k.funding == Some(funding) && k.exposed == fundingExposed
      modifies this
      ensures Sound() && Extends(old(log), log)
      ensures old(fundingExposed) ==> fundingExposed
      ensures res.Ok? ==> ClaimSeen(res.value) && res.value.fundingTxid == funding.txid
      ensures res.Err? ==> Refused(p, log)
      ensures res.Ok? ==> fundingExposed && Ahead(k.(exposed := true, spend := Some(res.value)), rest)
      ensures res.Err? ==> point == Fail(k.(exposed := fundingExposed))
    {
      hide Sound, Step, Asks, Advance, Because, Refused, MatchesRequest;
      var o :- ClaimOutbox(r, funding, k, rest);
      MarkExposed(true);
      res := RecordAndSendClaim(r, o, k.(exposed := true), rest);
    }

    /** A run that finds a claim outbox replays it instead of starting over. */
    method ReplayCompleted(r: Record, ghost k: Known) returns (res: Result<Option<Outcome>, SwapError>)
      requires Sound() && Holding(p, log, r) && !p.kind.RefundRun?
      requires point == Doing(k, Do(FindClaim, End)) && k.r == r && !k.started
      modifies `log, `point
      ensures Sound() && Extends(old(log), log)
      ensures res.Ok? && res.value.None? ==> Call.ReadOutbox(Claim, Missing) in log
      ensures res.Ok? && res.value.Some? ==>
        res.value.value.Completed? && CompletedReady(p, log, r, res.value.value)
      ensures res.Err? ==> Refused(p, log)
      ensures res.Err? ==> point == Stopped
      ensures res.Ok? && res.value.None? ==> point == Doing(k, Do(FindExposure, End))
      ensures res.Ok? && res.value.Some? ==> Reporting(res.value.value)
    {
      hide Sound;
      var content := ReadOutbox(Claim);
      match content
      case Missing => return Ok(None);
      case Corrupt =>
        LastRefuses(p, log);
        return Err(Durability);
      case Got(o) =>
        var bad := ValidateSpendOutboxKind(o, Claim);
        if bad.Some? {
          LastRefuses(p, log);
          return Err(bad.value);
        }
        res := ReplayClaim(r, o, k);
    }

    /** Settle a hold that was seen, then require the payment to have succeeded. */
    method SettleAndTrack(r: Record, invoice: Invoice, ghost k: Known, ghost rest: Tasks)
      returns (res: Result<(), SwapError>)
      requires Sound() && Holding(p, log, r) && SettleReady(p, log, r)
      requires Call.ObserveAccepted(r.hash, Some(invoice)) in log
      requires Ahead(k, Do(Task.SettleInvoice, Do(Task.TrackSuccess, rest))) && k.r == r && k.held == Some(invoice)
      modifies `log, `point
      ensures Sound() && Extends(old(log), log)
      ensures res.Ok? ==> SettledHold(log, r) && SawPayment(log, r)
      ensures res.Err? ==> Refused(p, log)
      ensures point == if res.Ok? then Advance(p, k, rest) else Fail(k)
    {
      hide Sound, Step, Asks, Advance, Because, Refused, MatchesRequest;
      var _ :- SettleInvoice(r, invoice, k, Do(Task.TrackSuccess, rest));
      ghost var before := log;
      var _ :- TrackSuccess(r, k, rest);
      SettledHoldGrows(before, log, r);
      return Ok(());
    }

    /** The two closing phases of a replayed claim. */
    method ClosePhases(r: Record, ghost o: Outbox, ghost k: Known, ghost rest: Tasks)
      returns (res: Result<(), SwapError>)
      requires Sound() && Holding(p, log, r) && SawPayment(log, r)
      requires HoldsOutbox(log, Claim, o) && SawSpend(log, Claim, o)
      requires Ahead(k, Do(Phase(OutputSettledPhase), Do(Phase(SettledPhase), rest)))
      modifies `log, `point
      ensures Sound() && Extends(old(log), log)
      ensures res.Ok? && p.core ==> RowReached(log, 7) && Consume(true, true) in log
      ensures res.Err? ==> Refused(p, log)
      ensures point == if res.Ok? then Advance(p, k, rest) else Fail(k)
    {
      hide Sound, Step, Asks, Advance, Because, Refused, MatchesRequest;
      var _ :- OnPhase(r, OutputSettledPhase, k, Do(Phase(SettledPhase), rest));
      assert HoldsOutbox(log, Claim, o);
      var _ :- OnPhase(r, SettledPhase, k, rest);
      return Ok(());
    }

    /** A replayed claim was seen: settle, track and close. */
    method SettleReplay(r: Record, o: Outbox, claim: SpendEvidence, ghost k: Known)
      returns (res: Result<Option<Outcome>, SwapError>)
      requires Sound() && Holding(p, log, r) && !p.kind.RefundRun? && o.fundingTxid.Some?
      requires HoldsOutbox(log, Claim, o) && Call.ObserveSpend(Claim, o, Some(claim)) in log
      requires Ahead(k, AfterReplaySend(o)) && k.r == r && !k.started && k.spend == Some(claim)
      modifies `log, `point
      ensures Sound() && Extends(old(log), log)
      ensures res.Ok? ==> res.value.Some? && res.value.value.Completed? && CompletedReady(p, log, r, res.value.value)
      ensures res.Err? ==> Refused(p, log)
      ensures res.Err? ==> point == Stopped
      ensures res.Ok? ==> Reporting(res.value.value)
    {
      hide Sound, Step, Asks, Advance, Because, Refused, MatchesRequest, Reporting, CompletedReady, SettledHold,
        SawPayment, SettleReady;
      AdvanceTo(p, k, SeeHold, AfterReplayHold(o));
      var held :- AcceptedHold(r, k, AfterReplayHold(o));
      ghost var k' := k.(held := Some(held.0), tip := held.1);
      ReplayMaySettle(p, log, r, o, claim, held.0);
      var _ :- SettleAndTrack(r, held.0, k', AfterReplayTrack(o));
      res := CloseReplay(r, o, claim, k');
    }

    method CloseReplay(r: Record, o: Outbox, claim: SpendEvidence, ghost k: Known)
      returns (res: Result<Option<Outcome>, SwapError>)
      requires Sound() && Holding(p, log, r) && !p.kind.RefundRun? && o.fundingTxid.Some?
      requires HoldsOutbox(log, Claim, o) && Call.ObserveSpend(Claim, o, Some(claim)) in log
      requires SettledHold(log, r) && SawPayment(log, r)
      requires Ahead(k, AfterReplayTrack(o)) && !k.started && k.spend == Some(claim)
      modifies `log, `point
      ensures Sound() && Extends(old(log), log)
      ensures res.Ok? ==> res.value.Some? && res.value.value.Completed? && CompletedReady(p, log, r, res.value.value)
      ensures res.Err? ==> Refused(p, log)
      ensures res.Err? ==> point == Stopped
      ensures res.Ok? ==> Reporting(res.value.value)
    {
      hide Sound, Step, Asks, Advance, Because, Refused, MatchesRequest, Reporting, CompletedReady;
      assert SawSpend(log, Claim, o);
      AdvanceTo(p, k, ReportReplay(o), End);
      var _ :- ClosePhases(r, o, k, Do(ReportReplay(o), End));
      SettledHoldGrows(old(log), log, r);
      ghost var outcome := Completed(RunDirection(p.kind), o.fundingTxid.value, claim.txid);
      Reports(k, ReportReplay(o), outcome);
      CompletionIsReady(p, log, r, o, claim);
      return Ok(Some(Completed(RunDirection(p.kind), o.fundingTxid.value, claim.txid)));
    }

    method ReplayClaim(r: Record, o: Outbox, ghost k: Known) returns (res: Result<Option<Outcome>, SwapError>)
      requires Sound() && Holding(p, log, r) && !p.kind.RefundRun?
      requires Call.ReadOutbox(Claim, Got(o)) in log && o.kind == Claim && o.fundingTxid.Some?
      requires point == Doing(k, ReplayPlan(o)) && k.r == r && !k.started
      modifies `log, `point
      ensures Sound() && Extends(old(log), log)
      ensures res.Ok? ==> res.value.Some? && res.value.value.Completed? && CompletedReady(p, log, r, res.value.value)
      ensures res.Err? ==> Refused(p, log)
      ensures res.Err? ==> point == Stopped
      ensures res.Ok? ==> Reporting(res.value.value)
    {
      hide Sound, Step, Asks, Advance, Because, Refused, MatchesRequest, Reporting, CompletedReady;
      AdvanceTo(p, k, Send(Claim, o), Do(SeeSpend(Claim, o, false), AfterReplaySend(o)));
      var claim :- SendSpend(r, Claim, o, k, AfterReplaySend(o));
      ghost var k1 := k.(spend := Some(claim));
      assert HoldsOutbox(log, Claim, o) && SawSpend(log, Claim, o);
      res := SettleReplay(r, o, claim, k1);
    }

    // The two swap directions.

    /** The height must leave room for the refund. */
    method CheckRefundHeight(r: Record, height: U64, ghost k: Known, ghost rest: Tasks)
      returns (res: Result<(), SwapError>)
      requires Holding(p, log, r) && p.kind.ForwardRun? && Height(Some(height)) in log
      requires point == TimeForward(p, k, height, rest) && k.r == r
      ensures res.Ok? ==> ForwardTimed(p, log, r)
      ensures res.Err? ==> Refused(p, log)
      ensures point == if res.Ok? then Advance(p, k, rest) else Fail(k)
    {
      hide Advance, Because, Refused, MatchesRequest, Fail;
      if height > r.refundLockHeight {
        assert HoldsRecord(log, r) && HeightUnfit(p, r, height);
        Reasons(p, log, TooEarlyOrLate(r, height));
        return Err(TimingRejected);
      }
      var timing := Timing.ValidateForwardTiming(
        p.terms.lightningCltvLimit, r.refundLockHeight - height, p.terms.claimMargin);
      if timing.Err? {
        assert HoldsRecord(log, r) && HeightUnfit(p, r, height);
        Reasons(p, log, TooEarlyOrLate(r, height));
      }
      return if timing.Ok? then Ok(()) else Err(TimingRejected);
    }

    /** The refund-height check, skipped when a settled invoice meets a stored funding transaction. */
    method CheckForwardTiming(r: Record, invoice: Invoice, ghost k: Known, ghost rest: Tasks)
      returns (res: Result<(), SwapError>)
      requires Sound() && Holding(p, log, r) && p.kind.ForwardRun?
      requires invoice.state.Settled? ==> StartedSettled(log, r)
      requires Ahead(k, Do(ForwardHeight, rest)) && k.r == r && k.invoice == Some(invoice)
      modifies `log, `point
      ensures Sound() && Extends(old(log), log)
      ensures res.Ok? ==> ForwardTimed(p, log, r) || (StartedSettled(log, r) && invoice.state.Settled?)
      ensures res.Err? ==> Refused(p, log)
      ensures point == if res.Ok? then Advance(p, k, rest) else Fail(k)
      ensures res.Ok? ==> ForwardTimed(p, log, r) || exists o :: Call.ReadOutbox(Funding, Got(o)) in log
    {
      hide Sound, Step, Asks, Advance, Because, Refused, MatchesRequest, Fail, TimeForward, ForwardTimed;
      AdvanceTo(p, k, ForwardHeight, rest);
      HeightSteps(p, k, ForwardHeight, rest);
      var height := CurrentHeight();
      if height.None? {
        LastRefuses(p, log);
        return Err(Chain);
      }
      assert Height(Some(height.value)) in log;
      if invoice.state.Settled? {
        FindSteps(p, k, SettledFunding(height.value), Funding, rest);
        var content := ReadOutbox(Funding);
        if content.Corrupt? {
          LastRefuses(p, log);
          return Err(Durability);
        }
        if content.Got? {
          return Ok(());
        }
      }
      res := CheckRefundHeight(r, height.value, k, rest);
    }

    method RunForwardAfterInvoice(r: Record, invoice: Invoice, ghost k: Known) returns (res: Result<Outcome, SwapError>)
      requires Sound() && Holding(p, log, r) && p.kind.ForwardRun?
      requires invoice.state.Open? ==> invoice.hasRequest && StartedOpen(log, r)
      requires invoice.state.Settled? ==> StartedSettled(log, r)
      requires Call.ReadOutbox(Claim, Missing) in log
      requires Ahead(k, ForwardPlan()) && k.invoice == Some(invoice)
      requires k.r == r && k.started && k.exposed == fundingExposed
      modifies this
      ensures Sound() && Extends(old(log), log)
      ensures old(fundingExposed) ==> fundingExposed
      ensures res.Ok? ==> res.value.Completed? && CompletedReady(p, log, r, res.value)
      ensures res.Err? ==> Refused(p, log)
      ensures res.Ok? ==> Reporting(res.value)
      ensures res.Err? ==> point == Fail(k.(exposed := fundingExposed))
    {
      hide Sound, Step, Asks, Advance, Because, Refused, MatchesRequest, Reporting, CompletedReady, FundingSeenIn;
      var _ :- CheckForwardTiming(r, invoice, k, Do(FindFunding, AfterForwardFunding()));
      ghost var timed := log;
      var funding :- PrepareOrReplayFunding(r, k, AfterForwardFunding());
      ghost var k' := k.(exposed := true, funding := Some(funding));
      ghost var funded := log;
      if ForwardTimed(p, timed, r) {
        ForwardTimedGrows(p, timed, log, r);
      }
      assert invoice.state.Open? ==> ForwardTimed(p, log, r);
      var _ :- PayForward(r, invoice, funding, k', AfterForwardPay());
      FundingSeenGrows(funded, log, funding);
      res := SettleForward(r, funding, k');
    }

    method SettleForward(r: Record, funding: FundingEvidence, ghost k: Known) returns (res: Result<Outcome, SwapError>)
      requires Sound() && Holding(p, log, r) && p.kind.ForwardRun? && FundingSeen(funding)
      requires Call.ReadOutbox(Claim, Missing) in log
      requires Ahead(k, AfterForwardPay()) && k.funding == Some(funding)
      requires k.r == r && k.started && k.exposed == fundingExposed
      modifies this
      ensures Sound() && Extends(old(log), log)
      ensures old(fundingExposed) ==> fundingExposed
      ensures res.Ok? ==> res.value.Completed? && CompletedReady(p, log, r, res.value)
      ensures res.Err? ==> Refused(p, log)
      ensures res.Ok? ==> Reporting(res.value)
      ensures res.Err? ==> point == Fail(k.(exposed := fundingExposed))
    {
      hide Sound, Step, Asks, Advance, Because, Refused, MatchesRequest, Reporting, CompletedReady, FundingSeenIn;
      AdvanceTo(p, k, SeeHold, Do(Task.SettleInvoice, Do(Task.TrackSuccess, AfterForwardTrack())));
      var held :- AcceptedHold(r, k, Do(Task.SettleInvoice, Do(Task.TrackSuccess, AfterForwardTrack())));
      ghost var k' := k.(held := Some(held.0), tip := held.1);
      FundingSeenGrows(old(log), log, funding);
      var _ :- SettleAndTrack(r, held.0, k', AfterForwardTrack());
      FundingSeenGrows(old(log), log, funding);
      res := ClaimForward(r, funding, k');
    }

    lemma FundingSeenGrows(before: Log, after: Log, e: FundingEvidence)
      requires Extends(before, after) && FundingSeenIn(before, e)
      ensures FundingSeenIn(after, e)
    {
      var f :| HoldsOutbox(before, Funding, f) && Call.ObserveFunding(f.txid, HtlcVout(f), Some(e)) in before
        && e.txid == f.txid && e.vout == HtlcVout(f);
      assert HoldsOutbox(after, Funding, f);
    }

    method PayForward(r: Record, invoice: Invoice, ghost funding: FundingEvidence, ghost k: Known, ghost rest: Tasks)
      returns (res: Result<(), SwapError>)
      requires Sound() && Holding(p, log, r) && p.kind.ForwardRun? && FundingSeen(funding)
      requires invoice.state.Open? ==> invoice.hasRequest && StartedOpen(log, r) && ForwardTimed(p, log, r)
      requires Ahead(k, Do(Phase(OutputPendingPhase), Do(PayInvoice, rest))) && k.r == r && k.invoice == Some(invoice)
      modifies `log, `point
      ensures Sound() && Extends(old(log), log)
      ensures res.Err? ==> Refused(p, log)
      ensures point == if res.Ok? then Advance(p, k, rest) else Fail(k)
    {
      hide Sound, Step, Asks, Advance, Because, Refused, MatchesRequest;
      var _ :- OnPhase(r, OutputPendingPhase, k, Do(PayInvoice, rest));
      FundingSeenGrows(old(log), log, funding);
      if invoice.state.Open? {
        ForwardTimedGrows(p, old(log), log, r);
      }
      res := PayIfOpen(r, invoice, k, rest);
    }

    method CloseForward(r: Record, funding: FundingEvidence, claim: SpendEvidence, ghost k: Known)
      returns (res: Result<Outcome, SwapError>)
      requires Sound() && Holding(p, log, r) && p.kind.ForwardRun? && ClaimSeen(claim) && FundingSeen(funding)
      requires claim.fundingTxid == funding.txid && SettledHold(log, r) && SawPayment(log, r)
      requires p.core ==> Consume(true, true) in log
      requires Ahead(k, Do(Phase(SettledPhase), Do(Report, End))) && k.funding == Some(funding)
        && k.spend == Some(claim)
      modifies `log, `point
      ensures Sound() && Extends(old(log), log)
      ensures res.Ok? ==> res.value.Completed? && CompletedReady(p, log, r, res.value)
      ensures res.Err? ==> Refused(p, log)
      ensures res.Ok? ==> Reporting(res.value)
      ensures res.Err? ==> point == Fail(k)
    {
      hide Sound, Step, Asks, Advance, Because, Refused, MatchesRequest, Reporting, CompletedReady;
      ClaimSeenSettles(log, claim);
      var _ :- OnPhase(r, SettledPhase, k, Do(Report, End));
      SettledHoldGrows(old(log), log, r);
      ClaimSeenGrows(old(log), log, claim);
      FundingSeenGrows(old(log), log, funding);
      res := BuildEvidence(funding, claim, k);
      ClaimSeenCompletes(p, log, r, funding, claim);
    }

    method ClaimForward(r: Record, funding: FundingEvidence, ghost k: Known) returns (res: Result<Outcome, SwapError>)
      requires Sound() && Holding(p, log, r) && p.kind.ForwardRun? && FundingSeen(funding)
      requires SettledHold(log, r) && SawPayment(log, r) && Call.ReadOutbox(Claim, Missing) in log
      requires Ahead(k, AfterForwardTrack()) && k.funding == Some(funding)
      requires k.r == r && k.started && k.exposed == fundingExposed
      modifies this
      ensures Sound() && Extends(old(log), log)
      ensures old(fundingExposed) ==> fundingExposed
      ensures res.Ok? ==> res.value.Completed? && CompletedReady(p, log, r, res.value)
      ensures res.Err? ==> Refused(p, log)
      ensures res.Ok? ==> Reporting(res.value)
      ensures res.Err? ==> point == Fail(k.(exposed := fundingExposed))
    {
      hide Sound, Step, Asks, Advance, Because, Refused, MatchesRequest, Reporting, CompletedReady;
      var _ :- OnPhase(r, OutputSettledPhase, k, Do(FindFreshClaim, Do(Phase(SettledPhase), Do(Report, End))));
      FundingSeenGrows(old(log), log, funding);
      var claim :- ClaimOrReplay(r, funding, k, Do(Phase(SettledPhase), Do(Report, End)));
      ghost var k' := k.(exposed := true, spend := Some(claim));
      FundingSeenGrows(old(log), log, funding);
      SettledHoldGrows(old(log), log, r);
      res := CloseForward(r, funding, claim, k.(exposed := true, spend := Some(claim)));
    }

    method RunReverseAfterInvoice(r: Record, invoice: Invoice, ghost k: Known) returns (res: Result<Outcome, SwapError>)
      requires Sound() && Holding(p, log, r) && p.kind.ReverseRun?
      requires invoice.state.Open? ==> invoice.hasRequest && StartedOpen(log, r)
      requires Call.ReadOutbox(Claim, Missing) in log
      requires Ahead(k, ReversePlan()) && k.invoice == Some(invoice)
      requires k.r == r && k.started && k.exposed == fundingExposed
      modifies this
      ensures Sound() && Extends(old(log), log)
      ensures old(fundingExposed) ==> fundingExposed
      ensures res.Ok? ==> res.value.Completed? && CompletedReady(p, log, r, res.value)
      ensures res.Err? ==> Refused(p, log)
      ensures res.Ok? ==> Reporting(res.value)
      ensures res.Err? ==> point == Fail(k.(exposed := fundingExposed))
    {
      hide Sound, Step, Asks, Advance, Because, Refused, MatchesRequest, Reporting, CompletedReady;
      var _ :- OnPhase(r, OutputPendingPhase, k, Do(PayInvoice, Do(SeeHold, AfterReverseHold())));
      var _ :- PayIfOpen(r, invoice, k, Do(SeeHold, AfterReverseHold()));
      res := FundReverse(r, k);
    }

    method TimeReverse(r: Record, held: Invoice, tip: U64, ghost k: Known) returns (res: Result<Outcome, SwapError>)
      requires Sound() && Holding(p, log, r) && p.kind.ReverseRun? && Call.ReadOutbox(Claim, Missing) in log
      requires Call.ObserveAccepted(r.hash, Some(held)) in log && IsHeld(p, held) && Tip(Some(tip)) in log
      requires Ahead(k, AfterReverseHold()) && k.held == Some(held) && k.tip == tip
      requires k.r == r && k.started && k.exposed == fundingExposed
      modifies this
      ensures Sound() && Extends(old(log), log)
      ensures old(fundingExposed) ==> fundingExposed
      ensures res.Ok? ==> res.value.Completed? && CompletedReady(p, log, r, res.value)
      ensures res.Err? ==> Refused(p, log)
      ensures res.Ok? ==> Reporting(res.value)
      ensures res.Err? ==> point == Fail(k.(exposed := fundingExposed))
    {
      hide Sound, Step, Asks, Advance, Because, Refused, MatchesRequest, Reporting, CompletedReady, FundingSeenIn;
      var _ :- CheckReverseTiming(r, held, tip, k, Do(FindFunding, Do(FindFreshClaim, AfterReverseClaim())));
      ghost var timed := log;
      var funding :- PrepareOrReplayFunding(r, k, Do(FindFreshClaim, AfterReverseClaim()));
      ReverseTimedGrows(p, timed, log, r);
      res := ClaimReverse(r, held, funding, k.(exposed := true, funding := Some(funding)));
    }

    method FundReverse(r: Record, ghost k: Known) returns (res: Result<Outcome, SwapError>)
      requires Sound() && Holding(p, log, r) && p.kind.ReverseRun? && Call.ReadOutbox(Claim, Missing) in log
      requires Ahead(k, Do(SeeHold, AfterReverseHold()))
      requires k.r == r && k.started && k.exposed == fundingExposed
      modifies this
      ensures Sound() && Extends(old(log), log)
      ensures old(fundingExposed) ==> fundingExposed
      ensures res.Ok? ==> res.value.Completed? && CompletedReady(p, log, r, res.value)
      ensures res.Err? ==> Refused(p, log)
      ensures res.Ok? ==> Reporting(res.value)
      ensures res.Err? ==> point == Fail(k.(exposed := fundingExposed))
    {
      hide Sound, Step, Asks, Advance, Because, Refused, MatchesRequest, Reporting, CompletedReady;
      AdvanceTo(p, k, SeeHold, AfterReverseHold());
      var held :- AcceptedHold(r, k, AfterReverseHold());
      res := TimeReverse(r, held.0, held.1, k.(held := Some(held.0), tip := held.1));
    }

    method CheckReverseTiming(r: Record, invoice: Invoice, tip: U64, ghost k: Known, ghost rest: Tasks)
      returns (res: Result<(), SwapError>)
      requires Sound() && Holding(p, log, r) && p.kind.ReverseRun?
      requires Call.ObserveAccepted(r.hash, Some(invoice)) in log && IsHeld(p, invoice) && Tip(Some(tip)) in log
      requires Ahead(k, Do(ReverseHeight, rest)) && k.r == r && k.held == Some(invoice) && k.tip == tip
      modifies `log, `point
      ensures Sound() && Extends(old(log), log)
      ensures res.Ok? ==> SawHold(p, log, r) && ReverseTimed(p, log, r)
      ensures res.Err? ==> Refused(p, log)
      ensures point == if res.Ok? then Advance(p, k, rest) else Fail(k)
      ensures log[|log| - 1].Height?
      ensures var height := log[|log| - 1].height;
        res.Ok? <==> height.Some? && ReverseTimingOk(p, r, invoice, tip, height.value)
    {
      hide Sound, Step, Asks, Advance, Because, Refused, Fail;
      AdvanceTo(p, k, ReverseHeight, rest);
      HeightSteps(p, k, ReverseHeight, rest);
      var height := CurrentHeight();
      if height.None? {
        LastRefuses(p, log);
        return Err(Chain);
      }
      assert Height(Some(height.value)) in log;
      if !ReverseTimingOk(p, r, invoice, tip, height.value) {
        Reasons(p, log, ReverseTooTight(r, invoice, tip, height.value));
      }
      if height.value > r.refundLockHeight || invoice.acceptedExpiry.None? {
        return Err(TimingRejected);
      }
      var timing := Timing.ValidateReverseTiming(
        tip, invoice.acceptedExpiry.value, r.refundLockHeight - height.value, p.terms.claimMargin);
      if timing.Err? {
        return Err(TimingRejected);
      }
      assert ReverseTimingOk(p, r, invoice, tip, height.value);
      return Ok(());
    }

    method ClaimReverse(r: Record, invoice: Invoice, funding: FundingEvidence, ghost k: Known)
      returns (res: Result<Outcome, SwapError>)
      requires Sound() && Holding(p, log, r) && p.kind.ReverseRun? && FundingSeen(funding)
      requires SawHold(p, log, r) && ReverseTimed(p, log, r) && Call.ReadOutbox(Claim, Missing) in log
      requires Call.ObserveAccepted(r.hash, Some(invoice)) in log
      requires Ahead(k, Do(FindFreshClaim, AfterReverseClaim())) && k.held == Some(invoice)
        && k.funding == Some(funding)
      requires k.r == r && k.started && k.exposed == fundingExposed
      modifies this
      ensures Sound() && Extends(old(log), log)
      ensures old(fundingExposed) ==> fundingExposed
      ensures res.Ok? ==> res.value.Completed? && CompletedReady(p, log, r, res.value)
      ensures res.Err? ==> Refused(p, log)
      ensures res.Ok? ==> Reporting(res.value)
      ensures res.Err? ==> point == Fail(k.(exposed := fundingExposed))
    {
      hide Sound, Step, Asks, Advance, Because, Refused, MatchesRequest, Reporting, CompletedReady;
      var claim :- ClaimOrReplay(r, funding, k, AfterReverseClaim());
      ghost var claimed := log;
      ClaimSeenSettles(claimed, claim);
      FundingSeenGrows(old(log), log, funding);
      res := SettleReverse(r, invoice, funding, claim, k.(exposed := true, spend := Some(claim)));
    }

    method SettleReverse(r: Record, invoice: Invoice, funding: FundingEvidence, claim: SpendEvidence, ghost k: Known)
      returns (res: Result<Outcome, SwapError>)
      requires Sound() && Holding(p, log, r) && p.kind.ReverseRun? && ClaimSeen(claim) && FundingSeen(funding)
      requires claim.fundingTxid == funding.txid && SettleReady(p, log, r)
      requires Call.ObserveAccepted(r.hash, Some(invoice)) in log
      requires Ahead(k, AfterReverseClaim()) && k.held == Some(invoice)
      requires k.funding == Some(funding) && k.spend == Some(claim) && k.r == r
      modifies `log, `point
      ensures Sound() && Extends(old(log), log)
      ensures res.Ok? ==> res.value.Completed? && CompletedReady(p, log, r, res.value)
      ensures res.Err? ==> Refused(p, log)
      ensures res.Ok? ==> Reporting(res.value)
      ensures res.Err? ==> point == Fail(k)
    {
      hide Sound, Step, Asks, Advance, Because, Refused, MatchesRequest, Reporting, CompletedReady;
      var _ :- SettleAndTrack(r, invoice, k, AfterReverseTrack());
      ClaimSeenGrows(old(log), log, claim);
      FundingSeenGrows(old(log), log, funding);
      res := CloseReverse(r, funding, claim, k);
    }

    method CloseReverse(r: Record, funding: FundingEvidence, claim: SpendEvidence, ghost k: Known)
      returns (res: Result<Outcome, SwapError>)
      requires Sound() && Holding(p, log, r) && p.kind.ReverseRun? && ClaimSeen(claim) && FundingSeen(funding)
      requires claim.fundingTxid == funding.txid && SettledHold(log, r) && SawPayment(log, r)
      requires Ahead(k, AfterReverseTrack()) && k.funding == Some(funding) && k.spend == Some(claim)
      modifies `log, `point
      ensures Sound() && Extends(old(log), log)
      ensures res.Ok? ==> res.value.Completed? && CompletedReady(p, log, r, res.value)
      ensures res.Err? ==> Refused(p, log)
      ensures res.Ok? ==> Reporting(res.value)
      ensures res.Err? ==> point == Fail(k)
    {
      hide Sound, Step, Asks, Advance, Because, Refused, MatchesRequest, Reporting, CompletedReady;
      var o :| HoldsOutbox(log, Claim, o) && Call.ObserveSpend(Claim, o, Some(claim)) in log;
      var _ :- ClosePhases(r, o, k, Do(Report, End));
      SettledHoldGrows(old(log), log, r);
      ClaimSeenGrows(old(log), log, claim);
      FundingSeenGrows(old(log), log, funding);
      res := BuildEvidence(funding, claim, k);
      ClaimSeenCompletes(p, log, r, funding, claim);
    }

    /** All that is left is the task that reports. */
    lemma Reports(k: Known, t: Task, outcome: Outcome)
      requires point == Doing(k, Do(t, End)) && TaskCall(p, k, t) == Return(outcome)
      ensures Reporting(outcome)
    {
      ReportSteps(p, k, t, outcome, End);
    }

    lemma ClaimSeenSettles(seen: Log, e: SpendEvidence)
      requires ClaimSeenIn(seen, e)
      ensures exists o :: HoldsOutbox(seen, Claim, o) && SawSpend(seen, Claim, o)
    {
      var o :| HoldsOutbox(seen, Claim, o) && Call.ObserveSpend(Claim, o, Some(e)) in seen;
      assert SawSpend(seen, Claim, o);
    }

    lemma ClaimSeenGrows(before: Log, after: Log, e: SpendEvidence)
      requires Extends(before, after) && ClaimSeenIn(before, e)
      ensures ClaimSeenIn(after, e)
    {
      var o :| HoldsOutbox(before, Claim, o) && Call.ObserveSpend(Claim, o, Some(e)) in before
        && o.fundingTxid == Some(e.fundingTxid) && e.txid == o.txid;
      assert HoldsOutbox(after, Claim, o);
    }

    /** Only a confirmed funding and a witness-bound claim are reported. */
    method BuildEvidence(funding: FundingEvidence, claim: SpendEvidence, ghost k: Known)
      returns (res: Result<Outcome, SwapError>)
      requires FundingSeen(funding) && ClaimSeen(claim)
      requires Ahead(k, Do(Report, End)) && k.funding == Some(funding) && k.spend == Some(claim)
      ensures res.Err? ==> Refused(p, log)
      ensures res.Ok? ==> res.value == Completed(RunDirection(p.kind), funding.txid, claim.txid)
      ensures res.Ok? <==> claim.verified && funding.confirmations != 0
      ensures res.Ok? ==> Reporting(res.value)
      ensures res.Err? ==> point == Fail(k)
    {
      hide Sound, Step, Because, Refused, Reporting;
      if !claim.verified || funding.confirmations == 0 {
        ghost var f :| HoldsOutbox(log, Funding, f) && Call.ObserveFunding(f.txid, HtlcVout(f), Some(funding)) in log;
        ghost var o :| HoldsOutbox(log, Claim, o) && Call.ObserveSpend(Claim, o, Some(claim)) in log;
        Refuses(p, log, if claim.verified then Call.ObserveFunding(f.txid, HtlcVout(f), Some(funding))
                        else Call.ObserveSpend(Claim, o, Some(claim)));
        return Err(Chain);
      }
      Reports(k, Report, Completed(RunDirection(p.kind), funding.txid, claim.txid));
      return Ok(Completed(RunDirection(p.kind), funding.txid, claim.txid));
    }

    method ReturnOutcome(ghost r: Record, outcome: Outcome)
      requires Sound() && Holding(p, log, r)
      requires if outcome.Completed? then CompletedReady(p, log, r, outcome) else RefundDoneReady(p, log, r, outcome)
      requires Reporting(outcome)
      modifies `log, `point
      ensures Sound() && log == old(log) + [Return(outcome)]
      ensures point == Finished(outcome)
    {
      hide Sound;
      Append(Return(outcome));
    }

    /** Both directions begin with the record and its invoice. */
    method LoadInvoice() returns (res: Result<(Record, Invoice), SwapError>)
      requires Sound() && !p.kind.RefundRun? && point == StartPoint(p)
      modifies `log, `point
      ensures Sound() && Extends(old(log), log)
      ensures res.Ok? ==> Holding(p, log, res.value.0)
      ensures res.Ok? && res.value.1.state.Open? ==> res.value.1.hasRequest && StartedOpen(log, res.value.0)
      ensures res.Ok? && res.value.1.state.Settled? ==> StartedSettled(log, res.value.0)
      ensures res.Err? ==> Refused(p, log)
      ensures point == if res.Ok? then Doing(NewKnown(res.value.0).(invoice := Some(res.value.1)), Do(FindClaim, End))
                       else Stopped
    {
      hide Sound, Step, Asks, Advance, Because, Refused, MatchesRequest;
      var r :- LoadRecovery();
      AdvanceTo(p, NewKnown(r), FindInvoice, End);
      AdvancePast(p, NewKnown(r), Phase(RecoveryPrepared), Do(FindInvoice, End));
      var _ :- OnPhase(r, RecoveryPrepared, NewKnown(r), Do(FindInvoice, End));
      var invoice :- EnsureInvoice(r);
      var _ :- ValidateOpenInvoice(r, invoice);
      return Ok((r, invoice));
    }

    /** No claim to replay: look for funding, run, and clean up after a failure. */
    method FreshForward(r: Record, invoice: Invoice, ghost k: Known) returns (res: Result<Outcome, SwapError>)
      requires Sound() && Holding(p, log, r) && p.kind.ForwardRun? && !fundingExposed
      requires Call.ReadOutbox(Claim, Missing) in log
      requires invoice.state.Open? ==> invoice.hasRequest && StartedOpen(log, r)
      requires invoice.state.Settled? ==> StartedSettled(log, r)
      requires point == Doing(k, Do(FindExposure, End)) && k.r == r && k.invoice == Some(invoice) && !k.started
      modifies this
      ensures Sound()
      ensures res.Ok? ==> log != [] && log[|log| - 1] == Return(res.value)
      ensures res.Err? ==> Refused(p, log)
      ensures point == if res.Ok? then Finished(res.value) else Stopped
    {
      hide Sound, Step, Asks, Advance, Because, Refused, MatchesRequest, Reporting, CompletedReady;
      FindSteps(p, k, FindExposure, Funding, End);
      var content := ReadOutbox(Funding);
      if content.Corrupt? {
        LastRefuses(p, log);
        return Err(Durability);
      }
      MarkExposed(content.Got?);
      assert !fundingExposed ==> Call.ReadOutbox(Funding, Missing) in log;
      res := RunForwardAfterInvoice(r, invoice, k.(started := true, exposed := content.Got?));
      if res.Err? && !fundingExposed {
        ghost var failed := log;
        CancelIfAccepted(r);
        RefusedStays(p, failed, log);
      }
      if res.Ok? {
        ReturnOutcome(r, res.value);
      }
    }

    method ForwardSwap() returns (res: Result<Outcome, SwapError>)
      requires Sound() && log == [] && !fundingExposed && p.kind.ForwardRun?
      modifies this
      ensures Sound()
      ensures res.Ok? ==> log != [] && log[|log| - 1] == Return(res.value)
      ensures res.Err? ==> Refused(p, log)
      ensures point == if res.Ok? then Finished(res.value) else Stopped
    {
      hide Sound, Step, Asks, Advance, Because, Refused, MatchesRequest, Reporting, CompletedReady;
      AtStart();
      var loaded :- LoadInvoice();
      var (r, invoice) := loaded;
      ghost var k := NewKnown(r).(invoice := Some(invoice));
      var replayed :- ReplayCompleted(r, k);
      if replayed.Some? {
        ReturnOutcome(r, replayed.value);
        return Ok(replayed.value);
      }
      res := FreshForward(r, invoice, k);
    }

    /** The user funds the chain HTLC and receives Lightning. */
    method RunForwardSwap() returns (res: Result<Outcome, SwapError>)
      requires Sound() && log == [] && !fundingExposed && p.kind.ForwardRun?
      modifies this
      ensures Sound()
      ensures res.Ok? ==> log != [] && log[|log| - 1] == Return(res.value)
      ensures res.Err? ==> Refused(p, log)
      ensures point == if res.Ok? then Finished(res.value) else Stopped
      ensures Follows(p, log) && Where(p, log) == if res.Ok? then Finished(res.value) else Stopped
      ensures res.Err? <==> HasFatal(p, log)
    {
      hide Sound, HasFatal;
      res := ForwardSwap();
      LogFollowsPlan();
    }

    /** No claim to replay: look for funding, run, and clean up after a failure. */
    method FreshReverse(r: Record, invoice: Invoice, ghost k: Known) returns (res: Result<Outcome, SwapError>)
      requires Sound() && Holding(p, log, r) && p.kind.ReverseRun? && !fundingExposed
      requires Call.ReadOutbox(Claim, Missing) in log
      requires invoice.state.Open? ==> invoice.hasRequest && StartedOpen(log, r)
      requires invoice.state.Settled? ==> StartedSettled(log, r)
      requires point == Doing(k, Do(FindExposure, End)) && k.r == r && k.invoice == Some(invoice) && !k.started
      modifies this
      ensures Sound()
      ensures res.Ok? ==> log != [] && log[|log| - 1] == Return(res.value)
      ensures res.Err? ==> Refused(p, log)
      ensures point == if res.Ok? then Finished(res.value) else Stopped
    {
      hide Sound, Step, Asks, Advance, Because, Refused, MatchesRequest, Reporting, CompletedReady;
      FindSteps(p, k, FindExposure, Funding, End);
      var content := ReadOutbox(Funding);
      if content.Corrupt? {
        LastRefuses(p, log);
        return Err(Durability);
      }
      MarkExposed(content.Got?);
      assert !fundingExposed ==> Call.ReadOutbox(Funding, Missing) in log;
      res := RunReverseAfterInvoice(r, invoice, k.(started := true, exposed := content.Got?));
      if res.Err? && !fundingExposed {
        ghost var failed := log;
        CancelIfAccepted(r);
        RefusedStays(p, failed, log);
      }
      if res.Ok? {
        ReturnOutcome(r, res.value);
      }
    }

    method ReverseSwap() returns (res: Result<Outcome, SwapError>)
      requires Sound() && log == [] && !fundingExposed && p.kind.ReverseRun?
      modifies this
      ensures Sound()
      ensures res.Ok? ==> log != [] && log[|log| - 1] == Return(res.value)
      ensures res.Err? ==> Refused(p, log)
      ensures point == if res.Ok? then Finished(res.value) else Stopped
    {
      hide Sound, Step, Asks, Advance, Because, Refused, MatchesRequest, Reporting, CompletedReady;
      AtStart();
      var loaded :- LoadInvoice();
      var (r, invoice) := loaded;
      ghost var k := NewKnown(r).(invoice := Some(invoice));
      var replayed :- ReplayCompleted(r, k);
      if replayed.Some? {
        ReturnOutcome(r, replayed.value);
        return Ok(replayed.value);
      }
      res := FreshReverse(r, invoice, k);
    }

    /** The user pays Lightning and receives the chain asset. */
    method RunReverseSwap() returns (res: Result<Outcome, SwapError>)
      requires Sound() && log == [] && !fundingExposed && p.kind.ReverseRun?
      modifies this
      ensures Sound()
      ensures res.Ok? ==> log != [] && log[|log| - 1] == Return(res.value)
      ensures res.Err? ==> Refused(p, log)
      ensures point == if res.Ok? then Finished(res.value) else Stopped
      ensures Follows(p, log) && Where(p, log) == if res.Ok? then Finished(res.value) else Stopped
      ensures res.Err? <==> HasFatal(p, log)
    {
      hide Sound, HasFatal;
      res := ReverseSwap();
      LogFollowsPlan();
    }

    method RefundLoaded(r: Record) returns (res: Result<Outcome, SwapError>)
      requires Sound() && Holding(p, log, r) && p.kind.RefundRun? && point == Doing(NewKnown(r), RefundPlan())
      modifies `log, `point
      ensures Sound()
      ensures res.Ok? ==> log != [] && log[|log| - 1] == Return(res.value)
      ensures res.Err? ==> Refused(p, log)
      ensures point == if res.Ok? then Finished(res.value) else Stopped
    {
      hide Sound, Step, Asks, Advance, Because, Refused, MatchesRequest, Reporting, CompletedReady, RefundDoneReady;
      ghost var k := NewKnown(r);
      var _ :- RequireFailedPayment(r, k, AfterFailure());
      ghost var failed := log;
      var funding :- RequireUnclaimedFunding(r, k, Do(FindRefund, Do(ReportRefund, End)));
      ghost var k' := k.(fundingBox := Some(funding));
      RefundFactsGrow(failed, log, r);
      var o :- RefundOutbox(r, funding, k', Do(ReportRefund, End));
      res := SendRefund(r, o, k');
      if res.Ok? {
        ReturnOutcome(r, res.value);
      }
    }

    method RefundSwap() returns (res: Result<Outcome, SwapError>)
      requires Sound() && log == [] && !fundingExposed && p.kind.RefundRun?
      modifies `log, `point
      ensures Sound()
      ensures res.Ok? ==> log != [] && log[|log| - 1] == Return(res.value)
      ensures res.Err? ==> Refused(p, log)
      ensures point == if res.Ok? then Finished(res.value) else Stopped
    {
      hide Sound, Step, Asks, Advance, Because, Refused, MatchesRequest, Reporting, CompletedReady, RefundDoneReady;
      LoadingSteps(p);
      AtStart();
      var found := ReadRecovery();
      if !found.Got? {
        LastRefuses(p, log);
        return Err(Durability);
      }
      var r := found.value;
      if r.amountSats != p.terms.amountSats {
        LastRefuses(p, log);
        return Err(RecoveryMismatch);
      }
      res := RefundLoaded(r);
    }

    /** Refunds a funded HTLC after its lock height, once the payment failed and the hold was
        canceled (`refund_funded_swap_with_observer`). */
    method RefundFundedSwap() returns (res: Result<Outcome, SwapError>)
      requires Sound() && log == [] && !fundingExposed && p.kind.RefundRun?
      modifies `log, `point
      ensures Sound()
      ensures res.Ok? ==> log != [] && log[|log| - 1] == Return(res.value)
      ensures res.Err? ==> Refused(p, log)
      ensures point == if res.Ok? then Finished(res.value) else Stopped
      ensures Follows(p, log) && Where(p, log) == if res.Ok? then Finished(res.value) else Stopped
      ensures res.Err? <==> HasFatal(p, log)
    {
      hide Sound, HasFatal;
      res := RefundSwap();
      LogFollowsPlan();
    }

    method CloseRefund(r: Record, o: Outbox, refund: SpendEvidence, ghost k: Known)
      returns (res: Result<Outcome, SwapError>)
      requires Sound() && Holding(p, log, r) && p.kind.RefundRun?
      requires HoldsOutbox(log, Refund, o) && Call.ObserveSpend(Refund, o, Some(refund)) in log
      requires Ahead(k, Do(Phase(RefundedPhase), Do(ReportRefund, End))) && !k.started && k.spend == Some(refund)
      modifies `log, `point
      ensures Sound() && Extends(old(log), log)
      ensures res.Ok? ==> res.value.RefundDone? && RefundDoneReady(p, log, r, res.value)
      ensures res.Err? ==> Refused(p, log)
      ensures res.Ok? ==> Reporting(res.value)
      ensures res.Err? ==> point == Stopped
    {
      hide Sound, Step, Asks, Advance, Because, Refused, MatchesRequest, Reporting, CompletedReady, RefundDoneReady;
      assert SawSpend(log, Refund, o);
      AdvanceTo(p, k, ReportRefund, End);
      var _ :- OnPhase(r, RefundedPhase, k, Do(ReportRefund, End));
      Reports(k, ReportRefund, RefundDone(refund.fundingTxid, refund.txid));
      RefundIsReady(p, log, r, o, refund);
      return Ok(RefundDone(refund.fundingTxid, refund.txid));
    }

    method SendRefund(r: Record, o: Outbox, ghost k: Known) returns (res: Result<Outcome, SwapError>)
      requires Sound() && Holding(p, log, r) && p.kind.RefundRun?
      requires HoldsOutbox(log, Refund, o) && o.kind == Refund
      requires Ahead(k, SendRefundPlan(o, Do(ReportRefund, End))) && !k.started
      modifies `log, `point
      ensures Sound() && Extends(old(log), log)
      ensures res.Ok? ==> res.value.RefundDone? && RefundDoneReady(p, log, r, res.value)
      ensures res.Err? ==> Refused(p, log)
      ensures res.Ok? ==> Reporting(res.value)
      ensures res.Err? ==> point == Stopped
    {
      hide Sound, Advance, Because, Refused;
      var _ :- OnPhase(r, RefundingPhase, k,
        Do(Send(Refund, o), Do(SeeSpend(Refund, o, false), Do(Phase(RefundedPhase), Do(ReportRefund, End)))));
      var refund :- SendSpend(r, Refund, o, k, Do(Phase(RefundedPhase), Do(ReportRefund, End)));
      res := CloseRefund(r, o, refund, k.(spend := Some(refund)));
    }

    lemma RefundFactsGrow(before: Log, after: Log, r: Record)
      requires Extends(before, after) && SawFailedPayment(before, r) && SawCanceled(p, before, r)
      ensures SawFailedPayment(after, r) && SawCanceled(p, after, r)
    {
    }

    method RequireFailedPayment(r: Record, ghost k: Known, ghost rest: Tasks) returns (res: Result<(), SwapError>)
      requires Sound() && Holding(p, log, r) && p.kind.RefundRun?
      requires point == Doing(k, Do(TrackFailure, Do(LookupCanceled, rest))) && k.r == r
      modifies `log, `point
      ensures Sound() && Extends(old(log), log)
      ensures res.Ok? ==> SawFailedPayment(log, r) && SawCanceled(p, log, r)
      ensures res.Err? ==> Refused(p, log)
      ensures point == if res.Ok? then Advance(p, k, rest) else Fail(k)
    {
      hide Sound, Step, Asks, Advance, Because, Refused, Fail;
      TrackSteps(p, k, TrackFailure, Do(LookupCanceled, rest));
      LookupSteps(p, k, LookupCanceled, rest);
      AdvanceTo(p, k, LookupCanceled, rest);
      var payment := TrackByHash(r, r.hash);
      if payment.None? {
        LastRefuses(p, log);
        return Err(Lightning);
      }
      if payment.value.state != PaymentState.Failed {
        LastRefuses(p, log);
        return Err(Unknown);
      }
      assert Track(r.hash, Some(Payment(PaymentState.Failed, payment.value.preimage))) in log;
      var answer := LookupInvoice(r, r.hash);
      if !answer.Found? {
        LastRefuses(p, log);
        return Err(Lightning);
      }
      var invoice := answer.invoice;
      if !invoice.state.Canceled? || invoice.amountSats != p.terms.amountSats
         || invoice.acceptedSats != Some(p.terms.amountSats) {
        LastRefuses(p, log);
        return Err(Unknown);
      }
      return Ok(());
    }

    method RequirePassedLock(r: Record, ghost k: Known, ghost rest: Tasks) returns (res: Result<(), SwapError>)
      requires Sound() && Holding(p, log, r) && p.kind.RefundRun?
      requires Ahead(k, Do(PastLockHeight, rest)) && k.r == r
      modifies `log, `point
      ensures Sound() && Extends(old(log), log)
      ensures res.Ok? ==> PastLock(log, r)
      ensures res.Err? ==> Refused(p, log)
      ensures point == if res.Ok? then Advance(p, k, rest) else Fail(k)
    {
      hide Sound, Step, Asks, Advance, Because, Refused, Fail;
      HeightSteps(p, k, PastLockHeight, rest);
      AdvanceTo(p, k, PastLockHeight, rest);
      var height := CurrentHeight();
      if height.None? {
        LastRefuses(p, log);
        return Err(Chain);
      }
      assert Height(Some(height.value)) in log;
      if height.value < r.refundLockHeight {
        assert HeightUnfit(p, r, height.value) && HoldsRecord(log, r);
        Reasons(p, log, TooEarlyOrLate(r, height.value));
        return Err(Chain);
      }
      return Ok(());
    }

    method RequireNoClaim(r: Record, ghost k: Known, ghost rest: Tasks) returns (res: Result<(), SwapError>)
      requires Sound() && Holding(p, log, r) && p.kind.RefundRun?
      requires Ahead(k, Do(NoClaim, rest))
      modifies `log, `point
      ensures Sound() && Extends(old(log), log)
      ensures res.Ok? ==> Call.ReadOutbox(Claim, Missing) in log
      ensures res.Err? ==> Refused(p, log)
      ensures point == if res.Ok? then Advance(p, k, rest) else Fail(k)
    {
      hide Sound, Step, Asks, Advance, Because, Refused, MatchesRequest, Fail;
      FindSteps(p, k, NoClaim, Claim, rest);
      AdvanceTo(p, k, NoClaim, rest);
      var claim := ReadOutbox(Claim);
      if !claim.Missing? {
        LastRefuses(p, log);
        return Err(if claim.Corrupt? then Durability else RecoveryMismatch);
      }
      return Ok(());
    }

    /** No claim outbox, a stored funding transaction and a passed lock height. The kind of the
        funding outbox is not checked here, and a missing output index reads as 0. */
    method RequireUnclaimedFunding(r: Record, ghost k: Known, ghost rest: Tasks)
      returns (res: Result<Outbox, SwapError>)
      requires Sound() && Holding(p, log, r) && p.kind.RefundRun?
      requires Ahead(k, Do(NoClaim, Do(SomeFunding, Do(PastLockHeight, rest)))) && k.r == r
      modifies `log, `point
      ensures Sound() && Extends(old(log), log)
      ensures res.Ok? ==> HoldsOutbox(log, Funding, res.value)
      ensures res.Ok? ==> Call.ReadOutbox(Claim, Missing) in log && PastLock(log, r)
      ensures res.Err? ==> Refused(p, log)
      ensures point == if res.Ok? then Advance(p, k.(fundingBox := Some(res.value)), rest) else Fail(k)
    {
      hide Sound, Step, Asks, Advance, Because, Refused, MatchesRequest;
      var _ :- RequireNoClaim(r, k, Do(SomeFunding, Do(PastLockHeight, rest)));
      FindSteps(p, k, SomeFunding, Funding, Do(PastLockHeight, rest));
      AdvanceTo(p, k, SomeFunding, Do(PastLockHeight, rest));
      var content := ReadOutbox(Funding);
      if !content.Got? {
        LastRefuses(p, log);
        return Err(if content.Corrupt? then Durability else Unknown);
      }
      assert HoldsOutbox(log, Funding, content.value);
      var _ :- RequirePassedLock(r, k.(fundingBox := Some(content.value)), rest);
      return Ok(content.value);
    }

    method MakeRefundOutbox(r: Record, funding: Outbox, ghost k: Known, ghost rest: Tasks)
      returns (res: Result<Outbox, SwapError>)
      requires Sound() && Holding(p, log, r) && p.kind.RefundRun? && HoldsOutbox(log, Funding, funding)
      requires SawFailedPayment(log, r) && SawCanceled(p, log, r)
      requires Call.ReadOutbox(Claim, Missing) in log && PastLock(log, r) && Call.ReadOutbox(Refund, Missing) in log
      requires point == Doing(k, Do(MakeRefund, rest)) && k.fundingBox == Some(funding)
      modifies `log, `point
      ensures Sound() && Extends(old(log), log)
      ensures res.Ok? ==> HoldsOutbox(log, Refund, res.value) && res.value.kind == Refund
      ensures res.Ok? ==> BindsFunding(res.value, funding.txid, HtlcVout(funding))
      ensures res.Err? ==> Refused(p, log)
      ensures point == if res.Ok? then Stored(p, k, Refund, res.value, rest) else Fail(k)
    {
      hide Sound, Step, Asks, Advance, Because, Refused, Stored, Fail, MatchesRequest;
      MakeSpendSteps(p, k, MakeRefund, Refund, funding.txid, HtlcVout(funding), rest);
      var prepared := PrepareSpend(Refund, funding.txid, HtlcVout(funding));
      if prepared.None? {
        LastRefuses(p, log);
        return Err(Chain);
      }
      RefundReadyHolds(r, funding, prepared.value);
      var _ :- WriteOutbox(r, Refund, prepared.value, k, rest);
      return Ok(prepared.value);
    }

    method RefundOutbox(r: Record, funding: Outbox, ghost k: Known, ghost rest: Tasks)
      returns (res: Result<Outbox, SwapError>)
      requires Sound() && Holding(p, log, r) && p.kind.RefundRun? && HoldsOutbox(log, Funding, funding)
      requires SawFailedPayment(log, r) && SawCanceled(p, log, r)
      requires Call.ReadOutbox(Claim, Missing) in log && PastLock(log, r)
      requires Ahead(k, Do(FindRefund, rest)) && k.fundingBox == Some(funding)
      modifies `log, `point
      ensures Sound() && Extends(old(log), log)
      ensures res.Ok? ==> HoldsOutbox(log, Refund, res.value) && res.value.kind == Refund
      ensures res.Ok? ==> BindsFunding(res.value, funding.txid, HtlcVout(funding))
      ensures res.Err? ==> Refused(p, log)
      ensures point == if res.Ok? then Stored(p, k, Refund, res.value, rest) else Fail(k)
    {
      hide Sound, Step, Asks, Advance, Because, Refused, Stored, Fail, MatchesRequest;
      FindRefundSteps(p, k, funding, rest);
      AdvanceTo(p, k, FindRefund, rest);
      var content := ReadOutbox(Refund);
      match content
      case Corrupt =>
        LastRefuses(p, log);
        return Err(Durability);
      case Got(stored) =>
        var bad := ValidateSpendOutbox(stored, Refund, funding.txid, HtlcVout(funding));
        assert Call.ReadOutbox(Refund, Got(stored)) in log && HoldsOutbox(log, Funding, funding);
        if bad.Some? {
          Reasons(p, log, RefundUnbound(stored, funding));
        }
        return if bad.Some? then Err(bad.value) else Ok(stored);
      case Missing =>
        res := MakeRefundOutbox(r, funding, k, rest);
    }

    lemma RefundReadyHolds(r: Record, funding: Outbox, o: Outbox)
      requires p.kind.RefundRun? && HoldsOutbox(log, Funding, funding)
      requires BindsFunding(o, funding.txid, HtlcVout(funding))
      requires SawFailedPayment(log, r) && SawCanceled(p, log, r)
      requires Call.ReadOutbox(Claim, Missing) in log && PastLock(log, r)
      ensures RefundReady(p, log, r, o)
    {
    }
  }
}
