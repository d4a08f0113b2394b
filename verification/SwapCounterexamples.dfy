/** What overlapping reverse runs can do, and how a session gets stranded: concrete executions,
    call for call as the runner makes them, that bound the theorems of `SwapEffects` and
    `SwapResume` from the other side. */
module SwapCounterexamples {
  import opened Wrappers
  import opened Settlement
  import opened SwapCalls
  import opened SwapPlan
  import opened SwapWorld
  import opened SwapExecution
  import opened SwapResume

  const TERMS := Terms("asset", "fee", 1000, 1000, 10, 1000, None, 1, None)

  function SessionRecord(direction: Direction): Record {
    Record(1, direction, "asset", "fee", 1000, 1000, 10, 1000, None, "preimage", "hash")
  }

  function RunParams(kind: RunKind, core: bool): Params {
    Params(kind, TERMS, core, false, SessionRecord(RunDirection(kind)), r => true, h => true)
  }

  const FUNDING := Outbox(Funding, "funding", "raw", None, Some(0))
  const CLAIM := Outbox(Claim, "claim", "raw", Some("funding"), Some(0))
  const REFUND := Outbox(Refund, "refund", "raw", Some("funding"), Some(0))

  const OPEN := Invoice(InvoiceState.Open, 1000, true, None, None)
  const SEEN := FundingEvidence("funding", 0, 1)

  function HeldInvoice(state: InvoiceState): Invoice {
    Invoice(state, 1000, true, Some(1000), Some(200))
  }

  const HELD := HeldInvoice(InvoiceState.Accepted)

  /** What the first run of a session knows, as it stores its funding, sees it on the chain and
      sees the hold. */
  function KnownOf(r: Record, stored: bool, seen: bool, held: bool): Known {
    Known(r, Some(OPEN), if held then Some(HELD) else None, if held then 40 else 0,
          if seen then Some(SEEN) else None, None, None, true, stored)
  }

  // Segments of runs. Each starts and ends at a named point of the plan.

  lemma CreationSteps(p: Params, kind: RunKind)
    requires p == RunParams(kind, p.core) && !kind.RefundRun?
    ensures var r := SessionRecord(RunDirection(kind));
      && Asks(p, Loading, ReadRecovery(Missing)) && Step(p, Loading, ReadRecovery(Missing)) == Creating(r)
      && Asks(p, Creating(r), CreateRecovery(r, CreatedNew))
      && Step(p, Creating(r), CreateRecovery(r, CreatedNew)) == Finishing(r)
      && Asks(p, Finishing(r), FinishRecovery(r, true, true))
      && Step(p, Finishing(r), FinishRecovery(r, true, true)) == Loaded(r)
  {
    assert NewRecord(p) == SessionRecord(RunDirection(kind));
  }

  lemma CreatingIsAllowed(p: Params, log: Log, kind: RunKind)
    requires p == RunParams(kind, p.core) && !kind.RefundRun? && ReadRecovery(Missing) in log
    ensures Allowed(p, log, CreateRecovery(SessionRecord(RunDirection(kind)), CreatedNew))
  {
  }

  lemma FinishingIsAllowed(p: Params, log: Log, r: Record)
    requires log != [] && log[|log| - 1] == CreateRecovery(r, CreatedNew)
    ensures Allowed(p, log, FinishRecovery(r, true, true))
  {
  }

  lemma RecordIsHeld(p: Params, log: Log, kind: RunKind)
    requires p == RunParams(kind, p.core) && !kind.RefundRun?
    requires FinishRecovery(SessionRecord(RunDirection(kind)), true, true) in log
    ensures Holding(p, log, SessionRecord(RunDirection(kind)))
  {
  }

  /** The record of a new session is written. */
  lemma Prepares(ps: Runs, t: Trace, i: nat, kind: RunKind) returns (u: Trace)
    requires Stands(ps, t, i, Loading) && After(t).recovery.Absent? && !kind.RefundRun?
    requires ps(i) == RunParams(kind, ps(i).core)
    ensures var r := SessionRecord(RunDirection(kind));
      && Goes(ps, t, i, u) && Stands(ps, u, i, Loaded(r))
      && After(u) == After(t).(recovery := Complete(r)) && Holding(ps(i), LogOf(u, i), r)
  {
    hide Behaviour, Execution, Follows, IsAt, Allowed, Step, Asks, Advance, MatchesRequest, AfterLoading, NewRecord;
    var r := SessionRecord(RunDirection(kind));
    CreationSteps(ps(i), kind);
    u := Looks(ps, t, i, Loading, ReadRecovery(Missing));
    CreatingIsAllowed(ps(i), LogOf(u, i), kind);
    var v := Acts(ps, u, i, Creating(r), CreateRecovery(r, CreatedNew));
    FinishingIsAllowed(ps(i), LogOf(v, i), r);
    u := Acts(ps, v, i, Finishing(r), FinishRecovery(r, true, true));
    RecordIsHeld(ps(i), LogOf(u, i), kind);
  }

  lemma LookingIsAllowed(p: Params, log: Log, r: Record)
    requires Holding(p, log, r)
    ensures Allowed(p, log, Lookup(r.hash, NotFound))
  {
    hide MatchesRequest;
  }

  lemma InvoicingIsAllowed(p: Params, log: Log, r: Record)
    requires Holding(p, log, r) && p.terms == TERMS && !p.kind.RefundRun? && Lookup(r.hash, NotFound) in log
    ensures Allowed(p, log, CreateInvoice(r.hash, 1000, true, true))
  {
    hide MatchesRequest;
  }

  lemma InvoiceOpens(p: Params, k: Known)
    requires p == RunParams(p.kind, p.core)
    ensures OnLookup(p, k, FindInvoice, NotFound, End) == Doing(k, Do(MakeInvoice, End))
    ensures OnInvoice(p, k, true) == Doing(k.(invoice := Some(OPEN)), Do(FindClaim, End))
  {
  }

  /** The hold invoice is created. */
  lemma Invoices(ps: Runs, t: Trace, i: nat, r: Record) returns (u: Trace)
    requires Stands(ps, t, i, Loaded(r)) && Holding(ps(i), LogOf(t, i), r)
    requires ps(i) == RunParams(ps(i).kind, ps(i).core) && !ps(i).kind.RefundRun? && After(t).hold.NoInvoice?
    ensures Goes(ps, t, i, u) && After(u) == After(t).(hold := Hold(InvoiceState.Open))
    ensures Stands(ps, u, i, Doing(NewKnown(r).(invoice := Some(OPEN)), Do(FindClaim, End)))
    ensures StartedOpen(LogOf(u, i), r)
  {
    hide Behaviour, Execution, Follows, IsAt, Allowed, Step, Asks, Advance, MatchesRequest, OnLookup, OnInvoice;
    InvoiceOpens(ps(i), NewKnown(r));
    var k := NewKnown(r);
    LookupSteps(ps(i), k, FindInvoice, End);
    MakeInvoiceSteps(ps(i), k);
    LookingIsAllowed(ps(i), LogOf(t, i), r);
    u := Acts(ps, t, i, Doing(k, Do(FindInvoice, End)), Lookup(r.hash, NotFound));
    InvoicingIsAllowed(ps(i), LogOf(u, i), r);
    u := Acts(ps, u, i, Doing(k, Do(MakeInvoice, End)), CreateInvoice(r.hash, 1000, true, true));
  }

  /** Neither a claim nor a funding outbox is found. */
  lemma FindsNothing(ps: Runs, t: Trace, i: nat, k: Known) returns (u: Trace)
    requires Stands(ps, t, i, Doing(k, Do(FindClaim, End))) && !ps(i).kind.RefundRun?
    requires After(t).claim.Absent? && After(t).funding.Absent?
    ensures Goes(ps, t, i, u) && After(u) == After(t)
    ensures Stands(ps, u, i, Advance(ps(i), k.(started := true, exposed := false), FreshPlan(ps(i))))
    ensures ReadOutbox(Claim, Missing) in LogOf(u, i) && ReadOutbox(Funding, Missing) in LogOf(u, i)
    ensures NoFundingSent(LogOf(t, i)) ==> NoFundingSent(LogOf(u, i))
  {
    hide Behaviour, Execution, Follows, IsAt, Advance, Allowed;
    u := Looks(ps, t, i, Doing(k, Do(FindClaim, End)), ReadOutbox(Claim, Missing));
    u := Looks(ps, u, i, Doing(k, Do(FindExposure, End)), ReadOutbox(Funding, Missing));
  }

  /** A funding transaction is prepared. */
  lemma PlansFunding(ps: Runs, t: Trace, i: nat, k: Known, rest: Tasks) returns (u: Trace)
    requires Stands(ps, t, i, Doing(k, Do(FindFunding, rest))) && After(t).funding.Absent?
    ensures Goes(ps, t, i, u) && After(u) == After(t)
    ensures Stands(ps, u, i, Doing(k, Do(Store(Funding, FUNDING), rest))) && ReadOutbox(Funding, Missing) in LogOf(u, i)
  {
    hide Behaviour, Execution, Follows, IsAt, Allowed, Step, Asks, Advance, MatchesRequest, Fail, OnOutbox;
    MissingSteps(ps(i), k, rest);
    FindSteps(ps(i), k, FindFunding, Funding, rest);
    MakeFundingSteps(ps(i), k, rest);
    u := Looks(ps, t, i, Doing(k, Do(FindFunding, rest)), ReadOutbox(Funding, Missing));
    u := Looks(ps, u, i, Doing(k, Do(MakeFunding, rest)), PrepareFunding(Some(FUNDING)));
  }

  /** A claim or refund of the observed funding output is prepared. */
  lemma PlansClaim(ps: Runs, t: Trace, i: nat, k: Known, rest: Tasks) returns (u: Trace)
    requires Stands(ps, t, i, Doing(k, Do(FindFreshClaim, rest))) && After(t).claim.Absent? && k.funding == Some(SEEN)
    ensures Goes(ps, t, i, u) && After(u) == After(t)
    ensures Stands(ps, u, i, Doing(k, Do(Store(Claim, CLAIM), rest))) && ReadOutbox(Claim, Missing) in LogOf(u, i)
  {
    hide Behaviour, Execution, Follows, IsAt, Allowed, Step, Asks, Advance, MatchesRequest, Fail, OnOutbox;
    MissingSteps(ps(i), k, rest);
    FindSteps(ps(i), k, FindFreshClaim, Claim, rest);
    MakeSpendSteps(ps(i), k, MakeClaim, Claim, "funding", 0, rest);
    u := Looks(ps, t, i, Doing(k, Do(FindFreshClaim, rest)), ReadOutbox(Claim, Missing));
    u := Looks(ps, u, i, Doing(k, Do(MakeClaim, rest)), PrepareSpend(Claim, "funding", 0, Some(CLAIM)));
  }

  lemma StoringIsAllowed(p: Params, log: Log, r: Record, o: Outbox)
    requires Holding(p, log, r) && ReadOutbox(o.kind, Missing) in log && CreateReady(p, log, r, o.kind, o)
    ensures Allowed(p, log, CreateOutbox(o.kind, o, CreatedNew))
  {
    hide CreateReady, MatchesRequest;
  }

  lemma ClosingFileIsAllowed(p: Params, log: Log, o: Outbox)
    requires log != [] && log[|log| - 1] == CreateOutbox(o.kind, o, CreatedNew)
    ensures Allowed(p, log, FinishOutbox(o.kind, o, true, true))
  {
  }

  /** A prepared transaction is stored. */
  lemma Stores(ps: Runs, t: Trace, i: nat, r: Record, k: Known, o: Outbox, rest: Tasks) returns (u: Trace)
    requires Stands(ps, t, i, Doing(k, Do(Store(o.kind, o), rest))) && Holding(ps(i), LogOf(t, i), r)
    requires OutboxAt(After(t), o.kind).Absent? && ReadOutbox(o.kind, Missing) in LogOf(t, i)
    requires CreateReady(ps(i), LogOf(t, i), r, o.kind, o)
    ensures Goes(ps, t, i, u) && After(u) == WithOutbox(After(t), o.kind, Complete(o))
    ensures Stands(ps, u, i, Stored(ps(i), k, o.kind, o, rest)) && HoldsOutbox(LogOf(u, i), o.kind, o)
    ensures |t| < |u| && u[|t|] == Act(i, CreateOutbox(o.kind, o, CreatedNew))
  {
    hide Behaviour, Execution, Follows, IsAt, Allowed, Step, Asks, Advance, MatchesRequest, CreateReady, Stored, Fail;
    StoreSteps(ps(i), k, o.kind, o, rest);
    FinishSteps(ps(i), k, o.kind, o, rest);
    StoringIsAllowed(ps(i), LogOf(t, i), r, o);
    u := Acts(ps, t, i, Doing(k, Do(Store(o.kind, o), rest)), CreateOutbox(o.kind, o, CreatedNew));
    ClosingFileIsAllowed(ps(i), LogOf(u, i), o);
    u := Acts(ps, u, i, Doing(k, Do(FinishStore(o.kind, o), rest)), FinishOutbox(o.kind, o, true, true));
  }

  /** The stored funding transaction is broadcast and its HTLC output seen. */
  lemma SendsFunding(ps: Runs, t: Trace, i: nat, r: Record, k: Known, rest: Tasks) returns (u: Trace)
    requires Stands(ps, t, i, Doing(k, Do(Send(Funding, FUNDING), Do(SeeFunding(FUNDING, false), rest))))
    requires Holding(ps(i), LogOf(t, i), r) && BroadcastReady(ps(i), LogOf(t, i), r, Funding, FUNDING)
    ensures Goes(ps, t, i, u) && After(u) == After(t)
    ensures Stands(ps, u, i, Advance(ps(i), k.(funding := Some(SEEN)), rest))
    ensures SawFunding(LogOf(u, i), "funding", 0) && HoldsOutbox(LogOf(u, i), Funding, FUNDING)
    ensures |t| < |u| && u[|t|] == Act(i, Broadcast(Funding, FUNDING, true))
  {
    hide Behaviour, Execution, Follows, IsAt, Allowed, Step, Asks, Advance, MatchesRequest, BroadcastReady, Stands;
    SendSteps(ps(i), k, Funding, FUNDING, Do(SeeFunding(FUNDING, false), rest));
    SeeFundingSteps(ps(i), k, FUNDING, false, rest);
    assert FUNDING.txid == "funding" && HtlcVout(FUNDING) == 0;
    Sendable(ps(i), LogOf(t, i), r);
    AdvanceTo(ps(i), k, SeeFunding(FUNDING, false), rest);
    var v := Acts(ps, t, i, Doing(k, Do(Send(Funding, FUNDING), Do(SeeFunding(FUNDING, false), rest))),
                  Broadcast(Funding, FUNDING, true));
    Visible(ps(i), LogOf(v, i));
    u := Acts(ps, v, i, Doing(k, Do(SeeFunding(FUNDING, false), rest)), ObserveFunding("funding", 0, Some(SEEN)));
  }

  lemma Sendable(p: Params, log: Log, r: Record)
    requires Holding(p, log, r) && BroadcastReady(p, log, r, Funding, FUNDING)
    ensures HoldsOutbox(log, Funding, FUNDING) && Allowed(p, log, Broadcast(Funding, FUNDING, true))
  {
  }

  lemma Visible(p: Params, log: Log)
    requires HoldsOutbox(log, Funding, FUNDING) && Broadcast(Funding, FUNDING, true) in log
    ensures Allowed(p, log, ObserveFunding("funding", 0, Some(SEEN)))
  {
    assert Sent(log, Funding, FUNDING);
  }

  lemma PayingIsAllowed(p: Params, log: Log, r: Record)
    requires Holding(p, log, r) && PayReady(p, log, r, 1000)
    ensures Allowed(p, log, Pay(r.hash, 1000, Some(InFlight)))
  {
    hide MatchesRequest, PayReady;
  }

  /** The counterparty is paid and locks its hold in return. */
  lemma Pays(ps: Runs, t: Trace, i: nat, r: Record, k: Known, rest: Tasks) returns (u: Trace)
    requires Stands(ps, t, i, Doing(k, Do(PayInvoice, rest))) && ps(i).terms == TERMS && k.r == r
    requires Holding(ps(i), LogOf(t, i), r) && PayReady(ps(i), LogOf(t, i), r, 1000)
    requires After(t).hold == Hold(InvoiceState.Open) && After(t).payment.None?
    ensures Goes(ps, t, i, u) && Stands(ps, u, i, Advance(ps(i), k, rest))
    ensures After(u) == After(t).(hold := Hold(InvoiceState.Accepted), payment := Some(InFlight))
  {
    hide Execution, Follows, IsAt, Allowed, Step, Asks, Advance, MatchesRequest, PayReady;
    PaySteps(ps(i), k, rest);
    PayingIsAllowed(ps(i), LogOf(t, i), r);
    var v := Acts(ps, t, i, Doing(k, Do(PayInvoice, rest)), Pay(r.hash, 1000, Some(InFlight)));
    u := Happens(ps, v, AcceptHold);
  }

  lemma SeeingIsAllowed(p: Params, log: Log, r: Record, v: Invoice)
    requires Holding(p, log, r) && !p.kind.RefundRun?
    ensures Allowed(p, log, ObserveAccepted(r.hash, Some(v)))
  {
  }

  /** The hold is seen with enough headroom. */
  lemma SeesHold(ps: Runs, t: Trace, i: nat, r: Record, k: Known, rest: Tasks) returns (u: Trace)
    requires Stands(ps, t, i, Doing(k, Do(SeeHold, rest))) && ps(i).terms == TERMS && k.r == r
    requires Holding(ps(i), LogOf(t, i), r) && !ps(i).kind.RefundRun? && After(t).hold == Hold(InvoiceState.Accepted)
    ensures Goes(ps, t, i, u) && After(u) == After(t)
    ensures Stands(ps, u, i, Advance(ps(i), k.(held := Some(HELD), tip := 40), rest))
    ensures ObserveAccepted(r.hash, Some(HELD)) in LogOf(u, i) && Tip(Some(40)) in LogOf(u, i)
  {
    hide Behaviour, Execution, Follows, IsAt, Allowed, Step, Asks, Advance, MatchesRequest, Goes, Stands;
    SeeingIsAllowed(ps(i), LogOf(t, i), r, HELD);
    HoldSteps(ps(i), k, rest);
    TipSteps(ps(i), k, HELD, rest);
    u := ActsThenLooks(ps, t, i, Doing(k, Do(SeeHold, rest)), ObserveAccepted(r.hash, Some(HELD)), Tip(Some(40)));
  }

  // Reverse sessions under overlap.

  const REVERSE := RunParams(ReverseRun, false)
  const REFUNDER := RunParams(RefundRun, false)

  function ReverseStored(): Tasks {
    Do(Send(Funding, FUNDING),
       Do(SeeFunding(FUNDING, false), Do(Phase(InputLockedPhase), Do(FindFreshClaim, AfterReverseClaim()))))
  }

  /** Silent phases are passed over where the no-op observer is used. */
  lemma ReverseAdvances(r: Record)
    ensures Advance(REVERSE, KnownOf(r, false, false, false), FreshPlan(REVERSE))
         == Doing(KnownOf(r, false, false, false), Do(PayInvoice, Do(SeeHold, AfterReverseHold())))
    ensures Advance(REVERSE, KnownOf(r, true, false, true),
                    FundingPlan(FUNDING, Do(FindFreshClaim, AfterReverseClaim())))
         == Doing(KnownOf(r, true, false, true), ReverseStored())
  {
    var k := KnownOf(r, false, false, false);
    AdvancePast(REVERSE, k, Phase(OutputPendingPhase), Do(PayInvoice, Do(SeeHold, AfterReverseHold())));
    AdvanceTo(REVERSE, k, PayInvoice, Do(SeeHold, AfterReverseHold()));
    AdvancePast(REVERSE, KnownOf(r, true, false, true), Phase(InputFundingPhase), ReverseStored());
    AdvanceTo(REVERSE, KnownOf(r, true, false, true), Send(Funding, FUNDING), ReverseStored().rest);
  }

  /** A reverse run up to its invoice and its look for files. */
  lemma ReverseOpens(ps: Runs) returns (t: Trace)
    requires ps(0) == REVERSE
    ensures var r := SessionRecord(LightningToDepix);
      && Execution(ps, t) && After(t) == Initial.(recovery := Complete(r), hold := Hold(InvoiceState.Open))
      && Stands(ps, t, 0, Doing(KnownOf(r, false, false, false), Do(PayInvoice, Do(SeeHold, AfterReverseHold()))))
      && Holding(ps(0), LogOf(t, 0), r) && StartedOpen(LogOf(t, 0), r)
      && ReadOutbox(Claim, Missing) in LogOf(t, 0) && ReadOutbox(Funding, Missing) in LogOf(t, 0)
    ensures forall j: nat {:trigger LogOf(t, j)} :: j != 0 ==> LogOf(t, j) == []
  {
    hide Behaviour, Execution, Follows, IsAt, Advance, Step;
    var r := SessionRecord(LightningToDepix);
    NothingHappened(ps);
    NotStarted(ps, [], 0);
    t := Prepares(ps, [], 0, ReverseRun);
    t := Invoices(ps, t, 0, r);
    ReverseAdvances(r);
    t := FindsNothing(ps, t, 0, NewKnown(r).(invoice := Some(OPEN)));
  }

  /** It pays and sees its hold. */
  lemma ReverseUpToHold(ps: Runs) returns (t: Trace)
    requires ps(0) == REVERSE
    ensures var r := SessionRecord(LightningToDepix);
      && Execution(ps, t)
      && After(t) == Initial.(recovery := Complete(r), hold := Hold(InvoiceState.Accepted), payment := Some(InFlight))
      && Stands(ps, t, 0, Doing(KnownOf(r, false, false, true), AfterReverseHold())) && Holding(ps(0), LogOf(t, 0), r)
      && ObserveAccepted("hash", Some(HELD)) in LogOf(t, 0) && Tip(Some(40)) in LogOf(t, 0)
      && ReadOutbox(Claim, Missing) in LogOf(t, 0) && ReadOutbox(Funding, Missing) in LogOf(t, 0)
    ensures forall j: nat {:trigger LogOf(t, j)} :: j != 0 ==> LogOf(t, j) == []
  {
    hide Behaviour, Execution, Follows, IsAt, Advance, Step;
    var r := SessionRecord(LightningToDepix);
    t := ReverseOpens(ps);
    var k := KnownOf(r, false, false, false);
    assert PayReady(ps(0), LogOf(t, 0), r, 1000);
    AdvanceTo(REVERSE, k, SeeHold, AfterReverseHold());
    t := Pays(ps, t, 0, r, k, Do(SeeHold, AfterReverseHold()));
    assert Holding(ps(0), LogOf(t, 0), r);
    AdvanceTo(REVERSE, KnownOf(r, false, false, true), ReverseHeight, AfterReverseHold().rest);
    t := SeesHold(ps, t, 0, r, k, AfterReverseHold());
  }

  /** Its timing check passes. */
  lemma TimesReverse(ps: Runs, s: Trace) returns (t: Trace)
    requires ps(0) == REVERSE
    requires Stands(ps, s, 0, Doing(KnownOf(SessionRecord(LightningToDepix), false, false, true), AfterReverseHold()))
    requires ObserveAccepted("hash", Some(HELD)) in LogOf(s, 0) && Tip(Some(40)) in LogOf(s, 0)
    ensures var r := SessionRecord(LightningToDepix);
      && Goes(ps, s, 0, t) && After(t) == After(s) && SawHold(ps(0), LogOf(t, 0), r)
      && ReverseTimed(ps(0), LogOf(t, 0), r)
      && Stands(ps, t, 0, Doing(KnownOf(r, false, false, true), AfterReverseHold().rest))
  {
    hide Behaviour, Execution, Follows, IsAt, Advance;
    var r := SessionRecord(LightningToDepix);
    var k := KnownOf(r, false, false, true);
    AdvanceTo(REVERSE, k, FindFunding, AfterReverseHold().rest.rest);
    assert ReverseTimingOk(ps(0), r, HELD, 40, 40);
    t := Looks(ps, s, 0, Doing(k, AfterReverseHold()), Height(Some(40)));
  }

  /** And its funding is prepared. */
  lemma ReversePlansFunding(ps: Runs, s: Trace) returns (t: Trace)
    requires ps(0) == REVERSE && After(s).funding.Absent?
    requires Stands(ps, s, 0, Doing(KnownOf(SessionRecord(LightningToDepix), false, false, true), AfterReverseHold()))
    requires ObserveAccepted("hash", Some(HELD)) in LogOf(s, 0) && Tip(Some(40)) in LogOf(s, 0)
    ensures var r := SessionRecord(LightningToDepix);
      && Goes(ps, s, 0, t) && After(t) == After(s)
      && SawHold(ps(0), LogOf(t, 0), r) && ReverseTimed(ps(0), LogOf(t, 0), r)
      && ReadOutbox(Funding, Missing) in LogOf(t, 0)
      && Stands(ps, t, 0,
                Doing(KnownOf(r, false, false, true), Do(Store(Funding, FUNDING), AfterReverseHold().rest.rest)))
  {
    hide Behaviour, Execution, Follows, IsAt, Allowed, Step, Asks, Advance, MatchesRequest, ReverseTimed, SawHold,
      Stands;
    var r := SessionRecord(LightningToDepix);
    var u := TimesReverse(ps, s);
    t := PlansFunding(ps, u, 0, KnownOf(r, false, false, true), AfterReverseHold().rest.rest);
    ReverseFactsGrow(ps(0), LogOf(u, 0), LogOf(t, 0), r);
  }

  /** It stores its funding transaction. */
  lemma ReverseStoresFunding(ps: Runs, s: Trace) returns (t: Trace)
    requires ps(0) == REVERSE && Holding(ps(0), LogOf(s, 0), SessionRecord(LightningToDepix))
    requires Stands(ps, s, 0, Doing(KnownOf(SessionRecord(LightningToDepix), false, false, true), AfterReverseHold()))
    requires ObserveAccepted("hash", Some(HELD)) in LogOf(s, 0) && Tip(Some(40)) in LogOf(s, 0)
    requires ReadOutbox(Funding, Missing) in LogOf(s, 0) && After(s).funding.Absent?
    ensures var r := SessionRecord(LightningToDepix);
      && Goes(ps, s, 0, t) && After(t) == After(s).(funding := Complete(FUNDING))
      && HoldsOutbox(LogOf(t, 0), Funding, FUNDING)
      && SawHold(ps(0), LogOf(t, 0), r) && ReverseTimed(ps(0), LogOf(t, 0), r)
      && Stands(ps, t, 0, Doing(KnownOf(r, true, false, true), ReverseStored()))
  {
    hide Behaviour, Execution, Follows, IsAt, Allowed, Step, Asks, Advance, MatchesRequest, ReverseTimed, SawHold,
      Stands;
    var r := SessionRecord(LightningToDepix);
    var u := ReversePlansFunding(ps, s);
    assert FundingReady(ps(0), LogOf(u, 0), r) && Holding(ps(0), LogOf(u, 0), r);
    ReverseAdvances(r);
    t := Stores(ps, u, 0, r, KnownOf(r, false, false, true), FUNDING, AfterReverseHold().rest.rest);
    ReverseFactsGrow(ps(0), LogOf(u, 0), LogOf(t, 0), r);
  }

  /** It broadcasts the funding and sees its output. */
  lemma ReverseSendsFunding(ps: Runs, s: Trace) returns (t: Trace)
    requires ps(0) == REVERSE && Holding(ps(0), LogOf(s, 0), SessionRecord(LightningToDepix))
    requires Stands(ps, s, 0, Doing(KnownOf(SessionRecord(LightningToDepix), true, false, true), ReverseStored()))
    requires HoldsOutbox(LogOf(s, 0), Funding, FUNDING)
    requires SawHold(ps(0), LogOf(s, 0), SessionRecord(LightningToDepix))
    requires ReverseTimed(ps(0), LogOf(s, 0), SessionRecord(LightningToDepix))
    ensures var r := SessionRecord(LightningToDepix);
      && Goes(ps, s, 0, t) && After(t) == After(s)
      && HoldsOutbox(LogOf(t, 0), Funding, FUNDING) && SawFunding(LogOf(t, 0), "funding", 0)
      && SawHold(ps(0), LogOf(t, 0), r) && ReverseTimed(ps(0), LogOf(t, 0), r)
      && Stands(ps, t, 0, Doing(KnownOf(r, true, true, true), Do(FindFreshClaim, AfterReverseClaim())))
      && |s| < |t| && t[|s|] == Act(0, Broadcast(Funding, FUNDING, true))
  {
    hide Behaviour, Execution, Follows, IsAt, Advance, Step;
    var r := SessionRecord(LightningToDepix);
    var k, rest := KnownOf(r, true, false, true), Do(FindFreshClaim, AfterReverseClaim());
    assert BroadcastReady(ps(0), LogOf(s, 0), r, Funding, FUNDING);
    AdvancePast(REVERSE, KnownOf(r, true, true, true), Phase(InputLockedPhase), rest);
    AdvanceTo(REVERSE, KnownOf(r, true, true, true), FindFreshClaim, AfterReverseClaim());
    t := SendsFunding(ps, s, 0, r, k, Do(Phase(InputLockedPhase), rest));
    ReverseTimedGrows(ps(0), LogOf(s, 0), LogOf(t, 0), r);
  }

  /** The counterparty cancels the hold and the payment fails. */
  lemma Fails(ps: Runs, s: Trace) returns (t: Trace)
    requires Behaviour(ps, s) && After(s).hold == Hold(InvoiceState.Accepted) && After(s).payment.Some?
    ensures Behaviour(ps, t) && s <= t && (Execution(ps, s) ==> Execution(ps, t))
    ensures After(t) == After(s).(hold := Hold(InvoiceState.Canceled), payment := Some(PaymentState.Failed))
    ensures forall j: nat {:trigger LogOf(t, j)} :: LogOf(t, j) == LogOf(s, j)
  {
    hide Behaviour, Execution;
    t := Happens(ps, s, CancelRemotely);
    t := Happens(ps, t, MovePayment(PaymentState.Failed));
  }

  lemma RefundMayTrack(log: Log, r: Record)
    requires ReadRecovery(Got(r)) in log && r.amountSats == 1000
    ensures Holding(REFUNDER, log, r) && Allowed(REFUNDER, log, Track(r.hash, Some(Payment(PaymentState.Failed, None))))
  {
    assert Holding(REFUNDER, log, r);
  }

  lemma RefundMayLookUp(log: Log, r: Record, a: InvoiceAnswer)
    requires Holding(REFUNDER, log, r)
    ensures Allowed(REFUNDER, log, Lookup(r.hash, a))
  {
    hide MatchesRequest;
  }

  /** A refund run loads the record and sees the payment failed. */
  lemma RefundOpens(ps: Runs, s: Trace, r: Record) returns (t: Trace)
    requires Behaviour(ps, s) && ps(1) == REFUNDER && LogOf(s, 1) == []
    requires After(s).recovery == Complete(r) && r.amountSats == 1000 && After(s).payment == Some(PaymentState.Failed)
    ensures Goes(ps, s, 1, t) && After(t) == After(s) && Holding(ps(1), LogOf(t, 1), r)
    ensures Stands(ps, t, 1, Doing(NewKnown(r), RefundPlan().rest)) && SawFailedPayment(LogOf(t, 1), r)
  {
    hide Behaviour, Execution, Follows, IsAt, Allowed, Step, Asks, Advance, MatchesRequest;
    NotStarted(ps, s, 1);
    LoadingSteps(REFUNDER);
    TrackSteps(REFUNDER, NewKnown(r), TrackFailure, RefundPlan().rest);
    AdvanceTo(REFUNDER, NewKnown(r), LookupCanceled, AfterFailure());
    var u := Looks(ps, s, 1, Loading, ReadRecovery(Got(r)));
    RefundMayTrack(LogOf(u, 1), r);
    t := Acts(ps, u, 1, Doing(NewKnown(r), RefundPlan()), Track(r.hash, Some(Payment(PaymentState.Failed, None))));
    assert Holding(ps(1), LogOf(t, 1), r);
  }

  lemma RefundSeesCanceled(ps: Runs, s: Trace, r: Record) returns (t: Trace)
    requires ps(1) == REFUNDER && Holding(ps(1), LogOf(s, 1), r) && SawFailedPayment(LogOf(s, 1), r)
    requires Stands(ps, s, 1, Doing(NewKnown(r), RefundPlan().rest)) && After(s).hold == Hold(InvoiceState.Canceled)
    ensures Goes(ps, s, 1, t) && After(t) == After(s) && Holding(ps(1), LogOf(t, 1), r)
    ensures Stands(ps, t, 1, Doing(NewKnown(r), AfterFailure()))
    ensures SawFailedPayment(LogOf(t, 1), r) && SawCanceled(ps(1), LogOf(t, 1), r)
  {
    hide Behaviour, Execution, Follows, IsAt, Allowed, Step, Asks, Advance, MatchesRequest;
    var canceled := Lookup(r.hash, Found(HeldInvoice(InvoiceState.Canceled)));
    AdvanceTo(REFUNDER, NewKnown(r), NoClaim, AfterFailure().rest);
    LookupSteps(REFUNDER, NewKnown(r), LookupCanceled, AfterFailure());
    RefundMayLookUp(LogOf(s, 1), r, Found(HeldInvoice(InvoiceState.Canceled)));
    t := Acts(ps, s, 1, Doing(NewKnown(r), RefundPlan().rest), canceled);
  }

  /** A refund run finds the failed payment and the canceled hold. */
  lemma RefundSeesFailure(ps: Runs, s: Trace, r: Record) returns (t: Trace)
    requires Behaviour(ps, s) && ps(1) == REFUNDER && LogOf(s, 1) == []
    requires After(s).recovery == Complete(r) && r.amountSats == 1000
    requires After(s).hold == Hold(InvoiceState.Canceled) && After(s).payment == Some(PaymentState.Failed)
    ensures Goes(ps, s, 1, t) && After(t) == After(s) && Holding(ps(1), LogOf(t, 1), r)
    ensures Stands(ps, t, 1, Doing(NewKnown(r), AfterFailure()))
    ensures SawFailedPayment(LogOf(t, 1), r) && SawCanceled(ps(1), LogOf(t, 1), r)
  {
    hide Behaviour, Execution, Follows, IsAt, Advance, Allowed, Step;
    var u := RefundOpens(ps, s, r);
    t := RefundSeesCanceled(ps, u, r);
  }

  /** It finds no claim. */
  lemma RefundReadsClaim(ps: Runs, s: Trace, r: Record) returns (t: Trace)
    requires ps(1) == REFUNDER && Stands(ps, s, 1, Doing(NewKnown(r), AfterFailure())) && After(s).claim.Absent?
    ensures Goes(ps, s, 1, t) && After(t) == After(s) && ReadOutbox(Claim, Missing) in LogOf(t, 1)
    ensures Stands(ps, t, 1, Doing(NewKnown(r), AfterFailure().rest))
  {
    hide Behaviour, Execution, Follows, IsAt, Allowed, Step, Asks, Advance, MatchesRequest, OnOutbox, Goes, Stands;
    var k := NewKnown(r);
    AdvanceTo(REFUNDER, k, SomeFunding, AfterFailure().rest.rest);
    FindSteps(REFUNDER, k, NoClaim, Claim, AfterFailure().rest);
    MissingSteps(REFUNDER, k, AfterFailure().rest);
    t := Looks(ps, s, 1, Doing(k, AfterFailure()), ReadOutbox(Claim, Missing));
  }

  /** It finds the funding. */
  lemma RefundReadsFunding(ps: Runs, s: Trace, r: Record) returns (t: Trace)
    requires ps(1) == REFUNDER && Stands(ps, s, 1, Doing(NewKnown(r), AfterFailure().rest))
    requires After(s).funding == Complete(FUNDING)
    ensures Goes(ps, s, 1, t) && After(t) == After(s) && HoldsOutbox(LogOf(t, 1), Funding, FUNDING)
    ensures Stands(ps, t, 1, Doing(NewKnown(r).(fundingBox := Some(FUNDING)), AfterFailure().rest.rest))
  {
    hide Behaviour, Execution, Follows, IsAt, Allowed, Step, Asks, Advance, MatchesRequest, Goes, Stands;
    var k := NewKnown(r);
    AdvanceTo(REFUNDER, k.(fundingBox := Some(FUNDING)), PastLockHeight, AfterFailure().rest.rest.rest);
    FindSteps(REFUNDER, k, SomeFunding, Funding, AfterFailure().rest.rest);
    t := Looks(ps, s, 1, Doing(k, AfterFailure().rest), ReadOutbox(Funding, Got(FUNDING)));
  }

  /** It is past the lock height and finds no refund. */
  lemma RefundFindsNone(ps: Runs, s: Trace, k: Known, rest: Tasks) returns (t: Trace)
    requires ps(1) == REFUNDER && k.r.refundLockHeight == 1000 && k.fundingBox == Some(FUNDING)
    requires Stands(ps, s, 1, Doing(k, Do(PastLockHeight, Do(FindRefund, rest)))) && After(s).refund.Absent?
    ensures Goes(ps, s, 1, t) && After(t) == After(s) && Stands(ps, t, 1, Doing(k, Do(MakeRefund, rest)))
    ensures ReadOutbox(Refund, Missing) in LogOf(t, 1) && PastLock(LogOf(t, 1), k.r)
  {
    hide Behaviour, Execution, Follows, IsAt, Allowed, Step, Asks, Advance, MatchesRequest, Fail, Stored;
    AdvanceTo(REFUNDER, k, FindRefund, rest);
    HeightSteps(REFUNDER, k, PastLockHeight, Do(FindRefund, rest));
    FindRefundSteps(REFUNDER, k, FUNDING, rest);
    t := Looks(ps, s, 1, Doing(k, Do(PastLockHeight, Do(FindRefund, rest))), Height(Some(1000)));
    t := Looks(ps, t, 1, Doing(k, Do(FindRefund, rest)), ReadOutbox(Refund, Missing));
  }

  /** And prepares one. */
  lemma RefundPrepares(ps: Runs, s: Trace, k: Known, rest: Tasks) returns (t: Trace)
    requires ps(1) == REFUNDER && k.r.refundLockHeight == 1000 && k.fundingBox == Some(FUNDING)
    requires Stands(ps, s, 1, Doing(k, Do(PastLockHeight, Do(FindRefund, rest)))) && After(s).refund.Absent?
    ensures Goes(ps, s, 1, t) && After(t) == After(s) && Stands(ps, t, 1, Doing(k, Do(Store(Refund, REFUND), rest)))
    ensures ReadOutbox(Refund, Missing) in LogOf(t, 1) && PastLock(LogOf(t, 1), k.r)
  {
    hide Behaviour, Execution, Follows, IsAt, Allowed, Step, Asks, Advance, MatchesRequest, Fail;
    MakeSpendSteps(REFUNDER, k, MakeRefund, Refund, "funding", 0, rest);
    t := RefundFindsNone(ps, s, k, rest);
    t := Looks(ps, t, 1, Doing(k, Do(MakeRefund, rest)), PrepareSpend(Refund, "funding", 0, Some(REFUND)));
  }

  lemma FailureStays(p: Params, before: Log, after: Log, r: Record)
    requires Extends(before, after) && SawFailedPayment(before, r) && SawCanceled(p, before, r)
    ensures SawFailedPayment(after, r) && SawCanceled(p, after, r)
  {
  }

  /** A refund run up to the point where it is about to store its transaction. */
  lemma RefundUpToStore(ps: Runs, s: Trace, r: Record) returns (t: Trace)
    requires Behaviour(ps, s) && ps(1) == REFUNDER && LogOf(s, 1) == []
    requires After(s).recovery == Complete(r) && r.amountSats == 1000 && r.refundLockHeight == 1000
    requires After(s).hold == Hold(InvoiceState.Canceled) && After(s).payment == Some(PaymentState.Failed)
    requires After(s).claim.Absent? && After(s).refund.Absent? && After(s).funding == Complete(FUNDING)
    ensures Goes(ps, s, 1, t) && After(t) == After(s) && Holding(ps(1), LogOf(t, 1), r)
    ensures Stands(ps, t, 1,
                   Doing(NewKnown(r).(fundingBox := Some(FUNDING)), Do(Store(Refund, REFUND), Do(ReportRefund, End))))
    ensures ReadOutbox(Refund, Missing) in LogOf(t, 1) && CreateReady(ps(1), LogOf(t, 1), r, Refund, REFUND)
  {
    hide Behaviour, Execution, Follows, IsAt, Advance, Step, SawFailedPayment, SawCanceled, PastLock;
    var u := RefundSeesFailure(ps, s, r);
    var x := RefundReadsClaim(ps, u, r);
    var v := RefundReadsFunding(ps, x, r);
    t := RefundPrepares(ps, v, NewKnown(r).(fundingBox := Some(FUNDING)), Do(ReportRefund, End));
    FailureStays(ps(1), LogOf(u, 1), LogOf(t, 1), r);
    assert HoldsOutbox(LogOf(t, 1), Funding, FUNDING) && BindsFunding(REFUND, FUNDING.txid, HtlcVout(FUNDING));
  }

  /** A reverse run whose funding is seen on the chain. */
  lemma ReverseUpToFunded(ps: Runs) returns (t: Trace)
    requires ps(0) == REVERSE
    ensures var r := SessionRecord(LightningToDepix);
      && Execution(ps, t)
      && After(t) == Initial.(recovery := Complete(r), hold := Hold(InvoiceState.Accepted),
                              payment := Some(InFlight), funding := Complete(FUNDING))
      && Stands(ps, t, 0, Doing(KnownOf(r, true, true, true), Do(FindFreshClaim, AfterReverseClaim())))
      && Holding(ps(0), LogOf(t, 0), r) && HoldsOutbox(LogOf(t, 0), Funding, FUNDING)
      && SawFunding(LogOf(t, 0), "funding", 0) && SawHold(ps(0), LogOf(t, 0), r) && ReverseTimed(ps(0), LogOf(t, 0), r)
    ensures forall j: nat {:trigger LogOf(t, j)} :: j != 0 ==> LogOf(t, j) == []
  {
    hide Behaviour, Execution, Follows, IsAt, Allowed, Step, Asks, Advance, MatchesRequest, SawHold, ReverseTimed,
      Stands;
    var r := SessionRecord(LightningToDepix);
    var s := ReverseUpToHold(ps);
    var u := ReverseStoresFunding(ps, s);
    assert Holding(ps(0), LogOf(u, 0), r);
    t := ReverseSendsFunding(ps, u);
    assert Holding(ps(0), LogOf(t, 0), r);
  }

  lemma ReverseMayClaim(log: Log, r: Record)
    requires HoldsOutbox(log, Funding, FUNDING) && SawFunding(log, "funding", 0) && ReadOutbox(Claim, Missing) in log
    requires SawHold(REVERSE, log, r) && ReverseTimed(REVERSE, log, r)
    ensures CreateReady(REVERSE, log, r, Claim, CLAIM)
  {
    hide SawHold, ReverseTimed;
    assert BindsFunding(CLAIM, FUNDING.txid, HtlcVout(FUNDING)) && HtlcVout(FUNDING) == 0;
  }

  /** A reverse run about to store its claim, when the counterparty cancels. */
  lemma ReverseUpToClaim(ps: Runs) returns (t: Trace)
    requires ps(0) == REVERSE
    ensures var r := SessionRecord(LightningToDepix);
      && Execution(ps, t)
      && After(t) == Initial.(recovery := Complete(r), hold := Hold(InvoiceState.Canceled),
                              payment := Some(PaymentState.Failed), funding := Complete(FUNDING))
      && Stands(ps, t, 0, Doing(KnownOf(r, true, true, true), Do(Store(Claim, CLAIM), AfterReverseClaim())))
      && Holding(ps(0), LogOf(t, 0), r) && ReadOutbox(Claim, Missing) in LogOf(t, 0)
      && CreateReady(ps(0), LogOf(t, 0), r, Claim, CLAIM)
    ensures forall j: nat {:trigger LogOf(t, j)} :: j != 0 ==> LogOf(t, j) == []
  {
    hide Behaviour, Execution, Follows, IsAt, Allowed, Step, Asks, Advance, MatchesRequest, SawHold, ReverseTimed,
      CreateReady, Stands;
    var r := SessionRecord(LightningToDepix);
    var s := ReverseUpToFunded(ps);
    var u := PlansClaim(ps, s, 0, KnownOf(r, true, true, true), AfterReverseClaim());
    ReverseFactsGrow(ps(0), LogOf(s, 0), LogOf(u, 0), r);
    assert Holding(ps(0), LogOf(u, 0), r) && HoldsOutbox(LogOf(u, 0), Funding, FUNDING);
    ReverseMayClaim(LogOf(u, 0), r);
    t := Fails(ps, u);
    assert LogOf(t, 0) == LogOf(u, 0);
    Stays(ps, u, t, 0, Doing(KnownOf(r, true, true, true), Do(Store(Claim, CLAIM), AfterReverseClaim())));
  }

  lemma ReverseFactsGrow(p: Params, before: Log, after: Log, r: Record)
    requires Extends(before, after) && SawHold(p, before, r) && ReverseTimed(p, before, r)
    ensures SawHold(p, after, r) && ReverseTimed(p, after, r)
  {
    ReverseTimedGrows(p, before, after, r);
  }

  /** Both are about to store: the reverse run its claim, the refund run its refund. */
  lemma BothUpToStore(ps: Runs) returns (t: Trace)
    requires ps(0) == REVERSE && ps(1) == REFUNDER
    ensures var r := SessionRecord(LightningToDepix);
      && Execution(ps, t) && After(t).claim.Absent? && After(t).refund.Absent?
      && Stands(ps, t, 0, Doing(KnownOf(r, true, true, true), Do(Store(Claim, CLAIM), AfterReverseClaim())))
      && Stands(ps, t, 1,
                Doing(NewKnown(r).(fundingBox := Some(FUNDING)), Do(Store(Refund, REFUND), Do(ReportRefund, End))))
      && Holding(ps(0), LogOf(t, 0), r) && ReadOutbox(Claim, Missing) in LogOf(t, 0)
      && Holding(ps(1), LogOf(t, 1), r) && ReadOutbox(Refund, Missing) in LogOf(t, 1)
      && CreateReady(ps(0), LogOf(t, 0), r, Claim, CLAIM) && CreateReady(ps(1), LogOf(t, 1), r, Refund, REFUND)
  {
    hide Behaviour, Execution, Follows, IsAt, Advance, Step, CreateReady, Holding;
    var r := SessionRecord(LightningToDepix);
    var s := ReverseUpToClaim(ps);
    t := RefundUpToStore(ps, s, r);
    assert LogOf(t, 0) == LogOf(s, 0);
    Stays(ps, s, t, 0, Doing(KnownOf(r, true, true, true), Do(Store(Claim, CLAIM), AfterReverseClaim())));
  }

  /** Without the rule that runs do not overlap, a reverse session can hold both a claim and a
      refund outbox. The refund run acts while the reverse run is about to store its claim; either
      may store first. */
  lemma OverlapStoresBoth(ps: Runs, claimFirst: bool) returns (t: Trace, a: nat, b: nat)
    requires ps(0) == REVERSE && ps(1) == REFUNDER
    ensures Execution(ps, t)
    ensures After(t).claim == Complete(CLAIM) && After(t).refund == Complete(REFUND)
    ensures a < |t| && b < |t| && (a < b <==> claimFirst)
    ensures t[a] == Act(0, CreateOutbox(Claim, CLAIM, CreatedNew))
      && t[b] == Act(1, CreateOutbox(Refund, REFUND, CreatedNew))
  {
    hide Behaviour, Execution, Follows, IsAt, Advance, Step, CreateReady, Holding;
    var r := SessionRecord(LightningToDepix);
    var k := KnownOf(r, true, true, true);
    var l := NewKnown(r).(fundingBox := Some(FUNDING));
    var s := BothUpToStore(ps);
    if claimFirst {
      var u := Stores(ps, s, 0, r, k, CLAIM, AfterReverseClaim());
      assert LogOf(u, 1) == LogOf(s, 1);
      Stays(ps, s, u, 1, Doing(l, Do(Store(Refund, REFUND), Do(ReportRefund, End))));
      t := Stores(ps, u, 1, r, l, REFUND, Do(ReportRefund, End));
      a, b := |s|, |u|;
    } else {
      var u := Stores(ps, s, 1, r, l, REFUND, Do(ReportRefund, End));
      assert LogOf(u, 0) == LogOf(s, 0);
      Stays(ps, s, u, 0, Doing(k, Do(Store(Claim, CLAIM), AfterReverseClaim())));
      t := Stores(ps, u, 0, r, k, CLAIM, AfterReverseClaim());
      a, b := |u|, |s|;
    }
  }

  lemma SecondSteps(r: Record)
    requires r == SessionRecord(LightningToDepix)
    ensures Asks(REVERSE, Loading, ReadRecovery(Got(r))) && Step(REVERSE, Loading, ReadRecovery(Got(r))) == Loaded(r)
    ensures Asks(REVERSE, Loaded(r), Lookup(r.hash, Found(HELD)))
    ensures Step(REVERSE, Loaded(r), Lookup(r.hash, Found(HELD)))
         == Doing(NewKnown(r).(invoice := Some(HELD)), Do(FindClaim, End))
  {
    hide Step, Asks;
    LoadingSteps(REVERSE);
    LookupSteps(REVERSE, NewKnown(r), FindInvoice, End);
  }

  lemma SecondMayLookUp(log: Log, r: Record)
    requires ReadRecovery(Got(r)) in log && r == SessionRecord(LightningToDepix)
    ensures Holding(REVERSE, log, r) && Allowed(REVERSE, log, Lookup(r.hash, Found(HELD)))
  {
    assert Holding(REVERSE, log, r);
  }

  /** A second reverse run that starts on the held session, before anything is stored. */
  lemma SecondRunOpens(ps: Runs, s: Trace, r: Record) returns (t: Trace)
    requires Behaviour(ps, s) && ps(1) == REVERSE && r == SessionRecord(LightningToDepix)
    requires After(s).recovery == Complete(r) && After(s).hold == Hold(InvoiceState.Accepted) && LogOf(s, 1) == []
    ensures Goes(ps, s, 1, t) && After(t) == After(s)
    ensures Holding(ps(1), LogOf(t, 1), r) && NoFundingSent(LogOf(t, 1))
    ensures Stands(ps, t, 1, Doing(NewKnown(r).(invoice := Some(HELD)), Do(FindClaim, End)))
  {
    hide Behaviour, Execution, Follows, IsAt, Allowed, Step, Asks, Advance, MatchesRequest, AfterLoading, OnLookup;
    NotStarted(ps, s, 1);
    SecondSteps(r);
    var u := Looks(ps, s, 1, Loading, ReadRecovery(Got(r)));
    SecondMayLookUp(LogOf(u, 1), r);
    t := Acts(ps, u, 1, Loaded(r), Lookup(r.hash, Found(HELD)));
    assert Holding(ps(1), LogOf(t, 1), r);
  }

  function SecondKnown(r: Record): Known {
    NewKnown(r).(invoice := Some(HELD), started := true)
  }

  lemma SecondAdvances(r: Record)
    ensures Advance(REVERSE, SecondKnown(r), FreshPlan(REVERSE))
        == Doing(SecondKnown(r), Do(SeeHold, AfterReverseHold()))
  {
    var k := SecondKnown(r);
    AdvancePast(REVERSE, k, Phase(OutputPendingPhase), Do(PayInvoice, Do(SeeHold, AfterReverseHold())));
    AdvancePast(REVERSE, k, PayInvoice, Do(SeeHold, AfterReverseHold()));
    AdvanceTo(REVERSE, k, SeeHold, AfterReverseHold());
  }

  /** It fails to see the hold. */
  lemma SecondRunFails(ps: Runs, s: Trace, r: Record) returns (t: Trace)
    requires ps(1) == REVERSE && r == SessionRecord(LightningToDepix) && Holding(ps(1), LogOf(s, 1), r)
    requires Stands(ps, s, 1, Doing(SecondKnown(r), Do(SeeHold, AfterReverseHold()))) && NoFundingSent(LogOf(s, 1))
    ensures Goes(ps, s, 1, t) && After(t) == After(s) && Stands(ps, t, 1, CleaningUp(r)) && |s| < |t|
    ensures NoFundingSent(LogOf(t, 1))
  {
    hide Behaviour, Execution, Follows, IsAt, Allowed, Step, Asks, Advance, MatchesRequest, Goes, Stands;
    SeesNothingAllowed(ps(1), LogOf(s, 1), r);
    HoldSteps(REVERSE, SecondKnown(r), AfterReverseHold());
    t := Acts(ps, s, 1, Doing(SecondKnown(r), Do(SeeHold, AfterReverseHold())), ObserveAccepted(r.hash, None));
  }

  /** It looks again to clean up, and cancels. */
  lemma SecondRunCancels(ps: Runs, s: Trace, r: Record) returns (t: Trace)
    requires ps(1) == REVERSE && r == SessionRecord(LightningToDepix) && Stands(ps, s, 1, CleaningUp(r))
    requires Holding(ps(1), LogOf(s, 1), r) && ReadOutbox(Funding, Missing) in LogOf(s, 1)
    requires NoFundingSent(LogOf(s, 1)) && After(s).hold == Hold(InvoiceState.Accepted)
    ensures Goes(ps, s, 1, t) && |s| < |t| && t[|t| - 1] == Act(1, CancelHold("hash", true, true))
  {
    hide Behaviour, Execution, Follows, IsAt, Allowed, Step, Asks, Advance, MatchesRequest;
    SeeingIsAllowed(ps(1), LogOf(s, 1), r, HELD);
    CleanupSteps(REVERSE, r);
    var u := Acts(ps, s, 1, CleaningUp(r), ObserveAccepted(r.hash, Some(HELD)));
    CancelIsAllowed(ps(1), LogOf(u, 1), r);
    t := Acts(ps, u, 1, Canceling(r), CancelHold(r.hash, true, true));
  }

  lemma SeesNothingAllowed(p: Params, log: Log, r: Record)
    requires Holding(p, log, r) && !p.kind.RefundRun?
    ensures Allowed(p, log, ObserveAccepted(r.hash, None))
  {
  }

  lemma CancelIsAllowed(p: Params, log: Log, r: Record)
    requires Holding(p, log, r) && !p.kind.RefundRun? && NoFundingSent(log)
    requires ReadOutbox(Funding, Missing) in log && ObserveAccepted(r.hash, Some(HELD)) in log
    ensures Allowed(p, log, CancelHold(r.hash, true, true))
  {
  }

  /** Without the same rule, one run can cancel the hold after another broadcast the funding:
      it read the funding outbox as missing before the other stored it. */
  lemma OverlapCancelsFunded(ps: Runs) returns (t: Trace, m: nat)
    requires ps(0) == REVERSE && ps(1) == REVERSE
    ensures Execution(ps, t) && m < |t| - 1
    ensures t[m] == Act(0, Broadcast(Funding, FUNDING, true))
    ensures t[|t| - 1] == Act(1, CancelHold("hash", true, true))
  {
    hide Behaviour, Execution, Follows, IsAt, Advance, Step, SawHold, ReverseTimed;
    var r := SessionRecord(LightningToDepix);
    var s := ReverseUpToHold(ps);
    var u := SecondRunOpens(ps, s, r);
    SecondAdvances(r);
    var v := FindsNothing(ps, u, 1, NewKnown(r).(invoice := Some(HELD)));
    assert Holding(ps(1), LogOf(v, 1), r) && LogOf(v, 0) == LogOf(s, 0);
    Stays(ps, s, v, 0, Doing(KnownOf(r, false, false, true), AfterReverseHold()));
    var w := ReverseStoresFunding(ps, v);
    assert Holding(ps(0), LogOf(w, 0), r);
    var x := ReverseSendsFunding(ps, w);
    assert LogOf(x, 1) == LogOf(w, 1) == LogOf(v, 1);
    Stays(ps, v, x, 1, Doing(SecondKnown(r), Do(SeeHold, AfterReverseHold())));
    var y := SecondRunFails(ps, x, r);
    t := SecondRunCancels(ps, y, r);
    m := |w|;
  }

  // A forward session that gets stranded.

  const FORWARD := RunParams(ForwardRun, true)

  lemma EdgeIsAsked(p: Params, k: Known, phase: SwapPhase, rest: Tasks)
    requires PhaseTransition(phase).Some?
    requires PhaseEdge(PhaseTransition(phase).value.0, PhaseTransition(phase).value.1)
    ensures var (from, to) := PhaseTransition(phase).value;
      && OnRow(p, k, phase, Some(from), rest) == Doing(k, Do(Task.Move(phase, from, to), rest))
      && CanTransitionTo(from, to)
  {
  }

  /** The durable observer moves the row. */
  lemma Moves(ps: Runs, t: Trace, i: nat, r: Record, k: Known, phase: SwapPhase, rest: Tasks) returns (u: Trace)
    requires Stands(ps, t, i, Doing(k, Do(Phase(phase), rest))) && ps(i).core && Holding(ps(i), LogOf(t, i), r)
    requires PhaseTransition(phase).Some? && PhaseTransition(phase).value.0 == After(t).row
    requires PhaseEdge(After(t).row, PhaseTransition(phase).value.1)
    requires RowReady(ps(i), LogOf(t, i), r, PhaseTransition(phase).value.1)
    ensures var to := PhaseTransition(phase).value.1;
      && Goes(ps, t, i, u) && After(u) == After(t).(row := to) && RowReached(LogOf(u, i), StateRank(to))
      && Stands(ps, u, i, if phase.OutputSettledPhase? then Doing(k, Do(ConsumeHeld(true), rest))
                          else Advance(ps(i), k, rest))
  {
    hide Behaviour, Execution, Follows, IsAt, Allowed, Step, Asks, Advance, MatchesRequest, RowReady, Holding, Goes,
      Stands;
    var (from, to) := PhaseTransition(phase).value;
    PhaseSteps(ps(i), k, phase, rest);
    MoveSteps(ps(i), k, phase, from, to, rest);
    EdgeIsAsked(ps(i), k, phase, rest);
    MoveIsAllowed(ps(i), LogOf(t, i), LogOf(t, i) + [ReadRow(Some(from))], r, from, to);
    u := LooksThenActs(ps, t, i, Doing(k, Do(Phase(phase), rest)), ReadRow(Some(from)),
                       Transition(from, to, true, true));
  }

  lemma MoveIsAllowed(p: Params, before: Log, log: Log, r: Record, from: SwapState, to: SwapState)
    requires Extends(before, log) && Holding(p, before, r) && RowReady(p, before, r, to)
    requires p.core && PhaseEdge(from, to) && ReadRow(Some(from)) in log
    ensures Allowed(p, log, Transition(from, to, true, true))
  {
    RowReadyGrows(p, before, log, r, to);
    assert Holding(p, log, r);
  }

  /** A forward run up to its invoice and its look for files. */
  lemma ForwardOpens(ps: Runs) returns (t: Trace)
    requires ps(0) == FORWARD
    ensures var r := SessionRecord(DepixToLightning);
      && Execution(ps, t) && After(t) == Initial.(recovery := Complete(r), hold := Hold(InvoiceState.Open))
      && Stands(ps, t, 0, Doing(KnownOf(r, false, false, false), ForwardPlan()))
      && Holding(ps(0), LogOf(t, 0), r) && StartedOpen(LogOf(t, 0), r)
      && ReadOutbox(Claim, Missing) in LogOf(t, 0) && ReadOutbox(Funding, Missing) in LogOf(t, 0)
    ensures forall j: nat {:trigger LogOf(t, j)} :: j != 0 ==> LogOf(t, j) == []
  {
    hide Behaviour, Execution, Follows, IsAt, Advance, Step;
    var r := SessionRecord(DepixToLightning);
    NothingHappened(ps);
    NotStarted(ps, [], 0);
    t := Prepares(ps, [], 0, ForwardRun);
    t := Invoices(ps, t, 0, r);
    AdvanceTo(FORWARD, KnownOf(r, false, false, false), ForwardHeight, ForwardPlan().rest);
    t := FindsNothing(ps, t, 0, NewKnown(r).(invoice := Some(OPEN)));
  }

  /** Its refund height leaves room. */
  lemma TimesForward(ps: Runs, s: Trace, r: Record) returns (t: Trace)
    requires ps(0) == FORWARD && r == SessionRecord(DepixToLightning)
    requires Stands(ps, s, 0, Doing(KnownOf(r, false, false, false), ForwardPlan()))
    ensures Goes(ps, s, 0, t) && After(t) == After(s) && ForwardTimed(ps(0), LogOf(t, 0), r)
    ensures Stands(ps, t, 0, Doing(KnownOf(r, false, false, false), Do(FindFunding, AfterForwardFunding())))
  {
    hide Behaviour, Execution, Follows, IsAt, Advance;
    var k := KnownOf(r, false, false, false);
    AdvanceTo(FORWARD, k, FindFunding, AfterForwardFunding());
    assert Timing.ValidateForwardTiming(1, 960, None).Ok?;
    t := Looks(ps, s, 0, Doing(k, ForwardPlan()), Height(Some(40)));
  }

  function ForwardStored(): Tasks {
    Do(Send(Funding, FUNDING), Do(SeeFunding(FUNDING, false), Do(Phase(InputLockedPhase), AfterForwardFunding())))
  }

  /** It stores its funding transaction. */
  lemma ForwardStoresFunding(ps: Runs, s: Trace, r: Record) returns (t: Trace)
    requires ps(0) == FORWARD && r == SessionRecord(DepixToLightning) && Holding(ps(0), LogOf(s, 0), r)
    requires Stands(ps, s, 0, Doing(KnownOf(r, false, false, false), ForwardPlan()))
    requires After(s).funding.Absent? && After(s).row == SwapState.Created
    ensures Goes(ps, s, 0, t) && After(t) == After(s).(funding := Complete(FUNDING))
    ensures ForwardTimed(ps(0), LogOf(t, 0), r) && HoldsOutbox(LogOf(t, 0), Funding, FUNDING)
    ensures Stands(ps, t, 0, Doing(KnownOf(r, true, false, false), Do(Phase(InputFundingPhase), ForwardStored())))
  {
    hide Behaviour, Execution, Follows, IsAt, Allowed, Step, Asks, Advance, MatchesRequest, ForwardTimed, FundingReady;
    var k := KnownOf(r, false, false, false);
    var u := TimesForward(ps, s, r);
    var v := PlansFunding(ps, u, 0, k, AfterForwardFunding());
    ForwardTimedGrows(ps(0), LogOf(u, 0), LogOf(v, 0), r);
    TimedIsReady(LogOf(v, 0), r);
    AdvanceTo(FORWARD, KnownOf(r, true, false, false), Phase(InputFundingPhase), ForwardStored());
    t := Stores(ps, v, 0, r, k, FUNDING, AfterForwardFunding());
    ForwardTimedGrows(ps(0), LogOf(v, 0), LogOf(t, 0), r);
  }

  lemma TimedIsReady(log: Log, r: Record)
    requires ForwardTimed(FORWARD, log, r)
    ensures CreateReady(FORWARD, log, r, Funding, FUNDING)
  {
    hide ForwardTimed;
  }

  /** It records the funding as stored. */
  lemma ForwardRecordsFunding(ps: Runs, s: Trace, r: Record) returns (t: Trace)
    requires ps(0) == FORWARD && Holding(ps(0), LogOf(s, 0), r) && HoldsOutbox(LogOf(s, 0), Funding, FUNDING)
    requires Stands(ps, s, 0, Doing(KnownOf(r, true, false, false), Do(Phase(InputFundingPhase), ForwardStored())))
    requires After(s).row == SwapState.Created
    ensures Goes(ps, s, 0, t) && After(t) == After(s).(row := InputFunding) && RowReached(LogOf(t, 0), 1)
    ensures Stands(ps, t, 0, Doing(KnownOf(r, true, false, false), ForwardStored()))
  {
    hide Behaviour, Execution, Follows, IsAt, Allowed, Step, Asks, Advance, MatchesRequest, RowReached, Goes, Stands;
    var k := KnownOf(r, true, false, false);
    assert RowReady(ps(0), LogOf(s, 0), r, InputFunding);
    AdvanceTo(FORWARD, k, Send(Funding, FUNDING), ForwardStored().rest);
    t := Moves(ps, s, 0, r, k, InputFundingPhase, ForwardStored());
  }

  /** It broadcasts the funding and sees it. */
  lemma ForwardSendsFunding(ps: Runs, s: Trace, r: Record) returns (t: Trace)
    requires ps(0) == FORWARD && Holding(ps(0), LogOf(s, 0), r) && HoldsOutbox(LogOf(s, 0), Funding, FUNDING)
    requires Stands(ps, s, 0, Doing(KnownOf(r, true, false, false), ForwardStored())) && RowReached(LogOf(s, 0), 1)
    ensures Goes(ps, s, 0, t) && After(t) == After(s) && SawFunding(LogOf(t, 0), "funding", 0)
    ensures HoldsOutbox(LogOf(t, 0), Funding, FUNDING)
    ensures Stands(ps, t, 0, Doing(KnownOf(r, true, true, false), Do(Phase(InputLockedPhase), AfterForwardFunding())))
  {
    hide Behaviour, Execution, Follows, IsAt, Allowed, Step, Asks, Advance, MatchesRequest, RowReached, Goes, Stands;
    assert BroadcastReady(ps(0), LogOf(s, 0), r, Funding, FUNDING);
    AdvanceTo(FORWARD, KnownOf(r, true, true, false), Phase(InputLockedPhase), AfterForwardFunding());
    t := SendsFunding(ps, s, 0, r, KnownOf(r, true, false, false), Do(Phase(InputLockedPhase), AfterForwardFunding()));
  }

  /** It records the funding as locked. */
  lemma ForwardLocksFunding(ps: Runs, s: Trace, r: Record) returns (t: Trace)
    requires ps(0) == FORWARD && Holding(ps(0), LogOf(s, 0), r) && HoldsOutbox(LogOf(s, 0), Funding, FUNDING)
    requires Stands(ps, s, 0, Doing(KnownOf(r, true, true, false), Do(Phase(InputLockedPhase), AfterForwardFunding())))
    requires SawFunding(LogOf(s, 0), "funding", 0) && After(s).row == InputFunding
    ensures Goes(ps, s, 0, t) && After(t) == After(s).(row := InputLocked)
    ensures Stands(ps, t, 0, Doing(KnownOf(r, true, true, false), AfterForwardFunding()))
  {
    hide Behaviour, Execution, Follows, IsAt, Allowed, Step, Asks, Advance, MatchesRequest, RowReached, Goes, Stands;
    var k := KnownOf(r, true, true, false);
    assert RowReady(ps(0), LogOf(s, 0), r, InputLocked);
    AdvanceTo(FORWARD, k, Phase(OutputPendingPhase), AfterForwardFunding().rest);
    t := Moves(ps, s, 0, r, k, InputLockedPhase, AfterForwardFunding());
  }

  lemma OpeningStays(before: Log, after: Log, r: Record)
    requires Extends(before, after) && StartedOpen(before, r)
    ensures StartedOpen(after, r)
  {
  }

  /** A forward run up to the point where its funding is locked. */
  lemma ForwardUpToLock(ps: Runs) returns (t: Trace)
    requires ps(0) == FORWARD
    ensures var r := SessionRecord(DepixToLightning);
      && Execution(ps, t)
      && After(t) == Initial.(recovery := Complete(r), hold := Hold(InvoiceState.Open),
                              funding := Complete(FUNDING), row := InputLocked)
      && Stands(ps, t, 0, Doing(KnownOf(r, true, true, false), AfterForwardFunding()))
      && Holding(ps(0), LogOf(t, 0), r) && StartedOpen(LogOf(t, 0), r) && ForwardTimed(ps(0), LogOf(t, 0), r)
      && HoldsOutbox(LogOf(t, 0), Funding, FUNDING) && SawFunding(LogOf(t, 0), "funding", 0)
      && ReadOutbox(Claim, Missing) in LogOf(t, 0)
    ensures forall j: nat {:trigger LogOf(t, j)} :: j != 0 ==> LogOf(t, j) == []
  {
    hide Behaviour, Execution, Follows, IsAt, Allowed, Step, Asks, Advance, MatchesRequest, ForwardTimed, RowReached,
      StartedOpen;
    var r := SessionRecord(DepixToLightning);
    var s := ForwardOpens(ps);
    var u := ForwardStoresFunding(ps, s, r);
    assert Holding(ps(0), LogOf(u, 0), r);
    var v := ForwardRecordsFunding(ps, u, r);
    assert Holding(ps(0), LogOf(v, 0), r) && HoldsOutbox(LogOf(v, 0), Funding, FUNDING);
    var w := ForwardSendsFunding(ps, v, r);
    assert Holding(ps(0), LogOf(w, 0), r);
    t := ForwardLocksFunding(ps, w, r);
    ForwardTimedGrows(ps(0), LogOf(u, 0), LogOf(t, 0), r);
    OpeningStays(LogOf(s, 0), LogOf(t, 0), r);
  }

  lemma ForwardMayPay(p: Params, log: Log, r: Record)
    requires p == FORWARD && HoldsOutbox(log, Funding, FUNDING)
    requires SawFunding(log, "funding", 0) && RowReached(log, 3) && StartedOpen(log, r) && ForwardTimed(p, log, r)
    ensures PayReady(p, log, r, 1000)
  {
  }

  /** It records the payment as pending and pays. */
  lemma ForwardPays(ps: Runs, s: Trace, r: Record) returns (t: Trace)
    requires ps(0) == FORWARD && r == SessionRecord(DepixToLightning) && Holding(ps(0), LogOf(s, 0), r)
    requires Stands(ps, s, 0, Doing(KnownOf(r, true, true, false), AfterForwardFunding()))
    requires HoldsOutbox(LogOf(s, 0), Funding, FUNDING) && SawFunding(LogOf(s, 0), "funding", 0)
    requires StartedOpen(LogOf(s, 0), r) && ForwardTimed(ps(0), LogOf(s, 0), r)
    requires After(s).row == InputLocked && After(s).hold == Hold(InvoiceState.Open) && After(s).payment.None?
    ensures Goes(ps, s, 0, t)
    ensures After(t) == After(s).(row := OutputPending, hold := Hold(InvoiceState.Accepted), payment := Some(InFlight))
    ensures Stands(ps, t, 0, Doing(KnownOf(r, true, true, false), AfterForwardPay()))
  {
    hide Behaviour, Execution, Follows, IsAt, Advance, Step, ForwardTimed, RowReached, StartedOpen, PayReady, Allowed,
      Asks, MatchesRequest, Stands;
    var k := KnownOf(r, true, true, false);
    AdvanceTo(FORWARD, k, PayInvoice, AfterForwardPay());
    AdvanceTo(FORWARD, k, SeeHold, AfterForwardPay().rest);
    var u := Moves(ps, s, 0, r, k, OutputPendingPhase, AfterForwardFunding().rest);
    ForwardFactsGrow(ps(0), LogOf(s, 0), LogOf(u, 0), r);
    ForwardMayPay(ps(0), LogOf(u, 0), r);
    assert Holding(ps(0), LogOf(u, 0), r);
    t := Pays(ps, u, 0, r, k, AfterForwardPay());
  }

  lemma ForwardFactsGrow(p: Params, before: Log, after: Log, r: Record)
    requires Extends(before, after) && HoldsOutbox(before, Funding, FUNDING) && SawFunding(before, "funding", 0)
    requires StartedOpen(before, r) && ForwardTimed(p, before, r)
    ensures HoldsOutbox(after, Funding, FUNDING) && SawFunding(after, "funding", 0)
    ensures StartedOpen(after, r) && ForwardTimed(p, after, r)
  {
    ForwardTimedGrows(p, before, after, r);
  }

  lemma SettleIsAllowed(p: Params, log: Log, r: Record)
    requires p == FORWARD && Holding(p, log, r) && ObserveAccepted(r.hash, Some(HELD)) in log
    requires HoldsOutbox(log, Funding, FUNDING) && SawFunding(log, "funding", 0)
    ensures Allowed(p, log, SettleHold(r.hash, r.preimage, true, true))
  {
    assert SettleReady(p, log, r);
  }

  lemma TrackIsAllowed(p: Params, log: Log, r: Record)
    requires Holding(p, log, r) && SettleHold(r.hash, r.preimage, true, true) in log
    ensures Allowed(p, log, Track(r.hash, Some(Payment(Succeeded, Some(r.preimage)))))
  {
  }

  /** It settles the hold. */
  lemma ForwardSettles(ps: Runs, s: Trace, r: Record) returns (t: Trace)
    requires ps(0) == FORWARD && Holding(ps(0), LogOf(s, 0), r)
    requires Stands(ps, s, 0, Doing(KnownOf(r, true, true, true), AfterForwardPay().rest))
    requires HoldsOutbox(LogOf(s, 0), Funding, FUNDING) && SawFunding(LogOf(s, 0), "funding", 0)
    requires ObserveAccepted(r.hash, Some(HELD)) in LogOf(s, 0)
    requires After(s).hold == Hold(InvoiceState.Accepted) && After(s).payment.Some?
    ensures Goes(ps, s, 0, t) && SettleHold(r.hash, r.preimage, true, true) in LogOf(t, 0)
    ensures After(t) == After(s).(hold := Hold(InvoiceState.Settled))
    ensures Stands(ps, t, 0, Doing(KnownOf(r, true, true, true), AfterForwardPay().rest.rest))
  {
    hide Behaviour, Execution, Follows, IsAt, Allowed, Step, Asks, Advance, MatchesRequest, Goes, Stands;
    var k := KnownOf(r, true, true, true);
    AdvanceTo(FORWARD, k, Task.TrackSuccess, AfterForwardTrack());
    SettleSteps(FORWARD, k, AfterForwardPay().rest.rest);
    SettleIsAllowed(ps(0), LogOf(s, 0), r);
    t := Acts(ps, s, 0, Doing(k, AfterForwardPay().rest), SettleHold(r.hash, r.preimage, true, true));
  }

  /** It sees the payment succeed. */
  lemma ForwardTracks(ps: Runs, s: Trace, r: Record) returns (t: Trace)
    requires ps(0) == FORWARD && Holding(ps(0), LogOf(s, 0), r)
    requires Stands(ps, s, 0, Doing(KnownOf(r, true, true, true), AfterForwardPay().rest.rest))
    requires SettleHold(r.hash, r.preimage, true, true) in LogOf(s, 0) && After(s).hold == Hold(InvoiceState.Settled)
    requires After(s).payment.Some?
    ensures Goes(ps, s, 0, t) && After(t) == After(s).(payment := Some(Succeeded)) && SawPayment(LogOf(t, 0), r)
    ensures Stands(ps, t, 0, Doing(KnownOf(r, true, true, true), AfterForwardTrack()))
  {
    hide Behaviour, Execution, Follows, IsAt, Allowed, Step, Asks, Advance, MatchesRequest, Goes, Stands;
    var k := KnownOf(r, true, true, true);
    AdvanceTo(FORWARD, k, Phase(OutputSettledPhase), AfterForwardTrack().rest);
    TrackSteps(FORWARD, k, Task.TrackSuccess, AfterForwardTrack());
    TrackIsAllowed(ps(0), LogOf(s, 0), r);
    t := HappensThenActs(ps, s, 0, Doing(k, AfterForwardPay().rest.rest), MovePayment(Succeeded),
                         Track(r.hash, Some(Payment(Succeeded, Some(r.preimage)))));
  }

  lemma ConsumeIsAllowed(p: Params, log: Log, r: Record)
    requires p == FORWARD && Holding(p, log, r) && SawPayment(log, r)
    ensures Allowed(p, log, Consume(true, true))
  {
  }

  /** It records the output as settled, then consumes the reservation. */
  lemma ForwardConsumes(ps: Runs, s: Trace, r: Record) returns (t: Trace)
    requires ps(0) == FORWARD && Holding(ps(0), LogOf(s, 0), r) && SawPayment(LogOf(s, 0), r)
    requires Stands(ps, s, 0, Doing(KnownOf(r, true, true, true), AfterForwardTrack()))
    requires After(s).row == OutputPending && After(s).reservation == Held
    ensures Goes(ps, s, 0, t) && RowReached(LogOf(t, 0), 5) && Consume(true, true) in LogOf(t, 0)
    ensures After(t) == After(s).(row := SwapState.OutputSettled, reservation := Consumed)
    ensures Stands(ps, t, 0, Doing(KnownOf(r, true, true, true), AfterForwardTrack().rest))
  {
    hide Behaviour, Execution, Follows, IsAt, Advance, Allowed, RowReached, Step, Asks, MatchesRequest;
    var k, rest := KnownOf(r, true, true, true), AfterForwardTrack().rest;
    AdvanceTo(FORWARD, k, FindFreshClaim, rest.rest);
    ConsumeSteps(FORWARD, k, true, rest);
    var u := Moves(ps, s, 0, r, k, OutputSettledPhase, rest);
    ConsumeIsAllowed(ps(0), LogOf(u, 0), r);
    t := Acts(ps, u, 0, Doing(k, Do(ConsumeHeld(true), rest)), Consume(true, true));
    RowStaysReached(LogOf(u, 0), LogOf(t, 0), 5);
  }

  lemma RowStaysReached(before: Log, after: Log, rank: nat)
    requires Extends(before, after) && RowReached(before, rank)
    ensures RowReached(after, rank)
  {
  }

  lemma ForwardMayClaim(p: Params, log: Log, r: Record)
    requires p == FORWARD && HoldsOutbox(log, Funding, FUNDING) && SawFunding(log, "funding", 0)
    requires SawPayment(log, r) && ReadOutbox(Claim, Missing) in log
    requires RowReached(log, 5) && Consume(true, true) in log
    ensures CreateReady(p, log, r, Claim, CLAIM)
  {
    assert ClaimReady(p, log, r, CLAIM);
  }

  lemma ClaimIsHeld(log: Log)
    requires HoldsOutbox(log, Claim, CLAIM)
    ensures HoldsSome(log, Claim)
  {
  }

  /** It prepares its claim. */
  lemma ForwardPlansClaim(ps: Runs, s: Trace, r: Record) returns (t: Trace)
    requires ps(0) == FORWARD && Holding(ps(0), LogOf(s, 0), r) && SawPayment(LogOf(s, 0), r)
    requires Stands(ps, s, 0, Doing(KnownOf(r, true, true, true), AfterForwardTrack().rest))
    requires HoldsOutbox(LogOf(s, 0), Funding, FUNDING) && SawFunding(LogOf(s, 0), "funding", 0)
    requires RowReached(LogOf(s, 0), 5) && Consume(true, true) in LogOf(s, 0) && After(s).claim.Absent?
    ensures Goes(ps, s, 0, t) && After(t) == After(s) && Holding(ps(0), LogOf(t, 0), r)
    ensures CreateReady(ps(0), LogOf(t, 0), r, Claim, CLAIM) && ReadOutbox(Claim, Missing) in LogOf(t, 0)
    ensures Stands(ps, t, 0,
                   Doing(KnownOf(r, true, true, true), Do(Store(Claim, CLAIM), AfterForwardTrack().rest.rest)))
  {
    hide Behaviour, Execution, Follows, IsAt, Allowed, Step, Asks, Advance, MatchesRequest, RowReached, CreateReady,
      Stands;
    t := PlansClaim(ps, s, 0, KnownOf(r, true, true, true), AfterForwardTrack().rest.rest);
    RowStaysReached(LogOf(s, 0), LogOf(t, 0), 5);
    assert HoldsOutbox(LogOf(t, 0), Funding, FUNDING) && Holding(ps(0), LogOf(t, 0), r);
    ForwardMayClaim(ps(0), LogOf(t, 0), r);
  }

  /** It stores its claim. */
  lemma ForwardStoresClaim(ps: Runs, s: Trace, r: Record) returns (t: Trace)
    requires ps(0) == FORWARD && Holding(ps(0), LogOf(s, 0), r) && SawPayment(LogOf(s, 0), r)
    requires Stands(ps, s, 0, Doing(KnownOf(r, true, true, true), AfterForwardTrack().rest))
    requires HoldsOutbox(LogOf(s, 0), Funding, FUNDING) && SawFunding(LogOf(s, 0), "funding", 0)
    requires RowReached(LogOf(s, 0), 5) && Consume(true, true) in LogOf(s, 0) && After(s).claim.Absent?
    ensures Goes(ps, s, 0, t) && After(t) == After(s).(claim := Complete(CLAIM))
    ensures Stands(ps, t, 0, Doing(KnownOf(r, true, true, true), ClaimPlan(CLAIM, AfterForwardTrack().rest.rest)))
    ensures HoldsSome(LogOf(t, 0), Claim) && ReadOutbox(Claim, Missing) in LogOf(t, 0)
  {
    hide Behaviour, Execution, Follows, IsAt, Allowed, Step, Asks, Advance, MatchesRequest, RowReached, CreateReady,
      HoldsSome, Stands, SawPayment;
    var k, rest := KnownOf(r, true, true, true), AfterForwardTrack().rest.rest;
    AdvanceTo(FORWARD, k, Phase(ClaimPendingPhase), ClaimPlan(CLAIM, rest).rest);
    var u := ForwardPlansClaim(ps, s, r);
    t := Stores(ps, u, 0, r, k, CLAIM, rest);
    ClaimIsHeld(LogOf(t, 0));
  }

  /** A forward run up to the point where its claim is stored. */
  lemma ForwardUpToClaim(ps: Runs) returns (t: Trace)
    requires ps(0) == FORWARD
    ensures var r := SessionRecord(DepixToLightning);
      && Execution(ps, t) && After(t).recovery == Complete(r) && After(t).claim == Complete(CLAIM)
      && After(t).row == SwapState.OutputSettled && Holding(ps(0), LogOf(t, 0), r)
      && Stands(ps, t, 0, Doing(KnownOf(r, true, true, true), ClaimPlan(CLAIM, AfterForwardTrack().rest.rest)))
      && HoldsSome(LogOf(t, 0), Claim) && ReadOutbox(Claim, Missing) in LogOf(t, 0)
    ensures forall j: nat {:trigger LogOf(t, j)} :: j != 0 ==> LogOf(t, j) == []
  {
    hide Behaviour, Execution, Follows, IsAt, Advance, Allowed, Step, ForwardTimed, StartedOpen;
    var r := SessionRecord(DepixToLightning);
    var s := ForwardUpToLock(ps);
    var y := ForwardPays(ps, s, r);
    assert Holding(ps(0), LogOf(y, 0), r);
    AdvanceTo(FORWARD, KnownOf(r, true, true, true), Task.SettleInvoice, AfterForwardPay().rest.rest);
    var u := SeesHold(ps, y, 0, r, KnownOf(r, true, true, false), AfterForwardPay().rest);
    assert Holding(ps(0), LogOf(u, 0), r) && HoldsOutbox(LogOf(u, 0), Funding, FUNDING);
    var x := ForwardSettles(ps, u, r);
    assert Holding(ps(0), LogOf(x, 0), r);
    var v := ForwardTracks(ps, x, r);
    assert Holding(ps(0), LogOf(v, 0), r) && HoldsOutbox(LogOf(v, 0), Funding, FUNDING);
    var w := ForwardConsumes(ps, v, r);
    assert Holding(ps(0), LogOf(w, 0), r) && HoldsOutbox(LogOf(w, 0), Funding, FUNDING);
    t := ForwardStoresClaim(ps, w, r);
  }

  /** The stranded state is reachable: the run crashes right there. */
  lemma StrandedReachable(ps: Runs) returns (t: Trace)
    requires ps(0) == FORWARD
    ensures Execution(ps, t) && Stranded(After(t)) && After(t).recovery == Complete(SessionRecord(DepixToLightning))
  {
    t := ForwardUpToClaim(ps);
  }

  /** So is a session that can be finished: the run crashes one row transition later. */
  lemma ResumableReachable(ps: Runs) returns (t: Trace)
    requires (forall j :: ps(j).core) && ps(0) == FORWARD && ps(1) == FORWARD
    ensures Execution(ps, t) && Resumable(ps, t, 1)
  {
    hide Behaviour, Follows, IsAt, Allowed, Step;
    var r := SessionRecord(DepixToLightning);
    var s := ForwardUpToClaim(ps);
    t := Moves(ps, s, 0, r, KnownOf(r, true, true, true), ClaimPendingPhase,
               ClaimPlan(CLAIM, AfterForwardTrack().rest.rest).rest);
  }
}
