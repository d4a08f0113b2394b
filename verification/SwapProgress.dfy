/** When runs get to their end: replays whose answers cooperate, and files whose writer crashed. */
module SwapProgress {
  import opened Wrappers
  import opened Settlement
  import opened SwapCalls
  import opened SwapPlan
  import opened SwapFailure
  import opened SwapWorld
  import opened SwapSafety
  import opened SwapTheorems
  import opened SwapEffects
  import opened SwapReplay
  import opened SwapResume

  // Replays whose answers cooperate.

  /** The accepted hold leaves enough headroom over the tip. */
  predicate Roomy(p: Params, at: Point, tip: U64) {
    at.Doing? && at.tasks.Do? && at.tasks.first.SeeTip? ==>
      ValidateAccepted(at.tasks.first.invoice, p.terms.amountSats, tip).None?
  }

  /** An answer that neither reports a failure nor makes the run refuse; whether it is true is up
      to `CallPossible`. */
  predicate Helps(p: Params, r: Record, at: Point, c: Call) {
    match c
    case ReadRecovery(found) => !found.Corrupt?
    case ReadOutbox(_, content) => !content.Corrupt?
    case Lookup(_, answer) =>
      answer.Found? && ValidateInvoiceAmount(answer.invoice, p.terms.amountSats).None? && !answer.invoice.state.Open?
    case Broadcast(_, _, ok) => ok
    case ObserveSpend(_, _, spend) => spend.Some?
    case ObserveAccepted(_, invoice) => invoice.Some? && IsHeld(p, invoice.value)
    case Tip(height) => height.Some? && Roomy(p, at, height.value)
    case SettleHold(_, _, _, ok) => ok
    case Track(_, payment) => payment == Some(Payment(Succeeded, Some(r.preimage)))
    case ReadRow(row) => row.Some?
    case Transition(_, _, _, ok) => ok
    case Consume(_, ok) => ok
    case _ => true
  }

  /** What a replay keeps finding. */
  predicate ReplayWorld(p: Params, w: World, r: Record, c: Outbox, settled: bool) {
    && w.recovery == Complete(r) && w.claim == Complete(c) && (settled ==> w.hold == Hold(InvoiceState.Settled))
    && (p.core ==> w.row in {SwapState.ClaimPending, SwapState.Settled})
  }

  function StageOf(t: Task): nat {
    match t
    case FindInvoice => 1
    case FindClaim => 2
    case Send(_, _) => 3
    case SeeSpend(_, _, _) => 4
    case SeeHold => 5
    case SeeTip(_) => 6
    case SettleInvoice => 7
    case TrackSuccess => 8
    case Phase(phase) => if phase.OutputSettledPhase? then 9 else 11
    case ConsumeHeld(_) => 10
    case Move(_, _, _) => 12
    case ReportReplay(_) => 13
    case _ => 14
  }

  /** A settled hold needs no settlement, and the no-op observer has no row to close. */
  function Skipped(p: Params, settled: bool, stage: nat): nat {
    (if settled && stage >= 8 then 1 else 0) + (if !p.core && stage >= 13 then 4 else 0)
  }

  predicate ReplayOpening(c: Outbox, tasks: Tasks) {
    && tasks.Do?
    && match tasks.first
       case FindInvoice => tasks.rest == End
       case FindClaim => tasks.rest == End
       case Send(_, _) => tasks == ReplayPlan(c)
       case SeeSpend(_, _, _) => tasks == ReplayPlan(c).rest
       case _ => false
  }

  predicate ReplayClosing(p: Params, c: Outbox, settled: bool, tasks: Tasks) {
    && tasks.Do?
    && match tasks.first
       case SeeHold => tasks == AfterReplaySend(c)
       case SeeTip(i) => tasks.rest == AfterReplayHold(c) && IsHeld(p, i) && (settled ==> i.state.Settled?)
       case SettleInvoice => tasks == AfterReplayHold(c) && !settled
       case TrackSuccess => tasks == AfterReplayHold(c).rest
       case Phase(_) => p.core && (tasks == AfterReplayTrack(c) || tasks == AfterReplayTrack(c).rest)
       case ConsumeHeld(moved) => p.core && !moved && tasks.rest == AfterReplayTrack(c).rest
       case Move(phase, from, to) =>
         && p.core && phase.SettledPhase? && from == SwapState.ClaimPending && to == SwapState.Settled
         && tasks.rest == Do(ReportReplay(c), End)
       case ReportReplay(_) => tasks == Do(ReportReplay(c), End)
       case _ => false
  }

  /** Where a replay can be after `n` calls. */
  predicate OnReplay(p: Params, r: Record, c: Outbox, settled: bool, at: Point, n: nat) {
    match at
    case Loading => n == 0
    case Doing(k, tasks) =>
      && k.r == r && !k.started
      && (ReplayOpening(c, tasks)
          || (ReplayClosing(p, c, settled, tasks) && k.spend.Some? && k.spend.value.txid == c.txid))
      && n + Skipped(p, settled, StageOf(tasks.first)) <= StageOf(tasks.first)
    case Finished(outcome) =>
      c.fundingTxid.Some? && outcome == ReplayOutcome(p, c) && n + Skipped(p, settled, 14) <= 14
    case _ => false
  }

  /** A call that is next, possible and helpful. */
  predicate Cooperating(p: Params, w: World, r: Record, c: Outbox, settled: bool, at: Point, n: nat, call: Call) {
    && !p.kind.RefundRun? && MatchesRequest(p, r) && ClaimFits(c) && ReplayWorld(p, w, r, c, settled)
    && OnReplay(p, r, c, settled, at, n) && Asks(p, at, call) && CallPossible(w, call) && Helps(p, r, at, call)
  }

  /** The next call is the one the first task makes. */
  lemma FirstAsks(p: Params, k: Known, tasks: Tasks, call: Call)
    requires tasks.Do? && Asks(p, Doing(k, tasks), call)
    ensures TaskCall(p, k, tasks.first) == Blank(call)
  {
  }

  // One lemma for each task of a replay.

  lemma LoadingGoesOn(p: Params, w: World, r: Record, c: Outbox, settled: bool, call: Call)
    requires Cooperating(p, w, r, c, settled, Loading, 0, call)
    ensures OnReplay(p, r, c, settled, Step(p, Loading, call), 1)
  {
    hide MatchesRequest;
  }

  lemma LookupGoesOn(p: Params, w: World, r: Record, c: Outbox, settled: bool, k: Known, tasks: Tasks, n: nat,
                     call: Call)
    requires Cooperating(p, w, r, c, settled, Doing(k, tasks), n, call) && tasks.first.FindInvoice?
    ensures OnReplay(p, r, c, settled, Step(p, Doing(k, tasks), call), n + 1)
  {
    hide Step, Asks, MatchesRequest;
    FirstAsks(p, k, tasks, call);
    LookupSteps(p, k, FindInvoice, End);
  }

  lemma ClaimGoesOn(p: Params, w: World, r: Record, c: Outbox, settled: bool, k: Known, tasks: Tasks, n: nat,
                    call: Call)
    requires Cooperating(p, w, r, c, settled, Doing(k, tasks), n, call) && tasks.first.FindClaim?
    ensures OnReplay(p, r, c, settled, Step(p, Doing(k, tasks), call), n + 1)
  {
    hide Step, Asks, MatchesRequest, Advance;
    FirstAsks(p, k, tasks, call);
    FindSteps(p, k, FindClaim, Claim, End);
  }

  lemma SendGoesOn(p: Params, w: World, r: Record, c: Outbox, settled: bool, k: Known, tasks: Tasks, n: nat, call: Call)
    requires Cooperating(p, w, r, c, settled, Doing(k, tasks), n, call) && tasks.first.Send?
    ensures OnReplay(p, r, c, settled, Step(p, Doing(k, tasks), call), n + 1)
  {
    hide Step, Asks, MatchesRequest, Advance;
    FirstAsks(p, k, tasks, call);
    SendSteps(p, k, Claim, c, ReplayPlan(c).rest);
    AdvanceTo(p, k, SeeSpend(Claim, c, false), AfterReplaySend(c));
  }

  lemma SpendGoesOn(p: Params, w: World, r: Record, c: Outbox, settled: bool, k: Known, tasks: Tasks, n: nat,
                    call: Call)
    requires Cooperating(p, w, r, c, settled, Doing(k, tasks), n, call) && tasks.first.SeeSpend?
    ensures OnReplay(p, r, c, settled, Step(p, Doing(k, tasks), call), n + 1)
  {
    hide Step, Asks, MatchesRequest, Advance;
    FirstAsks(p, k, tasks, call);
    SeeSpendSteps(p, k, Claim, c, false, AfterReplaySend(c));
    AdvanceTo(p, k.(spend := call.spend), SeeHold, AfterReplayHold(c));
  }

  lemma HoldGoesOn(p: Params, w: World, r: Record, c: Outbox, settled: bool, k: Known, tasks: Tasks, n: nat, call: Call)
    requires Cooperating(p, w, r, c, settled, Doing(k, tasks), n, call) && tasks.first.SeeHold?
    ensures OnReplay(p, r, c, settled, Step(p, Doing(k, tasks), call), n + 1)
  {
    hide Step, Asks, MatchesRequest, Advance;
    FirstAsks(p, k, tasks, call);
    HoldSteps(p, k, AfterReplayHold(c));
  }

  lemma TipGoesOn(p: Params, w: World, r: Record, c: Outbox, settled: bool, k: Known, tasks: Tasks, n: nat, call: Call)
    requires Cooperating(p, w, r, c, settled, Doing(k, tasks), n, call) && tasks.first.SeeTip?
    ensures OnReplay(p, r, c, settled, Step(p, Doing(k, tasks), call), n + 1)
  {
    hide Step, Asks, MatchesRequest, Advance, CallPossible;
    FirstAsks(p, k, tasks, call);
    TipSteps(p, k, tasks.first.invoice, AfterReplayHold(c));
    HeldIsOnReplay(p, r, c, settled, k.(held := Some(tasks.first.invoice), tip := call.height.value), n + 1);
  }

  /** A settled hold is tracked, an accepted one settled first. */
  lemma HeldIsOnReplay(p: Params, r: Record, c: Outbox, settled: bool, k: Known, n: nat)
    requires k.r == r && !k.started && k.spend.Some? && k.spend.value.txid == c.txid
    requires n + Skipped(p, settled, 7) <= 7 && k.held.Some? && (settled ==> k.held.value.state.Settled?)
    ensures OnReplay(p, r, c, settled, Advance(p, k, AfterReplayHold(c)), n)
  {
    hide Advance;
    AdvanceTo(p, k, TrackSuccess, AfterReplayTrack(c));
    if k.held.value.state.Settled? {
      AdvancePast(p, k, SettleInvoice, AfterReplayHold(c).rest);
    } else {
      AdvanceTo(p, k, SettleInvoice, AfterReplayHold(c).rest);
    }
  }

  lemma SettleGoesOn(p: Params, w: World, r: Record, c: Outbox, settled: bool, k: Known, tasks: Tasks, n: nat,
                     call: Call)
    requires Cooperating(p, w, r, c, settled, Doing(k, tasks), n, call) && tasks.first.SettleInvoice?
    ensures OnReplay(p, r, c, settled, Step(p, Doing(k, tasks), call), n + 1)
  {
    hide Step, Asks, MatchesRequest, Advance, CallPossible;
    FirstAsks(p, k, tasks, call);
    SettleSteps(p, k, AfterReplayHold(c).rest);
    AdvanceTo(p, k, TrackSuccess, AfterReplayTrack(c));
  }

  lemma TrackGoesOn(p: Params, w: World, r: Record, c: Outbox, settled: bool, k: Known, tasks: Tasks, n: nat,
                    call: Call)
    requires Cooperating(p, w, r, c, settled, Doing(k, tasks), n, call) && tasks.first.TrackSuccess?
    ensures OnReplay(p, r, c, settled, Step(p, Doing(k, tasks), call), n + 1)
  {
    hide Step, Asks, MatchesRequest, Advance, CallPossible;
    FirstAsks(p, k, tasks, call);
    TrackSteps(p, k, TrackSuccess, AfterReplayTrack(c));
    TrackedIsOnReplay(p, r, c, settled, k, n + 1);
  }

  /** After the payment the durable observer closes the row; the no-op observer reports at once. */
  lemma TrackedIsOnReplay(p: Params, r: Record, c: Outbox, settled: bool, k: Known, n: nat)
    requires k.r == r && !k.started && k.spend.Some? && k.spend.value.txid == c.txid
    requires n + Skipped(p, settled, 9) <= 9
    ensures OnReplay(p, r, c, settled, Advance(p, k, AfterReplayTrack(c)), n)
  {
    hide Advance;
    if p.core {
      AdvanceTo(p, k, Phase(OutputSettledPhase), AfterReplayTrack(c).rest);
    } else {
      AdvancePast(p, k, Phase(OutputSettledPhase), AfterReplayTrack(c).rest);
      AdvancePast(p, k, Phase(SettledPhase), Do(ReportReplay(c), End));
      AdvanceTo(p, k, ReportReplay(c), End);
    }
  }

  lemma PhaseGoesOn(p: Params, w: World, r: Record, c: Outbox, settled: bool, k: Known, tasks: Tasks, n: nat,
                    call: Call)
    requires Cooperating(p, w, r, c, settled, Doing(k, tasks), n, call) && tasks.first.Phase?
    ensures OnReplay(p, r, c, settled, Step(p, Doing(k, tasks), call), n + 1)
  {
    hide Step, Asks, MatchesRequest, Advance, OnRow, CallPossible;
    FirstAsks(p, k, tasks, call);
    ReadIsTrue(w, call);
    PhaseSteps(p, k, tasks.first.phase, tasks.rest);
    RowIsOnReplay(p, r, c, settled, k, tasks, w.row, n);
  }

  lemma ReadIsTrue(w: World, c: Call)
    requires c.ReadRow? && c.row.Some? && CallPossible(w, c)
    ensures c.row.value == w.row
  {
  }

  lemma RowIsOnReplay(p: Params, r: Record, c: Outbox, settled: bool, k: Known, tasks: Tasks, row: SwapState, n: nat)
    requires OnReplay(p, r, c, settled, Doing(k, tasks), n) && tasks.first.Phase?
    requires row in {SwapState.ClaimPending, SwapState.Settled}
    ensures OnReplay(p, r, c, settled, OnRow(p, k, tasks.first.phase, Some(row), tasks.rest), n + 1)
  {
    hide Advance, OnRow;
    RowPassed(p, k, row, tasks.rest);
    AdvanceTo(p, k, ReportReplay(c), End);
  }

  lemma ConsumeGoesOn(p: Params, w: World, r: Record, c: Outbox, settled: bool, k: Known, tasks: Tasks, n: nat,
                      call: Call)
    requires Cooperating(p, w, r, c, settled, Doing(k, tasks), n, call) && tasks.first.ConsumeHeld?
    ensures OnReplay(p, r, c, settled, Step(p, Doing(k, tasks), call), n + 1)
  {
    hide Step, Asks, MatchesRequest, Advance;
    FirstAsks(p, k, tasks, call);
    ConsumeSteps(p, k, false, tasks.rest);
    AdvanceTo(p, k, Phase(SettledPhase), Do(ReportReplay(c), End));
  }

  lemma MoveGoesOn(p: Params, w: World, r: Record, c: Outbox, settled: bool, k: Known, tasks: Tasks, n: nat, call: Call)
    requires Cooperating(p, w, r, c, settled, Doing(k, tasks), n, call) && tasks.first.Move?
    ensures OnReplay(p, r, c, settled, Step(p, Doing(k, tasks), call), n + 1)
  {
    hide Step, Asks, MatchesRequest, Advance;
    FirstAsks(p, k, tasks, call);
    MoveSteps(p, k, SettledPhase, SwapState.ClaimPending, SwapState.Settled, tasks.rest);
    AdvanceTo(p, k, ReportReplay(c), End);
  }

  lemma ReportGoesOn(p: Params, w: World, r: Record, c: Outbox, settled: bool, k: Known, tasks: Tasks, n: nat,
                     call: Call)
    requires Cooperating(p, w, r, c, settled, Doing(k, tasks), n, call) && tasks.first.ReportReplay?
    ensures OnReplay(p, r, c, settled, Step(p, Doing(k, tasks), call), n + 1)
  {
    hide Step, Asks, MatchesRequest;
    FirstAsks(p, k, tasks, call);
    ReportSteps(p, k, ReportReplay(c), ReplayOutcome(p, c), End);
  }

  /** A cooperating answer takes a replay one step on, and no replay is stuck before its end. */
  lemma ReplayStep(p: Params, w: World, r: Record, c: Outbox, settled: bool, at: Point, n: nat, call: Call)
    requires Cooperating(p, w, r, c, settled, at, n, call)
    ensures OnReplay(p, r, c, settled, Step(p, at, call), n + 1)
  {
    if at.Loading? {
      LoadingGoesOn(p, w, r, c, settled, call);
    } else {
      NotFinished(p, at, call);
      DoingGoesOn(p, w, r, c, settled, at.k, at.tasks, n, call);
    }
  }

  lemma NotFinished(p: Params, at: Point, call: Call)
    requires Asks(p, at, call)
    ensures !at.Finished?
  {
  }

  lemma DoingGoesOn(p: Params, w: World, r: Record, c: Outbox, settled: bool, k: Known, tasks: Tasks, n: nat,
                    call: Call)
    requires Cooperating(p, w, r, c, settled, Doing(k, tasks), n, call)
    ensures OnReplay(p, r, c, settled, Step(p, Doing(k, tasks), call), n + 1)
  {
    hide Step, Asks, MatchesRequest, Helps, CallPossible, Skipped;
    match tasks.first
    case FindInvoice => LookupGoesOn(p, w, r, c, settled, k, tasks, n, call);
    case FindClaim => ClaimGoesOn(p, w, r, c, settled, k, tasks, n, call);
    case Send(_, _) => SendGoesOn(p, w, r, c, settled, k, tasks, n, call);
    case SeeSpend(_, _, _) => SpendGoesOn(p, w, r, c, settled, k, tasks, n, call);
    case SeeHold => HoldGoesOn(p, w, r, c, settled, k, tasks, n, call);
    case SeeTip(_) => TipGoesOn(p, w, r, c, settled, k, tasks, n, call);
    case SettleInvoice => SettleGoesOn(p, w, r, c, settled, k, tasks, n, call);
    case TrackSuccess => TrackGoesOn(p, w, r, c, settled, k, tasks, n, call);
    case Phase(_) => PhaseGoesOn(p, w, r, c, settled, k, tasks, n, call);
    case ConsumeHeld(_) => ConsumeGoesOn(p, w, r, c, settled, k, tasks, n, call);
    case Move(_, _, _) => MoveGoesOn(p, w, r, c, settled, k, tasks, n, call);
    case ReportReplay(_) => ReportGoesOn(p, w, r, c, settled, k, tasks, n, call);
    case _ =>
  }

  // Whole replays.

  /** Every call of run `i` was answered helpfully. */
  ghost predicate Cooperates(p: Params, log: Log, r: Record) {
    forall n: nat {:trigger At(n)} :: At(n) && n < |log| ==> Helps(p, r, Where(p, log[..n]), log[n])
  }

  /** The row of a recorded claim only closes. */
  lemma {:induction false} RecordedStays(ps: Runs, t: Trace, n: nat, m: nat)
    requires Behaviour(ps, t) && n <= m <= |t| && After(t[..n]).row in {SwapState.ClaimPending, SwapState.Settled}
    ensures After(t[..m]).row in {SwapState.ClaimPending, SwapState.Settled}
    decreases m - n
  {
    hide Behaviour, Inv, Allowed, Apply, Admissible;
    if n < m {
      var k := m - 1;
      RecordedStays(ps, t, n, k);
      PositionFacts(ps, t, k);
      PositionPossible(ps, t, k);
      if t[k].Act? && t[k].call.Transition? {
        AskedEdge(ps, t[..k], t[k]);
      }
      RecordedStep(After(t[..k]), t[k]);
    }
  }

  lemma AskedEdge(ps: Runs, t: Trace, e: Event)
    requires Admissible(ps, t, e) && e.Act? && e.call.Transition?
    ensures PhaseEdge(e.call.from, e.call.to)
  {
  }

  lemma RecordedStep(w: World, e: Event)
    requires Possible(w, e) && w.row in {SwapState.ClaimPending, SwapState.Settled}
    requires e.Act? && e.call.Transition? ==> PhaseEdge(e.call.from, e.call.to)
    ensures Apply(w, e).row in {SwapState.ClaimPending, SwapState.Settled}
  {
  }

  lemma ReplayWorldStays(ps: Runs, t: Trace, n: nat, m: nat, p: Params, r: Record, c: Outbox, settled: bool)
    requires Behaviour(ps, t) && n <= m <= |t| && ReplayWorld(p, After(t[..n]), r, c, settled)
    ensures ReplayWorld(p, After(t[..m]), r, c, settled)
  {
    hide Behaviour;
    WorldGrows(ps, t, n, m);
    if p.core {
      RecordedStays(ps, t, n, m);
    }
  }

  lemma LogStays(t: Trace, m: nat, i: nat)
    requires m < |t| && !(t[m].Act? && t[m].run == i)
    ensures LogOf(t[..m + 1], i) == LogOf(t[..m], i)
  {
    assert t[..m + 1] == t[..m] + [t[m]];
    SnocSteps(t[..m], t[m]);
    assert LogOf(t[..m + 1], i) == LogOf(t[..m], i) + [];
  }

  lemma PrefixCooperates(p: Params, log: Log, front: Log, r: Record)
    requires Follows(p, log) && Cooperates(p, log, r) && front <= log
    ensures Follows(p, front) && Cooperates(p, front, r)
  {
    hide Helps, Asks;
    forall n: nat | At(n) && n < |front|
      ensures Asks(p, Where(p, front[..n]), front[n]) && Helps(p, r, Where(p, front[..n]), front[n])
    {
      assert front[..n] == log[..n];
    }
  }

  /** The last call of a cooperating run is next and helpful. */
  lemma LastCooperates(p: Params, front: Log, call: Call, r: Record)
    requires Follows(p, front + [call]) && Cooperates(p, front + [call], r)
    ensures Asks(p, Where(p, front), call) && Helps(p, r, Where(p, front), call)
    ensures Where(p, front + [call]) == Step(p, Where(p, front), call)
  {
    hide Helps, Asks;
    var log := front + [call];
    assert At(|front|) && log[..|front|] == front && log[..|log| - 1] == front;
  }

  lemma ReplayActs(ps: Runs, t: Trace, m: nat, i: nat, r: Record, c: Outbox, settled: bool)
    requires Behaviour(ps, t) && m < |t| && t[m].Act? && t[m].run == i
    requires !ps(i).kind.RefundRun? && MatchesRequest(ps(i), r) && ClaimFits(c)
    requires ReplayWorld(ps(i), After(t[..m]), r, c, settled)
    requires Follows(ps(i), LogOf(t[..m + 1], i)) && Cooperates(ps(i), LogOf(t[..m + 1], i), r)
    requires OnReplay(ps(i), r, c, settled, Where(ps(i), LogOf(t[..m], i)), |LogOf(t[..m], i)|)
    ensures OnReplay(ps(i), r, c, settled, Where(ps(i), LogOf(t[..m + 1], i)), |LogOf(t[..m + 1], i)|)
  {
    hide Behaviour, Helps, OnReplay, Step, CallPossible, Follows, Asks, Cooperates, MatchesRequest, ReplayWorld;
    var log, call := LogOf(t[..m], i), t[m].call;
    assert t[..m + 1] == t[..m] + [t[m]];
    SnocSteps(t[..m], t[m]);
    LastCooperates(ps(i), log, call, r);
    PositionPossible(ps, t, m);
    ReplayStep(ps(i), After(t[..m]), r, c, settled, Where(ps(i), log), |log|, call);
    assert OnReplay(ps(i), r, c, settled, Where(ps(i), log + [call]), |log| + 1);
    assert |log + [call]| == |log| + 1;
  }

  /** One event of anyone keeps the replay on its way. */
  lemma ReplayKeeps(ps: Runs, t: Trace, n: nat, k: nat, i: nat, r: Record, c: Outbox, settled: bool)
    requires Behaviour(ps, t) && n <= k < |t| && !ps(i).kind.RefundRun? && MatchesRequest(ps(i), r) && ClaimFits(c)
    requires ReplayWorld(ps(i), After(t[..n]), r, c, settled)
    requires Follows(ps(i), LogOf(t, i)) && Cooperates(ps(i), LogOf(t, i), r)
    requires OnReplay(ps(i), r, c, settled, Where(ps(i), LogOf(t[..k], i)), |LogOf(t[..k], i)|)
    ensures OnReplay(ps(i), r, c, settled, Where(ps(i), LogOf(t[..k + 1], i)), |LogOf(t[..k + 1], i)|)
  {
    hide Behaviour, Helps, OnReplay, Step, CallPossible, Follows, Asks, Cooperates, MatchesRequest, ReplayWorld,
      ClaimFits;
    if t[k].Act? && t[k].run == i {
      LogPrefix(t, k + 1, i);
      PrefixCooperates(ps(i), LogOf(t, i), LogOf(t[..k + 1], i), r);
      ReplayWorldStays(ps, t, n, k, ps(i), r, c, settled);
      ReplayActs(ps, t, k, i, r, c, settled);
    } else {
      LogStays(t, k, i);
    }
  }

  lemma {:induction false} ReplayGoesOn(ps: Runs, t: Trace, n: nat, m: nat, i: nat, r: Record, c: Outbox, settled: bool)
    requires Behaviour(ps, t) && n <= m <= |t| && Fresh(ps, t[..n], i, r, c) && ClaimFits(c)
    requires ReplayWorld(ps(i), After(t[..n]), r, c, settled)
    requires Follows(ps(i), LogOf(t, i)) && Cooperates(ps(i), LogOf(t, i), r)
    ensures OnReplay(ps(i), r, c, settled, Where(ps(i), LogOf(t[..m], i)), |LogOf(t[..m], i)|)
    decreases m - n
  {
    hide *;
    FreshIsSwapRun(ps, t[..n], i, r, c);
    if n == m {
      StartsReplay(ps, t[..n], i, r, c, settled);
    } else {
      var k := m - 1;
      ReplayGoesOn(ps, t, n, k, i, r, c, settled);
      ReplayKeeps(ps, t, n, k, i, r, c, settled);
      assert k + 1 == m;
    }
  }

  lemma FreshIsSwapRun(ps: Runs, t: Trace, i: nat, r: Record, c: Outbox)
    requires Fresh(ps, t, i, r, c)
    ensures !ps(i).kind.RefundRun? && MatchesRequest(ps(i), r)
  {
  }

  lemma StartsReplay(ps: Runs, t: Trace, i: nat, r: Record, c: Outbox, settled: bool)
    requires Fresh(ps, t, i, r, c)
    ensures OnReplay(ps(i), r, c, settled, Where(ps(i), LogOf(t, i)), |LogOf(t, i)|)
  {
  }

  lemma PointOfReplay(p: Params, r: Record, c: Outbox, settled: bool, at: Point, n: nat)
    requires OnReplay(p, r, c, settled, at, n) && ClaimFits(c)
    ensures !HasFailed(at) && (NextCall(p, at).Some? || at == Finished(ReplayOutcome(p, c)))
    ensures n + Skipped(p, settled, 14) <= 14
    ensures n + Skipped(p, settled, 14) == 14 ==> at.Finished?
  {
    hide TaskCall;
  }

  /** From every session that can be finished, in either direction and under either observer,
      whatever the environment and other runs do meanwhile, a new run whose answers cooperate never
      fails: at every point it either still has a call to make or has reported the stored claim.
      It reports after at most fourteen calls, one fewer if the hold was settled already, four
      fewer under the no-op observer. */
  lemma CooperatingReplayFinishes(ps: Runs, t: Trace, n: nat, i: nat, r: Record, c: Outbox)
    requires Behaviour(ps, t) && n <= |t| && Fresh(ps, t[..n], i, r, c) && CanFinish(ps(i), After(t[..n]))
    requires Follows(ps(i), LogOf(t, i)) && Cooperates(ps(i), LogOf(t, i), r)
    ensures c.fundingTxid.Some?
    ensures var at, settled := Where(ps(i), LogOf(t, i)), After(t[..n]).hold == Hold(InvoiceState.Settled);
      && !HasFailed(at) && (NextCall(ps(i), at).Some? || at == Finished(ReplayOutcome(ps(i), c)))
      && |LogOf(t, i)| + Skipped(ps(i), settled, 14) <= 14
      && (|LogOf(t, i)| + Skipped(ps(i), settled, 14) == 14 ==> at.Finished?)
  {
    hide Behaviour, Helps, OnReplay, Step, Follows, Asks, Cooperates, MatchesRequest, Skipped;
    var settled := After(t[..n]).hold == Hold(InvoiceState.Settled);
    FreshClaimFits(ps, t[..n], i, r, c);
    ReplayGoesOn(ps, t, n, |t|, i, r, c, settled);
    assert t[..|t|] == t;
    PointOfReplay(ps(i), r, c, settled, Where(ps(i), LogOf(t, i)), |LogOf(t, i)|);
  }

  /** In particular a forward session under the durable observer: thirteen calls. */
  lemma CooperatingResumeFinishes(ps: Runs, t: Trace, n: nat, i: nat)
    requires Behaviour(ps, t) && n <= |t| && Resumable(ps, t[..n], i)
    requires Follows(ps(i), LogOf(t, i)) && Cooperates(ps(i), LogOf(t, i), After(t[..n]).recovery.value)
    ensures After(t[..n]).claim.value.fundingTxid.Some?
    ensures var at := Where(ps(i), LogOf(t, i));
      !HasFailed(at) && (NextCall(ps(i), at).Some? || at == Finished(ReplayOutcome(ps(i), After(t[..n]).claim.value)))
    ensures |LogOf(t, i)| <= 13 && (|LogOf(t, i)| == 13 ==> Where(ps(i), LogOf(t, i)).Finished?)
  {
    hide Behaviour, Follows, Cooperates, Where, NextCall;
    ResumableCanFinish(ps, t[..n], i);
    CooperatingReplayFinishes(ps, t, n, i, After(t[..n]).recovery.value, After(t[..n]).claim.value);
  }

  // Files whose writer crashed.

  /** Run `j` makes no call from position `n` on. */
  ghost predicate SilentFrom(t: Trace, j: nat, n: nat) {
    forall k :: n <= k < |t| && t[k].Act? ==> t[k].run != j
  }

  /** The recovery record, or an outbox. */
  datatype FileName = RecoveryFile | OutboxFile(path: Kind)

  predicate PartialIn(w: World, f: FileName, j: nat) {
    match f
    case RecoveryFile => w.recovery == Partial(j)
    case OutboxFile(path) => OutboxAt(w, path) == Partial(j)
  }

  lemma OthersLeavePartial(w: World, e: Event, f: FileName, j: nat)
    requires PartialIn(w, f, j) && Possible(w, e) && (e.Act? ==> e.run != j)
    requires e.Act? ==>
      && (e.call.FinishRecovery? ==> w.recovery == Partial(e.run))
      && (e.call.FinishOutbox? ==> OutboxAt(w, e.call.path) == Partial(e.run))
    ensures PartialIn(Apply(w, e), f, j)
  {
  }

  /** A file left half written by a crash stays so: no other run finishes it or replaces it. */
  lemma {:induction false} PartialForever(ps: Runs, t: Trace, n: nat, m: nat, f: FileName, j: nat)
    requires Behaviour(ps, t) && n <= m <= |t| && PartialIn(After(t[..n]), f, j) && SilentFrom(t, j, n)
    ensures PartialIn(After(t[..m]), f, j)
    decreases m - n
  {
    hide Behaviour, Inv, Allowed;
    if n < m {
      PartialForever(ps, t, n, m - 1, f, j);
      PositionFacts(ps, t, m - 1);
      var e := t[m - 1];
      if e.Act? {
        FinisherIsWriter(ps, t[..m - 1], e.run, e.call);
      }
      OthersLeavePartial(After(t[..m - 1]), e, f, j);
    }
  }

  /** A crash during a file write strands the session: nothing is ever reported again over a half
      written record or funding file, no completion over a half written claim, and no refund over
      a half written refund. */
  lemma PartialNeverReports(ps: Runs, t: Trace, n: nat, m: nat, f: FileName, j: nat)
    requires Behaviour(ps, t) && n <= m < |t| && PartialIn(After(t[..n]), f, j) && SilentFrom(t, j, n)
    requires t[m].Act? && t[m].call.Return?
    ensures f != RecoveryFile && f != OutboxFile(Funding)
    ensures f == OutboxFile(Claim) ==> t[m].call.outcome.RefundDone?
    ensures f == OutboxFile(Refund) ==> t[m].call.outcome.Completed?
  {
    hide Behaviour;
    PartialForever(ps, t, n, m, f, j);
    if t[m].call.outcome.Completed? {
      CompletedReportsFiles(ps, t, m);
    } else {
      RefundReportsFiles(ps, t, m);
    }
  }
}
