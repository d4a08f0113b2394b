/** What a log tells about where its run is: which task is next, what the calls before it were, and
    what the run remembers. */
module SwapTells {
  import opened Wrappers
  import opened SwapCalls
  import opened SwapPlan
  import opened SwapFailure

  /** The task a plan lists, for the ones that stand in for it while it is carried out. */
  function Base(t: Task): Task {
    match t
    case SettledFunding(_) => ForwardHeight
    case MakeFunding => FindFunding
    case MakeClaim => FindFreshClaim
    case MakeRefund => FindRefund
    case Store(path, _) => Finding(path)
    case FinishStore(path, _) => Finding(path)
    case Reread(path, _) => Finding(path)
    case SeeFunding(o, _) => SeeFunding(o, false)
    case ConfirmFunding(o) => SeeFunding(o, false)
    case SeeSpend(path, o, _) => SeeSpend(path, o, false)
    case ConfirmSpend(path, o) => SeeSpend(path, o, false)
    case Move(phase, _, _) => Phase(phase)
    case ConsumeHeld(_) => Phase(OutputSettledPhase)
    case SeeTip(_) => SeeHold
    case _ => t
  }

  function Finding(path: Kind): Task {
    match path
    case Funding => FindFunding
    case Claim => FindFreshClaim
    case Refund => FindRefund
  }

  /** What comes after a task: in a refund run, in a swap run that replays its claim, or in one that
      starts from scratch (`anew`), forward or reverse. */
  predicate Linked(p: Params, anew: bool, a: Task, b: Task) {
    match Base(a)
    case ForwardHeight => p.kind.ForwardRun? && anew && b.FindFunding?
    case ReverseHeight => p.kind.ReverseRun? && anew && b.FindFunding?
    case FindFunding =>
      !p.kind.RefundRun? && anew && if p.kind.ReverseRun? then b.FindFreshClaim? else IsPhase(b, OutputPendingPhase)
    case FindFreshClaim =>
      !p.kind.RefundRun? && anew && if p.kind.ReverseRun? then b.SettleInvoice? else IsPhase(b, SettledPhase)
    case Send(path, o) =>
      if path.Funding? then b.SeeFunding? && b.o == o && !b.again
      else b.SeeSpend? && b.path == path && b.o == o && !b.again
    case SeeFunding(_, _) => !p.kind.RefundRun? && anew && IsPhase(b, InputLockedPhase)
    case SeeSpend(path, _, _) =>
      if p.kind.RefundRun? then path.Refund? && IsPhase(b, RefundedPhase)
      else path.Claim? && if !anew then b.SeeHold?
                          else if p.kind.ReverseRun? then b.SettleInvoice? else IsPhase(b, SettledPhase)
    case PayInvoice => !p.kind.RefundRun? && anew && b.SeeHold?
    case SeeHold => !p.kind.RefundRun? && if anew && p.kind.ReverseRun? then b.ReverseHeight? else b.SettleInvoice?
    case SettleInvoice => !p.kind.RefundRun? && b.TrackSuccess?
    case TrackSuccess => !p.kind.RefundRun? && IsPhase(b, OutputSettledPhase)
    case Phase(phase) => PhaseLinked(p, anew, phase, b)
    case TrackFailure => p.kind.RefundRun? && b.LookupCanceled?
    case LookupCanceled => p.kind.RefundRun? && b.NoClaim?
    case NoClaim => p.kind.RefundRun? && b.SomeFunding?
    case SomeFunding => p.kind.RefundRun? && b.PastLockHeight?
    case PastLockHeight => p.kind.RefundRun? && b.FindRefund?
    case FindRefund => p.kind.RefundRun? && b.ReportRefund?
    case _ => false
  }

  predicate IsPhase(t: Task, phase: SwapPhase) {
    t.Phase? && t.phase == phase
  }

  predicate PhaseLinked(p: Params, anew: bool, phase: SwapPhase, b: Task) {
    match phase
    case InputFundingPhase => !p.kind.RefundRun? && anew && b.Send? && b.path.Funding?
    case InputLockedPhase =>
      !p.kind.RefundRun? && anew && if p.kind.ReverseRun? then b.FindFreshClaim? else IsPhase(b, OutputPendingPhase)
    case OutputPendingPhase => !p.kind.RefundRun? && anew && b.PayInvoice?
    case OutputSettledPhase =>
      !p.kind.RefundRun? && if anew && p.kind.ForwardRun? then b.FindFreshClaim? else IsPhase(b, SettledPhase)
    case ClaimPendingPhase => !p.kind.RefundRun? && anew && b.Send? && b.path.Claim?
    case SettledPhase => !p.kind.RefundRun? && if anew then b.Report? else b.ReportReplay?
    case RefundingPhase => p.kind.RefundRun? && b.Send? && b.path.Refund?
    case RefundedPhase => p.kind.RefundRun? && b.ReportRefund?
    case _ => false
  }

  /** Only these end a plan. */
  predicate EndsPlan(t: Task) {
    || t.FindInvoice? || t.MakeInvoice? || t.FindClaim? || t.FindExposure?
    || t.Report? || t.ReportReplay? || t.ReportRefund?
  }

  predicate Ordered(p: Params, anew: bool, tasks: Tasks) {
    tasks.Do?
    && if tasks.rest.End? then EndsPlan(tasks.first)
       else Linked(p, anew, tasks.first, tasks.rest.first) && Ordered(p, anew, tasks.rest)
  }

  predicate Quiet(c: Call) {
    !c.Lookup? && !c.CreateInvoice? && !c.CreateOutbox? && c != ReadOutbox(Claim, Missing)
  }

  /** What the last calls were when a run comes to a task. */
  ghost predicate Fits(p: Params, log: Log, k: Known, t: Task) {
    log != []
    && match t
       case FindInvoice => !p.kind.RefundRun? && !IsFresh(log) && k.invoice.None? && !k.started && !k.exposed
       case MakeInvoice => !p.kind.RefundRun? && !IsFresh(log) && k.invoice.None? && !k.started && !k.exposed
       case FindClaim =>
         && !p.kind.RefundRun? && !IsFresh(log) && (Last(log).Lookup? || Last(log).CreateInvoice?)
         && !k.started && !k.exposed
       case FindExposure =>
         !p.kind.RefundRun? && Last(log) == ReadOutbox(Claim, Missing) && !k.started && !k.exposed
       case ForwardHeight => p.kind.ForwardRun?
       case SettledFunding(h) => p.kind.ForwardRun? && Last(log) == Height(Some(h)) && SettledAtStart(log)
       case ReverseHeight =>
         && p.kind.ReverseRun? && Last(log) == Tip(Some(k.tip)) && k.held.Some?
         && Before(log).ObserveAccepted? && Before(log).invoice == k.held
       case FindFunding =>
         && !p.kind.RefundRun? && Quiet(Last(log))
         && (p.kind.ForwardRun? && Last(log).Height? ==> !SettledAtStart(log))
       case FindFreshClaim => !p.kind.RefundRun? && Quiet(Last(log))
       case FindRefund => p.kind.RefundRun? && Quiet(Last(log))
       case NoClaim => p.kind.RefundRun? && !Last(log).CreateOutbox?
       case SomeFunding => p.kind.RefundRun? && !Last(log).CreateOutbox?
       case Reread(path, o) => Last(log) == CreateOutbox(path, o, AlreadyExists)
       case SeeFunding(o, again) =>
         if again then Last(log) == Confirm(true) && Before(log) == ObserveFunding(o.txid, HtlcVout(o), None)
         else Last(log).Broadcast?
       case ConfirmFunding(o) => Last(log) == ObserveFunding(o.txid, HtlcVout(o), None)
       case SeeSpend(path, o, again) =>
         if again then Last(log) == Confirm(true) && Before(log) == ObserveSpend(path, o, None)
         else Last(log).Broadcast?
       case ConfirmSpend(path, o) => Last(log) == ObserveSpend(path, o, None)
       case SeeTip(i) => Last(log) == ObserveAccepted(k.r.hash, Some(i))
       case Phase(phase) => if p.core then PhaseAsked(log) == phase else Quiet(Last(log))
       case Move(phase, _, next) => p.core && PhaseTransition(phase).Some? && next == PhaseTransition(phase).value.1
       case ConsumeHeld(moved) => p.core && (moved <==> Last(log).Transition?)
       case TrackFailure => p.kind.RefundRun?
       case LookupCanceled => p.kind.RefundRun?
       case PastLockHeight => p.kind.RefundRun?
       case TrackSuccess => !p.kind.RefundRun?
       case _ => true
  }

  /** The run remembers what its log says. */
  ghost predicate Recalls(p: Params, log: Log, k: Known) {
    && RecordIn(log) == Some(k.r)
    && k.funding == LastFunding(log) && k.spend == LastSpend(log)
    && (p.kind.RefundRun? ==> k.fundingBox == LastBox(log))
    && (!p.kind.RefundRun? ==>
          ((k.invoice.Some? && k.invoice.value.state.Settled?) <==> SettledAtStart(log)))
    && (k.started <==> Started(p, log)) && (k.exposed <==> Exposed(p, log))
  }

  ghost predicate Tells(p: Params, log: Log, at: Point) {
    match at
    case Loading => log == []
    case Creating(r) => log == [ReadRecovery(Missing)] && !p.kind.RefundRun?
    case Finishing(r) => log == [ReadRecovery(Missing), CreateRecovery(r, CreatedNew)] && !p.kind.RefundRun?
    case Rereading(r) => log == [ReadRecovery(Missing), CreateRecovery(r, AlreadyExists)] && !p.kind.RefundRun?
    case Doing(k, tasks) =>
      && Ordered(p, IsFresh(log), tasks) && Recalls(p, log, k) && Fits(p, log, k, tasks.first)
      && (tasks.first.Phase? ==> p.core)
    case _ => true
  }

  // Where advancing leads.

  predicate Proves(k: Known) {
    SpendOf(k).verified && FundingOf(k).confirmations != 0
  }

  /** Nothing but silent tasks is left before the report. */
  predicate NearReport(p: Params, anew: bool, t: Task) {
    t.Report?
    || (anew && !p.kind.RefundRun? && !p.core
        && (IsPhase(t, SettledPhase) || (p.kind.ReverseRun? && IsPhase(t, OutputSettledPhase))))
  }

  /** What a silent task can come before. */
  predicate AfterSilent(p: Params, b: Task) {
    match b
    case Phase(_) => !p.core
    case FindFreshClaim => !p.core && !p.kind.RefundRun?
    case TrackSuccess => !p.kind.RefundRun?
    case _ => b.Send? || b.PayInvoice? || b.SeeHold? || b.Report? || b.ReportReplay? || b.ReportRefund?
  }

  lemma PhaseLinks(p: Params, anew: bool, phase: SwapPhase, b: Task)
    requires !p.core && PhaseLinked(p, anew, phase, b)
    ensures AfterSilent(p, b) && (NearReport(p, anew, Phase(phase)) <==> NearReport(p, anew, b))
  {
  }

  lemma ActionLinks(p: Params, anew: bool, a: Task, b: Task)
    requires (a.PayInvoice? || a.SettleInvoice?) && Linked(p, anew, a, b)
    ensures !p.kind.RefundRun? && if a.PayInvoice? then b.SeeHold? else b.TrackSuccess?
  {
  }

  lemma SilentLinks(p: Params, k: Known, anew: bool, a: Task, b: Task)
    requires Silent(p, k, a) && Linked(p, anew, a, b)
    ensures AfterSilent(p, b) && ((a.Phase? && !p.core) || a.PayInvoice? || a.SettleInvoice?)
    ensures (b.Phase? || b.FindFreshClaim?) ==> a.Phase?
    ensures !a.Report? && (NearReport(p, anew, a) <==> NearReport(p, anew, b))
  {
    match a
    case Phase(phase) =>
      assert PhaseLinked(p, anew, phase, b);
      PhaseLinks(p, anew, phase, b);
    case PayInvoice => ActionLinks(p, anew, a, b);
    case SettleInvoice => ActionLinks(p, anew, a, b);
    case _ =>
  }

  lemma SkipFits(p: Params, log: Log, k: Known, a: Task, b: Task)
    requires Silent(p, k, a) && Linked(p, IsFresh(log), a, b) && Fits(p, log, k, a)
    ensures Fits(p, log, k, b)
    ensures !a.Report? && (NearReport(p, IsFresh(log), a) <==> NearReport(p, IsFresh(log), b))
  {
    hide Linked, Silent, NearReport, IsFresh, PhaseAsked, SettledAtStart, HtlcVout;
    SilentLinks(p, k, IsFresh(log), a, b);
  }

  lemma {:induction false} AdvanceTells(p: Params, log: Log, k: Known, tasks: Tasks)
    requires Ordered(p, IsFresh(log), tasks) && Recalls(p, log, k) && Fits(p, log, k, tasks.first)
    ensures Tells(p, log, Advance(p, k, tasks))
    ensures HasFailed(Advance(p, k, tasks)) <==> NearReport(p, IsFresh(log), tasks.first) && !Proves(k)
    ensures HasFailed(Advance(p, k, tasks)) ==> Advance(p, k, tasks) == Fail(k)
  {
    hide Linked, Recalls, Fits, SettledAtStart;
    if Silent(p, k, tasks.first) {
      SkipFits(p, log, k, tasks.first, tasks.rest.first);
      AdvanceTells(p, log, k, tasks.rest);
    }
  }

  // One call more.

  lemma SnocSettled(log: Log, c: Call)
    ensures SettledAtStart(log + [c]) <==>
      SettledAtStart(log) || (c.Lookup? && c.answer.Found? && c.answer.invoice.state.Settled?)
  {
    var next := log + [c];
    assert next[|log|] == c;
    if SettledAtStart(log) {
      var hash, i :| Lookup(hash, Found(i)) in log && i.state.Settled?;
      assert Lookup(hash, Found(i)) in next;
    }
  }

  lemma SnocSays(p: Params, log: Log, c: Call)
    ensures Last(log + [c]) == c && (log != [] ==> Before(log + [c]) == Last(log))
    ensures IsFresh(log + [c]) <==> IsFresh(log) || c == ReadOutbox(Claim, Missing)
    ensures RecordIn(log).Some? ==> RecordIn(log + [c]) == RecordIn(log)
    ensures LastFunding(log + [c]) == if c.ObserveFunding? && c.funding.Some? then c.funding else LastFunding(log)
    ensures LastSpend(log + [c]) == if c.ObserveSpend? && c.spend.Some? then c.spend else LastSpend(log)
    ensures LastBox(log + [c])
      == if c.ReadOutbox? && c.path.Funding? && c.content.Got? then Some(c.content.value) else LastBox(log)
    ensures Started(p, log + [c]) <==> Started(p, log) || Starts(p, log, c)
    ensures Exposed(p, log + [c]) <==> Exposed(p, log) || Exposes(p, log, c)
  {
    hide Starts, Exposes;
    assert (log + [c])[..|log|] == log;
  }

  /** What a call adds to what the run knows. */
  ghost function Learns(p: Params, log: Log, k: Known, c: Call): Known {
    var k2 := k.(started := k.started || Starts(p, log, c), exposed := k.exposed || Exposes(p, log, c));
    match c
    case ObserveFunding(_, _, e) => if e.Some? then k2.(funding := e) else k2
    case ObserveSpend(_, _, e) => if e.Some? then k2.(spend := e) else k2
    case ReadOutbox(path, content) =>
      if p.kind.RefundRun? && path.Funding? && content.Got? then k2.(fundingBox := Some(content.value)) else k2
    case _ => k2
  }

  lemma SnocRecalls(p: Params, log: Log, k: Known, c: Call)
    requires Recalls(p, log, k) && (c.Lookup? ==> p.kind.RefundRun?)
    ensures Recalls(p, log + [c], Learns(p, log, k, c))
  {
    hide IsFresh, SettledAtStart, Starts, Exposes, Started, Exposed;
    SnocSays(p, log, c);
    SnocSettled(log, c);
  }

  /** `k2` holds what `k` holds of the log. */
  predicate SameMemory(k: Known, k2: Known) {
    k2 == k.(held := k2.held, tip := k2.tip)
  }

  lemma SameRecalls(p: Params, log: Log, k: Known, k2: Known)
    requires Recalls(p, log, k) && SameMemory(k, k2)
    ensures Recalls(p, log, k2)
  {
  }

  /** In a refund run nothing depends on whether the claim file was missing. */
  lemma {:induction false} RefundOrdered(p: Params, tasks: Tasks, a: bool, b: bool)
    requires p.kind.RefundRun? && Ordered(p, a, tasks)
    ensures Ordered(p, b, tasks)
  {
    if tasks.rest.Do? {
      RefundOrdered(p, tasks.rest, a, b);
    }
  }

  /** The step is as the log says: it fails exactly on a fatal answer, and the log goes on telling
      where the run is. */
  ghost predicate Judged(p: Params, log: Log, at: Point, c: Call) {
    && (HasFailed(Step(p, at, c)) <==> Fatal(p, log, c))
    && (HasFailed(Step(p, at, c)) ==> Step(p, at, c) == FailPoint(p, log))
    && Tells(p, log + [c], Step(p, at, c))
  }

  lemma ProvenIsKnown(p: Params, log: Log, k: Known)
    requires Recalls(p, log, k)
    ensures Proven(log) <==> Proves(k)
  {
    hide SettledAtStart;
  }

  /** A task is done and the next ones follow. */
  lemma Passes(p: Params, log: Log, k: Known, a: Task, rest: Tasks, c: Call, k2: Known)
    requires Tells(p, log, Doing(k, Do(a, rest))) && rest.Do?
    requires c == ReadOutbox(Claim, Missing) ==> p.kind.RefundRun? || IsFresh(log)
    requires (c.Lookup? ==> p.kind.RefundRun?) && SameMemory(Learns(p, log, k, c), k2)
    requires Fits(p, log + [c], k2, rest.first)
    requires NearReport(p, IsFresh(log), rest.first) <==> Completes(p, log, c)
    ensures Tells(p, log + [c], Advance(p, k2, rest))
    ensures HasFailed(Advance(p, k2, rest)) <==> Completes(p, log, c) && !Proven(log + [c])
    ensures HasFailed(Advance(p, k2, rest)) ==> Advance(p, k2, rest) == FailPoint(p, log)
  {
    hide Linked, Recalls, Fits, SettledAtStart, Completes, Proven, Proves, IsFresh, Learns, SameMemory, FailPoint,
      Starts, Exposes, Fail;
    SnocSays(p, log, c);
    SnocRecalls(p, log, k, c);
    SameRecalls(p, log + [c], Learns(p, log, k, c), k2);
    ProvenIsKnown(p, log + [c], k2);
    if p.kind.RefundRun? {
      RefundOrdered(p, rest, IsFresh(log), IsFresh(log + [c]));
      NearInRefund(p, rest.first, IsFresh(log), IsFresh(log + [c]));
    }
    AdvanceTells(p, log + [c], k2, rest);
    FailsThere(p, log + [c], k2);
    if Completes(p, log, c) {
      RecordIsKnown(p, log, k);
      CompletingKeeps(p, log, k, c);
    }
  }

  lemma RecordIsKnown(p: Params, log: Log, k: Known)
    requires Recalls(p, log, k)
    ensures RecordIn(log) == Some(k.r)
  {
    hide Started, Exposed, SettledAtStart;
  }

  lemma FailsThere(p: Params, log: Log, k: Known)
    requires Recalls(p, log, k)
    ensures Fail(k) == FailPoint(p, log)
  {
    hide Started, Exposed, SettledAtStart;
  }

  lemma CompletingKeeps(p: Params, log: Log, k: Known, c: Call)
    requires Completes(p, log, c) && RecordIn(log) == Some(k.r)
    ensures FailPoint(p, log + [c]) == FailPoint(p, log)
  {
    hide Started, Exposed, SettledAtStart, IsFresh, PhaseAsked;
    SnocSays(p, log, c);
  }

  lemma NearInRefund(p: Params, t: Task, a: bool, b: bool)
    requires p.kind.RefundRun?
    ensures NearReport(p, a, t) <==> NearReport(p, b, t)
  {
  }
}
