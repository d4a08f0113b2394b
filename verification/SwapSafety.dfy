/** What every interleaving of forward, reverse and refund runs keeps, crashes included. The
    proof is by facts: each call in a run's log says something about the world that no later
    event of any run or of the environment can undo. */
module SwapSafety {
  import opened Wrappers
  import opened Settlement
  import opened SwapCalls
  import opened SwapWorld

  // Facts.

  predicate InvoiceReached(w: World, s: InvoiceState) {
    match s
    case Open => w.hold.Hold?
    case Accepted => w.hold.Hold?
      && w.hold.state in {InvoiceState.Accepted, InvoiceState.Settled, InvoiceState.Canceled}
    case Settled => w.hold == Hold(InvoiceState.Settled)
    case Canceled => w.hold == Hold(InvoiceState.Canceled)
    case Unrecognized => true
  }

  predicate BindsStoredFunding(w: World, o: Outbox) {
    w.funding.Complete? && BindsFunding(o, w.funding.value.txid, HtlcVout(w.funding.value))
  }

  /** The stored record asks for this run's direction. */
  predicate DirectionFits(p: Params, w: World) {
    w.recovery.Complete? && w.recovery.value.direction == RunDirection(p.kind)
  }

  predicate ClaimFact(p: Params, w: World, o: Outbox) {
    && !p.kind.RefundRun? && DirectionFits(p, w) && BindsStoredFunding(w, o)
    && (p.kind.ForwardRun? ==> w.hold == Hold(InvoiceState.Settled))
    && (p.kind.ForwardRun? && p.core ==> StateRank(w.row) >= 5 && w.reservation == Consumed)
  }

  predicate RefundFact(p: Params, w: World, o: Outbox) {
    p.kind.RefundRun? && BindsStoredFunding(w, o) && w.hold == Hold(InvoiceState.Canceled)
  }

  /** What one logged call says about every later world. */
  predicate Fact(p: Params, w: World, c: Call) {
    match c
    case ReadRecovery(found) => found.Got? ==> w.recovery == Complete(found.value)
    case FinishRecovery(r, stored, synced) => (synced ==> stored) && (stored ==> w.recovery == Complete(r))
    case ReadOutbox(path, content) => content.Got? ==> OutboxAt(w, path) == Complete(content.value)
    case CreateOutbox(path, o, created) =>
      created.CreatedNew? ==>
        && !OutboxAt(w, path).Absent? && o.kind == path
        && (path == Claim ==> ClaimFact(p, w, o))
        && (path == Refund ==> RefundFact(p, w, o))
    case FinishOutbox(path, o, stored, synced) =>
      (synced ==> stored) && (stored ==> OutboxAt(w, path) == Complete(o))
    case Broadcast(path, o, _) => OutboxAt(w, path) == Complete(o) && o.kind == path
    case ReadRow(row) => row.Some? ==> StateRank(w.row) >= StateRank(row.value)
    case Transition(_, to, committed, ok) => (ok ==> committed) && (committed ==> StateRank(w.row) >= StateRank(to))
    case Consume(committed, ok) => (ok ==> committed) && (committed ==> w.reservation == Consumed)
    case Lookup(_, answer) => answer.Found? ==> InvoiceReached(w, answer.invoice.state)
    case CreateInvoice(_, _, applied, ok) => (ok ==> applied) && (applied ==> w.hold.Hold?)
    case ObserveAccepted(_, i) => i.Some? ==> InvoiceReached(w, i.value.state)
    case ObserveFunding(txid, vout, e) => e.Some? ==> e.value.txid == txid && e.value.vout == vout
    case ObserveSpend(_, o, e) => e.Some? ==> e.value.txid == o.txid && o.fundingTxid == Some(e.value.fundingTxid)
    case Pay(_, _, _) => w.payment.Some?
    case Track(_, x) =>
      && (x.Some? && x.value.state.Succeeded? ==> w.hold == Hold(InvoiceState.Settled))
      && (x.Some? && !x.value.state.Uncertain? ==> w.payment.Some?)
    case _ => true
  }

  predicate FileGrows<T(==)>(f: File<T>, g: File<T>) {
    (f.Complete? ==> g == f) && (f.Partial? ==> !g.Absent?)
  }

  /** The direction time moves a world in, whoever acts. */
  predicate Grows(w: World, v: World) {
    && FileGrows(w.recovery, v.recovery) && FileGrows(w.funding, v.funding)
    && FileGrows(w.claim, v.claim) && FileGrows(w.refund, v.refund)
    && StateRank(w.row) <= StateRank(v.row)
    && (w.reservation == Consumed ==> v.reservation == Consumed)
    && (w.hold.Hold? ==> v.hold.Hold? && InvoiceReached(v, w.hold.state))
    && (w.payment.Some? ==> v.payment.Some?)
  }

  lemma FactStable(p: Params, w: World, v: World, c: Call)
    requires Grows(w, v) && Fact(p, w, c)
    ensures Fact(p, v, c)
  {
  }

  // The invariant.

  /** A run whose last call created a file is the file's writer. */
  predicate WriterKnown(w: World, i: nat, log: Log) {
    log != [] ==>
      match log[|log| - 1]
      case CreateRecovery(_, created) => created.CreatedNew? ==> w.recovery == Partial(i)
      case CreateOutbox(path, _, created) => created.CreatedNew? ==> OutboxAt(w, path) == Partial(i)
      case _ => true
  }

  /** A file that exists was created by a logged call, with the contents it has. */
  ghost predicate HasCreator(w: World, t: Trace, path: Kind) {
    !OutboxAt(w, path).Absent? ==>
      exists i: nat, o :: Act(i, CreateOutbox(path, o, CreatedNew)) in t
        && (OutboxAt(w, path).Complete? ==> OutboxAt(w, path).value == o)
  }

  /** Row states and what must be on disk or settled for them. */
  predicate RowBacked(w: World) {
    && (w.row != SwapState.Created ==> w.funding.Complete?)
    && (w.row in {SwapState.OutputSettled, SwapState.ClaimPending, SwapState.Settled}
        ==> w.hold == Hold(InvoiceState.Settled) && w.payment.Some?)
    && (w.row in {SwapState.ClaimPending, SwapState.Settled} ==> w.claim.Complete?)
    && (w.row in {SwapState.Refunding, SwapState.Refunded} ==> w.refund.Complete?)
    && w.row != SwapState.OutputUnknown && w.row != SwapState.Failed
  }

  ghost predicate Inv(ps: Runs, t: Trace) {
    var w := After(t);
    && (forall i: nat, c {:trigger Act(i, c) in t} :: Act(i, c) in t ==> Fact(ps(i), w, c))
    && (forall i: nat {:trigger LogOf(t, i)} :: WriterKnown(w, i, LogOf(t, i)))
    && HasCreator(w, t, Funding) && HasCreator(w, t, Claim) && HasCreator(w, t, Refund)
    && (w.payment == Some(Succeeded) ==> w.hold == Hold(InvoiceState.Settled))
    && RowBacked(w)
  }

  lemma HoldingFact(ps: Runs, t: Trace, i: nat, r: Record)
    requires Inv(ps, t) && Holding(ps(i), LogOf(t, i), r)
    ensures After(t).recovery == Complete(r)
    ensures !ps(i).kind.RefundRun? ==> DirectionFits(ps(i), After(t))
  {
    LogOfMembers(t, i, ReadRecovery(Got(r)));
    LogOfMembers(t, i, FinishRecovery(r, true, true));
  }

  lemma OutboxFact(ps: Runs, t: Trace, i: nat, path: Kind, o: Outbox)
    requires Inv(ps, t) && HoldsOutbox(LogOf(t, i), path, o)
    ensures OutboxAt(After(t), path) == Complete(o)
  {
    LogOfMembers(t, i, ReadOutbox(path, Got(o)));
    LogOfMembers(t, i, FinishOutbox(path, o, true, true));
  }

  lemma PaymentFact(ps: Runs, t: Trace, i: nat, r: Record)
    requires Inv(ps, t) && SawPayment(LogOf(t, i), r)
    ensures After(t).hold == Hold(InvoiceState.Settled) && After(t).payment.Some?
  {
    LogOfMembers(t, i, Track(r.hash, Some(Payment(Succeeded, Some(r.preimage)))));
  }

  lemma RowFact(ps: Runs, t: Trace, i: nat, rank: nat)
    requires Inv(ps, t) && RowReached(LogOf(t, i), rank)
    ensures StateRank(After(t).row) >= rank
  {
    if s :| ReadRow(Some(s)) in LogOf(t, i) && StateRank(s) >= rank {
      LogOfMembers(t, i, ReadRow(Some(s)));
    } else {
      var f, to :| Transition(f, to, true, true) in LogOf(t, i) && StateRank(to) >= rank;
      LogOfMembers(t, i, Transition(f, to, true, true));
    }
  }

  lemma ConsumedFact(ps: Runs, t: Trace, i: nat)
    requires Inv(ps, t) && Consume(true, true) in LogOf(t, i)
    ensures After(t).reservation == Consumed
  {
    LogOfMembers(t, i, Consume(true, true));
  }

  lemma CanceledFact(ps: Runs, t: Trace, i: nat, r: Record)
    requires Inv(ps, t) && SawCanceled(ps(i), LogOf(t, i), r)
    ensures After(t).hold == Hold(InvoiceState.Canceled)
  {
    var v :| Lookup(r.hash, Found(v)) in LogOf(t, i) && v.state.Canceled?;
    LogOfMembers(t, i, Lookup(r.hash, Found(v)));
  }

  // One event.

  lemma EdgeRaisesRank(from: SwapState, to: SwapState)
    requires CanTransitionTo(from, to)
    ensures StateRank(from) <= StateRank(to)
  {
  }

  lemma CallGrows(w: World, i: nat, c: Call)
    requires CallPossible(w, c)
    requires c.FinishRecovery? ==> w.recovery == Partial(i)
    requires c.FinishOutbox? ==> OutboxAt(w, c.path) == Partial(i)
    ensures Grows(w, ApplyCall(w, i, c))
  {
    match c
    case Transition(from, to, committed, _) =>
      if committed {
        EdgeRaisesRank(from, to);
      }
    case _ =>
  }

  lemma FinisherIsWriter(ps: Runs, t: Trace, i: nat, c: Call)
    requires Inv(ps, t) && Allowed(ps(i), LogOf(t, i), c)
    ensures c.FinishRecovery? ==> After(t).recovery == Partial(i)
    ensures c.FinishOutbox? ==> OutboxAt(After(t), c.path) == Partial(i)
  {
    assert WriterKnown(After(t), i, LogOf(t, i));
  }

  /** Only the writer finishes a file, so every event moves the world forward. */
  lemma EventGrows(ps: Runs, t: Trace, e: Event)
    requires Inv(ps, t) && Admissible(ps, t, e)
    ensures Grows(After(t), Apply(After(t), e))
  {
    hide Allowed, Fact, HasCreator, WriterKnown, RowBacked;
    match e
    case Act(i, c) =>
      FinisherIsWriter(ps, t, i, c);
      CallGrows(After(t), i, c);
    case Env(m) =>
  }

  lemma CreationFact(ps: Runs, t: Trace, i: nat, path: Kind, o: Outbox)
    requires Inv(ps, t) && Admissible(ps, t, Act(i, CreateOutbox(path, o, CreatedNew)))
    ensures o.kind == path
    ensures path == Claim ==> ClaimFact(ps(i), After(t), o)
    ensures path == Refund ==> RefundFact(ps(i), After(t), o)
  {
    var log := LogOf(t, i);
    var r :| Holding(ps(i), log, r) && CreateReady(ps(i), log, r, path, o);
    HoldingFact(ps, t, i, r);
    if path == Claim {
      var f :| HoldsOutbox(log, Funding, f) && BindsFunding(o, f.txid, HtlcVout(f));
      OutboxFact(ps, t, i, Funding, f);
      if ps(i).kind.ForwardRun? {
        PaymentFact(ps, t, i, r);
        if ps(i).core {
          RowFact(ps, t, i, 5);
          ConsumedFact(ps, t, i);
        }
      }
    } else if path == Refund {
      var f :| HoldsOutbox(log, Funding, f) && BindsFunding(o, f.txid, HtlcVout(f));
      OutboxFact(ps, t, i, Funding, f);
      CanceledFact(ps, t, i, r);
    }
  }

  lemma BroadcastFact(ps: Runs, t: Trace, i: nat, path: Kind, o: Outbox, ok: bool)
    requires Inv(ps, t) && Admissible(ps, t, Act(i, Broadcast(path, o, ok)))
    ensures OutboxAt(After(t), path) == Complete(o) && o.kind == path
  {
    OutboxFact(ps, t, i, path, o);
  }

  lemma NewFact(ps: Runs, t: Trace, i: nat, c: Call)
    requires Inv(ps, t) && Admissible(ps, t, Act(i, c))
    ensures Fact(ps(i), Apply(After(t), Act(i, c)), c)
  {
    hide Allowed, HasCreator, WriterKnown, RowBacked;
    match c
    case CreateOutbox(path, o, created) =>
      if created.CreatedNew? {
        CreationFact(ps, t, i, path, o);
      }
    case Broadcast(path, o, ok) => BroadcastFact(ps, t, i, path, o, ok);
    case _ =>
  }

  // Each part of the invariant over one event.

  lemma FactsKept(ps: Runs, t: Trace, e: Event)
    requires Inv(ps, t) && Admissible(ps, t, e)
    ensures forall i: nat, c {:trigger Act(i, c) in t + [e]} :: Act(i, c) in t + [e] ==> Fact(ps(i), After(t + [e]), c)
  {
    SnocSteps(t, e);
    EventGrows(ps, t, e);
    forall i: nat, c | Act(i, c) in t + [e] ensures Fact(ps(i), After(t + [e]), c) {
      if Act(i, c) in t {
        FactStable(ps(i), After(t), After(t + [e]), c);
      } else {
        NewFact(ps, t, i, c);
      }
    }
  }

  lemma WritersKept(ps: Runs, t: Trace, e: Event)
    requires Inv(ps, t) && Admissible(ps, t, e)
    ensures forall i: nat {:trigger LogOf(t + [e], i)} :: WriterKnown(After(t + [e]), i, LogOf(t + [e], i))
  {
    hide Allowed, Fact, HasCreator, RowBacked, WriterKnown, ApplyCall, CallPossible;
    SnocSteps(t, e);
    var w := After(t);
    if e.Act? {
      FinisherIsWriter(ps, t, e.run, e.call);
    }
    forall i: nat ensures WriterKnown(After(t + [e]), i, LogOf(t + [e], i)) {
      var log := LogOf(t, i);
      assert WriterKnown(w, i, log);
      if e.Act? && e.run == i {
        CallMakesWriter(w, i, log, e.call);
      } else if e.Act? {
        OtherCallKeepsWriter(w, i, log, e.run, e.call);
      } else {
        MoveKeepsWriter(w, i, log, e.move);
      }
    }
  }

  lemma CallMakesWriter(w: World, i: nat, log: Log, c: Call)
    ensures WriterKnown(ApplyCall(w, i, c), i, log + [c])
  {
  }

  lemma OtherCallKeepsWriter(w: World, i: nat, log: Log, j: nat, c: Call)
    requires WriterKnown(w, i, log) && j != i && CallPossible(w, c)
    requires c.FinishRecovery? ==> w.recovery == Partial(j)
    requires c.FinishOutbox? ==> OutboxAt(w, c.path) == Partial(j)
    ensures WriterKnown(ApplyCall(w, j, c), i, log + [])
  {
    assert log + [] == log;
  }

  lemma MoveKeepsWriter(w: World, i: nat, log: Log, m: Move)
    requires WriterKnown(w, i, log)
    ensures WriterKnown(ApplyMove(w, m), i, log + [])
  {
    assert log + [] == log;
  }

  lemma CreatedKept(ps: Runs, t: Trace, e: Event, path: Kind)
    requires Inv(ps, t) && Admissible(ps, t, e)
    ensures HasCreator(After(t + [e]), t + [e], path)
  {
    hide Allowed, Fact, RowBacked, WriterKnown, ApplyCall, CallPossible;
    SnocSteps(t, e);
    EventGrows(ps, t, e);
    var w, v := After(t), After(t + [e]);
    if OutboxAt(w, path).Absent? {
      if !OutboxAt(v, path).Absent? {
        CreatorIsKnown(ps, t, e, path);
        assert e == Act(e.run, CreateOutbox(path, e.call.outbox, CreatedNew));
      }
    } else {
      var i: nat, o :| Act(i, CreateOutbox(path, o, CreatedNew)) in t
        && (OutboxAt(w, path).Complete? ==> OutboxAt(w, path).value == o);
      if OutboxAt(w, path).Partial? && OutboxAt(v, path).Complete? {
        FinisherCreated(ps, t, e, path);
      } else {
        assert Act(i, CreateOutbox(path, o, CreatedNew)) in t + [e];
      }
    }
  }

  lemma CreatorIsKnown(ps: Runs, t: Trace, e: Event, path: Kind)
    requires Inv(ps, t) && Admissible(ps, t, e)
    requires OutboxAt(After(t), path).Absent? && !OutboxAt(Apply(After(t), e), path).Absent?
    ensures e.Act? && e.call.CreateOutbox? && e.call.path == path && e.call.created == CreatedNew
    ensures OutboxAt(Apply(After(t), e), path).Partial?
  {
    hide Allowed, Fact, HasCreator, WriterKnown, RowBacked;
    if e.Act? {
      FinisherIsWriter(ps, t, e.run, e.call);
    }
  }

  /** The contents a file gets are those its creator announced. */
  lemma FinisherCreated(ps: Runs, t: Trace, e: Event, path: Kind)
    requires Inv(ps, t) && Admissible(ps, t, e)
    requires OutboxAt(After(t), path).Partial? && OutboxAt(Apply(After(t), e), path).Complete?
    ensures exists i: nat, o :: Act(i, CreateOutbox(path, o, CreatedNew)) in t
              && OutboxAt(Apply(After(t), e), path).value == o
  {
    hide Fact, HasCreator, WriterKnown, RowBacked;
    assert e.Act? && e.call.FinishOutbox? && e.call.path == path;
    var log := LogOf(t, e.run);
    assert log[|log| - 1] == CreateOutbox(path, e.call.outbox, CreatedNew);
    LogOfMembers(t, e.run, CreateOutbox(path, e.call.outbox, CreatedNew));
  }

  lemma RowMoveBacked(ps: Runs, t: Trace, i: nat, from: SwapState, to: SwapState, ok: bool)
    requires Inv(ps, t) && Admissible(ps, t, Act(i, Transition(from, to, true, ok)))
    ensures RowBacked(After(t).(row := to))
  {
    var w, log := After(t), LogOf(t, i);
    var r :| Holding(ps(i), log, r) && RowReady(ps(i), log, r, to);
    assert RowBacked(w) && w.row == from;
    match to
    case InputFunding => SomeOutboxFact(ps, t, i, Funding);
    case OutputSettled => PaymentFact(ps, t, i, r);
    case ClaimPending => SomeOutboxFact(ps, t, i, Claim);
    case Refunding => SomeOutboxFact(ps, t, i, Refund);
    case _ =>
  }

  lemma SomeOutboxFact(ps: Runs, t: Trace, i: nat, path: Kind)
    requires Inv(ps, t) && HoldsSome(LogOf(t, i), path)
    ensures OutboxAt(After(t), path).Complete?
  {
    var o :| HoldsOutbox(LogOf(t, i), path, o) && o.kind == path;
    OutboxFact(ps, t, i, path, o);
  }

  lemma RowKept(ps: Runs, t: Trace, e: Event)
    requires Inv(ps, t) && Admissible(ps, t, e)
    ensures RowBacked(After(t + [e]))
  {
    hide Allowed, Fact, HasCreator, WriterKnown, RowBacked, Grows, ApplyCall, CallPossible;
    SnocSteps(t, e);
    EventGrows(ps, t, e);
    RowOnlyTransitions(After(t), e);
    if e.Act? && e.call.Transition? && e.call.committed {
      RowMoveBacked(ps, t, e.run, e.call.from, e.call.to, e.call.ok);
    } else {
      BackingStays(After(t), Apply(After(t), e));
    }
  }

  lemma RowOnlyTransitions(w: World, e: Event)
    ensures e.Act? && e.call.Transition? && e.call.committed ==> Apply(w, e) == w.(row := e.call.to)
    ensures !(e.Act? && e.call.Transition? && e.call.committed) ==> Apply(w, e).row == w.row
  {
  }

  lemma BackingStays(w: World, v: World)
    requires RowBacked(w) && Grows(w, v) && v.row == w.row
    ensures RowBacked(v)
  {
  }

  lemma PaymentKept(ps: Runs, t: Trace, e: Event)
    requires Inv(ps, t) && Admissible(ps, t, e)
    ensures After(t + [e]).payment == Some(Succeeded) ==> After(t + [e]).hold == Hold(InvoiceState.Settled)
  {
    hide Allowed, Fact, HasCreator, WriterKnown, RowBacked, Apply, Possible;
    SnocSteps(t, e);
    SuccessStaysSettled(After(t), e);
  }

  lemma SuccessStaysSettled(w: World, e: Event)
    requires Possible(w, e) && (w.payment == Some(Succeeded) ==> w.hold == Hold(InvoiceState.Settled))
    ensures Apply(w, e).payment == Some(Succeeded) ==> Apply(w, e).hold == Hold(InvoiceState.Settled)
  {
  }

  lemma InvKept(ps: Runs, t: Trace, e: Event)
    requires Inv(ps, t) && Admissible(ps, t, e)
    ensures Inv(ps, t + [e])
  {
    FactsKept(ps, t, e);
    WritersKept(ps, t, e);
    CreatedKept(ps, t, e, Funding);
    CreatedKept(ps, t, e, Claim);
    CreatedKept(ps, t, e, Refund);
    RowKept(ps, t, e);
    PaymentKept(ps, t, e);
  }

  /** Every behaviour satisfies the invariant, at every point. */
  lemma {:induction false} InvHolds(ps: Runs, t: Trace)
    requires Behaviour(ps, t)
    ensures Inv(ps, t)
    decreases |t|
  {
    if t != [] {
      var front, e := t[..|t| - 1], t[|t| - 1];
      assert t == front + [e];
      BehaviourUnsnoc(ps, front, e);
      InvHolds(ps, front);
      InvKept(ps, front, e);
    }
  }
}
