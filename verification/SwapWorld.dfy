/** One session seen from outside: its files, its two database rows and the remote node, and
    every interleaving of any number of runs on it. A run that crashes is a run that stops
    acting; a file being written is `Partial` until its writer finishes. The environment is
    free, except that it answers truthfully, that Settled and Canceled invoices are final and
    that a payment succeeds only on a settled invoice. */
module SwapWorld {
  import opened Wrappers
  import opened Settlement
  import opened SwapCalls

  datatype File<+T> = Absent | Partial(writer: nat) | Complete(value: T)

  datatype Hold = NoInvoice | Hold(state: InvoiceState)

  datatype World = World(
    recovery: File<Record>, funding: File<Outbox>, claim: File<Outbox>, refund: File<Outbox>,
    row: SwapState, reservation: ReservationState, hold: Hold, payment: Option<PaymentState>)

  const Initial := World(Absent, Absent, Absent, Absent, SwapState.Created, Held, NoInvoice, None)

  function OutboxAt(w: World, path: Kind): File<Outbox> {
    match path
    case Funding => w.funding
    case Claim => w.claim
    case Refund => w.refund
  }

  function WithOutbox(w: World, path: Kind, f: File<Outbox>): World {
    match path
    case Funding => w.(funding := f)
    case Claim => w.(claim := f)
    case Refund => w.(refund := f)
  }

  /** What changes without a call of a run. */
  datatype Move =
    | AcceptHold
    | SettleRemotely
    | CancelRemotely
    | MovePayment(payment: PaymentState)
    | MoveReservation(to: ReservationState)

  datatype Event = Act(run: nat, call: Call) | Env(move: Move)

  type Trace = seq<Event>

  predicate MovePossible(w: World, m: Move) {
    match m
    case AcceptHold => w.hold == Hold(InvoiceState.Open)
    case SettleRemotely => w.hold == Hold(InvoiceState.Accepted)
    case CancelRemotely => w.hold == Hold(InvoiceState.Open) || w.hold == Hold(InvoiceState.Accepted)
    case MovePayment(x) => w.payment.Some? && (x.Succeeded? ==> w.hold == Hold(InvoiceState.Settled))
    case MoveReservation(_) => w.reservation == Held
  }

  function ApplyMove(w: World, m: Move): World {
    match m
    case AcceptHold => w.(hold := Hold(InvoiceState.Accepted))
    case SettleRemotely => w.(hold := Hold(InvoiceState.Settled))
    case CancelRemotely => w.(hold := Hold(InvoiceState.Canceled))
    case MovePayment(x) => w.(payment := Some(x))
    case MoveReservation(to) => w.(reservation := to)
  }

  predicate ReadPossible<T(==)>(f: File<T>, content: ReadResult<T>) {
    match content
    case Missing => f.Absent?
    case Corrupt => true
    case Got(v) => f == Complete(v)
  }

  predicate CreationPossible<T>(f: File<T>, created: Creation) {
    match created
    case CreatedNew => f.Absent?
    case AlreadyExists => !f.Absent?
    case CreateFailed => true
  }

  predicate StateSeen(w: World, s: InvoiceState) {
    w.hold.Hold? && (s == w.hold.state || s.Unrecognized?)
  }

  /** Whether the answer inside `call` can be the answer in this world. */
  predicate CallPossible(w: World, call: Call) {
    match call
    case ReadRecovery(found) => ReadPossible(w.recovery, found)
    case CreateRecovery(_, created) => CreationPossible(w.recovery, created)
    case FinishRecovery(_, stored, synced) => synced ==> stored
    case ReadOutbox(path, content) => ReadPossible(OutboxAt(w, path), content)
    case CreateOutbox(path, _, created) => CreationPossible(OutboxAt(w, path), created)
    case FinishOutbox(_, _, stored, synced) => synced ==> stored
    case ReadRow(row) => row.Some? ==> row.value == w.row
    case Transition(from, to, committed, ok) =>
      (ok ==> committed) && (committed ==> w.row == from && CanTransitionTo(from, to))
    case Consume(committed, ok) => (ok ==> committed) && (committed ==> w.reservation != Released)
    case ObserveFunding(txid, vout, e) => e.Some? ==> e.value.txid == txid && e.value.vout == vout
    case PrepareSpend(kind, txid, vout, o) => o.Some? ==> o.value.kind == kind && BindsFunding(o.value, txid, vout)
    case ObserveSpend(_, o, e) => e.Some? ==> e.value.txid == o.txid && o.fundingTxid == Some(e.value.fundingTxid)
    case Lookup(_, answer) =>
      (answer.Found? ==> StateSeen(w, answer.invoice.state)) && (answer.NotFound? ==> w.hold.NoInvoice?)
    case CreateInvoice(_, _, applied, ok) => (ok ==> applied) && (applied ==> w.hold.NoInvoice?)
    case ObserveAccepted(_, i) => i.Some? ==> StateSeen(w, i.value.state)
    case SettleHold(_, _, applied, ok) =>
      (ok ==> applied)
      && (applied ==> w.hold == Hold(InvoiceState.Accepted) || w.hold == Hold(InvoiceState.Settled))
    case CancelHold(_, applied, ok) =>
      (ok ==> applied)
      && (applied ==> w.hold == Hold(InvoiceState.Accepted) || w.hold == Hold(InvoiceState.Canceled))
    case Track(_, x) =>
      x.Some? ==> x.value.state.Uncertain? || w.payment == Some(x.value.state)
    case _ => true
  }

  function ApplyCall(w: World, run: nat, call: Call): World {
    match call
    case CreateRecovery(_, created) => if created.CreatedNew? then w.(recovery := Partial(run)) else w
    case FinishRecovery(r, stored, _) => if stored then w.(recovery := Complete(r)) else w
    case CreateOutbox(path, _, created) => if created.CreatedNew? then WithOutbox(w, path, Partial(run)) else w
    case FinishOutbox(path, o, stored, _) => if stored then WithOutbox(w, path, Complete(o)) else w
    case Transition(_, to, committed, _) => if committed then w.(row := to) else w
    case Consume(committed, _) => if committed then w.(reservation := Consumed) else w
    case CreateInvoice(_, _, applied, _) => if applied then w.(hold := Hold(InvoiceState.Open)) else w
    case SettleHold(_, _, applied, _) => if applied then w.(hold := Hold(InvoiceState.Settled)) else w
    case CancelHold(_, applied, _) => if applied then w.(hold := Hold(InvoiceState.Canceled)) else w
    case Pay(_, _, _) => if w.payment.None? then w.(payment := Some(InFlight)) else w
    case _ => w
  }

  predicate Possible(w: World, e: Event) {
    match e
    case Act(_, call) => CallPossible(w, call)
    case Env(m) => MovePossible(w, m)
  }

  function Apply(w: World, e: Event): World {
    match e
    case Act(run, call) => ApplyCall(w, run, call)
    case Env(m) => ApplyMove(w, m)
  }

  function After(t: Trace): World {
    if t == [] then Initial else Apply(After(t[..|t| - 1]), t[|t| - 1])
  }

  /** The calls of one run, in order. */
  function LogOf(t: Trace, run: nat): Log {
    if t == [] then []
    else
      var rest := LogOf(t[..|t| - 1], run);
      var e := t[|t| - 1];
      if e.Act? && e.run == run then rest + [e.call] else rest
  }

  type Runs = nat -> Params

  /** Every run keeps the runner's discipline and every answer is possible where it is given. */
  ghost predicate Behaviour(ps: Runs, t: Trace) {
    && (forall n: nat {:trigger At(n)} :: At(n) && n < |t| ==> Possible(After(t[..n]), t[n]))
    && (forall i: nat {:trigger LogOf(t, i)} :: Obeys(ps(i), LogOf(t, i)))
  }

  ghost predicate Admissible(ps: Runs, t: Trace, e: Event) {
    && Possible(After(t), e)
    && (e.Act? ==> Allowed(ps(e.run), LogOf(t, e.run), e.call))
  }

  lemma SnocSteps(t: Trace, e: Event)
    ensures After(t + [e]) == Apply(After(t), e)
    ensures forall i: nat :: LogOf(t + [e], i) == LogOf(t, i) + (if e.Act? && e.run == i then [e.call] else [])
  {
    assert (t + [e])[..|t|] == t;
  }

  lemma BehaviourSnoc(ps: Runs, t: Trace, e: Event)
    requires Behaviour(ps, t) && Admissible(ps, t, e)
    ensures Behaviour(ps, t + [e])
  {
    var t' := t + [e];
    SnocSteps(t, e);
    forall n: nat | At(n) && n < |t'| ensures Possible(After(t'[..n]), t'[n]) {
      assert At(n) && t'[..n] == if n < |t| then t[..n] else t;
    }
    forall i: nat ensures Obeys(ps(i), LogOf(t', i)) {
      assert Obeys(ps(i), LogOf(t, i));
      if e.Act? && e.run == i {
        ObeysSnoc(ps(i), LogOf(t, i), e.call);
      } else {
        assert LogOf(t', i) == LogOf(t, i);
      }
    }
  }

  lemma ObeysPrefix(p: Params, log: Log, call: Call)
    requires Obeys(p, log + [call])
    ensures Obeys(p, log) && Allowed(p, log, call)
  {
    var next := log + [call];
    assert At(|log|) && next[..|log|] == log;
    forall n: nat | At(n) && n < |log| ensures Allowed(p, log[..n], log[n]) {
      assert At(n) && next[..n] == log[..n];
    }
  }

  lemma BehaviourUnsnoc(ps: Runs, t: Trace, e: Event)
    requires Behaviour(ps, t + [e])
    ensures Behaviour(ps, t) && Admissible(ps, t, e)
  {
    var t' := t + [e];
    SnocSteps(t, e);
    assert At(|t|) && t'[..|t|] == t;
    forall n: nat | At(n) && n < |t| ensures Possible(After(t[..n]), t[n]) {
      assert At(n) && t'[..n] == t[..n];
    }
    forall i: nat ensures Obeys(ps(i), LogOf(t, i)) {
      assert Obeys(ps(i), LogOf(t', i));
      if e.Act? && e.run == i {
        ObeysPrefix(ps(i), LogOf(t, i), e.call);
      } else {
        assert LogOf(t', i) == LogOf(t, i);
      }
    }
    if e.Act? {
      assert Obeys(ps(e.run), LogOf(t', e.run));
      ObeysPrefix(ps(e.run), LogOf(t, e.run), e.call);
    }
  }

  lemma {:induction false} BehaviourPrefix(ps: Runs, t: Trace, n: nat)
    requires Behaviour(ps, t) && n <= |t|
    ensures Behaviour(ps, t[..n])
    decreases |t| - n
  {
    if n == |t| {
      assert t[..n] == t;
    } else {
      BehaviourPrefix(ps, t, n + 1);
      assert t[..n + 1] == t[..n] + [t[n]];
      BehaviourUnsnoc(ps, t[..n], t[n]);
    }
  }

  /** A call is in a run's log exactly when the trace holds it. */
  lemma {:induction false} LogOfMembers(t: Trace, i: nat, c: Call)
    ensures c in LogOf(t, i) <==> Act(i, c) in t
  {
    if t != [] {
      var front, e := t[..|t| - 1], t[|t| - 1];
      LogOfMembers(front, i, c);
      assert t == front + [e];
    }
  }

  /** Prefixes of traces have prefixes of logs. */
  lemma {:induction false} LogPrefix(t: Trace, m: nat, i: nat)
    requires m <= |t|
    ensures LogOf(t[..m], i) <= LogOf(t, i)
    decreases |t| - m
  {
    if m == |t| {
      assert t[..m] == t;
    } else {
      LogPrefix(t, m + 1, i);
      assert t[..m + 1] == t[..m] + [t[m]];
      SnocSteps(t[..m], t[m]);
    }
  }

  // Building behaviours.

  /** A behaviour continued by one admissible event. */
  lemma Extend(ps: Runs, t: Trace, e: Event) returns (t': Trace)
    requires Behaviour(ps, t) && Admissible(ps, t, e)
    ensures t' == t + [e] && Behaviour(ps, t') && After(t') == Apply(After(t), e)
    ensures forall i: nat {:trigger LogOf(t', i)} ::
      LogOf(t', i) == LogOf(t, i) + (if e.Act? && e.run == i then [e.call] else [])
  {
    t' := t + [e];
    BehaviourSnoc(ps, t, e);
    SnocSteps(t, e);
  }

  /** One call of run `i`. */
  lemma ExtendRun(ps: Runs, t: Trace, i: nat, c: Call) returns (t': Trace)
    requires Behaviour(ps, t) && CallPossible(After(t), c) && Allowed(ps(i), LogOf(t, i), c)
    ensures t' == t + [Act(i, c)] && Behaviour(ps, t') && After(t') == ApplyCall(After(t), i, c)
    ensures forall j: nat {:trigger LogOf(t', j)} :: j != i ==> LogOf(t', j) == LogOf(t, j)
    ensures LogOf(t', i) == LogOf(t, i) + [c] && Extends(LogOf(t, i), LogOf(t', i)) && c in LogOf(t', i)
  {
    t' := Extend(ps, t, Act(i, c));
  }
}
