/** The behaviours runs can actually have. `Behaviour` lets a run make any call its discipline
    allows; an execution lets it make only the call its plan has next, and lets the Lightning
    client report a hold only as src/lightning/client.rs does. What holds of every behaviour holds
    of every execution; what can happen is shown on executions. */
module SwapExecution {
  import opened SwapCalls
  import opened SwapPlan
  import opened SwapWorld

  /** `observe_accepted` reports only an exact-amount hold with an expiry. */
  predicate Gated(p: Params, c: Call) {
    c.ObserveAccepted? && c.invoice.Some? ==> IsHeld(p, c.invoice.value) && c.invoice.value.acceptedExpiry.Some?
  }

  ghost predicate Execution(ps: Runs, t: Trace) {
    && Behaviour(ps, t)
    && (forall i: nat {:trigger LogOf(t, i)} :: Follows(ps(i), LogOf(t, i)))
    && (forall n: nat {:trigger At(n)} :: At(n) && n < |t| && t[n].Act? ==> Gated(ps(t[n].run), t[n].call))
  }

  /** Run `i` has followed its plan to `at`. */
  ghost predicate Stands(ps: Runs, t: Trace, i: nat, at: Point) {
    Behaviour(ps, t) && Follows(ps(i), LogOf(t, i)) && IsAt(ps(i), LogOf(t, i), at)
  }

  /** `u` continues `t` by calls of run `i` and moves of the environment. */
  ghost predicate Goes(ps: Runs, t: Trace, i: nat, u: Trace) {
    && t <= u && Behaviour(ps, u) && Extends(LogOf(t, i), LogOf(u, i))
    && (forall j: nat {:trigger LogOf(u, j)} :: j != i ==> LogOf(u, j) == LogOf(t, j))
    && (Execution(ps, t) ==> Execution(ps, u))
  }

  lemma NothingHappened(ps: Runs)
    ensures Execution(ps, []) && After([]) == Initial
    ensures forall i: nat {:trigger LogOf([], i)} :: LogOf([], i) == []
  {
  }

  lemma NotStarted(ps: Runs, t: Trace, i: nat)
    requires Behaviour(ps, t) && LogOf(t, i) == []
    ensures Stands(ps, t, i, StartPoint(ps(i)))
  {
    StartFollows(ps(i));
  }

  lemma Stays(ps: Runs, t: Trace, u: Trace, i: nat, at: Point)
    requires Stands(ps, t, i, at) && Behaviour(ps, u) && LogOf(u, i) == LogOf(t, i)
    ensures Stands(ps, u, i, at)
  {
  }

  /** The run makes its next call. */
  lemma Acts(ps: Runs, t: Trace, i: nat, at: Point, c: Call) returns (u: Trace)
    requires Stands(ps, t, i, at) && Asks(ps(i), at, c) && Gated(ps(i), c)
    requires CallPossible(After(t), c) && Allowed(ps(i), LogOf(t, i), c)
    ensures Goes(ps, t, i, u) && Stands(ps, u, i, Step(ps(i), at, c)) && After(u) == ApplyCall(After(t), i, c)
    ensures u == t + [Act(i, c)] && LogOf(u, i) == LogOf(t, i) + [c] && c in LogOf(u, i)
  {
    hide Allowed, Asks, Step, CallPossible, ApplyCall;
    u := ExtendRun(ps, t, i, c);
    FollowsSnoc(ps(i), LogOf(t, i), at, c);
    if Execution(ps, t) {
      forall n: nat | At(n) && n < |u| && u[n].Act? ensures Gated(ps(u[n].run), u[n].call) {
        assert n < |t| ==> u[n] == t[n];
      }
      forall j: nat ensures Follows(ps(j), LogOf(u, j)) {
        assert Follows(ps(j), LogOf(t, j));
      }
    }
  }

  /** Calls that need nothing and change nothing. */
  predicate OnlyAsks(p: Params, c: Call) {
    c.ReadOutbox? || c.Height? || c.Tip? || c.PrepareFunding? || c.PrepareSpend? || c.ReadRecovery?
      || (c.ReadRow? && p.core)
  }

  lemma AskingIsFree(p: Params, log: Log, w: World, i: nat, c: Call)
    requires OnlyAsks(p, c)
    ensures Allowed(p, log, c) && Gated(p, c) && ApplyCall(w, i, c) == w
  {
  }

  lemma Looks(ps: Runs, t: Trace, i: nat, at: Point, c: Call) returns (u: Trace)
    requires Stands(ps, t, i, at) && Asks(ps(i), at, c) && CallPossible(After(t), c) && OnlyAsks(ps(i), c)
    ensures Goes(ps, t, i, u) && Stands(ps, u, i, Step(ps(i), at, c)) && After(u) == After(t)
    ensures LogOf(u, i) == LogOf(t, i) + [c] && c in LogOf(u, i)
  {
    hide Allowed, Asks, Step, CallPossible, Stands, Goes;
    AskingIsFree(ps(i), LogOf(t, i), After(t), i, c);
    u := Acts(ps, t, i, at, c);
  }

  /** A call, then a look. */
  lemma ActsThenLooks(ps: Runs, t: Trace, i: nat, at: Point, c: Call, d: Call) returns (u: Trace)
    requires Stands(ps, t, i, at) && Asks(ps(i), at, c) && Gated(ps(i), c)
    requires CallPossible(After(t), c) && Allowed(ps(i), LogOf(t, i), c)
    requires Asks(ps(i), Step(ps(i), at, c), d) && OnlyAsks(ps(i), d) && CallPossible(ApplyCall(After(t), i, c), d)
    ensures Goes(ps, t, i, u) && Stands(ps, u, i, Step(ps(i), Step(ps(i), at, c), d))
    ensures After(u) == ApplyCall(After(t), i, c) && c in LogOf(u, i) && d in LogOf(u, i)
  {
    hide Allowed, Asks, Step, CallPossible, ApplyCall, Behaviour, Execution, Follows, IsAt;
    var v := Acts(ps, t, i, at, c);
    u := Looks(ps, v, i, Step(ps(i), at, c), d);
    assert c in LogOf(u, i);
  }

  /** A look, then a call it allows. */
  lemma LooksThenActs(ps: Runs, t: Trace, i: nat, at: Point, c: Call, d: Call) returns (u: Trace)
    requires Stands(ps, t, i, at) && Asks(ps(i), at, c) && CallPossible(After(t), c) && OnlyAsks(ps(i), c)
    requires Asks(ps(i), Step(ps(i), at, c), d) && Gated(ps(i), d) && CallPossible(After(t), d)
    requires Allowed(ps(i), LogOf(t, i) + [c], d)
    ensures Goes(ps, t, i, u) && Stands(ps, u, i, Step(ps(i), Step(ps(i), at, c), d))
    ensures After(u) == ApplyCall(After(t), i, d) && c in LogOf(u, i) && d in LogOf(u, i)
  {
    hide Allowed, Asks, Step, CallPossible, ApplyCall, Behaviour, Execution, Follows, IsAt;
    var v := Looks(ps, t, i, at, c);
    u := Acts(ps, v, i, Step(ps(i), at, c), d);
    assert c in LogOf(u, i);
  }

  /** The environment moves. */
  lemma Happens(ps: Runs, t: Trace, m: Move) returns (u: Trace)
    requires Behaviour(ps, t) && MovePossible(After(t), m)
    ensures u == t + [Env(m)] && Behaviour(ps, u) && After(u) == ApplyMove(After(t), m)
    ensures forall j: nat {:trigger LogOf(u, j)} :: LogOf(u, j) == LogOf(t, j)
    ensures Execution(ps, t) ==> Execution(ps, u)
  {
    u := Extend(ps, t, Env(m));
    forall j: nat ensures LogOf(u, j) == LogOf(t, j) {
      assert LogOf(u, j) == LogOf(t, j) + [];
    }
    if Execution(ps, t) {
      forall n: nat | At(n) && n < |u| && u[n].Act? ensures Gated(ps(u[n].run), u[n].call) {
        assert n < |t| && u[n] == t[n];
      }
    }
  }

  /** A move of the environment, then a call. */
  lemma HappensThenActs(ps: Runs, t: Trace, i: nat, at: Point, m: Move, c: Call) returns (u: Trace)
    requires Stands(ps, t, i, at) && Asks(ps(i), at, c) && Gated(ps(i), c) && MovePossible(After(t), m)
    requires CallPossible(ApplyMove(After(t), m), c) && Allowed(ps(i), LogOf(t, i), c)
    ensures Goes(ps, t, i, u) && Stands(ps, u, i, Step(ps(i), at, c))
    ensures After(u) == ApplyCall(ApplyMove(After(t), m), i, c) && LogOf(u, i) == LogOf(t, i) + [c] && c in LogOf(u, i)
  {
    hide Allowed, Asks, Step, CallPossible, ApplyCall, ApplyMove, MovePossible, Execution, Follows, IsAt;
    var v := Happens(ps, t, m);
    u := Acts(ps, v, i, at, c);
  }
}
