/** Swap states, the edges between them and the rank the observer compares
    (src/core/settlement.rs, src/cli/live.rs). */
module Settlement {
  datatype SwapState =
    | Created
    | InputFunding
    | InputLocked
    | OutputPending
    | OutputUnknown
    | OutputSettled
    | ClaimPending
    | Settled
    | Refunding
    | Refunded
    | Failed

  datatype ReservationState = Held | Consumed | Released

  predicate CanTransitionTo(current: SwapState, next: SwapState) {
    match (current, next)
    case (Created, InputFunding) => true
    case (InputFunding, InputLocked) => true
    case (InputFunding, Failed) => true
    case (InputLocked, OutputPending) => true
    case (InputLocked, Refunding) => true
    case (OutputPending, OutputUnknown) => true
    case (OutputPending, OutputSettled) => true
    case (OutputUnknown, OutputSettled) => true
    case (OutputUnknown, Refunding) => true
    case (OutputSettled, ClaimPending) => true
    case (ClaimPending, Settled) => true
    case (Refunding, Refunded) => true
    case (Refunding, Failed) => true
    case _ => false
  }

  function StateRank(state: SwapState): nat {
    match state
    case Created => 0
    case InputFunding => 1
    case InputLocked => 2
    case OutputPending => 3
    case OutputUnknown => 4
    case OutputSettled => 5
    case ClaimPending => 6
    case Settled => 7
    case _ => 8
  }

  /** The thirteen edges, by name. */
  lemma EdgesByName(a: SwapState, b: SwapState)
    ensures CanTransitionTo(a, b) <==> (a, b) in {
      (Created, InputFunding), (InputFunding, InputLocked), (InputFunding, Failed), (InputLocked, OutputPending),
      (InputLocked, Refunding), (OutputPending, OutputUnknown), (OutputPending, OutputSettled),
      (OutputUnknown, OutputSettled), (OutputUnknown, Refunding), (OutputSettled, ClaimPending),
      (ClaimPending, Settled), (Refunding, Refunded), (Refunding, Failed)}
  {
  }

  /** The success path in order of rank; the refund and failure states share the highest. */
  lemma RanksByName()
    ensures var success := [Created, InputFunding, InputLocked, OutputPending, OutputUnknown, OutputSettled,
                            ClaimPending, Settled];
      && (forall k :: 0 <= k < |success| ==> StateRank(success[k]) == k)
      && (forall s :: s in {Refunding, Refunded, Failed} ==> StateRank(s) == 8)
  {
  }

  /** A walk along allowed edges. */
  ghost predicate IsWalk(path: seq<SwapState>) {
    && path != []
    && forall k :: 0 <= k < |path| - 1 ==> CanTransitionTo(path[k], path[k + 1])
  }

  /** Longest number of further transitions a state leaves room for; every edge
      lowers it, which makes the state graph acyclic. */
  function Remaining(state: SwapState): nat {
    match state
    case Created => 7
    case InputFunding => 6
    case InputLocked => 5
    case OutputPending => 4
    case OutputUnknown => 3
    case OutputSettled => 2
    case ClaimPending => 1
    case Refunding => 1
    case _ => 0
  }

  lemma {:induction false} WalkDescends(path: seq<SwapState>, i: nat, j: nat)
    requires IsWalk(path) && i <= j < |path|
    ensures Remaining(path[i]) >= Remaining(path[j]) + (j - i)
    ensures StateRank(path[i]) <= StateRank(path[j])
    decreases j - i
  {
    if i < j {
      assert CanTransitionTo(path[i], path[i + 1]);
      WalkDescends(path, i + 1, j);
    }
  }

  /** Every walk is simple and makes at most seven transitions, whichever state it starts in. */
  lemma WalksAreShortAndSimple(path: seq<SwapState>)
    requires IsWalk(path)
    ensures |path| <= 8
    ensures forall i, j :: 0 <= i < j < |path| ==> path[i] != path[j]
  {
    forall i, j | 0 <= i < j < |path| ensures path[i] != path[j] {
      WalkDescends(path, i, j);
    }
    WalkDescends(path, 0, |path| - 1);
  }

  /** The bound is met: one walk makes seven transitions. */
  lemma LongestWalk() returns (path: seq<SwapState>)
    ensures IsWalk(path) && |path| == 8 && path[0] == Created && path[7] == Settled
  {
    path := [Created, InputFunding, InputLocked, OutputPending, OutputUnknown, OutputSettled, ClaimPending, Settled];
  }
}
