/** The journal and the swap states agree: the swap-transition entries of a swap are exactly
    the edges of one simple path from the state it was inserted in to the state it is in
    (src/core/storage.rs, src/core/settlement.rs). */
module Journal {
  import opened Wrappers
  import opened Settlement
  import opened Texts

  /** How the state column and the payloads spell a state. */
  function StateText(state: SwapState): string {
    match state
    case Created => "CREATED"
    case InputFunding => "INPUT_FUNDING"
    case InputLocked => "INPUT_LOCKED"
    case OutputPending => "OUTPUT_PENDING"
    case OutputUnknown => "OUTPUT_UNKNOWN"
    case OutputSettled => "OUTPUT_SETTLED"
    case ClaimPending => "CLAIM_PENDING"
    case Settled => "SETTLED"
    case Refunding => "REFUNDING"
    case Refunded => "REFUNDED"
    case Failed => "FAILED"
  }

  /** How Rust's `Debug` spells it, which the keys use for the next state. */
  function DebugName(state: SwapState): string {
    match state
    case Created => "Created"
    case InputFunding => "InputFunding"
    case InputLocked => "InputLocked"
    case OutputPending => "OutputPending"
    case OutputUnknown => "OutputUnknown"
    case OutputSettled => "OutputSettled"
    case ClaimPending => "ClaimPending"
    case Settled => "Settled"
    case Refunding => "Refunding"
    case Refunded => "Refunded"
    case Failed => "Failed"
  }

  function ParseState(text: string): Option<SwapState> {
    if text == "CREATED" then Some(SwapState.Created)
    else if text == "INPUT_FUNDING" then Some(InputFunding)
    else if text == "INPUT_LOCKED" then Some(InputLocked)
    else if text == "OUTPUT_PENDING" then Some(OutputPending)
    else if text == "OUTPUT_UNKNOWN" then Some(OutputUnknown)
    else if text == "OUTPUT_SETTLED" then Some(SwapState.OutputSettled)
    else if text == "CLAIM_PENDING" then Some(ClaimPending)
    else if text == "SETTLED" then Some(SwapState.Settled)
    else if text == "REFUNDING" then Some(Refunding)
    else if text == "REFUNDED" then Some(Refunded)
    else if text == "FAILED" then Some(SwapState.Failed)
    else None
  }

  /** Length, first and eighth letter tell the spellings apart. */
  function Signature(text: string): (nat, char, char) {
    (|text|, if |text| > 0 then text[0] else ' ', if |text| > 7 then text[7] else ' ')
  }

  lemma TextIsInjective(a: SwapState, b: SwapState)
    requires StateText(a) == StateText(b)
    ensures a == b
  {
    assert Signature(StateText(a)) == Signature(StateText(b));
  }

  lemma DebugIsInjective(a: SwapState, b: SwapState)
    requires DebugName(a) == DebugName(b)
    ensures a == b
  {
    assert Signature(DebugName(a)) == Signature(DebugName(b));
  }

  /** Exactly the stored text of a state parses to it. */
  lemma ParseInvertsText(text: string, state: SwapState)
    ensures ParseState(text) == Some(state) <==> text == StateText(state)
  {
    forall other | StateText(other) == StateText(state) ensures other == state {
      TextIsInjective(other, state);
    }
  }

  /** The stored texts and the names in the keys, state by state. */
  lemma TextsByName()
    ensures forall k :: 0 <= k < 11 ==>
      var state := [SwapState.Created, InputFunding, InputLocked, OutputPending, OutputUnknown, SwapState.OutputSettled,
                    ClaimPending, SwapState.Settled, Refunding, Refunded, SwapState.Failed][k];
      && StateText(state) == ["CREATED", "INPUT_FUNDING", "INPUT_LOCKED", "OUTPUT_PENDING", "OUTPUT_UNKNOWN",
                              "OUTPUT_SETTLED", "CLAIM_PENDING", "SETTLED", "REFUNDING", "REFUNDED", "FAILED"][k]
      && DebugName(state) == ["Created", "InputFunding", "InputLocked", "OutputPending", "OutputUnknown",
                              "OutputSettled", "ClaimPending", "Settled", "Refunding", "Refunded", "Failed"][k]
  {
  }

  // Keys.

  const TRANSITION_PREFIX := "swap-transition:"

  function EdgeText(a: SwapState, b: SwapState): string {
    StateText(a) + "->" + DebugName(b)
  }

  function TransitionKey(id: string, a: SwapState, b: SwapState): string {
    TRANSITION_PREFIX + (id + ":" + EdgeText(a, b))
  }

  predicate IsTransitionKey(key: string) {
    TRANSITION_PREFIX <= key
  }

  lemma StateTextIsPlain(a: SwapState)
    ensures '-' !in StateText(a) && ':' !in StateText(a)
  {
  }

  lemma EdgeTextHasNoColon(a: SwapState, b: SwapState)
    ensures ':' !in EdgeText(a, b)
  {
    StateTextIsPlain(a);
    assert ':' !in DebugName(b);
    assert ':' !in "->";
  }

  lemma ArrowSplits(x: string, s: string, y: string, t: string)
    requires x + "->" + s == y + "->" + t && '-' !in x && '-' !in y
    ensures x == y && s == t
  {
    assert x + ['-'] + (['>'] + s) == x + "->" + s;
    assert y + ['-'] + (['>'] + t) == y + "->" + t;
    FirstSeparator(x, ['>'] + s, y, ['>'] + t, '-');
    assert s == (['>'] + s)[1..] && t == (['>'] + t)[1..];
  }

  lemma EdgeTextIsInjective(a: SwapState, b: SwapState, c: SwapState, d: SwapState)
    requires EdgeText(a, b) == EdgeText(c, d)
    ensures a == c && b == d
  {
    StateTextIsPlain(a);
    StateTextIsPlain(c);
    ArrowSplits(StateText(a), DebugName(b), StateText(c), DebugName(d));
    TextIsInjective(a, c);
    DebugIsInjective(b, d);
  }

  /** The key of a transition names its swap and its edge, whatever characters the id has. */
  lemma KeyIsInjective(id: string, a: SwapState, b: SwapState, other: string, c: SwapState, d: SwapState)
    requires TransitionKey(id, a, b) == TransitionKey(other, c, d)
    ensures id == other && a == c && b == d
  {
    var n := |TRANSITION_PREFIX|;
    assert TransitionKey(id, a, b)[n..] == id + ":" + EdgeText(a, b);
    assert TransitionKey(other, c, d)[n..] == other + ":" + EdgeText(c, d);
    EdgeTextHasNoColon(a, b);
    EdgeTextHasNoColon(c, d);
    LastSeparator(id, EdgeText(a, b), other, EdgeText(c, d), ':');
    EdgeTextIsInjective(a, b, c, d);
  }

  // Entries.

  datatype Entry = Entry(entityId: string, requestDigest: string, payload: string)

  type Table = map<string, Entry>

  /** The walk each stored swap has taken. */
  type Paths = map<string, seq<SwapState>>

  /** `key` names the `k`-th edge of a swap's walk. */
  predicate IsEdgeKey(paths: Paths, id: string, k: nat, key: string) {
    id in paths && k + 1 < |paths[id]| && key == TransitionKey(id, paths[id][k], paths[id][k + 1])
  }

  ghost predicate Explained(paths: Paths, key: string) {
    exists id, k: nat :: IsEdgeKey(paths, id, k, key)
  }

  ghost predicate Recorded(journal: Table, paths: Paths) {
    && (forall id :: id in paths ==> IsWalk(paths[id]))
    && (forall key :: key in journal && IsTransitionKey(key) ==> Explained(paths, key))
    && (forall id, k: nat, key :: IsEdgeKey(paths, id, k, key) ==> key in journal && journal[key].entityId == id)
  }

  /** The key of the next edge of a walk is never taken: the journal cannot object. */
  lemma NextEdgeIsNew(journal: Table, paths: Paths, id: string, next: SwapState)
    requires Recorded(journal, paths) && id in paths
    requires CanTransitionTo(paths[id][|paths[id]| - 1], next)
    ensures TransitionKey(id, paths[id][|paths[id]| - 1], next) !in journal
  {
    var last := paths[id][|paths[id]| - 1];
    var key := TransitionKey(id, last, next);
    assert key[..|TRANSITION_PREFIX|] == TRANSITION_PREFIX;
    if key in journal {
      assert Explained(paths, key);
      var other, k: nat :| IsEdgeKey(paths, other, k, key);
      KeyIsInjective(id, last, next, other, paths[other][k], paths[other][k + 1]);
      WalksAreShortAndSimple(paths[id]);
    }
  }

  /** Recording the next edge keeps the journal in step. */
  lemma TransitionKeepsRecord(journal: Table, paths: Paths, id: string, next: SwapState, entry: Entry)
    requires Recorded(journal, paths) && id in paths && entry.entityId == id
    requires CanTransitionTo(paths[id][|paths[id]| - 1], next)
    ensures var key := TransitionKey(id, paths[id][|paths[id]| - 1], next);
      Recorded(journal[key := entry], paths[id := paths[id] + [next]])
  {
    var walk := paths[id];
    var last := |walk| - 1;
    var key := TransitionKey(id, walk[last], next);
    var after, paths' := journal[key := entry], paths[id := walk + [next]];
    forall other | other in after && IsTransitionKey(other) ensures Explained(paths', other) {
      if other == key {
        assert IsEdgeKey(paths', id, last, key);
      } else {
        assert Explained(paths, other);
        var i, k: nat :| IsEdgeKey(paths, i, k, other);
        assert IsEdgeKey(paths', i, k, other);
      }
    }
    forall i, k: nat, other | IsEdgeKey(paths', i, k, other)
      ensures other in after && after[other].entityId == i
    {
      if i == id && k == last {
      } else {
        assert IsEdgeKey(paths, i, k, other);
        if other == key {
          KeyIsInjective(i, paths[i][k], paths[i][k + 1], id, walk[last], next);
        }
      }
    }
  }

  lemma InsertKeepsRecord(journal: Table, paths: Paths, id: string, state: SwapState)
    requires Recorded(journal, paths) && id !in paths
    ensures Recorded(journal, paths[id := [state]])
  {
    var paths' := paths[id := [state]];
    forall key | key in journal && IsTransitionKey(key) ensures Explained(paths', key) {
      assert Explained(paths, key);
      var i, k: nat :| IsEdgeKey(paths, i, k, key);
      assert IsEdgeKey(paths', i, k, key);
    }
    forall i, k: nat, key | IsEdgeKey(paths', i, k, key) ensures key in journal && journal[key].entityId == i {
      assert IsEdgeKey(paths, i, k, key);
    }
  }

  lemma OtherKeysKeepRecord(journal: Table, paths: Paths, key: string, entry: Entry)
    requires Recorded(journal, paths) && !IsTransitionKey(key)
    ensures Recorded(journal[key := entry], paths)
  {
    forall i, k: nat ensures !IsEdgeKey(paths, i, k, key) {
      if i in paths && k + 1 < |paths[i]| {
        var edge := TransitionKey(i, paths[i][k], paths[i][k + 1]);
        assert edge[..|TRANSITION_PREFIX|] == TRANSITION_PREFIX;
      }
    }
  }

  // What the journal says about one swap.

  /** The swap-transition keys the journal holds for a swap. */
  ghost predicate IsKeyOf(id: string, key: string) {
    exists a, b :: key == TransitionKey(id, a, b)
  }

  ghost function KeysOf(journal: Table, id: string): set<string> {
    set key | key in journal && IsKeyOf(id, key)
  }

  function EdgeAt(walk: seq<SwapState>, id: string, k: nat): string
    requires k + 1 < |walk|
  {
    TransitionKey(id, walk[k], walk[k + 1])
  }

  ghost function EdgeKeys(walk: seq<SwapState>, id: string, n: nat): set<string>
    requires n < |walk|
  {
    set k: nat | k < n :: EdgeAt(walk, id, k)
  }

  lemma {:induction false} EdgeKeysAreDistinct(walk: seq<SwapState>, id: string, n: nat)
    requires IsWalk(walk) && n < |walk|
    ensures |EdgeKeys(walk, id, n)| == n
  {
    hide TransitionKey, CanTransitionTo;
    if n > 0 {
      EdgeKeysAreDistinct(walk, id, n - 1);
      var key := EdgeAt(walk, id, n - 1);
      assert EdgeKeys(walk, id, n) == EdgeKeys(walk, id, n - 1) + {key};
      if key in EdgeKeys(walk, id, n - 1) {
        var k: nat :| k < n - 1 && EdgeAt(walk, id, k) == key;
        KeyIsInjective(id, walk[k], walk[k + 1], id, walk[n - 1], walk[n]);
        WalksAreShortAndSimple(walk);
      }
    }
  }

  lemma KeyOfSwapIsEdge(journal: Table, paths: Paths, id: string, key: string)
    requires Recorded(journal, paths) && id in paths && key in journal && IsKeyOf(id, key)
    ensures key in EdgeKeys(paths[id], id, |paths[id]| - 1)
  {
    var a, b :| key == TransitionKey(id, a, b);
    assert key[..|TRANSITION_PREFIX|] == TRANSITION_PREFIX;
    assert Explained(paths, key);
    var other, k: nat :| IsEdgeKey(paths, other, k, key);
    KeyIsInjective(id, a, b, other, paths[other][k], paths[other][k + 1]);
    assert key == EdgeAt(paths[id], id, k);
  }

  lemma EdgeIsKeyOfSwap(journal: Table, paths: Paths, id: string, k: nat)
    requires Recorded(journal, paths) && id in paths && k + 1 < |paths[id]|
    ensures EdgeAt(paths[id], id, k) in KeysOf(journal, id)
  {
    assert IsEdgeKey(paths, id, k, EdgeAt(paths[id], id, k));
  }

  lemma KeysAreEdges(journal: Table, paths: Paths, id: string)
    requires Recorded(journal, paths) && id in paths
    ensures KeysOf(journal, id) == EdgeKeys(paths[id], id, |paths[id]| - 1)
  {
    var walk := paths[id];
    var n := |walk| - 1;
    forall key | key in KeysOf(journal, id) ensures key in EdgeKeys(walk, id, n) {
      KeyOfSwapIsEdge(journal, paths, id, key);
    }
    forall key | key in EdgeKeys(walk, id, n) ensures key in KeysOf(journal, id) {
      var k: nat :| k < n && EdgeAt(walk, id, k) == key;
      EdgeIsKeyOfSwap(journal, paths, id, k);
    }
  }

  /** The journal holds one entry per edge of a swap's walk and no other transition entry for
      it, so at most seven in all. */
  lemma JournalIsThePath(journal: Table, paths: Paths, id: string)
    requires Recorded(journal, paths) && id in paths
    ensures KeysOf(journal, id) == EdgeKeys(paths[id], id, |paths[id]| - 1)
    ensures |KeysOf(journal, id)| == |paths[id]| - 1 <= 7
  {
    KeysAreEdges(journal, paths, id);
    EdgeKeysAreDistinct(paths[id], id, |paths[id]| - 1);
    WalksAreShortAndSimple(paths[id]);
  }
}
