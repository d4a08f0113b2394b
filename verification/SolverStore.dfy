/** The solver and swap store: four tables, changed by commit-or-rollback methods
    (src/core/storage.rs). A method works on its transaction's copies and assigns the fields
    when it commits, so an error leaves every table as it was. JSON texts and digests are
    opaque strings; nothing assumes a digest to be injective. */
module SolverStore {
  import opened Wrappers
  import opened Settlement
  import opened Ledger
  import opened Journal

  datatype SwapRow = SwapRow(
    intentJson: string, quoteJson: string, state: SwapState, fundingTxid: Option<string>,
    claimTxid: Option<string>, paymentHash: Option<string>, evidenceJson: Option<string>,
    requestDigest: string)

  datatype StoreError =
    | InvalidTransition | StateMismatch | NoSuchSwap | ReplayMismatch | EvidenceMismatch | JournalConflict
    | NoLedger | AssetMismatch | ReservedExceedsAvailable | InsufficientInventory | ExpiryRange
    | ConstraintViolated | AmountOverflow | NoSuchReservation | CannotAttach | AttachedElsewhere
    | HashMismatch | NotHeld | BalanceAssertion | ConsumedCannotRelease | NotExpired | NoMatchingSwap
    | ExposedSwap

  const I64_BOUND := 0x8000_0000_0000_0000

  const RESERVE_PREFIX := "reserve:"

  function ReserveKey(id: string): string {
    RESERVE_PREFIX + id
  }

  /** The states whose swap no longer needs its reservation: never funded, failed or refunded. */
  predicate IsReleaseable(state: SwapState) {
    state.Created? || state.Failed? || state.Refunded?
  }

  function Coalesce(update: Option<string>, current: Option<string>): Option<string> {
    if update.Some? then update else current
  }

  function Moved(row: SwapRow, next: SwapState, hash: Option<string>, evidence: Option<string>): SwapRow {
    row.(state := next, paymentHash := Coalesce(hash, row.paymentHash),
         evidenceJson := Coalesce(evidence, row.evidenceJson))
  }

  predicate Agrees(stored: Option<string>, given: string) {
    stored.None? || stored.value == given
  }

  /** `append_journal_transaction` on the transaction's copy of the journal. */
  function Appended(journal: Table, key: string, entry: Entry): Result<Table, StoreError> {
    if key in journal then
      if journal[key] == entry then Ok(journal) else Err(JournalConflict)
    else Ok(journal[key := entry])
  }

  /** The reservation table's two UNIQUE columns and its primary key. */
  predicate Insertable(rs: Reservations, id: string, r: Reservation) {
    && id !in rs
    && forall other :: other in rs ==> rs[other].quoteId != r.quoteId && rs[other].hashCommitment != r.hashCommitment
  }

  /** The journal tells every swap's walk, and holds one entry for every stored reservation and for
      no other. */
  ghost predicate Journaled(swaps: map<string, SwapRow>, reserved: set<string>, journal: Table, paths: Paths) {
    && Recorded(journal, paths)
    && paths.Keys == swaps.Keys
    && (forall id {:trigger Named(id)} :: Named(id) && id in swaps ==> paths[id][|paths[id]| - 1] == swaps[id].state)
    && (forall id {:trigger Named(id)} :: Named(id) ==> (ReserveKey(id) in journal <==> id in reserved))
    && (forall id {:trigger Named(id)} :: Named(id) && id in reserved ==> journal[ReserveKey(id)].entityId == id)
  }

  class SqliteStore {
    const digest: string -> string
    const renderReservation: (string, Reservation) -> string
    const renderTransition: (string, string, Option<string>) -> string
    const renderEvidence: seq<string> -> string

    var swaps: map<string, SwapRow>
    var reservations: Reservations
    var ledgers: map<string, LedgerRow>
    var journal: Table

    /** What every ledger was opened with, and the walk every swap has taken. */
    ghost var inventory: map<string, U64>
    ghost var paths: Paths

    ghost predicate Valid()
      reads this
    {
      Balanced(reservations, ledgers, inventory) && Journaled(swaps, reservations.Keys, journal, paths)
    }

    constructor (digest: string -> string, renderReservation: (string, Reservation) -> string,
                 renderTransition: (string, string, Option<string>) -> string,
                 renderEvidence: seq<string> -> string)
      ensures Valid() && swaps == map[] && reservations == map[] && ledgers == map[] && journal == map[]
    {
      this.digest, this.renderReservation := digest, renderReservation;
      this.renderTransition, this.renderEvidence := renderTransition, renderEvidence;
      swaps, reservations, ledgers, journal := map[], map[], map[], map[];
      inventory, paths := map[], map[];
    }

    // Ledger.

    /** Opening an existing ledger again changes nothing, whatever amount it names. */
    method EnsureSolverLedger(solver: string, asset: string, available: U64)
      requires Valid()
      modifies `ledgers, `inventory
      ensures Valid()
      ensures solver in old(ledgers) ==> ledgers == old(ledgers) && inventory == old(inventory)
      ensures solver !in old(ledgers) ==>
        && ledgers == old(ledgers)[solver := LedgerRow(asset, available, 0, 0)]
        && inventory == old(inventory)[solver := available]
    {
      if solver !in ledgers {
        OpeningKeepsBalance(reservations, ledgers, inventory, solver, asset, available);
        ledgers := ledgers[solver := LedgerRow(asset, available, 0, 0)];
        inventory := inventory[solver := available];
      }
    }

    /** Reserving succeeds exactly when the ledger covers the amount and the row can be inserted; it
        stores the row, adds the amount to the reserved column and journals the row under the id's
        free key. It keeps the totals exactly when the row is held or moves nothing. */
    method Reserve(id: string, r: Reservation, asset: string) returns (res: Result<(), StoreError>)
      requires Valid()
      modifies `reservations, `ledgers, `journal
      ensures res.Ok? <==>
        && r.solverId in old(ledgers) && old(ledgers)[r.solverId].assetId == asset
        && old(ledgers)[r.solverId].reserved + r.amount <= old(ledgers)[r.solverId].available
        && r.expiresAt < 0x8000_0000_0000_0000 && id !in old(reservations)
        && (forall other :: other in old(reservations) ==>
              && old(reservations)[other].quoteId != r.quoteId
              && old(reservations)[other].hashCommitment != r.hashCommitment)
      ensures res.Err? ==> reservations == old(reservations) && ledgers == old(ledgers) && journal == old(journal)
      ensures res.Err? ==> Valid()
      ensures res.Err? ==> res.error in {NoLedger, AssetMismatch, InsufficientInventory, ExpiryRange,
                                         ConstraintViolated}
      ensures res.Ok? ==>
        && reservations == old(reservations)[id := r]
        && r.solverId in old(ledgers)
        && old(ledgers)[r.solverId].reserved + r.amount < U64_BOUND
        && (var l := old(ledgers)[r.solverId];
            ledgers == old(ledgers)[r.solverId := l.(reserved := l.reserved + r.amount)])
        && "reserve:" + id !in old(journal)
        && (var text := renderReservation(id, r);
            journal == old(journal)["reserve:" + id := Entry(id, digest(text), text)])
        && Journaled(swaps, reservations.Keys, journal, paths)
        && (Valid() <==> r.state == Held || r.amount == 0)
      ensures Evolves(old(reservations), reservations)
    {
      hide Journaled, Evolves, Insertable, Balanced;
      StaysPut(reservations);
      InsertableIff(reservations, id, r);
      if r.solverId !in ledgers {
        return Err(NoLedger);
      }
      var ledger := ledgers[r.solverId];
      RowIsCovered(reservations, ledgers, inventory, r.solverId);
      if ledger.assetId != asset {
        return Err(AssetMismatch);
      }
      if ledger.reserved > ledger.available {
        return Err(ReservedExceedsAvailable);
      }
      if ledger.available - ledger.reserved < r.amount {
        return Err(InsufficientInventory);
      }
      if r.expiresAt >= I64_BOUND {
        return Err(ExpiryRange);
      }
      if !Insertable(reservations, id, r) {
        return Err(ConstraintViolated);
      }
      var reserved := CheckedAdd(ledger.reserved, r.amount);
      if reserved.None? {
        return Err(AmountOverflow);
      }
      var text := renderReservation(id, r);
      var key := ReserveKey(id);
      var entry := Entry(id, digest(text), text);
      ReserveKeepsJournal(swaps, reservations.Keys, journal, paths, id, entry);
      var appended := Appended(journal, key, entry);
      if appended.Err? {
        return Err(JournalConflict);
      }
      ReserveKeepsBalance(reservations, ledgers, inventory, id, r);
      NewRowEvolves(reservations, id, r);
      assert ledger.(reserved := reserved.value) == Reserved(ledger, r.amount);
      assert reservations[id := r].Keys == reservations.Keys + {id};
      reservations := reservations[id := r];
      ledgers := ledgers[r.solverId := ledger.(reserved := reserved.value)];
      journal := appended.value;
      return Ok(());
    }

    /** Consuming moves the amount from available to consumed once; a repeat changes nothing,
        and the balance assertion and overflow errors cannot occur. */
    method ConsumeReservationWithHash(id: string, expectedHash: Option<string>) returns (res: Result<(), StoreError>)
      requires Valid()
      modifies `reservations, `ledgers
      ensures Valid()
      ensures res.Ok? <==>
        && id in old(reservations) && old(reservations)[id].state != Released
        && (expectedHash.Some? ==> old(reservations)[id].hashCommitment == expectedHash.value)
      ensures res.Err? ==> res.error in {NoSuchReservation, HashMismatch, NotHeld}
      ensures res.Err? ==> reservations == old(reservations) && ledgers == old(ledgers)
      ensures res.Ok? && old(reservations)[id].state == Consumed ==>
        reservations == old(reservations) && ledgers == old(ledgers)
      ensures res.Ok? && old(reservations)[id].state == Held ==>
        var r := old(reservations)[id];
        && reservations == old(reservations)[id := r.(state := Consumed)]
        && r.solverId in old(ledgers)
        && var l := old(ledgers)[r.solverId];
           && r.amount <= l.reserved <= l.available && l.consumed + r.amount < U64_BOUND
           && ledgers == old(ledgers)[r.solverId := LedgerRow(
                l.assetId, l.available - r.amount, l.reserved - r.amount, l.consumed + r.amount)]
      ensures Evolves(old(reservations), reservations)
    {
      if id !in reservations {
        return Err(NoSuchReservation);
      }
      var r := reservations[id];
      if expectedHash.Some? && r.hashCommitment != expectedHash.value {
        return Err(HashMismatch);
      }
      if r.state == Consumed {
        return Ok(());
      }
      if r.state != Held {
        return Err(NotHeld);
      }
      HeldIsCovered(reservations, ledgers, inventory, id);
      ClosingKeepsBalance(reservations, ledgers, inventory, id, Consumed);
      if r.solverId !in ledgers {
        return Err(NoLedger);
      }
      var ledger := ledgers[r.solverId];
      if ledger.available < r.amount || ledger.reserved < r.amount {
        return Err(BalanceAssertion);
      }
      var available := CheckedSub(ledger.available, r.amount);
      var reserved := CheckedSub(ledger.reserved, r.amount);
      var consumed := CheckedAdd(ledger.consumed, r.amount);
      if available.None? || reserved.None? || consumed.None? {
        return Err(AmountOverflow);
      }
      assert reservations[id := r.(state := Consumed)].Keys == reservations.Keys;
      reservations := reservations[id := r.(state := Consumed)];
      ledgers := ledgers[r.solverId :=
        ledger.(available := available.value, reserved := reserved.value, consumed := consumed.value)];
      return Ok(());
    }

    method ConsumeReservation(id: string) returns (res: Result<(), StoreError>)
      requires Valid()
      modifies `reservations, `ledgers
      ensures Valid()
      ensures res.Ok? <==> id in old(reservations) && old(reservations)[id].state != Released
      ensures res.Ok? ==> reservations == old(reservations)[id := old(reservations)[id].(state := Consumed)]
      ensures res.Err? ==> reservations == old(reservations) && ledgers == old(ledgers)
    {
      res := ConsumeReservationWithHash(id, None);
      if res.Ok? && old(reservations)[id].state == Consumed {
        assert reservations == reservations[id := reservations[id].(state := Consumed)];
      }
    }

    /** Release gives a held, expired reservation back, unless the swap it is attached to is in
        none of the states CREATED, FAILED and REFUNDED; a repeat changes nothing. */
    method ReleaseReservation(id: string, now: U64) returns (res: Result<(), StoreError>)
      requires Valid()
      modifies `reservations, `ledgers
      ensures Valid()
      ensures res.Ok? <==> id in old(reservations) && var r := old(reservations)[id];
        || r.state == Released
        || (r.state == Held && r.expiresAt <= now
            && (r.swapId.Some? ==>
                  r.swapId.value in swaps
                  && swaps[r.swapId.value].state in {SwapState.Created, SwapState.Failed, SwapState.Refunded}))
      ensures res.Err? ==>
        res.error in {NoSuchReservation, ConsumedCannotRelease, NotExpired, NoMatchingSwap, ExposedSwap}
      ensures res.Err? ==> reservations == old(reservations) && ledgers == old(ledgers)
      ensures res.Ok? && old(reservations)[id].state == Released ==>
        reservations == old(reservations) && ledgers == old(ledgers)
      ensures res.Ok? && old(reservations)[id].state == Held ==>
        var r := old(reservations)[id];
        && reservations == old(reservations)[id := r.(state := Released)]
        && r.solverId in old(ledgers)
        && var l := old(ledgers)[r.solverId];
           && r.amount <= l.reserved
           && ledgers == old(ledgers)[r.solverId := l.(reserved := l.reserved - r.amount)]
      ensures Evolves(old(reservations), reservations)
    {
      if id !in reservations {
        return Err(NoSuchReservation);
      }
      var r := reservations[id];
      if r.state == Released {
        return Ok(());
      }
      if r.state != Held {
        return Err(ConsumedCannotRelease);
      }
      if r.expiresAt > now {
        return Err(NotExpired);
      }
      if r.swapId.Some? {
        if r.swapId.value !in swaps {
          return Err(NoMatchingSwap);
        }
        if !IsReleaseable(swaps[r.swapId.value].state) {
          return Err(ExposedSwap);
        }
      }
      HeldIsCovered(reservations, ledgers, inventory, id);
      ClosingKeepsBalance(reservations, ledgers, inventory, id, Released);
      if r.solverId !in ledgers {
        return Err(NoLedger);
      }
      var ledger := ledgers[r.solverId];
      if ledger.reserved < r.amount {
        return Err(BalanceAssertion);
      }
      assert reservations[id := r.(state := Released)].Keys == reservations.Keys;
      reservations := reservations[id := r.(state := Released)];
      ledgers := ledgers[r.solverId := ledger.(reserved := ledger.reserved - r.amount)];
      return Ok(());
    }

    /** With nothing else writing between its statements, attaching binds an unexpired held
        reservation to one swap, and repeats for the same swap. */
    method AttachReservation(id: string, swapId: string, now: U64) returns (res: Result<(), StoreError>)
      requires Valid()
      modifies `reservations
      ensures Valid()
      ensures res.Ok? <==> id in old(reservations) && var r := old(reservations)[id];
        r.swapId == Some(swapId) || (r.swapId.None? && r.state == Held && r.expiresAt > now)
      ensures res.Ok? ==> reservations == old(reservations)[id := old(reservations)[id].(swapId := Some(swapId))]
      ensures res.Err? ==> reservations == old(reservations)
      ensures var s := old(reservations); res == AttachAcross(s, s, s, s, id, swapId, now).res
      ensures Evolves(old(reservations), reservations)
    {
      if id !in reservations {
        return Err(NoSuchReservation);
      }
      var r := reservations[id];
      if r.swapId == Some(swapId) {
        assert reservations == reservations[id := r];
        return Ok(());
      }
      if r.state != Held || r.expiresAt <= now {
        return Err(CannotAttach);
      }
      if r.swapId.None? {
        AttachingKeepsBalance(reservations, ledgers, inventory, id, Some(swapId));
        assert reservations[id := r.(swapId := Some(swapId))].Keys == reservations.Keys;
        reservations := reservations[id := r.(swapId := Some(swapId))];
        return Ok(());
      }
      return Err(AttachedElsewhere);
    }

    // Swaps.

    function RequestDigest(id: string, row: SwapRow): string {
      digest(id + ":" + row.intentJson + ":" + row.quoteJson)
    }

    /** A swap is inserted once; a replay is told apart by its digest alone and changes nothing. */
    method InsertSwap(id: string, row: SwapRow) returns (res: Result<(), StoreError>)
      requires Valid()
      modifies `swaps, `paths
      ensures Valid()
      ensures id !in old(swaps) ==>
        res.Ok?
        && swaps == old(swaps)[id := row.(requestDigest := digest(id + ":" + row.intentJson + ":" + row.quoteJson))]
        && paths == old(paths)[id := [row.state]]
      ensures id in old(swaps) ==>
        (res.Ok? <==> old(swaps)[id].requestDigest == digest(id + ":" + row.intentJson + ":" + row.quoteJson))
        && swaps == old(swaps) && paths == old(paths)
    {
      var d := RequestDigest(id, row);
      if id in swaps {
        if swaps[id].requestDigest != d {
          return Err(ReplayMismatch);
        }
        return Ok(());
      }
      InsertKeepsJournal(swaps, reservations.Keys, journal, paths, id, row.(requestDigest := d));
      swaps := swaps[id := row.(requestDigest := d)];
      paths := paths[id := [row.state]];
      return Ok(());
    }

    /** Moves a swap along one allowed edge and journals it; the journal never objects. */
    method TransitionSwap(id: string, expected: SwapState, next: SwapState, hash: Option<string>,
                          evidence: Option<string>) returns (res: Result<SwapRow, StoreError>)
      requires Valid()
      modifies `swaps, `journal, `paths
      ensures Valid()
      ensures res.Ok? <==> CanTransitionTo(expected, next) && id in old(swaps) && old(swaps)[id].state == expected
      ensures res.Err? ==> res.error in {InvalidTransition, NoSuchSwap, StateMismatch}
      ensures res.Err? ==> swaps == old(swaps) && journal == old(journal) && paths == old(paths)
      ensures res.Ok? ==>
        && swaps == old(swaps)[id := res.value]
        && (var row := old(swaps)[id];
            res.value == SwapRow(
              row.intentJson, row.quoteJson, next, row.fundingTxid, row.claimTxid,
              if hash.Some? then hash else row.paymentHash,
              if evidence.Some? then evidence else row.evidenceJson, row.requestDigest))
        && id in old(paths) && paths == old(paths)[id := old(paths)[id] + [next]]
        && (var from, to := StateText(expected), StateText(next);
            var key := "swap-transition:" + (id + ":" + (from + "->" + DebugName(next)));
            && key !in old(journal)
            && journal == old(journal)[key := Entry(
                 id, digest(id + ":" + from + ":" + DebugName(next)), renderTransition(from, to, hash))])
    {
      if !CanTransitionTo(expected, next) {
        return Err(InvalidTransition);
      }
      if id !in swaps {
        return Err(NoSuchSwap);
      }
      var row := swaps[id];
      if row.state != expected {
        return Err(StateMismatch);
      }
      var key, entry := TransitionKey(id, row.state, next), TransitionEntry(id, row.state, next, hash);
      TransitionKeepsJournal(swaps, reservations.Keys, journal, paths, id, Moved(row, next, hash, evidence), entry);
      var appended := Appended(journal, key, entry);
      if appended.Err? {
        return Err(JournalConflict);
      }
      swaps := swaps[id := Moved(row, next, hash, evidence)];
      journal := appended.value;
      paths := paths[id := paths[id] + [next]];
      return Ok(swaps[id]);
    }

    function TransitionEntry(id: string, current: SwapState, next: SwapState, hash: Option<string>): Entry {
      Entry(id, digest(id + ":" + StateText(current) + ":" + DebugName(next)),
            renderTransition(StateText(current), StateText(next), hash))
    }

    /** Evidence columns are filled once: a later call must repeat whatever they hold. */
    method RecordSwapEvidence(id: string, fundingTxid: string, claimTxid: string, hash: string, evidence: string)
      returns (res: Result<SwapRow, StoreError>)
      requires Valid()
      modifies `swaps, `journal
      ensures Valid()
      ensures var entry := Entry(
          id, digest(id + ":" + fundingTxid + ":" + claimTxid + ":" + hash + ":" + evidence),
          renderEvidence([fundingTxid, claimTxid, hash, evidence]));
        && (res.Ok? <==>
              && id in old(swaps)
              && (old(swaps)[id].fundingTxid == None || old(swaps)[id].fundingTxid == Some(fundingTxid))
              && (old(swaps)[id].claimTxid == None || old(swaps)[id].claimTxid == Some(claimTxid))
              && (old(swaps)[id].paymentHash == None || old(swaps)[id].paymentHash == Some(hash))
              && (old(swaps)[id].evidenceJson == None || old(swaps)[id].evidenceJson == Some(evidence))
              && ("swap-evidence:" + id in old(journal) ==> old(journal)["swap-evidence:" + id] == entry))
        && (res.Ok? ==>
              && swaps == old(swaps)[id := res.value]
              && (var row := old(swaps)[id];
                  res.value == SwapRow(row.intentJson, row.quoteJson, row.state, Some(fundingTxid), Some(claimTxid),
                                       Some(hash), Some(evidence), row.requestDigest))
              && journal == old(journal)["swap-evidence:" + id := entry])
      ensures res.Err? ==> swaps == old(swaps) && journal == old(journal)
    {
      if id !in swaps {
        return Err(NoSuchSwap);
      }
      var given := Evidenced(fundingTxid, claimTxid, hash, evidence);
      if !Repeats(swaps[id], given) {
        return Err(EvidenceMismatch);
      }
      var key, entry := EvidenceKey(id), EvidenceEntry(id, given);
      var appended := Appended(journal, key, entry);
      if appended.Err? {
        return Err(JournalConflict);
      }
      EvidenceKeyIsPlain(id);
      PlainKeyKeepsJournal(swaps, reservations.Keys, journal, paths, key, entry);
      assert appended.value == journal[key := entry];
      swaps := swaps[id := Filled(swaps[id], given)];
      journal := appended.value;
      return Ok(swaps[id]);
    }

    function EvidenceEntry(id: string, e: Evidence): Entry {
      Entry(id,
            digest(id + ":" + e.fundingTxid + ":" + e.claimTxid + ":" + e.hash + ":" + e.evidence),
            renderEvidence([e.fundingTxid, e.claimTxid, e.hash, e.evidence]))
    }

    /** Anyone may append, but only outside the two prefixes the store's own keys use does
        the agreement survive. */
    method AppendJournal(key: string, entry: Entry) returns (res: Result<(), StoreError>)
      requires Valid()
      modifies `journal
      ensures res.Ok? <==> key !in old(journal) || old(journal)[key] == entry
      ensures journal == if res.Ok? then old(journal)[key := entry] else old(journal)
      ensures !IsTransitionKey(key) && !IsReserveKey(key) ==> Valid()
    {
      var appended := Appended(journal, key, entry);
      if appended.Err? {
        return Err(JournalConflict);
      }
      if !IsTransitionKey(key) && !IsReserveKey(key) {
        PlainKeyKeepsJournal(swaps, reservations.Keys, journal, paths, key, entry);
      }
      assert appended.value == journal[key := entry];
      journal := appended.value;
      return Ok(());
    }
  }

  datatype Evidence = Evidenced(fundingTxid: string, claimTxid: string, hash: string, evidence: string)

  predicate Repeats(row: SwapRow, e: Evidence) {
    && Agrees(row.fundingTxid, e.fundingTxid) && Agrees(row.claimTxid, e.claimTxid)
    && Agrees(row.paymentHash, e.hash) && Agrees(row.evidenceJson, e.evidence)
  }

  function Filled(row: SwapRow, e: Evidence): SwapRow {
    row.(fundingTxid := Some(e.fundingTxid), claimTxid := Some(e.claimTxid),
         paymentHash := Some(e.hash), evidenceJson := Some(e.evidence))
  }

  function EvidenceKey(id: string): string {
    "swap-evidence:" + id
  }

  predicate IsReserveKey(key: string) {
    RESERVE_PREFIX <= key
  }

  lemma EvidenceKeyIsPlain(id: string)
    ensures !IsTransitionKey(EvidenceKey(id)) && !IsReserveKey(EvidenceKey(id))
  {
    assert EvidenceKey(id)[5] == 'e' && TRANSITION_PREFIX[5] == 't';
    assert EvidenceKey(id)[0] == 's';
  }

  /** Keys outside the two prefixes touch nothing the agreement is about. */
  lemma PlainKeyKeepsJournal(swaps: map<string, SwapRow>, reserved: set<string>, journal: Table, paths: Paths,
                             key: string, entry: Entry)
    requires Journaled(swaps, reserved, journal, paths) && !IsTransitionKey(key) && !IsReserveKey(key)
    ensures Journaled(swaps, reserved, journal[key := entry], paths)
  {
    OtherKeysKeepRecord(journal, paths, key, entry);
    forall id ensures ReserveKey(id) != key {
      assert IsReserveKey(ReserveKey(id));
    }
  }

  /** A new reservation's key is free, and its entry keeps the agreement. */
  lemma ReserveKeepsJournal(swaps: map<string, SwapRow>, reserved: set<string>, journal: Table, paths: Paths,
                            id: string, entry: Entry)
    requires Journaled(swaps, reserved, journal, paths) && id !in reserved && entry.entityId == id
    ensures ReserveKey(id) !in journal
    ensures Journaled(swaps, reserved + {id}, journal[ReserveKey(id) := entry], paths)
  {
    assert Named(id);
    assert ReserveKey(id)[0] == 'r';
    OtherKeysKeepRecord(journal, paths, ReserveKey(id), entry);
    forall other | ReserveKey(other) == ReserveKey(id) ensures other == id {
      assert ReserveKey(other)[|RESERVE_PREFIX|..] == other;
      assert ReserveKey(id)[|RESERVE_PREFIX|..] == id;
    }
  }

  /** The journal holds the entry of a reservation exactly if the reservation is stored, and the
      entry names it. */
  lemma ReservationIsJournaled(swaps: map<string, SwapRow>, reserved: set<string>, journal: Table, paths: Paths,
                               id: string)
    requires Journaled(swaps, reserved, journal, paths)
    ensures "reserve:" + id in journal <==> id in reserved
    ensures id in reserved ==> journal["reserve:" + id].entityId == id
  {
    assert Named(id);
    assert ReserveKey(id) == "reserve:" + id;
  }

  lemma InsertKeepsJournal(swaps: map<string, SwapRow>, reserved: set<string>, journal: Table, paths: Paths,
                           id: string, row: SwapRow)
    requires Journaled(swaps, reserved, journal, paths) && id !in swaps
    ensures Journaled(swaps[id := row], reserved, journal, paths[id := [row.state]])
  {
    InsertKeepsRecord(journal, paths, id, row.state);
  }

  lemma KeysDiffer(id: string, from: SwapState, to: SwapState)
    ensures forall other {:trigger ReserveKey(other)} :: ReserveKey(other) != TransitionKey(id, from, to)
  {
    var key := TransitionKey(id, from, to);
    assert key[0] == 's';
    forall other ensures ReserveKey(other) != key {
      assert ReserveKey(other)[0] == 'r';
    }
  }

  lemma TransitionKeepsJournal(swaps: map<string, SwapRow>, reserved: set<string>, journal: Table, paths: Paths,
                               id: string, row: SwapRow, entry: Entry)
    requires Journaled(swaps, reserved, journal, paths) && id in swaps && entry.entityId == id
    requires CanTransitionTo(swaps[id].state, row.state)
    ensures var key := TransitionKey(id, swaps[id].state, row.state);
      && key !in journal
      && Journaled(swaps[id := row], reserved, journal[key := entry], paths[id := paths[id] + [row.state]])
  {
    hide TransitionKey, ReserveKey;
    var key := TransitionKey(id, swaps[id].state, row.state);
    assert Named(id);
    NextEdgeIsNew(journal, paths, id, row.state);
    TransitionKeepsRecord(journal, paths, id, row.state, entry);
    KeysDiffer(id, swaps[id].state, row.state);
  }

  // Attaching with other writers between its four autocommit statements.

  datatype Attached = Attached(res: Result<(), StoreError>, wrote: bool)

  /** What attaching does when its four statements see the table as `s0`, `s1`, `s2` and `s3`. */
  function AttachAcross(s0: Reservations, s1: Reservations, s2: Reservations, s3: Reservations, id: string,
                        swapId: string, now: U64): Attached
  {
    if id !in s0 then Attached(Err(NoSuchReservation), false)
    else if id in s1 && s1[id].swapId == Some(swapId) then Attached(Ok(()), false)
    else if s0[id].state != Held || s0[id].expiresAt <= now then Attached(Err(CannotAttach), false)
    else if id in s2 && s2[id].swapId.None? then Attached(Ok(()), true)
    else if id in s3 && s3[id].swapId == Some(swapId) then Attached(Ok(()), false)
    else Attached(Err(AttachedElsewhere), false)
  }

  /** What every writer of the table keeps: rows stay, an attached swap stays, a closed state stays. */
  predicate RowEvolves(a: Reservation, b: Reservation) {
    && (a.swapId.Some? ==> b.swapId == a.swapId)
    && (a.state != Held ==> b.state == a.state)
    && b == a.(swapId := b.swapId, state := b.state)
  }

  ghost predicate Evolves(a: Reservations, b: Reservations) {
    forall id :: id in a ==> id in b && RowEvolves(a[id], b[id])
  }

  lemma InsertableIff(rs: Reservations, id: string, r: Reservation)
    ensures Insertable(rs, id, r) <==>
      && id !in rs
      && forall other :: other in rs ==> rs[other].quoteId != r.quoteId && rs[other].hashCommitment != r.hashCommitment
  {
  }

  lemma StaysPut(rs: Reservations)
    ensures Evolves(rs, rs)
  {
  }

  lemma NewRowEvolves(rs: Reservations, id: string, r: Reservation)
    requires id !in rs
    ensures Evolves(rs, rs[id := r])
  {
  }

  function WithSwap(rs: Reservations, id: string, swapId: string): Reservations
    requires id in rs
  {
    rs[id := rs[id].(swapId := Some(swapId))]
  }

  /** Whatever other writers do in between, a success leaves the row attached to this swap, for
      good, and the write replaced nothing. */
  lemma AttachNeverSteals(s0: Reservations, s1: Reservations, s2: Reservations, s3: Reservations,
                          later: Reservations, id: string, swapId: string, now: U64)
    requires Evolves(s0, s1) && Evolves(s1, s2)
    requires var a := AttachAcross(s0, s1, s2, s3, id, swapId, now);
      && a.res.Ok?
      && if a.wrote then id in s2 && Evolves(WithSwap(s2, id, swapId), later)
         else Evolves(s2, s3) && Evolves(s3, later)
    ensures id in later && later[id].swapId == Some(swapId)
    ensures AttachAcross(s0, s1, s2, s3, id, swapId, now).wrote ==> Evolves(s2, WithSwap(s2, id, swapId))
  {
    assert id in s1;
    assert id in s2;
    if AttachAcross(s0, s1, s2, s3, id, swapId, now).wrote {
      assert id in WithSwap(s2, id, swapId);
    } else {
      assert id in s3;
    }
  }

  /** A refused call wrote nothing. */
  lemma RefusedAttachWritesNothing(s0: Reservations, s1: Reservations, s2: Reservations, s3: Reservations, id: string,
                                   swapId: string, now: U64)
    ensures var a := AttachAcross(s0, s1, s2, s3, id, swapId, now); a.res.Err? ==> !a.wrote
  {
  }

  /** The table as the call leaves it: written by the update, or as the statement that found the
      row already attached saw it. */
  function AfterAttach(s0: Reservations, s1: Reservations, s2: Reservations, s3: Reservations, id: string,
                       swapId: string, now: U64): Reservations
    requires AttachAcross(s0, s1, s2, s3, id, swapId, now).res.Ok?
  {
    if AttachAcross(s0, s1, s2, s3, id, swapId, now).wrote then WithSwap(s2, id, swapId)
    else if id in s1 && s1[id].swapId == Some(swapId) then s1 else s3
  }

  /** When a success leaves the reservation held. If the call wrote, exactly when the row was
      still held at the update, and it was held and unexpired at the first statement. If it found
      the row attached, exactly when the row was held where it found it: at the second statement
      whatever its state, or at the fourth, after another writer attached the same swap before the
      update. Which statement decides is the definition's; what the rules of the other writers add
      is what must have held before it. */
  lemma AttachedIsHeldIff(s0: Reservations, s1: Reservations, s2: Reservations, s3: Reservations,
                          id: string, swapId: string, now: U64)
    requires Evolves(s0, s1) && Evolves(s1, s2) && Evolves(s2, s3)
    requires AttachAcross(s0, s1, s2, s3, id, swapId, now).res.Ok?
    ensures var a, after := AttachAcross(s0, s1, s2, s3, id, swapId, now), AfterAttach(s0, s1, s2, s3, id, swapId, now);
      && id in s0 && id in s1 && id in s2 && id in s3 && id in after && after[id].swapId == Some(swapId)
      && (a.wrote ==>
            && (after[id].state == Held <==> s2[id].state == Held)
            && s2[id].swapId.None? && s0[id].state == Held && s0[id].expiresAt > now
            && (after[id].state == Held ==> s1[id].state == Held))
      && (!a.wrote && s1[id].swapId == Some(swapId) ==> (after[id].state == Held <==> s1[id].state == Held))
      && (!a.wrote && s1[id].swapId != Some(swapId) ==>
            && (after[id].state == Held <==> s3[id].state == Held)
            && s1[id].swapId.None? && s2[id].swapId == Some(swapId))
  {
    assert id in s1 && RowEvolves(s0[id], s1[id]);
    assert id in s2 && RowEvolves(s1[id], s2[id]);
    assert id in s3 && RowEvolves(s2[id], s3[id]);
  }

  /** Alone on the table: a success is a write to a held, unexpired, unattached row, which stays
      held, or finds the row attached to this swap already and changes nothing. The fourth
      statement never decides. So a success leaves the row held exactly when it found it held. */
  lemma AttachAlone(s: Reservations, id: string, swapId: string, now: U64)
    ensures AttachAcross(s, s, s, s, id, swapId, now).res.Ok? <==>
      id in s && (s[id].swapId == Some(swapId) || (s[id].swapId.None? && s[id].state == Held && s[id].expiresAt > now))
    ensures var a := AttachAcross(s, s, s, s, id, swapId, now);
      (a.res.Ok? ==>
            var after := AfterAttach(s, s, s, s, id, swapId, now);
            && (a.wrote <==> s[id].swapId.None?)
            && after == (if a.wrote then WithSwap(s, id, swapId) else s)
            && (after[id].state == Held <==> s[id].state == Held) && (a.wrote ==> after[id].state == Held))
  {
  }

  /** The update checks only the swap column, so a release between the first statement and the
      update leaves a released reservation attached. */
  lemma AttachCanBindReleased(row: Reservation, id: string, swapId: string, now: U64)
    returns (s0: Reservations, s2: Reservations)
    requires row.state == Held && row.swapId.None? && row.expiresAt > now
    ensures Evolves(s0, s2) && id in s2 && s2[id].state == Released
    ensures AttachAcross(s0, s0, s2, s2, id, swapId, now) == Attached(Ok(()), true)
  {
    s0 := map[id := row];
    s2 := map[id := row.(state := Released)];
  }

  /** Without any other writer, attaching a closed row again to its own swap succeeds as well. */
  lemma AttachAcceptsClosed(row: Reservation, id: string, swapId: string, now: U64)
    requires row.swapId == Some(swapId) && row.state != Held
    ensures var s: Reservations := map[id := row];
      && AttachAcross(s, s, s, s, id, swapId, now) == Attached(Ok(()), false)
      && AfterAttach(s, s, s, s, id, swapId, now)[id].state != Held
  {
  }
}
