/** The solver's ledger columns are running totals over its reservation table
    (src/core/storage.rs). Amounts are canonical decimal texts below 2^64; they are kept as the
    numbers they stand for. */
module Ledger {
  import opened Wrappers
  import opened Settlement

  datatype Reservation = Reservation(
    solverId: string, quoteId: string, swapId: Option<string>, amount: U64, hashCommitment: string,
    state: ReservationState, expiresAt: U64)

  type Reservations = map<string, Reservation>

  datatype LedgerRow = LedgerRow(assetId: string, available: U64, reserved: U64, consumed: U64)

  function Share(r: Reservation, solver: string, state: ReservationState): nat {
    if r.solverId == solver && r.state == state then r.amount else 0
  }

  /** What a solver's reservations in one state add up to. */
  ghost function Total(rs: Reservations, solver: string, state: ReservationState): nat
    decreases |rs|
  {
    if rs == map[] then 0
    else
      var id :| id in rs;
      Share(rs[id], solver, state) + Total(rs - {id}, solver, state)
  }

  lemma {:induction false} TotalWithout(rs: Reservations, id: string, solver: string, state: ReservationState)
    requires id in rs
    ensures Total(rs, solver, state) == Share(rs[id], solver, state) + Total(rs - {id}, solver, state)
    decreases |rs|
  {
    var first :| first in rs && Total(rs, solver, state)
      == Share(rs[first], solver, state) + Total(rs - {first}, solver, state);
    if first != id {
      TotalWithout(rs - {first}, id, solver, state);
      TotalWithout(rs - {id}, first, solver, state);
      assert rs - {first} - {id} == rs - {id} - {first};
    }
  }

  /** Writing one row changes a total by what the row counted before and after. */
  lemma TotalAfterWrite(rs: Reservations, id: string, r: Reservation, solver: string, state: ReservationState)
    ensures Total(rs[id := r], solver, state) + (if id in rs then Share(rs[id], solver, state) else 0)
      == Total(rs, solver, state) + Share(r, solver, state)
  {
    var written := rs[id := r];
    TotalWithout(written, id, solver, state);
    assert written - {id} == rs - {id};
    if id in rs {
      TotalWithout(rs, id, solver, state);
    } else {
      assert rs - {id} == rs;
    }
  }

  lemma ShareWithinTotal(rs: Reservations, id: string)
    requires id in rs
    ensures rs[id].amount <= Total(rs, rs[id].solverId, rs[id].state)
  {
    TotalWithout(rs, id, rs[id].solverId, rs[id].state);
  }

  /** One solver's row agrees with the reservation table and with what it started from. */
  ghost predicate RowBalanced(rs: Reservations, l: LedgerRow, solver: string, initial: nat) {
    && l.available + l.consumed == initial
    && l.reserved == Total(rs, solver, Held)
    && l.consumed == Total(rs, solver, Consumed)
    && l.reserved <= l.available
  }

  /** Names a key; quantifying over `Named` keeps the invariants folded until a key is named. */
  predicate Named(key: string) {
    true
  }

  /** `inventory` is what each solver's ledger was opened with. */
  ghost predicate Balanced(rs: Reservations, ledgers: map<string, LedgerRow>, inventory: map<string, U64>) {
    && inventory.Keys == ledgers.Keys
    && (forall s {:trigger Named(s)} :: Named(s) && s in ledgers ==> RowBalanced(rs, ledgers[s], s, inventory[s]))
    && (forall id {:trigger Named(id)} :: Named(id) && id in rs ==> rs[id].solverId in ledgers)
  }

  /** A balanced ledger row, column by column: what was spent is gone from what is available, what
      is reserved backs the held reservations, and together they never exceed the inventory. */
  lemma LedgerIsExact(rs: Reservations, ledgers: map<string, LedgerRow>, inventory: map<string, U64>, solver: string)
    requires Balanced(rs, ledgers, inventory) && solver in ledgers
    ensures var l := ledgers[solver];
      && solver in inventory
      && l.available == inventory[solver] - Total(rs, solver, Consumed)
      && l.reserved == Total(rs, solver, Held) && l.consumed == Total(rs, solver, Consumed)
      && Total(rs, solver, Held) + Total(rs, solver, Consumed) <= inventory[solver]
  {
    assert Named(solver);
  }

  lemma RowIsCovered(rs: Reservations, ledgers: map<string, LedgerRow>, inventory: map<string, U64>, solver: string)
    requires Balanced(rs, ledgers, inventory) && solver in ledgers
    ensures ledgers[solver].reserved <= ledgers[solver].available
  {
    assert Named(solver);
  }

  /** What reserving does to the tables. */
  function Reserved(l: LedgerRow, amount: U64): LedgerRow
    requires l.reserved + amount < U64_BOUND
  {
    l.(reserved := l.reserved + amount)
  }

  /** Reserving adds to the reserved column whatever state the row carries, so it keeps the
      totals exactly when the row is held or moves nothing. */
  lemma ReserveKeepsBalance(rs: Reservations, ledgers: map<string, LedgerRow>, inventory: map<string, U64>,
                            id: string, r: Reservation)
    requires Balanced(rs, ledgers, inventory) && id !in rs && r.solverId in ledgers
    requires ledgers[r.solverId].reserved + r.amount <= ledgers[r.solverId].available
    ensures Balanced(rs[id := r], ledgers[r.solverId := Reserved(ledgers[r.solverId], r.amount)], inventory)
       <==> r.state == Held || r.amount == 0
  {
    var solver := r.solverId;
    var after := ledgers[solver := Reserved(ledgers[solver], r.amount)];
    TotalAfterWrite(rs, id, r, solver, Held);
    TotalAfterWrite(rs, id, r, solver, Consumed);
    assert Named(solver);
    assert RowBalanced(rs[id := r], after[solver], solver, inventory[solver])
      <==> r.state == Held || r.amount == 0;
    forall s | s in ledgers && s != solver ensures RowBalanced(rs[id := r], after[s], s, inventory[s]) {
      OtherSolverUnmoved(rs, id, r, s);
      assert Named(s);
    }
  }

  lemma OtherSolverUnmoved(rs: Reservations, id: string, r: Reservation, s: string)
    requires r.solverId != s && (id in rs ==> rs[id].solverId == r.solverId)
    ensures forall state :: Total(rs[id := r], s, state) == Total(rs, s, state)
  {
    forall state ensures Total(rs[id := r], s, state) == Total(rs, s, state) {
      TotalAfterWrite(rs, id, r, s, state);
    }
  }

  /** A held reservation is covered by its ledger row, so neither the balance assertions nor
      the checked additions of consume and release can fail. */
  lemma HeldIsCovered(rs: Reservations, ledgers: map<string, LedgerRow>, inventory: map<string, U64>, id: string)
    requires Balanced(rs, ledgers, inventory) && id in rs && rs[id].state == Held
    ensures rs[id].solverId in ledgers
    ensures var l := ledgers[rs[id].solverId];
      rs[id].amount <= l.reserved <= l.available && l.consumed + rs[id].amount < U64_BOUND
  {
    ShareWithinTotal(rs, id);
    assert Named(id);
    var s := rs[id].solverId;
    assert Named(s);
  }

  /** Closing a held reservation: consumption moves its amount from available to consumed,
      release only gives it back. */
  function Closed(l: LedgerRow, amount: U64, state: ReservationState): LedgerRow
    requires amount <= l.reserved && amount <= l.available && l.consumed + amount < U64_BOUND
  {
    if state == Consumed then
      l.(available := l.available - amount, reserved := l.reserved - amount, consumed := l.consumed + amount)
    else
      l.(reserved := l.reserved - amount)
  }

  lemma ClosingKeepsBalance(rs: Reservations, ledgers: map<string, LedgerRow>, inventory: map<string, U64>,
                            id: string, state: ReservationState)
    requires Balanced(rs, ledgers, inventory) && id in rs && rs[id].state == Held && state != Held
    ensures var s, amount := rs[id].solverId, rs[id].amount;
      && s in ledgers && amount <= ledgers[s].reserved && amount <= ledgers[s].available
      && ledgers[s].consumed + amount < U64_BOUND
      && Balanced(rs[id := rs[id].(state := state)], ledgers[s := Closed(ledgers[s], amount, state)], inventory)
  {
    HeldIsCovered(rs, ledgers, inventory, id);
    var r := rs[id].(state := state);
    var solver := r.solverId;
    var after := ledgers[solver := Closed(ledgers[solver], r.amount, state)];
    TotalAfterWrite(rs, id, r, solver, Held);
    TotalAfterWrite(rs, id, r, solver, Consumed);
    assert Named(solver);
    forall s | s in ledgers ensures RowBalanced(rs[id := r], after[s], s, inventory[s]) {
      if s != solver {
        OtherSolverUnmoved(rs, id, r, s);
        assert Named(s);
      }
    }
  }

  /** Opening a ledger for a solver that has none. */
  lemma OpeningKeepsBalance(rs: Reservations, ledgers: map<string, LedgerRow>, inventory: map<string, U64>,
                            solver: string, asset: string, available: U64)
    requires Balanced(rs, ledgers, inventory) && solver !in ledgers
    ensures Balanced(rs, ledgers[solver := LedgerRow(asset, available, 0, 0)], inventory[solver := available])
  {
    forall id | id in rs ensures rs[id].solverId != solver {
      assert Named(id);
    }
    NoReservationsNoTotal(rs, solver, Held);
    NoReservationsNoTotal(rs, solver, Consumed);
  }

  lemma {:induction false} NoReservationsNoTotal(rs: Reservations, solver: string, state: ReservationState)
    requires forall id :: id in rs ==> rs[id].solverId != solver
    ensures Total(rs, solver, state) == 0
    decreases |rs|
  {
    if rs != map[] {
      var id :| id in rs && Total(rs, solver, state)
        == Share(rs[id], solver, state) + Total(rs - {id}, solver, state);
      NoReservationsNoTotal(rs - {id}, solver, state);
      assert Share(rs[id], solver, state) == 0;
    }
  }

  /** Attaching a swap leaves every total alone. */
  lemma AttachingKeepsBalance(rs: Reservations, ledgers: map<string, LedgerRow>, inventory: map<string, U64>,
                              id: string, swapId: Option<string>)
    requires Balanced(rs, ledgers, inventory) && id in rs
    ensures Balanced(rs[id := rs[id].(swapId := swapId)], ledgers, inventory)
  {
    var r := rs[id].(swapId := swapId);
    forall s | s in ledgers ensures RowBalanced(rs[id := r], ledgers[s], s, inventory[s]) {
      TotalAfterWrite(rs, id, r, s, Held);
      TotalAfterWrite(rs, id, r, s, Consumed);
      assert Named(s);
    }
  }
}
