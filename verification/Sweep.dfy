/** What expiring every due reservation amounts to. */
module Sweep {
  import opened Common
  import opened Schema
  import opened Sums
  import opened Services
  import opened Invariants
  import opened StockKept
  import opened Kept

  predicate IsDue(r: Reservation, now: int) { r.status.Active? && r.expiresAt <= now }

  function DueIds(reservations: map<int, Reservation>, now: int): set<int> {
    set r | r in reservations && IsDue(reservations[r], now)
  }

  function AsExpired(r: Reservation, now: int): Reservation {
    r.(status := Expired, releasedAt := Some(now))
  }

  /** The reservations with those in `ids` expired. */
  function ExpiredIn(reservations: map<int, Reservation>, ids: set<int>, now: int): map<int, Reservation> {
    map r | r in reservations :: if r in ids then AsExpired(reservations[r], now) else reservations[r]
  }

  /** What the due reservations of a product hold. */
  ghost function DueQty(reservations: map<int, Reservation>, now: int, p: int): map<int, int> {
    map r | r in reservations ::
      if reservations[r].productId == p && IsDue(reservations[r], now) then reservations[r].quantity else 0
  }

  /** Stock of a product after `returned` units came back; its version is not pinned down. */
  predicate Returned(i: Inventory, i': Inventory, returned: int) {
    i' == i.(reservedStock := i.reservedStock - returned, availableStock := i.availableStock + returned,
      version := i'.version)
  }

  /** Exact counters before and after leave one way to account for the due quantities. */
  lemma SweepReturns(i: Inventory, i': Inventory, reservations: map<int, Reservation>, now: int, p: int)
    requires StockRow(i, reservations, p)
    requires StockRow(i', ExpiredIn(reservations, DueIds(reservations, now), now), p)
    requires i'.soldStock == i.soldStock && i'.initialStock == i.initialStock
    ensures Returned(i, i', Sum(DueQty(reservations, now, p)))
  {
    SumAdd(ActiveQty(reservations, p),
           ActiveQty(ExpiredIn(reservations, DueIds(reservations, now), now), p), DueQty(reservations, now, p));
  }

  /** After a sweep nothing is due at any earlier or equal time, and later times find only what was not due. */
  lemma NothingLeftDue(reservations: map<int, Reservation>, now: int, later: int)
    ensures DueIds(ExpiredIn(reservations, DueIds(reservations, now), now), later)
      == DueIds(reservations, later) - DueIds(reservations, now)
    ensures later <= now ==> DueIds(ExpiredIn(reservations, DueIds(reservations, now), now), later) == {}
  {
    var after := ExpiredIn(reservations, DueIds(reservations, now), now);
    assert forall r :: r in DueIds(after, later) <==> r in DueIds(reservations, later) - DueIds(reservations, now);
    if later <= now {
      assert forall r :: r in DueIds(reservations, later) ==> r in DueIds(reservations, now);
      assert DueIds(reservations, later) - DueIds(reservations, now) == {};
    }
  }

  /** One more reservation expired. */
  lemma ExpiredOneMore(reservations: map<int, Reservation>, ids: set<int>, now: int, rid: int)
    requires rid in reservations && rid !in ids
    ensures ExpiredIn(reservations, ids, now)[rid := AsExpired(reservations[rid], now)]
      == ExpiredIn(reservations, ids + {rid}, now)
  {}

  // ---- expiring a list of reservations one after the other ----

  function ExpireAll(db: Db, due: seq<int>, now: int): Db {
    if due == [] then db else ExpireReservation(ExpireAll(db, due[..|due| - 1], now), due[|due| - 1], now).db
  }

  /** Different reservations, all of them ACTIVE. */
  predicate Expirable(db: Db, due: seq<int>) {
    && (forall i, j | 0 <= i < j < |due| :: due[i] != due[j])
    && (forall i | 0 <= i < |due| :: due[i] in db.reservations && db.reservations[due[i]].status.Active?)
  }

  function Elements(due: seq<int>): set<int> { set r | r in due }

  predicate SameBooks(i: Inventory, i': Inventory) {
    i'.soldStock == i.soldStock && i'.initialStock == i.initialStock
  }

  ghost predicate AllSameBooks(inventory: map<int, Inventory>, inventory': map<int, Inventory>) {
    inventory'.Keys == inventory.Keys && forall p :: p in inventory ==> SameBooks(inventory[p], inventory'[p])
  }

  /** Expiring one ACTIVE reservation goes through and touches nothing but its row and its product's stock. */
  lemma ExpireEffect(db: Db, rid: int, now: int)
    requires Inv(db) && rid in db.reservations && db.reservations[rid].status.Active?
    ensures var out := ExpireReservation(db, rid, now);
      && out.reply == Flag(true) && Inv(out.db)
      && out.db == db.(inventory := out.db.inventory,
          reservations := db.reservations[rid := AsExpired(db.reservations[rid], now)])
      && AllSameBooks(db.inventory, out.db.inventory)
  {
    ExpireKeeps(db, rid, now);
    WonClaimMovesStock(db, rid, now);
  }

  /** Every claim of the list is won, and the order of the list does not show in the reservations. */
  lemma {:induction false} ExpireAllEffect(db: Db, due: seq<int>, now: int)
    requires Inv(db) && Expirable(db, due)
    ensures var db' := ExpireAll(db, due, now);
      && Inv(db') && AllSameBooks(db.inventory, db'.inventory)
      && db' == db.(inventory := db'.inventory, reservations := ExpiredIn(db.reservations, Elements(due), now))
    ensures due != [] ==>
      ExpireReservation(ExpireAll(db, due[..|due| - 1], now), due[|due| - 1], now).reply == Flag(true)
  {
    if due == [] {
      assert ExpiredIn(db.reservations, Elements(due), now) == db.reservations;
    } else {
      var front, rid := due[..|due| - 1], due[|due| - 1];
      assert due == front + [rid];
      assert Elements(due) == Elements(front) + {rid};
      ExpireAllEffect(db, front, now);
      ExpireEffect(ExpireAll(db, front, now), rid, now);
      ExpiredOneMore(db.reservations, Elements(front), now, rid);
    }
  }

  lemma DuePrefix(db: Db, now: int, due: seq<int>, i: nat)
    requires IsDueList(db, now, due) && i < |due|
    ensures Expirable(db, due[..i + 1])
  {
    forall k | 0 <= k <= i ensures due[k] in db.reservations && db.reservations[due[k]].status.Active? {
      assert due[k] in due;
    }
  }

  /** Every claim of a sweep is won. */
  lemma ExpireNext(db: Db, now: int, due: seq<int>, i: nat)
    requires Inv(db) && IsDueList(db, now, due) && i < |due|
    ensures ExpireReservation(ExpireAll(db, due[..i], now), due[i], now)
      == Outcome(ExpireAll(db, due[..i + 1], now), Flag(true))
  {
    assert due[..i + 1][..i] == due[..i];
    DuePrefix(db, now, due, i);
    ExpireAllEffect(db, due[..i + 1], now);
  }

  /** What a sweep over a due list leaves behind. */
  lemma SweepAccounts(db: Db, due: seq<int>, now: int)
    requires Inv(db) && IsDueList(db, now, due)
    ensures var db' := ExpireAll(db, due, now);
      && Inv(db')
      && db' == db.(inventory := db'.inventory,
          reservations := ExpiredIn(db.reservations, DueIds(db.reservations, now), now))
      && DueIds(db'.reservations, now) == {}
      && db'.inventory.Keys == db.inventory.Keys
      && forall p :: p in db'.inventory ==>
          Returned(db.inventory[p], db'.inventory[p], Sum(DueQty(db.reservations, now, p)))
  {
    var db' := ExpireAll(db, due, now);
    ExpireAllEffect(db, due, now);
    assert forall r :: r in Elements(due) <==> r in DueIds(db.reservations, now);
    assert Elements(due) == DueIds(db.reservations, now);
    NothingLeftDue(db.reservations, now, now);
    forall p | p in db'.inventory
      ensures Returned(db.inventory[p], db'.inventory[p], Sum(DueQty(db.reservations, now, p))) {
      assert StockRow(db.inventory[p], db.reservations, p) && StockRow(db'.inventory[p], db'.reservations, p);
      SweepReturns(db.inventory[p], db'.inventory[p], db.reservations, now, p);
    }
  }
}
