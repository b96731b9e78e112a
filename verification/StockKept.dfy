/** Reservations and stock move together. */
module StockKept {
  import opened Common
  import opened Schema
  import opened Sums
  import opened Services
  import opened Invariants
  import Stock

  /** An ACTIVE reservation's quantity is part of the reserved counter. */
  lemma ActiveIsReserved(inventory: map<int, Inventory>, reservations: map<int, Reservation>, rid: int)
    requires StockInv(inventory, reservations)
    requires rid in reservations && reservations[rid].status.Active?
    ensures var r := reservations[rid];
      r.productId in inventory && inventory[r.productId].reservedStock >= r.quantity > 0
  {
    var p := reservations[rid].productId;
    assert StockRow(inventory[p], reservations, p);
    SumDominates(ActiveQty(reservations, p), rid);
  }

  /**
   * The "could not move the stock" errors of cancel and convert, and the unchecked result in expireOne, never
   * arise.
   */
  lemma WonClaimMovesStock(db: Db, rid: int, now: int)
    requires StockInv(db.inventory, db.reservations)
    requires rid in db.reservations && db.reservations[rid].status.Active?
    ensures var r := db.reservations[rid];
      && ReleaseStock(SetReservation(db, rid, r.(status := Cancelled, releasedAt := Some(now))), r.productId,
          r.quantity).Some?
      && ReleaseStock(SetReservation(db, rid, r.(status := Expired, releasedAt := Some(now))), r.productId,
          r.quantity).Some?
      && SellStock(SetReservation(db, rid, r.(status := Converted)), r.productId, r.quantity).Some?
  {
    ActiveIsReserved(db.inventory, db.reservations, rid);
  }

  /** The CHECK constraints of the inventory table can never fire. */
  lemma CountersWithinBounds(inventory: map<int, Inventory>, reservations: map<int, Reservation>, p: int)
    requires StockInv(inventory, reservations) && p in inventory
    ensures Stock.ChecksHold(inventory[p])
  {
    assert StockRow(inventory[p], reservations, p);
    SumNonNegative(ActiveQty(reservations, p));
    SumNonNegative(ConvertedQty(reservations, p));
  }

  function Share(reservations: map<int, Reservation>, rid: int, status: ReservationStatus): int {
    if rid in reservations && reservations[rid].status == status then reservations[rid].quantity else 0
  }

  /** How a product's two sums change when one reservation row is written. */
  lemma SharesMove(reservations: map<int, Reservation>, rid: int, r: Reservation, p: int)
    requires rid in reservations ==> reservations[rid].productId == r.productId
    ensures Sum(ActiveQty(reservations[rid := r], p)) - Sum(ActiveQty(reservations, p))
         == if p == r.productId
            then Share(reservations[rid := r], rid, Active) - Share(reservations, rid, Active) else 0
    ensures Sum(ConvertedQty(reservations[rid := r], p)) - Sum(ConvertedQty(reservations, p))
         == if p == r.productId
            then Share(reservations[rid := r], rid, Converted) - Share(reservations, rid, Converted) else 0
  {
    var a, c := ActiveQty(reservations[rid := r], p), ConvertedQty(reservations[rid := r], p);
    assert a == ActiveQty(reservations, p)[rid := a[rid]];
    assert c == ConvertedQty(reservations, p)[rid := c[rid]];
    SumUpdate(ActiveQty(reservations, p), rid, a[rid]);
    SumUpdate(ConvertedQty(reservations, p), rid, c[rid]);
  }

  /** Writing one reservation row and the matching stock row keeps the counters exact. */
  lemma RowsMoveTogether(inventory: map<int, Inventory>, reservations: map<int, Reservation>, rid: int,
                         r: Reservation, i: Inventory)
    requires StockInv(inventory, reservations)
    requires r.quantity > 0 && r.productId in inventory
    requires rid in reservations ==> reservations[rid].productId == r.productId
    requires i.reservedStock - inventory[r.productId].reservedStock
          == Share(reservations[rid := r], rid, Active) - Share(reservations, rid, Active)
    requires i.soldStock - inventory[r.productId].soldStock
          == Share(reservations[rid := r], rid, Converted) - Share(reservations, rid, Converted)
    requires i.availableStock >= 0 && Stock.Balanced(i)
    ensures StockInv(inventory[r.productId := i], reservations[rid := r])
  {
    var inventory', reservations' := inventory[r.productId := i], reservations[rid := r];
    forall p | p in inventory' ensures StockRow(inventory'[p], reservations', p) {
      assert StockRow(inventory[p], reservations, p);
      SharesMove(reservations, rid, r, p);
    }
  }

  lemma CreateKeepsStock(db: Db, userId: int, productId: int, quantity: int, expiresAt: int, rid: int)
    requires StockInv(db.inventory, db.reservations)
    ensures var db' := CreateReservation(db, userId, productId, quantity, expiresAt, rid).db;
      StockInv(db'.inventory, db'.reservations)
  {
    var out := CreateReservation(db, userId, productId, quantity, expiresAt, rid);
    if out.reply.Reserved? {
      assert StockRow(db.inventory[productId], db.reservations, productId);
      RowsMoveTogether(db.inventory, db.reservations, rid, out.db.reservations[rid], out.db.inventory[productId]);
    }
  }

  /** Cancelling right after creating gives every unit back: only versions and the CANCELLED row remain. */
  lemma CancelUndoesCreate(db: Db, userId: int, productId: int, quantity: int, expiresAt: int, rid: int, now: int)
    requires StockInv(db.inventory, db.reservations)
    requires CreateReservation(db, userId, productId, quantity, expiresAt, rid).reply.Reserved?
    ensures var created := CreateReservation(db, userId, productId, quantity, expiresAt, rid).db;
      var i := db.inventory[productId];
      CancelReservation(created, rid, now) == Outcome(
        db.(inventory := db.inventory[productId := i.(version := i.version + 2)],
            reservations := db.reservations[rid := Reservation(userId, productId, quantity, Cancelled, expiresAt,
              Some(now))]),
        Flag(true))
  {
    var created := CreateReservation(db, userId, productId, quantity, expiresAt, rid).db;
    var i := db.inventory[productId];
    CreateKeepsStock(db, userId, productId, quantity, expiresAt, rid);
    ActiveIsReserved(created.inventory, created.reservations, rid);
    assert created.inventory[productId := i.(version := i.version + 2)]
      == db.inventory[productId := i.(version := i.version + 2)];
  }

  lemma CancelKeepsStock(db: Db, rid: int, now: int)
    requires StockInv(db.inventory, db.reservations)
    ensures var db' := CancelReservation(db, rid, now).db; StockInv(db'.inventory, db'.reservations)
    ensures !CancelReservation(db, rid, now).reply.Refused? <==> rid in db.reservations
  {
    if rid in db.reservations && db.reservations[rid].status.Active? {
      WonClaimMovesStock(db, rid, now);
      var db', p := CancelReservation(db, rid, now).db, db.reservations[rid].productId;
      assert StockRow(db.inventory[p], db.reservations, p);
      RowsMoveTogether(db.inventory, db.reservations, rid, db'.reservations[rid], db'.inventory[p]);
    }
  }

  lemma ExpireKeepsStock(db: Db, rid: int, now: int)
    requires StockInv(db.inventory, db.reservations)
    ensures var db' := ExpireReservation(db, rid, now).db; StockInv(db'.inventory, db'.reservations)
  {
    if rid in db.reservations && db.reservations[rid].status.Active? {
      WonClaimMovesStock(db, rid, now);
      var db', p := ExpireReservation(db, rid, now).db, db.reservations[rid].productId;
      assert StockRow(db.inventory[p], db.reservations, p);
      RowsMoveTogether(db.inventory, db.reservations, rid, db'.reservations[rid], db'.inventory[p]);
    }
  }

  lemma ConvertKeepsStock(db: Db, rid: int)
    requires StockInv(db.inventory, db.reservations)
    ensures var db' := ConvertReservation(db, rid).db; StockInv(db'.inventory, db'.reservations)
    ensures !ConvertReservation(db, rid).reply.Refused? <==> rid in db.reservations
  {
    if rid in db.reservations && db.reservations[rid].status.Active? {
      WonClaimMovesStock(db, rid, 0);
      var db', p := ConvertReservation(db, rid).db, db.reservations[rid].productId;
      assert StockRow(db.inventory[p], db.reservations, p);
      RowsMoveTogether(db.inventory, db.reservations, rid, db'.reservations[rid], db'.inventory[p]);
    }
  }

  /** Under exact counters `reconcile` only bumps the version. */
  lemma ReconcileChangesNothing(db: Db, p: int)
    requires StockInv(db.inventory, db.reservations) && p in db.inventory
    ensures ReconcileProduct(db, p) ==
      db.(inventory := db.inventory[p := db.inventory[p].(version := db.inventory[p].version + 1)])
  {
    assert StockRow(db.inventory[p], db.reservations, p);
    CountersWithinBounds(db.inventory, db.reservations, p);
  }
}
