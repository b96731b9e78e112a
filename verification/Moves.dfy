/** Every statement a session runs leaves it in a state its own view of the database justifies. */
module Moves {
  import opened Common
  import opened Schema
  import opened Services
  import opened Invariants
  import opened StockKept
  import opened Settlement
  import opened Footprints
  import opened Rely
  import opened Machine
  import opened SessionState
  import opened Stable
  import Stock

  predicate Holds(t: int, ls: set<Lock>, locks: LockTable) {
    forall l | l in ls :: Owns(locks, t, l)
  }

  // What each service call owes at a statement: `locks'` is the lock table after it, `other` any table
  // in which the session may hold nothing.

  ghost predicate CreateGood(t: int, req: Request, m: Move, db: Db, locks': LockTable, other: LockTable)
    requires req.Create?
  {
    match m
    case Wait => true
    case Go(pc', w', takes) => Holds(t, takes, locks') ==> CreateState(t, req, pc', w', db, locks')
    case End(pc') => CreateState(t, req, pc', NoWrites, db, other)
    case Commit(_, _, _, _) => false
  }

  ghost predicate CancelGood(t: int, req: Request, m: Move, db: Db, locks': LockTable, other: LockTable)
    requires req.Cancel?
  {
    match m
    case Wait => true
    case Go(pc', w', takes) => Holds(t, takes, locks') ==> CancelState(t, req, pc', w', db, locks')
    case End(pc') => CancelState(t, req, pc', NoWrites, db, other)
    case Commit(_, _, _, _) => false
  }

  ghost predicate SweepGood(t: int, req: Request, m: Move, db: Db, locks': LockTable, other: LockTable)
    requires req.Sweep?
  {
    match m
    case Wait => true
    case Go(pc', w', takes) => Holds(t, takes, locks') ==> SweepState(t, req, pc', w', db, locks')
    case End(pc') => SweepState(t, req, pc', NoWrites, db, other)
    case Commit(_, _, _, _) => false
  }

  ghost predicate CheckoutGood(t: int, req: Request, m: Move, db: Db, locks': LockTable, other: LockTable)
    requires req.PlaceCheckout?
  {
    match m
    case Wait => true
    case Go(pc', w', takes) => Holds(t, takes, locks') ==> CheckoutState(t, req, pc', w', db, locks')
    case End(pc') => CheckoutState(t, req, pc', NoWrites, db, other)
    case Commit(_, _, _, _) => false
  }

  ghost predicate ApplyGood(t: int, req: Request, m: Move, db: Db, locks': LockTable, other: LockTable)
    requires req.Apply?
  {
    match m
    case Wait => true
    case Go(pc', w', takes) => Holds(t, takes, locks') ==> ApplyState(t, req, pc', w', db, locks')
    case End(pc') => ApplyState(t, req, pc', NoWrites, db, other)
    case Commit(_, _, _, _) => false
  }

  ghost predicate PayGood(t: int, req: Request, m: Move, db: Db, locks': LockTable, other: LockTable)
    requires req.Pay?
  {
    match m
    case Wait => true
    case Go(pc', w', takes) => Holds(t, takes, locks') ==> PayState(t, req, pc', w', db, locks')
    case End(pc') => PayState(t, req, pc', NoWrites, db, other)
    case Commit(pc', w', takes, x) =>
      && Enabled(db, x) && Admissible(db, x) && w' == Rows(db, x) && Footprint(db, x) <= takes
      && PayState(t, req, pc', NoWrites, Effect(db, x), other)
  }

  ghost predicate RedeemGood(t: int, req: Request, m: Move, db: Db, locks': LockTable, other: LockTable)
    requires req.Redeem?
  {
    match m
    case Wait => true
    case Go(pc', w', takes) => Holds(t, takes, locks') ==> RedeemState(t, req, pc', w', db, locks')
    case End(pc') => RedeemState(t, req, pc', NoWrites, db, other)
    case Commit(pc', w', takes, x) =>
      && Enabled(db, x) && Admissible(db, x) && w' == Rows(db, x) && Footprint(db, x) <= takes
      && RedeemState(t, req, pc', NoWrites, Effect(db, x), other)
  }

  lemma FirstRow<K, V>(k: K, v: V)
    ensures map[][k := v] == map[k := v]
  {}

  lemma NoRows<K, V>(m: map<K, V>)
    ensures m + map[] == m
  {}

  lemma CreateTakeOk(t: int, req: Request, pc: Pc, w: Db, db: Db, locks: LockTable, locks': LockTable, other: LockTable)
    requires req.Create? && CreateState(t, req, pc, w, db, locks) && Keeps(t, locks, locks') && pc.TakeStock?
    ensures CreateGood(t, req, CreateMove(req, pc, w, db), db, locks', other)
  {
    MergeWithNothing(db);
    if req.productId in db.inventory {
      var row := Stock.Reserve(db.inventory[req.productId], req.quantity);
      if row.Some? { FirstRow(req.productId, row.value); }
    }
  }

  lemma CreateMoveOk(t: int, req: Request, pc: Pc, w: Db, db: Db, locks: LockTable, locks': LockTable, other: LockTable)
    requires req.Create? && CreateState(t, req, pc, w, db, locks) && Keeps(t, locks, locks') && !pc.Committing?
    ensures CreateGood(t, req, CreateMove(req, pc, w, db), db, locks', other)
  {
    if pc.TakeStock? {
      CreateTakeOk(t, req, pc, w, db, locks, locks', other);
    } else if pc.InsertReservation? {
      CreateInsertOk(t, req, w, db, locks, locks', other);
    } else {
      MergeWithNothing(db);
    }
  }

  /** The insert of a reservation in terms of committed rows. */
  lemma InsertReservationIs(req: Request, w: Db, db: Db)
    requires req.Create? && w.reservations == map[]
    ensures CreateMove(req, InsertReservation, w, db) ==
      if req.quantity <= 0 then Refuse(CheckViolation)
      else if req.rid in db.reservations then Refuse(UniqueViolation)
      else
        var row := Reservation(req.userId, req.productId, req.quantity, Active, req.expiresAt, None);
        Go(Committing(TCreate(req.userId, req.productId, req.quantity, req.expiresAt, req.rid),
          Done(Reserved(req.rid))),
           w.(reservations := w.reservations[req.rid := row]), {ReservationRow(req.rid)})
  {
    NoRows(db.reservations);
  }

  /** With its reservation row the creation is ready to commit. */
  lemma CreationIsReady(t: int, x: Txn, w: Db, db: Db, locks: LockTable)
    requires x.TCreate? && Enabled(db, x)
    requires Owns(locks, t, ReservationRow(x.rid)) && Owns(locks, t, InventoryRow(x.productId))
    requires w == NoWrites.(inventory := map[x.productId := Stock.Reserve(db.inventory[x.productId], x.quantity).value])
    ensures var row := Reservation(x.userId, x.productId, x.quantity, Active, x.expiresAt, None);
      Ready(t, x, w.(reservations := w.reservations[x.rid := row]), db, locks)
  {
    FirstRow(x.rid, Reservation(x.userId, x.productId, x.quantity, Active, x.expiresAt, None));
  }

  lemma AtCreateCommit(t: int, req: Request, w: Db, db: Db, locks': LockTable, other: LockTable)
    requires req.Create?
    requires var x := TCreate(req.userId, req.productId, req.quantity, req.expiresAt, req.rid);
      Owns(locks', t, ReservationRow(req.rid)) ==> Ready(t, x, w, db, locks')
    ensures var x := TCreate(req.userId, req.productId, req.quantity, req.expiresAt, req.rid);
      CreateGood(t, req, Go(Committing(x, Done(Reserved(req.rid))), w, {ReservationRow(req.rid)}), db, locks', other)
  {}

  lemma CreateInsertOk(t: int, req: Request, w: Db, db: Db, locks: LockTable, locks': LockTable, other: LockTable)
    requires req.Create? && CreateState(t, req, InsertReservation, w, db, locks) && Keeps(t, locks, locks')
    ensures CreateGood(t, req, CreateMove(req, InsertReservation, w, db), db, locks', other)
  {
    InsertReservationIs(req, w, db);
    var x := TCreate(req.userId, req.productId, req.quantity, req.expiresAt, req.rid);
    var row := Reservation(req.userId, req.productId, req.quantity, Active, req.expiresAt, None);
    if req.quantity > 0 && req.rid !in db.reservations {
      if Owns(locks', t, ReservationRow(req.rid)) { CreationIsReady(t, x, w, db, locks'); }
      AtCreateCommit(t, req, w.(reservations := w.reservations[req.rid := row]), db, locks', other);
    }
  }

  /** A won claim on a reservation row still finds its stock: the release that follows cannot fail. */
  lemma ReturnAlwaysWorks(seen: Reservation, rid: int, db: Db)
    requires StockInv(db.inventory, db.reservations) && Seen(seen, rid, db) && db.reservations[rid].status.Active?
    ensures seen.productId in db.inventory
    ensures Stock.Release(db.inventory[seen.productId], seen.quantity).Some?
    ensures Stock.Sell(db.inventory[seen.productId], seen.quantity).Some?
    ensures CanReturn(db, rid) && seen.productId == db.reservations[rid].productId
    ensures seen.quantity == db.reservations[rid].quantity
  {
    ActiveIsReserved(db.inventory, db.reservations, rid);
  }

  /** The release of a cancellation in terms of committed rows. */
  lemma ReturnStockIs(req: Request, seen: Reservation, w: Db, db: Db)
    requires req.Cancel? && w.inventory == map[] && seen.productId in db.inventory
    requires Stock.Release(db.inventory[seen.productId], seen.quantity).Some?
    ensures var row := Stock.Release(db.inventory[seen.productId], seen.quantity).value;
      CancelMove(req, ReturnStock(seen), w, db) ==
        Go(Committing(TCancel(req.rid, req.now), Done(Flag(true))),
           w.(inventory := w.inventory[seen.productId := row]), {InventoryRow(seen.productId)})
  {
    NoRows(db.inventory);
  }

  /** With its stock row the cancellation is ready to commit. */
  lemma CancelIsReady(t: int, rid: int, now: int, w: Db, db: Db, locks: LockTable)
    requires CanReturn(db, rid) && Owns(locks, t, ReservationRow(rid))
    requires Owns(locks, t, InventoryRow(db.reservations[rid].productId))
    requires w ==
      NoWrites.(reservations := map[rid := db.reservations[rid].(status := Cancelled, releasedAt := Some(now))])
    ensures var r := db.reservations[rid];
      var row := Stock.Release(db.inventory[r.productId], r.quantity).value;
      Ready(t, TCancel(rid, now), w.(inventory := w.inventory[r.productId := row]), db, locks)
  {
    var r := db.reservations[rid];
    FirstRow(r.productId, Stock.Release(db.inventory[r.productId], r.quantity).value);
  }

  lemma AtCancelCommit(t: int, req: Request, seen: Reservation, w: Db, db: Db, locks': LockTable, other: LockTable)
    requires req.Cancel?
    requires Owns(locks', t, InventoryRow(seen.productId)) ==> Ready(t, TCancel(req.rid, req.now), w, db, locks')
    ensures CancelGood(t, req,
      Go(Committing(TCancel(req.rid, req.now), Done(Flag(true))), w, {InventoryRow(seen.productId)}), db, locks', other)
  {}

  lemma CancelReturnOk(t: int, req: Request, seen: Reservation, w: Db, db: Db, locks: LockTable, locks': LockTable,
                       other: LockTable)
    requires StockInv(db.inventory, db.reservations)
    requires req.Cancel? && CancelState(t, req, ReturnStock(seen), w, db, locks) && Keeps(t, locks, locks')
    ensures CancelGood(t, req, CancelMove(req, ReturnStock(seen), w, db), db, locks', other)
  {
    ReturnAlwaysWorks(seen, req.rid, db);
    ReturnStockIs(req, seen, w, db);
    var row := Stock.Release(db.inventory[seen.productId], seen.quantity).value;
    if Owns(locks', t, InventoryRow(seen.productId)) { CancelIsReady(t, req.rid, req.now, w, db, locks'); }
    AtCancelCommit(t, req, seen, w.(inventory := w.inventory[seen.productId := row]), db, locks', other);
  }

  lemma CancelMoveOk(t: int, req: Request, pc: Pc, w: Db, db: Db, locks: LockTable, locks': LockTable, other: LockTable)
    requires StockInv(db.inventory, db.reservations)
    requires req.Cancel? && CancelState(t, req, pc, w, db, locks) && Keeps(t, locks, locks') && !pc.Committing?
    ensures CancelGood(t, req, CancelMove(req, pc, w, db), db, locks', other)
  {
    MergeWithNothing(db);
    if pc.ReturnStock? {
      CancelReturnOk(t, req, pc.seen, w, db, locks, locks', other);
    } else if pc.ClaimCancel? {
      FirstRow(req.rid, db.reservations[req.rid].(status := Cancelled, releasedAt := Some(req.now)));
    }
  }

  lemma SweptMore(due: seq<int>, i: nat, now: int, db: Db)
    requires Swept(due, i, now, db) && i < |due| && (due[i] !in db.reservations || Ended(db.reservations[due[i]]))
    ensures Swept(due, i + 1, now, db)
  {
    assert due[i] in db.reservations;
  }

  lemma DueIsSwept(db: Db, now: int, due: seq<int>)
    requires IsDueList(db, now, due)
    ensures Swept(due, 0, now, db)
  {
    forall j | 0 <= j < |due| ensures due[j] in db.reservations && db.reservations[due[j]].expiresAt <= now {
      var r := due[j];
      assert r in due;
    }
  }

  lemma SweepReadOk(t: int, req: Request, pc: Pc, w: Db, db: Db, rows: seq<int>, locks: LockTable, locks': LockTable,
                    other: LockTable)
    requires req.Sweep? && SweepState(t, req, pc, w, db, locks) && Keeps(t, locks, locks') && (pc.Start? || pc.NextDue?)
    ensures SweepGood(t, req, SweepMove(req, pc, w, db, rows), db, locks', other)
  {
    MergeWithNothing(db);
    if pc.Start? {
      if IsDueList(db, req.now, rows) { DueIsSwept(db, req.now, rows); }
    } else if pc.i < |pc.due| {
      assert pc.due[pc.i] in db.reservations;
    }
  }

  lemma SweepClaimOk(t: int, req: Request, pc: Pc, w: Db, db: Db, rows: seq<int>, locks: LockTable, locks': LockTable,
                     other: LockTable)
    requires req.Sweep? && SweepState(t, req, pc, w, db, locks) && Keeps(t, locks, locks') && pc.ClaimExpiry?
    ensures SweepGood(t, req, SweepMove(req, pc, w, db, rows), db, locks', other)
  {
    MergeWithNothing(db);
    var r := pc.due[pc.i];
    if Ended(db.reservations[r]) {
      SweptMore(pc.due, pc.i, req.now, db);
    } else {
      FirstRow(r, db.reservations[r].(status := Expired, releasedAt := Some(req.now)));
    }
  }

  /** The release of a sweep in terms of committed rows. */
  lemma ReturnExpiredIs(req: Request, pc: Pc, w: Db, db: Db, rows: seq<int>)
    requires req.Sweep? && pc.ReturnExpired? && pc.i < |pc.due| && w.inventory == map[]
    requires pc.seen.productId in db.inventory
    requires Stock.Release(db.inventory[pc.seen.productId], pc.seen.quantity).Some?
    ensures var row := Stock.Release(db.inventory[pc.seen.productId], pc.seen.quantity).value;
      SweepMove(req, pc, w, db, rows) ==
        Go(Committing(TExpire(pc.due[pc.i], req.now), NextDue(pc.due, pc.i + 1, pc.expired + 1)),
           w.(inventory := w.inventory[pc.seen.productId := row]), {InventoryRow(pc.seen.productId)})
  {
    NoRows(db.inventory);
  }

  lemma SweepReturnOk(t: int, req: Request, pc: Pc, w: Db, db: Db, rows: seq<int>, locks: LockTable,
                      locks': LockTable, other: LockTable)
    requires StockInv(db.inventory, db.reservations)
    requires req.Sweep? && SweepState(t, req, pc, w, db, locks) && Keeps(t, locks, locks') && pc.ReturnExpired?
    ensures SweepGood(t, req, SweepMove(req, pc, w, db, rows), db, locks', other)
  {
    ReturnAlwaysWorks(pc.seen, pc.due[pc.i], db);
    ReturnExpiredIs(req, pc, w, db, rows);
    var row := Stock.Release(db.inventory[pc.seen.productId], pc.seen.quantity).value;
    if Owns(locks', t, InventoryRow(pc.seen.productId)) { ExpiryIsReady(t, pc.due[pc.i], req.now, w, db, locks'); }
    AtExpiryCommit(t, req, pc, w.(inventory := w.inventory[pc.seen.productId := row]), db, locks', other);
  }

  /** With its stock row the expiry is ready to commit. */
  lemma ExpiryIsReady(t: int, rid: int, now: int, w: Db, db: Db, locks: LockTable)
    requires CanReturn(db, rid) && Owns(locks, t, ReservationRow(rid))
    requires Owns(locks, t, InventoryRow(db.reservations[rid].productId))
    requires w == NoWrites.(reservations := map[rid := db.reservations[rid].(status := Expired,
      releasedAt := Some(now))])
    ensures var r := db.reservations[rid];
      var row := Stock.Release(db.inventory[r.productId], r.quantity).value;
      Ready(t, TExpire(rid, now), w.(inventory := w.inventory[r.productId := row]), db, locks)
  {
    var r := db.reservations[rid];
    FirstRow(r.productId, Stock.Release(db.inventory[r.productId], r.quantity).value);
  }

  lemma AtExpiryCommit(t: int, req: Request, pc: Pc, w: Db, db: Db, locks': LockTable, other: LockTable)
    requires req.Sweep? && pc.ReturnExpired? && pc.i < |pc.due| && Swept(pc.due, pc.i, req.now, db)
    requires Owns(locks', t, InventoryRow(pc.seen.productId)) ==>
      Ready(t, TExpire(pc.due[pc.i], req.now), w, db, locks')
    ensures SweepGood(t, req,
      Go(Committing(TExpire(pc.due[pc.i], req.now), NextDue(pc.due, pc.i + 1, pc.expired + 1)), w,
      {InventoryRow(pc.seen.productId)}), db, locks', other)
  {}

  lemma SweepMoveOk(t: int, req: Request, pc: Pc, w: Db, db: Db, rows: seq<int>, locks: LockTable, locks': LockTable,
                    other: LockTable)
    requires StockInv(db.inventory, db.reservations)
    requires req.Sweep? && SweepState(t, req, pc, w, db, locks) && Keeps(t, locks, locks') && !pc.Committing?
    ensures SweepGood(t, req, SweepMove(req, pc, w, db, rows), db, locks', other)
  {
    if pc.Start? || pc.NextDue? {
      SweepReadOk(t, req, pc, w, db, rows, locks, locks', other);
    } else if pc.ClaimExpiry? {
      SweepClaimOk(t, req, pc, w, db, rows, locks, locks', other);
    } else if pc.ReturnExpired? {
      SweepReturnOk(t, req, pc, w, db, rows, locks, locks', other);
    }
  }

  lemma CheckoutInsertOk(t: int, req: Request, pc: Pc, w: Db, db: Db, locks: LockTable, locks': LockTable,
                         other: LockTable)
    requires KeyInv(db.keys, db.orders)
    requires req.PlaceCheckout? && CheckoutState(t, req, pc, w, db, locks) && Keeps(t, locks, locks') && pc.InsertOrder?
    ensures CheckoutGood(t, req, CheckoutMove(req, pc, w, db), db, locks', other)
  {
    MergeWithNothing(db);
    KeyFree(db, req.key);
    if pc.price > 0 && pc.seen.quantity > 0 { FirstRow(req.oid, NewOrder(pc.seen, req.rid, req.key, pc.price)); }
  }

  lemma CheckoutKeyOk(t: int, req: Request, price: int, w: Db, db: Db, locks: LockTable, locks': LockTable,
                      other: LockTable)
    requires req.PlaceCheckout? && CheckoutState(t, req, InsertKey(price), w, db, locks) && Keeps(t, locks, locks')
    ensures CheckoutGood(t, req, CheckoutMove(req, InsertKey(price), w, db), db, locks', other)
  {
    InsertKeyIs(req, price, w, db);
    var x := TCheckout(req.userId, req.rid, req.key, req.oid, price);
    var w' := w.(keys := w.keys[req.key := req.oid]);
    KeyIsReady(t, x, w, db, locks');
    AtCheckoutCommit(t, req, x, w', {}, db, locks', other);
  }

  /** With its key row the checkout is ready to commit. */
  lemma KeyIsReady(t: int, x: Txn, w: Db, db: Db, locks: LockTable)
    requires x.TCheckout? && Enabled(db, x) && (forall l :: l in Footprint(db, x) ==> Owns(locks, t, l))
    requires w == NoWrites.(orders := map[x.oid := NewOrder(db.reservations[x.rid], x.rid, x.key, x.price)])
    ensures Ready(t, x, w.(keys := w.keys[x.key := x.oid]), db, locks)
  {
    FirstRow(x.key, x.oid);
  }

  lemma AtCheckoutCommit(t: int, req: Request, x: Txn, w: Db, takes: set<Lock>, db: Db, locks': LockTable,
                         other: LockTable)
    requires req.PlaceCheckout? && x.TCheckout? && x == TCheckout(req.userId, req.rid, req.key, req.oid, x.price)
    requires Holds(t, takes, locks') ==> Ready(t, x, w, db, locks')
    ensures CheckoutGood(t, req, Go(Committing(x, Done(Ordered(req.oid))), w, takes), db, locks', other)
  {}

  /** The key insert in terms of committed rows. */
  lemma InsertKeyIs(req: Request, price: int, w: Db, db: Db)
    requires req.PlaceCheckout? && w.keys == map[]
    ensures CheckoutMove(req, InsertKey(price), w, db) ==
      if req.key in db.keys then End(Recover)
      else Go(Committing(TCheckout(req.userId, req.rid, req.key, req.oid, price), Done(Ordered(req.oid))),
              w.(keys := w.keys[req.key := req.oid]), {})
  {
    NoRows(db.keys);
  }

  lemma CheckoutReadOk(t: int, req: Request, pc: Pc, w: Db, db: Db, locks: LockTable, locks': LockTable,
                       other: LockTable)
    requires req.PlaceCheckout? && CheckoutState(t, req, pc, w, db, locks) && Keeps(t, locks, locks')
    requires (pc.LockReservation? || pc.ReadReservation?)
    ensures CheckoutGood(t, req, CheckoutMove(req, pc, w, db), db, locks', other)
  {
    MergeWithNothing(db);
  }

  lemma CheckoutCheckOk(t: int, req: Request, pc: Pc, w: Db, db: Db, locks: LockTable, locks': LockTable,
                        other: LockTable)
    requires req.PlaceCheckout? && CheckoutState(t, req, pc, w, db, locks) && Keeps(t, locks, locks')
    requires pc.CheckLinked? || pc.ReadPrice?
    ensures CheckoutGood(t, req, CheckoutMove(req, pc, w, db), db, locks', other)
  {
    MergeWithNothing(db);
  }

  lemma CheckoutMoveOk(t: int, req: Request, pc: Pc, w: Db, db: Db, locks: LockTable, locks': LockTable,
                       other: LockTable)
    requires KeyInv(db.keys, db.orders)
    requires req.PlaceCheckout? && CheckoutState(t, req, pc, w, db, locks) && Keeps(t, locks, locks') && !pc.Committing?
    ensures CheckoutGood(t, req, CheckoutMove(req, pc, w, db), db, locks', other)
  {
    if pc.InsertOrder? {
      CheckoutInsertOk(t, req, pc, w, db, locks, locks', other);
    } else if pc.InsertKey? {
      CheckoutKeyOk(t, req, pc.price, w, db, locks, locks', other);
    } else if pc.LockReservation? || pc.ReadReservation? {
      CheckoutReadOk(t, req, pc, w, db, locks, locks', other);
    } else if pc.CheckLinked? || pc.ReadPrice? {
      CheckoutCheckOk(t, req, pc, w, db, locks, locks', other);
    } else {
      MergeWithNothing(db);
    }
  }

  /** The claim on the order row in terms of committed rows. */
  lemma ClaimOrderIs(req: Request, limit: Option<int>, discount: int, subtotal: int, w: Db, db: Db)
    requires req.Apply? && w.orders == map[]
    requires req.oid in db.orders ==> db.orders[req.oid].subtotalCents == subtotal
    ensures ApplyMove(req, ClaimOrder(limit, discount, subtotal), w, db) ==
      if req.oid !in db.orders || !OpenForDiscount(db.orders[req.oid], req.userId) then Refuse(Conflict)
      else if discount < 0 || subtotal - discount < 0 then Refuse(CheckViolation)
      else
        var x := TApply(req.userId, req.oid, req.code, limit, discount);
        Go(Committing(x, Done(Discounted(false, discount, subtotal - discount))),
           w.(orders := w.orders[req.oid := WithDiscount(db.orders[req.oid], req.code, discount)]), {OrderRow(req.oid)})
  {
    NoRows(db.orders);
  }

  /** With its order row the discount is ready to commit. */
  lemma DiscountIsReady(t: int, x: Txn, w: Db, db: Db, locks: LockTable)
    requires x.TApply? && Enabled(db, x) && Owns(locks, t, PromotionRow(x.code)) && Owns(locks, t, OrderRow(x.oid))
    requires w == NoWrites.(promotions := map[x.code := Used(db.promotions[x.code])])
    ensures Ready(t, x, w.(orders := w.orders[x.oid := WithDiscount(db.orders[x.oid], x.code, x.discount)]), db, locks)
  {
    FirstRow(x.oid, WithDiscount(db.orders[x.oid], x.code, x.discount));
  }

  lemma AtApplyCommit(t: int, req: Request, x: Txn, w: Db, db: Db, locks': LockTable, other: LockTable)
    requires req.Apply? && x.TApply? && x == TApply(req.userId, req.oid, req.code, x.limit, x.discount)
    requires req.oid in db.orders && Priced(req, x.discount, db.orders[req.oid].subtotalCents, db)
    requires Owns(locks', t, OrderRow(req.oid)) ==> Ready(t, x, w, db, locks')
    ensures var reply := Discounted(false, x.discount, db.orders[req.oid].subtotalCents - x.discount);
      ApplyGood(t, req, Go(Committing(x, Done(reply)), w, {OrderRow(req.oid)}), db, locks', other)
  {}

  lemma AtApplyRefusal(t: int, req: Request, e: Error, db: Db, locks': LockTable, other: LockTable)
    requires req.Apply?
    ensures ApplyGood(t, req, Refuse(e), db, locks', other)
  {}

  /** What a claim may count on when it comes to the order row. */
  ghost predicate Capable(t: int, req: Request, limit: Option<int>, w: Db, db: Db, locks: LockTable)
    requires req.Apply?
  {
    && req.code in db.promotions && BelowLimit(db.promotions[req.code].usedRedemptions, limit)
    && Owns(locks, t, PromotionRow(req.code))
    && w == NoWrites.(promotions := map[req.code := Used(db.promotions[req.code])])
  }

  lemma DiscountGranted(t: int, req: Request, limit: Option<int>, discount: int, w: Db, db: Db,
                        locks': LockTable, other: LockTable)
    requires req.Apply? && Capable(t, req, limit, w, db, locks')
    requires req.oid in db.orders && Priced(req, discount, db.orders[req.oid].subtotalCents, db)
    requires OpenForDiscount(db.orders[req.oid], req.userId) && 0 <= discount <= db.orders[req.oid].subtotalCents
    ensures var x := TApply(req.userId, req.oid, req.code, limit, discount);
      var reply := Discounted(false, discount, db.orders[req.oid].subtotalCents - discount);
      var w' := w.(orders := w.orders[req.oid := WithDiscount(db.orders[req.oid], req.code, discount)]);
      ApplyGood(t, req, Go(Committing(x, Done(reply)), w', {OrderRow(req.oid)}), db, locks', other)
  {
    var x := TApply(req.userId, req.oid, req.code, limit, discount);
    var w' := w.(orders := w.orders[req.oid := WithDiscount(db.orders[req.oid], req.code, discount)]);
    if Owns(locks', t, OrderRow(req.oid)) { DiscountIsReady(t, x, w, db, locks'); }
    AtApplyCommit(t, req, x, w', db, locks', other);
  }

  lemma ApplyClaimOk(t: int, req: Request, limit: Option<int>, discount: int, subtotal: int, w: Db, db: Db,
                     locks: LockTable, locks': LockTable, other: LockTable)
    requires req.Apply? && Capable(t, req, limit, w, db, locks) && Priced(req, discount, subtotal, db)
    requires Keeps(t, locks, locks')
    ensures ApplyGood(t, req, ApplyMove(req, ClaimOrder(limit, discount, subtotal), w, db), db, locks', other)
  {
    ClaimOrderIs(req, limit, discount, subtotal, w, db);
    if !OpenForDiscount(db.orders[req.oid], req.userId) {
      AtApplyRefusal(t, req, Conflict, db, locks', other);
    } else if discount < 0 || subtotal - discount < 0 {
      AtApplyRefusal(t, req, CheckViolation, db, locks', other);
    } else {
      DiscountGranted(t, req, limit, discount, w, db, locks', other);
    }
  }

  lemma ApplyReadOk(t: int, req: Request, pc: Pc, w: Db, db: Db, locks: LockTable, locks': LockTable, other: LockTable)
    requires req.Apply? && ApplyState(t, req, pc, w, db, locks) && Keeps(t, locks, locks') && pc.ReadOrder?
    ensures ApplyGood(t, req, ApplyMove(req, pc, w, db), db, locks', other)
  {
    MergeWithNothing(db);
  }

  lemma ApplyMoveOk(t: int, req: Request, pc: Pc, w: Db, db: Db, locks: LockTable, locks': LockTable, other: LockTable)
    requires req.Apply? && ApplyState(t, req, pc, w, db, locks) && Keeps(t, locks, locks') && !pc.Committing?
    ensures ApplyGood(t, req, ApplyMove(req, pc, w, db), db, locks', other)
  {
    MergeWithNothing(db);
    if pc.ClaimOrder? {
      ApplyClaimOk(t, req, pc.limit, pc.discount, pc.subtotal, w, db, locks, locks', other);
    } else if pc.ReadOrder? {
      ApplyReadOk(t, req, pc, w, db, locks, locks', other);
    } else if pc.TakeCapacity? {
      FirstRow(req.code, Used(db.promotions[req.code]));
    }
  }

  lemma PayMoveOk(t: int, req: Request, pc: Pc, w: Db, db: Db, locks: LockTable, locks': LockTable, other: LockTable)
    requires OrderInv(db.orders, db.reservations)
    requires req.Pay? && PayState(t, req, pc, w, db, locks) && Keeps(t, locks, locks') && !pc.Committing?
    ensures PayGood(t, req, PayMove(req, pc, w, db), db, locks', other)
  {
    if pc.InsertPayment? {
      PayInsertOk(t, req, pc.amountCents, w, db, locks, locks', other);
    } else {
      PayReadOk(t, req, pc, w, db, locks', other);
    }
  }

  lemma PayReadOk(t: int, req: Request, pc: Pc, w: Db, db: Db, locks': LockTable, other: LockTable)
    requires OrderInv(db.orders, db.reservations) && req.Pay? && w == NoWrites && !pc.InsertPayment?
    requires pc.FindPending? ==> req.oid in db.orders && AmountOk(pc.amountCents, db.orders[req.oid])
    ensures PayGood(t, req, PayMove(req, pc, w, db), db, locks', other)
  {
    MergeWithNothing(db);
    if req.oid in db.orders { assert OrderOk(db.orders[req.oid], db.reservations); }
  }

  lemma PayInsertOk(t: int, req: Request, amount: int, w: Db, db: Db, locks: LockTable, locks': LockTable,
                    other: LockTable)
    requires req.Pay? && PayState(t, req, InsertPayment(amount), w, db, locks) && Keeps(t, locks, locks')
    ensures PayGood(t, req, PayMove(req, InsertPayment(amount), w, db), db, locks', other)
  {
    MergeWithNothing(db);
    if req.charge.Some? { FirstRow(PaymentRef(req.provider, req.charge.value),
      Payment(req.oid, Pending, amount, None)); }
  }

  lemma RedeemLogOk(t: int, req: Request, pc: Pc, w: Db, db: Db, locks: LockTable, locks': LockTable, other: LockTable)
    requires req.Redeem? && RedeemState(t, req, pc, w, db, locks) && Keeps(t, locks, locks')
    requires (pc.LogRedemption? || pc.LogRefusal?)
    ensures RedeemGood(t, req, RedeemMove(req, pc, w, db), db, locks', other)
  {
    assert NoWrites.redemptions + [Redemption(req.code, req.userId, RedeemedAction)]
      == [Redemption(req.code, req.userId, RedeemedAction)];
  }

  lemma RedeemClaimOk(t: int, req: Request, pc: Pc, w: Db, db: Db, locks: LockTable, locks': LockTable,
                      other: LockTable)
    requires req.Redeem? && RedeemState(t, req, pc, w, db, locks) && Keeps(t, locks, locks') && pc.ClaimCoupon?
    ensures RedeemGood(t, req, RedeemMove(req, pc, w, db), db, locks', other)
  {
    MergeWithNothing(db);
    FirstRow(req.code, AsRedeemed(db.coupons[req.code], req.now));
  }

  lemma RedeemMoveOk(t: int, req: Request, pc: Pc, w: Db, db: Db, locks: LockTable, locks': LockTable, other: LockTable)
    requires req.Redeem? && RedeemState(t, req, pc, w, db, locks) && Keeps(t, locks, locks') && !pc.Committing?
    ensures RedeemGood(t, req, RedeemMove(req, pc, w, db), db, locks', other)
  {
    if pc.LogRedemption? || pc.LogRefusal? {
      RedeemLogOk(t, req, pc, w, db, locks, locks', other);
    } else if pc.ClaimCoupon? {
      RedeemClaimOk(t, req, pc, w, db, locks, locks', other);
    } else if pc.Start? {
      RedeemStartOk(t, req, db, locks', other);
    }
  }

  lemma RedeemStartOk(t: int, req: Request, db: Db, locks': LockTable, other: LockTable)
    requires req.Redeem?
    ensures RedeemGood(t, req, RedeemMove(req, Start, NoWrites, db), db, locks', other)
  {
    MergeWithNothing(db);
  }
}
