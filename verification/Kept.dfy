/** Every committed transaction keeps the invariants. */
module Kept {
  import opened Common
  import opened Schema
  import opened Sums
  import opened Services
  import opened Invariants
  import opened StockKept

  // ---- accounting ----

  /** Sums over orders after writing one order row. */
  lemma OrderSharesMove(orders: map<int, Order>, reservations: map<int, Reservation>, oid: int, o: Order, p: int)
    ensures Sum(PaidQty(orders[oid := o], p)) - Sum(PaidQty(orders, p))
         == PaidQty(orders[oid := o], p)[oid] - if oid in orders then PaidQty(orders, p)[oid] else 0
    ensures Sum(LateQty(orders[oid := o], reservations, p)) - Sum(LateQty(orders, reservations, p))
         == LateQty(orders[oid := o], reservations, p)[oid]
            - if oid in orders then LateQty(orders, reservations, p)[oid] else 0
  {
    var paid, late := PaidQty(orders[oid := o], p), LateQty(orders[oid := o], reservations, p);
    assert paid == PaidQty(orders, p)[oid := paid[oid]];
    assert late == LateQty(orders, reservations, p)[oid := late[oid]];
    SumUpdate(PaidQty(orders, p), oid, paid[oid]);
    SumUpdate(LateQty(orders, reservations, p), oid, late[oid]);
  }

  /** Writing a reservation row that is new or ACTIVE does not touch what is paid late. */
  lemma LateUnmoved(orders: map<int, Order>, reservations: map<int, Reservation>, rid: int, r: Reservation, p: int)
    requires OrderInv(orders, reservations) && CouplingInv(orders, reservations)
    requires rid in reservations ==> reservations[rid].status.Active?
    ensures LateQty(orders, reservations[rid := r], p) == LateQty(orders, reservations, p)
  {
    forall o | o in orders
      ensures PaidLate(orders[o], reservations[rid := r]) == PaidLate(orders[o], reservations)
    {
      assert OrderOk(orders[o], reservations);
    }
  }

  /** Reservation rows may come, or leave ACTIVE for anything but CONVERTED, without touching the accounts. */
  lemma ReservationWriteKeepsAccounts(db: Db, rid: int, r: Reservation)
    requires Inv(db)
    requires rid in db.reservations ==>
      db.reservations[rid].status.Active? && db.reservations[rid].productId == r.productId
    requires !r.status.Converted?
    ensures AccountInv(db.inventory.Keys, db.reservations[rid := r], db.orders, db.tickets)
  {
    forall p | p in db.inventory.Keys
      ensures AccountRow(p, db.reservations[rid := r], db.orders, db.tickets)
    {
      assert AccountRow(p, db.reservations, db.orders, db.tickets);
      SharesMove(db.reservations, rid, r, p);
      LateUnmoved(db.orders, db.reservations, rid, r, p);
    }
  }

  /** Order rows may come unpaid, or change money while unpaid. */
  lemma OrderWriteKeepsAccounts(db: Db, oid: int, o: Order)
    requires Inv(db)
    requires o.status.PaymentPending? && (oid in db.orders ==> db.orders[oid].status.PaymentPending?)
    ensures AccountInv(db.inventory.Keys, db.reservations, db.orders[oid := o], db.tickets)
  {
    forall p | p in db.inventory.Keys
      ensures AccountRow(p, db.reservations, db.orders[oid := o], db.tickets)
    {
      assert AccountRow(p, db.reservations, db.orders, db.tickets);
      OrderSharesMove(db.orders, db.reservations, oid, o, p);
    }
  }

  // ---- reservations ----

  /** A reservation row that is new, or leaves ACTIVE unsold, disturbs nothing beyond the stock. */
  lemma ReservationWriteKeeps(db: Db, db': Db, rid: int, r: Reservation)
    requires Inv(db)
    requires rid in db.reservations ==>
      && db.reservations[rid].status.Active? && db.reservations[rid].productId == r.productId
      && db.reservations[rid].userId == r.userId && db.reservations[rid].quantity == r.quantity
    requires !r.status.Converted?
    requires db' == db.(inventory := db'.inventory, reservations := db.reservations[rid := r])
    requires db'.inventory.Keys == db.inventory.Keys && StockInv(db'.inventory, db'.reservations)
    ensures Inv(db')
  {
    ReservationWriteKeepsAccounts(db, rid, r);
    assert OrderInv(db'.orders, db'.reservations) by {
      forall o | o in db.orders ensures OrderOk(db.orders[o], db'.reservations) {
        assert OrderOk(db.orders[o], db.reservations);
      }
    }
    assert CouplingInv(db'.orders, db'.reservations) by {
      forall o | o in db.orders ensures OrderOk(db.orders[o], db.reservations) {}
    }
  }

  lemma CreateKeeps(db: Db, userId: int, productId: int, quantity: int, expiresAt: int, rid: int)
    requires Inv(db)
    ensures Inv(CreateReservation(db, userId, productId, quantity, expiresAt, rid).db)
  {
    var out := CreateReservation(db, userId, productId, quantity, expiresAt, rid);
    CreateKeepsStock(db, userId, productId, quantity, expiresAt, rid);
    if out.reply.Reserved? {
      ReservationWriteKeeps(db, out.db, rid, out.db.reservations[rid]);
    }
  }

  lemma CancelKeeps(db: Db, rid: int, now: int)
    requires Inv(db)
    ensures Inv(CancelReservation(db, rid, now).db)
  {
    var out := CancelReservation(db, rid, now);
    CancelKeepsStock(db, rid, now);
    if out.reply == Flag(true) {
      ReservationWriteKeeps(db, out.db, rid, out.db.reservations[rid]);
    }
  }

  lemma ExpireKeeps(db: Db, rid: int, now: int)
    requires Inv(db)
    ensures Inv(ExpireReservation(db, rid, now).db)
  {
    if rid in db.reservations && !Ended(db.reservations[rid]) {
      ExpireKeepsStock(db, rid, now);
      ExpireWrites(db, rid, now);
      var db' := ExpireReservation(db, rid, now).db;
      ReservationWriteKeeps(db, db', rid, db'.reservations[rid]);
    }
  }

  /** Expiring writes the reservation and at most its product's stock row. */
  lemma ExpireWrites(db: Db, rid: int, now: int)
    requires StockInv(db.inventory, db.reservations) && rid in db.reservations && !Ended(db.reservations[rid])
    ensures var db' := ExpireReservation(db, rid, now).db;
      && db'.inventory.Keys == db.inventory.Keys
      && db' == db.(inventory := db'.inventory, reservations := db.reservations[
           rid := db.reservations[rid].(status := Expired, releasedAt := Some(now))])
  {}

  // ---- orders ----

  lemma UnpaidKeepsCoupling(orders: map<int, Order>, reservations: map<int, Reservation>, oid: int, o: Order)
    requires CouplingInv(orders, reservations)
    requires o.status.PaymentPending? && (oid in orders ==> orders[oid].status.PaymentPending?)
    requires o.reservationId in reservations ==> !reservations[o.reservationId].status.Converted?
    ensures CouplingInv(orders[oid := o], reservations)
  {
    forall r | r in reservations && reservations[r].status.Converted?
      ensures HasPaidOrder(orders[oid := o], r)
    {
      var w :| w in orders.Keys && orders[w].reservationId == r && orders[w].status.OrderPaid?;
      assert w in orders[oid := o].Keys;
    }
  }

  lemma UnpaidKeepsTickets(tickets: seq<Ticket>, orders: map<int, Order>, oid: int, o: Order)
    requires TicketInv(tickets, orders)
    requires o.status.PaymentPending? && (oid in orders ==> orders[oid].status.PaymentPending?)
    ensures TicketInv(tickets, orders[oid := o])
  {
    if oid !in orders { TicketsOfNone(tickets, oid); }
  }

  lemma UnpaidKeepsCoupons(coupons: map<string, Coupon>, orders: map<int, Order>,
        was: map<string, Promotion>, promotions: map<string, Promotion>, oid: int, o: Order)
    requires CouponInv(coupons, orders, was)
    requires o.status.PaymentPending? && (oid in orders ==> orders[oid].status.PaymentPending?)
    requires promotions.Keys == was.Keys
    requires forall c :: c in was ==> promotions[c].issuesCouponOnPaid == was[c].issuesCouponOnPaid
    ensures CouponInv(coupons, orders[oid := o], promotions)
  {
    forall c | c in coupons ensures CouponOk(coupons[c], orders[oid := o], promotions) {
      assert CouponOk(coupons[c], orders, was);
    }
  }

  lemma UnpaidKeepsPayments(payments: map<PaymentRef, Payment>, orders: map<int, Order>, oid: int, o: Order)
    requires PaymentInv(payments, orders)
    requires o.status.PaymentPending? && (oid in orders ==> orders[oid].status.PaymentPending?)
    requires forall q :: q in payments && payments[q].orderId == oid ==> AmountOk(payments[q].amountCents, o)
    ensures PaymentInv(payments, orders[oid := o])
  {
    forall q | q in payments ensures PaymentOk(payments[q], orders[oid := o]) {
      assert PaymentOk(payments[q], orders);
    }
  }

  /** Unpaid order rows may come or change their discount. */
  lemma OrderWriteKeeps(db: Db, db': Db, oid: int, o: Order)
    requires Inv(db)
    requires db' == db.(orders := db.orders[oid := o], keys := db'.keys, promotions := db'.promotions)
    requires OrderOk(o, db.reservations) && o.status.PaymentPending?
    requires !db.reservations[o.reservationId].status.Converted?
    requires oid in db.orders ==> db.orders[oid].status.PaymentPending?
    requires forall o' :: o' in db.orders && db.orders[o'].reservationId == o.reservationId ==> o' == oid
    requires forall q :: q in db.payments && db.payments[q].orderId == oid ==> AmountOk(db.payments[q].amountCents, o)
    requires KeyInv(db'.keys, db'.orders)
    requires db'.promotions.Keys == db.promotions.Keys
    requires forall c :: c in db.promotions ==>
      db'.promotions[c].issuesCouponOnPaid == db.promotions[c].issuesCouponOnPaid
    ensures Inv(db')
  {
    OrderWriteKeepsAccounts(db, oid, o);
    UnpaidKeepsCoupling(db.orders, db.reservations, oid, o);
    UnpaidKeepsTickets(db.tickets, db.orders, oid, o);
    UnpaidKeepsCoupons(db.coupons, db.orders, db.promotions, db'.promotions, oid, o);
    UnpaidKeepsPayments(db.payments, db.orders, oid, o);
  }

  lemma OneLine(r: Reservation, rid: int, key: string, price: int)
    requires price > 0 && r.quantity > 0
    ensures LineTotals(NewOrder(r, rid, key, price).items) == price * r.quantity > 0
  {
    var items := NewOrder(r, rid, key, price).items;
    assert items[1..] == [];
    assert LineTotals(items) == items[0].quantity * items[0].unitPriceCents;
  }

  lemma PlaceOrderKeeps(db: Db, userId: int, rid: int, key: string, oid: int, price: int)
    requires Inv(db)
    ensures Inv(PlaceOrder(db, userId, rid, key, oid, price).db)
  {
    var db' := PlaceOrder(db, userId, rid, key, oid, price).db;
    if db' != db {
      var o := db'.orders[oid];
      OneLine(db.reservations[rid], rid, key, price);
      forall q | q in db.payments ensures db.payments[q].orderId != oid {
        assert PaymentOk(db.payments[q], db.orders);
      }
      OrderWriteKeeps(db, db', oid, o);
    }
  }

  lemma ClaimDiscountKeeps(db: Db, userId: int, oid: int, code: string, limit: Option<int>, discount: int)
    requires Inv(db)
    ensures Inv(ClaimDiscount(db, userId, oid, code, limit, discount).db)
  {
    var db' := ClaimDiscount(db, userId, oid, code, limit, discount).db;
    if db' != db {
      assert OrderOk(db.orders[oid], db.reservations);
      forall q | q in db.payments && db.payments[q].orderId == oid
        ensures AmountOk(db.payments[q].amountCents, db'.orders[oid])
      {
        assert PaymentOk(db.payments[q], db.orders);
      }
      OrderWriteKeeps(db, db', oid, db'.orders[oid]);
    }
  }
}
