/** An accepted payment notification keeps the invariants, table group by table group. */
module ConfirmKept {
  import opened Schema
  import opened Sums
  import opened TicketCodes
  import opened Services
  import opened Invariants
  import opened StockKept
  import opened Kept
  import opened Settlement

  lemma ClaimKeepsPayments(payments: map<PaymentRef, Payment>, orders: map<int, Order>, orders': map<int, Order>,
                           ev: Event)
    requires PaymentInv(payments, orders)
    requires ev.ref in payments && !Closed(payments[ev.ref]) && !EventTaken(payments, ev.ref, ev.eventId)
    requires var oid := payments[ev.ref].orderId;
      orders' == if ev.success then orders[oid := PaidOrder(orders[oid], ev.draws.paidAt)] else orders
    ensures PaymentInv(payments[ev.ref := Claimed(payments[ev.ref], ev)], orders')
  {
    var payments' := payments[ev.ref := Claimed(payments[ev.ref], ev)];
    forall q | q in payments' ensures PaymentOk(payments'[q], orders') {
      assert PaymentOk(payments[q], orders);
    }
    forall q, q', e | HoldsEvent(payments', q, e) && HoldsEvent(payments', q', e) && q.provider == q'.provider
      ensures q == q'
    {
      assert q != ev.ref ==> HoldsEvent(payments, q, e);
      assert q' != ev.ref ==> HoldsEvent(payments, q', e);
    }
    forall o | o in orders' && orders'[o].status.OrderPaid? ensures HasPaidPayment(payments', o) {
      if ev.success && o == payments[ev.ref].orderId {
        assert ev.ref in payments'.Keys;
      } else {
        var q :| q in payments.Keys && payments[q].orderId == o && payments[q].status.Paid?;
        assert q in payments'.Keys;
      }
    }
  }

  lemma PaidKeepsOrderRows(db: Db, oid: int, paidAt: int)
    requires OrderInv(db.orders, db.reservations) && oid in db.orders
    ensures OrderInv(db.orders[oid := PaidOrder(db.orders[oid], paidAt)],
                     db.reservations + ConvertedRows(db, db.orders[oid].reservationId))
  {
    var orders' := db.orders[oid := PaidOrder(db.orders[oid], paidAt)];
    var reservations' := db.reservations + ConvertedRows(db, db.orders[oid].reservationId);
    forall o | o in orders' ensures OrderOk(orders'[o], reservations') {
      assert OrderOk(db.orders[o], db.reservations);
    }
  }

  lemma PaidKeepsCoupling(db: Db, oid: int, paidAt: int)
    requires OrderInv(db.orders, db.reservations) && CouplingInv(db.orders, db.reservations) && oid in db.orders
    ensures CouplingInv(db.orders[oid := PaidOrder(db.orders[oid], paidAt)],
                        db.reservations + ConvertedRows(db, db.orders[oid].reservationId))
  {
    var orders' := db.orders[oid := PaidOrder(db.orders[oid], paidAt)];
    var rid := db.orders[oid].reservationId;
    var reservations' := db.reservations + ConvertedRows(db, rid);
    assert OrderOk(db.orders[oid], db.reservations);
    forall r | r in reservations' && reservations'[r].status.Converted? ensures HasPaidOrder(orders', r) {
      if r == rid && StillActive(db, rid) {
        assert oid in orders'.Keys;
      } else {
        var w :| w in db.orders.Keys && db.orders[w].reservationId == r && db.orders[w].status.OrderPaid?;
        assert w in orders'.Keys;
      }
    }
  }

  lemma PaidKeepsOrders(db: Db, oid: int, paidAt: int)
    requires OrderInv(db.orders, db.reservations) && CouplingInv(db.orders, db.reservations)
    requires KeyInv(db.keys, db.orders) && oid in db.orders
    ensures OrderInv(db.orders[oid := PaidOrder(db.orders[oid], paidAt)],
                     db.reservations + ConvertedRows(db, db.orders[oid].reservationId))
    ensures CouplingInv(db.orders[oid := PaidOrder(db.orders[oid], paidAt)],
                        db.reservations + ConvertedRows(db, db.orders[oid].reservationId))
    ensures KeyInv(db.keys, db.orders[oid := PaidOrder(db.orders[oid], paidAt)])
  {
    PaidKeepsOrderRows(db, oid, paidAt);
    PaidKeepsCoupling(db, oid, paidAt);
  }

  lemma {:induction false} FreshStaysUnique(tickets: seq<Ticket>, added: seq<Ticket>)
    requires UniqueCodes(tickets) && FreshCodes(tickets, added)
    ensures UniqueCodes(tickets + added)
  {
    var all := tickets + added;
    forall i, j | 0 <= i < j < |all| ensures all[i].code != all[j].code {
      if j >= |tickets| {
        var k := j - |tickets|;
        assert !CodeUsed(tickets + added[..k], added[k].code);
        assert (tickets + added[..k])[i] == all[i];
      }
    }
  }

  /** After a successful notification the order has its tickets, and every other order what it had. */
  lemma TicketsAfter(db: Db, oid: int, d: Draws, o: int)
    requires oid in db.orders
    ensures TicketsOf(db.tickets + TicketRows(db, oid, d), o) ==
      if o == oid && TicketsOf(db.tickets, oid) == [] then Generated(oid, db.orders[oid].items, d.ticketCode)
      else TicketsOf(db.tickets, o)
  {
    var added := TicketRows(db, oid, d);
    TicketsOfConcat(db.tickets, added, o);
    if o == oid { TicketsOfAll(added, o); } else { TicketsOfNone(added, o); }
  }

  lemma TicketOwnersStay(db: Db, oid: int, d: Draws)
    requires oid in db.orders
    requires forall i :: 0 <= i < |db.tickets| ==> db.tickets[i].orderId in db.orders
    ensures var tickets' := db.tickets + TicketRows(db, oid, d);
      forall i :: 0 <= i < |tickets'| ==> tickets'[i].orderId in db.orders
  {
    var tickets' := db.tickets + TicketRows(db, oid, d);
    forall i | 0 <= i < |tickets'| ensures tickets'[i].orderId in db.orders {
      if i >= |db.tickets| { assert tickets'[i] == TicketRows(db, oid, d)[i - |db.tickets|]; }
    }
  }

  lemma PaidKeepsTickets(db: Db, oid: int, d: Draws)
    requires TicketInv(db.tickets, db.orders) && oid in db.orders
    requires FreshCodes(db.tickets, TicketRows(db, oid, d))
    requires TotalQuantity(db.orders[oid].items) > 0
    ensures TicketInv(db.tickets + TicketRows(db, oid, d), db.orders[oid := PaidOrder(db.orders[oid], d.paidAt)])
  {
    var tickets', orders' := db.tickets + TicketRows(db, oid, d), db.orders[oid := PaidOrder(db.orders[oid], d.paidAt)];
    FreshStaysUnique(db.tickets, TicketRows(db, oid, d));
    TicketOwnersStay(db, oid, d);
    forall o | o in orders'
      ensures if orders'[o].status.OrderPaid? then IsIssue(TicketsOf(tickets', o), orders'[o].items)
              else TicketsOf(tickets', o) == []
    {
      IssueAfter(db, oid, d, o);
    }
  }

  /** Paying `oid` leaves every order with the tickets it is due. */
  lemma IssueAfter(db: Db, oid: int, d: Draws, o: int)
    requires TicketInv(db.tickets, db.orders) && oid in db.orders && o in db.orders
    requires TotalQuantity(db.orders[oid].items) > 0
    ensures var tickets', orders' :=
        db.tickets + TicketRows(db, oid, d), db.orders[oid := PaidOrder(db.orders[oid], d.paidAt)];
      if orders'[o].status.OrderPaid? then IsIssue(TicketsOf(tickets', o), orders'[o].items)
      else TicketsOf(tickets', o) == []
  {
    TicketsAfter(db, oid, d, o);
  }

  lemma PaidKeepsCoupons(db: Db, oid: int, d: Draws)
    requires CouponInv(db.coupons, db.orders, db.promotions) && oid in db.orders
    requires EarnsCoupon(db, oid) ==> d.couponCode !in db.coupons
    ensures CouponInv(db.coupons + CouponRows(db, oid, d),
                      db.orders[oid := PaidOrder(db.orders[oid], d.paidAt)], db.promotions)
  {
    var coupons', orders' := db.coupons + CouponRows(db, oid, d), db.orders[oid := PaidOrder(db.orders[oid], d.paidAt)];
    forall c | c in coupons' ensures CouponOk(coupons'[c], orders', db.promotions) { CouponStaysOk(db, oid, d, c); }
    forall o | o in orders' && orders'[o].status.OrderPaid? && Issues(db.promotions, orders'[o].discountCode)
      ensures HasCoupon(coupons', o)
    {
      if o == oid && EarnsCoupon(db, oid) {
        assert d.couponCode in coupons'.Keys;
      } else {
        var c :| c in db.coupons.Keys && db.coupons[c].orderId == o;
        assert c in coupons'.Keys;
      }
    }
  }

  lemma CouponStaysOk(db: Db, oid: int, d: Draws, c: string)
    requires CouponInv(db.coupons, db.orders, db.promotions) && oid in db.orders
    requires EarnsCoupon(db, oid) ==> d.couponCode !in db.coupons
    requires c in db.coupons + CouponRows(db, oid, d)
    ensures CouponOk((db.coupons + CouponRows(db, oid, d))[c],
                     db.orders[oid := PaidOrder(db.orders[oid], d.paidAt)], db.promotions)
  {
    if c in db.coupons { assert CouponOk(db.coupons[c], db.orders, db.promotions); }
  }

  lemma PaidKeepsLog(db: Db, oid: int, d: Draws)
    requires LogInv(db.redemptions, db.coupons) && oid in db.orders
    requires EarnsCoupon(db, oid) ==> d.couponCode !in db.coupons
    ensures LogInv(db.redemptions, db.coupons + CouponRows(db, oid, d))
  {
    if EarnsCoupon(db, oid) {
      CountUniform(db.redemptions, RedemptionOf(d.couponCode), false);
    }
  }

  lemma OneItem(o: Order, reservations: map<int, Reservation>, p: int)
    requires OrderOk(o, reservations)
    ensures TotalQuantity(o.items) == reservations[o.reservationId].quantity
    ensures QuantityOf(o.items, p) ==
      if reservations[o.reservationId].productId == p then reservations[o.reservationId].quantity else 0
  {
    assert o.items[1..] == [];
  }

  lemma TicketRowsCount(db: Db, oid: int, d: Draws, p: int)
    requires oid in db.orders && p != 0
    ensures Count(db.tickets + TicketRows(db, oid, d), IsFor(p))
         == Count(db.tickets, IsFor(p))
            + if TicketsOf(db.tickets, oid) != [] then 0 else QuantityOf(db.orders[oid].items, p)
  {
    CountConcat(db.tickets, TicketRows(db, oid, d), IsFor(p));
    GeneratedCounts(oid, db.orders[oid].items, d.ticketCode, p);
  }

  /** A conversion moves the converted sum by the order's share and nothing of what is paid late. */
  lemma ConversionMoves(db: Db, oid: int, p: int)
    requires OrderInv(db.orders, db.reservations) && CouplingInv(db.orders, db.reservations) && oid in db.orders
    ensures var rid := db.orders[oid].reservationId;
      var reservations' := db.reservations + ConvertedRows(db, rid);
      && Sum(ConvertedQty(reservations', p)) == Sum(ConvertedQty(db.reservations, p))
           + (if StillActive(db, rid) then QuantityOf(db.orders[oid].items, p) else 0)
      && LateQty(db.orders, reservations', p) == LateQty(db.orders, db.reservations, p)
  {
    var rid := db.orders[oid].reservationId;
    if StillActive(db, rid) {
      var r := db.reservations[rid].(status := Converted);
      assert db.reservations + ConvertedRows(db, rid) == db.reservations[rid := r];
      assert OrderOk(db.orders[oid], db.reservations);
      OneItem(db.orders[oid], db.reservations, p);
      SharesMove(db.reservations, rid, r, p);
      LateUnmoved(db.orders, db.reservations, rid, r, p);
    } else {
      assert db.reservations + ConvertedRows(db, rid) == db.reservations;
    }
  }

  lemma PaidKeepsAccounts(db: Db, oid: int, d: Draws)
    requires Inv(db) && oid in db.orders
    ensures AccountInv(db.inventory.Keys, db.reservations + ConvertedRows(db, db.orders[oid].reservationId),
                       db.orders[oid := PaidOrder(db.orders[oid], d.paidAt)], db.tickets + TicketRows(db, oid, d))
  {
    var o, rid := db.orders[oid], db.orders[oid].reservationId;
    var orders', reservations' := db.orders[oid := PaidOrder(o, d.paidAt)], db.reservations + ConvertedRows(db, rid);
    QuantitiesPositive(db, oid);
    forall p | p in db.inventory.Keys
      ensures AccountRow(p, reservations', orders', db.tickets + TicketRows(db, oid, d))
    {
      assert AccountRow(p, db.reservations, db.orders, db.tickets);
      PaidKeepsAccount(db, oid, d, p);
    }
  }

  lemma PaidKeepsAccount(db: Db, oid: int, d: Draws, p: int)
    requires OrderInv(db.orders, db.reservations) && CouplingInv(db.orders, db.reservations)
    requires oid in db.orders && p != 0
    requires db.orders[oid].status.PaymentPending? <==> TicketsOf(db.tickets, oid) == []
    requires AccountRow(p, db.reservations, db.orders, db.tickets)
    ensures AccountRow(p, db.reservations + ConvertedRows(db, db.orders[oid].reservationId),
                       db.orders[oid := PaidOrder(db.orders[oid], d.paidAt)], db.tickets + TicketRows(db, oid, d))
  {
    AccountParts(db, oid, p);
    ConversionMoves(db, oid, p);
    PayingMoves(db.orders, db.reservations + ConvertedRows(db, db.orders[oid].reservationId), oid, d.paidAt, p);
    TicketRowsCount(db, oid, d, p);
  }

  /** How an order's reservation stands to what it adds to the accounts. */
  lemma AccountParts(db: Db, oid: int, p: int)
    requires OrderInv(db.orders, db.reservations) && CouplingInv(db.orders, db.reservations) && oid in db.orders
    ensures var rid := db.orders[oid].reservationId;
      var reservations' := db.reservations + ConvertedRows(db, rid);
      && (db.orders[oid].status.OrderPaid? ==> !StillActive(db, rid))
      && (db.orders[oid].status.PaymentPending? ==>
            forall paidAt :: PaidLate(PaidOrder(db.orders[oid], paidAt), reservations') <==> !StillActive(db, rid))
  {
    assert OrderOk(db.orders[oid], db.reservations);
  }

  /** Paying an order adds its quantity to the paid sum, and to the late one when its reservation ended unconverted. */
  lemma PayingMoves(orders: map<int, Order>, reservations: map<int, Reservation>, oid: int, paidAt: int, p: int)
    requires oid in orders
    ensures var orders' := orders[oid := PaidOrder(orders[oid], paidAt)];
      var first := if orders[oid].status.OrderPaid? then 0 else QuantityOf(orders[oid].items, p);
      && Sum(PaidQty(orders', p)) == Sum(PaidQty(orders, p)) + first
      && Sum(LateQty(orders', reservations, p)) == Sum(LateQty(orders, reservations, p))
           + if PaidLate(orders'[oid], reservations) then first else 0
  {
    OrderSharesMove(orders, reservations, oid, PaidOrder(orders[oid], paidAt), p);
  }

  lemma ConfirmKeeps(db: Db, ev: Event)
    requires Inv(db)
    ensures Inv(ConfirmPayment(db, ev).db)
  {
    if ev.ref in db.payments { assert PaymentOk(db.payments[ev.ref], db.orders); }
    ConfirmIsRows(db, ev);
    if Accepts(db, ev) {
      var oid := db.payments[ev.ref].orderId;
      MergeConfirm(db, ev);
      if ev.success {
        SuccessKeeps(db, ev, oid);
      } else {
        MergeFailure(db, ev);
        ClaimKeepsPayments(db.payments, db.orders, db.orders, ev);
      }
    }
  }

  lemma ConversionKeepsStock(db: Db, rid: int)
    requires StockInv(db.inventory, db.reservations)
    ensures StockInv(db.inventory + SoldRows(db, rid), db.reservations + ConvertedRows(db, rid))
    ensures (db.inventory + SoldRows(db, rid)).Keys == db.inventory.Keys
  {
    ConversionRows(db, rid);
    ConvertKeepsStock(db, rid);
  }

  lemma QuantitiesPositive(db: Db, oid: int)
    requires Inv(db) && oid in db.orders
    ensures TotalQuantity(db.orders[oid].items) > 0
  {
    assert OrderOk(db.orders[oid], db.reservations);
    OneItem(db.orders[oid], db.reservations, 0);
  }

  /** The invariants of `db`'s tables after some of them were replaced. */
  lemma InvOfParts(db: Db)
    requires StockInv(db.inventory, db.reservations)
    requires OrderInv(db.orders, db.reservations) && CouplingInv(db.orders, db.reservations)
    requires KeyInv(db.keys, db.orders) && PaymentInv(db.payments, db.orders)
    requires TicketInv(db.tickets, db.orders) && CouponInv(db.coupons, db.orders, db.promotions)
    requires LogInv(db.redemptions, db.coupons)
    requires AccountInv(db.inventory.Keys, db.reservations, db.orders, db.tickets)
    ensures Inv(db)
  {}

  /** The tables after a successful notification, one by one. */
  ghost predicate Succeeded(db: Db, ev: Event, oid: int, db': Db)
    requires ev.ref in db.payments && oid in db.orders
  {
    && db'.inventory == db.inventory + SoldRows(db, db.orders[oid].reservationId)
    && db'.reservations == db.reservations + ConvertedRows(db, db.orders[oid].reservationId)
    && db'.orders == db.orders[oid := PaidOrder(db.orders[oid], ev.draws.paidAt)]
    && db'.payments == db.payments[ev.ref := Claimed(db.payments[ev.ref], ev)]
    && db'.coupons == db.coupons + CouponRows(db, oid, ev.draws)
    && db'.tickets == db.tickets + TicketRows(db, oid, ev.draws)
    && db'.keys == db.keys && db'.promotions == db.promotions && db'.redemptions == db.redemptions
  }

  lemma MergeSucceeds(db: Db, ev: Event, oid: int)
    requires Accepts(db, ev) && ev.success && oid == db.payments[ev.ref].orderId
    ensures Succeeded(db, ev, oid, Merge(db, ConfirmRows(db, ev)))
  {
    MergeConfirm(db, ev);
  }

  lemma SuccessKeepsOrders(db: Db, ev: Event, oid: int, db': Db)
    requires Inv(db) && ev.ref in db.payments && oid in db.orders && Succeeded(db, ev, oid, db')
    ensures StockInv(db'.inventory, db'.reservations) && db'.inventory.Keys == db.inventory.Keys
    ensures OrderInv(db'.orders, db'.reservations) && CouplingInv(db'.orders, db'.reservations)
    ensures KeyInv(db'.keys, db'.orders)
  {
    ConversionKeepsStock(db, db.orders[oid].reservationId);
    PaidKeepsOrders(db, oid, ev.draws.paidAt);
  }

  lemma SuccessKeepsIssues(db: Db, ev: Event, oid: int, db': Db)
    requires Inv(db) && Accepts(db, ev) && ev.success && oid == db.payments[ev.ref].orderId
    requires Succeeded(db, ev, oid, db')
    ensures TicketInv(db'.tickets, db'.orders)
    ensures CouponInv(db'.coupons, db'.orders, db'.promotions)
    ensures LogInv(db'.redemptions, db'.coupons)
  {
    QuantitiesPositive(db, oid);
    PaidKeepsTickets(db, oid, ev.draws);
    PaidKeepsCoupons(db, oid, ev.draws);
    PaidKeepsLog(db, oid, ev.draws);
  }

  lemma SuccessKeepsMoney(db: Db, ev: Event, oid: int, db': Db)
    requires Inv(db) && Accepts(db, ev) && ev.success && oid == db.payments[ev.ref].orderId
    requires Succeeded(db, ev, oid, db')
    ensures PaymentInv(db'.payments, db'.orders)
    ensures AccountInv(db.inventory.Keys, db'.reservations, db'.orders, db'.tickets)
  {
    PaidKeepsAccounts(db, oid, ev.draws);
    ClaimKeepsPayments(db.payments, db.orders, db'.orders, ev);
  }

  lemma SuccessKeeps(db: Db, ev: Event, oid: int)
    requires Inv(db) && Accepts(db, ev) && ev.success && oid == db.payments[ev.ref].orderId
    ensures Inv(Merge(db, ConfirmRows(db, ev)))
  {
    var db' := Merge(db, ConfirmRows(db, ev));
    MergeSucceeds(db, ev, oid);
    SuccessKeepsOrders(db, ev, oid, db');
    SuccessKeepsIssues(db, ev, oid, db');
    SuccessKeepsMoney(db, ev, oid, db');
    InvOfParts(db');
  }
}
