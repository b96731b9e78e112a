/** What one accepted payment notification writes, row by row. */
module Settlement {
  import opened Common
  import opened Schema
  import opened TicketCodes
  import opened Services
  import opened Invariants
  import opened StockKept
  import Stock

  function PaidOrder(o: Order, paidAt: int): Order {
    o.(status := OrderPaid, paidAt := Some(paidAt))
  }

  predicate StillActive(db: Db, rid: int) { rid in db.reservations && db.reservations[rid].status.Active? }

  function ConvertedRows(db: Db, rid: int): map<int, Reservation> {
    if StillActive(db, rid) then map[rid := db.reservations[rid].(status := Converted)] else map[]
  }

  function SoldRows(db: Db, rid: int): map<int, Inventory> {
    if StillActive(db, rid) then
      var r := db.reservations[rid];
      if r.productId !in db.inventory then map[]
      else match Stock.Sell(db.inventory[r.productId], r.quantity)
        case None => map[]
        case Some(row) => map[r.productId := row]
    else map[]
  }

  /** Whether paying the order now makes a coupon. */
  predicate EarnsCoupon(db: Db, oid: int)
    requires oid in db.orders
  {
    !HasCoupon(db.coupons, oid) && Issues(db.promotions, db.orders[oid].discountCode)
  }

  function CouponRows(db: Db, oid: int, d: Draws): map<string, Coupon>
    requires oid in db.orders
  {
    if EarnsCoupon(db, oid) then
      var o := db.orders[oid];
      map[d.couponCode := NewCoupon(oid, o.userId, o.discountCode.value, db.promotions[o.discountCode.value],
        d.issuedAt)]
    else map[]
  }

  function TicketRows(db: Db, oid: int, d: Draws): seq<Ticket>
    requires oid in db.orders
  {
    if TicketsOf(db.tickets, oid) != [] then [] else Generated(oid, db.orders[oid].items, d.ticketCode)
  }

  function ClaimRows(db: Db, ev: Event): map<PaymentRef, Payment>
    requires ev.ref in db.payments
  {
    map[ev.ref := Claimed(db.payments[ev.ref], ev)]
  }

  function ConfirmRows(db: Db, ev: Event): Db
    requires ev.ref in db.payments && db.payments[ev.ref].orderId in db.orders
  {
    var oid := db.payments[ev.ref].orderId;
    var o := db.orders[oid];
    if ev.success then
      NoWrites.(
        payments := ClaimRows(db, ev),
        reservations := ConvertedRows(db, o.reservationId), inventory := SoldRows(db, o.reservationId),
        orders := map[oid := PaidOrder(o, ev.draws.paidAt)],
        coupons := CouponRows(db, oid, ev.draws), tickets := TicketRows(db, oid, ev.draws))
    else NoWrites.(payments := ClaimRows(db, ev))
  }

  /** When a notification is accepted. */
  predicate Accepts(db: Db, ev: Event) {
    && ev.ref in db.payments
    && !Closed(db.payments[ev.ref])
    && AmountMatches(ev, db.payments[ev.ref])
    && !EventTaken(db.payments, ev.ref, ev.eventId)
    && db.payments[ev.ref].orderId in db.orders
    && var oid := db.payments[ev.ref].orderId;
    && (ev.success && EarnsCoupon(db, oid) ==> ev.draws.couponCode !in db.coupons)
    && (ev.success ==> FreshCodes(db.tickets, TicketRows(db, oid, ev.draws)))
  }

  lemma MergeWithNothing(db: Db)
    ensures Merge(db, NoWrites) == db
  {
    assert db.inventory + map[] == db.inventory;
    assert db.prices + map[] == db.prices;
    assert db.reservations + map[] == db.reservations;
    assert db.orders + map[] == db.orders;
    assert db.keys + map[] == db.keys;
    assert db.payments + map[] == db.payments;
    assert db.promotions + map[] == db.promotions;
    assert db.coupons + map[] == db.coupons;
    assert db.tickets + [] == db.tickets;
    assert db.redemptions + [] == db.redemptions;
  }

  lemma ActiveConversionRows(db: Db, rid: int)
    requires StockInv(db.inventory, db.reservations) && StillActive(db, rid)
    ensures ConvertIfActive(db, rid) ==
      Ok(db.(reservations := db.reservations + ConvertedRows(db, rid), inventory := db.inventory + SoldRows(db, rid)))
  {
    ActiveIsReserved(db.inventory, db.reservations, rid);
    var r := db.reservations[rid];
    var row := Stock.Sell(db.inventory[r.productId], r.quantity).value;
    assert db.inventory + SoldRows(db, rid) == db.inventory[r.productId := row];
    assert db.reservations + ConvertedRows(db, rid) == db.reservations[rid := r.(status := Converted)];
  }

  lemma ConversionRows(db: Db, rid: int)
    requires StockInv(db.inventory, db.reservations)
    ensures ConvertIfActive(db, rid) ==
      Ok(db.(reservations := db.reservations + ConvertedRows(db, rid), inventory := db.inventory + SoldRows(db, rid)))
  {
    if StillActive(db, rid) {
      ActiveConversionRows(db, rid);
    } else {
      assert db.inventory + SoldRows(db, rid) == db.inventory;
      assert db.reservations + ConvertedRows(db, rid) == db.reservations;
    }
  }

  lemma CouponIssueRows(db: Db, oid: int, d: Draws)
    requires oid in db.orders
    ensures IssueCoupon(db, oid, d) ==
      if EarnsCoupon(db, oid) && d.couponCode in db.coupons then Err(UniqueViolation)
      else Ok(db.(coupons := db.coupons + CouponRows(db, oid, d)))
  {
    if !EarnsCoupon(db, oid) {
      assert db.coupons + CouponRows(db, oid, d) == db.coupons;
    } else if d.couponCode !in db.coupons {
      var rows := CouponRows(db, oid, d);
      assert db.coupons + rows == db.coupons[d.couponCode := rows[d.couponCode]];
    }
  }

  lemma TicketIssueRows(db: Db, oid: int, d: Draws)
    requires oid in db.orders
    ensures IssueTickets(db, oid, d) ==
      if FreshCodes(db.tickets, TicketRows(db, oid, d)) then Ok(db.(tickets := db.tickets + TicketRows(db, oid, d)))
      else Err(UniqueViolation)
  {
    if TicketsOf(db.tickets, oid) != [] {
      assert db.tickets + TicketRows(db, oid, d) == db.tickets;
    }
  }

  lemma SettleRows(db: Db, oid: int, d: Draws)
    requires oid in db.orders && StockInv(db.inventory, db.reservations)
    ensures Settle(db, oid, d) ==
      if EarnsCoupon(db, oid) && d.couponCode in db.coupons then Err(UniqueViolation)
      else if !FreshCodes(db.tickets, TicketRows(db, oid, d)) then Err(UniqueViolation)
      else
        var rid := db.orders[oid].reservationId;
        Ok(db.(reservations := db.reservations + ConvertedRows(db, rid), inventory := db.inventory + SoldRows(db, rid),
               orders := db.orders + map[oid := PaidOrder(db.orders[oid], d.paidAt)],
               coupons := db.coupons + CouponRows(db, oid, d), tickets := db.tickets + TicketRows(db, oid, d)))
  {
    var o := db.orders[oid];
    ConversionRows(db, o.reservationId);
    var converted := ConvertIfActive(db, o.reservationId).value;
    var paid := converted.(orders := converted.orders[oid := PaidOrder(o, d.paidAt)]);
    assert paid.orders == db.orders + map[oid := PaidOrder(o, d.paidAt)];
    CouponIssueRows(paid, oid, d);
    if IssueCoupon(paid, oid, d).Ok? {
      var rewarded := IssueCoupon(paid, oid, d).value;
      TicketIssueRows(rewarded, oid, d);
    }
  }

  /** Merging ConfirmRows, field by field. */
  lemma MergeConfirm(db: Db, ev: Event)
    requires ev.ref in db.payments && db.payments[ev.ref].orderId in db.orders
    ensures var w := ConfirmRows(db, ev);
      Merge(db, w) == db.(
        payments := db.payments[ev.ref := Claimed(db.payments[ev.ref], ev)],
        reservations := db.reservations + w.reservations, inventory := db.inventory + w.inventory,
        orders := db.orders + w.orders, coupons := db.coupons + w.coupons, tickets := db.tickets + w.tickets)
  {
    MergeWithNothing(db);
    var w := ConfirmRows(db, ev);
    assert db.payments + w.payments == db.payments[ev.ref := Claimed(db.payments[ev.ref], ev)];
  }

  lemma MergeFailure(db: Db, ev: Event)
    requires ev.ref in db.payments && db.payments[ev.ref].orderId in db.orders && !ev.success
    ensures Merge(db, ConfirmRows(db, ev)) == db.(payments := db.payments[ev.ref := Claimed(db.payments[ev.ref], ev)])
  {
    MergeWithNothing(db);
    MergeConfirm(db, ev);
  }

  /** The claim on the payment row goes through. */
  predicate Claims(db: Db, ev: Event) {
    && ev.ref in db.payments && !Closed(db.payments[ev.ref]) && AmountMatches(ev, db.payments[ev.ref])
    && !EventTaken(db.payments, ev.ref, ev.eventId) && db.payments[ev.ref].orderId in db.orders
  }

  lemma SuccessIsRows(db: Db, ev: Event)
    requires StockInv(db.inventory, db.reservations) && Claims(db, ev) && ev.success
    ensures ConfirmPayment(db, ev) ==
      if Accepts(db, ev) then Outcome(Merge(db, ConfirmRows(db, ev)), Confirmed(true))
        else Outcome(db, Refused(UniqueViolation))
  {
    var claimed := db.(payments := db.payments[ev.ref := Claimed(db.payments[ev.ref], ev)]);
    MergeConfirm(db, ev);
    SettleRows(claimed, db.payments[ev.ref].orderId, ev.draws);
  }

  lemma FailureIsRows(db: Db, ev: Event)
    requires Claims(db, ev) && !ev.success
    ensures Accepts(db, ev) && ConfirmPayment(db, ev) == Outcome(Merge(db, ConfirmRows(db, ev)), Confirmed(true))
  {
    MergeFailure(db, ev);
  }

  /** A notification takes effect exactly when it is accepted, and then writes exactly ConfirmRows. */
  lemma ConfirmIsRows(db: Db, ev: Event)
    requires StockInv(db.inventory, db.reservations)
    requires ev.ref in db.payments ==> db.payments[ev.ref].orderId in db.orders
    ensures ConfirmPayment(db, ev).reply == Confirmed(true) <==> Accepts(db, ev)
    ensures ConfirmPayment(db, ev).db == if Accepts(db, ev) then Merge(db, ConfirmRows(db, ev)) else db
  {
    if Claims(db, ev) && ev.success {
      SuccessIsRows(db, ev);
    } else if Claims(db, ev) {
      FailureIsRows(db, ev);
    }
  }
}
