/** The statements of confirmPayment: what each one does in terms of committed rows, and what it leaves. */
module ConfirmMoves {
  import opened Common
  import opened Schema
  import opened TicketCodes
  import opened Services
  import opened Invariants
  import opened Settlement
  import opened Footprints
  import opened Rely
  import opened Machine
  import opened SessionState
  import opened Stable
  import opened Moves
  import Stock

  ghost predicate ConfirmGood(t: int, ev: Event, m: Move, db: Db, locks': LockTable, other: LockTable) {
    match m
    case Wait => true
    case Go(pc', w', takes) => Holds(t, takes, locks') ==> ConfirmState(t, ev, pc', w', db, locks')
    case End(pc') => ConfirmState(t, ev, pc', NoWrites, db, other)
    case Commit(_, _, _, _) => false
  }

  // ---- reaching each statement ----

  lemma AtRefusal(t: int, ev: Event, e: Error, db: Db, locks': LockTable, other: LockTable)
    ensures ConfirmGood(t, ev, Refuse(e), db, locks', other)
  {}

  lemma AtReplay(t: int, ev: Event, db: Db, locks': LockTable, other: LockTable)
    ensures ConfirmGood(t, ev, End(Done(Confirmed(false))), db, locks', other)
  {}

  lemma AtPaidOrder(t: int, ev: Event, oid: int, w: Db, db: Db, locks': LockTable, other: LockTable)
    requires Owns(locks', t, PaymentRow(ev.ref)) && Owns(locks', t, EventEntry(ev.ref.provider, ev.eventId)) ==>
      Claiming(t, ev, oid, w, db, locks')
    ensures ConfirmGood(t, ev,
      Go(ReadPaidOrder(oid), w, {PaymentRow(ev.ref), EventEntry(ev.ref.provider, ev.eventId)}), db, locks', other)
  {}

  lemma AtReserved(t: int, ev: Event, oid: int, rid: int, w: Db, db: Db, locks': LockTable, other: LockTable)
    requires Converting(t, ev, oid, rid, w, db, locks')
    ensures ConfirmGood(t, ev, Go(ReadReserved(oid, rid), w, {}), db, locks', other)
  {}

  lemma AtConvertRead(t: int, ev: Event, oid: int, rid: int, w: Db, db: Db, locks': LockTable, other: LockTable)
    requires Converting(t, ev, oid, rid, w, db, locks')
    ensures ConfirmGood(t, ev, Go(ConvertRead(oid, rid), w, {}), db, locks', other)
  {}

  lemma AtConvertClaim(t: int, ev: Event, oid: int, rid: int, seen: Reservation, w: Db, db: Db, locks': LockTable,
                       other: LockTable)
    requires Converting(t, ev, oid, rid, w, db, locks') && Seen(seen, rid, db)
    ensures ConfirmGood(t, ev, Go(ConvertClaim(oid, rid, seen), w, {}), db, locks', other)
  {}

  lemma AtSell(t: int, ev: Event, oid: int, rid: int, seen: Reservation, w: Db, db: Db, locks': LockTable,
               other: LockTable)
    requires Owns(locks', t, ReservationRow(rid)) ==> Selling(t, ev, oid, rid, seen, w, db, locks')
    ensures ConfirmGood(t, ev, Go(ConvertSell(oid, rid, seen), w, {ReservationRow(rid)}), db, locks', other)
  {}

  lemma AtMark(t: int, ev: Event, oid: int, takes: set<Lock>, w: Db, db: Db, locks': LockTable, other: LockTable)
    requires Holds(t, takes, locks') ==> Marking(t, ev, oid, w, db, locks')
    ensures ConfirmGood(t, ev, Go(MarkPaid(oid), w, takes), db, locks', other)
  {}

  lemma AtFindCoupon(t: int, ev: Event, oid: int, w: Db, db: Db, locks': LockTable, other: LockTable)
    requires Owns(locks', t, OrderRow(oid)) ==> Rewarding(t, ev, oid, w, db, locks')
    ensures ConfirmGood(t, ev, Go(FindCoupon(oid), w, {OrderRow(oid)}), db, locks', other)
  {}

  lemma AtReadCode(t: int, ev: Event, oid: int, w: Db, db: Db, locks': LockTable, other: LockTable)
    requires Rewarding(t, ev, oid, w, db, locks') && !HasCoupon(db.coupons, oid)
    ensures ConfirmGood(t, ev, Go(ReadCode(oid), w, {}), db, locks', other)
  {}

  lemma AtFindPromotion(t: int, ev: Event, oid: int, userId: int, code: string, w: Db, db: Db, locks': LockTable,
                        other: LockTable)
    requires Rewarding(t, ev, oid, w, db, locks') && !HasCoupon(db.coupons, oid)
    requires db.orders[oid].discountCode == Some(code) && code != "" && userId == db.orders[oid].userId
    ensures ConfirmGood(t, ev, Go(FindPromotion(oid, userId, code), w, {}), db, locks', other)
  {}

  lemma AtInsertCoupon(t: int, ev: Event, oid: int, userId: int, code: string, hours: int, w: Db, db: Db,
                       locks': LockTable, other: LockTable)
    requires InsertingCoupon(t, ev, oid, userId, code, hours, w, db, locks')
    ensures ConfirmGood(t, ev, Go(InsertCoupon(oid, userId, code, hours), w, {}), db, locks', other)
  {}

  lemma AtFindTickets(t: int, ev: Event, oid: int, takes: set<Lock>, w: Db, db: Db, locks': LockTable, other: LockTable)
    requires Holds(t, takes, locks') ==> Ticketing(t, ev, oid, [], w, db, locks')
    ensures ConfirmGood(t, ev, Go(FindTickets(oid), w, takes), db, locks', other)
  {}

  lemma AtReadItems(t: int, ev: Event, oid: int, w: Db, db: Db, locks': LockTable, other: LockTable)
    requires Ticketing(t, ev, oid, [], w, db, locks') && TicketsOf(db.tickets, oid) == []
    ensures ConfirmGood(t, ev, Go(ReadItems(oid), w, {}), db, locks', other)
  {}

  lemma AtInsertTicket(t: int, ev: Event, oid: int, items: seq<Item>, i: nat, takes: set<Lock>, w: Db, db: Db,
                       locks': LockTable, other: LockTable)
    requires Holds(t, takes, locks') ==>
      && TicketsIn(t, ev, oid, i, db, locks') && items == db.orders[oid].items
      && Ticketing(t, ev, oid, Generated(oid, items, ev.draws.ticketCode)[..i], w, db, locks')
    ensures ConfirmGood(t, ev, Go(InsertTicket(oid, items, i), w, takes), db, locks', other)
  {}

  lemma AtCommit(t: int, ev: Event, w: Db, db: Db, locks': LockTable, other: LockTable)
    requires Ready(t, TConfirm(ev), w, db, locks')
    ensures ConfirmGood(t, ev, Go(Committing(TConfirm(ev), Done(Confirmed(true))), w, {}), db, locks', other)
  {}

  // ---- winning the payment ----

  lemma PaymentIsWon(t: int, ev: Event, db: Db, locks': LockTable)
    requires PaymentInv(db.payments, db.orders)
    requires ev.ref in db.payments && !Closed(db.payments[ev.ref]) && AmountMatches(ev, db.payments[ev.ref])
    requires !EventTaken(db.payments, ev.ref, ev.eventId)
    requires Owns(locks', t, PaymentRow(ev.ref)) && Owns(locks', t, EventEntry(ev.ref.provider, ev.eventId))
    ensures Claiming(t, ev, db.payments[ev.ref].orderId,
      NoWrites.(payments := NoWrites.payments[ev.ref := Claimed(db.payments[ev.ref], ev)]), db, locks')
  {
    assert PaymentOk(db.payments[ev.ref], db.orders);
  }

  lemma ClaimPaymentOk(t: int, ev: Event, db: Db, locks': LockTable, other: LockTable)
    requires PaymentInv(db.payments, db.orders)
    requires ev.ref in db.payments && AmountMatches(ev, db.payments[ev.ref])
    ensures ConfirmGood(t, ev, ClaimPaymentMove(ev, NoWrites, Merge(db, NoWrites)), db, locks', other)
  {
    MergeWithNothing(db);
    if Closed(db.payments[ev.ref]) {
      AtReplay(t, ev, db, locks', other);
    } else if EventTaken(db.payments, ev.ref, ev.eventId) {
      AtRefusal(t, ev, UniqueViolation, db, locks', other);
    } else {
      if Owns(locks', t, PaymentRow(ev.ref)) && Owns(locks', t, EventEntry(ev.ref.provider, ev.eventId)) {
        PaymentIsWon(t, ev, db, locks');
      }
      AtPaidOrder(t, ev, db.payments[ev.ref].orderId,
        NoWrites.(payments := NoWrites.payments[ev.ref := Claimed(db.payments[ev.ref], ev)]), db, locks', other);
    }
  }

  /** A failure notification is ready to commit once the payment is won. */
  lemma FailureReady(t: int, ev: Event, oid: int, w: Db, db: Db, locks: LockTable)
    requires Claiming(t, ev, oid, w, db, locks) && !ev.success
    ensures Ready(t, TConfirm(ev), w, db, locks)
  {}

  lemma ReadPaidOrderOk(t: int, ev: Event, oid: int, w: Db, db: Db, locks: LockTable, locks': LockTable,
                        other: LockTable)
    requires Claiming(t, ev, oid, w, db, locks) && Keeps(t, locks, locks')
    ensures ConfirmGood(t, ev, ReadPaidOrderMove(ev, oid, w, Merge(db, w)), db, locks', other)
  {
    NoRows(db.orders);
    assert Claiming(t, ev, oid, w, db, locks');
    if !ev.success {
      FailureReady(t, ev, oid, w, db, locks');
      AtCommit(t, ev, w, db, locks', other);
    } else {
      AtReserved(t, ev, oid, db.orders[oid].reservationId, w, db, locks', other);
    }
  }

  // ---- converting the reservation ----

  lemma NothingToConvert(t: int, ev: Event, oid: int, rid: int, w: Db, db: Db, locks: LockTable)
    requires Converting(t, ev, oid, rid, w, db, locks) && !StillActive(db, rid)
    ensures Marking(t, ev, oid, w, db, locks)
  {}

  lemma ReadReservedOk(t: int, ev: Event, oid: int, rid: int, w: Db, db: Db, locks: LockTable, locks': LockTable,
                       other: LockTable)
    requires Converting(t, ev, oid, rid, w, db, locks) && Keeps(t, locks, locks')
    requires OrderInv(db.orders, db.reservations)
    ensures ConfirmGood(t, ev, ReadReservedMove(oid, rid, w, Merge(db, w)), db, locks', other)
    ensures ConfirmGood(t, ev, ConvertReadMove(oid, rid, w, Merge(db, w)), db, locks', other)
  {
    NoRows(db.reservations);
    assert OrderOk(db.orders[oid], db.reservations);
    assert Converting(t, ev, oid, rid, w, db, locks');
    if !StillActive(db, rid) {
      NothingToConvert(t, ev, oid, rid, w, db, locks');
      AtMark(t, ev, oid, {}, w, db, locks', other);
    } else {
      AtConvertRead(t, ev, oid, rid, w, db, locks', other);
      AtConvertClaim(t, ev, oid, rid, db.reservations[rid], w, db, locks', other);
    }
  }

  lemma ReservationIsWon(t: int, ev: Event, oid: int, rid: int, seen: Reservation, w: Db, db: Db, locks: LockTable)
    requires Converting(t, ev, oid, rid, w, db, locks) && Seen(seen, rid, db) && StillActive(db, rid)
    requires Owns(locks, t, ReservationRow(rid))
    ensures Selling(t, ev, oid, rid, seen,
      w.(reservations := w.reservations[rid := db.reservations[rid].(status := Converted)]), db, locks)
  {}

  lemma ConvertClaimOk(t: int, ev: Event, oid: int, rid: int, seen: Reservation, w: Db, db: Db, locks: LockTable,
                       locks': LockTable, other: LockTable)
    requires Converting(t, ev, oid, rid, w, db, locks) && Seen(seen, rid, db) && Keeps(t, locks, locks')
    ensures ConfirmGood(t, ev, ConvertClaimMove(oid, rid, seen, w, Merge(db, w)), db, locks', other)
  {
    NoRows(db.reservations);
    assert Converting(t, ev, oid, rid, w, db, locks');
    if !StillActive(db, rid) {
      NothingToConvert(t, ev, oid, rid, w, db, locks');
      AtMark(t, ev, oid, {}, w, db, locks', other);
    } else {
      if Owns(locks', t, ReservationRow(rid)) { ReservationIsWon(t, ev, oid, rid, seen, w, db, locks'); }
      AtSell(t, ev, oid, rid, seen,
        w.(reservations := w.reservations[rid := db.reservations[rid].(status := Converted)]), db, locks', other);
    }
  }

  lemma StockIsSold(t: int, ev: Event, oid: int, rid: int, seen: Reservation, w: Db, db: Db, locks: LockTable)
    requires Selling(t, ev, oid, rid, seen, w, db, locks) && StockInv(db.inventory, db.reservations)
    requires Owns(locks, t, InventoryRow(seen.productId))
    ensures seen.productId in db.inventory && Stock.Sell(db.inventory[seen.productId], seen.quantity).Some?
    ensures Marking(t, ev, oid, w.(inventory := w.inventory[seen.productId :=
      Stock.Sell(db.inventory[seen.productId], seen.quantity).value]), db, locks)
  {
    ReturnAlwaysWorks(seen, rid, db);
  }

  /** The "could not sell" error of convert is unreachable whatever runs beside it. */
  lemma ConvertSellOk(t: int, ev: Event, oid: int, rid: int, seen: Reservation, w: Db, db: Db, locks: LockTable,
                      locks': LockTable, other: LockTable)
    requires Selling(t, ev, oid, rid, seen, w, db, locks) && StockInv(db.inventory, db.reservations)
    requires Keeps(t, locks, locks')
    ensures ConvertSellMove(oid, seen, w, Merge(db, w)).Go?
    ensures ConfirmGood(t, ev, ConvertSellMove(oid, seen, w, Merge(db, w)), db, locks', other)
  {
    NoRows(db.inventory);
    ReturnAlwaysWorks(seen, rid, db);
    assert Selling(t, ev, oid, rid, seen, w, db, locks');
    if Owns(locks', t, InventoryRow(seen.productId)) { StockIsSold(t, ev, oid, rid, seen, w, db, locks'); }
    AtMark(t, ev, oid, {InventoryRow(seen.productId)}, w.(inventory := w.inventory[seen.productId :=
      Stock.Sell(db.inventory[seen.productId], seen.quantity).value]), db, locks', other);
  }

  // ---- marking the order and issuing the coupon ----

  lemma OrderIsMarked(t: int, ev: Event, oid: int, w: Db, db: Db, locks: LockTable)
    requires Marking(t, ev, oid, w, db, locks) && Owns(locks, t, OrderRow(oid))
    ensures Rewarding(t, ev, oid, w.(orders := w.orders[oid := PaidOrder(db.orders[oid], ev.draws.paidAt)]), db, locks)
  {}

  lemma MarkPaidOk(t: int, ev: Event, oid: int, w: Db, db: Db, locks: LockTable, locks': LockTable, other: LockTable)
    requires Marking(t, ev, oid, w, db, locks) && Keeps(t, locks, locks')
    ensures ConfirmGood(t, ev, MarkPaidMove(ev, oid, w, Merge(db, w)), db, locks', other)
  {
    NoRows(db.orders);
    assert Marking(t, ev, oid, w, db, locks');
    if Owns(locks', t, OrderRow(oid)) { OrderIsMarked(t, ev, oid, w, db, locks'); }
    AtFindCoupon(t, ev, oid, w.(orders := w.orders[oid := PaidOrder(db.orders[oid], ev.draws.paidAt)]), db, locks',
      other);
  }

  lemma NoCouponDue(t: int, ev: Event, oid: int, w: Db, db: Db, locks: LockTable)
    requires Rewarding(t, ev, oid, w, db, locks) && !EarnsCoupon(db, oid)
    ensures Ticketing(t, ev, oid, [], w, db, locks)
  {}

  lemma FindCouponOk(t: int, ev: Event, oid: int, w: Db, db: Db, locks: LockTable, locks': LockTable, other: LockTable)
    requires Rewarding(t, ev, oid, w, db, locks) && Keeps(t, locks, locks')
    ensures ConfirmGood(t, ev, FindCouponMove(oid, w, Merge(db, w)), db, locks', other)
  {
    NoRows(db.coupons);
    assert Rewarding(t, ev, oid, w, db, locks');
    if HasCoupon(db.coupons, oid) {
      NoCouponDue(t, ev, oid, w, db, locks');
      AtFindTickets(t, ev, oid, {}, w, db, locks', other);
    } else {
      AtReadCode(t, ev, oid, w, db, locks', other);
    }
  }

  lemma ReadCodeOk(t: int, ev: Event, oid: int, w: Db, db: Db, locks: LockTable, locks': LockTable, other: LockTable)
    requires Rewarding(t, ev, oid, w, db, locks) && Keeps(t, locks, locks') && !HasCoupon(db.coupons, oid)
    ensures ConfirmGood(t, ev, ReadCodeMove(oid, w, Merge(db, w)), db, locks', other)
  {
    MergeOne(db.orders, oid, PaidOrder(db.orders[oid], ev.draws.paidAt));
    assert Rewarding(t, ev, oid, w, db, locks');
    var code := db.orders[oid].discountCode;
    if code.None? || code.value == "" {
      NoCouponDue(t, ev, oid, w, db, locks');
      AtFindTickets(t, ev, oid, {}, w, db, locks', other);
    } else {
      AtFindPromotion(t, ev, oid, db.orders[oid].userId, code.value, w, db, locks', other);
    }
  }

  lemma FindPromotionOk(t: int, ev: Event, oid: int, userId: int, code: string, w: Db, db: Db, locks: LockTable,
                        locks': LockTable, other: LockTable)
    requires Rewarding(t, ev, oid, w, db, locks) && Keeps(t, locks, locks') && !HasCoupon(db.coupons, oid)
    requires db.orders[oid].discountCode == Some(code) && code != "" && userId == db.orders[oid].userId
    ensures ConfirmGood(t, ev, FindPromotionMove(oid, userId, code, w, Merge(db, w)), db, locks', other)
  {
    NoRows(db.promotions);
    assert Rewarding(t, ev, oid, w, db, locks');
    if EarnsCoupon(db, oid) {
      AtInsertCoupon(t, ev, oid, userId, code, db.promotions[code].couponValidityHours, w, db, locks', other);
    } else {
      NoCouponDue(t, ev, oid, w, db, locks');
      AtFindTickets(t, ev, oid, {}, w, db, locks', other);
    }
  }

  lemma CouponIsIssued(t: int, ev: Event, oid: int, userId: int, code: string, hours: int, w: Db, db: Db,
                       locks: LockTable)
    requires InsertingCoupon(t, ev, oid, userId, code, hours, w, db, locks)
    requires ev.draws.couponCode !in db.coupons && Owns(locks, t, CouponRow(ev.draws.couponCode))
    ensures Ticketing(t, ev, oid, [], w.(coupons := w.coupons[ev.draws.couponCode :=
      Coupon(oid, userId, code, Redeemable, ev.draws.issuedAt + hours * 3_600_000, None)]), db, locks)
  {}

  /** The coupon insert in terms of committed rows. */
  lemma InsertCouponIs(ev: Event, oid: int, userId: int, code: string, hours: int, w: Db, db: Db)
    requires w.coupons == map[]
    ensures InsertCouponMove(ev, oid, userId, code, hours, w, Merge(db, w)) ==
      if ev.draws.couponCode in db.coupons then Refuse(UniqueViolation)
      else Go(FindTickets(oid), w.(coupons := w.coupons[ev.draws.couponCode :=
        Coupon(oid, userId, code, Redeemable, ev.draws.issuedAt + hours * 3_600_000, None)]),
          {CouponRow(ev.draws.couponCode)})
  {
    NoRows(db.coupons);
  }

  lemma InsertCouponOk(t: int, ev: Event, oid: int, userId: int, code: string, hours: int, w: Db, db: Db,
                       locks: LockTable, locks': LockTable, other: LockTable)
    requires InsertingCoupon(t, ev, oid, userId, code, hours, w, db, locks) && Keeps(t, locks, locks')
    ensures ConfirmGood(t, ev, InsertCouponMove(ev, oid, userId, code, hours, w, Merge(db, w)), db, locks', other)
  {
    InsertCouponIs(ev, oid, userId, code, hours, w, db);
    if ev.draws.couponCode in db.coupons {
      AtRefusal(t, ev, UniqueViolation, db, locks', other);
    } else {
      var w' := w.(coupons := w.coupons[ev.draws.couponCode :=
        Coupon(oid, userId, code, Redeemable, ev.draws.issuedAt + hours * 3_600_000, None)]);
      if Owns(locks', t, CouponRow(ev.draws.couponCode)) {
        assert InsertingCoupon(t, ev, oid, userId, code, hours, w, db, locks');
        CouponIsIssued(t, ev, oid, userId, code, hours, w, db, locks');
      }
      AtFindTickets(t, ev, oid, {CouponRow(ev.draws.couponCode)}, w', db, locks', other);
    }
  }

  // ---- issuing the tickets ----

  /** With coupon and tickets settled the notification is ready to commit. */
  lemma SuccessReady(t: int, ev: Event, oid: int, w: Db, db: Db, locks: LockTable)
    requires oid in db.orders && Ticketing(t, ev, oid, TicketRows(db, oid, ev.draws), w, db, locks)
    requires FreshCodes(db.tickets, TicketRows(db, oid, ev.draws))
    requires forall l :: l in TicketEntries(TicketRows(db, oid, ev.draws)) ==> Owns(locks, t, l)
    ensures Ready(t, TConfirm(ev), w, db, locks)
  {}

  lemma FindTicketsOk(t: int, ev: Event, oid: int, w: Db, db: Db, locks: LockTable, locks': LockTable, other: LockTable)
    requires Ticketing(t, ev, oid, [], w, db, locks) && Keeps(t, locks, locks')
    ensures ConfirmGood(t, ev, FindTicketsMove(ev, oid, w, Merge(db, w)), db, locks', other)
  {
    assert db.tickets + [] == db.tickets;
    assert Ticketing(t, ev, oid, [], w, db, locks');
    if TicketsOf(db.tickets, oid) != [] {
      SuccessReady(t, ev, oid, w, db, locks');
      AtCommit(t, ev, w, db, locks', other);
    } else {
      AtReadItems(t, ev, oid, w, db, locks', other);
    }
  }

  lemma ReadItemsOk(t: int, ev: Event, oid: int, w: Db, db: Db, locks: LockTable, locks': LockTable, other: LockTable)
    requires Ticketing(t, ev, oid, [], w, db, locks) && Keeps(t, locks, locks') && TicketsOf(db.tickets, oid) == []
    ensures ConfirmGood(t, ev, ReadItemsMove(oid, w, Merge(db, w)), db, locks', other)
  {
    MergeOne(db.orders, oid, PaidOrder(db.orders[oid], ev.draws.paidAt));
    assert Generated(oid, db.orders[oid].items, ev.draws.ticketCode)[..0] == [];
    assert Ticketing(t, ev, oid, [], w, db, locks') && TicketsIn(t, ev, oid, 0, db, locks');
    AtInsertTicket(t, ev, oid, db.orders[oid].items, 0, {}, w, db, locks', other);
  }

  /** Inserting the next ticket keeps the codes fresh. */
  lemma OneMoreTicket(t: int, ev: Event, oid: int, i: nat, db: Db, locks: LockTable)
    requires TicketsIn(t, ev, oid, i, db, locks) && i < TotalQuantity(db.orders[oid].items)
    requires var all := Generated(oid, db.orders[oid].items, ev.draws.ticketCode);
      !CodeUsed(db.tickets + all[..i], ev.draws.ticketCode(i))
    requires Owns(locks, t, TicketEntry(ev.draws.ticketCode(i)))
    ensures TicketsIn(t, ev, oid, i + 1, db, locks)
    ensures var all := Generated(oid, db.orders[oid].items, ev.draws.ticketCode);
      all[..i + 1] == all[..i] + [TicketAt(oid, db.orders[oid].items, ev.draws.ticketCode, i)]
  {
    var all := Generated(oid, db.orders[oid].items, ev.draws.ticketCode);
    var added := all[..i + 1];
    forall j | 0 <= j < |added| ensures !CodeUsed(db.tickets + added[..j], added[j].code) {
      assert added[..j] == all[..j];
      if j < i { assert all[..i][..j] == all[..j] && all[..i][j] == added[j]; }
    }
  }

  lemma AllTicketsIn(t: int, ev: Event, oid: int, db: Db, locks: LockTable)
    requires oid in db.orders && TicketsIn(t, ev, oid, TotalQuantity(db.orders[oid].items), db, locks)
    ensures FreshCodes(db.tickets, TicketRows(db, oid, ev.draws))
    ensures forall l :: l in TicketEntries(TicketRows(db, oid, ev.draws)) ==> Owns(locks, t, l)
    ensures var all := Generated(oid, db.orders[oid].items, ev.draws.ticketCode);
      TicketRows(db, oid, ev.draws) == all[..TotalQuantity(db.orders[oid].items)]
  {
    var all := Generated(oid, db.orders[oid].items, ev.draws.ticketCode);
    assert all[..|all|] == all;
  }

  lemma TicketIsInserted(t: int, ev: Event, oid: int, i: nat, w: Db, db: Db, locks: LockTable)
    requires oid in db.orders && TicketsIn(t, ev, oid, i, db, locks) && i < TotalQuantity(db.orders[oid].items)
    requires var all := Generated(oid, db.orders[oid].items, ev.draws.ticketCode);
      Ticketing(t, ev, oid, all[..i], w, db, locks) && !CodeUsed(db.tickets + all[..i], ev.draws.ticketCode(i))
    requires Owns(locks, t, TicketEntry(ev.draws.ticketCode(i)))
    ensures var all := Generated(oid, db.orders[oid].items, ev.draws.ticketCode);
      TicketsIn(t, ev, oid, i + 1, db, locks)
      && Ticketing(t, ev, oid, all[..i + 1],
           w.(tickets := w.tickets + [TicketAt(oid, db.orders[oid].items, ev.draws.ticketCode, i)]), db, locks)
  {
    OneMoreTicket(t, ev, oid, i, db, locks);
  }

  lemma InsertTicketOk(t: int, ev: Event, oid: int, i: nat, w: Db, db: Db, locks: LockTable, locks': LockTable,
                       other: LockTable)
    requires oid in db.orders && TicketsIn(t, ev, oid, i, db, locks) && Keeps(t, locks, locks')
    requires Ticketing(t, ev, oid, Generated(oid, db.orders[oid].items, ev.draws.ticketCode)[..i], w, db, locks)
    ensures ConfirmGood(t, ev, InsertTicketMove(ev, oid, db.orders[oid].items, i, w, Merge(db, w)), db, locks', other)
  {
    var all := Generated(oid, db.orders[oid].items, ev.draws.ticketCode);
    assert Ticketing(t, ev, oid, all[..i], w, db, locks') && TicketsIn(t, ev, oid, i, db, locks');
    if i >= TotalQuantity(db.orders[oid].items) {
      LastTicketOk(t, ev, oid, w, db, locks', other);
    } else if CodeUsed(db.tickets + all[..i], ev.draws.ticketCode(i)) {
      AtRefusal(t, ev, UniqueViolation, db, locks', other);
    } else {
      NextTicketOk(t, ev, oid, i, w, db, locks', other);
    }
  }

  lemma LastTicketOk(t: int, ev: Event, oid: int, w: Db, db: Db, locks': LockTable, other: LockTable)
    requires oid in db.orders && TicketsIn(t, ev, oid, TotalQuantity(db.orders[oid].items), db, locks')
    requires var items := db.orders[oid].items;
      Ticketing(t, ev, oid, Generated(oid, items, ev.draws.ticketCode)[..TotalQuantity(items)], w, db, locks')
    ensures ConfirmGood(t, ev, Go(Committing(TConfirm(ev), Done(Confirmed(true))), w, {}), db, locks', other)
  {
    AllTicketsIn(t, ev, oid, db, locks');
    SuccessReady(t, ev, oid, w, db, locks');
    AtCommit(t, ev, w, db, locks', other);
  }

  lemma NextTicketOk(t: int, ev: Event, oid: int, i: nat, w: Db, db: Db, locks': LockTable, other: LockTable)
    requires oid in db.orders && TicketsIn(t, ev, oid, i, db, locks') && i < TotalQuantity(db.orders[oid].items)
    requires var all := Generated(oid, db.orders[oid].items, ev.draws.ticketCode);
      Ticketing(t, ev, oid, all[..i], w, db, locks') && !CodeUsed(db.tickets + all[..i], ev.draws.ticketCode(i))
    ensures var items := db.orders[oid].items;
      ConfirmGood(t, ev, Go(InsertTicket(oid, items, i + 1),
        w.(tickets := w.tickets + [TicketAt(oid, items, ev.draws.ticketCode, i)]),
        {TicketEntry(ev.draws.ticketCode(i))}), db, locks', other)
  {
    if Owns(locks', t, TicketEntry(ev.draws.ticketCode(i))) { TicketIsInserted(t, ev, oid, i, w, db, locks'); }
    AtInsertTicket(t, ev, oid, db.orders[oid].items, i + 1, {TicketEntry(ev.draws.ticketCode(i))},
      w.(tickets := w.tickets + [TicketAt(oid, db.orders[oid].items, ev.draws.ticketCode, i)]), db, locks', other);
  }

  // ---- all statements ----

  lemma EarlyMoveOk(t: int, ev: Event, pc: Pc, w: Db, db: Db, locks: LockTable, locks': LockTable, other: LockTable)
    requires StockInv(db.inventory, db.reservations) && OrderInv(db.orders, db.reservations)
    requires ConfirmState(t, ev, pc, w, db, locks) && Keeps(t, locks, locks') && BeforeOrder(pc)
    ensures ConfirmGood(t, ev, ConfirmMove(ev, pc, w, db), db, locks', other)
  {
    match pc
    case ReadPaidOrder(oid) => ReadPaidOrderOk(t, ev, oid, w, db, locks, locks', other);
    case ReadReserved(oid, rid) => ReadReservedOk(t, ev, oid, rid, w, db, locks, locks', other);
    case ConvertRead(oid, rid) => ReadReservedOk(t, ev, oid, rid, w, db, locks, locks', other);
    case ConvertClaim(oid, rid, seen) => ConvertClaimOk(t, ev, oid, rid, seen, w, db, locks, locks', other);
    case ConvertSell(oid, rid, seen) => ConvertSellOk(t, ev, oid, rid, seen, w, db, locks, locks', other);
  }

  lemma RewardMoveOk(t: int, ev: Event, pc: Pc, w: Db, db: Db, locks: LockTable, locks': LockTable, other: LockTable)
    requires ConfirmState(t, ev, pc, w, db, locks) && Keeps(t, locks, locks') && BeforeTickets(pc)
    ensures ConfirmGood(t, ev, ConfirmMove(ev, pc, w, db), db, locks', other)
  {
    match pc
    case FindCoupon(oid) => FindCouponOk(t, ev, oid, w, db, locks, locks', other);
    case ReadCode(oid) => ReadCodeOk(t, ev, oid, w, db, locks, locks', other);
    case FindPromotion(oid, u, code) => FindPromotionOk(t, ev, oid, u, code, w, db, locks, locks', other);
    case InsertCoupon(oid, u, code, hours) => InsertCouponOk(t, ev, oid, u, code, hours, w, db, locks, locks', other);
  }

  lemma TicketMoveOk(t: int, ev: Event, pc: Pc, w: Db, db: Db, locks: LockTable, locks': LockTable, other: LockTable)
    requires ConfirmState(t, ev, pc, w, db, locks) && Keeps(t, locks, locks')
    requires (pc.FindTickets? || pc.ReadItems? || pc.InsertTicket?)
    ensures ConfirmGood(t, ev, ConfirmMove(ev, pc, w, db), db, locks', other)
  {
    match pc
    case FindTickets(oid) => FindTicketsOk(t, ev, oid, w, db, locks, locks', other);
    case ReadItems(oid) => ReadItemsOk(t, ev, oid, w, db, locks, locks', other);
    case InsertTicket(oid, items, i) => InsertTicketOk(t, ev, oid, i, w, db, locks, locks', other);
  }

  lemma StartMoveOk(t: int, ev: Event, pc: Pc, w: Db, db: Db, locks: LockTable, locks': LockTable, other: LockTable)
    requires ConfirmState(t, ev, pc, w, db, locks) && Keeps(t, locks, locks') && pc.Start?
    ensures ConfirmGood(t, ev, ConfirmMove(ev, pc, w, db), db, locks', other)
  {
    MergeWithNothing(db);
    assert Merge(db, w) == db;
  }

  lemma ConfirmMoveOk(t: int, ev: Event, pc: Pc, w: Db, db: Db, locks: LockTable, locks': LockTable, other: LockTable)
    requires Inv(db)
    requires ConfirmState(t, ev, pc, w, db, locks) && Keeps(t, locks, locks') && !pc.Committing?
    ensures ConfirmGood(t, ev, ConfirmMove(ev, pc, w, db), db, locks', other)
  {
    if BeforeOrder(pc) {
      EarlyMoveOk(t, ev, pc, w, db, locks, locks', other);
    } else if BeforeTickets(pc) {
      RewardMoveOk(t, ev, pc, w, db, locks, locks', other);
    } else if pc.FindTickets? || pc.ReadItems? || pc.InsertTicket? {
      TicketMoveOk(t, ev, pc, w, db, locks, locks', other);
    } else if pc.MarkPaid? {
      MarkPaidOk(t, ev, pc.oid, w, db, locks, locks', other);
    } else if pc.ClaimPayment? {
      ClaimPaymentOk(t, ev, db, locks', other);
    } else if pc.Start? {
      StartMoveOk(t, ev, pc, w, db, locks, locks', other);
    }
  }
}
