/**
 * When each call gives which answer and what it then writes, told by the rows alone. On a valid database every
 * answer has one exact reason, and the errors for what cannot happen are never given.
 */
module Replies {
  import opened Common
  import opened Schema
  import opened TicketCodes
  import opened Discount
  import opened Services
  import opened Invariants
  import opened StockKept
  import opened Settlement
  import opened Progress
  import opened Ledger

  // ---- reservations ----

  /** The units go from available to reserved together with the new row, or nothing happens. */
  lemma CreationAnswers(db: Db, userId: int, productId: int, quantity: int, expiresAt: int, rid: int)
    ensures var out := CreateReservation(db, userId, productId, quantity, expiresAt, rid);
      var fits := productId in db.inventory && quantity <= db.inventory[productId].availableStock;
      && (out.reply == Refused(NotFound) <==> productId !in db.inventory)
      && (out.reply == Refused(Conflict) <==> productId in db.inventory && !fits)
      && (out.reply == Refused(CheckViolation) <==> fits && quantity < 1)
      && (out.reply == Refused(UniqueViolation) <==> fits && quantity >= 1 && rid in db.reservations)
      && (out.reply == Reserved(rid) <==> fits && quantity >= 1 && rid !in db.reservations)
      && (out.reply.Reserved? ==>
            var i := db.inventory[productId];
            var i' := Inventory(i.initialStock, i.reservedStock + quantity, i.soldStock, i.availableStock - quantity,
              i.version + 1);
            out.db == db.(inventory := db.inventory[productId := i'], reservations := db.reservations[
              rid := Reservation(userId, productId, quantity, Active, expiresAt, None)]))
  {}

  /** An ACTIVE reservation can always be ended: its units go back, or are sold. Any other stays as it is. */
  lemma EndingAnswers(db: Db, rid: int, now: int)
    requires StockInv(db.inventory, db.reservations)
    ensures rid !in db.reservations ==>
      && CancelReservation(db, rid, now) == Outcome(db, Refused(NotFound))
      && ConvertReservation(db, rid) == Outcome(db, Refused(NotFound))
      && ExpireReservation(db, rid, now) == Outcome(db, Flag(false))
    ensures rid in db.reservations && !db.reservations[rid].status.Active? ==>
      && CancelReservation(db, rid, now) == Outcome(db, Flag(false)) == ExpireReservation(db, rid, now)
      && ConvertReservation(db, rid) == Outcome(db, Flag(db.reservations[rid].status.Converted?))
    ensures rid in db.reservations && db.reservations[rid].status.Active? ==>
      && var r := db.reservations[rid];
      && r.productId in db.inventory
      && var i := db.inventory[r.productId];
      && var back := i.(reservedStock := i.reservedStock - r.quantity, availableStock := i.availableStock + r.quantity,
          version := i.version + 1);
      && var sold := i.(reservedStock := i.reservedStock - r.quantity, soldStock := i.soldStock + r.quantity,
          version := i.version + 1);
      && CancelReservation(db, rid, now) == Outcome(db.(inventory := db.inventory[r.productId := back],
          reservations := db.reservations[rid := r.(status := Cancelled, releasedAt := Some(now))]), Flag(true))
      && ExpireReservation(db, rid, now) == Outcome(db.(inventory := db.inventory[r.productId := back],
          reservations := db.reservations[rid := r.(status := Expired, releasedAt := Some(now))]), Flag(true))
      && ConvertReservation(db, rid) == Outcome(db.(inventory := db.inventory[r.productId := sold],
          reservations := db.reservations[rid := r.(status := Converted)]), Flag(true))
  {
    if rid in db.reservations && db.reservations[rid].status.Active? {
      ActiveIsReserved(db.inventory, db.reservations, rid);
    }
  }

  /** Without the units to move, cancel and convert are undone; an expiry stands and moves nothing. */
  lemma EndingWithoutStock(db: Db, rid: int, now: int)
    requires rid in db.reservations && db.reservations[rid].status.Active?
    requires var r := db.reservations[rid];
      r.productId in db.inventory ==> db.inventory[r.productId].reservedStock < r.quantity
    ensures CancelReservation(db, rid, now) == ConvertReservation(db, rid) == Outcome(db, Refused(Fault))
    ensures ExpireReservation(db, rid, now) == Outcome(db.(reservations := db.reservations[
      rid := db.reservations[rid].(status := Expired, releasedAt := Some(now))]), Flag(true))
  {}

  // ---- checkout ----

  /** A bound key is answered with its order, whoever asks for whatever reservation, and nothing is written. */
  lemma BoundKeyIsAnswered(db: Db, userId: int, rid: int, key: string, oid: int)
    requires key in db.keys
    ensures Checkout(db, userId, rid, key, oid) == Outcome(db, Ordered(db.keys[key]))
  {}

  /** Some order was made of the reservation. */
  ghost predicate Consumed(orders: map<int, Order>, rid: int) {
    exists o :: o in orders && orders[o].reservationId == rid
  }

  lemma NewKeyIsFree(db: Db, key: string)
    requires KeyInv(db.keys, db.orders) && key !in db.keys
    ensures !OrderKeyTaken(db.orders, key)
  {}

  /** With a new key: one order of the ACTIVE, unconsumed reservation of the caller, at its product's price per unit. */
  lemma CheckoutAnswers(db: Db, userId: int, rid: int, key: string, oid: int)
    requires StockInv(db.inventory, db.reservations) && KeyInv(db.keys, db.orders) && key !in db.keys
    ensures var out := Checkout(db, userId, rid, key, oid);
      && (out.reply == Refused(NotFound) <==> rid !in db.reservations)
      && (out.reply == Ordered(oid) || (out.reply.Refused? && out.db == db))
      && (rid in db.reservations ==>
            var r := db.reservations[rid];
            var open := r.userId == userId && r.status.Active? && !Consumed(db.orders, rid);
            var priced := open && r.productId in db.prices;
            && (out.reply == Refused(Forbidden) <==> r.userId != userId)
            && (out.reply == Refused(Conflict) <==> r.userId == userId && !open)
            && (out.reply == Refused(Fault) <==> open && !priced)
            && (out.reply == Refused(CheckViolation) <==> priced && db.prices[r.productId] <= 0)
            && (out.reply == Refused(UniqueViolation) <==>
                  priced && db.prices[r.productId] > 0 && oid in db.orders)
            && (out.reply == Ordered(oid) ==>
                  var price := db.prices[r.productId];
                  var line := Item(r.productId, r.quantity, price, r.quantity * price);
                  out.db == db.(keys := db.keys[key := oid], orders := db.orders[oid := Order(userId, key, rid,
                    PaymentPending, r.quantity * price, 0, None, r.quantity * price, [line], None)])))
  {
    NewKeyIsFree(db, key);
    assert Consumed(db.orders, rid) <==> HasOrderFor(db.orders, rid);
  }

  // ---- discount codes ----

  /** `d` is what the promotion gives on an order of `quantity` tickets that costs `subtotal`. */
  predicate Gives(p: Promotion, subtotal: int, quantity: int, d: int) {
    match p.discountType
    case Percent =>
      if p.discountValue >= 100 then d == subtotal else 100 * d <= subtotal * p.discountValue < 100 * d + 100
    case FixedAmount =>
      if p.discountValue * quantity <= subtotal then d == p.discountValue * quantity else d == subtotal
  }

  /** What a code gives on an order of the shop, and that only a negative promotion would make it dearer. */
  lemma DiscountOf(p: Promotion, o: Order, reservations: map<int, Reservation>)
    requires OrderOk(o, reservations) && reservations[o.reservationId].quantity > 0
    ensures var d := ComputeDiscount(p, o.subtotalCents, o.items);
      Gives(p, o.subtotalCents, reservations[o.reservationId].quantity, d) && (d < 0 <==> p.discountValue < 0)
    ensures o.subtotalCents > 0
  {
    var item := o.items[0];
    assert LineTotals(o.items[1..]) == 0 && TotalQuantity(o.items[1..]) == 0;
    assert o.subtotalCents == item.quantity * item.unitPriceCents;
    Positive(item.quantity, item.unitPriceCents);
    if p.discountType.Percent? {
      PercentIsFloor(p, o.subtotalCents, o.items);
      Signs(o.subtotalCents, p.discountValue);
    } else {
      FixedIsPerTicket(p, o.subtotalCents, o.items);
      Signs(item.quantity, p.discountValue);
    }
  }

  lemma Positive(x: int, y: int)
    requires x > 0 && y > 0
    ensures x * y > 0
  {}

  lemma Signs(x: int, y: int)
    requires x > 0
    ensures x * y < 0 <==> y < 0
  {
    if y > 0 { Positive(x, y); }
    if y < 0 { Positive(x, -y); assert x * -y == -(x * y); }
  }

  /** When a code is refused before anything is claimed, and when it is answered as granted before. */
  lemma CodeAnswers(db: Db, userId: int, oid: int, code: string, now: int)
    requires Inv(db)
    ensures var out := ApplyCode(db, userId, oid, code, now);
      var usable := code in db.promotions && db.promotions[code].active
        && db.promotions[code].startsAt <= now <= db.promotions[code].endsAt;
      var found := usable && oid in db.orders;
      var own := found && db.orders[oid].userId == userId;
      var granted := own && db.orders[oid].status.PaymentPending? && db.orders[oid].discountCents > 0;
      var claimable := own && db.orders[oid].status.PaymentPending? && db.orders[oid].discountCents == 0
        && (db.promotions[code].maxRedemptions.Some? ==>
              db.promotions[code].usedRedemptions < db.promotions[code].maxRedemptions.value);
      && (out.reply == Refused(NotFound) <==> code !in db.promotions || (usable && oid !in db.orders))
      && (out.reply == Refused(Forbidden) <==> found && !own)
      && (out.reply.Discounted? && out.reply.replay <==> granted && db.orders[oid].discountCode == Some(code))
      && (out.reply.Discounted? && out.reply.replay ==>
            out == Outcome(db, Discounted(true, db.orders[oid].discountCents, db.orders[oid].totalCents)))
      && (out.reply == Refused(CheckViolation) <==> claimable && db.promotions[code].discountValue < 0)
      && (out.reply.Discounted? && !out.reply.replay <==> claimable && db.promotions[code].discountValue >= 0)
      && (out.reply.Discounted? || (out.reply.Refused? && out.db == db))
  {
    if code in db.promotions && oid in db.orders {
      assert OrderOk(db.orders[oid], db.reservations);
      DiscountOf(db.promotions[code], db.orders[oid], db.reservations);
      DiscountBelow(db.promotions[code], db.orders[oid].subtotalCents, db.orders[oid].items);
    }
  }

  lemma DiscountBelow(p: Promotion, subtotalCents: int, items: seq<Item>)
    ensures subtotalCents - ComputeDiscount(p, subtotalCents, items) >= 0
  {}

  /**
   * The code is used once more, and what its promotion gives, per ticket or as a share, is taken off the order, whose
   * total is now `total`.
   */
  ghost predicate Granted(db: Db, oid: int, code: string, d: int, total: int, db': Db) {
    && code in db.promotions && oid in db.orders && db.orders[oid].reservationId in db.reservations
    && var p, o := db.promotions[code], db.orders[oid];
    && 0 <= d <= o.subtotalCents && Gives(p, o.subtotalCents, db.reservations[o.reservationId].quantity, d)
    && total == o.subtotalCents - d
    && db' == db.(
        promotions := db.promotions[code := p.(usedRedemptions := p.usedRedemptions + 1)],
        orders := db.orders[oid := o.(discountCents := d, discountCode := Some(code), totalCents := total)])
  }

  /** A grant writes exactly that. */
  lemma GrantIsExact(db: Db, userId: int, oid: int, code: string, now: int)
    requires Inv(db)
    requires ApplyCode(db, userId, oid, code, now).reply.Discounted?
    requires !ApplyCode(db, userId, oid, code, now).reply.replay
    ensures var out := ApplyCode(db, userId, oid, code, now);
      Granted(db, oid, code, out.reply.discountCents, out.reply.totalCents, out.db)
  {
    assert OrderOk(db.orders[oid], db.reservations);
    DiscountOf(db.promotions[code], db.orders[oid], db.reservations);
  }

  // ---- payments ----

  /** Some payment of the order waits for its notification. */
  ghost predicate Waiting(payments: map<PaymentRef, Payment>, oid: int) {
    exists q :: q in payments && payments[q].orderId == oid && payments[q].status == Pending
  }

  /** An order is charged its total, unless a payment of it waits already. */
  lemma PaymentAnswers(db: Db, oid: int, provider: string, charge: Option<string>)
    ensures var out := CreatePayment(db, oid, provider, charge);
      var open := oid in db.orders && db.orders[oid].status.PaymentPending?;
      && (out.reply == Refused(NotFound) <==> oid !in db.orders)
      && (out.reply == Refused(Conflict) <==> oid in db.orders && db.orders[oid].status.OrderPaid?)
      && (out.reply == Refused(Fault) <==> open && charge.None?)
      && (out.reply == PendingReused <==> open && charge.Some? && Waiting(db.payments, oid))
      && (open && charge.Some? && !Waiting(db.payments, oid) ==>
            var ref := PaymentRef(provider, charge.value);
            out == if ref in db.payments then Outcome(db, Refused(UniqueViolation)) else Outcome(
              db.(payments := db.payments[ref := Payment(oid, Pending, db.orders[oid].totalCents, None)]), Paying(ref)))
      && (out.reply.Paying? || out.db == db)
  {
    assert Waiting(db.payments, oid) <==> HasPending(db.payments, oid);
  }

  // ---- notifications ----

  /** The event is noted on another payment of the provider. */
  ghost predicate Elsewhere(payments: map<PaymentRef, Payment>, ref: PaymentRef, eventId: string) {
    exists q :: q in payments && q != ref && q.provider == ref.provider && payments[q].rawEventId == Some(eventId)
  }

  /** One of the `n` codes drawn is on a ticket already, or was drawn before. */
  ghost predicate CodesCollide(tickets: seq<Ticket>, codes: nat -> string, n: int) {
    || (exists i: nat, j :: i < n && 0 <= j < |tickets| && tickets[j].code == codes(i))
    || (exists i: nat, j: nat :: i < j < n && codes(i) == codes(j))
  }

  lemma StaleIsCollision(tickets: seq<Ticket>, oid: int, items: seq<Item>, codes: nat -> string)
    requires !FreshCodes(tickets, Generated(oid, items, codes))
    ensures CodesCollide(tickets, codes, TotalQuantity(items))
  {
    var added := Generated(oid, items, codes);
    var k :| 0 <= k < |added| && CodeUsed(tickets + added[..k], added[k].code);
    var j :| 0 <= j < |tickets + added[..k]| && (tickets + added[..k])[j].code == codes(k);
    if j >= |tickets| { assert codes(j - |tickets|) == codes(k); }
  }

  lemma CollisionIsStale(tickets: seq<Ticket>, oid: int, items: seq<Item>, codes: nat -> string)
    requires CodesCollide(tickets, codes, TotalQuantity(items))
    ensures !FreshCodes(tickets, Generated(oid, items, codes))
  {
    var added := Generated(oid, items, codes);
    if i: nat, j :| i < |added| && 0 <= j < |tickets| && tickets[j].code == codes(i) {
      assert (tickets + added[..i])[j].code == added[i].code;
      assert CodeUsed(tickets + added[..i], added[i].code);
    } else {
      var i: nat, j: nat :| i < j < |added| && codes(i) == codes(j);
      assert (tickets + added[..j])[|tickets| + i].code == added[j].code;
      assert CodeUsed(tickets + added[..j], added[j].code);
    }
  }

  /** The order used a code whose promotion rewards it; an empty code is no code. */
  predicate Rewarded(o: Order, promotions: map<string, Promotion>) {
    && o.discountCode.Some? && o.discountCode.value != ""
    && o.discountCode.value in promotions && promotions[o.discountCode.value].issuesCouponOnPaid
  }

  /** A success that is the first for its order issues, and needs codes nobody has. */
  ghost predicate Collides(db: Db, oid: int, d: Draws)
    requires oid in db.orders && db.orders[oid].reservationId in db.reservations
  {
    && db.orders[oid].status.PaymentPending?
    && ((Rewarded(db.orders[oid], db.promotions) && d.couponCode in db.coupons)
        || CodesCollide(db.tickets, d.ticketCode, db.reservations[db.orders[oid].reservationId].quantity))
  }

  /** An order of the shop has tickets exactly when it is PAID, and a coupon exactly when it then is rewarded. */
  lemma IssuedWhenPaid(db: Db, oid: int)
    requires Inv(db) && oid in db.orders
    ensures db.orders[oid].reservationId in db.reservations
    ensures TotalQuantity(db.orders[oid].items) == db.reservations[db.orders[oid].reservationId].quantity > 0
    ensures TicketsOf(db.tickets, oid) == [] <==> db.orders[oid].status.PaymentPending?
    ensures EarnsCoupon(db, oid) <==> db.orders[oid].status.PaymentPending? && Rewarded(db.orders[oid], db.promotions)
  {
    assert OrderOk(db.orders[oid], db.reservations);
    assert TotalQuantity(db.orders[oid].items[1..]) == 0;
  }

  /** The codes are free exactly when a success does not collide. */
  lemma FreeIffNoCollision(db: Db, oid: int, d: Draws)
    requires Inv(db) && oid in db.orders
    ensures db.orders[oid].reservationId in db.reservations
    ensures Collides(db, oid, d) <==>
      (EarnsCoupon(db, oid) && d.couponCode in db.coupons) || !FreshCodes(db.tickets, TicketRows(db, oid, d))
  {
    var items := db.orders[oid].items;
    IssuedWhenPaid(db, oid);
    if CodesCollide(db.tickets, d.ticketCode, TotalQuantity(items)) {
      CollisionIsStale(db.tickets, oid, items, d.ticketCode);
    } else if !FreshCodes(db.tickets, Generated(oid, items, d.ticketCode)) {
      StaleIsCollision(db.tickets, oid, items, d.ticketCode);
    }
  }

  /** The reason of each answer to a notification for a payment known. */
  ghost predicate AnsweredFor(db: Db, ev: Event, reply: Reply)
    requires ev.ref in db.payments && db.payments[ev.ref].orderId in db.orders
    requires db.orders[db.payments[ev.ref].orderId].reservationId in db.reservations
  {
    var p := db.payments[ev.ref];
    var open := p.status == Pending || p.status == Failed;
    var differs := ev.success && ev.amountCents.Some? && ev.amountCents.value != p.amountCents;
    var blocked := Elsewhere(db.payments, ev.ref, ev.eventId) || (ev.success && Collides(db, p.orderId, ev.draws));
    && (reply == Confirmed(false) <==> !open)
    && (reply == Refused(Conflict) <==> open && differs)
    && (reply == Refused(UniqueViolation) <==> open && !differs && blocked)
    && (reply == Confirmed(true) <==> open && !differs && !blocked)
  }

  /** The exact reason of each answer to a notification; there is no other answer. */
  lemma NotificationAnswers(db: Db, ev: Event)
    requires Inv(db)
    ensures var reply := ConfirmPayment(db, ev).reply;
      && (reply == Refused(NotFound) <==> ev.ref !in db.payments)
      && (ev.ref in db.payments ==>
            var oid := db.payments[ev.ref].orderId;
            oid in db.orders && db.orders[oid].reservationId in db.reservations && AnsweredFor(db, ev, reply))
  {
    if ev.ref in db.payments {
      assert PaymentOk(db.payments[ev.ref], db.orders);
      FreeIffNoCollision(db, db.payments[ev.ref].orderId, ev.draws);
      KnownPaymentAnswers(db, ev, db.payments[ev.ref].orderId);
    }
  }

  lemma KnownPaymentAnswers(db: Db, ev: Event, oid: int)
    requires StockInv(db.inventory, db.reservations)
    requires ev.ref in db.payments && db.payments[ev.ref].orderId == oid && oid in db.orders
    requires db.orders[oid].reservationId in db.reservations
    requires Collides(db, oid, ev.draws) <==>
      (EarnsCoupon(db, oid) && ev.draws.couponCode in db.coupons)
        || !FreshCodes(db.tickets, TicketRows(db, oid, ev.draws))
    ensures AnsweredFor(db, ev, ConfirmPayment(db, ev).reply)
  {
    ElsewhereIsTaken(db.payments, ev.ref, ev.eventId);
    if Claims(db, ev) { ClaimedAnswers(db, ev); }
  }

  lemma ElsewhereIsTaken(payments: map<PaymentRef, Payment>, ref: PaymentRef, eventId: string)
    ensures Elsewhere(payments, ref, eventId) <==> EventTaken(payments, ref, eventId)
  {}

  /** Once its payment row is claimed a notification is confirmed, unless a success meets a code already taken. */
  lemma ClaimedAnswers(db: Db, ev: Event)
    requires StockInv(db.inventory, db.reservations) && Claims(db, ev)
    ensures var oid := db.payments[ev.ref].orderId;
      ConfirmPayment(db, ev).reply ==
        if ev.success && ((EarnsCoupon(db, oid) && ev.draws.couponCode in db.coupons)
          || !FreshCodes(db.tickets, TicketRows(db, oid, ev.draws))) then Refused(UniqueViolation) else Confirmed(true)
  {
    if ev.success { SuccessIsRows(db, ev); } else { FailureIsRows(db, ev); }
  }

  /** The payment is open, the amount absent or right, the event new, and what the success issues has new codes. */
  ghost predicate Acceptable(db: Db, ev: Event) {
    && ev.ref in db.payments
    && var p := db.payments[ev.ref];
    && (p.status == Pending || p.status == Failed)
    && (ev.success && ev.amountCents.Some? ==> ev.amountCents.value == p.amountCents)
    && !Elsewhere(db.payments, ev.ref, ev.eventId)
    && p.orderId in db.orders && db.orders[p.orderId].reservationId in db.reservations
    && !(ev.success && Collides(db, p.orderId, ev.draws))
  }

  /** Then, and only then, a notification is confirmed, and a success leaves its order PAID. */
  lemma AcceptedIsAcceptable(db: Db, ev: Event)
    requires Inv(db)
    ensures ConfirmPayment(db, ev).reply == Confirmed(true) <==> Acceptable(db, ev)
    ensures Acceptable(db, ev) && ev.success ==>
      var oid, orders' := db.payments[ev.ref].orderId, ConfirmPayment(db, ev).db.orders;
      oid in orders' && orders'[oid].status == OrderPaid
  {
    NotificationAnswers(db, ev);
    if ConfirmPayment(db, ev).reply == Confirmed(true) {
      ConfirmIsRows(db, ev);
      AcceptedTables(db, ev);
    }
  }

  /** The tickets of an order of `quantity` units: one per unit, the first for the buyer. */
  function TicketsFor(oid: int, productId: int, quantity: nat, codes: nat -> string): seq<Ticket> {
    seq(quantity, i requires 0 <= i => Ticket(oid, Some(productId), codes(i), if i == 0 then Assigned else Available))
  }

  lemma TicketsShow(oid: int, productId: int, items: seq<Item>, codes: nat -> string)
    requires |items| == 1 && items[0].productId == productId != 0
    ensures Generated(oid, items, codes) == TicketsFor(oid, productId, items[0].quantity, codes)
  {
    assert TotalQuantity(items[1..]) == 0;
    assert Expand(items) == seq(items[0].quantity, _ => productId) + Expand(items[1..]);
  }

  /** The units of an ACTIVE reservation are sold with it; any other sells nothing. */
  lemma ConversionShows(db: Db, rid: int)
    requires StockInv(db.inventory, db.reservations) && rid in db.reservations
    ensures var r := db.reservations[rid];
      && r.productId in db.inventory
      && var i := db.inventory[r.productId];
      && db.reservations + ConvertedRows(db, rid) == (if r.status.Active? then
          db.reservations[rid := r.(status := Converted)] else db.reservations)
      && db.inventory + SoldRows(db, rid) == if r.status.Active? then db.inventory[r.productId := i.(
          reservedStock := i.reservedStock - r.quantity, soldStock := i.soldStock + r.quantity,
            version := i.version + 1)] else db.inventory
  {
    if db.reservations[rid].status.Active? {
      ActiveIsReserved(db.inventory, db.reservations, rid);
    } else {
      assert db.inventory + map[] == db.inventory && db.reservations + map[] == db.reservations;
    }
  }

  /** The coupon a rewarded order gets. */
  function RewardOf(o: Order, oid: int, promotions: map<string, Promotion>, issuedAt: int): Coupon
    requires Rewarded(o, promotions)
  {
    Coupon(oid, o.userId, o.discountCode.value, Redeemable,
      issuedAt + promotions[o.discountCode.value].couponValidityHours * 60 * 60 * 1000, None)
  }

  lemma CouponShows(db: Db, oid: int, d: Draws)
    requires oid in db.orders && (EarnsCoupon(db, oid) <==> Rewarded(db.orders[oid], db.promotions))
    ensures db.coupons + CouponRows(db, oid, d) == if !Rewarded(db.orders[oid], db.promotions) then db.coupons
      else db.coupons[d.couponCode := RewardOf(db.orders[oid], oid, db.promotions, d.issuedAt)]
  {
    if !Rewarded(db.orders[oid], db.promotions) { assert db.coupons + map[] == db.coupons; }
  }

  /** The tables after the first success of an order whose reservation is `r`. */
  ghost predicate PaidFirst(db: Db, ev: Event, oid: int, r: Reservation, db': Db)
    requires ev.ref in db.payments && oid in db.orders && r.productId in db.inventory && r.quantity >= 0
  {
    var d, o, i := ev.draws, db.orders[oid], db.inventory[r.productId];
    && db'.payments == db.payments[ev.ref := Payment(oid, Paid, db.payments[ev.ref].amountCents, Some(ev.eventId))]
    && db'.orders == db.orders[oid := o.(status := OrderPaid, paidAt := Some(d.paidAt))]
    && db'.reservations == (if r.status.Active? then
        db.reservations[o.reservationId := r.(status := Converted)] else db.reservations)
    && db'.inventory == (if r.status.Active? then db.inventory[r.productId := i.(
        reservedStock := i.reservedStock - r.quantity, soldStock := i.soldStock + r.quantity,
          version := i.version + 1)] else db.inventory)
    && db'.coupons == (if Rewarded(o, db.promotions) then
        db.coupons[d.couponCode := RewardOf(o, oid, db.promotions, d.issuedAt)] else db.coupons)
    && db'.tickets == db.tickets + TicketsFor(oid, r.productId, r.quantity, d.ticketCode)
  }

  lemma SuccessTablesShow(db: Db, ev: Event, oid: int, db': Db)
    requires StockInv(db.inventory, db.reservations)
    requires oid in db.orders && OrderOk(db.orders[oid], db.reservations) && TicketsOf(db.tickets, oid) == []
    requires EarnsCoupon(db, oid) <==> Rewarded(db.orders[oid], db.promotions)
    requires ev.ref in db.payments && db.payments[ev.ref].orderId == oid
    requires db'.payments == db.payments[ev.ref := Payment(oid, Paid, db.payments[ev.ref].amountCents,
      Some(ev.eventId))]
    requires db'.orders == db.orders[oid := PaidOrder(db.orders[oid], ev.draws.paidAt)]
    requires db'.reservations == db.reservations + ConvertedRows(db, db.orders[oid].reservationId)
    requires db'.inventory == db.inventory + SoldRows(db, db.orders[oid].reservationId)
    requires db'.coupons == db.coupons + CouponRows(db, oid, ev.draws)
    requires db'.tickets == db.tickets + TicketRows(db, oid, ev.draws)
    ensures var rid := db.orders[oid].reservationId;
      && rid in db.reservations && db.reservations[rid].productId in db.inventory && db.reservations[rid].quantity > 0
      && PaidFirst(db, ev, oid, db.reservations[rid], db')
  {
    var o := db.orders[oid];
    ConversionShows(db, o.reservationId);
    CouponShows(db, oid, ev.draws);
    TicketsShow(oid, o.items[0].productId, o.items, ev.draws.ticketCode);
  }

  /** What the first success of an order writes, table by table: each unit is sold once and gets one ticket. */
  lemma FirstSuccessWrites(db: Db, ev: Event)
    requires Inv(db) && ev.success && ConfirmPayment(db, ev).reply == Confirmed(true)
    requires ev.ref in db.payments && db.payments[ev.ref].orderId in db.orders
    requires db.orders[db.payments[ev.ref].orderId].status.PaymentPending?
    ensures var oid := db.payments[ev.ref].orderId;
      var rid := db.orders[oid].reservationId;
      && rid in db.reservations && db.reservations[rid].productId in db.inventory && db.reservations[rid].quantity > 0
      && PaidFirst(db, ev, oid, db.reservations[rid], ConfirmPayment(db, ev).db)
  {
    ConfirmIsRows(db, ev);
    AcceptedTables(db, ev);
    IssuedWhenPaid(db, db.payments[ev.ref].orderId);
    assert OrderOk(db.orders[db.payments[ev.ref].orderId], db.reservations);
    SuccessTablesShow(db, ev, db.payments[ev.ref].orderId, ConfirmPayment(db, ev).db);
  }

  // ---- reward coupons ----

  /** A coupon is redeemed exactly while it is AVAILABLE and not over; every try that is stored leaves its log row. */
  lemma RedemptionAnswers(db: Db, userId: int, code: string, now: int, stored: bool)
    ensures var out := RedeemCoupon(db, userId, code, now, stored);
      && (out.reply == Refused(NotFound) <==> code !in db.coupons)
      && (out.reply == CouponRedeemed <==>
            code in db.coupons && now <= db.coupons[code].expiresAt && db.coupons[code].status.Redeemable?)
      && (out.reply == CouponRedeemed || out.reply == Refused(NotFound) || out.reply == Refused(Conflict))
      && (code in db.coupons ==>
            var c := db.coupons[code];
            var action := if now > c.expiresAt then ExpiredAction
              else if c.status.Redeemed? then ConflictAction else RedeemedAction;
            && out.db.coupons == (if action == RedeemedAction then
                db.coupons[code := c.(status := Redeemed, redeemedAt := Some(now))] else db.coupons)
            && out.db == db.(coupons := out.db.coupons, redemptions := if stored || action == RedeemedAction then
                db.redemptions + [Redemption(code, userId, action)] else db.redemptions))
  {}

  /** A coupon not redeemed yet can be until its promotion's hours after the payment are over, whatever came between. */
  lemma CouponIsGoodUntil(db: Db, ev: Event, db': Db, userId: int, now: int, stored: bool)
    requires Inv(db) && ev.success && ConfirmPayment(db, ev).reply == Confirmed(true)
    requires ev.ref in db.payments && db.payments[ev.ref].orderId in db.orders
    requires db.orders[db.payments[ev.ref].orderId].status.PaymentPending?
    requires Rewarded(db.orders[db.payments[ev.ref].orderId], db.promotions)
    requires Later(ConfirmPayment(db, ev).db, db')
    ensures var code := db.orders[db.payments[ev.ref].orderId].discountCode.value;
      && ev.draws.couponCode in db'.coupons
      && (RedeemCoupon(db', userId, ev.draws.couponCode, now, stored).reply == CouponRedeemed <==>
            db'.coupons[ev.draws.couponCode].status.Redeemable?
            && now - ev.draws.issuedAt <= db.promotions[code].couponValidityHours * 60 * 60 * 1000)
  {
    FirstSuccessWrites(db, ev);
    assert CouponLater(ConfirmPayment(db, ev).db.coupons[ev.draws.couponCode], db'.coupons[ev.draws.couponCode]);
  }
}
