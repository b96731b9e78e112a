/**
 * The database as mutable tables, and the service calls as methods that change them one statement at a
 * time. Each method is proved against its specification in Services; a failing transaction restores the
 * tables it found.
 */
module ShopStore {
  import opened Common
  import opened Schema
  import opened TicketCodes
  import opened Discount
  import opened Invariants
  import opened Machine
  import opened Calls
  import opened Sums
  import opened StockKept
  import opened Pending
  import opened Sweep
  import opened Replies
  import Stock
  import S = Services

  class Store {
    var inventory: map<int, Inventory>
    var prices: map<int, int>
    var reservations: map<int, Reservation>
    var orders: map<int, Order>
    var keys: map<string, int>
    var payments: map<PaymentRef, Payment>
    var promotions: map<string, Promotion>
    var tickets: seq<Ticket>
    var coupons: map<string, Coupon>
    var redemptions: seq<Redemption>

    function Contents(): Db
      reads this
    {
      Db(inventory, prices, reservations, orders, keys, payments, promotions, tickets, coupons, redemptions)
    }

    ghost predicate Valid()
      reads this
    {
      Inv(Contents())
    }

    /** A shop before its first request. */
    constructor (stock: map<int, int>, prices: map<int, int>, promotions: map<string, Promotion>)
      requires forall p :: p in stock ==> p != 0 && stock[p] >= 0
      requires forall c :: c in promotions ==> promotions[c].usedRedemptions == 0
      ensures Valid()
      ensures inventory.Keys == stock.Keys
      ensures forall p :: p in stock ==> inventory[p] == Inventory(stock[p], 0, 0, stock[p], 0)
      ensures this.prices == prices && this.promotions == promotions
    {
      inventory := map p | p in stock :: Inventory(stock[p], 0, 0, stock[p], 0);
      this.prices := prices;
      reservations, orders, keys, payments := map[], map[], map[], map[];
      this.promotions := promotions;
      tickets, coupons, redemptions := [], map[], [];
      new;
      InitEstablishes(Contents());
    }

    method Restore(db: Db)
      modifies this
      ensures Contents() == db
    {
      inventory, prices, reservations, orders, keys := db.inventory, db.prices, db.reservations, db.orders, db.keys;
      payments, promotions, tickets, coupons, redemptions :=
        db.payments, db.promotions, db.tickets, db.coupons, db.redemptions;
    }

    // ---- backend/src/inventory/inventory.service.ts ----

    /** The UPDATEs answer how many rows they hit; none when the product is unknown or the guard fails. */
    ghost predicate StockWritten(before: map<int, Inventory>, productId: int, row: Option<Inventory>, success: bool)
      reads this`inventory
    {
      && success == row.Some?
      && inventory == if row.Some? then before[productId := row.value] else before
    }

    method Reserve(productId: int, quantity: int) returns (success: bool)
      modifies this`inventory
      ensures StockWritten(old(inventory), productId,
        if productId in old(inventory) then Stock.Reserve(old(inventory)[productId], quantity) else None, success)
      ensures success <==> productId in old(inventory) && quantity <= old(inventory)[productId].availableStock
    {
      if productId !in inventory || inventory[productId].availableStock < quantity { return false; }
      var i := inventory[productId];
      inventory := inventory[productId := i.(
        reservedStock := i.reservedStock + quantity, availableStock := i.availableStock - quantity,
          version := i.version + 1)];
      return true;
    }

    method Release(productId: int, quantity: int) returns (success: bool)
      modifies this`inventory
      ensures StockWritten(old(inventory), productId,
        if productId in old(inventory) then Stock.Release(old(inventory)[productId], quantity) else None, success)
      ensures success <==> productId in old(inventory) && quantity <= old(inventory)[productId].reservedStock
    {
      if productId !in inventory || inventory[productId].reservedStock < quantity { return false; }
      var i := inventory[productId];
      inventory := inventory[productId := i.(
        reservedStock := i.reservedStock - quantity, availableStock := i.availableStock + quantity,
          version := i.version + 1)];
      return true;
    }

    method Sell(productId: int, quantity: int) returns (success: bool)
      modifies this`inventory
      ensures StockWritten(old(inventory), productId,
        if productId in old(inventory) then Stock.Sell(old(inventory)[productId], quantity) else None, success)
      ensures success <==> productId in old(inventory) && quantity <= old(inventory)[productId].reservedStock
    {
      if productId !in inventory || inventory[productId].reservedStock < quantity { return false; }
      var i := inventory[productId];
      inventory := inventory[productId := i.(
        soldStock := i.soldStock + quantity, reservedStock := i.reservedStock - quantity, version := i.version + 1)];
      return true;
    }

    /** How many rows the UPDATE hit; an error when a CHECK constraint refuses the row. */
    method Restock(productId: int, additional: int) returns (affected: Result<bool>)
      modifies this`inventory
      ensures Contents() == S.RestockProduct(old(Contents()), productId, additional)
      ensures affected == Ok(true) ==> productId in old(inventory) && var i := old(inventory)[productId];
        inventory == old(inventory)[productId := Inventory(
          i.initialStock + additional, i.reservedStock, i.soldStock, i.availableStock + additional, i.version + 1)]
      ensures affected == Ok(false) <==> productId !in old(inventory)
      ensures affected.Err? <==>
        productId in old(inventory) && !Stock.ChecksHold(Stock.Restock(old(inventory)[productId], additional))
      ensures affected.Err? ==> affected.error == CheckViolation
    {
      if productId !in inventory { return Ok(false); }
      var i := inventory[productId];
      var row := i.(initialStock := i.initialStock + additional, availableStock := i.availableStock + additional,
                    version := i.version + 1);
      if !Stock.ChecksHold(row) { return Err(CheckViolation); }
      inventory := inventory[productId := row];
      return Ok(true);
    }

    /** As above; on a valid store no constraint ever refuses. */
    method Reconcile(productId: int) returns (affected: Result<bool>)
      modifies this`inventory
      ensures Contents() == S.ReconcileProduct(old(Contents()), productId)
      ensures affected == Ok(true) ==> productId in old(inventory) && var i := old(inventory)[productId];
        inventory == old(inventory)[productId := Inventory(i.initialStock, i.reservedStock, i.soldStock,
          i.initialStock - i.reservedStock - i.soldStock, i.version + 1)]
      ensures affected == Ok(false) <==> productId !in old(inventory)
      ensures affected.Err? <==>
        productId in old(inventory) && !Stock.ChecksHold(Stock.Reconcile(old(inventory)[productId]))
      ensures affected.Err? ==> affected.error == CheckViolation
      ensures old(Valid()) ==> affected == Ok(productId in old(inventory))
    {
      if productId !in inventory { return Ok(false); }
      ReconcileAlwaysWorks(Contents(), productId);
      var i := inventory[productId];
      var row := i.(availableStock := i.initialStock - i.reservedStock - i.soldStock, version := i.version + 1);
      if !Stock.ChecksHold(row) { return Err(CheckViolation); }
      inventory := inventory[productId := row];
      return Ok(true);
    }

    // ---- backend/src/reservations/reservation.service.ts ----

    method CreateReservation(userId: int, productId: int, quantity: int, expiresAt: int,
                             rid: int) returns (reply: S.Reply)
      modifies this
      ensures S.Outcome(Contents(), reply)
        == S.CreateReservation(old(Contents()), userId, productId, quantity, expiresAt, rid)
    {
      if productId !in inventory { return S.Refused(NotFound); }
      var saved := Contents();
      var reserved := Reserve(productId, quantity);
      if !reserved { return S.Refused(Conflict); }
      if quantity <= 0 {
        Restore(saved);
        return S.Refused(CheckViolation);
      }
      if rid in reservations {
        Restore(saved);
        return S.Refused(UniqueViolation);
      }
      reservations := reservations[rid := Reservation(userId, productId, quantity, Active, expiresAt, None)];
      return S.Reserved(rid);
    }

    /** `updateMany where status = 'ACTIVE'`. */
    method ClaimReservation(rid: int, status: ReservationStatus, releasedAt: Option<int>) returns (claimed: bool)
      modifies this`reservations
      ensures claimed == (rid in old(reservations) && old(reservations)[rid].status.Active?)
      ensures reservations == if claimed then
        old(reservations)[rid := old(reservations)[rid].(status := status, releasedAt := releasedAt)]
          else old(reservations)
    {
      if rid !in reservations || !reservations[rid].status.Active? { return false; }
      reservations := reservations[rid := reservations[rid].(status := status, releasedAt := releasedAt)];
      return true;
    }

    method Cancel(rid: int, now: int) returns (reply: S.Reply)
      modifies this
      ensures S.Outcome(Contents(), reply) == S.CancelReservation(old(Contents()), rid, now)
    {
      if rid !in reservations { return S.Refused(NotFound); }
      var reservation := reservations[rid];
      if !reservation.status.Active? { return S.Flag(false); }
      var saved := Contents();
      var claimed := ClaimReservation(rid, Cancelled, Some(now));
      if !claimed { return S.Flag(false); }
      var released := Release(reservation.productId, reservation.quantity);
      if !released {
        Restore(saved);
        return S.Refused(Fault);
      }
      return S.Flag(true);
    }

    /** `convert` inside a transaction of its caller, who rolls back when it refuses. */
    method ConvertWithin(rid: int) returns (reply: S.Reply)
      modifies this`reservations, this`inventory
      ensures reply == S.ConvertReservation(old(Contents()), rid).reply
      ensures !reply.Refused? ==> Contents() == S.ConvertReservation(old(Contents()), rid).db
    {
      if rid !in reservations { return S.Refused(NotFound); }
      var reservation := reservations[rid];
      if reservation.status.Converted? { return S.Flag(true); }
      if !reservation.status.Active? { return S.Flag(false); }
      var claimed := ClaimReservation(rid, Converted, reservation.releasedAt);
      if !claimed { return S.Flag(false); }
      var sold := Sell(reservation.productId, reservation.quantity);
      return if sold then S.Flag(true) else S.Refused(Fault);
    }

    method Convert(rid: int) returns (reply: S.Reply)
      modifies this
      ensures S.Outcome(Contents(), reply) == S.ConvertReservation(old(Contents()), rid)
    {
      var saved := Contents();
      reply := ConvertWithin(rid);
      if reply.Refused? { Restore(saved); }
    }

    /** Its own transaction; nobody looks at whether the stock came back. */
    method ExpireOne(rid: int, now: int) returns (ok: bool)
      modifies this`reservations, this`inventory
      ensures S.Outcome(Contents(), S.Flag(ok)) == S.ExpireReservation(old(Contents()), rid, now)
    {
      if rid !in reservations { return false; }
      var reservation := reservations[rid];
      var claimed := ClaimReservation(rid, Expired, Some(now));
      if !claimed { return false; }
      var _ := Release(reservation.productId, reservation.quantity);
      return true;
    }

    /** `findMany`: the due reservations, in whatever order. */
    method FindDue(now: int) returns (due: seq<int>)
      ensures S.IsDueList(Contents(), now, due)
      ensures |due| == |DueIds(reservations, now)|
    {
      var left := DueIds(reservations, now);
      due := [];
      while left != {}
        invariant left <= DueIds(reservations, now)
        invariant forall r :: r in due <==> r in DueIds(reservations, now) - left
        invariant forall i, j :: 0 <= i < j < |due| ==> due[i] != due[j]
        invariant |due| + |left| == |DueIds(reservations, now)|
      {
        HasMember(left);
        var r :| r in left;
        assert r !in due;
        due, left := due + [r], left - {r};
      }
    }

    /** Expires exactly the due reservations, gives back exactly their stock, and returns their number. */
    method ExpireSweep(now: int) returns (expired: nat)
      requires Valid()
      modifies this`reservations, this`inventory
      ensures Valid()
      ensures expired == |DueIds(old(reservations), now)|
      ensures reservations == ExpiredIn(old(reservations), DueIds(old(reservations), now), now)
      ensures DueIds(reservations, now) == {}
      ensures inventory.Keys == old(inventory).Keys
      ensures forall p :: p in inventory ==>
        Returned(old(inventory)[p], inventory[p], Sum(DueQty(old(reservations), now, p)))
    {
      ghost var before := Contents();
      var due := FindDue(now);
      expired := 0;
      for i := 0 to |due|
        invariant Contents() == ExpireAll(before, due[..i], now)
        invariant expired == i
      {
        ExpireNext(before, now, due, i);
        var ok := ExpireOne(due[i], now);
        if ok { expired := expired + 1; }
      }
      assert due[..|due|] == due;
      SweepAccounts(before, due, now);
    }

    // ---- backend/src/orders/order.service.ts ----

    /** The statements of the checkout transaction; a refusal is rolled back by the caller. */
    method PlaceWithin(userId: int, rid: int, key: string, oid: int) returns (failure: Option<Error>)
      modifies this`orders, this`keys
      ensures PlacesOrder(old(Contents()), Contents(), userId, rid, key, oid, failure)
    {
      if rid !in reservations { return Some(NotFound); }
      var reservation := reservations[rid];
      if reservation.userId != userId { return Some(Forbidden); }
      if !reservation.status.Active? { return Some(Conflict); }
      if HasOrderFor(orders, rid) { return Some(Conflict); }
      if reservation.productId !in prices { return Some(Fault); }
      var unitPrice := prices[reservation.productId];
      var lineTotal := unitPrice * reservation.quantity;
      if unitPrice <= 0 || reservation.quantity <= 0 { return Some(CheckViolation); }
      if oid in orders || S.OrderKeyTaken(orders, key) { return Some(UniqueViolation); }
      orders := orders[oid := Order(userId, key, rid, PaymentPending, lineTotal, 0, None, lineTotal,
        [Item(reservation.productId, reservation.quantity, unitPrice, lineTotal)], None)];
      if key in keys { return Some(UniqueViolation); }
      keys := keys[key := oid];
      return None;
    }

    /** On a valid store the answer is the one order placed under the key, if any. */
    method FindByKey(key: string) returns (oid: Option<int>)
      ensures oid == if key in keys then Some(keys[key]) else None
      ensures Valid() ==> forall o :: oid == Some(o) <==> o in orders && orders[o].idempotencyKey == key
    {
      return if key in keys then Some(keys[key]) else None;
    }

    method CreateOrder(userId: int, rid: int, key: string, oid: int) returns (reply: S.Reply)
      modifies this
      ensures S.Outcome(Contents(), reply) == S.Checkout(old(Contents()), userId, rid, key, oid)
      ensures key in old(keys) ==> reply == S.Ordered(old(keys)[key]) && Contents() == old(Contents())
    {
      var replay := FindByKey(key);
      if replay.Some? { return S.Ordered(replay.value); }
      var saved := Contents();
      var failure := PlaceWithin(userId, rid, key, oid);
      if failure.None? { return S.Ordered(oid); }
      Restore(saved);
      if failure.value.UniqueViolation? { replay := FindByKey(key); }
      match replay {
        case Some(winner) => return S.Ordered(winner);
        case None => return S.Refused(failure.value);
      }
    }

    // ---- backend/src/coupons/coupon.service.ts ----

    /** An answer is a promotion that gives its discount now; a refusal says whether the code is unknown. */
    method FindUsable(code: string, now: int) returns (promotion: Result<Promotion>)
      ensures promotion == S.FindUsable(Contents(), code, now)
      ensures promotion.Ok? <==> code in promotions && Usable(promotions[code], now)
      ensures promotion.Ok? ==> promotion.value == promotions[code]
      ensures promotion == Err(NotFound) <==> code !in promotions
    {
      if code !in promotions { return Err(NotFound); }
      if !promotions[code].active { return Err(Conflict); }
      if now < promotions[code].startsAt || now > promotions[code].endsAt { return Err(Conflict); }
      return Ok(promotions[code]);
    }

    /** On a valid store a grant takes what the promotion gives off the order: a share, or its value per ticket. */
    method Apply(userId: int, oid: int, code: string, now: int) returns (reply: S.Reply)
      modifies this
      ensures S.Outcome(Contents(), reply) == S.ApplyCode(old(Contents()), userId, oid, code, now)
      ensures old(Valid()) && reply.Discounted? && !reply.replay ==>
        Granted(old(Contents()), oid, code, reply.discountCents, reply.totalCents, Contents())
    {
      GrantShows(Contents(), userId, oid, code, now);
      var found := FindUsable(code, now);
      if found.Err? { return S.Refused(found.error); }
      var promotion := found.value;
      if oid !in orders { return S.Refused(NotFound); }
      var order := orders[oid];
      if order.userId != userId { return S.Refused(Forbidden); }
      if !order.status.PaymentPending? { return S.Refused(Conflict); }
      if order.discountCents > 0 {
        if order.discountCode == Some(code) { return S.Discounted(true, order.discountCents, order.totalCents); }
        return S.Refused(Conflict);
      }
      var discount := ComputeDiscount(promotion, order.subtotalCents, order.items);
      var saved := Contents();
      if promotion.maxRedemptions.Some? && promotions[code].usedRedemptions >= promotion.maxRedemptions.value {
        return S.Refused(Conflict);
      }
      promotions := promotions[code := promotions[code].(usedRedemptions := promotions[code].usedRedemptions + 1)];
      if orders[oid].userId != userId || !orders[oid].status.PaymentPending? || orders[oid].discountCents != 0 {
        Restore(saved);
        return S.Refused(Conflict);
      }
      if discount < 0 || order.subtotalCents - discount < 0 {
        Restore(saved);
        return S.Refused(CheckViolation);
      }
      orders := orders[oid := orders[oid].(
        discountCents := discount, discountCode := Some(code), totalCents := order.subtotalCents - discount)];
      return S.Discounted(false, discount, order.subtotalCents - discount);
    }

    // ---- backend/src/payments/payment.service.ts ----

    /** `charge` is the gateway's transaction id, None when the gateway fails; `payment` is the one made or reused. */
    method CreateForOrder(oid: int, provider: string, charge: Option<string>)
      returns (reply: S.Reply, payment: Option<PaymentRef>)
      modifies this`payments
      ensures S.Outcome(Contents(), reply) == S.CreatePayment(old(Contents()), oid, provider, charge)
      ensures payment.Some? <==> reply.Paying? || reply.PendingReused?
      ensures payment.Some? ==> IsPending(payments, payment.value, oid)
      ensures reply.PendingReused? ==> payment.value in old(payments)
      ensures reply.Paying? ==> payment.value == reply.ref && payment.value !in old(payments)
    {
      if oid !in orders { return S.Refused(NotFound), None; }
      var order := orders[oid];
      if !order.status.PaymentPending? { return S.Refused(Conflict), None; }
      if charge.None? { return S.Refused(Fault), None; }
      if HasPending(payments, oid) {
        var pending :| pending in payments.Keys && payments[pending].orderId == oid
          && payments[pending].status.Pending?;
        return S.PendingReused, Some(pending);
      }
      var ref := PaymentRef(provider, charge.value);
      if ref in payments { return S.Refused(UniqueViolation), None; }
      payments := payments[ref := Payment(oid, Pending, order.totalCents, None)];
      return S.Paying(ref), Some(ref);
    }

    /**
     * Confirms a payment: claim it, convert the reservation, mark the order PAID, issue coupon and tickets. An
     * amount is compared when a success carries one.
     */
    method ConfirmPayment(ev: Event) returns (reply: S.Reply)
      modifies this
      ensures S.Outcome(Contents(), reply) == S.ConfirmPayment(old(Contents()), ev)
      ensures reply == S.Refused(Conflict) <==>
        && ev.ref in old(payments)
        && (old(payments)[ev.ref].status == Pending || old(payments)[ev.ref].status == Failed)
        && ev.success && ev.amountCents.Some? && ev.amountCents.value != old(payments)[ev.ref].amountCents
      ensures old(Valid()) ==> (reply == S.Confirmed(true) <==> Acceptable(old(Contents()), ev))
      ensures old(Valid()) && reply == S.Confirmed(true) && ev.success ==>
        ev.ref in old(payments) && old(payments)[ev.ref].orderId in orders
          && orders[old(payments)[ev.ref].orderId].status == OrderPaid
    {
      if Valid() { AcceptedIsAcceptable(Contents(), ev); }
      if ev.ref !in payments { return S.Refused(NotFound); }
      var payment := payments[ev.ref];
      if payment.status.Paid? || payment.status.PaymentCancelled? { return S.Confirmed(false); }
      if ev.success && ev.amountCents.Some? && ev.amountCents.value != payment.amountCents {
        return S.Refused(Conflict);
      }
      var saved := Contents();
      var failure := ConfirmWithin(ev);
      if failure.Some? {
        Restore(saved);
        return S.Refused(failure.value);
      }
      return S.Confirmed(true);
    }

    /** The statements of the confirmation transaction. */
    method ConfirmWithin(ev: Event) returns (failure: Option<Error>)
      requires ev.ref in payments && !S.Closed(payments[ev.ref]) && S.AmountMatches(ev, payments[ev.ref])
      modifies this`payments, this`reservations, this`inventory, this`orders, this`coupons, this`tickets
      ensures var out := S.ConfirmPayment(old(Contents()), ev);
        Attempts(if out.reply.Refused? then Err(out.reply.error) else Ok(out.db), Contents(), failure)
      ensures failure.None? ==> S.ConfirmPayment(old(Contents()), ev).reply == S.Confirmed(true)
    {
      var payment := payments[ev.ref];
      if EventTaken(payments, ev.ref, ev.eventId) { return Some(UniqueViolation); }
      var status := if ev.success then Paid else Failed;
      payments := payments[ev.ref := payment.(status := status, rawEventId := Some(ev.eventId))];
      if payment.orderId !in orders { return Some(Fault); }
      failure := None;
      if ev.success { failure := SettleWithin(payment.orderId, ev.draws); }
    }

    method SettleWithin(oid: int, d: Draws) returns (failure: Option<Error>)
      requires oid in orders
      modifies this`reservations, this`inventory, this`orders, this`coupons, this`tickets
      ensures Attempts(S.Settle(old(Contents()), oid, d), Contents(), failure)
    {
      var order := orders[oid];
      if order.reservationId in reservations && reservations[order.reservationId].status.Active? {
        var converted := ConvertWithin(order.reservationId);
        if converted.Refused? { return Some(converted.error); }
      }
      orders := orders[oid := orders[oid].(status := OrderPaid, paidAt := Some(d.paidAt))];
      failure := IssueCoupon(oid, d);
      if failure.None? { failure := IssueTickets(oid, d); }
    }

    // ---- backend/src/coupons/coupon-reward.service.ts ----

    method IssueCoupon(oid: int, d: Draws) returns (failure: Option<Error>)
      modifies this`coupons
      ensures Attempts(S.IssueCoupon(old(Contents()), oid, d), Contents(), failure)
    {
      if HasCoupon(coupons, oid) { return None; }
      if oid !in orders { return Some(Fault); }
      var order := orders[oid];
      if order.discountCode.None? || order.discountCode.value == "" { return None; }
      var code := order.discountCode.value;
      if code !in promotions || !promotions[code].issuesCouponOnPaid { return None; }
      if d.couponCode in coupons { return Some(UniqueViolation); }
      coupons := coupons[d.couponCode :=
        Coupon(oid, order.userId, code, Redeemable, d.issuedAt + promotions[code].couponValidityHours * 3_600_000,
          None)];
      return None;
    }

    /** `stored`: whether a best-effort log row reaches the table. */
    method Redeem(userId: int, code: string, now: int, stored: bool) returns (reply: S.Reply)
      modifies this`coupons, this`redemptions
      ensures S.Outcome(Contents(), reply) == S.RedeemCoupon(old(Contents()), userId, code, now, stored)
    {
      if code !in coupons {
        reply := S.Refused(NotFound);
      } else if coupons[code].expiresAt < now {
        RecordRedemption(userId, code, ExpiredAction, stored);
        reply := S.Refused(Conflict);
      } else {
        var claimed := ClaimCoupon(userId, code, now);
        if claimed {
          reply := S.CouponRedeemed;
        } else {
          RecordRedemption(userId, code, ConflictAction, stored);
          reply := S.Refused(Conflict);
        }
      }
    }

    /** Best effort: `stored` says whether the row reached the table. */
    method RecordRedemption(userId: int, code: string, action: Action, stored: bool)
      modifies this`redemptions
      ensures redemptions == if stored then old(redemptions) + [Redemption(code, userId, action)] else old(redemptions)
    {
      if stored { redemptions := redemptions + [Redemption(code, userId, action)]; }
    }

    /** The transaction of `redeem`: the guarded UPDATE and its log row. */
    method ClaimCoupon(userId: int, code: string, now: int) returns (claimed: bool)
      modifies this`coupons, this`redemptions
      ensures claimed == (code in old(coupons) && old(coupons)[code].status.Redeemable?)
      ensures coupons == if claimed then old(coupons)[code := S.AsRedeemed(old(coupons)[code], now)] else old(coupons)
      ensures redemptions == if claimed then old(redemptions) + [Redemption(code, userId, RedeemedAction)]
        else old(redemptions)
    {
      if code !in coupons || coupons[code].status.Redeemed? { return false; }
      coupons := coupons[code := coupons[code].(status := Redeemed, redeemedAt := Some(now))];
      redemptions := redemptions + [Redemption(code, userId, RedeemedAction)];
      return true;
    }

    // ---- backend/src/tickets/ticket-code.service.ts ----

    /** One row per ticket of the order; stops at the first code already taken. */
    method IssueTickets(oid: int, d: Draws) returns (failure: Option<Error>)
      modifies this`tickets
      ensures Attempts(S.IssueTickets(old(Contents()), oid, d), Contents(), failure)
    {
      if TicketsOf(tickets, oid) != [] { return None; }
      if oid !in orders { return Some(Fault); }
      var items := orders[oid].items;
      ghost var before, all := tickets, Generated(oid, items, d.ticketCode);
      var total := CountTickets(items);
      for i := 0 to total
        invariant tickets == before + all[..i]
        invariant forall k :: 0 <= k < i ==> !CodeUsed(before + all[..k], all[k].code)
      {
        var p := ProductAt(items, i);
        var code := d.ticketCode(i);
        assert all[i] == TicketAt(oid, items, d.ticketCode, i);
        if CodeUsed(tickets, code) { return Some(UniqueViolation); }
        var status := if i == 0 then Assigned else Available;
        tickets := tickets + [Ticket(oid, if p == 0 then None else Some(p), code, status)];
        assert all[..i + 1] == all[..i] + [all[i]];
      }
      assert all[..total] == all;
      return None;
    }

    // ---- backend/src/admin/admin.service.ts ----

    /** Answers whether the product exists; no order, paid or not, changes its price with it. */
    method SetPrice(productId: int, cents: int) returns (found: bool)
      modifies this`prices
      ensures found == (productId in old(prices))
      ensures Contents() == S.SetPrice(old(Contents()), productId, cents)
    {
      found := productId in prices;
      if found { prices := prices[productId := cents]; }
    }

    /** Answers whether the promotion exists. */
    method EditPromotion(code: string, active: bool, limit: Option<int>, endsAt: int) returns (found: bool)
      modifies this`promotions
      ensures found == (code in old(promotions))
      ensures Contents() == S.EditPromotion(old(Contents()), code, active, limit, endsAt)
    {
      found := code in promotions;
      if found {
        var p := promotions[code].(active := active, endsAt := endsAt);
        if limit.Some? { p := p.(maxRedemptions := limit); }
        promotions := promotions[code := p];
      }
    }

    // ---- any call ----

    /** One call after the other, each as specified, on a store that stays valid. */
    method Serve(req: Request) returns (reply: S.Reply)
      requires Valid() && !req.Sweep?
      modifies this
      ensures Valid()
      ensures S.Outcome(Contents(), reply) == Call(old(Contents()), req)
      ensures reply.Refused? && !req.Redeem? ==> Contents() == old(Contents())
    {
      CallKeepsInv(Contents(), req);
      if !req.Redeem? && Call(Contents(), req).reply.Refused? { RefusedLeavesNothing(Contents(), req); }
      match req {
        case Create(userId, productId, quantity, expiresAt, rid) =>
          reply := CreateReservation(userId, productId, quantity, expiresAt, rid);
        case Cancel(rid, now) => reply := Cancel(rid, now);
        case PlaceCheckout(userId, rid, key, oid) => reply := CreateOrder(userId, rid, key, oid);
        case Apply(userId, oid, code, now) => reply := Apply(userId, oid, code, now);
        case Pay(oid, provider, charge) =>
          var payment;
          reply, payment := CreateForOrder(oid, provider, charge);
        case Confirm(ev) => reply := ConfirmPayment(ev);
        case Redeem(userId, code, now, stored) => reply := Redeem(userId, code, now, stored);
      }
    }
  }

  /** The code is active and within its dates. */
  predicate Usable(p: Promotion, now: int) { p.active && p.startsAt <= now <= p.endsAt }

  lemma GrantShows(db: Db, userId: int, oid: int, code: string, now: int)
    ensures var out := S.ApplyCode(db, userId, oid, code, now);
      Inv(db) && out.reply.Discounted? && !out.reply.replay ==>
        Granted(db, oid, code, out.reply.discountCents, out.reply.totalCents, out.db)
  {
    var reply := S.ApplyCode(db, userId, oid, code, now).reply;
    if Inv(db) && reply.Discounted? && !reply.replay { GrantIsExact(db, userId, oid, code, now); }
  }

  /** A part of a transaction: the database it asks for, or an error after which the caller rolls back. */
  predicate Attempts(wanted: Result<Db>, got: Db, failure: Option<Error>) {
    match wanted
    case Ok(db) => failure.None? && got == db
    case Err(e) => failure == Some(e)
  }

  predicate PlacesOrder(db: Db, db': Db, userId: int, rid: int, key: string, oid: int, failure: Option<Error>) {
    var r := S.Purchasable(db, userId, rid);
    if r.Err? then failure == Some(r.error)
    else if r.value.productId !in db.prices then failure == Some(Fault)
    else
      var price := db.prices[r.value.productId];
      if price <= 0 || r.value.quantity <= 0 then failure == Some(CheckViolation)
      else if oid in db.orders || S.OrderKeyTaken(db.orders, key)
        || key in db.keys then failure == Some(UniqueViolation)
      else failure.None? && db' == S.PlaceOrder(db, userId, rid, key, oid, price).db
  }

  lemma ReconcileAlwaysWorks(db: Db, p: int)
    requires p in db.inventory
    ensures Inv(db) ==> Stock.ChecksHold(Stock.Reconcile(db.inventory[p]))
  {
    if Inv(db) {
      assert StockRow(db.inventory[p], db.reservations, p);
      CountersWithinBounds(db.inventory, db.reservations, p);
    }
  }
}
