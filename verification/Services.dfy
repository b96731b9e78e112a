/**
 * What each request of the shop does to the database when nothing runs beside it. Every function
 * returns the database it leaves and its reply; a rolled-back transaction leaves the database it found.
 */
module Services {
  import opened Common
  import opened Schema
  import opened TicketCodes
  import opened Discount
  import Stock

  datatype Reply =
    | Refused(error: Error)
    | Flag(ok: bool)                                   // cancel, convert, expireOne
    | Reserved(rid: int)
    | Ordered(oid: int)
    | Paying(ref: PaymentRef)
    | PendingReused
    | Confirmed(processed: bool)
    | Discounted(replay: bool, discountCents: int, totalCents: int)
    | CouponRedeemed

  datatype Outcome = Outcome(db: Db, reply: Reply)

  // ---- reservations (backend/src/reservations/reservation.service.ts) ----

  function CreateReservation(db: Db, userId: int, productId: int, quantity: int, expiresAt: int, rid: int): Outcome {
    if productId !in db.inventory then Outcome(db, Refused(NotFound))
    else match Stock.Reserve(db.inventory[productId], quantity)
      case None => Outcome(db, Refused(Conflict))
      case Some(row) =>
        if quantity <= 0 then Outcome(db, Refused(CheckViolation))
        else if rid in db.reservations then Outcome(db, Refused(UniqueViolation))
        else Outcome(
          db.(inventory := db.inventory[productId := row],
              reservations :=
                db.reservations[rid := Reservation(userId, productId, quantity, Active, expiresAt, None)]),
          Reserved(rid))
  }

  /** The result of a guarded UPDATE of the stock row of `productId`; None when no row was hit. */
  function ReleaseStock(db: Db, productId: int, quantity: int): Option<Db> {
    if productId !in db.inventory then None
    else match Stock.Release(db.inventory[productId], quantity)
      case None => None
      case Some(row) => Some(db.(inventory := db.inventory[productId := row]))
  }

  function SellStock(db: Db, productId: int, quantity: int): Option<Db> {
    if productId !in db.inventory then None
    else match Stock.Sell(db.inventory[productId], quantity)
      case None => None
      case Some(row) => Some(db.(inventory := db.inventory[productId := row]))
  }

  function SetReservation(db: Db, rid: int, r: Reservation): Db {
    db.(reservations := db.reservations[rid := r])
  }

  function CancelReservation(db: Db, rid: int, now: int): Outcome {
    if rid !in db.reservations then Outcome(db, Refused(NotFound))
    else
      var r := db.reservations[rid];
      if Ended(r) then Outcome(db, Flag(false))
      else
        var claimed := SetReservation(db, rid, r.(status := Cancelled, releasedAt := Some(now)));
        match ReleaseStock(claimed, r.productId, r.quantity)
        case None => Outcome(db, Refused(Fault))
        case Some(db') => Outcome(db', Flag(true))
  }

  /** `expireOne`: the result of the stock update is not looked at. */
  function ExpireReservation(db: Db, rid: int, now: int): Outcome {
    if rid !in db.reservations || Ended(db.reservations[rid]) then Outcome(db, Flag(false))
    else
      var r := db.reservations[rid];
      var claimed := SetReservation(db, rid, r.(status := Expired, releasedAt := Some(now)));
      match ReleaseStock(claimed, r.productId, r.quantity)
      case None => Outcome(claimed, Flag(true))
      case Some(db') => Outcome(db', Flag(true))
  }

  /** The rows `findMany` returns: the due reservations, each once, in any order. */
  ghost predicate IsDueList(db: Db, now: int, due: seq<int>) {
    && (forall i, j :: 0 <= i < j < |due| ==> due[i] != due[j])
    && (forall r :: r in due <==>
        r in db.reservations && db.reservations[r].status.Active? && db.reservations[r].expiresAt <= now)
  }

  function ConvertReservation(db: Db, rid: int): Outcome {
    if rid !in db.reservations then Outcome(db, Refused(NotFound))
    else
      var r := db.reservations[rid];
      if r.status.Converted? then Outcome(db, Flag(true))
      else if Ended(r) then Outcome(db, Flag(false))
      else match SellStock(SetReservation(db, rid, r.(status := Converted)), r.productId, r.quantity)
        case None => Outcome(db, Refused(Fault))
        case Some(db') => Outcome(db', Flag(true))
  }

  // ---- checkout (backend/src/orders/order.service.ts) ----

  /** The checks on the locked reservation row. */
  function Purchasable(db: Db, userId: int, rid: int): Result<Reservation> {
    if rid !in db.reservations then Err(NotFound)
    else
      var r := db.reservations[rid];
      if r.userId != userId then Err(Forbidden)
      else if Ended(r) then Err(Conflict)
      else if HasOrderFor(db.orders, rid) then Err(Conflict)
      else Ok(r)
  }

  predicate OrderKeyTaken(orders: map<int, Order>, key: string) {
    exists o | o in orders.Keys :: orders[o].idempotencyKey == key
  }

  function NewOrder(r: Reservation, rid: int, key: string, price: int): Order
    requires r.quantity > 0
  {
    Order(r.userId, key, rid, PaymentPending, price * r.quantity, 0, None, price * r.quantity,
          [Item(r.productId, r.quantity, price, price * r.quantity)], None)
  }

  /** The checkout transaction, at the price it read. */
  function PlaceOrder(db: Db, userId: int, rid: int, key: string, oid: int, price: int): Outcome {
    match Purchasable(db, userId, rid)
    case Err(e) => Outcome(db, Refused(e))
    case Ok(r) =>
      if price <= 0 || r.quantity <= 0 then Outcome(db, Refused(CheckViolation))
      else if oid in db.orders || OrderKeyTaken(db.orders, key) || key in db.keys then
        if key in db.keys then Outcome(db, Ordered(db.keys[key])) else Outcome(db, Refused(UniqueViolation))
      else Outcome(
        db.(orders := db.orders[oid := NewOrder(r, rid, key, price)], keys := db.keys[key := oid]),
        Ordered(oid))
  }

  function Checkout(db: Db, userId: int, rid: int, key: string, oid: int): Outcome {
    if key in db.keys then Outcome(db, Ordered(db.keys[key]))
    else match Purchasable(db, userId, rid)
      case Err(e) => Outcome(db, Refused(e))
      case Ok(r) =>
        if r.productId !in db.prices then Outcome(db, Refused(Fault))
        else PlaceOrder(db, userId, rid, key, oid, db.prices[r.productId])
  }

  // ---- discount codes (backend/src/coupons/coupon.service.ts) ----

  function FindUsable(db: Db, code: string, now: int): Result<Promotion> {
    if code !in db.promotions then Err(NotFound)
    else
      var p := db.promotions[code];
      if !p.active || now < p.startsAt || now > p.endsAt then Err(Conflict) else Ok(p)
  }

  predicate BelowLimit(used: int, limit: Option<int>) { limit.Some? ==> used < limit.value }

  /** The guard of the UPDATE on the order row. */
  predicate OpenForDiscount(o: Order, userId: int) {
    o.userId == userId && o.status.PaymentPending? && o.discountCents == 0
  }

  function WithDiscount(o: Order, code: string, discount: int): Order {
    o.(discountCents := discount, discountCode := Some(code), totalCents := o.subtotalCents - discount)
  }

  function Used(p: Promotion): Promotion { p.(usedRedemptions := p.usedRedemptions + 1) }

  /** The transaction of `apply`, with the limit and the discount computed before it began. */
  function ClaimDiscount(db: Db, userId: int, oid: int, code: string, limit: Option<int>, discount: int): Outcome {
    if code !in db.promotions || !BelowLimit(db.promotions[code].usedRedemptions, limit) then
      Outcome(db, Refused(Conflict))
    else if oid !in db.orders || !OpenForDiscount(db.orders[oid], userId) then
      Outcome(db, Refused(Conflict))
    else
      var o := WithDiscount(db.orders[oid], code, discount);
      if discount < 0 || o.totalCents < 0 then Outcome(db, Refused(CheckViolation))
      else Outcome(
        db.(promotions := db.promotions[code := Used(db.promotions[code])], orders := db.orders[oid := o]),
        Discounted(false, discount, o.totalCents))
  }

  /** The checks `apply` makes on the order it read before the transaction; Some is an early reply. */
  function DiscountVerdict(o: Order, userId: int, code: string): Option<Reply> {
    if o.userId != userId then Some(Refused(Forbidden))
    else if !o.status.PaymentPending? then Some(Refused(Conflict))
    else if o.discountCents > 0 then
      if o.discountCode == Some(code) then Some(Discounted(true, o.discountCents, o.totalCents))
      else Some(Refused(Conflict))
    else None
  }

  function ApplyCode(db: Db, userId: int, oid: int, code: string, now: int): Outcome {
    match FindUsable(db, code, now)
    case Err(e) => Outcome(db, Refused(e))
    case Ok(p) =>
      if oid !in db.orders then Outcome(db, Refused(NotFound))
      else
        var o := db.orders[oid];
        match DiscountVerdict(o, userId, code)
        case Some(reply) => Outcome(db, reply)
        case None =>
          ClaimDiscount(db, userId, oid, code, p.maxRedemptions, ComputeDiscount(p, o.subtotalCents, o.items))
  }

  // ---- payments (backend/src/payments/payment.service.ts) ----

  function RecordPayment(db: Db, oid: int, ref: PaymentRef, amountCents: int): Outcome {
    if oid !in db.orders then Outcome(db, Refused(Fault))
    else if ref in db.payments then Outcome(db, Refused(UniqueViolation))
    else Outcome(db.(payments := db.payments[ref := Payment(oid, Pending, amountCents, None)]), Paying(ref))
  }

  /** `charge` is the transaction id the gateway returns; None when it fails. */
  function CreatePayment(db: Db, oid: int, provider: string, charge: Option<string>): Outcome {
    if oid !in db.orders then Outcome(db, Refused(NotFound))
    else if db.orders[oid].status.OrderPaid? then Outcome(db, Refused(Conflict))
    else if charge.None? then Outcome(db, Refused(Fault))
    else if HasPending(db.payments, oid) then Outcome(db, PendingReused)
    else RecordPayment(db, oid, PaymentRef(provider, charge.value), db.orders[oid].totalCents)
  }

  predicate Closed(p: Payment) { p.status.Paid? || p.status.PaymentCancelled? }

  predicate AmountMatches(ev: Event, p: Payment) {
    ev.success && ev.amountCents.Some? ==> ev.amountCents.value == p.amountCents
  }

  function Claimed(p: Payment, ev: Event): Payment {
    p.(status := if ev.success then Paid else Failed, rawEventId := Some(ev.eventId))
  }

  predicate Issues(promotions: map<string, Promotion>, code: Option<string>) {
    code.Some? && code.value != "" && code.value in promotions && promotions[code.value].issuesCouponOnPaid
  }

  function NewCoupon(oid: int, userId: int, code: string, p: Promotion, issuedAt: int): Coupon {
    Coupon(oid, userId, code, Redeemable, issuedAt + p.couponValidityHours * 3_600_000, None)
  }

  /** `CouponRewardService.issueForPaidOrder`. */
  function IssueCoupon(db: Db, oid: int, d: Draws): Result<Db> {
    if HasCoupon(db.coupons, oid) then Ok(db)
    else if oid !in db.orders then Err(Fault)
    else
      var o := db.orders[oid];
      if !Issues(db.promotions, o.discountCode) then Ok(db)
      else if d.couponCode in db.coupons then Err(UniqueViolation)
      else
        var code := o.discountCode.value;
        Ok(db.(coupons := db.coupons[
          d.couponCode := NewCoupon(oid, o.userId, code, db.promotions[code], d.issuedAt)]))
  }

  /** Inserting `added` one by one never meets a code already stored. */
  predicate FreshCodes(tickets: seq<Ticket>, added: seq<Ticket>) {
    forall i | 0 <= i < |added| :: !CodeUsed(tickets + added[..i], added[i].code)
  }

  /** `TicketCodeService.issueForPaidOrder`. */
  function IssueTickets(db: Db, oid: int, d: Draws): Result<Db> {
    if TicketsOf(db.tickets, oid) != [] then Ok(db)
    else if oid !in db.orders then Err(Fault)
    else
      var added := Generated(oid, db.orders[oid].items, d.ticketCode);
      if FreshCodes(db.tickets, added) then Ok(db.(tickets := db.tickets + added)) else Err(UniqueViolation)
  }

  /** The reservation of a paid order is converted only when it is still ACTIVE. */
  function ConvertIfActive(db: Db, rid: int): Result<Db> {
    if rid in db.reservations && !Ended(db.reservations[rid]) then
      var out := ConvertReservation(db, rid);
      if out.reply.Refused? then Err(out.reply.error) else Ok(out.db)
    else Ok(db)
  }

  /** The effects of a successful payment on its order. */
  function Settle(db: Db, oid: int, d: Draws): Result<Db>
    requires oid in db.orders
  {
    var o := db.orders[oid];
    var converted :- ConvertIfActive(db, o.reservationId);
    var paid := converted.(orders := converted.orders[oid := o.(status := OrderPaid, paidAt := Some(d.paidAt))]);
    var rewarded :- IssueCoupon(paid, oid, d);
    IssueTickets(rewarded, oid, d)
  }

  function ConfirmPayment(db: Db, ev: Event): Outcome {
    if ev.ref !in db.payments then Outcome(db, Refused(NotFound))
    else
      var p := db.payments[ev.ref];
      if Closed(p) then Outcome(db, Confirmed(false))
      else if !AmountMatches(ev, p) then Outcome(db, Refused(Conflict))
      else if EventTaken(db.payments, ev.ref, ev.eventId) then Outcome(db, Refused(UniqueViolation))
      else if p.orderId !in db.orders then Outcome(db, Refused(Fault))
      else
        var claimed := db.(payments := db.payments[ev.ref := Claimed(p, ev)]);
        if !ev.success then Outcome(claimed, Confirmed(true))
        else match Settle(claimed, p.orderId, ev.draws)
          case Err(e) => Outcome(db, Refused(e))
          case Ok(db') => Outcome(db', Confirmed(true))
  }

  // ---- reward coupons (backend/src/coupons/coupon-reward.service.ts) ----

  function Log(db: Db, userId: int, code: string, action: Action): Db {
    db.(redemptions := db.redemptions + [Redemption(code, userId, action)])
  }

  function AsRedeemed(c: Coupon, now: int): Coupon {
    c.(status := Redeemed, redeemedAt := Some(now))
  }

  /** `stored` says whether a best-effort log row (EXPIRED or CONFLICT) made it to the table. */
  function RedeemCoupon(db: Db, userId: int, code: string, now: int, stored: bool): Outcome {
    if code !in db.coupons then Outcome(db, Refused(NotFound))
    else
      var c := db.coupons[code];
      if c.expiresAt < now then Outcome(if stored then Log(db, userId, code, ExpiredAction) else db, Refused(Conflict))
      else if c.status.Redeemable? then
        var redeemed := db.(coupons := db.coupons[code := AsRedeemed(c, now)]);
        Outcome(Log(redeemed, userId, code, RedeemedAction), CouponRedeemed)
      else Outcome(if stored then Log(db, userId, code, ConflictAction) else db, Refused(Conflict))
  }

  // ---- administration (backend/src/admin/admin.service.ts, backend/src/inventory/inventory.service.ts) ----

  function SetPrice(db: Db, productId: int, cents: int): Db {
    if productId in db.prices then db.(prices := db.prices[productId := cents]) else db
  }

  /** An omitted `limit` leaves the limit as it is; a limit can never be taken away. */
  function EditPromotion(db: Db, code: string, active: bool, limit: Option<int>, endsAt: int): Db {
    if code !in db.promotions then db
    else
      var p := db.promotions[code];
      db.(promotions := db.promotions[code :=
        p.(active := active, endsAt := endsAt, maxRedemptions := if limit.Some? then limit else p.maxRedemptions)])
  }

  function RestockProduct(db: Db, productId: int, additional: int): Db {
    if productId !in db.inventory then db
    else
      var row := Stock.Restock(db.inventory[productId], additional);
      if Stock.ChecksHold(row) then db.(inventory := db.inventory[productId := row]) else db
  }

  function ReconcileProduct(db: Db, productId: int): Db {
    if productId !in db.inventory then db
    else
      var row := Stock.Reconcile(db.inventory[productId]);
      if Stock.ChecksHold(row) then db.(inventory := db.inventory[productId := row]) else db
  }

  // ---- one committed transaction ----

  /** The transactions that change rows, with the values each one had read before it began. */
  datatype Txn =
    | TCreate(userId: int, productId: int, quantity: int, expiresAt: int, rid: int)
    | TCancel(rid: int, now: int)
    | TExpire(rid: int, now: int)
    | TCheckout(userId: int, rid: int, key: string, oid: int, price: int)
    | TApply(userId: int, oid: int, code: string, limit: Option<int>, discount: int)
    | TPay(oid: int, ref: PaymentRef, amountCents: int)
    | TConfirm(ev: Event)
    | TRedeem(userId: int, code: string, now: int)
    | TLog(userId: int, code: string, action: Action)
    | TPrice(productId: int, cents: int)
    | TPromotion(code: string, active: bool, limit: Option<int>, endsAt: int)
    | TRestock(productId: int, additional: int)
    | TReconcile(productId: int)

  function Effect(db: Db, t: Txn): Db {
    match t
    case TCreate(u, p, q, e, rid) => CreateReservation(db, u, p, q, e, rid).db
    case TCancel(rid, now) => CancelReservation(db, rid, now).db
    case TExpire(rid, now) => ExpireReservation(db, rid, now).db
    case TCheckout(u, rid, key, oid, price) => PlaceOrder(db, u, rid, key, oid, price).db
    case TApply(u, oid, code, limit, d) => ClaimDiscount(db, u, oid, code, limit, d).db
    case TPay(oid, ref, amount) => RecordPayment(db, oid, ref, amount).db
    case TConfirm(ev) => ConfirmPayment(db, ev).db
    case TRedeem(u, code, now) => RedeemCoupon(db, u, code, now, true).db
    case TLog(u, code, action) => Log(db, u, code, action)
    case TPrice(p, cents) => SetPrice(db, p, cents)
    case TPromotion(code, active, limit, endsAt) => EditPromotion(db, code, active, limit, endsAt)
    case TRestock(p, n) => RestockProduct(db, p, n)
    case TReconcile(p) => ReconcileProduct(db, p)
  }

  /** Running transactions one at a time. */
  function Replay(db: Db, history: seq<Txn>): Db {
    if history == [] then db else Effect(Replay(db, history[..|history| - 1]), history[|history| - 1])
  }
}
