/** What a session knows at each of its statements: its writes so far, its locks, and which of its reads still hold. */
module SessionState {
  import opened Common
  import opened Schema
  import opened TicketCodes
  import opened Discount
  import opened Services
  import opened Invariants
  import opened Settlement
  import opened Footprints
  import opened Rely
  import opened Machine
  import opened Progress
  import Stock

  /** The session is about to commit `x` and nothing but `x`. */
  ghost predicate Ready(t: int, x: Txn, w: Db, db: Db, locks: LockTable) {
    && Enabled(db, x) && Admissible(db, x) && w == Rows(db, x)
    && (forall l :: l in Footprint(db, x) ==> Owns(locks, t, l))
  }

  /** A reservation row read earlier: its terms are still right. */
  predicate Seen(seen: Reservation, rid: int, db: Db) {
    rid in db.reservations && ReservationLater(seen, db.reservations[rid])
  }

  ghost predicate CreateState(t: int, req: Request, pc: Pc, w: Db, db: Db, locks: LockTable)
    requires req.Create?
  {
    match pc
    case Start => w == NoWrites
    case Done(_) => w == NoWrites
    case Aborted(expired) => w == NoWrites && expired == 0
    case TakeStock => w == NoWrites && req.productId in db.inventory
    case InsertReservation =>
      && req.productId in db.inventory
      && var row := Stock.Reserve(db.inventory[req.productId], req.quantity);
      && row.Some? && w == NoWrites.(inventory := map[req.productId := row.value])
      && Owns(locks, t, InventoryRow(req.productId))
    case Committing(x, next) =>
      && x == TCreate(req.userId, req.productId, req.quantity, req.expiresAt, req.rid)
      && next == Done(Reserved(req.rid)) && Ready(t, x, w, db, locks)
    case _ => false
  }

  ghost predicate CancelState(t: int, req: Request, pc: Pc, w: Db, db: Db, locks: LockTable)
    requires req.Cancel?
  {
    match pc
    case Start => w == NoWrites
    case Done(_) => w == NoWrites
    case Aborted(expired) => w == NoWrites && expired == 0
    case ClaimCancel(seen) => w == NoWrites && Seen(seen, req.rid, db)
    case ReturnStock(seen) =>
      && Seen(seen, req.rid, db) && db.reservations[req.rid].status.Active? && Owns(locks, t, ReservationRow(req.rid))
      && w == NoWrites.(reservations := map[req.rid := db.reservations[req.rid].(status := Cancelled,
          releasedAt := Some(req.now))])
    case Committing(x, next) =>
      x == TCancel(req.rid, req.now) && next == Done(Flag(true)) && Ready(t, x, w, db, locks)
    case _ => false
  }

  /** The list a sweep works on: due rows, each once; the first `i` of them are over. */
  ghost predicate Swept(due: seq<int>, i: nat, now: int, db: Db) {
    && i <= |due|
    && (forall j, k :: 0 <= j < k < |due| ==> due[j] != due[k])
    && (forall j :: 0 <= j < |due| ==> due[j] in db.reservations && db.reservations[due[j]].expiresAt <= now)
    && (forall j :: 0 <= j < i ==> due[j] in db.reservations && Ended(db.reservations[due[j]]))
  }

  ghost predicate SweepState(t: int, req: Request, pc: Pc, w: Db, db: Db, locks: LockTable)
    requires req.Sweep?
  {
    match pc
    case Start => w == NoWrites
    case Aborted(_) => w == NoWrites
    case NextDue(due, i, n) => w == NoWrites && Swept(due, i, req.now, db)
    case ClaimExpiry(due, i, n, seen) =>
      w == NoWrites && Swept(due, i, req.now, db) && i < |due| && Seen(seen, due[i], db)
    case ReturnExpired(due, i, n, seen) =>
      && Swept(due, i, req.now, db) && i < |due|
      && Seen(seen, due[i], db) && db.reservations[due[i]].status.Active? && Owns(locks, t, ReservationRow(due[i]))
      && w == NoWrites.(reservations := map[due[i] := db.reservations[due[i]].(status := Expired,
          releasedAt := Some(req.now))])
    case Committing(x, next) =>
      && next.NextDue? && next.i > 0 && next.expired > 0 && Swept(next.due, next.i - 1, req.now, db)
          && next.i <= |next.due|
      && x == TExpire(next.due[next.i - 1], req.now) && Ready(t, x, w, db, locks)
    case SweepDone(due, n) => w == NoWrites && Swept(due, |due|, req.now, db)
    case _ => false
  }

  /** The reservation a checkout has locked. */
  ghost predicate Locked(t: int, req: Request, seen: Reservation, db: Db, locks: LockTable)
    requires req.PlaceCheckout?
  {
    && Owns(locks, t, ReservationRow(req.rid))
    && req.rid in db.reservations && db.reservations[req.rid] == seen
    && seen.userId == req.userId && !Ended(seen)
  }

  ghost predicate CheckoutState(t: int, req: Request, pc: Pc, w: Db, db: Db, locks: LockTable)
    requires req.PlaceCheckout?
  {
    match pc
    case Start => w == NoWrites
    case Done(reply) => w == NoWrites && (reply.Ordered? ==> req.key in db.keys && db.keys[req.key] == reply.oid)
    case Aborted(expired) => w == NoWrites && expired == 0
    case LockReservation => w == NoWrites
    case ReadReservation => w == NoWrites && req.rid in db.reservations && Owns(locks, t, ReservationRow(req.rid))
    case CheckLinked(seen) => w == NoWrites && Locked(t, req, seen, db, locks)
    case ReadPrice(seen) => w == NoWrites && Locked(t, req, seen, db, locks) && !HasOrderFor(db.orders, req.rid)
    case InsertOrder(seen, price) => w == NoWrites && Locked(t, req, seen, db, locks)
      && !HasOrderFor(db.orders, req.rid)
    case InsertKey(price) =>
      && var x := TCheckout(req.userId, req.rid, req.key, req.oid, price);
      && Enabled(db, x) && (forall l :: l in Footprint(db, x) ==> Owns(locks, t, l))
      && w == NoWrites.(orders := map[req.oid := NewOrder(db.reservations[req.rid], req.rid, req.key, price)])
    case Recover => w == NoWrites && (req.key in db.keys || req.oid in db.orders)
    case Committing(x, next) =>
      && x.TCheckout? && x == TCheckout(req.userId, req.rid, req.key, req.oid, x.price)
      && next == Done(Ordered(req.oid)) && Ready(t, x, w, db, locks)
    case _ => false
  }

  /** The discount a code session computed is the one the promotion still gives. */
  ghost predicate Priced(req: Request, discount: int, subtotal: int, db: Db)
    requires req.Apply?
  {
    && req.code in db.promotions && req.oid in db.orders
    && db.orders[req.oid].subtotalCents == subtotal
    && discount == ComputeDiscount(db.promotions[req.code], subtotal, db.orders[req.oid].items)
  }

  ghost predicate ApplyState(t: int, req: Request, pc: Pc, w: Db, db: Db, locks: LockTable)
    requires req.Apply?
  {
    match pc
    case Start => w == NoWrites
    case Done(_) => w == NoWrites
    case Aborted(expired) => w == NoWrites && expired == 0
    case ReadOrder(p) => w == NoWrites && req.code in db.promotions && PromotionLater(p, db.promotions[req.code])
    case TakeCapacity(limit, discount, subtotal) => w == NoWrites && Priced(req, discount, subtotal, db)
    case ClaimOrder(limit, discount, subtotal) =>
      && Priced(req, discount, subtotal, db) && Owns(locks, t, PromotionRow(req.code))
      && BelowLimit(db.promotions[req.code].usedRedemptions, limit)
      && w == NoWrites.(promotions := map[req.code := Used(db.promotions[req.code])])
    case Committing(x, next) =>
      && x.TApply? && x == TApply(req.userId, req.oid, req.code, x.limit, x.discount)
      && Ready(t, x, w, db, locks)
      && next == Done(Discounted(false, x.discount, db.orders[req.oid].subtotalCents - x.discount))
      && Priced(req, x.discount, db.orders[req.oid].subtotalCents, db)
    case _ => false
  }

  ghost predicate PayState(t: int, req: Request, pc: Pc, w: Db, db: Db, locks: LockTable)
    requires req.Pay?
  {
    match pc
    case Start => w == NoWrites
    case Done(_) => w == NoWrites
    case Aborted(expired) => w == NoWrites && expired == 0
    case FindPending(amount) => w == NoWrites && req.oid in db.orders && AmountOk(amount, db.orders[req.oid])
    case InsertPayment(amount) => w == NoWrites && req.oid in db.orders && AmountOk(amount, db.orders[req.oid])
    case _ => false
  }

  // ---- confirmPayment ----

  function ConfirmWrites(payments: map<PaymentRef, Payment>, reservations: map<int, Reservation>,
        inventory: map<int, Inventory>, orders: map<int, Order>, coupons: map<string, Coupon>, tickets: seq<Ticket>): Db
  {
    NoWrites.(payments := payments, reservations := reservations, inventory := inventory,
              orders := orders, coupons := coupons, tickets := tickets)
  }

  /** The payment row and the event id are won. */
  ghost predicate PaymentWon(t: int, ev: Event, oid: int, db: Db, locks: LockTable) {
    && ev.ref in db.payments && !Closed(db.payments[ev.ref]) && AmountMatches(ev, db.payments[ev.ref])
    && !EventTaken(db.payments, ev.ref, ev.eventId)
    && oid == db.payments[ev.ref].orderId && oid in db.orders
    && Owns(locks, t, PaymentRow(ev.ref)) && Owns(locks, t, EventEntry(ev.ref.provider, ev.eventId))
  }

  /** The reservation is converted, or over for good. */
  ghost predicate ConversionSettled(t: int, oid: int, db: Db, locks: LockTable) {
    oid in db.orders && forall l :: l in ConversionLocks(db, db.orders[oid].reservationId) ==> Owns(locks, t, l)
  }

  /** The order row is held, so no one else can issue for it. */
  ghost predicate OrderWon(t: int, ev: Event, oid: int, db: Db, locks: LockTable) {
    && ev.success && PaymentWon(t, ev, oid, db, locks) && ConversionSettled(t, oid, db, locks)
    && Owns(locks, t, OrderRow(oid))
  }

  /** The writes of a successful confirmation once its order row is written. */
  function PaidWrites(db: Db, ev: Event, oid: int, coupons: map<string, Coupon>, tickets: seq<Ticket>): Db
    requires ev.ref in db.payments && oid in db.orders
  {
    ConfirmWrites(ClaimRows(db, ev), ConvertedRows(db, db.orders[oid].reservationId),
      SoldRows(db, db.orders[oid].reservationId),
                  map[oid := PaidOrder(db.orders[oid], ev.draws.paidAt)], coupons, tickets)
  }

  ghost predicate CouponSettled(t: int, ev: Event, oid: int, db: Db, locks: LockTable) {
    oid in db.orders &&
    (EarnsCoupon(db, oid) ==> ev.draws.couponCode !in db.coupons && Owns(locks, t, CouponRow(ev.draws.couponCode)))
  }

  /** The first `i` tickets of the order are inserted. */
  ghost predicate TicketsIn(t: int, ev: Event, oid: int, i: nat, db: Db, locks: LockTable) {
    && oid in db.orders && TicketsOf(db.tickets, oid) == []
    && i <= TotalQuantity(db.orders[oid].items)
    && FreshCodes(db.tickets, Generated(oid, db.orders[oid].items, ev.draws.ticketCode)[..i])
    && (forall k: nat :: k < i ==> Owns(locks, t, TicketEntry(ev.draws.ticketCode(k))))
  }

  /** Only the payment row is written. */
  ghost predicate Claiming(t: int, ev: Event, oid: int, w: Db, db: Db, locks: LockTable) {
    PaymentWon(t, ev, oid, db, locks) && w == ConfirmWrites(ClaimRows(db, ev), map[], map[], map[], map[], [])
  }

  /** A successful notification that knows the order's reservation. */
  ghost predicate Converting(t: int, ev: Event, oid: int, rid: int, w: Db, db: Db, locks: LockTable) {
    ev.success && Claiming(t, ev, oid, w, db, locks) && rid == db.orders[oid].reservationId
  }

  ghost predicate Selling(t: int, ev: Event, oid: int, rid: int, seen: Reservation, w: Db, db: Db, locks: LockTable) {
    && ev.success && PaymentWon(t, ev, oid, db, locks) && rid == db.orders[oid].reservationId && Seen(seen, rid, db)
    && StillActive(db, rid) && Owns(locks, t, ReservationRow(rid))
    && w == ConfirmWrites(ClaimRows(db, ev), ConvertedRows(db, rid), map[], map[], map[], [])
  }

  ghost predicate Marking(t: int, ev: Event, oid: int, w: Db, db: Db, locks: LockTable) {
    && ev.success && PaymentWon(t, ev, oid, db, locks) && ConversionSettled(t, oid, db, locks)
    && var rid := db.orders[oid].reservationId;
    && w == ConfirmWrites(ClaimRows(db, ev), ConvertedRows(db, rid), SoldRows(db, rid), map[], map[], [])
  }

  /** The order is marked paid; no coupon and no ticket is written yet. */
  ghost predicate Rewarding(t: int, ev: Event, oid: int, w: Db, db: Db, locks: LockTable) {
    OrderWon(t, ev, oid, db, locks) && w == PaidWrites(db, ev, oid, map[], [])
  }

  ghost predicate InsertingCoupon(t: int, ev: Event, oid: int, userId: int, code: string, hours: int, w: Db, db: Db,
                                  locks: LockTable) {
    && Rewarding(t, ev, oid, w, db, locks)
    && EarnsCoupon(db, oid) && db.orders[oid].discountCode == Some(code) && userId == db.orders[oid].userId
    && hours == db.promotions[code].couponValidityHours
  }

  /** The coupon is settled and the first `i` tickets are written. */
  ghost predicate Ticketing(t: int, ev: Event, oid: int, ts: seq<Ticket>, w: Db, db: Db, locks: LockTable) {
    && OrderWon(t, ev, oid, db, locks) && CouponSettled(t, ev, oid, db, locks)
    && w == PaidWrites(db, ev, oid, CouponRows(db, oid, ev.draws), ts)
  }

  ghost predicate ConfirmState(t: int, ev: Event, pc: Pc, w: Db, db: Db, locks: LockTable) {
    match pc
    case Start => w == NoWrites
    case Done(reply) =>
      && w == NoWrites
      && (reply == Confirmed(true) && ev.success ==> ev.ref in db.payments && db.payments[ev.ref].status.Paid?)
    case Aborted(expired) => w == NoWrites && expired == 0
    case ClaimPayment => w == NoWrites && ev.ref in db.payments && AmountMatches(ev, db.payments[ev.ref])
    case ReadPaidOrder(oid) => Claiming(t, ev, oid, w, db, locks)
    case ReadReserved(oid, rid) => Converting(t, ev, oid, rid, w, db, locks)
    case ConvertRead(oid, rid) => Converting(t, ev, oid, rid, w, db, locks)
    case ConvertClaim(oid, rid, seen) => Converting(t, ev, oid, rid, w, db, locks) && Seen(seen, rid, db)
    case ConvertSell(oid, rid, seen) => Selling(t, ev, oid, rid, seen, w, db, locks)
    case MarkPaid(oid) => Marking(t, ev, oid, w, db, locks)
    case FindCoupon(oid) => Rewarding(t, ev, oid, w, db, locks)
    case ReadCode(oid) => Rewarding(t, ev, oid, w, db, locks) && !HasCoupon(db.coupons, oid)
    case FindPromotion(oid, userId, code) =>
      && Rewarding(t, ev, oid, w, db, locks) && !HasCoupon(db.coupons, oid)
      && db.orders[oid].discountCode == Some(code) && code != "" && userId == db.orders[oid].userId
    case InsertCoupon(oid, userId, code, hours) => InsertingCoupon(t, ev, oid, userId, code, hours, w, db, locks)
    case FindTickets(oid) => Ticketing(t, ev, oid, [], w, db, locks)
    case ReadItems(oid) => Ticketing(t, ev, oid, [], w, db, locks) && TicketsOf(db.tickets, oid) == []
    case InsertTicket(oid, items, i) =>
      && TicketsIn(t, ev, oid, i, db, locks) && items == db.orders[oid].items
      && Ticketing(t, ev, oid, Generated(oid, items, ev.draws.ticketCode)[..i], w, db, locks)
    case Committing(x, next) =>
      x == TConfirm(ev) && next == Done(Confirmed(true)) && Ready(t, x, w, db, locks)
    case _ => false
  }

  /** Why a redemption is refused; true for ever once it is. */
  predicate RefusedAs(c: Coupon, now: int, action: Action) {
    match action
    case ExpiredAction => c.expiresAt < now
    case ConflictAction => c.expiresAt >= now && c.status.Redeemed?
    case RedeemedAction => false
  }

  ghost predicate RedeemState(t: int, req: Request, pc: Pc, w: Db, db: Db, locks: LockTable)
    requires req.Redeem?
  {
    match pc
    case Start => w == NoWrites
    case Done(reply) =>
      && w == NoWrites
      && (reply.CouponRedeemed? ==> req.code in db.coupons && db.coupons[req.code].status.Redeemed?)
    case Aborted(expired) => w == NoWrites && expired == 0
    case ClaimCoupon => w == NoWrites && req.code in db.coupons && db.coupons[req.code].expiresAt >= req.now
    case LogRedemption =>
      && var x := TRedeem(req.userId, req.code, req.now);
      && Enabled(db, x) && Owns(locks, t, CouponRow(req.code))
      && w == NoWrites.(coupons := map[req.code := AsRedeemed(db.coupons[req.code], req.now)])
    case LogRefusal(action) => w == NoWrites && req.code in db.coupons
      && RefusedAs(db.coupons[req.code], req.now, action)
    case Committing(x, next) =>
      x == TRedeem(req.userId, req.code, req.now) && next == Done(CouponRedeemed) && Ready(t, x, w, db, locks)
    case _ => false
  }

  ghost predicate SessionOk(t: int, s: Session, db: Db, locks: LockTable) {
    || (s.req.Create? && CreateState(t, s.req, s.pc, s.w, db, locks))
    || (s.req.Cancel? && CancelState(t, s.req, s.pc, s.w, db, locks))
    || (s.req.Sweep? && SweepState(t, s.req, s.pc, s.w, db, locks))
    || (s.req.PlaceCheckout? && CheckoutState(t, s.req, s.pc, s.w, db, locks))
    || (s.req.Apply? && ApplyState(t, s.req, s.pc, s.w, db, locks))
    || (s.req.Pay? && PayState(t, s.req, s.pc, s.w, db, locks))
    || (s.req.Confirm? && ConfirmState(t, s.req.ev, s.pc, s.w, db, locks))
    || (s.req.Redeem? && RedeemState(t, s.req, s.pc, s.w, db, locks))
  }

  /** The invariant of the machine. */
  ghost predicate MachineOk(s: State) {
    && Inv(s.db)
    && (forall t {:trigger SessionOk(t, s.sessions[t], s.db, s.locks)} ::
          t in s.sessions ==> SessionOk(t, s.sessions[t], s.db, s.locks))
  }
}
