/** The rows of the database and the database as one value. Times are milliseconds, money is in cents. */
module Schema {
  import opened Common

  datatype Inventory = Inventory(
    initialStock: int, reservedStock: int, soldStock: int, availableStock: int, version: int)

  datatype ReservationStatus = Active | Expired | Converted | Cancelled

  datatype Reservation = Reservation(
    userId: int, productId: int, quantity: int,
    status: ReservationStatus, expiresAt: int, releasedAt: Option<int>)

  datatype OrderStatus = PaymentPending | OrderPaid

  datatype Item = Item(productId: int, quantity: nat, unitPriceCents: int, lineTotalCents: int)

  /** An order with its items; `reservationId` is unique over all orders. */
  datatype Order = Order(
    userId: int, idempotencyKey: string, reservationId: int, status: OrderStatus,
    subtotalCents: int, discountCents: int, discountCode: Option<string>, totalCents: int,
    items: seq<Item>, paidAt: Option<int>)

  datatype PaymentStatus = Pending | Paid | Failed | PaymentCancelled

  /** (provider, providerTransactionId), unique over all payments. */
  datatype PaymentRef = PaymentRef(provider: string, transactionId: string)

  datatype Payment = Payment(
    orderId: int, status: PaymentStatus, amountCents: int, rawEventId: Option<string>)

  datatype DiscountType = Percent | FixedAmount

  datatype Promotion = Promotion(
    active: bool, startsAt: int, endsAt: int, discountType: DiscountType, discountValue: int,
    maxRedemptions: Option<int>, usedRedemptions: int,
    issuesCouponOnPaid: bool, couponValidityHours: int)

  datatype TicketStatus = Available | Assigned

  /** `productId` is nullable in the schema. */
  datatype Ticket = Ticket(orderId: int, productId: Option<int>, code: string, status: TicketStatus)

  /** A coupon waiting to be redeemed is AVAILABLE in the source. */
  datatype CouponStatus = Redeemable | Redeemed

  datatype Coupon = Coupon(
    orderId: int, userId: int, promotionCode: string,
    status: CouponStatus, expiresAt: int, redeemedAt: Option<int>)

  datatype Action = RedeemedAction | ConflictAction | ExpiredAction

  /** A row of the redemption audit log. */
  datatype Redemption = Redemption(couponCode: string, userId: int, action: Action)

  datatype Db = Db(
    inventory: map<int, Inventory>,
    prices: map<int, int>,
    reservations: map<int, Reservation>,
    orders: map<int, Order>,
    keys: map<string, int>,               // idempotency key -> order
    payments: map<PaymentRef, Payment>,
    promotions: map<string, Promotion>,   // by discount code
    tickets: seq<Ticket>,
    coupons: map<string, Coupon>,         // by coupon code
    redemptions: seq<Redemption>)

  const NoWrites := Db(map[], map[], map[], map[], map[], map[], map[], [], map[], [])

  /** The database with the rows of `w` written over it and the lists of `w` appended. */
  function Merge(db: Db, w: Db): Db {
    Db(db.inventory + w.inventory, db.prices + w.prices, db.reservations + w.reservations,
       db.orders + w.orders, db.keys + w.keys, db.payments + w.payments,
       db.promotions + w.promotions, db.tickets + w.tickets,
       db.coupons + w.coupons, db.redemptions + w.redemptions)
  }

  /** A reservation no longer ACTIVE never changes again. */
  predicate Ended(r: Reservation) { !r.status.Active? }

  /** What one payment notification carries, with the draws its handling makes. */
  datatype Draws = Draws(paidAt: int, issuedAt: int, couponCode: string, ticketCode: nat -> string)

  datatype Event = Event(
    ref: PaymentRef, eventId: string, success: bool, amountCents: Option<int>, draws: Draws)

  // ---- lookups shared by the services ----

  predicate HasOrderFor(orders: map<int, Order>, rid: int) {
    exists o | o in orders.Keys :: orders[o].reservationId == rid
  }

  predicate HoldsEvent(payments: map<PaymentRef, Payment>, ref: PaymentRef, eventId: string) {
    ref in payments && payments[ref].rawEventId == Some(eventId)
  }

  /** (provider, rawEventId) is already on another payment. */
  predicate EventTaken(payments: map<PaymentRef, Payment>, ref: PaymentRef, eventId: string) {
    exists q | q in payments.Keys ::
      q != ref && q.provider == ref.provider && HoldsEvent(payments, q, eventId)
  }

  predicate HasPending(payments: map<PaymentRef, Payment>, oid: int) {
    exists q | q in payments.Keys :: payments[q].orderId == oid && payments[q].status.Pending?
  }

  predicate HasCoupon(coupons: map<string, Coupon>, oid: int) {
    exists c | c in coupons.Keys :: coupons[c].orderId == oid
  }

  predicate CodeUsed(tickets: seq<Ticket>, code: string) {
    exists i | 0 <= i < |tickets| :: tickets[i].code == code
  }

  /** The tickets of one order, in insertion order. */
  function TicketsOf(tickets: seq<Ticket>, oid: int): seq<Ticket> {
    if tickets == [] then [] else
      TicketsOf(tickets[..|tickets| - 1], oid) +
      if tickets[|tickets| - 1].orderId == oid then [tickets[|tickets| - 1]] else []
  }

  lemma {:induction false} TicketsOfConcat(s: seq<Ticket>, t: seq<Ticket>, oid: int)
    ensures TicketsOf(s + t, oid) == TicketsOf(s, oid) + TicketsOf(t, oid)
  {
    if t == [] {
      assert s + t == s;
    } else {
      assert (s + t)[..|s + t| - 1] == s + t[..|t| - 1];
      TicketsOfConcat(s, t[..|t| - 1], oid);
    }
  }

  lemma {:induction false} TicketsOfAll(t: seq<Ticket>, oid: int)
    requires forall i :: 0 <= i < |t| ==> t[i].orderId == oid
    ensures TicketsOf(t, oid) == t
  {
    if t != [] { TicketsOfAll(t[..|t| - 1], oid); }
  }

  lemma {:induction false} TicketsOfNone(t: seq<Ticket>, oid: int)
    requires forall i :: 0 <= i < |t| ==> t[i].orderId != oid
    ensures TicketsOf(t, oid) == []
  {
    if t != [] { TicketsOfNone(t[..|t| - 1], oid); }
  }
}
