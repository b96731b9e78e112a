/** What holds of the tables in every reachable state, table group by table group. */
module Invariants {
  import opened Common
  import opened Schema
  import opened Sums
  import opened TicketCodes
  import opened Services
  import Stock

  // ---- what each row contributes to a sum for product p ----

  ghost function ActiveQty(reservations: map<int, Reservation>, p: int): map<int, int> {
    map r | r in reservations ::
      if reservations[r].productId == p && reservations[r].status.Active? then reservations[r].quantity else 0
  }

  ghost function ConvertedQty(reservations: map<int, Reservation>, p: int): map<int, int> {
    map r | r in reservations ::
      if reservations[r].productId == p && reservations[r].status.Converted? then reservations[r].quantity else 0
  }

  ghost function PaidQty(orders: map<int, Order>, p: int): map<int, int> {
    map o | o in orders :: if orders[o].status.OrderPaid? then QuantityOf(orders[o].items, p) else 0
  }

  /** A paid order whose reservation ended without being converted. */
  predicate PaidLate(o: Order, reservations: map<int, Reservation>) {
    && o.status.OrderPaid? && o.reservationId in reservations
    && (reservations[o.reservationId].status.Expired? || reservations[o.reservationId].status.Cancelled?)
  }

  ghost function LateQty(orders: map<int, Order>, reservations: map<int, Reservation>, p: int): map<int, int> {
    map o | o in orders :: if PaidLate(orders[o], reservations) then QuantityOf(orders[o].items, p) else 0
  }

  function LineTotals(items: seq<Item>): int {
    if items == [] then 0 else items[0].quantity * items[0].unitPriceCents + LineTotals(items[1..])
  }

  // ---- stock ----

  ghost predicate StockRow(i: Inventory, reservations: map<int, Reservation>, p: int) {
    && i.reservedStock == Sum(ActiveQty(reservations, p))
    && i.soldStock == Sum(ConvertedQty(reservations, p))
    && i.availableStock >= 0
    && Stock.Balanced(i)
  }

  /** Counters are exactly the sums over the reservations. */
  ghost predicate StockInv(inventory: map<int, Inventory>, reservations: map<int, Reservation>) {
    && 0 !in inventory
    && (forall r :: r in reservations ==> reservations[r].quantity > 0 && reservations[r].productId in inventory)
    && (forall p {:trigger StockRow(inventory[p], reservations, p)} :: p in inventory ==>
        StockRow(inventory[p], reservations, p))
  }

  // ---- orders ----

  /** An order buys its reservation, and its money adds up. */
  predicate OrderOk(o: Order, reservations: map<int, Reservation>) {
    && o.reservationId in reservations
    && var r := reservations[o.reservationId];
    && o.userId == r.userId
    && |o.items| == 1 && o.items[0].productId == r.productId && o.items[0].quantity == r.quantity
    && o.items[0].unitPriceCents > 0
    && o.subtotalCents == LineTotals(o.items)
    && 0 <= o.discountCents <= o.subtotalCents
    && o.totalCents == o.subtotalCents - o.discountCents
    && (o.discountCents > 0 ==> o.discountCode.Some?)
    && (o.status.OrderPaid? <==> o.paidAt.Some?)
  }

  ghost predicate OrderInv(orders: map<int, Order>, reservations: map<int, Reservation>) {
    && (forall o :: o in orders ==> OrderOk(orders[o], reservations))
    && (forall o, o' :: o in orders && o' in orders && orders[o].reservationId == orders[o'].reservationId ==> o == o')
  }

  /** Some paid order holds the reservation. */
  predicate HasPaidOrder(orders: map<int, Order>, rid: int) {
    exists o | o in orders.Keys :: orders[o].reservationId == rid && orders[o].status.OrderPaid?
  }

  ghost predicate CouplingInv(orders: map<int, Order>, reservations: map<int, Reservation>) {
    && (forall o :: o in orders && orders[o].reservationId in reservations ==>
          if orders[o].status.OrderPaid? then Ended(reservations[orders[o].reservationId])
          else !reservations[orders[o].reservationId].status.Converted?)
    && (forall r :: r in reservations && reservations[r].status.Converted? ==> HasPaidOrder(orders, r))
  }

  /** Idempotency keys and orders correspond one to one. */
  ghost predicate KeyInv(keys: map<string, int>, orders: map<int, Order>) {
    && (forall k :: k in keys ==> keys[k] in orders && orders[keys[k]].idempotencyKey == k)
    && (forall o :: o in orders ==> orders[o].idempotencyKey in keys && keys[orders[o].idempotencyKey] == o)
  }

  // ---- payments ----

  predicate AmountOk(amount: int, o: Order) {
    && (amount == o.subtotalCents || amount == o.totalCents)
    && o.totalCents <= amount <= o.subtotalCents
  }

  predicate PaymentOk(p: Payment, orders: map<int, Order>) {
    && p.orderId in orders
    && AmountOk(p.amountCents, orders[p.orderId])
    && (p.status.Paid? ==> orders[p.orderId].status.OrderPaid?)
  }

  predicate HasPaidPayment(payments: map<PaymentRef, Payment>, oid: int) {
    exists q | q in payments.Keys :: payments[q].orderId == oid && payments[q].status.Paid?
  }

  ghost predicate PaymentInv(payments: map<PaymentRef, Payment>, orders: map<int, Order>) {
    && (forall q :: q in payments ==> PaymentOk(payments[q], orders))
    && (forall q, q', e :: HoldsEvent(payments, q, e) && HoldsEvent(payments, q', e) && q.provider == q'.provider ==>
        q == q')
    && (forall o :: o in orders && orders[o].status.OrderPaid? ==> HasPaidPayment(payments, o))
  }

  // ---- tickets ----

  /** `ts` is what one paid order gets, whatever codes were drawn. */
  predicate IsIssue(ts: seq<Ticket>, items: seq<Item>) {
    && |ts| == TotalQuantity(items)
    && (forall i | 0 <= i < |ts| ::
          ts[i].productId == Nullable(Expand(items)[i]) && (ts[i].status == Assigned <==> i == 0))
  }

  predicate UniqueCodes(tickets: seq<Ticket>) {
    forall i, j | 0 <= i < j < |tickets| :: tickets[i].code != tickets[j].code
  }

  ghost predicate TicketInv(tickets: seq<Ticket>, orders: map<int, Order>) {
    && UniqueCodes(tickets)
    && (forall i :: 0 <= i < |tickets| ==> tickets[i].orderId in orders)
    && (forall o :: o in orders ==>
          if orders[o].status.OrderPaid? then IsIssue(TicketsOf(tickets, o), orders[o].items)
          else TicketsOf(tickets, o) == [])
  }

  // ---- reward coupons ----

  predicate CouponOk(c: Coupon, orders: map<int, Order>, promotions: map<string, Promotion>) {
    && c.orderId in orders
    && orders[c.orderId].status.OrderPaid?
    && c.userId == orders[c.orderId].userId
    && orders[c.orderId].discountCode == Some(c.promotionCode)
    && Issues(promotions, Some(c.promotionCode))
    && (c.status.Redeemed? <==> c.redeemedAt.Some?)
  }

  ghost predicate CouponInv(coupons: map<string, Coupon>, orders: map<int, Order>, promotions: map<string, Promotion>) {
    && (forall c :: c in coupons ==> CouponOk(coupons[c], orders, promotions))
    && (forall c, c' :: c in coupons && c' in coupons && coupons[c].orderId == coupons[c'].orderId ==> c == c')
    && (forall o :: o in orders && orders[o].status.OrderPaid? && Issues(promotions, orders[o].discountCode) ==>
          HasCoupon(coupons, o))
  }

  function RedemptionOf(code: string): Redemption -> bool {
    (e: Redemption) => e.couponCode == code && e.action == RedeemedAction
  }

  /** One REDEEMED log row for a redeemed coupon, none otherwise. */
  ghost predicate LogInv(redemptions: seq<Redemption>, coupons: map<string, Coupon>) {
    && (forall i :: 0 <= i < |redemptions| ==> redemptions[i].couponCode in coupons)
    && (forall c :: c in coupons ==>
          Count(redemptions, RedemptionOf(c)) == if coupons[c].status.Redeemed? then 1 else 0)
  }

  // ---- exact accounting across tables ----

  ghost predicate AccountRow(p: int, reservations: map<int, Reservation>, orders: map<int, Order>,
                             tickets: seq<Ticket>) {
    && Count(tickets, IsFor(p)) == Sum(PaidQty(orders, p))
    && Sum(PaidQty(orders, p)) == Sum(ConvertedQty(reservations, p)) + Sum(LateQty(orders, reservations, p))
  }

  ghost predicate AccountInv(products: set<int>, reservations: map<int, Reservation>, orders: map<int, Order>,
                             tickets: seq<Ticket>) {
    forall p {:trigger AccountRow(p, reservations, orders, tickets)} ::
      p in products ==> AccountRow(p, reservations, orders, tickets)
  }

  ghost predicate Inv(db: Db) {
    && StockInv(db.inventory, db.reservations)
    && OrderInv(db.orders, db.reservations)
    && CouplingInv(db.orders, db.reservations)
    && KeyInv(db.keys, db.orders)
    && PaymentInv(db.payments, db.orders)
    && TicketInv(db.tickets, db.orders)
    && CouponInv(db.coupons, db.orders, db.promotions)
    && LogInv(db.redemptions, db.coupons)
    && AccountInv(db.inventory.Keys, db.reservations, db.orders, db.tickets)
  }

  /** A shop before its first request: stock on the shelf, promotions unused, everything else empty. */
  predicate Init(db: Db) {
    && (forall p | p in db.inventory.Keys :: p != 0 && var i := db.inventory[p];
          i.initialStock >= 0 && i.availableStock == i.initialStock && i.reservedStock == 0 && i.soldStock == 0)
    && (forall c | c in db.promotions.Keys :: db.promotions[c].usedRedemptions == 0)
    && db.reservations == map[] && db.orders == map[] && db.keys == map[] && db.payments == map[]
    && db.tickets == [] && db.coupons == map[] && db.redemptions == []
  }

  lemma InitEstablishes(db: Db)
    requires Init(db)
    ensures Inv(db)
  {}

  /** A transaction's parameters that were read earlier are still good enough for the current rows. */
  predicate Admissible(db: Db, t: Txn) {
    match t
    case TPay(oid, _, amount) => oid in db.orders ==> AmountOk(amount, db.orders[oid])
    case TLog(_, code, action) => code in db.coupons && action != RedeemedAction
    case _ => true
  }
}
