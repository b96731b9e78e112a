/** For every transaction: when it takes effect, the rows it writes, and the locks those rows need. */
module Footprints {
  import opened Common
  import opened Schema
  import opened Services
  import opened Invariants
  import opened Settlement
  import Stock

  /** A row, or an entry of a unique index. */
  datatype Lock =
    | InventoryRow(productId: int)
    | ReservationRow(rid: int)
    | OrderRow(oid: int)
    | PaymentRow(ref: PaymentRef)
    | PromotionRow(code: string)
    | CouponRow(couponCode: string)
    | KeyEntry(key: string)
    | EventEntry(provider: string, eventId: string)
    | TicketEntry(ticketCode: string)

  predicate CanReturn(db: Db, rid: int) {
    && rid in db.reservations && db.reservations[rid].status.Active?
    && db.reservations[rid].productId in db.inventory
    && Stock.Release(db.inventory[db.reservations[rid].productId], db.reservations[rid].quantity).Some?
  }

  /** The transaction goes through on `db` and changes it. */
  predicate Enabled(db: Db, t: Txn) {
    match t
    case TCreate(u, p, q, e, rid) =>
      q > 0 && p in db.inventory && Stock.Reserve(db.inventory[p], q).Some? && rid !in db.reservations
    case TCancel(rid, now) => CanReturn(db, rid)
    case TExpire(rid, now) => CanReturn(db, rid)
    case TCheckout(u, rid, key, oid, price) =>
      && Purchasable(db, u, rid).Ok? && price > 0 && db.reservations[rid].quantity > 0
      && oid !in db.orders && !OrderKeyTaken(db.orders, key) && key !in db.keys
    case TApply(u, oid, code, limit, d) =>
      && code in db.promotions && BelowLimit(db.promotions[code].usedRedemptions, limit)
      && oid in db.orders && OpenForDiscount(db.orders[oid], u)
      && 0 <= d <= db.orders[oid].subtotalCents
    case TPay(oid, ref, amount) => oid in db.orders && ref !in db.payments
    case TConfirm(ev) => Accepts(db, ev)
    case TRedeem(u, code, now) =>
      code in db.coupons && db.coupons[code].expiresAt >= now && db.coupons[code].status.Redeemable?
    case TLog(u, code, action) => code in db.coupons
    case TPrice(p, cents) => p in db.prices
    case TPromotion(code, active, limit, endsAt) => code in db.promotions
    case TRestock(p, n) => p in db.inventory && Stock.ChecksHold(Stock.Restock(db.inventory[p], n))
    case TReconcile(p) => p in db.inventory && Stock.ChecksHold(Stock.Reconcile(db.inventory[p]))
  }

  function ReturnedRow(db: Db, rid: int): map<int, Inventory>
    requires CanReturn(db, rid)
  {
    var r := db.reservations[rid];
    map[r.productId := Stock.Release(db.inventory[r.productId], r.quantity).value]
  }

  function Rows(db: Db, t: Txn): Db
    requires Enabled(db, t)
  {
    match t
    case TCreate(u, p, q, e, rid) =>
      NoWrites.(inventory := map[p := Stock.Reserve(db.inventory[p], q).value],
                reservations := map[rid := Reservation(u, p, q, Active, e, None)])
    case TCancel(rid, now) =>
      NoWrites.(inventory := ReturnedRow(db, rid),
                reservations := map[rid := db.reservations[rid].(status := Cancelled, releasedAt := Some(now))])
    case TExpire(rid, now) =>
      NoWrites.(inventory := ReturnedRow(db, rid),
                reservations := map[rid := db.reservations[rid].(status := Expired, releasedAt := Some(now))])
    case TCheckout(u, rid, key, oid, price) =>
      NoWrites.(orders := map[oid := NewOrder(db.reservations[rid], rid, key, price)], keys := map[key := oid])
    case TApply(u, oid, code, limit, d) =>
      NoWrites.(promotions := map[code := Used(db.promotions[code])],
                orders := map[oid := WithDiscount(db.orders[oid], code, d)])
    case TPay(oid, ref, amount) => NoWrites.(payments := map[ref := Payment(oid, Pending, amount, None)])
    case TConfirm(ev) => ConfirmRows(db, ev)
    case TRedeem(u, code, now) =>
      NoWrites.(coupons := map[code := AsRedeemed(db.coupons[code], now)],
                redemptions := [Redemption(code, u, RedeemedAction)])
    case TLog(u, code, action) => NoWrites.(redemptions := [Redemption(code, u, action)])
    case TPrice(p, cents) => NoWrites.(prices := map[p := cents])
    case TPromotion(code, active, limit, endsAt) =>
      NoWrites.(promotions := map[code := EditPromotion(db, code, active, limit, endsAt).promotions[code]])
    case TRestock(p, n) => NoWrites.(inventory := map[p := Stock.Restock(db.inventory[p], n)])
    case TReconcile(p) => NoWrites.(inventory := map[p := Stock.Reconcile(db.inventory[p])])
  }

  function TicketEntries(ts: seq<Ticket>): set<Lock> {
    set i | 0 <= i < |ts| :: TicketEntry(ts[i].code)
  }

  /** The locks a session must hold to commit the transaction. */
  function Footprint(db: Db, t: Txn): set<Lock>
    requires Enabled(db, t)
  {
    match t
    case TCreate(_, p, _, _, rid) => {InventoryRow(p), ReservationRow(rid)}
    case TCancel(rid, _) => {ReservationRow(rid), InventoryRow(db.reservations[rid].productId)}
    case TExpire(rid, _) => {ReservationRow(rid), InventoryRow(db.reservations[rid].productId)}
    case TCheckout(_, rid, key, oid, _) => {ReservationRow(rid), OrderRow(oid), KeyEntry(key)}
    case TApply(_, oid, code, _, _) => {PromotionRow(code), OrderRow(oid)}
    case TPay(_, ref, _) => {PaymentRow(ref)}
    case TConfirm(ev) => ConfirmFootprint(db, ev)
    case TRedeem(_, code, _) => {CouponRow(code)}
    case TLog(_, _, _) => {}
    case TPrice(_, _) => {}
    case TPromotion(code, _, _, _) => {PromotionRow(code)}
    case TRestock(p, _) => {InventoryRow(p)}
    case TReconcile(p) => {InventoryRow(p)}
  }

  function ConversionLocks(db: Db, rid: int): set<Lock> {
    if StillActive(db, rid) then {ReservationRow(rid), InventoryRow(db.reservations[rid].productId)} else {}
  }

  function ConfirmFootprint(db: Db, ev: Event): set<Lock>
    requires ev.ref in db.payments && db.payments[ev.ref].orderId in db.orders
  {
    var oid := db.payments[ev.ref].orderId;
    {PaymentRow(ev.ref), EventEntry(ev.ref.provider, ev.eventId)} +
    if ev.success then
      {OrderRow(oid)} + ConversionLocks(db, db.orders[oid].reservationId)
      + (if EarnsCoupon(db, oid) then {CouponRow(ev.draws.couponCode)} else {})
      + TicketEntries(TicketRows(db, oid, ev.draws))
    else {}
  }

  lemma MergeOne<K, V>(m: map<K, V>, k: K, v: V)
    ensures m + map[k := v] == m[k := v]
  {}

  lemma ReservationEffectIsRows(db: Db, t: Txn)
    requires Enabled(db, t) && (t.TCreate? || t.TCancel? || t.TExpire?)
    ensures Effect(db, t) == Merge(db, Rows(db, t))
  {
    MergeWithNothing(db);
    var w := Rows(db, t);
    var p := if t.TCreate? then t.productId else db.reservations[t.rid].productId;
    MergeOne(db.inventory, p, w.inventory[p]);
    MergeOne(db.reservations, t.rid, w.reservations[t.rid]);
  }

  lemma OrderEffectIsRows(db: Db, t: Txn)
    requires StockInv(db.inventory, db.reservations)
    requires forall q :: q in db.payments ==> db.payments[q].orderId in db.orders
    requires Enabled(db, t) && (t.TCheckout? || t.TApply? || t.TPay? || t.TConfirm?)
    ensures Effect(db, t) == Merge(db, Rows(db, t))
  {
    match t
    case TConfirm(ev) => ConfirmIsRows(db, ev);
    case TPay(oid, ref, amount) =>
      MergeWithNothing(db);
      MergeOne(db.payments, ref, Rows(db, t).payments[ref]);
    case TCheckout(_, _, _, _, _) => CheckoutEffectIsRows(db, t);
    case TApply(_, _, _, _, _) => ApplyEffectIsRows(db, t);
  }

  lemma CheckoutEffectIsRows(db: Db, t: Txn)
    requires t.TCheckout? && Enabled(db, t)
    ensures Effect(db, t) == Merge(db, Rows(db, t))
  {
    MergeWithNothing(db);
    MergeOne(db.orders, t.oid, Rows(db, t).orders[t.oid]);
    MergeOne(db.keys, t.key, t.oid);
  }

  lemma ApplyEffectIsRows(db: Db, t: Txn)
    requires t.TApply? && Enabled(db, t)
    ensures Effect(db, t) == Merge(db, Rows(db, t))
  {
    MergeWithNothing(db);
    MergeOne(db.orders, t.oid, Rows(db, t).orders[t.oid]);
    MergeOne(db.promotions, t.code, Rows(db, t).promotions[t.code]);
  }

  lemma OtherEffectIsRows(db: Db, t: Txn)
    requires Enabled(db, t) && (t.TRedeem? || t.TLog? || t.TPrice? || t.TPromotion? || t.TRestock? || t.TReconcile?)
    ensures Effect(db, t) == Merge(db, Rows(db, t))
  {
    if t.TRestock? || t.TReconcile? {
      CorrectionIsRows(db, t);
    } else {
      MergeWithNothing(db);
      match t
      case TRedeem(u, code, now) => MergeOne(db.coupons, code, Rows(db, t).coupons[code]);
      case TLog(u, code, action) =>
      case TPrice(p, cents) => MergeOne(db.prices, p, cents);
      case TPromotion(code, active, limit, endsAt) => MergeOne(db.promotions, code, Rows(db, t).promotions[code]);
    }
  }

  lemma CorrectionIsRows(db: Db, t: Txn)
    requires Enabled(db, t) && (t.TRestock? || t.TReconcile?)
    ensures Effect(db, t) == Merge(db, Rows(db, t))
  {
    MergeWithNothing(db);
    MergeOne(db.inventory, t.productId, Rows(db, t).inventory[t.productId]);
  }

  /** An enabled transaction is the merge of its rows. */
  lemma EffectIsRows(db: Db, t: Txn)
    requires StockInv(db.inventory, db.reservations)
    requires forall q :: q in db.payments ==> db.payments[q].orderId in db.orders
    requires Enabled(db, t)
    ensures Effect(db, t) == Merge(db, Rows(db, t))
  {
    if t.TCreate? || t.TCancel? || t.TExpire? {
      ReservationEffectIsRows(db, t);
    } else if t.TCheckout? || t.TApply? || t.TPay? || t.TConfirm? {
      OrderEffectIsRows(db, t);
    } else {
      OtherEffectIsRows(db, t);
    }
  }
}
