/** What never changes back: the order in which rows may evolve, and that every transaction respects it. */
module Progress {
  import opened Common
  import opened Schema
  import opened Sums
  import opened Services
  import opened Invariants
  import opened Kept
  import opened Settlement
  import opened ConfirmKept
  import Stock

  /** The terms of a reservation are fixed, and an ended one is frozen. */
  predicate ReservationLater(r: Reservation, r': Reservation) {
    && r'.(status := r.status, releasedAt := r.releasedAt) == r
    && (Ended(r) ==> r' == r)
  }

  /** An order's deal is fixed; its total only falls, at most once; once paid only `paidAt` moves. */
  predicate OrderLater(o: Order, o': Order) {
    && o'.userId == o.userId && o'.idempotencyKey == o.idempotencyKey && o'.reservationId == o.reservationId
    && o'.subtotalCents == o.subtotalCents && o'.items == o.items
    && o'.totalCents <= o.totalCents
    && (o.discountCents > 0 ==>
          o'.discountCents == o.discountCents && o'.discountCode == o.discountCode && o'.totalCents == o.totalCents)
    && (o.status.OrderPaid? ==> o' == o.(paidAt := o'.paidAt))
  }

  /** A payment keeps its order and amount; PAID and CANCELLED are final. */
  predicate PaymentLater(p: Payment, p': Payment) {
    && p'.orderId == p.orderId && p'.amountCents == p.amountCents
    && (Closed(p) ==> p' == p)
  }

  /** Administration moves activity, end and limit; redemptions only count up; the rest is fixed. */
  predicate PromotionLater(p: Promotion, p': Promotion) {
    && p'.(active := p.active, endsAt := p.endsAt, maxRedemptions := p.maxRedemptions,
           usedRedemptions := p.usedRedemptions) == p
    && p'.usedRedemptions >= p.usedRedemptions
    && (p.maxRedemptions.Some? ==> p'.maxRedemptions.Some?)
  }

  predicate CouponLater(c: Coupon, c': Coupon) {
    && c'.(status := c.status, redeemedAt := c.redeemedAt) == c
    && (c.status.Redeemed? ==> c' == c)
  }

  ghost predicate ReservationsLater(m: map<int, Reservation>, m': map<int, Reservation>) {
    forall r :: r in m ==> r in m' && ReservationLater(m[r], m'[r])
  }

  ghost predicate OrdersLater(m: map<int, Order>, m': map<int, Order>) {
    forall o :: o in m ==> o in m' && OrderLater(m[o], m'[o])
  }

  ghost predicate KeysLater(m: map<string, int>, m': map<string, int>) {
    forall k :: k in m ==> k in m' && m'[k] == m[k]
  }

  ghost predicate PaymentsLater(m: map<PaymentRef, Payment>, m': map<PaymentRef, Payment>) {
    forall q :: q in m ==> q in m' && PaymentLater(m[q], m'[q])
  }

  ghost predicate PromotionsLater(m: map<string, Promotion>, m': map<string, Promotion>) {
    && m'.Keys == m.Keys
    && (forall c :: c in m ==> PromotionLater(m[c], m'[c]))
  }

  ghost predicate CouponsLater(m: map<string, Coupon>, m': map<string, Coupon>) {
    forall c :: c in m ==> c in m' && CouponLater(m[c], m'[c])
  }

  ghost predicate Later(db: Db, db': Db) {
    && db'.inventory.Keys == db.inventory.Keys && db'.prices.Keys == db.prices.Keys
    && ReservationsLater(db.reservations, db'.reservations)
    && OrdersLater(db.orders, db'.orders)
    && KeysLater(db.keys, db'.keys)
    && PaymentsLater(db.payments, db'.payments)
    && PromotionsLater(db.promotions, db'.promotions)
    && db.tickets <= db'.tickets
    && CouponsLater(db.coupons, db'.coupons)
    && db.redemptions <= db'.redemptions
  }

  lemma LaterReflexive(db: Db)
    ensures Later(db, db)
  {}

  lemma OrdersLaterTransitive(a: map<int, Order>, b: map<int, Order>, c: map<int, Order>)
    requires OrdersLater(a, b) && OrdersLater(b, c)
    ensures OrdersLater(a, c)
  {
    forall o | o in a ensures o in c && OrderLater(a[o], c[o]) {
      assert OrderLater(a[o], b[o]) && OrderLater(b[o], c[o]);
    }
  }

  lemma LaterTransitive(a: Db, b: Db, c: Db)
    requires Later(a, b) && Later(b, c)
    ensures Later(a, c)
  {
    OrdersLaterTransitive(a.orders, b.orders, c.orders);
    assert PaymentsLater(a.payments, c.payments);
    assert PromotionsLater(a.promotions, c.promotions);
    assert CouponsLater(a.coupons, c.coupons);
  }

  // ---- one lemma per transaction ----

  lemma PayingIsLater(orders: map<int, Order>, reservations: map<int, Reservation>, oid: int, paidAt: int)
    requires oid in orders && OrderOk(orders[oid], reservations)
    ensures OrdersLater(orders, orders[oid := PaidOrder(orders[oid], paidAt)])
  {}

  lemma ConvertingIsLater(db: Db, rid: int)
    ensures ReservationsLater(db.reservations, db.reservations + ConvertedRows(db, rid))
  {}

  lemma RewardingIsLater(db: Db, oid: int, d: Draws)
    requires oid in db.orders
    requires EarnsCoupon(db, oid) ==> d.couponCode !in db.coupons
    ensures CouponsLater(db.coupons, db.coupons + CouponRows(db, oid, d))
  {}

  lemma ClaimIsLater(payments: map<PaymentRef, Payment>, ev: Event)
    requires ev.ref in payments && !Closed(payments[ev.ref])
    ensures PaymentsLater(payments, payments[ev.ref := Claimed(payments[ev.ref], ev)])
  {}

  lemma ConfirmLater(db: Db, ev: Event)
    requires Inv(db)
    ensures Later(db, ConfirmPayment(db, ev).db)
  {
    LaterReflexive(db);
    if ev.ref in db.payments { assert PaymentOk(db.payments[ev.ref], db.orders); }
    ConfirmIsRows(db, ev);
    if Accepts(db, ev) {
      AcceptedIsLater(db, ev);
    }
  }

  lemma AcceptedIsLater(db: Db, ev: Event)
    requires Inv(db) && Accepts(db, ev)
    ensures Later(db, Merge(db, ConfirmRows(db, ev)))
  {
    var oid := db.payments[ev.ref].orderId;
    ClaimIsLater(db.payments, ev);
    assert OrderOk(db.orders[oid], db.reservations);
    if ev.success {
      SuccessIsLater(db, ev, oid);
    } else {
      LaterReflexive(db);
      MergeFailure(db, ev);
    }
  }

  lemma SuccessIsLater(db: Db, ev: Event, oid: int)
    requires StockInv(db.inventory, db.reservations) && Accepts(db, ev) && ev.success
    requires oid == db.payments[ev.ref].orderId && OrderOk(db.orders[oid], db.reservations)
    ensures Later(db, Merge(db, ConfirmRows(db, ev)))
  {
    var rid := db.orders[oid].reservationId;
    LaterReflexive(db);
    ClaimIsLater(db.payments, ev);
    ConversionKeepsStock(db, rid);
    PayingIsLater(db.orders, db.reservations, oid, ev.draws.paidAt);
    ConvertingIsLater(db, rid);
    RewardingIsLater(db, oid, ev.draws);
    MergeConfirm(db, ev);
    assert db.orders + ConfirmRows(db, ev).orders == db.orders[oid := PaidOrder(db.orders[oid], ev.draws.paidAt)];
  }

  lemma ClaimDiscountLater(db: Db, userId: int, oid: int, code: string, limit: Option<int>, discount: int)
    requires Inv(db)
    ensures Later(db, ClaimDiscount(db, userId, oid, code, limit, discount).db)
  {
    LaterReflexive(db);
    var db' := ClaimDiscount(db, userId, oid, code, limit, discount).db;
    if db' != db {
      assert OrderOk(db.orders[oid], db.reservations);
      assert OrdersLater(db.orders, db'.orders);
      assert PromotionsLater(db.promotions, db'.promotions);
    }
  }

  lemma RecordPaymentKeeps(db: Db, oid: int, ref: PaymentRef, amountCents: int)
    requires Inv(db)
    requires oid in db.orders ==> AmountOk(amountCents, db.orders[oid])
    ensures Inv(RecordPayment(db, oid, ref, amountCents).db)
  {
    var db' := RecordPayment(db, oid, ref, amountCents).db;
    if db' != db {
      NewPaymentFits(db.payments, db.orders, ref, Payment(oid, Pending, amountCents, None));
    }
  }

  lemma NewPaymentFits(payments: map<PaymentRef, Payment>, orders: map<int, Order>, ref: PaymentRef, p: Payment)
    requires PaymentInv(payments, orders)
    requires ref !in payments && p.status.Pending? && p.rawEventId.None? && PaymentOk(p, orders)
    ensures PaymentInv(payments[ref := p], orders)
  {
    var payments' := payments[ref := p];
    forall q, q', e | HoldsEvent(payments', q, e) && HoldsEvent(payments', q', e) && q.provider == q'.provider
      ensures q == q'
    {
      assert HoldsEvent(payments, q, e) && HoldsEvent(payments, q', e);
    }
    forall o | o in orders && orders[o].status.OrderPaid? ensures HasPaidPayment(payments', o) {
      var q :| q in payments.Keys && payments[q].orderId == o && payments[q].status.Paid?;
      assert q in payments'.Keys;
    }
  }

  lemma LogRowFits(redemptions: seq<Redemption>, coupons: map<string, Coupon>, row: Redemption)
    requires LogInv(redemptions, coupons) && row.couponCode in coupons && row.action != RedeemedAction
    ensures LogInv(redemptions + [row], coupons)
  {
    forall c | c in coupons
      ensures Count(redemptions + [row], RedemptionOf(c)) == Count(redemptions, RedemptionOf(c))
    {
      CountConcat(redemptions, [row], RedemptionOf(c));
      CountUniform([row], RedemptionOf(c), false);
    }
  }

  lemma LogKeeps(db: Db, userId: int, code: string, action: Action)
    requires Inv(db) && code in db.coupons && action != RedeemedAction
    ensures Inv(Log(db, userId, code, action)) && Later(db, Log(db, userId, code, action))
  {
    LaterReflexive(db);
    LogRowFits(db.redemptions, db.coupons, Redemption(code, userId, action));
  }

  lemma RedeemKeepsLog(db: Db, userId: int, code: string, now: int)
    requires LogInv(db.redemptions, db.coupons) && code in db.coupons && db.coupons[code].status.Redeemable?
    ensures LogInv(db.redemptions + [Redemption(code, userId, RedeemedAction)],
                   db.coupons[code := AsRedeemed(db.coupons[code], now)])
  {
    var row := Redemption(code, userId, RedeemedAction);
    forall c | c in db.coupons
      ensures Count(db.redemptions + [row], RedemptionOf(c))
        == Count(db.redemptions, RedemptionOf(c)) + if c == code then 1 else 0
    {
      CountConcat(db.redemptions, [row], RedemptionOf(c));
      CountUniform([row], RedemptionOf(c), c == code);
    }
  }

  lemma RedeemKeepsCoupons(db: Db, code: string, now: int)
    requires CouponInv(db.coupons, db.orders, db.promotions) && code in db.coupons
    ensures CouponInv(db.coupons[code := AsRedeemed(db.coupons[code], now)], db.orders, db.promotions)
  {
    var coupons' := db.coupons[code := AsRedeemed(db.coupons[code], now)];
    forall o | o in db.orders && HasCoupon(db.coupons, o) ensures HasCoupon(coupons', o) {
      var c :| c in db.coupons.Keys && db.coupons[c].orderId == o;
      assert c in coupons'.Keys;
    }
    forall c | c in coupons' ensures CouponOk(coupons'[c], db.orders, db.promotions) {
      assert CouponOk(db.coupons[c], db.orders, db.promotions);
    }
  }

  lemma RedemptionKeeps(db: Db, userId: int, code: string, now: int)
    requires Inv(db) && code in db.coupons && db.coupons[code].status.Redeemable?
    ensures Inv(Log(db.(coupons := db.coupons[code := AsRedeemed(db.coupons[code], now)]), userId, code,
      RedeemedAction))
  {
    RedeemKeepsCoupons(db, code, now);
    RedeemKeepsLog(db, userId, code, now);
  }

  /** What a redemption leaves: a log row at most, or the redeemed coupon with its row. */
  lemma RedeemIs(db: Db, userId: int, code: string, now: int, stored: bool)
    ensures var db' := RedeemCoupon(db, userId, code, now, stored).db;
      if code !in db.coupons then db' == db
      else if db.coupons[code].expiresAt < now || db.coupons[code].status.Redeemed? then
        var action := if db.coupons[code].expiresAt < now then ExpiredAction else ConflictAction;
        db' == if stored then Log(db, userId, code, action) else db
      else
        db' == Log(db.(coupons := db.coupons[code := AsRedeemed(db.coupons[code], now)]), userId, code, RedeemedAction)
  {}

  lemma RedeemKeeps(db: Db, userId: int, code: string, now: int, stored: bool)
    requires Inv(db)
    ensures Inv(RedeemCoupon(db, userId, code, now, stored).db)
  {
    RedeemIs(db, userId, code, now, stored);
    if code in db.coupons {
      if db.coupons[code].expiresAt < now || db.coupons[code].status.Redeemed? {
        LogKeeps(db, userId, code, if db.coupons[code].expiresAt < now then ExpiredAction else ConflictAction);
      } else {
        RedemptionKeeps(db, userId, code, now);
      }
    }
  }

  lemma CouponRowLater(coupons: map<string, Coupon>, code: string, now: int)
    requires code in coupons && coupons[code].status.Redeemable?
    ensures CouponsLater(coupons, coupons[code := AsRedeemed(coupons[code], now)])
  {}

  lemma LogLater(db: Db, userId: int, code: string, action: Action)
    ensures Later(db, Log(db, userId, code, action))
  {
    LaterReflexive(db);
  }

  lemma CouponWriteLater(db: Db, code: string, now: int)
    requires code in db.coupons && db.coupons[code].status.Redeemable?
    ensures Later(db, db.(coupons := db.coupons[code := AsRedeemed(db.coupons[code], now)]))
  {
    LaterReflexive(db);
    CouponRowLater(db.coupons, code, now);
  }

  lemma RedemptionLater(db: Db, userId: int, code: string, now: int)
    requires code in db.coupons && db.coupons[code].status.Redeemable?
    ensures Later(db,
      Log(db.(coupons := db.coupons[code := AsRedeemed(db.coupons[code], now)]), userId, code, RedeemedAction))
  {
    var claimed := db.(coupons := db.coupons[code := AsRedeemed(db.coupons[code], now)]);
    CouponWriteLater(db, code, now);
    LogLater(claimed, userId, code, RedeemedAction);
    LaterTransitive(db, claimed, Log(claimed, userId, code, RedeemedAction));
  }

  lemma RedeemIsLater(db: Db, userId: int, code: string, now: int, stored: bool)
    ensures Later(db, RedeemCoupon(db, userId, code, now, stored).db)
  {
    RedeemIs(db, userId, code, now, stored);
    LaterReflexive(db);
    if code in db.coupons {
      if db.coupons[code].expiresAt < now || db.coupons[code].status.Redeemed? {
        LogLater(db, userId, code, if db.coupons[code].expiresAt < now then ExpiredAction else ConflictAction);
      } else {
        RedemptionLater(db, userId, code, now);
      }
    }
  }

  lemma EditKeepsCoupons(db: Db, code: string, active: bool, limit: Option<int>, endsAt: int)
    requires CouponInv(db.coupons, db.orders, db.promotions)
    ensures CouponInv(db.coupons, db.orders, EditPromotion(db, code, active, limit, endsAt).promotions)
  {
    var promotions' := EditPromotion(db, code, active, limit, endsAt).promotions;
    forall c | c in db.coupons ensures CouponOk(db.coupons[c], db.orders, promotions') {
      assert CouponOk(db.coupons[c], db.orders, db.promotions);
    }
  }

  lemma EditPromotionKeeps(db: Db, code: string, active: bool, limit: Option<int>, endsAt: int)
    requires Inv(db)
    ensures Inv(EditPromotion(db, code, active, limit, endsAt))
  {
    EditKeepsCoupons(db, code, active, limit, endsAt);
  }

  lemma EditPromotionLater(db: Db, code: string, active: bool, limit: Option<int>, endsAt: int)
    ensures Later(db, EditPromotion(db, code, active, limit, endsAt))
  {
    LaterReflexive(db);
    assert PromotionsLater(db.promotions, EditPromotion(db, code, active, limit, endsAt).promotions);
  }

  lemma ReservationRowLater(reservations: map<int, Reservation>, rid: int, r: Reservation)
    requires rid in reservations && ReservationLater(reservations[rid].(status := Active), r)
    ensures !Ended(reservations[rid]) ==> ReservationsLater(reservations, reservations[rid := r])
  {}

  lemma CreateIsLater(db: Db, userId: int, productId: int, quantity: int, expiresAt: int, rid: int)
    ensures Later(db, CreateReservation(db, userId, productId, quantity, expiresAt, rid).db)
  {
    LaterReflexive(db);
  }

  lemma CancelIsLater(db: Db, rid: int, now: int)
    ensures Later(db, CancelReservation(db, rid, now).db)
  {
    if rid in db.reservations && !Ended(db.reservations[rid]) {
      var r := db.reservations[rid];
      var claimed := SetReservation(db, rid, r.(status := Cancelled, releasedAt := Some(now)));
      ReservationRowLater(db.reservations, rid, r.(status := Cancelled, releasedAt := Some(now)));
      ReservationsWrittenLater(db, claimed);
      ReleaseIsLater(db, claimed, r.productId, r.quantity);
    }
    LaterReflexive(db);
  }

  lemma ExpireIsLater(db: Db, rid: int, now: int)
    ensures Later(db, ExpireReservation(db, rid, now).db)
  {
    if rid in db.reservations && !Ended(db.reservations[rid]) {
      var r := db.reservations[rid];
      var claimed := SetReservation(db, rid, r.(status := Expired, releasedAt := Some(now)));
      ReservationRowLater(db.reservations, rid, r.(status := Expired, releasedAt := Some(now)));
      ReservationsWrittenLater(db, claimed);
      ReleaseIsLater(db, claimed, r.productId, r.quantity);
    } else {
      LaterReflexive(db);
    }
  }

  lemma ReservationsWrittenLater(db: Db, db': Db)
    requires db' == db.(reservations := db'.reservations) && ReservationsLater(db.reservations, db'.reservations)
    ensures Later(db, db')
  {
    LaterReflexive(db);
  }

  lemma ReleaseIsLater(db: Db, db': Db, productId: int, quantity: int)
    requires Later(db, db')
    ensures ReleaseStock(db', productId, quantity).Some? ==> Later(db, ReleaseStock(db', productId, quantity).value)
  {}

  lemma StockRowFits(inventory: map<int, Inventory>, reservations: map<int, Reservation>, p: int, i: Inventory)
    requires StockInv(inventory, reservations) && p in inventory
    requires i.reservedStock == inventory[p].reservedStock && i.soldStock == inventory[p].soldStock
    requires i.availableStock >= 0 && Stock.Balanced(i)
    ensures StockInv(inventory[p := i], reservations) && inventory[p := i].Keys == inventory.Keys
  {
    var inventory' := inventory[p := i];
    forall p' | p' in inventory' ensures StockRow(inventory'[p'], reservations, p') {
      assert StockRow(inventory[p'], reservations, p');
    }
  }

  /** Replacing stock rows that keep their counters leaves everything else alone. */
  lemma StockWriteKeeps(db: Db, db': Db)
    requires Inv(db) && db' == db.(inventory := db'.inventory)
    requires StockInv(db'.inventory, db.reservations) && db'.inventory.Keys == db.inventory.Keys
    ensures Inv(db') && Later(db, db')
  {
    LaterReflexive(db);
  }

  lemma RestockKeeps(db: Db, p: int, additional: int)
    requires Inv(db)
    ensures Inv(RestockProduct(db, p, additional)) && Later(db, RestockProduct(db, p, additional))
  {
    if p in db.inventory {
      assert StockRow(db.inventory[p], db.reservations, p);
      if Stock.ChecksHold(Stock.Restock(db.inventory[p], additional)) {
        StockRowFits(db.inventory, db.reservations, p, Stock.Restock(db.inventory[p], additional));
      }
    }
    StockWriteKeeps(db, RestockProduct(db, p, additional));
  }

  lemma ReconcileKeeps(db: Db, p: int)
    requires Inv(db)
    ensures Inv(ReconcileProduct(db, p)) && Later(db, ReconcileProduct(db, p))
  {
    if p in db.inventory {
      assert StockRow(db.inventory[p], db.reservations, p);
      StockRowFits(db.inventory, db.reservations, p, Stock.Reconcile(db.inventory[p]));
    }
    StockWriteKeeps(db, ReconcileProduct(db, p));
  }

  /** Every transaction keeps the invariants, whatever it had read before it began. */
  lemma EffectKeepsInv(db: Db, t: Txn)
    requires Inv(db) && Admissible(db, t)
    ensures Inv(Effect(db, t))
  {
    if t.TCreate? || t.TCancel? || t.TExpire? || t.TRestock? || t.TReconcile? {
      StockEffectKeeps(db, t);
    } else if t.TCheckout? || t.TApply? || t.TPay? || t.TConfirm? {
      OrderEffectKeeps(db, t);
    } else {
      OtherEffectKeeps(db, t);
    }
  }

  lemma StockEffectKeeps(db: Db, t: Txn)
    requires Inv(db) && (t.TCreate? || t.TCancel? || t.TExpire? || t.TRestock? || t.TReconcile?)
    ensures Inv(Effect(db, t))
  {
    match t
    case TCreate(u, p, q, e, rid) => CreateKeeps(db, u, p, q, e, rid);
    case TCancel(rid, now) => CancelKeeps(db, rid, now);
    case TExpire(rid, now) => ExpireKeeps(db, rid, now);
    case TRestock(p, n) => RestockKeeps(db, p, n);
    case TReconcile(p) => ReconcileKeeps(db, p);
  }

  lemma OrderEffectKeeps(db: Db, t: Txn)
    requires Inv(db) && Admissible(db, t) && (t.TCheckout? || t.TApply? || t.TPay? || t.TConfirm?)
    ensures Inv(Effect(db, t))
  {
    match t
    case TCheckout(u, rid, key, oid, price) => PlaceOrderKeeps(db, u, rid, key, oid, price);
    case TApply(u, oid, code, limit, d) => ClaimDiscountKeeps(db, u, oid, code, limit, d);
    case TPay(oid, ref, amount) => RecordPaymentKeeps(db, oid, ref, amount);
    case TConfirm(ev) => ConfirmKeeps(db, ev);
  }

  lemma OtherEffectKeeps(db: Db, t: Txn)
    requires Inv(db) && Admissible(db, t) && (t.TRedeem? || t.TLog? || t.TPrice? || t.TPromotion?)
    ensures Inv(Effect(db, t))
  {
    match t
    case TRedeem(u, code, now) => RedeemKeeps(db, u, code, now, true);
    case TLog(u, code, action) => LogKeeps(db, u, code, action);
    case TPrice(p, cents) =>
    case TPromotion(code, active, limit, endsAt) => EditPromotionKeeps(db, code, active, limit, endsAt);
  }

  /** Every transaction moves rows forward only. */
  lemma EffectIsLater(db: Db, t: Txn)
    requires Inv(db) && Admissible(db, t)
    ensures Later(db, Effect(db, t))
  {
    if t.TCreate? || t.TCancel? || t.TExpire? || t.TRestock? || t.TReconcile? {
      StockEffectIsLater(db, t);
    } else if t.TCheckout? || t.TApply? || t.TPay? || t.TConfirm? {
      OrderEffectIsLater(db, t);
    } else {
      OtherEffectIsLater(db, t);
    }
  }

  lemma StockEffectIsLater(db: Db, t: Txn)
    requires Inv(db) && (t.TCreate? || t.TCancel? || t.TExpire? || t.TRestock? || t.TReconcile?)
    ensures Later(db, Effect(db, t))
  {
    match t
    case TCreate(u, p, q, e, rid) => CreateIsLater(db, u, p, q, e, rid);
    case TCancel(rid, now) => CancelIsLater(db, rid, now);
    case TExpire(rid, now) => ExpireIsLater(db, rid, now);
    case TRestock(p, n) => RestockKeeps(db, p, n);
    case TReconcile(p) => ReconcileKeeps(db, p);
  }

  lemma OrderEffectIsLater(db: Db, t: Txn)
    requires Inv(db) && (t.TCheckout? || t.TApply? || t.TPay? || t.TConfirm?)
    ensures Later(db, Effect(db, t))
  {
    match t
    case TApply(u, oid, code, limit, d) => ClaimDiscountLater(db, u, oid, code, limit, d);
    case TConfirm(ev) => ConfirmLater(db, ev);
    case TCheckout(u, rid, key, oid, price) => PlaceOrderLater(db, u, rid, key, oid, price);
    case TPay(oid, ref, amount) => RecordPaymentLater(db, oid, ref, amount);
  }

  lemma PlaceOrderLater(db: Db, userId: int, rid: int, key: string, oid: int, price: int)
    ensures Later(db, PlaceOrder(db, userId, rid, key, oid, price).db)
  {
    LaterReflexive(db);
  }

  lemma RecordPaymentLater(db: Db, oid: int, ref: PaymentRef, amountCents: int)
    ensures Later(db, RecordPayment(db, oid, ref, amountCents).db)
  {
    LaterReflexive(db);
  }

  lemma OtherEffectIsLater(db: Db, t: Txn)
    requires t.TRedeem? || t.TLog? || t.TPrice? || t.TPromotion?
    ensures Later(db, Effect(db, t))
  {
    match t
    case TRedeem(u, code, now) => RedeemIsLater(db, u, code, now, true);
    case TLog(u, code, action) => LogLater(db, u, code, action);
    case TPromotion(code, active, limit, endsAt) => EditPromotionLater(db, code, active, limit, endsAt);
    case TPrice(p, cents) => SetPriceLater(db, p, cents);
  }

  lemma SetPriceLater(db: Db, productId: int, cents: int)
    ensures Later(db, SetPrice(db, productId, cents))
  {
    LaterReflexive(db);
  }
}
