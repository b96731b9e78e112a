/** What administrative edits mean for the calls after them (backend/src/admin/admin.service.ts). */
module Edits {
  import opened Common
  import opened Schema
  import opened Discount
  import opened Services

  /** An edit of what does not exist changes nothing. */
  lemma UnknownIsLeftAlone(db: Db, productId: int, code: string, n: int, active: bool, limit: Option<int>)
    ensures productId !in db.prices ==> SetPrice(db, productId, n) == db
    ensures code !in db.promotions ==> EditPromotion(db, code, active, limit, n) == db
    ensures productId !in db.inventory ==> RestockProduct(db, productId, n) == db == ReconcileProduct(db, productId)
  {}

  /** A price edit binds the checkouts after it: they charge the new price per unit, and only a positive one. */
  lemma PriceBindsNextCheckout(db: Db, productId: int, cents: int, userId: int, rid: int, key: string, oid: int)
    requires productId in db.prices && key !in db.keys && oid !in db.orders && !OrderKeyTaken(db.orders, key)
    requires Purchasable(db, userId, rid).Ok? && db.reservations[rid].productId == productId
    requires db.reservations[rid].quantity > 0
    ensures var out := Checkout(SetPrice(db, productId, cents), userId, rid, key, oid);
      if cents > 0 then
        && out.reply == Ordered(oid) && oid in out.db.orders
        && out.db.orders[oid].totalCents == cents * db.reservations[rid].quantity
        && out.db.orders[oid].discountCents == 0
        && forall o :: o in db.orders ==> o in out.db.orders && out.db.orders[o] == db.orders[o]
      else out.reply == Refused(CheckViolation)
  {}

  /**
   * After an edit the code is granted to an open order exactly when the edit made it active, its dates hold
   * and its use is below the limit the edit gave, or kept.
   */
  lemma EditBindsNextClaim(db: Db, code: string, active: bool, limit: Option<int>, endsAt: int,
                           userId: int, oid: int, now: int)
    requires code in db.promotions && db.promotions[code].discountValue >= 0
    requires oid in db.orders && OpenForDiscount(db.orders[oid], userId) && db.orders[oid].subtotalCents >= 0
    ensures var p := db.promotions[code];
      var bound := if limit.Some? then limit else p.maxRedemptions;
      var out := ApplyCode(EditPromotion(db, code, active, limit, endsAt), userId, oid, code, now);
      && (out.reply.Discounted? <==>
            active && p.startsAt <= now <= endsAt && (bound.Some? ==> p.usedRedemptions < bound.value))
      && (out.reply.Discounted? ==>
            code in out.db.promotions && out.db.promotions[code].usedRedemptions == p.usedRedemptions + 1)
  {
    DiscountBounds(db.promotions[code], db.orders[oid].subtotalCents, db.orders[oid].items);
    var p' := EditPromotion(db, code, active, limit, endsAt).promotions[code];
    DiscountBounds(p', db.orders[oid].subtotalCents, db.orders[oid].items);
  }
}
