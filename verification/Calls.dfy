/** A whole service call run with nothing beside it. */
module Calls {
  import opened Common
  import opened Schema
  import opened Discount
  import opened Services
  import opened Invariants
  import opened Kept
  import opened ConfirmKept
  import opened Progress
  import opened Footprints
  import opened Machine

  /** The database it leaves and its reply. A sweep is not one transaction; see Sweep. */
  function Call(db: Db, req: Request): Outcome
    requires !req.Sweep?
  {
    match req
    case Create(userId, productId, quantity, expiresAt, rid) =>
      CreateReservation(db, userId, productId, quantity, expiresAt, rid)
    case Cancel(rid, now) => CancelReservation(db, rid, now)
    case PlaceCheckout(userId, rid, key, oid) => Checkout(db, userId, rid, key, oid)
    case Apply(userId, oid, code, now) => ApplyCode(db, userId, oid, code, now)
    case Pay(oid, provider, charge) => CreatePayment(db, oid, provider, charge)
    case Confirm(ev) => ConfirmPayment(db, ev)
    case Redeem(userId, code, now, stored) => RedeemCoupon(db, userId, code, now, stored)
  }

  lemma CheckoutKeeps(db: Db, userId: int, rid: int, key: string, oid: int)
    requires Inv(db)
    ensures Inv(Checkout(db, userId, rid, key, oid).db)
  {
    if Purchasable(db, userId, rid).Ok? && db.reservations[rid].productId in db.prices {
      PlaceOrderKeeps(db, userId, rid, key, oid, db.prices[db.reservations[rid].productId]);
    }
  }

  lemma ApplyKeeps(db: Db, userId: int, oid: int, code: string, now: int)
    requires Inv(db)
    ensures Inv(ApplyCode(db, userId, oid, code, now).db)
  {
    if code in db.promotions && oid in db.orders {
      var p, o := db.promotions[code], db.orders[oid];
      ClaimDiscountKeeps(db, userId, oid, code, p.maxRedemptions, ComputeDiscount(p, o.subtotalCents, o.items));
    }
  }

  lemma PayKeeps(db: Db, oid: int, provider: string, charge: Option<string>)
    requires Inv(db)
    ensures Inv(CreatePayment(db, oid, provider, charge).db)
  {
    if oid in db.orders && charge.Some? {
      assert OrderOk(db.orders[oid], db.reservations);
      RecordPaymentKeeps(db, oid, PaymentRef(provider, charge.value), db.orders[oid].totalCents);
    }
  }

  /** Every call keeps the invariants. */
  lemma CallKeepsInv(db: Db, req: Request)
    requires Inv(db) && !req.Sweep?
    ensures Inv(Call(db, req).db)
  {
    match req
    case Create(userId, productId, quantity, expiresAt, rid) =>
      CreateKeeps(db, userId, productId, quantity, expiresAt, rid);
    case Cancel(rid, now) => CancelKeeps(db, rid, now);
    case PlaceCheckout(userId, rid, key, oid) => CheckoutKeeps(db, userId, rid, key, oid);
    case Apply(userId, oid, code, now) => ApplyKeeps(db, userId, oid, code, now);
    case Pay(oid, provider, charge) => PayKeeps(db, oid, provider, charge);
    case Confirm(ev) => ConfirmKeeps(db, ev);
    case Redeem(userId, code, now, stored) => RedeemKeeps(db, userId, code, now, stored);
  }

  /** A refused call changes nothing; only a refused redemption may leave a log row. */
  lemma RefusedLeavesNothing(db: Db, req: Request)
    requires !req.Sweep? && !req.Redeem? && Call(db, req).reply.Refused?
    ensures Call(db, req).db == db
  {
    match req
    case Create(userId, productId, quantity, expiresAt, rid) =>
    case Cancel(rid, now) =>
    case PlaceCheckout(userId, rid, key, oid) =>
    case Apply(userId, oid, code, now) => RefusedCodeLeavesNothing(db, userId, oid, code, now);
    case Pay(oid, provider, charge) =>
    case Confirm(ev) => RefusedEventLeavesNothing(db, ev);
  }

  lemma RefusedCodeLeavesNothing(db: Db, userId: int, oid: int, code: string, now: int)
    requires ApplyCode(db, userId, oid, code, now).reply.Refused?
    ensures ApplyCode(db, userId, oid, code, now).db == db
  {}

  lemma RefusedEventLeavesNothing(db: Db, ev: Event)
    requires ConfirmPayment(db, ev).reply.Refused?
    ensures ConfirmPayment(db, ev).db == db
  {}

  // ---- the transaction a call issues ----

  /** The transaction carries what a call reads on `db`: its price, its limit and discount, its amount, its due time. */
  predicate IssuedOn(db: Db, x: Txn) {
    match x
    case TCheckout(_, rid, key, _, price) =>
      && rid in db.reservations && key !in db.keys
      && var p := db.reservations[rid].productId;
      && p in db.prices && price == db.prices[p]
    case TApply(userId, oid, code, limit, discount) =>
      && code in db.promotions && oid in db.orders
      && var p, o := db.promotions[code], db.orders[oid];
      && p.active && p.startsAt <= p.endsAt && DiscountVerdict(o, userId, code).None?
      && limit == p.maxRedemptions && discount == ComputeDiscount(p, o.subtotalCents, o.items)
    case TPay(oid, _, amount) =>
      && oid in db.orders && db.orders[oid].status.PaymentPending? && amount == db.orders[oid].totalCents
      && !HasPending(db.payments, oid)
    case TExpire(rid, now) => rid in db.reservations && db.reservations[rid].expiresAt <= now
    case _ => true
  }

  /** A call that issues the transaction; a code is used on the last day it may be. */
  function CallOf(db: Db, x: Txn): Request
    requires IssuedOn(db, x)
    requires !x.TExpire? && !x.TLog? && !IsAdmin(x)
  {
    match x
    case TCreate(userId, productId, quantity, expiresAt, rid) => Create(userId, productId, quantity, expiresAt, rid)
    case TCancel(rid, now) => Cancel(rid, now)
    case TCheckout(userId, rid, key, oid, _) => PlaceCheckout(userId, rid, key, oid)
    case TApply(userId, oid, code, _, _) => Apply(userId, oid, code, db.promotions[code].endsAt)
    case TPay(oid, ref, _) => Pay(oid, ref.provider, Some(ref.transactionId))
    case TConfirm(ev) => Confirm(ev)
    case TRedeem(userId, code, now) => Redeem(userId, code, now, true)
  }

  /** With current reads an enabled transaction is what the call does. */
  lemma IssuedIsCall(db: Db, x: Txn)
    requires IssuedOn(db, x) && Enabled(db, x) && !x.TExpire? && !x.TLog? && !IsAdmin(x)
    ensures !CallOf(db, x).Sweep? && Call(db, CallOf(db, x)).db == Effect(db, x)
  {
    match x
    case TCheckout(_, _, _, _, _) => IssuedCheckout(db, x);
    case TApply(_, _, _, _, _) => IssuedApply(db, x);
    case TPay(_, _, _) => IssuedPay(db, x);
    case _ =>
  }

  lemma IssuedCheckout(db: Db, x: Txn)
    requires x.TCheckout? && IssuedOn(db, x) && Enabled(db, x)
    ensures Call(db, CallOf(db, x)).db == Effect(db, x)
  {}

  lemma IssuedApply(db: Db, x: Txn)
    requires x.TApply? && IssuedOn(db, x) && Enabled(db, x)
    ensures Call(db, CallOf(db, x)).db == Effect(db, x)
  {}

  lemma IssuedPay(db: Db, x: Txn)
    requires x.TPay? && IssuedOn(db, x) && Enabled(db, x)
    ensures Call(db, CallOf(db, x)).db == Effect(db, x)
  {
    assert x.ref == PaymentRef(x.ref.provider, x.ref.transactionId);
  }
}
