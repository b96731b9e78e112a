/** Pending payments of an order (backend/src/payments/payment.service.ts). */
module Pending {
  import opened Common
  import opened Schema
  import opened Services
  import opened Invariants
  import opened Settlement
  import opened Footprints
  import opened Ledger

  predicate IsPending(payments: map<PaymentRef, Payment>, q: PaymentRef, oid: int) {
    q in payments && payments[q].orderId == oid && payments[q].status.Pending?
  }

  /** The order has one pending payment at most. */
  ghost predicate OnePending(payments: map<PaymentRef, Payment>, oid: int) {
    forall q, q' :: IsPending(payments, q, oid) && IsPending(payments, q', oid) ==> q == q'
  }

  lemma InsertKeepsOneIff(payments: map<PaymentRef, Payment>, oid: int, ref: PaymentRef, p: Payment)
    requires OnePending(payments, oid) && ref !in payments && p.status.Pending?
    ensures OnePending(payments[ref := p], oid) <==> !(p.orderId == oid && HasPending(payments, oid))
  {
    var payments' := payments[ref := p];
    if p.orderId == oid && HasPending(payments, oid) {
      var q :| q in payments.Keys && payments[q].orderId == oid && payments[q].status.Pending?;
      assert IsPending(payments', q, oid) && IsPending(payments', ref, oid);
    } else {
      forall q, q' | IsPending(payments', q, oid) && IsPending(payments', q', oid) ensures q == q' {
        if q != ref { assert IsPending(payments, q, oid) && q in payments.Keys; }
        if q' != ref { assert IsPending(payments, q', oid) && q' in payments.Keys; }
      }
    }
  }

  lemma OthersInsertNone(db: Db, x: Txn)
    requires Enabled(db, x) && !x.TPay? && !x.TConfirm?
    ensures Effect(db, x).payments == db.payments
  {}

  lemma ClaimKeepsOne(db: Db, ev: Event, oid: int)
    requires Inv(db) && Accepts(db, ev) && OnePending(db.payments, oid)
    ensures OnePending(Effect(db, TConfirm(ev)).payments, oid)
  {
    AcceptedTables(db, ev);
    ClaimedKeepsOne(db.payments, ev, oid);
  }

  lemma ClaimedKeepsOne(payments: map<PaymentRef, Payment>, ev: Event, oid: int)
    requires ev.ref in payments && OnePending(payments, oid)
    ensures OnePending(payments[ev.ref := Claimed(payments[ev.ref], ev)], oid)
  {
    var payments' := payments[ev.ref := Claimed(payments[ev.ref], ev)];
    forall q, q' | IsPending(payments', q, oid) && IsPending(payments', q', oid) ensures q == q' {
      assert IsPending(payments, q, oid) && IsPending(payments, q', oid);
    }
  }

  /** Exactly one transaction breaks it: inserting a payment for the order while it has a pending one. */
  lemma OnePendingKeptIff(db: Db, x: Txn, oid: int)
    requires Inv(db) && Enabled(db, x) && OnePending(db.payments, oid)
    ensures OnePending(Effect(db, x).payments, oid) <==> !(x.TPay? && x.oid == oid && HasPending(db.payments, oid))
  {
    if x.TPay? {
      InsertKeepsOneIff(db.payments, oid, x.ref, Payment(x.oid, Pending, x.amountCents, None));
    } else if x.TConfirm? {
      ClaimKeepsOne(db, x.ev, oid);
    } else {
      OthersInsertNone(db, x);
    }
  }
}
