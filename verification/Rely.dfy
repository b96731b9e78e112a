/** What a session may count on while others commit: rows it has locked stand still, all others move forward. */
module Rely {
  import opened Schema
  import opened Services
  import opened Invariants
  import opened Settlement
  import opened Footprints
  import opened Progress

  type LockTable = map<Lock, int>

  predicate Owns(locks: LockTable, t: int, l: Lock) { l in locks && locks[l] == t }

  ghost predicate Same<K, V>(m: map<K, V>, m': map<K, V>, k: K) {
    (k in m <==> k in m') && (k in m ==> m'[k] == m[k])
  }

  ghost predicate StillReservations(db: Db, db': Db, locks: LockTable, t: int) {
    forall r :: Owns(locks, t, ReservationRow(r)) ==>
      Same(db.reservations, db'.reservations, r) && (HasOrderFor(db'.orders, r) ==> HasOrderFor(db.orders, r))
  }

  ghost predicate StillStock(db: Db, db': Db, locks: LockTable, t: int) {
    forall p :: Owns(locks, t, InventoryRow(p)) ==> Same(db.inventory, db'.inventory, p)
  }

  /** A locked order also keeps its tickets and gets no coupon. */
  ghost predicate StillOrders(db: Db, db': Db, locks: LockTable, t: int) {
    forall o :: Owns(locks, t, OrderRow(o)) ==>
      && Same(db.orders, db'.orders, o)
      && TicketsOf(db'.tickets, o) == TicketsOf(db.tickets, o)
      && (HasCoupon(db'.coupons, o) <==> HasCoupon(db.coupons, o))
  }

  ghost predicate StillRows(db: Db, db': Db, locks: LockTable, t: int) {
    && (forall q :: Owns(locks, t, PaymentRow(q)) ==> Same(db.payments, db'.payments, q))
    && (forall c :: Owns(locks, t, PromotionRow(c)) ==> Same(db.promotions, db'.promotions, c))
    && (forall c :: Owns(locks, t, CouponRow(c)) ==> Same(db.coupons, db'.coupons, c))
  }

  /** Entries of unique indexes that others cannot take. */
  ghost predicate StillEntries(db: Db, db': Db, locks: LockTable, t: int) {
    && (forall k :: Owns(locks, t, KeyEntry(k)) ==> Same(db.keys, db'.keys, k))
    && (forall pr, e, q :: Owns(locks, t, EventEntry(pr, e)) && HoldsEvent(db'.payments, q, e) && q.provider == pr ==>
          HoldsEvent(db.payments, q, e))
    && (forall c :: Owns(locks, t, TicketEntry(c)) && CodeUsed(db'.tickets, c) ==> CodeUsed(db.tickets, c))
  }

  ghost predicate Env(db: Db, db': Db, locks: LockTable, t: int) {
    && Later(db, db')
    && StillReservations(db, db', locks, t) && StillStock(db, db', locks, t) && StillOrders(db, db', locks, t)
    && StillRows(db, db', locks, t) && StillEntries(db, db', locks, t)
  }

  /** `t` holds none of the locks in `ls`. */
  predicate Apart(locks: LockTable, t: int, ls: set<Lock>) {
    forall l | l in ls :: !Owns(locks, t, l)
  }

  // ---- a commit by someone else is an Env step, one relation at a time ----

  lemma CommitStillReservations(db: Db, x: Txn, locks: LockTable, t: int)
    requires Enabled(db, x) && Apart(locks, t, Footprint(db, x))
    ensures StillReservations(db, Merge(db, Rows(db, x)), locks, t)
  {
    var w := Rows(db, x);
    forall r | Owns(locks, t, ReservationRow(r))
      ensures Same(db.reservations, (db.reservations + w.reservations), r)
      ensures HasOrderFor(db.orders + w.orders, r) ==> HasOrderFor(db.orders, r)
    {
      assert r !in w.reservations;
      if HasOrderFor(db.orders + w.orders, r) {
        var o :| o in (db.orders + w.orders).Keys && (db.orders + w.orders)[o].reservationId == r;
        assert o in db.orders.Keys && db.orders[o].reservationId == r;
      }
    }
  }

  lemma StockRowsLocked(db: Db, x: Txn, p: int)
    requires Enabled(db, x) && p in Rows(db, x).inventory
    ensures InventoryRow(p) in Footprint(db, x)
  {
    if x.TConfirm? { SoldRowsLocked(db, x.ev, p); }
  }

  lemma SoldRowsLocked(db: Db, ev: Event, p: int)
    requires Accepts(db, ev) && p in ConfirmRows(db, ev).inventory
    ensures InventoryRow(p) in ConfirmFootprint(db, ev)
  {}

  lemma CommitStillStock(db: Db, x: Txn, locks: LockTable, t: int)
    requires Enabled(db, x) && Apart(locks, t, Footprint(db, x))
    ensures StillStock(db, Merge(db, Rows(db, x)), locks, t)
  {
    forall p | Owns(locks, t, InventoryRow(p)) ensures p !in Rows(db, x).inventory {
      if p in Rows(db, x).inventory { StockRowsLocked(db, x, p); }
    }
  }

  lemma CommitStillPayments(db: Db, x: Txn, locks: LockTable, t: int)
    requires Enabled(db, x) && Apart(locks, t, Footprint(db, x))
    ensures forall q :: Owns(locks, t, PaymentRow(q)) ==> Same(db.payments, db.payments + Rows(db, x).payments, q)
  {}

  lemma CommitStillPromotions(db: Db, x: Txn, locks: LockTable, t: int)
    requires Enabled(db, x) && Apart(locks, t, Footprint(db, x))
    ensures forall c :: Owns(locks, t, PromotionRow(c)) ==>
      Same(db.promotions, db.promotions + Rows(db, x).promotions, c)
  {}

  lemma CommitStillCouponRows(db: Db, x: Txn, locks: LockTable, t: int)
    requires Enabled(db, x) && Apart(locks, t, Footprint(db, x))
    ensures forall c :: Owns(locks, t, CouponRow(c)) ==> Same(db.coupons, db.coupons + Rows(db, x).coupons, c)
  {}

  lemma CommitStillRows(db: Db, x: Txn, locks: LockTable, t: int)
    requires Enabled(db, x) && Apart(locks, t, Footprint(db, x))
    ensures StillRows(db, Merge(db, Rows(db, x)), locks, t)
  {
    CommitStillPayments(db, x, locks, t);
    CommitStillPromotions(db, x, locks, t);
    CommitStillCouponRows(db, x, locks, t);
  }

  lemma AddedTicketsOwned(db: Db, x: Txn, i: nat)
    requires Enabled(db, x) && i < |Rows(db, x).tickets|
    ensures TicketEntry(Rows(db, x).tickets[i].code) in Footprint(db, x)
    ensures OrderRow(Rows(db, x).tickets[i].orderId) in Footprint(db, x)
  {}

  lemma CommitStillTickets(db: Db, x: Txn, locks: LockTable, t: int, o: int)
    requires Enabled(db, x) && Apart(locks, t, Footprint(db, x)) && Owns(locks, t, OrderRow(o))
    ensures TicketsOf(db.tickets + Rows(db, x).tickets, o) == TicketsOf(db.tickets, o)
  {
    var added := Rows(db, x).tickets;
    forall i | 0 <= i < |added| ensures added[i].orderId != o { AddedTicketsOwned(db, x, i); }
    TicketsOfConcat(db.tickets, added, o);
    TicketsOfNone(added, o);
  }

  lemma CommitStillCoupons(db: Db, x: Txn, locks: LockTable, t: int, o: int)
    requires Enabled(db, x) && Apart(locks, t, Footprint(db, x)) && Owns(locks, t, OrderRow(o))
    ensures HasCoupon(db.coupons + Rows(db, x).coupons, o) <==> HasCoupon(db.coupons, o)
  {
    var coupons' := db.coupons + Rows(db, x).coupons;
    if HasCoupon(db.coupons, o) {
      var c :| c in db.coupons.Keys && db.coupons[c].orderId == o;
      assert c in coupons'.Keys && coupons'[c].orderId == o;
    }
    if HasCoupon(coupons', o) {
      var c :| c in coupons'.Keys && coupons'[c].orderId == o;
      assert c in db.coupons.Keys && db.coupons[c].orderId == o;
    }
  }

  lemma CommitStillOrders(db: Db, x: Txn, locks: LockTable, t: int)
    requires Enabled(db, x) && Apart(locks, t, Footprint(db, x))
    ensures StillOrders(db, Merge(db, Rows(db, x)), locks, t)
  {
    forall o | Owns(locks, t, OrderRow(o))
      ensures Same(db.orders, db.orders + Rows(db, x).orders, o)
      ensures TicketsOf(db.tickets + Rows(db, x).tickets, o) == TicketsOf(db.tickets, o)
      ensures HasCoupon(db.coupons + Rows(db, x).coupons, o) <==> HasCoupon(db.coupons, o)
    {
      assert o !in Rows(db, x).orders;
      CommitStillTickets(db, x, locks, t, o);
      CommitStillCoupons(db, x, locks, t, o);
    }
  }

  lemma CommitStillKeys(db: Db, x: Txn, locks: LockTable, t: int)
    requires Enabled(db, x) && Apart(locks, t, Footprint(db, x))
    ensures forall k :: Owns(locks, t, KeyEntry(k)) ==> Same(db.keys, db.keys + Rows(db, x).keys, k)
  {}

  lemma CommitStillEvents(db: Db, x: Txn, locks: LockTable, t: int, pr: string, e: string, q: PaymentRef)
    requires Enabled(db, x) && Apart(locks, t, Footprint(db, x))
    requires Owns(locks, t, EventEntry(pr, e)) && q.provider == pr
    requires HoldsEvent(db.payments + Rows(db, x).payments, q, e)
    ensures HoldsEvent(db.payments, q, e)
  {
    assert x.TConfirm? && q == x.ev.ref ==> e != x.ev.eventId;
  }

  lemma CommitStillCodes(db: Db, x: Txn, locks: LockTable, t: int, c: string)
    requires Enabled(db, x) && Apart(locks, t, Footprint(db, x))
    requires Owns(locks, t, TicketEntry(c)) && CodeUsed(db.tickets + Rows(db, x).tickets, c)
    ensures CodeUsed(db.tickets, c)
  {
    var added := Rows(db, x).tickets;
    var i :| 0 <= i < |db.tickets + added| && (db.tickets + added)[i].code == c;
    if i >= |db.tickets| {
      AddedTicketsOwned(db, x, i - |db.tickets|);
    } else {
      assert db.tickets[i].code == c;
    }
  }

  lemma CommitStillEntries(db: Db, x: Txn, locks: LockTable, t: int)
    requires Enabled(db, x) && Apart(locks, t, Footprint(db, x))
    ensures StillEntries(db, Merge(db, Rows(db, x)), locks, t)
  {
    var db' := Merge(db, Rows(db, x));
    CommitStillKeys(db, x, locks, t);
    forall pr, e, q | Owns(locks, t, EventEntry(pr, e)) && HoldsEvent(db'.payments, q, e) && q.provider == pr
      ensures HoldsEvent(db.payments, q, e)
    {
      CommitStillEvents(db, x, locks, t, pr, e, q);
    }
    forall c | Owns(locks, t, TicketEntry(c)) && CodeUsed(db'.tickets, c) ensures CodeUsed(db.tickets, c) {
      CommitStillCodes(db, x, locks, t, c);
    }
  }

  /** A commit whose footprint `t` holds nothing of is a step `t` can count on. */
  lemma CommitIsEnv(db: Db, x: Txn, locks: LockTable, t: int)
    requires Inv(db) && Admissible(db, x)
    requires Enabled(db, x) && Apart(locks, t, Footprint(db, x))
    ensures Env(db, Effect(db, x), locks, t)
  {
    assert forall q :: q in db.payments ==> PaymentOk(db.payments[q], db.orders);
    EffectIsRows(db, x);
    EffectIsLater(db, x);
    CommitStillReservations(db, x, locks, t);
    CommitStillStock(db, x, locks, t);
    CommitStillOrders(db, x, locks, t);
    CommitStillRows(db, x, locks, t);
    CommitStillEntries(db, x, locks, t);
  }
}
