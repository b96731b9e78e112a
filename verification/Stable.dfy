/** What a session knows stays true while other sessions commit. */
module Stable {
  import opened Common
  import opened Schema
  import opened TicketCodes
  import opened Services
  import opened Invariants
  import opened Settlement
  import opened Footprints
  import opened Rely
  import opened Machine
  import opened Progress
  import opened SessionState

  /** `t` still holds all it held. */
  ghost predicate Keeps(t: int, locks: LockTable, locks': LockTable) {
    forall l :: Owns(locks, t, l) ==> Owns(locks', t, l)
  }

  // ---- building blocks ----

  lemma SeenStable(seen: Reservation, rid: int, db: Db, db': Db)
    requires Seen(seen, rid, db) && Later(db, db')
    ensures Seen(seen, rid, db')
  {
    assert ReservationLater(db.reservations[rid], db'.reservations[rid]);
  }

  lemma NoOrderStable(t: int, rid: int, db: Db, db': Db, locks: LockTable)
    requires StillReservations(db, db', locks, t) && Owns(locks, t, ReservationRow(rid)) && !HasOrderFor(db.orders, rid)
    ensures !HasOrderFor(db'.orders, rid)
  {
    assert StillReservations(db, db', locks, t);
  }

  /** An idempotency key free in one table is free in the other. */
  lemma KeyFree(db: Db, key: string)
    requires KeyInv(db.keys, db.orders)
    ensures OrderKeyTaken(db.orders, key) <==> key in db.keys
  {
    if key in db.keys {
      var o := db.keys[key];
      assert o in db.orders.Keys && db.orders[o].idempotencyKey == key;
    }
  }

  lemma IssuesStable(db: Db, db': Db, code: Option<string>)
    requires Later(db, db')
    ensures Issues(db.promotions, code) <==> Issues(db'.promotions, code)
  {
    if code.Some? && code.value in db.promotions {
      assert PromotionLater(db.promotions[code.value], db'.promotions[code.value]);
    }
  }

  lemma ConversionStable(t: int, rid: int, db: Db, db': Db, locks: LockTable)
    requires Env(db, db', locks, t) && rid in db.reservations
    requires forall l :: l in ConversionLocks(db, rid) ==> Owns(locks, t, l)
    ensures StillActive(db', rid) <==> StillActive(db, rid)
    ensures ConversionLocks(db', rid) == ConversionLocks(db, rid)
    ensures ConvertedRows(db', rid) == ConvertedRows(db, rid) && SoldRows(db', rid) == SoldRows(db, rid)
  {
    assert ReservationLater(db.reservations[rid], db'.reservations[rid]);
    if StillActive(db, rid) {
      assert ReservationRow(rid) in ConversionLocks(db, rid);
      assert InventoryRow(db.reservations[rid].productId) in ConversionLocks(db, rid);
    }
  }

  /** Holding an order row fixes whether it earns a coupon, and which. */
  lemma CouponStable(t: int, oid: int, d: Draws, db: Db, db': Db, locks: LockTable)
    requires Env(db, db', locks, t) && oid in db.orders && Owns(locks, t, OrderRow(oid))
    ensures oid in db'.orders && db'.orders[oid] == db.orders[oid]
    ensures EarnsCoupon(db', oid) <==> EarnsCoupon(db, oid)
    ensures CouponRows(db', oid, d) == CouponRows(db, oid, d)
  {
    assert StillOrders(db, db', locks, t);
    IssuesStable(db, db', db.orders[oid].discountCode);
    if EarnsCoupon(db, oid) {
      var code := db.orders[oid].discountCode.value;
      assert PromotionLater(db.promotions[code], db'.promotions[code]);
    }
  }

  lemma CouponCodeStable(t: int, c: string, db: Db, db': Db, locks: LockTable)
    requires Env(db, db', locks, t) && c !in db.coupons && Owns(locks, t, CouponRow(c))
    ensures c !in db'.coupons
  {
    assert StillRows(db, db', locks, t);
  }

  lemma FreshStable(t: int, added: seq<Ticket>, db: Db, db': Db, locks: LockTable)
    requires Env(db, db', locks, t) && FreshCodes(db.tickets, added)
    requires forall i :: 0 <= i < |added| ==> Owns(locks, t, TicketEntry(added[i].code))
    ensures FreshCodes(db'.tickets, added)
  {
    forall i | 0 <= i < |added| ensures !CodeUsed(db'.tickets + added[..i], added[i].code) {
      FreshOneStable(t, added, i, db, db', locks);
    }
  }

  lemma CodeUsedSplit(s: seq<Ticket>, u: seq<Ticket>, c: string)
    ensures CodeUsed(s + u, c) <==> CodeUsed(s, c) || CodeUsed(u, c)
  {
    forall k | 0 <= k < |u| ensures (s + u)[k + |s|] == u[k] {}
    forall k | 0 <= k < |s| ensures (s + u)[k] == s[k] {}
  }

  lemma FreshOneStable(t: int, added: seq<Ticket>, i: nat, db: Db, db': Db, locks: LockTable)
    requires Env(db, db', locks, t) && FreshCodes(db.tickets, added) && i < |added|
    requires Owns(locks, t, TicketEntry(added[i].code))
    ensures !CodeUsed(db'.tickets + added[..i], added[i].code)
  {
    var c := added[i].code;
    assert !CodeUsed(db.tickets + added[..i], c);
    CodeUsedSplit(db.tickets, added[..i], c);
    CodeUsedSplit(db'.tickets, added[..i], c);
    assert StillEntries(db, db', locks, t);
  }

  lemma EventStable(t: int, ev: Event, db: Db, db': Db, locks: LockTable)
    requires Env(db, db', locks, t) && Owns(locks, t, EventEntry(ev.ref.provider, ev.eventId))
    requires !EventTaken(db.payments, ev.ref, ev.eventId)
    ensures !EventTaken(db'.payments, ev.ref, ev.eventId)
  {
    assert StillEntries(db, db', locks, t);
    forall q: PaymentRef | q.provider == ev.ref.provider && HoldsEvent(db'.payments, q, ev.eventId)
      ensures q in db.payments.Keys && HoldsEvent(db.payments, q, ev.eventId)
    {}
  }

  lemma WonStable(t: int, ev: Event, oid: int, db: Db, db': Db, locks: LockTable, locks': LockTable)
    requires PaymentWon(t, ev, oid, db, locks) && Env(db, db', locks, t) && Keeps(t, locks, locks')
    ensures PaymentWon(t, ev, oid, db', locks') && ClaimRows(db', ev) == ClaimRows(db, ev)
    ensures db'.orders[oid].reservationId == db.orders[oid].reservationId
  {
    assert StillRows(db, db', locks, t);
    EventStable(t, ev, db, db', locks);
    assert OrderLater(db.orders[oid], db'.orders[oid]);
  }

  lemma SettledStable(t: int, oid: int, db: Db, db': Db, locks: LockTable, locks': LockTable)
    requires ConversionSettled(t, oid, db, locks) && Env(db, db', locks, t) && Keeps(t, locks, locks')
    requires OrderOk(db.orders[oid], db.reservations)
    ensures ConversionSettled(t, oid, db', locks')
    ensures var rid := db.orders[oid].reservationId;
      && db'.orders[oid].reservationId == rid
      && ConvertedRows(db', rid) == ConvertedRows(db, rid) && SoldRows(db', rid) == SoldRows(db, rid)
  {
    assert OrderLater(db.orders[oid], db'.orders[oid]);
    ConversionStable(t, db.orders[oid].reservationId, db, db', locks);
  }

  /** Payment, reservation and stock rows of a settlement come out the same on both databases. */
  predicate SameSettlement(ev: Event, rid: int, db: Db, db': Db) {
    && ev.ref in db.payments && ev.ref in db'.payments && ClaimRows(db', ev) == ClaimRows(db, ev)
    && ConvertedRows(db', rid) == ConvertedRows(db, rid) && SoldRows(db', rid) == SoldRows(db, rid)
  }

  lemma OrderWonStable(t: int, ev: Event, oid: int, db: Db, db': Db, locks: LockTable, locks': LockTable)
    requires OrderWon(t, ev, oid, db, locks) && Env(db, db', locks, t) && Keeps(t, locks, locks')
    requires OrderOk(db.orders[oid], db.reservations)
    ensures OrderWon(t, ev, oid, db', locks')
    ensures db'.orders[oid] == db.orders[oid]
    ensures TicketsOf(db'.tickets, oid) == TicketsOf(db.tickets, oid)
    ensures HasCoupon(db'.coupons, oid) <==> HasCoupon(db.coupons, oid)
    ensures SameSettlement(ev, db.orders[oid].reservationId, db, db')
  {
    WonStable(t, ev, oid, db, db', locks, locks');
    SettledStable(t, oid, db, db', locks, locks');
    assert StillOrders(db, db', locks, t);
  }

  lemma CouponSettledStable(t: int, ev: Event, oid: int, db: Db, db': Db, locks: LockTable, locks': LockTable)
    requires CouponSettled(t, ev, oid, db, locks) && Owns(locks, t, OrderRow(oid))
    requires Env(db, db', locks, t) && Keeps(t, locks, locks')
    ensures CouponSettled(t, ev, oid, db', locks')
    ensures CouponRows(db', oid, ev.draws) == CouponRows(db, oid, ev.draws)
  {
    CouponStable(t, oid, ev.draws, db, db', locks);
    if EarnsCoupon(db, oid) { CouponCodeStable(t, ev.draws.couponCode, db, db', locks); }
  }

  lemma TicketsInStable(t: int, ev: Event, oid: int, i: nat, db: Db, db': Db, locks: LockTable, locks': LockTable)
    requires TicketsIn(t, ev, oid, i, db, locks) && Owns(locks, t, OrderRow(oid))
    requires Env(db, db', locks, t) && Keeps(t, locks, locks')
    ensures TicketsIn(t, ev, oid, i, db', locks')
  {
    assert StillOrders(db, db', locks, t);
    FreshStable(t, Generated(oid, db.orders[oid].items, ev.draws.ticketCode)[..i], db, db', locks);
  }

  // ---- a session about to commit stays so ----

  lemma TicketEntriesHave(ts: seq<Ticket>, i: nat)
    requires i < |ts|
    ensures TicketEntry(ts[i].code) in TicketEntries(ts)
  {}

  /** The tickets to issue, and their codes, stay what they were. */
  lemma TicketRowsStable(t: int, ev: Event, oid: int, db: Db, db': Db, locks: LockTable)
    requires oid in db.orders && Env(db, db', locks, t) && Owns(locks, t, OrderRow(oid))
    requires FreshCodes(db.tickets, TicketRows(db, oid, ev.draws))
    requires forall l :: l in TicketEntries(TicketRows(db, oid, ev.draws)) ==> Owns(locks, t, l)
    ensures oid in db'.orders && TicketRows(db', oid, ev.draws) == TicketRows(db, oid, ev.draws)
    ensures FreshCodes(db'.tickets, TicketRows(db, oid, ev.draws))
  {
    assert StillOrders(db, db', locks, t);
    var added := TicketRows(db, oid, ev.draws);
    forall i | 0 <= i < |added| ensures Owns(locks, t, TicketEntry(added[i].code)) { TicketEntriesHave(added, i); }
    FreshStable(t, added, db, db', locks);
  }

  /** The locks of a settled order split into those of its parts. */
  lemma SuccessLocks(t: int, ev: Event, db: Db, locks: LockTable)
    requires Accepts(db, ev) && ev.success
    requires forall l :: l in ConfirmFootprint(db, ev) ==> Owns(locks, t, l)
    ensures var oid := db.payments[ev.ref].orderId;
      && OrderWon(t, ev, oid, db, locks) && CouponSettled(t, ev, oid, db, locks)
      && (forall l :: l in TicketEntries(TicketRows(db, oid, ev.draws)) ==> Owns(locks, t, l))
  {}

  lemma SuccessReadyStable(t: int, ev: Event, oid: int, db: Db, db': Db, locks: LockTable)
    requires Accepts(db, ev) && ev.success && oid == db.payments[ev.ref].orderId && Env(db, db', locks, t)
    requires forall l :: l in ConfirmFootprint(db, ev) ==> Owns(locks, t, l)
    requires OrderOk(db.orders[oid], db.reservations)
    ensures Accepts(db', ev) && ConfirmRows(db', ev) == ConfirmRows(db, ev)
    ensures ConfirmFootprint(db', ev) == ConfirmFootprint(db, ev)
  {
    SuccessLocks(t, ev, db, locks);
    OrderWonStable(t, ev, oid, db, db', locks, locks);
    WonStable(t, ev, oid, db, db', locks, locks);
    ConversionStable(t, db.orders[oid].reservationId, db, db', locks);
    CouponSettledStable(t, ev, oid, db, db', locks, locks);
    CouponStable(t, oid, ev.draws, db, db', locks);
    TicketRowsStable(t, ev, oid, db, db', locks);
  }

  lemma ConfirmReadyStable(t: int, ev: Event, w: Db, db: Db, db': Db, locks: LockTable, locks': LockTable)
    requires Ready(t, TConfirm(ev), w, db, locks) && Env(db, db', locks, t) && Keeps(t, locks, locks')
    requires OrderInv(db.orders, db.reservations)
    ensures Ready(t, TConfirm(ev), w, db', locks')
  {
    var oid := db.payments[ev.ref].orderId;
    assert forall l :: l in ConfirmFootprint(db, ev) ==> l in Footprint(db, TConfirm(ev));
    if ev.success {
      assert OrderOk(db.orders[oid], db.reservations);
      SuccessReadyStable(t, ev, oid, db, db', locks);
    } else {
      WonStable(t, ev, oid, db, db', locks, locks);
    }
  }

  lemma ReservationReadyStable(t: int, x: Txn, w: Db, db: Db, db': Db, locks: LockTable, locks': LockTable)
    requires x.TCancel? || x.TExpire?
    requires Ready(t, x, w, db, locks) && Env(db, db', locks, t) && Keeps(t, locks, locks')
    ensures Ready(t, x, w, db', locks')
  {
    var p := db.reservations[x.rid].productId;
    assert ReservationRow(x.rid) in Footprint(db, x) && InventoryRow(p) in Footprint(db, x);
    assert Same(db.reservations, db'.reservations, x.rid) && Same(db.inventory, db'.inventory, p);
  }

  lemma CreateReadyStable(t: int, x: Txn, w: Db, db: Db, db': Db, locks: LockTable, locks': LockTable)
    requires x.TCreate?
    requires Ready(t, x, w, db, locks) && Env(db, db', locks, t) && Keeps(t, locks, locks')
    ensures Ready(t, x, w, db', locks')
  {
    assert ReservationRow(x.rid) in Footprint(db, x) && InventoryRow(x.productId) in Footprint(db, x);
    assert Same(db.reservations, db'.reservations, x.rid) && Same(db.inventory, db'.inventory, x.productId);
  }

  lemma CheckoutEnabledStable(t: int, x: Txn, db: Db, db': Db, locks: LockTable, locks': LockTable)
    requires x.TCheckout? && Enabled(db, x) && (forall l :: l in Footprint(db, x) ==> Owns(locks, t, l))
    requires Env(db, db', locks, t) && Keeps(t, locks, locks') && KeyInv(db'.keys, db'.orders)
    ensures Enabled(db', x) && (forall l :: l in Footprint(db', x) ==> Owns(locks', t, l))
    ensures db'.reservations[x.rid] == db.reservations[x.rid]
  {
    assert ReservationRow(x.rid) in Footprint(db, x) && OrderRow(x.oid) in Footprint(db, x)
      && KeyEntry(x.key) in Footprint(db, x);
    assert Same(db.reservations, db'.reservations, x.rid) && Same(db.orders, db'.orders, x.oid)
      && Same(db.keys, db'.keys, x.key);
    NoOrderStable(t, x.rid, db, db', locks);
    KeyFree(db', x.key);
  }

  lemma ApplyReadyStable(t: int, x: Txn, w: Db, db: Db, db': Db, locks: LockTable, locks': LockTable)
    requires x.TApply?
    requires Ready(t, x, w, db, locks) && Env(db, db', locks, t) && Keeps(t, locks, locks')
    ensures Ready(t, x, w, db', locks')
  {
    assert PromotionRow(x.code) in Footprint(db, x) && OrderRow(x.oid) in Footprint(db, x);
    assert Same(db.promotions, db'.promotions, x.code) && Same(db.orders, db'.orders, x.oid);
  }

  lemma RedeemReadyStable(t: int, x: Txn, w: Db, db: Db, db': Db, locks: LockTable, locks': LockTable)
    requires x.TRedeem?
    requires Ready(t, x, w, db, locks) && Env(db, db', locks, t) && Keeps(t, locks, locks')
    ensures Ready(t, x, w, db', locks')
  {
    assert CouponRow(x.code) in Footprint(db, x);
    assert Same(db.coupons, db'.coupons, x.code);
  }

  // ---- one lemma per service call ----

  lemma CreateStable(t: int, req: Request, pc: Pc, w: Db, db: Db, db': Db, locks: LockTable, locks': LockTable)
    requires req.Create? && CreateState(t, req, pc, w, db, locks)
    requires Env(db, db', locks, t) && Keeps(t, locks, locks')
    ensures CreateState(t, req, pc, w, db', locks')
  {
    if pc.Committing? {
      CreateReadyStable(t, pc.txn, w, db, db', locks, locks');
    } else {
      CreateReadingStable(t, req, pc, w, db, db', locks, locks');
    }
  }

  lemma CreateReadingStable(t: int, req: Request, pc: Pc, w: Db, db: Db, db': Db, locks: LockTable, locks': LockTable)
    requires req.Create? && CreateState(t, req, pc, w, db, locks) && !pc.Committing?
    requires db'.inventory.Keys == db.inventory.Keys && StillStock(db, db', locks, t) && Keeps(t, locks, locks')
    ensures CreateState(t, req, pc, w, db', locks')
  {
    if pc.InsertReservation? { assert Same(db.inventory, db'.inventory, req.productId); }
  }

  lemma CancelStable(t: int, req: Request, pc: Pc, w: Db, db: Db, db': Db, locks: LockTable, locks': LockTable)
    requires req.Cancel? && CancelState(t, req, pc, w, db, locks)
    requires Env(db, db', locks, t) && Keeps(t, locks, locks')
    ensures CancelState(t, req, pc, w, db', locks')
  {
    if pc.Committing? {
      ReservationReadyStable(t, pc.txn, w, db, db', locks, locks');
    } else {
      CancelReadingStable(t, req, pc, w, db, db', locks, locks');
    }
  }

  lemma CancelReadingStable(t: int, req: Request, pc: Pc, w: Db, db: Db, db': Db, locks: LockTable, locks': LockTable)
    requires req.Cancel? && CancelState(t, req, pc, w, db, locks) && !pc.Committing?
    requires Later(db, db') && StillReservations(db, db', locks, t) && Keeps(t, locks, locks')
    ensures CancelState(t, req, pc, w, db', locks')
  {
    if pc.ClaimCancel? {
      SeenStable(pc.seen, req.rid, db, db');
    } else if pc.ReturnStock? {
      SeenStable(pc.seen, req.rid, db, db');
      assert Same(db.reservations, db'.reservations, req.rid);
    }
  }

  lemma SweptStable(due: seq<int>, i: nat, now: int, db: Db, db': Db)
    requires Swept(due, i, now, db) && Later(db, db')
    ensures Swept(due, i, now, db')
  {
    forall j | 0 <= j < |due|
      ensures due[j] in db'.reservations && db'.reservations[due[j]].expiresAt <= now
      ensures j < i ==> Ended(db'.reservations[due[j]])
    {
      var r := due[j];
      assert r in db.reservations;
      assert ReservationLater(db.reservations[r], db'.reservations[r]);
    }
  }

  lemma SweepStable(t: int, req: Request, pc: Pc, w: Db, db: Db, db': Db, locks: LockTable, locks': LockTable)
    requires req.Sweep? && SweepState(t, req, pc, w, db, locks)
    requires Env(db, db', locks, t) && Keeps(t, locks, locks')
    ensures SweepState(t, req, pc, w, db', locks')
  {
    if pc.Committing? {
      SweptStable(pc.next.due, pc.next.i - 1, req.now, db, db');
      ReservationReadyStable(t, pc.txn, w, db, db', locks, locks');
    } else {
      SweepReadingStable(t, req, pc, w, db, db', locks, locks');
    }
  }

  lemma SweepReadingStable(t: int, req: Request, pc: Pc, w: Db, db: Db, db': Db, locks: LockTable, locks': LockTable)
    requires req.Sweep? && SweepState(t, req, pc, w, db, locks) && !pc.Committing?
    requires Later(db, db') && StillReservations(db, db', locks, t) && Keeps(t, locks, locks')
    ensures SweepState(t, req, pc, w, db', locks')
  {
    if pc.NextDue? {
      SweptStable(pc.due, pc.i, req.now, db, db');
    } else if pc.SweepDone? {
      SweptStable(pc.due, |pc.due|, req.now, db, db');
    } else if pc.ClaimExpiry? || pc.ReturnExpired? {
      SweptStable(pc.due, pc.i, req.now, db, db');
      SeenStable(pc.seen, pc.due[pc.i], db, db');
      if pc.ReturnExpired? { assert Same(db.reservations, db'.reservations, pc.due[pc.i]); }
    }
  }

  lemma CheckoutStable(t: int, req: Request, pc: Pc, w: Db, db: Db, db': Db, locks: LockTable, locks': LockTable)
    requires req.PlaceCheckout? && CheckoutState(t, req, pc, w, db, locks)
    requires Env(db, db', locks, t) && Keeps(t, locks, locks') && KeyInv(db'.keys, db'.orders)
    ensures CheckoutState(t, req, pc, w, db', locks')
  {
    if pc.InsertKey? {
      CheckoutEnabledStable(t, TCheckout(req.userId, req.rid, req.key, req.oid, pc.price), db, db', locks, locks');
    } else if pc.Committing? {
      CheckoutEnabledStable(t, pc.txn, db, db', locks, locks');
    } else {
      CheckoutReadingStable(t, req, pc, w, db, db', locks, locks');
    }
  }

  lemma CheckoutReadingStable(t: int, req: Request, pc: Pc, w: Db, db: Db, db': Db, locks: LockTable, locks': LockTable)
    requires req.PlaceCheckout? && CheckoutState(t, req, pc, w, db, locks) && !pc.InsertKey? && !pc.Committing?
    requires Later(db, db') && StillReservations(db, db', locks, t) && Keeps(t, locks, locks')
    ensures CheckoutState(t, req, pc, w, db', locks')
  {
    if pc.CheckLinked? || pc.ReadPrice? || pc.InsertOrder? {
      assert Same(db.reservations, db'.reservations, req.rid);
      if !pc.CheckLinked? { NoOrderStable(t, req.rid, db, db', locks); }
    }
  }

  lemma PricedStable(req: Request, discount: int, subtotal: int, db: Db, db': Db)
    requires req.Apply? && Priced(req, discount, subtotal, db) && Later(db, db')
    ensures Priced(req, discount, subtotal, db')
  {
    assert OrderLater(db.orders[req.oid], db'.orders[req.oid]);
    assert PromotionLater(db.promotions[req.code], db'.promotions[req.code]);
  }

  lemma ApplyStable(t: int, req: Request, pc: Pc, w: Db, db: Db, db': Db, locks: LockTable, locks': LockTable)
    requires req.Apply? && ApplyState(t, req, pc, w, db, locks)
    requires Env(db, db', locks, t) && Keeps(t, locks, locks')
    ensures ApplyState(t, req, pc, w, db', locks')
  {
    if pc.Committing? {
      PricedStable(req, pc.txn.discount, db.orders[req.oid].subtotalCents, db, db');
      ApplyReadyStable(t, pc.txn, w, db, db', locks, locks');
    } else {
      ApplyReadingStable(t, req, pc, w, db, db', locks, locks');
    }
  }

  lemma ApplyReadingStable(t: int, req: Request, pc: Pc, w: Db, db: Db, db': Db, locks: LockTable, locks': LockTable)
    requires req.Apply? && ApplyState(t, req, pc, w, db, locks) && !pc.Committing?
    requires Later(db, db') && StillRows(db, db', locks, t) && Keeps(t, locks, locks')
    ensures ApplyState(t, req, pc, w, db', locks')
  {
    if pc.ReadOrder? {
      assert PromotionLater(db.promotions[req.code], db'.promotions[req.code]);
    } else if pc.TakeCapacity? || pc.ClaimOrder? {
      PricedStable(req, pc.discount, pc.subtotal, db, db');
      if pc.ClaimOrder? { assert Same(db.promotions, db'.promotions, req.code); }
    }
  }

  /** An amount read from an order stays its subtotal or its current total. */
  lemma AmountStable(amount: int, oid: int, db: Db, db': Db)
    requires oid in db.orders && AmountOk(amount, db.orders[oid]) && Later(db, db')
    requires OrderOk(db.orders[oid], db.reservations)
    requires oid in db'.orders ==> OrderOk(db'.orders[oid], db'.reservations)
    ensures oid in db'.orders && AmountOk(amount, db'.orders[oid])
  {
    assert OrderLater(db.orders[oid], db'.orders[oid]);
  }

  lemma PayStable(t: int, req: Request, pc: Pc, w: Db, db: Db, db': Db, locks: LockTable, locks': LockTable)
    requires req.Pay? && PayState(t, req, pc, w, db, locks)
    requires Later(db, db') && OrderInv(db.orders, db.reservations) && OrderInv(db'.orders, db'.reservations)
    ensures PayState(t, req, pc, w, db', locks')
  {
    match pc
    case FindPending(amount) => AmountStable(amount, req.oid, db, db');
    case InsertPayment(amount) => AmountStable(amount, req.oid, db, db');
    case _ =>
  }

  predicate BeforeOrder(pc: Pc) {
    pc.ReadPaidOrder? || pc.ReadReserved? || pc.ConvertRead? || pc.ConvertClaim? || pc.ConvertSell?
  }

  lemma ConfirmEarlyStable(t: int, ev: Event, pc: Pc, w: Db, db: Db, db': Db, locks: LockTable, locks': LockTable)
    requires ConfirmState(t, ev, pc, w, db, locks) && BeforeOrder(pc)
    requires Env(db, db', locks, t) && Keeps(t, locks, locks')
    ensures ConfirmState(t, ev, pc, w, db', locks')
  {
    if pc.ConvertSell? {
      SellingStable(t, ev, pc.oid, pc.rid, pc.seen, w, db, db', locks, locks');
    } else if pc.ReadPaidOrder? {
      ClaimingStable(t, ev, pc.oid, w, db, db', locks, locks');
    } else {
      ConvertingStable(t, ev, pc.oid, pc.rid, w, db, db', locks, locks');
      if pc.ConvertClaim? { SeenStable(pc.seen, pc.rid, db, db'); }
    }
  }

  lemma ClaimingStable(t: int, ev: Event, oid: int, w: Db, db: Db, db': Db, locks: LockTable, locks': LockTable)
    requires Claiming(t, ev, oid, w, db, locks)
    requires Env(db, db', locks, t) && Keeps(t, locks, locks')
    ensures Claiming(t, ev, oid, w, db', locks')
  {
    WonStable(t, ev, oid, db, db', locks, locks');
  }

  lemma ConvertingStable(t: int, ev: Event, oid: int, rid: int, w: Db, db: Db, db': Db, locks: LockTable,
                         locks': LockTable)
    requires Converting(t, ev, oid, rid, w, db, locks)
    requires Env(db, db', locks, t) && Keeps(t, locks, locks')
    ensures Converting(t, ev, oid, rid, w, db', locks')
  {
    ClaimingStable(t, ev, oid, w, db, db', locks, locks');
    assert OrderLater(db.orders[oid], db'.orders[oid]);
  }

  lemma SellingStable(t: int, ev: Event, oid: int, rid: int, seen: Reservation, w: Db, db: Db, db': Db,
                      locks: LockTable, locks': LockTable)
    requires Selling(t, ev, oid, rid, seen, w, db, locks)
    requires Env(db, db', locks, t) && Keeps(t, locks, locks')
    ensures Selling(t, ev, oid, rid, seen, w, db', locks')
  {
    WonStable(t, ev, oid, db, db', locks, locks');
    assert OrderLater(db.orders[oid], db'.orders[oid]);
    SeenStable(seen, rid, db, db');
    assert Same(db.reservations, db'.reservations, rid);
  }

  predicate BeforeTickets(pc: Pc) { pc.FindCoupon? || pc.ReadCode? || pc.FindPromotion? || pc.InsertCoupon? }

  lemma ConfirmRewardStable(t: int, ev: Event, pc: Pc, w: Db, db: Db, db': Db, locks: LockTable, locks': LockTable)
    requires ConfirmState(t, ev, pc, w, db, locks) && BeforeTickets(pc) && OrderInv(db.orders, db.reservations)
    requires Env(db, db', locks, t) && Keeps(t, locks, locks')
    ensures ConfirmState(t, ev, pc, w, db', locks')
  {
    IssuingStable(t, ev, pc.oid, db, db', locks, locks');
    if pc.InsertCoupon? {
      CouponStable(t, pc.oid, ev.draws, db, db', locks);
      assert PromotionLater(db.promotions[pc.code], db'.promotions[pc.code]);
    }
  }

  lemma ConfirmTicketsStable(t: int, ev: Event, pc: Pc, w: Db, db: Db, db': Db, locks: LockTable, locks': LockTable)
    requires ConfirmState(t, ev, pc, w, db, locks) && OrderInv(db.orders, db.reservations)
    requires pc.FindTickets? || pc.ReadItems? || pc.InsertTicket?
    requires Env(db, db', locks, t) && Keeps(t, locks, locks')
    ensures ConfirmState(t, ev, pc, w, db', locks')
  {
    IssuingStable(t, ev, pc.oid, db, db', locks, locks');
    CouponSettledStable(t, ev, pc.oid, db, db', locks, locks');
    if pc.InsertTicket? { TicketsInStable(t, ev, pc.oid, pc.i, db, db', locks, locks'); }
  }

  lemma ConfirmStable(t: int, ev: Event, pc: Pc, w: Db, db: Db, db': Db, locks: LockTable, locks': LockTable)
    requires ConfirmState(t, ev, pc, w, db, locks) && OrderInv(db.orders, db.reservations)
    requires Env(db, db', locks, t) && Keeps(t, locks, locks')
    ensures ConfirmState(t, ev, pc, w, db', locks')
  {
    if BeforeOrder(pc) {
      ConfirmEarlyStable(t, ev, pc, w, db, db', locks, locks');
    } else if BeforeTickets(pc) {
      ConfirmRewardStable(t, ev, pc, w, db, db', locks, locks');
    } else if pc.FindTickets? || pc.ReadItems? || pc.InsertTicket? {
      ConfirmTicketsStable(t, ev, pc, w, db, db', locks, locks');
    } else {
      ConfirmRestStable(t, ev, pc, w, db, db', locks, locks');
    }
  }

  lemma ConfirmRestStable(t: int, ev: Event, pc: Pc, w: Db, db: Db, db': Db, locks: LockTable, locks': LockTable)
    requires ConfirmState(t, ev, pc, w, db, locks) && OrderInv(db.orders, db.reservations)
    requires pc.MarkPaid? || pc.Committing? || pc.Start? || Finished(pc) || pc.ClaimPayment?
    requires Env(db, db', locks, t) && Keeps(t, locks, locks')
    ensures ConfirmState(t, ev, pc, w, db', locks')
  {
    if pc.MarkPaid? {
      MarkingStable(t, ev, pc.oid, w, db, db', locks, locks');
    } else if pc.Committing? {
      ConfirmReadyStable(t, ev, w, db, db', locks, locks');
    } else {
      ConfirmOutsideStable(t, ev, pc, w, db, db', locks, locks');
    }
  }

  lemma MarkingStable(t: int, ev: Event, oid: int, w: Db, db: Db, db': Db, locks: LockTable, locks': LockTable)
    requires Marking(t, ev, oid, w, db, locks) && OrderInv(db.orders, db.reservations)
    requires Env(db, db', locks, t) && Keeps(t, locks, locks')
    ensures Marking(t, ev, oid, w, db', locks')
  {
    WonStable(t, ev, oid, db, db', locks, locks');
    assert OrderOk(db.orders[oid], db.reservations);
    assert OrderLater(db.orders[oid], db'.orders[oid]);
    SettledStable(t, oid, db, db', locks, locks');
  }

  lemma ConfirmOutsideStable(t: int, ev: Event, pc: Pc, w: Db, db: Db, db': Db, locks: LockTable, locks': LockTable)
    requires ConfirmState(t, ev, pc, w, db, locks) && (pc.Start? || Finished(pc) || pc.ClaimPayment?)
    requires PaymentsLater(db.payments, db'.payments)
    ensures ConfirmState(t, ev, pc, w, db', locks')
  {
    if ev.ref in db.payments { assert PaymentLater(db.payments[ev.ref], db'.payments[ev.ref]); }
  }

  lemma IssuingStable(t: int, ev: Event, oid: int, db: Db, db': Db, locks: LockTable, locks': LockTable)
    requires OrderWon(t, ev, oid, db, locks) && OrderInv(db.orders, db.reservations)
    requires Env(db, db', locks, t) && Keeps(t, locks, locks')
    ensures OrderWon(t, ev, oid, db', locks')
    ensures db'.orders[oid] == db.orders[oid]
    ensures TicketsOf(db'.tickets, oid) == TicketsOf(db.tickets, oid)
    ensures HasCoupon(db'.coupons, oid) <==> HasCoupon(db.coupons, oid)
    ensures SameSettlement(ev, db.orders[oid].reservationId, db, db')
  {
    assert OrderOk(db.orders[oid], db.reservations);
    OrderWonStable(t, ev, oid, db, db', locks, locks');
  }

  lemma RedemptionStable(t: int, x: Txn, db: Db, db': Db, locks: LockTable)
    requires x.TRedeem? && Enabled(db, x) && Owns(locks, t, CouponRow(x.code)) && Env(db, db', locks, t)
    ensures Enabled(db', x) && db'.coupons[x.code] == db.coupons[x.code]
  {
    assert Same(db.coupons, db'.coupons, x.code);
  }

  lemma RedeemStable(t: int, req: Request, pc: Pc, w: Db, db: Db, db': Db, locks: LockTable, locks': LockTable)
    requires req.Redeem? && RedeemState(t, req, pc, w, db, locks)
    requires Env(db, db', locks, t) && Keeps(t, locks, locks')
    ensures RedeemState(t, req, pc, w, db', locks')
  {
    if pc.LogRedemption? {
      RedemptionStable(t, TRedeem(req.userId, req.code, req.now), db, db', locks);
    } else if pc.Committing? {
      RedeemReadyStable(t, pc.txn, w, db, db', locks, locks');
    } else {
      RedeemUnlockedStable(t, req, pc, w, db, db', locks, locks');
    }
  }

  lemma RedeemUnlockedStable(t: int, req: Request, pc: Pc, w: Db, db: Db, db': Db, locks: LockTable, locks': LockTable)
    requires req.Redeem? && RedeemState(t, req, pc, w, db, locks) && !pc.LogRedemption? && !pc.Committing?
    requires CouponsLater(db.coupons, db'.coupons)
    ensures RedeemState(t, req, pc, w, db', locks')
  {
    if req.code in db.coupons { assert CouponLater(db.coupons[req.code], db'.coupons[req.code]); }
  }

  lemma ReservationSessionStable(t: int, s: Session, db: Db, db': Db, locks: LockTable, locks': LockTable)
    requires SessionOk(t, s, db, locks) && (s.req.Create? || s.req.Cancel? || s.req.Sweep? || s.req.Redeem?)
    requires Env(db, db', locks, t) && Keeps(t, locks, locks')
    ensures SessionOk(t, s, db', locks')
  {
    match s.req
    case Create(_, _, _, _, _) => CreateStable(t, s.req, s.pc, s.w, db, db', locks, locks');
    case Cancel(_, _) => CancelStable(t, s.req, s.pc, s.w, db, db', locks, locks');
    case Sweep(_) => SweepStable(t, s.req, s.pc, s.w, db, db', locks, locks');
    case Redeem(_, _, _, _) => RedeemStable(t, s.req, s.pc, s.w, db, db', locks, locks');
  }

  lemma OrderSessionStable(t: int, s: Session, db: Db, db': Db, locks: LockTable, locks': LockTable)
    requires SessionOk(t, s, db, locks) && (s.req.PlaceCheckout? || s.req.Apply? || s.req.Pay? || s.req.Confirm?)
    requires OrderInv(db.orders, db.reservations) && OrderInv(db'.orders, db'.reservations)
    requires KeyInv(db'.keys, db'.orders)
    requires Env(db, db', locks, t) && Keeps(t, locks, locks')
    ensures SessionOk(t, s, db', locks')
  {
    match s.req
    case PlaceCheckout(_, _, _, _) => CheckoutStable(t, s.req, s.pc, s.w, db, db', locks, locks');
    case Apply(_, _, _, _) => ApplyStable(t, s.req, s.pc, s.w, db, db', locks, locks');
    case Pay(_, _, _) => PayStable(t, s.req, s.pc, s.w, db, db', locks, locks');
    case Confirm(ev) => ConfirmStable(t, ev, s.pc, s.w, db, db', locks, locks');
  }

  /** What a session knows survives any step of the others. */
  lemma SessionStable(t: int, s: Session, db: Db, db': Db, locks: LockTable, locks': LockTable)
    requires SessionOk(t, s, db, locks)
    requires OrderInv(db.orders, db.reservations) && OrderInv(db'.orders, db'.reservations)
    requires KeyInv(db'.keys, db'.orders)
    requires Env(db, db', locks, t) && Keeps(t, locks, locks')
    ensures SessionOk(t, s, db', locks')
  {
    if s.req.Create? || s.req.Cancel? || s.req.Sweep? || s.req.Redeem? {
      ReservationSessionStable(t, s, db, db', locks, locks');
    } else {
      OrderSessionStable(t, s, db, db', locks, locks');
    }
  }
}
