/** What the history of committed transactions says about the tables, count by count. */
module Ledger {
  import opened Common
  import opened Schema
  import opened Sums
  import opened Services
  import opened Invariants
  import opened Settlement
  import opened ConfirmKept
  import opened Footprints
  import opened Progress
  import opened Concurrency

  // ---- induction over a history ----

  lemma PrefixEnabled(db: Db, history: seq<Txn>)
    requires AllEnabled(db, history) && history != []
    ensures var front := history[..|history| - 1];
      && AllEnabled(db, front)
      && Enabled(Replay(db, front), history[|history| - 1]) && Admissible(Replay(db, front), history[|history| - 1])
  {
    var front := history[..|history| - 1];
    forall i | 0 <= i < |front|
      ensures Enabled(Replay(db, front[..i]), front[i]) && Admissible(Replay(db, front[..i]), front[i])
    {
      assert front[..i] == history[..i];
    }
  }

  lemma {:induction false} ReplayKeepsInv(db: Db, history: seq<Txn>)
    requires Inv(db) && AllEnabled(db, history)
    ensures Inv(Replay(db, history))
  {
    if history != [] {
      PrefixEnabled(db, history);
      ReplayKeepsInv(db, history[..|history| - 1]);
      EffectKeepsInv(Replay(db, history[..|history| - 1]), history[|history| - 1]);
    }
  }

  /** The tables an accepted notification leaves. */
  lemma AcceptedTables(db: Db, ev: Event)
    requires Inv(db) && Accepts(db, ev)
    ensures var db', oid := ConfirmPayment(db, ev).db, db.payments[ev.ref].orderId;
      && db'.payments == db.payments[ev.ref := Claimed(db.payments[ev.ref], ev)]
      && db'.promotions == db.promotions
      && db'.reservations
          == db.reservations + (if ev.success then ConvertedRows(db, db.orders[oid].reservationId) else map[])
      && db'.orders == (if ev.success then db.orders[oid := PaidOrder(db.orders[oid], ev.draws.paidAt)] else db.orders)
      && db'.coupons == db.coupons + (if ev.success then CouponRows(db, oid, ev.draws) else map[])
      && db'.tickets == db.tickets + (if ev.success then TicketRows(db, oid, ev.draws) else [])
      && db'.inventory == db.inventory + (if ev.success then SoldRows(db, db.orders[oid].reservationId) else map[])
  {
    var oid := db.payments[ev.ref].orderId;
    assert PaymentOk(db.payments[ev.ref], db.orders);
    ConfirmIsRows(db, ev);
    if ev.success {
      MergeSucceeds(db, ev, oid);
    } else {
      MergeFailure(db, ev);
      MergeWithNothing(db);
      assert Merge(db, NoWrites).tickets == db.tickets && Merge(db, NoWrites).inventory == db.inventory;
      assert Merge(db, NoWrites).reservations == db.reservations && Merge(db, NoWrites).coupons == db.coupons;
    }
  }

  lemma SuccessTables(db: Db, ev: Event)
    requires Inv(db) && Accepts(db, ev) && ev.success
    ensures Succeeded(db, ev, db.payments[ev.ref].orderId, ConfirmPayment(db, ev).db)
  {
    assert ConfirmPayment(db, ev).db == Merge(db, ConfirmRows(db, ev)) by {
      assert PaymentOk(db.payments[ev.ref], db.orders);
      ConfirmIsRows(db, ev);
    }
    MergeSucceeds(db, ev, db.payments[ev.ref].orderId);
  }

  // ---- reservations ----

  function WithStatus(reservations: map<int, Reservation>, status: ReservationStatus): set<int> {
    set r | r in reservations && reservations[r].status == status
  }

  /** Writing a row that did not have the status. */
  lemma WriteEnds(reservations: map<int, Reservation>, rid: int, r: Reservation, status: ReservationStatus)
    requires rid in reservations ==> reservations[rid].status != status
    ensures |WithStatus(reservations[rid := r], status)|
         == |WithStatus(reservations, status)| + (if r.status == status then 1 else 0)
  {
    var before, after := WithStatus(reservations, status), WithStatus(reservations[rid := r], status);
    assert rid !in before;
    if r.status == status {
      assert forall q :: q in after <==> q in before + {rid};
      assert after == before + {rid};
    } else {
      assert forall q :: q in after <==> q in before;
      assert after == before;
    }
  }

  lemma ConversionEndsNone(db: Db, rid: int, status: ReservationStatus)
    requires status.Expired? || status.Cancelled?
    ensures |WithStatus(db.reservations + ConvertedRows(db, rid), status)| == |WithStatus(db.reservations, status)|
    ensures db.reservations + map[] == db.reservations
  {
    if StillActive(db, rid) {
      var r := db.reservations[rid].(status := Converted);
      assert db.reservations + map[rid := r] == db.reservations[rid := r];
      WriteEnds(db.reservations, rid, r, status);
    } else {
      assert db.reservations + map[] == db.reservations;
    }
  }

  lemma NotificationEndsNone(db: Db, ev: Event, status: ReservationStatus)
    requires Inv(db) && Accepts(db, ev) && (status.Expired? || status.Cancelled?)
    ensures |WithStatus(ConfirmPayment(db, ev).db.reservations, status)| == |WithStatus(db.reservations, status)|
  {
    AcceptedTables(db, ev);
    ConversionEndsNone(db, db.orders[db.payments[ev.ref].orderId].reservationId, status);
  }

  lemma ReservationStep(db: Db, x: Txn)
    requires Enabled(db, x) && (x.TCreate? || x.TCancel? || x.TExpire?)
    ensures var reservations' := Effect(db, x).reservations;
      && x.rid in reservations' && reservations' == db.reservations[x.rid := reservations'[x.rid]]
      && (x.rid in db.reservations ==> db.reservations[x.rid].status.Active?)
      && reservations'[x.rid].status == if x.TCreate? then Active else if x.TCancel? then Cancelled else Expired
  {}

  lemma OthersEndNone(db: Db, x: Txn)
    requires Enabled(db, x) && !x.TCreate? && !x.TCancel? && !x.TExpire? && !x.TConfirm?
    ensures Effect(db, x).reservations == db.reservations
  {}

  predicate Ends(x: Txn, status: ReservationStatus) {
    (status.Expired? && x.TExpire?) || (status.Cancelled? && x.TCancel?)
  }

  lemma EndingStep(db: Db, x: Txn, status: ReservationStatus)
    requires Inv(db) && Enabled(db, x) && (status.Expired? || status.Cancelled?)
    ensures |WithStatus(Effect(db, x).reservations, status)|
         == |WithStatus(db.reservations, status)| + (if Ends(x, status) then 1 else 0)
  {
    if x.TConfirm? {
      NotificationEndsNone(db, x.ev, status);
    } else if x.TCreate? || x.TCancel? || x.TExpire? {
      ReservationStep(db, x);
      WriteEnds(db.reservations, x.rid, Effect(db, x).reservations[x.rid], status);
    } else {
      OthersEndNone(db, x);
    }
  }

  function EndsAs(status: ReservationStatus): Txn -> bool { (x: Txn) => Ends(x, status) }

  /** Each EXPIRED reservation was expired by one transaction, each CANCELLED one cancelled by one. */
  lemma {:induction false} EndingsAreCounted(db: Db, history: seq<Txn>, status: ReservationStatus)
    requires Inv(db) && db.reservations == map[] && AllEnabled(db, history) && (status.Expired? || status.Cancelled?)
    ensures Count(history, EndsAs(status)) == |WithStatus(Replay(db, history).reservations, status)|
  {
    if history == [] {
      assert WithStatus(db.reservations, status) == {};
    } else {
      PrefixEnabled(db, history);
      EndingsAreCounted(db, history[..|history| - 1], status);
      ReplayKeepsInv(db, history[..|history| - 1]);
      EndingStep(Replay(db, history[..|history| - 1]), history[|history| - 1], status);
    }
  }

  // ---- discount codes ----

  predicate ClaimsCode(x: Txn, code: string) { x.TApply? && x.code == code }

  function ClaimsOf(code: string): Txn -> bool { (x: Txn) => ClaimsCode(x, code) }

  function UsedBy(db: Db, code: string): int {
    if code in db.promotions then db.promotions[code].usedRedemptions else 0
  }

  function Carriers(orders: map<int, Order>, code: string): set<int> {
    set o | o in orders && orders[o].discountCode == Some(code)
  }

  /** The claim takes an order away from the code it carries; only a discount of 0 leaves an order open for that. */
  predicate Displaces(db: Db, x: Txn, code: string) {
    x.TApply? && x.oid in db.orders && db.orders[x.oid].discountCode == Some(code)
  }

  /** How often in a history an order carrying the code was claimed again. */
  ghost function Displaced(db: Db, history: seq<Txn>, code: string): nat {
    if history == [] then 0 else
      Displaced(db, history[..|history| - 1], code)
      + if Displaces(Replay(db, history[..|history| - 1]), history[|history| - 1], code) then 1 else 0
  }

  lemma ApplyStep(db: Db, x: Txn, code: string)
    requires x.TApply? && Enabled(db, x)
    ensures UsedBy(Effect(db, x), code) == UsedBy(db, code) + (if ClaimsCode(x, code) then 1 else 0)
    ensures |Carriers(Effect(db, x).orders, code)| - |Carriers(db.orders, code)|
         == (if ClaimsCode(x, code) then 1 else 0) - (if Displaces(db, x, code) then 1 else 0)
  {
    var orders' := db.orders[x.oid := WithDiscount(db.orders[x.oid], x.code, x.discount)];
    assert Effect(db, x).orders == orders';
    CarriersMove(db.orders, x.oid, orders'[x.oid], x.code, code);
  }

  lemma CarriersMove(orders: map<int, Order>, oid: int, o: Order, claimed: string, code: string)
    requires oid in orders && o.discountCode == Some(claimed)
    ensures |Carriers(orders[oid := o], code)| - |Carriers(orders, code)|
         == (if claimed == code then 1 else 0) - (if orders[oid].discountCode == Some(code) then 1 else 0)
  {
    var before, after := Carriers(orders, code), Carriers(orders[oid := o], code);
    if claimed == code {
      assert forall q :: q in after <==> q in before + {oid};
      assert after == before + {oid};
    } else {
      assert forall q :: q in after <==> q in before - {oid};
      assert after == before - {oid};
    }
  }

  lemma OthersClaimNone(db: Db, x: Txn, code: string)
    requires Enabled(db, x) && !x.TApply? && !x.TConfirm?
    ensures UsedBy(Effect(db, x), code) == UsedBy(db, code)
    ensures Carriers(Effect(db, x).orders, code) == Carriers(db.orders, code)
  {}

  lemma ClaimStep(db: Db, x: Txn, code: string)
    requires Inv(db) && Enabled(db, x)
    ensures UsedBy(Effect(db, x), code) == UsedBy(db, code) + (if ClaimsCode(x, code) then 1 else 0)
    ensures |Carriers(Effect(db, x).orders, code)| - |Carriers(db.orders, code)|
         == (if ClaimsCode(x, code) then 1 else 0) - (if Displaces(db, x, code) then 1 else 0)
  {
    if x.TConfirm? {
      NotificationKeepsCodes(db, x.ev, code);
    } else if x.TApply? {
      ApplyStep(db, x, code);
    } else {
      OthersClaimNone(db, x, code);
    }
  }

  lemma NotificationKeepsCodes(db: Db, ev: Event, code: string)
    requires Inv(db) && Accepts(db, ev)
    ensures Carriers(ConfirmPayment(db, ev).db.orders, code) == Carriers(db.orders, code)
    ensures ConfirmPayment(db, ev).db.promotions == db.promotions
  {
    AcceptedTables(db, ev);
  }

  /** A code's use counter is the number of its claims: the orders that carry it, plus those claimed again since. */
  lemma {:induction false} CodeUseIsExact(db: Db, history: seq<Txn>, code: string)
    requires Init(db) && AllEnabled(db, history)
    ensures UsedBy(Replay(db, history), code) == Count(history, ClaimsOf(code))
    ensures UsedBy(Replay(db, history), code)
      == |Carriers(Replay(db, history).orders, code)| + Displaced(db, history, code)
  {
    InitEstablishes(db);
    if history == [] {
      assert Carriers(db.orders, code) == {};
    } else {
      var front := history[..|history| - 1];
      PrefixEnabled(db, history);
      CodeUseIsExact(db, front, code);
      ReplayKeepsInv(db, front);
      ClaimStep(Replay(db, front), history[|history| - 1], code);
    }
  }

  predicate PositiveDiscounts(history: seq<Txn>) {
    forall i | 0 <= i < |history| && history[i].TApply? :: history[i].discount > 0
  }

  /** An order that carries a code got something for it. */
  predicate CodesPay(orders: map<int, Order>) {
    forall o | o in orders :: orders[o].discountCode.Some? ==> orders[o].discountCents > 0
  }

  lemma CodesPayStep(db: Db, x: Txn)
    requires Inv(db) && Enabled(db, x) && CodesPay(db.orders) && (x.TApply? ==> x.discount > 0)
    ensures CodesPay(Effect(db, x).orders)
  {
    if x.TConfirm? {
      AcceptedTables(db, x.ev);
    } else {
      OthersPay(db, x);
    }
  }

  lemma OthersPay(db: Db, x: Txn)
    requires Enabled(db, x) && !x.TConfirm? && CodesPay(db.orders) && (x.TApply? ==> x.discount > 0)
    ensures CodesPay(Effect(db, x).orders)
  {}

  lemma {:induction false} NothingDisplaced(db: Db, history: seq<Txn>, code: string)
    requires Init(db) && AllEnabled(db, history) && PositiveDiscounts(history)
    ensures CodesPay(Replay(db, history).orders) && Displaced(db, history, code) == 0
  {
    InitEstablishes(db);
    if history != [] {
      var front := history[..|history| - 1];
      PrefixEnabled(db, history);
      NothingDisplaced(db, front, code);
      ReplayKeepsInv(db, front);
      CodesPayStep(Replay(db, front), history[|history| - 1]);
    }
  }

  // ---- redemptions ----

  predicate Redeems(x: Txn, code: string) { x.TRedeem? && x.code == code }

  function RedeemsOf(code: string): Txn -> bool { (x: Txn) => Redeems(x, code) }

  predicate IsRedeemed(coupons: map<string, Coupon>, code: string) {
    code in coupons && coupons[code].status.Redeemed?
  }

  lemma OthersRedeemNone(db: Db, x: Txn)
    requires Enabled(db, x) && !x.TRedeem? && !x.TConfirm?
    ensures Effect(db, x).coupons == db.coupons
  {}

  lemma IssuingRedeemsNone(db: Db, oid: int, d: Draws, code: string)
    requires oid in db.orders && (EarnsCoupon(db, oid) ==> d.couponCode !in db.coupons)
    ensures IsRedeemed(db.coupons + CouponRows(db, oid, d), code) <==> IsRedeemed(db.coupons, code)
    ensures db.coupons + map[] == db.coupons
  {}

  lemma NotificationRedeemsNone(db: Db, ev: Event, code: string)
    requires Inv(db) && Accepts(db, ev)
    ensures IsRedeemed(ConfirmPayment(db, ev).db.coupons, code) <==> IsRedeemed(db.coupons, code)
  {
    AcceptedTables(db, ev);
    if ev.success { IssuingRedeemsNone(db, db.payments[ev.ref].orderId, ev.draws, code); }
  }

  lemma RedeemStep(db: Db, x: Txn, code: string)
    requires Inv(db) && Enabled(db, x)
    ensures IsRedeemed(Effect(db, x).coupons, code) <==> IsRedeemed(db.coupons, code) || Redeems(x, code)
    ensures Redeems(x, code) ==> !IsRedeemed(db.coupons, code)
  {
    if x.TConfirm? {
      NotificationRedeemsNone(db, x.ev, code);
    } else if x.TRedeem? {
      RedemptionStep(db, x, code);
    } else {
      OthersRedeemNone(db, x);
    }
  }

  lemma RedemptionStep(db: Db, x: Txn, code: string)
    requires Enabled(db, x) && x.TRedeem?
    ensures IsRedeemed(Effect(db, x).coupons, code) <==> IsRedeemed(db.coupons, code) || x.code == code
    ensures x.code == code ==> !IsRedeemed(db.coupons, code)
  {}

  /** A coupon is redeemed by exactly one transaction, or by none. */
  lemma {:induction false} RedeemedByOne(db: Db, history: seq<Txn>, code: string)
    requires Init(db) && AllEnabled(db, history)
    ensures Count(history, RedeemsOf(code)) == if IsRedeemed(Replay(db, history).coupons, code) then 1 else 0
  {
    InitEstablishes(db);
    if history != [] {
      var front := history[..|history| - 1];
      PrefixEnabled(db, history);
      RedeemedByOne(db, front, code);
      ReplayKeepsInv(db, front);
      RedeemStep(Replay(db, front), history[|history| - 1], code);
    }
  }

  // ---- accepted notifications ----

  lemma {:induction false} ReplayIsLater(db: Db, history: seq<Txn>, i: nat)
    requires Inv(db) && AllEnabled(db, history) && i <= |history|
    ensures Later(Replay(db, history[..i]), Replay(db, history))
  {
    if i == |history| {
      assert history[..i] == history;
      LaterReflexive(Replay(db, history));
    } else {
      var front := history[..|history| - 1];
      PrefixEnabled(db, history);
      ReplayIsLater(db, front, i);
      assert front[..i] == history[..i];
      ReplayKeepsInv(db, front);
      EffectIsLater(Replay(db, front), history[|history| - 1]);
      LaterTransitive(Replay(db, history[..i]), Replay(db, front), Replay(db, history));
    }
  }

  lemma {:induction false} PrefixesEnabled(db: Db, history: seq<Txn>, i: nat)
    requires AllEnabled(db, history) && i <= |history|
    ensures AllEnabled(db, history[..i])
  {
    forall j | 0 <= j < i ensures history[..i][..j] == history[..j] {}
  }

  /** The payment a committed notification closed or failed: its amount was matched, and a success is final. */
  lemma AcceptedNotification(db: Db, history: seq<Txn>, i: nat)
    requires Inv(db) && AllEnabled(db, history) && i < |history| && history[i].TConfirm?
    ensures var ev, payments := history[i].ev, Replay(db, history).payments;
      && ev.ref in payments
      && (ev.success && ev.amountCents.Some? ==> ev.amountCents.value == payments[ev.ref].amountCents)
      && (ev.success ==> payments[ev.ref].status.Paid? && payments[ev.ref].rawEventId == Some(ev.eventId))
  {
    var ev, before := history[i].ev, Replay(db, history[..i]);
    PrefixesEnabled(db, history, i);
    ReplayKeepsInv(db, history[..i]);
    ReplayIsLater(db, history, i + 1);
    assert history[..i + 1][..i] == history[..i];
    ClaimedRow(before, ev);
    assert PaymentLater(Effect(before, history[i]).payments[ev.ref], Replay(db, history).payments[ev.ref]);
  }

  lemma ClaimedRow(db: Db, ev: Event)
    requires Inv(db) && Accepts(db, ev)
    ensures var payments' := Effect(db, TConfirm(ev)).payments;
      ev.ref in payments' && payments'[ev.ref] == Claimed(db.payments[ev.ref], ev)
  {
    AcceptedTables(db, ev);
  }

  /** After a success no later notification for the same payment is ever accepted. */
  lemma SuccessIsLast(db: Db, history: seq<Txn>, i: nat, j: nat)
    requires Inv(db) && AllEnabled(db, history) && i < j < |history|
    requires history[i].TConfirm? && history[j].TConfirm? && history[i].ev.success
    ensures history[i].ev.ref != history[j].ev.ref
  {
    PrefixesEnabled(db, history, j);
    assert history[..j][i] == history[i];
    AcceptedNotification(db, history[..j], i);
    assert Accepts(Replay(db, history[..j]), history[j].ev);
  }
}
