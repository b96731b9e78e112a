/** What holds in every reachable state, and of every run, of the purchase engine. */
module Theorems {
  import opened Common
  import opened Schema
  import opened Sums
  import opened TicketCodes
  import opened Services
  import opened Invariants
  import opened StockKept
  import opened Settlement
  import opened ConfirmKept
  import opened Progress
  import opened Footprints
  import opened Rely
  import opened Machine
  import opened SessionState
  import opened Stable
  import opened Moves
  import opened Concurrency
  import opened Ledger
  import Stock

  // ---- stock ----

  /** Counters are exact, non-negative and add up, for every product in every reachable state. */
  lemma StockIsExact(s: State, p: int)
    requires Reachable(s) && p in s.db.inventory
    ensures var i := s.db.inventory[p];
      && i.reservedStock == Sum(ActiveQty(s.db.reservations, p))
      && i.soldStock == Sum(ConvertedQty(s.db.reservations, p))
      && i.availableStock + i.reservedStock + i.soldStock == i.initialStock
      && Stock.ChecksHold(i)
    ensures ReconcileProduct(s.db, p) ==
      s.db.(inventory := s.db.inventory[p := s.db.inventory[p].(version := s.db.inventory[p].version + 1)])
  {
    ReachableIsOk(s);
    assert StockRow(s.db.inventory[p], s.db.reservations, p);
    CountersWithinBounds(s.db.inventory, s.db.reservations, p);
    ReconcileChangesNothing(s.db, p);
  }

  /**
   * Once a session has won a reservation row, its stock statement goes through (or waits): the errors after it
   * are dead code.
   */
  lemma WonClaimsMoveStock(s: State, t: int, rows: seq<int>)
    requires Reachable(s) && t in s.sessions
    requires s.sessions[t].pc.ReturnStock? || s.sessions[t].pc.ReturnExpired? || s.sessions[t].pc.ConvertSell?
    ensures var m := NextMove(s.sessions[t], s.db, rows);
      m.Go? && InventoryRow(s.sessions[t].pc.seen.productId) in m.takes
  {
    ReachableSession(s, t);
    WinnerMovesStock(t, s.sessions[t], s.db, s.locks, rows);
  }

  lemma WinnerMovesStock(t: int, ses: Session, db: Db, locks: LockTable, rows: seq<int>)
    requires SessionOk(t, ses, db, locks) && StockInv(db.inventory, db.reservations)
    requires ses.pc.ReturnStock? || ses.pc.ReturnExpired? || ses.pc.ConvertSell?
    ensures var m := NextMove(ses, db, rows); m.Go? && InventoryRow(ses.pc.seen.productId) in m.takes
  {
    match ses.req
    case Cancel(_, _) => CancelReturns(t, ses.req, ses.pc, ses.w, db, locks);
    case Sweep(_) => SweepReturns(t, ses.req, ses.pc, ses.w, db, locks, rows);
    case Confirm(ev) => ConfirmSells(t, ev, ses.pc, ses.w, db, locks);
  }

  lemma CancelReturns(t: int, req: Request, pc: Pc, w: Db, db: Db, locks: LockTable)
    requires req.Cancel? && pc.ReturnStock? && CancelState(t, req, pc, w, db, locks)
    requires StockInv(db.inventory, db.reservations)
    ensures var m := CancelMove(req, pc, w, db); m.Go? && InventoryRow(pc.seen.productId) in m.takes
  {
    NoRows(db.inventory);
    ReturnAlwaysWorks(pc.seen, req.rid, db);
  }

  lemma SweepReturns(t: int, req: Request, pc: Pc, w: Db, db: Db, locks: LockTable, rows: seq<int>)
    requires req.Sweep? && pc.ReturnExpired? && SweepState(t, req, pc, w, db, locks)
    requires StockInv(db.inventory, db.reservations)
    ensures var m := SweepMove(req, pc, w, db, rows); m.Go? && InventoryRow(pc.seen.productId) in m.takes
  {
    NoRows(db.inventory);
    ReturnAlwaysWorks(pc.seen, pc.due[pc.i], db);
  }

  lemma ConfirmSells(t: int, ev: Event, pc: Pc, w: Db, db: Db, locks: LockTable)
    requires pc.ConvertSell? && ConfirmState(t, ev, pc, w, db, locks)
    requires StockInv(db.inventory, db.reservations)
    ensures var m := ConfirmMove(ev, pc, w, db); m.Go? && InventoryRow(pc.seen.productId) in m.takes
  {
    NoRows(db.inventory);
    ReturnAlwaysWorks(pc.seen, pc.rid, db);
  }

  // ---- orders and reservations ----

  /** Orders and reservations stay coupled. */
  lemma OrdersAreCoupled(s: State)
    requires Reachable(s)
    ensures forall o, o' ::
      (o in s.db.orders && o' in s.db.orders && s.db.orders[o].reservationId == s.db.orders[o'].reservationId) ==>
        o == o'
    ensures forall r :: r in s.db.reservations && s.db.reservations[r].status.Converted? ==>
      HasPaidOrder(s.db.orders, r)
    ensures forall o :: o in s.db.orders && s.db.orders[o].status.OrderPaid? ==>
      s.db.orders[o].reservationId in s.db.reservations && Ended(s.db.reservations[s.db.orders[o].reservationId])
    ensures forall o :: o in s.db.orders && s.db.orders[o].status.PaymentPending? ==>
      s.db.orders[o].reservationId in s.db.reservations
        && !s.db.reservations[s.db.orders[o].reservationId].status.Converted?
  {
    ReachableIsOk(s);
    forall o | o in s.db.orders ensures OrderOk(s.db.orders[o], s.db.reservations) {}
  }

  /** Every order's money adds up in every reachable state. */
  lemma MoneyAddsUp(s: State, o: int)
    requires Reachable(s) && o in s.db.orders
    ensures var x := s.db.orders[o];
      && x.subtotalCents == LineTotals(x.items)
      && 0 <= x.discountCents <= x.subtotalCents
      && x.totalCents == x.subtotalCents - x.discountCents
  {
    ReachableIsOk(s);
    assert OrderOk(s.db.orders[o], s.db.reservations);
  }

  /** Along any run a total never rises, a granted discount never changes, and only `paidAt` moves after PAID. */
  lemma MoneyOnlyFalls(s: State, s': State, o: int)
    requires Reachable(s) && Leads(s, s') && o in s.db.orders
    ensures
      && o in s'.db.orders
      && s'.db.orders[o].totalCents <= s.db.orders[o].totalCents
      && s'.db.orders[o].subtotalCents == s.db.orders[o].subtotalCents
      && (s.db.orders[o].discountCents > 0 ==> s'.db.orders[o].discountCents == s.db.orders[o].discountCents)
      && (s.db.orders[o].status.OrderPaid? ==> s'.db.orders[o] == s.db.orders[o].(paidAt := s'.db.orders[o].paidAt))
  {
    ReachableIsOk(s);
    RunStaysLater(s, s');
    assert OrderLater(s.db.orders[o], s'.db.orders[o]);
  }

  // ---- payments ----

  /**
   * A payment, and any amount a session is about to insert, is the order's subtotal or its total, never less
   * than the total.
   */
  lemma AmountsAreFair(s: State)
    requires Reachable(s)
    ensures forall q :: q in s.db.payments ==>
      s.db.payments[q].orderId in s.db.orders
        && AmountOk(s.db.payments[q].amountCents, s.db.orders[s.db.payments[q].orderId])
    ensures forall t :: t in s.sessions && s.sessions[t].req.Pay? && s.sessions[t].pc.InsertPayment? ==>
      && s.sessions[t].req.oid in s.db.orders
      && AmountOk(s.sessions[t].pc.amountCents, s.db.orders[s.sessions[t].req.oid])
  {
    ReachableIsOk(s);
    forall q | q in s.db.payments ensures PaymentOk(s.db.payments[q], s.db.orders) {}
    forall t | t in s.sessions && s.sessions[t].req.Pay? && s.sessions[t].pc.InsertPayment?
      ensures s.sessions[t].req.oid in s.db.orders
      ensures AmountOk(s.sessions[t].pc.amountCents, s.db.orders[s.sessions[t].req.oid])
    {
      ReachableSession(s, t);
    }
  }

  /** An order is PAID exactly when one of its payments is, and no event id serves two payments of a provider. */
  lemma PaidMeansPaid(s: State, o: int)
    requires Reachable(s) && o in s.db.orders
    ensures s.db.orders[o].status.OrderPaid? <==> HasPaidPayment(s.db.payments, o)
    ensures forall q, q', e ::
      (HoldsEvent(s.db.payments, q, e) && HoldsEvent(s.db.payments, q', e) && q.provider == q'.provider) ==> q == q'
  {
    ReachableIsOk(s);
    forall q | q in s.db.payments ensures PaymentOk(s.db.payments[q], s.db.orders) {}
  }

  /** A notification for an order already PAID only closes its payment and moves `paidAt`. */
  lemma LaterPaymentsChangeNothing(db: Db, ev: Event)
    requires Inv(db) && Accepts(db, ev) && ev.success
    requires db.orders[db.payments[ev.ref].orderId].status.OrderPaid?
    ensures var oid := db.payments[ev.ref].orderId;
      ConfirmPayment(db, ev).db == db.(
        payments := db.payments[ev.ref := Claimed(db.payments[ev.ref], ev)],
        orders := db.orders[oid := db.orders[oid].(paidAt := Some(ev.draws.paidAt))])
  {
    var oid := db.payments[ev.ref].orderId;
    assert OrderOk(db.orders[oid], db.reservations);
    QuantitiesPositive(db, oid);
    ConfirmIsRows(db, ev);
    MergeConfirm(db, ev);
    var w := ConfirmRows(db, ev);
    assert w.coupons == map[] && w.reservations == map[] && w.inventory == map[] && w.tickets == [];
    assert db.coupons + w.coupons == db.coupons && db.reservations + w.reservations == db.reservations;
    assert db.inventory + w.inventory == db.inventory && db.tickets + w.tickets == db.tickets;
    assert db.orders + w.orders == db.orders[oid := PaidOrder(db.orders[oid], ev.draws.paidAt)];
  }

  /** Stock after `quantity` reserved units were sold. */
  predicate Sold(i: Inventory, i': Inventory, quantity: int) {
    i' == i.(reservedStock := i.reservedStock - quantity, soldStock := i.soldStock + quantity, version := i.version + 1)
  }

  /** The inventory after the reservation was converted: one product sold its quantity, or nothing moved. */
  predicate Moved(inventory: map<int, Inventory>, inventory': map<int, Inventory>, r: Reservation) {
    if r.status.Active? then
      && r.productId in inventory && r.productId in inventory'
      && inventory' == inventory[r.productId := inventory'[r.productId]]
      && Sold(inventory[r.productId], inventory'[r.productId], r.quantity)
    else inventory' == inventory
  }

  /** What the first successful notification of an order leaves. */
  ghost predicate SettledBy(db: Db, ev: Event, oid: int, db': Db)
    requires oid in db.orders
  {
    var o := db.orders[oid];
    && oid in db'.orders && o.reservationId in db.reservations && o.reservationId in db'.reservations
    && db'.tickets == db.tickets + Generated(oid, o.items, ev.draws.ticketCode)
    && db'.orders[oid].status.OrderPaid?
    && Moved(db.inventory, db'.inventory, db.reservations[o.reservationId])
    && (db.reservations[o.reservationId].status.Active? <==> db'.reservations[o.reservationId].status.Converted?)
    && (Ended(db.reservations[o.reservationId]) <==> PaidLate(db'.orders[oid], db'.reservations))
  }

  /**
   * The first successful notification issues the order's tickets, and sells stock exactly when the reservation
   * is ACTIVE.
   */
  lemma FirstPaymentSettles(db: Db, ev: Event)
    requires Inv(db) && Accepts(db, ev) && ev.success
    requires db.orders[db.payments[ev.ref].orderId].status.PaymentPending?
    ensures SettledBy(db, ev, db.payments[ev.ref].orderId, ConfirmPayment(db, ev).db)
  {
    AcceptedTables(db, ev);
    TablesSettle(db, ev, db.payments[ev.ref].orderId, ConfirmPayment(db, ev).db);
  }

  lemma TablesSettle(db: Db, ev: Event, oid: int, db': Db)
    requires Inv(db) && oid in db.orders && db.orders[oid].status.PaymentPending?
    requires db'.orders == db.orders[oid := PaidOrder(db.orders[oid], ev.draws.paidAt)]
    requires db'.tickets == db.tickets + TicketRows(db, oid, ev.draws)
    requires db'.inventory == db.inventory + SoldRows(db, db.orders[oid].reservationId)
    requires db'.reservations == db.reservations + ConvertedRows(db, db.orders[oid].reservationId)
    ensures SettledBy(db, ev, oid, db')
  {
    assert OrderOk(db.orders[oid], db.reservations);
    ConversionShows(db, db.orders[oid].reservationId);
    assert TicketRows(db, oid, ev.draws) == Generated(oid, db.orders[oid].items, ev.draws.ticketCode);
  }

  /** The rows of a conversion. */
  lemma ConversionShows(db: Db, rid: int)
    requires StockInv(db.inventory, db.reservations) && rid in db.reservations
    ensures Moved(db.inventory, db.inventory + SoldRows(db, rid), db.reservations[rid])
    ensures db.reservations + ConvertedRows(db, rid) == if StillActive(db, rid) then
      db.reservations[rid := db.reservations[rid].(status := Converted)] else db.reservations
  {
    if StillActive(db, rid) {
      ActiveIsReserved(db.inventory, db.reservations, rid);
      var p := db.reservations[rid].productId;
      assert db.inventory + SoldRows(db, rid) == db.inventory[p := SoldRows(db, rid)[p]];
    } else {
      assert db.inventory + SoldRows(db, rid) == db.inventory;
    }
  }

  /** Whatever happens after an order is PAID, its tickets, reservation, coupon and PAID payments stay as they are. */
  lemma EffectsHappenOnce(s: State, s': State, o: int)
    requires Reachable(s) && Leads(s, s') && o in s.db.orders && s.db.orders[o].status.OrderPaid?
    ensures PaidForGood(s.db, s'.db, o)
  {
    ReachableIsOk(s);
    RunStaysLater(s, s');
    PaidOrderIsFrozen(s.db, s'.db, o);
  }

  /** What a PAID order keeps: of its coupon only the redemption may still come. */
  ghost predicate PaidForGood(db: Db, db': Db, o: int)
    requires o in db.orders
  {
    var rid := db.orders[o].reservationId;
    && TicketsOf(db'.tickets, o) == TicketsOf(db.tickets, o)
    && rid in db.reservations && rid in db'.reservations && db'.reservations[rid] == db.reservations[rid]
    && (forall c :: c in db'.coupons && db'.coupons[c].orderId == o ==> c in db.coupons)
    && (forall c :: c in db.coupons && db.coupons[c].orderId == o ==>
          c in db'.coupons && CouponLater(db.coupons[c], db'.coupons[c]))
    && (forall q :: q in db.payments && db.payments[q].status.Paid? ==>
          q in db'.payments && db'.payments[q] == db.payments[q])
  }

  lemma PaidOrderIsFrozen(db: Db, db': Db, o: int)
    requires Inv(db) && Inv(db') && Later(db, db') && o in db.orders && db.orders[o].status.OrderPaid?
    ensures PaidForGood(db, db', o)
  {
    assert OrderLater(db.orders[o], db'.orders[o]) && OrderOk(db.orders[o], db.reservations);
    var rid := db.orders[o].reservationId;
    assert ReservationLater(db.reservations[rid], db'.reservations[rid]);
    FrozenTickets(db, db', o);
    FrozenCoupon(db, db', o);
    forall q | q in db.payments && db.payments[q].status.Paid?
      ensures q in db'.payments && db'.payments[q] == db.payments[q] {
      assert PaymentLater(db.payments[q], db'.payments[q]);
    }
  }

  lemma FrozenTickets(db: Db, db': Db, o: int)
    requires TicketInv(db.tickets, db.orders) && TicketInv(db'.tickets, db'.orders) && db.tickets <= db'.tickets
    requires o in db.orders && o in db'.orders && OrderLater(db.orders[o], db'.orders[o])
    requires db.orders[o].status.OrderPaid?
    ensures TicketsOf(db'.tickets, o) == TicketsOf(db.tickets, o)
  {
    var rest := db'.tickets[|db.tickets|..];
    assert db'.tickets == db.tickets + rest;
    TicketsOfConcat(db.tickets, rest, o);
    assert |TicketsOf(db'.tickets, o)| == |TicketsOf(db.tickets, o)|;
    assert TicketsOf(rest, o) == [];
  }

  lemma FrozenCoupon(db: Db, db': Db, o: int)
    requires CouponInv(db.coupons, db.orders, db.promotions) && CouponInv(db'.coupons, db'.orders, db'.promotions)
    requires CouponsLater(db.coupons, db'.coupons) && PromotionsLater(db.promotions, db'.promotions)
    requires o in db.orders && o in db'.orders && db'.orders[o].discountCode == db.orders[o].discountCode
    requires db.orders[o].status.OrderPaid?
    ensures forall c :: c in db'.coupons && db'.coupons[c].orderId == o ==> c in db.coupons
    ensures forall c :: c in db.coupons && db.coupons[c].orderId == o ==>
      c in db'.coupons && CouponLater(db.coupons[c], db'.coupons[c])
  {
    forall c | c in db'.coupons && db'.coupons[c].orderId == o ensures c in db.coupons {
      assert CouponOk(db'.coupons[c], db'.orders, db'.promotions);
      var code := db.orders[o].discountCode.value;
      assert PromotionLater(db.promotions[code], db'.promotions[code]);
      var first :| first in db.coupons.Keys && db.coupons[first].orderId == o;
      assert CouponLater(db.coupons[first], db'.coupons[first]);
      assert first in db'.coupons;
    }
  }

  /** Delivered again at once, an event changes nothing; it is answered as a replay exactly for successes. */
  lemma ImmediateRedeliveryChangesNothing(db: Db, ev: Event)
    requires Inv(db) && ConfirmPayment(db, ev).reply == Confirmed(true)
    ensures var once := ConfirmPayment(db, ev).db;
      ConfirmPayment(once, ev) == Outcome(once, Confirmed(!ev.success))
  {
    assert PaymentOk(db.payments[ev.ref], db.orders);
    ConfirmIsRows(db, ev);
    if !ev.success {
      FailureRedelivered(db, ev);
    } else {
      MergeConfirm(db, ev);
    }
  }

  lemma FailureRedelivered(db: Db, ev: Event)
    requires Accepts(db, ev) && !ev.success
    ensures var once := Merge(db, ConfirmRows(db, ev));
      ConfirmPayment(once, ev) == Outcome(once, Confirmed(true))
  {
    var payments' := db.payments[ev.ref := Claimed(db.payments[ev.ref], ev)];
    MergeFailure(db, ev);
    assert !EventTaken(payments', ev.ref, ev.eventId) by {
      forall q | q in payments'.Keys && q != ev.ref && q.provider == ev.ref.provider
        ensures !HoldsEvent(payments', q, ev.eventId)
      {
        assert q in db.payments.Keys;
      }
    }
    assert payments'[ev.ref := Claimed(payments'[ev.ref], ev)] == payments';
  }

  // ---- issuing under contention ----

  /** The statements between taking a paid order's row and committing. */
  predicate IssuesFor(pc: Pc, oid: int) {
    (BeforeTickets(pc) || pc.FindTickets? || pc.ReadItems? || pc.InsertTicket?) && pc.oid == oid
  }

  /** Two confirmations never look for an order's coupon or tickets, or insert them, at the same time. */
  lemma IssuingIsExclusive(s: State, t: int, u: int, oid: int)
    requires Reachable(s) && t in s.sessions && u in s.sessions
    requires IssuesFor(s.sessions[t].pc, oid) && IssuesFor(s.sessions[u].pc, oid)
    ensures t == u
  {
    ReachableSession(s, t);
    ReachableSession(s, u);
    IssuerHoldsOrder(t, s.sessions[t], oid, s.db, s.locks);
    IssuerHoldsOrder(u, s.sessions[u], oid, s.db, s.locks);
  }

  lemma IssuerHoldsOrder(t: int, ses: Session, oid: int, db: Db, locks: LockTable)
    requires SessionOk(t, ses, db, locks) && IssuesFor(ses.pc, oid)
    ensures Owns(locks, t, OrderRow(oid))
  {
    assert ses.req.Confirm?;
  }

  /** In every reachable state each order has the tickets it is due: all of them once PAID, none before. */
  lemma TicketsAreIssuedOnce(s: State, o: int)
    requires Reachable(s) && o in s.db.orders
    ensures if s.db.orders[o].status.OrderPaid? then IsIssue(TicketsOf(s.db.tickets, o), s.db.orders[o].items)
            else TicketsOf(s.db.tickets, o) == []
    ensures UniqueCodes(s.db.tickets)
  {
    ReachableIsOk(s);
  }

  /**
   * A PAID order has one reward coupon when its code's promotion issues them, otherwise none; an unpaid one has
   * none.
   */
  lemma CouponsAreIssuedOnce(s: State, o: int)
    requires Reachable(s) && o in s.db.orders
    ensures HasCoupon(s.db.coupons, o) <==>
      s.db.orders[o].status.OrderPaid? && Issues(s.db.promotions, s.db.orders[o].discountCode)
    ensures forall c, c' ::
      (c in s.db.coupons && c' in s.db.coupons && s.db.coupons[c].orderId == s.db.coupons[c'].orderId) ==> c == c'
  {
    ReachableIsOk(s);
    if HasCoupon(s.db.coupons, o) {
      var c :| c in s.db.coupons.Keys && s.db.coupons[c].orderId == o;
      assert CouponOk(s.db.coupons[c], s.db.orders, s.db.promotions);
    }
  }

  // ---- ticket accounting ----

  /** No order of the product was paid after its reservation ended. */
  predicate NoneLate(db: Db, p: int) {
    forall o | o in db.orders.Keys :: PaidLate(db.orders[o], db.reservations) ==> QuantityOf(db.orders[o].items, p) == 0
  }

  /**
   * Tickets = paid quantity = sold stock + quantity paid late; they equal sold stock exactly when nothing was
   * paid late.
   */
  lemma TicketsAreAccounted(s: State, p: int)
    requires Reachable(s) && p in s.db.inventory
    ensures var tickets := Count(s.db.tickets, IsFor(p));
      && tickets == Sum(PaidQty(s.db.orders, p))
      && tickets == s.db.inventory[p].soldStock + Sum(LateQty(s.db.orders, s.db.reservations, p))
      && (tickets == s.db.inventory[p].soldStock <==> NoneLate(s.db, p))
  {
    ReachableIsOk(s);
    assert AccountRow(p, s.db.reservations, s.db.orders, s.db.tickets);
    assert StockRow(s.db.inventory[p], s.db.reservations, p);
    LateIsZero(s.db, p);
  }

  ghost predicate TicketsFit(db: Db, p: int)
    requires p in db.inventory
  {
    Count(db.tickets, IsFor(p)) <= db.inventory[p].initialStock
  }

  lemma FitIffLateFits(db: Db, p: int)
    requires Inv(db) && p in db.inventory
    ensures var i := db.inventory[p];
      TicketsFit(db, p) <==> Sum(LateQty(db.orders, db.reservations, p)) <= i.availableStock + i.reservedStock
  {
    assert AccountRow(p, db.reservations, db.orders, db.tickets);
    assert StockRow(db.inventory[p], db.reservations, p);
  }

  /** In every reachable state the tickets fit the stock exactly when what was paid late is no more than is not sold. */
  lemma TicketsFitIff(s: State, p: int)
    requires Reachable(s) && p in s.db.inventory
    ensures var i := s.db.inventory[p];
      TicketsFit(s.db, p) <==> Sum(LateQty(s.db.orders, s.db.reservations, p)) <= i.availableStock + i.reservedStock
  {
    ReachableIsOk(s);
    FitIffLateFits(s.db, p);
  }

  /**
   * The payment that oversells, if any, is told by the tickets alone: they fit afterwards exactly when the
   * order's do.
   */
  lemma PaymentFitsIff(db: Db, ev: Event, p: int)
    requires Inv(db) && Accepts(db, ev) && ev.success && p in db.inventory
    requires db.orders[db.payments[ev.ref].orderId].status.PaymentPending?
    ensures var db' := ConfirmPayment(db, ev).db;
      var order := db.orders[db.payments[ev.ref].orderId];
      && p in db'.inventory
      && (TicketsFit(db', p) <==>
            Count(db.tickets, IsFor(p)) + QuantityOf(order.items, p) <= db.inventory[p].initialStock)
  {
    var oid := db.payments[ev.ref].orderId;
    FirstPaymentSettles(db, ev);
    SettledCounts(db, ev, oid, ConfirmPayment(db, ev).db, p);
  }

  lemma SettledCounts(db: Db, ev: Event, oid: int, db': Db, p: int)
    requires oid in db.orders && SettledBy(db, ev, oid, db') && p in db.inventory && p != 0
    ensures p in db'.inventory && db'.inventory[p].initialStock == db.inventory[p].initialStock
    ensures Count(db'.tickets, IsFor(p)) == Count(db.tickets, IsFor(p)) + QuantityOf(db.orders[oid].items, p)
  {
    var items := db.orders[oid].items;
    CountConcat(db.tickets, Generated(oid, items, ev.draws.ticketCode), IsFor(p));
    GeneratedCounts(oid, items, ev.draws.ticketCode, p);
  }

  /** Nothing was paid late exactly when the late quantities sum to zero. */
  lemma LateIsZero(db: Db, p: int)
    ensures Sum(LateQty(db.orders, db.reservations, p)) == 0 <==> NoneLate(db, p)
  {
    var late := LateQty(db.orders, db.reservations, p);
    SumIsZero(late);
    if NoneLate(db, p) {
      assert forall o :: o in late ==> late[o] == 0;
    } else {
      var o :| o in db.orders.Keys && PaidLate(db.orders[o], db.reservations) && QuantityOf(db.orders[o].items, p) != 0;
      assert late[o] != 0;
    }
  }

  // ---- checkout ----

  /** Idempotency keys and orders correspond one to one, and successful calls with one key agree. */
  lemma CheckoutIsIdempotent(s: State)
    requires Reachable(s)
    ensures forall k :: k in s.db.keys ==> s.db.keys[k] in s.db.orders && s.db.orders[s.db.keys[k]].idempotencyKey == k
    ensures forall o :: o in s.db.orders ==>
      s.db.orders[o].idempotencyKey in s.db.keys && s.db.keys[s.db.orders[o].idempotencyKey] == o
    ensures forall t :: t in s.sessions ==> PlacedOk(s.sessions[t], s.db)
  {
    ReachableIsOk(s);
    forall t | t in s.sessions ensures PlacedOk(s.sessions[t], s.db) {
      ReachableSession(s, t);
    }
  }

  predicate Placed(ses: Session) { ses.req.PlaceCheckout? && ses.pc.Done? && ses.pc.reply.Ordered? }

  /** A call that succeeded returned the order its key is bound to. */
  predicate PlacedOk(ses: Session, db: Db) {
    Placed(ses) ==> ses.req.key in db.keys && db.keys[ses.req.key] == ses.pc.reply.oid
  }

  lemma SameKeySameOrder(s: State, t: int, u: int)
    requires Reachable(s) && t in s.sessions && u in s.sessions
    requires Placed(s.sessions[t]) && Placed(s.sessions[u]) && s.sessions[t].req.key == s.sessions[u].req.key
    ensures s.sessions[t].pc.reply.oid == s.sessions[u].pc.reply.oid
  {
    CheckoutIsIdempotent(s);
  }

  /** A key never rebinds. */
  lemma KeysNeverRebind(s: State, s': State, k: string)
    requires Reachable(s) && Leads(s, s') && k in s.db.keys
    ensures k in s'.db.keys && s'.db.keys[k] == s.db.keys[k]
  {
    ReachableIsOk(s);
    RunStaysLater(s, s');
  }

  /** This step of a checkout changed the database only to end it with its own new order. */
  ghost predicate OnlyByOrdering(s: State, t: int, s': State)
    requires t in s.sessions && s.sessions[t].req.PlaceCheckout?
  {
    && t in s'.sessions
    && (s'.db != s.db ==> s'.sessions[t].pc == Done(Ordered(s.sessions[t].req.oid)))
    && (s'.sessions[t].pc.Done? && s'.sessions[t].pc.reply.Refused? ==> s'.db == s.db)
  }

  lemma LastCommitShows(s: State, t: int, m: Move)
    requires t in s.sessions && s.sessions[t].req.PlaceCheckout?
    requires m.Commit? ==> m.pc == Done(Ordered(s.sessions[t].req.oid))
    ensures OnlyByOrdering(s, t, AfterMove(s, t, m))
  {}

  lemma CheckoutStep(s: State, t: int, rows: seq<int>)
    requires MachineOk(s) && t in s.sessions && s.sessions[t].req.PlaceCheckout?
    ensures OnlyByOrdering(s, t, AfterMove(s, t, NextMove(s.sessions[t], s.db, rows)))
  {
    SessionIsOk(s, t);
    CheckoutCommitsLast(t, s.sessions[t], s.db, s.locks, rows);
    LastCommitShows(s, t, NextMove(s.sessions[t], s.db, rows));
  }

  /** A checkout step writes to the database only when the call thereby succeeds; a refusal leaves no trace. */
  lemma FailedCheckoutLeavesNothing(s: State, t: int, rows: seq<int>)
    requires Reachable(s) && t in s.sessions && s.sessions[t].req.PlaceCheckout?
    ensures OnlyByOrdering(s, t, Run1(s, Step(t, rows)))
  {
    ReachableIsOk(s);
    CheckoutStep(s, t, rows);
  }

  lemma CheckoutCommitsLast(t: int, ses: Session, db: Db, locks: LockTable, rows: seq<int>)
    requires ses.req.PlaceCheckout? && SessionOk(t, ses, db, locks)
    ensures NextMove(ses, db, rows).Commit? ==> NextMove(ses, db, rows).pc == Done(Ordered(ses.req.oid))
  {
    assert CheckoutState(t, ses.req, ses.pc, ses.w, db, locks);
  }
}
