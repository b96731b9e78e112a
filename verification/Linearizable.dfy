/**
 * Calls interleaved statement by statement answer as if they had run alone: when a create, cancel, confirm or
 * redeem ends, its reply and what it commits are those of the whole call on the database its last statement found.
 */
module Linearizable {
  import opened Common
  import opened Schema
  import opened TicketCodes
  import opened Discount
  import opened Services
  import opened Invariants
  import opened Settlement
  import opened Footprints
  import opened Rely
  import opened Machine
  import opened SessionState
  import opened Stable
  import opened Moves
  import opened ConfirmMoves
  import opened Calls
  import opened Concurrency
  import opened RunLedger

  /** If the statement ends the call, it leaves `out`; a call commits with its last statement. */
  ghost predicate EndsAs(m: Move, db: Db, out: Outcome) {
    match m
    case Wait => true
    case Go(pc, _, _) => !pc.Done?
    case Commit(pc, w, _, _) => pc.Done? && Outcome(Merge(db, w), pc.reply) == out
    case End(pc) => pc.Done? ==> Outcome(db, pc.reply) == out
  }

  /** If the statement ends the call, it ends it as `Call` does. */
  ghost predicate Answers(m: Move, db: Db, req: Request)
    requires !req.Sweep?
  {
    EndsAs(m, db, Call(db, req))
  }

  /** The call of `t` ended with this step as `out`, or nothing was committed. */
  ghost predicate StepLeaves(s: State, t: int, s': State, out: Outcome) {
    && t in s'.sessions
    && (if s'.sessions[t].pc.Done? then Outcome(s'.db, s'.sessions[t].pc.reply) == out else s'.db == s.db)
  }

  lemma EndsShow(s: State, t: int, m: Move, out: Outcome)
    requires t in s.sessions && !s.sessions[t].pc.Done? && EndsAs(m, s.db, out)
    ensures StepLeaves(s, t, AfterMove(s, t, m), out)
  {}

  // ---- create and cancel ----

  lemma CreateAnswers(t: int, req: Request, pc: Pc, w: Db, db: Db, locks: LockTable)
    requires req.Create? && CreateState(t, req, pc, w, db, locks) && !pc.Committing?
    ensures Answers(CreateMove(req, pc, w, db), db, req)
  {
    if pc.InsertReservation? {
      CreateInsertAnswers(t, req, w, db, locks);
    } else {
      MergeWithNothing(db);
    }
  }

  lemma CreateInsertAnswers(t: int, req: Request, w: Db, db: Db, locks: LockTable)
    requires req.Create? && CreateState(t, req, InsertReservation, w, db, locks)
    ensures Answers(CreateMove(req, InsertReservation, w, db), db, req)
  {
    NoRows(db.reservations);
  }

  lemma CancelAnswers(t: int, req: Request, pc: Pc, w: Db, db: Db, locks: LockTable)
    requires req.Cancel? && CancelState(t, req, pc, w, db, locks) && !pc.Committing?
    requires StockInv(db.inventory, db.reservations)
    ensures Answers(CancelMove(req, pc, w, db), db, req)
  {
    if pc.ReturnStock? {
      CancelReturnAnswers(t, req, pc.seen, w, db, locks);
    } else {
      MergeWithNothing(db);
    }
  }

  lemma CancelReturnAnswers(t: int, req: Request, seen: Reservation, w: Db, db: Db, locks: LockTable)
    requires req.Cancel? && CancelState(t, req, ReturnStock(seen), w, db, locks)
    requires StockInv(db.inventory, db.reservations)
    ensures Answers(CancelMove(req, ReturnStock(seen), w, db), db, req)
  {
    NoRows(db.inventory);
    ReturnAlwaysWorks(seen, req.rid, db);
  }

  // ---- redeem ----

  lemma RefusalAnswers(req: Request, action: Action, db: Db)
    requires req.Redeem? && req.code in db.coupons && RefusedAs(db.coupons[req.code], req.now, action)
    ensures Answers(RedeemMove(req, LogRefusal(action), NoWrites, db), db, req)
  {
    MergeWithNothing(db);
    assert [] + [Redemption(req.code, req.userId, action)] == [Redemption(req.code, req.userId, action)];
  }

  lemma RedeemAnswers(t: int, req: Request, pc: Pc, w: Db, db: Db, locks: LockTable)
    requires req.Redeem? && RedeemState(t, req, pc, w, db, locks) && !pc.Committing?
    ensures Answers(RedeemMove(req, pc, w, db), db, req)
  {
    if pc.LogRefusal? {
      RefusalAnswers(req, pc.action, db);
    } else if pc.Start? || pc.ClaimCoupon? {
      MergeWithNothing(db);
    }
  }

  // ---- confirm ----

  lemma FindPaymentAnswers(ev: Event, db: Db)
    ensures Answers(FindPaymentMove(ev, NoWrites, Merge(db, NoWrites)), db, Confirm(ev))
  {
    MergeWithNothing(db);
  }

  lemma ClaimPaymentAnswers(ev: Event, db: Db)
    requires ev.ref in db.payments && AmountMatches(ev, db.payments[ev.ref])
    ensures Answers(ClaimPaymentMove(ev, NoWrites, Merge(db, NoWrites)), db, Confirm(ev))
  {
    MergeWithNothing(db);
  }

  /** From the claim to the coupon nothing can be refused. */
  lemma SettlingGoesOn(t: int, ev: Event, pc: Pc, w: Db, db: Db, locks: LockTable)
    requires ConfirmState(t, ev, pc, w, db, locks)
    requires pc.ReadPaidOrder? || pc.MarkPaid? || pc.FindCoupon?
    ensures Answers(ConfirmMove(ev, pc, w, db), db, Confirm(ev))
  {
    NoRows(db.orders);
  }

  lemma ConvertingGoesOn(t: int, ev: Event, pc: Pc, w: Db, db: Db, locks: LockTable)
    requires ConfirmState(t, ev, pc, w, db, locks) && OrderInv(db.orders, db.reservations)
    requires pc.ReadReserved? || pc.ConvertRead? || pc.ConvertClaim?
    ensures Answers(ConfirmMove(ev, pc, w, db), db, Confirm(ev))
  {
    NoRows(db.reservations);
    assert OrderOk(db.orders[pc.oid], db.reservations);
  }

  lemma SellGoesOn(t: int, ev: Event, pc: Pc, w: Db, db: Db, locks: LockTable)
    requires pc.ConvertSell? && ConfirmState(t, ev, pc, w, db, locks) && StockInv(db.inventory, db.reservations)
    ensures Answers(ConfirmMove(ev, pc, w, db), db, Confirm(ev))
  {
    NoRows(db.inventory);
    ReturnAlwaysWorks(pc.seen, pc.rid, db);
  }

  lemma IssuingGoesOn(t: int, ev: Event, pc: Pc, w: Db, db: Db, locks: LockTable)
    requires ConfirmState(t, ev, pc, w, db, locks)
    requires pc.ReadCode? || pc.FindPromotion? || pc.FindTickets? || pc.ReadItems?
    ensures Answers(ConfirmMove(ev, pc, w, db), db, Confirm(ev))
  {
    MergeOne(db.orders, pc.oid, PaidOrder(db.orders[pc.oid], ev.draws.paidAt));
  }

  /** A code that collides refuses the whole notification. */
  lemma CollisionAnswers(db: Db, ev: Event)
    requires StockInv(db.inventory, db.reservations) && Claims(db, ev) && ev.success && !Accepts(db, ev)
    ensures Answers(Refuse(UniqueViolation), db, Confirm(ev))
  {
    SuccessIsRows(db, ev);
  }

  lemma InsertCouponAnswers(t: int, ev: Event, oid: int, userId: int, code: string, hours: int, w: Db, db: Db,
                            locks: LockTable)
    requires InsertingCoupon(t, ev, oid, userId, code, hours, w, db, locks) && StockInv(db.inventory, db.reservations)
    ensures Answers(InsertCouponMove(ev, oid, userId, code, hours, w, Merge(db, w)), db, Confirm(ev))
  {
    InsertCouponIs(ev, oid, userId, code, hours, w, db);
    if ev.draws.couponCode in db.coupons { CollisionAnswers(db, ev); }
  }

  lemma InsertTicketAnswers(t: int, ev: Event, oid: int, i: nat, w: Db, db: Db, locks: LockTable)
    requires oid in db.orders && TicketsIn(t, ev, oid, i, db, locks) && StockInv(db.inventory, db.reservations)
    requires Ticketing(t, ev, oid, Generated(oid, db.orders[oid].items, ev.draws.ticketCode)[..i], w, db, locks)
    ensures Answers(InsertTicketMove(ev, oid, db.orders[oid].items, i, w, Merge(db, w)), db, Confirm(ev))
  {
    var all := Generated(oid, db.orders[oid].items, ev.draws.ticketCode);
    if i < |all| && CodeUsed(db.tickets + all[..i], ev.draws.ticketCode(i)) {
      assert !FreshCodes(db.tickets, TicketRows(db, oid, ev.draws)) by {
        assert CodeUsed(db.tickets + all[..i], all[i].code);
      }
      CollisionAnswers(db, ev);
    }
  }

  lemma IssuingAnswers(t: int, ev: Event, pc: Pc, w: Db, db: Db, locks: LockTable)
    requires ConfirmState(t, ev, pc, w, db, locks) && StockInv(db.inventory, db.reservations)
    requires pc.ReadCode? || pc.FindPromotion? || pc.InsertCoupon? || pc.FindTickets? || pc.ReadItems?
      || pc.InsertTicket?
    ensures Answers(ConfirmMove(ev, pc, w, db), db, Confirm(ev))
  {
    if pc.InsertCoupon? {
      InsertCouponAnswers(t, ev, pc.oid, pc.userId, pc.code, pc.hours, w, db, locks);
    } else if pc.InsertTicket? {
      InsertTicketAnswers(t, ev, pc.oid, pc.i, w, db, locks);
    } else {
      IssuingGoesOn(t, ev, pc, w, db, locks);
    }
  }

  lemma ConfirmAnswers(t: int, ev: Event, pc: Pc, w: Db, db: Db, locks: LockTable)
    requires ConfirmState(t, ev, pc, w, db, locks) && !pc.Committing? && !Finished(pc)
    requires StockInv(db.inventory, db.reservations) && OrderInv(db.orders, db.reservations)
    ensures Answers(ConfirmMove(ev, pc, w, db), db, Confirm(ev))
  {
    if pc.Start? || pc.ClaimPayment? || BeforeOrder(pc) || pc.MarkPaid? || pc.FindCoupon? {
      EarlyAnswers(t, ev, pc, w, db, locks);
    } else {
      IssuingAnswers(t, ev, pc, w, db, locks);
    }
  }

  lemma EarlyAnswers(t: int, ev: Event, pc: Pc, w: Db, db: Db, locks: LockTable)
    requires ConfirmState(t, ev, pc, w, db, locks) && !pc.Committing? && !Finished(pc)
    requires StockInv(db.inventory, db.reservations) && OrderInv(db.orders, db.reservations)
    requires pc.Start? || pc.ClaimPayment? || BeforeOrder(pc) || pc.MarkPaid? || pc.FindCoupon?
    ensures Answers(ConfirmMove(ev, pc, w, db), db, Confirm(ev))
  {
    if pc.Start? {
      FindPaymentAnswers(ev, db);
    } else if pc.ClaimPayment? {
      ClaimPaymentAnswers(ev, db);
    } else if pc.ConvertSell? {
      SellGoesOn(t, ev, pc, w, db, locks);
    } else if pc.ReadReserved? || pc.ConvertRead? || pc.ConvertClaim? {
      ConvertingGoesOn(t, ev, pc, w, db, locks);
    } else {
      SettlingGoesOn(t, ev, pc, w, db, locks);
    }
  }

  // ---- committing ----

  lemma CommittedEffect(t: int, x: Txn, w: Db, db: Db, locks: LockTable)
    requires Ready(t, x, w, db, locks) && Inv(db)
    ensures Merge(db, w) == Effect(db, x)
  {
    forall q | q in db.payments ensures db.payments[q].orderId in db.orders {
      assert PaymentOk(db.payments[q], db.orders);
    }
    EffectIsRows(db, x);
  }

  lemma CreateCommitAnswers(t: int, req: Request, pc: Pc, w: Db, db: Db, locks: LockTable)
    requires req.Create? && CreateState(t, req, pc, w, db, locks) && pc.Committing? && Inv(db)
    ensures EndsAs(Commit(pc.next, w, {}, pc.txn), db, Call(db, req))
  {
    CommittedEffect(t, pc.txn, w, db, locks);
  }

  lemma CancelCommitAnswers(t: int, req: Request, pc: Pc, w: Db, db: Db, locks: LockTable)
    requires req.Cancel? && CancelState(t, req, pc, w, db, locks) && pc.Committing? && Inv(db)
    ensures EndsAs(Commit(pc.next, w, {}, pc.txn), db, Call(db, req))
  {
    CommittedEffect(t, pc.txn, w, db, locks);
  }

  lemma ConfirmCommits(t: int, ev: Event, pc: Pc, w: Db, db: Db, locks: LockTable)
    requires ConfirmState(t, ev, pc, w, db, locks) && pc.Committing?
    ensures pc == Committing(TConfirm(ev), Done(Confirmed(true))) && Ready(t, TConfirm(ev), w, db, locks)
  {}

  lemma ConfirmCommitAnswers(ev: Event, w: Db, db: Db)
    requires ConfirmPayment(db, ev) == Outcome(Merge(db, w), Confirmed(true))
    ensures EndsAs(Commit(Done(Confirmed(true)), w, {}, TConfirm(ev)), db, Call(db, Confirm(ev)))
  {}

  lemma ReadyConfirms(t: int, ev: Event, w: Db, db: Db, locks: LockTable)
    requires Ready(t, TConfirm(ev), w, db, locks) && Inv(db)
    ensures ConfirmPayment(db, ev) == Outcome(Merge(db, w), Confirmed(true))
  {
    CommittedEffect(t, TConfirm(ev), w, db, locks);
    ConfirmationIsCall(db, ev);
  }

  lemma ConfirmationIsCall(db: Db, ev: Event)
    requires StockInv(db.inventory, db.reservations) && Accepts(db, ev)
    ensures ConfirmPayment(db, ev) == Outcome(Effect(db, TConfirm(ev)), Confirmed(true))
  {
    assert ConfirmPayment(db, ev).reply == Confirmed(true) by { ConfirmIsRows(db, ev); }
  }

  /** An enabled redemption is what the call does. */
  lemma RedemptionIsCall(db: Db, userId: int, code: string, now: int, stored: bool)
    requires Enabled(db, TRedeem(userId, code, now))
    ensures RedeemCoupon(db, userId, code, now, stored)
      == Outcome(Effect(db, TRedeem(userId, code, now)), CouponRedeemed)
  {}

  lemma RedeemCommits(t: int, req: Request, pc: Pc, w: Db, db: Db, locks: LockTable)
    requires req.Redeem? && RedeemState(t, req, pc, w, db, locks) && pc.Committing?
    ensures pc == Committing(TRedeem(req.userId, req.code, req.now), Done(CouponRedeemed))
    ensures Ready(t, TRedeem(req.userId, req.code, req.now), w, db, locks)
  {}

  lemma ReadyRedeems(t: int, req: Request, w: Db, db: Db, locks: LockTable)
    requires req.Redeem? && Ready(t, TRedeem(req.userId, req.code, req.now), w, db, locks) && Inv(db)
    ensures RedeemCoupon(db, req.userId, req.code, req.now, req.stored) == Outcome(Merge(db, w), CouponRedeemed)
  {
    CommittedEffect(t, TRedeem(req.userId, req.code, req.now), w, db, locks);
    RedemptionIsCall(db, req.userId, req.code, req.now, req.stored);
  }

  lemma ReservationCommitAnswers(t: int, ses: Session, db: Db, locks: LockTable, rows: seq<int>)
    requires SessionOk(t, ses, db, locks) && ses.pc.Committing? && Inv(db)
    requires ses.req.Create? || ses.req.Cancel?
    ensures Answers(NextMove(ses, db, rows), db, ses.req)
  {
    if ses.req.Create? {
      CreateCommitAnswers(t, ses.req, ses.pc, ses.w, db, locks);
    } else {
      CancelCommitAnswers(t, ses.req, ses.pc, ses.w, db, locks);
    }
  }

  lemma SettledCommitAnswers(t: int, ses: Session, db: Db, locks: LockTable, rows: seq<int>)
    requires SessionOk(t, ses, db, locks) && ses.pc.Committing? && Inv(db)
    requires ses.req.Confirm? || ses.req.Redeem?
    ensures Answers(NextMove(ses, db, rows), db, ses.req)
  {
    if ses.req.Confirm? {
      ConfirmCommits(t, ses.req.ev, ses.pc, ses.w, db, locks);
      ReadyConfirms(t, ses.req.ev, ses.w, db, locks);
      ConfirmCommitAnswers(ses.req.ev, ses.w, db);
    } else {
      RedeemCommits(t, ses.req, ses.pc, ses.w, db, locks);
      ReadyRedeems(t, ses.req, ses.w, db, locks);
    }
  }

  lemma CommitAnswers(t: int, ses: Session, db: Db, locks: LockTable, rows: seq<int>)
    requires SessionOk(t, ses, db, locks) && ses.pc.Committing? && Inv(db)
    requires ses.req.Create? || ses.req.Cancel? || ses.req.Confirm? || ses.req.Redeem?
    ensures Answers(NextMove(ses, db, rows), db, ses.req)
  {
    if ses.req.Create? || ses.req.Cancel? {
      ReservationCommitAnswers(t, ses, db, locks, rows);
    } else {
      SettledCommitAnswers(t, ses, db, locks, rows);
    }
  }

  lemma StatementAnswers(t: int, ses: Session, db: Db, locks: LockTable, rows: seq<int>)
    requires SessionOk(t, ses, db, locks) && !ses.pc.Committing? && !Finished(ses.pc) && Inv(db)
    requires ses.req.Create? || ses.req.Cancel? || ses.req.Confirm? || ses.req.Redeem?
    ensures Answers(NextMove(ses, db, rows), db, ses.req)
  {
    match ses.req
    case Create(_, _, _, _, _) => CreateAnswers(t, ses.req, ses.pc, ses.w, db, locks);
    case Cancel(_, _) => CancelAnswers(t, ses.req, ses.pc, ses.w, db, locks);
    case Confirm(ev) => ConfirmAnswers(t, ev, ses.pc, ses.w, db, locks);
    case Redeem(_, _, _, _) => RedeemAnswers(t, ses.req, ses.pc, ses.w, db, locks);
  }

  lemma StepAnswers(s: State, t: int, rows: seq<int>)
    requires MachineOk(s) && t in s.sessions && !Finished(s.sessions[t].pc)
    requires var req := s.sessions[t].req; req.Create? || req.Cancel? || req.Confirm? || req.Redeem?
    ensures StepLeaves(s, t, AfterMove(s, t, NextMove(s.sessions[t], s.db, rows)), Call(s.db, s.sessions[t].req))
  {
    SessionIsOk(s, t);
    EndsAsCall(t, s.sessions[t], s.db, s.locks, rows);
    EndsShow(s, t, NextMove(s.sessions[t], s.db, rows), Call(s.db, s.sessions[t].req));
  }

  /** In every interleaving: a call that ends has done, and replies, exactly what it does alone at that moment. */
  lemma CallsAreLinearizable(s: State, t: int, rows: seq<int>)
    requires Reachable(s) && t in s.sessions && !Finished(s.sessions[t].pc)
    requires var req := s.sessions[t].req; req.Create? || req.Cancel? || req.Confirm? || req.Redeem?
    ensures StepLeaves(s, t, Run1(s, Step(t, rows)), Call(s.db, s.sessions[t].req))
  {
    ReachableIsOk(s);
    StepAnswers(s, t, rows);
  }

  lemma EndsAsCall(t: int, ses: Session, db: Db, locks: LockTable, rows: seq<int>)
    requires SessionOk(t, ses, db, locks) && !Finished(ses.pc) && Inv(db)
    requires ses.req.Create? || ses.req.Cancel? || ses.req.Confirm? || ses.req.Redeem?
    ensures Answers(NextMove(ses, db, rows), db, ses.req)
  {
    if ses.pc.Committing? {
      CommitAnswers(t, ses, db, locks, rows);
    } else {
      StatementAnswers(t, ses, db, locks, rows);
    }
  }

  // ---- checkout: the transaction, with the price read before ----

  /** The checkout transaction at the price it finds; None when the product has none. */
  function Placement(db: Db, req: Request, price: Option<int>): Outcome
    requires req.PlaceCheckout?
  {
    match price
    case Some(p) => PlaceOrder(db, req.userId, req.rid, req.key, req.oid, p)
    case None =>
      match Purchasable(db, req.userId, req.rid)
      case Err(e) => Outcome(db, Refused(e))
      case Ok(_) => Outcome(db, Refused(Fault))
  }

  /** The statements of the checkout transaction, and the price it goes by once it has read it. */
  predicate PlacesAt(pc: Pc, db: Db, price: Option<int>) {
    match pc
    case LockReservation => true
    case ReadReservation => true
    case CheckLinked(_) => true
    case ReadPrice(seen) => price == if seen.productId in db.prices then Some(db.prices[seen.productId]) else None
    case InsertOrder(_, p) => price == Some(p)
    case InsertKey(p) => price == Some(p)
    case Committing(x, _) => x.TCheckout? && price == Some(x.price)
    case _ => false
  }

  lemma CheckoutLocking(t: int, req: Request, pc: Pc, w: Db, db: Db, locks: LockTable, price: Option<int>)
    requires req.PlaceCheckout? && CheckoutState(t, req, pc, w, db, locks)
    requires pc.LockReservation? || pc.ReadReservation? || pc.CheckLinked?
    ensures EndsAs(CheckoutMove(req, pc, w, db), db, Placement(db, req, price))
  {
    MergeWithNothing(db);
  }

  lemma CheckoutPricing(t: int, req: Request, seen: Reservation, w: Db, db: Db, locks: LockTable, price: Option<int>)
    requires req.PlaceCheckout? && CheckoutState(t, req, ReadPrice(seen), w, db, locks)
    requires PlacesAt(ReadPrice(seen), db, price)
    ensures EndsAs(CheckoutMove(req, ReadPrice(seen), w, db), db, Placement(db, req, price))
  {
    MergeWithNothing(db);
  }

  lemma CheckoutInserting(t: int, req: Request, pc: Pc, w: Db, db: Db, locks: LockTable)
    requires req.PlaceCheckout? && CheckoutState(t, req, pc, w, db, locks) && (pc.InsertOrder? || pc.InsertKey?)
    ensures EndsAs(CheckoutMove(req, pc, w, db), db, Placement(db, req, Some(pc.price)))
  {
    if pc.InsertOrder? { MergeWithNothing(db); }
  }

  /** An enabled checkout is what the transaction does. */
  lemma PlacementIsTxn(db: Db, x: Txn)
    requires x.TCheckout? && Enabled(db, x)
    ensures PlaceOrder(db, x.userId, x.rid, x.key, x.oid, x.price) == Outcome(Effect(db, x), Ordered(x.oid))
  {}

  lemma CheckoutCommitting(t: int, req: Request, pc: Pc, w: Db, db: Db, locks: LockTable)
    requires req.PlaceCheckout? && CheckoutState(t, req, pc, w, db, locks) && pc.Committing? && Inv(db)
    ensures EndsAs(Commit(pc.next, w, {}, pc.txn), db, Placement(db, req, Some(pc.txn.price)))
  {
    CommittedEffect(t, pc.txn, w, db, locks);
    PlacementIsTxn(db, pc.txn);
  }

  lemma CheckoutEnds(t: int, ses: Session, db: Db, locks: LockTable, rows: seq<int>, price: Option<int>)
    requires SessionOk(t, ses, db, locks) && Inv(db) && ses.req.PlaceCheckout? && PlacesAt(ses.pc, db, price)
    ensures EndsAs(NextMove(ses, db, rows), db, Placement(db, ses.req, price))
  {
    if ses.pc.Committing? {
      CheckoutCommitting(t, ses.req, ses.pc, ses.w, db, locks);
    } else if ses.pc.InsertOrder? || ses.pc.InsertKey? {
      CheckoutInserting(t, ses.req, ses.pc, ses.w, db, locks);
    } else if ses.pc.ReadPrice? {
      CheckoutPricing(t, ses.req, ses.pc.seen, ses.w, db, locks, price);
    } else {
      CheckoutLocking(t, ses.req, ses.pc, ses.w, db, locks, price);
    }
  }

  lemma StepPlaces(s: State, t: int, rows: seq<int>, price: Option<int>)
    requires MachineOk(s) && t in s.sessions && s.sessions[t].req.PlaceCheckout?
    requires PlacesAt(s.sessions[t].pc, s.db, price)
    ensures StepLeaves(s, t, AfterMove(s, t, NextMove(s.sessions[t], s.db, rows)),
      Placement(s.db, s.sessions[t].req, price))
  {
    SessionIsOk(s, t);
    CheckoutEnds(t, s.sessions[t], s.db, s.locks, rows, price);
    EndsShow(s, t, NextMove(s.sessions[t], s.db, rows), Placement(s.db, s.sessions[t].req, price));
  }

  /**
   * A checkout past its replay check ends as the checkout transaction on the current database, at the price it
   * read.
   */
  lemma CheckoutIsPlaceOrder(s: State, t: int, rows: seq<int>, price: Option<int>)
    requires Reachable(s) && t in s.sessions && s.sessions[t].req.PlaceCheckout?
    requires PlacesAt(s.sessions[t].pc, s.db, price)
    ensures StepLeaves(s, t, Run1(s, Step(t, rows)), Placement(s.db, s.sessions[t].req, price))
  {
    ReachableIsOk(s);
    StepPlaces(s, t, rows, price);
  }

  /** After a unique violation: the order the key is bound to, or the violation when the new order's id had collided. */
  function Recovered(db: Db, req: Request): Outcome
    requires req.PlaceCheckout?
  {
    Outcome(db, if req.key in db.keys then Ordered(db.keys[req.key]) else Refused(UniqueViolation))
  }

  lemma RecoverEnds(t: int, req: Request, w: Db, db: Db, locks: LockTable)
    requires req.PlaceCheckout? && CheckoutState(t, req, Recover, w, db, locks)
    ensures EndsAs(CheckoutMove(req, Recover, w, db), db, Recovered(db, req))
    ensures req.key in db.keys || req.oid in db.orders
  {
    MergeWithNothing(db);
  }

  lemma StepRecovers(s: State, t: int, rows: seq<int>)
    requires MachineOk(s) && t in s.sessions && s.sessions[t].req.PlaceCheckout? && s.sessions[t].pc.Recover?
    ensures StepLeaves(s, t, AfterMove(s, t, NextMove(s.sessions[t], s.db, rows)), Recovered(s.db, s.sessions[t].req))
    ensures s.sessions[t].req.key in s.db.keys || s.sessions[t].req.oid in s.db.orders
  {
    SessionIsOk(s, t);
    RecoverEnds(t, s.sessions[t].req, s.sessions[t].w, s.db, s.locks);
    EndsShow(s, t, NextMove(s.sessions[t], s.db, rows), Recovered(s.db, s.sessions[t].req));
  }

  /**
   * The recovery of a checkout answers the order its key is bound to, unless the id drawn for its own order was
   * taken.
   */
  lemma RecoveryFindsWinner(s: State, t: int, rows: seq<int>)
    requires Reachable(s) && t in s.sessions && s.sessions[t].req.PlaceCheckout? && s.sessions[t].pc.Recover?
    ensures StepLeaves(s, t, Run1(s, Step(t, rows)), Recovered(s.db, s.sessions[t].req))
    ensures s.sessions[t].req.oid !in s.db.orders ==> s.sessions[t].req.key in s.db.keys
  {
    ReachableIsOk(s);
    StepRecovers(s, t, rows);
  }

  // ---- discount codes: the transaction, with the limit read before ----

  predicate ClaimsAt(pc: Pc, limit: Option<int>) {
    match pc
    case TakeCapacity(l, _, _) => l == limit
    case ClaimOrder(l, _, _) => l == limit
    case Committing(x, _) => x.TApply? && x.limit == limit
    case _ => false
  }

  /** What the discount transaction does with the promotion and the order as they are now. */
  function CurrentClaim(db: Db, req: Request, limit: Option<int>): Outcome
    requires req.Apply? && req.code in db.promotions && req.oid in db.orders
  {
    var o := db.orders[req.oid];
    var discount := ComputeDiscount(db.promotions[req.code], o.subtotalCents, o.items);
    ClaimDiscount(db, req.userId, req.oid, req.code, limit, discount)
  }

  lemma ApplyClaiming(t: int, req: Request, pc: Pc, w: Db, db: Db, locks: LockTable)
    requires req.Apply? && ApplyState(t, req, pc, w, db, locks) && (pc.TakeCapacity? || pc.ClaimOrder?)
    ensures req.code in db.promotions && req.oid in db.orders
    ensures EndsAs(ApplyMove(req, pc, w, db), db, CurrentClaim(db, req, pc.limit))
  {
    if pc.ClaimOrder? { NoRows(db.orders); } else { MergeWithNothing(db); }
  }

  /** An enabled claim is what the transaction does. */
  lemma ClaimIsTxn(db: Db, x: Txn)
    requires x.TApply? && Enabled(db, x)
    ensures ClaimDiscount(db, x.userId, x.oid, x.code, x.limit, x.discount)
      == Outcome(Effect(db, x), Discounted(false, x.discount, db.orders[x.oid].subtotalCents - x.discount))
  {}

  lemma ApplyCommitting(t: int, req: Request, pc: Pc, w: Db, db: Db, locks: LockTable)
    requires req.Apply? && ApplyState(t, req, pc, w, db, locks) && pc.Committing? && Inv(db)
    ensures req.code in db.promotions && req.oid in db.orders
    ensures EndsAs(Commit(pc.next, w, {}, pc.txn), db, CurrentClaim(db, req, pc.txn.limit))
  {
    CommittedEffect(t, pc.txn, w, db, locks);
    ClaimIsTxn(db, pc.txn);
  }

  lemma ApplyEnds(t: int, ses: Session, db: Db, locks: LockTable, rows: seq<int>, limit: Option<int>)
    requires SessionOk(t, ses, db, locks) && Inv(db) && ses.req.Apply? && ClaimsAt(ses.pc, limit)
    ensures ses.req.code in db.promotions && ses.req.oid in db.orders
    ensures EndsAs(NextMove(ses, db, rows), db, CurrentClaim(db, ses.req, limit))
  {
    if ses.pc.Committing? {
      ApplyCommitting(t, ses.req, ses.pc, ses.w, db, locks);
    } else {
      ApplyClaiming(t, ses.req, ses.pc, ses.w, db, locks);
    }
  }

  lemma StepClaims(s: State, t: int, rows: seq<int>, limit: Option<int>)
    requires MachineOk(s) && t in s.sessions && s.sessions[t].req.Apply? && ClaimsAt(s.sessions[t].pc, limit)
    ensures s.sessions[t].req.code in s.db.promotions && s.sessions[t].req.oid in s.db.orders
    ensures StepLeaves(s, t, AfterMove(s, t, NextMove(s.sessions[t], s.db, rows)),
      CurrentClaim(s.db, s.sessions[t].req, limit))
  {
    SessionIsOk(s, t);
    ApplyEnds(t, s.sessions[t], s.db, s.locks, rows, limit);
    EndsShow(s, t, NextMove(s.sessions[t], s.db, rows), CurrentClaim(s.db, s.sessions[t].req, limit));
  }

  /** However stale its reads, a code grants the discount the promotion gives on the order now, or leaves no trace. */
  lemma DiscountIsCurrentClaim(s: State, t: int, rows: seq<int>, limit: Option<int>)
    requires Reachable(s) && t in s.sessions && s.sessions[t].req.Apply? && ClaimsAt(s.sessions[t].pc, limit)
    ensures s.sessions[t].req.code in s.db.promotions && s.sessions[t].req.oid in s.db.orders
    ensures StepLeaves(s, t, Run1(s, Step(t, rows)), CurrentClaim(s.db, s.sessions[t].req, limit))
  {
    ReachableIsOk(s);
    StepClaims(s, t, rows, limit);
  }

  // ---- sweeps and payments ----

  /** An enabled expiry is what `expireOne` does. */
  lemma ExpiryIsTxn(db: Db, rid: int, now: int)
    requires Enabled(db, TExpire(rid, now))
    ensures ExpireReservation(db, rid, now) == Outcome(Effect(db, TExpire(rid, now)), Flag(true))
  {}

  lemma SweepCommitting(t: int, req: Request, pc: Pc, w: Db, db: Db, locks: LockTable)
    requires req.Sweep? && SweepState(t, req, pc, w, db, locks) && pc.Committing? && Inv(db)
    ensures ExpiresOne(Commit(pc.next, w, {}, pc.txn), pc, req.now, db)
  {
    CommittedEffect(t, pc.txn, w, db, locks);
    ExpiryIsTxn(db, pc.txn.rid, req.now);
  }

  /** The statement expires one reservation of the sweep and counts it, or commits and counts nothing. */
  ghost predicate ExpiresOne(m: Move, pc: Pc, now: int, db: Db) {
    match m
    case Wait => true
    case Go(pc', _, _) => ExpiredBy(pc') == ExpiredBy(pc)
    case End(pc') => ExpiredBy(pc') == ExpiredBy(pc)
    case Commit(pc', w, _, x) =>
      && ExpiredBy(pc') == ExpiredBy(pc) + 1 && x.TExpire?
      && ExpireReservation(db, x.rid, now) == Outcome(Merge(db, w), Flag(true))
  }

  lemma SweepStatement(t: int, ses: Session, db: Db, locks: LockTable, rows: seq<int>)
    requires SessionOk(t, ses, db, locks) && Inv(db) && ses.req.Sweep?
    ensures ExpiresOne(NextMove(ses, db, rows), ses.pc, ses.req.now, db)
  {
    if ses.pc.Committing? {
      SweepCommitting(t, ses.req, ses.pc, ses.w, db, locks);
    } else {
      SweepMoveEarns(ses.req, ses.pc, ses.w, db, rows, Expiries);
    }
  }

  /** Some reservation expired as `expireOne` does it alone. */
  ghost predicate OneExpired(db: Db, db': Db, now: int) {
    exists rid :: ExpireReservation(db, rid, now) == Outcome(db', Flag(true))
  }

  /** This step of the sweep `t` expired one reservation and counted it, or did neither. */
  ghost predicate StepExpires(s: State, t: int, s': State)
    requires t in s.sessions && s.sessions[t].req.Sweep?
  {
    && t in s'.sessions
    && var before, after := ExpiredBy(s.sessions[t].pc), ExpiredBy(s'.sessions[t].pc);
    || (s'.db == s.db && after == before)
    || (OneExpired(s.db, s'.db, s.sessions[t].req.now) && after == before + 1)
  }

  lemma ExpiryShows(s: State, t: int, m: Move)
    requires t in s.sessions && s.sessions[t].req.Sweep? && ExpiresOne(m, s.sessions[t].pc, s.sessions[t].req.now, s.db)
    ensures StepExpires(s, t, AfterMove(s, t, m))
  {}

  lemma StepSweeps(s: State, t: int, rows: seq<int>)
    requires MachineOk(s) && t in s.sessions && s.sessions[t].req.Sweep?
    ensures StepExpires(s, t, AfterMove(s, t, NextMove(s.sessions[t], s.db, rows)))
  {
    SessionIsOk(s, t);
    SweepStatement(t, s.sessions[t], s.db, s.locks, rows);
    ExpiryShows(s, t, NextMove(s.sessions[t], s.db, rows));
  }

  /** A sweep changes the database only by expiring one reservation as `expireOne` does alone, and counts each one. */
  lemma SweepIsExpireOne(s: State, t: int, rows: seq<int>)
    requires Reachable(s) && t in s.sessions && s.sessions[t].req.Sweep?
    ensures StepExpires(s, t, Run1(s, Step(t, rows)))
  {
    ReachableIsOk(s);
    StepSweeps(s, t, rows);
  }

  /** The insert of the payment a call is about to make. */
  function InsertedPayment(db: Db, req: Request, amount: int): Outcome
    requires req.Pay? && req.charge.Some?
  {
    RecordPayment(db, req.oid, PaymentRef(req.provider, req.charge.value), amount)
  }

  lemma PayInserting(t: int, req: Request, amount: int, w: Db, db: Db, locks: LockTable)
    requires req.Pay? && req.charge.Some? && PayState(t, req, InsertPayment(amount), w, db, locks)
    ensures EndsAs(PayMove(req, InsertPayment(amount), w, db), db, InsertedPayment(db, req, amount))
  {
    MergeWithNothing(db);
    FirstRow(PaymentRef(req.provider, req.charge.value), Payment(req.oid, Pending, amount, None));
    MergeOne(db.payments, PaymentRef(req.provider, req.charge.value), Payment(req.oid, Pending, amount, None));
  }

  lemma StepPays(s: State, t: int, rows: seq<int>)
    requires MachineOk(s) && t in s.sessions && s.sessions[t].req.Pay? && s.sessions[t].req.charge.Some?
    requires s.sessions[t].pc.InsertPayment?
    ensures StepLeaves(s, t, AfterMove(s, t, NextMove(s.sessions[t], s.db, rows)),
      InsertedPayment(s.db, s.sessions[t].req, s.sessions[t].pc.amountCents))
  {
    var ses := s.sessions[t];
    assert SessionOk(t, ses, s.db, s.locks);
    PayInserting(t, ses.req, ses.pc.amountCents, ses.w, s.db, s.locks);
    EndsShow(s, t, NextMove(ses, s.db, rows), InsertedPayment(s.db, ses.req, ses.pc.amountCents));
  }

  /**
   * The insert of a payment ends as it does alone: recorded at the amount read, or refused when its reference
   * is taken.
   */
  lemma PayIsRecordPayment(s: State, t: int, rows: seq<int>)
    requires Reachable(s) && t in s.sessions && s.sessions[t].req.Pay? && s.sessions[t].req.charge.Some?
    requires s.sessions[t].pc.InsertPayment?
    ensures StepLeaves(s, t, Run1(s, Step(t, rows)),
      InsertedPayment(s.db, s.sessions[t].req, s.sessions[t].pc.amountCents))
  {
    ReachableIsOk(s);
    StepPays(s, t, rows);
  }
}
