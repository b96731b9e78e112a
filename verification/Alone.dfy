/**
 * Calls that nothing disturbs: the statements of the machine, run one after the other, come to an end and then have
 * done, and reply, exactly what the call's function says.
 */
module Alone {
  import opened Common
  import opened Schema
  import opened TicketCodes
  import opened Services
  import opened Invariants
  import opened Settlement
  import opened Rely
  import opened Machine
  import opened SessionState
  import opened Moves
  import opened Calls
  import opened Concurrency
  import opened Linearizable

  /** `t` runs `n` statements with nothing in between; its multi-row reads return `rows`. */
  ghost function Steps(s: State, t: int, rows: seq<int>, n: nat): State {
    if n == 0 then s else Run1(Steps(s, t, rows, n - 1), Step(t, rows))
  }

  /** The state in which call `t` has just begun. */
  ghost function Begun(s: State, t: int, req: Request): State { Run1(s, Begin(t, req)) }

  lemma StillReachable(s: State, a: Label)
    requires Reachable(s)
    ensures Reachable(Run1(s, a))
  {
    var s0 :| Fresh(s0) && Leads(s0, s);
    var labels :| s == Run(s0, labels);
    assert (labels + [a])[..|labels|] == labels;
    assert Run1(s, a) == Run(s0, labels + [a]);
  }

  // ---- what a call has read so far is what it would read now ----

  function PriceNow(db: Db, rid: int): Option<int> {
    if rid in db.reservations && db.reservations[rid].productId in db.prices then
      Some(db.prices[db.reservations[rid].productId])
    else None
  }

  ghost predicate CheckoutOnTrack(req: Request, pc: Pc, db: Db)
    requires req.PlaceCheckout?
  {
    pc.Start? ||
    (req.key !in db.keys && if pc.Recover? then Call(db, req) == Outcome(db, Refused(UniqueViolation))
      else PlacesAt(pc, db, PriceNow(db, req.rid)))
  }

  /** Nothing refuses the code before its transaction. */
  predicate Claimable(db: Db, req: Request)
    requires req.Apply?
  {
    && FindUsable(db, req.code, req.now).Ok? && req.oid in db.orders
    && DiscountVerdict(db.orders[req.oid], req.userId, req.code).None?
  }

  ghost predicate CodeOnTrack(req: Request, pc: Pc, db: Db)
    requires req.Apply?
  {
    || pc.Start?
    || (pc.ReadOrder? && FindUsable(db, req.code, req.now) == Ok(pc.promotion))
    || (Claimable(db, req) && ClaimsAt(pc, db.promotions[req.code].maxRedemptions))
  }

  ghost predicate PayOnTrack(req: Request, pc: Pc, db: Db)
    requires req.Pay?
  {
    || pc.Start?
    || (&& (pc.FindPending? || (pc.InsertPayment? && req.charge.Some? && !HasPending(db.payments, req.oid)))
        && req.oid in db.orders && db.orders[req.oid].status.PaymentPending?
        && pc.amountCents == db.orders[req.oid].totalCents)
  }

  ghost predicate OnTrack(req: Request, pc: Pc, db: Db) {
    && !Finished(pc)
    && match req
       case PlaceCheckout(_, _, _, _) => CheckoutOnTrack(req, pc, db)
       case Apply(_, _, _, _) => CodeOnTrack(req, pc, db)
       case Pay(_, _, _) => PayOnTrack(req, pc, db)
       case _ => true
  }

  /** The statement stays on track without a write, or ends the call as it ends alone. */
  ghost predicate Follows(m: Move, req: Request, db: Db)
    requires !req.Sweep?
  {
    match m
    case Wait => true
    case Go(pc, _, _) => OnTrack(req, pc, db)
    case Commit(pc, w, _, _) => pc.Done? && Outcome(Merge(db, w), pc.reply) == Call(db, req)
    case End(pc) => if pc.Done? then Outcome(db, pc.reply) == Call(db, req) else OnTrack(req, pc, db)
  }

  // ---- checkout ----

  lemma PlacementIsCheckout(db: Db, req: Request)
    requires req.PlaceCheckout? && req.key !in db.keys
    ensures Call(db, req) == Placement(db, req, PriceNow(db, req.rid))
  {}

  lemma CheckoutLockFollows(t: int, req: Request, pc: Pc, w: Db, db: Db, locks: LockTable)
    requires req.PlaceCheckout? && CheckoutState(t, req, pc, w, db, locks) && CheckoutOnTrack(req, pc, db)
    requires pc.Start? || pc.LockReservation? || pc.ReadReservation?
    ensures Follows(CheckoutMove(req, pc, w, db), req, db)
  {
    MergeWithNothing(db);
  }

  lemma CheckoutReadFollows(t: int, req: Request, pc: Pc, w: Db, db: Db, locks: LockTable)
    requires req.PlaceCheckout? && CheckoutState(t, req, pc, w, db, locks) && CheckoutOnTrack(req, pc, db)
    requires pc.CheckLinked? || pc.ReadPrice?
    ensures Follows(CheckoutMove(req, pc, w, db), req, db)
  {
    MergeWithNothing(db);
  }

  lemma CheckoutOrderFollows(t: int, req: Request, pc: Pc, w: Db, db: Db, locks: LockTable)
    requires req.PlaceCheckout? && CheckoutState(t, req, pc, w, db, locks) && CheckoutOnTrack(req, pc, db)
    requires pc.InsertOrder? || pc.Recover?
    ensures Follows(CheckoutMove(req, pc, w, db), req, db)
  {
    MergeWithNothing(db);
  }

  lemma CheckoutKeyFollows(t: int, req: Request, pc: Pc, w: Db, db: Db, locks: LockTable)
    requires req.PlaceCheckout? && CheckoutState(t, req, pc, w, db, locks) && CheckoutOnTrack(req, pc, db)
    requires pc.InsertKey?
    ensures Follows(CheckoutMove(req, pc, w, db), req, db)
  {
    NoRows(db.keys);
  }

  lemma CheckoutCommitFollows(t: int, req: Request, pc: Pc, w: Db, db: Db, locks: LockTable)
    requires req.PlaceCheckout? && CheckoutState(t, req, pc, w, db, locks) && pc.Committing? && Inv(db)
    requires CheckoutOnTrack(req, pc, db)
    ensures Follows(Commit(pc.next, w, {}, pc.txn), req, db)
  {
    CheckoutCommitting(t, req, pc, w, db, locks);
    PlacementIsCheckout(db, req);
  }

  // ---- discount codes ----

  lemma ClaimIsCode(db: Db, req: Request)
    requires req.Apply? && Claimable(db, req)
    ensures Call(db, req) == CurrentClaim(db, req, db.promotions[req.code].maxRedemptions)
  {}

  lemma CodeReadFollows(t: int, req: Request, pc: Pc, w: Db, db: Db, locks: LockTable)
    requires req.Apply? && ApplyState(t, req, pc, w, db, locks) && (pc.Start? || pc.ReadOrder?)
    requires CodeOnTrack(req, pc, db)
    ensures Follows(ApplyMove(req, pc, w, db), req, db)
  {
    MergeWithNothing(db);
  }

  lemma CodeClaimFollows(t: int, req: Request, pc: Pc, w: Db, db: Db, locks: LockTable)
    requires req.Apply? && ApplyState(t, req, pc, w, db, locks) && (pc.TakeCapacity? || pc.ClaimOrder?)
    requires CodeOnTrack(req, pc, db)
    ensures Follows(ApplyMove(req, pc, w, db), req, db)
  {
    ApplyClaiming(t, req, pc, w, db, locks);
    ClaimIsCode(db, req);
  }

  lemma CodeCommitFollows(t: int, req: Request, pc: Pc, w: Db, db: Db, locks: LockTable)
    requires req.Apply? && ApplyState(t, req, pc, w, db, locks) && pc.Committing? && Inv(db)
    requires CodeOnTrack(req, pc, db)
    ensures Follows(Commit(pc.next, w, {}, pc.txn), req, db)
  {
    ApplyCommitting(t, req, pc, w, db, locks);
    ClaimIsCode(db, req);
  }

  // ---- payments ----

  lemma PayFollows(t: int, req: Request, pc: Pc, w: Db, db: Db, locks: LockTable)
    requires req.Pay? && PayState(t, req, pc, w, db, locks) && !Finished(pc) && PayOnTrack(req, pc, db)
    ensures Follows(PayMove(req, pc, w, db), req, db)
  {
    MergeWithNothing(db);
    if pc.InsertPayment? { PayInserting(t, req, pc.amountCents, w, db, locks); }
  }

  // ---- the other calls answer as they do alone in any case ----

  /** The statement does not leave its session rolled back. */
  predicate GoesOn(m: Move) { (m.Go? ==> !Finished(m.pc)) && (m.End? ==> m.pc.Done? || !Finished(m.pc)) }

  lemma StatementsGoOn(ses: Session, db: Db, rows: seq<int>)
    requires ses.req.Create? || ses.req.Cancel? || ses.req.Redeem?
    ensures GoesOn(NextMove(ses, db, rows))
  {}

  lemma ConfirmationGoesOn(ev: Event, pc: Pc, w: Db, db: Db)
    ensures GoesOn(ConfirmMove(ev, pc, w, db))
  {}

  lemma AnswersFollow(m: Move, req: Request, db: Db)
    requires req.Create? || req.Cancel? || req.Confirm? || req.Redeem?
    requires Linearizable.Answers(m, db, req) && GoesOn(m)
    ensures Follows(m, req, db)
  {}

  // ---- any statement of any call ----

  lemma PurchaseFollows(t: int, ses: Session, db: Db, locks: LockTable, rows: seq<int>)
    requires SessionOk(t, ses, db, locks) && Inv(db) && OnTrack(ses.req, ses.pc, db)
    requires ses.req.PlaceCheckout? || ses.req.Apply?
    ensures Follows(NextMove(ses, db, rows), ses.req, db)
  {
    if ses.req.PlaceCheckout? {
      CheckoutFollows(t, ses, db, locks, rows);
    } else {
      CodeFollows(t, ses, db, locks, rows);
    }
  }

  lemma CheckoutFollows(t: int, ses: Session, db: Db, locks: LockTable, rows: seq<int>)
    requires SessionOk(t, ses, db, locks) && Inv(db) && ses.req.PlaceCheckout? && OnTrack(ses.req, ses.pc, db)
    ensures Follows(NextMove(ses, db, rows), ses.req, db)
  {
    if ses.pc.Committing? {
      CheckoutCommitFollows(t, ses.req, ses.pc, ses.w, db, locks);
    } else if ses.pc.InsertKey? {
      CheckoutKeyFollows(t, ses.req, ses.pc, ses.w, db, locks);
    } else if ses.pc.InsertOrder? || ses.pc.Recover? {
      CheckoutOrderFollows(t, ses.req, ses.pc, ses.w, db, locks);
    } else if ses.pc.CheckLinked? || ses.pc.ReadPrice? {
      CheckoutReadFollows(t, ses.req, ses.pc, ses.w, db, locks);
    } else {
      CheckoutLockFollows(t, ses.req, ses.pc, ses.w, db, locks);
    }
  }

  lemma CodeFollows(t: int, ses: Session, db: Db, locks: LockTable, rows: seq<int>)
    requires SessionOk(t, ses, db, locks) && Inv(db) && ses.req.Apply? && OnTrack(ses.req, ses.pc, db)
    ensures Follows(NextMove(ses, db, rows), ses.req, db)
  {
    if ses.pc.Committing? {
      CodeCommitFollows(t, ses.req, ses.pc, ses.w, db, locks);
    } else if ses.pc.Start? || ses.pc.ReadOrder? {
      CodeReadFollows(t, ses.req, ses.pc, ses.w, db, locks);
    } else {
      CodeClaimFollows(t, ses.req, ses.pc, ses.w, db, locks);
    }
  }

  lemma LinearizableFollows(t: int, ses: Session, db: Db, locks: LockTable, rows: seq<int>)
    requires SessionOk(t, ses, db, locks) && Inv(db) && !Finished(ses.pc)
    requires ses.req.Create? || ses.req.Cancel? || ses.req.Confirm? || ses.req.Redeem?
    ensures Follows(NextMove(ses, db, rows), ses.req, db)
  {
    EndsAsCall(t, ses, db, locks, rows);
    if ses.req.Confirm? { ConfirmationGoesOn(ses.req.ev, ses.pc, ses.w, db); } else { StatementsGoOn(ses, db, rows); }
    AnswersFollow(NextMove(ses, db, rows), ses.req, db);
  }

  lemma StatementFollows(t: int, ses: Session, db: Db, locks: LockTable, rows: seq<int>)
    requires SessionOk(t, ses, db, locks) && Inv(db) && !ses.req.Sweep? && OnTrack(ses.req, ses.pc, db)
    ensures Follows(NextMove(ses, db, rows), ses.req, db)
  {
    if ses.req.Pay? {
      PayFollows(t, ses.req, ses.pc, ses.w, db, locks);
    } else if ses.req.PlaceCheckout? || ses.req.Apply? {
      PurchaseFollows(t, ses, db, locks, rows);
    } else {
      LinearizableFollows(t, ses, db, locks, rows);
    }
  }

  // ---- whole calls ----

  /** The call of `t`, begun on `db`, has ended as `out`, or is on track and has written nothing. */
  ghost predicate RunsTo(db: Db, s: State, t: int, req: Request, out: Outcome) {
    && t in s.sessions && s.sessions[t].req == req
    && if s.sessions[t].pc.Done? then Outcome(s.db, s.sessions[t].pc.reply) == out
       else s.db == db && OnTrack(req, s.sessions[t].pc, db)
  }

  lemma FollowingRuns(s: State, t: int, m: Move, req: Request)
    requires !req.Sweep? && RunsTo(s.db, s, t, req, Call(s.db, req)) && !s.sessions[t].pc.Done?
    requires Follows(m, req, s.db)
    ensures RunsTo(s.db, AfterMove(s, t, m), t, req, Call(s.db, req))
  {}

  /** A call that is done does nothing more. */
  lemma DoneWaits(ses: Session, db: Db, rows: seq<int>)
    requires ses.pc.Done?
    ensures NextMove(ses, db, rows).Wait?
  {}

  lemma StepRunsTo(db: Db, s: State, t: int, req: Request, rows: seq<int>)
    requires MachineOk(s) && !req.Sweep? && RunsTo(db, s, t, req, Call(db, req))
    ensures RunsTo(db, AfterMove(s, t, NextMove(s.sessions[t], s.db, rows)), t, req, Call(db, req))
  {
    if s.sessions[t].pc.Done? {
      DoneWaits(s.sessions[t], s.db, rows);
    } else {
      SessionIsOk(s, t);
      StatementFollows(t, s.sessions[t], s.db, s.locks, rows);
      FollowingRuns(s, t, NextMove(s.sessions[t], s.db, rows), req);
    }
  }

  // ---- calls come to an end ----

  /** The tickets a confirmation may have to insert. */
  function Units(db: Db, req: Request): nat {
    if req.Confirm? && req.ev.ref in db.payments && db.payments[req.ev.ref].orderId in db.orders then
      TotalQuantity(db.orders[db.payments[req.ev.ref].orderId].items)
    else 0
  }

  function ReservationRank(pc: Pc): nat {
    match pc
    case Start => 4
    case TakeStock => 3
    case InsertReservation => 2
    case ClaimCancel(_) => 3
    case ReturnStock(_) => 2
    case Committing(_, _) => 1
    case _ => 0
  }

  function CheckoutRank(pc: Pc): nat {
    match pc
    case Start => 9
    case LockReservation => 8
    case ReadReservation => 7
    case CheckLinked(_) => 6
    case ReadPrice(_) => 5
    case InsertOrder(_, _) => 4
    case InsertKey(_) => 3
    case Recover => 2
    case Committing(_, _) => 1
    case _ => 0
  }

  function CodeRank(pc: Pc): nat {
    match pc
    case Start => 5
    case ReadOrder(_) => 4
    case TakeCapacity(_, _, _) => 3
    case ClaimOrder(_, _, _) => 2
    case Committing(_, _) => 1
    case _ => 0
  }

  function DirectRank(pc: Pc): nat {
    match pc
    case Start => 5
    case FindPending(_) => 2
    case InsertPayment(_) => 1
    case ClaimCoupon => 4
    case LogRedemption => 2
    case LogRefusal(_) => 3
    case Committing(_, _) => 1
    case _ => 0
  }

  /** Up to the PAID order. */
  function SettleRank(pc: Pc): nat {
    match pc
    case Start => 8
    case ClaimPayment => 7
    case ReadPaidOrder(_) => 6
    case ReadReserved(_, _) => 5
    case ConvertRead(_, _) => 4
    case ConvertClaim(_, _, _) => 3
    case ConvertSell(_, _, _) => 2
    case MarkPaid(_) => 1
    case _ => 0
  }

  /** From the PAID order to the commit. */
  function IssueRank(pc: Pc, units: nat): nat {
    match pc
    case FindCoupon(_) => 9 + units
    case ReadCode(_) => 8 + units
    case FindPromotion(_, _, _) => 7 + units
    case InsertCoupon(_, _, _, _) => 6 + units
    case FindTickets(_) => 5 + units
    case ReadItems(_) => 4 + units
    case InsertTicket(_, _, i) => if i <= units then 2 + units - i else 2
    case Committing(_, _) => 1
    case _ => 0
  }

  function ConfirmRank(pc: Pc, units: nat): nat {
    if SettleRank(pc) > 0 then SettleRank(pc) + 9 + units else IssueRank(pc, units)
  }

  /** An upper bound on the statements a call has yet to run. */
  function Rank(req: Request, pc: Pc, units: nat): nat {
    match req
    case PlaceCheckout(_, _, _, _) => CheckoutRank(pc)
    case Apply(_, _, _, _) => CodeRank(pc)
    case Confirm(_) => ConfirmRank(pc, units)
    case Pay(_, _, _) => DirectRank(pc)
    case Redeem(_, _, _, _) => DirectRank(pc)
    case _ => ReservationRank(pc)
  }

  /** The statement brings its call closer to the end. */
  predicate Nears(m: Move, req: Request, pc: Pc, units: nat) {
    !m.Wait? && Rank(req, m.pc, units) < Rank(req, pc, units)
  }

  lemma CreateNears(t: int, req: Request, pc: Pc, w: Db, db: Db, locks: LockTable)
    requires req.Create? && CreateState(t, req, pc, w, db, locks) && !Finished(pc) && !pc.Committing?
    ensures Nears(CreateMove(req, pc, w, db), req, pc, 0)
  {}

  lemma CancelNears(t: int, req: Request, pc: Pc, w: Db, db: Db, locks: LockTable)
    requires req.Cancel? && CancelState(t, req, pc, w, db, locks) && !Finished(pc) && !pc.Committing?
    ensures Nears(CancelMove(req, pc, w, db), req, pc, 0)
  {}

  lemma CheckoutReadNears(req: Request, pc: Pc, w: Db, db: Db)
    requires req.PlaceCheckout?
    requires pc.Start? || pc.LockReservation? || pc.ReadReservation? || pc.CheckLinked?
    ensures Nears(CheckoutMove(req, pc, w, db), req, pc, 0)
  {}

  lemma CheckoutWriteNears(req: Request, pc: Pc, w: Db, db: Db)
    requires req.PlaceCheckout?
    requires pc.ReadPrice? || pc.InsertOrder? || pc.InsertKey? || pc.Recover?
    ensures Nears(CheckoutMove(req, pc, w, db), req, pc, 0)
  {}

  lemma CodeNears(t: int, req: Request, pc: Pc, w: Db, db: Db, locks: LockTable)
    requires req.Apply? && ApplyState(t, req, pc, w, db, locks) && !Finished(pc) && !pc.Committing?
    ensures Nears(ApplyMove(req, pc, w, db), req, pc, 0)
  {}

  lemma PayNears(t: int, req: Request, pc: Pc, w: Db, db: Db, locks: LockTable)
    requires req.Pay? && PayState(t, req, pc, w, db, locks) && !Finished(pc) && !pc.Committing?
    ensures Nears(PayMove(req, pc, w, db), req, pc, 0)
  {}

  lemma RedeemNears(t: int, req: Request, pc: Pc, w: Db, db: Db, locks: LockTable)
    requires req.Redeem? && RedeemState(t, req, pc, w, db, locks) && !Finished(pc) && !pc.Committing?
    ensures Nears(RedeemMove(req, pc, w, db), req, pc, 0)
  {}

  /** The order of a confirmation's statements. */
  ghost predicate ComesNext(pc: Pc, next: Pc) {
    match pc
    case Start => next.ClaimPayment?
    case ClaimPayment => next.ReadPaidOrder?
    case ReadPaidOrder(_) => next.ReadReserved? || next.Committing?
    case ReadReserved(_, _) => next.ConvertRead? || next.MarkPaid?
    case ConvertRead(_, _) => next.ConvertClaim? || next.MarkPaid?
    case ConvertClaim(_, _, _) => next.ConvertSell? || next.MarkPaid?
    case ConvertSell(_, _, _) => next.MarkPaid?
    case MarkPaid(_) => next.FindCoupon?
    case FindCoupon(_) => next.ReadCode? || next.FindTickets?
    case ReadCode(_) => next.FindPromotion? || next.FindTickets?
    case FindPromotion(_, _, _) => next.InsertCoupon? || next.FindTickets?
    case InsertCoupon(_, _, _, _) => next.FindTickets?
    case FindTickets(_) => next.ReadItems? || next.Committing?
    case ReadItems(_) => next.InsertTicket?
    case InsertTicket(_, items, i) =>
      next.Committing? || (i < TotalQuantity(items) && next == InsertTicket(pc.oid, items, i + 1))
    case _ => false
  }

  lemma NextStatement(ev: Event, pc: Pc, w: Db, db: Db)
    requires SettleRank(pc) > 0 || IssueRank(pc, 0) > 1
    ensures var m := ConfirmMove(ev, pc, w, db);
      !m.Wait? && (m.pc.Done? || ComesNext(pc, m.pc))
  {}

  lemma NextIsNearer(pc: Pc, next: Pc, units: nat)
    requires ComesNext(pc, next) && (pc.InsertTicket? ==> TotalQuantity(pc.items) == units)
    ensures ConfirmRank(next, units) < ConfirmRank(pc, units)
  {}

  /** A confirmation that knows how many tickets it issues. */
  predicate Underway(pc: Pc, units: nat) {
    && (SettleRank(pc) > 0 || IssueRank(pc, 0) > 1)
    && (pc.InsertTicket? ==> TotalQuantity(pc.items) == units)
  }

  lemma ConfirmIsUnderway(t: int, ev: Event, pc: Pc, w: Db, db: Db, locks: LockTable)
    requires ConfirmState(t, ev, pc, w, db, locks) && !pc.Committing? && !Finished(pc)
    ensures Underway(pc, Units(db, Confirm(ev)))
  {}

  lemma UnderwayNears(ev: Event, pc: Pc, w: Db, db: Db, units: nat)
    requires Underway(pc, units)
    ensures Nears(ConfirmMove(ev, pc, w, db), Confirm(ev), pc, units)
  {
    NextStatement(ev, pc, w, db);
    NearerNears(ev, pc, ConfirmMove(ev, pc, w, db), units);
  }

  lemma NearerNears(ev: Event, pc: Pc, m: Move, units: nat)
    requires Underway(pc, units) && !m.Wait? && (m.pc.Done? || ComesNext(pc, m.pc))
    ensures Nears(m, Confirm(ev), pc, units)
  {
    if !m.pc.Done? { NextIsNearer(pc, m.pc, units); }
  }

  lemma ConfirmNears(t: int, ev: Event, pc: Pc, w: Db, db: Db, locks: LockTable)
    requires ConfirmState(t, ev, pc, w, db, locks) && !pc.Committing? && !Finished(pc)
    ensures Nears(ConfirmMove(ev, pc, w, db), Confirm(ev), pc, Units(db, Confirm(ev)))
  {
    ConfirmIsUnderway(t, ev, pc, w, db, locks);
    UnderwayNears(ev, pc, w, db, Units(db, Confirm(ev)));
  }

  /** Only a sweep goes on after a commit. */
  lemma CommitsLast(t: int, ses: Session, db: Db, locks: LockTable)
    requires SessionOk(t, ses, db, locks) && ses.pc.Committing? && !ses.req.Sweep?
    ensures ses.pc.next.Done?
  {}

  lemma CommitNears(req: Request, pc: Pc, w: Db, units: nat)
    requires pc.Committing? && pc.next.Done?
    ensures Nears(Commit(pc.next, w, {}, pc.txn), req, pc, units)
  {}

  lemma ReservationNears(t: int, ses: Session, db: Db, locks: LockTable, rows: seq<int>)
    requires SessionOk(t, ses, db, locks) && !Finished(ses.pc) && !ses.pc.Committing?
    requires ses.req.Create? || ses.req.Cancel? || ses.req.Confirm?
    ensures Nears(NextMove(ses, db, rows), ses.req, ses.pc, Units(db, ses.req))
  {
    match ses.req
    case Create(_, _, _, _, _) => CreateNears(t, ses.req, ses.pc, ses.w, db, locks);
    case Cancel(_, _) => CancelNears(t, ses.req, ses.pc, ses.w, db, locks);
    case Confirm(ev) => ConfirmNears(t, ev, ses.pc, ses.w, db, locks);
  }

  lemma CheckoutNears(t: int, ses: Session, db: Db, locks: LockTable, rows: seq<int>)
    requires SessionOk(t, ses, db, locks) && !Finished(ses.pc) && !ses.pc.Committing? && ses.req.PlaceCheckout?
    ensures Nears(NextMove(ses, db, rows), ses.req, ses.pc, 0)
  {
    if ses.pc.Start? || ses.pc.LockReservation? || ses.pc.ReadReservation? || ses.pc.CheckLinked? {
      CheckoutReadNears(ses.req, ses.pc, ses.w, db);
    } else {
      CheckoutWriteNears(ses.req, ses.pc, ses.w, db);
    }
  }

  lemma OrderNears(t: int, ses: Session, db: Db, locks: LockTable, rows: seq<int>)
    requires SessionOk(t, ses, db, locks) && !Finished(ses.pc) && !ses.pc.Committing?
    requires ses.req.PlaceCheckout? || ses.req.Apply? || ses.req.Pay? || ses.req.Redeem?
    ensures Nears(NextMove(ses, db, rows), ses.req, ses.pc, 0)
  {
    match ses.req
    case PlaceCheckout(_, _, _, _) => CheckoutNears(t, ses, db, locks, rows);
    case Apply(_, _, _, _) => CodeNears(t, ses.req, ses.pc, ses.w, db, locks);
    case Pay(_, _, _) => PayNears(t, ses.req, ses.pc, ses.w, db, locks);
    case Redeem(_, _, _, _) => RedeemNears(t, ses.req, ses.pc, ses.w, db, locks);
  }

  lemma StatementNears(t: int, ses: Session, db: Db, locks: LockTable, rows: seq<int>)
    requires SessionOk(t, ses, db, locks) && !Finished(ses.pc) && !ses.req.Sweep?
    ensures Nears(NextMove(ses, db, rows), ses.req, ses.pc, Units(db, ses.req))
  {
    if ses.pc.Committing? {
      CommitsLast(t, ses, db, locks);
      CommitNears(ses.req, ses.pc, ses.w, Units(db, ses.req));
    } else if ses.req.Create? || ses.req.Cancel? || ses.req.Confirm? {
      ReservationNears(t, ses, db, locks, rows);
    } else {
      OrderNears(t, ses, db, locks, rows);
    }
  }

  /** Nobody but `t` holds a lock. */
  predicate OnlyHolder(locks: LockTable, t: int) { forall l | l in locks.Keys :: locks[l] == t }

  lemma NearsShows(s: State, t: int, m: Move, units: nat)
    requires t in s.sessions && OnlyHolder(s.locks, t) && Nears(m, s.sessions[t].req, s.sessions[t].pc, units)
    ensures var s' := AfterMove(s, t, m);
      && t in s'.sessions && OnlyHolder(s'.locks, t)
      && Rank(s.sessions[t].req, s'.sessions[t].pc, units) < Rank(s.sessions[t].req, s.sessions[t].pc, units)
  {}

  lemma StepNears(s: State, t: int, rows: seq<int>)
    requires MachineOk(s) && t in s.sessions && OnlyHolder(s.locks, t)
    requires !Finished(s.sessions[t].pc) && !s.sessions[t].req.Sweep?
    ensures var s' := AfterMove(s, t, NextMove(s.sessions[t], s.db, rows));
      && t in s'.sessions && OnlyHolder(s'.locks, t)
      && Rank(s.sessions[t].req, s'.sessions[t].pc, Units(s.db, s.sessions[t].req))
          < Rank(s.sessions[t].req, s.sessions[t].pc, Units(s.db, s.sessions[t].req))
  {
    SessionIsOk(s, t);
    StatementNears(t, s.sessions[t], s.db, s.locks, rows);
    NearsShows(s, t, NextMove(s.sessions[t], s.db, rows), Units(s.db, s.sessions[t].req));
  }

  /** The call is done, or at most `bound` statements from its end. */
  ghost predicate IsNear(s: State, t: int, req: Request, units: nat, bound: int) {
    && t in s.sessions && OnlyHolder(s.locks, t)
    && (s.sessions[t].pc.Done? || Rank(req, s.sessions[t].pc, units) <= bound)
  }

  lemma NextIsNear(db: Db, s: State, t: int, req: Request, rows: seq<int>, out: Outcome, units: nat, bound: int)
    requires !req.Sweep? && MachineOk(s) && RunsTo(db, s, t, req, out) && units == Units(db, req)
    requires IsNear(s, t, req, units, bound)
    ensures IsNear(Run1(s, Step(t, rows)), t, req, units, bound - 1)
  {
    if s.sessions[t].pc.Done? {
      DoneWaits(s.sessions[t], s.db, rows);
    } else {
      StepNears(s, t, rows);
    }
  }

  // ---- the two together ----

  /**
   * The call of `t` is on its way to `out`; with nobody else holding a lock it is also at most `bound` statements
   * from its end.
   */
  ghost predicate InOrder(db: Db, s: State, t: int, req: Request, out: Outcome, units: nat, free: bool, bound: int) {
    Reachable(s) && RunsTo(db, s, t, req, out) && (free ==> IsNear(s, t, req, units, bound))
  }

  lemma NextInOrder(db: Db, s: State, t: int, req: Request, out: Outcome, units: nat, free: bool, bound: int,
                    rows: seq<int>)
    requires !req.Sweep? && out == Call(db, req) && units == Units(db, req)
    requires InOrder(db, s, t, req, out, units, free, bound)
    ensures InOrder(db, Run1(s, Step(t, rows)), t, req, out, units, free, bound - 1)
  {
    StillReachable(s, Step(t, rows));
    ReachableIsOk(s);
    StepRunsTo(db, s, t, req, rows);
    if free { NextIsNear(db, s, t, req, rows, out, units, bound); }
  }

  lemma {:induction false} StepsInOrder(db: Db, s: State, t: int, req: Request, out: Outcome, units: nat, free: bool,
                                        bound: int, rows: seq<int>, n: nat)
    requires !req.Sweep? && out == Call(db, req) && units == Units(db, req)
    requires InOrder(db, s, t, req, out, units, free, bound)
    ensures InOrder(db, Steps(s, t, rows, n), t, req, out, units, free, bound - n)
  {
    if n > 0 {
      StepsInOrder(db, s, t, req, out, units, free, bound, rows, n - 1);
      NextInOrder(db, Steps(s, t, rows, n - 1), t, req, out, units, free, bound - (n - 1), rows);
    }
  }

  // ---- the two theorems ----

  lemma BegunInOrder(s: State, t: int, req: Request)
    requires Reachable(s) && t !in s.sessions && !req.Sweep?
    ensures var units := Units(s.db, req);
      InOrder(s.db, Begun(s, t, req), t, req, Call(s.db, req), units, s.locks == map[], Rank(req, Start, units))
  {
    StillReachable(s, Begin(t, req));
  }

  lemma AloneStaysInOrder(s: State, t: int, req: Request, rows: seq<int>, n: nat)
    requires Reachable(s) && t !in s.sessions && !req.Sweep?
    ensures var units := Units(s.db, req);
      InOrder(s.db, Steps(Begun(s, t, req), t, rows, n), t, req, Call(s.db, req), units, s.locks == map[],
        Rank(req, Start, units) - n)
  {
    var units := Units(s.db, req);
    BegunInOrder(s, t, req);
    StepsInOrder(s.db, Begun(s, t, req), t, req, Call(s.db, req), units, s.locks == map[], Rank(req, Start, units),
      rows, n);
  }

  /**
   * However many of its statements a call runs with nothing in between: it has written nothing yet, or it is done
   * and has done and replied exactly what its function says.
   */
  lemma AloneIsCall(s: State, t: int, req: Request, rows: seq<int>, n: nat)
    requires Reachable(s) && t !in s.sessions && !req.Sweep?
    ensures RunsTo(s.db, Steps(Begun(s, t, req), t, rows, n), t, req, Call(s.db, req))
  {
    AloneStaysInOrder(s, t, req, rows, n);
  }

  /** A call begun while nobody holds a lock, and left alone, comes to its end, and ends as its function says. */
  lemma AloneEnds(s: State, t: int, req: Request, rows: seq<int>) returns (n: nat)
    requires Reachable(s) && t !in s.sessions && s.locks == map[] && !req.Sweep?
    ensures var s' := Steps(Begun(s, t, req), t, rows, n);
      t in s'.sessions && s'.sessions[t].pc.Done? && Outcome(s'.db, s'.sessions[t].pc.reply) == Call(s.db, req)
  {
    n := Rank(req, Start, Units(s.db, req)) + 1;
    AloneStaysInOrder(s, t, req, rows, n);
  }
}
