/** What the first statements of a call find in any interleaving, and how long it goes by what they found. */
module FirstReads {
  import opened Common
  import opened Schema
  import opened Services
  import opened Invariants
  import opened Settlement
  import opened Progress
  import opened Rely
  import opened Machine
  import opened SessionState
  import opened Replies
  import opened Concurrency
  import opened Expiry

  /** The statement only reads: its session is at `pc` and has written nothing, everyone else is where they were. */
  ghost predicate Reads(s: State, t: int, s': State, pc: Pc)
    requires t in s.sessions
  {
    s' == s.(sessions := s.sessions[t := Session(s.sessions[t].req, pc, NoWrites)], locks := s'.locks)
  }

  /** A statement without writes and locks. */
  ghost predicate Plain(m: Move, pc: Pc) { m == Go(pc, NoWrites, {}) || m == End(pc) }

  lemma PlainReads(s: State, t: int, m: Move, pc: Pc)
    requires t in s.sessions && Plain(m, pc)
    ensures Reads(s, t, AfterMove(s, t, m), pc)
  {}

  lemma StartsClean(t: int, ses: Session, db: Db, locks: LockTable)
    requires SessionOk(t, ses, db, locks) && ses.pc.Start?
    ensures ses.w == NoWrites
  {}

  // ---- checkout ----

  function CheckoutStart(db: Db, key: string): Pc {
    if key in db.keys then Done(Ordered(db.keys[key])) else LockReservation
  }

  lemma StepStartsCheckout(s: State, t: int, rows: seq<int>)
    requires MachineOk(s) && t in s.sessions && s.sessions[t].req.PlaceCheckout? && s.sessions[t].pc.Start?
    ensures Reads(s, t, AfterMove(s, t, NextMove(s.sessions[t], s.db, rows)),
      CheckoutStart(s.db, s.sessions[t].req.key))
  {
    SessionIsOk(s, t);
    StartsClean(t, s.sessions[t], s.db, s.locks);
    MergeWithNothing(s.db);
    PlainReads(s, t, NextMove(s.sessions[t], s.db, rows), CheckoutStart(s.db, s.sessions[t].req.key));
  }

  /** A checkout whose key is bound answers that order and writes nothing; otherwise it goes on to its transaction. */
  lemma CheckoutReplays(s: State, t: int, rows: seq<int>)
    requires Reachable(s) && t in s.sessions && s.sessions[t].req.PlaceCheckout? && s.sessions[t].pc.Start?
    ensures Reads(s, t, Run1(s, Step(t, rows)), CheckoutStart(s.db, s.sessions[t].req.key))
  {
    ReachableIsOk(s);
    StepStartsCheckout(s, t, rows);
  }

  /** Once a checkout has succeeded, every later call with its key answers the same order and writes nothing. */
  lemma RetryAnswersTheOrder(s: State, u: int, o: int, s': State, t: int, rows: seq<int>)
    requires Reachable(s) && u in s.sessions && s.sessions[u].req.PlaceCheckout? && s.sessions[u].pc == Done(Ordered(o))
    requires Leads(s, s') && t in s'.sessions && s'.sessions[t].pc.Start?
    requires s'.sessions[t].req.PlaceCheckout? && s'.sessions[t].req.key == s.sessions[u].req.key
    ensures Reads(s', t, Run1(s', Step(t, rows)), Done(Ordered(o)))
  {
    ReachableIsOk(s);
    PlacedIsBound(s, u, o);
    RunStaysLater(s, s');
    StepStartsCheckout(s', t, rows);
  }

  lemma PlacedIsBound(s: State, u: int, o: int)
    requires MachineOk(s) && u in s.sessions && s.sessions[u].req.PlaceCheckout? && s.sessions[u].pc == Done(Ordered(o))
    ensures s.sessions[u].req.key in s.db.keys && s.db.keys[s.sessions[u].req.key] == o
  {
    SessionIsOk(s, u);
  }

  function PriceLook(db: Db, seen: Reservation): Pc {
    if seen.productId in db.prices then InsertOrder(seen, db.prices[seen.productId]) else Done(Refused(Fault))
  }

  lemma PriceLooks(t: int, req: Request, seen: Reservation, w: Db, db: Db, locks: LockTable)
    requires req.PlaceCheckout? && CheckoutState(t, req, ReadPrice(seen), w, db, locks)
    ensures Plain(CheckoutMove(req, ReadPrice(seen), w, db), PriceLook(db, seen))
  {
    MergeWithNothing(db);
  }

  lemma StepReadsPrice(s: State, t: int, rows: seq<int>)
    requires MachineOk(s) && t in s.sessions && s.sessions[t].req.PlaceCheckout? && s.sessions[t].pc.ReadPrice?
    ensures Reads(s, t, AfterMove(s, t, NextMove(s.sessions[t], s.db, rows)),
      PriceLook(s.db, s.sessions[t].pc.seen))
  {
    SessionIsOk(s, t);
    PriceLooks(t, s.sessions[t].req, s.sessions[t].pc.seen, s.sessions[t].w, s.db, s.locks);
    PlainReads(s, t, NextMove(s.sessions[t], s.db, rows), PriceLook(s.db, s.sessions[t].pc.seen));
  }

  /** The price a checkout goes by is the one its product has when it reads it. */
  lemma CheckoutReadsThePrice(s: State, t: int, rows: seq<int>)
    requires Reachable(s) && t in s.sessions && s.sessions[t].req.PlaceCheckout? && s.sessions[t].pc.ReadPrice?
    ensures Reads(s, t, Run1(s, Step(t, rows)), PriceLook(s.db, s.sessions[t].pc.seen))
  {
    ReachableIsOk(s);
    StepReadsPrice(s, t, rows);
  }

  // ---- payments ----

  function PayStart(db: Db, oid: int): Pc {
    if oid !in db.orders then Done(Refused(NotFound))
    else if db.orders[oid].status == OrderPaid then Done(Refused(Conflict))
    else FindPending(db.orders[oid].totalCents)
  }

  lemma StepStartsPay(s: State, t: int, rows: seq<int>)
    requires MachineOk(s) && t in s.sessions && s.sessions[t].req.Pay? && s.sessions[t].pc.Start?
    ensures Reads(s, t, AfterMove(s, t, NextMove(s.sessions[t], s.db, rows)), PayStart(s.db, s.sessions[t].req.oid))
  {
    SessionIsOk(s, t);
    StartsClean(t, s.sessions[t], s.db, s.locks);
    MergeWithNothing(s.db);
    PlainReads(s, t, NextMove(s.sessions[t], s.db, rows), PayStart(s.db, s.sessions[t].req.oid));
  }

  ghost function PayLook(db: Db, req: Request, amount: int): Pc
    requires req.Pay?
  {
    if req.charge.None? then Done(Refused(Fault))
    else if Waiting(db.payments, req.oid) then Done(PendingReused)
    else InsertPayment(amount)
  }

  lemma PayLooks(t: int, req: Request, amount: int, w: Db, db: Db, locks: LockTable)
    requires req.Pay? && PayState(t, req, FindPending(amount), w, db, locks)
    ensures Plain(PayMove(req, FindPending(amount), w, db), PayLook(db, req, amount))
  {
    MergeWithNothing(db);
    assert Waiting(db.payments, req.oid) <==> HasPending(db.payments, req.oid);
  }

  lemma StepLooks(s: State, t: int, rows: seq<int>)
    requires MachineOk(s) && t in s.sessions && s.sessions[t].req.Pay? && s.sessions[t].pc.FindPending?
    ensures Reads(s, t, AfterMove(s, t, NextMove(s.sessions[t], s.db, rows)),
      PayLook(s.db, s.sessions[t].req, s.sessions[t].pc.amountCents))
  {
    SessionIsOk(s, t);
    PayLooks(t, s.sessions[t].req, s.sessions[t].pc.amountCents, s.sessions[t].w, s.db, s.locks);
    PlainReads(s, t, NextMove(s.sessions[t], s.db, rows),
      PayLook(s.db, s.sessions[t].req, s.sessions[t].pc.amountCents));
  }

  /**
   * A payment call refuses an unknown or PAID order, else takes up its total; then it reuses a payment exactly
   * when one of the order waits.
   */
  lemma PayReadsTheTotal(s: State, t: int, rows: seq<int>)
    requires Reachable(s) && t in s.sessions && s.sessions[t].req.Pay?
    ensures s.sessions[t].pc.Start? ==>
      Reads(s, t, Run1(s, Step(t, rows)), PayStart(s.db, s.sessions[t].req.oid))
    ensures s.sessions[t].pc.FindPending? ==>
      Reads(s, t, Run1(s, Step(t, rows)), PayLook(s.db, s.sessions[t].req, s.sessions[t].pc.amountCents))
  {
    ReachableIsOk(s);
    if s.sessions[t].pc.Start? {
      StepStartsPay(s, t, rows);
    } else if s.sessions[t].pc.FindPending? {
      StepLooks(s, t, rows);
    }
  }

  // ---- discount codes ----

  predicate UsableAt(db: Db, code: string, now: int) {
    code in db.promotions && db.promotions[code].active
    && db.promotions[code].startsAt <= now <= db.promotions[code].endsAt
  }

  function CodeStart(db: Db, code: string, now: int): Pc {
    if code !in db.promotions then Done(Refused(NotFound))
    else if !UsableAt(db, code, now) then Done(Refused(Conflict))
    else ReadOrder(db.promotions[code])
  }

  lemma StepStartsCode(s: State, t: int, rows: seq<int>)
    requires MachineOk(s) && t in s.sessions && s.sessions[t].req.Apply? && s.sessions[t].pc.Start?
    ensures Reads(s, t, AfterMove(s, t, NextMove(s.sessions[t], s.db, rows)),
      CodeStart(s.db, s.sessions[t].req.code, s.sessions[t].req.now))
  {
    SessionIsOk(s, t);
    StartsClean(t, s.sessions[t], s.db, s.locks);
    MergeWithNothing(s.db);
    PlainReads(s, t, NextMove(s.sessions[t], s.db, rows),
      CodeStart(s.db, s.sessions[t].req.code, s.sessions[t].req.now));
  }

  /** Where a code call is after it has read its order: the limit is the promotion's as it was read first. */
  ghost predicate CodeLook(db: Db, req: Request, p: Promotion, pc: Pc)
    requires req.Apply?
  {
    if req.oid !in db.orders then pc == Done(Refused(NotFound))
    else
      var o := db.orders[req.oid];
      if o.userId != req.userId then pc == Done(Refused(Forbidden))
      else if o.status == OrderPaid then pc == Done(Refused(Conflict))
      else if o.discountCents > 0 then
        pc == Done(if o.discountCode == Some(req.code) then Discounted(true, o.discountCents, o.totalCents)
          else Refused(Conflict))
      else
        && o.reservationId in db.reservations && pc.TakeCapacity?
        && pc.limit == p.maxRedemptions && pc.subtotal == o.subtotalCents
        && Gives(p, o.subtotalCents, db.reservations[o.reservationId].quantity, pc.discount)
  }

  lemma CodeLooks(t: int, req: Request, p: Promotion, w: Db, db: Db, locks: LockTable)
    requires req.Apply? && ApplyState(t, req, ReadOrder(p), w, db, locks)
    requires StockInv(db.inventory, db.reservations) && OrderInv(db.orders, db.reservations)
    ensures var m := ApplyMove(req, ReadOrder(p), w, db); !m.Wait? && Plain(m, m.pc) && CodeLook(db, req, p, m.pc)
  {
    MergeWithNothing(db);
    if req.oid in db.orders {
      assert OrderOk(db.orders[req.oid], db.reservations);
      DiscountOf(p, db.orders[req.oid], db.reservations);
    }
  }

  lemma StepReadsOrder(s: State, t: int, rows: seq<int>)
    requires MachineOk(s) && t in s.sessions && s.sessions[t].req.Apply? && s.sessions[t].pc.ReadOrder?
    ensures var s' := AfterMove(s, t, NextMove(s.sessions[t], s.db, rows));
      && t in s'.sessions && Reads(s, t, s', s'.sessions[t].pc)
      && CodeLook(s.db, s.sessions[t].req, s.sessions[t].pc.promotion, s'.sessions[t].pc)
  {
    SessionIsOk(s, t);
    CodeLooks(t, s.sessions[t].req, s.sessions[t].pc.promotion, s.sessions[t].w, s.db, s.locks);
    var m := NextMove(s.sessions[t], s.db, rows);
    PlainReads(s, t, m, m.pc);
  }

  /** A code call goes by the promotion as it read it and by the order as it then finds it. */
  lemma CodeReadsTheDeal(s: State, t: int, rows: seq<int>)
    requires Reachable(s) && t in s.sessions && s.sessions[t].req.Apply?
    ensures s.sessions[t].pc.Start? ==> Reads(s, t, Run1(s, Step(t, rows)),
      CodeStart(s.db, s.sessions[t].req.code, s.sessions[t].req.now))
    ensures s.sessions[t].pc.ReadOrder? ==>
      var s' := Run1(s, Step(t, rows));
      && t in s'.sessions && Reads(s, t, s', s'.sessions[t].pc)
      && CodeLook(s.db, s.sessions[t].req, s.sessions[t].pc.promotion, s'.sessions[t].pc)
  {
    ReachableIsOk(s);
    if s.sessions[t].pc.Start? {
      StepStartsCode(s, t, rows);
    } else if s.sessions[t].pc.ReadOrder? {
      StepReadsOrder(s, t, rows);
    }
  }

  // ---- an order that has its discount is charged its total ----

  predicate ChargedAt(payments: map<PaymentRef, Payment>, ref: PaymentRef, oid: int, cents: int) {
    ref in payments && payments[ref].orderId == oid && payments[ref].amountCents == cents
  }

  /** The payment call charges its order, discounted already, the order's total. */
  ghost predicate ChargesTotal(ses: Session, db: Db) {
    && ses.req.Pay? && ses.req.oid in db.orders
    && var o := db.orders[ses.req.oid];
    && o.discountCents > 0
    && match ses.pc
       case Start => true
       case FindPending(amount) => amount == o.totalCents
       case InsertPayment(amount) => amount == o.totalCents
       case Aborted(_) => true
       case Done(reply) =>
         reply.Paying? ==> ChargedAt(db.payments, reply.ref, ses.req.oid, o.totalCents)
       case _ => false
  }

  lemma ChargesLater(ses: Session, db: Db, db': Db)
    requires ChargesTotal(ses, db) && Later(db, db')
    ensures ChargesTotal(ses, db')
  {
    assert OrderLater(db.orders[ses.req.oid], db'.orders[ses.req.oid]);
    if ses.pc.Done? && ses.pc.reply.Paying? {
      assert PaymentLater(db.payments[ses.pc.reply.ref], db'.payments[ses.pc.reply.ref]);
    }
  }

  /** The statement leaves its call charging the total. */
  ghost predicate MoveCharges(m: Move, req: Request, db: Db) {
    match m
    case Wait => true
    case Go(pc, w, _) => ChargesTotal(Session(req, pc, w), db)
    case Commit(pc, w, _, _) => ChargesTotal(Session(req, pc, NoWrites), Merge(db, w))
    case End(pc) => ChargesTotal(Session(req, pc, NoWrites), db)
  }

  lemma PayMoveCharges(t: int, req: Request, pc: Pc, w: Db, db: Db, locks: LockTable)
    requires req.Pay? && PayState(t, req, pc, w, db, locks) && ChargesTotal(Session(req, pc, w), db)
    ensures MoveCharges(PayMove(req, pc, w, db), req, db)
  {
    MergeWithNothing(db);
  }

  lemma MoveChargesShows(s: State, t: int, m: Move)
    requires t in s.sessions && ChargesTotal(s.sessions[t], s.db) && MoveCharges(m, s.sessions[t].req, s.db)
    ensures t in AfterMove(s, t, m).sessions && ChargesTotal(AfterMove(s, t, m).sessions[t], AfterMove(s, t, m).db)
    ensures AfterMove(s, t, m).sessions[t].req == s.sessions[t].req
  {}

  lemma ChargeStep(s: State, t: int, rows: seq<int>)
    requires MachineOk(s) && t in s.sessions && ChargesTotal(s.sessions[t], s.db)
    ensures var s' := AfterMove(s, t, NextMove(s.sessions[t], s.db, rows));
      t in s'.sessions && ChargesTotal(s'.sessions[t], s'.db) && s'.sessions[t].req == s.sessions[t].req
  {
    SessionIsOk(s, t);
    PayMoveCharges(t, s.sessions[t].req, s.sessions[t].pc, s.sessions[t].w, s.db, s.locks);
    MoveChargesShows(s, t, NextMove(s.sessions[t], s.db, rows));
  }

  /** Only its own statements and a rollback move a session. */
  lemma OthersLeaveSession(s: State, a: Label, t: int)
    requires t in s.sessions && !(a.Step? && a.t == t)
    ensures t in Run1(s, a).sessions
    ensures var ses := Run1(s, a).sessions[t];
      ses == s.sessions[t] || (ses.req == s.sessions[t].req && ses.pc.Aborted?)
  {}

  lemma OthersLeaveCharge(s: State, t: int, s': State)
    requires t in s.sessions && ChargesTotal(s.sessions[t], s.db) && Later(s.db, s'.db) && t in s'.sessions
    requires var ses := s'.sessions[t]; ses == s.sessions[t] || (ses.req == s.sessions[t].req && ses.pc.Aborted?)
    ensures ChargesTotal(s'.sessions[t], s'.db)
  {
    ChargesLater(s.sessions[t], s.db, s'.db);
  }

  lemma StepIsLater(s: State, a: Label)
    requires MachineOk(s)
    ensures Later(s.db, Run1(s, a).db)
  {
    Run1Ok(s, a);
    CommitIsLater(s, Run1(s, a));
  }

  lemma ChargeStays(s: State, a: Label, t: int)
    requires MachineOk(s) && t in s.sessions && ChargesTotal(s.sessions[t], s.db)
    ensures t in Run1(s, a).sessions && ChargesTotal(Run1(s, a).sessions[t], Run1(s, a).db)
    ensures Run1(s, a).sessions[t].req == s.sessions[t].req
  {
    if a.Step? && a.t == t {
      ChargeStep(s, t, a.rows);
    } else {
      OthersLeaveSession(s, a, t);
      StepIsLater(s, a);
      OthersLeaveCharge(s, t, Run1(s, a));
    }
  }

  lemma {:induction false} RunCharges(s: State, labels: seq<Label>, t: int)
    requires MachineOk(s) && t in s.sessions && ChargesTotal(s.sessions[t], s.db)
    ensures t in Run(s, labels).sessions && ChargesTotal(Run(s, labels).sessions[t], Run(s, labels).db)
    ensures Run(s, labels).sessions[t].req == s.sessions[t].req
  {
    if labels != [] {
      RunCharges(s, labels[..|labels| - 1], t);
      RunOk(s, labels[..|labels| - 1]);
      ChargeStays(Run(s, labels[..|labels| - 1]), labels[|labels| - 1], t);
    }
  }

  /**
   * In every interleaving: a payment call begun after the order got its discount charges exactly what is left
   * to pay.
   */
  lemma DiscountedIsChargedItsTotal(s: State, t: int, s': State)
    requires Reachable(s) && t in s.sessions && s.sessions[t].req.Pay? && s.sessions[t].pc.Start?
    requires s.sessions[t].req.oid in s.db.orders && s.db.orders[s.sessions[t].req.oid].discountCents > 0
    requires Leads(s, s')
    ensures var oid, o := s.sessions[t].req.oid, s.db.orders[s.sessions[t].req.oid];
      && t in s'.sessions && o.totalCents == o.subtotalCents - o.discountCents
      && (s'.sessions[t].pc.Done? && s'.sessions[t].pc.reply.Paying? ==>
            ChargedAt(s'.db.payments, s'.sessions[t].pc.reply.ref, oid, o.totalCents))
  {
    ReachableIsOk(s);
    ChargedAlong(s, t, s');
  }

  lemma ChargedAlong(s: State, t: int, s': State)
    requires MachineOk(s) && t in s.sessions && ChargesTotal(s.sessions[t], s.db) && Leads(s, s')
    ensures var oid, o := s.sessions[t].req.oid, s.db.orders[s.sessions[t].req.oid];
      && t in s'.sessions && o.totalCents == o.subtotalCents - o.discountCents
      && (s'.sessions[t].pc.Done? && s'.sessions[t].pc.reply.Paying? ==>
            ChargedAt(s'.db.payments, s'.sessions[t].pc.reply.ref, oid, o.totalCents))
  {
    LeadsCharges(s, t, s');
    LeadsFixes(s, s', s.sessions[t].req.oid);
  }

  lemma LeadsCharges(s: State, t: int, s': State)
    requires MachineOk(s) && t in s.sessions && ChargesTotal(s.sessions[t], s.db) && Leads(s, s')
    ensures t in s'.sessions && s'.sessions[t].req == s.sessions[t].req && ChargesTotal(s'.sessions[t], s'.db)
  {
    var labels :| s' == Run(s, labels);
    RunCharges(s, labels, t);
  }

  lemma LeadsFixes(s: State, s': State, oid: int)
    requires MachineOk(s) && Leads(s, s') && oid in s.db.orders && s.db.orders[oid].discountCents > 0
    ensures oid in s'.db.orders && s'.db.orders[oid].totalCents == s.db.orders[oid].totalCents
    ensures s.db.orders[oid].totalCents == s.db.orders[oid].subtotalCents - s.db.orders[oid].discountCents
  {
    RunStaysLater(s, s');
    TotalIsFixed(s.db, s'.db, oid);
  }

  lemma TotalIsFixed(db: Db, db': Db, oid: int)
    requires Inv(db) && Later(db, db') && oid in db.orders && db.orders[oid].discountCents > 0
    ensures oid in db'.orders && db'.orders[oid].totalCents == db.orders[oid].totalCents
    ensures db.orders[oid].totalCents == db.orders[oid].subtotalCents - db.orders[oid].discountCents
  {
    assert OrderOk(db.orders[oid], db.reservations) && OrderLater(db.orders[oid], db'.orders[oid]);
  }

  // ---- sweeps ----

  /** The list of a sweep: the reservations ACTIVE and due, each once. */
  ghost predicate ListsDue(reservations: map<int, Reservation>, now: int, due: seq<int>) {
    && (forall i, j :: 0 <= i < j < |due| ==> due[i] != due[j])
    && (forall r :: r in due <==>
          r in reservations && reservations[r].status == Active && reservations[r].expiresAt <= now)
  }

  lemma StepStartsSweep(s: State, t: int, rows: seq<int>)
    requires MachineOk(s) && t in s.sessions && s.sessions[t].req.Sweep? && s.sessions[t].pc.Start?
    ensures var s' := AfterMove(s, t, NextMove(s.sessions[t], s.db, rows));
      if ListsDue(s.db.reservations, s.sessions[t].req.now, rows) then Reads(s, t, s', NextDue(rows, 0, 0)) else s' == s
  {
    SessionIsOk(s, t);
    StartsClean(t, s.sessions[t], s.db, s.locks);
    MergeWithNothing(s.db);
    if ListsDue(s.db.reservations, s.sessions[t].req.now, rows) {
      PlainReads(s, t, NextMove(s.sessions[t], s.db, rows), NextDue(rows, 0, 0));
    }
  }

  /** A sweep works on exactly the reservations that are ACTIVE and due when it reads them, in whatever order. */
  lemma SweepListsTheDue(s: State, t: int, rows: seq<int>)
    requires Reachable(s) && t in s.sessions && s.sessions[t].req.Sweep? && s.sessions[t].pc.Start?
    ensures var s' := Run1(s, Step(t, rows));
      if ListsDue(s.db.reservations, s.sessions[t].req.now, rows) then Reads(s, t, s', NextDue(rows, 0, 0)) else s' == s
  {
    ReachableIsOk(s);
    StepStartsSweep(s, t, rows);
  }

  /** A sweep on the list `due`, or one that was rolled back. */
  predicate WorksOn(ses: Session, due: seq<int>) {
    && ses.req.Sweep?
    && match ses.pc
       case NextDue(d, _, _) => d == due
       case ClaimExpiry(d, _, _, _) => d == due
       case ReturnExpired(d, _, _, _) => d == due
       case Committing(_, next) => next.NextDue? && next.due == due
       case SweepDone(d, _) => d == due
       case Aborted(_) => true
       case _ => false
  }

  lemma SweepWorksOn(req: Request, pc: Pc, w: Db, db: Db, rows: seq<int>, due: seq<int>)
    requires req.Sweep? && WorksOn(Session(req, pc, w), due)
    ensures var m := NextMove(Session(req, pc, w), db, rows); m.Wait? || WorksOn(Session(req, m.pc, w), due)
  {}

  lemma StepWorksOn(s: State, t: int, rows: seq<int>, due: seq<int>)
    requires t in s.sessions && WorksOn(s.sessions[t], due)
    ensures var s' := AfterMove(s, t, NextMove(s.sessions[t], s.db, rows));
      t in s'.sessions && WorksOn(s'.sessions[t], due)
  {
    SweepWorksOn(s.sessions[t].req, s.sessions[t].pc, s.sessions[t].w, s.db, rows, due);
  }

  lemma WorksOnStays(s: State, a: Label, t: int, due: seq<int>)
    requires t in s.sessions && WorksOn(s.sessions[t], due)
    ensures t in Run1(s, a).sessions && WorksOn(Run1(s, a).sessions[t], due)
  {
    if a.Step? && a.t == t {
      StepWorksOn(s, t, a.rows, due);
    } else {
      OthersLeaveSession(s, a, t);
    }
  }

  lemma {:induction false} RunWorksOn(s: State, labels: seq<Label>, t: int, due: seq<int>)
    requires t in s.sessions && WorksOn(s.sessions[t], due)
    ensures t in Run(s, labels).sessions && WorksOn(Run(s, labels).sessions[t], due)
  {
    if labels != [] {
      RunWorksOn(s, labels[..|labels| - 1], t, due);
      WorksOnStays(Run(s, labels[..|labels| - 1]), labels[|labels| - 1], t, due);
    }
  }

  /** A sweep that is done ended everything on its list. */
  lemma DoneSweepEnded(s: State, t: int, due: seq<int>)
    requires MachineOk(s) && t in s.sessions && WorksOn(s.sessions[t], due) && s.sessions[t].pc.SweepDone?
    ensures forall i :: 0 <= i < |due| ==> due[i] in s.db.reservations && Ended(s.db.reservations[due[i]])
  {
    SessionIsOk(s, t);
  }

  /**
   * Whatever was ACTIVE and due when a sweep read its list is ACTIVE no more once that sweep is done, and never
   * again.
   */
  lemma SweepEndsAllThatWasDue(s: State, t: int, rows: seq<int>, s': State, s'': State)
    requires Reachable(s) && t in s.sessions && s.sessions[t].req.Sweep? && s.sessions[t].pc.Start?
    requires Run1(s, Step(t, rows)) != s && Leads(Run1(s, Step(t, rows)), s')
    requires t in s'.sessions && s'.sessions[t].pc.SweepDone? && Leads(s', s'')
    ensures var before, after, now := s.db.reservations, s''.db.reservations, s.sessions[t].req.now;
      forall r :: r in before && before[r].status == Active && before[r].expiresAt <= now ==>
        r in after && after[r].status != Active
  {
    ReachableIsOk(s);
    StepStartsSweep(s, t, rows);
    Run1Ok(s, Step(t, rows));
    DoneSweepLeavesNoneActive(Run1(s, Step(t, rows)), t, rows, s', s'');
  }

  lemma DoneSweepLeavesNoneActive(s: State, t: int, due: seq<int>, s': State, s'': State)
    requires MachineOk(s) && t in s.sessions && WorksOn(s.sessions[t], due) && Leads(s, s')
    requires t in s'.sessions && s'.sessions[t].pc.SweepDone? && Leads(s', s'')
    ensures forall i :: 0 <= i < |due| ==> due[i] in s''.db.reservations && Ended(s''.db.reservations[due[i]])
  {
    var labels :| s' == Run(s, labels);
    RunWorksOn(s, labels, t, due);
    RunStaysLater(s, s');
    DoneSweepEnded(s', t, due);
    RunStaysLater(s', s'');
    EndedStays(due, s'.db, s''.db);
  }
}
