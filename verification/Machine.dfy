/**
 * The service calls as concurrent sessions on one PostgreSQL database at READ COMMITTED. One step runs
 * one SQL statement: it sees the rows committed when it starts plus the session's own writes, a guarded
 * UPDATE evaluates its WHERE on that view, and the row locks it takes are held until commit or rollback.
 * A step whose lock is held by another session does not happen: the session waits and tries again later.
 */
module Machine {
  import opened Common
  import opened Schema
  import opened TicketCodes
  import opened Discount
  import opened Services
  import opened Invariants
  import opened Settlement
  import opened Footprints
  import opened Rely
  import Stock

  /** A service call with its arguments and the values it will draw (clock, fresh ids, random codes). */
  datatype Request =
    | Create(userId: int, productId: int, quantity: int, expiresAt: int, rid: int)
    | Cancel(rid: int, now: int)
    | Sweep(now: int)
    | PlaceCheckout(userId: int, rid: int, key: string, oid: int)
    | Apply(userId: int, oid: int, code: string, now: int)
    | Pay(oid: int, provider: string, charge: Option<string>)
    | Confirm(ev: Event)
    | Redeem(userId: int, code: string, now: int, stored: bool)

  /** The next statement of a session, with the values it has read so far. */
  datatype Pc =
    | Start
    | Done(reply: Reply)
    | Aborted(expired: nat)             // rolled back by the database; a sweep keeps what it had committed
    | Committing(txn: Txn, next: Pc)
    // reservation.create
    | TakeStock
    | InsertReservation
    // reservation.cancel
    | ClaimCancel(seen: Reservation)
    | ReturnStock(seen: Reservation)
    // reservation.expireSweep
    | NextDue(due: seq<int>, i: nat, expired: nat)
    | ClaimExpiry(due: seq<int>, i: nat, expired: nat, seen: Reservation)
    | ReturnExpired(due: seq<int>, i: nat, expired: nat, seen: Reservation)
    | SweepDone(due: seq<int>, expired: nat)
    // order.createOrder
    | LockReservation
    | ReadReservation
    | CheckLinked(seen: Reservation)
    | ReadPrice(seen: Reservation)
    | InsertOrder(seen: Reservation, price: int)
    | InsertKey(price: int)
    | Recover
    // coupon.apply
    | ReadOrder(promotion: Promotion)
    | TakeCapacity(limit: Option<int>, discount: int, subtotal: int)
    | ClaimOrder(limit: Option<int>, discount: int, subtotal: int)
    // payment.createForOrder
    | FindPending(amountCents: int)
    | InsertPayment(amountCents: int)
    // payment.confirmPayment
    | ClaimPayment
    | ReadPaidOrder(oid: int)
    | ReadReserved(oid: int, rid: int)
    | ConvertRead(oid: int, rid: int)
    | ConvertClaim(oid: int, rid: int, seen: Reservation)
    | ConvertSell(oid: int, rid: int, seen: Reservation)
    | MarkPaid(oid: int)
    | FindCoupon(oid: int)
    | ReadCode(oid: int)
    | FindPromotion(oid: int, userId: int, code: string)
    | InsertCoupon(oid: int, userId: int, code: string, hours: int)
    | FindTickets(oid: int)
    | ReadItems(oid: int)
    | InsertTicket(oid: int, items: seq<Item>, i: nat)
    // couponReward.redeem
    | ClaimCoupon
    | LogRedemption
    | LogRefusal(action: Action)

  /** `w` holds the session's uncommitted writes. */
  datatype Session = Session(req: Request, pc: Pc, w: Db)

  /** What running one statement does to its session. */
  datatype Move =
    | Wait
    | Go(pc: Pc, w: Db, takes: set<Lock>)
    | Commit(pc: Pc, w: Db, takes: set<Lock>, txn: Txn)
    | End(pc: Pc)                                        // nothing to commit: roll back

  function Refuse(e: Error): Move { End(Done(Refused(e))) }

  // ---- reservations ----

  function CreateMove(req: Request, pc: Pc, w: Db, db: Db): Move
    requires req.Create?
  {
    var v := Merge(db, w);
    match pc
    case Start => if req.productId !in v.inventory then Refuse(NotFound) else Go(TakeStock, w, {})
    case TakeStock =>
      if req.productId !in v.inventory then Refuse(Conflict)
      else (match Stock.Reserve(v.inventory[req.productId], req.quantity)
        case None => Refuse(Conflict)
        case Some(row) =>
          Go(InsertReservation, w.(inventory := w.inventory[req.productId := row]), {InventoryRow(req.productId)}))
    case InsertReservation =>
      if req.quantity <= 0 then Refuse(CheckViolation)
      else if req.rid in v.reservations then Refuse(UniqueViolation)
      else
        var row := Reservation(req.userId, req.productId, req.quantity, Active, req.expiresAt, None);
        var x := TCreate(req.userId, req.productId, req.quantity, req.expiresAt, req.rid);
        Go(Committing(x, Done(Reserved(req.rid))),
           w.(reservations := w.reservations[req.rid := row]), {ReservationRow(req.rid)})
    case _ => Wait
  }

  function CancelMove(req: Request, pc: Pc, w: Db, db: Db): Move
    requires req.Cancel?
  {
    var v := Merge(db, w);
    match pc
    case Start =>
      if req.rid !in v.reservations then Refuse(NotFound)
      else if Ended(v.reservations[req.rid]) then End(Done(Flag(false)))
      else Go(ClaimCancel(v.reservations[req.rid]), w, {})
    case ClaimCancel(seen) =>
      if req.rid !in v.reservations || Ended(v.reservations[req.rid]) then End(Done(Flag(false)))
      else
        var row := v.reservations[req.rid].(status := Cancelled, releasedAt := Some(req.now));
        Go(ReturnStock(seen), w.(reservations := w.reservations[req.rid := row]), {ReservationRow(req.rid)})
    case ReturnStock(seen) =>
      if seen.productId !in v.inventory then Refuse(Fault)
      else (match Stock.Release(v.inventory[seen.productId], seen.quantity)
        case None => Refuse(Fault)
        case Some(row) =>
          Go(Committing(TCancel(req.rid, req.now), Done(Flag(true))),
             w.(inventory := w.inventory[seen.productId := row]), {InventoryRow(seen.productId)}))
    case _ => Wait
  }

  ghost function SweepMove(req: Request, pc: Pc, w: Db, db: Db, rows: seq<int>): Move
    requires req.Sweep?
  {
    var v := Merge(db, w);
    match pc
    case Start => if IsDueList(v, req.now, rows) then Go(NextDue(rows, 0, 0), w, {}) else Wait
    case NextDue(due, i, n) =>
      if i >= |due| then End(SweepDone(due, n))
      else if due[i] !in v.reservations then End(NextDue(due, i + 1, n))
      else Go(ClaimExpiry(due, i, n, v.reservations[due[i]]), w, {})
    case ClaimExpiry(due, i, n, seen) =>
      if i >= |due| || due[i] !in v.reservations || Ended(v.reservations[due[i]]) then End(NextDue(due, i + 1, n))
      else
        var row := v.reservations[due[i]].(status := Expired, releasedAt := Some(req.now));
        Go(ReturnExpired(due, i, n, seen), w.(reservations := w.reservations[due[i] := row]), {ReservationRow(due[i])})
    case ReturnExpired(due, i, n, seen) =>
      if i >= |due| then Wait
      else
        var expiry := Committing(TExpire(due[i], req.now), NextDue(due, i + 1, n + 1));
        if seen.productId !in v.inventory then Go(expiry, w, {})
        else (match Stock.Release(v.inventory[seen.productId], seen.quantity)
          case None => Go(expiry, w, {})
          case Some(row) =>
            Go(expiry, w.(inventory := w.inventory[seen.productId := row]), {InventoryRow(seen.productId)}))
    case _ => Wait
  }

  // ---- checkout ----

  function CheckoutMove(req: Request, pc: Pc, w: Db, db: Db): Move
    requires req.PlaceCheckout?
  {
    var v := Merge(db, w);
    match pc
    case Start => if req.key in v.keys then End(Done(Ordered(v.keys[req.key]))) else Go(LockReservation, w, {})
    case LockReservation =>
      if req.rid !in v.reservations then Refuse(NotFound) else Go(ReadReservation, w, {ReservationRow(req.rid)})
    case ReadReservation =>
      if req.rid !in v.reservations then Refuse(Fault)
      else
        var r := v.reservations[req.rid];
        if r.userId != req.userId then Refuse(Forbidden)
        else if Ended(r) then Refuse(Conflict)
        else Go(CheckLinked(r), w, {})
    case CheckLinked(seen) => if HasOrderFor(v.orders, req.rid) then Refuse(Conflict) else Go(ReadPrice(seen), w, {})
    case ReadPrice(seen) =>
      if seen.productId !in v.prices then Refuse(Fault) else Go(InsertOrder(seen, v.prices[seen.productId]), w, {})
    case InsertOrder(seen, price) =>
      if price <= 0 || seen.quantity <= 0 then Refuse(CheckViolation)
      else if req.oid in v.orders || OrderKeyTaken(v.orders, req.key) then End(Recover)
      else Go(InsertKey(price), w.(orders := w.orders[req.oid := NewOrder(seen, req.rid, req.key, price)]),
              {OrderRow(req.oid), KeyEntry(req.key)})
    case InsertKey(price) =>
      if req.key in v.keys then End(Recover)
      else Go(Committing(TCheckout(req.userId, req.rid, req.key, req.oid, price), Done(Ordered(req.oid))),
              w.(keys := w.keys[req.key := req.oid]), {})
    case Recover => if req.key in v.keys then End(Done(Ordered(v.keys[req.key]))) else Refuse(UniqueViolation)
    case _ => Wait
  }

  // ---- discount codes ----

  function ApplyMove(req: Request, pc: Pc, w: Db, db: Db): Move
    requires req.Apply?
  {
    var v := Merge(db, w);
    match pc
    case Start =>
      (match FindUsable(v, req.code, req.now)
       case Err(e) => Refuse(e)
       case Ok(p) => Go(ReadOrder(p), w, {}))
    case ReadOrder(p) =>
      if req.oid !in v.orders then Refuse(NotFound)
      else
        var o := v.orders[req.oid];
        (match DiscountVerdict(o, req.userId, req.code)
         case Some(reply) => End(Done(reply))
         case None =>
           var discount := ComputeDiscount(p, o.subtotalCents, o.items);
           Go(TakeCapacity(p.maxRedemptions, discount, o.subtotalCents), w, {}))
    case TakeCapacity(limit, discount, subtotal) =>
      if req.code !in v.promotions || !BelowLimit(v.promotions[req.code].usedRedemptions, limit) then Refuse(Conflict)
      else Go(ClaimOrder(limit, discount, subtotal),
              w.(promotions := w.promotions[req.code := Used(v.promotions[req.code])]), {PromotionRow(req.code)})
    case ClaimOrder(limit, discount, subtotal) =>
      if req.oid !in v.orders || !OpenForDiscount(v.orders[req.oid], req.userId) then Refuse(Conflict)
      else if discount < 0 || subtotal - discount < 0 then Refuse(CheckViolation)
      else
        var o := v.orders[req.oid].(
          discountCents := discount, discountCode := Some(req.code), totalCents := subtotal - discount);
        var x := TApply(req.userId, req.oid, req.code, limit, discount);
        Go(Committing(x, Done(Discounted(false, discount, subtotal - discount))),
           w.(orders := w.orders[req.oid := o]), {OrderRow(req.oid)})
    case _ => Wait
  }

  // ---- payments ----

  function PayMove(req: Request, pc: Pc, w: Db, db: Db): Move
    requires req.Pay?
  {
    var v := Merge(db, w);
    match pc
    case Start =>
      if req.oid !in v.orders then Refuse(NotFound)
      else if !v.orders[req.oid].status.PaymentPending? then Refuse(Conflict)
      else Go(FindPending(v.orders[req.oid].totalCents), w, {})
    case FindPending(amount) =>
      if req.charge.None? then Refuse(Fault)
      else if HasPending(v.payments, req.oid) then End(Done(PendingReused))
      else Go(InsertPayment(amount), w, {})
    case InsertPayment(amount) =>
      if req.charge.None? || req.oid !in v.orders then Refuse(Fault)
      else
        var ref := PaymentRef(req.provider, req.charge.value);
        if ref in v.payments then Refuse(UniqueViolation)
        else Commit(Done(Paying(ref)), w.(payments := w.payments[ref := Payment(req.oid, Pending, amount, None)]),
                    {PaymentRow(ref)}, TPay(req.oid, ref, amount))
    case _ => Wait
  }

  // confirmPayment, one function per statement; `v` is the session's view

  function FindPaymentMove(ev: Event, w: Db, v: Db): Move {
    if ev.ref !in v.payments then Refuse(NotFound)
    else if Closed(v.payments[ev.ref]) then End(Done(Confirmed(false)))
    else if !AmountMatches(ev, v.payments[ev.ref]) then Refuse(Conflict)
    else Go(ClaimPayment, w, {})
  }

  function ClaimPaymentMove(ev: Event, w: Db, v: Db): Move {
    if ev.ref !in v.payments || Closed(v.payments[ev.ref]) then End(Done(Confirmed(false)))
    else if EventTaken(v.payments, ev.ref, ev.eventId) then Refuse(UniqueViolation)
    else Go(ReadPaidOrder(v.payments[ev.ref].orderId),
            w.(payments := w.payments[ev.ref := Claimed(v.payments[ev.ref], ev)]),
            {PaymentRow(ev.ref), EventEntry(ev.ref.provider, ev.eventId)})
  }

  function ReadPaidOrderMove(ev: Event, oid: int, w: Db, v: Db): Move {
    if oid !in v.orders then Refuse(Fault)
    else if !ev.success then Go(Committing(TConfirm(ev), Done(Confirmed(true))), w, {})
    else Go(ReadReserved(oid, v.orders[oid].reservationId), w, {})
  }

  function ReadReservedMove(oid: int, rid: int, w: Db, v: Db): Move {
    if rid in v.reservations && !Ended(v.reservations[rid]) then Go(ConvertRead(oid, rid), w, {})
    else Go(MarkPaid(oid), w, {})
  }

  function ConvertReadMove(oid: int, rid: int, w: Db, v: Db): Move {
    if rid !in v.reservations then Refuse(NotFound)
    else if Ended(v.reservations[rid]) then Go(MarkPaid(oid), w, {})
    else Go(ConvertClaim(oid, rid, v.reservations[rid]), w, {})
  }

  function ConvertClaimMove(oid: int, rid: int, seen: Reservation, w: Db, v: Db): Move {
    if rid !in v.reservations || Ended(v.reservations[rid]) then Go(MarkPaid(oid), w, {})
    else Go(ConvertSell(oid, rid, seen),
            w.(reservations := w.reservations[rid := v.reservations[rid].(status := Converted)]), {ReservationRow(rid)})
  }

  function ConvertSellMove(oid: int, seen: Reservation, w: Db, v: Db): Move {
    if seen.productId !in v.inventory then Refuse(Fault)
    else match Stock.Sell(v.inventory[seen.productId], seen.quantity)
      case None => Refuse(Fault)
      case Some(row) =>
        Go(MarkPaid(oid), w.(inventory := w.inventory[seen.productId := row]), {InventoryRow(seen.productId)})
  }

  function MarkPaidMove(ev: Event, oid: int, w: Db, v: Db): Move {
    if oid !in v.orders then Refuse(Fault)
    else Go(FindCoupon(oid), w.(orders := w.orders[oid := PaidOrder(v.orders[oid], ev.draws.paidAt)]), {OrderRow(oid)})
  }

  function FindCouponMove(oid: int, w: Db, v: Db): Move {
    if HasCoupon(v.coupons, oid) then Go(FindTickets(oid), w, {}) else Go(ReadCode(oid), w, {})
  }

  function ReadCodeMove(oid: int, w: Db, v: Db): Move {
    if oid !in v.orders then Refuse(Fault)
    else match v.orders[oid].discountCode
      case None => Go(FindTickets(oid), w, {})
      case Some(code) =>
        if code == "" then Go(FindTickets(oid), w, {}) else Go(FindPromotion(oid, v.orders[oid].userId, code), w, {})
  }

  function FindPromotionMove(oid: int, userId: int, code: string, w: Db, v: Db): Move {
    if code in v.promotions && v.promotions[code].issuesCouponOnPaid then
      Go(InsertCoupon(oid, userId, code, v.promotions[code].couponValidityHours), w, {})
    else Go(FindTickets(oid), w, {})
  }

  function InsertCouponMove(ev: Event, oid: int, userId: int, code: string, hours: int, w: Db, v: Db): Move {
    if ev.draws.couponCode in v.coupons then Refuse(UniqueViolation)
    else
      var row := Coupon(oid, userId, code, Redeemable, ev.draws.issuedAt + hours * 3_600_000, None);
      Go(FindTickets(oid), w.(coupons := w.coupons[ev.draws.couponCode := row]), {CouponRow(ev.draws.couponCode)})
  }

  function FindTicketsMove(ev: Event, oid: int, w: Db, v: Db): Move {
    if TicketsOf(v.tickets, oid) != [] then Go(Committing(TConfirm(ev), Done(Confirmed(true))), w, {})
    else Go(ReadItems(oid), w, {})
  }

  function ReadItemsMove(oid: int, w: Db, v: Db): Move {
    if oid !in v.orders then Refuse(Fault) else Go(InsertTicket(oid, v.orders[oid].items, 0), w, {})
  }

  function InsertTicketMove(ev: Event, oid: int, items: seq<Item>, i: nat, w: Db, v: Db): Move {
    if i >= TotalQuantity(items) then Go(Committing(TConfirm(ev), Done(Confirmed(true))), w, {})
    else if CodeUsed(v.tickets, ev.draws.ticketCode(i)) then Refuse(UniqueViolation)
    else Go(InsertTicket(oid, items, i + 1),
            w.(tickets := w.tickets + [TicketAt(oid, items, ev.draws.ticketCode, i)]),
            {TicketEntry(ev.draws.ticketCode(i))})
  }

  function ConfirmMove(ev: Event, pc: Pc, w: Db, db: Db): Move {
    var v := Merge(db, w);
    match pc
    case Start => FindPaymentMove(ev, w, v)
    case ClaimPayment => ClaimPaymentMove(ev, w, v)
    case ReadPaidOrder(oid) => ReadPaidOrderMove(ev, oid, w, v)
    case ReadReserved(oid, rid) => ReadReservedMove(oid, rid, w, v)
    case ConvertRead(oid, rid) => ConvertReadMove(oid, rid, w, v)
    case ConvertClaim(oid, rid, seen) => ConvertClaimMove(oid, rid, seen, w, v)
    case ConvertSell(oid, rid, seen) => ConvertSellMove(oid, seen, w, v)
    case MarkPaid(oid) => MarkPaidMove(ev, oid, w, v)
    case FindCoupon(oid) => FindCouponMove(oid, w, v)
    case ReadCode(oid) => ReadCodeMove(oid, w, v)
    case FindPromotion(oid, userId, code) => FindPromotionMove(oid, userId, code, w, v)
    case InsertCoupon(oid, userId, code, hours) => InsertCouponMove(ev, oid, userId, code, hours, w, v)
    case FindTickets(oid) => FindTicketsMove(ev, oid, w, v)
    case ReadItems(oid) => ReadItemsMove(oid, w, v)
    case InsertTicket(oid, items, i) => InsertTicketMove(ev, oid, items, i, w, v)
    case _ => Wait
  }

  // ---- reward coupons ----

  function RedeemMove(req: Request, pc: Pc, w: Db, db: Db): Move
    requires req.Redeem?
  {
    var v := Merge(db, w);
    match pc
    case Start =>
      if req.code !in v.coupons then Refuse(NotFound)
      else if v.coupons[req.code].expiresAt < req.now then End(LogRefusal(ExpiredAction))
      else Go(ClaimCoupon, w, {})
    case ClaimCoupon =>
      if req.code !in v.coupons || v.coupons[req.code].status.Redeemed? then End(LogRefusal(ConflictAction))
      else
        var row := AsRedeemed(v.coupons[req.code], req.now);
        Go(LogRedemption, w.(coupons := w.coupons[req.code := row]), {CouponRow(req.code)})
    case LogRedemption =>
      Go(Committing(TRedeem(req.userId, req.code, req.now), Done(CouponRedeemed)),
         w.(redemptions := w.redemptions + [Redemption(req.code, req.userId, RedeemedAction)]), {})
    case LogRefusal(action) =>
      if req.stored then
        Commit(Done(Refused(Conflict)),
          w.(redemptions := w.redemptions + [Redemption(req.code, req.userId, action)]), {},
               TLog(req.userId, req.code, action))
      else Refuse(Conflict)
    case _ => Wait
  }

  ghost function NextMove(s: Session, db: Db, rows: seq<int>): Move {
    if s.pc.Committing? then Commit(s.pc.next, s.w, {}, s.pc.txn)
    else match s.req
      case Create(_, _, _, _, _) => CreateMove(s.req, s.pc, s.w, db)
      case Cancel(_, _) => CancelMove(s.req, s.pc, s.w, db)
      case Sweep(_) => SweepMove(s.req, s.pc, s.w, db, rows)
      case PlaceCheckout(_, _, _, _) => CheckoutMove(s.req, s.pc, s.w, db)
      case Apply(_, _, _, _) => ApplyMove(s.req, s.pc, s.w, db)
      case Pay(_, _, _) => PayMove(s.req, s.pc, s.w, db)
      case Confirm(ev) => ConfirmMove(ev, s.pc, s.w, db)
      case Redeem(_, _, _, _) => RedeemMove(s.req, s.pc, s.w, db)
  }

  // ---- the whole machine ----

  /** `history` lists the committed transactions, in commit order. */
  datatype State = State(db: Db, sessions: map<int, Session>, locks: LockTable, history: seq<Txn>)

  datatype Label =
    | Begin(t: int, req: Request)
    | Step(t: int, rows: seq<int>)    // `rows` is the order in which a multi-row read returns
    | Abort(t: int)                   // the database rolls the session back (deadlock, timeout, lost connection)
    | Admin(edit: Txn)                // price, promotion, restock, reconcile: one statement each

  predicate FreeFor(locks: LockTable, t: int, takes: set<Lock>) {
    forall l | l in takes :: l in locks ==> locks[l] == t
  }

  function Take(locks: LockTable, t: int, takes: set<Lock>): LockTable {
    locks + map l | l in takes :: t
  }

  function Drop(locks: LockTable, t: int): LockTable {
    map l | l in locks && locks[l] != t :: locks[l]
  }

  predicate IsAdmin(x: Txn) { x.TPrice? || x.TPromotion? || x.TRestock? || x.TReconcile? }

  /** An administrative statement whose rows no session has locked. */
  predicate CanEdit(s: State, x: Txn) {
    IsAdmin(x) && Enabled(s.db, x) && forall l | l in Footprint(s.db, x) :: l !in s.locks
  }

  /** How many reservations a sweep has expired so far. */
  function ExpiredBy(pc: Pc): nat {
    match pc
    case NextDue(_, _, n) => n
    case ClaimExpiry(_, _, n, _) => n
    case ReturnExpired(_, _, n, _) => n
    case SweepDone(_, n) => n
    case Aborted(n) => n
    case Committing(x, next) => if next.NextDue? && next.expired > 0 then next.expired - 1 else 0
    case _ => 0
  }

  predicate Finished(pc: Pc) { pc.Done? || pc.SweepDone? || pc.Aborted? }

  /** The statement `m` of session `t` runs, unless another session holds a row it wants. */
  ghost function AfterMove(s: State, t: int, m: Move): State
    requires t in s.sessions
  {
    match m
    case Wait => s
    case Go(pc, w, takes) =>
      if FreeFor(s.locks, t, takes) then
        s.(sessions := s.sessions[t := Session(s.sessions[t].req, pc, w)], locks := Take(s.locks, t, takes))
      else s
    case Commit(pc, w, takes, x) =>
      if FreeFor(s.locks, t, takes) then
        State(Merge(s.db, w), s.sessions[t := Session(s.sessions[t].req, pc, NoWrites)],
              Drop(s.locks, t), s.history + [x])
      else s
    case End(pc) =>
      s.(sessions := s.sessions[t := Session(s.sessions[t].req, pc, NoWrites)], locks := Drop(s.locks, t))
  }

  ghost function Run1(s: State, a: Label): State {
    match a
    case Begin(t, req) => if t in s.sessions then s else s.(sessions := s.sessions[t := Session(req, Start, NoWrites)])
    case Step(t, rows) => if t in s.sessions then AfterMove(s, t, NextMove(s.sessions[t], s.db, rows)) else s
    case Abort(t) =>
      if t in s.sessions && !Finished(s.sessions[t].pc) then
        AfterMove(s, t, End(Aborted(ExpiredBy(s.sessions[t].pc))))
      else s
    case Admin(x) => if CanEdit(s, x) then s.(db := Effect(s.db, x), history := s.history + [x]) else s
  }

  /** Any interleaving of any calls. */
  ghost function Run(s: State, labels: seq<Label>): State {
    if labels == [] then s else Run1(Run(s, labels[..|labels| - 1]), labels[|labels| - 1])
  }

  /** Some interleaving leads from `s` to `s'`. */
  ghost predicate Leads(s: State, s': State) {
    exists labels :: s' == Run(s, labels)
  }

  /** No call in progress, nothing committed yet. */
  ghost predicate Fresh(s: State) {
    Init(s.db) && s.sessions == map[] && s.locks == map[] && s.history == []
  }

  /** Reached from an empty shop by some interleaving of calls, aborts and administrative edits. */
  ghost predicate Reachable(s: State) {
    exists s0 :: Fresh(s0) && Leads(s0, s)
  }
}
