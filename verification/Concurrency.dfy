/**
 * The whole machine: every interleaving of statements keeps the invariants, and the committed database is
 * always the one reached by running the committed transactions one at a time, in commit order.
 */
module Concurrency {
  import opened Schema
  import opened Services
  import opened Invariants
  import opened Settlement
  import opened Footprints
  import opened Progress
  import opened Rely
  import opened Machine
  import opened SessionState
  import opened Stable
  import opened Moves
  import opened ConfirmMoves

  /** `locks'` is the lock table after the statement, `other` any table in which `t` may hold nothing. */
  ghost predicate MoveOk(t: int, req: Request, m: Move, db: Db, locks: LockTable, locks': LockTable, other: LockTable) {
    match m
    case Wait => true
    case Go(pc, w, takes) => Holds(t, takes, locks') ==> SessionOk(t, Session(req, pc, w), db, locks')
    case Commit(pc, w, takes, x) =>
      && Enabled(db, x) && Admissible(db, x) && w == Rows(db, x)
      && (forall l :: l in Footprint(db, x) ==> l in takes || Owns(locks, t, l))
      && SessionOk(t, Session(req, pc, NoWrites), Effect(db, x), other)
    case End(pc) => SessionOk(t, Session(req, pc, NoWrites), db, other)
  }

  // ---- committing ----

  lemma SweepCommitOk(t: int, req: Request, pc: Pc, w: Db, db: Db, locks: LockTable, other: LockTable)
    requires req.Sweep? && pc.Committing? && SweepState(t, req, pc, w, db, locks) && Inv(db)
    ensures SweepState(t, req, pc.next, NoWrites, Effect(db, pc.txn), other)
  {
    var db', due, i := Effect(db, pc.txn), pc.next.due, pc.next.i - 1;
    EffectIsLater(db, pc.txn);
    SweptStable(due, i, req.now, db, db');
    assert Ended(db'.reservations[due[i]]);
    SweptMore(due, i, req.now, db');
  }

  lemma ConfirmCommitOk(t: int, ev: Event, pc: Pc, w: Db, db: Db, locks: LockTable, other: LockTable)
    requires pc.Committing? && ConfirmState(t, ev, pc, w, db, locks) && Inv(db)
    ensures ConfirmState(t, ev, pc.next, NoWrites, Effect(db, pc.txn), other)
  {
    PaidAfterSuccess(db, ev);
  }

  lemma PaidAfterSuccess(db: Db, ev: Event)
    requires Inv(db) && Accepts(db, ev)
    ensures ev.success ==>
      ev.ref in ConfirmPayment(db, ev).db.payments && ConfirmPayment(db, ev).db.payments[ev.ref].status.Paid?
  {
    assert PaymentOk(db.payments[ev.ref], db.orders);
    ConfirmIsRows(db, ev);
  }

  lemma CheckoutCommitOk(t: int, req: Request, pc: Pc, w: Db, db: Db, locks: LockTable, other: LockTable)
    requires req.PlaceCheckout? && pc.Committing? && CheckoutState(t, req, pc, w, db, locks)
    ensures CheckoutState(t, req, pc.next, NoWrites, Effect(db, pc.txn), other)
  {}

  lemma RedeemCommitOk(t: int, req: Request, pc: Pc, w: Db, db: Db, locks: LockTable, other: LockTable)
    requires req.Redeem? && pc.Committing? && RedeemState(t, req, pc, w, db, locks)
    ensures RedeemState(t, req, pc.next, NoWrites, Effect(db, pc.txn), other)
  {}

  /** Where the last statement leads without a promise to keep. */
  lemma PlainCommitOk(t: int, s: Session, db: Db, db': Db, locks: LockTable, other: LockTable)
    requires s.pc.Committing? && SessionOk(t, s, db, locks)
    requires s.req.Create? || s.req.Cancel? || s.req.Apply? || s.req.Pay?
    ensures SessionOk(t, Session(s.req, s.pc.next, NoWrites), db', other)
  {}

  lemma CommitIsReady(t: int, s: Session, db: Db, locks: LockTable)
    requires s.pc.Committing? && SessionOk(t, s, db, locks)
    ensures Ready(t, s.pc.txn, s.w, db, locks)
  {}

  lemma BuyerCommitOk(t: int, s: Session, db: Db, locks: LockTable, other: LockTable)
    requires s.pc.Committing? && SessionOk(t, s, db, locks) && Inv(db) && (s.req.Confirm? || s.req.PlaceCheckout?)
    ensures SessionOk(t, Session(s.req, s.pc.next, NoWrites), Effect(db, s.pc.txn), other)
  {
    if s.req.Confirm? {
      ConfirmCommitOk(t, s.req.ev, s.pc, s.w, db, locks, other);
    } else {
      CheckoutCommitOk(t, s.req, s.pc, s.w, db, locks, other);
    }
  }

  lemma KeeperCommitOk(t: int, s: Session, db: Db, locks: LockTable, other: LockTable)
    requires s.pc.Committing? && SessionOk(t, s, db, locks) && Inv(db) && (s.req.Sweep? || s.req.Redeem?)
    ensures SessionOk(t, Session(s.req, s.pc.next, NoWrites), Effect(db, s.pc.txn), other)
  {
    if s.req.Sweep? {
      SweepCommitOk(t, s.req, s.pc, s.w, db, locks, other);
    } else {
      RedeemCommitOk(t, s.req, s.pc, s.w, db, locks, other);
    }
  }

  lemma CommitNextOk(t: int, s: Session, db: Db, locks: LockTable, other: LockTable)
    requires s.pc.Committing? && SessionOk(t, s, db, locks) && Inv(db)
    ensures SessionOk(t, Session(s.req, s.pc.next, NoWrites), Effect(db, s.pc.txn), other)
  {
    if s.req.Create? || s.req.Cancel? || s.req.Apply? || s.req.Pay? {
      PlainCommitOk(t, s, db, Effect(db, s.pc.txn), locks, other);
    } else {
      PromiseCommitOk(t, s, db, locks, other);
    }
  }

  lemma PromiseCommitOk(t: int, s: Session, db: Db, locks: LockTable, other: LockTable)
    requires s.pc.Committing? && SessionOk(t, s, db, locks) && Inv(db)
    requires s.req.Sweep? || s.req.Redeem? || s.req.Confirm? || s.req.PlaceCheckout?
    ensures SessionOk(t, Session(s.req, s.pc.next, NoWrites), Effect(db, s.pc.txn), other)
  {
    if s.req.Sweep? || s.req.Redeem? {
      KeeperCommitOk(t, s, db, locks, other);
    } else {
      BuyerCommitOk(t, s, db, locks, other);
    }
  }

  lemma CommitMoveOk(t: int, s: Session, db: Db, rows: seq<int>, locks: LockTable, locks': LockTable, other: LockTable)
    requires s.pc.Committing? && SessionOk(t, s, db, locks) && Inv(db)
    ensures MoveOk(t, s.req, NextMove(s, db, rows), db, locks, locks', other)
  {
    CommitIsReady(t, s, db, locks);
    CommitNextOk(t, s, db, locks, other);
  }

  // ---- any statement ----

  lemma ReservationMoveOk(t: int, s: Session, db: Db, rows: seq<int>, locks: LockTable, locks': LockTable,
                          other: LockTable)
    requires !s.pc.Committing? && SessionOk(t, s, db, locks) && Keeps(t, locks, locks') && Inv(db)
    requires s.req.Create? || s.req.Cancel? || s.req.Sweep?
    ensures MoveOk(t, s.req, NextMove(s, db, rows), db, locks, locks', other)
  {
    match s.req
    case Create(_, _, _, _, _) => CreateMoveOk(t, s.req, s.pc, s.w, db, locks, locks', other);
    case Cancel(_, _) => CancelMoveOk(t, s.req, s.pc, s.w, db, locks, locks', other);
    case Sweep(_) => SweepMoveOk(t, s.req, s.pc, s.w, db, rows, locks, locks', other);
  }

  lemma OrderMoveOk(t: int, s: Session, db: Db, rows: seq<int>, locks: LockTable, locks': LockTable, other: LockTable)
    requires !s.pc.Committing? && SessionOk(t, s, db, locks) && Keeps(t, locks, locks') && Inv(db)
    requires s.req.PlaceCheckout? || s.req.Apply?
    ensures MoveOk(t, s.req, NextMove(s, db, rows), db, locks, locks', other)
  {
    match s.req
    case PlaceCheckout(_, _, _, _) => CheckoutMoveOk(t, s.req, s.pc, s.w, db, locks, locks', other);
    case Apply(_, _, _, _) => ApplyMoveOk(t, s.req, s.pc, s.w, db, locks, locks', other);
  }

  lemma SettleMoveOk(t: int, s: Session, db: Db, rows: seq<int>, locks: LockTable, locks': LockTable, other: LockTable)
    requires !s.pc.Committing? && SessionOk(t, s, db, locks) && Keeps(t, locks, locks') && Inv(db) && s.req.Confirm?
    ensures MoveOk(t, s.req, NextMove(s, db, rows), db, locks, locks', other)
  {
    ConfirmMoveOk(t, s.req.ev, s.pc, s.w, db, locks, locks', other);
  }

  lemma DirectMoveOk(t: int, s: Session, db: Db, rows: seq<int>, locks: LockTable, locks': LockTable, other: LockTable)
    requires !s.pc.Committing? && SessionOk(t, s, db, locks) && Keeps(t, locks, locks') && Inv(db)
    requires s.req.Pay? || s.req.Redeem?
    ensures MoveOk(t, s.req, NextMove(s, db, rows), db, locks, locks', other)
  {
    match s.req
    case Pay(_, _, _) => PayMoveOk(t, s.req, s.pc, s.w, db, locks, locks', other);
    case Redeem(_, _, _, _) => RedeemMoveOk(t, s.req, s.pc, s.w, db, locks, locks', other);
  }

  lemma PurchaseMoveOk(t: int, s: Session, db: Db, rows: seq<int>, locks: LockTable, locks': LockTable,
                       other: LockTable)
    requires !s.pc.Committing? && SessionOk(t, s, db, locks) && Keeps(t, locks, locks') && Inv(db)
    requires s.req.PlaceCheckout? || s.req.Apply? || s.req.Confirm?
    ensures MoveOk(t, s.req, NextMove(s, db, rows), db, locks, locks', other)
  {
    if s.req.Confirm? {
      SettleMoveOk(t, s, db, rows, locks, locks', other);
    } else {
      OrderMoveOk(t, s, db, rows, locks, locks', other);
    }
  }

  lemma StatementMoveOk(t: int, s: Session, db: Db, rows: seq<int>, locks: LockTable, locks': LockTable,
                        other: LockTable)
    requires !s.pc.Committing? && SessionOk(t, s, db, locks) && Keeps(t, locks, locks') && Inv(db)
    ensures MoveOk(t, s.req, NextMove(s, db, rows), db, locks, locks', other)
  {
    if s.req.PlaceCheckout? || s.req.Apply? || s.req.Confirm? {
      PurchaseMoveOk(t, s, db, rows, locks, locks', other);
    } else {
      RestMoveOk(t, s, db, rows, locks, locks', other);
    }
  }

  lemma RestMoveOk(t: int, s: Session, db: Db, rows: seq<int>, locks: LockTable, locks': LockTable, other: LockTable)
    requires !s.pc.Committing? && SessionOk(t, s, db, locks) && Keeps(t, locks, locks') && Inv(db)
    requires s.req.Create? || s.req.Cancel? || s.req.Sweep? || s.req.Pay? || s.req.Redeem?
    ensures MoveOk(t, s.req, NextMove(s, db, rows), db, locks, locks', other)
  {
    if s.req.Pay? || s.req.Redeem? {
      DirectMoveOk(t, s, db, rows, locks, locks', other);
    } else {
      ReservationMoveOk(t, s, db, rows, locks, locks', other);
    }
  }

  lemma NextMoveOk(t: int, s: Session, db: Db, rows: seq<int>, locks: LockTable, locks': LockTable, other: LockTable)
    requires SessionOk(t, s, db, locks) && Keeps(t, locks, locks') && Inv(db)
    ensures MoveOk(t, s.req, NextMove(s, db, rows), db, locks, locks', other)
  {
    if s.pc.Committing? {
      CommitMoveOk(t, s, db, rows, locks, locks', other);
    } else {
      StatementMoveOk(t, s, db, rows, locks, locks', other);
    }
  }

  // ---- the lock table ----

  lemma TakeKeeps(locks: LockTable, t: int, takes: set<Lock>, u: int)
    requires FreeFor(locks, t, takes)
    ensures Keeps(u, locks, Take(locks, t, takes))
    ensures Holds(t, takes, Take(locks, t, takes))
  {}

  lemma DropKeeps(locks: LockTable, t: int, u: int)
    requires u != t
    ensures Keeps(u, locks, Drop(locks, t))
  {}

  /** No other session holds anything of what `t` commits. */
  lemma FootprintApart(locks: LockTable, t: int, takes: set<Lock>, ls: set<Lock>, u: int)
    requires FreeFor(locks, t, takes) && u != t
    requires forall l :: l in ls ==> l in takes || Owns(locks, t, l)
    ensures Apart(locks, u, ls)
  {}

  lemma StillIsEnv(db: Db, locks: LockTable, t: int)
    ensures Env(db, db, locks, t)
  {
    LaterReflexive(db);
  }

  // ---- one step of the machine ----

  lemma AbortedOk(t: int, ses: Session, db: Db, locks: LockTable, other: LockTable)
    requires SessionOk(t, ses, db, locks)
    ensures SessionOk(t, Session(ses.req, Aborted(ExpiredBy(ses.pc)), NoWrites), db, other)
  {
    if !ses.req.Sweep? { OthersExpireNone(t, ses, db, locks); }
  }

  /** Only sweeps expire. */
  lemma OthersExpireNone(t: int, ses: Session, db: Db, locks: LockTable)
    requires SessionOk(t, ses, db, locks) && !ses.req.Sweep?
    ensures ExpiredBy(ses.pc) == 0
    ensures ses.pc.Committing? ==> !ses.pc.txn.TExpire?
  {}

  lemma StartOk(t: int, req: Request, db: Db, locks: LockTable)
    ensures SessionOk(t, Session(req, Start, NoWrites), db, locks)
  {}

  lemma AdminIsEnv(s: State, x: Txn, u: int)
    requires Inv(s.db) && CanEdit(s, x)
    ensures Admissible(s.db, x) && Env(s.db, Effect(s.db, x), s.locks, u)
  {
    CommitIsEnv(s.db, x, s.locks, u);
  }

  /** Everyone but `t` is fine in the new state. */
  lemma OthersOk(s: State, db': Db, locks': LockTable, t: int)
    requires MachineOk(s) && Inv(db')
    requires forall u :: u in s.sessions && u != t ==> Env(s.db, db', s.locks, u) && Keeps(u, s.locks, locks')
    ensures forall u :: u in s.sessions && u != t ==> SessionOk(u, s.sessions[u], db', locks')
  {
    forall u | u in s.sessions && u != t ensures SessionOk(u, s.sessions[u], db', locks') {
      SessionStable(u, s.sessions[u], s.db, db', s.locks, locks');
    }
  }

  /** A new state is fine when the one session that moved is, and the others are. */
  lemma MachineOkAgain(s: State, s': State, t: int)
    requires Inv(s'.db) && t in s'.sessions && SessionOk(t, s'.sessions[t], s'.db, s'.locks)
    requires s'.sessions == s.sessions[t := s'.sessions[t]]
    requires forall u :: u in s.sessions && u != t ==> SessionOk(u, s.sessions[u], s'.db, s'.locks)
    ensures MachineOk(s')
  {
    forall u | u in s'.sessions ensures SessionOk(u, s'.sessions[u], s'.db, s'.locks) {
      assert u != t ==> s'.sessions[u] == s.sessions[u];
    }
  }

  /** A step that commits nothing. */
  lemma QuietStepOk(s: State, t: int, ses: Session, locks': LockTable)
    requires MachineOk(s) && SessionOk(t, ses, s.db, locks')
    requires forall u :: u != t ==> Keeps(u, s.locks, locks')
    ensures MachineOk(s.(sessions := s.sessions[t := ses], locks := locks'))
  {
    forall u | u in s.sessions && u != t ensures Env(s.db, s.db, s.locks, u) { StillIsEnv(s.db, s.locks, u); }
    OthersOk(s, s.db, locks', t);
    MachineOkAgain(s, s.(sessions := s.sessions[t := ses], locks := locks'), t);
  }

  /** What others see of a commit by `t`. */
  lemma CommitLeavesOthers(s: State, t: int, takes: set<Lock>, x: Txn, u: int)
    requires Inv(s.db) && FreeFor(s.locks, t, takes) && u != t
    requires Enabled(s.db, x) && Admissible(s.db, x)
    requires forall l :: l in Footprint(s.db, x) ==> l in takes || Owns(s.locks, t, l)
    ensures Env(s.db, Effect(s.db, x), s.locks, u) && Keeps(u, s.locks, Drop(s.locks, t))
  {
    FootprintApart(s.locks, t, takes, Footprint(s.db, x), u);
    CommitIsEnv(s.db, x, s.locks, u);
    DropKeeps(s.locks, t, u);
  }

  lemma CommitStepOk(s: State, s': State, t: int, takes: set<Lock>, x: Txn)
    requires MachineOk(s) && t in s.sessions && FreeFor(s.locks, t, takes)
    requires Enabled(s.db, x) && Admissible(s.db, x)
    requires forall l :: l in Footprint(s.db, x) ==> l in takes || Owns(s.locks, t, l)
    requires s'.db == Effect(s.db, x) && s'.locks == Drop(s.locks, t)
    requires t in s'.sessions && s'.sessions == s.sessions[t := s'.sessions[t]]
    requires SessionOk(t, s'.sessions[t], s'.db, s'.locks)
    ensures MachineOk(s')
  {
    EffectKeepsInv(s.db, x);
    forall u | u in s.sessions && u != t
      ensures Env(s.db, s'.db, s.locks, u) && Keeps(u, s.locks, s'.locks)
    {
      CommitLeavesOthers(s, t, takes, x, u);
    }
    OthersOk(s, s'.db, s'.locks, t);
    MachineOkAgain(s, s', t);
  }

  /** A step either leaves the database and the history, or runs exactly one transaction that was enabled. */
  ghost predicate CommitsAtMost(s: State, s': State) {
    || (s'.db == s.db && s'.history == s.history)
    || (exists x :: CommitsTxn(s, x, s'))
  }

  ghost predicate CommitsTxn(s: State, x: Txn, s': State) {
    && Enabled(s.db, x) && Admissible(s.db, x)
    && s'.db == Effect(s.db, x) && s'.history == s.history + [x]
  }

  lemma GoStepOk(s: State, t: int, m: Move)
    requires MachineOk(s) && t in s.sessions && m.Go? && FreeFor(s.locks, t, m.takes)
    requires SessionOk(t, Session(s.sessions[t].req, m.pc, m.w), s.db, Take(s.locks, t, m.takes))
    ensures MachineOk(AfterMove(s, t, m)) && CommitsAtMost(s, AfterMove(s, t, m))
  {
    var locks' := Take(s.locks, t, m.takes);
    forall u ensures Keeps(u, s.locks, locks') { TakeKeeps(s.locks, t, m.takes, u); }
    QuietStepOk(s, t, Session(s.sessions[t].req, m.pc, m.w), locks');
  }

  lemma CommitMoveStepOk(s: State, t: int, m: Move)
    requires MachineOk(s) && t in s.sessions && m.Commit? && FreeFor(s.locks, t, m.takes)
    requires MoveOk(t, s.sessions[t].req, m, s.db, s.locks, s.locks, Drop(s.locks, t))
    ensures MachineOk(AfterMove(s, t, m)) && CommitsAtMost(s, AfterMove(s, t, m))
  {
    forall q | q in s.db.payments ensures s.db.payments[q].orderId in s.db.orders {
      assert PaymentOk(s.db.payments[q], s.db.orders);
    }
    EffectIsRows(s.db, m.txn);
    var s' := AfterMove(s, t, m);
    CommitStepOk(s, s', t, m.takes, m.txn);
    assert CommitsTxn(s, m.txn, s');
  }

  lemma EndStepOk(s: State, t: int, m: Move)
    requires MachineOk(s) && t in s.sessions && m.End?
    requires SessionOk(t, Session(s.sessions[t].req, m.pc, NoWrites), s.db, Drop(s.locks, t))
    ensures MachineOk(AfterMove(s, t, m)) && CommitsAtMost(s, AfterMove(s, t, m))
  {
    forall u | u != t ensures Keeps(u, s.locks, Drop(s.locks, t)) { DropKeeps(s.locks, t, u); }
    QuietStepOk(s, t, Session(s.sessions[t].req, m.pc, NoWrites), Drop(s.locks, t));
  }

  /** The lock table a statement leaves when it runs. */
  function LocksAfter(locks: LockTable, t: int, m: Move): LockTable {
    if m.Go? then Take(locks, t, m.takes) else locks
  }

  lemma LocksAfterKeeps(locks: LockTable, t: int, m: Move)
    requires m.Go? ==> FreeFor(locks, t, m.takes)
    ensures Keeps(t, locks, LocksAfter(locks, t, m))
    ensures m.Go? ==> Holds(t, m.takes, LocksAfter(locks, t, m))
  {
    if m.Go? { TakeKeeps(locks, t, m.takes, t); }
  }

  /** Whatever statement it is: if it leaves its session well, the machine is well. */
  lemma MoveStepOk(s: State, t: int, m: Move)
    requires MachineOk(s) && t in s.sessions
    requires m.Go? || m.Commit? ==> FreeFor(s.locks, t, m.takes)
    requires MoveOk(t, s.sessions[t].req, m, s.db, s.locks, LocksAfter(s.locks, t, m), Drop(s.locks, t))
    ensures MachineOk(AfterMove(s, t, m)) && CommitsAtMost(s, AfterMove(s, t, m))
  {
    LocksAfterKeeps(s.locks, t, m);
    match m
    case Wait =>
    case Go(_, _, _) => GoStepOk(s, t, m);
    case Commit(_, _, _, _) => CommitMoveStepOk(s, t, m);
    case End(_) => EndStepOk(s, t, m);
  }

  lemma StepOk(s: State, t: int, rows: seq<int>)
    requires MachineOk(s) && t in s.sessions
    ensures var s' := AfterMove(s, t, NextMove(s.sessions[t], s.db, rows));
      MachineOk(s') && CommitsAtMost(s, s')
  {
    var m := NextMove(s.sessions[t], s.db, rows);
    if m.Go? || m.Commit? ==> FreeFor(s.locks, t, m.takes) {
      NextMoveReady(s, t, rows);
      MoveStepOk(s, t, m);
    }
  }

  lemma NextMoveReady(s: State, t: int, rows: seq<int>)
    requires MachineOk(s) && t in s.sessions
    requires var m := NextMove(s.sessions[t], s.db, rows); m.Go? || m.Commit? ==> FreeFor(s.locks, t, m.takes)
    ensures var m := NextMove(s.sessions[t], s.db, rows);
      MoveOk(t, s.sessions[t].req, m, s.db, s.locks, LocksAfter(s.locks, t, m), Drop(s.locks, t))
  {
    var m := NextMove(s.sessions[t], s.db, rows);
    assert SessionOk(t, s.sessions[t], s.db, s.locks);
    LocksAfterKeeps(s.locks, t, m);
    NextMoveOk(t, s.sessions[t], s.db, rows, s.locks, LocksAfter(s.locks, t, m), Drop(s.locks, t));
  }

  lemma AbortStepOk(s: State, t: int)
    requires MachineOk(s) && t in s.sessions
    ensures var s' := AfterMove(s, t, End(Aborted(ExpiredBy(s.sessions[t].pc))));
      MachineOk(s') && CommitsAtMost(s, s')
  {
    assert SessionOk(t, s.sessions[t], s.db, s.locks);
    AbortedOk(t, s.sessions[t], s.db, s.locks, Drop(s.locks, t));
    EndStepOk(s, t, End(Aborted(ExpiredBy(s.sessions[t].pc))));
  }

  lemma BeginStepOk(s: State, t: int, req: Request)
    requires MachineOk(s) && t !in s.sessions
    ensures MachineOk(s.(sessions := s.sessions[t := Session(req, Start, NoWrites)]))
  {
    StartOk(t, req, s.db, s.locks);
    QuietStepOk(s, t, Session(req, Start, NoWrites), s.locks);
  }

  lemma EditLeaves(s: State, x: Txn, u: int)
    requires MachineOk(s) && CanEdit(s, x) && Inv(Effect(s.db, x)) && u in s.sessions
    ensures SessionOk(u, s.sessions[u], Effect(s.db, x), s.locks)
  {
    AdminIsEnv(s, x, u);
    SessionStable(u, s.sessions[u], s.db, Effect(s.db, x), s.locks, s.locks);
  }

  lemma EditStepOk(s: State, x: Txn)
    requires MachineOk(s) && CanEdit(s, x)
    ensures var s' := s.(db := Effect(s.db, x), history := s.history + [x]);
      MachineOk(s') && CommitsAtMost(s, s')
  {
    var s' := s.(db := Effect(s.db, x), history := s.history + [x]);
    AdminIsEnv(s, x, 0);
    EffectKeepsInv(s.db, x);
    forall u | u in s.sessions ensures SessionOk(u, s.sessions[u], s'.db, s.locks) { EditLeaves(s, x, u); }
    assert CommitsTxn(s, x, s');
  }

  /** Every step of every interleaving keeps the machine's invariant. */
  lemma Run1Ok(s: State, a: Label)
    requires MachineOk(s)
    ensures MachineOk(Run1(s, a)) && CommitsAtMost(s, Run1(s, a))
  {
    match a
    case Begin(t, req) => if t !in s.sessions { BeginStepOk(s, t, req); }
    case Step(t, rows) => if t in s.sessions { StepOk(s, t, rows); }
    case Abort(t) => if t in s.sessions && !Finished(s.sessions[t].pc) { AbortStepOk(s, t); }
    case Admin(x) => if CanEdit(s, x) { EditStepOk(s, x); }
  }

  lemma FreshIsOk(s: State)
    requires Fresh(s)
    ensures MachineOk(s)
  {
    InitEstablishes(s.db);
  }

  // ---- whole runs ----

  lemma CommitIsLater(s: State, s': State)
    requires Inv(s.db) && CommitsAtMost(s, s')
    ensures Later(s.db, s'.db)
  {
    if s'.db == s.db && s'.history == s.history {
      LaterReflexive(s.db);
    } else {
      var x :| CommitsTxn(s, x, s');
      EffectIsLater(s.db, x);
    }
  }

  lemma {:induction false} RunOk(s: State, labels: seq<Label>)
    requires MachineOk(s)
    ensures MachineOk(Run(s, labels))
  {
    if labels != [] {
      RunOk(s, labels[..|labels| - 1]);
      Run1Ok(Run(s, labels[..|labels| - 1]), labels[|labels| - 1]);
    }
  }

  lemma {:induction false} RunIsLater(s: State, labels: seq<Label>)
    requires MachineOk(s)
    ensures Later(s.db, Run(s, labels).db)
  {
    if labels == [] {
      LaterReflexive(s.db);
    } else {
      var mid := Run(s, labels[..|labels| - 1]);
      RunIsLater(s, labels[..|labels| - 1]);
      RunOk(s, labels[..|labels| - 1]);
      Run1Ok(mid, labels[|labels| - 1]);
      CommitIsLater(mid, Run(s, labels));
      LaterTransitive(s.db, mid.db, Run(s, labels).db);
    }
  }

  /** Along every run the invariant holds and rows only move forward. */
  lemma RunStaysLater(s: State, s': State)
    requires MachineOk(s) && Leads(s, s')
    ensures MachineOk(s') && Later(s.db, s'.db)
  {
    var labels :| s' == Run(s, labels);
    RunOk(s, labels);
    RunIsLater(s, labels);
  }

  lemma ReachableIsOk(s: State)
    requires Reachable(s)
    ensures MachineOk(s)
  {
    var s0 :| Fresh(s0) && Leads(s0, s);
    FreshIsOk(s0);
    RunStaysLater(s0, s);
  }

  lemma SessionIsOk(s: State, t: int)
    requires MachineOk(s) && t in s.sessions
    ensures SessionOk(t, s.sessions[t], s.db, s.locks)
  {
    assert SessionOk(t, s.sessions[t], s.db, s.locks);
  }

  lemma ReachableSession(s: State, t: int)
    requires Reachable(s) && t in s.sessions
    ensures Inv(s.db) && SessionOk(t, s.sessions[t], s.db, s.locks)
  {
    ReachableIsOk(s);
    SessionIsOk(s, t);
  }

  /** Every transaction of a history goes through when the history is run one at a time. */
  ghost predicate AllEnabled(db: Db, history: seq<Txn>) {
    forall i :: 0 <= i < |history| ==>
      Enabled(Replay(db, history[..i]), history[i]) && Admissible(Replay(db, history[..i]), history[i])
  }

  lemma OneMoreEnabled(db: Db, history: seq<Txn>, x: Txn)
    requires AllEnabled(db, history)
    requires Enabled(Replay(db, history), x) && Admissible(Replay(db, history), x)
    ensures AllEnabled(db, history + [x]) && Replay(db, history + [x]) == Effect(Replay(db, history), x)
  {
    var longer := history + [x];
    assert longer[..|longer| - 1] == history;
    forall i | 0 <= i < |longer|
      ensures Enabled(Replay(db, longer[..i]), longer[i]) && Admissible(Replay(db, longer[..i]), longer[i])
    {
      assert longer[..i] == history[..i];
      assert i == |history| ==> history[..i] == history;
    }
  }

  /** The state is that of its history run one at a time from `db`. */
  ghost predicate Serial(db: Db, s: State) {
    s.db == Replay(db, s.history) && AllEnabled(db, s.history)
  }

  lemma SerialStep(db: Db, s: State, s': State)
    requires Serial(db, s) && CommitsAtMost(s, s')
    ensures Serial(db, s')
  {
    if !(s'.db == s.db && s'.history == s.history) {
      var x :| CommitsTxn(s, x, s');
      OneMoreEnabled(db, s.history, x);
    }
  }

  lemma {:induction false} EveryRunIsSerial(s: State, labels: seq<Label>)
    requires Fresh(s)
    ensures Serial(s.db, Run(s, labels))
  {
    if labels != [] {
      var mid := Run(s, labels[..|labels| - 1]);
      EveryRunIsSerial(s, labels[..|labels| - 1]);
      FreshIsOk(s);
      RunOk(s, labels[..|labels| - 1]);
      Run1Ok(mid, labels[|labels| - 1]);
      SerialStep(s.db, mid, Run(s, labels));
    }
  }

  /**
   * Statement-level interleavings are serializable in commit order: same committed state, every transaction
   * enabled.
   */
  lemma RunIsSerial(s: State, s': State)
    requires Fresh(s) && Leads(s, s')
    ensures s'.db == Replay(s.db, s'.history) && AllEnabled(s.db, s'.history)
  {
    var labels :| s' == Run(s, labels);
    EveryRunIsSerial(s, labels);
  }
}
