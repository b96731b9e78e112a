/**
 * An unfinished call always has a next statement; it waits only for a row another session holds. Sessions that
 * wait for each other wait until the database aborts one of them.
 */
module Liveness {
  import opened Schema
  import opened Sums
  import opened Services
  import opened Footprints
  import opened Rely
  import opened Machine
  import opened SessionState
  import opened Stable
  import opened Concurrency

  /** Some order of any finite set of rows. */
  lemma {:induction false} Listing(rows: set<int>) returns (list: seq<int>)
    ensures forall r :: r in list <==> r in rows
    ensures forall i, j :: 0 <= i < j < |list| ==> list[i] != list[j]
    decreases |rows|
  {
    if rows == {} {
      list := [];
    } else {
      HasMember(rows);
      var r :| r in rows;
      var rest := Listing(rows - {r});
      list := rest + [r];
    }
  }

  lemma DueListExists(db: Db, now: int) returns (due: seq<int>)
    ensures IsDueList(db, now, due)
  {
    due := Listing(set r | r in db.reservations && db.reservations[r].status.Active?
      && db.reservations[r].expiresAt <= now);
  }

  lemma CreateGoesOn(t: int, req: Request, pc: Pc, w: Db, db: Db, locks: LockTable)
    requires req.Create? && CreateState(t, req, pc, w, db, locks) && !Finished(pc) && !pc.Committing?
    ensures !CreateMove(req, pc, w, db).Wait?
  {}

  lemma CancelGoesOn(t: int, req: Request, pc: Pc, w: Db, db: Db, locks: LockTable)
    requires req.Cancel? && CancelState(t, req, pc, w, db, locks) && !Finished(pc) && !pc.Committing?
    ensures !CancelMove(req, pc, w, db).Wait?
  {}

  lemma SweepGoesOn(t: int, req: Request, pc: Pc, w: Db, db: Db, locks: LockTable) returns (rows: seq<int>)
    requires req.Sweep? && SweepState(t, req, pc, w, db, locks) && !Finished(pc) && !pc.Committing?
    ensures !SweepMove(req, pc, w, db, rows).Wait?
  {
    rows := DueListExists(Merge(db, w), req.now);
  }

  lemma CheckoutGoesOn(t: int, req: Request, pc: Pc, w: Db, db: Db, locks: LockTable)
    requires req.PlaceCheckout? && CheckoutState(t, req, pc, w, db, locks) && !Finished(pc) && !pc.Committing?
    ensures !CheckoutMove(req, pc, w, db).Wait?
  {}

  lemma ApplyGoesOn(t: int, req: Request, pc: Pc, w: Db, db: Db, locks: LockTable)
    requires req.Apply? && ApplyState(t, req, pc, w, db, locks) && !Finished(pc) && !pc.Committing?
    ensures !ApplyMove(req, pc, w, db).Wait?
  {}

  lemma PayGoesOn(t: int, req: Request, pc: Pc, w: Db, db: Db, locks: LockTable)
    requires req.Pay? && PayState(t, req, pc, w, db, locks) && !Finished(pc) && !pc.Committing?
    ensures !PayMove(req, pc, w, db).Wait?
  {}

  lemma RedeemGoesOn(t: int, req: Request, pc: Pc, w: Db, db: Db, locks: LockTable)
    requires req.Redeem? && RedeemState(t, req, pc, w, db, locks) && !Finished(pc) && !pc.Committing?
    ensures !RedeemMove(req, pc, w, db).Wait?
  {}

  lemma ClaimingGoesOn(ev: Event, pc: Pc, w: Db, db: Db)
    requires pc.Start? || pc.ClaimPayment? || BeforeOrder(pc) || pc.MarkPaid?
    ensures !ConfirmMove(ev, pc, w, db).Wait?
  {}

  lemma IssuingGoesOn(ev: Event, pc: Pc, w: Db, db: Db)
    requires BeforeTickets(pc) || pc.FindTickets? || pc.ReadItems? || pc.InsertTicket?
    ensures !ConfirmMove(ev, pc, w, db).Wait?
  {}

  lemma ConfirmGoesOn(t: int, ev: Event, pc: Pc, w: Db, db: Db, locks: LockTable)
    requires ConfirmState(t, ev, pc, w, db, locks) && !Finished(pc) && !pc.Committing?
    ensures !ConfirmMove(ev, pc, w, db).Wait?
  {
    if pc.Start? || pc.ClaimPayment? || BeforeOrder(pc) || pc.MarkPaid? {
      ClaimingGoesOn(ev, pc, w, db);
    } else {
      IssuingGoesOn(ev, pc, w, db);
    }
  }

  lemma NextStatement(t: int, ses: Session, db: Db, locks: LockTable) returns (rows: seq<int>)
    requires SessionOk(t, ses, db, locks) && !Finished(ses.pc)
    ensures !NextMove(ses, db, rows).Wait?
  {
    rows := [];
    if !ses.pc.Committing? {
      match ses.req
      case Create(_, _, _, _, _) => CreateGoesOn(t, ses.req, ses.pc, ses.w, db, locks);
      case Cancel(_, _) => CancelGoesOn(t, ses.req, ses.pc, ses.w, db, locks);
      case Sweep(_) => rows := SweepGoesOn(t, ses.req, ses.pc, ses.w, db, locks);
      case PlaceCheckout(_, _, _, _) => CheckoutGoesOn(t, ses.req, ses.pc, ses.w, db, locks);
      case Apply(_, _, _, _) => ApplyGoesOn(t, ses.req, ses.pc, ses.w, db, locks);
      case Pay(_, _, _) => PayGoesOn(t, ses.req, ses.pc, ses.w, db, locks);
      case Confirm(ev) => ConfirmGoesOn(t, ev, ses.pc, ses.w, db, locks);
      case Redeem(_, _, _, _) => RedeemGoesOn(t, ses.req, ses.pc, ses.w, db, locks);
    }
  }

  /** The rows a statement wants to lock. */
  function Wants(m: Move): set<Lock> {
    match m
    case Go(_, _, takes) => takes
    case Commit(_, _, takes, _) => takes
    case _ => {}
  }

  /** The statement runs: the session is where the statement leads. */
  ghost predicate RunsTo(s: State, t: int, rows: seq<int>, pc: Pc) {
    var s' := Run1(s, Step(t, rows));
    t in s'.sessions && s'.sessions[t].pc == pc
  }

  lemma FreeStatementRuns(s: State, t: int, rows: seq<int>)
    requires t in s.sessions
    ensures var m := NextMove(s.sessions[t], s.db, rows);
      !m.Wait? && FreeFor(s.locks, t, Wants(m)) ==> RunsTo(s, t, rows, m.pc)
  {}

  /** An unfinished call always has a next statement, which runs unless another session holds a row it wants. */
  lemma NeverStuck(s: State, t: int) returns (rows: seq<int>)
    requires Reachable(s) && t in s.sessions && !Finished(s.sessions[t].pc)
    ensures var m := NextMove(s.sessions[t], s.db, rows);
      !m.Wait? && (FreeFor(s.locks, t, Wants(m)) ==> RunsTo(s, t, rows, m.pc))
  {
    ReachableSession(s, t);
    rows := NextStatement(t, s.sessions[t], s.db, s.locks);
    FreeStatementRuns(s, t, rows);
  }

  // ---- what may come between statements ----

  /** Any unfinished call may be rolled back at any point: its writes and locks are gone, nothing else changes. */
  lemma AnyCallMayAbort(s: State, t: int)
    requires t in s.sessions && !Finished(s.sessions[t].pc)
    ensures var s' := Run1(s, Abort(t));
      && s'.db == s.db && s'.history == s.history
      && s'.sessions == s.sessions[t := Session(s.sessions[t].req, Aborted(ExpiredBy(s.sessions[t].pc)), NoWrites)]
      && forall l :: l in s'.locks <==> l in s.locks && s.locks[l] != t
  {}

  /** An edit whose rows no call has locked takes effect at once, whatever calls are under way. */
  lemma EditsTakeEffect(s: State, x: Txn)
    requires x.TPrice? || x.TPromotion? || x.TRestock? || x.TReconcile?
    requires Enabled(s.db, x) && forall l :: l in Footprint(s.db, x) ==> l !in s.locks
    ensures Run1(s, Admin(x)) == s.(db := Effect(s.db, x), history := s.history + [x])
  {}
}
