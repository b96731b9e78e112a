/** A sweep that nothing disturbs expires every reservation that is due, gives back all they hold, and counts them. */
module SweepAlone {
  import opened Common
  import opened Schema
  import opened Sums
  import opened Services
  import opened Invariants
  import opened Settlement
  import opened Rely
  import opened Machine
  import opened SessionState
  import opened Sweep
  import opened Concurrency
  import opened Linearizable
  import opened Alone

  /** The first `i` reservations of the list are expired and counted. */
  ghost predicate SweptTo(due: seq<int>, i: nat, n: nat, db0: Db, rows: seq<int>, now: int, db: Db) {
    due == rows && n == i <= |rows| && db == ExpireAll(db0, rows[..i], now)
  }

  ghost predicate SweepOnTrack(pc: Pc, db0: Db, rows: seq<int>, now: int, db: Db) {
    match pc
    case Start => db == db0
    case NextDue(due, i, n) => SweptTo(due, i, n, db0, rows, now, db)
    case ClaimExpiry(due, i, n, _) => i < |rows| && SweptTo(due, i, n, db0, rows, now, db)
    case ReturnExpired(due, i, n, _) => i < |rows| && SweptTo(due, i, n, db0, rows, now, db)
    case Committing(x, next) =>
      && next.NextDue? && next.i > 0 && next.expired > 0 && next.i <= |rows|
      && x == TExpire(rows[next.i - 1], now)
      && SweptTo(next.due, next.i - 1, next.expired - 1, db0, rows, now, db)
    case SweepDone(due, n) => SweptTo(due, |due|, n, db0, rows, now, db)
    case _ => false
  }

  /** An upper bound on the statements the sweep of `rows` has yet to run. */
  function SweepRank(pc: Pc, rows: seq<int>): int {
    match pc
    case Start => 4 * |rows| + 2
    case NextDue(_, i, _) => 4 * (|rows| - i) + 1
    case ClaimExpiry(_, i, _, _) => 4 * (|rows| - i)
    case ReturnExpired(_, i, _, _) => 4 * (|rows| - i) - 1
    case Committing(_, next) => if next.NextDue? then 4 * (|rows| - next.i) + 2 else 1
    case _ => 0
  }

  /** The statement keeps the sweep on track and brings it closer to its end. */
  ghost predicate SweepFollows(m: Move, pc: Pc, db0: Db, rows: seq<int>, now: int, db: Db) {
    && !m.Wait? && SweepRank(m.pc, rows) < SweepRank(pc, rows)
    && SweepOnTrack(m.pc, db0, rows, now, if m.Commit? then Merge(db, m.w) else db)
  }

  /** Expiring the reservation at `i`, after those before it, goes through. */
  ghost predicate WonAt(db0: Db, rows: seq<int>, now: int, i: nat)
    requires i < |rows|
  {
    ExpireReservation(ExpireAll(db0, rows[..i], now), rows[i], now)
      == Outcome(ExpireAll(db0, rows[..i + 1], now), Flag(true))
  }

  ghost predicate AllWon(db0: Db, rows: seq<int>, now: int) {
    IsDueList(db0, now, rows) && forall i :: 0 <= i < |rows| ==> WonAt(db0, rows, now, i)
  }

  lemma EveryClaimIsWon(db0: Db, rows: seq<int>, now: int)
    requires Inv(db0) && IsDueList(db0, now, rows)
    ensures AllWon(db0, rows, now)
  {
    forall i | 0 <= i < |rows| ensures WonAt(db0, rows, now, i) { ExpireNext(db0, now, rows, i); }
  }

  lemma WonIsActive(db0: Db, rows: seq<int>, now: int, i: nat)
    requires i < |rows| && WonAt(db0, rows, now, i)
    ensures var db := ExpireAll(db0, rows[..i], now);
      rows[i] in db.reservations && db.reservations[rows[i]].status.Active?
  {}

  lemma ReadFollows(t: int, req: Request, pc: Pc, w: Db, db: Db, locks: LockTable, db0: Db, rows: seq<int>)
    requires req.Sweep? && SweepState(t, req, pc, w, db, locks) && (pc.Start? || pc.NextDue?)
    requires AllWon(db0, rows, req.now) && SweepOnTrack(pc, db0, rows, req.now, db)
    ensures SweepFollows(SweepMove(req, pc, w, db, rows), pc, db0, rows, req.now, db)
  {
    MergeWithNothing(db);
    assert rows[..|rows|] == rows;
  }

  lemma ActiveClaimFollows(req: Request, pc: Pc, db: Db, db0: Db, rows: seq<int>)
    requires req.Sweep? && pc.ClaimExpiry? && SweepOnTrack(pc, db0, rows, req.now, db)
    requires rows[pc.i] in db.reservations && db.reservations[rows[pc.i]].status.Active?
    ensures SweepFollows(SweepMove(req, pc, NoWrites, db, rows), pc, db0, rows, req.now, db)
  {
    MergeWithNothing(db);
  }

  lemma ClaimFollows(t: int, req: Request, pc: Pc, w: Db, db: Db, locks: LockTable, db0: Db, rows: seq<int>)
    requires req.Sweep? && SweepState(t, req, pc, w, db, locks) && pc.ClaimExpiry?
    requires SweepOnTrack(pc, db0, rows, req.now, db) && WonAt(db0, rows, req.now, pc.i)
    ensures SweepFollows(SweepMove(req, pc, w, db, rows), pc, db0, rows, req.now, db)
  {
    WonIsActive(db0, rows, req.now, pc.i);
    ActiveClaimFollows(req, pc, db, db0, rows);
  }

  lemma ReturnFollows(req: Request, pc: Pc, w: Db, db: Db, db0: Db, rows: seq<int>)
    requires req.Sweep? && pc.ReturnExpired? && SweepOnTrack(pc, db0, rows, req.now, db)
    ensures SweepFollows(SweepMove(req, pc, w, db, rows), pc, db0, rows, req.now, db)
  {}

  lemma WonCommitFollows(req: Request, pc: Pc, w: Db, db: Db, db0: Db, rows: seq<int>)
    requires req.Sweep? && pc.Committing?
    requires SweepOnTrack(pc, db0, rows, req.now, db) && WonAt(db0, rows, req.now, pc.next.i - 1)
    requires ExpireReservation(db, pc.txn.rid, req.now) == Outcome(Merge(db, w), Flag(true))
    ensures SweepFollows(Commit(pc.next, w, {}, pc.txn), pc, db0, rows, req.now, db)
  {}

  lemma CommitFollows(t: int, req: Request, pc: Pc, w: Db, db: Db, locks: LockTable, db0: Db, rows: seq<int>)
    requires req.Sweep? && SweepState(t, req, pc, w, db, locks) && pc.Committing? && Inv(db)
    requires SweepOnTrack(pc, db0, rows, req.now, db) && WonAt(db0, rows, req.now, pc.next.i - 1)
    ensures SweepFollows(Commit(pc.next, w, {}, pc.txn), pc, db0, rows, req.now, db)
  {
    SweepCommitting(t, req, pc, w, db, locks);
    WonCommitFollows(req, pc, w, db, db0, rows);
  }

  lemma ReadStatementFollows(t: int, ses: Session, db: Db, locks: LockTable, db0: Db, rows: seq<int>)
    requires SessionOk(t, ses, db, locks) && ses.req.Sweep? && (ses.pc.Start? || ses.pc.NextDue?)
    requires AllWon(db0, rows, ses.req.now) && SweepOnTrack(ses.pc, db0, rows, ses.req.now, db)
    ensures SweepFollows(NextMove(ses, db, rows), ses.pc, db0, rows, ses.req.now, db)
  {
    ReadFollows(t, ses.req, ses.pc, ses.w, db, locks, db0, rows);
  }

  lemma WriteStatementFollows(t: int, ses: Session, db: Db, locks: LockTable, db0: Db, rows: seq<int>)
    requires SessionOk(t, ses, db, locks) && ses.req.Sweep? && (ses.pc.ClaimExpiry? || ses.pc.ReturnExpired?)
    requires AllWon(db0, rows, ses.req.now) && SweepOnTrack(ses.pc, db0, rows, ses.req.now, db)
    ensures SweepFollows(NextMove(ses, db, rows), ses.pc, db0, rows, ses.req.now, db)
  {
    assert WonAt(db0, rows, ses.req.now, ses.pc.i);
    if ses.pc.ClaimExpiry? {
      ClaimFollows(t, ses.req, ses.pc, ses.w, db, locks, db0, rows);
    } else {
      ReturnFollows(ses.req, ses.pc, ses.w, db, db0, rows);
    }
  }

  lemma SweepStatementFollows(t: int, ses: Session, db: Db, locks: LockTable, db0: Db, rows: seq<int>)
    requires SessionOk(t, ses, db, locks) && Inv(db) && ses.req.Sweep? && !Finished(ses.pc)
    requires AllWon(db0, rows, ses.req.now) && SweepOnTrack(ses.pc, db0, rows, ses.req.now, db)
    ensures SweepFollows(NextMove(ses, db, rows), ses.pc, db0, rows, ses.req.now, db)
  {
    if ses.pc.Committing? {
      assert WonAt(db0, rows, ses.req.now, ses.pc.next.i - 1);
      CommitFollows(t, ses.req, ses.pc, ses.w, db, locks, db0, rows);
    } else if ses.pc.Start? || ses.pc.NextDue? {
      ReadStatementFollows(t, ses, db, locks, db0, rows);
    } else {
      WriteStatementFollows(t, ses, db, locks, db0, rows);
    }
  }

  /** The sweep of `t`, begun on `db0`, is done or on track and at most `bound` statements from its end. */
  ghost predicate Sweeping(db0: Db, s: State, t: int, now: int, rows: seq<int>, bound: int) {
    && t in s.sessions && s.sessions[t].req == Sweep(now) && OnlyHolder(s.locks, t)
    && SweepOnTrack(s.sessions[t].pc, db0, rows, now, s.db)
    && (s.sessions[t].pc.SweepDone? || SweepRank(s.sessions[t].pc, rows) <= bound)
  }

  lemma SweepingShows(db0: Db, s: State, t: int, now: int, rows: seq<int>, bound: int, m: Move)
    requires Sweeping(db0, s, t, now, rows, bound) && !s.sessions[t].pc.SweepDone?
    requires SweepFollows(m, s.sessions[t].pc, db0, rows, now, s.db)
    ensures Sweeping(db0, AfterMove(s, t, m), t, now, rows, bound - 1)
  {}

  lemma SweepDoneWaits(ses: Session, db: Db, rows: seq<int>)
    requires ses.req.Sweep? && ses.pc.SweepDone?
    ensures NextMove(ses, db, rows).Wait?
  {}

  lemma NextSweeps(db0: Db, s: State, t: int, now: int, rows: seq<int>, bound: int)
    requires MachineOk(s) && AllWon(db0, rows, now) && Sweeping(db0, s, t, now, rows, bound)
    ensures Sweeping(db0, Run1(s, Step(t, rows)), t, now, rows, bound - 1)
  {
    if s.sessions[t].pc.SweepDone? {
      SweepDoneWaits(s.sessions[t], s.db, rows);
    } else {
      SessionIsOk(s, t);
      SweepStatementFollows(t, s.sessions[t], s.db, s.locks, db0, rows);
      SweepingShows(db0, s, t, now, rows, bound, NextMove(s.sessions[t], s.db, rows));
    }
  }

  lemma NextSweepsOn(db0: Db, s: State, t: int, now: int, rows: seq<int>, bound: int)
    requires Reachable(s) && AllWon(db0, rows, now) && Sweeping(db0, s, t, now, rows, bound)
    ensures Reachable(Run1(s, Step(t, rows))) && Sweeping(db0, Run1(s, Step(t, rows)), t, now, rows, bound - 1)
  {
    StillReachable(s, Step(t, rows));
    ReachableIsOk(s);
    NextSweeps(db0, s, t, now, rows, bound);
  }

  lemma {:induction false} StepsSweep(db0: Db, s: State, t: int, now: int, rows: seq<int>, bound: int, n: nat)
    requires Reachable(s) && AllWon(db0, rows, now) && Sweeping(db0, s, t, now, rows, bound)
    ensures Reachable(Steps(s, t, rows, n)) && Sweeping(db0, Steps(s, t, rows, n), t, now, rows, bound - n)
  {
    if n > 0 {
      StepsSweep(db0, s, t, now, rows, bound, n - 1);
      NextSweepsOn(db0, Steps(s, t, rows, n - 1), t, now, rows, bound - (n - 1));
    }
  }

  /** What is on the list is what is due. */
  lemma DueListIsDue(db: Db, now: int, due: seq<int>)
    requires IsDueList(db, now, due)
    ensures Elements(due) == DueIds(db.reservations, now) && |due| == |DueIds(db.reservations, now)|
  {
    assert forall r :: r in Elements(due) <==> r in DueIds(db.reservations, now);
    ElementsCount(due);
  }

  lemma {:induction false} ElementsCount(due: seq<int>)
    requires forall i, j :: 0 <= i < j < |due| ==> due[i] != due[j]
    ensures |Elements(due)| == |due|
  {
    if due != [] {
      var front, last := due[..|due| - 1], due[|due| - 1];
      ElementsCount(front);
      assert due == front + [last];
      assert Elements(due) == Elements(front) + {last};
    }
  }

  function ExpiredIfDue(r: Reservation, now: int): Reservation {
    if r.status == Active && r.expiresAt <= now then r.(status := Expired, releasedAt := Some(now)) else r
  }

  /** After the sweep: every reservation due is EXPIRED, its units are back, and everything else is as it was. */
  ghost predicate AllExpired(db: Db, now: int, db': Db) {
    && db' == db.(reservations := db'.reservations, inventory := db'.inventory)
    && db'.reservations.Keys == db.reservations.Keys
    && (forall r :: r in db.reservations ==> db'.reservations[r] == ExpiredIfDue(db.reservations[r], now))
    && db'.inventory.Keys == db.inventory.Keys
    && forall p :: p in db.inventory ==>
        Returned(db.inventory[p], db'.inventory[p], Sum(DueQty(db.reservations, now, p)))
  }

  lemma SweptAll(db: Db, now: int, rows: seq<int>)
    requires Inv(db) && IsDueList(db, now, rows)
    ensures AllExpired(db, now, ExpireAll(db, rows, now))
  {
    SweepAccounts(db, rows, now);
  }

  /**
   * A sweep begun while nobody holds a lock, and left alone, comes to its end; then it has expired all that was due
   * and counted each.
   */
  lemma SweepAloneExpiresAll(s: State, t: int, now: int, rows: seq<int>) returns (n: nat)
    requires Reachable(s) && t !in s.sessions && s.locks == map[] && IsDueList(s.db, now, rows)
    ensures var s' := Steps(Begun(s, t, Sweep(now)), t, rows, n);
      && t in s'.sessions && s'.sessions[t].pc == SweepDone(rows, |DueIds(s.db.reservations, now)|)
      && AllExpired(s.db, now, s'.db)
  {
    n := 4 * |rows| + 3;
    assert AllWon(s.db, rows, now) by {
      ReachableIsOk(s);
      EveryClaimIsWon(s.db, rows, now);
    }
    BegunSweeps(s, t, now, rows);
    StepsSweep(s.db, Begun(s, t, Sweep(now)), t, now, rows, n - 1, n);
    assert Inv(s.db) by { ReachableIsOk(s); }
    SweepEnds(s.db, Steps(Begun(s, t, Sweep(now)), t, rows, n), t, now, rows);
  }

  lemma BegunSweeps(s: State, t: int, now: int, rows: seq<int>)
    requires Reachable(s) && t !in s.sessions && s.locks == map[]
    ensures Reachable(Begun(s, t, Sweep(now)))
    ensures Sweeping(s.db, Begun(s, t, Sweep(now)), t, now, rows, 4 * |rows| + 2)
  {
    StillReachable(s, Begin(t, Sweep(now)));
  }

  lemma SweepEnds(db0: Db, s: State, t: int, now: int, rows: seq<int>)
    requires Inv(db0) && IsDueList(db0, now, rows) && Sweeping(db0, s, t, now, rows, -1)
    ensures s.sessions[t].pc == SweepDone(rows, |DueIds(db0.reservations, now)|) && AllExpired(db0, now, s.db)
  {
    DueListIsDue(db0, now, rows);
    assert rows[..|rows|] == rows;
    SweptAll(db0, now, rows);
  }
}
