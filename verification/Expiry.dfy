/** Sweeps expire only what is due, and leave nothing of their list ACTIVE, whatever races them. */
module Expiry {
  import opened Schema
  import opened Services
  import opened Invariants
  import opened Settlement
  import opened Footprints
  import opened Rely
  import opened Progress
  import opened Machine
  import opened SessionState
  import opened Concurrency
  import opened Ledger
  import opened RunLedger

  /** An EXPIRED reservation was over when it was released. */
  predicate ExpiredDue(r: Reservation) {
    r.status.Expired? ==> r.releasedAt.Some? && r.expiresAt <= r.releasedAt.value
  }

  predicate AllExpiredDue(reservations: map<int, Reservation>) {
    forall r | r in reservations :: ExpiredDue(reservations[r])
  }

  lemma OwnWriteDue(db: Db, x: Txn)
    requires Enabled(db, x) && AllExpiredDue(db.reservations) && (x.TCreate? || x.TCancel? || x.TExpire?)
    requires x.TExpire? ==> db.reservations[x.rid].expiresAt <= x.now
    ensures AllExpiredDue(Effect(db, x).reservations)
  {}

  lemma NotificationDue(db: Db, ev: Event)
    requires Inv(db) && Accepts(db, ev) && AllExpiredDue(db.reservations)
    ensures AllExpiredDue(ConfirmPayment(db, ev).db.reservations)
  {
    AcceptedTables(db, ev);
    ConversionDue(db, db.orders[db.payments[ev.ref].orderId].reservationId);
  }

  lemma ConversionDue(db: Db, rid: int)
    requires AllExpiredDue(db.reservations)
    ensures AllExpiredDue(db.reservations + ConvertedRows(db, rid)) && AllExpiredDue(db.reservations + map[])
  {}

  lemma EffectDue(db: Db, x: Txn)
    requires Inv(db) && Enabled(db, x) && AllExpiredDue(db.reservations)
    requires x.TExpire? ==> db.reservations[x.rid].expiresAt <= x.now
    ensures AllExpiredDue(Effect(db, x).reservations)
  {
    if x.TConfirm? {
      NotificationDue(db, x.ev);
    } else if x.TCreate? || x.TCancel? || x.TExpire? {
      OwnWriteDue(db, x);
    } else {
      OthersEndNone(db, x);
    }
  }

  /** An expiry is committed by a sweep, for a reservation of its list. */
  lemma ExpiryCommitter(t: int, ses: Session, db: Db, locks: LockTable, rows: seq<int>)
    requires SessionOk(t, ses, db, locks) && NextMove(ses, db, rows).Commit?
    ensures var x := NextMove(ses, db, rows).txn;
      x.TExpire? ==> x.rid in db.reservations && db.reservations[x.rid].expiresAt <= x.now
  {
    if ses.req.Sweep? {
      SweepCommitter(t, ses.req, ses.pc, ses.w, db, locks, rows);
    } else if ses.req.Redeem? {
      UnfinishedEarns(t, ses, db, locks, rows, Expiries);
    } else {
      OthersEarn(t, ses, db, locks, rows, Expiries);
    }
  }

  lemma SweepCommitter(t: int, req: Request, pc: Pc, w: Db, db: Db, locks: LockTable, rows: seq<int>)
    requires req.Sweep? && SweepState(t, req, pc, w, db, locks)
    ensures !pc.Committing? ==> !SweepMove(req, pc, w, db, rows).Commit?
    ensures pc.Committing? && pc.txn.TExpire? ==>
      pc.txn.rid in db.reservations && db.reservations[pc.txn.rid].expiresAt <= pc.txn.now
  {
    if !pc.Committing? { SweepMoveEarns(req, pc, w, db, rows, Expiries); }
  }

  lemma CommittedWhenDue(s: State, t: int, rows: seq<int>)
    requires MachineOk(s) && t in s.sessions && NextMove(s.sessions[t], s.db, rows).Commit?
    ensures var x := NextMove(s.sessions[t], s.db, rows).txn;
      x.TExpire? ==> x.rid in s.db.reservations && s.db.reservations[x.rid].expiresAt <= x.now
  {
    SessionIsOk(s, t);
    ExpiryCommitter(t, s.sessions[t], s.db, s.locks, rows);
  }

  lemma StepDue(s: State, t: int, rows: seq<int>)
    requires MachineOk(s) && AllExpiredDue(s.db.reservations) && t in s.sessions
    ensures AllExpiredDue(AfterMove(s, t, NextMove(s.sessions[t], s.db, rows)).db.reservations)
  {
    var m := NextMove(s.sessions[t], s.db, rows);
    StepOk(s, t, rows);
    StepShape(s, t, m);
    if m.Commit? { CommittedWhenDue(s, t, rows); }
    SteppedDue(s, t, m, AfterMove(s, t, m));
  }

  lemma SteppedDue(s: State, t: int, m: Move, s': State)
    requires Inv(s.db) && AllExpiredDue(s.db.reservations) && t in s.sessions
    requires Stepped(s, t, m, s') && CommitsAtMost(s, s')
    requires m.Commit? && m.txn.TExpire? ==>
      m.txn.rid in s.db.reservations && s.db.reservations[m.txn.rid].expiresAt <= m.txn.now
    ensures AllExpiredDue(s'.db.reservations)
  {
    if s' != s && m.Commit? {
      var x :| CommitsTxn(s, x, s');
      assert x == s'.history[|s.history|] == m.txn;
      EffectDue(s.db, x);
    } else {
      assert s.history + [] == s.history;
    }
  }

  lemma Run1Due(s: State, a: Label)
    requires MachineOk(s) && AllExpiredDue(s.db.reservations)
    ensures AllExpiredDue(Run1(s, a).db.reservations)
  {
    match a
    case Begin(_, _) =>
    case Step(t, rows) => if t in s.sessions { StepDue(s, t, rows); }
    case Abort(_) =>
    case Admin(x) => if CanEdit(s, x) { EffectDue(s.db, x); }
  }

  lemma {:induction false} RunDue(s: State, labels: seq<Label>)
    requires Fresh(s)
    ensures AllExpiredDue(Run(s, labels).db.reservations)
  {
    if labels != [] {
      var front := labels[..|labels| - 1];
      RunDue(s, front);
      FreshIsOk(s);
      RunOk(s, front);
      Run1Due(Run(s, front), labels[|labels| - 1]);
    }
  }

  /** In every run, whoever expired it and whenever its row was read: EXPIRED means it was due. */
  lemma OnlyDueExpire(s: State)
    requires Reachable(s)
    ensures AllExpiredDue(s.db.reservations)
  {
    var s0 :| Fresh(s0) && Leads(s0, s);
    var labels :| s == Run(s0, labels);
    RunDue(s0, labels);
  }

  /** A sweep that is done has left none of its due list ACTIVE, now or ever after. */
  lemma SweepLeavesNoneActive(s: State, t: int, s': State)
    requires Reachable(s) && t in s.sessions && s.sessions[t].req.Sweep? && s.sessions[t].pc.SweepDone?
    requires Leads(s, s')
    ensures var due, reservations' := s.sessions[t].pc.due, s'.db.reservations;
      forall i :: 0 <= i < |due| ==> due[i] in reservations' && Ended(reservations'[due[i]])
  {
    ReachableIsOk(s);
    ReachableSession(s, t);
    RunStaysLater(s, s');
    assert SweepState(t, s.sessions[t].req, s.sessions[t].pc, s.sessions[t].w, s.db, s.locks);
    EndedStays(s.sessions[t].pc.due, s.db, s'.db);
  }

  lemma EndedStays(due: seq<int>, db: Db, db': Db)
    requires Later(db, db')
    requires forall i :: 0 <= i < |due| ==> due[i] in db.reservations && Ended(db.reservations[due[i]])
    ensures forall i :: 0 <= i < |due| ==> due[i] in db'.reservations && Ended(db'.reservations[due[i]])
  {
    forall i | 0 <= i < |due| ensures due[i] in db'.reservations && Ended(db'.reservations[due[i]]) {
      var r := due[i];
      assert r in db.reservations;
      assert ReservationLater(db.reservations[r], db'.reservations[r]);
    }
  }
}
