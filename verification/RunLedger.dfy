/** Counting over whole runs: what calls answered against what was committed. */
module RunLedger {
  import opened Common
  import opened Schema
  import opened Sums
  import opened Services
  import opened Invariants
  import opened Rely
  import opened Machine
  import opened SessionState
  import opened Concurrency
  import opened Ledger

  /** What a call has to its credit: reservations expired by a sweep, or a redemption it reported. */
  datatype Kind = Expiries | Redemptions(code: string)

  function CreditAt(req: Request, pc: Pc, kind: Kind): nat {
    match kind
    case Expiries => ExpiredBy(pc)
    case Redemptions(code) => if req.Redeem? && req.code == code && pc == Done(CouponRedeemed) then 1 else 0
  }

  function Credit(ses: Session, kind: Kind): nat { CreditAt(ses.req, ses.pc, kind) }

  predicate Earns(x: Txn, kind: Kind) {
    match kind
    case Expiries => x.TExpire?
    case Redemptions(code) => Redeems(x, code)
  }

  function EarnsOf(kind: Kind): Txn -> bool { (x: Txn) => Earns(x, kind) }

  ghost function Credits(sessions: map<int, Session>, kind: Kind): map<int, int> {
    map t | t in sessions :: Credit(sessions[t], kind)
  }

  // ---- one statement ----

  predicate Commits(m: Move, kind: Kind) { m.Commit? && Earns(m.txn, kind) }

  /** The statement adds to the session's credit exactly what it commits. */
  predicate MoveEarns(req: Request, pc: Pc, m: Move, kind: Kind) {
    m.Wait? || CreditAt(req, m.pc, kind) == CreditAt(req, pc, kind) + (if Commits(m, kind) then 1 else 0)
  }

  lemma SweepMoveEarns(req: Request, pc: Pc, w: Db, db: Db, rows: seq<int>, kind: Kind)
    requires req.Sweep? && !pc.Committing?
    ensures MoveEarns(req, pc, SweepMove(req, pc, w, db, rows), kind)
    ensures !SweepMove(req, pc, w, db, rows).Commit?
  {}

  lemma SweepCommitEarns(t: int, req: Request, pc: Pc, w: Db, db: Db, locks: LockTable, kind: Kind)
    requires req.Sweep? && pc.Committing? && SweepState(t, req, pc, w, db, locks)
    ensures MoveEarns(req, pc, Commit(pc.next, w, {}, pc.txn), kind)
  {}

  lemma RedeemMoveEarns(req: Request, pc: Pc, w: Db, db: Db, kind: Kind)
    requires req.Redeem? && !pc.Committing? && !Finished(pc)
    ensures MoveEarns(req, pc, RedeemMove(req, pc, w, db), kind)
    ensures var m := RedeemMove(req, pc, w, db); m.Commit? ==> m.txn.TLog?
  {}

  lemma RedeemCommitEarns(t: int, req: Request, pc: Pc, w: Db, db: Db, locks: LockTable, kind: Kind)
    requires req.Redeem? && pc.Committing? && RedeemState(t, req, pc, w, db, locks)
    ensures MoveEarns(req, pc, Commit(pc.next, w, {}, pc.txn), kind)
  {}

  lemma OthersCommitting(t: int, ses: Session, db: Db, locks: LockTable, kind: Kind)
    requires SessionOk(t, ses, db, locks) && !ses.req.Sweep? && !ses.req.Redeem?
    ensures Credit(ses, kind) == 0
    ensures ses.pc.Committing? ==> !Earns(ses.pc.txn, kind)
  {
    OthersExpireNone(t, ses, db, locks);
    if ses.pc.Committing? { OthersRedeemNothing(t, ses, db, locks); }
  }

  lemma OthersRedeemNothing(t: int, ses: Session, db: Db, locks: LockTable)
    requires SessionOk(t, ses, db, locks) && !ses.req.Redeem? && ses.pc.Committing?
    ensures !ses.pc.txn.TRedeem?
  {}

  /** Only a payment is inserted without a transaction of its own. */
  lemma OthersDirect(ses: Session, db: Db, rows: seq<int>)
    requires !ses.pc.Committing? && !ses.req.Sweep? && !ses.req.Redeem? && NextMove(ses, db, rows).Commit?
    ensures NextMove(ses, db, rows).txn.TPay?
  {
    if ses.req.Confirm? { ConfirmNeverDirect(ses.req.ev, ses.pc, ses.w, db); }
  }

  lemma ConfirmNeverDirect(ev: Event, pc: Pc, w: Db, db: Db)
    ensures !ConfirmMove(ev, pc, w, db).Commit?
  {}

  lemma OthersEarn(t: int, ses: Session, db: Db, locks: LockTable, rows: seq<int>, kind: Kind)
    requires SessionOk(t, ses, db, locks) && !ses.req.Sweep? && !ses.req.Redeem?
    ensures Credit(ses, kind) == 0 && !Commits(NextMove(ses, db, rows), kind)
  {
    OthersCommitting(t, ses, db, locks, kind);
    if NextMove(ses, db, rows).Commit? && !ses.pc.Committing? { OthersDirect(ses, db, rows); }
  }

  lemma SweepEarns(t: int, ses: Session, db: Db, locks: LockTable, rows: seq<int>, kind: Kind)
    requires SessionOk(t, ses, db, locks) && ses.req.Sweep?
    ensures MoveEarns(ses.req, ses.pc, NextMove(ses, db, rows), kind)
  {
    if ses.pc.Committing? {
      SweepCommitEarns(t, ses.req, ses.pc, ses.w, db, locks, kind);
    } else {
      SweepMoveEarns(ses.req, ses.pc, ses.w, db, rows, kind);
    }
  }

  lemma RedeemEarns(t: int, ses: Session, db: Db, locks: LockTable, rows: seq<int>, kind: Kind)
    requires SessionOk(t, ses, db, locks) && ses.req.Redeem? && !Finished(ses.pc)
    ensures MoveEarns(ses.req, ses.pc, NextMove(ses, db, rows), kind)
  {
    if ses.pc.Committing? {
      RedeemCommitEarns(t, ses.req, ses.pc, ses.w, db, locks, kind);
    } else {
      RedeemMoveEarns(ses.req, ses.pc, ses.w, db, kind);
    }
  }

  // ---- one step of the machine ----

  lemma CreditsUpdate(sessions: map<int, Session>, t: int, ses: Session, kind: Kind)
    ensures Sum(Credits(sessions[t := ses], kind))
         == Sum(Credits(sessions, kind)) + Credit(ses, kind) - (if t in sessions then Credit(sessions[t], kind) else 0)
  {
    assert Credits(sessions[t := ses], kind) == Credits(sessions, kind)[t := Credit(ses, kind)];
    SumUpdate(Credits(sessions, kind), t, Credit(ses, kind));
  }

  ghost function Earned(s: State, kind: Kind): int {
    Sum(Credits(s.sessions, kind)) - Count(s.history, EarnsOf(kind))
  }

  lemma HistoryGrows(history: seq<Txn>, x: Txn, kind: Kind)
    ensures Count(history + [x], EarnsOf(kind)) == Count(history, EarnsOf(kind)) + (if Earns(x, kind) then 1 else 0)
  {
    CountConcat(history, [x], EarnsOf(kind));
    CountUniform([x], EarnsOf(kind), Earns(x, kind));
  }

  /** A finished call has no next statement. */
  lemma FinishedWaits(t: int, ses: Session, db: Db, locks: LockTable, rows: seq<int>)
    requires SessionOk(t, ses, db, locks) && Finished(ses.pc)
    ensures NextMove(ses, db, rows).Wait?
  {}

  /** `ses'` is the session once the statement has run. */
  lemma StatementEarns(t: int, ses: Session, db: Db, locks: LockTable, rows: seq<int>, kind: Kind,
                       ses': Session, db': Db, locks': LockTable)
    requires SessionOk(t, ses, db, locks) && !NextMove(ses, db, rows).Wait?
    requires SessionOk(t, ses', db', locks') && ses'.req == ses.req && ses'.pc == NextMove(ses, db, rows).pc
    ensures MoveEarns(ses.req, ses.pc, NextMove(ses, db, rows), kind)
  {
    if ses.req.Sweep? || ses.req.Redeem? {
      EarnersEarn(t, ses, db, locks, rows, kind);
    } else {
      OthersEarn(t, ses, db, locks, rows, kind);
      OthersCommitting(t, ses', db', locks', kind);
    }
  }

  lemma EarnersEarn(t: int, ses: Session, db: Db, locks: LockTable, rows: seq<int>, kind: Kind)
    requires SessionOk(t, ses, db, locks) && (ses.req.Sweep? || ses.req.Redeem?) && !NextMove(ses, db, rows).Wait?
    ensures MoveEarns(ses.req, ses.pc, NextMove(ses, db, rows), kind)
  {
    if ses.req.Sweep? {
      SweepEarns(t, ses, db, locks, rows, kind);
    } else {
      UnfinishedEarns(t, ses, db, locks, rows, kind);
    }
  }

  lemma UnfinishedEarns(t: int, ses: Session, db: Db, locks: LockTable, rows: seq<int>, kind: Kind)
    requires SessionOk(t, ses, db, locks) && ses.req.Redeem? && !NextMove(ses, db, rows).Wait?
    ensures MoveEarns(ses.req, ses.pc, NextMove(ses, db, rows), kind)
  {
    if Finished(ses.pc) { FinishedWaits(t, ses, db, locks, rows); }
    RedeemEarns(t, ses, db, locks, rows, kind);
  }

  lemma SessionEarns(s: State, t: int, rows: seq<int>, s': State, kind: Kind)
    requires MachineOk(s) && MachineOk(s') && t in s.sessions
    requires Stepped(s, t, NextMove(s.sessions[t], s.db, rows), s') && s' != s
    ensures MoveEarns(s.sessions[t].req, s.sessions[t].pc, NextMove(s.sessions[t], s.db, rows), kind)
  {
    SessionIsOk(s, t);
    SessionIsOk(s', t);
    StatementEarns(t, s.sessions[t], s.db, s.locks, rows, kind, s'.sessions[t], s'.db, s'.locks);
  }

  /** What a statement does to the sessions and the history. */
  ghost predicate Stepped(s: State, t: int, m: Move, s': State)
    requires t in s.sessions
  {
    || s' == s
    || (&& !m.Wait? && t in s'.sessions
        && s'.sessions == s.sessions[t := Session(s.sessions[t].req, m.pc, s'.sessions[t].w)]
        && s'.history == s.history + (if m.Commit? then [m.txn] else []))
  }

  lemma StepShape(s: State, t: int, m: Move)
    requires t in s.sessions
    ensures Stepped(s, t, m, AfterMove(s, t, m))
  {
    assert s.history + [] == s.history;
  }

  lemma SteppedEarns(s: State, t: int, m: Move, s': State, kind: Kind)
    requires t in s.sessions && Stepped(s, t, m, s')
    requires s' != s ==> MoveEarns(s.sessions[t].req, s.sessions[t].pc, m, kind)
    ensures Earned(s', kind) == Earned(s, kind)
  {
    if s' != s {
      CreditsUpdate(s.sessions, t, s'.sessions[t], kind);
      if m.Commit? {
        HistoryGrows(s.history, m.txn, kind);
      } else {
        assert s.history + [] == s.history;
      }
    }
  }

  lemma StepEarns(s: State, t: int, rows: seq<int>, kind: Kind)
    requires MachineOk(s) && t in s.sessions
    ensures Earned(AfterMove(s, t, NextMove(s.sessions[t], s.db, rows)), kind) == Earned(s, kind)
  {
    var m := NextMove(s.sessions[t], s.db, rows);
    var s' := AfterMove(s, t, m);
    StepOk(s, t, rows);
    StepShape(s, t, m);
    if s' != s { SessionEarns(s, t, rows, s', kind); }
    SteppedEarns(s, t, m, s', kind);
  }

  lemma AbortEarns(s: State, t: int, kind: Kind)
    requires t in s.sessions && !Finished(s.sessions[t].pc)
    ensures Earned(AfterMove(s, t, End(Aborted(ExpiredBy(s.sessions[t].pc)))), kind) == Earned(s, kind)
  {
    var m := End(Aborted(ExpiredBy(s.sessions[t].pc)));
    StepShape(s, t, m);
    SteppedEarns(s, t, m, AfterMove(s, t, m), kind);
  }

  lemma Run1Earns(s: State, a: Label, kind: Kind)
    requires MachineOk(s)
    ensures Earned(Run1(s, a), kind) == Earned(s, kind)
  {
    match a
    case Begin(t, req) =>
      if t !in s.sessions { CreditsUpdate(s.sessions, t, Session(req, Start, NoWrites), kind); }
    case Step(t, rows) => if t in s.sessions { StepEarns(s, t, rows, kind); }
    case Abort(t) => if t in s.sessions && !Finished(s.sessions[t].pc) { AbortEarns(s, t, kind); }
    case Admin(x) => if CanEdit(s, x) { HistoryGrows(s.history, x, kind); }
  }

  lemma {:induction false} RunEarns(s: State, labels: seq<Label>, kind: Kind)
    requires Fresh(s)
    ensures Earned(Run(s, labels), kind) == 0
  {
    if labels == [] {
      assert Credits(s.sessions, kind) == map[];
    } else {
      var front := labels[..|labels| - 1];
      RunEarns(s, front, kind);
      FreshIsOk(s);
      RunOk(s, front);
      Run1Earns(Run(s, front), labels[|labels| - 1], kind);
    }
  }

  /** What calls have to their credit is what the history holds. */
  lemma CreditsAreExact(s: State, s': State, kind: Kind)
    requires Fresh(s) && Leads(s, s')
    ensures Sum(Credits(s'.sessions, kind)) == Count(s'.history, EarnsOf(kind))
  {
    var labels :| s' == Run(s, labels);
    RunEarns(s, labels, kind);
  }

  // ---- the main counts ----

  /** Whatever sweeps and cancels race: what the sweeps report adds up to the reservations that are EXPIRED. */
  lemma SweepsAddUp(s: State, s': State)
    requires Fresh(s) && Leads(s, s')
    ensures Sum(Credits(s'.sessions, Expiries)) == |WithStatus(s'.db.reservations, Expired)|
  {
    CreditsAreExact(s, s', Expiries);
    RunIsSerial(s, s');
    InitEstablishes(s.db);
    EndingsAreCounted(s.db, s'.history, Expired);
    SamePredicate(s'.history);
  }

  lemma {:induction false} SamePredicate(history: seq<Txn>)
    ensures Count(history, EarnsOf(Expiries)) == Count(history, EndsAs(Expired))
  {
    if history != [] { SamePredicate(history[..|history| - 1]); }
  }

  lemma RedemptionsCounted(s: State, s': State, code: string)
    requires Fresh(s) && Leads(s, s')
    ensures Sum(Credits(s'.sessions, Redemptions(code))) == if IsRedeemed(s'.db.coupons, code) then 1 else 0
  {
    CreditsAreExact(s, s', Redemptions(code));
    RunIsSerial(s, s');
    RedeemedByOne(s.db, s'.history, code);
    CountAligned(s'.history, EarnsOf(Redemptions(code)), s'.history, RedeemsOf(code));
  }

  /** A coupon is reported redeemed once when it is REDEEMED, never otherwise, and its log has as many REDEEMED rows. */
  lemma RedemptionsAddUp(s: State, s': State, code: string)
    requires Fresh(s) && Leads(s, s') && code in s'.db.coupons
    ensures var redeemed := if s'.db.coupons[code].status.Redeemed? then 1 else 0;
      && Sum(Credits(s'.sessions, Redemptions(code))) == redeemed
      && Count(s'.db.redemptions, RedemptionOf(code)) == redeemed
  {
    RedemptionsCounted(s, s', code);
    assert LogInv(s'.db.redemptions, s'.db.coupons) by {
      FreshIsOk(s);
      RunStaysLater(s, s');
    }
  }

  /**
   * Every notification a run accepted as a success carried its payment's amount, if any, and made the payment
   * PAID for good.
   */
  lemma AcceptedAmountsMatch(s: State, s': State, i: nat)
    requires Fresh(s) && Leads(s, s') && i < |s'.history| && s'.history[i].TConfirm?
    ensures var ev, payments := s'.history[i].ev, s'.db.payments;
      && ev.ref in payments
      && (ev.success && ev.amountCents.Some? ==> ev.amountCents.value == payments[ev.ref].amountCents)
      && (ev.success ==> payments[ev.ref].status.Paid? && payments[ev.ref].rawEventId == Some(ev.eventId))
  {
    RunIsSerial(s, s');
    InitEstablishes(s.db);
    AcceptedNotification(s.db, s'.history, i);
  }

  /** No payment takes a second notification, success or failure, after a success. */
  lemma NothingAfterSuccess(s: State, s': State, i: nat, j: nat)
    requires Fresh(s) && Leads(s, s') && i < j < |s'.history|
    requires s'.history[i].TConfirm? && s'.history[j].TConfirm? && s'.history[i].ev.success
    ensures s'.history[i].ev.ref != s'.history[j].ev.ref
  {
    RunIsSerial(s, s');
    InitEstablishes(s.db);
    SuccessIsLast(s.db, s'.history, i, j);
  }
}
