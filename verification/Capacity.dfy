/** Limits on discount codes and due dates of expiries, over whole runs. */
module Capacity {
  import opened Common
  import opened Schema
  import opened Services
  import opened Invariants
  import opened Footprints
  import opened Rely
  import opened Machine
  import opened SessionState
  import opened Concurrency
  import opened Ledger
  import opened RunLedger

  /** `limit` is within `peak`, where None is no limit. */
  predicate Within(limit: Option<int>, peak: Option<int>) {
    peak.Some? ==> limit.Some? && limit.value <= peak.value
  }

  function Higher(peak: Option<int>, limit: Option<int>): Option<int> {
    if peak.Some? && limit.Some? && limit.value > peak.value then limit else peak
  }

  function LimitOf(db: Db, code: string): Option<int> {
    if code in db.promotions then db.promotions[code].maxRedemptions else Some(0)
  }

  /** The largest limit the code has had along a history. */
  ghost function Peak(db: Db, history: seq<Txn>, code: string): Option<int> {
    if history == [] then LimitOf(db, code) else
      var x := history[|history| - 1];
      Higher(Peak(db, history[..|history| - 1], code), if x.TPromotion? && x.code == code then x.limit else None)
  }

  lemma PeakGrows(db: Db, history: seq<Txn>, x: Txn, code: string)
    ensures forall l :: Within(l, Peak(db, history, code)) ==> Within(l, Peak(db, history + [x], code))
    ensures x.TPromotion? && x.code == code ==>
      Within(Higher(Peak(db, history, code), x.limit), Peak(db, history + [x], code))
  {
    assert (history + [x])[..|history|] == history;
  }

  // ---- what sessions remember of a limit ----

  /** The limit a code session goes by, if it has read one. */
  predicate Remembers(req: Request, pc: Pc, code: string, peak: Option<int>) {
    req.Apply? && req.code == code ==>
      match pc
      case ReadOrder(p) => Within(p.maxRedemptions, peak)
      case TakeCapacity(limit, _, _) => Within(limit, peak)
      case ClaimOrder(limit, _, _) => Within(limit, peak)
      case Committing(x, _) => x.TApply? ==> Within(x.limit, peak)
      case _ => true
  }

  lemma ApplyRemembers(req: Request, pc: Pc, w: Db, db: Db, code: string, peak: Option<int>)
    requires req.Apply? && !pc.Committing? && (pc.Start? ==> w.promotions == map[]) && code in db.promotions
    requires Remembers(req, pc, code, peak) && Within(db.promotions[code].maxRedemptions, peak)
    ensures var m := ApplyMove(req, pc, w, db); m.Go? || m.End? ==> Remembers(req, m.pc, code, peak)
    ensures !ApplyMove(req, pc, w, db).Commit?
  {
    assert db.promotions + map[] == db.promotions;
  }

  lemma StatementRemembers(t: int, ses: Session, db: Db, locks: LockTable, rows: seq<int>, code: string,
                           peak: Option<int>)
    requires SessionOk(t, ses, db, locks) && !NextMove(ses, db, rows).Wait? && code in db.promotions
    requires Remembers(ses.req, ses.pc, code, peak) && Within(db.promotions[code].maxRedemptions, peak)
    ensures Remembers(ses.req, NextMove(ses, db, rows).pc, code, peak)
  {
    if ses.req.Apply? && !ses.pc.Committing? { ApplyRemembers(ses.req, ses.pc, ses.w, db, code, peak); }
  }

  /** A claim is committed by a code session, with the limit it read. */
  lemma ClaimCommitter(t: int, ses: Session, db: Db, locks: LockTable, rows: seq<int>)
    requires SessionOk(t, ses, db, locks) && NextMove(ses, db, rows).Commit? && NextMove(ses, db, rows).txn.TApply?
    ensures ses.req.Apply? && ses.pc.Committing? && ses.pc.txn == NextMove(ses, db, rows).txn
    ensures ses.pc.txn.code == ses.req.code
  {
    if !ses.pc.Committing? && !ses.req.Sweep? && !ses.req.Redeem? { OthersDirect(ses, db, rows); }
  }

  // ---- one transaction ----

  lemma EffectKeepsLimit(db: Db, x: Txn, code: string)
    requires Inv(db) && Enabled(db, x) && code in db.promotions
    ensures code in Effect(db, x).promotions
    ensures !x.TPromotion? || x.code != code ==> LimitOf(Effect(db, x), code) == LimitOf(db, code)
    ensures x.TPromotion? && x.code == code ==>
      LimitOf(Effect(db, x), code) == if x.limit.Some? then x.limit else LimitOf(db, code)
  {
    if x.TConfirm? { NotificationKeepsCodes(db, x.ev, code); } else { OthersKeepLimit(db, x, code); }
  }

  lemma OthersKeepLimit(db: Db, x: Txn, code: string)
    requires Enabled(db, x) && code in db.promotions && !x.TConfirm?
    ensures code in Effect(db, x).promotions
    ensures !x.TPromotion? || x.code != code ==> LimitOf(Effect(db, x), code) == LimitOf(db, code)
    ensures x.TPromotion? && x.code == code ==>
      LimitOf(Effect(db, x), code) == if x.limit.Some? then x.limit else LimitOf(db, code)
  {}

  ghost predicate UseOk(db: Db, code: string, peak: Option<int>) {
    && code in db.promotions
    && Within(LimitOf(db, code), peak)
    && (UsedBy(db, code) > 0 ==> Within(Some(UsedBy(db, code)), peak))
  }

  lemma EffectKeepsUse(db: Db, x: Txn, code: string, start: Db, history: seq<Txn>)
    requires Inv(db) && Enabled(db, x) && UseOk(db, code, Peak(start, history, code))
    requires ClaimsCode(x, code) ==> Within(x.limit, Peak(start, history, code))
    ensures UseOk(Effect(db, x), code, Peak(start, history + [x], code))
  {
    PeakGrows(start, history, x, code);
    ClaimStep(db, x, code);
    EffectKeepsLimit(db, x, code);
  }

  // ---- the invariant of a run ----

  predicate SessionRemembers(ses: Session, code: string, peak: Option<int>) {
    Remembers(ses.req, ses.pc, code, peak)
  }

  ghost predicate LimitsOk(start: Db, s: State, code: string) {
    && UseOk(s.db, code, Peak(start, s.history, code))
    && (forall t :: t in s.sessions ==> SessionRemembers(s.sessions[t], code, Peak(start, s.history, code)))
  }

  lemma AllRemember(start: Db, s: State, x: Txn, code: string)
    requires LimitsOk(start, s, code)
    ensures forall t :: t in s.sessions ==> SessionRemembers(s.sessions[t], code, Peak(start, s.history + [x], code))
  {
    PeakGrows(start, s.history, x, code);
  }

  lemma StepKeepsLimits(start: Db, s: State, t: int, rows: seq<int>, code: string)
    requires MachineOk(s) && LimitsOk(start, s, code) && t in s.sessions
    ensures LimitsOk(start, AfterMove(s, t, NextMove(s.sessions[t], s.db, rows)), code)
  {
    var m, peak := NextMove(s.sessions[t], s.db, rows), Peak(start, s.history, code);
    var s' := AfterMove(s, t, m);
    StepOk(s, t, rows);
    StepShape(s, t, m);
    if s' != s {
      NextRemembers(s, t, rows, code, peak);
      SteppedKeepsLimits(start, s, t, m, s', code);
    }
  }

  lemma NextRemembers(s: State, t: int, rows: seq<int>, code: string, peak: Option<int>)
    requires MachineOk(s) && t in s.sessions && !NextMove(s.sessions[t], s.db, rows).Wait? && code in s.db.promotions
    requires SessionRemembers(s.sessions[t], code, peak) && Within(s.db.promotions[code].maxRedemptions, peak)
    ensures var m := NextMove(s.sessions[t], s.db, rows);
      && Remembers(s.sessions[t].req, m.pc, code, peak)
      && (m.Commit? && ClaimsCode(m.txn, code) ==> Within(m.txn.limit, peak))
  {
    SessionIsOk(s, t);
    StatementWithin(t, s.sessions[t], s.db, s.locks, rows, code, peak);
  }

  lemma StatementWithin(t: int, ses: Session, db: Db, locks: LockTable, rows: seq<int>, code: string, peak: Option<int>)
    requires SessionOk(t, ses, db, locks) && !NextMove(ses, db, rows).Wait? && code in db.promotions
    requires Remembers(ses.req, ses.pc, code, peak) && Within(db.promotions[code].maxRedemptions, peak)
    ensures var m := NextMove(ses, db, rows);
      Remembers(ses.req, m.pc, code, peak) && (m.Commit? && ClaimsCode(m.txn, code) ==> Within(m.txn.limit, peak))
  {
    StatementRemembers(t, ses, db, locks, rows, code, peak);
    if NextMove(ses, db, rows).Commit? { ClaimWithin(t, ses, db, locks, rows, code, peak); }
  }

  lemma ClaimWithin(t: int, ses: Session, db: Db, locks: LockTable, rows: seq<int>, code: string, peak: Option<int>)
    requires SessionOk(t, ses, db, locks) && NextMove(ses, db, rows).Commit? && Remembers(ses.req, ses.pc, code, peak)
    ensures var x := NextMove(ses, db, rows).txn; ClaimsCode(x, code) ==> Within(x.limit, peak)
  {
    if NextMove(ses, db, rows).txn.TApply? { ClaimCommitter(t, ses, db, locks, rows); }
  }

  lemma SteppedKeepsLimits(start: Db, s: State, t: int, m: Move, s': State, code: string)
    requires Inv(s.db) && LimitsOk(start, s, code) && t in s.sessions && Stepped(s, t, m, s') && s' != s
    requires CommitsAtMost(s, s')
    requires Remembers(s.sessions[t].req, m.pc, code, Peak(start, s.history, code))
    requires m.Commit? && ClaimsCode(m.txn, code) ==> Within(m.txn.limit, Peak(start, s.history, code))
    ensures LimitsOk(start, s', code)
  {
    if m.Commit? {
      var x :| CommitsTxn(s, x, s');
      assert x == s'.history[|s.history|] == m.txn;
      EffectKeepsUse(s.db, x, code, start, s.history);
      AllRemember(start, s, x, code);
      PeakGrows(start, s.history, x, code);
    } else {
      assert s.history + [] == s.history;
    }
  }

  lemma Run1KeepsLimits(start: Db, s: State, a: Label, code: string)
    requires MachineOk(s) && LimitsOk(start, s, code)
    ensures LimitsOk(start, Run1(s, a), code)
  {
    match a
    case Begin(_, _) =>
    case Step(t, rows) => if t in s.sessions { StepKeepsLimits(start, s, t, rows, code); }
    case Abort(_) =>
    case Admin(x) => if CanEdit(s, x) { EditKeepsLimits(start, s, x, code); }
  }

  lemma EditKeepsLimits(start: Db, s: State, x: Txn, code: string)
    requires Inv(s.db) && LimitsOk(start, s, code) && CanEdit(s, x)
    ensures LimitsOk(start, s.(db := Effect(s.db, x), history := s.history + [x]), code)
  {
    EffectKeepsUse(s.db, x, code, start, s.history);
    AllRemember(start, s, x, code);
  }

  lemma {:induction false} RunKeepsLimits(s: State, labels: seq<Label>, code: string)
    requires Fresh(s) && code in s.db.promotions
    ensures LimitsOk(s.db, Run(s, labels), code)
  {
    if labels != [] {
      var front := labels[..|labels| - 1];
      RunKeepsLimits(s, front, code);
      FreshIsOk(s);
      RunOk(s, front);
      Run1KeepsLimits(s.db, Run(s, front), labels[|labels| - 1], code);
    }
  }

  /**
   * Under every interleaving, stale limits included, a code is never used more often than the largest limit it
   * has had.
   */
  lemma UseWithinPeak(s: State, s': State, code: string)
    requires Fresh(s) && Leads(s, s') && code in s.db.promotions
    ensures LimitsOk(s.db, s', code)
  {
    var labels :| s' == Run(s, labels);
    RunKeepsLimits(s, labels, code);
  }

  lemma {:induction false} PeakIsNonNegative(db: Db, history: seq<Txn>, code: string)
    requires LimitOf(db, code).Some? ==> LimitOf(db, code).value >= 0
    ensures Peak(db, history, code).Some? ==> Peak(db, history, code).value >= 0
  {
    if history != [] { PeakIsNonNegative(db, history[..|history| - 1], code); }
  }

  // ---- the limit of the moment ----

  /** The code is not used more often than its limit allows now. */
  predicate UseWithinLimit(db: Db, code: string) {
    LimitOf(db, code).Some? ==> UsedBy(db, code) <= LimitOf(db, code).value
  }

  /**
   * The transaction would use the code beyond its limit: an edit below the use, or a claim at a limit already
   * used up.
   */
  predicate Oversteps(db: Db, x: Txn, code: string) {
    || (x.TPromotion? && x.code == code && x.limit.Some? && x.limit.value < UsedBy(db, code))
    || (ClaimsCode(x, code) && LimitOf(db, code).Some? && UsedBy(db, code) >= LimitOf(db, code).value)
  }

  /** Exactly these transactions break the limit: an edit below the use, and a claim that goes by a stale limit. */
  lemma LimitKeptIff(db: Db, x: Txn, code: string)
    requires Inv(db) && Enabled(db, x) && code in db.promotions && UseWithinLimit(db, code)
    ensures UseWithinLimit(Effect(db, x), code) <==> !Oversteps(db, x, code)
  {
    EffectKeepsLimit(db, x, code);
    ClaimStep(db, x, code);
  }

  /** The limit holds after every transaction of a history. */
  ghost predicate WithinThroughout(db: Db, history: seq<Txn>, code: string) {
    if history == [] then UseWithinLimit(db, code)
    else
      WithinThroughout(db, history[..|history| - 1], code) && UseWithinLimit(Replay(db, history), code)
  }

  ghost predicate NeverOversteps(db: Db, history: seq<Txn>, code: string) {
    if history == [] then true
    else
      && NeverOversteps(db, history[..|history| - 1], code)
      && !Oversteps(Replay(db, history[..|history| - 1]), history[|history| - 1], code)
  }

  lemma LimitStep(db: Db, history: seq<Txn>, code: string)
    requires history != [] && Inv(Replay(db, history[..|history| - 1]))
    requires var front, x := Replay(db, history[..|history| - 1]), history[|history| - 1];
      Enabled(front, x) && code in front.promotions
    ensures code in Replay(db, history).promotions
    ensures var front, x := Replay(db, history[..|history| - 1]), history[|history| - 1];
      UseWithinLimit(front, code) ==> (UseWithinLimit(Replay(db, history), code) <==> !Oversteps(front, x, code))
  {
    var front, x := Replay(db, history[..|history| - 1]), history[|history| - 1];
    EffectKeepsLimit(front, x, code);
    if UseWithinLimit(front, code) { LimitKeptIff(front, x, code); }
  }

  /** Over a whole history the limit holds at every moment exactly when no transaction oversteps it. */
  lemma {:induction false} LimitHoldsThroughout(db: Db, history: seq<Txn>, code: string)
    requires Init(db) && AllEnabled(db, history) && code in db.promotions && UseWithinLimit(db, code)
    ensures WithinThroughout(db, history, code) <==> NeverOversteps(db, history, code)
    ensures code in Replay(db, history).promotions
  {
    if history != [] {
      var front := history[..|history| - 1];
      PrefixEnabled(db, history);
      LimitHoldsThroughout(db, front, code);
      InitEstablishes(db);
      ReplayKeepsInv(db, front);
      LimitStep(db, history, code);
      if WithinThroughout(db, front, code) { LimitStaysWithin(db, front, code); }
    }
  }

  lemma LimitStaysWithin(db: Db, history: seq<Txn>, code: string)
    requires WithinThroughout(db, history, code)
    ensures UseWithinLimit(Replay(db, history), code)
  {}

  /** No edit of the history lowers the limit of the code; putting a limit on an unlimited code lowers it. */
  ghost predicate NeverLowered(db: Db, history: seq<Txn>, code: string) {
    forall i :: 0 <= i < |history| ==> Raises(Replay(db, history[..i]), history[i], code)
  }

  predicate Raises(db: Db, x: Txn, code: string) {
    x.TPromotion? && x.code == code && x.limit.Some? ==>
      LimitOf(db, code).Some? && LimitOf(db, code).value <= x.limit.value
  }

  lemma PrefixNeverLowered(db: Db, history: seq<Txn>, code: string)
    requires NeverLowered(db, history, code) && history != []
    ensures var front := history[..|history| - 1];
      NeverLowered(db, front, code) && Raises(Replay(db, front), history[|history| - 1], code)
  {
    var front := history[..|history| - 1];
    forall i | 0 <= i < |front| ensures Raises(Replay(db, front[..i]), front[i], code) {
      assert front[..i] == history[..i];
    }
    assert Raises(Replay(db, history[..|front|]), history[|front|], code);
  }

  lemma RaisingStep(db: Db, x: Txn, code: string)
    requires Inv(db) && Enabled(db, x) && Raises(db, x, code) && code in db.promotions
    ensures code in Effect(db, x).promotions
    ensures LimitOf(Effect(db, x), code)
      == Higher(LimitOf(db, code), if x.TPromotion? && x.code == code then x.limit else None)
  {
    EffectKeepsLimit(db, x, code);
  }

  lemma {:induction false} PeakIsLimit(db: Db, history: seq<Txn>, code: string)
    requires Init(db) && AllEnabled(db, history) && NeverLowered(db, history, code) && code in db.promotions
    ensures code in Replay(db, history).promotions && Peak(db, history, code) == LimitOf(Replay(db, history), code)
  {
    if history != [] {
      var front := history[..|history| - 1];
      PrefixNeverLowered(db, history, code);
      PrefixEnabled(db, history);
      PeakIsLimit(db, front, code);
      InitEstablishes(db);
      ReplayKeepsInv(db, front);
      RaisingStep(Replay(db, front), history[|history| - 1], code);
    }
  }

  /** If no edit lowers it, the limit itself always holds: `usedRedemptions <= maxRedemptions`. */
  lemma CapacityHolds(s: State, s': State, code: string)
    requires Fresh(s) && Leads(s, s') && code in s.db.promotions && NeverLowered(s.db, s'.history, code)
    requires s.db.promotions[code].maxRedemptions.Some? ==> s.db.promotions[code].maxRedemptions.value >= 0
    ensures code in s'.db.promotions && UseWithinLimit(s'.db, code)
  {
    UseWithinPeak(s, s', code);
    RunIsSerial(s, s');
    PeakIsLimit(s.db, s'.history, code);
    PeakIsNonNegative(s.db, s'.history, code);
  }

  /** If every computed discount is positive, a code is used exactly as often as there are orders carrying it. */
  lemma UseIsCarriers(s: State, s': State, code: string)
    requires Fresh(s) && Leads(s, s') && PositiveDiscounts(s'.history)
    ensures UsedBy(s'.db, code) == |Carriers(s'.db.orders, code)|
  {
    RunIsSerial(s, s');
    CodeUseIsExact(s.db, s'.history, code);
    NothingDisplaced(s.db, s'.history, code);
  }
}
