/** The login lockout of one user (backend/src/auth/auth.service.ts). Times are milliseconds. */
module Lockout {
  import opened Common

  const MAX_FAILED_LOGINS := 5
  const LOCKOUT_MS := 15 * 60 * 1000

  datatype Counter = Counter(failedLogins: int, lockoutUntil: Option<int>)

  /** A login: when it looks at the lockout, when it registers a failure, and whether the password is right. */
  datatype Attempt = Attempt(now: int, later: int, valid: bool)

  datatype Answer = LockedOut | Rejected | Welcome

  predicate Locked(c: Counter, now: int) { c.lockoutUntil.Some? && c.lockoutUntil.value > now }

  function AfterFailure(c: Counter, later: int): Counter {
    var next := c.failedLogins + 1;
    if next >= MAX_FAILED_LOGINS then Counter(0, Some(later + LOCKOUT_MS)) else c.(failedLogins := next)
  }

  function AnswerTo(c: Counter, a: Attempt): Answer {
    if Locked(c, a.now) then LockedOut else if a.valid then Welcome else Rejected
  }

  function After(c: Counter, a: Attempt): Counter {
    match AnswerTo(c, a)
    case LockedOut => c
    case Rejected => AfterFailure(c, a.later)
    case Welcome => Counter(0, None)
  }

  class User {
    var failedLogins: int
    var lockoutUntil: Option<int>

    function State(): Counter
      reads this
    {
      Counter(failedLogins, lockoutUntil)
    }

    constructor ()
      ensures State() == Counter(0, None)
    {
      failedLogins, lockoutUntil := 0, None;
    }

    method RegisterFailedAttempt(later: int)
      modifies this
      ensures State() == AfterFailure(old(State()), later)
    {
      var next := failedLogins + 1;
      if next >= MAX_FAILED_LOGINS {
        failedLogins, lockoutUntil := 0, Some(later + LOCKOUT_MS);
      } else {
        failedLogins := next;
      }
    }

    method Login(a: Attempt) returns (answer: Answer)
      modifies this
      ensures answer == AnswerTo(old(State()), a) && State() == After(old(State()), a)
      ensures answer.LockedOut? <==> old(lockoutUntil).Some? && old(lockoutUntil).value > a.now
      ensures answer.LockedOut? ==> State() == old(State())
      ensures answer.Welcome? <==> !answer.LockedOut? && a.valid
      ensures answer.Welcome? ==> failedLogins == 0 && lockoutUntil == None
      ensures 0 <= old(failedLogins) < MAX_FAILED_LOGINS ==> 0 <= failedLogins < MAX_FAILED_LOGINS
    {
      if lockoutUntil.Some? && lockoutUntil.value > a.now { return LockedOut; }
      if !a.valid {
        RegisterFailedAttempt(a.later);
        return Rejected;
      }
      failedLogins, lockoutUntil := 0, None;
      return Welcome;
    }
  }

  // ---- whole runs ----

  function Run(c: Counter, attempts: seq<Attempt>): Counter {
    if attempts == [] then c else After(Run(c, attempts[..|attempts| - 1]), attempts[|attempts| - 1])
  }

  /** How many passwords were compared and found wrong. */
  function Compared(c: Counter, attempts: seq<Attempt>): nat {
    if attempts == [] then 0 else
      Compared(c, attempts[..|attempts| - 1])
      + if AnswerTo(Run(c, attempts[..|attempts| - 1]), attempts[|attempts| - 1]).Rejected? then 1 else 0
  }

  /** What the clock shows after a run of logins that began at `start`. */
  function Clock(start: int, attempts: seq<Attempt>): int {
    if attempts == [] then start else attempts[|attempts| - 1].later
  }

  /** When the last login of a run looked at the lockout. */
  function LastLook(start: int, attempts: seq<Attempt>): int {
    if attempts == [] then start else attempts[|attempts| - 1].now
  }

  /** One login after the other on a clock that never goes back, none of them right. */
  predicate Guessing(start: int, attempts: seq<Attempt>) {
    attempts == [] ||
    (var front, last := attempts[..|attempts| - 1], attempts[|attempts| - 1];
     Guessing(start, front) && !last.valid && Clock(start, front) <= last.now <= last.later)
  }

  predicate Sane(c: Counter) { 0 <= c.failedLogins < MAX_FAILED_LOGINS }

  /**
   * After `n` wrong passwords and `k` lockouts: each lockout swallowed five failures, the last one ends at
   * least `k` lockout times after `start`, and a failure counted since came when it was over.
   */
  predicate Paced(start: int, failed: int, c: Counter, look: int, clock: int, n: int, k: nat) {
    && Sane(c) && start <= look <= clock
    && n + failed == MAX_FAILED_LOGINS * k + c.failedLogins
    && (k > 0 ==> c.lockoutUntil.Some? && c.lockoutUntil.value - start >= LOCKOUT_MS * k)
    && (k > 0 ==> look - start >= LOCKOUT_MS * (k - 1))
    && (k > 0 && c.failedLogins > 0 ==> look - start >= LOCKOUT_MS * k)
  }

  lemma PacedStep(start: int, failed: int, c: Counter, look: int, clock: int, n: int, k: nat,
                  a: Attempt) returns (k': nat)
    requires Paced(start, failed, c, look, clock, n, k) && !a.valid && clock <= a.now <= a.later
    ensures Paced(start, failed, After(c, a), a.now, a.later, n + (if AnswerTo(c, a).Rejected? then 1 else 0), k')
  {
    k' := if !Locked(c, a.now) && c.failedLogins + 1 >= MAX_FAILED_LOGINS then k + 1 else k;
    assert LOCKOUT_MS * (k + 1) == LOCKOUT_MS * k + LOCKOUT_MS;
    if k' > k { assert k > 0 ==> a.now - start >= LOCKOUT_MS * k; }
  }

  lemma {:induction false} RunIsPaced(start: int, c: Counter, attempts: seq<Attempt>) returns (k: nat)
    requires Sane(c) && Guessing(start, attempts)
    ensures Paced(start, c.failedLogins, Run(c, attempts), LastLook(start, attempts), Clock(start, attempts),
      Compared(c, attempts), k)
  {
    if attempts == [] {
      k := 0;
    } else {
      var front, last := attempts[..|attempts| - 1], attempts[|attempts| - 1];
      k := RunIsPaced(start, c, front);
      k := PacedStep(start, c.failedLogins, Run(c, front), LastLook(start, front), Clock(start, front),
        Compared(c, front), k, last);
    }
  }

  lemma AtLeast(t: int, k: int)
    requires t >= LOCKOUT_MS * k
    ensures t / LOCKOUT_MS >= k
  {}

  /** However the guesses are timed, `n` wrong passwords take at least the time of the lockouts they cause. */
  lemma GuessesAreBounded(start: int, c: Counter, attempts: seq<Attempt>)
    requires Sane(c) && Guessing(start, attempts)
    ensures var n, span := Compared(c, attempts), LastLook(start, attempts) - start;
      n + c.failedLogins <= MAX_FAILED_LOGINS * (span / LOCKOUT_MS + 1)
    ensures Sane(Run(c, attempts))
  {
    var k := RunIsPaced(start, c, attempts);
    var span := LastLook(start, attempts) - start;
    AtLeast(span, 0);
    if k > 0 { AtLeast(span, if Run(c, attempts).failedLogins > 0 then k else k - 1); }
  }

  // ---- when an account locks ----

  predicate AllWrong(attempts: seq<Attempt>) { forall i | 0 <= i < |attempts| :: !attempts[i].valid }

  /** None of the attempts found the account locked. */
  ghost predicate NeverLockedOut(c: Counter, attempts: seq<Attempt>) {
    attempts == [] ||
    (NeverLockedOut(c, attempts[..|attempts| - 1])
     && !Locked(Run(c, attempts[..|attempts| - 1]), attempts[|attempts| - 1].now))
  }

  lemma {:induction false} FailuresCount(c: Counter, attempts: seq<Attempt>)
    requires Sane(c) && AllWrong(attempts) && NeverLockedOut(c, attempts)
    requires c.failedLogins + |attempts| < MAX_FAILED_LOGINS
    ensures Run(c, attempts) == c.(failedLogins := c.failedLogins + |attempts|)
  {
    if attempts != [] { FailuresCount(c, attempts[..|attempts| - 1]); }
  }

  /**
   * The failure that makes five locks the account for LOCKOUT_MS from then, none before does, and time alone
   * reopens it.
   */
  lemma FifthFailureLocks(c: Counter, attempts: seq<Attempt>)
    requires Sane(c) && AllWrong(attempts) && NeverLockedOut(c, attempts)
    requires 0 < |attempts| <= MAX_FAILED_LOGINS - c.failedLogins
    ensures if c.failedLogins + |attempts| < MAX_FAILED_LOGINS then
        Run(c, attempts).lockoutUntil == c.lockoutUntil
      else
        forall a: Attempt :: AnswerTo(Run(c, attempts), a).LockedOut? <==>
          a.now < attempts[|attempts| - 1].later + LOCKOUT_MS
    ensures Compared(c, attempts) == |attempts|
  {
    FailuresCount(c, attempts[..|attempts| - 1]);
    AllCompared(c, attempts);
  }

  lemma {:induction false} AllCompared(c: Counter, attempts: seq<Attempt>)
    requires AllWrong(attempts) && NeverLockedOut(c, attempts)
    ensures Compared(c, attempts) == |attempts|
  {
    if attempts != [] { AllCompared(c, attempts[..|attempts| - 1]); }
  }

  // ---- a right password ----

  lemma {:induction false} RunConcat(c: Counter, first: seq<Attempt>, second: seq<Attempt>)
    ensures Run(c, first + second) == Run(Run(c, first), second)
  {
    if second == [] {
      assert first + second == first;
    } else {
      assert (first + second)[..|first + second| - 1] == first + second[..|second| - 1];
      RunConcat(c, first, second[..|second| - 1]);
    }
  }

  /** From a clean counter on, wrong passwords lock the account with the fifth and not before. */
  lemma {:induction false} FiveLock(wrong: seq<Attempt>)
    requires AllWrong(wrong) && |wrong| <= 5
    ensures Run(Counter(0, None), wrong) ==
      if |wrong| < 5 then Counter(|wrong|, None) else Counter(0, Some(wrong[4].later + 15 * 60 * 1000))
  {
    if wrong != [] { FiveLock(wrong[..|wrong| - 1]); }
  }

  /**
   * A right password is welcomed unless the account is locked, and all wrong ones before it are forgotten: it
   * takes five new ones to lock the account.
   */
  lemma RightPasswordForgives(c: Counter, attempts: seq<Attempt>, a: Attempt, wrong: seq<Attempt>)
    requires a.valid && AllWrong(wrong) && |wrong| <= 5
    ensures var before := Run(c, attempts);
      if before.lockoutUntil.Some? && before.lockoutUntil.value > a.now then
        AnswerTo(before, a) == LockedOut && Run(c, attempts + [a]) == before
      else
        && AnswerTo(before, a) == Welcome
        && Run(c, attempts + [a] + wrong) ==
            if |wrong| < 5 then Counter(|wrong|, None) else Counter(0, Some(wrong[4].later + 15 * 60 * 1000))
  {
    RunConcat(c, attempts, [a]);
    assert Run(Run(c, attempts), [a]) == After(Run(c, attempts), a);
    RunConcat(c, attempts + [a], wrong);
    FiveLock(wrong);
  }

  // ---- the bound is reached ----

  function Burst(at: int): seq<Attempt> { seq(5, _ => Attempt(at, at, false)) }

  lemma RunMore(start: int, c: Counter, attempts: seq<Attempt>, at: int)
    requires Guessing(start, attempts) && Clock(start, attempts) <= at
    ensures var a := Attempt(at, at, false);
      && Run(c, attempts + [a]) == After(Run(c, attempts), a)
      && Compared(c, attempts + [a])
          == Compared(c, attempts) + (if AnswerTo(Run(c, attempts), a).Rejected? then 1 else 0)
      && Guessing(start, attempts + [a]) && Clock(start, attempts + [a]) == LastLook(start, attempts + [a]) == at
  {
    assert (attempts + [Attempt(at, at, false)])[..|attempts|] == attempts;
  }

  lemma BurstLocks(start: int, c: Counter, attempts: seq<Attempt>, at: int)
    requires var mid := Run(c, attempts); mid.failedLogins == 0 && !Locked(mid, at)
    requires Guessing(start, attempts) && Clock(start, attempts) <= at
    ensures Run(c, attempts + Burst(at)) == Counter(0, Some(at + LOCKOUT_MS))
    ensures Compared(c, attempts + Burst(at)) == Compared(c, attempts) + 5
    ensures Guessing(start, attempts + Burst(at))
    ensures Clock(start, attempts + Burst(at)) == LastLook(start, attempts + Burst(at)) == at
  {
    var a := Attempt(at, at, false);
    RunMore(start, c, attempts, at);
    RunMore(start, c, attempts + [a], at);
    RunMore(start, c, attempts + [a] + [a], at);
    RunMore(start, c, attempts + [a] + [a] + [a], at);
    RunMore(start, c, attempts + [a] + [a] + [a] + [a], at);
    assert attempts + Burst(at) == attempts + [a] + [a] + [a] + [a] + [a];
  }

  /** For every number of lockouts there are guesses that use up the bound exactly. */
  lemma {:induction false} BoundIsTight(k: nat) returns (attempts: seq<Attempt>)
    ensures Guessing(0, attempts) && LastLook(0, attempts) == Clock(0, attempts) == LOCKOUT_MS * k
    ensures Compared(Counter(0, None), attempts) == MAX_FAILED_LOGINS * (k + 1)
    ensures Run(Counter(0, None), attempts) == Counter(0, Some(LOCKOUT_MS * k + LOCKOUT_MS))
  {
    var before := [];
    if k > 0 { before := BoundIsTight(k - 1); }
    BurstLocks(0, Counter(0, None), before, LOCKOUT_MS * k);
    attempts := before + Burst(LOCKOUT_MS * k);
  }
}
