/** Many clients on one queue: dequeue is a ZRANGE and, later, a ZREM; anything may happen in between. */
module QueueRaces {
  import opened Common
  import opened Sums
  import opened Queue

  /** A client between the two commands of a dequeue knows the entry it saw. */
  datatype Client = Idle | Looked(member: string, joinedAt: int)

  /** What happened to a member. */
  datatype Happening =
    | Entered(member: string)   // joined while not in the queue
    | Moved(member: string)     // joined again
    | Served(member: string)    // returned by a dequeue
    | Left(member: string)
    | Flushed

  datatype State = State(q: SortedSet, clients: map<int, Client>, log: seq<Happening>)

  datatype Label =
    | Join(member: string, now: int)
    | Look(client: int)
    | Take(client: int)
    | Leave(member: string)
    | Flush

  function ClientOf(s: State, c: int): Client { if c in s.clients then s.clients[c] else Idle }

  ghost function Run1(s: State, a: Label): State {
    match a
    case Join(m, now) =>
      s.(q := s.q[m := now], log := s.log + [if m in s.q then Moved(m) else Entered(m)])
    case Look(c) =>
      if ClientOf(s, c).Looked? || s.q == map[] then s
      else
        var h := Head(s.q);
        s.(clients := s.clients[c := Looked(h, s.q[h])])
    case Take(c) =>
      (match ClientOf(s, c)
       case Idle => s
       case Looked(m, _) =>
         var idle := s.(clients := s.clients[c := Idle]);
         if m in s.q then idle.(q := s.q - {m}, log := s.log + [Served(m)]) else idle)
    case Leave(m) => if m in s.q then s.(q := s.q - {m}, log := s.log + [Left(m)]) else s
    case Flush => s.(q := map[], log := s.log + [Flushed])
  }

  ghost function Run(s: State, labels: seq<Label>): State {
    if labels == [] then s else Run1(Run(s, labels[..|labels| - 1]), labels[|labels| - 1])
  }

  const Empty := State(map[], map[], [])

  /** Whether the member is waiting, told from the log alone. */
  function Waiting(log: seq<Happening>, m: string): bool {
    if log == [] then false else
      match log[|log| - 1]
      case Entered(x) => x == m || Waiting(log[..|log| - 1], m)
      case Served(x) => x != m && Waiting(log[..|log| - 1], m)
      case Left(x) => x != m && Waiting(log[..|log| - 1], m)
      case Flushed => false
      case Moved(_) => Waiting(log[..|log| - 1], m)
  }

  /** Members enter only when away, and leave only when waiting. */
  ghost predicate Sound(log: seq<Happening>) {
    forall i :: 0 <= i < |log| ==> Sensible(log[..i], log[i])
  }

  predicate Sensible(before: seq<Happening>, e: Happening) {
    match e
    case Entered(m) => !Waiting(before, m)
    case Flushed => true
    case _ => Waiting(before, e.member)
  }

  lemma SoundExtends(log: seq<Happening>, e: Happening)
    requires Sound(log) && Sensible(log, e)
    ensures Sound(log + [e])
    ensures forall m :: Waiting(log + [e], m) <==>
      (match e case Entered(x) => x == m || Waiting(log, m) case Moved(_) => Waiting(log, m) case Flushed => false
               case _ => e.member != m && Waiting(log, m))
  {
    assert (log + [e])[..|log|] == log;
    forall i | 0 <= i < |log + [e]| ensures Sensible((log + [e])[..i], (log + [e])[i]) {
      assert (log + [e])[..i] == log[..i];
      assert i == |log| ==> log[..i] == log;
    }
  }

  ghost predicate LogOk(s: State) {
    Sound(s.log) && forall m :: Waiting(s.log, m) <==> m in s.q
  }

  lemma LogKept(s: State, e: Happening, s': State)
    requires LogOk(s) && Sensible(s.log, e) && s'.log == s.log + [e]
    requires forall m :: m in s'.q <==> match e
      case Entered(x) => x == m || m in s.q
      case Moved(_) => m in s.q
      case Flushed => false
      case _ => e.member != m && m in s.q
    ensures LogOk(s')
  {
    SoundExtends(s.log, e);
  }

  lemma Run1KeepsLog(s: State, a: Label)
    requires LogOk(s)
    ensures LogOk(Run1(s, a))
  {
    var s' := Run1(s, a);
    if s'.log != s.log { LogKept(s, s'.log[|s.log|], s'); }
  }

  /** The log tells who is waiting, in every interleaving. */
  lemma {:induction false} RunKeepsLog(labels: seq<Label>)
    ensures LogOk(Run(Empty, labels))
  {
    if labels != [] {
      RunKeepsLog(labels[..|labels| - 1]);
      Run1KeepsLog(Run(Empty, labels[..|labels| - 1]), labels[|labels| - 1]);
    }
  }

  lemma {:induction false} WaitingEntered(log: seq<Happening>, m: string, i: nat)
    requires i <= |log| && !Waiting(log[..i], m) && Waiting(log, m)
    ensures exists k :: i <= k < |log| && log[k] == Entered(m)
  {
    assert log[..|log|] == log;
    if i < |log| && log[|log| - 1] != Entered(m) {
      var front := log[..|log| - 1];
      assert front[..i] == log[..i];
      WaitingEntered(front, m, i);
    }
  }

  /** One join is never served twice, however dequeues interleave: between two services of a member it joined again. */
  lemma ServedOncePerJoin(labels: seq<Label>, m: string, i: nat, j: nat)
    requires var log := Run(Empty, labels).log; i < j < |log| && log[i] == Served(m) == log[j]
    ensures var log := Run(Empty, labels).log; exists k :: i < k < j && log[k] == Entered(m)
  {
    var log := Run(Empty, labels).log;
    RunKeepsLog(labels);
    var upTo := log[..j];
    assert Sensible(upTo, log[j]);
    assert upTo[..i + 1][..i] == log[..i] && upTo[..i + 1][i] == Served(m);
    WaitingEntered(upTo, m, i + 1);
  }

  // ---- nobody is lost ----

  function Enters(m: string): Happening -> bool { (e: Happening) => e == Entered(m) }

  function Goes(m: string): Happening -> bool { (e: Happening) => e == Served(m) || e == Left(m) }

  predicate NeverFlushed(log: seq<Happening>) { forall i | 0 <= i < |log| :: !log[i].Flushed? }

  /** Without flushes, each entry into the queue ends in one service or one departure, or still waits. */
  lemma {:induction false} EntriesAreAccounted(log: seq<Happening>, m: string)
    requires Sound(log) && NeverFlushed(log)
    ensures Count(log, Enters(m)) == Count(log, Goes(m)) + (if Waiting(log, m) then 1 else 0)
  {
    if log != [] {
      var front := log[..|log| - 1];
      assert Sound(front) by {
        forall i | 0 <= i < |front| ensures Sensible(front[..i], front[i]) { assert front[..i] == log[..i]; }
      }
      assert Sensible(log[..|front|], log[|front|]);
      EntriesAreAccounted(front, m);
    }
  }

  /** In every run: joins that entered = services + departures + (still waiting). */
  lemma {:induction false} NobodyIsLost(labels: seq<Label>, m: string)
    requires NeverFlushed(Run(Empty, labels).log)
    ensures var s := Run(Empty, labels);
      Count(s.log, Enters(m)) == Count(s.log, Goes(m)) + (if m in s.q then 1 else 0)
  {
    RunKeepsLog(labels);
    EntriesAreAccounted(Run(Empty, labels).log, m);
  }

  // ---- what a dequeue reports, and whom it serves ----

  /** The time of the member's last join among the labels. */
  function LastJoin(labels: seq<Label>, m: string): Option<int> {
    if labels == [] then None else
      match labels[|labels| - 1]
      case Join(x, now) => if x == m then Some(now) else LastJoin(labels[..|labels| - 1], m)
      case _ => LastJoin(labels[..|labels| - 1], m)
  }

  /** Whoever is in the queue has the time of its last join, or still its old one. */
  lemma {:induction false} ScoreIsLastJoin(s: State, labels: seq<Label>, m: string)
    requires m in Run(s, labels).q
    ensures match LastJoin(labels, m)
      case Some(now) => Run(s, labels).q[m] == now
      case None => m in s.q && Run(s, labels).q[m] == s.q[m]
  {
    if labels != [] {
      var front := labels[..|labels| - 1];
      if m in Run(s, front).q { ScoreIsLastJoin(s, front, m); }
    }
  }

  predicate NoTake(labels: seq<Label>, c: int) { forall i | 0 <= i < |labels| :: labels[i] != Take(c) }

  lemma {:induction false} LookStays(s: State, labels: seq<Label>, c: int)
    requires ClientOf(s, c).Looked? && NoTake(labels, c)
    ensures ClientOf(Run(s, labels), c) == ClientOf(s, c)
  {
    if labels != [] {
      var front := labels[..|labels| - 1];
      LookStays(s, front, c);
      assert labels[|labels| - 1] != Take(c);
    }
  }

  /** `c` has just seen the head of the queue. */
  ghost predicate JustLooked(s: State, c: int) {
    ClientOf(s, c).Looked? && IsHead(s.q, ClientOf(s, c).member)
      && s.q[ClientOf(s, c).member] == ClientOf(s, c).joinedAt
  }

  /** A look that finds somebody sees the head and its time. */
  lemma LookSeesHead(s: State, c: int)
    requires ClientOf(s, c).Idle? && s.q != map[]
    ensures JustLooked(Run1(s, Look(c)), c)
  {}

  /**
   * The time a dequeue reports is the one it takes out, exactly when the member has not joined since at another
   * time.
   */
  lemma ReportedTimeIff(s: State, labels: seq<Label>, c: int)
    requires JustLooked(s, c) && NoTake(labels, c) && ClientOf(s, c).member in Run(s, labels).q
    ensures ClientOf(Run(s, labels), c) == ClientOf(s, c)
    ensures var m, joinedAt := ClientOf(s, c).member, ClientOf(s, c).joinedAt;
      Run(s, labels).q[m] == joinedAt <==> LastJoin(labels, m) in {None, Some(joinedAt)}
  {
    LookStays(s, labels, c);
    ScoreIsLastJoin(s, labels, ClientOf(s, c).member);
  }

  /** `x` joined last at a time that puts it before whoever joined at `joinedAt` under the name `m`. */
  predicate JoinedAhead(labels: seq<Label>, x: string, m: string, joinedAt: int) {
    match LastJoin(labels, x)
    case Some(now) => now < joinedAt || (now == joinedAt && Less(x, m))
    case None => false
  }

  /**
   * The member a dequeue is about to serve was the head when it looked. If it has not joined again, it still is,
   * exactly when nobody in the queue has joined ahead of it since; on a clock that moves on, nobody has.
   */
  lemma ServedIsHeadIff(s: State, labels: seq<Label>, c: int)
    requires JustLooked(s, c) && NoTake(labels, c) && ClientOf(s, c).member in Run(s, labels).q
    requires LastJoin(labels, ClientOf(s, c).member).None?
    ensures var m, joinedAt, q' := ClientOf(s, c).member, ClientOf(s, c).joinedAt, Run(s, labels).q;
      Position(q', m) == 1 <==> forall x :: x in q' ==> !JoinedAhead(labels, x, m, joinedAt)
  {
    var m, joinedAt, q' := ClientOf(s, c).member, ClientOf(s, c).joinedAt, Run(s, labels).q;
    ScoreIsLastJoin(s, labels, m);
    forall x | x in q' && x != m ensures Precedes(q', m, x) <==> !JoinedAhead(labels, x, m, joinedAt) {
      ScoreIsLastJoin(s, labels, x);
      LessIsOrder(m, x, m);
      if LastJoin(labels, x).None? { assert Precedes(s.q, m, x); }
    }
    assert !JoinedAhead(labels, m, m, joinedAt);
    HeadIsFirst(q', m);
  }

  /** Two commands are not one: a dequeue may report a joining time that is not the one it took out. */
  lemma JoinedAtMayBeStale() returns (labels: seq<Label>)
    ensures labels != []
    ensures var s := Run(Empty, labels[..|labels| - 1]);
      && labels[|labels| - 1] == Take(0)
      && ClientOf(s, 0) == Looked("7", 1) && "7" in s.q && s.q["7"] == 2
  {
    var m := "7";
    OneMore([], Join(m, 1));
    OneMore([Join(m, 1)], Look(0));
    OneMore([Join(m, 1)] + [Look(0)], Join(m, 2));
    assert [] + [Join(m, 1)] == [Join(m, 1)];
    var s1 := Run(Empty, [Join(m, 1)]);
    assert s1 == Run1(Empty, Join(m, 1)) && Head(s1.q) == m;
    labels := [Join(m, 1)] + [Look(0)] + [Join(m, 2)];
    assert (labels + [Take(0)])[..|labels|] == labels;
    labels := labels + [Take(0)];
  }

  lemma OneMore(labels: seq<Label>, a: Label)
    ensures Run(Empty, labels + [a]) == Run1(Run(Empty, labels), a)
  {
    assert (labels + [a])[..|labels|] == labels;
  }
}
