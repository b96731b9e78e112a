/** The virtual queue of a product: a Redis sorted set of users by joining time (backend/src/queue/queue.service.ts). */
module Queue {
  import opened Common

  /** A sorted set: score by member. */
  type SortedSet = map<string, int>

  // ---- members ----

  const Digits := "0123456789"

  /** `String(userId)`. */
  function Decimal(n: nat): (s: string)
    ensures |s| > 0
  {
    if n < 10 then [Digits[n]] else Decimal(n / 10) + [Digits[n % 10]]
  }

  function DigitValue(c: char): nat {
    if '0' <= c <= '9' then (c as int) - ('0' as int) else 0
  }

  /** `Number(member)` on a string of digits. */
  function Parsed(s: string): nat {
    if s == [] then 0 else 10 * Parsed(s[..|s| - 1]) + DigitValue(s[|s| - 1])
  }

  /** A dequeued member names the user who joined. */
  lemma {:induction false} ParsedDecimal(n: nat)
    ensures Parsed(Decimal(n)) == n
  {
    assert DigitValue(Digits[n % 10]) == n % 10;
    if n < 10 {
      assert Parsed([]) == 0 && Decimal(n)[..0] == [];
    } else {
      assert Decimal(n)[..|Decimal(n)| - 1] == Decimal(n / 10);
      ParsedDecimal(n / 10);
    }
  }

  /** Redis orders members of equal score as strings. */
  predicate Less(s: string, t: string) {
    t != [] && (s == [] || s[0] < t[0] || (s[0] == t[0] && Less(s[1..], t[1..])))
  }

  lemma {:induction false} LessIsOrder(s: string, t: string, u: string)
    ensures !Less(s, s)
    ensures Less(s, t) && Less(t, u) ==> Less(s, u)
    ensures s == t || Less(s, t) || Less(t, s)
    decreases |s|
  {
    if s != [] {
      LessIsOrder(s[1..], if t == [] then [] else t[1..], if u == [] then [] else u[1..]);
      if t != [] && s[0] == t[0] && s[1..] == t[1..] {
        assert s == [s[0]] + s[1..] && t == [t[0]] + t[1..];
      }
    }
  }

  /** `s` and `t` agree on their first `k` characters; then `s` ends before `t`, or goes on with a smaller one. */
  predicate SmallerFrom(s: string, t: string, k: nat) {
    && k <= |s| && k < |t| && s[..k] == t[..k]
    && (k == |s| || s[k] < t[k])
  }

  lemma {:induction false} LessSmaller(s: string, t: string) returns (k: nat)
    requires Less(s, t)
    ensures SmallerFrom(s, t, k)
  {
    k := 0;
    if s != [] && s[0] == t[0] {
      k := LessSmaller(s[1..], t[1..]);
      assert s[..k + 1] == [s[0]] + s[1..][..k] && t[..k + 1] == [t[0]] + t[1..][..k];
      k := k + 1;
    }
  }

  lemma {:induction false} SmallerLess(s: string, t: string, k: nat)
    requires SmallerFrom(s, t, k)
    ensures Less(s, t)
  {
    if k > 0 {
      assert s[..k][1..] == s[1..][..k - 1] && t[..k][1..] == t[1..][..k - 1];
      assert s[..k][0] == t[..k][0];
      SmallerLess(s[1..], t[1..], k - 1);
    }
  }

  // ---- rank ----

  /** `x` is served before `y`. */
  predicate Precedes(q: SortedSet, x: string, y: string)
    requires x in q && y in q
  {
    q[x] < q[y] || (q[x] == q[y] && Less(x, y))
  }

  lemma PrecedesIsOrder(q: SortedSet, x: string, y: string, z: string)
    requires x in q && y in q && z in q
    ensures !Precedes(q, x, x)
    ensures Precedes(q, x, y) && Precedes(q, y, z) ==> Precedes(q, x, z)
    ensures x == y || Precedes(q, x, y) || Precedes(q, y, x)
  {
    LessIsOrder(x, y, z);
  }

  function Ahead(q: SortedSet, m: string): set<string>
    requires m in q
  {
    set x | x in q && Precedes(q, x, m)
  }

  /** ZRANK. */
  function Rank(q: SortedSet, m: string): nat
    requires m in q
  {
    |Ahead(q, m)|
  }

  /** The source's positions start at 1; 0 for who is not in the queue. */
  function Position(q: SortedSet, m: string): nat {
    if m in q then Rank(q, m) + 1 else 0
  }

  lemma SubsetSize<T>(a: set<T>, b: set<T>)
    requires a <= b
    ensures |a| <= |b| && (|a| == |b| ==> a == b)
  {
    assert b == a + (b - a);
  }

  /** Ranks follow the order. */
  lemma RankFollows(q: SortedSet, x: string, y: string)
    requires x in q && y in q
    ensures Precedes(q, x, y) <==> Rank(q, x) < Rank(q, y)
    ensures Rank(q, x) == Rank(q, y) ==> x == y
  {
    PrecedesIsOrder(q, x, y, x);
    if Precedes(q, x, y) { RankGrows(q, x, y); }
    if Precedes(q, y, x) { RankGrows(q, y, x); }
  }

  lemma RankGrows(q: SortedSet, x: string, y: string)
    requires x in q && y in q && Precedes(q, x, y)
    ensures Rank(q, x) < Rank(q, y)
  {
    forall z | z in Ahead(q, x) ensures z in Ahead(q, y) { PrecedesIsOrder(q, z, x, y); }
    PrecedesIsOrder(q, x, x, x);
    assert x in Ahead(q, y) && x !in Ahead(q, x);
    SubsetSize(Ahead(q, x), Ahead(q, y));
  }

  /**
   * Earlier times are served first; of two members with equal times the one whose string is smaller at the first
   * difference.
   */
  lemma ServedByTimeThenString(q: SortedSet, x: string, y: string)
    requires x in q && y in q
    ensures Position(q, x) < Position(q, y) <==>
      q[x] < q[y] || (q[x] == q[y] && exists k: nat :: SmallerFrom(x, y, k))
  {
    RankFollows(q, x, y);
    if Less(x, y) { var k := LessSmaller(x, y); }
    if k: nat :| SmallerFrom(x, y, k) { SmallerLess(x, y, k); }
  }

  /** Strings, not numbers: of users 9 and 10 who joined at the same time, 10 is served first. */
  lemma TenBeforeNine(q: SortedSet)
    requires Decimal(9) in q && Decimal(10) in q && q[Decimal(9)] == q[Decimal(10)]
    ensures Position(q, Decimal(10)) < Position(q, Decimal(9))
  {
    assert Decimal(1) == "1" && Decimal(10) == "10" && Decimal(9) == "9";
    assert SmallerFrom("10", "9", 0);
    ServedByTimeThenString(q, Decimal(10), Decimal(9));
  }

  lemma RankBelowSize(q: SortedSet, m: string)
    requires m in q
    ensures Rank(q, m) < |q|
  {
    PrecedesIsOrder(q, m, m, m);
    assert Ahead(q, m) <= q.Keys - {m};
    SubsetSize(Ahead(q, m), q.Keys - {m});
  }

  // ---- the head and the order of service ----

  ghost predicate IsHead(q: SortedSet, h: string) {
    h in q && forall x :: x in q && x != h ==> Precedes(q, h, x)
  }

  lemma {:induction false} HeadExists(q: SortedSet) returns (h: string)
    requires q != map[]
    ensures IsHead(q, h)
    decreases |q|
  {
    h :| h in q;
    var rest := q - {h};
    assert rest.Keys == q.Keys - {h};
    assert forall x :: x in q && x != h ==> x in rest;
    if rest != map[] {
      var g := HeadExists(rest);
      forall x | x in rest && x != g ensures Precedes(q, g, x) { assert Precedes(rest, g, x); }
      PrecedesIsOrder(q, h, g, h);
      if Precedes(q, g, h) {
        forall x | x in q && x != g ensures Precedes(q, g, x) { assert x == h || x in rest; }
        h := g;
      } else {
        forall x | x in q && x != h ensures Precedes(q, h, x) {
          assert x in rest && (x == g || Precedes(q, g, x));
          PrecedesIsOrder(q, h, g, x);
        }
      }
    }
  }

  ghost function Head(q: SortedSet): (h: string)
    requires q != map[]
    ensures IsHead(q, h)
  {
    assert exists h :: IsHead(q, h) by { var h := HeadExists(q); }
    var h :| IsHead(q, h);
    h
  }

  /** The first in the order is the one at position 1. */
  lemma HeadIsFirst(q: SortedSet, m: string)
    requires m in q
    ensures IsHead(q, m) <==> Position(q, m) == 1
  {
    if IsHead(q, m) {
      forall x | x in q ensures x !in Ahead(q, m) { PrecedesIsOrder(q, m, x, m); }
      assert Ahead(q, m) == {};
    } else {
      var h := Head(q);
      assert h in Ahead(q, m);
    }
  }

  /** Taking one member out moves up exactly those behind it, by one. */
  lemma RemovalMovesUp(q: SortedSet, gone: string, m: string)
    requires gone in q && m in q && m != gone
    ensures m in q - {gone}
    ensures Position(q - {gone}, m) == Position(q, m) - (if Precedes(q, gone, m) then 1 else 0)
  {
    var rest := q - {gone};
    if Precedes(q, gone, m) {
      assert Ahead(q, m) == Ahead(rest, m) + {gone};
    } else {
      assert Ahead(q, m) == Ahead(rest, m);
    }
  }

  /** Who is served when, if the queue is emptied. */
  ghost function Drain(q: SortedSet): seq<string>
    decreases |q|
  {
    if q == map[] then [] else
      assert (q - {Head(q)}).Keys == q.Keys - {Head(q)};
      [Head(q)] + Drain(q - {Head(q)})
  }

  /** Emptying the queue serves everyone once, in order of position: positions are a bijection onto 1..size. */
  lemma {:induction false} DrainIsByPosition(q: SortedSet)
    ensures |Drain(q)| == |q|
    ensures forall i :: 0 <= i < |Drain(q)| ==> Drain(q)[i] in q && Position(q, Drain(q)[i]) == i + 1
    ensures forall m :: m in q ==> 0 < Position(q, m) <= |q| && Drain(q)[Position(q, m) - 1] == m
    decreases |q|
  {
    if q != map[] {
      var h := Head(q);
      var rest := q - {h};
      assert rest.Keys == q.Keys - {h};
      DrainIsByPosition(rest);
      HeadIsFirst(q, h);
      forall i | 0 <= i < |Drain(q)| ensures Drain(q)[i] in q && Position(q, Drain(q)[i]) == i + 1 {
        if i > 0 { RemovalMovesUp(q, h, Drain(q)[i]); }
      }
      forall m | m in q ensures 0 < Position(q, m) <= |q| && Drain(q)[Position(q, m) - 1] == m {
        RankBelowSize(q, m);
        RankFollows(q, m, Drain(q)[Position(q, m) - 1]);
      }
    }
  }

  /** Who joins after everyone else goes to the end. */
  lemma LatestIsLast(q: SortedSet, m: string, now: int)
    requires forall x :: x in q && x != m ==> q[x] < now
    ensures Position(q[m := now], m) == |q[m := now]|
  {
    var joined := q[m := now];
    forall x | x in joined ensures x in Ahead(joined, m) <==> x != m { PrecedesIsOrder(joined, m, x, m); }
    assert Ahead(joined, m) == joined.Keys - {m};
  }

  /** Nobody who joined earlier is overtaken by a later join. */
  lemma JoinOvertakesNobody(q: SortedSet, m: string, now: int, other: string)
    requires other in q && other != m && q[other] < now
    ensures Position(q[m := now], other) <= Position(q, other)
  {
    assert Ahead(q[m := now], other) <= Ahead(q, other);
    SubsetSize(Ahead(q[m := now], other), Ahead(q, other));
  }

  // ---- the service ----

  class QueueService {
    /** The sorted set of each product; a product without entry has an empty one. */
    var queues: map<int, SortedSet>

    function Of(productId: int): SortedSet
      reads this
    {
      if productId in queues then queues[productId] else map[]
    }

    /** Everything but the queue of one product. */
    twostate predicate OthersKept(productId: int)
      reads this
    {
      forall p :: p != productId ==> Of(p) == old(Of(p))
    }

    constructor ()
      ensures forall p :: Of(p) == map[]
    {
      queues := map[];
    }

    /** ZADD then ZRANK; joining again moves the user to the new time. */
    method Join(productId: int, userId: nat, now: int) returns (position: nat)
      modifies this
      ensures Of(productId) == old(Of(productId))[Decimal(userId) := now]
      ensures OthersKept(productId)
      ensures position == Position(Of(productId), Decimal(userId)) && 1 <= position <= |Of(productId)|
    {
      queues := queues[productId := Of(productId)[Decimal(userId) := now]];
      RankBelowSize(Of(productId), Decimal(userId));
      position := Rank(Of(productId), Decimal(userId)) + 1;
    }

    method GetPosition(productId: int, userId: nat) returns (position: nat)
      ensures position == Position(Of(productId), Decimal(userId))
      ensures position == 0 <==> Decimal(userId) !in Of(productId)
      ensures forall x :: x in Of(productId) && Decimal(userId) in Of(productId) ==>
        (Position(Of(productId), x) < position <==> Precedes(Of(productId), x, Decimal(userId)))
    {
      var q := Of(productId);
      if Decimal(userId) !in q { return 0; }
      position := Rank(q, Decimal(userId)) + 1;
      forall x | x in q ensures Position(q, x) < position <==> Precedes(q, x, Decimal(userId)) {
        RankFollows(q, x, Decimal(userId));
      }
    }

    method Size(productId: int) returns (size: nat)
      ensures size == |Drain(Of(productId))|
    {
      DrainIsByPosition(Of(productId));
      size := |Of(productId)|;
    }

    /** ZRANGE 0 0: the entry at position 1. */
    method First(productId: int) returns (entry: Option<(string, int)>)
      ensures entry.None? <==> Of(productId) == map[]
      ensures entry.Some? ==>
        Position(Of(productId), entry.value.0) == 1 && Of(productId)[entry.value.0] == entry.value.1
    {
      var q := Of(productId);
      if q == map[] { return None; }
      assert exists h :: h in q && Position(q, h) == 1 by { HeadIsFirst(q, Head(q)); }
      var h :| h in q && Position(q, h) == 1;
      return Some((h, q[h]));
    }

    /** ZREM. */
    method Remove(productId: int, member: string) returns (removed: bool)
      modifies this
      ensures removed == (member in old(Of(productId)))
      ensures Of(productId) == old(Of(productId)) - {member}
      ensures OthersKept(productId)
    {
      removed := member in Of(productId);
      queues := queues[productId := Of(productId) - {member}];
    }

    /** With nobody in between, dequeue serves the user at position 1, and everyone else moves up by one. */
    method Dequeue(productId: int) returns (served: Option<(nat, int)>)
      modifies this
      ensures served.None? <==> old(Of(productId)) == map[]
      ensures OthersKept(productId)
      ensures served.None? ==> Of(productId) == map[]
      ensures served.Some? ==>
        exists m :: m in old(Of(productId)) && old(Of(productId)) == Of(productId)[m := served.value.1]
          && m !in Of(productId) && Parsed(m) == served.value.0 && old(Position(Of(productId), m)) == 1
      ensures forall x :: x in Of(productId) ==>
        x in old(Of(productId)) && Position(Of(productId), x) == old(Position(Of(productId), x)) - 1
    {
      var entry := First(productId);
      if entry.None? { return None; }
      ghost var q := Of(productId);
      var (member, joinedAt) := entry.value;
      var removed := Remove(productId, member);
      FrontLeaves(q, member);
      served := if removed then Some((Parsed(member), joinedAt)) else None;
    }

    method Leave(productId: int, userId: nat) returns (left: bool)
      modifies this
      ensures left == (Decimal(userId) in old(Of(productId)))
      ensures Of(productId) == old(Of(productId)) - {Decimal(userId)}
      ensures OthersKept(productId)
    {
      left := Remove(productId, Decimal(userId));
    }

    method Flush(productId: int)
      modifies this
      ensures Of(productId) == map[]
      ensures OthersKept(productId)
    {
      queues := queues - {productId};
    }
  }

  lemma FrontLeaves(q: SortedSet, m: string)
    requires m in q && Position(q, m) == 1
    ensures q == (q - {m})[m := q[m]]
    ensures forall x :: x in q - {m} ==> x in q && Position(q - {m}, x) == Position(q, x) - 1
  {
    HeadIsFirst(q, m);
    forall x | x in q - {m} ensures x in q && Position(q - {m}, x) == Position(q, x) - 1 { RemovalMovesUp(q, m, x); }
  }
}
