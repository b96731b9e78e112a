/** Sums over finite maps and counts over lists. */
module Sums {

  /** Some key of a non-empty map. */
  ghost function Pick<K, V>(m: map<K, V>): (k: K)
    requires m != map[]
    ensures k in m
  {
    var k :| k in m; k
  }

  /** Sum of the values of `m`; the order of adding does not matter (SumSplit). */
  ghost function Sum(m: map<int, int>): int
    decreases |m|
  {
    if m == map[] then 0 else
      var k := Pick(m);
      assert (m - {k}).Keys == m.Keys - {k};
      m[k] + Sum(m - {k})
  }

  lemma {:induction false} SumSplit(m: map<int, int>, k: int)
    requires k in m
    ensures Sum(m) == m[k] + Sum(m - {k})
    decreases |m|
  {
    var k0 := Pick(m);
    if k0 != k {
      assert (m - {k}).Keys == m.Keys - {k} && (m - {k0}).Keys == m.Keys - {k0};
      SumSplit(m - {k0}, k);
      SumSplit(m - {k}, k0);
      assert m - {k0} - {k} == m - {k} - {k0};
    }
  }

  /** Writing one value changes the sum by the difference. */
  lemma SumUpdate(m: map<int, int>, k: int, v: int)
    ensures Sum(m[k := v]) == Sum(m) + v - if k in m then m[k] else 0
  {
    SumSplit(m[k := v], k);
    if k in m {
      SumSplit(m, k);
      assert m[k := v] - {k} == m - {k};
    } else {
      assert m[k := v] - {k} == m;
    }
  }

  lemma {:induction false} SumNonNegative(m: map<int, int>)
    requires forall k :: k in m ==> m[k] >= 0
    ensures Sum(m) >= 0
    decreases |m|
  {
    if m != map[] {
      assert (m - {Pick(m)}).Keys == m.Keys - {Pick(m)};
      SumNonNegative(m - {Pick(m)});
    }
  }

  /** One value never exceeds a sum of non-negative values. */
  lemma SumDominates(m: map<int, int>, k: int)
    requires forall j :: j in m ==> m[j] >= 0
    requires k in m
    ensures Sum(m) >= m[k]
  {
    SumSplit(m, k);
    SumNonNegative(m - {k});
  }

  /** A sum of non-negative values vanishes exactly when every value does. */
  lemma {:induction false} SumIsZero(m: map<int, int>)
    requires forall k :: k in m ==> m[k] >= 0
    ensures Sum(m) == 0 <==> forall k :: k in m ==> m[k] == 0
    decreases |m|
  {
    if m != map[] {
      var k := Pick(m);
      assert (m - {k}).Keys == m.Keys - {k};
      SumIsZero(m - {k});
      SumNonNegative(m - {k});
      assert forall j :: j in m && j != k ==> j in m - {k};
    }
  }

  /** Sums of maps over the same keys add up value by value. */
  lemma {:induction false} SumAdd(a: map<int, int>, b: map<int, int>, c: map<int, int>)
    requires a.Keys == b.Keys == c.Keys
    requires forall k :: k in a ==> a[k] == b[k] + c[k]
    ensures Sum(a) == Sum(b) + Sum(c)
    decreases |a|
  {
    if a == map[] {
      assert b == map[] && c == map[];
    } else {
      var k := Pick(a);
      assert (a - {k}).Keys == a.Keys - {k};
      SumSplit(b, k);
      SumSplit(c, k);
      SumAdd(a - {k}, b - {k}, c - {k});
    }
  }

  lemma HasMember(s: set<int>)
    ensures s == {} || exists x :: x in s
  {
    if forall x :: x !in s { assert s == {}; }
  }

  /** Number of elements of `s` that satisfy `p`. */
  ghost function Count<T>(s: seq<T>, p: T -> bool): nat {
    if s == [] then 0 else Count(s[..|s| - 1], p) + if p(s[|s| - 1]) then 1 else 0
  }

  lemma {:induction false} CountConcat<T>(s: seq<T>, t: seq<T>, p: T -> bool)
    ensures Count(s + t, p) == Count(s, p) + Count(t, p)
  {
    if t == [] {
      assert s + t == s;
    } else {
      assert (s + t)[..|s + t| - 1] == s + t[..|t| - 1];
      CountConcat(s, t[..|t| - 1], p);
    }
  }

  /** Two lists that satisfy their predicates at the same places have equal counts. */
  lemma {:induction false} CountAligned<A, B>(s: seq<A>, p: A -> bool, t: seq<B>, q: B -> bool)
    requires |s| == |t| && forall i :: 0 <= i < |s| ==> p(s[i]) == q(t[i])
    ensures Count(s, p) == Count(t, q)
  {
    if s != [] { CountAligned(s[..|s| - 1], p, t[..|t| - 1], q); }
  }

  /** Counts add up over a list whose elements all agree on the predicate. */
  lemma {:induction false} CountUniform<T>(s: seq<T>, p: T -> bool, b: bool)
    requires forall i :: 0 <= i < |s| ==> p(s[i]) == b
    ensures Count(s, p) == if b then |s| else 0
  {
    if s != [] { CountUniform(s[..|s| - 1], p, b); }
  }
}
