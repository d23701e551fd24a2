/** Facts about finite sequences that several components share. */
module Sequences {

  datatype Option<+T> = None | Some(value: T)

  ghost predicate Distinct<T>(s: seq<T>) {
    forall i, j :: 0 <= i < j < |s| ==> s[i] != s[j]
  }

  /** The set of values in a sequence, as `new Set(list)` holds them. */
  function Elements<T(==)>(s: seq<T>): set<T> {
    set x | x in s
  }

  /** Every value once, where it first occurs: the members of `new Set(list)` in order. */
  function Distinctly<T(==)>(s: seq<T>): seq<T> {
    if s == [] then []
    else
      var front, last := Distinctly(s[..|s| - 1]), s[|s| - 1];
      if last in front then front else front + [last]
  }

  lemma {:induction false} DistinctlyMeaning<T(!new)>(s: seq<T>)
    ensures Distinct(Distinctly(s))
    ensures forall x :: x in Distinctly(s) <==> x in s
  {
    if s != [] {
      DistinctlyMeaning(s[..|s| - 1]);
      assert s == s[..|s| - 1] + [s[|s| - 1]];
    }
  }

  lemma {:induction false} DistinctlyAtMost<T>(s: seq<T>)
    ensures |Distinctly(s)| <= |s|
  {
    if s != [] { DistinctlyAtMost(s[..|s| - 1]); }
  }

  lemma DistinctlyStep<T>(s: seq<T>, i: nat)
    requires i < |s|
    ensures Distinctly(s[..i + 1]) ==
            if s[i] in Distinctly(s[..i]) then Distinctly(s[..i]) else Distinctly(s[..i]) + [s[i]]
  {
    assert s[..i + 1][..i] == s[..i];
  }

  lemma {:induction false} DistinctCardinality<T>(s: seq<T>)
    requires Distinct(s)
    ensures |Elements(s)| == |s|
  {
    if s != [] {
      var front, last := s[..|s| - 1], s[|s| - 1];
      DistinctCardinality(front);
      assert Elements(s) == Elements(front) + {last};
    }
  }

  lemma {:induction false} ElementsAtMost<T>(s: seq<T>)
    ensures |Elements(s)| <= |s|
  {
    if s != [] {
      var front, last := s[..|s| - 1], s[|s| - 1];
      ElementsAtMost(front);
      assert Elements(s) == Elements(front) + {last};
    }
  }

  /** A subset of the same size is the whole set. */
  lemma {:induction false} SubsetOfSameSize<T>(a: set<T>, b: set<T>)
    requires a <= b && |a| == |b|
    ensures a == b
  {
    assert b == a + (b - a);
    assert |b| == |a| + |b - a|;
  }

  lemma {:induction false} SubsetSize<T>(a: set<T>, b: set<T>)
    requires a <= b
    ensures |a| <= |b|
  {
    assert b == a + (b - a);
    assert |a + (b - a)| == |a| + |b - a|;
  }

  /** A set that an injective map carries into `b` is no larger than `b`. */
  lemma {:induction false} InjectionSize<A, B>(a: set<A>, b: set<B>, f: map<A, B>)
    requires a <= f.Keys
    requires forall x :: x in a ==> f[x] in b
    requires forall x, y :: x in a && y in a && f[x] == f[y] ==> x == y
    ensures |a| <= |b|
    decreases |a|
  {
    if a != {} {
      var x :| x in a;
      InjectionSize(a - {x}, b - {f[x]}, f);
    }
  }

  // ----- sums

  function SumBy<T>(f: T -> int, s: seq<T>): int {
    if s == [] then 0 else SumBy(f, s[..|s| - 1]) + f(s[|s| - 1])
  }

  lemma {:induction false} SumByConcat<T>(f: T -> int, a: seq<T>, b: seq<T>)
    ensures SumBy(f, a + b) == SumBy(f, a) + SumBy(f, b)
  {
    if b == [] {
      assert a + b == a;
    } else {
      SumByConcat(f, a, b[..|b| - 1]);
      assert (a + b)[..|a + b| - 1] == a + b[..|b| - 1];
    }
  }

  lemma SumByFirst<T>(f: T -> int, s: seq<T>)
    requires s != []
    ensures SumBy(f, s) == f(s[0]) + SumBy(f, s[1..])
  {
    SumByConcat(f, [s[0]], s[1..]);
    assert s == [s[0]] + s[1..] && [s[0]][..0] == [] && SumBy(f, [s[0]]) == f(s[0]);
  }

  lemma {:induction false} SumByNonNegative<T>(f: T -> int, s: seq<T>)
    requires forall i :: 0 <= i < |s| ==> f(s[i]) >= 0
    ensures SumBy(f, s) >= 0
  {
    if s != [] { SumByNonNegative(f, s[..|s| - 1]); }
  }

  lemma {:induction false} SumByAtMost<T>(f: T -> int, g: T -> int, s: seq<T>)
    requires forall i :: 0 <= i < |s| ==> f(s[i]) <= g(s[i])
    ensures SumBy(f, s) <= SumBy(g, s)
  {
    if s != [] { SumByAtMost(f, g, s[..|s| - 1]); }
  }

  function Self(x: int): int { x }

  function Sum(s: seq<int>): int { SumBy(Self, s) }

  lemma SumOfOne(s: seq<int>)
    requires |s| == 1
    ensures Sum(s) == s[0]
  {
    SumByFirst(Self, s);
  }

  /** Where a value first stands in a list, or the length of the list. */
  function IndexOf<T(==)>(s: seq<T>, x: T): nat {
    if s == [] || s[0] == x then 0 else 1 + IndexOf(s[1..], x)
  }

  lemma {:induction false} IndexOfFinds<T>(s: seq<T>, x: T)
    requires x in s
    ensures IndexOf(s, x) < |s| && s[IndexOf(s, x)] == x
  {
    if s[0] != x { IndexOfFinds(s[1..], x); }
  }

  lemma {:induction false} IndexOfAt<T>(s: seq<T>, i: nat)
    requires Distinct(s) && i < |s|
    ensures IndexOf(s, s[i]) == i
  {
    if i > 0 { IndexOfAt(s[1..], i - 1); }
  }

  lemma {:induction false} IndexOfStays<T>(s: seq<T>, more: seq<T>, x: T)
    requires x in s
    ensures IndexOf(s + more, x) == IndexOf(s, x)
  {
    if s[0] != x {
      assert (s + more)[1..] == s[1..] + more;
      IndexOfStays(s[1..], more, x);
    }
  }

  lemma {:induction false} IndexOfNew<T>(s: seq<T>, x: T)
    requires x !in s
    ensures IndexOf(s + [x], x) == |s|
  {
    if s != [] {
      assert (s + [x])[1..] == s[1..] + [x];
      IndexOfNew(s[1..], x);
    }
  }

  /** Every element with its number, counted from one. */
  function MapNumbered<A, B>(f: (A, nat) -> B, s: seq<A>): seq<B> {
    if s == [] then [] else MapNumbered(f, s[..|s| - 1]) + [f(s[|s| - 1], |s|)]
  }

  lemma {:induction false} MapNumberedAt<A, B>(f: (A, nat) -> B, s: seq<A>)
    ensures |MapNumbered(f, s)| == |s|
    ensures forall i :: 0 <= i < |s| ==> MapNumbered(f, s)[i] == f(s[i], i + 1)
  {
    if s != [] { MapNumberedAt(f, s[..|s| - 1]); }
  }

  lemma MapNumberedStep<A, B>(f: (A, nat) -> B, s: seq<A>, i: nat)
    requires i < |s|
    ensures MapNumbered(f, s[..i + 1]) == MapNumbered(f, s[..i]) + [f(s[i], i + 1)]
  {
    assert s[..i + 1][..i] == s[..i];
  }

  // ----- tests of every element

  ghost predicate Each<T>(good: T -> bool, s: seq<T>) { forall i :: 0 <= i < |s| ==> good(s[i]) }

  lemma EachStep<T>(good: T -> bool, s: seq<T>, i: nat)
    requires i < |s| && Each(good, s[..i])
    ensures Each(good, s[..i + 1]) <==> good(s[i])
    ensures Each(good, s) ==> good(s[i])
  {
    assert s[..i + 1] == s[..i] + [s[i]];
  }

  ghost predicate EachPair<A, B>(good: (A, B) -> bool, a: seq<A>, b: seq<B>) {
    |a| == |b| && forall i :: 0 <= i < |a| ==> good(a[i], b[i])
  }

  lemma EachPairStep<A, B>(good: (A, B) -> bool, a: seq<A>, b: seq<B>, i: nat)
    requires i < |a| == |b| && EachPair(good, a[..i], b[..i])
    ensures EachPair(good, a[..i + 1], b[..i + 1]) <==> good(a[i], b[i])
    ensures EachPair(good, a, b) ==> good(a[i], b[i])
  {
    assert a[..i + 1] == a[..i] + [a[i]] && b[..i + 1] == b[..i] + [b[i]];
  }

  lemma EachPairIff<A, B, C>(good: (A, B) -> bool, a: seq<A>, b: seq<B>, test: C -> bool, c: seq<C>)
    requires |a| == |b| == |c| && forall i :: 0 <= i < |c| ==> (good(a[i], b[i]) <==> test(c[i]))
    ensures EachPair(good, a, b) <==> Each(test, c)
  {
  }

  // ----- counting

  function Count<T>(p: T -> bool, s: seq<T>): nat {
    if s == [] then 0 else (if p(s[0]) then 1 else 0) + Count(p, s[1..])
  }

  lemma {:induction false} CountConcat<T>(p: T -> bool, a: seq<T>, b: seq<T>)
    ensures Count(p, a + b) == Count(p, a) + Count(p, b)
  {
    if a == [] {
      assert a + b == b;
    } else {
      CountConcat(p, a[1..], b);
      assert (a + b)[1..] == a[1..] + b;
    }
  }

  lemma CountAppend<T>(p: T -> bool, s: seq<T>, x: T)
    ensures Count(p, s + [x]) == Count(p, s) + if p(x) then 1 else 0
  {
    CountConcat(p, s, [x]);
  }

  lemma CountLast<T>(p: T -> bool, s: seq<T>)
    requires s != []
    ensures Count(p, s) == Count(p, s[..|s| - 1]) + if p(s[|s| - 1]) then 1 else 0
  {
    assert s == s[..|s| - 1] + [s[|s| - 1]];
    CountAppend(p, s[..|s| - 1], s[|s| - 1]);
  }

  lemma {:induction false} CountFinds<T>(p: T -> bool, s: seq<T>)
    ensures Count(p, s) > 0 <==> exists i :: 0 <= i < |s| && p(s[i])
  {
    if s != [] {
      CountFinds(p, s[1..]);
      if i :| 0 <= i < |s[1..]| && p(s[1..][i]) { assert p(s[i + 1]); }
      if i :| 0 < i < |s| && p(s[i]) { assert p(s[1..][i - 1]); }
    }
  }

  /** The test for one value. */
  function Is<T(==)>(x: T): T -> bool { (y: T) => y == x }

  lemma {:induction false} CountAll<T>(p: T -> bool, s: seq<T>)
    requires forall i :: 0 <= i < |s| ==> p(s[i])
    ensures Count(p, s) == |s|
  {
    if s != [] { CountAll(p, s[1..]); }
  }

  lemma {:induction false} CountNone<T>(p: T -> bool, s: seq<T>)
    requires forall i :: 0 <= i < |s| ==> !p(s[i])
    ensures Count(p, s) == 0
  {
    if s != [] { CountNone(p, s[1..]); }
  }

  lemma {:induction false} CountAtMostAll<T>(p: T -> bool, s: seq<T>)
    ensures Count(p, s) <= |s|
  {
    if s != [] { CountAtMostAll(p, s[1..]); }
  }

  lemma CountSplit<T>(p: T -> bool, s: seq<T>, k: nat)
    requires k <= |s|
    ensures Count(p, s) == Count(p, s[..k]) + Count(p, s[k..])
    ensures Count(p, s[..k]) <= k && Count(p, s[k..]) <= |s| - k
  {
    assert s == s[..k] + s[k..];
    CountConcat(p, s[..k], s[k..]);
    CountAtMostAll(p, s[..k]);
    CountAtMostAll(p, s[k..]);
  }
}
