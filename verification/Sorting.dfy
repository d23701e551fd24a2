/**
 * The stable comparison sort behind JavaScript's `Array.prototype.sort`,
 * and the code-unit order on strings that `compareText` and the default
 * string comparison use.
 */
module Sorting {
  import opened Sequences

  /** Puts `x` before the first element it may precede, so equal elements keep their order. */
  function Insert<T>(le: (T, T) -> bool, x: T, s: seq<T>): seq<T> {
    if s == [] then [x]
    else if le(x, s[0]) then [x] + s
    else [s[0]] + Insert(le, x, s[1..])
  }

  function Sort<T>(le: (T, T) -> bool, s: seq<T>): seq<T> {
    if s == [] then [] else Insert(le, s[0], Sort(le, s[1..]))
  }

  ghost predicate TotalPreorder<T(!new)>(le: (T, T) -> bool) {
    && (forall x, y :: le(x, y) || le(y, x))
    && (forall x, y, z :: le(x, y) && le(y, z) ==> le(x, z))
  }

  ghost predicate Sorted<T>(le: (T, T) -> bool, s: seq<T>) {
    forall i, j :: 0 <= i < j < |s| ==> le(s[i], s[j])
  }

  /** Elements that compare as equal are equal, as far as `s` is concerned. */
  ghost predicate Antisymmetric<T>(le: (T, T) -> bool, s: seq<T>) {
    forall i, j :: 0 <= i < |s| && 0 <= j < |s| && le(s[i], s[j]) && le(s[j], s[i]) ==> s[i] == s[j]
  }

  lemma {:induction false} InsertPermutes<T>(le: (T, T) -> bool, x: T, s: seq<T>)
    ensures multiset(Insert(le, x, s)) == multiset([x] + s)
  {
    if s == [] {
    } else if le(x, s[0]) {
    } else {
      InsertPermutes(le, x, s[1..]);
      calc {
        multiset(Insert(le, x, s));
        multiset([s[0]]) + multiset(Insert(le, x, s[1..]));
        multiset([s[0]]) + multiset([x] + s[1..]);
        { assert [s[0]] + s[1..] == s; }
        multiset([x] + s);
      }
    }
  }

  lemma {:induction false} SortPermutes<T>(le: (T, T) -> bool, s: seq<T>)
    ensures multiset(Sort(le, s)) == multiset(s)
    ensures |Sort(le, s)| == |s|
    ensures forall x :: x in Sort(le, s) <==> x in s
  {
    if s != [] {
      SortPermutes(le, s[1..]);
      InsertPermutes(le, s[0], Sort(le, s[1..]));
      assert s == [s[0]] + s[1..];
      assert multiset(Sort(le, s)) == multiset(s);
    }
    SameMultiset(Sort(le, s), s);
  }

  lemma SameMultiset<T>(a: seq<T>, b: seq<T>)
    requires multiset(a) == multiset(b)
    ensures |a| == |b|
    ensures forall x :: x in a <==> x in b
  {
    assert |a| == |multiset(a)| == |multiset(b)| == |b|;
    assert forall x :: x in a <==> x in multiset(a);
    assert forall x :: x in b <==> x in multiset(b);
  }

  lemma {:induction false} InsertSorted<T(!new)>(le: (T, T) -> bool, x: T, s: seq<T>)
    requires TotalPreorder(le) && Sorted(le, s)
    ensures Sorted(le, Insert(le, x, s))
  {
    if s == [] {
    } else if le(x, s[0]) {
      var r := [x] + s;
      forall i, j | 0 <= i < j < |r| ensures le(r[i], r[j]) {
        if i == 0 && j > 1 { assert le(s[0], s[j - 1]); }
      }
    } else {
      InsertSorted(le, x, s[1..]);
      InsertPermutes(le, x, s[1..]);
      var rest := Insert(le, x, s[1..]);
      SameMultiset(rest, [x] + s[1..]);
      forall j | 0 <= j < |rest| ensures le(s[0], rest[j]) {
        assert rest[j] in rest;
      }
    }
  }

  lemma {:induction false} SortSorts<T(!new)>(le: (T, T) -> bool, s: seq<T>)
    requires TotalPreorder(le)
    ensures Sorted(le, Sort(le, s))
  {
    if s != [] {
      SortSorts(le, s[1..]);
      InsertSorted(le, s[0], Sort(le, s[1..]));
    }
  }

  lemma TailContents<T>(s: seq<T>)
    requires s != []
    ensures multiset(s[1..]) == multiset(s) - multiset{s[0]}
  {
    assert s == [s[0]] + s[1..];
  }

  lemma RestContents<T>(s: seq<T>, i: nat)
    requires i < |s|
    ensures multiset(s[..i] + s[i + 1..]) == multiset(s) - multiset{s[i]}
  {
    assert s == s[..i] + [s[i]] + s[i + 1..];
  }

  /** Two sorted lists with the same contents start alike. */
  lemma SortedHead<T>(le: (T, T) -> bool, a: seq<T>, b: seq<T>)
    requires Sorted(le, a) && Sorted(le, b) && Antisymmetric(le, a)
    requires a != [] && multiset(a) == multiset(b)
    ensures b != [] && a[0] == b[0]
  {
    SameMultiset(a, b);
    assert a[0] in b && b[0] in a;
    var i :| 0 <= i < |a| && a[i] == b[0];
    var j :| 0 <= j < |b| && b[j] == a[0];
    if i != 0 && j != 0 {
      assert le(a[0], a[i]) && le(b[0], b[j]);
    }
  }

  /** A sorted list is determined by its contents when no two of them tie. */
  lemma {:induction false} SortedUnique<T>(le: (T, T) -> bool, a: seq<T>, b: seq<T>)
    requires Sorted(le, a) && Sorted(le, b) && Antisymmetric(le, a)
    requires multiset(a) == multiset(b)
    ensures a == b
    decreases |a|
  {
    if a == [] {
      SameMultiset(a, b);
    } else {
      SortedHead(le, a, b);
      var a', b' := a[1..], b[1..];
      TailContents(a);
      TailContents(b);
      SortedUnique(le, a', b');
      assert a == [a[0]] + a' && b == [b[0]] + b';
    }
  }

  /** Sorting a list that is already in order gives it back. */
  lemma {:induction false} SortOfSorted<T>(le: (T, T) -> bool, s: seq<T>)
    requires Sorted(le, s)
    ensures Sort(le, s) == s
  {
    if s != [] {
      SortOfSorted(le, s[1..]);
      if |s| > 1 { assert le(s[0], s[1]); }
    }
  }

  lemma AntisymmetricContents<T>(le: (T, T) -> bool, a: seq<T>, b: seq<T>)
    requires Antisymmetric(le, a)
    requires forall x :: x in b ==> x in a
    ensures Antisymmetric(le, b)
  {
    forall i, j | 0 <= i < |b| && 0 <= j < |b| && le(b[i], b[j]) && le(b[j], b[i]) ensures b[i] == b[j] {
      assert b[i] in b && b[j] in b;
      var i' :| 0 <= i' < |a| && a[i'] == b[i];
      var j' :| 0 <= j' < |a| && a[j'] == b[j];
    }
  }

  /** The order in which the elements arrive does not matter when no two tie. */
  lemma {:induction false} SortIgnoresOrder<T(!new)>(le: (T, T) -> bool, a: seq<T>, b: seq<T>)
    requires TotalPreorder(le) && Antisymmetric(le, a)
    requires multiset(a) == multiset(b)
    ensures Sort(le, a) == Sort(le, b)
  {
    SortSorts(le, a);
    SortSorts(le, b);
    SortPermutes(le, a);
    SortPermutes(le, b);
    AntisymmetricContents(le, a, Sort(le, a));
    SortedUnique(le, Sort(le, a), Sort(le, b));
  }

  lemma SumByRest<T>(f: T -> int, s: seq<T>, i: nat)
    requires i < |s|
    ensures SumBy(f, s) == SumBy(f, s[..i] + s[i + 1..]) + f(s[i])
  {
    assert s == s[..i] + ([s[i]] + s[i + 1..]);
    SumByConcat(f, s[..i], [s[i]] + s[i + 1..]);
    SumByFirst(f, [s[i]] + s[i + 1..]);
    SumByConcat(f, s[..i], s[i + 1..]);
  }

  /** A sum does not depend on the order. */
  lemma {:induction false} SumByIgnoresOrder<T>(f: T -> int, a: seq<T>, b: seq<T>)
    requires multiset(a) == multiset(b)
    ensures SumBy(f, a) == SumBy(f, b)
    decreases |a|
  {
    SameMultiset(a, b);
    if a != [] {
      assert a[0] in b;
      var i :| 0 <= i < |b| && b[i] == a[0];
      TailContents(a);
      RestContents(b, i);
      SumByIgnoresOrder(f, a[1..], b[..i] + b[i + 1..]);
      SumByFirst(f, a);
      SumByRest(f, b, i);
    }
  }

  function Map<A, B>(f: A -> B, s: seq<A>): seq<B> {
    seq(|s|, i requires 0 <= i < |s| => f(s[i]))
  }

  lemma MapConcat<A, B>(f: A -> B, a: seq<A>, b: seq<A>)
    ensures Map(f, a + b) == Map(f, a) + Map(f, b)
  {
  }

  lemma {:induction false} InsertCommutes<A(!new), B>(leA: (A, A) -> bool, leB: (B, B) -> bool, f: A -> B, x: A, s: seq<A>)
    requires forall x, y :: leA(x, y) == leB(f(x), f(y))
    ensures Insert(leB, f(x), Map(f, s)) == Map(f, Insert(leA, x, s))
  {
    if s != [] && !leA(x, s[0]) {
      InsertCommutes(leA, leB, f, x, s[1..]);
      assert Map(f, s)[1..] == Map(f, s[1..]);
    }
  }

  /** Sorting and an order-preserving change of elements may be done in either order. */
  lemma {:induction false} SortCommutes<A(!new), B>(leA: (A, A) -> bool, leB: (B, B) -> bool, f: A -> B, s: seq<A>)
    requires forall x, y :: leA(x, y) == leB(f(x), f(y))
    ensures Sort(leB, Map(f, s)) == Map(f, Sort(leA, s))
  {
    if s != [] {
      SortCommutes(leA, leB, f, s[1..]);
      assert Map(f, s)[1..] == Map(f, s[1..]);
      InsertCommutes(leA, leB, f, s[0], Sort(leA, s[1..]));
    }
  }

  /** Equally long lists without repetitions hold the same when one contains the other. */
  lemma {:induction false} SameContents<T>(a: seq<T>, b: seq<T>)
    requires |a| == |b|
    requires forall i, j :: 0 <= i < j < |a| ==> a[i] != a[j]
    requires forall i :: 0 <= i < |a| ==> a[i] in b
    ensures multiset(a) == multiset(b)
    decreases |a|
  {
    if a != [] {
      var k :| 0 <= k < |b| && b[k] == a[0];
      var rest := b[..k] + b[k + 1..];
      TailContents(a);
      RestContents(b, k);
      forall i | 0 <= i < |a[1..]| ensures a[1..][i] in rest { StillIn(b, k, a[i + 1]); }
      SameContents(a[1..], rest);
      assert a == [a[0]] + a[1..];
    }
  }

  lemma StillIn<T>(s: seq<T>, k: nat, x: T)
    requires k < |s| && x in s && x != s[k]
    ensures x in s[..k] + s[k + 1..]
  {
    var m :| 0 <= m < |s| && s[m] == x;
    assert (s[..k] + s[k + 1..])[if m < k then m else m - 1] == x;
  }

  ghost predicate StrictlySorted<T>(less: (T, T) -> bool, s: seq<T>) {
    forall i, j :: 0 <= i < j < |s| ==> less(s[i], s[j])
  }

  /** Two strictly increasing lists with the same elements are the same list. */
  lemma {:induction false} StrictlySortedUnique<T(!new)>(less: (T, T) -> bool, a: seq<T>, b: seq<T>)
    requires StrictlySorted(less, a) && StrictlySorted(less, b)
    requires forall x, y :: less(x, y) ==> !less(y, x)
    requires forall x :: x in a <==> x in b
    ensures a == b
    decreases |a|
  {
    assert (a == [] || a[0] in a) && (b == [] || b[0] in b);
    if a != [] && b != [] {
      var i :| 0 <= i < |a| && a[i] == b[0];
      var j :| 0 <= j < |b| && b[j] == a[0];
      if i > 0 && j > 0 { assert false; }
      TailElements(less, a);
      TailElements(less, b);
      StrictlySortedUnique(less, a[1..], b[1..]);
      assert a == [a[0]] + a[1..] && b == [b[0]] + b[1..];
    }
  }

  lemma TailElements<T(!new)>(less: (T, T) -> bool, s: seq<T>)
    requires s != [] && StrictlySorted(less, s) && forall x, y :: less(x, y) ==> !less(y, x)
    ensures forall x :: x in s[1..] <==> x in s && x != s[0]
  {
    assert s == [s[0]] + s[1..];
    forall x | x in s[1..] ensures x != s[0] {
      var i :| 0 <= i < |s[1..]| && s[1..][i] == x;
      assert less(s[0], s[i + 1]);
    }
  }

  lemma TextLessIsAsymmetric()
    ensures forall a: string, b: string :: TextLess(a, b) ==> !TextLess(b, a)
  {
    forall a: string, b: string | TextLess(a, b) ensures !TextLess(b, a) { TextTrichotomy(a, b); }
  }

  ghost predicate DistinctKeys<T, K>(key: T -> K, s: seq<T>) {
    forall i, j :: 0 <= i < j < |s| ==> key(s[i]) != key(s[j])
  }

  /** A rearrangement of a list without repeated keys has none either. */
  lemma {:induction false} DistinctKeysContents<T, K>(key: T -> K, a: seq<T>, b: seq<T>)
    requires DistinctKeys(key, a) && multiset(a) == multiset(b)
    ensures DistinctKeys(key, b)
    decreases |a|
  {
    SameMultiset(a, b);
    if b != [] {
      assert b[0] in a;
      var k :| 0 <= k < |a| && a[k] == b[0];
      var rest := a[..k] + a[k + 1..];
      TailContents(b);
      RestContents(a, k);
      RestKeys(key, a, k);
      DistinctKeysContents(key, rest, b[1..]);
      SameMultiset(rest, b[1..]);
      forall j | 0 < j < |b| ensures key(b[0]) != key(b[j]) {
        assert b[j] == b[1..][j - 1] && b[j] in b[1..];
      }
    }
  }

  lemma RestKeys<T, K>(key: T -> K, a: seq<T>, k: nat)
    requires k < |a| && DistinctKeys(key, a)
    ensures DistinctKeys(key, a[..k] + a[k + 1..])
    ensures forall x :: x in a[..k] + a[k + 1..] ==> key(x) != key(a[k])
  {
  }

  lemma {:induction false} CountInsert<T>(le: (T, T) -> bool, p: T -> bool, x: T, s: seq<T>)
    ensures Count(p, Insert(le, x, s)) == Count(p, s) + if p(x) then 1 else 0
  {
    if s != [] && !le(x, s[0]) { CountInsert(le, p, x, s[1..]); }
  }

  lemma {:induction false} CountSort<T>(le: (T, T) -> bool, p: T -> bool, s: seq<T>)
    ensures Count(p, Sort(le, s)) == Count(p, s)
  {
    if s != [] {
      CountSort(le, p, s[1..]);
      CountInsert(le, p, s[0], Sort(le, s[1..]));
    }
  }

  // ----- the order on strings

  predicate TextLess(a: string, b: string) {
    if b == "" then false
    else if a == "" then true
    else a[0] < b[0] || (a[0] == b[0] && TextLess(a[1..], b[1..]))
  }

  predicate TextLe(a: string, b: string) {
    a == b || TextLess(a, b)
  }

  lemma {:induction false} TextTrichotomy(a: string, b: string)
    ensures TextLess(a, b) || a == b || TextLess(b, a)
    ensures TextLess(a, b) ==> a != b && !TextLess(b, a)
  {
    if a != "" && b != "" {
      TextTrichotomy(a[1..], b[1..]);
      assert a == [a[0]] + a[1..] && b == [b[0]] + b[1..];
    }
  }

  lemma {:induction false} TextTransitive(a: string, b: string, c: string)
    requires TextLess(a, b) && TextLess(b, c)
    ensures TextLess(a, c)
  {
    if a != "" && a[0] == b[0] == c[0] {
      TextTransitive(a[1..], b[1..], c[1..]);
    }
  }

  lemma {:induction false} TextLeIsTotalOrder()
    ensures TotalPreorder(TextLe)
    ensures forall a: string, b: string :: TextLe(a, b) && TextLe(b, a) ==> a == b
  {
    forall a: string, b: string
      ensures TextLe(a, b) || TextLe(b, a)
      ensures TextLe(a, b) && TextLe(b, a) ==> a == b
    {
      TextTrichotomy(a, b);
    }
    forall a: string, b: string, c: string | TextLe(a, b) && TextLe(b, c) ensures TextLe(a, c) {
      if a != b && b != c { TextTransitive(a, b, c); }
    }
  }

  /** A common prefix does not change the order. */
  lemma {:induction false} TextLessPrefix(p: string, a: string, b: string)
    ensures TextLess(p + a, p + b) == TextLess(a, b)
  {
    if p == "" {
      assert p + a == a && p + b == b;
    } else {
      TextLessPrefix(p[1..], a, b);
      assert (p + a)[1..] == p[1..] + a && (p + b)[1..] == p[1..] + b;
    }
  }
}
