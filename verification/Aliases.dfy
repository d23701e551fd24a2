/** Fixture-local aliases: ordinals written in decimal, padded with zeros to four digits. */
module Aliases {
  import opened Sorting

  function Digit(d: nat): char
    requires d < 16
  {
    if d < 10 then ('0' as int + d) as char else ('a' as int + d - 10) as char
  }

  /** The `width` lowest digits of n. */
  function Fixed(n: nat, base: nat, width: nat): string
    requires 2 <= base <= 16
  {
    if width == 0 then "" else Fixed(n / base, base, width - 1) + [Digit(n % base)]
  }

  function Decimal(n: nat): string {
    if n < 10 then [Digit(n)] else Decimal(n / 10) + [Digit(n % 10)]
  }

  /** `String(n).padStart(4, '0')`. */
  function Padded(n: nat): string { if n < 10000 then Fixed(n, 10, PAD_WIDTH) else Decimal(n) }

  const PAD_WIDTH: nat := 4

  function DigitValue(c: char): int {
    if '0' <= c <= '9' then c as int - '0' as int else c as int - 'a' as int + 10
  }

  function Value(s: string, base: nat): int {
    if s == "" then 0 else Value(s[..|s| - 1], base) * base + DigitValue(s[|s| - 1])
  }

  lemma DigitRoundTrip(d: nat)
    requires d < 16
    ensures DigitValue(Digit(d)) == d
  {
  }

  /** Reading a padded ordinal back gives the ordinal, so different ordinals have different aliases. */
  lemma PaddedRoundTrip(n: nat)
    ensures Value(Padded(n), 10) == n && |Padded(n)| >= 4
  {
    assert TenTo(PAD_WIDTH) == TenTo(4) == 10000;
    if n < 10000 { FixedRoundTrip10(n, PAD_WIDTH); } else { DecimalRoundTrip(n); DecimalLength(n); }
  }

  function TenTo(w: nat): nat { if w == 0 then 1 else 10 * TenTo(w - 1) }

  lemma {:induction false} FixedRoundTrip10(n: nat, width: nat)
    requires n < TenTo(width)
    ensures Value(Fixed(n, 10, width), 10) == n && |Fixed(n, 10, width)| == width
  {
    if width > 0 {
      FixedRoundTrip10(n / 10, width - 1);
      DigitRoundTrip(n % 10);
      var s := Fixed(n, 10, width);
      assert s[..|s| - 1] == Fixed(n / 10, 10, width - 1);
    }
  }

  function SixteenTo(w: nat): nat { if w == 0 then 1 else 16 * SixteenTo(w - 1) }

  lemma {:induction false} FixedRoundTrip16(n: nat, width: nat)
    requires n < SixteenTo(width)
    ensures Value(Fixed(n, 16, width), 16) == n && |Fixed(n, 16, width)| == width
  {
    if width > 0 {
      FixedRoundTrip16(n / 16, width - 1);
      DigitRoundTrip(n % 16);
      var s := Fixed(n, 16, width);
      assert s[..|s| - 1] == Fixed(n / 16, 16, width - 1);
    }
  }

  lemma {:induction false} DecimalRoundTrip(n: nat)
    ensures Value(Decimal(n), 10) == n
  {
    var s := Decimal(n);
    DigitRoundTrip(n % 10);
    if n < 10 {
      assert s[..0] == "";
    } else {
      DecimalRoundTrip(n / 10);
      assert s[..|s| - 1] == Decimal(n / 10);
    }
  }

  lemma DecimalLength(n: nat)
    requires n >= 10000
    ensures |Decimal(n)| >= 5
  {
    assert n / 10 >= 1000 && n / 10 / 10 >= 100 && n / 10 / 10 / 10 >= 10;
    assert |Decimal(n / 10 / 10 / 10 / 10)| >= 1;
    assert |Decimal(n / 10 / 10 / 10)| >= 2;
    assert |Decimal(n / 10 / 10)| >= 3;
    assert |Decimal(n / 10)| >= 4;
  }

  // ----- order

  lemma {:induction false} LessExtends(a: string, b: string, x: string, y: string)
    requires |a| == |b| && TextLess(a, b)
    ensures TextLess(a + x, b + y)
  {
    if a[0] == b[0] {
      LessExtends(a[1..], b[1..], x, y);
    }
    assert (a + x)[1..] == a[1..] + x && (b + y)[1..] == b[1..] + y;
  }

  lemma {:induction false} FixedKeepsOrder(m: nat, n: nat, width: nat)
    requires m < n < TenTo(width)
    ensures TextLess(Fixed(m, 10, width), Fixed(n, 10, width))
  {
    var a, b := Fixed(m / 10, 10, width - 1), Fixed(n / 10, 10, width - 1);
    FixedLength(m / 10, 10, width - 1);
    FixedLength(n / 10, 10, width - 1);
    if m / 10 < n / 10 {
      FixedKeepsOrder(m / 10, n / 10, width - 1);
      LessExtends(a, b, [Digit(m % 10)], [Digit(n % 10)]);
    } else {
      TextLessPrefix(a, [Digit(m % 10)], [Digit(n % 10)]);
    }
  }

  lemma {:induction false} FixedLength(n: nat, base: nat, width: nat)
    requires 2 <= base <= 16
    ensures |Fixed(n, base, width)| == width
    ensures forall i :: 0 <= i < width ==> IsHex(Fixed(n, base, width)[i])
  {
    if width > 0 { FixedLength(n / base, base, width - 1); }
  }

  predicate IsHex(c: char) { '0' <= c <= '9' || 'a' <= c <= 'f' }

  /** Up to 9999 the aliases sort like their ordinals. */
  lemma PaddedKeepsOrder(m: nat, n: nat)
    requires m < n <= 9999
    ensures TextLess(Padded(m), Padded(n))
  {
    assert TenTo(PAD_WIDTH) == TenTo(4) == 10000;
    FixedKeepsOrder(m, n, PAD_WIDTH);
  }

  /** From 10000 on they do not. */
  lemma TenThousandSortsEarly()
    ensures TextLess(Padded(10000), Padded(9999))
  {
    assert Padded(10000) == "10000";
    assert Padded(9999) == Fixed(9999, 10, 4) == "9999";
  }

  /** The aliases of the ordinals 1 to k, in that order, behind a common prefix. */
  function Dense(prefix: string, k: nat): seq<string> {
    if k == 0 then [] else Dense(prefix, k - 1) + [prefix + Padded(k)]
  }

  lemma {:induction false} DenseAt(prefix: string, k: nat)
    ensures |Dense(prefix, k)| == k
    ensures forall i :: 0 <= i < k ==> Dense(prefix, k)[i] == prefix + Padded(i + 1)
  {
    if k > 0 { DenseAt(prefix, k - 1); }
  }

  /** The numeric list of k aliases is their lexical sort exactly while k has four digits. */
  lemma DenseIsSortedIff(prefix: string, k: nat)
    ensures Sorted(TextLe, Dense(prefix, k)) <==> k <= 9999
  {
    var s := Dense(prefix, k);
    DenseAt(prefix, k);
    if k <= 9999 {
      forall i, j | 0 <= i < j < k ensures TextLe(s[i], s[j]) {
        PaddedKeepsOrder(i + 1, j + 1);
        TextLessPrefix(prefix, Padded(i + 1), Padded(j + 1));
      }
    } else {
      TenThousandSortsEarly();
      TextLessPrefix(prefix, Padded(10000), Padded(9999));
      TextTrichotomy(s[9999], s[9998]);
      assert !TextLe(s[9998], s[9999]);
    }
  }

  /** Whatever order the k aliases come in, sorting them gives the numeric list exactly while k has four digits. */
  lemma SortedAliasesAreDenseIff(prefix: string, k: nat, aliases: seq<string>)
    requires multiset(aliases) == multiset(Dense(prefix, k))
    ensures Sort(TextLe, aliases) == Dense(prefix, k) <==> k <= 9999
  {
    DenseIsSortedIff(prefix, k);
    TextLeIsTotalOrder();
    SortSorts(TextLe, aliases);
    if k <= 9999 {
      assert Antisymmetric(TextLe, aliases);
      SortIgnoresOrder(TextLe, aliases, Dense(prefix, k));
      SortOfSorted(TextLe, Dense(prefix, k));
    }
  }
}
