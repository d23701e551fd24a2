/**
 * The grammar of profile subjects, their owners, and their redaction to
 * fixture-local aliases.
 */
module Subjects {
  import opened Sequences
  import opened Numbers
  import opened Sorting
  import opened Aliases

  datatype Kind = Root | Capability | Offering | Registration | Hosting | X25519

  const GENID := "/.well-known/genid/"
  const KEY := "#x25519-"
  const FIXTURE_KEY := "#fixture-x25519-"
  const AGENT := "did:dkg:agent:0x"
  const ROOT_DIGITS: nat := 40

  predicate IsDigit(c: char) { '0' <= c <= '9' }

  /** The pattern `[1-9][0-9]*`. */
  predicate IsOrdinal(s: string) {
    s != "" && s[0] != '0' && forall i :: 0 <= i < |s| ==> IsDigit(s[i])
  }

  /** The pattern `#x25519-[0-9a-f]{32}` at the end. */
  predicate EndsWithKey(s: string) {
    && |s| >= 40 && s[|s| - 40..|s| - 32] == KEY
    && forall i :: |s| - 32 <= i < |s| ==> IsHex(s[i])
  }

  predicate Numbered(prefix: string, subject: string) {
    prefix <= subject && IsOrdinal(subject[|prefix|..])
  }

  /** Lines 76 to 92. */
  function Classify(root: string, subject: string): Option<Kind> {
    if subject == root then Some(Root)
    else if Numbered(root + GENID + "cap", subject) then Some(Capability)
    else if Numbered(root + GENID + "offering", subject) then Some(Offering)
    else if subject == root + GENID + "registration" then Some(Registration)
    else if subject == root + GENID + "hosting" then Some(Hosting)
    else if root + KEY <= subject && EndsWithKey(subject) then Some(X25519)
    else None
  }

  /** The same grammar on what follows the root. */
  function BySuffix(suffix: string): Option<Kind> {
    if suffix == "" then Some(Root)
    else if Numbered(GENID + "cap", suffix) then Some(Capability)
    else if Numbered(GENID + "offering", suffix) then Some(Offering)
    else if suffix == GENID + "registration" then Some(Registration)
    else if suffix == GENID + "hosting" then Some(Hosting)
    else if KEY <= suffix && EndsWithKey(suffix) then Some(X25519)
    else None
  }

  lemma PrefixSplits(root: string, word: string, subject: string)
    ensures root + word <= subject <==> root <= subject && word <= subject[|root|..]
    ensures root + word <= subject ==> subject[|root + word|..] == subject[|root|..][|word|..]
  {
    if root <= subject && word <= subject[|root|..] {
      assert subject == root + subject[|root|..];
      assert subject[|root|..] == word + subject[|root|..][|word|..];
      assert subject == root + word + subject[|root|..][|word|..];
    }
    if root + word <= subject {
      assert subject == root + word + subject[|root + word|..];
      assert subject[..|root|] == root;
      assert subject[|root|..] == word + subject[|root + word|..];
    }
  }

  lemma EqualSplits(root: string, word: string, subject: string)
    ensures subject == root + word <==> root <= subject && subject[|root|..] == word
  {
    if root <= subject { assert subject == root + subject[|root|..]; }
  }

  lemma OnlyHash(s: string, i: nat)
    requires EndsWithKey(s) && |s| - 40 < i < |s|
    ensures s[i] != '#'
  {
    if i < |s| - 32 { assert s[i] == KEY[i - (|s| - 40)]; } else { assert IsHex(s[i]); }
  }

  lemma LongTail(root: string, suffix: string)
    requires |suffix| >= 40
    ensures EndsWithKey(root + suffix) <==> EndsWithKey(suffix)
  {
    var s := root + suffix;
    assert s[|s| - 40..|s| - 32] == suffix[|suffix| - 40..|suffix| - 32];
    if EndsWithKey(s) {
      forall i | |suffix| - 32 <= i < |suffix| ensures IsHex(suffix[i]) { assert IsHex(s[|root| + i]); }
    }
    if EndsWithKey(suffix) {
      forall i | |s| - 32 <= i < |s| ensures IsHex(s[i]) { assert IsHex(suffix[i - |root|]); }
    }
  }

  /** A key at the end cannot reach back into the root: its only `#` is its first character. */
  lemma KeyStaysInSuffix(root: string, suffix: string)
    requires KEY <= suffix
    ensures EndsWithKey(root + suffix) <==> EndsWithKey(suffix)
  {
    var s := root + suffix;
    assert s[|root|] == suffix[0] == '#';
    if |suffix| >= 40 {
      LongTail(root, suffix);
    } else if EndsWithKey(s) {
      OnlyHash(s, |root|);
    }
  }

  lemma NumberedSplits(root: string, word: string, subject: string)
    ensures Numbered(root + GENID + word, subject) <==> root <= subject && Numbered(GENID + word, subject[|root|..])
  {
    assert root + GENID + word == root + (GENID + word);
    PrefixSplits(root, GENID + word, subject);
  }

  lemma FixedSplits(root: string, word: string, subject: string)
    ensures subject == root + GENID + word <==> root <= subject && subject[|root|..] == GENID + word
  {
    assert root + GENID + word == root + (GENID + word);
    EqualSplits(root, GENID + word, subject);
  }

  lemma KeySplits(root: string, subject: string)
    ensures root + KEY <= subject && EndsWithKey(subject)
            <==> root <= subject && KEY <= subject[|root|..] && EndsWithKey(subject[|root|..])
  {
    PrefixSplits(root, KEY, subject);
    if root <= subject && KEY <= subject[|root|..] {
      assert subject == root + subject[|root|..];
      KeyStaysInSuffix(root, subject[|root|..]);
    }
  }

  lemma ClassifyBySuffix(root: string, subject: string)
    ensures Classify(root, subject) == if root <= subject then BySuffix(subject[|root|..]) else None
  {
    EqualSplits(root, "", subject);
    assert root + "" == root;
    NumberedSplits(root, "cap", subject);
    NumberedSplits(root, "offering", subject);
    FixedSplits(root, "registration", subject);
    FixedSplits(root, "hosting", subject);
    KeySplits(root, subject);
  }

  // ----- the grammar, told by what it generates

  lemma {:induction false} OrdinalIsDecimal(s: string)
    requires IsOrdinal(s)
    ensures Value(s, 10) >= 1 && Decimal(Value(s, 10)) == s
  {
    var n := |s| - 1;
    var front, last := s[..n], DigitValue(s[n]);
    assert IsDigit(s[0]) && IsDigit(s[n]) && Digit(last) == s[n];
    if n == 0 {
      assert front == "" && s == [s[0]];
    } else {
      forall i | 0 <= i < n ensures IsDigit(front[i]) { assert IsDigit(s[i]); }
      OrdinalIsDecimal(front);
      var v := Value(s, 10);
      assert v / 10 == Value(front, 10) && v % 10 == last;
      assert s == front + [s[n]];
    }
  }

  lemma {:induction false} DecimalIsOrdinal(n: nat)
    requires n >= 1
    ensures IsOrdinal(Decimal(n))
  {
    if n >= 10 {
      DecimalIsOrdinal(n / 10);
      var s := Decimal(n);
      forall i | 0 <= i < |s| ensures IsDigit(s[i]) { if i < |s| - 1 { assert s[i] == Decimal(n / 10)[i]; } }
    }
  }

  /** The prefix with a number from one on, in decimal. */
  ghost predicate Counts(prefix: string, s: string) { exists n: nat :: n >= 1 && s == prefix + Decimal(n) }

  ghost predicate EndsInKey(s: string) {
    exists front, hex :: SplitsAtKey(s, front, hex)
  }

  ghost predicate SplitsAtKey(s: string, front: string, hex: string) {
    s == front + KEY + hex && |hex| == 32 && forall i :: 0 <= i < 32 ==> '0' <= hex[i] <= '9' || 'a' <= hex[i] <= 'f'
  }

  /** What follows the root in a subject of the kind. */
  ghost predicate Spells(kind: Kind, suffix: string) {
    match kind
    case Root => suffix == ""
    case Capability => Counts("/.well-known/genid/cap", suffix)
    case Offering => Counts("/.well-known/genid/offering", suffix)
    case Registration => suffix == "/.well-known/genid/registration"
    case Hosting => suffix == "/.well-known/genid/hosting"
    case X25519 => "#x25519-" <= suffix && EndsInKey(suffix)
  }

  lemma NumberedSays(prefix: string, s: string)
    ensures Numbered(prefix, s) <==> Counts(prefix, s)
  {
    if Numbered(prefix, s) {
      var digits := s[|prefix|..];
      OrdinalIsDecimal(digits);
      assert s == prefix + digits;
    }
    if n: nat :| n >= 1 && s == prefix + Decimal(n) {
      DecimalIsOrdinal(n);
      assert s[|prefix|..] == Decimal(n);
    }
  }

  lemma KeySays(s: string)
    ensures EndsWithKey(s) <==> EndsInKey(s)
  {
    if EndsWithKey(s) {
      var k := |s| - 40;
      var front, hex := s[..k], s[k + 8..];
      forall i | 0 <= i < 32 ensures IsHex(hex[i]) { assert hex[i] == s[k + 8 + i]; }
      assert s == front + s[k..k + 8] + hex;
      assert SplitsAtKey(s, front, hex);
    }
    if front, hex :| SplitsAtKey(s, front, hex) {
      var k := |front|;
      assert |s| == k + 40 && s[k..k + 8] == KEY;
      forall i | |s| - 32 <= i < |s| ensures IsHex(s[i]) { assert s[i] == hex[i - (k + 8)]; }
    }
  }

  lemma GenidLetters(s: string)
    ensures Numbered(GENID + "cap", s) ==> |s| > 19 && s[19] == 'c'
    ensures Numbered(GENID + "offering", s) ==> |s| > 19 && s[19] == 'o'
    ensures (GENID + "registration")[19] == 'r' && (GENID + "hosting")[19] == 'h'
    ensures KEY <= s ==> s[0] == '#'
    ensures Numbered(GENID + "cap", s) || Numbered(GENID + "offering", s) ==> s[0] == '/'
    ensures (GENID + "registration")[0] == (GENID + "hosting")[0] == '/'
  {
    assert |GENID| == 19 && GENID[0] == '/';
    assert (GENID + "cap")[19] == 'c' && (GENID + "offering")[19] == 'o';
  }

  lemma SuffixSays(suffix: string, kind: Kind)
    ensures BySuffix(suffix) == Some(kind) <==> Spells(kind, suffix)
  {
    NumberedSays("/.well-known/genid/cap", suffix);
    NumberedSays("/.well-known/genid/offering", suffix);
    KeySays(suffix);
    GenidLetters(suffix);
    assert GENID + "cap" == "/.well-known/genid/cap" && GENID + "offering" == "/.well-known/genid/offering";
    assert GENID + "registration" == "/.well-known/genid/registration" && GENID + "hosting" == "/.well-known/genid/hosting";
  }

  /** A subject of a root is the root followed by one of the spellings, and its kind is that of the spelling. */
  lemma ClassifySays(root: string, subject: string, kind: Kind)
    ensures Classify(root, subject) == Some(kind) <==> root <= subject && Spells(kind, subject[|root|..])
  {
    ClassifyBySuffix(root, subject);
    if root <= subject { SuffixSays(subject[|root|..], kind); }
  }

  // ----- owners

  /** The pattern `did:dkg:agent:0x[0-9a-f]{40}`. */
  predicate CanonicalRoot(root: string) {
    |root| == 56 && AGENT <= root && forall i :: 16 <= i < 56 ==> IsHex(root[i])
  }

  predicate Owns(root: string, subject: string) { Classify(root, subject).Some? }

  /** Lines 191 to 196. */
  method FindOwner(roots: seq<string>, subject: string) returns (owner: Option<string>)
    ensures owner.None? <==> forall i :: 0 <= i < |roots| ==> !Owns(roots[i], subject)
    ensures owner.Some? ==> exists i :: 0 <= i < |roots| && roots[i] == owner.value && Owns(roots[i], subject)
                                        && forall j :: 0 <= j < i ==> !Owns(roots[j], subject)
  {
    for i := 0 to |roots|
      invariant forall j :: 0 <= j < i ==> !Owns(roots[j], subject)
    {
      if Owns(roots[i], subject) { return Some(roots[i]); }
    }
    return None;
  }

  /** Among canonical wallet roots a subject has one owner at most, so the order of the roots does not matter. */
  lemma CanonicalOwnerIsUnique(a: string, b: string, subject: string)
    requires CanonicalRoot(a) && CanonicalRoot(b) && Owns(a, subject) && Owns(b, subject)
    ensures a == b == subject[..56]
  {
    ClassifyBySuffix(a, subject);
    ClassifyBySuffix(b, subject);
  }

  /** One root lies in the other's way: it is one of its subjects, or looks like the start of one of its keys. */
  predicate InTheWay(root: string, other: string) {
    Owns(root, other) || root + KEY <= other
  }

  const ZERO_KEY := KEY + "00000000000000000000000000000000"

  /** Two roots share a subject exactly when one lies in the other's way. */
  lemma OwnersClashIff(a: string, b: string)
    requires a != b
    ensures (exists subject :: Owns(a, subject) && Owns(b, subject)) <==> InTheWay(a, b) || InTheWay(b, a)
  {
    if InTheWay(a, b) { var subject := SharedSubject(a, b); }
    if InTheWay(b, a) { var subject := SharedSubject(b, a); }
    if subject :| Owns(a, subject) && Owns(b, subject) {
      if |a| <= |b| { OrderedOwners(a, b, subject); } else { OrderedOwners(b, a, subject); }
    }
  }

  /** Roots that are not canonical can share a subject. */
  lemma LegacyRootsCanClash(root: string)
    ensures exists subject :: Owns(root, subject) && Owns(root + KEY, subject)
  {
    assert |root + KEY| == |root| + 8;
    OwnersClashIff(root, root + KEY);
  }

  lemma SharedSubject(a: string, b: string) returns (subject: string)
    requires InTheWay(a, b)
    ensures Owns(a, subject) && Owns(b, subject)
  {
    if Owns(a, b) {
      subject := b;
    } else {
      subject := b + ZERO_KEY;
      ZeroKeyIsKey(b);
      ClassifyBySuffix(b, subject);
      KeyIsOwned(a, subject);
    }
  }

  lemma KeyIsOwned(root: string, subject: string)
    requires root + KEY <= subject && EndsWithKey(subject)
    ensures Owns(root, subject)
  {
  }

  lemma ZeroKeyIsKey(root: string)
    ensures EndsWithKey(root + ZERO_KEY) && (root + ZERO_KEY)[|root|..] == ZERO_KEY && BySuffix(ZERO_KEY) == Some(X25519)
  {
    var s := root + ZERO_KEY;
    assert |ZERO_KEY| == 40 && ZERO_KEY[..8] == KEY;
    assert s[|s| - 40..|s| - 32] == ZERO_KEY[..8];
    assert forall i :: |s| - 32 <= i < |s| ==> s[i] == '0';
    NoGenid(ZERO_KEY);
  }

  lemma NoGenid(suffix: string)
    requires KEY <= suffix && EndsWithKey(suffix)
    ensures BySuffix(suffix) == Some(X25519)
  {
    assert suffix[0] == '#';
    assert (GENID + "cap")[0] == (GENID + "offering")[0] == '/';
    assert (GENID + "registration")[0] == (GENID + "hosting")[0] == '/';
  }

  ghost predicate AllDigits(s: string) { forall i :: 0 <= i < |s| ==> IsDigit(s[i]) }

  ghost predicate AllLower(s: string) { forall i :: 0 <= i < |s| ==> 'a' <= s[i] <= 'z' }

  lemma GenidMarks(i: nat)
    requires i < 19
    ensures |GENID| == 19 && GENID[0] == '/' && GENID[1] == '.' && GENID[13] == 'g'
    ensures GENID[i] != '#' && (GENID[i] == '/' ==> i == 0 || i == 12 || i == 18)
  {
  }

  /** What follows a root, unless it is a key: a fixed path, a word, and then digits only. */
  lemma WordOf(suffix: string) returns (word: string)
    requires suffix != "" && BySuffix(suffix).Some? && BySuffix(suffix) != Some(X25519)
    ensures word != "" && AllLower(word) && GENID + word <= suffix && AllDigits(suffix[|GENID + word|..])
  {
    var kind := BySuffix(suffix).value;
    word := match kind case Capability => "cap" case Offering => "offering" case Registration => "registration" case _ => "hosting";
  }

  /** Where the characters `/` and `#` can stand in what follows a root. */
  lemma Landmarks(suffix: string, i: nat)
    requires suffix != "" && BySuffix(suffix).Some? && BySuffix(suffix) != Some(X25519) && i < |suffix|
    ensures |suffix| > 19 && suffix[0] == '/' && suffix[1] == '.' && suffix[13] == 'g' && suffix[19] != '.'
    ensures suffix[i] != '#' && (suffix[i] == '/' ==> i == 0 || i == 12 || i == 18)
  {
    var word := WordOf(suffix);
    GenidMarks(0);
    assert suffix == GENID + word + suffix[|GENID + word|..];
    assert suffix[19] == word[0];
    if i < 19 {
      GenidMarks(i);
    } else if i < 19 + |word| {
      assert suffix[i] == word[i - 19];
    } else {
      assert IsDigit(suffix[|GENID + word|..][i - 19 - |word|]);
    }
  }

  lemma KeyHead(suffix: string)
    requires BySuffix(suffix) == Some(X25519)
    ensures KEY <= suffix
  {
  }

  lemma StartsWithMark(u: string)
    requires u != "" && BySuffix(u).Some?
    ensures |u| > 1 && (u[0] == '#' || (u[0] == '/' && u[1] == '.'))
  {
    if BySuffix(u) == Some(X25519) { KeyHead(u); } else { Landmarks(u, 0); }
  }

  /** Only a key can hold another suffix inside it. */
  lemma OnlyKeysNest(t: string, u: string)
    requires t != "" && u != "" && BySuffix(t + u).Some? && BySuffix(u).Some?
    ensures BySuffix(t + u) == Some(X25519)
  {
    StartsWithMark(u);
    var s := t + u;
    assert s[|t|] == u[0] && s[|t| + 1] == u[1];
    if BySuffix(s) != Some(X25519) { Landmarks(s, |t|); }
  }

  lemma KeyMarks(i: nat)
    requires 0 < i < 8
    ensures |KEY| == 8 && KEY[i] != '#' && KEY[i] != '/'
  {
  }

  lemma KeyCrosses(t: string, u: string)
    requires KEY <= t + u && t != "" && u != "" && (u[0] == '#' || u[0] == '/')
    ensures KEY <= t
  {
    assert (t + u)[|t|] == u[0];
    if |t| < 8 {
      KeyMarks(|t|);
      assert false;
    }
    assert (t + u)[..8] == t[..8];
  }

  lemma PrefixOfAppend(a: string, t: string)
    requires KEY <= t
    ensures a + KEY <= a + t
  {
    assert a + t == a + KEY + t[8..];
  }

  lemma NestedOwners(a: string, t: string, u: string)
    requires t != "" && BySuffix(t + u).Some? && BySuffix(u).Some?
    ensures InTheWay(a, a + t)
  {
    if u == "" {
      assert t + u == t && (a + t)[|a|..] == t;
      ClassifyBySuffix(a, a + t);
    } else {
      OnlyKeysNest(t, u);
      KeyHead(t + u);
      StartsWithMark(u);
      KeyCrosses(t, u);
      PrefixOfAppend(a, t);
    }
  }

  lemma Pieces(a: string, b: string, subject: string)
    requires a <= subject && b <= subject && |a| <= |b|
    ensures b == a + subject[|a|..|b|] && subject[|a|..] == subject[|a|..|b|] + subject[|b|..]
  {
    assert subject[..|a|] == a && subject[..|b|] == b;
  }

  lemma OrderedOwners(a: string, b: string, subject: string)
    requires a != b && |a| <= |b| && Owns(a, subject) && Owns(b, subject)
    ensures InTheWay(a, b)
  {
    ClassifyBySuffix(a, subject);
    ClassifyBySuffix(b, subject);
    Pieces(a, b, subject);
    NestedOwners(a, subject[|a|..|b|], subject[|b|..]);
  }

  // ----- redaction

  /** The redacted root with the given ordinal, `did:dkg:agent:0x` and forty hexadecimal digits. */
  function RootAlias(ordinal: nat): string { AGENT + Fixed(ordinal, 16, ROOT_DIGITS) }

  lemma RootAliasIsCanonical(ordinal: nat)
    ensures CanonicalRoot(RootAlias(ordinal))
  {
    FixedLength(ordinal, 16, ROOT_DIGITS);
    var root := RootAlias(ordinal);
    forall i | 16 <= i < 56 ensures IsHex(root[i]) { assert root[i] == Fixed(ordinal, 16, ROOT_DIGITS)[i - 16]; }
  }

  function KeyAlias(root: string, ordinal: nat): string { root + FIXTURE_KEY + Padded(ordinal) }

  /** How many digits a text ends with. */
  function TrailingDigits(s: string): (n: nat)
    ensures n <= |s|
  {
    if s == "" || !IsDigit(s[|s| - 1]) then 0 else TrailingDigits(s[..|s| - 1]) + 1
  }

  /** A canonical fixture alias at the end: the pattern `#fixture-x25519-([0-9]{4,})`, read back and written again. */
  predicate EndsWithFixture(s: string) {
    var d := TrailingDigits(s);
    var digits := s[|s| - d..];
    var n := Value(digits, 10);
    && 1 <= n <= MAX_SAFE_INTEGER && digits == Padded(n)
    && |s| >= d + 16 && s[|s| - d - 16..|s| - d] == FIXTURE_KEY
  }

  lemma {:induction false} TrailingDigitsOf(head: string, digits: string)
    requires AllDigits(digits) && (head == "" || !IsDigit(head[|head| - 1]))
    ensures TrailingDigits(head + digits) == |digits|
  {
    if digits == "" {
      assert head + digits == head;
    } else {
      var n := |digits| - 1;
      TrailingDigitsOf(head, digits[..n]);
      assert (head + digits)[..|head| + n] == head + digits[..n];
    }
  }

  lemma {:induction false} FixedIsDigits(n: nat, width: nat)
    ensures AllDigits(Fixed(n, 10, width))
  {
    if width > 0 { FixedIsDigits(n / 10, width - 1); }
  }

  lemma {:induction false} DecimalIsDigits(n: nat)
    ensures AllDigits(Decimal(n))
  {
    if n >= 10 { DecimalIsDigits(n / 10); }
  }

  lemma PaddedIsDigits(n: nat)
    ensures AllDigits(Padded(n))
  {
    if n < 10000 { FixedIsDigits(n, PAD_WIDTH); } else { DecimalIsDigits(n); }
  }

  lemma FixtureEnds(n: nat)
    requires 1 <= n <= MAX_SAFE_INTEGER
    ensures EndsWithFixture(FIXTURE_KEY + Padded(n))
  {
    var s := FIXTURE_KEY + Padded(n);
    PaddedIsDigits(n);
    assert |FIXTURE_KEY| == 16 && FIXTURE_KEY[15] == '-';
    TrailingDigitsOf(FIXTURE_KEY, Padded(n));
    PaddedRoundTrip(n);
    assert s[|s| - |Padded(n)|..] == Padded(n) && s[|s| - |Padded(n)| - 16..|s| - |Padded(n)|] == FIXTURE_KEY;
  }

  /** Lines 94 to 103 and 131 to 140. */
  function ClassifyRedacted(root: string, subject: string): Option<Kind> {
    var kind := Classify(root, subject);
    if CanonicalRoot(root) && kind.Some? && kind != Some(X25519) then kind
    else if root + FIXTURE_KEY <= subject && EndsWithFixture(subject[|root|..]) then Some(X25519)
    else None
  }

  /** The alias of a subject, given the distinct keys in the order in which they were first met. */
  function Redacted(root: string, alias: string, keys: seq<string>, subject: string): string
    requires Owns(root, subject)
  {
    match Classify(root, subject).value
    case Root => alias
    case X25519 => KeyAlias(alias, IndexOf(keys, subject) + 1)
    case _ => (ClassifyBySuffix(root, subject); alias + subject[|root|..])
  }

  /** Redaction keeps the kind of every subject. */
  lemma RedactionKeepsKind(root: string, alias: string, keys: seq<string>, subject: string)
    requires CanonicalRoot(alias) && Owns(root, subject)
    requires Classify(root, subject) == Some(X25519) ==> IndexOf(keys, subject) < MAX_SAFE_INTEGER
    ensures ClassifyRedacted(alias, Redacted(root, alias, keys, subject)) == Classify(root, subject)
  {
    ClassifyBySuffix(root, subject);
    var r := Redacted(root, alias, keys, subject);
    if Classify(root, subject) == Some(X25519) {
      KeyAliasKind(alias, IndexOf(keys, subject) + 1);
    } else if subject != root {
      assert alias <= r && r[|alias|..] == subject[|root|..];
      ClassifyBySuffix(alias, r);
    }
  }

  lemma KeyAliasKind(alias: string, n: nat)
    requires 1 <= n <= MAX_SAFE_INTEGER && CanonicalRoot(alias)
    ensures ClassifyRedacted(alias, KeyAlias(alias, n)) == Some(X25519)
  {
    var r := KeyAlias(alias, n);
    var suffix := FIXTURE_KEY + Padded(n);
    assert r == alias + suffix && r[|alias|..] == suffix;
    ClassifyBySuffix(alias, r);
    FixtureIsNoSourceSuffix(Padded(n));
    FixtureEnds(n);
  }

  lemma FixtureIsNoSourceSuffix(rest: string)
    ensures BySuffix(FIXTURE_KEY + rest).None?
  {
    var s := FIXTURE_KEY + rest;
    assert s[0] == '#' && s[1] == 'f' && KEY[1] == 'x';
    if BySuffix(s).Some? {
      if BySuffix(s) == Some(X25519) { KeyHead(s); } else { Landmarks(s, 0); }
    }
  }

  lemma OwnedHasRoot(root: string, subject: string)
    requires Owns(root, subject)
    ensures root <= subject
  {
    ClassifyBySuffix(root, subject);
  }

  /** A key gets an ordinal; anything else keeps what follows the root. */
  lemma RedactedForm(root: string, alias: string, keys: seq<string>, s: string)
    requires Owns(root, s)
    ensures root <= s
    ensures Classify(root, s) == Some(X25519) ==> Redacted(root, alias, keys, s) == KeyAlias(alias, IndexOf(keys, s) + 1)
    ensures Classify(root, s) != Some(X25519) ==> Redacted(root, alias, keys, s) == alias + s[|root|..]
  {
    OwnedHasRoot(root, s);
    if Classify(root, s) == Some(Root) { RootKind(root, s); }
  }

  lemma RootKind(root: string, s: string)
    requires Classify(root, s) == Some(Root)
    ensures s == root && s[|root|..] == "" && forall alias: string :: alias + s[|root|..] == alias
  {
  }

  lemma SameKeyAlias(alias: string, keys: seq<string>, a: string, b: string)
    requires a in keys && b in keys && KeyAlias(alias, IndexOf(keys, a) + 1) == KeyAlias(alias, IndexOf(keys, b) + 1)
    ensures a == b
  {
    KeyAliasIsInjective(alias, IndexOf(keys, a) + 1, IndexOf(keys, b) + 1);
    IndexOfFinds(keys, a);
    IndexOfFinds(keys, b);
  }

  lemma SameRest(root: string, alias: string, a: string, b: string)
    requires root <= a && root <= b && alias + a[|root|..] == alias + b[|root|..]
    ensures a == b
  {
    SuffixOf(alias, a[|root|..], b[|root|..]);
    assert a == root + a[|root|..] && b == root + b[|root|..];
  }

  lemma KeyInRange(keys: seq<string>, s: string)
    requires s in keys && |keys| <= MAX_SAFE_INTEGER
    ensures IndexOf(keys, s) < MAX_SAFE_INTEGER
  {
    IndexOfFinds(keys, s);
  }

  /** Different subjects get different aliases. */
  lemma RedactionIsInjective(root: string, alias: string, keys: seq<string>, a: string, b: string)
    requires CanonicalRoot(alias) && Owns(root, a) && Owns(root, b) && |keys| <= MAX_SAFE_INTEGER
    requires Classify(root, a) == Some(X25519) ==> a in keys
    requires Classify(root, b) == Some(X25519) ==> b in keys
    requires Redacted(root, alias, keys, a) == Redacted(root, alias, keys, b)
    ensures a == b
  {
    if a in keys { KeyInRange(keys, a); }
    if b in keys { KeyInRange(keys, b); }
    RedactionKeepsKind(root, alias, keys, a);
    RedactionKeepsKind(root, alias, keys, b);
    RedactedForm(root, alias, keys, a);
    RedactedForm(root, alias, keys, b);
    if Classify(root, a) == Some(X25519) { SameKeyAlias(alias, keys, a, b); } else { SameRest(root, alias, a, b); }
  }

  lemma SuffixOf(alias: string, a: string, b: string)
    requires alias + a == alias + b
    ensures a == b
  {
    assert (alias + a)[|alias|..] == a && (alias + b)[|alias|..] == b;
  }

  lemma KeyAliasIsInjective(alias: string, m: nat, n: nat)
    requires KeyAlias(alias, m) == KeyAlias(alias, n)
    ensures m == n
  {
    SuffixOf(alias + FIXTURE_KEY, Padded(m), Padded(n));
    PaddedRoundTrip(m);
    PaddedRoundTrip(n);
  }

  type Classifier = string -> Option<Kind>

  function KindIn(root: string): Classifier { (subject: string) => Classify(root, subject) }

  predicate IsKey(kind: Classifier, s: string) { kind(s) == Some(X25519) }

  /** The keys of a list, each once and in the order in which they are first met. */
  function KeysAmong(kind: Classifier, names: seq<string>): seq<string> {
    if names == [] then [] else WithKey(kind, KeysAmong(kind, names[..|names| - 1]), names[|names| - 1])
  }

  function WithKey(kind: Classifier, keys: seq<string>, s: string): seq<string> {
    if IsKey(kind, s) && s !in keys then keys + [s] else keys
  }

  lemma {:induction false} KeysAmongMeaning(kind: Classifier, names: seq<string>)
    ensures Distinct(KeysAmong(kind, names))
    ensures forall s :: s in KeysAmong(kind, names) <==> s in names && IsKey(kind, s)
  {
    if names != [] {
      KeysAmongMeaning(kind, names[..|names| - 1]);
      assert names == names[..|names| - 1] + [names[|names| - 1]];
    }
  }

  function Keys(root: string, requests: seq<string>): seq<string> { KeysAmong(KindIn(root), requests) }

  lemma KeysMeaning(root: string, requests: seq<string>)
    ensures Distinct(Keys(root, requests))
    ensures forall key :: key in Keys(root, requests) <==> key in requests && Classify(root, key) == Some(X25519)
  {
    KeysAmongMeaning(KindIn(root), requests);
  }

  lemma KeyAliasAt(root: string, alias: string, keys: seq<string>, i: nat)
    requires Distinct(keys) && i < |keys| && Classify(root, keys[i]) == Some(X25519)
    ensures Redacted(root, alias, keys, keys[i]) == alias + FIXTURE_KEY + Padded(i + 1)
  {
    IndexOfAt(keys, i);
    RedactedForm(root, alias, keys, keys[i]);
  }

  /** The alias of a subject, and nothing for what is not one. */
  function AliasIn(root: string, alias: string, keys: seq<string>): string -> string {
    (s: string) => if Owns(root, s) then Redacted(root, alias, keys, s) else ""
  }

  /** The keys get the aliases 1 to k, each once, in the order in which they are first met. */
  lemma KeyAliasesAreDense(root: string, alias: string, requests: seq<string>)
    ensures forall i :: 0 <= i < |Keys(root, requests)| ==> Owns(root, Keys(root, requests)[i])
    ensures var keys := Keys(root, requests); Map(AliasIn(root, alias, keys), keys) == Dense(alias + FIXTURE_KEY, |keys|)
  {
    var keys := Keys(root, requests);
    var redact := AliasIn(root, alias, keys);
    KeysMeaning(root, requests);
    DenseAt(alias + FIXTURE_KEY, |keys|);
    forall i | 0 <= i < |keys| ensures Owns(root, keys[i]) && Map(redact, keys)[i] == alias + FIXTURE_KEY + Padded(i + 1) {
      assert keys[i] in keys;
      KeyAliasAt(root, alias, keys, i);
    }
  }

  // ----- the cache

  /** The cache holds the alias of every subject asked for. */
  ghost predicate Caches(root: string, alias: string, subjects: map<string, string>, requests: seq<string>) {
    && (forall s :: s in subjects <==> s in requests)
    && (forall s :: s in subjects ==> Cached(root, alias, subjects, requests, s))
  }

  ghost predicate Cached(root: string, alias: string, subjects: map<string, string>, requests: seq<string>, s: string)
    requires s in subjects
  {
    Owns(root, s) && subjects[s] == Redacted(root, alias, Keys(root, requests), s)
  }

  lemma KeysAfter(root: string, requests: seq<string>, subject: string)
    ensures Keys(root, requests + [subject]) ==
            if Classify(root, subject) == Some(X25519) && subject !in requests then Keys(root, requests) + [subject]
            else Keys(root, requests)
  {
    KeysMeaning(root, requests);
    assert (requests + [subject])[..|requests|] == requests;
  }

  lemma KeyIndexStays(root: string, requests: seq<string>, subject: string, key: string)
    requires key in Keys(root, requests)
    ensures IndexOf(Keys(root, requests + [subject]), key) == IndexOf(Keys(root, requests), key)
  {
    KeysAfter(root, requests, subject);
    IndexOfStays(Keys(root, requests), [subject], key);
  }

  lemma IndexGivesAlias(root: string, alias: string, a: seq<string>, b: seq<string>, s: string)
    requires Owns(root, s) && (Classify(root, s) == Some(X25519) ==> IndexOf(a, s) == IndexOf(b, s))
    ensures Redacted(root, alias, a, s) == Redacted(root, alias, b, s)
  {
  }

  /** What a subject got stays what it is, whatever is asked for later. */
  lemma AliasStays(root: string, alias: string, requests: seq<string>, subject: string, s: string)
    requires Owns(root, s) && s in requests
    ensures Redacted(root, alias, Keys(root, requests + [subject]), s) == Redacted(root, alias, Keys(root, requests), s)
  {
    KeysMeaning(root, requests);
    if s in Keys(root, requests) { KeyIndexStays(root, requests, subject, s); }
    IndexGivesAlias(root, alias, Keys(root, requests + [subject]), Keys(root, requests), s);
  }

  lemma CacheGrows(root: string, alias: string, subjects: map<string, string>, requests: seq<string>, subject: string, r: string)
    requires Caches(root, alias, subjects, requests) && Owns(root, subject)
    requires subject in subjects ==> subjects[subject] == r
    requires r == Redacted(root, alias, Keys(root, requests + [subject]), subject)
    ensures Caches(root, alias, subjects[subject := r], requests + [subject])
  {
    var after := subjects[subject := r];
    forall s | s in after ensures Cached(root, alias, after, requests + [subject], s) {
      if s != subject {
        assert Cached(root, alias, subjects, requests, s);
        AliasStays(root, alias, requests, subject, s);
      }
    }
  }

  lemma NewKeyIndex(root: string, requests: seq<string>, subject: string)
    requires Classify(root, subject) == Some(X25519) && subject !in requests
    ensures IndexOf(Keys(root, requests + [subject]), subject) == |Keys(root, requests)|
  {
    KeysAfter(root, requests, subject);
    KeysMeaning(root, requests);
    IndexOfNew(Keys(root, requests), subject);
  }

  class Redactor {
    const root: string
    const alias: string
    var subjects: map<string, string>
    var x25519Ordinal: nat
    ghost var requests: seq<string>

    ghost predicate Valid()
      reads this
    {
      x25519Ordinal == |Keys(root, requests)| && Caches(root, alias, subjects, requests)
    }

    constructor (root: string, alias: string)
      ensures Valid() && requests == [] && this.root == root && this.alias == alias
    {
      this.root, this.alias, subjects, x25519Ordinal, requests := root, alias, map[], 0, [];
    }

    /** Lines 240 to 249 of extract-rdf.ts, with lines 199 to 215; a subject outside the grammar is refused. */
    method Redact(subject: string) returns (r: Option<string>)
      requires Valid()
      modifies this
      ensures Valid() && (r.Some? <==> Owns(root, subject))
      ensures requests == if r.Some? then old(requests) + [subject] else old(requests)
      ensures subjects == if r.Some? then old(subjects)[subject := r.value] else old(subjects)
      ensures r.Some? ==> r.value == Redacted(root, alias, Keys(root, requests), subject)
      ensures subject in old(subjects) ==> r == Some(old(subjects)[subject])
    {
      var kind := Classify(root, subject);
      if kind.None? { return None; }
      KeysAfter(root, requests, subject);
      if subject in subjects {
        assert Cached(root, alias, subjects, requests, subject);
        AliasStays(root, alias, requests, subject, subject);
        CacheGrows(root, alias, subjects, requests, subject, subjects[subject]);
        assert subjects[subject := subjects[subject]] == subjects;
        requests := requests + [subject];
        return Some(subjects[subject]);
      }
      var redacted := alias;
      if kind == Some(X25519) {
        NewKeyIndex(root, requests, subject);
        x25519Ordinal := x25519Ordinal + 1;
        redacted := KeyAlias(alias, x25519Ordinal);
      } else if kind != Some(Root) {
        ClassifyBySuffix(root, subject);
        redacted := alias + subject[|root|..];
      }
      CacheGrows(root, alias, subjects, requests, subject, redacted);
      subjects := subjects[subject := redacted];
      requests := requests + [subject];
      return Some(redacted);
    }
  }
}
