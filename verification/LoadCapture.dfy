/**
 * Load captures: paired one-minute intervals bound by digests to a trusted
 * expectation.
 *
 * Timestamps are milliseconds. The digests and the two identifier grammars are
 * parameters; a digest always has the digest format, so the format checks on
 * values that must equal a digest are left to those equalities.
 */
module LoadCapture {
  import opened Sequences
  import opened SystemLimits

  const INTERVAL_MS := 60_000

  type Digest = string

  datatype Measures = Measures(
    cold: bool, servicedRecords: int, servicedClosureBytes: int, arrivedRecords: int, arrivedClosureBytes: int,
    requesterExactRequests: int, providerExactRequests: int, backlogDeltaRecords: int)

  datatype Interval = Interval(
    ordinal: int, startedAt: int, endedAt: int, requesterDigest: Digest, providerDigest: Digest, measures: Measures)

  datatype Capture = Capture(
    captureId: string, requesterSource: string, providerSource: string, intervals: seq<Interval>, captureDigest: Digest)

  datatype Expectation = Expectation(
    captureId: string, requesterSource: string, providerSource: string, startedAt: int, endedAt: int,
    requesterDigests: seq<Digest>, providerDigests: seq<Digest>)

  /** What each endpoint's digest covers. */
  datatype Sample =
    | RequesterSample(
        captureId: string, source: string, ordinal: int, startedAt: int, endedAt: int, cold: bool,
        servicedRecords: int, servicedClosureBytes: int, arrivedRecords: int, arrivedClosureBytes: int,
        requesterExactRequests: int, backlogDeltaRecords: int)
    | ProviderSample(
        captureId: string, source: string, ordinal: int, startedAt: int, endedAt: int, providerExactRequests: int)

  datatype Rules = Rules(
    goodCaptureId: string -> bool, goodSource: string -> bool,
    sampleDigest: Sample -> Digest,
    captureDigest: (string, string, string, seq<Interval>) -> Digest)

  function RequesterSampleOf(id: string, source: string, i: Interval): Sample {
    var m := i.measures;
    RequesterSample(id, source, i.ordinal, i.startedAt, i.endedAt, m.cold, m.servicedRecords, m.servicedClosureBytes,
                    m.arrivedRecords, m.arrivedClosureBytes, m.requesterExactRequests, m.backlogDeltaRecords)
  }

  function ProviderSampleOf(id: string, source: string, i: Interval): Sample {
    ProviderSample(id, source, i.ordinal, i.startedAt, i.endedAt, i.measures.providerExactRequests)
  }

  // ----- acceptance

  predicate SameIdentity(c: Capture, e: Expectation) {
    c.captureId == e.captureId && c.requesterSource == e.requesterSource && c.providerSource == e.providerSource
  }

  ghost predicate GoodExpectation(rules: Rules, e: Expectation) {
    && rules.goodCaptureId(e.captureId) && rules.goodSource(e.requesterSource) && rules.goodSource(e.providerSource)
    && |e.requesterDigests| <= MAXIMUM_LOAD_INTERVALS && |e.providerDigests| <= MAXIMUM_LOAD_INTERVALS
    && Distinct(e.requesterDigests) && Distinct(e.providerDigests)
    && e.startedAt < e.endedAt
  }

  /** The digests of interval i bind its contents and are the trusted ones. */
  predicate Bound(rules: Rules, c: Capture, e: Expectation, i: nat)
    requires i < |c.intervals| == |e.requesterDigests| == |e.providerDigests|
  {
    var it := c.intervals[i];
    && it.ordinal == i
    && it.requesterDigest == rules.sampleDigest(RequesterSampleOf(c.captureId, c.requesterSource, it))
    && it.providerDigest == rules.sampleDigest(ProviderSampleOf(c.captureId, c.providerSource, it))
    && it.requesterDigest == e.requesterDigests[i] && it.providerDigest == e.providerDigests[i]
  }

  /** The same, with what each digest covers written out. */
  ghost predicate Binds(rules: Rules, c: Capture, e: Expectation, i: nat)
    requires i < |c.intervals| == |e.requesterDigests| == |e.providerDigests|
  {
    var it, m := c.intervals[i], c.intervals[i].measures;
    && it.ordinal == i
    && it.requesterDigest == e.requesterDigests[i] == rules.sampleDigest(RequesterSample(
         captureId := c.captureId, source := c.requesterSource, ordinal := i, startedAt := it.startedAt, endedAt := it.endedAt,
         cold := m.cold, servicedRecords := m.servicedRecords, servicedClosureBytes := m.servicedClosureBytes,
         arrivedRecords := m.arrivedRecords, arrivedClosureBytes := m.arrivedClosureBytes,
         requesterExactRequests := m.requesterExactRequests, backlogDeltaRecords := m.backlogDeltaRecords))
    && it.providerDigest == e.providerDigests[i] == rules.sampleDigest(ProviderSample(
         captureId := c.captureId, source := c.providerSource, ordinal := i, startedAt := it.startedAt, endedAt := it.endedAt,
         providerExactRequests := m.providerExactRequests))
  }

  lemma BoundIff(rules: Rules, c: Capture, e: Expectation, i: nat)
    requires i < |c.intervals| == |e.requesterDigests| == |e.providerDigests|
    ensures Bound(rules, c, e, i) <==> Binds(rules, c, e, i)
  {
  }

  /** One minute, right after the previous one. */
  predicate InPlace(c: Capture, i: nat)
    requires i < |c.intervals|
  {
    && c.intervals[i].endedAt - c.intervals[i].startedAt == INTERVAL_MS
    && (i > 0 ==> c.intervals[i].startedAt == c.intervals[i - 1].endedAt)
  }

  ghost predicate FreshDigests(c: Capture, n: nat)
    requires n <= |c.intervals|
  {
    forall i, j :: 0 <= i < j < n ==>
      c.intervals[i].requesterDigest != c.intervals[j].requesterDigest &&
      c.intervals[i].providerDigest != c.intervals[j].providerDigest
  }

  ghost predicate Accepts(rules: Rules, c: Capture, e: Expectation) {
    && GoodExpectation(rules, e)
    && c.captureId == e.captureId && c.requesterSource == e.requesterSource && c.providerSource == e.providerSource
    && 0 < |c.intervals| == |e.requesterDigests| == |e.providerDigests|
    && (forall i :: 0 <= i < |c.intervals| ==> Binds(rules, c, e, i))
    && (forall i :: 0 <= i < |c.intervals| ==> c.intervals[i].endedAt == c.intervals[i].startedAt + INTERVAL_MS)
    && (forall i :: 0 < i < |c.intervals| ==> c.intervals[i].startedAt == c.intervals[i - 1].endedAt)
    && FreshDigests(c, |c.intervals|)
    && c.intervals[0].startedAt == e.startedAt
    && c.intervals[|c.intervals| - 1].endedAt == e.endedAt
    && c.captureDigest == rules.captureDigest(c.captureId, c.requesterSource, c.providerSource, c.intervals)
  }

  /** The same, as the pass over the intervals checks it. */
  ghost predicate Passes(rules: Rules, c: Capture, e: Expectation) {
    && GoodExpectation(rules, e) && SameIdentity(c, e)
    && 0 < |c.intervals| == |e.requesterDigests| == |e.providerDigests|
    && (forall i :: 0 <= i < |c.intervals| ==> Bound(rules, c, e, i) && InPlace(c, i))
    && FreshDigests(c, |c.intervals|)
    && c.intervals[0].startedAt == e.startedAt
    && c.intervals[|c.intervals| - 1].endedAt == e.endedAt
    && c.captureDigest == rules.captureDigest(c.captureId, c.requesterSource, c.providerSource, c.intervals)
  }

  lemma PassesIff(rules: Rules, c: Capture, e: Expectation)
    ensures Passes(rules, c, e) <==> Accepts(rules, c, e)
  {
    if |c.intervals| == |e.requesterDigests| == |e.providerDigests| {
      forall i | 0 <= i < |c.intervals| ensures Bound(rules, c, e, i) <==> Binds(rules, c, e, i) { BoundIff(rules, c, e, i); }
      if Passes(rules, c, e) {
        forall i | 0 <= i < |c.intervals| ensures Binds(rules, c, e, i) { assert Bound(rules, c, e, i); }
        forall i | 0 <= i < |c.intervals|
          ensures c.intervals[i].endedAt == c.intervals[i].startedAt + INTERVAL_MS
          ensures i > 0 ==> c.intervals[i].startedAt == c.intervals[i - 1].endedAt
        {
          assert InPlace(c, i);
        }
      }
      if Accepts(rules, c, e) {
        forall i | 0 <= i < |c.intervals| ensures Bound(rules, c, e, i) && InPlace(c, i) { assert Binds(rules, c, e, i); }
      }
    }
  }

  method RepeatsDigest(digests: seq<Digest>) returns (repeats: bool)
    ensures repeats <==> !Distinct(digests)
  {
    var seen := Elements(digests);
    ElementsAtMost(digests);
    if |seen| == |digests| { SameSizeIsDistinct(digests); } else if Distinct(digests) { DistinctCardinality(digests); }
    return |seen| != |digests|;
  }

  lemma {:induction false} SameSizeIsDistinct(s: seq<Digest>)
    requires |Elements(s)| == |s|
    ensures Distinct(s)
  {
    if s != [] {
      var front, last := s[..|s| - 1], s[|s| - 1];
      assert Elements(s) == Elements(front) + {last};
      ElementsAtMost(front);
      assert last in Elements(front) <==> last in front;
      SameSizeIsDistinct(front);
    }
  }

  /** Lines 833 to 862 with 949 to 993. */
  method CheckExpectation(rules: Rules, e: Expectation) returns (ok: bool)
    ensures ok <==> GoodExpectation(rules, e)
  {
    if !rules.goodCaptureId(e.captureId) || !rules.goodSource(e.requesterSource) || !rules.goodSource(e.providerSource) {
      return false;
    }
    if |e.requesterDigests| > MAXIMUM_LOAD_INTERVALS || |e.providerDigests| > MAXIMUM_LOAD_INTERVALS { return false; }
    var repeats := RepeatsDigest(e.requesterDigests);
    if repeats { return false; }
    repeats := RepeatsDigest(e.providerDigests);
    return !repeats && e.startedAt < e.endedAt;
  }

  /** Lines 863 to 930: the pass over the intervals. */
  method CheckIntervals(rules: Rules, c: Capture, e: Expectation) returns (ok: bool)
    requires |c.intervals| == |e.requesterDigests| == |e.providerDigests|
    ensures ok <==> FreshDigests(c, |c.intervals|)
                    && forall i :: 0 <= i < |c.intervals| ==> Bound(rules, c, e, i) && InPlace(c, i)
  {
    var requesterDigests, providerDigests := {}, {};
    for i := 0 to |c.intervals|
      invariant forall j :: 0 <= j < i ==> Bound(rules, c, e, j) && InPlace(c, j)
      invariant FreshDigests(c, i)
      invariant forall d :: d in requesterDigests <==> exists j :: 0 <= j < i && c.intervals[j].requesterDigest == d
      invariant forall d :: d in providerDigests <==> exists j :: 0 <= j < i && c.intervals[j].providerDigest == d
    {
      var it := c.intervals[i];
      if !InPlace(c, i) || it.requesterDigest in requesterDigests || it.providerDigest in providerDigests { return false; }
      if !Bound(rules, c, e, i) { return false; }
      requesterDigests := requesterDigests + {it.requesterDigest};
      providerDigests := providerDigests + {it.providerDigest};
    }
    return true;
  }

  /** Lines 833 to 947, with an expectation. */
  method AssertLoadCapture(rules: Rules, c: Capture, e: Expectation) returns (ok: bool)
    ensures ok <==> Accepts(rules, c, e)
  {
    PassesIff(rules, c, e);
    ok := CheckExpectation(rules, e);
    if !ok || !SameIdentity(c, e) || c.intervals == [] { return false; }
    if |e.requesterDigests| != |c.intervals| || |e.providerDigests| != |c.intervals| { return false; }
    ok := CheckIntervals(rules, c, e);
    if !ok { return false; }
    if c.intervals[0].startedAt != e.startedAt || c.intervals[|c.intervals| - 1].endedAt != e.endedAt { return false; }
    return c.captureDigest == rules.captureDigest(c.captureId, c.requesterSource, c.providerSource, c.intervals);
  }

  // ----- what acceptance means

  lemma {:induction false} IntervalsTile(c: Capture, i: nat)
    requires i < |c.intervals| && forall j :: 0 <= j < |c.intervals| ==> InPlace(c, j)
    ensures c.intervals[i].startedAt == c.intervals[0].startedAt + i * INTERVAL_MS
    ensures c.intervals[i].endedAt == c.intervals[0].startedAt + (i + 1) * INTERVAL_MS
  {
    assert InPlace(c, i);
    if i > 0 { IntervalsTile(c, i - 1); }
  }

  /** Interval i is minute i of a window of exactly as many minutes as there are intervals. */
  lemma AcceptedTilesTheWindow(rules: Rules, c: Capture, e: Expectation, i: nat)
    requires Accepts(rules, c, e) && i < |c.intervals|
    ensures c.intervals[i].ordinal == i
    ensures c.intervals[i].startedAt == e.startedAt + i * INTERVAL_MS
    ensures c.intervals[i].endedAt == e.startedAt + (i + 1) * INTERVAL_MS
    ensures e.endedAt == e.startedAt + |c.intervals| * INTERVAL_MS
  {
    PassesIff(rules, c, e);
    assert Bound(rules, c, e, i);
    IntervalsTile(c, i);
    IntervalsTile(c, |c.intervals| - 1);
  }

  ghost predicate Injective(rules: Rules) {
    forall a, b :: rules.sampleDigest(a) == rules.sampleDigest(b) ==> a == b
  }

  /** An expectation determines the capture, field by field. */
  lemma AcceptedCaptureIsUnique(rules: Rules, a: Capture, b: Capture, e: Expectation)
    requires Injective(rules) && Accepts(rules, a, e) && Accepts(rules, b, e)
    ensures a == b
  {
    PassesIff(rules, a, e);
    PassesIff(rules, b, e);
    forall i | 0 <= i < |a.intervals| ensures a.intervals[i] == b.intervals[i] {
      assert Bound(rules, a, e, i) && Bound(rules, b, e, i);
      SameInterval(rules, a, b, i);
    }
    assert a.intervals == b.intervals;
  }

  lemma SameInterval(rules: Rules, a: Capture, b: Capture, i: nat)
    requires i < |a.intervals| && i < |b.intervals|
    requires Injective(rules)
    requires var (x, y) := (a.intervals[i], b.intervals[i]);
             && x.requesterDigest == y.requesterDigest && x.providerDigest == y.providerDigest
             && x.requesterDigest == rules.sampleDigest(RequesterSampleOf(a.captureId, a.requesterSource, x))
             && y.requesterDigest == rules.sampleDigest(RequesterSampleOf(b.captureId, b.requesterSource, y))
             && x.providerDigest == rules.sampleDigest(ProviderSampleOf(a.captureId, a.providerSource, x))
             && y.providerDigest == rules.sampleDigest(ProviderSampleOf(b.captureId, b.providerSource, y))
    ensures a.intervals[i] == b.intervals[i]
  {
    var x, y := a.intervals[i], b.intervals[i];
    assert RequesterSampleOf(a.captureId, a.requesterSource, x) == RequesterSampleOf(b.captureId, b.requesterSource, y);
    assert ProviderSampleOf(a.captureId, a.providerSource, x) == ProviderSampleOf(b.captureId, b.providerSource, y);
    assert x.measures == y.measures;
  }

  // ----- what an honest producer builds is accepted

  function BuildInterval(rules: Rules, e: Expectation, i: nat, m: Measures): Interval {
    var bare := Interval(i, e.startedAt + i * INTERVAL_MS, e.startedAt + (i + 1) * INTERVAL_MS, "", "", m);
    bare.(requesterDigest := rules.sampleDigest(RequesterSampleOf(e.captureId, e.requesterSource, bare)),
          providerDigest := rules.sampleDigest(ProviderSampleOf(e.captureId, e.providerSource, bare)))
  }

  function Build(rules: Rules, e: Expectation, measures: seq<Measures>): Capture {
    var intervals := seq(|measures|, i requires 0 <= i < |measures| => BuildInterval(rules, e, i, measures[i]));
    Capture(e.captureId, e.requesterSource, e.providerSource, intervals,
            rules.captureDigest(e.captureId, e.requesterSource, e.providerSource, intervals))
  }

  /** The expectation that two honest endpoints publish for a run of measures. */
  function Expect(rules: Rules, identity: Expectation, measures: seq<Measures>): Expectation {
    var c := Build(rules, identity, measures);
    identity.(
      endedAt := identity.startedAt + |measures| * INTERVAL_MS,
      requesterDigests := seq(|measures|, i requires 0 <= i < |measures| => c.intervals[i].requesterDigest),
      providerDigests := seq(|measures|, i requires 0 <= i < |measures| => c.intervals[i].providerDigest))
  }

  /** With injective digests the uniqueness checks never refuse an honest capture. */
  lemma HonestCaptureIsAccepted(rules: Rules, identity: Expectation, measures: seq<Measures>)
    requires Injective(rules) && 0 < |measures| <= MAXIMUM_LOAD_INTERVALS
    requires rules.goodCaptureId(identity.captureId)
    requires rules.goodSource(identity.requesterSource) && rules.goodSource(identity.providerSource)
    ensures Accepts(rules, Build(rules, identity, measures), Expect(rules, identity, measures))
  {
    var c, e := Build(rules, identity, measures), Expect(rules, identity, measures);
    forall i | 0 <= i < |measures| ensures Bound(rules, c, e, i) && InPlace(c, i) { BuiltIsBound(rules, identity, measures, i); }
    forall i, j | 0 <= i < j < |measures|
      ensures c.intervals[i].requesterDigest != c.intervals[j].requesterDigest
      ensures c.intervals[i].providerDigest != c.intervals[j].providerDigest
    {
      BuiltIsBound(rules, identity, measures, i);
      BuiltIsBound(rules, identity, measures, j);
      DifferentOrdinals(rules, c, i, j);
    }
    PassesIff(rules, c, e);
  }

  lemma BuiltIsBound(rules: Rules, identity: Expectation, measures: seq<Measures>, i: nat)
    requires i < |measures|
    ensures var (c, e) := (Build(rules, identity, measures), Expect(rules, identity, measures));
            Bound(rules, c, e, i) && InPlace(c, i)
  {
    var it := BuildInterval(rules, identity, i, measures[i]);
    var bare := it.(requesterDigest := "", providerDigest := "");
    assert RequesterSampleOf(identity.captureId, identity.requesterSource, it)
        == RequesterSampleOf(identity.captureId, identity.requesterSource, bare);
    assert ProviderSampleOf(identity.captureId, identity.providerSource, it)
        == ProviderSampleOf(identity.captureId, identity.providerSource, bare);
    assert Build(rules, identity, measures).intervals[i] == it;
  }

  lemma DifferentOrdinals(rules: Rules, c: Capture, i: nat, j: nat)
    requires Injective(rules) && i < |c.intervals| && j < |c.intervals|
    requires var (x, y) := (c.intervals[i], c.intervals[j]);
             && x.ordinal != y.ordinal
             && x.requesterDigest == rules.sampleDigest(RequesterSampleOf(c.captureId, c.requesterSource, x))
             && y.requesterDigest == rules.sampleDigest(RequesterSampleOf(c.captureId, c.requesterSource, y))
             && x.providerDigest == rules.sampleDigest(ProviderSampleOf(c.captureId, c.providerSource, x))
             && y.providerDigest == rules.sampleDigest(ProviderSampleOf(c.captureId, c.providerSource, y))
    ensures c.intervals[i].requesterDigest != c.intervals[j].requesterDigest
    ensures c.intervals[i].providerDigest != c.intervals[j].providerDigest
  {
    var x, y := c.intervals[i], c.intervals[j];
    assert RequesterSampleOf(c.captureId, c.requesterSource, x) != RequesterSampleOf(c.captureId, c.requesterSource, y);
    assert ProviderSampleOf(c.captureId, c.providerSource, x) != ProviderSampleOf(c.captureId, c.providerSource, y);
  }
}
