/**
 * RFC-64 semantic snapshots: building one from observations, validating it,
 * comparing two of them, and combining a comparison with retry evidence.
 *
 * UAL parsing, N-Quads canonicalization and the digests are parameters.
 */
module Snapshots {
  import opened Sequences
  import opened Numbers
  import opened Sorting

  datatype Observation = Observation(ual: string, nquads: string)
  datatype Asset = Asset(ual: string, quadCount: int, digest: string)
  datatype Snapshot = Snapshot(kaCount: int, quadCount: int, ualsDigest: string, manifestDigest: string, assets: seq<Asset>)

  datatype Rules = Rules(
    canonicalUal: string -> Option<string>,
    canonicalize: string -> Option<(nat, string)>,
    isDigest: string -> bool,
    ualsDigest: seq<Asset> -> string,
    manifestDigest: seq<Asset> -> string)

  /** Canonical forms are canonical, and digests have the digest format. */
  ghost predicate Sound(rules: Rules) {
    && (forall raw :: rules.canonicalUal(raw).Some? ==>
          rules.canonicalUal(rules.canonicalUal(raw).value) == rules.canonicalUal(raw))
    && (forall text :: rules.canonicalize(text).Some? ==> rules.isDigest(rules.canonicalize(text).value.1))
    && (forall assets :: rules.isDigest(rules.ualsDigest(assets)) && rules.isDigest(rules.manifestDigest(assets)))
  }

  predicate Safe(n: int) { 0 <= n <= MAX_SAFE_INTEGER }

  // ----- validation

  function QuadsIn(a: Asset): int { a.quadCount }

  function QuadTotal(assets: seq<Asset>): int { SumBy(QuadsIn, assets) }

  predicate GoodAsset(rules: Rules, a: Asset) {
    rules.canonicalUal(a.ual) == Some(a.ual) && Safe(a.quadCount) && rules.isDigest(a.digest)
  }

  ghost predicate InUalOrder(assets: seq<Asset>) {
    forall i :: 0 < i < |assets| ==> TextLess(assets[i - 1].ual, assets[i].ual)
  }

  ghost predicate Valid(rules: Rules, s: Snapshot) {
    && Safe(s.kaCount) && Safe(s.quadCount)
    && rules.isDigest(s.ualsDigest) && rules.isDigest(s.manifestDigest)
    && (forall i :: 0 <= i < |s.assets| ==> GoodAsset(rules, s.assets[i]))
    && InUalOrder(s.assets)
    && s.kaCount == |s.assets|
    && s.quadCount == QuadTotal(s.assets)
    && s.ualsDigest == rules.ualsDigest(s.assets)
    && s.manifestDigest == rules.manifestDigest(s.assets)
  }

  /** Lines 467 to 555, on a snapshot of the right shape. */
  method Validate(rules: Rules, s: Snapshot) returns (ok: bool)
    ensures ok <==> Valid(rules, s)
  {
    if !Safe(s.kaCount) || !Safe(s.quadCount) { return false; }
    if !rules.isDigest(s.ualsDigest) || !rules.isDigest(s.manifestDigest) { return false; }
    var previousUal, actualQuadCount := None, 0;
    for i := 0 to |s.assets|
      invariant previousUal == if i == 0 then None else Some(s.assets[i - 1].ual)
      invariant forall j :: 0 <= j < i ==> GoodAsset(rules, s.assets[j])
      invariant forall j :: 0 < j < i ==> TextLess(s.assets[j - 1].ual, s.assets[j].ual)
      invariant actualQuadCount == QuadTotal(s.assets[..i])
    {
      var asset := s.assets[i];
      if rules.canonicalUal(asset.ual) != Some(asset.ual) { return false; }
      if previousUal.Some? && !TextLess(previousUal.value, asset.ual) { return false; }
      previousUal := Some(asset.ual);
      if !Safe(asset.quadCount) { return false; }
      assert s.assets[..i + 1][..i] == s.assets[..i];
      actualQuadCount := actualQuadCount + asset.quadCount;
      if !rules.isDigest(asset.digest) { return false; }
    }
    assert s.assets[..|s.assets|] == s.assets;
    return s.kaCount == |s.assets| && s.quadCount == actualQuadCount &&
           s.ualsDigest == rules.ualsDigest(s.assets) && s.manifestDigest == rules.manifestDigest(s.assets);
  }

  // ----- creation

  predicate AssetLe(a: Asset, b: Asset) { TextLe(a.ual, b.ual) }

  predicate Readable(rules: Rules, o: Observation) {
    rules.canonicalUal(o.ual).Some? && rules.canonicalize(o.nquads).Some?
  }

  function AssetOf(rules: Rules, o: Observation): Asset {
    match (rules.canonicalUal(o.ual), rules.canonicalize(o.nquads))
    case (Some(ual), Some(quads)) => Asset(ual, quads.0, quads.1)
    case _ => Asset("", 0, "")
  }

  function AssetsOf(rules: Rules, observations: seq<Observation>): seq<Asset> {
    Map((o: Observation) => AssetOf(rules, o), observations)
  }

  function SnapshotOf(rules: Rules, assets: seq<Asset>): Snapshot {
    Snapshot(|assets|, QuadTotal(assets), rules.ualsDigest(assets), rules.manifestDigest(assets), assets)
  }

  /** When creation succeeds: everything is readable, no UAL repeats, and the counts are safe integers. */
  ghost predicate Creatable(rules: Rules, observations: seq<Observation>) {
    && AllReadable(rules, observations)
    && DistinctKeys((a: Asset) => a.ual, AssetsOf(rules, observations))
    && Safe(|observations|)
    && Safe(QuadTotal(Sort(AssetLe, AssetsOf(rules, observations))))
  }

  lemma AssetLeIsTotal()
    ensures TotalPreorder(AssetLe)
  {
    TextLeIsTotalOrder();
  }

  lemma StrictWhenDistinct(assets: seq<Asset>)
    requires Sorted(AssetLe, assets)
    ensures InUalOrder(assets) <==> DistinctKeys((a: Asset) => a.ual, assets)
  {
    if InUalOrder(assets) {
      forall i, j | 0 <= i < j < |assets| ensures assets[i].ual != assets[j].ual {
        StrictlyBefore(assets, i, j);
        TextTrichotomy(assets[i].ual, assets[j].ual);
      }
    } else if DistinctKeys((a: Asset) => a.ual, assets) {
      forall i | 0 < i < |assets| ensures TextLess(assets[i - 1].ual, assets[i].ual) {
        assert AssetLe(assets[i - 1], assets[i]);
      }
    }
  }

  lemma {:induction false} StrictlyBefore(assets: seq<Asset>, i: nat, j: nat)
    requires InUalOrder(assets) && i < j < |assets|
    ensures TextLess(assets[i].ual, assets[j].ual)
    decreases j
  {
    if i + 1 < j {
      StrictlyBefore(assets, i, j - 1);
      TextTransitive(assets[i].ual, assets[j - 1].ual, assets[j].ual);
    }
  }

  lemma {:induction false} QuadTotalBounds(assets: seq<Asset>, i: nat)
    requires i < |assets| && forall j :: 0 <= j < |assets| ==> assets[j].quadCount >= 0
    ensures QuadTotal(assets) >= assets[i].quadCount
  {
    if i < |assets| - 1 {
      QuadTotalBounds(assets[..|assets| - 1], i);
    } else {
      SumByNonNegative(QuadsIn, assets[..|assets| - 1]);
    }
  }

  /** A snapshot built from readable observations validates exactly when it was creatable. */
  lemma CreatedIsValid(rules: Rules, observations: seq<Observation>)
    requires Sound(rules) && AllReadable(rules, observations)
    ensures var sorted := Sort(AssetLe, AssetsOf(rules, observations));
            Valid(rules, SnapshotOf(rules, sorted)) <==> Creatable(rules, observations)
  {
    var assets := AssetsOf(rules, observations);
    var sorted := Sort(AssetLe, assets);
    AssetLeIsTotal();
    SortSorts(AssetLe, assets);
    SortPermutes(AssetLe, assets);
    StrictWhenDistinct(sorted);
    if DistinctKeys((a: Asset) => a.ual, assets) { DistinctKeysContents((a: Asset) => a.ual, assets, sorted); }
    if DistinctKeys((a: Asset) => a.ual, sorted) { DistinctKeysContents((a: Asset) => a.ual, sorted, assets); }
    forall i | 0 <= i < |sorted|
      ensures rules.canonicalUal(sorted[i].ual) == Some(sorted[i].ual)
      ensures sorted[i].quadCount >= 0 && rules.isDigest(sorted[i].digest)
    {
      assert sorted[i] in assets;
      var k :| 0 <= k < |assets| && assets[k] == sorted[i];
      assert Readable(rules, observations[k]);
    }
    if Safe(QuadTotal(sorted)) {
      forall i | 0 <= i < |sorted| ensures GoodAsset(rules, sorted[i]) { QuadTotalBounds(sorted, i); }
    }
  }

  ghost predicate AllReadable(rules: Rules, observations: seq<Observation>) {
    forall i :: 0 <= i < |observations| ==> Readable(rules, observations[i])
  }

  /** Lines 402 to 423. */
  method ReadAll(rules: Rules, observations: seq<Observation>) returns (r: Option<seq<Asset>>)
    ensures r.Some? <==> AllReadable(rules, observations)
    ensures r.Some? ==> r.value == AssetsOf(rules, observations)
  {
    var pending: seq<Asset> := [];
    for i := 0 to |observations|
      invariant pending == AssetsOf(rules, observations)[..i]
      invariant forall j :: 0 <= j < i ==> Readable(rules, observations[j])
    {
      if !Readable(rules, observations[i]) { return None; }
      pending := pending + [AssetOf(rules, observations[i])];
    }
    return Some(pending);
  }

  /** Lines 426 to 432: equal neighbours in the sorted list. */
  method RepeatsUal(assets: seq<Asset>) returns (repeats: bool)
    requires Sorted(AssetLe, assets)
    ensures repeats <==> !InUalOrder(assets)
  {
    var i := 1;
    while i < |assets|
      invariant 1 <= i
      invariant forall j :: 0 < j < i && j < |assets| ==> assets[j - 1].ual != assets[j].ual
    {
      if assets[i - 1].ual == assets[i].ual {
        TextTrichotomy(assets[i - 1].ual, assets[i].ual);
        return true;
      }
      i := i + 1;
    }
    forall j | 0 < j < |assets| ensures TextLess(assets[j - 1].ual, assets[j].ual) {
      assert AssetLe(assets[j - 1], assets[j]);
    }
    return false;
  }

  // ----- what was created, read off the observations

  /** The observation's own asset. */
  ghost predicate HasAsset(rules: Rules, o: Observation, a: Asset) {
    && rules.canonicalUal(o.ual) == Some(a.ual)
    && rules.canonicalize(o.nquads).Some?
    && a.quadCount == rules.canonicalize(o.nquads).value.0
    && a.digest == rules.canonicalize(o.nquads).value.1
  }

  function QuadsOf(rules: Rules): Observation -> int {
    (o: Observation) => match rules.canonicalize(o.nquads) case Some(quads) => quads.0 case None => 0
  }

  /** All can be read, no two name the same UAL, and the counts are safe integers. */
  ghost predicate Consistent(rules: Rules, observations: seq<Observation>) {
    && (forall i :: 0 <= i < |observations| ==>
          rules.canonicalUal(observations[i].ual).Some? && rules.canonicalize(observations[i].nquads).Some?)
    && (forall i, j :: 0 <= i < j < |observations| ==>
          rules.canonicalUal(observations[i].ual) != rules.canonicalUal(observations[j].ual))
    && Safe(|observations|) && Safe(SumBy(QuadsOf(rules), observations))
  }

  ghost predicate Observed(rules: Rules, observations: seq<Observation>, a: Asset) {
    exists i :: 0 <= i < |observations| && HasAsset(rules, observations[i], a)
  }

  /** One asset per observation, in UAL order, with the observations' own counts and digests. */
  ghost predicate Gathers(rules: Rules, observations: seq<Observation>, s: Snapshot) {
    && (forall a :: a in s.assets <==> Observed(rules, observations, a))
    && InUalOrder(s.assets)
    && s.kaCount == |s.assets| == |observations|
    && s.quadCount == SumBy(QuadsOf(rules), observations)
    && s.ualsDigest == rules.ualsDigest(s.assets) && s.manifestDigest == rules.manifestDigest(s.assets)
  }

  lemma AssetIsItsOwn(rules: Rules, observations: seq<Observation>, i: nat)
    requires AllReadable(rules, observations) && i < |observations|
    ensures forall a :: HasAsset(rules, observations[i], a) <==> a == AssetsOf(rules, observations)[i]
    ensures QuadsOf(rules)(observations[i]) == QuadsIn(AssetsOf(rules, observations)[i])
  {
    assert Readable(rules, observations[i]);
  }

  lemma AssetsAreObserved(rules: Rules, observations: seq<Observation>, a: Asset)
    requires AllReadable(rules, observations)
    ensures a in AssetsOf(rules, observations) <==> Observed(rules, observations, a)
  {
    var assets := AssetsOf(rules, observations);
    if a in assets {
      var i :| 0 <= i < |assets| && assets[i] == a;
      AssetIsItsOwn(rules, observations, i);
    }
    if i :| 0 <= i < |observations| && HasAsset(rules, observations[i], a) { AssetIsItsOwn(rules, observations, i); }
  }

  lemma {:induction false} QuadsAreObserved(rules: Rules, observations: seq<Observation>)
    requires AllReadable(rules, observations)
    ensures QuadTotal(AssetsOf(rules, observations)) == SumBy(QuadsOf(rules), observations)
  {
    if observations != [] {
      var n := |observations| - 1;
      QuadsAreObserved(rules, observations[..n]);
      AssetIsItsOwn(rules, observations, n);
      assert AssetsOf(rules, observations)[..n] == AssetsOf(rules, observations[..n]);
    }
  }

  lemma SortedQuads(rules: Rules, observations: seq<Observation>)
    requires AllReadable(rules, observations)
    ensures QuadTotal(Sort(AssetLe, AssetsOf(rules, observations))) == SumBy(QuadsOf(rules), observations)
  {
    SortPermutes(AssetLe, AssetsOf(rules, observations));
    SumByIgnoresOrder(QuadsIn, Sort(AssetLe, AssetsOf(rules, observations)), AssetsOf(rules, observations));
    QuadsAreObserved(rules, observations);
  }

  lemma UalsAreObserved(rules: Rules, observations: seq<Observation>, i: nat)
    requires AllReadable(rules, observations) && i < |observations|
    ensures rules.canonicalUal(observations[i].ual) == Some(AssetsOf(rules, observations)[i].ual)
  {
    AssetIsItsOwn(rules, observations, i);
  }

  lemma CreatableIff(rules: Rules, observations: seq<Observation>)
    ensures Creatable(rules, observations) <==> Consistent(rules, observations)
  {
    if AllReadable(rules, observations) {
      SortedQuads(rules, observations);
      var assets := AssetsOf(rules, observations);
      forall i | 0 <= i < |observations| ensures rules.canonicalUal(observations[i].ual) == Some(assets[i].ual) {
        UalsAreObserved(rules, observations, i);
      }
    }
    if Consistent(rules, observations) {
      forall i | 0 <= i < |observations| ensures Readable(rules, observations[i]) { }
    }
  }

  lemma CreatedGathers(rules: Rules, observations: seq<Observation>)
    requires Creatable(rules, observations)
    ensures Gathers(rules, observations, SnapshotOf(rules, Sort(AssetLe, AssetsOf(rules, observations))))
  {
    var assets := AssetsOf(rules, observations);
    var sorted := Sort(AssetLe, assets);
    SortedQuads(rules, observations);
    SortPermutes(AssetLe, assets);
    AssetLeIsTotal();
    SortSorts(AssetLe, assets);
    DistinctKeysContents((a: Asset) => a.ual, assets, sorted);
    StrictWhenDistinct(sorted);
    forall a ensures a in sorted <==> Observed(rules, observations, a) { AssetsAreObserved(rules, observations, a); }
  }

  /** Lines 402 to 442. */
  method Create(rules: Rules, observations: seq<Observation>) returns (r: Option<Snapshot>)
    requires Sound(rules)
    ensures r.Some? <==> Consistent(rules, observations)
    ensures r.Some? ==> Valid(rules, r.value) && Gathers(rules, observations, r.value)
    ensures r.Some? ==> r.value == SnapshotOf(rules, Sort(AssetLe, AssetsOf(rules, observations)))
  {
    CreatableIff(rules, observations);
    if Creatable(rules, observations) { CreatedGathers(rules, observations); }
    var pending := ReadAll(rules, observations);
    if pending.None? { return None; }
    CreatedIsValid(rules, observations);
    var assets := Sort(AssetLe, pending.value);
    AssetLeIsTotal();
    SortSorts(AssetLe, pending.value);
    var repeats := RepeatsUal(assets);
    if repeats { return None; }
    var snapshot := SnapshotOf(rules, assets);
    var ok := Validate(rules, snapshot);
    return if ok then Some(snapshot) else None;
  }

  lemma {:induction false} MapContents<A, B>(f: A -> B, a: seq<A>, b: seq<A>)
    requires multiset(a) == multiset(b)
    ensures multiset(Map(f, a)) == multiset(Map(f, b))
    decreases |a|
  {
    SameMultiset(a, b);
    if a != [] {
      assert a[0] in b;
      var k :| 0 <= k < |b| && b[k] == a[0];
      TailContents(a);
      RestContents(b, k);
      var rest := b[..k] + b[k + 1..];
      MapContents(f, a[1..], rest);
      assert Map(f, a) == [f(a[0])] + Map(f, a[1..]);
      assert Map(f, rest) == Map(f, b)[..k] + Map(f, b)[k + 1..];
      RestContents(Map(f, b), k);
      assert multiset(Map(f, b)) == multiset(Map(f, rest)) + multiset{f(a[0])};
    }
  }

  /** The order of the observations does not matter. */
  lemma CreationIgnoresOrder(rules: Rules, a: seq<Observation>, b: seq<Observation>)
    requires multiset(a) == multiset(b)
    ensures Creatable(rules, a) <==> Creatable(rules, b)
    ensures Creatable(rules, a) ==>
              SnapshotOf(rules, Sort(AssetLe, AssetsOf(rules, a))) == SnapshotOf(rules, Sort(AssetLe, AssetsOf(rules, b)))
  {
    OneWay(rules, a, b);
    OneWay(rules, b, a);
  }

  lemma OneWay(rules: Rules, a: seq<Observation>, b: seq<Observation>)
    requires multiset(a) == multiset(b)
    ensures Creatable(rules, a) ==> Creatable(rules, b)
    ensures Creatable(rules, a) ==> Sort(AssetLe, AssetsOf(rules, a)) == Sort(AssetLe, AssetsOf(rules, b))
  {
    if Creatable(rules, a) {
      var key := (x: Asset) => x.ual;
      SameMultiset(a, b);
      MapContents((o: Observation) => AssetOf(rules, o), a, b);
      DistinctKeysContents(key, AssetsOf(rules, a), AssetsOf(rules, b));
      AssetLeIsTotal();
      TextLeIsTotalOrder();
      assert Antisymmetric(AssetLe, AssetsOf(rules, a));
      SortIgnoresOrder(AssetLe, AssetsOf(rules, a), AssetsOf(rules, b));
      forall i | 0 <= i < |b| ensures Readable(rules, b[i]) {
        assert b[i] in a;
        var k :| 0 <= k < |a| && a[k] == b[i];
      }
    }
  }

  // ----- comparison

  datatype Mismatch =
    | Missing(ual: string)
    | Unexpected(ual: string)
    | QuadCount(ual: string, expectedCount: int, observedCount: int)
    | Digest(ual: string, expectedDigest: string, observedDigest: string)

  function ByUal(assets: seq<Asset>): map<string, Asset> {
    if assets == [] then map[]
    else ByUal(assets[..|assets| - 1])[assets[|assets| - 1].ual := assets[|assets| - 1]]
  }

  lemma {:induction false} ByUalMeaning(assets: seq<Asset>)
    requires InUalOrder(assets)
    ensures forall ual :: ual in ByUal(assets) ==> ByUal(assets)[ual].ual == ual && ByUal(assets)[ual] in assets
    ensures forall i :: 0 <= i < |assets| ==> assets[i].ual in ByUal(assets) && ByUal(assets)[assets[i].ual] == assets[i]
  {
    if assets != [] {
      var front, last := assets[..|assets| - 1], assets[|assets| - 1];
      ByUalMeaning(front);
      forall i | 0 <= i < |front| ensures assets[i].ual != last.ual {
        StrictlyBefore(assets, i, |assets| - 1);
        TextTrichotomy(assets[i].ual, last.ual);
      }
      assert assets == front + [last];
    }
  }

  /** What is wrong with one UAL. */
  function Diff(expected: map<string, Asset>, observed: map<string, Asset>, ual: string): seq<Mismatch> {
    if ual !in observed then [Missing(ual)]
    else if ual !in expected then [Unexpected(ual)]
    else
      var e, o := expected[ual], observed[ual];
      (if e.quadCount != o.quadCount then [QuadCount(ual, e.quadCount, o.quadCount)] else []) +
      (if e.digest != o.digest then [Digest(ual, e.digest, o.digest)] else [])
  }

  function DiffAll(expected: map<string, Asset>, observed: map<string, Asset>, uals: seq<string>): seq<Mismatch> {
    if uals == [] then []
    else DiffAll(expected, observed, uals[..|uals| - 1]) + Diff(expected, observed, uals[|uals| - 1])
  }

  /** Every UAL of either side, each once, in text order. */
  ghost predicate AllUals(expected: map<string, Asset>, observed: map<string, Asset>, uals: seq<string>) {
    && StrictlySorted(TextLess, uals)
    && (forall ual :: ual in uals <==> ual in expected || ual in observed)
  }

  function UalsOf(assets: seq<Asset>): seq<string> { Map((a: Asset) => a.ual, assets) }

  /** Lines 571 to 574. */
  function UnionOfUals(expected: seq<Asset>, observed: seq<Asset>): seq<string> {
    Sort(TextLe, Distinctly(UalsOf(expected) + UalsOf(observed)))
  }

  lemma UnionIsAllUals(expected: seq<Asset>, observed: seq<Asset>)
    requires InUalOrder(expected) && InUalOrder(observed)
    ensures AllUals(ByUal(expected), ByUal(observed), UnionOfUals(expected, observed))
  {
    var both := UalsOf(expected) + UalsOf(observed);
    var distinct := Distinctly(both);
    var uals := Sort(TextLe, distinct);
    DistinctlyMeaning(both);
    TextLeIsTotalOrder();
    SortSorts(TextLe, distinct);
    SortPermutes(TextLe, distinct);
    DistinctKeysContents((s: string) => s, distinct, uals);
    forall i, j | 0 <= i < j < |uals| ensures TextLess(uals[i], uals[j]) { assert TextLe(uals[i], uals[j]); }
    ByUalMeaning(expected);
    ByUalMeaning(observed);
    forall ual ensures ual in both <==> ual in ByUal(expected) || ual in ByUal(observed) {
      UalListed(expected, ual);
      UalListed(observed, ual);
    }
  }

  lemma UalListed(assets: seq<Asset>, ual: string)
    requires InUalOrder(assets)
    ensures ual in UalsOf(assets) <==> ual in ByUal(assets)
  {
    ByUalMeaning(assets);
    if ual in ByUal(assets) {
      var k :| 0 <= k < |assets| && assets[k] == ByUal(assets)[ual];
      assert UalsOf(assets)[k] == ual;
    }
  }

  predicate AssetBefore(a: Asset, b: Asset) { TextLess(a.ual, b.ual) }

  lemma SameAssets(a: seq<Asset>, b: seq<Asset>)
    requires InUalOrder(a) && InUalOrder(b) && forall x :: x in a <==> x in b
    ensures a == b
  {
    forall i, j | 0 <= i < j < |a| ensures AssetBefore(a[i], a[j]) { StrictlyBefore(a, i, j); }
    forall i, j | 0 <= i < j < |b| ensures AssetBefore(b[i], b[j]) { StrictlyBefore(b, i, j); }
    TextLessIsAsymmetric();
    StrictlySortedUnique(AssetBefore, a, b);
  }

  lemma NoDiffMeansSameAssets(a: seq<Asset>, b: seq<Asset>, uals: seq<string>, x: Asset)
    requires InUalOrder(a) && InUalOrder(b) && AllUals(ByUal(a), ByUal(b), uals)
    requires DiffAll(ByUal(a), ByUal(b), uals) == []
    ensures x in a <==> x in b
  {
    var e, o := ByUal(a), ByUal(b);
    FoundByUal(a, x);
    FoundByUal(b, x);
    MismatchIsExact(e, o, uals, Missing(x.ual));
    MismatchIsExact(e, o, uals, Unexpected(x.ual));
    if x.ual in e && x.ual in o {
      MismatchIsExact(e, o, uals, QuadCount(x.ual, e[x.ual].quadCount, o[x.ual].quadCount));
      MismatchIsExact(e, o, uals, Digest(x.ual, e[x.ual].digest, o[x.ual].digest));
    }
  }

  lemma FoundByUal(assets: seq<Asset>, x: Asset)
    requires InUalOrder(assets)
    ensures x in assets <==> x.ual in ByUal(assets) && ByUal(assets)[x.ual] == x
    ensures x.ual in ByUal(assets) ==> ByUal(assets)[x.ual].ual == x.ual
  {
    ByUalMeaning(assets);
  }

  /** Valid snapshots compare as equal exactly when they are equal. */
  lemma PassedIff(rules: Rules, expected: Snapshot, observed: Snapshot)
    requires Valid(rules, expected) && Valid(rules, observed)
    ensures Mismatches(expected.assets, observed.assets) == [] <==> expected == observed
  {
    var a, b := expected.assets, observed.assets;
    var uals := UnionOfUals(a, b);
    UnionIsAllUals(a, b);
    if DiffAll(ByUal(a), ByUal(b), uals) == [] {
      forall x ensures x in a <==> x in b { NoDiffMeansSameAssets(a, b, uals, x); }
      SameAssets(a, b);
    } else if a == b {
      MismatchIsExact(ByUal(a), ByUal(b), uals, DiffAll(ByUal(a), ByUal(b), uals)[0]);
      assert false;
    }
  }

  function Swap(m: Mismatch): Mismatch {
    match m
    case Missing(ual) => Unexpected(ual)
    case Unexpected(ual) => Missing(ual)
    case QuadCount(ual, e, o) => QuadCount(ual, o, e)
    case Digest(ual, e, o) => Digest(ual, o, e)
  }

  lemma SwapDiff(e: map<string, Asset>, o: map<string, Asset>, ual: string)
    requires ual in e || ual in o
    ensures Diff(o, e, ual) == Map(Swap, Diff(e, o, ual))
  {
    if ual in e && ual in o {
      var count := if e[ual].quadCount != o[ual].quadCount then [QuadCount(ual, e[ual].quadCount, o[ual].quadCount)] else [];
      var digest := if e[ual].digest != o[ual].digest then [Digest(ual, e[ual].digest, o[ual].digest)] else [];
      assert Diff(e, o, ual) == count + digest;
      MapConcat(Swap, count, digest);
      assert Map(Swap, count) == if count == [] then [] else [Swap(count[0])];
      assert Map(Swap, digest) == if digest == [] then [] else [Swap(digest[0])];
    } else if ual in e {
      assert Map(Swap, [Missing(ual)]) == [Unexpected(ual)];
    } else {
      assert Map(Swap, [Unexpected(ual)]) == [Missing(ual)];
    }
  }

  lemma {:induction false} SwapAll(e: map<string, Asset>, o: map<string, Asset>, uals: seq<string>)
    requires forall i :: 0 <= i < |uals| ==> uals[i] in e || uals[i] in o
    ensures DiffAll(o, e, uals) == Map(Swap, DiffAll(e, o, uals))
  {
    if uals != [] {
      var n := |uals| - 1;
      SwapAll(e, o, uals[..n]);
      SwapDiff(e, o, uals[n]);
      MapConcat(Swap, DiffAll(e, o, uals[..n]), Diff(e, o, uals[n]));
    }
  }

  /** Comparing the other way round swaps missing with unexpected, and nothing else. */
  lemma SwappedComparison(expected: seq<Asset>, observed: seq<Asset>)
    requires InUalOrder(expected) && InUalOrder(observed)
    ensures Mismatches(observed, expected) == Map(Swap, Mismatches(expected, observed))
  {
    UnionIsAllUals(expected, observed);
    UnionIsAllUals(observed, expected);
    TextLessIsAsymmetric();
    StrictlySortedUnique(TextLess, UnionOfUals(observed, expected), UnionOfUals(expected, observed));
    SwapAll(ByUal(expected), ByUal(observed), UnionOfUals(expected, observed));
  }

  /** The mismatches are exactly the differences between the two snapshots, UAL by UAL. */
  ghost predicate Exact(e: map<string, Asset>, o: map<string, Asset>, m: Mismatch) {
    match m
    case Missing(ual) => ual in e && ual !in o
    case Unexpected(ual) => ual in o && ual !in e
    case QuadCount(ual, x, y) => ual in e && ual in o && e[ual].quadCount == x && o[ual].quadCount == y && x != y
    case Digest(ual, x, y) => ual in e && ual in o && e[ual].digest == x && o[ual].digest == y && x != y
  }

  lemma DiffIsExact(e: map<string, Asset>, o: map<string, Asset>, ual: string, m: Mismatch)
    requires ual in e || ual in o
    ensures m in Diff(e, o, ual) <==> m.ual == ual && Exact(e, o, m)
  {
  }

  lemma {:induction false} DiffAllMember(e: map<string, Asset>, o: map<string, Asset>, uals: seq<string>, m: Mismatch)
    requires forall i :: 0 <= i < |uals| ==> uals[i] in e || uals[i] in o
    ensures m in DiffAll(e, o, uals) <==> m.ual in uals && Exact(e, o, m)
  {
    if uals != [] {
      var n := |uals| - 1;
      DiffAllMember(e, o, uals[..n], m);
      DiffIsExact(e, o, uals[n], m);
      assert m.ual in uals <==> m.ual in uals[..n] || m.ual == uals[n];
    }
  }

  lemma MismatchIsExact(e: map<string, Asset>, o: map<string, Asset>, uals: seq<string>, m: Mismatch)
    requires AllUals(e, o, uals)
    ensures m in DiffAll(e, o, uals) <==> Exact(e, o, m)
  {
    forall i | 0 <= i < |uals| ensures uals[i] in e || uals[i] in o { assert uals[i] in uals; }
    DiffAllMember(e, o, uals, m);
  }

  lemma {:induction false} MismatchesInOrder(e: map<string, Asset>, o: map<string, Asset>, uals: seq<string>)
    requires StrictlySorted(TextLess, uals)
    requires forall i :: 0 <= i < |uals| ==> uals[i] in e || uals[i] in o
    ensures forall i, j :: 0 <= i < j < |DiffAll(e, o, uals)| ==>
              TextLe(DiffAll(e, o, uals)[i].ual, DiffAll(e, o, uals)[j].ual)
  {
    if uals != [] {
      var n := |uals| - 1;
      var before, here := DiffAll(e, o, uals[..n]), Diff(e, o, uals[n]);
      MismatchesInOrder(e, o, uals[..n]);
      forall i | 0 <= i < |before| ensures TextLess(before[i].ual, uals[n]) {
        DiffAllMember(e, o, uals[..n], before[i]);
        var k :| 0 <= k < n && uals[..n][k] == before[i].ual;
      }
      forall j | 0 <= j < |here| ensures here[j].ual == uals[n] { DiffIsExact(e, o, uals[n], here[j]); }
    }
  }

  lemma DiffIsDistinct(e: map<string, Asset>, o: map<string, Asset>, ual: string)
    requires ual in e || ual in o
    ensures Distinct(Diff(e, o, ual))
  {
  }

  lemma {:induction false} MismatchesDiffer(e: map<string, Asset>, o: map<string, Asset>, uals: seq<string>)
    requires Distinct(uals)
    requires forall i :: 0 <= i < |uals| ==> uals[i] in e || uals[i] in o
    ensures Distinct(DiffAll(e, o, uals))
  {
    if uals != [] {
      var n := |uals| - 1;
      var before, here := DiffAll(e, o, uals[..n]), Diff(e, o, uals[n]);
      MismatchesDiffer(e, o, uals[..n]);
      DiffIsDistinct(e, o, uals[n]);
      forall i, j | 0 <= i < |before| && 0 <= j < |here| ensures before[i] != here[j] {
        DiffAllMember(e, o, uals[..n], before[i]);
        DiffIsExact(e, o, uals[n], here[j]);
        assert here[j] in here;
        assert uals[n] !in uals[..n];
      }
    }
  }

  /** The mismatches of two asset lists, in the order in which they are reported. */
  function Mismatches(expected: seq<Asset>, observed: seq<Asset>): seq<Mismatch> {
    DiffAll(ByUal(expected), ByUal(observed), UnionOfUals(expected, observed))
  }

  /** All the differences, each once, nothing else, in UAL order. */
  ghost predicate Complete(e: map<string, Asset>, o: map<string, Asset>, mismatches: seq<Mismatch>) {
    && Distinct(mismatches)
    && (forall m :: m in mismatches <==> Exact(e, o, m))
    && (forall i, j :: 0 <= i < j < |mismatches| ==> TextLe(mismatches[i].ual, mismatches[j].ual))
  }

  lemma MismatchesAreComplete(expected: seq<Asset>, observed: seq<Asset>)
    requires InUalOrder(expected) && InUalOrder(observed)
    ensures Complete(ByUal(expected), ByUal(observed), Mismatches(expected, observed))
  {
    var e, o, uals := ByUal(expected), ByUal(observed), UnionOfUals(expected, observed);
    UnionIsAllUals(expected, observed);
    forall m ensures m in DiffAll(e, o, uals) <==> Exact(e, o, m) { MismatchIsExact(e, o, uals, m); }
    MismatchesInOrder(e, o, uals);
    TextLessIsAsymmetric();
    MismatchesDiffer(e, o, uals);
  }

  /** Lines 575 to 604: one UAL. */
  method AppendDiff(e: map<string, Asset>, o: map<string, Asset>, ual: string, mismatches: seq<Mismatch>)
    returns (r: seq<Mismatch>)
    ensures r == mismatches + Diff(e, o, ual)
  {
    if ual !in o { return mismatches + [Missing(ual)]; }
    if ual !in e { return mismatches + [Unexpected(ual)]; }
    r := mismatches;
    if e[ual].quadCount != o[ual].quadCount { r := r + [QuadCount(ual, e[ual].quadCount, o[ual].quadCount)]; }
    if e[ual].digest != o[ual].digest { r := r + [Digest(ual, e[ual].digest, o[ual].digest)]; }
  }

  /** Lines 565 to 609, on two snapshots that were validated. */
  method Compare(rules: Rules, expected: Snapshot, observed: Snapshot) returns (passed: bool, mismatches: seq<Mismatch>)
    requires Valid(rules, expected) && Valid(rules, observed)
    ensures mismatches == Mismatches(expected.assets, observed.assets)
    ensures passed <==> mismatches == []
    ensures passed <==> expected == observed
    ensures Complete(ByUal(expected.assets), ByUal(observed.assets), mismatches)
  {
    var expectedByUal, observedByUal := ByUal(expected.assets), ByUal(observed.assets);
    var uals := UnionOfUals(expected.assets, observed.assets);
    mismatches := [];
    for i := 0 to |uals|
      invariant mismatches == DiffAll(expectedByUal, observedByUal, uals[..i])
    {
      assert uals[..i + 1][..i] == uals[..i];
      mismatches := AppendDiff(expectedByUal, observedByUal, uals[i], mismatches);
    }
    assert uals[..|uals|] == uals;
    PassedIff(rules, expected, observed);
    MismatchesAreComplete(expected.assets, observed.assets);
    passed := mismatches == [];
  }

  // ----- evidence

  datatype Failure = Failure(attempt: int, code: string, message: string, retryable: bool)

  datatype Comparison = Compared(mismatches: seq<Mismatch>) | ObservedMissing(expectedDigest: string)

  datatype Evidence = Evidence(durationMs: int, retries: int, failures: seq<Failure>, comparison: Comparison, passed: bool)

  datatype EvidenceInput = EvidenceInput(
    startedAt: int, completedAt: int, attemptCount: int, retryFailures: seq<Failure>,
    terminalFailure: Option<Failure>, expected: Snapshot, observed: Option<Snapshot>)

  predicate AttemptLe(a: Failure, b: Failure) { a.attempt <= b.attempt }

  /** Every attempt before the last one failed once, and only those. */
  ghost predicate CoversAttempts(failures: seq<Failure>, attemptCount: int) {
    && |failures| == attemptCount - 1
    && forall i :: 0 <= i < |failures| ==> failures[i].attempt == i + 1
  }

  ghost predicate InRange(failures: seq<Failure>, attemptCount: int) {
    forall i :: 0 <= i < |failures| ==> 1 <= failures[i].attempt < attemptCount
  }

  ghost predicate Acceptable(rules: Rules, input: EvidenceInput) {
    && input.startedAt <= input.completedAt && Safe(input.completedAt - input.startedAt)
    && Safe(input.attemptCount) && input.attemptCount >= 1
    && Valid(rules, input.expected)
    && (input.observed.Some? ==> Valid(rules, input.observed.value))
    && (input.observed.None? ==> input.terminalFailure.Some?)
    && OneFailurePerRetry(input.retryFailures, input.attemptCount)
  }

  /** n - 1 different attempts between 1 and n - 1 are all of them. */
  lemma {:induction false} SortedAttemptsCover(failures: seq<Failure>, n: int)
    requires forall i, j :: 0 <= i < j < |failures| ==> failures[i].attempt < failures[j].attempt
    requires forall i :: 0 <= i < |failures| ==> 1 <= failures[i].attempt <= n
    requires |failures| == n
    ensures forall i :: 0 <= i < |failures| ==> failures[i].attempt == i + 1
  {
    if n > 0 {
      AtLeastIndex(failures, n - 1);
      SortedAttemptsCover(failures[..n - 1], n - 1);
    }
  }

  lemma {:induction false} AtLeastIndex(failures: seq<Failure>, i: nat)
    requires i < |failures| && forall i, j :: 0 <= i < j < |failures| ==> failures[i].attempt < failures[j].attempt
    requires forall i :: 0 <= i < |failures| ==> 1 <= failures[i].attempt
    ensures failures[i].attempt >= i + 1
  {
    if i > 0 { AtLeastIndex(failures, i - 1); }
  }

  lemma AcceptedFailuresCover(failures: seq<Failure>, n: int)
    requires n >= 1 && OneFailurePerRetry(failures, n)
    ensures CoversAttempts(Sort(AttemptLe, failures), n)
  {
    var sorted := Sort(AttemptLe, failures);
    SortSorts(AttemptLe, failures);
    SortPermutes(AttemptLe, failures);
    DistinctKeysContents((f: Failure) => f.attempt, failures, sorted);
    forall i | 0 <= i < |sorted| ensures 1 <= sorted[i].attempt <= n - 1 {
      assert sorted[i] in failures;
    }
    forall i, j | 0 <= i < j < |sorted| ensures sorted[i].attempt < sorted[j].attempt {
      assert AttemptLe(sorted[i], sorted[j]);
    }
    SortedAttemptsCover(sorted, n - 1);
  }

  method RepeatsAttempt(sorted: seq<Failure>) returns (repeats: bool)
    requires Sorted(AttemptLe, sorted)
    ensures repeats <==> !DistinctKeys((f: Failure) => f.attempt, sorted)
  {
    var i := 1;
    while i < |sorted|
      invariant 1 <= i
      invariant forall j, k :: 0 <= j < k < i && k < |sorted| ==> sorted[j].attempt < sorted[k].attempt
    {
      if sorted[i - 1].attempt == sorted[i].attempt {
        assert !DistinctKeys((f: Failure) => f.attempt, sorted) by {
          var key := (f: Failure) => f.attempt;
          assert key(sorted[i - 1]) == key(sorted[i]);
        }
        return true;
      }
      assert AttemptLe(sorted[i - 1], sorted[i]);
      i := i + 1;
    }
    return false;
  }

  ghost predicate OneFailurePerRetry(failures: seq<Failure>, attemptCount: int) {
    && InRange(failures, attemptCount)
    && DistinctKeys((f: Failure) => f.attempt, failures)
    && |failures| == attemptCount - 1
  }

  /** Lines 837 to 874. */
  method RetryFailures(retryFailures: seq<Failure>, attemptCount: int) returns (r: Option<seq<Failure>>)
    requires attemptCount >= 1
    ensures r.Some? <==> OneFailurePerRetry(retryFailures, attemptCount)
    ensures r.Some? ==> r.value == Sort(AttemptLe, retryFailures) && CoversAttempts(r.value, attemptCount)
    ensures r.Some? ==> multiset(r.value) == multiset(retryFailures)
  {
    for i := 0 to |retryFailures|
      invariant forall j :: 0 <= j < i ==> 1 <= retryFailures[j].attempt < attemptCount
    {
      if retryFailures[i].attempt < 1 || retryFailures[i].attempt >= attemptCount { return None; }
    }
    var failures := Sort(AttemptLe, retryFailures);
    SortSorts(AttemptLe, retryFailures);
    SortPermutes(AttemptLe, retryFailures);
    var key := (f: Failure) => f.attempt;
    var repeats := RepeatsAttempt(failures);
    if repeats {
      if DistinctKeys(key, retryFailures) { DistinctKeysContents(key, retryFailures, failures); }
      return None;
    }
    DistinctKeysContents(key, failures, retryFailures);
    if |failures| != attemptCount - 1 { return None; }
    AcceptedFailuresCover(retryFailures, attemptCount);
    return Some(failures);
  }

  /** Without an observation the expected manifest is named, with one all the differences. */
  ghost predicate ComparesInput(c: Comparison, input: EvidenceInput)
    requires InUalOrder(input.expected.assets) && (input.observed.Some? ==> InUalOrder(input.observed.value.assets))
  {
    match input.observed
    case None => c == ObservedMissing(input.expected.manifestDigest)
    case Some(observed) => c.Compared? && Complete(ByUal(input.expected.assets), ByUal(observed.assets), c.mismatches)
  }

  /**
   * Lines 793 to 907, on an input of the right shape. Accepted evidence names every retried
   * attempt once, in order, and passes exactly when the snapshots agree and nothing failed at the end.
   */
  method CreateEvidence(rules: Rules, input: EvidenceInput) returns (r: Option<Evidence>)
    ensures r.Some? <==> Acceptable(rules, input)
    ensures r.Some? ==>
              && multiset(r.value.failures) == multiset(input.retryFailures)
              && CoversAttempts(r.value.failures, input.attemptCount)
              && r.value.retries == input.attemptCount - 1
              && r.value.durationMs == input.completedAt - input.startedAt
              && ComparesInput(r.value.comparison, input)
              && (r.value.passed <==> input.observed == Some(input.expected) && input.terminalFailure.None?)
  {
    if input.completedAt < input.startedAt || !Safe(input.completedAt - input.startedAt) { return None; }
    if !Safe(input.attemptCount) || input.attemptCount < 1 { return None; }
    var ok := Validate(rules, input.expected);
    if !ok { return None; }
    if input.observed.Some? {
      ok := Validate(rules, input.observed.value);
      if !ok { return None; }
    } else if input.terminalFailure.None? {
      return None;
    }
    var failures := RetryFailures(input.retryFailures, input.attemptCount);
    if failures.None? { return None; }
    var passed, comparison := false, ObservedMissing(input.expected.manifestDigest);
    if input.observed.Some? {
      var mismatches;
      passed, mismatches := Compare(rules, input.expected, input.observed.value);
      comparison := Compared(mismatches);
    }
    return Some(Evidence(input.completedAt - input.startedAt, input.attemptCount - 1, failures.value, comparison,
                         passed && input.terminalFailure.None?));
  }
}
