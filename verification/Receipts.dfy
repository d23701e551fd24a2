/**
 * The lifecycle receipts of a private cold recovery: one receipt per expected
 * asset, in locale order, with every other field fixed by the expectation.
 *
 * `localeCompare` and the digest of a line-framed readback are parameters.
 */
module Receipts {
  import opened Sequences
  import opened Sorting

  const MAX_RECEIPTS := 1024
  const MAX_STRING := 16384
  const KIND := "rfc64-finalized-swm-retirement-lifecycle-receipt-v2"

  datatype Receipt = Receipt(
    kind: string, contextGraphId: string, kaUal: string, assertionVersion: string, vmGraphIri: string,
    vmPostReadDigest: string, vmMaterializationStatus: string, swmReconciliationOutcome: string)

  datatype Expectation = Expectation(assertionVersion: string, vmGraphIri: string, projection: string)

  datatype Expected = Expected(contextGraphId: string, byUal: map<string, Expectation>)

  /** `less(a, b)` is `a.localeCompare(b) < 0`; `postReadDigest` is none for a badly framed readback. */
  datatype Host = Host(less: (string, string) -> bool, postReadDigest: string -> Option<string>)

  function ExpectedReceipt(host: Host, expected: Expected, ual: string): Option<Receipt> {
    if ual == "" || |ual| > MAX_STRING || ual !in expected.byUal then None
    else
      var e := expected.byUal[ual];
      match host.postReadDigest(e.projection)
      case None => None
      case Some(digest) =>
        Some(Receipt(KIND, expected.contextGraphId, ual, e.assertionVersion, e.vmGraphIri, digest, "materialized", "retired"))
  }

  function Uals(receipts: seq<Receipt>): seq<string> { Map((r: Receipt) => r.kaUal, receipts) }

  ghost predicate AllAsExpected(host: Host, expected: Expected, receipts: seq<Receipt>) {
    forall i :: 0 <= i < |receipts| ==> AsExpected(host, expected, receipts[i])
  }

  /** A non-empty UAL within the limit that is expected, and every other field as the expectation has it. */
  ghost predicate AsExpected(host: Host, expected: Expected, receipt: Receipt) {
    && 1 <= |receipt.kaUal| <= MAX_STRING && receipt.kaUal in expected.byUal
    && var e := expected.byUal[receipt.kaUal];
    && receipt.kind == KIND && receipt.contextGraphId == expected.contextGraphId
    && receipt.assertionVersion == e.assertionVersion && receipt.vmGraphIri == e.vmGraphIri
    && Some(receipt.vmPostReadDigest) == host.postReadDigest(e.projection)
    && receipt.vmMaterializationStatus == "materialized" && receipt.swmReconciliationOutcome == "retired"
  }

  lemma ExpectedIff(host: Host, expected: Expected, receipt: Receipt)
    ensures ExpectedReceipt(host, expected, receipt.kaUal) == Some(receipt) <==> AsExpected(host, expected, receipt)
  {
    if AsExpected(host, expected, receipt) {
      var e := expected.byUal[receipt.kaUal];
      assert receipt == Receipt(KIND, expected.contextGraphId, receipt.kaUal, e.assertionVersion, e.vmGraphIri,
                                receipt.vmPostReadDigest, "materialized", "retired");
    }
  }

  /** What the pass over the first n receipts demands. */
  ghost predicate Passes(host: Host, expected: Expected, receipts: seq<Receipt>, n: nat)
    requires n <= |receipts|
  {
    && (forall i :: 0 <= i < n ==> AsExpected(host, expected, receipts[i]))
    && (forall i, j :: 0 <= i < j < n ==> receipts[i].kaUal != receipts[j].kaUal)
    && forall i :: 0 < i < n ==> host.less(receipts[i - 1].kaUal, receipts[i].kaUal)
  }

  ghost predicate Accepts(host: Host, expected: Expected, receipts: seq<Receipt>) {
    |receipts| == |expected.byUal| <= MAX_RECEIPTS && Passes(host, expected, receipts, |receipts|)
  }

  /** The first n receipts, by UAL. */
  ghost predicate Indexed(byUal: map<string, Receipt>, receipts: seq<Receipt>, n: nat)
    requires n <= |receipts|
  {
    && (forall i :: 0 <= i < n ==> receipts[i].kaUal in byUal && byUal[receipts[i].kaUal] == receipts[i])
    && forall ual :: ual in byUal ==> byUal[ual].kaUal == ual && byUal[ual] in receipts[..n]
  }

  /** Lines 59 to 132, on receipts of the right shape; the result also lists them by UAL. */
  method Check(host: Host, expected: Expected, receipts: seq<Receipt>) returns (byUal: Option<map<string, Receipt>>)
    ensures byUal.Some? <==> Accepts(host, expected, receipts)
    ensures byUal.Some? ==> Indexed(byUal.value, receipts, |receipts|)
  {
    if |receipts| > MAX_RECEIPTS || |receipts| != |expected.byUal| { return None; }
    var found: map<string, Receipt> := map[];
    var previousUal := None;
    for i := 0 to |receipts|
      invariant previousUal == if i == 0 then None else Some(receipts[i - 1].kaUal)
      invariant Indexed(found, receipts, i)
      invariant Passes(host, expected, receipts, i)
    {
      var receipt := receipts[i];
      if receipt.kaUal in found {
        RepeatedUal(host, expected, receipts, i, found);
        return None;
      }
      if previousUal.Some? && !host.less(previousUal.value, receipt.kaUal) { return None; }
      previousUal := Some(receipt.kaUal);
      ExpectedIff(host, expected, receipt);
      if ExpectedReceipt(host, expected, receipt.kaUal) != Some(receipt) { return None; }
      ExtendIndex(found, receipts, i);
      found := found[receipt.kaUal := receipt];
    }
    return Some(found);
  }

  lemma RepeatedUal(host: Host, expected: Expected, receipts: seq<Receipt>, n: nat, found: map<string, Receipt>)
    requires n < |receipts| && Indexed(found, receipts, n) && receipts[n].kaUal in found
    ensures !Passes(host, expected, receipts, |receipts|)
  {
    var i :| 0 <= i < n && receipts[..n][i] == found[receipts[n].kaUal];
    assert receipts[i].kaUal == receipts[n].kaUal;
  }

  lemma ExtendIndex(found: map<string, Receipt>, receipts: seq<Receipt>, n: nat)
    requires n < |receipts| && Indexed(found, receipts, n) && receipts[n].kaUal !in found
    ensures Indexed(found[receipts[n].kaUal := receipts[n]], receipts, n + 1)
  {
    assert receipts[..n + 1] == receipts[..n] + [receipts[n]];
  }

  /** Different expected UALs, as many as are expected, are all the expected UALs. */
  lemma AcceptedCoverExpected(host: Host, expected: Expected, receipts: seq<Receipt>)
    requires Accepts(host, expected, receipts)
    ensures Elements(Uals(receipts)) == expected.byUal.Keys
  {
    forall ual | ual in Elements(Uals(receipts)) ensures ual in expected.byUal {
      var i :| 0 <= i < |receipts| && Uals(receipts)[i] == ual;
      assert AsExpected(host, expected, receipts[i]);
    }
    DistinctCardinality(Uals(receipts));
    SubsetOfSameSize(Elements(Uals(receipts)), expected.byUal.Keys);
  }

  ghost predicate StrictOrder(less: (string, string) -> bool) {
    && (forall a, b :: less(a, b) ==> !less(b, a))
    && (forall a, b, c :: less(a, b) && less(b, c) ==> less(a, c))
  }

  lemma {:induction false} NeighboursSuffice(less: (string, string) -> bool, uals: seq<string>, i: nat, j: nat)
    requires StrictOrder(less) && i < j < |uals|
    requires forall k :: 0 < k < |uals| ==> less(uals[k - 1], uals[k])
    ensures less(uals[i], uals[j])
    decreases j
  {
    assert less(uals[j - 1], uals[j]);
    if i + 1 < j { NeighboursSuffice(less, uals, i, j - 1); }
  }

  /** Accepted exactly when the receipts are the expected ones, of all expected UALs, in strict order. */
  lemma AcceptedIff(host: Host, expected: Expected, receipts: seq<Receipt>)
    requires StrictOrder(host.less)
    ensures Accepts(host, expected, receipts) <==>
            && |expected.byUal| <= MAX_RECEIPTS
            && StrictlySorted(host.less, Uals(receipts))
            && Elements(Uals(receipts)) == expected.byUal.Keys
            && AllAsExpected(host, expected, receipts)
  {
    if Accepts(host, expected, receipts) {
      AcceptedCoverExpected(host, expected, receipts);
      AcceptedIsSorted(host, expected, receipts);
    }
    if StrictlySorted(host.less, Uals(receipts)) && Elements(Uals(receipts)) == expected.byUal.Keys {
      SortedPasses(host.less, expected, receipts);
    }
  }

  lemma AcceptedIsSorted(host: Host, expected: Expected, receipts: seq<Receipt>)
    requires StrictOrder(host.less) && Accepts(host, expected, receipts)
    ensures StrictlySorted(host.less, Uals(receipts))
  {
    var uals := Uals(receipts);
    forall i, j | 0 <= i < j < |uals| ensures host.less(uals[i], uals[j]) { NeighboursSuffice(host.less, uals, i, j); }
  }

  lemma SortedPasses(less: (string, string) -> bool, expected: Expected, receipts: seq<Receipt>)
    requires StrictlySorted(less, Uals(receipts)) && Elements(Uals(receipts)) == expected.byUal.Keys
    requires forall a :: !less(a, a)
    ensures |receipts| == |expected.byUal|
    ensures forall i, j :: 0 <= i < j < |receipts| ==> receipts[i].kaUal != receipts[j].kaUal
    ensures forall i :: 0 < i < |receipts| ==> less(receipts[i - 1].kaUal, receipts[i].kaUal)
  {
    var uals := Uals(receipts);
    forall i, j | 0 <= i < j < |uals| ensures less(receipts[i].kaUal, receipts[j].kaUal) && uals[i] != uals[j] {
      assert less(uals[i], uals[j]);
    }
    DistinctCardinality(uals);
  }

  /** An expectation accepts at most one list of receipts. */
  lemma AcceptedListIsUnique(host: Host, expected: Expected, a: seq<Receipt>, b: seq<Receipt>)
    requires StrictOrder(host.less) && Accepts(host, expected, a) && Accepts(host, expected, b)
    ensures a == b
  {
    AcceptedIff(host, expected, a);
    AcceptedIff(host, expected, b);
    forall x ensures x in Uals(a) <==> x in Uals(b) {
      assert x in Elements(Uals(a)) <==> x in Elements(Uals(b));
    }
    StrictlySortedUnique(host.less, Uals(a), Uals(b));
    forall i | 0 <= i < |a| ensures a[i] == b[i] {
      assert a[i].kaUal == Uals(a)[i] == Uals(b)[i] == b[i].kaUal;
      assert AsExpected(host, expected, a[i]) && AsExpected(host, expected, b[i]);
    }
  }
}
