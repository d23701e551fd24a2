/**
 * Phases 2 and 3 of the publisher refund snapshot: spreading each collection's
 * tokens over its epochs, and scaling every epoch to its on-chain pool.
 * All amounts are whole wei.
 */
module Allocation {
  import opened Sequences
  import opened Numbers
  import opened InsertionMap
  import opened Refunds
  import Sorting

  type Shares = Dict<Address, int>
  type EpochMap = Dict<int, Shares>

  datatype Entry = Entry(publisher: Address, wei: int)
  datatype EpochSnapshot = EpochSnapshot(epoch: int, total: int, pool: nat, publishers: seq<Entry>)

  function FirstRefundEpoch(kc: FutureKc, currentEpoch: int): int { Max(kc.startEpoch, currentEpoch) }

  function PerFullEpoch(kc: FutureKc): nat
    requires kc.endEpoch > kc.startEpoch
  {
    kc.tokenAmount / (kc.endEpoch - kc.startEpoch)
  }

  // ----- the reference: what a collection owes a publisher in an epoch

  predicate Covers(kc: FutureKc, currentEpoch: int, epoch: int) {
    kc.endEpoch > kc.startEpoch && FirstRefundEpoch(kc, currentEpoch) <= epoch <= kc.endEpoch
  }

  function Share(kc: FutureKc, currentEpoch: int, epoch: int, publisher: Address): nat {
    if Covers(kc, currentEpoch, epoch) && kc.publisher == publisher then PerFullEpoch(kc) else 0
  }

  function Weight(kcs: seq<FutureKc>, currentEpoch: int, epoch: int, publisher: Address): nat {
    if kcs == [] then 0
    else Weight(kcs[1..], currentEpoch, epoch, publisher) + Share(kcs[0], currentEpoch, epoch, publisher)
  }

  /** All that one collection contributes: one full-epoch share for each epoch, the last one included. */
  function Contribution(kc: FutureKc, currentEpoch: int): nat {
    if kc.endEpoch <= kc.startEpoch then 0
    else Times(kc.endEpoch - FirstRefundEpoch(kc, currentEpoch) + 1, PerFullEpoch(kc))
  }

  function Times(n: int, wei: nat): nat { if n <= 0 then 0 else n * wei }

  lemma TimesStep(n: nat, wei: nat)
    ensures Times(n + 1, wei) == Times(n, wei) + wei
  {
    assert (n + 1) * wei == n * wei + wei;
  }

  function Contributions(kcs: seq<FutureKc>, currentEpoch: int): nat {
    if kcs == [] then 0
    else Contributions(kcs[..|kcs| - 1], currentEpoch) + Contribution(kcs[|kcs| - 1], currentEpoch)
  }

  /** The inclusive last epoch makes a collection contribute at most one share more than it locks. */
  lemma ContributionAtMost(kc: FutureKc, currentEpoch: int)
    ensures Contribution(kc, currentEpoch) <=
            kc.tokenAmount + (if kc.endEpoch > kc.startEpoch then PerFullEpoch(kc) else 0)
  {
    if kc.endEpoch > kc.startEpoch {
      var n, per := kc.endEpoch - kc.startEpoch, PerFullEpoch(kc);
      var k := kc.endEpoch - FirstRefundEpoch(kc, currentEpoch) + 1;
      assert n * per <= kc.tokenAmount;
      MulMonotone(k, n + 1, per);
      assert (n + 1) * per == n * per + per;
    }
  }

  lemma MulMonotone(a: int, b: int, m: nat)
    requires a <= b
    ensures a * m <= b * m
  {
    assert (b - a) * m >= 0;
    assert (b - a) * m == b * m - a * m;
  }

  // ----- the nested map

  function SharesAt(m: EpochMap, epoch: int): Shares {
    if epoch in m.at then m.at[epoch] else Empty()
  }

  ghost predicate ValidAt(m: EpochMap, epoch: int) { SharesAt(m, epoch).Valid() }

  ghost predicate ValidMap(m: EpochMap) {
    m.Valid() && forall e :: ValidAt(m, e)
  }

  ghost predicate Has(m: EpochMap, epoch: int, publisher: Address) {
    epoch in m.at && publisher in m.at[epoch].at
  }

  ghost function Lookup(m: EpochMap, epoch: int, publisher: Address): int {
    if Has(m, epoch, publisher) then m.at[epoch].at[publisher] else 0
  }

  function SumEpochs(epochs: seq<int>, at: map<int, Shares>): int {
    if epochs == [] then 0
    else
      var e := epochs[|epochs| - 1];
      SumEpochs(epochs[..|epochs| - 1], at) + if e in at then Total(at[e]) else 0
  }

  /** Everything the map allocates, over all epochs and publishers. */
  function GrandTotal(m: EpochMap): int { SumEpochs(m.keys, m.at) }

  function AddShare(m: EpochMap, epoch: int, publisher: Address, wei: nat): EpochMap {
    m.Set(epoch, Add(SharesAt(m, epoch), publisher, wei))
  }

  lemma AddShareValid(m: EpochMap, epoch: int, publisher: Address, wei: nat)
    requires ValidMap(m)
    ensures ValidMap(AddShare(m, epoch, publisher, wei))
  {
    assert ValidAt(m, epoch);
    AddKeeps(SharesAt(m, epoch), publisher, wei);
    SetKeepsValid(m, epoch, Add(SharesAt(m, epoch), publisher, wei));
    forall e ensures ValidAt(AddShare(m, epoch, publisher, wei), e) {
      assert ValidAt(m, e);
    }
  }

  lemma AddShareMeaning(m: EpochMap, epoch: int, publisher: Address, wei: nat)
    ensures forall e, p :: Has(AddShare(m, epoch, publisher, wei), e, p) <==>
              Has(m, e, p) || (e == epoch && p == publisher)
    ensures forall e, p :: Lookup(AddShare(m, epoch, publisher, wei), e, p) ==
              Lookup(m, e, p) + if e == epoch && p == publisher then wei else 0
  {
  }

  lemma {:induction false} SumEpochsUpdate(epochs: seq<int>, at: map<int, Shares>, e: int, shares: Shares)
    requires Distinct(epochs)
    ensures SumEpochs(epochs, at[e := shares]) ==
            SumEpochs(epochs, at) + if e in epochs then Total(shares) - (if e in at then Total(at[e]) else 0) else 0
  {
    if epochs != [] {
      var front, last := epochs[..|epochs| - 1], epochs[|epochs| - 1];
      SumEpochsUpdate(front, at, e, shares);
      assert epochs == front + [last];
    }
  }

  ghost function TotalAt(m: EpochMap, epoch: int): int {
    if epoch in m.at then Total(m.at[epoch]) else 0
  }

  lemma SetMovesGrandTotal(m: EpochMap, epoch: int, shares: Shares)
    requires m.Valid()
    ensures GrandTotal(m.Set(epoch, shares)) == GrandTotal(m) - TotalAt(m, epoch) + Total(shares)
  {
    SumEpochsUpdate(m.keys, m.at, epoch, shares);
    if epoch !in m.at {
      assert (m.keys + [epoch])[..|m.keys|] == m.keys;
    }
  }

  lemma AddShareTotal(m: EpochMap, epoch: int, publisher: Address, wei: nat)
    requires m.Valid() && SharesAt(m, epoch).Valid()
    ensures GrandTotal(AddShare(m, epoch, publisher, wei)) == GrandTotal(m) + wei
  {
    AddKeeps(SharesAt(m, epoch), publisher, wei);
    SetMovesGrandTotal(m, epoch, Add(SharesAt(m, epoch), publisher, wei));
  }

  /** The collection's shares for the epochs before `epoch`. */
  function Spread(m: EpochMap, kc: FutureKc, currentEpoch: int, epoch: int): EpochMap
    requires kc.endEpoch > kc.startEpoch
    decreases epoch - FirstRefundEpoch(kc, currentEpoch)
  {
    if epoch <= FirstRefundEpoch(kc, currentEpoch) then m
    else AddShare(Spread(m, kc, currentEpoch, epoch - 1), epoch - 1, kc.publisher, PerFullEpoch(kc))
  }

  lemma {:induction false} SpreadMeaning(m: EpochMap, kc: FutureKc, currentEpoch: int, epoch: int)
    requires ValidMap(m) && kc.endEpoch > kc.startEpoch && epoch >= FirstRefundEpoch(kc, currentEpoch)
    ensures var m' := Spread(m, kc, currentEpoch, epoch);
            var first := FirstRefundEpoch(kc, currentEpoch);
            && ValidMap(m')
            && (forall e, p :: Has(m', e, p) <==> Has(m, e, p) || (first <= e < epoch && p == kc.publisher))
            && (forall e, p :: Lookup(m', e, p) ==
                  Lookup(m, e, p) + if first <= e < epoch && p == kc.publisher then PerFullEpoch(kc) else 0)
            && GrandTotal(m') == GrandTotal(m) + Times(epoch - first, PerFullEpoch(kc))
    decreases epoch - FirstRefundEpoch(kc, currentEpoch)
  {
    var first, per := FirstRefundEpoch(kc, currentEpoch), PerFullEpoch(kc);
    if epoch > first {
      SpreadMeaning(m, kc, currentEpoch, epoch - 1);
      var before := Spread(m, kc, currentEpoch, epoch - 1);
      assert ValidAt(before, epoch - 1);
      AddShareValid(before, epoch - 1, kc.publisher, per);
      AddShareMeaning(before, epoch - 1, kc.publisher, per);
      AddShareTotal(before, epoch - 1, kc.publisher, per);
      TimesStep(epoch - 1 - first, per);
    }
  }

  function AllocateAll(kcs: seq<FutureKc>, currentEpoch: int): EpochMap {
    if kcs == [] then Empty()
    else
      AllocateOne(AllocateAll(kcs[..|kcs| - 1], currentEpoch), kcs[|kcs| - 1], currentEpoch)
  }

  ghost predicate Owed(kcs: seq<FutureKc>, currentEpoch: int, epoch: int, publisher: Address) {
    exists i :: 0 <= i < |kcs| && Covers(kcs[i], currentEpoch, epoch) && kcs[i].publisher == publisher
  }

  lemma {:induction false} WeightAppend(kcs: seq<FutureKc>, kc: FutureKc, currentEpoch: int, epoch: int, publisher: Address)
    ensures Weight(kcs + [kc], currentEpoch, epoch, publisher)
         == Weight(kcs, currentEpoch, epoch, publisher) + Share(kc, currentEpoch, epoch, publisher)
  {
    if kcs == [] {
      assert kcs + [kc] == [kc];
    } else {
      WeightAppend(kcs[1..], kc, currentEpoch, epoch, publisher);
      assert (kcs + [kc])[1..] == kcs[1..] + [kc];
    }
  }

  /** The map holds exactly what is owed, to exactly those who are owed, and conserves the contributions. */
  ghost predicate Allocated(m: EpochMap, kcs: seq<FutureKc>, currentEpoch: int) {
    && ValidMap(m)
    && (forall e, p :: Has(m, e, p) <==> Owed(kcs, currentEpoch, e, p))
    && (forall e, p :: Lookup(m, e, p) == Weight(kcs, currentEpoch, e, p))
    && GrandTotal(m) == Contributions(kcs, currentEpoch)
  }

  function AllocateOne(m: EpochMap, kc: FutureKc, currentEpoch: int): EpochMap {
    if kc.endEpoch <= kc.startEpoch then m else Spread(m, kc, currentEpoch, kc.endEpoch + 1)
  }

  lemma AllocateOneMeaning(m: EpochMap, kc: FutureKc, currentEpoch: int)
    requires ValidMap(m)
    ensures var m' := AllocateOne(m, kc, currentEpoch);
            && ValidMap(m')
            && (forall e, p :: Has(m', e, p) <==> Has(m, e, p) || (Covers(kc, currentEpoch, e) && kc.publisher == p))
            && (forall e, p :: Lookup(m', e, p) == Lookup(m, e, p) + Share(kc, currentEpoch, e, p))
            && GrandTotal(m') == GrandTotal(m) + Contribution(kc, currentEpoch)
  {
    if kc.endEpoch > kc.startEpoch && kc.endEpoch + 1 >= FirstRefundEpoch(kc, currentEpoch) {
      SpreadMeaning(m, kc, currentEpoch, kc.endEpoch + 1);
      var m' := Spread(m, kc, currentEpoch, kc.endEpoch + 1);
      forall e, p
        ensures Has(m', e, p) <==> Has(m, e, p) || (Covers(kc, currentEpoch, e) && kc.publisher == p)
        ensures Lookup(m', e, p) == Lookup(m, e, p) + Share(kc, currentEpoch, e, p)
      {
        assert FirstRefundEpoch(kc, currentEpoch) <= e < kc.endEpoch + 1 <==> Covers(kc, currentEpoch, e);
      }
    }
  }

  lemma AllocateStep(m: EpochMap, kcs: seq<FutureKc>, kc: FutureKc, currentEpoch: int)
    requires Allocated(m, kcs, currentEpoch)
    ensures Allocated(AllocateOne(m, kc, currentEpoch), kcs + [kc], currentEpoch)
  {
    var m' := AllocateOne(m, kc, currentEpoch);
    assert (kcs + [kc])[..|kcs|] == kcs;
    AllocateOneMeaning(m, kc, currentEpoch);
    forall e, p
      ensures Lookup(m', e, p) == Weight(kcs + [kc], currentEpoch, e, p)
      ensures Has(m', e, p) <==> Owed(kcs + [kc], currentEpoch, e, p)
    {
      WeightAppend(kcs, kc, currentEpoch, e, p);
      OwedAppend(kcs, kc, currentEpoch, e, p);
    }
  }

  lemma {:induction false} AllocateMeaning(kcs: seq<FutureKc>, currentEpoch: int)
    ensures Allocated(AllocateAll(kcs, currentEpoch), kcs, currentEpoch)
  {
    if kcs != [] {
      var front, kc := kcs[..|kcs| - 1], kcs[|kcs| - 1];
      AllocateMeaning(front, currentEpoch);
      AllocateStep(AllocateAll(front, currentEpoch), front, kc, currentEpoch);
      assert kcs == front + [kc];
    }
  }

  lemma OwedAppend(kcs: seq<FutureKc>, kc: FutureKc, currentEpoch: int, epoch: int, publisher: Address)
    ensures Owed(kcs + [kc], currentEpoch, epoch, publisher) <==>
            Owed(kcs, currentEpoch, epoch, publisher) || (Covers(kc, currentEpoch, epoch) && kc.publisher == publisher)
  {
    var all := kcs + [kc];
    assert all[|kcs|] == kc;
    if i :| 0 <= i < |kcs| && Covers(kcs[i], currentEpoch, epoch) && kcs[i].publisher == publisher {
      assert all[i] == kcs[i];
    }
  }

  lemma {:induction false} WeightRemove(kcs: seq<FutureKc>, i: nat, currentEpoch: int, epoch: int, publisher: Address)
    requires i < |kcs|
    ensures Weight(kcs, currentEpoch, epoch, publisher)
         == Weight(kcs[..i] + kcs[i + 1..], currentEpoch, epoch, publisher) + Share(kcs[i], currentEpoch, epoch, publisher)
  {
    if i == 0 {
      assert kcs[..0] + kcs[1..] == kcs[1..];
    } else {
      WeightRemove(kcs[1..], i - 1, currentEpoch, epoch, publisher);
      assert (kcs[..i] + kcs[i + 1..])[1..] == kcs[1..][..i - 1] + kcs[1..][i..];
    }
  }

  lemma {:induction false} WeightIgnoresOrder(a: seq<FutureKc>, b: seq<FutureKc>, currentEpoch: int, epoch: int, publisher: Address)
    requires multiset(a) == multiset(b)
    ensures Weight(a, currentEpoch, epoch, publisher) == Weight(b, currentEpoch, epoch, publisher)
    decreases |a|
  {
    Sorting.SameMultiset(a, b);
    if a != [] {
      assert a[0] in b;
      var i :| 0 <= i < |b| && b[i] == a[0];
      Sorting.TailContents(a);
      Sorting.RestContents(b, i);
      WeightIgnoresOrder(a[1..], b[..i] + b[i + 1..], currentEpoch, epoch, publisher);
      WeightRemove(b, i, currentEpoch, epoch, publisher);
    }
  }

  /** The collections may arrive in any order: every publisher gets the same in every epoch. */
  lemma AllocationIgnoresOrder(a: seq<FutureKc>, b: seq<FutureKc>, currentEpoch: int)
    requires multiset(a) == multiset(b)
    ensures var ma, mb := AllocateAll(a, currentEpoch), AllocateAll(b, currentEpoch);
            && (forall e, p :: Has(ma, e, p) <==> Has(mb, e, p))
            && (forall e, p :: Lookup(ma, e, p) == Lookup(mb, e, p))
  {
    AllocateMeaning(a, currentEpoch);
    AllocateMeaning(b, currentEpoch);
    Sorting.SameMultiset(a, b);
    forall e, p ensures Weight(a, currentEpoch, e, p) == Weight(b, currentEpoch, e, p) {
      WeightIgnoresOrder(a, b, currentEpoch, e, p);
    }
    forall e, p ensures Owed(a, currentEpoch, e, p) <==> Owed(b, currentEpoch, e, p) {
      OwedContents(a, b, currentEpoch, e, p);
      OwedContents(b, a, currentEpoch, e, p);
    }
  }

  lemma OwedContents(a: seq<FutureKc>, b: seq<FutureKc>, currentEpoch: int, epoch: int, publisher: Address)
    requires forall kc :: kc in a ==> kc in b
    ensures Owed(a, currentEpoch, epoch, publisher) ==> Owed(b, currentEpoch, epoch, publisher)
  {
    if i :| 0 <= i < |a| && Covers(a[i], currentEpoch, epoch) && a[i].publisher == publisher {
      assert a[i] in b;
      var j :| 0 <= j < |b| && b[j] == a[i];
    }
  }

  // ----- what is owed, read off the collections

  /** The collection locks tokens in this epoch, the last one included, and the epoch is not over. */
  predicate LockedIn(kc: FutureKc, currentEpoch: int, epoch: int) {
    kc.startEpoch < kc.endEpoch && kc.startEpoch <= epoch && currentEpoch <= epoch && epoch <= kc.endEpoch
  }

  /** The tokens divided evenly over the epochs, rounded down, for each epoch in which they are locked. */
  function Owes(currentEpoch: int, epoch: int, publisher: Address): FutureKc -> int {
    (kc: FutureKc) =>
      if LockedIn(kc, currentEpoch, epoch) && kc.publisher == publisher then kc.tokenAmount / (kc.endEpoch - kc.startEpoch)
      else 0
  }

  /** Over all its epochs. */
  function OwesInAll(currentEpoch: int): FutureKc -> int {
    (kc: FutureKc) =>
      if !LockedIn(kc, currentEpoch, kc.endEpoch) then 0
      else (kc.endEpoch - (if kc.startEpoch < currentEpoch then currentEpoch else kc.startEpoch) + 1)
           * (kc.tokenAmount / (kc.endEpoch - kc.startEpoch))
  }

  ghost predicate IsOwed(kcs: seq<FutureKc>, currentEpoch: int, epoch: int, publisher: Address) {
    exists i :: 0 <= i < |kcs| && LockedIn(kcs[i], currentEpoch, epoch) && kcs[i].publisher == publisher
  }

  /** The map says what the collections owe, to whom, and what it all adds up to. */
  ghost predicate OwesExactly(m: EpochMap, kcs: seq<FutureKc>, currentEpoch: int) {
    && (forall e, p :: Has(m, e, p) <==> IsOwed(kcs, currentEpoch, e, p))
    && (forall e, p :: Lookup(m, e, p) == SumBy(Owes(currentEpoch, e, p), kcs))
    && GrandTotal(m) == SumBy(OwesInAll(currentEpoch), kcs)
  }

  lemma {:induction false} WeightIsOwed(kcs: seq<FutureKc>, currentEpoch: int, epoch: int, publisher: Address)
    ensures Weight(kcs, currentEpoch, epoch, publisher) == SumBy(Owes(currentEpoch, epoch, publisher), kcs)
  {
    if kcs != [] {
      WeightIsOwed(kcs[1..], currentEpoch, epoch, publisher);
      SumByFirst(Owes(currentEpoch, epoch, publisher), kcs);
      assert Share(kcs[0], currentEpoch, epoch, publisher) == Owes(currentEpoch, epoch, publisher)(kcs[0]);
    }
  }

  lemma ContributionIsOwed(kc: FutureKc, currentEpoch: int)
    ensures Contribution(kc, currentEpoch) == OwesInAll(currentEpoch)(kc)
  {
  }

  lemma {:induction false} ContributionsAreOwed(kcs: seq<FutureKc>, currentEpoch: int)
    ensures Contributions(kcs, currentEpoch) == SumBy(OwesInAll(currentEpoch), kcs)
  {
    if kcs != [] {
      ContributionsAreOwed(kcs[..|kcs| - 1], currentEpoch);
      ContributionIsOwed(kcs[|kcs| - 1], currentEpoch);
    }
  }

  lemma AllocationOwesExactly(kcs: seq<FutureKc>, currentEpoch: int)
    ensures OwesExactly(AllocateAll(kcs, currentEpoch), kcs, currentEpoch)
  {
    var m := AllocateAll(kcs, currentEpoch);
    AllocateMeaning(kcs, currentEpoch);
    ContributionsAreOwed(kcs, currentEpoch);
    forall e, p
      ensures Lookup(m, e, p) == SumBy(Owes(currentEpoch, e, p), kcs)
      ensures Has(m, e, p) <==> IsOwed(kcs, currentEpoch, e, p)
    {
      WeightIsOwed(kcs, currentEpoch, e, p);
      assert Lookup(m, e, p) == Weight(kcs, currentEpoch, e, p);
      assert Has(m, e, p) <==> Owed(kcs, currentEpoch, e, p);
      assert forall kc :: Covers(kc, currentEpoch, e) <==> LockedIn(kc, currentEpoch, e);
    }
  }

  /** The tokens and one more even share: the current epoch and the end epoch both count. */
  function TokensAndShare(kc: FutureKc): int {
    kc.tokenAmount + if kc.startEpoch < kc.endEpoch then kc.tokenAmount / (kc.endEpoch - kc.startEpoch) else 0
  }

  /** All that is allocated is at most the tokens and one even share per collection. */
  lemma AllocationAtMost(kcs: seq<FutureKc>, currentEpoch: int)
    ensures GrandTotal(AllocateAll(kcs, currentEpoch)) <= SumBy(TokensAndShare, kcs)
  {
    AllocationOwesExactly(kcs, currentEpoch);
    forall i | 0 <= i < |kcs| ensures OwesInAll(currentEpoch)(kcs[i]) <= TokensAndShare(kcs[i]) {
      ContributionAtMost(kcs[i], currentEpoch);
      ContributionIsOwed(kcs[i], currentEpoch);
    }
    SumByAtMost(OwesInAll(currentEpoch), TokensAndShare, kcs);
  }

  lemma FloorOf(amount: nat, n: int)
    requires n > 0
    ensures (amount / n) * n <= amount < (amount / n + 1) * n
  {
    assert (amount / n + 1) * n == (amount / n) * n + n;
  }

  lemma IsOwedAppend(kcs: seq<FutureKc>, kc: FutureKc, currentEpoch: int, epoch: int, publisher: Address)
    ensures IsOwed(kcs + [kc], currentEpoch, epoch, publisher) <==>
            IsOwed(kcs, currentEpoch, epoch, publisher) || (LockedIn(kc, currentEpoch, epoch) && kc.publisher == publisher)
  {
    var all := kcs + [kc];
    assert all[|kcs|] == kc;
    if i :| 0 <= i < |kcs| && LockedIn(kcs[i], currentEpoch, epoch) && kcs[i].publisher == publisher { assert all[i] == kcs[i]; }
  }

  /** What the last collection changes at one place of the map. */
  ghost function AddedBy(kcs: seq<FutureKc>, kc: FutureKc, currentEpoch: int, epoch: int, publisher: Address): int {
    Lookup(AllocateAll(kcs + [kc], currentEpoch), epoch, publisher) - Lookup(AllocateAll(kcs, currentEpoch), epoch, publisher)
  }

  lemma AddedIsOwed(kcs: seq<FutureKc>, kc: FutureKc, currentEpoch: int, epoch: int, publisher: Address)
    ensures AddedBy(kcs, kc, currentEpoch, epoch, publisher) == Owes(currentEpoch, epoch, publisher)(kc)
    ensures Has(AllocateAll(kcs + [kc], currentEpoch), epoch, publisher) <==>
            Has(AllocateAll(kcs, currentEpoch), epoch, publisher) || (LockedIn(kc, currentEpoch, epoch) && kc.publisher == publisher)
  {
    AllocationOwesExactly(kcs, currentEpoch);
    AllocationOwesExactly(kcs + [kc], currentEpoch);
    IsOwedAppend(kcs, kc, currentEpoch, epoch, publisher);
    assert (kcs + [kc])[..|kcs|] == kcs;
  }

  /**
   * One more collection adds its even share, rounded down, to its own publisher in every epoch from its
   * start or the current one to its end, and changes nothing else.
   */
  lemma AppendingAdds(kcs: seq<FutureKc>, kc: FutureKc, currentEpoch: int, epoch: int, publisher: Address)
    ensures var before, after := AllocateAll(kcs, currentEpoch), AllocateAll(kcs + [kc], currentEpoch);
            var added, n := AddedBy(kcs, kc, currentEpoch, epoch, publisher), kc.endEpoch - kc.startEpoch;
            if n > 0 && kc.startEpoch <= epoch && currentEpoch <= epoch <= kc.endEpoch && publisher == kc.publisher
            then Has(after, epoch, publisher) && added * n <= kc.tokenAmount < (added + 1) * n
            else added == 0 && (Has(after, epoch, publisher) <==> Has(before, epoch, publisher))
  {
    AddedIsOwed(kcs, kc, currentEpoch, epoch, publisher);
    if LockedIn(kc, currentEpoch, epoch) { FloorOf(kc.tokenAmount, kc.endEpoch - kc.startEpoch); }
  }

  lemma AddShareTotalAt(m: EpochMap, epoch: int, publisher: Address, wei: nat, e: int)
    requires ValidAt(m, epoch)
    ensures Total(SharesAt(AddShare(m, epoch, publisher, wei), e)) == Total(SharesAt(m, e)) + if e == epoch then wei else 0
  {
    AddKeeps(SharesAt(m, epoch), publisher, wei);
  }

  lemma SpreadStaysValid(m: EpochMap, kc: FutureKc, currentEpoch: int, epoch: int)
    requires ValidMap(m) && kc.endEpoch > kc.startEpoch && epoch >= FirstRefundEpoch(kc, currentEpoch)
    ensures ValidAt(Spread(m, kc, currentEpoch, epoch), epoch)
  {
    SpreadMeaning(m, kc, currentEpoch, epoch);
  }

  lemma {:induction false} SpreadTotalAt(m: EpochMap, kc: FutureKc, currentEpoch: int, epoch: int, e: int)
    requires ValidMap(m) && kc.endEpoch > kc.startEpoch && epoch >= FirstRefundEpoch(kc, currentEpoch)
    ensures Total(SharesAt(Spread(m, kc, currentEpoch, epoch), e)) ==
            Total(SharesAt(m, e)) + if FirstRefundEpoch(kc, currentEpoch) <= e < epoch then PerFullEpoch(kc) else 0
    decreases epoch - FirstRefundEpoch(kc, currentEpoch)
  {
    if epoch > FirstRefundEpoch(kc, currentEpoch) {
      SpreadTotalAt(m, kc, currentEpoch, epoch - 1, e);
      SpreadStaysValid(m, kc, currentEpoch, epoch - 1);
      AddShareTotalAt(Spread(m, kc, currentEpoch, epoch - 1), epoch - 1, kc.publisher, PerFullEpoch(kc), e);
    }
  }

  /** What the collection owes in the epoch, to whomever. */
  function OwesAnyone(currentEpoch: int, epoch: int): FutureKc -> int {
    (kc: FutureKc) => if LockedIn(kc, currentEpoch, epoch) then kc.tokenAmount / (kc.endEpoch - kc.startEpoch) else 0
  }

  lemma {:induction false} EpochOwes(kcs: seq<FutureKc>, currentEpoch: int, epoch: int)
    ensures Total(SharesAt(AllocateAll(kcs, currentEpoch), epoch)) == SumBy(OwesAnyone(currentEpoch, epoch), kcs)
  {
    if kcs != [] {
      var front, kc := kcs[..|kcs| - 1], kcs[|kcs| - 1];
      EpochOwes(front, currentEpoch, epoch);
      AllocateMeaning(front, currentEpoch);
      if kc.endEpoch > kc.startEpoch && kc.endEpoch + 1 >= FirstRefundEpoch(kc, currentEpoch) {
        SpreadTotalAt(AllocateAll(front, currentEpoch), kc, currentEpoch, kc.endEpoch + 1, epoch);
      }
    }
  }

  /** Lines 521 to 525: the inner map is created on first use. */
  method AddInPlace(m: EpochMap, epoch: int, publisher: Address, wei: nat) returns (m': EpochMap)
    ensures m' == AddShare(m, epoch, publisher, wei)
  {
    m' := m;
    if !m'.Has(epoch) { m' := m'.Set(epoch, Empty()); }
    var publisherMap := m'.at[epoch];
    m' := m'.Set(epoch, Add(publisherMap, publisher, wei));
    assert m'.at == AddShare(m, epoch, publisher, wei).at;
  }

  /** Lines 507 to 528. */
  method Allocate(kcs: seq<FutureKc>, currentEpoch: int) returns (m: EpochMap)
    ensures m == AllocateAll(kcs, currentEpoch)
    ensures Allocated(m, kcs, currentEpoch) && OwesExactly(m, kcs, currentEpoch)
  {
    m := Empty();
    for i := 0 to |kcs|
      invariant m == AllocateAll(kcs[..i], currentEpoch)
    {
      assert kcs[..i + 1][..i] == kcs[..i];
      var kc := kcs[i];
      var epochs := kc.endEpoch - kc.startEpoch;
      if epochs > 0 {
        var perFullEpochWei := kc.tokenAmount / epochs;
        var epoch := Max(kc.startEpoch, currentEpoch);
        ghost var before := m;
        assert epoch > kc.endEpoch ==> Spread(before, kc, currentEpoch, kc.endEpoch + 1) == before;
        while epoch <= kc.endEpoch
          invariant FirstRefundEpoch(kc, currentEpoch) <= epoch
          invariant epoch <= kc.endEpoch + 1 || epoch == FirstRefundEpoch(kc, currentEpoch)
          invariant m == Spread(before, kc, currentEpoch, epoch)
        {
          m := AddInPlace(m, epoch, kc.publisher, perFullEpochWei);
          epoch := epoch + 1;
        }
      }
    }
    assert kcs[..|kcs|] == kcs;
    AllocateMeaning(kcs, currentEpoch);
    AllocationOwesExactly(kcs, currentEpoch);
  }

  ghost predicate Inhabited(m: EpochMap, e: int) { e in m.at ==> m.at[e].keys != [] }

  lemma {:induction false} SpreadInhabits(m: EpochMap, kc: FutureKc, currentEpoch: int, epoch: int, e: int)
    requires kc.endEpoch > kc.startEpoch && Inhabited(m, e)
    ensures Inhabited(Spread(m, kc, currentEpoch, epoch), e)
    decreases epoch - FirstRefundEpoch(kc, currentEpoch)
  {
    if epoch > FirstRefundEpoch(kc, currentEpoch) {
      SpreadInhabits(m, kc, currentEpoch, epoch - 1, e);
      var shares := SharesAt(Spread(m, kc, currentEpoch, epoch - 1), epoch - 1);
      assert kc.publisher !in shares.at ==> Add(shares, kc.publisher, PerFullEpoch(kc)).keys == shares.keys + [kc.publisher];
      assert kc.publisher in shares.at ==> Add(shares, kc.publisher, PerFullEpoch(kc)).keys == shares.keys;
      if e == epoch - 1 && kc.publisher in shares.at { assert e in Spread(m, kc, currentEpoch, epoch - 1).at; }
    }
  }

  lemma {:induction false} AllocationInhabits(kcs: seq<FutureKc>, currentEpoch: int, e: int)
    ensures Inhabited(AllocateAll(kcs, currentEpoch), e)
  {
    if kcs != [] {
      var front, kc := kcs[..|kcs| - 1], kcs[|kcs| - 1];
      AllocationInhabits(front, currentEpoch, e);
      if kc.endEpoch > kc.startEpoch {
        SpreadInhabits(AllocateAll(front, currentEpoch), kc, currentEpoch, kc.endEpoch + 1, e);
      }
    }
  }

  ghost predicate SomebodyIsOwed(kcs: seq<FutureKc>, currentEpoch: int, e: int) {
    exists publisher :: Owed(kcs, currentEpoch, e, publisher)
  }

  /** The map has exactly the epochs in which somebody is owed. */
  lemma KeysAreOwed(kcs: seq<FutureKc>, currentEpoch: int, e: int)
    ensures e in AllocateAll(kcs, currentEpoch).keys <==> SomebodyIsOwed(kcs, currentEpoch, e)
  {
    var m := AllocateAll(kcs, currentEpoch);
    AllocateMeaning(kcs, currentEpoch);
    AllocationInhabits(kcs, currentEpoch, e);
    assert ValidAt(m, e);
    if e in m.keys {
      var publisher := m.at[e].keys[0];
      assert publisher in m.at[e].keys;
      assert Has(m, e, publisher);
    }
    if publisher :| Owed(kcs, currentEpoch, e, publisher) {
      assert Has(m, e, publisher);
    }
  }

  // ----- scaling an epoch to its pool

  predicate NeedsScaling(total: int, pool: nat) { pool > 0 && total > 0 && total != pool }

  function Scaled(wei: nat, total: int, pool: nat): nat {
    if NeedsScaling(total, pool) then (wei * pool) / total else wei
  }

  function ScaleAll(amounts: seq<int>, total: int, pool: nat): (r: seq<int>)
    requires NonNegative(amounts)
    ensures |r| == |amounts|
  {
    seq(|amounts|, i requires 0 <= i < |amounts| => Scaled(amounts[i], total, pool))
  }

  lemma ScaleAllFront(amounts: seq<int>, total: int, pool: nat)
    requires NonNegative(amounts) && amounts != []
    ensures NonNegative(amounts[..|amounts| - 1])
    ensures ScaleAll(amounts, total, pool)
         == ScaleAll(amounts[..|amounts| - 1], total, pool) + [Scaled(amounts[|amounts| - 1], total, pool)]
  {
  }

  lemma FloorBounds(wei: nat, total: int, pool: nat)
    requires total > 0
    ensures total * ((wei * pool) / total) <= wei * pool <= total * ((wei * pool) / total) + total - 1
  {
  }

  /** Rounding down loses less than one wei per publisher. */
  lemma {:induction false} FloorSum(amounts: seq<int>, total: int, pool: nat)
    requires NonNegative(amounts) && NeedsScaling(total, pool)
    ensures total * Sum(ScaleAll(amounts, total, pool)) <= Sum(amounts) * pool
    ensures Sum(amounts) * pool <= total * Sum(ScaleAll(amounts, total, pool)) + |amounts| * (total - 1)
  {
    if amounts != [] {
      var front, last := amounts[..|amounts| - 1], amounts[|amounts| - 1];
      ScaleAllFront(amounts, total, pool);
      FloorSum(front, total, pool);
      FloorBounds(last, total, pool);
      var before, share := Sum(ScaleAll(front, total, pool)), Scaled(last, total, pool);
      assert ScaleAll(amounts, total, pool)[..|amounts| - 1] == ScaleAll(front, total, pool);
      assert Sum(ScaleAll(amounts, total, pool)) == before + share;
      FloorStep(total, pool, before, share, Sum(front), last, |front|);
    }
  }

  lemma FloorStep(total: int, pool: int, before: int, share: int, sum: int, last: int, n: int)
    requires total * before <= sum * pool <= total * before + n * (total - 1)
    requires total * share <= last * pool <= total * share + total - 1
    ensures total * (before + share) <= (sum + last) * pool <= total * (before + share) + (n + 1) * (total - 1)
  {
    assert total * (before + share) == total * before + total * share;
    assert (sum + last) * pool == sum * pool + last * pool;
    assert (n + 1) * (total - 1) == n * (total - 1) + (total - 1);
  }

  /** The n shares of an epoch with a pool sum to at most the pool and miss it by less than n wei. */
  lemma ScaledSumNearPool(amounts: seq<int>, pool: nat)
    requires NonNegative(amounts) && Sum(amounts) > 0 && pool > 0
    ensures pool - (|amounts| - 1) <= Sum(ScaleAll(amounts, Sum(amounts), pool)) <= pool
  {
    var total := Sum(amounts);
    var scaled := Sum(ScaleAll(amounts, total, pool));
    assert |amounts| > 0;
    if total == pool {
      assert ScaleAll(amounts, total, pool) == amounts;
    } else {
      FloorSum(amounts, total, pool);
      CancelFactor(total, scaled, pool, |amounts|);
    }
  }

  lemma CancelFactor(total: int, scaled: int, pool: int, n: int)
    requires total > 0 && n > 0
    requires total * scaled <= total * pool <= total * scaled + n * (total - 1)
    ensures pool - (n - 1) <= scaled <= pool
  {
    if scaled > pool {
      MulMonotone(1, scaled - pool, total);
    }
    if scaled < pool - (n - 1) {
      MulMonotone(n, pool - scaled, total);
    }
  }

  /** An epoch stays within its pool exactly when there is a pool, or nothing is owed. */
  lemma WithinPoolIff(amounts: seq<int>, pool: nat)
    requires NonNegative(amounts)
    ensures Sum(ScaleAll(amounts, Sum(amounts), pool)) <= pool <==> pool > 0 || Sum(amounts) == 0
  {
    SumByNonNegative(Self, amounts);
    if pool > 0 && Sum(amounts) > 0 {
      ScaledSumNearPool(amounts, pool);
    } else {
      assert ScaleAll(amounts, Sum(amounts), pool) == amounts;
    }
  }

  /** An epoch with a pool comes within rounding of it exactly when something is owed, or rounding could explain all of it. */
  lemma ReachesPoolIff(amounts: seq<int>, pool: nat)
    requires NonNegative(amounts) && pool > 0
    ensures Sum(ScaleAll(amounts, Sum(amounts), pool)) >= pool - (|amounts| - 1) <==>
            Sum(amounts) > 0 || pool <= |amounts| - 1
  {
    SumByNonNegative(Self, amounts);
    if Sum(amounts) > 0 {
      ScaledSumNearPool(amounts, pool);
    } else {
      assert ScaleAll(amounts, Sum(amounts), pool) == amounts;
    }
  }

  /** A publisher who is owed a share of zero wei is listed, and no pool is scaled to. */
  lemma DustIsNotScaledUp()
    ensures ScaleAll([0], Sum([0]), 9) == [0] && Owed([FutureKc(1, 3, 5, 1, 7)], 3, 4, 7)
    ensures Weight([FutureKc(1, 3, 5, 1, 7)], 3, 4, 7) == 0
  {
    SumOfOne([0]);
    var kcs := [FutureKc(1, 3, 5, 1, 7)];
    assert Covers(kcs[0], 3, 4) && kcs[0].publisher == 7 && kcs[1..] == [];
    assert PerFullEpoch(kcs[0]) == 0;
  }

  /** With an empty pool everything that is owed is allocated all the same. */
  lemma EmptyPoolIsExceeded()
    ensures Sum(ScaleAll([5], Sum([5]), 0)) == 5 > 0
  {
    assert [5][..0] == [] && Sum([5]) == 5;
    assert ScaleAll([5], 5, 0) == [5];
  }

  /** A share grows exactly when scaling applies and the pool is larger by enough to add one wei to it. */
  lemma ScaledUpIff(a: nat, total: int, pool: nat)
    ensures Scaled(a, total, pool) > a <==> NeedsScaling(total, pool) && a * (pool - total) >= total
  {
    if NeedsScaling(total, pool) {
      var q := Scaled(a, total, pool);
      FloorBounds(a, total, pool);
      assert a * (pool - total) == a * pool - a * total;
      assert (a + 1) * total == a * total + total;
      if q > a {
        MulMonotone(a + 1, q, total);
        assert total * q == q * total;
      } else {
        MulMonotone(q + 1, a + 1, total);
        assert total * q + total == (q + 1) * total;
      }
    }
  }

  /** A pool three times as large triples every share. */
  lemma SharesAreScaledUp()
    ensures ScaleAll([1, 2], Sum([1, 2]), 9) == [3, 6]
  {
    assert [1, 2][..1] == [1] && [1][..0] == [];
    assert Sum([1]) == 1 && Sum([1, 2]) == 3;
  }

  /** A larger weight never gets a smaller share. */
  lemma ScalingKeepsOrder(a: nat, b: nat, total: int, pool: nat)
    requires a <= b
    ensures Scaled(a, total, pool) <= Scaled(b, total, pool)
  {
    if NeedsScaling(total, pool) {
      MulMonotone(a, b, pool);
      DivMonotone(a * pool, b * pool, total);
    }
  }

  lemma DivMonotone(x: nat, y: nat, d: int)
    requires x <= y && d > 0
    ensures x / d <= y / d
  {
    assert (x / d) * d <= x && y < (y / d + 1) * d;
    CompareQuotients(x / d, y / d, d);
  }

  lemma CompareQuotients(q: int, p: int, d: int)
    requires d > 0 && q * d < (p + 1) * d
    ensures q <= p
  {
    if q > p { MulMonotone(p + 1, q, d); }
  }

  predicate LargestFirst(a: Entry, b: Entry) { a.wei >= b.wei }

  function Weights(shares: Shares): (w: seq<int>)
    requires shares.Valid()
    ensures |w| == |shares.keys|
  {
    seq(|shares.keys|, i requires 0 <= i < |shares.keys| => shares.at[shares.keys[i]])
  }

  lemma {:induction false} WeightsSum(shares: Shares, n: nat)
    requires shares.Valid() && n <= |shares.keys|
    ensures SumOver(shares.keys[..n], shares.at) == Sum(Weights(shares)[..n])
  {
    if n > 0 {
      WeightsSum(shares, n - 1);
      assert shares.keys[..n][..n - 1] == shares.keys[..n - 1];
      assert Weights(shares)[..n][..n - 1] == Weights(shares)[..n - 1];
    }
  }

  lemma WeightsTotal(shares: Shares)
    requires shares.Valid()
    ensures Total(shares) == Sum(Weights(shares))
  {
    WeightsSum(shares, |shares.keys|);
    assert shares.keys[..|shares.keys|] == shares.keys;
    assert Weights(shares)[..|shares.keys|] == Weights(shares);
  }

  function Entries(shares: Shares, pool: nat): seq<Entry>
    requires shares.Valid() && NonNegative(Weights(shares))
  {
    var scaled := ScaleAll(Weights(shares), Total(shares), pool);
    seq(|shares.keys|, i requires 0 <= i < |shares.keys| => Entry(shares.keys[i], scaled[i]))
  }

  // ----- sums of entries

  ghost predicate NoDebts(entries: seq<Entry>) { forall i :: 0 <= i < |entries| ==> entries[i].wei >= 0 }

  function WeiOf(e: Entry): int { e.wei }

  function SumAll(entries: seq<Entry>): int { SumBy(WeiOf, entries) }

  lemma {:induction false} EntriesSum(shares: Shares, pool: nat, n: nat)
    requires shares.Valid() && NonNegative(Weights(shares)) && n <= |shares.keys|
    ensures SumAll(Entries(shares, pool)[..n]) == Sum(ScaleAll(Weights(shares), Total(shares), pool)[..n])
  {
    if n > 0 {
      EntriesSum(shares, pool, n - 1);
      var entries, scaled := Entries(shares, pool), ScaleAll(Weights(shares), Total(shares), pool);
      assert entries[..n][..n - 1] == entries[..n - 1] && scaled[..n][..n - 1] == scaled[..n - 1];
    }
  }

  lemma EntriesTotal(shares: Shares, pool: nat)
    requires shares.Valid() && NonNegative(Weights(shares))
    ensures SumAll(Entries(shares, pool)) == Sum(ScaleAll(Weights(shares), Total(shares), pool))
  {
    var entries, scaled := Entries(shares, pool), ScaleAll(Weights(shares), Total(shares), pool);
    EntriesSum(shares, pool, |entries|);
    assert entries[..|entries|] == entries && scaled[..|entries|] == scaled;
  }

  /** Lines 551 to 554. */
  method SumShares(shares: Shares) returns (total: int)
    requires shares.Valid()
    ensures total == Total(shares)
  {
    var keys := shares.keys;
    total := 0;
    for i := 0 to |keys|
      invariant total == SumOver(keys[..i], shares.at)
    {
      assert keys[..i + 1][..i] == keys[..i];
      total := total + shares.at[keys[i]];
    }
    assert keys[..|keys|] == keys;
  }

  /** Lines 562 to 575. */
  method ScaleShares(shares: Shares, total: int, pool: nat) returns (publishers: seq<Entry>, scaledTotal: int)
    requires shares.Valid() && NonNegative(Weights(shares)) && total == Total(shares)
    ensures publishers == Entries(shares, pool)
    ensures scaledTotal == Sum(ScaleAll(Weights(shares), total, pool))
  {
    var keys := shares.keys;
    ghost var scaled, entries := ScaleAll(Weights(shares), total, pool), Entries(shares, pool);
    var needsScaling := pool > 0 && total > 0 && total != pool;
    publishers, scaledTotal := [], 0;
    for i := 0 to |keys|
      invariant publishers == entries[..i]
      invariant scaledTotal == Sum(scaled[..i])
    {
      var finalWei := shares.at[keys[i]];
      assert finalWei == Weights(shares)[i];
      if needsScaling { finalWei := (finalWei * pool) / total; }
      assert finalWei == scaled[i] && entries[i] == Entry(keys[i], scaled[i]);
      assert scaled[..i + 1][..i] == scaled[..i];
      scaledTotal := scaledTotal + finalWei;
      publishers := publishers + [Entry(keys[i], finalWei)];
    }
    assert scaled[..|keys|] == scaled && entries[..|keys|] == entries;
  }

  /** Lines 548 to 585. */
  method ScaleEpoch(epoch: int, shares: Shares, pool: nat) returns (snap: EpochSnapshot)
    requires shares.Valid() && NonNegative(Weights(shares))
    ensures snap.epoch == epoch && snap.pool == pool
    ensures multiset(snap.publishers) == multiset(Entries(shares, pool))
    ensures Sorting.Sorted(LargestFirst, snap.publishers)
    ensures snap.total == Sum(ScaleAll(Weights(shares), Total(shares), pool)) == SumAll(snap.publishers)
    ensures pool > 0 && Total(shares) > 0 ==> pool - (|snap.publishers| - 1) <= snap.total <= pool
    ensures snap.total <= pool <==> pool > 0 || Total(shares) == 0
  {
    var total := SumShares(shares);
    var publishers, scaledTotal := ScaleShares(shares, total, pool);
    snap := EpochSnapshot(epoch, scaledTotal, pool, Sorting.Sort(LargestFirst, publishers));
    Sorting.SortPermutes(LargestFirst, publishers);
    Sorting.SortSorts(LargestFirst, publishers);
    Sorting.SumByIgnoresOrder(WeiOf, publishers, snap.publishers);
    EntriesTotal(shares, pool);
    WeightsTotal(shares);
    WithinPoolIff(Weights(shares), pool);
    if pool > 0 && Total(shares) > 0 { ScaledSumNearPool(Weights(shares), pool); }
  }

  // ----- the snapshot of all epochs

  predicate NumberLe(a: int, b: int) { a <= b }

  /** All that is owed in an epoch, before scaling. */
  ghost function OwedIn(kcs: seq<FutureKc>, currentEpoch: int, epoch: int): int {
    Total(SharesAt(AllocateAll(kcs, currentEpoch), epoch))
  }

  /** What an epoch's snapshot must say: each owed publisher once, at the scaled value of what it is owed. */
  ghost predicate SnapshotOf(snap: EpochSnapshot, kcs: seq<FutureKc>, currentEpoch: int, pool: nat) {
    var total := OwedIn(kcs, currentEpoch, snap.epoch);
    && snap.pool == pool
    && Sorting.Sorted(LargestFirst, snap.publishers)
    && Sorting.DistinctKeys((e: Entry) => e.publisher, snap.publishers)
    && (forall entry :: entry in snap.publishers <==>
          Owed(kcs, currentEpoch, snap.epoch, entry.publisher) &&
          entry.wei == Scaled(Weight(kcs, currentEpoch, snap.epoch, entry.publisher), total, pool))
    && snap.total == SumAll(snap.publishers)
    && (pool > 0 && total > 0 ==> pool - (|snap.publishers| - 1) <= snap.total <= pool)
    && (snap.total <= pool <==> pool > 0 || total == 0)
  }

  /** The share of the pool, rounded down, unless there is nothing to scale or to scale to. */
  ghost predicate ScaledTo(wei: int, owed: int, total: int, pool: int) {
    if pool == 0 || total == 0 || total == pool then wei == owed else wei * total <= owed * pool < (wei + 1) * total
  }

  lemma ScaledIsFloor(owed: nat, total: nat, pool: nat)
    ensures ScaledTo(Scaled(owed, total, pool), owed, total, pool)
  {
    if pool > 0 && total > 0 && total != pool { FloorOf(owed * pool, total); }
  }

  ghost predicate PaysIn(snap: EpochSnapshot, publisher: Address) {
    exists i :: 0 <= i < |snap.publishers| && snap.publishers[i].publisher == publisher
  }

  /** Exactly those who are owed are paid, once each and the largest first, and each its share of the pool. */
  ghost predicate PaysOut(snap: EpochSnapshot, kcs: seq<FutureKc>, currentEpoch: int) {
    && (forall i, j :: 0 <= i < j < |snap.publishers| ==> snap.publishers[i].publisher != snap.publishers[j].publisher)
    && (forall i, j :: 0 <= i < j < |snap.publishers| ==> snap.publishers[i].wei >= snap.publishers[j].wei)
    && (forall p :: PaysIn(snap, p) <==> IsOwed(kcs, currentEpoch, snap.epoch, p))
    && (forall i :: 0 <= i < |snap.publishers| ==> PaidRightly(snap.publishers[i], snap, kcs, currentEpoch))
  }

  ghost predicate PaidRightly(entry: Entry, snap: EpochSnapshot, kcs: seq<FutureKc>, currentEpoch: int) {
    ScaledTo(entry.wei, SumBy(Owes(currentEpoch, snap.epoch, entry.publisher), kcs),
             SumBy(OwesAnyone(currentEpoch, snap.epoch), kcs), snap.pool)
  }

  lemma OwedAmounts(kcs: seq<FutureKc>, currentEpoch: int, epoch: int, publisher: Address)
    ensures Weight(kcs, currentEpoch, epoch, publisher) == SumBy(Owes(currentEpoch, epoch, publisher), kcs)
    ensures OwedIn(kcs, currentEpoch, epoch) == SumBy(OwesAnyone(currentEpoch, epoch), kcs) >= 0
  {
    EpochOwes(kcs, currentEpoch, epoch);
    WeightIsOwed(kcs, currentEpoch, epoch, publisher);
    forall kc ensures OwesAnyone(currentEpoch, epoch)(kc) >= 0 { OwesNoDebt(kc, currentEpoch, epoch); }
    SumByNonNegative(OwesAnyone(currentEpoch, epoch), kcs);
  }

  lemma OwesNoDebt(kc: FutureKc, currentEpoch: int, epoch: int)
    ensures OwesAnyone(currentEpoch, epoch)(kc) >= 0
  {
  }

  lemma ScaledRightly(entry: Entry, snap: EpochSnapshot, kcs: seq<FutureKc>, currentEpoch: int, owed: nat, total: nat)
    requires owed == SumBy(Owes(currentEpoch, snap.epoch, entry.publisher), kcs)
    requires total == SumBy(OwesAnyone(currentEpoch, snap.epoch), kcs) && entry.wei == Scaled(owed, total, snap.pool)
    ensures PaidRightly(entry, snap, kcs, currentEpoch)
  {
    ScaledIsFloor(owed, total, snap.pool);
  }

  lemma EntryIsRight(entry: Entry, snap: EpochSnapshot, kcs: seq<FutureKc>, currentEpoch: int, pool: nat)
    requires SnapshotOf(snap, kcs, currentEpoch, pool) && entry in snap.publishers
    ensures PaidRightly(entry, snap, kcs, currentEpoch) && IsOwed(kcs, currentEpoch, snap.epoch, entry.publisher)
  {
    OwedAmounts(kcs, currentEpoch, snap.epoch, entry.publisher);
    OwedIff(kcs, currentEpoch, snap.epoch, entry.publisher);
    ScaledRightly(entry, snap, kcs, currentEpoch, Weight(kcs, currentEpoch, snap.epoch, entry.publisher),
                  OwedIn(kcs, currentEpoch, snap.epoch));
  }

  lemma OwedIff(kcs: seq<FutureKc>, currentEpoch: int, epoch: int, publisher: Address)
    ensures Owed(kcs, currentEpoch, epoch, publisher) <==> IsOwed(kcs, currentEpoch, epoch, publisher)
  {
    assert forall kc :: Covers(kc, currentEpoch, epoch) <==> LockedIn(kc, currentEpoch, epoch);
  }

  lemma SnapshotPaysOut(snap: EpochSnapshot, kcs: seq<FutureKc>, currentEpoch: int, pool: nat)
    requires SnapshotOf(snap, kcs, currentEpoch, pool)
    ensures PaysOut(snap, kcs, currentEpoch)
  {
    var entries := snap.publishers;
    forall i, j | 0 <= i < j < |entries|
      ensures entries[i].publisher != entries[j].publisher && entries[i].wei >= entries[j].wei
    {
      var publisher := (e: Entry) => e.publisher;
      assert publisher(entries[i]) != publisher(entries[j]) && LargestFirst(entries[i], entries[j]);
    }
    forall i | 0 <= i < |entries|
      ensures PaidRightly(entries[i], snap, kcs, currentEpoch) && IsOwed(kcs, currentEpoch, snap.epoch, entries[i].publisher)
    {
      EntryIsRight(entries[i], snap, kcs, currentEpoch, pool);
    }
    forall p | IsOwed(kcs, currentEpoch, snap.epoch, p) ensures PaysIn(snap, p) {
      OwedIff(kcs, currentEpoch, snap.epoch, p);
      var entry := Entry(p, Scaled(Weight(kcs, currentEpoch, snap.epoch, p), OwedIn(kcs, currentEpoch, snap.epoch), pool));
      assert entry in entries;
      var i :| 0 <= i < |entries| && entries[i] == entry;
    }
  }

  lemma SnapshotHasNoDebts(snap: EpochSnapshot, kcs: seq<FutureKc>, currentEpoch: int, pool: nat)
    requires SnapshotOf(snap, kcs, currentEpoch, pool)
    ensures NoDebts(snap.publishers)
  {
    forall i | 0 <= i < |snap.publishers| ensures snap.publishers[i].wei >= 0 {
      assert snap.publishers[i] in snap.publishers;
    }
  }

  lemma EntriesMeaning(shares: Shares, pool: nat, entry: Entry)
    requires shares.Valid() && NonNegative(Weights(shares))
    ensures entry in Entries(shares, pool) <==>
            entry.publisher in shares.at && shares.at[entry.publisher] >= 0 &&
            entry.wei == Scaled(shares.at[entry.publisher], Total(shares), pool)
  {
    var entries := Entries(shares, pool);
    if entry.publisher in shares.at {
      var i :| 0 <= i < |shares.keys| && shares.keys[i] == entry.publisher;
      assert Weights(shares)[i] == shares.at[entry.publisher];
      assert entries[i] == Entry(entry.publisher, Scaled(Weights(shares)[i], Total(shares), pool));
    }
  }

  lemma SharesNonNegative(kcs: seq<FutureKc>, currentEpoch: int, epoch: int)
    requires Allocated(AllocateAll(kcs, currentEpoch), kcs, currentEpoch)
    ensures var shares := SharesAt(AllocateAll(kcs, currentEpoch), epoch);
            shares.Valid() && NonNegative(Weights(shares))
  {
    var m := AllocateAll(kcs, currentEpoch);
    var shares := SharesAt(m, epoch);
    assert ValidAt(m, epoch);
    forall i | 0 <= i < |shares.keys| ensures Weights(shares)[i] >= 0 {
      assert Lookup(m, epoch, shares.keys[i]) == Weight(kcs, currentEpoch, epoch, shares.keys[i]);
    }
  }

  lemma EpochIsFaithful(snap: EpochSnapshot, kcs: seq<FutureKc>, currentEpoch: int, pool: nat)
    requires Allocated(AllocateAll(kcs, currentEpoch), kcs, currentEpoch)
    requires var shares := SharesAt(AllocateAll(kcs, currentEpoch), snap.epoch);
             && shares.Valid() && NonNegative(Weights(shares))
             && multiset(snap.publishers) == multiset(Entries(shares, pool))
             && snap.total == SumAll(snap.publishers)
             && (pool > 0 && Total(shares) > 0 ==> pool - (|snap.publishers| - 1) <= snap.total <= pool)
             && (snap.total <= pool <==> pool > 0 || Total(shares) == 0)
    requires snap.pool == pool && Sorting.Sorted(LargestFirst, snap.publishers)
    ensures SnapshotOf(snap, kcs, currentEpoch, pool)
  {
    var m := AllocateAll(kcs, currentEpoch);
    var shares := SharesAt(m, snap.epoch);
    Sorting.SameMultiset(snap.publishers, Entries(shares, pool));
    Sorting.DistinctKeysContents((e: Entry) => e.publisher, Entries(shares, pool), snap.publishers);
    forall entry ensures entry in snap.publishers <==>
        Owed(kcs, currentEpoch, snap.epoch, entry.publisher) &&
        entry.wei == Scaled(Weight(kcs, currentEpoch, snap.epoch, entry.publisher), Total(shares), pool)
    {
      EntriesMeaning(shares, pool, entry);
      assert Has(m, snap.epoch, entry.publisher) <==> Owed(kcs, currentEpoch, snap.epoch, entry.publisher);
      assert Lookup(m, snap.epoch, entry.publisher) == Weight(kcs, currentEpoch, snap.epoch, entry.publisher);
    }
  }

  method SnapshotEpoch(m: EpochMap, epoch: int, pool: nat, ghost kcs: seq<FutureKc>, ghost currentEpoch: int)
    returns (snap: EpochSnapshot)
    requires m == AllocateAll(kcs, currentEpoch) && epoch in m.at
    ensures snap.epoch == epoch
    ensures SnapshotOf(snap, kcs, currentEpoch, pool)
  {
    AllocateMeaning(kcs, currentEpoch);
    SharesNonNegative(kcs, currentEpoch, epoch);
    snap := ScaleEpoch(epoch, m.at[epoch], pool);
    EpochIsFaithful(snap, kcs, currentEpoch, pool);
  }

  lemma SortedKeys(kcs: seq<FutureKc>, currentEpoch: int, sorted: seq<int>)
    requires sorted == Sorting.Sort(NumberLe, AllocateAll(kcs, currentEpoch).keys)
    ensures forall i, j :: 0 <= i < j < |sorted| ==> sorted[i] < sorted[j]
    ensures forall i :: 0 <= i < |sorted| ==> sorted[i] in AllocateAll(kcs, currentEpoch).at
    ensures forall e :: e in sorted <==> SomebodyIsOwed(kcs, currentEpoch, e)
  {
    var keys := AllocateAll(kcs, currentEpoch).keys;
    AllocateMeaning(kcs, currentEpoch);
    Sorting.SortSorts(NumberLe, keys);
    Sorting.SortPermutes(NumberLe, keys);
    StrictlySorted(keys, sorted);
    forall i | 0 <= i < |sorted| ensures sorted[i] in AllocateAll(kcs, currentEpoch).at {
      assert sorted[i] in keys;
    }
    forall e ensures e in sorted <==> SomebodyIsOwed(kcs, currentEpoch, e) {
      KeysAreOwed(kcs, currentEpoch, e);
      assert e in sorted <==> e in keys;
    }
  }

  ghost predicate ListsEpoch(epochs: seq<EpochSnapshot>, e: int) {
    exists i :: 0 <= i < |epochs| && epochs[i].epoch == e
  }

  lemma ListedEpochs(epochs: seq<EpochSnapshot>, sorted: seq<int>, e: int)
    requires |epochs| == |sorted| && forall i :: 0 <= i < |sorted| ==> epochs[i].epoch == sorted[i]
    ensures ListsEpoch(epochs, e) <==> e in sorted
  {
    if e in sorted {
      var i :| 0 <= i < |sorted| && sorted[i] == e;
      assert epochs[i].epoch == e;
    }
  }

  /** Phases 2 and 3: one snapshot per epoch in which somebody is owed, in epoch order. */
  method Snapshot(kcs: seq<FutureKc>, currentEpoch: int, pools: int -> nat) returns (epochs: seq<EpochSnapshot>)
    ensures forall i, j :: 0 <= i < j < |epochs| ==> epochs[i].epoch < epochs[j].epoch
    ensures forall e :: ListsEpoch(epochs, e) <==> SomebodyIsOwed(kcs, currentEpoch, e)
    ensures forall i :: 0 <= i < |epochs| ==> SnapshotOf(epochs[i], kcs, currentEpoch, pools(epochs[i].epoch))
    ensures forall i :: 0 <= i < |epochs| ==> PaysOut(epochs[i], kcs, currentEpoch)
  {
    var m := Allocate(kcs, currentEpoch);
    var sorted := Sorting.Sort(NumberLe, m.keys);
    SortedKeys(kcs, currentEpoch, sorted);
    epochs := SnapshotAll(m, sorted, pools, kcs, currentEpoch);
    forall e ensures ListsEpoch(epochs, e) <==> SomebodyIsOwed(kcs, currentEpoch, e) {
      ListedEpochs(epochs, sorted, e);
    }
    forall i | 0 <= i < |epochs| ensures PaysOut(epochs[i], kcs, currentEpoch) {
      SnapshotPaysOut(epochs[i], kcs, currentEpoch, pools(epochs[i].epoch));
    }
  }

  method SnapshotAll(m: EpochMap, sorted: seq<int>, pools: int -> nat, ghost kcs: seq<FutureKc>, ghost currentEpoch: int)
    returns (epochs: seq<EpochSnapshot>)
    requires m == AllocateAll(kcs, currentEpoch) && forall i :: 0 <= i < |sorted| ==> sorted[i] in m.at
    ensures |epochs| == |sorted| && forall i :: 0 <= i < |sorted| ==> epochs[i].epoch == sorted[i]
    ensures forall i :: 0 <= i < |epochs| ==> SnapshotOf(epochs[i], kcs, currentEpoch, pools(epochs[i].epoch))
  {
    epochs := [];
    for i := 0 to |sorted|
      invariant |epochs| == i && forall j :: 0 <= j < i ==> epochs[j].epoch == sorted[j]
      invariant forall j :: 0 <= j < i ==> SnapshotOf(epochs[j], kcs, currentEpoch, pools(epochs[j].epoch))
    {
      var snap := SnapshotEpoch(m, sorted[i], pools(sorted[i]), kcs, currentEpoch);
      epochs := epochs + [snap];
    }
  }

  lemma {:induction false} StrictlySorted(keys: seq<int>, sorted: seq<int>)
    requires Distinct(keys) && multiset(keys) == multiset(sorted) && Sorting.Sorted(NumberLe, sorted)
    ensures forall i, j :: 0 <= i < j < |sorted| ==> sorted[i] < sorted[j]
  {
    Sorting.DistinctKeysContents((k: int) => k, keys, sorted);
    forall i, j | 0 <= i < j < |sorted| ensures sorted[i] < sorted[j] {
      assert NumberLe(sorted[i], sorted[j]);
    }
  }
}
