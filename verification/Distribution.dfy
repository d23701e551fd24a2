/** Aggregating the epoch snapshots into one payment per publisher. */
module Distribution {
  import opened Sequences
  import opened InsertionMap
  import opened Refunds
  import opened Allocation
  import Sorting

  // ----- aggregation

  /** What one publisher is to receive. The ledger's key is this pair. */
  datatype Payment = Payment(address: Address, wei: int)
  datatype Plan = Plan(publishers: seq<Payment>, totalWei: int, count: nat)

  function AllEntries(epochs: seq<EpochSnapshot>): seq<Entry> {
    if epochs == [] then [] else AllEntries(epochs[..|epochs| - 1]) + epochs[|epochs| - 1].publishers
  }

  function WeiFor(address: Address): Entry -> int { (e: Entry) => if e.publisher == address then e.wei else 0 }

  function SumFor(entries: seq<Entry>, address: Address): int { SumBy(WeiFor(address), entries) }

  ghost predicate Listed(entries: seq<Entry>, address: Address) {
    exists i :: 0 <= i < |entries| && entries[i].publisher == address
  }

  ghost predicate TallyOf(totals: Dict<Address, int>, entries: seq<Entry>, address: Address) {
    && totals.GetOr(address, 0) == SumFor(entries, address)
    && (totals.Has(address) <==> Listed(entries, address))
  }

  /** The map holds, for exactly the listed publishers, what their entries add up to. */
  ghost predicate Accumulated(totals: Dict<Address, int>, entries: seq<Entry>) {
    && totals.Valid()
    && Total(totals) == SumAll(entries)
    && forall a :: TallyOf(totals, entries, a)
  }

  lemma TallyStep(totals: Dict<Address, int>, entries: seq<Entry>, e: Entry, address: Address)
    requires TallyOf(totals, entries, address)
    ensures TallyOf(Add(totals, e.publisher, e.wei), entries + [e], address)
  {
    var all := entries + [e];
    AddLookup(totals, e.publisher, e.wei, address);
    assert all[..|entries|] == entries;
    assert all[|entries|] == e;
    if i :| 0 <= i < |entries| && entries[i].publisher == address { assert all[i].publisher == address; }
  }

  lemma AccumulateStep(totals: Dict<Address, int>, entries: seq<Entry>, e: Entry)
    requires Accumulated(totals, entries)
    ensures Accumulated(Add(totals, e.publisher, e.wei), entries + [e])
  {
    AddKeeps(totals, e.publisher, e.wei);
    assert (entries + [e])[..|entries|] == entries;
    forall a ensures TallyOf(Add(totals, e.publisher, e.wei), entries + [e], a) {
      assert TallyOf(totals, entries, a);
      TallyStep(totals, entries, e, a);
    }
  }

  predicate LargestPaymentFirst(a: Payment, b: Payment) { a.wei >= b.wei }

  function PaidWei(p: Payment): int { p.wei }

  function PaymentSum(payments: seq<Payment>): int { SumBy(PaidWei, payments) }

  function TotalsList(totals: Dict<Address, int>): seq<Payment>
    requires totals.Valid()
  {
    seq(|totals.keys|, i requires 0 <= i < |totals.keys| => Payment(totals.keys[i], totals.at[totals.keys[i]]))
  }

  lemma {:induction false} TotalsListSum(totals: Dict<Address, int>, n: nat)
    requires totals.Valid() && n <= |totals.keys|
    ensures PaymentSum(TotalsList(totals)[..n]) == SumOver(totals.keys[..n], totals.at)
  {
    if n > 0 {
      TotalsListSum(totals, n - 1);
      assert totals.keys[..n][..n - 1] == totals.keys[..n - 1];
      assert TotalsList(totals)[..n][..n - 1] == TotalsList(totals)[..n - 1];
    }
  }

  /** The plan pays each listed publisher once, all that its entries add up to, and its total is the sum. */
  ghost predicate PlanOf(plan: Plan, entries: seq<Entry>) {
    && Sorting.DistinctKeys((p: Payment) => p.address, plan.publishers)
    && plan.count == |plan.publishers|
    && plan.totalWei == PaymentSum(plan.publishers) == SumAll(entries)
    && forall p :: p in plan.publishers <==> Listed(entries, p.address) && p.wei == SumFor(entries, p.address)
  }

  ghost predicate NoneNegative(payments: seq<Payment>) {
    forall i :: 0 <= i < |payments| ==> payments[i].wei >= 0
  }

  /** What the payment script relies on. */
  ghost predicate Payable(plan: Plan) {
    && Distinct(plan.publishers) && plan.count == |plan.publishers|
    && plan.totalWei == PaymentSum(plan.publishers) && NoneNegative(plan.publishers)
  }

  /** A plan of entries that owe nobody less than nothing can be paid out. */
  lemma PlanIsPayable(plan: Plan, entries: seq<Entry>)
    requires PlanOf(plan, entries) && NoDebts(entries)
    ensures Payable(plan)
  {
    var payments := plan.publishers;
    forall i | 0 <= i < |payments| ensures payments[i].wei >= 0 {
      assert payments[i] in payments;
      SumByNonNegative(WeiFor(payments[i].address), entries);
    }
    forall i, j | 0 <= i < j < |payments| ensures payments[i] != payments[j] {
      var address := (p: Payment) => p.address;
      assert address(payments[i]) != address(payments[j]);
    }
  }

  lemma {:induction false} SnapshotsHaveNoDebts(epochs: seq<EpochSnapshot>)
    requires forall i :: 0 <= i < |epochs| ==> NoDebts(epochs[i].publishers)
    ensures NoDebts(AllEntries(epochs))
  {
    if epochs != [] { SnapshotsHaveNoDebts(epochs[..|epochs| - 1]); }
  }

  lemma ListedPayment(totals: Dict<Address, int>, entries: seq<Entry>, p: Payment)
    requires totals.Valid() && TallyOf(totals, entries, p.address)
    ensures p in TotalsList(totals) <==> Listed(entries, p.address) && p.wei == SumFor(entries, p.address)
  {
    if p.address in totals.at {
      assert p.address in totals.keys;
      var i :| 0 <= i < |totals.keys| && totals.keys[i] == p.address;
      assert TotalsList(totals)[i] == Payment(p.address, totals.at[p.address]);
    }
  }

  lemma TotalsListTotal(totals: Dict<Address, int>)
    requires totals.Valid()
    ensures PaymentSum(TotalsList(totals)) == Total(totals)
  {
    TotalsListSum(totals, |totals.keys|);
    assert totals.keys[..|totals.keys|] == totals.keys && TotalsList(totals)[..|totals.keys|] == TotalsList(totals);
  }

  lemma SortedTotalsAreThePlan(totals: Dict<Address, int>, entries: seq<Entry>, publishers: seq<Payment>)
    requires Accumulated(totals, entries)
    requires publishers == Sorting.Sort(LargestPaymentFirst, TotalsList(totals))
    ensures PlanOf(Plan(publishers, PaymentSum(publishers), |publishers|), entries)
  {
    var list := TotalsList(totals);
    Sorting.SortPermutes(LargestPaymentFirst, list);
    Sorting.SumByIgnoresOrder(PaidWei, list, publishers);
    TotalsListTotal(totals);
    Sorting.DistinctKeysContents((p: Payment) => p.address, list, publishers);
    forall p ensures p in publishers <==> Listed(entries, p.address) && p.wei == SumFor(entries, p.address) {
      assert TallyOf(totals, entries, p.address);
      ListedPayment(totals, entries, p);
    }
  }

  lemma NothingAccumulated()
    ensures Accumulated(Empty(), [])
  {
    forall a ensures TallyOf(Empty(), [], a) {
    }
  }

  /** Lines 34 to 39 of the aggregation script: one epoch. */
  method AccumulateEpoch(totals0: Dict<Address, int>, publishers: seq<Entry>, ghost entries: seq<Entry>)
    returns (totals: Dict<Address, int>)
    requires Accumulated(totals0, entries)
    ensures Accumulated(totals, entries + publishers)
  {
    totals := totals0;
    ghost var seen := entries;
    assert entries + publishers[..0] == entries;
    for j := 0 to |publishers|
      invariant seen == entries + publishers[..j]
      invariant Accumulated(totals, seen)
    {
      AccumulateStep(totals, seen, publishers[j]);
      totals := Add(totals, publishers[j].publisher, publishers[j].wei);
      seen := seen + [publishers[j]];
      assert publishers[..j + 1] == publishers[..j] + [publishers[j]];
      assert seen == entries + publishers[..j + 1];
    }
    assert publishers[..|publishers|] == publishers;
  }

  /** Lines 33 to 40 of the aggregation script. */
  method Accumulate(epochs: seq<EpochSnapshot>) returns (totals: Dict<Address, int>)
    ensures Accumulated(totals, AllEntries(epochs))
  {
    totals := Empty();
    ghost var seen: seq<Entry> := [];
    NothingAccumulated();
    for i := 0 to |epochs|
      invariant seen == AllEntries(epochs[..i])
      invariant Accumulated(totals, seen)
    {
      totals := AccumulateEpoch(totals, epochs[i].publishers, seen);
      seen := seen + epochs[i].publishers;
      assert epochs[..i + 1][..i] == epochs[..i];
    }
    assert epochs[..|epochs|] == epochs;
  }

  method SumPayments(payments: seq<Payment>) returns (total: int)
    ensures total == PaymentSum(payments)
  {
    total := 0;
    for i := 0 to |payments|
      invariant total == PaymentSum(payments[..i])
    {
      assert payments[..i + 1][..i] == payments[..i];
      total := total + payments[i].wei;
    }
    assert payments[..|payments|] == payments;
  }

  /** Lines 31 to 61 of the aggregation script. */
  method Aggregate(epochs: seq<EpochSnapshot>) returns (plan: Plan)
    ensures PlanOf(plan, AllEntries(epochs))
    ensures forall i, j :: 0 <= i < j < |plan.publishers| ==> plan.publishers[i].wei >= plan.publishers[j].wei
  {
    var totals := Accumulate(epochs);
    var publishers := Sorting.Sort(LargestPaymentFirst, TotalsList(totals));
    var grandTotal := SumPayments(publishers);
    plan := Plan(publishers, grandTotal, |publishers|);
    Sorting.SortSorts(LargestPaymentFirst, TotalsList(totals));
    SortedTotalsAreThePlan(totals, AllEntries(epochs), publishers);
  }

  // ----- the plan against the pools

  function EpochTotal(e: EpochSnapshot): int { e.total }
  function EpochPool(e: EpochSnapshot): int { e.pool }

  /** The least that scaling leaves of an epoch's pool. */
  function PoolLessRounding(e: EpochSnapshot): int { e.pool - (|e.publishers| - 1) }

  lemma {:induction false} EntriesAreTotals(epochs: seq<EpochSnapshot>)
    requires forall i :: 0 <= i < |epochs| ==> epochs[i].total == SumAll(epochs[i].publishers)
    ensures SumAll(AllEntries(epochs)) == SumBy(EpochTotal, epochs)
  {
    if epochs != [] {
      var front, last := epochs[..|epochs| - 1], epochs[|epochs| - 1];
      EntriesAreTotals(front);
      SumByConcat(WeiOf, AllEntries(front), last.publishers);
    }
  }

  /** The epoch owes something and has no pool to scale it to. */
  ghost predicate Unfunded(e: EpochSnapshot, kcs: seq<FutureKc>, currentEpoch: int) {
    e.pool == 0 && OwedIn(kcs, currentEpoch, e.epoch) != 0
  }

  ghost predicate Funded(e: EpochSnapshot, kcs: seq<FutureKc>, currentEpoch: int) {
    e.pool > 0 && OwedIn(kcs, currentEpoch, e.epoch) > 0
  }

  /**
   * The plan pays out the epochs' totals. That is at most the pools when no epoch owes without one,
   * and at least the pools less one wei for every publisher but one of each epoch when all are funded.
   */
  ghost predicate MeetsPools(plan: Plan, epochs: seq<EpochSnapshot>, kcs: seq<FutureKc>, currentEpoch: int) {
    && plan.totalWei == SumBy(EpochTotal, epochs)
    && ((forall i :: 0 <= i < |epochs| ==> !Unfunded(epochs[i], kcs, currentEpoch)) ==>
          plan.totalWei <= SumBy(EpochPool, epochs))
    && ((forall i :: 0 <= i < |epochs| ==> Funded(epochs[i], kcs, currentEpoch)) ==>
          SumBy(PoolLessRounding, epochs) <= plan.totalWei <= SumBy(EpochPool, epochs))
  }

  /** Each epoch's snapshot is what it must be. */
  ghost predicate SnapshotsOf(epochs: seq<EpochSnapshot>, kcs: seq<FutureKc>, currentEpoch: int, pools: int -> nat) {
    forall i :: 0 <= i < |epochs| ==> SnapshotOf(epochs[i], kcs, currentEpoch, pools(epochs[i].epoch))
  }

  lemma EpochMeetsPool(e: EpochSnapshot, kcs: seq<FutureKc>, currentEpoch: int, pool: nat)
    requires SnapshotOf(e, kcs, currentEpoch, pool)
    ensures !Unfunded(e, kcs, currentEpoch) ==> EpochTotal(e) <= EpochPool(e)
    ensures Funded(e, kcs, currentEpoch) ==> PoolLessRounding(e) <= EpochTotal(e) <= EpochPool(e)
    ensures e.total == SumAll(e.publishers)
  {
  }

  lemma PlanMeetsPools(plan: Plan, epochs: seq<EpochSnapshot>, kcs: seq<FutureKc>, currentEpoch: int, pools: int -> nat)
    requires SnapshotsOf(epochs, kcs, currentEpoch, pools) && PlanOf(plan, AllEntries(epochs))
    ensures MeetsPools(plan, epochs, kcs, currentEpoch)
  {
    forall i | 0 <= i < |epochs|
      ensures epochs[i].total == SumAll(epochs[i].publishers)
      ensures !Unfunded(epochs[i], kcs, currentEpoch) ==> EpochTotal(epochs[i]) <= EpochPool(epochs[i])
      ensures Funded(epochs[i], kcs, currentEpoch) ==>
                PoolLessRounding(epochs[i]) <= EpochTotal(epochs[i]) <= EpochPool(epochs[i])
    {
      EpochMeetsPool(epochs[i], kcs, currentEpoch, pools(epochs[i].epoch));
    }
    EntriesAreTotals(epochs);
    if forall i :: 0 <= i < |epochs| ==> !Unfunded(epochs[i], kcs, currentEpoch) { SumByAtMost(EpochTotal, EpochPool, epochs); }
    if forall i :: 0 <= i < |epochs| ==> Funded(epochs[i], kcs, currentEpoch) {
      SumByAtMost(EpochTotal, EpochPool, epochs);
      SumByAtMost(PoolLessRounding, EpochTotal, epochs);
    }
  }

  /** From the discovered collections to the plan: the snapshot script, then the aggregation script. */
  method PlanRefunds(kcs: seq<FutureKc>, currentEpoch: int, pools: int -> nat)
    returns (epochs: seq<EpochSnapshot>, plan: Plan)
    ensures SnapshotsOf(epochs, kcs, currentEpoch, pools)
    ensures PlanOf(plan, AllEntries(epochs))
    ensures Payable(plan)
    ensures MeetsPools(plan, epochs, kcs, currentEpoch)
  {
    epochs := Snapshot(kcs, currentEpoch, pools);
    plan := Aggregate(epochs);
    forall i | 0 <= i < |epochs| ensures NoDebts(epochs[i].publishers) {
      SnapshotHasNoDebts(epochs[i], kcs, currentEpoch, pools(epochs[i].epoch));
    }
    SnapshotsHaveNoDebts(epochs);
    PlanIsPayable(plan, AllEntries(epochs));
    PlanMeetsPools(plan, epochs, kcs, currentEpoch, pools);
  }
}
