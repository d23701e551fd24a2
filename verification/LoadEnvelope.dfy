/**
 * The load-envelope verdict: caps on the population, and percentile gates over
 * the intervals of an accepted load capture.
 *
 * Percentile ranks are taken over exact rationals, drain times over reals.
 */
module LoadEnvelope {
  import opened Sequences
  import opened SystemLimits
  import opened Sorting
  import opened LoadCapture

  // ----- percentiles

  predicate IntLe(a: int, b: int) { a <= b }

  datatype Quantile = P10 | P99

  /** The rank of a percentile among n values, counted from one. */
  function Rank(q: Quantile, n: nat): nat {
    match q
    case P10 => (n + 9) / 10
    case P99 => (99 * n + 99) / 100
  }

  lemma SortLength(values: seq<int>)
    ensures |Sort(IntLe, values)| == |values|
  {
    SortPermutes(IntLe, values);
  }

  lemma SortIsSorted(values: seq<int>)
    ensures Sorted(IntLe, Sort(IntLe, values))
  {
    SortSorts(IntLe, values);
  }

  lemma RankInRange(q: Quantile, n: nat)
    requires n > 0
    ensures 1 <= Rank(q, n) <= n
  {
  }

  /** Lines 1046 to 1049. */
  function Percentile(values: seq<int>, q: Quantile): int
    requires values != []
  {
    SortLength(values);
    RankInRange(q, |values|);
    Sort(IntLe, values)[Rank(q, |values|) - 1]
  }

  function AtLeast(t: int): int -> bool { (v: int) => v >= t }

  function AtMost(t: int): int -> bool { (v: int) => v <= t }

  /** In a sorted list the value of rank k tells how many values lie on either side of a threshold. */
  lemma RankCountsAbove(s: seq<int>, k: nat, t: int)
    requires k < |s| && Sorted(IntLe, s)
    ensures s[k] >= t <==> Count(AtLeast(t), s) >= |s| - k
  {
    var p := AtLeast(t);
    if s[k] >= t {
      CountSplit(p, s, k);
      forall i | 0 <= i < |s| - k ensures p(s[k..][i]) { if i > 0 { assert IntLe(s[k], s[k + i]); } }
      CountAll(p, s[k..]);
    } else {
      CountSplit(p, s, k + 1);
      var low := s[..k + 1];
      forall i | 0 <= i < |low| ensures !p(low[i]) { if i < k { assert IntLe(s[i], s[k]); } }
      CountNone(p, low);
    }
  }

  lemma RankCountsBelow(s: seq<int>, k: nat, t: int)
    requires k < |s| && Sorted(IntLe, s)
    ensures s[k] <= t <==> Count(AtMost(t), s) >= k + 1
  {
    var p := AtMost(t);
    if s[k] <= t {
      CountSplit(p, s, k + 1);
      var low := s[..k + 1];
      forall i | 0 <= i < |low| ensures p(low[i]) { if i < k { assert IntLe(s[i], s[k]); } }
      CountAll(p, low);
    } else {
      CountSplit(p, s, k);
      forall i | 0 <= i < |s| - k ensures !p(s[k..][i]) { if i > 0 { assert IntLe(s[k], s[k + i]); } }
      CountNone(p, s[k..]);
    }
  }

  lemma FloorAt(values: seq<int>, k: nat, t: int)
    requires k < |values|
    ensures |Sort(IntLe, values)| == |values|
    ensures Sort(IntLe, values)[k] >= t <==> Count(AtLeast(t), values) >= |values| - k
  {
    SortLength(values);
    SortIsSorted(values);
    CountSort(IntLe, AtLeast(t), values);
    RankCountsAbove(Sort(IntLe, values), k, t);
  }

  /** A percentile clears a floor exactly when enough values do. */
  lemma FloorCounts(values: seq<int>, q: Quantile, t: int)
    requires values != []
    ensures Percentile(values, q) >= t <==> Count(AtLeast(t), values) >= |values| - Rank(q, |values|) + 1
  {
    RankInRange(q, |values|);
    FloorAt(values, Rank(q, |values|) - 1, t);
  }

  lemma CeilingAt(values: seq<int>, k: nat, t: int)
    requires k < |values|
    ensures |Sort(IntLe, values)| == |values|
    ensures Sort(IntLe, values)[k] <= t <==> Count(AtMost(t), values) >= k + 1
  {
    SortLength(values);
    SortIsSorted(values);
    CountSort(IntLe, AtMost(t), values);
    RankCountsBelow(Sort(IntLe, values), k, t);
  }

  /** A percentile stays under a ceiling exactly when enough values do. */
  lemma CeilingCounts(values: seq<int>, q: Quantile, t: int)
    requires values != []
    ensures Percentile(values, q) <= t <==> Count(AtMost(t), values) >= Rank(q, |values|)
  {
    RankInRange(q, |values|);
    CeilingAt(values, Rank(q, |values|) - 1, t);
  }

  // ----- the verdict

  datatype Failure =
    | ActiveRecordCap | BundleUnavailable | ActiveBundleByteCap | ClosureUnavailable | ActiveClosureByteCap
    | InventoryLeafCap | LoadUnavailable | ExpectationUnavailable | InsufficientIntervals | ColdRequired
    | RequesterInconsistent | ProviderInconsistent | RecordServiceFloor | ClosureServiceFloor
    | RecordArrivalCeiling | ClosureArrivalCeiling | RequesterCeiling | ProviderCeiling | NonnegativeBacklog
    | RecordDrainDeadline | ClosureDrainDeadline

  datatype Input = Input(
    activeRecords: int, bundleBytes: Option<int>, closureBytes: Option<int>, inventoryLeaves: int,
    captureId: Option<string>, requesterSource: Option<string>, providerSource: Option<string>,
    intervals: Option<seq<Interval>>, captureDigest: Option<Digest>)

  datatype Minutes = Finite(minutes: real) | Infinite | Unknown

  datatype Verdict = Verdict(eligible: bool, recordDrain: Minutes, closureDrain: Minutes, failures: seq<Failure>)

  predicate InRange(n: int, low: int, high: int) { low <= n <= high }

  predicate GoodCounts(i: Interval) {
    var m := i.measures;
    && m.servicedRecords >= 0 && m.servicedClosureBytes >= 0 && m.arrivedRecords >= 0 && m.arrivedClosureBytes >= 0
    && m.requesterExactRequests >= 0 && m.providerExactRequests >= 0
    && InRange(m.backlogDeltaRecords, -HARD_RECORDS, HARD_RECORDS)
  }

  function Serviced(i: Interval): int { i.measures.servicedRecords }
  function ServicedBytes(i: Interval): int { i.measures.servicedClosureBytes }
  function Arrived(i: Interval): int { i.measures.arrivedRecords }
  function ArrivedBytes(i: Interval): int { i.measures.arrivedClosureBytes }
  function Requester(i: Interval): int { i.measures.requesterExactRequests }
  function Provider(i: Interval): int { i.measures.providerExactRequests }
  function Backlog(i: Interval): int { i.measures.backlogDeltaRecords }

  /** How many intervals reach the threshold, and how many stay within it. */
  function Reaching(xs: seq<Interval>, key: Interval -> int, t: int): nat { Count(AtLeast(t), Map(key, xs)) }
  function Within(xs: seq<Interval>, key: Interval -> int, t: int): nat { Count(AtMost(t), Map(key, xs)) }

  /** All but fewer than a tenth, and all but at most a hundredth, of n intervals. */
  function NineTenths(n: nat): int { n - (n + 9) / 10 + 1 }
  function NinetyNinth(n: nat): int { (99 * n + 99) / 100 }

  predicate Consistent(i: Interval, exact: int) { exact >= i.measures.servicedRecords * MINIMUM_REQUESTS_PER_RECORD }

  /** What each gate over the population means. */
  ghost predicate CapFails(input: Input, f: Failure) {
    match f
    case ActiveRecordCap => input.activeRecords > ACTIVATION_RECORDS
    case BundleUnavailable => input.bundleBytes.None?
    case ActiveBundleByteCap => input.bundleBytes.Some? && input.bundleBytes.value > ACTIVATION_BUNDLE_BYTES
    case ClosureUnavailable => input.closureBytes.None?
    case ActiveClosureByteCap => input.closureBytes.Some? && input.closureBytes.value > ACTIVATION_CLOSURE_BYTES
    case InventoryLeafCap => input.inventoryLeaves > ACTIVATION_LEAVES
    case _ => false
  }

  ghost predicate TooFew(m: Measures, requests: int) { requests < m.servicedRecords * MINIMUM_REQUESTS_PER_RECORD }

  /** What each gate over the shape of the measurement means. */
  ghost predicate ShapeFails(xs: seq<Interval>, f: Failure) {
    match f
    case InsufficientIntervals => |xs| < MINIMUM_LOAD_INTERVALS
    case ColdRequired => exists i :: 0 <= i < |xs| && !xs[i].measures.cold
    case RequesterInconsistent => exists i :: 0 <= i < |xs| && TooFew(xs[i].measures, xs[i].measures.requesterExactRequests)
    case ProviderInconsistent => exists i :: 0 <= i < |xs| && TooFew(xs[i].measures, xs[i].measures.providerExactRequests)
    case _ => false
  }

  /** What each gate over the rates means, as a number of intervals. */
  ghost predicate RateFails(xs: seq<Interval>, f: Failure) {
    match f
    case RecordServiceFloor => Reaching(xs, Serviced, SERVICE_RECORDS) < NineTenths(|xs|)
    case ClosureServiceFloor => Reaching(xs, ServicedBytes, CLOSURE_SERVICE_BYTES) < NineTenths(|xs|)
    case RecordArrivalCeiling => Within(xs, Arrived, ARRIVAL_RECORDS) < NinetyNinth(|xs|)
    case ClosureArrivalCeiling => Within(xs, ArrivedBytes, CLOSURE_ARRIVAL_BYTES) < NinetyNinth(|xs|)
    case RequesterCeiling => Within(xs, Requester, REQUESTER_CEILING) < NinetyNinth(|xs|)
    case ProviderCeiling => Within(xs, Provider, PROVIDER_CEILING) < NinetyNinth(|xs|)
    case NonnegativeBacklog => Sum(Map(Backlog, xs)) >= 0
    case _ => false
  }

  function Drain(amount: int, service: int, arrival: int): Minutes {
    if service > arrival then Finite(amount as real / (service - arrival) as real) else Infinite
  }

  predicate TooLong(m: Minutes) { m.Infinite? || (m.Finite? && m.minutes > MAX_DRAIN_MINUTES) }

  function RecordDrain(input: Input, xs: seq<Interval>): Minutes
    requires xs != []
  {
    Drain(input.activeRecords, Percentile(Map(Serviced, xs), P10), Percentile(Map(Arrived, xs), P99))
  }

  function ClosureDrain(input: Input, xs: seq<Interval>): Minutes
    requires xs != []
  {
    match input.closureBytes
    case None => Unknown
    case Some(bytes) => Drain(bytes, Percentile(Map(ServicedBytes, xs), P10), Percentile(Map(ArrivedBytes, xs), P99))
  }

  lemma Quotient(x: real, d: real, q: real)
    requires d > 0.0 && x <= q * d
    ensures x / d <= q
  {
    assert (q * d) / d == q;
    assert (q * d - x) / d >= 0.0;
  }

  lemma DrainInTime(amount: int, service: int, arrival: int, cap: int, rate: int)
    requires 0 <= amount <= cap && 0 < rate <= service - arrival && cap <= 17 * rate
    ensures !TooLong(Drain(amount, service, arrival))
  {
    var d := service - arrival;
    assert amount <= 17 * d;
    Quotient(amount as real, d as real, 17.0);
  }

  lemma FloorMet(xs: seq<Interval>, key: Interval -> int, t: int)
    requires xs != []
    ensures Percentile(Map(key, xs), P10) >= t <==> Reaching(xs, key, t) >= NineTenths(|xs|)
  {
    FloorCounts(Map(key, xs), P10, t);
  }

  lemma CeilingMet(xs: seq<Interval>, key: Interval -> int, t: int)
    requires xs != []
    ensures Percentile(Map(key, xs), P99) <= t <==> Within(xs, key, t) >= NinetyNinth(|xs|)
  {
    CeilingCounts(Map(key, xs), P99, t);
  }

  /** When the record cap, floor and ceiling hold, the record drain deadline cannot fail. */
  lemma RecordDrainIsImplied(input: Input, xs: seq<Interval>)
    requires xs != [] && input.activeRecords >= 0
    requires !CapFails(input, ActiveRecordCap)
    requires !RateFails(xs, RecordServiceFloor) && !RateFails(xs, RecordArrivalCeiling)
    ensures !TooLong(RecordDrain(input, xs))
  {
    FloorMet(xs, Serviced, SERVICE_RECORDS);
    CeilingMet(xs, Arrived, ARRIVAL_RECORDS);
    DrainInTime(input.activeRecords, Percentile(Map(Serviced, xs), P10), Percentile(Map(Arrived, xs), P99), 512, 44);
  }

  lemma ClosureDrainIsImplied(input: Input, xs: seq<Interval>)
    requires xs != [] && (input.closureBytes.Some? ==> input.closureBytes.value >= 0)
    requires !CapFails(input, ActiveClosureByteCap)
    requires !RateFails(xs, ClosureServiceFloor) && !RateFails(xs, ClosureArrivalCeiling)
    ensures !TooLong(ClosureDrain(input, xs))
  {
    FloorMet(xs, ServicedBytes, CLOSURE_SERVICE_BYTES);
    CeilingMet(xs, ArrivedBytes, CLOSURE_ARRIVAL_BYTES);
    if input.closureBytes.Some? {
      DrainInTime(input.closureBytes.value, Percentile(Map(ServicedBytes, xs), P10),
                  Percentile(Map(ArrivedBytes, xs), P99), 268_435_456, 16_777_216);
    }
  }

  // ----- the rates and drains, read off the intervals

  function IsBelow(key: Interval -> int, t: int): Interval -> bool { (i: Interval) => key(i) < t }
  function IsAbove(key: Interval -> int, t: int): Interval -> bool { (i: Interval) => key(i) > t }

  /** A tenth of the intervals or more lie below the floor. */
  ghost predicate MissesFloor(xs: seq<Interval>, key: Interval -> int, t: int) { 10 * Count(IsBelow(key, t), xs) >= |xs| }

  /** More than a hundredth of the intervals lie above the ceiling. */
  ghost predicate BreaksCeiling(xs: seq<Interval>, key: Interval -> int, t: int) { 100 * Count(IsAbove(key, t), xs) > |xs| }

  ghost predicate RateSays(xs: seq<Interval>, f: Failure) {
    match f
    case RecordServiceFloor => MissesFloor(xs, (i: Interval) => i.measures.servicedRecords, SERVICE_RECORDS)
    case ClosureServiceFloor => MissesFloor(xs, (i: Interval) => i.measures.servicedClosureBytes, CLOSURE_SERVICE_BYTES)
    case RecordArrivalCeiling => BreaksCeiling(xs, (i: Interval) => i.measures.arrivedRecords, ARRIVAL_RECORDS)
    case ClosureArrivalCeiling => BreaksCeiling(xs, (i: Interval) => i.measures.arrivedClosureBytes, CLOSURE_ARRIVAL_BYTES)
    case RequesterCeiling => BreaksCeiling(xs, (i: Interval) => i.measures.requesterExactRequests, REQUESTER_CEILING)
    case ProviderCeiling => BreaksCeiling(xs, (i: Interval) => i.measures.providerExactRequests, PROVIDER_CEILING)
    case NonnegativeBacklog => SumBy((i: Interval) => i.measures.backlogDeltaRecords, xs) >= 0
    case _ => false
  }

  lemma {:induction false} ReachingOrBelow(xs: seq<Interval>, key: Interval -> int, same: Interval -> int, t: int)
    requires forall i :: key(i) == same(i)
    ensures Reaching(xs, key, t) + Count(IsBelow(same, t), xs) == |xs|
  {
    if xs != [] {
      ReachingOrBelow(xs[1..], key, same, t);
      assert Map(key, xs)[1..] == Map(key, xs[1..]);
    }
  }

  lemma {:induction false} WithinOrAbove(xs: seq<Interval>, key: Interval -> int, same: Interval -> int, t: int)
    requires forall i :: key(i) == same(i)
    ensures Within(xs, key, t) + Count(IsAbove(same, t), xs) == |xs|
  {
    if xs != [] {
      WithinOrAbove(xs[1..], key, same, t);
      assert Map(key, xs)[1..] == Map(key, xs[1..]);
    }
  }

  lemma FloorSays(xs: seq<Interval>, key: Interval -> int, same: Interval -> int, t: int)
    requires forall i :: key(i) == same(i)
    ensures Reaching(xs, key, t) < NineTenths(|xs|) <==> MissesFloor(xs, same, t)
  {
    ReachingOrBelow(xs, key, same, t);
  }

  lemma CeilingSays(xs: seq<Interval>, key: Interval -> int, same: Interval -> int, t: int)
    requires forall i :: key(i) == same(i)
    ensures Within(xs, key, t) < NinetyNinth(|xs|) <==> BreaksCeiling(xs, same, t)
  {
    WithinOrAbove(xs, key, same, t);
  }

  lemma {:induction false} BacklogSays(xs: seq<Interval>, same: Interval -> int)
    requires forall i: Interval :: Backlog(i) == same(i)
    ensures Sum(Map(Backlog, xs)) == SumBy(same, xs)
  {
    if xs != [] {
      var n := |xs| - 1;
      BacklogSays(xs[..n], same);
      assert Map(Backlog, xs)[..n] == Map(Backlog, xs[..n]);
    }
  }

  /** A floor fails when a tenth of the intervals miss it, a ceiling when more than a hundredth break it. */
  lemma RateSaysIff(xs: seq<Interval>, f: Failure)
    ensures RateFails(xs, f) <==> RateSays(xs, f)
  {
    match f
    case RecordServiceFloor => FloorSays(xs, Serviced, (i: Interval) => i.measures.servicedRecords, SERVICE_RECORDS);
    case ClosureServiceFloor => FloorSays(xs, ServicedBytes, (i: Interval) => i.measures.servicedClosureBytes, CLOSURE_SERVICE_BYTES);
    case RecordArrivalCeiling => CeilingSays(xs, Arrived, (i: Interval) => i.measures.arrivedRecords, ARRIVAL_RECORDS);
    case ClosureArrivalCeiling => CeilingSays(xs, ArrivedBytes, (i: Interval) => i.measures.arrivedClosureBytes, CLOSURE_ARRIVAL_BYTES);
    case RequesterCeiling => CeilingSays(xs, Requester, (i: Interval) => i.measures.requesterExactRequests, REQUESTER_CEILING);
    case ProviderCeiling => CeilingSays(xs, Provider, (i: Interval) => i.measures.providerExactRequests, PROVIDER_CEILING);
    case NonnegativeBacklog => BacklogSays(xs, (i: Interval) => i.measures.backlogDeltaRecords);
    case _ =>
  }

  /** Fewer than k values are smaller and k or more are no larger, where k is the given part of them, rounded up. */
  ghost predicate IsQuantile(v: int, part: int, whole: int, xs: seq<Interval>, key: Interval -> int) {
    exists k: nat :: KthSmallest(v, k, xs, key) && whole * k - whole < part * |xs| <= whole * k
  }

  ghost predicate KthSmallest(v: int, k: nat, xs: seq<Interval>, key: Interval -> int) {
    Count(IsBelow(key, v), xs) < k <= |xs| - Count(IsAbove(key, v), xs)
  }

  lemma PercentileSays(xs: seq<Interval>, key: Interval -> int, same: Interval -> int, q: Quantile)
    requires xs != [] && forall i :: key(i) == same(i)
    ensures IsQuantile(Percentile(Map(key, xs), q), if q.P10? then 1 else 99, if q.P10? then 10 else 100, xs, same)
  {
    var v := Percentile(Map(key, xs), q);
    FloorCounts(Map(key, xs), q, v);
    CeilingCounts(Map(key, xs), q, v);
    ReachingOrBelow(xs, key, same, v);
    WithinOrAbove(xs, key, same, v);
    assert KthSmallest(v, Rank(q, |xs|), xs, same);
  }

  /** The minutes until service that exceeds arrival has worked off the amount; never when it does not. */
  ghost predicate Drains(m: Minutes, amount: int, service: int, arrival: int) {
    match m
    case Finite(minutes) => service > arrival && minutes * (service - arrival) as real == amount as real
    case Infinite => service <= arrival
    case Unknown => false
  }

  lemma DrainSays(amount: int, service: int, arrival: int)
    ensures Drains(Drain(amount, service, arrival), amount, service, arrival)
  {
  }

  /** The tenth percentile of the service against the ninety-ninth of the arrivals. */
  ghost predicate DrainsAt(m: Minutes, amount: int, xs: seq<Interval>, serviced: Interval -> int, arrived: Interval -> int,
                           service: int, arrival: int) {
    && IsQuantile(service, 1, 10, xs, serviced) && IsQuantile(arrival, 99, 100, xs, arrived)
    && Drains(m, amount, service, arrival)
  }

  ghost predicate DrainsIn(m: Minutes, amount: int, xs: seq<Interval>, serviced: Interval -> int, arrived: Interval -> int) {
    exists service, arrival :: DrainsAt(m, amount, xs, serviced, arrived, service, arrival)
  }

  ghost predicate DrainsRecords(m: Minutes, input: Input, xs: seq<Interval>) {
    DrainsIn(m, input.activeRecords, xs, (i: Interval) => i.measures.servicedRecords, (i: Interval) => i.measures.arrivedRecords)
  }

  ghost predicate DrainsBytes(m: Minutes, input: Input, xs: seq<Interval>) {
    if input.closureBytes.None? then m == Unknown
    else DrainsIn(m, input.closureBytes.value, xs, (i: Interval) => i.measures.servicedClosureBytes,
                  (i: Interval) => i.measures.arrivedClosureBytes)
  }

  lemma RecordDrainSays(input: Input, xs: seq<Interval>)
    requires xs != []
    ensures DrainsRecords(RecordDrain(input, xs), input, xs)
  {
    var serviced, arrived := (i: Interval) => i.measures.servicedRecords, (i: Interval) => i.measures.arrivedRecords;
    PercentileSays(xs, Serviced, serviced, P10);
    PercentileSays(xs, Arrived, arrived, P99);
    var service, arrival := Percentile(Map(Serviced, xs), P10), Percentile(Map(Arrived, xs), P99);
    DrainSays(input.activeRecords, service, arrival);
    assert DrainsAt(RecordDrain(input, xs), input.activeRecords, xs, serviced, arrived, service, arrival);
  }

  lemma ClosureDrainSays(input: Input, xs: seq<Interval>)
    requires xs != []
    ensures DrainsBytes(ClosureDrain(input, xs), input, xs)
  {
    if input.closureBytes.Some? {
      var serviced, arrived := (i: Interval) => i.measures.servicedClosureBytes, (i: Interval) => i.measures.arrivedClosureBytes;
      PercentileSays(xs, ServicedBytes, serviced, P10);
      PercentileSays(xs, ArrivedBytes, arrived, P99);
      var service, arrival := Percentile(Map(ServicedBytes, xs), P10), Percentile(Map(ArrivedBytes, xs), P99);
      DrainSays(input.closureBytes.value, service, arrival);
      assert DrainsAt(ClosureDrain(input, xs), input.closureBytes.value, xs, serviced, arrived, service, arrival);
    }
  }

  ghost predicate Overdue(m: Minutes) { m.Infinite? || (m.Finite? && m.minutes > 18.0) }

  /** The order in which the gates are tried. */
  function Order(f: Failure): nat {
    match f
    case ActiveRecordCap => 0
    case BundleUnavailable => 1
    case ActiveBundleByteCap => 2
    case ClosureUnavailable => 3
    case ActiveClosureByteCap => 4
    case InventoryLeafCap => 5
    case LoadUnavailable => 6
    case ExpectationUnavailable => 7
    case InsufficientIntervals => 8
    case ColdRequired => 9
    case RequesterInconsistent => 10
    case ProviderInconsistent => 11
    case RecordServiceFloor => 12
    case ClosureServiceFloor => 13
    case RecordArrivalCeiling => 14
    case ClosureArrivalCeiling => 15
    case RequesterCeiling => 16
    case ProviderCeiling => 17
    case NonnegativeBacklog => 18
    case RecordDrainDeadline => 19
    case ClosureDrainDeadline => 20
  }

  /** Each at most once, and in that order. */
  ghost predicate Ordered(failures: seq<Failure>) {
    forall i, j :: 0 <= i < j < |failures| ==> Order(failures[i]) < Order(failures[j])
  }

  /** Exactly the gates from low to below high that fail, in order. */
  ghost predicate Judged(failures: seq<Failure>, fails: Failure -> bool, low: nat, high: nat) {
    && Ordered(failures)
    && (forall f :: f in failures <==> low <= Order(f) < high && fails(f))
  }

  lemma OrderIsInjective(f: Failure, g: Failure)
    requires Order(f) == Order(g)
    ensures f == g
  {
  }

  function When(condition: bool, f: Failure): seq<Failure> { if condition then [f] else [] }

  /** One more gate. */
  lemma Judge(failures: seq<Failure>, fails: Failure -> bool, low: nat, g: Failure)
    requires low <= Order(g) && Judged(failures, fails, low, Order(g))
    ensures Judged(failures + When(fails(g), g), fails, low, Order(g) + 1)
  {
    var all := failures + When(fails(g), g);
    forall i, j | 0 <= i < j < |all| ensures Order(all[i]) < Order(all[j]) {
      assert all[i] in failures;
    }
    forall f ensures f in all <==> low <= Order(f) < Order(g) + 1 && fails(f) {
      if Order(f) == Order(g) { OrderIsInjective(f, g); }
    }
  }

  lemma PassedGate(failures: seq<Failure>, fails: Failure -> bool, low: nat, g: Failure)
    requires low <= Order(g) && Judged(failures, fails, low, Order(g)) && !fails(g)
    ensures Judged(failures, fails, low, Order(g) + 1)
  {
    Judge(failures, fails, low, g);
    assert failures + When(false, g) == failures;
  }

  method Push(failures0: seq<Failure>, condition: bool, g: Failure, ghost fails: Failure -> bool, ghost low: nat)
    returns (failures: seq<Failure>)
    requires low <= Order(g) && Judged(failures0, fails, low, Order(g)) && fails(g) == condition
    ensures Judged(failures, fails, low, Order(g) + 1)
  {
    Judge(failures0, fails, low, g);
    failures := failures0 + When(condition, g);
  }

  method Append(a: seq<Failure>, b: seq<Failure>, ghost fails: Failure -> bool, ghost low: nat, ghost middle: nat, ghost high: nat)
    returns (failures: seq<Failure>)
    requires low <= middle <= high && Judged(a, fails, low, middle) && Judged(b, fails, middle, high)
    ensures Judged(failures, fails, low, high)
  {
    JudgedConcat(a, b, fails, low, middle, high);
    failures := a + b;
  }

  lemma JudgedConcat(a: seq<Failure>, b: seq<Failure>, fails: Failure -> bool, low: nat, middle: nat, high: nat)
    requires low <= middle <= high && Judged(a, fails, low, middle) && Judged(b, fails, middle, high)
    ensures Judged(a + b, fails, low, high)
  {
    var all := a + b;
    forall i, j | 0 <= i < j < |all| ensures Order(all[i]) < Order(all[j]) {
      if i < |a| <= j { assert a[i] in a && b[j - |a|] in b; }
    }
  }

  lemma SameJudgement(failures: seq<Failure>, p: Failure -> bool, q: Failure -> bool, low: nat, high: nat)
    requires Judged(failures, p, low, high) && forall f :: low <= Order(f) < high ==> p(f) == q(f)
    ensures Judged(failures, q, low, high)
  {
  }

  ghost function CapGate(input: Input): Failure -> bool { f => CapFails(input, f) }
  ghost function ShapeGate(xs: seq<Interval>): Failure -> bool { f => ShapeFails(xs, f) }
  ghost function RateGate(xs: seq<Interval>): Failure -> bool { f => RateFails(xs, f) }

  /** Lines 557 to 569: a measurement is missing, or it is above its cap. */
  method MeasurementFailures(failures0: seq<Failure>, bytes: Option<int>, cap: int, unavailable: Failure, exceeded: Failure,
                             ghost fails: Failure -> bool)
    returns (failures: seq<Failure>)
    requires Judged(failures0, fails, 0, Order(unavailable)) && Order(exceeded) == Order(unavailable) + 1
    requires fails(unavailable) == bytes.None? && fails(exceeded) == (bytes.Some? && bytes.value > cap)
    ensures Judged(failures, fails, 0, Order(exceeded) + 1)
  {
    failures := failures0;
    if bytes.None? {
      failures := failures + [unavailable];
    } else if bytes.value > cap {
      failures := failures + [exceeded];
    }
    Judge(failures0, fails, 0, unavailable);
    Judge(failures0 + When(fails(unavailable), unavailable), fails, 0, exceeded);
    assert failures == failures0 + When(fails(unavailable), unavailable) + When(fails(exceeded), exceeded);
  }

  /** Lines 554 to 572. */
  method CapFailures(input: Input) returns (failures: seq<Failure>)
    ensures forall f :: f in failures <==> CapFails(input, f)
    ensures Judged(failures, CapGate(input), 0, 6)
  {
    ghost var fails := CapGate(input);
    failures := Push([], input.activeRecords > ACTIVATION_RECORDS, ActiveRecordCap, fails, 0);
    failures := MeasurementFailures(failures, input.bundleBytes, ACTIVATION_BUNDLE_BYTES,
                                    BundleUnavailable, ActiveBundleByteCap, fails);
    failures := MeasurementFailures(failures, input.closureBytes, ACTIVATION_CLOSURE_BYTES,
                                    ClosureUnavailable, ActiveClosureByteCap, fails);
    failures := Push(failures, input.inventoryLeaves > ACTIVATION_LEAVES, InventoryLeafCap, fails, 0);
  }

  /** Lines 593 to 613. */
  method ShapeFailures(xs: seq<Interval>) returns (failures: seq<Failure>)
    ensures Judged(failures, ShapeGate(xs), 8, 12)
  {
    var warm, requester, provider := false, false, false;
    for i := 0 to |xs|
      invariant warm <==> exists j :: 0 <= j < i && !xs[j].measures.cold
      invariant requester <==> exists j :: 0 <= j < i && !Consistent(xs[j], Requester(xs[j]))
      invariant provider <==> exists j :: 0 <= j < i && !Consistent(xs[j], Provider(xs[j]))
    {
      warm := warm || !xs[i].measures.cold;
      requester := requester || !Consistent(xs[i], Requester(xs[i]));
      provider := provider || !Consistent(xs[i], Provider(xs[i]));
    }
    failures := FourGates(|xs| < MINIMUM_LOAD_INTERVALS, InsufficientIntervals, warm, ColdRequired,
                          requester, RequesterInconsistent, provider, ProviderInconsistent, ShapeGate(xs));
  }

  /** Four gates in a row. */
  method FourGates(a: bool, f: Failure, b: bool, g: Failure, c: bool, h: Failure, d: bool, k: Failure, ghost fails: Failure -> bool)
    returns (failures: seq<Failure>)
    requires Order(g) == Order(f) + 1 && Order(h) == Order(f) + 2 && Order(k) == Order(f) + 3
    requires fails(f) == a && fails(g) == b && fails(h) == c && fails(k) == d
    ensures Judged(failures, fails, Order(f), Order(k) + 1)
  {
    failures := Push([], a, f, fails, Order(f));
    failures := Push(failures, b, g, fails, Order(f));
    failures := Push(failures, c, h, fails, Order(f));
    failures := Push(failures, d, k, fails, Order(f));
  }

  method FloorFailures(xs: seq<Interval>) returns (failures: seq<Failure>)
    requires xs != []
    ensures Judged(failures, RateGate(xs), 12, 14)
  {
    FloorMet(xs, Serviced, SERVICE_RECORDS);
    FloorMet(xs, ServicedBytes, CLOSURE_SERVICE_BYTES);
    failures := Push([], Percentile(Map(Serviced, xs), P10) < SERVICE_RECORDS, RecordServiceFloor, RateGate(xs), 12);
    failures := Push(failures, Percentile(Map(ServicedBytes, xs), P10) < CLOSURE_SERVICE_BYTES, ClosureServiceFloor, RateGate(xs), 12);
  }

  method CeilingFailures(xs: seq<Interval>) returns (failures: seq<Failure>)
    requires xs != []
    ensures Judged(failures, RateGate(xs), 14, 18)
  {
    CeilingMet(xs, Arrived, ARRIVAL_RECORDS);
    CeilingMet(xs, ArrivedBytes, CLOSURE_ARRIVAL_BYTES);
    CeilingMet(xs, Requester, REQUESTER_CEILING);
    CeilingMet(xs, Provider, PROVIDER_CEILING);
    failures := FourGates(Percentile(Map(Arrived, xs), P99) > ARRIVAL_RECORDS, RecordArrivalCeiling,
                          Percentile(Map(ArrivedBytes, xs), P99) > CLOSURE_ARRIVAL_BYTES, ClosureArrivalCeiling,
                          Percentile(Map(Requester, xs), P99) > REQUESTER_CEILING, RequesterCeiling,
                          Percentile(Map(Provider, xs), P99) > PROVIDER_CEILING, ProviderCeiling, RateGate(xs));
  }

  method BacklogDelta(xs: seq<Interval>) returns (backlog: int)
    ensures backlog == Sum(Map(Backlog, xs))
  {
    backlog := 0;
    for i := 0 to |xs|
      invariant backlog == Sum(Map(Backlog, xs)[..i])
    {
      assert Map(Backlog, xs)[..i + 1][..i] == Map(Backlog, xs)[..i];
      backlog := backlog + Backlog(xs[i]);
    }
    assert Map(Backlog, xs)[..|xs|] == Map(Backlog, xs);
  }

  /** Lines 617 to 660. */
  method RateFailures(xs: seq<Interval>) returns (failures: seq<Failure>)
    requires xs != []
    ensures forall f :: f in failures <==> RateFails(xs, f)
    ensures Judged(failures, RateGate(xs), 12, 19)
  {
    var floors := FloorFailures(xs);
    var ceilings := CeilingFailures(xs);
    var backlog := BacklogDelta(xs);
    failures := Append(floors, ceilings, RateGate(xs), 12, 14, 18);
    failures := Push(failures, backlog >= 0, NonnegativeBacklog, RateGate(xs), 12);
  }

  /** No count is negative, and the backlog moves by no more than the hard limit. */
  ghost predicate CountsInRange(m: Measures) {
    && 0 <= m.servicedRecords && 0 <= m.servicedClosureBytes && 0 <= m.arrivedRecords && 0 <= m.arrivedClosureBytes
    && 0 <= m.requesterExactRequests && 0 <= m.providerExactRequests
    && -HARD_RECORDS <= m.backlogDeltaRecords <= HARD_RECORDS
  }

  /** The numbers are in range, and an absent measurement comes without metadata or expectation. */
  ghost predicate WellFormed(rules: Rules, input: Input, expected: Option<Expectation>) {
    && 0 <= input.activeRecords <= HARD_RECORDS && 0 <= input.inventoryLeaves <= MAX_LEAVES
    && (input.bundleBytes.Some? ==> input.bundleBytes.value >= 0)
    && (input.closureBytes.Some? ==> input.closureBytes.value >= 0)
    && match input.intervals
       case None =>
         input.captureId.None? && input.requesterSource.None? && input.providerSource.None? && input.captureDigest.None?
         && expected.None?
       case Some(xs) =>
         && |xs| <= MAXIMUM_LOAD_INTERVALS
         && (expected.Some? ==>
               && input.captureId.Some? && input.requesterSource.Some? && input.providerSource.Some? && input.captureDigest.Some?
               && Accepts(rules, Capture(captureId := input.captureId.value, requesterSource := input.requesterSource.value,
                                         providerSource := input.providerSource.value, intervals := xs,
                                         captureDigest := input.captureDigest.value), expected.value)
               && forall i :: 0 <= i < |xs| ==> CountsInRange(xs[i].measures))
  }

  function CaptureOf(input: Input): Option<Capture> {
    match (input.captureId, input.requesterSource, input.providerSource, input.intervals, input.captureDigest)
    case (Some(id), Some(requester), Some(provider), Some(xs), Some(digest)) => Some(Capture(id, requester, provider, xs, digest))
    case _ => None
  }

  /** What each failure of the whole evaluation means. */
  ghost predicate Fails(input: Input, expected: Option<Expectation>, f: Failure) {
    || CapFails(input, f)
    || (f == LoadUnavailable && input.intervals.None?)
    || (f == ExpectationUnavailable && input.intervals.Some? && expected.None?)
    || (input.intervals.Some? && expected.Some? &&
        var xs := input.intervals.value;
        || ShapeFails(xs, f)
        || RateFails(xs, f)
        || (xs != [] && f == RecordDrainDeadline && TooLong(RecordDrain(input, xs)))
        || (xs != [] && f == ClosureDrainDeadline && TooLong(ClosureDrain(input, xs))))
  }

  /** Eligible: measured against an expectation, within the caps, and past every gate but the drain deadlines. */
  ghost predicate Eligible(input: Input, expected: Option<Expectation>) {
    && input.intervals.Some? && expected.Some?
    && (forall f :: !CapFails(input, f))
    && (forall f :: !ShapeFails(input.intervals.value, f))
    && (forall f :: !RateFails(input.intervals.value, f))
  }

  method CheckCounts(xs: seq<Interval>) returns (ok: bool)
    ensures ok <==> forall i :: 0 <= i < |xs| ==> CountsInRange(xs[i].measures)
  {
    for i := 0 to |xs|
      invariant forall j :: 0 <= j < i ==> CountsInRange(xs[j].measures)
    {
      if !GoodCounts(xs[i]) { return false; }
    }
    return true;
  }

  /** Lines 532 to 551, 574 to 604. */
  method CheckInput(rules: Rules, input: Input, expected: Option<Expectation>) returns (ok: bool)
    ensures ok <==> WellFormed(rules, input, expected)
  {
    if !InRange(input.activeRecords, 0, HARD_RECORDS) || !InRange(input.inventoryLeaves, 0, MAX_LEAVES) { return false; }
    if input.bundleBytes.Some? && input.bundleBytes.value < 0 { return false; }
    if input.closureBytes.Some? && input.closureBytes.value < 0 { return false; }
    if input.intervals.None? {
      return input.captureId.None? && input.requesterSource.None? && input.providerSource.None? &&
             input.captureDigest.None? && expected.None?;
    }
    if |input.intervals.value| > MAXIMUM_LOAD_INTERVALS { return false; }
    if expected.None? { return true; }
    var capture := CaptureOf(input);
    if capture.None? { return false; }
    ok := AssertLoadCapture(rules, capture.value, expected.value);
    if !ok { return false; }
    ok := CheckCounts(input.intervals.value);
  }

  /** A capture that is accepted has intervals, so the verdict on no intervals is never reached. */
  lemma MeasuredMeansSome(rules: Rules, input: Input, expected: Option<Expectation>)
    requires WellFormed(rules, input, expected) && input.intervals.Some? && expected.Some?
    ensures input.intervals.value != []
  {
  }

  lemma EligibleHasNoFailure(rules: Rules, input: Input, expected: Option<Expectation>, f: Failure)
    requires WellFormed(rules, input, expected) && Eligible(input, expected)
    ensures !Fails(input, expected, f)
  {
    MeasuredMeansSome(rules, input, expected);
    RecordDrainIsImplied(input, input.intervals.value);
    ClosureDrainIsImplied(input, input.intervals.value);
  }

  lemma NoFailureMeansEligible(input: Input, expected: Option<Expectation>)
    requires forall f :: !Fails(input, expected, f)
    ensures Eligible(input, expected)
  {
    assert !Fails(input, expected, LoadUnavailable) && !Fails(input, expected, ExpectationUnavailable);
    forall f ensures !CapFails(input, f) && !ShapeFails(input.intervals.value, f) && !RateFails(input.intervals.value, f) {
      assert !Fails(input, expected, f);
    }
  }

  /** No failure at all is the same as eligibility: the drain deadlines add nothing. */
  lemma NoFailureIff(rules: Rules, input: Input, expected: Option<Expectation>)
    requires WellFormed(rules, input, expected)
    ensures (forall f :: !Fails(input, expected, f)) <==> Eligible(input, expected)
  {
    if Eligible(input, expected) {
      forall f ensures !Fails(input, expected, f) { EligibleHasNoFailure(rules, input, expected, f); }
    }
    if forall f :: !Fails(input, expected, f) { NoFailureMeansEligible(input, expected); }
  }

  /** The drain times that the verdict reports. */
  function DrainTimes(input: Input, expected: Option<Expectation>): (Minutes, Minutes) {
    if input.intervals.None? || expected.None? || input.intervals.value == [] then (Unknown, Unknown)
    else (RecordDrain(input, input.intervals.value), ClosureDrain(input, input.intervals.value))
  }

  ghost function Gate(input: Input, expected: Option<Expectation>): Failure -> bool { f => Fails(input, expected, f) }

  /** Lines 593 to 679: the gates over the intervals, after those over the population. */
  method MeasuredFailures(input: Input, caps: seq<Failure>, ghost expected: Option<Expectation>) returns (failures: seq<Failure>)
    requires input.intervals.Some? && expected.Some? && input.intervals.value != []
    requires Judged(caps, CapGate(input), 0, 6)
    ensures Judged(failures, Gate(input, expected), 0, 21)
  {
    var xs := input.intervals.value;
    ghost var fails := Gate(input, expected);
    SameJudgement(caps, CapGate(input), fails, 0, 6);
    PassedGate(caps, fails, 0, LoadUnavailable);
    PassedGate(caps, fails, 0, ExpectationUnavailable);
    var shape := ShapeFailures(xs);
    SameJudgement(shape, ShapeGate(xs), fails, 8, 12);
    failures := Append(caps, shape, fails, 0, 8, 12);
    var rates := RateFailures(xs);
    SameJudgement(rates, RateGate(xs), fails, 12, 19);
    failures := Append(failures, rates, fails, 0, 12, 19);
    failures := Push(failures, TooLong(RecordDrain(input, xs)), RecordDrainDeadline, fails, 0);
    failures := Push(failures, TooLong(ClosureDrain(input, xs)), ClosureDrainDeadline, fails, 0);
  }

  lemma EmptyIff(input: Input, expected: Option<Expectation>, failures: seq<Failure>)
    requires Judged(failures, Gate(input, expected), 0, 21)
    ensures failures == [] <==> forall f :: !Fails(input, expected, f)
  {
    if failures != [] { assert failures[0] in failures; }
    forall f | Fails(input, expected, f) ensures failures != [] { assert Gate(input, expected)(f); }
  }

  /** The population is judged, but there is no measurement or nothing to hold it against. */
  lemma Unmeasured(input: Input, expected: Option<Expectation>, caps: seq<Failure>, f: Failure)
    requires Judged(caps, CapGate(input), 0, 6)
    requires f == if input.intervals.None? then LoadUnavailable else ExpectationUnavailable
    requires input.intervals.None? || expected.None?
    ensures Judged(caps + [f], Gate(input, expected), 0, 21)
  {
    var fails := Gate(input, expected);
    SameJudgement(caps, CapGate(input), fails, 0, 6);
    Judge(caps, fails, 0, LoadUnavailable);
    Judge(caps + When(fails(LoadUnavailable), LoadUnavailable), fails, 0, ExpectationUnavailable);
    var all := caps + When(fails(LoadUnavailable), LoadUnavailable) + When(fails(ExpectationUnavailable), ExpectationUnavailable);
    assert all == caps + [f];
    assert Judged(all, fails, 0, 8);
  }

  /** What the verdict says of the input and its intervals. */
  ghost predicate Says(v: Verdict, input: Input, expected: Option<Expectation>, f: Failure) {
    || CapFails(input, f)
    || (f == LoadUnavailable && input.intervals.None?)
    || (f == ExpectationUnavailable && input.intervals.Some? && expected.None?)
    || (input.intervals.Some? && expected.Some? &&
        var xs := input.intervals.value;
        || ShapeFails(xs, f) || RateSays(xs, f)
        || (f == RecordDrainDeadline && Overdue(v.recordDrain))
        || (f == ClosureDrainDeadline && Overdue(v.closureDrain)))
  }

  ghost predicate Sound(v: Verdict, input: Input, expected: Option<Expectation>) {
    && (forall f :: f in v.failures <==> Says(v, input, expected, f))
    && (v.eligible <==> v.failures == [])
    && if input.intervals.None? || expected.None? then v.recordDrain == v.closureDrain == Unknown
       else DrainsRecords(v.recordDrain, input, input.intervals.value) && DrainsBytes(v.closureDrain, input, input.intervals.value)
  }

  lemma FailsSays(v: Verdict, input: Input, expected: Option<Expectation>, f: Failure)
    requires input.intervals.Some? && expected.Some? ==> input.intervals.value != []
    requires (v.recordDrain, v.closureDrain) == DrainTimes(input, expected)
    ensures Fails(input, expected, f) <==> Says(v, input, expected, f)
  {
    if input.intervals.Some? { RateSaysIff(input.intervals.value, f); }
  }

  lemma VerdictIsSound(rules: Rules, v: Verdict, input: Input, expected: Option<Expectation>)
    requires WellFormed(rules, input, expected)
    requires (forall f :: f in v.failures <==> Fails(input, expected, f)) && (v.eligible <==> v.failures == [])
    requires (v.recordDrain, v.closureDrain) == DrainTimes(input, expected)
    ensures Sound(v, input, expected)
  {
    forall f ensures Fails(input, expected, f) <==> Says(v, input, expected, f) {
      if input.intervals.Some? && expected.Some? { MeasuredMeansSome(rules, input, expected); }
      FailsSays(v, input, expected, f);
    }
    if input.intervals.Some? && expected.Some? {
      MeasuredMeansSome(rules, input, expected);
      RecordDrainSays(input, input.intervals.value);
      ClosureDrainSays(input, input.intervals.value);
    }
  }

  /** Lines 545 to 685; none is an exception. */
  method Evaluate(rules: Rules, input: Input, expected: Option<Expectation>) returns (r: Option<Verdict>)
    ensures r.Some? <==> WellFormed(rules, input, expected)
    ensures r.Some? ==> forall f :: f in r.value.failures <==> Fails(input, expected, f)
    ensures r.Some? ==> Ordered(r.value.failures)
    ensures r.Some? ==> (r.value.recordDrain, r.value.closureDrain) == DrainTimes(input, expected)
    ensures r.Some? ==> (r.value.eligible <==> r.value.failures == [])
    ensures r.Some? ==> (r.value.eligible <==> Eligible(input, expected))
    ensures r.Some? ==> Sound(r.value, input, expected)
  {
    var ok := CheckInput(rules, input, expected);
    if !ok { return None; }
    NoFailureIff(rules, input, expected);
    var failures := CapFailures(input);
    if input.intervals.None? {
      Unmeasured(input, expected, failures, LoadUnavailable);
      r := Some(Verdict(false, Unknown, Unknown, failures + [LoadUnavailable]));
      VerdictIsSound(rules, r.value, input, expected);
      return;
    }
    if expected.None? {
      Unmeasured(input, expected, failures, ExpectationUnavailable);
      r := Some(Verdict(false, Unknown, Unknown, failures + [ExpectationUnavailable]));
      VerdictIsSound(rules, r.value, input, expected);
      return;
    }
    MeasuredMeansSome(rules, input, expected);
    var xs := input.intervals.value;
    failures := MeasuredFailures(input, failures, expected);
    EmptyIff(input, expected, failures);
    r := Some(Verdict(failures == [], RecordDrain(input, xs), ClosureDrain(input, xs), failures));
    VerdictIsSound(rules, r.value, input, expected);
  }
}
