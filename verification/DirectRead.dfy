/**
 * The direct-read discovery of future Knowledge Collections: the descending
 * end-epoch scan with early stop, in its one-call-at-a-time form and in its
 * batched JSON-RPC form, and the detail reads that follow.
 *
 * `read` is the contract state at the snapshot block. A `network` answers each
 * try of a batch; JSON-RPC 2.0, section 6, lets it order the replies freely.
 */
module DirectRead {
  import opened Sequences
  import opened Numbers
  import opened Refunds

  const READ_BATCH := 2000
  const PARALLEL_BATCHES := 4
  const DETAIL_BATCH := 500
  const STOP_AFTER := 100_000
  const MAX_RETRIES := 3

  datatype View = EndEpoch | StartEpoch | TokenAmount | Publisher
  datatype Call = Call(view: View, id: int)
  datatype Reply = Result(id: int, word: nat) | Error(id: int)
  datatype Attempt = HttpFailure | NotAnArray | Replies(list: seq<Reply>)

  // ----- what a descending scan has seen after its first p ids

  predicate Future(read: Call -> nat, currentEpoch: int, id: int) {
    read(Call(EndEpoch, id)) > currentEpoch
  }

  function FutureIds(read: Call -> nat, currentEpoch: int, last: nat, p: nat): seq<int> {
    if p == 0 then []
    else
      var seen, id := FutureIds(read, currentEpoch, last, p - 1), last - p + 1;
      if Future(read, currentEpoch, id) then seen + [id] else seen
  }

  function PastRun(read: Call -> nat, currentEpoch: int, last: nat, p: nat): nat {
    if p == 0 || Future(read, currentEpoch, last - p + 1) then 0
    else PastRun(read, currentEpoch, last, p - 1) + 1
  }

  /** Where a scan that looks for the early stop only between batches ends. */
  function StopPoint(read: Call -> nat, currentEpoch: int, last: nat, batch: nat, p: nat): nat
    requires batch > 0
    decreases last - p
  {
    if p >= last then p
    else
      var q := Min(p + batch, last);
      if PastRun(read, currentEpoch, last, q) >= STOP_AFTER then q
      else StopPoint(read, currentEpoch, last, batch, q)
  }

  /** The ids last, last - 1, ... of the p-th to the (q-1)-th step, as the scan visits them. */
  function Visited(last: int, p: int, q: int): seq<int>
    requires p <= q
  {
    seq(q - p, i => last - p - i)
  }

  lemma {:induction false} FutureIdsPrefix(read: Call -> nat, currentEpoch: int, last: nat, p: nat, q: nat)
    requires p <= q
    ensures FutureIds(read, currentEpoch, last, p) <= FutureIds(read, currentEpoch, last, q)
    decreases q
  {
    if p < q { FutureIdsPrefix(read, currentEpoch, last, p, q - 1); }
  }

  /** The list is in descending order and is exactly the filter of the visited ids. */
  lemma {:induction false} FutureIdsMeaning(read: Call -> nat, currentEpoch: int, last: nat, p: nat)
    ensures var ids := FutureIds(read, currentEpoch, last, p);
            && (forall i, j :: 0 <= i < j < |ids| ==> ids[i] > ids[j])
            && (forall id :: id in ids <==> last - p < id <= last && Future(read, currentEpoch, id))
  {
    if p > 0 {
      FutureIdsMeaning(read, currentEpoch, last, p - 1);
      var seen := FutureIds(read, currentEpoch, last, p - 1);
      assert forall i :: 0 <= i < |seen| ==> seen[i] in seen;
    }
  }

  lemma {:induction false} PastRunMeaning(read: Call -> nat, currentEpoch: int, last: nat, p: nat, k: nat)
    ensures PastRun(read, currentEpoch, last, p) >= k <==>
            p >= k && forall id :: last - p < id <= last - p + k ==> !Future(read, currentEpoch, id)
  {
    if p > 0 && k > 0 {
      PastRunMeaning(read, currentEpoch, last, p - 1, k - 1);
    }
  }

  ghost predicate Stops(read: Call -> nat, currentEpoch: int, last: nat, q: nat) {
    q == last || PastRun(read, currentEpoch, last, q) >= STOP_AFTER
  }

  /** A scan ends at the last id or at a batch boundary where the run of past ids is long enough. */
  lemma {:induction false} StopPointStops(read: Call -> nat, currentEpoch: int, last: nat, batch: nat, p: nat)
    returns (k: nat)
    requires batch > 0 && p <= last
    ensures var q := StopPoint(read, currentEpoch, last, batch, p);
            && p <= q <= last
            && (p < last ==> p < q)
            && Stops(read, currentEpoch, last, q)
            && (q == last || q == p + k * batch)
    decreases last - p
  {
    k := 1;
    if p + batch < last && PastRun(read, currentEpoch, last, p + batch) < STOP_AFTER {
      var k' := StopPointStops(read, currentEpoch, last, batch, p + batch);
      k := k' + 1;
      assert k * batch == k' * batch + batch;
    }
  }

  /** A scan never gets past a batch boundary at which it may stop. */
  lemma {:induction false} StopsBy(read: Call -> nat, currentEpoch: int, last: nat, batch: nat, p: nat, k: nat, q: nat)
    requires batch > 0 && p < q <= last && Stops(read, currentEpoch, last, q)
    requires q == last || q == p + k * batch
    ensures StopPoint(read, currentEpoch, last, batch, p) <= q
    decreases last - p
  {
    var next := Min(p + batch, last);
    if q != last {
      assert k != 0;
      assert q == p + batch + (k - 1) * batch;
      assert (k - 1) * batch >= 0;
    }
    if next < q && PastRun(read, currentEpoch, last, next) < STOP_AFTER {
      StopsBy(read, currentEpoch, last, batch, next, if q == last then 0 else k - 1, q);
    }
  }

  lemma Regroup(k: nat, factor: nat, batch: nat) returns (j: nat)
    ensures j * batch == k * (factor * batch)
  {
    j := k * factor;
    assert j * batch == k * (factor * batch);
  }

  /** A scan with batches of `batch` ends no later than one whose batches are `factor` times as large. */
  lemma SmallerBatchesStopFirst(read: Call -> nat, currentEpoch: int, last: nat, batch: nat, factor: nat)
    requires batch > 0 && factor > 0 && factor * batch > 0
    ensures StopPoint(read, currentEpoch, last, batch, 0) <= StopPoint(read, currentEpoch, last, factor * batch, 0) <= last
  {
    var large := factor * batch;
    var k := StopPointStops(read, currentEpoch, last, large, 0);
    if last > 0 {
      var j := Regroup(k, factor, batch);
      StopsBy(read, currentEpoch, last, batch, 0, j, StopPoint(read, currentEpoch, last, large, 0));
    }
  }

  /** The one-at-a-time scan finds a prefix of what the batched scan finds. */
  lemma SimpleScanIsPrefixOfFast(read: Call -> nat, currentEpoch: int, last: nat)
    ensures FutureIds(read, currentEpoch, last, StopPoint(read, currentEpoch, last, READ_BATCH, 0))
         <= FutureIds(read, currentEpoch, last, StopPoint(read, currentEpoch, last, PARALLEL_BATCHES * READ_BATCH, 0))
  {
    SmallerBatchesStopFirst(read, currentEpoch, last, READ_BATCH, PARALLEL_BATCHES);
    FutureIdsPrefix(read, currentEpoch, last, StopPoint(read, currentEpoch, last, READ_BATCH, 0),
                    StopPoint(read, currentEpoch, last, PARALLEL_BATCHES * READ_BATCH, 0));
  }

  ghost predicate PastWindow(read: Call -> nat, currentEpoch: int, low: int) {
    forall id :: low <= id < low + STOP_AFTER ==> !Future(read, currentEpoch, id)
  }

  /** A batch boundary below STOP_AFTER past ids in a row, with a future id still to come. */
  ghost predicate HidesFuture(read: Call -> nat, currentEpoch: int, last: nat, batch: nat, k: nat) {
    && STOP_AFTER <= k * batch < last
    && PastWindow(read, currentEpoch, last - k * batch + 1)
    && (exists id :: 1 <= id <= last - k * batch && Future(read, currentEpoch, id))
  }

  /** The early stop loses nothing exactly when no boundary hides a future id. */
  lemma ScanIsCompleteIff(read: Call -> nat, currentEpoch: int, last: nat, batch: nat)
    requires batch > 0
    ensures FutureIds(read, currentEpoch, last, StopPoint(read, currentEpoch, last, batch, 0))
              == FutureIds(read, currentEpoch, last, last)
            <==> forall k: nat :: !HidesFuture(read, currentEpoch, last, batch, k)
  {
    var q := StopPoint(read, currentEpoch, last, batch, 0);
    var k := StopPointStops(read, currentEpoch, last, batch, 0);
    if j: nat :| HidesFuture(read, currentEpoch, last, batch, j) {
      HiddenIdIsLost(read, currentEpoch, last, batch, j);
    } else if q < last {
      PastRunMeaning(read, currentEpoch, last, q, STOP_AFTER);
      assert !HidesFuture(read, currentEpoch, last, batch, k);
      NoMoreFuture(read, currentEpoch, last, q, last);
    }
  }

  /** Every future id below such a boundary is lost. */
  lemma HiddenIdIsLost(read: Call -> nat, currentEpoch: int, last: nat, batch: nat, k: nat)
    requires batch > 0 && HidesFuture(read, currentEpoch, last, batch, k)
    ensures var seen := FutureIds(read, currentEpoch, last, StopPoint(read, currentEpoch, last, batch, 0));
            var all := FutureIds(read, currentEpoch, last, last);
            && seen != all
            && (forall id :: 1 <= id <= last - k * batch && Future(read, currentEpoch, id) ==> id in all && id !in seen)
  {
    var q := StopPoint(read, currentEpoch, last, batch, 0);
    FutureIdsMeaning(read, currentEpoch, last, q);
    FutureIdsMeaning(read, currentEpoch, last, last);
    PastRunMeaning(read, currentEpoch, last, k * batch, STOP_AFTER);
    StopsBy(read, currentEpoch, last, batch, 0, k, k * batch);
    var id :| 1 <= id <= last - k * batch && Future(read, currentEpoch, id);
    assert id in FutureIds(read, currentEpoch, last, last) && id !in FutureIds(read, currentEpoch, last, q);
  }

  /**
   * Id 1 ends in epoch 6 and the 100,000 ids above it have ended. In epoch 5 the
   * one-at-a-time scan stops just before it, while the batched one still reads it.
   */
  lemma EarlyStopLosesAnId()
    ensures var read := (call: Call) => if call == Call(EndEpoch, 1) then 6 else 5;
            && HidesFuture(read, 5, 100_001, READ_BATCH, 50)
            && 1 in FutureIds(read, 5, 100_001, 100_001)
            && 1 !in FutureIds(read, 5, 100_001, StopPoint(read, 5, 100_001, READ_BATCH, 0))
            && 1 in FutureIds(read, 5, 100_001, StopPoint(read, 5, 100_001, PARALLEL_BATCHES * READ_BATCH, 0))
  {
    var read := (call: Call) => if call == Call(EndEpoch, 1) then 6 else 5;
    assert Future(read, 5, 1);
    HiddenIdIsLost(read, 5, 100_001, READ_BATCH, 50);
    ScanIsCompleteIff(read, 5, 100_001, PARALLEL_BATCHES * READ_BATCH);
  }

  lemma {:induction false} NoMoreFuture(read: Call -> nat, currentEpoch: int, last: nat, p: nat, q: nat)
    requires p <= q <= last
    requires forall id :: 1 <= id <= last - p ==> !Future(read, currentEpoch, id)
    ensures FutureIds(read, currentEpoch, last, q) == FutureIds(read, currentEpoch, last, p)
    decreases q
  {
    if p < q { NoMoreFuture(read, currentEpoch, last, p, q - 1); }
  }

  /** When no future id lies below a run of STOP_AFTER past ids, both scans equal the full filter. */
  lemma BothScansComplete(read: Call -> nat, currentEpoch: int, last: nat)
    requires forall low, id :: PastWindow(read, currentEpoch, low) && low + STOP_AFTER <= last + 1 && 1 <= id < low ==>
               !Future(read, currentEpoch, id)
    ensures FutureIds(read, currentEpoch, last, StopPoint(read, currentEpoch, last, READ_BATCH, 0))
         == FutureIds(read, currentEpoch, last, StopPoint(read, currentEpoch, last, PARALLEL_BATCHES * READ_BATCH, 0))
         == FutureIds(read, currentEpoch, last, last)
  {
    ScanIsCompleteIff(read, currentEpoch, last, READ_BATCH);
    ScanIsCompleteIff(read, currentEpoch, last, PARALLEL_BATCHES * READ_BATCH);
  }

  // ----- JSON-RPC batches

  predicate Clean(list: seq<Reply>) {
    forall i :: 0 <= i < |list| ==> list[i].Result?
  }

  predicate Usable(attempt: Attempt) {
    attempt.Replies? && Clean(attempt.list)
  }

  function Answers(read: Call -> nat, calls: seq<Call>): seq<Reply> {
    seq(|calls|, i requires 0 <= i < |calls| => Result(i + 1, read(calls[i])))
  }

  function Words(read: Call -> nat, calls: seq<Call>): seq<Option<nat>> {
    seq(|calls|, i requires 0 <= i < |calls| => Some(read(calls[i])))
  }

  /** Every usable try holds one reply per call, in some order. */
  ghost predicate Honest(network: (seq<Call>, nat) -> Attempt, read: Call -> nat) {
    forall calls, k :: Usable(network(calls, k)) ==>
      multiset(network(calls, k).list) == multiset(Answers(read, calls))
  }

  ghost predicate GaveUp(network: (seq<Call>, nat) -> Attempt, calls: seq<Call>) {
    forall k: nat :: 1 <= k <= MAX_RETRIES ==> !Usable(network(calls, k))
  }

  function ById(list: seq<Reply>): map<int, nat>
    requires Clean(list)
  {
    if list == [] then map[]
    else
      var reply := list[|list| - 1];
      ById(list[..|list| - 1])[reply.id := reply.word]
  }

  lemma {:induction false} ByIdHolds(list: seq<Reply>)
    requires Clean(list)
    ensures forall id :: id in ById(list) ==> Result(id, ById(list)[id]) in list
    ensures forall i :: 0 <= i < |list| ==> list[i].id in ById(list)
  {
    if list != [] {
      var front := list[..|list| - 1];
      ByIdHolds(front);
      assert list == front + [list[|list| - 1]];
      forall id | id in ById(list) ensures Result(id, ById(list)[id]) in list {
        if id != list[|list| - 1].id { assert Result(id, ById(front)[id]) in front; }
      }
    }
  }

  function Collated(list: seq<Reply>, n: nat): seq<Option<nat>>
    requires Clean(list)
  {
    seq(n, i => if i + 1 in ById(list) then Some(ById(list)[i + 1]) else None)
  }

  /** Whatever the order of the replies, they come back in the order of the calls. */
  lemma AnyReplyOrder(read: Call -> nat, calls: seq<Call>, list: seq<Reply>)
    requires Clean(list) && multiset(list) == multiset(Answers(read, calls))
    ensures Collated(list, |calls|) == Words(read, calls)
  {
    ByIdHolds(list);
    var answers := Answers(read, calls);
    forall i | 0 <= i < |calls| ensures Collated(list, |calls|)[i] == Words(read, calls)[i] {
      assert answers[i] in multiset(list);
      var k :| 0 <= k < |list| && list[k] == answers[i];
      assert i + 1 in ById(list);
      assert Result(i + 1, ById(list)[i + 1]) in multiset(answers);
      var j :| 0 <= j < |answers| && answers[j] == Result(i + 1, ById(list)[i + 1]);
    }
  }

  /** Lines 107 to 143 of the batched script: up to three tries, the first usable one is collated by id. */
  method RpcBatch(network: (seq<Call>, nat) -> Attempt, calls: seq<Call>, ghost read: Call -> nat)
    returns (r: Option<seq<Option<nat>>>)
    ensures r.None? <==> GaveUp(network, calls)
    ensures r.Some? && Honest(network, read) ==> r.value == Words(read, calls)
  {
    for attempt := 1 to MAX_RETRIES + 1
      invariant forall k: nat :: 1 <= k < attempt ==> !Usable(network(calls, k))
    {
      match network(calls, attempt)
      case HttpFailure =>
      case NotAnArray =>
      case Replies(list) =>
        var byId: map<int, nat>, failed, i := map[], false, 0;
        while i < |list| && !failed
          decreases |list| - i, !failed
          invariant 0 <= i <= |list|
          invariant !failed ==> Clean(list[..i]) && byId == ById(list[..i])
          invariant failed ==> !Clean(list)
        {
          if list[i].Error? {
            failed := true;
          } else {
            byId := byId[list[i].id := list[i].word];
            assert list[..i + 1][..i] == list[..i];
            i := i + 1;
          }
        }
        if !failed {
          assert list[..i] == list;
          r := Some(seq(|calls|, i => if i + 1 in byId then Some(byId[i + 1]) else None));
          assert r.value == Collated(list, |calls|);
          if Honest(network, read) { AnyReplyOrder(read, calls, list); }
          assert Usable(network(calls, attempt));
          return;
        }
    }
    return None;
  }

  // ----- the two end-epoch scans

  /** What the scan holds after its first p ids. */
  ghost predicate Tallied(read: Call -> nat, currentEpoch: int, last: nat, p: nat,
                          futureIds: seq<int>, ends: map<int, nat>, past: nat) {
    && futureIds == FutureIds(read, currentEpoch, last, p)
    && past == PastRun(read, currentEpoch, last, p)
    && Ends(read, futureIds, ends)
  }

  ghost predicate Ends(read: Call -> nat, futureIds: seq<int>, ends: map<int, nat>) {
    && ends.Keys == Elements(futureIds)
    && forall id :: id in ends ==> ends[id] == read(Call(EndEpoch, id))
  }

  method DescendingIds(startId: int, ghost last: nat) returns (ids: seq<int>)
    requires 1 <= startId <= last
    ensures ids == Visited(last, last - startId, Min(last - startId + READ_BATCH, last))
  {
    ids := [];
    var id := startId;
    while id >= Max(startId - READ_BATCH + 1, 1)
      invariant Max(startId - READ_BATCH + 1, 1) - 1 <= id <= startId
      invariant ids == Visited(last, last - startId, last - id)
    {
      ids := ids + [id];
      id := id - 1;
    }
  }

  /** Lines 320 to 329 of the simple script and 282 to 291 of the batched one. */
  method TallyBatch(ids: seq<int>, words: seq<nat>, currentEpoch: int, futureIds0: seq<int>, ends0: map<int, nat>, past0: nat,
                    ghost read: Call -> nat, ghost last: nat, ghost p: nat)
    returns (futureIds: seq<int>, ends: map<int, nat>, past: nat)
    requires p + |ids| <= last && ids == Visited(last, p, p + |ids|)
    requires Matches(read, ids, words)
    requires Tallied(read, currentEpoch, last, p, futureIds0, ends0, past0)
    ensures Tallied(read, currentEpoch, last, p + |ids|, futureIds, ends, past)
  {
    futureIds, ends, past := futureIds0, ends0, past0;
    for i := 0 to |ids|
      invariant Tallied(read, currentEpoch, last, p + i, futureIds, ends, past)
    {
      assert ids[i] == last - (p + i + 1) + 1;
      if words[i] > currentEpoch {
        assert Elements(futureIds + [ids[i]]) == Elements(futureIds) + {ids[i]};
        futureIds, ends, past := futureIds + [ids[i]], ends[ids[i] := words[i]], 0;
      } else {
        past := past + 1;
      }
    }
  }

  ghost predicate Matches(read: Call -> nat, ids: seq<int>, words: seq<nat>) {
    |words| == |ids| && forall i :: 0 <= i < |ids| ==> words[i] == read(Call(EndEpoch, ids[i]))
  }

  /** `Promise.all` over single reads: the values in the order of the ids. */
  function ReadEach(read: Call -> nat, ids: seq<int>): (words: seq<nat>)
    ensures Matches(read, ids, words)
  {
    seq(|ids|, i requires 0 <= i < |ids| => read(Call(EndEpoch, ids[i])))
  }

  /** Lines 300 to 345 of the simple script. */
  method SimpleScan(read: Call -> nat, currentEpoch: int, last: nat) returns (futureIds: seq<int>, ends: map<int, nat>)
    ensures futureIds == FutureIds(read, currentEpoch, last, StopPoint(read, currentEpoch, last, READ_BATCH, 0))
    ensures Ends(read, futureIds, ends)
  {
    var past: nat := 0;
    futureIds, ends := [], map[];
    var startId: int := last;
    ghost var p: nat := 0;
    ghost var stop := StopPoint(read, currentEpoch, last, READ_BATCH, 0);
    while startId >= 1
      invariant p == Min(last - startId, last) && startId <= last
      invariant Tallied(read, currentEpoch, last, p, futureIds, ends, past)
      invariant stop == StopPoint(read, currentEpoch, last, READ_BATCH, p)
    {
      var ids := DescendingIds(startId, last);
      var words := ReadEach(read, ids);
      futureIds, ends, past := TallyBatch(ids, words, currentEpoch, futureIds, ends, past, read, last, p);
      p := p + |ids|;
      if past >= STOP_AFTER { break; }
      startId := startId - READ_BATCH;
    }
  }

  ghost predicate Grouped(groups: seq<seq<int>>, last: nat, p: nat, ids: int) {
    && p <= last
    && (forall b :: 0 <= b < |groups| ==>
          p + b * READ_BATCH < last &&
          groups[b] == Visited(last, p + b * READ_BATCH, Min(p + b * READ_BATCH + READ_BATCH, last)))
    && ids == Min(p + |groups| * READ_BATCH, last) - p
  }

  /** Lines 264 to 275: up to four batches of ids below the cursor. */
  method GroupIds(cursor: int, ghost last: nat) returns (groups: seq<seq<int>>)
    requires 1 <= cursor <= last
    ensures Grouped(groups, last, last - cursor, Min(PARALLEL_BATCHES * READ_BATCH, cursor))
  {
    groups := [];
    var b := 0;
    while b < PARALLEL_BATCHES
      invariant 0 <= b <= PARALLEL_BATCHES && b == |groups|
      invariant Grouped(groups, last, last - cursor, Min(b * READ_BATCH, cursor))
    {
      var startId := cursor - b * READ_BATCH;
      if startId < 1 { return; }
      var ids := DescendingIds(startId, last);
      groups := groups + [ids];
      b := b + 1;
    }
  }

  function EndEpochCalls(ids: seq<int>): seq<Call> {
    seq(|ids|, i requires 0 <= i < |ids| => Call(EndEpoch, ids[i]))
  }

  ghost predicate GroupFails(network: (seq<Call>, nat) -> Attempt, group: seq<int>) {
    GaveUp(network, EndEpochCalls(group))
  }

  /** Line 277: one batch per group, all or nothing. */
  method ReadGroups(network: (seq<Call>, nat) -> Attempt, groups: seq<seq<int>>, ghost read: Call -> nat)
    returns (results: Option<seq<seq<nat>>>)
    requires Honest(network, read)
    ensures results.Some? ==>
              && |results.value| == |groups|
              && forall b :: 0 <= b < |groups| ==> Matches(read, groups[b], results.value[b])
    ensures results.None? <==> exists b :: 0 <= b < |groups| && GroupFails(network, groups[b])
  {
    var all: seq<seq<nat>> := [];
    for b := 0 to |groups|
      invariant |all| == b
      invariant forall c :: 0 <= c < b ==> Matches(read, groups[c], all[c]) && !GroupFails(network, groups[c])
    {
      var calls := EndEpochCalls(groups[b]);
      var words := RpcBatch(network, calls, read);
      assert words.None? <==> GroupFails(network, groups[b]);
      if words.None? { return None; }
      all := all + [seq(|calls|, i requires 0 <= i < |calls| => words.value[i].value)];
      assert Matches(read, groups[b], all[b]);
    }
    return Some(all);
  }

  /** Lines 279 to 292: the groups of one round, in order. */
  method TallyGroups(groups: seq<seq<int>>, results: seq<seq<nat>>, currentEpoch: int,
                     futureIds0: seq<int>, ends0: map<int, nat>, past0: nat,
                     ghost read: Call -> nat, ghost last: nat, ghost p: nat, ghost size: nat)
    returns (futureIds: seq<int>, ends: map<int, nat>, past: nat)
    requires Grouped(groups, last, p, size)
    requires |results| == |groups| && forall b :: 0 <= b < |groups| ==> Matches(read, groups[b], results[b])
    requires Tallied(read, currentEpoch, last, p, futureIds0, ends0, past0)
    ensures Tallied(read, currentEpoch, last, p + size, futureIds, ends, past)
  {
    futureIds, ends, past := futureIds0, ends0, past0;
    ghost var q := p;
    for b := 0 to |results|
      invariant q == Min(p + b * READ_BATCH, last)
      invariant Tallied(read, currentEpoch, last, q, futureIds, ends, past)
    {
      assert |groups[b]| == Min(p + b * READ_BATCH + READ_BATCH, last) - q;
      futureIds, ends, past := TallyBatch(groups[b], results[b], currentEpoch, futureIds, ends, past, read, last, q);
      q := q + |groups[b]|;
    }
  }

  /** The k-th batch of ids fails for good. */
  ghost predicate ScanBatchFails(network: (seq<Call>, nat) -> Attempt, last: nat, k: nat) {
    k * READ_BATCH < last && GroupFails(network, Visited(last, k * READ_BATCH, Min(k * READ_BATCH + READ_BATCH, last)))
  }

  ghost predicate NoneFailsBefore(network: (seq<Call>, nat) -> Attempt, last: nat, p: nat) {
    forall k: nat :: k * READ_BATCH < p ==> !ScanBatchFails(network, last, k)
  }

  /** The round's groups are the batches from 4 * round on. */
  lemma RoundFails(network: (seq<Call>, nat) -> Attempt, groups: seq<seq<int>>, last: nat, round: nat, size: nat)
    requires Grouped(groups, last, round * PARALLEL_BATCHES * READ_BATCH, size)
    requires NoneFailsBefore(network, last, round * PARALLEL_BATCHES * READ_BATCH)
    requires forall b :: 0 <= b < |groups| ==> !GroupFails(network, groups[b])
    ensures NoneFailsBefore(network, last, round * PARALLEL_BATCHES * READ_BATCH + size)
  {
    var p := round * PARALLEL_BATCHES * READ_BATCH;
    forall k: nat | p <= k * READ_BATCH < p + size ensures !ScanBatchFails(network, last, k) {
      var b := k - round * PARALLEL_BATCHES;
      assert 0 <= b < |groups|;
      assert groups[b] == Visited(last, k * READ_BATCH, Min(k * READ_BATCH + READ_BATCH, last));
    }
  }

  /** A batch that the scan sends before it stops fails for good. */
  ghost predicate ScanFails(network: (seq<Call>, nat) -> Attempt, last: nat, stop: nat) {
    exists k: nat :: k * READ_BATCH < stop && ScanBatchFails(network, last, k)
  }

  lemma ScanSucceeds(network: (seq<Call>, nat) -> Attempt, last: nat, stop: nat)
    requires NoneFailsBefore(network, last, stop)
    ensures !ScanFails(network, last, stop)
  {
  }

  /** A round that fails was sent before the scan may stop. */
  lemma RoundIsSent(network: (seq<Call>, nat) -> Attempt, groups: seq<seq<int>>, read: Call -> nat, currentEpoch: int,
                    last: nat, round: nat, size: nat, b: nat)
    requires b < |groups| && GroupFails(network, groups[b])
    requires var p := round * PARALLEL_BATCHES * READ_BATCH;
             p < last && size == Min(PARALLEL_BATCHES * READ_BATCH, last - p) && Grouped(groups, last, p, size)
    ensures ScanFails(network, last, StopPoint(read, currentEpoch, last, PARALLEL_BATCHES * READ_BATCH,
                                               round * PARALLEL_BATCHES * READ_BATCH))
  {
    var k := round * PARALLEL_BATCHES + b;
    assert k * READ_BATCH == round * PARALLEL_BATCHES * READ_BATCH + b * READ_BATCH;
    assert groups[b] == Visited(last, k * READ_BATCH, Min(k * READ_BATCH + READ_BATCH, last));
    assert ScanBatchFails(network, last, k);
    var _ := StopPointStops(read, currentEpoch, last, PARALLEL_BATCHES * READ_BATCH,
                            round * PARALLEL_BATCHES * READ_BATCH + size);
  }

  /** The cursor after a number of full rounds, and how many ids they have read. */
  ghost predicate AfterRounds(last: nat, round: nat, cursor: int, p: nat) {
    cursor == last - round * PARALLEL_BATCHES * READ_BATCH && p == Min(last - cursor, last)
  }

  /** Where the scan will stop, as seen after its first p ids. */
  ghost predicate StopsAt(read: Call -> nat, currentEpoch: int, last: nat, p: nat, past: nat, stop: nat) {
    stop == if past < STOP_AFTER then StopPoint(read, currentEpoch, last, PARALLEL_BATCHES * READ_BATCH, p) else p
  }

  lemma StopsAtStep(read: Call -> nat, currentEpoch: int, last: nat, round: nat, cursor: int, p: nat, stop: nat, past: nat, size: nat)
    requires AfterRounds(last, round, cursor, p) && cursor >= 1 && size == Min(PARALLEL_BATCHES * READ_BATCH, cursor)
    requires stop == StopPoint(read, currentEpoch, last, PARALLEL_BATCHES * READ_BATCH, p)
    requires past == PastRun(read, currentEpoch, last, p + size)
    ensures AfterRounds(last, round + 1, cursor - PARALLEL_BATCHES * READ_BATCH, p + size)
    ensures StopsAt(read, currentEpoch, last, p + size, past, stop)
  {
  }

  /** Lines 260 to 292: one round of up to four batches. */
  method ScanRound(network: (seq<Call>, nat) -> Attempt, cursor: int, currentEpoch: int,
                   futureIds0: seq<int>, ends0: map<int, nat>, past0: nat,
                   ghost read: Call -> nat, ghost last: nat, ghost round: nat, ghost p: nat, ghost size: nat)
    returns (ok: bool, futureIds: seq<int>, ends: map<int, nat>, past: nat)
    requires Honest(network, read) && 1 <= cursor <= last && AfterRounds(last, round, cursor, p)
    requires size == Min(PARALLEL_BATCHES * READ_BATCH, cursor)
    requires Tallied(read, currentEpoch, last, p, futureIds0, ends0, past0) && NoneFailsBefore(network, last, p)
    ensures ok ==> Tallied(read, currentEpoch, last, p + size, futureIds, ends, past)
    ensures ok ==> NoneFailsBefore(network, last, p + size)
    ensures !ok ==> ScanFails(network, last, StopPoint(read, currentEpoch, last, PARALLEL_BATCHES * READ_BATCH, p))
  {
    var groups := GroupIds(cursor, last);
    var results := ReadGroups(network, groups, read);
    if results.None? {
      ghost var b :| 0 <= b < |groups| && GroupFails(network, groups[b]);
      RoundIsSent(network, groups, read, currentEpoch, last, round, size, b);
      return false, futureIds0, ends0, past0;
    }
    RoundFails(network, groups, last, round, size);
    futureIds, ends, past := TallyGroups(groups, results.value, currentEpoch, futureIds0, ends0, past0, read, last, p, size);
    ok := true;
  }

  /** Lines 253 to 304 of the batched script. None: a batch failed three times and the script gives up. */
  method FastScan(network: (seq<Call>, nat) -> Attempt, currentEpoch: int, last: nat, ghost read: Call -> nat)
    returns (r: Option<seq<int>>, ends: map<int, nat>)
    requires Honest(network, read)
    ensures r.Some? ==>
              && r.value == FutureIds(read, currentEpoch, last,
                                      StopPoint(read, currentEpoch, last, PARALLEL_BATCHES * READ_BATCH, 0))
              && Ends(read, r.value, ends)
    ensures r.None? <==>
            ScanFails(network, last, StopPoint(read, currentEpoch, last, PARALLEL_BATCHES * READ_BATCH, 0))
  {
    var futureIds: seq<int>, past: nat, ok := [], 0, true;
    ends := map[];
    var cursor: int := last;
    ghost var p: nat, round: nat := 0, 0;
    ghost var stop := StopPoint(read, currentEpoch, last, PARALLEL_BATCHES * READ_BATCH, 0);
    while cursor >= 1 && past < STOP_AFTER
      invariant AfterRounds(last, round, cursor, p)
      invariant Tallied(read, currentEpoch, last, p, futureIds, ends, past)
      invariant StopsAt(read, currentEpoch, last, p, past, stop)
      invariant NoneFailsBefore(network, last, p)
      decreases cursor
    {
      ghost var size := Min(PARALLEL_BATCHES * READ_BATCH, cursor);
      ok, futureIds, ends, past := ScanRound(network, cursor, currentEpoch, futureIds, ends, past, read, last, round, p, size);
      if !ok { return None, ends; }
      StopsAtStep(read, currentEpoch, last, round, cursor, p, stop, past, size);
      cursor := cursor - PARALLEL_BATCHES * READ_BATCH;
      p, round := p + size, round + 1;
    }
    ScanSucceeds(network, last, stop);
    return Some(futureIds), ends;
  }

  // ----- detail reads

  function Detail(read: Call -> nat, address: nat -> Address, id: int): FutureKc {
    FutureKc(id, read(Call(StartEpoch, id)), read(Call(EndEpoch, id)), read(Call(TokenAmount, id)),
             address(read(Call(Publisher, id))))
  }

  /** Of the first n ids, the collections that lock tokens and have a publisher, in order. */
  function Details(read: Call -> nat, address: nat -> Address, ids: seq<int>, n: nat): seq<FutureKc>
    requires n <= |ids|
  {
    if n == 0 then []
    else
      var front, kc := Details(read, address, ids, n - 1), Detail(read, address, ids[n - 1]);
      if kc.tokenAmount == 0 || kc.publisher == ZERO_ADDRESS then front else front + [kc]
  }

  /** The collection that the contract holds under its own id, when it is refundable. */
  ghost predicate Locks(read: Call -> nat, address: nat -> Address, kc: FutureKc) {
    && kc.startEpoch == read(Call(StartEpoch, kc.id)) && kc.endEpoch == read(Call(EndEpoch, kc.id))
    && kc.tokenAmount == read(Call(TokenAmount, kc.id)) && kc.publisher == address(read(Call(Publisher, kc.id)))
    && kc.tokenAmount != 0 && kc.publisher != ZERO_ADDRESS
  }

  ghost predicate Descending(ids: seq<int>) { forall i, j :: 0 <= i < j < |ids| ==> ids[i] > ids[j] }

  ghost predicate DescendingKcs(kcs: seq<FutureKc>) { forall i, j :: 0 <= i < j < |kcs| ==> kcs[i].id > kcs[j].id }

  /** A collection is listed exactly when its id is and it locks tokens for a publisher; the order is that of the ids. */
  lemma {:induction false} DetailsMeaning(read: Call -> nat, address: nat -> Address, ids: seq<int>, n: nat)
    requires n <= |ids|
    ensures var kcs := Details(read, address, ids, n);
            && (forall kc :: kc in kcs <==> kc.id in ids[..n] && Locks(read, address, kc))
            && (Descending(ids) ==> DescendingKcs(kcs))
  {
    if n > 0 {
      DetailsMeaning(read, address, ids, n - 1);
      var front, kc := Details(read, address, ids, n - 1), Detail(read, address, ids[n - 1]);
      assert ids[..n] == ids[..n - 1] + [ids[n - 1]];
      forall i | 0 <= i < |front| && Descending(ids) ensures front[i].id > kc.id {
        assert front[i] in front;
        var j :| 0 <= j < n - 1 && ids[j] == front[i].id;
      }
    }
  }

  /** The words read for a batch, one of each view per id. */
  datatype Columns = Columns(starts: seq<nat>, tokens: seq<nat>, pubs: seq<nat>)

  ghost predicate ColumnsOf(read: Call -> nat, batch: seq<int>, c: Columns) {
    && |c.starts| == |c.tokens| == |c.pubs| == |batch|
    && forall j :: 0 <= j < |batch| ==>
         && c.starts[j] == read(Call(StartEpoch, batch[j]))
         && c.tokens[j] == read(Call(TokenAmount, batch[j]))
         && c.pubs[j] == read(Call(Publisher, batch[j]))
  }

  ghost predicate SliceOf(ids: seq<int>, lo: nat, batch: seq<int>) {
    && lo + |batch| <= |ids|
    && forall j :: 0 <= j < |batch| ==> batch[j] == ids[lo + j]
  }

  /** Lines 362 to 373 of the simple script and 340 to 354 of the batched one. */
  method AppendDetails(batch: seq<int>, c: Columns, ends: map<int, nat>, address: nat -> Address, kcs0: seq<FutureKc>,
                       ghost read: Call -> nat, ghost ids: seq<int>, ghost lo: nat)
    returns (kcs: seq<FutureKc>)
    requires SliceOf(ids, lo, batch) && ColumnsOf(read, batch, c) && Ends(read, ids, ends)
    requires kcs0 == Details(read, address, ids, lo)
    ensures kcs == Details(read, address, ids, lo + |batch|)
  {
    kcs := kcs0;
    for j := 0 to |batch|
      invariant kcs == Details(read, address, ids, lo + j)
    {
      assert batch[j] == ids[lo + j] && ids[lo + j] in Elements(ids);
      var publisher := address(c.pubs[j]);
      if c.tokens[j] != 0 && publisher != ZERO_ADDRESS {
        kcs := kcs + [FutureKc(batch[j], c.starts[j], ends[batch[j]], c.tokens[j], publisher)];
      }
    }
  }

  function ReadColumns(read: Call -> nat, batch: seq<int>): (c: Columns)
    ensures ColumnsOf(read, batch, c)
  {
    Columns(seq(|batch|, j requires 0 <= j < |batch| => read(Call(StartEpoch, batch[j]))),
            seq(|batch|, j requires 0 <= j < |batch| => read(Call(TokenAmount, batch[j]))),
            seq(|batch|, j requires 0 <= j < |batch| => read(Call(Publisher, batch[j]))))
  }

  /** Lines 349 to 382 of the simple script. */
  method SimpleDetails(read: Call -> nat, address: nat -> Address, ids: seq<int>, ends: map<int, nat>)
    returns (kcs: seq<FutureKc>)
    requires Ends(read, ids, ends)
    ensures kcs == Details(read, address, ids, |ids|)
  {
    kcs := [];
    var i := 0;
    while i < |ids|
      invariant 0 <= i
      invariant kcs == Details(read, address, ids, Min(i, |ids|))
    {
      var batch := ids[i..Min(i + DETAIL_BATCH, |ids|)];
      kcs := AppendDetails(batch, ReadColumns(read, batch), ends, address, kcs, read, ids, i);
      i := i + DETAIL_BATCH;
    }
  }

  /** Three calls per id, as lines 326 to 330 of the batched script queue them. */
  function DetailCalls(ids: seq<int>): (calls: seq<Call>)
    ensures |calls| == 3 * |ids|
    ensures forall j :: 0 <= j < |ids| ==>
              && calls[j * 3] == Call(StartEpoch, ids[j])
              && calls[j * 3 + 1] == Call(TokenAmount, ids[j])
              && calls[j * 3 + 2] == Call(Publisher, ids[j])
  {
    if ids == [] then []
    else
      var id := ids[|ids| - 1];
      DetailCalls(ids[..|ids| - 1]) + [Call(StartEpoch, id), Call(TokenAmount, id), Call(Publisher, id)]
  }

  /** Lines 341 to 343: the words of the j-th id are those at 3j, 3j + 1 and 3j + 2. */
  function Unpack(ghost read: Call -> nat, batch: seq<int>, words: seq<Option<nat>>): (c: Columns)
    requires words == Words(read, DetailCalls(batch))
    ensures ColumnsOf(read, batch, c)
  {
    Columns(seq(|batch|, j requires 0 <= j < |batch| => words[j * 3].value),
            seq(|batch|, j requires 0 <= j < |batch| => words[j * 3 + 1].value),
            seq(|batch|, j requires 0 <= j < |batch| => words[j * 3 + 2].value))
  }

  /** The batch of ids from `lo` on, with its words. */
  ghost predicate BatchAt(read: Call -> nat, ids: seq<int>, lo: nat, batch: seq<int>, c: Columns) {
    && SliceOf(ids, lo, batch)
    && lo + |batch| == Min(lo + DETAIL_BATCH, |ids|)
    && ColumnsOf(read, batch, c)
  }

  ghost predicate BatchFails(network: (seq<Call>, nat) -> Attempt, ids: seq<int>, lo: nat) {
    lo < |ids| && GaveUp(network, DetailCalls(ids[lo..Min(lo + DETAIL_BATCH, |ids|)]))
  }

  /** The b-th batch of detail calls from `i` on fails for good. */
  ghost predicate DetailBatchFails(network: (seq<Call>, nat) -> Attempt, ids: seq<int>, i: nat, b: nat) {
    BatchFails(network, ids, i + b * DETAIL_BATCH)
  }

  method ReadBatch(network: (seq<Call>, nat) -> Attempt, ids: seq<int>, lo: nat, ghost read: Call -> nat)
    returns (batch: seq<int>, c: Option<Columns>)
    requires Honest(network, read) && lo < |ids|
    ensures c.Some? ==> BatchAt(read, ids, lo, batch, c.value)
    ensures c.None? <==> BatchFails(network, ids, lo)
  {
    batch := ids[lo..Min(lo + DETAIL_BATCH, |ids|)];
    var words := RpcBatch(network, DetailCalls(batch), read);
    if words.None? { return batch, None; }
    c := Some(Unpack(read, batch, words.value));
  }

  ghost predicate Batches(read: Call -> nat, ids: seq<int>, i: nat, batches: seq<seq<int>>, columns: seq<Columns>) {
    && |batches| == |columns| <= PARALLEL_BATCHES
    && forall b :: 0 <= b < |batches| ==> BatchAt(read, ids, i + b * DETAIL_BATCH, batches[b], columns[b])
  }

  lemma BatchesGrow(read: Call -> nat, ids: seq<int>, i: nat, batches: seq<seq<int>>, columns: seq<Columns>,
                    batch: seq<int>, c: Columns)
    requires Batches(read, ids, i, batches, columns) && |batches| < PARALLEL_BATCHES
    requires BatchAt(read, ids, i + |batches| * DETAIL_BATCH, batch, c)
    ensures Batches(read, ids, i, batches + [batch], columns + [c])
  {
  }

  ghost predicate RoundGoesWell(network: (seq<Call>, nat) -> Attempt, ids: seq<int>, i: nat, n: nat) {
    forall b: nat :: b < n ==> !DetailBatchFails(network, ids, i, b)
  }

  lemma RoundGrows(network: (seq<Call>, nat) -> Attempt, ids: seq<int>, i: nat, n: nat)
    requires RoundGoesWell(network, ids, i, n) && !DetailBatchFails(network, ids, i, n)
    ensures RoundGoesWell(network, ids, i, n + 1)
  {
  }

  /** Lines 321 to 335: the up to four batches of a round. */
  method ReadRound(network: (seq<Call>, nat) -> Attempt, ids: seq<int>, i: nat, ghost read: Call -> nat)
    returns (batches: seq<seq<int>>, columns: Option<seq<Columns>>)
    requires Honest(network, read) && i < |ids|
    ensures columns.Some? ==> Batches(read, ids, i, batches, columns.value)
    ensures columns.Some? ==> |batches| == PARALLEL_BATCHES || |ids| <= i + |batches| * DETAIL_BATCH
    ensures columns.Some? ==> RoundGoesWell(network, ids, i, |batches|)
    ensures columns.None? ==> exists b: nat :: b < PARALLEL_BATCHES && DetailBatchFails(network, ids, i, b)
  {
    batches := [];
    var all: seq<Columns> := [];
    while |batches| < PARALLEL_BATCHES && i + |batches| * DETAIL_BATCH < |ids|
      invariant Batches(read, ids, i, batches, all)
      invariant RoundGoesWell(network, ids, i, |batches|)
    {
      var batch, c := ReadBatch(network, ids, i + |batches| * DETAIL_BATCH, read);
      assert c.None? <==> DetailBatchFails(network, ids, i, |batches|);
      if c.None? { return batches, None; }
      BatchesGrow(read, ids, i, batches, all, batch, c.value);
      RoundGrows(network, ids, i, |batches|);
      batches, all := batches + [batch], all + [c.value];
    }
    columns := Some(all);
  }

  /** Lines 337 to 355: the batches of a round, in order. */
  method AppendRound(batches: seq<seq<int>>, columns: seq<Columns>, ends: map<int, nat>, address: nat -> Address,
                     kcs0: seq<FutureKc>, ghost read: Call -> nat, ghost ids: seq<int>, ghost i: nat)
    returns (kcs: seq<FutureKc>)
    requires i < |ids| && Batches(read, ids, i, batches, columns) && Ends(read, ids, ends)
    requires kcs0 == Details(read, address, ids, i)
    ensures kcs == Details(read, address, ids, Min(i + |batches| * DETAIL_BATCH, |ids|))
  {
    kcs := kcs0;
    ghost var done := i;
    for b := 0 to |batches|
      invariant done == Min(i + b * DETAIL_BATCH, |ids|)
      invariant kcs == Details(read, address, ids, done)
    {
      assert BatchAt(read, ids, i + b * DETAIL_BATCH, batches[b], columns[b]);
      kcs := AppendDetails(batches[b], columns[b], ends, address, kcs, read, ids, done);
      done := done + |batches[b]|;
    }
  }

  /** Some batch of detail calls fails for good. */
  ghost predicate DetailsFail(network: (seq<Call>, nat) -> Attempt, ids: seq<int>) {
    exists k: nat :: DetailBatchFails(network, ids, 0, k)
  }

  /** No batch of the first rounds fails. */
  ghost predicate RoundsGoWell(network: (seq<Call>, nat) -> Attempt, ids: seq<int>, rounds: nat) {
    forall k: nat :: k < rounds * PARALLEL_BATCHES ==> !DetailBatchFails(network, ids, 0, k)
  }

  ghost predicate RoundStarts(i: nat, round: nat) { i == round * PARALLEL_BATCHES * DETAIL_BATCH }

  lemma SameBatch(network: (seq<Call>, nat) -> Attempt, ids: seq<int>, i: nat, round: nat, b: nat)
    requires RoundStarts(i, round)
    ensures DetailBatchFails(network, ids, i, b) <==> DetailBatchFails(network, ids, 0, round * PARALLEL_BATCHES + b)
  {
    assert (round * PARALLEL_BATCHES + b) * DETAIL_BATCH == i + b * DETAIL_BATCH;
  }

  lemma NoBatchBeyond(network: (seq<Call>, nat) -> Attempt, ids: seq<int>, i: nat, n: nat, b: nat)
    requires |ids| <= i + n * DETAIL_BATCH && b >= n
    ensures !DetailBatchFails(network, ids, i, b)
  {
    assert b * DETAIL_BATCH >= n * DETAIL_BATCH;
  }

  lemma DetailsSucceed(network: (seq<Call>, nat) -> Attempt, ids: seq<int>, i: nat, rounds: nat)
    requires RoundsGoWell(network, ids, rounds) && RoundStarts(i, rounds) && |ids| <= i
    ensures !DetailsFail(network, ids)
  {
    forall k: nat ensures !DetailBatchFails(network, ids, 0, k) {
      if k >= rounds * PARALLEL_BATCHES { NoBatchBeyond(network, ids, 0, rounds * PARALLEL_BATCHES, k); }
    }
  }

  lemma RoundGoesWellToo(network: (seq<Call>, nat) -> Attempt, ids: seq<int>, i: nat, round: nat, n: nat)
    requires RoundStarts(i, round) && RoundsGoWell(network, ids, round) && RoundGoesWell(network, ids, i, n)
    requires n == PARALLEL_BATCHES || |ids| <= i + n * DETAIL_BATCH
    ensures RoundsGoWell(network, ids, round + 1) && RoundStarts(i + PARALLEL_BATCHES * DETAIL_BATCH, round + 1)
  {
    forall k: nat | round * PARALLEL_BATCHES <= k < (round + 1) * PARALLEL_BATCHES
      ensures !DetailBatchFails(network, ids, 0, k)
    {
      var b := k - round * PARALLEL_BATCHES;
      SameBatch(network, ids, i, round, b);
      if b >= n { NoBatchBeyond(network, ids, i, n, b); }
    }
  }

  /** Lines 318 to 355: one round of up to four batches. */
  method DetailRound(network: (seq<Call>, nat) -> Attempt, address: nat -> Address, ids: seq<int>, i: nat, ends: map<int, nat>,
                     kcs0: seq<FutureKc>, ghost read: Call -> nat, ghost round: nat)
    returns (ok: bool, kcs: seq<FutureKc>)
    requires Honest(network, read) && Ends(read, ids, ends) && i < |ids|
    requires RoundStarts(i, round) && RoundsGoWell(network, ids, round) && kcs0 == Details(read, address, ids, i)
    ensures ok ==> kcs == Details(read, address, ids, Min(i + PARALLEL_BATCHES * DETAIL_BATCH, |ids|))
    ensures ok ==> RoundsGoWell(network, ids, round + 1) && RoundStarts(i + PARALLEL_BATCHES * DETAIL_BATCH, round + 1)
    ensures !ok ==> DetailsFail(network, ids)
  {
    var batches, columns := ReadRound(network, ids, i, read);
    if columns.None? {
      ghost var b: nat :| b < PARALLEL_BATCHES && DetailBatchFails(network, ids, i, b);
      SameBatch(network, ids, i, round, b);
      return false, kcs0;
    }
    RoundGoesWellToo(network, ids, i, round, |batches|);
    kcs := AppendRound(batches, columns.value, ends, address, kcs0, read, ids, i);
    ok := true;
  }

  /** Lines 311 to 365 of the batched script. */
  method FastDetails(network: (seq<Call>, nat) -> Attempt, address: nat -> Address, ids: seq<int>, ends: map<int, nat>,
                     ghost read: Call -> nat)
    returns (r: Option<seq<FutureKc>>)
    requires Honest(network, read) && Ends(read, ids, ends)
    ensures r.Some? ==> r.value == Details(read, address, ids, |ids|)
    ensures r.None? <==> DetailsFail(network, ids)
  {
    var kcs: seq<FutureKc> := [];
    var i := 0;
    ghost var round: nat := 0;
    while i < |ids|
      invariant 0 <= i && RoundStarts(i, round)
      invariant kcs == Details(read, address, ids, Min(i, |ids|))
      invariant RoundsGoWell(network, ids, round)
    {
      var ok;
      ok, kcs := DetailRound(network, address, ids, i, ends, kcs, read, round);
      if !ok { return None; }
      i := i + PARALLEL_BATCHES * DETAIL_BATCH;
      round := round + 1;
    }
    DetailsSucceed(network, ids, i, round);
    return Some(kcs);
  }

  // ----- the whole phase

  /** The list holds exactly the refundable collections with ids from `low` to `last`, from the last one down. */
  ghost predicate Discovers(kcs: seq<FutureKc>, read: Call -> nat, address: nat -> Address, currentEpoch: int, low: int, last: int) {
    && DescendingKcs(kcs)
    && (forall kc :: kc in kcs <==> low <= kc.id <= last && kc.endEpoch > currentEpoch && Locks(read, address, kc))
  }

  lemma DiscoveredFrom(kcs: seq<FutureKc>, read: Call -> nat, address: nat -> Address, currentEpoch: int, last: nat, p: nat)
    requires var ids := FutureIds(read, currentEpoch, last, p); kcs == Details(read, address, ids, |ids|)
    ensures Discovers(kcs, read, address, currentEpoch, last - p + 1, last)
  {
    var ids := FutureIds(read, currentEpoch, last, p);
    FutureIdsMeaning(read, currentEpoch, last, p);
    DetailsMeaning(read, address, ids, |ids|);
    assert ids[..|ids|] == ids;
  }

  /** A collection that is still to be refunded. */
  ghost predicate Refundable(read: Call -> nat, address: nat -> Address, currentEpoch: int, id: int) {
    read(Call(EndEpoch, id)) > currentEpoch && read(Call(TokenAmount, id)) != 0 && address(read(Call(Publisher, id))) != ZERO_ADDRESS
  }

  /**
   * What a phase finds down to its stopping point, and that this is everything exactly when no
   * refundable collection lies below that point.
   */
  ghost predicate Found(kcs: seq<FutureKc>, read: Call -> nat, address: nat -> Address, currentEpoch: int, last: nat, batch: nat)
    requires batch > 0
  {
    var stop := StopPoint(read, currentEpoch, last, batch, 0);
    && Discovers(kcs, read, address, currentEpoch, last - stop + 1, last)
    && (Discovers(kcs, read, address, currentEpoch, 1, last) <==>
          forall id :: 1 <= id <= last - stop ==> !Refundable(read, address, currentEpoch, id))
    && ((forall k: nat :: !HidesFuture(read, currentEpoch, last, batch, k)) ==>
          Discovers(kcs, read, address, currentEpoch, 1, last))
  }

  lemma NothingHidden(read: Call -> nat, currentEpoch: int, last: nat, batch: nat, id: int)
    requires batch > 0 && forall k: nat :: !HidesFuture(read, currentEpoch, last, batch, k)
    requires 1 <= id <= last - StopPoint(read, currentEpoch, last, batch, 0)
    ensures !Future(read, currentEpoch, id)
  {
    ScanIsCompleteIff(read, currentEpoch, last, batch);
    FutureIdsMeaning(read, currentEpoch, last, StopPoint(read, currentEpoch, last, batch, 0));
    FutureIdsMeaning(read, currentEpoch, last, last);
  }

  /** A list that is exact from `high` on is exact from `low` on when nothing refundable lies between, and only then. */
  lemma DiscoversBelowIff(kcs: seq<FutureKc>, read: Call -> nat, address: nat -> Address, currentEpoch: int,
                          low: int, high: int, last: int)
    requires low <= high && Discovers(kcs, read, address, currentEpoch, high, last)
    ensures Discovers(kcs, read, address, currentEpoch, low, last) <==>
            forall id :: low <= id < high && id <= last ==> !Refundable(read, address, currentEpoch, id)
  {
    forall id | low <= id < high && id <= last && Refundable(read, address, currentEpoch, id)
      ensures !Discovers(kcs, read, address, currentEpoch, low, last)
    {
      var kc := Detail(read, address, id);
      assert kc.id == id && kc !in kcs;
    }
    if forall id :: low <= id < high && id <= last ==> !Refundable(read, address, currentEpoch, id) {
      forall kc ensures kc in kcs <==>
          low <= kc.id <= last && Future(read, currentEpoch, kc.id) && Locks(read, address, kc)
      {
        if low <= kc.id < high && kc.id <= last { assert !Refundable(read, address, currentEpoch, kc.id); }
      }
    }
  }

  lemma PhaseFinds(kcs: seq<FutureKc>, read: Call -> nat, address: nat -> Address, currentEpoch: int, last: nat, batch: nat)
    requires batch > 0
    requires var ids := FutureIds(read, currentEpoch, last, StopPoint(read, currentEpoch, last, batch, 0));
             kcs == Details(read, address, ids, |ids|)
    ensures Found(kcs, read, address, currentEpoch, last, batch)
  {
    var stop := StopPoint(read, currentEpoch, last, batch, 0);
    var _ := StopPointStops(read, currentEpoch, last, batch, 0);
    DiscoveredFrom(kcs, read, address, currentEpoch, last, stop);
    DiscoversBelowIff(kcs, read, address, currentEpoch, 1, last - stop + 1, last);
    if forall k: nat :: !HidesFuture(read, currentEpoch, last, batch, k) {
      forall id | 1 <= id <= last - stop ensures !Refundable(read, address, currentEpoch, id) {
        NothingHidden(read, currentEpoch, last, batch, id);
      }
    }
  }

  /** The direct path of the simple script as a whole. */
  method DiscoverByReads(read: Call -> nat, address: nat -> Address, currentEpoch: int, last: nat)
    returns (kcs: seq<FutureKc>)
    ensures Found(kcs, read, address, currentEpoch, last, READ_BATCH)
  {
    var ids, ends := SimpleScan(read, currentEpoch, last);
    kcs := SimpleDetails(read, address, ids, ends);
    PhaseFinds(kcs, read, address, currentEpoch, last, READ_BATCH);
  }

  /** The direct path of the batched script as a whole. */
  method DiscoverByBatches(network: (seq<Call>, nat) -> Attempt, address: nat -> Address, currentEpoch: int, last: nat,
                           ghost read: Call -> nat)
    returns (r: Option<seq<FutureKc>>)
    requires Honest(network, read)
    ensures r.Some? ==> Found(r.value, read, address, currentEpoch, last, PARALLEL_BATCHES * READ_BATCH)
    ensures r.None? <==>
            var stop := StopPoint(read, currentEpoch, last, PARALLEL_BATCHES * READ_BATCH, 0);
            ScanFails(network, last, stop) || DetailsFail(network, FutureIds(read, currentEpoch, last, stop))
  {
    var ids, ends := FastScan(network, currentEpoch, last, read);
    if ids.None? { return None; }
    r := FastDetails(network, address, ids.value, ends, read);
    if r.Some? { PhaseFinds(r.value, read, address, currentEpoch, last, PARALLEL_BATCHES * READ_BATCH); }
  }
}
