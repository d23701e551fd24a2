/**
 * Phase 1 of the publisher refund snapshot: the adaptive `eth_getLogs` scanner
 * and the Created/Minted join.
 *
 * The node behind each provider is the environment. `chain(b)` is the list of
 * contract logs of block b, and a script of answers says how each log query
 * ends; every finite run of the scanner is the run on some script.
 */
module LogScanner {
  import opened Sequences
  import opened Numbers
  import opened InsertionMap
  import opened Refunds

  const INITIAL_LOG_RANGE := 2500
  const MIN_LOG_RANGE := 50
  const SWITCH_PROVIDER_BELOW := 500

  datatype Log =
    | Created(id: int, startEpoch: int, endEpoch: int, tokenAmount: nat)
    | Minted(id: int, publisher: Address)
    | Unparsed  // a Created topic whose payload does not parse

  /** How one log query ends, its three tries included. */
  datatype Answer = Served | RangeTooLarge | OtherError

  datatype KcData = KcData(startEpoch: int, endEpoch: int, tokenAmount: nat)
  datatype Found = Found(data: Dict<int, KcData>, publishers: Dict<int, Address>)
  datatype Config = Config(deployBlock: int, blockNumber: int, currentEpoch: int, providers: nat)
  datatype Range = Range(first: int, last: int)
  datatype Scan = Scan(cursor: int, rangeSize: int, rpcIdx: nat, served: seq<Range>, found: Found)
  datatype Outcome = Done | Failed | Unfinished

  // ----- the logs and what they say

  function LogsBetween(chain: int -> seq<Log>, first: int, last: int): seq<Log>
    decreases last - first
  {
    if last < first then [] else LogsBetween(chain, first, last - 1) + chain(last)
  }

  lemma {:induction false} LogsJoin(chain: int -> seq<Log>, a: int, b: int, c: int)
    requires a <= b + 1 <= c + 1
    ensures LogsBetween(chain, a, b) + LogsBetween(chain, b + 1, c) == LogsBetween(chain, a, c)
    decreases c - b
  {
    if b == c {
      assert LogsBetween(chain, b + 1, c) == [];
    } else {
      LogsJoin(chain, a, b, c - 1);
      assert LogsBetween(chain, a, b) + (LogsBetween(chain, b + 1, c - 1) + chain(c))
          == (LogsBetween(chain, a, b) + LogsBetween(chain, b + 1, c - 1)) + chain(c);
    }
  }

  predicate IsFutureCreated(log: Log, id: int, currentEpoch: int) {
    log.Created? && log.id == id && log.endEpoch > currentEpoch
  }

  predicate IsMinted(log: Log, id: int) {
    log.Minted? && log.id == id
  }

  ghost predicate LastFutureCreated(logs: seq<Log>, id: int, currentEpoch: int, k: int) {
    && 0 <= k < |logs|
    && IsFutureCreated(logs[k], id, currentEpoch)
    && forall j :: k < j < |logs| ==> !IsFutureCreated(logs[j], id, currentEpoch)
  }

  ghost predicate FirstMinted(logs: seq<Log>, id: int, k: int) {
    && 0 <= k < |logs|
    && IsMinted(logs[k], id)
    && forall j :: 0 <= j < k ==> !IsMinted(logs[j], id)
  }

  /** For one id: its data are those of the last future Created. */
  ghost predicate ReportsData(data: Dict<int, KcData>, logs: seq<Log>, currentEpoch: int, id: int) {
    && (id in data.at ==> exists k :: LastFutureCreated(logs, id, currentEpoch, k))
    && (forall k :: LastFutureCreated(logs, id, currentEpoch, k) ==>
          id in data.at && data.at[id] == KcData(logs[k].startEpoch, logs[k].endEpoch, logs[k].tokenAmount))
  }

  /** For one id: its publisher is that of the first Minted. */
  ghost predicate ReportsPublisher(publishers: Dict<int, Address>, logs: seq<Log>, id: int) {
    && (id in publishers.at ==> exists k :: FirstMinted(logs, id, k))
    && (forall k :: FirstMinted(logs, id, k) ==> id in publishers.at && publishers.at[id] == logs[k].publisher)
  }

  /** The two maps hold, per id, the last future Created and the first Minted of `logs`, and nothing else. */
  ghost predicate Reports(found: Found, logs: seq<Log>, currentEpoch: int) {
    && found.data.Valid()
    && found.publishers.Valid()
    && (forall id :: ReportsData(found.data, logs, currentEpoch, id))
    && (forall id :: ReportsPublisher(found.publishers, logs, id))
  }

  function Record(found: Found, log: Log, currentEpoch: int): Found {
    match log
    case Created(id, startEpoch, endEpoch, tokenAmount) =>
      if endEpoch <= currentEpoch then found
      else found.(data := found.data.Set(id, KcData(startEpoch, endEpoch, tokenAmount)))
    case Minted(id, publisher) =>
      if found.publishers.Has(id) then found
      else found.(publishers := found.publishers.Set(id, publisher))
    case Unparsed => found
  }

  function RecordAll(found: Found, logs: seq<Log>, currentEpoch: int): Found {
    if logs == [] then found
    else Record(RecordAll(found, logs[..|logs| - 1], currentEpoch), logs[|logs| - 1], currentEpoch)
  }

  lemma LastCreatedAfter(logs: seq<Log>, log: Log, currentEpoch: int, id: int, k: int)
    ensures LastFutureCreated(logs + [log], id, currentEpoch, k) <==>
            if IsFutureCreated(log, id, currentEpoch) then k == |logs| else LastFutureCreated(logs, id, currentEpoch, k)
  {
    var all := logs + [log];
    assert all[|logs|] == log && forall j :: 0 <= j < |logs| ==> all[j] == logs[j];
  }

  lemma DataAfter(found: Found, logs: seq<Log>, log: Log, currentEpoch: int, id: int)
    requires ReportsData(found.data, logs, currentEpoch, id)
    ensures ReportsData(Record(found, log, currentEpoch).data, logs + [log], currentEpoch, id)
  {
    var all, data := logs + [log], Record(found, log, currentEpoch).data;
    forall k | LastFutureCreated(all, id, currentEpoch, k)
      ensures id in data.at && data.at[id] == KcData(all[k].startEpoch, all[k].endEpoch, all[k].tokenAmount)
    {
      LastCreatedAfter(logs, log, currentEpoch, id, k);
    }
    if IsFutureCreated(log, id, currentEpoch) {
      LastCreatedAfter(logs, log, currentEpoch, id, |logs|);
    } else if id in data.at {
      var k :| LastFutureCreated(logs, id, currentEpoch, k);
      LastCreatedAfter(logs, log, currentEpoch, id, k);
    }
  }

  lemma FirstMintedAfter(logs: seq<Log>, log: Log, id: int, k: int)
    ensures k < |logs| ==> (FirstMinted(logs + [log], id, k) <==> FirstMinted(logs, id, k))
  {
    var all := logs + [log];
    assert forall j :: 0 <= j < |logs| ==> all[j] == logs[j];
  }

  lemma PublisherAfter(found: Found, logs: seq<Log>, log: Log, currentEpoch: int, id: int)
    requires ReportsPublisher(found.publishers, logs, id)
    ensures ReportsPublisher(Record(found, log, currentEpoch).publishers, logs + [log], id)
  {
    var all, publishers := logs + [log], Record(found, log, currentEpoch).publishers;
    assert all[|logs|] == log;
    forall k | FirstMinted(all, id, k) ensures id in publishers.at && publishers.at[id] == all[k].publisher {
      FirstMintedAfter(logs, log, id, k);
      if k == |logs| && id in found.publishers.at { EarlierMinted(found.publishers, logs, log, id); }
    }
    if id in found.publishers.at {
      var k :| FirstMinted(logs, id, k);
      FirstMintedAfter(logs, log, id, k);
    } else if id in publishers.at {
      NoneMinted(found.publishers, logs, id);
      assert FirstMinted(all, id, |logs|);
    }
  }

  /** An id that has a publisher was minted before. */
  lemma EarlierMinted(publishers: Dict<int, Address>, logs: seq<Log>, log: Log, id: int)
    requires ReportsPublisher(publishers, logs, id) && id in publishers.at
    ensures !FirstMinted(logs + [log], id, |logs|)
  {
    var k :| FirstMinted(logs, id, k);
    assert (logs + [log])[k] == logs[k];
  }

  /** An id without a publisher was never minted. */
  lemma NoneMinted(publishers: Dict<int, Address>, logs: seq<Log>, id: int)
    requires ReportsPublisher(publishers, logs, id) && id !in publishers.at
    ensures forall j :: 0 <= j < |logs| ==> !IsMinted(logs[j], id)
  {
    if j :| 0 <= j < |logs| && IsMinted(logs[j], id) {
      var k := EarliestMinted(logs, id, j);
      assert false;
    }
  }

  lemma RecordReports(found: Found, logs: seq<Log>, log: Log, currentEpoch: int)
    requires Reports(found, logs, currentEpoch)
    ensures Reports(Record(found, log, currentEpoch), logs + [log], currentEpoch)
  {
    var after := Record(found, log, currentEpoch);
    match log {
      case Created(id, startEpoch, endEpoch, tokenAmount) =>
        SetKeepsValid(found.data, id, KcData(startEpoch, endEpoch, tokenAmount));
      case Minted(id, publisher) =>
        SetKeepsValid(found.publishers, id, publisher);
      case Unparsed =>
    }
    forall id ensures ReportsData(after.data, logs + [log], currentEpoch, id) { DataAfter(found, logs, log, currentEpoch, id); }
    forall id ensures ReportsPublisher(after.publishers, logs + [log], id) { PublisherAfter(found, logs, log, currentEpoch, id); }
  }

  lemma {:induction false} EarliestMinted(logs: seq<Log>, id: int, j: int) returns (k: int)
    requires 0 <= j < |logs| && IsMinted(logs[j], id)
    ensures FirstMinted(logs, id, k)
    decreases j
  {
    if i :| 0 <= i < j && IsMinted(logs[i], id) {
      k := EarliestMinted(logs, id, i);
    } else {
      k := j;
    }
  }

  /** One ordered pass over a log list reports exactly that list. */
  lemma {:induction false} RecordAllReports(logs: seq<Log>, currentEpoch: int)
    ensures Reports(RecordAll(Found(Empty(), Empty()), logs, currentEpoch), logs, currentEpoch)
  {
    if logs != [] {
      var front := logs[..|logs| - 1];
      RecordAllReports(front, currentEpoch);
      RecordReports(RecordAll(Found(Empty(), Empty()), front, currentEpoch), front, logs[|logs| - 1], currentEpoch);
      assert logs == front + [logs[|logs| - 1]];
    }
  }

  lemma {:induction false} RecordAllConcat(found: Found, a: seq<Log>, b: seq<Log>, currentEpoch: int)
    ensures RecordAll(found, a + b, currentEpoch) == RecordAll(RecordAll(found, a, currentEpoch), b, currentEpoch)
  {
    if b == [] {
      assert a + b == a;
    } else {
      RecordAllConcat(found, a, b[..|b| - 1], currentEpoch);
      assert (a + b)[..|a + b| - 1] == a + b[..|b| - 1];
    }
  }

  // ----- the scanner as a state machine

  function Init(cfg: Config): Scan {
    Scan(cfg.deployBlock, INITIAL_LOG_RANGE, 0, [], Found(Empty(), Empty()))
  }

  function Serve(cfg: Config, chain: int -> seq<Log>, s: Scan): Scan {
    var last := Min(s.cursor + s.rangeSize - 1, cfg.blockNumber);
    Scan(last + 1,
         if s.rangeSize < INITIAL_LOG_RANGE then Min(s.rangeSize * 2, INITIAL_LOG_RANGE) else s.rangeSize,
         s.rpcIdx,
         s.served + [Range(s.cursor, last)],
         RecordAll(s.found, LogsBetween(chain, s.cursor, last), cfg.currentEpoch))
  }

  function Refuse(cfg: Config, s: Scan): Scan {
    var halved := Max(s.rangeSize / 2, MIN_LOG_RANGE);
    if halved < SWITCH_PROVIDER_BELOW && s.rpcIdx + 1 < cfg.providers
    then s.(rangeSize := INITIAL_LOG_RANGE, rpcIdx := s.rpcIdx + 1)
    else s.(rangeSize := halved)
  }

  function Run(cfg: Config, chain: int -> seq<Log>, s: Scan, answers: seq<Answer>): (Scan, Outcome)
    decreases answers
  {
    if s.cursor > cfg.blockNumber then (s, Done)
    else if answers == [] then (s, Unfinished)
    else match answers[0]
      case Served => Run(cfg, chain, Serve(cfg, chain, s), answers[1..])
      case RangeTooLarge => Run(cfg, chain, Refuse(cfg, s), answers[1..])
      case OtherError => (s, Failed)
  }

  /** Non-empty ranges that follow one another from `first` up to, not including, `next`. */
  ghost predicate Tiles(ranges: seq<Range>, first: int, next: int) {
    && (forall i :: 0 <= i < |ranges| ==> ranges[i].first <= ranges[i].last)
    && (forall i :: 0 < i < |ranges| ==> ranges[i].first == ranges[i - 1].last + 1)
    && (if ranges == [] then next == first
        else ranges[0].first == first && ranges[|ranges| - 1].last + 1 == next)
  }

  ghost predicate Inv(cfg: Config, s: Scan) {
    && MIN_LOG_RANGE <= s.rangeSize <= INITIAL_LOG_RANGE
    && s.rpcIdx < cfg.providers
    && (s.rangeSize < SWITCH_PROVIDER_BELOW ==> s.rpcIdx + 1 == cfg.providers)
    && (s.cursor <= cfg.blockNumber + 1 || s.served == [])
    && Tiles(s.served, cfg.deployBlock, s.cursor)
  }

  /** The maps are one ordered pass over everything below the cursor. */
  ghost predicate Recorded(cfg: Config, chain: int -> seq<Log>, s: Scan) {
    s.found == RecordAll(Found(Empty(), Empty()), LogsBetween(chain, cfg.deployBlock, s.cursor - 1), cfg.currentEpoch)
  }

  lemma TilesExtend(ranges: seq<Range>, first: int, next: int, last: int)
    requires Tiles(ranges, first, next) && next <= last
    ensures Tiles(ranges + [Range(next, last)], first, last + 1)
  {
  }

  lemma ServeKeeps(cfg: Config, chain: int -> seq<Log>, s: Scan)
    requires Inv(cfg, s) && s.cursor <= cfg.blockNumber
    ensures Inv(cfg, Serve(cfg, chain, s))
    ensures Serve(cfg, chain, s).cursor > s.cursor
  {
    var last := Min(s.cursor + s.rangeSize - 1, cfg.blockNumber);
    TilesExtend(s.served, cfg.deployBlock, s.cursor, last);
  }

  lemma RecordNext(chain: int -> seq<Log>, a: int, b: int, c: int, currentEpoch: int, start: Found, found: Found)
    requires a <= b + 1 <= c + 1
    requires found == RecordAll(start, LogsBetween(chain, a, b), currentEpoch)
    ensures RecordAll(found, LogsBetween(chain, b + 1, c), currentEpoch)
         == RecordAll(start, LogsBetween(chain, a, c), currentEpoch)
  {
    LogsJoin(chain, a, b, c);
    RecordAllConcat(start, LogsBetween(chain, a, b), LogsBetween(chain, b + 1, c), currentEpoch);
  }

  lemma ServeRecords(cfg: Config, chain: int -> seq<Log>, s: Scan)
    requires Inv(cfg, s) && s.cursor <= cfg.blockNumber && Recorded(cfg, chain, s)
    ensures Recorded(cfg, chain, Serve(cfg, chain, s))
  {
    var last := Min(s.cursor + s.rangeSize - 1, cfg.blockNumber);
    TilesForward(s.served, cfg.deployBlock, s.cursor);
    RecordNext(chain, cfg.deployBlock, s.cursor - 1, last, cfg.currentEpoch, Found(Empty(), Empty()), s.found);
  }

  lemma {:induction false} TilesForward(ranges: seq<Range>, first: int, next: int)
    requires Tiles(ranges, first, next)
    ensures first <= next
  {
    if |ranges| > 1 {
      var front := ranges[..|ranges| - 1];
      assert ranges[|ranges| - 1].first == ranges[|ranges| - 2].last + 1;
      TilesForward(front, first, front[|front| - 1].last + 1);
    }
  }

  /** Every block of a tiled interval lies in exactly one range, and no range reaches outside it. */
  lemma {:induction false} TilesPartition(ranges: seq<Range>, first: int, next: int, block: int)
    requires Tiles(ranges, first, next)
    ensures first <= block < next <==> exists i :: 0 <= i < |ranges| && ranges[i].first <= block <= ranges[i].last
    ensures forall i, j | 0 <= i < |ranges| && 0 <= j < |ranges| ::
              ranges[i].first <= block <= ranges[i].last && ranges[j].first <= block <= ranges[j].last ==> i == j
  {
    if ranges != [] {
      var n := |ranges| - 1;
      var front := ranges[..n];
      if n > 0 { assert ranges[n].first == ranges[n - 1].last + 1; }
      TilesForward(front, first, ranges[n].first);
      TilesPartition(front, first, ranges[n].first, block);
      if ranges[n].first <= block < next {
        assert ranges[n].first <= block <= ranges[n].last;
      } else if first <= block < next {
        var i :| 0 <= i < |front| && front[i].first <= block <= front[i].last;
        assert ranges[i].first <= block <= ranges[i].last;
      }
      forall i | 0 <= i < |ranges| && ranges[i].first <= block <= ranges[i].last
        ensures first <= block < next && (i < n ==> block < ranges[n].first)
      {
        if i < n { assert front[i].first <= block <= front[i].last; }
      }
    }
  }

  /** Every run of the scanner, whatever the providers answer, keeps the invariant and the record. */
  lemma {:induction false} RunKeeps(cfg: Config, chain: int -> seq<Log>, s: Scan, answers: seq<Answer>)
    requires Inv(cfg, s) && Recorded(cfg, chain, s)
    ensures Inv(cfg, Run(cfg, chain, s, answers).0)
    ensures Recorded(cfg, chain, Run(cfg, chain, s, answers).0)
    decreases answers
  {
    if s.cursor <= cfg.blockNumber && answers != [] {
      match answers[0]
      case Served =>
        ServeKeeps(cfg, chain, s);
        ServeRecords(cfg, chain, s);
        RunKeeps(cfg, chain, Serve(cfg, chain, s), answers[1..]);
      case RangeTooLarge =>
        RunKeeps(cfg, chain, Refuse(cfg, s), answers[1..]);
      case OtherError =>
    }
  }

  /** A scan past the last block has tiled the whole interval and reports all its logs. */
  lemma FinishedScan(cfg: Config, chain: int -> seq<Log>, s: Scan)
    requires Inv(cfg, s) && Recorded(cfg, chain, s) && s.cursor > cfg.blockNumber
    ensures Tiles(s.served, cfg.deployBlock, Max(cfg.deployBlock, cfg.blockNumber + 1))
    ensures Reports(s.found, LogsBetween(chain, cfg.deployBlock, cfg.blockNumber), cfg.currentEpoch)
  {
    TilesForward(s.served, cfg.deployBlock, s.cursor);
    RecordAllReports(LogsBetween(chain, cfg.deployBlock, s.cursor - 1), cfg.currentEpoch);
    assert LogsBetween(chain, cfg.deployBlock, s.cursor - 1) == LogsBetween(chain, cfg.deployBlock, cfg.blockNumber);
  }

  // ----- progress

  function BlocksLeft(cfg: Config, s: Scan): int { cfg.blockNumber + 1 - s.cursor }
  function ProvidersLeft(cfg: Config, s: Scan): int { cfg.providers - 1 - s.rpcIdx }

  /** A refusal of the smallest range by the last provider: the one step that changes nothing. */
  predicate Stalled(cfg: Config, s: Scan, answer: Answer) {
    answer.RangeTooLarge? && s.rangeSize == MIN_LOG_RANGE && s.rpcIdx + 1 == cfg.providers
  }

  ghost predicate LexLess(a: (int, int, int), b: (int, int, int)) {
    a.0 < b.0 || (a.0 == b.0 && (a.1 < b.1 || (a.1 == b.1 && a.2 < b.2)))
  }

  ghost function Measure(cfg: Config, s: Scan): (int, int, int) {
    (BlocksLeft(cfg, s), ProvidersLeft(cfg, s), s.rangeSize)
  }

  function Next(cfg: Config, chain: int -> seq<Log>, s: Scan, answer: Answer): Scan {
    if answer.Served? then Serve(cfg, chain, s) else Refuse(cfg, s)
  }

  /** (blocks left, providers left, range size) falls on every step except a stall, and a stall changes nothing. */
  lemma EveryStepProgressesOrStalls(cfg: Config, chain: int -> seq<Log>, s: Scan, answer: Answer)
    requires Inv(cfg, s) && s.cursor <= cfg.blockNumber && !answer.OtherError?
    ensures LexLess(Measure(cfg, Next(cfg, chain, s, answer)), Measure(cfg, s)) <==> !Stalled(cfg, s, answer)
    ensures Stalled(cfg, s, answer) <==> Next(cfg, chain, s, answer) == s
    ensures BlocksLeft(cfg, Next(cfg, chain, s, answer)) >= 0 && ProvidersLeft(cfg, Next(cfg, chain, s, answer)) >= 0
  {
    if answer.Served? { ServeKeeps(cfg, chain, s); }
  }

  /** Halvings from a range size down to the smallest one. */
  function Halvings(r: int): (k: nat)
    requires r >= MIN_LOG_RANGE
    ensures k == 0 <==> r == MIN_LOG_RANGE
    ensures (r <= 100 ==> k <= 1) && (r <= 200 ==> k <= 2) && (r <= 400 ==> k <= 3)
    ensures (r <= 800 ==> k <= 4) && (r <= 1600 ==> k <= 5) && (r <= INITIAL_LOG_RANGE ==> k <= 6)
  {
    if r == MIN_LOG_RANGE then 0 else 1 + Halvings(Max(r / 2, MIN_LOG_RANGE))
  }

  /** Refusals the scanner can take from here before it reaches the smallest range of the last provider. */
  ghost function Patience(cfg: Config, s: Scan): int
    requires s.rangeSize >= MIN_LOG_RANGE
  {
    6 * ProvidersLeft(cfg, s) + Halvings(s.rangeSize)
  }

  lemma RefusalCostsPatience(cfg: Config, s: Scan)
    requires Inv(cfg, s)
    ensures Patience(cfg, s) >= 0
    ensures Patience(cfg, s) == 0 <==> Stalled(cfg, s, RangeTooLarge)
    ensures Patience(cfg, s) > 0 ==> Patience(cfg, Refuse(cfg, s)) < Patience(cfg, s)
  {
  }

  /** No answer of the run is a refusal of the smallest range by the last provider. */
  ghost predicate StallFree(cfg: Config, chain: int -> seq<Log>, s: Scan, answers: seq<Answer>)
    decreases answers
  {
    s.cursor > cfg.blockNumber || answers == [] || answers[0].OtherError? ||
    (!Stalled(cfg, s, answers[0]) && StallFree(cfg, chain, Next(cfg, chain, s, answers[0]), answers[1..]))
  }

  ghost function AttemptBound(cfg: Config, s: Scan): int
    requires s.rangeSize >= MIN_LOG_RANGE
  {
    BlocksLeft(cfg, s) * (6 * cfg.providers + 1) + Patience(cfg, s)
  }

  lemma StepsShrinkBound(cfg: Config, chain: int -> seq<Log>, s: Scan, answer: Answer)
    requires Inv(cfg, s) && s.cursor <= cfg.blockNumber && !answer.OtherError? && !Stalled(cfg, s, answer)
    ensures Next(cfg, chain, s, answer).rangeSize >= MIN_LOG_RANGE
    ensures 0 <= AttemptBound(cfg, Next(cfg, chain, s, answer)) < AttemptBound(cfg, s)
  {
    var t := Next(cfg, chain, s, answer);
    var m := 6 * cfg.providers + 1;
    RefusalCostsPatience(cfg, s);
    if answer.Served? { ServeKeeps(cfg, chain, s); }
    RefusalCostsPatience(cfg, t);
    MulNonNegative(BlocksLeft(cfg, t), m);
    if answer.Served? {
      assert Patience(cfg, t) < m;
      MulStep(BlocksLeft(cfg, t), BlocksLeft(cfg, s), m);
    }
  }

  /** A scan that never stalls is over after a number of queries known at the start. */
  lemma {:induction false} StallFreeScansEnd(cfg: Config, chain: int -> seq<Log>, s: Scan, answers: seq<Answer>)
    requires Inv(cfg, s) && StallFree(cfg, chain, s, answers)
    ensures Run(cfg, chain, s, answers).1.Unfinished? ==> |answers| <= AttemptBound(cfg, s)
    decreases answers
  {
    if s.cursor <= cfg.blockNumber {
      if answers == [] {
        RefusalCostsPatience(cfg, s);
        MulNonNegative(BlocksLeft(cfg, s), 6 * cfg.providers + 1);
      } else if !answers[0].OtherError? {
        StepsShrinkBound(cfg, chain, s, answers[0]);
        if answers[0].Served? { ServeKeeps(cfg, chain, s); }
        StallFreeScansEnd(cfg, chain, Next(cfg, chain, s, answers[0]), answers[1..]);
      }
    }
  }

  lemma MulNonNegative(x: int, y: int)
    requires x >= 0 && y >= 0
    ensures x * y >= 0
  {
  }

  lemma MulStep(x: int, y: int, m: int)
    requires x < y && m >= 0
    ensures x * m + m <= y * m
  {
    MulNonNegative(y - x - 1, m);
    assert (y - x - 1) * m == y * m - (x * m + m);
  }

  // ----- how the range and the provider follow the answers

  /** A range twice as large, or the largest one; a range half as large, or the smallest one. */
  ghost predicate Grows(before: int, after: int) { after == 2 * before <= 2500 || after == 2500 <= 2 * before }

  ghost predicate Shrinks(before: int, after: int) {
    (50 <= after && 2 * after <= before <= 2 * after + 1) || (after == 50 && before < 100)
  }

  /**
   * A served query moves the cursor behind its range, which ends at the last block at the latest, and the range
   * grows. A refused one moves nothing: it shrinks the range, or when that would fall below 500 blocks and another
   * provider is left, turns to that provider with the largest range.
   */
  ghost predicate Follows(cfg: Config, s: Scan, answer: Answer, t: Scan) {
    match answer
    case Served =>
      && t.served == s.served + [Range(s.cursor, t.cursor - 1)] && t.rpcIdx == s.rpcIdx && Grows(s.rangeSize, t.rangeSize)
      && s.cursor < t.cursor <= cfg.blockNumber + 1
      && (t.cursor == s.cursor + s.rangeSize || (t.cursor == cfg.blockNumber + 1 && t.cursor < s.cursor + s.rangeSize))
    case RangeTooLarge =>
      && t.cursor == s.cursor && t.served == s.served && t.found == s.found
      && if s.rangeSize < 1000 && s.rpcIdx + 1 < cfg.providers then t.rpcIdx == s.rpcIdx + 1 && t.rangeSize == 2500
         else t.rpcIdx == s.rpcIdx && Shrinks(s.rangeSize, t.rangeSize)
    case OtherError => false
  }

  lemma ServeFollows(cfg: Config, chain: int -> seq<Log>, s: Scan)
    requires Inv(cfg, s) && s.cursor <= cfg.blockNumber
    ensures Follows(cfg, s, Served, Serve(cfg, chain, s))
  {
  }

  lemma RefuseFollows(cfg: Config, s: Scan)
    requires Inv(cfg, s)
    ensures Follows(cfg, s, RangeTooLarge, Refuse(cfg, s))
  {
  }

  /** From the first block, with the largest range and the first provider, one state per answer. */
  ghost predicate Walks(cfg: Config, states: seq<Scan>, answers: seq<Answer>) {
    && 1 <= |states| <= |answers| + 1
    && states[0].cursor == cfg.deployBlock && states[0].rangeSize == 2500 && states[0].rpcIdx == 0 && states[0].served == []
    && forall i :: 0 <= i < |states| - 1 ==>
         states[i].cursor <= cfg.blockNumber && Follows(cfg, states[i], answers[i], states[i + 1])
  }

  /** Done past the last block, failed at the first other error, unfinished when the answers run out. */
  ghost predicate Ends(cfg: Config, states: seq<Scan>, answers: seq<Answer>, outcome: Outcome)
    requires 1 <= |states| <= |answers| + 1
  {
    var n := |states| - 1;
    match outcome
    case Done => states[n].cursor > cfg.blockNumber
    case Failed => states[n].cursor <= cfg.blockNumber && n < |answers| && answers[n].OtherError?
    case Unfinished => states[n].cursor <= cfg.blockNumber && n == |answers|
  }

  lemma WalksOn(cfg: Config, chain: int -> seq<Log>, states: seq<Scan>, answers: seq<Answer>)
    requires Walks(cfg, states, answers) && |states| <= |answers| && !answers[|states| - 1].OtherError?
    requires var s := states[|states| - 1]; Inv(cfg, s) && s.cursor <= cfg.blockNumber
    ensures var t := Next(cfg, chain, states[|states| - 1], answers[|states| - 1]);
            Walks(cfg, states + [t], answers) && Inv(cfg, t)
  {
    var s := states[|states| - 1];
    ServeKeeps(cfg, chain, s);
    ServeFollows(cfg, chain, s);
    RefuseFollows(cfg, s);
  }

  lemma RunGoesOn(cfg: Config, chain: int -> seq<Log>, s: Scan, answers: seq<Answer>)
    requires s.cursor <= cfg.blockNumber && answers != [] && !answers[0].OtherError?
    ensures Run(cfg, chain, s, answers) == Run(cfg, chain, Next(cfg, chain, s, answers[0]), answers[1..])
  {
  }

  lemma WalkIsOver(cfg: Config, chain: int -> seq<Log>, states: seq<Scan>, answers: seq<Answer>)
    requires 1 <= |states| <= |answers| + 1
    requires var n := |states| - 1; states[n].cursor > cfg.blockNumber || n == |answers| || answers[n].OtherError?
    ensures var end := Run(cfg, chain, states[|states| - 1], answers[|states| - 1..]);
            end.0 == states[|states| - 1] && Ends(cfg, states, answers, end.1)
  {
  }

  lemma {:induction false} WalksToTheEnd(cfg: Config, chain: int -> seq<Log>, before: seq<Scan>, answers: seq<Answer>)
    returns (states: seq<Scan>)
    requires Walks(cfg, before, answers) && Inv(cfg, before[|before| - 1])
    ensures Walks(cfg, states, answers)
    ensures var end := Run(cfg, chain, before[|before| - 1], answers[|before| - 1..]);
            states[|states| - 1] == end.0 && Ends(cfg, states, answers, end.1)
    decreases |answers| - |before|
  {
    var n := |before| - 1;
    if before[n].cursor > cfg.blockNumber || n == |answers| || answers[n].OtherError? {
      WalkIsOver(cfg, chain, before, answers);
      states := before;
    } else {
      var s, t := before[n], Next(cfg, chain, before[n], answers[n]);
      WalksOn(cfg, chain, before, answers);
      RunGoesOn(cfg, chain, s, answers[n..]);
      assert answers[n..][1..] == answers[n + 1..];
      states := WalksToTheEnd(cfg, chain, before + [t], answers);
    }
  }

  /** Every run, from its start to its outcome, is such a walk. */
  lemma EveryRunWalks(cfg: Config, chain: int -> seq<Log>, answers: seq<Answer>) returns (states: seq<Scan>)
    requires cfg.providers > 0
    ensures Walks(cfg, states, answers)
    ensures var end := Run(cfg, chain, Init(cfg), answers);
            states[|states| - 1] == end.0 && Ends(cfg, states, answers, end.1)
  {
    assert answers[0..] == answers;
    states := WalksToTheEnd(cfg, chain, [Init(cfg)], answers);
  }

  // ----- the scanner and the join, as the script runs them

  /** Lines 389 to 471. */
  method ScanEvents(cfg: Config, chain: int -> seq<Log>, answers: seq<Answer>)
    returns (found: Found, outcome: Outcome, served: seq<Range>, rpcIdx: nat, rangeSize: int, ghost states: seq<Scan>)
    requires cfg.providers > 0
    ensures var end := Run(cfg, chain, Init(cfg), answers);
            end.1 == outcome && end.0.found == found && end.0.served == served &&
            end.0.rpcIdx == rpcIdx && end.0.rangeSize == rangeSize
    ensures Walks(cfg, states, answers) && Ends(cfg, states, answers, outcome)
    ensures var end := states[|states| - 1]; end == Scan(end.cursor, rangeSize, rpcIdx, served, found)
    ensures rangeSize < SWITCH_PROVIDER_BELOW ==> rpcIdx + 1 == cfg.providers
    ensures outcome.Done? ==>
              && Tiles(served, cfg.deployBlock, Max(cfg.deployBlock, cfg.blockNumber + 1))
              && Reports(found, LogsBetween(chain, cfg.deployBlock, cfg.blockNumber), cfg.currentEpoch)
  {
    var data: Dict<int, KcData>, publishers: Dict<int, Address> := Empty(), Empty();
    var cursor := cfg.deployBlock;
    rangeSize, rpcIdx, served := INITIAL_LOG_RANGE, 0, [];
    var n := 0;
    outcome := Unfinished;
    ghost var s := Init(cfg);
    while cursor <= cfg.blockNumber && n < |answers|
      invariant 0 <= n <= |answers|
      invariant s == Scan(cursor, rangeSize, rpcIdx, served, Found(data, publishers))
      invariant Run(cfg, chain, s, answers[n..]) == Run(cfg, chain, Init(cfg), answers)
      decreases |answers| - n
    {
      var last := Min(cursor + rangeSize - 1, cfg.blockNumber);
      assert answers[n..][0] == answers[n] && answers[n..][1..] == answers[n + 1..];
      match answers[n] {
        case Served =>
          data, publishers := RecordBatch(data, publishers, LogsBetween(chain, cursor, last), cfg.currentEpoch);
          served := served + [Range(cursor, last)];
          cursor := last + 1;
          if rangeSize < INITIAL_LOG_RANGE {
            rangeSize := Min(rangeSize * 2, INITIAL_LOG_RANGE);
          }
          s := Serve(cfg, chain, s);
        case RangeTooLarge =>
          rangeSize := Max(rangeSize / 2, MIN_LOG_RANGE);
          if rangeSize < SWITCH_PROVIDER_BELOW && rpcIdx + 1 < cfg.providers {
            rpcIdx := rpcIdx + 1;
            rangeSize := INITIAL_LOG_RANGE;
          }
          s := Refuse(cfg, s);
        case OtherError =>
          found, outcome := Found(data, publishers), Failed;
          RunKeeps(cfg, chain, Init(cfg), answers);
          states := EveryRunWalks(cfg, chain, answers);
          return;
      }
      n := n + 1;
    }
    found := Found(data, publishers);
    RunKeeps(cfg, chain, Init(cfg), answers);
    states := EveryRunWalks(cfg, chain, answers);
    if cursor > cfg.blockNumber {
      outcome := Done;
      FinishedScan(cfg, chain, s);
    }
  }

  /** Lines 411 to 434: one batch of logs, in order. */
  method RecordBatch(data0: Dict<int, KcData>, publishers0: Dict<int, Address>, logs: seq<Log>, currentEpoch: int)
    returns (data: Dict<int, KcData>, publishers: Dict<int, Address>)
    ensures Found(data, publishers) == RecordAll(Found(data0, publishers0), logs, currentEpoch)
  {
    data, publishers := data0, publishers0;
    for i := 0 to |logs|
      invariant Found(data, publishers) == RecordAll(Found(data0, publishers0), logs[..i], currentEpoch)
    {
      assert logs[..i + 1][..i] == logs[..i];
      var log := logs[i];
      if log.Created? {
        if log.endEpoch > currentEpoch {
          data := data.Set(log.id, KcData(log.startEpoch, log.endEpoch, log.tokenAmount));
        }
      } else if log.Minted? {
        if !publishers.Has(log.id) {
          publishers := publishers.Set(log.id, log.publisher);
        }
      }
    }
    assert logs[..|logs|] == logs;
  }

  /** A collection the join keeps: it has a non-zero publisher and locks tokens. */
  predicate Refundable(found: Found, id: int) {
    && id in found.data.at
    && id in found.publishers.at
    && found.publishers.at[id] != ZERO_ADDRESS
    && found.data.at[id].tokenAmount != 0
  }

  function Joined(found: Found, id: int): FutureKc
    requires id in found.data.at && id in found.publishers.at
  {
    var d := found.data.at[id];
    FutureKc(id, d.startEpoch, d.endEpoch, d.tokenAmount, found.publishers.at[id])
  }

  function JoinKeys(found: Found, ids: seq<int>): seq<FutureKc> {
    if ids == [] then []
    else
      var rest, id := JoinKeys(found, ids[..|ids| - 1]), ids[|ids| - 1];
      if Refundable(found, id) then rest + [Joined(found, id)] else rest
  }

  /** The join keeps each refundable id once, with its own data. */
  lemma {:induction false} JoinKeysMeaning(found: Found, ids: seq<int>)
    requires Distinct(ids)
    ensures forall kc :: kc in JoinKeys(found, ids) <==>
              kc.id in ids && Refundable(found, kc.id) && kc == Joined(found, kc.id)
    ensures forall i, j :: 0 <= i < j < |JoinKeys(found, ids)| ==> JoinKeys(found, ids)[i].id != JoinKeys(found, ids)[j].id
  {
    if ids != [] {
      var front, id := ids[..|ids| - 1], ids[|ids| - 1];
      JoinKeysMeaning(found, front);
      assert forall x :: x in ids <==> x in front || x == id;
      var rest := JoinKeys(found, front);
      forall i | 0 <= i < |rest| ensures rest[i].id != id {
        assert rest[i] in rest;
      }
    }
  }

  /** Lines 474 to 483. */
  method Join(found: Found) returns (kcs: seq<FutureKc>)
    requires found.data.Valid()
    ensures forall kc :: kc in kcs <==> Refundable(found, kc.id) && kc == Joined(found, kc.id)
    ensures forall i, j :: 0 <= i < j < |kcs| ==> kcs[i].id != kcs[j].id
  {
    kcs := [];
    var ids := found.data.keys;
    for i := 0 to |ids|
      invariant kcs == JoinKeys(found, ids[..i])
    {
      var id := ids[i];
      assert id in found.data.keys;
      assert ids[..i + 1][..i] == ids[..i];
      if id in found.publishers.at && found.publishers.at[id] != ZERO_ADDRESS {
        if found.data.at[id].tokenAmount != 0 {
          kcs := kcs + [Joined(found, id)];
        }
      }
    }
    assert ids[..|ids|] == ids;
    JoinKeysMeaning(found, ids);
  }

  ghost predicate IsRefund(kc: FutureKc, logs: seq<Log>, currentEpoch: int, c: int, m: int) {
    && LastFutureCreated(logs, kc.id, currentEpoch, c)
    && FirstMinted(logs, kc.id, m)
    && kc == FutureKc(kc.id, logs[c].startEpoch, logs[c].endEpoch, logs[c].tokenAmount, logs[m].publisher)
    && kc.publisher != ZERO_ADDRESS
    && kc.tokenAmount != 0
  }

  ghost predicate IsRefundOf(kc: FutureKc, logs: seq<Log>, currentEpoch: int) {
    exists c, m :: IsRefund(kc, logs, currentEpoch, c, m)
  }

  lemma RefundOfReport(found: Found, logs: seq<Log>, currentEpoch: int, kc: FutureKc)
    requires Reports(found, logs, currentEpoch)
    ensures Refundable(found, kc.id) && kc == Joined(found, kc.id) <==>
            IsRefundOf(kc, logs, currentEpoch)
  {
    assert ReportsData(found.data, logs, currentEpoch, kc.id) && ReportsPublisher(found.publishers, logs, kc.id);
    if Refundable(found, kc.id) && kc == Joined(found, kc.id) {
      var c :| LastFutureCreated(logs, kc.id, currentEpoch, c);
      var m :| FirstMinted(logs, kc.id, m);
      assert IsRefund(kc, logs, currentEpoch, c, m);
    }
  }

  /**
   * Phase 1 as a whole. However the queries are split, refused and moved between
   * providers, a finished run returns exactly the refunds of the whole log.
   */
  method DiscoverByEvents(cfg: Config, chain: int -> seq<Log>, answers: seq<Answer>)
    returns (kcs: seq<FutureKc>, outcome: Outcome)
    requires cfg.providers > 0
    ensures outcome.Done? ==>
              var logs := LogsBetween(chain, cfg.deployBlock, cfg.blockNumber);
              && (forall kc :: kc in kcs <==> IsRefundOf(kc, logs, cfg.currentEpoch))
              && (forall i, j :: 0 <= i < j < |kcs| ==> kcs[i].id != kcs[j].id)
    ensures !outcome.Done? ==> kcs == []
  {
    var found, end, _, _, _, _ := ScanEvents(cfg, chain, answers);
    outcome, kcs := end, [];
    if end.Done? {
      kcs := Join(found);
      ghost var logs := LogsBetween(chain, cfg.deployBlock, cfg.blockNumber);
      forall kc ensures kc in kcs <==> IsRefundOf(kc, logs, cfg.currentEpoch) {
        RefundOfReport(found, logs, cfg.currentEpoch, kc);
      }
    }
  }
}
