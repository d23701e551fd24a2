/**
 * The profile population: an extractor turns a population into redacted
 * profiles, a deriver summarises it, and validators check both.
 */
module Population {
  import opened Sequences
  import opened Numbers
  import opened Sorting
  import opened Aliases
  import opened Subjects
  import E = Evidence

  const RECORD := "record:"
  const PEER := "peer:"

  datatype Freshness = Active | Stale | Unknown

  /** A root of the population; its peers are a set, listed in the order in which they were met. */
  datatype Record = Record(root: string, peers: seq<string>, freshness: Freshness)

  datatype Disposition = Candidate | MissingPeer | MultiPeerRoot | PeerMultiRoot

  datatype Profile = Profile(recordId: string, peerKeys: seq<string>, rootSubject: string, disposition: Disposition)

  datatype Summary = Summary(
    observedRoots: nat, observedPeerKeys: nat, activeRoots: nat, activeProfiles: nat, candidateProfiles: nat,
    ambiguousProfiles: nat, staleProfiles: nat, unknownFreshnessProfiles: nat, missingPeerRoots: nat,
    duplicatePeerKeys: nat, sharedRootSubjects: nat)

  predicate IsActive(r: Record) { r.freshness.Active? }
  predicate IsStale(r: Record) { r.freshness.Stale? }
  predicate IsUnknown(r: Record) { r.freshness.Unknown? }
  predicate NoPeers(r: Record) { r.peers == [] }
  predicate ManyPeers(r: Record) { |Elements(r.peers)| > 1 }
  predicate IsCandidate(p: Profile) { p.disposition.Candidate? }
  predicate IsAmbiguous(p: Profile) { !p.disposition.Candidate? }
  predicate IsMissing(p: Profile) { p.disposition.MissingPeer? }
  predicate IsMulti(p: Profile) { p.disposition.MultiPeerRoot? }

  // ----- peers

  function AllPeers(records: seq<Record>): seq<string> {
    if records == [] then [] else AllPeers(records[..|records| - 1]) + records[|records| - 1].peers
  }

  lemma {:induction false} AllPeersMeaning(records: seq<Record>, peer: string)
    ensures peer in AllPeers(records) <==> exists i :: 0 <= i < |records| && peer in records[i].peers
  {
    if records != [] {
      var n := |records| - 1;
      AllPeersMeaning(records[..n], peer);
      if i :| 0 <= i < n && peer in records[..n][i].peers { assert peer in records[i].peers; }
      if i :| 0 <= i < |records| && peer in records[i].peers && i < n { assert peer in records[..n][i].peers; }
    }
  }

  function RootsOf(records: seq<Record>, peer: string): set<string> {
    set r | r in records && peer in r.peers :: r.root
  }

  predicate Shared(records: seq<Record>, peer: string) { |RootsOf(records, peer)| > 1 }

  function SharedPeers(records: seq<Record>): set<string> {
    set peer | peer in AllPeers(records) && Shared(records, peer)
  }

  lemma TwoRootsShare(records: seq<Record>, a: Record, b: Record, peer: string)
    requires a in records && b in records && a.root != b.root && peer in a.peers && peer in b.peers
    ensures Shared(records, peer)
  {
    SubsetSize({a.root, b.root}, RootsOf(records, peer));
  }

  /** Lines 376 to 388 of extract-rdf.ts, and lines 18 to 26 of population.ts. */
  method PeerToRoots(records: seq<Record>) returns (m: map<string, set<string>>)
    ensures Grouped(m, records)
  {
    m := map[];
    for i := 0 to |records|
      invariant Grouped(m, records[..i])
    {
      assert records[..i + 1][..i] == records[..i] && records[..i + 1] == records[..i] + [records[i]];
      m := AddRecord(m, records[..i], records[i]);
    }
    assert records[..|records|] == records;
  }

  ghost predicate Grouped(m: map<string, set<string>>, records: seq<Record>) {
    && m.Keys == Elements(AllPeers(records))
    && forall peer :: peer in m ==> m[peer] == RootsOf(records, peer)
  }

  method AddRecord(m0: map<string, set<string>>, ghost records: seq<Record>, record: Record)
    returns (m: map<string, set<string>>)
    requires Grouped(m0, records)
    ensures Grouped(m, records + [record])
  {
    m := AddPeers(m0, record);
    Regrouped(m0, m, records, record);
  }

  method AddPeers(m0: map<string, set<string>>, record: Record) returns (m: map<string, set<string>>)
    ensures forall peer :: peer in m <==> peer in m0 || peer in record.peers
    ensures forall peer :: peer in m ==> m[peer] == Grown(m0, record, record.peers, peer)
  {
    m := m0;
    for j := 0 to |record.peers|
      invariant forall peer :: peer in m <==> peer in m0 || peer in record.peers[..j]
      invariant forall peer :: peer in m ==> m[peer] == Grown(m0, record, record.peers[..j], peer)
    {
      var peer := record.peers[j];
      assert record.peers[..j + 1] == record.peers[..j] + [peer];
      m := m[peer := (if peer in m then m[peer] else {}) + {record.root}];
    }
    assert record.peers[..|record.peers|] == record.peers;
  }

  lemma Regrouped(m0: map<string, set<string>>, m: map<string, set<string>>, records: seq<Record>, record: Record)
    requires Grouped(m0, records)
    requires forall peer :: peer in m <==> peer in m0 || peer in record.peers
    requires forall peer :: peer in m ==> m[peer] == Grown(m0, record, record.peers, peer)
    ensures Grouped(m, records + [record])
  {
    var all := records + [record];
    assert all[..|records|] == records;
    forall peer | peer in m ensures m[peer] == RootsOf(all, peer) { RootsGrow(m0, records, record, peer); }
  }

  ghost function Grown(m: map<string, set<string>>, record: Record, peers: seq<string>, peer: string): set<string> {
    (if peer in m then m[peer] else {}) + (if peer in peers then {record.root} else {})
  }

  lemma RootsGrow(m: map<string, set<string>>, records: seq<Record>, record: Record, peer: string)
    requires Grouped(m, records)
    ensures Grown(m, record, record.peers, peer) == RootsOf(records + [record], peer)
  {
    var all := records + [record];
    assert forall r :: r in all <==> r in records || r == record;
    assert RootsOf(all, peer) == RootsOf(records, peer) + (if peer in record.peers then {record.root} else {});
    if peer !in m {
      forall root | root in RootsOf(records, peer) ensures false {
        var r :| r in records && peer in r.peers && r.root == root;
        var i :| 0 <= i < |records| && records[i] == r;
        AllPeersMeaning(records, peer);
      }
    }
  }

  // ----- collecting the population

  /** A row of the population query; `seen` is none unless it parses as a time. */
  datatype Row = Row(root: string, peer: Option<string>, seen: Option<int>)

  datatype Gathered = Gathered(peers: seq<string>, newest: Option<int>)

  function Later(a: Option<int>, b: Option<int>): Option<int> {
    if a.None? || (b.Some? && b.value > a.value) then b else a
  }

  function Add(g: Gathered, row: Row): Gathered {
    Gathered(if row.peer.Some? && row.peer.value !in g.peers then g.peers + [row.peer.value] else g.peers,
             Later(g.newest, row.seen))
  }

  /** What the rows say about one root. */
  function Gather(rows: seq<Row>, root: string): Gathered {
    if rows == [] then Gathered([], None)
    else
      var g, last := Gather(rows[..|rows| - 1], root), rows[|rows| - 1];
      if last.root == root then Add(g, last) else g
  }

  function RootOf(row: Row): string { row.root }

  function FreshnessOf(newest: Option<int>, cutoff: int): Freshness {
    match newest
    case None => Unknown
    case Some(t) => if t >= cutoff then Active else Stale
  }

  function RecordOf(rows: seq<Row>, cutoff: int): string -> Record {
    (root: string) => Record(root, Gather(rows, root).peers, FreshnessOf(Gather(rows, root).newest, cutoff))
  }

  /** The population that the rows describe, in the order in which the roots are met. */
  function PopulationOf(rows: seq<Row>, cutoff: int): seq<Record> {
    Map(RecordOf(rows, cutoff), Distinctly(Map(RootOf, rows)))
  }

  ghost predicate GatheredAll(m: map<string, Gathered>, rows: seq<Row>) {
    forall root :: GatheredAt(m, rows, root)
  }

  ghost predicate GatheredAt(m: map<string, Gathered>, rows: seq<Row>, root: string) {
    if root in m then m[root] == Gather(rows, root) else Gather(rows, root) == Gathered([], None)
  }

  function Added(m: map<string, Gathered>, row: Row): map<string, Gathered> {
    m[row.root := Add(if row.root in m then m[row.root] else Gathered([], None), row)]
  }

  lemma GatherStep(m: map<string, Gathered>, rows: seq<Row>, row: Row)
    requires GatheredAll(m, rows)
    ensures GatheredAll(Added(m, row), rows + [row])
  {
    assert (rows + [row])[..|rows|] == rows;
    forall root ensures GatheredAt(Added(m, row), rows + [row], root) {
      assert GatheredAt(m, rows, root) && GatheredAt(m, rows, row.root);
    }
  }

  ghost predicate Indexes(order: seq<string>, m: map<string, Gathered>) { forall root :: root in m <==> root in order }

  lemma OrderStep(order: seq<string>, m: map<string, Gathered>, row: Row)
    requires Indexes(order, m)
    ensures Indexes(if row.root in order then order else order + [row.root], Added(m, row))
  {
  }

  ghost predicate AllGood(rows: seq<Row>, goodPeer: string -> bool) {
    forall i :: 0 <= i < |rows| ==> GoodRow(rows[i], goodPeer)
  }

  predicate GoodRow(row: Row, goodPeer: string -> bool) { row.peer.Some? ==> goodPeer(row.peer.value) }

  ghost predicate InOrder(order: seq<string>, rows: seq<Row>) { order == Distinctly(Map(RootOf, rows)) }

  lemma OrderGrows(order: seq<string>, rows: seq<Row>, row: Row)
    requires InOrder(order, rows)
    ensures InOrder(if row.root in order then order else order + [row.root], rows + [row])
  {
    var roots := Map(RootOf, rows + [row]);
    assert roots[|rows|] == RootOf(row) && roots[..|rows|] == Map(RootOf, rows) && roots[..|rows| + 1] == roots;
    DistinctlyStep(roots, |rows|);
  }

  method AddRow(order0: seq<string>, m0: map<string, Gathered>, ghost rows: seq<Row>, row: Row)
    returns (order: seq<string>, m: map<string, Gathered>)
    requires InOrder(order0, rows) && Indexes(order0, m0) && GatheredAll(m0, rows)
    ensures InOrder(order, rows + [row]) && Indexes(order, m) && GatheredAll(m, rows + [row])
  {
    GatherStep(m0, rows, row);
    OrderStep(order0, m0, row);
    OrderGrows(order0, rows, row);
    order := if row.root in m0 then order0 else order0 + [row.root];
    m := Added(m0, row);
  }

  method GatherRows(rows: seq<Row>, goodPeer: string -> bool) returns (ok: bool, order: seq<string>, m: map<string, Gathered>)
    ensures ok <==> AllGood(rows, goodPeer)
    ensures ok ==> InOrder(order, rows) && Indexes(order, m) && GatheredAll(m, rows)
  {
    order, m := [], map[];
    for i := 0 to |rows|
      invariant forall j :: 0 <= j < i ==> GoodRow(rows[j], goodPeer)
      invariant InOrder(order, rows[..i]) && Indexes(order, m) && GatheredAll(m, rows[..i])
    {
      if !GoodRow(rows[i], goodPeer) { return false, order, m; }
      assert rows[..i + 1] == rows[..i] + [rows[i]];
      order, m := AddRow(order, m, rows[..i], rows[i]);
    }
    assert rows[..|rows|] == rows;
    return true, order, m;
  }

  // ----- what the rows say, read off the rows themselves

  ghost predicate Mentions(rows: seq<Row>, root: string) { exists i :: 0 <= i < |rows| && rows[i].root == root }

  ghost predicate Names(rows: seq<Row>, root: string, peer: string) {
    exists i :: 0 <= i < |rows| && rows[i].root == root && rows[i].peer == Some(peer)
  }

  ghost predicate EverSeen(rows: seq<Row>, root: string) {
    exists i :: 0 <= i < |rows| && rows[i].root == root && rows[i].seen.Some?
  }

  ghost predicate SeenSince(rows: seq<Row>, root: string, cutoff: int) {
    exists i :: 0 <= i < |rows| && rows[i].root == root && rows[i].seen.Some? && rows[i].seen.value >= cutoff
  }

  /** Some row of `a` stands before every row of `b`. */
  ghost predicate MetBefore(rows: seq<Row>, a: string, b: string) {
    exists i :: 0 <= i < |rows| && rows[i].root == a && forall j :: 0 <= j <= i ==> rows[j].root != b
  }

  /** Active: seen at the cutoff or later. Unknown: never seen at a time. Stale: otherwise. */
  ghost predicate Describes(record: Record, rows: seq<Row>, cutoff: int) {
    && Mentions(rows, record.root)
    && (record.freshness.Active? <==> SeenSince(rows, record.root, cutoff))
    && (record.freshness.Unknown? <==> !EverSeen(rows, record.root))
    && Distinct(record.peers)
    && (forall peer :: peer in record.peers <==> Names(rows, record.root, peer))
  }

  ghost predicate HasRecord(records: seq<Record>, root: string) { exists i :: 0 <= i < |records| && records[i].root == root }

  /** One record per root of the rows, in the order in which the roots are met. */
  ghost predicate Populates(records: seq<Record>, rows: seq<Row>, cutoff: int) {
    && (forall i :: 0 <= i < |records| ==> Describes(records[i], rows, cutoff))
    && (forall root :: Mentions(rows, root) ==> HasRecord(records, root))
    && UniqueRoots(records)
    && (forall i, j :: 0 <= i < j < |records| ==> MetBefore(rows, records[i].root, records[j].root))
  }

  lemma MentionsAppend(rows: seq<Row>, row: Row, root: string, peer: string, cutoff: int)
    ensures var all := rows + [row];
            && (Mentions(all, root) <==> Mentions(rows, root) || row.root == root)
            && (Names(all, root, peer) <==> Names(rows, root, peer) || (row.root == root && row.peer == Some(peer)))
            && (EverSeen(all, root) <==> EverSeen(rows, root) || (row.root == root && row.seen.Some?))
            && (SeenSince(all, root, cutoff) <==>
                  SeenSince(rows, root, cutoff) || (row.root == root && row.seen.Some? && row.seen.value >= cutoff))
  {
    var all := rows + [row];
    assert all[|rows|] == row;
    assert forall i :: 0 <= i < |rows| ==> all[i] == rows[i];
  }

  ghost predicate NewestIs(newest: Option<int>, rows: seq<Row>, root: string, cutoff: int) {
    && (newest.Some? <==> EverSeen(rows, root))
    && (newest.Some? && newest.value >= cutoff <==> SeenSince(rows, root, cutoff))
  }

  lemma {:induction false} GatherMeaning(rows: seq<Row>, root: string, cutoff: int, peer: string)
    ensures NewestIs(Gather(rows, root).newest, rows, root, cutoff)
    ensures peer in Gather(rows, root).peers <==> Names(rows, root, peer)
  {
    if rows != [] {
      var front, last := rows[..|rows| - 1], rows[|rows| - 1];
      GatherMeaning(front, root, cutoff, peer);
      MentionsAppend(front, last, root, peer, cutoff);
      assert rows == front + [last];
    }
  }

  lemma RecordIsDescribed(rows: seq<Row>, cutoff: int, root: string)
    requires Mentions(rows, root)
    ensures Describes(RecordOf(rows, cutoff)(root), rows, cutoff)
  {
    GatheredPeersAreDistinct(rows, root);
    forall peer ensures peer in Gather(rows, root).peers <==> Names(rows, root, peer) { GatherMeaning(rows, root, cutoff, peer); }
    GatherMeaning(rows, root, cutoff, "");
  }

  lemma {:induction false} DistinctlyOrder<T>(s: seq<T>, i: nat, j: nat) returns (k: nat)
    requires i < j < |Distinctly(s)|
    ensures k < |s| && s[k] == Distinctly(s)[i] && forall m :: 0 <= m <= k ==> s[m] != Distinctly(s)[j]
  {
    var front, last := s[..|s| - 1], s[|s| - 1];
    if j < |Distinctly(front)| {
      k := DistinctlyOrder(front, i, j);
      forall m | 0 <= m <= k ensures s[m] != Distinctly(s)[j] { assert s[m] == front[m]; }
    } else {
      assert Distinctly(s)[j] == last && last !in Distinctly(front);
      assert Distinctly(front)[i] in Distinctly(front);
      DistinctlyHolds(front);
      k :| 0 <= k < |front| && front[k] == Distinctly(front)[i];
      forall m | 0 <= m <= k ensures s[m] != last { assert front[m] in front; }
    }
  }

  lemma {:induction false} DistinctlyHolds<T>(s: seq<T>)
    ensures forall i :: 0 <= i < |Distinctly(s)| ==> Distinctly(s)[i] in s
    ensures forall i :: 0 <= i < |s| ==> s[i] in Distinctly(s)
  {
    if s != [] {
      DistinctlyHolds(s[..|s| - 1]);
      assert s == s[..|s| - 1] + [s[|s| - 1]];
    }
  }

  lemma RootsAreMentioned(rows: seq<Row>, root: string)
    ensures root in Distinctly(Map(RootOf, rows)) <==> Mentions(rows, root)
  {
    var roots := Map(RootOf, rows);
    DistinctlyMeaning(roots);
    if root in roots {
      var i :| 0 <= i < |roots| && roots[i] == root;
      assert RootOf(rows[i]) == root;
    }
    if i :| 0 <= i < |rows| && rows[i].root == root { assert roots[i] == RootOf(rows[i]); }
  }

  /** The fold over the rows gives the population that they describe. */
  lemma PopulationIsDescribed(rows: seq<Row>, cutoff: int)
    ensures Populates(PopulationOf(rows, cutoff), rows, cutoff)
  {
    var roots, records := Distinctly(Map(RootOf, rows)), PopulationOf(rows, cutoff);
    PopulationIsCollected(rows, cutoff);
    forall i | 0 <= i < |records| ensures records[i].root == roots[i] && Describes(records[i], rows, cutoff) {
      assert records[i] == RecordOf(rows, cutoff)(roots[i]) && roots[i] in roots;
      RootsAreMentioned(rows, roots[i]);
      RecordIsDescribed(rows, cutoff, roots[i]);
    }
    forall root | Mentions(rows, root) ensures HasRecord(records, root) {
      RootsAreMentioned(rows, root);
      var i :| 0 <= i < |roots| && roots[i] == root;
      assert records[i].root == root;
    }
    forall i, j | 0 <= i < j < |records| ensures MetBefore(rows, records[i].root, records[j].root) {
      var k := DistinctlyOrder(Map(RootOf, rows), i, j);
      assert rows[k].root == RootOf(rows[k]) == records[i].root;
      forall m | 0 <= m <= k ensures rows[m].root != records[j].root { assert Map(RootOf, rows)[m] == RootOf(rows[m]); }
    }
  }

  /** Lines 338 to 350 of extract-rdf.ts, with the freshness of lines 147 to 158; none is a peer that is not canonical. */
  method CollectPopulation(rows: seq<Row>, goodPeer: string -> bool, cutoff: int) returns (r: Option<seq<Record>>)
    ensures r.Some? <==> AllGood(rows, goodPeer)
    ensures r.Some? ==> r.value == PopulationOf(rows, cutoff) && Populates(r.value, rows, cutoff)
  {
    PopulationIsDescribed(rows, cutoff);
    var ok, order, m := GatherRows(rows, goodPeer);
    if !ok { return None; }
    var records: seq<Record> := [];
    for k := 0 to |order|
      invariant records == PopulationOf(rows, cutoff)[..k]
    {
      var root := order[k];
      assert GatheredAt(m, rows, root);
      records := records + [Record(root, m[root].peers, FreshnessOf(m[root].newest, cutoff))];
    }
    return Some(records);
  }

  lemma {:induction false} GatheredPeersAreDistinct(rows: seq<Row>, root: string)
    ensures Distinct(Gather(rows, root).peers)
  {
    if rows != [] { GatheredPeersAreDistinct(rows[..|rows| - 1], root); }
  }

  /** Whatever the rows, every root is collected once, and under it every peer once. */
  lemma PopulationIsCollected(rows: seq<Row>, cutoff: int)
    ensures UniqueRoots(PopulationOf(rows, cutoff))
    ensures forall i :: 0 <= i < |PopulationOf(rows, cutoff)| ==> Distinct(PopulationOf(rows, cutoff)[i].peers)
  {
    var roots := Distinctly(Map(RootOf, rows));
    DistinctlyMeaning(Map(RootOf, rows));
    forall i | 0 <= i < |roots| ensures Distinct(PopulationOf(rows, cutoff)[i].peers) { GatheredPeersAreDistinct(rows, roots[i]); }
  }

  // ----- the deriver

  ghost predicate UniqueRoots(records: seq<Record>) {
    forall i, j :: 0 <= i < j < |records| ==> records[i].root != records[j].root
  }

  function Derived(records: seq<Record>, profiles: seq<Profile>): Summary {
    Summary(|records|, |Elements(AllPeers(records))|, Count(IsActive, records), |profiles|, Count(IsCandidate, profiles),
            Count(IsAmbiguous, profiles), Count(IsStale, records), Count(IsUnknown, records), Count(NoPeers, records),
            |SharedPeers(records)|, Count(ManyPeers, records))
  }

  method RootSet(records: seq<Record>) returns (roots: Option<set<string>>)
    ensures roots.Some? <==> UniqueRoots(records)
    ensures roots.Some? ==> |roots.value| == |records|
  {
    var seen: set<string> := {};
    for i := 0 to |records|
      invariant UniqueRoots(records[..i]) && |seen| == i
      invariant forall root :: root in seen <==> exists j :: 0 <= j < i && records[j].root == root
    {
      if records[i].root in seen { return None; }
      seen := seen + {records[i].root};
    }
    return Some(seen);
  }

  /** Lines 12 to 41 of population.ts; none is a repeated root. */
  method Derive(records: seq<Record>, profiles: seq<Profile>) returns (r: Option<Summary>)
    ensures r.Some? <==> UniqueRoots(records)
    ensures r.Some? ==> r.value == Derived(records, profiles)
  {
    var roots := RootSet(records);
    if roots.None? { return None; }
    var peerToRoots := PeerToRoots(records);
    var duplicates := set peer | peer in peerToRoots && |peerToRoots[peer]| > 1;
    assert duplicates == SharedPeers(records);
    return Some(Summary(|roots.value|, |peerToRoots|, Count(IsActive, records), |profiles|, Count(IsCandidate, profiles),
                        Count(IsAmbiguous, profiles), Count(IsStale, records), Count(IsUnknown, records),
                        Count(NoPeers, records), |duplicates|, Count(ManyPeers, records)));
  }

  // ----- the extractor

  predicate RootLe(a: Record, b: Record) { TextLe(a.root, b.root) }

  function Filter<T>(p: T -> bool, s: seq<T>): seq<T> {
    if s == [] then [] else if p(s[0]) then [s[0]] + Filter(p, s[1..]) else Filter(p, s[1..])
  }

  /** The active records in the order of their roots. */
  function Actives(records: seq<Record>): seq<Record> { Sort(RootLe, Filter(IsActive, records)) }

  /** Every peer of the population once, in text order. */
  function PeerList(records: seq<Record>): seq<string> { Sort(TextLe, Distinctly(AllPeers(records))) }

  function PeerAlias(ordinal: nat): string { PEER + Padded(ordinal) }

  function AliasOf(records: seq<Record>): string -> string {
    (peer: string) => PeerAlias(IndexOf(PeerList(records), peer) + 1)
  }

  /** Lines 365 to 374 of extract-rdf.ts. */
  function DispositionOf(records: seq<Record>, r: Record): Disposition {
    if r.peers == [] then MissingPeer
    else if |r.peers| > 1 then MultiPeerRoot
    else if Shared(records, r.peers[0]) then PeerMultiRoot
    else Candidate
  }

  function KeysOf(records: seq<Record>, r: Record): seq<string> { Sort(TextLe, Map(AliasOf(records), r.peers)) }

  function ProfileOf(records: seq<Record>, ordinal: nat, r: Record): Profile {
    Profile(RECORD + Padded(ordinal), KeysOf(records, r), RootAlias(ordinal), DispositionOf(records, r))
  }

  function Profiles(records: seq<Record>, actives: seq<Record>): seq<Profile> {
    if actives == [] then []
    else Profiles(records, actives[..|actives| - 1]) + [ProfileOf(records, |actives|, actives[|actives| - 1])]
  }

  lemma {:induction false} ProfileCount(records: seq<Record>, actives: seq<Record>)
    ensures |Profiles(records, actives)| == |actives|
  {
    if actives != [] { ProfileCount(records, actives[..|actives| - 1]); }
  }

  lemma {:induction false} ProfileAt(records: seq<Record>, actives: seq<Record>, i: nat)
    requires i < |actives|
    ensures |Profiles(records, actives)| == |actives| && Profiles(records, actives)[i] == ProfileOf(records, i + 1, actives[i])
  {
    ProfileCount(records, actives[..|actives| - 1]);
    if i < |actives| - 1 { ProfileAt(records, actives[..|actives| - 1], i); }
  }

  /** The roots whose detail rows can be used. */
  ghost function UsableIn(source: E.Source): Record -> bool { (r: Record) => E.Usable(source, r.root) }

  function EvidenceIn(source: E.Source): (Record, nat) -> E.Evidence {
    (r: Record, ordinal: nat) => E.EvidenceOf(source, r.root, ordinal)
  }

  /** Each record's evidence, under its ordinal. */
  function Evidences(source: E.Source, records: seq<Record>): seq<E.Evidence> { MapNumbered(EvidenceIn(source), records) }

  method Classify(records: seq<Record>, peerToRoots: map<string, set<string>>, r: Record) returns (disposition: Disposition)
    requires Grouped(peerToRoots, records) && r in records
    ensures disposition == DispositionOf(records, r)
  {
    if |r.peers| == 0 { return MissingPeer; }
    if |r.peers| > 1 { return MultiPeerRoot; }
    PeerIsListed(records, r, r.peers[0]);
    return if |peerToRoots[r.peers[0]]| > 1 then PeerMultiRoot else Candidate;
  }

  lemma ProfilesStep(records: seq<Record>, actives: seq<Record>, i: nat)
    requires i < |actives|
    ensures Profiles(records, actives[..i + 1]) == Profiles(records, actives[..i]) + [ProfileOf(records, i + 1, actives[i])]
  {
    assert actives[..i + 1][..i] == actives[..i];
  }

  /** The profile of one active root and its evidence; none when its detail rows are not usable. */
  method BuildProfile(records: seq<Record>, peerToRoots: map<string, set<string>>, source: E.Source, ordinal: nat, r: Record)
    returns (result: Option<(Profile, E.Evidence)>)
    requires Grouped(peerToRoots, records) && r in records
    ensures result.Some? <==> E.Usable(source, r.root)
    ensures result.Some? ==> result.value == (ProfileOf(records, ordinal, r), E.EvidenceOf(source, r.root, ordinal))
  {
    var evidence := E.BuildEvidence(source, r.root, ordinal);
    if evidence.None? { return None; }
    var disposition := Classify(records, peerToRoots, r);
    return Some((Profile(RECORD + Padded(ordinal), KeysOf(records, r), RootAlias(ordinal), disposition), evidence.value));
  }

  method BuildEach(records: seq<Record>, peerToRoots: map<string, set<string>>, source: E.Source, actives: seq<Record>)
    returns (result: Option<(seq<Profile>, seq<E.Evidence>)>)
    requires Grouped(peerToRoots, records) && forall i :: 0 <= i < |actives| ==> actives[i] in records
    ensures result.Some? <==> Each(UsableIn(source), actives)
    ensures result.Some? ==> result.value == (Profiles(records, actives), Evidences(source, actives))
  {
    var profiles: seq<Profile>, evidence: seq<E.Evidence> := [], [];
    for i := 0 to |actives|
      invariant Each(UsableIn(source), actives[..i])
      invariant profiles == Profiles(records, actives[..i])
      invariant evidence == Evidences(source, actives[..i])
    {
      EachStep(UsableIn(source), actives, i);
      ProfilesStep(records, actives, i);
      MapNumberedStep(EvidenceIn(source), actives, i);
      var profile := BuildProfile(records, peerToRoots, source, i + 1, actives[i]);
      if profile.None? { return None; }
      profiles, evidence := profiles + [profile.value.0], evidence + [profile.value.1];
    }
    assert actives[..|actives|] == actives;
    return Some((profiles, evidence));
  }

  /** Lines 200 to 336 of extract-rdf.ts; none when an active root's detail rows are not usable. */
  method BuildProfiles(records: seq<Record>, source: E.Source) returns (result: Option<(seq<Profile>, seq<E.Evidence>)>)
    ensures result.Some? <==> Each(UsableIn(source), Actives(records))
    ensures result.Some? ==> result.value == (Extracted(records), Evidences(source, Actives(records)))
  {
    var peerToRoots := PeerToRoots(records);
    var actives := Actives(records);
    forall i | 0 <= i < |actives| ensures actives[i] in records { ActiveIsRecord(records, i); }
    result := BuildEach(records, peerToRoots, source, actives);
  }

  lemma PeerIsListed(records: seq<Record>, r: Record, peer: string)
    requires r in records && peer in r.peers
    ensures peer in AllPeers(records)
  {
    var i :| 0 <= i < |records| && records[i] == r;
    AllPeersMeaning(records, peer);
  }

  lemma {:induction false} FilterMeaning<T>(p: T -> bool, s: seq<T>)
    ensures |Filter(p, s)| == Count(p, s)
    ensures forall x :: x in Filter(p, s) ==> x in s && p(x)
  {
    if s != [] { FilterMeaning(p, s[1..]); }
  }

  lemma ActiveIsRecord(records: seq<Record>, i: nat)
    requires i < |Actives(records)|
    ensures Actives(records)[i] in records && IsActive(Actives(records)[i])
  {
    FilterMeaning(IsActive, records);
    SortPermutes(RootLe, Filter(IsActive, records));
    assert Actives(records)[i] in Actives(records);
  }

  // ----- the validators

  /** The ordinal of a canonical alias: read back and written again it is the same text. */
  function Ordinal(prefix: string, s: string): Option<nat> {
    if !(prefix <= s) then None
    else
      var n := Value(s[|prefix|..], 10);
      if 1 <= n <= MAX_SAFE_INTEGER && s[|prefix|..] == Padded(n) then Some(n) else None
  }

  lemma OrdinalRoundTrip(prefix: string, n: nat)
    requires 1 <= n <= MAX_SAFE_INTEGER
    ensures Ordinal(prefix, prefix + Padded(n)) == Some(n)
  {
    PaddedRoundTrip(n);
    assert (prefix + Padded(n))[|prefix|..] == Padded(n);
  }

  predicate PeerCountFits(p: Profile) {
    match p.disposition
    case MissingPeer => |p.peerKeys| == 0
    case MultiPeerRoot => |p.peerKeys| >= 2
    case _ => |p.peerKeys| == 1
  }

  predicate IsPeerAlias(s: string) { Ordinal(PEER, s).Some? }

  predicate GoodKey(keys: seq<string>, i: nat)
    requires i < |keys|
  {
    E.InPlace(keys, i) && IsPeerAlias(keys[i])
  }

  ghost predicate GoodKeys(keys: seq<string>) { forall i :: 0 <= i < |keys| ==> GoodKey(keys, i) }

  predicate MatchingRoot(p: Profile) {
    var n := Ordinal(RECORD, p.recordId); n.Some? && p.rootSubject == RootAlias(n.value)
  }

  ghost predicate GoodProfile(p: Profile) { MatchingRoot(p) && GoodKeys(p.peerKeys) && PeerCountFits(p) }

  method CheckKeys(keys: seq<string>) returns (ok: bool)
    ensures ok <==> GoodKeys(keys)
  {
    for i := 0 to |keys|
      invariant forall j :: 0 <= j < i ==> GoodKey(keys, j)
    {
      if !GoodKey(keys, i) { return false; }
    }
    return true;
  }

  /** Lines 1185 to 1341 of model.ts, with lines 1561 to 1570. */
  method CheckProfile(kinds: string -> Classifier, p: Profile, evidence: E.Evidence) returns (ok: bool)
    ensures ok <==> Sound(kinds, p, evidence)
  {
    ok := CheckKeys(p.peerKeys);
    if !ok || !MatchingRoot(p) || !PeerCountFits(p) { return false; }
    ok := E.CheckEvidence(kinds(p.rootSubject), p.rootSubject, evidence);
  }

  /** A profile and its evidence are good under the given reading of redacted subjects. */
  ghost predicate Sound(kinds: string -> Classifier, p: Profile, evidence: E.Evidence) {
    GoodProfile(p) && E.GoodEvidence(kinds(p.rootSubject), p.rootSubject, evidence)
  }

  function Owning(key: string): Profile -> bool { (p: Profile) => key in p.peerKeys }

  /** How many profiles list the key. */
  function Owners(profiles: seq<Profile>, key: string): nat { Count(Owning(key), profiles) }

  ghost predicate NoSharedCandidate(profiles: seq<Profile>) {
    forall i, key :: 0 <= i < |profiles| && IsCandidate(profiles[i]) && key in profiles[i].peerKeys ==> Owners(profiles, key) <= 1
  }

  ghost predicate DifferentRoots(profiles: seq<Profile>) {
    forall i, j :: 0 <= i < j < |profiles| ==> profiles[i].rootSubject != profiles[j].rootSubject
  }

  ghost predicate GoodSet(profiles: seq<Profile>) {
    && (forall i :: 0 <= i < |profiles| ==> profiles[i].recordId == RECORD + Padded(i + 1))
    && DifferentRoots(profiles)
    && NoSharedCandidate(profiles)
  }

  function AllKeys(profiles: seq<Profile>): set<string> {
    set p, key | p in profiles && key in p.peerKeys :: key
  }

  /** Keys that several active profiles list, or that a profile is marked to share. */
  function ActiveDuplicates(profiles: seq<Profile>): set<string> {
    (set key | key in AllKeys(profiles) && Owners(profiles, key) > 1)
    + (set p, key | p in profiles && p.disposition.PeerMultiRoot? && key in p.peerKeys :: key)
  }

  predicate AmongPeers(v: Summary, key: string) {
    var n := Ordinal(PEER, key); (if n.Some? then n.value else MAX_SAFE_INTEGER) <= v.observedPeerKeys
  }

  /** Lines 1485 to 1546 of model.ts. */
  predicate GoodPopulation(v: Summary, profiles: seq<Profile>) {
    var candidates := Count(IsCandidate, profiles);
    && v.activeProfiles == |profiles| && v.activeRoots == |profiles|
    && v.candidateProfiles == candidates && v.ambiguousProfiles == |profiles| - candidates
    && |AllKeys(profiles)| <= v.observedPeerKeys
    && (forall key :: key in AllKeys(profiles) ==> AmongPeers(v, key))
    && v.missingPeerRoots >= Count(IsMissing, profiles)
    && v.sharedRootSubjects >= Count(IsMulti, profiles)
    && v.duplicatePeerKeys >= |ActiveDuplicates(profiles)|
    && v.duplicatePeerKeys <= v.observedPeerKeys
    && v.missingPeerRoots + v.sharedRootSubjects <= v.observedRoots
    && v.activeRoots + v.staleProfiles + v.unknownFreshnessProfiles == v.observedRoots
  }

  /** The profiles under each key, in order; lines 1368 to 1372 and lines 1511 to 1516 of model.ts. */
  ghost predicate Listed(m: map<string, seq<Profile>>, profiles: seq<Profile>) {
    && (forall key :: key in m <==> key in AllKeys(profiles))
    && (forall key :: key in m ==> m[key] == Filter(Owning(key), profiles))
  }

  method OwnersByKey(profiles: seq<Profile>) returns (m: map<string, seq<Profile>>)
    requires DistinctPeerKeys(profiles)
    ensures Listed(m, profiles)
  {
    m := map[];
    for i := 0 to |profiles|
      invariant Listed(m, profiles[..i])
    {
      assert profiles[..i + 1] == profiles[..i] + [profiles[i]];
      m := AddProfile(m, profiles[..i], profiles[i]);
    }
    assert profiles[..|profiles|] == profiles;
  }

  method AddProfile(m0: map<string, seq<Profile>>, ghost profiles: seq<Profile>, p: Profile) returns (m: map<string, seq<Profile>>)
    requires Listed(m0, profiles) && Distinct(p.peerKeys)
    ensures Listed(m, profiles + [p])
  {
    m := m0;
    for j := 0 to |p.peerKeys|
      invariant forall key :: key in m <==> key in m0 || key in p.peerKeys[..j]
      invariant forall key :: key in m ==> m[key] == Longer(m0, p, p.peerKeys[..j], key)
    {
      var key := p.peerKeys[j];
      assert p.peerKeys[..j + 1] == p.peerKeys[..j] + [key];
      assert key !in p.peerKeys[..j];
      m := m[key := (if key in m then m[key] else []) + [p]];
    }
    assert p.peerKeys[..|p.peerKeys|] == p.peerKeys;
    ghost var all := profiles + [p];
    forall key ensures key in m <==> key in AllKeys(all) { KeysGrow(profiles, p, key); }
    forall key | key in m ensures m[key] == Filter(Owning(key), all) { OwnersGrow(m0, profiles, p, key); }
  }

  lemma KeysGrow(profiles: seq<Profile>, p: Profile, key: string)
    ensures key in AllKeys(profiles + [p]) <==> key in AllKeys(profiles) || key in p.peerKeys
  {
    var all := profiles + [p];
    assert all[|profiles|] == p && p in all;
    assert forall q :: q in all <==> q in profiles || q == p;
  }

  ghost function Longer(m: map<string, seq<Profile>>, p: Profile, keys: seq<string>, key: string): seq<Profile> {
    (if key in m then m[key] else []) + (if key in keys then [p] else [])
  }

  lemma OwnersGrow(m: map<string, seq<Profile>>, profiles: seq<Profile>, p: Profile, key: string)
    requires Listed(m, profiles)
    ensures Longer(m, p, p.peerKeys, key) == Filter(Owning(key), profiles + [p])
  {
    FilterConcat(Owning(key), profiles, [p]);
    if key !in m { NoOwner(profiles, key); }
  }

  lemma {:induction false} FilterConcat<T>(p: T -> bool, a: seq<T>, b: seq<T>)
    ensures Filter(p, a + b) == Filter(p, a) + Filter(p, b)
  {
    if a == [] {
      assert a + b == b;
    } else {
      FilterConcat(p, a[1..], b);
      assert (a + b)[1..] == a[1..] + b && (a + b)[0] == a[0];
      assert [a[0]] + (Filter(p, a[1..]) + Filter(p, b)) == [a[0]] + Filter(p, a[1..]) + Filter(p, b);
    }
  }

  lemma {:induction false} NoOwner(profiles: seq<Profile>, key: string)
    requires key !in AllKeys(profiles)
    ensures Filter(Owning(key), profiles) == []
  {
    if profiles != [] {
      assert profiles[0] in profiles;
      assert forall p :: p in profiles[1..] ==> p in profiles;
      NoOwner(profiles[1..], key);
    }
  }

  lemma {:induction false} GoodKeysAreDistinct(keys: seq<string>, i: nat, j: nat)
    requires GoodKeys(keys) && i < j < |keys|
    ensures TextLess(keys[i], keys[j]) && keys[i] != keys[j]
    decreases j
  {
    assert GoodKey(keys, j);
    if i + 1 < j {
      GoodKeysAreDistinct(keys, i, j - 1);
      TextTransitive(keys[i], keys[j - 1], keys[j]);
    }
    TextTrichotomy(keys[i], keys[j]);
  }

  lemma KeysOfGood(profiles: seq<Profile>)
    requires forall i :: 0 <= i < |profiles| ==> GoodProfile(profiles[i])
    ensures DistinctPeerKeys(profiles)
  {
    forall i | 0 <= i < |profiles| ensures Distinct(profiles[i].peerKeys) {
      var keys := profiles[i].peerKeys;
      forall a, b | 0 <= a < b < |keys| ensures keys[a] != keys[b] { GoodKeysAreDistinct(keys, a, b); }
    }
  }

  method RecordsInOrder(profiles: seq<Profile>) returns (ok: bool)
    ensures ok <==> && (forall i :: 0 <= i < |profiles| ==> profiles[i].recordId == RECORD + Padded(i + 1))
                    && DifferentRoots(profiles)
  {
    var roots: set<string> := {};
    for i := 0 to |profiles|
      invariant forall j :: 0 <= j < i ==> profiles[j].recordId == RECORD + Padded(j + 1)
      invariant forall j, k :: 0 <= j < k < i ==> profiles[j].rootSubject != profiles[k].rootSubject
      invariant forall root :: root in roots <==> exists j :: 0 <= j < i && profiles[j].rootSubject == root
    {
      if profiles[i].recordId != RECORD + Padded(i + 1) { return false; }
      if profiles[i].rootSubject in roots { return false; }
      roots := roots + {profiles[i].rootSubject};
    }
    return true;
  }

  ghost predicate DistinctPeerKeys(profiles: seq<Profile>) {
    forall i :: 0 <= i < |profiles| ==> Distinct(profiles[i].peerKeys)
  }

  /** Lines 1374 to 1378 of model.ts. */
  method CandidateShared(profiles: seq<Profile>) returns (shared: bool)
    requires DistinctPeerKeys(profiles)
    ensures shared <==> !NoSharedCandidate(profiles)
  {
    var owners := OwnersByKey(profiles);
    OwnersDecide(owners, profiles);
    return exists key :: key in owners.Keys && |owners[key]| > 1 && exists p :: p in owners[key] && IsCandidate(p);
  }

  /** Lines 1353 to 1379 of model.ts, on profiles whose keys were checked. */
  method CheckProfileSet(profiles: seq<Profile>) returns (ok: bool)
    requires DistinctPeerKeys(profiles)
    ensures ok <==> GoodSet(profiles)
  {
    ok := RecordsInOrder(profiles);
    if !ok { return false; }
    var shared := CandidateShared(profiles);
    return !shared;
  }

  lemma OwnersDecide(owners: map<string, seq<Profile>>, profiles: seq<Profile>)
    requires Listed(owners, profiles)
    ensures !NoSharedCandidate(profiles) <==>
            exists key :: key in owners.Keys && |owners[key]| > 1 && exists p :: p in owners[key] && IsCandidate(p)
  {
    forall key | key in owners.Keys
      ensures |owners[key]| == Owners(profiles, key)
      ensures forall p :: p in owners[key] <==> p in profiles && key in p.peerKeys
    {
      FilterMeaning(Owning(key), profiles);
      FilterFinds(Owning(key), profiles);
    }
    if NoSharedCandidate(profiles) {
      forall key, p | key in owners.Keys && p in owners[key] && IsCandidate(p) ensures |owners[key]| <= 1 {
        var i :| 0 <= i < |profiles| && profiles[i] == p;
        assert IsCandidate(profiles[i]) && key in profiles[i].peerKeys;
      }
    } else {
      var i, key :| 0 <= i < |profiles| && IsCandidate(profiles[i]) && key in profiles[i].peerKeys && Owners(profiles, key) > 1;
      assert key in AllKeys(profiles) && profiles[i] in owners[key];
    }
  }

  lemma {:induction false} FilterFinds<T>(p: T -> bool, s: seq<T>)
    ensures forall x :: x in s && p(x) ==> x in Filter(p, s)
  {
    if s != [] { FilterFinds(p, s[1..]); }
  }

  /** Lines 1508 to 1525 of model.ts. */
  method KeysAndDuplicates(profiles: seq<Profile>) returns (keys: set<string>, duplicates: set<string>)
    requires DistinctPeerKeys(profiles)
    ensures keys == AllKeys(profiles) && duplicates == ActiveDuplicates(profiles)
  {
    var owners := OwnersByKey(profiles);
    keys := owners.Keys;
    var repeated := set key | key in owners && |owners[key]| > 1;
    var marked := set p, key | p in profiles && p.disposition.PeerMultiRoot? && key in p.peerKeys :: key;
    forall key | key in owners ensures |owners[key]| == Owners(profiles, key) { FilterMeaning(Owning(key), profiles); }
    assert repeated == set key | key in AllKeys(profiles) && Owners(profiles, key) > 1;
    duplicates := repeated + marked;
  }

  /** Lines 1485 to 1546 of model.ts, on profiles whose keys were checked. */
  method CheckPopulation(v: Summary, profiles: seq<Profile>) returns (ok: bool)
    requires DistinctPeerKeys(profiles)
    ensures ok <==> GoodPopulation(v, profiles)
  {
    var candidates := Count(IsCandidate, profiles);
    if v.activeProfiles != |profiles| || v.activeRoots != |profiles| { return false; }
    if v.candidateProfiles != candidates || v.ambiguousProfiles != |profiles| - candidates { return false; }
    var keys, duplicates := KeysAndDuplicates(profiles);
    if |keys| > v.observedPeerKeys || exists key :: key in keys && !AmongPeers(v, key) { return false; }
    if v.missingPeerRoots < Count(IsMissing, profiles) || v.sharedRootSubjects < Count(IsMulti, profiles)
       || v.duplicatePeerKeys < |duplicates| { return false; }
    if v.duplicatePeerKeys > v.observedPeerKeys || v.missingPeerRoots + v.sharedRootSubjects > v.observedRoots { return false; }
    return v.activeRoots + v.staleProfiles + v.unknownFreshnessProfiles == v.observedRoots;
  }

  // ----- what the extractor builds, the validators accept

  /** A population as it is collected: every root once, and under it every peer once. */
  ghost predicate Collected(records: seq<Record>) {
    && UniqueRoots(records)
    && (forall i :: 0 <= i < |records| ==> Distinct(records[i].peers))
    && |records| <= MAX_SAFE_INTEGER && |AllPeers(records)| <= MAX_SAFE_INTEGER
  }

  lemma PeerListMeaning(records: seq<Record>)
    ensures Distinct(PeerList(records)) && |PeerList(records)| == |Elements(AllPeers(records))| <= |AllPeers(records)|
    ensures forall peer :: peer in PeerList(records) <==> peer in AllPeers(records)
  {
    var all := AllPeers(records);
    DistinctlyMeaning(all);
    SortPermutes(TextLe, Distinctly(all));
    DistinctKeysContents((s: string) => s, Distinctly(all), PeerList(records));
    DistinctCardinality(PeerList(records));
    assert Elements(PeerList(records)) == Elements(all);
    ElementsAtMost(all);
  }

  lemma PeerFound(records: seq<Record>, peer: string)
    requires peer in AllPeers(records)
    ensures IndexOf(PeerList(records), peer) < |PeerList(records)| <= |AllPeers(records)|
    ensures PeerList(records)[IndexOf(PeerList(records), peer)] == peer
  {
    PeerListMeaning(records);
    IndexOfFinds(PeerList(records), peer);
  }

  lemma AliasOrdinal(records: seq<Record>, peer: string)
    requires IndexOf(PeerList(records), peer) < MAX_SAFE_INTEGER
    ensures Ordinal(PEER, AliasOf(records)(peer)) == Some(IndexOf(PeerList(records), peer) + 1)
  {
    var alias, n := AliasOf(records)(peer), IndexOf(PeerList(records), peer) + 1;
    assert alias == PEER + Padded(n) by { AliasText(records, peer); }
    OrdinalOf(alias, n);
  }

  lemma OrdinalOf(alias: string, n: nat)
    requires 1 <= n <= MAX_SAFE_INTEGER && alias == PEER + Padded(n)
    ensures Ordinal(PEER, alias) == Some(n)
  {
    OrdinalRoundTrip(PEER, n);
  }

  lemma PeerOrdinal(records: seq<Record>, peer: string)
    requires peer in AllPeers(records) && |AllPeers(records)| <= MAX_SAFE_INTEGER
    ensures IndexOf(PeerList(records), peer) < |PeerList(records)| && PeerList(records)[IndexOf(PeerList(records), peer)] == peer
    ensures Ordinal(PEER, AliasOf(records)(peer)) == Some(IndexOf(PeerList(records), peer) + 1)
  {
    PeerFound(records, peer);
    AliasOrdinal(records, peer);
  }

  lemma AliasText(records: seq<Record>, peer: string)
    ensures AliasOf(records)(peer) == PEER + Padded(IndexOf(PeerList(records), peer) + 1)
  {
  }

  lemma KeyMeaning(records: seq<Record>, r: Record, key: string)
    ensures key in KeysOf(records, r) <==> exists i :: 0 <= i < |r.peers| && AliasOf(records)(r.peers[i]) == key
  {
    var keys := Map(AliasOf(records), r.peers);
    SortPermutes(TextLe, keys);
    if key in keys {
      var i :| 0 <= i < |keys| && keys[i] == key;
      assert AliasOf(records)(r.peers[i]) == key;
    }
    if i :| 0 <= i < |r.peers| && AliasOf(records)(r.peers[i]) == key { assert keys[i] == key; }
  }

  lemma KeysAreDistinct(records: seq<Record>, r: Record)
    requires r in records && Distinct(r.peers) && |AllPeers(records)| <= MAX_SAFE_INTEGER
    ensures Distinct(Map(AliasOf(records), r.peers))
    ensures forall i :: 0 <= i < |r.peers| ==> Map(AliasOf(records), r.peers)[i] != ""
  {
    var keys := Map(AliasOf(records), r.peers);
    forall i, j | 0 <= i < j < |keys| ensures keys[i] != keys[j] {
      PeerIsListed(records, r, r.peers[i]);
      PeerIsListed(records, r, r.peers[j]);
      PeerOrdinal(records, r.peers[i]);
      PeerOrdinal(records, r.peers[j]);
    }
    forall i | 0 <= i < |r.peers| ensures keys[i] != "" {
      assert keys[i] == PEER + Padded(IndexOf(PeerList(records), r.peers[i]) + 1);
    }
  }

  lemma ExtractedProfileIsGood(records: seq<Record>, n: nat, r: Record)
    requires Collected(records) && r in records && Distinct(r.peers) && 1 <= n <= MAX_SAFE_INTEGER
    ensures GoodProfile(ProfileOf(records, n, r))
  {
    var p := ProfileOf(records, n, r);
    OrdinalRoundTrip(RECORD, n);
    KeysAreDistinct(records, r);
    SortPermutes(TextLe, Map(AliasOf(records), r.peers));
    E.SortedAndDistinct(Map(AliasOf(records), r.peers));
    forall i | 0 <= i < |p.peerKeys| ensures GoodKey(p.peerKeys, i) {
      assert E.InPlace(p.peerKeys, i);
      assert p.peerKeys[i] in KeysOf(records, r);
      KeyMeaning(records, r, p.peerKeys[i]);
      var k :| 0 <= k < |r.peers| && AliasOf(records)(r.peers[k]) == p.peerKeys[i];
      PeerIsListed(records, r, r.peers[k]);
      PeerOrdinal(records, r.peers[k]);
    }
  }

  // ----- counting

  lemma {:induction false} CountFiltered<T>(p: T -> bool, q: T -> bool, s: seq<T>)
    ensures Count(q, Filter(p, s)) <= Count(q, s)
  {
    if s != [] {
      CountFiltered(p, q, s[1..]);
      CountConcat(q, [s[0]], Filter(p, s[1..]));
    }
  }

  /** Predicates of which exactly one holds split the count. */
  lemma {:induction false} FreshnessCounts(records: seq<Record>)
    ensures Count(IsActive, records) + Count(IsStale, records) + Count(IsUnknown, records) == |records|
    ensures Count(NoPeers, records) + Count(ManyPeers, records) <= |records|
  {
    if records != [] { FreshnessCounts(records[1..]); }
  }

  lemma {:induction false} CandidateCounts(profiles: seq<Profile>)
    ensures Count(IsCandidate, profiles) + Count(IsAmbiguous, profiles) == |profiles|
  {
    if profiles != [] { CandidateCounts(profiles[1..]); }
  }

  lemma {:induction false} CountTwo<T>(p: T -> bool, s: seq<T>) returns (i: nat, j: nat)
    requires Count(p, s) >= 2
    ensures i < j < |s| && p(s[i]) && p(s[j])
  {
    if p(s[0]) {
      i := 0;
      j := CountOne(p, s[1..]);
      j := j + 1;
    } else {
      i, j := CountTwo(p, s[1..]);
      i, j := i + 1, j + 1;
    }
  }

  lemma {:induction false} CountOne<T>(p: T -> bool, s: seq<T>) returns (i: nat)
    requires Count(p, s) >= 1
    ensures i < |s| && p(s[i])
  {
    if p(s[0]) { i := 0; } else { i := CountOne(p, s[1..]); i := i + 1; }
  }

  lemma {:induction false} DispositionCounts(records: seq<Record>, actives: seq<Record>)
    requires forall i :: 0 <= i < |actives| ==> Distinct(actives[i].peers)
    ensures Count(IsMissing, Profiles(records, actives)) == Count(NoPeers, actives)
    ensures Count(IsMulti, Profiles(records, actives)) == Count(ManyPeers, actives)
  {
    if actives != [] {
      var n := |actives| - 1;
      DispositionCounts(records, actives[..n]);
      DistinctCardinality(actives[n].peers);
      var profiles := Profiles(records, actives);
      assert profiles[..|profiles| - 1] == Profiles(records, actives[..n]);
      CountLast(IsMissing, profiles);
      CountLast(IsMulti, profiles);
      CountLast(NoPeers, actives);
      CountLast(ManyPeers, actives);
    }
  }

  lemma ActiveAt(records: seq<Record>, i: nat)
    requires Collected(records) && i < |Actives(records)|
    ensures Actives(records)[i] in records && Distinct(Actives(records)[i].peers)
  {
    ActiveIsRecord(records, i);
    var k :| 0 <= k < |records| && records[k] == Actives(records)[i];
  }

  lemma ActiveCounts(records: seq<Record>)
    requires Collected(records)
    ensures |Actives(records)| == Count(IsActive, records)
    ensures Count(NoPeers, Actives(records)) <= Count(NoPeers, records)
    ensures Count(ManyPeers, Actives(records)) <= Count(ManyPeers, records)
  {
    FilterMeaning(IsActive, records);
    SortPermutes(RootLe, Filter(IsActive, records));
    CountSort(RootLe, NoPeers, Filter(IsActive, records));
    CountSort(RootLe, ManyPeers, Filter(IsActive, records));
    CountFiltered(IsActive, NoPeers, records);
    CountFiltered(IsActive, ManyPeers, records);
  }

  /** Two active records are two records. */
  lemma {:induction false} FilterKeepsRoots(records: seq<Record>)
    requires UniqueRoots(records)
    ensures DistinctKeys((r: Record) => r.root, Filter(IsActive, records))
  {
    if records != [] {
      FilterKeepsRoots(records[1..]);
      FilterMeaning(IsActive, records[1..]);
      var rest := Filter(IsActive, records[1..]);
      forall j | 0 <= j < |rest| ensures rest[j].root != records[0].root {
        assert rest[j] in records[1..];
      }
    }
  }

  lemma ActiveRootsDiffer(records: seq<Record>)
    requires UniqueRoots(records)
    ensures UniqueRoots(Actives(records))
  {
    FilterKeepsRoots(records);
    SortPermutes(RootLe, Filter(IsActive, records));
    DistinctKeysContents((r: Record) => r.root, Filter(IsActive, records), Actives(records));
  }

  // ----- the theorem

  function Extracted(records: seq<Record>): seq<Profile> { Profiles(records, Actives(records)) }

  /** The peer that a key of the extracted profiles stands for. */
  ghost function PeerFor(records: seq<Record>, key: string): string {
    var n := Ordinal(PEER, key);
    if n.Some? && n.value <= |PeerList(records)| then PeerList(records)[n.value - 1] else ""
  }

  lemma KeyOfProfile(records: seq<Record>, i: nat, key: string)
    requires Collected(records) && i < |Actives(records)| == |Extracted(records)| && key in Extracted(records)[i].peerKeys
    ensures PeerFor(records, key) in Actives(records)[i].peers && PeerFor(records, key) in AllPeers(records)
    ensures Ordinal(PEER, key).Some? && Ordinal(PEER, key).value <= |PeerList(records)|
  {
    ProfileAt(records, Actives(records), i);
    ActiveIsRecord(records, i);
    var r := Actives(records)[i];
    KeyMeaning(records, r, key);
    var k :| 0 <= k < |r.peers| && AliasOf(records)(r.peers[k]) == key;
    PeerIsListed(records, r, r.peers[k]);
    KeyOfPeer(records, r.peers[k], key);
  }

  lemma KeyOfPeer(records: seq<Record>, peer: string, key: string)
    requires peer in AllPeers(records) && |AllPeers(records)| <= MAX_SAFE_INTEGER && key == AliasOf(records)(peer)
    ensures PeerFor(records, key) == peer
    ensures Ordinal(PEER, key).Some? && Ordinal(PEER, key).value <= |PeerList(records)|
  {
    PeerOrdinal(records, peer);
    PeerForIs(records, key, peer, IndexOf(PeerList(records), peer));
  }

  lemma PeerForIs(records: seq<Record>, key: string, peer: string, index: nat)
    requires index < |PeerList(records)| && PeerList(records)[index] == peer && Ordinal(PEER, key) == Some(index + 1)
    ensures PeerFor(records, key) == peer
  {
  }

  lemma SamePeerSameKey(records: seq<Record>, a: string, b: string)
    requires var (m, n) := (Ordinal(PEER, a), Ordinal(PEER, b));
             m.Some? && n.Some? && m.value <= |PeerList(records)| && n.value <= |PeerList(records)|
    requires PeerFor(records, a) == PeerFor(records, b)
    ensures a == b
  {
    PeerListMeaning(records);
    OrdinalDetermines(PEER, a, b);
  }

  lemma OrdinalDetermines(prefix: string, a: string, b: string)
    requires Ordinal(prefix, a).Some? && Ordinal(prefix, b).Some?
    ensures Ordinal(prefix, a) == Ordinal(prefix, b) ==> a == b
  {
    assert a == prefix + a[|prefix|..] && b == prefix + b[|prefix|..];
  }

  /** A key that two extracted profiles list stands for a peer that two roots share. */
  lemma OwnersShare(records: seq<Record>, key: string)
    requires Collected(records) && Owners(Extracted(records), key) > 1
    ensures Shared(records, PeerFor(records, key))
  {
    var actives, profiles := Actives(records), Extracted(records);
    ProfileCount(records, actives);
    var i, j := CountTwo(Owning(key), profiles);
    KeyOfProfile(records, i, key);
    KeyOfProfile(records, j, key);
    ActiveIsRecord(records, i);
    ActiveIsRecord(records, j);
    ActiveRootsDiffer(records);
    TwoRootsShare(records, actives[i], actives[j], PeerFor(records, key));
  }

  lemma SinglePeer(records: seq<Record>, i: nat, key: string)
    requires Collected(records) && i < |Actives(records)| == |Extracted(records)| && key in Extracted(records)[i].peerKeys
    ensures Extracted(records)[i].disposition.Candidate? ==> !Shared(records, PeerFor(records, key))
    ensures Extracted(records)[i].disposition.PeerMultiRoot? ==> Shared(records, PeerFor(records, key))
  {
    ProfileAt(records, Actives(records), i);
    KeyOfProfile(records, i, key);
    DispositionMeaning(records, Actives(records)[i], PeerFor(records, key));
  }

  lemma DispositionMeaning(records: seq<Record>, r: Record, peer: string)
    requires peer in r.peers
    ensures DispositionOf(records, r).Candidate? ==> !Shared(records, peer)
    ensures DispositionOf(records, r).PeerMultiRoot? ==> Shared(records, peer)
  {
  }

  lemma CandidatesAreNotShared(records: seq<Record>)
    requires Collected(records)
    ensures NoSharedCandidate(Extracted(records))
  {
    var profiles := Extracted(records);
    ProfileCount(records, Actives(records));
    forall i, key | 0 <= i < |profiles| && IsCandidate(profiles[i]) && key in profiles[i].peerKeys
      ensures Owners(profiles, key) <= 1
    {
      SinglePeer(records, i, key);
      if Owners(profiles, key) > 1 { OwnersShare(records, key); }
    }
  }

  lemma ExtractedRecordId(records: seq<Record>, i: nat)
    requires i < |Actives(records)|
    ensures |Extracted(records)| == |Actives(records)| && Extracted(records)[i].recordId == RECORD + Padded(i + 1)
  {
    ProfileAt(records, Actives(records), i);
  }

  lemma ExtractedRoot(records: seq<Record>, i: nat)
    requires i < |Actives(records)|
    ensures |Extracted(records)| == |Actives(records)| && Extracted(records)[i].rootSubject == RootAlias(i + 1)
  {
    ProfileAt(records, Actives(records), i);
  }

  lemma ActiveBound(records: seq<Record>)
    requires Collected(records)
    ensures |Actives(records)| <= MAX_SAFE_INTEGER
  {
    ActiveCounts(records);
    CountAtMostAll(IsActive, records);
  }

  ghost predicate NumberedRoots(profiles: seq<Profile>) {
    forall i :: 0 <= i < |profiles| ==> profiles[i].rootSubject == RootAlias(i + 1)
  }

  lemma NumberedRootsDiffer(profiles: seq<Profile>)
    requires |profiles| <= MAX_SAFE_INTEGER && NumberedRoots(profiles)
    ensures DifferentRoots(profiles)
  {
    forall i, j | 0 <= i < j < |profiles| ensures profiles[i].rootSubject != profiles[j].rootSubject {
      RootAliasesDiffer(i + 1, j + 1);
    }
  }

  lemma ExtractedRoots(records: seq<Record>)
    ensures NumberedRoots(Extracted(records))
  {
    ProfileCount(records, Actives(records));
    forall i | 0 <= i < |Extracted(records)| ensures Extracted(records)[i].rootSubject == RootAlias(i + 1) { ExtractedRoot(records, i); }
  }

  lemma ExtractedSetIsGood(records: seq<Record>)
    requires Collected(records)
    ensures GoodSet(Extracted(records))
  {
    var profiles := Extracted(records);
    ProfileCount(records, Actives(records));
    forall i | 0 <= i < |profiles| ensures profiles[i].recordId == RECORD + Padded(i + 1) { ExtractedRecordId(records, i); }
    ActiveBound(records);
    ExtractedRoots(records);
    NumberedRootsDiffer(profiles);
    CandidatesAreNotShared(records);
  }

  lemma RootAliasesDiffer(m: nat, n: nat)
    requires m != n && m <= MAX_SAFE_INTEGER && n <= MAX_SAFE_INTEGER
    ensures RootAlias(m) != RootAlias(n)
  {
    SixteenToGrows(14, ROOT_DIGITS);
    assert SixteenTo(14) > MAX_SAFE_INTEGER;
    FixedRoundTrip16(m, ROOT_DIGITS);
    FixedRoundTrip16(n, ROOT_DIGITS);
    SuffixOfAgent(m);
    SuffixOfAgent(n);
  }

  lemma SuffixOfAgent(n: nat)
    ensures RootAlias(n)[|AGENT|..] == Fixed(n, 16, ROOT_DIGITS)
  {
  }

  lemma {:induction false} SixteenToGrows(m: nat, n: nat)
    requires m <= n
    ensures SixteenTo(m) <= SixteenTo(n)
  {
    if m < n { SixteenToGrows(m, n - 1); }
  }

  lemma KeysAreFewerThanPeers(records: seq<Record>, keys: set<string>, peers: set<string>)
    requires Collected(records)
    requires forall key :: key in keys ==> ValidKey(records, key) && PeerFor(records, key) in peers
    ensures |keys| <= |peers|
  {
    var f := map key | key in keys :: PeerFor(records, key);
    forall a, b | a in keys && b in keys && f[a] == f[b] ensures a == b {
      assert ValidKey(records, a) && ValidKey(records, b);
      SamePeerSameKey(records, a, b);
    }
    InjectionSize(keys, peers, f);
  }

  ghost predicate ValidKey(records: seq<Record>, key: string) {
    var n := Ordinal(PEER, key); n.Some? && n.value <= |PeerList(records)|
  }

  lemma KeyIsValid(records: seq<Record>, key: string)
    requires Collected(records) && key in AllKeys(Extracted(records))
    ensures ValidKey(records, key) && PeerFor(records, key) in AllPeers(records)
  {
    var profiles := Extracted(records);
    ProfileCount(records, Actives(records));
    var p :| p in profiles && key in p.peerKeys;
    var i :| 0 <= i < |profiles| && profiles[i] == p;
    KeyOfProfile(records, i, key);
  }

  lemma DuplicateIsShared(records: seq<Record>, key: string)
    requires Collected(records) && key in ActiveDuplicates(Extracted(records))
    ensures key in AllKeys(Extracted(records)) && Shared(records, PeerFor(records, key))
  {
    var profiles := Extracted(records);
    ProfileCount(records, Actives(records));
    if key in AllKeys(profiles) && Owners(profiles, key) > 1 {
      OwnersShare(records, key);
    } else {
      var p :| p in profiles && p.disposition.PeerMultiRoot? && key in p.peerKeys;
      var i :| 0 <= i < |profiles| && profiles[i] == p;
      SinglePeer(records, i, key);
    }
  }

  lemma KeyTotals(records: seq<Record>)
    requires Collected(records)
    ensures |AllKeys(Extracted(records))| <= |Elements(AllPeers(records))|
    ensures |ActiveDuplicates(Extracted(records))| <= |SharedPeers(records)| <= |Elements(AllPeers(records))|
    ensures forall key :: key in AllKeys(Extracted(records)) ==> ValidKey(records, key)
  {
    var profiles := Extracted(records);
    forall key | key in AllKeys(profiles) ensures ValidKey(records, key) && PeerFor(records, key) in Elements(AllPeers(records)) {
      KeyIsValid(records, key);
    }
    KeysAreFewerThanPeers(records, AllKeys(profiles), Elements(AllPeers(records)));
    forall key | key in ActiveDuplicates(profiles)
      ensures ValidKey(records, key) && PeerFor(records, key) in SharedPeers(records)
    {
      DuplicateIsShared(records, key);
      KeyIsValid(records, key);
    }
    KeysAreFewerThanPeers(records, ActiveDuplicates(profiles), SharedPeers(records));
    SubsetSize(SharedPeers(records), Elements(AllPeers(records)));
  }

  lemma DerivedPopulationIsGood(records: seq<Record>)
    requires Collected(records)
    ensures GoodPopulation(Derived(records, Extracted(records)), Extracted(records))
  {
    var actives, profiles := Actives(records), Extracted(records);
    ProfileCount(records, actives);
    ActiveCounts(records);
    forall i | 0 <= i < |actives| ensures Distinct(actives[i].peers) { ActiveAt(records, i); }
    DispositionCounts(records, actives);
    CandidateCounts(profiles);
    FreshnessCounts(records);
    KeyTotals(records);
    PeerListMeaning(records);
  }

  /** Whatever the population, the validators accept what the extractor and the deriver make of it. */
  lemma ExtractionIsAccepted(records: seq<Record>)
    requires Collected(records)
    ensures var profiles := Extracted(records);
            && (forall i :: 0 <= i < |profiles| ==> GoodProfile(profiles[i]))
            && GoodSet(profiles)
            && GoodPopulation(Derived(records, profiles), profiles)
  {
    var actives, profiles := Actives(records), Extracted(records);
    ProfileCount(records, actives);
    ActiveCounts(records);
    CountAtMostAll(IsActive, records);
    forall i | 0 <= i < |profiles| ensures GoodProfile(profiles[i]) {
      ProfileAt(records, actives, i);
      ActiveAt(records, i);
      ExtractedProfileIsGood(records, i + 1, actives[i]);
    }
    ExtractedSetIsGood(records);
    DerivedPopulationIsGood(records);
  }

  // ----- from the rows to the accepted evidence

  /** How many peers the rows give the roots. */
  ghost function PeerCount(rows: seq<Row>, roots: seq<string>): nat {
    if roots == [] then 0 else PeerCount(rows, roots[..|roots| - 1]) + |Gather(rows, roots[|roots| - 1]).peers|
  }

  lemma {:induction false} PeerCountStep(rows: seq<Row>, row: Row, roots: seq<string>)
    requires Distinct(roots)
    ensures PeerCount(rows + [row], roots) <= PeerCount(rows, roots) + if row.root in roots then 1 else 0
  {
    if roots != [] {
      var front, last := roots[..|roots| - 1], roots[|roots| - 1];
      PeerCountStep(rows, row, front);
      assert (rows + [row])[..|rows|] == rows;
      assert roots == front + [last];
      assert last !in front;
    }
  }

  /** Every row adds at most one peer. */
  lemma {:induction false} PeerCountAtMost(rows: seq<Row>, roots: seq<string>)
    requires Distinct(roots)
    ensures PeerCount(rows, roots) <= |rows|
  {
    if rows == [] {
      NoRowsNoPeers(roots);
    } else {
      var front, last := rows[..|rows| - 1], rows[|rows| - 1];
      PeerCountAtMost(front, roots);
      PeerCountStep(front, last, roots);
      assert rows == front + [last];
    }
  }

  lemma {:induction false} NoRowsNoPeers(roots: seq<string>)
    ensures PeerCount([], roots) == 0
  {
    if roots != [] { NoRowsNoPeers(roots[..|roots| - 1]); }
  }

  lemma {:induction false} PeersCounted(rows: seq<Row>, cutoff: int, roots: seq<string>)
    ensures |AllPeers(Map(RecordOf(rows, cutoff), roots))| == PeerCount(rows, roots)
  {
    if roots != [] {
      var front := roots[..|roots| - 1];
      PeersCounted(rows, cutoff, front);
      assert Map(RecordOf(rows, cutoff), roots)[..|front|] == Map(RecordOf(rows, cutoff), front);
    }
  }

  /** What the rows describe is a population as the validators assume it. */
  lemma RowsAreCollected(rows: seq<Row>, cutoff: int)
    requires |rows| <= MAX_ARRAY_LENGTH
    ensures Collected(PopulationOf(rows, cutoff))
  {
    var roots := Distinctly(Map(RootOf, rows));
    PopulationIsCollected(rows, cutoff);
    DistinctlyMeaning(Map(RootOf, rows));
    DistinctlyAtMost(Map(RootOf, rows));
    PeerCountAtMost(rows, roots);
    PeersCounted(rows, cutoff, roots);
  }

  ghost function SoundUnder(kinds: string -> Classifier): (Profile, E.Evidence) -> bool {
    (p: Profile, evidence: E.Evidence) => Sound(kinds, p, evidence)
  }

  method CheckEach(kinds: string -> Classifier, profiles: seq<Profile>, evidence: seq<E.Evidence>) returns (ok: bool)
    requires |evidence| == |profiles|
    ensures ok <==> EachPair(SoundUnder(kinds), profiles, evidence)
  {
    for i := 0 to |profiles|
      invariant EachPair(SoundUnder(kinds), profiles[..i], evidence[..i])
    {
      EachPairStep(SoundUnder(kinds), profiles, evidence, i);
      ok := CheckProfile(kinds, profiles[i], evidence[i]);
      if !ok { return false; }
    }
    assert profiles[..|profiles|] == profiles && evidence[..|profiles|] == evidence;
    return true;
  }

  /** Lines 1074 to 1090 of model.ts: every profile, then the set, then the totals. */
  method CheckAll(kinds: string -> Classifier, profiles: seq<Profile>, evidence: seq<E.Evidence>, summary: Summary) returns (ok: bool)
    requires |evidence| == |profiles|
    ensures ok <==> EachPair(SoundUnder(kinds), profiles, evidence) && GoodSet(profiles) && GoodPopulation(summary, profiles)
  {
    ok := CheckEach(kinds, profiles, evidence);
    if !ok { return false; }
    SoundKeys(kinds, profiles, evidence);
    ok := CheckProfileSet(profiles);
    if !ok { return false; }
    ok := CheckPopulation(summary, profiles);
  }

  lemma SoundKeys(kinds: string -> Classifier, profiles: seq<Profile>, evidence: seq<E.Evidence>)
    requires EachPair(SoundUnder(kinds), profiles, evidence)
    ensures DistinctPeerKeys(profiles)
  {
    forall i | 0 <= i < |profiles| ensures GoodProfile(profiles[i]) { assert SoundUnder(kinds)(profiles[i], evidence[i]); }
    KeysOfGood(profiles);
  }

  /** The roots whose detail rows can be used and are what the validator asks for. */
  ghost function AdmissibleIn(source: E.Source): Record -> bool {
    (r: Record) => E.Usable(source, r.root) && E.AdmissibleRoot(source, r.root)
  }

  ghost predicate FitArrays(source: E.Source) { forall root :: |source.rows(root)| <= MAX_ARRAY_LENGTH }

  lemma SoundIff(source: E.Source, records: seq<Record>, i: nat)
    requires Collected(records) && FitArrays(source) && i < |Actives(records)| && UsableIn(source)(Actives(records)[i])
    ensures |Extracted(records)| == |Evidences(source, Actives(records))| == |Actives(records)|
    ensures SoundUnder(E.RedactedKindIn)(Extracted(records)[i], Evidences(source, Actives(records))[i])
            <==> AdmissibleIn(source)(Actives(records)[i])
  {
    ExtractedRoot(records, i);
    MapNumberedAt(EvidenceIn(source), Actives(records));
    ExtractionIsAccepted(records);
    E.EvidenceIsGoodIff(source, Actives(records)[i].root, i + 1);
  }

  /** The profiles are sound exactly when the rows were admissible. */
  lemma AllSoundIff(source: E.Source, records: seq<Record>)
    requires Collected(records) && FitArrays(source) && Each(UsableIn(source), Actives(records))
    ensures |Extracted(records)| == |Evidences(source, Actives(records))|
    ensures EachPair(SoundUnder(E.RedactedKindIn), Extracted(records), Evidences(source, Actives(records)))
            <==> Each(AdmissibleIn(source), Actives(records))
  {
    var actives, profiles, evidence := Actives(records), Extracted(records), Evidences(source, Actives(records));
    ProfileCount(records, actives);
    MapNumberedAt(EvidenceIn(source), actives);
    var sound, test := SoundUnder(E.RedactedKindIn), AdmissibleIn(source);
    forall i | 0 <= i < |actives| ensures sound(profiles[i], evidence[i]) <==> test(actives[i]) { SoundIff(source, records, i); }
    EachPairIff(sound, profiles, evidence, test, actives);
  }

  lemma AdmissibleIsUsable(source: E.Source, records: seq<Record>)
    requires Each(AdmissibleIn(source), records)
    ensures Each(UsableIn(source), records)
  {
    forall i | 0 <= i < |records| ensures UsableIn(source)(records[i]) { assert AdmissibleIn(source)(records[i]); }
  }

  datatype Extraction = Extraction(profiles: seq<Profile>, evidence: seq<E.Evidence>, summary: Summary)

  // ----- what the extraction says, read off the rows

  ghost predicate NamesOnly(rows: seq<Row>, root: string, peer: string) {
    Names(rows, root, peer) && forall q :: Names(rows, root, q) ==> q == peer
  }

  ghost predicate NamedElsewhere(rows: seq<Row>, root: string, peer: string) {
    exists other :: other != root && Names(rows, other, peer)
  }

  /** Exactly one of the four holds of a root. */
  ghost predicate Disposed(d: Disposition, rows: seq<Row>, root: string) {
    match d
    case MissingPeer => forall peer :: !Names(rows, root, peer)
    case MultiPeerRoot => exists a, b :: a != b && Names(rows, root, a) && Names(rows, root, b)
    case PeerMultiRoot => exists peer :: NamesOnly(rows, root, peer) && NamedElsewhere(rows, root, peer)
    case Candidate => exists peer :: NamesOnly(rows, root, peer) && !NamedElsewhere(rows, root, peer)
  }

  ghost function PeersIn(rows: seq<Row>): set<string> { set row | row in rows && row.peer.Some? :: row.peer.value }

  ghost function RootsIn(rows: seq<Row>): set<string> { set row | row in rows :: row.root }

  /** A peer's alias tells its rank among all peers. */
  ghost function RankAlias(rows: seq<Row>, peer: string): string { PEER + Padded(|TextsBelow(PeersIn(rows), peer)| + 1) }

  ghost predicate KeyOfRoot(rows: seq<Row>, root: string, key: string) {
    exists peer :: Names(rows, root, peer) && key == RankAlias(rows, peer)
  }

  /** The profile of the n-th active root. */
  ghost predicate ProfileSays(p: Profile, n: nat, root: string, rows: seq<Row>) {
    && p.recordId == RECORD + Padded(n) && p.rootSubject == RootAlias(n)
    && Disposed(p.disposition, rows, root)
    && E.SortedUnique(p.peerKeys)
    && (forall key :: key in p.peerKeys <==> KeyOfRoot(rows, root, key))
  }

  lemma RecordFor(records: seq<Record>, rows: seq<Row>, cutoff: int, root: string) returns (i: nat)
    requires Populates(records, rows, cutoff) && Mentions(rows, root)
    ensures i < |records| && records[i].root == root && Describes(records[i], rows, cutoff)
  {
    assert HasRecord(records, root);
    i :| 0 <= i < |records| && records[i].root == root;
  }

  lemma NamesMentions(rows: seq<Row>, root: string, peer: string)
    requires Names(rows, root, peer)
    ensures Mentions(rows, root) && peer in PeersIn(rows)
  {
    var i :| 0 <= i < |rows| && rows[i].root == root && rows[i].peer == Some(peer);
    assert rows[i] in rows;
  }

  lemma PeersAreNamed(records: seq<Record>, rows: seq<Row>, cutoff: int)
    requires Populates(records, rows, cutoff)
    ensures Elements(AllPeers(records)) == PeersIn(rows)
  {
    forall peer | peer in AllPeers(records) ensures peer in PeersIn(rows) {
      AllPeersMeaning(records, peer);
      var i :| 0 <= i < |records| && peer in records[i].peers;
      assert Describes(records[i], rows, cutoff);
      NamesMentions(rows, records[i].root, peer);
    }
    forall peer | peer in PeersIn(rows) ensures peer in AllPeers(records) {
      var row :| row in rows && row.peer == Some(peer);
      var k :| 0 <= k < |rows| && rows[k] == row;
      assert Names(rows, row.root, peer);
      NamesMentions(rows, row.root, peer);
      var i := RecordFor(records, rows, cutoff, row.root);
      AllPeersMeaning(records, peer);
    }
  }

  lemma SharedIff(records: seq<Record>, rows: seq<Row>, cutoff: int, root: string, peer: string)
    requires Populates(records, rows, cutoff) && Names(rows, root, peer)
    ensures Shared(records, peer) <==> NamedElsewhere(rows, root, peer)
  {
    NamesMentions(rows, root, peer);
    var i := RecordFor(records, rows, cutoff, root);
    if other :| other != root && Names(rows, other, peer) {
      NamesMentions(rows, other, peer);
      var j := RecordFor(records, rows, cutoff, other);
      TwoRootsShare(records, records[i], records[j], peer);
    }
    if Shared(records, peer) {
      var other := OtherElement(RootsOf(records, peer), root);
      var r :| r in records && peer in r.peers && r.root == other;
      var j :| 0 <= j < |records| && records[j] == r;
      assert Describes(records[j], rows, cutoff);
    }
  }

  lemma OtherElement(s: set<string>, x: string) returns (y: string)
    requires |s| > 1
    ensures y in s && y != x
  {
    if s <= {x} { SubsetSize(s, {x}); }
    y :| y in s && y != x;
  }

  lemma DispositionIsSaid(records: seq<Record>, rows: seq<Row>, cutoff: int, i: nat)
    requires Populates(records, rows, cutoff) && i < |records|
    ensures Disposed(DispositionOf(records, records[i]), rows, records[i].root)
  {
    var r := records[i];
    assert Describes(r, rows, cutoff);
    if |r.peers| > 1 {
      assert r.peers[0] in r.peers && r.peers[1] in r.peers;
    } else if |r.peers| == 1 {
      assert r.peers[0] in r.peers;
      SharedIff(records, rows, cutoff, r.root, r.peers[0]);
      assert NamesOnly(rows, r.root, r.peers[0]);
    }
  }

  ghost function TextsBelow(s: set<string>, x: string): set<string> { set q | q in s && TextLess(q, x) }

  lemma SortedIndex(s: seq<string>, i: nat)
    requires Sorted(TextLe, s) && Distinct(s) && i < |s|
    ensures |TextsBelow(Elements(s), s[i])| == i
  {
    var below := TextsBelow(Elements(s), s[i]);
    forall q | q in Elements(s[..i]) ensures q in below {
      var k :| 0 <= k < i && s[..i][k] == q;
      assert TextLe(s[k], s[i]);
    }
    forall q | q in below ensures q in Elements(s[..i]) {
      var k :| 0 <= k < |s| && s[k] == q;
      assert i < k ==> TextLe(s[i], s[k]);
      TextTrichotomy(s[k], s[i]);
      assert s[..i][k] == q;
    }
    assert below == Elements(s[..i]);
    DistinctCardinality(s[..i]);
  }

  lemma IndexIsRank(records: seq<Record>, rows: seq<Row>, cutoff: int, peer: string)
    requires Populates(records, rows, cutoff) && peer in PeersIn(rows)
    ensures IndexOf(PeerList(records), peer) == |TextsBelow(PeersIn(rows), peer)|
  {
    PeersAreNamed(records, rows, cutoff);
    PeerListMeaning(records);
    PeerFound(records, peer);
    TextLeIsTotalOrder();
    SortSorts(TextLe, Distinctly(AllPeers(records)));
    var list, i := PeerList(records), IndexOf(PeerList(records), peer);
    SortedIndex(list, i);
    assert Elements(list) == PeersIn(rows);
  }

  /** The aliases of the peers keep their order. */
  lemma AliasIsRank(records: seq<Record>, rows: seq<Row>, cutoff: int, peer: string)
    requires Populates(records, rows, cutoff) && peer in PeersIn(rows)
    ensures AliasOf(records)(peer) == RankAlias(rows, peer)
  {
    IndexIsRank(records, rows, cutoff, peer);
    AliasText(records, peer);
  }

  lemma KeysAreSaid(records: seq<Record>, rows: seq<Row>, cutoff: int, i: nat, key: string)
    requires Populates(records, rows, cutoff) && i < |records|
    ensures key in KeysOf(records, records[i]) <==> KeyOfRoot(rows, records[i].root, key)
  {
    var r := records[i];
    KeyMeaning(records, r, key);
    assert Describes(r, rows, cutoff);
    forall peer | Names(rows, r.root, peer) ensures AliasOf(records)(peer) == RankAlias(rows, peer) {
      NamesMentions(rows, r.root, peer);
      AliasIsRank(records, rows, cutoff, peer);
    }
    if k :| 0 <= k < |r.peers| && AliasOf(records)(r.peers[k]) == key { assert r.peers[k] in r.peers; }
    if peer :| Names(rows, r.root, peer) && key == RankAlias(rows, peer) {
      assert peer in r.peers;
      var k :| 0 <= k < |r.peers| && r.peers[k] == peer;
    }
  }

  lemma ProfileIsSaid(records: seq<Record>, rows: seq<Row>, cutoff: int, n: nat, r: Record)
    requires Populates(records, rows, cutoff) && Collected(records) && r in records
    ensures ProfileSays(ProfileOf(records, n, r), n, r.root, rows)
  {
    var i :| 0 <= i < |records| && records[i] == r;
    DispositionIsSaid(records, rows, cutoff, i);
    KeysAreDistinct(records, r);
    var keys := Map(AliasOf(records), r.peers);
    forall x | x in keys ensures x != "" { var k :| 0 <= k < |keys| && keys[k] == x; }
    E.SortedAndDistinct(keys);
    forall key ensures key in KeysOf(records, r) <==> KeyOfRoot(rows, r.root, key) { KeysAreSaid(records, rows, cutoff, i, key); }
  }

  function RecordRoot(r: Record): string { r.root }

  /** The active roots in text order. */
  function ActiveRoots(records: seq<Record>): seq<string> { Map(RecordRoot, Actives(records)) }

  lemma RootLeIsTotal()
    ensures TotalPreorder(RootLe)
  {
    TextLeIsTotalOrder();
  }

  lemma ActiveRootsAreSorted(records: seq<Record>)
    requires UniqueRoots(records)
    ensures StrictlySorted(TextLess, ActiveRoots(records))
  {
    var actives, roots := Actives(records), ActiveRoots(records);
    RootLeIsTotal();
    SortSorts(RootLe, Filter(IsActive, records));
    ActiveRootsDiffer(records);
    forall i, j | 0 <= i < j < |roots| ensures TextLess(roots[i], roots[j]) {
      assert roots[i] == RecordRoot(actives[i]) && roots[j] == RecordRoot(actives[j]);
      assert RootLe(actives[i], actives[j]);
    }
  }

  lemma ActiveRootsAreSeen(records: seq<Record>, rows: seq<Row>, cutoff: int, root: string)
    requires Populates(records, rows, cutoff)
    ensures root in ActiveRoots(records) <==> SeenSince(rows, root, cutoff)
  {
    var actives, roots := Actives(records), ActiveRoots(records);
    if root in roots {
      var k :| 0 <= k < |roots| && roots[k] == root;
      assert roots[k] == RecordRoot(actives[k]);
      ActiveIsRecord(records, k);
      var i :| 0 <= i < |records| && records[i] == actives[k];
      assert Describes(records[i], rows, cutoff);
    }
    if i :| 0 <= i < |rows| && rows[i].root == root && rows[i].seen.Some? && rows[i].seen.value >= cutoff {
      assert Mentions(rows, root) && SeenSince(rows, root, cutoff);
      var j := RecordFor(records, rows, cutoff, root);
      FilterFinds(IsActive, records);
      SortPermutes(RootLe, Filter(IsActive, records));
      assert records[j] in records && IsActive(records[j]) && records[j] in actives;
      var k :| 0 <= k < |actives| && actives[k] == records[j];
      assert roots[k] == RecordRoot(actives[k]);
    }
  }

  // ----- the summary, read off the rows

  ghost predicate Anonymous(rows: seq<Row>, root: string) { forall peer :: !Names(rows, root, peer) }

  ghost predicate ManyNamed(rows: seq<Row>, root: string) {
    exists a, b :: a != b && Names(rows, root, a) && Names(rows, root, b)
  }

  ghost predicate SharedPeer(rows: seq<Row>, peer: string) {
    exists a, b :: a != b && Names(rows, a, peer) && Names(rows, b, peer)
  }

  /** Every count of the summary is the number of what it names. */
  ghost predicate SummarySays(v: Summary, rows: seq<Row>, cutoff: int) {
    && v.observedRoots == |RootsIn(rows)|
    && v.observedPeerKeys == |PeersIn(rows)|
    && v.activeRoots == |set root | root in RootsIn(rows) && SeenSince(rows, root, cutoff)|
    && v.staleProfiles == |set root | root in RootsIn(rows) && EverSeen(rows, root) && !SeenSince(rows, root, cutoff)|
    && v.unknownFreshnessProfiles == |set root | root in RootsIn(rows) && !EverSeen(rows, root)|
    && v.missingPeerRoots == |set root | root in RootsIn(rows) && Anonymous(rows, root)|
    && v.sharedRootSubjects == |set root | root in RootsIn(rows) && ManyNamed(rows, root)|
    && v.duplicatePeerKeys == |set peer | peer in PeersIn(rows) && SharedPeer(rows, peer)|
  }

  ghost function RootsWith(p: Record -> bool, records: seq<Record>): set<string> { set r | r in records && p(r) :: r.root }

  lemma RootsWithFirst(p: Record -> bool, records: seq<Record>)
    requires UniqueRoots(records) && records != []
    ensures records[0].root !in RootsWith(p, records[1..])
    ensures RootsWith(p, records) == RootsWith(p, records[1..]) + if p(records[0]) then {records[0].root} else {}
  {
    assert forall r :: r in records <==> r == records[0] || r in records[1..];
  }

  lemma {:induction false} CountRoots(p: Record -> bool, records: seq<Record>)
    requires UniqueRoots(records)
    ensures Count(p, records) == |RootsWith(p, records)|
  {
    if records != [] {
      CountRoots(p, records[1..]);
      RootsWithFirst(p, records);
    }
  }

  lemma CountsAre(p: Record -> bool, records: seq<Record>, rows: seq<Row>, cutoff: int, roots: set<string>)
    requires Populates(records, rows, cutoff)
    requires forall i :: 0 <= i < |records| ==> (p(records[i]) <==> records[i].root in roots)
    requires roots <= RootsIn(rows)
    ensures Count(p, records) == |roots|
  {
    CountRoots(p, records);
    var found := RootsWith(p, records);
    forall root | root in roots ensures root in found {
      RootIsMentioned(rows, root);
      var i := RecordFor(records, rows, cutoff, root);
      assert records[i] in records;
    }
    assert found == roots;
  }

  lemma RootIsMentioned(rows: seq<Row>, root: string)
    ensures root in RootsIn(rows) <==> Mentions(rows, root)
  {
    if root in RootsIn(rows) {
      var row :| row in rows && row.root == root;
      var i :| 0 <= i < |rows| && rows[i] == row;
    }
    if i :| 0 <= i < |rows| && rows[i].root == root { assert rows[i] in rows; }
  }

  lemma PeersCount(r: Record, rows: seq<Row>, cutoff: int)
    requires Describes(r, rows, cutoff)
    ensures NoPeers(r) <==> Anonymous(rows, r.root)
    ensures ManyPeers(r) <==> ManyNamed(rows, r.root)
  {
    if r.peers != [] { assert r.peers[0] in r.peers; }
    DistinctCardinality(r.peers);
    if |r.peers| > 1 { assert r.peers[0] in r.peers && r.peers[1] in r.peers; }
    if a, b :| a != b && Names(rows, r.root, a) && Names(rows, r.root, b) {
      assert a in r.peers && b in r.peers;
      SubsetSize({a, b}, Elements(r.peers));
    }
  }

  lemma SharedIsSaid(records: seq<Record>, rows: seq<Row>, cutoff: int, peer: string)
    requires Populates(records, rows, cutoff) && peer in PeersIn(rows)
    ensures Shared(records, peer) <==> SharedPeer(rows, peer)
  {
    var row :| row in rows && row.peer == Some(peer);
    var k :| 0 <= k < |rows| && rows[k] == row;
    assert Names(rows, row.root, peer);
    SharedIff(records, rows, cutoff, row.root, peer);
    if a, b :| a != b && Names(rows, a, peer) && Names(rows, b, peer) {
      if a == row.root { assert NamedElsewhere(rows, row.root, peer); } else { assert NamedElsewhere(rows, row.root, peer); }
    }
  }

  lemma FreshCountsAreSaid(records: seq<Record>, rows: seq<Row>, cutoff: int)
    requires Populates(records, rows, cutoff)
    ensures Count(IsActive, records) == |set root | root in RootsIn(rows) && SeenSince(rows, root, cutoff)|
    ensures Count(IsStale, records) ==
            |set root | root in RootsIn(rows) && EverSeen(rows, root) && !SeenSince(rows, root, cutoff)|
    ensures Count(IsUnknown, records) == |set root | root in RootsIn(rows) && !EverSeen(rows, root)|
  {
    forall i | 0 <= i < |records| ensures Describes(records[i], rows, cutoff) && records[i].root in RootsIn(rows) {
      RootIsMentioned(rows, records[i].root);
    }
    forall root | SeenSince(rows, root, cutoff) ensures EverSeen(rows, root) {
    }
    CountsAre(IsActive, records, rows, cutoff, set root | root in RootsIn(rows) && SeenSince(rows, root, cutoff));
    CountsAre(IsStale, records, rows, cutoff,
              set root | root in RootsIn(rows) && EverSeen(rows, root) && !SeenSince(rows, root, cutoff));
    CountsAre(IsUnknown, records, rows, cutoff, set root | root in RootsIn(rows) && !EverSeen(rows, root));
  }

  lemma PeerCountsAreSaid(records: seq<Record>, rows: seq<Row>, cutoff: int)
    requires Populates(records, rows, cutoff)
    ensures Count(NoPeers, records) == |set root | root in RootsIn(rows) && Anonymous(rows, root)|
    ensures Count(ManyPeers, records) == |set root | root in RootsIn(rows) && ManyNamed(rows, root)|
  {
    forall i | 0 <= i < |records|
      ensures records[i].root in RootsIn(rows)
      ensures NoPeers(records[i]) <==> Anonymous(rows, records[i].root)
      ensures ManyPeers(records[i]) <==> ManyNamed(rows, records[i].root)
    {
      assert Describes(records[i], rows, cutoff);
      RootIsMentioned(rows, records[i].root);
      PeersCount(records[i], rows, cutoff);
    }
    CountsAre(NoPeers, records, rows, cutoff, set root | root in RootsIn(rows) && Anonymous(rows, root));
    CountsAre(ManyPeers, records, rows, cutoff, set root | root in RootsIn(rows) && ManyNamed(rows, root));
  }

  lemma SummaryIsSaid(records: seq<Record>, rows: seq<Row>, cutoff: int, profiles: seq<Profile>)
    requires Populates(records, rows, cutoff)
    ensures SummarySays(Derived(records, profiles), rows, cutoff)
  {
    FreshCountsAreSaid(records, rows, cutoff);
    PeerCountsAreSaid(records, rows, cutoff);
    PeersAreNamed(records, rows, cutoff);
    forall peer | peer in PeersIn(rows) ensures Shared(records, peer) <==> SharedPeer(rows, peer) {
      SharedIsSaid(records, rows, cutoff, peer);
    }
    assert SharedPeers(records) == set peer | peer in PeersIn(rows) && SharedPeer(rows, peer);
    forall i | 0 <= i < |records| ensures records[i].root in RootsIn(rows) {
      assert Describes(records[i], rows, cutoff);
      RootIsMentioned(rows, records[i].root);
    }
    CountsAre((r: Record) => true, records, rows, cutoff, RootsIn(rows));
    CountAll((r: Record) => true, records);
  }

  /** The whole result, said of the rows: the active roots in text order, their profiles and evidence, and the totals. */
  ghost predicate Reports(e: Extraction, rows: seq<Row>, cutoff: int, source: E.Source, roots: seq<string>) {
    && StrictlySorted(TextLess, roots)
    && (forall root :: root in roots <==> SeenSince(rows, root, cutoff))
    && |e.profiles| == |e.evidence| == |roots|
    && (forall i :: 0 <= i < |roots| ==> ProfileSays(e.profiles[i], i + 1, roots[i], rows))
    && (forall i :: 0 <= i < |roots| ==> e.evidence[i] == E.EvidenceOf(source, roots[i], i + 1))
    && SummarySays(e.summary, rows, cutoff)
    && e.summary.activeProfiles == |roots|
    && e.summary.candidateProfiles == |roots| - e.summary.ambiguousProfiles == Count(IsCandidate, e.profiles)
  }

  lemma ExtractionReports(rows: seq<Row>, cutoff: int, source: E.Source)
    requires |rows| <= MAX_ARRAY_LENGTH
    ensures var records := PopulationOf(rows, cutoff);
            Reports(Extraction(Extracted(records), Evidences(source, Actives(records)), Derived(records, Extracted(records))),
                    rows, cutoff, source, ActiveRoots(records))
  {
    var records := PopulationOf(rows, cutoff);
    var actives, roots, profiles := Actives(records), ActiveRoots(records), Extracted(records);
    PopulationIsDescribed(rows, cutoff);
    RowsAreCollected(rows, cutoff);
    ActiveRootsAreSorted(records);
    forall root ensures root in roots <==> SeenSince(rows, root, cutoff) { ActiveRootsAreSeen(records, rows, cutoff, root); }
    ProfileCount(records, actives);
    MapNumberedAt(EvidenceIn(source), actives);
    forall i | 0 <= i < |roots| ensures roots[i] == actives[i].root && ProfileSays(profiles[i], i + 1, roots[i], rows) {
      assert roots[i] == RecordRoot(actives[i]);
      ProfileAt(records, actives, i);
      ActiveIsRecord(records, i);
      ProfileIsSaid(records, rows, cutoff, i + 1, actives[i]);
    }
    SummaryIsSaid(records, rows, cutoff, profiles);
    CandidateCounts(profiles);
  }

  /**
   * The extraction as a whole, which ends by validating what it built. It fails exactly
   * on its input: a peer that is not canonical, or an active root whose detail rows are
   * not usable or not admissible. No other check of the validators can fail.
   */
  method Extract(rows: seq<Row>, goodPeer: string -> bool, cutoff: int, source: E.Source)
    returns (result: Option<Extraction>, ghost roots: seq<string>)
    requires |rows| <= MAX_ARRAY_LENGTH && FitArrays(source)
    ensures result.Some? <==> AllGood(rows, goodPeer) && Each(AdmissibleIn(source), Actives(PopulationOf(rows, cutoff)))
    ensures result.Some? ==>
              var records := PopulationOf(rows, cutoff);
              result.value == Extraction(Extracted(records), Evidences(source, Actives(records)), Derived(records, Extracted(records)))
    ensures result.Some? ==> Reports(result.value, rows, cutoff, source, roots)
  {
    roots := ActiveRoots(PopulationOf(rows, cutoff));
    ExtractionReports(rows, cutoff, source);
    var records := CollectPopulation(rows, goodPeer, cutoff);
    if records.None? { return None, roots; }
    RowsAreCollected(rows, cutoff);
    result := ExtractFrom(records.value, source);
  }

  method ExtractFrom(records: seq<Record>, source: E.Source) returns (result: Option<Extraction>)
    requires Collected(records) && FitArrays(source)
    ensures result.Some? <==> Each(AdmissibleIn(source), Actives(records))
    ensures result.Some? ==>
              result.value == Extraction(Extracted(records), Evidences(source, Actives(records)), Derived(records, Extracted(records)))
  {
    if Each(AdmissibleIn(source), Actives(records)) { AdmissibleIsUsable(source, Actives(records)); }
    var built := BuildProfiles(records, source);
    if built.None? { return None; }
    var summary := Derive(records, built.value.0);
    if summary.None? { return None; }
    ExtractionIsAccepted(records);
    AllSoundIff(source, records);
    var ok := CheckAll(E.RedactedKindIn, built.value.0, built.value.1, summary.value);
    if !ok { return None; }
    return Some(Extraction(built.value.0, built.value.1, summary.value));
  }

  lemma OneRow(row: Row, cutoff: int)
    requires row.peer.None? && row.seen.Some? && row.seen.value >= cutoff
    ensures Actives(PopulationOf([row], cutoff)) == [Record(row.root, [], Active)]
  {
    assert [row][..0] == [] && Gather([row], row.root) == Gathered([], row.seen);
    var roots := Map(RootOf, [row]);
    assert roots[0] == RootOf(row) && roots == [row.root];
    assert roots[..0] == [] && Distinctly(roots[..0]) == [] && Distinctly(roots) == [row.root];
    var records := PopulationOf([row], cutoff);
    assert records[0] == RecordOf([row], cutoff)(row.root);
    assert records == [Record(row.root, [], Active)] && records[1..] == [];
    assert Filter(IsActive, records[1..]) == [] && Filter(IsActive, records) == records;
    SortOfSorted(RootLe, records);
  }

  /**
   * Such a link can stop a whole run: one wallet root, seen in time and with rows that the
   * extractor lets through, is refused by the validator that the run ends with.
   */
  lemma LooseLinkStopsTheRun(root: string, seen: string, text: string, at: int, cutoff: int, goodPeer: string -> bool)
    requires CanonicalRoot(root) && at >= cutoff
    ensures var rows, source := [Row(root, None, Some(at))], E.LooseSource(root, seen, text);
            && AllGood(rows, goodPeer)
            && Each(UsableIn(source), Actives(PopulationOf(rows, cutoff)))
            && !Each(AdmissibleIn(source), Actives(PopulationOf(rows, cutoff)))
  {
    var row, source := Row(root, None, Some(at)), E.LooseSource(root, seen, text);
    OneRow(row, cutoff);
    E.LooseLinkIsRefused(root, seen, text);
    var actives := Actives(PopulationOf([row], cutoff));
    assert UsableIn(source)(actives[0]) && !AdmissibleIn(source)(actives[0]);
  }
}
