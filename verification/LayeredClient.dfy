/**
 * The layered benchmark client: working, shared and verifiable memory, named
 * knowledge assets, and publisher jobs that promote an asset later.
 */
module LayeredClient {
  import opened Sequences

  datatype Quad = Quad(subject: string, predicate_: string, object_: string)

  datatype OperationId = Draft(n: nat) | Share(n: nat)

  datatype Record = Record(
    contextGraphId: string, rootEntity: string, marker: string, quads: seq<Quad>,
    shareOperationId: OperationId, assertionName: Option<string>, kaId: Option<nat>)

  datatype Asset = Asset(contextGraphId: string, name: string, roots: seq<string>)

  datatype Status = Queued | Finalized | Failed

  datatype Job = Job(contextGraphId: string, assertionName: string, roots: seq<string>, status: Status)

  type Layer = map<string, Record>

  datatype Memory = Memory(
    working: Layer, shared: Layer, verifiable: Layer, assets: map<string, Asset>, jobs: map<nat, Job>,
    shareSequence: nat, draftSequence: nat, kcSequence: nat, jobSequence: nat)

  const EMPTY := Memory(map[], map[], map[], map[], map[], 0, 0, 0, 0)

  const IDENTIFIER := "http://schema.org/identifier"

  // ----- records

  function Subjects(quads: seq<Quad>): seq<string> {
    seq(|quads|, i requires 0 <= i < |quads| => quads[i].subject)
  }

  function UniqueSubjects(quads: seq<Quad>): seq<string> { Distinctly(Subjects(quads)) }

  function AssetKey(contextGraphId: string, name: string): string { contextGraphId + "\0" + name }

  function RootQuads(quads: seq<Quad>, root: string): seq<Quad> {
    if quads == [] then []
    else
      var front, last := RootQuads(quads[..|quads| - 1], root), quads[|quads| - 1];
      if last.subject == root then front + [last] else front
  }

  function Unquote(s: string): string {
    var t := if s != "" && s[0] == '"' then s[1..] else s;
    if t != "" && t[|t| - 1] == '"' then t[..|t| - 1] else t
  }

  function Marker(quads: seq<Quad>): Option<string> {
    if quads == [] then None
    else if quads[0].predicate_ == IDENTIFIER then Some(Unquote(quads[0].object_))
    else Marker(quads[1..])
  }

  /** What one write shares between its records. */
  datatype Batch = Batch(contextGraphId: string, quads: seq<Quad>, operation: OperationId, assertionName: Option<string>)

  function CreateRecord(b: Batch, root: string): Option<Record> {
    var quads := RootQuads(b.quads, root);
    match Marker(quads)
    case None => None
    case Some(marker) => Some(Record(b.contextGraphId, root, marker, quads, b.operation, b.assertionName, None))
  }

  // ----- layers

  /** Writing the roots in order; it stops at a root without a marker. */
  function WriteRoots(working: Layer, b: Batch, roots: seq<string>): (Layer, bool) {
    if roots == [] then (working, true)
    else
      var (before, ok) := WriteRoots(working, b, roots[..|roots| - 1]);
      var root := roots[|roots| - 1];
      match if ok then CreateRecord(b, root) else None
      case None => (before, false)
      case Some(record) => (before[root := record], true)
  }

  /** A record of a layer, if it is there and belongs to the context graph. */
  function Find(layer: Layer, contextGraphId: string, root: string): Option<Record> {
    if root in layer && layer[root].contextGraphId == contextGraphId then Some(layer[root]) else None
  }

  /** Copying the roots from one layer to another in order; it stops at a root it cannot find. */
  function CopyRoots(source: Layer, sink: Layer, contextGraphId: string, stamp: Record -> Record, roots: seq<string>): (Layer, bool) {
    if roots == [] then (sink, true)
    else
      var (before, ok) := CopyRoots(source, sink, contextGraphId, stamp, roots[..|roots| - 1]);
      var root := roots[|roots| - 1];
      match if ok then Find(source, contextGraphId, root) else None
      case None => (before, false)
      case Some(record) => (before[root := stamp(record)], true)
  }

  /** A layer after deleting the roots in order. */
  function Without(layer: Layer, roots: seq<string>): Layer {
    if roots == [] then layer else Without(layer, roots[..|roots| - 1]) - {roots[|roots| - 1]}
  }

  lemma {:induction false} WithoutAt(layer: Layer, roots: seq<string>, root: string)
    ensures root in Without(layer, roots) <==> root in layer && root !in roots
    ensures root in Without(layer, roots) ==> Without(layer, roots)[root] == layer[root]
  {
    if roots != [] {
      WithoutAt(layer, roots[..|roots| - 1], root);
      assert roots == roots[..|roots| - 1] + [roots[|roots| - 1]];
    }
  }

  function Sharing(n: nat): Record -> Record { (r: Record) => r.(shareOperationId := Share(n)) }

  function Promoting(n: nat): Record -> Record { (r: Record) => r.(kaId := Some(n)) }

  // ----- operations

  function AfterWrite(s: Memory, contextGraphId: string, quads: seq<Quad>, name: Option<string>): (Memory, bool) {
    var draft := s.draftSequence + 1;
    var (working, ok) := WriteRoots(s.working, Batch(contextGraphId, quads, Draft(draft), name), UniqueSubjects(quads));
    (s.(draftSequence := draft, working := working), ok)
  }

  function AfterLift(s: Memory, contextGraphId: string, roots: seq<string>): (Memory, bool) {
    var share := s.shareSequence + 1;
    var (shared, ok) := CopyRoots(s.working, s.shared, contextGraphId, Sharing(share), roots);
    (s.(shareSequence := share, shared := shared), ok)
  }

  function AfterCreate(s: Memory, contextGraphId: string, name: string, quads: seq<Quad>): (Memory, bool) {
    var roots := UniqueSubjects(quads);
    var (written, wrote) := AfterWrite(s, contextGraphId, quads, Some(name));
    if !wrote then (written, false)
    else
      var (lifted, shared) := AfterLift(written, contextGraphId, roots);
      if !shared then (lifted, false)
      else (lifted.(assets := lifted.assets[AssetKey(contextGraphId, name) := Asset(contextGraphId, name, roots)]), true)
  }

  function AfterPromote(s: Memory, contextGraphId: string, roots: seq<string>): (Memory, bool) {
    var ka := s.kcSequence + 1;
    var (verifiable, ok) := CopyRoots(s.shared, s.verifiable, contextGraphId, Promoting(ka), roots);
    (s.(kcSequence := ka, verifiable := verifiable), ok)
  }

  function AfterPublish(s: Memory, contextGraphId: string, name: string, quads: seq<Quad>, clearAfter: bool): (Memory, bool) {
    var (created, ok) := AfterCreate(s, contextGraphId, name, quads);
    if !ok then (created, false)
    else
      var (promoted, done) := AfterPromote(created, contextGraphId, UniqueSubjects(quads));
      (if clearAfter && done then promoted.(shared := Without(promoted.shared, UniqueSubjects(quads))) else promoted, done)
  }

  predicate AllShared(s: Memory, roots: seq<string>) {
    forall i :: 0 <= i < |roots| ==> roots[i] in s.shared
  }

  function AfterEnqueue(s: Memory, contextGraphId: string, name: string): (Memory, bool) {
    var key := AssetKey(contextGraphId, name);
    if key !in s.assets || !AllShared(s, s.assets[key].roots) then (s, false)
    else
      var id := s.jobSequence + 1;
      (s.(jobSequence := id, jobs := s.jobs[id := Job(contextGraphId, name, s.assets[key].roots, Queued)]), true)
  }

  function AfterPoll(s: Memory, id: nat): Memory {
    if id !in s.jobs || !s.jobs[id].status.Queued? then s
    else
      var job := s.jobs[id];
      var (promoted, ok) := AfterPromote(s, job.contextGraphId, job.roots);
      promoted.(jobs := promoted.jobs[id := job.(status := if ok then Finalized else Failed)])
  }

  function AfterClear(s: Memory): Memory {
    s.(working := map[], shared := map[], verifiable := map[], assets := map[], jobs := map[])
  }

  datatype Op =
    | Write(contextGraphId: string, quads: seq<Quad>)
    | Lift(contextGraphId: string, roots: seq<string>)
    | Create(contextGraphId: string, name: string, quads: seq<Quad>)
    | Publish(contextGraphId: string, name: string, quads: seq<Quad>, clearAfter: bool)
    | Enqueue(contextGraphId: string, name: string)
    | Poll(id: nat)
    | Clear

  /** Every operation, whether it succeeds or throws part-way. */
  function Step(s: Memory, op: Op): Memory {
    match op
    case Write(contextGraphId, quads) => AfterWrite(s, contextGraphId, quads, None).0
    case Lift(contextGraphId, roots) => AfterLift(s, contextGraphId, roots).0
    case Create(contextGraphId, name, quads) => AfterCreate(s, contextGraphId, name, quads).0
    case Publish(contextGraphId, name, quads, clearAfter) => AfterPublish(s, contextGraphId, name, quads, clearAfter).0
    case Enqueue(contextGraphId, name) => AfterEnqueue(s, contextGraphId, name).0
    case Poll(id) => AfterPoll(s, id)
    case Clear => AfterClear(s)
  }

  function Run(s: Memory, ops: seq<Op>): Memory {
    if ops == [] then s else Step(Run(s, ops[..|ops| - 1]), ops[|ops| - 1])
  }

  // ----- what every operation keeps

  /** A record under its own root, with that root's quads only and the marker they carry. */
  ghost predicate Own(root: string, r: Record) {
    && r.rootEntity == root && Marker(r.quads) == Some(r.marker)
    && forall i :: 0 <= i < |r.quads| ==> r.quads[i].subject == root
  }

  ghost predicate OwnRecords(layer: Layer) { forall root :: root in layer ==> Own(root, layer[root]) }

  ghost predicate Minted(s: Memory) {
    forall root :: root in s.verifiable ==> s.verifiable[root].kaId.Some? && s.verifiable[root].kaId.value <= s.kcSequence
  }

  ghost predicate InVerifiable(s: Memory, roots: seq<string>) {
    forall i :: 0 <= i < |roots| ==> roots[i] in s.verifiable
  }

  ghost predicate GoodJob(s: Memory, id: nat)
    requires id in s.jobs
  {
    id <= s.jobSequence && (s.jobs[id].status.Finalized? ==> InVerifiable(s, s.jobs[id].roots))
  }

  ghost predicate GoodJobs(s: Memory) { forall id :: id in s.jobs ==> GoodJob(s, id) }

  ghost predicate Layered(s: Memory) {
    s.shared.Keys <= s.working.Keys && s.verifiable.Keys <= s.working.Keys
  }

  ghost predicate Inv(s: Memory) {
    OwnRecords(s.working) && OwnRecords(s.shared) && OwnRecords(s.verifiable) && Layered(s) && Minted(s) && GoodJobs(s)
  }

  lemma {:induction false} RootQuadsMeaning(quads: seq<Quad>, root: string)
    ensures forall i :: 0 <= i < |RootQuads(quads, root)| ==> RootQuads(quads, root)[i].subject == root
    ensures forall q :: q in RootQuads(quads, root) <==> q in quads && q.subject == root
  {
    if quads != [] {
      RootQuadsMeaning(quads[..|quads| - 1], root);
      assert quads == quads[..|quads| - 1] + [quads[|quads| - 1]];
    }
  }

  lemma {:induction false} WriteRootsAt(working: Layer, b: Batch, roots: seq<string>, root: string)
    ensures var (r, ok) := WriteRoots(working, b, roots);
            && (root in working ==> root in r)
            && (root in r ==> (root in working && r[root] == working[root]) || CreateRecord(b, root) == Some(r[root]))
            && (ok && root in roots ==> root in r && CreateRecord(b, root) == Some(r[root]))
            && (ok && root !in roots && root in working ==> r[root] == working[root])
  {
    if roots != [] {
      WriteRootsAt(working, b, roots[..|roots| - 1], root);
      assert roots == roots[..|roots| - 1] + [roots[|roots| - 1]];
    }
  }

  lemma {:induction false} CopyRootsAt(source: Layer, sink: Layer, cg: string, stamp: Record -> Record, roots: seq<string>, root: string)
    ensures var (r, ok) := CopyRoots(source, sink, cg, stamp, roots);
            && (root in sink ==> root in r)
            && (root in r ==> (root in sink && r[root] == sink[root]) || (root in source && r[root] == stamp(source[root])))
            && (ok && root in roots ==> root in r && root in source && r[root] == stamp(source[root]))
  {
    if roots != [] {
      CopyRootsAt(source, sink, cg, stamp, roots[..|roots| - 1], root);
      assert roots == roots[..|roots| - 1] + [roots[|roots| - 1]];
    }
  }

  lemma {:induction false} CopyRootsOk(source: Layer, sink: Layer, cg: string, stamp: Record -> Record, roots: seq<string>)
    ensures CopyRoots(source, sink, cg, stamp, roots).1 <==> forall i :: 0 <= i < |roots| ==> Find(source, cg, roots[i]).Some?
  {
    if roots != [] {
      var n := |roots| - 1;
      CopyRootsOk(source, sink, cg, stamp, roots[..n]);
      assert forall i :: 0 <= i < n ==> roots[..n][i] == roots[i];
    }
  }

  lemma WriteKeeps(s: Memory, cg: string, quads: seq<Quad>, name: Option<string>)
    requires Inv(s)
    ensures Inv(AfterWrite(s, cg, quads, name).0)
  {
    var b := Batch(cg, quads, Draft(s.draftSequence + 1), name);
    var r := AfterWrite(s, cg, quads, name).0;
    forall root ensures root in r.working ==> Own(root, r.working[root])
                ensures root in s.working ==> root in r.working
    {
      WriteRootsAt(s.working, b, UniqueSubjects(quads), root);
      RootQuadsMeaning(quads, root);
    }
    JobsFollow(s, r);
  }

  /** Jobs stay good when they stay the same and no verifiable root is lost. */
  lemma JobsFollow(s: Memory, r: Memory)
    requires GoodJobs(s) && r.jobs == s.jobs && r.jobSequence == s.jobSequence
    requires forall root :: root in s.verifiable ==> root in r.verifiable
    ensures GoodJobs(r)
  {
    forall id | id in r.jobs ensures GoodJob(r, id) { assert GoodJob(s, id); }
  }

  lemma CopyKeepsOwn(source: Layer, sink: Layer, cg: string, stamp: Record -> Record, roots: seq<string>)
    requires OwnRecords(source) && OwnRecords(sink)
    requires forall root, r :: Own(root, r) ==> Own(root, stamp(r))
    ensures OwnRecords(CopyRoots(source, sink, cg, stamp, roots).0)
    ensures sink.Keys <= CopyRoots(source, sink, cg, stamp, roots).0.Keys <= sink.Keys + source.Keys
  {
    var r := CopyRoots(source, sink, cg, stamp, roots).0;
    forall root ensures root in r ==> Own(root, r[root])
                ensures root in sink ==> root in r
                ensures root in r ==> root in sink || root in source
    {
      CopyRootsAt(source, sink, cg, stamp, roots, root);
    }
  }

  lemma LiftKeeps(s: Memory, cg: string, roots: seq<string>)
    requires Inv(s)
    ensures Inv(AfterLift(s, cg, roots).0)
  {
    CopyKeepsOwn(s.working, s.shared, cg, Sharing(s.shareSequence + 1), roots);
    JobsFollow(s, AfterLift(s, cg, roots).0);
  }

  lemma PromoteKeeps(s: Memory, cg: string, roots: seq<string>)
    requires Inv(s)
    ensures Inv(AfterPromote(s, cg, roots).0)
    ensures AfterPromote(s, cg, roots).1 ==> InVerifiable(AfterPromote(s, cg, roots).0, roots)
  {
    var ka := s.kcSequence + 1;
    var (r, ok) := AfterPromote(s, cg, roots);
    CopyKeepsOwn(s.shared, s.verifiable, cg, Promoting(ka), roots);
    forall root | root in r.verifiable ensures r.verifiable[root].kaId.Some? && r.verifiable[root].kaId.value <= ka {
      CopyRootsAt(s.shared, s.verifiable, cg, Promoting(ka), roots, root);
    }
    forall i | 0 <= i < |roots| && ok ensures roots[i] in r.verifiable {
      CopyRootsAt(s.shared, s.verifiable, cg, Promoting(ka), roots, roots[i]);
    }
    JobsFollow(s, r);
  }

  lemma CreateKeeps(s: Memory, cg: string, name: string, quads: seq<Quad>)
    requires Inv(s)
    ensures Inv(AfterCreate(s, cg, name, quads).0)
  {
    WriteKeeps(s, cg, quads, Some(name));
    var (written, wrote) := AfterWrite(s, cg, quads, Some(name));
    LiftKeeps(written, cg, UniqueSubjects(quads));
    if wrote && AfterLift(written, cg, UniqueSubjects(quads)).1 {
      JobsFollow(AfterLift(written, cg, UniqueSubjects(quads)).0, AfterCreate(s, cg, name, quads).0);
    }
  }

  lemma StepKeeps(s: Memory, op: Op)
    requires Inv(s)
    ensures Inv(Step(s, op))
  {
    match op
    case Write(cg, quads) => WriteKeeps(s, cg, quads, None);
    case Lift(cg, roots) => LiftKeeps(s, cg, roots);
    case Create(cg, name, quads) => CreateKeeps(s, cg, name, quads);
    case Publish(cg, name, quads, clearAfter) => PublishKeeps(s, cg, name, quads, clearAfter);
    case Enqueue(cg, name) => EnqueueKeeps(s, cg, name);
    case Poll(id) => PollKeeps(s, id);
    case Clear =>
  }

  lemma ClearingKeeps(s: Memory, roots: seq<string>)
    requires Inv(s)
    ensures Inv(s.(shared := Without(s.shared, roots)))
  {
    var r := s.(shared := Without(s.shared, roots));
    forall root ensures root in r.shared ==> root in s.shared && Own(root, r.shared[root]) { WithoutAt(s.shared, roots, root); }
    JobsFollow(s, r);
  }

  lemma PublishKeeps(s: Memory, cg: string, name: string, quads: seq<Quad>, clearAfter: bool)
    requires Inv(s)
    ensures Inv(AfterPublish(s, cg, name, quads, clearAfter).0)
  {
    CreateKeeps(s, cg, name, quads);
    var (created, ok) := AfterCreate(s, cg, name, quads);
    if ok {
      PromoteKeeps(created, cg, UniqueSubjects(quads));
      var promoted := AfterPromote(created, cg, UniqueSubjects(quads)).0;
      ClearingKeeps(promoted, UniqueSubjects(quads));
    }
  }

  lemma EnqueueKeeps(s: Memory, cg: string, name: string)
    requires Inv(s)
    ensures Inv(AfterEnqueue(s, cg, name).0)
  {
    var r := AfterEnqueue(s, cg, name).0;
    forall id | id in r.jobs ensures GoodJob(r, id) {
      if id in s.jobs { assert GoodJob(s, id); }
    }
  }

  lemma PollKeeps(s: Memory, id: nat)
    requires Inv(s)
    ensures Inv(AfterPoll(s, id))
  {
    if id in s.jobs && s.jobs[id].status.Queued? {
      var r := AfterPoll(s, id);
      PromoteKeeps(s, s.jobs[id].contextGraphId, s.jobs[id].roots);
      var (promoted, ok) := AfterPromote(s, s.jobs[id].contextGraphId, s.jobs[id].roots);
      forall other | other in r.jobs ensures GoodJob(r, other) {
        assert GoodJob(promoted, other);
        assert ok ==> InVerifiable(promoted, s.jobs[id].roots);
      }
    }
  }

  lemma {:induction false} RunKeeps(s: Memory, ops: seq<Op>)
    requires Inv(s)
    ensures Inv(Run(s, ops))
  {
    if ops != [] {
      RunKeeps(s, ops[..|ops| - 1]);
      StepKeeps(Run(s, ops[..|ops| - 1]), ops[|ops| - 1]);
    }
  }

  lemma EveryReachableState(ops: seq<Op>)
    ensures Inv(Run(EMPTY, ops))
  {
    RunKeeps(EMPTY, ops);
  }

  lemma TerminalJobStays(s: Memory, op: Op, id: nat)
    requires id in s.jobs && id <= s.jobSequence && !s.jobs[id].status.Queued? && !op.Clear?
    ensures id in Step(s, op).jobs && Step(s, op).jobs[id] == s.jobs[id] && s.jobSequence <= Step(s, op).jobSequence
  {
    match op
    case Create(cg, name, quads) => CreateLeavesJobs(s, cg, name, quads);
    case Publish(cg, name, quads, clearAfter) => CreateLeavesJobs(s, cg, name, quads);
    case _ =>
  }

  lemma CreateLeavesJobs(s: Memory, cg: string, name: string, quads: seq<Quad>)
    ensures var r := AfterCreate(s, cg, name, quads).0; r.jobs == s.jobs && r.jobSequence == s.jobSequence
  {
  }

  /** Once a job has ended it never changes, short of clearing everything. */
  lemma {:induction false} TerminalJobsStay(s: Memory, ops: seq<Op>, id: nat)
    requires id in s.jobs && id <= s.jobSequence && !s.jobs[id].status.Queued?
    requires forall i :: 0 <= i < |ops| ==> !ops[i].Clear?
    ensures id in Run(s, ops).jobs && Run(s, ops).jobs[id] == s.jobs[id] && s.jobSequence <= Run(s, ops).jobSequence
  {
    if ops != [] {
      TerminalJobsStay(s, ops[..|ops| - 1], id);
      TerminalJobStays(Run(s, ops[..|ops| - 1]), ops[|ops| - 1], id);
    }
  }

  // ----- publishing at once and publishing through a job

  lemma {:induction false} WriteRootsOk(working: Layer, b: Batch, roots: seq<string>)
    ensures WriteRoots(working, b, roots).1 <==> forall i :: 0 <= i < |roots| ==> CreateRecord(b, roots[i]).Some?
  {
    if roots != [] {
      var n := |roots| - 1;
      WriteRootsOk(working, b, roots[..n]);
      assert forall i :: 0 <= i < n ==> roots[..n][i] == roots[i];
    }
  }

  /** Every subject has a marker quad. */
  ghost predicate Marked(quads: seq<Quad>) {
    forall i :: 0 <= i < |quads| ==> HasMarker(quads, quads[i].subject)
  }

  lemma MarkedIff(b: Batch)
    ensures Marked(b.quads) <==> forall root :: root in UniqueSubjects(b.quads) ==> CreateRecord(b, root).Some?
  {
    var subjects := Subjects(b.quads);
    DistinctlyMeaning(subjects);
    forall root ensures CreateRecord(b, root).Some? <==> HasMarker(b.quads, root) { CreateRecordSays(b, root); }
    if Marked(b.quads) {
      forall root | root in subjects ensures HasMarker(b.quads, root) {
        var i :| 0 <= i < |subjects| && subjects[i] == root;
      }
    } else {
      var i :| 0 <= i < |b.quads| && !HasMarker(b.quads, b.quads[i].subject);
      assert subjects[i] in subjects;
    }
  }

  ghost predicate AllFound(layer: Layer, cg: string, roots: seq<string>) {
    forall i :: 0 <= i < |roots| ==> Find(layer, cg, roots[i]).Some?
  }

  lemma WriteSucceedsIffMarked(s: Memory, cg: string, quads: seq<Quad>, name: Option<string>)
    ensures AfterWrite(s, cg, quads, name).1 <==> Marked(quads)
  {
    var b, roots := Batch(cg, quads, Draft(s.draftSequence + 1), name), UniqueSubjects(quads);
    WriteRootsOk(s.working, b, roots);
    MarkedIff(b);
    if AfterWrite(s, cg, quads, name).1 {
      forall root | root in roots ensures CreateRecord(b, root).Some? {
        var i :| 0 <= i < |roots| && roots[i] == root;
      }
    } else {
      var i :| 0 <= i < |roots| && CreateRecord(b, roots[i]).None?;
      assert roots[i] in roots;
    }
  }

  lemma WrittenAreFound(s: Memory, cg: string, quads: seq<Quad>, name: Option<string>)
    requires AfterWrite(s, cg, quads, name).1
    ensures AllFound(AfterWrite(s, cg, quads, name).0.working, cg, UniqueSubjects(quads))
  {
    var b, roots := Batch(cg, quads, Draft(s.draftSequence + 1), name), UniqueSubjects(quads);
    forall i | 0 <= i < |roots| ensures Find(AfterWrite(s, cg, quads, name).0.working, cg, roots[i]).Some? {
      WriteRootsAt(s.working, b, roots, roots[i]);
    }
  }

  /** Creating an asset fails only when its write does, and otherwise the roots are shared. */
  lemma CreatedIsShared(s: Memory, cg: string, name: string, quads: seq<Quad>)
    ensures AfterCreate(s, cg, name, quads).1 <==> AfterWrite(s, cg, quads, Some(name)).1
    ensures AfterCreate(s, cg, name, quads).1 ==> AllFound(AfterCreate(s, cg, name, quads).0.shared, cg, UniqueSubjects(quads))
  {
    var roots := UniqueSubjects(quads);
    var (written, wrote) := AfterWrite(s, cg, quads, Some(name));
    if wrote {
      WrittenAreFound(s, cg, quads, Some(name));
      var stamp := Sharing(written.shareSequence + 1);
      CopyRootsOk(written.working, written.shared, cg, stamp, roots);
      forall i | 0 <= i < |roots| ensures Find(AfterLift(written, cg, roots).0.shared, cg, roots[i]).Some? {
        assert Find(written.working, cg, roots[i]).Some?;
        CopyRootsAt(written.working, written.shared, cg, stamp, roots, roots[i]);
      }
    }
  }

  lemma PublishSucceedsIfCreated(s: Memory, cg: string, name: string, quads: seq<Quad>, clearAfter: bool)
    ensures AfterPublish(s, cg, name, quads, clearAfter).1 <==> AfterCreate(s, cg, name, quads).1
  {
    CreatedIsShared(s, cg, name, quads);
    var (created, ok) := AfterCreate(s, cg, name, quads);
    if ok {
      CopyRootsOk(created.shared, created.verifiable, cg, Promoting(created.kcSequence + 1), UniqueSubjects(quads));
    }
  }

  lemma PublishSucceedsIffMarked(s: Memory, cg: string, name: string, quads: seq<Quad>, clearAfter: bool)
    ensures AfterPublish(s, cg, name, quads, clearAfter).1 <==> Marked(quads)
  {
    PublishSucceedsIfCreated(s, cg, name, quads, clearAfter);
    CreatedIsShared(s, cg, name, quads);
    WriteSucceedsIffMarked(s, cg, quads, Some(name));
  }

  /** Create, enqueue and poll end where one synchronous publish ends, but for the job itself. */
  lemma JobEqualsPublish(s: Memory, cg: string, name: string, quads: seq<Quad>)
    ensures var (created, ok) := AfterCreate(s, cg, name, quads);
            var (published, done) := AfterPublish(s, cg, name, quads, false);
            if !ok then published == created && !done
            else
              var (queued, accepted) := AfterEnqueue(created, cg, name);
              var polled := AfterPoll(queued, queued.jobSequence);
              && done && accepted && polled.jobs[queued.jobSequence].status.Finalized?
              && polled.(jobs := s.jobs, jobSequence := s.jobSequence) == published
  {
    CreatedIsShared(s, cg, name, quads);
    PublishSucceedsIfCreated(s, cg, name, quads, false);
    var (created, ok) := AfterCreate(s, cg, name, quads);
    if ok {
      var roots := UniqueSubjects(quads);
      assert created.assets[AssetKey(cg, name)].roots == roots;
      forall i | 0 <= i < |roots| ensures roots[i] in created.shared { assert Find(created.shared, cg, roots[i]).Some?; }
      assert AllShared(created, roots);
    }
  }

  /** A record of the published quads, as they were given. */
  ghost predicate Stages(r: Record, cg: string, name: string, quads: seq<Quad>, root: string) {
    && r.contextGraphId == cg && r.rootEntity == root && r.assertionName == Some(name)
    && Selects(r.quads, quads, root) && exists i :: MarkedBy(quads, root, i, r.marker)
  }

  ghost predicate Stores(r: Record, cg: string, name: string, quads: seq<Quad>, root: string) {
    && r.contextGraphId == cg && r.rootEntity == root && r.assertionName == Some(name)
    && r.quads == RootQuads(quads, root) && Marker(r.quads) == Some(r.marker)
  }

  lemma WrittenIsStored(s: Memory, cg: string, name: string, quads: seq<Quad>, root: string)
    requires AfterWrite(s, cg, quads, Some(name)).1 && root in UniqueSubjects(quads)
    ensures var r := AfterWrite(s, cg, quads, Some(name)).0; root in r.working && Stores(r.working[root], cg, name, quads, root)
  {
    WriteRootsAt(s.working, Batch(cg, quads, Draft(s.draftSequence + 1), Some(name)), UniqueSubjects(quads), root);
  }

  lemma CreatedIsStored(s: Memory, cg: string, name: string, quads: seq<Quad>, root: string)
    requires AfterCreate(s, cg, name, quads).1 && root in UniqueSubjects(quads)
    ensures var r := AfterCreate(s, cg, name, quads).0;
            && root in r.shared && Stores(r.shared[root], cg, name, quads, root)
            && r.shared[root].shareOperationId == Share(r.shareSequence)
  {
    WrittenIsStored(s, cg, name, quads, root);
    var written := AfterWrite(s, cg, quads, Some(name)).0;
    CopyRootsAt(written.working, written.shared, cg, Sharing(written.shareSequence + 1), UniqueSubjects(quads), root);
  }

  lemma PublishedIsStored(s: Memory, cg: string, name: string, quads: seq<Quad>, clearAfter: bool, root: string)
    requires AfterCreate(s, cg, name, quads).1 && root in UniqueSubjects(quads)
    ensures var r := AfterPublish(s, cg, name, quads, clearAfter).0;
            && root in r.verifiable && Stores(r.verifiable[root], cg, name, quads, root)
            && r.verifiable[root].kaId == Some(r.kcSequence) && r.verifiable[root].shareOperationId == Share(r.shareSequence)
            && (clearAfter ==> root !in r.shared)
  {
    var created := AfterCreate(s, cg, name, quads).0;
    PublishSucceedsIfCreated(s, cg, name, quads, clearAfter);
    CreatedIsStored(s, cg, name, quads, root);
    CopyRootsAt(created.shared, created.verifiable, cg, Promoting(created.kcSequence + 1), UniqueSubjects(quads), root);
    WithoutAt(created.shared, UniqueSubjects(quads), root);
  }

  /** What was published is what a query of verifiable memory finds. */
  lemma PublishedIsRead(s: Memory, cg: string, name: string, quads: seq<Quad>, clearAfter: bool, i: nat)
    requires Marked(quads) && i < |quads|
    ensures var (r, root) := (AfterPublish(s, cg, name, quads, clearAfter).0, quads[i].subject);
            && root in r.verifiable && Stages(r.verifiable[root], cg, name, quads, root)
            && r.verifiable[root].kaId == Some(r.kcSequence) && r.verifiable[root].shareOperationId == Share(r.shareSequence)
            && (clearAfter ==> root !in r.shared)
  {
    var root := quads[i].subject;
    assert Subjects(quads)[i] == root;
    DistinctlyMeaning(Subjects(quads));
    PublishSucceedsIffMarked(s, cg, name, quads, clearAfter);
    PublishSucceedsIfCreated(s, cg, name, quads, clearAfter);
    PublishedIsStored(s, cg, name, quads, clearAfter, root);
    StoredIsStaged(AfterPublish(s, cg, name, quads, clearAfter).0.verifiable[root], cg, name, quads, root);
  }

  lemma StoredIsStaged(r: Record, cg: string, name: string, quads: seq<Quad>, root: string)
    requires Stores(r, cg, name, quads, root)
    ensures Stages(r, cg, name, quads, root)
  {
    MarkerSays(quads, root);
    RootQuadsSelect(quads, root);
  }

  // ----- what each operation does, read off the memory

  predicate MarksRoot(q: Quad, root: string) { q.subject == root && q.predicate_ == IDENTIFIER }

  ghost predicate HasMarker(quads: seq<Quad>, root: string) {
    exists i :: 0 <= i < |quads| && MarksRoot(quads[i], root)
  }

  /** The text without the quote at its front and then the one at its back, where there is one. */
  ghost predicate Strips(text: string, marker: string) {
    exists a, b :: StripsBy(text, marker, a, b)
  }

  ghost predicate StripsBy(text: string, marker: string, a: nat, b: nat) {
    && a + |marker| + b == |text| && a <= 1 && b <= 1
    && (forall i :: 0 <= i < |marker| ==> marker[i] == text[a + i])
    && (a == 1 <==> text != "" && text[0] == '"')
    && (b == 1 <==> a < |text| && text[|text| - 1] == '"')
  }

  lemma UnquoteStrips(text: string)
    ensures Strips(text, Unquote(text))
  {
    var a := if text != "" && text[0] == '"' then 1 else 0;
    var b := if a < |text| && text[|text| - 1] == '"' then 1 else 0;
    assert Unquote(text) == text[a..|text| - b];
    assert StripsBy(text, Unquote(text), a, b);
  }

  /** The first marker quad of the root gives the marker. */
  ghost predicate MarkedBy(quads: seq<Quad>, root: string, i: int, marker: string) {
    && 0 <= i < |quads| && MarksRoot(quads[i], root) && Strips(quads[i].object_, marker)
    && forall j :: 0 <= j < i ==> !MarksRoot(quads[j], root)
  }

  lemma {:induction false} MarkerAppend(quads: seq<Quad>, q: Quad)
    ensures Marker(quads + [q]) ==
            if Marker(quads).Some? then Marker(quads) else if q.predicate_ == IDENTIFIER then Some(Unquote(q.object_)) else None
  {
    if quads == [] {
      assert quads + [q] == [q] && [q][1..] == [];
    } else {
      MarkerAppend(quads[1..], q);
      assert (quads + [q])[1..] == quads[1..] + [q];
    }
  }

  lemma {:induction false} MarkerSays(quads: seq<Quad>, root: string)
    ensures var marker := Marker(RootQuads(quads, root));
            && (marker.Some? <==> HasMarker(quads, root))
            && (marker.Some? ==> exists i :: MarkedBy(quads, root, i, marker.value))
  {
    if quads != [] {
      var n := |quads| - 1;
      var front, last := quads[..n], quads[n];
      MarkerSays(front, root);
      UnquoteStrips(last.object_);
      MarkerAppend(RootQuads(front, root), last);
      assert forall i :: 0 <= i < n ==> quads[i] == front[i];
      if Marker(RootQuads(front, root)).Some? {
        var i :| MarkedBy(front, root, i, Marker(RootQuads(front, root)).value);
        assert MarkedBy(quads, root, i, Marker(RootQuads(front, root)).value);
      } else if MarksRoot(last, root) {
        assert MarkedBy(quads, root, n, Unquote(last.object_));
      }
    }
  }

  function Of(root: string): Quad -> bool { (q: Quad) => q.subject == root }

  /** Exactly the root's quads, in the order given: each at the place its rank among them says. */
  ghost predicate Selects(picked: seq<Quad>, quads: seq<Quad>, root: string) {
    && |picked| == Count(Of(root), quads)
    && forall i :: 0 <= i < |quads| && quads[i].subject == root ==>
         Count(Of(root), quads[..i]) < |picked| && picked[Count(Of(root), quads[..i])] == quads[i]
  }

  lemma {:induction false} RootQuadsSelect(quads: seq<Quad>, root: string)
    ensures Selects(RootQuads(quads, root), quads, root)
  {
    if quads != [] {
      var n := |quads| - 1;
      RootQuadsSelect(quads[..n], root);
      CountLast(Of(root), quads);
      assert forall i :: 0 <= i < n ==> quads[..n][..i] == quads[..i] && quads[..n][i] == quads[i];
    }
  }

  /** The record that a write makes of the root. */
  ghost predicate RecordOf(r: Record, b: Batch, root: string) {
    && r.contextGraphId == b.contextGraphId && r.rootEntity == root && Selects(r.quads, b.quads, root)
    && (exists i :: MarkedBy(b.quads, root, i, r.marker))
    && r.shareOperationId == b.operation && r.assertionName == b.assertionName && r.kaId == None
  }

  lemma CreateRecordSays(b: Batch, root: string)
    ensures var r := CreateRecord(b, root);
            (r.Some? <==> HasMarker(b.quads, root)) && (r.Some? ==> RecordOf(r.value, b, root))
  {
    MarkerSays(b.quads, root);
    RootQuadsSelect(b.quads, root);
  }

  /** Of the first n roots the layer has the given records, of every other root what it had. */
  ghost predicate Updates(before: Layer, after: Layer, roots: seq<string>, n: nat, good: (string, Record) -> bool)
    requires n <= |roots|
  {
    forall root :: if root in roots[..n] then root in after && good(root, after[root])
                   else (root in after <==> root in before) && (root in before ==> after[root] == before[root])
  }

  lemma UpdatesOne(before: Layer, middle: Layer, roots: seq<string>, n: nat, good: (string, Record) -> bool, r: Record)
    requires n < |roots| && Updates(before, middle, roots, n, good) && good(roots[n], r)
    ensures Updates(before, middle[roots[n] := r], roots, n + 1, good)
  {
    var after := middle[roots[n] := r];
    forall root ensures if root in roots[..n + 1] then root in after && good(root, after[root])
                        else (root in after <==> root in before) && (root in before ==> after[root] == before[root])
    {
      assert roots[..n + 1] == roots[..n] + [roots[n]];
    }
  }

  /** The first n roots were done, in order; a root that cannot be done stopped the rest. */
  ghost predicate Stepwise(before: Layer, after: Layer, roots: seq<string>, n: nat, ok: bool,
                           can: string -> bool, good: (string, Record) -> bool) {
    && n <= |roots| && (ok <==> n == |roots|)
    && (forall i :: 0 <= i < n ==> can(roots[i])) && (n < |roots| ==> !can(roots[n]))
    && Updates(before, after, roots, n, good)
  }

  lemma StepwiseMore(before: Layer, middle: Layer, roots: seq<string>, n: nat, ok: bool,
                     can: string -> bool, good: (string, Record) -> bool, r: Option<Record>)
    requires roots != [] && Stepwise(before, middle, roots[..|roots| - 1], n, ok, can, good)
    requires var root := roots[|roots| - 1]; (r.Some? <==> can(root)) && (r.Some? ==> good(root, r.value))
    ensures if ok && r.Some? then Stepwise(before, middle[roots[|roots| - 1] := r.value], roots, |roots|, true, can, good)
            else Stepwise(before, middle, roots, n, false, can, good)
  {
    var k := |roots| - 1;
    assert roots[..k][..n] == roots[..n];
    if ok && r.Some? { UpdatesOne(before, middle, roots, k, good, r.value); }
  }

  ghost function CanMake(quads: seq<Quad>): string -> bool { (root: string) => HasMarker(quads, root) }

  ghost function Made(b: Batch): (string, Record) -> bool { (root: string, r: Record) => RecordOf(r, b, root) }

  lemma {:induction false} WriteRootsSays(working: Layer, b: Batch, roots: seq<string>) returns (n: nat)
    ensures var (r, ok) := WriteRoots(working, b, roots); Stepwise(working, r, roots, n, ok, CanMake(b.quads), Made(b))
  {
    n := 0;
    if roots != [] {
      var k := |roots| - 1;
      n := WriteRootsSays(working, b, roots[..k]);
      var (before, ok) := WriteRoots(working, b, roots[..k]);
      var r := CreateRecord(b, roots[k]);
      CreateRecordSays(b, roots[k]);
      StepwiseMore(working, before, roots, n, ok, CanMake(b.quads), Made(b), r);
      if ok && r.Some? { n := k + 1; }
    }
  }

  /** A write changes working memory and the draft number only. */
  ghost predicate Wrote(s: Memory, r: Memory, cg: string, quads: seq<Quad>, name: Option<string>, n: nat, ok: bool) {
    && r == s.(working := r.working, draftSequence := s.draftSequence + 1)
    && Stepwise(s.working, r.working, UniqueSubjects(quads), n, ok, CanMake(quads),
                Made(Batch(cg, quads, Draft(s.draftSequence + 1), name)))
  }

  lemma WriteSays(s: Memory, cg: string, quads: seq<Quad>, name: Option<string>) returns (n: nat)
    ensures Wrote(s, AfterWrite(s, cg, quads, name).0, cg, quads, name, n, AfterWrite(s, cg, quads, name).1)
  {
    n := WriteRootsSays(s.working, Batch(cg, quads, Draft(s.draftSequence + 1), name), UniqueSubjects(quads));
  }

  /** The root is missing, or belongs to another context graph. */
  ghost predicate Missing(layer: Layer, cg: string, root: string) {
    root in layer ==> layer[root].contextGraphId != cg
  }

  ghost function CanCopy(layer: Layer, cg: string): string -> bool { (root: string) => !Missing(layer, cg, root) }

  ghost function Stamped(source: Layer, stamp: Record -> Record): (string, Record) -> bool {
    (root: string, r: Record) => root in source && r == stamp(source[root])
  }

  lemma {:induction false} CopyRootsSays(source: Layer, sink: Layer, cg: string, stamp: Record -> Record, roots: seq<string>)
    returns (n: nat)
    ensures var (r, ok) := CopyRoots(source, sink, cg, stamp, roots);
            Stepwise(sink, r, roots, n, ok, CanCopy(source, cg), Stamped(source, stamp))
  {
    n := 0;
    if roots != [] {
      var k := |roots| - 1;
      n := CopyRootsSays(source, sink, cg, stamp, roots[..k]);
      var (before, ok) := CopyRoots(source, sink, cg, stamp, roots[..k]);
      var r := if roots[k] in source && source[roots[k]].contextGraphId == cg then Some(stamp(source[roots[k]])) else None;
      StepwiseMore(sink, before, roots, n, ok, CanCopy(source, cg), Stamped(source, stamp), r);
      if ok && r.Some? { n := k + 1; }
    }
  }

  /** A lift changes shared memory and the share number only. */
  ghost predicate Lifted(s: Memory, r: Memory, cg: string, roots: seq<string>, n: nat, ok: bool) {
    && r == s.(shared := r.shared, shareSequence := s.shareSequence + 1)
    && Stepwise(s.shared, r.shared, roots, n, ok, CanCopy(s.working, cg),
                Stamped(s.working, (rec: Record) => rec.(shareOperationId := Share(s.shareSequence + 1))))
  }

  /** A missing or foreign root stops a lift: the roots before it are shared under the new number, nothing else. */
  lemma LiftSays(s: Memory, cg: string, roots: seq<string>) returns (n: nat)
    ensures Lifted(s, AfterLift(s, cg, roots).0, cg, roots, n, AfterLift(s, cg, roots).1)
  {
    n := CopyRootsSays(s.working, s.shared, cg, Sharing(s.shareSequence + 1), roots);
    var r := AfterLift(s, cg, roots).0;
    SameUpdates(s.shared, r.shared, roots, n, Stamped(s.working, Sharing(s.shareSequence + 1)),
                Stamped(s.working, (rec: Record) => rec.(shareOperationId := Share(s.shareSequence + 1))));
  }

  lemma SameUpdates(before: Layer, after: Layer, roots: seq<string>, n: nat,
                    good: (string, Record) -> bool, same: (string, Record) -> bool)
    requires n <= |roots| && Updates(before, after, roots, n, good)
    requires forall root, r :: good(root, r) ==> same(root, r)
    ensures Updates(before, after, roots, n, same)
  {
  }

  /** A promotion changes verifiable memory and the asset number only. */
  ghost predicate Promoted(s: Memory, r: Memory, cg: string, roots: seq<string>, n: nat, ok: bool) {
    && r == s.(verifiable := r.verifiable, kcSequence := s.kcSequence + 1)
    && Stepwise(s.verifiable, r.verifiable, roots, n, ok, CanCopy(s.shared, cg),
                Stamped(s.shared, (rec: Record) => rec.(kaId := Some(s.kcSequence + 1))))
  }

  lemma PromoteSays(s: Memory, cg: string, roots: seq<string>) returns (n: nat)
    ensures Promoted(s, AfterPromote(s, cg, roots).0, cg, roots, n, AfterPromote(s, cg, roots).1)
  {
    n := CopyRootsSays(s.shared, s.verifiable, cg, Promoting(s.kcSequence + 1), roots);
    var r := AfterPromote(s, cg, roots).0;
    SameUpdates(s.verifiable, r.verifiable, roots, n, Stamped(s.shared, Promoting(s.kcSequence + 1)),
                Stamped(s.shared, (rec: Record) => rec.(kaId := Some(s.kcSequence + 1))));
  }

  /**
   * Polling a queued job promotes its roots up to the first missing or foreign one. The job ends as finalized
   * when there is none and as failed otherwise. Any other poll changes nothing.
   */
  ghost predicate Polled(s: Memory, r: Memory, id: nat, n: nat) {
    if id !in s.jobs || s.jobs[id].status != Queued then r == s
    else
      var job := s.jobs[id];
      && r.jobs == s.jobs[id := Job(job.contextGraphId, job.assertionName, job.roots, if n == |job.roots| then Finalized else Failed)]
      && Promoted(s, r.(jobs := s.jobs), job.contextGraphId, job.roots, n, n == |job.roots|)
  }

  lemma PollSays(s: Memory, id: nat) returns (n: nat)
    ensures Polled(s, AfterPoll(s, id), id, n)
  {
    n := 0;
    if id in s.jobs && s.jobs[id].status == Queued {
      n := PromoteSays(s, s.jobs[id].contextGraphId, s.jobs[id].roots);
    }
  }

  /** A job is queued exactly when the asset exists and all its roots are shared; it takes the next number. */
  ghost predicate Enqueued(s: Memory, r: Memory, cg: string, name: string, ok: bool) {
    var key := cg + "\0" + name;
    && (ok <==> key in s.assets && forall i :: 0 <= i < |s.assets[key].roots| ==> s.assets[key].roots[i] in s.shared)
    && if !ok then r == s
       else
         var id := s.jobSequence + 1;
         r == s.(jobSequence := id, jobs := s.jobs[id := Job(cg, name, s.assets[key].roots, Queued)])
  }

  /** Write, lift and name, in that order; the roots that a failed write has made stay. */
  ghost predicate Created(s: Memory, written: Memory, r: Memory, cg: string, name: string, quads: seq<Quad>, n: nat, ok: bool) {
    var roots := UniqueSubjects(quads);
    && Wrote(s, written, cg, quads, Some(name), n, ok)
    && if !ok then r == written
       else
         && r.assets == s.assets[cg + "\0" + name := Asset(cg, name, roots)]
         && Lifted(written, r.(assets := s.assets), cg, roots, |roots|, true)
  }

  lemma CreateSays(s: Memory, cg: string, name: string, quads: seq<Quad>) returns (n: nat)
    ensures Created(s, AfterWrite(s, cg, quads, Some(name)).0, AfterCreate(s, cg, name, quads).0, cg, name, quads, n,
                    AfterCreate(s, cg, name, quads).1)
  {
    n := WriteSays(s, cg, quads, Some(name));
    CreatedIsShared(s, cg, name, quads);
    var written := AfterWrite(s, cg, quads, Some(name)).0;
    var _ := LiftSays(written, cg, UniqueSubjects(quads));
  }

  /** Create, promote, and on request take the roots out of shared memory again. */
  ghost predicate Published(created: Memory, r: Memory, cg: string, quads: seq<Quad>, clearAfter: bool) {
    var roots := UniqueSubjects(quads);
    && Promoted(created, r.(shared := created.shared), cg, roots, |roots|, true)
    && r.shared.Keys == (if clearAfter then created.shared.Keys - Elements(roots) else created.shared.Keys)
    && forall root :: root in r.shared ==> root in created.shared && r.shared[root] == created.shared[root]
  }

  lemma PublishSays(s: Memory, cg: string, name: string, quads: seq<Quad>, clearAfter: bool)
    ensures var (created, ok) := AfterCreate(s, cg, name, quads);
            var (r, done) := AfterPublish(s, cg, name, quads, clearAfter);
            done == ok && if ok then Published(created, r, cg, quads, clearAfter) else r == created
  {
    var roots := UniqueSubjects(quads);
    var (created, ok) := AfterCreate(s, cg, name, quads);
    CreatedIsShared(s, cg, name, quads);
    PublishSucceedsIfCreated(s, cg, name, quads, clearAfter);
    if ok {
      var _ := PromoteSays(created, cg, roots);
      forall root ensures root in Without(created.shared, roots) <==> root in created.shared && root !in roots
                  ensures root in Without(created.shared, roots) ==> Without(created.shared, roots)[root] == created.shared[root]
      {
        WithoutAt(created.shared, roots, root);
      }
    }
  }

  ghost predicate WroteSome(s: Memory, r: Memory, cg: string, quads: seq<Quad>, name: Option<string>, ok: bool) {
    exists n: nat :: Wrote(s, r, cg, quads, name, n, ok)
  }

  lemma SomeWrite(s: Memory, cg: string, quads: seq<Quad>, name: Option<string>)
    ensures WroteSome(s, AfterWrite(s, cg, quads, name).0, cg, quads, name, AfterWrite(s, cg, quads, name).1)
  {
    var n := WriteSays(s, cg, quads, name);
  }

  ghost predicate LiftedSome(s: Memory, r: Memory, cg: string, roots: seq<string>, ok: bool) {
    exists n: nat :: Lifted(s, r, cg, roots, n, ok)
  }

  lemma SomeLift(s: Memory, cg: string, roots: seq<string>)
    ensures LiftedSome(s, AfterLift(s, cg, roots).0, cg, roots, AfterLift(s, cg, roots).1)
  {
    var n := LiftSays(s, cg, roots);
  }

  ghost predicate CreatedSome(s: Memory, r: Memory, cg: string, name: string, quads: seq<Quad>, ok: bool) {
    exists written, n: nat :: Created(s, written, r, cg, name, quads, n, ok)
  }

  lemma SomeCreate(s: Memory, cg: string, name: string, quads: seq<Quad>)
    ensures CreatedSome(s, AfterCreate(s, cg, name, quads).0, cg, name, quads, AfterCreate(s, cg, name, quads).1)
  {
    var n := CreateSays(s, cg, name, quads);
  }

  ghost predicate PublishedFrom(s: Memory, created: Memory, r: Memory, cg: string, name: string, quads: seq<Quad>,
                                clearAfter: bool, ok: bool) {
    && CreatedSome(s, created, cg, name, quads, ok)
    && if ok then Published(created, r, cg, quads, clearAfter) else r == created
  }

  ghost predicate PublishedSome(s: Memory, r: Memory, cg: string, name: string, quads: seq<Quad>, clearAfter: bool, ok: bool) {
    exists created :: PublishedFrom(s, created, r, cg, name, quads, clearAfter, ok)
  }

  lemma SomePublish(s: Memory, cg: string, name: string, quads: seq<Quad>, clearAfter: bool)
    ensures var (r, ok) := AfterPublish(s, cg, name, quads, clearAfter); PublishedSome(s, r, cg, name, quads, clearAfter, ok)
  {
    SomeCreate(s, cg, name, quads);
    PublishSays(s, cg, name, quads, clearAfter);
    var (r, ok) := AfterPublish(s, cg, name, quads, clearAfter);
    assert PublishedFrom(s, AfterCreate(s, cg, name, quads).0, r, cg, name, quads, clearAfter, ok);
  }

  ghost predicate PolledSome(s: Memory, r: Memory, id: nat) { exists n: nat :: Polled(s, r, id, n) }

  lemma SomePoll(s: Memory, id: nat)
    ensures PolledSome(s, AfterPoll(s, id), id)
  {
    var n := PollSays(s, id);
  }

  // ----- the client

  class Client {
    var working: Layer
    var shared: Layer
    var verifiable: Layer
    var assets: map<string, Asset>
    var jobs: map<nat, Job>
    var shareSequence: nat
    var draftSequence: nat
    var kcSequence: nat
    var jobSequence: nat

    ghost function State(): Memory
      reads this
    {
      Memory(working, shared, verifiable, assets, jobs, shareSequence, draftSequence, kcSequence, jobSequence)
    }

    constructor ()
      ensures State() == EMPTY
    {
      working, shared, verifiable, assets, jobs := map[], map[], map[], map[], map[];
      shareSequence, draftSequence, kcSequence, jobSequence := 0, 0, 0, 0;
    }

    /** Lines 52 to 58. */
    method Clear()
      modifies this
      ensures State() == AfterClear(old(State()))
    {
      working, shared, verifiable, assets, jobs := map[], map[], map[], map[], map[];
    }

    /** Lines 79 to 82. */
    method WriteEach(b: Batch, roots: seq<string>) returns (ok: bool)
      modifies this`working
      ensures (working, ok) == WriteRoots(old(working), b, roots)
    {
      for i := 0 to |roots|
        invariant (working, true) == WriteRoots(old(working), b, roots[..i])
      {
        assert roots[..i + 1][..i] == roots[..i];
        var record := CreateRecord(b, roots[i]);
        if record.None? {
          WriteStops(old(working), b, roots, i + 1);
          return false;
        }
        working := working[roots[i] := record.value];
      }
      assert roots[..|roots|] == roots;
      return true;
    }

    /** Lines 77 to 84. */
    method WriteWorkingMemory(contextGraphId: string, quads: seq<Quad>, name: Option<string>) returns (ok: bool)
      modifies this`working, this`draftSequence
      ensures (State(), ok) == AfterWrite(old(State()), contextGraphId, quads, name)
      ensures WroteSome(old(State()), State(), contextGraphId, quads, name, ok)
    {
      SomeWrite(State(), contextGraphId, quads, name);
      draftSequence := draftSequence + 1;
      ok := WriteEach(Batch(contextGraphId, quads, Draft(draftSequence), name), UniqueSubjects(quads));
    }

    /** Lines 88 to 95. */
    method LiftEach(contextGraphId: string, roots: seq<string>, share: nat) returns (ok: bool)
      modifies this`shared
      ensures (shared, ok) == CopyRoots(working, old(shared), contextGraphId, Sharing(share), roots)
    {
      var stamp := Sharing(share);
      for i := 0 to |roots|
        invariant (shared, true) == CopyRoots(working, old(shared), contextGraphId, stamp, roots[..i])
      {
        assert roots[..i + 1][..i] == roots[..i];
        if roots[i] !in working || working[roots[i]].contextGraphId != contextGraphId {
          CopyStops(working, old(shared), contextGraphId, stamp, roots, i + 1);
          return false;
        }
        shared := shared[roots[i] := stamp(working[roots[i]])];
      }
      assert roots[..|roots|] == roots;
      return true;
    }

    /** Lines 86 to 97. */
    method LiftWorkingMemoryToSharedMemory(contextGraphId: string, roots: seq<string>) returns (ok: bool)
      modifies this`shared, this`shareSequence
      ensures (State(), ok) == AfterLift(old(State()), contextGraphId, roots)
      ensures LiftedSome(old(State()), State(), contextGraphId, roots, ok)
    {
      SomeLift(State(), contextGraphId, roots);
      shareSequence := shareSequence + 1;
      ok := LiftEach(contextGraphId, roots, shareSequence);
    }

    /** Lines 65 to 68. */
    method WriteLiftAndName(contextGraphId: string, name: string, quads: seq<Quad>) returns (ok: bool)
      modifies this
      ensures (State(), ok) == AfterCreate(old(State()), contextGraphId, name, quads)
    {
      var roots := UniqueSubjects(quads);
      ok := WriteWorkingMemory(contextGraphId, quads, Some(name));
      if !ok { return; }
      ok := LiftWorkingMemoryToSharedMemory(contextGraphId, roots);
      if !ok { return; }
      assets := assets[AssetKey(contextGraphId, name) := Asset(contextGraphId, name, roots)];
    }

    /** Lines 60 to 75. */
    method CreateKnowledgeAsset(contextGraphId: string, name: string, quads: seq<Quad>) returns (ok: bool)
      modifies this
      ensures (State(), ok) == AfterCreate(old(State()), contextGraphId, name, quads)
      ensures CreatedSome(old(State()), State(), contextGraphId, name, quads, ok)
    {
      SomeCreate(State(), contextGraphId, name, quads);
      ok := WriteLiftAndName(contextGraphId, name, quads);
    }

    /** Lines 153 to 156 and 185 to 192: the roots of a job, in order. */
    method PromoteSharedRoots(contextGraphId: string, roots: seq<string>) returns (ok: bool)
      modifies this`verifiable, this`kcSequence
      ensures (State(), ok) == AfterPromote(old(State()), contextGraphId, roots)
    {
      kcSequence := kcSequence + 1;
      var stamp := Promoting(kcSequence);
      for i := 0 to |roots|
        invariant (verifiable, true) == CopyRoots(shared, old(verifiable), contextGraphId, stamp, roots[..i])
        invariant kcSequence == old(kcSequence) + 1
      {
        assert roots[..i + 1][..i] == roots[..i];
        if roots[i] !in shared || shared[roots[i]].contextGraphId != contextGraphId {
          CopyStops(shared, old(verifiable), contextGraphId, stamp, roots, i + 1);
          return false;
        }
        verifiable := verifiable[roots[i] := stamp(shared[roots[i]])];
      }
      assert roots[..|roots|] == roots;
      return true;
    }

    /** Lines 115 to 118 and 185 to 192. */
    method PromoteAndClear(contextGraphId: string, roots: seq<string>, clearAfter: bool)
      requires Distinct(roots) && AllFound(shared, contextGraphId, roots)
      modifies this`verifiable, this`shared
      ensures (verifiable, true) == CopyRoots(old(shared), old(verifiable), contextGraphId, Promoting(kcSequence), roots)
      ensures shared == if clearAfter then Without(old(shared), roots) else old(shared)
    {
      var stamp := Promoting(kcSequence);
      for i := 0 to |roots|
        invariant (verifiable, true) == CopyRoots(old(shared), old(verifiable), contextGraphId, stamp, roots[..i])
        invariant shared == if clearAfter then Without(old(shared), roots[..i]) else old(shared)
      {
        assert roots[..i + 1][..i] == roots[..i];
        assert Find(old(shared), contextGraphId, roots[i]).Some?;
        WithoutAt(old(shared), roots[..i], roots[i]);
        verifiable := verifiable[roots[i] := stamp(shared[roots[i]])];
        if clearAfter { shared := shared - {roots[i]}; }
      }
      assert roots[..|roots|] == roots;
    }

    /** Lines 110 to 118. */
    method CreateAndPromote(contextGraphId: string, name: string, quads: seq<Quad>, clearAfter: bool) returns (ok: bool)
      modifies this
      ensures (State(), ok) == AfterPublish(old(State()), contextGraphId, name, quads, clearAfter)
    {
      CreatedIsShared(State(), contextGraphId, name, quads);
      ok := WriteLiftAndName(contextGraphId, name, quads);
      if !ok { return; }
      DistinctlyMeaning(Subjects(quads));
      kcSequence := kcSequence + 1;
      PromoteAndClear(contextGraphId, UniqueSubjects(quads), clearAfter);
    }

    /** Lines 99 to 124. */
    method PublishAssertion(contextGraphId: string, name: string, quads: seq<Quad>, clearAfter: bool) returns (ok: bool)
      modifies this
      ensures (State(), ok) == AfterPublish(old(State()), contextGraphId, name, quads, clearAfter)
      ensures PublishedSome(old(State()), State(), contextGraphId, name, quads, clearAfter, ok)
    {
      SomePublish(State(), contextGraphId, name, quads, clearAfter);
      ok := CreateAndPromote(contextGraphId, name, quads, clearAfter);
    }

    /** Lines 126 to 146. */
    method KnowledgeAssetPublishAsync(contextGraphId: string, name: string) returns (id: Option<nat>)
      modifies this`jobs, this`jobSequence
      ensures (State(), id.Some?) == AfterEnqueue(old(State()), contextGraphId, name)
      ensures Enqueued(old(State()), State(), contextGraphId, name, id.Some?)
      ensures id.Some? ==> id.value == jobSequence
    {
      var key := AssetKey(contextGraphId, name);
      if key !in assets { return None; }
      var roots := assets[key].roots;
      for i := 0 to |roots|
        invariant forall j :: 0 <= j < i ==> roots[j] in shared
        invariant jobs == old(jobs) && jobSequence == old(jobSequence)
      {
        if roots[i] !in shared { return None; }
      }
      jobSequence := jobSequence + 1;
      jobs := jobs[jobSequence := Job(contextGraphId, name, roots, Queued)];
      return Some(jobSequence);
    }

    /** Lines 148 to 166. */
    method PublisherJob(id: nat) returns (status: Option<Status>)
      modifies this`verifiable, this`kcSequence, this`jobs
      ensures State() == AfterPoll(old(State()), id)
      ensures PolledSome(old(State()), State(), id)
      ensures status == if id in jobs then Some(jobs[id].status) else None
    {
      SomePoll(State(), id);
      if id !in jobs { return None; }
      var job := jobs[id];
      if job.status.Queued? {
        var ok := PromoteSharedRoots(job.contextGraphId, job.roots);
        jobs := jobs[id := job.(status := if ok then Finalized else Failed)];
      }
      return Some(jobs[id].status);
    }
  }

  lemma {:induction false} WriteStops(working: Layer, b: Batch, roots: seq<string>, n: nat)
    requires n <= |roots| && !WriteRoots(working, b, roots[..n]).1
    ensures WriteRoots(working, b, roots) == WriteRoots(working, b, roots[..n])
  {
    if n < |roots| {
      assert roots[..|roots| - 1][..n] == roots[..n];
      WriteStops(working, b, roots[..|roots| - 1], n);
    } else {
      assert roots[..n] == roots;
    }
  }

  lemma {:induction false} CopyStops(source: Layer, sink: Layer, cg: string, stamp: Record -> Record, roots: seq<string>, n: nat)
    requires n <= |roots| && !CopyRoots(source, sink, cg, stamp, roots[..n]).1
    ensures CopyRoots(source, sink, cg, stamp, roots) == CopyRoots(source, sink, cg, stamp, roots[..n])
  {
    if n < |roots| {
      assert roots[..|roots| - 1][..n] == roots[..n];
      CopyStops(source, sink, cg, stamp, roots[..|roots| - 1], n);
    } else {
      assert roots[..n] == roots;
    }
  }
}
