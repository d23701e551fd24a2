/**
 * Publishing a JSON artifact through a temporary file in the same directory.
 *
 * The file system keeps, beside its live state, every directory state that a power
 * loss could leave behind. Each system call consumes one answer of a finite script,
 * and running out of answers is the power loss, so a statement about every script
 * covers a loss after any step. Nobody else changes the directory.
 */
module Publication {
  import opened Sequences

  type Bytes = seq<bv8>

  const PRIVATE_MODE := 0x180  // 0600

  /** What a directory entry names: nothing, the file that was there before, or the new file. */
  datatype Link = Absent | Previous | Draft

  datatype Directory = Directory(target: Link, temporary: bool)

  /** `openMode` is the mode that creating a file yields under the process's mask. */
  datatype Fs = Fs(
    openMode: int, previous: Bytes, draft: Bytes, draftMode: int, draftSynced: bool,
    live: Directory, survivors: set<Directory>)

  /** A call does its work, or fails; a failing write may leave some of its bytes. */
  datatype Answer = Done | Fail(written: Bytes)

  datatype Step =
    | CheckTopology | CheckReplaceable | Open | Stat | Chmod | Write | SyncFile | Close
    | Rename | Verify | SyncDirectory

  datatype Cleanup = Cleaned | TopologyChanged | UnlinkFailed | NotNeeded

  datatype Outcome = Returned | Threw(renamed: bool, cleanup: Cleanup) | PowerLost

  /** Lines 1219 to 1262, in order. */
  const PROGRAM := [
    CheckTopology, CheckReplaceable, Open, Stat, Chmod, Write, SyncFile, Close,
    CheckTopology, CheckReplaceable, Rename, CheckTopology, Verify, SyncDirectory, CheckTopology]

  const OPEN := 2
  const CHMOD := 4
  const WRITE := 5
  const SYNC := 6
  const RENAME := 10
  const SYNC_DIRECTORY := 13

  /** The bytes at the target in a directory state, as the running system sees them. */
  function Content(fs: Fs, d: Directory): Option<Bytes> {
    match d.target
    case Absent => None
    case Previous => Some(fs.previous)
    case Draft => Some(fs.draft)
  }

  /** The bytes that could be at the target after a power loss that leaves directory state `d`. */
  ghost predicate MayHold(fs: Fs, d: Directory, content: Option<Bytes>) {
    if d.target.Draft? && !fs.draftSynced then content.Some? else content == Content(fs, d)
  }

  ghost predicate MaySurvive(fs: Fs, content: Option<Bytes>) {
    exists d :: d in fs.survivors && MayHold(fs, d, content)
  }

  function Enter(fs: Fs, d: Directory): Fs { fs.(live := d, survivors := fs.survivors + {d}) }

  /** The effect of a call that succeeds. */
  function Effect(fs: Fs, step: Step, json: Bytes, posix: bool): Fs {
    match step
    case Open => Enter(fs, fs.live.(temporary := true)).(draft := [], draftMode := fs.openMode, draftSynced := false)
    case Chmod => if posix then fs.(draftMode := PRIVATE_MODE) else fs
    case Write => fs.(draft := json, draftSynced := false)
    case SyncFile => fs.(draftSynced := true)
    case Rename => Enter(fs, Directory(Draft, false))
    case SyncDirectory => if posix then fs.(survivors := {fs.live}) else fs
    case _ => fs
  }

  /** The effect of a call that fails. */
  function Damage(fs: Fs, step: Step, answer: Answer): Fs
    requires answer.Fail?
  {
    if step == Write then fs.(draft := answer.written, draftSynced := false) else fs
  }

  /** The file mode and the directory barrier exist on POSIX only. */
  predicate Fails(answer: Answer, step: Step, posix: bool) {
    answer.Fail? && (posix || (step != Chmod && step != SyncDirectory))
  }

  /** What reading the published file back finds wrong. */
  predicate Misread(fs: Fs, step: Step, json: Bytes, posix: bool) {
    step == Verify && (Content(fs, fs.live) != Some(json) || (posix && fs.draftMode != PRIVATE_MODE))
  }

  /** No temporary file yet, and the directory is on disk. */
  ghost predicate Initial(fs: Fs) {
    !fs.live.target.Draft? && !fs.live.temporary && fs.survivors == {fs.live}
  }

  /** After any power loss the target holds what it held, or exactly the new JSON. */
  ghost predicate CrashSafe(before: Fs, json: Bytes, fs: Fs) {
    forall content :: MaySurvive(fs, content) ==> content == Content(before, before.live) || content == Some(json)
  }

  /** The state after the first `pc` steps. */
  ghost predicate At(before: Fs, json: Bytes, posix: bool, fs: Fs, pc: nat) {
    var created, renamed := before.live.(temporary := true), Directory(Draft, false);
    && fs.previous == before.previous
    && (pc <= OPEN ==> fs == before)
    && (pc > CHMOD && posix ==> fs.draftMode == PRIVATE_MODE)
    && (OPEN < pc <= RENAME ==> fs.live == created && fs.survivors == {before.live, created})
    && (WRITE < pc ==> fs.draft == json)
    && (SYNC < pc ==> fs.draftSynced)
    && (RENAME < pc ==> fs.live == renamed)
    && (RENAME < pc ==> fs.survivors == if pc > SYNC_DIRECTORY && posix then {renamed} else {before.live, created, renamed})
  }

  lemma Advance(before: Fs, json: Bytes, posix: bool, fs: Fs, pc: nat)
    requires Initial(before) && pc < |PROGRAM| && At(before, json, posix, fs, pc)
    ensures !Misread(fs, PROGRAM[pc], json, posix)
    ensures At(before, json, posix, Effect(fs, PROGRAM[pc], json, posix), pc + 1)
  {
  }

  lemma AlwaysSafe(before: Fs, json: Bytes, posix: bool, fs: Fs, pc: nat)
    requires Initial(before) && At(before, json, posix, fs, pc)
    ensures CrashSafe(before, json, fs)
    ensures pc <= RENAME ==> TargetUntouched(before, fs)
  {
    if pc <= RENAME {
      forall content | MaySurvive(fs, content) ensures content == Content(before, before.live) {
        var d :| d in fs.survivors && MayHold(fs, d, content);
      }
    }
  }

  /** Live or after a power loss, the target is what it was. */
  ghost predicate TargetUntouched(before: Fs, fs: Fs) {
    && Content(fs, fs.live) == Content(before, before.live)
    && forall content :: MaySurvive(fs, content) ==> content == Content(before, before.live)
  }

  /** Step i fails; off POSIX the file mode and the directory barrier cannot. */
  ghost predicate Stumbles(answer: Answer, i: nat, posix: bool) {
    answer.Fail? && (posix || (i != CHMOD && i != SYNC_DIRECTORY))
  }

  ghost predicate FirstStumble(answers: seq<Answer>, posix: bool, k: nat) {
    && k < |answers| && k < |PROGRAM| && Stumbles(answers[k], k, posix)
    && forall i: nat :: i < k ==> !Stumbles(answers[i], i, posix)
  }

  lemma FailsIff(answer: Answer, i: nat, posix: bool)
    requires i < |PROGRAM|
    ensures Fails(answer, PROGRAM[i], posix) <==> Stumbles(answer, i, posix)
  {
  }

  /** Cleaning up checks the directory and then unlinks; either may fail, and the power may go before either. */
  ghost predicate CleansUp(answers: seq<Answer>, outcome: Outcome) {
    match outcome
    case PowerLost => answers == [] || (|answers| == 1 && answers[0].Done?)
    case Threw(renamed, cleanup) =>
      !renamed && (match cleanup
                   case TopologyChanged => |answers| >= 1 && answers[0].Fail?
                   case UnlinkFailed => |answers| >= 2 && answers[0].Done? && answers[1].Fail?
                   case Cleaned => |answers| >= 2 && answers[0].Done? && answers[1].Done?
                   case NotNeeded => false)
    case Returned => false
  }

  /** Before the file is opened and after the rename there is nothing to clean up. */
  ghost predicate EndsAt(answers: seq<Answer>, k: nat, outcome: Outcome)
    requires k < |answers|
  {
    if k < OPEN then outcome == Threw(false, NotNeeded)
    else if k > RENAME then outcome == Threw(true, NotNeeded)
    else CleansUp(answers[k + 1..], outcome)
  }

  /** Lines 1178 to 1193. */
  method CleanUp(fs: Fs, answers: seq<Answer>) returns (r: Fs, outcome: Outcome)
    ensures outcome.PowerLost? || (outcome.Threw? && !outcome.renamed && !outcome.cleanup.NotNeeded?)
    ensures r == if outcome == Threw(false, Cleaned) then Enter(fs, fs.live.(temporary := false)) else fs
    ensures CleansUp(answers, outcome)
  {
    r := fs;
    if answers == [] { return r, PowerLost; }
    if answers[0].Fail? { return r, Threw(false, TopologyChanged); }
    if |answers| == 1 { return r, PowerLost; }
    if answers[1].Fail? { return r, Threw(false, UnlinkFailed); }
    return Enter(fs, fs.live.(temporary := false)), Threw(false, Cleaned);
  }

  /** Lines 1217 to 1279. */
  method WriteStableJsonArtifact(before: Fs, json: Bytes, posix: bool, answers: seq<Answer>)
    returns (fs: Fs, outcome: Outcome)
    requires Initial(before)
    ensures CrashSafe(before, json, fs)
    ensures Content(fs, fs.live) == Content(before, before.live) || Content(fs, fs.live) == Some(json)
    ensures outcome.Returned? <==>
              |answers| >= |PROGRAM| && forall i: nat :: i < |PROGRAM| ==> !Stumbles(answers[i], i, posix)
    ensures forall k: nat :: FirstStumble(answers, posix, k) ==> EndsAt(answers, k, outcome)
    ensures |answers| < |PROGRAM| && (forall i: nat :: i < |answers| ==> !Stumbles(answers[i], i, posix)) ==> outcome.PowerLost?
    ensures FirstStumble(answers, posix, WRITE) ==> fs.draft == answers[WRITE].written
    ensures outcome.Returned? ==> Published(before, json, posix, fs)
    ensures outcome.Threw? && !outcome.renamed ==> TargetUntouched(before, fs)
    ensures outcome.Threw? && (outcome.cleanup.Cleaned? || outcome.cleanup.NotNeeded?) ==> !fs.live.temporary
    ensures outcome.Threw? && outcome.renamed ==> Content(fs, fs.live) == Some(json)
  {
    fs := before;
    for pc := 0 to |PROGRAM|
      invariant pc <= |answers| && At(before, json, posix, fs, pc)
      invariant forall i: nat :: i < pc ==> !Stumbles(answers[i], i, posix)
    {
      AlwaysSafe(before, json, posix, fs, pc);
      if pc == |answers| { return fs, PowerLost; }
      Advance(before, json, posix, fs, pc);
      FailsIff(answers[pc], pc, posix);
      var step := PROGRAM[pc];
      if Fails(answers[pc], step, posix) || Misread(fs, step, json, posix) {
        fs := Damage(fs, step, answers[pc]);
        AlwaysSafe(before, json, posix, fs, pc);
        if pc < OPEN { return fs, Threw(false, NotNeeded); }
        if pc > RENAME { return fs, Threw(true, NotNeeded); }
        CleaningIsSafe(before, json, posix, fs, pc);
        fs, outcome := CleanUp(fs, answers[pc + 1..]);
        return;
      }
      fs := Effect(fs, step, json, posix);
    }
    AlwaysSafe(before, json, posix, fs, |PROGRAM|);
    PublishedAtEnd(before, json, posix, fs);
    return fs, Returned;
  }

  lemma CleaningIsSafe(before: Fs, json: Bytes, posix: bool, fs: Fs, pc: nat)
    requires Initial(before) && At(before, json, posix, fs, pc) && pc <= RENAME
    ensures var cleaned := Enter(fs, fs.live.(temporary := false));
            cleaned.survivors == fs.survivors && Content(cleaned, cleaned.live) == Content(fs, fs.live)
            && TargetUntouched(before, cleaned) && CrashSafe(before, json, cleaned)
  {
    AlwaysSafe(before, json, posix, fs, pc);
    var cleaned := Enter(fs, fs.live.(temporary := false));
    assert cleaned.live == before.live && cleaned.survivors == fs.survivors;
    forall content | MaySurvive(cleaned, content) ensures MaySurvive(fs, content) {
      var d :| d in cleaned.survivors && MayHold(cleaned, d, content);
      assert MayHold(fs, d, content);
    }
  }

  /**
   * What a normal return means. On POSIX the new bytes and their directory entry survive
   * any later power loss; elsewhere the rename itself may still be lost, whole.
   */
  ghost predicate Published(before: Fs, json: Bytes, posix: bool, fs: Fs) {
    && Content(fs, fs.live) == Some(json) && !fs.live.temporary && (posix ==> fs.draftMode == PRIVATE_MODE)
    && forall content :: MaySurvive(fs, content) <==>
         content == Some(json) || (!posix && content == Content(before, before.live))
  }

  lemma PublishedAtEnd(before: Fs, json: Bytes, posix: bool, fs: Fs)
    requires Initial(before) && At(before, json, posix, fs, |PROGRAM|)
    ensures Published(before, json, posix, fs)
  {
    assert fs.live in fs.survivors && MayHold(fs, fs.live, Some(json));
    if !posix { assert before.live in fs.survivors && MayHold(fs, before.live, Content(before, before.live)); }
  }
}
