/**
 * Paying a distribution plan out through a resumable ledger.
 *
 * A run meets an environment that decides how each transfer ends. Crashes, lost
 * confirmations and failed ledger writes are all outcomes, so a list of runs
 * covers every history of one distribution file.
 */
module Ledger {
  import opened Sequences
  import opened Distribution
  import opened Refunds
  import Allocation

  const MAX_FAILURES := 3

  /** The transfer with number `tx`, in the order in which the chain accepted them. */
  datatype Entry = Entry(payment: Payment, tx: nat)

  datatype File = Missing | Entries(list: seq<Entry>) | Corrupt

  /** How one attempt to pay ends. */
  datatype Event =
    | Confirmed                     // mined, recorded and saved
    | Rejected                      // an error before any token moved
    | Unconfirmed                   // mined, but the confirmation was lost
    | SaveFailed(damaged: bool)     // mined and recorded in memory, the file not written or half written
    | CrashBeforeSend
    | CrashAfterSend
    | CrashInSave

  datatype World = World(file: File, transfers: seq<Payment>)

  /** A run in progress: the world, the ledger in memory, the failure count. */
  datatype Run = Run(world: World, entries: seq<Entry>, failures: nat, stopped: bool)

  // ----- one run

  predicate Paid(entries: seq<Entry>, p: Payment) {
    exists i :: 0 <= i < |entries| && entries[i].payment == p
  }

  function Send(w: World, p: Payment): World { w.(transfers := w.transfers + [p]) }

  function Fail(r: Run): Run {
    r.(failures := r.failures + 1, stopped := r.failures + 1 >= MAX_FAILURES)
  }

  function Attempt(r: Run, p: Payment, event: Event): Run {
    var recorded := r.entries + [Entry(p, |r.world.transfers|)];
    match event
    case Confirmed => r.(world := World(Entries(recorded), r.world.transfers + [p]), entries := recorded)
    case Rejected => Fail(r)
    case Unconfirmed => Fail(r.(world := Send(r.world, p)))
    case SaveFailed(damaged) =>
      Fail(r.(world := World(if damaged then Corrupt else r.world.file, r.world.transfers + [p]), entries := recorded))
    case CrashBeforeSend => r.(stopped := true)
    case CrashAfterSend => r.(world := Send(r.world, p), stopped := true)
    case CrashInSave => r.(world := World(Corrupt, r.world.transfers + [p]), entries := recorded, stopped := true)
  }

  /** The payment loop. A script that ends early is a crash between two payments. */
  function PayAll(r: Run, payments: seq<Payment>, events: seq<Event>): Run
    decreases payments
  {
    if payments == [] || r.stopped then r
    else if Paid(r.entries, payments[0]) then PayAll(r, payments[1..], events)
    else if events == [] then r.(stopped := true)
    else PayAll(Attempt(r, payments[0], events[0]), payments[1..], events[1..])
  }

  function Loaded(file: File): seq<Entry> {
    if file.Entries? then file.list else []
  }

  function PaidPart(entries: seq<Entry>, payments: seq<Payment>): seq<Payment> {
    if payments == [] then []
    else (if Paid(entries, payments[0]) then [payments[0]] else []) + PaidPart(entries, payments[1..])
  }

  function UnpaidPart(entries: seq<Entry>, payments: seq<Payment>): seq<Payment> {
    if payments == [] then []
    else (if Paid(entries, payments[0]) then [] else [payments[0]]) + UnpaidPart(entries, payments[1..])
  }

  function Remaining(plan: Plan, file: File): int {
    plan.totalWei - PaymentSum(PaidPart(Loaded(file), plan.publishers))
  }

  /** Whether the script gets as far as the payment loop. */
  predicate Starts(w: World, plan: Plan, dryRun: bool, balance: int) {
    && !w.file.Corrupt?
    && plan.count != |PaidPart(Loaded(w.file), plan.publishers)|
    && !dryRun
    && balance >= Remaining(plan, w.file)
  }

  function RunOnce(w: World, plan: Plan, dryRun: bool, balance: int, events: seq<Event>): World {
    if Starts(w, plan, dryRun, balance)
    then PayAll(Run(w, Loaded(w.file), 0, false), plan.publishers, events).world
    else w
  }

  // ----- what every run keeps

  /** Each payment is recorded at most once, and each record is a transfer that really happened. */
  ghost predicate Honest(entries: seq<Entry>, transfers: seq<Payment>) {
    && (forall i, j :: 0 <= i < j < |entries| ==> entries[i].payment != entries[j].payment)
    && (forall i :: 0 <= i < |entries| ==> entries[i].tx < |transfers| && transfers[entries[i].tx] == entries[i].payment)
  }

  ghost predicate Good(w: World) { Honest(Loaded(w.file), w.transfers) }

  /** During a run the file is damaged or holds a prefix of the ledger in memory. */
  ghost predicate RunInv(r: Run) {
    && Honest(r.entries, r.world.transfers)
    && (r.world.file.Corrupt? || Loaded(r.world.file) <= r.entries)
  }

  lemma HonestSend(entries: seq<Entry>, transfers: seq<Payment>, p: Payment)
    requires Honest(entries, transfers)
    ensures Honest(entries, transfers + [p])
    ensures !Paid(entries, p) ==> Honest(entries + [Entry(p, |transfers|)], transfers + [p])
  {
  }

  lemma AttemptKeeps(r: Run, p: Payment, event: Event)
    requires RunInv(r) && !Paid(r.entries, p)
    ensures RunInv(Attempt(r, p, event))
    ensures r.entries <= Attempt(r, p, event).entries <= r.entries + [Entry(p, |r.world.transfers|)]
    ensures r.world.transfers <= Attempt(r, p, event).world.transfers <= r.world.transfers + [p]
  {
    HonestSend(r.entries, r.world.transfers, p);
  }

  /** The file still holds everything in `base`, or is damaged and will not load. */
  ghost predicate KeepsFile(base: seq<Entry>, file: File) {
    file.Corrupt? || base <= Loaded(file)
  }

  lemma PaidMonotone(a: seq<Entry>, b: seq<Entry>, p: Payment)
    requires a <= b && Paid(a, p)
    ensures Paid(b, p)
  {
    var i :| 0 <= i < |a| && a[i].payment == p;
    assert b[i].payment == p;
  }

  /** The loop keeps the ledger honest, never drops a record, and sends only what was unpaid. */
  lemma {:induction false} PayAllKeeps(r: Run, payments: seq<Payment>, events: seq<Event>, base: seq<Entry>)
    requires RunInv(r) && base <= r.entries && KeepsFile(base, r.world.file)
    ensures var r' := PayAll(r, payments, events);
            && RunInv(r')
            && KeepsFile(base, r'.world.file)
            && r.world.transfers <= r'.world.transfers
            && forall i :: |r.world.transfers| <= i < |r'.world.transfers| ==> !Paid(r.entries, r'.world.transfers[i])
    decreases payments
  {
    if payments != [] && !r.stopped {
      if Paid(r.entries, payments[0]) {
        PayAllKeeps(r, payments[1..], events, base);
      } else if events != [] {
        var next := Attempt(r, payments[0], events[0]);
        AttemptKeeps(r, payments[0], events[0]);
        PayAllKeeps(next, payments[1..], events[1..], base);
        var r' := PayAll(r, payments, events);
        forall i | |r.world.transfers| <= i < |r'.world.transfers| ensures !Paid(r.entries, r'.world.transfers[i]) {
          if i >= |next.world.transfers| && Paid(r.entries, r'.world.transfers[i]) {
            PaidMonotone(r.entries, next.entries, r'.world.transfers[i]);
          }
        }
      }
    }
  }

  lemma RunOnceKeeps(w: World, plan: Plan, dryRun: bool, balance: int, events: seq<Event>)
    requires Good(w)
    ensures var w' := RunOnce(w, plan, dryRun, balance, events);
            && Good(w')
            && KeepsFile(Loaded(w.file), w'.file)
            && w.transfers <= w'.transfers
            && forall i :: |w.transfers| <= i < |w'.transfers| ==>
                 !w.file.Corrupt? && !Paid(Loaded(w.file), w'.transfers[i])
  {
    if Starts(w, plan, dryRun, balance) {
      var r := Run(w, Loaded(w.file), 0, false);
      PayAllKeeps(r, plan.publishers, events, Loaded(w.file));
      PrefixHonest(Loaded(PayAll(r, plan.publishers, events).world.file), PayAll(r, plan.publishers, events));
    }
  }

  lemma PrefixHonest(list: seq<Entry>, r: Run)
    requires RunInv(r) && (r.world.file.Corrupt? ==> list == []) && (!r.world.file.Corrupt? ==> list <= r.entries)
    ensures Honest(list, r.world.transfers)
  {
  }

  // ----- histories

  datatype Invocation = Invocation(dryRun: bool, balance: int, events: seq<Event>)

  function RunMany(w: World, plan: Plan, runs: seq<Invocation>): World
    decreases runs
  {
    if runs == [] then w
    else RunMany(RunOnce(w, plan, runs[0].dryRun, runs[0].balance, runs[0].events), plan, runs[1..])
  }

  function Sends(transfers: seq<Payment>, p: Payment): set<nat> {
    set i: nat | i < |transfers| && transfers[i] == p
  }

  /** The sends of `p` that never reached the ledger file. */
  function Unrecorded(w: World, p: Payment): set<nat> {
    set i | i in Sends(w.transfers, p) && Entry(p, i) !in Loaded(w.file)
  }

  /** Over any history that leaves a ledger that loads, a payment is sent at most once more than its sends without an entry there. */
  lemma {:induction false} AtMostOncePerRecord(w: World, plan: Plan, runs: seq<Invocation>, p: Payment)
    requires Good(w)
    ensures Good(RunMany(w, plan, runs))
    ensures |Sends(RunMany(w, plan, runs).transfers, p)| <= 1 + |Unrecorded(RunMany(w, plan, runs), p)|
    decreases runs
  {
    if runs == [] {
      var recorded := Sends(w.transfers, p) - Unrecorded(w, p);
      if i, j :| i in recorded && j in recorded && i != j {
        assert false;
      }
      AtMostOne(recorded);
      SubsetSize(Sends(w.transfers, p), recorded + Unrecorded(w, p));
      assert |recorded + Unrecorded(w, p)| <= |recorded| + |Unrecorded(w, p)|;
    } else {
      RunOnceKeeps(w, plan, runs[0].dryRun, runs[0].balance, runs[0].events);
      AtMostOncePerRecord(RunOnce(w, plan, runs[0].dryRun, runs[0].balance, runs[0].events), plan, runs[1..], p);
    }
  }

  lemma AtMostOne(s: set<nat>)
    requires forall i, j :: i in s && j in s ==> i == j
    ensures |s| <= 1
  {
    if s != {} {
      var x :| x in s;
      assert s == {x};
    }
  }

  /** A recorded payment is never sent again, whatever happens in later runs. */
  lemma {:induction false} RecordedIsNeverPaidAgain(w: World, plan: Plan, runs: seq<Invocation>, p: Payment)
    requires Good(w) && (w.file.Corrupt? || Paid(Loaded(w.file), p))
    ensures Sends(RunMany(w, plan, runs).transfers, p) == Sends(w.transfers, p)
    decreases runs
  {
    if runs != [] {
      var w' := RunOnce(w, plan, runs[0].dryRun, runs[0].balance, runs[0].events);
      RunOnceKeeps(w, plan, runs[0].dryRun, runs[0].balance, runs[0].events);
      if !w'.file.Corrupt? && !w.file.Corrupt? { PaidMonotone(Loaded(w.file), Loaded(w'.file), p); }
      RecordedIsNeverPaidAgain(w', plan, runs[1..], p);
      assert Sends(w'.transfers, p) == Sends(w.transfers, p);
    }
  }

  /** How the attempts at one payment ended: saved at once, or sent without that. */
  datatype Tally = Tally(confirmed: nat, unsaved: nat)

  /**
   * Tokens moved, and the attempt ended without saving a record of it. After a failed save the
   * entry stays in memory, and the next save of the same run may still write it.
   */
  predicate EndsUnsaved(event: Event) {
    event.Unconfirmed? || event.SaveFailed? || event.CrashAfterSend? || event.CrashInSave?
  }

  function Noted(t: Tally, event: Event): Tally {
    if event.Confirmed? then t.(confirmed := t.confirmed + 1)
    else if EndsUnsaved(event) then t.(unsaved := t.unsaved + 1)
    else t
  }

  /** The events that the attempts at `p` met in one run. */
  function AttemptTally(r: Run, payments: seq<Payment>, events: seq<Event>, p: Payment): Tally
    decreases payments
  {
    if payments == [] || r.stopped then Tally(0, 0)
    else if Paid(r.entries, payments[0]) then AttemptTally(r, payments[1..], events, p)
    else if events == [] then Tally(0, 0)
    else
      var rest := AttemptTally(Attempt(r, payments[0], events[0]), payments[1..], events[1..], p);
      if payments[0] == p then Noted(rest, events[0]) else rest
  }

  /** The same over a history of runs. */
  function TallyMany(w: World, plan: Plan, runs: seq<Invocation>, p: Payment): Tally
    decreases runs
  {
    if runs == [] then Tally(0, 0)
    else
      var once := if Starts(w, plan, runs[0].dryRun, runs[0].balance)
                  then AttemptTally(Run(w, Loaded(w.file), 0, false), plan.publishers, runs[0].events, p)
                  else Tally(0, 0);
      var rest := TallyMany(RunOnce(w, plan, runs[0].dryRun, runs[0].balance, runs[0].events), plan, runs[1..], p);
      Tally(once.confirmed + rest.confirmed, once.unsaved + rest.unsaved)
  }

  /** How often `p` was sent. */
  function Sent(transfers: seq<Payment>, p: Payment): nat { Count(Is(p), transfers) }

  lemma SentAppend(transfers: seq<Payment>, q: Payment, p: Payment)
    ensures Sent(transfers + [q], p) == Sent(transfers, p) + if q == p then 1 else 0
  {
    CountAppend(Is(p), transfers, q);
  }

  lemma AttemptSends(r: Run, q: Payment, event: Event, p: Payment)
    ensures Sent(Attempt(r, q, event).world.transfers, p)
         == Sent(r.world.transfers, p) + if q == p && (event.Confirmed? || EndsUnsaved(event)) then 1 else 0
  {
    SentAppend(r.world.transfers, q, p);
  }

  /** The file does not load, or it records the payment. */
  ghost predicate Settled(file: File, p: Payment) { file.Corrupt? || Paid(Loaded(file), p) }

  /** What is on record in memory is not attempted again in the same run. */
  lemma {:induction false} RecordedIsSkipped(r: Run, payments: seq<Payment>, events: seq<Event>, p: Payment)
    requires RunInv(r) && Paid(r.entries, p)
    ensures AttemptTally(r, payments, events, p) == Tally(0, 0)
    decreases payments
  {
    if payments != [] && !r.stopped {
      if Paid(r.entries, payments[0]) {
        RecordedIsSkipped(r, payments[1..], events, p);
      } else if events != [] {
        AttemptKeeps(r, payments[0], events[0]);
        PaidMonotone(r.entries, Attempt(r, payments[0], events[0]).entries, p);
        RecordedIsSkipped(Attempt(r, payments[0], events[0]), payments[1..], events[1..], p);
      }
    }
  }

  lemma ConfirmedIsOnRecord(r: Run, q: Payment)
    ensures Paid(Attempt(r, q, Confirmed).entries, q)
    ensures Loaded(Attempt(r, q, Confirmed).world.file) == Attempt(r, q, Confirmed).entries
  {
    var recorded := Attempt(r, q, Confirmed).entries;
    assert recorded[|recorded| - 1].payment == q;
  }

  /** In one run every send is an attempt that was confirmed or ended unsaved, at most one is confirmed, and then the file settles it. */
  lemma {:induction false} RunTally(r: Run, payments: seq<Payment>, events: seq<Event>, p: Payment)
    requires RunInv(r)
    ensures var t, r' := AttemptTally(r, payments, events, p), PayAll(r, payments, events);
            && Sent(r'.world.transfers, p) == Sent(r.world.transfers, p) + t.confirmed + t.unsaved
            && t.confirmed <= 1
            && (t.confirmed == 1 ==> Settled(r'.world.file, p))
    decreases payments
  {
    if payments != [] && !r.stopped {
      if Paid(r.entries, payments[0]) {
        RunTally(r, payments[1..], events, p);
      } else if events != [] {
        var next := Attempt(r, payments[0], events[0]);
        AttemptKeeps(r, payments[0], events[0]);
        AttemptSends(r, payments[0], events[0], p);
        RunTally(next, payments[1..], events[1..], p);
        if payments[0] == p && events[0].Confirmed? {
          ConfirmedIsOnRecord(r, p);
          RecordedIsSkipped(next, payments[1..], events[1..], p);
          PayAllKeeps(next, payments[1..], events[1..], next.entries);
          var file := PayAll(next, payments[1..], events[1..]).world.file;
          if !file.Corrupt? { PaidMonotone(next.entries, Loaded(file), p); }
        }
      }
    }
  }

  /** Once the ledger settles a payment, no later run attempts it. */
  lemma {:induction false} SettledIsNeverAttempted(w: World, plan: Plan, runs: seq<Invocation>, p: Payment)
    requires Good(w) && Settled(w.file, p)
    ensures TallyMany(w, plan, runs, p) == Tally(0, 0)
    decreases runs
  {
    if runs != [] {
      var w' := RunOnce(w, plan, runs[0].dryRun, runs[0].balance, runs[0].events);
      RunOnceKeeps(w, plan, runs[0].dryRun, runs[0].balance, runs[0].events);
      if !w.file.Corrupt? {
        RecordedIsSkipped(Run(w, Loaded(w.file), 0, false), plan.publishers, runs[0].events, p);
        if !w'.file.Corrupt? { PaidMonotone(Loaded(w.file), Loaded(w'.file), p); }
      }
      SettledIsNeverAttempted(w', plan, runs[1..], p);
    }
  }

  /**
   * Over any history, damaged ledgers included, a payment is sent as often as its attempts were
   * confirmed or ended unsaved, and at most one attempt is ever confirmed.
   */
  lemma {:induction false} SendsAreConfirmedOrUnsaved(w: World, plan: Plan, runs: seq<Invocation>, p: Payment)
    requires Good(w)
    ensures var t := TallyMany(w, plan, runs, p);
            && Sent(RunMany(w, plan, runs).transfers, p) == Sent(w.transfers, p) + t.confirmed + t.unsaved
            && t.confirmed <= 1
            && (Settled(w.file, p) ==> t == Tally(0, 0))
    decreases runs
  {
    if Settled(w.file, p) { SettledIsNeverAttempted(w, plan, runs, p); }
    if runs != [] {
      var w' := RunOnce(w, plan, runs[0].dryRun, runs[0].balance, runs[0].events);
      RunOnceKeeps(w, plan, runs[0].dryRun, runs[0].balance, runs[0].events);
      if Starts(w, plan, runs[0].dryRun, runs[0].balance) {
        RunTally(Run(w, Loaded(w.file), 0, false), plan.publishers, runs[0].events, p);
      }
      SendsAreConfirmedOrUnsaved(w', plan, runs[1..], p);
    }
  }

  // ----- the balance check

  /** Paid and unpaid payments add up to the plan. */
  lemma {:induction false} PaidPlusUnpaid(entries: seq<Entry>, payments: seq<Payment>)
    ensures PaymentSum(PaidPart(entries, payments)) + PaymentSum(UnpaidPart(entries, payments)) == PaymentSum(payments)
    ensures |PaidPart(entries, payments)| + |UnpaidPart(entries, payments)| == |payments|
  {
    if payments != [] {
      var p, rest := payments[0], payments[1..];
      PaidPlusUnpaid(entries, rest);
      SumByFirst(PaidWei, payments);
      if Paid(entries, p) {
        SumByFirst(PaidWei, [p] + PaidPart(entries, rest));
        assert ([p] + PaidPart(entries, rest))[1..] == PaidPart(entries, rest);
        assert [] + UnpaidPart(entries, rest) == UnpaidPart(entries, rest);
      } else {
        SumByFirst(PaidWei, [p] + UnpaidPart(entries, rest));
        assert ([p] + UnpaidPart(entries, rest))[1..] == UnpaidPart(entries, rest);
        assert [] + PaidPart(entries, rest) == PaidPart(entries, rest);
      }
    }
  }

  /** What a run sends is a selection, in order, of what was unpaid when it started. */
  ghost predicate Selection(sent: seq<Payment>, from: seq<Payment>)
    decreases from
  {
    sent == [] ||
    (from != [] && (Selection(sent, from[1..]) || (sent[0] == from[0] && Selection(sent[1..], from[1..]))))
  }

  lemma {:induction false} SelectionSum(sent: seq<Payment>, from: seq<Payment>)
    requires Selection(sent, from) && NoneNegative(from)
    ensures 0 <= PaymentSum(sent) <= PaymentSum(from)
    ensures NoneNegative(sent)
    decreases from
  {
    if from != [] {
      SumByFirst(PaidWei, from);
      if Selection(sent, from[1..]) {
        SelectionSum(sent, from[1..]);
      } else {
        SumByFirst(PaidWei, sent);
        SelectionSum(sent[1..], from[1..]);
      }
    }
  }

  lemma {:induction false} SelectionOfMore(sent: seq<Payment>, a: seq<Entry>, b: seq<Entry>, payments: seq<Payment>)
    requires a <= b && Selection(sent, UnpaidPart(b, payments))
    ensures Selection(sent, UnpaidPart(a, payments))
    decreases payments
  {
    if sent != [] && payments != [] {
      var p, rest := payments[0], payments[1..];
      var less, more := UnpaidPart(b, rest), UnpaidPart(a, rest);
      if Paid(a, p) { PaidMonotone(a, b, p); }
      assert [] + less == less && [] + more == more && ([p] + less)[1..] == less && ([p] + more)[1..] == more;
      if Paid(b, p) || Selection(sent, less) {
        SelectionOfMore(sent, a, b, rest);
      } else {
        SelectionOfMore(sent[1..], a, b, rest);
      }
    }
  }

  lemma SelectionStep(sent: seq<Payment>, p: Payment, from: seq<Payment>)
    requires Selection(sent, from)
    ensures Selection(sent, [p] + from) && Selection([p] + sent, [p] + from)
  {
    assert ([p] + from)[1..] == from && ([p] + sent)[1..] == sent;
  }

  lemma {:induction false} PayAllSelects(r: Run, payments: seq<Payment>, events: seq<Event>)
    requires RunInv(r)
    ensures r.world.transfers <= PayAll(r, payments, events).world.transfers
    ensures Selection(PayAll(r, payments, events).world.transfers[|r.world.transfers|..], UnpaidPart(r.entries, payments))
    decreases payments
  {
    if payments != [] && !r.stopped {
      var p, rest := payments[0], payments[1..];
      assert [] + UnpaidPart(r.entries, rest) == UnpaidPart(r.entries, rest);
      if Paid(r.entries, p) {
        PayAllSelects(r, rest, events);
      } else if events != [] {
        var next := Attempt(r, p, events[0]);
        AttemptKeeps(r, p, events[0]);
        PayAllSelects(next, rest, events[1..]);
        var all := PayAll(next, rest, events[1..]).world.transfers;
        var later := all[|next.world.transfers|..];
        SelectionOfMore(later, r.entries, next.entries, rest);
        SelectionStep(later, p, UnpaidPart(r.entries, rest));
        SentLater(r.world.transfers, next.world.transfers, all, p);
      }
    }
  }

  lemma SentLater(before: seq<Payment>, next: seq<Payment>, all: seq<Payment>, p: Payment)
    requires next <= all && (next == before || next == before + [p])
    ensures before <= all
    ensures all[|before|..] == if next == before then all[|next|..] else [p] + all[|next|..]
  {
    assert all == next + all[|next|..];
  }

  /** The one balance check at the start covers every transfer of the run, at every point of it. */
  lemma BalanceCoversRun(w: World, plan: Plan, dryRun: bool, balance: int, events: seq<Event>, k: nat)
    requires Good(w) && plan.totalWei == PaymentSum(plan.publishers) && NoneNegative(plan.publishers)
    requires k <= |RunOnce(w, plan, dryRun, balance, events).transfers| - |w.transfers|
    ensures Remaining(plan, w.file) == PaymentSum(UnpaidPart(Loaded(w.file), plan.publishers))
    ensures k > 0 ==>
              PaymentSum(RunOnce(w, plan, dryRun, balance, events).transfers[|w.transfers|..][..k])
                <= Remaining(plan, w.file) <= balance
  {
    PaidPlusUnpaid(Loaded(w.file), plan.publishers);
    if k > 0 {
      var r := Run(w, Loaded(w.file), 0, false);
      PayAllSelects(r, plan.publishers, events);
      var sent := RunOnce(w, plan, dryRun, balance, events).transfers[|w.transfers|..];
      UnpaidNonNegative(Loaded(w.file), plan.publishers);
      SelectionSum(sent, UnpaidPart(Loaded(w.file), plan.publishers));
      PrefixSum(sent, k);
    }
  }

  lemma {:induction false} UnpaidNonNegative(entries: seq<Entry>, payments: seq<Payment>)
    requires NoneNegative(payments)
    ensures NoneNegative(UnpaidPart(entries, payments))
  {
    if payments != [] { UnpaidNonNegative(entries, payments[1..]); }
  }

  lemma PrefixSum(s: seq<Payment>, k: nat)
    requires k <= |s| && NoneNegative(s)
    ensures PaymentSum(s[..k]) <= PaymentSum(s)
  {
    SumByConcat(PaidWei, s[..k], s[k..]);
    assert s[..k] + s[k..] == s;
    SumByNonNegative(PaidWei, s[k..]);
  }

  // ----- finishing

  lemma PaidAppend(entries: seq<Entry>, e: Entry, q: Payment)
    ensures Paid(entries + [e], q) <==> Paid(entries, q) || q == e.payment
  {
    assert (entries + [e])[|entries|] == e;
    if i :| 0 <= i < |entries| && entries[i].payment == q { assert (entries + [e])[i].payment == q; }
  }

  lemma {:induction false} UnpaidAppend(entries: seq<Entry>, e: Entry, payments: seq<Payment>)
    requires e.payment !in payments
    ensures UnpaidPart(entries + [e], payments) == UnpaidPart(entries, payments)
  {
    if payments != [] {
      PaidAppend(entries, e, payments[0]);
      UnpaidAppend(entries, e, payments[1..]);
    }
  }

  ghost predicate AllPaid(entries: seq<Entry>, payments: seq<Payment>) {
    forall i :: 0 <= i < |payments| ==> Paid(entries, payments[i])
  }

  ghost predicate AllConfirmed(events: seq<Event>, n: nat) {
    |events| >= n && forall i :: 0 <= i < |events| ==> events[i].Confirmed?
  }

  /** Confirmed transfers only: the file follows the ledger in memory, and all that was unpaid is sent. */
  lemma {:induction false} PayAllConfirmed(r: Run, payments: seq<Payment>, events: seq<Event>)
    requires !r.stopped && !r.world.file.Corrupt? && Loaded(r.world.file) == r.entries
    requires Distinct(payments) && AllConfirmed(events, |payments|)
    ensures var r' := PayAll(r, payments, events);
            && !r'.world.file.Corrupt?
            && Loaded(r'.world.file) == r'.entries
            && r'.world.transfers == r.world.transfers + UnpaidPart(r.entries, payments)
    decreases payments
  {
    if payments != [] {
      var p, rest := payments[0], payments[1..];
      if Paid(r.entries, p) {
        PayAllConfirmed(r, rest, events);
      } else {
        PayAllConfirmed(Attempt(r, p, events[0]), rest, events[1..]);
        UnpaidAppend(r.entries, Entry(p, |r.world.transfers|), rest);
      }
    }
  }

  lemma {:induction false} PayAllRecords(r: Run, payments: seq<Payment>, events: seq<Event>)
    requires !r.stopped && AllConfirmed(events, |payments|)
    ensures r.entries <= PayAll(r, payments, events).entries
    ensures AllPaid(PayAll(r, payments, events).entries, payments)
    decreases payments
  {
    if payments != [] {
      var p, rest := payments[0], payments[1..];
      var next := if Paid(r.entries, p) then r else Attempt(r, p, events[0]);
      PaidAppend(r.entries, Entry(p, |r.world.transfers|), p);
      PayAllRecords(next, rest, if Paid(r.entries, p) then events else events[1..]);
      PaidMonotone(next.entries, PayAll(r, payments, events).entries, p);
    }
  }

  /** Re-running resumes: one clean run pays exactly what was left, and the next one sends nothing. */
  lemma CleanRunFinishes(w: World, plan: Plan, balance: int, events: seq<Event>, again: Invocation)
    requires Good(w) && !w.file.Corrupt? && Distinct(plan.publishers) && plan.count == |plan.publishers|
    requires balance >= Remaining(plan, w.file) && AllConfirmed(events, plan.count)
    ensures var w' := RunOnce(w, plan, false, balance, events);
            && AllPaid(Loaded(w'.file), plan.publishers)
            && w'.transfers == w.transfers + UnpaidPart(Loaded(w.file), plan.publishers)
            && RunOnce(w', plan, again.dryRun, again.balance, again.events) == w'
  {
    var r := Run(w, Loaded(w.file), 0, false);
    PaidPlusUnpaid(Loaded(w.file), plan.publishers);
    PayAllConfirmed(r, plan.publishers, events);
    PayAllRecords(r, plan.publishers, events);
    if plan.count == |PaidPart(Loaded(w.file), plan.publishers)| {
      NothingUnpaid(Loaded(w.file), plan.publishers);
    }
    AllPaidMeansDone(Loaded(RunOnce(w, plan, false, balance, events).file), plan.publishers);
  }

  lemma {:induction false} NothingUnpaid(entries: seq<Entry>, payments: seq<Payment>)
    requires UnpaidPart(entries, payments) == []
    ensures AllPaid(entries, payments)
  {
    if payments != [] { NothingUnpaid(entries, payments[1..]); }
  }

  lemma {:induction false} AllPaidMeansDone(entries: seq<Entry>, payments: seq<Payment>)
    requires AllPaid(entries, payments)
    ensures |PaidPart(entries, payments)| == |payments|
  {
    if payments != [] { AllPaidMeansDone(entries, payments[1..]); }
  }

  // ----- the stop counter

  predicate Failing(event: Event) { event.Rejected? || event.Unconfirmed? || event.SaveFailed? }

  predicate Crash(event: Event) { event.CrashBeforeSend? || event.CrashAfterSend? || event.CrashInSave? }

  function FailureCount(events: seq<Event>): nat { Count(Failing, events) }

  /**
   * The counter is never reset: without a crash the loop stops exactly when three of the
   * attempts fail in total, however many succeed between them.
   */
  lemma {:induction false} StopsAtThreeFailuresInTotal(r: Run, payments: seq<Payment>, events: seq<Event>)
    requires r.failures < MAX_FAILURES && !r.stopped && Distinct(payments)
    requires |events| >= |UnpaidPart(r.entries, payments)|
    requires forall i :: 0 <= i < |events| ==> !Crash(events[i])
    ensures PayAll(r, payments, events).stopped <==>
            r.failures + FailureCount(events[..|UnpaidPart(r.entries, payments)|]) >= MAX_FAILURES
    decreases payments
  {
    if payments != [] {
      var p, rest := payments[0], payments[1..];
      if Paid(r.entries, p) {
        StopsAtThreeFailuresInTotal(r, rest, events);
      } else {
        var next, n := Attempt(r, p, events[0]), |UnpaidPart(r.entries, rest)|;
        UnpaidAppend(r.entries, Entry(p, |r.world.transfers|), rest);
        assert events[..n + 1][1..] == events[1..][..n] && events[..n + 1][0] == events[0];
        if !next.stopped { StopsAtThreeFailuresInTotal(next, rest, events[1..]); }
      }
    }
  }

  /** Three failures with a success between any two of them stop the run, although its message says consecutive. */
  lemma SeparatedFailuresStopTheRun(p: seq<Payment>)
    requires |p| == 6 && Distinct(p)
    ensures var events := [Rejected, Confirmed, Rejected, Confirmed, Rejected, Confirmed];
            var end := PayAll(Run(World(Missing, []), [], 0, false), p, events);
            end.stopped && end.world.transfers == [p[1], p[3]]
  {
    var r0 := Run(World(Missing, []), [], 0, false);
    var r1 := Attempt(r0, p[0], Rejected);
    var r2 := Attempt(r1, p[1], Confirmed);
    var r3 := Attempt(r2, p[2], Rejected);
    var r4 := Attempt(r3, p[3], Confirmed);
    var r5 := Attempt(r4, p[4], Rejected);
    var events := [Rejected, Confirmed, Rejected, Confirmed, Rejected, Confirmed];
    assert PayAll(r0, p, events) == PayAll(r1, p[1..], events[1..]);
    assert p[1..][0] == p[1] && p[1..][1..] == p[2..] && events[1..][1..] == events[2..];
    assert PayAll(r1, p[1..], events[1..]) == PayAll(r2, p[2..], events[2..]);
    assert p[2..][1..] == p[3..] && events[2..][1..] == events[3..];
    PaidAppend([], Entry(p[1], 0), p[2]);
    assert PayAll(r2, p[2..], events[2..]) == PayAll(r3, p[3..], events[3..]);
    assert p[3..][1..] == p[4..] && events[3..][1..] == events[4..];
    assert PayAll(r3, p[3..], events[3..]) == PayAll(r4, p[4..], events[4..]);
    assert p[4..][1..] == p[5..] && events[4..][1..] == events[5..];
    assert PayAll(r4, p[4..], events[4..]) == PayAll(r5, p[5..], events[5..]);
  }

  // ----- when a run may send at all

  /** Not a dry run, a ledger that loads, and a balance for all that is unpaid. */
  ghost predicate MaySend(file: File, plan: Plan, dryRun: bool, balance: int) {
    && !dryRun && !file.Corrupt?
    && (plan.totalWei == PaymentSum(plan.publishers) ==>
          PaymentSum(UnpaidPart(Loaded(file), plan.publishers)) <= balance)
  }

  lemma {:induction false} FileFollowsSends(r: Run, payments: seq<Payment>, events: seq<Event>)
    ensures r.world.transfers <= PayAll(r, payments, events).world.transfers
    ensures PayAll(r, payments, events).world.transfers == r.world.transfers ==> PayAll(r, payments, events).world == r.world
    decreases payments
  {
    if payments != [] && !r.stopped {
      if Paid(r.entries, payments[0]) {
        FileFollowsSends(r, payments[1..], events);
      } else if events != [] {
        FileFollowsSends(Attempt(r, payments[0], events[0]), payments[1..], events[1..]);
      }
    }
  }

  /** A dry run changes nothing, and a run that sends was allowed to. */
  lemma SendsOnlyWhenAllowed(w: World, plan: Plan, dryRun: bool, balance: int, events: seq<Event>)
    ensures var w' := RunOnce(w, plan, dryRun, balance, events);
            && (dryRun || w.file.Corrupt? ==> w' == w)
            && w.transfers <= w'.transfers
            && (w' != w ==> |w'.transfers| > |w.transfers|)
            && (|w'.transfers| > |w.transfers| ==> MaySend(w.file, plan, dryRun, balance))
  {
    FileFollowsSends(Run(w, Loaded(w.file), 0, false), plan.publishers, events);
    PaidPlusUnpaid(Loaded(w.file), plan.publishers);
  }

  /** Only real runs with a ledger that loads and enough balance change anything, over any history. */
  lemma {:induction false} HistorySendsOnlyWhenAllowed(w: World, plan: Plan, runs: seq<Invocation>)
    ensures w.transfers <= RunMany(w, plan, runs).transfers
    ensures (forall i :: 0 <= i < |runs| ==> runs[i].dryRun) ==> RunMany(w, plan, runs) == w
    ensures w.file.Corrupt? ==> RunMany(w, plan, runs) == w
    ensures RunMany(w, plan, runs) != w ==>
              exists i :: 0 <= i < |runs| && MaySend(RunMany(w, plan, runs[..i]).file, plan, runs[i].dryRun, runs[i].balance)
    decreases runs
  {
    if runs != [] {
      var w' := RunOnce(w, plan, runs[0].dryRun, runs[0].balance, runs[0].events);
      SendsOnlyWhenAllowed(w, plan, runs[0].dryRun, runs[0].balance, runs[0].events);
      HistorySendsOnlyWhenAllowed(w', plan, runs[1..]);
      assert RunMany(w, plan, runs[..0]) == w;
      if w' == w && RunMany(w, plan, runs) != w {
        var i :| 0 <= i < |runs[1..]| && MaySend(RunMany(w', plan, runs[1..][..i]).file, plan, runs[1..][i].dryRun, runs[1..][i].balance);
        assert runs[..i + 1][0] == runs[0] && runs[..i + 1][1..] == runs[1..][..i];
        assert RunMany(w, plan, runs[..i + 1]) == RunMany(w', plan, runs[1..][..i]);
      }
    }
  }

  // ----- the script

  /** Lines 200 to 209 of the payment script: how much of the plan the ledger already covers. */
  method Progress(entries: seq<Entry>, payments: seq<Payment>) returns (alreadyDistributed: int, skippedCount: nat)
    ensures alreadyDistributed == PaymentSum(PaidPart(entries, payments))
    ensures skippedCount == |PaidPart(entries, payments)|
  {
    alreadyDistributed, skippedCount := 0, 0;
    PartsAt(entries, payments, 0);
    for i := 0 to |payments|
      invariant alreadyDistributed + PaymentSum(PaidPart(entries, payments[i..])) == PaymentSum(PaidPart(entries, payments))
      invariant skippedCount + |PaidPart(entries, payments[i..])| == |PaidPart(entries, payments)|
    {
      PartsAt(entries, payments, i);
      if Paid(entries, payments[i]) {
        alreadyDistributed, skippedCount := alreadyDistributed + payments[i].wei, skippedCount + 1;
      }
    }
  }

  /** The files and the chain that outlive a run. */
  class Host {
    var file: File
    var transfers: seq<Payment>

    constructor ()
      ensures file == Missing && transfers == []
    {
      file, transfers := Missing, [];
    }

    /** Lines 193 to 281 of the payment script. */
    method Distribute(plan: Plan, dryRun: bool, balance: int, events: seq<Event>)
      modifies this
      ensures World(file, transfers) == RunOnce(old(World(file, transfers)), plan, dryRun, balance, events)
      ensures dryRun ==> file == old(file) && transfers == old(transfers)
      ensures file != old(file) ==> |transfers| > |old(transfers)|
      ensures |transfers| > |old(transfers)| ==> MaySend(old(file), plan, dryRun, balance)
    {
      SendsOnlyWhenAllowed(World(file, transfers), plan, dryRun, balance, events);
      if file.Corrupt? { return; }
      var entries := Loaded(file);
      var alreadyDistributed, skippedCount := Progress(entries, plan.publishers);
      var remaining := plan.totalWei - alreadyDistributed;
      if plan.count - skippedCount == 0 { return; }
      if !dryRun && balance < remaining { return; }
      if dryRun { return; }
      Pay(plan.publishers, entries, events);
    }

    /** Lines 231 to 281. */
    method Pay(payments: seq<Payment>, entries0: seq<Entry>, events: seq<Event>)
      requires !file.Corrupt? && entries0 == Loaded(file)
      modifies this
      ensures World(file, transfers) ==
              PayAll(Run(old(World(file, transfers)), entries0, 0, false), payments, events).world
    {
      var entries, failCount, n, i := entries0, 0, 0, 0;
      ghost var start := Run(World(file, transfers), entries0, 0, false);
      assert payments[0..] == payments && events[0..] == events;
      while i < |payments|
        invariant 0 <= i <= |payments| && 0 <= n <= |events| && 0 <= failCount < MAX_FAILURES
        invariant PayAll(Run(World(file, transfers), entries, failCount, false), payments[i..], events[n..])
               == PayAll(start, payments, events)
      {
        var p := payments[i];
        assert payments[i..][0] == p && payments[i..][1..] == payments[i + 1..];
        if Paid(entries, p) {
          i := i + 1;
          continue;
        }
        if n == |events| { return; }
        assert events[n..][0] == events[n] && events[n..][1..] == events[n + 1..];
        var event := events[n];
        i, n := i + 1, n + 1;
        if event.CrashBeforeSend? { return; }
        if event.Rejected? {
          failCount := failCount + 1;
        } else {
          transfers := transfers + [p];
          if event.CrashAfterSend? { return; }
          if event.Unconfirmed? {
            failCount := failCount + 1;
          } else {
            entries := entries + [Entry(p, |transfers| - 1)];
            if event.CrashInSave? {
              file := Corrupt;
              return;
            }
            if event.Confirmed? {
              file := Entries(entries);
            } else {
              if event.damaged { file := Corrupt; }
              failCount := failCount + 1;
            }
          }
        }
        if failCount >= MAX_FAILURES { return; }
      }
    }
  }

  lemma PartsAt(entries: seq<Entry>, payments: seq<Payment>, i: nat)
    requires i <= |payments|
    ensures payments[0..] == payments
    ensures i < |payments| ==>
              var rest := PaidPart(entries, payments[i + 1..]);
              && PaidPart(entries, payments[i..]) == (if Paid(entries, payments[i]) then [payments[i]] else []) + rest
              && PaymentSum(PaidPart(entries, payments[i..]))
                   == PaymentSum(rest) + if Paid(entries, payments[i]) then payments[i].wei else 0
  {
    if i < |payments| {
      assert payments[i..][1..] == payments[i + 1..];
      assert [] + PaidPart(entries, payments[i + 1..]) == PaidPart(entries, payments[i + 1..]);
      if Paid(entries, payments[i]) {
        SumByFirst(PaidWei, PaidPart(entries, payments[i..]));
        assert PaidPart(entries, payments[i..])[1..] == PaidPart(entries, payments[i + 1..]);
      }
    }
  }

  // ----- from the collections to the transfers

  const FRESH := World(Missing, [])

  lemma {:induction false} NothingRecorded(payments: seq<Payment>)
    ensures PaidPart([], payments) == [] && UnpaidPart([], payments) == payments
  {
    if payments != [] { NothingRecorded(payments[1..]); }
  }

  /** What was sent when the run stood anywhere is covered by the balance that was checked. */
  ghost predicate Covered(sent: seq<Payment>, plan: Plan, balance: int) {
    forall k: nat :: 0 < k <= |sent| ==> PaymentSum(sent[..k]) <= plan.totalWei <= balance
  }

  /** A first run of a payable plan never sends more than the balance, and a clean one sends the plan. */
  lemma FirstRunPays(plan: Plan, balance: int, events: seq<Event>, again: Invocation)
    requires Payable(plan)
    ensures var w := RunOnce(FRESH, plan, false, balance, events);
            && Covered(w.transfers, plan, balance)
            && (balance >= plan.totalWei && AllConfirmed(events, plan.count) ==>
                  && w.transfers == plan.publishers && PaymentSum(w.transfers) == plan.totalWei
                  && AllPaid(Loaded(w.file), plan.publishers)
                  && RunOnce(w, plan, again.dryRun, again.balance, again.events) == w)
  {
    var w := RunOnce(FRESH, plan, false, balance, events);
    NothingRecorded(plan.publishers);
    assert w.transfers[0..] == w.transfers;
    forall k: nat | 0 < k <= |w.transfers| ensures PaymentSum(w.transfers[..k]) <= plan.totalWei <= balance {
      BalanceCoversRun(FRESH, plan, false, balance, events, k);
    }
    if balance >= plan.totalWei && AllConfirmed(events, plan.count) { CleanRunFinishes(FRESH, plan, balance, events, again); }
  }

  /** The three scripts in a row: what the collections are owed is planned within the pools and paid out once. */
  method PayRefunds(kcs: seq<FutureKc>, currentEpoch: int, pools: int -> nat, balance: int, events: seq<Event>)
    returns (epochs: seq<Allocation.EpochSnapshot>, plan: Plan, transfers: seq<Payment>)
    ensures SnapshotsOf(epochs, kcs, currentEpoch, pools)
    ensures PlanOf(plan, AllEntries(epochs)) && MeetsPools(plan, epochs, kcs, currentEpoch)
    ensures Covered(transfers, plan, balance)
    ensures balance >= plan.totalWei && AllConfirmed(events, plan.count) ==>
              transfers == plan.publishers && PaymentSum(transfers) == plan.totalWei
  {
    epochs, plan := PlanRefunds(kcs, currentEpoch, pools);
    var host := new Host();
    host.Distribute(plan, false, balance, events);
    transfers := host.transfers;
    FirstRunPays(plan, balance, events, Invocation(false, balance, events));
  }
}
