/**
 * Polling a value until it reaches what is expected and then stays there.
 *
 * The reads and the clock are a finite trace; a trace that ends early leaves the poll undecided.
 */
module Settle {
  import opened Sequences

  /** One read: the clock before it, what it returned, the clock after it. */
  datatype Sample<T> = Sample(startedAt: int, value: T, finishedAt: int)

  datatype Outcome = Settled | Changed | TimedOut

  datatype Result<T> = Result(outcome: Outcome, value: T, readCount: nat)

  datatype Poll<!T> = Poll(
    trace: seq<Sample<T>>, startedAt: int, expected: T, equals: (T, T) -> bool,
    deadlineMs: int, quietMs: int, quietReads: int)

  predicate Match<T>(p: Poll<T>, i: nat)
    requires i < |p.trace|
  {
    p.equals(p.trace[i].value, p.expected)
  }

  predicate Late<T>(p: Poll<T>, i: nat)
    requires i < |p.trace|
  {
    p.trace[i].finishedAt - p.startedAt >= p.deadlineMs
  }

  /** Read k, coming after the match at m, is enough to call the value settled. */
  predicate Ripe<T>(p: Poll<T>, m: nat, k: nat)
    requires m < k < |p.trace|
  {
    k - m >= p.quietReads && p.trace[k].startedAt - p.trace[m].finishedAt >= p.quietMs
  }

  /** The reads before n all missed, in time to go on. */
  ghost predicate Searching<T>(p: Poll<T>, n: int) {
    0 <= n <= |p.trace| && forall i :: 0 <= i < n ==> !Match(p, i) && !Late(p, i)
  }

  /** Read m was the first to match, and the reads after it and before n matched without being enough. */
  ghost predicate Confirming<T>(p: Poll<T>, m: int, n: int) {
    0 <= m < n <= |p.trace| && Searching(p, m) && Match(p, m) && forall i :: m < i < n ==> Match(p, i) && !Ripe(p, m, i)
  }

  ghost predicate ChangedAt<T>(p: Poll<T>, m: int, k: int) {
    Confirming(p, m, k) && k < |p.trace| && !Match(p, k)
  }

  ghost predicate SettledAt<T>(p: Poll<T>, m: int, k: int) {
    Confirming(p, m, k) && k < |p.trace| && Match(p, k) && Ripe(p, m, k)
  }

  ghost predicate TimedOutAt<T>(p: Poll<T>, k: int) {
    Searching(p, k) && k < |p.trace| && !Match(p, k) && Late(p, k)
  }

  /** What each outcome means. */
  ghost predicate Correct<T(!new)>(p: Poll<T>, r: Result<T>) {
    && 0 < r.readCount <= |p.trace|
    && var k := r.readCount - 1;
       && r.value == p.trace[k].value
       && match r.outcome
          case TimedOut => TimedOutAt(p, k)
          case Changed => exists m :: ChangedAt(p, m, k)
          case Settled => exists m :: SettledAt(p, m, k)
  }

  /** The first match is one read. */
  lemma SameMatch<T(!new)>(p: Poll<T>, m: int, a: int, n: int, b: int)
    requires Confirming(p, m, a) && Confirming(p, n, b)
    ensures m == n
  {
    assert Match(p, m) && Match(p, n);
  }

  lemma SearchingHasNoAnswer<T(!new)>(p: Poll<T>, n: int, r: Result<T>)
    requires Searching(p, n) && Correct(p, r)
    ensures r.readCount > n
  {
  }

  lemma ConfirmingHasNoAnswer<T(!new)>(p: Poll<T>, m: int, n: int, r: Result<T>)
    requires Confirming(p, m, n) && Correct(p, r)
    ensures r.readCount > n
  {
    var k := r.readCount - 1;
    if r.outcome.Changed? {
      var other :| ChangedAt(p, other, k);
      SameMatch(p, m, n, other, k);
    } else if r.outcome.Settled? {
      var other :| SettledAt(p, other, k);
      SameMatch(p, m, n, other, k);
    }
  }

  /** No correct answer comes before another one. */
  lemma NoEarlierAnswer<T(!new)>(p: Poll<T>, a: Result<T>, b: Result<T>)
    requires Correct(p, a) && Correct(p, b)
    ensures a.readCount >= b.readCount
  {
    var k := b.readCount - 1;
    match b.outcome
    case TimedOut => SearchingHasNoAnswer(p, k, a);
    case Changed => var m :| ChangedAt(p, m, k); ConfirmingHasNoAnswer(p, m, k, a);
    case Settled => var m :| SettledAt(p, m, k); ConfirmingHasNoAnswer(p, m, k, a);
  }

  lemma CorrectIsUnique<T(!new)>(p: Poll<T>, a: Result<T>, b: Result<T>)
    requires Correct(p, a) && Correct(p, b)
    ensures a == b
  {
    NoEarlierAnswer(p, a, b);
    NoEarlierAnswer(p, b, a);
  }

  // ----- what the outcomes mean on the clock and the values

  /** Read m is the first of the expected value, seen in time, and every read from it up to n still is. */
  ghost predicate Holds<T(!new)>(p: Poll<T>, m: int, n: int) {
    && 0 <= m < n <= |p.trace|
    && (forall i :: 0 <= i < m ==> !p.equals(p.trace[i].value, p.expected))
    && (forall i :: 0 <= i < m ==> p.trace[i].finishedAt < p.startedAt + p.deadlineMs)
    && (forall i :: m <= i < n ==> p.equals(p.trace[i].value, p.expected))
  }

  /** Read i is still one of too few, or too soon after read m. */
  ghost predicate TooSoon<T(!new)>(p: Poll<T>, m: int, i: int)
    requires 0 <= m < i < |p.trace|
  {
    i < m + p.quietReads || p.trace[i].startedAt < p.trace[m].finishedAt + p.quietMs
  }

  ghost predicate Unsettled<T(!new)>(p: Poll<T>, m: int, k: int) {
    Holds(p, m, k) && forall i :: m < i < k ==> TooSoon(p, m, i)
  }

  /** Read k answers that way. */
  ghost predicate Says<T(!new)>(p: Poll<T>, outcome: Outcome, k: int) {
    && 0 <= k < |p.trace|
    && match outcome
       case TimedOut =>
         && (forall i :: 0 <= i <= k ==> !p.equals(p.trace[i].value, p.expected))
         && (forall i :: 0 <= i <= k ==> (p.trace[i].finishedAt >= p.startedAt + p.deadlineMs <==> i == k))
       case Changed => (exists m :: Unsettled(p, m, k)) && !p.equals(p.trace[k].value, p.expected)
       case Settled => exists m :: Unsettled(p, m, k) && Holds(p, m, k + 1) && !TooSoon(p, m, k)
  }

  lemma SearchingSays<T(!new)>(p: Poll<T>, n: int)
    requires Searching(p, n)
    ensures forall i :: 0 <= i < n ==> !p.equals(p.trace[i].value, p.expected)
    ensures forall i :: 0 <= i < n ==> p.trace[i].finishedAt < p.startedAt + p.deadlineMs
  {
    forall i | 0 <= i < n
      ensures !p.equals(p.trace[i].value, p.expected) && p.trace[i].finishedAt < p.startedAt + p.deadlineMs
    {
      assert !Match(p, i) && !Late(p, i);
    }
  }

  lemma ConfirmingSays<T(!new)>(p: Poll<T>, m: int, n: int)
    requires Confirming(p, m, n)
    ensures Unsettled(p, m, n)
  {
    SearchingSays(p, m);
    assert Match(p, m);
    forall i | m < i < n ensures p.equals(p.trace[i].value, p.expected) && TooSoon(p, m, i) {
      assert Match(p, i) && !Ripe(p, m, i);
    }
  }

  lemma CorrectSays<T(!new)>(p: Poll<T>, r: Result<T>)
    requires Correct(p, r)
    ensures Says(p, r.outcome, r.readCount - 1) && r.value == p.trace[r.readCount - 1].value
    ensures forall other: Result<T> :: Correct(p, other) ==> other == r
  {
    forall other: Result<T> | Correct(p, other) ensures other == r { CorrectIsUnique(p, other, r); }
    var k := r.readCount - 1;
    match r.outcome
    case TimedOut =>
      SearchingSays(p, k);
      assert !Match(p, k) && Late(p, k);
    case Changed =>
      var m :| ChangedAt(p, m, k);
      ConfirmingSays(p, m, k);
      assert !Match(p, k);
    case Settled =>
      var m :| SettledAt(p, m, k);
      ConfirmingSays(p, m, k);
      assert Match(p, k) && Ripe(p, m, k);
  }

  /** Lines 93 to 129. The answer is the correct one, and there is none exactly when the trace ends too early. */
  method SettleOnExpected<T(!new)>(p: Poll<T>) returns (r: Option<Result<T>>)
    ensures r.Some? ==> Correct(p, r.value) && Says(p, r.value.outcome, r.value.readCount - 1)
    ensures forall other: Result<T> :: Correct(p, other) <==> r == Some(other)
  {
    var last := 0;
    while last < |p.trace| && !Match(p, last)
      invariant 0 <= last <= |p.trace| && Searching(p, last)
    {
      if Late(p, last) {
        r := Some(Result(TimedOut, p.trace[last].value, last + 1));
        CorrectSays(p, r.value);
        return;
      }
      last := last + 1;
    }
    if last == |p.trace| {
      forall other: Result<T> ensures !Correct(p, other) {
        if Correct(p, other) { SearchingHasNoAnswer(p, last, other); }
      }
      return None;
    }
    var matched, confirming := last, 0;
    last := last + 1;
    while last < |p.trace|
      invariant confirming == last - matched - 1 && Confirming(p, matched, last)
    {
      var value := p.trace[last].value;
      if !p.equals(value, p.expected) {
        assert ChangedAt(p, matched, last);
        r := Some(Result(Changed, value, last + 1));
        CorrectSays(p, r.value);
        return;
      }
      confirming := confirming + 1;
      if confirming >= p.quietReads && p.trace[last].startedAt - p.trace[matched].finishedAt >= p.quietMs {
        assert SettledAt(p, matched, last);
        r := Some(Result(Settled, value, last + 1));
        CorrectSays(p, r.value);
        return;
      }
      last := last + 1;
    }
    forall other: Result<T> ensures !Correct(p, other) {
      if Correct(p, other) { ConfirmingHasNoAnswer(p, matched, last, other); }
    }
    return None;
  }

  // ----- an answer comes in time

  /** The clock moves on by at least `pollMs` between two reads. */
  ghost predicate Paced<T>(p: Poll<T>, pollMs: int) {
    && (forall i :: 0 <= i < |p.trace| ==> p.startedAt <= p.trace[i].startedAt <= p.trace[i].finishedAt)
    && (forall i :: 0 < i < |p.trace| ==> p.trace[i].startedAt >= p.trace[i - 1].finishedAt + pollMs)
  }

  lemma {:induction false} TimePasses<T(!new)>(p: Poll<T>, pollMs: nat, i: nat, k: nat)
    requires Paced(p, pollMs) && i < k < |p.trace|
    ensures p.trace[k].startedAt >= p.trace[i].finishedAt + (k - i) * pollMs
    decreases k
  {
    if i + 1 < k {
      TimePasses(p, pollMs, i, k - 1);
      assert (k - i) * pollMs == (k - 1 - i) * pollMs + pollMs;
    }
  }

  lemma {:induction false} LaterThan<T(!new)>(p: Poll<T>, pollMs: nat, n: nat)
    requires Paced(p, pollMs) && n < |p.trace| && n * pollMs >= p.deadlineMs
    ensures Late(p, n)
  {
    if n > 0 { TimePasses(p, pollMs, 0, n); }
  }

  /**
   * With polls `pollMs` apart an answer needs one read per `pollMs` of the deadline, and after
   * a match one per `pollMs` of the quiet time or `quietReads`, whichever is more.
   */
  lemma {:induction false} AnswersInTime<T(!new)>(p: Poll<T>, pollMs: nat, searching: nat, confirming: nat, n: nat)
    returns (r: Result<T>)
    requires Paced(p, pollMs) && searching * pollMs >= p.deadlineMs
    requires confirming > 0 && confirming * pollMs >= p.quietMs && confirming >= p.quietReads
    requires n <= searching && searching + confirming < |p.trace| && Searching(p, n)
    ensures Correct(p, r) && r.readCount <= searching + confirming + 1
    decreases searching - n
  {
    if n == searching { LaterThan(p, pollMs, n); }
    if Match(p, n) {
      r := ConfirmsInTime(p, pollMs, confirming, n, n + 1);
    } else if Late(p, n) {
      r := Result(TimedOut, p.trace[n].value, n + 1);
    } else {
      r := AnswersInTime(p, pollMs, searching, confirming, n + 1);
    }
  }

  lemma {:induction false} ConfirmsInTime<T(!new)>(p: Poll<T>, pollMs: nat, confirming: nat, m: nat, n: nat)
    returns (r: Result<T>)
    requires Paced(p, pollMs)
    requires confirming * pollMs >= p.quietMs && confirming >= p.quietReads
    requires n <= m + confirming < |p.trace| && Confirming(p, m, n)
    ensures Correct(p, r) && r.readCount <= m + confirming + 1
    decreases m + confirming - n
  {
    if n == m + confirming { TimePasses(p, pollMs, m, n); }
    if !Match(p, n) {
      assert ChangedAt(p, m, n);
      r := Result(Changed, p.trace[n].value, n + 1);
    } else if Ripe(p, m, n) {
      assert SettledAt(p, m, n);
      r := Result(Settled, p.trace[n].value, n + 1);
    } else {
      r := ConfirmsInTime(p, pollMs, confirming, m, n + 1);
    }
  }
}
