/**
 * The line-framed protocol with an agent child process: stdout chunks are
 * reassembled into lines, lines into events, and events settle the pending waits.
 *
 * Parsing one event's JSON text is a parameter.
 */
module AgentChild {
  import opened Sequences

  const MAX_EVENT_LINE_BYTES := 1_000_000
  const EVENT_PREFIX := "RFC64_GATE1_ADAPTER_EVENT "

  datatype Event = Event(event: string, requestId: Option<string>, body: string)

  /** A pending promise; `id` is its identity. */
  datatype Wait = Wait(id: nat, expectedEvent: string, requestId: Option<string>)

  datatype Reason = Overlong | InvalidJson | ErrorEvent(event: Event) | TimedOut | Closed | ProcessFailed

  datatype Outcome = Resolved(event: Event) | Rejected(reason: Reason)

  datatype Settlement = Settlement(wait: Wait, outcome: Outcome)

  /** Everything but the line buffer: `issued` lists every promise handed out. */
  datatype Core = Core(events: seq<Event>, pending: seq<Wait>, settled: seq<Settlement>, issued: seq<Wait>)

  datatype State = State(buffer: string, core: Core)

  type Parser = string -> Option<Event>

  // ----- lines

  function Utf8Length(text: string): nat {
    if text == "" then 0 else Utf8Length(text[..|text| - 1]) + CharBytes(text[|text| - 1])
  }

  /** The fewest bytes that can carry the character. */
  function CharBytes(c: char): (n: nat)
    ensures 1 <= n <= 4 && c as int < Capacity(n) && (n > 1 ==> c as int >= Capacity(n - 1))
  {
    if c as int < 0x80 then 1 else if c as int < 0x800 then 2 else if c as int < 0x10000 then 3 else 4
  }

  /** Section 3 of RFC 3629: one byte carries 7 bits, the first of n > 1 bytes 7 - n and each further one 6. */
  ghost function Capacity(n: nat): nat {
    if n <= 1 then 128 else if n == 2 then 32 * 64 else if n == 3 then 16 * 64 * 64 else 8 * 64 * 64 * 64
  }

  /** The lines that `text` completes when it follows the unfinished line `partial`. */
  function Lines(partial: string, text: string): seq<string>
    decreases |text|
  {
    if text == "" then []
    else if text[0] == '\n' then [partial] + Lines("", text[1..])
    else Lines(partial + [text[0]], text[1..])
  }

  function Rest(partial: string, text: string): string
    decreases |text|
  {
    if text == "" then partial
    else if text[0] == '\n' then Rest("", text[1..])
    else Rest(partial + [text[0]], text[1..])
  }

  function Join(lines: seq<string>): string {
    if lines == [] then "" else lines[0] + "\n" + Join(lines[1..])
  }

  ghost predicate OneLine(s: string) { '\n' !in s }

  /** Splitting loses nothing and no part holds a line break. */
  lemma {:induction false} SplitJoins(partial: string, text: string)
    requires OneLine(partial)
    ensures Join(Lines(partial, text)) + Rest(partial, text) == partial + text
    ensures OneLine(Rest(partial, text)) && forall i :: 0 <= i < |Lines(partial, text)| ==> OneLine(Lines(partial, text)[i])
    decreases |text|
  {
    if text == "" {
      assert partial + text == partial;
    } else if text[0] == '\n' {
      SplitJoins("", text[1..]);
      calc {
        Join(Lines(partial, text)) + Rest(partial, text);
        partial + "\n" + Join(Lines("", text[1..])) + Rest("", text[1..]);
        partial + "\n" + (Join(Lines("", text[1..])) + Rest("", text[1..]));
        partial + text;
      }
    } else {
      SplitJoins(partial + [text[0]], text[1..]);
      assert partial + [text[0]] + text[1..] == partial + text;
    }
  }

  lemma {:induction false} LinesConcat(partial: string, a: string, b: string)
    ensures Lines(partial, a + b) == Lines(partial, a) + Lines(Rest(partial, a), b)
    ensures Rest(partial, a + b) == Rest(Rest(partial, a), b)
    decreases |a|
  {
    if a == "" {
      assert a + b == b;
    } else {
      assert (a + b)[1..] == a[1..] + b;
      if a[0] == '\n' { LinesConcat("", a[1..], b); } else { LinesConcat(partial + [a[0]], a[1..], b); }
    }
  }

  lemma {:induction false} UnfinishedLine(partial: string, text: string)
    requires OneLine(text)
    ensures Lines(partial, text) == [] && Rest(partial, text) == partial + text
    decreases |text|
  {
    if text == "" {
      assert partial + text == partial;
    } else {
      UnfinishedLine(partial + [text[0]], text[1..]);
      assert partial + [text[0]] + text[1..] == partial + text;
    }
  }

  // ----- events

  predicate Matches(event: Event, wait: Wait) {
    event.event == wait.expectedEvent && (wait.requestId.None? || event.requestId == wait.requestId)
  }

  function FirstMatch(events: seq<Event>, wait: Wait): Option<Event> {
    if events == [] then None
    else
      var earlier, last := FirstMatch(events[..|events| - 1], wait), events[|events| - 1];
      if earlier.Some? then earlier else if Matches(last, wait) then Some(last) else None
  }

  ghost predicate EarliestAt(events: seq<Event>, wait: Wait, i: int) {
    0 <= i < |events| && Matches(events[i], wait) && forall j :: 0 <= j < i ==> !Matches(events[j], wait)
  }

  lemma {:induction false} FirstMatchIsEarliest(events: seq<Event>, wait: Wait)
    ensures match FirstMatch(events, wait)
            case None => forall i :: 0 <= i < |events| ==> !Matches(events[i], wait)
            case Some(event) => exists i :: EarliestAt(events, wait, i) && events[i] == event
  {
    if events != [] {
      var n := |events| - 1;
      FirstMatchIsEarliest(events[..n], wait);
      if FirstMatch(events[..n], wait).Some? {
        var i :| EarliestAt(events[..n], wait, i) && events[..n][i] == FirstMatch(events[..n], wait).value;
        assert EarliestAt(events, wait, i);
      } else {
        assert forall j :: 0 <= j < n ==> events[j] == events[..n][j];
        assert Matches(events[n], wait) ==> EarliestAt(events, wait, n);
      }
    }
  }

  function Unmatched(pending: seq<Wait>, event: Event): seq<Wait> {
    if pending == [] then []
    else
      var earlier, last := Unmatched(pending[..|pending| - 1], event), pending[|pending| - 1];
      if Matches(event, last) then earlier else earlier + [last]
  }

  function Resolutions(pending: seq<Wait>, event: Event): seq<Settlement> {
    if pending == [] then []
    else
      var earlier, last := Resolutions(pending[..|pending| - 1], event), pending[|pending| - 1];
      if Matches(event, last) then earlier + [Settlement(last, Resolved(event))] else earlier
  }

  function Rejections(pending: seq<Wait>, reason: Reason): seq<Settlement> {
    if pending == [] then []
    else Rejections(pending[..|pending| - 1], reason) + [Settlement(pending[|pending| - 1], Rejected(reason))]
  }

  function AfterRejectAll(c: Core, reason: Reason): Core {
    c.(pending := [], settled := c.settled + Rejections(c.pending, reason))
  }

  function AfterEvent(c: Core, event: Event): Core {
    Core(c.events + [event], Unmatched(c.pending, event), c.settled + Resolutions(c.pending, event), c.issued)
  }

  predicate IsError(event: Event) { event.event == "error" || event.event == "boot-failed" }

  predicate HasPrefix(line: string) { EVENT_PREFIX <= line }

  function AfterLine(parse: Parser, c: Core, line: string): Core {
    if !HasPrefix(line) then c
    else
      match parse(line[|EVENT_PREFIX|..])
      case None => AfterRejectAll(c, InvalidJson)
      case Some(event) =>
        var delivered := AfterEvent(c, event);
        if IsError(event) then AfterRejectAll(delivered, ErrorEvent(event)) else delivered
  }

  function AfterLines(parse: Parser, c: Core, lines: seq<string>): Core {
    if lines == [] then c
    else AfterLine(parse, AfterLines(parse, c, lines[..|lines| - 1]), lines[|lines| - 1])
  }

  lemma {:induction false} AfterLinesConcat(parse: Parser, c: Core, a: seq<string>, b: seq<string>)
    ensures AfterLines(parse, c, a + b) == AfterLines(parse, AfterLines(parse, c, a), b)
  {
    if b == [] {
      assert a + b == a;
    } else {
      AfterLinesConcat(parse, c, a, b[..|b| - 1]);
      assert (a + b)[..|a + b| - 1] == a + b[..|b| - 1];
    }
  }

  // ----- operations

  function AfterChunk(parse: Parser, s: State, chunk: string): State {
    var text := s.buffer + chunk;
    if Utf8Length(text) > MAX_EVENT_LINE_BYTES then State("", AfterRejectAll(s.core, Overlong))
    else Read(parse, s, chunk)
  }

  /** Consuming a chunk when the buffer has no bound. */
  function Read(parse: Parser, s: State, text: string): State {
    State(Rest("", s.buffer + text), AfterLines(parse, s.core, Lines("", s.buffer + text)))
  }

  function AfterWaitFor(c: Core, expectedEvent: string, requestId: Option<string>): Core {
    var wait := Wait(|c.issued|, expectedEvent, requestId);
    match FirstMatch(c.events, wait)
    case Some(event) => c.(issued := c.issued + [wait], settled := c.settled + [Settlement(wait, Resolved(event))])
    case None => c.(issued := c.issued + [wait], pending := c.pending + [wait])
  }

  function PositionOf(pending: seq<Wait>, id: nat): nat {
    if pending == [] || pending[0].id == id then 0 else 1 + PositionOf(pending[1..], id)
  }

  function AfterTimeout(c: Core, id: nat): Core {
    var k := PositionOf(c.pending, id);
    if k >= |c.pending| then c
    else c.(pending := c.pending[..k] + c.pending[k + 1..],
            settled := c.settled + [Settlement(c.pending[k], Rejected(TimedOut))])
  }

  datatype Op =
    | Stdout(chunk: string)
    | Await(expectedEvent: string, requestId: Option<string>)
    | Expire(id: nat)
    | Fail(reason: Reason)

  function Step(parse: Parser, s: State, op: Op): State {
    match op
    case Stdout(chunk) => AfterChunk(parse, s, chunk)
    case Await(expectedEvent, requestId) => s.(core := AfterWaitFor(s.core, expectedEvent, requestId))
    case Expire(id) => s.(core := AfterTimeout(s.core, id))
    case Fail(reason) => s.(core := AfterRejectAll(s.core, reason))
  }

  function Run(parse: Parser, s: State, ops: seq<Op>): State {
    if ops == [] then s else Step(parse, Run(parse, s, ops[..|ops| - 1]), ops[|ops| - 1])
  }

  const START := State("", Core([], [], [], []))

  // ----- chunks do not matter

  function Concat(chunks: seq<string>): string {
    if chunks == [] then "" else Concat(chunks[..|chunks| - 1]) + chunks[|chunks| - 1]
  }

  function AfterChunks(parse: Parser, s: State, chunks: seq<string>): State {
    if chunks == [] then s else AfterChunk(parse, AfterChunks(parse, s, chunks[..|chunks| - 1]), chunks[|chunks| - 1])
  }

  /** The unfinished line plus the next chunk never exceed the bound. */
  ghost predicate WithinBound(buffer: string, chunks: seq<string>) {
    chunks == [] ||
    (var n := |chunks| - 1;
     && WithinBound(buffer, chunks[..n])
     && Utf8Length(Rest("", buffer + Concat(chunks[..n])) + chunks[n]) <= MAX_EVENT_LINE_BYTES)
  }

  lemma ReadTwice(parse: Parser, s: State, a: string, b: string)
    requires OneLine(s.buffer)
    ensures Read(parse, Read(parse, s, a), b) == Read(parse, s, a + b)
  {
    var first := s.buffer + a;
    var rest := Rest("", first);
    SplitJoins("", first);
    UnfinishedLine("", rest);
    LinesConcat("", first, b);
    LinesConcat("", rest, b);
    assert "" + rest == rest;
    assert Lines("", rest + b) == Lines(rest, b);
    assert first + b == s.buffer + (a + b);
    AfterLinesConcat(parse, s.core, Lines("", first), Lines(rest, b));
  }

  /** Within the bound, only the concatenated output matters. */
  lemma {:induction false} ChunksDoNotMatter(parse: Parser, s: State, chunks: seq<string>)
    requires OneLine(s.buffer) && WithinBound(s.buffer, chunks)
    ensures AfterChunks(parse, s, chunks) == Read(parse, s, Concat(chunks))
  {
    if chunks == [] {
      assert s.buffer + "" == s.buffer;
      UnfinishedLine("", s.buffer);
    } else {
      var n := |chunks| - 1;
      ChunksDoNotMatter(parse, s, chunks[..n]);
      ReadTwice(parse, s, Concat(chunks[..n]), chunks[n]);
    }
  }

  lemma {:induction false} AllAsciiLength(c: char, n: nat)
    requires c as int < 0x80
    ensures Utf8Length(Repeat(c, n)) == n && |Repeat(c, n)| == n && forall i :: 0 <= i < n ==> Repeat(c, n)[i] == c
  {
    if n > 0 {
      AllAsciiLength(c, n - 1);
      assert Repeat(c, n)[..n - 1] == Repeat(c, n - 1);
    }
  }

  function Repeat(c: char, n: nat): string {
    if n == 0 then "" else Repeat(c, n - 1) + [c]
  }

  lemma {:induction false} Utf8LengthConcat(a: string, b: string)
    ensures Utf8Length(a + b) == Utf8Length(a) + Utf8Length(b)
  {
    if b == "" {
      assert a + b == a;
    } else {
      Utf8LengthConcat(a, b[..|b| - 1]);
      assert (a + b)[..|a + b| - 1] == a + b[..|b| - 1];
    }
  }

  lemma LongLogLine(n: nat)
    ensures var line := Repeat('x', n) + "\n";
            Lines("", line) == [Repeat('x', n)] && Rest("", line) == "" && Utf8Length(line) == n + 1 && !HasPrefix(Repeat('x', n))
  {
    var x := Repeat('x', n);
    AllAsciiLength('x', n);
    Utf8LengthConcat(x, "\n");
    assert "\n"[..0] == "" && Utf8Length("\n") == 1;
    UnfinishedLine("", x);
    LinesConcat("", x, "\n");
    assert "" + x == x;
    assert EVENT_PREFIX[0] == 'R';
  }

  /** Beyond the bound chunks do matter: two long log lines in one chunk reject every wait, in two chunks none. */
  lemma BoundDependsOnChunks(parse: Parser, c: Core, n: nat)
    requires 500_000 <= n < 1_000_000
    ensures var line := Repeat('x', n) + "\n";
            && AfterChunk(parse, AfterChunk(parse, State("", c), line), line) == State("", c)
            && AfterChunk(parse, State("", c), line + line) == State("", AfterRejectAll(c, Overlong))
            && (c.pending != [] ==> AfterRejectAll(c, Overlong) != c)
  {
    var x := Repeat('x', n);
    var line := x + "\n";
    LongLogLine(n);
    Utf8LengthConcat(line, line);
    assert "" + line == line && "" + (line + line) == line + line;
    assert [x][..0] == [] && AfterLines(parse, c, [x]) == c;
  }

  // ----- beyond the bound they do

  predicate IsOverlong(s: Settlement) { s.outcome == Rejected(Overlong) }

  function Overlongs(c: Core): nat { Count(IsOverlong, c.settled) }

  lemma {:induction false} RejectionsCount(pending: seq<Wait>, reason: Reason)
    ensures Count(IsOverlong, Rejections(pending, reason)) == if reason.Overlong? then |pending| else 0
  {
    if pending != [] {
      var front, last := pending[..|pending| - 1], pending[|pending| - 1];
      RejectionsCount(front, reason);
      CountAppend(IsOverlong, Rejections(front, reason), Settlement(last, Rejected(reason)));
    }
  }

  lemma {:induction false} ResolutionsCount(pending: seq<Wait>, event: Event)
    ensures Count(IsOverlong, Resolutions(pending, event)) == 0
  {
    if pending != [] {
      var front, last := pending[..|pending| - 1], pending[|pending| - 1];
      ResolutionsCount(front, event);
      CountAppend(IsOverlong, Resolutions(front, event), Settlement(last, Resolved(event)));
    }
  }

  lemma RejectAllCount(c: Core, reason: Reason)
    ensures Overlongs(AfterRejectAll(c, reason)) == Overlongs(c) + if reason.Overlong? then |c.pending| else 0
  {
    RejectionsCount(c.pending, reason);
    CountConcat(IsOverlong, c.settled, Rejections(c.pending, reason));
  }

  lemma {:induction false} UnmatchedAtMost(pending: seq<Wait>, event: Event)
    ensures |Unmatched(pending, event)| <= |pending|
  {
    if pending != [] { UnmatchedAtMost(pending[..|pending| - 1], event); }
  }

  lemma LineCount(parse: Parser, c: Core, line: string)
    ensures Overlongs(AfterLine(parse, c, line)) == Overlongs(c)
    ensures |AfterLine(parse, c, line).pending| <= |c.pending|
  {
    RejectAllCount(c, InvalidJson);
    if HasPrefix(line) && parse(line[|EVENT_PREFIX|..]).Some? {
      var event := parse(line[|EVENT_PREFIX|..]).value;
      ResolutionsCount(c.pending, event);
      CountConcat(IsOverlong, c.settled, Resolutions(c.pending, event));
      UnmatchedAtMost(c.pending, event);
      RejectAllCount(AfterEvent(c, event), ErrorEvent(event));
    }
  }

  /** Reading lines rejects nothing as overlong and starts no wait. */
  lemma {:induction false} LinesCount(parse: Parser, c: Core, lines: seq<string>)
    ensures Overlongs(AfterLines(parse, c, lines)) == Overlongs(c)
    ensures |AfterLines(parse, c, lines).pending| <= |c.pending|
  {
    if lines != [] {
      LinesCount(parse, c, lines[..|lines| - 1]);
      LineCount(parse, AfterLines(parse, c, lines[..|lines| - 1]), lines[|lines| - 1]);
    }
  }

  lemma {:induction false} ChunksCount(parse: Parser, s: State, chunks: seq<string>, n: nat)
    requires n <= |chunks|
    ensures Overlongs(AfterChunks(parse, s, chunks[..n]).core) <= Overlongs(AfterChunks(parse, s, chunks).core)
  {
    if n < |chunks| {
      var k := |chunks| - 1;
      assert chunks[..k][..n] == chunks[..n];
      ChunksCount(parse, s, chunks[..k], n);
      var before := AfterChunks(parse, s, chunks[..k]);
      RejectAllCount(before.core, Overlong);
      LinesCount(parse, before.core, Lines("", before.buffer + chunks[k]));
    } else {
      assert chunks[..n] == chunks;
    }
  }

  /** Chunk n is the first that does not fit behind the unfinished line. */
  ghost predicate FirstExceeds(buffer: string, chunks: seq<string>, n: nat) {
    && n < |chunks| && WithinBound(buffer, chunks[..n])
    && Utf8Length(Rest("", buffer + Concat(chunks[..n])) + chunks[n]) > MAX_EVENT_LINE_BYTES
  }

  lemma {:induction false} SomeChunkExceeds(buffer: string, chunks: seq<string>) returns (n: nat)
    requires !WithinBound(buffer, chunks)
    ensures FirstExceeds(buffer, chunks, n)
  {
    n := |chunks| - 1;
    if !WithinBound(buffer, chunks[..n]) {
      var front := chunks[..n];
      n := SomeChunkExceeds(buffer, front);
      assert front[..n] == chunks[..n];
    }
  }

  /** A wait that is pending when the bound is first exceeded is rejected, which no reading of the output does. */
  lemma ChunksMatter(parse: Parser, s: State, chunks: seq<string>, n: nat)
    requires OneLine(s.buffer) && FirstExceeds(s.buffer, chunks, n)
    requires Read(parse, s, Concat(chunks[..n])).core.pending != []
    ensures Overlongs(AfterChunks(parse, s, chunks).core) > Overlongs(Read(parse, s, Concat(chunks)).core)
  {
    var before := AfterChunks(parse, s, chunks[..n]);
    ChunksDoNotMatter(parse, s, chunks[..n]);
    LinesCount(parse, s.core, Lines("", s.buffer + Concat(chunks[..n])));
    RejectAllCount(before.core, Overlong);
    assert chunks[..n + 1][..n] == chunks[..n];
    ChunksCount(parse, s, chunks, n + 1);
    LinesCount(parse, s.core, Lines("", s.buffer + Concat(chunks)));
  }

  lemma {:induction false} ConcatSplit(chunks: seq<string>, n: nat)
    requires n <= |chunks|
    ensures Concat(chunks) == Concat(chunks[..n]) + Concat(chunks[n..])
  {
    if n == |chunks| {
      assert chunks[..n] == chunks && chunks[n..] == [];
    } else {
      var k := |chunks| - 1;
      ConcatSplit(chunks[..k], n);
      assert chunks[..k][..n] == chunks[..n] && chunks[..k][n..] == chunks[n..][..k - n];
    }
  }

  /** As long as some wait outlives the output, only the concatenation matters exactly when the bound is kept. */
  lemma ChunksDoNotMatterIff(parse: Parser, s: State, chunks: seq<string>)
    requires OneLine(s.buffer) && Read(parse, s, Concat(chunks)).core.pending != []
    ensures AfterChunks(parse, s, chunks) == Read(parse, s, Concat(chunks)) <==> WithinBound(s.buffer, chunks)
  {
    if WithinBound(s.buffer, chunks) {
      ChunksDoNotMatter(parse, s, chunks);
    } else {
      var n := SomeChunkExceeds(s.buffer, chunks);
      ConcatSplit(chunks, n);
      ReadTwice(parse, s, Concat(chunks[..n]), Concat(chunks[n..]));
      var before := Read(parse, s, Concat(chunks[..n]));
      LinesCount(parse, before.core, Lines("", before.buffer + Concat(chunks[n..])));
      ChunksMatter(parse, s, chunks, n);
    }
  }

  // ----- what every run keeps

  function Settles(w: Wait): Settlement -> bool { (s: Settlement) => s.wait == w }

  function Occurrences(waits: seq<Wait>, w: Wait): nat { Count(Is(w), waits) }

  function CountSettled(settled: seq<Settlement>, w: Wait): nat { Count(Settles(w), settled) }

  /** A promise is as often pending or settled as it was handed out. */
  ghost predicate Conserved(c: Core, w: Wait) {
    Occurrences(c.pending, w) + CountSettled(c.settled, w) == Occurrences(c.issued, w)
  }

  ghost predicate Numbered(c: Core) {
    forall i :: 0 <= i < |c.issued| ==> c.issued[i].id == i
  }

  lemma {:induction false} DeliveryConserves(pending: seq<Wait>, event: Event, w: Wait)
    ensures Occurrences(Unmatched(pending, event), w) + CountSettled(Resolutions(pending, event), w) == Occurrences(pending, w)
  {
    if pending != [] {
      var front, last := pending[..|pending| - 1], pending[|pending| - 1];
      DeliveryConserves(front, event, w);
      CountLast(Is(w), pending);
      if Matches(event, last) {
        CountAppend(Settles(w), Resolutions(front, event), Settlement(last, Resolved(event)));
      } else {
        CountAppend(Is(w), Unmatched(front, event), last);
      }
    }
  }

  lemma {:induction false} RejectionConserves(pending: seq<Wait>, reason: Reason, w: Wait)
    ensures CountSettled(Rejections(pending, reason), w) == Occurrences(pending, w)
  {
    if pending != [] {
      var front, last := pending[..|pending| - 1], pending[|pending| - 1];
      RejectionConserves(front, reason, w);
      CountLast(Is(w), pending);
      CountAppend(Settles(w), Rejections(front, reason), Settlement(last, Rejected(reason)));
    }
  }

  lemma RejectAllConserves(c: Core, reason: Reason, w: Wait)
    requires Conserved(c, w)
    ensures Conserved(AfterRejectAll(c, reason), w)
  {
    RejectionConserves(c.pending, reason, w);
    CountConcat(Settles(w), c.settled, Rejections(c.pending, reason));
  }

  lemma EventConserves(c: Core, event: Event, w: Wait)
    requires Conserved(c, w)
    ensures Conserved(AfterEvent(c, event), w)
  {
    DeliveryConserves(c.pending, event, w);
    CountConcat(Settles(w), c.settled, Resolutions(c.pending, event));
  }

  lemma LineConserves(parse: Parser, c: Core, line: string, w: Wait)
    requires Conserved(c, w)
    ensures Conserved(AfterLine(parse, c, line), w) && AfterLine(parse, c, line).issued == c.issued
  {
    RejectAllConserves(c, InvalidJson, w);
    if HasPrefix(line) && parse(line[|EVENT_PREFIX|..]).Some? {
      var event := parse(line[|EVENT_PREFIX|..]).value;
      EventConserves(c, event, w);
      RejectAllConserves(AfterEvent(c, event), ErrorEvent(event), w);
    }
  }

  lemma {:induction false} LinesConserve(parse: Parser, c: Core, lines: seq<string>, w: Wait)
    requires Conserved(c, w)
    ensures Conserved(AfterLines(parse, c, lines), w) && AfterLines(parse, c, lines).issued == c.issued
  {
    if lines != [] {
      LinesConserve(parse, c, lines[..|lines| - 1], w);
      LineConserves(parse, AfterLines(parse, c, lines[..|lines| - 1]), lines[|lines| - 1], w);
    }
  }

  lemma WaitForConserves(c: Core, expectedEvent: string, requestId: Option<string>, w: Wait)
    requires Conserved(c, w)
    ensures Conserved(AfterWaitFor(c, expectedEvent, requestId), w)
  {
    var wait := Wait(|c.issued|, expectedEvent, requestId);
    CountAppend(Is(w), c.issued, wait);
    CountAppend(Is(w), c.pending, wait);
    if FirstMatch(c.events, wait).Some? {
      CountAppend(Settles(w), c.settled, Settlement(wait, Resolved(FirstMatch(c.events, wait).value)));
    }
  }

  lemma CountRemove(waits: seq<Wait>, k: nat, w: Wait)
    requires k < |waits|
    ensures Occurrences(waits, w) == Occurrences(waits[..k] + waits[k + 1..], w) + (if waits[k] == w then 1 else 0)
  {
    var before, it, after := waits[..k], [waits[k]], waits[k + 1..];
    assert waits == before + (it + after);
    CountConcat(Is(w), before, it + after);
    CountConcat(Is(w), it, after);
    CountConcat(Is(w), before, after);
  }

  lemma TimeoutConserves(c: Core, id: nat, w: Wait)
    requires Conserved(c, w)
    ensures Conserved(AfterTimeout(c, id), w)
  {
    var k := PositionOf(c.pending, id);
    if k < |c.pending| {
      CountRemove(c.pending, k, w);
      CountAppend(Settles(w), c.settled, Settlement(c.pending[k], Rejected(TimedOut)));
    }
  }

  lemma StepConserves(parse: Parser, s: State, op: Op, w: Wait)
    requires Conserved(s.core, w) && Numbered(s.core)
    ensures Conserved(Step(parse, s, op).core, w) && Numbered(Step(parse, s, op).core)
  {
    match op
    case Stdout(chunk) =>
      RejectAllConserves(s.core, Overlong, w);
      LinesConserve(parse, s.core, Lines("", s.buffer + chunk), w);
    case Await(expectedEvent, requestId) => WaitForConserves(s.core, expectedEvent, requestId, w);
    case Expire(id) => TimeoutConserves(s.core, id, w);
    case Fail(reason) => RejectAllConserves(s.core, reason, w);
  }

  lemma {:induction false} RunConserves(parse: Parser, s: State, ops: seq<Op>, w: Wait)
    requires Conserved(s.core, w) && Numbered(s.core)
    ensures Conserved(Run(parse, s, ops).core, w) && Numbered(Run(parse, s, ops).core)
  {
    if ops != [] {
      RunConserves(parse, s, ops[..|ops| - 1], w);
      StepConserves(parse, Run(parse, s, ops[..|ops| - 1]), ops[|ops| - 1], w);
    }
  }

  lemma {:induction false} HandedOutOnce(issued: seq<Wait>, w: Wait)
    requires forall i :: 0 <= i < |issued| ==> issued[i].id == i
    ensures Occurrences(issued, w) == if w in issued then 1 else 0
  {
    if issued != [] {
      var n := |issued| - 1;
      HandedOutOnce(issued[..n], w);
      CountLast(Is(w), issued);
      assert issued == issued[..n] + [issued[n]];
    }
  }

  /** In every run each promise settles at most once, and is pending exactly until then. */
  lemma SettlesAtMostOnce(parse: Parser, ops: seq<Op>, w: Wait)
    ensures var c := Run(parse, START, ops).core;
            Occurrences(c.pending, w) + CountSettled(c.settled, w) == if w in c.issued then 1 else 0
  {
    RunConserves(parse, START, ops, w);
    HandedOutOnce(Run(parse, START, ops).core.issued, w);
  }

  lemma {:induction false} LinesExtend(parse: Parser, c: Core, lines: seq<string>)
    ensures c.settled <= AfterLines(parse, c, lines).settled
  {
    if lines != [] { LinesExtend(parse, c, lines[..|lines| - 1]); }
  }

  lemma StepExtends(parse: Parser, s: State, op: Op)
    ensures s.core.settled <= Step(parse, s, op).core.settled
  {
    if op.Stdout? { LinesExtend(parse, s.core, Lines("", s.buffer + op.chunk)); }
  }

  lemma RunAppend(parse: Parser, s: State, ops: seq<Op>, more: seq<Op>)
    requires more != []
    ensures Run(parse, s, ops + more) == Step(parse, Run(parse, s, ops + more[..|more| - 1]), more[|more| - 1])
  {
    assert (ops + more)[..|ops + more| - 1] == ops + more[..|more| - 1];
  }

  /** However a run goes on, what was settled stays settled as it was. */
  lemma {:induction false} SettlementsStand(parse: Parser, s: State, ops: seq<Op>, more: seq<Op>)
    ensures Run(parse, s, ops).core.settled <= Run(parse, s, ops + more).core.settled
  {
    if more == [] {
      assert ops + more == ops;
    } else {
      var front, last := more[..|more| - 1], more[|more| - 1];
      SettlementsStand(parse, s, ops, front);
      RunAppend(parse, s, ops, more);
      StepExtends(parse, Run(parse, s, ops + front), last);
    }
  }

  /** Nothing pending has a match in the log, and what was resolved got its earliest match in the whole log. */
  ghost predicate Faithful(c: Core) {
    && (forall i :: 0 <= i < |c.pending| ==> FirstMatch(c.events, c.pending[i]).None?)
    && (forall i :: 0 <= i < |c.settled| ==> TrueToLog(c.events, c.settled[i]))
  }

  ghost predicate TrueToLog(events: seq<Event>, s: Settlement) {
    s.outcome.Resolved? ==> FirstMatch(events, s.wait) == Some(s.outcome.event)
  }

  lemma {:induction false} UnmatchedMeaning(pending: seq<Wait>, event: Event, i: nat)
    requires i < |Unmatched(pending, event)|
    ensures Unmatched(pending, event)[i] in pending && !Matches(event, Unmatched(pending, event)[i])
  {
    var front := pending[..|pending| - 1];
    if i < |Unmatched(front, event)| { UnmatchedMeaning(front, event, i); }
  }

  lemma {:induction false} ResolutionsMeaning(pending: seq<Wait>, event: Event, i: nat)
    requires i < |Resolutions(pending, event)|
    ensures var s := Resolutions(pending, event)[i];
            s.wait in pending && Matches(event, s.wait) && s.outcome == Resolved(event)
  {
    var front := pending[..|pending| - 1];
    if i < |Resolutions(front, event)| { ResolutionsMeaning(front, event, i); }
  }

  lemma {:induction false} RejectionsMeaning(pending: seq<Wait>, reason: Reason, i: nat)
    requires i < |Rejections(pending, reason)|
    ensures Rejections(pending, reason)[i].outcome == Rejected(reason)
  {
    var front := pending[..|pending| - 1];
    if i < |Rejections(front, reason)| { RejectionsMeaning(front, reason, i); }
  }

  lemma RejectAllFaithful(c: Core, reason: Reason)
    requires Faithful(c)
    ensures Faithful(AfterRejectAll(c, reason))
  {
    var r := AfterRejectAll(c, reason);
    forall i | 0 <= i < |r.settled| ensures TrueToLog(r.events, r.settled[i]) {
      if i >= |c.settled| { RejectionsMeaning(c.pending, reason, i - |c.settled|); }
    }
  }

  lemma LogGrows(events: seq<Event>, event: Event, wait: Wait)
    ensures FirstMatch(events + [event], wait) ==
            if FirstMatch(events, wait).Some? then FirstMatch(events, wait) else if Matches(event, wait) then Some(event) else None
  {
    assert (events + [event])[..|events|] == events;
  }

  lemma DeliverFaithful(c: Core, event: Event)
    requires Faithful(c)
    ensures Faithful(AfterEvent(c, event))
  {
    var d := AfterEvent(c, event);
    forall i | 0 <= i < |d.pending| ensures FirstMatch(d.events, d.pending[i]).None? {
      UnmatchedMeaning(c.pending, event, i);
      LogGrows(c.events, event, d.pending[i]);
    }
    forall i | 0 <= i < |d.settled| ensures TrueToLog(d.events, d.settled[i]) {
      LogGrows(c.events, event, d.settled[i].wait);
      if i < |c.settled| {
        assert TrueToLog(c.events, c.settled[i]);
      } else {
        ResolutionsMeaning(c.pending, event, i - |c.settled|);
      }
    }
  }

  lemma {:induction false} LinesFaithful(parse: Parser, c: Core, lines: seq<string>)
    requires Faithful(c)
    ensures Faithful(AfterLines(parse, c, lines))
  {
    if lines != [] {
      LinesFaithful(parse, c, lines[..|lines| - 1]);
      var before, line := AfterLines(parse, c, lines[..|lines| - 1]), lines[|lines| - 1];
      RejectAllFaithful(before, InvalidJson);
      if HasPrefix(line) && parse(line[|EVENT_PREFIX|..]).Some? {
        var event := parse(line[|EVENT_PREFIX|..]).value;
        DeliverFaithful(before, event);
        RejectAllFaithful(AfterEvent(before, event), ErrorEvent(event));
      }
    }
  }

  lemma StepFaithful(parse: Parser, s: State, op: Op)
    requires Faithful(s.core)
    ensures Faithful(Step(parse, s, op).core)
  {
    match op
    case Stdout(chunk) =>
      RejectAllFaithful(s.core, Overlong);
      LinesFaithful(parse, s.core, Lines("", s.buffer + chunk));
    case Await(expectedEvent, requestId) =>
    case Expire(id) =>
    case Fail(reason) => RejectAllFaithful(s.core, reason);
  }

  lemma {:induction false} RunFaithful(parse: Parser, s: State, ops: seq<Op>)
    requires Faithful(s.core)
    ensures Faithful(Run(parse, s, ops).core)
  {
    if ops != [] {
      RunFaithful(parse, s, ops[..|ops| - 1]);
      StepFaithful(parse, Run(parse, s, ops[..|ops| - 1]), ops[|ops| - 1]);
    }
  }

  // ----- who gets which answer

  /** A wait that names a request takes only that request's event; any other takes every event of its name. */
  ghost predicate RightAnswer(s: Settlement) {
    s.outcome.Resolved? ==>
      && s.outcome.event.event == s.wait.expectedEvent
      && (s.wait.requestId.Some? ==> s.outcome.event.requestId == s.wait.requestId)
  }

  /** No event of that name, or of that name for the named request. */
  ghost predicate Unanswered(events: seq<Event>, w: Wait) {
    forall i :: 0 <= i < |events| && events[i].event == w.expectedEvent ==> w.requestId.Some? && events[i].requestId != w.requestId
  }

  /** Event i is the first that answers the wait. */
  ghost predicate AnswerAt(events: seq<Event>, w: Wait, i: int) {
    0 <= i < |events| && Unanswered(events[..i], w) && !Unanswered(events[..i + 1], w)
  }

  ghost predicate GotAnswer(events: seq<Event>, s: Settlement) {
    s.outcome.Resolved? ==> RightAnswer(s) && exists i :: AnswerAt(events, s.wait, i) && events[i] == s.outcome.event
  }

  ghost predicate Answered(c: Core) {
    && (forall i :: 0 <= i < |c.pending| ==> Unanswered(c.events, c.pending[i]))
    && (forall i :: 0 <= i < |c.settled| ==> GotAnswer(c.events, c.settled[i]))
  }

  lemma MatchAnswers(event: Event, w: Wait)
    ensures Matches(event, w) <==> RightAnswer(Settlement(w, Resolved(event)))
    ensures Matches(event, w) <==> !Unanswered([event], w)
  {
    assert [event][0] == event;
  }

  lemma UnansweredMore(events: seq<Event>, i: nat, w: Wait)
    requires i < |events| && Unanswered(events[..i], w)
    ensures Unanswered(events[..i + 1], w) <==> !Matches(events[i], w)
  {
    MatchAnswers(events[i], w);
    assert [events[i]][0] == events[i] == events[..i + 1][i];
    assert forall j :: 0 <= j < i ==> events[..i + 1][j] == events[..i][j];
  }

  lemma EarliestAnswers(events: seq<Event>, w: Wait, i: nat)
    requires EarliestAt(events, w, i)
    ensures AnswerAt(events, w, i) && RightAnswer(Settlement(w, Resolved(events[i])))
  {
    MatchAnswers(events[i], w);
    forall j | 0 <= j < i ensures events[j].event == w.expectedEvent ==> w.requestId.Some? && events[j].requestId != w.requestId {
      assert !Matches(events[j], w);
    }
    UnansweredMore(events, i, w);
  }

  lemma UnansweredIff(events: seq<Event>, w: Wait)
    ensures FirstMatch(events, w).None? <==> Unanswered(events, w)
  {
    FirstMatchIsEarliest(events, w);
    if FirstMatch(events, w).None? {
      forall j | 0 <= j < |events| && events[j].event == w.expectedEvent
        ensures w.requestId.Some? && events[j].requestId != w.requestId
      {
        assert !Matches(events[j], w);
      }
    } else {
      var i :| EarliestAt(events, w, i) && events[i] == FirstMatch(events, w).value;
      MatchAnswers(events[i], w);
    }
  }

  lemma FirstMatchAnswers(events: seq<Event>, w: Wait)
    requires FirstMatch(events, w).Some?
    ensures GotAnswer(events, Settlement(w, Resolved(FirstMatch(events, w).value)))
  {
    FirstMatchIsEarliest(events, w);
    var i :| EarliestAt(events, w, i) && events[i] == FirstMatch(events, w).value;
    EarliestAnswers(events, w, i);
  }

  lemma AnswerIsFirst(events: seq<Event>, w: Wait, i: nat)
    requires AnswerAt(events, w, i)
    ensures FirstMatch(events, w) == Some(events[i])
  {
    FirstMatchIsEarliest(events, w);
    UnansweredMore(events, i, w);
    forall j | 0 <= j < i ensures !Matches(events[j], w) { assert events[..i][j] == events[j]; }
    assert EarliestAt(events, w, i);
  }

  lemma FaithfulAnswers(c: Core)
    requires Faithful(c)
    ensures Answered(c)
  {
    forall i | 0 <= i < |c.pending| ensures Unanswered(c.events, c.pending[i]) { UnansweredIff(c.events, c.pending[i]); }
    forall i | 0 <= i < |c.settled| ensures GotAnswer(c.events, c.settled[i]) {
      assert TrueToLog(c.events, c.settled[i]);
      if c.settled[i].outcome.Resolved? { FirstMatchAnswers(c.events, c.settled[i].wait); }
    }
  }

  /**
   * In every run: whatever a wait is resolved with has the expected name and, when the wait names a request,
   * that request's id, and no earlier event does; and what still waits has had no such event.
   */
  lemma EveryRunAnswers(parse: Parser, ops: seq<Op>)
    ensures Answered(Run(parse, START, ops).core)
  {
    RunFaithful(parse, START, ops);
    FaithfulAnswers(Run(parse, START, ops).core);
  }

  // ----- what one operation settles

  /** The waits of `pending` are added to the settlements, in order, as rejected for that reason. */
  ghost predicate RejectsAll(before: Core, after: Core, reason: Reason) {
    && after.pending == [] && after.events == before.events && after.issued == before.issued
    && |after.settled| == |before.settled| + |before.pending| && before.settled <= after.settled
    && forall i :: 0 <= i < |before.pending| ==>
         after.settled[|before.settled| + i] == Settlement(before.pending[i], Rejected(reason))
  }

  lemma {:induction false} RejectionsAre(pending: seq<Wait>, reason: Reason)
    ensures |Rejections(pending, reason)| == |pending|
    ensures forall i :: 0 <= i < |pending| ==> Rejections(pending, reason)[i] == Settlement(pending[i], Rejected(reason))
  {
    if pending != [] { RejectionsAre(pending[..|pending| - 1], reason); }
  }

  lemma RejectAllRejects(c: Core, reason: Reason)
    ensures RejectsAll(c, AfterRejectAll(c, reason), reason)
  {
    RejectionsAre(c.pending, reason);
  }

  /** The event is logged; of the waits, those it answers are resolved with it and the others stay pending. */
  ghost predicate Delivers(before: Core, after: Core, event: Event) {
    && after.events == before.events + [event] && after.issued == before.issued && before.settled <= after.settled
    && (forall w :: w in after.pending <==> w in before.pending && Unanswered([event], w))
    && (forall s :: s in after.settled[|before.settled|..] <==>
          s.outcome == Resolved(event) && s.wait in before.pending && RightAnswer(s))
  }

  lemma {:induction false} UnmatchedAre(pending: seq<Wait>, event: Event, w: Wait)
    ensures w in Unmatched(pending, event) <==> w in pending && Unanswered([event], w)
  {
    if pending != [] {
      var front, last := pending[..|pending| - 1], pending[|pending| - 1];
      UnmatchedAre(front, event, w);
      MatchAnswers(event, last);
      assert pending == front + [last];
    }
  }

  lemma {:induction false} ResolutionsAre(pending: seq<Wait>, event: Event, s: Settlement)
    ensures s in Resolutions(pending, event) <==> s.outcome == Resolved(event) && s.wait in pending && RightAnswer(s)
  {
    if pending != [] {
      var front, last := pending[..|pending| - 1], pending[|pending| - 1];
      ResolutionsAre(front, event, s);
      MatchAnswers(event, last);
      assert pending == front + [last];
    }
  }

  lemma EventDelivers(c: Core, event: Event)
    ensures Delivers(c, AfterEvent(c, event), event)
  {
    var d := AfterEvent(c, event);
    forall w ensures w in d.pending <==> w in c.pending && Unanswered([event], w) { UnmatchedAre(c.pending, event, w); }
    assert d.settled[|c.settled|..] == Resolutions(c.pending, event);
    forall s ensures s in d.settled[|c.settled|..] <==> s.outcome == Resolved(event) && s.wait in c.pending && RightAnswer(s) {
      ResolutionsAre(c.pending, event, s);
    }
  }

  /**
   * What a line does: nothing without the prefix; a payload that is no event rejects all; an event is
   * delivered, and one that reports an error then rejects everything it did not answer.
   */
  lemma LineSettles(parse: Parser, c: Core, line: string) returns (delivered: Core)
    ensures var after := AfterLine(parse, c, line);
            if !(EVENT_PREFIX <= line) then after == c
            else if parse(line[|EVENT_PREFIX|..]).None? then RejectsAll(c, after, InvalidJson)
            else
              var event := parse(line[|EVENT_PREFIX|..]).value;
              && Delivers(c, delivered, event)
              && if event.event == "error" || event.event == "boot-failed" then RejectsAll(delivered, after, ErrorEvent(event))
                 else after == delivered
  {
    delivered := c;
    RejectAllRejects(c, InvalidJson);
    if EVENT_PREFIX <= line && parse(line[|EVENT_PREFIX|..]).Some? {
      var event := parse(line[|EVENT_PREFIX|..]).value;
      delivered := AfterEvent(c, event);
      EventDelivers(c, event);
      RejectAllRejects(delivered, ErrorEvent(event));
    }
  }

  /** Of the waits, only the first with that number ends, as timed out; without one nothing changes. */
  ghost predicate TimesOut(before: Core, after: Core, id: nat) {
    if forall i :: 0 <= i < |before.pending| ==> before.pending[i].id != id then after == before
    else exists k :: TimesOutAt(before, after, id, k)
  }

  ghost predicate TimesOutAt(before: Core, after: Core, id: nat, k: int) {
    && 0 <= k < |before.pending| && before.pending[k].id == id
    && (forall i :: 0 <= i < k ==> before.pending[i].id != id)
    && after.pending == before.pending[..k] + before.pending[k + 1..]
    && after.settled == before.settled + [Settlement(before.pending[k], Rejected(TimedOut))]
    && after.events == before.events && after.issued == before.issued
  }

  lemma {:induction false} PositionIsFirst(pending: seq<Wait>, id: nat)
    ensures var k := PositionOf(pending, id);
            && k <= |pending| && (k < |pending| ==> pending[k].id == id)
            && forall i :: 0 <= i < k ==> pending[i].id != id
  {
    if pending != [] && pending[0].id != id {
      PositionIsFirst(pending[1..], id);
      assert forall i :: 1 <= i < |pending| ==> pending[i] == pending[1..][i - 1];
    }
  }

  lemma TimeoutSettles(c: Core, id: nat)
    ensures TimesOut(c, AfterTimeout(c, id), id)
  {
    PositionIsFirst(c.pending, id);
    var k := PositionOf(c.pending, id);
    if k < |c.pending| { assert TimesOutAt(c, AfterTimeout(c, id), id, k); }
  }

  /** A new wait takes the first answer in the log, or is pending when there is none. */
  ghost predicate StartsWait(before: Core, after: Core, w: Wait) {
    && after.events == before.events && after.issued == before.issued + [w]
    && if Unanswered(before.events, w) then after.pending == before.pending + [w] && after.settled == before.settled
       else after.pending == before.pending && exists event :: AnsweredAtOnce(before, after, w, event)
  }

  ghost predicate AnsweredAtOnce(before: Core, after: Core, w: Wait, event: Event) {
    var s := Settlement(w, Resolved(event));
    GotAnswer(before.events, s) && after.settled == before.settled + [s]
  }

  lemma WaitStarts(c: Core, expectedEvent: string, requestId: Option<string>)
    ensures StartsWait(c, AfterWaitFor(c, expectedEvent, requestId), Wait(|c.issued|, expectedEvent, requestId))
  {
    var w := Wait(|c.issued|, expectedEvent, requestId);
    UnansweredIff(c.events, w);
    if event :| FirstMatch(c.events, w) == Some(event) {
      FirstMatchAnswers(c.events, w);
      assert AnsweredAtOnce(c, AfterWaitFor(c, expectedEvent, requestId), w, event);
    }
  }

  // ----- undisturbed runs

  function Chunks(ops: seq<Op>): seq<string> {
    if ops == [] then []
    else
      var earlier, last := Chunks(ops[..|ops| - 1]), ops[|ops| - 1];
      if last.Stdout? then earlier + [last.chunk] else earlier
  }

  function EventsOf(parse: Parser, lines: seq<string>): seq<Event> {
    if lines == [] then []
    else
      var earlier, last := EventsOf(parse, lines[..|lines| - 1]), lines[|lines| - 1];
      if HasPrefix(last) && parse(last[|EVENT_PREFIX|..]).Some? then earlier + [parse(last[|EVENT_PREFIX|..]).value]
      else earlier
  }

  predicate CleanLine(parse: Parser, line: string) {
    HasPrefix(line) ==> var event := parse(line[|EVENT_PREFIX|..]); event.Some? && !IsError(event.value)
  }

  ghost predicate Clean(parse: Parser, lines: seq<string>) {
    forall i :: 0 <= i < |lines| ==> CleanLine(parse, lines[i])
  }

  /** Only output and waits, no overlong line, no malformed event and no error event. */
  ghost predicate Undisturbed(parse: Parser, ops: seq<Op>) {
    && (forall i :: 0 <= i < |ops| ==> ops[i].Stdout? || ops[i].Await?)
    && WithinBound("", Chunks(ops))
    && Clean(parse, Lines("", Concat(Chunks(ops))))
  }

  ghost predicate NoneRejected(c: Core) {
    forall i :: 0 <= i < |c.settled| ==> c.settled[i].outcome.Resolved?
  }

  lemma {:induction false} CleanLinesRejectNothing(parse: Parser, c: Core, lines: seq<string>)
    requires Clean(parse, lines) && NoneRejected(c)
    ensures NoneRejected(AfterLines(parse, c, lines))
    ensures AfterLines(parse, c, lines).events == c.events + EventsOf(parse, lines)
  {
    if lines != [] {
      var n := |lines| - 1;
      CleanLinesRejectNothing(parse, c, lines[..n]);
      var before := AfterLines(parse, c, lines[..n]);
      assert CleanLine(parse, lines[n]);
      if HasPrefix(lines[n]) {
        var event := parse(lines[n][|EVENT_PREFIX|..]).value;
        forall i | 0 <= i < |AfterEvent(before, event).settled|
          ensures AfterEvent(before, event).settled[i].outcome.Resolved?
        {
          if i >= |before.settled| { ResolutionsMeaning(before.pending, event, i - |before.settled|); }
        }
      }
    }
  }

  lemma {:induction false} EventsConcat(parse: Parser, a: seq<string>, b: seq<string>)
    ensures EventsOf(parse, a + b) == EventsOf(parse, a) + EventsOf(parse, b)
  {
    if b == [] {
      assert a + b == a;
    } else {
      EventsConcat(parse, a, b[..|b| - 1]);
      assert (a + b)[..|a + b| - 1] == a + b[..|b| - 1];
    }
  }

  /** The state after undisturbed output `text`. */
  ghost predicate HasRead(parse: Parser, s: State, text: string) {
    && NoneRejected(s.core)
    && s.buffer == Rest("", text)
    && s.core.events == EventsOf(parse, Lines("", text))
  }

  lemma ReadMore(parse: Parser, s: State, text: string, chunk: string)
    requires HasRead(parse, s, text) && Clean(parse, Lines("", text + chunk))
    requires Utf8Length(s.buffer + chunk) <= MAX_EVENT_LINE_BYTES
    ensures HasRead(parse, AfterChunk(parse, s, chunk), text + chunk)
  {
    var earlier, later := Lines("", text), Lines(Rest("", text), chunk);
    LinesConcat("", text, chunk);
    CleanSplits(parse, earlier, later);
    ContinueLine(text, chunk);
    CleanLinesRejectNothing(parse, s.core, later);
    EventsConcat(parse, earlier, later);
  }

  lemma {:induction false} UndisturbedRun(parse: Parser, ops: seq<Op>)
    requires Undisturbed(parse, ops)
    ensures HasRead(parse, Run(parse, START, ops), Concat(Chunks(ops)))
  {
    if ops != [] {
      var front, op := ops[..|ops| - 1], ops[|ops| - 1];
      if op.Stdout? {
        LastChunk(parse, ops);
        UndisturbedRun(parse, front);
        ReadMore(parse, Run(parse, START, front), Concat(Chunks(front)), op.chunk);
      } else {
        UndisturbedRun(parse, front);
      }
    }
  }

  lemma LastChunk(parse: Parser, ops: seq<Op>)
    requires ops != [] && ops[|ops| - 1].Stdout? && Undisturbed(parse, ops)
    ensures var front, chunk := ops[..|ops| - 1], ops[|ops| - 1].chunk;
            && Undisturbed(parse, front)
            && Concat(Chunks(ops)) == Concat(Chunks(front)) + chunk
            && Utf8Length(Rest("", Concat(Chunks(front))) + chunk) <= MAX_EVENT_LINE_BYTES
  {
    var front, chunk := ops[..|ops| - 1], ops[|ops| - 1].chunk;
    var text := Concat(Chunks(front));
    assert Chunks(ops)[..|Chunks(front)|] == Chunks(front);
    assert "" + text == text;
    LinesConcat("", text, chunk);
    CleanSplits(parse, Lines("", text), Lines(Rest("", text), chunk));
  }

  lemma CleanSplits(parse: Parser, a: seq<string>, b: seq<string>)
    requires Clean(parse, a + b)
    ensures Clean(parse, a) && Clean(parse, b)
  {
    forall i | 0 <= i < |a| ensures CleanLine(parse, a[i]) { assert (a + b)[i] == a[i]; }
    forall i | 0 <= i < |b| ensures CleanLine(parse, b[i]) { assert (a + b)[|a| + i] == b[i]; }
  }

  lemma ContinueLine(before: string, chunk: string)
    ensures Lines("", Rest("", before) + chunk) == Lines(Rest("", before), chunk)
    ensures Rest("", Rest("", before) + chunk) == Rest(Rest("", before), chunk)
  {
    var rest := Rest("", before);
    SplitJoins("", before);
    UnfinishedLine("", rest);
    LinesConcat("", rest, chunk);
    assert "" + rest == rest;
  }

  /**
   * Whether a wait was called before or after its event arrived makes no difference: it is
   * resolved with the earliest match of the whole output, and pending exactly when there is none.
   */
  lemma WaitGetsEarliestMatch(parse: Parser, ops: seq<Op>, w: Wait)
    requires Undisturbed(parse, ops)
    requires w in Run(parse, START, ops).core.issued
    ensures var c := Run(parse, START, ops).core;
            var events := EventsOf(parse, Lines("", Concat(Chunks(ops))));
            && (w in c.pending <==> Unanswered(events, w))
            && forall i :: AnswerAt(events, w, i) ==> Settlement(w, Resolved(events[i])) in c.settled
  {
    var c := Run(parse, START, ops).core;
    var events := EventsOf(parse, Lines("", Concat(Chunks(ops))));
    UnansweredIff(events, w);
    forall i | AnswerAt(events, w, i) ensures FirstMatch(events, w) == Some(events[i]) { AnswerIsFirst(events, w, i); }
    UndisturbedRun(parse, ops);
    RunFaithful(parse, START, ops);
    SettlesAtMostOnce(parse, ops, w);
    CountFinds(Is(w), c.pending);
    CountFinds(Settles(w), c.settled);
    if i :| 0 <= i < |c.settled| && c.settled[i].wait == w {
      assert TrueToLog(c.events, c.settled[i]);
    }
  }

  // ----- the class

  /** How a request goes on: with the wait of that number, or with an error of its own. */
  datatype Requested = TooLong | Waiting(id: nat) | WriteFailed

  function RequestOps(line: string, expectedEvent: string, requestId: string, meanwhile: seq<Op>, written: bool): seq<Op> {
    if Utf8Length(line) > MAX_EVENT_LINE_BYTES then []
    else [Await(expectedEvent, Some(requestId))] + meanwhile + if written then [] else [Fail(ProcessFailed)]
  }

  lemma RunLast(parse: Parser, s: State, ops: seq<Op>)
    requires ops != []
    ensures Run(parse, s, ops) == Step(parse, Run(parse, s, ops[..|ops| - 1]), ops[|ops| - 1])
  {
  }

  lemma {:induction false} RunAfter(parse: Parser, s: State, op: Op, ops: seq<Op>)
    ensures Run(parse, s, [op] + ops) == Run(parse, Step(parse, s, op), ops)
  {
    RunLast(parse, s, [op] + ops);
    if ops == [] {
      assert [op] + ops == [op] && [op][..0] == [];
    } else {
      RunAfter(parse, s, op, ops[..|ops| - 1]);
      RunLast(parse, Step(parse, s, op), ops);
      assert ([op] + ops)[..|ops|] == [op] + ops[..|ops| - 1];
    }
  }

  lemma RequestRun(parse: Parser, s: State, expectedEvent: string, requestId: string, meanwhile: seq<Op>)
    ensures var op := Await(expectedEvent, Some(requestId));
            var before := Run(parse, Step(parse, s, op), meanwhile);
            && Run(parse, s, [op] + meanwhile + []) == before
            && Run(parse, s, [op] + meanwhile + [Fail(ProcessFailed)]) == Step(parse, before, Fail(ProcessFailed))
  {
    var ops := [Await(expectedEvent, Some(requestId))] + meanwhile;
    RunAfter(parse, s, Await(expectedEvent, Some(requestId)), meanwhile);
    assert ops + [] == ops && (ops + [Fail(ProcessFailed)])[..|ops|] == ops;
  }

  lemma {:induction false} LinesIssueNothing(parse: Parser, c: Core, lines: seq<string>)
    ensures AfterLines(parse, c, lines).issued == c.issued
  {
    if lines != [] { LinesIssueNothing(parse, c, lines[..|lines| - 1]); }
  }

  /** A wait that was handed out is never forgotten. */
  lemma {:induction false} IssuedStand(parse: Parser, s: State, ops: seq<Op>)
    ensures s.core.issued <= Run(parse, s, ops).core.issued
  {
    if ops != [] {
      var front, last := ops[..|ops| - 1], ops[|ops| - 1];
      IssuedStand(parse, s, front);
      var before := Run(parse, s, front);
      if last.Stdout? { LinesIssueNothing(parse, before.core, Lines("", before.buffer + last.chunk)); }
    }
  }

  /** Lines 92 and 93. */
  method Find(events: seq<Event>, wait: Wait) returns (r: Option<Event>)
    ensures r == FirstMatch(events, wait)
    ensures r.None? <==> Unanswered(events, wait)
    ensures r.Some? ==> GotAnswer(events, Settlement(wait, Resolved(r.value)))
  {
    UnansweredIff(events, wait);
    r := None;
    for i := 0 to |events|
      invariant r.None? && FirstMatch(events[..i], wait).None?
    {
      assert events[..i + 1][..i] == events[..i];
      if Matches(events[i], wait) {
        MatchStaysFirst(events, i + 1, wait);
        FirstMatchAnswers(events, wait);
        return Some(events[i]);
      }
    }
    assert events[..|events|] == events;
  }

  class Child {
    const parse: Parser
    var lineBuffer: string
    var events: seq<Event>
    var pending: seq<Wait>
    var settled: seq<Settlement>
    var issued: seq<Wait>

    ghost function View(): State
      reads this
    {
      State(lineBuffer, Core(events, pending, settled, issued))
    }

    constructor (parse: Parser)
      ensures View() == START && this.parse == parse
    {
      this.parse, lineBuffer, events, pending, settled, issued := parse, "", [], [], [], [];
    }

    /** Lines 213 to 219. */
    method RejectAll(reason: Reason)
      modifies this
      ensures View() == old(View()).(core := AfterRejectAll(old(View()).core, reason))
      ensures RejectsAll(old(View()).core, View().core, reason)
    {
      RejectAllRejects(View().core, reason);
      var i := 0;
      while i < |pending|
        invariant i <= |pending|
        invariant lineBuffer == old(lineBuffer) && events == old(events) && pending == old(pending) && issued == old(issued)
        invariant settled == old(settled) + Rejections(pending[..i], reason)
      {
        assert pending[..i + 1][..i] == pending[..i];
        settled := settled + [Settlement(pending[i], Rejected(reason))];
        i := i + 1;
      }
      assert pending[..i] == pending;
      pending := [];
    }

    /** Lines 193 to 202: the event goes to the log, then to every wait it matches. */
    method Dispatch(event: Event)
      modifies this
      ensures View() == old(View()).(core := AfterEvent(old(View()).core, event))
      ensures Delivers(old(View()).core, View().core, event)
    {
      EventDelivers(View().core, event);
      var waits, left := pending, [];
      events := events + [event];
      for i := 0 to |waits|
        invariant lineBuffer == old(lineBuffer) && events == old(events) + [event] && issued == old(issued)
        invariant left == Unmatched(waits[..i], event)
        invariant settled == old(settled) + Resolutions(waits[..i], event)
      {
        assert waits[..i + 1][..i] == waits[..i];
        if Matches(event, waits[i]) {
          settled := settled + [Settlement(waits[i], Resolved(event))];
        } else {
          left := left + [waits[i]];
        }
      }
      assert waits[..|waits|] == waits;
      pending := left;
    }

    /** Lines 184 to 209: one line. */
    method HandleLine(line: string)
      modifies this
      ensures View() == old(View()).(core := AfterLine(parse, old(View()).core, line))
    {
      if HasPrefix(line) {
        var event := parse(line[|EVENT_PREFIX|..]);
        if event.None? {
          RejectAll(InvalidJson);
        } else {
          Dispatch(event.value);
          if IsError(event.value) { RejectAll(ErrorEvent(event.value)); }
        }
      }
    }

    /** Lines 175 to 211. */
    method ConsumeStdout(chunk: string)
      modifies this
      ensures View() == AfterChunk(parse, old(View()), chunk)
    {
      lineBuffer := lineBuffer + chunk;
      if Utf8Length(lineBuffer) > MAX_EVENT_LINE_BYTES {
        RejectAll(Overlong);
        lineBuffer := "";
        return;
      }
      var lines := Lines("", lineBuffer);
      lineBuffer := Rest("", lineBuffer);
      for i := 0 to |lines|
        invariant View() == State(Rest("", old(lineBuffer) + chunk), AfterLines(parse, old(View()).core, lines[..i]))
      {
        assert lines[..i + 1][..i] == lines[..i];
        HandleLine(lines[i]);
      }
      assert lines[..|lines|] == lines;
    }

    /** Lines 91 to 112. */
    method WaitFor(expectedEvent: string, requestId: Option<string>) returns (id: nat)
      modifies this
      ensures View() == old(View()).(core := AfterWaitFor(old(View()).core, expectedEvent, requestId))
      ensures id == old(|issued|) && StartsWait(old(View()).core, View().core, Wait(id, expectedEvent, requestId))
    {
      WaitStarts(View().core, expectedEvent, requestId);
      id := |issued|;
      var wait := Wait(id, expectedEvent, requestId);
      var seen := Find(events, wait);
      issued := issued + [wait];
      if seen.Some? {
        settled := settled + [Settlement(wait, Resolved(seen.value))];
      } else {
        pending := pending + [wait];
      }
    }

    /** Lines 97 to 102: the timer of a wait fires. */
    method Timeout(id: nat)
      modifies this
      ensures View() == old(View()).(core := AfterTimeout(old(View()).core, id))
      ensures TimesOut(old(View()).core, View().core, id)
    {
      TimeoutSettles(View().core, id);
      var k := PositionOf(pending, id);
      if k < |pending| {
        settled := settled + [Settlement(pending[k], Rejected(TimedOut))];
        pending := pending[..k] + pending[k + 1..];
      }
    }

    method Perform(op: Op)
      modifies this
      ensures View() == Step(parse, old(View()), op)
    {
      match op
      case Stdout(chunk) => ConsumeStdout(chunk);
      case Await(expectedEvent, requestId) => var _ := WaitFor(expectedEvent, requestId);
      case Expire(id) => Timeout(id);
      case Fail(reason) => RejectAll(reason);
    }

    method PerformAll(ops: seq<Op>)
      modifies this
      ensures View() == Run(parse, old(View()), ops)
    {
      for i := 0 to |ops|
        invariant View() == Run(parse, old(View()), ops[..i])
      {
        assert ops[..i + 1][..i] == ops[..i];
        Perform(ops[i]);
      }
      assert ops[..|ops|] == ops;
    }

    /**
     * Lines 114 to 142: an overlong command waits for nothing. The wait starts before the
     * write, `meanwhile` is what happens until the write reports, and a failed write
     * rejects whatever is still waiting then.
     */
    method Request(line: string, expectedEvent: string, requestId: string, meanwhile: seq<Op>, written: bool)
      returns (answer: Requested)
      modifies this
      ensures answer == if Utf8Length(line) > MAX_EVENT_LINE_BYTES then TooLong
                        else if written then Waiting(old(|issued|)) else WriteFailed
      ensures View() == Run(parse, old(View()), RequestOps(line, expectedEvent, requestId, meanwhile, written))
      ensures answer.TooLong? ==> View() == old(View())
      ensures !answer.TooLong? ==> old(issued) + [Wait(old(|issued|), expectedEvent, Some(requestId))] <= issued
      ensures answer.WriteFailed? ==> pending == []
    {
      if Utf8Length(line) > MAX_EVENT_LINE_BYTES { return TooLong; }
      RequestRun(parse, View(), expectedEvent, requestId, meanwhile);
      var id := WaitFor(expectedEvent, Some(requestId));
      IssuedStand(parse, View(), meanwhile);
      PerformAll(meanwhile);
      if written { return Waiting(id); }
      RejectAll(ProcessFailed);
      return WriteFailed;
    }
  }

  lemma {:induction false} MatchStaysFirst(events: seq<Event>, n: nat, wait: Wait)
    requires n <= |events| && FirstMatch(events[..n], wait).Some?
    ensures FirstMatch(events, wait) == FirstMatch(events[..n], wait)
  {
    if n < |events| {
      assert events[..|events| - 1][..n] == events[..n];
      MatchStaysFirst(events[..|events| - 1], n, wait);
    } else {
      assert events[..n] == events;
    }
  }
}
