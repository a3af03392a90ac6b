/** The text protocol of the event stream: the client's block splitter and block parser, and the
    incremental reader.

    Characters are Unicode code points.  A payload is represented by its serialised text; `json`
    is the set of texts that the client's JSON parser accepts. */
module Sse {
  import opened Wrappers
  import opened Sequences
  import opened Decimal

  /** A stored event: its number in the run's log, its type, and its payload as serialised text. */
  datatype Event = Event(sequence: nat, name: string, raw: string)

  /** What the client's parser produces for one block. */
  datatype SseEvent = SseEvent(id: Option<nat>, event: string, data: string)

  const BLANK: string := "\n\n"

  // ---------------------------------------------------------------------------------------------
  // Leftmost splitting on a blank line
  // ---------------------------------------------------------------------------------------------

  predicate BlankAt(s: string, i: int) {
    0 <= i && i + 1 < |s| && s[i] == '\n' && s[i + 1] == '\n'
  }

  /** The leftmost blank line at or after `from`, or the length of `s` when there is none. */
  function FindBlank(s: string, from: nat): (i: nat)
    requires from <= |s|
    ensures from <= i <= |s|
    ensures i < |s| ==> BlankAt(s, i)
    ensures forall j :: from <= j < i ==> !BlankAt(s, j)
    decreases |s| - from
  {
    if from == |s| then |s| else if BlankAt(s, from) then from else FindBlank(s, from + 1)
  }

  /** JavaScript's `s.split("\n\n")`. */
  function SplitBlocks(s: string): (blocks: seq<string>)
    ensures |blocks| >= 1
    decreases |s|
  {
    var i := FindBlank(s, 0);
    if i == |s| then [s] else [s[..i]] + SplitBlocks(s[i + 2..])
  }

  /** The blocks that a blank line has closed, and the unfinished text after the last of them. */
  function Complete(s: string): seq<string> {
    var blocks := SplitBlocks(s);
    blocks[..|blocks| - 1]
  }

  function Remainder(s: string): string {
    var blocks := SplitBlocks(s);
    blocks[|blocks| - 1]
  }

  /** JavaScript's `blocks.join("\n\n")`. */
  function JoinBlocks(blocks: seq<string>): string {
    if |blocks| == 0 then "" else
    if |blocks| == 1 then blocks[0] else blocks[0] + BLANK + JoinBlocks(blocks[1..])
  }

  /** Each block followed by its blank line. */
  function Closed(blocks: seq<string>): string {
    if blocks == [] then "" else Closed(blocks[..|blocks| - 1]) + (blocks[|blocks| - 1] + BLANK)
  }

  lemma ClosedSnoc(blocks: seq<string>, last: string)
    ensures Closed(blocks + [last]) == Closed(blocks) + (last + BLANK)
  {
    hide BLANK;
    assert (blocks + [last])[..|blocks|] == blocks;
  }

  lemma {:induction false} ClosedAppend(a: seq<string>, b: seq<string>)
    ensures Closed(a + b) == Closed(a) + Closed(b)
  {
    hide BLANK, Closed;
    if b == [] {
      assert a + b == a;
      NothingClosed();
    } else {
      var init, last := b[..|b| - 1], b[|b| - 1];
      ClosedAppend(a, init);
      ClosedSnoc(init, last);
      ClosedSnoc(a + init, last);
      assert b == init + [last] && a + b == (a + init) + [last];
    }
  }

  lemma ClosedCons(blocks: seq<string>)
    requires blocks != []
    ensures Closed(blocks) == blocks[0] + BLANK + Closed(blocks[1..])
  {
    assert blocks == [blocks[0]] + blocks[1..];
    ClosedAppend([blocks[0]], blocks[1..]);
    assert [blocks[0]][..0] == [];
  }

  /** Joining and adding a final blank line closes every block. */
  lemma {:induction false} JoinCloses(blocks: seq<string>)
    ensures JoinBlocks(blocks) + (if blocks == [] then "" else BLANK) == Closed(blocks)
  {
    if blocks != [] {
      ClosedCons(blocks);
      JoinCloses(blocks[1..]);
    }
  }

  /** A block that splitting can produce before a blank line: it holds no blank line itself and
      does not end in a newline, which would move the blank line one character to the left. */
  predicate Tight(b: string) {
    (forall j :: 0 <= j < |b| ==> !BlankAt(b, j)) && (b != "" ==> b[|b| - 1] != '\n')
  }

  lemma FindAfterTight(b: string, rest: string)
    requires Tight(b)
    ensures FindBlank(b + BLANK + rest, 0) == |b|
  {
    var s := b + BLANK + rest;
    assert BlankAt(s, |b|);
    forall j | 0 <= j < |b| ensures !BlankAt(s, j) {
      assert !BlankAt(b, j);
    }
  }

  lemma SplitTight(b: string, rest: string)
    requires Tight(b)
    ensures SplitBlocks(b + BLANK + rest) == [b] + SplitBlocks(rest)
  {
    var s := b + BLANK + rest;
    FindAfterTight(b, rest);
    assert s[..|b|] == b;
    assert s[|b| + 2..] == rest;
  }

  /** Splitting gives back tight blocks that were closed by blank lines, in front of whatever
      text follows them. */
  lemma {:induction false} SplitClosed(blocks: seq<string>, rest: string)
    requires forall i | 0 <= i < |blocks| :: Tight(blocks[i])
    ensures SplitBlocks(Closed(blocks) + rest) == blocks + SplitBlocks(rest)
  {
    hide SplitBlocks, Tight;
    if blocks == [] {
      assert Closed(blocks) + rest == rest;
    } else {
      var init, last := blocks[..|blocks| - 1], blocks[|blocks| - 1];
      assert Closed(blocks) + rest == Closed(init) + (last + BLANK + rest);
      SplitClosed(init, last + BLANK + rest);
      SplitTight(last, rest);
      assert blocks == init + [last];
    }
  }

  lemma CutAtBlank(s: string, i: nat)
    requires BlankAt(s, i)
    ensures s == s[..i] + BLANK + s[i + 2..]
  {
  }

  lemma TightBefore(s: string, i: nat)
    requires BlankAt(s, i) && forall j | 0 <= j < i :: !BlankAt(s, j)
    ensures Tight(s[..i])
  {
    forall j | 0 <= j < i ensures !BlankAt(s[..i], j) { assert !BlankAt(s, j); }
    if i > 0 { assert !BlankAt(s, i - 1); }
  }

  lemma FirstBlock(s: string)
    requires FindBlank(s, 0) < |s|
    ensures var i := FindBlank(s, 0);
      i + 2 <= |s| && Tight(s[..i]) && s == s[..i] + BLANK + s[i + 2..]
  {
    hide FindBlank, Tight, BLANK;
    var i := FindBlank(s, 0);
    CutAtBlank(s, i);
    TightBefore(s, i);
  }

  lemma SplitStep(s: string)
    ensures var i := FindBlank(s, 0);
      i < |s| ==> i + 2 <= |s| && SplitBlocks(s) == [s[..i]] + SplitBlocks(s[i + 2..])
    ensures FindBlank(s, 0) == |s| ==> SplitBlocks(s) == [s]
  {
    hide FindBlank;
  }

  lemma SplitFirst(s: string)
    ensures var i := FindBlank(s, 0);
      if i == |s| then Complete(s) == [] && Remainder(s) == s
      else i + 2 <= |s| && Complete(s) == [s[..i]] + Complete(s[i + 2..]) && Remainder(s) == Remainder(s[i + 2..])
  {
    hide FindBlank, SplitBlocks, BlankAt;
    SplitStep(s);
    var i := FindBlank(s, 0);
    if i < |s| {
      SplitEnds([s[..i]], SplitBlocks(s[i + 2..]), SplitBlocks(s));
    } else {
      assert [s][..0] == [];
    }
  }

  lemma SplitEnds(first: seq<string>, rest: seq<string>, all: seq<string>)
    requires rest != [] && all == first + rest
    ensures all[..|all| - 1] == first + rest[..|rest| - 1] && all[|all| - 1] == rest[|rest| - 1]
  {
  }

  /** Splitting loses nothing: every closed block is tight, and the closed blocks followed by the
      remainder are the text. */
  lemma {:induction false} SplitParts(s: string)
    ensures forall i | 0 <= i < |Complete(s)| :: Tight(Complete(s)[i])
    ensures s == Closed(Complete(s)) + Remainder(s)
    ensures Complete(Remainder(s)) == [] && Remainder(Remainder(s)) == Remainder(s)
    decreases |s|
  {
    hide FindBlank, Complete, Remainder, Tight, Closed, BLANK;
    var i := FindBlank(s, 0);
    SplitFirst(s);
    if i == |s| {
      assert Closed([]) == "" by { NothingClosed(); }
    } else {
      FirstBlock(s);
      var rest := s[i + 2..];
      SplitParts(rest);
      ClosedCons(Complete(s));
      assert Complete(s)[1..] == Complete(rest);
      assert s[..i] + BLANK + rest == s[..i] + BLANK + Closed(Complete(rest)) + Remainder(rest);
    }
  }

  lemma NothingClosed()
    ensures Closed([]) == ""
  {
  }

  /** Prefix stability: text that arrives later never changes the blocks already closed.
      Splitting `a + b` is splitting `b` behind the remainder of `a`. */
  lemma SplitAppend(a: string, b: string)
    ensures SplitBlocks(a + b) == Complete(a) + SplitBlocks(Remainder(a) + b)
  {
    SplitParts(a);
    assert a + b == Closed(Complete(a)) + (Remainder(a) + b);
    SplitClosed(Complete(a), Remainder(a) + b);
  }

  // ---------------------------------------------------------------------------------------------
  // The block parser
  // ---------------------------------------------------------------------------------------------

  /** The characters at which a JavaScript `^`, `$` or `.` sees a line end. */
  predicate IsLineEnd(c: char) { c == '\n' || c == '\r' || c == '\U{2028}' || c == '\U{2029}' }

  predicate OneLine(s: string) { forall i | 0 <= i < |s| :: !IsLineEnd(s[i]) }

  function FindLineEnd(s: string, from: nat): (i: nat)
    requires from <= |s|
    ensures from <= i <= |s|
    ensures i < |s| ==> IsLineEnd(s[i])
    ensures forall j | from <= j < i :: !IsLineEnd(s[j])
    decreases |s| - from
  {
    if from == |s| || IsLineEnd(s[from]) then from else FindLineEnd(s, from + 1)
  }

  function Lines(s: string): (lines: seq<string>)
    ensures |lines| >= 1
    decreases |s|
  {
    var i := FindLineEnd(s, 0);
    if i == |s| then [s] else [s[..i]] + Lines(s[i + 1..])
  }

  lemma LinesCons(line: string, end: char, rest: string)
    requires OneLine(line) && IsLineEnd(end)
    ensures Lines(line + [end] + rest) == [line] + Lines(rest)
  {
    var s := line + [end] + rest;
    assert forall j | 0 <= j < |line| :: s[j] == line[j];
    assert s[|line|] == end;
    assert FindLineEnd(s, 0) == |line|;
    assert s[..|line|] == line && s[|line| + 1..] == rest;
  }

  /** The group of the first match of `^<prefix>(.+)$`, or of `^<prefix>(\d+)$` when `digits`. */
  function Field(lines: seq<string>, prefix: string, digits: bool): (value: Option<string>)
    ensures value.Some? ==> value.value != "" && (digits ==> AllDigits(value.value))
  {
    if lines == [] then None
    else
      var line := lines[0];
      if prefix < line && (digits ==> AllDigits(line[|prefix|..])) then Some(line[|prefix|..])
      else Field(lines[1..], prefix, digits)
  }

  function ParseBlock(block: string, json: string -> bool): seq<SseEvent> {
    var lines := Lines(block);
    var event, id, raw :=
      Field(lines, "event: ", false), Field(lines, "id: ", true), Field(lines, "data: ", false);
    if event.None? || raw.None? || !json(raw.value) then []
    else [SseEvent(if id.Some? then Some(ParseNat(id.value)) else None, event.value, raw.value)]
  }

  function ParseBlocks(blocks: seq<string>, json: string -> bool): seq<SseEvent> {
    if blocks == [] then [] else ParseBlock(blocks[0], json) + ParseBlocks(blocks[1..], json)
  }

  /** `parseSseEvents`. */
  function ParseSseEvents(text: string, json: string -> bool): seq<SseEvent> {
    ParseBlocks(SplitBlocks(text), json)
  }

  lemma {:induction false} ParseBlocksAppend(a: seq<string>, b: seq<string>, json: string -> bool)
    ensures ParseBlocks(a + b, json) == ParseBlocks(a, json) + ParseBlocks(b, json)
  {
    if a == [] {
      assert a + b == b;
    } else {
      assert (a + b)[1..] == a[1..] + b;
      ParseBlocksAppend(a[1..], b, json);
    }
  }

  lemma EmptyTail(json: string -> bool)
    ensures SplitBlocks("") == [""]
    ensures ParseBlocks([""], json) == []
  {
    assert Lines("") == [""];
    assert Field([""], "event: ", false) == Field([], "event: ", false);
    assert ParseBlock("", json) == [];
    assert ParseBlocks([""][1..], json) == [];
  }

  /** Split after join: parsing closed blocks again gives the events of exactly those blocks. */
  lemma ParseClosed(blocks: seq<string>, json: string -> bool)
    requires forall i | 0 <= i < |blocks| :: Tight(blocks[i])
    ensures ParseSseEvents(Closed(blocks), json) == ParseBlocks(blocks, json)
  {
    SplitClosed(blocks, "");
    EmptyTail(json);
    ParseBlocksAppend(blocks, [""], json);
    var text := Closed(blocks);
    assert text + "" == text;
  }

  // ---------------------------------------------------------------------------------------------
  // The incremental reader
  // ---------------------------------------------------------------------------------------------

  /** The events that a reader has handed on once it has received `text`. */
  function EventsOf(text: string, json: string -> bool): seq<SseEvent> {
    ParseBlocks(Complete(text), json)
  }

  function Flatten(calls: seq<seq<SseEvent>>): seq<SseEvent> {
    if calls == [] then [] else Flatten(calls[..|calls| - 1]) + calls[|calls| - 1]
  }

  /** Reading one more piece: the blocks closed by it are those closed in the whole text. */
  lemma ReadPiece(text: string, piece: string, json: string -> bool)
    ensures var blocks := Complete(Remainder(text) + piece);
      && Remainder(text + piece) == Remainder(Remainder(text) + piece)
      && Complete(text + piece) == Complete(text) + blocks
      && Closed(Complete(text + piece)) == Closed(Complete(text)) + Closed(blocks)
      && EventsOf(text + piece, json) == EventsOf(text, json) + ParseSseEvents(Closed(blocks), json)
  {
    hide Complete, Remainder, Closed, ParseSseEvents, ParseBlocks, Tight;
    var buffer := Remainder(text) + piece;
    CompleteAppend(text, piece);
    SplitParts(buffer);
    ParseClosed(Complete(buffer), json);
    ParseBlocksAppend(Complete(text), Complete(buffer), json);
    ClosedAppend(Complete(text), Complete(buffer));
  }

  lemma CompleteAppend(a: string, b: string)
    ensures Complete(a + b) == Complete(a) + Complete(Remainder(a) + b)
    ensures Remainder(a + b) == Remainder(Remainder(a) + b)
  {
    hide SplitBlocks;
    SplitAppend(a, b);
    SplitEnds(Complete(a), SplitBlocks(Remainder(a) + b), SplitBlocks(a + b));
  }

  lemma FlattenSnoc(calls: seq<seq<SseEvent>>, events: seq<SseEvent>)
    ensures Flatten(if events == [] then calls else calls + [events]) == Flatten(calls) + events
  {
    if events != [] {
      assert (calls + [events])[..|calls|] == calls;
    }
  }

  /** The reader after `got`: its accumulated text, its carried buffer and its callbacks so far. */
  ghost predicate ReaderAt(got: string, text: string, buffer: string, calls: seq<seq<SseEvent>>,
                           json: string -> bool) {
    && text == Closed(Complete(got))
    && buffer == Remainder(got)
    && Flatten(calls) == EventsOf(got, json)
    && forall k | 0 <= k < |calls| :: calls[k] != []
  }

  lemma ReaderStep(got: string, text: string, buffer: string, calls: seq<seq<SseEvent>>,
                   piece: string, blocks: seq<string>, events: seq<SseEvent>, json: string -> bool)
    requires ReaderAt(got, text, buffer, calls, json)
    requires blocks == Complete(buffer + piece)
    requires events == ParseSseEvents(Closed(blocks), json)
    ensures ReaderAt(got + piece, text + Closed(blocks), Remainder(buffer + piece),
                     if events == [] then calls else calls + [events], json)
  {
    hide SplitBlocks, ParseBlocks, Closed;
    ReadPiece(got, piece, json);
    FlattenSnoc(calls, events);
  }

  lemma ReaderStart(pieces: seq<string>, json: string -> bool)
    ensures ReaderAt(Concat(pieces[..0]), "", "", [], json)
  {
    EmptyTail(json);
  }

  lemma ReaderDone(got: string, text: string, buffer: string, calls: seq<seq<SseEvent>>,
                   json: string -> bool)
    requires ReaderAt(got, text, buffer, calls, json)
    ensures text + buffer == got
    ensures Flatten(calls) == EventsOf(got, json)
    ensures forall k | 0 <= k < |calls| :: calls[k] != []
  {
    SplitParts(got);
  }

  /** `readSseResponse`: whatever way the network cuts the stream, the returned text is the whole
      stream and the callback receives, over its calls, the events of all complete blocks. */
  method ReadSseResponse(pieces: seq<string>, json: string -> bool)
    returns (text: string, calls: seq<seq<SseEvent>>)
    ensures text == Concat(pieces)
    ensures Flatten(calls) == EventsOf(Concat(pieces), json)
    ensures forall i | 0 <= i < |calls| :: calls[i] != []
  {
    hide ReaderAt, ParseBlocks, Closed, JoinBlocks, SplitBlocks, Flatten, EventsOf, Concat;
    text, calls := "", [];
    var buffer := "";
    ReaderStart(pieces, json);
    var i := 0;
    while i < |pieces|
      invariant 0 <= i <= |pieces|
      invariant ReaderAt(Concat(pieces[..i]), text, buffer, calls, json)
    {
      ghost var wasText, wasBuffer, wasCalls := text, buffer, calls;
      buffer := buffer + pieces[i];
      var blocks := SplitBlocks(buffer);
      var last := blocks[|blocks| - 1];
      blocks := blocks[..|blocks| - 1];
      var closed := JoinBlocks(blocks) + if blocks == [] then "" else BLANK;
      JoinCloses(blocks);
      var chunkEvents := ParseSseEvents(closed, json);
      ReaderStep(Concat(pieces[..i]), wasText, wasBuffer, wasCalls, pieces[i], blocks, chunkEvents, json);
      ConcatStep(pieces, i);
      buffer := last;
      if chunkEvents != [] {
        calls := calls + [chunkEvents];
      }
      text := text + closed;
      i := i + 1;
    }
    assert pieces[..i] == pieces;
    ReaderDone(Concat(pieces), text, buffer, calls, json);
    text := text + buffer;
  }
}
