/** The server's encoder, and what the client reads back of what it writes. */
module Encoder {
  import opened Wrappers
  import opened Sequences
  import opened Decimal
  import opened Sse

  /** `encode_sse` without its closing blank line. */
  function EventBlock(e: Event): string {
    "id: " + PrintNat(e.sequence) + "\n" + "event: " + e.name + "\n" + "data: " + e.raw
  }

  /** `encode_sse`. */
  function EncodeSse(e: Event): string { EventBlock(e) + BLANK }

  /** What the server knows about its own events: a type is a non-empty identifier, and a payload
      is an object printed by `json.dumps(..., ensure_ascii=False)`.  The printer escapes control
      characters, so no newline or carriage return occurs, and no proper prefix of a printed
      object is itself JSON.  It does not escape U+2028 and U+2029. */
  predicate Printed(e: Event, json: string -> bool) {
    && e.name != "" && OneLine(e.name)
    && e.raw != "" && !IsLineEnd(e.raw[0])
    && (forall i | 0 <= i < |e.raw| :: e.raw[i] != '\n' && e.raw[i] != '\r')
    && (forall k | 0 <= k < |e.raw| :: !json(e.raw[..k]))
  }

  /** The events that survive the trip: the payload parses and holds no line separator. */
  predicate Visible(e: Event, json: string -> bool) { json(e.raw) && OneLine(e.raw) }

  function Received(e: Event): SseEvent { SseEvent(Some(e.sequence), e.name, e.raw) }

  lemma TightLine(line: string, rest: string)
    requires forall i | 0 <= i < |line| :: line[i] != '\n'
    requires Tight(rest) && rest != "" && rest[0] != '\n'
    ensures Tight(line + "\n" + rest)
  {
    var s := line + "\n" + rest;
    forall j | 0 <= j < |s| ensures !BlankAt(s, j) {
      if j < |line| {
        assert s[j] == line[j];
      } else if j == |line| {
        assert s[j + 1] == rest[0];
      } else {
        assert !BlankAt(rest, j - |line| - 1);
      }
    }
  }

  lemma EventBlockShape(e: Event)
    ensures EventBlock(e)
         == ("id: " + PrintNat(e.sequence)) + "\n" + (("event: " + e.name) + "\n" + ("data: " + e.raw))
  {
  }

  lemma EventBlockTight(e: Event, json: string -> bool)
    requires Printed(e, json)
    ensures Tight(EventBlock(e))
  {
    hide Tight, EventBlock;
    var a, b, c := "id: " + PrintNat(e.sequence), "event: " + e.name, "data: " + e.raw;
    EventBlockShape(e);
    assert forall j | 0 <= j < |c| :: c[j] != '\n';
    OneLineTight(c);
    TightLine(b, c);
    TightLine(a, b + "\n" + c);
  }

  lemma OneLineTight(s: string)
    requires forall j | 0 <= j < |s| :: s[j] != '\n'
    ensures Tight(s)
  {
  }

  lemma EventLines(e: Event)
    requires OneLine(e.name)
    ensures Lines(EventBlock(e))
         == ["id: " + PrintNat(e.sequence)] + (["event: " + e.name] + Lines("data: " + e.raw))
  {
    hide Lines, EventBlock;
    var a, b, c := "id: " + PrintNat(e.sequence), "event: " + e.name, "data: " + e.raw;
    EventBlockShape(e);
    LinesCons(a, '\n', b + "\n" + c);
    LinesCons(b, '\n', c);
  }

  /** One encoded event, read back: exactly that event when its payload parses and holds no line
      separator, and nothing otherwise. */
  lemma ParseEventBlock(e: Event, json: string -> bool)
    requires Printed(e, json)
    ensures ParseBlock(EventBlock(e), json) == if Visible(e, json) then [Received(e)] else []
  {
    hide Lines, EventBlock, Field, PrintNat, ParseNat;
    EventLines(e);
    FieldsOfEvent("id: " + PrintNat(e.sequence), "event: " + e.name, Lines("data: " + e.raw),
                  Lines(EventBlock(e)), e);
    ParsePrintNat(e.sequence);
    var i := FindLineEnd(e.raw, 0);
    FirstDataLine(e, i);
    if i == |e.raw| {
      assert e.raw[..i] == e.raw;
    }
  }

  /** The line that `data:` matches ends at the first line end inside the payload. */
  lemma FirstDataLine(e: Event, i: nat)
    requires e.raw != "" && !IsLineEnd(e.raw[0]) && i == FindLineEnd(e.raw, 0)
    ensures i > 0
    ensures Lines("data: " + e.raw)[0] == "data: " + e.raw[..i]
    ensures Field(Lines("data: " + e.raw), "data: ", false) == Some(e.raw[..i])
  {
    var c, line := "data: " + e.raw, "data: " + e.raw[..i];
    assert OneLine(line);
    if i == |e.raw| {
      assert e.raw[..i] == e.raw;
      assert FindLineEnd(c, 0) == |c|;
    } else {
      assert c == line + [e.raw[i]] + e.raw[i + 1..];
      LinesCons(line, e.raw[i], e.raw[i + 1..]);
    }
    assert Lines(c)[0] == line;
    assert "data: " < line;
    assert line[6..] == e.raw[..i];
  }

  lemma FieldsOfEvent(a: string, b: string, tail: seq<string>, lines: seq<string>, e: Event)
    requires a == "id: " + PrintNat(e.sequence) && b == "event: " + e.name && e.name != ""
    requires lines == [a] + ([b] + tail)
    ensures Field(lines, "id: ", true) == Some(PrintNat(e.sequence))
    ensures Field(lines, "event: ", false) == Some(e.name)
    ensures Field(lines, "data: ", false) == Field(tail, "data: ", false)
  {
    assert lines[1..] == [b] + tail && ([b] + tail)[1..] == tail;
    assert "id: " < a && a[4..] == PrintNat(e.sequence);
    assert "event: " < b && b[7..] == e.name;
    assert a[0] == 'i' && b[0] == 'e';
    assert !("event: " < a) && !("data: " < a) && !("data: " < b);
  }

  // ---------------------------------------------------------------------------------------------
  // Frames on the wire
  // ---------------------------------------------------------------------------------------------

  /** What the server writes: encoded events, with heartbeats in between. */
  datatype Frame = Data(event: Event) | Heartbeat

  function Block(f: Frame): string {
    match f
    case Data(e) => EventBlock(e)
    case Heartbeat => ": heartbeat"
  }

  function Blocks(frames: seq<Frame>): (blocks: seq<string>)
    ensures |blocks| == |frames|
    ensures forall i | 0 <= i < |frames| :: blocks[i] == Block(frames[i])
  {
    seq(|frames|, i requires 0 <= i < |frames| => Block(frames[i]))
  }

  function FrameText(f: Frame): string {
    match f
    case Data(e) => EncodeSse(e)
    case Heartbeat => ": heartbeat\n\n"
  }

  /** The characters on the wire. */
  function Wire(frames: seq<Frame>): string {
    if frames == [] then "" else Wire(frames[..|frames| - 1]) + FrameText(frames[|frames| - 1])
  }

  /** The stored events among the frames, and those the client can see. */
  function Sent(frames: seq<Frame>): seq<Event> {
    if frames == [] then []
    else Sent(frames[..|frames| - 1]) +
         match frames[|frames| - 1] case Data(e) => [e] case Heartbeat => []
  }

  function VisibleOf(events: seq<Event>, json: string -> bool): seq<SseEvent> {
    if events == [] then []
    else VisibleOf(events[..|events| - 1], json) +
         if Visible(events[|events| - 1], json) then [Received(events[|events| - 1])] else []
  }

  predicate AllPrinted(events: seq<Event>, json: string -> bool) {
    forall i | 0 <= i < |events| :: Printed(events[i], json)
  }

  predicate FramesPrinted(frames: seq<Frame>, json: string -> bool) {
    forall i | 0 <= i < |frames| :: frames[i].Data? ==> Printed(frames[i].event, json)
  }

  lemma {:induction false} VisibleOfAppend(a: seq<Event>, b: seq<Event>, json: string -> bool)
    ensures VisibleOf(a + b, json) == VisibleOf(a, json) + VisibleOf(b, json)
  {
    if b == [] {
      assert a + b == a;
    } else {
      assert (a + b)[..|a + b| - 1] == a + b[..|b| - 1];
      VisibleOfAppend(a, b[..|b| - 1], json);
    }
  }

  lemma BlockTight(f: Frame, json: string -> bool)
    requires f.Data? ==> Printed(f.event, json)
    ensures Tight(Block(f)) && FrameText(f) == Block(f) + BLANK
  {
    if f.Data? { EventBlockTight(f.event, json); }
  }

  lemma FrameIsBlock(f: Frame)
    ensures FrameText(f) == Block(f) + BLANK
  {
  }

  lemma {:induction false} WireIsClosed(frames: seq<Frame>)
    ensures Wire(frames) == Closed(Blocks(frames))
  {
    hide Block, FrameText;
    if frames == [] {
      assert Blocks(frames) == [];
    } else {
      var init, f := frames[..|frames| - 1], frames[|frames| - 1];
      WireIsClosed(init);
      FrameIsBlock(f);
      assert Blocks(frames) == Blocks(init) + [Block(f)];
      ClosedSnoc(Blocks(init), Block(f));
    }
  }

  lemma ParseBlocksSnoc(blocks: seq<string>, b: string, json: string -> bool)
    ensures ParseBlocks(blocks + [b], json) == ParseBlocks(blocks, json) + ParseBlock(b, json)
  {
    ParseBlocksAppend(blocks, [b], json);
    assert [b][1..] == [];
    assert ParseBlocks([b], json) == ParseBlock(b, json) + ParseBlocks([], json);
  }

  /** One frame, read back: its event when the client can see it. */
  lemma ParseFrame(f: Frame, json: string -> bool)
    requires f.Data? ==> Printed(f.event, json)
    ensures ParseBlock(Block(f), json)
         == if f.Data? && Visible(f.event, json) then [Received(f.event)] else []
  {
    match f
    case Data(e) => ParseEventBlock(e, json);
    case Heartbeat => HeartbeatIsSilent(json);
  }

  lemma {:induction false} ParseFrames(frames: seq<Frame>, json: string -> bool)
    requires FramesPrinted(frames, json)
    ensures ParseBlocks(Blocks(frames), json) == VisibleOf(Sent(frames), json)
  {
    hide ParseBlock, Block, Printed, Visible, Received;
    if frames == [] {
      assert Blocks(frames) == [];
    } else {
      var init, f := frames[..|frames| - 1], frames[|frames| - 1];
      ParseFrames(init, json);
      assert Blocks(frames) == Blocks(init) + [Block(f)];
      ParseBlocksSnoc(Blocks(init), Block(f), json);
      ParseFrame(f, json);
      if f.Data? {
        assert Sent(frames) == Sent(init) + [f.event];
        assert Sent(frames)[..|Sent(frames)| - 1] == Sent(init);
      } else {
        assert Sent(frames) == Sent(init);
      }
    }
  }

  lemma HeartbeatIsSilent(json: string -> bool)
    ensures ParseBlock(": heartbeat", json) == []
  {
    var s := ": heartbeat";
    assert OneLine(s);
    assert FindLineEnd(s, 0) == |s|;
    assert Lines(s) == [s];
    assert s[0] == ':';
    assert !("event: " < s);
  }

  lemma WireSplits(frames: seq<Frame>, json: string -> bool)
    requires FramesPrinted(frames, json)
    ensures forall i | 0 <= i < |frames| :: Tight(Blocks(frames)[i])
    ensures SplitBlocks(Wire(frames)) == Blocks(frames) + [""]
  {
    hide SplitBlocks, Tight, Block, Closed, Printed;
    forall i | 0 <= i < |Blocks(frames)| ensures Tight(Blocks(frames)[i]) {
      BlockTight(frames[i], json);
    }
    WireIsClosed(frames);
    SplitClosed(Blocks(frames), "");
    EmptyTail(json);
    var all := Wire(frames);
    assert all + "" == all;
  }

  /** Round trip: a whole stream, heartbeats included, reads back as its visible events. */
  lemma RoundTrip(frames: seq<Frame>, json: string -> bool)
    requires FramesPrinted(frames, json)
    ensures ParseSseEvents(Wire(frames), json) == VisibleOf(Sent(frames), json)
  {
    hide Tight, Closed, SplitBlocks, Wire, Blocks, Sent, VisibleOf, ParseBlocks;
    WireSplits(frames, json);
    ParseBlocksAppend(Blocks(frames), [""], json);
    EmptyTail(json);
    ParseFrames(frames, json);
  }

  /** An event reaches the client exactly when its payload parses and holds no line separator:
      the server's printer leaves U+2028 and U+2029 as they are, and the client then drops the
      whole event. */
  lemma EventArrives(e: Event, json: string -> bool)
    requires Printed(e, json)
    ensures ParseSseEvents(EncodeSse(e), json) == [Received(e)] <==> Visible(e, json)
    ensures ParseSseEvents(EncodeSse(e), json) == [] <==> !Visible(e, json)
  {
    var frames := [Data(e)];
    assert frames[..0] == [];
    assert Wire(frames) == "" + EncodeSse(e) == EncodeSse(e);
    assert Sent(frames) == [e] && [e][..0] == [];
    RoundTrip(frames, json);
  }

  const SEPARATED := Event(1, "token", "{\"text\": \"\U{2028}\"}")

  /** And it happens, whatever else the client parses: a token with U+2028 in it is printed as the
      server prints it, the client parses its payload but no proper prefix of it, as no JSON parser
      does, and it reads nothing. */
  lemma SeparatorDropsEvent(json: string -> bool)
    requires json(SEPARATED.raw) && forall k | 0 <= k < |SEPARATED.raw| :: !json(SEPARATED.raw[..k])
    ensures Printed(SEPARATED, json)
    ensures ParseSseEvents(EncodeSse(SEPARATED), json) == []
  {
    hide ParseSseEvents, EncodeSse;
    assert SEPARATED.raw[10] == '\U{2028}' && IsLineEnd(SEPARATED.raw[10]);
    EventArrives(SEPARATED, json);
  }

  /** A stream cut at any character: the reader has seen exactly the first whole frames. */
  lemma CutStream(frames: seq<Frame>, cut: nat, json: string -> bool)
    requires FramesPrinted(frames, json) && cut <= |Wire(frames)|
    ensures |Complete(Wire(frames)[..cut])| <= |frames|
    ensures EventsOf(Wire(frames)[..cut], json)
         == VisibleOf(Sent(frames[..|Complete(Wire(frames)[..cut])|]), json)
    ensures cut == |Wire(frames)| ==> |Complete(Wire(frames)[..cut])| == |frames|
  {
    hide Tight, SplitBlocks, Wire, Printed, Sent, VisibleOf, ParseBlocks, Block, Remainder;
    var all, got := Wire(frames), Wire(frames)[..cut];
    WireSplits(frames, json);
    assert all == got + all[cut..];
    SplitAppend(got, all[cut..]);
    var m := |Complete(got)|;
    assert Complete(got) == SplitBlocks(all)[..m];
    assert SplitBlocks(all)[..m] == Blocks(frames[..m]);
    ParseFrames(frames[..m], json);
    if cut == |all| { assert got == all; }
  }
}
