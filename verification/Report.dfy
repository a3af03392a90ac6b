/** The report printer and the reader that turns its text into the blocks of a PDF. */
module Report {
  import opened Chunking

  // ---------------------------------------------------------------------------------------------
  // One table row
  // ---------------------------------------------------------------------------------------------

  function Join(parts: seq<string>, sep: string): string {
    if parts == [] then ""
    else if |parts| == 1 then parts[0]
    else Join(parts[..|parts| - 1], sep) + sep + parts[|parts| - 1]
  }

  function PrintRow(cells: seq<string>): string { "| " + Join(cells, " | ") + " |" }

  /** `s.split("|")`. */
  function SplitPipes(s: string): (r: seq<string>)
    ensures |r| > 0
  {
    if s == "" then [""]
    else
      var before, c := SplitPipes(s[..|s| - 1]), s[|s| - 1];
      if c == '|' then before + [""] else before[|before| - 1 := before[|before| - 1] + [c]]
  }

  /** `s.strip("|")`. */
  function TrimPipes(s: string): string
    decreases |s|
  {
    if s == "" then ""
    else if s[0] == '|' then TrimPipes(s[1..])
    else if s[|s| - 1] == '|' then TrimPipes(s[..|s| - 1])
    else s
  }

  function StripAll(cells: seq<string>): (r: seq<string>)
    ensures |r| == |cells| && forall i | 0 <= i < |r| :: r[i] == Strip(cells[i])
  {
    seq(|cells|, i requires 0 <= i < |cells| => Strip(cells[i]))
  }

  function ReadRow(line: string): seq<string> { StripAll(SplitPipes(TrimPipes(Strip(line)))) }

  predicate NoPipe(cell: string) { '|' !in cell }

  lemma SplitSnoc(s: string, c: char)
    ensures SplitPipes(s + [c])
         == if c == '|' then SplitPipes(s) + [""]
            else SplitPipes(s)[|SplitPipes(s)| - 1 := SplitPipes(s)[|SplitPipes(s)| - 1] + [c]]
  {
    assert (s + [c])[..|s|] == s;
  }

  lemma {:induction false} SplitAtPipe(a: string, b: string)
    ensures SplitPipes(a + "|" + b) == SplitPipes(a) + SplitPipes(b)
  {
    hide SplitPipes;
    SplitSnoc(a, '|');
    if b == "" {
      assert a + "|" + b == a + ['|'];
      assert SplitPipes("") == [""] by { SplitNothing(); }
    } else {
      var init, c := b[..|b| - 1], b[|b| - 1];
      SplitAtPipe(a, init);
      SplitSnoc(init, c);
      SplitSnoc(a + "|" + init, c);
      assert a + "|" + b == a + "|" + init + [c] && b == init + [c];
    }
  }

  lemma SplitNothing()
    ensures SplitPipes("") == [""]
  {
  }

  lemma {:induction false} SplitWhole(s: string)
    requires NoPipe(s)
    ensures SplitPipes(s) == [s]
  {
    if s != "" {
      assert NoPipe(s[..|s| - 1]);
      assert s[|s| - 1] in s;
      SplitWhole(s[..|s| - 1]);
      assert s == s[..|s| - 1] + [s[|s| - 1]];
    }
  }

  function Padded(cell: string): string { " " + cell + " " }

  /** The text between the outer pipes of a printed row. */
  function Inner(cells: seq<string>): string { Padded(Join(cells, " | ")) }

  lemma InnerStep(cells: seq<string>)
    requires |cells| > 1
    ensures Inner(cells) == Inner(cells[..|cells| - 1]) + "|" + Padded(cells[|cells| - 1])
  {
  }

  lemma OneCell(cells: seq<string>)
    requires |cells| == 1
    ensures Inner(cells) == Padded(cells[0])
  {
  }

  lemma TrimPrinted(cells: seq<string>)
    ensures TrimPipes(Strip(PrintRow(cells))) == Inner(cells)
  {
    var line, inner := PrintRow(cells), Inner(cells);
    assert Strip(line) == line;
    assert line == "|" + inner + "|";
    assert line[1..] == inner + "|" && (inner + "|")[..|inner|] == inner;
    assert inner[0] == ' ' && inner[|inner| - 1] == ' ';
    assert TrimPipes(inner + "|") == TrimPipes(inner);
  }

  lemma {:induction false} SplitInner(cells: seq<string>)
    requires cells != [] && forall i | 0 <= i < |cells| :: NoPipe(cells[i])
    ensures |SplitPipes(Inner(cells))| == |cells|
    ensures forall i | 0 <= i < |cells| :: SplitPipes(Inner(cells))[i] == Padded(cells[i])
  {
    hide SplitPipes, Inner;
    var n := |cells| - 1;
    assert NoPipe(Padded(cells[n]));
    SplitWhole(Padded(cells[n]));
    if n == 0 {
      assert Inner(cells) == Padded(cells[0]) by { OneCell(cells); }
    } else {
      InnerStep(cells);
      SplitAtPipe(Inner(cells[..n]), Padded(cells[n]));
      SplitInner(cells[..n]);
    }
  }

  lemma {:induction false} StripBlankEnd(s: string)
    ensures Strip(s + " ") == Strip(s)
    decreases |s|
  {
    if s != "" && IsSpace(s[0]) {
      assert (s + " ")[1..] == s[1..] + " ";
      StripBlankEnd(s[1..]);
    } else if s != "" {
      assert (s + " ")[..|s|] == s;
    }
  }

  lemma StripPadded(cell: string)
    ensures Strip(Padded(cell)) == Strip(cell)
  {
    assert Padded(cell)[1..] == cell + " ";
    StripBlankEnd(cell);
  }

  function Pipes(s: string): nat { if s == "" then 0 else Pipes(s[..|s| - 1]) + if s[|s| - 1] == '|' then 1 else 0 }

  lemma {:induction false} PipesSplit(s: string)
    ensures |SplitPipes(s)| == Pipes(s) + 1
  {
    if s != "" { PipesSplit(s[..|s| - 1]); }
  }

  lemma {:induction false} PipesAppend(a: string, b: string)
    ensures Pipes(a + b) == Pipes(a) + Pipes(b)
  {
    if b == "" {
      assert a + b == a;
    } else {
      assert (a + b)[..|a + b| - 1] == a + b[..|b| - 1];
      PipesAppend(a, b[..|b| - 1]);
    }
  }

  lemma {:induction false} PipesSome(s: string)
    ensures Pipes(s) > 0 <==> !NoPipe(s)
  {
    if s != "" {
      PipesSome(s[..|s| - 1]);
      assert s == s[..|s| - 1] + [s[|s| - 1]];
    }
  }

  lemma {:induction false} PipesOfInner(cells: seq<string>)
    requires cells != []
    ensures Pipes(Inner(cells)) >= |cells| - 1
    ensures (exists i :: 0 <= i < |cells| && !NoPipe(cells[i])) ==> Pipes(Inner(cells)) >= |cells|
  {
    hide Pipes, NoPipe;
    var n := |cells| - 1;
    PipesAppend(" " + cells[n], " ");
    PipesAppend(" ", cells[n]);
    PipesSome(cells[n]);
    if n > 0 {
      InnerStep(cells);
      PipesAppend(Inner(cells[..n]) + "|", Padded(cells[n]));
      PipesAppend(Inner(cells[..n]), "|");
      OnePipe();
      PipesOfInner(cells[..n]);
      assert forall i | 0 <= i < n :: cells[..n][i] == cells[i];
    }
  }

  lemma OnePipe()
    ensures Pipes("|") == 1
  {
  }

  /** A printed row reads back as its cells, stripped, exactly when no cell has a pipe in it. */
  lemma RowRoundTripExactly(cells: seq<string>)
    requires cells != []
    ensures ReadRow(PrintRow(cells)) == StripAll(cells) <==> forall i | 0 <= i < |cells| :: NoPipe(cells[i])
  {
    hide Inner, PrintRow, SplitPipes, Strip, TrimPipes, Pipes, NoPipe, Padded;
    TrimPrinted(cells);
    if forall i | 0 <= i < |cells| :: NoPipe(cells[i]) {
      SplitInner(cells);
      forall i | 0 <= i < |cells| ensures ReadRow(PrintRow(cells))[i] == StripAll(cells)[i] { StripPadded(cells[i]); }
    } else {
      PipesOfInner(cells);
      PipesSplit(Inner(cells));
    }
  }

  // ---------------------------------------------------------------------------------------------
  // The reader
  // ---------------------------------------------------------------------------------------------

  /** What the reader appends to the story; a table stands for itself and the space after it. */
  datatype Item = Blank | Table(rows: seq<seq<string>>) | Title(text: string) | Heading(text: string)
                | Bullet(text: string) | Body(text: string)

  predicate StartsPipe(line: string) { Strip(line) != "" && Strip(line)[0] == '|' }

  predicate StartsWith(line: string, prefix: string) { prefix <= line }

  /** `line.replace("**", "")`. */
  function WithoutStars(line: string): string
    decreases |line|
  {
    if |line| < 2 then line
    else if line[..2] == "**" then WithoutStars(line[2..])
    else [line[0]] + WithoutStars(line[1..])
  }

  function TextItem(line: string): Item {
    if StartsWith(line, "# ") then Title(line[2..])
    else if StartsWith(line, "## ") then Heading(line[3..])
    else if StartsWith(line, "- ") then Bullet(line[2..])
    else Body(WithoutStars(line))
  }

  function PipeRun(lines: seq<string>): (n: nat)
    ensures n <= |lines|
    ensures forall i | 0 <= i < n :: StartsPipe(lines[i])
    ensures n < |lines| ==> !StartsPipe(lines[n])
  {
    if lines == [] || !StartsPipe(lines[0]) then 0 else 1 + PipeRun(lines[1..])
  }

  function ReadRows(lines: seq<string>): (r: seq<seq<string>>)
    ensures |r| == |lines| && forall i | 0 <= i < |r| :: r[i] == ReadRow(lines[i])
  {
    seq(|lines|, i requires 0 <= i < |lines| => ReadRow(lines[i]))
  }

  /** A line with a pipe and another one after it start a table; the second one is skipped, and the
      table goes on as long as lines start with a pipe. */
  predicate TableAt(lines: seq<string>) { |lines| > 1 && StartsPipe(lines[0]) && StartsPipe(lines[1]) }

  function TableOf(lines: seq<string>): Item
    requires TableAt(lines)
  {
    Table([ReadRow(lines[0])] + ReadRows(lines[2..2 + PipeRun(lines[2..])]))
  }

  /** How many lines the first item takes, and what it is. */
  function Taken(lines: seq<string>): (n: nat)
    requires lines != []
    ensures 0 < n <= |lines|
  {
    if TableAt(lines) then 2 + PipeRun(lines[2..]) else 1
  }

  function FirstItem(lines: seq<string>): Item
    requires lines != []
  {
    if Strip(lines[0]) == "" then Blank
    else if TableAt(lines) then TableOf(lines)
    else TextItem(Strip(lines[0]))
  }

  function Blocks(lines: seq<string>): seq<Item>
    decreases |lines|
  {
    if lines == [] then [] else [FirstItem(lines)] + Blocks(lines[Taken(lines)..])
  }

  /** The line loop of `render_pdf`. */
  method ReadLines(lines: seq<string>) returns (story: seq<Item>)
    ensures story == Blocks(lines)
  {
    hide Strip, TextItem, TableOf, PipeRun, Blocks;
    story := [];
    var index := 0;
    while index < |lines|
      invariant 0 <= index <= |lines|
      invariant story + Blocks(lines[index..]) == Blocks(lines)
    {
      BlocksFrom(lines, index);
      var line := Strip(lines[index]);
      if line == "" {
        story := story + [Blank];
        index := index + 1;
      } else if line[0] == '|' && index + 1 < |lines| && StartsPipe(lines[index + 1]) {
        var table, n := ReadTable(lines, index);
        story := story + [table];
        index := n;
      } else {
        story := story + [TextItem(line)];
        index := index + 1;
      }
    }
    assert Blocks(lines[index..]) == [] by { NoLines(lines[index..]); }
  }

  lemma BlocksFrom(lines: seq<string>, index: nat)
    requires index < |lines|
    ensures var rest := lines[index..];
      Blocks(rest) == [FirstItem(rest)] + Blocks(lines[index + Taken(rest)..])
  {
    hide FirstItem, Taken;
    var rest := lines[index..];
    assert rest[Taken(rest)..] == lines[index + Taken(rest)..];
  }

  lemma NoLines(lines: seq<string>)
    requires lines == []
    ensures Blocks(lines) == []
  {
  }

  /** The inner loop: the rows of one table. */
  method ReadTable(lines: seq<string>, start: nat) returns (table: Item, index: nat)
    requires start < |lines| && TableAt(lines[start..])
    ensures table == TableOf(lines[start..]) && index == start + Taken(lines[start..])
  {
    hide StartsPipe, ReadRow;
    ghost var rest := lines[start..];
    var rows := [ReadRow(lines[start])];
    index := start + 2;
    while index < |lines| && StartsPipe(lines[index])
      invariant start + 2 <= index <= |lines|
      invariant forall i | start + 2 <= i < index :: StartsPipe(lines[i])
      invariant rows == [ReadRow(lines[start])] + ReadRows(lines[start + 2..index])
    {
      rows := rows + [ReadRow(lines[index])];
      index := index + 1;
    }
    var n := index - start - 2;
    PipeRunIs(rest[2..], n);
    assert rest[2..2 + n] == lines[start + 2..index];
    table := Table(rows);
  }

  lemma {:induction false} PipeRunIs(lines: seq<string>, n: nat)
    requires n <= |lines| && (forall i | 0 <= i < n :: StartsPipe(lines[i]))
    requires n < |lines| ==> !StartsPipe(lines[n])
    ensures PipeRun(lines) == n
  {
    hide StartsPipe;
    if n > 0 {
      assert StartsPipe(lines[0]);
      PipeRunIs(lines[1..], n - 1);
    }
  }

  /** How many lines an item takes. */
  function LinesOfItem(item: Item): nat { if item.Table? then |item.rows| + 1 else 1 }

  function LinesTaken(items: seq<Item>): nat {
    if items == [] then 0 else LinesOfItem(items[0]) + LinesTaken(items[1..])
  }

  /** The loop takes every line once and in order: item `k` is what the reader makes of the lines from
      the place where the items before it end, a table takes its header, the line under it and its
      rows, every other item takes one line, and at the end no line is left. */
  lemma {:induction false} EveryLineTakenOnce(lines: seq<string>)
    ensures LinesTaken(Blocks(lines)) == |lines|
    ensures forall k | 0 <= k < |Blocks(lines)| :: TakenFrom(lines, Blocks(lines), k)
    decreases |lines|
  {
    hide FirstItem, Taken, LinesOfItem;
    if lines != [] {
      var n := Taken(lines);
      EveryLineTakenOnce(lines[n..]);
      FirstTakes(lines);
      var items, rest := Blocks(lines), Blocks(lines[n..]);
      assert items[1..] == rest;
      forall k | 0 <= k < |items| ensures TakenFrom(lines, items, k) {
        if k == 0 {
          assert items[..0] == [] && lines[0..] == lines;
        } else {
          assert TakenFrom(lines[n..], rest, k - 1);
          assert items[..k][1..] == rest[..k - 1];
          var at := LinesTaken(rest[..k - 1]);
          assert lines[n..][at..] == lines[n + at..];
        }
      }
    }
  }

  predicate TakenFrom(lines: seq<string>, items: seq<Item>, k: int)
    requires 0 <= k < |items|
  {
    var at := LinesTaken(items[..k]);
    at < |lines| && items[k] == FirstItem(lines[at..]) && LinesOfItem(items[k]) == Taken(lines[at..])
  }

  lemma FirstTakes(lines: seq<string>)
    requires lines != []
    ensures LinesOfItem(FirstItem(lines)) == Taken(lines)
  {
    hide Strip, ReadRow;
  }

  /** Reading can be cut before any line that does not start with a pipe. */
  lemma {:induction false} BlocksSplit(lines: seq<string>, rest: seq<string>)
    requires rest != [] ==> !StartsPipe(rest[0])
    ensures Blocks(lines + rest) == Blocks(lines) + Blocks(rest)
    decreases |lines|
  {
    hide FirstItem, Taken, StartsPipe;
    if lines == [] {
      assert lines + rest == rest;
    } else {
      FirstCut(lines, rest);
      var n := Taken(lines);
      assert (lines + rest)[n..] == lines[n..] + rest;
      BlocksSplit(lines[n..], rest);
    }
  }

  lemma FirstCut(lines: seq<string>, rest: seq<string>)
    requires lines != [] && (rest != [] ==> !StartsPipe(rest[0]))
    ensures FirstItem(lines + rest) == FirstItem(lines) && Taken(lines + rest) == Taken(lines)
  {
    hide Strip, StartsPipe, ReadRow, TextItem, PipeRun;
    var all := lines + rest;
    assert TableAt(all) <==> TableAt(lines);
    if TableAt(lines) {
      var n := PipeRun(lines[2..]);
      assert all[2..] == lines[2..] + rest;
      assert n == |lines[2..]| && rest != [] ==> all[2..][n] == rest[0];
      PipeRunIs(all[2..], n);
      assert all[2..2 + n] == lines[2..2 + n];
    }
  }
}
