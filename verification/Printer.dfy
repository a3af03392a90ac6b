/** Printing a report, and what the reader makes of the printed text. */
module Printer {
  import opened Wrappers
  import opened Numbers
  import opened Chunking
  import opened Report

  // ---------------------------------------------------------------------------------------------
  // Lines
  // ---------------------------------------------------------------------------------------------

  /** The line breaks of `str.splitlines`. */
  predicate IsBreak(c: char) {
    '\n' <= c <= '\r' || '\U{001C}' <= c <= '\U{001E}' || c == '\U{0085}' || c == '\U{2028}' || c == '\U{2029}'
  }

  function LineLength(s: string): (n: nat)
    ensures n <= |s| && (forall i | 0 <= i < n :: !IsBreak(s[i]))
    ensures n < |s| ==> IsBreak(s[n])
  {
    if s == "" || IsBreak(s[0]) then 0 else 1 + LineLength(s[1..])
  }

  /** Where the line after a break starts: `\r\n` is one break. */
  function AfterBreak(s: string, n: nat): (m: nat)
    requires n < |s|
    ensures n < m <= |s|
  {
    if s[n] == '\r' && n + 1 < |s| && s[n + 1] == '\n' then n + 2 else n + 1
  }

  function SplitLines(s: string): seq<string>
    decreases |s|
  {
    if s == "" then []
    else
      var n := LineLength(s);
      if n == |s| then [s] else [s[..n]] + SplitLines(s[AfterBreak(s, n)..])
  }

  predicate Unbroken(s: string) { forall i | 0 <= i < |s| :: !IsBreak(s[i]) }

  /** Each line with its line feed. */
  function Text(lines: seq<string>): string {
    if lines == [] then "" else lines[0] + "\n" + Text(lines[1..])
  }

  lemma {:induction false} LineLengthIs(s: string, n: nat)
    requires n <= |s| && (forall i | 0 <= i < n :: !IsBreak(s[i])) && (n < |s| ==> IsBreak(s[n]))
    ensures LineLength(s) == n
  {
    hide IsBreak;
    if n > 0 {
      assert !IsBreak(s[0]);
      LineLengthIs(s[1..], n - 1);
    }
  }

  predicate Ended(s: string) { s == "" || s[|s| - 1] == '\n' }

  lemma FirstLineCut(s: string, rest: string)
    requires s != "" && Ended(s)
    ensures LineLength(s) < |s| && LineLength(s + rest) == LineLength(s)
    ensures AfterBreak(s + rest, LineLength(s)) == AfterBreak(s, LineLength(s))
  {
    var n := LineLength(s);
    assert IsBreak(s[|s| - 1]);
    assert n < |s|;
    LineLengthIs(s + rest, n);
  }

  /** Text that ends in a line feed can be split into lines on its own. */
  lemma {:induction false} LinesSplit(s: string, rest: string)
    requires Ended(s)
    ensures SplitLines(s + rest) == SplitLines(s) + SplitLines(rest)
    decreases |s|
  {
    hide AfterBreak, LineLength;
    if s == "" {
      assert s + rest == rest;
    } else {
      FirstLineCut(s, rest);
      var n := LineLength(s);
      var m := AfterBreak(s, n);
      assert (s + rest)[m..] == s[m..] + rest && (s + rest)[..n] == s[..n];
      LinesSplit(s[m..], rest);
    }
  }

  lemma LineOf(line: string)
    requires Unbroken(line)
    ensures SplitLines(line + "\n") == [line]
  {
    LineLengthIs(line + "\n", |line|);
    assert (line + "\n")[..|line|] == line && (line + "\n")[|line| + 1..] == "";
  }

  lemma {:induction false} TextEnded(lines: seq<string>)
    ensures Ended(Text(lines))
  {
    if lines != [] { TextEnded(lines[1..]); }
  }

  lemma {:induction false} LinesOfText(lines: seq<string>)
    requires forall i | 0 <= i < |lines| :: Unbroken(lines[i])
    ensures SplitLines(Text(lines)) == lines
  {
    hide SplitLines, Unbroken;
    if lines == [] {
      assert SplitLines(Text([])) == [] by { NoText(); }
    } else {
      assert Unbroken(lines[0]);
      LineOf(lines[0]);
      LinesSplit(lines[0] + "\n", Text(lines[1..]));
      LinesOfText(lines[1..]);
    }
  }

  lemma NoText()
    ensures SplitLines(Text([])) == []
  {
  }

  lemma {:induction false} TextAppend(a: seq<string>, b: seq<string>)
    ensures Text(a + b) == Text(a) + Text(b)
  {
    if a == [] {
      assert a + b == b;
    } else {
      assert (a + b)[1..] == a[1..] + b;
      TextAppend(a[1..], b);
    }
  }

  // ---------------------------------------------------------------------------------------------
  // The report
  // ---------------------------------------------------------------------------------------------

  /** A result row: its columns in order and their printed values. */
  datatype Row = Row(keys: seq<string>, cells: map<string, string>)

  datatype Content = Content(heading: string, question: string, insight: string, facts: seq<string>,
                             risks: seq<string>, recommendations: seq<string>, sql: string,
                             rows: seq<Row>, citations: seq<string>)

  const QUESTION := "**\U{95EE}\U{9898}**\U{FF1A}"
  const CONCLUSION := "\U{7ED3}\U{8BBA}"
  const FACTS := "\U{4E8B}\U{5B9E}"
  const RISKS := "\U{98CE}\U{9669}"
  const RECOMMENDATIONS := "\U{5EFA}\U{8BAE}"
  const SQL_TITLE := "\U{53D7}\U{9650} SQL"
  const DATA_TITLE := "\U{6570}\U{636E}\U{7ED3}\U{679C}"
  const EVIDENCE_TITLE := "\U{4F9D}\U{636E}"

  function Bullets(values: seq<string>): (r: seq<string>)
    ensures |r| == |values| && forall i | 0 <= i < |r| :: r[i] == "- " + values[i]
  {
    seq(|values|, i requires 0 <= i < |values| => "- " + values[i])
  }

  function Section(title: string, values: seq<string>): seq<string> {
    if values == [] then [] else ["## " + title, ""] + Bullets(values) + [""]
  }

  function Sections(parts: seq<(string, seq<string>)>): seq<string> {
    if parts == [] then []
    else Sections(parts[..|parts| - 1]) + Section(parts[|parts| - 1].0, parts[|parts| - 1].1)
  }

  function Insights(c: Content): seq<(string, seq<string>)> {
    [(FACTS, c.facts), (RISKS, c.risks), (RECOMMENDATIONS, c.recommendations)]
  }

  /** The lines before the table. */
  function FrontLines(c: Content): seq<string> {
    ["# " + c.heading, "", QUESTION + c.question, "", "## " + CONCLUSION, "", c.insight, ""]
    + Sections(Insights(c)) + SqlLines(c)
  }

  function SqlLines(c: Content): seq<string> {
    if c.sql == "" then [] else ["## " + SQL_TITLE, "", "```sql", c.sql, "```", ""]
  }

  function CellsOf(row: Row, columns: seq<string>): (r: seq<string>)
    ensures |r| == |columns|
    ensures forall i | 0 <= i < |r| :: r[i] == if columns[i] in row.cells then row.cells[columns[i]] else ""
  {
    seq(|columns|, i requires 0 <= i < |columns| => if columns[i] in row.cells then row.cells[columns[i]] else "")
  }

  function Dashes(columns: seq<string>): seq<string> { seq(|columns|, _ => "---") }

  const MAX_ROWS := 50

  function Shown(c: Content): seq<Row> { if |c.rows| <= MAX_ROWS then c.rows else c.rows[..MAX_ROWS] }

  function PrintRows(rows: seq<Row>, columns: seq<string>): (r: seq<string>)
    ensures |r| == |rows| && forall i | 0 <= i < |r| :: r[i] == PrintRow(CellsOf(rows[i], columns))
  {
    seq(|rows|, i requires 0 <= i < |rows| => PrintRow(CellsOf(rows[i], columns)))
  }

  /** The lines of the table, without the blank one after it. */
  function TableLines(c: Content): seq<string>
    requires c.rows != []
  {
    var columns := c.rows[0].keys;
    ["## " + DATA_TITLE, "", PrintRow(columns), PrintRow(Dashes(columns))] + PrintRows(Shown(c), columns)
  }

  function TablePart(c: Content): seq<string> { if c.rows == [] then [] else TableLines(c) + [""] }

  function EndLines(c: Content): seq<string> {
    if c.citations == [] then [] else ["## " + EVIDENCE_TITLE, ""] + Bullets(c.citations)
  }

  function AllLines(c: Content): seq<string> {
    FrontLines(c) + TablePart(c) + EndLines(c)
  }

  function Markdown(c: Content): string { Strip(Join(AllLines(c), "\n")) + "\n" }

  /** `render_markdown`. */
  method RenderMarkdown(c: Content) returns (text: string)
    ensures text == Markdown(c)
  {
    hide Join, Strip, Bullets, TableLines, FrontLines;
    var lines := StartLines(c);
    if c.rows != [] { lines := AddTable(lines, c); }
    assert lines == FrontLines(c) + TablePart(c);
    if c.citations != [] {
      lines := lines + ["## " + EVIDENCE_TITLE, ""];
      lines := AddBullets(lines, c.citations);
    }
    assert lines == AllLines(c);
    text := Strip(Join(lines, "\n")) + "\n";
  }

  method StartLines(c: Content) returns (lines: seq<string>)
    ensures lines == FrontLines(c)
  {
    hide Sections;
    lines := ["# " + c.heading, "", QUESTION + c.question, "", "## " + CONCLUSION, "", c.insight, ""];
    lines := AddSections(lines, Insights(c));
    ghost var sections := lines;
    if c.sql != "" { lines := lines + ["## " + SQL_TITLE, "", "```sql", c.sql, "```", ""]; }
    assert lines == sections + SqlLines(c);
  }

  lemma SectionsStep(parts: seq<(string, seq<string>)>, n: nat)
    requires n < |parts|
    ensures Sections(parts[..n + 1]) == Sections(parts[..n]) + Section(parts[n].0, parts[n].1)
  {
    assert parts[..n + 1][..n] == parts[..n];
  }

  lemma NoSections(parts: seq<(string, seq<string>)>)
    requires parts == []
    ensures Sections(parts) == []
  {
  }

  method AddSections(before: seq<string>, parts: seq<(string, seq<string>)>) returns (lines: seq<string>)
    ensures lines == before + Sections(parts)
  {
    hide Bullets, Sections;
    lines := before;
    assert Sections(parts[..0]) == [] by { NoSections(parts[..0]); }
    var n := 0;
    while n < |parts|
      invariant 0 <= n <= |parts|
      invariant lines == before + Sections(parts[..n])
    {
      var (title, values) := parts[n];
      SectionsStep(parts, n);
      ghost var done := lines;
      if values != [] {
        lines := lines + ["## " + title, ""];
        lines := AddBullets(lines, values);
        lines := lines + [""];
      }
      assert lines == done + Section(title, values);
      n := n + 1;
    }
    assert parts[..n] == parts;
  }

  method AddTable(before: seq<string>, c: Content) returns (lines: seq<string>)
    requires c.rows != []
    ensures lines == before + (TableLines(c) + [""])
  {
    hide PrintRow, CellsOf;
    var columns := c.rows[0].keys;
    lines := before + ["## " + DATA_TITLE, "", PrintRow(columns), PrintRow(Dashes(columns))];
    ghost var head := lines;
    var n := 0;
    while n < |Shown(c)|
      invariant 0 <= n <= |Shown(c)|
      invariant lines == head + PrintRows(Shown(c), columns)[..n]
    {
      lines := lines + [PrintRow(CellsOf(Shown(c)[n], columns))];
      n := n + 1;
    }
    assert PrintRows(Shown(c), columns)[..n] == PrintRows(Shown(c), columns);
    lines := lines + [""];
  }

  method AddBullets(before: seq<string>, values: seq<string>) returns (lines: seq<string>)
    ensures lines == before + Bullets(values)
  {
    lines := before;
    var n := 0;
    while n < |values|
      invariant 0 <= n <= |values|
      invariant lines == before + Bullets(values)[..n]
    {
      lines := lines + ["- " + values[n]];
      n := n + 1;
    }
    assert Bullets(values)[..n] == Bullets(values);
  }

  // ---------------------------------------------------------------------------------------------
  // The text around the table
  // ---------------------------------------------------------------------------------------------

  function RStrip(s: string): string
    decreases |s|
  {
    if s != "" && IsSpace(s[|s| - 1]) then RStrip(s[..|s| - 1]) else s
  }

  lemma {:induction false} StripIsRStrip(s: string)
    requires s != "" && !IsSpace(s[0])
    ensures Strip(s) == RStrip(s)
    decreases |s|
  {
    hide IsSpace;
    if IsSpace(s[|s| - 1]) {
      assert |s| > 1;
      StripIsRStrip(s[..|s| - 1]);
    }
  }

  lemma {:induction false} RStripAppend(a: string, b: string)
    requires a != "" && !IsSpace(a[|a| - 1])
    ensures RStrip(a + b) == a + RStrip(b)
    decreases |b|
  {
    hide IsSpace;
    if b == "" {
      assert a + b == a;
    } else {
      assert (a + b)[|a + b| - 1] == b[|b| - 1];
      assert (a + b)[..|a + b| - 1] == a + b[..|b| - 1];
      if IsSpace(b[|b| - 1]) { RStripAppend(a, b[..|b| - 1]); }
    }
  }

  lemma {:induction false} JoinIsText(lines: seq<string>)
    requires lines != []
    ensures Join(lines, "\n") + "\n" == Text(lines)
  {
    if |lines| > 1 {
      var init, last := lines[..|lines| - 1], lines[|lines| - 1];
      JoinIsText(init);
      TextAppend(init, [last]);
      assert lines == init + [last];
    }
  }

  lemma JoinAppend(a: seq<string>, b: seq<string>)
    requires b != []
    ensures Join(a + b, "\n") == Text(a) + Join(b, "\n")
  {
    hide Join, Text;
    JoinIsText(a + b);
    JoinIsText(b);
    TextAppend(a, b);
    SameEnd(Join(a + b, "\n"), Text(a) + Join(b, "\n"));
  }

  lemma SameEnd(a: string, b: string)
    requires a + "\n" == b + "\n"
    ensures a == b
  {
    assert (a + "\n")[..|a|] == a && (b + "\n")[..|b|] == b;
  }

  /** The text after the table. */
  function EndText(c: Content): string {
    if c.citations == [] then "" else "\n" + RStrip(Join(EndLines(c), "\n")) + "\n"
  }

  lemma {:induction false} RStripLead(a: string, b: string)
    requires b != "" && !IsSpace(b[0])
    ensures RStrip(a + b) == a + RStrip(b)
    decreases |b|
  {
    hide IsSpace;
    var n := |a + b| - 1;
    assert (a + b)[n] == b[|b| - 1] && (a + b)[..n] == a + b[..|b| - 1];
    if IsSpace(b[|b| - 1]) { RStripLead(a, b[..|b| - 1]); }
  }

  lemma {:induction false} JoinEdges(lines: seq<string>)
    requires lines != [] && lines[0] != "" && lines[|lines| - 1] != ""
    ensures var s := Join(lines, "\n"); var last := lines[|lines| - 1];
      s != "" && s[0] == lines[0][0] && s[|s| - 1] == last[|last| - 1]
  {
    JoinStart(lines);
    if |lines| > 1 {
      var s, last := Join(lines, "\n"), lines[|lines| - 1];
      assert s == Join(lines[..|lines| - 1], "\n") + "\n" + last;
    }
  }

  lemma {:induction false} JoinStart(lines: seq<string>)
    requires lines != [] && lines[0] != ""
    ensures Join(lines, "\n") != "" && Join(lines, "\n")[0] == lines[0][0]
  {
    if |lines| > 1 { JoinStart(lines[..|lines| - 1]); }
  }

  lemma TableEdges(c: Content)
    requires c.rows != []
    ensures var lines := FrontLines(c) + TableLines(c); var s := Join(lines, "\n");
      lines != [] && s != "" && s[0] == '#' && s[|s| - 1] == '|'
  {
    hide Join, Sections, SqlLines, CellsOf;
    var lines := FrontLines(c) + TableLines(c);
    var last := lines[|lines| - 1];
    assert lines[0][0] == '#';
    assert last == PrintRows(Shown(c), c.rows[0].keys)[|Shown(c)| - 1];
    assert last[|last| - 1] == '|';
    JoinEdges(lines);
  }

  lemma EndStarts(c: Content)
    requires c.citations != []
    ensures Join(EndLines(c), "\n") != "" && Join(EndLines(c), "\n")[0] == '#'
  {
    hide Join;
    JoinStart(EndLines(c));
  }

  /** What is left of the end of the report once the text is stripped. */
  lemma StrippedEnd(c: Content)
    ensures RStrip("\n" + Join([""] + EndLines(c), "\n")) + "\n" == "\n" + EndText(c)
  {
    hide Join, RStrip;
    if c.citations == [] {
      assert [""] + EndLines(c) == [""];
      assert Join([""], "\n") == "" by { JoinIsText([""]); }
      assert RStrip("\n") == "" by { RStripBlank(); }
      assert "\n" + Join([""] + EndLines(c), "\n") == "\n";
      assert EndText(c) == "" && "" + "\n" == "\n" + "";
    } else {
      var e := Join(EndLines(c), "\n");
      EndStarts(c);
      JoinAppend([""], EndLines(c));
      assert Text([""]) == "\n";
      assert "\n" + Join([""] + EndLines(c), "\n") == "\n\n" + e;
      RStripLead("\n\n", e);
    }
  }

  lemma RStripBlank()
    ensures RStrip("\n") == ""
  {
    assert "\n"[..0] == "";
  }

  /** The printed report, cut around its table. */
  lemma MarkdownParts(c: Content)
    requires c.rows != []
    ensures Markdown(c) == Text(FrontLines(c)) + (Text(TableLines(c)) + EndText(c))
  {
    hide Join, Strip, RStrip, Text, FrontLines, TableLines, EndLines, EndText, IsSpace;
    var f, t, e := FrontLines(c), TableLines(c), EndLines(c);
    var p, q := Join(f + t, "\n"), "\n" + Join([""] + e, "\n");
    TableEdges(c);
    JoinIsText(f + t);
    JoinAppend(f + t, [""] + e);
    assert f + (t + [""]) + e == f + t + ([""] + e);
    assert Join(AllLines(c), "\n") == p + q;
    NotSpace();
    StripIsRStrip(p + q);
    RStripAppend(p, q);
    StrippedEnd(c);
    TextAppend(f, t);
    assert Markdown(c) == p + RStrip(q) + "\n";
    assert p + RStrip(q) + "\n" == p + (RStrip(q) + "\n") == p + "\n" + EndText(c);
  }

  lemma NotSpace()
    ensures !IsSpace('#') && !IsSpace('|') && !IsSpace('\U{679C}')
  {
  }

  // ---------------------------------------------------------------------------------------------
  // Reading the printed table
  // ---------------------------------------------------------------------------------------------

  const MARKERS := ["\U{00C3}", "\U{00C2}", "\U{00E4}\U{00B8}", "\U{00E5}\U{00B7}", "\U{00E6}"]

  predicate Contains(text: string, part: string) { exists i | 0 <= i <= |text| :: part <= text[i..] }

  predicate Marked(text: string) { exists i | 0 <= i < |MARKERS| :: Contains(text, MARKERS[i]) }

  predicate Latin1(text: string) { forall i | 0 <= i < |text| :: text[i] <= '\U{00FF}' }

  /** `_repair_mojibake`: encoding fails unless every character is Latin-1, and `utf8` decodes the
      bytes, if that succeeds. */
  function Repaired(text: string, utf8: string -> Option<string>): string {
    if !Marked(text) || !Latin1(text) then text
    else if utf8(text).Some? then utf8(text).value
    else text
  }

  lemma {:induction false} JoinHas(lines: seq<string>, i: nat, c: char)
    requires i < |lines| && c in lines[i]
    ensures c in Join(lines, "\n")
  {
    var n := |lines| - 1;
    if i < n { JoinHas(lines[..n], i, c); }
  }

  lemma {:induction false} StripHas(s: string, c: char)
    requires c in s && !IsSpace(c)
    ensures c in Strip(s)
    decreases |s|
  {
    hide IsSpace;
    if IsSpace(s[0]) {
      assert s == [s[0]] + s[1..];
      StripHas(s[1..], c);
    } else if IsSpace(s[|s| - 1]) {
      assert s == s[..|s| - 1] + [s[|s| - 1]];
      StripHas(s[..|s| - 1], c);
    }
  }

  /** No printed report is ever changed by the repair, whatever it says: the line of the question is
      not Latin-1. */
  lemma ReportIsNotRepaired(c: Content, utf8: string -> Option<string>)
    ensures Repaired(Markdown(c), utf8) == Markdown(c)
  {
    hide Join, Strip, Sections, SqlLines, TablePart, EndLines, Marked;
    var lines, mark := AllLines(c), '\U{95EE}';
    assert QUESTION[2] == mark;
    assert lines[2] == QUESTION + c.question;
    assert lines[2][2] == mark;
    JoinHas(lines, 2, mark);
    StripHas(Join(lines, "\n"), mark);
    var i :| 0 <= i < |Strip(Join(lines, "\n"))| && Strip(Join(lines, "\n"))[i] == mark;
    assert Markdown(c)[i] == mark;
    assert !Latin1(Markdown(c));
  }

  predicate PlainCells(cells: seq<string>) { forall i | 0 <= i < |cells| :: Unbroken(cells[i]) && NoPipe(cells[i]) }

  lemma UnbrokenConcat(a: string, b: string)
    requires Unbroken(a) && Unbroken(b)
    ensures Unbroken(a + b)
  {
  }

  lemma {:induction false} JoinUnbroken(cells: seq<string>)
    requires forall i | 0 <= i < |cells| :: Unbroken(cells[i])
    ensures Unbroken(Join(cells, " | "))
  {
    hide Unbroken;
    if |cells| <= 1 {
      assert Unbroken("") by { ShortLines(); }
    } else {
      var n := |cells| - 1;
      JoinUnbroken(cells[..n]);
      ShortLines();
      UnbrokenConcat(Join(cells[..n], " | "), " | ");
      UnbrokenConcat(Join(cells[..n], " | ") + " | ", cells[n]);
    }
  }

  lemma ShortLines()
    ensures Unbroken("") && Unbroken(" | ") && Unbroken("| ") && Unbroken(" |") && Unbroken("---")
    ensures Unbroken("## " + DATA_TITLE)
  {
  }

  lemma PrintedRowUnbroken(cells: seq<string>)
    requires forall i | 0 <= i < |cells| :: Unbroken(cells[i])
    ensures Unbroken(PrintRow(cells))
  {
    hide Unbroken, Join;
    JoinUnbroken(cells);
    ShortLines();
    UnbrokenConcat("| ", Join(cells, " | "));
    UnbrokenConcat("| " + Join(cells, " | "), " |");
  }

  lemma PrintedStartsPipe(cells: seq<string>)
    ensures StartsPipe(PrintRow(cells))
  {
    hide Join;
    NotSpace();
    assert Strip(PrintRow(cells)) == PrintRow(cells);
  }

  /** No cell of the table has a pipe or a line break, and there is at least one column. */
  predicate PlainTable(c: Content) {
    && c.rows != [] && c.rows[0].keys != [] && PlainCells(c.rows[0].keys)
    && forall i | 0 <= i < |Shown(c)| :: PlainCells(CellsOf(Shown(c)[i], c.rows[0].keys))
  }

  function ShownCells(c: Content): (r: seq<seq<string>>)
    requires c.rows != []
    ensures |r| == |Shown(c)| && forall i | 0 <= i < |r| :: r[i] == StripAll(CellsOf(Shown(c)[i], c.rows[0].keys))
  {
    seq(|Shown(c)|, i requires 0 <= i < |Shown(c)| => StripAll(CellsOf(Shown(c)[i], c.rows[0].keys)))
  }

  lemma TableLinesPlain(c: Content)
    requires PlainTable(c)
    ensures forall i | 0 <= i < |TableLines(c)| :: Unbroken(TableLines(c)[i])
  {
    hide Unbroken, PrintRow, NoPipe;
    var columns := c.rows[0].keys;
    ShortLines();
    PrintedRowUnbroken(columns);
    PrintedRowUnbroken(Dashes(columns));
    forall i | 0 <= i < |Shown(c)| ensures Unbroken(PrintRows(Shown(c), columns)[i]) {
      assert PlainCells(CellsOf(Shown(c)[i], columns));
      PrintedRowUnbroken(CellsOf(Shown(c)[i], columns));
    }
  }

  /** The printed table reads back as one table: the header and the shown rows, every cell stripped. */
  lemma TableBlocks(c: Content)
    requires PlainTable(c)
    ensures Blocks(TableLines(c)) == [Heading(DATA_TITLE), Blank, Table([StripAll(c.rows[0].keys)] + ShownCells(c))]
  {
    hide Unbroken, PrintRow, NoPipe, StripAll, CellsOf, StartsPipe, Taken, FirstItem;
    var lines, columns := TableLines(c), c.rows[0].keys;
    HeadingItem(lines);
    BlankItem(lines[1..]);
    var table := lines[2..];
    assert table == [PrintRow(columns), PrintRow(Dashes(columns))] + PrintRows(Shown(c), columns);
    WholeTable(c, table);
    assert Blocks(lines[1..]) == [Blank] + Blocks(table) by { assert lines[1..][1..] == table; }
    assert Blocks(table) == [FirstItem(table)] by { assert table[|table|..] == []; }
  }

  lemma HeadingItem(lines: seq<string>)
    requires lines != [] && lines[0] == "## " + DATA_TITLE
    ensures FirstItem(lines) == Heading(DATA_TITLE) && Taken(lines) == 1
  {
    var line := lines[0];
    assert line[0] == '#' && line[1] == '#' && line[2] == ' ' && line[|line| - 1] == '\U{679C}';
    NotSpace();
    assert Strip(line) == line;
    assert line[3..] == DATA_TITLE;
    assert "## " <= line;
    assert "# "[1] != line[1];
    assert !("# " <= line);
  }

  lemma BlankItem(lines: seq<string>)
    requires lines != [] && lines[0] == ""
    ensures FirstItem(lines) == Blank && Taken(lines) == 1
  {
  }

  lemma WholeTable(c: Content, table: seq<string>)
    requires PlainTable(c)
    requires var columns := c.rows[0].keys;
      table == [PrintRow(columns), PrintRow(Dashes(columns))] + PrintRows(Shown(c), columns)
    ensures Taken(table) == |table|
    ensures FirstItem(table) == Table([StripAll(c.rows[0].keys)] + ShownCells(c))
  {
    hide Unbroken, PrintRow, NoPipe, StripAll, CellsOf, StartsPipe, TextItem, ReadRow;
    var columns := c.rows[0].keys;
    var body := PrintRows(Shown(c), columns);
    PrintedStartsPipe(columns);
    PrintedStartsPipe(Dashes(columns));
    forall i | 0 <= i < |body| ensures StartsPipe(body[i]) && ReadRow(body[i]) == ShownCells(c)[i] {
      var cells := CellsOf(Shown(c)[i], columns);
      assert PlainCells(cells);
      PrintedStartsPipe(cells);
      RowRoundTripExactly(cells);
    }
    assert table[2..] == body;
    PipeRunIs(body, |body|);
    assert body[..|body|] == body && table[2..2 + |body|] == body;
    RowRoundTripExactly(columns);
    assert ReadRows(body) == ShownCells(c);
    StartsPipeNotBlank(table[0]);
  }

  lemma StartsPipeNotBlank(line: string)
    requires StartsPipe(line)
    ensures Strip(line) != ""
  {
  }

  lemma EndLinesStart(c: Content)
    ensures SplitLines(EndText(c)) == [] || SplitLines(EndText(c))[0] == ""
  {
    hide RStrip, Join;
    if c.citations != [] {
      var rest := RStrip(Join(EndLines(c), "\n")) + "\n";
      assert EndText(c) == "\n" + rest;
      LineOf("");
      assert "" + "\n" == "\n";
      LinesSplit("\n", rest);
    }
  }

  /** The round trip: whatever stands around it, a printed table of plain cells is read as exactly one
      table of the header and the first 50 rows, with every cell stripped and as many cells in every
      row as there are columns; what stands before it and after it is read as if it stood alone. */
  lemma PrintedTableIsRead(c: Content, utf8: string -> Option<string>)
    requires PlainTable(c)
    ensures Blocks(SplitLines(Repaired(Markdown(c), utf8)))
         == Blocks(SplitLines(Text(FrontLines(c))))
            + [Heading(DATA_TITLE), Blank, Table([StripAll(c.rows[0].keys)] + ShownCells(c))]
            + Blocks(SplitLines(EndText(c)))
    ensures |ShownCells(c)| == Min(|c.rows|, 50)
    ensures forall i | 0 <= i < |ShownCells(c)| :: |ShownCells(c)[i]| == |c.rows[0].keys|
  {
    hide Blocks, SplitLines, Text, Markdown, FrontLines, TableLines, EndText, Repaired;
    hide ShownCells, Unbroken, StartsPipe, PlainCells;
    ReportIsNotRepaired(c, utf8);
    var front, table, end := Text(FrontLines(c)), Text(TableLines(c)), EndText(c);
    MarkdownParts(c);
    TextEnded(FrontLines(c));
    TextEnded(TableLines(c));
    LinesSplit(front, table + end);
    LinesSplit(table, end);
    TableLinesPlain(c);
    LinesOfText(TableLines(c));
    EndLinesStart(c);
    NotPipes(c);
    BlocksSplit(TableLines(c), SplitLines(end));
    BlocksSplit(SplitLines(front), TableLines(c) + SplitLines(end));
    TableBlocks(c);
  }

  lemma NotPipes(c: Content)
    requires c.rows != []
    ensures !StartsPipe("") && TableLines(c) != [] && !StartsPipe(TableLines(c)[0])
  {
    NotSpace();
  }
}
