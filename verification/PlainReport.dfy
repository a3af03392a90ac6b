/** The whole round trip of a report without special characters: what the printer writes, the reader
    takes apart into the same title, headings, paragraphs, bullets and table. */
module PlainReport {
  import opened Wrappers
  import opened Chunking
  import opened Report
  import opened Printer

  /** Text on one line, without stars, that does not end in a blank. */
  predicate PlainText(s: string) { Solid(s) && Unbroken(s) && '*' !in s }

  predicate Solid(s: string) { s != "" && !IsSpace(s[|s| - 1]) }

  /** Such text that can stand alone: the reader does not take its start for a mark. */
  predicate PlainBody(s: string) { PlainText(s) && !IsSpace(s[0]) && s[0] != '|' && s[0] != '#' && s[0] != '-' }

  predicate AllPlain(values: seq<string>) { forall i | 0 <= i < |values| :: PlainText(values[i]) }

  predicate Plain(c: Content) {
    && PlainText(c.heading) && PlainText(c.question) && PlainBody(c.insight)
    && AllPlain(c.facts) && AllPlain(c.risks) && AllPlain(c.recommendations) && AllPlain(c.citations)
    && (c.sql == "" || PlainBody(c.sql)) && (c.rows == [] || PlainTable(c))
  }

  // ---------------------------------------------------------------------------------------------
  // What a reader should see
  // ---------------------------------------------------------------------------------------------

  function BulletItems(values: seq<string>): (r: seq<Item>)
    ensures |r| == |values| && forall i | 0 <= i < |r| :: r[i] == Bullet(values[i])
  {
    seq(|values|, i requires 0 <= i < |values| => Bullet(values[i]))
  }

  function Listed(title: string, values: seq<string>): seq<Item> {
    if values == [] then [] else [Heading(title), Blank] + BulletItems(values) + [Blank]
  }

  function FrontItems(c: Content): seq<Item> {
    [Title(c.heading), Blank, Body("问题：" + c.question), Blank, Heading("结论"), Blank, Body(c.insight), Blank]
    + Listed("事实", c.facts) + Listed("风险", c.risks) + Listed("建议", c.recommendations)
    + if c.sql == "" then []
      else [Heading("受限 SQL"), Blank, Body("```sql"), Body(c.sql), Body("```"), Blank]
  }

  function TableItems(c: Content): seq<Item> {
    if c.rows == [] then []
    else [Heading("数据结果"), Blank, Table([StripAll(c.rows[0].keys)] + ShownCells(c)), Blank]
  }

  function EndItems(c: Content): seq<Item> {
    if c.citations == [] then [] else [Heading("依据"), Blank] + BulletItems(c.citations)
  }

  /** The parts of the report; a blank at its very end is stripped by the printer. */
  function Parts(c: Content): seq<Item> {
    var all := FrontItems(c) + TableItems(c) + EndItems(c);
    if c.citations == [] then all[..|all| - 1] else all
  }

  // ---------------------------------------------------------------------------------------------
  // Lines outside the table
  // ---------------------------------------------------------------------------------------------

  function ItemOfLine(line: string): Item { if Strip(line) == "" then Blank else TextItem(Strip(line)) }

  function ItemsOf(lines: seq<string>): (r: seq<Item>)
    ensures |r| == |lines| && forall i | 0 <= i < |r| :: r[i] == ItemOfLine(lines[i])
  {
    seq(|lines|, i requires 0 <= i < |lines| => ItemOfLine(lines[i]))
  }

  lemma ItemsAppend(a: seq<string>, b: seq<string>)
    ensures ItemsOf(a + b) == ItemsOf(a) + ItemsOf(b)
  {
  }

  predicate NoPipes(lines: seq<string>) { forall i | 0 <= i < |lines| :: !StartsPipe(lines[i]) }

  lemma {:induction false} PlainBlocks(lines: seq<string>)
    requires NoPipes(lines)
    ensures Blocks(lines) == ItemsOf(lines)
  {
    hide Strip, TextItem, StartsPipe;
    if lines != [] {
      assert !StartsPipe(lines[0]);
      assert Taken(lines) == 1;
      assert FirstItem(lines) == ItemOfLine(lines[0]);
      PlainBlocks(lines[1..]);
      assert ItemsOf(lines) == [ItemOfLine(lines[0])] + ItemsOf(lines[1..]);
    }
  }

  lemma StripSolid(s: string)
    requires Solid(s) && !IsSpace(s[0])
    ensures Strip(s) == s
  {
    hide IsSpace;
  }

  lemma SolidAfter(prefix: string, s: string)
    requires Solid(s) && prefix != "" && !IsSpace(prefix[0])
    ensures Solid(prefix + s) && Strip(prefix + s) == prefix + s
  {
    hide IsSpace;
    assert (prefix + s)[|prefix + s| - 1] == s[|s| - 1];
    StripSolid(prefix + s);
  }

  lemma Marks()
    ensures !IsSpace('#') && !IsSpace('-') && !IsSpace('*') && !IsSpace('`') && !IsSpace('l') && !IsSpace('|')
  {
  }

  lemma BlankLine()
    ensures ItemOfLine("") == Blank && !StartsPipe("")
  {
  }

  lemma TitleLine(s: string)
    requires Solid(s)
    ensures ItemOfLine("# " + s) == Title(s) && !StartsPipe("# " + s)
  {
    hide Strip, IsSpace;
    Marks();
    SolidAfter("# ", s);
    assert ("# " + s)[2..] == s;
  }

  lemma HeadingLine(s: string)
    requires Solid(s)
    ensures ItemOfLine("## " + s) == Heading(s) && !StartsPipe("## " + s)
  {
    hide Strip, IsSpace;
    Marks();
    SolidAfter("## ", s);
    assert ("## " + s)[3..] == s && ("## " + s)[1] == '#';
    assert !("# " <= "## " + s) by { assert "# "[1] == ' '; }
    assert "## " <= "## " + s;
  }

  lemma BulletLine(s: string)
    requires Solid(s)
    ensures ItemOfLine("- " + s) == Bullet(s) && !StartsPipe("- " + s)
  {
    hide Strip, IsSpace;
    Marks();
    SolidAfter("- ", s);
    assert ("- " + s)[2..] == s && ("- " + s)[0] == '-';
  }

  lemma {:induction false} NoStars(s: string)
    requires '*' !in s
    ensures WithoutStars(s) == s
  {
    if |s| >= 2 {
      assert s[0] in s;
      assert s[..2][0] == s[0];
      NoStars(s[1..]);
      assert s == [s[0]] + s[1..];
    }
  }

  lemma BodyLine(s: string)
    requires PlainBody(s)
    ensures ItemOfLine(s) == Body(s) && !StartsPipe(s)
  {
    hide Strip, IsSpace, WithoutStars;
    StripSolid(s);
    NoStars(s);
  }

  /** The stars around the label are taken away. */
  lemma QuestionLine(q: string)
    requires PlainText(q)
    ensures ItemOfLine(QUESTION + q) == Body("问题：" + q) && !StartsPipe(QUESTION + q)
  {
    hide Strip, IsSpace, WithoutStars;
    Marks();
    SolidAfter(QUESTION, q);
    QuestionStars(q);
    assert (QUESTION + q)[0] == '*';
  }

  lemma QuestionStars(q: string)
    requires '*' !in q
    ensures WithoutStars(QUESTION + q) == "问题：" + q
  {
    hide WithoutStars;
    var rest := "：" + q;
    NoStars(rest);
    StarsFirst(rest);
    assert ("**" + rest)[2..] == rest;
    assert QUESTION + q == "**" + ("问" + ("题" + ("**" + rest)));
    StarsFirst("问" + ("题" + ("**" + rest)));
    OtherFirst('问', "题" + ("**" + rest));
    OtherFirst('题', "**" + rest);
    assert ['问'] + (['题'] + rest) == "问题：" + q;
  }

  lemma StarsFirst(s: string)
    ensures WithoutStars("**" + s) == WithoutStars(s)
  {
    assert ("**" + s)[2..] == s && ("**" + s)[..2] == "**";
  }

  lemma OtherFirst(ch: char, s: string)
    requires ch != '*'
    ensures WithoutStars([ch] + s) == [ch] + WithoutStars(s)
  {
    var t := [ch] + s;
    if |t| >= 2 {
      assert t[..2][0] == ch && t[1..] == s;
    } else {
      assert s == "";
    }
  }

  lemma BulletLines(values: seq<string>)
    requires AllPlain(values)
    ensures ItemsOf(Bullets(values)) == BulletItems(values) && NoPipes(Bullets(values))
  {
    hide IsSpace, ItemOfLine, StartsPipe;
    forall i | 0 <= i < |values|
      ensures ItemOfLine("- " + values[i]) == Bullet(values[i]) && !StartsPipe("- " + values[i])
    {
      assert PlainText(values[i]);
      BulletLine(values[i]);
    }
  }

  lemma TitlesSolid()
    ensures Solid("事实") && Solid("风险") && Solid("建议") && Solid("结论") && Solid("受限 SQL") && Solid("数据结果")
      && Solid("依据")
  {
  }

  lemma SectionLines(title: string, values: seq<string>)
    requires Solid(title) && AllPlain(values)
    ensures ItemsOf(Section(title, values)) == Listed(title, values) && NoPipes(Section(title, values))
  {
    hide IsSpace, ItemOfLine, StartsPipe, Solid, AllPlain;
    if values != [] {
      HeadingLine(title);
      BlankLine();
      BulletLines(values);
      ItemsAppend(["## " + title, ""], Bullets(values));
      ItemsAppend(["## " + title, ""] + Bullets(values), [""]);
      assert ItemsOf(["## " + title, ""]) == [Heading(title), Blank] && ItemsOf([""]) == [Blank];
    }
  }

  lemma ThreeSections(c: Content)
    ensures Sections(Insights(c))
         == Section("事实", c.facts) + Section("风险", c.risks) + Section("建议", c.recommendations)
  {
    hide Section;
    var parts := [("事实", c.facts), ("风险", c.risks), ("建议", c.recommendations)];
    assert Insights(c) == parts;
    NoSections(parts[..0]);
    SectionsStep(parts, 0);
    SectionsStep(parts, 1);
    SectionsStep(parts, 2);
    assert parts[..3] == parts;
  }

  lemma Joined(a: seq<string>, b: seq<string>, x: seq<Item>, y: seq<Item>)
    requires ItemsOf(a) == x && ItemsOf(b) == y && NoPipes(a) && NoPipes(b)
    ensures ItemsOf(a + b) == x + y && NoPipes(a + b)
  {
    hide ItemOfLine, StartsPipe;
    ItemsAppend(a, b);
  }

  lemma SqlItems(c: Content)
    requires Plain(c)
    ensures NoPipes(SqlLines(c))
    ensures ItemsOf(SqlLines(c)) ==
      if c.sql == "" then [] else [Heading("受限 SQL"), Blank, Body("```sql"), Body(c.sql), Body("```"), Blank]
  {
    hide IsSpace, ItemOfLine, StartsPipe, Solid, AllPlain, PlainBody, PlainText, PlainTable;
    if c.sql != "" {
      TitlesSolid();
      HeadingLine("受限 SQL");
      BlankLine();
      Fences();
      BodyLine("```sql");
      BodyLine(c.sql);
      BodyLine("```");
    }
  }

  lemma Fences()
    ensures PlainBody("```sql") && PlainBody("```")
  {
  }

  lemma HeadItems(c: Content)
    requires Plain(c)
    ensures var lines := ["# " + c.heading, "", QUESTION + c.question, "", "## " + CONCLUSION, "", c.insight, ""];
      && NoPipes(lines)
      && ItemsOf(lines) == [Title(c.heading), Blank, Body("问题：" + c.question), Blank, Heading("结论"), Blank,
                            Body(c.insight), Blank]
  {
    hide IsSpace, ItemOfLine, StartsPipe, Solid, AllPlain, PlainTable;
    TitleLine(c.heading);
    BlankLine();
    QuestionLine(c.question);
    TitlesSolid();
    HeadingLine("结论");
    BodyLine(c.insight);
  }

  lemma FrontIsRead(c: Content)
    requires Plain(c)
    ensures NoPipes(FrontLines(c)) && ItemsOf(FrontLines(c)) == FrontItems(c)
  {
    hide ItemOfLine, StartsPipe, NoPipes, Section, Listed, Solid, AllPlain, Sections, Insights, SqlLines, ItemsOf;
    var head := ["# " + c.heading, "", QUESTION + c.question, "", "## " + CONCLUSION, "", c.insight, ""];
    HeadItems(c);
    TitlesSolid();
    SectionLines("事实", c.facts);
    SectionLines("风险", c.risks);
    SectionLines("建议", c.recommendations);
    ThreeSections(c);
    SqlItems(c);
    var a, b, d := Section("事实", c.facts), Section("风险", c.risks), Section("建议", c.recommendations);
    var q := SqlLines(c);
    Joined(head, a, ItemsOf(head), Listed("事实", c.facts));
    Joined(head + a, b, ItemsOf(head + a), Listed("风险", c.risks));
    Joined(head + a + b, d, ItemsOf(head + a + b), Listed("建议", c.recommendations));
    Joined(head + a + b + d, q, ItemsOf(head + a + b + d), ItemsOf(q));
    assert head + (a + b + d) + q == head + a + b + d + q;
  }

  lemma EndIsRead(c: Content)
    requires Plain(c)
    ensures NoPipes(EndLines(c)) && ItemsOf(EndLines(c)) == EndItems(c)
  {
    hide IsSpace, ItemOfLine, StartsPipe, Solid, AllPlain, PlainBody, PlainText, PlainTable;
    if c.citations != [] {
      TitlesSolid();
      HeadingLine("依据");
      BlankLine();
      BulletLines(c.citations);
      ItemsAppend(["## " + "依据", ""], Bullets(c.citations));
      assert ItemsOf(["## " + "依据", ""]) == [Heading("依据"), Blank];
    }
  }

  // ---------------------------------------------------------------------------------------------
  // All lines
  // ---------------------------------------------------------------------------------------------

  lemma RestStarts(c: Content)
    ensures var rest := TablePart(c) + EndLines(c);
      rest != [] ==> !StartsPipe(rest[0])
    ensures EndLines(c) != [] ==> !StartsPipe(EndLines(c)[0])
  {
    hide StartsPipe, IsSpace;
    TitlesSolid();
    HeadingLine("数据结果");
    HeadingLine("依据");
  }

  lemma TableIsRead(c: Content)
    requires Plain(c)
    ensures Blocks(TablePart(c) + EndLines(c)) == TableItems(c) + EndItems(c)
  {
    hide Blocks, StartsPipe, TableLines, ItemOfLine, NoPipes, EndLines, EndItems, ItemsOf, PlainTable;
    EndIsRead(c);
    if c.rows == [] {
      PlainBlocks(EndLines(c));
      assert TablePart(c) + EndLines(c) == EndLines(c);
      assert TableItems(c) + EndItems(c) == EndItems(c);
    } else {
      var after := [""] + EndLines(c);
      OneBlank();
      Joined([""], EndLines(c), [Blank], EndItems(c));
      PlainBlocks(after);
      BlankLine();
      BlocksSplit(TableLines(c), after);
      TableBlocks(c);
      assert TablePart(c) + EndLines(c) == TableLines(c) + after;
      assert TableItems(c) + EndItems(c)
          == [Heading("数据结果"), Blank, Table([StripAll(c.rows[0].keys)] + ShownCells(c))] + ([Blank] + EndItems(c));
    }
  }

  lemma OneBlank()
    ensures ItemsOf([""]) == [Blank] && NoPipes([""])
  {
    BlankLine();
  }

  lemma AllIsRead(c: Content)
    requires Plain(c)
    ensures Blocks(AllLines(c)) == FrontItems(c) + TableItems(c) + EndItems(c)
  {
    hide Blocks, StartsPipe, ItemOfLine, NoPipes, EndLines, EndItems, ItemsOf, FrontLines, TablePart;
    hide Plain, FrontItems, TableItems;
    FrontIsRead(c);
    RestStarts(c);
    PlainBlocks(FrontLines(c));
    BlocksSplit(FrontLines(c), TablePart(c) + EndLines(c));
    TableIsRead(c);
    assert AllLines(c) == FrontLines(c) + (TablePart(c) + EndLines(c));
    assert FrontItems(c) + (TableItems(c) + EndItems(c)) == FrontItems(c) + TableItems(c) + EndItems(c);
  }

  // ---------------------------------------------------------------------------------------------
  // The printed text
  // ---------------------------------------------------------------------------------------------

  /** Blocks of lines that end with a blank one and a solid one before it. */
  predicate SolidBlank(lines: seq<string>) {
    |lines| >= 2 && lines[|lines| - 1] == "" && Solid(lines[|lines| - 2])
  }

  lemma SolidBlankAppend(a: seq<string>, b: seq<string>)
    requires SolidBlank(b) || (b == [] && SolidBlank(a))
    ensures SolidBlank(a + b)
  {
    hide Solid;
    if b == [] {
      assert a + b == a;
    } else {
      assert (a + b)[|a + b| - 1] == b[|b| - 1] && (a + b)[|a + b| - 2] == b[|b| - 2];
    }
  }

  lemma SectionEnds(title: string, values: seq<string>)
    requires AllPlain(values) && values != []
    ensures SolidBlank(Section(title, values))
  {
    hide IsSpace;
    var n := |values| - 1;
    Marks();
    assert PlainText(values[n]);
    SolidAfter("- ", values[n]);
    assert Section(title, values)[|values| + 1] == Bullets(values)[n];
  }

  lemma {:induction false} SectionsEnd(parts: seq<(string, seq<string>)>)
    requires forall i | 0 <= i < |parts| :: AllPlain(parts[i].1)
    ensures Sections(parts) == [] || SolidBlank(Sections(parts))
  {
    hide Section, AllPlain, SolidBlank;
    if parts != [] {
      var n := |parts| - 1;
      SectionsEnd(parts[..n]);
      var (title, values) := parts[n];
      if values == [] {
        assert Section(title, values) == [] by { NoSection(title); }
        assert Sections(parts) == Sections(parts[..n]);
      } else {
        SectionEnds(title, values);
        SolidBlankAppend(Sections(parts[..n]), Section(title, values));
      }
    }
  }

  lemma NoSection(title: string)
    ensures Section(title, []) == []
  {
  }

  lemma FrontEnds(c: Content)
    requires Plain(c)
    ensures SolidBlank(FrontLines(c)) && FrontLines(c)[0] == "# " + c.heading && |FrontLines(c)| > 2
  {
    hide Sections, SolidBlank, PlainTable, AllPlain;
    var head := ["# " + c.heading, "", QUESTION + c.question, "", "## " + CONCLUSION, "", c.insight, ""];
    var parts := Insights(c);
    assert SolidBlank(head) by { HeadEnds(c); }
    SectionsEnd(parts);
    SolidBlankAppend(head, Sections(parts));
    SqlEnds(c);
    SolidBlankAppend(head + Sections(parts), SqlLines(c));
  }

  lemma HeadEnds(c: Content)
    requires Plain(c)
    ensures SolidBlank(["# " + c.heading, "", QUESTION + c.question, "", "## " + CONCLUSION, "", c.insight, ""])
  {
  }

  lemma SqlEnds(c: Content)
    ensures SqlLines(c) == [] || SolidBlank(SqlLines(c))
  {
    Fences();
  }

  /** The lines that are printed: a blank one at the very end is stripped. */
  function PrintedLines(c: Content): seq<string> {
    var lines := AllLines(c);
    if c.citations == [] && lines != [] then lines[..|lines| - 1] else lines
  }

  lemma TableEnds(c: Content)
    requires c.rows != []
    ensures SolidBlank(TablePart(c))
  {
    hide CellsOf, IsSpace, Join;
    Marks();
    var lines, columns := TableLines(c), c.rows[0].keys;
    var last := PrintRows(Shown(c), columns)[|Shown(c)| - 1];
    assert lines[|lines| - 1] == last && last[|last| - 1] == '|';
    assert TablePart(c)[|TablePart(c)| - 2] == last;
  }

  lemma EndEnds(c: Content)
    requires AllPlain(c.citations) && c.citations != []
    ensures EndLines(c) != [] && Solid(EndLines(c)[|EndLines(c)| - 1])
  {
    hide IsSpace;
    var n := |c.citations| - 1;
    Marks();
    assert PlainText(c.citations[n]);
    SolidAfter("- ", c.citations[n]);
    assert EndLines(c)[|EndLines(c)| - 1] == Bullets(c.citations)[n];
  }

  lemma PrintedEnds(c: Content)
    requires Plain(c)
    ensures var lines := PrintedLines(c);
      && |lines| > 1 && lines[0] == "# " + c.heading && Solid(lines[|lines| - 1])
      && AllLines(c) == if c.citations == [] then lines + [""] else lines
  {
    hide FrontLines, TablePart, EndLines, Solid, AllPlain, PlainText, PlainBody, PlainTable;
    FrontEnds(c);
    var front, rest := FrontLines(c), TablePart(c);
    if c.rows != [] { TableEnds(c); } else { assert TablePart(c) == [] by { NoTable(c); } }
    SolidBlankAppend(front, rest);
    var all := AllLines(c);
    if c.citations == [] {
      assert EndLines(c) == [] by { NoEnd(c); }
      assert all == front + rest;
    } else {
      EndEnds(c);
      assert all[|all| - 1] == EndLines(c)[|EndLines(c)| - 1];
    }
  }

  lemma NoTable(c: Content)
    requires c.rows == []
    ensures TablePart(c) == []
  {
  }

  lemma NoEnd(c: Content)
    requires c.citations == []
    ensures EndLines(c) == []
  {
  }

  lemma RStripSolid(s: string)
    requires Solid(s)
    ensures RStrip(s) == s
  {
  }

  /** The printed text is these lines, each with its line feed. */
  lemma MarkdownIsText(c: Content)
    requires Plain(c)
    ensures Markdown(c) == Text(PrintedLines(c))
  {
    hide Join, Strip, RStrip, Text, AllLines, IsSpace, Plain;
    var lines := PrintedLines(c);
    PrintedEnds(c);
    var p := Join(lines, "\n");
    assert Solid(lines[0]) && lines[0] != "" && lines[0][0] == '#' by { HeadingSolid(c); }
    JoinEdges(lines);
    Marks();
    RStripSolid(p);
    JoinIsText(lines);
    if c.citations == [] {
      JoinAppend(lines, [""]);
      assert Join([""], "\n") == "" by { JoinIsText([""]); OneLine(); }
      assert Join(AllLines(c), "\n") == p + "\n";
      StripIsRStrip(p + "\n");
      RStripAppend(p, "\n");
      RStripBlank();
    } else {
      StripIsRStrip(p);
    }
  }

  lemma OneLine()
    ensures Text([""]) == "\n"
  {
  }

  lemma HeadingSolid(c: Content)
    requires Plain(c)
    ensures Solid("# " + c.heading) && ("# " + c.heading)[0] == '#'
  {
    hide IsSpace;
    Marks();
    SolidAfter("# ", c.heading);
  }

  // ---------------------------------------------------------------------------------------------
  // No line is broken
  // ---------------------------------------------------------------------------------------------

  predicate AllUnbroken(lines: seq<string>) { forall i | 0 <= i < |lines| :: Unbroken(lines[i]) }

  lemma UnbrokenParts(a: seq<string>, b: seq<string>)
    requires AllUnbroken(a) && AllUnbroken(b)
    ensures AllUnbroken(a + b)
  {
    hide Unbroken;
  }

  lemma BulletsUnbroken(values: seq<string>)
    requires AllPlain(values)
    ensures AllUnbroken(Bullets(values))
  {
    hide Unbroken;
    forall i | 0 <= i < |values| ensures Unbroken("- " + values[i]) {
      assert PlainText(values[i]);
      Dash();
      UnbrokenConcat("- ", values[i]);
    }
  }

  lemma Dash()
    ensures Unbroken("- ") && Unbroken("## ") && Unbroken("# ") && Unbroken("") && Unbroken(QUESTION)
    ensures Unbroken("```sql") && Unbroken("```") && Unbroken(SQL_TITLE) && Unbroken(EVIDENCE_TITLE)
    ensures Unbroken(CONCLUSION) && Unbroken(FACTS) && Unbroken(RISKS) && Unbroken(RECOMMENDATIONS)
  {
  }

  lemma SectionUnbroken(title: string, values: seq<string>)
    requires AllPlain(values) && Unbroken(title)
    ensures AllUnbroken(Section(title, values))
  {
    hide Unbroken, AllPlain;
    if values != [] {
      Dash();
      UnbrokenConcat("## ", title);
      BulletsUnbroken(values);
      UnbrokenParts(["## " + title, ""], Bullets(values));
      UnbrokenParts(["## " + title, ""] + Bullets(values), [""]);
    }
  }

  lemma {:induction false} SectionsUnbroken(parts: seq<(string, seq<string>)>)
    requires forall i | 0 <= i < |parts| :: AllPlain(parts[i].1) && Unbroken(parts[i].0)
    ensures AllUnbroken(Sections(parts))
  {
    hide Unbroken, AllPlain, Section, AllUnbroken;
    if parts == [] {
      assert AllUnbroken(Sections([])) by { NothingBroken(); }
    } else {
      var n := |parts| - 1;
      SectionsUnbroken(parts[..n]);
      SectionUnbroken(parts[n].0, parts[n].1);
      UnbrokenParts(Sections(parts[..n]), Section(parts[n].0, parts[n].1));
    }
  }

  lemma NothingBroken()
    ensures AllUnbroken(Sections([])) && AllUnbroken([]) && AllUnbroken([""])
  {
  }

  lemma FrontUnbroken(c: Content)
    requires Plain(c)
    ensures AllUnbroken(FrontLines(c))
  {
    hide Unbroken, AllPlain, Sections, PlainTable;
    Dash();
    UnbrokenConcat("# ", c.heading);
    UnbrokenConcat(QUESTION, c.question);
    UnbrokenConcat("## ", CONCLUSION);
    UnbrokenConcat("## ", SQL_TITLE);
    SectionsUnbroken(Insights(c));
    var head := ["# " + c.heading, "", QUESTION + c.question, "", "## " + CONCLUSION, "", c.insight, ""];
    UnbrokenParts(head, Sections(Insights(c)));
    UnbrokenParts(head + Sections(Insights(c)), SqlLines(c));
  }

  lemma LinesUnbroken(c: Content)
    requires Plain(c)
    ensures AllUnbroken(AllLines(c))
  {
    hide Unbroken, AllPlain, FrontLines, TableLines, PlainText, PlainBody, PlainTable;
    FrontUnbroken(c);
    NothingBroken();
    Dash();
    if c.rows != [] {
      TableLinesPlain(c);
      UnbrokenParts(TableLines(c), [""]);
    }
    UnbrokenParts(FrontLines(c), TablePart(c));
    if c.citations != [] {
      UnbrokenConcat("## ", EVIDENCE_TITLE);
      BulletsUnbroken(c.citations);
      UnbrokenParts(["## " + EVIDENCE_TITLE, ""], Bullets(c.citations));
    }
    UnbrokenParts(FrontLines(c) + TablePart(c), EndLines(c));
  }

  /** The round trip of a whole report: the reader sees the title, the question without its stars, the
      conclusion, the lists of facts, risks and recommendations that are not empty, each under its own
      heading, the SQL, the table and the evidence, in this order and nothing else. */
  lemma ReportIsRead(c: Content, utf8: string -> Option<string>)
    requires Plain(c)
    ensures Blocks(SplitLines(Repaired(Markdown(c), utf8))) == Parts(c)
  {
    hide Blocks, SplitLines, Text, Markdown, AllLines, Repaired, Unbroken, Plain, FrontItems, TableItems, EndItems;
    ReportIsNotRepaired(c, utf8);
    MarkdownIsText(c);
    PrintedEnds(c);
    LinesUnbroken(c);
    var lines := PrintedLines(c);
    assert forall i | 0 <= i < |lines| :: AllLines(c)[i] == lines[i];
    LinesOfText(lines);
    AllIsRead(c);
    if c.citations == [] {
      BlankLine();
      BlocksSplit(lines, [""]);
      OneBlank();
      PlainBlocks([""]);
    }
  }
}
