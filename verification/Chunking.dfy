/** Cutting a document into overlapping parent windows and each parent into child windows, with the
    position of every child in the document. */
module Chunking {
  import opened Wrappers
  import opened Numbers

  // ---------------------------------------------------------------------------------------------
  // Whitespace
  // ---------------------------------------------------------------------------------------------

  /** The characters that Python's `split` and `strip` treat as whitespace. */
  predicate IsSpace(c: char) {
    || '\U{0009}' <= c <= '\U{000D}' || '\U{001C}' <= c <= '\U{0020}'
    || c == '\U{0085}' || c == '\U{00A0}' || c == '\U{1680}' || '\U{2000}' <= c <= '\U{200A}'
    || c == '\U{2028}' || c == '\U{2029}' || c == '\U{202F}' || c == '\U{205F}' || c == '\U{3000}'
  }

  /** These are the characters that Python's `str.isspace` names, by their numbers. */
  lemma SpacesExactly(c: char)
    ensures IsSpace(c) <==> c as int in {9, 10, 11, 12, 13, 28, 29, 30, 31, 32, 133, 160, 5760,
                                         8192, 8193, 8194, 8195, 8196, 8197, 8198, 8199, 8200, 8201, 8202,
                                         8232, 8233, 8239, 8287, 12288}
  {
  }

  function WordEnd(s: string, from: nat): (n: nat)
    requires from <= |s|
    ensures from <= n <= |s|
    ensures forall i | from <= i < n :: !IsSpace(s[i])
    ensures n < |s| ==> IsSpace(s[n])
    decreases |s| - from
  {
    if from == |s| || IsSpace(s[from]) then from else WordEnd(s, from + 1)
  }

  /** `text.split()`. */
  function Words(s: string): seq<string>
    decreases |s|
  {
    if s == "" then []
    else if IsSpace(s[0]) then Words(s[1..])
    else var n := WordEnd(s, 0); [s[..n]] + Words(s[n..])
  }

  /** `" ".join(words)`. */
  function JoinWords(words: seq<string>): string {
    if words == [] then "" else
    if |words| == 1 then words[0] else words[0] + " " + JoinWords(words[1..])
  }

  function Normalize(text: string): string { JoinWords(Words(text)) }

  predicate IsWord(w: string) { w != "" && forall i | 0 <= i < |w| :: !IsSpace(w[i]) }

  /** Words separated by single blanks: the only whitespace is a blank between two other characters. */
  predicate Normalized(s: string) {
    forall i | 0 <= i < |s| && IsSpace(s[i]) ::
      s[i] == ' ' && 0 < i < |s| - 1 && !IsSpace(s[i - 1]) && !IsSpace(s[i + 1])
  }

  lemma {:induction false} WordsAreWords(s: string)
    ensures forall i | 0 <= i < |Words(s)| :: IsWord(Words(s)[i])
    decreases |s|
  {
    if s != "" {
      if IsSpace(s[0]) {
        WordsAreWords(s[1..]);
      } else {
        WordsAreWords(s[WordEnd(s, 0)..]);
      }
    }
  }

  lemma {:induction false} JoinNormalized(words: seq<string>)
    requires forall i | 0 <= i < |words| :: IsWord(words[i])
    ensures Normalized(JoinWords(words))
    ensures words != [] ==> JoinWords(words) != "" && !IsSpace(JoinWords(words)[0])
  {
    if |words| > 1 {
      JoinNormalized(words[1..]);
      var w, rest := words[0], JoinWords(words[1..]);
      var s := w + " " + rest;
      assert forall j | 0 <= j < |w| :: s[j] == w[j] && !IsSpace(s[j]);
      forall i | 0 <= i < |s| && IsSpace(s[i])
        ensures s[i] == ' ' && 0 < i < |s| - 1 && !IsSpace(s[i - 1]) && !IsSpace(s[i + 1])
      {
        if i > |w| {
          assert s[i] == rest[i - |w| - 1];
          assert IsSpace(rest[i - |w| - 1]);
        }
      }
    }
  }

  lemma {:induction false} WordsOfJoin(words: seq<string>)
    requires forall i | 0 <= i < |words| :: IsWord(words[i])
    ensures Words(JoinWords(words)) == words
  {
    if |words| == 1 {
      var w := words[0];
      assert WordEnd(w, 0) == |w|;
      assert w[..|w|] == w && w[|w|..] == "";
    } else if |words| > 1 {
      WordsOfJoin(words[1..]);
      var w, rest := words[0], JoinWords(words[1..]);
      WordThenBlank(w, rest);
      assert words == [w] + words[1..];
    }
  }

  lemma WordThenBlank(w: string, rest: string)
    requires IsWord(w)
    ensures Words(w + " " + rest) == [w] + Words(rest)
  {
    var s := w + " " + rest;
    assert forall i | 0 <= i < |w| :: s[i] == w[i];
    assert s[|w|] == ' ';
    assert WordEnd(s, 0) == |w|;
    assert s[..|w|] == w && s[|w|..] == " " + rest;
    assert (" " + rest)[1..] == rest;
  }

  /** Normalising keeps the words, and gives text that normalises to itself. */
  lemma NormalizeText(text: string)
    ensures Words(Normalize(text)) == Words(text)
    ensures Normalized(Normalize(text))
  {
    WordsAreWords(text);
    WordsOfJoin(Words(text));
    JoinNormalized(Words(text));
  }

  lemma BlankInside(s: string, n: nat)
    requires Normalized(s) && n < |s| && IsSpace(s[n])
    ensures s[n] == ' ' && 0 < n < |s| - 1 && !IsSpace(s[n - 1]) && !IsSpace(s[n + 1])
  {
    hide IsSpace;
  }

  /** Normalised text is one word, or a word, a blank and normalised text. */
  lemma FirstWord(s: string)
    requires Normalized(s) && s != ""
    ensures !IsSpace(s[0])
    ensures var n := WordEnd(s, 0);
      if n == |s| then IsWord(s)
      else n < |s| - 1 && IsWord(s[..n]) && Normalized(s[n + 1..]) && s == s[..n] + " " + s[n + 1..]
  {
    hide IsSpace, WordEnd, Normalized, IsWord;
    EndsAreNoSpaces(s);
    var n := WordEnd(s, 0);
    WordBefore(s);
    if n < |s| {
      BlankInside(s, n);
      BlankSplits(s, n);
      NormalizedSlice(s, n + 1, |s|);
    }
  }

  lemma WordBefore(s: string)
    requires s != "" && !IsSpace(s[0])
    ensures 0 < WordEnd(s, 0) <= |s| && IsWord(s[..WordEnd(s, 0)])
    ensures WordEnd(s, 0) == |s| ==> IsWord(s)
  {
    hide IsSpace;
    assert WordEnd(s, 0) == |s| ==> s[..WordEnd(s, 0)] == s;
  }

  lemma BlankSplits(s: string, n: nat)
    requires n < |s| && s[n] == ' '
    ensures s == s[..n] + " " + s[n + 1..] && s[n + 1..|s|] == s[n + 1..]
  {
  }

  lemma WordsOfWord(w: string)
    requires IsWord(w)
    ensures Words(w) == [w]
  {
    hide IsSpace;
    assert WordEnd(w, 0) == |w|;
    assert w[..|w|] == w && w[|w|..] == "";
  }

  lemma {:induction false} NormalizedIsFixed(s: string)
    requires Normalized(s)
    ensures Normalize(s) == s
    decreases |s|
  {
    hide IsSpace, WordEnd, IsWord, Normalized;
    if s == "" {
      assert Words(s) == [];
    } else {
      FirstWord(s);
      var n := WordEnd(s, 0);
      if n == |s| {
        WordsOfWord(s);
      } else {
        var rest := s[n + 1..];
        NormalizedIsFixed(rest);
        WordThenBlank(s[..n], rest);
        JoinFirst(s[..n], Words(rest));
      }
    }
  }

  lemma JoinFirst(w: string, words: seq<string>)
    requires JoinWords(words) != ""
    ensures JoinWords([w] + words) == w + " " + JoinWords(words)
  {
    assert ([w] + words)[1..] == words;
  }

  lemma EndsAreNoSpaces(s: string)
    requires Normalized(s) && s != ""
    ensures !IsSpace(s[|s| - 1]) && !IsSpace(s[0])
  {
  }

  lemma NormalizedSlice(s: string, a: nat, b: nat)
    requires Normalized(s) && a < b <= |s| && !IsSpace(s[a]) && !IsSpace(s[b - 1])
    ensures Normalized(s[a..b])
  {
    hide IsSpace;
    var t := s[a..b];
    forall i | 0 <= i < |t| && IsSpace(t[i])
      ensures t[i] == ' ' && 0 < i < |t| - 1 && !IsSpace(t[i - 1]) && !IsSpace(t[i + 1])
    {
      assert t[i] == s[a + i];
      assert i != 0 && i != |t| - 1;
      assert t[i - 1] == s[a + i - 1] && t[i + 1] == s[a + i + 1];
    }
  }

  /** `s.strip()`. */
  function Strip(s: string): string
    decreases |s|
  {
    if s == "" then ""
    else if IsSpace(s[0]) then Strip(s[1..])
    else if IsSpace(s[|s| - 1]) then Strip(s[..|s| - 1])
    else s
  }

  function Lead(s: string, a: nat): nat
    requires a < |s|
  {
    if IsSpace(s[a]) then 1 else 0
  }

  lemma SliceOfSlice(s: string, a: nat, b: nat, c: nat, d: nat)
    requires a <= b <= |s| && c <= d <= b - a
    ensures s[a..b][c..d] == s[a + c..a + d]
  {
    forall i | 0 <= i < d - c ensures s[a..b][c..d][i] == s[a + c..a + d][i] {
      assert s[a..b][c + i] == s[a + c + i];
    }
  }

  /** A slice of normalised text has at most one blank at each end, and what is left of it after
      stripping is again normalised and not empty, provided the slice is not a single blank. */
  lemma StripSlice(s: string, a: nat, b: nat)
    requires Normalized(s) && a < b <= |s| && (b == a + 1 ==> !IsSpace(s[a]))
    ensures a + Lead(s, a) < b - Lead(s, b - 1)
    ensures Strip(s[a..b]) == s[a + Lead(s, a)..b - Lead(s, b - 1)]
    ensures Normalized(Strip(s[a..b]))
  {
    hide IsSpace, Strip;
    var a', b' := a + Lead(s, a), b - Lead(s, b - 1);
    assert IsSpace(s[a]) ==> !IsSpace(s[a + 1]);
    assert IsSpace(s[b - 1]) ==> !IsSpace(s[b - 2]);
    assert !IsSpace(s[a']) && !IsSpace(s[b' - 1]);
    StripTo(s[a..b], Lead(s, a), b' - a);
    SliceOfSlice(s, a, b, Lead(s, a), b' - a);
    NormalizedSlice(s, a', b');
  }

  lemma StripTo(s: string, a: nat, b: nat)
    requires a < b <= |s| && a <= 1 && |s| - b <= 1
    requires !IsSpace(s[a]) && !IsSpace(s[b - 1])
    requires (a == 1 ==> IsSpace(s[0])) && (b < |s| ==> IsSpace(s[b]))
    ensures Strip(s) == s[a..b]
  {
    hide IsSpace, Strip;
    var t, u := s[a..], s[a..b];
    SuffixThenPrefix(s, a, b);
    if a == 1 { StripFirst(s); } else { assert t == s; }
    if b < |s| { StripLast(t); } else { assert u == t; }
    StripNothing(u);
  }

  lemma SuffixThenPrefix(s: string, a: nat, b: nat)
    requires a < b <= |s|
    ensures s[a..][..b - a] == s[a..b]
    ensures s[a..][0] == s[a] == s[a..b][0] && s[a..][|s| - a - 1] == s[|s| - 1] && s[a..b][b - a - 1] == s[b - 1]
  {
  }

  lemma StripFirst(s: string)
    requires s != "" && IsSpace(s[0])
    ensures Strip(s) == Strip(s[1..])
  {
    hide IsSpace;
  }

  lemma StripLast(s: string)
    requires s != "" && !IsSpace(s[0]) && IsSpace(s[|s| - 1])
    ensures Strip(s) == Strip(s[..|s| - 1])
  {
    hide IsSpace;
  }

  lemma StripNothing(s: string)
    requires s != "" && !IsSpace(s[0]) && !IsSpace(s[|s| - 1])
    ensures Strip(s) == s
  {
    hide IsSpace;
  }

  // ---------------------------------------------------------------------------------------------
  // Windows
  // ---------------------------------------------------------------------------------------------

  datatype Piece = Piece(ordinal: nat, text: string, start: nat, end: nat)

  /** The windows of `chunk_text` from `start` on, skipping blank ones. */
  function WindowsFrom(s: string, size: nat, overlap: nat, start: nat, ordinal: nat): seq<Piece>
    requires overlap < size && start <= |s|
    decreases |s| - start
  {
    if start == |s| then []
    else
      var end := Min(start + size, |s|);
      var chunk := Strip(s[start..end]);
      var here := if chunk == "" then [] else [Piece(ordinal, chunk, start, end)];
      if end == |s| then here
      else here + WindowsFrom(s, size, overlap, end - overlap, ordinal + |here|)
  }

  function Windows(s: string, size: nat, overlap: nat): seq<Piece>
    requires overlap < size
  {
    WindowsFrom(s, size, overlap, 0, 0)
  }

  /** What a cut of `s` must look like: it starts at 0 and ends at the end, every window but the
      last is full, each starts `overlap` before the end of the one before, and each piece is the
      stripped text of its own window, not empty, and numbered by its place. */
  ghost predicate WellCut(s: string, size: nat, overlap: nat, start: nat, first: nat, pieces: seq<Piece>) {
    && pieces != []
    && pieces[0].start == start
    && pieces[|pieces| - 1].end == |s|
    && (forall i | 0 <= i < |pieces| :: PieceOk(s, size, pieces[i]) && pieces[i].ordinal == first + i)
    && (forall i | 0 <= i < |pieces| - 1 ::
          pieces[i].end == pieces[i].start + size < |s| && pieces[i + 1].start == pieces[i].end - overlap)
  }

  predicate PieceOk(s: string, size: nat, p: Piece) {
    && p.start < p.end <= |s| && p.end <= p.start + size
    && p.text == Strip(s[p.start..p.end]) && p.text != "" && Normalized(p.text)
  }

  /** With windows of two or more characters no window of normalised text is blank. */
  lemma WindowNotBlank(s: string, size: nat, start: nat, ordinal: nat)
    requires Normalized(s) && 2 <= size && start < |s|
    ensures var end := Min(start + size, |s|);
      PieceOk(s, size, Piece(ordinal, Strip(s[start..end]), start, end))
  {
    hide IsSpace, Strip, Normalized;
    EndsAreNoSpaces(s);
    StripSlice(s, start, Min(start + size, |s|));
  }

  lemma WindowsStep(s: string, size: nat, overlap: nat, start: nat, first: nat)
    requires Normalized(s) && 2 <= size && overlap < size && start < |s|
    ensures var end := Min(start + size, |s|);
      var here := Piece(first, Strip(s[start..end]), start, end);
      && PieceOk(s, size, here)
      && WindowsFrom(s, size, overlap, start, first)
         == if end == |s| then [here]
            else [here] + WindowsFrom(s, size, overlap, end - overlap, first + 1)
  {
    hide IsSpace, Strip, Normalized;
    WindowNotBlank(s, size, start, first);
  }

  lemma WellCutCons(s: string, size: nat, overlap: nat, first: nat, here: Piece, rest: seq<Piece>)
    requires overlap < size && here.end == here.start + size < |s|
    requires PieceOk(s, size, here) && here.ordinal == first
    requires WellCut(s, size, overlap, here.end - overlap, first + 1, rest)
    ensures WellCut(s, size, overlap, here.start, first, [here] + rest)
  {
    hide PieceOk;
    var all := [here] + rest;
    forall i | 0 <= i < |all| ensures PieceOk(s, size, all[i]) && all[i].ordinal == first + i {
      if i > 0 { assert all[i] == rest[i - 1]; }
    }
    forall i | 0 <= i < |all| - 1
      ensures all[i].end == all[i].start + size < |s| && all[i + 1].start == all[i].end - overlap
    {
      if i > 0 { assert all[i] == rest[i - 1] && all[i + 1] == rest[i]; }
    }
  }

  lemma LastWindow(s: string, size: nat, overlap: nat, here: Piece)
    requires PieceOk(s, size, here) && here.end == |s|
    ensures WellCut(s, size, overlap, here.start, here.ordinal, [here])
  {
    hide PieceOk;
  }

  lemma {:induction false} WindowsWellCut(s: string, size: nat, overlap: nat, start: nat, first: nat)
    requires Normalized(s) && 2 <= size && overlap < size && start < |s|
    ensures WellCut(s, size, overlap, start, first, WindowsFrom(s, size, overlap, start, first))
    decreases |s| - start
  {
    hide Strip, Normalized, IsSpace, WindowsFrom, PieceOk, WellCut;
    WindowsStep(s, size, overlap, start, first);
    var end := Min(start + size, |s|);
    var here := Piece(first, Strip(s[start..end]), start, end);
    if end == |s| {
      LastWindow(s, size, overlap, here);
    } else {
      WindowsWellCut(s, size, overlap, end - overlap, first + 1);
      WellCutCons(s, size, overlap, first, here, WindowsFrom(s, size, overlap, end - overlap, first + 1));
    }
  }

  /** `n` is `a / b` rounded up, for a positive `a`. */
  predicate IsCeilDiv(n: int, a: nat, b: nat) { (n - 1) * b < a <= n * b }

  lemma CeilDivStep(n: int, a: nat, b: nat)
    requires IsCeilDiv(n, a, b)
    ensures IsCeilDiv(n + 1, a + b, b)
  {
    assert (n + 1) * b == n * b + b;
    assert n * b == (n - 1) * b + b;
  }

  /** The number of windows: one, or one more than the rest divided by the step, rounded up. */
  lemma {:induction false} WindowCount(s: string, size: nat, overlap: nat, start: nat, first: nat)
    requires Normalized(s) && 2 <= size && overlap < size && start < |s|
    ensures var n := |WindowsFrom(s, size, overlap, start, first)|;
      if |s| - start <= size then n == 1 else IsCeilDiv(n - 1, |s| - start - size, size - overlap)
    decreases |s| - start
  {
    hide Strip, Normalized, IsSpace, WindowsFrom, PieceOk;
    WindowsStep(s, size, overlap, start, first);
    var end := Min(start + size, |s|);
    if end < |s| {
      WindowCount(s, size, overlap, end - overlap, first + 1);
      var m := |WindowsFrom(s, size, overlap, end - overlap, first + 1)|;
      if |s| - (end - overlap) > size {
        CeilDivStep(m - 1, |s| - (end - overlap) - size, size - overlap);
      }
    }
  }

  datatype ChunkError = OverlapTooLarge

  lemma WindowsFromStep(s: string, size: nat, overlap: nat, start: nat, ordinal: nat)
    requires overlap < size && start < |s|
    ensures var end := Min(start + size, |s|);
      var chunk := Strip(s[start..end]);
      WindowsFrom(s, size, overlap, start, ordinal)
      == (if chunk == "" then [] else [Piece(ordinal, chunk, start, end)])
         + (if end == |s| then []
            else WindowsFrom(s, size, overlap, end - overlap, if chunk == "" then ordinal else ordinal + 1))
  {
    hide Strip;
  }

  lemma WindowsFromEnd(s: string, size: nat, overlap: nat, ordinal: nat)
    requires overlap < size
    ensures WindowsFrom(s, size, overlap, |s|, ordinal) == []
  {
  }

  lemma ChunkFacts(text: string, size: nat, overlap: nat)
    requires Normalize(text) != "" && overlap < size
    ensures size >= 2 ==>
      WellCut(Normalize(text), size, overlap, 0, 0, Windows(Normalize(text), size, overlap))
  {
    hide Normalize, WellCut, WindowsFrom;
    NormalizeText(text);
    if size >= 2 { WindowsWellCut(Normalize(text), size, overlap, 0, 0); }
  }

  /** `chunk_text`. */
  method ChunkText(text: string, size: nat, overlap: nat) returns (r: Result<seq<Piece>, ChunkError>)
    ensures r.Failure? <==> Normalize(text) != "" && overlap >= size
    ensures r.Success? ==> r.value == if Normalize(text) == "" then [] else Windows(Normalize(text), size, overlap)
    ensures r.Success? && size >= 2 && r.value != [] ==>
      WellCut(Normalize(text), size, overlap, 0, 0, r.value)
  {
    hide Strip, Normalize, Normalized, IsSpace, WellCut, WindowsFrom;
    var normalized := Normalize(text);
    if normalized == "" {
      return Success([]);
    }
    if overlap >= size {
      return Failure(OverlapTooLarge);
    }
    ChunkFacts(text, size, overlap);
    var pieces: seq<Piece>, ordinal, start := [], 0, 0;
    while start < |normalized|
      invariant start <= |normalized|
      invariant Windows(normalized, size, overlap) == pieces + WindowsFrom(normalized, size, overlap, start, ordinal)
      decreases |normalized| - start
    {
      var end := Min(start + size, |normalized|);
      var chunk := Strip(normalized[start..end]);
      WindowsFromStep(normalized, size, overlap, start, ordinal);
      if chunk != "" {
        pieces := pieces + [Piece(ordinal, chunk, start, end)];
        ordinal := ordinal + 1;
      }
      if end == |normalized| {
        return Success(pieces);
      }
      start := end - overlap;
    }
    WindowsFromEnd(normalized, size, overlap, ordinal);
    return Success(pieces);
  }

  // ---------------------------------------------------------------------------------------------
  // Parents and children
  // ---------------------------------------------------------------------------------------------

  const PARENT_SIZE: nat := 2400
  const PARENT_OVERLAP: nat := 240
  const CHILD_SIZE: nat := 600
  const CHILD_OVERLAP: nat := 80

  /** A child as `process_ingestion` records it: its place in the document's chunk order, its text,
      and its span, which adds the parent's start to the child's place inside the parent's text. */
  datatype Child = Child(ordinal: nat, parent: Piece, text: string, start: nat, end: nat)

  function ChildOf(parent: Piece, c: Piece): Child {
    Child(parent.ordinal * 10_000 + c.ordinal, parent, c.text, parent.start + c.start, parent.start + c.end)
  }

  function ChildrenOf(parent: Piece): (r: seq<Child>) {
    var text := Normalize(parent.text);
    var pieces := if text == "" then [] else Windows(text, CHILD_SIZE, CHILD_OVERLAP);
    seq(|pieces|, i requires 0 <= i < |pieces| => ChildOf(parent, pieces[i]))
  }

  function Parents(text: string): seq<Piece> {
    if Normalize(text) == "" then [] else Windows(Normalize(text), PARENT_SIZE, PARENT_OVERLAP)
  }

  function ChildrenOfAll(parents: seq<Piece>): seq<Child> {
    if parents == [] then [] else ChildrenOfAll(parents[..|parents| - 1]) + ChildrenOf(parents[|parents| - 1])
  }

  /** `pieces` is the cut of this parent's text. */
  predicate CutOf(parent: Piece, pieces: seq<Piece>) {
    var text := Normalize(parent.text);
    pieces == if text == "" then [] else Windows(text, CHILD_SIZE, CHILD_OVERLAP)
  }

  lemma ChildrenCount(parent: Piece, pieces: seq<Piece>)
    requires CutOf(parent, pieces)
    ensures |ChildrenOf(parent)| == |pieces|
  {
    hide Normalize, Windows;
  }

  lemma ChildrenUpTo(parent: Piece, pieces: seq<Piece>, j: nat)
    requires CutOf(parent, pieces) && j < |pieces| == |ChildrenOf(parent)|
    ensures ChildrenOf(parent)[..j + 1] == ChildrenOf(parent)[..j] + [ChildOf(parent, pieces[j])]
  {
    hide Normalize, Windows;
  }

  lemma ParentsUpTo(parents: seq<Piece>, i: nat)
    requires i < |parents|
    ensures ChildrenOfAll(parents[..i + 1]) == ChildrenOfAll(parents[..i]) + ChildrenOf(parents[i])
  {
    assert parents[..i + 1][..i] == parents[..i];
  }

  lemma NoChildren()
    ensures ChildrenOfAll([]) == []
  {
  }

  /** The nested loops of `process_ingestion` that collect the pieces to embed. */
  method BuildPieces(text: string) returns (parents: seq<Piece>, children: seq<Child>)
    ensures parents == Parents(text)
    ensures children == ChildrenOfAll(parents)
  {
    hide Normalize, Windows, WellCut, ChildrenOf, ChildOf, ChildrenOfAll;
    var parentPieces := ChunkText(text, PARENT_SIZE, PARENT_OVERLAP);
    parents, children := parentPieces.value, [];
    NoChildren();
    var i := 0;
    while i < |parents|
      invariant 0 <= i <= |parents|
      invariant children == ChildrenOfAll(parents[..i])
    {
      var parent := parents[i];
      var childPieces := ChunkText(parent.text, CHILD_SIZE, CHILD_OVERLAP);
      var pieces := childPieces.value;
      ChildrenCount(parent, pieces);
      ParentsUpTo(parents, i);
      ghost var before := children;
      var j := 0;
      while j < |pieces|
        invariant 0 <= j <= |pieces|
        invariant children == before + ChildrenOf(parent)[..j]
      {
        ChildrenUpTo(parent, pieces, j);
        children := children + [ChildOf(parent, pieces[j])];
        j := j + 1;
      }
      assert ChildrenOf(parent)[..j] == ChildrenOf(parent);
      i := i + 1;
    }
    assert parents[..i] == parents;
  }

  /** How far a parent's recorded children are off: by one when its window began on a blank, which
      stripping removed from the text but not from the span; otherwise not at all. */
  function Shift(s: string, parent: Piece): nat
    requires parent.start < |s|
  {
    Lead(s, parent.start)
  }

  predicate ParentOk(s: string, p: Piece) { Normalized(s) && PieceOk(s, PARENT_SIZE, p) }

  /** A parent's text as a slice of the document. */
  lemma ParentText(s: string, p: Piece)
    requires ParentOk(s, p)
    ensures p.start + Shift(s, p) < p.end - Lead(s, p.end - 1)
    ensures p.text == s[p.start + Shift(s, p)..p.end - Lead(s, p.end - 1)]
    ensures Normalize(p.text) == p.text
  {
    hide IsSpace, Strip, Normalized, Normalize;
    if p.end == p.start + 1 {
      assert s[p.start..p.end] == [s[p.start]];
      StripOne(s[p.start]);
    }
    StripSlice(s, p.start, p.end);
    NormalizedIsFixed(p.text);
  }

  lemma StripOne(c: char)
    ensures IsSpace(c) ==> Strip([c]) == ""
  {
  }

  lemma ChildPieces(s: string, p: Piece)
    requires ParentOk(s, p)
    ensures |ChildrenOf(p)| == |Windows(p.text, 600, 80)|
    ensures WellCut(p.text, 600, 80, 0, 0, Windows(p.text, 600, 80))
    ensures forall i | 0 <= i < |ChildrenOf(p)| ::
      var c, w := ChildrenOf(p)[i], Windows(p.text, 600, 80)[i];
      && c.parent == p && c.ordinal == p.ordinal * 10_000 + i && c.text == w.text
      && c.start == p.start + w.start && c.end == p.start + w.end
    ensures |ChildrenOf(p)| <= 5
  {
    hide Strip, IsSpace, Normalized, Normalize, WellCut, WindowsFrom;
    ParentText(s, p);
    TextNotEmpty(s, p);
    WindowsWellCut(p.text, CHILD_SIZE, CHILD_OVERLAP, 0, 0);
    WindowCount(p.text, CHILD_SIZE, CHILD_OVERLAP, 0, 0);
    Places(p.text, CHILD_SIZE, CHILD_OVERLAP, Windows(p.text, CHILD_SIZE, CHILD_OVERLAP));
    assert forall i | 0 <= i < |ChildrenOf(p)| ::
      ChildrenOf(p)[i] == ChildOf(p, Windows(p.text, CHILD_SIZE, CHILD_OVERLAP)[i]);
  }

  lemma Places(s: string, size: nat, overlap: nat, pieces: seq<Piece>)
    requires WellCut(s, size, overlap, 0, 0, pieces)
    ensures forall i | 0 <= i < |pieces| :: pieces[i].ordinal == i
  {
    hide PieceOk;
  }

  lemma TextNotEmpty(s: string, p: Piece)
    requires ParentOk(s, p)
    ensures p.text != "" && Normalized(p.text) && |p.text| <= PARENT_SIZE
  {
    hide IsSpace, Strip, Normalized, Normalize;
    ParentText(s, p);
  }

  /** Nested offsets: each child's text is the stripped document text at its recorded span moved
      right by the parent's shift, and that span stays inside the parent's window. */
  lemma NestedOffsets(s: string, p: Piece, i: nat)
    requires ParentOk(s, p) && i < |ChildrenOf(p)|
    ensures var c, d := ChildrenOf(p)[i], Shift(s, p);
      && p.start <= c.start < c.end && c.end + d <= p.end
      && c.text == Strip(s[c.start + d..c.end + d]) && c.text != ""
  {
    hide Strip, IsSpace, Normalized, Normalize, ChildrenOf, Windows;
    ParentText(s, p);
    ChildPieces(s, p);
    var w, d := Windows(p.text, CHILD_SIZE, CHILD_OVERLAP)[i], Shift(s, p);
    assert PieceOk(p.text, CHILD_SIZE, w);
    SliceOfSlice(s, p.start + d, p.end - Lead(s, p.end - 1), w.start, w.end);
  }

  lemma {:induction false} CutCovers(s: string, size: nat, overlap: nat, start: nat, first: nat,
                                     pieces: seq<Piece>, k: nat)
    requires WellCut(s, size, overlap, start, first, pieces) && start <= k < |s|
    ensures exists i :: 0 <= i < |pieces| && pieces[i].start <= k < pieces[i].end
    decreases |pieces|
  {
    if k >= pieces[0].end {
      assert |pieces| > 1;
      var rest := pieces[1..];
      forall i | 0 <= i < |rest| - 1
        ensures rest[i].end == rest[i].start + size < |s| && rest[i + 1].start == rest[i].end - overlap
      {
        assert rest[i] == pieces[i + 1] && rest[i + 1] == pieces[i + 2];
      }
      CutCovers(s, size, overlap, rest[0].start, first + 1, rest, k);
      var i :| 0 <= i < |rest| && rest[i].start <= k < rest[i].end;
      assert pieces[i + 1] == rest[i];
    }
  }

  /** The parents of a document. */
  lemma ParentsOk(text: string)
    ensures Normalized(Normalize(text))
    ensures Normalize(text) != "" ==>
      WellCut(Normalize(text), 2400, 240, 0, 0, Parents(text))
    ensures forall i | 0 <= i < |Parents(text)| :: ParentOk(Normalize(text), Parents(text)[i])
  {
    hide Normalize, Normalized, WindowsFrom, PieceOk;
    NormalizeText(text);
    if Normalize(text) != "" {
      WindowsWellCut(Normalize(text), PARENT_SIZE, PARENT_OVERLAP, 0, 0);
    }
  }

  /** Nothing is lost: every character other than a blank lies in the span of some child, moved by
      its parent's shift. */
  lemma EveryCharacterIsInAChild(text: string, k: nat)
    requires k < |Normalize(text)| && !IsSpace(Normalize(text)[k])
    ensures exists i, j :: (
      && 0 <= i < |Parents(text)| && 0 <= j < |ChildrenOf(Parents(text)[i])|
      && Parents(text)[i].start < |Normalize(text)|
      && var c, d := ChildrenOf(Parents(text)[i])[j], Shift(Normalize(text), Parents(text)[i]);
         c.start + d <= k < c.end + d)
  {
    hide Normalize, Parents, Strip, Normalized, IsSpace, ChildrenOf, Windows;
    var s, parents := Normalize(text), Parents(text);
    ParentsOk(text);
    CutCovers(s, PARENT_SIZE, PARENT_OVERLAP, 0, 0, parents, k);
    var i :| 0 <= i < |parents| && parents[i].start <= k < parents[i].end;
    var p := parents[i];
    ParentText(s, p);
    var d := Shift(s, p);
    assert p.start + d <= k < p.end - Lead(s, p.end - 1) by { NotOnTheEdge(s, p, k); }
    ChildPieces(s, p);
    var windows := Windows(p.text, CHILD_SIZE, CHILD_OVERLAP);
    CutCovers(p.text, CHILD_SIZE, CHILD_OVERLAP, 0, 0, windows, k - p.start - d);
    var j :| 0 <= j < |windows| && windows[j].start <= k - p.start - d < windows[j].end;
    assert ChildrenOf(p)[j] == ChildOf(p, windows[j]);
  }

  lemma NotOnTheEdge(s: string, p: Piece, k: nat)
    requires p.start <= k < p.end <= |s| && !IsSpace(s[k])
    ensures p.start + Shift(s, p) <= k < p.end - Lead(s, p.end - 1)
  {
  }

  /** The children of a document are numbered in strictly increasing order. */
  lemma {:induction false} ChildOrdinalsIncrease(s: string, parents: seq<Piece>)
    requires forall i | 0 <= i < |parents| :: ParentOk(s, parents[i]) && parents[i].ordinal == i
    ensures forall i | 0 <= i < |ChildrenOfAll(parents)| ::
      ChildrenOfAll(parents)[i].ordinal < 10_000 * |parents|
    ensures forall i, j | 0 <= i < j < |ChildrenOfAll(parents)| ::
      ChildrenOfAll(parents)[i].ordinal < ChildrenOfAll(parents)[j].ordinal
  {
    hide ParentOk, ChildrenOf;
    if parents != [] {
      var n := |parents| - 1;
      ChildOrdinalsIncrease(s, parents[..n]);
      var before, mine := ChildrenOfAll(parents[..n]), ChildrenOf(parents[n]);
      OrdinalsOfOne(s, parents[n]);
      var all := before + mine;
      assert ChildrenOfAll(parents) == all;
      forall i | 0 <= i < |all| ensures all[i].ordinal < 10_000 * |parents| {
        assert all[i] == if i < |before| then before[i] else mine[i - |before|];
      }
      forall i, j | 0 <= i < j < |all| ensures all[i].ordinal < all[j].ordinal {
        assert all[i] == if i < |before| then before[i] else mine[i - |before|];
        assert all[j] == if j < |before| then before[j] else mine[j - |before|];
      }
    }
  }

  lemma OrdinalsOfOne(s: string, p: Piece)
    requires ParentOk(s, p)
    ensures forall i | 0 <= i < |ChildrenOf(p)| :: ChildrenOf(p)[i].ordinal == 10_000 * p.ordinal + i
    ensures |ChildrenOf(p)| <= 5
  {
    hide Strip, IsSpace, Normalize, ChildrenOf, Windows;
    ChildPieces(s, p);
  }
}
