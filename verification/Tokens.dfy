/** Splitting text into index terms, and counting them. */
module Tokens {
  import opened Sequences

  /** The two character classes that make tokens. */
  datatype Class = Latin | Chinese

  predicate In(c: char, kind: Class) {
    match kind
    case Latin => 'a' <= c <= 'z' || '0' <= c <= '9' || c == '_'
    case Chinese => '\U{4E00}' <= c <= '\U{9FFF}'
  }

  function RunLength(s: string, kind: Class): (n: nat)
    ensures n <= |s|
    ensures forall i | 0 <= i < n :: In(s[i], kind)
    ensures n < |s| ==> !In(s[n], kind)
  {
    if s == "" || !In(s[0], kind) then 0 else 1 + RunLength(s[1..], kind)
  }

  /** `re.findall` of one or more characters of the class. */
  function Runs(s: string, kind: Class): seq<string>
    decreases |s|
  {
    if s == "" then []
    else if !In(s[0], kind) then Runs(s[1..], kind)
    else
      var n := RunLength(s, kind);
      [s[..n]] + Runs(s[n..], kind)
  }

  /** A run is taken whole ... */
  lemma WholeRun(s: string, kind: Class)
    requires s != "" && forall i | 0 <= i < |s| :: In(s[i], kind)
    ensures Runs(s, kind) == [s]
  {
    assert s[..RunLength(s, kind)] == s;
  }

  lemma {:induction false} RunStops(a: string, b: string, kind: Class)
    requires b != "" && !In(b[0], kind)
    ensures RunLength(a + b, kind) == RunLength(a, kind)
  {
    hide In;
    if a == "" {
      assert a + b == b;
    } else {
      assert (a + b)[1..] == a[1..] + b;
      RunStops(a[1..], b, kind);
    }
  }

  lemma {:induction false} RunsStop(a: string, b: string, kind: Class)
    requires b != "" && !In(b[0], kind)
    ensures Runs(a + b, kind) == Runs(a, kind) + Runs(b, kind)
    decreases |a|
  {
    hide In, Runs, RunLength;
    if a == "" {
      assert a + b == b;
      assert Runs(a, kind) == [] by { NoRuns(kind); }
    } else {
      RunsStep(a, kind);
      RunsStep(a + b, kind);
      if !In(a[0], kind) {
        assert (a + b)[1..] == a[1..] + b;
        RunsStop(a[1..], b, kind);
      } else {
        var n := RunLength(a, kind);
        RunStops(a, b, kind);
        assert (a + b)[..n] == a[..n] && (a + b)[n..] == a[n..] + b;
        RunsStop(a[n..], b, kind);
      }
    }
  }

  lemma NoRuns(kind: Class)
    ensures Runs("", kind) == []
  {
  }

  lemma RunsStep(s: string, kind: Class)
    requires s != ""
    ensures !In(s[0], kind) ==> Runs(s, kind) == Runs(s[1..], kind)
    ensures var n := RunLength(s, kind);
      In(s[0], kind) ==> n > 0 && Runs(s, kind) == [s[..n]] + Runs(s[n..], kind)
  {
  }

  /** ... and every other character separates.  With WholeRun this fixes the runs of any text. */
  lemma RunsSplit(a: string, c: char, b: string, kind: Class)
    requires !In(c, kind)
    ensures Runs(a + [c] + b, kind) == Runs(a, kind) + Runs(b, kind)
  {
    hide In;
    var rest := [c] + b;
    RunsStop(a, rest, kind);
    assert rest[0] == c && rest[1..] == b;
    assert a + [c] + b == a + rest;
  }

  lemma {:induction false} RunsNotEmpty(s: string, kind: Class)
    ensures forall i | 0 <= i < |Runs(s, kind)| :: Runs(s, kind)[i] != ""
    decreases |s|
  {
    if s != "" && !In(s[0], kind) {
      RunsNotEmpty(s[1..], kind);
    } else if s != "" {
      RunsNotEmpty(s[RunLength(s, kind)..], kind);
    }
  }

  /** The characters of a group and then its neighbouring pairs. */
  function Grams(group: string): seq<string> {
    seq(|group|, i requires 0 <= i < |group| => [group[i]])
    + seq(if group == "" then 0 else |group| - 1, i requires 0 <= i < |group| - 1 => group[i..i + 2])
  }

  function AllGrams(groups: seq<string>): seq<string> {
    if groups == [] then [] else AllGrams(groups[..|groups| - 1]) + Grams(groups[|groups| - 1])
  }

  /** `[token[:160] for token in tokens if token]`. */
  function Clip(tokens: seq<string>): seq<string> {
    if tokens == [] then []
    else
      var t := tokens[|tokens| - 1];
      Clip(tokens[..|tokens| - 1])
      + if t == "" then [] else [if |t| <= 160 then t else t[..160]]
  }

  function TokensOf(lowered: string): seq<string> {
    Clip(Runs(lowered, Latin) + AllGrams(Runs(lowered, Chinese)))
  }

  /** `chinese.extend(group)` and then the pairs. */
  method ExtendGrams(before: seq<string>, group: string) returns (chinese: seq<string>)
    ensures chinese == before + Grams(group)
  {
    chinese := before;
    var j := 0;
    while j < |group|
      invariant 0 <= j <= |group|
      invariant chinese == before + Grams(group)[..j]
    {
      chinese := chinese + [[group[j]]];
      j := j + 1;
    }
    j := 0;
    while j < |group| - 1
      invariant 0 <= j && (group == "" ==> j == 0) && (group != "" ==> j <= |group| - 1)
      invariant chinese == before + Grams(group)[..|group| + j]
    {
      chinese := chinese + [group[j..j + 2]];
      j := j + 1;
    }
    assert Grams(group)[..|group| + j] == Grams(group);
  }

  /** `tokenize`; `lower` stands for the lower-casing of the runtime. */
  method Tokenize(text: string, lower: string -> string) returns (tokens: seq<string>)
    ensures tokens == TokensOf(lower(text))
  {
    hide Runs, Clip;
    var lowered := lower(text);
    var latin, groups := Runs(lowered, Latin), Runs(lowered, Chinese);
    var chinese: seq<string> := [];
    var g := 0;
    while g < |groups|
      invariant 0 <= g <= |groups|
      invariant chinese == AllGrams(groups[..g])
    {
      chinese := ExtendGrams(chinese, groups[g]);
      assert groups[..g + 1][..g] == groups[..g];
      g := g + 1;
    }
    assert groups[..g] == groups;
    tokens := Clip(latin + chinese);
  }

  // ---------------------------------------------------------------------------------------------
  // Tokens of one word and of one Chinese group
  // ---------------------------------------------------------------------------------------------

  lemma {:induction false} NoRunsOfOther(s: string, kind: Class)
    requires forall i | 0 <= i < |s| :: !In(s[i], kind)
    ensures Runs(s, kind) == []
  {
    hide In;
    if s != "" { NoRunsOfOther(s[1..], kind); }
  }

  /** A word of lower-case letters, digits and underscores is one token, cut to 160 characters. */
  lemma TokenOfWord(s: string)
    requires s != "" && forall i | 0 <= i < |s| :: 'a' <= s[i] <= 'z' || '0' <= s[i] <= '9' || s[i] == '_'
    ensures TokensOf(s) == [if |s| <= 160 then s else s[..160]]
  {
    hide Runs, Clip, AllGrams;
    WholeRun(s, Latin);
    NoRunsOfOther(s, Chinese);
    OneGroup(s);
    ClipOne(s);
    assert [s] + [] == [s];
  }

  lemma ClipOne(t: string)
    requires t != ""
    ensures Clip([t]) == [if |t| <= 160 then t else t[..160]]
  {
    assert [t][..0] == [] && Clip([]) == [];
  }

  lemma OneGroup(group: string)
    ensures AllGrams([]) == [] && AllGrams([group]) == Grams(group)
  {
    assert [group][..0] == [];
  }

  lemma {:induction false} ShortTokens(tokens: seq<string>)
    requires forall i | 0 <= i < |tokens| :: 0 < |tokens[i]| <= 160
    ensures Clip(tokens) == tokens
  {
    if tokens != [] { ShortTokens(tokens[..|tokens| - 1]); }
  }

  lemma GramsAre(s: string)
    requires s != ""
    ensures |Grams(s)| == 2 * |s| - 1
    ensures forall i | 0 <= i < |s| :: Grams(s)[i] == [s[i]]
    ensures forall i | 0 <= i < |s| - 1 :: Grams(s)[|s| + i] == [s[i], s[i + 1]]
    ensures forall i | 0 <= i < |Grams(s)| :: 0 < |Grams(s)[i]| <= 2
  {
    forall i | 0 <= i < |Grams(s)| ensures 0 < |Grams(s)[i]| <= 2 {
      if i >= |s| { assert Grams(s)[i] == s[i - |s|..i - |s| + 2]; }
    }
    forall i | 0 <= i < |s| - 1 ensures Grams(s)[|s| + i] == [s[i], s[i + 1]] {
      assert Grams(s)[|s| + i] == s[i..i + 2];
    }
  }

  /** A group of Chinese characters gives each of its characters, and then each pair of neighbours. */
  lemma TokensOfGroup(s: string)
    requires s != "" && forall i | 0 <= i < |s| :: '\U{4E00}' <= s[i] <= '\U{9FFF}'
    ensures |TokensOf(s)| == 2 * |s| - 1
    ensures forall i | 0 <= i < |s| :: TokensOf(s)[i] == [s[i]]
    ensures forall i | 0 <= i < |s| - 1 :: TokensOf(s)[|s| + i] == [s[i], s[i + 1]]
  {
    hide Runs, Clip, AllGrams, Grams;
    WholeRun(s, Chinese);
    NoRunsOfOther(s, Latin);
    OneGroup(s);
    assert [] + Grams(s) == Grams(s);
    GramsAre(s);
    ShortTokens(Grams(s));
  }

  /** Any other character belongs to neither kind. */
  lemma Separates(c: char)
    ensures In(c, Latin) || In(c, Chinese) <==>
      'a' <= c <= 'z' || '0' <= c <= '9' || c == '_' || '\U{4E00}' <= c <= '\U{9FFF}'
  {
  }

  // ---------------------------------------------------------------------------------------------
  // Tokens of joined texts
  // ---------------------------------------------------------------------------------------------

  lemma {:induction false} ClipAppend(a: seq<string>, b: seq<string>)
    ensures Clip(a + b) == Clip(a) + Clip(b)
  {
    if b == [] {
      assert a + b == a;
    } else {
      assert (a + b)[..|a + b| - 1] == a + b[..|b| - 1];
      ClipAppend(a, b[..|b| - 1]);
    }
  }

  lemma {:induction false} AllGramsAppend(a: seq<string>, b: seq<string>)
    ensures AllGrams(a + b) == AllGrams(a) + AllGrams(b)
  {
    hide Grams;
    if b == [] {
      assert a + b == a;
    } else {
      assert (a + b)[..|a + b| - 1] == a + b[..|b| - 1];
      AllGramsAppend(a, b[..|b| - 1]);
    }
  }

  /** A character of neither class separates: the tokens of the two sides are the tokens of the
      whole, each as often, so term frequencies add up over lines, sentences and words. */
  lemma TokensAddUp(a: string, c: char, b: string)
    requires !('a' <= c <= 'z' || '0' <= c <= '9' || c == '_' || '\U{4E00}' <= c <= '\U{9FFF}')
    ensures multiset(TokensOf(a + [c] + b)) == multiset(TokensOf(a)) + multiset(TokensOf(b))
  {
    hide In, Runs, Clip, AllGrams;
    Separates(c);
    RunsSplit(a, c, b, Latin);
    RunsSplit(a, c, b, Chinese);
    AllGramsAppend(Runs(a, Chinese), Runs(b, Chinese));
    ClipAppend(Runs(a, Latin), AllGrams(Runs(a, Chinese)));
    ClipAppend(Runs(b, Latin), AllGrams(Runs(b, Chinese)));
    ClipAppend(Runs(a, Latin) + Runs(b, Latin), AllGrams(Runs(a, Chinese)) + AllGrams(Runs(b, Chinese)));
    ClipAppend(Runs(a, Latin), Runs(b, Latin));
    ClipAppend(AllGrams(Runs(a, Chinese)), AllGrams(Runs(b, Chinese)));
  }

  // ---------------------------------------------------------------------------------------------
  // Document length
  // ---------------------------------------------------------------------------------------------

  function CountIn(s: string, kind: Class): nat {
    if s == "" then 0 else (if In(s[0], kind) then 1 else 0) + CountIn(s[1..], kind)
  }

  lemma {:induction false} CountRun(s: string, kind: Class, n: nat)
    requires n <= |s| && forall i | 0 <= i < n :: In(s[i], kind)
    ensures CountIn(s, kind) == n + CountIn(s[n..], kind)
  {
    hide In;
    if n == 0 {
      assert s[n..] == s;
    } else {
      assert In(s[0], kind);
      assert s[1..][n - 1..] == s[n..];
      assert forall i | 0 <= i < n - 1 :: s[1..][i] == s[i + 1];
      CountRun(s[1..], kind, n - 1);
    }
  }

  lemma {:induction false} ClipKeepsAll(tokens: seq<string>)
    requires forall i | 0 <= i < |tokens| :: tokens[i] != ""
    ensures |Clip(tokens)| == |tokens|
  {
    if tokens != [] { ClipKeepsAll(tokens[..|tokens| - 1]); }
  }

  lemma {:induction false} GramsNotEmpty(groups: seq<string>)
    ensures forall i | 0 <= i < |AllGrams(groups)| :: AllGrams(groups)[i] != ""
  {
    if groups != [] { GramsNotEmpty(groups[..|groups| - 1]); }
  }

  lemma {:induction false} GramsCount(s: string)
    ensures |AllGrams(Runs(s, Chinese))| + |Runs(s, Chinese)| == 2 * CountIn(s, Chinese)
    decreases |s|
  {
    hide In;
    if s != "" && !In(s[0], Chinese) {
      GramsCount(s[1..]);
    } else if s != "" {
      var n := RunLength(s, Chinese);
      GramsCount(s[n..]);
      CountRun(s, Chinese, n);
      AllGramsAppend([s[..n]], Runs(s[n..], Chinese));
      assert AllGrams([s[..n]]) == Grams(s[..n]);
    }
  }

  /** The document length: one token a Latin run, and for every group of n Chinese characters n
      single characters and n - 1 pairs. */
  lemma DocumentLength(lowered: string)
    ensures |TokensOf(lowered)|
         == |Runs(lowered, Latin)| + 2 * CountIn(lowered, Chinese) - |Runs(lowered, Chinese)|
  {
    hide In, Runs, Clip, AllGrams, CountIn;
    RunsNotEmpty(lowered, Latin);
    GramsNotEmpty(Runs(lowered, Chinese));
    ClipKeepsAll(Runs(lowered, Latin) + AllGrams(Runs(lowered, Chinese)));
    GramsCount(lowered);
  }

  // ---------------------------------------------------------------------------------------------
  // Counting
  // ---------------------------------------------------------------------------------------------

  /** Each value once, in the order of first occurrence, as the keys of a dictionary. */
  function Unique(s: seq<string>): (r: seq<string>)
    ensures Distinct(r) && forall x :: x in r <==> x in s
  {
    if s == [] then []
    else
      var init, x := s[..|s| - 1], s[|s| - 1];
      assert s == init + [x];
      if x in init then Unique(init) else Unique(init) + [x]
  }

  /** The frequency of a term: its count in the `Counter` of the tokens. */
  function Count(tokens: seq<string>, term: string): nat { multiset(tokens)[term] }

  function CountSum(terms: seq<string>, tokens: seq<string>): nat {
    if terms == [] then 0
    else CountSum(terms[..|terms| - 1], tokens) + Count(tokens, terms[|terms| - 1])
  }

  lemma {:induction false} CountSumStep(terms: seq<string>, tokens: seq<string>, x: string)
    requires Distinct(terms)
    ensures CountSum(terms, tokens + [x]) == CountSum(terms, tokens) + if x in terms then 1 else 0
  {
    if terms != [] {
      var init, t := terms[..|terms| - 1], terms[|terms| - 1];
      CountSumStep(init, tokens, x);
      assert t !in init;
      assert x in terms <==> x in init || x == t;
      assert multiset(tokens + [x]) == multiset(tokens) + multiset{x};
    }
  }

  lemma {:induction false} CountSumEmpty(terms: seq<string>)
    ensures CountSum(terms, []) == 0
  {
    if terms != [] { CountSumEmpty(terms[..|terms| - 1]); }
  }

  /** Frequencies of distinct terms that include every token add up to the number of tokens. */
  lemma {:induction false} FrequenciesAddUp(terms: seq<string>, tokens: seq<string>)
    requires Distinct(terms) && forall i | 0 <= i < |tokens| :: tokens[i] in terms
    ensures CountSum(terms, tokens) == |tokens|
  {
    if tokens == [] {
      CountSumEmpty(terms);
    } else {
      var init, x := tokens[..|tokens| - 1], tokens[|tokens| - 1];
      FrequenciesAddUp(terms, init);
      CountSumStep(terms, init, x);
      assert tokens == init + [x];
    }
  }
}
