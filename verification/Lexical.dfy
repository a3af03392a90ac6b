/** `_bm25_rank` over the term index gives what scoring every child's text gives. */
module Lexical {
  import opened Wrappers
  import opened Sequences
  import opened Sums
  import opened Order
  import opened Tokens
  import opened Index
  import opened Bm25

  // ---------------------------------------------------------------------------------------------
  // Scoring the texts themselves
  // ---------------------------------------------------------------------------------------------

  /** The children whose text has the term. */
  function Containing(chunks: map<string, Chunk>, term: string, tok: Tokenizer): set<string> {
    set id | id in chunks && IsChild(chunks, id) && term in tok(chunks[id].text)
  }

  ghost predicate Hits(chunks: map<string, Chunk>, terms: seq<string>, tok: Tokenizer, id: string) {
    IsChild(chunks, id) && exists n :: 0 <= n < |terms| && terms[n] in tok(chunks[id].text)
  }

  function TextScore(tokens: seq<string>, terms: seq<string>, chunks: map<string, Chunk>, corpus: Corpus,
                     tok: Tokenizer, ln: Log): real
    requires corpus.averageLength >= 0.0
  {
    if terms == [] then 0.0
    else
      var t := terms[|terms| - 1];
      TextScore(tokens, terms[..|terms| - 1], chunks, corpus, tok, ln)
      + Bm25Score(Count(tokens, t), |Containing(chunks, t, tok)|, |tokens|, corpus.averageLength, corpus.children, ln)
  }

  /** Every child that has one of the terms, with the score of its text. */
  ghost predicate DirectScores(scores: map<string, real>, chunks: map<string, Chunk>, terms: seq<string>,
                               corpus: Corpus, tok: Tokenizer, ln: Log)
    requires corpus.averageLength >= 0.0
  {
    && (forall id: string :: id in scores <==> Hits(chunks, terms, tok, id))
    && (forall id: string | id in scores && id in chunks ::
          scores[id] == TextScore(tok(chunks[id].text), terms, chunks, corpus, tok, ln))
  }

  /** The first `limit` identifiers by `(-score, identifier)`. */
  ghost predicate IsTop(ranked: seq<string>, scores: map<string, real>, limit: nat) {
    && Within(ranked, scores)
    && |ranked| == (if |scores| < limit then |scores| else limit)
    && (forall i, j | 0 <= i < j < |ranked| ::
          scores[ranked[i]] > scores[ranked[j]]
          || (scores[ranked[i]] == scores[ranked[j]] && StrLess(ranked[i], ranked[j])))
    && (forall i, k | 0 <= i < |ranked| && k in scores && k !in ranked ::
          scores[ranked[i]] > scores[k] || (scores[ranked[i]] == scores[k] && StrLess(ranked[i], k)))
  }

  // ---------------------------------------------------------------------------------------------
  // Scoring the rows of the index
  // ---------------------------------------------------------------------------------------------

  /** The rows the query selects: those of the query's terms. */
  function Matching(rows: seq<Row>, terms: seq<string>): seq<Row> {
    if rows == [] then []
    else
      var before, r := Matching(rows[..|rows| - 1], terms), rows[|rows| - 1];
      if r.term in terms then before + [r] else before
  }

  datatype Scoring = Scoring(frequency: map<string, nat>, corpus: Corpus, ln: Log) {
    predicate Valid() { corpus.averageLength >= 0.0 }

    function Weight(r: Row): real
      requires Valid()
    {
      Bm25Score(r.frequency, if r.term in frequency then frequency[r.term] else 0, r.length,
                corpus.averageLength, corpus.children, ln)
    }
  }

  function ByChunk(rows: seq<Row>, sc: Scoring): seq<Entry>
    requires sc.Valid()
  {
    if rows == [] then []
    else ByChunk(rows[..|rows| - 1], sc) + [(rows[|rows| - 1].chunk, sc.Weight(rows[|rows| - 1]))]
  }

  function ByTerm(rows: seq<Row>, sc: Scoring): seq<Entry>
    requires sc.Valid()
  {
    if rows == [] then []
    else ByTerm(rows[..|rows| - 1], sc) + [(rows[|rows| - 1].term, sc.Weight(rows[|rows| - 1]))]
  }

  function ChunksWith(rows: seq<Row>, term: string): set<string> {
    set k | 0 <= k < |rows| && rows[k].term == term :: rows[k].chunk
  }

  /** `_bm25_rank`: `found` are the matching rows in whatever order the database returns them. */
  method Bm25Rank(store: Store, query: string, corpus: Option<Corpus>, found: seq<Row>, limit: nat,
                  tok: Tokenizer, ln: Log) returns (ranked: seq<string>, scores: map<string, real>)
    requires IndexOk(store, tok) && multiset(found) == multiset(Matching(store.rows, Unique(tok(query))))
    requires corpus.Some? ==> corpus.value.averageLength >= 0.0
    ensures tok(query) == [] || corpus.None? || corpus.value.children == 0 ==> ranked == [] && scores == map[]
    ensures tok(query) != [] && corpus.Some? && corpus.value.children > 0 ==>
      && DirectScores(scores, store.chunks, Unique(tok(query)), corpus.value, tok, ln)
      && IsTop(ranked, scores, limit)
  {
    hide Accumulates, Add, KeySum, DirectScores, Bm25Score, IndexOk, Matching, IsRanking, Before;
    var terms := Unique(tok(query));
    if terms == [] || corpus.None? || corpus.value.children == 0 {
      assert tok(query) != [] ==> tok(query)[0] in terms;
      return [], map[];
    }
    var frequency: map<string, nat> := map[];
    var n := 0;
    while n < |terms|
      invariant 0 <= n <= |terms|
      invariant forall k | 0 <= k < n :: terms[k] in frequency && frequency[terms[k]] == |ChunksWith(found, terms[k])|
    {
      frequency := frequency[terms[n] := |ChunksWith(found, terms[n])|];
      n := n + 1;
    }
    var sc := Scoring(frequency, corpus.value, ln);
    var d := Dict([], map[]);
    assert Accumulates(d, []) by { NothingAccumulated(); }
    n := 0;
    while n < |found|
      invariant 0 <= n <= |found|
      invariant Accumulates(d, ByChunk(found[..n], sc))
    {
      assert found[..n + 1][..n] == found[..n];
      AddAccumulates(d, ByChunk(found[..n], sc), found[n].chunk, sc.Weight(found[n]));
      d := Add(d, found[n].chunk, sc.Weight(found[n]));
      n := n + 1;
    }
    assert found[..n] == found;
    RankIsRanking(d, ByChunk(found, sc));
    var all := Rank(d.keys, d.values);
    TopOfRanking(all, d.values, limit);
    ScoresAreDirect(store, terms, found, sc, d, tok);
    return if |all| < limit then all else all[..limit], d.values;
  }

  lemma NothingAccumulated()
    ensures Accumulates(Dict([], map[]), [])
  {
  }

  lemma TopOfRanking(all: seq<string>, values: map<string, real>, limit: nat)
    requires IsRanking(all, values)
    ensures IsTop(if |all| < limit then all else all[..limit], values, limit)
  {
    hide StrLess;
    RankingSplit(all, values);
    ElementsCard(all);
    assert (set x | x in all) == values.Keys;
    var top := if |all| < limit then all else all[..limit];
    forall i, k | 0 <= i < |top| && k in values && k !in top ensures Before(values, top[i], k) {
      assert k in all;
      var j :| 0 <= j < |all| && all[j] == k;
      assert forall n | 0 <= n < |top| :: top[n] == all[n];
    }
  }

  // ---------------------------------------------------------------------------------------------
  // The two scorings agree
  // ---------------------------------------------------------------------------------------------

  lemma {:induction false} MatchingHas(rows: seq<Row>, terms: seq<string>, r: Row)
    ensures r in Matching(rows, terms) <==> r in rows && r.term in terms
  {
    if rows != [] { MatchingHas(rows[..|rows| - 1], terms, r); }
  }

  lemma FoundHas(rows: seq<Row>, terms: seq<string>, found: seq<Row>, r: Row)
    requires multiset(found) == multiset(Matching(rows, terms))
    ensures r in found <==> r in rows && r.term in terms
  {
    MatchingHas(rows, terms, r);
    assert r in found <==> r in multiset(found);
    assert r in Matching(rows, terms) <==> r in multiset(Matching(rows, terms));
  }

  /** The document frequency of a query term, counted over the rows, is the number of children whose
      text has it. */
  lemma FrequencyIsContaining(store: Store, terms: seq<string>, found: seq<Row>, term: string, tok: Tokenizer)
    requires IndexOk(store, tok) && term in terms
    requires multiset(found) == multiset(Matching(store.rows, terms))
    ensures ChunksWith(found, term) == Containing(store.chunks, term, tok)
  {
    hide IndexOk, Matching;
    OkMeans(store, tok);
    forall id ensures id in ChunksWith(found, term) <==> id in Containing(store.chunks, term, tok) {
      if id in ChunksWith(found, term) {
        var k :| 0 <= k < |found| && found[k].term == term && found[k].chunk == id;
        FoundHas(store.rows, terms, found, found[k]);
        var j :| 0 <= j < |store.rows| && store.rows[j] == found[k];
        assert RowTrue(store, store.rows[j], tok);
      }
      if id in Containing(store.chunks, term, tok) {
        var j :| 0 <= j < |store.rows| && store.rows[j].chunk == id && store.rows[j].term == term;
        FoundHas(store.rows, terms, found, store.rows[j]);
        var k :| 0 <= k < |found| && found[k] == store.rows[j];
      }
    }
  }

  lemma ByChunkStep(rows: seq<Row>, r: Row, sc: Scoring, id: string)
    requires sc.Valid()
    ensures KeySum(ByChunk(rows + [r], sc), id)
         == KeySum(ByChunk(rows, sc), id) + if r.chunk == id then sc.Weight(r) else 0.0
  {
    hide Bm25Score;
    assert (rows + [r])[..|rows|] == rows;
  }

  lemma {:induction false} ByChunkRemove(rows: seq<Row>, sc: Scoring, j: nat, id: string)
    requires sc.Valid() && j < |rows|
    ensures KeySum(ByChunk(rows, sc), id)
         == KeySum(ByChunk(rows[..j] + rows[j + 1..], sc), id) + if rows[j].chunk == id then sc.Weight(rows[j]) else 0.0
    decreases |rows|
  {
    hide Bm25Score, ByChunk, KeySum;
    var init, last := rows[..|rows| - 1], rows[|rows| - 1];
    assert rows == init + [last];
    ByChunkStep(init, last, sc, id);
    if j == |rows| - 1 {
      assert rows[..j] + rows[j + 1..] == init;
    } else {
      ByChunkRemove(init, sc, j, id);
      ByChunkStep(init[..j] + init[j + 1..], last, sc, id);
      assert rows[..j] + rows[j + 1..] == init[..j] + init[j + 1..] + [last];
    }
  }

  lemma FindRow(rows: seq<Row>, r: Row) returns (j: nat)
    requires r in multiset(rows)
    ensures j < |rows| && rows[j] == r
    ensures multiset(rows[..j] + rows[j + 1..]) == multiset(rows) - multiset{r}
  {
    assert r in rows;
    j :| j < |rows| && rows[j] == r;
    assert rows == rows[..j] + [r] + rows[j + 1..];
  }

  /** The order in which the database returns the rows does not matter. */
  lemma {:induction false} ByChunkPermuted(a: seq<Row>, b: seq<Row>, sc: Scoring, id: string)
    requires sc.Valid() && multiset(a) == multiset(b)
    ensures KeySum(ByChunk(a, sc), id) == KeySum(ByChunk(b, sc), id)
    decreases |a|
  {
    hide Bm25Score, ByChunk, KeySum;
    assert |a| == |multiset(a)| == |multiset(b)| == |b|;
    if a == [] {
      assert a == b;
    } else {
      var init, last := a[..|a| - 1], a[|a| - 1];
      assert a == init + [last];
      var j := FindRow(b, last);
      ByChunkPermuted(init, b[..j] + b[j + 1..], sc, id);
      ByChunkRemove(b, sc, j, id);
      ByChunkStep(init, last, sc, id);
    }
  }

  lemma {:induction false} ChunkTotal(rows: seq<Row>, sc: Scoring, id: string)
    requires sc.Valid()
    ensures KeySum(ByChunk(rows, sc), id) == Total(ByTerm(RowsOf(rows, id), sc))
  {
    hide Bm25Score;
    if rows != [] {
      var init, r := rows[..|rows| - 1], rows[|rows| - 1];
      ChunkTotal(init, sc, id);
      var own := RowsOf(init, id);
      assert (own + [r])[..|own|] == own;
    }
  }

  lemma {:induction false} MatchingOfChunk(rows: seq<Row>, terms: seq<string>, id: string)
    ensures RowsOf(Matching(rows, terms), id) == Matching(RowsOf(rows, id), terms)
  {
    if rows != [] {
      var init, r := rows[..|rows| - 1], rows[|rows| - 1];
      MatchingOfChunk(init, terms, id);
      assert (Matching(init, terms) + [r])[..|Matching(init, terms)|] == Matching(init, terms);
      assert (RowsOf(init, id) + [r])[..|RowsOf(init, id)|] == RowsOf(init, id);
    }
  }

  lemma ByTermStep(rows: seq<Row>, r: Row, sc: Scoring, term: string)
    requires sc.Valid()
    ensures KeySum(ByTerm(rows + [r], sc), term)
         == KeySum(ByTerm(rows, sc), term) + if r.term == term then sc.Weight(r) else 0.0
  {
    hide Bm25Score;
    assert (rows + [r])[..|rows|] == rows;
  }

  lemma {:induction false} MatchingKeepsTerm(rows: seq<Row>, terms: seq<string>, sc: Scoring, term: string)
    requires sc.Valid() && term in terms
    ensures KeySum(ByTerm(Matching(rows, terms), sc), term) == KeySum(ByTerm(rows, sc), term)
  {
    hide Bm25Score, ByTerm, KeySum;
    if rows != [] {
      var init := rows[..|rows| - 1];
      MatchingKeepsTerm(init, terms, sc, term);
      ByTermStep(Matching(init, terms), rows[|rows| - 1], sc, term);
      ByTermStep(init, rows[|rows| - 1], sc, term);
      assert rows == init + [rows[|rows| - 1]];
    }
  }

  lemma {:induction false} ByTermNames(rows: seq<Row>, sc: Scoring)
    requires sc.Valid()
    ensures |ByTerm(rows, sc)| == |rows|
    ensures forall i | 0 <= i < |rows| :: ByTerm(rows, sc)[i].0 == rows[i].term
  {
    hide Bm25Score;
    if rows != [] { ByTermNames(rows[..|rows| - 1], sc); }
  }

  lemma MatchingTerms(rows: seq<Row>, terms: seq<string>, sc: Scoring)
    requires sc.Valid()
    ensures var e := ByTerm(Matching(rows, terms), sc);
      forall i | 0 <= i < |e| :: e[i].0 in terms
  {
    hide ByTerm, Matching;
    var matching := Matching(rows, terms);
    ByTermNames(matching, sc);
    forall i | 0 <= i < |matching| ensures matching[i].term in terms { MatchingHas(rows, terms, matching[i]); }
  }

  /** What a child's own rows say of a term: the weight of its count, which is zero if it is absent. */
  lemma {:induction false} OwnRows(id: string, own: seq<string>, tokens: seq<string>, sc: Scoring, term: string)
    requires sc.Valid() && Distinct(own)
    ensures KeySum(ByTerm(RowsFor(id, own, tokens), sc), term)
         == if term in own then sc.Weight(Row(id, term, Count(tokens, term), |tokens|)) else 0.0
  {
    hide Bm25Score;
    if own != [] {
      var init, t := own[..|own| - 1], own[|own| - 1];
      OwnRows(id, init, tokens, sc, term);
      ByTermStep(RowsFor(id, init, tokens), Row(id, t, Count(tokens, t), |tokens|), sc, term);
      assert own == init + [t];
    }
  }

  ghost predicate CountsTexts(sc: Scoring, chunks: map<string, Chunk>, terms: seq<string>, tok: Tokenizer) {
    sc.Valid() && forall i | 0 <= i < |terms| ::
      terms[i] in sc.frequency && sc.frequency[terms[i]] == |Containing(chunks, terms[i], tok)|
  }

  lemma {:induction false} TextScoreIsTotal(id: string, tokens: seq<string>, some: seq<string>, terms: seq<string>,
                                            sc: Scoring, chunks: map<string, Chunk>, tok: Tokenizer)
    requires CountsTexts(sc, chunks, terms, tok) && forall i | 0 <= i < |some| :: some[i] in terms
    ensures TextScore(tokens, some, chunks, sc.corpus, tok, sc.ln)
         == TotalBy(some, ByTerm(Matching(RowsFor(id, Unique(tokens), tokens), terms), sc))
  {
    hide Containing, InverseFrequency, Denominator, RowsFor, Matching, ByTerm, KeySum, Unique;
    if some != [] {
      var init, t := some[..|some| - 1], some[|some| - 1];
      TextScoreIsTotal(id, tokens, init, terms, sc, chunks, tok);
      MatchingKeepsTerm(RowsFor(id, Unique(tokens), tokens), terms, sc, t);
      OwnRows(id, Unique(tokens), tokens, sc, t);
    }
  }

  lemma ChunkScoreIsTextScore(store: Store, terms: seq<string>, found: seq<Row>, sc: Scoring, id: string,
                              tok: Tokenizer)
    requires IndexOk(store, tok) && multiset(found) == multiset(Matching(store.rows, terms)) && Distinct(terms)
    requires CountsTexts(sc, store.chunks, terms, tok) && IsChild(store.chunks, id)
    ensures KeySum(ByChunk(found, sc), id)
         == TextScore(tok(store.chunks[id].text), terms, store.chunks, sc.corpus, tok, sc.ln)
  {
    hide Matching, ByChunk, ByTerm, KeySum, Total, TotalBy, TextScore;
    hide CountsAgree, ParentsPresent, RowsFor, RowsOf, Unique;
    var matching, tokens := Matching(store.rows, terms), tok(store.chunks[id].text);
    var mine := Matching(RowsFor(id, Unique(tokens), tokens), terms);
    ByChunkPermuted(found, matching, sc, id);
    ChunkTotal(matching, sc, id);
    MatchingOfChunk(store.rows, terms, id);
    assert RowsOf(store.rows, id) == Expected(store.chunks, id, tok);
    MatchingTerms(RowsFor(id, Unique(tokens), tokens), terms, sc);
    GroupSum(terms, ByTerm(mine, sc));
    TextScoreIsTotal(id, tokens, terms, terms, sc, store.chunks, tok);
  }

  lemma {:induction false} ByChunkNames(rows: seq<Row>, sc: Scoring)
    requires sc.Valid()
    ensures |ByChunk(rows, sc)| == |rows|
    ensures forall i | 0 <= i < |rows| :: ByChunk(rows, sc)[i].0 == rows[i].chunk
  {
    hide Bm25Score;
    if rows != [] { ByChunkNames(rows[..|rows| - 1], sc); }
  }

  lemma ScoredExactlyHits(store: Store, terms: seq<string>, found: seq<Row>, sc: Scoring, id: string, tok: Tokenizer)
    requires IndexOk(store, tok) && multiset(found) == multiset(Matching(store.rows, terms)) && sc.Valid()
    ensures HasEntry(ByChunk(found, sc), id) <==> Hits(store.chunks, terms, tok, id)
  {
    hide IndexOk, Matching, ByChunk;
    OkMeans(store, tok);
    ByChunkNames(found, sc);
    if HasEntry(ByChunk(found, sc), id) {
      var k :| 0 <= k < |found| && ByChunk(found, sc)[k].0 == id;
      FoundHas(store.rows, terms, found, found[k]);
      var j :| 0 <= j < |store.rows| && store.rows[j] == found[k];
      assert RowTrue(store, store.rows[j], tok);
      var n :| 0 <= n < |terms| && terms[n] == found[k].term;
    }
    if Hits(store.chunks, terms, tok, id) {
      var n :| 0 <= n < |terms| && terms[n] in tok(store.chunks[id].text);
      var j :| 0 <= j < |store.rows| && store.rows[j].chunk == id && store.rows[j].term == terms[n];
      FoundHas(store.rows, terms, found, store.rows[j]);
      var k :| 0 <= k < |found| && found[k] == store.rows[j];
      assert ByChunk(found, sc)[k].0 == id;
    }
  }

  lemma ScoresAreDirect(store: Store, terms: seq<string>, found: seq<Row>, sc: Scoring, d: Dict, tok: Tokenizer)
    requires IndexOk(store, tok) && multiset(found) == multiset(Matching(store.rows, terms)) && Distinct(terms)
    requires sc.Valid() && Accumulates(d, ByChunk(found, sc))
    requires forall i | 0 <= i < |terms| ::
      terms[i] in sc.frequency && sc.frequency[terms[i]] == |ChunksWith(found, terms[i])|
    ensures DirectScores(d.values, store.chunks, terms, sc.corpus, tok, sc.ln)
  {
    hide IndexOk, Matching, ByChunk, KeySum, HasEntry, Hits, TextScore, Containing, ChunksWith, Distinct;
    forall i | 0 <= i < |terms| ensures sc.frequency[terms[i]] == |Containing(store.chunks, terms[i], tok)| {
      FrequencyIsContaining(store, terms, found, terms[i], tok);
    }
    forall id: string ensures id in d.values <==> Hits(store.chunks, terms, tok, id) {
      ScoredExactlyHits(store, terms, found, sc, id, tok);
    }
    forall id: string | id in d.values && id in store.chunks
      ensures d.values[id] == TextScore(tok(store.chunks[id].text), terms, store.chunks, sc.corpus, tok, sc.ln)
    {
      HitsAreChildren(store.chunks, terms, tok, id);
      ChunkScoreIsTextScore(store, terms, found, sc, id, tok);
    }
  }

  lemma HitsAreChildren(chunks: map<string, Chunk>, terms: seq<string>, tok: Tokenizer, id: string)
    requires Hits(chunks, terms, tok, id)
    ensures IsChild(chunks, id)
  {
  }

  // ---------------------------------------------------------------------------------------------
  // Statistics that lag behind
  // ---------------------------------------------------------------------------------------------

  /** The statistics count at least the children that have the term. */
  predicate Counted(chunks: map<string, Chunk>, corpus: Corpus, tok: Tokenizer, term: string) {
    |Containing(chunks, term, tok)| <= corpus.children
  }

  lemma TermSign(id: string, t: string, chunks: map<string, Chunk>, corpus: Corpus, tok: Tokenizer, ln: Log)
    requires corpus.averageLength >= 0.0 && corpus.children > 0 && IsLog(ln) && IsChild(chunks, id)
    ensures var tokens := tok(chunks[id].text);
      var w := Bm25Score(Count(tokens, t), |Containing(chunks, t, tok)|, |tokens|, corpus.averageLength,
                         corpus.children, ln);
      if t !in tokens then w == 0.0 else if Counted(chunks, corpus, tok, t) then w > 0.0 else w < 0.0
  {
    hide IsLog, InverseFrequency, Denominator;
    var tokens, having := tok(chunks[id].text), Containing(chunks, t, tok);
    if t in tokens {
      assert id in having;
      assert t in multiset(tokens);
      MatchHelpsExactly(Count(tokens, t), |having|, |tokens|, corpus.averageLength, corpus.children, ln);
    }
  }

  /** A child that has none of these terms scores zero, and one that has some scores above zero if
      each of them is counted. */
  lemma {:induction false} TextScoreSign(id: string, terms: seq<string>, chunks: map<string, Chunk>, corpus: Corpus,
                                         tok: Tokenizer, ln: Log)
    requires corpus.averageLength >= 0.0 && corpus.children > 0 && IsLog(ln) && IsChild(chunks, id)
    requires forall n | 0 <= n < |terms| :: Counted(chunks, corpus, tok, terms[n])
    ensures TextScore(tok(chunks[id].text), terms, chunks, corpus, tok, ln) >= 0.0
    ensures TextScore(tok(chunks[id].text), terms, chunks, corpus, tok, ln) > 0.0 <==> Hits(chunks, terms, tok, id)
  {
    hide Bm25Score, IsLog, Counted;
    if terms != [] {
      var init, t := terms[..|terms| - 1], terms[|terms| - 1];
      TextScoreSign(id, init, chunks, corpus, tok, ln);
      TermSign(id, t, chunks, corpus, tok, ln);
      HitsSplit(chunks, terms, tok, id);
    }
  }

  lemma HitsSplit(chunks: map<string, Chunk>, terms: seq<string>, tok: Tokenizer, id: string)
    requires IsChild(chunks, id) && terms != []
    ensures var t := terms[|terms| - 1];
      Hits(chunks, terms, tok, id) <==> Hits(chunks, terms[..|terms| - 1], tok, id) || t in tok(chunks[id].text)
  {
    var init, tokens := terms[..|terms| - 1], tok(chunks[id].text);
    if terms[|terms| - 1] in tokens { assert terms[|terms| - 1] in tokens; }
    assert forall n | 0 <= n < |init| :: init[n] == terms[n];
  }

  /** Every chunk that any query finds scores above zero exactly if no term occurs in more children
      than the statistics count. */
  lemma ScoresAboveZeroExactly(chunks: map<string, Chunk>, corpus: Corpus, tok: Tokenizer, ln: Log)
    requires corpus.averageLength >= 0.0 && corpus.children > 0 && IsLog(ln)
    ensures (forall terms, id | Hits(chunks, terms, tok, id) ::
               TextScore(tok(chunks[id].text), terms, chunks, corpus, tok, ln) > 0.0)
       <==> (forall t: string :: Counted(chunks, corpus, tok, t))
  {
    hide IsLog, TextScore, Counted;
    if forall t: string :: Counted(chunks, corpus, tok, t) {
      forall terms, id | Hits(chunks, terms, tok, id)
        ensures TextScore(tok(chunks[id].text), terms, chunks, corpus, tok, ln) > 0.0
      {
        TextScoreSign(id, terms, chunks, corpus, tok, ln);
      }
    } else {
      var t: string :| !Counted(chunks, corpus, tok, t);
      var id := UncountedHit(chunks, corpus, tok, ln, t);
    }
  }

  lemma UncountedHit(chunks: map<string, Chunk>, corpus: Corpus, tok: Tokenizer, ln: Log, t: string)
    returns (id: string)
    requires corpus.averageLength >= 0.0 && corpus.children > 0 && IsLog(ln) && !Counted(chunks, corpus, tok, t)
    ensures Hits(chunks, [t], tok, id) && TextScore(tok(chunks[id].text), [t], chunks, corpus, tok, ln) < 0.0
  {
    hide IsLog, Bm25Score;
    assert Containing(chunks, t, tok) != {};
    id :| id in Containing(chunks, t, tok);
    TermSign(id, t, chunks, corpus, tok, ln);
    assert [t][0] in tok(chunks[id].text) && [t][..0] == [];
    assert TextScore(tok(chunks[id].text), [], chunks, corpus, tok, ln) == 0.0;
  }

  lemma AllTermsCounted(chunks: map<string, Chunk>, corpus: Corpus, tok: Tokenizer)
    requires |Searchable(chunks, {})| <= corpus.children
    ensures forall t: string :: Counted(chunks, corpus, tok, t)
  {
    forall t: string ensures Counted(chunks, corpus, tok, t) {
      assert Containing(chunks, t, tok) <= Searchable(chunks, {});
      SubsetCard(Containing(chunks, t, tok), Searchable(chunks, {}));
    }
  }

  /** So it is in every state that calls can leave, as long as nothing is archived: after a call that
      completes, whatever earlier calls left half done; and always, if the embedding client keeps its
      guarantee of one vector for each text. */
  lemma {:induction false} FoundChunksScoreAboveZero(run: seq<Call>, b: Base, scores: map<string, real>,
                                                     terms: seq<string>, tok: Tokenizer, ln: Log, id: string)
    requires Play(NEW_BASE, run, tok) == Some(b) && (EndsComplete(run) || Undisturbed(run))
    requires b.corpus.Some? && b.corpus.value.averageLength >= 0.0 && IsLog(ln)
    requires DirectScores(scores, b.store.chunks, terms, b.corpus.value, tok, ln) && id in scores
    ensures scores[id] > 0.0
  {
    hide TextScore, IsLog, Play, EndsComplete, Undisturbed, Searchable, Hits, Counted, DirectScores;
    if EndsComplete(run) { CompletionCountsExactly(run, tok); } else { StatisticsCountAll(run, tok); }
    CountedScoresAboveZero(b, scores, terms, tok, ln, id);
  }

  lemma CountedScoresAboveZero(b: Base, scores: map<string, real>, terms: seq<string>, tok: Tokenizer, ln: Log,
                               id: string)
    requires AllCounted(b) && b.corpus.Some? && b.corpus.value.averageLength >= 0.0 && IsLog(ln)
    requires DirectScores(scores, b.store.chunks, terms, b.corpus.value, tok, ln) && id in scores
    ensures scores[id] > 0.0
  {
    hide TextScore, IsLog, Searchable, Hits, Counted;
    var chunks, corpus := b.store.chunks, b.corpus.value;
    AllTermsCounted(chunks, corpus, tok);
    HitsAreChildren(chunks, terms, tok, id);
    SomeChild(chunks, id);
    TextScoreSign(id, terms, chunks, corpus, tok, ln);
  }

  lemma SomeChild(chunks: map<string, Chunk>, id: string)
    requires IsChild(chunks, id)
    ensures |Searchable(chunks, {})| > 0
  {
    assert id in Searchable(chunks, {});
  }
}
