/** The end of a search: loading the fused candidates, reordering them, and attaching to each the text
    of the parent it was cut from. */
module Search {
  import opened Wrappers
  import opened Numbers
  import opened Sequences
  import opened Index
  import opened Rerank

  datatype Item = Item(id: string, text: string, parent: Option<string>, parentText: Option<string>)

  /** `_load_candidates`: the candidates that still exist, in the order of the identifiers. */
  function Loaded(chunks: map<string, Chunk>, ids: seq<string>): (r: seq<string>)
    ensures forall i | 0 <= i < |r| :: r[i] in chunks && r[i] in ids
  {
    if ids == [] then []
    else
      var before, id := Loaded(chunks, ids[..|ids| - 1]), ids[|ids| - 1];
      assert ids == ids[..|ids| - 1] + [id];
      if id in chunks then before + [id] else before
  }

  function ItemOf(chunks: map<string, Chunk>, id: string): Item
    requires id in chunks
  {
    Item(id, chunks[id].text, chunks[id].parent, None)
  }

  /** The text of the row's parent if there is one, and else its own. */
  function ContextOf(chunks: map<string, Chunk>, row: Item): string {
    if row.parent.Some? && row.parent.value in chunks then chunks[row.parent.value].text else row.text
  }

  /** `_map_parent_context`, which writes into every row. */
  method MapParentContext(chunks: map<string, Chunk>, rows: array<Item>)
    modifies rows
    ensures forall i | 0 <= i < rows.Length ::
      rows[i] == old(rows[i]).(parentText := Some(ContextOf(chunks, old(rows[i]))))
  {
    var ids := set i | 0 <= i < rows.Length && rows[i].parent.Some? :: rows[i].parent.value;
    assert forall i | 0 <= i < rows.Length && rows[i].parent.Some? :: rows[i].parent.value in ids;
    var n := 0;
    if ids == {} {
      while n < rows.Length
        invariant 0 <= n <= rows.Length
        invariant forall i | 0 <= i < n :: rows[i] == old(rows[i]).(parentText := Some(ContextOf(chunks, old(rows[i]))))
        invariant forall i | n <= i < rows.Length :: rows[i] == old(rows[i])
      {
        rows[n] := rows[n].(parentText := Some(rows[n].text));
        n := n + 1;
      }
      return;
    }
    var parents := map id | id in ids && id in chunks :: chunks[id].text;
    while n < rows.Length
      invariant 0 <= n <= rows.Length
      invariant forall i | 0 <= i < n :: rows[i] == old(rows[i]).(parentText := Some(ContextOf(chunks, old(rows[i]))))
      invariant forall i | n <= i < rows.Length :: rows[i] == old(rows[i])
    {
      var p := rows[n].parent;
      rows[n] := rows[n].(parentText := Some(if p.Some? && p.value in parents then parents[p.value] else rows[n].text));
      n := n + 1;
    }
  }

  function Take(ids: seq<string>, n: nat): seq<string> { if |ids| <= n then ids else ids[..n] }

  /** The identifiers a search returns. */
  function Results(chunks: map<string, Chunk>, fused: seq<string>, fusionTopK: nat,
                   answer: Result<seq<string>, string>, rerankTopK: nat, limit: nat): seq<string>
  {
    var rows := Reranked(Loaded(chunks, Take(fused, fusionTopK)), answer, rerankTopK);
    Take(rows, if limit == 0 then rerankTopK else limit)
  }

  /** Nothing is invented: only fused candidates that exist come back, none of them twice, and no
      more than asked for. */
  lemma ResultsAreCandidates(chunks: map<string, Chunk>, fused: seq<string>, fusionTopK: nat,
                             answer: Result<seq<string>, string>, rerankTopK: nat, limit: nat)
    requires Distinct(fused)
    ensures var r := Results(chunks, fused, fusionTopK, answer, rerankTopK, limit);
      && (forall i | 0 <= i < |r| :: r[i] in chunks && r[i] in fused)
      && Distinct(r) && |r| <= if limit == 0 then rerankTopK else limit
  {
    hide Reranked;
    var top := Take(fused, fusionTopK);
    var loaded := Loaded(chunks, top);
    var sorted := Reranked(loaded, answer, rerankTopK);
    LoadedDistinct(chunks, top);
    RerankPermutes(loaded, answer, rerankTopK);
    PermutationDistinct(sorted, loaded);
    forall i | 0 <= i < |sorted| ensures sorted[i] in chunks && sorted[i] in fused {
      assert sorted[i] in multiset(sorted);
      assert sorted[i] in loaded;
      assert sorted[i] in top;
    }
  }

  /** A search that asks for everything loses no candidate either, whatever the model answers. */
  lemma AllCandidatesComeBack(chunks: map<string, Chunk>, fused: seq<string>,
                              answer: Result<seq<string>, string>, rerankTopK: nat, limit: nat)
    requires |fused| <= (if limit == 0 then rerankTopK else limit)
    ensures multiset(Results(chunks, fused, |fused|, answer, rerankTopK, limit)) == multiset(Loaded(chunks, fused))
  {
    hide Reranked;
    RerankPermutes(Loaded(chunks, fused), answer, rerankTopK);
    LoadedShorter(chunks, fused);
    var sorted := Reranked(Loaded(chunks, fused), answer, rerankTopK);
    assert |sorted| == |multiset(sorted)| == |Loaded(chunks, fused)|;
  }

  lemma {:induction false} LoadedShorter(chunks: map<string, Chunk>, ids: seq<string>)
    ensures |Loaded(chunks, ids)| <= |ids|
  {
    if ids != [] { LoadedShorter(chunks, ids[..|ids| - 1]); }
  }

  lemma {:induction false} LoadedDistinct(chunks: map<string, Chunk>, ids: seq<string>)
    requires Distinct(ids)
    ensures Distinct(Loaded(chunks, ids))
  {
    if ids != [] {
      var init := ids[..|ids| - 1];
      LoadedDistinct(chunks, init);
      assert ids[|ids| - 1] !in init;
    }
  }

  lemma {:induction false} LoadedIsKept(chunks: map<string, Chunk>, ids: seq<string>)
    ensures Loaded(chunks, ids) == Kept(ids, chunks.Keys)
  {
    hide Kept;
    if ids == [] {
      KeptWhole([], chunks.Keys);
    } else {
      var init, id := ids[..|ids| - 1], ids[|ids| - 1];
      LoadedIsKept(chunks, init);
      assert ids == init + [id];
      KeptSplit(init, [id], chunks.Keys);
      KeptWhole([id], chunks.Keys);
    }
  }

  /** The order of the results: the fused one if the call failed; and if the first names of the answer
      are distinct, these and then all other candidates in the fused order. */
  lemma ResultsInOrder(chunks: map<string, Chunk>, fused: seq<string>, fusionTopK: nat,
                       answer: Result<seq<string>, string>, rerankTopK: nat, limit: nat)
    requires Distinct(fused)
    ensures var cand := Kept(fused[..Min(fusionTopK, |fused|)], chunks.Keys);
      var n := Min(|cand|, if limit == 0 then rerankTopK else limit);
      var r := Results(chunks, fused, fusionTopK, answer, rerankTopK, limit);
      && |r| == n
      && (answer.Failure? ==> r == cand[..n])
      && (answer.Success? ==> forall named | FirstNames(named, answer.value, cand, rerankTopK) && Distinct(named) ::
            n <= |FollowedBy(named, cand)| && r == FollowedBy(named, cand)[..n])
  {
    hide StableSort, Kept, FirstNames, Cleaned, FollowedBy;
    var top, cand := Take(fused, fusionTopK), Kept(fused[..Min(fusionTopK, |fused|)], chunks.Keys);
    assert top == fused[..Min(fusionTopK, |fused|)];
    assert Distinct(top);
    LoadedIsKept(chunks, top);
    LoadedDistinct(chunks, top);
    RerankPermutes(cand, answer, rerankTopK);
    SameLength(Reranked(cand, answer, rerankTopK), cand);
    if answer.Success? {
      forall named | FirstNames(named, answer.value, cand, rerankTopK) && Distinct(named)
        ensures Reranked(cand, answer, rerankTopK) == FollowedBy(named, cand)
      {
        RerankedFollows(cand, answer.value, rerankTopK, named);
      }
    }
  }

  /** These rows first, and then the others in their order. */
  function FollowedBy(named: seq<string>, rows: seq<string>): seq<string> {
    named + Kept(rows, (set x | x in rows) - (set x | x in named))
  }

  lemma SameLength(a: seq<string>, b: seq<string>)
    requires multiset(a) == multiset(b)
    ensures |a| == |b|
  {
    assert |a| == |multiset(a)| == |multiset(b)| == |b|;
  }

  lemma RerankedFollows(cand: seq<string>, answer: seq<string>, limit: nat, named: seq<string>)
    requires Distinct(cand) && FirstNames(named, answer, cand, limit) && Distinct(named)
    ensures Reranked(cand, Success(answer), limit) == FollowedBy(named, cand)
  {
    hide StableSort, Kept, Cleaned;
    CleanedIsFirst(named, answer, cand, limit);
    NamesAreCandidates(named, answer, cand, limit);
    RerankFollowsAnswer(named, cand);
    NotInIsKept(cand, named, (set x | x in cand) - (set x | x in named));
  }

  lemma NamesAreCandidates(named: seq<string>, answer: seq<string>, cand: seq<string>, limit: nat)
    requires FirstNames(named, answer, cand, limit)
    ensures forall i | 0 <= i < |named| :: named[i] in cand
  {
    var n :| 0 <= n <= |answer| && named == Kept(answer[..n], set x | x in cand);
    KeptMember(answer[..n], set x | x in cand);
  }

  lemma {:induction false} KeptMember(s: seq<string>, keep: set<string>)
    ensures forall i | 0 <= i < |Kept(s, keep)| :: Kept(s, keep)[i] in keep
  {
    if s != [] { KeptMember(s[1..], keep); }
  }

  /** The row that a search returns for a chunk, with the text of its parent. */
  predicate RowOf(row: Item, chunks: map<string, Chunk>, id: string) {
    && id in chunks
    && row.id == id && row.text == chunks[id].text && row.parent == chunks[id].parent
    && var p := chunks[id].parent;
       row.parentText == Some(if p.Some? && p.value in chunks then chunks[p.value].text else chunks[id].text)
  }

  /** These are the rows of these chunks, in this order. */
  ghost predicate RowsOfChunks(rows: seq<Item>, chunks: map<string, Chunk>, ids: seq<string>) {
    |rows| == |ids| && forall i | 0 <= i < |ids| :: RowOf(rows[i], chunks, ids[i])
  }

  /** The last part of `search`: the candidates are those of the first `fusionTopK` fused identifiers
      that exist.  An answer that names distinct candidates comes first, in its order, and all others
      follow in the fused order; of an answer with foreign or too many names the first `rerankTopK`
      candidate names count; after a failed call the fused order stays. */
  method FinishSearch(chunks: map<string, Chunk>, fused: seq<string>, fusionTopK: nat,
                      answer: Result<seq<string>, string>, rerankTopK: nat, limit: nat) returns (rows: array<Item>)
    requires Distinct(fused)
    ensures fresh(rows)
    ensures RowsOfChunks(rows[..], chunks, Results(chunks, fused, fusionTopK, answer, rerankTopK, limit))
    ensures var cand := Kept(fused[..Min(fusionTopK, |fused|)], chunks.Keys);
      var n := Min(|cand|, if limit == 0 then rerankTopK else limit);
      && (answer.Failure? ==> RowsOfChunks(rows[..], chunks, cand[..n]))
      && (answer.Success? ==> forall named | FirstNames(named, answer.value, cand, rerankTopK) && Distinct(named) ::
            n <= |FollowedBy(named, cand)| && RowsOfChunks(rows[..], chunks, FollowedBy(named, cand)[..n]))
      && (answer.Success? && Distinct(answer.value) && |answer.value| <= rerankTopK
          && (forall i | 0 <= i < |answer.value| :: answer.value[i] in cand) ==>
            n <= |FollowedBy(answer.value, cand)|
            && RowsOfChunks(rows[..], chunks, FollowedBy(answer.value, cand)[..n]))
  {
    hide Reranked, Loaded, Kept, FirstNames, FollowedBy, Results;
    var loaded := Loaded(chunks, Take(fused, fusionTopK));
    var sorted := Reranked(loaded, answer, rerankTopK);
    var ids := Take(sorted, if limit == 0 then rerankTopK else limit);
    ResultsUnfold(chunks, fused, fusionTopK, answer, rerankTopK, limit);
    ResultsAreCandidates(chunks, fused, fusionTopK, answer, rerankTopK, limit);
    ResultsInOrder(chunks, fused, fusionTopK, answer, rerankTopK, limit);
    if answer.Success? {
      var cand := Kept(fused[..Min(fusionTopK, |fused|)], chunks.Keys);
      if |answer.value| <= rerankTopK && forall i | 0 <= i < |answer.value| :: answer.value[i] in cand {
        PlainAnswer(answer.value, cand, rerankTopK);
      }
    }
    rows := new Item[|ids|](i requires 0 <= i < |ids| => ItemOf(chunks, ids[i]));
    MapParentContext(chunks, rows);
  }

  lemma ResultsUnfold(chunks: map<string, Chunk>, fused: seq<string>, fusionTopK: nat,
                      answer: Result<seq<string>, string>, rerankTopK: nat, limit: nat)
    ensures Results(chunks, fused, fusionTopK, answer, rerankTopK, limit)
         == Take(Reranked(Loaded(chunks, Take(fused, fusionTopK)), answer, rerankTopK),
                 if limit == 0 then rerankTopK else limit)
  {
  }

  /** In every store the ingestions can reach, the context of a returned child is never the fallback:
      it is the text of the parent chunk it was cut from, in the same document. */
  lemma {:induction false} ContextIsTheParents(run: seq<Call>, tok: Tokenizer, id: string)
    requires Play(NEW_BASE, run, tok).Some? && IsChild(Play(NEW_BASE, run, tok).value.store.chunks, id)
    ensures var chunks := Play(NEW_BASE, run, tok).value.store.chunks;
      var p := chunks[id].parent.value;
      p in chunks && chunks[p].parent == None && chunks[p].document == chunks[id].document
      && ContextOf(chunks, ItemOf(chunks, id)) == chunks[p].text
  {
    hide Play, RowsAgree, CountsAgree;
    PlayOk(run, tok);
  }
}
