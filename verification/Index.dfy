/** The chunks of the ingested documents and the term index built from them. */
module Index {
  import opened Wrappers
  import opened Sequences
  import opened Tokens
  import opened Chunking

  /** A parent chunk has no parent of its own; a child chunk names the parent it was cut from. */
  datatype Chunk = Chunk(document: string, parent: Option<string>, ordinal: nat, text: string,
                         tokenCount: nat, start: nat, end: nat)

  datatype Row = Row(chunk: string, term: string, frequency: nat, length: nat)

  datatype Store = Store(chunks: map<string, Chunk>, rows: seq<Row>)

  type Tokenizer = string -> seq<string>

  /** One call: the document, its extracted text if it could be read, how many vectors the embedding
      service returned if it answered, and the identifiers given to the chunks it creates. */
  datatype Ingestion = Ingestion(document: string, source: Result<string, string>, embedding: Result<nat, string>,
                                 parentIds: seq<string>, childIds: seq<string>)

  // ---------------------------------------------------------------------------------------------
  // One ingestion
  // ---------------------------------------------------------------------------------------------

  function KeepRows(rows: seq<Row>, gone: set<string>): seq<Row> {
    if rows == [] then []
    else
      var before, r := KeepRows(rows[..|rows| - 1], gone), rows[|rows| - 1];
      if r.chunk in gone then before else before + [r]
  }

  function ChunksOf(chunks: map<string, Chunk>, document: string): set<string> {
    set id | id in chunks && chunks[id].document == document
  }

  /** The two `delete` statements. */
  function Cleared(store: Store, document: string): Store {
    var gone := ChunksOf(store.chunks, document);
    Store(store.chunks - gone, KeepRows(store.rows, gone))
  }

  function ParentChunk(document: string, p: Piece, tok: Tokenizer): Chunk {
    Chunk(document, None, p.ordinal, p.text, |tok(p.text)|, p.start, p.end)
  }

  function AddParents(store: Store, document: string, parents: seq<Piece>, ids: seq<string>, tok: Tokenizer): Store
    requires |parents| <= |ids|
  {
    if parents == [] then store
    else
      var n := |parents| - 1;
      var before := AddParents(store, document, parents[..n], ids, tok);
      before.(chunks := before.chunks[ids[n] := ParentChunk(document, parents[n], tok)])
  }

  function RowsFor(id: string, terms: seq<string>, tokens: seq<string>): seq<Row> {
    if terms == [] then []
    else
      var t := terms[|terms| - 1];
      RowsFor(id, terms[..|terms| - 1], tokens) + [Row(id, t, Count(tokens, t), |tokens|)]
  }

  /** The term rows of a child: one a distinct token, with its count and the child's length. */
  function TermRows(id: string, text: string, tok: Tokenizer): seq<Row> {
    RowsFor(id, Unique(tok(text)), tok(text))
  }

  predicate Parented(children: seq<Child>, parents: nat) {
    forall i | 0 <= i < |children| :: children[i].parent.ordinal < parents
  }

  function ChildChunk(document: string, parent: string, c: Child, tok: Tokenizer): Chunk {
    Chunk(document, Some(parent), c.ordinal, c.text, |tok(c.text)|, c.start, c.end)
  }

  function AddChildren(store: Store, document: string, children: seq<Child>,
                       parentIds: seq<string>, ids: seq<string>, tok: Tokenizer): Store
    requires |children| <= |ids| && Parented(children, |parentIds|)
  {
    if children == [] then store
    else
      var n := |children| - 1;
      var before := AddChildren(store, document, children[..n], parentIds, ids, tok);
      var c := children[n];
      Store(before.chunks[ids[n] := ChildChunk(document, parentIds[c.parent.ordinal], c, tok)],
            before.rows + TermRows(ids[n], c.text, tok))
  }

  /** How many of the children get written: all of them, or those before the first one without a
      vector when some vectors are missing, or none when there is no answer. */
  function Written(children: nat, embedding: Result<nat, string>): (n: nat)
    ensures n <= children
  {
    match embedding
    case Failure(_) => 0
    case Success(vectors) => if vectors == 0 || vectors >= children then children else vectors
  }

  predicate Completes(i: Ingestion) {
    i.source.Success? &&
    var children := |ChildrenOfAll(Parents(i.source.value))|;
    Written(children, i.embedding) == children
  }

  /** The identifiers are new, and there is one for each chunk. */
  ghost predicate FreshIds(store: Store, i: Ingestion) {
    && Distinct(i.parentIds + i.childIds)
    && (forall n | 0 <= n < |i.parentIds + i.childIds| :: (i.parentIds + i.childIds)[n] !in store.chunks)
    && (i.source.Success? ==>
          && |i.parentIds| == |Parents(i.source.value)|
          && |i.childIds| == |ChildrenOfAll(Parents(i.source.value))|)
  }

  /** The store after a call, committed whether the call succeeds or fails. */
  ghost function Ingested(store: Store, i: Ingestion, tok: Tokenizer): Store
    requires FreshIds(store, i)
  {
    match i.source
    case Failure(_) => store
    case Success(text) =>
      var parents := Parents(text);
      var children := ChildrenOfAll(parents);
      ChildrenParented(text);
      var base := AddParents(Cleared(store, i.document), i.document, parents, i.parentIds, tok);
      AddChildren(base, i.document, children[..Written(|children|, i.embedding)], i.parentIds, i.childIds, tok)
  }

  lemma {:induction false} ChildrenOfParents(parents: seq<Piece>, n: nat)
    requires forall i | 0 <= i < |parents| :: parents[i].ordinal < n
    ensures Parented(ChildrenOfAll(parents), n)
  {
    hide ChildrenOf;
    if parents != [] {
      var init, p := parents[..|parents| - 1], parents[|parents| - 1];
      ChildrenOfParents(init, n);
      ChildrenHaveParent(p);
    }
  }

  lemma ChildrenHaveParent(p: Piece)
    ensures forall i | 0 <= i < |ChildrenOf(p)| :: ChildrenOf(p)[i].parent == p
  {
    hide Windows, Normalize;
    var text := Normalize(p.text);
    var pieces := if text == "" then [] else Windows(text, CHILD_SIZE, CHILD_OVERLAP);
    forall i | 0 <= i < |ChildrenOf(p)| ensures ChildrenOf(p)[i].parent == p {
      assert ChildrenOf(p)[i] == ChildOf(p, pieces[i]);
    }
  }

  lemma ChildrenParented(text: string)
    ensures Parented(ChildrenOfAll(Parents(text)), |Parents(text)|)
  {
    hide Parents, ChildrenOfAll;
    ParentsOk(text);
    ChildrenOfParents(Parents(text), |Parents(text)|);
  }

  // ---------------------------------------------------------------------------------------------
  // The index agrees with the texts
  // ---------------------------------------------------------------------------------------------

  /** The rows of one chunk. */
  function RowsOf(rows: seq<Row>, id: string): seq<Row> {
    if rows == [] then []
    else
      var before, r := RowsOf(rows[..|rows| - 1], id), rows[|rows| - 1];
      if r.chunk == id then before + [r] else before
  }

  predicate IsChild(chunks: map<string, Chunk>, id: string) { id in chunks && chunks[id].parent.Some? }

  /** What the rows of an identifier have to be: the token counts of its text if it is a child, and
      nothing if it is a parent or no chunk at all. */
  function Expected(chunks: map<string, Chunk>, id: string, tok: Tokenizer): seq<Row> {
    if IsChild(chunks, id) then TermRows(id, chunks[id].text, tok) else []
  }

  ghost predicate RowsAgree(store: Store, tok: Tokenizer) {
    forall id: string :: RowsOf(store.rows, id) == Expected(store.chunks, id, tok)
  }

  ghost predicate CountsAgree(store: Store, tok: Tokenizer) {
    forall id | id in store.chunks :: store.chunks[id].tokenCount == |tok(store.chunks[id].text)|
  }

  /** A child's parent is a parent chunk of the same document. */
  ghost predicate ParentsPresent(chunks: map<string, Chunk>) {
    forall id | id in chunks && chunks[id].parent.Some? ::
      var p := chunks[id].parent.value;
      p in chunks && chunks[p].parent.None? && chunks[p].document == chunks[id].document
  }

  ghost predicate IndexOk(store: Store, tok: Tokenizer) {
    RowsAgree(store, tok) && CountsAgree(store, tok) && ParentsPresent(store.chunks)
  }

  lemma {:induction false} RowsOfAppend(a: seq<Row>, b: seq<Row>, id: string)
    ensures RowsOf(a + b, id) == RowsOf(a, id) + RowsOf(b, id)
  {
    if b == [] {
      assert a + b == a;
    } else {
      assert (a + b)[..|a + b| - 1] == a + b[..|b| - 1];
      RowsOfAppend(a, b[..|b| - 1], id);
    }
  }

  lemma {:induction false} RowsOfKept(rows: seq<Row>, gone: set<string>, id: string)
    ensures RowsOf(KeepRows(rows, gone), id) == if id in gone then [] else RowsOf(rows, id)
  {
    if rows != [] {
      var before, r := KeepRows(rows[..|rows| - 1], gone), rows[|rows| - 1];
      RowsOfKept(rows[..|rows| - 1], gone, id);
      assert (before + [r])[..|before|] == before;
    }
  }

  lemma {:induction false} RowsOfFor(id: string, terms: seq<string>, tokens: seq<string>, other: string)
    ensures RowsOf(RowsFor(id, terms, tokens), other) == if id == other then RowsFor(id, terms, tokens) else []
  {
    if terms != [] { RowsOfFor(id, terms[..|terms| - 1], tokens, other); }
  }

  lemma ClearedOk(store: Store, document: string, tok: Tokenizer)
    requires IndexOk(store, tok)
    ensures IndexOk(Cleared(store, document), tok)
    ensures forall id :: id in Cleared(store, document).chunks ==> id in store.chunks
  {
    hide RowsOf, KeepRows, TermRows;
    var gone := ChunksOf(store.chunks, document);
    forall id: string
      ensures RowsOf(KeepRows(store.rows, gone), id) == Expected(store.chunks - gone, id, tok)
    {
      RowsOfKept(store.rows, gone, id);
    }
  }

  lemma AddParentOk(store: Store, id: string, c: Chunk, tok: Tokenizer)
    requires IndexOk(store, tok) && id !in store.chunks
    requires c.parent.None? && c.tokenCount == |tok(c.text)|
    ensures IndexOk(store.(chunks := store.chunks[id := c]), tok)
  {
    hide RowsOf, TermRows;
    var next := store.(chunks := store.chunks[id := c]);
    forall other: string ensures RowsOf(next.rows, other) == Expected(next.chunks, other, tok) {
      assert RowsOf(store.rows, other) == Expected(store.chunks, other, tok);
    }
  }

  lemma AddChildOk(store: Store, id: string, c: Chunk, tok: Tokenizer)
    requires IndexOk(store, tok) && id !in store.chunks
    requires c.parent.Some? && c.tokenCount == |tok(c.text)|
    requires var p := c.parent.value;
      p in store.chunks && store.chunks[p].parent.None? && store.chunks[p].document == c.document
    ensures IndexOk(Store(store.chunks[id := c], store.rows + TermRows(id, c.text, tok)), tok)
  {
    hide RowsOf, RowsFor;
    var mine := TermRows(id, c.text, tok);
    var next := Store(store.chunks[id := c], store.rows + mine);
    forall other: string ensures RowsOf(next.rows, other) == Expected(next.chunks, other, tok) {
      RowsOfAppend(store.rows, mine, other);
      RowsOfFor(id, Unique(tok(c.text)), tok(c.text), other);
      assert RowsOf(store.rows, other) == Expected(store.chunks, other, tok);
    }
  }

  lemma NewId(ids: seq<string>, n: nat)
    requires Distinct(ids) && n < |ids|
    ensures ids[n] !in ids[..n] && ids[..n + 1] == ids[..n] + [ids[n]]
  {
  }

  lemma {:induction false} AddParentsOk(store: Store, document: string, parents: seq<Piece>,
                                        ids: seq<string>, tok: Tokenizer)
    requires IndexOk(store, tok) && |parents| <= |ids| && Distinct(ids)
    requires forall i | 0 <= i < |ids| :: ids[i] !in store.chunks
    ensures var next := AddParents(store, document, parents, ids, tok);
      && IndexOk(next, tok)
      && (forall id :: id in next.chunks <==> id in store.chunks || id in ids[..|parents|])
      && (forall i | 0 <= i < |parents| :: next.chunks[ids[i]] == ParentChunk(document, parents[i], tok))
  {
    hide IndexOk, ParentChunk, Distinct;
    if parents != [] {
      var n := |parents| - 1;
      AddParentsOk(store, document, parents[..n], ids, tok);
      var before := AddParents(store, document, parents[..n], ids, tok);
      NewId(ids, n);
      ParentChunkIsParent(document, parents[n], tok);
      AddParentOk(before, ids[n], ParentChunk(document, parents[n], tok), tok);
    }
  }

  lemma ParentChunkIsParent(document: string, p: Piece, tok: Tokenizer)
    ensures ParentChunk(document, p, tok).parent.None?
    ensures ParentChunk(document, p, tok).tokenCount == |tok(ParentChunk(document, p, tok).text)|
  {
  }

  ghost predicate HoldsParents(chunks: map<string, Chunk>, document: string, ids: seq<string>) {
    forall i | 0 <= i < |ids| :: ids[i] in chunks && chunks[ids[i]].parent.None? && chunks[ids[i]].document == document
  }

  lemma {:induction false} AddChildrenOk(store: Store, document: string, children: seq<Child>,
                                         parentIds: seq<string>, ids: seq<string>, tok: Tokenizer)
    requires IndexOk(store, tok) && |children| <= |ids| && Distinct(ids) && Parented(children, |parentIds|)
    requires HoldsParents(store.chunks, document, parentIds)
    requires forall i | 0 <= i < |ids| :: ids[i] !in store.chunks
    ensures var next := AddChildren(store, document, children, parentIds, ids, tok);
      && IndexOk(next, tok) && HoldsParents(next.chunks, document, parentIds)
      && (forall id :: id in next.chunks <==> id in store.chunks || id in ids[..|children|])
  {
    hide IndexOk, Distinct;
    if children != [] {
      var n := |children| - 1;
      AddChildrenOk(store, document, children[..n], parentIds, ids, tok);
      var before := AddChildren(store, document, children[..n], parentIds, ids, tok);
      NewId(ids, n);
      AddChildOk(before, ids[n], ChildChunk(document, parentIds[children[n].parent.ordinal], children[n], tok), tok);
    }
  }

  lemma SplitIds(store: Store, i: Ingestion)
    requires FreshIds(store, i)
    ensures Distinct(i.parentIds) && Distinct(i.childIds)
    ensures forall n | 0 <= n < |i.parentIds| :: i.parentIds[n] !in store.chunks && i.parentIds[n] !in i.childIds
    ensures forall n | 0 <= n < |i.childIds| :: i.childIds[n] !in store.chunks && i.childIds[n] !in i.parentIds
    ensures i.source.Success? ==>
      |i.parentIds| == |Parents(i.source.value)| && |i.childIds| == |ChildrenOfAll(Parents(i.source.value))|
  {
    hide Parents, ChildrenOfAll;
    var ids := i.parentIds + i.childIds;
    assert forall n | 0 <= n < |i.parentIds| :: ids[n] == i.parentIds[n];
    assert forall n | 0 <= n < |i.childIds| :: ids[|i.parentIds| + n] == i.childIds[n];
  }

  /** Every ingestion keeps the index in agreement with the texts: one that completes, one that
      fails before it touches the index, and one that fails half way through. */
  lemma IngestedOk(store: Store, i: Ingestion, tok: Tokenizer)
    requires IndexOk(store, tok) && FreshIds(store, i)
    ensures IndexOk(Ingested(store, i, tok), tok)
  {
    hide IndexOk, Cleared, AddParents, AddChildren, Parents, ChildrenOfAll, Distinct;
    if i.source.Success? {
      SplitIds(store, i);
      var text := i.source.value;
      var parents, children := Parents(text), ChildrenOfAll(Parents(text));
      ChildrenParented(text);
      ClearedOk(store, i.document, tok);
      var cleared := Cleared(store, i.document);
      AddParentsOk(cleared, i.document, parents, i.parentIds, tok);
      var base := AddParents(cleared, i.document, parents, i.parentIds, tok);
      assert i.parentIds[..|parents|] == i.parentIds;
      AddChildrenOk(base, i.document, children[..Written(|children|, i.embedding)], i.parentIds, i.childIds, tok);
    }
  }

  /** The old chunks are as before, and only these are new. */
  ghost predicate Grown(before: map<string, Chunk>, after: map<string, Chunk>, ids: seq<string>) {
    && (forall id | id in before :: id in after && after[id] == before[id])
    && (forall id | id in after :: id in before || id in ids)
  }

  ghost predicate HasParents(chunks: map<string, Chunk>, document: string, parents: seq<Piece>, ids: seq<string>,
                             tok: Tokenizer)
    requires |parents| <= |ids|
  {
    forall k | 0 <= k < |parents| :: ids[k] in chunks && chunks[ids[k]] == ParentChunk(document, parents[k], tok)
  }

  ghost predicate HasChildren(chunks: map<string, Chunk>, document: string, children: seq<Child>,
                              parentIds: seq<string>, ids: seq<string>, tok: Tokenizer)
    requires |children| <= |ids| && Parented(children, |parentIds|)
  {
    forall k | 0 <= k < |children| :: ids[k] in chunks
      && chunks[ids[k]] == ChildChunk(document, parentIds[children[k].parent.ordinal], children[k], tok)
  }

  /** The document's chunks are exactly these parents and the first `n` of these children, and the
      chunks of all other documents are as before. */
  ghost predicate Replaced(before: map<string, Chunk>, after: map<string, Chunk>, i: Ingestion,
                           parents: seq<Piece>, children: seq<Child>, n: nat, tok: Tokenizer)
    requires |parents| == |i.parentIds| && n <= |children| == |i.childIds| && Parented(children, |parents|)
  {
    && (forall id | id in before && before[id].document != i.document :: id in after && after[id] == before[id])
    && (forall id | id in after :: (id in before && before[id].document != i.document)
                                   || id in i.parentIds || id in i.childIds[..n])
    && HasParents(after, i.document, parents, i.parentIds, tok)
    && HasChildren(after, i.document, children[..n], i.parentIds, i.childIds, tok)
  }

  /** What a call leaves: after a source that could not be read everything as it was; otherwise of
      its document exactly the new parents and the children it wrote, all of them if it completes. */
  lemma IngestedContents(store: Store, i: Ingestion, tok: Tokenizer)
    requires FreshIds(store, i)
    ensures i.source.Failure? ==> Ingested(store, i, tok) == store
    ensures i.source.Success? ==>
      var parents, children := Parents(i.source.value), ChildrenOfAll(Parents(i.source.value));
      && Parented(children, |parents|)
      && var n := Written(|children|, i.embedding);
         Replaced(store.chunks, Ingested(store, i, tok).chunks, i, parents, children, n, tok)
         && (Completes(i) <==> n == |children|)
  {
    hide AddParents, AddChildren, Parents, ChildrenOfAll, Cleared, Distinct, FreshIds, Grown, HasParents, HasChildren;
    hide Replaced, Written;
    if i.source.Success? {
      SplitIds(store, i);
      var parents, children := Parents(i.source.value), ChildrenOfAll(Parents(i.source.value));
      ChildrenParented(i.source.value);
      var cleared, n := Cleared(store, i.document), Written(|children|, i.embedding);
      ClearedChunks(store, i.document);
      ParentsAdded(cleared, i.document, parents, i.parentIds, tok);
      var base := AddParents(cleared, i.document, parents, i.parentIds, tok);
      assert i.parentIds[..|parents|] == i.parentIds;
      StillNew(cleared, base, i.parentIds, i.childIds);
      ChildrenAdded(base, i.document, children[..n], i.parentIds, i.childIds, tok);
      assert i.childIds[..|children[..n]|] == i.childIds[..n];
      ReplacedByBoth(store, base.chunks, Ingested(store, i, tok).chunks, i, parents, children, n, tok);
    }
  }

  /** Where a child comes from: its parent, and its place among the parent's children. */
  lemma {:induction false} ChildFrom(parents: seq<Piece>, k: nat) returns (p: nat, j: nat)
    requires k < |ChildrenOfAll(parents)|
    ensures p < |parents| && j < |ChildrenOf(parents[p])| && ChildrenOfAll(parents)[k] == ChildrenOf(parents[p])[j]
  {
    hide ChildrenOf;
    var n := |parents| - 1;
    var before := ChildrenOfAll(parents[..n]);
    if k < |before| {
      p, j := ChildFrom(parents[..n], k);
    } else {
      p, j := n, k - |before|;
    }
  }

  /** Every child that a call stores names a stored parent of its document; its number begins with the
      parent's; and its text is the stripped text of the normalised document at its stored span, moved
      by one if the parent's window begins on a blank. */
  lemma StoredSpans(store: Store, i: Ingestion, tok: Tokenizer, k: nat)
    requires FreshIds(store, i) && i.source.Success?
    requires k < Written(|ChildrenOfAll(Parents(i.source.value))|, i.embedding)
    ensures var s, after := Normalize(i.source.value), Ingested(store, i, tok).chunks;
      && k < |i.childIds| && i.childIds[k] in after
      && var c := after[i.childIds[k]];
         && c.document == i.document && c.parent.Some? && c.parent.value in after
         && var p := after[c.parent.value];
            && p.document == i.document && p.parent.None?
            && p.start < p.end <= |s| && p.text == Strip(s[p.start..p.end])
            && var d := if IsSpace(s[p.start]) then 1 else 0;
               && p.start <= c.start < c.end && c.end + d <= p.end
               && c.text == Strip(s[c.start + d..c.end + d]) && c.text != ""
               && p.ordinal * 10_000 <= c.ordinal < p.ordinal * 10_000 + 5
  {
    hide Parents, ChildrenOfAll, Ingested, Normalize, Strip, IsSpace, ChildrenOf, Written, FreshIds, ParentOk;
    var text := i.source.value;
    var parents, children := Parents(text), ChildrenOfAll(Parents(text));
    SplitIds(store, i);
    ParentsOk(text);
    var n, j := ChildFrom(parents, k);
    StoredChild(store, i, tok, k, n, j);
    SpanOfChild(Normalize(text), parents[n], j);
  }

  lemma StoredChild(store: Store, i: Ingestion, tok: Tokenizer, k: nat, n: nat, j: nat)
    requires FreshIds(store, i) && i.source.Success?
    requires var parents := Parents(i.source.value);
      && k < Written(|ChildrenOfAll(parents)|, i.embedding) && |ChildrenOfAll(parents)| == |i.childIds|
      && n < |parents| == |i.parentIds| && j < |ChildrenOf(parents[n])|
      && ChildrenOfAll(parents)[k] == ChildrenOf(parents[n])[j]
    ensures var after, p := Ingested(store, i, tok).chunks, Parents(i.source.value)[n];
      && i.childIds[k] in after && i.parentIds[n] in after
      && after[i.parentIds[n]] == ParentChunk(i.document, p, tok)
      && after[i.childIds[k]] == ChildChunk(i.document, i.parentIds[n], ChildrenOf(p)[j], tok)
  {
    hide Parents, ChildrenOfAll, Ingested, ChildrenOf, Written, FreshIds, ParentChunk, ChildChunk, ParentOk;
    var parents, children := Parents(i.source.value), ChildrenOfAll(Parents(i.source.value));
    IngestedContents(store, i, tok);
    ParentsOk(i.source.value);
    ChildPieces(Normalize(i.source.value), parents[n]);
    PlaceIsOrdinal(i.source.value, n);
    assert children[..Written(|children|, i.embedding)][k] == children[k];
  }

  /** The same of the child itself. */
  lemma SpanOfChild(s: string, p: Piece, j: nat)
    requires ParentOk(s, p) && j < |ChildrenOf(p)|
    ensures var c := ChildrenOf(p)[j];
      && p.start < p.end <= |s| && p.text == Strip(s[p.start..p.end])
      && var d := if IsSpace(s[p.start]) then 1 else 0;
         && p.start <= c.start < c.end && c.end + d <= p.end
         && c.text == Strip(s[c.start + d..c.end + d]) && c.text != ""
         && p.ordinal * 10_000 <= c.ordinal < p.ordinal * 10_000 + 5
  {
    hide Strip, IsSpace, Normalized, ChildrenOf, Windows, WellCut;
    NestedOffsets(s, p, j);
    ChildPieces(s, p);
  }

  lemma PlaceIsOrdinal(text: string, n: nat)
    requires n < |Parents(text)|
    ensures Parents(text)[n].ordinal == n
  {
    hide Windows, Normalize;
    ParentsOk(text);
  }

  lemma ClearedChunks(store: Store, document: string)
    ensures var chunks := Cleared(store, document).chunks;
      && (forall id :: id in chunks <==> id in store.chunks && store.chunks[id].document != document)
      && (forall id | id in chunks :: chunks[id] == store.chunks[id])
  {
    hide KeepRows;
  }

  lemma StillNew(cleared: Store, base: Store, parentIds: seq<string>, childIds: seq<string>)
    requires Grown(cleared.chunks, base.chunks, parentIds)
    requires forall n | 0 <= n < |childIds| :: childIds[n] !in cleared.chunks && childIds[n] !in parentIds
    ensures forall n | 0 <= n < |childIds| :: childIds[n] !in base.chunks
  {
  }

  lemma ReplacedByBoth(store: Store, base: map<string, Chunk>, after: map<string, Chunk>, i: Ingestion,
                       parents: seq<Piece>, children: seq<Child>, n: nat, tok: Tokenizer)
    requires |parents| == |i.parentIds| && n <= |children| == |i.childIds| && Parented(children, |parents|)
    requires Grown(Cleared(store, i.document).chunks, base, i.parentIds) && Grown(base, after, i.childIds[..n])
    requires HasParents(base, i.document, parents, i.parentIds, tok)
    requires HasChildren(after, i.document, children[..n], i.parentIds, i.childIds, tok)
    ensures Replaced(store.chunks, after, i, parents, children, n, tok)
  {
    hide Cleared, ParentChunk, HasChildren;
    ClearedChunks(store, i.document);
  }

  lemma {:induction false} ParentsAdded(store: Store, document: string, parents: seq<Piece>,
                                        ids: seq<string>, tok: Tokenizer)
    requires |parents| <= |ids| && Distinct(ids) && forall i | 0 <= i < |ids| :: ids[i] !in store.chunks
    ensures var next := AddParents(store, document, parents, ids, tok);
      Grown(store.chunks, next.chunks, ids[..|parents|]) && HasParents(next.chunks, document, parents, ids, tok)
  {
    hide ParentChunk, Distinct, Grown, HasParents;
    if parents == [] {
      NothingGrown(store.chunks, ids[..0]);
      NoParents(store.chunks, document, ids, tok);
    } else {
      var n := |parents| - 1;
      var before := AddParents(store, document, parents[..n], ids, tok);
      ParentsAdded(store, document, parents[..n], ids, tok);
      NewId(ids, n);
      OneMore(store.chunks, before.chunks, ids, n, ParentChunk(document, parents[n], tok));
      OneMoreParent(before.chunks, document, parents, ids, tok);
    }
  }

  lemma NothingGrown(chunks: map<string, Chunk>, ids: seq<string>)
    ensures Grown(chunks, chunks, ids)
  {
  }

  lemma NoParents(chunks: map<string, Chunk>, document: string, ids: seq<string>, tok: Tokenizer)
    ensures HasParents(chunks, document, [], ids, tok)
  {
  }

  lemma OneMore(before: map<string, Chunk>, after: map<string, Chunk>, ids: seq<string>, n: nat, c: Chunk)
    requires n < |ids| && ids[n] !in before && Grown(before, after, ids[..n])
    ensures Grown(before, after[ids[n] := c], ids[..n + 1])
  {
    assert ids[..n + 1] == ids[..n] + [ids[n]];
  }

  lemma OneMoreParent(chunks: map<string, Chunk>, document: string, parents: seq<Piece>, ids: seq<string>,
                      tok: Tokenizer)
    requires 0 < |parents| <= |ids| && Distinct(ids)
    requires HasParents(chunks, document, parents[..|parents| - 1], ids, tok)
    ensures var n := |parents| - 1;
      HasParents(chunks[ids[n] := ParentChunk(document, parents[n], tok)], document, parents, ids, tok)
  {
    hide ParentChunk;
  }

  lemma {:induction false} ChildrenAdded(store: Store, document: string, children: seq<Child>,
                                         parentIds: seq<string>, ids: seq<string>, tok: Tokenizer)
    requires |children| <= |ids| && Distinct(ids) && Parented(children, |parentIds|)
    requires forall i | 0 <= i < |ids| :: ids[i] !in store.chunks
    ensures var next := AddChildren(store, document, children, parentIds, ids, tok);
      && Grown(store.chunks, next.chunks, ids[..|children|])
      && HasChildren(next.chunks, document, children, parentIds, ids, tok)
  {
    hide ChildChunk, TermRows, AddChildren, Grown;
    OnlyChildrenAdded(store, document, children, parentIds, ids, tok);
    forall i | 0 <= i < |children|
      ensures var next := AddChildren(store, document, children, parentIds, ids, tok);
        ids[i] in next.chunks
        && next.chunks[ids[i]] == ChildChunk(document, parentIds[children[i].parent.ordinal], children[i], tok)
    {
      ChildAdded(store, document, children, parentIds, ids, tok, i);
    }
  }

  lemma {:induction false} OnlyChildrenAdded(store: Store, document: string, children: seq<Child>,
                                             parentIds: seq<string>, ids: seq<string>, tok: Tokenizer)
    requires |children| <= |ids| && Parented(children, |parentIds|)
    requires forall i | 0 <= i < |ids| :: ids[i] !in store.chunks
    ensures Grown(store.chunks, AddChildren(store, document, children, parentIds, ids, tok).chunks, ids[..|children|])
  {
    hide ChildChunk, TermRows, Grown;
    if children == [] {
      NothingGrown(store.chunks, ids[..0]);
    } else {
      var n := |children| - 1;
      var before := AddChildren(store, document, children[..n], parentIds, ids, tok);
      OnlyChildrenAdded(store, document, children[..n], parentIds, ids, tok);
      OneMore(store.chunks, before.chunks, ids, n,
              ChildChunk(document, parentIds[children[n].parent.ordinal], children[n], tok));
    }
  }

  lemma {:induction false} ChildAdded(store: Store, document: string, children: seq<Child>,
                                      parentIds: seq<string>, ids: seq<string>, tok: Tokenizer, i: nat)
    requires i < |children| <= |ids| && Distinct(ids) && Parented(children, |parentIds|)
    ensures var next := AddChildren(store, document, children, parentIds, ids, tok);
      ids[i] in next.chunks
      && next.chunks[ids[i]] == ChildChunk(document, parentIds[children[i].parent.ordinal], children[i], tok)
  {
    hide ChildChunk, TermRows;
    var n := |children| - 1;
    if i < n { ChildAdded(store, document, children[..n], parentIds, ids, tok, i); }
  }

  // ---------------------------------------------------------------------------------------------
  // All runs
  // ---------------------------------------------------------------------------------------------

  datatype Corpus = Corpus(children: nat, averageLength: real, version: nat)

  /** The children counted by the corpus statistics: those of documents that are not archived. */
  function Searchable(chunks: map<string, Chunk>, archived: set<string>): set<string> {
    set id | id in chunks && chunks[id].parent.Some? && chunks[id].document !in archived
  }

  /** A call with what it finds in the database: the archived documents, and the average length of
      their chunks. */
  datatype Call = Call(ingestion: Ingestion, archived: set<string>, average: real)

  /** The index together with its statistics. */
  datatype Base = Base(store: Store, corpus: Option<Corpus>)

  /** A call replaces the statistics only if it completes, and then with a count of what is there. */
  ghost function Served(b: Base, c: Call, tok: Tokenizer): Base
    requires FreshIds(b.store, c.ingestion)
  {
    var store := Ingested(b.store, c.ingestion, tok);
    if !Completes(c.ingestion) then Base(store, b.corpus)
    else Base(store, Some(Corpus(|Searchable(store.chunks, c.archived)|, c.average,
                                 if b.corpus.None? then 1 else b.corpus.value.version + 1)))
  }

  /** Index and statistics after a list of calls. */
  ghost function Play(b: Base, run: seq<Call>, tok: Tokenizer): Option<Base> {
    if run == [] then Some(b)
    else
      var n := |run| - 1;
      var before := Play(b, run[..n], tok);
      if before.None? || !FreshIds(before.value.store, run[n].ingestion) then None
      else Some(Served(before.value, run[n], tok))
  }

  const NEW_BASE := Base(Store(map[], []), None)

  lemma {:induction false} PlayOk(run: seq<Call>, tok: Tokenizer)
    requires Play(NEW_BASE, run, tok).Some?
    ensures IndexOk(Play(NEW_BASE, run, tok).value.store, tok)
  {
    hide IndexOk, Ingested, FreshIds, Completes, Searchable;
    if run == [] {
      EmptyOk(tok);
    } else {
      var n := |run| - 1;
      PlayOk(run[..n], tok);
      IngestedOk(Play(NEW_BASE, run[..n], tok).value.store, run[n].ingestion, tok);
    }
  }

  /** The row says how often its term occurs in its chunk's text, and how long that text is. */
  ghost predicate RowTrue(store: Store, r: Row, tok: Tokenizer) {
    && IsChild(store.chunks, r.chunk)
    && var c := store.chunks[r.chunk];
       r.term in tok(c.text) && r.frequency == Count(tok(c.text), r.term) && r.length == c.tokenCount
  }

  function FrequencySum(rows: seq<Row>): nat {
    if rows == [] then 0 else FrequencySum(rows[..|rows| - 1]) + rows[|rows| - 1].frequency
  }

  /** In every reachable store: no row outlives its chunk and each row is true of its text; each term
      of each child has a row, and only one, so `uq_chunk_term` is never violated; and a child's
      frequencies add up to its recorded length. */
  lemma {:induction false} IndexAgreesWithTexts(run: seq<Call>, tok: Tokenizer)
    requires Play(NEW_BASE, run, tok).Some?
    ensures var store := Play(NEW_BASE, run, tok).value.store;
      && (forall k | 0 <= k < |store.rows| :: RowTrue(store, store.rows[k], tok))
      && (forall j, k | 0 <= j < k < |store.rows| ::
            store.rows[j].chunk != store.rows[k].chunk || store.rows[j].term != store.rows[k].term)
      && (forall id, t | IsChild(store.chunks, id) && t in tok(store.chunks[id].text) ::
            exists k :: 0 <= k < |store.rows| && store.rows[k].chunk == id && store.rows[k].term == t)
      && (forall id | IsChild(store.chunks, id) ::
            FrequencySum(RowsOf(store.rows, id)) == store.chunks[id].tokenCount)
  {
    hide Play;
    PlayOk(run, tok);
    OkMeans(Play(NEW_BASE, run, tok).value.store, tok);
  }

  lemma EmptyOk(tok: Tokenizer)
    ensures IndexOk(NEW_BASE.store, tok)
  {
  }

  lemma OkMeans(store: Store, tok: Tokenizer)
    requires IndexOk(store, tok)
    ensures forall k | 0 <= k < |store.rows| :: RowTrue(store, store.rows[k], tok)
    ensures forall j, k | 0 <= j < k < |store.rows| ::
      store.rows[j].chunk != store.rows[k].chunk || store.rows[j].term != store.rows[k].term
    ensures forall id, t | IsChild(store.chunks, id) && t in tok(store.chunks[id].text) ::
      exists k :: 0 <= k < |store.rows| && store.rows[k].chunk == id && store.rows[k].term == t
    ensures forall id | IsChild(store.chunks, id) ::
      FrequencySum(RowsOf(store.rows, id)) == store.chunks[id].tokenCount
  {
    hide IndexOk;
    forall k | 0 <= k < |store.rows| ensures RowTrue(store, store.rows[k], tok) {
      EachRowTrue(store, k, tok);
    }
    forall j, k | 0 <= j < k < |store.rows|
      ensures store.rows[j].chunk != store.rows[k].chunk || store.rows[j].term != store.rows[k].term
    {
      RowsUnique(store, j, k, tok);
    }
    forall id, t | IsChild(store.chunks, id) && t in tok(store.chunks[id].text)
      ensures exists k :: 0 <= k < |store.rows| && store.rows[k].chunk == id && store.rows[k].term == t
    {
      RowPresent(store, id, t, tok);
    }
    forall id | IsChild(store.chunks, id)
      ensures FrequencySum(RowsOf(store.rows, id)) == store.chunks[id].tokenCount
    {
      LengthRecorded(store, id, tok);
    }
  }

  /** Row `k` of the table is one of its chunk's rows; two rows of a chunk keep their order. */
  lemma {:induction false} RowsOfHas(rows: seq<Row>, k: nat) returns (p: nat)
    requires k < |rows|
    ensures p < |RowsOf(rows, rows[k].chunk)| && RowsOf(rows, rows[k].chunk)[p] == rows[k]
    ensures p == |RowsOf(rows[..k], rows[k].chunk)|
  {
    if k == |rows| - 1 {
      p := |RowsOf(rows[..k], rows[k].chunk)|;
    } else {
      assert rows[..|rows| - 1][..k] == rows[..k];
      p := RowsOfHas(rows[..|rows| - 1], k);
    }
  }

  lemma {:induction false} RowsForIs(id: string, terms: seq<string>, tokens: seq<string>)
    ensures |RowsFor(id, terms, tokens)| == |terms|
    ensures forall k | 0 <= k < |terms| ::
      RowsFor(id, terms, tokens)[k] == Row(id, terms[k], Count(tokens, terms[k]), |tokens|)
    ensures FrequencySum(RowsFor(id, terms, tokens)) == CountSum(terms, tokens)
  {
    if terms != [] { RowsForIs(id, terms[..|terms| - 1], tokens); }
  }

  lemma EachRowTrue(store: Store, k: nat, tok: Tokenizer)
    requires IndexOk(store, tok) && k < |store.rows|
    ensures RowTrue(store, store.rows[k], tok)
  {
    hide RowsOf, RowsFor, Count, ParentsPresent;
    var r := store.rows[k];
    var p := RowsOfHas(store.rows, k);
    assert RowsOf(store.rows, r.chunk) == Expected(store.chunks, r.chunk, tok);
    var tokens := tok(store.chunks[r.chunk].text);
    RowsForIs(r.chunk, Unique(tokens), tokens);
  }

  lemma RowsUnique(store: Store, j: nat, k: nat, tok: Tokenizer)
    requires IndexOk(store, tok) && j < k < |store.rows|
    ensures store.rows[j].chunk != store.rows[k].chunk || store.rows[j].term != store.rows[k].term
  {
    hide RowsFor, Count, ParentsPresent, CountsAgree;
    var r := store.rows[k];
    if store.rows[j].chunk == r.chunk {
      var p := RowsOfHas(store.rows, j);
      var q := RowsOfHas(store.rows, k);
      RowsOfGrows(store.rows, j, k, r.chunk);
      assert RowsOf(store.rows, r.chunk) == Expected(store.chunks, r.chunk, tok);
      var tokens := tok(store.chunks[r.chunk].text);
      RowsForIs(r.chunk, Unique(tokens), tokens);
    }
  }

  lemma RowsOfGrows(rows: seq<Row>, j: nat, k: nat, id: string)
    requires j < k <= |rows| && rows[j].chunk == id
    ensures |RowsOf(rows[..j], id)| < |RowsOf(rows[..k], id)|
  {
    assert rows[..k] == rows[..j + 1] + rows[j + 1..k];
    RowsOfAppend(rows[..j + 1], rows[j + 1..k], id);
    assert rows[..j + 1][..j] == rows[..j];
  }

  lemma {:induction false} RowsOfFrom(rows: seq<Row>, id: string, p: nat) returns (k: nat)
    requires p < |RowsOf(rows, id)|
    ensures k < |rows| && rows[k] == RowsOf(rows, id)[p] && rows[k].chunk == id
  {
    var init := rows[..|rows| - 1];
    if p < |RowsOf(init, id)| {
      k := RowsOfFrom(init, id, p);
    } else {
      k := |rows| - 1;
    }
  }

  lemma RowPresent(store: Store, id: string, t: string, tok: Tokenizer)
    requires IndexOk(store, tok) && IsChild(store.chunks, id) && t in tok(store.chunks[id].text)
    ensures exists k :: 0 <= k < |store.rows| && store.rows[k].chunk == id && store.rows[k].term == t
  {
    hide RowsOf, RowsFor, Count, ParentsPresent, CountsAgree;
    var tokens := tok(store.chunks[id].text);
    RowsForIs(id, Unique(tokens), tokens);
    assert RowsOf(store.rows, id) == Expected(store.chunks, id, tok);
    var p :| 0 <= p < |Unique(tokens)| && Unique(tokens)[p] == t;
    var k := RowsOfFrom(store.rows, id, p);
  }

  lemma LengthRecorded(store: Store, id: string, tok: Tokenizer)
    requires IndexOk(store, tok) && IsChild(store.chunks, id)
    ensures FrequencySum(RowsOf(store.rows, id)) == store.chunks[id].tokenCount
  {
    hide RowsOf, RowsFor, Count, ParentsPresent, Unique, FrequencySum, CountSum;
    var tokens := tok(store.chunks[id].text);
    RowsForIs(id, Unique(tokens), tokens);
    FrequenciesAddUp(Unique(tokens), tokens);
  }

  // ---------------------------------------------------------------------------------------------
  // The statistics
  // ---------------------------------------------------------------------------------------------

  /** What the embedding client guarantees: it answers with one vector for each text, or fails. */
  predicate OneVectorEach(i: Ingestion) {
    i.source.Success? && i.embedding.Success? ==>
      var children := |ChildrenOfAll(Parents(i.source.value))|;
      children == 0 || i.embedding.value == children
  }

  /** No document is archived, and the embedding client keeps its guarantee. */
  predicate Undisturbed(run: seq<Call>) {
    forall n | 0 <= n < |run| :: run[n].archived == {} && OneVectorEach(run[n].ingestion)
  }

  /** The last call completes, and no document is archived when it does. */
  predicate EndsComplete(run: seq<Call>) {
    run != [] && Completes(run[|run| - 1].ingestion) && run[|run| - 1].archived == {}
  }

  /** A call that does not complete has then written no child, and adds none to the index. */
  lemma IncompleteAddsNoChild(store: Store, i: Ingestion, tok: Tokenizer)
    requires FreshIds(store, i) && OneVectorEach(i) && !Completes(i)
    ensures Searchable(Ingested(store, i, tok).chunks, {}) <= Searchable(store.chunks, {})
  {
    hide FreshIds, Ingested, Parents, ChildrenOfAll, ChildChunk;
    IngestedContents(store, i, tok);
    if i.source.Success? {
      SplitIds(store, i);
      var children := ChildrenOfAll(Parents(i.source.value));
      assert Written(|children|, i.embedding) == 0;
      assert i.childIds[..0] == [];
    }
  }

  /** The statistics count every child of the index. */
  predicate AllCounted(b: Base) {
    var children := |Searchable(b.store.chunks, {})|;
    if b.corpus.None? then children == 0 else children <= b.corpus.value.children
  }

  /** After every list of calls on a new knowledge base in which nothing is archived. */
  lemma {:induction false} StatisticsCountAll(run: seq<Call>, tok: Tokenizer)
    requires Play(NEW_BASE, run, tok).Some? && Undisturbed(run)
    ensures AllCounted(Play(NEW_BASE, run, tok).value)
  {
    hide FreshIds, Ingested, Completes, OneVectorEach;
    if run == [] {
      assert Searchable(NEW_BASE.store.chunks, {}) == {};
    } else {
      var n := |run| - 1;
      StatisticsCountAll(run[..n], tok);
      ServedCountsAll(Play(NEW_BASE, run[..n], tok).value, run[n], tok);
    }
  }

  lemma ServedCountsAll(b: Base, c: Call, tok: Tokenizer)
    requires FreshIds(b.store, c.ingestion) && c.archived == {} && OneVectorEach(c.ingestion) && AllCounted(b)
    ensures AllCounted(Served(b, c, tok))
  {
    hide FreshIds, Ingested, Completes, OneVectorEach, Searchable;
    if !Completes(c.ingestion) {
      var next := Ingested(b.store, c.ingestion, tok);
      IncompleteAddsNoChild(b.store, c.ingestion, tok);
      SubsetCard(Searchable(next.chunks, {}), Searchable(b.store.chunks, {}));
    }
  }

  /** What a completing call counts: all children but those of archived documents. */
  lemma ArchivedAreNotCounted(b: Base, c: Call, tok: Tokenizer)
    requires FreshIds(b.store, c.ingestion) && Completes(c.ingestion)
    ensures var next := Served(b, c, tok);
      var children := set id | id in next.store.chunks && next.store.chunks[id].parent.Some?;
      var gone := set id | id in children && next.store.chunks[id].document in c.archived;
      next.corpus.Some? && next.corpus.value.children == |children| - |gone|
  {
    hide FreshIds, Ingested, Completes;
    var chunks := Served(b, c, tok).store.chunks;
    var children := set id | id in chunks && chunks[id].parent.Some?;
    var gone := set id | id in children && chunks[id].document in c.archived;
    assert Searchable(chunks, c.archived) == children - gone;
  }

  /** After a list of calls whose last one completes the count is exact, whatever was left by calls
      that failed before, as long as nothing is archived when it is taken. */
  lemma {:induction false} CompletionCountsExactly(run: seq<Call>, tok: Tokenizer)
    requires Play(NEW_BASE, run, tok).Some? && EndsComplete(run)
    ensures var b := Play(NEW_BASE, run, tok).value;
      b.corpus.Some? && b.corpus.value.children == |Searchable(b.store.chunks, {})|
  {
    hide FreshIds, Ingested, Completes, Searchable;
  }

  // ---------------------------------------------------------------------------------------------
  // The service
  // ---------------------------------------------------------------------------------------------

  /** The rows of one knowledge base. */
  class KnowledgeBase {
    var chunks: map<string, Chunk>
    var rows: seq<Row>
    var corpus: Option<Corpus>

    function Current(): Store reads this { Store(chunks, rows) }

    function View(): Base reads this { Base(Current(), corpus) }

    constructor ()
      ensures View() == NEW_BASE
    {
      chunks, rows, corpus := map[], [], None;
    }

    /** `process_ingestion`; the average length is the database's. */
    method ProcessIngestion(i: Ingestion, archived: set<string>, average: real, tok: Tokenizer)
      returns (completed: bool)
      requires FreshIds(Current(), i)
      modifies this
      ensures View() == Served(old(View()), Call(i, archived, average), tok)
      ensures completed == Completes(i)
    {
      hide Parents, ChildrenOfAll, KeepRows, ChunksOf, ParentChunk, ChildChunk, TermRows, FreshIds;
      SplitIds(Current(), i);
      if i.source.Failure? { return false; }
      var gone := ChunksOf(chunks, i.document);
      rows := KeepRows(rows, gone);
      chunks := chunks - gone;
      var parents, children := BuildPieces(i.source.value);
      ChildrenParented(i.source.value);
      AddParentLoop(i.document, parents, i.parentIds, tok);
      if children != [] && i.embedding.Failure? {
        assert children[..0] == [];
        return false;
      }
      var vectors := if children == [] then 0 else i.embedding.value;
      var n := WriteChildren(i.document, children, vectors, i.parentIds, i.childIds, tok);
      if n < |children| { return false; }
      corpus := Some(Corpus(|Searchable(chunks, archived)|, average,
                            if corpus.None? then 1 else corpus.value.version + 1));
      return true;
    }

    method AddParentLoop(document: string, parents: seq<Piece>, ids: seq<string>, tok: Tokenizer)
      requires |parents| <= |ids|
      modifies this
      ensures Current() == AddParents(old(Current()), document, parents, ids, tok)
      ensures corpus == old(corpus)
    {
      hide ParentChunk;
      var n := 0;
      while n < |parents|
        invariant 0 <= n <= |parents|
        invariant Current() == AddParents(old(Current()), document, parents[..n], ids, tok)
        invariant corpus == old(corpus)
      {
        assert parents[..n + 1][..n] == parents[..n];
        chunks := chunks[ids[n] := ParentChunk(document, parents[n], tok)];
        n := n + 1;
      }
      assert parents[..n] == parents;
    }

    /** The last loop: a missing vector ends it at the child that lacks one. */
    method WriteChildren(document: string, children: seq<Child>, vectors: nat, parentIds: seq<string>,
                         ids: seq<string>, tok: Tokenizer) returns (n: nat)
      requires |children| <= |ids| && Parented(children, |parentIds|)
      modifies this
      ensures n == Written(|children|, Success(vectors))
      ensures Current() == AddChildren(old(Current()), document, children[..n], parentIds, ids, tok)
      ensures corpus == old(corpus)
    {
      hide ChildChunk, TermRows;
      n := 0;
      while n < |children| && (vectors == 0 || n < vectors)
        invariant 0 <= n <= |children| && (vectors == 0 || n <= vectors)
        invariant Current() == AddChildren(old(Current()), document, children[..n], parentIds, ids, tok)
        invariant corpus == old(corpus)
      {
        var c := children[n];
        assert children[..n + 1][..n] == children[..n];
        chunks := chunks[ids[n] := ChildChunk(document, parentIds[c.parent.ordinal], c, tok)];
        rows := rows + TermRows(ids[n], c.text, tok);
        n := n + 1;
      }
    }
  }
}
