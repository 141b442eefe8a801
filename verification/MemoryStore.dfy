/** The in-memory vector store. Each method is one critical section of the store's lock. */
module MemoryStore {
  import opened Domain
  import opened Ranking
  import opened Vectors
  import opened Upsert
  import opened Bm25

  // ---------------------------------------------------------------- filters

  /** Filters are loosely typed; only a string under "document_id" has an effect. */
  datatype FilterValue = Text(text: string) | NotText

  type Filter = map<string, FilterValue>

  predicate MatchFilter(documentId: string, filter: Filter) {
    if |filter| == 0 then true
    else if "document_id" !in filter || filter["document_id"].NotText? || filter["document_id"].text == "" then true
    else documentId == filter["document_id"].text
  }

  /** The filter that asks for one document. */
  ghost predicate AsksFor(filter: Filter, documentId: string) {
    documentId != "" && "document_id" in filter && filter["document_id"] == Text(documentId)
  }

  lemma FilterMeaning(documentId: string, filter: Filter)
    ensures MatchFilter(documentId, filter) <==> forall wanted :: AsksFor(filter, wanted) ==> wanted == documentId
  {
    if "document_id" in filter && filter["document_id"].Text? {
      var wanted := filter["document_id"].text;
      assert wanted != "" ==> AsksFor(filter, wanted);
      assert |filter| != 0;
    }
  }

  // ---------------------------------------------------------------- what the searches answer

  function ChunkRow(c: Chunk, score: real, layer: string): Candidate {
    Candidate(c.chunkId, c.documentId, c.summaryId, score, c.source, c.text, c.contentClass, layer)
  }

  function SummaryRow(s: Summary, score: real): Candidate {
    Candidate(s.summaryId, s.documentId, s.summaryId, score, s.source, s.text, s.contentClass, "summary")
  }

  /** The filter-passing chunks among the first n. */
  function Kept(source: seq<Chunk>, filter: Filter, n: nat): seq<Chunk>
    requires n <= |source|
  {
    if n == 0 then []
    else Kept(source, filter, n - 1) + if MatchFilter(source[n - 1].documentId, filter) then [source[n - 1]] else []
  }

  function DenseRows(root: real -> real, source: seq<Chunk>, filter: Filter, embedding: Vector, n: nat): seq<Candidate>
    requires n <= |source| && IsRoot(root)
  {
    if n == 0 then []
    else DenseRows(root, source, filter, embedding, n - 1)
         + if MatchFilter(source[n - 1].documentId, filter)
           then [ChunkRow(source[n - 1], Cosine(root, embedding, source[n - 1].embedding), "chunk")] else []
  }

  function SummaryRows(root: real -> real, source: seq<Summary>, filter: Filter, embedding: Vector, n: nat): seq<Candidate>
    requires n <= |source| && IsRoot(root)
  {
    if n == 0 then []
    else SummaryRows(root, source, filter, embedding, n - 1)
         + if MatchFilter(source[n - 1].documentId, filter)
           then [SummaryRow(source[n - 1], Cosine(root, embedding, source[n - 1].embedding))] else []
  }

  function DocOf(lower: char -> char, c: Chunk): Doc {
    Doc(c.chunkId, Tokens(lower, c.text))
  }

  function DocsOf(lower: char -> char, chunks: seq<Chunk>): (docs: seq<Doc>)
    ensures |docs| == |chunks| && forall i :: 0 <= i < |chunks| ==> docs[i] == DocOf(lower, chunks[i])
  {
    seq(|chunks|, i requires 0 <= i < |chunks| => DocOf(lower, chunks[i]))
  }

  /** Which stored chunk speaks for the i-th kept one: the last with the same id. */
  function Speaker(kept: seq<Chunk>, i: nat): (p: nat)
    requires i < |kept|
    ensures p < |kept| && kept[p].chunkId == kept[i].chunkId
    ensures forall j :: p < j < |kept| ==> kept[j].chunkId != kept[i].chunkId
  {
    KeyAtPosition(kept, ChunkKey, i);
    assert ChunkKey(kept[i]) == kept[i].chunkId;
    var p := LastAt(kept, ChunkKey, |kept|, kept[i].chunkId);
    assert forall j :: p < j < |kept| ==> ChunkKey(kept[j]) != kept[i].chunkId;
    p
  }

  function SparseScore(lower: char -> char, ln: real -> real, kept: seq<Chunk>, query: seq<string>, i: nat): real
    requires i < |kept|
  {
    var docs := DocsOf(lower, kept);
    DocScore(docs, ln, docs[Speaker(kept, i)], query, |query|)
  }

  function SparseRows(lower: char -> char, ln: real -> real, kept: seq<Chunk>, query: seq<string>, n: nat): seq<Candidate>
    requires n <= |kept|
  {
    if n == 0 then []
    else SparseRows(lower, ln, kept, query, n - 1)
         + if SparseScore(lower, ln, kept, query, n - 1) > 0.0
           then [ChunkRow(kept[Speaker(kept, n - 1)], SparseScore(lower, ln, kept, query, n - 1), "sparse_chunk")] else []
  }

  /** The rows of the chunks of one summary among the first n, in storage order. */
  function Group(source: seq<Chunk>, summaryId: string, n: nat): seq<Candidate>
    requires n <= |source|
  {
    if n == 0 then []
    else Group(source, summaryId, n - 1)
         + if source[n - 1].summaryId == summaryId then [ChunkRow(source[n - 1], 0.0, "chunk")] else []
  }

  function Concatenated(source: seq<Chunk>, order: seq<string>, topKPerSummary: int, n: nat): seq<Candidate>
    requires n <= |order|
  {
    if n == 0 then []
    else Concatenated(source, order, topKPerSummary, n - 1) + Cut(Group(source, order[n - 1], |source|), topKPerSummary)
  }

  /** The groups come out in some order, each once. */
  ghost predicate IsExpansion(source: seq<Chunk>, summaryIds: seq<string>, topKPerSummary: int, out: seq<Candidate>) {
    exists order: seq<string> :: IsGroupOrder(source, summaryIds, order)
                              && out == Concatenated(source, order, topKPerSummary, |order|)
  }

  ghost predicate IsGroupOrder(source: seq<Chunk>, summaryIds: seq<string>, order: seq<string>) {
    NoRepeats(order) && forall id :: id in order <==> id in summaryIds && Group(source, id, |source|) != []
  }

  // ---------------------------------------------------------------- the store

  class MemoryStore {
    var chunks: map<string, seq<Chunk>>
    var summaries: map<string, seq<Summary>>

    function ChunksIn(collection: string): seq<Chunk>
      reads this
    {
      if collection in chunks then chunks[collection] else []
    }

    function SummariesIn(collection: string): seq<Summary>
      reads this
    {
      if collection in summaries then summaries[collection] else []
    }

    constructor ()
      ensures chunks == map[] && summaries == map[]
    {
      chunks, summaries := map[], map[];
    }

    /** Creating the collections changes what no collection holds. */
    method EnsureCollections(chunkCollection: string, summaryCollection: string)
      modifies this
      ensures chunkCollection in chunks && summaryCollection in summaries
      ensures forall c :: ChunksIn(c) == old(ChunksIn(c)) && SummariesIn(c) == old(SummariesIn(c))
      ensures chunks.Keys == old(chunks.Keys) + {chunkCollection}
      ensures summaries.Keys == old(summaries.Keys) + {summaryCollection}
    {
      if chunkCollection !in chunks { chunks := chunks[chunkCollection := []]; }
      if summaryCollection !in summaries { summaries := summaries[summaryCollection := []]; }
    }

    method UpsertChunks(collection: string, batch: seq<Chunk>)
      modifies this`chunks
      ensures chunks == old(chunks)[collection := Upserted(old(ChunksIn(collection)), batch, ChunkKey)]
    {
      var rows := UpsertRows(ChunksIn(collection), batch, ChunkKey);
      chunks := chunks[collection := rows];
    }

    method UpsertSummaries(collection: string, batch: seq<Summary>)
      modifies this`summaries
      ensures summaries == old(summaries)[collection := Upserted(old(SummariesIn(collection)), batch, SummaryKey)]
    {
      var rows := UpsertRows(SummariesIn(collection), batch, SummaryKey);
      summaries := summaries[collection := rows];
    }

    /** Dense search: the best topK filter-passing chunks by cosine. */
    method SearchChunks(root: real -> real, collection: string, embedding: Vector, topK: int, filter: Filter)
      returns (rows: seq<Candidate>)
      requires IsRoot(root)
      ensures var source := ChunksIn(collection);
              IsTop(multiset(DenseRows(root, source, filter, embedding, |source|)), ScoreOf, topK, rows)
    {
      hide IsTop;
      var source := ChunksIn(collection);
      rows := [];
      for i := 0 to |source|
        invariant rows == DenseRows(root, source, filter, embedding, i)
      {
        if !MatchFilter(source[i].documentId, filter) { continue; }
        var score := ComputeCosine(root, embedding, source[i].embedding);
        rows := rows + [ChunkRow(source[i], score, "chunk")];
      }
      rows := TopByScore(rows, ScoreOf, topK);
    }

    /** Dense search over summaries. */
    method SearchSummaries(root: real -> real, collection: string, embedding: Vector, topK: int, filter: Filter)
      returns (rows: seq<Candidate>)
      requires IsRoot(root)
      ensures var source := SummariesIn(collection);
              IsTop(multiset(SummaryRows(root, source, filter, embedding, |source|)), ScoreOf, topK, rows)
    {
      hide IsTop;
      var source := SummariesIn(collection);
      rows := [];
      for i := 0 to |source|
        invariant rows == SummaryRows(root, source, filter, embedding, i)
      {
        if !MatchFilter(source[i].documentId, filter) { continue; }
        var score := ComputeCosine(root, embedding, source[i].embedding);
        rows := rows + [SummaryRow(source[i], score)];
      }
      rows := TopByScore(rows, ScoreOf, topK);
    }

    /** Sparse search: the best topK filter-passing chunks with a positive BM25 score. */
    method SearchChunksSparse(lower: char -> char, ln: real -> real, collection: string, query: string, topK: int, filter: Filter)
      returns (rows: seq<Candidate>)
      ensures var source := ChunksIn(collection);
              var kept := Kept(source, filter, |source|);
              IsTop(multiset(SparseRows(lower, ln, kept, Tokens(lower, query), |kept|)), ScoreOf, topK, rows)
    {
      hide IsTop;
      var source := ChunksIn(collection);
      ghost var all := Kept(source, filter, |source|);
      var tokens := SparseTokens(lower, query);
      if |tokens| == 0 {
        NoTokensNoRows(lower, ln, all, |all|);
        rows := TopByScore([], ScoreOf, topK);
        return;
      }
      var kept, docs, rowById := Collect(lower, source, filter);
      var model := BuildBm25Model(docs, ln);
      rows := ScoreRows(lower, ln, kept, docs, rowById, model, tokens);
      rows := TopByScore(rows, ScoreOf, topK);
    }

    /** Two chunks per summary, say: the chunks of each wanted summary, groups in arbitrary order. */
    method GetChunksBySummaryIds(collection: string, summaryIds: seq<string>, topKPerSummary: int)
      returns (merged: seq<Candidate>)
      ensures IsExpansion(ChunksIn(collection), summaryIds, topKPerSummary, merged)
    {
      hide Cut, Group, Concatenated, Visited;
      var source := ChunksIn(collection);
      var groups := GroupRows(source, summaryIds);
      merged := [];
      ghost var order: seq<string> := [];
      var remaining := groups.Keys;
      NothingVisited(source, groups.Keys, topKPerSummary);
      while remaining != {}
        invariant Visited(groups.Keys, remaining, order)
        invariant merged == Concatenated(source, order, topKPerSummary, |order|)
        decreases |remaining|
      {
        var id :| id in remaining;  // map iteration order is arbitrary
        VisitOne(groups.Keys, remaining, order, id);
        ConcatenatedSnoc(source, order, id, topKPerSummary);
        merged := merged + Cut(groups[id], topKPerSummary);
        order, remaining := order + [id], remaining - {id};
      }
      AllVisited(source, summaryIds, groups, order);
    }
  }

  lemma {:induction false} NoTokensNoRows(lower: char -> char, ln: real -> real, kept: seq<Chunk>, n: nat)
    requires n <= |kept|
    ensures SparseRows(lower, ln, kept, [], n) == []
  {
    hide SparseScore, Tokens, Speaker;
    if n > 0 {
      NoTokensNoRows(lower, ln, kept, n - 1);
      NoTokensNoScore(lower, ln, kept, n - 1);
    }
  }

  lemma NoTokensNoScore(lower: char -> char, ln: real -> real, kept: seq<Chunk>, i: nat)
    requires i < |kept|
    ensures SparseScore(lower, ln, kept, [], i) == 0.0
  {
    hide Tokens, Speaker, DocTerm;
  }

  lemma DocsOfSnoc(lower: char -> char, kept: seq<Chunk>, c: Chunk)
    ensures DocsOf(lower, kept + [c]) == DocsOf(lower, kept) + [DocOf(lower, c)]
  {
    hide Tokens;
  }

  lemma DocsOfNothing(lower: char -> char)
    ensures DocsOf(lower, []) == []
  {
  }

  /** The filter-passing chunks, their token lists, and the row kept for each id. */
  method Collect(lower: char -> char, source: seq<Chunk>, filter: Filter)
    returns (kept: seq<Chunk>, docs: seq<Doc>, rowById: map<string, Candidate>)
    ensures kept == Kept(source, filter, |source|) && docs == DocsOf(lower, kept)
    ensures IsRowIndex(kept, rowById)
  {
    hide MatchFilter, IsRowIndex, Tokens, DocsOf;
    kept, docs := [], [];
    DocsOfNothing(lower);
    for i := 0 to |source|
      invariant kept == Kept(source, filter, i) && docs == DocsOf(lower, kept)
    {
      if !MatchFilter(source[i].documentId, filter) { continue; }
      var tokens := SparseTokens(lower, source[i].text);
      DocsOfSnoc(lower, kept, source[i]);
      kept := kept + [source[i]];
      docs := docs + [Doc(source[i].chunkId, tokens)];
    }
    rowById := RowsById(kept);
  }

  ghost predicate RowsUpTo(kept: seq<Chunk>, n: nat, rowById: map<string, Candidate>)
    requires n <= |kept|
  {
    && rowById.Keys == KeysUpTo(kept, ChunkKey, n)
    && forall id :: id in rowById ==> rowById[id] == ChunkRow(kept[LastAt(kept, ChunkKey, n, id)], 0.0, "sparse_chunk")
  }

  ghost predicate IsRowIndex(kept: seq<Chunk>, rowById: map<string, Candidate>) {
    forall i :: 0 <= i < |kept| ==>
      kept[i].chunkId in rowById && rowById[kept[i].chunkId] == ChunkRow(kept[Speaker(kept, i)], 0.0, "sparse_chunk")
  }

  lemma RowsOneMore(kept: seq<Chunk>, n: nat, rowById: map<string, Candidate>)
    requires n < |kept| && RowsUpTo(kept, n, rowById)
    ensures RowsUpTo(kept, n + 1, rowById[kept[n].chunkId := ChunkRow(kept[n], 0.0, "sparse_chunk")])
  {
  }

  lemma RowIndexComplete(kept: seq<Chunk>, rowById: map<string, Candidate>)
    requires RowsUpTo(kept, |kept|, rowById)
    ensures IsRowIndex(kept, rowById)
  {
    forall i | 0 <= i < |kept|
      ensures kept[i].chunkId in rowById
    {
      KeyAtPosition(kept, ChunkKey, i);
    }
  }

  method RowsById(kept: seq<Chunk>) returns (rowById: map<string, Candidate>)
    ensures IsRowIndex(kept, rowById)
  {
    hide RowsUpTo, IsRowIndex;
    rowById := map[];
    NoRowsYet(kept);
    for i := 0 to |kept|
      invariant RowsUpTo(kept, i, rowById)
    {
      RowsOneMore(kept, i, rowById);
      rowById := rowById[kept[i].chunkId := ChunkRow(kept[i], 0.0, "sparse_chunk")];
    }
    RowIndexComplete(kept, rowById);
  }

  lemma NoRowsYet(kept: seq<Chunk>)
    ensures RowsUpTo(kept, 0, map[])
  {
  }

  lemma SpeakerIsLast(lower: char -> char, kept: seq<Chunk>, i: nat)
    requires i < |kept|
    ensures IsLast(DocsOf(lower, kept), |kept|, Speaker(kept, i))
  {
  }

  method ScoreRows(lower: char -> char, ln: real -> real, kept: seq<Chunk>, docs: seq<Doc>, rowById: map<string, Candidate>,
                   model: Model, tokens: seq<string>) returns (rows: seq<Candidate>)
    requires docs == DocsOf(lower, kept) && IsModel(docs, ln, model)
    requires IsRowIndex(kept, rowById)
    ensures rows == SparseRows(lower, ln, kept, tokens, |kept|)
  {
    hide IsModel, SparseScore, Tokens, DocsOf, IsRowIndex, Speaker;
    rows := [];
    for i := 0 to |docs|
      invariant rows == SparseRows(lower, ln, kept, tokens, i)
    {
      var score := ScoreDoc(lower, ln, kept, docs, i, model, tokens);
      IndexedRow(kept, rowById, i);
      if score <= 0.0 { continue; }
      rows := rows + [rowById[kept[i].chunkId].(score := score)];
    }
  }

  lemma IndexedRow(kept: seq<Chunk>, rowById: map<string, Candidate>, i: nat)
    requires IsRowIndex(kept, rowById) && i < |kept|
    ensures kept[i].chunkId in rowById
    ensures rowById[kept[i].chunkId] == ChunkRow(kept[Speaker(kept, i)], 0.0, "sparse_chunk")
  {
  }

  method ScoreDoc(lower: char -> char, ln: real -> real, kept: seq<Chunk>, docs: seq<Doc>, i: nat, model: Model,
                  tokens: seq<string>) returns (score: real)
    requires docs == DocsOf(lower, kept) && IsModel(docs, ln, model) && i < |kept|
    ensures score == SparseScore(lower, ln, kept, tokens, i)
  {
    hide IsModel, DocScore, Tokens, IsLast;
    score := Score(model, docs[i].id, tokens, docs, ln);
    SpeakerIsLast(lower, kept, i);
    assert docs[Speaker(kept, i)].id == docs[i].id;
  }

  ghost predicate IsGrouping(source: seq<Chunk>, n: nat, summaryIds: seq<string>, groups: map<string, seq<Candidate>>)
    requires n <= |source|
  {
    && (forall id :: id in groups <==> id in summaryIds && Group(source, id, n) != [])
    && (forall id :: id in groups ==> groups[id] == Group(source, id, n))
  }

  lemma GroupingOneMore(source: seq<Chunk>, n: nat, summaryIds: seq<string>, groups: map<string, seq<Candidate>>)
    requires n < |source| && IsGrouping(source, n, summaryIds, groups)
    ensures var c := source[n];
            if c.summaryId !in summaryIds then IsGrouping(source, n + 1, summaryIds, groups)
            else IsGrouping(source, n + 1, summaryIds,
                   groups[c.summaryId := (if c.summaryId in groups then groups[c.summaryId] else []) + [ChunkRow(c, 0.0, "chunk")]])
  {
  }

  method GroupRows(source: seq<Chunk>, summaryIds: seq<string>) returns (groups: map<string, seq<Candidate>>)
    ensures IsGrouping(source, |source|, summaryIds, groups)
  {
    groups := map[];
    for i := 0 to |source|
      invariant IsGrouping(source, i, summaryIds, groups)
    {
      var c := source[i];
      GroupingOneMore(source, i, summaryIds, groups);
      if c.summaryId !in summaryIds { continue; }
      groups := groups[c.summaryId := (if c.summaryId in groups then groups[c.summaryId] else []) + [ChunkRow(c, 0.0, "chunk")]];
    }
  }

  /** The ids visited so far, in order, with `remaining` still to come. */
  ghost predicate Visited(all: set<string>, remaining: set<string>, order: seq<string>) {
    remaining <= all && NoRepeats(order) && forall id :: id in order <==> id in all && id !in remaining
  }

  lemma NothingVisited(source: seq<Chunk>, all: set<string>, topKPerSummary: int)
    ensures Visited(all, all, []) && Concatenated(source, [], topKPerSummary, 0) == []
  {
  }

  lemma VisitOne(all: set<string>, remaining: set<string>, order: seq<string>, id: string)
    requires Visited(all, remaining, order) && id in remaining
    ensures Visited(all, remaining - {id}, order + [id]) && id in all
  {
  }

  lemma AllVisited(source: seq<Chunk>, summaryIds: seq<string>, groups: map<string, seq<Candidate>>, order: seq<string>)
    requires IsGrouping(source, |source|, summaryIds, groups) && Visited(groups.Keys, {}, order)
    ensures IsGroupOrder(source, summaryIds, order)
  {
    hide Group;
  }

  lemma ConcatenatedSnoc(source: seq<Chunk>, order: seq<string>, id: string, topKPerSummary: int)
    ensures Concatenated(source, order + [id], topKPerSummary, |order| + 1)
         == Concatenated(source, order, topKPerSummary, |order|) + Cut(Group(source, id, |source|), topKPerSummary)
  {
    hide Cut, Group;
    ConcatenatedPrefix(source, order + [id], order, topKPerSummary, |order|);
  }

  lemma {:induction false} ConcatenatedPrefix(source: seq<Chunk>, a: seq<string>, b: seq<string>, topKPerSummary: int, n: nat)
    requires n <= |a| && n <= |b| && forall i :: 0 <= i < n ==> a[i] == b[i]
    ensures Concatenated(source, a, topKPerSummary, n) == Concatenated(source, b, topKPerSummary, n)
  {
    hide Cut, Group;
    if n > 0 { ConcatenatedPrefix(source, a, b, topKPerSummary, n - 1); }
  }
}
