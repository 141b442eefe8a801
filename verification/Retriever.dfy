/** Dense, sparse and hierarchical retrieval over the store, and the catalog. */
module Retriever {
  import opened Domain
  import opened Ranking
  import opened Vectors
  import opened Upsert
  import opened Bm25
  import opened MemoryStore
  import opened StoreLaws
  import opened Ingest
  import opened IngestRuns

  datatype Config = Config(topK: int, chunkCollection: string, summaryCollection: string)

  // ---------------------------------------------------------------- one search

  /** What a successful dense retrieval may answer. */
  ghost predicate IsDenseAnswer(root: real -> real, cfg: Config, chunks: seq<Chunk>, embed: Embedder, question: string,
                                filter: Filter, rows: seq<Candidate>)
    requires IsRoot(root)
  {
    && embed([question]).Ok? && |embed([question]).value| == 1
    && IsTop(multiset(DenseRows(root, chunks, filter, embed([question]).value[0], |chunks|)), ScoreOf, cfg.topK, rows)
  }

  method DirectChunk(store: MemoryStore, root: real -> real, cfg: Config, embed: Embedder, question: string, filter: Filter)
    returns (r: Result<seq<Candidate>>)
    requires IsRoot(root) && OnePerText(embed)
    ensures r.Err? <==> embed([question]).Err?
    ensures r.Ok? ==> IsDenseAnswer(root, cfg, store.ChunksIn(cfg.chunkCollection), embed, question, filter, r.value)
  {
    hide IsTop, DenseRows;
    var embedded := embed([question]);
    if embedded.Err? { return Err("embed question"); }
    var rows := store.SearchChunks(root, cfg.chunkCollection, embedded.value[0], cfg.topK, filter);
    r := Ok(rows);
  }

  /** What a sparse retrieval may answer. */
  ghost predicate IsSparseAnswer(lower: char -> char, ln: real -> real, cfg: Config, chunks: seq<Chunk>, question: string,
                                 filter: Filter, rows: seq<Candidate>)
  {
    var kept := Kept(chunks, filter, |chunks|);
    IsTop(multiset(SparseRows(lower, ln, kept, Tokens(lower, question), |kept|)), ScoreOf, cfg.topK, rows)
  }

  method SparseChunk(store: MemoryStore, lower: char -> char, ln: real -> real, cfg: Config, question: string, filter: Filter)
    returns (rows: seq<Candidate>)
    ensures IsSparseAnswer(lower, ln, cfg, store.ChunksIn(cfg.chunkCollection), question, filter, rows)
  {
    hide IsTop, SparseRows;
    rows := store.SearchChunksSparse(lower, ln, cfg.chunkCollection, question, cfg.topK, filter);
  }

  // ---------------------------------------------------------------- summaries, then chunks

  function SummaryIdsOf(rows: seq<Candidate>): (ids: seq<string>)
    ensures |ids| == |rows| && forall i :: 0 <= i < |rows| ==> ids[i] == rows[i].summaryId
  {
    seq(|rows|, i requires 0 <= i < |rows| => rows[i].summaryId)
  }

  function TextsOf(rows: seq<Candidate>): (texts: seq<string>)
    ensures |texts| == |rows| && forall i :: 0 <= i < |rows| ==> texts[i] == rows[i].text
  {
    seq(|rows|, i requires 0 <= i < |rows| => rows[i].text)
  }

  /** The rows re-scored against the question, and relabelled. */
  function Rescored(rows: seq<Candidate>, question: Vector, vectors: seq<Vector>): (out: seq<Candidate>)
    requires |vectors| == |rows|
    ensures |out| == |rows|
    ensures forall i :: 0 <= i < |rows| ==>
              out[i] == rows[i].(score := NewtonSimilarity(question, vectors[i]), layer := "hierarchical_chunk")
  {
    seq(|rows|, i requires 0 <= i < |rows| =>
      rows[i].(score := NewtonSimilarity(question, vectors[i]), layer := "hierarchical_chunk"))
  }

  /** Overwrite score and layer row by row. */
  method Rescore(rows: seq<Candidate>, question: Vector, vectors: seq<Vector>) returns (out: seq<Candidate>)
    requires |vectors| == |rows|
    ensures out == Rescored(rows, question, vectors)
  {
    hide NewtonSimilarity;
    out := rows;
    for i := 0 to |rows|
      invariant |out| == |rows| && out[i..] == rows[i..]
      invariant out[..i] == Rescored(rows, question, vectors)[..i]
    {
      var score := NewtonCosine(question, vectors[i]);
      assert out[i] == rows[i] by { assert out[i..][0] == rows[i..][0]; }
      out := out[i := out[i].(score := score, layer := "hierarchical_chunk")];
      assert out[i + 1..] == rows[i..][1..];
    }
  }

  /** Best summaries, at most two chunks of each, re-scored, best first, cut. */
  ghost predicate AnswersVia(root: real -> real, cfg: Config, summaries: seq<Summary>, chunks: seq<Chunk>, filter: Filter,
                             question: Vector, found: seq<Candidate>, expanded: seq<Candidate>, vectors: seq<Vector>,
                             rows: seq<Candidate>)
    requires IsRoot(root)
  {
    && IsTop(multiset(SummaryRows(root, summaries, filter, question, |summaries|)), ScoreOf, cfg.topK, found)
    && IsExpansion(chunks, SummaryIdsOf(found), 2, expanded)
    && |vectors| == |expanded|
    && IsTop(multiset(Rescored(expanded, question, vectors)), ScoreOf, cfg.topK, rows)
  }

  /** What a successful call may answer. */
  ghost predicate IsAnswer(root: real -> real, cfg: Config, summaries: seq<Summary>, chunks: seq<Chunk>, embed: Embedder,
                           question: string, filter: Filter, rows: seq<Candidate>)
    requires IsRoot(root)
  {
    && embed([question]).Ok? && |embed([question]).value| == 1
    && exists found: seq<Candidate>, expanded: seq<Candidate> ::
         && embed(TextsOf(expanded)).Ok?
         && AnswersVia(root, cfg, summaries, chunks, filter, embed([question]).value[0], found, expanded,
                       embed(TextsOf(expanded)).value, rows)
  }

  method Hierarchical(store: MemoryStore, root: real -> real, cfg: Config, embed: Embedder, question: string, filter: Filter)
    returns (r: Result<seq<Candidate>>)
    requires IsRoot(root) && OnePerText(embed) && cfg.topK > 0
    ensures embed([question]).Err? ==> r.Err?
    ensures r.Err? ==> exists texts :: embed(texts).Err?
    ensures r.Ok? ==> IsAnswer(root, cfg, store.SummariesIn(cfg.summaryCollection), store.ChunksIn(cfg.chunkCollection),
                               embed, question, filter, r.value)
  {
    hide IsTop, IsExpansion, Rescored, SummaryRows;
    var embedded := embed([question]);
    if embedded.Err? { return Err("embed question"); }
    var qv := embedded.value[0];
    var found := store.SearchSummaries(root, cfg.summaryCollection, qv, cfg.topK, filter);
    var expanded := store.GetChunksBySummaryIds(cfg.chunkCollection, SummaryIdsOf(found), 2);
    var vectors := embed(TextsOf(expanded));
    if vectors.Err? { return Err("embed chunks for rerank-lite"); }
    var rescored := Rescore(expanded, qv, vectors.value);
    var rows := TopByScore(rescored, ScoreOf, cfg.topK);
    assert AnswersVia(root, cfg, store.SummariesIn(cfg.summaryCollection), store.ChunksIn(cfg.chunkCollection), filter,
                      qv, found, expanded, vectors.value, rows);
    r := Ok(rows);
  }

  // ---------------------------------------------------------------- laws

  /**
   * The summaries at moment m and the chunks at moment n of a store that only ingestion has written:
   * the two stages of a retrieval lock the store separately, so an ingest may act in between.
   */
  ghost predicate IngestedState(events: seq<Event>, m: nat, n: nat, summaries: seq<Summary>, chunks: seq<Chunk>) {
    && WellFormedRun(events) && Ordered(events) && m <= |events| && n <= |events|
    && summaries == SummariesAfter(events, m) && chunks == ChunksAfter(events, n)
  }

  lemma RescoredOrigin(rows: seq<Candidate>, question: Vector, vectors: seq<Vector>, r: Candidate) returns (i: nat)
    requires |vectors| == |rows| && r in Rescored(rows, question, vectors)
    ensures i < |rows| && r == rows[i].(score := NewtonSimilarity(question, vectors[i]), layer := "hierarchical_chunk")
  {
    hide NewtonSimilarity;
    var out := Rescored(rows, question, vectors);
    i :| 0 <= i < |out| && out[i] == r;
  }

  /** A summary row that passes a document filter names that document's summary. */
  lemma FoundSummaryOfDocument(root: real -> real, events: seq<Event>, m: nat, filter: Filter, embedding: Vector, topK: int,
                               found: seq<Candidate>, s: Candidate, wanted: string)
    requires IsRoot(root) && WellFormedRun(events) && m <= |events| && AsksFor(filter, wanted) && s in found
    requires var summaries := SummariesAfter(events, m);
             IsTop(multiset(SummaryRows(root, summaries, filter, embedding, |summaries|)), ScoreOf, topK, found)
    ensures s.summaryId == SummaryId(wanted)
  {
    hide Cosine, SummaryId, IsRoot, WellFormedRun;
    var summaries := SummariesAfter(events, m);
    MemberOfSubset(multiset(SummaryRows(root, summaries, filter, embedding, |summaries|)), found);
    assert s in SummaryRows(root, summaries, filter, embedding, |summaries|);
    SummaryRowOrigin(root, summaries, filter, embedding, |summaries|, s);
    var i :| 0 <= i < |summaries| && MatchFilter(summaries[i].documentId, filter)
          && s == SummaryRow(summaries[i], Cosine(root, embedding, summaries[i].embedding));
    FilterMeaning(summaries[i].documentId, filter);
    SummaryNamesDocument(events, m, summaries[i]);
  }

  /** An expanded row of an ingested store belongs to the document its summary id names. */
  lemma ExpandedChunkOfDocument(events: seq<Event>, n: nat, ids: seq<string>, expanded: seq<Candidate>, r: Candidate, wanted: string)
    requires WellFormedRun(events) && Ordered(events) && n <= |events| && IsExpansion(ChunksAfter(events, n), ids, 2, expanded)
    requires r in expanded && forall id :: id in ids ==> id == SummaryId(wanted)
    ensures r.documentId == wanted && r.summaryId == SummaryId(wanted)
  {
    hide SummaryId, WellFormedRun, Ordered, IsExpansion;
    var chunks := ChunksAfter(events, n);
    ExpansionOrigin(chunks, ids, 2, expanded, r);
    var i :| 0 <= i < |chunks| && chunks[i].summaryId == r.summaryId && r == ChunkRow(chunks[i], 0.0, "chunk");
    ChunkHasSummary(events, n, chunks[i]);
    SummaryIdInjective(chunks[i].documentId, wanted);
  }

  lemma FilterHonouredVia(root: real -> real, cfg: Config, events: seq<Event>, m: nat, n: nat, filter: Filter, question: Vector,
                          found: seq<Candidate>, expanded: seq<Candidate>, vectors: seq<Vector>, rows: seq<Candidate>,
                          wanted: string, r: Candidate)
    requires IsRoot(root) && WellFormedRun(events) && Ordered(events) && m <= |events| && n <= |events|
    requires AsksFor(filter, wanted) && r in rows
    requires AnswersVia(root, cfg, SummariesAfter(events, m), ChunksAfter(events, n), filter, question,
                        found, expanded, vectors, rows)
    ensures r.documentId == wanted
  {
    hide IsExpansion, SummaryRows, SummaryId, IsRoot, WellFormedRun, Ordered, AsksFor, IsTop, Rescored;
    forall id | id in SummaryIdsOf(found)
      ensures id == SummaryId(wanted)
    {
      var k :| 0 <= k < |found| && SummaryIdsOf(found)[k] == id;
      FoundSummaryOfDocument(root, events, m, filter, question, cfg.topK, found, found[k], wanted);
    }
    TopMember(multiset(Rescored(expanded, question, vectors)), ScoreOf, cfg.topK, rows, r);
    var i := RescoredOrigin(expanded, question, vectors, r);
    ExpandedChunkOfDocument(events, n, SummaryIdsOf(found), expanded, expanded[i], wanted);
  }

  /**
   * The document filter is honoured in every store ingestion can reach, even when ingests act between
   * the two stages, although the chunk stage applies no filter: every returned row belongs to the
   * wanted document.
   */
  lemma DocumentFilterHonoured(root: real -> real, cfg: Config, events: seq<Event>, m: nat, n: nat, summaries: seq<Summary>,
                               chunks: seq<Chunk>, embed: Embedder, question: string, filter: Filter, rows: seq<Candidate>,
                               wanted: string)
    requires IsRoot(root) && IngestedState(events, m, n, summaries, chunks)
    requires IsAnswer(root, cfg, summaries, chunks, embed, question, filter, rows)
    requires AsksFor(filter, wanted)
    ensures forall r :: r in rows ==> r.documentId == wanted
  {
    hide AnswersVia, IsRoot, WellFormedRun, Ordered, AsksFor;
    var found: seq<Candidate>, expanded: seq<Candidate> :|
      && embed(TextsOf(expanded)).Ok?
      && AnswersVia(root, cfg, summaries, chunks, filter, embed([question]).value[0], found, expanded,
                    embed(TextsOf(expanded)).value, rows);
    forall r | r in rows
      ensures r.documentId == wanted
    {
      FilterHonouredVia(root, cfg, events, m, n, filter, embed([question]).value[0], found, expanded,
                        embed(TextsOf(expanded)).value, rows, wanted, r);
    }
  }

  /** Sparse retrieval is exact in every store ingestion can reach: its chunk ids are unique, whatever was uploaded. */
  lemma IngestedSparseSearch(lower: char -> char, ln: real -> real, cfg: Config, events: seq<Event>, n: nat, chunks: seq<Chunk>,
                             filter: Filter, question: string, rows: seq<Candidate>)
    requires LogLike(ln) && WellFormedRun(events) && n <= |events| && chunks == ChunksAfter(events, n)
    requires IsSparseAnswer(lower, ln, cfg, chunks, question, filter, rows)
    ensures var kept := Kept(chunks, filter, |chunks|);
            IsTop(multiset(SharingRows(lower, ln, kept, Tokens(lower, question), |kept|)), ScoreOf, cfg.topK, rows)
  {
    hide IsTop, Kept, SparseRows, SharingRows, Tokens, WellFormedRun, ChunksAfter, LogLike, UniqueKeys;
    ChunkIdsUnique(events, n);
    SparseSearchAnswers(lower, ln, chunks, filter, question, cfg.topK, rows);
  }

  lemma {:induction false} RescoredCount(rows: seq<Candidate>, question: Vector, vectors: seq<Vector>, id: string, n: nat)
    requires |vectors| == |rows| && n <= |rows|
    ensures CountOf(Rescored(rows, question, vectors), id, n) == CountOf(rows, id, n)
  {
    hide NewtonSimilarity;
    if n > 0 { RescoredCount(rows, question, vectors, id, n - 1); }
  }

  lemma BoundedVia(root: real -> real, cfg: Config, summaries: seq<Summary>, chunks: seq<Chunk>, filter: Filter,
                   question: Vector, found: seq<Candidate>, expanded: seq<Candidate>, vectors: seq<Vector>,
                   rows: seq<Candidate>, id: string)
    requires IsRoot(root) && cfg.topK > 0
    requires AnswersVia(root, cfg, summaries, chunks, filter, question, found, expanded, vectors, rows)
    ensures |rows| <= cfg.topK && Descending(rows, ScoreOf) && CountOf(rows, id, |rows|) <= 2
  {
    hide IsExpansion, SummaryRows, Rescored, IsRoot, CountOf;
    ExpansionCount(chunks, SummaryIdsOf(found), 2, expanded, id);
    RescoredCount(expanded, question, vectors, id, |expanded|);
    CountMonotone(rows, Rescored(expanded, question, vectors), id);
  }

  /** Whatever the store holds, at most two rows per summary and at most topK rows come back, best first. */
  lemma AnswerIsBounded(root: real -> real, cfg: Config, summaries: seq<Summary>, chunks: seq<Chunk>, embed: Embedder,
                        question: string, filter: Filter, rows: seq<Candidate>, id: string)
    requires IsRoot(root) && cfg.topK > 0
    requires IsAnswer(root, cfg, summaries, chunks, embed, question, filter, rows)
    ensures |rows| <= cfg.topK && Descending(rows, ScoreOf) && CountOf(rows, id, |rows|) <= 2
  {
    hide AnswersVia, IsRoot, CountOf;
    var found: seq<Candidate>, expanded: seq<Candidate> :|
      && embed(TextsOf(expanded)).Ok?
      && AnswersVia(root, cfg, summaries, chunks, filter, embed([question]).value[0], found, expanded,
                    embed(TextsOf(expanded)).value, rows);
    BoundedVia(root, cfg, summaries, chunks, filter, embed([question]).value[0], found, expanded,
               embed(TextsOf(expanded)).value, rows, id);
  }

  // ---------------------------------------------------------------- summaries only

  /** A catalog row: relabelled, a blank summary id replaced by the row's own id. */
  function CatalogRow(c: Candidate): Candidate {
    c.(layer := "catalog_summary", summaryId := if c.summaryId == "" then c.chunkId else c.summaryId)
  }

  /** Catalog search: the best summaries, each turned into a catalog row. */
  method SearchSummariesOnly(store: MemoryStore, root: real -> real, cfg: Config, embedding: Vector, topK: int, filter: Filter)
    returns (rows: seq<Candidate>, ghost found: seq<Candidate>)
    requires IsRoot(root)
    ensures var summaries := store.SummariesIn(cfg.summaryCollection);
            IsTop(multiset(SummaryRows(root, summaries, filter, embedding, |summaries|)), ScoreOf, topK, found)
    ensures |rows| == |found| && forall i :: 0 <= i < |rows| ==>
              && rows[i].layer == "catalog_summary"
              && rows[i].summaryId == (if found[i].summaryId == "" then found[i].chunkId else found[i].summaryId)
              && rows[i].(layer := found[i].layer, summaryId := found[i].summaryId) == found[i]
    ensures forall i :: 0 <= i < |rows| ==>
              rows[i].layer == "catalog_summary" && (rows[i].summaryId == "" ==> rows[i].chunkId == "")
  {
    hide IsTop;
    rows := store.SearchSummaries(root, cfg.summaryCollection, embedding, topK, filter);
    found := rows;
    for i := 0 to |rows|
      invariant |rows| == |found|
      invariant forall k :: i <= k < |found| ==> rows[k] == found[k]
      invariant forall k :: 0 <= k < i ==> rows[k] == CatalogRow(found[k])
    {
      rows := rows[i := rows[i].(layer := "catalog_summary")];
      if rows[i].summaryId == "" {
        rows := rows[i := rows[i].(summaryId := rows[i].chunkId)];
      }
    }
  }
}
