/** Stores written under an embedder that acts text by text: every record keeps the vector of its own text. */
module EmbeddedStore {
  import opened Domain
  import opened Text
  import opened Ranking
  import opened Vectors
  import opened Upsert
  import opened Splitter
  import opened MemoryStore
  import opened StoreLaws
  import opened SearchLaws
  import opened Ingest
  import opened IngestRuns
  import R = Retriever

  /** Whatever else is asked for along with it, a text is embedded as `vector` says. */
  ghost predicate TextByText(embed: Embedder, vector: string -> Vector) {
    forall texts :: embed(texts).Ok? ==>
      |embed(texts).value| == |texts| && forall i :: 0 <= i < |texts| ==> embed(texts).value[i] == vector(texts[i])
  }

  ghost predicate EmbeddedAs(cfg: Ingest.Config, vector: string -> Vector, job: Job, outside: Outside, filename: string,
                             upload: Upload)
  {
    && OnePerText(outside.embed) && TextByText(outside.embed, vector) && upload.Utf8?
    && Prepare(cfg, outside, filename, upload) == Ok(job)
  }

  /** Any interleaving of uploads, with any file names, hashes, classes and models, embedded by one such embedder. */
  ghost predicate EmbeddedRun(cfg: Ingest.Config, vector: string -> Vector, events: seq<Event>) {
    forall p :: 0 <= p < |events| ==>
      exists outside: Outside, filename: string, upload: Upload :: EmbeddedAs(cfg, vector, events[p].job, outside, filename, upload)
  }

  lemma JobEmbedded(cfg: Ingest.Config, vector: string -> Vector, events: seq<Event>, p: nat)
    requires EmbeddedRun(cfg, vector, events) && p < |events|
    ensures forall c :: c in events[p].job.chunks ==> c.embedding == vector(c.text)
    ensures events[p].job.summary.embedding == vector(events[p].job.summary.text)
  {
    hide Prepare, Chunks, TrimSpace, OnePerText, WellFormed, DocumentKey;
    var job := events[p].job;
    var outside: Outside, filename: string, upload: Upload :| EmbeddedAs(cfg, vector, job, outside, filename, upload);
    PreparedWellFormed(cfg, outside, filename, upload);
    PreparedRecords(cfg, outside, filename, upload);
    forall c | c in job.chunks
      ensures c.embedding == vector(c.text)
    {
      var i :| 0 <= i < |job.chunks| && job.chunks[i] == c;
    }
  }

  /** Every stored chunk of every run has the vector of its own text. */
  lemma ChunkKeepsVector(cfg: Ingest.Config, vector: string -> Vector, events: seq<Event>, n: nat, c: Chunk)
    requires EmbeddedRun(cfg, vector, events) && n <= |events| && c in ChunksAfter(events, n)
    ensures c.embedding == vector(c.text)
  {
    hide EmbeddedRun, ChunksAfter;
    ChunkFromRun(events, n, c);
    var p :| 0 <= p < n && events[p].StoreChunks? && c in events[p].job.chunks;
    JobEmbedded(cfg, vector, events, p);
  }

  lemma {:induction false} SummaryFromRun(events: seq<Event>, n: nat, s: Summary) returns (p: nat)
    requires n <= |events| && s in SummariesAfter(events, n)
    ensures p < n && events[p].StoreSummary? && s == events[p].job.summary
  {
    hide Upserted;
    match events[n - 1]
    case StoreSummary(job) =>
      UpsertedOrigin(SummariesAfter(events, n - 1), [job.summary], SummaryKey, s);
      if s in SummariesAfter(events, n - 1) {
        p := SummaryFromRun(events, n - 1, s);
      } else {
        p := n - 1;
      }
    case StoreChunks(_) => p := SummaryFromRun(events, n - 1, s);
  }

  /** And every stored summary. */
  lemma SummaryKeepsVector(cfg: Ingest.Config, vector: string -> Vector, events: seq<Event>, n: nat, s: Summary)
    requires EmbeddedRun(cfg, vector, events) && n <= |events| && s in SummariesAfter(events, n)
    ensures s.embedding == vector(s.text)
  {
    hide EmbeddedRun, SummariesAfter;
    var p := SummaryFromRun(events, n, s);
    JobEmbedded(cfg, vector, events, p);
  }

  /** A dense answer scores every row with the cosine of the question's vector and the vector of the row's own text. */
  lemma DenseScoresText(cfg: Ingest.Config, vector: string -> Vector, events: seq<Event>, n: nat, root: real -> real,
                        search: R.Config, embed: Embedder, question: string, filter: Filter, rows: seq<Candidate>, r: Candidate)
    requires EmbeddedRun(cfg, vector, events) && n <= |events| && IsRoot(root) && TextByText(embed, vector)
    requires R.IsDenseAnswer(root, search, ChunksAfter(events, n), embed, question, filter, rows) && r in rows
    ensures r.score == Cosine(root, vector(question), vector(r.text))
  {
    hide EmbeddedRun, ChunksAfter, Cosine, IsRoot, DenseRows, IsTop, MatchFilter;
    var chunks := ChunksAfter(events, n);
    var query := embed([question]).value[0];
    assert query == vector([question][0]);
    TopMember(multiset(DenseRows(root, chunks, filter, query, |chunks|)), ScoreOf, search.topK, rows, r);
    DenseRowMeaning(root, chunks, filter, query, |chunks|, r);
    var i :| 0 <= i < |chunks| && ShowsChunk(r, chunks[i]) && r.score == Cosine(root, query, chunks[i].embedding);
    assert ShowsChunk(r, chunks[i]);
    ChunkKeepsVector(cfg, vector, events, n, chunks[i]);
  }

  /** A row of a hierarchical answer, wherever it comes from. */
  lemma RescoredText(rows: seq<Candidate>, question: Vector, embed: Embedder, vector: string -> Vector, r: Candidate)
      returns (i: nat)
    requires TextByText(embed, vector) && embed(R.TextsOf(rows)).Ok? && |embed(R.TextsOf(rows)).value| == |rows|
    requires r in R.Rescored(rows, question, embed(R.TextsOf(rows)).value)
    ensures i < |rows| && r.(score := rows[i].score, layer := rows[i].layer) == rows[i] && r.layer == "hierarchical_chunk"
    ensures r.score == NewtonSimilarity(question, vector(r.text))
  {
    hide NewtonSimilarity;
    i := R.RescoredOrigin(rows, question, embed(R.TextsOf(rows)).value, r);
  }

  /**
   * Every row of a hierarchical answer shows a stored chunk that is among the first two of its summary,
   * that summary was found, and the score compares the question with the row's own text.
   */
  lemma HierarchicalScoresText(root: real -> real, search: R.Config, summaries: seq<Summary>, chunks: seq<Chunk>, embed: Embedder,
                               vector: string -> Vector, question: string, filter: Filter, rows: seq<Candidate>, r: Candidate)
      returns (p: nat)
    requires IsRoot(root) && TextByText(embed, vector) && r in rows
    requires R.IsAnswer(root, search, summaries, chunks, embed, question, filter, rows)
    ensures p < |chunks| && ShowsChunk(r, chunks[p]) && AmongFirst(chunks, 2, p) && r.layer == "hierarchical_chunk"
    ensures r.score == NewtonSimilarity(vector(question), vector(r.text))
    ensures exists s :: s in summaries && s.summaryId == r.summaryId && MatchFilter(s.documentId, filter)
  {
    hide NewtonSimilarity, Cosine, IsRoot, SummaryRows, IsExpansion, IsTop, MatchFilter, AmongFirst, R.Rescored;
    var found: seq<Candidate>, expanded: seq<Candidate> :|
      && embed(R.TextsOf(expanded)).Ok?
      && R.AnswersVia(root, search, summaries, chunks, filter, embed([question]).value[0], found, expanded,
                      embed(R.TextsOf(expanded)).value, rows);
    var query := embed([question]).value[0];
    assert query == vector([question][0]);
    TopMember(multiset(R.Rescored(expanded, query, embed(R.TextsOf(expanded)).value)), ScoreOf, search.topK, rows, r);
    var i := RescoredText(expanded, query, embed, vector, r);
    assert expanded[i] in expanded;
    ExpansionExact(chunks, R.SummaryIdsOf(found), 2, expanded, expanded[i]);
    p :| p < |chunks| && chunks[p].summaryId in R.SummaryIdsOf(found) && AmongFirst(chunks, 2, p)
         && ShowsChunk(expanded[i], chunks[p]);
    FoundSummary(root, summaries, filter, query, search.topK, found, chunks[p].summaryId);
  }

  lemma FoundSummary(root: real -> real, summaries: seq<Summary>, filter: Filter, query: Vector, topK: int, found: seq<Candidate>,
                     id: string)
    requires IsRoot(root) && id in R.SummaryIdsOf(found)
    requires IsTop(multiset(SummaryRows(root, summaries, filter, query, |summaries|)), ScoreOf, topK, found)
    ensures exists s :: s in summaries && s.summaryId == id && MatchFilter(s.documentId, filter)
  {
    hide Cosine, IsRoot, SummaryRows, IsTop, MatchFilter;
    var k :| 0 <= k < |found| && R.SummaryIdsOf(found)[k] == id;
    TopMember(multiset(SummaryRows(root, summaries, filter, query, |summaries|)), ScoreOf, topK, found, found[k]);
    SummaryRowMeaning(root, summaries, filter, query, |summaries|, found[k]);
    var i :| 0 <= i < |summaries| && MatchFilter(summaries[i].documentId, filter) && ShowsSummary(found[k], summaries[i]);
    assert summaries[i] in summaries;
  }

  lemma SummaryFound(root: real -> real, summaries: seq<Summary>, filter: Filter, query: Vector, topK: int, found: seq<Candidate>,
                     s: Summary)
    requires IsRoot(root) && s in summaries && MatchFilter(s.documentId, filter)
    requires |SummaryRows(root, summaries, filter, query, |summaries|)| <= topK
    requires IsTop(multiset(SummaryRows(root, summaries, filter, query, |summaries|)), ScoreOf, topK, found)
    ensures s.summaryId in R.SummaryIdsOf(found)
  {
    hide Cosine, IsRoot, SummaryRows, IsTop, MatchFilter;
    var all := SummaryRows(root, summaries, filter, query, |summaries|);
    var i :| 0 <= i < |summaries| && summaries[i] == s;
    var row := SummaryRow(s, Cosine(root, query, s.embedding));
    SummaryRowMeaning(root, summaries, filter, query, |summaries|, row);
    TopCount(multiset(all), ScoreOf, topK, found);
    assert row in multiset(found);
    var k :| 0 <= k < |found| && found[k] == row;
    assert R.SummaryIdsOf(found)[k] == s.summaryId;
  }

  /**
   * Nothing is lost below the limits: when neither the filter-passing summaries nor the answer reach TopK,
   * the first two chunks of every filter-passing summary are shown.
   */
  lemma HierarchicalShowsAll(root: real -> real, search: R.Config, summaries: seq<Summary>, chunks: seq<Chunk>, embed: Embedder,
                             question: string, filter: Filter, rows: seq<Candidate>, s: Summary, p: nat)
    requires IsRoot(root) && R.IsAnswer(root, search, summaries, chunks, embed, question, filter, rows)
    requires |SummaryRows(root, summaries, filter, embed([question]).value[0], |summaries|)| <= search.topK
    requires |rows| < search.topK && s in summaries && MatchFilter(s.documentId, filter)
    requires p < |chunks| && chunks[p].summaryId == s.summaryId && AmongFirst(chunks, 2, p)
    ensures exists r :: r in rows && ShowsChunk(r, chunks[p])
  {
    hide NewtonSimilarity, Cosine, IsRoot, SummaryRows, IsExpansion, IsTop, MatchFilter, AmongFirst, R.Rescored;
    var query := embed([question]).value[0];
    var found: seq<Candidate>, expanded: seq<Candidate> :|
      && embed(R.TextsOf(expanded)).Ok?
      && R.AnswersVia(root, search, summaries, chunks, filter, query, found, expanded, embed(R.TextsOf(expanded)).value, rows);
    SummaryFound(root, summaries, filter, query, search.topK, found, s);
    var row := ChunkRow(chunks[p], 0.0, "chunk");
    RowShows(chunks[p], 0.0, "chunk", row);
    ExpansionExact(chunks, R.SummaryIdsOf(found), 2, expanded, row);
    var i :| 0 <= i < |expanded| && expanded[i] == row;
    var rescored := R.Rescored(expanded, query, embed(R.TextsOf(expanded)).value);
    TopCount(multiset(rescored), ScoreOf, search.topK, rows);
    assert rescored[i] in multiset(rescored);
    assert rescored[i] in multiset(rows);
    assert ShowsChunk(rescored[i], chunks[p]);
  }
}
