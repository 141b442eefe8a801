/** The local retrieval options against the store, and what early stopping reads from their answers. */
module LocalOptions {
  import opened Domain
  import opened Ranking
  import opened Text
  import opened Fusion
  import opened FusionLaws
  import opened Vectors
  import opened Bm25
  import opened MemoryStore
  import opened Upsert
  import opened StoreLaws
  import opened Ingest
  import opened IngestRuns
  import Splitter
  import opened UploadRuns
  import opened Orchestrator
  import Rerank
  import R = Retriever

  /**
   * What a local option sees: the store's collections, the embedder, and the functions of the platform.
   * Each search locks the store on its own, so dense and sparse search may find different chunks.
   */
  datatype Search = Search(
    lower: char -> char,
    ln: real -> real,
    root: real -> real,
    embed: Embedder,
    cfg: R.Config,
    chunks: seq<Chunk>,
    sparseChunks: seq<Chunk>,
    summaries: seq<Summary>,
    question: string,
    filter: Filter)

  ghost predicate DenseAnswer(s: Search, rows: seq<Candidate>)
    requires IsRoot(s.root)
  {
    R.IsDenseAnswer(s.root, s.cfg, s.chunks, s.embed, s.question, s.filter, rows)
  }

  ghost predicate SparseAnswer(s: Search, rows: seq<Candidate>) {
    R.IsSparseAnswer(s.lower, s.ln, s.cfg, s.sparseChunks, s.question, s.filter, rows)
  }

  ghost predicate Merges(s: Search, dense: seq<Candidate>, sparse: seq<Candidate>, rows: seq<Candidate>)
    requires IsRoot(s.root)
  {
    DenseAnswer(s, dense) && SparseAnswer(s, sparse) && IsTop(multiset(MergedRows(dense, sparse)), ScoreOf, s.cfg.topK, rows)
  }

  /** What a local option may answer. */
  ghost predicate LocalAnswer(s: Search, option: OptionKind, rows: seq<Candidate>)
    requires IsRoot(s.root) && IsLocal(option)
  {
    match option
    case LocalDense => DenseAnswer(s, rows)
    case LocalSparse => SparseAnswer(s, rows)
    case LocalHier => R.IsAnswer(s.root, s.cfg, s.summaries, s.chunks, s.embed, s.question, s.filter, rows)
    case HybridRrf => exists dense, sparse :: Merges(s, dense, sparse, rows)
  }

  /** The fetch closure of a local option. */
  method FetchLocal(store: MemoryStore, s: Search, option: OptionKind) returns (r: Result<seq<Candidate>>)
    requires IsRoot(s.root) && IsLocal(option) && OnePerText(s.embed) && s.cfg.topK > 0
    requires s.chunks == s.sparseChunks == store.ChunksIn(s.cfg.chunkCollection)
    requires s.summaries == store.SummariesIn(s.cfg.summaryCollection)
    ensures r.Ok? ==> LocalAnswer(s, option, r.value)
    ensures r.Err? ==> exists texts :: s.embed(texts).Err?
  {
    hide R.IsDenseAnswer, R.IsSparseAnswer, R.IsAnswer, OnePerText, IsRoot, IsTop, MergedRows, FusionOf;
    match option
    case LocalDense =>
      r := R.DirectChunk(store, s.root, s.cfg, s.embed, s.question, s.filter);
    case LocalSparse =>
      var rows := R.SparseChunk(store, s.lower, s.ln, s.cfg, s.question, s.filter);
      r := Ok(rows);
    case LocalHier =>
      r := R.Hierarchical(store, s.root, s.cfg, s.embed, s.question, s.filter);
    case HybridRrf =>
      var dense := R.DirectChunk(store, s.root, s.cfg, s.embed, s.question, s.filter);
      if dense.Err? { return dense; }
      var sparse := R.SparseChunk(store, s.lower, s.ln, s.cfg, s.question, s.filter);
      var merged := MergeCandidatesRRF(dense.value, sparse, s.cfg.topK);
      assert Merges(s, dense.value, sparse, merged);
      r := Ok(merged);
  }

  // ---------------------------------------------------------------- early stopping

  lemma LocalAnswerDescending(s: Search, option: OptionKind, rows: seq<Candidate>)
    requires IsRoot(s.root) && IsLocal(option) && LocalAnswer(s, option, rows)
    ensures Descending(rows, ScoreOf)
  {
    hide DenseRows, SparseRows, SummaryRows, IsExpansion, MergedRows, IsRoot, R.Rescored;
  }

  /** On a list sorted best first, the head has the highest score. */
  lemma HeadIsMaximum(rows: seq<Candidate>)
    requires Descending(rows, ScoreOf) && rows != []
    ensures rows[0] in rows && forall c :: c in rows ==> c.score <= rows[0].score
  {
    forall c | c in rows
      ensures c.score <= rows[0].score
    {
      var i :| 0 <= i < |rows| && rows[i] == c;
      assert i > 0 ==> ScoreOf(rows[0]) >= ScoreOf(rows[i]);
    }
  }

  /**
   * Early stop reads a true maximum: on any answer of any local option, over any store, it fires
   * exactly when there are enough candidates or some candidate reaches the threshold.
   */
  lemma EarlyStopReadsMaximum(s: Search, option: OptionKind, rows: seq<Candidate>, minCandidates: int, topScore: real)
    requires IsRoot(s.root) && IsLocal(option) && LocalAnswer(s, option, rows)
    ensures ShouldEarlyStop(rows, minCandidates, topScore) <==>
            rows != [] && (0 < minCandidates <= |rows| || (topScore > 0.0 && exists c :: c in rows && c.score >= topScore))
  {
    hide LocalAnswer, Descending, IsRoot;
    LocalAnswerDescending(s, option, rows);
    if rows != [] { HeadIsMaximum(rows); }
  }

  lemma HybridIsFusion(s: Search, rows: seq<Candidate>) returns (dense: Hits, sparse: Hits)
    requires IsRoot(s.root) && LocalAnswer(s, HybridRrf, rows)
    ensures FusionOf([dense, sparse], s.cfg.topK, rows)
  {
    hide FusionOf, IsRoot, IsTop, R.IsDenseAnswer, R.IsSparseAnswer, MergedRows;
    dense, sparse :| Merges(s, dense, sparse, rows);
    MergedIsFusion(dense, sparse, s.cfg.topK, rows);
  }

  /** No hybrid candidate scores above 2/61, so a larger threshold leaves only the candidate-count rule. */
  lemma HybridStopsByCountOnly(s: Search, rows: seq<Candidate>, minCandidates: int, topScore: real)
    requires IsRoot(s.root) && LocalAnswer(s, HybridRrf, rows) && topScore > 2.0 / 61.0
    ensures ShouldEarlyStop(rows, minCandidates, topScore) <==> 0 < minCandidates <= |rows|
  {
    hide FusionOf, LocalAnswer, IsRoot;
    if rows != [] {
      var dense, sparse := HybridIsFusion(s, rows);
      FusedScoreRange([dense, sparse], s.cfg.topK, rows, rows[0]);
    }
  }

  /** The built-in threshold is such a one. */
  lemma BuiltInThresholdNeverFires(s: Search, rows: seq<Candidate>)
    requires IsRoot(s.root) && LocalAnswer(s, HybridRrf, rows)
    ensures ShouldEarlyStop(rows, 3, 0.045) <==> |rows| >= 3
  {
    hide LocalAnswer, IsRoot;
    HybridStopsByCountOnly(s, rows, 3, 0.045);
  }

  // ---------------------------------------------------------------- truncation composes

  /** All candidates an option's answer was cut from. */
  ghost predicate CandidatesOf(s: Search, option: OptionKind, all: multiset<Candidate>)
    requires IsRoot(s.root) && IsLocal(option)
  {
    match option
    case LocalDense =>
      && s.embed([s.question]).Ok? && |s.embed([s.question]).value| == 1
      && all == multiset(DenseRows(s.root, s.chunks, s.filter, s.embed([s.question]).value[0], |s.chunks|))
    case LocalSparse =>
      var kept := Kept(s.sparseChunks, s.filter, |s.sparseChunks|);
      all == multiset(SparseRows(s.lower, s.ln, kept, Tokens(s.lower, s.question), |kept|))
    case LocalHier =>
      && s.embed([s.question]).Ok? && |s.embed([s.question]).value| == 1
      && exists found: seq<Candidate>, expanded: seq<Candidate> :: Expands(s, s.embed([s.question]).value[0], found, expanded, all)
    case HybridRrf =>
      exists dense, sparse :: DenseAnswer(s, dense) && SparseAnswer(s, sparse) && all == multiset(MergedRows(dense, sparse))
  }

  /** The rows of the hierarchical search before its last cut. */
  ghost predicate Expands(s: Search, question: Vector, found: seq<Candidate>, expanded: seq<Candidate>, all: multiset<Candidate>)
    requires IsRoot(s.root)
  {
    && IsTop(multiset(SummaryRows(s.root, s.summaries, s.filter, question, |s.summaries|)), ScoreOf, s.cfg.topK, found)
    && IsExpansion(s.chunks, R.SummaryIdsOf(found), 2, expanded)
    && s.embed(R.TextsOf(expanded)).Ok? && |s.embed(R.TextsOf(expanded)).value| == |expanded|
    && all == multiset(R.Rescored(expanded, question, s.embed(R.TextsOf(expanded)).value))
  }

  /** Every local answer is the cut of all its candidates. */
  lemma AnswerIsCut(s: Search, option: OptionKind, rows: seq<Candidate>) returns (all: multiset<Candidate>)
    requires IsRoot(s.root) && IsLocal(option) && LocalAnswer(s, option, rows)
    ensures CandidatesOf(s, option, all) && IsTop(all, ScoreOf, s.cfg.topK, rows)
  {
    hide IsTop, DenseRows, SparseRows, SummaryRows, IsExpansion, MergedRows, IsRoot, R.Rescored;
    match option
    case LocalDense =>
      all := multiset(DenseRows(s.root, s.chunks, s.filter, s.embed([s.question]).value[0], |s.chunks|));
    case LocalSparse =>
      var kept := Kept(s.sparseChunks, s.filter, |s.sparseChunks|);
      all := multiset(SparseRows(s.lower, s.ln, kept, Tokens(s.lower, s.question), |kept|));
    case LocalHier =>
      var question := s.embed([s.question]).value[0];
      var found: seq<Candidate>, expanded: seq<Candidate> :|
        && s.embed(R.TextsOf(expanded)).Ok?
        && R.AnswersVia(s.root, s.cfg, s.summaries, s.chunks, s.filter, question, found, expanded,
                        s.embed(R.TextsOf(expanded)).value, rows);
      all := multiset(R.Rescored(expanded, question, s.embed(R.TextsOf(expanded)).value));
      assert Expands(s, question, found, expanded, all);
    case HybridRrf =>
      var dense, sparse :| Merges(s, dense, sparse, rows);
      all := multiset(MergedRows(dense, sparse));
  }

  const LAYERS := {"chunk", "sparse_chunk", "hierarchical_chunk", "rrf_hybrid"}

  lemma {:induction false} DenseLayer(root: real -> real, source: seq<Chunk>, filter: Filter, embedding: Vector, n: nat,
                                       c: Candidate)
    requires IsRoot(root) && n <= |source| && c in DenseRows(root, source, filter, embedding, n)
    ensures c.layer == "chunk"
  {
    hide IsRoot, MatchFilter, Cosine;
    DenseRowOrigin(root, source, filter, embedding, n, c);
  }

  lemma {:induction false} SparseLayer(lower: char -> char, ln: real -> real, kept: seq<Chunk>, query: seq<string>, n: nat,
                                        c: Candidate)
    requires n <= |kept| && c in SparseRows(lower, ln, kept, query, n)
    ensures c.layer == "sparse_chunk"
  {
    hide SparseScore, Speaker;
    if c in SparseRows(lower, ln, kept, query, n - 1) { SparseLayer(lower, ln, kept, query, n - 1, c); }
  }

  lemma RescoredLayer(rows: seq<Candidate>, question: Vector, vectors: seq<Vector>, c: Candidate)
    requires |vectors| == |rows| && c in R.Rescored(rows, question, vectors)
    ensures c.layer == "hierarchical_chunk"
  {
    var i := R.RescoredOrigin(rows, question, vectors, c);
  }

  lemma MergedLayer(dense: Hits, sparse: Hits, c: Candidate)
    requires c in MergedRows(dense, sparse)
    ensures c.layer == "rrf_hybrid"
  {
    hide FusedScore, IdsUpTo, Representative;
  }

  lemma CandidateLayer(s: Search, option: OptionKind, all: multiset<Candidate>, c: Candidate)
    requires IsRoot(s.root) && IsLocal(option) && CandidatesOf(s, option, all) && c in all
    ensures c.layer == (match option
                        case LocalDense => "chunk"
                        case LocalSparse => "sparse_chunk"
                        case LocalHier => "hierarchical_chunk"
                        case HybridRrf => "rrf_hybrid")
  {
    hide DenseRows, SparseRows, MergedRows, IsRoot, R.Rescored, DenseAnswer, SparseAnswer;
    match option
    case LocalDense =>
      DenseLayer(s.root, s.chunks, s.filter, s.embed([s.question]).value[0], |s.chunks|, c);
    case LocalSparse =>
      var kept := Kept(s.sparseChunks, s.filter, |s.sparseChunks|);
      SparseLayer(s.lower, s.ln, kept, Tokens(s.lower, s.question), |kept|, c);
    case LocalHier =>
      var question := s.embed([s.question]).value[0];
      var found: seq<Candidate>, expanded: seq<Candidate> :| Expands(s, question, found, expanded, all);
      RescoredLayer(expanded, question, s.embed(R.TextsOf(expanded)).value, c);
    case HybridRrf =>
      var dense, sparse :| DenseAnswer(s, dense) && SparseAnswer(s, sparse) && all == multiset(MergedRows(dense, sparse));
      MergedLayer(dense, sparse, c);
  }

  lemma LayersClean(layer: string)
    requires layer in LAYERS
    ensures TrimSpace(layer) == layer
  {
    TrimOfTrimmed(layer);
  }

  /** No candidate of a local option carries a layer with surrounding blanks. */
  lemma CandidatesClean(s: Search, option: OptionKind, all: multiset<Candidate>)
    requires IsRoot(s.root) && IsLocal(option) && CandidatesOf(s, option, all)
    ensures Rerank.CleanLayers(all)
  {
    hide CandidatesOf, IsRoot, TrimSpace;
    forall c | c in all
      ensures Rerank.TrimLayer(c) == c
    {
      CandidateLayer(s, option, all, c);
      LayersClean(c.layer);
    }
  }

  /**
   * Without an external reranker the topM of any local option's topK answer is a best-first choice of
   * the topM best of all its candidates.
   */
  lemma TrimmedAnswerIsBest(s: Search, option: OptionKind, rows: seq<Candidate>, topM: int, out: seq<Candidate>)
      returns (all: multiset<Candidate>)
    requires IsRoot(s.root) && IsLocal(option) && LocalAnswer(s, option, rows)
    requires 0 < topM <= s.cfg.topK && Rerank.IsTrimmed(None, rows, topM, out)
    ensures CandidatesOf(s, option, all) && IsTop(all, ScoreOf, s.cfg.topK, rows) && IsTop(all, ScoreOf, topM, out)
  {
    hide LocalAnswer, CandidatesOf, IsRoot, IsTop, Rerank.IsTrimmed, Rerank.CleanLayers;
    all := AnswerIsCut(s, option, rows);
    CandidatesClean(s, option, all);
    Rerank.TrimOfTopIsTop(all, s.cfg.topK, rows, topM, out);
  }

  // ---------------------------------------------------------------- the two fusions over an ingested store

  lemma {:induction false} DenseIdsDistinct(root: real -> real, source: seq<Chunk>, filter: Filter, embedding: Vector, n: nat)
    requires IsRoot(root) && n <= |source| && UniqueKeys(source, ChunkKey)
    ensures NoRepeats(IdSeq(DenseRows(root, source, filter, embedding, n)))
  {
    hide IsRoot, MatchFilter, Cosine;
    if n > 0 {
      DenseIdsDistinct(root, source, filter, embedding, n - 1);
      var before := DenseRows(root, source, filter, embedding, n - 1);
      forall i | 0 <= i < |before|
        ensures before[i].chunkId != source[n - 1].chunkId
      {
        DenseRowOrigin(root, source, filter, embedding, n - 1, before[i]);
        var j :| 0 <= j < n - 1 && before[i] == ChunkRow(source[j], Cosine(root, embedding, source[j].embedding), "chunk");
        assert ChunkKey(source[j]) != ChunkKey(source[n - 1]);
      }
    }
  }

  lemma DistinctIdsDistinctRows(rows: seq<Candidate>)
    requires NoRepeats(IdSeq(rows))
    ensures NoRepeats(rows)
  {
    assert forall i :: 0 <= i < |rows| ==> IdSeq(rows)[i] == rows[i].chunkId;
  }

  lemma SameIdSameRow(rows: seq<Candidate>, a: Candidate, b: Candidate)
    requires NoRepeats(IdSeq(rows)) && a in rows && b in rows && a.chunkId == b.chunkId
    ensures a == b
  {
    var p :| 0 <= p < |rows| && rows[p] == a;
    var q :| 0 <= q < |rows| && rows[q] == b;
    assert IdSeq(rows)[p] == IdSeq(rows)[q];
  }

  /** Rows drawn from rows with distinct ids have distinct ids. */
  lemma DrawnIdsDistinct(rows: seq<Candidate>, out: seq<Candidate>)
    requires NoRepeats(IdSeq(rows)) && multiset(out) <= multiset(rows)
    ensures NoRepeats(IdSeq(out))
  {
    DistinctIdsDistinctRows(rows);
    DistinctAsSet(rows);
    var distinct := set r | r in rows;
    DrawnFromSet(distinct, out);
    forall i, j | 0 <= i < j < |out|
      ensures out[i].chunkId != out[j].chunkId
    {
      assert out[i] in out && out[j] in out;
      if out[i].chunkId == out[j].chunkId { SameIdSameRow(rows, out[i], out[j]); }
    }
  }

  lemma DenseAnswerDistinct(s: Search, dense: seq<Candidate>)
    requires IsRoot(s.root) && UniqueKeys(s.chunks, ChunkKey) && DenseAnswer(s, dense)
    ensures NoRepeats(IdSeq(dense))
  {
    hide DenseRows, IsRoot, UniqueKeys, NoRepeats;
    var embedding := s.embed([s.question]).value[0];
    DenseIdsDistinct(s.root, s.chunks, s.filter, embedding, |s.chunks|);
    DrawnIdsDistinct(DenseRows(s.root, s.chunks, s.filter, embedding, |s.chunks|), dense);
  }

  /**
   * In every store ingestion can reach, whatever was uploaded, dense answers repeat no id, so the merge
   * and the fusion of a dense answer with any sparse list give every id the same row up to the layer.
   */
  lemma FusionsAgreeOnIngested(s: Search, events: seq<Event>, n: nat, dense: Hits, sparse: Hits, id: string)
    requires IsRoot(s.root) && WellFormedRun(events) && n <= |events| && s.chunks == ChunksAfter(events, n)
    requires DenseAnswer(s, dense) && id in AllIds([dense, sparse])
    ensures MergedRow(dense, sparse)(id) == FusedRow([dense, sparse])(id).(layer := "rrf_hybrid")
  {
    hide IsRoot, WellFormedRun, ChunksAfter, DenseAnswer, UniqueKeys, NoRepeats, FusedScore, FirstUpTo, LastWith,
         FirstWith, IdsUpTo;
    ChunkIdsUnique(events, n);
    DenseAnswerDistinct(s, dense);
    SamePayload(dense, sparse, id);
    if id in IdsOf(dense) { DistinctIdsSamePayload(dense, |dense|, id); }
  }

  /** A hybrid row shows what dense search found under its id and, only where dense found nothing, what sparse search found. */
  lemma HybridRowOrigin(s: Search, rows: seq<Candidate>, r: Candidate) returns (dense: Hits, sparse: Hits, p: nat)
    requires IsRoot(s.root) && LocalAnswer(s, HybridRrf, rows) && r in rows
    ensures DenseAnswer(s, dense) && SparseAnswer(s, sparse) && r.score == PositionScore([dense, sparse], r.chunkId)
    ensures if r.chunkId in IdsOf(dense) then p < |dense| && SameButScoreAndLayer(dense[p], r)
            else p < |sparse| && SameButScoreAndLayer(sparse[p], r)
  {
    hide IsRoot, DenseAnswer, SparseAnswer, IsTop, MergedRows, ScoresIds, MergedRow, FusionOf, IdsUpTo, PositionScore,
         RowsFor, AllIds;
    dense, sparse :| Merges(s, dense, sparse, rows);
    p := MergedRowOrigin(dense, sparse, s.cfg.topK, rows, r);
    MergedIsFusion(dense, sparse, s.cfg.topK, rows);
    RowScoreByPosition([dense, sparse], s.cfg.topK, rows, r);
  }

  lemma MergedIsFusion(dense: Hits, sparse: Hits, topK: int, rows: Hits)
    requires IsTop(multiset(MergedRows(dense, sparse)), ScoreOf, topK, rows)
    ensures FusionOf([dense, sparse], topK, rows)
  {
    hide FusionOf, IsTop, ScoresIds, MergedRow, RowsFor, AllIds;
    MergedRowScores(dense, sparse);
    TopRowsAreFusion([dense, sparse], MergedRow(dense, sparse), topK, rows);
  }

  // ---------------------------------------------------------------- a hybrid answer at the very bound

  function UnitVectors(texts: seq<string>): (r: Result<seq<Vector>>)
    ensures r.Ok? && |r.value| == |texts| && forall i :: 0 <= i < |texts| ==> r.value[i] == [1.0]
  {
    Ok(seq(|texts|, i => [1.0]))
  }

  function SameCase(c: char): char { c }

  function LessOne(x: real): real { x - 1.0 }

  function PlainWorld(hash: string -> string): (outside: Outside)
    ensures outside.hash == hash && OnePerText(outside.embed)
  {
    Outside(hash, text => "text", Ok("summary"), UnitVectors, 0)
  }

  /** The upload of a file "f" holding the text "a". */
  function OneJob(hash: string -> string): Ingest.Job {
    var d := hash(DocumentKey("f", "a"));
    Ingest.Job(d, Summary(SummaryId(d), d, "f", "summary", [1.0], 0, "text"), [OnlyChunk(hash)])
  }

  function OnlyChunk(hash: string -> string): Chunk {
    var d := hash(DocumentKey("f", "a"));
    Chunk(ChunkId(d, 0), d, SummaryId(d), "f", "a", [1.0], 0, 0, 1, "text")
  }

  lemma LetterIsOneChunk(cfg: Ingest.Config)
    requires 0 <= cfg.chunkOverlap < cfg.chunkSize
    ensures Splitter.Chunks("a", cfg.chunkSize, cfg.chunkOverlap) == ["a"]
  {
    hide TrimSpace, Splitter.Windows, Splitter.Emitted;
    TrimOfTrimmed("a");
    Splitter.WindowsUnfold("a", cfg.chunkSize, cfg.chunkSize - cfg.chunkOverlap, 0);
    assert "a"[0..1] == "a";
    assert Splitter.RawWindows("a", cfg.chunkSize, cfg.chunkOverlap) == ["a"];
    Splitter.EmittedSnoc([], "a");
    Splitter.NothingEmitted();
    assert [] + ["a"] == ["a"];
    assert Splitter.Emission("a") == ["a"];
  }

  lemma OneJobPrepared(cfg: Ingest.Config, hash: string -> string)
    requires 0 <= cfg.chunkOverlap < cfg.chunkSize
    ensures Prepare(cfg, PlainWorld(hash), "f", Utf8("a")) == Ok(OneJob(hash))
  {
    hide TrimSpace, Splitter.Chunks, ChunkId, SummaryId, DocumentKey;
    TrimOfTrimmed("f");
    TrimOfTrimmed("a");
    TrimOfTrimmed("summary");
    LetterIsOneChunk(cfg);
    assert AllChunks(PlainWorld(hash), "f", "a", hash(DocumentKey("f", "a")), ["a"], UnitVectors(["a"]).value) == [OnlyChunk(hash)];
  }

  /** Ingesting that file into an empty store. */
  function OneUpload(hash: string -> string): seq<Event> {
    [StoreSummary(OneJob(hash)), StoreChunks(OneJob(hash))]
  }

  lemma OneUploadStores(cfg: Ingest.Config, hash: string -> string)
    requires 0 <= cfg.chunkOverlap < cfg.chunkSize
    ensures UploadRun(cfg, hash, OneUpload(hash)) && ChunksAfter(OneUpload(hash), 2) == [OnlyChunk(hash)]
  {
    hide Prepare, OneJob, ChunksAfter, OnePerText;
    var events := OneUpload(hash);
    OneJobPrepared(cfg, hash);
    assert UploadedAs(cfg, hash, OneJob(hash), PlainWorld(hash), "f", Utf8("a"));
    assert events[0] == StoreSummary(events[1].job);
    FirstWrite(events, OneJob(hash));
    OneJobChunks(hash);
  }

  lemma OneJobChunks(hash: string -> string)
    ensures OneJob(hash).chunks == [OnlyChunk(hash)]
  {
  }

  /** That store, asked for the file's own text. */
  function OneChunkSearch(root: real -> real, topK: int, hash: string -> string): Search {
    var only := [OnlyChunk(hash)];
    Search(SameCase, LessOne, root, UnitVectors, R.Config(topK, "c", "s"), only, only,
           SummariesAfter(OneUpload(hash), 2), "a", map[])
  }

  lemma OneToken()
    ensures Tokens(SameCase, "a") == ["a"]
  {
    assert Lower(SameCase, "a")[0] == SameCase("a"[0]);
    assert Lower(SameCase, "a") == "a";
    assert "a"[..1] == "a" && "a"[1..] == "";
    assert Fields("a", IsSeparator) == ["a"];
    assert FirstOccurrences(["a"], 1) == FirstOccurrences(["a"], 0) + ["a"];
  }

  lemma OneDenseRow(root: real -> real, topK: int, hash: string -> string) returns (dense: Hits)
    requires IsRoot(root)
    ensures DenseAnswer(OneChunkSearch(root, topK, hash), dense) && |dense| == 1 && dense[0].chunkId == OnlyChunk(hash).chunkId
  {
    hide IsTop, Cosine, OnlyChunk, SummariesAfter;
    var only := OnlyChunk(hash);
    var row := ChunkRow(only, Cosine(root, [1.0], only.embedding), "chunk");
    assert UnitVectors(["a"]).value[0] == [1.0];
    assert DenseRows(root, [only], map[], [1.0], 1) == DenseRows(root, [only], map[], [1.0], 0) + [row];
    dense := [row];
    SoleRow(row, topK);
    var s := OneChunkSearch(root, topK, hash);
    assert DenseRows(s.root, s.chunks, s.filter, s.embed([s.question]).value[0], |s.chunks|) == [row];
  }

  lemma SoleRow(row: Candidate, topK: int)
    ensures IsTop(multiset([row]), ScoreOf, topK, [row])
  {
  }

  lemma OnePositiveScore(only: Chunk)
    requires only.text == "a"
    ensures SparseScore(SameCase, LessOne, [only], ["a"], 0) > 0.0
  {
    hide Tokens, SparseScore, Speaker;
    OneToken();
    assert ["a"][0] in Tokens(SameCase, only.text);
    assert LogLike(LessOne);
    PositiveIffShares(SameCase, LessOne, [only], ["a"], 0);
  }

  lemma OneKept(only: Chunk)
    ensures Kept([only], map[], 1) == [only]
  {
    assert Kept([only], map[], 1) == Kept([only], map[], 0) + [only];
  }

  lemma OneSparseRow(root: real -> real, topK: int, hash: string -> string) returns (sparse: Hits)
    ensures SparseAnswer(OneChunkSearch(root, topK, hash), sparse)
    ensures |sparse| == 1 && sparse[0].chunkId == OnlyChunk(hash).chunkId
  {
    hide Tokens, SparseScore, Speaker, IsTop, Kept, ChunkId, SummaryId, SummariesAfter;
    var only := OnlyChunk(hash);
    OneToken();
    OneKept(only);
    OnePositiveScore(only);
    var row := ChunkRow(only, SparseScore(SameCase, LessOne, [only], ["a"], 0), "sparse_chunk");
    assert SparseRows(SameCase, LessOne, [only], ["a"], 1) == SparseRows(SameCase, LessOne, [only], ["a"], 0) + [row];
    sparse := [row];
    SoleRow(row, topK);
    var s := OneChunkSearch(root, topK, hash);
    var kept := Kept(s.sparseChunks, s.filter, |s.sparseChunks|);
    assert SparseRows(s.lower, s.ln, kept, Tokens(s.lower, s.question), |kept|) == [row];
  }

  lemma MergedPair(dense: Hits, sparse: Hits, topK: int) returns (rows: Hits)
    requires |dense| == 1 && |sparse| == 1 && dense[0].chunkId == sparse[0].chunkId
    ensures IsTop(multiset(MergedRows(dense, sparse)), ScoreOf, topK, rows)
    ensures |rows| == 1 && rows[0].score == 2.0 / 61.0
  {
    var id := dense[0].chunkId;
    assert IdsUpTo(dense, 1) == IdsUpTo(dense, 0) + {id} && IdsUpTo(sparse, 1) == IdsUpTo(sparse, 0) + {id};
    PairOfLists(dense, sparse, id);
    assert FirstRank(dense, id) == 1 && FirstRank(sparse, id) == 1 && Reciprocal(1) == 1.0 / 61.0;
    var row := MergedRow(dense, sparse)(id);
    assert MergedRows(dense, sparse) == {row};
    assert multiset({row}) == multiset([row]);
    rows := [row];
    SoleRow(row, topK);
  }

  /** The search finds what the uploads of a run have stored. */
  ghost predicate Ingested(s: Search, cfg: Ingest.Config, hash: string -> string, events: seq<Event>) {
    && UploadRun(cfg, hash, events)
    && s.chunks == s.sparseChunks == ChunksAfter(events, |events|) && s.summaries == SummariesAfter(events, |events|)
  }

  /**
   * The score rule can stop a hybrid answer over some store that uploads have written, under any
   * validated configuration, exactly for thresholds in (0, 2/61].
   */
  lemma HybridScoreRuleReachable(root: real -> real, topK: int, cfg: Ingest.Config, hash: string -> string, topScore: real)
    requires IsRoot(root) && 0 <= cfg.chunkOverlap < cfg.chunkSize
    ensures (exists s: Search, events: seq<Event>, rows: seq<Candidate> ::
               && s.root == root && s.cfg.topK == topK && Ingested(s, cfg, hash, events)
               && LocalAnswer(s, HybridRrf, rows) && ShouldEarlyStop(rows, 0, topScore))
        <==> 0.0 < topScore <= 2.0 / 61.0
  {
    hide IsRoot, DenseAnswer, SparseAnswer, IsTop, MergedRows, OneChunkSearch, OnlyChunk, Ingested;
    if 0.0 < topScore <= 2.0 / 61.0 {
      var s := OneChunkSearch(root, topK, hash);
      SearchFields(root, topK, cfg, hash);
      var dense := OneDenseRow(root, topK, hash);
      var sparse := OneSparseRow(root, topK, hash);
      var rows := MergedPair(dense, sparse, topK);
      assert Merges(s, dense, sparse, rows);
      assert LocalAnswer(s, HybridRrf, rows) && ShouldEarlyStop(rows, 0, topScore);
    }
    forall s: Search, rows: seq<Candidate> |
      s.root == root && s.cfg.topK == topK && LocalAnswer(s, HybridRrf, rows) && ShouldEarlyStop(rows, 0, topScore)
      ensures 0.0 < topScore <= 2.0 / 61.0
    {
      if topScore > 2.0 / 61.0 { HybridStopsByCountOnly(s, rows, 0, topScore); }
    }
  }

  lemma SearchFields(root: real -> real, topK: int, cfg: Ingest.Config, hash: string -> string)
    requires 0 <= cfg.chunkOverlap < cfg.chunkSize
    ensures var s := OneChunkSearch(root, topK, hash);
            s.root == root && s.cfg.topK == topK && Ingested(s, cfg, hash, OneUpload(hash))
  {
    hide UploadRun, ChunksAfter, SummariesAfter, OnlyChunk;
    OneUploadStores(cfg, hash);
  }
}
