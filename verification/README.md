# AgentRag retrieval core: a Dafny model and its proofs

AgentRag answers questions over uploaded documents. This project models the logic that decides
*what* is retrieved and *when* the service stops, and proves laws about it for every input, every
order in which ties and map iterations may come out, and every sequence of answers from the language
model, the tools and the network.

Verify everything with `dafny verify dfyconfig.toml` (Dafny 4.11).

| module | models |
|---|---|
| Vectors, CosineLaws | the hand-written Newton square root and both cosines (`internal/retrieval/retriever.go`, `internal/store/memory_store.go`) |
| Ranking | sorting by descending score and truncation, with any tie order |
| Fusion, FusionLaws | reciprocal rank fusion (`internal/agent/service.go`) |
| Bm25, Bm25Laws | tokenising, BM25 tables and scoring (`internal/store/bm25.go`) |
| Upsert, MemoryStore, StoreLaws, SearchLaws | the in-memory store and its searches (`internal/store/memory_store.go`) |
| Splitter, Ingest, IngestRuns, UploadRuns, EmbeddedStore | window splitting, identifiers, the two-step write, concurrent ingestion (`internal/ingest/service.go`) |
| Retriever | dense, sparse, hierarchical and catalog retrieval (`internal/retrieval/retriever.go`) |
| Rerank | reranking and trimming (`internal/rerank/client.go`) |
| Orchestrator, OrchestratorLaws, ReferenceLaws | option lists, external budget, early stop, counters (`internal/agent/service.go`) |
| LocalOptions | the local options against the store, and what early stopping reads from them |
| Planner, Workflow, AskLoops, AskTraces, AskBudget | planning, one attempt, the two retry loops, the budget of a whole request (`internal/agent/service.go`) |
| Domain, Text, Arithmetic | records, the `strings` functions the code relies on, shared arithmetic |

How the world outside appears:

* `float64` is `real`. `math.Log` is any strictly increasing function with ln 1 = 0 (`LogLike`), `math.Sqrt`
  any function giving exact positive roots (`IsRoot`), `unicode.ToLower` any function on characters.
* `sort.Slice` is not stable and Go maps iterate in any order. `Ranking.IsTop` describes all resulting
  lists; callers of the sorting method learn nothing more. Map iterations pick an arbitrary key.
* Fetches, tool texts, rewrites, grades, embeddings and reranker answers are arbitrary functions or
  scripts of answers or errors. An embedding client answers with one vector per text
  (`internal/llm/client.go:137-139`). The document hash is an arbitrary function.
* Slices and maps local to a call are Dafny sequences and maps; the store, its fields, the shared
  counters and the array a reranker sorts are mutable objects.
* Each store method is one critical section of the store's lock, so a concurrent run is a sequence of
  atomic upserts.

## Where code and documentation part

* README.md:33 of the repository promises `ORCHESTRATOR_MAX_EXTERNAL_CALLS` as a bound on the external
  calls of a request. With e external options on the route and q non-blank sub-queries, it is one exactly
  when it is zero or MaxRetries · e · q stays within it (`AskBudget.CapPerRequestIff`), for two reasons.
  The code counts only successful calls, so the cap bounds the tool calls of a single run exactly when it
  is zero or e · q stays within it (`OrchestratorLaws.CapBoundsCallsIff`). And every attempt starts a
  fresh count, so it bounds even the counted calls of a request exactly when
  MaxRetries · min(cap, e · q) stays within it (`AskBudget.CountedPerRequestIff`).
* README.md:36 speaks of a top score *above* the threshold; the code stops at the threshold too. For the
  hybrid route the built-in threshold 0.045 can never be reached
  (`LocalOptions.BuiltInThresholdNeverFires`).
* The planner's prompt asks for at most three sub-questions; the punctuation split used for unreadable
  answers has no such limit and is cut only by `PLANNER_MAX_SUBQUERIES`.
* The telemetry field `err` of a stage is true when there was *no* error (`internal/agent/service.go:551`);
  the model calls it `errIsNil`.
* A document id hashes `filename + "\n" + text`. A file name with a line break can share its key with a
  different upload (`Ingest.KeyCollision`); under every validated configuration two such uploads leave
  a torn document behind (`UploadRuns.LineBreakTears`). Without line breaks none ever is
  (`UploadRuns.UploadsStayIntact`).
* The prompt of the rewriting step asks for better recall, and every attempt rewrites its question. But
  retrieval searches with the planned sub-queries, the same in every attempt: the rewritten question
  reaches only reranking, answering, grading and the next rewriting (`internal/agent/service.go:500-510`).

## Model

| member | source | states |
|---|---|---|
| Vectors.NewtonSqrt | internal/retrieval/retriever.go:150-159 | for x ≥ 0 the loop never divides by zero; for x > 0 it returns a positive upper approximation of the root, the eighth Newton iterate |
| Vectors.NewtonDescends | internal/retrieval/retriever.go:155-157 | from the first step on z² ≥ x and the iterates never increase |
| Vectors.NewtonResidualRecurrence | internal/retrieval/retriever.go:156 | the relative residual q = z²/x − 1 follows q' = q²/(4(1 + q)) |
| Vectors.NewtonConverges | internal/retrieval/retriever.go:150-159 | for every x > 0 and n ≥ 1: 0 ≤ z² − x ≤ 4x·r^(2^(n−1)) with r = (x − 1)²/(16x): quadratic convergence |
| Vectors.NewtonErrorGlobal | internal/retrieval/retriever.go:150-159 | for every x > 0: 0 ≤ 4ⁿ(z² − x) ≤ (x − 1)², the bound that holds far from 1 |
| Vectors.NewtonEightSteps | internal/retrieval/retriever.go:155-157 | for 1/4 ≤ x ≤ 4 the eight steps give 0 ≤ z² − x ≤ x·10⁻³⁰ |
| Vectors.CauchySchwarz | internal/retrieval/retriever.go:138-143 | for all vectors the three accumulated sums satisfy dot² ≤ na·nb |
| Vectors.NewtonCosine | internal/retrieval/retriever.go:130-148 | for vectors of any lengths: no division by zero, 0 when a norm vanishes, result in [-1, 1] |
| Vectors.SelfSimilarity | internal/retrieval/retriever.go:130-148 | a vector of norm² in [1/4, 4] has similarity at least 1 − 10⁻³⁰ with itself |
| Vectors.ComputeCosine | internal/store/memory_store.go:221-241 | the store's loop computes the cosine whose meaning `CosineLaws.CosineTimesNorms` states |
| Vectors.CosineInRange | internal/store/memory_store.go:237-240 | the store's cosine lies in [-1, 1] |
| CosineLaws.DotWithUnit | internal/retrieval/retriever.go:138-143 | the accumulated sum against a unit vector is that component, and it is linear (`DotAdds`, `DotScales`): the dot product |
| CosineLaws.CosineTimesNorms | internal/store/memory_store.go:221-240 | over the shared prefix, times both exact norms the cosine is the dot product; when a norm vanishes it is 0 |
| CosineLaws.CosineSign | internal/store/memory_store.go:240 | the cosine has the sign of the dot product |
| CosineLaws.CosineSelf | internal/store/memory_store.go:221-240 | a vector that is not zero has cosine 1 with itself |
| CosineLaws.CosineScaled | internal/store/memory_store.go:221-240 | scaling a vector by a positive factor changes no cosine |
| CosineLaws.SimilarityTimesRoots | internal/retrieval/retriever.go:130-148 | times both Newton roots the retriever's cosine is the dot product; when a norm vanishes it is 0 |
| CosineLaws.SimilaritySign | internal/retrieval/retriever.go:147 | the retriever's cosine has the sign of the dot product |
| CosineLaws.SimilarityNearCosine | internal/retrieval/retriever.go:130-159 | for norms² in [1/4, 4] it agrees with the store's exact cosine up to the factor (1 + 10⁻³⁰)² |
| Ranking.TopByScore | internal/store/memory_store.go:96-99 | sort and cut: a best-first choice of the topK best rows, nothing better left out |
| Ranking.TopOfTop | internal/rerank/client.go:108-114 | the best m of the best k are a best m of everything, for m ≤ k and all tie orders |
| Ranking.TopCount | internal/store/memory_store.go:97-99 | a limit that is not positive or not exceeded returns everything, any other exactly topK rows |
| Fusion.RankMap | internal/agent/service.go:1091-1099 | each id is mapped to the rank of its first occurrence, and no other id is |
| Fusion.RankIsFirst | internal/agent/service.go:1093-1096 | no occurrence of an id precedes its recorded rank |
| Fusion.ScoreBounds | internal/agent/service.go:760-765 | a fused score is positive exactly for ids that occur, and at most m/61 for m lists |
| Fusion.FuseMultipleResultsRRF | internal/agent/service.go:745-778 | one row per id with its true fused score and first candidate, best first, cut at topK, for every map order |
| Fusion.MergeCandidatesRRF | internal/agent/service.go:1047-1089 | the same for dense and sparse, with the last dense or else first sparse candidate as representative |
| Fusion.TopRowsAreFusion | internal/agent/service.go:773-776 | the cut rows have distinct ids, true scores, descending order, and no omitted id beats a shown one |
| FusionLaws.MassConserved | internal/agent/service.go:745-778 | returned scores sum to at most Σ over lists and first positions p, counted from 1, of 1/(60 + p), with equality exactly when nothing was cut |
| FusionLaws.ShareOfPosition | internal/agent/service.go:760-765 | at its first position j a list gives an id a share s with s·(60 + j + 1) = 1 |
| FusionLaws.ScoreByPosition | internal/agent/service.go:760-765 | the fused score is the sum, list by list, of 1/(60 + first position), the positions found by scanning each list from its head |
| FusionLaws.RowScoreByPosition | internal/agent/service.go:757-776 | every returned row carries that sum, and no omitted id has a larger one |
| FusionLaws.ListOrderIrrelevant | internal/agent/service.go:759-765 | fused scores do not depend on the order of the lists |
| FusionLaws.FusedScoreRange | internal/agent/service.go:760-765 | every returned score lies in (0, m/61] |
| FusionLaws.ConsensusRespected | internal/agent/service.go:745-778 | if a precedes b in every list holding b, then any output showing b shows a earlier with a strictly higher score |
| FusionLaws.FirstAndLast | internal/agent/service.go:1053-1060 | the representatives are the first and the last occurrence of their id |
| FusionLaws.SamePayload | internal/agent/service.go:1052-1060 | the two fusions agree on an id's payload up to the layer exactly when its first and last dense occurrence do |
| FusionLaws.DistinctIdsSamePayload | internal/agent/service.go:1052-1060 | which is the case whenever the dense ids are distinct |
| FusionLaws.RepeatedDenseIdDiffers | internal/agent/service.go:1053-1055 | on a list with a repeated dense id, which no ingested store answers, the two fusions show different texts |
| FusionLaws.StrictCutSameIds | internal/agent/service.go:1075-1078 | without a tie at the cut all fusions of the same lists return the same ids |
| FusionLaws.TieAtCutTwoAnswers | internal/agent/service.go:773-776 | with a tie at the cut, the list with the tied id's own row in the last place is an output, too |
| FusionLaws.FusedIdsDeterminedIff | internal/agent/service.go:756-776 | the fused ids are the same for every map and tie order exactly when no omitted id ties with the last one |
| FusionLaws.MergedIdsDeterminedIff | internal/agent/service.go:1062-1078 | the same for the dense and sparse merge |
| FusionLaws.FusedRowOrigin | internal/agent/service.go:749-772 | every fused row is, up to score and layer, the first candidate with its id in the first list that holds it |
| FusionLaws.MergedRowOrigin | internal/agent/service.go:1052-1073 | every merged row is, up to score and layer, the last dense candidate with its id or, without one, the first sparse |
| Bm25.SparseTokens | internal/store/bm25.go:103-119 | the tokens are exactly the maximal runs of token characters of the lower-cased text, each once |
| Text.FieldsAreMaximal | internal/store/bm25.go:105-107 | splitting gives exactly the stretches free of separators and bounded by separators or the ends |
| Bm25.BuildBm25Model | internal/store/bm25.go:25-71 | the loop-built df, tf, dl, idf and average agree with their set-theoretic definitions; a repeated id is described by its last document |
| Bm25.Score | internal/store/bm25.go:73-101 | scoring an id against the tables gives the score defined from the documents alone; unknown ids score 0 |
| Bm25Laws.IdfPositive | internal/store/bm25.go:65-68 | a term in 1 to N documents has positive inverse document frequency |
| Bm25Laws.RarerWeighsMore | internal/store/bm25.go:65-68 | rarer terms weigh strictly more |
| Bm25Laws.PositiveIffShared | internal/store/bm25.go:87-96 | a score is never negative, and positive exactly when query and document share a token |
| Bm25Laws.SimpleForm | internal/store/bm25.go:87-96 | with deduplicated tokens all terms of a document share one factor |
| Bm25Laws.TermFormula | internal/store/bm25.go:87-96 | a term occurring f times adds a with a·(f + 1.2(0.25 + 0.75·length·N/total length)) = ln((N + 1)/(df + 0.5))·f·2.2, df and the total length counted from the documents |
| Bm25Laws.ScoreFormula | internal/store/bm25.go:73-101 | with deduplicated tokens: score·(1 + 1.2(0.25 + 0.75·length·N/total length)) = 2.2·Σ ln((N + 1)/(df + 0.5)) over the shared tokens |
| Bm25Laws.AverageScoresRarity | internal/store/bm25.go:93-95 | a document of average length scores exactly the summed rarities of its shared tokens |
| Bm25Laws.ScoreBelowShortestDocument | internal/store/bm25.go:93-95 | a matching score is below (k1 + 1)·Σ matched idf/(1 + k1(1 − b)) |
| Bm25Laws.LongerScoresLess | internal/store/bm25.go:93-95 | at equal matched weight the longer document scores strictly less |
| Upsert.UpsertRows | internal/store/memory_store.go:40-52 | the in-place loop overwrites the last row of each key held on entry and appends all other batch rows |
| Upsert.UniqueAfterUpsert | internal/store/memory_store.go:40-52 | keys stay unique exactly when the appended batch rows have distinct keys |
| Upsert.RepeatedNewKeyStoredTwice | internal/store/memory_store.go:45-50 | a new key repeated within one batch is stored twice |
| Upsert.UpsertRefinesMap | internal/store/memory_store.go:37-54 | with distinct keys the table is an insertion-ordered map: old rows keep their places, a lookup prefers the batch |
| MemoryStore.FilterMeaning | internal/store/memory_store.go:210-219 | a document passes exactly when the filter asks for no other document |
| MemoryStore.MemoryStore.EnsureCollections | internal/store/memory_store.go:25-35 | creates missing collections and leaves all contents as they are |
| MemoryStore.MemoryStore.UpsertChunks | internal/store/memory_store.go:37-54 | replaces one collection by its upsert, changes nothing else |
| MemoryStore.MemoryStore.UpsertSummaries | internal/store/memory_store.go:56-73 | the same for summaries |
| MemoryStore.MemoryStore.SearchChunks | internal/store/memory_store.go:75-101 | a best-first choice of the topK filter-passing chunks by cosine |
| MemoryStore.MemoryStore.SearchSummaries | internal/store/memory_store.go:149-175 | the same over summaries |
| MemoryStore.MemoryStore.SearchChunksSparse | internal/store/memory_store.go:103-147 | a best-first choice of the topK rows with positive BM25 score, whatever the stored ids |
| MemoryStore.MemoryStore.GetChunksBySummaryIds | internal/store/memory_store.go:177-208 | the first chunks of each wanted summary, each summary once, groups in any order |
| StoreLaws.PositiveIffShares | internal/store/memory_store.go:133-137 | a chunk's row appears exactly when the last kept chunk with its id shares a token with the query |
| StoreLaws.SparseSearchExact | internal/store/memory_store.go:112-141 | with unique ids the rows before the cut are exactly those of the filter-passing chunks sharing a token |
| StoreLaws.SparseSearchAnswers | internal/store/memory_store.go:103-147 | after the cut no omitted sharing chunk scores above a returned one |
| StoreLaws.RepeatedIdHidesMatch | internal/store/memory_store.go:114-130 | with a repeated id a matching chunk is lost behind a later one that does not match |
| StoreLaws.KeptIsSubsequence | internal/store/memory_store.go:115-118 | the scored chunks are exactly the stored ones that pass the filter |
| StoreLaws.DenseRowOrigin | internal/store/memory_store.go:80-95 | dense rows are exactly the rows of filter-passing chunks with their cosine |
| StoreLaws.SummaryRowOrigin | internal/store/memory_store.go:154-169 | the same for summaries |
| SearchLaws.DenseRowMeaning | internal/store/memory_store.go:80-95 | a dense row shows a filter-passing chunk field by field, with its cosine as score; every such chunk has one |
| SearchLaws.DenseKeepsNearest | internal/store/memory_store.go:75-101 | of chunks with equal norms none with a larger dot product is left out for one with a smaller |
| SearchLaws.SparseRowScore | internal/store/memory_store.go:112-141 | a sparse row shows a filter-passing chunk sharing a token, scored by the BM25 formula over the filter-passing chunks |
| SearchLaws.SummaryRowMeaning | internal/store/memory_store.go:154-169 | a summary row shows a filter-passing summary field by field, with its cosine as score |
| StoreLaws.ExpansionOrigin | internal/store/memory_store.go:185-199 | every expanded row is a stored chunk of a wanted summary |
| SearchLaws.ExpansionExact | internal/store/memory_store.go:177-208 | the expansion shows exactly the chunks of wanted summaries that are among the first k stored of their summary |
| StoreLaws.ExpansionCount | internal/store/memory_store.go:200-206 | at most topKPerSummary rows of any one summary come out |
| Splitter.SplitByRunes | internal/ingest/service.go:164-188 | the loop emits the trimmed, non-blank windows of the trimmed text in order |
| Splitter.NextWindowStarts | internal/ingest/service.go:174-186 | for a validated overlap the loop always leaves by its break |
| Splitter.WindowsRoundTrip | internal/ingest/service.go:174-186 | dropping the overlap from all windows but the first and concatenating gives back the trimmed text |
| Splitter.RawWindowCount | internal/ingest/service.go:173-186 | there are 1 + ⌈max(0, n − chunkSize)/(chunkSize − overlap)⌉ windows |
| Splitter.EveryRuneCovered | internal/ingest/service.go:179-182 | every rune that is not white space lies in an emitted chunk |
| Splitter.EveryChunkBounded | internal/ingest/service.go:175-182 | every chunk is trimmed, non-blank and at most chunkSize runes long |
| Splitter.SomeChunkProduced | internal/ingest/service.go:49-52 | a text that is not blank yields a chunk |
| Splitter.OversizedOverlapIgnored | internal/ingest/service.go:169-171 | an overlap as large as the window counts as none |
| Splitter.NegativeOverlapLosesText | internal/ingest/service.go:169-172 | a negative overlap, which only validation excludes, loses text |
| Ingest.PaddedRoundTrip | internal/ingest/service.go:82 | the zero-padded index can be read back |
| Ingest.PaddedWidth | internal/ingest/service.go:82 | below 1000 an index prints as three digits, from 100 on without padding |
| Ingest.ChunkIdInjective | internal/ingest/service.go:82 | chunk ids of different documents or positions never coincide |
| Ingest.KeyCollision | internal/ingest/service.go:46 | exactly when two uploads share the hashed key |
| Ingest.KeyInjective | internal/ingest/service.go:46 | without line breaks in file names the key determines the upload |
| Ingest.PreparedWellFormed | internal/ingest/service.go:67-93 | the records of an upload: ids from the document id, indices 0..count−1, texts the split text |
| Ingest.PreparedRecords | internal/ingest/service.go:53-93 | every chunk carries the vector of its own text, the time and the class; the summary the vector of its own text, cut text for tables and the model's answer otherwise |
| Ingest.PrepareFailsIff | internal/ingest/service.go:35-65 | with a validated configuration an ingest fails exactly for a blank name, unreadable text or a failing model |
| Ingest.NeverWithoutChunks | internal/ingest/service.go:49-52 | the "no chunks produced" error is unreachable with a validated configuration |
| Ingest.SameDocumentSameCount | internal/ingest/service.go:46-52 | without hash collisions and line breaks in names, same document id means same number of chunks |
| Ingest.IngestFile | internal/ingest/service.go:31-109 | a failing ingest writes nothing; a successful one upserts its summary, then its chunks |
| IngestRuns.Perform | internal/ingest/service.go:95-100 | one step of a run, executed on the store, is one step of the model |
| IngestRuns.ChunkWriteRefines | internal/store/memory_store.go:37-54 | upserting a job's chunks into the flattened table flattens the upserted table of jobs |
| IngestRuns.StoreRefinesTable | internal/ingest/service.go:95-100 | under every interleaving the stored chunks are, document by document, those of one completed job each |
| IngestRuns.LastJobWins | internal/ingest/service.go:98-100 | namely of the job completed last for that document |
| IngestRuns.ChunkIdsUnique | internal/ingest/service.go:80-100 | chunk ids are unique at every moment of every run, whatever the jobs' chunk counts |
| IngestRuns.RunKeepsDocumentsComplete | internal/ingest/service.go:67-100 | when jobs of one document agree on their count, at every moment each completed document has exactly the indices 0..count−1 stored, and no other document anything |
| IngestRuns.CompleteIffSameCount | internal/ingest/service.go:80-100 | for two jobs of one document this holds in every run exactly when they have equally many chunks |
| IngestRuns.IncompatibleJobsTear | internal/ingest/service.go:95-100 | otherwise a sequential run already leaves a torn document |
| IngestRuns.SummariesUnique | internal/store/memory_store.go:56-73 | summary ids are unique in every state of every run |
| IngestRuns.ChunkHasSummary | internal/ingest/service.go:67-100 | every stored chunk names its own document's summary, and that summary is stored |
| IngestRuns.SummaryNamesDocument | internal/ingest/service.go:68-71 | a stored summary's id names its document |
| UploadRuns.UploadsCompatible | internal/ingest/service.go:46-93 | uploads under one configuration and one injective hash, without line breaks in file names, form a well-formed run whose jobs of one document agree on their count |
| UploadRuns.UploadsStayIntact | internal/ingest/service.go:31-109 | hence every interleaving of such uploads keeps every document intact at every moment |
| UploadRuns.LineBreakTears | internal/ingest/service.go:46 | for every validated configuration and hash, two concrete uploads share their id with different counts and leave a torn document |
| EmbeddedStore.ChunkKeepsVector | internal/ingest/service.go:55-100 | under an embedder that acts text by text, every stored chunk of every run has the vector of its own text |
| EmbeddedStore.SummaryKeepsVector | internal/ingest/service.go:55-100 | so has every stored summary |
| EmbeddedStore.DenseScoresText | internal/retrieval/retriever.go:25-44 | hence a dense answer scores each row with the cosine of the question's vector and that of the row's own text |
| EmbeddedStore.HierarchicalScoresText | internal/retrieval/retriever.go:63-106 | a hierarchical row shows one of the first two chunks of a filter-passing summary, scored by comparing the question with the row's own text |
| EmbeddedStore.HierarchicalShowsAll | internal/retrieval/retriever.go:63-106 | below the limits the first two chunks of every filter-passing summary are shown |
| Retriever.DirectChunk | internal/retrieval/retriever.go:25-44 | a best-first choice of the topK filter-passing chunks by cosine with the embedded question; fails exactly when embedding does |
| Retriever.SparseChunk | internal/retrieval/retriever.go:46-61 | a best-first choice of the topK rows with positive BM25 score |
| Retriever.IngestedSparseSearch | internal/store/memory_store.go:103-147 | in every store ingestion can reach, sparse retrieval chooses among exactly the filter-passing chunks sharing a token |
| Retriever.Hierarchical | internal/retrieval/retriever.go:63-106 | best summaries, at most two chunks of each, re-scored in place, best first, cut; errors only from the embedder |
| Retriever.DocumentFilterHonoured | internal/retrieval/retriever.go:63-106 | in every store ingestion can reach, with ingests acting between the two stages, a document filter is honoured although the chunk stage applies none |
| Retriever.AnswerIsBounded | internal/retrieval/retriever.go:79-96 | at most two rows per summary and topK in all, best first, whatever the store holds |
| Retriever.SearchSummariesOnly | internal/retrieval/retriever.go:108-120 | the best summaries, relabelled, blank summary ids filled in |
| Rerank.TopByScore | internal/rerank/client.go:108-119 | a best-first choice of topM copies with trimmed layers; the caller's array is untouched |
| Rerank.RerankRows | internal/rerank/client.go:34-106 | which error, which fallback and which cut applies for any answer of the service |
| Rerank.RerankAndTrim | internal/agent/service.go:1002-1017 | zero or one candidate passes through, more are reranked and cut |
| Rerank.RerankedItems | internal/rerank/client.go:89-105 | for any answer, output items are input candidates with at most the score changed or the layer trimmed, and at most topM remain |
| Rerank.RescoredExact | internal/rerank/client.go:89-98 | answered rows that name a candidate come out in order, each the named candidate with the answered score; the others are skipped |
| Rerank.RerankerDecides | internal/rerank/client.go:89-105 | an answer that names candidates alone decides what remains |
| Rerank.TrimmedCount | internal/rerank/client.go:34-119 | otherwise exactly as many rows remain as the limit allows |
| Rerank.TrimOfTopIsTop | internal/rerank/client.go:108-119 | without an external reranker the topM of a topK list of rows with trimmed layers is a topM of everything |
| Orchestrator.Fetch | internal/agent/service.go:584-620 | a tool's text becomes exactly one candidate, and every call is logged |
| Orchestrator.RunOption | internal/agent/service.go:538-579 | the option loop's body, case by case: a tool beyond the cap is skipped; a local search stops the list exactly when it found enough; counters, stage, log entry and best result of each case |
| Orchestrator.OptionsEmptyIff | internal/agent/service.go:622-648 | only catalog and direct have no options, so no tool call bypasses the loop |
| Orchestrator.RetrieveByRoute | internal/agent/service.go:944-1000 | the catalog route makes one catalog search, the direct route no call, any other route exactly the call of its one option |
| Orchestrator.RetrieveByRouteWithFallback | internal/agent/service.go:525-581 | the loop with its break runs the option list as specified; references cite the returned rows |
| Orchestrator.RetrieveForPlannedSubQueries | internal/agent/service.go:500-523 | sub-queries share counters and log; one list is returned as is, of several the topK best fused rows and the deduplicated references |
| Orchestrator.DedupeReferences | internal/agent/service.go:709-730 | one reference per key, the best of its key, best first, at most twenty |
| ReferenceLaws.DedupedRows | internal/agent/service.go:709-730 | each returned reference is the first of the best of its source and chunk, no key comes twice, best first |
| ReferenceLaws.DedupedComplete | internal/agent/service.go:722-728 | a key is missing only when twenty others, all at least as good, are shown |
| ReferenceLaws.KeyInjective | internal/agent/service.go:712 | for chunk ids without a bar, as ingestion writes them, the key determines source and chunk |
| ReferenceLaws.AllReferencesCite | internal/agent/service.go:701-707 | the references of several lists cite exactly their candidates, field by field |
| OrchestratorLaws.BuiltLocalsFirst | internal/agent/service.go:622-648 | every option list puts local options before external ones |
| OrchestratorLaws.OptionsOfRoutes | internal/agent/service.go:622-648 | which searches and tools each route tries, which first and which last, none twice |
| OrchestratorLaws.OptionsKeepBooks | internal/agent/service.go:538-579 | one sub-query accounts for all its external options unless a local option stopped it |
| OrchestratorLaws.TelemetryConservation | internal/agent/service.go:538-579 | externals × (non-blank sub-queries − early stops) = calls + failures + skips; stages and fallbacks match |
| OrchestratorLaws.ExternalBudget | internal/agent/service.go:539-561 | successful external calls of a run stay within the cap, and every logged tool call is a counted success or a failure |
| OrchestratorLaws.CapBoundsCallsIff | internal/agent/service.go:539-561 | the cap bounds the tool calls made, for all answers, exactly when it is zero or covers every external option there is |
| OrchestratorLaws.CallsWhenUp | internal/agent/service.go:539-561 | when nothing is found locally and every tool answers, a run counts exactly min(cap, e·q) calls |
| OrchestratorLaws.BestIsLastHit | internal/agent/service.go:562-568 | a sub-query returns the very candidates of the last of its logged calls that found any, and nothing when none did |
| OrchestratorLaws.StopsWhenEnough | internal/agent/service.go:538-579 | a sub-query calls the first options of its list in order; a local search that finds enough is its last call, and is counted, exactly then; otherwise every option is called or counted as skipped |
| OrchestratorLaws.ListsAreAnswers | internal/agent/service.go:503-514 | every collected list is what one sub-query's retrieval answered |
| LocalOptions.FetchLocal | internal/agent/service.go:585-643 | what each local option may answer over a store: dense, sparse, hierarchical, or the fusion of dense and sparse |
| LocalOptions.LocalAnswerDescending | internal/agent/service.go:585-643 | every local option answers best first |
| LocalOptions.EarlyStopReadsMaximum | internal/agent/service.go:732-743 | on any answer of any local option the score rule fires exactly when some candidate reaches the threshold |
| LocalOptions.HybridStopsByCountOnly | internal/agent/service.go:632-643 | above 2/61 only the candidate-count rule can stop a hybrid answer |
| LocalOptions.BuiltInThresholdNeverFires | internal/config/config.go:146-147 | with the built-in settings a hybrid answer stops exactly at three candidates |
| LocalOptions.HybridScoreRuleReachable | internal/agent/service.go:632-643 | for every topK and configuration the score rule can stop a hybrid answer, over a store that uploads have written, exactly for thresholds in (0, 2/61] |
| LocalOptions.TrimmedAnswerIsBest | internal/rerank/client.go:108-119 | without an external reranker the topM of any local option's answer is a best-first choice among all the candidates that answer was cut from |
| LocalOptions.HybridRowOrigin | internal/agent/service.go:633-643 | a hybrid row shows what dense search found under its id, else what sparse search found, scored by its two positions |
| LocalOptions.DenseAnswerDistinct | internal/store/memory_store.go:75-101 | dense answers of a store with unique chunk ids repeat no id |
| LocalOptions.FusionsAgreeOnIngested | internal/agent/service.go:1047-1089 | on dense answers of any ingested store the two fusions give every id the same row up to the layer |
| Planner.SplitByPunct | internal/agent/service.go:684-699 | the trimmed non-blank pieces between punctuation, or the question itself |
| Planner.CleanSubQueries | internal/agent/service.go:665-677 | the first three distinct non-blank entries |
| Planner.CleanedWell | internal/agent/service.go:665-677 | they are non-blank, pairwise different and trimmed entries of the decoded list |
| Planner.CleanedComplete | internal/agent/service.go:665-677 | and no non-blank entry is missing unless there are three |
| Planner.PlanSubQueries | internal/agent/service.go:651-682 | the branches for errors, blank, unreadable and readable plans |
| Planner.PlanIsUsable | internal/agent/service.go:231-240 | for a question that is not blank: 1 to the maximum sub-queries, none blank, whatever the model answers |
| Planner.ReadablePlan | internal/agent/service.go:660-681 | a readable plan is used: it starts with the first entry that is not blank and holds every such entry unless there are three |
| Planner.UnreadablePlan | internal/agent/service.go:660-662 | an unreadable plan gives exactly the trimmed stretches of the question between punctuation, or the question |
| Planner.PlannedIsPrefix | internal/agent/service.go:235-240 | the sub-queries used are the first of the plan, as many as allowed |
| Workflow.RunWorkflow | internal/agent/service.go:786-913 | an attempt: fresh counters, rewriting, combined retrieval, reranked context and answer, and when it fails; it reports the counters of its own retrieval, and references match the context blocks one for one, in order |
| Workflow.ContextBounded | internal/agent/service.go:1002-1017 | at most topM candidates reach the context, each with at most score and layer changed from a candidate some sub-query retrieved |
| Workflow.ContextIsBest | internal/agent/service.go:842-861 | without a reranker the context of several sub-queries is a best-first choice of the topM best of all fused rows |
| Workflow.SingleListContext | internal/agent/service.go:518-520 | a single list reaches the reranker whole and in its own order |
| Workflow.NeverEmptyHanded | internal/agent/service.go:515-517 | with a usable plan the "empty" retrieval result is unreachable |
| AskLoops.AskLoop | internal/agent/service.go:244-309 | the loop asks and ends as specified step by step |
| AskLoops.StreamLoop | internal/agent/service.go:422-480 | the same for the stream, which does not grade its last attempt |
| AskLoops.AskEnds | internal/agent/service.go:247-309 | the route is kept, the loop is never exhausted, the answer was graded relevant or is the last attempt's |
| AskLoops.StreamEnds | internal/agent/service.go:424-480 | the same for the stream, with convincing in place of relevant |
| AskTraces.AskTrace | internal/agent/service.go:247-309 | every further question is the rewritten one with the hint, after an attempt graded irrelevant; the last attempt alone decides the outcome |
| AskTraces.StreamTrace | internal/agent/service.go:424-480 | the same for the stream, which goes on only after an irrelevant grade below the threshold |
| AskTraces.DirectMeaning | internal/agent/service.go:157-229 | when a direct request fails, falls back or answers itself, and with which answer and references |
| AskTraces.DirectStreamMeaning | internal/agent/service.go:332-405 | the same for the stream |
| AskLoops.StepsOffDirect | internal/agent/service.go:264-283 | the in-loop fallback never fires |
| AskLoops.ExhaustedIff | internal/agent/service.go:309 | "exhausted retry loop" occurs exactly when there are no retries |
| AskLoops.StreamIsPrefix | internal/agent/service.go:424-460 | against the same answers the stream asks a prefix of the questions `Ask` asks |
| AskLoops.StreamStopsEarlierIff | internal/agent/service.go:450-478 | it stops earlier exactly at an answer graded irrelevant before the last attempt |
| AskLoops.StopTogether | internal/agent/service.go:450-459 | they stop together when every irrelevant grade scores below the threshold |
| AskLoops.SameAnswer | internal/agent/service.go:293-305 | and then, when both answer, they give the same attempt on the same route |
| AskBudget.RequestBudget | internal/agent/service.go:247-258 | over real workflow runs the attempts of either loop make at most MaxRetries × cap counted external calls, failed attempts included |
| AskBudget.DirectFallbackBudget | internal/agent/service.go:170-175 | the counted calls of a direct fallback's retrieval stay within the cap |
| AskBudget.DirectFallbackToolsIff | internal/agent/service.go:170-175 | the tool calls it makes do, for all answers, exactly when the cap is zero or covers the route's external options |
| AskBudget.CapPerRequestIff | README.md:33 | for both loops the cap bounds the tool calls made by a whole request, for all answers and grades, exactly when it is zero or MaxRetries · e · q does not exceed it |
| AskBudget.CountedPerRequestIff | internal/agent/service.go:539-561 | for both loops it bounds the counted calls of a whole request exactly when MaxRetries · min(cap, e · q) does not exceed it |
| AskLoops.FallbackByScoreAlone | internal/agent/service.go:1108-1122 | leaving a direct answer depends on its score alone, not on its relevance |
| AskLoops.Ask | internal/agent/service.go:137-310 | the whole request: blank question, skill, failing routing or planning, direct answer with its fallback, or the loop's outcome; exhaustion only without retries |
| AskLoops.AskStream | internal/agent/service.go:312-481 | the same for the stream |

## Left out

- HTTP handlers, event streams and the OpenAI-compatible interface: input and output without laws of their own.
- The language model clients, the workflow graph compiler, the Qdrant store, the SQL and web tools: foreign calls, present as arbitrary answers.
- `sparseTermVector` and `tokenHashID`: only the Qdrant store uses them.
- The skill registry (which skill applies, and its document, are arbitrary answers), configuration loading, logging, tracing, timeouts, prompt texts, debug maps: no law beyond what the text says. A workflow cut short by its timeout is an attempt that returns an error.
- `detectContentClass` is an arbitrary classification, and the hash an arbitrary function: laws that need the hash to separate two keys say so.
- Rounding, NaN and infinities of `float64`, and the guards against them in scoring: over the reals they cannot occur.
- Vectors.NewtonSqrt: defined for x ≥ 0 only, because its one caller passes sums of squares; from x = −1 the first step reaches 0 and the next divides by it (`Vectors.NegativeStepsToZero`).
- Orchestrator.RetrieveByRouteWithFallback: the counters are always given, as all callers do; the source also accepts none.
- Retriever.Hierarchical: requires TopK > 0, as the validated configuration does.
- AskLoops.AskStream: the text of the stream is not part of its result, so it is not modelled.
- Aliasing between a slice held in the store and one handed out: searches build their own rows, so none is handed out.
