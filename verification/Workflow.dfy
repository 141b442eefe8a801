/** One attempt: rewrite, retrieve, rerank, render the context, answer. */
module Workflow {
  import opened Domain
  import opened Text
  import opened Ranking
  import opened Fusion
  import opened FusionLaws
  import opened Orchestrator
  import opened OrchestratorLaws
  import Rerank
  import Planner

  /** One rendered candidate of the prompt's context. */
  datatype ContextBlock = ContextBlock(number: nat, source: string, score: real, text: string)

  function RenderContext(rows: seq<Candidate>): (context: seq<ContextBlock>)
    ensures |context| == |rows|
    ensures forall i :: 0 <= i < |rows| ==> context[i] == ContextBlock(i + 1, rows[i].source, rows[i].score, rows[i].text)
  {
    seq(|rows|, i requires 0 <= i < |rows| => ContextBlock(i + 1, rows[i].source, rows[i].score, rows[i].text))
  }

  datatype Output = Output(
    answer: string,
    rewritten: string,
    references: seq<Reference>,
    retrieval: seq<Candidate>,
    context: seq<ContextBlock>,
    stats: Stats)

  /** The answers of the chat model and the reranker during one attempt. */
  datatype Models = Models(
    rewrite: Result<string>,
    rerank: Option<Result<seq<Rerank.Rescore>>>,
    answer: Result<string>)

  /** A blank rewrite keeps the question. */
  function Rewritten(question: string, rewrite: string): string {
    if Blank(rewrite) then question else TrimSpace(rewrite)
  }

  /** Reference i cites context block i. */
  ghost predicate Cites(references: seq<Reference>, context: seq<ContextBlock>) {
    && |references| == |context|
    && forall i :: 0 <= i < |context| ==>
         && references[i].source == context[i].source
         && references[i].content == context[i].text
         && references[i].score == context[i].score
         && context[i].number == i + 1
  }

  function QueriesOf(question: string, subQueries: seq<string>): seq<string> {
    if subQueries == [] then [question] else subQueries
  }

  /** What retrieval does in one attempt: fresh counters, so the external budget holds per workflow run. */
  function Retrieval(answers: Answers, cfg: Config, route: Route, queries: seq<string>): Collected {
    CollectUpTo(answers, cfg, route, queries, Run(NO_STATS, []), |queries|)
  }

  /** The rows that go into the context: the combined lists, reranked and cut. */
  ghost predicate IsContextOf(answers: Answers, cfg: Config, topM: int, models: Models, route: Route, queries: seq<string>,
                              rows: seq<Candidate>) {
    exists combined: seq<Candidate> ::
      && CombinesTo(Retrieval(answers, cfg, route, queries).lists, cfg.topK, combined)
      && Rerank.IsTrimmed(models.rerank, combined, topM, rows)
  }

  /** What a successful attempt may give. */
  ghost predicate IsOutput(answers: Answers, cfg: Config, topM: int, models: Models, route: Route, question: string,
                           subQueries: seq<string>, out: Output)
  {
    && models.rewrite.Ok? && models.answer.Ok?
    && !Retrieval(answers, cfg, route, QueriesOf(question, subQueries)).failed
    && out.rewritten == Rewritten(question, models.rewrite.value)
    && out.answer == TrimSpace(models.answer.value)
    && out.stats == Retrieval(answers, cfg, route, QueriesOf(question, subQueries)).run.stats
    && IsContextOf(answers, cfg, topM, models, route, QueriesOf(question, subQueries), out.retrieval)
    && out.references == ReferencesTo(out.retrieval)
    && out.context == RenderContext(out.retrieval)
  }

  method RetrieveNode(answers: Answers, cfg: Config, route: Route, queries: seq<string>)
    returns (r: Result<seq<Candidate>>, refs: seq<Reference>, stats: Stats)
    ensures var c := Retrieval(answers, cfg, route, queries);
            && stats == c.run.stats && r.Err? == c.failed
            && (r.Ok? ==> CombinesTo(c.lists, cfg.topK, r.value) && CitedBy(c.lists, refs))
  {
    hide CombinesTo, CitedBy, CollectUpTo;
    var backend := new Backend(answers);
    var counters := new OrchestrationStats(|queries|);
    r, refs := RetrieveForPlannedSubQueries(backend, counters, cfg, route, queries);
    stats := counters.Value();
  }

  method RunWorkflow(answers: Answers, cfg: Config, topM: int, models: Models, route: Route, question: string,
                     subQueries: seq<string>) returns (r: Result<Output>)
    ensures r.Err? ==>
              || models.rewrite.Err?
              || Retrieval(answers, cfg, route, QueriesOf(question, subQueries)).failed
              || (models.rerank.Some? && models.rerank.value.Err?)
              || models.answer.Err?
    ensures models.rewrite.Err? || models.answer.Err? ==> r.Err?
    ensures Retrieval(answers, cfg, route, QueriesOf(question, subQueries)).failed ==> r.Err?
    ensures r.Ok? ==> IsOutput(answers, cfg, topM, models, route, question, subQueries, r.value)
    ensures r.Ok? ==> Cites(r.value.references, r.value.context)
    ensures r.Ok? ==> && |r.value.references| == |r.value.retrieval|
                      && forall i :: 0 <= i < |r.value.retrieval| ==>
                           && r.value.references[i].chunkId == r.value.retrieval[i].chunkId
                           && r.value.references[i].documentId == r.value.retrieval[i].documentId
    ensures r.Ok? ==> r.value.answer == TrimSpace(models.answer.value)
    ensures r.Ok? ==>
              var queries := if subQueries == [] then [question] else subQueries;
              r.value.stats == CollectUpTo(answers, cfg, route, queries, Run(NO_STATS, []), |queries|).run.stats
    ensures r.Ok? && Blank(models.rewrite.value) ==> r.value.rewritten == question
    ensures r.Ok? && !Blank(models.rewrite.value) ==> r.value.rewritten == TrimSpace(models.rewrite.value)
  {
    hide CollectUpTo, CombinesTo, CitedBy, Rerank.IsTrimmed;
    var queries := subQueries;
    if |queries| == 0 { queries := [question]; }
    if models.rewrite.Err? { return Err("query rewrite"); }
    var rewritten := Rewritten(question, models.rewrite.value);
    var retrieved, refs, stats := RetrieveNode(answers, cfg, route, queries);
    if retrieved.Err? { return Err("retrieve"); }
    var trimmed := Rerank.RerankAndTrim(models.rerank, retrieved.value, topM);
    if trimmed.Err? { return Err("rerank"); }
    refs := ReferencesTo(trimmed.value);
    var context := RenderContext(trimmed.value);
    if models.answer.Err? { return Err("answer"); }
    r := Ok(Output(TrimSpace(models.answer.value), rewritten, refs, trimmed.value, context, stats));
  }

  // ---------------------------------------------------------------- laws

  /** r is, up to score and layer, a candidate of one of the lists. */
  ghost predicate Shows(lists: seq<seq<Candidate>>, r: Candidate) {
    exists l, i :: 0 <= l < |lists| && 0 <= i < |lists[l]| && SameButScoreAndLayer(lists[l][i], r)
  }

  /** Combining the lists invents nothing. */
  lemma CombinedShows(lists: seq<seq<Candidate>>, topK: int, combined: seq<Candidate>, r: Candidate)
    requires CombinesTo(lists, topK, combined) && r in combined
    ensures Shows(lists, r)
  {
    hide IsTop, FusedRows;
    if |lists| == 1 {
      var i :| 0 <= i < |lists[0]| && lists[0][i] == r;
      assert SameButScoreAndLayer(lists[0][i], r);
    } else {
      var l, i := FusedRowOrigin(lists, topK, combined, r);
    }
  }

  /** A single list comes through whole, in its own order. */
  lemma SingleListContext(answers: Answers, cfg: Config, topM: int, models: Models, route: Route, queries: seq<string>,
                          rows: seq<Candidate>)
    requires |Retrieval(answers, cfg, route, queries).lists| == 1
    requires IsContextOf(answers, cfg, topM, models, route, queries, rows)
    ensures Rerank.IsTrimmed(models.rerank, Retrieval(answers, cfg, route, queries).lists[0], topM, rows)
  {
    hide Retrieval, Rerank.IsTrimmed;
  }

  /** Neither does reranking. */
  lemma RerankedShows(lists: seq<seq<Candidate>>, c: Candidate, r: Candidate)
    requires Shows(lists, c) && Rerank.SameItem(r, c)
    ensures Shows(lists, r)
  {
    var l, i :| 0 <= l < |lists| && 0 <= i < |lists[l]| && SameButScoreAndLayer(lists[l][i], c);
    assert SameButScoreAndLayer(lists[l][i], r);
  }

  /**
   * The context holds at most topM candidates and, whatever the fusion and the reranker make of them,
   * each is a candidate some sub-query retrieved, with at most its score and layer changed.
   */
  lemma ContextBounded(answers: Answers, cfg: Config, topM: int, models: Models, route: Route, queries: seq<string>,
                       rows: seq<Candidate>)
    requires topM > 0 && IsContextOf(answers, cfg, topM, models, route, queries, rows)
    ensures |rows| <= topM
    ensures forall r :: r in rows ==> Shows(Retrieval(answers, cfg, route, queries).lists, r)
  {
    hide Retrieval, CombinesTo, Rerank.SameItem, Shows;
    var lists := Retrieval(answers, cfg, route, queries).lists;
    var combined: seq<Candidate> :|
      CombinesTo(lists, cfg.topK, combined) && Rerank.IsTrimmed(models.rerank, combined, topM, rows);
    Rerank.RerankedItems(models.rerank, combined, topM, rows);
    forall r | r in rows
      ensures Shows(lists, r)
    {
      var i :| 0 <= i < |combined| && Rerank.SameItem(r, combined[i]);
      CombinedShows(lists, cfg.topK, combined, combined[i]);
      RerankedShows(lists, combined[i], r);
    }
  }

  lemma FusedLayersClean(lists: seq<seq<Candidate>>)
    ensures Rerank.CleanLayers(multiset(FusedRows(lists)))
  {
    hide FusedScore, AllIdsUpTo, FirstUpTo, TrimSpace;
    TrimOfTrimmed("rrf_multi");
    forall c | c in FusedRows(lists)
      ensures c.layer == "rrf_multi"
    {
      assert exists id :: id in AllIds(lists) && c == FusedRow(lists)(id);
    }
  }

  /**
   * Truncation composes along the pipeline: without a reranker, the context of several sub-queries is
   * a best-first choice of the topM best of all fused rows, although it was cut twice.
   */
  lemma ContextIsBest(answers: Answers, cfg: Config, topM: int, models: Models, route: Route, queries: seq<string>,
                      rows: seq<Candidate>)
    requires models.rerank == None && 0 < topM <= cfg.topK && |Retrieval(answers, cfg, route, queries).lists| >= 2
    requires IsContextOf(answers, cfg, topM, models, route, queries, rows)
    ensures IsTop(multiset(FusedRows(Retrieval(answers, cfg, route, queries).lists)), ScoreOf, topM, rows)
  {
    hide Retrieval, IsTop, FusedRows, Rerank.IsTrimmed, Rerank.CleanLayers;
    var lists := Retrieval(answers, cfg, route, queries).lists;
    var combined: seq<Candidate> :|
      CombinesTo(lists, cfg.topK, combined) && Rerank.IsTrimmed(models.rerank, combined, topM, rows);
    FusedLayersClean(lists);
    Rerank.TrimOfTopIsTop(multiset(FusedRows(lists)), cfg.topK, combined, topM, rows);
  }

  lemma {:induction false} AllCounted(queries: seq<string>, n: nat)
    requires n <= |queries| && Planner.AllNonBlank(queries)
    ensures NonBlank(queries, n) == n
  {
    hide Blank;
    if n > 0 { AllCounted(queries, n - 1); }
  }

  /**
   * With a usable plan the "empty" retrieval result is unreachable: retrieval fails (on the catalog
   * route only) or there is exactly one list per planned sub-query.
   */
  lemma NeverEmptyHanded(answers: Answers, cfg: Config, route: Route, queries: seq<string>)
    requires |queries| >= 1 && Planner.AllNonBlank(queries)
    ensures var c := Retrieval(answers, cfg, route, queries);
            if c.failed then route.Catalog? else |c.lists| == |queries| >= 1
  {
    hide CollectUpTo;
    AllCounted(queries, |queries|);
    SubQueriesKeepBooks(answers, cfg, route, queries, |queries|);
    if !Retrieval(answers, cfg, route, queries).failed {
      OneListPerQuery(answers, cfg, route, queries, Run(NO_STATS, []), |queries|);
    }
  }
}
