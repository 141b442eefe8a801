/** What a whole request may spend on external calls: the retry loops over real workflow runs. */
module AskBudget {
  import opened Arithmetic
  import opened Domain
  import opened Text
  import opened Ranking
  import opened Fusion
  import opened Orchestrator
  import opened OrchestratorLaws
  import opened AskLoops
  import W = Workflow
  import Rerank

  // ---------------------------------------------------------------- attempts as workflow runs

  /** The answers of the world to every attempt of a request. */
  datatype World = World(answers: int -> Answers, models: int -> W.Models)

  /** The fixed inputs of a request's workflow runs. */
  datatype Setup = Setup(limits: Limits, topM: int, route: Route, queries: seq<string>)

  /** The attempt reports what a workflow run on this question gives: answer, rewriting, references, counter. */
  ghost predicate Reports(world: World, setup: Setup, n: int, question: string, a: Attempt) {
    exists out: W.Output ::
      && W.IsOutput(world.answers(n), setup.limits, setup.topM, world.models(n), setup.route, question, setup.queries, out)
      && a == Attempt(out.answer, out.rewritten, out.references, out.stats.externalCalls)
  }

  /** Every successful attempt of the oracle is a workflow run; failures need no reason, a timeout may be one. */
  ghost predicate Realizes(oracle: Oracle, world: World, setup: Setup) {
    forall n, q :: oracle.invoke(n, q, setup.route).Ok? ==> Reports(world, setup, n, q, oracle.invoke(n, q, setup.route).value)
  }

  /** What to add up: the successful external calls the counter counts, or all tool calls made. */
  datatype Tally = Counted | Made

  function TallyOf(tally: Tally, run: Orchestrator.Run): nat {
    match tally
    case Counted => run.stats.externalCalls
    case Made => ToolCalls(run.log)
  }

  /** The external calls of attempt n, whether it succeeds or fails later; none when rewriting fails first. */
  function RunCalls(world: World, setup: Setup, tally: Tally, n: int): nat {
    if world.models(n).rewrite.Err? then 0
    else TallyOf(tally, W.Retrieval(world.answers(n), setup.limits, setup.route, setup.queries).run)
  }

  /** The external calls of `count` attempts, the first being `attempt`. */
  function RequestCalls(world: World, setup: Setup, tally: Tally, attempt: int, count: nat): nat
    decreases count
  {
    if count == 0 then 0
    else RunCalls(world, setup, tally, attempt) + RequestCalls(world, setup, tally, attempt + 1, count - 1)
  }

  /** What the successful attempts of a trace report, added up. */
  function ReportedCalls(oracle: Oracle, route: Route, asked: seq<string>, attempt: int): nat
    decreases |asked|
  {
    if asked == [] then 0
    else
      var out := oracle.invoke(attempt, asked[0], route);
      (if out.Ok? then out.value.externalCalls else 0) + ReportedCalls(oracle, route, asked[1..], attempt + 1)
  }

  // ---------------------------------------------------------------- bounds

  /** The most one run can spend. */
  function MostOf(tally: Tally, setup: Setup): nat
    requires setup.limits.maxExternal >= 0
  {
    match tally
    case Counted => MostCalls(setup.limits.maxExternal, setup.route, setup.queries)
    case Made =>
      if setup.limits.maxExternal == 0 then 0 else ExternalsOf(setup.route) * NonBlank(setup.queries, |setup.queries|)
  }

  lemma RunCallsAtMost(world: World, setup: Setup, tally: Tally, n: int)
    requires setup.limits.maxExternal >= 0
    ensures RunCalls(world, setup, tally, n) <= MostOf(tally, setup)
  {
    hide CollectUpTo, MostCalls, ToolCalls, ExternalsOf, NonBlank;
    CallsAtMost(world.answers(n), setup.limits, setup.route, setup.queries);
    ToolCallsBounded(world.answers(n), setup.limits, setup.route, setup.queries);
    if setup.limits.maxExternal == 0 {
      QueriesAtZeroCap(world.answers(n), setup.limits, setup.route, setup.queries, |setup.queries|);
    }
  }

  lemma {:induction false} RequestCallsAtMost(world: World, setup: Setup, tally: Tally, attempt: int, count: nat)
    requires setup.limits.maxExternal >= 0
    ensures RequestCalls(world, setup, tally, attempt, count) <= count * MostOf(tally, setup)
    decreases count
  {
    hide MostOf, RunCalls;
    if count > 0 {
      RunCallsAtMost(world, setup, tally, attempt);
      RequestCallsAtMost(world, setup, tally, attempt + 1, count - 1);
      OneMore(count - 1, MostOf(tally, setup));
    }
  }

  lemma OneMore(n: nat, calls: nat)
    ensures (n + 1) * calls == calls + n * calls
  {
  }

  /** A successful attempt reports what its run counted. */
  lemma ReportIsHonest(oracle: Oracle, world: World, setup: Setup, n: int, question: string)
    requires Realizes(oracle, world, setup) && setup.queries != [] && oracle.invoke(n, question, setup.route).Ok?
    ensures oracle.invoke(n, question, setup.route).value.externalCalls == RunCalls(world, setup, Counted, n)
  {
    hide W.Retrieval, W.IsContextOf;
    assert Reports(world, setup, n, question, oracle.invoke(n, question, setup.route).value);
  }

  lemma {:induction false} ReportedAtMostMade(oracle: Oracle, world: World, setup: Setup, asked: seq<string>, attempt: int)
    requires Realizes(oracle, world, setup) && setup.queries != []
    ensures ReportedCalls(oracle, setup.route, asked, attempt) <= RequestCalls(world, setup, Counted, attempt, |asked|)
    decreases |asked|
  {
    hide Realizes, RunCalls;
    if asked != [] {
      if oracle.invoke(attempt, asked[0], setup.route).Ok? { ReportIsHonest(oracle, world, setup, attempt, asked[0]); }
      ReportedAtMostMade(oracle, world, setup, asked[1..], attempt + 1);
    }
  }

  lemma AttemptsAtMost(world: World, setup: Setup, tally: Tally, count: nat, most: nat)
    requires setup.limits.maxExternal >= 0 && count <= most
    ensures RequestCalls(world, setup, tally, 1, count) <= most * MostOf(tally, setup)
  {
    hide MostOf, RequestCalls;
    RequestCallsAtMost(world, setup, tally, 1, count);
    Scale(MostOf(tally, setup), count, most);
  }

  lemma CountedWithinCap(setup: Setup, most: nat)
    requires setup.limits.maxExternal >= 0
    ensures most * MostOf(Counted, setup) <= most * setup.limits.maxExternal
  {
    Scale(most, MostOf(Counted, setup), setup.limits.maxExternal);
  }

  /**
   * The cap holds per workflow run, hence the attempts of either loop make at most MaxRetries × cap
   * successful external calls, and never report more than they made.
   */
  lemma RequestBudget(cfg: AskLoops.Config, oracle: Oracle, world: World, setup: Setup, question: string)
    requires setup.route != Direct && cfg.maxRetries > 0 && setup.limits.maxExternal >= 0 && setup.queries != []
    requires Realizes(oracle, world, setup)
    ensures var asked := AskFrom(cfg, oracle, setup.route, question, 1).asked;
            ReportedCalls(oracle, setup.route, asked, 1) <= RequestCalls(world, setup, Counted, 1, |asked|)
            <= cfg.maxRetries * setup.limits.maxExternal
    ensures var asked := StreamFrom(cfg, oracle, setup.route, question, 1).asked;
            ReportedCalls(oracle, setup.route, asked, 1) <= RequestCalls(world, setup, Counted, 1, |asked|)
            <= cfg.maxRetries * setup.limits.maxExternal
  {
    hide AskFrom, StreamFrom, ReportedCalls, RequestCalls, Realizes, AskedWell, StreamedWell, MostOf;
    AskEnds(cfg, oracle, setup.route, question, 1);
    StreamEnds(cfg, oracle, setup.route, question, 1);
    var a, s := AskFrom(cfg, oracle, setup.route, question, 1).asked, StreamFrom(cfg, oracle, setup.route, question, 1).asked;
    ReportedAtMostMade(oracle, world, setup, a, 1);
    ReportedAtMostMade(oracle, world, setup, s, 1);
    AttemptsAtMost(world, setup, Counted, |a|, cfg.maxRetries);
    AttemptsAtMost(world, setup, Counted, |s|, cfg.maxRetries);
    CountedWithinCap(setup, cfg.maxRetries);
  }

  /** The single retrieval of a direct fallback stays within the cap, too. */
  lemma DirectFallbackBudget(cfg: AskLoops.Config, limits: Limits, opening: Opening)
    requires limits.maxExternal >= 0
    ensures FallbackRun(cfg, limits, opening).run.stats.externalCalls <= limits.maxExternal
  {
    hide RetrieveOne, Accounted, ToolCalls, FailedTools, ExternalsOf;
    FreshRunConsistent(limits.maxExternal);
    RetrieveOneKeepsBooks(opening.fallback, limits, cfg.directFallbackRoute, Orchestrator.Run(NO_STATS, []));
  }

  /** Its tool calls stay within the cap, for all answers, exactly when the cap is zero or covers the external options. */
  lemma DirectFallbackToolsIff(limits: Limits, route: Route)
    requires limits.maxExternal >= 0
    ensures (forall answers: Answers ::
               ToolCalls(RetrieveOne(answers, limits, route, Orchestrator.Run(NO_STATS, [])).run.log) <= limits.maxExternal)
        <==> limits.maxExternal == 0 || ExternalsOf(route) <= limits.maxExternal
  {
    hide RetrieveOne, ToolCalls, ExternalsOf, CollectUpTo, NonBlank;
    var queries := ["q"];
    CapBoundsCallsIff(limits, route, queries);
    OneQuery(AllUp(), limits, route, queries);
    assert ExternalsOf(route) * 1 == ExternalsOf(route);
    if limits.maxExternal == 0 || ExternalsOf(route) <= limits.maxExternal {
      forall answers: Answers
        ensures ToolCalls(RetrieveOne(answers, limits, route, Orchestrator.Run(NO_STATS, [])).run.log) <= limits.maxExternal
      {
        OneQuery(answers, limits, route, queries);
      }
    } else {
      var answers: Answers :|
        ToolCalls(CollectUpTo(answers, limits, route, queries, Orchestrator.Run(NO_STATS, []), |queries|).run.log)
        > limits.maxExternal;
      OneQuery(answers, limits, route, queries);
    }
  }

  lemma OneQuery(answers: Answers, limits: Limits, route: Route, queries: seq<string>)
    requires queries == ["q"]
    ensures NonBlank(queries, |queries|) == 1
    ensures RetrieveOne(answers, limits, route, Orchestrator.Run(NO_STATS, [])).run
         == CollectUpTo(answers, limits, route, queries, Orchestrator.Run(NO_STATS, []), |queries|).run
  {
    hide RetrieveOne, TrimSpace;
    TrimOfTrimmed("q");
    assert NonBlank(queries, 1) == NonBlank(queries, 0) + 1;
    assert CollectUpTo(answers, limits, route, queries, Orchestrator.Run(NO_STATS, []), 0)
        == Collected(Orchestrator.Run(NO_STATS, []), [], false);
  }

  // ---------------------------------------------------------------- a request that spends all it can

  const SILENT := W.Models(Ok(""), None, Ok(""))

  /** Nothing is found locally; tools answer to be counted, and fail to be called in spite of the cap. */
  function WorstDay(tally: Tally, setup: Setup): Answers {
    if tally.Made? && setup.limits.maxExternal > 0 then AllDown() else AllUp()
  }

  /** Every day is the worst, and the models have nothing to say. */
  function WorstWorld(tally: Tally, setup: Setup): World {
    var answers := WorstDay(tally, setup);
    World(n => answers, n => SILENT)
  }

  lemma WorstRun(tally: Tally, setup: Setup)
    requires setup.limits.maxExternal >= 0
    ensures var c := W.Retrieval(WorstDay(tally, setup), setup.limits, setup.route, setup.queries);
            !c.failed && TallyOf(tally, c.run) == MostOf(tally, setup)
  {
    hide CollectUpTo, MostCalls, ToolCalls, ExternalsOf, NonBlank, AllUp, AllDown;
    var limits, route, queries := setup.limits, setup.route, setup.queries;
    if tally.Made? && limits.maxExternal > 0 {
      QueriesWhenDown(limits, route, queries, |queries|);
      ToolCallsWhenDown(limits, route, queries);
    } else {
      QueriesWhenUp(limits, route, queries, |queries|);
      CallsWhenUp(limits, route, queries);
      if tally.Made? { QueriesAtZeroCap(AllUp(), limits, route, queries, |queries|); }
    }
  }

  lemma WorstRunCalls(tally: Tally, setup: Setup, n: int)
    requires setup.limits.maxExternal >= 0
    ensures RunCalls(WorstWorld(tally, setup), setup, tally, n) == MostOf(tally, setup)
  {
    hide W.Retrieval, MostOf, TallyOf, WorstDay;
    WorstRun(tally, setup);
    assert WorstWorld(tally, setup).answers(n) == WorstDay(tally, setup) && WorstWorld(tally, setup).models(n) == SILENT;
  }

  lemma {:induction false} WorstCalls(tally: Tally, setup: Setup, attempt: int, count: nat)
    requires setup.limits.maxExternal >= 0
    ensures RequestCalls(WorstWorld(tally, setup), setup, tally, attempt, count) == count * MostOf(tally, setup)
    decreases count
  {
    hide MostOf, WorstWorld, RunCalls;
    if count > 0 {
      WorstRunCalls(tally, setup, attempt);
      WorstCalls(tally, setup, attempt + 1, count - 1);
      OneMore(count - 1, MostOf(tally, setup));
    }
  }

  /** Every attempt succeeds and none is ever relevant. */
  function Insatiable(cfg: AskLoops.Config, refs: seq<Reference>, calls: nat): Oracle {
    Oracle((n, q, r) => Ok(Attempt("", q, refs, calls)), (n, a) => Ok(Grade(false, cfg.confidenceThreshold - 1.0)), (n, a) => true)
  }

  lemma InsatiableStep(cfg: AskLoops.Config, refs: seq<Reference>, calls: nat, route: Route, current: string, attempt: int)
    requires route != Direct && attempt <= cfg.maxRetries
    ensures var oracle := Insatiable(cfg, refs, calls);
            && AskStep(cfg, oracle, route, current, attempt) ==
               (if attempt < cfg.maxRetries then Again(route, current + HINT)
                else Stop(Answered(route, attempt, Attempt("", current, refs, calls))))
            && StreamStep(cfg, oracle, route, current, attempt) == AskStep(cfg, oracle, route, current, attempt)
  {
    var oracle, out := Insatiable(cfg, refs, calls), Attempt("", current, refs, calls);
    assert oracle.invoke(attempt, current, route) == Ok(out);
    assert oracle.grade(attempt, out) == Ok(Grade(false, cfg.confidenceThreshold - 1.0));
    assert oracle.openStream(attempt, out);
  }

  lemma {:induction false} InsatiableAsks(cfg: AskLoops.Config, refs: seq<Reference>, calls: nat, route: Route,
                                          current: string, attempt: int)
    requires route != Direct && attempt <= cfg.maxRetries
    ensures var oracle := Insatiable(cfg, refs, calls);
            && |AskFrom(cfg, oracle, route, current, attempt).asked| == cfg.maxRetries - attempt + 1
            && |StreamFrom(cfg, oracle, route, current, attempt).asked| == cfg.maxRetries - attempt + 1
    decreases cfg.maxRetries - attempt
  {
    hide AskStep, StreamStep, Insatiable;
    InsatiableStep(cfg, refs, calls, route, current, attempt);
    if attempt < cfg.maxRetries { InsatiableAsks(cfg, refs, calls, route, current + HINT, attempt + 1); }
  }

  /** Some context always comes out. */
  lemma ContextExists(answers: Answers, setup: Setup, models: W.Models) returns (rows: seq<Candidate>)
    requires models.rerank == None
    ensures W.IsContextOf(answers, setup.limits, setup.topM, models, setup.route, setup.queries, rows)
  {
    hide IsTop, FusedRows, W.Retrieval;
    var lists := W.Retrieval(answers, setup.limits, setup.route, setup.queries).lists;
    var combined: seq<Candidate>;
    if |lists| == 0 {
      combined := [];
    } else if |lists| == 1 {
      combined := lists[0];
    } else {
      combined := TopExists(multiset(FusedRows(lists)), ScoreOf, setup.limits.topK);
    }
    assert CombinesTo(lists, setup.limits.topK, combined);
    rows := TrimExists(combined, setup.topM);
  }

  lemma TrimExists(combined: seq<Candidate>, topM: int) returns (rows: seq<Candidate>)
    ensures Rerank.IsTrimmed(None, combined, topM, rows)
  {
    hide IsTop;
    if |combined| <= 1 {
      rows := combined;
    } else {
      var kept := TopExists(multiset(combined), ScoreOf, Rerank.Kept(topM, |combined|));
      rows := Rerank.TrimLayers(kept);
    }
  }

  lemma WorstReport(tally: Tally, setup: Setup, rows: seq<Candidate>, n: int, question: string)
    requires setup.queries != [] && setup.limits.maxExternal >= 0
    requires W.IsContextOf(WorstDay(tally, setup), setup.limits, setup.topM, SILENT, setup.route, setup.queries, rows)
    ensures Reports(WorstWorld(tally, setup), setup, n, question,
                    Attempt("", question, ReferencesTo(rows), CountedAtWorst(tally, setup)))
  {
    hide CollectUpTo, MostOf, TallyOf, WorstDay, W.IsContextOf, TrimSpace;
    WorstRun(tally, setup);
    TrimOfTrimmed("");
    var answers := WorstDay(tally, setup);
    var stats := W.Retrieval(answers, setup.limits, setup.route, setup.queries).run.stats;
    var out := W.Output("", question, ReferencesTo(rows), rows, W.RenderContext(rows), stats);
    assert WorstWorld(tally, setup).answers(n) == answers && WorstWorld(tally, setup).models(n) == SILENT;
    assert W.IsOutput(answers, setup.limits, setup.topM, SILENT, setup.route, question, setup.queries, out);
  }

  function CountedAtWorst(tally: Tally, setup: Setup): nat {
    W.Retrieval(WorstDay(tally, setup), setup.limits, setup.route, setup.queries).run.stats.externalCalls
  }

  lemma InsatiableRealizes(cfg: AskLoops.Config, tally: Tally, setup: Setup) returns (oracle: Oracle, refs: seq<Reference>)
    requires setup.queries != [] && setup.limits.maxExternal >= 0
    ensures oracle == Insatiable(cfg, refs, CountedAtWorst(tally, setup))
    ensures Realizes(oracle, WorstWorld(tally, setup), setup)
  {
    hide CountedAtWorst, WorstDay, W.IsContextOf, Reports, WorstWorld;
    var rows := ContextExists(WorstDay(tally, setup), setup, SILENT);
    refs := ReferencesTo(rows);
    oracle := Insatiable(cfg, refs, CountedAtWorst(tally, setup));
    forall n, q
      ensures oracle.invoke(n, q, setup.route).Ok?
      ensures Reports(WorstWorld(tally, setup), setup, n, q, oracle.invoke(n, q, setup.route).value)
    {
      WorstReport(tally, setup, rows, n, q);
    }
  }

  // ---------------------------------------------------------------- the cap and the whole request

  /** In no world do the attempts of `Ask` together spend more than the cap. */
  ghost predicate AskWithinCap(cfg: AskLoops.Config, setup: Setup, tally: Tally, question: string) {
    forall oracle: Oracle, world: World :: Realizes(oracle, world, setup) ==>
      RequestCalls(world, setup, tally, 1, |AskFrom(cfg, oracle, setup.route, question, 1).asked|) <= setup.limits.maxExternal
  }

  ghost predicate StreamWithinCap(cfg: AskLoops.Config, setup: Setup, tally: Tally, question: string) {
    forall oracle: Oracle, world: World :: Realizes(oracle, world, setup) ==>
      RequestCalls(world, setup, tally, 1, |StreamFrom(cfg, oracle, setup.route, question, 1).asked|) <= setup.limits.maxExternal
  }

  /** For all answers and grades a request stays within the cap exactly when MaxRetries runs at their worst do. */
  lemma WithinCapIff(cfg: AskLoops.Config, setup: Setup, tally: Tally, question: string)
    requires setup.route != Direct && cfg.maxRetries > 0 && setup.limits.maxExternal >= 0 && setup.queries != []
    ensures AskWithinCap(cfg, setup, tally, question) <==> cfg.maxRetries * MostOf(tally, setup) <= setup.limits.maxExternal
    ensures StreamWithinCap(cfg, setup, tally, question) <==> cfg.maxRetries * MostOf(tally, setup) <= setup.limits.maxExternal
  {
    hide AskFrom, StreamFrom, RequestCalls, Realizes, MostOf, WorstWorld, Insatiable, AskedWell, StreamedWell;
    var oracle, refs := InsatiableRealizes(cfg, tally, setup);
    InsatiableAsks(cfg, refs, CountedAtWorst(tally, setup), setup.route, question, 1);
    WorstCalls(tally, setup, 1, cfg.maxRetries);
    forall oracle: Oracle, world: World | Realizes(oracle, world, setup)
      ensures var most := cfg.maxRetries * MostOf(tally, setup);
              && RequestCalls(world, setup, tally, 1, |AskFrom(cfg, oracle, setup.route, question, 1).asked|) <= most
              && RequestCalls(world, setup, tally, 1, |StreamFrom(cfg, oracle, setup.route, question, 1).asked|) <= most
    {
      AskEnds(cfg, oracle, setup.route, question, 1);
      StreamEnds(cfg, oracle, setup.route, question, 1);
      AttemptsAtMost(world, setup, tally, |AskFrom(cfg, oracle, setup.route, question, 1).asked|, cfg.maxRetries);
      AttemptsAtMost(world, setup, tally, |StreamFrom(cfg, oracle, setup.route, question, 1).asked|, cfg.maxRetries);
    }
  }

  /**
   * The documentation promises the cap for the external calls of a request. It bounds the tool calls
   * the request makes, for all answers and grades, exactly when it is zero or no smaller than the
   * number of external options of all non-blank sub-queries in all attempts: the promise holds only
   * where the cap is of no consequence, or forbids every call.
   */
  lemma CapPerRequestIff(cfg: AskLoops.Config, setup: Setup, question: string)
    requires setup.route != Direct && cfg.maxRetries > 0 && setup.limits.maxExternal >= 0 && setup.queries != []
    ensures var there := ExternalsOf(setup.route) * NonBlank(setup.queries, |setup.queries|);
            AskWithinCap(cfg, setup, Made, question) <==>
            setup.limits.maxExternal == 0 || cfg.maxRetries * there <= setup.limits.maxExternal
    ensures var there := ExternalsOf(setup.route) * NonBlank(setup.queries, |setup.queries|);
            StreamWithinCap(cfg, setup, Made, question) <==>
            setup.limits.maxExternal == 0 || cfg.maxRetries * there <= setup.limits.maxExternal
  {
    hide AskWithinCap, StreamWithinCap, ExternalsOf, NonBlank;
    WithinCapIff(cfg, setup, Made, question);
    assert cfg.maxRetries * 0 == 0;
  }

  /**
   * Even of the calls its counter counts the cap does not bound a request, because every attempt has
   * a budget of its own: it does exactly when MaxRetries · min(cap, external options × non-blank
   * sub-queries) stays within it.
   */
  lemma CountedPerRequestIff(cfg: AskLoops.Config, setup: Setup, question: string)
    requires setup.route != Direct && cfg.maxRetries > 0 && setup.limits.maxExternal >= 0 && setup.queries != []
    ensures AskWithinCap(cfg, setup, Counted, question) <==>
            cfg.maxRetries * MostCalls(setup.limits.maxExternal, setup.route, setup.queries) <= setup.limits.maxExternal
    ensures StreamWithinCap(cfg, setup, Counted, question) <==>
            cfg.maxRetries * MostCalls(setup.limits.maxExternal, setup.route, setup.queries) <= setup.limits.maxExternal
  {
    hide AskWithinCap, StreamWithinCap, MostCalls;
    WithinCapIff(cfg, setup, Counted, question);
  }
}
