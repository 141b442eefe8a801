/** The grade-and-retry loops: answering at once, and answering as a stream. */
module AskLoops {
  import opened Domain
  import opened Text
  import opened Orchestrator
  import Planner

  /** The limits of retrieval: external budget, early stopping, topK. */
  type Limits = Orchestrator.Config

  datatype Config = Config(
    maxRetries: int,
    confidenceThreshold: real,
    directAutoFallback: bool,
    directFallbackRoute: Route,
    plannerMaxSubqueries: int)

  /** What an attempt hands to grading and to the caller; `externalCalls` is its telemetry counter. */
  datatype Attempt = Attempt(answer: string, rewritten: string, references: seq<Reference>, externalCalls: nat)

  /** The world: any answers to the workflow run, the grading and the stream opening of an attempt. */
  datatype Oracle = Oracle(
    invoke: (int, string, Route) -> Result<Attempt>,
    grade: (int, Attempt) -> Result<Grade>,
    openStream: (int, Attempt) -> bool)

  datatype Outcome =
    | Answered(route: Route, attempts: int, attempt: Attempt)
    | Failed(message: string)
    | Exhausted

  /** The questions asked, attempt by attempt, and how the loop ended. */
  datatype Trace = Trace(asked: seq<string>, outcome: Outcome)

  const HINT := "\n\U{8BF7}\U{66F4}\U{5177}\U{4F53}\U{5E76}\U{8865}\U{5145}\U{5173}\U{952E}\U{5B9E}\U{4F53}\U{3002}"

  /** The in-loop switch away from the direct route. */
  predicate Switches(cfg: Config, route: Route) {
    route == Direct && cfg.directAutoFallback && cfg.directFallbackRoute != Unnamed && cfg.directFallbackRoute != route
  }

  predicate Unconvincing(cfg: Config, g: Grade) {
    !g.relevant && g.score < cfg.confidenceThreshold
  }

  /** What one attempt leads to. */
  datatype Next = Stop(outcome: Outcome) | Again(route: Route, question: string)

  function AskStep(cfg: Config, oracle: Oracle, route: Route, current: string, attempt: int): Next {
    var out := oracle.invoke(attempt, current, route);
    if out.Err? then Stop(Failed(out.message))
    else
      var grade := oracle.grade(attempt, out.value);
      if grade.Err? then Stop(Failed(grade.message))
      else if Unconvincing(cfg, grade.value) && Switches(cfg, route) then Again(cfg.directFallbackRoute, out.value.rewritten)
      else if grade.value.relevant || attempt == cfg.maxRetries then Stop(Answered(route, attempt, out.value))
      else Again(route, out.value.rewritten + HINT)
  }

  /** The stream does not grade its last attempt. */
  function StreamStep(cfg: Config, oracle: Oracle, route: Route, current: string, attempt: int): Next {
    var out := oracle.invoke(attempt, current, route);
    if out.Err? then Stop(Failed(out.message))
    else if attempt < cfg.maxRetries && oracle.grade(attempt, out.value).Err? then
      Stop(Failed(oracle.grade(attempt, out.value).message))
    else if attempt < cfg.maxRetries && Unconvincing(cfg, oracle.grade(attempt, out.value).value) then
      if Switches(cfg, route) then Again(cfg.directFallbackRoute, out.value.rewritten)
      else Again(route, out.value.rewritten + HINT)
    else if !oracle.openStream(attempt, out.value) then Stop(Failed("stream"))
    else Stop(Answered(route, attempt, out.value))
  }

  /** `Ask` from an attempt on. */
  function AskFrom(cfg: Config, oracle: Oracle, route: Route, current: string, attempt: int): Trace
    decreases cfg.maxRetries - attempt
  {
    if attempt > cfg.maxRetries then Trace([], Exhausted)
    else match AskStep(cfg, oracle, route, current, attempt)
      case Stop(outcome) => Trace([current], outcome)
      case Again(r, q) =>
        var rest := AskFrom(cfg, oracle, r, q, attempt + 1);
        Trace([current] + rest.asked, rest.outcome)
  }

  /** `AskStream` from an attempt on. */
  function StreamFrom(cfg: Config, oracle: Oracle, route: Route, current: string, attempt: int): Trace
    decreases cfg.maxRetries - attempt
  {
    if attempt > cfg.maxRetries then Trace([], Exhausted)
    else match StreamStep(cfg, oracle, route, current, attempt)
      case Stop(outcome) => Trace([current], outcome)
      case Again(r, q) =>
        var rest := StreamFrom(cfg, oracle, r, q, attempt + 1);
        Trace([current] + rest.asked, rest.outcome)
  }

  /** The body of the `Ask` loop. */
  method AskAttempt(cfg: Config, oracle: Oracle, route: Route, current: string, attempt: int) returns (next: Next)
    ensures next == AskStep(cfg, oracle, route, current, attempt)
  {
    var out := oracle.invoke(attempt, current, route);
    if out.Err? { return Stop(Failed(out.message)); }
    var grade := oracle.grade(attempt, out.value);
    if grade.Err? { return Stop(Failed(grade.message)); }
    if !grade.value.relevant && grade.value.score < cfg.confidenceThreshold {
      if route == Direct && cfg.directAutoFallback && cfg.directFallbackRoute != Unnamed && cfg.directFallbackRoute != route {
        return Again(cfg.directFallbackRoute, out.value.rewritten);
      }
    }
    if grade.value.relevant || attempt == cfg.maxRetries { return Stop(Answered(route, attempt, out.value)); }
    return Again(route, out.value.rewritten + HINT);
  }

  /** The body of the `AskStream` loop. */
  method StreamAttempt(cfg: Config, oracle: Oracle, route: Route, current: string, attempt: int) returns (next: Next)
    ensures next == StreamStep(cfg, oracle, route, current, attempt)
  {
    var out := oracle.invoke(attempt, current, route);
    if out.Err? { return Stop(Failed(out.message)); }
    if attempt < cfg.maxRetries {
      var grade := oracle.grade(attempt, out.value);
      if grade.Err? { return Stop(Failed(grade.message)); }
      if !grade.value.relevant && grade.value.score < cfg.confidenceThreshold {
        if route == Direct && cfg.directAutoFallback && cfg.directFallbackRoute != Unnamed && cfg.directFallbackRoute != route {
          return Again(cfg.directFallbackRoute, out.value.rewritten);
        }
        return Again(route, out.value.rewritten + HINT);
      }
    }
    var streaming := oracle.openStream(attempt, out.value);
    if !streaming { return Stop(Failed("stream")); }
    return Stop(Answered(route, attempt, out.value));
  }

  method AskLoop(cfg: Config, oracle: Oracle, start: Route, question: string) returns (outcome: Outcome, ghost asked: seq<string>)
    ensures outcome == AskFrom(cfg, oracle, start, question, 1).outcome
    ensures asked == AskFrom(cfg, oracle, start, question, 1).asked
  {
    hide AskStep;
    var route, current, attempt := start, question, 1;
    asked := [];
    while attempt <= cfg.maxRetries
      invariant var rest := AskFrom(cfg, oracle, route, current, attempt);
                AskFrom(cfg, oracle, start, question, 1) == Trace(asked + rest.asked, rest.outcome)
      decreases cfg.maxRetries - attempt
    {
      var next := AskAttempt(cfg, oracle, route, current, attempt);
      AskOnce(asked, current, AskFrom(cfg, oracle, route, current, attempt).asked);
      asked := asked + [current];
      match next
      case Stop(o) => return o, asked;
      case Again(r, q) => route, current, attempt := r, q, attempt + 1;
    }
    assert asked + [] == asked;
    return Exhausted, asked;
  }

  lemma AskOnce(asked: seq<string>, current: string, more: seq<string>)
    ensures more != [] && more[0] == current ==> asked + more == (asked + [current]) + more[1..]
  {
  }

  method StreamLoop(cfg: Config, oracle: Oracle, start: Route, question: string) returns (outcome: Outcome, ghost asked: seq<string>)
    ensures outcome == StreamFrom(cfg, oracle, start, question, 1).outcome
    ensures asked == StreamFrom(cfg, oracle, start, question, 1).asked
  {
    hide StreamStep;
    var route, current, attempt := start, question, 1;
    asked := [];
    while attempt <= cfg.maxRetries
      invariant var rest := StreamFrom(cfg, oracle, route, current, attempt);
                StreamFrom(cfg, oracle, start, question, 1) == Trace(asked + rest.asked, rest.outcome)
      decreases cfg.maxRetries - attempt
    {
      var next := StreamAttempt(cfg, oracle, route, current, attempt);
      AskOnce(asked, current, StreamFrom(cfg, oracle, route, current, attempt).asked);
      asked := asked + [current];
      match next
      case Stop(o) => return o, asked;
      case Again(r, q) => route, current, attempt := r, q, attempt + 1;
    }
    assert asked + [] == asked;
    return Exhausted, asked;
  }

  // ---------------------------------------------------------------- ends

  /** Off the direct route the switch never fires: an attempt ends the loop or asks again on the same route. */
  lemma StepsOffDirect(cfg: Config, oracle: Oracle, route: Route, current: string, attempt: int)
    requires route != Direct && attempt <= cfg.maxRetries
    ensures var step := AskStep(cfg, oracle, route, current, attempt);
            if step.Again? then step.route == route && attempt < cfg.maxRetries
            else !step.outcome.Exhausted? && (step.outcome.Answered? ==> AskedWell(cfg, oracle, route, current, attempt, step.outcome))
    ensures var step := StreamStep(cfg, oracle, route, current, attempt);
            if step.Again? then step.route == route && attempt < cfg.maxRetries
            else !step.outcome.Exhausted? && (step.outcome.Answered? ==> StreamedWell(cfg, oracle, route, current, attempt, step.outcome))
  {
  }

  /** The answer is this attempt's, graded relevant unless it is the last. */
  ghost predicate AskedWell(cfg: Config, oracle: Oracle, route: Route, question: string, attempt: int, outcome: Outcome) {
    && outcome.Answered? && outcome.route == route && outcome.attempts == attempt
    && oracle.invoke(attempt, question, route) == Ok(outcome.attempt)
    && oracle.grade(attempt, outcome.attempt).Ok?
    && (oracle.grade(attempt, outcome.attempt).value.relevant || attempt == cfg.maxRetries)
  }

  /** The answer is this attempt's and, unless it is the last, convincing. */
  ghost predicate StreamedWell(cfg: Config, oracle: Oracle, route: Route, question: string, attempt: int, outcome: Outcome) {
    && outcome.Answered? && outcome.route == route && outcome.attempts == attempt
    && oracle.invoke(attempt, question, route) == Ok(outcome.attempt)
    && (attempt < cfg.maxRetries ==>
          oracle.grade(attempt, outcome.attempt).Ok? && !Unconvincing(cfg, oracle.grade(attempt, outcome.attempt).value))
  }

  /**
   * Off the direct route `Ask` keeps its route, is never exhausted, and answers with the last
   * question's attempt, graded relevant or the last allowed.
   */
  lemma {:induction false} AskEnds(cfg: Config, oracle: Oracle, route: Route, current: string, attempt: int)
    requires route != Direct && attempt <= cfg.maxRetries
    ensures var t := AskFrom(cfg, oracle, route, current, attempt);
            && !t.outcome.Exhausted?
            && 1 <= |t.asked| <= cfg.maxRetries - attempt + 1
            && (t.outcome.Answered? ==>
                  AskedWell(cfg, oracle, route, t.asked[|t.asked| - 1], attempt + |t.asked| - 1, t.outcome))
    decreases cfg.maxRetries - attempt
  {
    hide AskStep, StreamStep, AskedWell, StreamedWell;
    StepsOffDirect(cfg, oracle, route, current, attempt);
    var step := AskStep(cfg, oracle, route, current, attempt);
    if step.Again? {
      AskEnds(cfg, oracle, route, step.question, attempt + 1);
    }
  }

  /** The same for the stream, whose answers before the last attempt are convincing rather than relevant. */
  lemma {:induction false} StreamEnds(cfg: Config, oracle: Oracle, route: Route, current: string, attempt: int)
    requires route != Direct && attempt <= cfg.maxRetries
    ensures var t := StreamFrom(cfg, oracle, route, current, attempt);
            && !t.outcome.Exhausted?
            && 1 <= |t.asked| <= cfg.maxRetries - attempt + 1
            && (t.outcome.Answered? ==>
                  StreamedWell(cfg, oracle, route, t.asked[|t.asked| - 1], attempt + |t.asked| - 1, t.outcome))
    decreases cfg.maxRetries - attempt
  {
    hide AskStep, StreamStep, AskedWell, StreamedWell;
    StepsOffDirect(cfg, oracle, route, current, attempt);
    var step := StreamStep(cfg, oracle, route, current, attempt);
    if step.Again? {
      StreamEnds(cfg, oracle, route, step.question, attempt + 1);
    }
  }

  /** "Exhausted retry loop" is exactly the case of no retries at all. */
  lemma ExhaustedIff(cfg: Config, oracle: Oracle, route: Route, question: string)
    requires route != Direct
    ensures AskFrom(cfg, oracle, route, question, 1).outcome.Exhausted? <==> cfg.maxRetries <= 0
    ensures StreamFrom(cfg, oracle, route, question, 1).outcome.Exhausted? <==> cfg.maxRetries <= 0
  {
    if cfg.maxRetries > 0 {
      AskEnds(cfg, oracle, route, question, 1);
      StreamEnds(cfg, oracle, route, question, 1);
    }
  }

  // ---------------------------------------------------------------- the two loops simulate each other

  /** An attempt before the last whose answer was graded irrelevant. */
  ghost predicate GradedIrrelevant(cfg: Config, oracle: Oracle, route: Route, question: string, attempt: int) {
    && attempt < cfg.maxRetries
    && oracle.invoke(attempt, question, route).Ok?
    && var out := oracle.invoke(attempt, question, route).value;
       oracle.grade(attempt, out).Ok? && !oracle.grade(attempt, out).value.relevant
  }

  /** Where the stream goes on, `Ask` goes on alike; where it stops, `Ask` goes on exactly past an irrelevant answer. */
  lemma StepsCompared(cfg: Config, oracle: Oracle, route: Route, current: string, attempt: int)
    requires route != Direct && attempt <= cfg.maxRetries
    ensures var s, a := StreamStep(cfg, oracle, route, current, attempt), AskStep(cfg, oracle, route, current, attempt);
            && (s.Again? ==> a == s)
            && (s.Stop? ==> (a.Again? <==> GradedIrrelevant(cfg, oracle, route, current, attempt)))
  {
  }

  /** Every question the stream asks, `Ask` asks at the same attempt. */
  lemma {:induction false} StreamIsPrefix(cfg: Config, oracle: Oracle, route: Route, current: string, attempt: int)
    requires route != Direct
    ensures StreamFrom(cfg, oracle, route, current, attempt).asked <= AskFrom(cfg, oracle, route, current, attempt).asked
    decreases cfg.maxRetries - attempt
  {
    hide AskStep, StreamStep, GradedIrrelevant;
    if attempt <= cfg.maxRetries {
      StepsCompared(cfg, oracle, route, current, attempt);
      StepsOffDirect(cfg, oracle, route, current, attempt);
      var step := StreamStep(cfg, oracle, route, current, attempt);
      if step.Again? { StreamIsPrefix(cfg, oracle, route, step.question, attempt + 1); }
    }
  }

  /**
   * The stream stops earlier exactly when the answer it stopped at was graded irrelevant before the
   * last attempt: a score at or above the threshold satisfies the stream but not `Ask`.
   */
  lemma {:induction false} StreamStopsEarlierIff(cfg: Config, oracle: Oracle, route: Route, current: string, attempt: int)
    requires route != Direct && attempt <= cfg.maxRetries
    ensures var s := StreamFrom(cfg, oracle, route, current, attempt);
            && s.asked != []
            && (|s.asked| < |AskFrom(cfg, oracle, route, current, attempt).asked| <==>
                GradedIrrelevant(cfg, oracle, route, s.asked[|s.asked| - 1], attempt + |s.asked| - 1))
    decreases cfg.maxRetries - attempt
  {
    hide AskStep, StreamStep, GradedIrrelevant, AskedWell, StreamedWell;
    StepsCompared(cfg, oracle, route, current, attempt);
    StepsOffDirect(cfg, oracle, route, current, attempt);
    var s, a := StreamStep(cfg, oracle, route, current, attempt), AskStep(cfg, oracle, route, current, attempt);
    if s.Again? {
      StreamStopsEarlierIff(cfg, oracle, route, s.question, attempt + 1);
    } else if a.Again? {
      AskEnds(cfg, oracle, route, a.question, attempt + 1);
    }
  }

  /** They stop together whenever no irrelevant answer scores at or above the threshold. */
  lemma StopTogether(cfg: Config, oracle: Oracle, route: Route, question: string)
    requires route != Direct && cfg.maxRetries > 0
    requires forall n, a :: oracle.grade(n, a).Ok? && !oracle.grade(n, a).value.relevant ==>
               oracle.grade(n, a).value.score < cfg.confidenceThreshold
    ensures StreamFrom(cfg, oracle, route, question, 1).asked == AskFrom(cfg, oracle, route, question, 1).asked
  {
    StreamIsPrefix(cfg, oracle, route, question, 1);
    SameLength(cfg, oracle, route, question);
  }

  lemma SameLength(cfg: Config, oracle: Oracle, route: Route, question: string)
    requires route != Direct && cfg.maxRetries > 0
    requires forall n, a :: oracle.grade(n, a).Ok? && !oracle.grade(n, a).value.relevant ==>
               oracle.grade(n, a).value.score < cfg.confidenceThreshold
    ensures |StreamFrom(cfg, oracle, route, question, 1).asked| >= |AskFrom(cfg, oracle, route, question, 1).asked|
  {
    hide AskFrom;
    StreamStopsEarlierIff(cfg, oracle, route, question, 1);
    LastStreamed(cfg, oracle, route, question, 1);
  }

  /** The stream stops at its last question because the loop's step there said so. */
  lemma {:induction false} LastStreamed(cfg: Config, oracle: Oracle, route: Route, current: string, attempt: int)
    requires route != Direct && attempt <= cfg.maxRetries
    ensures var s := StreamFrom(cfg, oracle, route, current, attempt);
            && s.asked != []
            && StreamStep(cfg, oracle, route, s.asked[|s.asked| - 1], attempt + |s.asked| - 1).Stop?
    decreases cfg.maxRetries - attempt
  {
    hide StreamStep;
    StepsOffDirect(cfg, oracle, route, current, attempt);
    var step := StreamStep(cfg, oracle, route, current, attempt);
    if step.Again? { LastStreamed(cfg, oracle, route, step.question, attempt + 1); }
  }

  /** Loops that asked the same questions and both answered gave the same attempt on the same route. */
  lemma SameAnswer(cfg: Config, oracle: Oracle, route: Route, question: string)
    requires route != Direct && cfg.maxRetries > 0
    requires var s, a := StreamFrom(cfg, oracle, route, question, 1), AskFrom(cfg, oracle, route, question, 1);
             s.asked == a.asked && s.outcome.Answered? && a.outcome.Answered?
    ensures StreamFrom(cfg, oracle, route, question, 1).outcome == AskFrom(cfg, oracle, route, question, 1).outcome
  {
    AskEnds(cfg, oracle, route, question, 1);
    StreamEnds(cfg, oracle, route, question, 1);
  }

  // ---------------------------------------------------------------- entering the loops

  datatype Request = Request(question: string, forceRoute: Route)

  /** The skill document that answers a request, with its excerpt for the reference. */
  datatype SkillDoc = SkillDoc(name: string, baseDir: string, excerpt: string)

  /** The answers given outside the loop: skills, routing, the direct answer with its grade and fallback, planning. */
  datatype Opening = Opening(
    skill: Option<Result<SkillDoc>>,
    skillChat: Result<string>,
    skillStream: bool,
    route: Result<Route>,
    directAnswer: Result<string>,
    directGrade: Result<Grade>,
    directStream: bool,
    fallback: Answers,
    fallbackChat: Result<string>,
    fallbackStream: bool,
    planChat: Result<string>,
    planParse: string -> Option<seq<string>>)

  /** A forced route wins over the router. */
  function EntryRoute(opening: Opening, req: Request): Result<Route> {
    if req.forceRoute != Unnamed then Ok(req.forceRoute) else opening.route
  }

  function PlanOf(opening: Opening, req: Request): Result<seq<string>> {
    Planner.Plan(TrimSpace(req.question), opening.planChat, opening.planParse)
  }

  /** The sub-queries of every attempt of the request. */
  function QueriesOf(cfg: Config, opening: Opening, req: Request): (queries: seq<string>)
    requires PlanOf(opening, req).Ok?
    ensures queries != []
  {
    Planner.Planned(TrimSpace(req.question), PlanOf(opening, req).value, cfg.plannerMaxSubqueries)
  }

  function SkillReference(doc: SkillDoc): Reference {
    Reference("skill:" + doc.name, "skill_doc", 1.0, doc.baseDir, doc.excerpt)
  }

  function SkillAsk(opening: Opening, skill: Result<SkillDoc>, question: string): Outcome {
    if skill.Err? then Failed(skill.message)
    else if opening.skillChat.Err? then Failed(opening.skillChat.message)
    else Answered(Skill, 1, Attempt(TrimSpace(opening.skillChat.value), question, [SkillReference(skill.value)], 0))
  }

  /** A stream's text is not part of its result. */
  function SkillStream(opening: Opening, skill: Result<SkillDoc>, question: string): Outcome {
    if skill.Err? then Failed(skill.message)
    else if !opening.skillStream then Failed("stream")
    else Answered(Skill, 1, Attempt("", question, [SkillReference(skill.value)], 0))
  }

  predicate ShouldFallbackDirect(cfg: Config, g: Grade) {
    if !cfg.directAutoFallback then false
    else if cfg.confidenceThreshold <= 0.0 then false
    else if cfg.directFallbackRoute == Unnamed then false
    else if g.relevant && g.score >= cfg.confidenceThreshold then false
    else g.score < cfg.confidenceThreshold
  }

  /** The decision to leave a direct answer rests on its score alone: relevance plays no part. */
  lemma FallbackByScoreAlone(cfg: Config, score: real)
    ensures ShouldFallbackDirect(cfg, Grade(true, score)) == ShouldFallbackDirect(cfg, Grade(false, score))
    ensures ShouldFallbackDirect(cfg, Grade(true, score)) <==>
            cfg.directAutoFallback && cfg.directFallbackRoute != Unnamed && 0.0 < cfg.confidenceThreshold && score < cfg.confidenceThreshold
  {
  }

  predicate FallsBack(cfg: Config, g: Grade) {
    ShouldFallbackDirect(cfg, g) && cfg.directFallbackRoute != Direct
  }

  /** The one retrieval of a direct fallback, with counters of its own. */
  function FallbackRun(cfg: Config, limits: Limits, opening: Opening): Retrieved {
    RetrieveOne(opening.fallback, limits, cfg.directFallbackRoute, Orchestrator.Run(NO_STATS, []))
  }

  /** Retrieval on the fallback route answers the question as asked; a failed one leaves the direct answer in place. */
  function DirectAsk(cfg: Config, limits: Limits, opening: Opening, question: string): Outcome {
    if opening.directAnswer.Err? then Failed(opening.directAnswer.message)
    else if opening.directGrade.Err? then Failed(opening.directGrade.message)
    else
      var run := FallbackRun(cfg, limits, opening);
      if FallsBack(cfg, opening.directGrade.value) && run.rows.Ok? && opening.fallbackChat.Ok? then
        Answered(cfg.directFallbackRoute, 1,
                 Attempt(TrimSpace(opening.fallbackChat.value), question, ReferencesTo(run.rows.value), run.run.stats.externalCalls))
      else Answered(Direct, 1, Attempt(TrimSpace(opening.directAnswer.value), question, [], 0))
  }

  function DirectStream(cfg: Config, limits: Limits, opening: Opening, question: string): Outcome {
    if opening.directAnswer.Err? then Failed(opening.directAnswer.message)
    else if opening.directGrade.Err? then Failed(opening.directGrade.message)
    else
      var run := FallbackRun(cfg, limits, opening);
      if FallsBack(cfg, opening.directGrade.value) && run.rows.Ok? && opening.fallbackStream then
        Answered(cfg.directFallbackRoute, 1, Attempt("", question, ReferencesTo(run.rows.value), run.run.stats.externalCalls))
      else if !opening.directStream then Failed("stream")
      else Answered(Direct, 1, Attempt("", question, [], 0))
  }

  method RetrieveFallback(cfg: Config, limits: Limits, opening: Opening)
    returns (rows: Result<seq<Candidate>>, refs: seq<Reference>, calls: nat)
    ensures rows == FallbackRun(cfg, limits, opening).rows && calls == FallbackRun(cfg, limits, opening).run.stats.externalCalls
    ensures rows.Ok? ==> refs == ReferencesTo(rows.value)
  {
    hide RetrieveOne;
    var backend := new Backend(opening.fallback);
    var stats := new OrchestrationStats(1);
    rows, refs := RetrieveByRouteWithFallback(backend, stats, limits, cfg.directFallbackRoute);
    calls := stats.Value().externalCalls;
  }

  method AskDirectly(cfg: Config, limits: Limits, opening: Opening, question: string) returns (outcome: Outcome)
    ensures outcome == DirectAsk(cfg, limits, opening, question)
  {
    hide FallbackRun;
    if opening.directAnswer.Err? { return Failed(opening.directAnswer.message); }
    if opening.directGrade.Err? { return Failed(opening.directGrade.message); }
    if ShouldFallbackDirect(cfg, opening.directGrade.value) {
      if cfg.directFallbackRoute != Direct {
        var rows, refs, calls := RetrieveFallback(cfg, limits, opening);
        if rows.Ok? && opening.fallbackChat.Ok? {
          return Answered(cfg.directFallbackRoute, 1, Attempt(TrimSpace(opening.fallbackChat.value), question, refs, calls));
        }
      }
    }
    return Answered(Direct, 1, Attempt(TrimSpace(opening.directAnswer.value), question, [], 0));
  }

  method StreamDirectly(cfg: Config, limits: Limits, opening: Opening, question: string) returns (outcome: Outcome)
    ensures outcome == DirectStream(cfg, limits, opening, question)
  {
    hide FallbackRun;
    if opening.directAnswer.Err? { return Failed(opening.directAnswer.message); }
    if opening.directGrade.Err? { return Failed(opening.directGrade.message); }
    if ShouldFallbackDirect(cfg, opening.directGrade.value) {
      if cfg.directFallbackRoute != Direct {
        var rows, refs, calls := RetrieveFallback(cfg, limits, opening);
        if rows.Ok? && opening.fallbackStream {
          return Answered(cfg.directFallbackRoute, 1, Attempt("", question, refs, calls));
        }
      }
    }
    if !opening.directStream { return Failed("stream"); }
    return Answered(Direct, 1, Attempt("", question, [], 0));
  }

  /** Neither the blank question nor a skill ends the request before routing. */
  predicate Routed(opening: Opening, req: Request) {
    !Blank(req.question) && opening.skill.None?
  }

  /** The request reaches its loop: routed elsewhere than direct, and planned. */
  predicate Enters(opening: Opening, req: Request) {
    Routed(opening, req) && EntryRoute(opening, req).Ok? && EntryRoute(opening, req).value != Direct && PlanOf(opening, req).Ok?
  }

  /** `worlds` gives the oracle for the planned sub-queries. */
  method Ask(cfg: Config, limits: Limits, opening: Opening, worlds: seq<string> -> Oracle, req: Request)
    returns (outcome: Outcome)
    ensures Blank(req.question) ==> outcome == Failed("question is required")
    ensures !Blank(req.question) && opening.skill.Some? ==>
              outcome == SkillAsk(opening, opening.skill.value, TrimSpace(req.question))
    ensures Routed(opening, req) && EntryRoute(opening, req).Err? ==> outcome == Failed(EntryRoute(opening, req).message)
    ensures Routed(opening, req) && EntryRoute(opening, req) == Ok(Direct) ==>
              outcome == DirectAsk(cfg, limits, opening, TrimSpace(req.question))
    ensures Routed(opening, req) && EntryRoute(opening, req).Ok? && EntryRoute(opening, req).value != Direct ==>
              PlanOf(opening, req).Err? ==> outcome == Failed(PlanOf(opening, req).message)
    ensures Enters(opening, req) ==>
              outcome == AskFrom(cfg, worlds(QueriesOf(cfg, opening, req)), EntryRoute(opening, req).value,
                                 TrimSpace(req.question), 1).outcome
    ensures !Blank(req.question) && opening.skill.Some? && opening.skill.value.Ok? && opening.skillChat.Ok? ==>
              var doc := opening.skill.value.value;
              outcome == Answered(Skill, 1, Attempt(TrimSpace(opening.skillChat.value), TrimSpace(req.question),
                                    [Reference("skill:" + doc.name, "skill_doc", 1.0, doc.baseDir, doc.excerpt)], 0))
    ensures Routed(opening, req) && req.forceRoute != Unnamed && req.forceRoute != Direct ==>
              outcome.Answered? ==> outcome.route == req.forceRoute
    ensures Routed(opening, req) && req.forceRoute == Unnamed && opening.route.Err? ==> outcome == Failed(opening.route.message)
    ensures Routed(opening, req) && req.forceRoute == Unnamed && opening.route.Ok? && opening.route.value != Direct ==>
              outcome.Answered? ==> outcome.route == opening.route.value
    ensures outcome.Exhausted? ==> cfg.maxRetries <= 0
    ensures outcome.Answered? ==> 1 <= outcome.attempts && (outcome.attempts == 1 || outcome.attempts <= cfg.maxRetries)
  {
    hide AskFrom, StreamFrom, DirectAsk, Planner.Plan, Planner.Planned;
    var question := TrimSpace(req.question);
    if question == "" { return Failed("question is required"); }
    if opening.skill.Some? { return SkillAsk(opening, opening.skill.value, question); }
    var route := EntryRoute(opening, req);
    if route.Err? { return Failed(route.message); }
    if route.value == Direct {
      outcome := AskDirectly(cfg, limits, opening, question);
      DirectEnds(cfg, limits, opening, question);
      return;
    }
    var plan := Planner.PlanSubQueries(question, opening.planChat, opening.planParse);
    if plan.Err? { return Failed(plan.message); }
    var queries := Planner.Planned(question, plan.value, cfg.plannerMaxSubqueries);
    ghost var asked;
    outcome, asked := AskLoop(cfg, worlds(queries), route.value, question);
    ExhaustedIff(cfg, worlds(queries), route.value, question);
    if cfg.maxRetries > 0 { AskEnds(cfg, worlds(queries), route.value, question, 1); }
  }

  /** The direct route answers in one attempt or fails. */
  lemma DirectEnds(cfg: Config, limits: Limits, opening: Opening, question: string)
    ensures var o := DirectAsk(cfg, limits, opening, question);
            if o.Answered? then o.attempts == 1 && o.attempt.rewritten == question else o.Failed?
    ensures var o := DirectStream(cfg, limits, opening, question);
            if o.Answered? then o.attempts == 1 && o.attempt.rewritten == question else o.Failed?
  {
    hide FallbackRun;
  }

  method AskStream(cfg: Config, limits: Limits, opening: Opening, worlds: seq<string> -> Oracle, req: Request)
    returns (outcome: Outcome)
    ensures Blank(req.question) ==> outcome == Failed("question is required")
    ensures !Blank(req.question) && opening.skill.Some? ==>
              outcome == SkillStream(opening, opening.skill.value, TrimSpace(req.question))
    ensures Routed(opening, req) && EntryRoute(opening, req).Err? ==> outcome == Failed(EntryRoute(opening, req).message)
    ensures Routed(opening, req) && EntryRoute(opening, req) == Ok(Direct) ==>
              outcome == DirectStream(cfg, limits, opening, TrimSpace(req.question))
    ensures Routed(opening, req) && EntryRoute(opening, req).Ok? && EntryRoute(opening, req).value != Direct ==>
              PlanOf(opening, req).Err? ==> outcome == Failed(PlanOf(opening, req).message)
    ensures Enters(opening, req) ==>
              outcome == StreamFrom(cfg, worlds(QueriesOf(cfg, opening, req)), EntryRoute(opening, req).value,
                                    TrimSpace(req.question), 1).outcome
    ensures !Blank(req.question) && opening.skill.Some? && opening.skill.value.Ok? && opening.skillStream ==>
              var doc := opening.skill.value.value;
              outcome == Answered(Skill, 1, Attempt("", TrimSpace(req.question),
                                    [Reference("skill:" + doc.name, "skill_doc", 1.0, doc.baseDir, doc.excerpt)], 0))
    ensures Routed(opening, req) && req.forceRoute != Unnamed && req.forceRoute != Direct ==>
              outcome.Answered? ==> outcome.route == req.forceRoute
    ensures Routed(opening, req) && req.forceRoute == Unnamed && opening.route.Err? ==> outcome == Failed(opening.route.message)
    ensures Routed(opening, req) && req.forceRoute == Unnamed && opening.route.Ok? && opening.route.value != Direct ==>
              outcome.Answered? ==> outcome.route == opening.route.value
    ensures outcome.Exhausted? ==> cfg.maxRetries <= 0
    ensures outcome.Answered? ==> 1 <= outcome.attempts && (outcome.attempts == 1 || outcome.attempts <= cfg.maxRetries)
  {
    hide AskFrom, StreamFrom, DirectStream, Planner.Plan, Planner.Planned;
    var question := TrimSpace(req.question);
    if question == "" { return Failed("question is required"); }
    if opening.skill.Some? { return SkillStream(opening, opening.skill.value, question); }
    var route := EntryRoute(opening, req);
    if route.Err? { return Failed(route.message); }
    if route.value == Direct {
      outcome := StreamDirectly(cfg, limits, opening, question);
      DirectEnds(cfg, limits, opening, question);
      return;
    }
    var plan := Planner.PlanSubQueries(question, opening.planChat, opening.planParse);
    if plan.Err? { return Failed(plan.message); }
    var queries := Planner.Planned(question, plan.value, cfg.plannerMaxSubqueries);
    ghost var asked;
    outcome, asked := StreamLoop(cfg, worlds(queries), route.value, question);
    ExhaustedIff(cfg, worlds(queries), route.value, question);
    if cfg.maxRetries > 0 { StreamEnds(cfg, worlds(queries), route.value, question, 1); }
  }
}
