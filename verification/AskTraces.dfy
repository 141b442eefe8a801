/** The retry loops, attempt by attempt: what is asked next, and how a request ends. */
module AskTraces {
  import opened Domain
  import opened Text
  import opened Orchestrator
  import opened AskLoops

  // ---------------------------------------------------------------- answering at once

  /** Attempt n answered, was graded irrelevant, and the next question is its rewritten one with the hint. */
  ghost predicate AskRetried(cfg: AskLoops.Config, oracle: Oracle, route: Route, n: int, question: string, next: string) {
    var out := oracle.invoke(n, question, route);
    && n < cfg.maxRetries && out.Ok?
    && oracle.grade(n, out.value).Ok? && !oracle.grade(n, out.value).value.relevant
    && next == out.value.rewritten + HINT
  }

  /** Attempt n failed, its grading failed, or it is the answer: graded relevant, or the last allowed. */
  ghost predicate AskEnded(cfg: AskLoops.Config, oracle: Oracle, route: Route, n: int, question: string, outcome: Outcome) {
    match oracle.invoke(n, question, route)
    case Err(message) => outcome == Failed(message)
    case Ok(out) =>
      match oracle.grade(n, out)
      case Err(message) => outcome == Failed(message)
      case Ok(grade) => (grade.relevant || n == cfg.maxRetries) && outcome == Answered(route, n, out)
  }

  lemma AskStepMeaning(cfg: AskLoops.Config, oracle: Oracle, route: Route, current: string, attempt: int)
    requires route != Direct && attempt <= cfg.maxRetries
    ensures match AskStep(cfg, oracle, route, current, attempt)
            case Again(r, next) => r == route && AskRetried(cfg, oracle, route, attempt, current, next)
            case Stop(outcome) => AskEnded(cfg, oracle, route, attempt, current, outcome)
  {
  }

  /**
   * Off the direct route the questions of `Ask` start with the user's; each further one follows an
   * attempt graded irrelevant; and the last attempt alone decides how the request ends.
   */
  lemma {:induction false} AskTrace(cfg: AskLoops.Config, oracle: Oracle, route: Route, current: string, attempt: int)
    requires route != Direct && attempt <= cfg.maxRetries
    ensures var t := AskFrom(cfg, oracle, route, current, attempt);
            && t.asked != [] && t.asked[0] == current
            && (forall k :: 0 <= k < |t.asked| - 1 ==>
                  AskRetried(cfg, oracle, route, attempt + k, t.asked[k], t.asked[k + 1]))
            && AskEnded(cfg, oracle, route, attempt + |t.asked| - 1, t.asked[|t.asked| - 1], t.outcome)
    decreases cfg.maxRetries - attempt
  {
    hide AskStep, AskRetried, AskEnded;
    AskStepMeaning(cfg, oracle, route, current, attempt);
    StepsOffDirect(cfg, oracle, route, current, attempt);
    var step := AskStep(cfg, oracle, route, current, attempt);
    if step.Again? {
      AskTrace(cfg, oracle, route, step.question, attempt + 1);
      var t, rest := AskFrom(cfg, oracle, route, current, attempt), AskFrom(cfg, oracle, route, step.question, attempt + 1);
      forall k | 0 <= k < |t.asked| - 1
        ensures AskRetried(cfg, oracle, route, attempt + k, t.asked[k], t.asked[k + 1])
      {
        if k > 0 { assert t.asked[k] == rest.asked[k - 1] && t.asked[k + 1] == rest.asked[k]; }
      }
    }
  }

  // ---------------------------------------------------------------- answering as a stream

  /** The grade leaves doubt: irrelevant, and below the threshold. */
  ghost predicate Doubtful(cfg: AskLoops.Config, grade: Grade) {
    !grade.relevant && grade.score < cfg.confidenceThreshold
  }

  ghost predicate StreamRetried(cfg: AskLoops.Config, oracle: Oracle, route: Route, n: int, question: string, next: string) {
    var out := oracle.invoke(n, question, route);
    && n < cfg.maxRetries && out.Ok?
    && oracle.grade(n, out.value).Ok? && Doubtful(cfg, oracle.grade(n, out.value).value)
    && next == out.value.rewritten + HINT
  }

  /** The last allowed attempt is not graded; then only opening the stream can fail. */
  ghost predicate StreamEnded(cfg: AskLoops.Config, oracle: Oracle, route: Route, n: int, question: string, outcome: Outcome) {
    match oracle.invoke(n, question, route)
    case Err(message) => outcome == Failed(message)
    case Ok(out) =>
      if n < cfg.maxRetries && oracle.grade(n, out).Err? then outcome == Failed(oracle.grade(n, out).message)
      else
        && (n < cfg.maxRetries ==> !Doubtful(cfg, oracle.grade(n, out).value))
        && outcome == if oracle.openStream(n, out) then Answered(route, n, out) else Failed("stream")
  }

  lemma StreamStepMeaning(cfg: AskLoops.Config, oracle: Oracle, route: Route, current: string, attempt: int)
    requires route != Direct && attempt <= cfg.maxRetries
    ensures match StreamStep(cfg, oracle, route, current, attempt)
            case Again(r, next) => r == route && StreamRetried(cfg, oracle, route, attempt, current, next)
            case Stop(outcome) => StreamEnded(cfg, oracle, route, attempt, current, outcome)
  {
  }

  /** The same for the stream, which goes on only in doubt. */
  lemma {:induction false} StreamTrace(cfg: AskLoops.Config, oracle: Oracle, route: Route, current: string, attempt: int)
    requires route != Direct && attempt <= cfg.maxRetries
    ensures var t := StreamFrom(cfg, oracle, route, current, attempt);
            && t.asked != [] && t.asked[0] == current
            && (forall k :: 0 <= k < |t.asked| - 1 ==>
                  StreamRetried(cfg, oracle, route, attempt + k, t.asked[k], t.asked[k + 1]))
            && StreamEnded(cfg, oracle, route, attempt + |t.asked| - 1, t.asked[|t.asked| - 1], t.outcome)
    decreases cfg.maxRetries - attempt
  {
    hide StreamStep, StreamRetried, StreamEnded;
    StreamStepMeaning(cfg, oracle, route, current, attempt);
    StepsOffDirect(cfg, oracle, route, current, attempt);
    var step := StreamStep(cfg, oracle, route, current, attempt);
    if step.Again? {
      StreamTrace(cfg, oracle, route, step.question, attempt + 1);
      var t, rest := StreamFrom(cfg, oracle, route, current, attempt), StreamFrom(cfg, oracle, route, step.question, attempt + 1);
      forall k | 0 <= k < |t.asked| - 1
        ensures StreamRetried(cfg, oracle, route, attempt + k, t.asked[k], t.asked[k + 1])
      {
        if k > 0 { assert t.asked[k] == rest.asked[k - 1] && t.asked[k + 1] == rest.asked[k]; }
      }
    }
  }

  // ---------------------------------------------------------------- the direct route

  /** The conditions of a direct fallback, all of them read off the configuration, the score and the answers. */
  ghost predicate Fallen(cfg: AskLoops.Config, limits: Limits, opening: Opening) {
    && cfg.directAutoFallback && cfg.directFallbackRoute != Unnamed && cfg.directFallbackRoute != Direct
    && opening.directGrade.Ok? && 0.0 < cfg.confidenceThreshold && opening.directGrade.value.score < cfg.confidenceThreshold
    && FallbackRun(cfg, limits, opening).rows.Ok?
  }

  /** A direct request fails with its own answer or grade, and otherwise answers from the fallback exactly when it falls back. */
  lemma DirectMeaning(cfg: AskLoops.Config, limits: Limits, opening: Opening, question: string)
    ensures var o := DirectAsk(cfg, limits, opening, question);
            && (opening.directAnswer.Err? ==> o == Failed(opening.directAnswer.message))
            && (opening.directAnswer.Ok? && opening.directGrade.Err? ==> o == Failed(opening.directGrade.message))
            && (opening.directAnswer.Ok? && opening.directGrade.Ok? ==>
                  && o.Answered? && o.attempts == 1 && o.attempt.rewritten == question
                  && if Fallen(cfg, limits, opening) && opening.fallbackChat.Ok?
                     then && o.route == cfg.directFallbackRoute
                          && o.attempt.answer == TrimSpace(opening.fallbackChat.value)
                          && o.attempt.references == ReferencesTo(FallbackRun(cfg, limits, opening).rows.value)
                     else && o.route == Direct
                          && o.attempt.answer == TrimSpace(opening.directAnswer.value) && o.attempt.references == [])
  {
    hide FallbackRun;
  }

  /** A direct stream: as above, and once it does not fall back only opening the stream can fail. */
  lemma DirectStreamMeaning(cfg: AskLoops.Config, limits: Limits, opening: Opening, question: string)
    ensures var o := DirectStream(cfg, limits, opening, question);
            && (opening.directAnswer.Err? ==> o == Failed(opening.directAnswer.message))
            && (opening.directAnswer.Ok? && opening.directGrade.Err? ==> o == Failed(opening.directGrade.message))
            && (opening.directAnswer.Ok? && opening.directGrade.Ok? ==>
                  if Fallen(cfg, limits, opening) && opening.fallbackStream
                  then && o.Answered? && o.attempts == 1 && o.attempt.rewritten == question && o.route == cfg.directFallbackRoute
                       && o.attempt.references == ReferencesTo(FallbackRun(cfg, limits, opening).rows.value)
                  else if opening.directStream
                  then && o.Answered? && o.attempts == 1 && o.attempt.rewritten == question && o.route == Direct
                       && o.attempt.references == []
                  else o == Failed("stream"))
  {
    hide FallbackRun;
  }

  /** The fallback searches the fallback route, with counters of its own. */
  lemma FallbackMeaning(cfg: AskLoops.Config, limits: Limits, opening: Opening)
    requires cfg.directFallbackRoute == Catalog
    ensures FallbackRun(cfg, limits, opening).rows.Ok? <==> opening.fallback.rows(0).Ok?
    ensures opening.fallback.rows(0).Ok? ==> FallbackRun(cfg, limits, opening).rows == opening.fallback.rows(0)
  {
  }
}
