/** Laws of the orchestrator, for every route, every list of sub-queries and every sequence of answers. */
module OrchestratorLaws {
  import opened Arithmetic
  import opened Domain
  import opened Text
  import opened Orchestrator

  // ---------------------------------------------------------------- counting

  function Externals(options: seq<OptionKind>, i: nat): nat
    requires i <= |options|
    decreases |options| - i
  {
    if i == |options| then 0 else (if IsLocal(options[i]) then 0 else 1) + Externals(options, i + 1)
  }

  /** Tool calls in the log, and the failed ones among them. */
  function ToolCalls(log: seq<Call>): nat {
    if log == [] then 0
    else ToolCalls(log[..|log| - 1]) + match log[|log| - 1]
         case OptionCall(option, _) => if IsLocal(option) then 0 else 1
         case CatalogCall(_) => 0
  }

  function FailedTools(log: seq<Call>): nat {
    if log == [] then 0
    else FailedTools(log[..|log| - 1]) + match log[|log| - 1]
         case OptionCall(option, ok) => if IsLocal(option) || ok then 0 else 1
         case CatalogCall(_) => 0
  }

  /** External options accounted for so far: called, failed, or skipped. */
  function Accounted(run: Run): int {
    run.stats.externalCalls + FailedTools(run.log) + run.stats.externalSkippedByCap
  }

  ghost predicate LocalsFirst(options: seq<OptionKind>) {
    forall i, j :: 0 <= i < j < |options| && IsLocal(options[j]) ==> IsLocal(options[i])
  }

  lemma LoggedCall(log: seq<Call>, option: OptionKind, ok: bool)
    ensures ToolCalls(log + [OptionCall(option, ok)]) == ToolCalls(log) + if IsLocal(option) then 0 else 1
    ensures FailedTools(log + [OptionCall(option, ok)]) == FailedTools(log) + if IsLocal(option) || ok then 0 else 1
  {
    assert (log + [OptionCall(option, ok)])[..|log|] == log;
  }

  /** Every list of options puts the local ones first. */
  lemma BuiltLocalsFirst(route: Route)
    ensures LocalsFirst(BuildOptions(route))
  {
  }

  // ---------------------------------------------------------------- the bookkeeping invariant

  /** The counters agree with each other and with the call log. */
  ghost predicate Consistent(run: Run, cap: int) {
    && run.stats.executedOptions == |run.stats.stages|
    && run.stats.fallbackTriggered == run.stats.externalCalls
    && ToolCalls(run.log) == run.stats.externalCalls + FailedTools(run.log)
    && run.stats.externalCalls <= (if cap > 0 then cap else 0)
  }

  lemma StepKeepsBooks(answers: Answers, cfg: Config, option: OptionKind, run: Run, best: seq<Candidate>)
    requires Consistent(run, cfg.maxExternal)
    ensures var s := StepOption(answers, cfg, option, run, best);
            && Consistent(s.run, cfg.maxExternal)
            && Accounted(s.run) == Accounted(run) + (if IsLocal(option) then 0 else 1)
            && s.run.stats.localEarlyStops == run.stats.localEarlyStops + (if s.stop then 1 else 0)
            && (s.stop ==> IsLocal(option))
  {
    hide ToolCalls, FailedTools, ShouldEarlyStop;
    var r := Fetched(answers, option, |run.log|);
    LoggedCall(run.log, option, r.Ok?);
  }

  /** One sub-query: all external options are accounted for, unless a local one stopped the list. */
  lemma {:induction false} OptionsKeepBooks(answers: Answers, cfg: Config, options: seq<OptionKind>, i: nat, run: Run, best: seq<Candidate>)
    requires i <= |options| && LocalsFirst(options) && Consistent(run, cfg.maxExternal)
    ensures var s := RunOptions(answers, cfg, options, i, run, best);
            && Consistent(s.run, cfg.maxExternal)
            && s.run.stats.localEarlyStops == run.stats.localEarlyStops + (if s.stop then 1 else 0)
            && Accounted(s.run) == Accounted(run) + (if s.stop then 0 else Externals(options, i))
            && (s.stop ==> exists k :: i <= k < |options| && IsLocal(options[k]))
    decreases |options| - i
  {
    hide Consistent, Accounted, StepOption;
    if i < |options| {
      var s := StepOption(answers, cfg, options[i], run, best);
      StepKeepsBooks(answers, cfg, options[i], run, best);
      if !s.stop {
        OptionsKeepBooks(answers, cfg, options, i + 1, s.run, s.best);
      }
    }
  }

  /** A catalog search touches neither the counters nor the tools. */
  lemma CatalogKeepsBooks(run: Run, ok: bool, cap: int)
    requires Consistent(run, cap)
    ensures Consistent(run.(log := run.log + [CatalogCall(ok)]), cap)
    ensures Accounted(run.(log := run.log + [CatalogCall(ok)])) == Accounted(run)
  {
    assert (run.log + [CatalogCall(ok)])[..|run.log|] == run.log;
  }

  function ExternalsOf(route: Route): nat {
    Externals(BuildOptions(route), 0)
  }

  lemma RetrieveOneKeepsBooks(answers: Answers, cfg: Config, route: Route, run: Run)
    requires Consistent(run, cfg.maxExternal)
    ensures var one := RetrieveOne(answers, cfg, route, run);
            && Consistent(one.run, cfg.maxExternal)
            && (one.rows.Err? ==> route.Catalog? && one.run.stats == run.stats)
            && Accounted(one.run) - Accounted(run)
               == ExternalsOf(route) * (1 - (one.run.stats.localEarlyStops - run.stats.localEarlyStops))
            && 0 <= one.run.stats.localEarlyStops - run.stats.localEarlyStops <= 1
  {
    hide Consistent, Accounted, RunOptions;
    BuiltLocalsFirst(route);
    OptionsEmptyIff(route);
    if BuildOptions(route) == [] {
      CatalogKeepsBooks(run, answers.rows(|run.log|).Ok?, cfg.maxExternal);
    } else {
      OptionsKeepBooks(answers, cfg, BuildOptions(route), 0, run, []);
    }
  }

  lemma FreshRunConsistent(cap: int)
    ensures Consistent(Run(NO_STATS, []), cap) && Accounted(Run(NO_STATS, [])) == 0
  {
  }

  lemma {:induction false} SubQueriesKeepBooks(answers: Answers, cfg: Config, route: Route, queries: seq<string>, n: nat)
    requires n <= |queries|
    ensures var c := CollectUpTo(answers, cfg, route, queries, Run(NO_STATS, []), n);
            && Consistent(c.run, cfg.maxExternal)
            && (c.failed ==> route.Catalog?)
            && Accounted(c.run) == ExternalsOf(route) * (|c.lists| - c.run.stats.localEarlyStops)
            && c.run.stats.localEarlyStops <= |c.lists|
  {
    hide Consistent, Accounted, RetrieveOne, ExternalsOf, Blank;
    FreshRunConsistent(cfg.maxExternal);
    if n > 0 {
      SubQueriesKeepBooks(answers, cfg, route, queries, n - 1);
      var before := CollectUpTo(answers, cfg, route, queries, Run(NO_STATS, []), n - 1);
      RetrieveOneKeepsBooks(answers, cfg, route, before.run);
      NoExternalsOnCatalog();
      AddOneQuery(ExternalsOf(route), |before.lists|, before.run.stats.localEarlyStops,
                  RetrieveOne(answers, cfg, route, before.run).run.stats.localEarlyStops - before.run.stats.localEarlyStops);
    }
  }

  lemma NoExternalsOnCatalog()
    ensures ExternalsOf(Catalog) == 0
  {
  }

  lemma AddOneQuery(e: nat, lists: int, stops: int, stopped: int)
    ensures e * (lists - stops) + e * (1 - stopped) == e * (lists + 1 - (stops + stopped))
  {
  }

  function NonBlank(queries: seq<string>, n: nat): nat
    requires n <= |queries|
  {
    if n == 0 then 0 else NonBlank(queries, n - 1) + if Blank(queries[n - 1]) then 0 else 1
  }

  lemma {:induction false} OneListPerQuery(answers: Answers, cfg: Config, route: Route, queries: seq<string>, start: Run, n: nat)
    requires n <= |queries| && !CollectUpTo(answers, cfg, route, queries, start, n).failed
    ensures |CollectUpTo(answers, cfg, route, queries, start, n).lists| == NonBlank(queries, n)
  {
    hide RetrieveOne, Blank;
    if n > 0 { OneListPerQuery(answers, cfg, route, queries, start, n - 1); }
  }

  /**
   * Telemetry conservation: external options per sub-query × (non-blank sub-queries − early stops)
   * = successful calls + failed fetches + options skipped by the cap; moreover one stage per executed
   * option, and every successful external call counts as a fallback.
   */
  lemma TelemetryConservation(answers: Answers, cfg: Config, route: Route, queries: seq<string>)
    requires !CollectUpTo(answers, cfg, route, queries, Run(NO_STATS, []), |queries|).failed
    ensures var run := CollectUpTo(answers, cfg, route, queries, Run(NO_STATS, []), |queries|).run;
            && ExternalsOf(route) * (NonBlank(queries, |queries|) - run.stats.localEarlyStops)
               == run.stats.externalCalls + FailedTools(run.log) + run.stats.externalSkippedByCap
            && run.stats.executedOptions == |run.stats.stages|
            && run.stats.fallbackTriggered == run.stats.externalCalls
  {
    hide RetrieveOne, ExternalsOf, CollectOne;
    SubQueriesKeepBooks(answers, cfg, route, queries, |queries|);
    OneListPerQuery(answers, cfg, route, queries, Run(NO_STATS, []), |queries|);
  }

  /**
   * Budget: within one workflow run, whatever the answers, the successful external calls of all
   * sub-queries together stay within the cap, and every tool call in the log is counted as a
   * success or a failure.
   */
  lemma ExternalBudget(answers: Answers, cfg: Config, route: Route, queries: seq<string>)
    requires cfg.maxExternal >= 0
    ensures var run := CollectUpTo(answers, cfg, route, queries, Run(NO_STATS, []), |queries|).run;
            && run.stats.externalCalls <= cfg.maxExternal
            && ToolCalls(run.log) == run.stats.externalCalls + FailedTools(run.log)
  {
    hide RetrieveOne, ExternalsOf, CollectOne;
    SubQueriesKeepBooks(answers, cfg, route, queries, |queries|);
  }

  // ---------------------------------------------------------------- failed calls escape the cap

  lemma {:induction false} ListsAtMostQueries(answers: Answers, cfg: Config, route: Route, queries: seq<string>, start: Run, n: nat)
    requires n <= |queries|
    ensures |CollectUpTo(answers, cfg, route, queries, start, n).lists| <= NonBlank(queries, n)
  {
    hide RetrieveOne, Blank;
    if n > 0 { ListsAtMostQueries(answers, cfg, route, queries, start, n - 1); }
  }

  /** With a zero cap no tool is called at all. */
  lemma StepAtZeroCap(answers: Answers, cfg: Config, option: OptionKind, run: Run, best: seq<Candidate>)
    requires cfg.maxExternal == 0
    ensures ToolCalls(StepOption(answers, cfg, option, run, best).run.log) == ToolCalls(run.log)
  {
    hide ToolCalls, FailedTools, ShouldEarlyStop;
    LoggedCall(run.log, option, Fetched(answers, option, |run.log|).Ok?);
  }

  lemma {:induction false} OptionsAtZeroCap(answers: Answers, cfg: Config, options: seq<OptionKind>, i: nat, run: Run, best: seq<Candidate>)
    requires i <= |options| && cfg.maxExternal == 0
    ensures ToolCalls(RunOptions(answers, cfg, options, i, run, best).run.log) == ToolCalls(run.log)
    decreases |options| - i
  {
    hide ToolCalls, StepOption;
    if i < |options| {
      StepAtZeroCap(answers, cfg, options[i], run, best);
      var s := StepOption(answers, cfg, options[i], run, best);
      if !s.stop { OptionsAtZeroCap(answers, cfg, options, i + 1, s.run, s.best); }
    }
  }

  lemma {:induction false} QueriesAtZeroCap(answers: Answers, cfg: Config, route: Route, queries: seq<string>, n: nat)
    requires n <= |queries| && cfg.maxExternal == 0
    ensures ToolCalls(CollectUpTo(answers, cfg, route, queries, Run(NO_STATS, []), n).run.log) == 0
  {
    hide Blank, RunOptions;
    if n > 0 {
      QueriesAtZeroCap(answers, cfg, route, queries, n - 1);
      var run := CollectUpTo(answers, cfg, route, queries, Run(NO_STATS, []), n - 1).run;
      OptionsAtZeroCap(answers, cfg, BuildOptions(route), 0, run, []);
      assert (run.log + [CatalogCall(answers.rows(|run.log|).Ok?)])[..|run.log|] == run.log;
    }
  }

  /** The answers of a bad day: nothing found locally, every tool down. */
  function AllDown(): Answers {
    Answers(_ => Ok([]), _ => Err("down"))
  }

  lemma StepWhenDown(cfg: Config, option: OptionKind, run: Run, best: seq<Candidate>)
    requires cfg.maxExternal > 0 && run.stats.externalCalls == 0
    ensures var s := StepOption(AllDown(), cfg, option, run, best);
            && !s.stop && s.run.stats.externalCalls == 0
            && s.run.stats.externalSkippedByCap == run.stats.externalSkippedByCap
            && s.run.stats.localEarlyStops == run.stats.localEarlyStops
  {
  }

  lemma {:induction false} OptionsWhenDown(cfg: Config, options: seq<OptionKind>, i: nat, run: Run, best: seq<Candidate>)
    requires i <= |options| && cfg.maxExternal > 0 && run.stats.externalCalls == 0
    ensures var s := RunOptions(AllDown(), cfg, options, i, run, best);
            && s.run.stats.externalCalls == 0
            && s.run.stats.externalSkippedByCap == run.stats.externalSkippedByCap
            && s.run.stats.localEarlyStops == run.stats.localEarlyStops
    decreases |options| - i
  {
    hide StepOption, AllDown;
    if i < |options| {
      StepWhenDown(cfg, options[i], run, best);
      var s := StepOption(AllDown(), cfg, options[i], run, best);
      OptionsWhenDown(cfg, options, i + 1, s.run, s.best);
    }
  }

  lemma {:induction false} QueriesWhenDown(cfg: Config, route: Route, queries: seq<string>, n: nat)
    requires n <= |queries| && cfg.maxExternal > 0
    ensures var c := CollectUpTo(AllDown(), cfg, route, queries, Run(NO_STATS, []), n);
            && !c.failed && c.run.stats.externalCalls == 0 && c.run.stats.externalSkippedByCap == 0
            && c.run.stats.localEarlyStops == 0
  {
    hide Blank, RunOptions;
    if n > 0 {
      QueriesWhenDown(cfg, route, queries, n - 1);
      OptionsWhenDown(cfg, BuildOptions(route), 0, CollectUpTo(AllDown(), cfg, route, queries, Run(NO_STATS, []), n - 1).run, []);
    }
  }

  lemma ToolCallsWhenDown(cfg: Config, route: Route, queries: seq<string>)
    requires cfg.maxExternal > 0
    ensures ToolCalls(CollectUpTo(AllDown(), cfg, route, queries, Run(NO_STATS, []), |queries|).run.log)
         == ExternalsOf(route) * NonBlank(queries, |queries|)
  {
    hide CollectUpTo, ExternalsOf, AllDown, FailedTools, ToolCalls, NonBlank;
    QueriesWhenDown(cfg, route, queries, |queries|);
    TelemetryConservation(AllDown(), cfg, route, queries);
    ExternalBudget(AllDown(), cfg, route, queries);
    assert ExternalsOf(route) * (NonBlank(queries, |queries|) - 0) == ExternalsOf(route) * NonBlank(queries, |queries|);
  }

  lemma ToolCallsBounded(answers: Answers, cfg: Config, route: Route, queries: seq<string>)
    ensures ToolCalls(CollectUpTo(answers, cfg, route, queries, Run(NO_STATS, []), |queries|).run.log)
         <= ExternalsOf(route) * NonBlank(queries, |queries|)
  {
    hide CollectOne, ExternalsOf, FailedTools, ToolCalls, NonBlank;
    SubQueriesKeepBooks(answers, cfg, route, queries, |queries|);
    var c := CollectUpTo(answers, cfg, route, queries, Run(NO_STATS, []), |queries|);
    ListsAtMostQueries(answers, cfg, route, queries, Run(NO_STATS, []), |queries|);
    Scale(ExternalsOf(route), |c.lists| - c.run.stats.localEarlyStops, NonBlank(queries, |queries|));
  }

  /**
   * The cap counts successes only. It bounds the tool calls actually made in a run, for all answers,
   * exactly when it is zero or no smaller than the number of external options there are to try.
   */
  lemma CapBoundsCallsIff(cfg: Config, route: Route, queries: seq<string>)
    requires cfg.maxExternal >= 0
    ensures (forall answers: Answers ::
               ToolCalls(CollectUpTo(answers, cfg, route, queries, Run(NO_STATS, []), |queries|).run.log) <= cfg.maxExternal)
        <==> cfg.maxExternal == 0 || ExternalsOf(route) * NonBlank(queries, |queries|) <= cfg.maxExternal
  {
    hide CollectUpTo, ExternalsOf, AllDown, ToolCalls, NonBlank;
    if cfg.maxExternal > 0 { ToolCallsWhenDown(cfg, route, queries); }
    forall answers: Answers
      ensures ToolCalls(CollectUpTo(answers, cfg, route, queries, Run(NO_STATS, []), |queries|).run.log)
           <= ExternalsOf(route) * NonBlank(queries, |queries|)
      ensures cfg.maxExternal == 0 ==> ToolCalls(CollectUpTo(answers, cfg, route, queries, Run(NO_STATS, []), |queries|).run.log) == 0
    {
      ToolCallsBounded(answers, cfg, route, queries);
      if cfg.maxExternal == 0 { QueriesAtZeroCap(answers, cfg, route, queries, |queries|); }
    }
  }

  // ---------------------------------------------------------------- the most a run can spend

  /** What the cap and the external options of all sub-queries leave to call successfully. */
  function MostCalls(cap: nat, route: Route, queries: seq<string>): nat {
    var there := ExternalsOf(route) * NonBlank(queries, |queries|);
    if there < cap then there else cap
  }

  lemma CallsAtMost(answers: Answers, cfg: Config, route: Route, queries: seq<string>)
    requires cfg.maxExternal >= 0
    ensures CollectUpTo(answers, cfg, route, queries, Run(NO_STATS, []), |queries|).run.stats.externalCalls
         <= MostCalls(cfg.maxExternal, route, queries)
  {
    hide CollectUpTo, ExternalsOf, FailedTools, ToolCalls, NonBlank;
    ExternalBudget(answers, cfg, route, queries);
    ToolCallsBounded(answers, cfg, route, queries);
  }

  /** The answers of an expensive day: nothing found locally, every tool answers. */
  function AllUp(): Answers {
    Answers(_ => Ok([]), _ => Ok("found"))
  }

  /** No tool failed, no local option stopped early, and only a spent budget made options skip. */
  ghost predicate Spending(run: Run, cap: int) {
    && FailedTools(run.log) == 0
    && run.stats.localEarlyStops == 0
    && (run.stats.externalSkippedByCap > 0 ==> run.stats.externalCalls >= cap)
  }

  lemma StepWhenUp(cfg: Config, option: OptionKind, run: Run, best: seq<Candidate>)
    requires Spending(run, cfg.maxExternal)
    ensures var s := StepOption(AllUp(), cfg, option, run, best);
            !s.stop && Spending(s.run, cfg.maxExternal)
  {
    hide FailedTools, ToolCalls, ShouldEarlyStop;
    LoggedCall(run.log, option, true);
  }

  lemma {:induction false} OptionsWhenUp(cfg: Config, options: seq<OptionKind>, i: nat, run: Run, best: seq<Candidate>)
    requires i <= |options| && Spending(run, cfg.maxExternal)
    ensures Spending(RunOptions(AllUp(), cfg, options, i, run, best).run, cfg.maxExternal)
    decreases |options| - i
  {
    hide StepOption, AllUp, Spending;
    if i < |options| {
      StepWhenUp(cfg, options[i], run, best);
      var s := StepOption(AllUp(), cfg, options[i], run, best);
      OptionsWhenUp(cfg, options, i + 1, s.run, s.best);
    }
  }

  lemma {:induction false} QueriesWhenUp(cfg: Config, route: Route, queries: seq<string>, n: nat)
    requires n <= |queries|
    ensures var c := CollectUpTo(AllUp(), cfg, route, queries, Run(NO_STATS, []), n);
            !c.failed && Spending(c.run, cfg.maxExternal)
  {
    hide Blank, RunOptions, FailedTools;
    NothingSpent(cfg.maxExternal);
    if n > 0 {
      QueriesWhenUp(cfg, route, queries, n - 1);
      var run := CollectUpTo(AllUp(), cfg, route, queries, Run(NO_STATS, []), n - 1).run;
      OptionsWhenUp(cfg, BuildOptions(route), 0, run, []);
      CatalogSpendsNothing(run.log);
    }
  }

  lemma NothingSpent(cap: int)
    ensures Spending(Run(NO_STATS, []), cap)
  {
  }

  lemma CatalogSpendsNothing(log: seq<Call>)
    ensures FailedTools(log + [CatalogCall(true)]) == FailedTools(log)
  {
    assert (log + [CatalogCall(true)])[..|log|] == log;
  }

  /** Then a run spends all it can. */
  lemma CallsWhenUp(cfg: Config, route: Route, queries: seq<string>)
    requires cfg.maxExternal >= 0
    ensures CollectUpTo(AllUp(), cfg, route, queries, Run(NO_STATS, []), |queries|).run.stats.externalCalls
         == MostCalls(cfg.maxExternal, route, queries)
  {
    hide CollectUpTo, ExternalsOf, AllUp, FailedTools, ToolCalls, NonBlank;
    QueriesWhenUp(cfg, route, queries, |queries|);
    TelemetryConservation(AllUp(), cfg, route, queries);
    CallsAtMost(AllUp(), cfg, route, queries);
    assert ExternalsOf(route) * (NonBlank(queries, |queries|) - 0) == ExternalsOf(route) * NonBlank(queries, |queries|);
  }

  // ---------------------------------------------------------------- what is returned

  /** The j-th call of the log was an option's, and it found something. */
  predicate Hit(answers: Answers, log: seq<Call>, j: nat)
    requires j < |log|
  {
    log[j].OptionCall? && Fetched(answers, log[j].option, j).Ok? && Fetched(answers, log[j].option, j).value != []
  }

  /** What the j-th call found. */
  function Found(answers: Answers, log: seq<Call>, j: nat): seq<Candidate>
    requires j < |log| && Hit(answers, log, j)
  {
    Fetched(answers, log[j].option, j).value
  }

  /** `best` is what the last call from m on that found something found, or `otherwise` when none did. */
  ghost predicate IsLastFound(answers: Answers, log: seq<Call>, m: nat, otherwise: seq<Candidate>, best: seq<Candidate>) {
    || (best == otherwise && forall j :: m <= j < |log| ==> !Hit(answers, log, j))
    || exists j :: m <= j < |log| && Hit(answers, log, j) && best == Found(answers, log, j)
                && forall k :: j < k < |log| ==> !Hit(answers, log, k)
  }

  lemma NothingCalled(answers: Answers, log: seq<Call>, best: seq<Candidate>)
    ensures IsLastFound(answers, log, |log|, best, best)
  {
  }

  lemma CallMissed(answers: Answers, log: seq<Call>, call: Call, m: nat, otherwise: seq<Candidate>, best: seq<Candidate>)
    requires m <= |log| && IsLastFound(answers, log, m, otherwise, best) && !Hit(answers, log + [call], |log|)
    ensures IsLastFound(answers, log + [call], m, otherwise, best)
  {
    var next := log + [call];
    assert forall j: nat :: j < |log| ==> Hit(answers, next, j) == Hit(answers, log, j);
    if j :| m <= j < |log| && Hit(answers, log, j) && best == Found(answers, log, j)
            && forall k :: j < k < |log| ==> !Hit(answers, log, k) {
      assert Hit(answers, next, j) && best == Found(answers, next, j);
      assert forall k :: j < k < |next| ==> !Hit(answers, next, k);
    }
  }

  lemma CallHit(answers: Answers, log: seq<Call>, call: Call, m: nat, otherwise: seq<Candidate>)
    requires m <= |log| && Hit(answers, log + [call], |log|)
    ensures IsLastFound(answers, log + [call], m, otherwise, Found(answers, log + [call], |log|))
  {
  }

  lemma StepReturnsLastFound(answers: Answers, cfg: Config, option: OptionKind, run: Run, best: seq<Candidate>, m: nat,
                             otherwise: seq<Candidate>)
    requires m <= |run.log| && IsLastFound(answers, run.log, m, otherwise, best)
    ensures var s := StepOption(answers, cfg, option, run, best);
            run.log <= s.run.log && IsLastFound(answers, s.run.log, m, otherwise, s.best)
  {
    hide IsLastFound, Fetched;
    var r := Fetched(answers, option, |run.log|);
    var call := OptionCall(option, r.Ok?);
    var next := run.log + [call];
    assert next[|run.log|] == call;
    if Hit(answers, next, |run.log|) {
      CallHit(answers, run.log, call, m, otherwise);
    } else {
      CallMissed(answers, run.log, call, m, otherwise, best);
    }
  }

  lemma {:induction false} OptionsReturnLastFound(answers: Answers, cfg: Config, options: seq<OptionKind>, i: nat, run: Run,
                                                  best: seq<Candidate>, m: nat, otherwise: seq<Candidate>)
    requires i <= |options| && m <= |run.log| && IsLastFound(answers, run.log, m, otherwise, best)
    ensures var s := RunOptions(answers, cfg, options, i, run, best);
            run.log <= s.run.log && IsLastFound(answers, s.run.log, m, otherwise, s.best)
    decreases |options| - i
  {
    hide StepOption, IsLastFound;
    if i < |options| {
      StepReturnsLastFound(answers, cfg, options[i], run, best, m, otherwise);
      var s := StepOption(answers, cfg, options[i], run, best);
      if !s.stop { OptionsReturnLastFound(answers, cfg, options, i + 1, s.run, s.best, m, otherwise); }
    }
  }

  /**
   * A sub-query on a route with options returns the very candidates of the last of its calls that
   * found any, and nothing when none did.
   */
  lemma BestIsLastHit(answers: Answers, cfg: Config, route: Route, run: Run)
    requires !route.Catalog? && !route.Direct?
    ensures var one := RetrieveOne(answers, cfg, route, run);
            run.log <= one.run.log && one.rows.Ok? && IsLastFound(answers, one.run.log, |run.log|, [], one.rows.value)
  {
    hide RunOptions, IsLastFound;
    OptionsEmptyIff(route);
    NothingCalled(answers, run.log, []);
    OptionsReturnLastFound(answers, cfg, BuildOptions(route), 0, run, [], |run.log|, []);
  }

  /** Every collected list is what one sub-query's retrieval answered, and the calls only grow. */
  lemma {:induction false} ListsAreAnswers(answers: Answers, cfg: Config, route: Route, queries: seq<string>, start: Run,
                                           n: nat, k: nat)
      returns (before: Run)
    requires n <= |queries| && k < |CollectUpTo(answers, cfg, route, queries, start, n).lists|
    ensures RetrieveOne(answers, cfg, route, before).rows == Ok(CollectUpTo(answers, cfg, route, queries, start, n).lists[k])
    ensures |before.log| <= |CollectUpTo(answers, cfg, route, queries, start, n).run.log|
  {
    hide RetrieveOne, Blank;
    var c := CollectUpTo(answers, cfg, route, queries, start, n - 1);
    LogGrows(answers, cfg, route, c.run);
    if k < |c.lists| {
      before := ListsAreAnswers(answers, cfg, route, queries, start, n - 1, k);
    } else {
      before := c.run;
    }
  }

  lemma LogGrows(answers: Answers, cfg: Config, route: Route, run: Run)
    ensures |run.log| <= |RetrieveOne(answers, cfg, route, run).run.log|
  {
    hide RunOptions;
    OptionsEmptyIff(route);
    if route != Catalog && route != Direct { BestIsLastHit(answers, cfg, route, run); }
  }

  // ---------------------------------------------------------------- which options are called, and when the list stops

  /** What each route tries, in order. */
  lemma OptionsOfRoutes(route: Route)
    ensures route != Catalog && route != Direct ==>
              var options := BuildOptions(route);
              && |options| >= 4
              && (forall i, j :: 0 <= i < j < |options| ==> options[i] != options[j])
              && options[|options| - 1] == WebTool
              && (SqlTool in options <==> route != Web) && (SqlTool in options ==> options[|options| - 2] == SqlTool)
              && (HybridRrf in options <==> route == Hybrid) && LocalHier in options
              && (LocalDense in options <==> route != Hybrid) && (LocalSparse in options <==> route != Hybrid)
              && options[0] == (match route case Hybrid => HybridRrf case Hierarchical => LocalHier case _ => LocalDense)
  {
  }

  /** The j-th call was a local search whose answer is enough to stop. */
  ghost predicate SufficesAt(answers: Answers, cfg: Config, log: seq<Call>, j: nat)
    requires j < |log|
  {
    log[j].OptionCall? && !IsTool(log[j].option) && answers.rows(j).Ok? && Enough(cfg, answers.rows(j).value)
  }

  /** From m on the log holds calls of the first options of the list, in order. */
  ghost predicate CallsPrefix(log: seq<Call>, m: nat, options: seq<OptionKind>) {
    && m <= |log| <= m + |options|
    && forall j :: m <= j < |log| ==> log[j].OptionCall? && log[j].option == options[j - m]
  }

  /** No call from m on was enough. */
  ghost predicate NoneSuffices(answers: Answers, cfg: Config, log: seq<Call>, m: nat)
    requires m <= |log|
  {
    forall j :: m <= j < |log| ==> !SufficesAt(answers, cfg, log, j)
  }

  /** A call that is made: it stops the list exactly when it was a local search that found enough. */
  lemma CalledStep(answers: Answers, cfg: Config, option: OptionKind, run: Run, best: seq<Candidate>)
    requires IsTool(option) ==> run.stats.externalCalls < cfg.maxExternal
    ensures var s := StepOption(answers, cfg, option, run, best);
            && |s.run.log| == |run.log| + 1 && s.run.log[..|run.log|] == run.log
            && s.run.log[|run.log|].OptionCall? && s.run.log[|run.log|].option == option
            && (s.stop <==> SufficesAt(answers, cfg, s.run.log, |run.log|))
            && s.run.stats.localEarlyStops == run.stats.localEarlyStops + (if s.stop then 1 else 0)
            && s.run.stats.externalSkippedByCap == run.stats.externalSkippedByCap
  {
  }

  /** Once the budget is spent every remaining option, all of them tools, is skipped. */
  lemma {:induction false} RestSkipped(answers: Answers, cfg: Config, options: seq<OptionKind>, i: nat, run: Run,
                                       best: seq<Candidate>)
    requires i <= |options| && run.stats.externalCalls >= cfg.maxExternal
    requires forall k :: i <= k < |options| ==> IsTool(options[k])
    ensures RunOptions(answers, cfg, options, i, run, best)
         == Step(run.(stats := run.stats.(externalSkippedByCap := run.stats.externalSkippedByCap + |options| - i)), best, false)
    decreases |options| - i
  {
    if i < |options| {
      var s := StepOption(answers, cfg, options[i], run, best);
      RestSkipped(answers, cfg, options, i + 1, s.run, s.best);
    }
  }

  lemma LongerLog(answers: Answers, cfg: Config, log: seq<Call>, next: seq<Call>, m: nat, options: seq<OptionKind>)
    requires CallsPrefix(log, m, options) && |next| == |log| + 1 && next[..|log|] == log
    requires |log| < m + |options| && next[|log|].OptionCall? && next[|log|].option == options[|log| - m]
    ensures CallsPrefix(next, m, options)
    ensures NoneSuffices(answers, cfg, log, m) ==>
              forall j :: m <= j < |next| && SufficesAt(answers, cfg, next, j) ==> j == |log|
  {
    hide Enough;
    forall j: nat | j < |log|
      ensures next[j] == log[j] && SufficesAt(answers, cfg, next, j) == SufficesAt(answers, cfg, log, j)
    {
      assert next[..|log|][j] == next[j];
    }
  }

  lemma {:induction false} OptionsStopWhenEnough(answers: Answers, cfg: Config, options: seq<OptionKind>, i: nat, run: Run,
                                                 best: seq<Candidate>, m: nat)
    requires LocalsFirst(options) && i <= |options| && |run.log| == m + i
    requires CallsPrefix(run.log, m, options) && NoneSuffices(answers, cfg, run.log, m)
    ensures var s := RunOptions(answers, cfg, options, i, run, best);
            && CallsPrefix(s.run.log, m, options)
            && s.run.stats.localEarlyStops == run.stats.localEarlyStops + (if s.stop then 1 else 0)
            && (forall j :: m <= j < |s.run.log| && SufficesAt(answers, cfg, s.run.log, j) ==> s.stop && j == |s.run.log| - 1)
            && (s.stop ==> |s.run.log| > m && SufficesAt(answers, cfg, s.run.log, |s.run.log| - 1))
            && (!s.stop ==> |s.run.log| - m + (s.run.stats.externalSkippedByCap - run.stats.externalSkippedByCap) == |options|)
    decreases |options| - i
  {
    hide StepOption, SufficesAt;
    if i < |options| {
      if IsTool(options[i]) && run.stats.externalCalls >= cfg.maxExternal {
        RestSkipped(answers, cfg, options, i, run, best);
      } else {
        CalledStep(answers, cfg, options[i], run, best);
        var s := StepOption(answers, cfg, options[i], run, best);
        LongerLog(answers, cfg, run.log, s.run.log, m, options);
        if !s.stop { OptionsStopWhenEnough(answers, cfg, options, i + 1, s.run, s.best, m); }
      }
    }
  }

  /**
   * Early stopping happens: on a route with options the calls of a sub-query are the first options of the
   * list, in order. A local search that finds enough is the last of them, and `localEarlyStops` grows by
   * one exactly then; otherwise every option of the list is called or counted as skipped.
   */
  lemma StopsWhenEnough(answers: Answers, cfg: Config, route: Route, run: Run)
    requires route != Catalog && route != Direct
    ensures var one, m := RetrieveOne(answers, cfg, route, run), |run.log|;
            var stopped := one.run.stats.localEarlyStops - run.stats.localEarlyStops;
            && run.log <= one.run.log && CallsPrefix(one.run.log, m, BuildOptions(route))
            && (stopped == 0 || stopped == 1)
            && (stopped == 1 <==> exists j :: m <= j < |one.run.log| && SufficesAt(answers, cfg, one.run.log, j))
            && (forall j :: m <= j < |one.run.log| && SufficesAt(answers, cfg, one.run.log, j) ==> j == |one.run.log| - 1)
            && (stopped == 0 ==>
                  |one.run.log| - m + (one.run.stats.externalSkippedByCap - run.stats.externalSkippedByCap)
                  == |BuildOptions(route)|)
  {
    hide RunOptions, SufficesAt;
    OptionsEmptyIff(route);
    BuiltLocalsFirst(route);
    BestIsLastHit(answers, cfg, route, run);
    OptionsStopWhenEnough(answers, cfg, BuildOptions(route), 0, run, [], |run.log|);
  }
}
