/**
 * The retrieval orchestrator: for each sub-query an ordered list of options, local before external,
 * with a call budget for the external ones, early stopping, and counters.
 */
module Orchestrator {
  import opened Domain
  import opened Text
  import opened Ranking
  import opened Fusion

  // ---------------------------------------------------------------- options

  datatype OptionKind = LocalDense | LocalSparse | LocalHier | HybridRrf | SqlTool | WebTool

  predicate IsTool(o: OptionKind) { o.SqlTool? || o.WebTool? }

  predicate IsLocal(o: OptionKind) { !IsTool(o) }

  function BuildOptions(route: Route): seq<OptionKind> {
    match route
    case Sql => [LocalDense, LocalSparse, LocalHier, SqlTool, WebTool]
    case Web => [LocalDense, LocalSparse, LocalHier, WebTool]
    case Hierarchical => [LocalHier, LocalDense, LocalSparse, SqlTool, WebTool]
    case Catalog => []
    case Hybrid => [HybridRrf, LocalHier, SqlTool, WebTool]
    case Direct => []
    case _ => [LocalDense, LocalSparse, LocalHier, SqlTool, WebTool]
  }

  datatype Config = Config(maxExternal: int, earlyStopMinCandidates: int, earlyStopTopScore: real, topK: int)

  predicate ShouldEarlyStop(rows: seq<Candidate>, minCandidates: int, topScore: real) {
    if |rows| == 0 then false
    else if minCandidates > 0 && |rows| >= minCandidates then true
    else topScore > 0.0 && rows[0].score >= topScore
  }

  // ---------------------------------------------------------------- the world and its answers

  /** The n-th call of a run gets the n-th answer; any answers are possible. */
  datatype Answers = Answers(rows: nat -> Result<seq<Candidate>>, text: nat -> Result<string>)

  datatype Call = OptionCall(option: OptionKind, ok: bool) | CatalogCall(ok: bool)

  /** Every call that leaves the orchestrator is logged here, independently of its own counters. */
  class Backend {
    const answers: Answers
    var log: seq<Call>

    constructor (answers: Answers)
      ensures this.answers == answers && log == []
    {
      this.answers := answers;
      log := [];
    }

    /** A local retrieval: dense, sparse, hierarchical or fused. */
    method Retrieve(option: OptionKind) returns (r: Result<seq<Candidate>>)
      modifies this`log
      ensures r == answers.rows(|old(log)|) && log == old(log) + [OptionCall(option, r.Ok?)]
    {
      r := answers.rows(|log|);
      log := log + [OptionCall(option, r.Ok?)];
    }

    /** A SQL query or a web search. */
    method CallTool(option: OptionKind) returns (r: Result<string>)
      modifies this`log
      ensures r == answers.text(|old(log)|) && log == old(log) + [OptionCall(option, r.Ok?)]
    {
      r := answers.text(|log|);
      log := log + [OptionCall(option, r.Ok?)];
    }

    method SearchCatalog() returns (r: Result<seq<Candidate>>)
      modifies this`log
      ensures r == answers.rows(|old(log)|) && log == old(log) + [CatalogCall(r.Ok?)]
    {
      r := answers.rows(|log|);
      log := log + [CatalogCall(r.Ok?)];
    }
  }

  /** The single candidate a tool's text becomes. */
  function ToolRow(option: OptionKind, text: string): Candidate {
    if option.SqlTool? then Candidate("sql_result", "sql", "", 1.0, "sql", text, "", "sql")
    else Candidate("web_result", "web", "", 1.0, "web", text, "", "web")
  }

  /** The tool's text word for word, scored 1, under the tool's own ids. */
  ghost predicate ShowsText(c: Candidate, option: OptionKind, text: string) {
    && c.text == text && c.score == 1.0 && c.summaryId == "" && c.contentClass == ""
    && (option == SqlTool ==> c.chunkId == "sql_result" && c.documentId == c.source == c.layer == "sql")
    && (option == WebTool ==> c.chunkId == "web_result" && c.documentId == c.source == c.layer == "web")
  }

  /** Found enough: sufficiently many candidates, or a head that reaches the threshold. */
  ghost predicate Enough(cfg: Config, rows: seq<Candidate>) {
    && rows != []
    && (0 < cfg.earlyStopMinCandidates <= |rows| || 0.0 < cfg.earlyStopTopScore <= rows[0].score)
  }

  function Fetched(answers: Answers, option: OptionKind, tick: nat): Result<seq<Candidate>> {
    if IsLocal(option) then answers.rows(tick)
    else match answers.text(tick)
      case Ok(text) => Ok([ToolRow(option, text)])
      case Err(message) => Err(message)
  }

  /** The fetch closure of an option. */
  method Fetch(backend: Backend, option: OptionKind) returns (r: Result<seq<Candidate>>)
    modifies backend`log
    ensures r == Fetched(backend.answers, option, |old(backend.log)|)
    ensures backend.log == old(backend.log) + [OptionCall(option, r.Ok?)]
    ensures option == SqlTool || option == WebTool ==>
              var answer := backend.answers.text(|old(backend.log)|);
              if answer.Err? then r == Err(answer.message)
              else r.Ok? && |r.value| == 1 && ShowsText(r.value[0], option, answer.value)
    ensures option != SqlTool && option != WebTool ==> r == backend.answers.rows(|old(backend.log)|)
  {
    if IsLocal(option) {
      r := backend.Retrieve(option);
    } else {
      var text := backend.CallTool(option);
      r := match text case Ok(t) => Ok([ToolRow(option, t)]) case Err(m) => Err(m);
    }
  }

  // ---------------------------------------------------------------- counters

  /** The source labels this flag "err" although it records the absence of an error. */
  datatype Stage = Stage(option: OptionKind, local: bool, errIsNil: bool, hits: nat)

  datatype Stats = Stats(
    executedOptions: nat,
    externalCalls: nat,
    externalSkippedByCap: nat,
    localEarlyStops: nat,
    fallbackTriggered: nat,
    stages: seq<Stage>)

  const NO_STATS := Stats(0, 0, 0, 0, 0, [])

  class OrchestrationStats {
    var subQueries: nat
    var executedOptions: nat
    var externalCalls: nat
    var externalSkippedByCap: nat
    var localEarlyStops: nat
    var fallbackTriggered: nat
    var stages: seq<Stage>

    constructor (subQueries: nat)
      ensures Value() == NO_STATS && this.subQueries == subQueries
    {
      this.subQueries := subQueries;
      executedOptions, externalCalls, externalSkippedByCap, localEarlyStops, fallbackTriggered := 0, 0, 0, 0, 0;
      stages := [];
    }

    function Value(): Stats
      reads this
    {
      Stats(executedOptions, externalCalls, externalSkippedByCap, localEarlyStops, fallbackTriggered, stages)
    }
  }

  // ---------------------------------------------------------------- specification of one sub-query

  /** Counters and call log. */
  datatype Run = Run(stats: Stats, log: seq<Call>)

  datatype Step = Step(run: Run, best: seq<Candidate>, stop: bool)

  function AfterFetch(option: OptionKind, r: Result<seq<Candidate>>, run: Run): Run {
    var hits := if r.Ok? then |r.value| else 0;
    var external := if r.Ok? && !IsLocal(option) then 1 else 0;
    Run(run.stats.(
          executedOptions := run.stats.executedOptions + 1,
          stages := run.stats.stages + [Stage(option, IsLocal(option), r.Ok?, hits)],
          externalCalls := run.stats.externalCalls + external,
          fallbackTriggered := run.stats.fallbackTriggered + if hits > 0 then external else 0),
        run.log + [OptionCall(option, r.Ok?)])
  }

  function StepOption(answers: Answers, cfg: Config, option: OptionKind, run: Run, best: seq<Candidate>): Step {
    if !IsLocal(option) && run.stats.externalCalls >= cfg.maxExternal then
      Step(run.(stats := run.stats.(externalSkippedByCap := run.stats.externalSkippedByCap + 1)), best, false)
    else
      var r := Fetched(answers, option, |run.log|);
      var next := AfterFetch(option, r, run);
      if r.Err? || r.value == [] then Step(next, best, false)
      else if IsLocal(option) && ShouldEarlyStop(r.value, cfg.earlyStopMinCandidates, cfg.earlyStopTopScore)
      then Step(next.(stats := next.stats.(localEarlyStops := next.stats.localEarlyStops + 1)), r.value, true)
      else Step(next, r.value, false)
  }

  /** The options from i on, until one stops the list. */
  function RunOptions(answers: Answers, cfg: Config, options: seq<OptionKind>, i: nat, run: Run, best: seq<Candidate>): Step
    requires i <= |options|
    decreases |options| - i
  {
    if i == |options| then Step(run, best, false)
    else
      var s := StepOption(answers, cfg, options[i], run, best);
      if s.stop then s else RunOptions(answers, cfg, options, i + 1, s.run, s.best)
  }

  datatype Retrieved = Retrieved(run: Run, rows: Result<seq<Candidate>>)

  /** Routes without options retrieve directly; of those only the catalog calls out. */
  function RetrieveOne(answers: Answers, cfg: Config, route: Route, run: Run): Retrieved {
    var options := BuildOptions(route);
    if options == [] then
      if route.Catalog? then
        var r := answers.rows(|run.log|);
        Retrieved(run.(log := run.log + [CatalogCall(r.Ok?)]), if r.Ok? then r else Err("catalog"))
      else Retrieved(run, Ok([]))
    else
      var s := RunOptions(answers, cfg, options, 0, run, []);
      Retrieved(s.run, Ok(s.best))
  }

  // ---------------------------------------------------------------- the code

  /** The body of the option loop. */
  method RunOption(backend: Backend, stats: OrchestrationStats, cfg: Config, option: OptionKind, best: seq<Candidate>)
    returns (best': seq<Candidate>, stop: bool)
    modifies backend`log, stats
    ensures Step(Run(stats.Value(), backend.log), best', stop)
         == StepOption(backend.answers, cfg, option, Run(old(stats.Value()), old(backend.log)), best)
    ensures stats.subQueries == old(stats.subQueries)
    ensures IsTool(option) && old(stats.externalCalls) >= cfg.maxExternal ==>
              && best' == best && !stop && backend.log == old(backend.log)
              && stats.Value() == old(stats.Value()).(externalSkippedByCap := old(stats.externalSkippedByCap) + 1)
    ensures IsTool(option) && old(stats.externalCalls) < cfg.maxExternal ==>
              var r := backend.answers.text(|old(backend.log)|);
              && !stop && backend.log == old(backend.log) + [OptionCall(option, r.Ok?)]
              && (if r.Ok? then |best'| == 1 && ShowsText(best'[0], option, r.value) else best' == best)
              && stats.externalCalls == old(stats.externalCalls) + (if r.Ok? then 1 else 0)
              && stats.fallbackTriggered == old(stats.fallbackTriggered) + (if r.Ok? then 1 else 0)
              && stats.localEarlyStops == old(stats.localEarlyStops)
              && stats.stages == old(stats.stages) + [Stage(option, false, r.Ok?, if r.Ok? then 1 else 0)]
    ensures !IsTool(option) ==>
              var r := backend.answers.rows(|old(backend.log)|);
              && (stop <==> r.Ok? && Enough(cfg, r.value))
              && best' == (if r.Ok? && r.value != [] then r.value else best)
              && backend.log == old(backend.log) + [OptionCall(option, r.Ok?)]
              && stats.localEarlyStops == old(stats.localEarlyStops) + (if stop then 1 else 0)
              && stats.externalCalls == old(stats.externalCalls) && stats.fallbackTriggered == old(stats.fallbackTriggered)
              && stats.stages == old(stats.stages) + [Stage(option, true, r.Ok?, if r.Ok? then |r.value| else 0)]
    ensures !(IsTool(option) && old(stats.externalCalls) >= cfg.maxExternal) ==>
              && stats.executedOptions == old(stats.executedOptions) + 1
              && stats.externalSkippedByCap == old(stats.externalSkippedByCap)
  {
    best', stop := best, false;
    if !IsLocal(option) && stats.externalCalls >= cfg.maxExternal {
      stats.externalSkippedByCap := stats.externalSkippedByCap + 1;
      return;
    }
    var res := Fetch(backend, option);
    var hits := if res.Ok? then |res.value| else 0;
    stats.executedOptions := stats.executedOptions + 1;
    stats.stages := stats.stages + [Stage(option, IsLocal(option), res.Ok?, hits)];
    if res.Err? { return; }
    if !IsLocal(option) { stats.externalCalls := stats.externalCalls + 1; }
    if |res.value| > 0 {
      best' := res.value;
      if IsLocal(option) && ShouldEarlyStop(res.value, cfg.earlyStopMinCandidates, cfg.earlyStopTopScore) {
        stats.localEarlyStops := stats.localEarlyStops + 1;
        stop := true;
        return;
      }
      if !IsLocal(option) { stats.fallbackTriggered := stats.fallbackTriggered + 1; }
    }
  }

  /** The single option a route retrieves with when called directly. */
  function DirectOption(route: Route): OptionKind
    requires !route.Catalog? && !route.Direct?
  {
    match route
    case Sql => SqlTool
    case Web => WebTool
    case Hierarchical => LocalHier
    case Hybrid => HybridRrf
    case _ => LocalDense
  }

  /** Direct retrieval by route; its branches other than catalog and direct exist but no caller reaches them. */
  method RetrieveByRoute(backend: Backend, route: Route) returns (r: Result<seq<Candidate>>)
    modifies backend`log
    ensures route.Catalog? ==>
              var answer := backend.answers.rows(|old(backend.log)|);
              && backend.log == old(backend.log) + [CatalogCall(answer.Ok?)]
              && r == if answer.Ok? then answer else Err("catalog")
    ensures route.Direct? ==> r == Ok([]) && backend.log == old(backend.log)
    ensures !route.Catalog? && !route.Direct? ==>
              && r == Fetched(backend.answers, DirectOption(route), |old(backend.log)|)
              && backend.log == old(backend.log) + [OptionCall(DirectOption(route), r.Ok?)]
  {
    match route
    case Catalog =>
      r := backend.SearchCatalog();
      if r.Err? { r := Err("catalog"); }
    case Direct =>
      r := Ok([]);
    case Sql =>
      r := Fetch(backend, SqlTool);
    case Web =>
      r := Fetch(backend, WebTool);
    case Hierarchical =>
      r := Fetch(backend, LocalHier);
    case Hybrid =>
      r := Fetch(backend, HybridRrf);
    case _ =>
      r := Fetch(backend, LocalDense);
  }

  method RetrieveByRouteWithFallback(backend: Backend, stats: OrchestrationStats, cfg: Config, route: Route)
    returns (r: Result<seq<Candidate>>, refs: seq<Reference>)
    modifies backend`log, stats
    ensures Retrieved(Run(stats.Value(), backend.log), r)
         == RetrieveOne(backend.answers, cfg, route, Run(old(stats.Value()), old(backend.log)))
    ensures r.Ok? ==> refs == ReferencesTo(r.value)
    ensures stats.subQueries == old(stats.subQueries)
  {
    hide StepOption;
    var options := BuildOptions(route);
    if |options| == 0 {
      OptionsEmptyIff(route);
      r := RetrieveByRoute(backend, route);
      refs := if r.Ok? then ReferencesTo(r.value) else [];
      return;
    }
    var best: seq<Candidate>, i, stop := [], 0, false;
    ghost var start := Run(stats.Value(), backend.log);
    while i < |options| && !stop
      invariant i <= |options| && stats.subQueries == old(stats.subQueries)
      invariant var now := Run(stats.Value(), backend.log);
                var end := RunOptions(backend.answers, cfg, options, 0, start, []);
                if stop then end == Step(now, best, true) else end == RunOptions(backend.answers, cfg, options, i, now, best)
      decreases |options| - i, !stop
    {
      best, stop := RunOption(backend, stats, cfg, options[i], best);
      i := i + 1;
    }
    r, refs := Ok(best), ReferencesTo(best);
  }

  /** Only the catalog and direct routes have no options, so no tool call bypasses the option loop. */
  lemma OptionsEmptyIff(route: Route)
    ensures BuildOptions(route) == [] <==> route.Catalog? || route.Direct?
  {
  }

  // ---------------------------------------------------------------- all sub-queries of a run

  datatype Collected = Collected(run: Run, lists: seq<seq<Candidate>>, failed: bool)

  function CollectOne(answers: Answers, cfg: Config, route: Route, query: string, c: Collected): Collected {
    if c.failed || Blank(query) then c
    else
      var one := RetrieveOne(answers, cfg, route, c.run);
      if one.rows.Err? then Collected(one.run, c.lists, true)
      else Collected(one.run, c.lists + [one.rows.value], false)
  }

  function CollectUpTo(answers: Answers, cfg: Config, route: Route, queries: seq<string>, start: Run, n: nat): Collected
    requires n <= |queries|
  {
    if n == 0 then Collected(start, [], false)
    else CollectOne(answers, cfg, route, queries[n - 1], CollectUpTo(answers, cfg, route, queries, start, n - 1))
  }

  /** No list: nothing; one list: that list; several: their fusion. */
  ghost predicate CombinesTo(lists: seq<seq<Candidate>>, topK: int, rows: seq<Candidate>) {
    if |lists| == 0 then rows == []
    else if |lists| == 1 then rows == lists[0]
    else IsTop(multiset(FusedRows(lists)), ScoreOf, topK, rows)
  }

  /** The references of all lists, in order. */
  function AllReferences(lists: seq<seq<Candidate>>, n: nat): seq<Reference>
    requires n <= |lists|
  {
    if n == 0 then [] else AllReferences(lists, n - 1) + ReferencesTo(lists[n - 1])
  }

  lemma {:induction false} AllReferencesPrefix(a: seq<seq<Candidate>>, b: seq<seq<Candidate>>, n: nat)
    requires n <= |a| && n <= |b| && forall i :: 0 <= i < n ==> a[i] == b[i]
    ensures AllReferences(a, n) == AllReferences(b, n)
  {
    if n > 0 { AllReferencesPrefix(a, b, n - 1); }
  }

  /** One list is cited as it stands; the references of several are deduplicated. */
  ghost predicate CitedBy(lists: seq<seq<Candidate>>, refs: seq<Reference>) {
    if |lists| <= 1 then refs == AllReferences(lists, |lists|) else IsDeduped(AllReferences(lists, |lists|), refs)
  }

  method CollectSubQuery(backend: Backend, stats: OrchestrationStats, cfg: Config, route: Route, query: string, ghost before: Collected)
    returns (rows: Option<seq<Candidate>>, refs: seq<Reference>, failed: bool)
    requires before.run == Run(stats.Value(), backend.log) && !before.failed
    modifies backend`log, stats
    ensures var after := CollectOne(backend.answers, cfg, route, query, before);
            && after.run == Run(stats.Value(), backend.log) && after.failed == failed
            && after.lists == before.lists + if rows.Some? then [rows.value] else []
    ensures rows.Some? ==> refs == ReferencesTo(rows.value)
    ensures rows.None? ==> refs == []
  {
    hide RetrieveOne;
    rows, refs, failed := None, [], false;
    var q := TrimSpace(query);
    if q == "" { return; }
    var r, found := RetrieveByRouteWithFallback(backend, stats, cfg, route);
    if r.Err? { return None, [], true; }
    return Some(r.value), found, false;
  }

  /** All sub-queries share one set of counters, and so one budget. */
  method RetrieveForPlannedSubQueries(backend: Backend, stats: OrchestrationStats, cfg: Config, route: Route, queries: seq<string>)
    returns (r: Result<seq<Candidate>>, refs: seq<Reference>)
    modifies backend`log, stats
    ensures var c := CollectUpTo(backend.answers, cfg, route, queries, old(Run(stats.Value(), backend.log)), |queries|);
            && c.run == Run(stats.Value(), backend.log)
            && r.Err? == c.failed
            && (r.Ok? ==> CombinesTo(c.lists, cfg.topK, r.value) && CitedBy(c.lists, refs))
            && (r.Ok? && c.lists == [] ==> r.value == [] && refs == [])
            && (r.Ok? && |c.lists| == 1 ==> r.value == c.lists[0] && refs == ReferencesTo(c.lists[0]))
  {
    hide CollectOne, FusionOf, IsTop, FusedRows, IsDeduped;
    ghost var start := Run(stats.Value(), backend.log);
    var combined: seq<seq<Candidate>>, allRefs: seq<Reference> := [], [];
    for i := 0 to |queries|
      invariant CollectUpTo(backend.answers, cfg, route, queries, start, i)
             == Collected(Run(stats.Value(), backend.log), combined, false)
      invariant allRefs == AllReferences(combined, |combined|)
    {
      var rows, found, failed := CollectSubQuery(backend, stats, cfg, route, queries[i],
                                                 Collected(Run(stats.Value(), backend.log), combined, false));
      if failed {
        FailureIsFinal(backend.answers, cfg, route, queries, start, i + 1, |queries|);
        return Err("retrieval failed"), [];
      }
      if rows.Some? {
        AllReferencesPrefix(combined + [rows.value], combined, |combined|);
        combined := combined + [rows.value];
      }
      allRefs := allRefs + found;
    }
    if |combined| == 0 { return Ok([]), []; }
    if |combined| == 1 { return Ok(combined[0]), allRefs; }
    var fused := FuseMultipleResultsRRF(combined, cfg.topK);
    var unique := DedupeReferences(allRefs);
    return Ok(fused), unique;
  }

  lemma {:induction false} FailureIsFinal(answers: Answers, cfg: Config, route: Route, queries: seq<string>, start: Run,
                                          m: nat, n: nat)
    requires m <= n <= |queries| && CollectUpTo(answers, cfg, route, queries, start, m).failed
    ensures CollectUpTo(answers, cfg, route, queries, start, n) == CollectUpTo(answers, cfg, route, queries, start, m)
  {
    if m < n { FailureIsFinal(answers, cfg, route, queries, start, m, n - 1); }
  }

  // ---------------------------------------------------------------- references

  function RefKey(r: Reference): string { r.source + "|" + r.chunkId }

  /** The first of the highest-scored references with this key among the first n. */
  function BestRef(refs: seq<Reference>, n: nat, key: string): (r: Option<Reference>)
    requires n <= |refs|
    ensures r.Some? ==> RefKey(r.value) == key && exists i :: 0 <= i < n && refs[i] == r.value
    ensures forall i :: 0 <= i < n && RefKey(refs[i]) == key ==> r.Some? && r.value.score >= refs[i].score
  {
    if n == 0 then None
    else
      var before := BestRef(refs, n - 1, key);
      if RefKey(refs[n - 1]) != key then before
      else if before.None? || refs[n - 1].score > before.value.score then Some(refs[n - 1])
      else before
  }

  ghost predicate IsBestRefs(refs: seq<Reference>, n: nat, best: map<string, Reference>)
    requires n <= |refs|
  {
    forall key :: if key in best then BestRef(refs, n, key) == Some(best[key]) else BestRef(refs, n, key) == None
  }

  /** One reference per key, the best of its key, best first, at most twenty. */
  ghost predicate IsDeduped(refs: seq<Reference>, out: seq<Reference>) {
    exists best: map<string, Reference> ::
      IsBestRefs(refs, |refs|, best) && IsTop(multiset(best.Values), ReferenceScore, 20, out)
  }

  method DedupeReferences(refs: seq<Reference>) returns (out: seq<Reference>)
    ensures IsDeduped(refs, out)
  {
    hide IsTop, BestRef;
    var best := BestReferences(refs);
    KeysPartitionValues(refs, best);
    var rows := ValuesInSomeOrder(best);
    out := TopByScore(rows, ReferenceScore, 20);
  }

  lemma NoRefsYet(refs: seq<Reference>)
    ensures IsBestRefs(refs, 0, map[])
  {
  }

  lemma BestRefsOneMore(refs: seq<Reference>, n: nat, best: map<string, Reference>)
    requires n < |refs| && IsBestRefs(refs, n, best)
    ensures var key := RefKey(refs[n]);
            IsBestRefs(refs, n + 1, if key in best && refs[n].score <= best[key].score then best else best[key := refs[n]])
  {
    hide RefKey;
    var key := RefKey(refs[n]);
    var next := if key in best && refs[n].score <= best[key].score then best else best[key := refs[n]];
    forall k
      ensures if k in next then BestRef(refs, n + 1, k) == Some(next[k]) else BestRef(refs, n + 1, k) == None
    {
      assert if k in best then BestRef(refs, n, k) == Some(best[k]) else BestRef(refs, n, k) == None;
    }
  }

  method BestReferences(refs: seq<Reference>) returns (best: map<string, Reference>)
    ensures IsBestRefs(refs, |refs|, best)
  {
    hide BestRef, IsBestRefs;
    best := map[];
    NoRefsYet(refs);
    for i := 0 to |refs|
      invariant IsBestRefs(refs, i, best)
    {
      var key := RefKey(refs[i]);
      BestRefsOneMore(refs, i, best);
      if key in best {
        if refs[i].score > best[key].score { best := best[key := refs[i]]; }
      } else {
        best := best[key := refs[i]];
      }
    }
  }

  /** Iterate the map in arbitrary order. */
  method ValuesInSomeOrder(best: map<string, Reference>) returns (rows: seq<Reference>)
    requires forall key :: key in best ==> RefKey(best[key]) == key
    ensures multiset(rows) == multiset(best.Values)
  {
    rows := [];
    var remaining := best.Keys;
    ghost var done: set<Reference> := {};
    while remaining != {}
      invariant remaining <= best.Keys
      invariant done == set key | key in best.Keys - remaining :: best[key]
      invariant multiset(rows) == multiset(done)
      decreases |remaining|
    {
      var key :| key in remaining;
      assert best[key] !in done;
      rows, remaining, done := rows + [best[key]], remaining - {key}, done + {best[key]};
    }
    assert done == best.Values;
  }

  lemma KeysPartitionValues(refs: seq<Reference>, best: map<string, Reference>)
    requires IsBestRefs(refs, |refs|, best)
    ensures forall key :: key in best ==> RefKey(best[key]) == key
  {
  }
}
