/** The benchmark driver (Benchmark.java): start-up from the command line,
    the run over the concurrency levels that fills the two result lists,
    and the report that reads those lists back. */
module Benchmark {
  import opened Outcomes
  import opened Params
  import opened Engine
  import opened Execution

  /** The process catalog every run deploys and exercises. */
  const Catalog: seq<string> := [
    "process01", "process02", "process03", "process04", "process05",
    "process-usertask-01", "process-usertask-02", "process-usertask-03"
  ]

  // ---------------------------------------------------------------------
  // Start-up
  // ---------------------------------------------------------------------

  /** What main has in hand once the engine is built. */
  datatype Startup = Startup(historyEnabled: bool, executions: int, maxThreads: int, engine: EngineKind)

  /** Why main stopped before benchmarking: System.exit(1) after a failed
      validation, or the exception getProcessEngine threw. */
  datatype StartupError = InvalidParams(cause: ParamError) | EngineRefused(reason: EngineError)

  /** The static fields of Benchmark before main runs. */
  const InitialSettings: Settings := Settings(None, None, false)

  /** Benchmark.main up to the engine: validate, derive the history flag,
      read both integers, build the engine. */
  function Start(args: seq<string>, props: Properties): (r: Result<Startup, StartupError>)
    ensures var v := ReadAndValidateParams(args, props, InitialSettings);
            r.Success? <==> v.verdict.Pass? && !(ConfigOf(props) == "spring" && ProfilingKey in props)
    ensures var v := ReadAndValidateParams(args, props, InitialSettings);
            v.verdict.Fail? ==> r == Failure(InvalidParams(v.verdict.error))
    ensures r.Failure? && r.error.EngineRefused? ==> r.error.reason == ProfilingNeedsDefault
    ensures r.Success? ==>
      && (r.value.historyEnabled <==> HistoryOf(props) in {"activity", "audit", "full"})
      && ParseInt(args[0]) == Some(r.value.executions)
      && ParseInt(args[1]) == Some(r.value.maxThreads)
      && (r.value.engine.DefaultEngine? <==> ConfigOf(props) == "default")
      && (r.value.engine.DefaultEngine? ==> (r.value.engine.profilingInterceptor <==> ProfilingKey in props))
  {
    var v := ReadAndValidateParams(args, props, InitialSettings);
    if v.verdict.Fail? then
      Failure(InvalidParams(v.verdict.error))
    else
      var historyEnabled := HistoryEnabled(v.settings.history.value);
      var executions := ParseInt(args[0]).value;
      var maxThreads := ParseInt(args[1]).value;
      match GetProcessEngine(v.settings.config.value, v.settings.profiling)
      case Failure(reason) => Failure(EngineRefused(reason))
      case Success(engine) => Success(Startup(historyEnabled, executions, maxThreads, engine))
  }

  // ---------------------------------------------------------------------
  // executeBenchmarks
  // ---------------------------------------------------------------------

  /** The two result lists, one entry per concurrency level. */
  datatype Results = Results(sequential: seq<BenchmarkResult>, random: seq<BenchmarkResult>, engine: State, tick: nat)

  /** How many entries each result list ends with: the single-thread level,
      then one for each of 2..max. */
  function Levels(maxThreads: int): (r: nat)
    ensures r >= 1
    ensures maxThreads >= 1 ==> r == maxThreads
  {
    if maxThreads < 2 then 1 else maxThreads
  }

  /** The engine between two levels: ids distinct, history drained, and
      exactly the catalog deployed. */
  ghost predicate Settled(s: State, catalog: seq<string>) {
    Valid(s) && s.history == [] && Processes(s.deployments) == catalog
  }

  /** What one level contributes: a sequential result with the expected
      per-process shape and a randomized result counting all `n` picks. */
  ghost predicate LevelOutcome(catalog: seq<string>, sequential: BenchmarkResult, random: BenchmarkResult, n: int) {
    && Shape(sequential.measurements) == ExpectedSequentialShape(catalog, n)
    && random == BenchmarkResult(1, [TotalMeasurement(Label(catalog), n)])
  }

  /** The results of one level and the engine and clock it leaves behind. */
  datatype Level = Level(sequential: BenchmarkResult, random: BenchmarkResult, engine: State, tick: nat)

  /** The ticks one level consumes: the sequential submissions, then the
      randomized picks. */
  function Stride(catalog: seq<string>, n: int): nat {
    Submitted(catalog, n) + Reps(n)
  }

  /** When a level started at tick `t` on an engine with the catalog
      deployed gets through: no engine call of the sequential part throws and,
      with history on, its count check holds; then every randomized pick is a
      catalog process, none of those calls throws and, with history on, the
      second count check holds. */
  ghost predicate LevelRuns(catalog: seq<string>, rec: bool, n: int, history: bool, picks: seq<string>, obs: Oracle, t: nat) {
    var k := Submitted(catalog, n);
    && NoCrash(obs, t, k)
    && (history ==> Counted(rec, obs, t, k) == ExpectedSequential(n, |catalog|))
    && (forall p :: p in picks ==> p in catalog)
    && NoCrash(obs, t + k, |picks|)
    && (history ==> Counted(rec, obs, t + k, |picks|) == |picks|)
  }

  /** Levels `from`..`to` get through, each starting where the previous
      one stopped. */
  ghost predicate LevelsRun(catalog: seq<string>, rec: bool, n: int, history: bool, picks: nat -> seq<string>,
                            obs: Oracle, t: nat, from: nat, to: int)
    decreases to - from
  {
    from > to ||
      (&& LevelRuns(catalog, rec, n, history, picks(from), obs, t)
       && LevelsRun(catalog, rec, n, history, picks, obs, t + Stride(catalog, n), from + 1, to))
  }

  /** With history recorded and checked, a level gets through exactly when
      every randomized pick is a catalog process and every instance the level
      starts reaches its end. */
  lemma {:induction false} LevelRunsWithHistory(catalog: seq<string>, n: int, picks: seq<string>, obs: Oracle, t: nat)
    requires n >= 0
    ensures LevelRuns(catalog, true, n, true, picks, obs, t) <==>
      (forall p :: p in picks ==> p in catalog) && AllFinish(obs, t, Submitted(catalog, n) + |picks|)
  {
    var k, m := Submitted(catalog, n), |picks|;
    SubmittedIsProduct(catalog, n);
    CountedSplit(true, obs, t, k, m);
    FinishedInAll(obs, t, k);
    FinishedInAll(obs, t + k, m);
    FinishedInAll(obs, t, k + m);
    if AllFinish(obs, t, k + m) {
      AllFinishNoCrash(obs, t, k);
      AllFinishNoCrash(obs, t + k, m);
    }
  }

  /** The engine has every catalog process deployed. */
  predicate DeploysCatalog(e: State, catalog: seq<string>) {
    forall p :: p in catalog ==> IsDeployed(e, p)
  }

  /** What sequentialExecution needs to return a result: the loop gets
      through and, with history on, the count check holds. */
  ghost predicate SequentialOk(e: State, catalog: seq<string>, n: int, history: bool, obs: Oracle, t: nat) {
    && SequentialRuns(e, catalog, n, obs, t).Success?
    && (history ==> Counted(e.recordsHistory, obs, t, Submitted(catalog, n)) == ExpectedSequential(n, |catalog|))
  }

  /** What randomExecution needs to return a result: the loop gets through
      and, with history on, the count check holds. */
  ghost predicate RandomOk(e: State, picks: seq<string>, history: bool, obs: Oracle, t: nat) {
    && RunAll(e, picks, obs, t).Success?
    && (history ==> Counted(e.recordsHistory, obs, t, |picks|) == |picks|)
  }

  /** On an engine with the catalog deployed, the sequential part gets
      through exactly when none of its engine calls throws and its check
      holds. */
  lemma SequentialPart(e: State, catalog: seq<string>, n: int, history: bool, obs: Oracle, t: nat)
    requires DeploysCatalog(e, catalog)
    ensures SequentialOk(e, catalog, n, history, obs, t) <==>
      && NoCrash(obs, t, Submitted(catalog, n))
      && (history ==> Counted(e.recordsHistory, obs, t, Submitted(catalog, n)) == ExpectedSequential(n, |catalog|))
  {
    SequentialRunsSucceeds(e, catalog, n, obs, t);
    SubmittedIsProduct(catalog, n);
  }

  /** On an engine with exactly the catalog deployed, the randomized part
      gets through exactly when every pick is a catalog process, none of its
      engine calls throws, and its check holds. */
  lemma RandomPart(e: State, catalog: seq<string>, picks: seq<string>, history: bool, obs: Oracle, t: nat)
    requires Processes(e.deployments) == catalog
    ensures RandomOk(e, picks, history, obs, t) <==>
      && (forall p :: p in picks ==> p in catalog)
      && NoCrash(obs, t, |picks|)
      && (history ==> Counted(e.recordsHistory, obs, t, |picks|) == |picks|)
  {
    DriveSucceeds(e, picks, obs, t);
  }

  /** A level gets through exactly when both of its parts do; the
      randomized part runs on the engine the sequential part left. */
  lemma LevelParts(e: State, after: State, catalog: seq<string>, n: int, history: bool, picks: seq<string>, obs: Oracle, t: nat)
    requires DeploysCatalog(e, catalog) && Processes(after.deployments) == catalog
    requires after.recordsHistory == e.recordsHistory
    ensures LevelRuns(catalog, e.recordsHistory, n, history, picks, obs, t) <==>
      SequentialOk(e, catalog, n, history, obs, t) && RandomOk(after, picks, history, obs, t + Submitted(catalog, n))
  {
    SequentialPart(e, catalog, n, history, obs, t);
    RandomPart(after, catalog, picks, history, obs, t + Submitted(catalog, n));
  }

  /** A level whose sequential part does not get through does not get
      through. */
  lemma LevelNeedsSequential(e: State, catalog: seq<string>, n: int, history: bool, picks: seq<string>, obs: Oracle, t: nat)
    requires DeploysCatalog(e, catalog)
    ensures LevelRuns(catalog, e.recordsHistory, n, history, picks, obs, t) ==> SequentialOk(e, catalog, n, history, obs, t)
  {
    SequentialPart(e, catalog, n, history, obs, t);
  }

  /** One concurrency level: a fresh execution over the shared engine runs
      the sequential, then the randomized benchmark. */
  method RunLevel(e: State, catalog: seq<string>, n: int, history: bool, picks: seq<string>, obs: Oracle, t: nat)
    returns (r: Result<Level, Abort>)
    requires Valid(e) && n >= 0 && |picks| == n
    ensures r.Failure? ==> r.error.failure.WorkloadFailed? || r.error.failure.CountMismatch?
    ensures DeploysCatalog(e, catalog) ==> (r.Success? <==> LevelRuns(catalog, e.recordsHistory, n, history, picks, obs, t))
    ensures r.Success? ==>
      && LevelOutcome(catalog, r.value.sequential, r.value.random, n)
      && Settled(r.value.engine, catalog)
      && r.value.engine.recordsHistory == e.recordsHistory
      && r.value.tick == t + Stride(catalog, n)
  {
    var x := BasicExecution(e, catalog, 0, 0);
    var sequential := SequentialExecution(x, catalog, n, history, obs, t);
    assert sequential.Success? <==> SequentialOk(e, catalog, n, history, obs, t);
    if sequential.Failure? {
      if DeploysCatalog(e, catalog) {
        LevelNeedsSequential(e, catalog, n, history, picks, obs, t);
      }
      return Failure(sequential.error);
    }
    var after := sequential.value;
    var random := RandomExecution(after.execution, catalog, n, history, picks, obs, after.tick);
    assert random.Success? <==> RandomOk(after.execution.engine, picks, history, obs, after.tick);
    if DeploysCatalog(e, catalog) {
      LevelParts(e, after.execution.engine, catalog, n, history, picks, obs, t);
    }
    if random.Failure? {
      return Failure(random.error);
    }
    var done := random.value;
    r := Success(Level(after.result, done.result, done.execution.engine, done.tick));
  }

  /** The deployment loop at the top of executeBenchmarks. */
  function DeployAll(s: State, ps: seq<string>): (r: State)
    ensures Processes(r.deployments) == Processes(s.deployments) + ps
    ensures r.history == s.history && r.recordsHistory == s.recordsHistory
    ensures Valid(s) ==> Valid(r)
    decreases |ps|
  {
    if ps == [] then s
    else
      var r := DeployAll(Deploy(s, ps[0]), ps[1..]);
      assert Processes(s.deployments) + ps == Processes(s.deployments) + [ps[0]] + ps[1..];
      r
  }

  /** Every level so far contributed what LevelOutcome describes. */
  ghost predicate LevelResults(catalog: seq<string>, sequential: seq<BenchmarkResult>, random: seq<BenchmarkResult>, n: int) {
    && |sequential| == |random|
    && forall i :: 0 <= i < |sequential| ==> LevelOutcome(catalog, sequential[i], random[i], n)
  }

  lemma AddLevel(catalog: seq<string>, sequential: seq<BenchmarkResult>, random: seq<BenchmarkResult>, n: int,
                 a: BenchmarkResult, b: BenchmarkResult)
    requires LevelResults(catalog, sequential, random, n) && LevelOutcome(catalog, a, b, n)
    ensures LevelResults(catalog, sequential + [a], random + [b], n)
  {
  }

  /** The loop over pool sizes 2..`maxThreads` that follows the
      single-thread level, appending one result per level to each list. */
  method PoolLevels(first: Level, catalog: seq<string>, history: bool, n: int, maxThreads: int,
                    picks: nat -> seq<string>, obs: Oracle)
    returns (r: Result<Results, Abort>)
    requires n >= 0 && (forall level: nat :: |picks(level)| == n)
    requires Settled(first.engine, catalog) && LevelOutcome(catalog, first.sequential, first.random, n)
    ensures r.Failure? ==> r.error.failure.WorkloadFailed? || r.error.failure.CountMismatch?
    ensures r.Success? <==> LevelsRun(catalog, first.engine.recordsHistory, n, history, picks, obs, first.tick, 2, maxThreads)
    ensures r.Success? ==>
      && |r.value.sequential| == Levels(maxThreads)
      && LevelResults(catalog, r.value.sequential, r.value.random, n)
      && Settled(r.value.engine, catalog)
  {
    var rec := first.engine.recordsHistory;
    var engine, tick := first.engine, first.tick;
    var sequential, random := [first.sequential], [first.random];
    var level := 2;
    while level <= maxThreads
      invariant 2 <= level && (level == 2 || level <= maxThreads + 1) && |sequential| == level - 1
      invariant Settled(engine, catalog) && LevelResults(catalog, sequential, random, n)
      invariant engine.recordsHistory == rec
      invariant LevelsRun(catalog, rec, n, history, picks, obs, first.tick, 2, maxThreads)
            <==> LevelsRun(catalog, rec, n, history, picks, obs, tick, level, maxThreads)
      decreases maxThreads - level
    {
      var next := RunLevel(engine, catalog, n, history, picks(level), obs, tick);
      if next.Failure? {
        return Failure(next.error);
      }
      AddLevel(catalog, sequential, random, n, next.value.sequential, next.value.random);
      sequential, random := sequential + [next.value.sequential], random + [next.value.random];
      engine, tick := next.value.engine, next.value.tick;
      level := level + 1;
    }
    r := Success(Results(sequential, random, engine, tick));
  }

  /** The levels of executeBenchmarks for a given catalog: deploy it,
      benchmark with one thread, then with each pool size from 2 to
      `maxThreads`, appending one sequential and one randomized result per
      level. `picks(level)` stands for what Utils.randomArray returned at
      that level. */
  method BenchmarkLevels(e: State, catalog: seq<string>, history: bool, n: int, maxThreads: int,
                         picks: nat -> seq<string>, obs: Oracle, t: nat)
    returns (r: Result<Results, Abort>)
    requires Valid(e) && n >= 0
    requires forall level: nat :: |picks(level)| == n
    ensures r.Failure? ==> r.error.failure.WorkloadFailed? || r.error.failure.CountMismatch?
    ensures r.Success? <==>
      && LevelRuns(catalog, e.recordsHistory, n, history, picks(1), obs, t)
      && LevelsRun(catalog, e.recordsHistory, n, history, picks, obs, t + Stride(catalog, n), 2, maxThreads)
    ensures r.Success? ==>
      && |r.value.sequential| == |r.value.random| == Levels(maxThreads)
      && LevelResults(catalog, r.value.sequential, r.value.random, n)
      && Settled(r.value.engine, catalog)
    ensures r.Success? ==> WriteHtmlReport(r.value.sequential, r.value.random, maxThreads).Some?
  {
    var deployed := DeployAll(e, catalog);
    assert DeploysCatalog(deployed, catalog);
    var first := RunLevel(deployed, catalog, n, history, picks(1), obs, t);
    if first.Failure? {
      return Failure(first.error);
    }
    r := PoolLevels(first.value, catalog, history, n, maxThreads, picks, obs);
  }

  /** executeBenchmarks: the levels over the benchmark's own catalog. */
  method ExecuteBenchmarks(e: State, history: bool, n: int, maxThreads: int,
                           picks: nat -> seq<string>, obs: Oracle, t: nat)
    returns (r: Result<Results, Abort>)
    requires Valid(e) && n >= 0
    requires forall level: nat :: |picks(level)| == n
    ensures r.Failure? ==> r.error.failure.WorkloadFailed? || r.error.failure.CountMismatch?
    ensures r.Success? <==>
      && LevelRuns(Catalog, e.recordsHistory, n, history, picks(1), obs, t)
      && LevelsRun(Catalog, e.recordsHistory, n, history, picks, obs, t + Stride(Catalog, n), 2, maxThreads)
    ensures r.Success? ==>
      && |r.value.sequential| == |r.value.random| == Levels(maxThreads)
      && LevelResults(Catalog, r.value.sequential, r.value.random, n)
      && Settled(r.value.engine, Catalog)
    ensures r.Success? ==> WriteHtmlReport(r.value.sequential, r.value.random, maxThreads).Some?
  {
    r := BenchmarkLevels(e, Catalog, history, n, maxThreads, picks, obs, t);
  }

  // ---------------------------------------------------------------------
  // writeHtmlReport
  // ---------------------------------------------------------------------

  /** The report's input: the rows of the sequential chart, then those of
      the randomized chart. */
  datatype Report = Report(sequential: seq<BenchmarkResult>, random: seq<BenchmarkResult>)

  /** `for (int i = from; i <= max; i++) results.get(i - 1)`: None stands for
      the IndexOutOfBoundsException of an index past the end. */
  function RowsFrom(results: seq<BenchmarkResult>, from: int, max: int): (r: Option<seq<BenchmarkResult>>)
    requires from >= 1
    ensures r.Some? <==> from > max || max <= |results|
    ensures r.Some? ==> |r.value| == (if from > max then 0 else max - from + 1)
    ensures r.Some? ==> forall j :: 0 <= j < |r.value| ==> r.value[j] == results[from - 1 + j]
    decreases max - from
  {
    if from > max then Some([])
    else if from - 1 >= |results| then None
    else
      match RowsFrom(results, from + 1, max)
      case None => None
      case Some(rest) => Some([results[from - 1]] + rest)
  }

  /** The rows one chart lists for `maxThreads` levels. */
  function Rows(results: seq<BenchmarkResult>, maxThreads: int): (r: Option<seq<BenchmarkResult>>)
    ensures r.Some? <==> maxThreads <= |results|
  {
    RowsFrom(results, 1, maxThreads)
  }

  /** When the list has at least `maxThreads` entries, the chart lists its
      first `max(maxThreads, 0)` entries, in order. */
  lemma ReportFits(results: seq<BenchmarkResult>, maxThreads: int)
    requires maxThreads <= |results|
    ensures Rows(results, maxThreads) == Some(results[..Reps(maxThreads)])
  {
    var rows := RowsFrom(results, 1, maxThreads).value;
    var prefix := results[..Reps(maxThreads)];
    assert |rows| == |prefix|;
    forall j | 0 <= j < |rows|
      ensures rows[j] == prefix[j]
    {
    }
    assert rows == prefix;
  }

  /** writeHtmlReport: both charts read their list at `0..maxThreads-1`. */
  function WriteHtmlReport(sequential: seq<BenchmarkResult>, random: seq<BenchmarkResult>, maxThreads: int): (r: Option<Report>)
    ensures r.Some? <==> maxThreads <= |sequential| && maxThreads <= |random|
    ensures r.Some? ==> r.value.sequential == sequential[..Reps(maxThreads)] && r.value.random == random[..Reps(maxThreads)]
  {
    match (Rows(sequential, maxThreads), Rows(random, maxThreads))
    case (Some(s), Some(rnd)) =>
      ReportFits(sequential, maxThreads);
      ReportFits(random, maxThreads);
      Some(Report(s, rnd))
    case _ => None
  }
}
