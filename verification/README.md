# activiti-benchmark: validation, run accounting and cleanup

A Dafny model of the sequential logic in the Activiti benchmark driver. The process engine is replaced by an abstract store:

- the deployments it holds;
- the historic process instances it recorded, each with a `finished` flag;
- the next id it hands out.

Modules:

- `Outcomes`: `Option`, `Result` and `Outcome`, shared by the rest.
- `Params` models `Benchmark.readAndValidateParams`, and the JDK's `Integer.parseInt` as far as it is used on the two arguments. It also covers the `historyEnabled` flag and the branch `getProcessEngine` takes for a configuration name and the profiling flag.
- `Engine` is the abstract engine. It covers deploying, deleting deployments, listing a page of the history store, deleting a historic instance, counting ended instances, and starting one instance.
- `Execution` models `BasicBenchmarkExecution`. It covers `sequentialExecution`, `randomExecution`, the ended-instance snapshots before and after a run, `verifyCounts`, and `cleanAndDeploy` with its paged history drain.
- `Benchmark` models `Benchmark.main` up to the engine, and the concurrency-level loop of `executeBenchmarks` that fills the two result lists. It also models the `get(i - 1)` reads `writeHtmlReport` makes on those lists.

Starting an instance (`ExecuteProcessRunnable`) is modelled by an oracle `nat -> Observation`. The oracle says, for each start in order, whether the engine call threw, how long it ran, and whether the instance reached its end. A tick threaded through the runs picks the observation. The list `Utils.randomArray` returns is a parameter of the randomized run.

## Model

| member | source | states |
|---|---|---|
| Params.ParseInt | src/main/java/be/jorambarrez/activiti/benchmark/Benchmark.java:225-237 | A string that parses is non-empty, and is all decimal digits unless it starts with a sign. Its value lies in the 32-bit int range, and a negative value has a leading minus. |
| Params.ParseShowRoundTrip | src/main/java/be/jorambarrez/activiti/benchmark/Benchmark.java:225-237 | Every 32-bit int, printed in decimal, parses back to itself. |
| Params.ParseRejectsNonDigit | src/main/java/be/jorambarrez/activiti/benchmark/Benchmark.java:225-237 | A string with a non-digit after its first character is rejected. |
| Params.WithDefault | src/main/java/be/jorambarrez/activiti/benchmark/Benchmark.java:194-205 | Writing a default adds the key, keeps every existing entry, and leaves a value that was already present untouched. |
| Params.ReadAndValidateParams | src/main/java/be/jorambarrez/activiti/benchmark/Benchmark.java:173-240 | A wrong argument count fails before any property is read or written. Past it, both defaults are present. The config check comes before the history check. Validation passes exactly when the count, config, history and both integer parses pass. The profiling field becomes true exactly when both option checks passed and the `profiling` key is present. |
| Params.ValidationIdempotent | src/main/java/be/jorambarrez/activiti/benchmark/Benchmark.java:194-205 | Validating again against the properties and fields the first call left gives an identical result. |
| Params.HistoryEnabled | src/main/java/be/jorambarrez/activiti/benchmark/Benchmark.java:61 | For a valid history level, history is enabled exactly for `activity`, `audit` and `full`. |
| Params.GetProcessEngine | src/main/java/be/jorambarrez/activiti/benchmark/Benchmark.java:88-121 | `default` builds the default engine, with the profiling interceptor exactly when profiling is on. `spring` builds the Spring engine unless profiling is on, which is refused. Any other name is refused as unsupported. |
| Params.ValidatedConfigReachesEngine | src/main/java/be/jorambarrez/activiti/benchmark/Benchmark.java:88-121 | After a passing validation, the engine is refused only for profiling under `spring`. The unsupported-config branch is never reached. |
| Engine.CountEndedBounds | src/main/java/be/jorambarrez/activiti/benchmark/execution/BasicBenchmarkExecution.java:157-162 | The ended count is at most the history size. It equals the size exactly when every instance ended, and is zero exactly when none did. |
| Engine.CountEndedAppend | src/main/java/be/jorambarrez/activiti/benchmark/execution/BasicBenchmarkExecution.java:157-162 | The ended count of two histories joined is the sum of their counts. |
| Engine.Deploy | src/main/java/be/jorambarrez/activiti/benchmark/execution/BasicBenchmarkExecution.java:133-136 | A deployment appends exactly the process to the deployed processes, and leaves history and id validity intact. |
| Engine.DeleteDeployment | src/main/java/be/jorambarrez/activiti/benchmark/execution/BasicBenchmarkExecution.java:107 | Exactly the deployments with the given id go; history is untouched. |
| Engine.ListPage | src/main/java/be/jorambarrez/activiti/benchmark/execution/BasicBenchmarkExecution.java:112 | A page holds at most `size` instances, in store order from the given position. It holds as many as remain up to `size`, and is empty exactly when nothing remains. |
| Engine.DeleteHistoricInstance | src/main/java/be/jorambarrez/activiti/benchmark/execution/BasicBenchmarkExecution.java:116 | Exactly the historic instances with the given id go; nothing else changes. |
| Engine.DeleteFirstInstance | src/main/java/be/jorambarrez/activiti/benchmark/execution/BasicBenchmarkExecution.java:115-117 | With distinct ids, deleting the first listed instance removes exactly that instance. |
| Engine.StartInstance | src/main/java/be/jorambarrez/activiti/benchmark/execution/BasicBenchmarkExecution.java:51-52 | A start succeeds exactly when the process is deployed and the engine call does not throw. Otherwise it fails, for the missing process or for the failed execution. Deployments are kept. |
| Engine.StartInstanceCounts | src/main/java/be/jorambarrez/activiti/benchmark/execution/BasicBenchmarkExecution.java:51-52 | A start adds one to the ended count exactly when the engine records history and the instance reached its end. |
| Engine.StartInstanceKeepsValid | src/main/java/be/jorambarrez/activiti/benchmark/execution/BasicBenchmarkExecution.java:51-52 | A start keeps the historic instance ids distinct. |
| Execution.FinishedInSplit | src/main/java/be/jorambarrez/activiti/benchmark/execution/BasicBenchmarkExecution.java:143-149 | The number of ended instances in consecutive runs adds up. |
| Execution.FinishedInAll | src/main/java/be/jorambarrez/activiti/benchmark/execution/BasicBenchmarkExecution.java:147-155 | Every instance is counted exactly when every instance reached its end. |
| Execution.UnfinishedInstanceIsMissed | src/main/java/be/jorambarrez/activiti/benchmark/execution/BasicBenchmarkExecution.java:147-155 | One instance that does not end keeps the count below the number started. |
| Execution.CountedSplit | src/main/java/be/jorambarrez/activiti/benchmark/execution/BasicBenchmarkExecution.java:143-149 | The ended instances the store gains over consecutive runs add up. |
| Execution.Drive | src/main/java/be/jorambarrez/activiti/benchmark/execution/BasicBenchmarkExecution.java:79-81 | Running the picks fails only with a workload failure. On success, deployments and the history setting are unchanged. |
| Execution.DriveSucceeds | src/main/java/be/jorambarrez/activiti/benchmark/execution/BasicBenchmarkExecution.java:79-81 | The run gets through the picks exactly when every pick is deployed and no engine call throws. |
| Execution.DriveHistory | src/main/java/be/jorambarrez/activiti/benchmark/execution/BasicBenchmarkExecution.java:139-145 | The after-count equals the before-count plus the ended instances among the picks, or plus none when history is not recorded. |
| Execution.DriveKeepsValid | src/main/java/be/jorambarrez/activiti/benchmark/execution/BasicBenchmarkExecution.java:79-81 | Running instances keeps the historic ids distinct. |
| Execution.TimingsRecord | src/main/java/be/jorambarrez/activiti/benchmark/execution/BasicBenchmarkExecution.java:50-54 | The i-th recorded measurement is for the i-th pick, with the duration observed for that start. |
| Execution.RunAll | src/main/java/be/jorambarrez/activiti/benchmark/execution/BasicBenchmarkExecution.java:77-81 | The randomized loop gets through exactly when every engine call it makes does, and otherwise fails only with a workload failure. Nothing is recorded per instance. On success it consumes one tick per pick and keeps deployments and the history setting. |
| Execution.SubmittedIsProduct | src/main/java/be/jorambarrez/activiti/benchmark/execution/BasicBenchmarkExecution.java:45-58 | The sequential loop submits `max(n, 0)` instances per catalog entry. |
| Execution.SequentialPicksMembers | src/main/java/be/jorambarrez/activiti/benchmark/execution/BasicBenchmarkExecution.java:45-52 | A process is submitted exactly when it is in the catalog and `n` is positive. |
| Execution.SequentialRuns | src/main/java/be/jorambarrez/activiti/benchmark/execution/BasicBenchmarkExecution.java:45-58 | The sequential loop fails only with a workload failure. On success it consumes one tick per submitted instance and keeps deployments. |
| Execution.SequentialRunsSucceeds | src/main/java/be/jorambarrez/activiti/benchmark/execution/BasicBenchmarkExecution.java:45-58 | The sequential loop gets through when nothing is to run. Otherwise it gets through exactly when every catalog process is deployed and none of the submitted calls throws. |
| Execution.SequentialRunsShape | src/main/java/be/jorambarrez/activiti/benchmark/execution/BasicBenchmarkExecution.java:45-58 | The recorded measurements have the expected shape: per process, in catalog order, its per-instance entries, then its total with count `n`. |
| Execution.RepeatedTimings | src/main/java/be/jorambarrez/activiti/benchmark/execution/BasicBenchmarkExecution.java:50-54 | The inner loop records exactly `k` per-instance entries for its process. |
| Execution.SequentialMeasurementsLength | src/main/java/be/jorambarrez/activiti/benchmark/execution/BasicBenchmarkExecution.java:45-58 | The sequential loop records `max(n, 0) + 1` entries per catalog entry. |
| Execution.SequentialMeasurementsRecord | src/main/java/be/jorambarrez/activiti/benchmark/execution/BasicBenchmarkExecution.java:45-57 | Entry `j` of block `k` of what the sequential loop records is the `j`-th instance of the `k`-th catalog process, with the duration observed at tick `t + k * max(n, 0) + j`. The block ends with that process's total, with count `n`. |
| Execution.SequentialShapeLength | src/main/java/be/jorambarrez/activiti/benchmark/execution/BasicBenchmarkExecution.java:45-58 | The sequential result holds `max(n, 0) + 1` entries per catalog entry. |
| Execution.SequentialShapeTotals | src/main/java/be/jorambarrez/activiti/benchmark/execution/BasicBenchmarkExecution.java:57 | The totals are keyed by the catalog's processes, one each, in catalog order. |
| Execution.SequentialShapeInstances | src/main/java/be/jorambarrez/activiti/benchmark/execution/BasicBenchmarkExecution.java:50-54 | Each process gets `max(n, 0)` per-instance entries for each time it occurs in the catalog. |
| Execution.SequentialRunsHistory | src/main/java/be/jorambarrez/activiti/benchmark/execution/BasicBenchmarkExecution.java:42-61 | After the sequential loop, the ended count grew by exactly the ended instances it submitted, and ids stay distinct. |
| Execution.VerifyCounts | src/main/java/be/jorambarrez/activiti/benchmark/execution/BasicBenchmarkExecution.java:147-155 | The check passes exactly when after minus before equals the expected count. Otherwise it fails, reporting both numbers. |
| Execution.Int32Wrap | src/main/java/be/jorambarrez/activiti/benchmark/execution/BasicBenchmarkExecution.java:62 | Java int arithmetic: the result lies in the int range, is congruent to the exact value modulo 2^32, and equals it when that fits. |
| Execution.CorrectedCountAgreesInRange | src/main/java/be/jorambarrez/activiti/benchmark/execution/BasicBenchmarkExecution.java:62 | Whenever `n * processes.length` fits an int, the exact expected count equals the wrapped one the code computes. |
| Execution.CompleteSequentialRunPasses | src/main/java/be/jorambarrez/activiti/benchmark/execution/BasicBenchmarkExecution.java:60-63 | With history on, a run over deployed processes in which every instance ends gets through. It counts `n` times the catalog size, which passes the corrected check. |
| Execution.OverflowRejectsCompleteRun | src/main/java/be/jorambarrez/activiti/benchmark/execution/BasicBenchmarkExecution.java:62 | With 300,000,000 executions over 8 processes, every instance ends, yet the expected count as written wraps to -1,894,967,296 and the check fails. |
| Execution.RemoveDeployments | src/main/java/be/jorambarrez/activiti/benchmark/execution/BasicBenchmarkExecution.java:104-108 | Deleting every listed deployment leaves none, and history is untouched. |
| Execution.DeletePage | src/main/java/be/jorambarrez/activiti/benchmark/execution/BasicBenchmarkExecution.java:115-118 | Deleting the instances of the first page removes exactly that page from the front of the store. |
| Execution.DrainHistory | src/main/java/be/jorambarrez/activiti/benchmark/execution/BasicBenchmarkExecution.java:110-125 | The drain terminates with the store empty. The running count equals the number of instances the store held. Every page held 1 to 100 instances, and every page but the last was full. |
| Execution.CleanAndDeploy | src/main/java/be/jorambarrez/activiti/benchmark/execution/BasicBenchmarkExecution.java:101-137 | Cleanup never fails. It leaves the store empty and exactly the given catalog deployed, and counts every historic instance it removed. |
| Execution.Conclude | src/main/java/be/jorambarrez/activiti/benchmark/execution/BasicBenchmarkExecution.java:86-92 | With history off, the run always concludes. With it on, it concludes exactly when the count grew by the expected amount; otherwise it aborts before cleanup with the engine uncleaned. A concluded run has a clean engine with the execution's own catalog deployed. |
| Execution.SequentialExecution | src/main/java/be/jorambarrez/activiti/benchmark/execution/BasicBenchmarkExecution.java:40-67 | A workload failure propagates. Otherwise the run succeeds exactly when history is off or the ended count matches the exact product of `n` and the catalog size; a mismatch aborts with both counts. The result holds exactly the measurements the loop recorded, with the expected shape, and the engine is left clean with the constructor's catalog deployed. |
| Execution.RandomExecution | src/main/java/be/jorambarrez/activiti/benchmark/execution/BasicBenchmarkExecution.java:69-93 | A workload failure propagates. Otherwise the run succeeds exactly when history is off or the ended count matches the total. The result is one total keyed by the joined catalog with count `total`, and the engine is left clean with the constructor's catalog deployed. |
| Benchmark.Start | src/main/java/be/jorambarrez/activiti/benchmark/Benchmark.java:53-67 | Start-up gets to an engine exactly when validation passes and profiling is not asked for under `spring`. A failed validation stops with its reason. The engine kind, profiling interceptor, history flag and both integers follow from the properties and arguments. |
| Benchmark.DeployAll | src/main/java/be/jorambarrez/activiti/benchmark/Benchmark.java:129-132 | The catalog is appended to the deployed processes, in order. |
| Benchmark.RunLevel | src/main/java/be/jorambarrez/activiti/benchmark/Benchmark.java:137-139 | A level fails only with a workload failure or a count mismatch. On an engine with the catalog deployed it completes exactly when no engine call of the sequential part throws and, with history on, its count check holds; and when every randomized pick is a catalog process, none of those calls throws and, with history on, the second check holds. A completed level yields a sequential result of the expected shape and one randomized total over all `n` picks, consumes one tick per instance, and leaves the engine clean with exactly the catalog deployed. |
| Benchmark.LevelRunsWithHistory | src/main/java/be/jorambarrez/activiti/benchmark/execution/BasicBenchmarkExecution.java:60-90 | With history recorded and both checks on, and the sequential count checked against the exact product, a level completes exactly when every randomized pick is a catalog process and every instance it starts reaches its end. |
| Benchmark.SequentialPart | src/main/java/be/jorambarrez/activiti/benchmark/execution/BasicBenchmarkExecution.java:45-63 | On an engine with the catalog deployed, sequentialExecution gets to its result exactly when none of its engine calls throws and, with history on, the count check against the exact product holds. |
| Benchmark.RandomPart | src/main/java/be/jorambarrez/activiti/benchmark/execution/BasicBenchmarkExecution.java:77-90 | On an engine with exactly the catalog deployed, randomExecution gets to its result exactly when every pick is a catalog process, none of its engine calls throws and, with history on, its count check holds. |
| Benchmark.LevelParts | src/main/java/be/jorambarrez/activiti/benchmark/Benchmark.java:137-139 | A level completes exactly when the sequential part does and the randomized part then does on the engine the sequential part left. |
| Benchmark.LevelNeedsSequential | src/main/java/be/jorambarrez/activiti/benchmark/Benchmark.java:137-139 | A level whose sequential part does not complete does not complete. |
| Benchmark.AddLevel | src/main/java/be/jorambarrez/activiti/benchmark/Benchmark.java:146-147 | Appending a level's results keeps every entry of both lists as a level contributes it. |
| Benchmark.PoolLevels | src/main/java/be/jorambarrez/activiti/benchmark/Benchmark.java:142-148 | The pool loop fails only with a workload failure or a count mismatch, and completes exactly when every level from 2 to `max` does, each starting where the previous one stopped. It then leaves one entry per level in each list, `max` entries when `max >= 1` and one otherwise, every entry the outcome of a level. |
| Benchmark.BenchmarkLevels | src/main/java/be/jorambarrez/activiti/benchmark/Benchmark.java:127-148 | For any catalog: after deploying it, the run fails only with a workload failure or a count mismatch and completes exactly when the single-thread level and then each of levels 2..max complete. Both lists then hold one entry per level, each a level's outcome, the engine is left clean with the catalog deployed, and the report's reads stay in bounds. |
| Benchmark.ExecuteBenchmarks | src/main/java/be/jorambarrez/activiti/benchmark/Benchmark.java:123-149 | Over the benchmark's own catalog, the run fails only with a workload failure or a count mismatch, and completes exactly when the single-thread level and every level from 2 to `max` complete in turn. Both lists then end with one entry per level. Every entry, including those of levels 2..max, is the outcome of the single-threaded basic strategy: a sequential result of the expected shape and one randomized total over `n` picks. The report's reads then stay in bounds. |
| Benchmark.RowsFrom | src/main/java/be/jorambarrez/activiti/benchmark/Benchmark.java:155-157 | The reads `get(i - 1)` for `i` from `from` to `max` succeed exactly when the loop is empty or `max` is within the list. They then yield the list's entries from `from - 1` on, in order. |
| Benchmark.Rows | src/main/java/be/jorambarrez/activiti/benchmark/Benchmark.java:155-157 | One chart's reads stay in bounds exactly when `max` does not exceed the list's length. |
| Benchmark.ReportFits | src/main/java/be/jorambarrez/activiti/benchmark/Benchmark.java:155-162 | When they stay in bounds, a chart lists exactly the first `max(max, 0)` results, in order. |
| Benchmark.WriteHtmlReport | src/main/java/be/jorambarrez/activiti/benchmark/Benchmark.java:151-166 | The report is produced exactly when `max` fits both lists. Each chart then lists that list's first `max(max, 0)` results. |

## Left out

- Concurrency: the pool sizes 2..max run through `FixedThreadPoolBenchmarkExecution`, whose parent `ThreadPooledBenchmarkExecution` is not part of this model. Each pool level is therefore modelled with the single-threaded accounting of `BasicBenchmarkExecution`: the entries for levels 2..max carry the basic strategy's outcome, with thread count 1, not what a thread pool would record.
- Wall-clock time: `System.currentTimeMillis` spans and the batch totals' elapsed times are not modelled. Per-instance durations are opaque naturals supplied by the oracle.
- Console output, including the `% 500` progress print, and the HTML and chart rendering of `BenchmarkOuput`. `WriteHtmlReport` keeps only the list reads.
- Engine construction: Spring and XML application contexts, JDBC settings, installing the profiling interceptor, and the profiling flush, sleep and log parser after the run. `GetProcessEngine` returns only which engine would be built.
- `ExecuteProcessRunnable` is not part of this model. Starting an instance is an oracle over ticks.
- `Utils.randomArray` is not part of this model. Its result is the `picks` parameter, of the requested length.
- Benchmark.ExecuteBenchmarks: requires a non-negative execution count, and so do `RunLevel` and `PoolLevels`. `randomArray`'s behaviour for a negative length is not visible.
- `Utils.toString` is not part of this model. `Label` joins the catalog with ", " as a stand-in key.
- Params.ParseInt: accepts ASCII digits only. `Integer.parseInt` also accepts other Unicode decimal digits.
- Execution.SequentialExecution: checks the count against the exact product `n * processes.length` (`ExpectedSequential`) rather than the wrapping int product at src/main/java/be/jorambarrez/activiti/benchmark/execution/BasicBenchmarkExecution.java:62. The two agree whenever the product fits an int (`CorrectedCountAgreesInRange`). The as-written check and the complete run it rejects are under Findings.
- Benchmark.RunLevel: inherits the exact-product sequential check of `Execution.SequentialExecution`. When `n * processes.length` overflows an int, the model's level can complete where BasicBenchmarkExecution.java:62 would throw.
- Benchmark.SequentialPart: states the exact-product sequential check, not the wrapping one at BasicBenchmarkExecution.java:62, for the same reason.
- Benchmark.LevelRunsWithHistory: "every instance ends" decides completion only under the exact-product check. As written, a run whose product exceeds 2^31 - 1 is rejected even when every instance ends (Execution.OverflowRejectsCompleteRun).
- Benchmark.PoolLevels: each level's completion condition inherits the exact-product sequential check of `RunLevel`.
- Benchmark.BenchmarkLevels: inherits the exact-product sequential check through `RunLevel` and `PoolLevels`.
- Benchmark.ExecuteBenchmarks: inherits the exact-product sequential check. Over the 8-process catalog the two checks differ once `n` reaches 268,435,456.
- Engine.DeleteDeployment: the cascade delete is modelled as leaving history to the drain loop. The drain removes every historic instance anyway.
- The engine's own history level comes from the `history` property through the engine configuration. `State.recordsHistory` is an input, not derived from that property.
- A `null` or non-string system property value is not modelled. `Properties` maps strings to strings, so the `!= null` guards always hold.
- A run aborted by an exception ends `main`. The model returns the abort with the engine as it was left, and does not model the JVM exiting.
- Cleanup after a failed count check: the code throws from `verifyCounts` before `cleanAndDeploy`, so `Conclude` aborts with the uncleaned engine.

## Findings

| source | as written | input that shows it | evidently intended | confidence | as-written member | corrected member |
|---|---|---|---|---|---|---|
| src/main/java/be/jorambarrez/activiti/benchmark/execution/BasicBenchmarkExecution.java:62 | `verifyCounts(nrOfProcessExecutions * processes.length)` multiplies two `int`s, so the expected count wraps modulo 2^32. The ended count it is compared with is a `long`. | 300,000,000 executions over the 8-process catalog: 2,400,000,000 instances end, the expected count wraps to -1,894,967,296, and a complete run is rejected. | Compare against the exact product `n * processes.length`, computed in `long`. | not executed | Execution.OverflowRejectsCompleteRun | Execution.CompleteSequentialRunPasses |
