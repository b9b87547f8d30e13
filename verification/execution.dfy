/** BasicBenchmarkExecution: the single-threaded sequential and randomized
    runs, the before/after consistency check over the history store, and
    the cleanup that empties the engine and redeploys the catalog between
    runs. */
module Execution {
  import opened Outcomes
  import opened Engine
  import Params

  /** What the engine does with the instance started at each tick; the
      tick is threaded through the runs so that every start sees the next
      observation. */
  type Oracle = nat -> Observation

  /** One entry recorded in a BenchmarkResult: a single instance's duration,
      or a batch total for a key with its instance count. The batch's
      wall-clock span is not modelled. */
  datatype Measurement =
    | InstanceMeasurement(process: string, duration: nat)
    | TotalMeasurement(key: string, count: int)

  datatype BenchmarkResult = BenchmarkResult(threads: nat, measurements: seq<Measurement>)

  /** The RuntimeExceptions the execution can end with. */
  datatype RunFailure =
    | WorkloadFailed(cause: RunError)
    | CountMismatch(expected: int, actual: int)
    | CleanupIncomplete(remaining: nat)

  /** An aborted run: the failure, and the engine as the exception left it. */
  datatype Abort = Abort(failure: RunFailure, engine: State)

  /** The fields of a BasicBenchmarkExecution object. */
  datatype BasicExecution = BasicExecution(engine: State, processes: seq<string>, countBefore: int, countAfter: int)

  /** Instances run so far: the engine after them, what was recorded, and
      the next tick of the oracle. */
  datatype Batch = Batch(engine: State, measurements: seq<Measurement>, tick: nat)

  /** A completed run: the execution object after it, its result, and the
      next tick. */
  datatype Run = Run(execution: BasicExecution, result: BenchmarkResult, tick: nat)

  /** Page size of the history drain in cleanAndDeploy. */
  const PageSize: nat := 100

  // ---------------------------------------------------------------------
  // Observations
  // ---------------------------------------------------------------------

  function DurationOf(o: Observation): nat {
    if o.Ran? then o.duration else 0
  }

  predicate Finishes(o: Observation) {
    o.Ran? && o.finishes
  }

  /** How many of the `k` instances started from tick `t` reach their end. */
  function FinishedIn(obs: Oracle, t: nat, k: nat): (r: nat)
    ensures r <= k
    decreases k
  {
    if k == 0 then 0 else (if Finishes(obs(t)) then 1 else 0) + FinishedIn(obs, t + 1, k - 1)
  }

  /** None of the `k` engine calls from tick `t` throws. */
  ghost predicate NoCrash(obs: Oracle, t: nat, k: nat) {
    forall i: nat :: t <= i < t + k ==> obs(i).Ran?
  }

  lemma NoCrashStep(obs: Oracle, t: nat, k: nat)
    ensures NoCrash(obs, t, k + 1) <==> obs(t).Ran? && NoCrash(obs, t + 1, k)
  {
  }

  /** Every one of the `k` instances from tick `t` reaches its end. */
  ghost predicate AllFinish(obs: Oracle, t: nat, k: nat) {
    forall i: nat :: t <= i < t + k ==> Finishes(obs(i))
  }

  lemma {:induction false} FinishedInSplit(obs: Oracle, t: nat, a: nat, b: nat)
    ensures FinishedIn(obs, t, a + b) == FinishedIn(obs, t, a) + FinishedIn(obs, t + a, b)
    decreases a
  {
    if a > 0 {
      FinishedInSplit(obs, t + 1, a - 1, b);
    }
  }

  /** All `k` instances are counted exactly when all of them finish. */
  lemma {:induction false} FinishedInAll(obs: Oracle, t: nat, k: nat)
    ensures FinishedIn(obs, t, k) == k <==> AllFinish(obs, t, k)
    decreases k
  {
    if k > 0 {
      FinishedInAll(obs, t + 1, k - 1);
    }
  }

  /** An instance that does not reach its end keeps the count below `k`. */
  lemma UnfinishedInstanceIsMissed(obs: Oracle, t: nat, k: nat, i: nat)
    requires t <= i < t + k && !Finishes(obs(i))
    ensures FinishedIn(obs, t, k) < k
  {
    FinishedInAll(obs, t, k);
  }

  /** The ended instances the history store gains from `k` starts at tick `t`. */
  function Counted(recordsHistory: bool, obs: Oracle, t: nat, k: nat): nat {
    if recordsHistory then FinishedIn(obs, t, k) else 0
  }

  lemma CountedSplit(recordsHistory: bool, obs: Oracle, t: nat, a: nat, b: nat)
    ensures Counted(recordsHistory, obs, t, a + b) == Counted(recordsHistory, obs, t, a) + Counted(recordsHistory, obs, t + a, b)
  {
    FinishedInSplit(obs, t, a, b);
  }

  // ---------------------------------------------------------------------
  // Running instances
  // ---------------------------------------------------------------------

  function Repeat(p: string, k: nat): (r: seq<string>)
    ensures |r| == k && forall i :: 0 <= i < k ==> r[i] == p
  {
    seq(k, _ => p)
  }

  /** How often `for (int i = 0; i < n; i++)` runs its body. */
  function Reps(n: int): nat {
    if n < 0 then 0 else n
  }

  /** What the engine goes through when one ExecuteProcessRunnable per pick
      runs back to back: the first engine call that throws aborts with the
      engine as it was then. */
  function Drive(e: State, picks: seq<string>, obs: Oracle, t: nat): (r: Result<State, Abort>)
    ensures r.Failure? ==> r.error.failure.WorkloadFailed?
    ensures r.Success? ==> r.value.deployments == e.deployments && r.value.recordsHistory == e.recordsHistory
    decreases |picks|
  {
    if picks == [] then
      Success(e)
    else
      match StartInstance(e, picks[0], obs(t))
      case Failure(err) => Failure(Abort(WorkloadFailed(err), e))
      case Success(next) => Drive(next, picks[1..], obs, t + 1)
  }

  /** The engine gets through the picks exactly when every pick is deployed
      and no engine call throws. */
  lemma {:induction false} DriveSucceeds(e: State, picks: seq<string>, obs: Oracle, t: nat)
    ensures Drive(e, picks, obs, t).Success? <==>
      (forall p :: p in picks ==> IsDeployed(e, p)) && NoCrash(obs, t, |picks|)
    decreases |picks|
  {
    if picks != [] {
      assert picks == [picks[0]] + picks[1..];
      NoCrashStep(obs, t, |picks| - 1);
      var first := StartInstance(e, picks[0], obs(t));
      if first.Success? {
        var next := first.value;
        DriveSucceeds(next, picks[1..], obs, t + 1);
        assert forall p :: IsDeployed(next, p) == IsDeployed(e, p);
      } else {
        assert picks[0] in picks;
      }
    }
  }

  /** The history store gains exactly the ended instances among the picks,
      none when the engine records no history. */
  lemma {:induction false} DriveHistory(e: State, picks: seq<string>, obs: Oracle, t: nat)
    requires Drive(e, picks, obs, t).Success?
    ensures CountEnded(Drive(e, picks, obs, t).value.history)
         == CountEnded(e.history) + Counted(e.recordsHistory, obs, t, |picks|)
    decreases |picks|
  {
    if picks != [] {
      StartInstanceCounts(e, picks[0], obs(t));
      DriveHistory(StartInstance(e, picks[0], obs(t)).value, picks[1..], obs, t + 1);
    }
  }

  /** Running instances keeps the engine's ids valid. */
  lemma {:induction false} DriveKeepsValid(e: State, picks: seq<string>, obs: Oracle, t: nat)
    requires Valid(e) && Drive(e, picks, obs, t).Success?
    ensures Valid(Drive(e, picks, obs, t).value)
    decreases |picks|
  {
    if picks != [] {
      StartInstanceKeepsValid(e, picks[0], obs(t));
      DriveKeepsValid(StartInstance(e, picks[0], obs(t)).value, picks[1..], obs, t + 1);
    }
  }

  /** The per-instance durations recorded for the picks started from tick `t`. */
  function Timings(picks: seq<string>, obs: Oracle, t: nat): (r: seq<Measurement>)
    ensures |r| == |picks|
    decreases |picks|
  {
    if picks == [] then []
    else [InstanceMeasurement(picks[0], DurationOf(obs(t)))] + Timings(picks[1..], obs, t + 1)
  }

  /** One per-instance measurement per pick, in pick order, with the duration
      the engine observed for it. */
  lemma {:induction false} TimingsRecord(picks: seq<string>, obs: Oracle, t: nat)
    ensures forall i :: 0 <= i < |picks| ==>
      Timings(picks, obs, t)[i] == InstanceMeasurement(picks[i], DurationOf(obs(t + i)))
    decreases |picks|
  {
    if picks != [] {
      TimingsRecord(picks[1..], obs, t + 1);
      var ms := Timings(picks, obs, t);
      var rest := Timings(picks[1..], obs, t + 1);
      forall i | 1 <= i < |picks|
        ensures ms[i] == InstanceMeasurement(picks[i], DurationOf(obs(t + i)))
      {
        var j := i - 1;
        assert ms[i] == rest[j] == InstanceMeasurement(picks[1..][j], DurationOf(obs(t + 1 + j)));
        assert picks[1..][j] == picks[i] && t + 1 + j == t + i;
      }
    }
  }

  /** The inner loop of randomExecution: one instance per pick, nothing
      recorded per instance; the first engine call that throws aborts. */
  function RunAll(e: State, picks: seq<string>, obs: Oracle, t: nat): (r: Result<Batch, Abort>)
    ensures r.Success? <==> Drive(e, picks, obs, t).Success?
    ensures r.Failure? ==> r.error.failure.WorkloadFailed?
    ensures r.Success? ==>
      && r.value.measurements == []
      && r.value.tick == t + |picks|
      && r.value.engine.deployments == e.deployments
      && r.value.engine.recordsHistory == e.recordsHistory
  {
    var engine :- Drive(e, picks, obs, t);
    Success(Batch(engine, [], t + |picks|))
  }

  // ---------------------------------------------------------------------
  // Shape of the recorded measurements
  // ---------------------------------------------------------------------

  /** A measurement with its duration erased. */
  datatype Slot = PerInstance(process: string) | Total(key: string, count: int)

  function SlotOf(m: Measurement): Slot {
    match m
    case InstanceMeasurement(p, _) => PerInstance(p)
    case TotalMeasurement(k, c) => Total(k, c)
  }

  /** The measurements with their durations erased. */
  function Shape(ms: seq<Measurement>): (r: seq<Slot>)
    ensures |r| == |ms|
    decreases |ms|
  {
    if ms == [] then [] else [SlotOf(ms[0])] + Shape(ms[1..])
  }

  /** `k` per-instance entries for `p`. */
  function Slots(p: string, k: nat): (r: seq<Slot>)
    ensures |r| == k
    decreases k
  {
    if k == 0 then [] else [PerInstance(p)] + Slots(p, k - 1)
  }

  /** What sequentialExecution records, in order: for each process of the
      catalog, its per-instance entries followed by its batch total. */
  function ExpectedSequentialShape(ps: seq<string>, n: int): seq<Slot>
    decreases |ps|
  {
    if ps == [] then []
    else Slots(ps[0], Reps(n)) + [Total(ps[0], n)] + ExpectedSequentialShape(ps[1..], n)
  }

  /** The keys of the batch totals of a shape, in order. */
  function TotalKeys(slots: seq<Slot>): seq<string>
    decreases |slots|
  {
    if slots == [] then []
    else (if slots[0].Total? then [slots[0].key] else []) + TotalKeys(slots[1..])
  }

  /** How many per-instance entries a shape holds for `p`. */
  function InstanceCount(slots: seq<Slot>, p: string): nat
    decreases |slots|
  {
    if slots == [] then 0
    else (if slots[0] == PerInstance(p) then 1 else 0) + InstanceCount(slots[1..], p)
  }

  function Occurrences(ps: seq<string>, p: string): nat
    decreases |ps|
  {
    if ps == [] then 0 else (if ps[0] == p then 1 else 0) + Occurrences(ps[1..], p)
  }

  lemma {:induction false} TotalKeysAppend(a: seq<Slot>, b: seq<Slot>)
    ensures TotalKeys(a + b) == TotalKeys(a) + TotalKeys(b)
    decreases |a|
  {
    if a == [] {
      assert a + b == b;
    } else {
      assert (a + b)[1..] == a[1..] + b;
      TotalKeysAppend(a[1..], b);
    }
  }

  lemma {:induction false} InstanceCountAppend(a: seq<Slot>, b: seq<Slot>, p: string)
    ensures InstanceCount(a + b, p) == InstanceCount(a, p) + InstanceCount(b, p)
    decreases |a|
  {
    if a == [] {
      assert a + b == b;
    } else {
      assert (a + b)[1..] == a[1..] + b;
      InstanceCountAppend(a[1..], b, p);
    }
  }

  lemma {:induction false} RepeatedSlots(k: nat, q: string, p: string)
    ensures TotalKeys(Slots(q, k)) == []
    ensures InstanceCount(Slots(q, k), p) == if q == p then k else 0
    decreases k
  {
    if k > 0 {
      RepeatedSlots(k - 1, q, p);
    }
  }

  lemma Distribute(r: int, c: int, o: int)
    ensures r * (c + o) == r * c + r * o
  {
  }

  /** sequentialExecution records `max(n, 0) + 1` entries per catalog entry. */
  lemma {:induction false} SequentialShapeLength(ps: seq<string>, n: int)
    ensures |ExpectedSequentialShape(ps, n)| == |ps| * (Reps(n) + 1)
    decreases |ps|
  {
    if ps != [] {
      SequentialShapeLength(ps[1..], n);
      assert |ps| * (Reps(n) + 1) == (Reps(n) + 1) + |ps[1..]| * (Reps(n) + 1);
    }
  }

  /** sequentialExecution records one batch total per catalog entry, keyed
      by the process, in catalog order. */
  lemma {:induction false} SequentialShapeTotals(ps: seq<string>, n: int)
    ensures TotalKeys(ExpectedSequentialShape(ps, n)) == ps
    decreases |ps|
  {
    if ps != [] {
      var block := Slots(ps[0], Reps(n));
      var total := [Total(ps[0], n)];
      SequentialShapeTotals(ps[1..], n);
      RepeatedSlots(Reps(n), ps[0], ps[0]);
      TotalKeysAppend(block + total, ExpectedSequentialShape(ps[1..], n));
      TotalKeysAppend(block, total);
      assert total[1..] == [];
      assert ps == [ps[0]] + ps[1..];
    }
  }

  /** sequentialExecution records `max(n, 0)` per-instance entries for every
      occurrence of a process in the catalog. */
  lemma {:induction false} SequentialShapeInstances(ps: seq<string>, n: int, p: string)
    ensures InstanceCount(ExpectedSequentialShape(ps, n), p) == Reps(n) * Occurrences(ps, p)
    decreases |ps|
  {
    if ps != [] {
      var block := Slots(ps[0], Reps(n));
      var total := [Total(ps[0], n)];
      SequentialShapeInstances(ps[1..], n, p);
      RepeatedSlots(Reps(n), ps[0], p);
      InstanceCountAppend(block + total, ExpectedSequentialShape(ps[1..], n), p);
      InstanceCountAppend(block, total, p);
      assert total[1..] == [];
      var c := if ps[0] == p then 1 else 0;
      assert Occurrences(ps, p) == c + Occurrences(ps[1..], p);
      Distribute(Reps(n), c, Occurrences(ps[1..], p));
    }
  }

  lemma {:induction false} ShapeAppend(a: seq<Measurement>, b: seq<Measurement>)
    ensures Shape(a + b) == Shape(a) + Shape(b)
    decreases |a|
  {
    if a == [] {
      assert a + b == b;
    } else {
      assert (a + b)[1..] == a[1..] + b;
      ShapeAppend(a[1..], b);
    }
  }

  // ---------------------------------------------------------------------
  // The sequential loop
  // ---------------------------------------------------------------------

  /** The instances sequentialExecution submits, in order: `n` of each
      process of the catalog, process after process. */
  function SequentialPicks(ps: seq<string>, n: int): seq<string>
    decreases |ps|
  {
    if ps == [] then [] else Repeat(ps[0], Reps(n)) + SequentialPicks(ps[1..], n)
  }

  /** The number of instances sequentialExecution submits. */
  function Submitted(ps: seq<string>, n: int): nat {
    |SequentialPicks(ps, n)|
  }

  /** `max(n, 0)` instances for every process of the catalog. */
  lemma {:induction false} SubmittedIsProduct(ps: seq<string>, n: int)
    ensures Submitted(ps, n) == Reps(n) * |ps|
    decreases |ps|
  {
    if ps != [] {
      SubmittedIsProduct(ps[1..], n);
      Distribute(Reps(n), 1, |ps[1..]|);
    }
  }

  /** A process is submitted exactly when it is in the catalog and the loop
      bound is positive. */
  lemma {:induction false} SequentialPicksMembers(ps: seq<string>, n: int, p: string)
    ensures p in SequentialPicks(ps, n) <==> Reps(n) > 0 && p in ps
    decreases |ps|
  {
    if ps != [] {
      SequentialPicksMembers(ps[1..], n, p);
      var block := Repeat(ps[0], Reps(n));
      assert p in block <==> Reps(n) > 0 && p == ps[0] by {
        if Reps(n) > 0 && p == ps[0] {
          assert block[0] == p;
        }
      }
      assert ps == [ps[0]] + ps[1..];
    }
  }

  /** What the sequential loop records: for each process, the durations of
      its `n` instances, then the batch total with count `n`. */
  function SequentialMeasurements(ps: seq<string>, n: int, obs: Oracle, t: nat): seq<Measurement>
    decreases |ps|
  {
    if ps == [] then []
    else
      Timings(Repeat(ps[0], Reps(n)), obs, t) + [TotalMeasurement(ps[0], n)]
      + SequentialMeasurements(ps[1..], n, obs, t + Reps(n))
  }

  /** The loop over the catalog in sequentialExecution: the engine sees the
      submitted instances one after another, and the measurements are laid
      out process by process. */
  function SequentialRuns(e: State, ps: seq<string>, n: int, obs: Oracle, t: nat): (r: Result<Batch, Abort>)
    ensures r.Failure? ==> r.error.failure.WorkloadFailed?
    ensures r.Success? ==>
      && r.value.tick == t + Submitted(ps, n)
      && r.value.engine.deployments == e.deployments
      && r.value.engine.recordsHistory == e.recordsHistory
  {
    var engine :- Drive(e, SequentialPicks(ps, n), obs, t);
    Success(Batch(engine, SequentialMeasurements(ps, n, obs, t), t + Submitted(ps, n)))
  }

  /** The sequential loop gets through the catalog exactly when nothing is
      to be run, or every process is deployed and none of the submitted
      engine calls throws. */
  lemma SequentialRunsSucceeds(e: State, ps: seq<string>, n: int, obs: Oracle, t: nat)
    ensures SequentialRuns(e, ps, n, obs, t).Success? <==>
      || Reps(n) == 0
      || ((forall p :: p in ps ==> IsDeployed(e, p)) && NoCrash(obs, t, Submitted(ps, n)))
  {
    var picks := SequentialPicks(ps, n);
    DriveSucceeds(e, picks, obs, t);
    SubmittedIsProduct(ps, n);
    forall p
      ensures p in picks <==> Reps(n) > 0 && p in ps
    {
      SequentialPicksMembers(ps, n, p);
    }
  }

  /** What the sequential loop records has the expected shape. */
  lemma {:induction false} SequentialRunsShape(ps: seq<string>, n: int, obs: Oracle, t: nat)
    ensures Shape(SequentialMeasurements(ps, n, obs, t)) == ExpectedSequentialShape(ps, n)
    decreases |ps|
  {
    if ps != [] {
      var k := Reps(n);
      var picks := Repeat(ps[0], k);
      var timings := Timings(picks, obs, t);
      var total := TotalMeasurement(ps[0], n);
      var rest := SequentialMeasurements(ps[1..], n, obs, t + k);
      RepeatedTimings(ps[0], k, obs, t);
      SequentialRunsShape(ps[1..], n, obs, t + k);
      ShapeAppend(timings, [total]);
      ShapeAppend(timings + [total], rest);
    }
  }

  /** The durations of `k` instances of one process have the shape of `k`
      per-instance entries for it. */
  lemma {:induction false} RepeatedTimings(p: string, k: nat, obs: Oracle, t: nat)
    ensures Shape(Timings(Repeat(p, k), obs, t)) == Slots(p, k)
    decreases k
  {
    if k > 0 {
      assert Repeat(p, k)[1..] == Repeat(p, k - 1);
      RepeatedTimings(p, k - 1, obs, t + 1);
    }
  }

  /** What the sequential loop records holds `max(n, 0) + 1` entries per
      catalog entry. */
  lemma SequentialMeasurementsLength(ps: seq<string>, n: int, obs: Oracle, t: nat)
    ensures |SequentialMeasurements(ps, n, obs, t)| == |ps| * (Reps(n) + 1)
  {
    SequentialRunsShape(ps, n, obs, t);
    SequentialShapeLength(ps, n);
  }

  lemma AppendIndex<T>(a: seq<T>, b: seq<T>, i: nat)
    requires i < |b|
    ensures (a + b)[|a| + i] == b[i]
  {
  }

  lemma PeelBlock(k: nat, w: nat)
    requires k > 0
    ensures k * w == w + (k - 1) * w && (k - 1) * w >= 0
  {
  }

  lemma BlockInside(k: nat, j: nat, w: nat, m: nat)
    requires k < m && j < w
    ensures k * w + j < m * w
  {
    assert (k + 1) * w <= m * w;
  }

  /** What the sequential loop records, entry by entry: block `k` belongs to
      the k-th catalog process and holds its `max(n, 0)` instances, each with
      the duration observed at its own tick, then its total with count `n`. */
  lemma {:induction false} SequentialMeasurementsRecord(ps: seq<string>, n: int, obs: Oracle, t: nat, k: nat, j: nat)
    requires k < |ps| && j <= Reps(n)
    ensures var ms := SequentialMeasurements(ps, n, obs, t);
      && k * (Reps(n) + 1) + j < |ms|
      && ms[k * (Reps(n) + 1) + j] ==
           if j < Reps(n) then InstanceMeasurement(ps[k], DurationOf(obs(t + k * Reps(n) + j)))
           else TotalMeasurement(ps[k], n)
    decreases k
  {
    var r := Reps(n);
    var ms := SequentialMeasurements(ps, n, obs, t);
    var head := Timings(Repeat(ps[0], r), obs, t) + [TotalMeasurement(ps[0], n)];
    var rest := SequentialMeasurements(ps[1..], n, obs, t + r);
    assert ms == head + rest;
    assert |head| == r + 1;
    SequentialMeasurementsLength(ps, n, obs, t);
    BlockInside(k, j, r + 1, |ps|);
    if k == 0 {
      assert k * (r + 1) + j == j && t + k * r + j == t + j;
      assert ms[j] == head[j];
      if j < r {
        TimingsRecord(Repeat(ps[0], r), obs, t);
        assert head[j] == InstanceMeasurement(ps[0], DurationOf(obs(t + j)));
      }
    } else {
      SequentialMeasurementsRecord(ps[1..], n, obs, t + r, k - 1, j);
      PeelBlock(k, r + 1);
      PeelBlock(k, r);
      var i := (k - 1) * (r + 1) + j;
      assert t + k * r + j == (t + r) + (k - 1) * r + j;
      assert ps[1..][k - 1] == ps[k];
      AppendIndex(head, rest, i);
      assert k * (r + 1) + j == |head| + i;
    }
  }


  /** A successful sequential loop adds to the history store exactly the
      ended instances among the ones it submitted, and keeps ids valid. */
  lemma SequentialRunsHistory(e: State, ps: seq<string>, n: int, obs: Oracle, t: nat)
    requires SequentialRuns(e, ps, n, obs, t).Success?
    ensures var after := SequentialRuns(e, ps, n, obs, t).value.engine;
            && CountEnded(after.history) == CountEnded(e.history) + Counted(e.recordsHistory, obs, t, Submitted(ps, n))
            && (Valid(e) ==> Valid(after))
  {
    DriveHistory(e, SequentialPicks(ps, n), obs, t);
    if Valid(e) {
      DriveKeepsValid(e, SequentialPicks(ps, n), obs, t);
    }
  }

  // ---------------------------------------------------------------------
  // Counting and verification
  // ---------------------------------------------------------------------

  /** verifyCounts: the run fails unless the ended-instance count grew by
      exactly `expected`. */
  function VerifyCounts(x: BasicExecution, expected: int): (r: Outcome<RunFailure>)
    ensures r.Pass? <==> x.countAfter - x.countBefore == expected
    ensures r.Fail? ==> r.error == CountMismatch(expected, x.countAfter - x.countBefore)
  {
    var finished := x.countAfter - x.countBefore;
    if finished != expected then Fail(CountMismatch(expected, finished)) else Pass
  }

  const TwoTo32: int := 0x1_0000_0000

  /** Java's 32-bit int arithmetic: the value congruent to `x` modulo 2^32
      in the int range. */
  function Int32Wrap(x: int): (r: int)
    ensures Params.MinInt32 <= r <= Params.MaxInt32
    ensures (x - r) % TwoTo32 == 0
    ensures Params.MinInt32 <= x <= Params.MaxInt32 ==> r == x
  {
    (x - Params.MinInt32) % TwoTo32 + Params.MinInt32
  }

  /** The expected count sequentialExecution passes to verifyCounts as the
      source writes it: `nrOfProcessExecutions * processes.length`, an int
      product that wraps around. */
  function ExpectedSequentialAsWritten(n: int, catalogSize: nat): int {
    Int32Wrap(n * catalogSize)
  }

  /** The expected count the check is meant to compare against: every
      submitted instance. */
  function ExpectedSequential(n: int, catalogSize: nat): int {
    n * catalogSize
  }

  /** Whenever the product fits an int, the corrected expected count is the
      one the source computes. */
  lemma CorrectedCountAgreesInRange(n: int, catalogSize: nat)
    requires Params.MinInt32 <= n * catalogSize <= Params.MaxInt32
    ensures ExpectedSequential(n, catalogSize) == ExpectedSequentialAsWritten(n, catalogSize)
  {
  }

  /** Instances that reach their end did not throw. */
  lemma AllFinishNoCrash(obs: Oracle, t: nat, k: nat)
    requires AllFinish(obs, t, k)
    ensures NoCrash(obs, t, k)
  {
  }

  /** With history on, a sequential run over deployed processes in which
      every instance ends goes through, counts every submitted instance and
      passes the corrected check. */
  lemma CompleteSequentialRunPasses(e: State, ps: seq<string>, n: int, obs: Oracle, t: nat, before: int)
    requires e.recordsHistory && n >= 0
    requires forall p :: p in ps ==> IsDeployed(e, p)
    requires AllFinish(obs, t, n * |ps|)
    ensures SequentialRuns(e, ps, n, obs, t).Success?
    ensures Counted(e.recordsHistory, obs, t, Submitted(ps, n)) == ExpectedSequential(n, |ps|)
    ensures var counted := Counted(e.recordsHistory, obs, t, Submitted(ps, n));
            VerifyCounts(BasicExecution(e, ps, before, before + counted), ExpectedSequential(n, |ps|)).Pass?
  {
    SubmittedIsProduct(ps, n);
    AllFinishNoCrash(obs, t, n * |ps|);
    SequentialRunsSucceeds(e, ps, n, obs, t);
    FinishedInAll(obs, t, n * |ps|);
  }

  /** The check as written rejects a complete run of 300,000,000 executions
      over an 8-process catalog: 2,400,000,000 instances ended, but the
      product wrapped to a negative expected count. */
  lemma OverflowRejectsCompleteRun(e: State, ps: seq<string>, n: int, obs: Oracle, t: nat, before: int)
    requires e.recordsHistory && n == 300_000_000 && |ps| == 8
    requires forall p :: p in ps ==> IsDeployed(e, p)
    requires AllFinish(obs, t, n * |ps|)
    ensures SequentialRuns(e, ps, n, obs, t).Success?
    ensures Counted(e.recordsHistory, obs, t, Submitted(ps, n)) == 2_400_000_000
    ensures ExpectedSequentialAsWritten(n, |ps|) == -1_894_967_296
    ensures var counted := Counted(e.recordsHistory, obs, t, Submitted(ps, n));
            VerifyCounts(BasicExecution(e, ps, before, before + counted), ExpectedSequentialAsWritten(n, |ps|)).Fail?
  {
    CompleteSequentialRunPasses(e, ps, n, obs, t, before);
  }

  // ---------------------------------------------------------------------
  // cleanAndDeploy
  // ---------------------------------------------------------------------

  /** Deletes every deployment the deployment query listed. */
  method RemoveDeployments(e: State) returns (s: State)
    ensures s.deployments == []
    ensures s.history == e.history && s.nextId == e.nextId && s.recordsHistory == e.recordsHistory
  {
    var listed := e.deployments;
    s := e;
    for i := 0 to |listed|
      invariant forall d :: d in s.deployments ==> d in listed[i..]
      invariant s.history == e.history && s.nextId == e.nextId && s.recordsHistory == e.recordsHistory
    {
      s := DeleteDeployment(s, listed[i].id);
      forall d | d in s.deployments
        ensures d in listed[i + 1..]
      {
        assert d in listed[i..] && d != listed[i];
        var j :| i <= j < |listed| && listed[j] == d;
        assert listed[i + 1..][j - i - 1] == d;
      }
    }
    HeadIsMember(s.deployments);
  }

  lemma HeadIsMember<T>(xs: seq<T>)
    ensures |xs| > 0 ==> xs[0] in xs
  {
  }

  function Sum(xs: seq<nat>): nat
    decreases |xs|
  {
    if xs == [] then 0 else Sum(xs[..|xs| - 1]) + xs[|xs| - 1]
  }

  /** Deletes, one by one, the historic instances of a page listed from the
      front of the history store. */
  method DeletePage(s0: State, page: seq<HistoricInstance>) returns (s: State)
    requires Valid(s0) && page == ListPage(s0, 0, PageSize)
    ensures Valid(s) && s.history == s0.history[|page|..]
    ensures s.deployments == s0.deployments && s.nextId == s0.nextId && s.recordsHistory == s0.recordsHistory
  {
    s := s0;
    for j := 0 to |page|
      invariant Valid(s) && s.history == s0.history[j..]
      invariant s.deployments == s0.deployments && s.nextId == s0.nextId && s.recordsHistory == s0.recordsHistory
    {
      assert page[j] == s.history[0];
      DeleteFirstInstance(s);
      s := DeleteHistoricInstance(s, page[j].id);
    }
  }

  /** Page sizes as the drain sees them: every page holds between one and
      PageSize instances, and every page but the last is full. */
  ghost predicate WellPaged(pages: seq<nat>) {
    forall i :: 0 <= i < |pages| ==> 0 < pages[i] <= PageSize && (i < |pages| - 1 ==> pages[i] == PageSize)
  }

  lemma AddPage(pages: seq<nat>, size: nat)
    requires WellPaged(pages) && 0 < size <= PageSize
    requires |pages| > 0 ==> pages[|pages| - 1] == PageSize
    ensures WellPaged(pages + [size])
    ensures Sum(pages + [size]) == Sum(pages) + size
  {
    assert (pages + [size])[..|pages|] == pages;
  }

  lemma DropDrop<T>(xs: seq<T>, a: nat, b: nat)
    requires a + b <= |xs|
    ensures xs[a..][b..] == xs[a + b..]
  {
  }

  /** The history drain: list the first page of at most PageSize historic
      instances, delete each of them, and list again, until a page comes
      back empty. `deleted` is the running count the source keeps, and
      `pages` the size of every non-empty page. */
  method DrainHistory(e: State) returns (s: State, deleted: nat, pages: seq<nat>)
    requires Valid(e)
    ensures s.history == [] && Valid(s)
    ensures s.deployments == e.deployments && s.nextId == e.nextId && s.recordsHistory == e.recordsHistory
    ensures deleted == |e.history| == Sum(pages)
    ensures WellPaged(pages)
  {
    s := e;
    deleted := 0;
    pages := [];
    var page := ListPage(s, 0, PageSize);
    while |page| > 0
      invariant Valid(s)
      invariant deleted <= |e.history| && s.history == e.history[deleted..]
      invariant s.deployments == e.deployments && s.nextId == e.nextId && s.recordsHistory == e.recordsHistory
      invariant page == ListPage(s, 0, PageSize)
      invariant deleted == Sum(pages) && WellPaged(pages)
      invariant |pages| > 0 && pages[|pages| - 1] < PageSize ==> s.history == []
      decreases |s.history|
    {
      s := DeletePage(s, page);
      DropDrop(e.history, deleted, |page|);
      AddPage(pages, |page|);
      deleted := deleted + |page|;
      pages := pages + [|page|];
      page := ListPage(s, 0, PageSize);
    }
  }

  /** cleanAndDeploy: remove every deployment, drain the history store,
      refuse to go on if ended instances remain, and redeploy the catalog
      the execution was constructed with. */
  method CleanAndDeploy(e: State, catalog: seq<string>) returns (r: Result<State, Abort>, deleted: nat)
    requires Valid(e)
    ensures r.Success?
    ensures deleted == |e.history|
    ensures r.Success? ==>
      && r.value.history == []
      && Processes(r.value.deployments) == catalog
      && r.value.recordsHistory == e.recordsHistory
      && Valid(r.value)
  {
    var s := RemoveDeployments(e);
    var pages;
    s, deleted, pages := DrainHistory(s);
    var remaining := CountEnded(s.history);
    if remaining != 0 {
      r := Failure(Abort(CleanupIncomplete(remaining), s));
      return;
    }
    for i := 0 to |catalog|
      invariant Processes(s.deployments) == catalog[..i]
      invariant s.history == [] && s.recordsHistory == e.recordsHistory && Valid(s)
    {
      assert catalog[..i + 1] == catalog[..i] + [catalog[i]];
      s := Deploy(s, catalog[i]);
    }
    assert catalog[..|catalog|] == catalog;
    r := Success(s);
  }

  // ---------------------------------------------------------------------
  // sequentialExecution and randomExecution
  // ---------------------------------------------------------------------

  /** The common tail of both executions: with history on, read the ended
      count again and verify it grew by `expected`, aborting otherwise; then
      clean and redeploy the execution's own catalog. */
  method Conclude(x: BasicExecution, batch: Batch, expected: int, history: bool, result: BenchmarkResult)
    returns (r: Result<Run, Abort>)
    requires Valid(batch.engine)
    ensures var finished := CountEnded(batch.engine.history) - x.countBefore;
            r.Success? <==> !history || finished == expected
    ensures var finished := CountEnded(batch.engine.history) - x.countBefore;
            r.Failure? ==> r.error == Abort(CountMismatch(expected, finished), batch.engine)
    ensures r.Success? ==>
      && r.value.result == result
      && r.value.tick == batch.tick
      && r.value.execution.processes == x.processes
      && r.value.execution.countBefore == x.countBefore
      && r.value.execution.countAfter == (if history then CountEnded(batch.engine.history) else x.countAfter)
      && r.value.execution.engine.history == []
      && Processes(r.value.execution.engine.deployments) == x.processes
      && r.value.execution.engine.recordsHistory == batch.engine.recordsHistory
      && Valid(r.value.execution.engine)
  {
    var current := x.(engine := batch.engine);
    if history {
      current := current.(countAfter := CountEnded(batch.engine.history));
      var check := VerifyCounts(current, expected);
      if check.Fail? {
        return Failure(Abort(check.error, batch.engine));
      }
    }
    var cleaned, _ := CleanAndDeploy(current.engine, current.processes);
    current := current.(engine := cleaned.value);
    r := Success(Run(current, result, batch.tick));
  }

  /** sequentialExecution: snapshot the ended count, run every process `n`
      times in catalog order, check the count when history is on, then
      clean and redeploy the execution's own catalog. A failed check aborts
      before the cleanup. */
  method SequentialExecution(x: BasicExecution, ps: seq<string>, n: int, history: bool, obs: Oracle, t: nat)
    returns (r: Result<Run, Abort>)
    requires Valid(x.engine)
    ensures var runs := SequentialRuns(x.engine, ps, n, obs, t);
            runs.Failure? ==> r.Failure? && r.error == runs.error
    ensures var runs := SequentialRuns(x.engine, ps, n, obs, t);
            var counted := Counted(x.engine.recordsHistory, obs, t, Submitted(ps, n));
            runs.Success? && history && counted != ExpectedSequential(n, |ps|) ==>
              r == Failure(Abort(CountMismatch(ExpectedSequential(n, |ps|), counted), runs.value.engine))
    ensures var runs := SequentialRuns(x.engine, ps, n, obs, t);
            var counted := Counted(x.engine.recordsHistory, obs, t, Submitted(ps, n));
            r.Success? <==> runs.Success? && (history ==> counted == ExpectedSequential(n, |ps|))
    ensures r.Success? ==>
      && r.value.result.threads == 1
      && r.value.result.measurements == SequentialMeasurements(ps, n, obs, t)
      && Shape(r.value.result.measurements) == ExpectedSequentialShape(ps, n)
      && r.value.tick == t + Submitted(ps, n)
      && r.value.execution.processes == x.processes
      && r.value.execution.countBefore == CountEnded(x.engine.history)
      && r.value.execution.engine.history == []
      && Processes(r.value.execution.engine.deployments) == x.processes
      && r.value.execution.engine.recordsHistory == x.engine.recordsHistory
      && Valid(r.value.execution.engine)
  {
    var current := x.(countBefore := CountEnded(x.engine.history));
    var runs := SequentialRuns(current.engine, ps, n, obs, t);
    if runs.Failure? {
      return Failure(runs.error);
    }
    SequentialRunsHistory(x.engine, ps, n, obs, t);
    SequentialRunsShape(ps, n, obs, t);
    r := Conclude(current, runs.value, ExpectedSequential(n, |ps|), history, BenchmarkResult(1, runs.value.measurements));
  }

  /** Utils.toString(processes): the key of the random run's single total. */
  function Label(ps: seq<string>): string
    decreases |ps|
  {
    if ps == [] then "" else if |ps| == 1 then ps[0] else ps[0] + ", " + Label(ps[1..])
  }

  /** randomExecution: run the randomized picks back to back, record one
      total keyed by the whole catalog, check the count against the number
      of picks when history is on, then clean and redeploy. `picks` stands
      for what Utils.randomArray returned. */
  method RandomExecution(x: BasicExecution, ps: seq<string>, total: int, history: bool, picks: seq<string>, obs: Oracle, t: nat)
    returns (r: Result<Run, Abort>)
    requires Valid(x.engine)
    requires |picks| == total
    ensures var runs := RunAll(x.engine, picks, obs, t);
            runs.Failure? ==> r.Failure? && r.error == runs.error
    ensures var runs := RunAll(x.engine, picks, obs, t);
            var counted := Counted(x.engine.recordsHistory, obs, t, total);
            runs.Success? && history && counted != total ==>
              r == Failure(Abort(CountMismatch(total, counted), runs.value.engine))
    ensures var runs := RunAll(x.engine, picks, obs, t);
            var counted := Counted(x.engine.recordsHistory, obs, t, total);
            r.Success? <==> runs.Success? && (history ==> counted == total)
    ensures r.Success? ==>
      && r.value.result == BenchmarkResult(1, [TotalMeasurement(Label(ps), total)])
      && r.value.tick == t + total
      && r.value.execution.processes == x.processes
      && r.value.execution.countBefore == CountEnded(x.engine.history)
      && r.value.execution.engine.history == []
      && Processes(r.value.execution.engine.deployments) == x.processes
      && r.value.execution.engine.recordsHistory == x.engine.recordsHistory
      && Valid(r.value.execution.engine)
  {
    var current := x.(countBefore := CountEnded(x.engine.history));
    var runs := RunAll(current.engine, picks, obs, t);
    if runs.Failure? {
      return Failure(runs.error);
    }
    DriveHistory(x.engine, picks, obs, t);
    DriveKeepsValid(x.engine, picks, obs, t);
    r := Conclude(current, runs.value, total, history, BenchmarkResult(1, [TotalMeasurement(Label(ps), total)]));
  }

}
