/** The process engine as the benchmark sees it: the deployments it holds,
    the historic process instances it has recorded, and what happens when
    an instance is started. The engine itself is a collaborator; this is
    only the slice of its behaviour the benchmark relies on. */
module Engine {
  import opened Outcomes

  /** A deployed process definition: the deployment id and the process key. */
  datatype Deployment = Deployment(id: nat, process: string)

  /** One row of the history store; `finished` is set once the instance ended. */
  datatype HistoricInstance = HistoricInstance(id: nat, process: string, finished: bool)

  /** Engine state. `nextId` is the id the engine hands out next;
      `recordsHistory` is false for the history level "none". */
  datatype State = State(
    deployments: seq<Deployment>,
    history: seq<HistoricInstance>,
    nextId: nat,
    recordsHistory: bool)

  /** What happened when one instance was started: it ran for `duration`
      and did or did not reach its end, or the engine call threw. */
  datatype Observation = Ran(duration: nat, finishes: bool) | Crashed

  /** Why starting an instance threw. */
  datatype RunError = NoSuchProcess(process: string) | ExecutionFailed(process: string)

  /** Ids the engine handed out are distinct and below `nextId`. */
  ghost predicate Valid(s: State) {
    && (forall i, j :: 0 <= i < j < |s.history| ==> s.history[i].id != s.history[j].id)
    && (forall i :: 0 <= i < |s.history| ==> s.history[i].id < s.nextId)
  }

  /** The process keys of a list of deployments, in order. */
  function Processes(ds: seq<Deployment>): (r: seq<string>)
    ensures |r| == |ds|
    ensures forall i :: 0 <= i < |ds| ==> r[i] == ds[i].process
  {
    if ds == [] then [] else [ds[0].process] + Processes(ds[1..])
  }

  predicate IsDeployed(s: State, process: string) {
    process in Processes(s.deployments)
  }

  /** `createHistoricProcessInstanceQuery().finished().count()`. */
  function CountEnded(h: seq<HistoricInstance>): nat
  {
    if h == [] then 0 else (if h[0].finished then 1 else 0) + CountEnded(h[1..])
  }

  /** The ended count never exceeds the history, reaches it exactly when
      every instance ended, and is zero exactly when none did. */
  lemma {:induction false} CountEndedBounds(h: seq<HistoricInstance>)
    ensures CountEnded(h) <= |h|
    ensures CountEnded(h) == |h| <==> forall i :: 0 <= i < |h| ==> h[i].finished
    ensures CountEnded(h) == 0 <==> forall i :: 0 <= i < |h| ==> !h[i].finished
    decreases |h|
  {
    if h != [] {
      assert forall i :: 1 <= i < |h| ==> h[i] == h[1..][i - 1];
      CountEndedBounds(h[1..]);
    }
  }

  lemma {:induction false} CountEndedAppend(a: seq<HistoricInstance>, b: seq<HistoricInstance>)
    ensures CountEnded(a + b) == CountEnded(a) + CountEnded(b)
    decreases |a|
  {
    if a == [] {
      assert a + b == b;
    } else {
      assert (a + b)[1..] == a[1..] + b;
      CountEndedAppend(a[1..], b);
    }
  }

  /** `createDeployment().addClasspathResource(...).deploy()`. */
  function Deploy(s: State, process: string): (r: State)
    ensures Processes(r.deployments) == Processes(s.deployments) + [process]
    ensures r.history == s.history && r.recordsHistory == s.recordsHistory
    ensures Valid(s) ==> Valid(r)
  {
    s.(deployments := s.deployments + [Deployment(s.nextId, process)], nextId := s.nextId + 1)
  }

  /** The deployments whose id differs from `id`, in order. */
  function WithoutDeployment(ds: seq<Deployment>, id: nat): (r: seq<Deployment>)
    ensures forall d :: d in r <==> d in ds && d.id != id
  {
    if ds == [] then []
    else (if ds[0].id == id then [] else [ds[0]]) + WithoutDeployment(ds[1..], id)
  }

  /** `deleteDeployment(id, true)`: the deployment goes; whatever the cascade
      removes from history the drain loop would remove anyway, so history is
      left to it. */
  function DeleteDeployment(s: State, id: nat): (r: State)
    ensures forall d :: d in r.deployments <==> d in s.deployments && d.id != id
    ensures r.history == s.history && r.nextId == s.nextId && r.recordsHistory == s.recordsHistory
  {
    s.(deployments := WithoutDeployment(s.deployments, id))
  }

  function Min(a: int, b: int): int {
    if a <= b then a else b
  }

  /** `createHistoricProcessInstanceQuery().listPage(first, size)`: at most
      `size` historic instances, starting at position `first`. */
  function ListPage(s: State, first: nat, size: nat): (r: seq<HistoricInstance>)
    ensures |r| <= size
    ensures first <= |s.history| ==> |r| == Min(size, |s.history| - first)
    ensures forall i :: 0 <= i < |r| ==> first + i < |s.history| && r[i] == s.history[first + i]
    ensures r == [] <==> size == 0 || first >= |s.history|
  {
    if first >= |s.history| then [] else s.history[first..Min(first + size, |s.history|)]
  }

  /** The historic instances whose id differs from `id`, in order. */
  function WithoutInstance(h: seq<HistoricInstance>, id: nat): (r: seq<HistoricInstance>)
    ensures forall x :: x in r <==> x in h && x.id != id
    ensures |r| <= |h|
    ensures (forall i :: 0 <= i < |h| ==> h[i].id != id) ==> r == h
  {
    if h == [] then []
    else (if h[0].id == id then [] else [h[0]]) + WithoutInstance(h[1..], id)
  }

  /** With distinct ids, deleting the first instance's id removes exactly
      the first instance. */
  lemma DeleteFirstInstance(s: State)
    requires Valid(s) && |s.history| > 0
    ensures DeleteHistoricInstance(s, s.history[0].id).history == s.history[1..]
    ensures Valid(DeleteHistoricInstance(s, s.history[0].id))
  {
    var h := s.history;
    forall i | 0 <= i < |h[1..]|
      ensures h[1..][i].id != h[0].id
    {
      assert h[1..][i] == h[i + 1];
    }
  }

  /** `deleteHistoricProcessInstance(id)`. */
  function DeleteHistoricInstance(s: State, id: nat): (r: State)
    ensures forall x :: x in r.history <==> x in s.history && x.id != id
    ensures |r.history| <= |s.history|
    ensures r.deployments == s.deployments && r.nextId == s.nextId && r.recordsHistory == s.recordsHistory
  {
    s.(history := WithoutInstance(s.history, id))
  }

  /** Starts one instance of `process`: the engine refuses a process that
      is not deployed, otherwise the observation decides whether the call
      threw; an instance that ran is recorded in history when the engine
      records history. */
  function StartInstance(s: State, process: string, o: Observation): (r: Result<State, RunError>)
    ensures r.Success? <==> IsDeployed(s, process) && o.Ran?
    ensures r.Failure? && !IsDeployed(s, process) ==> r.error == NoSuchProcess(process)
    ensures r.Failure? && IsDeployed(s, process) ==> r.error == ExecutionFailed(process)
    ensures r.Success? ==>
      && r.value.deployments == s.deployments
      && r.value.recordsHistory == s.recordsHistory
      && r.value.nextId > s.nextId
  {
    if !IsDeployed(s, process) then
      Failure(NoSuchProcess(process))
    else
      match o
      case Crashed => Failure(ExecutionFailed(process))
      case Ran(_, finishes) =>
        var entry := HistoricInstance(s.nextId, process, finishes);
        var history := if s.recordsHistory then s.history + [entry] else s.history;
        Success(s.(history := history, nextId := s.nextId + 1))
  }

  /** The ended count grows by one exactly when the engine records history
      and the started instance reached its end. */
  lemma StartInstanceCounts(s: State, process: string, o: Observation)
    requires StartInstance(s, process, o).Success?
    ensures CountEnded(StartInstance(s, process, o).value.history)
         == CountEnded(s.history) + (if s.recordsHistory && o.finishes then 1 else 0)
  {
    CountEndedAppend(s.history, [HistoricInstance(s.nextId, process, o.finishes)]);
  }

  /** Starting an instance hands out a fresh id, so ids stay distinct. */
  lemma StartInstanceKeepsValid(s: State, process: string, o: Observation)
    requires Valid(s) && StartInstance(s, process, o).Success?
    ensures Valid(StartInstance(s, process, o).value)
  {
  }
}
