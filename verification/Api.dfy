/** The resources the controllers exchange: Investigation specs, runner pods and
    EphemeralRunners, and the answers of the listings a Correlator pass asks for. */
module Api {
  datatype Option<+T> = None | Some(value: T)

  /** Nanoseconds since the Unix epoch. */
  type Time = int

  /** Nanoseconds. */
  type Duration = int

  datatype Key = Key(namespace: string, name: string)

  // ---------- Investigation ----------

  datatype Trigger = Trigger(kind: string, source: string)

  datatype WorkflowRun = WorkflowRun(
    id: int, name: string, status: string, conclusion: string, htmlURL: string, repository: string)

  datatype JobStep = JobStep(name: string, status: string, conclusion: string)

  datatype Job = Job(
    id: int, name: string, status: string, conclusion: string, runnerName: string,
    startedAt: Option<Time>, completedAt: Option<Time>, steps: seq<JobStep>)

  datatype Transition = Transition(from: string, to: string, timestamp: Time)

  datatype RunnerInfo = RunnerInfo(
    name: string, namespace: string, phase: string, statusHistory: seq<Transition>)

  datatype Condition = Condition(kind: string, status: string, reason: string, message: string)

  datatype ContainerStatus = ContainerStatus(
    name: string, state: string, reason: string, exitCode: Option<int>, restartCount: int, oomKilled: bool)

  datatype EventSnapshot = EventSnapshot(
    kind: string, reason: string, message: string, count: int, source: string, firstSeen: Time, lastSeen: Time)

  datatype PodInfo = PodInfo(
    name: string, namespace: string, phase: string, phaseHistory: seq<Transition>,
    conditions: seq<Condition>, containerStatuses: seq<ContainerStatus>,
    events: seq<EventSnapshot>, nodeName: string)

  datatype TimelineEvent = TimelineEvent(timestamp: Time, source: string, kind: string, message: string)

  datatype Diagnosis = Diagnosis(failureType: string, summary: string, remediation: string)

  datatype Spec = Spec(
    trigger: Trigger,
    workflowRun: Option<WorkflowRun>,
    job: Option<Job>,
    runner: Option<RunnerInfo>,
    pod: Option<PodInfo>,
    timeline: seq<TimelineEvent>,
    diagnosis: Option<Diagnosis>,
    logPaths: seq<string>)

  const PHASE_COLLECTING := "Collecting"
  const PHASE_COMPLETE := "Complete"

  // ---------- runner pods ----------

  const RUNNER_LABEL := "actions-ephemeral-runner"
  const LOG_FINALIZER := "detective.arcdetective.io/log-collector"
  const OOM_KILLED := "OOMKilled"

  /** The API allows at most one member of a container's state to be set. */
  datatype ContainerState =
    | Waiting(reason: string)
    | Running
    | Terminated(reason: string, exitCode: int)
    | Unset

  datatype Container = Container(name: string, restartCount: int, state: ContainerState)

  datatype Pod = Pod(
    name: string, namespace: string, labels: map<string, string>, owners: seq<string>,
    finalizers: seq<string>, deletedAt: Option<Time>, nodeName: string,
    initContainers: seq<string>, containers: seq<string>,
    phase: string, conditions: seq<Condition>, statuses: seq<Container>)
  {
    predicate IsRunner() {
      RUNNER_LABEL in labels && labels[RUNNER_LABEL] == "True"
    }

    predicate HasFinalizer() {
      LOG_FINALIZER in finalizers
    }

    predicate Deleting() {
      deletedAt.Some?
    }
  }

  // ---------- what a Correlator pass can list ----------

  datatype RunnerObject = RunnerObject(name: string, namespace: string, phase: string, runnerName: string)

  datatype KubeEvent = KubeEvent(
    kind: string, reason: string, message: string, count: int, component: string, first: Time, last: Time)

  datatype Repo = Repo(owner: string, name: string)

  datatype GhRun = GhRun(id: int, name: string, status: string, conclusion: string, htmlURL: string)

  datatype GhJob = GhJob(
    id: int, name: string, status: string, conclusion: string, runnerName: string,
    startedAt: Option<Time>, completedAt: Option<Time>, steps: seq<JobStep>)

  /** The answers of every listing during one pass; a listing that fails has no entry.
      `pods` holds, per namespace, the pods carrying the runner label; `events` is indexed
      by namespace and involved object; `configs` holds the repositories of each DetectiveConfig. */
  datatype World = World(
    runners: map<string, seq<RunnerObject>>,
    pods: map<string, seq<Pod>>,
    events: map<(string, string), seq<KubeEvent>>,
    configs: Option<seq<seq<Repo>>>,
    runs: map<Repo, seq<GhRun>>,
    jobs: map<(Repo, int), seq<GhJob>>)

  /** Index of the first element satisfying `p`, or the length. */
  function FirstIndex<T>(s: seq<T>, p: T -> bool): (i: nat)
    ensures i <= |s|
    ensures i < |s| ==> p(s[i])
    ensures forall j :: 0 <= j < i ==> !p(s[j])
  {
    if s == [] || p(s[0]) then 0
    else
      var k := FirstIndex(s[1..], p);
      assert forall j :: 0 < j < k + 1 ==> s[j] == s[1..][j - 1];
      k + 1
  }

  /** `f` applied to every element, in order. */
  function Map<A, B>(f: A -> B, s: seq<A>): (r: seq<B>)
    ensures |r| == |s|
    ensures forall i :: 0 <= i < |s| ==> r[i] == f(s[i])
  {
    seq(|s|, i requires 0 <= i < |s| => f(s[i]))
  }
}
