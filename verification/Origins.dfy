/** What makes a controller open an Investigation, and the spec it is created with. */
module Origins {
  import opened Api
  import opened Naming

  // ---------- pod snapshots and anomalies ----------

  function StatusOf(c: Container): ContainerStatus {
    match c.state
    case Waiting(reason) => ContainerStatus(c.name, "waiting", reason, None, c.restartCount, false)
    case Running => ContainerStatus(c.name, "running", "", None, c.restartCount, false)
    case Terminated(reason, code) =>
      ContainerStatus(c.name, "terminated", reason, Some(code), c.restartCount, reason == OOM_KILLED)
    case Unset => ContainerStatus(c.name, "", "", None, c.restartCount, false)
  }

  function Snapshot(pod: Pod, history: seq<Transition>): PodInfo {
    PodInfo(pod.name, pod.namespace, pod.phase, history, pod.conditions,
            Map(StatusOf, pod.statuses), [], pod.nodeName)
  }

  function ContainerAnomaly(c: Container): string {
    match c.state
    case Terminated(reason, code) =>
      if reason == OOM_KILLED then "pod-oomkill" else if code != 0 then "pod-crash" else ""
    case Waiting(reason) =>
      if reason == "ImagePullBackOff" || reason == "ErrImagePull" then "pod-init-timeout" else ""
    case _ => ""
  }

  /** The anomaly of the first container that has one, or "". */
  function AnomalyOf(cs: seq<Container>): string {
    var i := FirstIndex(cs, c => ContainerAnomaly(c) != "");
    if i < |cs| then ContainerAnomaly(cs[i]) else ""
  }

  /** A container state the pod watcher reacts to. */
  predicate Anomalous(state: ContainerState) {
    || (state.Terminated? && (state.reason == "OOMKilled" || state.exitCode != 0))
    || (state.Waiting? && (state.reason == "ImagePullBackOff" || state.reason == "ErrImagePull"))
  }

  /** There is an anomaly exactly if some container is in such a state. */
  lemma AnomalyMeansAnomalous(cs: seq<Container>)
    ensures AnomalyOf(cs) != "" <==> exists i :: 0 <= i < |cs| && Anomalous(cs[i].state)
  {
    var i := FirstIndex(cs, c => ContainerAnomaly(c) != "");
    assert forall j :: 0 <= j < |cs| ==> (ContainerAnomaly(cs[j]) != "" <==> Anomalous(cs[j].state));
  }

  // ---------- origins ----------

  datatype Origin =
    | PodAnomaly(pod: Pod, history: seq<Transition>, at: Time)
    | PodDeletion(pod: Pod, history: seq<Transition>, paths: seq<string>)
    | RunnerStuck(namespace: string, name: string, phase: string, history: seq<Transition>, at: Time)
    | JobQueued(namespace: string, repo: Repo, run: GhRun, job: GhJob, at: Time)

  function SourceOf(o: Origin): Source {
    match o
    case PodAnomaly(pod, _, _) => PodSource(pod.namespace, pod.name)
    case PodDeletion(pod, _, _) => PodSource(pod.namespace, pod.name)
    case RunnerStuck(ns, name, _, _, _) => RunnerSource(ns, name)
    case JobQueued(ns, _, _, job, _) => JobSource(ns, job.id)
  }

  const NO_REPO := Repo("", "")

  function TriggerOf(o: Origin): Trigger {
    match o
    case PodAnomaly(pod, _, _) => Trigger(AnomalyOf(pod.statuses), SourceText(SourceOf(o), NO_REPO))
    case PodDeletion(pod, _, _) => Trigger("pod-deletion", SourceText(SourceOf(o), NO_REPO))
    case RunnerStuck(ns, name, _, _, _) => Trigger("runner-stuck", SourceText(SourceOf(o), NO_REPO))
    case JobQueued(_, repo, _, _, _) => Trigger("job-stuck-queued", SourceText(SourceOf(o), repo))
  }

  function JobOf(job: GhJob): Job {
    Job(job.id, job.name, job.status, job.conclusion, job.runnerName, job.startedAt, job.completedAt, job.steps)
  }

  function RunOf(repo: Repo, run: GhRun): WorkflowRun {
    WorkflowRun(run.id, run.name, run.status, run.conclusion, run.htmlURL, repo.owner + "/" + repo.name)
  }

  /** The spec a creator passes to Create. */
  function InitialSpec(o: Origin): Spec {
    var trigger := TriggerOf(o);
    var bare := Spec(trigger, None, None, None, None, [], None, []);
    match o
    case PodAnomaly(pod, history, at) =>
      bare.(pod := Some(Snapshot(pod, history)),
            timeline := [TimelineEvent(at, "pod", trigger.kind,
                                       "Anomaly detected on pod " + pod.name + ": " + trigger.kind)])
    case PodDeletion(pod, history, paths) =>
      bare.(pod := Some(Snapshot(pod, history)), logPaths := paths)
    case RunnerStuck(ns, name, phase, history, at) =>
      bare.(runner := Some(RunnerInfo(name, ns, phase, history)),
            timeline := [TimelineEvent(at, "ephemeralrunner", trigger.kind,
                                       "EphemeralRunner " + name + " in " + phase + " state")])
    case JobQueued(ns, repo, run, job, at) =>
      bare.(workflowRun := Some(RunOf(repo, run)), job := Some(JobOf(job)),
            timeline := [TimelineEvent(at, "github", trigger.kind,
                                       "Job " + job.name + " (" + trigger.kind + ") in repo "
                                       + repo.owner + "/" + repo.name)])
  }

  /** The spec of an existing Investigation after the log appender's change. */
  function AppendedSpec(spec: Spec, o: Origin): Spec
    requires o.PodDeletion?
  {
    spec.(logPaths := spec.logPaths + o.paths, pod := Some(Snapshot(o.pod, o.history)))
  }

  /** The paths are what a collection of the pod's logs may return. */
  predicate PathsOfPod(paths: seq<string>, pod: Pod) {
    forall i :: 0 <= i < |paths| ==> LogOf(paths[i], pod.namespace, pod.name)
  }

  /** What holds of an origin when a controller acts on it. */
  predicate Sound(o: Origin) {
    match o
    case PodAnomaly(pod, _, _) => AnomalyOf(pod.statuses) != ""
    case PodDeletion(pod, _, paths) => paths != [] && PathsOfPod(paths, pod)
    case RunnerStuck(_, _, phase, _, _) => phase == "Running" || phase == "Failed"
    case JobQueued(_, _, _, job, _) => job.status == "queued"
  }
}
