/** The two watchers and the GitHub poller: what one reconcile or poll reads, remembers and
    decides. The API calls it decides on are steps of the lifecycle protocol. */
module Watchers {
  import opened Api
  import opened Origins
  import opened Trackers
  import opened PassResults
  import opened Lifecycle

  // ---------- PodWatcher ----------

  datatype PodGot = PodMissing | PodError | PodFound(p: PodVersion)

  /** What observing a phase makes of a history: a new non-empty phase adds one transition from
      the last one and becomes the last one; anything else changes nothing. */
  predicate Observed(before: Tracker, phase: string, now: Time, after: Tracker) {
    if phase == "" || phase == before.lastPhase then after == before
    else
      && after.lastPhase == phase
      && |after.transitions| == |before.transitions| + 1
      && before.transitions <= after.transitions
      && var t := after.transitions[|before.transitions|];
      && t.from == before.lastPhase && t.to == phase && t.timestamp == now
  }

  class PodWatcher {
    var podHistory: map<Key, Tracker>
    ghost var sightings: seq<(Key, Sighting)>

    /** The map is what everything seen so far makes of it. */
    ghost predicate Valid() reads this {
      podHistory == PodsAfter(sightings)
    }

    constructor ()
      ensures Valid() && podHistory == map[] && sightings == []
    {
      podHistory := map[];
      sightings := [];
    }

    method RecordTransition(key: Key, pod: Pod, now: Time)
      requires Valid()
      modifies this
      ensures Valid() && sightings == old(sightings) + [(key, Seen(pod.phase, now))]
      ensures podHistory == PodsStep(old(podHistory), key, Seen(pod.phase, now))
      ensures key in podHistory && Observed(old(OrFresh(At(podHistory, key))), pod.phase, now, podHistory[key])
      ensures forall k :: k != key ==> At(podHistory, k) == old(At(podHistory, k))
    {
      PodsAfterOneMore(sightings, key, Seen(pod.phase, now));
      sightings := sightings + [(key, Seen(pod.phase, now))];
      var tracker := FRESH;
      if key in podHistory {
        tracker := podHistory[key];
      }
      if pod.phase != "" && tracker.lastPhase != pod.phase {
        var t := Transition(tracker.lastPhase, pod.phase, now);
        tracker := tracker.(transitions := tracker.transitions + [t], lastPhase := pod.phase);
      }
      podHistory := podHistory[key := tracker];
    }

    /** The first container with an anomaly decides. */
    method DetectAnomaly(pod: Pod) returns (anomaly: string)
      ensures anomaly == AnomalyOf(pod.statuses)
      ensures anomaly == "" <==> forall i :: 0 <= i < |pod.statuses| ==> !Anomalous(pod.statuses[i].state)
      ensures anomaly != "" ==> exists i ::
        && 0 <= i < |pod.statuses| && Anomalous(pod.statuses[i].state)
        && (forall j :: 0 <= j < i ==> !Anomalous(pod.statuses[j].state))
        && anomaly == (if pod.statuses[i].state.Waiting? then "pod-init-timeout"
                       else if pod.statuses[i].state.reason == "OOMKilled" then "pod-oomkill" else "pod-crash")
    {
      var i := 0;
      while i < |pod.statuses|
        invariant 0 <= i <= |pod.statuses|
        invariant forall j :: 0 <= j < i ==>
          ContainerAnomaly(pod.statuses[j]) == "" && !Anomalous(pod.statuses[j].state)
      {
        var state := pod.statuses[i].state;
        if state.Terminated? && state.reason == OOM_KILLED {
          return "pod-oomkill";
        }
        if state.Terminated? && state.exitCode != 0 {
          return "pod-crash";
        }
        if state.Waiting? && (state.reason == "ImagePullBackOff" || state.reason == "ErrImagePull") {
          return "pod-init-timeout";
        }
        i := i + 1;
      }
      return "";
    }

    method BuildPodInfo(pod: Pod) returns (info: PodInfo)
      requires Valid()
      ensures ShowsPod(info, pod) && info.events == []
      ensures info.phaseHistory == Squeeze(Phases(Of(sightings, Key(pod.namespace, pod.name))), "")
      ensures info == Snapshot(pod, OrFresh(At(podHistory, Key(pod.namespace, pod.name))).transitions)
    {
      info := PodInfo(pod.name, pod.namespace, pod.phase, [], [], [], [], pod.nodeName);
      for i := 0 to |pod.conditions|
        invariant info == PodInfo(pod.name, pod.namespace, pod.phase, [], pod.conditions[..i], [], [], pod.nodeName)
      {
        info := info.(conditions := info.conditions + [pod.conditions[i]]);
      }
      for i := 0 to |pod.statuses|
        invariant info == PodInfo(pod.name, pod.namespace, pod.phase, [], pod.conditions,
                                  Map(StatusOf, pod.statuses[..i]), [], pod.nodeName)
      {
        var cs := pod.statuses[i];
        var csi := ContainerStatus(cs.name, "", "", None, cs.restartCount, false);
        match cs.state {
          case Waiting(reason) => csi := csi.(state := "waiting", reason := reason);
          case Running => csi := csi.(state := "running");
          case Terminated(reason, code) =>
            csi := csi.(state := "terminated", reason := reason, exitCode := Some(code),
                        oomKilled := reason == OOM_KILLED);
          case Unset =>
        }
        assert Map(StatusOf, pod.statuses[..i + 1]) == Map(StatusOf, pod.statuses[..i]) + [csi];
        info := info.(containerStatuses := info.containerStatuses + [csi]);
      }
      assert pod.statuses[..|pod.statuses|] == pod.statuses;
      var key := Key(pod.namespace, pod.name);
      if key in podHistory {
        info := info.(phaseHistory := podHistory[key].transitions);
      }
      SnapshotShows(pod, info.phaseHistory);
      PodKeysAreIndependent(sightings, key);
      HistoryIsCompression(Of(sightings, key));
    }

    /** One reconcile up to its first call that opens or changes an Investigation, which gets
        the compression of all phases of the pod seen since it was last gone. A live runner pod
        without the log-collector finalizer is first sent back with the finalizer added; `stored`
        is the resource version that update got, absent if it failed. */
    method Reconcile(req: Key, got: PodGot, stored: Option<nat>, now: Time, at: Time)
      returns (sent: Option<Pod>, next: Thread)
      requires got.PodFound? ==> PodKey(got.p) == req
      requires Valid()
      modifies this
      ensures Valid()
      ensures sent.Some? <==>
        && got.PodFound? && "actions-ephemeral-runner" in got.p.pod.labels
        && got.p.pod.labels["actions-ephemeral-runner"] == "True"
        && got.p.pod.deletedAt.None? && "detective.arcdetective.io/log-collector" !in got.p.pod.finalizers
      ensures sent.Some? ==>
        && sent.value.finalizers == got.p.pod.finalizers + ["detective.arcdetective.io/log-collector"]
        && sent.value == got.p.pod.(finalizers := sent.value.finalizers)
      ensures got.PodMissing? ==>
        sightings == old(sightings) + [(req, Gone)] && podHistory == old(podHistory) - {req} && next == Idle
      ensures got.PodError? ==> sightings == old(sightings) && next == Idle
      ensures got.PodFound? && !got.p.pod.IsRunner() ==> sightings == old(sightings) && next == Idle
      ensures got.PodFound? && got.p.pod.IsRunner() ==>
        if sent.Some? && stored.None? then sightings == old(sightings) && next == Idle
        else
          var p := if sent.Some? then PodVersion(got.p.uid, stored.value, sent.value) else got.p;
          && sightings == old(sightings) + [(req, Seen(p.pod.phase, now))]
          && next == Handle(p, Squeeze(Phases(Of(sightings, req)), ""), at)
    {
      sent := None;
      match got
      case PodMissing =>
        PodsAfterOneMore(sightings, req, Gone);
        sightings := sightings + [(req, Gone)];
        podHistory := podHistory - {req};
        return None, Idle;
      case PodError =>
        return None, Idle;
      case PodFound(p) =>
        if !p.pod.IsRunner() {
          return None, Idle;
        }
        var current := p;
        if !p.pod.Deleting() && !p.pod.HasFinalizer() {
          sent := Some(p.pod.(finalizers := p.pod.finalizers + [LOG_FINALIZER]));
          if stored.None? {
            return sent, Idle;
          }
          current := PodVersion(p.uid, stored.value, sent.value);
        }
        RecordTransition(req, current.pod, now);
        var history := podHistory[req].transitions;
        PodKeysAreIndependent(sightings, req);
        HistoryIsCompression(Of(sightings, req));
        if current.pod.Deleting() && current.pod.HasFinalizer() {
          return sent, CollectLogs(current, history);
        }
        var anomaly := DetectAnomaly(current.pod);
        if anomaly != "" {
          return sent, Lookup(PodAnomaly(current.pod, history, at), None);
        }
        return sent, Idle;
    }
  }

  // ---------- EphemeralRunnerWatcher ----------

  datatype RunnerGot = RunnerMissing | RunnerError | RunnerFound(phase: string, created: Time)

  /** The clock readings of one reconcile, in the order they are taken. */
  datatype Clock = Clock(stamp: Time, since: Time, check: Time, at: Time)

  function ReadingOf(got: RunnerGot, c: Clock): Reading
    requires !got.RunnerError?
  {
    Reading(if got.RunnerFound? then Some(got.phase) else None, c.stamp, c.since, c.check)
  }

  datatype RunnerResult = RunnerResult(requeueAfter: Option<Duration>, open: Option<Origin>)

  const NOTHING := RunnerResult(None, None)

  function Opens(o: Origin): RunnerResult {
    RunnerResult(None, Some(o))
  }

  class EphemeralRunnerWatcher {
    const stuckThreshold: Duration
    const runningThreshold: Duration
    var erStatus: map<Key, RunnerTracker>
    ghost var readings: seq<(Key, Reading)>

    /** The map is what everything read so far makes of it. */
    ghost predicate Valid() reads this {
      erStatus == RunnersAfter(readings)
    }

    constructor (stuckThreshold: Duration, runningThreshold: Duration)
      ensures this.stuckThreshold == stuckThreshold && this.runningThreshold == runningThreshold
      ensures Valid() && erStatus == map[] && readings == []
    {
      readings := [];
      this.stuckThreshold := stuckThreshold;
      this.runningThreshold := runningThreshold;
      erStatus := map[];
    }

    method RecordTransition(key: Key, phase: string, c: Clock)
      requires phase != "" && Valid()
      modifies this
      ensures Valid() && readings == old(readings) + [(key, Reading(Some(phase), c.stamp, c.since, c.check))]
      ensures erStatus == RunnersStep(old(erStatus), key, Reading(Some(phase), c.stamp, c.since, c.check))
      ensures key in erStatus
      ensures var before := if key in old(erStatus) then old(erStatus)[key] else RunnerTracker(Tracker("", []), None);
        && Observed(before.tracker, phase, c.stamp, erStatus[key].tracker)
        && erStatus[key].runningSince == (if phase == before.tracker.lastPhase then before.runningSince
                                          else if phase == "Running" then Some(c.since) else None)
      ensures forall k :: k != key ==> At(erStatus, k) == old(At(erStatus, k))
    {
      ghost var r := Reading(Some(phase), c.stamp, c.since, c.check);
      RunnersAfterOneMore(readings, key, r);
      readings := readings + [(key, r)];
      var t := FRESH_RUNNER;
      if key in erStatus {
        t := erStatus[key];
      }
      if t.tracker.lastPhase != phase {
        var step := Transition(t.tracker.lastPhase, phase, c.stamp);
        t := t.(tracker := t.tracker.(transitions := t.tracker.transitions + [step], lastPhase := phase));
        if phase == "Running" {
          t := t.(runningSince := Some(c.since));
        } else {
          t := t.(runningSince := None);
        }
      }
      erStatus := erStatus[key := t];
    }

    method HandleFailed(req: Key, created: Time, c: Clock) returns (r: RunnerResult)
      ensures r == if c.check - created < stuckThreshold
                   then RunnerResult(Some(stuckThreshold - (c.check - created)), None)
                   else Opens(StuckOrigin(erStatus, req, "Failed", c))
    {
      var age := c.check - created;
      if age < stuckThreshold {
        return RunnerResult(Some(stuckThreshold - age), None);
      }
      r := Opens(StuckOrigin(erStatus, req, "Failed", c));
    }

    method HandleRunning(req: Key, c: Clock) returns (r: RunnerResult)
      ensures r == match RunningDecision(At(erStatus, req), c.check, runningThreshold)
                   case RequeueAfter(d) => RunnerResult(Some(d), None)
                   case Open => Opens(StuckOrigin(erStatus, req, "Running", c))
    {
      if req !in erStatus || erStatus[req].runningSince.None? {
        return RunnerResult(Some(runningThreshold), None);
      }
      var elapsed := c.check - erStatus[req].runningSince.value;
      if elapsed < runningThreshold {
        return RunnerResult(Some(runningThreshold - elapsed), None);
      }
      r := Opens(StuckOrigin(erStatus, req, "Running", c));
    }

    /** Everything but an error of the lookup is a reading. A Running runner is reported exactly
        if, of all readings of it, the last ones were Running and nothing else, without reset of
        the tracker, since one at least the threshold ago. */
    method Reconcile(req: Key, got: RunnerGot, c: Clock) returns (r: RunnerResult)
      requires Valid()
      modifies this
      ensures Valid()
      ensures readings == if got.RunnerError? then old(readings) else old(readings) + [(req, ReadingOf(got, c))]
      ensures got.RunnerFound? && got.phase == "Running" && RunnerClocked(Of(readings, req)) ==>
        (r.open.Some? <==> exists i: nat :: RunningSince(Of(readings, req), i)
                             && Of(readings, req)[i].since + runningThreshold <= c.check)
      ensures got.RunnerFound? && got.phase == "Running" && r.open.None? ==>
        r.requeueAfter.Some? && exists i: nat ::
          && BeganAt(Of(readings, req), i)
          && c.check + r.requeueAfter.value == Of(readings, req)[i].since + runningThreshold
      ensures !got.RunnerFound? || (got.phase != "Running" && got.phase != "Failed") ==>
        r.requeueAfter.None? && r.open.None?
      ensures r.open.Some? ==>
        && got.RunnerFound? && (got.phase == "Running" || got.phase == "Failed") && r.requeueAfter.None?
        && r.open.value == RunnerStuck(req.namespace, req.name, got.phase,
                                       Squeeze(Phases(Map(SightingOf, Of(readings, req))), ""), c.at)
      ensures got.RunnerError? ==> erStatus == old(erStatus) && r == NOTHING
      ensures got.RunnerMissing? ==>
        erStatus == RunnersStep(old(erStatus), req, Reading(None, c.stamp, c.since, c.check)) && r == NOTHING
        && erStatus == old(erStatus) - {req}
      ensures got.RunnerFound? ==>
        && erStatus == RunnersStep(old(erStatus), req, Reading(Some(got.phase), c.stamp, c.since, c.check))
        && (got.phase == "Running" ==>
              r == match RunningDecision(At(erStatus, req), c.check, runningThreshold)
                   case RequeueAfter(d) => RunnerResult(Some(d), None)
                   case Open => Opens(StuckOrigin(erStatus, req, "Running", c)))
        && (got.phase == "Failed" ==>
              r == if c.check - got.created < stuckThreshold
                   then RunnerResult(Some(stuckThreshold - (c.check - got.created)), None)
                   else Opens(StuckOrigin(erStatus, req, "Failed", c)))
        && (got.phase != "Running" && got.phase != "Failed" ==> r == NOTHING)
      ensures r.open.Some? ==> Sound(r.open.value)
    {
      match got
      case RunnerError =>
        return NOTHING;
      case RunnerMissing =>
        RunnersAfterOneMore(readings, req, ReadingOf(got, c));
        readings := readings + [(req, ReadingOf(got, c))];
        erStatus := erStatus - {req};
        return NOTHING;
      case RunnerFound(phase, created) =>
        if phase == "" {
          RunnersAfterOneMore(readings, req, ReadingOf(got, c));
          readings := readings + [(req, ReadingOf(got, c))];
          assert Set(erStatus, req, At(erStatus, req)) == erStatus;
          return NOTHING;
        }
        RecordTransition(req, phase, c);
        RunnerKeysAreIndependent(readings, req);
        RunnerHistory(Of(readings, req));
        HistoryIsCompression(Map(SightingOf, Of(readings, req)));
        if phase == "Failed" {
          r := HandleFailed(req, created, c);
        } else if phase == "Running" {
          r := HandleRunning(req, c);
          RequeuesToTheStart(old(readings), req, ReadingOf(got, c), runningThreshold);
          if RunnerClocked(Of(readings, req)) {
            ReportsExactlyTheStuck(old(readings), req, ReadingOf(got, c), runningThreshold);
          }
        } else {
          r := NOTHING;
        }
    }
  }

  /** The Investigation the runner watcher opens, with the history recorded so far. */
  function StuckOrigin(m: map<Key, RunnerTracker>, req: Key, phase: string, c: Clock): Origin {
    RunnerStuck(req.namespace, req.name, phase,
                if req in m then m[req].tracker.transitions else [], c.at)
  }

  // ---------- GitHubPoller ----------

  const QUEUED_THRESHOLD: Duration := 10 * 60 * 1_000_000_000

  predicate StuckInQueue(job: GhJob, now: Time) {
    job.status == "queued" && job.startedAt.Some? && now - job.startedAt.value > QUEUED_THRESHOLD
  }

  function JobOrigins(ns: string, repo: Repo, run: GhRun, jobs: seq<GhJob>, now: Time): (r: seq<Origin>)
    ensures forall o :: o in r <==>
      exists j :: 0 <= j < |jobs| && StuckInQueue(jobs[j], now) && o == JobQueued(ns, repo, run, jobs[j], now)
  {
    if jobs == [] then []
    else
      var n := |jobs| - 1;
      var before := JobOrigins(ns, repo, run, jobs[..n], now);
      var r := before + (if StuckInQueue(jobs[n], now) then [JobQueued(ns, repo, run, jobs[n], now)] else []);
      assert forall o :: o in r <==>
        o in before || (StuckInQueue(jobs[n], now) && o == JobQueued(ns, repo, run, jobs[n], now));
      assert forall j :: 0 <= j < n ==> jobs[j] == jobs[..n][j];
      r
  }

  function RunOrigins(ns: string, repo: Repo, runs: seq<GhRun>, jobs: map<int, seq<GhJob>>, now: Time): (r: seq<Origin>)
    ensures forall o :: o in r <==>
      exists i, j :: 0 <= i < |runs| && runs[i].id in jobs && 0 <= j < |jobs[runs[i].id]|
        && StuckInQueue(jobs[runs[i].id][j], now) && o == JobQueued(ns, repo, runs[i], jobs[runs[i].id][j], now)
  {
    if runs == [] then []
    else
      var n := |runs| - 1;
      var before := RunOrigins(ns, repo, runs[..n], jobs, now);
      var last := if runs[n].id in jobs then JobOrigins(ns, repo, runs[n], jobs[runs[n].id], now) else [];
      var r := before + last;
      assert forall o :: o in r <==> o in before || o in last;
      assert forall i :: 0 <= i < n ==> runs[i] == runs[..n][i];
      r
  }

  /** A listed run in progress or queued has a listed job that has been queued for more than
      ten minutes. */
  ghost predicate QueuedTooLong(runs: map<string, seq<GhRun>>, jobs: map<int, seq<GhJob>>, now: Time,
                                status: string, i: int, j: int) {
    && (status == "in_progress" || status == "queued")
    && status in runs && 0 <= i < |runs[status]| && runs[status][i].id in jobs
    && 0 <= j < |jobs[runs[status][i].id]|
    && var job := jobs[runs[status][i].id][j];
       job.status == "queued" && job.startedAt.Some? && now - job.startedAt.value > 600_000_000_000
  }

  /** The two statuses' findings together are exactly the jobs queued for too long. */
  lemma FoundExactlyQueuedTooLong(ns: string, repo: Repo, runs: map<string, seq<GhRun>>, jobs: map<int, seq<GhJob>>,
                                  now: Time, found: seq<Origin>)
    requires var a := if "in_progress" in runs then RunOrigins(ns, repo, runs["in_progress"], jobs, now) else [];
      var b := if "queued" in runs then RunOrigins(ns, repo, runs["queued"], jobs, now) else [];
      found == a + b
    ensures forall o :: o in found <==> exists status, i, j ::
      QueuedTooLong(runs, jobs, now, status, i, j)
      && o == JobQueued(ns, repo, runs[status][i], jobs[runs[status][i].id][j], now)
  {
    var a := if "in_progress" in runs then RunOrigins(ns, repo, runs["in_progress"], jobs, now) else [];
    var b := if "queued" in runs then RunOrigins(ns, repo, runs["queued"], jobs, now) else [];
    forall o | o in found ensures exists status, i, j ::
      QueuedTooLong(runs, jobs, now, status, i, j)
      && o == JobQueued(ns, repo, runs[status][i], jobs[runs[status][i].id][j], now)
    {
      var status := if o in a then "in_progress" else "queued";
      var i, j :| 0 <= i < |runs[status]| && runs[status][i].id in jobs && 0 <= j < |jobs[runs[status][i].id]|
        && StuckInQueue(jobs[runs[status][i].id][j], now)
        && o == JobQueued(ns, repo, runs[status][i], jobs[runs[status][i].id][j], now);
      assert QueuedTooLong(runs, jobs, now, status, i, j);
    }
    forall status, i, j | QueuedTooLong(runs, jobs, now, status, i, j)
      ensures JobQueued(ns, repo, runs[status][i], jobs[runs[status][i].id][j], now) in found
    {
      var o := JobQueued(ns, repo, runs[status][i], jobs[runs[status][i].id][j], now);
      assert StuckInQueue(jobs[runs[status][i].id][j], now);
      assert o in RunOrigins(ns, repo, runs[status], jobs, now);
    }
  }

  class GitHubPoller {
    constructor () {}

    /** One poll of a repository: `runs` holds the runs per listed status, `jobs` the jobs per
        run; a listing that failed has no entry and is skipped. It finds exactly the jobs queued
        for too long, in listing order. */
    method PollRepo(ns: string, repo: Repo, runs: map<string, seq<GhRun>>, jobs: map<int, seq<GhJob>>, now: Time)
      returns (found: seq<Origin>)
      ensures var a := if "in_progress" in runs then RunOrigins(ns, repo, runs["in_progress"], jobs, now) else [];
        var b := if "queued" in runs then RunOrigins(ns, repo, runs["queued"], jobs, now) else [];
        found == a + b
      ensures forall o :: o in found <==> exists status, i, j ::
        QueuedTooLong(runs, jobs, now, status, i, j)
        && o == JobQueued(ns, repo, runs[status][i], jobs[runs[status][i].id][j], now)
      ensures forall i :: 0 <= i < |found| ==> Sound(found[i])
    {
      found := [];
      var statuses := ["in_progress", "queued"];
      var s := 0;
      while s < 2
        invariant 0 <= s <= 2
        invariant var a := if "in_progress" in runs then RunOrigins(ns, repo, runs["in_progress"], jobs, now) else [];
          var b := if "queued" in runs then RunOrigins(ns, repo, runs["queued"], jobs, now) else [];
          found == (if s == 0 then [] else if s == 1 then a else a + b)
      {
        if statuses[s] in runs {
          var more := PollRuns(ns, repo, runs[statuses[s]], jobs, now);
          found := found + more;
        }
        s := s + 1;
      }
      FoundExactlyQueuedTooLong(ns, repo, runs, jobs, now, found);
      forall i | 0 <= i < |found| ensures Sound(found[i]) {
        assert found[i] in found;
      }
    }

    method PollRuns(ns: string, repo: Repo, runs: seq<GhRun>, jobs: map<int, seq<GhJob>>, now: Time)
      returns (found: seq<Origin>)
      ensures found == RunOrigins(ns, repo, runs, jobs, now)
    {
      found := [];
      for i := 0 to |runs|
        invariant found == RunOrigins(ns, repo, runs[..i], jobs, now)
      {
        var id := runs[i].id;
        assert runs[..i + 1][..i] == runs[..i];
        if id in jobs {
          ghost var before := found;
          for j := 0 to |jobs[id]|
            invariant found == before + JobOrigins(ns, repo, runs[i], jobs[id][..j], now)
          {
            assert jobs[id][..j + 1][..j] == jobs[id][..j];
            if StuckInQueue(jobs[id][j], now) {
              found := found + [JobQueued(ns, repo, runs[i], jobs[id][j], now)];
            }
          }
          assert jobs[id][..|jobs[id]|] == jobs[id];
        }
      }
      assert runs[..|runs|] == runs;
    }
  }
}
