/** What a Correlator pass finds, in the fields of the listings and of the spec it writes. */
module PassResults {
  import opened Api
  import opened Origins
  import opened Classifier
  import opened Sorting
  import opened Correlation

  // ---------- snapshots ----------

  /** A container status shows the container's one state. */
  predicate ShowsContainer(st: ContainerStatus, c: Container) {
    && st.name == c.name && st.restartCount == c.restartCount
    && (c.state.Waiting? ==> st.state == "waiting" && st.reason == c.state.reason)
    && (c.state.Running? ==> st.state == "running" && st.reason == "")
    && (c.state.Terminated? ==>
          st.state == "terminated" && st.reason == c.state.reason && st.exitCode == Some(c.state.exitCode))
    && (!c.state.Terminated? ==> st.exitCode.None?)
    && (st.oomKilled <==> c.state.Terminated? && c.state.reason == "OOMKilled")
  }

  /** The snapshot shows the pod and has no events yet. */
  predicate ShowsPod(info: PodInfo, pod: Pod) {
    && info.name == pod.name && info.namespace == pod.namespace
    && info.phase == pod.phase && info.nodeName == pod.nodeName
    && info.conditions == pod.conditions
    && |info.containerStatuses| == |pod.statuses|
    && forall i :: 0 <= i < |pod.statuses| ==> ShowsContainer(info.containerStatuses[i], pod.statuses[i])
  }

  lemma SnapshotShows(pod: Pod, history: seq<Transition>)
    ensures ShowsPod(Snapshot(pod, history), pod)
    ensures Snapshot(pod, history).phaseHistory == history && Snapshot(pod, history).events == []
  {
  }

  // ---------- runner ----------

  /** The first listed EphemeralRunner that carries the job's runner name. */
  ghost predicate FirstNamed(ers: seq<RunnerObject>, name: string, i: nat) {
    i < |ers| && ers[i].runnerName == name && forall j :: 0 <= j < i ==> ers[j].runnerName != name
  }

  /** A known runner stays. An unknown one is taken from the first object in the Investigation's
      namespace whose status carries the job's runner name, if the job has one. */
  lemma PassFindsRunner(s: Spec, ns: string, w: World, gh: bool, out: Spec)
    requires Correlated(s, ns, w, gh, out)
    ensures s.runner.Some? ==> out.runner == s.runner
    ensures s.runner.None? && out.runner.Some? ==>
      && s.job.Some? && s.job.value.runnerName != "" && ns in w.runners
      && exists i: nat :: FirstNamed(w.runners[ns], s.job.value.runnerName, i)
           && out.runner.value.name == w.runners[ns][i].name
           && out.runner.value.namespace == w.runners[ns][i].namespace
           && out.runner.value.phase == w.runners[ns][i].phase
           && out.runner.value.statusHistory == []
    ensures s.runner.None? && out.runner.None? && s.job.Some? && s.job.value.runnerName != "" && ns in w.runners ==>
      forall i :: 0 <= i < |w.runners[ns]| ==> w.runners[ns][i].runnerName != s.job.value.runnerName
  {
    if s.runner.None? && s.job.Some? && s.job.value.runnerName != "" && ns in w.runners {
      var name := s.job.value.runnerName;
      var i := FirstIndex(w.runners[ns], (er: RunnerObject) => er.runnerName == name);
      assert i < |w.runners[ns]| ==> FirstNamed(w.runners[ns], name, i);
    }
  }

  // ---------- pod ----------

  /** The first listed pod that has the runner's name or an owner of that name. */
  ghost predicate FirstOfRunner(pods: seq<Pod>, name: string, i: nat) {
    && i < |pods| && (pods[i].name == name || name in pods[i].owners)
    && forall j :: 0 <= j < i ==> pods[j].name != name && name !in pods[j].owners
  }

  /** A known pod snapshot stays, but for its events. An unknown one is taken of the first pod
      of the runner in the runner's namespace. */
  lemma PassFindsPod(s: Spec, ns: string, w: World, gh: bool, out: Spec)
    requires Correlated(s, ns, w, gh, out)
    ensures s.pod.Some? ==> out.pod.Some? && s.pod.value == out.pod.value.(events := s.pod.value.events)
    ensures s.pod.None? && out.pod.Some? ==>
      && out.runner.Some? && out.runner.value.namespace in w.pods
      && var pods := w.pods[out.runner.value.namespace];
      && out.pod.value.phaseHistory == []
      && exists i: nat :: FirstOfRunner(pods, out.runner.value.name, i) && ShowsPod(out.pod.value, pods[i])
    ensures s.pod.None? && out.pod.None? && out.runner.Some? && out.runner.value.namespace in w.pods ==>
      var pods := w.pods[out.runner.value.namespace];
      forall i :: 0 <= i < |pods| ==> pods[i].name != out.runner.value.name && out.runner.value.name !in pods[i].owners
  {
    var e := Enriched(s, ns, w, gh);
    EnrichedKeeps(s, ns, w, gh);
    if s.pod.None? {
      PodIsFound(WithRunner(s, ns, w), w);
      PodIsOfRunner(s, ns, w, gh);
    }
  }

  /** Apart from its events, the pod of the spec is what the search in the cluster gave. */
  lemma PodIsOfRunner(s: Spec, ns: string, w: World, gh: bool)
    requires s.pod.None?
    ensures var e, s1 := Enriched(s, ns, w, gh), WithPod(WithRunner(s, ns, w), w);
      && e.runner == WithRunner(s, ns, w).runner
      && e.pod.Some? == s1.pod.Some?
      && (s1.pod.Some? ==> s1.pod.value == e.pod.value.(events := s1.pod.value.events))
  {
  }

  lemma PodIsFound(s: Spec, w: World)
    requires s.pod.None?
    ensures var found := WithPod(s, w).pod;
      if found.Some? then
        && s.runner.Some? && s.runner.value.namespace in w.pods && found.value.phaseHistory == []
        && exists i: nat :: FirstOfRunner(w.pods[s.runner.value.namespace], s.runner.value.name, i)
             && ShowsPod(found.value, w.pods[s.runner.value.namespace][i])
      else s.runner.Some? && s.runner.value.namespace in w.pods ==>
        forall p :: p in w.pods[s.runner.value.namespace] ==>
          p.name != s.runner.value.name && s.runner.value.name !in p.owners
  {
    if s.runner.Some? && s.runner.value.namespace in w.pods {
      var name, pods := s.runner.value.name, w.pods[s.runner.value.namespace];
      var i := FirstIndex(pods, (p: Pod) => PodBelongsTo(p, name));
      if i < |pods| {
        assert FirstOfRunner(pods, name, i);
        SnapshotShows(pods[i], []);
        assert ShowsPod(WithPod(s, w).pod.value, pods[i]);
      }
    }
  }

  // ---------- job ----------

  /** The job and the run are those of the position. */
  predicate ShowsJobAt(out: Spec, w: World, q: Position)
    requires Listed(w, q)
  {
    ShowsJob(out, RepoAt(w, q), RunAt(w, q), JobAt(w, q))
  }

  /** The spec shows the job and the run, field by field. */
  predicate ShowsJob(out: Spec, repo: Repo, run: GhRun, job: GhJob) {
    && out.job.Some? && out.workflowRun.Some?
    && out.job.value.id == job.id && out.job.value.name == job.name
    && out.job.value.status == job.status && out.job.value.conclusion == job.conclusion
    && out.job.value.runnerName == job.runnerName
    && out.job.value.startedAt == job.startedAt && out.job.value.completedAt == job.completedAt
    && out.job.value.steps == job.steps
    && out.workflowRun.value.id == run.id && out.workflowRun.value.name == run.name
    && out.workflowRun.value.status == run.status && out.workflowRun.value.conclusion == run.conclusion
    && out.workflowRun.value.htmlURL == run.htmlURL
    && out.workflowRun.value.repository == repo.owner + "/" + repo.name
  }

  /** With a GitHub client, a pass over an Investigation without job takes job and run from the
      first listed job that ran on the runner. Otherwise both stay as they were. */
  lemma PassFindsJob(s: Spec, ns: string, w: World, gh: bool, out: Spec)
    requires Correlated(s, ns, w, gh, out)
    ensures gh && s.job.None? && out.runner.Some? && (exists p :: Hit(w, out.runner.value.name, p)) ==>
      exists q :: FirstHit(w, out.runner.value.name, q) && ShowsJobAt(out, w, q)
    ensures !(gh && s.job.None? && out.runner.Some? && exists p :: Hit(w, out.runner.value.name, p)) ==>
      out.job == s.job && out.workflowRun == s.workflowRun
  {
    var s1 := BeforeGitHub(s, ns, w, gh, out);
    GitHubFinds(s1, w);
    if q :| (gh && s.job.None? && out.runner.Some?
             && FirstHit(w, out.runner.value.name, q) && ShowsJobAt(WithGitHub(s1, w), w, q))
    {
      assert ShowsJobAt(out, w, q);
    }
  }

  /** The spec a pass has before it asks GitHub. */
  lemma BeforeGitHub(s: Spec, ns: string, w: World, gh: bool, out: Spec) returns (s1: Spec)
    requires Correlated(s, ns, w, gh, out)
    ensures s1.runner == out.runner && s1.job == s.job && s1.workflowRun == s.workflowRun
    ensures var s2 := if s.job.None? && gh then WithGitHub(s1, w) else s1;
      out.job == s2.job && out.workflowRun == s2.workflowRun
  {
    s1 := AfterK8s(s, ns, w);
  }

  lemma GitHubFinds(s1: Spec, w: World)
    ensures s1.runner.Some? && (exists p :: Hit(w, s1.runner.value.name, p)) ==>
      exists q :: FirstHit(w, s1.runner.value.name, q) && ShowsJobAt(WithGitHub(s1, w), w, q)
    ensures !(s1.runner.Some? && exists p :: Hit(w, s1.runner.value.name, p)) ==> WithGitHub(s1, w) == s1
  {
    if s1.runner.Some? {
      var name := s1.runner.value.name;
      if p :| Hit(w, name, p) {
        SomeHitIsFirst(w, name, p);
        var q :| FirstHit(w, name, q) && WithGitHub(s1, w) == JobFrom(s1, w, q);
        assert ShowsJobAt(WithGitHub(s1, w), w, q);
      }
    }
  }

  // ---------- events ----------

  /** The snapshot of an event and the timeline entry for it. */
  predicate ShowsEvent(x: EventSnapshot, t: TimelineEvent, e: KubeEvent) {
    && x.kind == e.kind && x.reason == e.reason && x.message == e.message && x.count == e.count
    && x.source == e.component && x.firstSeen == e.first && x.lastSeen == e.last
    && t.timestamp == e.last && t.source == "event" && t.kind == e.reason
    && t.message == "[" + e.component + "] " + e.message
  }

  /** The events listed for a pod, none if the listing failed. */
  function ListedEvents(w: World, pod: PodInfo): seq<KubeEvent> {
    if (pod.namespace, pod.name) in w.events then w.events[(pod.namespace, pod.name)] else []
  }

  /** A snapshot without events gets all that are listed for its pod, in order, and the timeline
      gains one entry for each, by the last time it was seen; otherwise neither gains any. */
  lemma PassCollectsEvents(s: Spec, ns: string, w: World, gh: bool, out: Spec) returns (added: seq<TimelineEvent>)
    requires Correlated(s, ns, w, gh, out)
    ensures ByTime(out.timeline) && multiset(out.timeline) == multiset(s.timeline + added)
    ensures out.pod.Some? && (s.pod.None? || s.pod.value.events == []) ==>
      var es := ListedEvents(w, out.pod.value);
      && |added| == |es| == |out.pod.value.events|
      && forall i :: 0 <= i < |es| ==> ShowsEvent(out.pod.value.events[i], added[i], es[i])
    ensures out.pod.None? ==> added == []
    ensures s.pod.Some? && s.pod.value.events != [] ==> added == [] && out.pod.value.events == s.pod.value.events
  {
    var s2 := BeforeEvents(s, ns, w, gh, out);
    added := [];
    if s2.pod.Some? && s2.pod.value.events == [] {
      added := EventsAreAdded(s2, w);
    } else {
      assert s.timeline + added == s.timeline;
    }
  }

  /** The spec a pass has before it collects events. */
  lemma BeforeEvents(s: Spec, ns: string, w: World, gh: bool, out: Spec) returns (s2: Spec)
    requires Correlated(s, ns, w, gh, out)
    ensures var e := if s2.pod.Some? && s2.pod.value.events == [] then WithEvents(s2, w) else s2;
      out.pod == e.pod && ByTime(out.timeline) && multiset(out.timeline) == multiset(e.timeline)
    ensures s2.timeline == s.timeline && (s.pod.Some? ==> s2.pod == s.pod)
    ensures s.pod.None? && s2.pod.Some? ==> s2.pod.value.events == []
  {
    var s1 := AfterK8s(s, ns, w);
    s2 := if s1.job.None? && gh then WithGitHub(s1, w) else s1;
  }

  lemma EventsAreAdded(s2: Spec, w: World) returns (added: seq<TimelineEvent>)
    requires s2.pod.Some? && s2.pod.value.events == []
    ensures var out := WithEvents(s2, w);
      && out.timeline == s2.timeline + added && out.pod.Some?
      && out.pod.value.name == s2.pod.value.name && out.pod.value.namespace == s2.pod.value.namespace
      && var es := ListedEvents(w, s2.pod.value);
      && |added| == |es| == |out.pod.value.events|
      && forall i :: 0 <= i < |es| ==> ShowsEvent(out.pod.value.events[i], added[i], es[i])
  {
    var es := EventsFor(s2.pod.value, w);
    added := Map(TimelineEventOf, es);
    assert s2.pod.value.events + Map(EventSnapshotOf, es) == Map(EventSnapshotOf, es);
  }

  // ---------- diagnosis ----------

  /** A diagnosis stays; without one, the pass diagnoses the very spec it writes. */
  lemma PassDiagnosesWhatItWrites(s: Spec, ns: string, w: World, gh: bool, out: Spec)
    requires Correlated(s, ns, w, gh, out)
    ensures s.diagnosis.Some? ==> out.diagnosis == s.diagnosis
    ensures s.diagnosis.None? ==> out.diagnosis == Some(Diagnose(out))
    ensures out.trigger == s.trigger && out.logPaths == s.logPaths
  {
    var e := Enriched(s, ns, w, gh);
    EnrichedKeeps(s, ns, w, gh);
    OnlyEvidenceCounts(e, out.timeline, out.diagnosis);
  }
}
