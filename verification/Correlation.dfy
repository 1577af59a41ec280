/** One Correlator pass over an Investigation, as a relation between the spec it read
    and the spec it writes. */
module Correlation {
  import opened Api
  import opened Origins
  import opened Classifier
  import opened Sorting

  // ---------- EphemeralRunner and pod ----------

  function RunnerInfoOf(er: RunnerObject): RunnerInfo {
    RunnerInfo(er.name, er.namespace, er.phase, [])
  }

  predicate PodBelongsTo(pod: Pod, runner: string) {
    pod.name == runner || runner in pod.owners
  }

  function WithRunner(spec: Spec, ns: string, w: World): Spec {
    if spec.job.Some? && spec.job.value.runnerName != "" && spec.runner.None? && ns in w.runners then
      var name := spec.job.value.runnerName;
      var i := FirstIndex(w.runners[ns], (er: RunnerObject) => er.runnerName == name);
      if i < |w.runners[ns]| then spec.(runner := Some(RunnerInfoOf(w.runners[ns][i]))) else spec
    else spec
  }

  function WithPod(spec: Spec, w: World): Spec {
    if spec.runner.Some? && spec.pod.None? && spec.runner.value.namespace in w.pods then
      var name := spec.runner.value.name;
      var pods := w.pods[spec.runner.value.namespace];
      var i := FirstIndex(pods, (p: Pod) => PodBelongsTo(p, name));
      if i < |pods| then spec.(pod := Some(Snapshot(pods[i], []))) else spec
    else spec
  }

  function WithK8s(spec: Spec, ns: string, w: World): Spec {
    WithPod(WithRunner(spec, ns, w), w)
  }

  /** The spec after the Kubernetes search, which a pass skips when both halves are known. */
  function AfterK8s(spec: Spec, ns: string, w: World): Spec {
    if spec.runner.None? || spec.pod.None? then WithK8s(spec, ns, w) else spec
  }

  // ---------- GitHub ----------

  /** A job's place in the nested listings: config, repository, run, job. */
  datatype Position = Position(config: nat, repo: nat, run: nat, job: nat)

  predicate Before(p: Position, q: Position) {
    || p.config < q.config
    || (p.config == q.config && p.repo < q.repo)
    || (p.config == q.config && p.repo == q.repo && p.run < q.run)
    || (p.config == q.config && p.repo == q.repo && p.run == q.run && p.job < q.job)
  }

  /** The position denotes a job that successful listings show. */
  predicate Listed(w: World, p: Position) {
    && w.configs.Some?
    && p.config < |w.configs.value|
    && p.repo < |w.configs.value[p.config]|
    && var repo := w.configs.value[p.config][p.repo];
    && repo in w.runs
    && p.run < |w.runs[repo]|
    && (repo, w.runs[repo][p.run].id) in w.jobs
    && p.job < |w.jobs[(repo, w.runs[repo][p.run].id)]|
  }

  function RepoAt(w: World, p: Position): Repo requires Listed(w, p) {
    w.configs.value[p.config][p.repo]
  }

  function RunAt(w: World, p: Position): GhRun requires Listed(w, p) {
    w.runs[RepoAt(w, p)][p.run]
  }

  function JobAt(w: World, p: Position): GhJob requires Listed(w, p) {
    w.jobs[(RepoAt(w, p), RunAt(w, p).id)][p.job]
  }

  predicate Hit(w: World, runner: string, p: Position) {
    Listed(w, p) && JobAt(w, p).runnerName == runner
  }

  ghost predicate FirstHit(w: World, runner: string, p: Position) {
    Hit(w, runner, p) && forall q :: Before(q, p) ==> !Hit(w, runner, q)
  }

  /** If any listed job ran on the runner, there is a first one. */
  lemma {:induction false} SomeHitIsFirst(w: World, runner: string, p: Position)
    requires Hit(w, runner, p)
    ensures exists q :: FirstHit(w, runner, q)
    decreases p.config, p.repo, p.run, p.job
  {
    if !FirstHit(w, runner, p) {
      var q :| Before(q, p) && Hit(w, runner, q);
      SomeHitIsFirst(w, runner, q);
    }
  }

  lemma FirstHitIsUnique(w: World, runner: string, p: Position, q: Position)
    requires FirstHit(w, runner, p) && FirstHit(w, runner, q)
    ensures p == q
  {
    assert Before(p, q) || Before(q, p) || p == q;
  }

  function JobFrom(spec: Spec, w: World, p: Position): Spec
    requires Listed(w, p)
  {
    spec.(workflowRun := Some(RunOf(RepoAt(w, p), RunAt(w, p))), job := Some(JobOf(JobAt(w, p))))
  }

  /** The spec after the search for the runner's job. */
  ghost function WithGitHub(spec: Spec, w: World): Spec {
    if spec.runner.Some? && exists p :: FirstHit(w, spec.runner.value.name, p) then
      var p :| FirstHit(w, spec.runner.value.name, p);
      JobFrom(spec, w, p)
    else spec
  }

  // ---------- events ----------

  function EventSnapshotOf(e: KubeEvent): EventSnapshot {
    EventSnapshot(e.kind, e.reason, e.message, e.count, e.component, e.first, e.last)
  }

  function TimelineEventOf(e: KubeEvent): TimelineEvent {
    TimelineEvent(e.last, "event", e.reason, "[" + e.component + "] " + e.message)
  }

  function EventsFor(pod: PodInfo, w: World): seq<KubeEvent> {
    if (pod.namespace, pod.name) in w.events then w.events[(pod.namespace, pod.name)] else []
  }

  function AddEvents(spec: Spec, es: seq<KubeEvent>): Spec
    requires spec.pod.Some?
  {
    var pod := spec.pod.value;
    spec.(pod := Some(pod.(events := pod.events + Map(EventSnapshotOf, es))),
          timeline := spec.timeline + Map(TimelineEventOf, es))
  }

  function WithEvents(spec: Spec, w: World): Spec
    requires spec.pod.Some?
  {
    AddEvents(spec, EventsFor(spec.pod.value, w))
  }

  lemma AddNoEvents(spec: Spec)
    requires spec.pod.Some?
    ensures AddEvents(spec, []) == spec
  {
    assert spec.pod.value.events + [] == spec.pod.value.events;
    assert spec.timeline + [] == spec.timeline;
  }

  lemma AddOneEvent(spec: Spec, es: seq<KubeEvent>, e: KubeEvent)
    requires spec.pod.Some?
    ensures AddEvents(spec, es + [e]) == AddEvents(AddEvents(spec, es), [e])
  {
    assert Map(EventSnapshotOf, es + [e]) == Map(EventSnapshotOf, es) + Map(EventSnapshotOf, [e]);
    assert Map(TimelineEventOf, es + [e]) == Map(TimelineEventOf, es) + Map(TimelineEventOf, [e]);
    var pod := spec.pod.value;
    assert pod.events + Map(EventSnapshotOf, es + [e])
        == pod.events + Map(EventSnapshotOf, es) + Map(EventSnapshotOf, [e]);
    assert spec.timeline + Map(TimelineEventOf, es + [e])
        == spec.timeline + Map(TimelineEventOf, es) + Map(TimelineEventOf, [e]);
  }

  // ---------- the pass ----------

  ghost function Enriched(spec: Spec, ns: string, w: World, gh: bool): Spec {
    var s1 := AfterK8s(spec, ns, w);
    var s2 := if s1.job.None? && gh then WithGitHub(s1, w) else s1;
    if s2.pod.Some? && s2.pod.value.events == [] then WithEvents(s2, w) else s2
  }

  /** `out` is what a pass may write for `spec`: evidence added, timeline sorted by an
      unstable sort, a diagnosis set unless there was one. */
  ghost predicate Correlated(spec: Spec, ns: string, w: World, gh: bool, out: Spec) {
    var e := Enriched(spec, ns, w, gh);
    && ByTime(out.timeline)
    && multiset(out.timeline) == multiset(e.timeline)
    && out == e.(timeline := out.timeline,
                 diagnosis := Some(if e.diagnosis.Some? then e.diagnosis.value else Diagnose(e)))
  }

  // ---------- a pass leaves these alone ----------

  lemma EnrichedKeeps(spec: Spec, ns: string, w: World, gh: bool)
    ensures var e := Enriched(spec, ns, w, gh);
      && e.trigger == spec.trigger && e.diagnosis == spec.diagnosis && e.logPaths == spec.logPaths
      && spec.timeline <= e.timeline
      && (spec.runner.Some? ==> e.runner == spec.runner)
      && (spec.job.Some? ==> e.job == spec.job && e.workflowRun == spec.workflowRun)
      && (spec.pod.Some? ==> e.pod.Some? && e.pod == Some(spec.pod.value.(events := e.pod.value.events)))
      && (spec.runner.None? && spec.job.None? ==> e.runner.None? && e.job.None? && e.workflowRun == spec.workflowRun)
      && (spec.runner.None? && e.runner.Some? ==> spec.job.Some?)
      && (e.runner.None? ==> e.pod.Some? == spec.pod.Some?)
  {
  }

  lemma TimelineGrows(spec: Spec, ns: string, w: World, gh: bool, out: Spec)
    requires Correlated(spec, ns, w, gh, out)
    ensures multiset(spec.timeline) <= multiset(out.timeline)
  {
    var e := Enriched(spec, ns, w, gh);
    EnrichedKeeps(spec, ns, w, gh);
    assert e.timeline == spec.timeline + e.timeline[|spec.timeline|..];
  }

  // ---------- a second pass finds nothing new ----------

  lemma WithGitHubNoHit(spec: Spec, w: World)
    requires spec.runner.Some?
    requires WithGitHub(spec, w).job.None?
    ensures forall p :: !Hit(w, spec.runner.value.name, p)
  {
    forall p ensures !Hit(w, spec.runner.value.name, p) {
      if Hit(w, spec.runner.value.name, p) {
        SomeHitIsFirst(w, spec.runner.value.name, p);
      }
    }
  }

  lemma K8sSettles(spec: Spec, ns: string, w: World, t: Spec)
    requires var s := AfterK8s(spec, ns, w);
      && t.runner == s.runner && t.pod.Some? == s.pod.Some?
      && (s.runner.None? ==> t.job == spec.job)
    ensures AfterK8s(t, ns, w) == t
  {
    assert WithRunner(t, ns, w) == t;
    assert WithPod(t, w) == t;
  }

  lemma GitHubSettles(s: Spec, w: World, t: Spec)
    requires t.runner == s.runner && t.job.None?
    requires WithGitHub(s, w).job.None?
    ensures WithGitHub(t, w) == t
  {
    if s.runner.Some? {
      WithGitHubNoHit(s, w);
    }
  }

  lemma EnrichedTwice(spec: Spec, ns: string, w: World, gh: bool, timeline: seq<TimelineEvent>, d: Option<Diagnosis>)
    ensures var again := Enriched(spec, ns, w, gh).(timeline := timeline, diagnosis := d);
      Enriched(again, ns, w, gh) == again
  {
    var s1 := AfterK8s(spec, ns, w);
    var s2 := if s1.job.None? && gh then WithGitHub(s1, w) else s1;
    var again := Enriched(spec, ns, w, gh).(timeline := timeline, diagnosis := d);
    assert again.runner == s1.runner && again.job == s2.job && again.pod.Some? == s1.pod.Some?;
    K8sSettles(spec, ns, w, again);
    if again.job.None? && gh {
      GitHubSettles(s1, w, again);
    }
    if again.pod.Some? && again.pod.value.events == [] {
      AddNoEvents(again);
    }
  }

  function Times(t: seq<TimelineEvent>): (r: seq<Time>) {
    Map((e: TimelineEvent) => e.timestamp, t)
  }

  lemma TimesOfConcat(a: seq<TimelineEvent>, b: seq<TimelineEvent>)
    ensures Times(a + b) == Times(a) + Times(b)
  {
  }

  lemma DropShared<T>(x: T, a: seq<T>, b0: seq<T>, b1: seq<T>)
    requires multiset([x] + a) == multiset(b0 + ([x] + b1))
    ensures multiset(a) == multiset(b0 + b1)
  {
    var ma, m0, m1 := multiset(a), multiset(b0), multiset(b1);
    assert multiset([x] + a) == multiset{x} + ma;
    assert multiset(b0 + ([x] + b1)) == m0 + (multiset{x} + m1);
    assert multiset(b0 + b1) == m0 + m1;
    forall y ensures ma[y] == (m0 + m1)[y] {
      assert (multiset{x} + ma)[y] == (m0 + (multiset{x} + m1))[y];
    }
  }

  lemma {:induction false} TimesDetermined(a: seq<TimelineEvent>, b: seq<TimelineEvent>)
    requires multiset(a) == multiset(b)
    ensures multiset(Times(a)) == multiset(Times(b))
  {
    if a == [] {
      assert |multiset(b)| == 0;
      assert b == [];
    } else {
      assert a[0] in multiset(b);
      var j :| 0 <= j < |b| && b[j] == a[0];
      var x, a1, b0, b1 := [a[0]], a[1..], b[..j], b[j + 1..];
      assert a == x + a1 && b == b0 + (x + b1);
      DropShared(a[0], a1, b0, b1);
      TimesDetermined(a1, b0 + b1);
      TimesOfConcat(x, a1);
      TimesOfConcat(b0, x + b1);
      TimesOfConcat(x, b1);
      TimesOfConcat(b0, b1);
    }
  }

  lemma {:induction false} SortedTimesAreEqual(a: seq<Time>, b: seq<Time>)
    requires multiset(a) == multiset(b)
    requires forall i, j :: 0 <= i < j < |a| ==> a[i] <= a[j]
    requires forall i, j :: 0 <= i < j < |b| ==> b[i] <= b[j]
    ensures a == b
  {
    if a == [] {
      assert |multiset(b)| == 0;
    } else {
      assert a[0] in multiset(b) && |multiset(b)| > 0;
      assert b[0] in multiset(a);
      assert a == [a[0]] + a[1..] && b == [b[0]] + b[1..];
      assert a[0] == b[0];
      assert multiset(a[1..]) == multiset(a) - multiset{a[0]};
      assert multiset(b[1..]) == multiset(b) - multiset{b[0]};
      SortedTimesAreEqual(a[1..], b[1..]);
    }
  }

  /** For fixed listings a pass reaches a fixpoint: repeated on its own result it writes the
      same spec, but for the order of timeline entries that carry the same timestamp. */
  lemma SecondPassAddsNothing(spec: Spec, ns: string, w: World, gh: bool, out: Spec, again: Spec)
    requires Correlated(spec, ns, w, gh, out)
    requires Correlated(out, ns, w, gh, again)
    ensures again == out.(timeline := again.timeline)
    ensures multiset(again.timeline) == multiset(out.timeline)
    ensures |again.timeline| == |out.timeline|
    ensures forall i :: 0 <= i < |out.timeline| ==> again.timeline[i].timestamp == out.timeline[i].timestamp
  {
    EnrichedTwice(spec, ns, w, gh, out.timeline, out.diagnosis);
    assert Enriched(out, ns, w, gh) == out;
    TimesDetermined(again.timeline, out.timeline);
    SortedTimesAreEqual(Times(again.timeline), Times(out.timeline));
    assert forall i :: 0 <= i < |out.timeline| ==>
      again.timeline[i].timestamp == Times(again.timeline)[i] && out.timeline[i].timestamp == Times(out.timeline)[i];
  }

  /** When the log appender replaces the pod snapshot between two passes, the second pass
      adds exactly one more copy of the pod's events to the timeline: none is added if and
      only if the event listing is empty. */
  lemma AppendBetweenPassesRepeatsEvents(
    spec: Spec, ns: string, w: World, gh: bool, out: Spec, o: Origin, again: Spec)
    requires Correlated(spec, ns, w, gh, out)
    requires o.PodDeletion? && out.pod.Some?
    requires Correlated(AppendedSpec(out, o), ns, w, gh, again)
    ensures var es := EventsFor(Snapshot(o.pod, o.history), w);
      && multiset(again.timeline) == multiset(out.timeline) + multiset(Map(TimelineEventOf, es))
      && (multiset(again.timeline) == multiset(out.timeline) <==> es == [])
    ensures again.diagnosis == out.diagnosis && again.logPaths == out.logPaths + o.paths
    ensures again.runner == out.runner && again.job == out.job && again.workflowRun == out.workflowRun
  {
    var mid := AppendedSpec(out, o);
    var es := EventsFor(mid.pod.value, w);
    var more := Map(TimelineEventOf, es);
    NothingElseToFind(spec, ns, w, gh, mid);
    assert WithEvents(mid, w).timeline == out.timeline + more;
    assert multiset(again.timeline) == multiset(out.timeline + more);
    assert multiset(out.timeline + more) == multiset(out.timeline) + multiset(more);
    assert |multiset(more)| == |es|;
    assert |multiset(again.timeline)| == |out.timeline| + |es|;
    assert |multiset(out.timeline)| == |out.timeline|;
  }

  /** With the runner and job a pass has settled, and a pod snapshot without events, another
      pass only collects events. */
  lemma NothingElseToFind(spec: Spec, ns: string, w: World, gh: bool, mid: Spec)
    requires var e := Enriched(spec, ns, w, gh);
      mid.runner == e.runner && mid.job == e.job && e.pod.Some? && mid.pod.Some? && mid.pod.value.events == []
    ensures Enriched(mid, ns, w, gh) == WithEvents(mid, w)
  {
    var s1 := AfterK8s(spec, ns, w);
    assert mid.runner == s1.runner && (s1.runner.None? ==> mid.job == spec.job);
    K8sSettles(spec, ns, w, mid);
    if mid.job.None? && gh {
      GitHubSettles(s1, w, mid);
    }
  }

  // ---------- the diagnosis by origin ----------

  const POD_TYPES: set<string> := {"pod-oomkilled", "pod-crashed", "pod-stuck-terminating", "pod-init-timeout"}

  /** A pod-triggered Investigation: no runner, no job, and if diagnosed a pod-* type or unknown. */
  predicate PodTriggered(s: Spec) {
    && s.runner.None? && s.job.None? && s.workflowRun.None? && s.pod.Some?
    && (s.diagnosis.Some? ==> s.diagnosis.value.failureType in POD_TYPES + {"unknown"})
  }

  /** A runner-triggered one: if diagnosed, then as the phase its runner was reported in, unless
      a pod type ranks higher. */
  predicate RunnerTriggered(s: Spec) {
    && s.trigger.kind == "runner-stuck"
    && s.runner.Some? && (s.runner.value.phase == "Running" || s.runner.value.phase == "Failed")
    && (s.diagnosis.Some? ==>
          s.diagnosis.value.failureType in POD_TYPES
            + {if s.runner.value.phase == "Failed" then "runner-stuck-failed" else "runner-stuck-running"})
  }

  /** A job-triggered one: without a runner it has no pod, and its diagnosis is job-stuck-queued. */
  predicate JobTriggered(s: Spec) {
    && JobStatusIs(s.job, "queued")
    && (s.runner.None? ==> s.pod.None?)
    && (s.runner.None? && s.diagnosis.Some? ==> s.diagnosis.value.failureType == "job-stuck-queued")
  }

  /** The timeline has an entry for what opened the Investigation; a log collection leaves none. */
  predicate ShowsTrigger(s: Spec) {
    s.trigger.kind != "pod-deletion" ==> exists e :: e in s.timeline && e.kind == s.trigger.kind
  }

  lemma PassShowsTrigger(s: Spec, ns: string, w: World, gh: bool, out: Spec)
    requires Correlated(s, ns, w, gh, out) && ShowsTrigger(s)
    ensures ShowsTrigger(out)
  {
    EnrichedKeeps(s, ns, w, gh);
    TimelineGrows(s, ns, w, gh, out);
    if s.trigger.kind != "pod-deletion" {
      var e :| e in s.timeline && e.kind == s.trigger.kind;
      assert e in multiset(s.timeline);
      assert e in multiset(out.timeline);
    }
  }

  lemma PassKeepsPodTriggered(s: Spec, ns: string, w: World, gh: bool, out: Spec)
    requires Correlated(s, ns, w, gh, out) && PodTriggered(s)
    ensures PodTriggered(out) && out.diagnosis.Some?
  {
    EnrichedKeeps(s, ns, w, gh);
    DiagnosisMatchesEvidence(Enriched(s, ns, w, gh));
  }

  lemma PassKeepsRunnerTriggered(s: Spec, ns: string, w: World, gh: bool, out: Spec)
    requires Correlated(s, ns, w, gh, out) && RunnerTriggered(s)
    ensures RunnerTriggered(out) && out.diagnosis.Some? && out.runner == s.runner
  {
    EnrichedKeeps(s, ns, w, gh);
    DiagnosisInFields(Enriched(s, ns, w, gh));
  }

  predicate SaysJobStuck(s: Spec) {
    s.diagnosis.Some? && s.diagnosis.value.failureType == "job-stuck-queued"
  }

  /** No runner is known yet, and the pass lists one that carries the job's runner name. */
  predicate MatchesARunner(s: Spec, ns: string, w: World) {
    && s.runner.None? && s.job.Some? && s.job.value.runnerName != "" && ns in w.runners
    && exists i :: 0 <= i < |w.runners[ns]| && w.runners[ns][i].runnerName == s.job.value.runnerName
  }

  /** A pass ends without a runner exactly when there was none and it matches none. */
  lemma MatchDecidesRunner(s: Spec, ns: string, w: World, gh: bool)
    ensures Enriched(s, ns, w, gh).runner.None? <==> s.runner.None? && !MatchesARunner(s, ns, w)
  {
    if s.runner.None? && s.job.Some? && ns in w.runners {
      var name := s.job.value.runnerName;
      var i := FirstIndex(w.runners[ns], (er: RunnerObject) => er.runnerName == name);
      assert i < |w.runners[ns]| ==> w.runners[ns][i].runnerName == name;
    }
  }

  /** The diagnosis, if there is one, is job-stuck-queued exactly if there is no runner. */
  predicate DiagnosisKnowsRunner(s: Spec) {
    s.diagnosis.Some? ==> (SaysJobStuck(s) <==> s.runner.None?)
  }

  /** The pass that sets the diagnosis says job-stuck-queued exactly when no runner was known
      and none was listed under the job's runner name. A later pass keeps the diagnosis, so it
      agrees with the runner afterwards exactly when the pass finds no such runner either. */
  lemma PassKeepsJobTriggered(s: Spec, ns: string, w: World, gh: bool, out: Spec)
    requires Correlated(s, ns, w, gh, out) && JobTriggered(s)
    ensures JobTriggered(out) && out.diagnosis.Some?
    ensures out.runner.None? <==> s.runner.None? && !MatchesARunner(s, ns, w)
    ensures s.diagnosis.None? ==> (SaysJobStuck(out) <==> s.runner.None? && !MatchesARunner(s, ns, w))
    ensures s.diagnosis.Some? && DiagnosisKnowsRunner(s) ==>
      (DiagnosisKnowsRunner(out) <==> !MatchesARunner(s, ns, w))
  {
    EnrichedKeeps(s, ns, w, gh);
    MatchDecidesRunner(s, ns, w, gh);
    DiagnosisMatchesEvidence(Enriched(s, ns, w, gh));
  }
}
