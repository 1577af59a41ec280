/** Runs of the lifecycle protocol that show what it does not guarantee. */
module LifecycleRuns {
  import opened Api
  import opened Naming
  import opened Origins
  import opened Classifier
  import opened Sorting
  import opened Correlation
  import opened Agreement
  import opened Counting
  import opened Lifecycle
  import opened LifecycleSteps

  // ---------- building runs ----------

  function Last(tr: seq<State>): State
    requires tr != []
  {
    tr[|tr| - 1]
  }

  lemma Then(tr: seq<State>, a: Action) returns (tr': seq<State>)
    requires Run(tr) && Enabled(Last(tr), a)
    ensures Run(tr') && Last(tr') == Apply(Last(tr), a)
  {
    tr' := tr + [Apply(Last(tr), a)];
    forall i | 0 <= i < |tr'| - 1 ensures Next(tr'[i], tr'[i + 1]) {
      if i < |tr| - 1 {
        assert Next(tr[i], tr[i + 1]);
      }
    }
  }

  lemma EmptyCluster() returns (tr: seq<State>)
    ensures Run(tr) && Last(tr) == State(0, map[], {}, map[], {}, 0, 5, 0, map[], {}, 0, {})
  {
    tr := [State(0, map[], {}, map[], {}, 0, 5, 0, map[], {}, 0, {})];
  }

  /** The state in which `t` has created its Investigation and has yet to mark it. */
  ghost function Opened(s: State, t: nat, o: Origin, lead: Option<PodVersion>): State {
    Put(s, Made(s, o)).(count := s.count + 1, threads := s.threads[t := MarkCollecting(o, lead, Made(s, o))])
  }

  lemma Reserves(tr: seq<State>, t: nat, o: Origin, lead: Option<PodVersion>) returns (tr': seq<State>)
    requires Run(tr) && Local(Last(tr), t) == Lookup(o, lead) && Last(tr).count < Last(tr).max
    ensures Run(tr')
    ensures Last(tr') == Last(tr).(count := Last(tr).count + 1, threads := Last(tr).threads[t := CreateCR(o, lead)])
  {
    tr' := Then(tr, LookupMissing(t));
    tr' := Then(tr', TryReserve(t));
    assert Last(tr').threads == Last(tr).threads[t := CreateCR(o, lead)];
  }

  /** A creator about to look its Investigation up, with none there and room for one, can open it. */
  lemma Opens(tr: seq<State>, t: nat, o: Origin, lead: Option<PodVersion>) returns (tr': seq<State>)
    requires Run(tr) && Local(Last(tr), t) == Lookup(o, lead)
    requires KeyOf(SourceOf(o)) !in Last(tr).store && Last(tr).count < Last(tr).max
    ensures Run(tr') && Last(tr') == Opened(Last(tr), t, o, lead)
  {
    tr' := Reserves(tr, t, o, lead);
    tr' := Then(tr', CreateOk(t));
    assert Last(tr').threads == Opened(Last(tr), t, o, lead).threads;
  }

  /** What `v` becomes when it is marked as collecting by the next write. */
  function Marked(v: Version): Version {
    v.(rv := v.rv + 1, phase := PHASE_COLLECTING)
  }

  lemma OpensAndMarks(tr: seq<State>, t: nat, o: Origin) returns (tr': seq<State>)
    requires Run(tr) && Local(Last(tr), t) == Lookup(o, None)
    requires KeyOf(SourceOf(o)) !in Last(tr).store && Last(tr).count < Last(tr).max
    ensures Run(tr')
    ensures Last(tr').store == Last(tr).store[KeyOf(SourceOf(o)) := Marked(Made(Last(tr), o))]
    ensures Last(tr').pods == Last(tr).pods
    ensures Last(tr').count == Last(tr).count + 1 && Last(tr').max == Last(tr).max
    ensures Last(tr').threads == Last(tr).threads[t := Idle]
  {
    tr' := Opens(tr, t, o, None);
    tr' := Then(tr', MarkOk(t));
  }

  /** The state in which `t` has written the result of its pass. */
  ghost function Halfway(s: State, t: nat, k: Key, out: Spec): State
    requires k in s.store
  {
    var v := SpecUpdate(s, k, out);
    Put(s, v).(threads := s.threads[t := CorrelateReread(v)])
  }

  lemma StoredIsRecorded(tr: seq<State>, k: Key)
    requires Run(tr) && k in Last(tr).store
    ensures Last(tr).store[k] in Last(tr).past && KeyOf(Last(tr).store[k].src) == k
  {
    InvAlongRun(tr, |tr| - 1);
  }

  lemma CorrelateWrites(s: State, t: nat, k: Key, w: World, gh: bool, out: Spec)
    requires k in s.store && KeyOf(s.store[k].src) == k && Local(s, t) == CorrelateWrite(s.store[k])
    requires Correlated(s.store[k].spec, k.namespace, w, gh, out)
    ensures Enabled(s, CorrelateOk(t, w, gh, out)) && Apply(s, CorrelateOk(t, w, gh, out)) == Halfway(s, t, k, out)
  {
  }

  /** A Correlator can read a collecting Investigation and write what its pass gives. */
  lemma Correlates(tr: seq<State>, t: nat, k: Key, w: World, gh: bool, out: Spec) returns (tr': seq<State>)
    requires Run(tr) && Local(Last(tr), t).Idle? && k in Last(tr).store
    requires Last(tr).store[k].phase == PHASE_COLLECTING
    requires Correlated(Last(tr).store[k].spec, k.namespace, w, gh, out)
    ensures KeyOf(Last(tr).store[k].src) == k
    ensures Run(tr') && Last(tr') == Halfway(Last(tr), t, k, out)
  {
    StoredIsRecorded(tr, k);
    tr' := Then(tr, CorrelateRead(t, Last(tr).store[k]));
    CorrelateWrites(Last(tr'), t, k, w, gh, out);
    tr' := Then(tr', CorrelateOk(t, w, gh, out));
    assert Last(tr').threads == Halfway(Last(tr), t, k, out).threads;
  }

  /** A pass whose additions are in order already can leave the timeline as it is. */
  lemma PassInOrder(s: Spec, ns: string, w: World, gh: bool) returns (out: Spec)
    requires ByTime(Enriched(s, ns, w, gh).timeline)
    ensures Correlated(s, ns, w, gh, out) && out.timeline == Enriched(s, ns, w, gh).timeline
  {
    var e := Enriched(s, ns, w, gh);
    out := e.(diagnosis := Some(if e.diagnosis.Some? then e.diagnosis.value else Diagnose(e)));
  }

  const NOTHING_LISTED := World(map[], map[], map[], None, map[], map[])

  lemma NothingToAdd(s: Spec, ns: string, gh: bool)
    ensures Enriched(s, ns, NOTHING_LISTED, gh) == s
  {
    if s.pod.Some? {
      AddNoEvents(s);
    }
  }

  // ---------- a recreated Investigation ----------

  lemma OpensFirst(o: Origin) returns (tr: seq<State>)
    requires (o.RunnerStuck? || o.JobQueued?) && Sound(o)
    ensures Run(tr) && Last(tr).count == 1 && Last(tr).max == 5 && Last(tr).threads == map[0 := Idle]
    ensures KeyOf(SourceOf(o)) in Last(tr).store
    ensures var v := Last(tr).store[KeyOf(SourceOf(o))];
      v.src == SourceOf(o) && v.phase == PHASE_COLLECTING && v.spec == InitialSpec(o)
  {
    tr := EmptyCluster();
    tr := Then(tr, Detect(0, o));
    assert Last(tr).threads == map[0 := Lookup(o, None)];
    tr := OpensAndMarks(tr, 0, o);
  }

  /** The runner watcher or the poller opens an Investigation and a Correlator writes a pass. */
  lemma OpensAndCorrelates(o: Origin, w: World, gh: bool, out: Spec) returns (tr: seq<State>)
    requires (o.RunnerStuck? || o.JobQueued?) && Sound(o)
    requires Correlated(InitialSpec(o), SourceOf(o).namespace, w, gh, out)
    ensures Run(tr)
    ensures KeyOf(SourceOf(o)) in Last(tr).store && Last(tr).count == 1 && Last(tr).max == 5
    ensures var v := Last(tr).store[KeyOf(SourceOf(o))];
      && v.src == SourceOf(o) && v.phase == PHASE_COLLECTING && v.spec == out
      && Last(tr).threads == map[0 := Idle, 1 := CorrelateReread(v)]
  {
    tr := OpensFirst(o);
    tr := Correlates(tr, 1, KeyOf(SourceOf(o)), w, gh, out);
  }

  lemma NobodyHasNextUid(tr: seq<State>)
    requires Run(tr)
    ensures forall u :: u in Last(tr).past ==> u.uid != Last(tr).rev + 1
  {
    InvAlongRun(tr, |tr| - 1);
  }

  /** A user deletes the Investigation and thread `t` opens it again. */
  lemma Recreates(tr: seq<State>, t: nat, o: Origin) returns (tr': seq<State>, v: Version)
    requires Run(tr) && (o.RunnerStuck? || o.JobQueued?) && Sound(o)
    requires KeyOf(SourceOf(o)) in Last(tr).store && Last(tr).count < Last(tr).max && Local(Last(tr), t).Idle?
    ensures Run(tr')
    ensures KeyOf(SourceOf(o)) in Last(tr').store && Last(tr').store[KeyOf(SourceOf(o))] == v && v in Last(tr').past
    ensures v.src == SourceOf(o) && v.spec == InitialSpec(o) && v.phase == ""
    ensures forall u :: u in Last(tr').past && u.uid == v.uid ==> u == v
    ensures forall u :: u != t ==> Local(Last(tr'), u) == Local(Last(tr), u)
  {
    tr' := Then(tr, UserDelete(KeyOf(SourceOf(o))));
    tr' := Then(tr', Detect(t, o));
    v := Made(Last(tr'), o);
    NobodyHasNextUid(tr');
    tr' := Opens(tr', t, o, None);
  }

  lemma CompletesRecreated(tr: seq<State>, t: nat, v: Version) returns (tr': seq<State>)
    requires Run(tr) && Local(Last(tr), t).CorrelateReread? && Local(Last(tr), t).written.src == v.src
    requires KeyOf(v.src) in Last(tr).store && Last(tr).store[KeyOf(v.src)] == v && v in Last(tr).past
    requires v.phase == "" && forall u :: u in Last(tr).past && u.uid == v.uid ==> u == v
    ensures Run(tr') && KeyOf(v.src) in Last(tr').store
    ensures var w := Last(tr').store[KeyOf(v.src)];
      && w.phase == PHASE_COMPLETE && w.spec == v.spec
      && forall u :: u in Last(tr').past && u.uid == w.uid ==> u.phase != PHASE_COLLECTING
  {
    tr' := Then(tr, RereadOk(t, v));
    tr' := Then(tr', CompleteOk(t));
  }

  const STUCK := RunnerStuck("ns", "r", "Failed", [], 0)

  /** A run that ends with a complete Investigation that has no diagnosis and never was
      collecting: it was recreated between the Correlator's two writes, and the second write
      hit the new one. */
  lemma RecreationLosesDiagnosis() returns (tr: seq<State>, k: Key)
    ensures Run(tr)
    ensures k in Last(tr).store && Last(tr).store[k].phase == PHASE_COMPLETE && Last(tr).store[k].spec.diagnosis.None?
    ensures forall u :: u in Last(tr).past && u.uid == Last(tr).store[k].uid ==> u.phase != PHASE_COLLECTING
  {
    var o, v := STUCK, *;
    k := KeyOf(SourceOf(o));
    NothingToAdd(InitialSpec(o), "ns", false);
    var out := PassInOrder(InitialSpec(o), "ns", NOTHING_LISTED, false);
    tr := OpensAndCorrelates(o, NOTHING_LISTED, false, out);
    tr, v := Recreates(tr, 2, o);
    tr := CompletesRecreated(tr, 1, v);
  }

  // ---------- a late runner ----------

  /** A pass whose re-read fails is followed by another. */
  lemma CorrelatesTwice(o: Origin, w: World, mid: Spec, w': World, gh: bool, out: Spec) returns (tr: seq<State>)
    requires (o.RunnerStuck? || o.JobQueued?) && Sound(o)
    requires Correlated(InitialSpec(o), SourceOf(o).namespace, w, gh, mid)
    requires Correlated(mid, SourceOf(o).namespace, w', gh, out)
    ensures Run(tr) && KeyOf(SourceOf(o)) in Last(tr).store
    ensures var v := Last(tr).store[KeyOf(SourceOf(o))]; v.src == SourceOf(o) && v.spec == out
  {
    tr := OpensAndCorrelates(o, w, gh, mid);
    tr := Then(tr, RereadErr(1));
    tr := Correlates(tr, 1, KeyOf(SourceOf(o)), w', gh, out);
  }

  const QUEUED := JobQueued("ns", Repo("o", "r"), GhRun(5, "ci", "queued", "", ""),
                            GhJob(7, "build", "queued", "", "r", Some(0), None, []), 1)

  const RUNNER_LISTED := World(map["ns" := [RunnerObject("r", "ns", "Running", "r")]], map[], map[], None, map[], map[])

  /** A run that ends with a runner beside the diagnosis "job stuck queued with no viable
      runner": it registers after a pass whose re-read fails, and the next pass matches it. */
  lemma LateRunnerBesideJobStuck() returns (tr: seq<State>, k: Key)
    ensures Run(tr)
    ensures k in Last(tr).store && Last(tr).store[k].src.JobSource?
    ensures SaysJobStuck(Last(tr).store[k].spec) && Last(tr).store[k].spec.runner.Some?
  {
    k := KeyOf(SourceOf(QUEUED));
    var s := InitialSpec(QUEUED);
    NothingToAdd(s, "ns", true);
    var mid := PassInOrder(s, "ns", NOTHING_LISTED, true);
    PassKeepsJobTriggered(s, "ns", NOTHING_LISTED, true, mid);
    assert RUNNER_LISTED.runners["ns"][0].runnerName == mid.job.value.runnerName;
    assert MatchesARunner(mid, "ns", RUNNER_LISTED);
    assert Enriched(mid, "ns", RUNNER_LISTED, true).timeline == mid.timeline;
    var out := PassInOrder(mid, "ns", RUNNER_LISTED, true);
    PassKeepsJobTriggered(mid, "ns", RUNNER_LISTED, true, out);
    tr := CorrelatesTwice(QUEUED, NOTHING_LISTED, mid, RUNNER_LISTED, true, out);
  }

  // ---------- a replaced snapshot ----------

  function PodAt(pod: Pod): Key {
    Key(pod.namespace, pod.name)
  }

  /** The pod watcher opens an Investigation of a pod with an anomaly. */
  lemma OpensPod(pod: Pod, at: Time) returns (tr: seq<State>)
    requires pod.IsRunner() && pod.HasFinalizer() && !pod.Deleting() && AnomalyOf(pod.statuses) != ""
    ensures Run(tr)
    ensures var o, s := PodAnomaly(pod, [], at), Last(tr);
      && KeyOf(SourceOf(o)) in s.store
      && s.store[KeyOf(SourceOf(o))].phase == PHASE_COLLECTING && s.store[KeyOf(SourceOf(o))].spec == InitialSpec(o)
      && PodAt(pod) in s.pods && s.pods[PodAt(pod)].pod == pod
      && Local(s, 0).Idle? && Local(s, 1).Idle?
  {
    tr := EmptyCluster();
    tr := Then(tr, PodCreated(pod));
    tr := Then(tr, PodRead(0, PodVersion(1, 1, pod), [], at));
    tr := OpensAndMarks(tr, 0, PodAnomaly(pod, [], at));
  }

  /** The pod changes and is deleted, and the pod watcher reads it. */
  lemma PodDies(tr: seq<State>, pod: Pod, changed: Pod, at: Time) returns (tr': seq<State>, lead: PodVersion)
    requires Run(tr) && PodAt(pod) in Last(tr).pods && Last(tr).pods[PodAt(pod)].pod == pod && Local(Last(tr), 0).Idle?
    requires pod.HasFinalizer() && !pod.Deleting() && changed.IsRunner()
    requires PodAt(changed) == PodAt(pod) && changed.HasFinalizer() && !changed.Deleting()
    ensures Run(tr') && lead.pod == changed.(deletedAt := Some(at))
    ensures Last(tr').store == Last(tr).store
    ensures Last(tr').threads == Last(tr).threads[0 := CollectLogs(lead, [])]
  {
    tr' := Then(tr, PodChanged(changed));
    tr' := Then(tr', PodDeleteRequested(PodAt(pod), at));
    lead := Last(tr').pods[PodAt(pod)];
    tr' := Then(tr', PodRead(0, lead, [], at));
  }

  /** It collects the pod's logs and finds its Investigation. */
  lemma FindsToAppend(tr: seq<State>, k: Key, lead: PodVersion, paths: seq<string>) returns (tr': seq<State>)
    requires Run(tr) && Local(Last(tr), 0) == CollectLogs(lead, []) && PathsOfPod(paths, lead.pod) && paths != []
    requires k in Last(tr).store && k == KeyOf(PodSource(lead.pod.namespace, lead.pod.name))
    ensures Run(tr') && Last(tr').store == Last(tr).store
    ensures Last(tr').store[k].src == Last(tr).store[k].src && KeyOf(Last(tr).store[k].src) == k
    ensures Last(tr').threads ==
      Last(tr).threads[0 := Append(PodDeletion(lead.pod, [], paths), Some(lead), Last(tr).store[k])]
  {
    StoredIsRecorded(tr, k);
    tr' := Then(tr, LogsCollected(0, paths));
    tr' := Then(tr', LookupFound(0, Last(tr).store[k]));
  }

  /** It collects the pod's logs, appends them and replaces the snapshot. */
  lemma AppendsLogs(tr: seq<State>, k: Key, lead: PodVersion, paths: seq<string>) returns (tr': seq<State>)
    requires Run(tr) && Local(Last(tr), 0) == CollectLogs(lead, []) && PathsOfPod(paths, lead.pod) && paths != []
    requires k in Last(tr).store && k == KeyOf(PodSource(lead.pod.namespace, lead.pod.name))
    ensures Run(tr')
    ensures k in Last(tr').store && Last(tr').store[k].phase == Last(tr).store[k].phase
    ensures Last(tr').store[k].spec == AppendedSpec(Last(tr).store[k].spec, PodDeletion(lead.pod, [], paths))
    ensures forall t :: t != 0 ==> Local(Last(tr'), t) == Local(Last(tr), t)
  {
    tr' := FindsToAppend(tr, k, lead, paths);
    tr' := Then(tr', AppendOk(0));
  }

  /** A pod whose container was killed for memory, and the pod once it was started again. */
  const KILLED := Pod("p", "ns", map[RUNNER_LABEL := "True"], [], [LOG_FINALIZER], None, "", [], ["c"], "Running", [],
                      [Container("c", 0, Terminated(OOM_KILLED, 137))])
  const RESTARTED := KILLED.(statuses := [Container("c", 1, ContainerState.Running)])

  const ANOMALY := PodAnomaly(KILLED, [], 2)
  const DELETION := PodDeletion(RESTARTED.(deletedAt := Some(3)), [], [LogPath("ns", "p", "c", "1")])

  lemma KilledThenRestarted()
    ensures KILLED.IsRunner() && KILLED.HasFinalizer() && AnomalyOf(KILLED.statuses) == "pod-oomkill"
    ensures RESTARTED.IsRunner() && RESTARTED.HasFinalizer() && AnomalyOf(RESTARTED.statuses) == ""
  {
  }

  lemma CollectedIsOfPod()
    ensures PathsOfPod(DELETION.paths, DELETION.pod)
  {
    var path := LogPath("ns", "p", "c", "1");
    assert LogOf(path, "ns", "p") by {
      LogPathComponents("ns", "p", "c", "1");
    }
    assert DELETION.paths == [path];
  }

  /** The pod watcher appends the logs of the restarted pod, and a pass over the Investigation
      follows. */
  lemma AppendsThenCorrelates(tr: seq<State>, k: Key, s: Spec, w: World, out: Spec) returns (tr': seq<State>)
    requires Run(tr) && k == KeyOf(SourceOf(ANOMALY)) && k in Last(tr).store
    requires Last(tr).store[k].phase == PHASE_COLLECTING && Last(tr).store[k].spec == s
    requires PodAt(KILLED) in Last(tr).pods && Last(tr).pods[PodAt(KILLED)].pod == KILLED
    requires Local(Last(tr), 0).Idle? && Local(Last(tr), 1).Idle?
    requires Correlated(AppendedSpec(s, DELETION), k.namespace, w, false, out)
    ensures Run(tr') && k in Last(tr').store && Last(tr').store[k].spec == out
  {
    KilledThenRestarted();
    CollectedIsOfPod();
    var lead;
    tr', lead := PodDies(tr, KILLED, RESTARTED, 3);
    assert Local(Last(tr'), 1).Idle?;
    tr' := AppendsLogs(tr', k, lead, DELETION.paths);
    tr' := Correlates(tr', 1, k, w, false, out);
  }

  /** A run that ends with the diagnosis unknown for an Investigation opened by an
      out-of-memory kill: the log appender replaced the snapshot before the first pass. */
  lemma AppendForgetsTheKill() returns (tr: seq<State>, k: Key)
    ensures Run(tr)
    ensures k in Last(tr).store && Last(tr).store[k].spec.trigger.kind == "pod-oomkill"
    ensures Last(tr).store[k].spec.diagnosis.Some?
    ensures Last(tr).store[k].spec.diagnosis.value.failureType == "unknown"
  {
    k := KeyOf(SourceOf(ANOMALY));
    KilledThenRestarted();
    var s := InitialSpec(ANOMALY);
    var mid := AppendedSpec(s, DELETION);
    NothingToAdd(mid, "ns", false);
    var out := PassInOrder(mid, "ns", NOTHING_LISTED, false);
    AppendedSnapshotDecides(ANOMALY, DELETION, NOTHING_LISTED, false, out);
    tr := OpensPod(KILLED, 2);
    tr := AppendsThenCorrelates(tr, k, s, NOTHING_LISTED, out);
  }

  const EVENT := KubeEvent("Warning", "BackOff", "", 1, "kubelet", 3, 3)
  const EVENT_LISTED := World(map[], map[], map[("ns", "p") := [EVENT]], None, map[], map[])

  /** A pass over the killed pod's Investigation with the event listed. */
  lemma PassListsEvent() returns (first: Spec)
    ensures Correlated(InitialSpec(ANOMALY), "ns", EVENT_LISTED, false, first)
    ensures first.pod.Some? && first.timeline == InitialSpec(ANOMALY).timeline + [TimelineEventOf(EVENT)]
  {
    var s := InitialSpec(ANOMALY);
    assert Map(TimelineEventOf, [EVENT]) == [TimelineEventOf(EVENT)];
    assert Enriched(s, "ns", EVENT_LISTED, false).timeline == s.timeline + [TimelineEventOf(EVENT)];
    first := PassInOrder(s, "ns", EVENT_LISTED, false);
  }

  /** The pass before and the pass after the log appender, both with the event listed. */
  lemma PassesAroundAppend() returns (first: Spec, again: Spec)
    ensures Correlated(InitialSpec(ANOMALY), "ns", EVENT_LISTED, false, first)
    ensures Correlated(AppendedSpec(first, DELETION), "ns", EVENT_LISTED, false, again)
    ensures multiset(again.timeline)[TimelineEventOf(EVENT)] == 2
  {
    var s := InitialSpec(ANOMALY);
    assert Map(TimelineEventOf, [EVENT]) == [TimelineEventOf(EVENT)];
    first := PassListsEvent();
    var mid := AppendedSpec(first, DELETION);
    NothingElseToFind(s, "ns", EVENT_LISTED, false, mid);
    again := PassInOrder(mid, "ns", EVENT_LISTED, false);
    AppendBetweenPassesRepeatsEvents(s, "ns", EVENT_LISTED, false, first, DELETION, again);
  }

  /** A pass over the killed pod's Investigation whose re-read fails. */
  lemma CorrelatesPod(w: World, out: Spec) returns (tr: seq<State>)
    requires Correlated(InitialSpec(ANOMALY), "ns", w, false, out)
    ensures Run(tr)
    ensures var k, s := KeyOf(SourceOf(ANOMALY)), Last(tr);
      && k in s.store && s.store[k].phase == PHASE_COLLECTING && s.store[k].spec == out
      && PodAt(KILLED) in s.pods && s.pods[PodAt(KILLED)].pod == KILLED
      && Local(s, 0).Idle? && Local(s, 1).Idle?
  {
    KilledThenRestarted();
    tr := OpensPod(KILLED, 2);
    tr := Correlates(tr, 1, KeyOf(SourceOf(ANOMALY)), w, false, out);
    tr := Then(tr, RereadErr(1));
  }

  /** A run that ends with one Kubernetes event twice in a timeline: a pass collected it, its
      re-read failed, the log appender replaced the snapshot, and the next pass collected it
      again. */
  lemma AppendRepeatsTheEvent() returns (tr: seq<State>, k: Key)
    ensures Run(tr)
    ensures k in Last(tr).store && multiset(Last(tr).store[k].spec.timeline)[TimelineEventOf(EVENT)] == 2
  {
    var first, again := PassesAroundAppend();
    k := KeyOf(SourceOf(ANOMALY));
    tr := CorrelatesPod(EVENT_LISTED, first);
    tr := AppendsThenCorrelates(tr, k, first, EVENT_LISTED, again);
  }

  // ---------- runs that go well ----------

  /** A Correlator completes what it diagnosed. */
  lemma CompletesDiagnosed() returns (tr: seq<State>, k: Key)
    ensures Run(tr)
    ensures k in Last(tr).store && Last(tr).store[k].phase == "Complete"
    ensures Last(tr).store[k].spec.diagnosis.Some?
    ensures Last(tr).store[k].spec.diagnosis.value.failureType == "runner-stuck-failed"
  {
    k := KeyOf(SourceOf(STUCK));
    var s := InitialSpec(STUCK);
    NothingToAdd(s, "ns", false);
    var out := PassInOrder(s, "ns", NOTHING_LISTED, false);
    DiagnosisInFields(s);
    tr := OpensAndCorrelates(STUCK, NOTHING_LISTED, false, out);
    tr := Completes(tr, 1, k);
  }

  lemma Completes(tr: seq<State>, t: nat, k: Key) returns (tr': seq<State>)
    requires Run(tr) && k in Last(tr).store && Local(Last(tr), t) == CorrelateReread(Last(tr).store[k])
    ensures Run(tr') && k in Last(tr').store && Last(tr').store[k].phase == "Complete"
    ensures Last(tr').store[k].spec == Last(tr).store[k].spec
  {
    StoredIsRecorded(tr, k);
    tr' := Then(tr, RereadOk(t, Last(tr).store[k]));
    tr' := Then(tr', CompleteOk(t));
  }

  /** A sweep deletes an Investigation and lowers the count, and nothing else. */
  lemma SweepsAndCounts(tr: seq<State>, t: nat, k: Key) returns (tr': seq<State>)
    requires Run(tr) && k in Last(tr).store && Local(Last(tr), t).Idle?
    ensures Run(tr')
    ensures Last(tr').store == Last(tr).store - {k} && Last(tr').count == Last(tr).count - 1
    ensures Last(tr').past == Last(tr).past && Last(tr').pods == Last(tr).pods
  {
    tr' := SweepsFirst(tr, t, [k]);
    FloorIsOffInRun(tr', t);
    tr' := Then(tr', SweepCounted(t));
  }

  lemma SweepsFirst(tr: seq<State>, t: nat, todo: seq<Key>) returns (tr': seq<State>)
    requires Run(tr) && todo != [] && todo[0] in Last(tr).store && Local(Last(tr), t).Idle?
    ensures Run(tr')
    ensures Last(tr').store == Last(tr).store - {todo[0]} && Last(tr').count == Last(tr).count
    ensures Last(tr').past == Last(tr).past && Last(tr').pods == Last(tr).pods
    ensures Local(Last(tr'), t) == SweepCount(todo[1..])
  {
    tr' := Then(tr, SweepStart(t, todo));
    tr' := Then(tr', SweepOk(t));
  }

  lemma FloorIsOffInRun(tr: seq<State>, t: nat)
    requires Run(tr) && Local(Last(tr), t).SweepCount?
    ensures Lowered(Last(tr).count, 1) == Last(tr).count - 1
  {
    InvAlongRun(tr, |tr| - 1);
    FloorIsOff(Last(tr), t);
  }

  /** A live runner pod without anomaly gets the finalizer and is deleted. */
  lemma ProtectsPod(pod: Pod, history: seq<Transition>, at: Time) returns (tr: seq<State>, lead: PodVersion)
    requires pod.IsRunner() && pod.finalizers == [] && !pod.Deleting() && AnomalyOf(pod.statuses) == ""
    ensures Run(tr) && PodAt(pod) in Last(tr).pods && Last(tr).pods[PodAt(pod)] == lead && lead in Last(tr).podPast
    ensures lead.pod == pod.(finalizers := [LOG_FINALIZER], deletedAt := Some(at))
    ensures Last(tr).store == map[] && Last(tr).count == 0 && Last(tr).max == 5 && Local(Last(tr), 0).Idle?
  {
    tr := GivesFinalizer(pod, history, at);
    tr := Then(tr, PodDeleteRequested(PodAt(pod), at));
    lead := Last(tr).pods[PodAt(pod)];
  }

  lemma ReadsNewPod(pod: Pod, history: seq<Transition>, at: Time) returns (tr: seq<State>)
    requires pod.IsRunner() && pod.finalizers == [] && !pod.Deleting()
    ensures Run(tr)
    ensures Last(tr) == State(1, map[], {}, map[PodAt(pod) := PodVersion(1, 1, pod)], {PodVersion(1, 1, pod)}, 0, 5, 0,
                              map[0 := AddFinalizer(PodVersion(1, 1, pod), history, at)], {}, 0, {})
  {
    tr := EmptyCluster();
    tr := Then(tr, PodCreated(pod));
    tr := Then(tr, PodRead(0, PodVersion(1, 1, pod), history, at));
  }

  lemma GivesFinalizer(pod: Pod, history: seq<Transition>, at: Time) returns (tr: seq<State>)
    requires pod.IsRunner() && pod.finalizers == [] && !pod.Deleting() && AnomalyOf(pod.statuses) == ""
    ensures Run(tr)
    ensures PodAt(pod) in Last(tr).pods && Last(tr).pods[PodAt(pod)].pod == pod.(finalizers := [LOG_FINALIZER])
    ensures Last(tr).store == map[] && Last(tr).count == 0 && Last(tr).max == 5 && Local(Last(tr), 0).Idle?
  {
    tr := ReadsNewPod(pod, history, at);
    assert [] + [LOG_FINALIZER] == [LOG_FINALIZER];
    tr := Then(tr, FinalizerOk(0));
  }

  /** Its logs are collected and opened as an Investigation. */
  lemma OpensForLogs(tr: seq<State>, lead: PodVersion, history: seq<Transition>, at: Time, paths: seq<string>)
    returns (tr': seq<State>)
    requires Run(tr) && lead in Last(tr).podPast && Local(Last(tr), 0).Idle? && Last(tr).store == map[]
    requires Last(tr).count == 0 && Last(tr).max == 5
    requires lead.pod.IsRunner() && lead.pod.HasFinalizer() && lead.pod.Deleting()
    requires paths != [] && PathsOfPod(paths, lead.pod)
    ensures var o := PodDeletion(lead.pod, history, paths);
      && Run(tr') && Last(tr').pods == Last(tr).pods && KeyOf(SourceOf(o)) in Last(tr').store
      && Last(tr').store[KeyOf(SourceOf(o))] == Made(Last(tr), o)
      && Local(Last(tr'), 0) == MarkCollecting(o, Some(lead), Made(Last(tr), o))
  {
    tr' := CollectsOf(tr, lead, history, at, paths);
    tr' := Opens(tr', 0, PodDeletion(lead.pod, history, paths), Some(lead));
  }

  lemma CollectsOf(tr: seq<State>, lead: PodVersion, history: seq<Transition>, at: Time, paths: seq<string>)
    returns (tr': seq<State>)
    requires Run(tr) && lead in Last(tr).podPast && Local(Last(tr), 0).Idle?
    requires lead.pod.IsRunner() && lead.pod.HasFinalizer() && lead.pod.Deleting()
    requires paths != [] && PathsOfPod(paths, lead.pod)
    ensures Run(tr') && Last(tr') == Last(tr).(threads := Last(tr').threads)
    ensures Local(Last(tr'), 0) == Lookup(PodDeletion(lead.pod, history, paths), Some(lead))
  {
    tr' := Then(tr, PodRead(0, lead, history, at));
    tr' := Then(tr', LogsCollected(0, paths));
  }

  /** The Investigation is marked and the pod released, and the pod disappears. */
  lemma ReleasesPod(tr: seq<State>, lead: PodVersion, o: Origin, made: Version) returns (tr': seq<State>)
    requires Run(tr) && o.PodDeletion? && Local(Last(tr), 0) == MarkCollecting(o, Some(lead), made)
    requires made.src == SourceOf(o) && KeyOf(made.src) in Last(tr).store && Last(tr).store[KeyOf(made.src)] == made
    requires PodKey(lead) in Last(tr).pods && Last(tr).pods[PodKey(lead)] == lead
    requires lead.pod.finalizers == [LOG_FINALIZER]
    ensures Run(tr') && PodKey(lead) !in Last(tr').pods
    ensures KeyOf(made.src) in Last(tr').store
    ensures Last(tr').store[KeyOf(made.src)].phase == "Collecting"
    ensures Last(tr').store[KeyOf(made.src)].spec == made.spec
  {
    tr' := Then(tr, MarkOk(0));
    tr' := LetsPodGo(tr', lead);
  }

  lemma LetsPodGo(tr: seq<State>, lead: PodVersion) returns (tr': seq<State>)
    requires Run(tr) && Local(Last(tr), 0).Release? && Local(Last(tr), 0).seen == lead
    requires PodKey(lead) in Last(tr).pods && Last(tr).pods[PodKey(lead)] == lead
    requires lead.pod.finalizers == [LOG_FINALIZER]
    ensures Run(tr') && PodKey(lead) !in Last(tr').pods && Last(tr').store == Last(tr).store
  {
    assert DropFinalizer([LOG_FINALIZER]) == [];
    tr' := Then(tr, ReleaseOk(0));
    tr' := Then(tr', PodGone(PodKey(lead)));
  }

  /** From any live runner pod with nothing wrong: it gets the finalizer, is deleted, its logs are
      collected and kept with its history, and only then does it disappear. */
  lemma LogsOutliveThePod(pod: Pod, history: seq<Transition>, at: Time, paths: seq<string>) returns (tr: seq<State>)
    requires pod.IsRunner() && pod.finalizers == [] && !pod.Deleting() && AnomalyOf(pod.statuses) == ""
    requires paths != [] && PathsOfPod(paths, pod)
    ensures Run(tr) && Key(pod.namespace, pod.name) !in Last(tr).pods
    ensures var k := Key(pod.namespace, "pod-" + pod.name);
      && k in Last(tr).store && Last(tr).store[k].phase == "Collecting"
      && Last(tr).store[k].spec.logPaths == paths
      && Last(tr).store[k].spec.pod.Some? && Last(tr).store[k].spec.pod.value.phaseHistory == history
  {
    var lead;
    tr, lead := ProtectsPod(pod, history, at);
    var s := Last(tr);
    tr := OpensForLogs(tr, lead, history, at, paths);
    var o := PodDeletion(lead.pod, history, paths);
    tr := ReleasesPod(tr, lead, o, Made(s, o));
  }
}
