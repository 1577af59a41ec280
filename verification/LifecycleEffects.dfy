/** What single steps of the lifecycle protocol store and how they go on, in the fields of pods
    and Investigations. */
module LifecycleEffects {
  import opened Api
  import opened Naming
  import opened Origins
  import opened PassResults
  import opened Lifecycle
  import opened LifecycleSteps
  import opened LifecycleTheorems

  // ---------- pods ----------

  /** How the pod watcher goes on with a pod it read: nothing for other pods; the finalizer
      first if a live runner pod has none; the logs if one under deletion carries it; else an
      anomaly if a container shows one, with the pod's history. */
  lemma PodReadDecides(s: State, t: nat, p: PodVersion, history: seq<Transition>, at: Time)
    requires Enabled(s, PodRead(t, p, history, at))
    ensures var next := Local(Apply(s, PodRead(t, p, history, at)), t);
      var runner := "actions-ephemeral-runner" in p.pod.labels && p.pod.labels["actions-ephemeral-runner"] == "True";
      var kept := "detective.arcdetective.io/log-collector" in p.pod.finalizers;
      var anomaly := exists i :: 0 <= i < |p.pod.statuses| && Anomalous(p.pod.statuses[i].state);
      if runner && p.pod.deletedAt.None? && !kept then next == AddFinalizer(p, history, at)
      else if runner && p.pod.deletedAt.Some? && kept then next == CollectLogs(p, history)
      else if runner && anomaly then next == Lookup(PodAnomaly(p.pod, history, at), None)
      else next == Idle
  {
    AnomalyMeansAnomalous(p.pod.statuses);
  }

  /** Once the finalizer is added the watcher goes on with the pod as stored. */
  lemma AfterFinalizer(tr: seq<State>, i: nat, t: nat)
    requires Run(tr) && i < |tr| && Enabled(tr[i], FinalizerOk(t))
    ensures var th, after := Local(tr[i], t), Apply(tr[i], FinalizerOk(t));
      && PodKey(th.seen) in after.pods
      && var pod := after.pods[PodKey(th.seen)].pod;
      if exists j :: 0 <= j < |pod.statuses| && Anomalous(pod.statuses[j].state)
      then Local(after, t) == Lookup(PodAnomaly(pod, th.history, th.at), None)
      else Local(after, t) == Idle
  {
    InvAlongRun(tr, i);
    LocalOk(tr[i], t);
    AnomalyMeansAnomalous(Local(tr[i], t).seen.pod.statuses);
  }

  lemma {:induction false} DroppingKeepsOthers(fs: seq<string>, gs: seq<string>)
    requires LOG_FINALIZER !in fs
    ensures DropFinalizer(fs + gs) == fs + DropFinalizer(gs)
  {
    if fs == [] {
      assert fs + gs == gs;
    } else {
      assert (fs + gs)[1..] == fs[1..] + gs;
      DroppingKeepsOthers(fs[1..], gs);
    }
  }

  lemma {:induction false} DroppedBetween(fs: seq<string>, gs: seq<string>)
    requires LOG_FINALIZER !in fs && LOG_FINALIZER !in gs
    ensures DropFinalizer(fs + [LOG_FINALIZER] + gs) == fs + gs
  {
    assert fs + [LOG_FINALIZER] + gs == fs + ([LOG_FINALIZER] + gs);
    DroppingKeepsOthers(fs, [LOG_FINALIZER] + gs);
    DroppedFirst(gs);
  }

  lemma {:induction false} DroppedFirst(gs: seq<string>)
    requires LOG_FINALIZER !in gs
    ensures DropFinalizer([LOG_FINALIZER] + gs) == gs
  {
    var all := [LOG_FINALIZER] + gs;
    assert all[0] == LOG_FINALIZER && all[1..] == gs;
    assert DropFinalizer(all) == DropFinalizer(gs);
    DroppingKeepsOthers(gs, []);
    assert gs + [] == gs;
  }

  /** Releasing a pod takes the log-collector finalizer out from among its others, leaves the
      rest of the pod as read, and files the attempt. */
  lemma ReleaseKeepsOthers(s: State, t: nat, fs: seq<string>, gs: seq<string>)
    requires Enabled(s, ReleaseOk(t))
    requires Local(s, t).seen.pod.finalizers == fs + ["detective.arcdetective.io/log-collector"] + gs
    requires "detective.arcdetective.io/log-collector" !in fs + gs
    ensures var seen, after := Local(s, t).seen, Apply(s, ReleaseOk(t));
      && PodKey(seen) in after.pods && after.pods[PodKey(seen)].pod == seen.pod.(finalizers := fs + gs)
      && Local(s, t).attempt in after.attempts && Local(after, t).Idle?
  {
    DroppedBetween(fs, gs);
  }

  predicate Deals(a: Action) {
    a.LogsCollected? || a.MarkOk? || a.MarkErr? || a.AppendOk? || a.AppendErr? || a.RestoreCount?
  }

  /** Where a thread goes that has dealt with the logs of a pod. */
  lemma DealtWith(s: State, a: Action)
    requires Enabled(s, a) && Deals(a) && !a.LogsCollected?
    requires Local(s, a.t).o.PodDeletion? && Local(s, a.t).lead.Some?
    ensures var th := Local(s, a.t);
      Local(Apply(s, a), a.t) == After(th.o, th.lead, if a.AppendErr? || a.RestoreCount? then ApiFailed else Recorded)
  {
  }

  /** The collected paths go to a lookup of the pod's Investigation; without any, and once
      the Investigation is dealt with in whatever way, the pod version read is released. */
  lemma LogsLeadToRelease(tr: seq<State>, i: nat, a: Action)
    requires Run(tr) && i < |tr| && Enabled(tr[i], a)
    requires Deals(a)
    requires var th := Local(tr[i], a.t); th.CollectLogs? || th.o.PodDeletion?
    ensures var th, next := Local(tr[i], a.t), Local(Apply(tr[i], a), a.t);
      if a.LogsCollected? && a.paths != []
      then next == Lookup(PodDeletion(th.seen.pod, th.history, a.paths), Some(th.seen))
      else
        && next.Release?
        && next.seen == (if th.CollectLogs? then th.seen else th.lead.value)
        && next.attempt.uid == next.seen.uid && next.attempt.pod == next.seen.pod
        && next.attempt.paths == (if th.CollectLogs? then [] else th.o.paths)
        && (next.attempt.outcome.Recorded? <==> a.MarkOk? || a.MarkErr? || a.AppendOk?)
  {
    InvAlongRun(tr, i);
    LocalOk(tr[i], a.t);
    if !a.LogsCollected? {
      DealtWith(tr[i], a);
    }
  }

  // ---------- Investigations ----------

  /** A creator appends to an Investigation it finds if it has logs and otherwise stops; the two
      watchers take any failed lookup for an absent one, while the poller and the log appender
      give up; a place is reserved below the maximum only, and given back if Create fails. */
  lemma CreatorDecides(tr: seq<State>, i: nat, a: Action)
    requires Run(tr) && i < |tr| && Enabled(tr[i], a)
    requires a.LookupFound? || a.LookupMissing? || a.LookupError? || a.TryReserve? || a.CreateErr? || a.RestoreCount?
    ensures var th, after := Local(tr[i], a.t), Apply(tr[i], a);
      var next := Local(after, a.t);
      && after.store == tr[i].store
      && (a.LookupFound? ==> next == if th.o.PodDeletion? then Append(th.o, th.lead, a.v) else Idle)
      && (a.LookupMissing? ==> next == Reserve(th.o, th.lead))
      && (a.LookupError? ==> match th.o
            case PodAnomaly(_, _, _) => next == Reserve(th.o, th.lead)
            case RunnerStuck(_, _, _, _, _) => next == Reserve(th.o, th.lead)
            case JobQueued(_, _, _, _, _) => next == Idle
            case PodDeletion(_, _, _) => next.Release? && next.attempt.outcome.ApiFailed?)
      && (a.TryReserve? && tr[i].count < tr[i].max ==>
            next == CreateCR(th.o, th.lead) && after.count == tr[i].count + 1)
      && (a.TryReserve? && tr[i].count >= tr[i].max ==>
            && after.count == tr[i].count
            && if th.o.PodDeletion? then next.Release? && next.attempt.outcome.CapRefused? else next == Idle)
      && (a.CreateErr? ==> next == Restore(th.o, th.lead) && after.count == tr[i].count)
      && (a.RestoreCount? ==> (next.Idle? || next.Release?) && after.count == tr[i].count - 1)
  {
    InvAlongRun(tr, i);
    LocalOk(tr[i], a.t);
    FloorIsOff(tr[i], a.t);
  }

  /** The fields of a new Investigation by what opened it. */
  lemma CreationInFields(s: State, t: nat)
    requires Enabled(s, CreateOk(t))
    ensures var o, after := Local(s, t).o, Apply(s, CreateOk(t)).store;
      match o
      case PodAnomaly(pod, history, at) =>
        var k := Key(pod.namespace, "pod-" + pod.name);
        && k in after && ShowsNewPod(after[k], pod, history)
        && after[k].spec.trigger.kind == AnomalyOf(pod.statuses) && after[k].spec.logPaths == []
        && ShowsOpening(after[k].spec, at, "pod")
      case PodDeletion(pod, history, paths) =>
        var k := Key(pod.namespace, "pod-" + pod.name);
        && k in after && ShowsNewPod(after[k], pod, history)
        && after[k].spec.trigger.kind == "pod-deletion" && after[k].spec.logPaths == paths
        && after[k].spec.timeline == []
      case RunnerStuck(ns, name, phase, history, at) =>
        var k := Key(ns, "er-" + name);
        && k in after && after[k].phase == "" && var spec := after[k].spec;
        && spec.trigger == Trigger("runner-stuck", ns + "/" + name) && ShowsOpening(spec, at, "ephemeralrunner")
        && spec.runner == Some(RunnerInfo(name, ns, phase, history))
        && spec.pod.None? && spec.job.None? && spec.workflowRun.None? && spec.diagnosis.None? && spec.logPaths == []
      case JobQueued(ns, repo, run, job, at) =>
        var k := Key(ns, "gh-" + Decimal(job.id));
        && k in after && after[k].phase == "" && var spec := after[k].spec;
        && spec.trigger.kind == "job-stuck-queued"
        && spec.trigger.source == "github/" + repo.owner + "/" + repo.name + "/jobs/" + Decimal(job.id)
        && ShowsOpening(spec, at, "github") && ShowsJob(spec, repo, run, job)
        && spec.pod.None? && spec.runner.None? && spec.diagnosis.None? && spec.logPaths == []
    ensures var after := Apply(s, CreateOk(t)).store;
      forall k :: k in s.store ==> k in after && after[k] == s.store[k]
  {
    var o := Local(s, t).o;
    if o.PodAnomaly? || o.PodDeletion? {
      SnapshotShows(o.pod, o.history);
    }
  }

  predicate ShowsNewPod(v: Version, pod: Pod, history: seq<Transition>) {
    && v.phase == "" && v.spec.trigger.source == pod.namespace + "/" + pod.name
    && v.spec.pod.Some? && ShowsPod(v.spec.pod.value, pod) && v.spec.pod.value.phaseHistory == history
    && v.spec.runner.None? && v.spec.job.None? && v.spec.workflowRun.None? && v.spec.diagnosis.None?
  }

  /** The timeline has one entry, for what opened the Investigation. */
  predicate ShowsOpening(s: Spec, at: Time, source: string) {
    |s.timeline| == 1 && s.timeline[0].timestamp == at && s.timeline[0].source == source
    && s.timeline[0].kind == s.trigger.kind
  }

  /** The updates: marking makes a new Investigation collecting and completing makes it complete,
      with the spec as stored; an append adds the paths at the end and replaces the snapshot; a
      Correlator's write stores the result of its pass. Each replaces the version its caller
      read and leaves all others. */
  lemma UpdatesInFields(tr: seq<State>, i: nat, a: Action)
    requires Run(tr) && i < |tr| && Enabled(tr[i], a)
    requires a.MarkOk? || a.AppendOk? || a.CorrelateOk? || a.CompleteOk?
    ensures var th := Local(tr[i], a.t);
      var before, after := tr[i].store, Apply(tr[i], a).store;
      var read := if a.MarkOk? then th.made else th.read;
      var k := KeyOf(read.src);
      && k in before && before[k] == read && k in after
      && after == before[k := after[k]]
      && (a.MarkOk? ==> after[k].phase == "Collecting" && after[k].spec == read.spec)
      && (a.CompleteOk? ==> after[k].phase == "Complete" && after[k].spec == read.spec)
      && (a.CorrelateOk? ==> after[k].phase == read.phase && after[k].spec == a.out)
      && (a.AppendOk? ==>
            && after[k].phase == read.phase && after[k].spec.logPaths == read.spec.logPaths + th.o.paths
            && after[k].spec.pod.Some? && ShowsPod(after[k].spec.pod.value, th.o.pod)
            && after[k].spec.pod.value.phaseHistory == th.o.history && after[k].spec.pod.value.events == []
            && after[k].spec == read.spec.(logPaths := after[k].spec.logPaths, pod := after[k].spec.pod))
  {
    InvAlongRun(tr, i);
    LocalOk(tr[i], a.t);
    var th := Local(tr[i], a.t);
    var read := if a.MarkOk? then th.made else th.read;
    CheckedReadIsStored(tr[i], read);
    ReplacesOnly(tr[i], a, read);
    if a.AppendOk? {
      SnapshotShows(th.o.pod, th.o.history);
    }
  }

  lemma ReplacesOnly(s: State, a: Action, read: Version)
    requires Enabled(s, a) && (a.MarkOk? || a.AppendOk? || a.CorrelateOk? || a.CompleteOk?)
    requires read == if a.MarkOk? then Local(s, a.t).made else Local(s, a.t).read
    requires KeyOf(read.src) in s.store && s.store[KeyOf(read.src)] == read
    ensures var k, after := KeyOf(read.src), Apply(s, a).store;
      && k in after && after == s.store[k := after[k]]
      && after[k].phase ==
           (if a.MarkOk? then PHASE_COLLECTING else if a.CompleteOk? then PHASE_COMPLETE else read.phase)
      && after[k].spec ==
           (if a.AppendOk? then AppendedSpec(read.spec, Local(s, a.t).o)
            else if a.CorrelateOk? then a.out else read.spec)
  {
  }

  /** The answer that a call of the thread failed, if it is about to make one. */
  function Failure(th: Thread, t: nat): Option<Action> {
    match th
    case Lookup(_, _) => Some(LookupError(t))
    case CreateCR(_, _) => Some(CreateErr(t))
    case MarkCollecting(_, _, _) => Some(MarkErr(t))
    case Append(_, _, _) => Some(AppendErr(t))
    case CorrelateWrite(_) => Some(CorrelateErr(t))
    case CorrelateReread(_) => Some(RereadErr(t))
    case CorrelateStatus(_, _) => Some(CompleteErr(t))
    case Sweep(todo) => if todo == [] then None else Some(SweepErr(t))
    case AddFinalizer(_, _, _) => Some(FinalizerErr(t))
    case Release(_, _) => Some(ReleaseErr(t))
    case _ => None
  }

  /** Whatever the state, every call may fail, which changes no Investigation, pod or count, and
      a lookup may miss an Investigation that exists. */
  lemma AnyCallMayFail(s: State, t: nat)
    requires Failure(Local(s, t), t).Some?
    ensures var a := Failure(Local(s, t), t).value;
      && Enabled(s, a)
      && Apply(s, a) == s.(threads := Apply(s, a).threads)
    ensures Local(s, t).Lookup? ==> Enabled(s, LookupMissing(t))
  {
  }

  /** Reads may be stale: whatever version was stored under a key, any later lookup, re-read
      or Correlator of that key may still be shown it, and any later pod read a former pod. */
  lemma EarlierVersionsMayBeRead(tr: seq<State>, i: nat, j: nat, k: Key, t: nat)
    requires Run(tr) && i <= j < |tr| && k in tr[i].store
    ensures var v, th := tr[i].store[k], Local(tr[j], t);
      && (th.Lookup? && KeyOf(SourceOf(th.o)) == k ==> Enabled(tr[j], LookupFound(t, v)))
      && (th.CorrelateReread? && KeyOf(th.written.src) == k ==> Enabled(tr[j], RereadOk(t, v)))
      && (th.Idle? && v.phase == "Collecting" ==> Enabled(tr[j], CorrelateRead(t, v)))
  {
    InvAlongRun(tr, i);
    RecordGrowsAlongRun(tr, i, j);
  }
}
