/** The pod watcher's detector and the classifier agree, through the snapshot the one
    stores and the pass after which the other runs. */
module Agreement {
  import opened Api
  import opened Origins
  import opened Classifier
  import opened Correlation

  lemma ShowsInSnapshot(pod: Pod, info: PodInfo, evidence: ContainerStatus -> bool)
    requires info.containerStatuses == Map(StatusOf, pod.statuses)
    ensures Shows(Some(info), evidence) <==> exists i :: 0 <= i < |pod.statuses| && evidence(StatusOf(pod.statuses[i]))
  {
    var cs := info.containerStatuses;
    if i :| 0 <= i < |pod.statuses| && evidence(StatusOf(pod.statuses[i])) {
      assert cs[i] in cs;
    }
    if Shows(Some(info), evidence) {
      var c :| c in cs && evidence(c);
      var i :| 0 <= i < |cs| && cs[i] == c;
      assert evidence(StatusOf(pod.statuses[i]));
    }
  }

  /** A container has an anomaly exactly when its snapshot shows one of the three evidences. */
  lemma ContainerAnomalyMeans(c: Container)
    ensures ContainerAnomaly(c) != "" <==>
      OomEvidence(StatusOf(c)) || CrashEvidence(StatusOf(c)) || PullEvidence(StatusOf(c))
    ensures ContainerAnomaly(c) == "pod-oomkill" <==> StatusOf(c).oomKilled
    ensures ContainerAnomaly(c) == "pod-crash" <==> CrashEvidence(StatusOf(c))
    ensures ContainerAnomaly(c) == "pod-init-timeout" <==> PullEvidence(StatusOf(c))
    ensures OomEvidence(StatusOf(c)) ==> ContainerAnomaly(c) in {"pod-oomkill", "pod-crash"}
  {
  }

  /** The detector reports something exactly when the snapshot shows an out-of-memory kill,
      a crash or a failed image pull, whatever the number and order of containers. */
  lemma DetectsExactlyTheEvidence(pod: Pod, history: seq<Transition>)
    ensures var info := Some(Snapshot(pod, history));
      AnomalyOf(pod.statuses) != "" <==>
        Shows(info, OomEvidence) || Shows(info, CrashEvidence) || Shows(info, PullEvidence)
  {
    var info := Snapshot(pod, history);
    ShowsInSnapshot(pod, info, OomEvidence);
    ShowsInSnapshot(pod, info, CrashEvidence);
    ShowsInSnapshot(pod, info, PullEvidence);
    forall i | 0 <= i < |pod.statuses|
      ensures ContainerAnomaly(pod.statuses[i]) != "" <==>
        OomEvidence(StatusOf(pod.statuses[i])) || CrashEvidence(StatusOf(pod.statuses[i]))
        || PullEvidence(StatusOf(pod.statuses[i]))
    {
      ContainerAnomalyMeans(pod.statuses[i]);
    }
  }

  /** The failure type the classifier gives a pod of which the detector reported `anomaly`,
      nothing if that is "". */
  ghost function TypeOfAnomaly(info: PodInfo, anomaly: string): string {
    if anomaly == "pod-oomkill" || Shows(Some(info), OomEvidence) then "pod-oomkilled"
    else if anomaly == "pod-crash" || Shows(Some(info), CrashEvidence) then "pod-crashed"
    else if info.phase == "Terminating" then "pod-stuck-terminating"
    else if anomaly != "" && info.phase in {"Pending", "Failed"} then "pod-init-timeout"
    else "unknown"
  }

  /** An undiagnosed pod-triggered Investigation holding a snapshot of the pod: a pass
      diagnoses it by what the detector says of that pod. */
  lemma PassFollowsDetector(s: Spec, pod: Pod, history: seq<Transition>, ns: string, w: World, gh: bool, out: Spec)
    requires PodTriggered(s) && s.diagnosis.None?
    requires s.pod == Some(Snapshot(pod, history))
    requires Correlated(s, ns, w, gh, out)
    ensures out.diagnosis.Some?
    ensures out.diagnosis.value.failureType == TypeOfAnomaly(Snapshot(pod, history), AnomalyOf(pod.statuses))
  {
    var info := Snapshot(pod, history);
    var e := Enriched(s, ns, w, gh);
    EnrichedKeeps(s, ns, w, gh);
    DiagnosisMatchesEvidence(e);
    SameStatusesShowTheSame(e.pod.value, info);
    DetectsExactlyTheEvidence(pod, history);
    ShowsInSnapshot(pod, info, OomEvidence);
    ShowsInSnapshot(pod, info, CrashEvidence);
    ShowsInSnapshot(pod, info, PullEvidence);
    var i := FirstIndex(pod.statuses, c => ContainerAnomaly(c) != "");
    if i < |pod.statuses| {
      ContainerAnomalyMeans(pod.statuses[i]);
    }
  }

  lemma SameStatusesShowTheSame(p: PodInfo, q: PodInfo)
    requires p.containerStatuses == q.containerStatuses
    ensures Shows(Some(p), OomEvidence) == Shows(Some(q), OomEvidence)
    ensures Shows(Some(p), CrashEvidence) == Shows(Some(q), CrashEvidence)
    ensures Shows(Some(p), PullEvidence) == Shows(Some(q), PullEvidence)
  {
  }

  /** From detection to diagnosis when no log append intervenes. */
  lemma TriggerPredictsDiagnosis(o: Origin, w: World, gh: bool, out: Spec)
    requires o.PodAnomaly? && Sound(o)
    requires Correlated(InitialSpec(o), o.pod.namespace, w, gh, out)
    ensures out.diagnosis.Some? && out.trigger == InitialSpec(o).trigger
    ensures var t := out.diagnosis.value.failureType;
      && (out.trigger.kind == "pod-oomkill" ==> t == "pod-oomkilled")
      && (out.trigger.kind == "pod-crash" ==> t in {"pod-crashed", "pod-oomkilled"})
      && (out.trigger.kind == "pod-init-timeout" && o.pod.phase in {"Pending", "Failed"} ==>
            t in {"pod-init-timeout", "pod-crashed", "pod-oomkilled"})
      && (out.trigger.kind == "pod-init-timeout" && t == "unknown" ==>
            o.pod.phase !in {"Pending", "Failed", "Terminating"})
  {
    EnrichedKeeps(InitialSpec(o), o.pod.namespace, w, gh);
    PassFollowsDetector(InitialSpec(o), o.pod, o.history, o.pod.namespace, w, gh, out);
  }

  /** A container that was killed for memory, or exited with the code such a kill gives. */
  predicate KilledForMemory(c: Container) {
    c.state.Terminated? && (c.state.reason == OOM_KILLED || c.state.exitCode == 137)
  }

  /** When the log appender replaces the snapshot before the first pass, the diagnosis follows
      the later pod and not the trigger: it is pod-oomkilled exactly if the later pod has a
      container killed for memory, and if the detector says nothing of the later pod it is
      unknown, or pod-stuck-terminating in that phase. */
  lemma AppendedSnapshotDecides(o: Origin, later: Origin, w: World, gh: bool, out: Spec)
    requires o.PodAnomaly? && Sound(o) && later.PodDeletion?
    requires Correlated(AppendedSpec(InitialSpec(o), later), o.pod.namespace, w, gh, out)
    ensures out.trigger == InitialSpec(o).trigger && out.diagnosis.Some?
    ensures out.diagnosis.value.failureType ==
            TypeOfAnomaly(Snapshot(later.pod, later.history), AnomalyOf(later.pod.statuses))
    ensures out.diagnosis.value.failureType == "pod-oomkilled" <==>
            exists i :: 0 <= i < |later.pod.statuses| && KilledForMemory(later.pod.statuses[i])
    ensures AnomalyOf(later.pod.statuses) == "" ==>
            out.diagnosis.value.failureType == (if later.pod.phase == "Terminating" then "pod-stuck-terminating"
                                                else "unknown")
  {
    var s := AppendedSpec(InitialSpec(o), later);
    EnrichedKeeps(s, o.pod.namespace, w, gh);
    PassFollowsDetector(s, later.pod, later.history, o.pod.namespace, w, gh, out);
    DetectsExactlyTheEvidence(later.pod, later.history);
    ShowsInSnapshot(later.pod, Snapshot(later.pod, later.history), OomEvidence);
    OomEvidenceMeans(later.pod);
  }

  lemma OomEvidenceMeans(pod: Pod)
    ensures forall i :: 0 <= i < |pod.statuses| ==>
      (OomEvidence(StatusOf(pod.statuses[i])) <==> KilledForMemory(pod.statuses[i]))
  {
  }
}
