/** internal/diagnosis: the ordered table of failure patterns and the first-match classifier. */
module Classifier {
  import opened Api

  datatype FailurePattern = FailurePattern(
    kind: string, description: string, matches: Spec -> bool, remediation: string)

  predicate OomEvidence(c: ContainerStatus) {
    c.oomKilled || (c.state == "terminated" && c.exitCode == Some(137))
  }

  predicate CrashEvidence(c: ContainerStatus) {
    c.state == "terminated" && c.exitCode.Some? && c.exitCode.value != 0 && !c.oomKilled
  }

  predicate PullEvidence(c: ContainerStatus) {
    c.state == "waiting" && (c.reason == "ImagePullBackOff" || c.reason == "ErrImagePull")
  }

  /** Some container status of the pod snapshot, if there is one, shows the evidence. */
  predicate Shows(pod: Option<PodInfo>, evidence: ContainerStatus -> bool) {
    pod.Some? && exists c :: c in pod.value.containerStatuses && evidence(c)
  }

  predicate PodPhaseIn(pod: Option<PodInfo>, phases: set<string>) {
    pod.Some? && pod.value.phase in phases
  }

  predicate RunnerPhaseIs(runner: Option<RunnerInfo>, phase: string) {
    runner.Some? && runner.value.phase == phase
  }

  predicate JobStatusIs(job: Option<Job>, status: string) {
    job.Some? && job.value.status == status
  }

  const KNOWN_PATTERNS: seq<FailurePattern> := [
    FailurePattern("pod-oomkilled", "Runner pod OOMKilled",
      (s: Spec) => Shows(s.pod, OomEvidence),
      "Increase memory limits on the runner pod template."),
    FailurePattern("pod-crashed", "Runner pod exited with non-zero exit code",
      (s: Spec) => Shows(s.pod, CrashEvidence),
      "Check collected logs for the crash reason. Common causes: broken entrypoint scripts, "
      + "missing binaries in the runner image, or incompatible runner versions."),
    FailurePattern("pod-stuck-terminating", "Runner pod stuck Terminating",
      (s: Spec) => PodPhaseIn(s.pod, {"Terminating"}),
      "Force-delete the pod. Check node autoscaler configuration."),
    FailurePattern("pod-init-timeout", "Runner pod killed during init",
      (s: Spec) => PodPhaseIn(s.pod, {"Pending", "Failed"}) && Shows(s.pod, PullEvidence),
      "Pre-pull runner images or use a registry mirror closer to the cluster."),
    FailurePattern("runner-stuck-running", "EphemeralRunner stuck in Running state",
      (s: Spec) => RunnerPhaseIs(s.runner, "Running")
                   && (JobStatusIs(s.job, "completed") || s.trigger.kind == "runner-stuck"),
      "Delete the stuck EphemeralRunner manually. Check ARC controller logs."),
    FailurePattern("runner-stuck-failed", "EphemeralRunner stuck in Failed, not cleaned up",
      (s: Spec) => RunnerPhaseIs(s.runner, "Failed"),
      "Delete the stuck EphemeralRunner. This is a known ARC issue."),
    FailurePattern("job-stuck-queued", "GitHub job stuck queued with no viable runner",
      (s: Spec) => JobStatusIs(s.job, "queued") && s.runner.None?,
      "Check AutoScalingRunnerSet status and listener pod health.")
  ]

  function BuildSummary(s: Spec, description: string): string {
    var s0 := description;
    var s1 := if s.pod.None? then s0 else s0 + " (pod " + s.pod.value.namespace + "/" + s.pod.value.name + ")";
    var s2 := if s.runner.None? then s1
              else s1 + " (runner " + s.runner.value.namespace + "/" + s.runner.value.name + ")";
    if s.job.None? then s2 else s2 + " [job: " + s.job.value.name + "]"
  }

  function DiagnosisFor(s: Spec, p: FailurePattern): Diagnosis {
    Diagnosis(p.kind, BuildSummary(s, p.description), p.remediation)
  }

  function ClassifyFrom(patterns: seq<FailurePattern>, s: Spec): Option<Diagnosis> {
    if patterns == [] then None
    else if patterns[0].matches(s) then Some(DiagnosisFor(s, patterns[0]))
    else ClassifyFrom(patterns[1..], s)
  }

  function Classify(s: Spec): Option<Diagnosis> {
    ClassifyFrom(KNOWN_PATTERNS, s)
  }

  const UNKNOWN := Diagnosis("unknown", "No known failure pattern matched the collected evidence.", "")

  /** The diagnosis a Correlator pass assigns to a spec that has none. */
  function Diagnose(s: Spec): Diagnosis {
    match Classify(s)
    case Some(d) => d
    case None => UNKNOWN
  }

  // ---------- first match wins ----------

  ghost predicate FirstMatch(patterns: seq<FailurePattern>, s: Spec, i: nat) {
    i < |patterns| && patterns[i].matches(s) && forall j :: 0 <= j < i ==> !patterns[j].matches(s)
  }

  /** For any table: the result is the diagnosis of the first matching entry, and there is
      a result exactly when some entry matches. */
  lemma {:induction false} FirstMatchWins(patterns: seq<FailurePattern>, s: Spec)
    ensures ClassifyFrom(patterns, s).Some? <==> exists i :: 0 <= i < |patterns| && patterns[i].matches(s)
    ensures forall i: nat :: FirstMatch(patterns, s, i) ==>
      ClassifyFrom(patterns, s) == Some(DiagnosisFor(s, patterns[i]))
  {
    if patterns != [] && !patterns[0].matches(s) {
      var rest := patterns[1..];
      FirstMatchWins(rest, s);
      forall i: nat | FirstMatch(patterns, s, i)
        ensures ClassifyFrom(patterns, s) == Some(DiagnosisFor(s, patterns[i]))
      {
        assert forall j :: 0 <= j < i - 1 ==> rest[j] == patterns[j + 1];
        assert FirstMatch(rest, s, i - 1);
      }
      forall i | 0 <= i < |patterns| && patterns[i].matches(s)
        ensures ClassifyFrom(patterns, s).Some?
      {
        assert rest[i - 1].matches(s);
      }
      if ClassifyFrom(rest, s).Some? {
        var i :| 0 <= i < |rest| && rest[i].matches(s);
        assert patterns[i + 1].matches(s);
      }
    }
  }

  /** The conditions of the table, entry by entry. */
  lemma TableEntries(s: Spec)
    ensures |KNOWN_PATTERNS| == 7
    ensures KNOWN_PATTERNS[0].matches(s) == Shows(s.pod, OomEvidence)
    ensures KNOWN_PATTERNS[1].matches(s) == Shows(s.pod, CrashEvidence)
    ensures KNOWN_PATTERNS[2].matches(s) == PodPhaseIn(s.pod, {"Terminating"})
    ensures KNOWN_PATTERNS[3].matches(s) == (PodPhaseIn(s.pod, {"Pending", "Failed"}) && Shows(s.pod, PullEvidence))
    ensures KNOWN_PATTERNS[4].matches(s) ==
      (RunnerPhaseIs(s.runner, "Running") && (JobStatusIs(s.job, "completed") || s.trigger.kind == "runner-stuck"))
    ensures KNOWN_PATTERNS[5].matches(s) == RunnerPhaseIs(s.runner, "Failed")
    ensures KNOWN_PATTERNS[6].matches(s) == (JobStatusIs(s.job, "queued") && s.runner.None?)
  {
  }

  /** The failure type read off the evidence, without the table. */
  ghost function TypeOfEvidence(s: Spec): string {
    if Shows(s.pod, OomEvidence) then "pod-oomkilled"
    else if Shows(s.pod, CrashEvidence) then "pod-crashed"
    else if PodPhaseIn(s.pod, {"Terminating"}) then "pod-stuck-terminating"
    else if PodPhaseIn(s.pod, {"Pending", "Failed"}) && Shows(s.pod, PullEvidence) then "pod-init-timeout"
    else if RunnerPhaseIs(s.runner, "Running") && (JobStatusIs(s.job, "completed") || s.trigger.kind == "runner-stuck")
    then "runner-stuck-running"
    else if RunnerPhaseIs(s.runner, "Failed") then "runner-stuck-failed"
    else if JobStatusIs(s.job, "queued") && s.runner.None? then "job-stuck-queued"
    else "unknown"
  }

  /** The place of the first matching entry; past the end if none matches. */
  lemma FirstEntry(s: Spec) returns (i: nat)
    ensures i <= 7
    ensures i < 7 ==> KNOWN_PATTERNS[i].matches(s) && Diagnose(s).failureType == KNOWN_PATTERNS[i].kind
    ensures i == 7 ==> Diagnose(s) == UNKNOWN
    ensures forall j :: 0 <= j < i ==> !KNOWN_PATTERNS[j].matches(s)
  {
    FirstMatchWins(KNOWN_PATTERNS, s);
    i := FirstIndex(KNOWN_PATTERNS, (p: FailurePattern) => p.matches(s));
    if i < 7 {
      assert FirstMatch(KNOWN_PATTERNS, s, i);
    }
  }

  /** The classifier's verdict is the highest-ranking evidence. */
  lemma DiagnosisMatchesEvidence(s: Spec)
    ensures Diagnose(s).failureType == TypeOfEvidence(s)
  {
    var i := FirstEntry(s);
    TableEntries(s);
  }

  /** Every type the pass can diagnose, in the fields of the spec: the four pod types by rank;
      below them a Running runner whose job is completed or which is itself the trigger, a
      Failed runner, and a queued job without runner. */
  lemma DiagnosisInFields(s: Spec)
    ensures var t := Diagnose(s).failureType;
      var oom := s.pod.Some? && exists c ::
        && c in s.pod.value.containerStatuses
        && (c.oomKilled || (c.state == "terminated" && c.exitCode == Some(137)));
      var crash := s.pod.Some? && exists c ::
        && c in s.pod.value.containerStatuses
        && c.state == "terminated" && c.exitCode.Some? && c.exitCode.value != 0 && !c.oomKilled;
      var pull := s.pod.Some? && exists c ::
        && c in s.pod.value.containerStatuses
        && c.state == "waiting" && (c.reason == "ImagePullBackOff" || c.reason == "ErrImagePull");
      var dying := s.pod.Some? && s.pod.value.phase == "Terminating";
      var starting := s.pod.Some? && (s.pod.value.phase == "Pending" || s.pod.value.phase == "Failed");
      && (t == "pod-oomkilled" <==> oom)
      && (t == "pod-crashed" <==> !oom && crash)
      && (t == "pod-stuck-terminating" <==> !oom && !crash && dying)
      && (t == "pod-init-timeout" <==> !oom && !crash && starting && pull)
    ensures var t := Diagnose(s).failureType;
      var podType := t in {"pod-oomkilled", "pod-crashed", "pod-stuck-terminating", "pod-init-timeout"};
      && (t == "runner-stuck-running" <==>
            && !podType && s.runner.Some? && s.runner.value.phase == "Running"
            && ((s.job.Some? && s.job.value.status == "completed") || s.trigger.kind == "runner-stuck"))
      && (t == "runner-stuck-failed" <==> !podType && s.runner.Some? && s.runner.value.phase == "Failed")
      && (t == "job-stuck-queued" <==>
            !podType && s.runner.None? && s.job.Some? && s.job.value.status == "queued")
      && (podType || t in {"runner-stuck-running", "runner-stuck-failed", "job-stuck-queued", "unknown"})
  {
    DiagnosisMatchesEvidence(s);
  }

  /** The summary starts with the pattern's description and names the pod, the runner and the
      job that are known; each type has its own description and remediation. */
  lemma DiagnosisSays(s: Spec)
    ensures var d, runner := Diagnose(s), s.runner;
      d.failureType != "unknown" ==>
        exists i :: 0 <= i < |KNOWN_PATTERNS| && KNOWN_PATTERNS[i].kind == d.failureType
          && d.remediation == KNOWN_PATTERNS[i].remediation
          && d.summary == KNOWN_PATTERNS[i].description
               + (if s.pod.Some? then " (pod " + s.pod.value.namespace + "/" + s.pod.value.name + ")" else "")
               + (if runner.Some? then " (runner " + runner.value.namespace + "/" + runner.value.name + ")" else "")
               + (if s.job.Some? then " [job: " + s.job.value.name + "]" else "")
    ensures Diagnose(s).failureType == "unknown" ==> Diagnose(s).remediation == "" && Diagnose(s).summary != ""
  {
    var i := FirstEntry(s);
    FirstMatchWins(KNOWN_PATTERNS, s);
    if i < 7 {
      assert FirstMatch(KNOWN_PATTERNS, s, i);
      assert Diagnose(s) == DiagnosisFor(s, KNOWN_PATTERNS[i]);
      SummaryNames(s, KNOWN_PATTERNS[i].description);
    }
  }

  lemma SummaryNames(s: Spec, description: string)
    ensures BuildSummary(s, description) == description
      + (if s.pod.Some? then " (pod " + s.pod.value.namespace + "/" + s.pod.value.name + ")" else "")
      + (if s.runner.Some? then " (runner " + s.runner.value.namespace + "/" + s.runner.value.name + ")" else "")
      + (if s.job.Some? then " [job: " + s.job.value.name + "]" else "")
  {
  }

  /** Neither the timeline nor an earlier diagnosis is evidence. */
  lemma OnlyEvidenceCounts(s: Spec, timeline: seq<TimelineEvent>, d: Option<Diagnosis>)
    ensures Classify(s.(timeline := timeline, diagnosis := d)) == Classify(s)
  {
    SameMatchesSameResult(KNOWN_PATTERNS, s.(timeline := timeline, diagnosis := d), s);
  }

  // ---------- the order of the container statuses is irrelevant ----------

  lemma PermutedStatusesShowTheSame(p: PodInfo, q: PodInfo, evidence: ContainerStatus -> bool)
    requires multiset(p.containerStatuses) == multiset(q.containerStatuses)
    ensures Shows(Some(p), evidence) == Shows(Some(q), evidence)
  {
    forall c | c in p.containerStatuses ensures c in q.containerStatuses {
      assert c in multiset(p.containerStatuses);
    }
    forall c | c in q.containerStatuses ensures c in p.containerStatuses {
      assert c in multiset(q.containerStatuses);
    }
  }

  lemma {:induction false} SameMatchesSameResult(patterns: seq<FailurePattern>, s: Spec, t: Spec)
    requires forall i :: 0 <= i < |patterns| ==> patterns[i].matches(s) == patterns[i].matches(t)
    requires forall d :: BuildSummary(s, d) == BuildSummary(t, d)
    ensures ClassifyFrom(patterns, s) == ClassifyFrom(patterns, t)
  {
    if patterns != [] {
      SameMatchesSameResult(patterns[1..], s, t);
    }
  }

  /** Reordering the container statuses changes nothing in the result: not the type,
      not the summary, not the remediation. */
  lemma ClassifyIgnoresContainerOrder(s: Spec, statuses: seq<ContainerStatus>)
    requires s.pod.Some?
    requires multiset(statuses) == multiset(s.pod.value.containerStatuses)
    ensures Classify(s.(pod := Some(s.pod.value.(containerStatuses := statuses)))) == Classify(s)
  {
    var q := s.pod.value.(containerStatuses := statuses);
    var t := s.(pod := Some(q));
    PermutedStatusesShowTheSame(s.pod.value, q, OomEvidence);
    PermutedStatusesShowTheSame(s.pod.value, q, CrashEvidence);
    PermutedStatusesShowTheSame(s.pod.value, q, PullEvidence);
    SameMatchesSameResult(KNOWN_PATTERNS, s, t);
  }
}
