/** What the lifecycle protocol guarantees in every run. */
module LifecycleTheorems {
  import opened Api
  import opened Naming
  import opened Origins
  import opened Correlation
  import opened Counting
  import opened Lifecycle
  import opened LifecycleInvariants
  import opened LifecycleSteps

  // ---------- runs ----------

  lemma {:induction false} RecordGrowsAlongRun(tr: seq<State>, i: nat, j: nat)
    requires Run(tr) && i <= j < |tr|
    ensures tr[i].past <= tr[j].past && tr[i].podPast <= tr[j].podPast && tr[i].attempts <= tr[j].attempts
    decreases j - i
  {
    if i < j {
      RecordGrowsAlongRun(tr, i, j - 1);
      assert Next(tr[j - 1], tr[j - 1 + 1]);
      var a :| Enabled(tr[j - 1], a) && tr[j] == Apply(tr[j - 1], a);
      if !a.Restart? {
        MovesOneThread(tr[j - 1], a);
      }
    }
  }

  // ---------- incarnations ----------

  lemma StoredIsLatest(s: State, v: Version, k: Key)
    requires Records(s) && v in s.past && k in s.store && v.uid == s.store[k].uid
    ensures Evolves(v, s.store[k]) && KeyOf(v.src) == k
  {
  }

  /** Whatever the interleaving, two stored versions of one incarnation, the second at the
      same time or later, have the same source and trigger; a diagnosis, a runner or a job
      once set stays; log paths grow at the end only; no timeline entry is lost; and the
      phase never goes back. */
  lemma IncarnationsEvolve(tr: seq<State>, i: nat, j: nat, k: Key, l: Key)
    requires Run(tr) && i <= j < |tr|
    requires k in tr[i].store && l in tr[j].store && tr[i].store[k].uid == tr[j].store[l].uid
    ensures k == l
    ensures Evolves(tr[i].store[k], tr[j].store[l])
  {
    var v := tr[i].store[k];
    assert v in tr[i].past && KeyOf(v.src) == k by {
      InvAlongRun(tr, i);
    }
    assert Records(tr[j]) by {
      InvAlongRun(tr, j);
    }
    RecordGrowsAlongRun(tr, i, j);
    StoredIsLatest(tr[j], v, l);
  }

  // ---------- completion ----------

  /** No key is deleted and created again between a Correlator's two writes. */
  ghost predicate NeverRecreated(tr: seq<State>) {
    forall i, t :: 0 <= i < |tr| ==> match Local(tr[i], t)
      case CorrelateStatus(_, written) =>
        KeyOf(written.src) in tr[i].store ==> tr[i].store[KeyOf(written.src)].uid == written.uid
      case _ => true
  }

  lemma CrossesOnlyOnCompletion(s: State, a: Action)
    requires Enabled(s, a) && Apply(s, a).crossed != s.crossed
    ensures a.CompleteOk? && Local(s, a.t).read.uid != Local(s, a.t).written.uid
  {
  }

  lemma CompletesWhatItWrote(tr: seq<State>, i: nat, t: nat)
    requires Run(tr) && NeverRecreated(tr) && i < |tr| && Enabled(tr[i], CompleteOk(t))
    ensures Local(tr[i], t).read.uid == Local(tr[i], t).written.uid
  {
    InvAlongRun(tr, i);
    LocalOk(tr[i], t);
    CheckedReadIsStored(tr[i], Local(tr[i], t).read);
  }

  lemma {:induction false} NothingCrossed(tr: seq<State>, i: nat)
    requires Run(tr) && NeverRecreated(tr) && i < |tr|
    ensures tr[i].crossed == {}
  {
    if i > 0 {
      NothingCrossed(tr, i - 1);
      assert Next(tr[i - 1], tr[i - 1 + 1]);
      var a :| Enabled(tr[i - 1], a) && tr[i] == Apply(tr[i - 1], a);
      if Apply(tr[i - 1], a).crossed != tr[i - 1].crossed {
        CrossesOnlyOnCompletion(tr[i - 1], a);
        CompletesWhatItWrote(tr, i - 1, a.t);
      }
    }
  }

  /** Without such a recreation, every complete Investigation has a diagnosis and was
      collecting before, although spec and status are written by two separate updates. */
  lemma CompleteMeansDiagnosed(tr: seq<State>, i: nat, k: Key)
    requires Run(tr) && NeverRecreated(tr) && i < |tr|
    requires k in tr[i].store && tr[i].store[k].phase == PHASE_COMPLETE
    ensures tr[i].store[k].spec.diagnosis.Some?
    ensures exists u :: u in tr[i].past && u.uid == tr[i].store[k].uid && u.phase == PHASE_COLLECTING
  {
    InvAlongRun(tr, i);
    NothingCrossed(tr, i);
    assert CompletedProperly(tr[i], tr[i].store[k]);
  }

  /** With recreations allowed: a Correlator's status write leaves a complete Investigation
      without diagnosis exactly when its second read returned another incarnation than the
      one it had written, and that one had no diagnosis. */
  lemma CompletionIsUndiagnosedExactlyWhenCrossed(tr: seq<State>, i: nat, t: nat)
    requires Run(tr) && i < |tr| && Enabled(tr[i], CompleteOk(t))
    ensures var th := Local(tr[i], t);
      var k := KeyOf(th.read.src);
      var after := Apply(tr[i], CompleteOk(t)).store;
      && k in after && after[k].phase == PHASE_COMPLETE
      && (after[k].spec.diagnosis.None? <==> th.read.uid != th.written.uid && th.read.spec.diagnosis.None?)
  {
    InvAlongRun(tr, i);
    LocalOk(tr[i], t);
    var th := Local(tr[i], t);
    CheckedReadIsStored(tr[i], th.read);
    if th.read.uid == th.written.uid {
      assert Evolves(th.written, th.read);
    }
  }

  // ---------- the cap ----------

  /** The count is the live Investigations, the unresolved reservations, the cleanup
      deletions not yet counted and the user deletions; so a decrement is never cut off at
      zero, and the live Investigations stay within the cap or the initial number. */
  lemma CountAccountsForEverything(tr: seq<State>, i: nat, t: nat)
    requires Run(tr) && i < |tr|
    ensures var s := tr[i];
      && s.count == |s.store| + |Holding(s)| + |Owing(s)| + s.userDeleted
      && |s.store| <= (if s.initial < s.max then s.max else s.initial)
      && (Local(s, t).Restore? || Local(s, t).SweepCount? ==> Lowered(s.count, 1) == s.count - 1)
  {
    InvAlongRun(tr, i);
    FloorIsOff(tr[i], t);
  }

  /** However many creators raced, lost and failed: once none is between its reservation and
      the outcome of its Create, and no sweep is behind, the count is exactly what is live
      plus what users deleted. */
  lemma LosersRestoreTheCount(tr: seq<State>, i: nat)
    requires Run(tr) && i < |tr|
    requires forall t :: !Holds(Local(tr[i], t)) && !Owes(Local(tr[i], t))
    ensures tr[i].count == |tr[i].store| + tr[i].userDeleted
  {
    InvAlongRun(tr, i);
    assert forall t :: t in tr[i].threads ==> !Holds(Local(tr[i], t)) && !Owes(Local(tr[i], t));
    assert Holding(tr[i]) == {} && Owing(tr[i]) == {};
  }

  // ---------- one Investigation per source ----------

  /** What an Investigation's spec says it is about. */
  function ShownSource(namespace: string, s: Spec): Option<Source> {
    if s.trigger.kind == "job-stuck-queued" then
      if s.job.Some? then Some(JobSource(namespace, s.job.value.id)) else None
    else if s.trigger.kind == "runner-stuck" then
      if s.runner.Some? then Some(RunnerSource(namespace, s.runner.value.name)) else None
    else if s.pod.Some? then Some(PodSource(namespace, s.pod.value.name))
    else None
  }

  lemma ShowsItsSource(tr: seq<State>, i: nat, k: Key)
    requires Run(tr) && i < |tr| && k in tr[i].store
    ensures KeyOf(tr[i].store[k].src) == k
    ensures ShownSource(k.namespace, tr[i].store[k].spec) == Some(tr[i].store[k].src)
  {
    InvAlongRun(tr, i);
    FaithfulShowsSource(tr[i].store[k]);
  }

  lemma FaithfulShowsSource(v: Version)
    requires Faithful(v)
    ensures ShownSource(KeyOf(v.src).namespace, v.spec) == Some(v.src)
  {
  }

  /** In every reachable state the spec of every stored Investigation shows a source, the key
      is that source's, and two of them that show the same pod, runner or job in a namespace
      are the same. */
  lemma OnePerSource(tr: seq<State>, i: nat, k: Key, l: Key)
    requires Run(tr) && i < |tr| && k in tr[i].store && l in tr[i].store
    ensures var x, y := ShownSource(k.namespace, tr[i].store[k].spec), ShownSource(l.namespace, tr[i].store[l].spec);
      && x.Some? && KeyOf(x.value) == k
      && (x == y <==> k == l)
    ensures var a, b := tr[i].store[k].spec, tr[i].store[l].spec;
      && k.namespace == l.namespace
      && a.trigger.kind == "job-stuck-queued" && b.trigger.kind == "job-stuck-queued"
      && a.job.Some? && b.job.Some? && a.job.value.id == b.job.value.id
      ==> k == l
  {
    ShowsItsSource(tr, i, k);
    ShowsItsSource(tr, i, l);
  }

  /** What kind of object a trigger is about: 0 a pod, 1 a runner, 2 a job. */
  function TriggerClass(kind: string): int {
    if kind == "job-stuck-queued" then 2 else if kind == "runner-stuck" then 1 else 0
  }

  /** Two stored Investigations with one trigger source text are the same exactly if their
      triggers are about the same kind of object and, for jobs, they lie in one namespace. */
  lemma SourceTextDecidesExactly(tr: seq<State>, i: nat, k: Key, l: Key)
    requires Run(tr) && i < |tr| && k in tr[i].store && l in tr[i].store
    requires tr[i].store[k].spec.trigger.source == tr[i].store[l].spec.trigger.source
    requires '/' !in k.namespace && '/' !in l.namespace
    ensures var c, d := TriggerClass(tr[i].store[k].spec.trigger.kind), TriggerClass(tr[i].store[l].spec.trigger.kind);
      k == l <==> c == d && (c == 2 ==> k.namespace == l.namespace)
  {
    var a, b := tr[i].store[k], tr[i].store[l];
    assert Faithful(a) && Faithful(b) && KeyOf(a.src) == k && KeyOf(b.src) == l by {
      InvAlongRun(tr, i);
    }
    var r := TextRepo(a);
    var q := TextRepo(b);
    SourceTextDecidesWithinKind(a.src, r, b.src, q);
  }

  lemma TextRepo(v: Version) returns (repo: Repo)
    requires Faithful(v)
    ensures v.spec.trigger.source == SourceText(v.src, repo)
  {
    if v.src.JobSource? {
      repo :| v.spec.trigger.source == SourceText(v.src, repo);
    } else {
      repo := NO_REPO;
    }
  }

  // ---------- diagnosis by origin ----------

  /** In every reachable state: what a stored Investigation of each kind can contain and
      how it can be diagnosed. */
  lemma DiagnosisByOrigin(tr: seq<State>, i: nat, k: Key)
    requires Run(tr) && i < |tr| && k in tr[i].store
    ensures var v := tr[i].store[k];
      var d := v.spec.diagnosis;
      match v.src
      case PodSource(_, _) =>
        && v.spec.runner.None? && v.spec.job.None? && v.spec.workflowRun.None?
        && (d.Some? ==> d.value.failureType in POD_TYPES + {"unknown"})
      case RunnerSource(_, _) =>
        && v.spec.runner.Some? && v.spec.runner.value.phase in {"Running", "Failed"}
        && (d.Some? ==>
              d.value.failureType in POD_TYPES
              || (d.value.failureType == "runner-stuck-failed" && v.spec.runner.value.phase == "Failed")
              || (d.value.failureType == "runner-stuck-running" && v.spec.runner.value.phase == "Running"))
      case JobSource(_, _) =>
        && (d.Some? && v.spec.runner.None? ==> d.value.failureType == "job-stuck-queued")
        && (d.Some? ==> exists u :: u in tr[i].past && u.uid == v.uid
                          && u.spec.diagnosis == d && DiagnosisKnowsRunner(u.spec))
  {
    InvAlongRun(tr, i);
    var v := tr[i].store[k];
    assert Faithful(v) && DiagnosedHonestly(tr[i], v);
    if v.src.JobSource? && v.spec.diagnosis.Some? {
      var u :| u in tr[i].past && u.uid == v.uid && u.rv <= v.rv
        && u.spec.diagnosis == v.spec.diagnosis && (SaysJobStuck(u.spec) <==> u.spec.runner.None?);
      assert u.uid == v.uid;
    }
  }

  /** The step is a Correlator's write to the key. */
  predicate CorrelatesKey(s: State, a: Action, k: Key) {
    a.CorrelateOk? && Local(s, a.t).CorrelateWrite? && KeyOf(Local(s, a.t).read.src) == k
  }

  lemma OtherWritesKeepDiagnosis(s: State, a: Action, k: Key)
    requires Records(s) && Threads(s) && Enabled(s, a) && !CorrelatesKey(s, a, k)
    requires k in s.store && k in Apply(s, a).store
    ensures var x, y := s.store[k].spec, Apply(s, a).store[k].spec;
      y.diagnosis == x.diagnosis && y.runner == x.runner
  {
    if a.AppendOk? { AppendKeepsDiagnosis(s, a.t, k); }
    else if a.MarkOk? { MarkKeepsSpecs(s, a.t, k); }
    else if a.CompleteOk? { CompleteKeepsSpecs(s, a.t, k); }
    else if a.CorrelateOk? { CorrelateKeepsOthers(s, a, k); }
    else if !WritesInvestigation(a) { OtherStepsKeepTheStore(s, a); }
  }

  lemma MarkKeepsSpecs(s: State, t: nat, k: Key)
    requires Revisions(s) && Enabled(s, MarkOk(t)) && k in s.store
    ensures k in Apply(s, MarkOk(t)).store && Apply(s, MarkOk(t)).store[k].spec == s.store[k].spec
  {
    var j := KeyOf(Local(s, t).made.src);
    assert KeyOf(s.store[j].src) == j;
  }

  lemma CompleteKeepsSpecs(s: State, t: nat, k: Key)
    requires Revisions(s) && Enabled(s, CompleteOk(t)) && k in s.store
    ensures k in Apply(s, CompleteOk(t)).store && Apply(s, CompleteOk(t)).store[k].spec == s.store[k].spec
  {
    var j := KeyOf(Local(s, t).read.src);
    assert KeyOf(s.store[j].src) == j;
  }

  lemma CorrelateKeepsOthers(s: State, a: Action, k: Key)
    requires Revisions(s) && a.CorrelateOk? && Enabled(s, a) && !CorrelatesKey(s, a, k) && k in s.store
    ensures k in Apply(s, a).store && Apply(s, a).store[k] == s.store[k]
  {
    var j := KeyOf(Local(s, a.t).read.src);
    assert KeyOf(s.store[j].src) == j;
  }

  lemma AppendKeepsDiagnosis(s: State, t: nat, k: Key)
    requires Records(s) && Threads(s) && Enabled(s, AppendOk(t)) && k in s.store && k in Apply(s, AppendOk(t)).store
    ensures var x, y := s.store[k].spec, Apply(s, AppendOk(t)).store[k].spec;
      y.diagnosis == x.diagnosis && y.runner == x.runner
  {
    LocalOk(s, t);
    CheckedReadIsStored(s, Local(s, t).read);
  }

  /** A step leaves a job's Investigation with a diagnosis that disagrees with its runner, where
      it agreed before, exactly if a Correlator writes it that read it with a diagnosis and
      without runner and finds a runner listed under the job's runner name. */
  lemma DiagnosisMissesRunnerExactlyWhenLate(tr: seq<State>, i: nat, a: Action, k: Key)
    requires Run(tr) && i < |tr| && Enabled(tr[i], a)
    requires k in tr[i].store && k in Apply(tr[i], a).store && tr[i].store[k].src.JobSource?
    requires DiagnosisKnowsRunner(tr[i].store[k].spec)
    ensures var v := tr[i].store[k];
      !DiagnosisKnowsRunner(Apply(tr[i], a).store[k].spec) <==>
        CorrelatesKey(tr[i], a, k) && v.spec.diagnosis.Some? && MatchesARunner(v.spec, k.namespace, a.w)
  {
    var s := tr[i];
    InvAlongRun(tr, i);
    if CorrelatesKey(s, a, k) {
      CorrelateKeepsJob(s, a, k);
    } else {
      OtherWritesKeepDiagnosis(s, a, k);
    }
  }

  lemma CorrelateKeepsJob(s: State, a: Action, k: Key)
    requires Inv(s) && Enabled(s, a) && CorrelatesKey(s, a, k) && k in s.store && s.store[k].src.JobSource?
    requires DiagnosisKnowsRunner(s.store[k].spec)
    ensures k in Apply(s, a).store
    ensures !DiagnosisKnowsRunner(Apply(s, a).store[k].spec) <==>
      s.store[k].spec.diagnosis.Some? && MatchesARunner(s.store[k].spec, k.namespace, a.w)
  {
    LocalOk(s, a.t);
    var v := Local(s, a.t).read;
    CheckedReadIsStored(s, v);
    assert Faithful(v);
    PassKeepsJobTriggered(v.spec, k.namespace, a.w, a.gh, a.out);
  }

  /** The timeline of every stored Investigation that an anomaly, a stuck runner or a stuck
      job opened shows that event, whatever passes and appends came since. */
  lemma TriggerStaysInTimeline(tr: seq<State>, i: nat, k: Key)
    requires Run(tr) && i < |tr| && k in tr[i].store
    requires tr[i].store[k].spec.trigger.kind != "pod-deletion"
    ensures exists e :: e in tr[i].store[k].spec.timeline && e.kind == tr[i].store[k].spec.trigger.kind
  {
    InvAlongRun(tr, i);
    assert Faithful(tr[i].store[k]);
  }

  // ---------- who owns a log ----------

  /** Log paths appear only in Investigations of pods, below the pod's own directory, so two
      Investigations never list the same file. */
  lemma LogPathsAreOwned(tr: seq<State>, i: nat, k: Key, l: Key, p: string, q: string)
    requires Run(tr) && i < |tr| && k in tr[i].store && l in tr[i].store
    requires p in tr[i].store[k].spec.logPaths && q in tr[i].store[l].spec.logPaths
    ensures tr[i].store[k].src.PodSource?
    ensures LogOf(p, tr[i].store[k].src.namespace, tr[i].store[k].src.name)
    ensures Components(p) == Components(q) ==> k == l
  {
    InvAlongRun(tr, i);
    assert Faithful(tr[i].store[k]) && Faithful(tr[i].store[l]);
  }

  // ---------- the finalizer ----------

  /** A pod that ever carried the log-collector finalizer, live or not, is gone or has lost the
      finalizer only after a collection attempt on it while it was being deleted; and if that
      attempt returned paths, they stand at the end of the log paths of a version of the pod's
      Investigation, or the cap was reached, or an API call failed. */
  lemma FinalizerSafety(tr: seq<State>, i: nat, j: nat, p: PodVersion)
    requires Run(tr) && i <= j < |tr|
    requires p in tr[i].podPast && p.pod.HasFinalizer()
    requires PodKey(p) in tr[j].pods && tr[j].pods[PodKey(p)].uid == p.uid
      ==> !tr[j].pods[PodKey(p)].pod.HasFinalizer()
    ensures exists a :: a in tr[j].attempts && a.uid == p.uid && a.pod.Deleting() && Accounted(tr[j], a)
  {
    InvAlongRun(tr, j);
    RecordGrowsAlongRun(tr, i, j);
    assert Protected(p);
  }

  /** The write that adds the finalizer: the pod was live, keeps its former finalizers and has
      the log-collector's after them, and is otherwise as it was read. */
  lemma FinalizerIsAdded(tr: seq<State>, i: nat, t: nat)
    requires Run(tr) && i < |tr| && Enabled(tr[i], FinalizerOk(t))
    ensures var seen, after := Local(tr[i], t).seen, Apply(tr[i], FinalizerOk(t));
      && PodKey(seen) in after.pods && after.pods[PodKey(seen)] in after.podPast
      && var q := after.pods[PodKey(seen)];
      && q.uid == seen.uid && q.pod.deletedAt.None?
      && q.pod.finalizers == seen.pod.finalizers + ["detective.arcdetective.io/log-collector"]
      && q.pod == seen.pod.(finalizers := q.pod.finalizers)
  {
    InvAlongRun(tr, i);
    LocalOk(tr[i], t);
  }

  /** From that write on, whatever others do, the pod disappears or loses the finalizer only
      after an accounted attempt made while it was being deleted. */
  lemma SafeOnceAdded(tr: seq<State>, i: nat, t: nat, j: nat)
    requires Run(tr) && i < j < |tr| && Enabled(tr[i], FinalizerOk(t)) && tr[i + 1] == Apply(tr[i], FinalizerOk(t))
    requires var seen := Local(tr[i], t).seen;
      PodKey(seen) in tr[j].pods && tr[j].pods[PodKey(seen)].uid == seen.uid
      ==> "detective.arcdetective.io/log-collector" !in tr[j].pods[PodKey(seen)].pod.finalizers
    ensures exists a ::
      a in tr[j].attempts && a.uid == Local(tr[i], t).seen.uid && a.pod.Deleting() && Accounted(tr[j], a)
  {
    FinalizerIsAdded(tr, i, t);
    var q := tr[i + 1].pods[PodKey(Local(tr[i], t).seen)];
    assert q.pod.finalizers[|q.pod.finalizers| - 1] == LOG_FINALIZER;
    FinalizerSafety(tr, i + 1, j, q);
  }

  /** An API call on the way from collected logs to the Investigation fails. */
  predicate LosesPaths(a: Action) {
    a.LookupError? || a.CreateErr? || a.AppendErr?
  }

  ghost predicate FaultlessRun(tr: seq<State>) {
    && tr != []
    && Init(tr[0])
    && forall i :: 0 <= i < |tr| - 1 ==> FaultlessNext(tr[i], tr[i + 1])
  }

  ghost predicate FaultlessNext(s: State, s': State) {
    exists a :: Enabled(s, a) && !LosesPaths(a) && s' == Apply(s, a)
  }

  lemma FaultlessRunsAreRuns(tr: seq<State>)
    requires FaultlessRun(tr)
    ensures Run(tr)
  {
    forall i | 0 <= i < |tr| - 1 ensures Next(tr[i], tr[i + 1]) {
      assert FaultlessNext(tr[i], tr[i + 1]);
    }
  }

  /** The thread has not given up collected paths because of a failed call. */
  predicate KeepsPaths(th: Thread) {
    !th.Restore? && (th.Release? ==> !th.attempt.outcome.ApiFailed?)
  }

  ghost predicate NothingLost(s: State) {
    && (forall t :: t in s.threads ==> KeepsPaths(s.threads[t]))
    && (forall a :: a in s.attempts ==> !a.outcome.ApiFailed?)
  }

  lemma MoverKeepsPaths(s: State, a: Action)
    requires Enabled(s, a) && !LosesPaths(a) && Mover(a).Some? && KeepsPaths(Local(s, a.t))
    ensures KeepsPaths(Local(Apply(s, a), a.t))
  {
  }

  lemma NewAttempts(s: State, a: Action)
    requires Enabled(s, a)
    ensures Apply(s, a).attempts == s.attempts + (if a.ReleaseOk? then {Local(s, a.t).attempt} else {})
  {
  }

  lemma StaysKept(s: State, s': State, t: nat)
    requires NothingLost(s)
    requires s'.threads == s.threads[t := Local(s', t)] && KeepsPaths(Local(s', t))
    requires s'.attempts <= s.attempts + (if Local(s, t).Release? then {Local(s, t).attempt} else {})
    ensures NothingLost(s')
  {
  }

  lemma FaultlessStep(s: State, a: Action)
    requires Enabled(s, a) && !LosesPaths(a) && NothingLost(s)
    ensures NothingLost(Apply(s, a))
  {
    NewAttempts(s, a);
    if Mover(a).Some? {
      MovesOneThread(s, a);
      MoverKeepsPaths(s, a);
      StaysKept(s, Apply(s, a), a.t);
    } else if !a.Restart? {
      MovesOneThread(s, a);
    }
  }

  lemma {:induction false} NothingLostAlongRun(tr: seq<State>, i: nat)
    requires FaultlessRun(tr) && i < |tr|
    ensures NothingLost(tr[i])
  {
    if i > 0 {
      NothingLostAlongRun(tr, i - 1);
      assert FaultlessNext(tr[i - 1], tr[i - 1 + 1]);
      var a :| Enabled(tr[i - 1], a) && !LosesPaths(a) && tr[i] == Apply(tr[i - 1], a);
      FaultlessStep(tr[i - 1], a);
    }
  }

  /** When no lookup, creation or append fails, the logs collected before a pod disappears are
      in a version of its Investigation unless the cap was reached, whatever else interleaves. */
  lemma FaultlessFinalizerKeepsLogs(tr: seq<State>, i: nat, j: nat, p: PodVersion)
    requires FaultlessRun(tr) && i <= j < |tr|
    requires p in tr[i].podPast && p.pod.HasFinalizer()
    requires PodKey(p) in tr[j].pods && tr[j].pods[PodKey(p)].uid == p.uid
      ==> !tr[j].pods[PodKey(p)].pod.HasFinalizer()
    ensures exists a ::
      && a in tr[j].attempts && a.uid == p.uid && a.pod.Deleting()
      && Accounted(tr[j], a) && !a.outcome.ApiFailed?
  {
    FaultlessRunsAreRuns(tr);
    FinalizerSafety(tr, i, j, p);
    NothingLostAlongRun(tr, j);
  }
}
