/** The inductive invariant of the lifecycle protocol, one part at a time. */
module LifecycleInvariants {
  import opened Api
  import opened Naming
  import opened Origins
  import opened Correlation
  import opened Lifecycle

  // ---------- how one incarnation may change ----------

  function Rank(phase: string): int {
    if phase == "" then 0 else if phase == PHASE_COLLECTING then 1 else 2
  }

  /** `w` is a later version of the incarnation `v` belongs to. */
  ghost predicate Evolves(v: Version, w: Version) {
    && w.src == v.src
    && w.spec.trigger == v.spec.trigger
    && (v.spec.diagnosis.Some? ==> w.spec.diagnosis == v.spec.diagnosis)
    && v.spec.logPaths <= w.spec.logPaths
    && multiset(v.spec.timeline) <= multiset(w.spec.timeline)
    && (v.spec.runner.Some? ==> w.spec.runner == v.spec.runner)
    && (v.spec.job.Some? ==> w.spec.job == v.spec.job && w.spec.workflowRun == v.spec.workflowRun)
    && Rank(v.phase) <= Rank(w.phase)
  }

  lemma EvolvesTransitively(u: Version, v: Version, w: Version)
    requires Evolves(u, v) && Evolves(v, w)
    ensures Evolves(u, w)
  {
  }

  lemma PassEvolves(v: Version, w: World, gh: bool, out: Spec, rv: nat)
    requires Correlated(v.spec, v.src.namespace, w, gh, out)
    ensures Evolves(v, v.(rv := rv, spec := out))
  {
    EnrichedKeeps(v.spec, v.src.namespace, w, gh);
    TimelineGrows(v.spec, v.src.namespace, w, gh, out);
  }

  // ---------- the record of Investigation versions ----------

  /** Revisions identify versions, and what is stored is the latest version of its incarnation. */
  ghost predicate Revisions(s: State) {
    && (forall k :: k in s.store ==> s.store[k] in s.past && KeyOf(s.store[k].src) == k)
    && (forall v :: v in s.past ==> v.uid <= s.rev && v.rv <= s.rev)
    && (forall v, w :: v in s.past && w in s.past && v.rv == w.rv ==> v == w)
    && (forall k, v :: k in s.store && v in s.past && v.uid == s.store[k].uid ==> v.rv <= s.store[k].rv)
  }

  /** The versions of every incarnation form a chain of legal changes. */
  ghost predicate Chains(past: set<Version>) {
    forall v, w :: v in past && w in past && v.uid == w.uid && v.rv <= w.rv ==> Evolves(v, w)
  }

  ghost predicate Records(s: State) {
    Revisions(s) && Chains(s.past)
  }

  /** The kinds of trigger an Investigation of a pod can have. */
  const POD_KINDS: set<string> := {"pod-oomkill", "pod-crash", "pod-init-timeout", "pod-deletion"}

  /** What the spec of an Investigation says about its source. */
  ghost predicate Faithful(v: Version) {
    && v.phase in {"", PHASE_COLLECTING, PHASE_COMPLETE}
    && ShowsTrigger(v.spec)
    && match v.src
       case PodSource(ns, name) =>
         && PodTriggered(v.spec) && v.spec.trigger.kind in POD_KINDS
         && v.spec.trigger.source == SourceText(v.src, NO_REPO)
         && v.spec.pod.value.name == name && v.spec.pod.value.namespace == ns
         && forall i :: 0 <= i < |v.spec.logPaths| ==> LogOf(v.spec.logPaths[i], ns, name)
       case RunnerSource(ns, name) =>
         && RunnerTriggered(v.spec)
         && v.spec.trigger.source == SourceText(v.src, NO_REPO)
         && v.spec.runner.value.name == name && v.spec.runner.value.namespace == ns
         && v.spec.logPaths == []
       case JobSource(_, id) =>
         && v.spec.trigger.kind == "job-stuck-queued"
         && JobTriggered(v.spec)
         && (exists repo :: v.spec.trigger.source == SourceText(v.src, repo))
         && v.spec.job.value.id == id
         && v.spec.logPaths == []
  }

  /** The version that gave an incarnation its diagnosis said job-stuck-queued exactly if it had no runner. */
  ghost predicate DiagnosedHonestly(s: State, v: Version) {
    v.src.JobSource? && v.spec.diagnosis.Some? ==>
      exists u :: u in s.past && u.uid == v.uid && u.rv <= v.rv
        && u.spec.diagnosis == v.spec.diagnosis && (SaysJobStuck(u.spec) <==> u.spec.runner.None?)
  }

  /** A complete Investigation has a diagnosis and was collecting before, unless a Correlator
      completed it that had written its diagnosis to another incarnation. */
  ghost predicate CompletedProperly(s: State, v: Version) {
    v.phase == PHASE_COMPLETE && v.uid !in s.crossed ==>
      && v.spec.diagnosis.Some?
      && exists u :: u in s.past && u.uid == v.uid && u.rv < v.rv && u.phase == PHASE_COLLECTING
  }

  ghost predicate Contents(s: State) {
    forall v :: v in s.past ==> Faithful(v) && DiagnosedHonestly(s, v) && CompletedProperly(s, v)
  }

  lemma InitialSpecIsFaithful(o: Origin, uid: nat, rv: nat)
    requires Sound(o)
    ensures Faithful(Version(SourceOf(o), uid, rv, InitialSpec(o), ""))
  {
    var s := InitialSpec(o);
    if o.JobQueued? {
      assert s.trigger.source == SourceText(SourceOf(o), o.repo);
    }
    assert !o.PodDeletion? ==> s.timeline[0] in s.timeline && s.timeline[0].kind == s.trigger.kind;
  }

  lemma AppendKeepsFaithful(v: Version, o: Origin, rv: nat)
    requires Faithful(v) && o.PodDeletion? && Sound(o) && v.src == SourceOf(o)
    ensures Faithful(v.(rv := rv, spec := AppendedSpec(v.spec, o)))
    ensures Evolves(v, v.(rv := rv, spec := AppendedSpec(v.spec, o)))
  {
  }

  lemma PassKeepsFaithful(v: Version, w: World, gh: bool, out: Spec, rv: nat)
    requires Faithful(v)
    requires Correlated(v.spec, v.src.namespace, w, gh, out)
    ensures Faithful(v.(rv := rv, spec := out)) && out.diagnosis.Some?
    ensures v.src.JobSource? && v.spec.diagnosis.None? ==> (SaysJobStuck(out) <==> out.runner.None?)
  {
    EnrichedKeeps(v.spec, v.src.namespace, w, gh);
    PassShowsTrigger(v.spec, v.src.namespace, w, gh, out);
    match v.src
    case PodSource(_, _) => PassKeepsPodTriggered(v.spec, v.src.namespace, w, gh, out);
    case RunnerSource(_, _) => PassKeepsRunnerTriggered(v.spec, v.src.namespace, w, gh, out);
    case JobSource(_, _) => PassKeepsJobTriggered(v.spec, v.src.namespace, w, gh, out);
  }

  lemma PutKeepsRevisions(s: State, w: Version)
    requires Revisions(s)
    requires KeyOf(w.src) in s.store && w.rv == s.rev + 1 && w.uid == s.store[KeyOf(w.src)].uid
    ensures Revisions(Put(s, w))
  {
    var v := s.store[KeyOf(w.src)];
    forall k | k in s.store && s.store[k].uid == w.uid ensures k == KeyOf(w.src) {
      assert s.store[k] == v;
    }
  }

  lemma ChainExtends(past: set<Version>, v: Version, w: Version)
    requires Chains(past) && v in past
    requires forall u :: u in past && u.uid == w.uid ==> u.rv <= v.rv
    requires w.uid == v.uid && v.rv < w.rv && Evolves(v, w)
    ensures Chains(past + {w})
  {
    forall u | u in past && u.uid == w.uid ensures Evolves(u, w) {
      EvolvesTransitively(u, v, w);
    }
    EvolvesReflexively(w);
    forall x, y | x in past + {w} && y in past + {w} && x.uid == y.uid && x.rv <= y.rv ensures Evolves(x, y) {
    }
  }

  lemma EvolvesReflexively(v: Version)
    ensures Evolves(v, v)
  {
  }

  /** A version-checked update of the stored version. */
  lemma PutKeepsRecords(s: State, w: Version)
    requires Records(s)
    requires KeyOf(w.src) in s.store && w.rv == s.rev + 1
    requires var v := s.store[KeyOf(w.src)]; w.uid == v.uid && Evolves(v, w)
    ensures Records(Put(s, w))
  {
    PutKeepsRevisions(s, w);
    ChainExtends(s.past, s.store[KeyOf(w.src)], w);
  }

  lemma NewVersionKeepsRecords(s: State, w: Version)
    requires Records(s)
    requires KeyOf(w.src) !in s.store && w.uid == s.rev + 1 && w.rv == s.rev + 1
    ensures Records(Put(s, w))
  {
    EvolvesReflexively(w);
    assert forall v :: v in s.past ==> v.uid != w.uid;
    assert Revisions(Put(s, w));
    forall x, y | x in s.past + {w} && y in s.past + {w} && x.uid == y.uid && x.rv <= y.rv ensures Evolves(x, y) {
    }
  }

  lemma CreateKeepsRecords(s: State, o: Origin)
    requires Records(s)
    requires KeyOf(SourceOf(o)) !in s.store
    ensures Records(Put(s, Made(s, o)))
  {
    NewVersionKeepsRecords(s, Made(s, o));
  }

  lemma RemovalKeepsRecords(s: State, k: Key)
    requires Records(s)
    ensures Records(Removed(s, k))
  {
  }

  /** Growing the record by one version keeps what is known of the others. */
  lemma PutKeepsContents(s: State, w: Version, crossed: set<nat>)
    requires Contents(s)
    requires s.crossed <= crossed
    requires var s' := Put(s, w).(crossed := crossed);
      Faithful(w) && DiagnosedHonestly(s', w) && CompletedProperly(s', w)
    ensures Contents(Put(s, w).(crossed := crossed))
  {
    var s' := Put(s, w).(crossed := crossed);
    forall v | v in s'.past ensures Faithful(v) && DiagnosedHonestly(s', v) && CompletedProperly(s', v) {
      if v in s.past {
        assert DiagnosedHonestly(s, v) && CompletedProperly(s, v);
      }
    }
  }

  /** An update inherits the witnesses of the version it replaces. */
  lemma UpdateInheritsWitnesses(s: State, v: Version, w: Version)
    requires v in s.past && Contents(s)
    requires w.uid == v.uid && w.src == v.src && v.rv < w.rv
    ensures v.spec.diagnosis.Some? && w.spec.diagnosis == v.spec.diagnosis ==> DiagnosedHonestly(Put(s, w), w)
    ensures v.phase == w.phase && (v.spec.diagnosis.Some? ==> w.spec.diagnosis == v.spec.diagnosis)
      ==> CompletedProperly(Put(s, w), w)
    ensures w.spec.diagnosis.None? ==> DiagnosedHonestly(Put(s, w), w)
  {
    assert DiagnosedHonestly(s, v) && CompletedProperly(s, v);
  }

  // ---------- threads ----------

  predicate EndsWith(paths: seq<string>, end: seq<string>) {
    |end| <= |paths| && paths[|paths| - |end|..] == end
  }

  /** The outcome of an attempt is accounted for. */
  ghost predicate Accounted(s: State, a: Attempt) {
    match a.outcome
    case Recorded =>
      exists v :: v in s.past && v.src == PodSource(a.pod.namespace, a.pod.name) && EndsWith(v.spec.logPaths, a.paths)
    case NothingCollected => a.paths == []
    case CapRefused(count, max) => count >= max
    case ApiFailed => true
  }

  ghost predicate LeadOk(s: State, o: Origin, lead: Option<PodVersion>) {
    && (o.PodDeletion? <==> lead.Some?)
    && (lead.Some? ==> lead.value in s.podPast && o.pod == lead.value.pod && o.pod.Deleting())
  }

  ghost predicate ThreadOk(s: State, th: Thread) {
    match th
    case Idle => true
    case Lookup(o, lead) => Sound(o) && LeadOk(s, o, lead)
    case Reserve(o, lead) => Sound(o) && LeadOk(s, o, lead)
    case CreateCR(o, lead) => Sound(o) && LeadOk(s, o, lead)
    case Restore(o, lead) => Sound(o) && LeadOk(s, o, lead)
    case MarkCollecting(o, lead, made) =>
      && Sound(o) && LeadOk(s, o, lead)
      && made in s.past && made.src == SourceOf(o) && made.phase == ""
      && (o.PodDeletion? ==> made.spec.logPaths == o.paths)
    case Append(o, lead, read) => Sound(o) && LeadOk(s, o, lead) && read in s.past && read.src == SourceOf(o)
    case CorrelateWrite(read) => read in s.past && read.phase == PHASE_COLLECTING
    case CorrelateReread(written) =>
      written in s.past && written.phase == PHASE_COLLECTING && written.spec.diagnosis.Some?
    case CorrelateStatus(read, written) =>
      && read in s.past && read.src == written.src
      && written in s.past && written.phase == PHASE_COLLECTING && written.spec.diagnosis.Some?
    case Sweep(_) => true
    case SweepCount(_) => true
    case AddFinalizer(seen, _, _) => seen in s.podPast && !seen.pod.Deleting()
    case CollectLogs(seen, _) => seen in s.podPast && seen.pod.Deleting()
    case Release(seen, a) =>
      seen in s.podPast && a.uid == seen.uid && a.pod == seen.pod && a.pod.Deleting() && Accounted(s, a)
  }

  ghost predicate Threads(s: State) {
    forall t :: t in s.threads ==> ThreadOk(s, s.threads[t])
  }

  lemma ThreadOkGrows(s: State, s': State, th: Thread)
    requires ThreadOk(s, th)
    requires s.past <= s'.past && s.podPast <= s'.podPast
    ensures ThreadOk(s', th)
  {
  }

  lemma ThreadsGo(s: State, s': State, t: nat, th: Thread)
    requires Threads(s) && ThreadOk(s', th)
    requires s.past <= s'.past && s.podPast <= s'.podPast
    requires s'.threads == s.threads[t := th]
    ensures Threads(s')
  {
    forall u | u in s'.threads ensures ThreadOk(s', s'.threads[u]) {
      if u != t {
        ThreadOkGrows(s, s', s.threads[u]);
      }
    }
  }

  // ---------- the count ----------

  /** The thread has reserved a place whose Create is not resolved yet. */
  predicate Holds(th: Thread) {
    th.CreateCR? || th.Restore?
  }

  ghost function Where<T>(m: map<nat, T>, p: T -> bool): set<nat> {
    set t | t in m && p(m[t])
  }

  ghost function Holding(s: State): set<nat> {
    Where(s.threads, Holds)
  }

  /** Sweeps that deleted an Investigation and have not lowered the count yet. */
  predicate Owes(th: Thread) {
    th.SweepCount?
  }

  ghost function Owing(s: State): set<nat> {
    Where(s.threads, Owes)
  }

  ghost predicate Counted(s: State) {
    && s.count == |s.store| + |Holding(s)| + |Owing(s)| + s.userDeleted
    && s.count <= (if s.initial < s.max then s.max else s.initial)
  }

  lemma WhereUpdated<T>(m: map<nat, T>, p: T -> bool, t: nat, x: T)
    ensures |Where(m[t := x], p)| ==
      |Where(m, p)| - (if t in m && p(m[t]) then 1 else 0) + (if p(x) then 1 else 0)
  {
    var before, after := Where(m, p), Where(m[t := x], p);
    assert t in before <==> t in m && p(m[t]);
    assert t in after <==> p(x);
    assert after - {t} == before - {t};
    CardinalityWithout(before, t);
    CardinalityWithout(after, t);
  }

  lemma CardinalityWithout<T>(a: set<T>, t: T)
    ensures |a - {t}| == |a| - (if t in a then 1 else 0)
  {
    if t !in a {
      assert a - {t} == a;
    }
  }

  lemma ThreadsMoved(s: State, s': State, t: nat, th: Thread)
    requires s'.threads == s.threads[t := th]
    ensures |Holding(s')| == |Holding(s)| - (if Holds(Local(s, t)) then 1 else 0) + (if Holds(th) then 1 else 0)
    ensures |Owing(s')| == |Owing(s)| - (if Owes(Local(s, t)) then 1 else 0) + (if Owes(th) then 1 else 0)
  {
    WhereUpdated(s.threads, Holds, t, th);
    WhereUpdated(s.threads, Owes, t, th);
  }

  lemma RemovedSize(s: State, k: Key)
    requires k in s.store
    ensures |Removed(s, k).store| == |s.store| - 1
  {
    assert Removed(s, k).store.Keys == s.store.Keys - {k};
  }

  // ---------- pods ----------

  ghost predicate Attempted(s: State, uid: nat) {
    exists a :: a in s.attempts && a.uid == uid && a.pod.Deleting() && Accounted(s, a)
  }

  /** The log-collector finalizer keeps the pod from disappearing. */
  predicate Protected(p: PodVersion) {
    p.pod.HasFinalizer()
  }

  ghost predicate Pods(s: State) {
    && (forall k :: k in s.pods ==> s.pods[k] in s.podPast && PodKey(s.pods[k]) == k)
    && (forall p :: p in s.podPast ==> p.uid <= s.rev && p.rv <= s.rev)
    && (forall p, q :: p in s.podPast && q in s.podPast && p.rv == q.rv ==> p == q)
    && (forall p, q :: p in s.podPast && q in s.podPast && p.uid == q.uid ==> PodKey(p) == PodKey(q))
    && (forall p :: p in s.podPast && Protected(p) ==>
          || Attempted(s, p.uid)
          || (PodKey(p) in s.pods && s.pods[PodKey(p)].uid == p.uid && Protected(s.pods[PodKey(p)])))
  }

  lemma AccountedGrows(s: State, s': State, a: Attempt)
    requires Accounted(s, a) && s.past <= s'.past
    ensures Accounted(s', a)
  {
  }

  lemma AttemptedGrows(s: State, s': State, uid: nat)
    requires Attempted(s, uid) && s.past <= s'.past && s.attempts <= s'.attempts
    ensures Attempted(s', uid)
  {
    var a :| a in s.attempts && a.uid == uid && a.pod.Deleting() && Accounted(s, a);
    AccountedGrows(s, s', a);
  }

  /** Steps that leave the pods alone. */
  lemma PodsKept(s: State, s': State)
    requires Pods(s)
    requires s'.pods == s.pods && s'.podPast == s.podPast
    requires s.rev <= s'.rev && s.past <= s'.past && s.attempts <= s'.attempts
    ensures Pods(s')
  {
    forall p | p in s'.podPast && Protected(p) && Attempted(s, p.uid) ensures Attempted(s', p.uid) {
      AttemptedGrows(s, s', p.uid);
    }
  }

  /** A write of a pod version: a new pod, or an update of the current one under which it
      stays protected unless an attempt was made. */
  lemma PutPodKeeps(s: State, p: PodVersion, attempts: set<Attempt>)
    requires Pods(s)
    requires p.rv == s.rev + 1 && s.attempts <= attempts
    requires var s' := PutPod(s, p).(attempts := attempts);
      if PodKey(p) in s.pods then
        && p.uid == s.pods[PodKey(p)].uid
        && (Protected(s.pods[PodKey(p)]) ==> Protected(p) || Attempted(s', p.uid))
      else p.uid == s.rev + 1
    ensures Pods(PutPod(s, p).(attempts := attempts))
  {
    var s' := PutPod(s, p).(attempts := attempts);
    forall q | q in s'.podPast && Protected(q)
      ensures Attempted(s', q.uid)
        || (PodKey(q) in s'.pods && s'.pods[PodKey(q)].uid == q.uid && Protected(s'.pods[PodKey(q)]))
    {
      if q != p && Attempted(s, q.uid) {
        AttemptedGrows(s, s', q.uid);
      }
    }
  }
}
