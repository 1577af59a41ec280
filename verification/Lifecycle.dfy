/** The Investigation lifecycle as a transition system: pod watcher, runner watcher,
    GitHub poller, Correlator, cleanup, users and the API server, one API call or counter
    operation per step, interleaved freely.

    The API server hands out one increasing revision per write. An update names the version
    its caller read and succeeds only if that is still the current one; a spec update keeps
    the stored phase and a status update keeps the stored spec. Reads go through a cache and
    may return any version the key ever had, or miss an object that exists. */
module Lifecycle {
  import opened Api
  import opened Naming
  import opened Origins
  import opened Correlation
  import opened Counting

  /** One stored version of an Investigation; `uid` identifies the incarnation. */
  datatype Version = Version(src: Source, uid: nat, rv: nat, spec: Spec, phase: string)

  datatype PodVersion = PodVersion(uid: nat, rv: nat, pod: Pod)

  function PodKey(p: PodVersion): Key {
    Key(p.pod.namespace, p.pod.name)
  }

  /** How the handling of a deleted pod's logs ended. */
  datatype Outcome = Recorded | NothingCollected | CapRefused(count: int, max: int) | ApiFailed

  datatype Attempt = Attempt(uid: nat, pod: Pod, paths: seq<string>, outcome: Outcome)

  /** Where one reconcile, poll or sweep stands. `lead` is the pod version whose finalizer
      is released afterwards, when the Investigation is opened for a pod deletion. */
  datatype Thread =
    | Idle
    | Lookup(o: Origin, lead: Option<PodVersion>)
    | Reserve(o: Origin, lead: Option<PodVersion>)
    | CreateCR(o: Origin, lead: Option<PodVersion>)
    | Restore(o: Origin, lead: Option<PodVersion>)
    | MarkCollecting(o: Origin, lead: Option<PodVersion>, made: Version)
    | Append(o: Origin, lead: Option<PodVersion>, read: Version)
    | CorrelateWrite(read: Version)
    | CorrelateReread(written: Version)
    | CorrelateStatus(read: Version, written: Version)
    | Sweep(todo: seq<Key>)
    | SweepCount(todo: seq<Key>)
    | AddFinalizer(seen: PodVersion, history: seq<Transition>, at: Time)
    | CollectLogs(seen: PodVersion, history: seq<Transition>)
    | Release(seen: PodVersion, attempt: Attempt)

  datatype State = State(
    rev: nat,
    store: map<Key, Version>,
    past: set<Version>,          // every version ever stored
    pods: map<Key, PodVersion>,
    podPast: set<PodVersion>,
    count: int,
    max: int,
    initial: int,                // the count the controllers started with
    threads: map<nat, Thread>,
    attempts: set<Attempt>,      // finished handlings of deleted pods
    userDeleted: nat,            // Investigations users deleted since the start
    crossed: set<nat>)           // incarnations completed by a Correlator that diagnosed another one

  datatype Action =
    | Restart(max: int)
    | UserDelete(key: Key)
    // creators
    | Detect(t: nat, o: Origin)
    | LookupFound(t: nat, v: Version)
    | LookupMissing(t: nat)
    | LookupError(t: nat)
    | TryReserve(t: nat)
    | CreateOk(t: nat)
    | CreateErr(t: nat)
    | RestoreCount(t: nat)
    | MarkOk(t: nat)
    | MarkErr(t: nat)
    | AppendOk(t: nat)
    | AppendErr(t: nat)
    // Correlator
    | CorrelateRead(t: nat, v: Version)
    | CorrelateOk(t: nat, w: World, gh: bool, out: Spec)
    | CorrelateErr(t: nat)
    | RereadOk(t: nat, v: Version)
    | RereadErr(t: nat)
    | CompleteOk(t: nat)
    | CompleteErr(t: nat)
    // cleanup
    | SweepStart(t: nat, todo: seq<Key>)
    | SweepOk(t: nat)
    | SweepErr(t: nat)
    | SweepCounted(t: nat)
    // pods: cluster and pod watcher
    | PodCreated(pod: Pod)
    | PodChanged(pod: Pod)
    | PodDeleteRequested(key: Key, at: Time)
    | PodGone(key: Key)
    | PodRead(t: nat, p: PodVersion, history: seq<Transition>, at: Time)
    | FinalizerOk(t: nat)
    | FinalizerErr(t: nat)
    | LogsCollected(t: nat, paths: seq<string>)
    | ReleaseOk(t: nat)
    | ReleaseErr(t: nat)

  // ---------- pieces of a step ----------

  function Local(s: State, t: nat): Thread {
    if t in s.threads then s.threads[t] else Idle
  }

  function Go(s: State, t: nat, th: Thread): State {
    s.(threads := s.threads[t := th])
  }

  /** The optimistic concurrency check of an update whose caller read `v`. */
  predicate Current(s: State, v: Version) {
    KeyOf(v.src) in s.store && s.store[KeyOf(v.src)].rv == v.rv
  }

  predicate PodCurrent(s: State, p: PodVersion) {
    PodKey(p) in s.pods && s.pods[PodKey(p)].rv == p.rv
  }

  function Put(s: State, v: Version): State {
    s.(rev := v.rv, store := s.store[KeyOf(v.src) := v], past := s.past + {v})
  }

  function PutPod(s: State, p: PodVersion): State {
    s.(rev := p.rv, pods := s.pods[PodKey(p) := p], podPast := s.podPast + {p})
  }

  function Removed(s: State, k: Key): State {
    s.(store := s.store - {k})
  }

  function Made(s: State, o: Origin): Version {
    Version(SourceOf(o), s.rev + 1, s.rev + 1, InitialSpec(o), "")
  }

  function SpecUpdate(s: State, k: Key, spec: Spec): Version
    requires k in s.store
  {
    s.store[k].(rv := s.rev + 1, spec := spec)
  }

  function StatusUpdate(s: State, k: Key, phase: string): Version
    requires k in s.store
  {
    s.store[k].(rv := s.rev + 1, phase := phase)
  }

  /** What a creator does once its Investigation is dealt with. */
  function After(o: Origin, lead: Option<PodVersion>, outcome: Outcome): Thread {
    if lead.Some? && o.PodDeletion? then Release(lead.value, Attempt(lead.value.uid, lead.value.pod, o.paths, outcome))
    else Idle
  }

  function WithFinalizer(pod: Pod): Pod {
    pod.(finalizers := pod.finalizers + [LOG_FINALIZER])
  }

  function DropFinalizer(fs: seq<string>): (r: seq<string>)
    ensures LOG_FINALIZER !in r
    ensures forall f :: f in r <==> f in fs && f != LOG_FINALIZER
  {
    if fs == [] then []
    else (if fs[0] == LOG_FINALIZER then [] else [fs[0]]) + DropFinalizer(fs[1..])
  }

  function WithoutFinalizer(pod: Pod): Pod {
    pod.(finalizers := DropFinalizer(pod.finalizers))
  }

  /** The pod watcher's choice for a runner pod whose finalizer is settled. */
  function Handle(p: PodVersion, history: seq<Transition>, at: Time): Thread {
    if p.pod.Deleting() && p.pod.HasFinalizer() then CollectLogs(p, history)
    else if AnomalyOf(p.pod.statuses) != "" then Lookup(PodAnomaly(p.pod, history, at), None)
    else Idle
  }

  function Seen(p: PodVersion, history: seq<Transition>, at: Time): Thread {
    if !p.pod.IsRunner() then Idle
    else if !p.pod.Deleting() && !p.pod.HasFinalizer() then AddFinalizer(p, history, at)
    else Handle(p, history, at)
  }

  // ---------- steps ----------

  ghost predicate Enabled(s: State, a: Action) {
    match a
    case Restart(_) => true
    case UserDelete(k) => k in s.store
    case Detect(t, o) => Local(s, t).Idle? && (o.RunnerStuck? || o.JobQueued?) && Sound(o)
    case LookupFound(t, v) =>
      Local(s, t).Lookup? && v in s.past && KeyOf(v.src) == KeyOf(SourceOf(Local(s, t).o))
    case LookupMissing(t) => Local(s, t).Lookup?
    case LookupError(t) => Local(s, t).Lookup?
    case TryReserve(t) => Local(s, t).Reserve?
    case CreateOk(t) => Local(s, t).CreateCR? && KeyOf(SourceOf(Local(s, t).o)) !in s.store
    case CreateErr(t) => Local(s, t).CreateCR?
    case RestoreCount(t) => Local(s, t).Restore?
    case MarkOk(t) => Local(s, t).MarkCollecting? && Current(s, Local(s, t).made)
    case MarkErr(t) => Local(s, t).MarkCollecting?
    case AppendOk(t) => Local(s, t).Append? && Local(s, t).o.PodDeletion? && Current(s, Local(s, t).read)
    case AppendErr(t) => Local(s, t).Append?
    case CorrelateRead(t, v) => Local(s, t).Idle? && v in s.past && v.phase == PHASE_COLLECTING
    case CorrelateOk(t, w, gh, out) =>
      && Local(s, t).CorrelateWrite?
      && var v := Local(s, t).read;
         Current(s, v) && Correlated(v.spec, v.src.namespace, w, gh, out)
    case CorrelateErr(t) => Local(s, t).CorrelateWrite?
    case RereadOk(t, v) =>
      Local(s, t).CorrelateReread? && v in s.past && KeyOf(v.src) == KeyOf(Local(s, t).written.src)
    case RereadErr(t) => Local(s, t).CorrelateReread?
    case CompleteOk(t) => Local(s, t).CorrelateStatus? && Current(s, Local(s, t).read)
    case CompleteErr(t) => Local(s, t).CorrelateStatus?
    case SweepStart(t, _) => Local(s, t).Idle?
    case SweepOk(t) => Local(s, t).Sweep? && Local(s, t).todo != [] && Local(s, t).todo[0] in s.store
    case SweepErr(t) => Local(s, t).Sweep? && Local(s, t).todo != []
    case SweepCounted(t) => Local(s, t).SweepCount?
    case PodCreated(pod) => Key(pod.namespace, pod.name) !in s.pods && !pod.Deleting()
    case PodChanged(pod) =>
      && Key(pod.namespace, pod.name) in s.pods
      && var cur := s.pods[Key(pod.namespace, pod.name)].pod;
         cur.deletedAt == pod.deletedAt && cur.HasFinalizer() == pod.HasFinalizer()
    case PodDeleteRequested(k, _) => k in s.pods && !s.pods[k].pod.Deleting()
    case PodGone(k) => k in s.pods && s.pods[k].pod.finalizers == []
    case PodRead(t, p, _, _) => Local(s, t).Idle? && p in s.podPast
    case FinalizerOk(t) => Local(s, t).AddFinalizer? && PodCurrent(s, Local(s, t).seen)
    case FinalizerErr(t) => Local(s, t).AddFinalizer?
    case LogsCollected(t, paths) => Local(s, t).CollectLogs? && PathsOfPod(paths, Local(s, t).seen.pod)
    case ReleaseOk(t) => Local(s, t).Release? && PodCurrent(s, Local(s, t).seen)
    case ReleaseErr(t) => Local(s, t).Release?
  }

  /** The effect of a step of the cluster's pods or of the pod watcher on a pod. */
  ghost function PodEffect(s: State, a: Action): State
    requires Enabled(s, a)
  {
    match a
    case PodCreated(pod) => PutPod(s, PodVersion(s.rev + 1, s.rev + 1, pod))
    case PodChanged(pod) =>
      PutPod(s, s.pods[Key(pod.namespace, pod.name)].(rv := s.rev + 1, pod := pod))
    case PodDeleteRequested(k, at) =>
      PutPod(s, s.pods[k].(rv := s.rev + 1, pod := s.pods[k].pod.(deletedAt := Some(at))))
    case PodGone(k) => s.(pods := s.pods - {k})
    case PodRead(t, p, history, at) => Go(s, t, Seen(p, history, at))
    case FinalizerOk(t) =>
      var th := Local(s, t);
      var p := th.seen.(rv := s.rev + 1, pod := WithFinalizer(th.seen.pod));
      Go(PutPod(s, p), t, Handle(p, th.history, th.at))
    case FinalizerErr(t) => Go(s, t, Idle)
    case LogsCollected(t, paths) =>
      var th := Local(s, t);
      Go(s, t, if paths == [] then Release(th.seen, Attempt(th.seen.uid, th.seen.pod, [], NothingCollected))
               else Lookup(PodDeletion(th.seen.pod, th.history, paths), Some(th.seen)))
    case ReleaseOk(t) =>
      var th := Local(s, t);
      Go(PutPod(s, th.seen.(rv := s.rev + 1, pod := WithoutFinalizer(th.seen.pod))), t, Idle)
      .(attempts := s.attempts + {th.attempt})
    case ReleaseErr(t) => Go(s, t, Idle)
    case _ => s
  }

  ghost function Apply(s: State, a: Action): State
    requires Enabled(s, a)
  {
    match a
    case Restart(max) =>
      s.(threads := map[], count := |s.store|, initial := |s.store|, max := max, userDeleted := 0)
    case UserDelete(k) => Removed(s, k).(userDeleted := s.userDeleted + 1)
    case Detect(t, o) => Go(s, t, Lookup(o, None))
    case LookupFound(t, v) =>
      var th := Local(s, t);
      Go(s, t, if th.o.PodDeletion? then Append(th.o, th.lead, v) else Idle)
    case LookupMissing(t) => Go(s, t, Reserve(Local(s, t).o, Local(s, t).lead))
    case LookupError(t) =>
      // the two watchers take any error of their lookup for an absent Investigation
      var th := Local(s, t);
      Go(s, t, if th.o.PodAnomaly? || th.o.RunnerStuck? then Reserve(th.o, th.lead)
               else After(th.o, th.lead, ApiFailed))
    case TryReserve(t) =>
      var th := Local(s, t);
      if Admits(s.count, s.max) then Go(s, t, CreateCR(th.o, th.lead)).(count := s.count + 1)
      else Go(s, t, After(th.o, th.lead, CapRefused(s.count, s.max)))
    case CreateOk(t) =>
      var th := Local(s, t);
      Go(Put(s, Made(s, th.o)), t, MarkCollecting(th.o, th.lead, Made(s, th.o)))
    case CreateErr(t) => Go(s, t, Restore(Local(s, t).o, Local(s, t).lead))
    case RestoreCount(t) =>
      Go(s, t, After(Local(s, t).o, Local(s, t).lead, ApiFailed)).(count := Lowered(s.count, 1))
    case MarkOk(t) =>
      var th := Local(s, t);
      Go(Put(s, StatusUpdate(s, KeyOf(th.made.src), PHASE_COLLECTING)), t, After(th.o, th.lead, Recorded))
    case MarkErr(t) => Go(s, t, After(Local(s, t).o, Local(s, t).lead, Recorded))
    case AppendOk(t) =>
      var th := Local(s, t);
      Go(Put(s, SpecUpdate(s, KeyOf(th.read.src), AppendedSpec(th.read.spec, th.o))), t, After(th.o, th.lead, Recorded))
    case AppendErr(t) => Go(s, t, After(Local(s, t).o, Local(s, t).lead, ApiFailed))
    case CorrelateRead(t, v) => Go(s, t, CorrelateWrite(v))
    case CorrelateOk(t, w, gh, out) =>
      var v := SpecUpdate(s, KeyOf(Local(s, t).read.src), out);
      Go(Put(s, v), t, CorrelateReread(v))
    case CorrelateErr(t) => Go(s, t, Idle)
    case RereadOk(t, v) => Go(s, t, CorrelateStatus(v, Local(s, t).written))
    case RereadErr(t) => Go(s, t, Idle)
    case CompleteOk(t) =>
      var th := Local(s, t);
      Go(Put(s, StatusUpdate(s, KeyOf(th.read.src), PHASE_COMPLETE)), t, Idle)
      .(crossed := if th.read.uid == th.written.uid then s.crossed else s.crossed + {th.read.uid})
    case CompleteErr(t) => Go(s, t, Idle)
    case SweepStart(t, todo) => Go(s, t, Sweep(todo))
    case SweepOk(t) => Go(Removed(s, Local(s, t).todo[0]), t, SweepCount(Local(s, t).todo[1..]))
    case SweepErr(t) => Go(s, t, Sweep(Local(s, t).todo[1..]))
    case SweepCounted(t) => Go(s, t, Sweep(Local(s, t).todo)).(count := Lowered(s.count, 1))
    case _ => PodEffect(s, a)
  }

  /** An empty cluster before the operator's first start. */
  ghost predicate Init(s: State) {
    && s.store == map[] && s.past == {} && s.pods == map[] && s.podPast == {}
    && s.count == 0 && s.initial == 0 && s.threads == map[]
    && s.attempts == {} && s.userDeleted == 0 && s.crossed == {}
  }

  ghost predicate Next(s: State, s': State) {
    exists a :: Enabled(s, a) && s' == Apply(s, a)
  }

  ghost predicate Run(tr: seq<State>) {
    && tr != []
    && Init(tr[0])
    && forall i :: 0 <= i < |tr| - 1 ==> Next(tr[i], tr[i + 1])
  }
}
