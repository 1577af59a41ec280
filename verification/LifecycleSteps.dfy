/** Every step of the lifecycle protocol keeps every part of the invariant. */
module LifecycleSteps {
  import opened Api
  import opened Naming
  import opened Origins
  import opened Counting
  import opened Lifecycle
  import opened LifecycleInvariants

  ghost predicate Inv(s: State) {
    Records(s) && Contents(s) && Threads(s) && Counted(s) && Pods(s)
  }

  /** An update that passes the version check replaces exactly the version its caller read. */
  lemma CheckedReadIsStored(s: State, v: Version)
    requires Records(s) && v in s.past && Current(s, v)
    ensures s.store[KeyOf(v.src)] == v
  {
  }

  lemma CheckedPodIsStored(s: State, p: PodVersion)
    requires Pods(s) && p in s.podPast && PodCurrent(s, p)
    ensures s.pods[PodKey(p)] == p
  {
  }

  lemma LocalOk(s: State, t: nat)
    requires Threads(s)
    ensures ThreadOk(s, Local(s, t))
  {
  }

  // ---------- Investigation writes ----------

  ghost predicate RecordsOk(s: State) {
    Records(s) && Contents(s)
  }

  lemma RecordsSurvive(s: State, s': State)
    requires RecordsOk(s)
    requires s'.store == s.store && s'.past == s.past && s'.crossed == s.crossed && s.rev <= s'.rev
    ensures RecordsOk(s')
  {
    forall v | v in s'.past ensures Faithful(v) && DiagnosedHonestly(s', v) && CompletedProperly(s', v) {
      assert DiagnosedHonestly(s, v) && CompletedProperly(s, v);
    }
  }

  lemma RemovalKeepsRecordsOk(s: State, s': State, k: Key)
    requires RecordsOk(s)
    requires s'.store == s.store - {k} && s'.past == s.past && s'.crossed == s.crossed && s'.rev == s.rev
    ensures RecordsOk(s')
  {
    RemovalKeepsRecords(s, k);
    RecordsSurvive(Removed(s, k).(rev := s.rev), s') by {
      assert Contents(Removed(s, k)) by {
        forall v | v in s.past
          ensures Faithful(v) && DiagnosedHonestly(Removed(s, k), v) && CompletedProperly(Removed(s, k), v)
        {
          assert DiagnosedHonestly(s, v) && CompletedProperly(s, v);
        }
      }
    }
  }

  lemma WriteKeepsRecordsOk(s: State, w: Version, crossed: set<nat>)
    requires RecordsOk(s)
    requires KeyOf(w.src) in s.store && w.rv == s.rev + 1
    requires var v := s.store[KeyOf(w.src)]; w.uid == v.uid && Evolves(v, w)
    requires s.crossed <= crossed && Faithful(w)
    requires var s' := Put(s, w).(crossed := crossed); DiagnosedHonestly(s', w) && CompletedProperly(s', w)
    ensures RecordsOk(Put(s, w).(crossed := crossed))
  {
    PutKeepsRecords(s, w);
    PutKeepsContents(s, w, crossed);
    assert Records(Put(s, w).(crossed := crossed));
  }

  lemma CreateOkKeepsRecords(s: State, t: nat)
    requires RecordsOk(s) && Threads(s) && Enabled(s, CreateOk(t))
    ensures RecordsOk(Apply(s, CreateOk(t)))
  {
    LocalOk(s, t);
    var o := Local(s, t).o;
    var w := Made(s, o);
    CreateKeepsRecords(s, o);
    InitialSpecIsFaithful(o, w.uid, w.rv);
    assert InitialSpec(o).diagnosis.None?;
    PutKeepsContents(s, w, s.crossed);
    RecordsSurvive(Put(s, w), Apply(s, CreateOk(t)));
  }

  lemma MarkOkKeepsRecords(s: State, t: nat)
    requires RecordsOk(s) && Threads(s) && Enabled(s, MarkOk(t))
    ensures RecordsOk(Apply(s, MarkOk(t)))
  {
    LocalOk(s, t);
    var v := Local(s, t).made;
    CheckedReadIsStored(s, v);
    var w := StatusUpdate(s, KeyOf(v.src), PHASE_COLLECTING);
    UpdateInheritsWitnesses(s, v, w);
    EvolvesReflexively(v);
    WriteKeepsRecordsOk(s, w, s.crossed);
    RecordsSurvive(Put(s, w), Apply(s, MarkOk(t)));
  }

  lemma AppendOkKeepsRecords(s: State, t: nat)
    requires RecordsOk(s) && Threads(s) && Enabled(s, AppendOk(t))
    ensures RecordsOk(Apply(s, AppendOk(t)))
  {
    LocalOk(s, t);
    var th := Local(s, t);
    CheckedReadIsStored(s, th.read);
    var w := SpecUpdate(s, KeyOf(th.read.src), AppendedSpec(th.read.spec, th.o));
    AppendKeepsFaithful(th.read, th.o, w.rv);
    UpdateInheritsWitnesses(s, th.read, w);
    WriteKeepsRecordsOk(s, w, s.crossed);
    RecordsSurvive(Put(s, w), Apply(s, AppendOk(t)));
  }

  lemma CorrelateOkKeepsRecords(s: State, t: nat, w: World, gh: bool, out: Spec)
    requires RecordsOk(s) && Threads(s) && Enabled(s, CorrelateOk(t, w, gh, out))
    ensures RecordsOk(Apply(s, CorrelateOk(t, w, gh, out)))
  {
    LocalOk(s, t);
    var v := Local(s, t).read;
    CheckedReadIsStored(s, v);
    var x := SpecUpdate(s, KeyOf(v.src), out);
    PassEvolves(v, w, gh, out, x.rv);
    PassKeepsFaithful(v, w, gh, out, x.rv);
    UpdateInheritsWitnesses(s, v, x);
    assert x in Put(s, x).past;
    assert DiagnosedHonestly(Put(s, x), x);
    WriteKeepsRecordsOk(s, x, s.crossed);
    RecordsSurvive(Put(s, x), Apply(s, CorrelateOk(t, w, gh, out)));
  }

  /** What is stored of the incarnation the Correlator wrote is at least as new as what it
      wrote, so it has the diagnosis. */
  lemma CompletionIsProper(s: State, v: Version, written: Version, w: Version, crossed: set<nat>)
    requires RecordsOk(s)
    requires KeyOf(v.src) in s.store && s.store[KeyOf(v.src)] == v
    requires written in s.past && written.phase == PHASE_COLLECTING && written.spec.diagnosis.Some?
    requires w == v.(rv := s.rev + 1, phase := PHASE_COMPLETE)
    requires v.uid == written.uid || v.uid in crossed
    ensures CompletedProperly(Put(s, w).(crossed := crossed), w)
    ensures Evolves(v, w)
  {
    if v.uid == written.uid {
      assert Evolves(written, v);
      assert written in Put(s, w).past && written.rv < w.rv;
    }
  }

  lemma SameSpecSameHonesty(s: State, v: Version, w: Version, crossed: set<nat>)
    requires v in s.past && DiagnosedHonestly(s, v)
    requires w.spec == v.spec && w.uid == v.uid && w.src == v.src && v.rv <= w.rv
    ensures DiagnosedHonestly(Put(s, w).(crossed := crossed), w)
  {
  }

  lemma CompleteOkKeepsRecords(s: State, t: nat)
    requires RecordsOk(s) && Threads(s) && Enabled(s, CompleteOk(t))
    ensures RecordsOk(Apply(s, CompleteOk(t)))
  {
    LocalOk(s, t);
    var th := Local(s, t);
    CheckedReadIsStored(s, th.read);
    CompleteWrite(s, th.read, th.written);
    var w := StatusUpdate(s, KeyOf(th.read.src), PHASE_COMPLETE);
    var crossed := if th.read.uid == th.written.uid then s.crossed else s.crossed + {th.read.uid};
    RecordsSurvive(Put(s, w).(crossed := crossed), Apply(s, CompleteOk(t)));
  }

  lemma CompleteWrite(s: State, v: Version, written: Version)
    requires RecordsOk(s)
    requires KeyOf(v.src) in s.store && s.store[KeyOf(v.src)] == v
    requires written in s.past && written.phase == PHASE_COLLECTING && written.spec.diagnosis.Some?
    ensures var crossed := if v.uid == written.uid then s.crossed else s.crossed + {v.uid};
      RecordsOk(Put(s, StatusUpdate(s, KeyOf(v.src), PHASE_COMPLETE)).(crossed := crossed))
  {
    var crossed := if v.uid == written.uid then s.crossed else s.crossed + {v.uid};
    var w := StatusUpdate(s, KeyOf(v.src), PHASE_COMPLETE);
    CompletionIsProper(s, v, written, w, crossed);
    SameSpecSameHonesty(s, v, w, crossed);
    WriteKeepsRecordsOk(s, w, crossed);
  }

  predicate WritesInvestigation(a: Action) {
    a.CreateOk? || a.MarkOk? || a.AppendOk? || a.CorrelateOk? || a.CompleteOk? || a.UserDelete? || a.SweepOk?
  }

  lemma OtherStepsKeepTheStore(s: State, a: Action)
    requires Enabled(s, a) && !WritesInvestigation(a)
    ensures var s' := Apply(s, a);
      s'.store == s.store && s'.past == s.past && s'.crossed == s.crossed && s.rev <= s'.rev
  {
  }

  lemma StepKeepsRecords(s: State, a: Action)
    requires RecordsOk(s) && Threads(s) && Enabled(s, a)
    ensures RecordsOk(Apply(s, a))
  {
    if a.CreateOk? { CreateOkKeepsRecords(s, a.t); }
    else if a.MarkOk? { MarkOkKeepsRecords(s, a.t); }
    else if a.AppendOk? { AppendOkKeepsRecords(s, a.t); }
    else if a.CorrelateOk? { CorrelateOkKeepsRecords(s, a.t, a.w, a.gh, a.out); }
    else if a.CompleteOk? { CompleteOkKeepsRecords(s, a.t); }
    else if a.UserDelete? { RemovalKeepsRecordsOk(s, Apply(s, a), a.key); }
    else if a.SweepOk? { RemovalKeepsRecordsOk(s, Apply(s, a), Local(s, a.t).todo[0]); }
    else {
      OtherStepsKeepTheStore(s, a);
      RecordsSurvive(s, Apply(s, a));
    }
  }

  // ---------- threads ----------

  /** The thread an action moves, if it moves one. */
  function Mover(a: Action): Option<nat> {
    match a
    case Restart(_) => None
    case UserDelete(_) => None
    case PodCreated(_) => None
    case PodChanged(_) => None
    case PodDeleteRequested(_, _) => None
    case PodGone(_) => None
    case _ => Some(a.t)
  }

  lemma MovesOneThread(s: State, a: Action)
    requires Enabled(s, a) && !a.Restart?
    ensures var s' := Apply(s, a);
      && s.past <= s'.past && s.podPast <= s'.podPast && s.attempts <= s'.attempts
      && (Mover(a).None? ==> s'.threads == s.threads)
      && (Mover(a).Some? ==> s'.threads == s.threads[Mover(a).value := Local(s', Mover(a).value)])
  {
  }

  /** Opening an Investigation: every thread state on the way is in order. */
  lemma LookupThread(s: State, a: Action)
    requires Threads(s) && Enabled(s, a)
    requires a.Detect? || a.LookupFound? || a.LookupMissing? || a.LookupError?
    ensures ThreadOk(Apply(s, a), Local(Apply(s, a), a.t))
  {
    LocalOk(s, a.t);
    if a.LookupFound? {
      KeysIdentifySources(a.v.src, SourceOf(Local(s, a.t).o));
    }
  }

  lemma ReserveThread(s: State, a: Action)
    requires Threads(s) && Enabled(s, a)
    requires a.TryReserve? || a.CreateErr? || a.RestoreCount? || a.AppendErr?
    ensures ThreadOk(Apply(s, a), Local(Apply(s, a), a.t))
  {
    LocalOk(s, a.t);
  }

  lemma CreateOkThread(s: State, t: nat)
    requires Records(s) && Threads(s) && Enabled(s, CreateOk(t))
    ensures ThreadOk(Apply(s, CreateOk(t)), Local(Apply(s, CreateOk(t)), t))
  {
    LocalOk(s, t);
  }

  /** A write that leaves the paths at the end of the pod's LogPaths accounts for the attempt. */
  lemma RecordedIsAccounted(s: State, v: Version, o: Origin, lead: PodVersion)
    requires v in s.past && o.PodDeletion? && v.src == SourceOf(o) && o.pod == lead.pod
    requires EndsWith(v.spec.logPaths, o.paths)
    ensures Accounted(s, Attempt(lead.uid, lead.pod, o.paths, Recorded))
  {
  }

  lemma MarkThread(s: State, a: Action)
    requires Records(s) && Threads(s) && Enabled(s, a)
    requires a.MarkOk? || a.MarkErr?
    ensures ThreadOk(Apply(s, a), Local(Apply(s, a), a.t))
  {
    LocalOk(s, a.t);
    var th := Local(s, a.t);
    if th.o.PodDeletion? {
      RecordedIsAccounted(Apply(s, a), th.made, th.o, th.lead.value);
    }
  }

  lemma AppendThread(s: State, t: nat)
    requires Records(s) && Threads(s) && Enabled(s, AppendOk(t))
    ensures ThreadOk(Apply(s, AppendOk(t)), Local(Apply(s, AppendOk(t)), t))
  {
    LocalOk(s, t);
    var th := Local(s, t);
    CheckedReadIsStored(s, th.read);
    var w := SpecUpdate(s, KeyOf(th.read.src), AppendedSpec(th.read.spec, th.o));
    assert EndsWith(w.spec.logPaths, th.o.paths);
    RecordedIsAccounted(Apply(s, AppendOk(t)), w, th.o, th.lead.value);
  }

  lemma CorrelatorThread(s: State, a: Action)
    requires Records(s) && Threads(s) && Enabled(s, a)
    requires a.CorrelateRead? || a.CorrelateOk? || a.CorrelateErr? || a.RereadOk? || a.RereadErr?
          || a.CompleteOk? || a.CompleteErr?
    ensures ThreadOk(Apply(s, a), Local(Apply(s, a), a.t))
  {
    LocalOk(s, a.t);
    if a.CorrelateOk? {
      CheckedReadIsStored(s, Local(s, a.t).read);
    } else if a.RereadOk? {
      KeysIdentifySources(a.v.src, Local(s, a.t).written.src);
    }
  }

  lemma PodReadThread(s: State, a: Action)
    requires Enabled(s, a) && a.PodRead?
    ensures ThreadOk(Apply(s, a), Local(Apply(s, a), a.t))
  {
  }

  lemma LogsThread(s: State, a: Action)
    requires Threads(s) && Enabled(s, a) && a.LogsCollected?
    ensures ThreadOk(Apply(s, a), Local(Apply(s, a), a.t))
  {
    LocalOk(s, a.t);
  }

  lemma ReleaseThread(s: State, a: Action)
    requires Threads(s) && Enabled(s, a)
    requires a.ReleaseOk? || a.ReleaseErr? || a.FinalizerErr?
    ensures ThreadOk(Apply(s, a), Local(Apply(s, a), a.t))
  {
  }

  lemma FinalizerOkThread(s: State, t: nat)
    requires Threads(s) && Enabled(s, FinalizerOk(t))
    ensures ThreadOk(Apply(s, FinalizerOk(t)), Local(Apply(s, FinalizerOk(t)), t))
  {
    LocalOk(s, t);
  }

  predicate CreatorStep(a: Action) {
    || a.TryReserve? || a.CreateOk? || a.CreateErr? || a.RestoreCount?
    || a.MarkOk? || a.MarkErr? || a.AppendOk? || a.AppendErr?
  }

  lemma CreatorThread(s: State, a: Action)
    requires Records(s) && Threads(s) && Enabled(s, a) && CreatorStep(a)
    ensures ThreadOk(Apply(s, a), Local(Apply(s, a), a.t))
  {
    if a.CreateOk? { CreateOkThread(s, a.t); }
    else if a.MarkOk? || a.MarkErr? { MarkThread(s, a); }
    else if a.AppendOk? { AppendThread(s, a.t); }
    else { ReserveThread(s, a); }
  }

  lemma MoverThread(s: State, a: Action)
    requires Records(s) && Threads(s) && Enabled(s, a) && Mover(a).Some?
    ensures ThreadOk(Apply(s, a), Local(Apply(s, a), a.t))
  {
    if CreatorStep(a) { CreatorThread(s, a); }
    else if a.Detect? || a.LookupFound? || a.LookupMissing? || a.LookupError? { LookupThread(s, a); }
    else if a.FinalizerOk? { FinalizerOkThread(s, a.t); }
    else if a.PodRead? { PodReadThread(s, a); }
    else if a.LogsCollected? { LogsThread(s, a); }
    else if a.ReleaseOk? || a.ReleaseErr? || a.FinalizerErr? { ReleaseThread(s, a); }
    else if !(a.SweepStart? || a.SweepOk? || a.SweepErr? || a.SweepCounted?) { CorrelatorThread(s, a); }
  }

  lemma StepKeepsThreads(s: State, a: Action)
    requires Records(s) && Threads(s) && Enabled(s, a)
    ensures Threads(Apply(s, a))
  {
    var s' := Apply(s, a);
    if !a.Restart? {
      MovesOneThread(s, a);
      if Mover(a).Some? {
        MoverThread(s, a);
        ThreadsGo(s, s', a.t, Local(s', a.t));
      } else {
        forall u | u in s'.threads ensures ThreadOk(s', s'.threads[u]) {
          ThreadOkGrows(s, s', s.threads[u]);
        }
      }
    }
  }

  // ---------- the count ----------

  lemma CreatedSize(s: State, v: Version)
    requires KeyOf(v.src) !in s.store
    ensures |Put(s, v).store| == |s.store| + 1
  {
    assert Put(s, v).store.Keys == s.store.Keys + {KeyOf(v.src)};
  }

  lemma UpdatedSize(s: State, k: Key, v: Version)
    requires Revisions(s) && k in s.store && v.src == s.store[k].src
    ensures |Put(s, v).store| == |s.store|
  {
    assert KeyOf(v.src) == k;
    assert Put(s, v).store.Keys == s.store.Keys;
  }

  lemma StoreSize(s: State, a: Action)
    requires Revisions(s) && Enabled(s, a)
    ensures |Apply(s, a).store| ==
      |s.store| + (if a.CreateOk? then 1 else if a.UserDelete? || a.SweepOk? then -1 else 0)
  {
    if a.CreateOk? {
      CreatedSize(s, Made(s, Local(s, a.t).o));
    } else if a.MarkOk? {
      var k := KeyOf(Local(s, a.t).made.src);
      UpdatedSize(s, k, StatusUpdate(s, k, PHASE_COLLECTING));
    } else if a.AppendOk? {
      var th := Local(s, a.t);
      var k := KeyOf(th.read.src);
      UpdatedSize(s, k, SpecUpdate(s, k, AppendedSpec(th.read.spec, th.o)));
    } else if a.CorrelateOk? {
      var k := KeyOf(Local(s, a.t).read.src);
      UpdatedSize(s, k, SpecUpdate(s, k, a.out));
    } else if a.CompleteOk? {
      var k := KeyOf(Local(s, a.t).read.src);
      UpdatedSize(s, k, StatusUpdate(s, k, PHASE_COMPLETE));
    } else if a.UserDelete? {
      RemovedSize(s, a.key);
    } else if a.SweepOk? {
      RemovedSize(s, Local(s, a.t).todo[0]);
    } else {
      OtherStepsKeepTheStore(s, a);
    }
  }

  /** A step of one thread changes who holds a reservation exactly as it changes the count. */
  lemma StepBalances(s: State, a: Action)
    requires Enabled(s, a) && Mover(a).Some?
    ensures var s' := Apply(s, a);
      var h, h' := (if Holds(Local(s, a.t)) then 1 else 0), (if Holds(Local(s', a.t)) then 1 else 0);
      var o, o' := (if Owes(Local(s, a.t)) then 1 else 0), (if Owes(Local(s', a.t)) then 1 else 0);
      && s'.userDeleted == s.userDeleted && s'.initial == s.initial && s'.max == s.max
      && (a.CreateOk? ==> h' == h - 1) && (a.SweepOk? ==> o == 0 && o' == 1)
      && (a.TryReserve? ==> h == 0 && h' == s'.count - s.count && (h' == 1 ==> s.count < s.max))
      && (a.RestoreCount? ==> h == 1 && h' == 0 && s'.count == Lowered(s.count, 1))
      && (a.SweepCounted? ==> o == 1 && o' == 0 && s'.count == Lowered(s.count, 1))
      && (!a.CreateOk? && !a.TryReserve? && !a.RestoreCount? ==> h' == h)
      && (!a.SweepOk? && !a.SweepCounted? ==> o' == o)
      && (!a.TryReserve? && !a.RestoreCount? && !a.SweepCounted? ==> s'.count == s.count)
  {
  }

  lemma ThreadStepKeepsCount(s: State, a: Action)
    requires Revisions(s) && Counted(s) && Enabled(s, a) && Mover(a).Some?
    ensures Counted(Apply(s, a))
  {
    var s' := Apply(s, a);
    StoreSize(s, a);
    MovesOneThread(s, a);
    StepBalances(s, a);
    ThreadsMoved(s, s', a.t, Local(s', a.t));
    FloorIsOff(s, a.t);
    ArithmeticOfCount(s, s');
  }

  /** A reservation or an unsettled deletion keeps the count above zero. */
  lemma FloorIsOff(s: State, t: nat)
    requires Counted(s)
    ensures Holds(Local(s, t)) || Owes(Local(s, t)) ==> s.count >= 1 && Lowered(s.count, 1) == s.count - 1
  {
    if Holds(Local(s, t)) {
      assert t in Holding(s);
    } else if Owes(Local(s, t)) {
      assert t in Owing(s);
    }
  }

  /** The bookkeeping of one step adds up. */
  lemma ArithmeticOfCount(s: State, s': State)
    requires Counted(s)
    requires s'.userDeleted == s.userDeleted && s'.initial == s.initial && s'.max == s.max
    requires |s'.store| - |s.store| + |Holding(s')| - |Holding(s)| + |Owing(s')| - |Owing(s)| == s'.count - s.count
    requires s'.count <= s.count || (s'.count == s.count + 1 && s.count < s.max)
    ensures Counted(s')
  {
  }

  lemma OtherStepKeepsCount(s: State, a: Action)
    requires Revisions(s) && Counted(s) && Enabled(s, a) && Mover(a).None?
    ensures Counted(Apply(s, a))
  {
    StoreSize(s, a);
    if a.Restart? {
      assert Holding(Apply(s, a)) == {} && Owing(Apply(s, a)) == {};
    } else {
      MovesOneThread(s, a);
      assert Holding(Apply(s, a)) == Holding(s) && Owing(Apply(s, a)) == Owing(s);
    }
  }

  // ---------- pods ----------

  lemma FinalizerOkKeepsPods(s: State, t: nat)
    requires Pods(s) && Threads(s) && Enabled(s, FinalizerOk(t))
    ensures Pods(Apply(s, FinalizerOk(t)))
  {
    LocalOk(s, t);
    var th := Local(s, t);
    CheckedPodIsStored(s, th.seen);
    var p := th.seen.(rv := s.rev + 1, pod := WithFinalizer(th.seen.pod));
    PutPodKeeps(s, p, s.attempts);
    PodsKept(PutPod(s, p), Apply(s, FinalizerOk(t)));
  }

  lemma ReleaseOkKeepsPods(s: State, t: nat)
    requires Pods(s) && Threads(s) && Enabled(s, ReleaseOk(t))
    ensures Pods(Apply(s, ReleaseOk(t)))
  {
    LocalOk(s, t);
    var th := Local(s, t);
    CheckedPodIsStored(s, th.seen);
    var p := th.seen.(rv := s.rev + 1, pod := WithoutFinalizer(th.seen.pod));
    var attempts := s.attempts + {th.attempt};
    var s' := PutPod(s, p).(attempts := attempts);
    AccountedGrows(s, s', th.attempt);
    assert Attempted(s', p.uid);
    PutPodKeeps(s, p, attempts);
    PodsKept(s', Apply(s, ReleaseOk(t)));
  }

  lemma PodGoneKeepsPods(s: State, k: Key)
    requires Pods(s) && Threads(s) && Enabled(s, PodGone(k))
    ensures Pods(Apply(s, PodGone(k)))
  {
    var s' := Apply(s, PodGone(k));
    forall p | p in s.podPast && Protected(p) && Attempted(s, p.uid) ensures Attempted(s', p.uid) {
      AttemptedGrows(s, s', p.uid);
    }
  }

  predicate WritesPod(a: Action) {
    a.PodCreated? || a.PodChanged? || a.PodDeleteRequested? || a.PodGone? || a.FinalizerOk? || a.ReleaseOk?
  }

  lemma OtherStepsKeepThePods(s: State, a: Action)
    requires Enabled(s, a) && !WritesPod(a)
    ensures Apply(s, a).pods == s.pods && Apply(s, a).podPast == s.podPast
  {
  }

  lemma RevisionsGrow(s: State, a: Action)
    requires Enabled(s, a)
    ensures s.rev <= Apply(s, a).rev
    ensures s.past <= Apply(s, a).past && s.attempts <= Apply(s, a).attempts
  {
    if !a.Restart? {
      MovesOneThread(s, a);
    }
  }

  lemma StepKeepsPods(s: State, a: Action)
    requires Pods(s) && Threads(s) && Enabled(s, a)
    ensures Pods(Apply(s, a))
  {
    if a.PodCreated? {
      CreationKeepsPods(s, a.pod);
    } else if a.PodChanged? {
      ChangeKeepsPods(s, a.pod);
    } else if a.PodDeleteRequested? {
      DeleteRequestKeepsPods(s, a.key, a.at);
    } else if a.PodGone? {
      PodGoneKeepsPods(s, a.key);
    } else if a.FinalizerOk? {
      FinalizerOkKeepsPods(s, a.t);
    } else if a.ReleaseOk? {
      ReleaseOkKeepsPods(s, a.t);
    } else {
      OtherStepsKeepThePods(s, a);
      RevisionsGrow(s, a);
      PodsKept(s, Apply(s, a));
    }
  }

  lemma CreationKeepsPods(s: State, pod: Pod)
    requires Pods(s) && Enabled(s, PodCreated(pod))
    ensures Pods(Apply(s, PodCreated(pod)))
  {
    PutPodKeeps(s, PodVersion(s.rev + 1, s.rev + 1, pod), s.attempts);
  }

  lemma ChangeKeepsPods(s: State, pod: Pod)
    requires Pods(s) && Enabled(s, PodChanged(pod))
    ensures Pods(Apply(s, PodChanged(pod)))
  {
    PutPodKeeps(s, s.pods[Key(pod.namespace, pod.name)].(rv := s.rev + 1, pod := pod), s.attempts);
  }

  lemma DeleteRequestKeepsPods(s: State, k: Key, at: Time)
    requires Pods(s) && Enabled(s, PodDeleteRequested(k, at))
    ensures Pods(Apply(s, PodDeleteRequested(k, at)))
  {
    PutPodKeeps(s, s.pods[k].(rv := s.rev + 1, pod := s.pods[k].pod.(deletedAt := Some(at))), s.attempts);
  }

  // ---------- all together ----------

  lemma StepKeepsInv(s: State, a: Action)
    requires Inv(s) && Enabled(s, a)
    ensures Inv(Apply(s, a))
  {
    StepKeepsRecords(s, a);
    StepKeepsThreads(s, a);
    if Mover(a).Some? { ThreadStepKeepsCount(s, a); } else { OtherStepKeepsCount(s, a); }
    StepKeepsPods(s, a);
  }

  /** Every state of every run satisfies the invariant. */
  lemma {:induction false} InvAlongRun(tr: seq<State>, i: nat)
    requires Run(tr) && i < |tr|
    ensures Inv(tr[i])
  {
    if i == 0 {
      assert Holding(tr[0]) == {} && Owing(tr[0]) == {};
    } else {
      InvAlongRun(tr, i - 1);
      assert Next(tr[i - 1], tr[i - 1 + 1]);
      var a :| Enabled(tr[i - 1], a) && tr[i] == Apply(tr[i - 1], a);
      StepKeepsInv(tr[i - 1], a);
    }
  }
}
