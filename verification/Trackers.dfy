/** The per-object phase trackers of the two watchers, over arbitrary sequences of
    observations, clock readings and disappearances. */
module Trackers {
  import opened Api

  // ---------- phase histories ----------

  datatype Tracker = Tracker(lastPhase: string, transitions: seq<Transition>)

  const FRESH := Tracker("", [])

  /** One observation: an empty phase or the last one adds nothing. */
  function Track(t: Tracker, phase: string, now: Time): Tracker {
    if phase != "" && t.lastPhase != phase
    then Tracker(phase, t.transitions + [Transition(t.lastPhase, phase, now)])
    else t
  }

  /** What a watcher finds out about one object: that it is gone, or its phase. */
  datatype Sighting = Gone | Seen(phase: string, at: Time)

  function OrFresh(t: Option<Tracker>): Tracker {
    if t.Some? then t.value else FRESH
  }

  function Step(t: Option<Tracker>, s: Sighting): Option<Tracker> {
    if s.Gone? then None else Some(Track(OrFresh(t), s.phase, s.at))
  }

  /** The tracker after the sightings, oldest first. */
  function TrackerAfter(h: seq<Sighting>): Option<Tracker> {
    if h == [] then None else Step(TrackerAfter(h[..|h| - 1]), h[|h| - 1])
  }

  /** The non-empty phases seen since the object was last gone. */
  function Phases(h: seq<Sighting>): (r: seq<Sighting>)
    ensures forall i :: 0 <= i < |r| ==> r[i].Seen? && r[i].phase != "" && r[i] in h
  {
    if h == [] then []
    else
      var last := h[|h| - 1];
      if last.Gone? then []
      else Phases(h[..|h| - 1]) + (if last.phase == "" then [] else [last])
  }

  /** The stutter-free compression: one transition wherever the phase differs from the one before. */
  function Squeeze(ps: seq<Sighting>, before: string): seq<Transition>
    requires forall i :: 0 <= i < |ps| ==> ps[i].Seen?
  {
    if ps == [] then []
    else if ps[0].phase == before then Squeeze(ps[1..], before)
    else [Transition(before, ps[0].phase, ps[0].at)] + Squeeze(ps[1..], ps[0].phase)
  }

  function LastPhase(ps: seq<Sighting>, before: string): string
    requires forall i :: 0 <= i < |ps| ==> ps[i].Seen?
  {
    if ps == [] then before else ps[|ps| - 1].phase
  }

  lemma {:induction false} SqueezeOneMore(ps: seq<Sighting>, p: Sighting, before: string)
    requires forall i :: 0 <= i < |ps| ==> ps[i].Seen?
    requires p.Seen?
    ensures Squeeze(ps + [p], before) ==
      Squeeze(ps, before)
      + (if LastPhase(ps, before) == p.phase then [] else [Transition(LastPhase(ps, before), p.phase, p.at)])
  {
    if ps == [] {
      assert ps + [p] == [p];
    } else {
      assert (ps + [p])[1..] == ps[1..] + [p];
      SqueezeOneMore(ps[1..], p, if ps[0].phase == before then before else ps[0].phase);
    }
  }

  /** The recorded history is exactly the compression of what was seen since the tracker
      was created, and the tracker's last phase is the last non-empty one. */
  lemma {:induction false} HistoryIsCompression(h: seq<Sighting>)
    ensures OrFresh(TrackerAfter(h)).transitions == Squeeze(Phases(h), "")
    ensures OrFresh(TrackerAfter(h)).lastPhase == LastPhase(Phases(h), "")
  {
    if h != [] {
      var before, last := h[..|h| - 1], h[|h| - 1];
      HistoryIsCompression(before);
      if last.Seen? && last.phase != "" {
        SqueezeOneMore(Phases(before), last, "");
      } else if last.Seen? {
        assert Phases(h) == Phases(before);
      }
    }
  }

  /** The clock never goes backwards between sightings. */
  ghost predicate Clocked(h: seq<Sighting>) {
    forall i, j :: 0 <= i < j < |h| && h[i].Seen? && h[j].Seen? ==> h[i].at <= h[j].at
  }

  ghost predicate Chained(ts: seq<Transition>, before: string) {
    && (ts != [] ==> ts[0].from == before)
    && (forall i :: 0 < i < |ts| ==> ts[i].from == ts[i - 1].to)
    && (forall i :: 0 <= i < |ts| ==> ts[i].from != ts[i].to)
    && (forall i, j :: 0 <= i < j < |ts| ==> ts[i].timestamp <= ts[j].timestamp)
  }

  ghost predicate NoneAfter(ts: seq<Transition>, bound: Time) {
    forall i :: 0 <= i < |ts| ==> ts[i].timestamp <= bound
  }

  lemma TrackKeepsChain(t: Tracker, phase: string, now: Time)
    requires SoundHistory(t) && NoneAfter(t.transitions, now)
    ensures SoundHistory(Track(t, phase, now)) && NoneAfter(Track(t, phase, now).transitions, now)
  {
  }

  /** The history starts from "", is unbroken, never stutters, its times never decrease, and
      it leads to the last phase. */
  ghost predicate SoundHistory(t: Tracker) {
    && Chained(t.transitions, "")
    && t.lastPhase == (if t.transitions == [] then "" else t.transitions[|t.transitions| - 1].to)
  }

  /** Every recorded history is sound, and none of its times is after the last sighting. */
  lemma {:induction false} HistoryIsChained(h: seq<Sighting>, bound: Time)
    requires Clocked(h) && forall i :: 0 <= i < |h| && h[i].Seen? ==> h[i].at <= bound
    ensures SoundHistory(OrFresh(TrackerAfter(h)))
    ensures NoneAfter(OrFresh(TrackerAfter(h)).transitions, bound)
  {
    if h != [] && h[|h| - 1].Seen? {
      var before, last := h[..|h| - 1], h[|h| - 1];
      forall i | 0 <= i < |before| && before[i].Seen? ensures before[i].at <= last.at {
        assert before[i] == h[i] && h[|h| - 1] == last;
      }
      assert Clocked(before) by {
        assert forall i :: 0 <= i < |before| ==> before[i] == h[i];
      }
      HistoryIsChained(before, last.at);
      TrackKeepsChain(OrFresh(TrackerAfter(before)), last.phase, last.at);
    }
  }

  // ---------- the running clock of an EphemeralRunner ----------

  datatype RunnerTracker = RunnerTracker(tracker: Tracker, runningSince: Option<Time>)

  const FRESH_RUNNER := RunnerTracker(FRESH, None)

  /** One reconcile of an EphemeralRunner: what it found (None: the runner is gone) and the
      clock at the transition, at the start of Running and at the threshold check. */
  datatype Reading = Reading(phase: Option<string>, stamp: Time, since: Time, check: Time)

  function TrackRunner(t: RunnerTracker, r: Reading): RunnerTracker
    requires r.phase.Some?
  {
    if t.tracker.lastPhase == r.phase.value then t
    else RunnerTracker(
      Tracker(r.phase.value, t.tracker.transitions + [Transition(t.tracker.lastPhase, r.phase.value, r.stamp)]),
      if r.phase.value == "Running" then Some(r.since) else None)
  }

  /** A runner without phase is left alone: no tracker is created for it. */
  function RunnerStep(t: Option<RunnerTracker>, r: Reading): Option<RunnerTracker> {
    if r.phase.None? then None
    else if r.phase.value == "" then t
    else Some(TrackRunner(if t.Some? then t.value else FRESH_RUNNER, r))
  }

  function RunnerAfter(h: seq<Reading>): Option<RunnerTracker> {
    if h == [] then None else RunnerStep(RunnerAfter(h[..|h| - 1]), h[|h| - 1])
  }

  datatype Decision = RequeueAfter(d: Duration) | Open

  /** The decision for a runner in phase Running. */
  function RunningDecision(t: Option<RunnerTracker>, check: Time, threshold: Duration): Decision {
    if t.None? || t.value.runningSince.None? then RequeueAfter(threshold)
    else
      var elapsed := check - t.value.runningSince.value;
      if elapsed < threshold then RequeueAfter(threshold - elapsed) else Open
  }

  ghost predicate RunnerClocked(h: seq<Reading>) {
    && (forall i :: 0 <= i < |h| ==> h[i].stamp <= h[i].since <= h[i].check)
    && (forall i, j :: 0 <= i < j < |h| ==> h[i].check <= h[j].stamp)
  }

  /** From reading `i` on, the runner was never gone and every non-empty phase was Running. */
  ghost predicate RunningSince(h: seq<Reading>, i: nat) {
    i < |h| && h[i].phase == Some("Running")
    && forall j :: i <= j < |h| ==> h[j].phase == Some("Running") || h[j].phase == Some("")
  }

  function SightingOf(r: Reading): Sighting {
    if r.phase.None? then Gone else Seen(r.phase.value, r.stamp)
  }

  /** The runner watcher's histories are those of the common tracker, but that a runner never
      seen in a non-empty phase has no tracker; and it holds a start of Running exactly while
      the last phase is Running. */
  lemma {:induction false} RunnerHistory(h: seq<Reading>)
    ensures var t := RunnerAfter(h);
      && (if t.Some? then t.value.tracker else FRESH) == OrFresh(TrackerAfter(Map(SightingOf, h)))
      && (t.Some? ==> (t.value.runningSince.Some? <==> t.value.tracker.lastPhase == "Running"))
      && (t.Some? ==> t.value.tracker.lastPhase != "")
  {
    if h != [] {
      var before := h[..|h| - 1];
      RunnerHistory(before);
      var m := Map(SightingOf, h);
      assert m[..|m| - 1] == Map(SightingOf, before);
    }
  }

  /** Where the present stretch of Running began; the length if the runner is not running. */
  ghost function Stretch(h: seq<Reading>): (i: nat)
    ensures i <= |h|
  {
    if h == [] then 0
    else
      var n := |h| - 1;
      var before := Stretch(h[..n]);
      if h[n].phase == Some("Running") then before
      else if h[n].phase == Some("") && before < n then before
      else |h|
  }

  lemma {:induction false} StretchIsLongest(h: seq<Reading>)
    ensures Stretch(h) < |h| ==> RunningSince(h, Stretch(h))
    ensures forall k: nat :: RunningSince(h, k) ==> Stretch(h) <= k
  {
    if h != [] {
      var n := |h| - 1;
      var before := h[..n];
      StretchIsLongest(before);
      forall k: nat | RunningSince(h, k) ensures Stretch(h) <= k {
        if k < n {
          assert RunningSince(before, k);
        }
      }
    }
  }

  /** The tracker's start of Running is the clock reading of the reconcile that began the stretch. */
  lemma {:induction false} StartIsTheStretch(h: seq<Reading>)
    ensures var t := RunnerAfter(h);
      if Stretch(h) < |h| then t.Some? && t.value.runningSince == Some(h[Stretch(h)].since)
      else t.Some? ==> t.value.runningSince.None?
  {
    if h != [] {
      StartIsTheStretch(h[..|h| - 1]);
      RunnerHistory(h[..|h| - 1]);
    }
  }

  /** A runner in phase Running is reported stuck exactly when it has been seen Running, and
      nothing else, since some reading at least the threshold ago, without its tracker being
      reset. */
  lemma {:induction false} StuckExactlyWhenRunningThroughout(h: seq<Reading>, threshold: Duration)
    requires RunnerClocked(h) && h != [] && h[|h| - 1].phase == Some("Running")
    ensures RunningDecision(RunnerAfter(h), h[|h| - 1].check, threshold).Open? <==>
      exists i: nat :: RunningSince(h, i) && h[i].since + threshold <= h[|h| - 1].check
  {
    StretchIsLongest(h);
    StartIsTheStretch(h);
    assert RunningSince(h, |h| - 1);
    var i := Stretch(h);
    forall k: nat | RunningSince(h, k) ensures h[i].since <= h[k].since {
      if i < k {
        assert h[i].check <= h[k].stamp;
      }
    }
  }

  /** An early reconcile asks to be repeated exactly when the threshold is reached: the next
      reading in phase Running opens an Investigation if and only if its check is not before
      that instant. */
  lemma {:induction false} RequeueHitsTheThreshold(h: seq<Reading>, next: Reading, threshold: Duration)
    requires h != [] && h[|h| - 1].phase == Some("Running") && next.phase == Some("Running")
    requires RunningDecision(RunnerAfter(h), h[|h| - 1].check, threshold).RequeueAfter?
    ensures var d := RunningDecision(RunnerAfter(h), h[|h| - 1].check, threshold).d;
      && d > 0
      && RunnerAfter(h).Some? && RunnerAfter(h).value.runningSince.Some?
      && h[|h| - 1].check + d == RunnerAfter(h).value.runningSince.value + threshold
      && (RunningDecision(RunnerAfter(h + [next]), next.check, threshold).Open? <==>
            next.check >= h[|h| - 1].check + d)
  {
    RunnerHistory(h);
    assert (h + [next])[..|h|] == h;
  }

  /** The present stretch of Running began with reading `i`. */
  ghost predicate BeganAt(h: seq<Reading>, i: nat) {
    RunningSince(h, i) && forall k: nat :: RunningSince(h, k) ==> i <= k
  }

  // ---------- many objects, one map ----------

  function At<T>(m: map<Key, T>, k: Key): Option<T> {
    if k in m then Some(m[k]) else None
  }

  function Set<T>(m: map<Key, T>, k: Key, t: Option<T>): map<Key, T> {
    if t.Some? then m[k := t.value] else m - {k}
  }

  function PodsStep(m: map<Key, Tracker>, k: Key, s: Sighting): map<Key, Tracker> {
    Set(m, k, Step(At(m, k), s))
  }

  function RunnersStep(m: map<Key, RunnerTracker>, k: Key, r: Reading): map<Key, RunnerTracker> {
    Set(m, k, RunnerStep(At(m, k), r))
  }

  function PodsAfter(es: seq<(Key, Sighting)>): map<Key, Tracker> {
    if es == [] then map[] else PodsStep(PodsAfter(es[..|es| - 1]), es[|es| - 1].0, es[|es| - 1].1)
  }

  function RunnersAfter(es: seq<(Key, Reading)>): map<Key, RunnerTracker> {
    if es == [] then map[] else RunnersStep(RunnersAfter(es[..|es| - 1]), es[|es| - 1].0, es[|es| - 1].1)
  }

  lemma {:induction false} PodsAfterOneMore(es: seq<(Key, Sighting)>, k: Key, s: Sighting)
    ensures PodsAfter(es + [(k, s)]) == PodsStep(PodsAfter(es), k, s)
  {
    assert (es + [(k, s)])[..|es|] == es;
  }

  lemma {:induction false} RunnersAfterOneMore(es: seq<(Key, Reading)>, k: Key, r: Reading)
    ensures RunnersAfter(es + [(k, r)]) == RunnersStep(RunnersAfter(es), k, r)
  {
    assert (es + [(k, r)])[..|es|] == es;
  }

  /** What happened to one key. */
  function Of<T>(es: seq<(Key, T)>, k: Key): seq<T> {
    if es == [] then []
    else Of(es[..|es| - 1], k) + (if es[|es| - 1].0 == k then [es[|es| - 1].1] else [])
  }

  /** A watcher's map holds for every key the tracker of that key's own observations,
      however those of other keys are mixed in. */
  lemma {:induction false} PodKeysAreIndependent(es: seq<(Key, Sighting)>, k: Key)
    ensures At(PodsAfter(es), k) == TrackerAfter(Of(es, k))
  {
    if es != [] {
      PodKeysAreIndependent(es[..|es| - 1], k);
      var own := Of(es[..|es| - 1], k);
      assert (own + [es[|es| - 1].1])[..|own|] == own;
      assert own + [] == own;
    }
  }

  lemma {:induction false} RunnerKeysAreIndependent(es: seq<(Key, Reading)>, k: Key)
    ensures At(RunnersAfter(es), k) == RunnerAfter(Of(es, k))
  {
    if es != [] {
      RunnerKeysAreIndependent(es[..|es| - 1], k);
      var own := Of(es[..|es| - 1], k);
      assert (own + [es[|es| - 1].1])[..|own|] == own;
      assert own + [] == own;
    }
  }

  /** Over everything the runner watcher ever observed, of all runners: its reconcile of a
      runner in phase Running opens an Investigation exactly when that runner, and no reset of
      its tracker, has been seen Running and nothing else for at least the threshold. */
  lemma {:induction false} ReportsExactlyTheStuck(es: seq<(Key, Reading)>, k: Key, r: Reading, threshold: Duration)
    requires r.phase == Some("Running")
    requires RunnerClocked(Of(es + [(k, r)], k))
    ensures var h := Of(es + [(k, r)], k);
      RunningDecision(At(RunnersAfter(es + [(k, r)]), k), r.check, threshold).Open? <==>
        exists i: nat :: RunningSince(h, i) && h[i].since + threshold <= r.check
  {
    var all := es + [(k, r)];
    var h := Of(all, k);
    assert all[..|all| - 1] == es;
    assert h == Of(es, k) + [r];
    RunnerKeysAreIndependent(all, k);
    StuckExactlyWhenRunningThroughout(h, threshold);
  }

  /** While a Running runner is not reported, its next reconcile is asked for at the threshold
      after the reading that began the stretch. */
  lemma {:induction false} RequeuesToTheStart(es: seq<(Key, Reading)>, k: Key, r: Reading, threshold: Duration)
    requires r.phase == Some("Running")
    ensures var h := Of(es + [(k, r)], k);
      match RunningDecision(At(RunnersAfter(es + [(k, r)]), k), r.check, threshold)
      case RequeueAfter(d) => exists i: nat :: BeganAt(h, i) && r.check + d == h[i].since + threshold
      case Open => true
  {
    var all := es + [(k, r)];
    var h := Of(all, k);
    assert all[..|all| - 1] == es;
    assert h == Of(es, k) + [r];
    RunnerKeysAreIndependent(all, k);
    StretchIsLongest(h);
    StartIsTheStretch(h);
    assert RunningSince(h, |h| - 1);
    assert BeganAt(h, Stretch(h));
  }
}
