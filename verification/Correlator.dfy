/** The Correlator's pass between its Get and its Update: it fills the Investigation it read
    in place. */
module Correlators {
  import opened Api
  import opened Origins
  import opened Classifier
  import opened Correlation
  import opened Sorting

  /** The Investigation object a reconcile works on. */
  class Investigation {
    const namespace: string
    var spec: Spec
    var phase: string

    constructor (namespace: string, spec: Spec, phase: string)
      ensures this.namespace == namespace && this.spec == spec && this.phase == phase
    {
      this.namespace := namespace;
      this.spec := spec;
      this.phase := phase;
    }
  }

  method HasOwnerRef(pod: Pod, owner: string) returns (found: bool)
    ensures found == (owner in pod.owners)
  {
    for i := 0 to |pod.owners|
      invariant owner !in pod.owners[..i]
    {
      if pod.owners[i] == owner {
        return true;
      }
    }
    assert pod.owners[..|pod.owners|] == pod.owners;
    return false;
  }

  method BuildPodInfoFromPod(pod: Pod) returns (info: PodInfo)
    ensures info == Snapshot(pod, [])
  {
    info := PodInfo(pod.name, pod.namespace, pod.phase, [], [], [], [], pod.nodeName);
    for i := 0 to |pod.conditions|
      invariant info == PodInfo(pod.name, pod.namespace, pod.phase, [], pod.conditions[..i], [], [], pod.nodeName)
    {
      info := info.(conditions := info.conditions + [pod.conditions[i]]);
    }
    for i := 0 to |pod.statuses|
      invariant info == PodInfo(pod.name, pod.namespace, pod.phase, [], pod.conditions,
                                Map(StatusOf, pod.statuses[..i]), [], pod.nodeName)
    {
      assert Map(StatusOf, pod.statuses[..i + 1]) == Map(StatusOf, pod.statuses[..i]) + [StatusOf(pod.statuses[i])];
      info := info.(containerStatuses := info.containerStatuses + [StatusOf(pod.statuses[i])]);
    }
    assert pod.statuses[..|pod.statuses|] == pod.statuses;
  }

  /** Merges timelines and sorts them by timestamp; the order of equal timestamps is open. */
  method BuildTimeline(events: seq<seq<TimelineEvent>>) returns (merged: seq<TimelineEvent>)
    ensures ByTime(merged)
    ensures forall e :: e in merged <==> exists i :: 0 <= i < |events| && e in events[i]
    ensures multiset(merged) == multiset(Flatten(events))
    ensures |merged| == |Flatten(events)|
  {
    merged := [];
    for i := 0 to |events|
      invariant merged == Flatten(events[..i])
    {
      assert events[..i + 1][..i] == events[..i];
      merged := merged + events[i];
    }
    assert events[..|events|] == events;
    merged := SortByTime(merged);
    FlattenHasAll(events);
    ghost var all := Flatten(events);
    forall e ensures e in merged <==> e in all {
      assert e in multiset(merged) <==> e in multiset(all);
    }
    assert |multiset(merged)| == |multiset(Flatten(events))|;
  }

  function Flatten<T>(ss: seq<seq<T>>): seq<T> {
    if ss == [] then [] else Flatten(ss[..|ss| - 1]) + ss[|ss| - 1]
  }

  /** The merge of two groups of lists is the merge of the one, then of the other; of one list
      it is that list. */
  lemma {:induction false} FlattenSplits<T>(a: seq<seq<T>>, b: seq<seq<T>>, l: seq<T>)
    ensures Flatten(a + b) == Flatten(a) + Flatten(b)
    ensures Flatten([l]) == l
  {
    assert Flatten([l][..0]) == [];
    if b == [] {
      assert a + b == a;
    } else {
      var n := |b| - 1;
      assert (a + b)[..|a + b| - 1] == a + b[..n];
      FlattenSplits(a, b[..n], l);
    }
  }

  lemma {:induction false} FlattenHasAll<T>(ss: seq<seq<T>>)
    ensures forall e :: e in Flatten(ss) <==> exists i :: 0 <= i < |ss| && e in ss[i]
  {
    if ss != [] {
      var n := |ss| - 1;
      FlattenHasAll(ss[..n]);
      forall e ensures e in Flatten(ss) <==> exists i :: 0 <= i < |ss| && e in ss[i] {
        if i :| 0 <= i < n && e in ss[i] {
          assert ss[..n][i] == ss[i];
        }
      }
    }
  }

  class Correlator {
    const hasGitHub: bool

    constructor (hasGitHub: bool)
      ensures this.hasGitHub == hasGitHub
    {
      this.hasGitHub := hasGitHub;
    }

    method EnrichFromK8s(inv: Investigation, w: World)
      modifies inv`spec
      ensures inv.spec == WithK8s(old(inv.spec), inv.namespace, w)
    {
      if inv.spec.job.Some? && inv.spec.job.value.runnerName != "" && inv.spec.runner.None?
         && inv.namespace in w.runners
      {
        var items := w.runners[inv.namespace];
        var name := inv.spec.job.value.runnerName;
        var first := (er: RunnerObject) => er.runnerName == name;
        var i := 0;
        while i < |items|
          invariant 0 <= i <= |items|
          invariant forall j :: 0 <= j < i ==> !first(items[j])
          invariant inv.spec == old(inv.spec)
        {
          if items[i].runnerName == name {
            inv.spec := inv.spec.(runner := Some(RunnerInfo(items[i].name, items[i].namespace, items[i].phase, [])));
            break;
          }
          i := i + 1;
        }
        assert i == FirstIndex(items, first);
      }
      ghost var mid := inv.spec;
      assert mid == WithRunner(old(inv.spec), inv.namespace, w);
      if inv.spec.runner.Some? && inv.spec.pod.None? && inv.spec.runner.value.namespace in w.pods {
        var pods := w.pods[inv.spec.runner.value.namespace];
        var name := inv.spec.runner.value.name;
        var mine := (p: Pod) => PodBelongsTo(p, name);
        var i := 0;
        while i < |pods|
          invariant 0 <= i <= |pods|
          invariant forall j :: 0 <= j < i ==> !mine(pods[j])
          invariant inv.spec == mid
        {
          var owned := HasOwnerRef(pods[i], name);
          if pods[i].name == name || owned {
            var info := BuildPodInfoFromPod(pods[i]);
            inv.spec := inv.spec.(pod := Some(info));
            break;
          }
          i := i + 1;
        }
        assert i == FirstIndex(pods, mine);
      }
    }

    /** Looks through configs, repositories, runs and jobs in that order and takes the first
        job that ran on the Investigation's runner; a listing that fails is skipped. */
    method EnrichFromGitHub(inv: Investigation, w: World)
      modifies inv`spec
      ensures inv.spec == WithGitHub(old(inv.spec), w)
      ensures old(inv.spec).runner.Some? && (exists p :: Hit(w, old(inv.spec).runner.value.name, p)) ==>
        exists p :: FirstHit(w, old(inv.spec).runner.value.name, p) && inv.spec == JobFrom(old(inv.spec), w, p)
      ensures old(inv.spec).runner.None? || (forall p :: !Hit(w, old(inv.spec).runner.value.name, p)) ==>
        inv.spec == old(inv.spec)
    {
      if inv.spec.runner.None? || w.configs.None? || w.configs.value == [] {
        return;
      }
      var name := inv.spec.runner.value.name;
      var configs := w.configs.value;
      var c := 0;
      while c < |configs|
        invariant 0 <= c <= |configs|
        invariant inv.spec == old(inv.spec)
        invariant NoHitBefore(w, name, Position(c, 0, 0, 0))
      {
        var r := 0;
        while r < |configs[c]|
          invariant 0 <= r <= |configs[c]|
          invariant inv.spec == old(inv.spec)
          invariant NoHitBefore(w, name, Position(c, r, 0, 0))
        {
          var repo := configs[c][r];
          if repo in w.runs {
            var runs := w.runs[repo];
            var n := 0;
            while n < |runs|
              invariant 0 <= n <= |runs|
              invariant inv.spec == old(inv.spec)
              invariant NoHitBefore(w, name, Position(c, r, n, 0))
            {
              if (repo, runs[n].id) in w.jobs {
                var jobs := w.jobs[(repo, runs[n].id)];
                var j := 0;
                while j < |jobs|
                  invariant 0 <= j <= |jobs|
                  invariant inv.spec == old(inv.spec)
                  invariant NoHitBefore(w, name, Position(c, r, n, j))
                {
                  if jobs[j].runnerName == name {
                    ghost var p := Position(c, r, n, j);
                    assert FirstHit(w, name, p);
                    inv.spec := inv.spec.(
                      workflowRun := Some(WorkflowRun(runs[n].id, runs[n].name, runs[n].status, runs[n].conclusion,
                                                      runs[n].htmlURL, repo.owner + "/" + repo.name)),
                      job := Some(Job(jobs[j].id, jobs[j].name, jobs[j].status, jobs[j].conclusion, jobs[j].runnerName,
                                      jobs[j].startedAt, jobs[j].completedAt, jobs[j].steps)));
                    FirstHitDecides(old(inv.spec), w, p);
                    return;
                  }
                  j := j + 1;
                }
              }
              n := n + 1;
            }
          }
          r := r + 1;
        }
        c := c + 1;
      }
    }

    method CollectPodEvents(inv: Investigation, w: World)
      requires inv.spec.pod.Some?
      modifies inv`spec
      ensures inv.spec == WithEvents(old(inv.spec), w)
    {
      var pod := inv.spec.pod.value;
      AddNoEvents(inv.spec);
      if (pod.namespace, pod.name) !in w.events {
        return;
      }
      var items := w.events[(pod.namespace, pod.name)];
      for i := 0 to |items|
        invariant inv.spec == AddEvents(old(inv.spec), items[..i])
      {
        var e := items[i];
        AddOneEvent(old(inv.spec), items[..i], e);
        assert items[..i + 1] == items[..i] + [e];
        assert Map(EventSnapshotOf, [e]) == [EventSnapshotOf(e)] && Map(TimelineEventOf, [e]) == [TimelineEventOf(e)];
        var info := inv.spec.pod.value;
        inv.spec := inv.spec.(
          pod := Some(info.(events := info.events +
            [EventSnapshot(e.kind, e.reason, e.message, e.count, e.component, e.first, e.last)])),
          timeline := inv.spec.timeline +
            [TimelineEvent(e.last, "event", e.reason, "[" + e.component + "] " + e.message)]);
      }
      assert items[..|items|] == items;
    }

    /** Sorts the timeline and makes sure there is a diagnosis. */
    method Conclude(inv: Investigation)
      modifies inv`spec
      ensures ByTime(inv.spec.timeline) && multiset(inv.spec.timeline) == multiset(old(inv.spec.timeline))
      ensures var e := old(inv.spec);
        inv.spec == e.(timeline := inv.spec.timeline,
                       diagnosis := Some(if e.diagnosis.Some? then e.diagnosis.value else Diagnose(e)))
    {
      var timeline := BuildTimeline([inv.spec.timeline]);
      assert Flatten([inv.spec.timeline]) == inv.spec.timeline;
      OnlyEvidenceCounts(inv.spec, timeline, inv.spec.diagnosis);
      inv.spec := inv.spec.(timeline := timeline);
      if inv.spec.diagnosis.None? {
        inv.spec := inv.spec.(diagnosis := Classify(inv.spec));
      }
      if inv.spec.diagnosis.None? {
        inv.spec := inv.spec.(diagnosis := Some(UNKNOWN));
      }
    }

    /** Adds what the listings show of runner, pod, job and events. */
    method Enrich(inv: Investigation, w: World)
      modifies inv`spec
      ensures inv.spec == Enriched(old(inv.spec), inv.namespace, w, hasGitHub)
    {
      if inv.spec.runner.None? || inv.spec.pod.None? {
        EnrichFromK8s(inv, w);
      }
      if inv.spec.job.None? && hasGitHub {
        EnrichFromGitHub(inv, w);
      }
      if inv.spec.pod.Some? && inv.spec.pod.value.events == [] {
        CollectPodEvents(inv, w);
      }
    }

    /** The pass over an Investigation that is collecting. What it leaves in the spec is one
        of the results the lifecycle protocol lets a Correlator write. */
    method Correlate(inv: Investigation, w: World)
      modifies inv
      ensures old(inv.phase) != PHASE_COLLECTING ==> inv.spec == old(inv.spec) && inv.phase == old(inv.phase)
      ensures old(inv.phase) == PHASE_COLLECTING ==>
        && Correlated(old(inv.spec), inv.namespace, w, hasGitHub, inv.spec)
        && inv.phase == PHASE_COMPLETE
    {
      if inv.phase != PHASE_COLLECTING {
        return;
      }
      Enrich(inv, w);
      Conclude(inv);
      inv.phase := PHASE_COMPLETE;
    }
  }

  ghost predicate NoHitBefore(w: World, name: string, p: Position) {
    forall q :: Before(q, p) ==> !Hit(w, name, q)
  }

  lemma FirstHitDecides(spec: Spec, w: World, p: Position)
    requires spec.runner.Some? && FirstHit(w, spec.runner.value.name, p)
    ensures WithGitHub(spec, w) == JobFrom(spec, w, p)
  {
    forall q | FirstHit(w, spec.runner.value.name, q) ensures q == p {
      FirstHitIsUnique(w, spec.runner.value.name, p, q);
    }
  }
}
