# arc-detective: a Dafny model of the Investigation lifecycle

arc-detective watches GitHub Actions runner pods, opens an Investigation when one fails,
collects evidence and logs, diagnoses the failure and prunes what is old. Several
controllers work on the same Investigations through an API server with optimistic
concurrency, read through caches that may be stale, and share one in-memory count that caps
the number of Investigations. This project models that and proves what survives every
interleaving.

## What is modelled

- **Lifecycle protocol** (`Lifecycle*.dfy`). A transition system with one API call or counter
  operation per step. Threads are reconciles, polls and sweeps in any number; no two are
  assumed to be serialised. The API server hands out increasing revisions; an update names
  the version its caller read and succeeds only if it is still current; a spec update keeps
  the phase, a status update keeps the spec. A read may return any version the key ever had,
  or miss an object that exists. Users delete Investigations, the operator restarts at any
  point, other parties change and delete pods. `LifecycleInvariants.dfy` and
  `LifecycleSteps.dfy` hold the inductive invariant, `LifecycleTheorems.dfy` what it means
  for runs, `LifecycleEffects.dfy` what each step stores, and `LifecycleRuns.dfy` runs that show
  what does not hold and that the protocol can go through.
- **Diagnosis pipeline.** What creators store (`Origins.dfy`), the pattern table
  (`Classifier.dfy`), one Correlator pass as a relation between the spec read and the spec
  written (`Correlation.dfy`), the methods that fill an Investigation in place and meet that
  relation (`Correlator.dfy`), what a pass finds, in the fields of the listings (`PassResults.dfy`), and
  the agreement of detector and classifier
  (`Agreement.dfy`). The protocol's Correlator step may write exactly what the relation
  allows.
- **Watchers.** Phase histories and the running clock over arbitrary observations
  (`Trackers.dfy`), the watcher classes and the poller (`Watchers.dfy`), the counter
  (`Counting.dfy`).
- **Logs.** The store (`DiskStore.dfy`), collection (`LogCollection.dfy`), pruning by age and by
  size (`Cleanup.dfy`), which log the size limit takes first (`PruneOrder.dfy`), and pruning in
  every reachable protocol state (`Retention.dfy`).

Listings, clock readings, log streams and failures of API calls or of the disk are
parameters: the results hold for all of them.

## Assumptions

- A create, update or delete that reports failure changed nothing.
- The count starts at the number of Investigations that exist when the controllers start.
- Users delete Investigations but do not create or change them; nobody else removes the
  log-collector finalizer; the API server removes a pod only when it has no finalizers left.
- A container has at most one of the states waiting, running and terminated.
- Kubernetes names contain no "/" and are not "."; container names are unique within a pod.
- The clock does not go backwards.

## What turned out not to hold

- *Complete implies diagnosed* fails when a user deletes an Investigation between the
  Correlator's two writes and a creator opens it again: the second write then completes the
  new, undiagnosed one, which may never have been collecting
  (`LifecycleRuns.RecreationLosesDiagnosis`). It holds in all other runs, and
  `CompletionIsUndiagnosedExactlyWhenCrossed` gives the exact condition on the second read.
- *job-stuck-queued exactly when no runner was matched* holds when the diagnosis is set. If the
  second read or the status write fails, the next pass keeps the diagnosis, and it then stands
  beside a runner if and only if none was known and that pass finds one listed under the job's
  runner name (`Correlation.PassKeepsJobTriggered`; over runs
  `LifecycleTheorems.DiagnosisMissesRunnerExactlyWhenLate`; a run
  `LifecycleRuns.LateRunnerBesideJobStuck`).
- *Trigger pod-oomkill implies diagnosis pod-oomkilled* fails when the log appender replaces the
  snapshot before the first pass. Then it holds if and only if the later pod has a terminated
  container with reason OOMKilled or exit code 137; a later pod without anomaly gives unknown,
  or pod-stuck-terminating in phase Terminating (`Agreement.AppendedSnapshotDecides`; a run
  `LifecycleRuns.AppendForgetsTheKill`).
- A pass repeated after the log appender replaced the pod snapshot lists the pod's events in
  the timeline again, unless there are none (`Correlation.AppendBetweenPassesRepeatsEvents`; a
  run `LifecycleRuns.AppendRepeatsTheEvent`).
- The trigger's source text does not identify an Investigation: one job listed by
  DetectiveConfigs of two namespaces is investigated in both, and a pod and a runner of one name
  share it (`Naming.SourceTextDoesNotIdentify`). It decides exactly within one kind of trigger
  and, for jobs, one namespace (`LifecycleTheorems.SourceTextDecidesExactly`).
- *No newer log goes while an older one stays* holds for whole seconds only. A newer log may go
  first if and only if both are of one second and the limit is reached within that second
  (`PruneOrder.NewerGoesExactlyWhen`); some limit does that if and only if a log of that second
  other than the older one has content (`PruneOrder.SomeLimitReordersExactlyWhen`; an input
  `PruneOrder.WithinASecondTheNewerMayGo`).

Where code and documentation differ the model follows the code: no creator emits the
documented trigger type "job-failed", no controller sets the documented phase "Failed", and
`OldestFiles` does not group by investigation directory as its comment says.

## Model

| member | source | states |
|---|---|---|
| `LifecycleTheorems.IncarnationsEvolve` | internal/controller/correlator.go:33-95 | over every interleaving, a later version of an incarnation has the same source and trigger, keeps a set diagnosis, runner and job, extends the log paths at the end only, loses no timeline entry and never goes back in phase |
| `LifecycleTheorems.CompleteMeansDiagnosed` | internal/controller/correlator.go:67-91 | if no key is recreated between the Correlator's two writes, every complete Investigation in every reachable state has a diagnosis and was collecting before |
| `LifecycleTheorems.CompletionIsUndiagnosedExactlyWhenCrossed` | internal/controller/correlator.go:84-91 | with recreation allowed: the status write leaves an undiagnosed complete Investigation if and only if the second read returned another, undiagnosed incarnation |
| `LifecycleRuns.RecreationLosesDiagnosis` | internal/controller/correlator.go:81-91 | a run of the protocol that ends with a complete Investigation that has no diagnosis and never was collecting |
| `LifecycleTheorems.CountAccountsForEverything` | internal/controller/investigation_counter.go:31-52 | in every reachable state the count is live Investigations, unresolved reservations, uncounted cleanup deletions and user deletions together; the floor at 0 never cuts; live ones stay within the larger of cap and initial number |
| `LifecycleTheorems.LosersRestoreTheCount` | internal/controller/ephemeralrunner_watcher.go:147-205 | once no creator is between reservation and resolved Create, the count is exactly live plus user-deleted, however many racing creators failed |
| `LifecycleTheorems.OnePerSource` | internal/controller/github_poller.go:121-130 | in every reachable state what the spec of a stored Investigation shows (its job's ID, its runner's or its pod's name) gives its key, and two that show the same in a namespace are the same; in particular at most one per job ID and namespace |
| `LifecycleTheorems.SourceTextDecidesExactly` | internal/controller/pod_watcher.go:289-292 | two stored Investigations with equal trigger source text are the same if and only if their triggers are about the same kind of object and, for jobs, in one namespace |
| `LifecycleTheorems.DiagnosisByOrigin` | internal/diagnosis/patterns.go:17-125 | in every reachable state: pod-triggered ones have no runner or job and a pod type or unknown; runner-triggered ones have a pod type, or runner-stuck-failed if the runner was Failed, or runner-stuck-running if it was Running; job-triggered ones without runner are job-stuck-queued, and the diagnosis matched the runner when it was set |
| `LifecycleTheorems.DiagnosisMissesRunnerExactlyWhenLate` | internal/controller/correlator.go:99-114 | in every reachable state a step breaks the agreement of a job's diagnosis with its runner if and only if it is a Correlator's write that found it diagnosed, without runner, and a runner listed under the job's runner name |
| `LifecycleTheorems.TriggerStaysInTimeline` | internal/controller/pod_watcher.go:293-301 | the entry for what opened an Investigation is in its timeline in every reachable state |
| `LifecycleTheorems.LogPathsAreOwned` | internal/controller/pod_watcher.go:219-262 | in every reachable state log paths occur only in Investigations of pods, below namespace/pod, and no two Investigations list the same file |
| `LifecycleTheorems.FinalizerSafety` | internal/controller/pod_watcher.go:83-116 | a pod that ever carried the finalizer, live or not, loses it or disappears only after a collection attempt on it while it was being deleted, whose paths stand at the end of its Investigation's log paths, or were none, or met the cap or a failed call |
| `LifecycleTheorems.FinalizerIsAdded` | internal/controller/pod_watcher.go:83-89 | the write before that: the live pod keeps its former finalizers, has the log-collector's after them, and is otherwise as read |
| `LifecycleTheorems.SafeOnceAdded` | internal/controller/pod_watcher.go:83-116 | over runs: from that write on, the pod loses the finalizer or disappears only after an accounted attempt |
| `LifecycleTheorems.FaultlessFinalizerKeepsLogs` | internal/controller/pod_watcher.go:95-116 | in runs without failing lookups, creations and appends the failed-call excuse never occurs |
| `LifecycleRuns.LogsOutliveThePod` | internal/controller/pod_watcher.go:64-116 | every live runner pod without anomaly can go the whole way: finalizer, deletion, logs kept with its history, release, gone |
| `LifecycleEffects.PodReadDecides` | internal/controller/pod_watcher.go:72-127 | in the fields of the pod: when the finalizer comes first, when the logs, when an anomaly, with which history |
| `LifecycleEffects.AfterFinalizer` | internal/controller/pod_watcher.go:83-127 | after adding the finalizer the watcher goes on with the pod as stored, to an anomaly exactly if a container shows one |
| `LifecycleEffects.LogsLeadToRelease` | internal/controller/pod_watcher.go:95-116 | collected paths go to the pod's Investigation; however that ends, the pod version read is released with the attempt filed under its paths and outcome |
| `LifecycleEffects.ReleaseKeepsOthers` | internal/controller/pod_watcher.go:109-116 | the release takes out the log-collector finalizer and leaves the others in order and the rest of the pod |
| `LifecycleEffects.CreatorDecides` | internal/controller/github_poller.go:121-136 | after each answer of a lookup, a reservation or a failed creation: where the creator goes and what the count is, by what it opens |
| `LifecycleEffects.CreationInFields` | internal/controller/github_poller.go:138-192 | key, trigger, snapshot, runner, job, run and timeline of a new Investigation, by what opened it, in the fields of the source |
| `LifecycleEffects.UpdatesInFields` | internal/controller/pod_watcher.go:258-261 | each update replaces the version read and nothing else: phase by marking and completing, paths and snapshot by an append, the pass's result by a Correlator |
| `LifecycleEffects.EarlierVersionsMayBeRead` | internal/controller/correlator.go:81-86 | reads may be stale: any version a key ever had may be read later |
| `LifecycleEffects.AnyCallMayFail` | internal/controller/pod_watcher.go:264-311 | in every state any call may fail, which changes no Investigation, pod or count, and a lookup may miss |
| `LifecycleRuns.CompletesDiagnosed` | internal/controller/correlator.go:81-91 | a run that ends complete and diagnosed |
| `LifecycleRuns.SweepsAndCounts` | internal/controller/cleanup.go:60-83 | from any reachable state a sweep can delete one Investigation and lower the count by one |
| `LifecycleSteps.StepKeepsInv` | internal/controller/pod_watcher.go:219-311 | every step of every actor keeps the whole invariant: version chains, contents, thread knowledge, count, finalizers |
| `LifecycleSteps.StepKeepsRecords` | internal/controller/correlator.go:81-91 | every step keeps the version record, the contents by source, honest diagnoses and proper completion |
| `LifecycleSteps.ThreadStepKeepsCount` | internal/controller/cleanup.go:77-82 | every step of a thread keeps the count equation and the bound |
| `LifecycleSteps.StepKeepsPods` | internal/controller/pod_watcher.go:83-89 | every step leaves a pod awaiting its logs with its finalizer, or with an accounted attempt |
| `LifecycleInvariants.PutKeepsRecords` | internal/controller/pod_watcher.go:258-261 | a version-checked update by a legal change keeps all version chains, whichever version its caller believed current |
| `LifecycleInvariants.PassEvolves` | internal/controller/correlator.go:47-79 | what a Correlator pass writes is a legal change of what it read |
| `Naming.KeysIdentifySources` | internal/controller/github_poller.go:122 | names pod-P, er-R and gh-ID never collide, within a kind or across kinds |
| `Naming.ParseRendersDecimal` | internal/controller/github_poller.go:122 | decimal rendering of job IDs can be read back, so it is injective |
| `Naming.SourceTextDoesNotIdentify` | internal/controller/github_poller.go:75-79 | the same job polled for two namespaces has one source text and two Investigations; so have a pod and a runner of one name |
| `Naming.SourceTextDecidesWithinKind` | internal/controller/github_poller.go:161-164 | equal source texts mean equal sources if and only if the kinds and, for jobs, the namespaces are equal |
| `Naming.ComponentsOfJoin` | internal/logcollector/storage.go:66-68 | spelling a clean path and cleaning it again gives its components back |
| `Naming.LogPathComponents` | internal/logcollector/collector.go:39 | a log path has the components namespace, pod, container, stamp.log |
| `Classifier.FirstMatchWins` | internal/diagnosis/classifier.go:11-22 | for any table, the result is the diagnosis of the first matching entry, and there is one exactly if some entry matches |
| `Classifier.DiagnosisMatchesEvidence` | internal/diagnosis/patterns.go:17-125 | the diagnosed type is the highest-ranking evidence of the spec, read without the table, or unknown |
| `Classifier.DiagnosisInFields` | internal/diagnosis/patterns.go:17-125 | for each type, in the fields of containers, pod, runner, job and trigger, when exactly it is diagnosed |
| `Classifier.DiagnosisSays` | internal/diagnosis/classifier.go:11-38 | the summary is the description followed by pod, runner and job where known, the remediation is that of the type |
| `Classifier.ClassifyIgnoresContainerOrder` | internal/diagnosis/classifier.go:24-38 | permuting container statuses changes neither type nor summary nor remediation |
| `Agreement.DetectsExactlyTheEvidence` | internal/controller/pod_watcher.go:151-168 | the detector reports something exactly if the snapshot shows an OOM kill, a crash or a failed image pull |
| `Agreement.PassFollowsDetector` | internal/diagnosis/patterns.go:17-83 | a pass diagnoses an undiagnosed snapshot by the detector's verdict on the pod, exactly, whether it reports an anomaly or none |
| `Agreement.TriggerPredictsDiagnosis` | internal/controller/pod_watcher.go:264-311 | trigger pod-oomkill gives pod-oomkilled; pod-crash gives pod-crashed or pod-oomkilled; pod-init-timeout in Pending or Failed gives pod-init-timeout or one of those |
| `Agreement.AppendedSnapshotDecides` | internal/controller/pod_watcher.go:258-261 | if the log appender replaces the snapshot first, the diagnosis follows the later pod: pod-oomkilled if and only if that has a container killed for memory, unknown or pod-stuck-terminating if it has no anomaly, otherwise by its first anomaly |
| `LifecycleRuns.AppendForgetsTheKill` | internal/controller/pod_watcher.go:258-261 | a run that ends with trigger pod-oomkill and diagnosis unknown |
| `Correlation.SecondPassAddsNothing` | internal/controller/correlator.go:47-79 | for fixed listings a pass repeated on its own result changes nothing but the order of equal timestamps |
| `Correlation.AppendBetweenPassesRepeatsEvents` | internal/controller/correlator.go:59-62 | after a snapshot replacement the second pass adds exactly one copy of the pod's events, none if and only if there are none |
| `LifecycleRuns.AppendRepeatsTheEvent` | internal/controller/correlator.go:59-62 | a run that ends with one event twice in the timeline |
| `Correlation.PassKeepsPodTriggered` | internal/controller/correlator.go:97-140 | a pass gives a pod-triggered Investigation no runner or job and a pod type or unknown |
| `Correlation.PassKeepsRunnerTriggered` | internal/diagnosis/patterns.go:84-113 | a pass diagnoses a runner-triggered Investigation by the phase its runner was reported in, unless a pod type ranks higher, and keeps its runner |
| `Correlation.PassKeepsJobTriggered` | internal/controller/correlator.go:99-114 | a pass leaves no runner if and only if none was known and none is listed under the job's runner name; the pass that sets the diagnosis says job-stuck-queued in exactly that case; a later pass keeps diagnosis and runner in agreement if and only if it lists no such runner |
| `LifecycleRuns.LateRunnerBesideJobStuck` | internal/controller/correlator.go:81-91 | a run that ends with a runner beside the diagnosis job-stuck-queued |
| `PassResults.PassFindsRunner` | internal/controller/correlator.go:97-116 | a known runner stays; else the first object in the namespace with the job's runner name, field by field; none only if none is listed |
| `PassResults.PassFindsPod` | internal/controller/correlator.go:118-135 | a known snapshot stays but for events; else the first pod with the runner's name or an owner of that name, field by field |
| `PassResults.PassFindsJob` | internal/controller/correlator.go:137-203 | with a GitHub client and no job, a pass takes job and run, field by field, from the first listed job that ran on the runner; else both stay |
| `PassResults.PassCollectsEvents` | internal/controller/correlator.go:205-237 | a snapshot without events gets every listed one, field by field, and the timeline one entry each by the last time seen; else neither changes |
| `PassResults.PassDiagnosesWhatItWrites` | internal/controller/correlator.go:68-79 | a diagnosis stays; without one the pass diagnoses the spec it writes; trigger and log paths stay |
| `Correlation.SomeHitIsFirst` | internal/controller/correlator.go:151-201 | if any listed job ran on the runner there is a first one by config, repository, run, job |
| `Correlators.Correlator.EnrichFromGitHub` | internal/controller/correlator.go:137-203 | sets job and run together from the first matching position in listing order; changes nothing if no listed job matches |
| `Correlators.Correlator.EnrichFromK8s` | internal/controller/correlator.go:97-135 | finds the first runner with the job's runner name, then the first pod named after or owned by the runner |
| `Correlators.Correlator.CollectPodEvents` | internal/controller/correlator.go:205-237 | appends every listed event to snapshot and timeline, in order |
| `Correlators.Correlator.Correlate` | internal/controller/correlator.go:33-79 | the in-place pass produces one of the results the protocol's Correlator may write, and only for a collecting Investigation |
| `Correlators.BuildTimeline` | internal/controller/correlator.go:239-253 | sorted by timestamp, with the multiset union of any number of lists and nothing else, under an unstable sort |
| `Correlators.FlattenSplits` | internal/controller/correlator.go:245-247 | the merge of two groups of lists is the merge of the one and then of the other |
| `Correlators.HasOwnerRef` | internal/controller/correlator.go:269-276 | true exactly if some owner reference has the name |
| `Correlators.BuildPodInfoFromPod` | internal/controller/correlator.go:278-312 | the snapshot of a pod, without history |
| `Counting.InvestigationCounter.TryIncrement` | internal/controller/investigation_counter.go:34-42 | reserves exactly if the count is below the maximum, else changes nothing |
| `Counting.InvestigationCounter.Decrement` | internal/controller/investigation_counter.go:45-52 | lowers the count by n, floored at 0 |
| `Trackers.HistoryIsCompression` | internal/controller/pod_watcher.go:129-149 | the recorded history is the stutter-free compression of the non-empty phases seen since the tracker was created |
| `Trackers.HistoryIsChained` | internal/controller/pod_watcher.go:141-148 | the history starts from "", is unbroken, does not stutter, has non-decreasing times and ends in the last phase |
| `Trackers.RunnerHistory` | internal/controller/ephemeralrunner_watcher.go:120-145 | runner histories are the same compressions, and a start of Running is held exactly while the last phase is Running |
| `Trackers.StuckExactlyWhenRunningThroughout` | internal/controller/ephemeralrunner_watcher.go:99-118 | a Running runner is reported if and only if it was seen Running and nothing else, without reset, since a reading at least the threshold ago |
| `Trackers.RequeueHitsTheThreshold` | internal/controller/ephemeralrunner_watcher.go:108-111 | an early reconcile requeues to exactly the start of Running plus the threshold; the next Running reading reports if and only if it is not earlier |
| `Trackers.ReportsExactlyTheStuck` | internal/controller/ephemeralrunner_watcher.go:54-118 | the same over the mixed observations of all runners |
| `Trackers.PodKeysAreIndependent` | internal/controller/pod_watcher.go:129-140 | the tracker of a pod depends on that pod's observations only |
| `Trackers.RunnerKeysAreIndependent` | internal/controller/ephemeralrunner_watcher.go:120-128 | the tracker of a runner depends on that runner's observations only |
| `Watchers.PodWatcher.DetectAnomaly` | internal/controller/pod_watcher.go:151-168 | nothing exactly if no container state is anomalous, else the kind of the first that is |
| `Watchers.PodWatcher.BuildPodInfo` | internal/controller/pod_watcher.go:170-217 | the pod field by field, with the compression of all its phases seen since it was last gone |
| `Watchers.PodWatcher.RecordTransition` | internal/controller/pod_watcher.go:129-149 | a new non-empty phase adds one transition from the last phase at the clock reading, anything else none; other pods' histories unchanged |
| `Watchers.PodWatcher.Reconcile` | internal/controller/pod_watcher.go:64-127 | sends a live runner pod without finalizer back with it added and goes on with what was stored, forgets a missing pod, ignores other pods, and continues as the protocol's pod thread does, with the compression of all phases of the pod seen since it was last gone |
| `Watchers.EphemeralRunnerWatcher.RecordTransition` | internal/controller/ephemeralrunner_watcher.go:120-145 | the same for runners, and the running clock starts on entering Running and stops on leaving it |
| `Watchers.EphemeralRunnerWatcher.HandleRunning` | internal/controller/ephemeralrunner_watcher.go:99-118 | requeues or opens by the running decision |
| `Watchers.EphemeralRunnerWatcher.Reconcile` | internal/controller/ephemeralrunner_watcher.go:54-97 | every outcome by phase, age and running time; over everything it has read of all runners, a Running runner is reported if and only if it was seen Running and nothing else since a reading at least the threshold ago, and else asked for again at the threshold after the reading that began the stretch; what it opens names the runner, its phase and its history |
| `Watchers.GitHubPoller.PollRepo` | internal/controller/github_poller.go:83-119 | opens exactly the jobs, in successful listings of runs in progress or queued, that have been queued for more than ten minutes since their start time |
| `DiskStore.DiskStorage.Write` | internal/logcollector/storage.go:30-46 | replaces the file if nothing stands in the way, leaves a partial file if the stream breaks, reports success exactly for a complete write |
| `DiskStore.DiskStorage.Read` | internal/logcollector/storage.go:48-51 | what the last write to the cleaned path left, over the store's whole history of calls, unless a deletion undid it |
| `DiskStore.DiskStorage.Delete` | internal/logcollector/storage.go:53-56 | removes exactly the path and what lies below it; fails where a file stands in the place of a directory of the path |
| `DiskStore.DiskStorage.ListPrefix` | internal/logcollector/storage.go:58-73 | the strictly ascending list of exactly the files below the prefix by whole components |
| `DiskStore.DiskStorage.UsageBytes` | internal/logcollector/storage.go:75-87 | the sum of all file sizes |
| `DiskStore.DiskStorage.OldestFiles` | internal/logcollector/storage.go:91-121 | each file whose last component ends in .log exactly once, nothing else, ordered by whole seconds of modification time |
| `DiskStore.UsageWithout` | internal/logcollector/storage.go:75-87 | the sum of sizes does not depend on the order of the walk |
| `DiskStore.ReadsTheLastWrite` | internal/logcollector/storage.go:30-56 | after any sequence of writes and deletes a path holds exactly its last write that no deletion of it or above it undid |
| `LogCollection.CollectLogs` | internal/logcollector/collector.go:31-66 | returns exactly the paths of the completely written logs in container order, each with its stream's content, and an error only if nothing was collected |
| `LogCollection.CollectionStaysInside` | internal/logcollector/collector.go:38-58 | a collection returns only paths of the pod and leaves the files of others alone |
| `LogCollection.CollectsWhatArrives` | internal/logcollector/collector.go:35-66 | a container's path is returned exactly if its stream opens and ends properly, the disk does not fail and nothing stands in its way; its file then holds the stream |
| `LogCollection.CollectableInOrder` | internal/logcollector/collector.go:35-66 | the returned paths keep the order of the containers |
| `LogCollection.CollectionsDoNotBlock` | internal/logcollector/storage.go:30-46 | in a store filled by collections only, nothing ever stands in a log's way |
| `LogCollection.CollectedLogsAreListed` | internal/logcollector/storage.go:91-121 | every oldest-first listing shows every log a collection wrote |
| `LogCollection.AllContainerNames` | internal/logcollector/collector.go:68-77 | init containers, then containers |
| `Cleanups.PruneToLimit` | internal/controller/cleanup.go:120-151 | works off some oldest-first listing up to the first point at which the usage fits, or to its end, whatever deletions fail; only files ending in .log go, earlier seconds first, without failures until the usage fits or none is left, and no more than needed |
| `Cleanups.EnforceStorageLimit` | internal/controller/cleanup.go:102-152 | does nothing without a positive limit, else prunes to that many MiB |
| `Cleanups.OldestGoFirst` | internal/controller/cleanup.go:141-151 | if all deletions succeed, no file of a newer second goes while an older log stays, only logs go, and the usage fits unless no log is left |
| `PruneOrder.NewerGoesExactlyWhen` | internal/logcollector/storage.go:104-114 | for every limit: pruning may remove the newer of two logs and keep the older if and only if both are of one second and the limit is reached within that second |
| `PruneOrder.SomeLimitReordersExactlyWhen` | internal/logcollector/storage.go:104-114 | some limit allows that if and only if a log of that second other than the older one has content |
| `PruneOrder.WithinASecondTheNewerMayGo` | internal/controller/cleanup.go:120-151 | two logs of 1 MiB written within one second under a limit of 1 MB: the newer may be pruned |
| `Cleanups.Cleanup.PruneExpired` | internal/controller/cleanup.go:60-83 | for any listing, stale or not, and any failures: which files, Investigations and count are left |
| `Cleanups.PassInFields` | internal/controller/cleanup.go:60-83 | a file goes exactly if a successfully removed path of a listed Investigation older than the period covers it, an Investigation exactly if it is listed as older and its deletion succeeds, and the count falls by the number gone |
| `Cleanups.RunCleanup` | internal/controller/cleanup.go:50-89 | a run is nothing, or a retention pass for the first configuration's period, else seven days, followed by pruning to the first configuration's size, if positive |
| `Cleanups.RetentionPass` | internal/controller/cleanup.go:60-83 | with owned logs and no failures: exactly the Investigations within the period stay, their logs stay, the others' logs go, the count falls by the number pruned |
| `Retention.RetentionInEveryReachableState` | internal/controller/cleanup.go:50-83 | the same for a fresh listing in every reachable state of the protocol |

## Left out

- The Kubernetes client, informers, HTTP, JSON, OAuth, log streaming, flags, manifests, leader election and generated code: their results are parameters.
- RateLimitTracker: a two-field record; the poller's early return on it is not modelled.
- Liveness: a creator's failed status write leaves an Investigation in phase "" for good; that state is reachable and no progress is claimed.
- The stored precision of timestamps (whole seconds once written) and the no-op detection of the API server.
- The wording of descriptions, remediations and timeline messages; `Classifier.DiagnosisSays` fixes how a summary is put together.
- Int64 overflow of `maxSizeMB * 1024 * 1024` and saturation of time differences.
- Path components ".." and anything reached through them; symbolic links; directory reads.
- ContainerStates, ConditionTransitions and StateHistory, which the source never fills.
- A recreated key between cleanup's List and Delete: `Retention.RetentionInEveryReachableState` is about a fresh listing, `Cleanups.Cleanup.PruneExpired` covers stale ones.
- LifecycleTheorems.FinalizerSafety: says nothing about where the paths went when a call on the way failed, as the source then drops them.
- Correlators.BuildTimeline: the timeline is a sequence handed to the sort, not an array sorted in place; aliasing of the slices is not captured.
