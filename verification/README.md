# chimp-chaos operator: a Dafny model

This project models the Kubernetes operator of chimp-chaos and proves what its three reconcilers guarantee:

1. **The experiment reconciler** (`src/operator/reconciler.rs`) as a state machine over a cluster. One reconcile call
   is a *pass* of several API calls. Any call may fail, or take effect and lose its reply; a pass may die at any
   point; the passes of different experiments interleave call by call with each other and with the rest of the world.
   `Process.dfy` says what a pass asks next and where each reply takes it, `Machine.dfy` interleaves passes, and
   `Reconciler.dfy` holds the handlers as imperative code (loops, early returns, swallowed errors), each proved twice
   over: to drive its pass along that process, so that the theorems about runs are about the handlers, and to make
   exactly the calls that `HandlerCalls.dfy` describes by requests and replies alone.
2. **The impact map** (`impact_map_reconciler.rs`, `graph_builder.rs`): metric rows to a service graph, breadth-first
   reachability, Direct/Indirect labels, six metric maps to a scored, filtered and stably sorted list, and the passes
   that store the result.
3. **The analysis, scoring and time arithmetic** (`analysis_reconciler.rs`, `crd.rs`).

`dafny verify dfyconfig.toml` checks the whole project.

| file | content |
|---|---|
| `Types.dfy`, `Status.dfy`, `Names.dfy`, `Routing.dfy` | values; merge patches and status documents; object names; VirtualServices and first-match routing |
| `ApiServer.dfy`, `Process.dfy`, `Machine.dfy` | cluster, requests and environment; one pass; all passes together |
| `Invariant.dfy`, `Phases.dfy`, `Verdicts.dfy`, `Rejections.dfy`, `Cleanup.dfy`, `CleanupLimits.dfy`, `Injection.dfy`, `Isolation.dfy`, `Jobs.dfy`, `ListedJobs.dfy`, `Liveness.dfy`, `Stale.dfy` | the inductive invariant and the theorems about whole runs |
| `HandlerCalls.dfy`, `Reconciler.dfy` | what each handler calls; the handlers as code |
| `ServiceGraph.dfy`, `Scoring.dfy`, `AffectedServices.dfy`, `Durations.dfy` | the computations of the two consumers |
| `Readiness.dfy`, `ImpactMap.dfy`, `Analysis.dfy` | the consumers' passes and stored statuses |

## Assumptions

- At most one pass per experiment is in flight and it starts from the stored object. `StaleReads` drops both for the
  property about VirtualService names. The consumers' passes also start from the stored object.
- An experiment starts with an empty status, its spec is not edited, and nobody but the operator strips its finalizer
  or writes its status. Its UID is present, has at least 8 ASCII characters, and its first 8 differ from those of every
  other UID ever used.
- Nobody else creates VirtualServices with the managed-by label or under the operator's reserved names, and nobody
  replaces a job the operator created. Anybody may delete any job or VirtualService at any time.
- The API server applies each call atomically and deletes at once; a pass that starts from the stored object reads its
  latest version. The node list and the answer of the edge resolver are arbitrary; the resolver is always present, as
  `controller.rs` passes it.
- The clock counts nanoseconds and does not go back. Integer casts and products wrap as in a release build. `f64` is
  modelled by real numbers.
- `creator` (which experiment's pass created an object), `registry` (every UID ever handed out) and `clean` (no call of
  this pass failed other than with 404) only record history; no handler reads them.

## Where the code and its documentation disagree

The model follows the code.

- The conflict check rejects an unmanaged VirtualService of any host in the target namespace
  (`src/operator/kube_client.rs:97-114` ignores the host); `docs/arch.md:404` speaks of the destination host.
- `docs/arch.md:276-281` promises cleanup by finalizer; deletion removes the finalizer even when cleanup calls failed
  (`src/operator/reconciler.rs:220-229`). `CleanupSafety.CleanDeletionMeansNoneLeft` proves the promise for a deletion
  pass without such failures, `CleanupLimits.FailedListingLeavesService` gives a run in which it breaks, and
  `CleanupLimits.FailedCleanupIff` says after which failures it does.
- `docs/arch.md:222` has terminal experiments requeued every 300 s; the code returns `Done` and waits for a change.
- The comment at `src/operator/job_builder.rs:73` leaves 22 characters for the node name; the code leaves 41.
- `docs/arch.md:613` leaves an analysis Pending while its experiment is missing; the code makes it Failed.
- The reconciler ignores `target.namespace` (`src/operator/reconciler.rs:96-104`); classification uses it
  (`src/operator/impact_map_reconciler.rs:268-270`).

Properties that hold only under a condition, each with that condition proved exact or with runs on both sides:

| property | holds | fails |
|---|---|---|
| a cleanup mark means no labelled service is left | `CleanupSafety.MarkMeansNoneLeft`, without a rival | `CleanupLimits.SharedNameRefutesMark`, for every rival; one step: `CleanupLimits.CreateKeepsCleanIff` |
| a deleted experiment leaves no service | `CleanupSafety.CleanDeletionMeansNoneLeft` | `CleanupLimits.FailedListingLeavesService`; exact at the failing call: `CleanupLimits.FailedCleanupIff` |
| different ids never share a job name | `Names.CollideIff` | `Names.CollideIff` |
| one distinct runner job name per node | `Names.RunnerJobsDistinct` | `Names.RunnerJobsDistinct` |
| the resolved target does not depend on row order | `ServiceGraph.TargetStableIffAgree` | `ServiceGraph.TargetStableIffAgree` |
| durations parse back | `Durations.DurationRoundTrip` | `Durations.DurationRoundTrip` |
| the baseline query time lies in its window | `Durations.BaselineTimeInWindow` | `Durations.BaselineTimeInWindow` |
| the duration test is exact | `Process.ElapsedExactly` | `Process.ElapsedExactly` |
| less traffic never scores lower | `Scoring.DownOrderedIff`, `AffectedServices.MeanOrderedIff` | the same, at a zero baseline |
| an impact map is stored as built | `ImpactMap.StoredIsBuilt`, `ImpactMap.LeftoverNote` | `ImpactMap.LeftoverNote` |

## Model

| member | source | states |
|---|---|---|
| MergePatch.ApplyTwice | src/operator/kube_client.rs:122-137 | A JSON merge patch (section 2 of RFC 7396) is idempotent on every document, so a patch whose reply was lost may be sent again. |
| MergePatch.GetApply | src/operator/kube_client.rs:129-134 | What a merge patch does to each key: null removes, an absent key keeps, a leaf replaces, anything else merges. |
| ExperimentStatus.MergeIsOverlay | src/operator/crd.rs:36-52 | Serialising a status, merge-patching it into any stored document and reading it back is exactly the field-wise overlay in which omitted fields survive. |
| ExperimentStatus.WrittenIsRead | src/operator/crd.rs:36-52 | A status written where none was stored reads back as written. |
| Names.JobNameShape | src/operator/job_builder.rs:71-77 | Job names fit in 63 bytes and start with the experiment's own prefix. |
| Names.JobNamesAgree | src/operator/job_builder.rs:71-77 | Two job names are equal iff the 8-character id prefixes and the 41-character node prefixes are. |
| Names.CollideIff | src/operator/job_builder.rs:71-77 | For ids of any length: some pair of nodes gives two ids the same job name iff their prefixes agree, or one prefix with its dash begins the other, which 8-character prefixes rule out. |
| Names.RunnerJobsDistinct | src/operator/reconciler.rs:292-311 | `runner_jobs` has one distinct name per node iff the nodes differ in their first 41 characters. |
| Names.ServiceNamesAgree | src/operator/istio_injector.rs:14-17 | Two VirtualService names are equal iff the id prefixes are. |
| Routing.BuiltFaultsExactly | src/operator/istio_injector.rs:71-113 | Under first-match routing the built VirtualService sends every request to the destination and injects the fault iff the source carries all selector labels. |
| Routing.UnlabelledIsSafe | src/operator/reconciler.rs:348-358 | Because an empty selector is rejected, a source without labels is never faulted. |
| Routing.ManagedIffCarries | src/operator/reconciler.rs:553-560 | The cleanup's and the conflict check's tests are label selectors: a service passes them iff it carries the labels the builder puts on. |
| Routing.FaultAskedFor | src/operator/istio_injector.rs:50-69 | There is no fault iff the latency (delay) or the percentage (abort) is missing; otherwise it is a delay of that latency, or an abort with that percentage, exact iff below 2^32, and that status, exact iff below 2^16, 503 by default. |
| Process.ElapsedExactly | src/operator/reconciler.rs:114-120 | The duration test is exact below 2^63 seconds and always true from there on, where the cast turns negative. |
| Process.Selected | src/operator/reconciler.rs:553-560 | A cleanup deletes exactly the listed services that are managed and labelled with the experiment's name. |
| Invariant.AllowedOverlays | src/operator/reconciler.rs:480-504 | Every status write a pass may make carries every field the stored status has, so overlaying equals replacing. |
| Invariant.NextLawful | src/operator/reconciler.rs:169-208 | Whatever a pass knows at a program point, its next call writes only its own experiment, job names of its own prefix, and services of its own name and label. |
| Invariant.StepKeepsInv | src/operator/reconciler.rs:169-208 | Every step (environment, start, call with any failure, death of a pass) keeps the invariant on statuses, services, jobs, UIDs and passes in flight. |
| Invariant.RunKeepsInv | src/operator/reconciler.rs:169-208 | The invariant holds in every reachable state, with merging as with replacing patches. |
| Phases.StatusMovesForward | src/operator/reconciler.rs:188-207 | Over any run the phase goes Pending, Running, terminal (or Pending to Failed); start time, id and job list are frozen from Running on; a terminal status can only gain the cleanup mark. |
| Phases.StartedIffWasRunning | src/operator/reconciler.rs:313-324 | A start time is stored iff the run has passed through Running. |
| Phases.WindowIffWasRunning | src/operator/reconciler.rs:449-508 | A terminal status has both times, in order, iff the run passed through Running. |
| Phases.EdgeChaosLasts | src/operator/reconciler.rs:449-468 | The stored start and completion of an edge experiment below 2^63 seconds that succeeded are at least its duration apart. |
| Phases.StatusWrittenBy | src/operator/reconciler.rs:573-585 | A stored status changes only by a patch of the own pass, from exactly the status that pass read to exactly the one it sent. |
| Phases.MergeRunsAreReplaceRuns | src/operator/kube_client.rs:122-137 | A cluster that merges status patches and one that replaces the whole status have exactly the same runs, state by state. |
| Verdicts.ListingDecides | src/operator/reconciler.rs:470-496 | A served listing makes the pass stamp Failed iff a labelled job in the cluster has failed, and Succeeded iff there is a labelled job, all have succeeded and none failed; otherwise the duration decides. |
| Verdicts.PassesAreGrounded | src/operator/reconciler.rs:470-508 | A pass about to end a pod experiment has made, itself, the listing that warrants it; one that checks the duration has seen no failed job. |
| Verdicts.VerdictIsWarranted | src/operator/reconciler.rs:470-508 | In every run a pod experiment that ran and ended was ended by a pass whose own listing warrants it: Failed only with a labelled job failed then; Succeeded, also by duration, only with none failed, and either all of at least one succeeded or the duration (below 2^63 seconds) gone by. |
| Rejections.RejectionIsTrue | src/operator/reconciler.rs:234-417 | In every run the error of a stored rejection is true: of the spec's own fields (no duration; edge chaos without a named edge; no fault parameter), or of what the call that found it out met (no nodes; no selector labels or a failed read; an unmanaged service in the namespace; an unresolved edge). |
| Rejections.PassesAreFounded | src/operator/reconciler.rs:573-585 | A pass about to reject has that cause; a Running pass never rejects. |
| Rejections.NoFaultIff | src/operator/reconciler.rs:394-399 | With the edge resolved, a pass rejects for want of a fault iff the parameter for it is missing. |
| HandlerCalls.FirstRequest | src/operator/reconciler.rs:122-137 | From the snapshot's own fields: a Pending pass first lists the nodes iff the duration is positive and the scenario is not edge chaos, first reads the edge's source selector iff it is edge chaos with a positive duration and both edge names, and otherwise only patches Failed with the right error. |
| CleanupSafety.MarkMeansNoneLeft | src/operator/reconciler.rs:512-569 | In every run, if an edge experiment's stored status carries the cleanup mark, no managed service labelled with its name is in its target namespace, also not one from a Pending pass that died between create and patch, unless before that another live edge experiment of the same name acted in that namespace. |
| CleanupSafety.CleanDeletionMeansNoneLeft | src/operator/reconciler.rs:212-230 | A deletion pass whose calls failed at most with 404 leaves no labelled service, and none comes back, also after the pass is gone, until a live edge experiment of that name acts there again. |
| CleanupSafety.NoneComesBack | src/operator/reconciler.rs:401-412 | Where no live edge experiment of a name acts in a namespace, no service with that label appears in it. |
| CleanupLimits.SharedNameRefutesMark | src/operator/reconciler.rs:545-569 | For every two keys of one name, all UIDs with different prefixes and every target namespace, there is a run from the empty cluster after which an edge experiment under the first key carries the mark, one under the second is live in that namespace, and a service with their label is there. |
| CleanupLimits.CreateKeepsCleanIff | src/operator/istio_injector.rs:72-75 | A create in the namespace leaves it free of services labelled with a name iff it was and the creator has another name: the label carries no namespace. |
| CleanupLimits.FailedListingLeavesService | src/operator/reconciler.rs:220-229 | For every key, UID and target namespace there is a run from the empty cluster in which the deletion pass of an edge experiment fails to list, removes the finalizer, returns Done, and its service stays. |
| CleanupLimits.FailedCleanupIff | src/operator/reconciler.rs:224-229 | After the failing list or delete of a deletion pass and the call that removes the finalizer, no labelled service is left iff there was none but the one that call deleted after all. |
| CleanupSafety.RunMarksHonest | src/operator/reconciler.rs:536-540 | Every cleanup mark in the cluster a run ends in tells the truth, but for experiments that had a rival in it. |
| FaultInjection.PassesAreAimed | src/operator/reconciler.rs:338-399 | At each call of a Pending edge pass, its edge is the spec's, its fault is the delay or abort the parameters ask for, its source labels were the source service's selector at some point, and past the conflict check its namespace was once free of unmanaged services. |
| FaultInjection.InstalledFaultIsTheOneAskedFor | src/operator/reconciler.rs:328-430 | In every run, any service created for a live experiment sits under its one name, routes everything to `destination.namespace.svc.cluster.local` and injects, for exactly the sources carrying the labels its source service once selected, the delay of `latencyMs`, or the abort of `abortPercent` and `abortHttpStatus` (503 by default), in a namespace once free of unmanaged services. |
| Isolation.CallsTouchOnlyOwn | src/operator/reconciler.rs:524-569 | No call of any pass in any run deletes or changes an unmanaged service, one labelled with another name, a job another experiment's pass created, or another experiment. |
| Isolation.ManagedServicesRouteExactly | src/operator/istio_injector.rs:71-117 | Every managed service in a reachable cluster is owned by the experiment whose pass created it, has exact routing and leaves unlabelled sources alone. |
| RunnerJobs.RemovalIsFinal | src/operator/kube_client.rs:155-169 | Removing the finalizer of an experiment under deletion removes it for good, even if the reply is lost. |
| RunnerJobs.CollectionLeavesNoJob | src/operator/job_builder.rs:87-99 | Once the experiment is gone, one owner-based collection of its namespace removes every job any of its passes created. |
| RunnerJobs.CollectedForGood | src/operator/reconciler.rs:212-230 | After that no such job remains or comes back for the rest of the run, whatever calls failed before. |
| RunnerJobs.CreatedJobIsFound | src/operator/job_builder.rs:79-85 | In every run each job a pass created, while it is there, is in every listing its own experiment is served. |
| RunnerJobs.EveryJobIsListed | src/operator/reconciler.rs:275-325 | If the target nodes only grow while it is Pending, from Running on `runner_jobs` lists every job any pass of the experiment ever created, despite partial failures and retries. |
| ListedJobs.ListedWasThere | src/operator/reconciler.rs:294-325 | Conversely, every name in a stored `runner_jobs` named a job that was in the experiment's namespace at some point of the run. |
| Liveness.DoneWithinBound | src/operator/reconciler.rs:106-120 | Driven by its own requeues, an undisturbed experiment of duration D has returned Done after ceil(D/5)+4 passes, not counting those that died, or had a call fail other than with 404 and so aborted or left the mark unset; for every 64-bit D. |
| Liveness.AbortingIsUnclean | src/operator/reconciler.rs:169-208 | A pass of a live experiment returns an error only after a call that failed other than with 404. |
| Liveness.GivingUpIsUnclean | src/operator/reconciler.rs:528-534 | A cleanup gives up only after such a call. |
| Liveness.DoneMeansQuiet | src/operator/reconciler.rs:520-522 | Once a pass has returned Done, no later pass of the experiment makes any call. |
| Liveness.QuietMakesNoCall | src/operator/reconciler.rs:178-207 | A pass returns Done without a call iff the snapshot has the finalizer, a terminal phase, the cleanup mark and no deletion. |
| StaleReads.AtMostOneService | src/operator/reconciler.rs:247-256 | However many passes with stale snapshots race, the services created for an edge experiment all have the same key, so at most one exists. |
| StaleReads.RunningIsBacked | src/operator/reconciler.rs:401-429 | A Pending pass, even a stale one, that moves the experiment to Running has earlier created its service or was told it exists, and it was there. |
| Reconciler.KubeClient.Call | src/operator/kube_client.rs:42-170 | One call, after arbitrary moves of others and with any delivery, continues the run so far; it is the only call the pass makes in that continuation, and the pass then stands where its reply takes it. |
| Reconciler.CleanupVirtualServices | src/operator/reconciler.rs:545-569 | Continuing the run, it makes one listing and then one delete per selected service in listing order; it succeeds iff each was acknowledged or 404, and otherwise stops at the first that was not. |
| Reconciler.HandleDeletion | src/operator/reconciler.rs:212-230 | One delete per listed job in order whatever the replies, for edge chaos a cleanup whatever its outcome, then the finalizer call, whose acknowledgement alone decides success. |
| Reconciler.CreateJobs | src/operator/reconciler.rs:292-311 | One create per node in order, 409 counting as created, up to the first other error; on success the collected names are those of all nodes. |
| Reconciler.HandlePendingPod | src/operator/reconciler.rs:265-326 | One node listing; no node is a rejection; after all creates, and only then, the clock is read and one patch stores Running with that start and the names of all nodes. |
| Reconciler.HandlePendingEdge | src/operator/reconciler.rs:328-371 | One selector read and one listing; a missing or empty selector and any unmanaged service each lead to exactly one rejecting patch, a failed listing to nothing more, all else to the injection with the labels read. |
| Reconciler.InjectFault | src/operator/reconciler.rs:373-429 | The edge is resolved; a missing parameter is a rejection; else exactly one create of the service under its one name, for the full name of the destination, with the delay or abort the parameters ask for, 409 counting; then, and only then, the clock and one patch to Running. |
| Reconciler.CompleteIfElapsed | src/operator/reconciler.rs:456-465 | Without a start time no call; otherwise the clock is read and a patch to Succeeded follows iff the duration has gone by. |
| Reconciler.HandleRunningPod | src/operator/reconciler.rs:470-508 | One listing; any job with a failure leads to a patch to Failed, else a non-empty list of which all succeeded to one to Succeeded, else the elapsed duration decides; the patch carries the time read before it. |
| Reconciler.HandleTerminal | src/operator/reconciler.rs:512-541 | Nothing once marked. Otherwise one delete per listed job, for edge chaos a cleanup, and the mark is patched only behind a cleanup that succeeded; one that failed ends the pass without an error. |
| Reconciler.Reconcile | src/operator/reconciler.rs:169-208 | The dispatcher makes exactly the calls of the one handler the snapshot asks for and ends its pass with the outcome of the process: requeue delay, Done, or an error. |
| Reconciler.ReconcileOnce | src/operator/controller.rs:45-61 | Reading the object and reconciling it continues the run by exactly those calls; if the run began in an initial cluster, its cleanup marks are honest afterwards. |
| ServiceGraph.BuildServiceGraph | src/operator/graph_builder.rs:190-225 | The adjacency lists are the destinations of the rows with non-empty workloads, in row order, and each named service maps to the last row naming it. |
| ServiceGraph.TargetsAreLinked | src/operator/graph_builder.rs:201-214 | A node's adjacency list holds a destination iff some row leads there and both have a workload, whether or not the row names a service. |
| ServiceGraph.LastNamedIsLast | src/operator/graph_builder.rs:216-218 | Of the rows with both workloads that name a service in a namespace, the last one gives its workload. |
| ServiceGraph.ReachableFrom | src/operator/impact_map_reconciler.rs:299-314 | On every finite graph the search terminates, enqueues each node at most once and returns exactly the reflexive-transitive closure of the start. |
| ServiceGraph.ReachesIffLeads | src/operator/impact_map_reconciler.rs:276-286 | Reachable in the built graph iff a chain of usable rows leads there. |
| ServiceGraph.LeadsMonotone | src/operator/graph_builder.rs:190-225 | More rows lead to more nodes. |
| ServiceGraph.LeadsByRowSet | src/operator/graph_builder.rs:190-225 | Row order and duplicates do not matter for a fixed target. |
| ServiceGraph.TargetStableIffAgree | src/operator/impact_map_reconciler.rs:288-297 | The resolved target is independent of row order iff all rows naming the service agree on its workload. |
| AffectedServices.DiscoverServices | src/operator/impact_map_reconciler.rs:218-230 | Exactly the union of the six key sets, strictly sorted, without duplicates. |
| AffectedServices.ComputeAffectedServices | src/operator/impact_map_reconciler.rs:193-216 | The list holds exactly the services whose mean score reaches the threshold, strictly ordered by score descending, workload, namespace; the count is the size of the union and bounds the list. |
| AffectedServices.ListedByMean | src/operator/impact_map_reconciler.rs:197-230 | In terms of the six maps: listed are exactly the measured services whose three metric scores sum to at least three times the threshold; each record's score is the integer mean of the three, its records carry the values of their own maps (zero where absent), and the order is score descending, workload, namespace. |
| AffectedServices.StrLessIff | src/operator/impact_map_reconciler.rs:228 | Names are in dictionary order. |
| AffectedServices.AffectedListUnique | src/operator/impact_map_reconciler.rs:193-230 | Metrics and threshold determine that list, so hash iteration order cannot show. |
| AffectedServices.StableSortByScore | src/operator/impact_map_reconciler.rs:214 | A stable sort by descending score of a list in key order is ordered by score, then key, with the same records. |
| AffectedServices.MeanBounded | src/operator/impact_map_reconciler.rs:198-204 | The mean of the three scores is at most 100. |
| AffectedServices.NoBetterScoresNoLower | src/operator/impact_map_reconciler.rs:198-204 | A service that fares no better on any metric scores no lower, unless it had no traffic before and its traffic now goes from some to none. |
| AffectedServices.MeanOrderedIff | src/operator/impact_map_reconciler.rs:232-249 | For a throughput baseline, faring worse never lowers the score, over all metrics, iff that baseline is positive. |
| AffectedServices.ClassifyServices | src/operator/impact_map_reconciler.rs:253-286 | In place: for edge chaos with an edge each record is labelled Direct iff reachable from the resolved target, all else untouched; otherwise nothing changes. |
| AffectedServices.DirectIffLed | src/operator/impact_map_reconciler.rs:253-314 | Direct iff the service is the resolved target or a chain of metric rows leads to it from there. |
| AffectedServices.NamespacesAgreeIff | src/operator/impact_map_reconciler.rs:268-270 | Injection and classification look into the same namespace iff `targetNamespace` is set, or the target's own namespace, or else the default, is the experiment's. |
| Scoring.DegradationIsPercentage | src/operator/crd.rs:227-233 | The degradation times the baseline is 100 times the worsening, for every non-zero baseline; getting better counts as none. |
| Scoring.ScoreOfInputs | src/operator/crd.rs:215-243 | For a positive baseline, from the inputs alone: the score is 0 without worsening, within 1/2 of the percentage up to the whole baseline, 100 from there on; Pass iff 100 times the worsening is below the threshold plus 1/2 times the baseline, or the threshold is 100. |
| Scoring.ErrorScoreOfInputs | src/operator/impact_map_reconciler.rs:239-249 | The error score from the inputs alone: within 1/2 of 100 times the error rate where there was none before, and otherwise of the percentage it rose by. |
| Scoring.ScoreNearDegradation | src/operator/crd.rs:235 | The score is within 0..100 and within 1/2 of the clamped degradation. |
| Scoring.PassIffBelow | src/operator/crd.rs:235-240 | Pass iff the degradation is below the threshold plus 1/2, always from threshold 100 on. |
| Scoring.ScaleInvariant | src/operator/crd.rs:221-231 | Scaling baseline and value by a positive factor changes nothing. |
| Scoring.UpMonotone | src/operator/crd.rs:228 | Up never scores a higher value lower. |
| Scoring.UpAntitone | src/operator/crd.rs:221-231 | Up never scores a higher baseline higher, across the zero baseline too. |
| Scoring.DownAntitone | src/operator/crd.rs:229 | Down never scores a higher value higher, for positive baselines. |
| Scoring.DownMonotone | src/operator/crd.rs:229 | Down never scores a higher positive baseline lower. |
| Scoring.ErrorMonotone | src/operator/impact_map_reconciler.rs:239-249 | The error score is monotone, also where a zero baseline switches to counting errors. |
| Scoring.DownOrderedIff | src/operator/crd.rs:221-231 | For a non-negative baseline, Down scores no higher value higher, over all values, iff the baseline is positive. |
| Scoring.NoBaseline | src/operator/crd.rs:221-226 | Without a baseline any value but zero counts as full degradation, in both directions. |
| Durations.ValueOfPrint | src/operator/analysis_reconciler.rs:172-183 | Reading a printed number gives the number. |
| Durations.PrintOfValue | src/operator/analysis_reconciler.rs:172-183 | Printing the value of digits without a leading zero gives the digits. |
| Durations.DurationRoundTrip | src/operator/analysis_reconciler.rs:172-183 | Seconds and bare numbers always parse back; minutes and hours iff the product fits in 64 bits. |
| Durations.PlusAllowed | src/operator/analysis_reconciler.rs:172-183 | One plus sign before the digits is accepted, two are not. |
| Durations.SpacesIgnored | src/operator/analysis_reconciler.rs:173 | White space around a duration does not matter. |
| Durations.RateWindowsReadBack | src/operator/impact_map_reconciler.rs:169-189 | The emitted rate windows parse back to the baseline seconds and to max(1, completed - started). |
| Durations.BaselineTimeInWindow | src/operator/analysis_reconciler.rs:99-100 | The baseline query time lies in the baseline window iff the window is below 2^63 seconds (or 2^64 - 1). |
| Durations.BaselineTimeIsMidpoint | src/operator/analysis_reconciler.rs:99-100 | Below 2^63 seconds it is the middle of the window, to the whole second. |
| Durations.ChaosTimeInWindow | src/operator/analysis_reconciler.rs:101-102 | The chaos query time lies between start and completion, in the middle to the nanosecond. |
| Readiness.ReadyIffRanAndFinished | src/operator/impact_map_reconciler.rs:152-165 | For every experiment of every run: ready iff terminal and once Running, and then the window is in order. |
| Readiness.RateWindowInsideChaos | src/operator/impact_map_reconciler.rs:169-189 | For every edge experiment of a run that succeeded below 2^63 seconds, the chaos rate window starts within a second after the chaos and not before it, and ends with it. |
| ImpactMapStatus.MergeIsOverlay | src/operator/crd.rs:156-179 | A merge patch of an impact-map status, with its nested summary, is the overlay on every stored document. |
| ImpactMap.QueryAll | src/operator/impact_map_reconciler.rs:363-397 | Each metric's baseline comes from the baseline window and time and its chaos value from the chaos ones; it fails iff one of the six queries does. |
| ImpactMap.Compute | src/operator/impact_map_reconciler.rs:118-137 | The built status reports the unique affected list, classified iff both spec and graph could be had. |
| ImpactMap.ReconcileImpactMap | src/operator/impact_map_reconciler.rs:78-138 | One pass sends nothing once Completed or on an unreadable window, otherwise exactly one patch decided by what it found. |
| ImpactMap.CompletedIsFinal | src/operator/impact_map_reconciler.rs:89-91 | Over any number of passes Completed is absorbing and never computed twice. |
| ImpactMap.OnlyCompletedCarriesResults | src/operator/impact_map_reconciler.rs:318-348 | The stored status carries a summary or services iff it is Completed. |
| ImpactMap.StoredIsBuilt | src/operator/impact_map_reconciler.rs:136-137 | A stored result equals one a pass built in every field but `message`, which is the one stored before. |
| ImpactMap.LeftoverNote | src/operator/impact_map_reconciler.rs:318-348 | A message is stored iff some earlier Pending or Failed patch reached the server. |
| ImpactMap.ReportKeepsOrder | src/operator/impact_map_reconciler.rs:193-216 | A report is in strict order, holds only services reaching the threshold and no more than were scanned. |
| ImpactMap.ReportedByMean | src/operator/impact_map_reconciler.rs:118-137 | A completed status lists, in terms of the six maps, exactly the services, values, means and order of `AffectedServices.ListedByMean`. |
| ImpactMap.SentPhase | src/operator/impact_map_reconciler.rs:93-137 | A pass sends Pending iff the experiment is there and has not ended, and Completed iff it is ready, the window is readable and all six queries were answered. |
| ImpactMap.SummaryIsTrue | src/operator/impact_map_reconciler.rs:318-332 | The total affected is the list length, and the total scanned the number of services, iff these are below 2^32; then the first is at most the second; the headline repeats both totals and names a service with the maximum score iff there is one. |
| ImpactMap.StoredSummaryIsTrue | src/operator/impact_map_reconciler.rs:318-332 | The same, total scanned included, of whatever is stored after any number of passes, for the metrics of the pass that built it. |
| ImpactMap.ReportedDirectIffLed | src/operator/impact_map_reconciler.rs:118-137 | In a report for edge chaos a service is Direct iff the metric rows lead to it from the resolved target; for pod chaos it has no label. |
| AnalysisStatus.MergeIsOverlay | src/operator/crd.rs:100-115 | A merge patch of an analysis status is the overlay on every stored document. |
| Analysis.ReconcileAnalysis | src/operator/analysis_reconciler.rs:33-152 | One pass patches exactly what its answers decide, and nothing once Completed or where it ends in an error. |
| Analysis.CompletedIsFinal | src/operator/analysis_reconciler.rs:41-44 | Over any number of passes Completed is absorbing. |
| Analysis.OnlyCompletedCarriesResults | src/operator/analysis_reconciler.rs:154-168 | The stored status carries a verdict, score or value iff it is Completed. |
| Analysis.StoredIsBuilt | src/operator/analysis_reconciler.rs:132-151 | A stored result is in every field the one some pass built. |
| Analysis.StoredVerdict | src/operator/analysis_reconciler.rs:124-151 | For the pass that built a stored result: the stored score is the rounded, clamped stored degradation, and the verdict is Pass iff that degradation is below that pass's threshold plus 1/2. |
| Analysis.StoredMeasures | src/operator/analysis_reconciler.rs:104-141 | A stored result holds, in this order, the answers of the baseline query at the baseline time and of the chaos query at the chaos time, with the score and verdict these two give. |
| Analysis.NoPatchIff | src/operator/analysis_reconciler.rs:74-97 | Reading an experiment of a run, a pass ends without a status iff the experiment ended without ever running, or its window cannot be used. |
| Analysis.QueriesInsideWindows | src/operator/analysis_reconciler.rs:93-102 | For every finished experiment of a run both query times lie in the middle of their windows, the first iff the cast of the window kept its sign (or gave -1). |

## Left out

- Controller wiring (`controller.rs`, `main.rs`), CRD generation, log output: only the requeue delays are kept, as the scheduler's contract.
- The HTTP clients: only the effect of each call; transport, authentication, paging and response parsing are not modelled.
- The runner (`src/runner`): its jobs report success or failure arbitrarily.
- PromQL and message texts: a message is a value that says which text it is.
- RFC 3339 text: timestamps are integers; a start time that does not parse (never elapsed, never ready) cannot be stored by a pass.
- IEEE 754 rounding, infinities and NaN: `f64` is modelled by real numbers.
- chrono's date range: adding to a date near its ends would panic. `Durations.BaselineTime` models only the panic of a too long time span, and an analysis pass that panics is a pass without a patch.
- Spec edits while an experiment is Pending or Running.
- Garbage collection of VirtualServices through their owner reference: covered by letting the environment delete any of them at any time.
- Finalizer patches replace the whole list, as in the code, and the server refuses a new finalizer on an object under deletion; finalizers other parties add while a pass is in flight are not modelled.
- Parsing of `parameters`, the scenario label and the pod template of runner jobs, and Kubernetes' name and label syntax.
- A missing UID, for which the code makes up a random id: every experiment has a UID.
- Stale reads by the consumers, for which Completed would not be absorbing.
- RunnerJobs.CollectedForGood: garbage collection is one step per namespace; its timing and a failing collector are not modelled.
- RunnerJobs.EveryJobIsListed: does not say what happens when a node leaves while the experiment is Pending; such a job is then not listed and is left to garbage collection.
- Liveness.DoneWithinBound: assumes nobody deletes the experiment; a deleted one is the subject of `CleanupSafety.CleanDeletionMeansNoneLeft` and `RunnerJobs.CollectedForGood`.
- CleanupSafety.MarkMeansNoneLeft: says nothing about an experiment that shared its name and target namespace with another live edge experiment earlier in the run; `CleanupLimits.SharedNameRefutesMark` has the failing run for each such pair.
- Phases.EdgeChaosLasts: bounds the stored times; the fault itself may be gone earlier, because anybody may delete its VirtualService.
