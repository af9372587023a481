# Verification of the comparison tooling

A Dafny model of the parts of this repository whose correctness is a statement about all inputs or
all runs, with proofs. `dafny verify dfyconfig.toml` checks the whole project.

**Workflow updater** (`WorkflowVocabulary` to `WorkflowUpdater`, `Rewired*`, `Written*`, `TidyJobs`,
`UntouchedSteps`). The updater rewrites GitHub workflow files through about twenty transforms in a
fixed order per file. A step is a record, a job a step list with fields, a document a mapping of
jobs. Each transform is specified by a function on step lists (`WorkflowStages`), run by a method
that searches, inserts and edits as the tool does (`WorkflowTransforms`, `WorkflowDocumentState`),
and composed into the command (`WorkflowUpdater`). The tool's promise is that `--check` is quiet
after `--write`. It holds for every document of every managed file but two. For
`ci-orchestrated.yml` and `validate.yml` it holds exactly when every job settles. `RewiredIff` says
what that means on the step list inside the run; `WrittenIff` reads the same condition, as exactly,
off the steps as they are written. `TidyJobs` has a simpler condition that suffices, and two jobs on
which the promise fails: a checkout step named like an insertion anchor, and a lint job with two
markdownlint install steps. The J1/J2 rewiring reports a change on every run with a checkout, so it
is the fixed point and the text comparison that keep the check quiet, and this is what is proved.

**Metadata reconciler** (`SortedLists`, `Metadata*`). Issue and pull request metadata is read,
compared with a request, planned, applied by remote calls, and verified. The remote is a store: the
target's own fields and one parent map over all issues, of which sub-issues are the inverse image.
Every call may throw, with or without having taken effect. Applying a plan refines the projection if
and only if the request names logins in their own spelling, teams of the repository's owner, and
every sub-issue once. How far a run gets is a function of the replies: it fails with an error
exactly when a call of its plan throws, and then leaves a clean cut.

**Unattended delivery manager and host isolation** (`HostIsolation`, `RuntimeReceipts`,
`HostLifetime`, `ManagerCycles`, `ManagerLoop`, `CircuitBreaker`). Runner services are stopped,
remembered and started again; stale receipts are quarantined; a daemon is started, watched, repaired
and stopped. Each run and each cycle is a step whose external answers are arbitrary, and the
manager's cycle runs the host tool on the same isolation record as the commands around it. A ghost
field holds the services that are really down. The record can lose one in two ways only, both shown:
a service query that throws between the stop and the write, and a manager started without the start
time that `ensure` hands over. A blocked cycle stops the daemon that the pid file names. That it
always leaves no daemon is false: `UnseenDaemonLives` has the two cycles, and `SettledFacts` says
exactly which processes live on.

**Run watcher** (`RunWatcher`), **command lines** (`ArgTokens`), **option scanners**
(`HistoryOptions`), **percentiles** (`Percentiles`), **delivery memory** (`DeliveryMemory`), **draft
transitions** (`DraftTransition`) and the **daemon fingerprint** (`DaemonFingerprint`) are
self-contained algorithms, each with its loop proved against a recursive definition and the
definition's laws proved as lemmas.

Where a property of the code is conditional, its exact condition is proved, in both directions; the
failing inputs worth knowing have lemmas of their own.

## Model

| member | source | states |
|---|---|---|
| `StepLists.FindIs` | tools/workflows/_update_workflows_impl.py:749-753 | The first selected step is the one before which no step is selected: the search result is determined by what it skips. |
| `StepLists.FindInsert` | tools/workflows/_update_workflows_impl.py:342-355 | Inserting a step that a search does not look for changes neither what the search finds nor, apart from the shift, where. |
| `StepLists.PlaceAllRests` | tools/workflows/_update_workflows_impl.py:1220-1296 | After one pass of guarded, anchored insertions, every one of them has its step in place or no anchor, whatever the list was. |
| `StepLists.PlaceAllTwice` | tools/workflows/_update_workflows_impl.py:1220-1296 | A second pass of such insertions changes nothing, when no inserted step is an anchor of another. |
| `StepFacts.WirePlaced` | tools/workflows/_update_workflows_impl.py:222-262 | Taking J1 and J2 out and putting them back leaves them as the two steps directly behind the first checkout, and nowhere else. |
| `StepFacts.WireFixed` | tools/workflows/_update_workflows_impl.py:222-262 | The rewiring leaves a list alone once J1 and J2 stand there and nowhere else. |
| `StepFacts.BlockedParts` | tools/workflows/_update_workflows_impl.py:433-521 | An insertion after the first checkout itself parts it from J1 for good, whatever is inserted later. |
| `StageReadiness.GateIsHintFixed` | tools/workflows/_update_workflows_impl.py:578-610 | A pre-init gate that is also the re-run hint is set for the gate and set back for the hint in every run: the two rewrites cancel. |
| `StageReadiness.LintSettles` | tools/workflows/_update_workflows_impl.py:763-920 | After the lint rewrite all four of its steps are there in their final form. |
| `WorkflowRuns.PipelineSteps` | tools/workflows/_update_workflows_impl.py:1303-1409 | The fixed sequence of stages of ci-orchestrated.yml and validate.yml does to every step list what the three-phase reading (early rewrites, J1/J2, remaining wires) says. |
| `RewiredFixedPoint.ClearIff` | tools/workflows/_update_workflows_impl.py:402-521 | Whether an insertion parts J1 from the checkout along the whole run can be read off the list before the insertions, from four names and the drift action. |
| `RewiredSettling.SettlesFixed` | tools/workflows/_update_workflows_impl.py:1319-1409 | A job that settles is a fixed point after one run, with J1 and J2 directly behind its first checkout. |
| `RewiredNecessity.CountEarly` | tools/workflows/_update_workflows_impl.py:863-866 | Each run over the lint job deletes exactly one markdownlint install step while there is one, whatever else it does. |
| `RewiredIdempotence.RewiredIff` | tools/workflows/_update_workflows_impl.py:1303-1409 | For every job of a rewired file and every step list: the second run changes nothing if and only if the job settles. |
| `WorkflowFixedPoint.PlainJobFixed` | tools/workflows/_update_workflows_impl.py:1303-1401 | For every other managed file, every job is a fixed point after one run, with no condition. |
| `WorkflowFixedPoint.UpdateTwiceIff` | tools/workflows/_update_workflows_impl.py:1303-1418 | Updating an updated document changes nothing if and only if all its jobs converge; only ci-orchestrated.yml and validate.yml can fail to. |
| `TidyJobs.TidySettles` | tools/workflows/_update_workflows_impl.py:1319-1409 | A sufficient condition that is simple to check: probes are real probes, no checkout bears an anchor name, at most one markdownlint install, and the interactivity step is not the re-run hint; then one run settles the job. |
| `TidyJobs.TidyLintIff` | tools/workflows/_update_workflows_impl.py:863-866 | The bound of one install step is exact: an otherwise tidy lint job settles if and only if it holds. |
| `TidyJobs.TidyConverges` | tools/workflows/_update_workflows_impl.py:1303-1418 | A document of tidy jobs converges, for every managed file. |
| `TidyJobs.GuardNamedCheckout` | tools/workflows/_update_workflows_impl.py:465-496 | A checkout named Runner Unblock Guard: the second run still changes the job. |
| `TidyJobs.TwoInstalls` | tools/workflows/_update_workflows_impl.py:863-866 | Two markdownlint install steps: the second run still changes the job. |
| `WrittenJobs.WrittenSettlesIff` | tools/workflows/_update_workflows_impl.py:1319-1409 | For a job of ci-orchestrated.yml that is neither linted, gated nor probed, the exact condition on its steps as written: roles do not rest on steps named J1 or J2, and the first checkout not so named bears no anchor of a pending insertion. |
| `WrittenLintJob.WrittenLintIff` | tools/workflows/_update_workflows_impl.py:763-920 | The lint job, as written: it settles if and only if it installs markdownlint at most once and, in ci-orchestrated.yml, the first checkout that the lint rewrite leaves bears no anchor; for every list, also one whose lint steps are checkouts themselves. |
| `WrittenSpecialJobs.WrittenGateIff` | tools/workflows/_update_workflows_impl.py:78-118 | The gated pre-init job, as written: when the gate that is left without J1 and J2 is in order after a run, or is the re-run hint that is set back every run. |
| `WrittenProbeJob.WrittenProbeIff` | tools/workflows/_update_workflows_impl.py:612-714 | The interactivity job, as written: a checkout is left, the renamed output step bears no anchor, and if it was the re-run hint a further hint in order takes over. |
| `WrittenDocuments.WrittenIff` | tools/workflows/_update_workflows_impl.py:1303-1409 | For every job of a rewired file: the second run changes nothing if and only if a condition holds that is read off the steps before any run. |
| `WrittenDocuments.WrittenTwiceIff` | tools/workflows/_update_workflows_impl.py:1303-1418 | A document converges if and only if each of its jobs is so written. |
| `UntouchedSteps.UntouchedSurvive` | tools/workflows/_update_workflows_impl.py:1319-1409 | In every job of a rewired file, all but the steps the rewrites touch come out unmodified and in their original order: touched are the first step of each lookup and what is made of it, what is added where a lookup finds nothing, hosted steps that are off, and J1 and J2; a later step of an edited name, a checkout, session post, guard or wire that was there is not. |
| `UntouchedSteps.TouchedNamed` | tools/workflows/_update_workflows_impl.py:1319-1409 | Whatever a run touches bears one of the names, ids or actions that the rewrites of its job look for, in any list. |
| `UntouchedSteps.ProbesPlacedIff` | tools/workflows/_update_workflows_impl.py:222-290 | After the whole run J1 and J2 are the two steps directly behind the first checkout if and only if no pending insertion anchors on that checkout. |
| `WorkflowTransforms.FindStep` | tools/workflows/_update_workflows_impl.py:749-760 | The index-search loop finds the first selected step. |
| `WorkflowTransforms.EnsureStep` | tools/workflows/_update_workflows_impl.py:551-575 | Edit-or-insert: the list is the specified one, and the flag is up exactly when the list changed. |
| `WorkflowTransforms.EditMarkdownlint` | tools/workflows/_update_workflows_impl.py:884-917 | The field-by-field edit of the markdownlint step, scoped or not, and its flag. |
| `WorkflowTransforms.NormalizeHostedPreflight` | tools/workflows/_update_workflows_impl.py:191-219 | Every hosted preflight step is normalized by name, no other step moves, and the flag says whether one changed. |
| `WorkflowTransforms.EnsurePreInit` | tools/workflows/_update_workflows_impl.py:78-118 | The docs-only gate is conditioned and followed by its output step; the flag is exact. |
| `WorkflowTransforms.EnsurePreflight` | tools/workflows/_update_workflows_impl.py:993-1018 | Checkout and hosted preflight step are ensured; the flag is exact. |
| `WorkflowTransforms.EnsureInteractivity` | tools/workflows/_update_workflows_impl.py:679-714 | Checkout and interactivity probe are ensured; the flag is exact. |
| `WorkflowTransforms.EnsureLint` | tools/workflows/_update_workflows_impl.py:776-920 | The five lint rewrites in order; their flags together are up exactly when the pass as a whole changed the list. |
| `WorkflowTransforms.LintFlags` | tools/workflows/_update_workflows_impl.py:776-920 | No two lint rewrites cancel: a pass that moves nothing moved nothing on the way. |
| `WorkflowTransforms.InsertWireProbes` | tools/workflows/_update_workflows_impl.py:222-262 | The rewiring loop, with the flag it actually raises: whenever a probe was there or a checkout is, changed or not. |
| `WorkflowTransforms.PlaceSteps` | tools/workflows/_update_workflows_impl.py:342-355 | A list of guarded insertions run one by one, with an exact flag. |
| `WorkflowDocumentState.SetProbeFields` | tools/workflows/_update_workflows_impl.py:655-678 | The interactivity job's condition, runner, timeout, outputs and needs, field by field, with an exact flag. |
| `WorkflowDocumentState.ApplyTo` | tools/workflows/_update_workflows_impl.py:265-290 | One transform on one key of the jobs mapping, including the jobs it creates and the values that are no jobs. |
| `WorkflowDocumentState.Workflow.RunStage` | tools/workflows/_update_workflows_impl.py:265-290 | A transform over the jobs mapping, in whatever order the keys come, leaves the specified document and flag. |
| `WorkflowDocumentState.Workflow.RunStages` | tools/workflows/_update_workflows_impl.py:1303-1412 | All transforms of a file run in order, none short-circuited, and their flags are combined. |
| `WorkflowUpdater.QuietFixed` | tools/workflows/_update_workflows_impl.py:1413-1417 | An updated document on which no transform reports a change is a fixed point, so the flag never hides an unsettled document. |
| `WorkflowUpdater.WrittenQuietIff` | tools/workflows/_update_workflows_impl.py:1303-1418 | The text a rewrite produced is left alone by the next run if and only if the document converges. |
| `WorkflowUpdater.Updater.ApplyTransforms` | tools/workflows/_update_workflows_impl.py:1303-1418 | Loading, rewriting, dumping and comparing one file: an error, no change, or the new text. |
| `WorkflowUpdater.Updater.Command` | tools/workflows/_update_workflows_impl.py:1420-1449 | The command over a list of files: what is on disk afterwards and exit codes 0, 2, 3 and 4. |
| `WorkflowUpdater.CheckVisits` | tools/workflows/_update_workflows_impl.py:1433-1448 | A check writes nothing and reports exactly the files that would change or fail. |
| `WorkflowUpdater.CheckAfterWrite` | tools/workflows/tests/test_workflow_enclave.py:55-82 | `--check` right after `--write` on the same list of files, with or without repetitions: it fails exactly on the files that cannot be processed, and is otherwise quiet if and only if what the last write visit of each file found was up to date or converges. |
| `WorkflowUpdater.CheckAfterWriteOnce` | tools/workflows/tests/test_workflow_enclave.py:55-82 | Read off the disk before the write: quiet when every file that needed an update converges, and only then when no file is named twice. |
| `SortedLists.OrderedUnique` | tools/cli/github-metadata-lib.ts:985-1001 | Two ordered, duplicate-free key lists with the same members are equal, under any total order. |
| `SortedLists.DifferenceKeys` | tools/cli/github-metadata-lib.ts:1048-1056 | The keyed difference adds exactly the keys missing on the left and removes exactly those missing on the right, although a map keeps the last of equal keys. |
| `SortedLists.NoDifferenceIff` | tools/cli/github-metadata-lib.ts:1048-1056 | On ordered, duplicate-free lists the difference is empty if and only if the keys are equal. |
| `MetadataRun.NormalizeUniqueStrings` | tools/cli/github-metadata-lib.ts:329-384 | Carets removed, ordered, no two spellings of one name, and every non-blank value represented. |
| `MetadataRun.EarlierSpellingStays` | tools/cli/github-metadata-lib.ts:364-384 | The first spelling wins: what a list keeps stays, in place, whatever is appended. |
| `MetadataSurfaces.RunElsewhere` | tools/cli/github-metadata-lib.ts:1340-1402 | Any number of calls of other surfaces leaves a surface's value alone, the shared parent map included. |
| `MetadataSurfaces.ListsDifference` | tools/cli/github-metadata-lib.ts:1132-1146 | Comparing by url and calling by id agree: the difference names exactly the issues on one side only. |
| `MetadataGoals.ForeignKey` | tools/cli/github-metadata-lib.ts:1267-1291 | A team of another organization has a key that no request can put on the remote, since only the slug is sent. |
| `MetadataGoals.PlannedAchieves` | tools/cli/github-metadata-lib.ts:1340-1388 | The planned calls of a surface bring the remote to the wanted value, if and only if no requested reviewer is a foreign team. |
| `MetadataGoals.ReadIff` | tools/cli/github-metadata-lib.ts:985-1001 | Reading a surface back yields the wanted list if and only if the remote holds the wanted value and the request spells it as the remote does. |
| `MetadataApply.SendEach` | tools/cli/github-metadata-lib.ts:1340-1388 | Calls are sent in order up to the first that throws; those before it, and it itself if only its acknowledgement was lost, took effect; the result is true exactly when none throws. |
| `MetadataApply.CarryOut` | tools/cli/github-metadata-lib.ts:1350-1392 | The calls made for an operation are the ones its plan announced, up to the first that throws. |
| `MetadataApply.ApplyOperations` | tools/cli/github-metadata-lib.ts:1340-1402 | How far a plan gets, which operations are marked and what the remote holds follow from the replies: it goes through exactly when no call throws, and otherwise stops inside the operation whose call did. |
| `MetadataOutcome.FinishedHolds` | tools/cli/github-metadata-lib.ts:1340-1402 | A finished operation holds its wanted value, whatever happens to the operations after it. |
| `MetadataOutcome.UntouchedHolds` | tools/cli/github-metadata-lib.ts:1340-1402 | A surface that is not planned, or whose turn has not come, reads as before the run. |
| `MetadataOutcome.InterruptedRun` | tools/cli/github-metadata-lib.ts:1340-1402 | If a call throws anywhere, finished surfaces hold their wanted values and all surfaces after the failing one are untouched. |
| `MetadataOutcome.OthersKeepParent` | tools/cli/github-metadata-lib.ts:1378-1388 | However far a run gets, an issue outside the difference keeps its parent. |
| `MetadataVerify.ProjectAt` | tools/cli/github-metadata-lib.ts:1155-1187 | The projection has the wanted value on the surfaces acted on and the old value elsewhere. |
| `MetadataVerify.ApplyRefinesProjection` | tools/cli/github-metadata-lib.ts:1155-1187 | After a run without exceptions the remote reads as projected on every requested surface, if and only if the request names logins, teams and issues as the remote does. |
| `MetadataVerify.ReplanIff` | tools/cli/github-metadata-lib.ts:1058-1153 | Planning again then finds nothing to do under the same condition, and failed or unsupported surfaces stay exactly those. |
| `MetadataVerify.PlannedActs` | tools/cli/github-metadata-lib.ts:1096-1150 | A planned operation has a call to make, except sub-issues that already match a request naming one issue twice. |
| `MetadataVerify.SameIssueTwice` | tools/cli/github-metadata-lib.ts:1136-1150 | Two urls of one attached sub-issue: planned, with no action. |
| `MetadataRun.VerifyAfterState` | tools/cli/github-metadata-lib.ts:1443-1470 | The loop gives the verdict of the first read that verifies or throws, within the configured budget or five reads. |
| `MetadataRun.VerifyFields` | tools/cli/github-metadata-lib.ts:1404-1441 | The surfaces reported as differing are exactly the requested, applicable ones that differ. |
| `MetadataRun.FullRunVerdict` | tools/cli/github-metadata-lib.ts:1340-1469 | After a plan carried out in full, a faithful request passes once some read sees the store; when every read does, the verdict is a pass if and only if the request is faithful. |
| `MetadataRun.RunMetadataApply` | tools/cli/github-metadata-lib.ts:1565-1640 | A dry run or a blocked plan sends nothing; otherwise the run is an error exactly when a call of the plan throws, and else the verdict of its reads: with every read seeing the store, a pass if and only if the request is faithful. |
| `MetadataRun.CutRun` | tools/cli/github-metadata-lib.ts:1340-1402 | In a run cut short by a throwing call every operation marked applied has its surface at the wanted value, and every later planned one is untouched. |
| `MetadataRun.SummarizeOperations` | tools/cli/github-metadata-lib.ts:1472-1503 | Each count is the number of operations of its status, and the requested count that of the requested ones. |
| `MetadataRun.SummaryAddsUp` | tools/cli/github-metadata-lib.ts:1472-1503 | However far a plan was carried out, its requested operations are exactly those of the six other statuses. |
| `HostIsolation.Classify` | tools/priority/delivery-host-signal.ts:358-417 | The host is native exactly when the daemon is native and available, no runner service is in the way, and its fingerprint has not changed. |
| `HostIsolation.HostAgent.MutateRunnerServices` | tools/priority/delivery-host-signal.ts:468-485 | Returns the services whose command succeeded, in order. |
| `HostIsolation.HostAgent.RunDeliveryHostSignal` | tools/priority/delivery-host-signal.ts:769-860 | One collect, isolate or restore run: the record on disk and the services actually held afterwards; a run that throws writes nothing. |
| `HostIsolation.TracksIff` | tools/priority/delivery-host-signal.ts:787-860 | A run keeps the record exact (each held service once, counters covering them) if and only if it does not throw after stopping an unrecorded service or starting a recorded one. |
| `HostIsolation.RunsTrack` | tools/priority/delivery-host-signal.ts:787-860 | Over any sequence of runs, with any command failures: the record is exact after each of them if and only if none throws having shifted a service. |
| `HostIsolation.StoppedUntracked` | tools/priority/delivery-host-signal.ts:821-831 | A service query that fails after an isolation: the service is down and on no record. |
| `RuntimeReceipts.CandidatesDistinct` | tools/priority/lib/delivery-agent-common.ts:430-444 | The thirteen quarantine candidates are thirteen different files. |
| `RuntimeReceipts.RuntimeDirectory.QuarantineStaleRuntimeReceipts` | tools/priority/lib/delivery-agent-common.ts:420-484 | The loop moves every stale candidate and lists each with its reason. |
| `RuntimeReceipts.MoveAllAt` | tools/priority/lib/delivery-agent-common.ts:446-471 | Afterwards no stale candidate is in place, each is in the quarantine under its own name, and every other file is where and what it was. |
| `RuntimeReceipts.IsolationKeptIff` | tools/priority/lib/delivery-agent-common.ts:407-463 | The quarantine keeps the isolation record if and only if it is not older than the manager. |
| `HostLifetime.AsideTracksIff` | tools/priority/lib/delivery-agent-common.ts:446-463 | A startup quarantine loses track of stopped services exactly when it moves a record that names some. |
| `HostLifetime.AsideIsQuarantine` | tools/priority/lib/delivery-agent-common.ts:420-471 | The startup quarantine of the whole runtime directory does to the record, readable or not, just what its time says. |
| `HostLifetime.LiveGrows` | tools/priority/lib/delivery-agent-prereqs.ts:220-246 | No writer of the record other than a restore ever drops a service from it, even when its run throws. |
| `HostLifetime.LifetimeKeeps` | tools/priority/lib/delivery-agent-manager.ts:684-687 | From the isolation before a manager, through the quarantine of the directory it leaves, to the final restore no tracked service is dropped; without exceptions the record is exact throughout and ends as the services that would not start. |
| `HostLifetime.LateStartDrops` | tools/priority/lib/delivery-agent-manager.ts:784-793 | A manager given no start time takes its own, after the isolation, and its quarantine drops the record while the services stay down. |
| `HostLifetime.EnsureManagerCommand` | tools/priority/lib/delivery-agent-manager.ts:650-733 | Each outcome by its cause, and the host after it; the start time handed to the manager is read before the isolation, so the record left behind survives the quarantine. |
| `ManagerCycles.ResolvePostRepair` | tools/priority/lib/delivery-agent-manager.ts:171-215 | A repaired host is unblocked only by a native collection, or by remaining runner services around the very daemon that was repaired. |
| `ManagerCycles.ThrewIff` | tools/priority/lib/delivery-agent-manager.ts:900-1167 | A cycle throws if and only if its collection or isolation does, a repair leaves no signal to judge by, or an unexplained start failure remains. |
| `ManagerCycles.SettledFacts` | tools/priority/lib/delivery-agent-manager.ts:900-1167 | A daemon alive after a cycle is one the pid file names, on a native host; a cycle is blocked exactly by a conflict whose repair fails or whose verdict is so, and leaves no pid file and no daemon that the file named. |
| `ManagerCycles.NamedStays` | tools/priority/lib/delivery-agent-manager.ts:943-950 | When every live daemon is the one in the pid file, a blocked cycle leaves none; only a failed start can leave one that is not. |
| `ManagerCycles.UnseenDaemonLives` | tools/priority/lib/delivery-agent-manager.ts:969-1186 | Two cycles: a failed start leaves a process without a pid file, and the blocked cycle after it ends with that process running. |
| `ManagerCycles.CycleTracksIff` | tools/priority/lib/delivery-agent-manager.ts:912-1101 | No cycle drops a service from the record, and the record stays exact unless the cycle's isolation stops a service and then throws. |
| `ManagerCycles.LoopTracksIff` | tools/priority/lib/delivery-agent-manager.ts:900-1199 | Over a whole loop no tracked service is dropped, and the record is exact unless the last cycle loses one. |
| `ManagerCycles.LoopEnds` | tools/priority/lib/delivery-agent-manager.ts:900-1343 | A loop ends fail-closed exactly at the first cycle that opens the breaker, and with an exception exactly at the first that throws. |
| `ManagerCycles.FinishedTracksIff` | tools/priority/lib/delivery-agent-manager.ts:1344-1390 | After the final restore the record is exact unless a service was started and the run then threw; otherwise it names the services that would not start. |
| `ManagerCycles.RunKeeps` | tools/priority/lib/delivery-agent-manager.ts:684-1363 | From the isolation before a manager through its quarantine and its loop, however that ends, every service on record is still there when the restore begins. |
| `ManagerLoop.Manager.RunCycle` | tools/priority/lib/delivery-agent-manager.ts:900-1199 | One cycle over the isolation record, the signal, the pid file and the daemon leaves, blocks, ends and throws as its function says. |
| `ManagerLoop.Manager.RunManagerLoop` | tools/priority/lib/delivery-agent-manager.ts:900-1363 | The loop ends with the first cycle that ends it, and however it ends, stops the daemon, removes the pid file and runs one restore. |
| `CircuitBreaker.CountIsBlock` | tools/priority/lib/delivery-agent-manager.ts:323-361 | The failure count is the length of the trailing block of like failures; a counted cycle with an empty signature stands alone. |
| `CircuitBreaker.OpensIff` | tools/priority/lib/delivery-agent-manager.ts:344-349 | The breaker opens if and only if a positive threshold is set and the count has reached it. |
| `CircuitBreaker.OpensAtThreshold` | tools/priority/lib/delivery-agent-manager.ts:340-349 | At the first cycle that opens it the count equals the threshold. |
| `RunWatcher.WatchRun` | tools/watchers/orchestrated-watch.ts:502-643 | The polling loop ends in the first state, of those its polls lead to, in which it has completed or given up. |
| `RunWatcher.SignatureUnordered` | tools/watchers/orchestrated-watch.ts:411-420 | The jobs signature does not depend on the order of the jobs. |
| `RunWatcher.NotFoundMeansNever` | tools/watchers/orchestrated-watch.ts:598-617 | Giving up on a missing run means that no poll ever succeeded. |
| `RunWatcher.ErrorsMeanSilence` | tools/watchers/orchestrated-watch.ts:618-637 | Giving up on errors means that nothing succeeded for more than the error grace. |
| `RunWatcher.FailuresEnd` | tools/watchers/orchestrated-watch.ts:519-641 | Consecutive failures, however mixed and whatever came before, end the watch within the polls that fit into both grace windows, plus one. |
| `ArgTokens.Tokenize` | src/CompareVi.Shared/ArgTokenizer.cs:10-51 | The loop reads the line as the recursive quote-state reading does, and no token is empty. |
| `ArgTokens.ScanCounts` | src/CompareVi.Shared/ArgTokenizer.cs:17-40 | The tokenizer only drops characters, and only quote marks and white space. |
| `ArgTokens.RoundTripIff` | src/CompareVi.Shared/PathUtils.cs:22-26 | An argument list comes back from its quoted, space-joined line if and only if every argument is non-empty, has no double quote, and either has a space or neither apostrophe nor white space. |
| `HistoryOptions.ValidateCommandOptions` | src/CompareVi.Tools.Cli/HistoryCliBridge.cs:447-488 | The validator loop gives the verdict of the recursive walk, with the first offending token. |
| `HistoryOptions.AcceptedParses` | src/CompareVi.Tools.Cli/HistoryCliBridge.cs:447-488 | An accepted argument list is the rendering of its own left-to-right parse into proper settings. |
| `HistoryOptions.ProperAccepted` | src/CompareVi.Tools.Cli/HistoryCliBridge.cs:447-488 | Every list of proper settings is accepted as written and parses back to itself. |
| `HistoryOptions.TryReadOption` | src/CompareVi.Tools.Cli/HistoryCliBridge.cs:490-503 | The scan returns the token after the first match that has one. |
| `HistoryOptions.HasFlag` | src/CompareVi.Tools.Cli/HistoryCliBridge.cs:505-516 | The scan finds a flag exactly when some argument matches it. |
| `HistoryOptions.ReadOptionValueList` | src/CompareVi.Tools.Cli/HistoryCliBridge.cs:550-578 | The list reader collects the trimmed, non-blank pieces of each value and skips what it has read as a value. |
| `HistoryOptions.PiecesClean` | src/CompareVi.Tools.Cli/HistoryCliBridge.cs:567-574 | Whatever the value, its pieces are trimmed, not blank and free of separators. |
| `HistoryOptions.JoinedPieces` | src/CompareVi.Tools.Cli/HistoryCliBridge.cs:567-574 | A list of clean pieces comes back from its comma-separated text. |
| `HistoryOptions.OptionAgrees` | src/CompareVi.Tools.Cli/HistoryCliBridge.cs:490-503 | On accepted arguments the option scan finds the first value the parse gives the option. |
| `HistoryOptions.ListAgrees` | src/CompareVi.Tools.Cli/HistoryCliBridge.cs:550-578 | On accepted arguments the list reader sees every occurrence, in order. |
| `HistoryOptions.FlagAgrees` | src/CompareVi.Tools.Cli/HistoryCliBridge.cs:505-516 | On accepted arguments a flag is found exactly when the parse mentions it; no value is taken for one. |
| `HistoryOptions.FlagReadAsOption` | src/CompareVi.Tools.Cli/HistoryCliBridge.cs:490-503 | Asked for a flag, the option scan takes the next option for its value, so agreement needs an option that takes one. |
| `Percentiles.PercentileBounded` | src/CompareVi.Tools.Cli/HistoryCliBridge.cs:1671-1692 | A percentile of a sorted list lies between its least and its greatest element. |
| `Percentiles.PercentileMonotone` | src/CompareVi.Tools.Cli/HistoryCliBridge.cs:1671-1692 | A higher percentile is never smaller. |
| `Percentiles.PercentileEnds` | src/CompareVi.Tools.Cli/HistoryCliBridge.cs:1671-1692 | The percentiles at 0 and 1 are the least and the greatest element. |
| `Percentiles.RoundedFacts` | src/CompareVi.Tools.Cli/HistoryCliBridge.cs:1660-1668 | Rounding to three digits keeps the order, moves a value by half a digit at most, and does nothing the second time. |
| `Percentiles.SummaryOrdered` | src/CompareVi.Tools.Cli/HistoryCliBridge.cs:1645-1669 | p50, p90 and p95, as rounded, are in order and lie between the least and the greatest duration, as rounded. |
| `Percentiles.SummaryUnordered` | src/CompareVi.Tools.Cli/HistoryCliBridge.cs:1645-1669 | The summary does not depend on the order of the durations. |
| `Percentiles.TotalIsSum` | src/CompareVi.Tools.Cli/HistoryCliBridge.cs:1660-1664 | The total, taken over the sorted durations, is the sum of the durations as they came, rounded. |
| `DeliveryMemory.Memory.EnsureEntry` | tools/priority/delivery-memory.ts:181-216 | Finds the record of a key or appends a blank one, and touches no other. |
| `DeliveryMemory.Memory.RecordReceipt` | tools/priority/delivery-memory.ts:229-288 | Counts the receipt, notes its time, and lets its terminal disposition replace any earlier one, in one record. |
| `DeliveryMemory.Memory.RecordAll` | tools/priority/delivery-memory.ts:357-378 | The loop over the receipts leaves the specified records, in order of first appearance. |
| `DeliveryMemory.RecordsFaithful` | tools/priority/delivery-memory.ts:229-291 | Each record counts its own receipts, spans exactly their least and greatest times, and ends as the last terminal one of them says. |
| `DeliveryMemory.FoldFiles` | tools/priority/delivery-memory.ts:357-378 | Every record is built from exactly the receipts filed under its key, and no two share a key. |
| `DeliveryMemory.TurnsConserved` | tools/priority/delivery-memory.ts:229-231 | The turn counts of all records add up to the number of receipts. |
| `DeliveryMemory.EffortGrows` | tools/priority/delivery-memory.ts:92-117 | Along the fold a record's effort score never goes down, whatever receipts are added. |
| `DeliveryMemory.SummaryConserves` | tools/priority/delivery-memory.ts:380-412 | Merged and closed add up to the reported pull requests, and so do low, medium and high effort. |
| `DraftTransition.WaitForTransition` | tools/priority/run-delivery-turn-with-codex.ts:431-474 | Returns the evidence of the first read that shows any, within the poll budget; a read that throws counts as a poll. |
| `DraftTransition.SetReadyState` | tools/priority/run-delivery-turn-with-codex.ts:484-540 | Success means that the command ran and a read within the budget showed evidence against the noted event. |
| `DraftTransition.EvidenceIsNew` | tools/priority/run-delivery-turn-with-codex.ts:377-428 | When the timeline was read before the command, accepted evidence was not on it. |
| `DraftTransition.NewEventShows` | tools/priority/run-delivery-turn-with-codex.ts:377-428 | A newer event of the expected kind is accepted by every read that has it as the newest. |
| `DraftTransition.UnreadEvidenceIff` | tools/priority/run-delivery-turn-with-codex.ts:412-419 | When that read failed, an old event is accepted if and only if it is still the newest of its kind and recent enough, or undated. |
| `DraftTransition.StaleEvidence` | tools/priority/run-delivery-turn-with-codex.ts:412-419 | An event two seconds old is taken for evidence when the first read failed, and is not when it succeeded. |
| `DaemonFingerprint.BuildDaemonFingerprint` | tools/priority/delivery-host-signal.ts:332-338 | The loop computes the FNV-1a hash and prints it padded to eight digits. |
| `DaemonFingerprint.RoundBijective` | tools/priority/delivery-host-signal.ts:334-336 | Every xor-multiply round is a bijection on 32-bit words: it can be undone and reaches every word. |
| `DaemonFingerprint.HexInjective` | tools/priority/delivery-host-signal.ts:338 | The padded hexadecimal form determines the word. |
| `DaemonFingerprint.OneUnitShows` | tools/priority/delivery-host-signal.ts:332-338 | Texts of one length that agree but for one code unit have different fingerprints. |

## Left out

- YAML itself: `load` and `dump` are parameters, and the theorems that need it assume that loading what the tool has dumped gives back the document it dumped. Comments, quoting styles, aliases of shared step objects and key order are not modelled.
- Step lists and mappings of another YAML shape (a `steps` that is no list, an explicit null name or `uses`): the tool's handling of them is not modelled. Entries of a step list and values of the jobs mapping that are no mappings are.
- Shell bodies are opaque constants, compared by identity; literal block style is kept where the tool looks at it.
- `ensure_hosted_notice`, and the variants of `ensure_lint_resiliency` and `_insert_step_relative` that no workflow uses: never called with them.
- Paths with a trailing slash or backslashes in the updater's command line: the file name is what follows the last slash.
- Collation: `localeCompare` is any total order on strings. Lower case is that of the ASCII letters, white space that of ASCII.
- GitHub's refusals (unknown logins, cycles of sub-issues, the author as reviewer) are calls that throw; pages beyond the first hundred entries and bot reviewers are not modelled.
- Report fields that are only copied (titles, numbers, summaries of actions) and the parsing of command-line arguments of the metadata tool.
- Processes, PowerShell, `gh`, WSL, docker, `sc.exe` and sleeping: their answers are parameters. Stopping the daemon's unit is taken to work.
- The fingerprint baseline reset: the option is passed on but never read, so nothing is claimed about it.
- The manager's first prerequisite step: it throws before the loop's `try`, so the claims about restoring are about the loop.
- Malformed isolation records (a field of the wrong type): a record is either absent, unreadable or well formed.
- Failure signatures: the lane's fields are texts; the rendering of the issue number is not modelled.
- The watcher's output, its heartbeat and its summary; the loop is modelled on the polls it makes, so a run that never completes is watched for as long as polls are given.
- Percentiles.SummaryOrdered: in exact reals, rounded to three digits; the rounding of floating-point arithmetic is not modelled.
- DeliveryMemory.Memory.RecordAll: receipts come in the order in which the report sorts them, timestamps are ranks of texts, and the choice of a task context is an input; durations, tracks and sorting of the report are left out.
- DeliveryMemory.Memory.EnsureEntry: the descriptive fields that a new record copies from its receipt are left out.
- DeliveryMemory.Memory.RecordReceipt: the issue, branch, objective, repository and text fields that a receipt overwrites are left out.
- DeliveryMemory.RecordsFaithful: the close-reason keywords are an input of the receipt.
- `NormalizeFlagValuePairs`, `classifyDeliveryTrack`, prompts, schemas, catalogs and the other tools: string plumbing, or repetitions of what is modelled here.
