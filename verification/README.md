# Verified model of the mirror operator's controllers

This project models the operator's three controllers as they share objects through the Kubernetes API, and the merge,
rewrite and upkeep algorithms of the connected and airgapped modes, and proves what they keep.

`dafny verify dfyconfig.toml` verifies everything.

## The shared-store protocol

| file | contents |
|---|---|
| `Objects.dfy` | the API objects, each kept as the sequence of all its revisions; a write carries the revision it was computed from and is accepted only while that is the current one |
| `Reconcilers.dfy` | where a reconcile stands between two API calls, and its decisions there |
| `Protocol.dfy` | any number of reconciles of the three controllers, interleaved with users and Tekton; one step is one API call |
| `ApiServer.dfy`, `Programs.dfy`, `Controllers.dfy` | the three reconcilers as imperative code over an API server, whose log is a run of the protocol; the contracts state the calls each function makes as its part of that log, whatever other reconciles do in between |
| `Invariants.dfy`, `Preservation.dfy`, `Growth.dfy`, `Runs.dfy` | what holds in every reachable state, and that every step keeps it |
| `Lifecycle.dfy`, `PlatformHistory.dfy`, `Aggregates.dfy`, `ImportHistory.dfy`, `Claims.dfy`, `Versions.dfy`, `Volumes.dfy`, `RunPhases.dfy`, `Gates.dfy` | the theorems over all runs |
| `Adoption.dfy`, `Orphans.dfy` | when a PipelineRun is left behind that nothing records, and a run of the system that does it |
| `VersionChecks.dfy`, `Completion.dfy`, `DuplicateImports.dfy` | what the version check of imports guarantees, when an import can still complete, and two imports of one version that both do |

A run is a list of steps from the empty cluster, and `Reachable(m, s)` says that some run in mode `m` leads to `s`. The
mode says what a read may return (any earlier revision; any, but a reconcile never sees its parent go backwards; the
current one only) and whether at most one reconcile at a time works on a pipeline. A reconcile may stop or crash between
any two steps in every mode. A theorem that does not mention the mode holds in the weakest one: stale reads, crashes and
overlapping reconciles of the same object. Otherwise its first `requires` names what it needs:

- the working claim of a run, and cycles: no reconcile sees its parent go backwards;
- import versions are never lost, when they stay listed, when an import can complete, an aggregate covers all pipelines and
  imports: current reads;
- a Complete pipeline has a version and a claim: current reads and one reconcile at a time per pipeline.

Assumptions: specs do not change; the status of a PipelineRun only moves created, started, completed; runs may be
deleted at any time, other objects are not; there is one DisconnectedPlatform; a run's generated name is new; times are
arbitrary numbers. An error of the API other than not-found and conflict ends a reconcile like a crash, with these
exceptions, which may happen in every mode: the early expansion, the first lookup of the run and the look for a signing
configuration go on after any error, as if the object was not found; a list call that fails in the platform reconcile is
skipped, as if the list was empty. A queued object that exists is found by the first read. Kubernetes makes no new
resourceVersion for an update that changes nothing, while here every accepted update appends a revision, so a second writer
whose copy was read before such an update is refused here and may be accepted there. Writes to fields outside the model, the reconcilers' own
among them (finalizers, `ConfigMapRef`, labels), are steps that append a revision with unchanged modelled fields. Whether a
run's signing task is outdated, whether a platform manages a signing configuration and a pipeline has it, and the generated
version are arbitrary.

## The algorithms

| file | contents |
|---|---|
| `MirrorMerge.dfy` | merging IDMS and ITMS entries into the registry table of the assisted installer |
| `RegistriesConf.dfy` | the registries.conf text of that table, and a reader of the part of TOML 1.0.0 it uses |
| `SignaturePolicy.dfy` | the docker transport of policy.json and the docker entries of registries.d |
| `ImageReferences.dfy` | normalizing and rewriting image references |
| `Enrichment.dfy` | the four stages that enrich an ImageSetConfiguration |
| `PullSecrets.dfy` | the operator, update service and cluster pull secrets over rounds of reconciles |
| `Conditions.dfy` | phase and conditions of the platform status over any sequence of calls |
| `Expansion.dfy` | capped doubling of the database volume |
| `Text.dfy` | string functions |

Code that updates something in place is a class or a method with loops there, proved equal to a function of its inputs;
the lemmas are about those functions.

## Where the code differs from what one would expect

- Two rounds do not always settle the pull secrets: when the cluster secret holds another login for the managed registry
  and the update service is disabled or its service account is missing, every reconcile overwrites the entry twice and
  restarts the backend pods (`PullSecrets.SettledAfterTwoRounds`, `PullSecrets.RestartsEveryRound`). The list of registry
  hosts collected before the merge plays no part in it.
- Enriching is not idempotent when the first channel's `minVersion` is an unquoted number: the version is read from an
  untyped map, where a number is no string, and a later stage rewrites it as a string (`Enrichment.BareVersionSurfaces`).
- A PipelineRun can be left behind that nothing records, even with current reads and one reconcile at a time
  (`Orphans.OrphanReachable`): exactly when its reconcile stops between creating and recording it, or the guarded write
  that should record it meets a conflict (`Adoption.OrphanedExactly`).
- Two imports of one version can both complete and both enter the history (`DuplicateImports.BothComplete`): the version
  check stops the imports that make it after the version is listed (`VersionChecks.LateImportNeverStarts`,
  `Completion.CanCompleteExactly`). A version is listed for good exactly under the condition of
  `Completion.StaysListedExactly`: the entry made up for an import without a version is renamed by the next aggregation.
- Starting a reconcile sets phase Ready over a Degraded condition that is still True, and exactly when it stays that way is
  known from the calls of the reconcile and the status before (`Conditions.ReadyOverDegradedExactly`).
- The automatic expansion of a volume whose capacity is not reported yet asks for zero bytes
  (`Expansion.UnreportedCapacity`).
- Printing registries.conf escapes nothing, so exactly the tables without quotes, backslashes and control characters other
  than tab can be read back (`RegistriesConf.PrintedTableReadBack`).

## Model

| member | source | states |
|---|---|---|
| `Controllers.ReconcilePipeline` | internal/controller/collectionpipeline_controller.go:55-325 | An existing pipeline is found, and what the reconcile adds to the log is one whole program of the protocol from its first read to its return, with no early stop, in every interleaving. Behind the first read come exactly the calls of the next row for the revision read. |
| `Controllers.Reconciling` | internal/controller/collectionpipeline_controller.go:89-325 | The calls behind the first read: a restart exactly when the annotation is set on a recorded run in phase Complete, Failed, Succeeded or Stale; else the early expansion exactly when the spec has a size, and, unless that is refused, the tracking of the recorded run or the setting up without one. |
| `Controllers.SetUp` | internal/controller/collectionpipeline_controller.go:192-325 | For a pipeline without a run: the reconcile goes to its end, and a run is created only behind a parent found complete, the base version found in the import history or no platform, a version, the lookup of the claim, and no signing configuration to wait for, each where the spec asks for it. |
| `Controllers.Check` | internal/controller/collectionpipeline_controller.go:192-257 | Without a run created, the reconcile goes on exactly as far as it has found the parent complete, the base version listed or no platform, and a version given, where the spec or status asks for them. |
| `Controllers.Provide` | internal/controller/collectionpipeline_controller.go:259-324 | A run is created only behind a lookup of the claim and one that finds no signing configuration to wait for. |
| `Programs.CreatesOnlyCleared` | internal/controller/collectionpipeline_controller.go:192-324 | So in the calls of a whole reconcile no run is created before all of that, whichever way it went. |
| `Controllers.Restart` | internal/controller/collectionpipeline_controller.go:89-109 | The first call sends the revision without the annotation; only when that is accepted a second one sends the status with run, version and phase cleared, and there is no other call. |
| `Controllers.ExpandClaimEarly` | internal/controller/collectionpipeline_controller.go:111-138 | One lookup of the claim named by the status, else by the spec; a second call, an update to the size in the spec, exactly when the claim is there and smaller; a refused one ends the reconcile. |
| `Controllers.RecreateOrTrack` | internal/controller/collectionpipeline_controller.go:140-190 | Exactly when the run has outdated signing and has not started, it is deleted, with the reference and phase cleared in the next and last call; any other run is tracked. |
| `Controllers.TrackPipelineRun` | internal/controller/collectionpipeline_controller.go:327-428 | A missing run is sent as phase Stale without reference, any other as the phase of the run's stage; the platform history follows exactly when phase Complete was accepted. |
| `Controllers.UpdatePlatformCollectionHistory` | internal/controller/collectionpipeline_controller.go:430-446 | The platform is read and, if there is one, one update sends what was read with the version appended and as LastCollection. |
| `Controllers.CheckParent` | internal/controller/collectionpipeline_controller.go:192-230 | A missing parent sends phase Failed and ends the reconcile, an unfinished one ends it without a call, and the parent's version is sent exactly when none is captured yet. |
| `Controllers.VersionExists` | internal/controller/collectionpipeline_controller.go:615-622 | True exactly when the version is an entry of the history. |
| `Controllers.CheckBaseVersion` | internal/controller/collectionpipeline_controller.go:232-250 | Phase Failed is sent, and the reconcile ends, exactly when a platform is found whose import history lacks the base version. |
| `Controllers.AssignVersion` | internal/controller/collectionpipeline_controller.go:252-257 | A generated version is not empty and is sent in one update; a refused one ends the reconcile. |
| `Controllers.RecordWorkingPVC` | internal/controller/collectionpipeline_controller.go:677-711 | The claim recorded is that of the parent revision read, or made from the parent's name while that has none, else the base version's or the pipeline's own; without the parent the reconcile ends. |
| `Controllers.RecordClaim` | internal/controller/collectionpipeline_controller.go:706-711 | The status is sent with the claim exactly when it names another one. |
| `Controllers.EnsurePVC` | internal/controller/collectionpipeline_controller.go:677-769 | The claim is recorded as above, then looked up and grown exactly when it is there and smaller; when the reconcile goes on, the claim is in the store and has been asked to have at least the wanted size. |
| `Controllers.AwaitSigning` | internal/controller/collectionpipeline_controller.go:264-286 | The platform is looked up before a run is created; the reconcile ends here only when one is found that manages a signing configuration the pipeline does not have yet. |
| `Controllers.StartRun` | internal/controller/collectionpipeline_controller.go:284-324 | The run is created, belongs to the pipeline and carries the claim of its status; the pipeline is read again, and the run is recorded in that revision unless it names another, in which case the new run is deleted. |
| `Controllers.ReconcileImport` | internal/controller/mirrorimport_controller.go:46-85 | An existing import is found, what the reconcile adds to the log is one whole program of the protocol, and its calls after the first are those below for the phase read; Complete and Failed make none. |
| `Controllers.StartImport` | internal/controller/mirrorimport_controller.go:87-111 | Phase Failed is sent exactly when a platform is found whose history has the version, Importing otherwise; an import without a version reads no platform. |
| `Controllers.TrackImportPipelineRun` | internal/controller/mirrorimport_controller.go:113-173 | The reference is sent empty when the run is gone, a completed run's result as phase Publishing or Failed, nothing for a run under way; without a reference a run is started. |
| `Controllers.StartImportRun` | internal/controller/mirrorimport_controller.go:122-173 | The run is created for the import, which is read again; the run is recorded in that revision unless it names another, in which case the new run is deleted. |
| `Controllers.FinalizeImport` | internal/controller/mirrorimport_controller.go:322-331 | Phase Complete is sent first, and the platform history follows exactly when that was accepted. |
| `Controllers.UpdatePlatformImportHistory` | internal/controller/mirrorimport_controller.go:333-354 | The platform is read and, if there is one, one update sends what was read with the version, or one made up from name and date, appended and as LastImport. |
| `Controllers.ReconcilePlatform` | internal/controller/disconnectedplatform_controller.go:424-483 | An existing platform is found, and the reconcile is one whole program: the platform read, both lists, then the platform read with each history replaced by what the lists yield, unless that is nothing, sent in one update, or no update, which needs that nothing changed. The listed pipelines and imports are the server's, from between the start and the end of the reconcile, and an accepted update is the revision after the one read. |
| `Controllers.Aggregate` | internal/controller/disconnectedplatform_controller.go:424-483 | The same from the first list on. |
| `Controllers.SaveAggregate` | internal/controller/disconnectedplatform_controller.go:466-483 | The aggregate is sent whenever a history differs from the one read, and is the next revision when accepted. |
| `Controllers.AggregateCollections` | internal/controller/disconnectedplatform_controller.go:424-442 | The loop collects the complete versioned pipelines of the list in list order. |
| `Controllers.AggregateImports` | internal/controller/disconnectedplatform_controller.go:444-465 | The loop collects the completed imports of the list in list order, under their version or else their name. |
| `ApiServer.Server.Update` | internal/controller/collectionpipeline_controller.go:304-324 | The update is in the log with its outcome. After an accepted one the caller goes on from the new revision, at the next resourceVersion, and an accepted expansion is in the store; a refused one ends it. |
| `ApiServer.Server.EnsureClaim` | internal/controller/collectionpipeline_controller.go:713-766 | A missing claim is created, with the wanted size and from then on in the store, only for a pipeline that is neither incremental nor has a parent, otherwise its absence ends the reconcile; an existing one is to be grown exactly when the wanted size is larger than the size read. |
| `ApiServer.Server.CreateRun` | internal/controller/collectionpipeline_controller.go:787-809 | The run is new, is in the store with the pipeline as its owner and the claim of its status, and is to be adopted next. |
| `ApiServer.LogIsRun` | internal/controller/collectionpipeline_controller.go:55-325 | Every log of calls and outside events is a run of the protocol and leads to the state it stands for, so all theorems over runs hold of what the imperative code does. |
| `Aggregates.CollectedExactly` | internal/controller/disconnectedplatform_controller.go:424-442 | An aggregate has exactly one entry for each complete versioned pipeline of the list, in list order, with that pipeline's version. |
| `Aggregates.AggregateExactly` | internal/controller/disconnectedplatform_controller.go:424-483 | In every reachable state, every revision an aggregating write left has exactly one entry for each complete versioned pipeline revision of the list that reconcile read, in list order, with LastCollection its last entry, whatever was appended before; when there is none it has the history and LastCollection of the revision before it. |
| `Aggregates.AggregateImportsExactly` | internal/controller/disconnectedplatform_controller.go:444-483 | The same for the import history: exactly one entry for each complete import of the list that reconcile read, in list order, with its version or else its name and its creation time, and LastImport the last of them; when there is none both stay as they were. |
| `Aggregates.AggregateListsAll` | internal/controller/disconnectedplatform_controller.go:424-465 | With current reads the two lists have all pipelines of one moment of the run and all imports of another, each at its latest revision, or are empty, as when the list call failed. |
| `Preservation.StepKeeps` | internal/controller/collectionpipeline_controller.go:55-325 | Every step of every reconcile, user or run only appends revisions and keeps the invariant of the store and of all reconciles in flight. |
| `Lifecycle.RunRefNeverReplaced` | internal/controller/collectionpipeline_controller.go:102-107 | Under stale reads, crashes and overlapping reconciles, two different recorded runs always have a revision without a run between them. |
| `Lifecycle.ImportRunRefNeverReplaced` | internal/controller/mirrorimport_controller.go:122-172 | The same for imports. |
| `Lifecycle.PhaseMatchesRun` | internal/controller/collectionpipeline_controller.go:90-109 | In every revision an empty run reference goes with phase empty, Stale or Failed, any other with Pending, Collecting, Complete or Failed, so the trigger guard only ever applies to Complete and Failed. |
| `RunPhases.PhaseIsOfRun` | internal/controller/collectionpipeline_controller.go:771-784 | In every reachable state every revision in phase Complete names a run that completed with Succeeded=True, one in phase Failed with a run names one that completed without, and one in phase Collecting names a run that has started; phase Succeeded does not occur. |
| `Lifecycle.TriggerActsAtMostOnce` | internal/controller/collectionpipeline_controller.go:89-109 | Over any run, resets <= removals <= settings of the annotation; a reset is the very next revision after its removal, and a removal happens only on a recorded run in a finished phase. |
| `Lifecycle.ImportSafety` | internal/controller/mirrorimport_controller.go:73-84 | Complete and Failed are absorbing, and Publishing or Complete names a run that completed with Succeeded=True. |
| `RunPhases.FailedImportIsOfRun` | internal/controller/mirrorimport_controller.go:113-140 | A failed import with a run names one that completed without Succeeded=True. |
| `PlatformHistory.ImportAppendedOnce` | internal/controller/mirrorimport_controller.go:322-354 | An import appends to the platform history at most once in its lifetime, and only when it is complete. |
| `PlatformHistory.HistoriesConsistent` | internal/controller/disconnectedplatform_controller.go:424-465 | In every platform revision LastCollection and LastImport are the last elements of their histories, and every listed collection version was once the version of a Complete pipeline. |
| `RunPhases.ListedVersionsSucceeded` | internal/controller/collectionpipeline_controller.go:430-446 | Every listed collection version is that of a pipeline revision whose run completed with Succeeded=True. |
| `PlatformHistory.HistoriesMove` | internal/controller/collectionpipeline_controller.go:430-446 | Between two consecutive platform revisions an appending one adds a single entry at the end of one history, an import's under its version or one made from its name and date; only an aggregating one may replace a history, any other leaves both alone. |
| `ImportHistory.ImportedVersionNeverLost` | internal/controller/mirrorimport_controller.go:333-354 | With current reads, an import that entered the history is Complete for good and its collection version stays listed in every later revision. |
| `ImportHistory.ListedVersionNeverLost` | internal/controller/disconnectedplatform_controller.go:444-465 | With current reads, once a collection version is in the import history it is in every later revision, so the base version check keeps succeeding. |
| `VersionChecks.LateImportNeverStarts` | internal/controller/mirrorimport_controller.go:87-111 | With current reads, once another import has entered a version into the history, an import of that version of which no reconcile has passed the version check never starts, so never completes, in any continuation. |
| `Completion.CanCompleteExactly` | internal/controller/mirrorimport_controller.go:46-173 | With current reads, from every reachable state, whatever its revisions and whatever reconciles are in flight, an import can still complete exactly when it has not failed and, if it has not started, it names no version, or there is no platform, or its version is not listed or can still be removed from the history, or a reconcile has already passed the check and its write is still current. |
| `Completion.StaysListedExactly` | internal/controller/disconnectedplatform_controller.go:444-465 | With current reads, a listed version is listed in every continuation exactly when a completed import brings it back in every aggregation (as its version or, without one, its name) and no reconcile holds a current write of an aggregate without it; so the made-up entries of imports without a version are the ones that go. |
| `DuplicateImports.BothComplete` | internal/controller/mirrorimport_controller.go:46-354 | The check is no lock: in every mode two imports of one version can be under way at once, both complete and both enter the history, finalizers included and without a crash. |
| `Claims.ClaimOfDefinition` | internal/controller/collectionpipeline_controller.go:677-704 | The claim a pipeline is meant to use meets the recursive definition (the parent's, else the root claim) and is unique. |
| `Claims.RunUsesItsClaim` | internal/controller/collectionpipeline_controller.go:787-809 | Every run created for a pipeline uses the claim of that recursive definition, although the code reads one parent only; it suffices that a reconcile does not see its parent go backwards. |
| `Claims.RunClaimByParts` | internal/controller/collectionpipeline_controller.go:677-704 | That claim read off the specs: collection-storage- and the base version of an incremental pipeline, else the pipeline's name; with a parent, the claim of the parent. |
| `Claims.FamilySharesClaim` | internal/controller/collectionpipeline_controller.go:681-690 | A run and every run of its pipeline's parent use the same claim. |
| `Claims.EarlyClaim` | internal/controller/collectionpipeline_controller.go:111-122 | The early expansion looks up the recorded claim, before there is one that named after the parent, the base version or the pipeline. |
| `Claims.CycleNeverRuns` | internal/controller/collectionpipeline_controller.go:193-230 | No pipeline on a parent cycle, a pipeline that is its own parent included, or below one ever gets a run. |
| `Versions.CompleteHasVersion` | internal/controller/collectionpipeline_controller.go:252-257 | With current reads and one reconcile per pipeline, every Complete revision has a version and a working claim. |
| `Volumes.RequestIsMaximum` | internal/controller/collectionpipeline_controller.go:713-766 | The requested size of a shared claim only grows and is always the maximum of the creation size and every size successfully asked for. |
| `Volumes.RequestOrderIrrelevant` | internal/controller/collectionpipeline_controller.go:111-138 | A corollary: two runs of the system that granted the same sizes leave the same request, whatever the order and interleaving. |
| `Volumes.RunHasRoom` | internal/controller/collectionpipeline_controller.go:1612-1617 | The claim of every collection run exists and requests at least the storage size of its pipeline. |
| `Volumes.WantedSize` | internal/controller/collectionpipeline_controller.go:1612-1617 | That size is the one of the spec, or 100Gi. |
| `Adoption.OrphanedExactly` | internal/controller/collectionpipeline_controller.go:284-324 | In every run of the system a PipelineRun of a pipeline or an import that is not deleted is orphaned (no revision ever named it, no reconcile holds it) exactly when one step of the list dropped it: its reconcile stopped while holding it, or its adoption was refused because the object had got a revision since it was read again. Otherwise exactly one of two holds: a revision names it, or one single reconcile holds it. |
| `Gates.RunPassedItsChecks` | internal/controller/collectionpipeline_controller.go:192-286 | In every run of the system and every mode, a pipeline's PipelineRun was created by a reconcile of the pipeline that had already read its parent in phase Complete, read the platform with the base version in its import history or no platform, and found no signing configuration to wait for, each where the spec asks for it. |
| `Gates.BaseVersionImported` | internal/controller/collectionpipeline_controller.go:232-250 | With current reads, an incremental pipeline has a run only if at some moment its base version was in the current import history or there was no platform. |
| `Orphans.OrphanReachable` | internal/controller/collectionpipeline_controller.go:284-324 | An instance: in every mode, the strictest included, a run is reachable that no revision ever named and no reconcile holds, left behind by a conflict at its adoption; the revisions for the finalizer and the ConfigMap are there. |
| `MirrorMerge.AppendUnseen` | internal/controller/disconnectedplatform_airgapped.go:1191-1202 | The nested loops append the mirrors that are not there yet, each once. |
| `MirrorMerge.MirrorTable.AddEntry` | internal/controller/disconnectedplatform_airgapped.go:1191-1208 | Adding an entry in place is appending a declaration to the log the table stands for. |
| `MirrorMerge.MirrorTable.AddSet` | internal/controller/disconnectedplatform_airgapped.go:1216-1232 | Of one set exactly the well-formed entries with an install-safe source are added, in order. |
| `MirrorMerge.MirrorTable.AddSets` | internal/controller/disconnectedplatform_airgapped.go:1210-1262 | The sets of a kind are added in list order. |
| `MirrorMerge.MirrorTable.Finish` | internal/controller/disconnectedplatform_airgapped.go:1264-1282 | Every source gets the managed registry with its own path, unless it is there, and the entries come out in order. |
| `MirrorMerge.MergeMirrors` | internal/controller/disconnectedplatform_airgapped.go:1165-1282 | The table of the listed sets is the merge of the digest declarations followed by the tag declarations, with the managed registry's host. |
| `MirrorMerge.MergedMeaning` | internal/controller/disconnectedplatform_airgapped.go:1165-1282 | For all inputs: the sources are the install-safe declared ones, each once, in order of first appearance; each mirror list is the first declaration verbatim, then unseen later mirrors once each in order, then the managed mirror if absent; digest-only exactly when some digest set declares the source. |
| `MirrorMerge.CollectedMeaning` | internal/controller/disconnectedplatform_airgapped.go:1191-1208 | A source's mirrors are its first declaration verbatim, extended by what its later declarations add. |
| `MirrorMerge.ManagedByParts` | internal/controller/disconnectedplatform_airgapped.go:1264-1282 | For a source host/path the managed mirror is the registry's part before its first slash, followed by /path; it is among the mirrors, and the last of them unless some set declares it. |
| `MirrorMerge.SafeByParts` | internal/controller/disconnectedplatform_airgapped.go:1176-1189 | A source host/path is install-safe exactly when the path is not empty, and has more than one component when the host is docker.io or index.docker.io; a source without a slash never is. |
| `MirrorMerge.SafeOnDockerHub` | internal/controller/disconnectedplatform_airgapped.go:1180-1187 | docker.io/x is refused, docker.io/x/y is not. |
| `MirrorMerge.DeclaredExactly` | internal/controller/disconnectedplatform_airgapped.go:1216-1232 | A set declares exactly its well-formed install-safe entries, in order, with all their mirrors. |
| `MirrorMerge.DeclaredInOrder` | internal/controller/disconnectedplatform_airgapped.go:1210-1262 | The sets of a kind are declared one after the other. |
| `RegistriesConf.Print` | internal/controller/disconnectedplatform_airgapped.go:1284-1299 | The string builder writes exactly the lines of the table, each ended by a newline. |
| `RegistriesConf.WriteEntry` | internal/controller/disconnectedplatform_airgapped.go:1288-1297 | One entry's lines follow what was written before. |
| `RegistriesConf.PrintedTableReadBack` | internal/controller/disconnectedplatform_airgapped.go:1284-1299 | Reading the printed text as TOML, escapes included, gives back sources, flags and mirrors in order, with empty prefixes and the two registries that short names are searched in, exactly when no string of the table contains a quote, a backslash or a control character other than tab. |
| `RegistriesConf.PrintInjective` | internal/controller/disconnectedplatform_airgapped.go:1284-1299 | Two such tables with the same text are the same table. |
| `SignaturePolicy.EffectivePolicies` | internal/controller/disconnectedplatform_airgapped.go:1730-1746 | The policies kept are exactly those with a key and a scope, in order; none is kept exactly when none has both. |
| `SignaturePolicy.ScopesMeaning` | internal/controller/disconnectedplatform_airgapped.go:1730-1746 | A scope with a key is among those built from exactly when some policy has that key, which is not empty, and that scope. |
| `SignaturePolicy.ScopesInOrder` | internal/controller/disconnectedplatform_airgapped.go:1785-1787 | Scopes come in the order of the policies and, within one, in its own. |
| `SignaturePolicy.MirrorMappings` | internal/controller/disconnectedplatform_airgapped.go:1754-1779 | The mappings are exactly the mirror-source pairs the digest sets declare. |
| `SignaturePolicy.AddScope` | internal/controller/disconnectedplatform_airgapped.go:1787-1817 | One round of the loop overwrites the scope's own key and the key of each of its mirrors, and no other. |
| `SignaturePolicy.BuildTransport` | internal/controller/disconnectedplatform_airgapped.go:1781-1823 | The transport holds every covered key with the requirement of the last scope that covers it, and the accepting default under the empty key. |
| `SignaturePolicy.BuildAttachments` | internal/controller/disconnectedplatform_airgapped.go:1845-1862 | The second pair of loops enters exactly the covered keys. |
| `SignaturePolicy.BuildOverride` | internal/controller/disconnectedplatform_airgapped.go:1714-1862 | Nothing is built exactly when no policy is effective; otherwise both maps speak for the keys covered by the policies' scopes and the declared mirrors. |
| `SignaturePolicy.FilesAgree` | internal/controller/disconnectedplatform_airgapped.go:1781-1862 | The keys of policy.json are the keys of registries.d and the empty key, for all policies and mappings. |
| `SignaturePolicy.OneSignatureEach` | internal/controller/disconnectedplatform_airgapped.go:1785-1817 | Each other key has exactly one requirement: exact matching from a policy with that scope, or a remapping whose prefix is the key itself and whose signed prefix is a policy scope with the key as a mirror. |
| `SignaturePolicy.NothingCoveredIsOpen` | internal/controller/disconnectedplatform_airgapped.go:1785-1823 | No scope and no mirror of one is accepted unsigned, except under the empty name. |
| `SignaturePolicy.OrderIrrelevant` | internal/controller/disconnectedplatform_airgapped.go:1785-1817 | Reordering policies, scopes and mappings changes a requirement only for a key that two different scopes cover. |
| `ImageReferences.NormalizeIdempotent` | internal/controller/collectionpipeline_controller.go:1340-1349 | The result always has a registry host; normalizing twice is normalizing once; a reference is unchanged exactly when it had a host. |
| `ImageReferences.NormalizeByParts` | internal/controller/collectionpipeline_controller.go:1340-1349 | A reference head/rest is left alone exactly when head has a dot or a colon or is localhost; any other, with or without a slash, is put under docker.io. |
| `ImageReferences.RewriteTarget` | internal/controller/collectionpipeline_controller.go:1579-1610 | The rewritten reference always lies under the intermediate registry, with the last path component of the original. |
| `ImageReferences.RewriteImage` | internal/controller/collectionpipeline_controller.go:1579-1610 | An image path/name, with or without the docker scheme and whatever its host, becomes registry/name. |
| `ImageReferences.RewriteWildcard` | internal/controller/collectionpipeline_controller.go:1599-1604 | A wildcard host/path/* becomes registry/path/*; without a host its whole reference is kept as the path. |
| `ImageReferences.RewriteIdempotentExactly` | internal/controller/collectionpipeline_controller.go:1579-1610 | For a registry with a host and no scheme, rewriting twice is rewriting once exactly when the last component is not * or the registry has no path part. |
| `ImageReferences.WildcardTwice` | internal/controller/collectionpipeline_controller.go:1599-1604 | What a second rewriting of a wildcard yields: the registry's path part is repeated. |
| `Enrichment.InjectMirrorOperator` | internal/controller/collectionpipeline_controller.go:1172-1221 | The loops find the first matching operator and add the package to it unless it has it, or append a new operator. |
| `Enrichment.InjectArchitectImages` | internal/controller/collectionpipeline_controller.go:1223-1264 | The wanted images that are not listed are appended in order. |
| `Enrichment.InjectRHCOSServerImage` | internal/controller/collectionpipeline_controller.go:1120-1160 | A server image is appended unless one of that registry is listed. |
| `Enrichment.Enrich` | internal/controller/collectionpipeline_controller.go:624-647 | The four stages in their order. |
| `Enrichment.OperatorsAfter` | internal/controller/collectionpipeline_controller.go:1172-1221 | All operators and packages of the user survive in order; at most one operator gains one trailing package, or one operator with that package alone is appended. |
| `Enrichment.ImagesAfter` | internal/controller/collectionpipeline_controller.go:1223-1264 | The user's images come first and in order, then the missing wanted images and at most one server image; afterwards every wanted image and a server image are there. |
| `Enrichment.ServerAdded` | internal/controller/collectionpipeline_controller.go:1120-1160 | A server image registry/rhcos-server:version is added exactly when no image of that registry and name is there, with the version as read after the earlier stages. |
| `Enrichment.MissedInOrder` | internal/controller/collectionpipeline_controller.go:1246-1256 | The missing wanted images are added in their order. |
| `Enrichment.MissedOne` | internal/controller/collectionpipeline_controller.go:1252-1256 | A wanted image is added exactly when it has a name and is not listed. |
| `Enrichment.ArchitectureAfter` | internal/controller/collectionpipeline_controller.go:1312-1334 | Channels, graph flag and helm section survive, and a platform section always ends with architectures. |
| `Enrichment.ArchitecturesExactly` | internal/controller/collectionpipeline_controller.go:1312-1334 | Architectures stay as they are, except that a missing list becomes amd64, and so does an empty one dropped by a typed stage; a typed stage also loses the fields it does not know. |
| `Enrichment.ChannelRetyped` | internal/controller/collectionpipeline_controller.go:1124-1155 | A typed stage writes a channel's name always and its versions when there are any, as strings. |
| `Enrichment.PackagePresent` | internal/controller/collectionpipeline_controller.go:1180-1193 | With an override, or with an OCP minor of at least 18, the operator package is present in a matching catalog. |
| `Enrichment.OperatorAdded` | internal/controller/collectionpipeline_controller.go:1172-1221 | The first operator of the override, or else of any community catalog, gains mirror-operator exactly when it lacks it; with none, an operator of the override or of the community catalog tagged v and the version is added with that package alone; without an override an unsupported version adds nothing. |
| `Enrichment.VersionExactly` | internal/controller/collectionpipeline_controller.go:1281-1310 | The version is made from the first channel's minVersion when that is a string, else it is what follows the last dash of its name when that is a string, else latest. |
| `Enrichment.MinVersionByParts` | internal/controller/collectionpipeline_controller.go:1290-1296 | Of a minVersion at most the first two numbers are kept. |
| `Enrichment.SupportedExactly` | internal/controller/collectionpipeline_controller.go:1186-1192 | A version major.minor has the operator exactly from minor 18 on; one without a minor never has. |
| `Enrichment.NumbersRead` | internal/controller/collectionpipeline_controller.go:1190-1191 | A minor is read with or without a sign as far as it fits into 64 bits. |
| `Enrichment.NotANumber` | internal/controller/collectionpipeline_controller.go:1190-1191 | A minor with any other character is no number. |
| `Enrichment.EnrichIdempotentExactly` | internal/controller/collectionpipeline_controller.go:624-647 | Enriching twice is enriching once exactly when no version surfaces, which is checked on the input: no override, architect images or a registry to add, a first version that reads as a minor of at least 18 only once its bare numbers are strings, and no catalog that already has the package. |
| `Enrichment.SurfacesMeaning` | internal/controller/collectionpipeline_controller.go:1172-1334 | That check holds exactly when the first stage changes nothing in the input but would in the retyped configuration that a later stage leaves. |
| `Enrichment.QuotedVersionsIdempotent` | internal/controller/collectionpipeline_controller.go:1281-1310 | Enriching is idempotent whenever the first channel's version and name are not bare numbers. |
| `Enrichment.BareVersionSurfaces` | internal/controller/collectionpipeline_controller.go:1281-1310 | The input that is not: minVersion 4.18 without quotes, with architect images to add. |
| `PullSecrets.MergePullSecrets` | internal/controller/disconnectedplatform_controller.go:6289-6340 | Whatever the order of iteration: the merged entries are the source's where they show differently or are new, else the present ones, and `changed` says whether there was such a host; a parse error on either side yields none. |
| `PullSecrets.Secrets.EnsurePullSecret` | internal/controller/disconnectedplatform_controller.go:5899-5961 | The operator secret, the number of writes and the restarts after one call, whichever of its calls to the server are refused. |
| `PullSecrets.Secrets.EnsureOSUSPullSecret` | internal/controller/disconnectedplatform_controller.go:5502-5619 | The copy, the account link and the cluster secret after one call, up to the call that is refused or fails. |
| `PullSecrets.Secrets.AddToClusterSecret` | internal/controller/disconnectedplatform_controller.go:5560-5616 | The robot login is written to the cluster secret unless it is there or the update is refused, and nothing else of it changes. |
| `PullSecrets.Secrets.Reconcile` | internal/controller/disconnectedplatform_controller.go:5502-5961 | A round, whichever calls are refused: the second call is made only after the first succeeded. |
| `PullSecrets.SettledAfterTwoRounds` | internal/controller/disconnectedplatform_controller.go:5502-5961 | From any contents the secrets are settled after two rounds; from then on a round writes and restarts nothing, exactly unless the source keeps another login for the registry and no round reaches the cluster secret, in which case every round restarts the backend. |
| `PullSecrets.SettledAfterRefusals` | internal/controller/disconnectedplatform_controller.go:5502-5961 | The same from wherever any number of rounds with any refused calls end: two rounds without a refusal settle everything. |
| `PullSecrets.NothingRefused` | internal/controller/disconnectedplatform_controller.go:5502-5961 | A round in which nothing is refused is the round these theorems are about. |
| `PullSecrets.RestartsEveryRound` | internal/controller/disconnectedplatform_controller.go:5938-5946 | That case occurs, with concrete secrets. |
| `PullSecrets.HostsKept` | internal/controller/disconnectedplatform_controller.go:6318-6330 | Over any number of rounds with any refused calls, a host that is absent from the source keeps its entry, and the cluster secret keeps every entry but the registry's. |
| `PullSecrets.AccountKept` | internal/controller/disconnectedplatform_controller.go:5541-5556 | Over any number of rounds with any refused calls the account keeps all its image pull secrets in order; at most pull-secret is added behind them, when it was not there. |
| `PullSecrets.SuccessLeaves` | internal/controller/disconnectedplatform_controller.go:5502-5961 | A successful round leaves the robot's login in the operator secret, an entry that shows like the source's for each other host of the source, and with the update service an exact copy linked to the account and the login in the cluster secret. |
| `PullSecrets.RestartsExactly` | internal/controller/disconnectedplatform_controller.go:5938-5961 | A round restarts the backend at most once: always when the content of an existing operator secret changes, never for a new one or the user's own; a round without writes changes nothing. |
| `Conditions.PlatformStatus.BeginReconcile` | internal/controller/disconnectedplatform_controller.go:215-220 | The phase starts as Ready, the conditions stay. |
| `Conditions.PlatformStatus.FailReconcile` | internal/controller/disconnectedplatform_controller.go:244-248 | A failing reconcile ends with phase Error and a Ready condition that is False with the reason and message; the other conditions stay. |
| `Conditions.PlatformStatus.SetErrorCondition` | internal/controller/disconnectedplatform_controller.go:8033-8068 | The first Ready condition is False with the reason and message, the other conditions stay, and its transition time moves only when the status does. |
| `Conditions.PlatformStatus.SetReadyCondition` | internal/controller/disconnectedplatform_controller.go:8070-8106 | The first Ready condition is True with the reason, message and generation, the other conditions stay, and its transition time moves only when the status does. |
| `Conditions.PlatformStatus.UpdateDegradedCondition` | internal/controller/disconnectedplatform_controller.go:7831-7861 | The first Degraded condition is True with the reason, and with the message unless nothing changed; the others stay, and the phase is Degraded unless it was Error. |
| `Conditions.PlatformStatus.ClearDegradedCondition` | internal/controller/disconnectedplatform_controller.go:7863-7890 | The first Degraded condition with that reason is False and healthy, nothing else of the conditions changes, and phase Degraded ends when none is left that is True. |
| `Conditions.ConditionsSound` | internal/controller/disconnectedplatform_controller.go:7831-7890 | Over any sequence of calls: one condition of each kind, and phase Degraded only with a Degraded condition that is True. |
| `Conditions.ReadyTransition` | internal/controller/disconnectedplatform_controller.go:8033-8106 | Ready's transition time is the time of the last call that created it or turned it over, or its first value when there was none. |
| `Conditions.ReadyIsLastReport` | internal/controller/disconnectedplatform_controller.go:8033-8106 | Over any sequence of calls Ready has the status, reason and message of the last call that sets an error or readiness, and is what it was while there is none. |
| `Conditions.ReadyOverDegradedExactly` | internal/controller/disconnectedplatform_controller.go:215-248 | A reconcile ends with phase Ready over a Degraded condition that is True exactly when no call fails, none reports a degradation, and it starts with a True Degraded condition whose reason no call clears. |
| `Expansion.VolumeClaim.AutoExpand` | internal/controller/disconnectedplatform_controller.go:2438-2535 | An update is tried exactly when the capacity is below the maximum and the pod has failed, is crash-looping, or runs with at least 80% used; once accepted the request is twice the capacity, at most the maximum. |
| `Expansion.ExpandsExactly` | internal/controller/disconnectedplatform_controller.go:2438-2513 | The specification of the call says the same for every pod and usage. |
| `Expansion.RequestsNeverShrinkExactly` | internal/controller/disconnectedplatform_controller.go:2515-2533 | With capacity never shrinking, no run ever lowers the request exactly when it starts within twice the capacity and the maximum, or the capacity is at the maximum. |
| `Expansion.InitialRequestWithinReach` | internal/controller/disconnectedplatform_controller.go:2515-2533 | An initial request of at most the capacity is such a start. |
| `Expansion.DoublingIsCapped` | internal/controller/disconnectedplatform_controller.go:2438-2535 | After any reconciles, k of which found the volume full, the request is exactly min(2^k * capacity, max); the maximum is reached after the least k with 2^k * capacity >= max and not before, and nothing is written afterwards. |
| `Expansion.NeededIsLeast` | internal/controller/disconnectedplatform_controller.go:2515-2520 | The number of expansions needed is the least k with 2^k * capacity >= max. |
| `Expansion.UnreportedCapacity` | internal/controller/disconnectedplatform_controller.go:2440-2445 | The start that is not: while no capacity is reported, a full volume is asked to shrink to nothing. |

## Left out

- Deletion of pipelines, imports and the platform, finalizers and the claim deletion in cleanup: every theorem is about
  objects that stay; hasChildPipelines and deleteWorkingPVC are not part of the model.
- What orphaned runs do once they are orphaned.
- Bundle URLs, start and completion times, conditions of pipelines and imports, and the run's parameters and tasks.
- Controllers.ReconcilePlatform: what the reconcile does before the history aggregation to other objects and to the other
  status fields is not modelled, and whether those fields changed is arbitrary.
- The order of list results is arbitrary, and with stale reads a list may miss objects.
- YAML and JSON text: configurations and secrets are parsed values. Reading a bare number into a string field is assumed
  to give its text, as sigs.k8s.io/yaml does, which is not part of this model. A pull secret whose document is `null` is
  left out.
- MirrorMerge.MergeMirrors: the early return for an empty mirror registry is the caller's.
- PullSecrets.Secrets.EnsurePullSecret: an update that is refused, by a conflict with another writer or otherwise, changes
  nothing; what that writer wrote is a new start. Other data keys of the secrets are left out. The text by which two
  entries are compared is an arbitrary function of them.
- Enrichment.Enrich: whether the architect and server stages apply, and which images they want, are parameters.
- ImageReferences.RewriteIdempotentExactly: asks for a registry with a host before its first slash and without a scheme;
  for other registries a second rewriting adds docker.io or cuts the scheme first.
- Expansion.VolumeClaim.AutoExpand: running df in the pod is a parameter.
- generateIntermediateImageSetConfig, Keycloak, Quay, OIDC and TUF calls, certificates, Tekton task bodies, OLM
  subscriptions, deployments, routes and services, ClusterBootstrap, the RHTAS health check, the node-registry manager:
  external effects or members with little to prove.
