/** The three reconcilers as programs: where each of them stands between two API calls, and the local decisions
    it takes there. An API call is a step of Protocol; everything here is computation on the local copy. */
module Reconcilers {
  import opened Objects

  /** getStorageSize's 100Gi, in bytes. */
  const DEFAULT_SIZE: nat := 107374182400

  function SizeOf(spec: PipelineSpec): nat {
    if spec.size.Some? then spec.size.value else DEFAULT_SIZE
  }

  function OwnClaim(name: string): string {
    "collection-storage-" + name
  }

  /** The working claim of a pipeline without a parent. */
  function RootClaim(name: string, spec: PipelineSpec): string {
    if spec.incremental && spec.baseVersion != "" then OwnClaim(spec.baseVersion) else OwnClaim(name)
  }

  /** The claim looked up by the early expansion, before the claim is known. */
  function ExpandClaim(name: string, spec: PipelineSpec, status: PipelineStatus): string {
    if status.claim != "" then status.claim
    else if spec.parent != "" then OwnClaim(spec.parent)
    else RootClaim(name, spec)
  }

  /** collectionPipelineRunPhase */
  function RunPhase(stage: Stage): Phase {
    match stage
    case Waiting => Pending
    case Started => Collecting
    case Completed(succeeded) => if succeeded then Complete else Failed
  }

  /** The guard under which the trigger annotation is consumed. */
  predicate Restartable(status: PipelineStatus) {
    status.runRef != "" && (status.phase.Succeeded? || status.phase.Complete? || status.phase.Failed? || status.phase.Stale?)
  }

  // ---------------------------------------------------------------- CollectionPipeline

  datatype PipelineNext =
    | ThenReset | ThenHistory | ThenBase | ThenClaim | ThenVolume | ThenReference | ThenCreate | ThenReturn

  datatype PipelinePc =
    | AtExpand
    | AtRun
    | AtTrack
    | AtDrop
    | AtHistory
    | AtParent
    | AtBase
    | AtVersion
    | AtParentClaim
    | AtVolume
    | AtSigning
    | AtCreate
    | AtAdopt(run: string)
    | AtDuplicate(run: string)
    | PipelineWriting(write: Write, next: PipelineNext)

  // ---------------------------------------------------------------- MirrorImport

  datatype ImportNext = ThenAppend | ThenEnd

  datatype ImportPc =
    | AtVersionCheck
    | AtImportRun
    | AtImportCreate
    | AtImportAdopt(run: string)
    | AtImportDuplicate(run: string)
    | AtAppend
    | ImportWriting(write: Write, next: ImportNext)

  // ---------------------------------------------------------------- DisconnectedPlatform

  datatype PlatformPc =
    | AtPipelineList
    | AtImportList(collections: seq<Info>, list: seq<Listed>, time: nat)
    | PlatformWriting(write: Write)

  /** A reconcile in flight. `at`: the revision its local copy was read at or last wrote; `seen`: the revision of the
      parent at which the parent was found complete. */
  datatype Proc =
    | PipelineProc(name: string, at: nat, seen: nat, pipelinePc: PipelinePc)
    | ImportProc(name: string, at: nat, importPc: ImportPc)
    | PlatformProc(at: nat, platformPc: PlatformPc)

  // ---------------------------------------------------------------- local decisions of the pipeline reconciler

  function SaveStatus(name: string, at: nat, copy: PipelineRevision, status: PipelineStatus, event: PipelineEvent,
                      next: PipelineNext): PipelinePc
  {
    PipelineWriting(WritePipeline(name, at, PipelineRevision(copy.trigger, status, event)), next)
  }

  function OnRead(name: string, spec: PipelineSpec, at: nat, copy: PipelineRevision): PipelinePc {
    if copy.trigger && Restartable(copy.status) then
      PipelineWriting(WritePipeline(name, at, copy.(trigger := false, event := TriggerRemoved)), ThenReset)
    else if spec.size.Some? then AtExpand
    else OnReference(name, spec, at, copy)
  }

  function OnReference(name: string, spec: PipelineSpec, at: nat, copy: PipelineRevision): PipelinePc {
    if copy.status.runRef != "" then AtRun
    else if spec.parent != "" then AtParent
    else OnBase(name, spec, at, copy)
  }

  function OnBase(name: string, spec: PipelineSpec, at: nat, copy: PipelineRevision): PipelinePc {
    if spec.incremental && spec.baseVersion != "" then AtBase else OnVersion(name, spec, at, copy)
  }

  function OnVersion(name: string, spec: PipelineSpec, at: nat, copy: PipelineRevision): PipelinePc {
    if copy.status.version == "" then AtVersion else OnClaim(name, spec, at, copy)
  }

  function OnClaim(name: string, spec: PipelineSpec, at: nat, copy: PipelineRevision): PipelinePc {
    if spec.parent != "" then AtParentClaim else OnClaimKnown(name, at, copy, RootClaim(name, spec))
  }

  function OnClaimKnown(name: string, at: nat, copy: PipelineRevision, claim: string): PipelinePc {
    if copy.status.claim != claim then
      SaveStatus(name, at, copy, copy.status.(claim := claim), ClaimAssigned, ThenVolume)
    else AtVolume
  }

  /** Where the reconcile continues after an accepted write; `copy` is the local copy, now at revision `at`. */
  function OnAccepted(name: string, spec: PipelineSpec, at: nat, copy: PipelineRevision, next: PipelineNext)
    : Option<PipelinePc>
  {
    match next
    case ThenReset =>
      Some(SaveStatus(name, at, copy, copy.status.(runRef := "", version := "", phase := Unset), StatusReset, ThenReturn))
    case ThenHistory => Some(AtHistory)
    case ThenBase => Some(OnBase(name, spec, at, copy))
    case ThenClaim => Some(OnClaim(name, spec, at, copy))
    case ThenVolume => Some(AtVolume)
    case ThenReference => Some(OnReference(name, spec, at, copy))
    case ThenCreate => Some(AtSigning)
    case ThenReturn => None
  }

  // ---------------------------------------------------------------- local decisions of the import reconciler

  function OnImportRead(name: string, spec: ImportSpec, at: nat, copy: ImportStatus): Option<ImportPc> {
    match copy.phase
    case NotStarted =>
      if spec.collectionVersion != "" then Some(AtVersionCheck)
      else Some(ImportWriting(WriteImport(name, at, copy.(phase := Importing)), ThenEnd))
    case Importing => Some(if copy.runRef != "" then AtImportRun else AtImportCreate)
    case Publishing => Some(ImportWriting(WriteImport(name, at, copy.(phase := Imported)), ThenAppend))
    case Imported => None
    case ImportFailed => None
  }

  /** The version updatePlatformImportHistory appends. */
  function AppendedVersion(name: string, spec: ImportSpec): string {
    if spec.collectionVersion != "" then spec.collectionVersion else "import-" + name + "-" + spec.createdDate
  }

  /** The version the platform reconciler aggregates. */
  function AggregatedVersion(name: string, spec: ImportSpec): string {
    if spec.collectionVersion != "" then spec.collectionVersion else name
  }

  // ---------------------------------------------------------------- aggregation

  predicate Contributes(status: PipelineStatus) {
    status.version != "" && (status.phase.Complete? || status.phase.Succeeded?)
  }

  ghost predicate ValidPipelineList(pipelines: map<string, Pipeline>, list: seq<Listed>) {
    && (forall k :: 0 <= k < |list| ==> list[k].name in pipelines && list[k].at < |pipelines[list[k].name].revisions|)
    && (forall j, k :: 0 <= j < k < |list| ==> list[j].name != list[k].name)
  }

  ghost predicate ValidImportList(imports: map<string, Import>, list: seq<Listed>) {
    && (forall k :: 0 <= k < |list| ==> list[k].name in imports && list[k].at < |imports[list[k].name].revisions|)
    && (forall j, k :: 0 <= j < k < |list| ==> list[j].name != list[k].name)
  }

  ghost function CollectVersions(pipelines: map<string, Pipeline>, list: seq<Listed>, now: nat): seq<Info>
    requires ValidPipelineList(pipelines, list)
  {
    if |list| == 0 then [] else
      var rest := CollectVersions(pipelines, list[..|list| - 1], now);
      var status := pipelines[Last(list).name].revisions[Last(list).at].status;
      if Contributes(status) then rest + [Info(status.version, now)] else rest
  }

  /** The names of the completed imports of a list, in list order. */
  ghost function Importers(imports: map<string, Import>, list: seq<Listed>): seq<string>
    requires ValidImportList(imports, list)
  {
    if |list| == 0 then [] else
      var rest := Importers(imports, list[..|list| - 1]);
      if imports[Last(list).name].revisions[Last(list).at].phase.Imported? then rest + [Last(list).name] else rest
  }

  ghost function ImportInfos(imports: map<string, Import>, names: seq<string>): seq<Info>
    requires forall k :: 0 <= k < |names| ==> names[k] in imports
  {
    seq(|names|, k requires 0 <= k < |names| =>
      Info(AggregatedVersion(names[k], imports[names[k]].spec), imports[names[k]].spec.created))
  }

  /** An empty aggregate leaves the history as it was. */
  function AggregatedRevision(copy: PlatformRevision, collections: seq<Info>, imports: seq<Info>,
                              importers: seq<string>, list: seq<Listed>, now: nat, names: seq<Listed>): PlatformRevision
  {
    PlatformRevision(
      if |collections| > 0 then collections else copy.collections,
      if |collections| > 0 then Some(Last(collections)) else copy.lastCollection,
      if |imports| > 0 then imports else copy.imports,
      if |imports| > 0 then Some(Last(imports)) else copy.lastImport,
      Aggregated(importers, list, now, names))
  }

  function CollectionAppendedRevision(copy: PlatformRevision, name: string, version: string, now: nat): PlatformRevision {
    copy.(collections := copy.collections + [Info(version, now)],
          lastCollection := Some(Info(version, now)),
          event := CollectionAppended(name))
  }

  function ImportAppendedRevision(copy: PlatformRevision, name: string, version: string, now: nat): PlatformRevision {
    copy.(imports := copy.imports + [Info(version, now)],
          lastImport := Some(Info(version, now)),
          event := ImportAppended(name))
  }
}
