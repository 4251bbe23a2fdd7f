/** The shared API objects. Every object is kept as the sequence of all its revisions: the index of a revision is
    its resourceVersion, the last one is the current object, and a stale read is a read at an earlier index. */
module Objects {
  datatype Option<+T> = None | Some(value: T)

  // ---------------------------------------------------------------- CollectionPipeline

  datatype Phase = Unset | Pending | Collecting | Complete | Succeeded | Failed | Stale

  /** `parent`, `baseVersion`: "" when unset. */
  datatype PipelineSpec = PipelineSpec(parent: string, incremental: bool, baseVersion: string, size: Option<nat>)

  datatype PipelineStatus =
    PipelineStatus(phase: Phase, version: string, runRef: string, claim: string, parentVersion: string)

  /** Why a revision was written. */
  datatype PipelineEvent =
    | Created
    | TriggerSet
    | TriggerCleared
    | TriggerRemoved
    | StatusReset
    | RunDropped
    | MarkedStale
    | Tracked
    | Rejected
    | ParentVersionCaptured
    | VersionAssigned
    | ClaimAssigned
    | RunAdopted
    | Touched

  datatype PipelineRevision = PipelineRevision(trigger: bool, status: PipelineStatus, event: PipelineEvent)

  datatype Pipeline = Pipeline(spec: PipelineSpec, revisions: seq<PipelineRevision>)

  const FRESH_STATUS := PipelineStatus(Unset, "", "", "", "")

  // ---------------------------------------------------------------- MirrorImport

  datatype ImportPhase = NotStarted | Importing | Publishing | Imported | ImportFailed

  datatype ImportSpec = ImportSpec(collectionVersion: string, created: nat, createdDate: string)

  datatype ImportStatus = ImportStatus(phase: ImportPhase, runRef: string)

  datatype Import = Import(spec: ImportSpec, revisions: seq<ImportStatus>)

  // ---------------------------------------------------------------- PipelineRun

  /** The status of a run only moves forward. */
  datatype Stage = Waiting | Started | Completed(succeeded: bool)

  datatype Owner = OfPipeline(name: string) | OfImport(name: string)

  datatype Run = Run(owner: Owner, claim: string, stage: Stage, deleted: bool)

  predicate NotLater(a: Stage, b: Stage) {
    a.Waiting? || (a.Started? && !b.Waiting?) || a == b
  }

  // ---------------------------------------------------------------- DisconnectedPlatform

  datatype Info = Info(version: string, timestamp: nat)

  /** One item of a list call: an object and the revision the list returned. */
  datatype Listed = Listed(name: string, at: nat)

  /** `importers`: the imports an aggregate entered; `list`, `now`: the pipelines it was computed from, and when; `names`:
      the imports. */
  datatype PlatformEvent =
    | Born
    | CollectionAppended(pipeline: string)
    | ImportAppended(name: string)
    | Aggregated(importers: seq<string>, list: seq<Listed>, now: nat, names: seq<Listed>)
    | Other

  datatype PlatformRevision = PlatformRevision(
    collections: seq<Info>, lastCollection: Option<Info>,
    imports: seq<Info>, lastImport: Option<Info>, event: PlatformEvent)

  // ---------------------------------------------------------------- PersistentVolumeClaim

  /** `sizes`: the requested size at each revision; `granted`: every size some reconcile asked for and got. */
  datatype Volume = Volume(sizes: seq<nat>, granted: seq<nat>)

  // ---------------------------------------------------------------- the store

  datatype Store = Store(
    pipelines: map<string, Pipeline>,
    imports: map<string, Import>,
    runs: map<string, Run>,
    platform: seq<PlatformRevision>,
    volumes: map<string, Volume>)

  const EMPTY_STORE := Store(map[], map[], map[], [], map[])

  function Last<T>(s: seq<T>): T
    requires |s| > 0
  {
    s[|s| - 1]
  }

  ghost predicate VersionListed(history: seq<Info>, version: string) {
    exists k :: 0 <= k < |history| && history[k].version == version
  }

  function CurrentPipeline(store: Store, name: string): PipelineRevision
    requires name in store.pipelines && |store.pipelines[name].revisions| > 0
  {
    Last(store.pipelines[name].revisions)
  }

  function CurrentImport(store: Store, name: string): ImportStatus
    requires name in store.imports && |store.imports[name].revisions| > 0
  {
    Last(store.imports[name].revisions)
  }

  // ---------------------------------------------------------------- guarded writes

  /** An update carrying the resourceVersion `base` of the copy it was computed from. */
  datatype Write =
    | WritePipeline(name: string, base: nat, pipeline: PipelineRevision)
    | WriteImport(name: string, base: nat, status: ImportStatus)
    | WritePlatform(base: nat, platform: PlatformRevision)
    | WriteVolume(name: string, base: nat, size: nat)

  predicate Targets(store: Store, w: Write) {
    match w
    case WritePipeline(name, base, _) => name in store.pipelines && base < |store.pipelines[name].revisions|
    case WriteImport(name, base, _) => name in store.imports && base < |store.imports[name].revisions|
    case WritePlatform(base, _) => base < |store.platform|
    case WriteVolume(name, base, _) => name in store.volumes && base < |store.volumes[name].sizes|
  }

  /** The server accepts a write only while the revision it is based on is still the current one. */
  predicate Accepts(store: Store, w: Write)
    requires Targets(store, w)
  {
    match w
    case WritePipeline(name, base, _) => base + 1 == |store.pipelines[name].revisions|
    case WriteImport(name, base, _) => base + 1 == |store.imports[name].revisions|
    case WritePlatform(base, _) => base + 1 == |store.platform|
    case WriteVolume(name, base, _) => base + 1 == |store.volumes[name].sizes|
  }

  function AppendPipeline(store: Store, name: string, revision: PipelineRevision): Store
    requires name in store.pipelines
  {
    var p := store.pipelines[name];
    store.(pipelines := store.pipelines[name := p.(revisions := p.revisions + [revision])])
  }

  function AppendImport(store: Store, name: string, status: ImportStatus): Store
    requires name in store.imports
  {
    var i := store.imports[name];
    store.(imports := store.imports[name := i.(revisions := i.revisions + [status])])
  }

  function AppendPlatform(store: Store, revision: PlatformRevision): Store {
    store.(platform := store.platform + [revision])
  }

  function Grant(store: Store, name: string, size: nat): Store
    requires name in store.volumes
  {
    var v := store.volumes[name];
    store.(volumes := store.volumes[name := v.(granted := v.granted + [size])])
  }

  function GrowVolume(store: Store, name: string, size: nat): Store
    requires name in store.volumes
  {
    var v := store.volumes[name];
    store.(volumes := store.volumes[name := Volume(v.sizes + [size], v.granted + [size])])
  }

  function Perform(store: Store, w: Write): Store
    requires Targets(store, w)
  {
    match w
    case WritePipeline(name, _, revision) => AppendPipeline(store, name, revision)
    case WriteImport(name, _, status) => AppendImport(store, name, status)
    case WritePlatform(_, revision) => AppendPlatform(store, revision)
    case WriteVolume(name, _, size) => GrowVolume(store, name, size)
  }

  /** The server's answer to a write: the appended revision, or a conflict that changes nothing. */
  function Settle(store: Store, w: Write): Store
    requires Targets(store, w)
  {
    if Accepts(store, w) then Perform(store, w) else store
  }

  // ---------------------------------------------------------------- growth

  ghost predicate PipelinesGrow(a: map<string, Pipeline>, b: map<string, Pipeline>) {
    forall n :: n in a ==> n in b && a[n].spec == b[n].spec && a[n].revisions <= b[n].revisions
  }

  ghost predicate ImportsGrow(a: map<string, Import>, b: map<string, Import>) {
    forall n :: n in a ==> n in b && a[n].spec == b[n].spec && a[n].revisions <= b[n].revisions
  }

  ghost predicate RunsGrow(a: map<string, Run>, b: map<string, Run>) {
    forall r :: r in a ==> r in b && a[r].owner == b[r].owner && a[r].claim == b[r].claim
                           && NotLater(a[r].stage, b[r].stage) && (a[r].deleted ==> b[r].deleted)
  }

  ghost predicate VolumesGrow(a: map<string, Volume>, b: map<string, Volume>) {
    forall v :: v in a ==> v in b && a[v].sizes <= b[v].sizes && a[v].granted <= b[v].granted
  }

  /** Revisions are only ever appended, specs never change, runs only move forward. */
  ghost predicate Grows(a: Store, b: Store) {
    && PipelinesGrow(a.pipelines, b.pipelines)
    && ImportsGrow(a.imports, b.imports)
    && RunsGrow(a.runs, b.runs)
    && a.platform <= b.platform
    && VolumesGrow(a.volumes, b.volumes)
  }
}
