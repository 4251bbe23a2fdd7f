/** Any number of reconciles of the three controllers, interleaved with each other and with the users and Tekton.
    One step is one API call together with the local computation up to the next one. */
module Protocol {
  import opened Objects
  import opened Reconcilers

  /** What a read may return: any earlier revision, any earlier revision except that a reconcile never sees its parent
      go backwards, or the current revision only. */
  datatype View = AnyReads | MonotoneReads | CurrentReads

  /** `exclusive`: at most one reconcile at a time per pipeline. */
  datatype Mode = Mode(view: View, exclusive: bool)

  datatype State = State(store: Store, procs: map<nat, Proc>)

  const INITIAL := State(EMPTY_STORE, map[])

  datatype Step =
    // users, Tekton and writers of fields outside the model
    | CreatePipeline(name: string, spec: PipelineSpec, trigger: bool)
    | SetTrigger(name: string)
    | ClearTrigger(name: string)
    | TouchPipeline(name: string)
    | CreateImport(name: string, importSpec: ImportSpec)
    | TouchImport(name: string)
    | CreatePlatform
    | TouchPlatform
    | AdvanceRun(run: string, reached: Stage)
    | DeleteRun(run: string)
    // any reconcile: return, fail or crash; issue the prepared write
    | Stop(id: nat)
    | Commit(id: nat)
    // the first read of a reconcile
    | BeginPipeline(id: nat, name: string, at: nat)
    | BeginImport(id: nat, name: string, at: nat)
    | BeginPlatform(id: nat, at: nat)
    // later calls; `found` is None when the object was not found
    | ReadVolume(id: nat, found: Option<nat>)
    | ReadRun(id: nat, observed: Option<Stage>, signingChanged: bool)
    | DropRun(id: nat)
    | TrackRun(id: nat, observed: Option<Stage>)
    | ReadParent(id: nat, found: Option<nat>)
    | ReadPlatform(id: nat, found: Option<nat>, now: nat)
    | PickVersion(id: nat, version: string)
    | CheckSigning(id: nat, found: Option<nat>, waits: bool)
    | CreateRun(id: nat, run: string)
    | ReadLatest(id: nat, at: nat)
    | DeleteDuplicate(id: nat)
    | ListPipelines(id: nat, list: seq<Listed>, now: nat)
    | ListImports(id: nat, list: seq<Listed>)
    | SkipUpdate(id: nat)

  predicate Environment(step: Step) {
    step.CreatePipeline? || step.SetTrigger? || step.ClearTrigger? || step.TouchPipeline? || step.CreateImport?
    || step.TouchImport? || step.CreatePlatform? || step.TouchPlatform? || step.AdvanceRun? || step.DeleteRun?
  }

  predicate Begins(step: Step) {
    step.BeginPipeline? || step.BeginImport? || step.BeginPlatform?
  }

  // ---------------------------------------------------------------- environment

  predicate EnvironmentApplies(store: Store, step: Step)
    requires Environment(step)
  {
    match step
    case CreatePipeline(name, _, _) => name !in store.pipelines
    case SetTrigger(name) => name in store.pipelines && |store.pipelines[name].revisions| > 0
    case ClearTrigger(name) => name in store.pipelines && |store.pipelines[name].revisions| > 0
    case TouchPipeline(name) => name in store.pipelines && |store.pipelines[name].revisions| > 0
    case CreateImport(name, _) => name !in store.imports
    case TouchImport(name) => name in store.imports && |store.imports[name].revisions| > 0
    case CreatePlatform => |store.platform| == 0
    case TouchPlatform => |store.platform| > 0
    case AdvanceRun(run, stage) => run in store.runs && NotLater(store.runs[run].stage, stage)
    case DeleteRun(run) => run in store.runs
  }

  function MarkDeleted(store: Store, run: string): Store
    requires run in store.runs
  {
    store.(runs := store.runs[run := store.runs[run].(deleted := true)])
  }

  function EnvironmentStep(store: Store, step: Step): Store
    requires Environment(step) && EnvironmentApplies(store, step)
  {
    match step
    case CreatePipeline(name, spec, trigger) =>
      store.(pipelines := store.pipelines[name := Pipeline(spec, [PipelineRevision(trigger, FRESH_STATUS, Created)])])
    case SetTrigger(name) =>
      AppendPipeline(store, name, CurrentPipeline(store, name).(trigger := true, event := TriggerSet))
    case ClearTrigger(name) =>
      AppendPipeline(store, name, CurrentPipeline(store, name).(trigger := false, event := TriggerCleared))
    case TouchPipeline(name) =>
      AppendPipeline(store, name, CurrentPipeline(store, name).(event := Touched))
    case CreateImport(name, spec) =>
      store.(imports := store.imports[name := Import(spec, [ImportStatus(NotStarted, "")])])
    case TouchImport(name) =>
      AppendImport(store, name, CurrentImport(store, name))
    case CreatePlatform =>
      AppendPlatform(store, PlatformRevision([], None, [], None, Born))
    case TouchPlatform =>
      AppendPlatform(store, Last(store.platform).(event := Other))
    case AdvanceRun(run, stage) =>
      store.(runs := store.runs[run := store.runs[run].(stage := stage)])
    case DeleteRun(run) =>
      MarkDeleted(store, run)
  }

  // ---------------------------------------------------------------- where the reconciles are

  predicate ProcValid(store: Store, proc: Proc) {
    match proc
    case PipelineProc(name, at, _, pc) =>
      && name in store.pipelines && at < |store.pipelines[name].revisions|
      && (pc.PipelineWriting? ==>
            && Targets(store, pc.write)
            && !pc.write.WriteImport?
            && (pc.write.WritePipeline? ==> pc.write.name == name))
    case ImportProc(name, at, pc) =>
      && name in store.imports && at < |store.imports[name].revisions|
      && (pc.ImportWriting? ==>
            && Targets(store, pc.write)
            && (pc.write.WriteImport? || pc.write.WritePlatform?)
            && (pc.write.WriteImport? ==> pc.write.name == name))
    case PlatformProc(at, pc) =>
      && at < |store.platform|
      && (pc.PlatformWriting? ==> Targets(store, pc.write) && pc.write.WritePlatform?)
  }

  function Copy(store: Store, proc: Proc): PipelineRevision
    requires proc.PipelineProc? && ProcValid(store, proc)
  {
    store.pipelines[proc.name].revisions[proc.at]
  }

  function SpecOf(store: Store, proc: Proc): PipelineSpec
    requires proc.PipelineProc? && ProcValid(store, proc)
  {
    store.pipelines[proc.name].spec
  }

  /** The claim a pipeline reconcile looks up when it reads a volume. */
  function VolumeName(store: Store, proc: Proc): string
    requires proc.PipelineProc? && ProcValid(store, proc)
  {
    if proc.pipelinePc.AtExpand? then ExpandClaim(proc.name, SpecOf(store, proc), Copy(store, proc).status)
    else Copy(store, proc).status.claim
  }

  // ---------------------------------------------------------------- the pipeline reconciler

  /** A call returned: the new store, and the reconcile unless it ended. */
  datatype Outcome = Outcome(store: Store, proc: Option<Proc>)

  /** The server's answers the reconcile may get to reading its claim. */
  predicate VolumeReadable(store: Store, proc: Proc, found: Option<nat>)
    requires proc.PipelineProc? && ProcValid(store, proc)
  {
    var pc := proc.pipelinePc;
    var spec := SpecOf(store, proc);
    var volume := VolumeName(store, proc);
    && (pc.AtExpand? || pc.AtVolume?)
    && (pc.AtExpand? ==> spec.size.Some?)
    && (found.Some? ==> volume in store.volumes && found.value < |store.volumes[volume].sizes|)
  }

  predicate ParentReadable(store: Store, proc: Proc, found: Option<nat>)
    requires proc.PipelineProc? && ProcValid(store, proc)
  {
    var parent := SpecOf(store, proc).parent;
    && (proc.pipelinePc.AtParent? || proc.pipelinePc.AtParentClaim?)
    && (found.Some? ==> parent in store.pipelines && found.value < |store.pipelines[parent].revisions|)
  }

  predicate PlatformReadable(store: Store, found: Option<nat>) {
    found.Some? ==> found.value < |store.platform|
  }

  predicate PipelineApplies(store: Store, proc: Proc, step: Step)
    requires proc.PipelineProc? && ProcValid(store, proc)
  {
    var pc := proc.pipelinePc;
    match step
    case Commit(_) => pc.PipelineWriting?
    case ReadVolume(_, found) => VolumeReadable(store, proc, found)
    case ReadRun(_, _, _) => pc.AtRun?
    case DropRun(_) => pc.AtDrop? && Copy(store, proc).status.runRef in store.runs
    case TrackRun(_, _) => pc.AtTrack?
    case ReadParent(_, found) => ParentReadable(store, proc, found)
    case ReadPlatform(_, found, _) => (pc.AtHistory? || pc.AtBase?) && PlatformReadable(store, found)
    case PickVersion(_, version) => pc.AtVersion? && version != ""
    case CheckSigning(_, found, waits) => pc.AtSigning? && PlatformReadable(store, found) && (waits ==> found.Some?)
    case CreateRun(_, run) => pc.AtCreate? && run !in store.runs && run != ""
    case ReadLatest(_, at) => pc.AtAdopt? && at < |store.pipelines[proc.name].revisions|
    case DeleteDuplicate(_) => pc.AtDuplicate?
    case _ => false
  }

  ghost function PipelineStep(store: Store, proc: Proc, step: Step): Outcome
    requires proc.PipelineProc? && ProcValid(store, proc) && PipelineApplies(store, proc, step)
  {
    match step
    case Commit(_) => PipelineCommit(store, proc)
    case ReadVolume(_, found) => VolumeRead(store, proc, found)
    case ReadRun(_, observed, signingChanged) =>
      Outcome(store, Some(proc.(pipelinePc := if observed == Some(Waiting) && signingChanged then AtDrop else AtTrack)))
    case DropRun(_) => RunDrop(store, proc)
    case TrackRun(_, observed) => RunTrack(store, proc, observed)
    case ReadParent(_, found) => ParentRead(store, proc, found)
    case ReadPlatform(_, found, now) =>
      if proc.pipelinePc.AtHistory? then CollectionAppend(store, proc, found, now) else BaseCheck(store, proc, found)
    case PickVersion(_, version) => VersionPick(store, proc, version)
    case CheckSigning(_, _, waits) => Outcome(store, if waits then None else Some(proc.(pipelinePc := AtCreate)))
    case CreateRun(_, run) =>
      Outcome(store.(runs := store.runs[run := Run(OfPipeline(proc.name), Copy(store, proc).status.claim, Waiting, false)]),
              Some(proc.(pipelinePc := AtAdopt(run))))
    case ReadLatest(_, at) => RunAdopt(store, proc, at)
    case DeleteDuplicate(_) => Outcome(Discard(store, proc.pipelinePc.run), None)
  }

  function Discard(store: Store, run: string): Store {
    if run in store.runs then MarkDeleted(store, run) else store
  }

  /** The early expansion, and ensurePVC's create-or-expand. A missing claim may be created only by a pipeline that uses
      one of its own, and is not when another reconcile was first. */
  function VolumeRead(store: Store, proc: Proc, found: Option<nat>): Outcome
    requires proc.PipelineProc? && ProcValid(store, proc) && VolumeReadable(store, proc, found)
  {
    var early := proc.pipelinePc.AtExpand?;
    var spec := SpecOf(store, proc);
    var volume := VolumeName(store, proc);
    var next := if early then OnReference(proc.name, spec, proc.at, Copy(store, proc)) else AtSigning;
    match found
    case None =>
      if early then Outcome(store, Some(proc.(pipelinePc := next)))
      else if spec.incremental || spec.parent != "" || volume in store.volumes then Outcome(store, None)
      else
        Outcome(store.(volumes := store.volumes[volume := Volume([SizeOf(spec)], [SizeOf(spec)])]),
                Some(proc.(pipelinePc := next)))
    case Some(k) =>
      if SizeOf(spec) > store.volumes[volume].sizes[k] then
        Outcome(store, Some(proc.(pipelinePc := PipelineWriting(WriteVolume(volume, k, SizeOf(spec)),
                                                                if early then ThenReference else ThenCreate))))
      else
        Outcome(Grant(store, volume, SizeOf(spec)), Some(proc.(pipelinePc := next)))
  }

  /** The signing configuration changed before the run started: delete the run, then reset the status. */
  function RunDrop(store: Store, proc: Proc): Outcome
    requires proc.PipelineProc? && ProcValid(store, proc) && Copy(store, proc).status.runRef in store.runs
  {
    var copy := Copy(store, proc);
    Outcome(MarkDeleted(store, copy.status.runRef),
            Some(proc.(pipelinePc := SaveStatus(proc.name, proc.at, copy, copy.status.(runRef := "", phase := Unset),
                                                RunDropped, ThenReturn))))
  }

  /** trackPipelineRun */
  function RunTrack(store: Store, proc: Proc, observed: Option<Stage>): Outcome
    requires proc.PipelineProc? && ProcValid(store, proc)
  {
    var copy := Copy(store, proc);
    Outcome(store, Some(proc.(pipelinePc :=
      match observed
      case None =>
        SaveStatus(proc.name, proc.at, copy, copy.status.(runRef := "", phase := Stale), MarkedStale, ThenReturn)
      case Some(stage) =>
        SaveStatus(proc.name, proc.at, copy, copy.status.(phase := RunPhase(stage)), Tracked,
                   if RunPhase(stage).Complete? then ThenHistory else ThenReturn))))
  }

  /** updatePlatformCollectionHistory */
  function CollectionAppend(store: Store, proc: Proc, found: Option<nat>, now: nat): Outcome
    requires proc.PipelineProc? && ProcValid(store, proc) && PlatformReadable(store, found)
  {
    match found
    case None => Outcome(store, None)
    case Some(k) =>
      Outcome(store, Some(proc.(pipelinePc := PipelineWriting(
        WritePlatform(k, CollectionAppendedRevision(store.platform[k], proc.name, Copy(store, proc).status.version, now)),
        ThenReturn))))
  }

  /** The base version of an incremental collection must have been imported. */
  ghost function BaseCheck(store: Store, proc: Proc, found: Option<nat>): Outcome
    requires proc.PipelineProc? && ProcValid(store, proc) && PlatformReadable(store, found)
  {
    var spec := SpecOf(store, proc);
    var copy := Copy(store, proc);
    Outcome(store, Some(proc.(pipelinePc :=
      if found.Some? && !VersionListed(store.platform[found.value].imports, spec.baseVersion) then
        SaveStatus(proc.name, proc.at, copy, copy.status.(phase := Failed), Rejected, ThenReturn)
      else OnVersion(proc.name, spec, proc.at, copy))))
  }

  function VersionPick(store: Store, proc: Proc, version: string): Outcome
    requires proc.PipelineProc? && ProcValid(store, proc)
  {
    var copy := Copy(store, proc);
    Outcome(store, Some(proc.(pipelinePc :=
      SaveStatus(proc.name, proc.at, copy, copy.status.(version := version), VersionAssigned, ThenClaim))))
  }

  /** After the run was created: refetch, and either adopt it or give way to the run another reconcile recorded. */
  function RunAdopt(store: Store, proc: Proc, k: nat): Outcome
    requires proc.PipelineProc? && ProcValid(store, proc) && proc.pipelinePc.AtAdopt?
    requires k < |store.pipelines[proc.name].revisions|
  {
    var run := proc.pipelinePc.run;
    var latest := store.pipelines[proc.name].revisions[k];
    Outcome(store, Some(proc.(pipelinePc :=
      if latest.status.runRef != "" && latest.status.runRef != run then AtDuplicate(run)
      else SaveStatus(proc.name, k, latest, latest.status.(runRef := run, phase := Pending), RunAdopted, ThenReturn))))
  }

  function PipelineCommit(store: Store, proc: Proc): Outcome
    requires proc.PipelineProc? && ProcValid(store, proc) && proc.pipelinePc.PipelineWriting?
  {
    var w := proc.pipelinePc.write;
    var at := if w.WritePipeline? then w.base + 1 else proc.at;
    var copy := if w.WritePipeline? then w.pipeline else Copy(store, proc);
    var continued := OnAccepted(proc.name, SpecOf(store, proc), at, copy, proc.pipelinePc.next);
    Outcome(Settle(store, w),
            if !Accepts(store, w) || continued.None? then None
            else Some(proc.(at := at, pipelinePc := continued.value)))
  }

  function ParentRead(store: Store, proc: Proc, found: Option<nat>): Outcome
    requires proc.PipelineProc? && ProcValid(store, proc) && ParentReadable(store, proc, found)
  {
    var name := proc.name;
    var at := proc.at;
    var spec := SpecOf(store, proc);
    var copy := Copy(store, proc);
    if proc.pipelinePc.AtParent? then
      match found
      case None =>
        Outcome(store, Some(proc.(pipelinePc :=
          SaveStatus(name, at, copy, copy.status.(phase := Failed), Rejected, ThenReturn))))
      case Some(k) =>
        var parent := store.pipelines[spec.parent].revisions[k].status;
        if !parent.phase.Complete? then Outcome(store, None)
        else if copy.status.parentVersion == "" then
          Outcome(store, Some(proc.(seen := k, pipelinePc :=
            SaveStatus(name, at, copy, copy.status.(parentVersion := parent.version), ParentVersionCaptured, ThenBase))))
        else
          Outcome(store, Some(proc.(seen := k, pipelinePc := OnBase(name, spec, at, copy))))
    else
      match found
      case None => Outcome(store, None)
      case Some(k) =>
        var parent := store.pipelines[spec.parent].revisions[k].status;
        var claim := if parent.claim != "" then parent.claim else OwnClaim(spec.parent);
        Outcome(store, Some(proc.(pipelinePc := OnClaimKnown(name, at, copy, claim))))
  }

  // ---------------------------------------------------------------- the import reconciler

  predicate ImportApplies(store: Store, proc: Proc, step: Step)
    requires proc.ImportProc? && ProcValid(store, proc)
  {
    var pc := proc.importPc;
    match step
    case Commit(_) => pc.ImportWriting?
    case TrackRun(_, _) => pc.AtImportRun?
    case ReadPlatform(_, found, _) => (pc.AtVersionCheck? || pc.AtAppend?) && PlatformReadable(store, found)
    case CreateRun(_, run) => pc.AtImportCreate? && run !in store.runs && run != ""
    case ReadLatest(_, at) => pc.AtImportAdopt? && at < |store.imports[proc.name].revisions|
    case DeleteDuplicate(_) => pc.AtImportDuplicate?
    case _ => false
  }

  ghost function ImportStep(store: Store, proc: Proc, step: Step): Outcome
    requires proc.ImportProc? && ProcValid(store, proc) && ImportApplies(store, proc, step)
  {
    match step
    case Commit(_) => ImportCommit(store, proc)
    case TrackRun(_, observed) => ImportTrack(store, proc, observed)
    case ReadPlatform(_, found, now) =>
      if proc.importPc.AtVersionCheck? then ImportCheck(store, proc, found) else ImportAppend(store, proc, found, now)
    case CreateRun(_, run) =>
      Outcome(store.(runs := store.runs[run := Run(OfImport(proc.name), "", Waiting, false)]),
              Some(proc.(importPc := AtImportAdopt(run))))
    case ReadLatest(_, at) => ImportAdopt(store, proc, at)
    case DeleteDuplicate(_) => Outcome(Discard(store, proc.importPc.run), None)
  }

  function ImportCopy(store: Store, proc: Proc): ImportStatus
    requires proc.ImportProc? && ProcValid(store, proc)
  {
    store.imports[proc.name].revisions[proc.at]
  }

  function SaveImport(store: Store, proc: Proc, status: ImportStatus): Outcome
    requires proc.ImportProc?
  {
    Outcome(store, Some(proc.(importPc := ImportWriting(WriteImport(proc.name, proc.at, status), ThenEnd))))
  }

  /** The part of trackImportPipelineRun that has a run to look at. */
  function ImportTrack(store: Store, proc: Proc, observed: Option<Stage>): Outcome
    requires proc.ImportProc? && ProcValid(store, proc)
  {
    var copy := ImportCopy(store, proc);
    match observed
    case None => SaveImport(store, proc, copy.(runRef := ""))
    case Some(Completed(true)) => SaveImport(store, proc, copy.(phase := Publishing))
    case Some(Completed(false)) => SaveImport(store, proc, copy.(phase := ImportFailed))
    case Some(_) => Outcome(store, None)
  }

  /** startImport refuses a version that is already in the import history. */
  ghost function ImportCheck(store: Store, proc: Proc, found: Option<nat>): Outcome
    requires proc.ImportProc? && ProcValid(store, proc) && PlatformReadable(store, found)
  {
    var version := store.imports[proc.name].spec.collectionVersion;
    var listed := found.Some? && VersionListed(store.platform[found.value].imports, version);
    SaveImport(store, proc, ImportCopy(store, proc).(phase := if listed then ImportFailed else Importing))
  }

  /** updatePlatformImportHistory */
  function ImportAppend(store: Store, proc: Proc, found: Option<nat>, now: nat): Outcome
    requires proc.ImportProc? && ProcValid(store, proc) && PlatformReadable(store, found)
  {
    match found
    case None => Outcome(store, None)
    case Some(k) =>
      var version := AppendedVersion(proc.name, store.imports[proc.name].spec);
      Outcome(store, Some(proc.(importPc := ImportWriting(
        WritePlatform(k, ImportAppendedRevision(store.platform[k], proc.name, version, now)), ThenEnd))))
  }

  function ImportAdopt(store: Store, proc: Proc, k: nat): Outcome
    requires proc.ImportProc? && ProcValid(store, proc) && proc.importPc.AtImportAdopt?
    requires k < |store.imports[proc.name].revisions|
  {
    var run := proc.importPc.run;
    var latest := store.imports[proc.name].revisions[k];
    Outcome(store, Some(proc.(importPc :=
      if latest.runRef != "" && latest.runRef != run then AtImportDuplicate(run)
      else ImportWriting(WriteImport(proc.name, k, latest.(runRef := run)), ThenEnd))))
  }

  function ImportCommit(store: Store, proc: Proc): Outcome
    requires proc.ImportProc? && ProcValid(store, proc) && proc.importPc.ImportWriting?
  {
    var w := proc.importPc.write;
    var at := if w.WriteImport? then w.base + 1 else proc.at;
    Outcome(Settle(store, w),
            if !Accepts(store, w) || proc.importPc.next.ThenEnd? then None
            else Some(proc.(at := at, importPc := AtAppend)))
  }

  // ---------------------------------------------------------------- the platform reconciler

  /** The write leaves the platform as it was read; none is made unless a field outside the model changed. */
  predicate Unchanging(store: Store, w: Write)
    requires Targets(store, w)
  {
    w.WritePlatform? && w.platform == store.platform[w.base].(event := w.platform.event)
  }

  ghost predicate PlatformApplies(store: Store, proc: Proc, step: Step)
    requires proc.PlatformProc? && ProcValid(store, proc)
  {
    var pc := proc.platformPc;
    match step
    case Commit(_) => pc.PlatformWriting?
    case SkipUpdate(_) => pc.PlatformWriting? && Unchanging(store, pc.write)
    case ListPipelines(_, list, _) => pc.AtPipelineList? && ValidPipelineList(store.pipelines, list)
    case ListImports(_, list) => pc.AtImportList? && ValidImportList(store.imports, list)
    case _ => false
  }

  lemma ImportersKnown(imports: map<string, Import>, list: seq<Listed>)
    requires ValidImportList(imports, list)
    ensures forall k :: 0 <= k < |Importers(imports, list)| ==> Importers(imports, list)[k] in imports
  {
    if |list| > 0 {
      ImportersKnown(imports, list[..|list| - 1]);
    }
  }

  ghost function PlatformStep(store: Store, proc: Proc, step: Step): Outcome
    requires proc.PlatformProc? && ProcValid(store, proc) && PlatformApplies(store, proc, step)
  {
    var pc := proc.platformPc;
    match step
    case Commit(_) =>
      Outcome(Settle(store, pc.write), None)
    case SkipUpdate(_) => Outcome(store, None)
    case ListPipelines(_, list, now) =>
      Outcome(store, Some(proc.(platformPc := AtImportList(CollectVersions(store.pipelines, list, now), list, now))))
    case ListImports(_, list) =>
      ImportersKnown(store.imports, list);
      var importers := Importers(store.imports, list);
      Outcome(store, Some(proc.(platformPc := PlatformWriting(WritePlatform(proc.at,
        AggregatedRevision(store.platform[proc.at], pc.collections, ImportInfos(store.imports, importers), importers,
                           pc.list, pc.time, list))))))
  }

  // ---------------------------------------------------------------- steps

  ghost predicate Applicable(s: State, step: Step) {
    if Environment(step) then EnvironmentApplies(s.store, step)
    else if Begins(step) then
      && step.id !in s.procs
      && (step.BeginPipeline? ==> step.name in s.store.pipelines && step.at < |s.store.pipelines[step.name].revisions|)
      && (step.BeginImport? ==> step.name in s.store.imports && step.at < |s.store.imports[step.name].revisions|)
      && (step.BeginPlatform? ==> step.at < |s.store.platform|)
    else
      && step.id in s.procs && ProcValid(s.store, s.procs[step.id])
      && (step.Stop? ||
          match s.procs[step.id]
          case PipelineProc(_, _, _, _) => PipelineApplies(s.store, s.procs[step.id], step)
          case ImportProc(_, _, _) => ImportApplies(s.store, s.procs[step.id], step)
          case PlatformProc(_, _) => PlatformApplies(s.store, s.procs[step.id], step))
  }

  ghost function ProcStep(store: Store, proc: Proc, step: Step): Outcome
    requires !Environment(step) && !Begins(step)
    requires ProcValid(store, proc)
    requires step.Stop? ||
             match proc
             case PipelineProc(_, _, _, _) => PipelineApplies(store, proc, step)
             case ImportProc(_, _, _) => ImportApplies(store, proc, step)
             case PlatformProc(_, _) => PlatformApplies(store, proc, step)
  {
    if step.Stop? then Outcome(store, None) else
      match proc
      case PipelineProc(_, _, _, _) => PipelineStep(store, proc, step)
      case ImportProc(_, _, _) => ImportStep(store, proc, step)
      case PlatformProc(_, _) => PlatformStep(store, proc, step)
  }

  ghost function Start(store: Store, step: Step): Option<Proc>
    requires Begins(step)
    requires step.BeginPipeline? ==> step.name in store.pipelines && step.at < |store.pipelines[step.name].revisions|
    requires step.BeginImport? ==> step.name in store.imports && step.at < |store.imports[step.name].revisions|
  {
    match step
    case BeginPipeline(_, name, at) =>
      var p := store.pipelines[name];
      Some(PipelineProc(name, at, 0, OnRead(name, p.spec, at, p.revisions[at])))
    case BeginImport(_, name, at) =>
      var i := store.imports[name];
      var pc := OnImportRead(name, i.spec, at, i.revisions[at]);
      if pc.None? then None else Some(ImportProc(name, at, pc.value))
    case BeginPlatform(_, at) => Some(PlatformProc(at, AtPipelineList))
  }

  function Place(procs: map<nat, Proc>, id: nat, proc: Option<Proc>): map<nat, Proc> {
    match proc
    case None => procs - {id}
    case Some(p) => procs[id := p]
  }

  ghost function Apply(s: State, step: Step): State
    requires Applicable(s, step)
  {
    if Environment(step) then s.(store := EnvironmentStep(s.store, step))
    else if Begins(step) then s.(procs := Place(s.procs, step.id, Start(s.store, step)))
    else
      var outcome := ProcStep(s.store, s.procs[step.id], step);
      State(outcome.store, Place(s.procs, step.id, outcome.proc))
  }

  // ---------------------------------------------------------------- what reads may return

  ghost predicate SeesRun(m: Mode, store: Store, run: string, stage: Option<Stage>) {
    match stage
    case None => m.view.CurrentReads? ==> run !in store.runs || store.runs[run].deleted
    case Some(seen) =>
      && run in store.runs && NotLater(seen, store.runs[run].stage)
      && (m.view.CurrentReads? ==> seen == store.runs[run].stage && !store.runs[run].deleted)
  }

  ghost predicate SeesPlatform(m: Mode, store: Store, found: Option<nat>) {
    match found
    case None => m.view.CurrentReads? ==> |store.platform| == 0
    case Some(at) => m.view.CurrentReads? ==> at + 1 == |store.platform|
  }

  ghost predicate SeesParent(m: Mode, store: Store, proc: Proc, found: Option<nat>)
    requires proc.PipelineProc? && ProcValid(store, proc)
  {
    var parent := SpecOf(store, proc).parent;
    match found
    case None => m.view.CurrentReads? ==> parent !in store.pipelines
    case Some(at) =>
      && (m.view.CurrentReads? ==> parent in store.pipelines && at + 1 == |store.pipelines[parent].revisions|)
      && (m.view.MonotoneReads? && proc.pipelinePc.AtParentClaim? ==> proc.seen <= at)
  }

  ghost predicate SeesVolume(m: Mode, store: Store, volume: string, found: Option<nat>) {
    match found
    case None => m.view.CurrentReads? ==> volume !in store.volumes
    case Some(at) => m.view.CurrentReads? ==> volume in store.volumes && at + 1 == |store.volumes[volume].sizes|
  }

  ghost predicate ListsAllImports(store: Store, list: seq<Listed>) {
    && (forall n :: n in store.imports ==> exists k :: 0 <= k < |list| && list[k].name == n)
    && (forall k :: 0 <= k < |list| && list[k].name in store.imports ==>
          list[k].at + 1 == |store.imports[list[k].name].revisions|)
  }

  ghost predicate ListsAllPipelines(store: Store, list: seq<Listed>) {
    && (forall n :: n in store.pipelines ==> exists k :: 0 <= k < |list| && list[k].name == n)
    && (forall k :: 0 <= k < |list| && list[k].name in store.pipelines ==>
          list[k].at + 1 == |store.pipelines[list[k].name].revisions|)
  }

  /** The early expansion, the first look at the run, the look for a signing configuration and the two lists go on as if
      nothing was found after any error, so they may miss an object in every mode. */
  ghost predicate Admits(m: Mode, s: State, step: Step)
    requires Applicable(s, step)
  {
    match step
    case BeginPipeline(_, name, at) =>
      && (m.view.CurrentReads? ==> at + 1 == |s.store.pipelines[name].revisions|)
      && (m.exclusive ==> forall q :: q in s.procs && s.procs[q].PipelineProc? ==> s.procs[q].name != name)
    case BeginImport(_, name, at) => m.view.CurrentReads? ==> at + 1 == |s.store.imports[name].revisions|
    case BeginPlatform(_, at) => m.view.CurrentReads? ==> at + 1 == |s.store.platform|
    case ReadVolume(id, found) =>
      var proc := s.procs[id];
      (proc.pipelinePc.AtExpand? && found.None?) || SeesVolume(m, s.store, VolumeName(s.store, proc), found)
    case ReadRun(id, stage, _) =>
      stage.None? || SeesRun(m, s.store, Copy(s.store, s.procs[id]).status.runRef, stage)
    case TrackRun(id, stage) =>
      SeesRun(m, s.store,
              match s.procs[id]
              case PipelineProc(_, _, _, _) => Copy(s.store, s.procs[id]).status.runRef
              case ImportProc(name, at, _) => s.store.imports[name].revisions[at].runRef,
              stage)
    case ReadParent(id, found) => SeesParent(m, s.store, s.procs[id], found)
    case ReadPlatform(_, found, _) => SeesPlatform(m, s.store, found)
    case CheckSigning(_, found, _) => found.None? || SeesPlatform(m, s.store, found)
    case ReadLatest(id, at) =>
      m.view.CurrentReads? ==>
        (match s.procs[id]
         case PipelineProc(name, _, _, _) => at + 1 == |s.store.pipelines[name].revisions|
         case ImportProc(name, _, _) => at + 1 == |s.store.imports[name].revisions|)
    case ListPipelines(_, list, _) => m.view.CurrentReads? && list != [] ==> ListsAllPipelines(s.store, list)
    case ListImports(_, list) => m.view.CurrentReads? && list != [] ==> ListsAllImports(s.store, list)
    case _ => true
  }

  ghost predicate Takes(m: Mode, s: State, step: Step) {
    Applicable(s, step) && Admits(m, s, step)
  }

  // ---------------------------------------------------------------- runs of the system

  ghost predicate IsRun(m: Mode, s: State, steps: seq<Step>)
    decreases |steps|
  {
    |steps| == 0 || (Takes(m, s, steps[0]) && IsRun(m, Apply(s, steps[0]), steps[1..]))
  }

  ghost function After(m: Mode, s: State, steps: seq<Step>): State
    requires IsRun(m, s, steps)
    decreases |steps|
  {
    if |steps| == 0 then s else After(m, Apply(s, steps[0]), steps[1..])
  }

  ghost predicate Reachable(m: Mode, s: State) {
    exists steps: seq<Step> :: IsRun(m, INITIAL, steps) && After(m, INITIAL, steps) == s
  }
}
