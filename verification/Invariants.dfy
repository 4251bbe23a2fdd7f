/** What holds in every reachable state, whatever is stale, crashes or overlaps. */
module Invariants {
  import opened Objects
  import opened Reconcilers
  import opened Protocol

  // ---------------------------------------------------------------- what one accepted write may do

  /** Everything that can happen to a CollectionPipeline between two consecutive revisions. */
  predicate PipelineWrite(a: PipelineRevision, b: PipelineRevision) {
    match b.event
    case Created => false
    case TriggerSet => b.trigger && b.status == a.status
    case TriggerCleared => !b.trigger && b.status == a.status
    case TriggerRemoved => a.trigger && !b.trigger && b.status == a.status && Restartable(a.status)
    case StatusReset =>
      && a.event.TriggerRemoved? && b.trigger == a.trigger && a.status.runRef != ""
      && b.status == a.status.(runRef := "", version := "", phase := Unset)
    case RunDropped =>
      b.trigger == a.trigger && a.status.runRef != "" && b.status == a.status.(runRef := "", phase := Unset)
    case MarkedStale =>
      b.trigger == a.trigger && a.status.runRef != "" && b.status == a.status.(runRef := "", phase := Stale)
    case Tracked =>
      && b.trigger == a.trigger && a.status.runRef != "" && b.status == a.status.(phase := b.status.phase)
      && (b.status.phase.Pending? || b.status.phase.Collecting? || b.status.phase.Complete? || b.status.phase.Failed?)
    case Rejected =>
      b.trigger == a.trigger && a.status.runRef == "" && b.status == a.status.(phase := Failed)
    case ParentVersionCaptured =>
      && b.trigger == a.trigger && a.status.runRef == "" && a.status.parentVersion == ""
      && b.status == a.status.(parentVersion := b.status.parentVersion)
    case VersionAssigned =>
      && b.trigger == a.trigger && a.status.runRef == "" && a.status.version == "" && b.status.version != ""
      && b.status == a.status.(version := b.status.version)
    case ClaimAssigned =>
      && b.trigger == a.trigger && a.status.runRef == "" && b.status.claim != ""
      && b.status == a.status.(claim := b.status.claim)
    case RunAdopted =>
      && b.trigger == a.trigger && (a.status.runRef == "" || a.status.runRef == b.status.runRef)
      && b.status.runRef != "" && a.status.claim != ""
      && b.status == a.status.(runRef := b.status.runRef, phase := Pending)
    case Touched => b.trigger == a.trigger && b.status == a.status
  }

  /** Everything that can happen to a MirrorImport between two consecutive revisions. */
  predicate ImportWrite(a: ImportStatus, b: ImportStatus) {
    || b == a
    || (a.phase.NotStarted? && (b == a.(phase := Importing) || b == a.(phase := ImportFailed)))
    || (a.phase.Importing? && a.runRef != "" &&
        (b == a.(runRef := "") || b == a.(phase := Publishing) || b == a.(phase := ImportFailed)))
    || (a.phase.Importing? && a.runRef == "" && b.runRef != "" && b == a.(runRef := b.runRef))
    || (a.phase.Publishing? && b == a.(phase := Imported))
  }

  predicate Enters(revision: PlatformRevision, name: string) {
    revision.event == ImportAppended(name) || (revision.event.Aggregated? && name in revision.event.importers)
  }

  /** Everything that can happen to the platform between two consecutive revisions. */
  ghost predicate PlatformWrite(imports: map<string, Import>, a: PlatformRevision, b: PlatformRevision) {
    match b.event
    case Born => false
    case Other => b == a.(event := Other)
    case CollectionAppended(name) =>
      && |b.collections| > 0
      && b == CollectionAppendedRevision(a, name, Last(b.collections).version, Last(b.collections).timestamp)
    case ImportAppended(name) =>
      && name in imports && |b.imports| > 0
      && b == ImportAppendedRevision(a, name, AppendedVersion(name, imports[name].spec), Last(b.imports).timestamp)
    case Aggregated(importers, list, now, names) =>
      && (forall k :: 0 <= k < |importers| ==> importers[k] in imports)
      && (exists collections ::
            b == AggregatedRevision(a, collections, ImportInfos(imports, importers), importers, list, now, names))
  }

  // ---------------------------------------------------------------- objects

  ghost predicate PipelineOk(p: Pipeline) {
    && |p.revisions| > 0
    && p.revisions[0].status == FRESH_STATUS && p.revisions[0].event == Created
    && (forall k {:trigger p.revisions[k]} :: 0 < k < |p.revisions| ==> PipelineWrite(p.revisions[k - 1], p.revisions[k]))
  }

  /** An import that got past its run names a run that succeeded. */
  ghost predicate Backed(runs: map<string, Run>, status: ImportStatus) {
    status.phase.Publishing? || status.phase.Imported? ==>
      status.runRef in runs && runs[status.runRef].stage == Completed(true)
  }

  ghost predicate ImportOk(runs: map<string, Run>, i: Import) {
    && |i.revisions| > 0
    && i.revisions[0] == ImportStatus(NotStarted, "")
    && (forall k {:trigger i.revisions[k]} :: 0 < k < |i.revisions| ==> ImportWrite(i.revisions[k - 1], i.revisions[k]))
    && (forall k :: 0 <= k < |i.revisions| ==> Backed(runs, i.revisions[k]))
  }

  ghost predicate VolumeOk(v: Volume) {
    && |v.sizes| > 0 && |v.granted| > 0
    && v.granted[0] == v.sizes[0]
    && (forall j, k :: 0 <= j < k < |v.sizes| ==> v.sizes[j] < v.sizes[k])
    && (forall g :: g in v.granted ==> g <= Last(v.sizes))
    && Last(v.sizes) in v.granted
  }

  ghost predicate ReachedComplete(pipelines: map<string, Pipeline>, version: string) {
    exists n, k :: n in pipelines && 0 <= k < |pipelines[n].revisions|
      && Finished(pipelines[n].revisions[k].status) && pipelines[n].revisions[k].status.version == version
  }

  predicate Finished(status: PipelineStatus) {
    status.phase.Complete? || status.phase.Succeeded?
  }

  ghost predicate Sourced(pipelines: map<string, Pipeline>, collections: seq<Info>) {
    forall k :: 0 <= k < |collections| ==> ReachedComplete(pipelines, collections[k].version)
  }

  ghost predicate EverImported(imports: map<string, Import>, name: string) {
    name in imports && exists k :: 0 <= k < |imports[name].revisions| && imports[name].revisions[k].phase.Imported?
  }

  ghost predicate PlatformOk(store: Store) {
    && (|store.platform| > 0 ==> store.platform[0] == PlatformRevision([], None, [], None, Born))
    && (forall k {:trigger store.platform[k]} :: 0 < k < |store.platform| ==>
          PlatformWrite(store.imports, store.platform[k - 1], store.platform[k]))
    && (forall k :: 0 <= k < |store.platform| ==> Sourced(store.pipelines, store.platform[k].collections))
    && (forall k, i :: 0 <= k < |store.platform| && Enters(store.platform[k], i) ==> EverImported(store.imports, i))
  }

  ghost predicate StoreOk(store: Store) {
    && (forall n :: n in store.pipelines ==> PipelineOk(store.pipelines[n]))
    && (forall i :: i in store.imports ==> ImportOk(store.runs, store.imports[i]))
    && (forall v :: v in store.volumes ==> VolumeOk(store.volumes[v]))
    && PlatformOk(store)
  }

  // ---------------------------------------------------------------- reconciles in flight

  /** A prepared write is one the object allows, unless it is already certain to be refused. */
  ghost predicate WriteOk(store: Store, w: Write) {
    Targets(store, w) &&
    match w
    case WritePipeline(name, base, revision) =>
      Accepts(store, w) ==> PipelineWrite(store.pipelines[name].revisions[base], revision)
    case WriteImport(name, base, status) =>
      && Backed(store.runs, status)
      && (Accepts(store, w) ==> ImportWrite(store.imports[name].revisions[base], status))
    case WritePlatform(base, revision) =>
      && (Accepts(store, w) ==> PlatformWrite(store.imports, store.platform[base], revision))
      && Sourced(store.pipelines, revision.collections)
      && (forall i :: Enters(revision, i) ==> EverImported(store.imports, i))
    case WriteVolume(name, base, size) =>
      size > store.volumes[name].sizes[base]
  }

  ghost predicate NextOk(revision: PipelineRevision, next: PipelineNext) {
    match next
    case ThenReset => revision.event.TriggerRemoved? && revision.status.runRef != ""
    case ThenHistory => revision.status.phase.Complete?
    case ThenBase => revision.status.runRef == ""
    case ThenClaim => revision.status.runRef == ""
    case ThenVolume => revision.status.runRef == "" && revision.status.claim != ""
    case ThenReference => false
    case ThenCreate => false
    case ThenReturn => true
  }

  ghost predicate PipelinePcOk(store: Store, spec: PipelineSpec, status: PipelineStatus, pc: PipelinePc) {
    match pc
    case AtExpand => spec.size.Some?
    case AtRun => status.runRef != ""
    case AtTrack => status.runRef != ""
    case AtDrop => status.runRef != ""
    case AtHistory => status.phase.Complete?
    case AtParent => status.runRef == "" && spec.parent != ""
    case AtBase => status.runRef == ""
    case AtVersion => status.runRef == "" && status.version == ""
    case AtParentClaim => status.runRef == "" && spec.parent != ""
    case AtVolume => status.runRef == "" && status.claim != ""
    case AtSigning => status.runRef == "" && status.claim != ""
    case AtCreate => status.runRef == "" && status.claim != ""
    case AtAdopt(run) => run != "" && status.claim != ""
    case AtDuplicate(run) => true
    case PipelineWriting(w, next) =>
      && WriteOk(store, w)
      && match w {
           case WritePipeline(_, _, revision) => NextOk(revision, next)
           case WritePlatform(_, revision) => next.ThenReturn? && revision.event.CollectionAppended?
           case WriteVolume(_, _, _) => next.ThenReference? || (next.ThenCreate? && status.runRef == "" && status.claim != "")
           case WriteImport(_, _, _) => false
         }
  }

  ghost predicate ImportPcOk(store: Store, name: string, at: nat, status: ImportStatus, pc: ImportPc) {
    match pc
    case AtVersionCheck => status.phase.NotStarted?
    case AtImportRun => status.phase.Importing? && status.runRef != ""
    case AtImportCreate => status.phase.Importing?
    case AtImportAdopt(run) => status.phase.Importing? && run != ""
    case AtImportDuplicate(run) => true
    case AtAppend => status.phase.Imported?
    case ImportWriting(w, next) =>
      && WriteOk(store, w)
      && (next.ThenAppend? ==> w.WriteImport? && w.base == at && status.phase.Publishing? && w.status.phase.Imported?)
      && (w.WritePlatform? ==> next.ThenEnd? && w.platform.event == ImportAppended(name) && status.phase.Imported?)
  }

  ghost predicate ProcOk(store: Store, proc: Proc) {
    ProcValid(store, proc) &&
    match proc
    case PipelineProc(name, at, _, pc) =>
      PipelinePcOk(store, store.pipelines[name].spec, store.pipelines[name].revisions[at].status, pc)
    case ImportProc(name, at, pc) =>
      ImportPcOk(store, name, at, store.imports[name].revisions[at], pc)
    case PlatformProc(at, pc) =>
      && (pc.AtImportList? ==> Sourced(store.pipelines, pc.collections))
      && (pc.PlatformWriting? ==> WriteOk(store, pc.write) && pc.write.base == at && pc.write.platform.event.Aggregated?)
  }

  ghost predicate ProcsOk(s: State) {
    forall q :: q in s.procs ==> ProcOk(s.store, s.procs[q])
  }

  ghost predicate Inv(s: State) {
    StoreOk(s.store) && ProcsOk(s)
  }

  // ---------------------------------------------------------------- stability under growth

  lemma ImportInfosStable(a: map<string, Import>, b: map<string, Import>, names: seq<string>)
    requires ImportsGrow(a, b)
    requires forall k :: 0 <= k < |names| ==> names[k] in a
    ensures forall k :: 0 <= k < |names| ==> names[k] in b
    ensures ImportInfos(a, names) == ImportInfos(b, names)
  {
  }

  lemma PlatformWriteStable(a: map<string, Import>, b: map<string, Import>, x: PlatformRevision, y: PlatformRevision)
    requires ImportsGrow(a, b) && PlatformWrite(a, x, y)
    ensures PlatformWrite(b, x, y)
  {
    if y.event.Aggregated? {
      ImportInfosStable(a, b, y.event.importers);
    }
  }

  lemma SourcedStable(a: map<string, Pipeline>, b: map<string, Pipeline>, collections: seq<Info>)
    requires PipelinesGrow(a, b) && Sourced(a, collections)
    ensures Sourced(b, collections)
  {
    forall k | 0 <= k < |collections| ensures ReachedComplete(b, collections[k].version) {
      assert ReachedComplete(a, collections[k].version);
      var n, j :| n in a && 0 <= j < |a[n].revisions|
                  && Finished(a[n].revisions[j].status) && a[n].revisions[j].status.version == collections[k].version;
      assert n in b && b[n].revisions[j] == a[n].revisions[j];
    }
  }

  lemma EverImportedStable(a: map<string, Import>, b: map<string, Import>, name: string)
    requires ImportsGrow(a, b) && EverImported(a, name)
    ensures EverImported(b, name)
  {
    var k :| 0 <= k < |a[name].revisions| && a[name].revisions[k].phase.Imported?;
    assert b[name].revisions[k] == a[name].revisions[k];
  }

  lemma BackedStable(a: map<string, Run>, b: map<string, Run>, status: ImportStatus)
    requires RunsGrow(a, b) && Backed(a, status)
    ensures Backed(b, status)
  {
  }

  lemma WriteOkStable(a: Store, b: Store, w: Write)
    requires Grows(a, b) && WriteOk(a, w)
    ensures WriteOk(b, w)
  {
    match w
    case WritePipeline(name, base, revision) =>
      assert a.pipelines[name].revisions <= b.pipelines[name].revisions;
    case WriteImport(name, base, status) =>
      assert a.imports[name].revisions <= b.imports[name].revisions;
      BackedStable(a.runs, b.runs, status);
    case WritePlatform(base, revision) =>
      SourcedStable(a.pipelines, b.pipelines, revision.collections);
      forall i | Enters(revision, i) ensures EverImported(b.imports, i) {
        EverImportedStable(a.imports, b.imports, i);
      }
      if Accepts(b, w) {
        assert Accepts(a, w) && a.platform == b.platform;
        PlatformWriteStable(a.imports, b.imports, a.platform[base], revision);
      }
    case WriteVolume(name, base, size) =>
      assert a.volumes[name].sizes <= b.volumes[name].sizes;
  }

  lemma ProcOkStable(a: Store, b: Store, proc: Proc)
    requires Grows(a, b) && ProcOk(a, proc)
    ensures ProcOk(b, proc)
  {
    match proc
    case PipelineProc(name, at, _, pc) =>
      assert b.pipelines[name].revisions[at] == a.pipelines[name].revisions[at];
      if pc.PipelineWriting? { WriteOkStable(a, b, pc.write); }
    case ImportProc(name, at, pc) =>
      assert b.imports[name].revisions[at] == a.imports[name].revisions[at];
      if pc.ImportWriting? { WriteOkStable(a, b, pc.write); }
    case PlatformProc(at, pc) =>
      if pc.PlatformWriting? { WriteOkStable(a, b, pc.write); }
      if pc.AtImportList? { SourcedStable(a.pipelines, b.pipelines, pc.collections); }
  }

  lemma ImportOkStable(a: map<string, Run>, b: map<string, Run>, i: Import)
    requires RunsGrow(a, b) && ImportOk(a, i)
    ensures ImportOk(b, i)
  {
    forall k | 0 <= k < |i.revisions| ensures Backed(b, i.revisions[k]) {
      BackedStable(a, b, i.revisions[k]);
    }
  }

  lemma PlatformOkStable(a: Store, b: Store)
    requires Grows(a, b) && a.platform == b.platform && PlatformOk(a)
    ensures PlatformOk(b)
  {
    forall k {:trigger b.platform[k]} | 0 < k < |b.platform|
      ensures PlatformWrite(b.imports, b.platform[k - 1], b.platform[k])
    {
      PlatformWriteStable(a.imports, b.imports, a.platform[k - 1], a.platform[k]);
    }
    forall k | 0 <= k < |b.platform| ensures Sourced(b.pipelines, b.platform[k].collections) {
      SourcedStable(a.pipelines, b.pipelines, a.platform[k].collections);
    }
    forall k, i | 0 <= k < |b.platform| && Enters(b.platform[k], i) ensures EverImported(b.imports, i) {
      EverImportedStable(a.imports, b.imports, i);
    }
  }

  // ---------------------------------------------------------------- writes keep the objects well-formed

  lemma PipelineAppended(store: Store, name: string, revision: PipelineRevision)
    requires StoreOk(store) && name in store.pipelines
    requires PipelineWrite(CurrentPipeline(store, name), revision)
    ensures var next := AppendPipeline(store, name, revision); Grows(store, next) && StoreOk(next)
  {
    hide PipelineWrite, ImportOk, VolumeOk, PlatformOk;
    var next := AppendPipeline(store, name, revision);
    assert PipelineOk(next.pipelines[name]) by {
      var before, after := store.pipelines[name].revisions, next.pipelines[name].revisions;
      forall k {:trigger after[k]} | 0 < k < |after| ensures PipelineWrite(after[k - 1], after[k]) {
        if k < |before| { assert after[k] == before[k] && after[k - 1] == before[k - 1]; }
      }
    }
    PlatformOkStable(store, next);
  }

  lemma ImportStatusAppended(store: Store, name: string, status: ImportStatus)
    requires StoreOk(store) && name in store.imports
    requires ImportWrite(CurrentImport(store, name), status) && Backed(store.runs, status)
    ensures var next := AppendImport(store, name, status); Grows(store, next) && StoreOk(next)
  {
    hide ImportWrite, PipelineOk, VolumeOk, PlatformOk;
    var next := AppendImport(store, name, status);
    assert ImportOk(next.runs, next.imports[name]) by {
      var before, after := store.imports[name].revisions, next.imports[name].revisions;
      forall k {:trigger after[k]} | 0 < k < |after| ensures ImportWrite(after[k - 1], after[k]) {
        if k < |before| { assert after[k] == before[k] && after[k - 1] == before[k - 1]; }
      }
    }
    PlatformOkStable(store, next);
  }

  lemma PlatformAppended(store: Store, revision: PlatformRevision)
    requires StoreOk(store)
    requires if |store.platform| == 0 then revision == PlatformRevision([], None, [], None, Born)
             else PlatformWrite(store.imports, Last(store.platform), revision)
    requires Sourced(store.pipelines, revision.collections)
    requires forall i :: Enters(revision, i) ==> EverImported(store.imports, i)
    ensures var next := AppendPlatform(store, revision); Grows(store, next) && StoreOk(next)
  {
    hide PipelineOk, ImportOk, VolumeOk, PlatformWrite, Sourced, EverImported;
    var next := AppendPlatform(store, revision);
    forall k {:trigger next.platform[k]} | 0 < k < |next.platform|
      ensures PlatformWrite(next.imports, next.platform[k - 1], next.platform[k])
    {
      if k < |store.platform| {
        assert next.platform[k] == store.platform[k] && next.platform[k - 1] == store.platform[k - 1];
      }
    }
    forall k, i | 0 <= k < |next.platform| && Enters(next.platform[k], i) ensures EverImported(next.imports, i) {
      if k < |store.platform| { assert next.platform[k] == store.platform[k]; }
    }
  }

  lemma SizeGranted(v: Volume, at: nat, size: nat)
    requires VolumeOk(v) && at < |v.sizes| && size <= v.sizes[at]
    ensures VolumeOk(v.(granted := v.granted + [size]))
  {
    assert v.sizes[at] <= Last(v.sizes);
  }

  lemma SizeGrown(v: Volume, size: nat)
    requires VolumeOk(v) && size > Last(v.sizes)
    ensures VolumeOk(Volume(v.sizes + [size], v.granted + [size]))
  {
    var w := Volume(v.sizes + [size], v.granted + [size]);
    assert w.granted[|v.granted|] == size && w.granted[0] == v.granted[0];
    forall j, k | 0 <= j < k < |w.sizes| ensures w.sizes[j] < w.sizes[k] {
      if k == |v.sizes| && j < |v.sizes| - 1 { assert v.sizes[j] < v.sizes[|v.sizes| - 1]; }
    }
  }

  lemma VolumeChanged(store: Store, name: string, volume: Volume)
    requires StoreOk(store) && VolumeOk(volume)
    requires name in store.volumes ==>
               store.volumes[name].sizes <= volume.sizes && store.volumes[name].granted <= volume.granted
    ensures var next := store.(volumes := store.volumes[name := volume]); Grows(store, next) && StoreOk(next)
  {
    hide PipelineOk, ImportOk, PlatformOk, VolumeOk;
    PlatformOkStable(store, store.(volumes := store.volumes[name := volume]));
  }

  lemma VolumeGranted(store: Store, name: string, at: nat, size: nat)
    requires StoreOk(store) && name in store.volumes && at < |store.volumes[name].sizes|
    requires size <= store.volumes[name].sizes[at]
    ensures var next := Grant(store, name, size); Grows(store, next) && StoreOk(next)
  {
    hide PipelineOk, ImportOk, PlatformOk, VolumeOk;
    SizeGranted(store.volumes[name], at, size);
    VolumeChanged(store, name, Grant(store, name, size).volumes[name]);
  }

  lemma VolumeGrown(store: Store, name: string, size: nat)
    requires StoreOk(store) && name in store.volumes
    requires VolumeOk(store.volumes[name]) ==> size > Last(store.volumes[name].sizes)
    ensures var next := GrowVolume(store, name, size); Grows(store, next) && StoreOk(next)
  {
    hide PipelineOk, ImportOk, PlatformOk, VolumeOk;
    SizeGrown(store.volumes[name], size);
    VolumeChanged(store, name, GrowVolume(store, name, size).volumes[name]);
  }

  lemma Unchanged(store: Store)
    ensures Grows(store, store)
  {
  }

  lemma Performed(store: Store, w: Write)
    requires StoreOk(store) && WriteOk(store, w) && Accepts(store, w)
    ensures Grows(store, Perform(store, w)) && StoreOk(Perform(store, w))
  {
    match w
    case WritePipeline(name, base, revision) => PipelineAppended(store, name, revision);
    case WriteImport(name, base, status) => ImportStatusAppended(store, name, status);
    case WritePlatform(base, revision) => PlatformAppended(store, revision);
    case WriteVolume(name, base, size) => VolumeGrown(store, name, size);
  }

  lemma Settled(store: Store, w: Write)
    requires StoreOk(store) && WriteOk(store, w)
    ensures Grows(store, Settle(store, w)) && StoreOk(Settle(store, w))
  {
    if Accepts(store, w) { Performed(store, w); }
  }

  lemma RunsChanged(store: Store, runs: map<string, Run>)
    requires StoreOk(store) && RunsGrow(store.runs, runs)
    ensures Grows(store, store.(runs := runs)) && StoreOk(store.(runs := runs))
  {
    hide PipelineOk, ImportOk, VolumeOk, PlatformOk;
    var next := store.(runs := runs);
    forall i | i in next.imports ensures ImportOk(runs, next.imports[i]) {
      ImportOkStable(store.runs, runs, next.imports[i]);
    }
    PlatformOkStable(store, next);
  }
}
