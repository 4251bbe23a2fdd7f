/** Every step keeps the invariant, so it holds in every reachable state. */
module Preservation {
  import opened Objects
  import opened Reconcilers
  import opened Protocol
  import opened Invariants

  // ---------------------------------------------------------------- histories

  lemma {:induction false} ClaimKept(p: Pipeline, j: nat, k: nat)
    requires PipelineOk(p) && j <= k < |p.revisions| && p.revisions[j].status.claim != ""
    ensures p.revisions[k].status.claim != ""
  {
    if j < k {
      ClaimKept(p, j, k - 1);
      assert PipelineWrite(p.revisions[k - 1], p.revisions[k]);
    }
  }

  /** An import that started stays in Importing until it has a run. */
  lemma {:induction false} ImportingUntilRun(runs: map<string, Run>, i: Import, j: nat, k: nat)
    requires ImportOk(runs, i) && j <= k < |i.revisions| && i.revisions[j].phase.Importing?
    ensures i.revisions[k].phase.Importing? || (!i.revisions[k].phase.NotStarted? && i.revisions[k].runRef != "")
  {
    hide Backed;
    if j < k {
      ImportingUntilRun(runs, i, j, k - 1);
      assert ImportWrite(i.revisions[k - 1], i.revisions[k]);
    }
  }

  // ---------------------------------------------------------------- environment

  lemma PlatformUntouched(store: Store, next: Store)
    requires StoreOk(store) && Grows(store, next) && next.platform == store.platform
    requires forall n :: n in next.pipelines ==> PipelineOk(next.pipelines[n])
    requires forall i :: i in next.imports ==> ImportOk(next.runs, next.imports[i])
    requires forall v :: v in next.volumes ==> VolumeOk(next.volumes[v])
    ensures StoreOk(next)
  {
    PlatformOkStable(store, next);
  }

  lemma PipelineCreated(store: Store, name: string, spec: PipelineSpec, trigger: bool)
    requires StoreOk(store) && name !in store.pipelines
    ensures var next := EnvironmentStep(store, CreatePipeline(name, spec, trigger)); Grows(store, next) && StoreOk(next)
  {
    hide PlatformOk, VolumeOk, ImportOk;
    var next := EnvironmentStep(store, CreatePipeline(name, spec, trigger));
    PlatformUntouched(store, next);
  }

  lemma ImportCreated(store: Store, name: string, spec: ImportSpec)
    requires StoreOk(store) && name !in store.imports
    ensures var next := EnvironmentStep(store, CreateImport(name, spec)); Grows(store, next) && StoreOk(next)
  {
    hide PlatformOk, VolumeOk, PipelineOk;
    var next := EnvironmentStep(store, CreateImport(name, spec));
    PlatformUntouched(store, next);
  }

  lemma PipelineEditKeeps(store: Store, step: Step)
    requires StoreOk(store) && Environment(step) && EnvironmentApplies(store, step)
    requires step.SetTrigger? || step.ClearTrigger? || step.TouchPipeline?
    ensures Grows(store, EnvironmentStep(store, step)) && StoreOk(EnvironmentStep(store, step))
  {
    var current := CurrentPipeline(store, step.name);
    var edited := if step.SetTrigger? then current.(trigger := true, event := TriggerSet)
                  else if step.ClearTrigger? then current.(trigger := false, event := TriggerCleared)
                  else current.(event := Touched);
    PipelineAppended(store, step.name, edited);
  }

  lemma ImportTouchKeeps(store: Store, name: string)
    requires StoreOk(store) && name in store.imports && |store.imports[name].revisions| > 0
    ensures var next := AppendImport(store, name, CurrentImport(store, name)); Grows(store, next) && StoreOk(next)
  {
    assert Backed(store.runs, store.imports[name].revisions[|store.imports[name].revisions| - 1]);
    ImportStatusAppended(store, name, CurrentImport(store, name));
  }

  lemma PlatformEditKeeps(store: Store, step: Step)
    requires StoreOk(store) && Environment(step) && EnvironmentApplies(store, step)
    requires step.CreatePlatform? || step.TouchPlatform?
    ensures Grows(store, EnvironmentStep(store, step)) && StoreOk(EnvironmentStep(store, step))
  {
    if step.CreatePlatform? {
      PlatformAppended(store, PlatformRevision([], None, [], None, Born));
    } else {
      assert Sourced(store.pipelines, store.platform[|store.platform| - 1].collections);
      PlatformAppended(store, Last(store.platform).(event := Other));
    }
  }

  lemma EnvironmentKeeps(store: Store, step: Step)
    requires StoreOk(store) && Environment(step) && EnvironmentApplies(store, step)
    ensures Grows(store, EnvironmentStep(store, step)) && StoreOk(EnvironmentStep(store, step))
  {
    hide StoreOk, Grows;
    if step.CreatePipeline? {
      PipelineCreated(store, step.name, step.spec, step.trigger);
    } else if step.CreateImport? {
      ImportCreated(store, step.name, step.importSpec);
    } else if step.SetTrigger? || step.ClearTrigger? || step.TouchPipeline? {
      PipelineEditKeeps(store, step);
    } else if step.TouchImport? {
      ImportTouchKeeps(store, step.name);
    } else if step.CreatePlatform? || step.TouchPlatform? {
      PlatformEditKeeps(store, step);
    } else {
      RunsChanged(store, EnvironmentStep(store, step).runs);
    }
  }

  // ---------------------------------------------------------------- the pipeline reconciler

  /** The reconcile, standing at revision `at`, about to continue at `pc`. */
  ghost predicate Continues(store: Store, name: string, at: nat, pc: PipelinePc) {
    && name in store.pipelines && at < |store.pipelines[name].revisions|
    && (forall seen: nat :: ProcOk(store, PipelineProc(name, at, seen, pc)))
  }

  lemma ClaimKnownOk(store: Store, name: string, at: nat, claim: string)
    requires name in store.pipelines && at < |store.pipelines[name].revisions| && claim != ""
    requires store.pipelines[name].revisions[at].status.runRef == ""
    ensures Continues(store, name, at, OnClaimKnown(name, at, store.pipelines[name].revisions[at], claim))
  {
  }

  lemma ClaimOk(store: Store, name: string, at: nat)
    requires name in store.pipelines && at < |store.pipelines[name].revisions|
    requires store.pipelines[name].revisions[at].status.runRef == ""
    ensures Continues(store, name, at, OnClaim(name, store.pipelines[name].spec, at, store.pipelines[name].revisions[at]))
  {
    var spec := store.pipelines[name].spec;
    if spec.parent == "" {
      assert |RootClaim(name, spec)| > 0;
      ClaimKnownOk(store, name, at, RootClaim(name, spec));
    }
  }

  lemma VersionOk(store: Store, name: string, at: nat)
    requires name in store.pipelines && at < |store.pipelines[name].revisions|
    requires store.pipelines[name].revisions[at].status.runRef == ""
    ensures Continues(store, name, at, OnVersion(name, store.pipelines[name].spec, at, store.pipelines[name].revisions[at]))
  {
    ClaimOk(store, name, at);
  }

  lemma BaseOk(store: Store, name: string, at: nat)
    requires name in store.pipelines && at < |store.pipelines[name].revisions|
    requires store.pipelines[name].revisions[at].status.runRef == ""
    ensures Continues(store, name, at, OnBase(name, store.pipelines[name].spec, at, store.pipelines[name].revisions[at]))
  {
    VersionOk(store, name, at);
  }

  lemma ReferenceOk(store: Store, name: string, at: nat)
    requires name in store.pipelines && at < |store.pipelines[name].revisions|
    ensures Continues(store, name, at, OnReference(name, store.pipelines[name].spec, at, store.pipelines[name].revisions[at]))
  {
    if store.pipelines[name].revisions[at].status.runRef == "" { BaseOk(store, name, at); }
  }

  lemma ReadOk(store: Store, name: string, at: nat)
    requires name in store.pipelines && at < |store.pipelines[name].revisions|
    ensures Continues(store, name, at, OnRead(name, store.pipelines[name].spec, at, store.pipelines[name].revisions[at]))
  {
    ReferenceOk(store, name, at);
  }

  lemma AcceptedOk(store: Store, name: string, at: nat, next: PipelineNext)
    requires name in store.pipelines && at < |store.pipelines[name].revisions|
    requires NextOk(store.pipelines[name].revisions[at], next)
    ensures var pc := OnAccepted(name, store.pipelines[name].spec, at, store.pipelines[name].revisions[at], next);
            pc.Some? ==> Continues(store, name, at, pc.value)
  {
    match next
    case ThenBase => BaseOk(store, name, at);
    case ThenClaim => ClaimOk(store, name, at);
    case _ =>
  }

  lemma PipelineCommitKeeps(store: Store, proc: Proc)
    requires StoreOk(store) && ProcOk(store, proc) && proc.PipelineProc? && proc.pipelinePc.PipelineWriting?
    ensures var o := PipelineCommit(store, proc); Grows(store, o.store) && StoreOk(o.store)
  {
    hide StoreOk, Settle, OnAccepted, PipelineWrite, Sourced, Grows;
    Settled(store, proc.pipelinePc.write);
  }

  lemma CommittedOk(store: Store, proc: Proc)
    requires ProcOk(store, proc) && proc.PipelineProc? && proc.pipelinePc.PipelineWriting?
    requires Accepts(store, proc.pipelinePc.write)
    ensures var o := PipelineCommit(store, proc); o.proc.Some? ==> ProcOk(o.store, o.proc.value)
  {
    var w := proc.pipelinePc.write;
    if w.WritePipeline? {
      RevisionCommittedOk(store, proc);
    } else if w.WriteVolume? {
      SizeCommittedOk(store, proc);
    }
  }

  lemma RevisionCommittedOk(store: Store, proc: Proc)
    requires ProcOk(store, proc) && proc.PipelineProc? && proc.pipelinePc.PipelineWriting?
    requires proc.pipelinePc.write.WritePipeline? && Accepts(store, proc.pipelinePc.write)
    ensures var o := PipelineCommit(store, proc); o.proc.Some? ==> ProcOk(o.store, o.proc.value)
  {
    var w := proc.pipelinePc.write;
    var next := AppendPipeline(store, proc.name, w.pipeline);
    assert next.pipelines[proc.name].revisions[w.base + 1] == w.pipeline;
    AcceptedOk(next, proc.name, w.base + 1, proc.pipelinePc.next);
  }

  lemma SizeCommittedOk(store: Store, proc: Proc)
    requires ProcOk(store, proc) && proc.PipelineProc? && proc.pipelinePc.PipelineWriting?
    requires proc.pipelinePc.write.WriteVolume? && Accepts(store, proc.pipelinePc.write)
    ensures var o := PipelineCommit(store, proc); o.proc.Some? ==> ProcOk(o.store, o.proc.value)
  {
    var w := proc.pipelinePc.write;
    var next := GrowVolume(store, w.name, w.size);
    assert next.pipelines == store.pipelines;
    if proc.pipelinePc.next.ThenReference? { ReferenceOk(next, proc.name, proc.at); }
  }

  lemma ParentReadKeeps(store: Store, proc: Proc, found: Option<nat>)
    requires ProcOk(store, proc) && proc.PipelineProc? && ParentReadable(store, proc, found)
    ensures var o := ParentRead(store, proc, found);
            o.store == store && (o.proc.Some? ==> ProcOk(store, o.proc.value))
  {
    BaseOk(store, proc.name, proc.at);
    if found.Some? {
      var parent := SpecOf(store, proc).parent;
      var status := store.pipelines[parent].revisions[found.value].status;
      var claim := if status.claim != "" then status.claim else OwnClaim(parent);
      assert |claim| > 0;
      ClaimKnownOk(store, proc.name, proc.at, claim);
    }
  }

  lemma VolumeReadKeeps(store: Store, proc: Proc, found: Option<nat>)
    requires StoreOk(store) && ProcOk(store, proc) && proc.PipelineProc? && VolumeReadable(store, proc, found)
    ensures Grows(store, VolumeRead(store, proc, found).store) && StoreOk(VolumeRead(store, proc, found).store)
  {
    hide PlatformOk, PipelineOk, ImportOk, Grows, WriteOk;
    Unchanged(store);
    var size := SizeOf(SpecOf(store, proc));
    var volume := VolumeName(store, proc);
    match found
    case None => assert VolumeOk(Volume([size], [size])); if volume !in store.volumes { VolumeChanged(store, volume, Volume([size], [size])); }
    case Some(k) => if size <= store.volumes[volume].sizes[k] { VolumeGranted(store, volume, k, size); }
  }

  lemma VolumeReadProc(store: Store, proc: Proc, found: Option<nat>)
    requires ProcOk(store, proc) && proc.PipelineProc? && VolumeReadable(store, proc, found)
    ensures var o := VolumeRead(store, proc, found); o.proc.Some? ==> ProcOk(o.store, o.proc.value)
  {
    var o := VolumeRead(store, proc, found);
    assert o.store.pipelines == store.pipelines;
    if proc.pipelinePc.AtExpand? { ReferenceOk(o.store, proc.name, proc.at); }
  }

  lemma AdoptionOk(store: Store, proc: Proc, k: nat)
    requires StoreOk(store) && ProcOk(store, proc) && proc.PipelineProc? && proc.pipelinePc.AtAdopt?
    requires k < |store.pipelines[proc.name].revisions|
    requires var latest := store.pipelines[proc.name].revisions[k].status;
             latest.runRef == "" || latest.runRef == proc.pipelinePc.run
    ensures var latest := store.pipelines[proc.name].revisions[k];
            WriteOk(store, WritePipeline(proc.name, k, PipelineRevision(latest.trigger,
              latest.status.(runRef := proc.pipelinePc.run, phase := Pending), RunAdopted)))
  {
    var p := store.pipelines[proc.name];
    if k + 1 == |p.revisions| {
      ClaimKept(p, proc.at, k);
    }
  }

  lemma CollectionAppendOk(store: Store, proc: Proc, k: nat, now: nat)
    requires StoreOk(store) && ProcOk(store, proc) && proc.PipelineProc? && proc.pipelinePc.AtHistory?
    requires k < |store.platform|
    ensures WriteOk(store, WritePlatform(k, CollectionAppendedRevision(store.platform[k], proc.name,
                                                                       Copy(store, proc).status.version, now)))
  {
    var version := Copy(store, proc).status.version;
    var revision := CollectionAppendedRevision(store.platform[k], proc.name, version, now);
    assert Finished(store.pipelines[proc.name].revisions[proc.at].status);
    assert ReachedComplete(store.pipelines, version);
    forall j | 0 <= j < |revision.collections|
      ensures ReachedComplete(store.pipelines, revision.collections[j].version)
    {
      if j < |store.platform[k].collections| {
        assert revision.collections[j] == store.platform[k].collections[j];
      }
    }
  }

  lemma CollectionAppendKeeps(store: Store, proc: Proc, found: Option<nat>, now: nat)
    requires StoreOk(store) && ProcOk(store, proc) && proc.PipelineProc? && proc.pipelinePc.AtHistory?
    requires PlatformReadable(store, found)
    ensures var o := CollectionAppend(store, proc, found, now);
            o.store == store && (o.proc.Some? ==> ProcOk(store, o.proc.value))
  {
    if found.Some? { CollectionAppendOk(store, proc, found.value, now); }
  }

  lemma RunAdoptKeeps(store: Store, proc: Proc, k: nat)
    requires StoreOk(store) && ProcOk(store, proc) && proc.PipelineProc? && proc.pipelinePc.AtAdopt?
    requires k < |store.pipelines[proc.name].revisions|
    ensures var o := RunAdopt(store, proc, k); o.store == store && o.proc.Some? && ProcOk(store, o.proc.value)
  {
    var latest := store.pipelines[proc.name].revisions[k].status;
    if latest.runRef == "" || latest.runRef == proc.pipelinePc.run { AdoptionOk(store, proc, k); }
  }

  ghost predicate Quiet(step: Step) {
    step.CheckSigning? || step.ReadRun? || step.TrackRun? || step.ReadParent? || step.ReadPlatform? || step.PickVersion? || step.ReadLatest?
  }

  lemma RunTrackKeeps(store: Store, proc: Proc, observed: Option<Stage>)
    requires ProcOk(store, proc) && proc.PipelineProc? && proc.pipelinePc.AtTrack?
    ensures var o := RunTrack(store, proc, observed); o.store == store && o.proc.Some? && ProcOk(store, o.proc.value)
  {
  }

  lemma BaseCheckKeeps(store: Store, proc: Proc, found: Option<nat>)
    requires ProcOk(store, proc) && proc.PipelineProc? && proc.pipelinePc.AtBase? && PlatformReadable(store, found)
    ensures var o := BaseCheck(store, proc, found); o.store == store && o.proc.Some? && ProcOk(store, o.proc.value)
  {
    VersionOk(store, proc.name, proc.at);
  }

  lemma VersionPickKeeps(store: Store, proc: Proc, version: string)
    requires ProcOk(store, proc) && proc.PipelineProc? && proc.pipelinePc.AtVersion? && version != ""
    ensures var o := VersionPick(store, proc, version); o.store == store && o.proc.Some? && ProcOk(store, o.proc.value)
  {
  }

  lemma QuietStepKeeps(store: Store, proc: Proc, step: Step)
    requires StoreOk(store) && ProcOk(store, proc) && proc.PipelineProc? && PipelineApplies(store, proc, step)
    requires Quiet(step)
    ensures var o := PipelineStep(store, proc, step); o.store == store && (o.proc.Some? ==> ProcOk(store, o.proc.value))
  {
    hide StoreOk, WriteOk, Grows, RunTrack, BaseCheck, VersionPick, ParentRead, CollectionAppend, RunAdopt, VolumeRead, RunDrop,
         PipelineCommit, Discard, OnReference, OnVersion;
    match step
    case TrackRun(_, observed) => RunTrackKeeps(store, proc, observed);
    case ReadParent(_, found) => ParentReadKeeps(store, proc, found);
    case ReadPlatform(_, found, now) =>
      if proc.pipelinePc.AtHistory? { CollectionAppendKeeps(store, proc, found, now); }
      else { BaseCheckKeeps(store, proc, found); }
    case PickVersion(_, version) => VersionPickKeeps(store, proc, version);
    case ReadLatest(_, k) => RunAdoptKeeps(store, proc, k);
    case ReadRun(_, _, _) =>
    case CheckSigning(_, _, _) =>
  }

  lemma RunStepKeeps(store: Store, proc: Proc, step: Step)
    requires StoreOk(store) && ProcOk(store, proc) && proc.PipelineProc? && PipelineApplies(store, proc, step)
    requires step.DropRun? || step.CreateRun? || step.DeleteDuplicate?
    ensures var o := PipelineStep(store, proc, step); Grows(store, o.store) && StoreOk(o.store)
  {
    hide StoreOk, Grows, WriteOk, OnReference, OnVersion, OnBase, OnClaim, OnAccepted;
    var o := PipelineStep(store, proc, step);
    RunsChanged(store, o.store.runs);
  }

  lemma RunStepProc(store: Store, proc: Proc, step: Step)
    requires ProcOk(store, proc) && proc.PipelineProc? && PipelineApplies(store, proc, step)
    requires step.DropRun? || step.CreateRun? || step.DeleteDuplicate?
    ensures var o := PipelineStep(store, proc, step); o.proc.Some? ==> ProcOk(o.store, o.proc.value)
  {
    assert PipelineStep(store, proc, step).store.pipelines == store.pipelines;
  }

  lemma PipelineStepKeeps(store: Store, proc: Proc, step: Step)
    requires StoreOk(store) && ProcOk(store, proc) && proc.PipelineProc? && PipelineApplies(store, proc, step)
    ensures var o := PipelineStep(store, proc, step); Grows(store, o.store) && StoreOk(o.store)
  {
    if Quiet(step) {
      QuietStepKeeps(store, proc, step);
    } else if step.Commit? {
      PipelineCommitKeeps(store, proc);
    } else if step.ReadVolume? {
      VolumeReadKeeps(store, proc, step.found);
    } else {
      RunStepKeeps(store, proc, step);
    }
  }

  lemma PipelineStepProc(store: Store, proc: Proc, step: Step)
    requires StoreOk(store) && ProcOk(store, proc) && proc.PipelineProc? && PipelineApplies(store, proc, step)
    ensures var o := PipelineStep(store, proc, step); o.proc.Some? ==> ProcOk(o.store, o.proc.value)
  {
    if Quiet(step) {
      QuietStepKeeps(store, proc, step);
    } else if step.Commit? {
      if Accepts(store, proc.pipelinePc.write) { CommittedOk(store, proc); }
    } else if step.ReadVolume? {
      VolumeReadProc(store, proc, step.found);
    } else {
      RunStepProc(store, proc, step);
    }
  }

  // ---------------------------------------------------------------- the import reconciler

  lemma ImportAppendOk(store: Store, proc: Proc, k: nat, now: nat)
    requires StoreOk(store) && ProcOk(store, proc) && proc.ImportProc? && proc.importPc.AtAppend?
    requires k < |store.platform|
    ensures var spec := store.imports[proc.name].spec;
            WriteOk(store, WritePlatform(k, ImportAppendedRevision(store.platform[k], proc.name,
                                                                   AppendedVersion(proc.name, spec), now)))
  {
    assert store.imports[proc.name].revisions[proc.at].phase.Imported?;
    assert EverImported(store.imports, proc.name);
    assert Sourced(store.pipelines, store.platform[k].collections);
  }

  lemma ImportCommitKeeps(store: Store, proc: Proc)
    requires StoreOk(store) && ProcOk(store, proc) && proc.ImportProc? && proc.importPc.ImportWriting?
    ensures var o := ImportCommit(store, proc); Grows(store, o.store) && StoreOk(o.store)
  {
    hide StoreOk, Settle, PipelineWrite, Sourced, Grows;
    Settled(store, proc.importPc.write);
  }

  lemma ImportCommittedOk(store: Store, proc: Proc)
    requires ProcOk(store, proc) && proc.ImportProc? && proc.importPc.ImportWriting?
    requires Accepts(store, proc.importPc.write)
    ensures var o := ImportCommit(store, proc); o.proc.Some? ==> ProcOk(o.store, o.proc.value)
  {
    var w := proc.importPc.write;
    if w.WriteImport? {
      assert AppendImport(store, proc.name, w.status).imports[proc.name].revisions[w.base + 1] == w.status;
    }
  }

  lemma ImportAdoptKeeps(store: Store, proc: Proc, k: nat)
    requires StoreOk(store) && ProcOk(store, proc) && proc.ImportProc? && proc.importPc.AtImportAdopt?
    requires k < |store.imports[proc.name].revisions|
    ensures var o := ImportAdopt(store, proc, k); o.store == store && o.proc.Some? && ProcOk(store, o.proc.value)
  {
    var i := store.imports[proc.name];
    var latest := i.revisions[k];
    assert Backed(store.runs, latest);
    if latest.phase.Publishing? || latest.phase.Imported? { PublishedHasRun(store.runs, i, k); }
    if k + 1 == |i.revisions| { ImportingUntilRun(store.runs, i, proc.at, k); }
  }

  lemma ImportRunStepKeeps(store: Store, proc: Proc, step: Step)
    requires StoreOk(store) && ProcOk(store, proc) && proc.ImportProc? && ImportApplies(store, proc, step)
    requires step.CreateRun? || step.DeleteDuplicate?
    ensures var o := ImportStep(store, proc, step); Grows(store, o.store) && StoreOk(o.store)
  {
    hide StoreOk, Grows;
    RunsChanged(store, ImportStep(store, proc, step).store.runs);
  }

  lemma ImportStepKeeps(store: Store, proc: Proc, step: Step)
    requires StoreOk(store) && ProcOk(store, proc) && proc.ImportProc? && ImportApplies(store, proc, step)
    ensures var o := ImportStep(store, proc, step); Grows(store, o.store) && StoreOk(o.store)
  {
    hide StoreOk, WriteOk;
    if step.Commit? {
      ImportCommitKeeps(store, proc);
    } else if step.CreateRun? || step.DeleteDuplicate? {
      ImportRunStepKeeps(store, proc, step);
    }
  }

  lemma ImportStepProc(m: Mode, store: Store, proc: Proc, step: Step)
    requires StoreOk(store) && ProcOk(store, proc) && proc.ImportProc? && ImportApplies(store, proc, step)
    requires step.TrackRun? ==> SeesRun(m, store, ImportCopy(store, proc).runRef, step.observed)
    ensures var o := ImportStep(store, proc, step); o.proc.Some? ==> ProcOk(o.store, o.proc.value)
  {
    hide StoreOk, Grows, OnReference, OnVersion, OnBase, OnClaim, OnAccepted;
    if step.Commit? {
      if Accepts(store, proc.importPc.write) { ImportCommittedOk(store, proc); }
    } else if step.ReadPlatform? {
      if proc.importPc.AtAppend? && step.found.Some? { ImportAppendOk(store, proc, step.found.value, step.now); }
    } else if step.ReadLatest? {
      ImportAdoptKeeps(store, proc, step.at);
    }
  }

  lemma {:induction false} PublishedHasRun(runs: map<string, Run>, i: Import, k: nat)
    requires ImportOk(runs, i) && k < |i.revisions|
    requires i.revisions[k].phase.Publishing? || i.revisions[k].phase.Imported?
    ensures i.revisions[k].runRef != ""
  {
    if k > 0 {
      assert ImportWrite(i.revisions[k - 1], i.revisions[k]);
      if i.revisions[k - 1].phase.Publishing? || i.revisions[k - 1].phase.Imported? { PublishedHasRun(runs, i, k - 1); }
    }
  }

  // ---------------------------------------------------------------- the platform reconciler

  lemma {:induction false} CollectedSourced(pipelines: map<string, Pipeline>, list: seq<Listed>, now: nat)
    requires ValidPipelineList(pipelines, list)
    ensures Sourced(pipelines, CollectVersions(pipelines, list, now))
  {
    if |list| > 0 {
      var rest := list[..|list| - 1];
      CollectedSourced(pipelines, rest, now);
      var item := Last(list);
      var status := pipelines[item.name].revisions[item.at].status;
      var collected := CollectVersions(pipelines, list, now);
      forall k | 0 <= k < |collected| ensures ReachedComplete(pipelines, collected[k].version) {
        if k < |CollectVersions(pipelines, rest, now)| {
          assert collected[k] == CollectVersions(pipelines, rest, now)[k];
        } else {
          assert Finished(pipelines[item.name].revisions[item.at].status);
        }
      }
    }
  }

  lemma {:induction false} ImportersImported(imports: map<string, Import>, list: seq<Listed>)
    requires ValidImportList(imports, list)
    ensures forall i :: i in Importers(imports, list) ==> EverImported(imports, i)
  {
    if |list| > 0 {
      ImportersImported(imports, list[..|list| - 1]);
      var item := Last(list);
      if imports[item.name].revisions[item.at].phase.Imported? {
        assert EverImported(imports, item.name);
      }
    }
  }

  lemma AggregateOk(store: Store, proc: Proc, list: seq<Listed>)
    requires StoreOk(store) && ProcOk(store, proc) && proc.PlatformProc? && proc.platformPc.AtImportList?
    requires ValidImportList(store.imports, list)
    ensures forall k :: 0 <= k < |Importers(store.imports, list)| ==> Importers(store.imports, list)[k] in store.imports
    ensures var importers := Importers(store.imports, list);
            WriteOk(store, WritePlatform(proc.at, AggregatedRevision(store.platform[proc.at], proc.platformPc.collections,
                                                                     ImportInfos(store.imports, importers), importers,
                                                                     proc.platformPc.list, proc.platformPc.time, list)))
  {
    ImportersKnown(store.imports, list);
    ImportersImported(store.imports, list);
    assert Sourced(store.pipelines, store.platform[proc.at].collections);
  }

  lemma PlatformStepKeeps(store: Store, proc: Proc, step: Step)
    requires StoreOk(store) && ProcOk(store, proc) && proc.PlatformProc? && PlatformApplies(store, proc, step)
    ensures var o := PlatformStep(store, proc, step); Grows(store, o.store) && StoreOk(o.store)
  {
    hide StoreOk, Grows, WriteOk;
    Unchanged(store);
    if step.Commit? { Settled(store, proc.platformPc.write); }
  }

  lemma PlatformStepProc(store: Store, proc: Proc, step: Step)
    requires StoreOk(store) && ProcOk(store, proc) && proc.PlatformProc? && PlatformApplies(store, proc, step)
    ensures var o := PlatformStep(store, proc, step); o.proc.Some? ==> ProcOk(o.store, o.proc.value)
  {
    hide StoreOk, Grows;
    if step.ListPipelines? {
      CollectedSourced(store.pipelines, step.list, step.now);
    } else if step.ListImports? {
      AggregateOk(store, proc, step.list);
    }
  }

  // ---------------------------------------------------------------- all steps

  lemma ImportStartOk(store: Store, name: string, at: nat)
    requires StoreOk(store) && name in store.imports && at < |store.imports[name].revisions|
    ensures var pc := OnImportRead(name, store.imports[name].spec, at, store.imports[name].revisions[at]);
            pc.Some? ==> ProcOk(store, ImportProc(name, at, pc.value))
  {
    assert Backed(store.runs, store.imports[name].revisions[at]);
  }

  lemma StartOk(store: Store, step: Step)
    requires StoreOk(store) && Begins(step)
    requires step.BeginPipeline? ==> step.name in store.pipelines && step.at < |store.pipelines[step.name].revisions|
    requires step.BeginImport? ==> step.name in store.imports && step.at < |store.imports[step.name].revisions|
    requires step.BeginPlatform? ==> step.at < |store.platform|
    ensures Start(store, step).Some? ==> ProcOk(store, Start(store, step).value)
  {
    if step.BeginPipeline? {
      hide StoreOk, ProcOk, OnRead;
      ReadOk(store, step.name, step.at);
    } else if step.BeginImport? {
      hide StoreOk, ProcOk, OnImportRead;
      ImportStartOk(store, step.name, step.at);
    }
  }

  lemma ProcStepKeeps(m: Mode, s: State, step: Step)
    requires Inv(s) && Takes(m, s, step) && !Environment(step) && !Begins(step)
    ensures var o := ProcStep(s.store, s.procs[step.id], step); Grows(s.store, o.store) && StoreOk(o.store)
  {
    var proc := s.procs[step.id];
    if !step.Stop? {
      match proc
      case PipelineProc(_, _, _, _) => PipelineStepKeeps(s.store, proc, step);
      case ImportProc(_, _, _) => ImportStepKeeps(s.store, proc, step);
      case PlatformProc(_, _) => PlatformStepKeeps(s.store, proc, step);
    }
  }

  lemma ProcStepProc(m: Mode, s: State, step: Step)
    requires Inv(s) && Takes(m, s, step) && !Environment(step) && !Begins(step)
    ensures var o := ProcStep(s.store, s.procs[step.id], step); o.proc.Some? ==> ProcOk(o.store, o.proc.value)
  {
    hide StoreOk, Grows;
    var proc := s.procs[step.id];
    if !step.Stop? {
      match proc
      case PipelineProc(_, _, _, _) => PipelineStepProc(s.store, proc, step);
      case ImportProc(_, _, _) => ImportStepProc(m, s.store, proc, step);
      case PlatformProc(_, _) => PlatformStepProc(s.store, proc, step);
    }
  }

  lemma StoreKept(m: Mode, s: State, step: Step)
    requires Inv(s) && Takes(m, s, step)
    ensures Grows(s.store, Apply(s, step).store) && StoreOk(Apply(s, step).store)
  {
    if Environment(step) {
      EnvironmentKeeps(s.store, step);
    } else if !Begins(step) {
      ProcStepKeeps(m, s, step);
    }
  }

  lemma ActingProcOk(m: Mode, s: State, step: Step)
    requires Inv(s) && Takes(m, s, step) && !Environment(step)
    ensures var next := Apply(s, step); step.id in next.procs ==> ProcOk(next.store, next.procs[step.id])
  {
    if Begins(step) { StartOk(s.store, step); } else { ProcStepProc(m, s, step); }
  }

  /** A step only appends revisions and keeps the invariant. */
  lemma StepKeeps(m: Mode, s: State, step: Step)
    requires Inv(s) && Takes(m, s, step)
    ensures Grows(s.store, Apply(s, step).store) && Inv(Apply(s, step))
  {
    hide StoreOk, Grows, ProcOk;
    StoreKept(m, s, step);
    var next := Apply(s, step);
    forall q | q in next.procs ensures ProcOk(next.store, next.procs[q]) {
      if !Environment(step) && q == step.id { ActingProcOk(m, s, step); }
      else { ProcOkStable(s.store, next.store, s.procs[q]); }
    }
  }

  lemma {:induction false} RunKeeps(m: Mode, s: State, steps: seq<Step>)
    requires Inv(s) && IsRun(m, s, steps)
    ensures Inv(After(m, s, steps))
    decreases |steps|
  {
    if |steps| > 0 {
      StepKeeps(m, s, steps[0]);
      RunKeeps(m, Apply(s, steps[0]), steps[1..]);
    }
  }

  lemma ReachableInv(m: Mode, s: State)
    requires Reachable(m, s)
    ensures Inv(s)
  {
    var steps :| IsRun(m, INITIAL, steps) && After(m, INITIAL, steps) == s;
    RunKeeps(m, INITIAL, steps);
  }
}
