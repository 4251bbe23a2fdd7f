/** What the phase of a pipeline or an import says about its run: it is that of the run's own stage, with stale reads,
    crashes and overlapping reconciles. */
module RunPhases {
  import opened Objects
  import opened Reconcilers
  import opened Protocol
  import opened Invariants
  import opened Preservation
  import opened Lifecycle
  import opened Growth
  import opened PlatformHistory

  /** The run exists and has reached this result. */
  predicate Ended(runs: map<string, Run>, run: string, succeeded: bool) {
    run in runs && runs[run].stage == Completed(succeeded)
  }

  predicate PhaseBacked(runs: map<string, Run>, status: PipelineStatus) {
    && (status.phase.Complete? ==> Ended(runs, status.runRef, true))
    && (status.phase.Failed? && status.runRef != "" ==> Ended(runs, status.runRef, false))
    && (status.phase.Collecting? ==> status.runRef in runs && !runs[status.runRef].stage.Waiting?)
    && !status.phase.Succeeded?
  }

  predicate FailureBacked(runs: map<string, Run>, status: ImportStatus) {
    status.phase.ImportFailed? && status.runRef != "" ==> Ended(runs, status.runRef, false)
  }

  ghost predicate RevisionsBacked(store: Store) {
    && (forall n, k :: n in store.pipelines && 0 <= k < |store.pipelines[n].revisions| ==>
          PhaseBacked(store.runs, store.pipelines[n].revisions[k].status))
    && (forall n, k :: n in store.imports && 0 <= k < |store.imports[n].revisions| ==>
          FailureBacked(store.runs, store.imports[n].revisions[k]))
  }

  /** What the reconcile has prepared to write, unless it is already certain to be refused. */
  predicate WriteBacked(store: Store, proc: Proc) {
    match proc
    case PipelineProc(_, _, _, PipelineWriting(w, _)) => w.WritePipeline? ==> PhaseBacked(store.runs, w.pipeline.status)
    case ImportProc(_, _, ImportWriting(w, _)) =>
      w.WriteImport? && Targets(store, w) && Accepts(store, w) ==> FailureBacked(store.runs, w.status)
    case _ => true
  }

  ghost predicate BackedInv(s: State) {
    RevisionsBacked(s.store) && forall p :: p in s.procs ==> WriteBacked(s.store, s.procs[p])
  }

  // ---------------------------------------------------------------- stages only move on

  lemma PhaseStays(a: map<string, Run>, b: map<string, Run>, status: PipelineStatus)
    requires RunsGrow(a, b) && PhaseBacked(a, status)
    ensures PhaseBacked(b, status)
  {
  }

  lemma FailureStays(a: map<string, Run>, b: map<string, Run>, status: ImportStatus)
    requires RunsGrow(a, b) && FailureBacked(a, status)
    ensures FailureBacked(b, status)
  {
  }

  lemma WriteStays(a: Store, b: Store, proc: Proc)
    requires Grows(a, b) && ProcValid(a, proc) && WriteBacked(a, proc)
    ensures WriteBacked(b, proc)
  {
  }

  // ---------------------------------------------------------------- the acting reconcile

  /** The local decisions write no phase but the one in hand, or none. */
  predicate KeepsPhase(copy: PipelineStatus, pc: PipelinePc) {
    pc.PipelineWriting? && pc.write.WritePipeline? ==>
      var status := pc.write.pipeline.status;
      status.phase.Unset? || (status.phase == copy.phase && status.runRef == copy.runRef)
  }

  lemma DecisionsKeepPhase(name: string, spec: PipelineSpec, at: nat, copy: PipelineRevision)
    ensures KeepsPhase(copy.status, OnRead(name, spec, at, copy)) && KeepsPhase(copy.status, OnReference(name, spec, at, copy))
    ensures KeepsPhase(copy.status, OnBase(name, spec, at, copy)) && KeepsPhase(copy.status, OnVersion(name, spec, at, copy))
    ensures KeepsPhase(copy.status, OnClaim(name, spec, at, copy))
    ensures forall claim :: KeepsPhase(copy.status, OnClaimKnown(name, at, copy, claim))
    ensures forall next :: OnAccepted(name, spec, at, copy, next).Some? ==>
              KeepsPhase(copy.status, OnAccepted(name, spec, at, copy, next).value)
  {
  }

  lemma KeptBacked(runs: map<string, Run>, copy: PipelineStatus, pc: PipelinePc)
    requires PhaseBacked(runs, copy) && KeepsPhase(copy, pc)
    ensures pc.PipelineWriting? && pc.write.WritePipeline? ==> PhaseBacked(runs, pc.write.pipeline.status)
  {
  }

  lemma CopyBacked(s: State, p: nat)
    requires BackedInv(s) && p in s.procs && s.procs[p].PipelineProc? && ProcValid(s.store, s.procs[p])
    ensures PhaseBacked(s.store.runs, Copy(s.store, s.procs[p]).status) && WriteBacked(s.store, s.procs[p])
  {
  }

  /** The phase that is sent for a run is that of a stage it has reached. */
  lemma TrackedBacked(m: Mode, s: State, step: Step)
    requires Inv(s) && Takes(m, s, step) && step.TrackRun? && s.procs[step.id].PipelineProc?
    ensures var o := PipelineStep(s.store, s.procs[step.id], step); o.proc.Some? ==> WriteBacked(s.store, o.proc.value)
  {
    hide StoreOk, ProcsOk, PipelineApplies, ImportApplies, PlatformApplies;
    TrackApplies(s, step);
    if step.observed.Some? { StageOf(m, s, step); }
  }

  lemma TrackApplies(s: State, step: Step)
    requires Applicable(s, step) && step.TrackRun? && s.procs[step.id].PipelineProc?
    ensures ProcValid(s.store, s.procs[step.id]) && PipelineApplies(s.store, s.procs[step.id], step)
  {
  }

  lemma StageOf(m: Mode, s: State, step: Step)
    requires Takes(m, s, step) && step.TrackRun? && step.observed.Some? && s.procs[step.id].PipelineProc?
    ensures ProcValid(s.store, s.procs[step.id])
    ensures var run := Copy(s.store, s.procs[step.id]).status.runRef;
            run in s.store.runs && NotLater(step.observed.value, s.store.runs[run].stage)
  {
    hide PipelineApplies, ImportApplies, PlatformApplies, EnvironmentApplies;
  }

  lemma PipelineActs(m: Mode, s: State, step: Step)
    requires Inv(s) && Takes(m, s, step) && BackedInv(s) && !Environment(step) && !Begins(step) && !step.Stop?
    requires s.procs[step.id].PipelineProc?
    ensures var o := PipelineStep(s.store, s.procs[step.id], step); o.proc.Some? ==> WriteBacked(s.store, o.proc.value)
  {
    hide StoreOk, ProcsOk, Admits, RevisionsBacked, WriteBacked, PhaseBacked, KeepsPhase, ImportApplies, PlatformApplies, EnvironmentApplies,
         BackedInv, PipelineStep;
    if step.TrackRun? {
      TrackedBacked(m, s, step);
    } else {
      ProcIs(s, step.id);
      CopyBacked(s, step.id);
      OthersBacked(s.store, s.procs[step.id], step);
    }
  }

  lemma ProcIs(s: State, p: nat)
    requires ProcsOk(s) && p in s.procs
    ensures ProcOk(s.store, s.procs[p]) && ProcValid(s.store, s.procs[p])
  {
  }

  lemma OthersBacked(store: Store, proc: Proc, step: Step)
    requires proc.PipelineProc? && ProcOk(store, proc) && PipelineApplies(store, proc, step) && !step.TrackRun?
    requires PhaseBacked(store.runs, Copy(store, proc).status) && WriteBacked(store, proc)
    ensures var o := PipelineStep(store, proc, step); o.proc.Some? ==> WriteBacked(store, o.proc.value)
  {
    hide WriteOk, OnReference, OnBase, OnVersion, OnClaim, OnClaimKnown, OnAccepted, Ended, VersionListed, Grows;
    var spec, copy := SpecOf(store, proc), Copy(store, proc);
    if step.Commit? {
      CommitBacked(store, proc);
    } else if step.ReadParent? {
      ParentBacked(store, proc, step.found);
    } else {
      DecisionsKeepPhase(proc.name, spec, proc.at, copy);
      hide KeepsPhase;
      KeptBacked(store.runs, copy.status, OnReference(proc.name, spec, proc.at, copy));
      KeptBacked(store.runs, copy.status, OnVersion(proc.name, spec, proc.at, copy));
    }
  }

  lemma CommitBacked(store: Store, proc: Proc)
    requires proc.PipelineProc? && ProcOk(store, proc) && proc.pipelinePc.PipelineWriting?
    requires PhaseBacked(store.runs, Copy(store, proc).status) && WriteBacked(store, proc)
    ensures var o := PipelineCommit(store, proc); o.proc.Some? ==> WriteBacked(store, o.proc.value)
  {
    hide WriteOk, OnAccepted, KeepsPhase, Ended;
    var w := proc.pipelinePc.write;
    var at := if w.WritePipeline? then w.base + 1 else proc.at;
    var copy := if w.WritePipeline? then w.pipeline else Copy(store, proc);
    var continued := OnAccepted(proc.name, SpecOf(store, proc), at, copy, proc.pipelinePc.next);
    DecisionsKeepPhase(proc.name, SpecOf(store, proc), at, copy);
    if continued.Some? { KeptBacked(store.runs, copy.status, continued.value); }
  }

  lemma ParentBacked(store: Store, proc: Proc, found: Option<nat>)
    requires proc.PipelineProc? && ProcOk(store, proc) && ParentReadable(store, proc, found)
    requires PhaseBacked(store.runs, Copy(store, proc).status)
    ensures var o := ParentRead(store, proc, found); o.proc.Some? ==> WriteBacked(store, o.proc.value)
  {
    hide WriteOk, OnBase, OnClaimKnown, KeepsPhase, Ended;
    var spec, copy := SpecOf(store, proc), Copy(store, proc);
    DecisionsKeepPhase(proc.name, spec, proc.at, copy);
    KeptBacked(store.runs, copy.status, OnBase(proc.name, spec, proc.at, copy));
    if found.Some? && proc.pipelinePc.AtParentClaim? {
      var parent := store.pipelines[spec.parent].revisions[found.value].status;
      KeptBacked(store.runs, copy.status,
                 OnClaimKnown(proc.name, proc.at, copy, if parent.claim != "" then parent.claim else OwnClaim(spec.parent)));
    }
  }

  // ---------------------------------------------------------------- imports

  /** An import that has not started names no run. */
  lemma {:induction false} UnstartedUnreferenced(runs: map<string, Run>, i: Import, k: nat)
    requires ImportOk(runs, i) && k < |i.revisions| && i.revisions[k].phase.NotStarted?
    ensures i.revisions[k].runRef == ""
  {
    hide Backed;
    if k > 0 {
      assert ImportWrite(i.revisions[k - 1], i.revisions[k]);
      UnstartedUnreferenced(runs, i, k - 1);
    }
  }

  lemma ImportActs(m: Mode, s: State, step: Step)
    requires Inv(s) && Takes(m, s, step) && BackedInv(s) && !Environment(step) && !Begins(step) && !step.Stop?
    requires s.procs[step.id].ImportProc?
    requires var o := ImportStep(s.store, s.procs[step.id], step); o.proc.Some? ==> ProcOk(s.store, o.proc.value) || step.CreateRun? || step.Commit?
    ensures var o := ImportStep(s.store, s.procs[step.id], step); o.proc.Some? ==> WriteBacked(s.store, o.proc.value)
  {
    hide StoreOk, ProcsOk, PipelineApplies, PlatformApplies, EnvironmentApplies, PipelineStep, PlatformStep, VersionListed, PlatformWrite, Sourced,
         Backed, ImportWrite, RevisionsBacked;
    var proc := s.procs[step.id];
    ProcIs(s, step.id);
    if step.ReadPlatform? && proc.importPc.AtVersionCheck? { Unreferenced(s, proc.name, proc.at); }
    if step.ReadLatest? { AdoptionBacked(s, step); }
  }

  lemma Unreferenced(s: State, name: string, k: nat)
    requires StoreOk(s.store) && name in s.store.imports && k < |s.store.imports[name].revisions|
    ensures s.store.imports[name].revisions[k].phase.NotStarted? ==> s.store.imports[name].revisions[k].runRef == ""
  {
    hide PipelineOk, ImportOk, VolumeOk, PlatformOk;
    assert ImportOk(s.store.runs, s.store.imports[name]);
    if s.store.imports[name].revisions[k].phase.NotStarted? { UnstartedUnreferenced(s.store.runs, s.store.imports[name], k); }
  }

  /** An import that has failed adopts no run. */
  lemma AdoptionBacked(s: State, step: Step)
    requires Inv(s) && BackedInv(s) && step.ReadLatest? && step.id in s.procs && s.procs[step.id].ImportProc?
    requires ProcValid(s.store, s.procs[step.id]) && ImportApplies(s.store, s.procs[step.id], step)
    requires var o := ImportStep(s.store, s.procs[step.id], step); o.proc.Some? ==> ProcOk(s.store, o.proc.value)
    ensures var o := ImportStep(s.store, s.procs[step.id], step); o.proc.Some? ==> WriteBacked(s.store, o.proc.value)
  {
    hide StoreOk, ProcsOk, Backed, PlatformWrite, Sourced;
    var latest := s.store.imports[s.procs[step.id].name].revisions[step.at];
    assert FailureBacked(s.store.runs, latest);
  }

  // ---------------------------------------------------------------- every step

  lemma ActingBacked(m: Mode, s: State, step: Step)
    requires Inv(s) && Takes(m, s, step) && BackedInv(s) && !Environment(step)
    requires Grows(s.store, Apply(s, step).store) && Inv(Apply(s, step))
    ensures var next := Apply(s, step); step.id in next.procs ==> WriteBacked(next.store, next.procs[step.id])
  {
    hide StoreOk, Admits, PipelineStep, ImportStep, PlatformStep, WriteBacked, Grows, RevisionsBacked, ProcsOk;
    if Begins(step) {
      StartBacked(s, step);
    } else if step.Stop? {
    } else if s.procs[step.id].PipelineProc? {
      PipelineActs(m, s, step);
      PipelineLater(s, step);
    } else if s.procs[step.id].ImportProc? {
      ImportLater(m, s, step);
    } else {
      PlatformsWriteNothing(s, step);
    }
  }

  lemma PlatformsWriteNothing(s: State, step: Step)
    requires Applicable(s, step) && !Environment(step) && !Begins(step) && !step.Stop? && s.procs[step.id].PlatformProc?
    ensures var next := Apply(s, step); step.id in next.procs ==> WriteBacked(next.store, next.procs[step.id])
  {
    hide EnvironmentApplies, PipelineStep, PipelineApplies, ImportStep, ImportApplies, CollectVersions, Importers, ImportInfos,
         AggregatedRevision;
  }

  /** What is backed before the step's own change of the store is so after it. */
  lemma PipelineLater(s: State, step: Step)
    requires Applicable(s, step) && !Environment(step) && !Begins(step) && !step.Stop? && s.procs[step.id].PipelineProc?
    requires Grows(s.store, Apply(s, step).store)
    requires var o := PipelineStep(s.store, s.procs[step.id], step); o.proc.Some? ==> WriteBacked(s.store, o.proc.value)
    ensures var next := Apply(s, step); step.id in next.procs ==> WriteBacked(next.store, next.procs[step.id])
  {
    hide PipelineStep, PipelineApplies, ImportStep, PlatformStep, EnvironmentApplies, PhaseBacked, FailureBacked;
    var o := PipelineStep(s.store, s.procs[step.id], step);
    StaysPipeline(s.store, s.procs[step.id], step);
    if o.proc.Some? && o.proc.value.pipelinePc.PipelineWriting? && o.proc.value.pipelinePc.write.WritePipeline? {
      PhaseStays(s.store.runs, o.store.runs, o.proc.value.pipelinePc.write.pipeline.status);
    }
  }

  lemma StaysPipeline(store: Store, proc: Proc, step: Step)
    requires proc.PipelineProc? && ProcValid(store, proc) && PipelineApplies(store, proc, step)
    ensures var o := PipelineStep(store, proc, step); o.proc.Some? ==> o.proc.value.PipelineProc?
  {
    hide OnReference, OnBase, OnVersion, OnClaim, OnAccepted, VersionListed;
  }

  lemma ImportLater(m: Mode, s: State, step: Step)
    requires Inv(s) && Takes(m, s, step) && BackedInv(s) && !Environment(step) && !Begins(step) && !step.Stop?
    requires s.procs[step.id].ImportProc? && Grows(s.store, Apply(s, step).store) && Inv(Apply(s, step))
    ensures var next := Apply(s, step); step.id in next.procs ==> WriteBacked(next.store, next.procs[step.id])
  {
    hide StoreOk, ProcsOk, Admits, PipelineStep, PlatformStep, PipelineApplies, PlatformApplies, EnvironmentApplies, RevisionsBacked,
         FailureBacked, Grows, VersionListed, WriteOk, BackedInv, ProcOk;
    var next, proc := Apply(s, step), s.procs[step.id];
    if step.id in next.procs && next.procs[step.id].ImportProc? && next.procs[step.id].importPc.ImportWriting? {
      assert step.TrackRun? || step.ReadPlatform? || step.ReadLatest?;
      assert next.store == s.store;
      ProcIs(next, step.id);
      ImportActs(m, s, step);
    }
  }

  lemma StartBacked(s: State, step: Step)
    requires Inv(s) && Applicable(s, step) && BackedInv(s) && Begins(step)
    ensures var next := Apply(s, step); step.id in next.procs ==> WriteBacked(next.store, next.procs[step.id])
  {
    hide ProcsOk, StoreOk, OnRead, Ended;
    if step.BeginPipeline? {
      var p := s.store.pipelines[step.name];
      DecisionsKeepPhase(step.name, p.spec, step.at, p.revisions[step.at]);
      hide KeepsPhase;
      KeptBacked(s.store.runs, p.revisions[step.at].status, OnRead(step.name, p.spec, step.at, p.revisions[step.at]));
    }
  }

  lemma RevisionsAfter(s: State, step: Step)
    requires Inv(s) && Applicable(s, step) && BackedInv(s) && Grows(s.store, Apply(s, step).store)
    ensures RevisionsBacked(Apply(s, step).store)
  {
    hide Inv, Applicable, Apply, PhaseBacked, FailureBacked, PipelinesGrow, ImportsGrow, VolumesGrow, RunsGrow, Environment;
    var next := Apply(s, step).store;
    forall n, k | n in next.pipelines && 0 <= k < |next.pipelines[n].revisions|
      ensures PhaseBacked(next.runs, next.pipelines[n].revisions[k].status)
    {
      PipelineRevisionBacked(s, step, n, k);
    }
    forall n, k | n in next.imports && 0 <= k < |next.imports[n].revisions|
      ensures FailureBacked(next.runs, next.imports[n].revisions[k])
    {
      ImportRevisionBacked(s, step, n, k);
    }
  }

  lemma PipelineRevisionBacked(s: State, step: Step, n: string, k: nat)
    requires Inv(s) && Applicable(s, step) && BackedInv(s) && Grows(s.store, Apply(s, step).store)
    requires n in Apply(s, step).store.pipelines && k < |Apply(s, step).store.pipelines[n].revisions|
    ensures PhaseBacked(Apply(s, step).store.runs, Apply(s, step).store.pipelines[n].revisions[k].status)
  {
    hide Inv, Applicable, Apply, PipelinesGrow, ImportsGrow, VolumesGrow, RunsGrow, Environment, Ended;
    PipelineGrowth(s, step, n);
    var before, after := s.store.runs, Apply(s, step).store.pipelines[n].revisions;
    if n in s.store.pipelines {
      var was := s.store.pipelines[n].revisions;
      if k < |was| {
        assert after[k] == was[k];
      } else if Commits(s, step, n, after[k]) {
        assert WriteBacked(s.store, s.procs[step.id]);
      } else {
        assert PhaseBacked(before, Last(was).status);
      }
      PhaseStays(before, Apply(s, step).store.runs, after[k].status);
    }
  }

  lemma ImportRevisionBacked(s: State, step: Step, n: string, k: nat)
    requires Inv(s) && Applicable(s, step) && BackedInv(s) && Grows(s.store, Apply(s, step).store)
    requires n in Apply(s, step).store.imports && k < |Apply(s, step).store.imports[n].revisions|
    ensures FailureBacked(Apply(s, step).store.runs, Apply(s, step).store.imports[n].revisions[k])
  {
    hide Inv, Applicable, Apply, PipelinesGrow, ImportsGrow, VolumesGrow, RunsGrow, Environment, Ended;
    ImportGrowth(s, step, n);
    var before, after := s.store.runs, Apply(s, step).store.imports[n].revisions;
    if n in s.store.imports {
      var was := s.store.imports[n].revisions;
      if k < |was| {
        assert after[k] == was[k];
      } else if CommitsImport(s, step, n, after[k]) {
        assert WriteBacked(s.store, s.procs[step.id]);
      } else {
        assert FailureBacked(before, Last(was));
      }
      FailureStays(before, Apply(s, step).store.runs, after[k]);
    }
  }

  lemma BackedStep(m: Mode, s: State, step: Step)
    requires Inv(s) && Takes(m, s, step) && BackedInv(s)
    ensures BackedInv(Apply(s, step))
  {
    hide Applicable, Admits, Grows, WriteBacked, RevisionsBacked, ProcStep, EnvironmentStep, Start, StoreOk, ProcOk, ProcValid;
    StepKeeps(m, s, step);
    RevisionsAfter(s, step);
    var next := Apply(s, step);
    forall p | p in next.procs ensures WriteBacked(next.store, next.procs[p]) {
      if !Environment(step) && p == step.id {
        ActingBacked(m, s, step);
      } else {
        ProcIs(s, p);
        WriteStays(s.store, next.store, s.procs[p]);
      }
    }
  }

  lemma {:induction false} BackedRun(m: Mode, s: State, steps: seq<Step>)
    requires Inv(s) && BackedInv(s) && IsRun(m, s, steps)
    ensures BackedInv(After(m, s, steps))
    decreases |steps|
  {
    hide Inv, BackedInv, Apply, Applicable, Admits;
    if |steps| > 0 {
      StepKeeps(m, s, steps[0]);
      BackedStep(m, s, steps[0]);
      BackedRun(m, Apply(s, steps[0]), steps[1..]);
    }
  }

  lemma ReachableBacked(m: Mode, s: State)
    requires Reachable(m, s)
    ensures BackedInv(s)
  {
    hide Apply, Applicable, Admits;
    var steps :| IsRun(m, INITIAL, steps) && After(m, INITIAL, steps) == s;
    BackedRun(m, INITIAL, steps);
  }

  // ---------------------------------------------------------------- the theorems

  /** In every revision of every pipeline: Complete names a run that completed with Succeeded=True, Failed with a run one
      that completed without, and Collecting one that has started. */
  lemma PhaseIsOfRun(m: Mode, s: State, name: string, k: nat)
    requires Reachable(m, s) && name in s.store.pipelines && k < |s.store.pipelines[name].revisions|
    ensures var status, runs := s.store.pipelines[name].revisions[k].status, s.store.runs;
            && (status.phase.Complete? ==> status.runRef in runs && runs[status.runRef].stage == Completed(true))
            && (status.phase.Failed? && status.runRef != "" ==> status.runRef in runs && runs[status.runRef].stage == Completed(false))
            && (status.phase.Collecting? ==> status.runRef in runs && !runs[status.runRef].stage.Waiting?)
            && !status.phase.Succeeded?
  {
    hide Reachable;
    ReachableBacked(m, s);
    assert PhaseBacked(s.store.runs, s.store.pipelines[name].revisions[k].status);
  }

  /** An import that failed after it named a run names one that completed without Succeeded=True. */
  lemma FailedImportIsOfRun(m: Mode, s: State, name: string, k: nat)
    requires Reachable(m, s) && name in s.store.imports && k < |s.store.imports[name].revisions|
    ensures var status, runs := s.store.imports[name].revisions[k], s.store.runs;
            status.phase.ImportFailed? && status.runRef != "" ==>
              status.runRef in runs && runs[status.runRef].stage == Completed(false)
  {
    hide Reachable;
    ReachableBacked(m, s);
    assert FailureBacked(s.store.runs, s.store.imports[name].revisions[k]);
  }

  /** Every collection version that any platform revision lists is that of a pipeline whose run completed with
      Succeeded=True. */
  lemma ListedVersionsSucceeded(m: Mode, s: State, k: nat, j: nat)
    requires Reachable(m, s) && k < |s.store.platform| && j < |s.store.platform[k].collections|
    ensures exists n, l :: n in s.store.pipelines && 0 <= l < |s.store.pipelines[n].revisions|
              && s.store.pipelines[n].revisions[l].status.version == s.store.platform[k].collections[j].version
              && s.store.pipelines[n].revisions[l].status.runRef in s.store.runs
              && s.store.runs[s.store.pipelines[n].revisions[l].status.runRef].stage == Completed(true)
  {
    hide Reachable, BackedInv;
    HistoriesConsistent(m, s, k);
    var n, l :| n in s.store.pipelines && 0 <= l < |s.store.pipelines[n].revisions|
                && s.store.pipelines[n].revisions[l].status.phase.Complete?
                && s.store.pipelines[n].revisions[l].status.version == s.store.platform[k].collections[j].version;
    PhaseIsOfRun(m, s, n, l);
  }
}
