/** What a reconcile has seen before it creates a PipelineRun: the parent complete, the base version in the import history,
    and no signing configuration to wait for. */
module Gates {
  import opened Objects
  import opened Reconcilers
  import opened Protocol
  import opened Invariants
  import opened Preservation
  import opened Growth
  import opened Runs

  /** Beyond the check of the parent. */
  predicate PastParent(pc: PipelinePc) {
    pc.AtBase? || PastBase(pc) || (pc.PipelineWriting? && pc.next.ThenBase?)
  }

  /** Beyond the check of the base version. */
  predicate PastBase(pc: PipelinePc) {
    || pc.AtVersion? || pc.AtParentClaim? || pc.AtVolume? || pc.AtSigning? || pc.AtCreate?
    || (pc.PipelineWriting? && (pc.next.ThenClaim? || pc.next.ThenVolume? || pc.next.ThenCreate?))
  }

  /** The reconcile read its parent, and found it complete. */
  predicate ParentComplete(s: State, step: Step, p: nat, parent: string) {
    && step.ReadParent? && step.id == p && step.found.Some?
    && parent in s.store.pipelines && step.found.value < |s.store.pipelines[parent].revisions|
    && s.store.pipelines[parent].revisions[step.found.value].status.phase.Complete?
  }

  /** The reconcile read the platform, and found none or the version in its import history. */
  ghost predicate BaseListed(s: State, step: Step, p: nat, version: string) {
    && step.ReadPlatform? && step.id == p
    && (step.found.Some? ==>
          step.found.value < |s.store.platform| && VersionListed(s.store.platform[step.found.value].imports, version))
  }

  predicate SigningReady(step: Step, p: nat) {
    step.CheckSigning? && step.id == p && !step.waits
  }

  /** No reconcile begins under this number after step `i`, so step `i` was made by the one at work at `j`. */
  predicate SameReconcile(steps: seq<Step>, i: nat, j: nat, p: nat)
    requires i < j <= |steps|
  {
    forall l :: i < l < j ==> !(Begins(steps[l]) && steps[l].id == p)
  }

  ghost predicate ParentSeen(m: Mode, steps: seq<Step>, j: nat, p: nat, parent: string)
    requires IsRun(m, INITIAL, steps) && j <= |steps|
  {
    exists i: nat :: i < j && SameReconcile(steps, i, j, p) && ParentComplete(StateAt(m, INITIAL, steps, i), steps[i], p, parent)
  }

  ghost predicate BaseSeen(m: Mode, steps: seq<Step>, j: nat, p: nat, version: string)
    requires IsRun(m, INITIAL, steps) && j <= |steps|
  {
    exists i: nat :: i < j && SameReconcile(steps, i, j, p) && BaseListed(StateAt(m, INITIAL, steps, i), steps[i], p, version)
  }

  ghost predicate SigningSeen(steps: seq<Step>, j: nat, p: nat)
    requires j <= |steps|
  {
    exists i: nat :: i < j && SameReconcile(steps, i, j, p) && SigningReady(steps[i], p)
  }

  /** What the pipeline's spec demands to have been seen. */
  ghost predicate Seen(m: Mode, steps: seq<Step>, j: nat, p: nat, spec: PipelineSpec)
    requires IsRun(m, INITIAL, steps) && j <= |steps|
  {
    && (spec.parent != "" ==> ParentSeen(m, steps, j, p, spec.parent))
    && (spec.incremental && spec.baseVersion != "" ==> BaseSeen(m, steps, j, p, spec.baseVersion))
    && SigningSeen(steps, j, p)
  }

  ghost predicate ProcSeen(m: Mode, steps: seq<Step>, j: nat, p: nat, store: Store, proc: Proc)
    requires IsRun(m, INITIAL, steps) && j <= |steps|
  {
    proc.PipelineProc? ==>
      && proc.name in store.pipelines
      && var spec, pc := store.pipelines[proc.name].spec, proc.pipelinePc;
         && (spec.parent != "" && PastParent(pc) ==> ParentSeen(m, steps, j, p, spec.parent))
         && (spec.incremental && spec.baseVersion != "" && PastBase(pc) ==> BaseSeen(m, steps, j, p, spec.baseVersion))
         && (pc.AtCreate? ==> SigningSeen(steps, j, p))
  }

  /** The run was created by a reconcile of the pipeline, after it had seen what the spec demands. */
  ghost predicate CreatedBy(m: Mode, steps: seq<Step>, i: nat, run: string, name: string, spec: PipelineSpec)
    requires IsRun(m, INITIAL, steps)
  {
    && i < |steps| && steps[i].CreateRun? && steps[i].run == run
    && steps[i].id in StateAt(m, INITIAL, steps, i).procs
    && var proc := StateAt(m, INITIAL, steps, i).procs[steps[i].id];
       proc.PipelineProc? && proc.name == name && Seen(m, steps, i, steps[i].id, spec)
  }

  ghost predicate RunCreated(m: Mode, steps: seq<Step>, j: nat, store: Store, run: string)
    requires IsRun(m, INITIAL, steps) && run in store.runs
  {
    store.runs[run].owner.OfPipeline? ==>
      && store.runs[run].owner.name in store.pipelines
      && exists i: nat :: i < j && CreatedBy(m, steps, i, run, store.runs[run].owner.name, store.pipelines[store.runs[run].owner.name].spec)
  }

  ghost predicate GateInv(m: Mode, steps: seq<Step>, j: nat)
    requires IsRun(m, INITIAL, steps) && j <= |steps|
  {
    var s := StateAt(m, INITIAL, steps, j);
    && (forall p :: p in s.procs ==> ProcSeen(m, steps, j, p, s.store, s.procs[p]))
    && (forall run :: run in s.store.runs ==> RunCreated(m, steps, j, s.store, run))
  }

  // ---------------------------------------------------------------- one step

  lemma DecisionsHalt(name: string, spec: PipelineSpec, at: nat, copy: PipelineRevision)
    ensures spec.parent != "" ==> !PastParent(OnRead(name, spec, at, copy)) && !PastParent(OnReference(name, spec, at, copy))
    ensures spec.incremental && spec.baseVersion != "" ==>
              && !PastBase(OnRead(name, spec, at, copy)) && !PastBase(OnReference(name, spec, at, copy))
              && !PastBase(OnBase(name, spec, at, copy))
    ensures !OnRead(name, spec, at, copy).AtCreate? && !OnReference(name, spec, at, copy).AtCreate?
    ensures !OnBase(name, spec, at, copy).AtCreate? && !OnVersion(name, spec, at, copy).AtCreate?
    ensures !OnClaim(name, spec, at, copy).AtCreate?
    ensures forall claim :: !OnClaimKnown(name, at, copy, claim).AtCreate?
  {
    hide RootClaim;
  }

  /** A reconcile gets past a check only by the call that makes it. */
  lemma PassesByCall(s: State, step: Step)
    requires Applicable(s, step) && !Environment(step) && !Begins(step) && s.procs[step.id].PipelineProc?
    requires var next := Apply(s, step); step.id in next.procs && next.procs[step.id].PipelineProc?
    ensures var next, proc := Apply(s, step).procs[step.id], s.procs[step.id];
            && next.name == proc.name && next.name in s.store.pipelines
            && var spec := s.store.pipelines[next.name].spec;
               && (spec.parent != "" && PastParent(next.pipelinePc) ==>
                     PastParent(proc.pipelinePc) || ParentComplete(s, step, step.id, spec.parent))
               && (spec.incremental && spec.baseVersion != "" && PastBase(next.pipelinePc) ==>
                     PastBase(proc.pipelinePc) || BaseListed(s, step, step.id, spec.baseVersion))
               && (next.pipelinePc.AtCreate? ==> SigningReady(step, step.id))
  {
    hide ImportStep, PlatformStep, ImportApplies, PlatformApplies, EnvironmentApplies, OnReference, OnBase, OnVersion, OnClaim,
         OnClaimKnown, VersionListed, PipelineStep, PipelineApplies, PastParent, PastBase;
    PassesBy(s.store, s.procs[step.id], step) by { StepsPipeline(s, step); }
    StepsPipeline(s, step);
    SameAnswer(s, step);
  }

  lemma StepsPipeline(s: State, step: Step)
    requires Applicable(s, step) && !Environment(step) && !Begins(step) && s.procs[step.id].PipelineProc?
    ensures ProcValid(s.store, s.procs[step.id])
    ensures !step.Stop? ==> PipelineApplies(s.store, s.procs[step.id], step)
    ensures step.id in Apply(s, step).procs ==>
              !step.Stop? && PipelineStep(s.store, s.procs[step.id], step).proc == Some(Apply(s, step).procs[step.id])
  {
    hide PipelineStep, PipelineApplies, EnvironmentApplies;
  }

  ghost predicate BasePassed(store: Store, step: Step, version: string) {
    step.ReadPlatform? && (step.found.Some? ==>
      step.found.value < |store.platform| && VersionListed(store.platform[step.found.value].imports, version))
  }

  predicate ParentPassed(store: Store, step: Step, parent: string) {
    && step.ReadParent? && step.found.Some?
    && parent in store.pipelines && step.found.value < |store.pipelines[parent].revisions|
    && store.pipelines[parent].revisions[step.found.value].status.phase.Complete?
  }

  lemma SameAnswer(s: State, step: Step)
    requires !Environment(step)
    ensures forall parent :: ParentPassed(s.store, step, parent) ==> ParentComplete(s, step, step.id, parent)
    ensures forall version :: BasePassed(s.store, step, version) ==> BaseListed(s, step, step.id, version)
  {
  }

  lemma PassesBy(store: Store, proc: Proc, step: Step)
    requires proc.PipelineProc? && ProcValid(store, proc) && PipelineApplies(store, proc, step)
    ensures var o := PipelineStep(store, proc, step);
            o.proc.Some? ==>
              && o.proc.value.PipelineProc? && o.proc.value.name == proc.name && proc.name in store.pipelines
              && var spec, next := store.pipelines[proc.name].spec, o.proc.value.pipelinePc;
                 && (spec.parent != "" && PastParent(next) ==> PastParent(proc.pipelinePc) || ParentPassed(store, step, spec.parent))
                 && (spec.incremental && spec.baseVersion != "" && PastBase(next) ==>
                       PastBase(proc.pipelinePc) || BasePassed(store, step, spec.baseVersion))
                 && (next.AtCreate? ==> step.CheckSigning? && !step.waits)
  {
    hide OnReference, OnBase, OnVersion, OnClaim, OnClaimKnown, VersionListed;
    var spec, copy := SpecOf(store, proc), Copy(store, proc);
    DecisionsHalt(proc.name, spec, proc.at, copy);
    if step.Commit? {
      var w := proc.pipelinePc.write;
      DecisionsHalt(proc.name, spec, if w.WritePipeline? then w.base + 1 else proc.at, if w.WritePipeline? then w.pipeline else copy);
    }
  }

  // ---------------------------------------------------------------- over a run of the system

  lemma LaterSeen(m: Mode, steps: seq<Step>, j: nat, p: nat)
    requires IsRun(m, INITIAL, steps) && j < |steps| && !(Begins(steps[j]) && steps[j].id == p)
    ensures forall parent :: ParentSeen(m, steps, j, p, parent) ==> ParentSeen(m, steps, j + 1, p, parent)
    ensures forall version :: BaseSeen(m, steps, j, p, version) ==> BaseSeen(m, steps, j + 1, p, version)
    ensures SigningSeen(steps, j, p) ==> SigningSeen(steps, j + 1, p)
  {
    hide IsRun, StateAt, ParentComplete, BaseListed, SigningReady;
    assert forall i: nat :: i < j && SameReconcile(steps, i, j, p) ==> SameReconcile(steps, i, j + 1, p);
  }

  lemma JustSeen(m: Mode, steps: seq<Step>, j: nat, p: nat)
    requires IsRun(m, INITIAL, steps) && j < |steps|
    ensures forall parent :: ParentComplete(StateAt(m, INITIAL, steps, j), steps[j], p, parent) ==> ParentSeen(m, steps, j + 1, p, parent)
    ensures forall version :: BaseListed(StateAt(m, INITIAL, steps, j), steps[j], p, version) ==> BaseSeen(m, steps, j + 1, p, version)
    ensures SigningReady(steps[j], p) ==> SigningSeen(steps, j + 1, p)
  {
    hide IsRun, StateAt, ParentComplete, BaseListed, SigningReady;
    assert SameReconcile(steps, j, j + 1, p);
  }

  /** The acting reconcile. */
  lemma ActingSeen(m: Mode, steps: seq<Step>, j: nat, s: State)
    requires IsRun(m, INITIAL, steps) && j < |steps| && s == StateAt(m, INITIAL, steps, j)
    requires Inv(s) && Takes(m, s, steps[j]) && !Environment(steps[j]) && Grows(s.store, Apply(s, steps[j]).store)
    requires steps[j].id in s.procs ==> ProcSeen(m, steps, j, steps[j].id, s.store, s.procs[steps[j].id])
    ensures var next := Apply(s, steps[j]);
            steps[j].id in next.procs ==> ProcSeen(m, steps, j + 1, steps[j].id, next.store, next.procs[steps[j].id])
  {
    hide Inv, Admits, Apply, Applicable, IsRun, StateAt, ParentSeen, BaseSeen, SigningSeen, ParentComplete, BaseListed, SigningReady, PastParent, PastBase,
         RunsGrow, ImportsGrow, VolumesGrow;
    var step, next := steps[j], Apply(s, steps[j]);
    if step.id in next.procs && next.procs[step.id].PipelineProc? {
      if Begins(step) {
        BegunHalts(s, step);
      } else {
        NotBeginning(s, step);
        PassesByCall(s, step);
        LaterSeen(m, steps, j, step.id);
        JustSeen(m, steps, j, step.id);
      }
    }
  }

  lemma NotBeginning(s: State, step: Step)
    requires Applicable(s, step) && !Environment(step) && !Begins(step) && step.id in Apply(s, step).procs
    requires Apply(s, step).procs[step.id].PipelineProc?
    ensures step.id in s.procs && s.procs[step.id].PipelineProc?
  {
    hide EnvironmentApplies, PipelineStep, PipelineApplies, CollectVersions, Importers, ImportInfos, AggregatedRevision, VersionListed;
  }

  lemma BegunHalts(s: State, step: Step)
    requires Applicable(s, step) && Begins(step)
    requires step.id in Apply(s, step).procs && Apply(s, step).procs[step.id].PipelineProc?
    ensures var proc := Apply(s, step).procs[step.id];
            && proc.name in s.store.pipelines && Apply(s, step).store == s.store
            && var spec := s.store.pipelines[proc.name].spec;
               && (spec.parent != "" ==> !PastParent(proc.pipelinePc))
               && (spec.incremental && spec.baseVersion != "" ==> !PastBase(proc.pipelinePc))
               && !proc.pipelinePc.AtCreate?
  {
    hide OnRead, PastParent, PastBase;
    if step.BeginPipeline? {
      DecisionsHalt(step.name, s.store.pipelines[step.name].spec, step.at, s.store.pipelines[step.name].revisions[step.at]);
    }
  }

  lemma BystanderSeen(m: Mode, steps: seq<Step>, j: nat, s: State, p: nat)
    requires IsRun(m, INITIAL, steps) && j < |steps| && s == StateAt(m, INITIAL, steps, j)
    requires Takes(m, s, steps[j]) && Grows(s.store, Apply(s, steps[j]).store)
    requires p in Apply(s, steps[j]).procs && (Environment(steps[j]) || p != steps[j].id)
    requires p in s.procs ==> ProcSeen(m, steps, j, p, s.store, s.procs[p])
    ensures ProcSeen(m, steps, j + 1, p, Apply(s, steps[j]).store, Apply(s, steps[j]).procs[p])
  {
    hide Admits, IsRun, StateAt, ParentSeen, BaseSeen, SigningSeen, ProcStep, EnvironmentStep, Start, EnvironmentApplies, RunsGrow,
         ImportsGrow, VolumesGrow, PastParent, PastBase;
    assert p in s.procs && Apply(s, steps[j]).procs[p] == s.procs[p];
    LaterSeen(m, steps, j, p);
  }

  /** A new run comes from a reconcile that has seen everything. */
  lemma NewRunSeen(m: Mode, steps: seq<Step>, j: nat, s: State, run: string)
    requires IsRun(m, INITIAL, steps) && j < |steps| && s == StateAt(m, INITIAL, steps, j)
    requires Inv(s) && Takes(m, s, steps[j]) && Grows(s.store, Apply(s, steps[j]).store)
    requires forall p :: p in s.procs ==> ProcSeen(m, steps, j, p, s.store, s.procs[p])
    requires forall r :: r in s.store.runs ==> RunCreated(m, steps, j, s.store, r)
    requires run in Apply(s, steps[j]).store.runs
    ensures RunCreated(m, steps, j + 1, Apply(s, steps[j]).store, run)
  {
    hide Inv, Admits, Applicable, Apply, IsRun, StateAt, ParentSeen, BaseSeen, SigningSeen, ImportsGrow, VolumesGrow, ProcValid;
    var step, next := steps[j], Apply(s, steps[j]).store;
    RunGrowth(s, step, run);
    var owner := next.runs[run].owner;
    if owner.OfPipeline? {
      if run in s.store.runs {
        assert RunCreated(m, steps, j, s.store, run);
        var spec := s.store.pipelines[owner.name].spec;
        var i: nat :| i < j && CreatedBy(m, steps, i, run, owner.name, spec);
        assert CreatedBy(m, steps, i, run, owner.name, next.pipelines[owner.name].spec);
      } else {
        CreatedName(s, step, run);
        assert ProcSeen(m, steps, j, step.id, s.store, s.procs[step.id]);
        assert CreatedBy(m, steps, j, run, owner.name, next.pipelines[owner.name].spec);
      }
    }
  }

  lemma CreatedName(s: State, step: Step, run: string)
    requires Applicable(s, step) && step.CreateRun? && run in Apply(s, step).store.runs && run !in s.store.runs
    ensures step.run == run
  {
    hide EnvironmentApplies, CollectVersions, Importers, OnAccepted, OnReference, VersionListed;
  }

  lemma {:induction false} ReachableGates(m: Mode, steps: seq<Step>, j: nat)
    requires IsRun(m, INITIAL, steps) && j <= |steps|
    ensures GateInv(m, steps, j)
  {
    hide Inv, Applicable, Admits, Apply, IsRun, ProcSeen, RunCreated;
    if j > 0 {
      hide StateAt, Grows;
      ReachableGates(m, steps, j - 1);
      StateAtReachable(m, steps, j - 1);
      StateAtStep(m, INITIAL, steps, j - 1);
      var s, step := StateAt(m, INITIAL, steps, j - 1), steps[j - 1];
      StepKeeps(m, s, step);
      var next := StateAt(m, INITIAL, steps, j);
      forall p | p in next.procs ensures ProcSeen(m, steps, j, p, next.store, next.procs[p]) {
        if !Environment(step) && p == step.id { ActingSeen(m, steps, j - 1, s); }
        else { BystanderSeen(m, steps, j - 1, s, p); }
      }
      forall run | run in next.store.runs ensures RunCreated(m, steps, j, next.store, run) {
        NewRunSeen(m, steps, j - 1, s, run);
      }
    }
  }

  // ---------------------------------------------------------------- the theorem

  /** In every run of the system, in every mode, every PipelineRun of a pipeline was created by a reconcile of it that had
      already found its parent complete, if it has one, and, if it is incremental on a base version, had found no platform
      or that version in the import history, and had no signing configuration to wait for. With current reads, finding no
      platform means that there was none. */
  lemma RunPassedItsChecks(m: Mode, steps: seq<Step>, run: string) returns (at: nat)
    requires IsRun(m, INITIAL, steps)
    requires var s := After(m, INITIAL, steps); run in s.store.runs && s.store.runs[run].owner.OfPipeline?
    ensures var s := After(m, INITIAL, steps);
            && s.store.runs[run].owner.name in s.store.pipelines
            && CreatedBy(m, steps, at, run, s.store.runs[run].owner.name, s.store.pipelines[s.store.runs[run].owner.name].spec)
  {
    hide Apply, IsRun, After, StateAt, CreatedBy;
    ReachableGates(m, steps, |steps|);
    StateAtEnd(m, INITIAL, steps);
    var s := After(m, INITIAL, steps);
    assert RunCreated(m, steps, |steps|, s.store, run);
    at :| at < |steps| && CreatedBy(m, steps, at, run, s.store.runs[run].owner.name, s.store.pipelines[s.store.runs[run].owner.name].spec);
  }

  /** With current reads, an incremental pipeline has a run only if at some step its base version was in the platform's
      current import history, or there was no platform. */
  lemma BaseVersionImported(m: Mode, steps: seq<Step>, run: string) returns (i: nat)
    requires IsRun(m, INITIAL, steps) && m.view == CurrentReads
    requires var s := After(m, INITIAL, steps);
             && run in s.store.runs && s.store.runs[run].owner.OfPipeline?
             && s.store.runs[run].owner.name in s.store.pipelines
             && s.store.pipelines[s.store.runs[run].owner.name].spec.incremental
             && s.store.pipelines[s.store.runs[run].owner.name].spec.baseVersion != ""
    ensures i < |steps|
    ensures var platform, base := StateAt(m, INITIAL, steps, i).store.platform,
              After(m, INITIAL, steps).store.pipelines[After(m, INITIAL, steps).store.runs[run].owner.name].spec.baseVersion;
            |platform| == 0 || VersionListed(Last(platform).imports, base)
  {
    hide Apply, IsRun, After, StateAt, Applicable;
    var at := RunPassedItsChecks(m, steps, run);
    var s := After(m, INITIAL, steps);
    var base := s.store.pipelines[s.store.runs[run].owner.name].spec.baseVersion;
    assert BaseSeen(m, steps, at, steps[at].id, base);
    i :| i < at && SameReconcile(steps, i, at, steps[at].id) && BaseListed(StateAt(m, INITIAL, steps, i), steps[i], steps[at].id, base);
    StateAtStep(m, INITIAL, steps, i);
  }
}
