/** How one step can change the pipelines and the runs: what the step-by-step proofs need to know about the programs. */
module Growth {
  import opened Objects
  import opened Reconcilers
  import opened Protocol
  import opened Invariants
  import opened Preservation

  /** The revision this step's reconcile is trying to append to its pipeline. */
  predicate Commits(s: State, step: Step, name: string, revision: PipelineRevision) {
    && step.Commit? && step.id in s.procs && s.procs[step.id].PipelineProc? && s.procs[step.id].name == name
    && s.procs[step.id].pipelinePc.PipelineWriting?
    && s.procs[step.id].pipelinePc.write.WritePipeline? && s.procs[step.id].pipelinePc.write.name == name
    && s.procs[step.id].pipelinePc.write.pipeline == revision
    && name in s.store.pipelines && s.procs[step.id].pipelinePc.write.base + 1 == |s.store.pipelines[name].revisions|
  }

  lemma StopKeepsStore(s: State, step: Step)
    requires Applicable(s, step) && step.Stop?
    ensures Apply(s, step).store == s.store
  {
  }

  /** A pipeline is new and blank, unchanged, edited without touching its status, or written by a reconcile of it. */
  lemma PipelineGrowth(s: State, step: Step, name: string)
    requires Inv(s) && Applicable(s, step) && name in Apply(s, step).store.pipelines
    ensures var after := Apply(s, step).store.pipelines[name];
            if name !in s.store.pipelines then
              |after.revisions| == 1 && after.revisions[0].status == FRESH_STATUS
            else
              var before := s.store.pipelines[name];
              && after.spec == before.spec && |before.revisions| > 0
              && (|| after.revisions == before.revisions
                  || (exists r :: after.revisions == before.revisions + [r] &&
                        ((Environment(step) && r.status == Last(before.revisions).status) || Commits(s, step, name, r))))
  {
    hide ProcOk, PlatformOk, ImportOk, VolumeOk, ProcStep, PipelineWrite;
    if Environment(step) {
      if name in s.store.pipelines { EditGrowth(s, step, name); }
    } else if !Begins(step) && !step.Stop? {
      ProcStepGrowth(s, step, name);
      assert PipelineOk(s.store.pipelines[name]);
    } else {
      if step.Stop? { StopKeepsStore(s, step); }
      assert PipelineOk(s.store.pipelines[name]);
    }
  }

  lemma EditGrowth(s: State, step: Step, name: string)
    requires StoreOk(s.store) && Environment(step) && EnvironmentApplies(s.store, step) && name in s.store.pipelines
    ensures var after := EnvironmentStep(s.store, step).pipelines;
            var before := s.store.pipelines[name];
            && name in after && after[name].spec == before.spec && |before.revisions| > 0
            && (|| after[name].revisions == before.revisions
                || (exists r :: after[name].revisions == before.revisions + [r] && r.status == Last(before.revisions).status))
  {
    hide PlatformOk, ImportOk, VolumeOk, PipelineWrite;
    assert PipelineOk(s.store.pipelines[name]);
    var before, after := s.store.pipelines[name].revisions, EnvironmentStep(s.store, step).pipelines[name].revisions;
    if (step.SetTrigger? || step.ClearTrigger? || step.TouchPipeline?) && step.name == name {
      assert after == before + [Last(after)];
    }
  }

  lemma ProcStepGrowth(s: State, step: Step, name: string)
    requires StoreOk(s.store) && Applicable(s, step) && !Environment(step) && !Begins(step) && !step.Stop?
    requires name in Apply(s, step).store.pipelines
    ensures name in s.store.pipelines && Apply(s, step).store.pipelines[name].spec == s.store.pipelines[name].spec
    ensures var before, after := s.store.pipelines[name].revisions, Apply(s, step).store.pipelines[name].revisions;
            after == before || (exists r :: after == before + [r] && Commits(s, step, name, r))
  {
    hide StoreOk, OnAccepted, OnReference;
    var proc := s.procs[step.id];
    var after := Apply(s, step).store.pipelines[name].revisions;
    if step.Commit? && proc.PipelineProc? && proc.pipelinePc.write.WritePipeline? && proc.name == name
       && Accepts(s.store, proc.pipelinePc.write) {
      assert after == s.store.pipelines[name].revisions + [proc.pipelinePc.write.pipeline];
      assert Commits(s, step, name, proc.pipelinePc.write.pipeline);
    }
  }

  /** The status this step's reconcile is trying to append to its import. */
  predicate CommitsImport(s: State, step: Step, name: string, status: ImportStatus) {
    && step.Commit? && step.id in s.procs && s.procs[step.id].ImportProc? && s.procs[step.id].name == name
    && s.procs[step.id].importPc.ImportWriting?
    && s.procs[step.id].importPc.write.WriteImport? && s.procs[step.id].importPc.write.name == name
    && s.procs[step.id].importPc.write.status == status
    && name in s.store.imports && s.procs[step.id].importPc.write.base + 1 == |s.store.imports[name].revisions|
  }

  /** An import is new and blank, unchanged, touched, or written by a reconcile of it. */
  lemma ImportGrowth(s: State, step: Step, name: string)
    requires Inv(s) && Applicable(s, step) && name in Apply(s, step).store.imports
    ensures var after := Apply(s, step).store.imports[name];
            if name !in s.store.imports then after.revisions == [ImportStatus(NotStarted, "")]
            else
              var before := s.store.imports[name];
              && after.spec == before.spec && |before.revisions| > 0
              && (|| after.revisions == before.revisions
                  || (exists r :: after.revisions == before.revisions + [r] &&
                        ((Environment(step) && r == Last(before.revisions)) || CommitsImport(s, step, name, r))))
  {
    hide ProcOk, PlatformOk, PipelineOk, VolumeOk, ProcStep, ImportWrite, Backed;
    assert name in s.store.imports ==> ImportOk(s.store.runs, s.store.imports[name]);
    if Environment(step) {
      if step.TouchImport? && step.name == name {
        var after := Apply(s, step).store.imports[name].revisions;
        assert after == s.store.imports[name].revisions + [Last(after)];
      }
    } else if !Begins(step) && !step.Stop? {
      ProcStepImports(s, step, name);
    } else if step.Stop? {
      StopKeepsStore(s, step);
    }
  }

  lemma ProcStepImports(s: State, step: Step, name: string)
    requires Applicable(s, step) && !Environment(step) && !Begins(step) && !step.Stop?
    requires name in Apply(s, step).store.imports
    ensures name in s.store.imports && Apply(s, step).store.imports[name].spec == s.store.imports[name].spec
    ensures var before, after := s.store.imports[name].revisions, Apply(s, step).store.imports[name].revisions;
            after == before || (exists r :: after == before + [r] && CommitsImport(s, step, name, r))
  {
    hide OnAccepted, OnReference, OnVersion, OnBase, OnClaim, CollectVersions, Importers, EnvironmentApplies, VersionListed;
    var proc := s.procs[step.id];
    var after := Apply(s, step).store.imports[name].revisions;
    if step.Commit? && proc.ImportProc? && proc.importPc.write.WriteImport? && proc.name == name
       && Accepts(s.store, proc.importPc.write) {
      assert after == s.store.imports[name].revisions + [proc.importPc.write.status];
      assert CommitsImport(s, step, name, proc.importPc.write.status);
    }
  }

  /** A run keeps its owner and its claim; a new one is created by a reconcile of its owner. */
  lemma RunGrowth(s: State, step: Step, run: string)
    requires Inv(s) && Applicable(s, step) && run in Apply(s, step).store.runs
    ensures var after := Apply(s, step).store.runs[run];
            if run in s.store.runs then
              after.owner == s.store.runs[run].owner && after.claim == s.store.runs[run].claim
            else
              && step.CreateRun? && step.id in s.procs
              && (after.owner.OfPipeline? ==>
                    && s.procs[step.id].PipelineProc? && s.procs[step.id].pipelinePc.AtCreate?
                    && ProcValid(s.store, s.procs[step.id])
                    && after.owner.name == s.procs[step.id].name
                    && after.claim == Copy(s.store, s.procs[step.id]).status.claim)
  {
    hide StoreOk, ProcOk, ProcStep;
    if !Environment(step) && !Begins(step) && !step.Stop? { ProcStepRuns(s, step, run); }
    if step.Stop? { StopKeepsStore(s, step); }
  }

  lemma ProcStepRuns(s: State, step: Step, run: string)
    requires Applicable(s, step) && !Environment(step) && !Begins(step) && !step.Stop?
    requires run in Apply(s, step).store.runs
    ensures var after := Apply(s, step).store.runs[run];
            if run in s.store.runs then
              after.owner == s.store.runs[run].owner && after.claim == s.store.runs[run].claim
            else
              && step.CreateRun?
              && (after.owner.OfPipeline? ==>
                    && s.procs[step.id].PipelineProc? && s.procs[step.id].pipelinePc.AtCreate?
                    && after.owner.name == s.procs[step.id].name
                    && after.claim == Copy(s.store, s.procs[step.id]).status.claim)
  {
    hide ProcStep;
    if step.CreateRun? || step.DropRun? || step.DeleteDuplicate? { RunStepRuns(s, step, run); }
    else { OtherStepRuns(s, step); }
  }

  lemma OtherStepRuns(s: State, step: Step)
    requires Applicable(s, step) && !Environment(step) && !Begins(step) && !step.Stop?
    requires !step.CreateRun? && !step.DropRun? && !step.DeleteDuplicate?
    ensures Apply(s, step).store.runs == s.store.runs
  {
    hide OnAccepted, OnReference, OnVersion, OnBase, OnClaim, CollectVersions, Importers, EnvironmentApplies, VersionListed;
  }

  lemma RunStepRuns(s: State, step: Step, run: string)
    requires Applicable(s, step) && (step.CreateRun? || step.DropRun? || step.DeleteDuplicate?)
    requires run in Apply(s, step).store.runs
    ensures var after := Apply(s, step).store.runs[run];
            if run in s.store.runs then
              after.owner == s.store.runs[run].owner && after.claim == s.store.runs[run].claim
            else
              && step.CreateRun?
              && (after.owner.OfPipeline? ==>
                    && s.procs[step.id].PipelineProc? && s.procs[step.id].pipelinePc.AtCreate?
                    && after.owner.name == s.procs[step.id].name
                    && after.claim == Copy(s.store, s.procs[step.id]).status.claim)
  {
    hide OnAccepted, OnReference, OnVersion, CollectVersions, Importers, EnvironmentApplies, VersionListed;
  }
}
