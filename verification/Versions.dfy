/** With current reads and one reconcile at a time per pipeline, a complete collection has a version and a claim. */
module Versions {
  import opened Objects
  import opened Reconcilers
  import opened Protocol
  import opened Invariants
  import opened Preservation
  import opened Lifecycle
  import opened Growth
  import opened Claims

  predicate Versioned(status: PipelineStatus) {
    status.runRef != "" ==> status.version != ""
  }

  ghost predicate RevisionsVersioned(store: Store, name: string)
    requires name in store.pipelines
  {
    var r := store.pipelines[name].revisions;
    forall k :: 0 <= k < |r| ==> Versioned(r[k].status)
  }

  ghost predicate VersionPcOk(status: PipelineStatus, pc: PipelinePc) {
    match pc
    case AtParentClaim => status.version != ""
    case AtVolume => status.version != ""
    case AtSigning => status.version != ""
    case AtCreate => status.version != ""
    case AtAdopt(_) => status.version != ""
    case PipelineWriting(w, next) =>
      && (w.WritePipeline? ==> Versioned(w.pipeline.status))
      && (w.WritePipeline? && (next.ThenClaim? || next.ThenVolume?) ==> w.pipeline.status.version != "")
      && (w.WriteVolume? && next.ThenCreate? ==> status.version != "")
    case _ => true
  }

  /** The only reconcile of its pipeline still has the current status in hand. */
  ghost predicate VersionProcOk(store: Store, proc: Proc) {
    proc.PipelineProc? ==>
      && proc.name in store.pipelines && proc.at < |store.pipelines[proc.name].revisions|
      && var r := store.pipelines[proc.name].revisions;
         Last(r).status == r[proc.at].status && VersionPcOk(r[proc.at].status, proc.pipelinePc)
  }

  predicate SamePipeline(p: Proc, q: Proc) {
    p.PipelineProc? && q.PipelineProc? && p.name == q.name
  }

  ghost predicate Alone(procs: map<nat, Proc>) {
    forall p, q :: p in procs && q in procs && SamePipeline(procs[p], procs[q]) ==> p == q
  }

  ghost predicate VersionInv(s: State) {
    && Alone(s.procs)
    && (forall n :: n in s.store.pipelines ==> RevisionsVersioned(s.store, n))
    && (forall p :: p in s.procs ==> VersionProcOk(s.store, s.procs[p]))
  }

  // ---------------------------------------------------------------- local decisions

  lemma DecisionsVersion(name: string, spec: PipelineSpec, at: nat, copy: PipelineRevision)
    requires Versioned(copy.status)
    ensures VersionPcOk(copy.status, OnVersion(name, spec, at, copy))
    ensures VersionPcOk(copy.status, OnBase(name, spec, at, copy))
    ensures VersionPcOk(copy.status, OnReference(name, spec, at, copy))
    ensures VersionPcOk(copy.status, OnRead(name, spec, at, copy))
    ensures copy.status.version != "" ==> VersionPcOk(copy.status, OnClaim(name, spec, at, copy))
  {
    hide RootClaim;
  }

  lemma AcceptedVersion(name: string, spec: PipelineSpec, at: nat, copy: PipelineRevision, next: PipelineNext)
    requires Versioned(copy.status)
    requires next.ThenClaim? || next.ThenVolume? || next.ThenCreate? ==> copy.status.version != ""
    ensures var pc := OnAccepted(name, spec, at, copy, next); pc.Some? ==> VersionPcOk(copy.status, pc.value)
  {
    hide OnBase, OnReference, OnClaim;
    DecisionsVersion(name, spec, at, copy);
  }

  // ---------------------------------------------------------------- the acting reconcile

  lemma CommitVersion(s: State, step: Step)
    requires Inv(s) && Applicable(s, step) && VersionInv(s) && step.Commit? && s.procs[step.id].PipelineProc?
    ensures var next := Apply(s, step); step.id in next.procs ==> VersionProcOk(next.store, next.procs[step.id])
  {
    hide StoreOk, OnAccepted, WriteOk;
    var proc := s.procs[step.id];
    assert ProcOk(s.store, proc) && VersionProcOk(s.store, proc);
    var w := proc.pipelinePc.write;
    if Accepts(s.store, w) {
      var spec := SpecOf(s.store, proc);
      if w.WritePipeline? {
        var r := AppendPipeline(s.store, proc.name, w.pipeline).pipelines[proc.name].revisions;
        assert r[w.base + 1] == w.pipeline && Last(r) == w.pipeline;
        AcceptedVersion(proc.name, spec, w.base + 1, w.pipeline, proc.pipelinePc.next);
      } else {
        assert Versioned(Copy(s.store, proc).status) by { assert RevisionsVersioned(s.store, proc.name); }
        AcceptedVersion(proc.name, spec, proc.at, Copy(s.store, proc), proc.pipelinePc.next);
      }
    }
  }

  lemma ReconcileVersion(m: Mode, s: State, step: Step)
    requires Inv(s) && Takes(m, s, step) && VersionInv(s) && m.view == CurrentReads
    requires !Environment(step) && !Begins(step) && !step.Stop? && !step.Commit? && s.procs[step.id].PipelineProc?
    ensures var o := PipelineStep(s.store, s.procs[step.id], step);
            && o.store.pipelines == s.store.pipelines
            && (o.proc.Some? ==> o.proc.value.PipelineProc? && VersionProcOk(s.store, o.proc.value))
  {
    hide StoreOk, ProcOk, VersionProcOk, VolumeRead, ParentRead;
    var proc := s.procs[step.id];
    assert ProcOk(s.store, proc) && VersionProcOk(s.store, proc);
    if step.ReadVolume? || step.ReadParent? {
      CopyVersioned(s, step.id);
      if step.ReadVolume? { VolumeSideVersion(s.store, proc, step.found); }
      else { ParentSideVersion(s.store, proc, step.found); }
    } else {
      RunSideVersion(m, s, step);
    }
  }

  lemma CopyVersioned(s: State, p: nat)
    requires Inv(s) && VersionInv(s) && p in s.procs && s.procs[p].PipelineProc?
    ensures ProcValid(s.store, s.procs[p]) && Versioned(Copy(s.store, s.procs[p]).status)
  {
    hide StoreOk, WriteOk;
    assert ProcOk(s.store, s.procs[p]);
    assert RevisionsVersioned(s.store, s.procs[p].name);
  }

  lemma VolumeSideVersion(store: Store, proc: Proc, found: Option<nat>)
    requires ProcOk(store, proc) && VersionProcOk(store, proc) && proc.PipelineProc? && VolumeReadable(store, proc, found)
    requires Versioned(Copy(store, proc).status)
    ensures var o := VolumeRead(store, proc, found);
            && o.store.pipelines == store.pipelines
            && (o.proc.Some? ==> o.proc.value.PipelineProc? && VersionProcOk(store, o.proc.value))
  {
    hide WriteOk, OnReference, RootClaim;
    DecisionsVersion(proc.name, SpecOf(store, proc), proc.at, Copy(store, proc));
  }

  lemma ParentSideVersion(store: Store, proc: Proc, found: Option<nat>)
    requires ProcOk(store, proc) && VersionProcOk(store, proc) && proc.PipelineProc? && ParentReadable(store, proc, found)
    requires Versioned(Copy(store, proc).status)
    ensures var o := ParentRead(store, proc, found);
            && o.store == store
            && (o.proc.Some? ==> o.proc.value.PipelineProc? && VersionProcOk(store, o.proc.value))
  {
    hide WriteOk, OnBase, RootClaim;
    DecisionsVersion(proc.name, SpecOf(store, proc), proc.at, Copy(store, proc));
  }

  lemma RunSideVersion(m: Mode, s: State, step: Step)
    requires Inv(s) && Takes(m, s, step) && VersionInv(s) && m.view == CurrentReads
    requires !Environment(step) && !Begins(step) && !step.Stop? && !step.Commit? && s.procs[step.id].PipelineProc?
    requires !step.ReadVolume? && !step.ReadParent?
    ensures var o := PipelineStep(s.store, s.procs[step.id], step);
            && o.store.pipelines == s.store.pipelines
            && (o.proc.Some? ==> o.proc.value.PipelineProc? && VersionProcOk(s.store, o.proc.value))
  {
    hide StoreOk, WriteOk, OnBase, OnVersion, OnReference, RootClaim, VersionListed, ImportStep, PlatformStep, ImportApplies, PlatformApplies, EnvironmentApplies, Grows;
    var proc := s.procs[step.id];
    assert ProcOk(s.store, proc) && VersionProcOk(s.store, proc);
    assert Versioned(Copy(s.store, proc).status) by { assert RevisionsVersioned(s.store, proc.name); }
    DecisionsVersion(proc.name, SpecOf(s.store, proc), proc.at, Copy(s.store, proc));
  }

  lemma StartVersion(m: Mode, s: State, step: Step)
    requires Takes(m, s, step) && VersionInv(s) && Begins(step) && m.view == CurrentReads
    ensures var next := Apply(s, step); step.id in next.procs ==> VersionProcOk(next.store, next.procs[step.id])
  {
    hide OnRead;
    if step.BeginPipeline? {
      assert RevisionsVersioned(s.store, step.name);
      DecisionsVersion(step.name, s.store.pipelines[step.name].spec, step.at,
                       s.store.pipelines[step.name].revisions[step.at]);
    }
  }

  lemma ActingVersion(m: Mode, s: State, step: Step)
    requires Inv(s) && Takes(m, s, step) && VersionInv(s) && m.view == CurrentReads && !Environment(step)
    ensures var next := Apply(s, step); step.id in next.procs ==> VersionProcOk(next.store, next.procs[step.id])
  {
    hide StoreOk, ProcsOk, VersionPcOk, RevisionsVersioned, PipelineStep, ImportStep, PlatformStep;
    if Begins(step) {
      StartVersion(m, s, step);
    } else if step.Stop? {
    } else if !s.procs[step.id].PipelineProc? {
      OtherKinds(s, step);
    } else if step.Commit? {
      CommitVersion(s, step);
    } else {
      ReconcileVersion(m, s, step);
    }
  }

  lemma NamesKept(s: State, step: Step)
    requires Applicable(s, step) && !Environment(step) && !Begins(step)
    ensures var next := Apply(s, step);
            step.id in next.procs && next.procs[step.id].PipelineProc? ==>
              s.procs[step.id].PipelineProc? && next.procs[step.id].name == s.procs[step.id].name
  {
    hide CollectVersions, Importers, VersionListed, OnAccepted, OnReference, OnVersion;
  }

  lemma AloneKept(m: Mode, s: State, step: Step)
    requires Takes(m, s, step) && Alone(s.procs) && m.exclusive
    ensures Alone(Apply(s, step).procs)
  {
    hide ProcStep, EnvironmentStep, OnRead, OnImportRead;
    var next := Apply(s, step).procs;
    if !Environment(step) && !Begins(step) { NamesKept(s, step); }
    forall p, q | p in next && q in next && SamePipeline(next[p], next[q]) ensures p == q {
      if !Environment(step) && p == step.id && q in s.procs {
        assert next[q] == s.procs[q] || q == p;
      }
    }
  }

  // ---------------------------------------------------------------- the others

  lemma RevisionsVersion(s: State, step: Step, name: string)
    requires Inv(s) && Applicable(s, step) && VersionInv(s) && name in Apply(s, step).store.pipelines
    ensures RevisionsVersioned(Apply(s, step).store, name)
  {
    hide Inv, Applicable, Apply, Environment;
    PipelineGrowth(s, step, name);
    var after := Apply(s, step).store.pipelines[name].revisions;
    forall k | 0 <= k < |after| ensures Versioned(after[k].status) {
      if name in s.store.pipelines {
        var before := s.store.pipelines[name].revisions;
        assert RevisionsVersioned(s.store, name);
        assert Versioned(Last(before).status);
        if k < |before| { assert after[k] == before[k]; }
        else if Commits(s, step, name, after[k]) { assert VersionProcOk(s.store, s.procs[step.id]); }
      }
    }
  }

  lemma OtherVersion(s: State, step: Step, p: nat)
    requires Inv(s) && Applicable(s, step) && VersionInv(s)
    requires p in s.procs && (Environment(step) || p != step.id) && Grows(s.store, Apply(s, step).store)
    ensures VersionProcOk(Apply(s, step).store, s.procs[p])
  {
    hide Inv, Applicable, Apply, RunsGrow, VolumesGrow, ImportsGrow, VersionPcOk, RevisionsVersioned;
    var proc := s.procs[p];
    if proc.PipelineProc? {
      assert VersionProcOk(s.store, proc);
      PipelineGrowth(s, step, proc.name);
      var after := Apply(s, step).store.pipelines[proc.name].revisions;
      assert after[proc.at] == s.store.pipelines[proc.name].revisions[proc.at];
    }
  }

  lemma VersionStep(m: Mode, s: State, step: Step)
    requires Inv(s) && Takes(m, s, step) && VersionInv(s) && m.view == CurrentReads && m.exclusive
    ensures VersionInv(Apply(s, step))
  {
    hide Inv, Applicable, Admits, Grows, RevisionsVersioned, VersionProcOk, Alone, ProcStep, EnvironmentStep, Start;
    StepKeeps(m, s, step);
    AloneKept(m, s, step);
    var next := Apply(s, step);
    forall n | n in next.store.pipelines ensures RevisionsVersioned(next.store, n) {
      RevisionsVersion(s, step, n);
    }
    forall p | p in next.procs ensures VersionProcOk(next.store, next.procs[p]) {
      if !Environment(step) && p == step.id { ActingVersion(m, s, step); }
      else { OtherVersion(s, step, p); }
    }
  }

  lemma {:induction false} VersionRun(m: Mode, s: State, steps: seq<Step>)
    requires Inv(s) && VersionInv(s) && m.view == CurrentReads && m.exclusive && IsRun(m, s, steps)
    ensures VersionInv(After(m, s, steps))
    decreases |steps|
  {
    hide Inv, VersionInv, Apply, Applicable, Admits;
    if |steps| > 0 {
      StepKeeps(m, s, steps[0]);
      VersionStep(m, s, steps[0]);
      VersionRun(m, Apply(s, steps[0]), steps[1..]);
    }
  }

  lemma ReachableVersionInv(m: Mode, s: State)
    requires Reachable(m, s) && m.view == CurrentReads && m.exclusive
    ensures VersionInv(s)
  {
    hide Apply, Applicable, Admits;
    var steps :| IsRun(m, INITIAL, steps) && After(m, INITIAL, steps) == s;
    VersionRun(m, INITIAL, steps);
  }

  /** A complete collection has a version and a working claim. */
  lemma CompleteHasVersion(m: Mode, s: State, name: string, k: nat)
    requires Reachable(m, s) && m.view == CurrentReads && m.exclusive
    requires name in s.store.pipelines && k < |s.store.pipelines[name].revisions|
    requires s.store.pipelines[name].revisions[k].status.phase.Complete?
    ensures s.store.pipelines[name].revisions[k].status.version != ""
    ensures s.store.pipelines[name].revisions[k].status.claim != ""
  {
    hide Reachable, ProcsOk, PlatformOk, ImportOk, VolumeOk, VersionProcOk, Alone;
    ReachableInv(m, s);
    ReachableVersionInv(m, s);
    assert RevisionsVersioned(s.store, name);
    PhaseFitsRevision(s.store.pipelines[name], k);
    RunHasClaim(s.store.pipelines[name], k);
  }
}
