/** What becomes of every run that is created for a pipeline or an import: a reconcile holds it until its object records
    it, the run is deleted, or the reconcile drops it. */
module Adoption {
  import opened Objects
  import opened Reconcilers
  import opened Protocol
  import opened Invariants
  import opened Preservation
  import opened Growth
  import opened Runs

  /** The reconcile has created the run and has neither recorded nor deleted it yet. */
  predicate HoldsRun(store: Store, proc: Proc, run: string) {
    match proc
    case PipelineProc(_, _, _, AtAdopt(r)) => r == run
    case PipelineProc(_, _, _, AtDuplicate(r)) => r == run
    case PipelineProc(_, _, _, PipelineWriting(w, _)) =>
      w.WritePipeline? && w.pipeline.event.RunAdopted? && w.pipeline.status.runRef == run
    case ImportProc(_, _, AtImportAdopt(r)) => r == run
    case ImportProc(_, _, AtImportDuplicate(r)) => r == run
    case ImportProc(_, _, ImportWriting(w, _)) =>
      && w.WriteImport? && w.status.runRef == run && run != ""
      && Targets(store, w) && store.imports[w.name].revisions[w.base].runRef != run
    case _ => false
  }

  predicate Holds(s: State, p: nat, run: string) {
    p in s.procs && HoldsRun(s.store, s.procs[p], run)
  }

  ghost predicate Held(s: State, run: string) {
    exists p :: Holds(s, p, run)
  }

  ghost predicate NamedByPipeline(store: Store, run: string) {
    exists n, k :: n in store.pipelines && 0 <= k < |store.pipelines[n].revisions|
                   && store.pipelines[n].revisions[k].status.runRef == run
  }

  ghost predicate NamedByImport(store: Store, run: string) {
    exists n, k :: n in store.imports && 0 <= k < |store.imports[n].revisions| && store.imports[n].revisions[k].runRef == run
  }

  ghost predicate Named(store: Store, run: string) {
    NamedByPipeline(store, run) || NamedByImport(store, run)
  }

  /** No revision ever named the run, and no reconcile is about to. */
  ghost predicate Orphaned(s: State, run: string) {
    !Named(s.store, run) && !Held(s, run)
  }

  /** The write the reconcile has prepared. */
  function Prepared(proc: Proc): Option<Write> {
    match proc
    case PipelineProc(_, _, _, PipelineWriting(w, _)) => Some(w)
    case ImportProc(_, _, ImportWriting(w, _)) => Some(w)
    case PlatformProc(_, PlatformWriting(w)) => Some(w)
    case _ => None
  }

  predicate Refused(store: Store, proc: Proc) {
    Prepared(proc).Some? && Targets(store, Prepared(proc).value) && !Accepts(store, Prepared(proc).value)
  }

  /** The step in which a reconcile lets go of a run it holds: it stops there, or its adoption is refused because the
      object has got a revision since it was read again. */
  predicate Drops(s: State, step: Step, run: string) {
    && !Environment(step) && !Begins(step) && Holds(s, step.id, run)
    && (step.Stop? || (step.Commit? && Refused(s.store, s.procs[step.id])))
  }

  ghost predicate Dropped(m: Mode, steps: seq<Step>, j: nat, run: string)
    requires IsRun(m, INITIAL, steps) && j <= |steps|
  {
    exists i: nat :: i < j && Drops(StateAt(m, INITIAL, steps, i), steps[i], run)
  }

  // ---------------------------------------------------------------- one step

  /** None of the local decisions takes hold of a run. */
  lemma DecisionsHoldNothing(store: Store, name: string, spec: PipelineSpec, at: nat, copy: PipelineRevision, next: PipelineNext)
    ensures forall pc, seen, run :: pc == OnRead(name, spec, at, copy) || pc == OnReference(name, spec, at, copy)
                                    || pc == OnBase(name, spec, at, copy) || pc == OnVersion(name, spec, at, copy)
                                    || pc == OnClaim(name, spec, at, copy)
                                    || OnAccepted(name, spec, at, copy, next) == Some(pc) ==>
              !HoldsRun(store, PipelineProc(name, at, seen, pc), run)
  {
  }

  /** Whether a reconcile holds a run depends on revisions that stay. */
  lemma HoldingKept(a: Store, b: Store, proc: Proc, run: string)
    requires Grows(a, b) && ProcValid(a, proc)
    ensures HoldsRun(a, proc, run) <==> HoldsRun(b, proc, run)
  {
  }

  lemma HolderStep(s: State, step: Step, p: nat, run: string)
    requires Inv(s) && Applicable(s, step) && Grows(s.store, Apply(s, step).store)
    requires Holds(Apply(s, step), p, run) && !Holds(s, p, run)
    ensures step.CreateRun? && step.id == p && step.run == run
  {
    hide Inv, HoldsRun, Start, ProcStep, EnvironmentApplies, EnvironmentStep, Grows;
    if Environment(step) || p != step.id {
      BystanderKept(s, step, p, run);
    } else if Begins(step) {
      BeginsHoldingNothing(s, step, run);
    } else if step.Stop? {
      Stopped(s, step);
    } else {
      match s.procs[step.id]
      case PipelineProc(_, _, _, _) => PipelineHolder(s, step, run);
      case ImportProc(_, _, _) => ImportHolder(s, step, run);
      case PlatformProc(_, _) => PlatformsHoldNothing(s, step, run);
    }
  }

  lemma Valid(s: State, p: nat)
    requires Inv(s) && p in s.procs
    ensures ProcValid(s.store, s.procs[p]) && ProcOk(s.store, s.procs[p])
  {
    hide StoreOk;
  }

  lemma Stopped(s: State, step: Step)
    requires Applicable(s, step) && step.Stop?
    ensures step.id !in Apply(s, step).procs
  {
  }

  lemma BeginsHoldingNothing(s: State, step: Step, run: string)
    requires Applicable(s, step) && Begins(step)
    ensures !Holds(Apply(s, step), step.id, run)
  {
    hide OnReference;
    if step.BeginPipeline? {
      var p := s.store.pipelines[step.name];
      DecisionsHoldNothing(s.store, step.name, p.spec, step.at, p.revisions[step.at], ThenReturn);
      hide OnRead;
    }
  }

  lemma PlatformsHoldNothing(s: State, step: Step, run: string)
    requires Applicable(s, step) && !Environment(step) && !Begins(step) && s.procs[step.id].PlatformProc?
    ensures !Holds(Apply(s, step), step.id, run)
  {
    hide EnvironmentApplies, PipelineStep, PipelineApplies, ImportStep, ImportApplies, CollectVersions, Importers, ImportInfos,
         AggregatedRevision;
  }

  lemma ImportHolder(s: State, step: Step, run: string)
    requires Applicable(s, step) && !Environment(step) && !Begins(step) && s.procs[step.id].ImportProc?
    requires Holds(Apply(s, step), step.id, run) && !Holds(s, step.id, run)
    ensures step.CreateRun? && step.run == run
  {
    hide EnvironmentApplies, PipelineStep, PlatformStep, PipelineApplies, PlatformApplies, VersionListed;
  }

  lemma PipelineHolder(s: State, step: Step, run: string)
    requires Applicable(s, step) && !Environment(step) && !Begins(step) && s.procs[step.id].PipelineProc?
    requires Holds(Apply(s, step), step.id, run) && !Holds(s, step.id, run)
    ensures step.CreateRun? && step.run == run
  {
    hide EnvironmentApplies, ImportStep, PlatformStep, ImportApplies, PlatformApplies, VersionListed;
  }

  /** A reconcile that holds a run goes on holding it, records it, deletes it, or drops it. */
  lemma ReleaseStep(s: State, step: Step, run: string)
    requires Inv(s) && Applicable(s, step) && !Environment(step) && !Begins(step)
    requires Holds(s, step.id, run) && run in s.store.runs
    ensures var next := Apply(s, step);
            || Holds(next, step.id, run)
            || Named(next.store, run)
            || (run in next.store.runs && next.store.runs[run].deleted)
            || Drops(s, step, run)
  {
    hide StoreOk, ProcsOk, EnvironmentApplies, PipelineStep, ImportStep, PlatformStep, PipelineApplies, ImportApplies, PlatformApplies,
         Grows, NamedByPipeline, NamedByImport;
    Valid(s, step.id);
    if Drops(s, step, run) {
    } else if step.Commit? {
      CommitNames(s, step, run);
    } else if s.procs[step.id].PipelineProc? {
      PipelineRelease(s, step, run);
    } else {
      ImportRelease(s, step, run);
    }
  }

  lemma PipelineRelease(s: State, step: Step, run: string)
    requires Applicable(s, step) && !Environment(step) && !Begins(step) && !step.Stop? && !Drops(s, step, run)
    requires Holds(s, step.id, run) && run in s.store.runs && s.procs[step.id].PipelineProc? && !step.Commit?
    ensures var next := Apply(s, step);
            || Holds(next, step.id, run)
            || (run in next.store.runs && next.store.runs[run].deleted)
  {
    hide EnvironmentApplies, CollectVersions, Importers, ImportStep, PlatformStep, ImportApplies, PlatformApplies, OnAccepted, OnReference;
  }

  lemma ImportRelease(s: State, step: Step, run: string)
    requires Applicable(s, step) && !Environment(step) && !Begins(step) && !step.Stop? && !Drops(s, step, run)
    requires ProcOk(s.store, s.procs[step.id])
    requires Holds(s, step.id, run) && run in s.store.runs && s.procs[step.id].ImportProc? && !step.Commit?
    ensures var next := Apply(s, step);
            || Holds(next, step.id, run)
            || NamedByImport(next.store, run)
            || (run in next.store.runs && next.store.runs[run].deleted)
  {
    hide EnvironmentApplies, PipelineStep, PlatformStep, PipelineApplies, PlatformApplies, WriteOk, NamedByImport;
    if step.ReadLatest? && s.store.imports[s.procs[step.id].name].revisions[step.at].runRef == run {
      ImportNames(Apply(s, step).store, s.procs[step.id].name, step.at, run);
    }
  }

  lemma ImportNames(store: Store, name: string, k: nat, run: string)
    requires name in store.imports && k < |store.imports[name].revisions| && store.imports[name].revisions[k].runRef == run
    ensures NamedByImport(store, run)
  {
  }

  lemma CommitNames(s: State, step: Step, run: string)
    requires Inv(s) && Applicable(s, step) && step.Commit?
    requires Holds(s, step.id, run) && !Drops(s, step, run) && ProcValid(s.store, s.procs[step.id])
    ensures Named(Apply(s, step).store, run)
  {
    hide StoreOk, EnvironmentApplies, OnAccepted, Inv;
    var w := Prepared(s.procs[step.id]).value;
    if w.WritePipeline? {
      var revisions := Apply(s, step).store.pipelines[w.name].revisions;
      assert revisions[|revisions| - 1] == w.pipeline;
    } else {
      var revisions := Apply(s, step).store.imports[w.name].revisions;
      assert revisions[|revisions| - 1] == w.status;
    }
  }

  /** A run becomes named only by the accepted adoption of the reconcile that holds it, which ends with it. */
  lemma NamingStep(s: State, step: Step, run: string)
    requires Inv(s) && Applicable(s, step) && run != ""
    requires Named(Apply(s, step).store, run) && !Named(s.store, run)
    ensures step.Commit? && Holds(s, step.id, run) && step.id !in Apply(s, step).procs && !Drops(s, step, run)
  {
    hide NamedByPipeline, NamedByImport, Applicable, Apply, Inv, Holds, Drops;
    if NamedByPipeline(Apply(s, step).store, run) { PipelineNaming(s, step, run); } else { ImportNaming(s, step, run); }
  }

  lemma PipelineNaming(s: State, step: Step, run: string)
    requires Inv(s) && Applicable(s, step) && run != ""
    requires NamedByPipeline(Apply(s, step).store, run) && !NamedByPipeline(s.store, run)
    ensures step.Commit? && Holds(s, step.id, run) && step.id !in Apply(s, step).procs && !Drops(s, step, run)
  {
    hide Applicable, Apply, Inv, Commits, Drops;
    var next := Apply(s, step);
    var n, k :| n in next.store.pipelines && 0 <= k < |next.store.pipelines[n].revisions|
                && next.store.pipelines[n].revisions[k].status.runRef == run;
    PipelineGrowth(s, step, n);
    var after := next.store.pipelines[n].revisions;
    if n in s.store.pipelines {
      var before := s.store.pipelines[n].revisions;
      assert after == before + [after[|before|]] && k == |before|;
      assert Last(before).status.runRef != run;
      assert Commits(s, step, n, after[k]);
      CommittedAdoption(s, step, n, after[k], run);
    }
  }

  lemma CommittedAdoption(s: State, step: Step, name: string, revision: PipelineRevision, run: string)
    requires Inv(s) && Applicable(s, step) && Commits(s, step, name, revision)
    requires |s.store.pipelines[name].revisions| > 0
    requires revision.status.runRef == run && run != "" && Last(s.store.pipelines[name].revisions).status.runRef != run
    ensures step.Commit? && Holds(s, step.id, run) && step.id !in Apply(s, step).procs && !Drops(s, step, run)
  {
    hide StoreOk, EnvironmentApplies, OnBase, OnClaim, OnReference, Grows, Sourced, Backed;
    assert ProcOk(s.store, s.procs[step.id]);
    assert PipelineWrite(Last(s.store.pipelines[name].revisions), revision);
  }

  lemma ImportNaming(s: State, step: Step, run: string)
    requires Inv(s) && Applicable(s, step) && run != ""
    requires NamedByImport(Apply(s, step).store, run) && !NamedByImport(s.store, run)
    ensures step.Commit? && Holds(s, step.id, run) && step.id !in Apply(s, step).procs && !Drops(s, step, run)
  {
    hide Applicable, Apply, Inv, CommitsImport, Drops;
    var next := Apply(s, step);
    var n, k :| n in next.store.imports && 0 <= k < |next.store.imports[n].revisions|
                && next.store.imports[n].revisions[k].runRef == run;
    ImportGrowth(s, step, n);
    var after := next.store.imports[n].revisions;
    if n in s.store.imports {
      var before := s.store.imports[n].revisions;
      assert after == before + [after[|before|]] && k == |before|;
      assert Last(before).runRef != run;
      assert CommitsImport(s, step, n, after[k]);
      CommittedImport(s, step, n, after[k], run);
    }
  }

  lemma CommittedImport(s: State, step: Step, name: string, status: ImportStatus, run: string)
    requires Inv(s) && Applicable(s, step) && CommitsImport(s, step, name, status)
    requires |s.store.imports[name].revisions| > 0
    requires status.runRef == run && run != "" && Last(s.store.imports[name].revisions).runRef != run
    ensures step.Commit? && Holds(s, step.id, run) && step.id !in Apply(s, step).procs && !Drops(s, step, run)
  {
    hide StoreOk, ProcsOk, EnvironmentApplies, Grows, Sourced, Backed, PipelineStep, PlatformStep, PipelineApplies, PlatformApplies;
    Valid(s, step.id);
    assert ImportWrite(Last(s.store.imports[name].revisions), status);
  }

  lemma NamedStable(a: Store, b: Store, run: string)
    requires Grows(a, b) && Named(a, run)
    ensures Named(b, run)
  {
    if NamedByPipeline(a, run) {
      var n, k :| n in a.pipelines && 0 <= k < |a.pipelines[n].revisions| && a.pipelines[n].revisions[k].status.runRef == run;
      assert n in b.pipelines && b.pipelines[n].revisions[k] == a.pipelines[n].revisions[k];
    } else {
      var n, k :| n in a.imports && 0 <= k < |a.imports[n].revisions| && a.imports[n].revisions[k].runRef == run;
      assert n in b.imports && b.imports[n].revisions[k] == a.imports[n].revisions[k];
    }
  }

  /** A new run is held by the reconcile that created it. */
  lemma CreationStep(s: State, step: Step, run: string)
    requires Inv(s) && Applicable(s, step) && run in Apply(s, step).store.runs && run !in s.store.runs
    ensures step.CreateRun? && step.run == run && run != "" && Holds(Apply(s, step), step.id, run)
  {
    hide Inv, Applicable, Apply, Holds;
    RunGrowth(s, step, run);
    Creation(s, step);
  }

  lemma Creation(s: State, step: Step)
    requires Applicable(s, step) && step.CreateRun?
    ensures step.run != "" && Holds(Apply(s, step), step.id, step.run)
    ensures Apply(s, step).store.runs.Keys == s.store.runs.Keys + {step.run}
  {
    hide EnvironmentApplies, CollectVersions, Importers, OnAccepted, OnReference, VersionListed;
  }

  // ---------------------------------------------------------------- over a run of the system

  ghost predicate HoldInv(m: Mode, steps: seq<Step>, j: nat, s: State)
    requires IsRun(m, INITIAL, steps) && j <= |steps|
  {
    && (forall run :: run in s.store.runs ==> run != "")
    && (forall p, run :: Holds(s, p, run) ==>
          run != "" && run in s.store.runs && !Named(s.store, run) && !Dropped(m, steps, j, run))
    && (forall p, q, run :: Holds(s, p, run) && Holds(s, q, run) ==> p == q)
    && (forall run :: run != "" && Named(s.store, run) ==> run in s.store.runs && !Dropped(m, steps, j, run))
    && (forall run :: Dropped(m, steps, j, run) ==> run != "" && run in s.store.runs)
    && (forall run :: run in s.store.runs ==>
          s.store.runs[run].deleted || Named(s.store, run) || Held(s, run) || Dropped(m, steps, j, run))
  }

  lemma DroppedStep(m: Mode, steps: seq<Step>, j: nat, run: string)
    requires IsRun(m, INITIAL, steps) && j < |steps|
    ensures Dropped(m, steps, j + 1, run) <==>
              Dropped(m, steps, j, run) || Drops(StateAt(m, INITIAL, steps, j), steps[j], run)
  {
    hide Drops, StateAt, IsRun;
    if Dropped(m, steps, j + 1, run) {
      var i: nat :| i < j + 1 && Drops(StateAt(m, INITIAL, steps, i), steps[i], run);
      if i < j { assert Dropped(m, steps, j, run); }
    }
  }

  lemma DropEnds(s: State, step: Step, run: string)
    requires Applicable(s, step) && Drops(s, step, run)
    ensures step.id !in Apply(s, step).procs && !step.CreateRun?
  {
    hide EnvironmentApplies, OnAccepted, PipelineWrite, CollectVersions, Importers;
  }

  /** Only the acting reconcile changes. */
  lemma BystanderKept(s: State, step: Step, p: nat, run: string)
    requires Inv(s) && Applicable(s, step) && Grows(s.store, Apply(s, step).store) && (Environment(step) || p != step.id)
    ensures Holds(s, p, run) <==> Holds(Apply(s, step), p, run)
  {
    hide Inv, HoldsRun, Grows;
    Bystander(s, step, p);
    if p in s.procs {
      Valid(s, p);
      HoldingKept(s.store, Apply(s, step).store, s.procs[p], run);
    }
  }

  lemma Bystander(s: State, step: Step, p: nat)
    requires Applicable(s, step) && (Environment(step) || p != step.id)
    ensures var next := Apply(s, step); (p in next.procs <==> p in s.procs) && (p in s.procs ==> next.procs[p] == s.procs[p])
  {
    hide EnvironmentApplies, EnvironmentStep, ProcStep, Start;
  }

  lemma HolderThere(s: State, p: nat, run: string)
    requires Holds(s, p, run)
    ensures p in s.procs
  {
  }

  lemma FreshRun(s: State, step: Step)
    requires Applicable(s, step) && step.CreateRun?
    ensures step.run !in s.store.runs && step.run != "" && step.run in Apply(s, step).store.runs
  {
    hide OnAccepted, CollectVersions, Importers, OnReference;
  }

  lemma RunsKept(a: Store, b: Store, run: string)
    requires Grows(a, b) && run in a.runs
    ensures run in b.runs && b.runs[run].owner == a.runs[run].owner && (a.runs[run].deleted ==> b.runs[run].deleted)
  {
  }

  lemma HeldAfter(m: Mode, steps: seq<Step>, j: nat, s: State, next: State, p: nat, run: string)
    requires IsRun(m, INITIAL, steps) && j < |steps| && s == StateAt(m, INITIAL, steps, j)
    requires Inv(s) && Takes(m, s, steps[j]) && next == Apply(s, steps[j]) && Grows(s.store, next.store)
    requires HoldInv(m, steps, j, s)
    requires Holds(next, p, run)
    ensures run != "" && run in next.store.runs && !Named(next.store, run) && !Dropped(m, steps, j + 1, run)
  {
    hide Inv, Applicable, Admits, Apply, IsRun, StateAt, Holds, Named, Dropped, Drops, Grows;
    var step := steps[j];
    DroppedStep(m, steps, j, run);
    if run != "" && Named(next.store, run) && !Named(s.store, run) { NamingStep(s, step, run); }
    if Drops(s, step, run) { DropEnds(s, step, run); HolderOf(s, step, run); }
    HolderThere(next, p, run);
    if Holds(s, p, run) {
      RunsKept(s.store, next.store, run);
    } else {
      HolderStep(s, step, p, run);
      FreshRun(s, step);
    }
  }

  lemma HolderOf(s: State, step: Step, run: string)
    requires Drops(s, step, run)
    ensures Holds(s, step.id, run)
  {
  }

  lemma HeldOnce(m: Mode, steps: seq<Step>, j: nat, s: State, next: State, p: nat, q: nat, run: string)
    requires IsRun(m, INITIAL, steps) && j < |steps| && s == StateAt(m, INITIAL, steps, j)
    requires Inv(s) && Takes(m, s, steps[j]) && next == Apply(s, steps[j]) && Grows(s.store, next.store)
    requires HoldInv(m, steps, j, s)
    requires Holds(next, p, run) && Holds(next, q, run)
    ensures p == q
  {
    hide Inv, Applicable, Admits, Apply, IsRun, StateAt, Holds, Named, Dropped, Drops, Grows;
    HeldBefore(s, steps[j], p, run);
    HeldBefore(s, steps[j], q, run);
  }

  lemma HeldBefore(s: State, step: Step, p: nat, run: string)
    requires Inv(s) && Applicable(s, step) && Grows(s.store, Apply(s, step).store)
    requires var next := Apply(s, step); Holds(next, p, run)
    ensures (Holds(s, p, run)) || (step.CreateRun? && step.id == p && run !in s.store.runs)
  {
    hide Inv, Applicable, Apply, Holds, Grows;
    if !Holds(s, p, run) {
      HolderStep(s, step, p, run);
      FreshRun(s, step);
    }
  }

  lemma NamedAfter(m: Mode, steps: seq<Step>, j: nat, s: State, next: State, run: string)
    requires IsRun(m, INITIAL, steps) && j < |steps| && s == StateAt(m, INITIAL, steps, j)
    requires Inv(s) && Takes(m, s, steps[j]) && next == Apply(s, steps[j]) && Grows(s.store, next.store)
    requires HoldInv(m, steps, j, s)
    requires run != "" && Named(next.store, run)
    ensures run in next.store.runs && !Dropped(m, steps, j + 1, run)
  {
    hide Inv, Applicable, Admits, Apply, IsRun, StateAt, Holds, Named, Dropped, Drops, Grows;
    DroppedStep(m, steps, j, run);
    if !Named(s.store, run) { NamingStep(s, steps[j], run); }
    if Drops(s, steps[j], run) { HolderOf(s, steps[j], run); }
    RunsKept(s.store, next.store, run);
  }

  lemma DroppedAfter(m: Mode, steps: seq<Step>, j: nat, s: State, next: State, run: string)
    requires IsRun(m, INITIAL, steps) && j < |steps| && s == StateAt(m, INITIAL, steps, j)
    requires Inv(s) && Takes(m, s, steps[j]) && next == Apply(s, steps[j]) && Grows(s.store, next.store)
    requires HoldInv(m, steps, j, s)
    requires Dropped(m, steps, j + 1, run)
    ensures run != "" && run in next.store.runs
  {
    hide Inv, Applicable, Admits, Apply, IsRun, StateAt, Holds, Named, Dropped, Drops, Grows;
    DroppedStep(m, steps, j, run);
    if Drops(s, steps[j], run) { HolderOf(s, steps[j], run); }
    RunsKept(s.store, next.store, run);
  }

  lemma Accounted(m: Mode, steps: seq<Step>, j: nat, s: State, next: State, run: string)
    requires IsRun(m, INITIAL, steps) && j < |steps| && s == StateAt(m, INITIAL, steps, j)
    requires Inv(s) && Takes(m, s, steps[j]) && next == Apply(s, steps[j]) && Grows(s.store, next.store)
    requires HoldInv(m, steps, j, s)
    requires run in next.store.runs
    ensures next.store.runs[run].deleted || Named(next.store, run) || Held(next, run) || Dropped(m, steps, j + 1, run)
  {
    hide Inv, Applicable, Admits, Apply, IsRun, StateAt, Holds, Named, Dropped, Drops, Grows;
    var step := steps[j];
    DroppedStep(m, steps, j, run);
    if run !in s.store.runs {
      CreationStep(s, step, run);
    } else {
      RunsKept(s.store, next.store, run);
      if Named(s.store, run) {
        NamedStable(s.store, next.store, run);
      } else if Held(s, run) {
        var p :| Holds(s, p, run);
        if Environment(step) || p != step.id { BystanderKept(s, step, p, run); } else { ReleaseOf(s, step, run); }
      }
    }
  }

  lemma ReleaseOf(s: State, step: Step, run: string)
    requires Inv(s) && Applicable(s, step) && !Environment(step)
    requires Holds(s, step.id, run) && run in s.store.runs
    ensures var next := Apply(s, step);
            || (Holds(next, step.id, run))
            || Named(next.store, run)
            || (run in next.store.runs && next.store.runs[run].deleted)
            || Drops(s, step, run)
  {
    hide Inv, ProcStep, Holds, Named, Drops, EnvironmentApplies;
    HolderThere(s, step.id, run);
    ReleaseStep(s, step, run);
  }

  lemma HoldStep(m: Mode, steps: seq<Step>, j: nat, k: nat, s: State, next: State)
    requires IsRun(m, INITIAL, steps) && j < |steps| && k == j + 1 && s == StateAt(m, INITIAL, steps, j)
    requires Inv(s) && Takes(m, s, steps[j]) && next == Apply(s, steps[j]) && Grows(s.store, next.store)
    requires HoldInv(m, steps, j, s)
    ensures HoldInv(m, steps, k, next)
  {
    hide Inv, Applicable, Admits, Apply, IsRun, StateAt, Holds, Named, Dropped, Drops, Grows;
    forall run ensures Dropped(m, steps, k, run) <==> Dropped(m, steps, j, run) || Drops(s, steps[j], run) {
      DroppedStep(m, steps, j, run);
    }
    forall run | run in next.store.runs ensures run != "" {
      if run !in s.store.runs { CreationStep(s, steps[j], run); }
    }
    forall p, run | Holds(next, p, run)
      ensures run != "" && run in next.store.runs && !Named(next.store, run) && !Dropped(m, steps, k, run)
    {
      HeldAfter(m, steps, j, s, next, p, run);
    }
    forall p, q, run | Holds(next, p, run) && Holds(next, q, run) ensures p == q {
      HeldOnce(m, steps, j, s, next, p, q, run);
    }
    forall run | run != "" && Named(next.store, run) ensures run in next.store.runs && !Dropped(m, steps, k, run) {
      NamedAfter(m, steps, j, s, next, run);
    }
    forall run | Dropped(m, steps, k, run) ensures run != "" && run in next.store.runs {
      DroppedAfter(m, steps, j, s, next, run);
    }
    forall run | run in next.store.runs
      ensures next.store.runs[run].deleted || Named(next.store, run) || Held(next, run) || Dropped(m, steps, k, run)
    {
      Accounted(m, steps, j, s, next, run);
    }
  }

  lemma {:induction false} ReachableHold(m: Mode, steps: seq<Step>, j: nat)
    requires IsRun(m, INITIAL, steps) && j <= |steps|
    ensures HoldInv(m, steps, j, StateAt(m, INITIAL, steps, j))
  {
    hide Inv, Applicable, Admits, Apply, IsRun;
    if j > 0 {
      hide StateAt, HoldInv, Grows;
      ReachableHold(m, steps, j - 1);
      StateAtReachable(m, steps, j - 1);
      StateAtStep(m, INITIAL, steps, j - 1);
      var s := StateAt(m, INITIAL, steps, j - 1);
      StepKeeps(m, s, steps[j - 1]);
      HoldStep(m, steps, j - 1, j, s, StateAt(m, INITIAL, steps, j));
    }
  }

  /** In every run of the system, a PipelineRun that is not deleted is orphaned exactly when the reconcile that held it
      dropped it: it stopped while holding it, or its adoption was refused because the pipeline or import had got a
      revision since it was read again. Otherwise exactly one of two holds: a revision names the run, or one reconcile
      still holds it. */
  lemma OrphanedExactly(m: Mode, steps: seq<Step>, run: string)
    requires IsRun(m, INITIAL, steps)
    requires var s := After(m, INITIAL, steps);
             run in s.store.runs && !s.store.runs[run].deleted
    ensures var s := After(m, INITIAL, steps);
            && (Orphaned(s, run) <==> Dropped(m, steps, |steps|, run))
            && !(Named(s.store, run) && Held(s, run))
            && (forall p, q :: Holds(s, p, run) && Holds(s, q, run) ==> p == q)
  {
    hide Apply, IsRun, After, StateAt, Holds, Named, Dropped;
    ReachableHold(m, steps, |steps|);
    StateAtEnd(m, INITIAL, steps);
  }
}
