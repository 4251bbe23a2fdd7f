/** Which working claim a collection runs on. A reconcile reads only its parent's status, yet the claim of every run is
    the one the whole chain of parents determines; and a chain that runs into a cycle never gets a run. */
module Claims {
  import opened Objects
  import opened Reconcilers
  import opened Protocol
  import opened Invariants
  import opened Preservation
  import opened Lifecycle
  import opened Growth

  /** The claim found by climbing `depth` parents up to a pipeline without one. */
  ghost predicate ClaimAt(pipelines: map<string, Pipeline>, name: string, claim: string, depth: nat)
    decreases depth
  {
    name in pipelines &&
    var spec := pipelines[name].spec;
    if spec.parent == "" then claim == RootClaim(name, spec)
    else depth > 0 && ClaimAt(pipelines, spec.parent, claim, depth - 1)
  }

  /** The claim a pipeline is meant to use: its parent's, or else its own root claim. */
  ghost predicate ClaimOf(pipelines: map<string, Pipeline>, name: string, claim: string) {
    exists depth: nat :: ClaimAt(pipelines, name, claim, depth)
  }

  lemma {:induction false} ClaimAtUnique(pipelines: map<string, Pipeline>, name: string, a: string, b: string, i: nat, j: nat)
    requires ClaimAt(pipelines, name, a, i) && ClaimAt(pipelines, name, b, j)
    ensures a == b
    decreases i
  {
    var parent := pipelines[name].spec.parent;
    if parent != "" { ClaimAtUnique(pipelines, parent, a, b, i - 1, j - 1); }
  }

  /** ClaimOf meets the recursive definition, and determines the claim. */
  lemma ClaimOfDefinition(pipelines: map<string, Pipeline>, name: string, a: string, b: string)
    requires name in pipelines
    ensures ClaimOf(pipelines, name, a) <==>
              (if pipelines[name].spec.parent == "" then a == RootClaim(name, pipelines[name].spec)
               else ClaimOf(pipelines, pipelines[name].spec.parent, a))
    ensures ClaimOf(pipelines, name, a) && ClaimOf(pipelines, name, b) ==> a == b
  {
    var spec := pipelines[name].spec;
    if ClaimOf(pipelines, name, a) {
      var i: nat :| ClaimAt(pipelines, name, a, i);
      if spec.parent != "" { assert ClaimAt(pipelines, spec.parent, a, i - 1); }
      if ClaimOf(pipelines, name, b) {
        var j: nat :| ClaimAt(pipelines, name, b, j);
        ClaimAtUnique(pipelines, name, a, b, i, j);
      }
    }
    if spec.parent == "" && a == RootClaim(name, spec) { assert ClaimAt(pipelines, name, a, 0); }
    if spec.parent != "" && ClaimOf(pipelines, spec.parent, a) {
      var i: nat :| ClaimAt(pipelines, spec.parent, a, i);
      assert ClaimAt(pipelines, name, a, i + 1);
    }
  }

  lemma {:induction false} ClaimAtStable(a: map<string, Pipeline>, b: map<string, Pipeline>, name: string, claim: string, depth: nat)
    requires PipelinesGrow(a, b) && ClaimAt(a, name, claim, depth)
    ensures ClaimAt(b, name, claim, depth)
    decreases depth
  {
    if a[name].spec.parent != "" { ClaimAtStable(a, b, a[name].spec.parent, claim, depth - 1); }
  }

  lemma ClaimOfStable(a: map<string, Pipeline>, b: map<string, Pipeline>, name: string, claim: string)
    requires PipelinesGrow(a, b) && ClaimOf(a, name, claim)
    ensures ClaimOf(b, name, claim)
  {
    var depth: nat :| ClaimAt(a, name, claim, depth);
    ClaimAtStable(a, b, name, claim, depth);
  }

  // ---------------------------------------------------------------- parent cycles

  /** `top` is reached from `name` by climbing `height` parents. */
  ghost predicate Climbs(pipelines: map<string, Pipeline>, name: string, height: nat, top: string)
    decreases height
  {
    if height == 0 then name == top
    else name in pipelines && pipelines[name].spec.parent != ""
         && Climbs(pipelines, pipelines[name].spec.parent, height - 1, top)
  }

  lemma {:induction false} ClaimAbove(pipelines: map<string, Pipeline>, name: string, height: nat, top: string, claim: string, depth: nat)
    requires Climbs(pipelines, name, height, top) && ClaimAt(pipelines, name, claim, depth)
    ensures height <= depth && ClaimAt(pipelines, top, claim, depth - height)
    decreases height
  {
    if height > 0 { ClaimAbove(pipelines, pipelines[name].spec.parent, height - 1, top, claim, depth - 1); }
  }

  lemma {:induction false} NoClaimOnCycle(pipelines: map<string, Pipeline>, name: string, length: nat, claim: string, depth: nat)
    requires length > 0 && Climbs(pipelines, name, length, name)
    ensures !ClaimAt(pipelines, name, claim, depth)
    decreases depth
  {
    if ClaimAt(pipelines, name, claim, depth) {
      ClaimAbove(pipelines, name, length, name, claim, depth);
      NoClaimOnCycle(pipelines, name, length, claim, depth - length);
    }
  }

  /** A pipeline on a parent cycle, or below one, has no claim. */
  lemma NoClaimBelowCycle(pipelines: map<string, Pipeline>, name: string, height: nat, top: string, length: nat, claim: string)
    requires Climbs(pipelines, name, height, top) && length > 0 && Climbs(pipelines, top, length, top)
    ensures !ClaimOf(pipelines, name, claim)
  {
    if ClaimOf(pipelines, name, claim) {
      var depth: nat :| ClaimAt(pipelines, name, claim, depth);
      ClaimAbove(pipelines, name, height, top, claim, depth);
      NoClaimOnCycle(pipelines, top, length, claim, depth - height);
    }
  }

  // ---------------------------------------------------------------- the invariant

  ghost predicate StatusClaimOk(pipelines: map<string, Pipeline>, name: string, status: PipelineStatus) {
    status.claim != "" ==> ClaimOf(pipelines, name, status.claim)
  }

  ghost predicate PipelineClaimsOk(store: Store, name: string)
    requires name in store.pipelines
  {
    var r := store.pipelines[name].revisions;
    forall k :: 0 <= k < |r| ==> StatusClaimOk(store.pipelines, name, r[k].status)
  }

  ghost predicate RunClaimOk(store: Store, run: string)
    requires run in store.runs
  {
    store.runs[run].owner.OfPipeline? ==> ClaimOf(store.pipelines, store.runs[run].owner.name, store.runs[run].claim)
  }

  /** Once the parent was found complete, the revision seen then has its claim. */
  ghost predicate SeenOk(store: Store, name: string, seen: nat)
    requires name in store.pipelines
  {
    var parent := store.pipelines[name].spec.parent;
    parent != "" ==>
      && parent in store.pipelines && seen < |store.pipelines[parent].revisions|
      && store.pipelines[parent].revisions[seen].status.claim != ""
  }

  ghost predicate ClaimPcOk(store: Store, name: string, seen: nat, pc: PipelinePc)
    requires name in store.pipelines
  {
    match pc
    case AtBase => SeenOk(store, name, seen)
    case AtVersion => SeenOk(store, name, seen)
    case AtParentClaim => SeenOk(store, name, seen)
    case PipelineWriting(w, next) =>
      && (next.ThenBase? || next.ThenClaim? ==> SeenOk(store, name, seen))
      && (w.WritePipeline? ==> StatusClaimOk(store.pipelines, name, w.pipeline.status))
    case _ => true
  }

  ghost predicate ClaimProcOk(store: Store, proc: Proc) {
    proc.PipelineProc? ==>
      proc.name in store.pipelines && ClaimPcOk(store, proc.name, proc.seen, proc.pipelinePc)
  }

  ghost predicate ClaimInv(s: State) {
    && (forall n :: n in s.store.pipelines ==> PipelineClaimsOk(s.store, n))
    && (forall r :: r in s.store.runs ==> RunClaimOk(s.store, r))
    && (forall p :: p in s.procs ==> ClaimProcOk(s.store, s.procs[p]))
  }

  lemma {:induction false} RunHasClaim(p: Pipeline, k: nat)
    requires PipelineOk(p) && k < |p.revisions| && p.revisions[k].status.runRef != ""
    ensures p.revisions[k].status.claim != ""
  {
    if k > 0 {
      assert PipelineWrite(p.revisions[k - 1], p.revisions[k]);
      if p.revisions[k - 1].status.runRef != "" { RunHasClaim(p, k - 1); }
    }
  }

  lemma ClaimProcStable(a: Store, b: Store, proc: Proc)
    requires Grows(a, b) && ClaimProcOk(a, proc)
    ensures ClaimProcOk(b, proc)
  {
    hide ClaimOf, RunsGrow, VolumesGrow, ImportsGrow;
    if proc.PipelineProc? && proc.pipelinePc.PipelineWriting? && proc.pipelinePc.write.WritePipeline? {
      var status := proc.pipelinePc.write.pipeline.status;
      if status.claim != "" { ClaimOfStable(a.pipelines, b.pipelines, proc.name, status.claim); }
    }
    if proc.PipelineProc? {
      var parent := a.pipelines[proc.name].spec.parent;
      if parent in a.pipelines { assert a.pipelines[parent].revisions <= b.pipelines[parent].revisions; }
    }
  }

  // ---------------------------------------------------------------- local decisions

  lemma OnClaimKnownClaim(store: Store, name: string, at: nat, seen: nat, claim: string)
    requires name in store.pipelines && at < |store.pipelines[name].revisions|
    requires PipelineClaimsOk(store, name) && ClaimOf(store.pipelines, name, claim)
    ensures ClaimPcOk(store, name, seen, OnClaimKnown(name, at, store.pipelines[name].revisions[at], claim))
  {
    hide ClaimOf;
  }

  lemma RootClaimOf(pipelines: map<string, Pipeline>, name: string)
    requires name in pipelines && pipelines[name].spec.parent == ""
    ensures ClaimOf(pipelines, name, RootClaim(name, pipelines[name].spec))
  {
    assert ClaimAt(pipelines, name, RootClaim(name, pipelines[name].spec), 0);
  }

  lemma OnClaimClaim(store: Store, name: string, at: nat, seen: nat)
    requires name in store.pipelines && at < |store.pipelines[name].revisions|
    requires PipelineClaimsOk(store, name) && SeenOk(store, name, seen)
    ensures var spec, copy := store.pipelines[name].spec, store.pipelines[name].revisions[at];
            && ClaimPcOk(store, name, seen, OnClaim(name, spec, at, copy))
            && ClaimPcOk(store, name, seen, OnVersion(name, spec, at, copy))
            && ClaimPcOk(store, name, seen, OnBase(name, spec, at, copy))
  {
    hide ClaimOf, RootClaim;
    if store.pipelines[name].spec.parent == "" {
      RootClaimOf(store.pipelines, name);
      OnClaimKnownClaim(store, name, at, seen, RootClaim(name, store.pipelines[name].spec));
    }
  }

  lemma OnReferenceClaim(store: Store, name: string, at: nat, seen: nat)
    requires name in store.pipelines && at < |store.pipelines[name].revisions| && PipelineClaimsOk(store, name)
    ensures var spec, copy := store.pipelines[name].spec, store.pipelines[name].revisions[at];
            && ClaimPcOk(store, name, seen, OnReference(name, spec, at, copy))
            && ClaimPcOk(store, name, seen, OnRead(name, spec, at, copy))
  {
    hide ClaimOf, OnBase;
    if store.pipelines[name].spec.parent == "" { OnClaimClaim(store, name, at, seen); }
  }

  // ---------------------------------------------------------------- the acting reconcile

  lemma CommitClaim(store: Store, next: Store, proc: Proc)
    requires proc.PipelineProc? && ProcValid(store, proc) && proc.pipelinePc.PipelineWriting?
    requires Accepts(store, proc.pipelinePc.write) && next == Perform(store, proc.pipelinePc.write)
    requires ClaimProcOk(next, proc) && PipelineClaimsOk(next, proc.name)
    ensures var o := PipelineCommit(store, proc); o.proc.Some? ==> ClaimProcOk(next, o.proc.value)
  {
    hide ClaimOf, OnBase, OnClaim, OnReference, StatusClaimOk, SeenOk, OwnClaim, RootClaim;
    var w := proc.pipelinePc.write;
    var at := if w.WritePipeline? then w.base + 1 else proc.at;
    if w.WritePipeline? { assert next.pipelines[proc.name].revisions[at] == w.pipeline; }
    if proc.pipelinePc.next.ThenBase? || proc.pipelinePc.next.ThenClaim? { OnClaimClaim(next, proc.name, at, proc.seen); }
    OnReferenceClaim(next, proc.name, at, proc.seen);
    if proc.pipelinePc.next.ThenReset? {
      assert StatusClaimOk(next.pipelines, proc.name, next.pipelines[proc.name].revisions[at].status);
      ResetClaim(next, proc.name, next.pipelines[proc.name].revisions[at].status);
    }
  }

  lemma ResetClaim(store: Store, name: string, status: PipelineStatus)
    requires StatusClaimOk(store.pipelines, name, status)
    ensures StatusClaimOk(store.pipelines, name, status.(runRef := "", version := "", phase := Unset))
  {
  }

  /** The claim a child takes over at its second look at the parent. */
  lemma ParentClaim(store: Store, proc: Proc, found: Option<nat>)
    requires StoreOk(store) && ProcOk(store, proc) && proc.PipelineProc? && ParentReadable(store, proc, found)
    requires forall n :: n in store.pipelines ==> PipelineClaimsOk(store, n)
    requires ClaimProcOk(store, proc)
    requires proc.pipelinePc.AtParentClaim? && found.Some? ==> proc.seen <= found.value
    ensures var o := ParentRead(store, proc, found); o.proc.Some? ==> ClaimProcOk(store, o.proc.value)
  {
    hide PlatformOk, ImportOk, VolumeOk, ClaimOf, WriteOk, OnBase, OnClaimKnown, RootClaim;
    if found.Some? {
      var parent := SpecOf(store, proc).parent;
      var p := store.pipelines[parent];
      var status := p.revisions[found.value].status;
      if proc.pipelinePc.AtParent? {
        if status.phase.Complete? {
          PhaseFitsRevision(p, found.value);
          RunHasClaim(p, found.value);
          OnClaimClaim(store, proc.name, proc.at, found.value);
        }
      } else {
        ClaimKept(p, proc.seen, found.value);
        assert PipelineClaimsOk(store, parent);
        ClaimOfDefinition(store.pipelines, proc.name, status.claim, status.claim);
        OnClaimKnownClaim(store, proc.name, proc.at, proc.seen, status.claim);
      }
    }
    assert StatusClaimOk(store.pipelines, proc.name, Copy(store, proc).status);
  }

  /** Reconcile steps that neither commit nor read the parent. */
  lemma OtherClaim(store: Store, proc: Proc, step: Step)
    requires ProcOk(store, proc) && proc.PipelineProc? && PipelineApplies(store, proc, step)
    requires PipelineClaimsOk(store, proc.name) && ClaimProcOk(store, proc)
    requires !step.Commit? && !step.ReadParent?
    ensures var o := PipelineStep(store, proc, step);
            o.store.pipelines == store.pipelines && (o.proc.Some? ==> ClaimProcOk(store, o.proc.value))
  {
    hide ClaimOf, OnVersion, OnReference, WriteOk, RootClaim, VersionListed;
    OnReferenceClaim(store, proc.name, proc.at, proc.seen);
    assert StatusClaimOk(store.pipelines, proc.name, Copy(store, proc).status);
    if proc.pipelinePc.AtBase? { OnClaimClaim(store, proc.name, proc.at, proc.seen); }
    if step.ReadLatest? {
      assert StatusClaimOk(store.pipelines, proc.name, store.pipelines[proc.name].revisions[step.at].status);
    }
  }

  // ---------------------------------------------------------------- every step keeps the claims right

  lemma RevisionsClaim(s: State, step: Step, name: string)
    requires Inv(s) && Applicable(s, step) && ClaimInv(s)
    requires Grows(s.store, Apply(s, step).store) && name in Apply(s, step).store.pipelines
    ensures PipelineClaimsOk(Apply(s, step).store, name)
  {
    hide Inv, Applicable, Apply, ClaimOf, RunsGrow, VolumesGrow, ImportsGrow, Environment;
    PipelineGrowth(s, step, name);
    var next := Apply(s, step).store;
    var after := next.pipelines[name].revisions;
    forall k | 0 <= k < |after| ensures StatusClaimOk(next.pipelines, name, after[k].status) {
      if name in s.store.pipelines {
        var before := s.store.pipelines[name].revisions;
        assert PipelineClaimsOk(s.store, name);
        var status := if k < |before| then before[k].status else after[k].status;
        assert after[k].status == status;
        assert StatusClaimOk(s.store.pipelines, name, Last(before).status);
        if k >= |before| && Commits(s, step, name, after[k]) { assert ClaimProcOk(s.store, s.procs[step.id]); }
        assert StatusClaimOk(s.store.pipelines, name, status);
        if status.claim != "" { ClaimOfStable(s.store.pipelines, next.pipelines, name, status.claim); }
      }
    }
  }

  lemma RunsClaim(s: State, step: Step, run: string)
    requires Inv(s) && Applicable(s, step) && ClaimInv(s)
    requires Grows(s.store, Apply(s, step).store) && run in Apply(s, step).store.runs
    ensures RunClaimOk(Apply(s, step).store, run)
  {
    hide StoreOk, Applicable, Apply, ClaimOf, RunsGrow, VolumesGrow, ImportsGrow, WriteOk;
    RunGrowth(s, step, run);
    var next := Apply(s, step).store;
    var after := next.runs[run];
    if after.owner.OfPipeline? {
      if run in s.store.runs {
        assert RunClaimOk(s.store, run);
      } else {
        var proc := s.procs[step.id];
        assert ProcOk(s.store, proc) && PipelineClaimsOk(s.store, proc.name);
        assert StatusClaimOk(s.store.pipelines, proc.name, Copy(s.store, proc).status);
      }
      ClaimOfStable(s.store.pipelines, next.pipelines, after.owner.name, after.claim);
    }
  }

  lemma CommitActing(s: State, step: Step)
    requires Inv(s) && Applicable(s, step) && ClaimInv(s) && step.Commit? && s.procs[step.id].PipelineProc?
    requires var next := Apply(s, step).store;
             Grows(s.store, next) && forall n :: n in next.pipelines ==> PipelineClaimsOk(next, n)
    ensures var next := Apply(s, step); step.id in next.procs ==> ClaimProcOk(next.store, next.procs[step.id])
  {
    hide StoreOk, ClaimOf, PipelineClaimsOk, ClaimPcOk, OnAccepted, Grows, WriteOk;
    var proc := s.procs[step.id];
    assert ProcOk(s.store, proc) && ClaimProcOk(s.store, proc);
    if Accepts(s.store, proc.pipelinePc.write) {
      var next := Perform(s.store, proc.pipelinePc.write);
      ClaimProcStable(s.store, next, proc);
      CommitClaim(s.store, next, proc);
    }
  }

  lemma SeenBefore(m: Mode, s: State, step: Step)
    requires Inv(s) && Takes(m, s, step) && ClaimInv(s) && m.view != AnyReads
    requires step.ReadParent? && s.procs[step.id].pipelinePc.AtParentClaim? && step.found.Some?
    ensures s.procs[step.id].seen <= step.found.value
  {
    hide StoreOk, PipelineClaimsOk, RunClaimOk, ClaimOf;
    assert ProcOk(s.store, s.procs[step.id]) && ClaimProcOk(s.store, s.procs[step.id]);
  }

  lemma ReconcileClaim(m: Mode, s: State, step: Step)
    requires Inv(s) && Takes(m, s, step) && ClaimInv(s) && m.view != AnyReads
    requires !Environment(step) && !Begins(step) && !step.Stop? && !step.Commit? && s.procs[step.id].PipelineProc?
    ensures var o := PipelineStep(s.store, s.procs[step.id], step); o.proc.Some? ==> ClaimProcOk(s.store, o.proc.value)
  {
    hide StoreOk, ClaimOf, PipelineClaimsOk, ClaimPcOk, ParentRead, VolumeRead, BaseCheck, RunAdopt, CollectionAppend;
    var proc := s.procs[step.id];
    assert ProcOk(s.store, proc) && ClaimProcOk(s.store, proc);
    if step.ReadParent? {
      if proc.pipelinePc.AtParentClaim? && step.found.Some? { SeenBefore(m, s, step); }
      ParentClaim(s.store, proc, step.found);
    } else {
      OtherClaim(s.store, proc, step);
    }
  }

  lemma OtherKinds(s: State, step: Step)
    requires Applicable(s, step) && !Environment(step) && !Begins(step) && !s.procs[step.id].PipelineProc?
    ensures var next := Apply(s, step); step.id in next.procs ==> !next.procs[step.id].PipelineProc?
  {
    hide CollectVersions, Importers, VersionListed;
  }

  lemma StartClaim(s: State, step: Step)
    requires Applicable(s, step) && ClaimInv(s) && Begins(step)
    ensures var next := Apply(s, step); step.id in next.procs ==> ClaimProcOk(next.store, next.procs[step.id])
  {
    hide ClaimOf, OnRead;
    if step.BeginPipeline? { OnReferenceClaim(s.store, step.name, step.at, 0); }
  }

  lemma ActingClaim(m: Mode, s: State, step: Step)
    requires Inv(s) && Takes(m, s, step) && ClaimInv(s) && m.view != AnyReads && !Environment(step)
    requires var next := Apply(s, step).store;
             Grows(s.store, next) && forall n :: n in next.pipelines ==> PipelineClaimsOk(next, n)
    ensures var next := Apply(s, step); step.id in next.procs ==> ClaimProcOk(next.store, next.procs[step.id])
  {
    hide StoreOk, ProcsOk, ClaimProcOk, PipelineClaimsOk, Grows, PipelineStep, ImportStep, PlatformStep;
    if Begins(step) {
      StartClaim(s, step);
    } else if step.Stop? {
    } else if !s.procs[step.id].PipelineProc? {
      OtherKinds(s, step);
      var next := Apply(s, step);
      if step.id in next.procs { NotAPipeline(next.store, next.procs[step.id]); }
    } else if step.Commit? {
      CommitActing(s, step);
    } else {
      ReconcileClaim(m, s, step);
      var o := PipelineStep(s.store, s.procs[step.id], step);
      if o.proc.Some? { ClaimProcStable(s.store, o.store, o.proc.value); }
    }
  }

  lemma NotAPipeline(store: Store, proc: Proc)
    requires !proc.PipelineProc?
    ensures ClaimProcOk(store, proc)
  {
  }

  lemma ClaimStep(m: Mode, s: State, step: Step)
    requires Inv(s) && Takes(m, s, step) && ClaimInv(s) && m.view != AnyReads
    ensures ClaimInv(Apply(s, step))
  {
    hide Inv, Applicable, Admits, Grows, PipelineClaimsOk, RunClaimOk, ClaimProcOk, ProcStep, EnvironmentStep, Start;
    StepKeeps(m, s, step);
    var next := Apply(s, step);
    forall n | n in next.store.pipelines ensures PipelineClaimsOk(next.store, n) {
      RevisionsClaim(s, step, n);
    }
    forall r | r in next.store.runs ensures RunClaimOk(next.store, r) {
      RunsClaim(s, step, r);
    }
    forall p | p in next.procs ensures ClaimProcOk(next.store, next.procs[p]) {
      if !Environment(step) && p == step.id { ActingClaim(m, s, step); }
      else { ClaimProcStable(s.store, next.store, s.procs[p]); }
    }
  }

  lemma {:induction false} ClaimRun(m: Mode, s: State, steps: seq<Step>)
    requires Inv(s) && ClaimInv(s) && m.view != AnyReads && IsRun(m, s, steps)
    ensures ClaimInv(After(m, s, steps))
    decreases |steps|
  {
    hide Inv, ClaimInv, Apply, Applicable, Admits;
    if |steps| > 0 {
      StepKeeps(m, s, steps[0]);
      ClaimStep(m, s, steps[0]);
      ClaimRun(m, Apply(s, steps[0]), steps[1..]);
    }
  }

  /** Every run of a collection uses the claim its chain of parents determines. Reads may be stale and reconciles may
      overlap or crash, as long as a reconcile does not see its parent go backwards. */
  lemma RunUsesItsClaim(m: Mode, s: State, run: string)
    requires Reachable(m, s) && m.view != AnyReads
    requires run in s.store.runs && s.store.runs[run].owner.OfPipeline?
    ensures ClaimOf(s.store.pipelines, s.store.runs[run].owner.name, s.store.runs[run].claim)
  {
    hide Apply, Applicable, Admits;
    var steps :| IsRun(m, INITIAL, steps) && After(m, INITIAL, steps) == s;
    ClaimRun(m, INITIAL, steps);
    assert RunClaimOk(s.store, run);
  }

  /** No pipeline on a parent cycle, itself its own parent included, and none below such a cycle ever gets a run. */
  lemma CycleNeverRuns(m: Mode, s: State, name: string, height: nat, top: string, length: nat)
    requires Reachable(m, s) && m.view != AnyReads
    requires Climbs(s.store.pipelines, name, height, top) && length > 0 && Climbs(s.store.pipelines, top, length, top)
    ensures forall run :: run in s.store.runs ==> s.store.runs[run].owner != OfPipeline(name)
  {
    hide Reachable;
    forall run | run in s.store.runs ensures s.store.runs[run].owner != OfPipeline(name) {
      if s.store.runs[run].owner == OfPipeline(name) {
        RunUsesItsClaim(m, s, run);
        NoClaimBelowCycle(s.store.pipelines, name, height, top, length, s.store.runs[run].claim);
      }
    }
  }

  /** The claim of a run, read off the specs: a pipeline without a parent uses the claim of its base version when it is
      incremental, and else its own; with a parent it uses that of the parent. */
  lemma RunClaimByParts(m: Mode, s: State, run: string)
    requires Reachable(m, s) && m.view != AnyReads
    requires run in s.store.runs && s.store.runs[run].owner.OfPipeline?
    ensures var name, claim := s.store.runs[run].owner.name, s.store.runs[run].claim;
            && name in s.store.pipelines
            && var spec := s.store.pipelines[name].spec;
               && (spec.parent == "" ==>
                     claim == "collection-storage-" + (if spec.incremental && spec.baseVersion != "" then spec.baseVersion else name))
               && (spec.parent != "" ==> spec.parent in s.store.pipelines && ClaimOf(s.store.pipelines, spec.parent, claim))
  {
    hide Reachable;
    RunUsesItsClaim(m, s, run);
    var name, claim := s.store.runs[run].owner.name, s.store.runs[run].claim;
    var depth: nat :| ClaimAt(s.store.pipelines, name, claim, depth);
    var parent := s.store.pipelines[name].spec.parent;
    if parent != "" { assert ClaimAt(s.store.pipelines, parent, claim, depth - 1); }
  }

  /** A run and every run of its pipeline's parent use the same claim. */
  lemma FamilySharesClaim(m: Mode, s: State, child: string, parent: string)
    requires Reachable(m, s) && m.view != AnyReads
    requires child in s.store.runs && s.store.runs[child].owner.OfPipeline?
    requires parent in s.store.runs && s.store.runs[parent].owner.OfPipeline?
    requires s.store.runs[child].owner.name in s.store.pipelines
    requires s.store.pipelines[s.store.runs[child].owner.name].spec.parent == s.store.runs[parent].owner.name != ""
    ensures s.store.runs[child].claim == s.store.runs[parent].claim
  {
    hide Reachable;
    RunClaimByParts(m, s, child);
    RunUsesItsClaim(m, s, parent);
    ClaimOfDefinition(s.store.pipelines, s.store.runs[parent].owner.name, s.store.runs[child].claim, s.store.runs[parent].claim);
  }

  /** The claim that the early expansion looks up: the recorded one; before there is one, that named after the parent, the
      base version or the pipeline itself. */
  lemma EarlyClaim(name: string, spec: PipelineSpec, status: PipelineStatus)
    ensures ExpandClaim(name, spec, status)
            == if status.claim != "" then status.claim
               else "collection-storage-" + (if spec.parent != "" then spec.parent
                                             else if spec.incremental && spec.baseVersion != "" then spec.baseVersion else name)
  {
  }
}
