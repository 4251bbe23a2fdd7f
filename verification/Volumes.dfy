/** The requested size of a shared working volume, over any interleaving of the pipelines that share it. */
module Volumes {
  import opened Objects
  import opened Reconcilers
  import opened Protocol
  import opened Invariants
  import opened Preservation
  import opened Growth

  ghost predicate IsMaximum(size: nat, sizes: seq<nat>) {
    size in sizes && forall x :: x in sizes ==> x <= size
  }

  /** The request only grows, and is the maximum of the creation size and every size a reconcile asked for and got. */
  lemma RequestIsMaximum(m: Mode, s: State, volume: string)
    requires Reachable(m, s) && volume in s.store.volumes
    ensures var v := s.store.volumes[volume];
            && |v.sizes| > 0 && |v.granted| > 0 && v.granted[0] == v.sizes[0]
            && IsMaximum(Last(v.sizes), v.granted)
            && (forall j, k :: 0 <= j < k < |v.sizes| ==> v.sizes[j] < v.sizes[k])
  {
    hide Reachable, ProcOk, PipelineOk, ImportOk, PlatformOk;
    ReachableInv(m, s);
    assert VolumeOk(s.store.volumes[volume]);
  }

  /** The outcome does not depend on the order or the interleaving in which the sizes were asked for. */
  lemma RequestOrderIrrelevant(m: Mode, s: State, t: State, volume: string)
    requires Reachable(m, s) && Reachable(m, t) && volume in s.store.volumes && volume in t.store.volumes
    requires forall x :: x in s.store.volumes[volume].granted <==> x in t.store.volumes[volume].granted
    ensures |s.store.volumes[volume].sizes| > 0 && |t.store.volumes[volume].sizes| > 0
    ensures Last(s.store.volumes[volume].sizes) == Last(t.store.volumes[volume].sizes)
  {
    hide Reachable;
    RequestIsMaximum(m, s, volume);
    RequestIsMaximum(m, t, volume);
  }

  // ---------------------------------------------------------------- every run finds its size granted

  ghost predicate Granted(store: Store, volume: string, size: nat) {
    volume in store.volumes && size in store.volumes[volume].granted
  }

  ghost predicate RoomProcOk(store: Store, proc: Proc) {
    proc.PipelineProc? && ProcValid(store, proc) ==>
      var claim, size := Copy(store, proc).status.claim, SizeOf(SpecOf(store, proc));
      match proc.pipelinePc
      case AtSigning => Granted(store, claim, size)
      case AtCreate => Granted(store, claim, size)
      case PipelineWriting(w, next) =>
        next.ThenCreate? && w.WriteVolume? ==> w.name == claim && w.size == size
      case _ => true
  }

  ghost predicate RoomRunOk(store: Store, run: string)
    requires run in store.runs
  {
    store.runs[run].owner.OfPipeline? ==>
      && store.runs[run].owner.name in store.pipelines
      && Granted(store, store.runs[run].claim, SizeOf(store.pipelines[store.runs[run].owner.name].spec))
  }

  ghost predicate RoomInv(s: State) {
    && (forall r :: r in s.store.runs ==> RoomRunOk(s.store, r))
    && (forall p :: p in s.procs ==> RoomProcOk(s.store, s.procs[p]))
  }

  lemma GrantedStable(a: Store, b: Store, volume: string, size: nat)
    requires VolumesGrow(a.volumes, b.volumes) && Granted(a, volume, size)
    ensures Granted(b, volume, size)
  {
    var k :| 0 <= k < |a.volumes[volume].granted| && a.volumes[volume].granted[k] == size;
    assert b.volumes[volume].granted[k] == size;
  }

  lemma RoomProcStable(a: Store, b: Store, proc: Proc)
    requires Grows(a, b) && ProcValid(a, proc) && RoomProcOk(a, proc)
    ensures RoomProcOk(b, proc)
  {
    hide Granted, RunsGrow, ImportsGrow;
    if proc.PipelineProc? {
      assert b.pipelines[proc.name].revisions[proc.at] == a.pipelines[proc.name].revisions[proc.at];
      if proc.pipelinePc.AtSigning? || proc.pipelinePc.AtCreate? {
        GrantedStable(a, b, Copy(a, proc).status.claim, SizeOf(SpecOf(a, proc)));
      }
    }
  }

  lemma VolumeReadRoom(store: Store, proc: Proc, found: Option<nat>)
    requires ProcOk(store, proc) && proc.PipelineProc? && VolumeReadable(store, proc, found)
    ensures var o := VolumeRead(store, proc, found); o.proc.Some? ==> RoomProcOk(o.store, o.proc.value)
  {
    hide WriteOk, OnReference, RootClaim;
    var size, volume := SizeOf(SpecOf(store, proc)), VolumeName(store, proc);
    var o := VolumeRead(store, proc, found);
    if found.Some? && size <= store.volumes[volume].sizes[found.value] {
      assert o.store.volumes[volume].granted[|store.volumes[volume].granted|] == size;
    }
    NoRoomNeeded(proc.name, SpecOf(store, proc), proc.at, Copy(store, proc));
  }

  /** None of the local decisions leads straight to the creation of a run. */
  lemma NoRoomNeeded(name: string, spec: PipelineSpec, at: nat, copy: PipelineRevision)
    ensures forall pc :: pc == OnReference(name, spec, at, copy) || pc == OnRead(name, spec, at, copy)
                         || pc == OnBase(name, spec, at, copy) || pc == OnVersion(name, spec, at, copy)
                         || pc == OnClaim(name, spec, at, copy) ==>
              !pc.AtSigning? && !pc.AtCreate? && (pc.PipelineWriting? ==> !pc.next.ThenCreate?)
  {
    hide RootClaim;
  }

  lemma CommitRoom(s: State, step: Step)
    requires Inv(s) && Applicable(s, step) && RoomInv(s) && step.Commit? && s.procs[step.id].PipelineProc?
    ensures var next := Apply(s, step); step.id in next.procs ==> RoomProcOk(next.store, next.procs[step.id])
  {
    hide StoreOk, WriteOk, OnBase, OnReference, OnClaim, EnvironmentApplies, ImportStep, PlatformStep, ImportApplies, PlatformApplies, Grows;
    var proc := s.procs[step.id];
    assert ProcOk(s.store, proc) && RoomProcOk(s.store, proc);
    var w := proc.pipelinePc.write;
    var at := if w.WritePipeline? then w.base + 1 else proc.at;
    var copy := if w.WritePipeline? then w.pipeline else Copy(s.store, proc);
    NoRoomNeeded(proc.name, SpecOf(s.store, proc), at, copy);
    if Accepts(s.store, w) && w.WriteVolume? {
      var grown := GrowVolume(s.store, w.name, w.size);
      assert grown.volumes[w.name].granted[|s.store.volumes[w.name].granted|] == w.size;
      assert Granted(grown, w.name, w.size);
    }
  }

  lemma ReconcileRoom(s: State, step: Step)
    requires Inv(s) && Applicable(s, step)
    requires !Environment(step) && !Begins(step) && !step.Stop? && !step.Commit? && s.procs[step.id].PipelineProc?
    requires RoomProcOk(s.store, s.procs[step.id])
    ensures var o := PipelineStep(s.store, s.procs[step.id], step); o.proc.Some? ==> RoomProcOk(o.store, o.proc.value)
  {
    hide StoreOk, WriteOk, OnBase, OnVersion, OnReference, RootClaim, VersionListed, VolumeRead, Granted, EnvironmentApplies, ImportStep, PlatformStep, ImportApplies, PlatformApplies;
    var proc := s.procs[step.id];
    assert ProcOk(s.store, proc);
    NoRoomNeeded(proc.name, SpecOf(s.store, proc), proc.at, Copy(s.store, proc));
    if step.ReadVolume? { VolumeReadRoom(s.store, proc, step.found); }
  }

  lemma StartRoom(s: State, step: Step)
    requires Applicable(s, step) && Begins(step)
    ensures var next := Apply(s, step); step.id in next.procs ==> RoomProcOk(next.store, next.procs[step.id])
  {
    hide OnRead;
    if step.BeginPipeline? {
      NoRoomNeeded(step.name, s.store.pipelines[step.name].spec, step.at, s.store.pipelines[step.name].revisions[step.at]);
    }
  }

  lemma OtherKindsRoom(s: State, step: Step)
    requires Applicable(s, step) && !Environment(step) && !Begins(step) && !s.procs[step.id].PipelineProc?
    ensures var next := Apply(s, step); step.id in next.procs ==> RoomProcOk(next.store, next.procs[step.id])
  {
    hide CollectVersions, Importers, VersionListed, Granted;
  }

  lemma ActingRoom(s: State, step: Step)
    requires Inv(s) && Applicable(s, step) && RoomInv(s) && !Environment(step)
    ensures var next := Apply(s, step); step.id in next.procs ==> RoomProcOk(next.store, next.procs[step.id])
  {
    hide StoreOk, ProcsOk, RoomProcOk, PipelineStep, ImportStep, PlatformStep;
    if Begins(step) {
      StartRoom(s, step);
    } else if step.Stop? {
    } else if !s.procs[step.id].PipelineProc? {
      OtherKindsRoom(s, step);
    } else if step.Commit? {
      CommitRoom(s, step);
    } else {
      RoomKnown(s, step.id);
      ReconcileRoom(s, step);
    }
  }

  lemma RoomKnown(s: State, p: nat)
    requires RoomInv(s) && p in s.procs
    ensures RoomProcOk(s.store, s.procs[p])
  {
  }

  lemma RunsRoom(s: State, step: Step, run: string)
    requires Inv(s) && Applicable(s, step) && RoomInv(s)
    requires Grows(s.store, Apply(s, step).store) && run in Apply(s, step).store.runs
    ensures RoomRunOk(Apply(s, step).store, run)
  {
    hide StoreOk, Applicable, Apply, Granted, RunsGrow, ImportsGrow, WriteOk;
    RunGrowth(s, step, run);
    var next := Apply(s, step).store;
    var after := next.runs[run];
    if after.owner.OfPipeline? {
      if run in s.store.runs {
        assert RoomRunOk(s.store, run);
      } else {
        var proc := s.procs[step.id];
        assert ProcOk(s.store, proc) && RoomProcOk(s.store, proc);
      }
      GrantedStable(s.store, next, after.claim, SizeOf(s.store.pipelines[after.owner.name].spec));
    }
  }

  lemma RoomStep(m: Mode, s: State, step: Step)
    requires Inv(s) && Takes(m, s, step) && RoomInv(s)
    ensures RoomInv(Apply(s, step))
  {
    hide StoreOk, Applicable, Admits, Grows, RoomRunOk, RoomProcOk, ProcStep, EnvironmentStep, Start;
    StepKeeps(m, s, step);
    var next := Apply(s, step);
    forall r | r in next.store.runs ensures RoomRunOk(next.store, r) {
      RunsRoom(s, step, r);
    }
    forall p | p in next.procs ensures RoomProcOk(next.store, next.procs[p]) {
      if !Environment(step) && p == step.id { ActingRoom(s, step); }
      else { assert ProcOk(s.store, s.procs[p]); RoomProcStable(s.store, next.store, s.procs[p]); }
    }
  }

  lemma {:induction false} RoomRun(m: Mode, s: State, steps: seq<Step>)
    requires Inv(s) && RoomInv(s) && IsRun(m, s, steps)
    ensures RoomInv(After(m, s, steps))
    decreases |steps|
  {
    hide Inv, RoomInv, Apply, Applicable, Admits;
    if |steps| > 0 {
      StepKeeps(m, s, steps[0]);
      RoomStep(m, s, steps[0]);
      RoomRun(m, Apply(s, steps[0]), steps[1..]);
    }
  }

  lemma ReachableRoomInv(m: Mode, s: State)
    requires Reachable(m, s)
    ensures RoomInv(s)
  {
    hide Apply, Applicable, Admits;
    var steps :| IsRun(m, INITIAL, steps) && After(m, INITIAL, steps) == s;
    RoomRun(m, INITIAL, steps);
  }

  /** The claim of every collection run exists and requests at least the storage size its pipeline asks for. */
  lemma RunHasRoom(m: Mode, s: State, run: string)
    requires Reachable(m, s) && run in s.store.runs && s.store.runs[run].owner.OfPipeline?
    ensures s.store.runs[run].owner.name in s.store.pipelines && s.store.runs[run].claim in s.store.volumes
    ensures |s.store.volumes[s.store.runs[run].claim].sizes| > 0
            && SizeOf(s.store.pipelines[s.store.runs[run].owner.name].spec)
                 <= Last(s.store.volumes[s.store.runs[run].claim].sizes)
  {
    hide Reachable, RoomProcOk;
    ReachableRoomInv(m, s);
    assert RoomRunOk(s.store, run);
    RequestIsMaximum(m, s, s.store.runs[run].claim);
  }

  /** The size a pipeline wants is that of its spec, or 100Gi. */
  lemma WantedSize(spec: PipelineSpec)
    ensures SizeOf(spec) == match spec.size case Some(size) => size case None => 100 * 1024 * 1024 * 1024
  {
  }
}
