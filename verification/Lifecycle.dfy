/** What every reachable state says about the revisions of a CollectionPipeline and of a MirrorImport, with stale reads,
    crashes and any number of overlapping reconciles of the same object. */
module Lifecycle {
  import opened Objects
  import opened Reconcilers
  import opened Protocol
  import opened Invariants
  import opened Preservation

  // ---------------------------------------------------------------- run references

  lemma {:induction false} RunRefKept(p: Pipeline, j: nat, k: nat)
    requires PipelineOk(p) && j <= k < |p.revisions| && p.revisions[j].status.runRef != ""
    requires forall l :: j <= l <= k ==> p.revisions[l].status.runRef != ""
    ensures p.revisions[k].status.runRef == p.revisions[j].status.runRef
  {
    if j < k {
      RunRefKept(p, j, k - 1);
      assert PipelineWrite(p.revisions[k - 1], p.revisions[k]);
    }
  }

  /** A recorded run is never replaced by another one: between the two the reference was empty. */
  lemma RunRefNeverReplaced(m: Mode, s: State, name: string, j: nat, k: nat)
    requires Reachable(m, s) && name in s.store.pipelines
    requires j < k < |s.store.pipelines[name].revisions|
    requires var r := s.store.pipelines[name].revisions;
             r[j].status.runRef != "" && r[k].status.runRef != "" && r[j].status.runRef != r[k].status.runRef
    ensures exists l :: j < l < k && s.store.pipelines[name].revisions[l].status.runRef == ""
  {
    hide PlatformOk, PipelineOk, VolumeOk, ProcOk, ImportOk;
    ReachableInv(m, s);
    var p := s.store.pipelines[name];
    if forall l :: j < l < k ==> p.revisions[l].status.runRef != "" {
      RunRefKept(p, j, k);
    }
  }

  lemma {:induction false} ImportRunRefKept(runs: map<string, Run>, i: Import, j: nat, k: nat)
    requires ImportOk(runs, i) && j <= k < |i.revisions| && i.revisions[j].runRef != ""
    requires forall l :: j <= l <= k ==> i.revisions[l].runRef != ""
    ensures i.revisions[k].runRef == i.revisions[j].runRef
  {
    hide Backed, ImportWrite;
    if j < k {
      ImportRunRefKept(runs, i, j, k - 1);
      OneRunAtATime(i.revisions[k - 1], i.revisions[k]);
    }
  }

  lemma OneRunAtATime(a: ImportStatus, b: ImportStatus)
    requires ImportWrite(a, b) && a.runRef != "" && b.runRef != ""
    ensures b.runRef == a.runRef
  {
  }

  lemma ImportRunRefNeverReplaced(m: Mode, s: State, name: string, j: nat, k: nat)
    requires Reachable(m, s) && name in s.store.imports
    requires j < k < |s.store.imports[name].revisions|
    requires var r := s.store.imports[name].revisions;
             r[j].runRef != "" && r[k].runRef != "" && r[j].runRef != r[k].runRef
    ensures exists l :: j < l < k && s.store.imports[name].revisions[l].runRef == ""
  {
    hide PlatformOk, PipelineOk, VolumeOk, ProcOk, ImportOk;
    ReachableInv(m, s);
    var i := s.store.imports[name];
    if forall l :: j < l < k ==> i.revisions[l].runRef != "" {
      ImportRunRefKept(s.store.runs, i, j, k);
    }
  }

  // ---------------------------------------------------------------- phases

  predicate PhaseFits(status: PipelineStatus) {
    if status.runRef == "" then status.phase.Unset? || status.phase.Stale? || status.phase.Failed?
    else status.phase.Pending? || status.phase.Collecting? || status.phase.Complete? || status.phase.Failed?
  }

  lemma {:induction false} PhaseFitsRevision(p: Pipeline, k: nat)
    requires PipelineOk(p) && k < |p.revisions|
    ensures PhaseFits(p.revisions[k].status)
  {
    if k > 0 {
      PhaseFitsRevision(p, k - 1);
      assert PipelineWrite(p.revisions[k - 1], p.revisions[k]);
    }
  }

  /** The phase always agrees with whether a run is recorded; in particular the Stale and Succeeded cases of the trigger
      guard never apply. */
  lemma PhaseMatchesRun(m: Mode, s: State, name: string, k: nat)
    requires Reachable(m, s) && name in s.store.pipelines && k < |s.store.pipelines[name].revisions|
    ensures PhaseFits(s.store.pipelines[name].revisions[k].status)
    ensures Restartable(s.store.pipelines[name].revisions[k].status) ==>
              var phase := s.store.pipelines[name].revisions[k].status.phase; phase.Complete? || phase.Failed?
  {
    ReachableInv(m, s);
    PhaseFitsRevision(s.store.pipelines[name], k);
  }

  // ---------------------------------------------------------------- the trigger annotation

  /** How often the annotation was put on: by the creator, or later. */
  function Settings(revisions: seq<PipelineRevision>): nat {
    if |revisions| == 0 then 0
    else Settings(revisions[..|revisions| - 1])
         + (if Last(revisions).event.TriggerSet? || (Last(revisions).event.Created? && Last(revisions).trigger) then 1 else 0)
  }

  function Removals(revisions: seq<PipelineRevision>): nat {
    if |revisions| == 0 then 0
    else Removals(revisions[..|revisions| - 1]) + (if Last(revisions).event.TriggerRemoved? then 1 else 0)
  }

  function Resets(revisions: seq<PipelineRevision>): nat {
    if |revisions| == 0 then 0
    else Resets(revisions[..|revisions| - 1]) + (if Last(revisions).event.StatusReset? then 1 else 0)
  }

  /** A removal that still has its reset to come counts as one reset in hand. */
  lemma {:induction false} TriggerCounts(p: Pipeline, k: nat)
    requires PipelineOk(p) && 0 < k <= |p.revisions|
    ensures var r := p.revisions[..k];
            && Resets(r) + (if Last(r).event.TriggerRemoved? then 1 else 0) <= Removals(r)
            && Removals(r) + (if Last(r).trigger then 1 else 0) <= Settings(r)
  {
    var r := p.revisions[..k];
    assert r[..k - 1] == p.revisions[..k - 1];
    assert Last(r) == p.revisions[k - 1];
    if k > 1 {
      TriggerCounts(p, k - 1);
      assert Last(p.revisions[..k - 1]) == p.revisions[k - 2];
      assert PipelineWrite(p.revisions[k - 2], p.revisions[k - 1]);
    }
  }

  /** A trigger acts at most once: each status reset consumes its own removal, each removal its own setting; the reset
      is the very next revision, and the removal happens only on a recorded run that is over. */
  lemma TriggerActsAtMostOnce(m: Mode, s: State, name: string)
    requires Reachable(m, s) && name in s.store.pipelines
    ensures var r := s.store.pipelines[name].revisions;
            && Resets(r) <= Removals(r) <= Settings(r)
            && (forall k :: 0 <= k < |r| && r[k].event.StatusReset? ==> k > 0 && r[k - 1].event.TriggerRemoved?)
            && (forall k :: 0 <= k < |r| && r[k].event.TriggerRemoved? ==>
                  && k > 0 && r[k - 1].trigger && !r[k].trigger && r[k].status == r[k - 1].status
                  && r[k].status.runRef != "" && (r[k].status.phase.Complete? || r[k].status.phase.Failed?))
  {
    hide PlatformOk, ImportOk, VolumeOk, ProcOk;
    ReachableInv(m, s);
    var p := s.store.pipelines[name];
    var r := p.revisions;
    TriggerCounts(p, |r|);
    assert r[..|r|] == r;
    forall k | 0 <= k < |r| && r[k].event.TriggerRemoved?
      ensures k > 0 && r[k - 1].trigger && !r[k].trigger && r[k].status == r[k - 1].status
      ensures r[k].status.runRef != "" && (r[k].status.phase.Complete? || r[k].status.phase.Failed?)
    {
      PhaseFitsRevision(p, k);
      assert k > 0 ==> PipelineWrite(r[k - 1], r[k]);
    }
    forall k | 0 <= k < |r| && r[k].event.StatusReset? ensures k > 0 && r[k - 1].event.TriggerRemoved? {
      assert k > 0 ==> PipelineWrite(r[k - 1], r[k]);
    }
  }

  // ---------------------------------------------------------------- imports

  predicate Final(phase: ImportPhase) {
    phase.Imported? || phase.ImportFailed?
  }

  lemma {:induction false} FinalKept(runs: map<string, Run>, i: Import, j: nat, k: nat)
    requires ImportOk(runs, i) && j <= k < |i.revisions| && Final(i.revisions[j].phase)
    ensures i.revisions[k] == i.revisions[j]
  {
    hide Backed, ImportWrite;
    if j < k {
      FinalKept(runs, i, j, k - 1);
      FinalStays(i.revisions[k - 1], i.revisions[k]);
    }
  }

  lemma FinalStays(a: ImportStatus, b: ImportStatus)
    requires ImportWrite(a, b) && Final(a.phase)
    ensures b == a
  {
  }

  /** Complete and Failed are absorbing, and an import that was published or completed names a run that succeeded. */
  lemma ImportSafety(m: Mode, s: State, name: string, j: nat, k: nat)
    requires Reachable(m, s) && name in s.store.imports
    requires j <= k < |s.store.imports[name].revisions|
    ensures var r := s.store.imports[name].revisions; Final(r[j].phase) ==> r[k] == r[j]
    ensures var status := s.store.imports[name].revisions[k];
            status.phase.Publishing? || status.phase.Imported? ==>
              && status.runRef != "" && status.runRef in s.store.runs
              && s.store.runs[status.runRef].stage == Completed(true)
  {
    ReachableInv(m, s);
    var i := s.store.imports[name];
    if Final(i.revisions[j].phase) { FinalKept(s.store.runs, i, j, k); }
    assert Backed(s.store.runs, i.revisions[k]);
    if i.revisions[k].phase.Publishing? || i.revisions[k].phase.Imported? { PublishedHasRun(s.store.runs, i, k); }
  }

  lemma CurrentImported(store: Store, name: string)
    requires StoreOk(store) && EverImported(store.imports, name)
    ensures |store.imports[name].revisions| > 0 && CurrentImport(store, name).phase.Imported?
  {
    hide PlatformOk, PipelineOk, VolumeOk, ImportWrite, Backed;
    var i := store.imports[name];
    var k :| 0 <= k < |i.revisions| && i.revisions[k].phase.Imported?;
    FinalKept(store.runs, i, k, |i.revisions| - 1);
  }
}
