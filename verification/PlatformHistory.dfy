/** What every reachable state says about the platform's histories. */
module PlatformHistory {
  import opened Objects
  import opened Reconcilers
  import opened Protocol
  import opened Invariants
  import opened Preservation
  import opened Lifecycle

  // ---------------------------------------------------------------- the last entries

  /** `last` is the last entry of `history`, and unset exactly while the history is empty. */
  predicate IsLast(last: Option<Info>, history: seq<Info>) {
    if |history| == 0 then last.None? else last == Some(Last(history))
  }

  lemma {:induction false} LastEntriesAt(store: Store, k: nat)
    requires PlatformOk(store) && k < |store.platform|
    ensures IsLast(store.platform[k].lastCollection, store.platform[k].collections)
    ensures IsLast(store.platform[k].lastImport, store.platform[k].imports)
  {
    hide Sourced, EverImported, Enters;
    if k > 0 {
      LastEntriesAt(store, k - 1);
      LastEntriesKept(store.imports, store.platform[k - 1], store.platform[k]);
    }
  }

  lemma LastEntriesKept(imports: map<string, Import>, a: PlatformRevision, b: PlatformRevision)
    requires PlatformWrite(imports, a, b)
    requires IsLast(a.lastCollection, a.collections) && IsLast(a.lastImport, a.imports)
    ensures IsLast(b.lastCollection, b.collections) && IsLast(b.lastImport, b.imports)
  {
    if b.event.Aggregated? {
      var collections :| b == AggregatedRevision(a, collections, ImportInfos(imports, b.event.importers), b.event.importers,
                                                  b.event.list, b.event.now, b.event.names);
    }
  }

  /** LastCollection and LastImport are the last elements of their histories, and every collection version listed was
      once the version of a pipeline in phase Complete. */
  lemma HistoriesConsistent(m: Mode, s: State, k: nat)
    requires Reachable(m, s) && k < |s.store.platform|
    ensures var r := s.store.platform[k];
            IsLast(r.lastCollection, r.collections) && IsLast(r.lastImport, r.imports)
    ensures forall j :: 0 <= j < |s.store.platform[k].collections| ==>
              exists n, l :: n in s.store.pipelines && 0 <= l < |s.store.pipelines[n].revisions|
                && s.store.pipelines[n].revisions[l].status.phase.Complete?
                && s.store.pipelines[n].revisions[l].status.version == s.store.platform[k].collections[j].version
  {
    hide ProcOk, ImportOk, VolumeOk, PipelineOk;
    ReachableInv(m, s);
    LastEntriesAt(s.store, k);
    forall j | 0 <= j < |s.store.platform[k].collections|
      ensures exists n, l :: n in s.store.pipelines && 0 <= l < |s.store.pipelines[n].revisions|
                && s.store.pipelines[n].revisions[l].status.phase.Complete?
                && s.store.pipelines[n].revisions[l].status.version == s.store.platform[k].collections[j].version
    {
      assert ReachedComplete(s.store.pipelines, s.store.platform[k].collections[j].version);
      var n, l :| n in s.store.pipelines && 0 <= l < |s.store.pipelines[n].revisions|
                  && Finished(s.store.pipelines[n].revisions[l].status)
                  && s.store.pipelines[n].revisions[l].status.version == s.store.platform[k].collections[j].version;
      PhaseFitsRevision(s.store.pipelines[n], l);
    }
  }

  /** What one revision of the platform makes of the histories of the one before: an appending one adds a single entry at
      the end of one of them, an import's under its version or else one made from its name and date; only an aggregating
      one may replace them; any other leaves both alone. */
  lemma HistoriesMove(m: Mode, s: State, k: nat)
    requires Reachable(m, s) && 0 < k < |s.store.platform|
    ensures var a, b := s.store.platform[k - 1], s.store.platform[k];
            && (b.event.CollectionAppended? ==> |b.collections| > 0 && b.collections == a.collections + [Last(b.collections)])
            && (b.event.ImportAppended? ==>
                  && b.event.name in s.store.imports && |b.imports| > 0 && b.imports == a.imports + [Last(b.imports)]
                  && var version := s.store.imports[b.event.name].spec.collectionVersion;
                     Last(b.imports).version
                     == if version != "" then version
                        else "import-" + b.event.name + "-" + s.store.imports[b.event.name].spec.createdDate)
            && (!b.event.CollectionAppended? && !b.event.Aggregated? ==> b.collections == a.collections && b.lastCollection == a.lastCollection)
            && (!b.event.ImportAppended? && !b.event.Aggregated? ==> b.imports == a.imports && b.lastImport == a.lastImport)
  {
    hide Reachable, ProcsOk, ImportOk, VolumeOk, PipelineOk, Sourced, EverImported;
    ReachableInv(m, s);
    assert PlatformWrite(s.store.imports, s.store.platform[k - 1], s.store.platform[k]);
  }

  // ---------------------------------------------------------------- each import is appended once

  /** The reconcile has completed the import and still has its entry to append. */
  predicate Owes(proc: Proc, name: string) {
    && proc.ImportProc? && proc.name == name
    && (proc.importPc.AtAppend? || (proc.importPc.ImportWriting? && proc.importPc.write.WritePlatform?))
  }

  predicate Appends(revision: PlatformRevision, name: string) {
    revision.event == ImportAppended(name)
  }

  ghost predicate OnceInv(s: State) {
    && (forall p, q, i :: p in s.procs && q in s.procs && Owes(s.procs[p], i) && Owes(s.procs[q], i) ==> p == q)
    && (forall p, i, k :: p in s.procs && Owes(s.procs[p], i) && 0 <= k < |s.store.platform| ==>
          !Appends(s.store.platform[k], i))
    && (forall i, j, k :: 0 <= j < k < |s.store.platform| && Appends(s.store.platform[j], i) ==>
          !Appends(s.store.platform[k], i))
  }

  /** A platform revision that appends an import comes from the one reconcile that owed it, which ends with it. */
  lemma PlatformGrowth(m: Mode, s: State, step: Step)
    requires Inv(s) && Takes(m, s, step)
    ensures var next := Apply(s, step);
            || next.store.platform == s.store.platform
            || (exists r :: next.store.platform == s.store.platform + [r] &&
                  forall i :: Appends(r, i) ==>
                    step.Commit? && step.id in s.procs && Owes(s.procs[step.id], i) && step.id !in next.procs)
  {
    hide StoreOk, WriteOk, OnAccepted, Grows, Inv, Admits, ProcStep, PipelineApplies, ImportApplies, PlatformApplies;
    var next := Apply(s, step);
    if step.CreatePlatform? || step.TouchPlatform? {
      assert |next.store.platform| == |s.store.platform| + 1;
      assert next.store.platform == s.store.platform + [Last(next.store.platform)];
    } else if step.Commit? {
      CommitGrowth(s, step);
    } else if Environment(step) {
    } else if !Begins(step) {
      OtherStepsGrowth(s, step);
    }
  }

  lemma CommitGrowth(s: State, step: Step)
    requires Inv(s) && Applicable(s, step) && step.Commit?
    ensures var next := Apply(s, step);
            || next.store.platform == s.store.platform
            || (exists r :: next.store.platform == s.store.platform + [r] &&
                  forall i :: Appends(r, i) ==> Owes(s.procs[step.id], i) && step.id !in next.procs)
  {
    hide StoreOk, Grows, PipelineWrite, ImportWrite, PlatformWrite, Sourced;
    var proc := s.procs[step.id];
    assert ProcOk(s.store, proc);
    var w := match proc
      case PipelineProc(_, _, _, pc) => pc.write
      case ImportProc(_, _, pc) => pc.write
      case PlatformProc(_, pc) => pc.write;
    if w.WritePlatform? && Accepts(s.store, w) {
      assert Apply(s, step).store.platform == s.store.platform + [w.platform];
    }
  }

  lemma OtherStepsGrowth(s: State, step: Step)
    requires Inv(s) && Applicable(s, step) && !step.Commit? && !Environment(step) && !Begins(step)
    ensures Apply(s, step).store.platform == s.store.platform
  {
    hide StoreOk, ProcOk, Grows, OnReference, OnVersion, OnAccepted, OnBase, OnClaim, CollectVersions, Importers, VersionListed, EnvironmentApplies;
  }

  /** A reconcile comes to owe an entry only by completing the import itself. */
  lemma OwesStep(m: Mode, s: State, step: Step, i: string)
    requires Inv(s) && Takes(m, s, step) && !Environment(step)
    requires var next := Apply(s, step); step.id in next.procs && Owes(next.procs[step.id], i)
    ensures step.id in s.procs && s.procs[step.id].ImportProc? && s.procs[step.id].name == i
    ensures Owes(s.procs[step.id], i) || (i in s.store.imports && !EverImported(s.store.imports, i))
  {
    if Begins(step) {
    } else {
      OwesProcStep(m, s, step, i);
    }
  }

  lemma OwesProcStep(m: Mode, s: State, step: Step, i: string)
    requires Inv(s) && Takes(m, s, step) && !Environment(step) && !Begins(step)
    requires var next := Apply(s, step); step.id in next.procs && Owes(next.procs[step.id], i)
    ensures s.procs[step.id].ImportProc? && s.procs[step.id].name == i
    ensures Owes(s.procs[step.id], i) || (i in s.store.imports && !EverImported(s.store.imports, i))
  {
    hide StoreOk, PipelineWrite, PlatformWrite, Sourced, Grows, VersionListed, EnvironmentApplies, OnReference, OnVersion, OnBase, CollectVersions, Importers;
    var proc := s.procs[step.id];
    assert ProcOk(s.store, proc);
    if proc.ImportProc? && step.Commit? && Accepts(s.store, proc.importPc.write) && !Owes(proc, i) {
      assert CurrentImport(s.store, i).phase.Publishing?;
      if EverImported(s.store.imports, i) { CurrentImported(s.store, i); }
    }
  }

  lemma OnceStep(m: Mode, s: State, step: Step)
    requires Inv(s) && Takes(m, s, step) && OnceInv(s)
    ensures OnceInv(Apply(s, step))
  {
    hide Inv, Applicable, Admits, ProcStep, EnvironmentStep, Start, Environment, Begins, Owes, Appends;
    var next := Apply(s, step);
    forall p, q, i | p in next.procs && q in next.procs && Owes(next.procs[p], i) && Owes(next.procs[q], i)
      ensures p == q
    {
      OwesPair(m, s, step, p, q, i);
    }
    forall p, i, k | p in next.procs && Owes(next.procs[p], i) && 0 <= k < |next.store.platform|
      ensures !Appends(next.store.platform[k], i)
    {
      OwesUnlisted(m, s, step, p, i, k);
    }
    forall i, j, k | 0 <= j < k < |next.store.platform| && Appends(next.store.platform[j], i)
      ensures !Appends(next.store.platform[k], i)
    {
      AppendsApart(m, s, step, i, j, k);
    }
  }

  lemma AppendsApart(m: Mode, s: State, step: Step, i: string, j: nat, k: nat)
    requires Inv(s) && Takes(m, s, step) && OnceInv(s)
    requires var next := Apply(s, step); j < k < |next.store.platform| && Appends(next.store.platform[j], i)
    ensures !Appends(Apply(s, step).store.platform[k], i)
  {
    hide Inv, Applicable, Admits, ProcStep, EnvironmentStep, Start;
    PlatformGrowth(m, s, step);
    var next := Apply(s, step);
    assert next.store.platform[j] == s.store.platform[j];
    if k < |s.store.platform| { assert next.store.platform[k] == s.store.platform[k]; }
  }

  lemma OwingImported(s: State, p: nat, i: string)
    requires Inv(s) && p in s.procs && Owes(s.procs[p], i)
    ensures EverImported(s.store.imports, i)
  {
    hide StoreOk, WriteOk;
    assert ProcOk(s.store, s.procs[p]);
    assert s.store.imports[i].revisions[s.procs[p].at].phase.Imported?;
  }

  lemma OwesPair(m: Mode, s: State, step: Step, p: nat, q: nat, i: string)
    requires Inv(s) && Takes(m, s, step) && OnceInv(s)
    requires var next := Apply(s, step);
             p in next.procs && q in next.procs && Owes(next.procs[p], i) && Owes(next.procs[q], i)
    ensures p == q
  {
    hide StoreOk, ProcOk, Grows, ProcStep, EnvironmentStep, Start, Admits;
    if p != q {
      if !Environment(step) && (p == step.id || q == step.id) {
        var other := if p == step.id then q else p;
        OwesStep(m, s, step, i);
        assert other in s.procs && Owes(s.procs[other], i);
        OwingImported(s, other, i);
      }
    }
  }

  lemma OwesUnlisted(m: Mode, s: State, step: Step, p: nat, i: string, k: nat)
    requires Inv(s) && Takes(m, s, step) && OnceInv(s)
    requires var next := Apply(s, step);
             p in next.procs && Owes(next.procs[p], i) && k < |next.store.platform|
    ensures !Appends(Apply(s, step).store.platform[k], i)
  {
    hide StoreOk, ProcOk, Grows, ProcStep, EnvironmentStep, Start, Admits;
    var next := Apply(s, step);
    PlatformGrowth(m, s, step);
    if Appends(next.store.platform[k], i) {
      if k < |s.store.platform| {
        assert next.store.platform[k] == s.store.platform[k];
        if !Environment(step) && p == step.id {
          OwesStep(m, s, step, i);
          AppendedImported(s, k, i);
        }
      }
    }
  }

  lemma AppendedImported(s: State, k: nat, i: string)
    requires Inv(s) && k < |s.store.platform| && Appends(s.store.platform[k], i)
    ensures EverImported(s.store.imports, i)
  {
    hide ProcOk, PlatformWrite, PipelineOk, VolumeOk, ImportOk;
    assert Enters(s.store.platform[k], i);
  }

  lemma {:induction false} OnceRun(m: Mode, s: State, steps: seq<Step>)
    requires Inv(s) && OnceInv(s) && IsRun(m, s, steps)
    ensures OnceInv(After(m, s, steps))
    decreases |steps|
  {
    hide Inv, OnceInv, Apply, Applicable, Admits;
    if |steps| > 0 {
      StepKeeps(m, s, steps[0]);
      OnceStep(m, s, steps[0]);
      OnceRun(m, Apply(s, steps[0]), steps[1..]);
    }
  }

  /** An import appends to the import history at most once in its lifetime, and only when it is complete. */
  lemma ImportAppendedOnce(m: Mode, s: State, name: string, j: nat, k: nat)
    requires Reachable(m, s) && j < |s.store.platform| && k < |s.store.platform|
    requires s.store.platform[j].event == ImportAppended(name) && s.store.platform[k].event == ImportAppended(name)
    ensures j == k
    ensures name in s.store.imports && |s.store.imports[name].revisions| > 0
            && CurrentImport(s.store, name).phase.Imported?
  {
    hide ProcOk, Apply, Applicable, Admits;
    ReachableInv(m, s);
    var steps :| IsRun(m, INITIAL, steps) && After(m, INITIAL, steps) == s;
    OnceRun(m, INITIAL, steps);
    AppendedImported(s, k, name);
    CurrentImported(s.store, name);
    assert Appends(s.store.platform[j], name) && Appends(s.store.platform[k], name);
  }
}
