/** What the version check of an import guarantees, and what it does not. It is made once, when an import starts. */
module VersionChecks {
  import opened Objects
  import opened Reconcilers
  import opened Protocol
  import opened Invariants
  import opened Preservation
  import opened Lifecycle
  import opened ImportHistory
  import opened Runs

  predicate Unstarted(phase: ImportPhase) {
    phase.NotStarted? || phase.ImportFailed?
  }

  /** A reconcile of the import that has not passed the version check, or whose write is already certain to be refused. */
  predicate Unchecked(store: Store, proc: Proc, name: string)
    requires name in store.imports
  {
    proc.ImportProc? && proc.name == name ==>
      match proc.importPc
      case AtVersionCheck => true
      case AtImportDuplicate(_) => true
      case ImportWriting(w, next) =>
        w.WriteImport? && next.ThenEnd? && (Unstarted(w.status.phase) || w.base + 1 < |store.imports[name].revisions|)
      case _ => false
  }

  /** No reconcile has passed the version check for the import. */
  ghost predicate NeverPassed(s: State, name: string) {
    && name in s.store.imports
    && (forall k :: 0 <= k < |s.store.imports[name].revisions| ==> Unstarted(s.store.imports[name].revisions[k].phase))
    && (forall p :: p in s.procs ==> Unchecked(s.store, s.procs[p], name))
  }

  /** The version of the import is in the current import history. */
  ghost predicate ListedNow(s: State, name: string) {
    name in s.store.imports && |s.store.platform| > 0
    && VersionListed(Last(s.store.platform).imports, s.store.imports[name].spec.collectionVersion)
  }

  lemma BystanderUnchecked(s: State, step: Step, name: string, p: nat)
    requires Applicable(s, step) && NeverPassed(s, name) && p in Apply(s, step).procs && (Environment(step) || p != step.id)
    requires Grows(s.store, Apply(s, step).store)
    ensures name in Apply(s, step).store.imports && Unchecked(Apply(s, step).store, Apply(s, step).procs[p], name)
  {
    hide EnvironmentApplies, EnvironmentStep, ProcStep, Start;
    assert p in s.procs && s.procs[p] == Apply(s, step).procs[p];
    assert Unchecked(s.store, s.procs[p], name);
  }

  lemma ActingUnchecked(m: Mode, s: State, step: Step, name: string)
    requires Inv(s) && Takes(m, s, step) && m.view == CurrentReads && NeverPassed(s, name) && ListedNow(s, name)
    requires !Environment(step) && step.id in Apply(s, step).procs && s.store.imports[name].spec.collectionVersion != ""
    ensures Unchecked(s.store, Apply(s, step).procs[step.id], name)
  {
    hide Inv, EnvironmentApplies, PipelineStep, PlatformStep, PipelineApplies, PlatformApplies, VersionListed, OnReference, ProcStep;
    if step.BeginImport? {
      if step.name == name { assert Unstarted(s.store.imports[name].revisions[step.at].phase); }
    } else if !Begins(step) {
      assert Unchecked(s.store, s.procs[step.id], name);
      if s.procs[step.id].ImportProc? { ImportUnchecked(m, s, step, name); } else { NotAnImport(s, step); }
    }
  }

  lemma NotAnImport(s: State, step: Step)
    requires Applicable(s, step) && !Environment(step) && !Begins(step) && !s.procs[step.id].ImportProc?
    ensures var next := Apply(s, step); step.id in next.procs ==> !next.procs[step.id].ImportProc?
    ensures Apply(s, step).store.imports == s.store.imports
  {
    hide VersionListed, OnAccepted, OnReference, OnVersion, OnBase, CollectVersions, Importers, ImportInfos, AggregatedRevision;
  }

  lemma ImportUnchecked(m: Mode, s: State, step: Step, name: string)
    requires Takes(m, s, step) && m.view == CurrentReads && ListedNow(s, name)
    requires !Environment(step) && !Begins(step) && s.procs[step.id].ImportProc? && Unchecked(s.store, s.procs[step.id], name)
    ensures var next := Apply(s, step); step.id in next.procs ==> Unchecked(s.store, next.procs[step.id], name)
  {
    hide EnvironmentApplies, PipelineStep, PlatformStep, PipelineApplies, PlatformApplies, VersionListed;
  }

  lemma RevisionsUnstarted(m: Mode, s: State, step: Step, name: string)
    requires Inv(s) && Takes(m, s, step) && NeverPassed(s, name)
    ensures name in Apply(s, step).store.imports
    ensures Apply(s, step).store.imports[name].spec == s.store.imports[name].spec
    ensures var r := Apply(s, step).store.imports[name].revisions;
            forall k :: 0 <= k < |r| ==> Unstarted(r[k].phase)
  {
    hide Inv, Admits, PlatformApplies, PipelineApplies, PipelineStep, PlatformStep, ProcStep;
    if step.TouchImport? && step.name == name {
      var r := s.store.imports[name].revisions;
      assert Unstarted(r[|r| - 1].phase);
    } else if !Environment(step) && !Begins(step) {
      assert Unchecked(s.store, s.procs[step.id], name);
      if s.procs[step.id].ImportProc? { ImportAppends(s, step, name); } else { NotAnImport(s, step); }
    }
  }

  lemma ImportAppends(s: State, step: Step, name: string)
    requires Applicable(s, step) && !Environment(step) && !Begins(step) && s.procs[step.id].ImportProc?
    requires name in s.store.imports && Unchecked(s.store, s.procs[step.id], name)
    ensures var next := Apply(s, step).store.imports;
            && name in next && next[name].spec == s.store.imports[name].spec
            && (|| next[name].revisions == s.store.imports[name].revisions
                || (|next[name].revisions| > 0
                    && next[name].revisions == s.store.imports[name].revisions + [Last(next[name].revisions)]
                    && Unstarted(Last(next[name].revisions).phase)))
  {
    hide EnvironmentApplies, PipelineStep, PlatformStep, PipelineApplies, PlatformApplies, VersionListed;
  }

  /** The version stays listed, because the import that brought it in stays complete. */
  lemma StillListed(m: Mode, s: State, name: string, other: string, k: nat)
    requires Reachable(m, s) && m.view == CurrentReads && k < |s.store.platform| && Enters(s.store.platform[k], other)
    requires name in s.store.imports && other in s.store.imports && s.store.imports[name].spec.collectionVersion != ""
    requires s.store.imports[other].spec.collectionVersion == s.store.imports[name].spec.collectionVersion
    ensures ListedNow(s, name)
  {
    hide Reachable, Enters, VersionListed;
    ImportedVersionNeverLost(m, s, other, k, |s.store.platform| - 1);
  }

  /** The other import has entered the history, and both are of one version. */
  ghost predicate Precedes(s: State, other: string, name: string, k: nat) {
    && k < |s.store.platform| && Enters(s.store.platform[k], other)
    && name in s.store.imports && other in s.store.imports && s.store.imports[name].spec.collectionVersion != ""
    && s.store.imports[other].spec.collectionVersion == s.store.imports[name].spec.collectionVersion
  }

  lemma PrecedesStable(a: State, b: State, other: string, name: string, k: nat)
    requires Precedes(a, other, name, k) && Grows(a.store, b.store)
    ensures Precedes(b, other, name, k)
  {
  }

  lemma LateStep(m: Mode, s: State, step: Step, name: string)
    requires Inv(s) && Takes(m, s, step) && m.view == CurrentReads && NeverPassed(s, name) && ListedNow(s, name)
    requires s.store.imports[name].spec.collectionVersion != ""
    ensures NeverPassed(Apply(s, step), name)
  {
    hide Inv, Applicable, Admits, Apply, Unchecked, VersionListed, Grows;
    RevisionsUnstarted(m, s, step, name);
    StepKeeps(m, s, step);
    var next := Apply(s, step);
    forall p | p in next.procs ensures Unchecked(next.store, next.procs[p], name) {
      if !Environment(step) && p == step.id {
        ActingUnchecked(m, s, step, name);
        UncheckedLater(s.store, next.store, next.procs[p], name);
      } else {
        BystanderUnchecked(s, step, name, p);
      }
    }
  }

  lemma UncheckedLater(a: Store, b: Store, proc: Proc, name: string)
    requires Grows(a, b) && name in a.imports && Unchecked(a, proc, name)
    ensures name in b.imports && Unchecked(b, proc, name)
  {
  }

  /** With current reads, an import whose version check is still to come when another import of its version has entered
      the history never gets past it: wherever the system goes from there, it has not started or has failed. */
  lemma {:induction false} LateImportNeverStarts(m: Mode, s: State, steps: seq<Step>, other: string, name: string, k: nat)
    requires Reachable(m, s) && IsRun(m, s, steps) && m.view == CurrentReads
    requires Precedes(s, other, name, k) && NeverPassed(s, name)
    ensures Precedes(After(m, s, steps), other, name, k) && NeverPassed(After(m, s, steps), name)
    decreases |steps|
  {
    hide Inv, Applicable, Admits, Apply, Precedes, NeverPassed, ListedNow, Grows, Reachable;
    if |steps| > 0 {
      var next := Apply(s, steps[0]);
      ReachableInv(m, s);
      StepReached(m, s, steps[0]);
      PrecedesStable(s, next, other, name, k);
      VersionGiven(s, other, name, k);
      StillListed(m, s, name, other, k);
      LateStep(m, s, steps[0], name);
      LateImportNeverStarts(m, next, steps[1..], other, name, k);
    }
  }

  lemma VersionGiven(s: State, other: string, name: string, k: nat)
    requires Precedes(s, other, name, k)
    ensures k < |s.store.platform| && Enters(s.store.platform[k], other)
    ensures name in s.store.imports && other in s.store.imports && s.store.imports[name].spec.collectionVersion != ""
    ensures s.store.imports[other].spec.collectionVersion == s.store.imports[name].spec.collectionVersion
  {
  }

  // ---------------------------------------------------------------- versions that stay listed

  /** Every aggregation that lists this version's imports lists the version. */
  ghost predicate Aggregable(imports: map<string, Import>, version: string) {
    exists n :: EverImported(imports, n) && AggregatedVersion(n, imports[n].spec) == version
  }

  /** The reconcile is about to replace the history by one without the version. */
  ghost predicate RemovesVersion(store: Store, proc: Proc, version: string) {
    && proc.PlatformProc? && proc.platformPc.PlatformWriting? && proc.platformPc.write.WritePlatform?
    && proc.platformPc.write.base + 1 == |store.platform|
    && !VersionListed(proc.platformPc.write.platform.imports, version)
  }

  ghost predicate Removing(s: State, version: string) {
    exists p :: p in s.procs && RemovesVersion(s.store, s.procs[p], version)
  }

  /** Listed, and nothing under way can change that. */
  ghost predicate ListedForGood(s: State, version: string) {
    && |s.store.platform| > 0 && VersionListed(Last(s.store.platform).imports, version)
    && Aggregable(s.store.imports, version) && !Removing(s, version)
  }

  lemma AggregableStable(a: map<string, Import>, b: map<string, Import>, version: string)
    requires ImportsGrow(a, b) && Aggregable(a, version)
    ensures Aggregable(b, version)
  {
    var n :| EverImported(a, n) && AggregatedVersion(n, a[n].spec) == version;
    EverImportedStable(a, b, n);
  }

  lemma StaysListed(s: State, step: Step, version: string)
    requires Inv(s) && Applicable(s, step) && ListedForGood(s, version) && PlatformOk(Apply(s, step).store)
    ensures var platform := Apply(s, step).store.platform;
            |platform| > 0 && VersionListed(Last(platform).imports, version)
    ensures s.store.platform <= Apply(s, step).store.platform
  {
    hide PipelineOk, ImportOk, VolumeOk, Applicable, Apply, VersionListed, PlatformWrite, Sourced, EverImported, WriteOk;
    AggregateGrowth(s, step);
    var before, after := s.store.platform, Apply(s, step).store.platform;
    if after != before {
      var k := |before|;
      assert PlatformWrite(Apply(s, step).store.imports, after[k - 1], after[k]);
      if after[k].event.Aggregated? {
        assert ProcOk(s.store, s.procs[step.id]);
        assert !RemovesVersion(s.store, s.procs[step.id], version);
      } else {
        ListingKept(Apply(s, step).store.imports, after[k - 1], after[k], version);
      }
    }
  }

  /** What an aggregation is about to write lists the version. */
  lemma AggregateLists(m: Mode, s: State, step: Step, version: string)
    requires Inv(s) && Takes(m, s, step) && m.view == CurrentReads && ListedForGood(s, version)
    requires step.ListImports? && s.procs[step.id].PlatformProc?
    ensures var next := Apply(s, step); step.id in next.procs ==> !RemovesVersion(next.store, next.procs[step.id], version)
  {
    hide ProcsOk, PipelineOk, VolumeOk, PlatformOk, CollectVersions, Importers, ImportOk, EverImported, ListsAllImports, VersionListed,
         ImportApplies, PipelineApplies, ImportStep, PipelineStep, ValidImportList;
    ImportersKnown(s.store.imports, step.list);
    var importers := Importers(s.store.imports, step.list);
    if step.list == [] {
      NoImporters(s.store.imports, step.list);
    } else {
      var n := Supplier(s.store.imports, version);
      AllImportersListed(s.store, step.list, n);
      var k :| 0 <= k < |importers| && importers[k] == n;
      ListedAt(ImportInfos(s.store.imports, importers), k, version);
    }
  }

  lemma Supplier(imports: map<string, Import>, version: string) returns (n: string)
    requires Aggregable(imports, version)
    ensures n in imports && EverImported(imports, n) && AggregatedVersion(n, imports[n].spec) == version
  {
    n :| EverImported(imports, n) && AggregatedVersion(n, imports[n].spec) == version;
  }

  lemma NoImporters(imports: map<string, Import>, list: seq<Listed>)
    requires list == []
    ensures ValidImportList(imports, list) && Importers(imports, list) == []
  {
  }

  lemma ListedAt(history: seq<Info>, k: nat, version: string)
    requires k < |history| && history[k].version == version
    ensures VersionListed(history, version)
  {
  }

  lemma AllImportersListed(store: Store, list: seq<Listed>, name: string)
    requires StoreOk(store) && EverImported(store.imports, name) && ValidImportList(store.imports, list) && ListsAllImports(store, list)
    ensures name in Importers(store.imports, list)
  {
    hide PipelineOk, ImportOk, VolumeOk, PlatformOk, Importers;
    CurrentImported(store, name);
    var l :| 0 <= l < |list| && list[l].name == name;
    ImportersComplete(store.imports, list, l);
  }

  lemma OnlyListingWrites(s: State, step: Step)
    requires Applicable(s, step) && !Environment(step) && !step.ListImports?
    ensures var next := Apply(s, step);
            step.id in next.procs && next.procs[step.id].PlatformProc? ==> !next.procs[step.id].platformPc.PlatformWriting?
  {
    hide EnvironmentApplies, PipelineStep, ImportStep, CollectVersions, ImportApplies, PipelineApplies;
    if !Begins(step) && !step.Stop? && !s.procs[step.id].PlatformProc? { NotAnAggregator(s, step); }
  }

  lemma RemovingKept(s: State, step: Step, version: string, p: nat)
    requires Inv(s) && Applicable(s, step) && (Environment(step) || p != step.id) && p in Apply(s, step).procs
    requires s.store.platform <= Apply(s, step).store.platform && RemovesVersion(Apply(s, step).store, Apply(s, step).procs[p], version)
    ensures Removing(s, version)
  {
    hide StoreOk, EnvironmentApplies, EnvironmentStep, ProcStep, Start, VersionListed, WriteOk;
    assert p in s.procs && s.procs[p] == Apply(s, step).procs[p] && ProcOk(s.store, s.procs[p]);
    assert RemovesVersion(s.store, s.procs[p], version);
  }

  lemma ForGoodStep(m: Mode, s: State, step: Step, version: string)
    requires Inv(s) && Takes(m, s, step) && m.view == CurrentReads && ListedForGood(s, version)
    ensures ListedForGood(Apply(s, step), version)
  {
    hide ProcsOk, PipelineOk, ImportOk, VolumeOk, PlatformOk, Applicable, Admits, Apply, VersionListed, RemovesVersion, Aggregable,
         PipelinesGrow, RunsGrow, VolumesGrow, ImportsGrow;
    StepKeeps(m, s, step);
    StaysListed(s, step, version);
    var next := Apply(s, step);
    AggregableStable(s.store.imports, next.store.imports, version);
    forall p | p in next.procs ensures !RemovesVersion(next.store, next.procs[p], version) {
      if Environment(step) || p != step.id {
        if RemovesVersion(next.store, next.procs[p], version) { RemovingKept(s, step, version, p); }
      } else if step.ListImports? {
        OnlyPlatformsList(s, step);
        AggregateLists(m, s, step, version);
      } else {
        OnlyListingWrites(s, step);
        if RemovesVersion(next.store, next.procs[p], version) { RemovesByWriting(next.store, next.procs[p], version); }
      }
    }
  }

  lemma OnlyPlatformsList(s: State, step: Step)
    requires Applicable(s, step) && step.ListImports?
    ensures step.id in s.procs && s.procs[step.id].PlatformProc?
  {
  }

  lemma RemovesByWriting(store: Store, proc: Proc, version: string)
    requires RemovesVersion(store, proc, version)
    ensures proc.PlatformProc? && proc.platformPc.PlatformWriting?
  {
  }

  /** With current reads, an import of a version that is listed for good and that no reconcile has passed never starts. */
  lemma {:induction false} NeverStarts(m: Mode, s: State, steps: seq<Step>, name: string)
    requires Reachable(m, s) && IsRun(m, s, steps) && m.view == CurrentReads && NeverPassed(s, name)
    requires name in s.store.imports && s.store.imports[name].spec.collectionVersion != "" && ListedForGood(s, s.store.imports[name].spec.collectionVersion)
    ensures NeverPassed(After(m, s, steps), name)
    decreases |steps|
  {
    hide Inv, Applicable, Admits, Apply, NeverPassed, ListedForGood, Grows, Reachable;
    if |steps| > 0 {
      var next, version := Apply(s, steps[0]), s.store.imports[name].spec.collectionVersion;
      ReachableInv(m, s);
      StepReached(m, s, steps[0]);
      SpecKept(s, steps[0], name);
      ForGoodStep(m, s, steps[0], version);
      ListedNowFor(s, name);
      LateStep(m, s, steps[0], name);
      NeverStarts(m, next, steps[1..], name);
    }
  }

  lemma SpecKept(s: State, step: Step, name: string)
    requires Applicable(s, step) && name in s.store.imports && Grows(s.store, Apply(s, step).store)
    ensures name in Apply(s, step).store.imports && Apply(s, step).store.imports[name].spec == s.store.imports[name].spec
  {
    hide Applicable, Apply;
  }

  lemma ListedNowFor(s: State, name: string)
    requires name in s.store.imports && ListedForGood(s, s.store.imports[name].spec.collectionVersion)
    ensures ListedNow(s, name)
  {
  }
}
