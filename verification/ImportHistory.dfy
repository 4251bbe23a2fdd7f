/** With current reads, a collection version that entered the platform's import history is never lost again, although
    the platform reconciler replaces the whole history and the import reconcilers append to it. */
module ImportHistory {
  import opened Objects
  import opened Reconcilers
  import opened Protocol
  import opened Invariants
  import opened Preservation
  import opened Lifecycle

  /** Nothing is imported, or every import that entered before revision `k` is among `importers`. */
  ghost predicate CoversBefore(platform: seq<PlatformRevision>, k: nat, importers: seq<string>)
    requires k <= |platform|
  {
    importers == [] || forall j, i :: 0 <= j < k && Enters(platform[j], i) ==> i in importers
  }

  ghost predicate AggregatesCover(platform: seq<PlatformRevision>) {
    forall k :: 0 <= k < |platform| && platform[k].event.Aggregated? ==> CoversBefore(platform, k, platform[k].event.importers)
  }

  ghost predicate AggregatorOk(store: Store, proc: Proc) {
    proc.PlatformProc? && proc.platformPc.PlatformWriting? && proc.platformPc.write.WritePlatform?
    && proc.platformPc.write.platform.event.Aggregated? ==>
      proc.at < |store.platform|
      && CoversBefore(store.platform, proc.at + 1, proc.platformPc.write.platform.event.importers)
  }

  ghost predicate CoverInv(s: State) {
    && AggregatesCover(s.store.platform)
    && (forall p :: p in s.procs ==> AggregatorOk(s.store, s.procs[p]))
  }

  // ---------------------------------------------------------------- what a covering history carries

  lemma EntryListed(imports: map<string, Import>, a: PlatformRevision, b: PlatformRevision, name: string)
    requires PlatformWrite(imports, a, b) && Enters(b, name)
    requires name in imports && imports[name].spec.collectionVersion != ""
    ensures VersionListed(b.imports, imports[name].spec.collectionVersion)
  {
    if b.event.Aggregated? {
      var importers := b.event.importers;
      var collections :| b == AggregatedRevision(a, collections, ImportInfos(imports, importers), importers, b.event.list, b.event.now, b.event.names);
      var k :| 0 <= k < |importers| && importers[k] == name;
      assert b.imports[k].version == imports[name].spec.collectionVersion;
    } else {
      assert b.imports[|a.imports|].version == imports[name].spec.collectionVersion;
    }
  }

  lemma ListingKept(imports: map<string, Import>, a: PlatformRevision, b: PlatformRevision, version: string)
    requires PlatformWrite(imports, a, b) && VersionListed(a.imports, version)
    requires b.event.Aggregated? ==> b.event.importers == []
    ensures VersionListed(b.imports, version)
  {
    var k :| 0 <= k < |a.imports| && a.imports[k].version == version;
    assert b.imports[k] == a.imports[k];
  }

  lemma {:induction false} EnteredStaysListed(store: Store, name: string, j: nat, k: nat)
    requires PlatformOk(store) && AggregatesCover(store.platform)
    requires j <= k < |store.platform| && Enters(store.platform[j], name)
    requires name in store.imports && store.imports[name].spec.collectionVersion != ""
    ensures VersionListed(store.platform[k].imports, store.imports[name].spec.collectionVersion)
  {
    hide Sourced, EverImported, VersionListed, PlatformWrite;
    if k > 0 { assert PlatformWrite(store.imports, store.platform[k - 1], store.platform[k]); }
    if j == k || (store.platform[k].event.Aggregated? && store.platform[k].event.importers != []) {
      if j < k { assert CoversBefore(store.platform, k, store.platform[k].event.importers); }
      EntryListed(store.imports, store.platform[k - 1], store.platform[k], name);
    } else {
      EnteredStaysListed(store, name, j, k - 1);
      ListingKept(store.imports, store.platform[k - 1], store.platform[k], store.imports[name].spec.collectionVersion);
    }
  }

  // ---------------------------------------------------------------- every step keeps the cover

  lemma {:induction false} ImportersComplete(imports: map<string, Import>, list: seq<Listed>, k: nat)
    requires ValidImportList(imports, list) && k < |list|
    requires imports[list[k].name].revisions[list[k].at].phase.Imported?
    ensures list[k].name in Importers(imports, list)
  {
    var rest := list[..|list| - 1];
    if k < |list| - 1 {
      assert rest[k] == list[k];
      ImportersComplete(imports, rest, k);
      var j :| 0 <= j < |Importers(imports, rest)| && Importers(imports, rest)[j] == list[k].name;
      assert Importers(imports, list)[j] == list[k].name;
    } else {
      assert Importers(imports, list)[|Importers(imports, list)| - 1] == list[k].name;
    }
  }

  lemma FullListCovers(store: Store, list: seq<Listed>, k: nat)
    requires StoreOk(store) && ValidImportList(store.imports, list) && k <= |store.platform|
    requires list != [] ==> ListsAllImports(store, list)
    ensures CoversBefore(store.platform, k, Importers(store.imports, list))
  {
    if list == [] { return; }
    hide PipelineOk, ImportOk, VolumeOk, PlatformWrite, Sourced, Importers;
    forall j, i | 0 <= j < k && Enters(store.platform[j], i) ensures i in Importers(store.imports, list) {
      assert EverImported(store.imports, i);
      CurrentImported(store, i);
      var l :| 0 <= l < |list| && list[l].name == i;
      ImportersComplete(store.imports, list, l);
    }
  }

  /** An aggregate enters the platform only through the write of the reconcile that computed it. */
  lemma AggregateGrowth(s: State, step: Step)
    requires Inv(s) && Applicable(s, step)
    ensures var before, after := s.store.platform, Apply(s, step).store.platform;
            || after == before
            || (exists r :: after == before + [r] &&
                  (r.event.Aggregated? ==>
                     && step.Commit? && step.id in s.procs && s.procs[step.id].PlatformProc?
                     && s.procs[step.id].platformPc.PlatformWriting? && s.procs[step.id].platformPc.write.WritePlatform?
                     && s.procs[step.id].platformPc.write.platform == r && s.procs[step.id].at + 1 == |before|))
  {
    hide StoreOk, ProcStep;
    if step.CreatePlatform? || step.TouchPlatform? {
      var after := Apply(s, step).store.platform;
      assert after == s.store.platform + [Last(after)];
    } else if !Environment(step) && !Begins(step) {
      ProcAggregateGrowth(s, step);
    }
  }

  lemma ProcAggregateGrowth(s: State, step: Step)
    requires Inv(s) && Applicable(s, step) && !Environment(step) && !Begins(step)
    ensures var before, after := s.store.platform, Apply(s, step).store.platform;
            || after == before
            || (exists r :: after == before + [r] &&
                  (r.event.Aggregated? ==>
                     && step.Commit? && s.procs[step.id].PlatformProc?
                     && s.procs[step.id].platformPc.PlatformWriting? && s.procs[step.id].platformPc.write.WritePlatform?
                     && s.procs[step.id].platformPc.write.platform == r && s.procs[step.id].at + 1 == |before|))
  {
    hide StoreOk, ProcOk, WriteOk, EnvironmentApplies, PipelineStep, ImportStep, PlatformStep, PipelineApplies, ImportApplies,
         PlatformApplies;
    if step.Commit? {
      CommitAggregateGrowth(s, step);
    } else if step.Stop? {
    } else {
      OtherAggregateGrowth(s, step);
    }
  }

  lemma OtherAggregateGrowth(s: State, step: Step)
    requires Applicable(s, step) && !Environment(step) && !Begins(step) && !step.Commit?
    ensures Apply(s, step).store.platform == s.store.platform
  {
    hide StoreOk, ProcOk, OnReference, OnVersion, OnAccepted, OnBase, OnClaim, CollectVersions, Importers, VersionListed, EnvironmentApplies;
  }

  lemma CommitAggregateGrowth(s: State, step: Step)
    requires Inv(s) && Applicable(s, step) && step.Commit?
    ensures var before, after := s.store.platform, Apply(s, step).store.platform;
            || after == before
            || (exists r :: after == before + [r] &&
                  (r.event.Aggregated? ==>
                     && s.procs[step.id].PlatformProc?
                     && s.procs[step.id].platformPc.PlatformWriting? && s.procs[step.id].platformPc.write.WritePlatform?
                     && s.procs[step.id].platformPc.write.platform == r && s.procs[step.id].at + 1 == |before|))
  {
    hide StoreOk, PipelineWrite, ImportWrite, PlatformWrite, Sourced, OnAccepted, NextOk, EnvironmentApplies, Backed, EverImported;
    var proc := s.procs[step.id];
    assert ProcOk(s.store, proc);
    var w := match proc
      case PipelineProc(_, _, _, pc) => pc.write
      case ImportProc(_, _, pc) => pc.write
      case PlatformProc(_, pc) => pc.write;
    if w.WritePlatform? && Accepts(s.store, w) {
      assert Apply(s, step).store.platform == s.store.platform + [w.platform];
    }
  }

  lemma CoverKept(s: State, step: Step)
    requires Inv(s) && Applicable(s, step) && CoverInv(s)
    ensures AggregatesCover(Apply(s, step).store.platform)
  {
    hide Inv, Applicable, Apply, Enters;
    AggregateGrowth(s, step);
    var before, after := s.store.platform, Apply(s, step).store.platform;
    forall k | 0 <= k < |after| && after[k].event.Aggregated? ensures CoversBefore(after, k, after[k].event.importers) {
      if k < |before| {
        assert after[k] == before[k] && CoversBefore(before, k, before[k].event.importers);
      } else {
        assert AggregatorOk(s.store, s.procs[step.id]);
      }
    }
  }

  lemma ActingAggregator(m: Mode, s: State, step: Step)
    requires Inv(s) && Takes(m, s, step) && CoverInv(s) && m.view == CurrentReads
    requires !Environment(step)
    ensures var next := Apply(s, step); step.id in next.procs ==> AggregatorOk(s.store, next.procs[step.id])
  {
    hide StoreOk, ProcOk, CoversBefore, PipelineStep, ImportStep, Importers, CollectVersions, ListsAllImports;
    if Begins(step) || step.Stop? {
    } else if !s.procs[step.id].PlatformProc? {
      NotAnAggregator(s, step);
    } else if step.ListImports? {
      FullListCovers(s.store, step.list, s.procs[step.id].at + 1);
    }
  }

  lemma NotAnAggregator(s: State, step: Step)
    requires Applicable(s, step) && !Environment(step) && !Begins(step) && !s.procs[step.id].PlatformProc?
    ensures var next := Apply(s, step); step.id in next.procs ==> !next.procs[step.id].PlatformProc?
  {
    hide VersionListed, OnAccepted, OnReference, OnVersion, OnBase;
  }

  lemma AggregatorStable(a: Store, b: Store, proc: Proc)
    requires a.platform <= b.platform && AggregatorOk(a, proc)
    ensures AggregatorOk(b, proc)
  {
    hide Enters;
  }

  lemma CoverStep(m: Mode, s: State, step: Step)
    requires Inv(s) && Takes(m, s, step) && CoverInv(s) && m.view == CurrentReads
    ensures CoverInv(Apply(s, step))
  {
    hide Inv, Applicable, Admits, AggregatesCover, AggregatorOk, ProcStep, EnvironmentStep, Start;
    StepKeeps(m, s, step);
    CoverKept(s, step);
    var next := Apply(s, step);
    forall p | p in next.procs ensures AggregatorOk(next.store, next.procs[p]) {
      if !Environment(step) && p == step.id { ActingAggregator(m, s, step); }
      AggregatorStable(s.store, next.store, next.procs[p]);
    }
  }

  lemma {:induction false} CoverRun(m: Mode, s: State, steps: seq<Step>)
    requires Inv(s) && CoverInv(s) && m.view == CurrentReads && IsRun(m, s, steps)
    ensures CoverInv(After(m, s, steps))
    decreases |steps|
  {
    hide Inv, CoverInv, Apply, Applicable, Admits;
    if |steps| > 0 {
      StepKeeps(m, s, steps[0]);
      CoverStep(m, s, steps[0]);
      CoverRun(m, Apply(s, steps[0]), steps[1..]);
    }
  }

  lemma ReachableCoverInv(m: Mode, s: State)
    requires Reachable(m, s) && m.view == CurrentReads
    ensures CoverInv(s)
  {
    hide Apply, Applicable, Admits;
    var steps :| IsRun(m, INITIAL, steps) && After(m, INITIAL, steps) == s;
    CoverRun(m, INITIAL, steps);
  }

  /** Once import `name` entered the history at platform revision `j`, by its own append or by an aggregate, its
      collection version is listed at every later revision, and the import is and stays complete. */
  lemma ImportedVersionNeverLost(m: Mode, s: State, name: string, j: nat, k: nat)
    requires Reachable(m, s) && m.view == CurrentReads
    requires j <= k < |s.store.platform| && Enters(s.store.platform[j], name)
    ensures name in s.store.imports && |s.store.imports[name].revisions| > 0 && CurrentImport(s.store, name).phase.Imported?
    ensures s.store.imports[name].spec.collectionVersion != "" ==>
              VersionListed(s.store.platform[k].imports, s.store.imports[name].spec.collectionVersion)
  {
    hide Reachable, ProcsOk, PipelineOk, ImportOk, VolumeOk, PlatformWrite, Sourced, AggregatesCover, AggregatorOk, VersionListed;
    ReachableInv(m, s);
    ReachableCoverInv(m, s);
    assert EverImported(s.store.imports, name);
    CurrentImported(s.store, name);
    if s.store.imports[name].spec.collectionVersion != "" { EnteredStaysListed(s.store, name, j, k); }
  }

  /** The entry of this import, by its own append or by an aggregate. */
  predicate IsEntryOf(version: string, name: string, spec: ImportSpec) {
    version == AppendedVersion(name, spec) || version == AggregatedVersion(name, spec)
  }

  /** Whatever is listed was entered by some import. */
  lemma {:induction false} ListedWasEntered(store: Store, k: nat, version: string)
    requires PlatformOk(store) && k < |store.platform| && VersionListed(store.platform[k].imports, version)
    ensures exists name, j :: name in store.imports && 0 <= j <= k && Enters(store.platform[j], name)
                              && IsEntryOf(version, name, store.imports[name].spec)
  {
    hide Sourced, EverImported, IsEntryOf;
    if k > 0 {
      var a, b := store.platform[k - 1], store.platform[k];
      assert PlatformWrite(store.imports, a, b);
      if VersionListed(a.imports, version) {
        ListedWasEntered(store, k - 1, version);
      } else {
        var name := NewlyListed(store.imports, a, b, version);
        assert Enters(store.platform[k], name);
      }
    }
  }

  lemma NewlyListed(imports: map<string, Import>, a: PlatformRevision, b: PlatformRevision, version: string)
    returns (name: string)
    requires PlatformWrite(imports, a, b) && VersionListed(b.imports, version) && !VersionListed(a.imports, version)
    ensures name in imports && Enters(b, name) && IsEntryOf(version, name, imports[name].spec)
  {
    var k :| 0 <= k < |b.imports| && b.imports[k].version == version;
    match b.event
    case ImportAppended(n) =>
      name := n;
    case Aggregated(importers, list, now, names) =>
      var collections :| b == AggregatedRevision(a, collections, ImportInfos(imports, importers), importers, list, now, names);
      if |importers| == 0 { assert false; }
      name := importers[k];
    case CollectionAppended(n) => assert false;
    case Other => assert false;
  }

  /** Once a collection version is in the import history, no later write loses it, so versionExists stays true. The
      versions excluded are those made up for an import that names none. */
  lemma ListedVersionNeverLost(m: Mode, s: State, version: string, j: nat, k: nat)
    requires Reachable(m, s) && m.view == CurrentReads
    requires j <= k < |s.store.platform| && VersionListed(s.store.platform[j].imports, version)
    requires forall name :: name in s.store.imports && s.store.imports[name].spec.collectionVersion == "" ==>
               !IsEntryOf(version, name, s.store.imports[name].spec)
    ensures VersionListed(s.store.platform[k].imports, version)
  {
    hide Reachable, PipelineOk, ImportOk, VolumeOk, PlatformWrite, VersionListed, IsEntryOf;
    ReachableInv(m, s);
    ListedWasEntered(s.store, j, version);
    var name, l :| name in s.store.imports && 0 <= l <= j && Enters(s.store.platform[l], name)
                   && IsEntryOf(version, name, s.store.imports[name].spec);
    ImportedVersionNeverLost(m, s, name, l, k);
    EntryIsVersion(version, name, s.store.imports[name].spec);
  }

  lemma EntryIsVersion(version: string, name: string, spec: ImportSpec)
    requires IsEntryOf(version, name, spec) && spec.collectionVersion != ""
    ensures version == spec.collectionVersion
  {
  }
}
