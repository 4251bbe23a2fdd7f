/** Where the aggregated histories come from: a list of the pipelines and one of the imports, each taken at one moment of
    the run. */
module Aggregates {
  import opened Objects
  import opened Reconcilers
  import opened Protocol
  import opened Invariants
  import opened Preservation
  import opened ImportHistory
  import opened Runs

  // ---------------------------------------------------------------- what a list yields

  ghost predicate ContributesAt(pipelines: map<string, Pipeline>, list: seq<Listed>, j: int)
    requires ValidPipelineList(pipelines, list)
  {
    0 <= j < |list| &&
    var status := pipelines[list[j].name].revisions[list[j].at].status;
    status.version != "" && (status.phase.Complete? || status.phase.Succeeded?)
  }

  /** `at` picks the contributing positions of the list, in order, and the history has their versions. */
  ghost predicate Lists(pipelines: map<string, Pipeline>, list: seq<Listed>, now: nat, history: seq<Info>, at: seq<nat>)
    requires ValidPipelineList(pipelines, list)
  {
    && |at| == |history|
    && (forall j, k :: 0 <= j < k < |at| ==> at[j] < at[k])
    && (forall j: nat :: ContributesAt(pipelines, list, j) <==> j in at)
    && (forall k :: 0 <= k < |at| ==> EntryFrom(pipelines, list, now, history[k], at[k]))
  }

  ghost predicate EntryFrom(pipelines: map<string, Pipeline>, list: seq<Listed>, now: nat, entry: Info, j: nat)
    requires ValidPipelineList(pipelines, list)
  {
    j < |list| && entry == Info(pipelines[list[j].name].revisions[list[j].at].status.version, now)
  }

  /** The collected history has exactly one entry for each complete versioned pipeline of the list, in list order. */
  lemma {:induction false} CollectedExactly(pipelines: map<string, Pipeline>, list: seq<Listed>, now: nat)
    returns (at: seq<nat>)
    requires ValidPipelineList(pipelines, list)
    ensures Lists(pipelines, list, now, CollectVersions(pipelines, list, now), at)
  {
    at := [];
    if |list| > 0 {
      var before := list[..|list| - 1];
      at := CollectedExactly(pipelines, before, now);
      at := OneMore(pipelines, list, now, at);
    }
  }

  lemma OneMore(pipelines: map<string, Pipeline>, list: seq<Listed>, now: nat, at: seq<nat>) returns (next: seq<nat>)
    requires ValidPipelineList(pipelines, list) && |list| > 0
    requires Lists(pipelines, list[..|list| - 1], now, CollectVersions(pipelines, list[..|list| - 1], now), at)
    ensures Lists(pipelines, list, now, CollectVersions(pipelines, list, now), next)
  {
    hide ContributesAt, EntryFrom;
    var n, before := |list| - 1, list[..|list| - 1];
    ContributesOneMore(pipelines, list);
    ContributesWithin(pipelines, before);
    next := if ContributesAt(pipelines, list, n) then at + [n] else at;
    forall k | 0 <= k < |at| ensures EntryFrom(pipelines, list, now, CollectVersions(pipelines, before, now)[k], at[k]) && at[k] < n {
      EntryLonger(pipelines, list, now, CollectVersions(pipelines, before, now)[k], at[k]);
    }
    if ContributesAt(pipelines, list, n) { EntryOfLast(pipelines, list, now, Last(CollectVersions(pipelines, list, now))); }
  }

  lemma EntryLonger(pipelines: map<string, Pipeline>, list: seq<Listed>, now: nat, entry: Info, j: nat)
    requires ValidPipelineList(pipelines, list) && |list| > 0 && EntryFrom(pipelines, list[..|list| - 1], now, entry, j)
    ensures EntryFrom(pipelines, list, now, entry, j) && j < |list| - 1
  {
  }

  lemma EntryOfLast(pipelines: map<string, Pipeline>, list: seq<Listed>, now: nat, entry: Info)
    requires ValidPipelineList(pipelines, list) && |list| > 0
    requires entry == Info(pipelines[Last(list).name].revisions[Last(list).at].status.version, now)
    ensures EntryFrom(pipelines, list, now, entry, |list| - 1)
  {
  }

  lemma ContributesOneMore(pipelines: map<string, Pipeline>, list: seq<Listed>)
    requires ValidPipelineList(pipelines, list) && |list| > 0
    ensures ValidPipelineList(pipelines, list[..|list| - 1])
    ensures var n, before := |list| - 1, list[..|list| - 1];
            && (forall j: nat :: ContributesAt(pipelines, list, j) <==>
                  ContributesAt(pipelines, before, j) || (j == n && ContributesAt(pipelines, list, n)))
            && (ContributesAt(pipelines, list, n) <==> Contributes(pipelines[list[n].name].revisions[list[n].at].status))
  {
  }

  lemma ContributesWithin(pipelines: map<string, Pipeline>, list: seq<Listed>)
    requires ValidPipelineList(pipelines, list)
    ensures forall j: nat :: ContributesAt(pipelines, list, j) ==> j < |list|
  {
  }

  lemma {:induction false} CollectedStable(a: map<string, Pipeline>, b: map<string, Pipeline>, list: seq<Listed>, now: nat)
    requires PipelinesGrow(a, b) && ValidPipelineList(a, list)
    ensures ValidPipelineList(b, list) && CollectVersions(a, list, now) == CollectVersions(b, list, now)
  {
    if |list| > 0 {
      CollectedStable(a, b, list[..|list| - 1], now);
      assert Last(list).name in a && a[Last(list).name].revisions <= b[Last(list).name].revisions;
    }
  }

  ghost predicate FinishedAt(imports: map<string, Import>, list: seq<Listed>, j: int)
    requires ValidImportList(imports, list)
  {
    0 <= j < |list| && imports[list[j].name].revisions[list[j].at].phase.Imported?
  }

  /** `at` picks the completed positions of the list, in order, and the names are those there. */
  ghost predicate Names(imports: map<string, Import>, list: seq<Listed>, names: seq<string>, at: seq<nat>)
    requires ValidImportList(imports, list)
  {
    && |at| == |names|
    && (forall j, k :: 0 <= j < k < |at| ==> at[j] < at[k])
    && (forall j: nat :: FinishedAt(imports, list, j) <==> j in at)
    && (forall k :: 0 <= k < |at| ==> NameFrom(list, names[k], at[k]))
  }

  predicate NameFrom(list: seq<Listed>, name: string, j: nat) {
    j < |list| && name == list[j].name
  }

  /** The importers are exactly the completed imports of the list, each once, in list order. */
  lemma {:induction false} ImportersExactly(imports: map<string, Import>, list: seq<Listed>) returns (at: seq<nat>)
    requires ValidImportList(imports, list)
    ensures Names(imports, list, Importers(imports, list), at)
  {
    at := [];
    if |list| > 0 {
      at := ImportersExactly(imports, list[..|list| - 1]);
      at := OneMoreName(imports, list, Importers(imports, list[..|list| - 1]), at);
    }
  }

  lemma OneMoreName(imports: map<string, Import>, list: seq<Listed>, names: seq<string>, at: seq<nat>) returns (next: seq<nat>)
    requires ValidImportList(imports, list) && |list| > 0 && Names(imports, list[..|list| - 1], names, at)
    ensures var n := |list| - 1;
            Names(imports, list, if FinishedAt(imports, list, n) then names + [list[n].name] else names, next)
  {
    hide FinishedAt, NameFrom;
    var n, before := |list| - 1, list[..|list| - 1];
    FinishedOneMore(imports, list);
    next := if FinishedAt(imports, list, n) then at + [n] else at;
    forall k | 0 <= k < |at| ensures NameFrom(list, names[k], at[k]) && at[k] < n {
      NameLonger(list, names[k], at[k]);
    }
    LastName(list);
  }

  lemma NameLonger(list: seq<Listed>, name: string, j: nat)
    requires |list| > 0 && NameFrom(list[..|list| - 1], name, j)
    ensures NameFrom(list, name, j) && j < |list| - 1
  {
  }

  lemma LastName(list: seq<Listed>)
    requires |list| > 0
    ensures NameFrom(list, list[|list| - 1].name, |list| - 1)
  {
  }

  lemma FinishedOneMore(imports: map<string, Import>, list: seq<Listed>)
    requires ValidImportList(imports, list) && |list| > 0
    ensures ValidImportList(imports, list[..|list| - 1])
    ensures var n, before := |list| - 1, list[..|list| - 1];
            && (forall j: nat :: FinishedAt(imports, list, j) <==>
                  FinishedAt(imports, before, j) || (j == n && FinishedAt(imports, list, n)))
            && (forall j: nat :: FinishedAt(imports, before, j) ==> j < n)
  {
  }

  lemma {:induction false} ImportersStable(a: map<string, Import>, b: map<string, Import>, list: seq<Listed>)
    requires ImportsGrow(a, b) && ValidImportList(a, list)
    ensures ValidImportList(b, list) && Importers(a, list) == Importers(b, list)
  {
    if |list| > 0 {
      ImportersStable(a, b, list[..|list| - 1]);
      assert Last(list).name in a && a[Last(list).name].revisions <= b[Last(list).name].revisions;
    }
  }

  // ---------------------------------------------------------------- the aggregates of the platform

  /** The collection history that an aggregating write leaves: what was collected, or the old one when nothing was. */
  ghost predicate CollectionsOf(pipelines: map<string, Pipeline>, a: PlatformRevision, b: PlatformRevision) {
    b.event.Aggregated? ==>
      && ValidPipelineList(pipelines, b.event.list)
      && var collected := CollectVersions(pipelines, b.event.list, b.event.now);
         && b.collections == (if |collected| > 0 then collected else a.collections)
         && b.lastCollection == (if |collected| > 0 then Some(Last(collected)) else a.lastCollection)
  }

  /** The same of the import history. */
  ghost predicate ImportsOf(imports: map<string, Import>, a: PlatformRevision, b: PlatformRevision) {
    b.event.Aggregated? ==>
      && ValidImportList(imports, b.event.names) && b.event.importers == Importers(imports, b.event.names)
      && (forall k :: 0 <= k < |b.event.importers| ==> b.event.importers[k] in imports)
      && var infos := ImportInfos(imports, b.event.importers);
         && b.imports == (if |infos| > 0 then infos else a.imports)
         && b.lastImport == (if |infos| > 0 then Some(Last(infos)) else a.lastImport)
  }

  ghost predicate AggregateOf(store: Store, a: PlatformRevision, b: PlatformRevision) {
    CollectionsOf(store.pipelines, a, b) && ImportsOf(store.imports, a, b)
  }

  ghost predicate AggregatesOk(store: Store) {
    forall k {:trigger store.platform[k]} :: 0 < k < |store.platform| ==>
      AggregateOf(store, store.platform[k - 1], store.platform[k])
  }

  ghost predicate ListingOk(store: Store, proc: Proc) {
    proc.PlatformProc? && ProcValid(store, proc) ==>
      match proc.platformPc
      case AtPipelineList => true
      case AtImportList(collections, list, time) =>
        ValidPipelineList(store.pipelines, list) && collections == CollectVersions(store.pipelines, list, time)
      case PlatformWriting(w) => AggregateOf(store, store.platform[proc.at], w.platform)
  }

  ghost predicate SoundInv(s: State) {
    AggregatesOk(s.store) && forall p :: p in s.procs ==> ListingOk(s.store, s.procs[p])
  }

  lemma AggregateStable(a: Store, b: Store, x: PlatformRevision, y: PlatformRevision)
    requires Grows(a, b) && AggregateOf(a, x, y)
    ensures AggregateOf(b, x, y)
  {
    hide RunsGrow, VolumesGrow, CollectVersions, Importers, ValidPipelineList, ValidImportList;
    if y.event.Aggregated? {
      CollectedStable(a.pipelines, b.pipelines, y.event.list, y.event.now);
      ImportersStable(a.imports, b.imports, y.event.names);
      ImportInfosStable(a.imports, b.imports, y.event.importers);
    }
  }

  lemma ListingStable(a: Store, b: Store, proc: Proc)
    requires Grows(a, b) && (proc.PlatformProc? ==> ProcValid(a, proc)) && ListingOk(a, proc)
    ensures ListingOk(b, proc)
  {
    if proc.PlatformProc? {
      match proc.platformPc
      case AtPipelineList =>
      case AtImportList(_, list, time) => CollectedStable(a.pipelines, b.pipelines, list, time);
      case PlatformWriting(w) => AggregateStable(a, b, a.platform[proc.at], w.platform);
    }
  }

  lemma SoundRevisions(s: State, step: Step)
    requires Inv(s) && Applicable(s, step) && SoundInv(s) && Grows(s.store, Apply(s, step).store)
    ensures AggregatesOk(Apply(s, step).store)
  {
    hide ProcOk, StoreOk, Applicable, Apply, AggregateOf, Targets, Accepts;
    AggregateGrowth(s, step);
    var before, after := s.store, Apply(s, step).store;
    forall k {:trigger after.platform[k]} | 0 < k < |after.platform|
      ensures AggregateOf(after, after.platform[k - 1], after.platform[k])
    {
      if k < |before.platform| {
        assert after.platform[k] == before.platform[k] && after.platform[k - 1] == before.platform[k - 1];
        AggregateStable(before, after, before.platform[k - 1], before.platform[k]);
      } else if after.platform[k].event.Aggregated? {
        var proc := s.procs[step.id];
        WritingSound(s, step.id);
        AggregateStable(before, after, before.platform[k - 1], after.platform[k]);
      } else {
        NotAggregate(after, after.platform[k - 1], after.platform[k]);
      }
    }
  }

  lemma NotAggregate(store: Store, a: PlatformRevision, b: PlatformRevision)
    requires !b.event.Aggregated?
    ensures AggregateOf(store, a, b)
  {
  }

  lemma WritingSound(s: State, p: nat)
    requires ProcsOk(s) && SoundInv(s) && p in s.procs && s.procs[p].PlatformProc? && s.procs[p].platformPc.PlatformWriting?
    requires s.procs[p].at < |s.store.platform| && s.procs[p].platformPc.write.WritePlatform?
    ensures AggregateOf(s.store, s.store.platform[s.procs[p].at], s.procs[p].platformPc.write.platform)
  {
    hide AggregateOf, AggregatesOk, WriteOk;
    assert ProcOk(s.store, s.procs[p]) && ListingOk(s.store, s.procs[p]);
  }

  lemma ActingListing(s: State, step: Step)
    requires Inv(s) && Applicable(s, step) && SoundInv(s) && !Environment(step)
    ensures var next := Apply(s, step);
            step.id in next.procs ==>
              ListingOk(s.store, next.procs[step.id])
              && (next.procs[step.id].PlatformProc? ==> ProcValid(s.store, next.procs[step.id]))
  {
    hide StoreOk, ProcOk, PipelineStep, ImportStep, Importers, CollectVersions, AggregatesOk, ImportInfos, PipelineApplies, ImportApplies;
    if !Begins(step) && !step.Stop? {
      assert ListingOk(s.store, s.procs[step.id]);
      if !s.procs[step.id].PlatformProc? { NotAnAggregator(s, step); }
      else if step.ListImports? { ImportersKnown(s.store.imports, step.list); }
    }
  }

  lemma ListingKnown(s: State, p: nat)
    requires ProcsOk(s) && SoundInv(s) && p in s.procs
    ensures ProcValid(s.store, s.procs[p]) && ListingOk(s.store, s.procs[p])
  {
    hide ListingOk, AggregatesOk;
    assert ProcOk(s.store, s.procs[p]);
  }

  lemma SoundStep(m: Mode, s: State, step: Step)
    requires Inv(s) && Takes(m, s, step) && SoundInv(s)
    ensures SoundInv(Apply(s, step))
  {
    hide ProcOk, StoreOk, Applicable, Admits, ListingOk, AggregatesOk, ProcStep, EnvironmentStep, Start, Grows, ProcValid;
    StepKeeps(m, s, step);
    SoundRevisions(s, step);
    var next := Apply(s, step);
    forall p | p in next.procs ensures ListingOk(next.store, next.procs[p]) {
      if !Environment(step) && p == step.id { ActingListing(s, step); }
      else { ListingKnown(s, p); }
      ListingStable(s.store, next.store, next.procs[p]);
    }
  }

  lemma {:induction false} ReachableSound(m: Mode, steps: seq<Step>, j: nat)
    requires IsRun(m, INITIAL, steps) && j <= |steps|
    ensures SoundInv(StateAt(m, INITIAL, steps, j))
  {
    hide Inv, Applicable, Admits, Apply, IsRun, After;
    if j > 0 {
      hide SoundInv, StateAt;
      ReachableSound(m, steps, j - 1);
      StateAtReachable(m, steps, j - 1);
      StateAtStep(m, INITIAL, steps, j - 1);
      SoundStep(m, StateAt(m, INITIAL, steps, j - 1), steps[j - 1]);
    }
  }

  /** Every aggregating revision of a reachable platform leaves exactly one entry for each complete versioned pipeline of
      its list, in list order, whatever had been appended before, and LastCollection the last of them; only when there is
      none does the history stay as it was. */
  lemma AggregateExactly(m: Mode, s: State, k: nat) returns (at: seq<nat>)
    requires Reachable(m, s) && k < |s.store.platform| && s.store.platform[k].event.Aggregated?
    ensures k > 0 && ValidPipelineList(s.store.pipelines, s.store.platform[k].event.list)
    ensures var r, before := s.store.platform[k], s.store.platform[k - 1];
            var history := if |at| > 0 then r.collections else [];
            && Lists(s.store.pipelines, r.event.list, r.event.now, history, at)
            && (if |at| > 0 then r.lastCollection == Some(Last(r.collections))
                else r.collections == before.collections && r.lastCollection == before.lastCollection)
  {
    hide Inv, SoundInv, Applicable, Admits, Apply, IsRun, After, StateAt, Lists;
    var steps :| IsRun(m, INITIAL, steps) && After(m, INITIAL, steps) == s;
    ReachableSound(m, steps, |steps|);
    StateAtEnd(m, INITIAL, steps);
    FirstIsBorn(m, s);
    AggregateAt(s, k);
    at := CollectedExactly(s.store.pipelines, s.store.platform[k].event.list, s.store.platform[k].event.now);
    AsMany(s.store.pipelines, s.store.platform[k].event.list, s.store.platform[k].event.now, at);
  }

  /** `at` picks the completed positions of the list, in order, and the history has their versions and creation times. */
  ghost predicate ListsImports(imports: map<string, Import>, list: seq<Listed>, history: seq<Info>, at: seq<nat>)
    requires ValidImportList(imports, list)
  {
    && |at| == |history|
    && (forall j, k :: 0 <= j < k < |at| ==> at[j] < at[k])
    && (forall j: nat :: FinishedAt(imports, list, j) <==> j in at)
    && (forall k :: 0 <= k < |at| ==>
          at[k] < |list| &&
          var i := list[at[k]].name;
          history[k] == Info(if imports[i].spec.collectionVersion != "" then imports[i].spec.collectionVersion else i,
                             imports[i].spec.created))
  }

  /** The same for the import history: one entry for each complete import of the list, under its version or else its name,
      with its creation time, and LastImport the last of them; only when there is none does the history stay as it was. */
  lemma AggregateImportsExactly(m: Mode, s: State, k: nat) returns (at: seq<nat>)
    requires Reachable(m, s) && k < |s.store.platform| && s.store.platform[k].event.Aggregated?
    ensures k > 0 && ValidImportList(s.store.imports, s.store.platform[k].event.names)
    ensures var r, before := s.store.platform[k], s.store.platform[k - 1];
            var history := if |at| > 0 then r.imports else [];
            && ListsImports(s.store.imports, r.event.names, history, at)
            && (if |at| > 0 then r.lastImport == Some(Last(r.imports))
                else r.imports == before.imports && r.lastImport == before.lastImport)
  {
    hide Inv, SoundInv, Applicable, Admits, Apply, IsRun, After, StateAt, Importers, FinishedAt, CollectionsOf;
    var steps :| IsRun(m, INITIAL, steps) && After(m, INITIAL, steps) == s;
    ReachableSound(m, steps, |steps|);
    StateAtEnd(m, INITIAL, steps);
    FirstIsBorn(m, s);
    AggregateAt(s, k);
    at := ImportersExactly(s.store.imports, s.store.platform[k].event.names);
  }

  lemma FirstIsBorn(m: Mode, s: State)
    requires Reachable(m, s) && |s.store.platform| > 0
    ensures s.store.platform[0].event.Born?
  {
    hide Reachable, ProcsOk, PipelineOk, ImportOk, VolumeOk;
    ReachableInv(m, s);
  }

  lemma AggregateAt(s: State, k: nat)
    requires SoundInv(s) && 0 < k < |s.store.platform|
    ensures AggregateOf(s.store, s.store.platform[k - 1], s.store.platform[k])
  {
    hide AggregateOf, ListingOk;
  }

  lemma AsMany(pipelines: map<string, Pipeline>, list: seq<Listed>, now: nat, at: seq<nat>)
    requires ValidPipelineList(pipelines, list) && Lists(pipelines, list, now, CollectVersions(pipelines, list, now), at)
    ensures |at| == |CollectVersions(pipelines, list, now)|
    ensures |at| == 0 ==> CollectVersions(pipelines, list, now) == []
  {
  }

  // ---------------------------------------------------------------- with current reads the list misses nothing

  /** The list call failed, or some state up to step `j` had exactly these pipelines, at these revisions. */
  ghost predicate TakenBefore(m: Mode, steps: seq<Step>, j: nat, list: seq<Listed>)
    requires IsRun(m, INITIAL, steps) && j <= |steps|
  {
    list == [] || exists i: nat :: i <= j && ListsAllPipelines(StateAt(m, INITIAL, steps, i).store, list)
  }

  /** The same of the imports. */
  ghost predicate ImportsTakenBefore(m: Mode, steps: seq<Step>, j: nat, names: seq<Listed>)
    requires IsRun(m, INITIAL, steps) && j <= |steps|
  {
    names == [] || exists i: nat :: i <= j && ListsAllImports(StateAt(m, INITIAL, steps, i).store, names)
  }

  ghost predicate BothTaken(m: Mode, steps: seq<Step>, j: nat, event: PlatformEvent)
    requires IsRun(m, INITIAL, steps) && j <= |steps|
  {
    event.Aggregated? ==> TakenBefore(m, steps, j, event.list) && ImportsTakenBefore(m, steps, j, event.names)
  }

  ghost predicate ProcTaken(m: Mode, steps: seq<Step>, j: nat, proc: Proc)
    requires IsRun(m, INITIAL, steps) && j <= |steps|
  {
    proc.PlatformProc? ==>
      match proc.platformPc
      case AtPipelineList => true
      case AtImportList(_, list, _) => TakenBefore(m, steps, j, list)
      case PlatformWriting(w) =>
        w.WritePlatform? ==> BothTaken(m, steps, j, w.platform.event)
  }

  ghost predicate WholeInv(m: Mode, steps: seq<Step>, j: nat)
    requires IsRun(m, INITIAL, steps) && j <= |steps|
  {
    var s := StateAt(m, INITIAL, steps, j);
    && (forall k :: 0 <= k < |s.store.platform| ==> BothTaken(m, steps, j, s.store.platform[k].event))
    && (forall p :: p in s.procs ==> ProcTaken(m, steps, j, s.procs[p]))
  }

  lemma TakenLater(m: Mode, steps: seq<Step>, i: nat, j: nat, event: PlatformEvent)
    requires IsRun(m, INITIAL, steps) && i <= j <= |steps| && BothTaken(m, steps, i, event)
    ensures BothTaken(m, steps, j, event)
  {
  }

  lemma ProcTakenLater(m: Mode, steps: seq<Step>, i: nat, j: nat, proc: Proc)
    requires IsRun(m, INITIAL, steps) && i <= j <= |steps| && ProcTaken(m, steps, i, proc)
    ensures ProcTaken(m, steps, j, proc)
  {
  }

  /** What an acting platform reconcile knows comes from the listing step itself. */
  lemma ActingTaken(m: Mode, steps: seq<Step>, j: nat, s: State, step: Step)
    requires IsRun(m, INITIAL, steps) && j < |steps| && s == StateAt(m, INITIAL, steps, j) && step == steps[j]
    requires m.view == CurrentReads && Takes(m, s, step) && !Environment(step)
    requires step.id in s.procs ==> ProcTaken(m, steps, j, s.procs[step.id])
    ensures var next := Apply(s, step); step.id in next.procs ==> ProcTaken(m, steps, j, next.procs[step.id])
  {
    hide PipelineStep, ImportStep, Importers, CollectVersions, ImportInfos, PipelineApplies, ImportApplies, IsRun, After,
         StateAt, ListsAllPipelines, ListsAllImports, ValidPipelineList, ValidImportList;
    if !Begins(step) && !step.Stop? {
      if !s.procs[step.id].PlatformProc? { NotAnAggregator(s, step); }
      if step.ListPipelines? { assert TakenBefore(m, steps, j, step.list); }
      if step.ListImports? { assert ImportsTakenBefore(m, steps, j, step.list); }
    }
  }

  lemma {:induction false} ReachableWhole(m: Mode, steps: seq<Step>, j: nat)
    requires IsRun(m, INITIAL, steps) && j <= |steps| && m.view == CurrentReads
    ensures WholeInv(m, steps, j)
  {
    hide Inv, Applicable, Admits, Apply, IsRun, After, BothTaken, ProcTaken;
    if j > 0 {
      hide StateAt;
      ReachableWhole(m, steps, j - 1);
      StateAtReachable(m, steps, j - 1);
      StateAtStep(m, INITIAL, steps, j - 1);
      WholeStep(m, steps, j - 1, StateAt(m, INITIAL, steps, j - 1));
    }
  }

  lemma WholeStep(m: Mode, steps: seq<Step>, j: nat, s: State)
    requires IsRun(m, INITIAL, steps) && j < |steps| && m.view == CurrentReads && s == StateAt(m, INITIAL, steps, j)
    requires Inv(s) && Takes(m, s, steps[j]) && StateAt(m, INITIAL, steps, j + 1) == Apply(s, steps[j])
    requires WholeInv(m, steps, j)
    ensures WholeInv(m, steps, j + 1)
  {
    hide Inv, Admits, IsRun, After, BothTaken, ProcTaken, StateAt, ProcStep, EnvironmentStep, Start, Applicable;
    var step, next := steps[j], Apply(s, steps[j]);
    AggregateGrowth(s, step);
    forall k | 0 <= k < |next.store.platform| ensures BothTaken(m, steps, j + 1, next.store.platform[k].event) {
      if k < |s.store.platform| {
        assert next.store.platform[k] == s.store.platform[k];
      } else if next.store.platform[k].event.Aggregated? {
        WritingTaken(m, steps, j, s.procs[step.id]);
      } else {
        NothingTaken(m, steps, j, next.store.platform[k].event);
      }
      TakenLater(m, steps, j, j + 1, next.store.platform[k].event);
    }
    forall p | p in next.procs ensures ProcTaken(m, steps, j + 1, next.procs[p]) {
      if !Environment(step) && p == step.id { ActingTaken(m, steps, j, s, step); }
      ProcTakenLater(m, steps, j, j + 1, next.procs[p]);
    }
  }

  lemma NothingTaken(m: Mode, steps: seq<Step>, j: nat, event: PlatformEvent)
    requires IsRun(m, INITIAL, steps) && j <= |steps| && !event.Aggregated?
    ensures BothTaken(m, steps, j, event)
  {
  }

  lemma WritingTaken(m: Mode, steps: seq<Step>, j: nat, proc: Proc)
    requires IsRun(m, INITIAL, steps) && j <= |steps| && ProcTaken(m, steps, j, proc)
    requires proc.PlatformProc? && proc.platformPc.PlatformWriting? && proc.platformPc.write.WritePlatform?
    ensures BothTaken(m, steps, j, proc.platformPc.write.platform.event)
  {
  }

  /** With current reads the two lists of an aggregating revision are all the pipelines there were at one moment of the
      run, each at its revision of that moment, and all the imports at another, or empty, when they could not be had. */
  lemma AggregateListsAll(m: Mode, steps: seq<Step>, k: nat) returns (i: nat, j: nat)
    requires IsRun(m, INITIAL, steps) && m.view == CurrentReads
    requires var s := After(m, INITIAL, steps); k < |s.store.platform| && s.store.platform[k].event.Aggregated?
    ensures i <= |steps| && j <= |steps|
    ensures var event := After(m, INITIAL, steps).store.platform[k].event;
            && (event.list == [] || ListsAllPipelines(StateAt(m, INITIAL, steps, i).store, event.list))
            && (event.names == [] || ListsAllImports(StateAt(m, INITIAL, steps, j).store, event.names))
  {
    hide Apply, IsRun, After, StateAt, ListsAllPipelines, ListsAllImports;
    ReachableWhole(m, steps, |steps|);
    StateAtEnd(m, INITIAL, steps);
    var event := After(m, INITIAL, steps).store.platform[k].event;
    assert BothTaken(m, steps, |steps|, event);
    i, j := 0, 0;
    if event.list != [] { i :| i <= |steps| && ListsAllPipelines(StateAt(m, INITIAL, steps, i).store, event.list); }
    if event.names != [] { j :| j <= |steps| && ListsAllImports(StateAt(m, INITIAL, steps, j).store, event.names); }
  }
}
