/** When an import can still complete: the runs of the system that complete one, and what rules them out. */
module Completion {
  import opened Objects
  import opened Reconcilers
  import opened Protocol
  import opened Invariants
  import opened Preservation
  import opened Lifecycle
  import opened ImportHistory
  import opened Runs
  import opened VersionChecks
  import opened ApiServer

  /** The state with this import at these revisions, these runs, and the one reconcile if any. */
  function At(s: State, name: string, revisions: seq<ImportStatus>, runs: map<string, Run>, proc: Option<Proc>): State
    requires name in s.store.imports
  {
    State(s.store.(imports := s.store.imports[name := s.store.imports[name].(revisions := revisions)], runs := runs),
          match proc case None => map[] case Some(p) => map[0 := p])
  }

  function Revisions(s: State, name: string): seq<ImportStatus>
    requires name in s.store.imports
  {
    s.store.imports[name].revisions
  }

  function Going(run: string): ImportStatus {
    ImportStatus(Importing, run)
  }

  function Done(name: string, run: string, done: bool): Run {
    Run(OfImport(name), "", if done then Completed(true) else Waiting, false)
  }

  /** No reconcile is at work, and the import has revisions, the last of them this one. */
  predicate Resting(s: State, name: string, last: ImportStatus) {
    s.procs == map[] && name in s.store.imports && |Revisions(s, name)| > 0 && Last(Revisions(s, name)) == last
  }

  /** Some run leads from one state to the other. */
  ghost predicate Leads(m: Mode, o: State, t: State) {
    exists steps: seq<Step> :: IsRun(m, o, steps) && After(m, o, steps) == t
  }

  lemma Here(m: Mode, s: State)
    ensures Leads(m, s, s)
  {
    assert IsRun(m, s, []) && After(m, s, []) == s;
  }

  lemma StepLeads(m: Mode, o: State, s: State, step: Step)
    requires Leads(m, o, s) && Takes(m, s, step)
    ensures Leads(m, o, Apply(s, step))
  {
    hide Takes, Apply, IsRun, After;
    var steps :| IsRun(m, o, steps) && After(m, o, steps) == s;
    RunExtended(m, o, steps, step);
    assert IsRun(m, o, steps + [step]);
  }

  lemma Call(m: Mode, o: State, s: State, step: Step, t: State)
    requires Leads(m, o, s) && 0 in s.procs && s.procs[0].ImportProc? && ProcValid(s.store, s.procs[0])
    requires !Environment(step) && !Begins(step) && !step.Stop? && step.id == 0
    requires ImportApplies(s.store, s.procs[0], step)
    requires Applicable(s, step) ==> Admits(m, s, step)
    requires var o := ImportStep(s.store, s.procs[0], step); t == State(o.store, Place(s.procs, 0, o.proc))
    ensures Leads(m, o, t)
  {
    hide Leads, Apply, Applicable, Admits, ImportStep, ImportApplies;
    ImportTaken(s, 0, step);
    StepLeads(m, o, s, step);
  }

  lemma Begin(m: Mode, o: State, s: State, name: string, revisions: seq<ImportStatus>, runs: map<string, Run>)
    requires name in s.store.imports && |revisions| > 0 && Leads(m, o, At(s, name, revisions, runs, None))
    ensures var at := |revisions| - 1;
            var pc := OnImportRead(name, s.store.imports[name].spec, at, revisions[at]);
            pc.Some? ==> Leads(m, o, At(s, name, revisions, runs, Some(ImportProc(name, at, pc.value))))
  {
    hide Leads, OnImportRead, EnvironmentApplies, ProcStep;
    StepLeads(m, o, At(s, name, revisions, runs, None), BeginImport(0, name, |revisions| - 1));
  }

  /** An accepted update of the import. */
  lemma Save(m: Mode, o: State, s: State, name: string, revisions: seq<ImportStatus>, runs: map<string, Run>, status: ImportStatus,
             next: ImportNext)
    requires name in s.store.imports && |revisions| > 0
    requires Leads(m, o, At(s, name, revisions, runs,
                             Some(ImportProc(name, |revisions| - 1, ImportWriting(WriteImport(name, |revisions| - 1, status), next)))))
    ensures Leads(m, o, At(s, name, revisions + [status], runs,
                            if next.ThenEnd? then None else Some(ImportProc(name, |revisions|, AtAppend))))
  {
    hide Leads;
    var proc := ImportProc(name, |revisions| - 1, ImportWriting(WriteImport(name, |revisions| - 1, status), next));
    var before := At(s, name, revisions, runs, Some(proc));
    var after := At(s, name, revisions + [status], runs, if next.ThenEnd? then None else Some(ImportProc(name, |revisions|, AtAppend)));
    var i := s.store.imports[name];
    assert s.store.imports[name := i.(revisions := revisions)][name := i.(revisions := revisions + [status])]
           == s.store.imports[name := i.(revisions := revisions + [status])];
    assert AppendImport(before.store, name, status) == after.store;
    Call(m, o, before, Commit(0), after);
  }

  lemma Unmoved(s: State, name: string)
    requires name in s.store.imports && s.procs == map[]
    ensures At(s, name, Revisions(s, name), s.store.runs, None) == s
  {
    assert s.store.imports[name := s.store.imports[name]] == s.store.imports;
  }

  // ---------------------------------------------------------------- the steps of an import

  /** Nothing stops the import from starting: it names no version, or there is no platform, or its version is not listed. */
  ghost predicate MayStart(s: State, name: string)
    requires name in s.store.imports
  {
    var version := s.store.imports[name].spec.collectionVersion;
    version == "" || |s.store.platform| == 0 || !VersionListed(Last(s.store.platform).imports, version)
  }

  lemma Passed(m: Mode, o: State, s: State, name: string, last: ImportStatus)
    requires Leads(m, o, s) && Resting(s, name, last) && last.phase.NotStarted? && MayStart(s, name)
    ensures Leads(m, o, At(s, name, Revisions(s, name) + [last.(phase := Importing)], s.store.runs, None))
  {
    hide Leads, VersionListed;
    Unmoved(s, name);
    var r, runs := Revisions(s, name), s.store.runs;
    Begin(m, o, s, name, r, runs);
    var write := ImportWriting(WriteImport(name, |r| - 1, last.(phase := Importing)), ThenEnd);
    if s.store.imports[name].spec.collectionVersion != "" {
      var found := if |s.store.platform| == 0 then None else Some(|s.store.platform| - 1);
      Call(m, o, At(s, name, r, runs, Some(ImportProc(name, |r| - 1, AtVersionCheck))), ReadPlatform(0, found, 0),
           At(s, name, r, runs, Some(ImportProc(name, |r| - 1, write))));
    }
    Save(m, o, s, name, r, runs, last.(phase := Importing), ThenEnd);
  }

  /** A run that is gone is dropped from the import. */
  lemma Dereferenced(m: Mode, o: State, s: State, name: string, run: string)
    requires Leads(m, o, s) && Resting(s, name, Going(run)) && run != ""
    requires run in s.store.runs ==> s.store.runs[run].deleted
    ensures Leads(m, o, At(s, name, Revisions(s, name) + [Going("")], s.store.runs, None))
  {
    hide Leads;
    Unmoved(s, name);
    var r, runs := Revisions(s, name), s.store.runs;
    Begin(m, o, s, name, r, runs);
    var write := ImportWriting(WriteImport(name, |r| - 1, Going("")), ThenEnd);
    Call(m, o, At(s, name, r, runs, Some(ImportProc(name, |r| - 1, AtImportRun))), TrackRun(0, None),
         At(s, name, r, runs, Some(ImportProc(name, |r| - 1, write))));
    Save(m, o, s, name, r, runs, Going(""), ThenEnd);
  }

  lemma Deleted(m: Mode, o: State, s: State, run: string)
    requires Leads(m, o, s) && run in s.store.runs
    ensures Leads(m, o, s.(store := MarkDeleted(s.store, run)))
  {
    hide Leads, ProcStep, PipelineApplies, ImportApplies, PlatformApplies, Start;
    StepLeads(m, o, s, DeleteRun(run));
  }

  /** No run has this name yet. */
  predicate Unused(s: State, run: string) {
    run !in s.store.runs && run != ""
  }

  lemma RunCreated(m: Mode, o: State, s: State, name: string, run: string)
    requires Leads(m, o, s) && Resting(s, name, Going("")) && Unused(s, run)
    ensures var r := Revisions(s, name);
            Leads(m, o, At(s, name, r, s.store.runs[run := Done(name, run, false)],
                           Some(ImportProc(name, |r| - 1, AtImportAdopt(run)))))
  {
    hide Leads;
    Unmoved(s, name);
    var r, runs := Revisions(s, name), s.store.runs[run := Done(name, run, false)];
    Begin(m, o, s, name, r, s.store.runs);
    Call(m, o, At(s, name, r, s.store.runs, Some(ImportProc(name, |r| - 1, AtImportCreate))), CreateRun(0, run),
         At(s, name, r, runs, Some(ImportProc(name, |r| - 1, AtImportAdopt(run)))));
  }

  lemma RunAdded(m: Mode, o: State, s: State, name: string, run: string)
    requires Leads(m, o, s) && Resting(s, name, Going("")) && Unused(s, run)
    ensures Leads(m, o, At(s, name, Revisions(s, name) + [Going(run)], s.store.runs[run := Done(name, run, false)], None))
  {
    hide Leads;
    RunCreated(m, o, s, name, run);
    var r, runs := Revisions(s, name), s.store.runs[run := Done(name, run, false)];
    var write := ImportWriting(WriteImport(name, |r| - 1, Going(run)), ThenEnd);
    Call(m, o, At(s, name, r, runs, Some(ImportProc(name, |r| - 1, AtImportAdopt(run)))), ReadLatest(0, |r| - 1),
         At(s, name, r, runs, Some(ImportProc(name, |r| - 1, write))));
    Save(m, o, s, name, r, runs, Going(run), ThenEnd);
  }

  lemma RunFinished(m: Mode, o: State, s: State, name: string, run: string)
    requires Leads(m, o, s) && Resting(s, name, Going("")) && Unused(s, run)
    ensures Leads(m, o, At(s, name, Revisions(s, name) + [Going(run)], s.store.runs[run := Done(name, run, true)], None))
  {
    hide Leads, ProcStep, ImportApplies, PipelineApplies, PlatformApplies;
    RunAdded(m, o, s, name, run);
    var r, runs := Revisions(s, name) + [Going(run)], s.store.runs[run := Done(name, run, false)];
    assert runs[run := Done(name, run, true)] == s.store.runs[run := Done(name, run, true)];
    StepLeads(m, o, At(s, name, r, runs, None), AdvanceRun(run, Completed(true)));
  }

  lemma Published(m: Mode, o: State, s: State, name: string, run: string)
    requires Leads(m, o, s) && Resting(s, name, Going("")) && Unused(s, run)
    ensures Leads(m, o, At(s, name, Revisions(s, name) + [Going(run)] + [ImportStatus(Publishing, run)],
                           s.store.runs[run := Done(name, run, true)], None))
  {
    hide Leads;
    RunFinished(m, o, s, name, run);
    var r, runs := Revisions(s, name) + [Going(run)], s.store.runs[run := Done(name, run, true)];
    Begin(m, o, s, name, r, runs);
    var write := ImportWriting(WriteImport(name, |r| - 1, ImportStatus(Publishing, run)), ThenEnd);
    Call(m, o, At(s, name, r, runs, Some(ImportProc(name, |r| - 1, AtImportRun))), TrackRun(0, Some(Completed(true))),
         At(s, name, r, runs, Some(ImportProc(name, |r| - 1, write))));
    Save(m, o, s, name, r, runs, ImportStatus(Publishing, run), ThenEnd);
  }

  /** The import is completed; what is left is its entry in the history. */
  lemma Finalized(m: Mode, o: State, s: State, name: string, last: ImportStatus)
    requires Leads(m, o, s) && Resting(s, name, last) && last.phase.Publishing?
    ensures var r := Revisions(s, name);
            Leads(m, o, At(s, name, r + [last.(phase := Imported)], s.store.runs, Some(ImportProc(name, |r|, AtAppend))))
  {
    hide Leads;
    Unmoved(s, name);
    Begin(m, o, s, name, Revisions(s, name), s.store.runs);
    Save(m, o, s, name, Revisions(s, name), s.store.runs, last.(phase := Imported), ThenAppend);
  }

  // ---------------------------------------------------------------- from any phase but failed

  ghost predicate CanComplete(m: Mode, s: State, name: string) {
    exists t :: Leads(m, s, t) && EverImported(t.store.imports, name)
  }

  lemma FromPublishing(m: Mode, o: State, s: State, name: string, last: ImportStatus)
    requires Leads(m, o, s) && Resting(s, name, last) && last.phase.Publishing?
    ensures CanComplete(m, o, name)
  {
    hide Leads;
    Finalized(m, o, s, name, last);
    var r := Revisions(s, name);
    var t := At(s, name, r + [last.(phase := Imported)], s.store.runs, Some(ImportProc(name, |r|, AtAppend)));
    assert Revisions(t, name)[|r|].phase.Imported?;
  }

  lemma FromUnreferenced(m: Mode, o: State, s: State, name: string)
    requires Leads(m, o, s) && Resting(s, name, Going(""))
    ensures CanComplete(m, o, name)
  {
    hide Leads, CanComplete;
    var run := Fresh(s.store.runs.Keys, "r");
    Published(m, o, s, name, run);
    var t := At(s, name, Revisions(s, name) + [Going(run)] + [ImportStatus(Publishing, run)],
                s.store.runs[run := Done(name, run, true)], None);
    FromPublishing(m, o, t, name, ImportStatus(Publishing, run));
  }

  lemma Fresh(names: set<string>, candidate: string) returns (name: string)
    requires candidate != ""
    ensures name !in names && |name| >= |candidate|
    decreases |names|
  {
    if candidate in names { name := Fresh(names - {candidate}, candidate + "x"); } else { name := candidate; }
  }

  lemma FromImporting(m: Mode, o: State, s: State, name: string, last: ImportStatus)
    requires Leads(m, o, s) && Resting(s, name, last) && last.phase.Importing?
    ensures CanComplete(m, o, name)
  {
    hide Leads, CanComplete;
    if last.runRef == "" {
      FromUnreferenced(m, o, s, name);
    } else {
      var t := if last.runRef in s.store.runs then s.(store := MarkDeleted(s.store, last.runRef)) else s;
      if last.runRef in s.store.runs { Deleted(m, o, s, last.runRef); }
      Dereferenced(m, o, t, name, last.runRef);
      FromUnreferenced(m, o, At(t, name, Revisions(t, name) + [Going("")], t.store.runs, None), name);
    }
  }

  lemma FromStart(m: Mode, o: State, s: State, name: string, last: ImportStatus)
    requires Leads(m, o, s) && Resting(s, name, last) && last.phase.NotStarted? && MayStart(s, name)
    ensures CanComplete(m, o, name)
  {
    hide Leads, CanComplete, MayStart;
    Passed(m, o, s, name, last);
    FromImporting(m, o, At(s, name, Revisions(s, name) + [last.(phase := Importing)], s.store.runs, None), name, last.(phase := Importing));
  }

  // ---------------------------------------------------------------- reconciles in flight

  ghost predicate AllValid(s: State) {
    forall p :: p in s.procs ==> ProcValid(s.store, s.procs[p])
  }

  /** All reconciles may stop. */
  lemma {:induction false} Quieted(m: Mode, o: State, s: State)
    requires Leads(m, o, s) && AllValid(s)
    ensures Leads(m, o, State(s.store, map[]))
    decreases |s.procs|
  {
    hide Leads, ProcValid;
    if p :| p in s.procs {
      OneStops(m, o, s, p);
      Quieted(m, o, State(s.store, s.procs - {p}));
    } else {
      assert s.procs == map[];
    }
  }

  lemma OneStops(m: Mode, o: State, s: State, p: nat)
    requires Leads(m, o, s) && p in s.procs && ProcValid(s.store, s.procs[p])
    ensures Leads(m, o, State(s.store, s.procs - {p}))
  {
    hide Leads, ProcValid, PipelineApplies, ImportApplies, PlatformApplies;
    StepLeads(m, o, s, Stop(p));
  }

  lemma AllProcsValid(m: Mode, s: State)
    requires Reachable(m, s)
    ensures AllValid(s) && Inv(s)
  {
    hide Reachable, StoreOk;
    ReachableInv(m, s);
    forall p | p in s.procs ensures ProcValid(s.store, s.procs[p]) { assert ProcOk(s.store, s.procs[p]); }
  }

  /** The reconcile has passed the version check, and its write is one the server accepts. */
  predicate Starts(store: Store, proc: Proc, name: string)
    requires name in store.imports
  {
    && proc.ImportProc? && proc.name == name && proc.importPc.ImportWriting?
    && proc.importPc.write.WriteImport? && proc.importPc.write.name == name && proc.importPc.write.status.phase.Importing?
    && proc.importPc.write.base + 1 == |store.imports[name].revisions|
  }

  ghost predicate Starting(s: State, name: string)
    requires name in s.store.imports
  {
    exists p :: p in s.procs && Starts(s.store, s.procs[p], name)
  }

  lemma StartCommitted(s: State, name: string, p: nat)
    requires name in s.store.imports && p in s.procs && Starts(s.store, s.procs[p], name) && ProcValid(s.store, s.procs[p])
    ensures Applicable(s, Commit(p))
    ensures var t := Apply(s, Commit(p));
            && name in t.store.imports && |Revisions(t, name)| > 0 && Last(Revisions(t, name)).phase.Importing?
  {
    hide Applicable, Apply;
    ImportTaken(s, p, Commit(p));
  }

  lemma FromStarting(m: Mode, s: State, name: string)
    requires Reachable(m, s) && name in s.store.imports && Starting(s, name)
    ensures CanComplete(m, s, name)
  {
    hide Reachable, Leads, CanComplete, Starts, Inv, Applicable, Apply, ProcValid, Grows;
    AllProcsValid(m, s);
    var p :| p in s.procs && Starts(s.store, s.procs[p], name);
    StartCommitted(s, name, p);
    var t := Committed(m, s, p);
    FromImporting(m, s, State(t.store, map[]), name, Last(Revisions(t, name)));
  }

  /** A prepared write is issued, and then all reconciles stop. */
  lemma Committed(m: Mode, s: State, p: nat) returns (t: State)
    requires Reachable(m, s) && Applicable(s, Commit(p))
    ensures t == Apply(s, Commit(p)) && Leads(m, s, State(t.store, map[]))
  {
    hide Reachable, Leads, AllValid, Applicable, Apply, Inv, Grows;
    t := Apply(s, Commit(p));
    Here(m, s);
    StepLeads(m, s, s, Commit(p));
    StepReached(m, s, Commit(p));
    AllProcsValid(m, t);
    Quieted(m, s, t);
  }

  // ---------------------------------------------------------------- versions that can still be removed

  lemma RemovalCommitted(s: State, version: string, p: nat)
    requires p in s.procs && RemovesVersion(s.store, s.procs[p], version) && ProcValid(s.store, s.procs[p])
    ensures Applicable(s, Commit(p))
    ensures var t := Apply(s, Commit(p));
            && t.store.imports == s.store.imports && |t.store.platform| > 0
            && !VersionListed(Last(t.store.platform).imports, version)
  {
    hide Applicable, Apply, VersionListed;
    PlatformTaken(s, p, Commit(p));
  }

  /** An aggregation with full lists leaves exactly the completed imports. */
  lemma Unlisted(m: Mode, o: State, s: State, version: string) returns (t: State)
    requires Leads(m, o, s) && s.procs == map[] && StoreOk(s.store) && |s.store.platform| > 0
    requires VersionListed(Last(s.store.platform).imports, version) && !Aggregable(s.store.imports, version)
    ensures Leads(m, o, t) && t.procs == map[] && t.store.imports == s.store.imports && |t.store.platform| > 0
    ensures !VersionListed(Last(t.store.platform).imports, version)
  {
    hide Leads, StoreOk, Aggregable, VersionListed, Importers, ImportInfos, ListsAllImports, ValidImportList;
    var list := AllImports(s.store);
    ImportersKnown(s.store.imports, list);
    var importers, at := Importers(s.store.imports, list), |s.store.platform| - 1;
    var r := AggregatedRevision(Last(s.store.platform), [], ImportInfos(s.store.imports, importers), importers, [], 0, list);
    Aggregation(m, o, s, list, r);
    t := State(s.store.(platform := s.store.platform + [r]), map[]);
    NotAggregated(s.store, list, version);
  }

  lemma AllImports(store: Store) returns (list: seq<Listed>)
    requires StoreOk(store)
    ensures ValidImportList(store.imports, list) && ListsAllImports(store, list)
  {
    hide VolumeOk, PipelineOk, PlatformOk;
    var names := Ordering(store.imports.Keys);
    assert forall n :: n in store.imports ==> ImportOk(store.runs, store.imports[n]);
    assert forall k :: 0 <= k < |names| ==> names[k] in names;
    list := seq(|names|, k requires 0 <= k < |names| => Listed(names[k], |store.imports[names[k]].revisions| - 1));
    forall n | n in store.imports ensures exists k :: 0 <= k < |list| && list[k].name == n {
      var k :| 0 <= k < |names| && names[k] == n;
      assert list[k].name == n;
    }
  }

  lemma {:induction false} Ordering(names: set<string>) returns (order: seq<string>)
    ensures forall n :: n in order <==> n in names
    ensures forall j, k :: 0 <= j < k < |order| ==> order[j] != order[k]
    decreases |names|
  {
    order := [];
    if n :| n in names {
      var rest := Ordering(names - {n});
      assert n !in rest;
      order := rest + [n];
    }
  }

  lemma CallPlatform(m: Mode, o: State, s: State, step: Step, t: State)
    requires Leads(m, o, s) && 0 in s.procs && s.procs[0].PlatformProc? && ProcValid(s.store, s.procs[0])
    requires !Environment(step) && !Begins(step) && !step.Stop? && step.id == 0
    requires PlatformApplies(s.store, s.procs[0], step)
    requires Applicable(s, step) ==> Admits(m, s, step)
    requires var o := PlatformStep(s.store, s.procs[0], step); t == State(o.store, Place(s.procs, 0, o.proc))
    ensures Leads(m, o, t)
  {
    hide Leads, Apply, Applicable, Admits, PlatformStep, PlatformApplies;
    PlatformTaken(s, 0, step);
    StepLeads(m, o, s, step);
  }

  lemma Aggregation(m: Mode, o: State, s: State, list: seq<Listed>, r: PlatformRevision)
    requires Leads(m, o, s) && s.procs == map[] && |s.store.platform| > 0
    requires ValidImportList(s.store.imports, list) && ListsAllImports(s.store, list)
    requires forall k :: 0 <= k < |Importers(s.store.imports, list)| ==> Importers(s.store.imports, list)[k] in s.store.imports
    requires var importers := Importers(s.store.imports, list);
             r == AggregatedRevision(Last(s.store.platform), [], ImportInfos(s.store.imports, importers), importers, [], 0, list)
    ensures Leads(m, o, State(s.store.(platform := s.store.platform + [r]), map[]))
  {
    hide Leads, Importers, ImportInfos, ListsAllImports, ValidImportList, AggregatedRevision;
    var at := |s.store.platform| - 1;
    Listing(m, o, s, at);
    var listing := State(s.store, map[0 := PlatformProc(at, AtImportList([], [], 0))]);
    var writing := State(s.store, map[0 := PlatformProc(at, PlatformWriting(WritePlatform(at, r)))]);
    assert listing.procs[0 := PlatformProc(at, PlatformWriting(WritePlatform(at, r)))] == writing.procs;
    CallPlatform(m, o, listing, ListImports(0, list), writing);
    assert writing.procs - {0} == map[];
    CallPlatform(m, o, writing, Commit(0), State(s.store.(platform := s.store.platform + [r]), map[]));
  }

  lemma Listing(m: Mode, o: State, s: State, at: nat)
    requires Leads(m, o, s) && s.procs == map[] && at + 1 == |s.store.platform|
    ensures Leads(m, o, State(s.store, map[0 := PlatformProc(at, AtImportList([], [], 0))]))
  {
    hide Leads, PipelineApplies, ImportApplies;
    var begun := State(s.store, map[0 := PlatformProc(at, AtPipelineList)]);
    StepLeads(m, o, s, BeginPlatform(0, at));
    assert Apply(s, BeginPlatform(0, at)) == begun;
    assert CollectVersions(s.store.pipelines, [], 0) == [];
    CallPlatform(m, o, begun, ListPipelines(0, [], 0), State(s.store, map[0 := PlatformProc(at, AtImportList([], [], 0))]));
  }

  /** Some import is listed, so the aggregate is not empty, and none of those it lists brings the version. */
  lemma NotAggregated(store: Store, list: seq<Listed>, version: string)
    requires StoreOk(store) && |store.platform| > 0 && ValidImportList(store.imports, list) && ListsAllImports(store, list)
    requires forall k :: 0 <= k < |Importers(store.imports, list)| ==> Importers(store.imports, list)[k] in store.imports
    requires VersionListed(Last(store.platform).imports, version) && !Aggregable(store.imports, version)
    ensures |ImportInfos(store.imports, Importers(store.imports, list))| > 0
    ensures !VersionListed(ImportInfos(store.imports, Importers(store.imports, list)), version)
  {
    hide PipelineOk, ImportOk, VolumeOk, PlatformWrite, Sourced, Importers, EverImported, IsEntryOf, ListsAllImports, ValidImportList;
    var importers := Importers(store.imports, list);
    ListedWasEntered(store, |store.platform| - 1, version);
    var n, j :| n in store.imports && 0 <= j <= |store.platform| - 1 && Enters(store.platform[j], n)
                && IsEntryOf(version, n, store.imports[n].spec);
    AllImportersListed(store, list, n);
    ImportersImported(store.imports, list);
    forall k | 0 <= k < |importers| ensures ImportInfos(store.imports, importers)[k].version != version {
      assert importers[k] in importers && EverImported(store.imports, importers[k]);
    }
  }

  // ---------------------------------------------------------------- exactly when a version stays listed

  /** The version of the import can go from the history: no completed import brings it back in every aggregation, or a
      reconcile is about to write an aggregate without it. */
  ghost predicate Removable(s: State, version: string) {
    !Aggregable(s.store.imports, version) || Removing(s, version)
  }

  ghost predicate IsListed(s: State, version: string) {
    |s.store.platform| > 0 && VersionListed(Last(s.store.platform).imports, version)
  }

  /** With current reads, a version in the import history stays there wherever the system goes, exactly when some completed
      import brings it back in every aggregation and no reconcile is about to write an aggregate without it. */
  lemma StaysListedExactly(m: Mode, s: State, version: string)
    requires Reachable(m, s) && m.view == CurrentReads && IsListed(s, version)
    ensures (forall t :: Leads(m, s, t) ==> IsListed(t, version)) <==> !Removable(s, version)
  {
    hide Reachable, IsRun, After, Removing, Aggregable, VersionListed, AllValid, StoreOk, ProcsOk;
    if Removable(s, version) {
      var t := Removed(m, s, version);
      assert !IsListed(t, version);
    } else {
      forall t | Leads(m, s, t) ensures IsListed(t, version) {
        var steps :| IsRun(m, s, steps) && After(m, s, steps) == t;
        ForGoodRun(m, s, steps, version);
      }
    }
  }

  lemma {:induction false} ForGoodRun(m: Mode, s: State, steps: seq<Step>, version: string)
    requires Reachable(m, s) && IsRun(m, s, steps) && m.view == CurrentReads && ListedForGood(s, version)
    ensures ListedForGood(After(m, s, steps), version)
    decreases |steps|
  {
    hide Inv, Applicable, Admits, Apply, ListedForGood, Grows, Reachable;
    if |steps| > 0 {
      ReachableInv(m, s);
      StepReached(m, s, steps[0]);
      ForGoodStep(m, s, steps[0], version);
      ForGoodRun(m, Apply(s, steps[0]), steps[1..], version);
    }
  }

  /** The state a removable version is removed in; the imports are as they were. */
  lemma Removed(m: Mode, s: State, version: string) returns (t: State)
    requires Reachable(m, s) && IsListed(s, version) && Removable(s, version)
    ensures Leads(m, s, t) && t.procs == map[] && t.store.imports == s.store.imports && |t.store.platform| > 0
    ensures !VersionListed(Last(t.store.platform).imports, version)
  {
    hide Reachable, Leads, AllValid, RemovesVersion, VersionListed, Aggregable, Applicable, Apply, StoreOk, ProcValid;
    Here(m, s);
    AllProcsValid(m, s);
    if Removing(s, version) {
      var p :| p in s.procs && RemovesVersion(s.store, s.procs[p], version);
      ValidOne(s, p);
      RemovalCommitted(s, version, p);
      t := Committed(m, s, p);
      t := State(t.store, map[]);
    } else {
      Quieted(m, s, s);
      t := Unlisted(m, s, State(s.store, map[]), version);
    }
  }

  // ---------------------------------------------------------------- exactly when an import can complete

  /** What an import that has not started needs. */
  ghost predicate Startable(s: State, name: string)
    requires name in s.store.imports
  {
    MayStart(s, name) || Starting(s, name) || Removable(s, s.store.imports[name].spec.collectionVersion)
  }

  /** With current reads, from any reachable state and whatever reconciles are in flight, an import can still complete
      exactly when it has not failed and, if it has not started, one of these holds: it names no version, there is no
      platform, its version is not listed, a reconcile has already passed the check and its write is still current, or
      the version can still go from the history. */
  lemma CanCompleteExactly(m: Mode, s: State, name: string)
    requires Reachable(m, s) && m.view == CurrentReads && name in s.store.imports
    ensures |Revisions(s, name)| > 0
    ensures CanComplete(m, s, name) <==>
              match CurrentImport(s.store, name).phase
              case NotStarted => Startable(s, name)
              case ImportFailed => false
              case _ => true
  {
    hide Reachable, ProcsOk, PlatformOk, PipelineOk, VolumeOk, CanComplete, Startable;
    ReachableInv(m, s);
    assert ImportOk(s.store.runs, s.store.imports[name]);
    match CurrentImport(s.store, name).phase
    case NotStarted => if Startable(s, name) { WhenStartable(m, s, name); } else { WhenNotStartable(m, s, name); }
    case ImportFailed => WhenFailed(m, s, name);
    case _ => WhenUnderWay(m, s, name);
  }

  lemma WhenUnderWay(m: Mode, s: State, name: string)
    requires Reachable(m, s) && name in s.store.imports && |Revisions(s, name)| > 0
    requires var phase := Last(Revisions(s, name)).phase; phase.Importing? || phase.Publishing? || phase.Imported?
    ensures CanComplete(m, s, name)
  {
    hide Reachable, Leads, Inv, AllValid;
    var q, last := State(s.store, map[]), Last(Revisions(s, name));
    Here(m, s);
    AllProcsValid(m, s);
    Quieted(m, s, s);
    if last.phase.Importing? { FromImporting(m, s, q, name, last); }
    else if last.phase.Publishing? { FromPublishing(m, s, q, name, last); }
    else { assert EverImported(s.store.imports, name); }
  }

  lemma WhenStartable(m: Mode, s: State, name: string)
    requires Reachable(m, s) && name in s.store.imports && |Revisions(s, name)| > 0
    requires Last(Revisions(s, name)).phase.NotStarted? && Startable(s, name)
    ensures CanComplete(m, s, name)
  {
    hide Reachable, Leads, AllValid, CanComplete, VersionListed, Removable, Starting, Inv;
    var last, version := Last(Revisions(s, name)), s.store.imports[name].spec.collectionVersion;
    Here(m, s);
    AllProcsValid(m, s);
    Quieted(m, s, s);
    if MayStart(s, name) {
      FromStart(m, s, State(s.store, map[]), name, last);
    } else if Starting(s, name) {
      FromStarting(m, s, name);
    } else {
      var t := Removed(m, s, version);
      FromStart(m, s, t, name, last);
    }
  }

  lemma ValidOne(s: State, p: nat)
    requires AllValid(s) && p in s.procs
    ensures ProcValid(s.store, s.procs[p])
  {
  }

  // ---------------------------------------------------------------- what rules completion out

  lemma {:induction false} NeverBefore(runs: map<string, Run>, i: Import, k: nat)
    requires ImportOk(runs, i) && k < |i.revisions| && Last(i.revisions).phase.NotStarted?
    ensures i.revisions[k].phase.NotStarted?
    decreases |i.revisions| - k
  {
    hide Backed;
    if k < |i.revisions| - 1 {
      NeverBefore(runs, i, k + 1);
      assert ImportWrite(i.revisions[k], i.revisions[k + 1]);
    }
  }

  lemma NothingStarting(s: State, name: string)
    requires Inv(s) && name in s.store.imports && |Revisions(s, name)| > 0
    requires Last(Revisions(s, name)).phase.NotStarted? && !Starting(s, name)
    ensures NeverPassed(s, name)
  {
    hide PlatformOk, PipelineOk, VolumeOk, ImportOk, ProcsOk, Starts, Unchecked;
    assert ImportOk(s.store.runs, s.store.imports[name]);
    forall k | 0 <= k < |Revisions(s, name)| ensures Revisions(s, name)[k].phase.NotStarted? {
      NeverBefore(s.store.runs, s.store.imports[name], k);
    }
    forall p | p in s.procs ensures Unchecked(s.store, s.procs[p], name) {
      ProcIsOk(s, p);
      NotYetPassed(s.store, s.procs[p], name);
    }
  }

  lemma ProcIsOk(s: State, p: nat)
    requires ProcsOk(s) && p in s.procs
    ensures ProcOk(s.store, s.procs[p])
  {
  }

  lemma NotYetPassed(store: Store, proc: Proc, name: string)
    requires ProcOk(store, proc) && name in store.imports && !Starts(store, proc, name)
    requires forall k :: 0 <= k < |store.imports[name].revisions| ==> store.imports[name].revisions[k].phase.NotStarted?
    ensures Unchecked(store, proc, name)
  {
    hide Backed, PipelinePcOk, PlatformWrite, Sourced;
  }

  lemma UnstartedNotImported(s: State, name: string)
    requires NeverPassed(s, name)
    ensures !EverImported(s.store.imports, name)
  {
  }

  lemma WhenNotStartable(m: Mode, s: State, name: string)
    requires Reachable(m, s) && m.view == CurrentReads && name in s.store.imports && |Revisions(s, name)| > 0
    requires Last(Revisions(s, name)).phase.NotStarted? && !Startable(s, name)
    ensures !CanComplete(m, s, name)
  {
    hide Reachable, Inv, IsRun, After, NeverPassed, VersionListed, Aggregable, Removing, Starting, EverImported;
    ReachableInv(m, s);
    NothingStarting(s, name);
    forall t | Leads(m, s, t) ensures !EverImported(t.store.imports, name) {
      var steps :| IsRun(m, s, steps) && After(m, s, steps) == t;
      NeverStarts(m, s, steps, name);
      UnstartedNotImported(t, name);
    }
  }

  lemma WhenFailed(m: Mode, s: State, name: string)
    requires Reachable(m, s) && name in s.store.imports && |Revisions(s, name)| > 0
    requires Last(Revisions(s, name)).phase.ImportFailed?
    ensures !CanComplete(m, s, name)
  {
    hide Reachable, Inv, IsRun, After, EverImported, Grows, ProcsOk, StoreOk, Final;
    forall t | Leads(m, s, t) ensures !EverImported(t.store.imports, name) {
      var steps :| IsRun(m, s, steps) && After(m, s, steps) == t;
      RunGrows(m, s, steps);
      StaysFailed(m, s, t, name);
    }
  }

  lemma {:induction false} RunGrows(m: Mode, s: State, steps: seq<Step>)
    requires Reachable(m, s) && IsRun(m, s, steps)
    ensures Reachable(m, After(m, s, steps)) && Grows(s.store, After(m, s, steps).store)
    decreases |steps|
  {
    hide Reachable, Applicable, Admits, Apply, Grows;
    if |steps| == 0 {
      Unchanged(s.store);
    } else {
      var next := Apply(s, steps[0]);
      StepReached(m, s, steps[0]);
      RunGrows(m, next, steps[1..]);
      GrowsOn(s.store, next.store, After(m, s, steps).store);
    }
  }

  lemma GrowsOn(a: Store, b: Store, c: Store)
    requires Grows(a, b) && Grows(b, c)
    ensures Grows(a, c)
  {
  }

  lemma StaysFailed(m: Mode, s: State, t: State, name: string)
    requires Reachable(m, t) && Grows(s.store, t.store) && name in s.store.imports && |Revisions(s, name)| > 0
    requires Last(Revisions(s, name)).phase.ImportFailed?
    ensures !EverImported(t.store.imports, name)
  {
    hide Reachable, EverImported, ProcsOk, PipelineOk, ImportOk, VolumeOk, PlatformOk;
    ReachableInv(m, t);
    if EverImported(t.store.imports, name) {
      CurrentImported(t.store, name);
      ImportSafety(m, t, name, |Revisions(s, name)| - 1, |Revisions(t, name)| - 1);
    }
  }
}
