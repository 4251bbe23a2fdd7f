/** What the version check does not promise: two imports of one version that both start before either is listed can both
    complete, and both enter the history, with current reads, one reconcile at a time and no crash. */
module DuplicateImports {
  import opened Objects
  import opened Reconcilers
  import opened Protocol
  import opened Invariants
  import opened Preservation
  import opened Runs
  import opened Completion

  const SPEC := ImportSpec("v", 0, "")
  const FRESH := ImportStatus(NotStarted, "")

  // ---------------------------------------------------------------- an import that is entered

  /** The store with an import's entry appended to the platform. */
  function Entered(s: State, name: string): State
    requires name in s.store.imports && |s.store.platform| > 0
  {
    var version := AppendedVersion(name, s.store.imports[name].spec);
    State(AppendPlatform(s.store, ImportAppendedRevision(Last(s.store.platform), name, version, 0)), map[])
  }

  lemma Appended(m: Mode, o: State, s: State, name: string, at: nat)
    requires name in s.store.imports && |s.store.platform| > 0 && at < |Revisions(s, name)|
    requires Leads(m, o, s) && s.procs == map[0 := ImportProc(name, at, AtAppend)]
    ensures Leads(m, o, Entered(s, name))
  {
    hide Leads, AppendedVersion;
    var k, entered := |s.store.platform| - 1, Entered(s, name);
    var writing := State(s.store, map[0 := ImportProc(name, at, ImportWriting(WritePlatform(k, Last(entered.store.platform)), ThenEnd))]);
    Call(m, o, s, ReadPlatform(0, Some(k), 0), writing);
    assert writing.procs - {0} == map[];
    Call(m, o, writing, Commit(0), entered);
  }

  /** Where an import under way ends: its run succeeded, it is complete, and entered. */
  function Over(s: State, name: string, run: string): State
    requires name in s.store.imports && |s.store.platform| > 0
  {
    Entered(At(s, name, Revisions(s, name) + [Going(run)] + [ImportStatus(Publishing, run)] + [ImportStatus(Imported, run)],
               s.store.runs[run := Done(name, run, true)], None), name)
  }

  lemma Finishes(m: Mode, o: State, s: State, name: string, run: string)
    requires Leads(m, o, s) && Resting(s, name, Going("")) && Unused(s, run) && |s.store.platform| > 0
    ensures Leads(m, o, Over(s, name, run))
  {
    hide Leads, AppendedVersion;
    Published(m, o, s, name, run);
    var r, runs := Revisions(s, name) + [Going(run)] + [ImportStatus(Publishing, run)], s.store.runs[run := Done(name, run, true)];
    var published := At(s, name, r, runs, None);
    Finalized(m, o, published, name, ImportStatus(Publishing, run));
    var last := At(published, name, r + [ImportStatus(Imported, run)], runs, Some(ImportProc(name, |r|, AtAppend)));
    Appended(m, o, last, name, |r|);
    assert last.store.imports == s.store.imports[name := s.store.imports[name].(revisions := r + [ImportStatus(Imported, run)])];
  }

  // ---------------------------------------------------------------- two imports of one version

  function WithImports(imports: map<string, Import>): State {
    State(Store(map[], imports, map[], [PlatformRevision([], None, [], None, Born)], map[]), map[])
  }

  lemma PlatformReachable(m: Mode)
    ensures Leads(m, INITIAL, WithImports(map[]))
  {
    hide Leads, ProcStep, PipelineApplies, ImportApplies, PlatformApplies, Start;
    Here(m, INITIAL);
    StepLeads(m, INITIAL, INITIAL, CreatePlatform);
    assert Apply(INITIAL, CreatePlatform) == WithImports(map[]);
  }

  /** An import is created, and its first reconcile writes the finalizer. */
  lemma ImportCreated(m: Mode, o: State, imports: map<string, Import>, name: string)
    requires Leads(m, o, WithImports(imports)) && name !in imports
    ensures Leads(m, o, WithImports(imports[name := Import(SPEC, [FRESH, FRESH])]))
  {
    hide Leads, ProcStep, PipelineApplies, ImportApplies, PlatformApplies, Start;
    StepLeads(m, o, WithImports(imports), CreateImport(name, SPEC));
    var created := WithImports(imports[name := Import(SPEC, [FRESH])]);
    StepLeads(m, o, created, TouchImport(name));
    assert [FRESH] + [FRESH] == [FRESH, FRESH];
    assert imports[name := Import(SPEC, [FRESH])][name := Import(SPEC, [FRESH, FRESH])] == imports[name := Import(SPEC, [FRESH, FRESH])];
  }

  /** Both imports under way, neither of them in the history. */
  function BothGoing(): State {
    WithImports(map["a" := Import(SPEC, [FRESH, FRESH, Going("")]), "b" := Import(SPEC, [FRESH, FRESH, Going("")])])
  }

  lemma BothGoingReachable(m: Mode)
    ensures Leads(m, INITIAL, BothGoing())
  {
    hide Leads;
    PlatformReachable(m);
    ImportCreated(m, INITIAL, map[], "a");
    assert "a"[0] != "b"[0];
    ImportCreated(m, INITIAL, map["a" := Import(SPEC, [FRESH, FRESH])], "b");
    var s := WithImports(map["a" := Import(SPEC, [FRESH, FRESH])]["b" := Import(SPEC, [FRESH, FRESH])]);
    Passed(m, INITIAL, s, "a", FRESH);
    var t := At(s, "a", [FRESH, FRESH] + [Going("")], map[], None);
    Passed(m, INITIAL, t, "b", FRESH);
    var r := [FRESH, FRESH] + [Going("")];
    assert r == [FRESH, FRESH, Going("")];
    var imports := At(t, "b", r, map[], None).store.imports;
    assert imports["a"] == Import(SPEC, r) && imports["b"] == Import(SPEC, r) && imports.Keys == {"a", "b"};
    assert imports == BothGoing().store.imports;
  }

  /** All the revisions of an import that goes straight through. */
  function Straight(run: string): seq<ImportStatus> {
    [FRESH, FRESH, Going(""), Going(run), ImportStatus(Publishing, run), ImportStatus(Imported, run)]
  }

  /** In every mode, the strictest included, two imports of one version can both complete and both enter the history,
      each of them without a failure and with both under way before either is listed. */
  lemma BothComplete(m: Mode)
    ensures exists s :: Reachable(m, s) && "a" in s.store.imports && "b" in s.store.imports
              && s.store.imports["a"].spec.collectionVersion == s.store.imports["b"].spec.collectionVersion == "v"
              && Revisions(s, "a") == Straight("r") && Revisions(s, "b") == Straight("q")
              && |s.store.platform| == 3 && s.store.platform[1].event == ImportAppended("a")
              && s.store.platform[2].event == ImportAppended("b") && s.store.platform[2].imports == [Info("v", 0), Info("v", 0)]
  {
    hide Leads, Reachable, Straight;
    BothGoingReachable(m);
    assert "v" != "" && "r" != "" && "q" != "" && "r" != "q" by { assert |"v"| == 1 && |"r"| == 1 && |"q"| == 1 && "r"[0] != "q"[0]; }
    assert "a" != "b" by { assert "a"[0] != "b"[0]; }
    var s := BothGoing();
    Finishes(m, INITIAL, s, "a", "r");
    var t := Over(s, "a", "r");
    Finishes(m, INITIAL, t, "b", "q");
    var u := Over(t, "b", "q");
    LeadsFromStart(m, u);
    StraightThrough("r");
    StraightThrough("q");
    assert [] + [Info("v", 0)] + [Info("v", 0)] == [Info("v", 0), Info("v", 0)];
  }

  lemma StraightThrough(run: string)
    ensures [FRESH, FRESH, Going("")] + [Going(run)] + [ImportStatus(Publishing, run)] + [ImportStatus(Imported, run)] == Straight(run)
  {
  }

  lemma LeadsFromStart(m: Mode, s: State)
    requires Leads(m, INITIAL, s)
    ensures Reachable(m, s)
  {
  }
}
