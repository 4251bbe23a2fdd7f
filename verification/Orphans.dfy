/** What the protocol does not promise: a run that no pipeline records. It stays behind when the write that should record
    it meets a conflict, with current reads and one reconcile at a time as much as without. */
module Orphans {
  import opened Objects
  import opened Reconcilers
  import opened Protocol
  import opened ApiServer
  import opened Runs
  import opened Adoption

  const SPEC := PipelineSpec("", false, "", None)
  const CREATED := PipelineRevision(false, FRESH_STATUS, Created)
  const FIRST := CREATED.(event := Touched)
  const NAMED := PipelineRevision(false, FRESH_STATUS.(version := "v"), VersionAssigned)
  const READY := PipelineRevision(false, FRESH_STATUS.(version := "v", claim := OwnClaim("p")), ClaimAssigned)

  function At(revisions: seq<PipelineRevision>, runs: map<string, Run>, volumes: map<string, Volume>, procs: map<nat, Proc>): State {
    State(Store(map["p" := Pipeline(SPEC, revisions)], map[], runs, [], volumes), procs)
  }

  function Working(at: nat, pc: PipelinePc): map<nat, Proc> {
    map[0 := PipelineProc("p", at, 0, pc)]
  }

  const VOLUMES := map[OwnClaim("p") := Volume([DEFAULT_SIZE], [DEFAULT_SIZE])]
  const RUNS := map["r" := Run(OfPipeline("p"), OwnClaim("p"), Waiting, false)]

  function Naming(): PipelinePc {
    PipelineWriting(WritePipeline("p", 2, NAMED), ThenClaim)
  }

  function Claiming(): PipelinePc {
    PipelineWriting(WritePipeline("p", 3, READY), ThenVolume)
  }

  function Recording(): PipelinePc {
    PipelineWriting(WritePipeline("p", 4, PipelineRevision(false, READY.status.(runRef := "r", phase := Pending), RunAdopted)), ThenReturn)
  }

  lemma Call(m: Mode, s: State, step: Step, t: State)
    requires Reachable(m, s) && 0 in s.procs && s.procs[0].PipelineProc? && ProcValid(s.store, s.procs[0])
    requires !Environment(step) && !Begins(step) && !step.Stop? && step.id == 0
    requires PipelineApplies(s.store, s.procs[0], step)
    requires Applicable(s, step) ==> Admits(m, s, step)
    requires var o := PipelineStep(s.store, s.procs[0], step); t == State(o.store, Place(s.procs, 0, o.proc))
    ensures Reachable(m, t)
  {
    hide Reachable, Apply, Applicable, Admits, PipelineStep, PipelineApplies;
    PipelineTaken(s, 0, step);
    StepReached(m, s, step);
  }

  /** The finalizer is written by a first reconcile, the reference to the ConfigMap at the start of the next. */
  lemma Prepared(m: Mode)
    ensures Reachable(m, At([CREATED, FIRST, FIRST], map[], map[], map[]))
  {
    hide Reachable, PipelineStep, ImportStep, PlatformStep, PipelineApplies, ImportApplies, PlatformApplies;
    Started(m);
    var s := At([CREATED], map[], map[], map[]);
    assert Apply(INITIAL, CreatePipeline("p", SPEC, false)) == s;
    StepReached(m, INITIAL, CreatePipeline("p", SPEC, false));
    Appended([CREATED], FIRST, map[]);
    assert [CREATED] + [FIRST] == [CREATED, FIRST];
    StepReached(m, s, TouchPipeline("p"));
    Appended([CREATED, FIRST], FIRST, map[]);
    assert [CREATED, FIRST] + [FIRST] == [CREATED, FIRST, FIRST];
    StepReached(m, At([CREATED, FIRST], map[], map[], map[]), TouchPipeline("p"));
  }

  lemma ReconcileBegun(m: Mode)
    ensures Reachable(m, At([CREATED, FIRST, FIRST], map[], map[], Working(2, AtVersion)))
  {
    hide Reachable, PipelineStep, ImportStep, PlatformStep, PipelineApplies, ImportApplies, PlatformApplies;
    Prepared(m);
    StepReached(m, At([CREATED, FIRST, FIRST], map[], map[], map[]), BeginPipeline(0, "p", 2));
  }

  lemma Started(m: Mode)
    ensures Reachable(m, INITIAL)
  {
    assert IsRun(m, INITIAL, []) && After(m, INITIAL, []) == INITIAL;
  }

  lemma Appended(revisions: seq<PipelineRevision>, r: PipelineRevision, volumes: map<string, Volume>)
    ensures AppendPipeline(At(revisions, map[], volumes, map[]).store, "p", r) == At(revisions + [r], map[], volumes, map[]).store
  {
    assert map["p" := Pipeline(SPEC, revisions)]["p" := Pipeline(SPEC, revisions + [r])] == map["p" := Pipeline(SPEC, revisions + [r])];
  }

  lemma Placed(before: map<nat, Proc>, at: nat, pc: PipelinePc)
    requires before.Keys == {0}
    ensures Place(before, 0, Some(PipelineProc("p", at, 0, pc))) == Working(at, pc)
  {
  }

  lemma VersionNamed(m: Mode)
    ensures Reachable(m, At([CREATED, FIRST, FIRST, NAMED], map[], map[], Working(3, Claiming())))
  {
    hide Reachable, OwnClaim;
    ReconcileBegun(m);
    assert "v" != "" by { assert |"v"| == 1; }
    Call(m, At([CREATED, FIRST, FIRST], map[], map[], Working(2, AtVersion)), PickVersion(0, "v"), At([CREATED, FIRST, FIRST], map[], map[], Working(2, Naming())));
    assert OwnClaim("p") != "" by { NonEmpty(); }
    Appended([CREATED, FIRST, FIRST], NAMED, map[]);
    assert [CREATED, FIRST, FIRST] + [NAMED] == [CREATED, FIRST, FIRST, NAMED];
    Placed(Working(2, Naming()), 3, Claiming());
    Call(m, At([CREATED, FIRST, FIRST], map[], map[], Working(2, Naming())), Commit(0), At([CREATED, FIRST, FIRST, NAMED], map[], map[], Working(3, Claiming())));
  }

  lemma NonEmpty()
    ensures OwnClaim("p") != ""
  {
    assert |OwnClaim("p")| > 0;
  }

  lemma ClaimNamed(m: Mode)
    ensures Reachable(m, At([CREATED, FIRST, FIRST, NAMED, READY], map[], map[], Working(4, AtVolume)))
  {
    hide Reachable, OwnClaim;
    VersionNamed(m);
    Appended([CREATED, FIRST, FIRST, NAMED], READY, map[]);
    assert [CREATED, FIRST, FIRST, NAMED] + [READY] == [CREATED, FIRST, FIRST, NAMED, READY];
    Placed(Working(3, Claiming()), 4, AtVolume);
    Call(m, At([CREATED, FIRST, FIRST, NAMED], map[], map[], Working(3, Claiming())), Commit(0), At([CREATED, FIRST, FIRST, NAMED, READY], map[], map[], Working(4, AtVolume)));
  }

  lemma RunCreated(m: Mode)
    ensures Reachable(m, At([CREATED, FIRST, FIRST, NAMED, READY], RUNS, VOLUMES, Working(4, AtAdopt("r"))))
  {
    hide Reachable, OwnClaim;
    ClaimNamed(m);
    var r := [CREATED, FIRST, FIRST, NAMED, READY];
    Placed(Working(4, AtVolume), 4, AtSigning);
    Call(m, At(r, map[], map[], Working(4, AtVolume)), ReadVolume(0, None), At(r, map[], VOLUMES, Working(4, AtSigning)));
    Placed(Working(4, AtSigning), 4, AtCreate);
    Call(m, At(r, map[], VOLUMES, Working(4, AtSigning)), CheckSigning(0, None, false), At(r, map[], VOLUMES, Working(4, AtCreate)));
    assert "r" != "" by { assert |"r"| == 1; }
    Placed(Working(4, AtCreate), 4, AtAdopt("r"));
    Call(m, At(r, map[], VOLUMES, Working(4, AtCreate)), CreateRun(0, "r"), At(r, RUNS, VOLUMES, Working(4, AtAdopt("r"))));
  }

  const TOUCHED := READY.(event := Touched)

  lemma Overtaken(m: Mode)
    ensures Reachable(m, At([CREATED, FIRST, FIRST, NAMED, READY, TOUCHED], RUNS, VOLUMES, Working(4, Recording())))
  {
    hide Reachable, OwnClaim, PipelineStep, ImportStep, PlatformStep, PipelineApplies, ImportApplies, PlatformApplies;
    RunCreated(m);
    var r := [CREATED, FIRST, FIRST, NAMED, READY];
    var s := At(r, RUNS, VOLUMES, Working(4, Recording()));
    assert Reachable(m, s) by { RecordingPrepared(m); }
    assert map["p" := Pipeline(SPEC, r)]["p" := Pipeline(SPEC, r + [TOUCHED])] == map["p" := Pipeline(SPEC, r + [TOUCHED])];
    assert r + [TOUCHED] == [CREATED, FIRST, FIRST, NAMED, READY, TOUCHED];
    StepReached(m, s, TouchPipeline("p"));
  }

  lemma RecordingPrepared(m: Mode)
    ensures Reachable(m, At([CREATED, FIRST, FIRST, NAMED, READY], RUNS, VOLUMES, Working(4, Recording())))
  {
    hide Reachable, OwnClaim;
    RunCreated(m);
    var r := [CREATED, FIRST, FIRST, NAMED, READY];
    Placed(Working(4, AtAdopt("r")), 4, Recording());
    Call(m, At(r, RUNS, VOLUMES, Working(4, AtAdopt("r"))), ReadLatest(0, 4), At(r, RUNS, VOLUMES, Working(4, Recording())));
  }

  /** In every mode, the strictest included, a run that is not deleted can be orphaned with no reconcile at work: the
      conflict at its adoption leaves it. */
  lemma OrphanReachable(m: Mode)
    ensures exists s :: Reachable(m, s) && s.procs == map[] && "r" in s.store.runs && !s.store.runs["r"].deleted && Orphaned(s, "r")
  {
    hide Reachable, OwnClaim;
    Overtaken(m);
    var r := [CREATED, FIRST, FIRST, NAMED, READY, TOUCHED];
    var last := At(r, RUNS, VOLUMES, map[]);
    assert Working(4, Recording()) - {0} == map[];
    Call(m, At(r, RUNS, VOLUMES, Working(4, Recording())), Commit(0), last);
    assert "r" != "" by { assert |"r"| == 1; }
    assert Orphaned(last, "r");
  }
}
