/** The API server as the reconcilers call it. The server's objects are real fields; where each reconcile stands is
    ghost. Every call is one step of Protocol, and may only be made where Protocol has that call next. A contract says
    where the caller stands afterwards and nothing about the other reconciles, so a program verified against it is
    verified for whatever they do in between; that revisions are only appended is all a caller may rely on. A reconcile
    that has begun is in `procs` until its program is through: `id !in procs` at the end of a program says that every
    call Protocol has for it was made. */
module ApiServer {
  import opened Objects
  import opened Reconcilers
  import opened Protocol
  import opened Invariants
  import opened Preservation
  import opened Runs

  // ---------------------------------------------------------------- the log

  /** One step of the log; for an update, what was sent and whether it was accepted. */
  datatype Event = Event(step: Step, sent: Option<Write>, accepted: bool)

  function Called(step: Step): Event {
    Event(step, None, false)
  }

  function Sent(id: nat, w: Write, accepted: bool): Event {
    Event(Commit(id), Some(w), accepted)
  }

  /** The write a reconcile has prepared. */
  function Prepared(proc: Proc): Option<Write> {
    match proc
    case PipelineProc(_, _, _, pc) => if pc.PipelineWriting? then Some(pc.write) else None
    case ImportProc(_, _, pc) => if pc.ImportWriting? then Some(pc.write) else None
    case PlatformProc(_, pc) => if pc.PlatformWriting? then Some(pc.write) else None
  }

  ghost function EventOf(s: State, step: Step): Event {
    if step.Commit? && step.id in s.procs && Prepared(s.procs[step.id]).Some? then
      var w := Prepared(s.procs[step.id]).value;
      Sent(step.id, w, Targets(s.store, w) && Accepts(s.store, w))
    else Called(step)
  }

  /** The log of a run from the empty cluster: every step was possible, and is entered as it happened. */
  ghost predicate IsLog(m: Mode, log: seq<Event>)
    decreases |log|, 0
  {
    |log| == 0 ||
    (var before, last := log[..|log| - 1], log[|log| - 1];
     IsLog(m, before) && Takes(m, StateOf(m, before), last.step) && last == EventOf(StateOf(m, before), last.step))
  }

  ghost function StateOf(m: Mode, log: seq<Event>): State
    requires IsLog(m, log)
    decreases |log|, 1
  {
    if |log| == 0 then INITIAL else Apply(StateOf(m, log[..|log| - 1]), log[|log| - 1].step)
  }

  function Steps(log: seq<Event>): seq<Step> {
    seq(|log|, k requires 0 <= k < |log| => log[k].step)
  }

  /** The steps of a log are a run, and it leads to the log's state. */
  lemma {:induction false} LogIsRun(m: Mode, log: seq<Event>)
    requires IsLog(m, log)
    ensures IsRun(m, INITIAL, Steps(log)) && After(m, INITIAL, Steps(log)) == StateOf(m, log)
  {
    hide Apply, Applicable, Admits, EventOf;
    if |log| > 0 {
      var before := log[..|log| - 1];
      LogIsRun(m, before);
      RunExtended(m, INITIAL, Steps(before), log[|log| - 1].step);
      assert Steps(log) == Steps(before) + [log[|log| - 1].step];
    }
  }

  lemma LogReaches(m: Mode, log: seq<Event>)
    requires IsLog(m, log)
    ensures Reachable(m, StateOf(m, log))
  {
    hide IsLog, StateOf, IsRun, After;
    LogIsRun(m, log);
  }

  /** The steps of one reconcile. */
  function Own(log: seq<Event>, id: nat): seq<Event> {
    if |log| == 0 then [] else
      var before, last := Own(log[..|log| - 1], id), log[|log| - 1];
      if !Environment(last.step) && last.step.id == id then before + [last] else before
  }

  lemma OwnStep(log: seq<Event>, e: Event, id: nat)
    ensures Own(log + [e], id) == if !Environment(e.step) && e.step.id == id then Own(log, id) + [e] else Own(log, id)
  {
    assert (log + [e])[..|log|] == log;
  }

  lemma StoreKnown(m: Mode, s: State)
    requires Reachable(m, s)
    ensures forall v :: v in s.store.volumes ==> |s.store.volumes[v].sizes| > 0
    ensures forall n :: n in s.store.pipelines ==> |s.store.pipelines[n].revisions| > 0
    ensures forall n :: n in s.store.imports ==> |s.store.imports[n].revisions| > 0
  {
    hide Reachable, ProcOk, PlatformOk;
    ReachableInv(m, s);
    forall v | v in s.store.volumes ensures |s.store.volumes[v].sizes| > 0 { assert VolumeOk(s.store.volumes[v]); }
    forall n | n in s.store.pipelines ensures |s.store.pipelines[n].revisions| > 0 { assert PipelineOk(s.store.pipelines[n]); }
    forall n | n in s.store.imports ensures |s.store.imports[n].revisions| > 0 { assert ImportOk(s.store.runs, s.store.imports[n]); }
  }

  lemma ProcKnown(m: Mode, s: State, id: nat)
    requires Reachable(m, s) && id in s.procs
    ensures ProcValid(s.store, s.procs[id])
  {
    hide Reachable, StoreOk;
    ReachableInv(m, s);
    assert ProcOk(s.store, s.procs[id]);
  }

  /** A call of a pipeline reconcile as a step of the system. */
  lemma PipelineTaken(s: State, id: nat, step: Step)
    requires id in s.procs && s.procs[id].PipelineProc? && ProcValid(s.store, s.procs[id])
    requires !Environment(step) && !Begins(step) && !step.Stop? && step.id == id
    requires PipelineApplies(s.store, s.procs[id], step)
    ensures Applicable(s, step)
    ensures var o := PipelineStep(s.store, s.procs[id], step);
            Apply(s, step) == State(o.store, Place(s.procs, id, o.proc))
  {
    hide PipelineStep, PipelineApplies;
  }

  lemma ImportTaken(s: State, id: nat, step: Step)
    requires id in s.procs && s.procs[id].ImportProc? && ProcValid(s.store, s.procs[id])
    requires !Environment(step) && !Begins(step) && !step.Stop? && step.id == id
    requires ImportApplies(s.store, s.procs[id], step)
    ensures Applicable(s, step)
    ensures var o := ImportStep(s.store, s.procs[id], step);
            Apply(s, step) == State(o.store, Place(s.procs, id, o.proc))
  {
    hide ImportStep, ImportApplies;
  }

  lemma PlatformTaken(s: State, id: nat, step: Step)
    requires id in s.procs && s.procs[id].PlatformProc? && ProcValid(s.store, s.procs[id])
    requires !Environment(step) && !Begins(step) && !step.Stop? && step.id == id
    requires PlatformApplies(s.store, s.procs[id], step)
    ensures Applicable(s, step)
    ensures var o := PlatformStep(s.store, s.procs[id], step);
            Apply(s, step) == State(o.store, Place(s.procs, id, o.proc))
  {
    hide PlatformStep, PlatformApplies;
  }

  /** The names in some order. */
  method Ordered(names: set<string>) returns (list: seq<string>)
    ensures forall n :: n in names <==> n in list
    ensures forall j, k :: 0 <= j < k < |list| ==> list[j] != list[k]
  {
    list := [];
    var rest := names;
    while rest != {}
      invariant rest <= names && forall n :: n in names <==> n in rest || n in list
      invariant forall n :: n in list ==> n !in rest
      invariant forall j, k :: 0 <= j < k < |list| ==> list[j] != list[k]
      decreases |rest|
    {
      var n :| n in rest;
      rest := rest - {n};
      list := list + [n];
    }
  }

  class Server {
    ghost const mode: Mode
    var store: Store
    ghost var procs: map<nat, Proc>
    ghost var log: seq<Event>

    constructor (ghost m: Mode)
      ensures mode == m && Reached() && procs == map[] && store == EMPTY_STORE && log == []
    {
      mode, store, procs, log := m, EMPTY_STORE, map[], [];
    }

    ghost function Now(): State
      reads this
    {
      State(store, procs)
    }

    /** The log is a run of the system, and leads here. */
    ghost predicate Reached()
      reads this
    {
      IsLog(mode, log) && StateOf(mode, log) == Now()
    }

    /** What a reconcile has done since the log was `before`. */
    ghost predicate Added(before: seq<Event>, id: nat, part: seq<Event>)
      reads this
    {
      Own(log, id) == Own(before, id) + part
    }

    /** A pipeline reconcile with this local copy, about to make the call `pc`. */
    ghost predicate PipelineAt(id: nat, name: string, at: nat, spec: PipelineSpec, copy: PipelineRevision, pc: PipelinePc)
      reads this
    {
      && id in procs && procs[id].PipelineProc?
      && procs[id].name == name && procs[id].at == at && procs[id].pipelinePc == pc
      && name in store.pipelines && store.pipelines[name].spec == spec
      && at < |store.pipelines[name].revisions| && store.pipelines[name].revisions[at] == copy
      && (procs[id].seen == 0
          || (spec.parent in store.pipelines && procs[id].seen < |store.pipelines[spec.parent].revisions|))
    }

    ghost predicate ImportAt(id: nat, name: string, at: nat, spec: ImportSpec, copy: ImportStatus, pc: ImportPc)
      reads this
    {
      && id in procs && procs[id] == ImportProc(name, at, pc)
      && name in store.imports && store.imports[name].spec == spec
      && at < |store.imports[name].revisions| && store.imports[name].revisions[at] == copy
    }

    ghost predicate PlatformAt(id: nat, at: nat, copy: PlatformRevision, pc: PlatformPc)
      reads this
    {
      && id in procs && procs[id] == PlatformProc(at, pc)
      && at < |store.platform| && store.platform[at] == copy
    }

    /** Enters a step that has just been made into the ghost state. */
    ghost method Record(before: State, step: Step)
      requires IsLog(mode, log) && StateOf(mode, log) == before && Takes(mode, before, step)
      requires Apply(before, step).store == store
      modifies this`procs, this`log
      ensures Reached() && Grows(before.store, store) && procs == Apply(before, step).procs
      ensures !Environment(step) ==> Added(old(log), step.id, [EventOf(before, step)])
      ensures !Environment(step) && !step.Commit? ==> Added(old(log), step.id, [Called(step)])
    {
      hide Reachable, Applicable, Admits, Apply, Grows, EventOf;
      LogReaches(mode, log);
      StepReached(mode, before, step);
      ghost var was := log;
      procs := Apply(before, step).procs;
      log := log + [EventOf(before, step)];
      assert log[..|was|] == was;
      StepOfEvent(before, step);
      if !step.Commit? { JustCalled(before, step); }
      if !Environment(step) { OwnStep(was, EventOf(before, step), step.id); }
    }

    lemma Known()
      requires Reached()
      ensures Reachable(mode, Now())
    {
      LogReaches(mode, log);
    }

    lemma Join(before: seq<Event>, between: seq<Event>, id: nat, a: seq<Event>, b: seq<Event>)
      requires Own(between, id) == Own(before, id) + a && Added(between, id, b)
      ensures Added(before, id, a + b)
    {
      assert Own(before, id) + a + b == Own(before, id) + (a + b);
    }

    static lemma StepOfEvent(s: State, step: Step)
      ensures EventOf(s, step).step == step
    {
    }

    static lemma JustCalled(s: State, step: Step)
      requires !step.Commit?
      ensures EventOf(s, step) == Called(step)
    {
    }

    // -------------------------------------------------------------- pipelines

    method GetPipeline(id: nat, name: string) returns (found: bool, at: nat, spec: PipelineSpec, copy: PipelineRevision)
      requires Reached() && id !in procs
      requires mode.exclusive ==> forall q :: q in procs && procs[q].PipelineProc? ==> procs[q].name != name
      modifies this
      ensures Reached() && Grows(old(store), store)
      ensures name in old(store).pipelines ==> found
      ensures if found then PipelineAt(id, name, at, spec, copy, OnRead(name, spec, at, copy)) else id !in procs
      ensures Added(old(log), id, if found then [Called(BeginPipeline(id, name, at))] else [])
    {
      hide Reachable, Grows, OnRead;
      found, at, spec, copy := false, 0, PipelineSpec("", false, "", None), PipelineRevision(false, FRESH_STATUS, Created);
      Unchanged(store);
      assert Own(log, id) == Own(log, id) + [];
      if name in store.pipelines {
        Known();
        StoreKnown(mode, Now());
        found, at, spec := true, |store.pipelines[name].revisions| - 1, store.pipelines[name].spec;
        copy := store.pipelines[name].revisions[at];
        Record(Now(), BeginPipeline(id, name, at));
      }
    }

    /** Update and Status().Update: of the pipeline, of the platform or of a claim, guarded by the revision read. */
    method Update(id: nat, ghost name: string, ghost at: nat, ghost spec: PipelineSpec, ghost copy: PipelineRevision, w: Write,
                  ghost next: PipelineNext) returns (accepted: bool)
      requires Reached() && PipelineAt(id, name, at, spec, copy, PipelineWriting(w, next))
      modifies this
      ensures Reached() && Grows(old(store), store)
      ensures Added(old(log), id, [Sent(id, w, accepted)])
      ensures !accepted ==> id !in procs
      ensures accepted && w.WriteVolume? ==> HasRoom(store, w.name, w.size)
      ensures accepted ==>
                var at := if w.WritePipeline? then w.base + 1 else at;
                var copy := if w.WritePipeline? then w.pipeline else copy;
                var continued := OnAccepted(name, spec, at, copy, next);
                if continued.None? then id !in procs else PipelineAt(id, name, at, spec, copy, continued.value)
    {
      hide Reachable, Grows, Applicable, Apply, OnAccepted;
      Known();
      ProcKnown(mode, Now(), id);
      ghost var before := Now();
      accepted := Accepts(store, w);
      store := Settle(store, w);
      PipelineTaken(before, id, Commit(id));
      Record(before, Commit(id));
      if accepted && w.WriteVolume? { RoomAt(store, w.name, w.size, w.base + 1); }
      SeenKept(before.store, store, spec.parent, before.procs[id].seen);
    }

    method GetClaim(id: nat, ghost name: string, ghost at: nat, ghost spec: PipelineSpec, ghost copy: PipelineRevision,
                    claim: string, desired: nat) returns (found: bool, k: nat, size: nat)
      requires Reached() && PipelineAt(id, name, at, spec, copy, AtExpand) && spec.size.Some?
      requires claim == ExpandClaim(name, spec, copy.status) && desired == SizeOf(spec)
      modifies this
      ensures Reached() && Grows(old(store), store)
      ensures Added(old(log), id, [Called(ReadVolume(id, if found then Some(k) else None))])
      ensures found ==> claim in store.volumes && k < |store.volumes[claim].sizes| && size == store.volumes[claim].sizes[k]
      ensures PipelineAt(id, name, at, spec, copy,
                         if found && desired > size then PipelineWriting(WriteVolume(claim, k, desired), ThenReference)
                         else OnReference(name, spec, at, copy))
    {
      hide Reachable, Grows, Applicable, Apply, ProcValid, OnReference;
      Known();
      ProcKnown(mode, Now(), id);
      StoreKnown(mode, Now());
      ghost var before := Now();
      found, k, size := claim in store.volumes, 0, 0;
      if found {
        k := |store.volumes[claim].sizes| - 1;
        size := store.volumes[claim].sizes[k];
        if desired <= size { store := Grant(store, claim, desired); }
      }
      PipelineTaken(before, id, ReadVolume(id, if found then Some(k) else None));
      Record(before, ReadVolume(id, if found then Some(k) else None));
      SeenKept(before.store, store, spec.parent, before.procs[id].seen);
    }

    /** The lookup of ensurePVC, with the creation of a claim that a pipeline of its own may create. */
    method EnsureClaim(id: nat, ghost name: string, ghost at: nat, spec: PipelineSpec, ghost copy: PipelineRevision,
                       claim: string, desired: nat) returns (answer: Option<(nat, nat)>, created: bool)
      requires Reached() && PipelineAt(id, name, at, spec, copy, AtVolume)
      requires claim == copy.status.claim && desired == SizeOf(spec)
      modifies this
      ensures Reached() && Grows(old(store), store)
      ensures Added(old(log), id, [Called(ReadVolume(id, if answer.Some? then Some(answer.value.0) else None))])
      ensures created ==> answer.None? && !spec.incremental && spec.parent == ""
      ensures created || (answer.Some? && desired <= answer.value.1) ==> HasRoom(store, claim, desired)
      ensures answer.Some? ==>
                && claim in store.volumes && answer.value.0 < |store.volumes[claim].sizes|
                && answer.value.1 == store.volumes[claim].sizes[answer.value.0]
      ensures if answer.None? && !created then id !in procs
              else PipelineAt(id, name, at, spec, copy,
                              if answer.Some? && desired > answer.value.1
                              then PipelineWriting(WriteVolume(claim, answer.value.0, desired), ThenCreate) else AtSigning)
    {
      hide Reachable, Grows, Applicable, Apply, ProcValid, HasRoom;
      Known();
      ProcKnown(mode, Now(), id);
      StoreKnown(mode, Now());
      ghost var before := Now();
      answer, created := None, false;
      if claim in store.volumes {
        var k := |store.volumes[claim].sizes| - 1;
        answer := Some((k, store.volumes[claim].sizes[k]));
        if desired <= answer.value.1 { store := Grant(store, claim, desired); }
        PipelineTaken(before, id, ReadVolume(id, Some(k)));
        Record(before, ReadVolume(id, Some(k)));
        if desired <= answer.value.1 { RoomAt(store, claim, desired, k); }
      } else if spec.incremental || spec.parent != "" {
        Unchanged(store);
        PipelineTaken(before, id, ReadVolume(id, None));
        Record(before, ReadVolume(id, None));
      } else {
        created := true;
        store := store.(volumes := store.volumes[claim := Volume([desired], [desired])]);
        PipelineTaken(before, id, ReadVolume(id, None));
        Record(before, ReadVolume(id, None));
        RoomAt(store, claim, desired, 0);
      }
      SeenKept(before.store, store, spec.parent, before.procs[id].seen);
    }

    /** The run a pipeline names, and whether its signing task is out of date. */
    method GetRun(id: nat, ghost name: string, ghost at: nat, ghost spec: PipelineSpec, ghost copy: PipelineRevision,
                  run: string) returns (observed: Option<Stage>, outdated: bool)
      requires Reached() && PipelineAt(id, name, at, spec, copy, AtRun) && run == copy.status.runRef
      modifies this
      ensures Reached() && Grows(old(store), store)
      ensures Added(old(log), id, [Called(ReadRun(id, observed, outdated))])
      ensures observed.Some? ==> run in store.runs
      ensures PipelineAt(id, name, at, spec, copy, if observed == Some(Waiting) && outdated then AtDrop else AtTrack)
    {
      hide Reachable, Grows, Applicable, Apply, ProcValid;
      Known();
      ProcKnown(mode, Now(), id);
      Unchanged(store);
      outdated := *;
      observed := LookupRun(run);
      PipelineTaken(Now(), id, ReadRun(id, observed, outdated));
      Record(Now(), ReadRun(id, observed, outdated));
    }

    method LookupRun(run: string) returns (observed: Option<Stage>)
      ensures SeesRun(mode, store, run, observed)
    {
      observed := if run in store.runs && !store.runs[run].deleted then Some(store.runs[run].stage) else None;
    }

    method DeleteRun(id: nat, ghost name: string, ghost at: nat, ghost spec: PipelineSpec, ghost copy: PipelineRevision,
                     run: string)
      requires Reached() && PipelineAt(id, name, at, spec, copy, AtDrop) && run == copy.status.runRef && run in store.runs
      modifies this
      ensures Reached() && Grows(old(store), store)
      ensures Added(old(log), id, [Called(DropRun(id))])
      ensures run in store.runs && store.runs[run].deleted
      ensures PipelineAt(id, name, at, spec, copy,
                         SaveStatus(name, at, copy, copy.status.(runRef := "", phase := Unset), RunDropped, ThenReturn))
    {
      hide Reachable, Grows, Applicable, Apply, ProcValid;
      Known();
      ProcKnown(mode, Now(), id);
      ghost var before := Now();
      store := MarkDeleted(store, run);
      PipelineTaken(before, id, DropRun(id));
      Record(before, DropRun(id));
      SeenKept(before.store, store, spec.parent, before.procs[id].seen);
    }

    /** The lookup of trackPipelineRun. */
    method GetTrackedRun(id: nat, ghost name: string, ghost at: nat, ghost spec: PipelineSpec,
                         ghost copy: PipelineRevision, run: string) returns (observed: Option<Stage>)
      requires Reached() && PipelineAt(id, name, at, spec, copy, AtTrack) && run == copy.status.runRef
      modifies this
      ensures Reached() && Grows(old(store), store)
      ensures Added(old(log), id, [Called(TrackRun(id, observed))])
      ensures PipelineAt(id, name, at, spec, copy,
                match observed
                case None => SaveStatus(name, at, copy, copy.status.(runRef := "", phase := Phase.Stale), MarkedStale, ThenReturn)
                case Some(stage) => SaveStatus(name, at, copy, copy.status.(phase := RunPhase(stage)), Tracked,
                                               if RunPhase(stage).Complete? then ThenHistory else ThenReturn))
    {
      hide Reachable, Grows, Applicable, Apply, ProcValid;
      Known();
      ProcKnown(mode, Now(), id);
      Unchanged(store);
      observed := LookupRun(run);
      PipelineTaken(Now(), id, TrackRun(id, observed));
      Record(Now(), TrackRun(id, observed));
    }

    /** The platform that a finished collection is entered into. */
    method FindPlatformForHistory(id: nat, ghost name: string, ghost at: nat, ghost spec: PipelineSpec,
                                  ghost copy: PipelineRevision)
      returns (found: bool, k: nat, platform: PlatformRevision, now: nat)
      requires Reached() && PipelineAt(id, name, at, spec, copy, AtHistory)
      modifies this
      ensures Reached() && Grows(old(store), store)
      ensures Added(old(log), id, [Called(ReadPlatform(id, if found then Some(k) else None, now))])
      ensures found ==> k < |store.platform| && platform == store.platform[k]
      ensures if found then
                PipelineAt(id, name, at, spec, copy, PipelineWriting(
                  WritePlatform(k, CollectionAppendedRevision(platform, name, copy.status.version, now)), ThenReturn))
              else id !in procs
    {
      hide Reachable, Grows, Applicable, Apply, ProcValid;
      Known();
      ProcKnown(mode, Now(), id);
      Unchanged(store);
      found, k, platform, now := LookupPlatform();
      PipelineTaken(Now(), id, ReadPlatform(id, if found then Some(k) else None, now));
      Record(Now(), ReadPlatform(id, if found then Some(k) else None, now));
    }

    method LookupPlatform() returns (found: bool, k: nat, platform: PlatformRevision, now: nat)
      ensures SeesPlatform(mode, store, if found then Some(k) else None) && (|store.platform| > 0 ==> found)
      ensures found ==> k < |store.platform| && platform == store.platform[k]
    {
      found, k, platform := |store.platform| > 0, 0, PlatformRevision([], None, [], None, Born);
      now := *;
      if found { k, platform := |store.platform| - 1, store.platform[|store.platform| - 1]; }
    }

    /** The platform whose import history must have the base version. */
    method FindPlatformForBase(id: nat, ghost name: string, ghost at: nat, ghost spec: PipelineSpec,
                               ghost copy: PipelineRevision) returns (found: bool, ghost k: nat, platform: PlatformRevision, ghost now: nat)
      requires Reached() && PipelineAt(id, name, at, spec, copy, AtBase)
      modifies this
      ensures Reached() && Grows(old(store), store)
      ensures Added(old(log), id, [Called(ReadPlatform(id, if found then Some(k) else None, now))])
      ensures found ==> k < |store.platform| && platform == store.platform[k]
      ensures PipelineAt(id, name, at, spec, copy,
                         if found && !VersionListed(platform.imports, spec.baseVersion)
                         then SaveStatus(name, at, copy, copy.status.(phase := Failed), Rejected, ThenReturn)
                         else OnVersion(name, spec, at, copy))
    {
      hide Reachable, Grows, Applicable, Apply, ProcValid, OnVersion;
      Known();
      ProcKnown(mode, Now(), id);
      Unchanged(store);
      var place, time;
      found, place, platform, time := LookupPlatform();
      k, now := place, time;
      PipelineTaken(Now(), id, ReadPlatform(id, if found then Some(k) else None, now));
      Record(Now(), ReadPlatform(id, if found then Some(k) else None, now));
    }

    /** The parent that must be complete. */
    method GetParent(id: nat, ghost name: string, ghost at: nat, spec: PipelineSpec, ghost copy: PipelineRevision)
      returns (found: bool, ghost k: nat, parent: PipelineStatus)
      requires Reached() && PipelineAt(id, name, at, spec, copy, AtParent)
      modifies this
      ensures Reached() && Grows(old(store), store)
      ensures Added(old(log), id, [Called(ReadParent(id, if found then Some(k) else None))])
      ensures found ==> RevisionIs(store, spec.parent, k, parent)
      ensures if !found then
                PipelineAt(id, name, at, spec, copy,
                           SaveStatus(name, at, copy, copy.status.(phase := Failed), Rejected, ThenReturn))
              else if !parent.phase.Complete? then id !in procs
              else
                PipelineAt(id, name, at, spec, copy,
                           if copy.status.parentVersion == "" then
                             SaveStatus(name, at, copy, copy.status.(parentVersion := parent.version), ParentVersionCaptured, ThenBase)
                           else OnBase(name, spec, at, copy))
    {
      hide Reachable, Grows, Applicable, Apply, ProcValid, OnBase;
      Known();
      ProcKnown(mode, Now(), id);
      Unchanged(store);
      var place;
      found, place, parent := LookupPipeline(spec.parent);
      k := place;
      PipelineTaken(Now(), id, ReadParent(id, if found then Some(k) else None));
      Record(Now(), ReadParent(id, if found then Some(k) else None));
    }

    method LookupPipeline(name: string) returns (found: bool, k: nat, status: PipelineStatus)
      requires Reached()
      ensures found <==> name in store.pipelines
      ensures found ==> k + 1 == |store.pipelines[name].revisions| && status == store.pipelines[name].revisions[k].status
    {
      hide Reachable;
      Known();
      StoreKnown(mode, Now());
      found, k, status := name in store.pipelines, 0, FRESH_STATUS;
      if found {
        k := |store.pipelines[name].revisions| - 1;
        status := store.pipelines[name].revisions[k].status;
      }
    }

    /** The parent whose claim the pipeline works on. */
    method GetParentClaim(id: nat, ghost name: string, ghost at: nat, spec: PipelineSpec, ghost copy: PipelineRevision)
      returns (found: bool, ghost k: nat, parent: PipelineStatus)
      requires Reached() && PipelineAt(id, name, at, spec, copy, AtParentClaim)
      modifies this
      ensures Reached() && Grows(old(store), store)
      ensures Added(old(log), id, [Called(ReadParent(id, if found then Some(k) else None))])
      ensures found ==> RevisionIs(store, spec.parent, k, parent)
      ensures if !found then id !in procs
              else PipelineAt(id, name, at, spec, copy, OnClaimKnown(name, at, copy,
                                if parent.claim != "" then parent.claim else OwnClaim(spec.parent)))
    {
      hide Reachable, Grows, Applicable, Apply, ProcValid, OnClaimKnown;
      Known();
      ProcKnown(mode, Now(), id);
      Unchanged(store);
      var place;
      found, place, parent := LookupPipeline(spec.parent);
      k := place;
      PipelineTaken(Now(), id, ReadParent(id, if found then Some(k) else None));
      Record(Now(), ReadParent(id, if found then Some(k) else None));
    }

    /** generateVersion */
    method NewVersion(id: nat, ghost name: string, ghost at: nat, ghost spec: PipelineSpec, ghost copy: PipelineRevision)
      returns (version: string)
      requires Reached() && PipelineAt(id, name, at, spec, copy, AtVersion)
      modifies this
      ensures Reached() && Grows(old(store), store)
      ensures Added(old(log), id, [Called(PickVersion(id, version))])
      ensures version != ""
      ensures PipelineAt(id, name, at, spec, copy,
                         SaveStatus(name, at, copy, copy.status.(version := version), VersionAssigned, ThenClaim))
    {
      hide Reachable, Grows, Applicable, Apply, ProcValid;
      Known();
      ProcKnown(mode, Now(), id);
      Unchanged(store);
      version :| version != "" by { assert "v" != "" by { assert |"v"| == 1; } }
      PipelineTaken(Now(), id, PickVersion(id, version));
      Record(Now(), PickVersion(id, version));
    }

    /** The platform that may manage a signing configuration; `applied` says that the pipeline has one. The reconcile ends
        while a managed one is still to be applied. */
    method FindPlatformForSigning(id: nat, ghost name: string, ghost at: nat, ghost spec: PipelineSpec,
                                  ghost copy: PipelineRevision, applied: bool)
      returns (found: bool, ghost k: nat, managed: bool)
      requires Reached() && PipelineAt(id, name, at, spec, copy, AtSigning)
      modifies this
      ensures Reached() && Grows(old(store), store)
      ensures Added(old(log), id, [Called(CheckSigning(id, if found then Some(k) else None, found && managed && !applied))])
      ensures found ==> k < |store.platform|
      ensures if found && managed && !applied then id !in procs else PipelineAt(id, name, at, spec, copy, AtCreate)
    {
      hide Reachable, Grows, Applicable, Apply, ProcValid;
      Known();
      ProcKnown(mode, Now(), id);
      Unchanged(store);
      var place, platform, time;
      found, place, platform, time := LookupPlatform();
      k := place;
      managed := *;
      PipelineTaken(Now(), id, CheckSigning(id, if found then Some(k) else None, found && managed && !applied));
      Record(Now(), CheckSigning(id, if found then Some(k) else None, found && managed && !applied));
    }

    /** The created run gets a name no run had before. */
    method CreateRun(id: nat, ghost name: string, ghost at: nat, ghost spec: PipelineSpec, ghost copy: PipelineRevision,
                     pipeline: string, claim: string) returns (run: string)
      requires Reached() && PipelineAt(id, name, at, spec, copy, AtCreate) && pipeline == name && claim == copy.status.claim
      modifies this
      ensures Reached() && Grows(old(store), store)
      ensures Added(old(log), id, [Called(Protocol.CreateRun(id, run))])
      ensures run !in old(store).runs && RunIs(store, run, OfPipeline(name), copy.status.claim)
      ensures PipelineAt(id, name, at, spec, copy, AtAdopt(run))
    {
      hide Reachable, Grows, Applicable, Apply, ProcValid;
      Known();
      ProcKnown(mode, Now(), id);
      ghost var before := Now();
      run := FreshName();
      store := store.(runs := store.runs[run := Run(OfPipeline(pipeline), claim, Waiting, false)]);
      PipelineTaken(before, id, Protocol.CreateRun(id, run));
      Record(before, Protocol.CreateRun(id, run));
      SeenKept(before.store, store, spec.parent, before.procs[id].seen);
    }

    method FreshName() returns (run: string)
      ensures run !in store.runs && run != ""
    {
      var taken := store.runs.Keys;
      run := "x";
      while run in taken
        invariant run != ""
        invariant forall r :: r in store.runs && |r| >= |run| ==> r in taken
        decreases |taken|
      {
        taken := taken - {run};
        run := run + "x";
      }
    }

    /** The pipeline read again after its run was created. */
    method GetLatest(id: nat, name: string, ghost at: nat, ghost spec: PipelineSpec, ghost copy: PipelineRevision,
                     ghost run: string) returns (k: nat, latest: PipelineRevision)
      requires Reached() && PipelineAt(id, name, at, spec, copy, AtAdopt(run))
      modifies this
      ensures Reached() && Grows(old(store), store)
      ensures Added(old(log), id, [Called(ReadLatest(id, k))])
      ensures name in store.pipelines && k < |store.pipelines[name].revisions| && latest == store.pipelines[name].revisions[k]
      ensures PipelineAt(id, name, at, spec, copy,
                         if latest.status.runRef != "" && latest.status.runRef != run then AtDuplicate(run)
                         else SaveStatus(name, k, latest, latest.status.(runRef := run, phase := Pending), RunAdopted, ThenReturn))
    {
      hide Reachable, Grows, Applicable, Apply, ProcValid;
      Known();
      ProcKnown(mode, Now(), id);
      StoreKnown(mode, Now());
      Unchanged(store);
      k := |store.pipelines[name].revisions| - 1;
      latest := store.pipelines[name].revisions[k];
      PipelineTaken(Now(), id, ReadLatest(id, k));
      Record(Now(), ReadLatest(id, k));
    }

    method DeleteDuplicateRun(id: nat, ghost name: string, ghost at: nat, ghost spec: PipelineSpec,
                              ghost copy: PipelineRevision, run: string)
      requires Reached() && PipelineAt(id, name, at, spec, copy, AtDuplicate(run))
      modifies this
      ensures Reached() && Grows(old(store), store) && id !in procs
      ensures run in old(store).runs ==> run in store.runs && store.runs[run].deleted
      ensures Added(old(log), id, [Called(DeleteDuplicate(id))])
    {
      hide Reachable, Grows, Applicable, Apply, ProcValid;
      Known();
      ProcKnown(mode, Now(), id);
      ghost var before := Now();
      store := Discard(store, run);
      PipelineTaken(before, id, DeleteDuplicate(id));
      Record(before, DeleteDuplicate(id));
    }

    // -------------------------------------------------------------- imports

    method GetImport(id: nat, name: string) returns (found: bool, at: nat, spec: ImportSpec, copy: ImportStatus)
      requires Reached() && id !in procs
      modifies this
      ensures Reached() && Grows(old(store), store)
      ensures name in old(store).imports ==> found
      ensures Added(old(log), id, if found then [Called(BeginImport(id, name, at))] else [])
      ensures if found && OnImportRead(name, spec, at, copy).Some?
              then ImportAt(id, name, at, spec, copy, OnImportRead(name, spec, at, copy).value) else id !in procs
    {
      hide Reachable, Grows, OnImportRead;
      found, at, spec, copy := false, 0, ImportSpec("", 0, ""), ImportStatus(NotStarted, "");
      Unchanged(store);
      assert Own(log, id) == Own(log, id) + [];
      if name in store.imports {
        Known();
        StoreKnown(mode, Now());
        found, at, spec := true, |store.imports[name].revisions| - 1, store.imports[name].spec;
        copy := store.imports[name].revisions[at];
        Record(Now(), BeginImport(id, name, at));
      }
    }

    /** Status().Update of the import or, at the end, of the platform. */
    method UpdateImport(id: nat, ghost name: string, ghost at: nat, ghost spec: ImportSpec, ghost copy: ImportStatus,
                        w: Write, ghost next: ImportNext) returns (accepted: bool)
      requires Reached() && ImportAt(id, name, at, spec, copy, ImportWriting(w, next))
      requires next.ThenAppend? ==> w.WriteImport?
      modifies this
      ensures Reached() && Grows(old(store), store)
      ensures Added(old(log), id, [Sent(id, w, accepted)])
      ensures if accepted && next.ThenAppend? then ImportAt(id, name, w.base + 1, spec, w.status, AtAppend) else id !in procs
    {
      hide Reachable, Grows, Applicable, Apply;
      Known();
      ProcKnown(mode, Now(), id);
      ghost var before := Now();
      accepted := Accepts(store, w);
      store := Settle(store, w);
      ImportTaken(before, id, Commit(id));
      Record(before, Commit(id));
    }

    /** The platform whose history is searched before an import starts. */
    method FindPlatformForCheck(id: nat, ghost name: string, ghost at: nat, ghost spec: ImportSpec, ghost copy: ImportStatus)
      returns (found: bool, ghost k: nat, platform: PlatformRevision, ghost now: nat)
      requires Reached() && ImportAt(id, name, at, spec, copy, AtVersionCheck)
      modifies this
      ensures Reached() && Grows(old(store), store)
      ensures Added(old(log), id, [Called(ReadPlatform(id, if found then Some(k) else None, now))])
      ensures found ==> k < |store.platform| && platform == store.platform[k]
      ensures var listed := found && VersionListed(platform.imports, spec.collectionVersion);
              ImportAt(id, name, at, spec, copy, ImportWriting(
                WriteImport(name, at, copy.(phase := if listed then ImportFailed else Importing)), ThenEnd))
    {
      hide Reachable, Grows, Applicable, Apply, ProcValid;
      Known();
      ProcKnown(mode, Now(), id);
      Unchanged(store);
      var place, time;
      found, place, platform, time := LookupPlatform();
      k, now := place, time;
      ImportTaken(Now(), id, ReadPlatform(id, if found then Some(k) else None, now));
      Record(Now(), ReadPlatform(id, if found then Some(k) else None, now));
    }

    /** The platform a finished import is entered into. */
    method FindPlatformForImport(id: nat, ghost name: string, ghost at: nat, ghost spec: ImportSpec, ghost copy: ImportStatus)
      returns (found: bool, k: nat, platform: PlatformRevision, now: nat)
      requires Reached() && ImportAt(id, name, at, spec, copy, AtAppend)
      modifies this
      ensures Reached() && Grows(old(store), store)
      ensures Added(old(log), id, [Called(ReadPlatform(id, if found then Some(k) else None, now))])
      ensures found ==> k < |store.platform| && platform == store.platform[k]
      ensures if found then
                ImportAt(id, name, at, spec, copy, ImportWriting(
                  WritePlatform(k, ImportAppendedRevision(platform, name, AppendedVersion(name, spec), now)), ThenEnd))
              else id !in procs
    {
      hide Reachable, Grows, Applicable, Apply, ProcValid;
      Known();
      ProcKnown(mode, Now(), id);
      Unchanged(store);
      found, k, platform, now := LookupPlatform();
      ImportTaken(Now(), id, ReadPlatform(id, if found then Some(k) else None, now));
      Record(Now(), ReadPlatform(id, if found then Some(k) else None, now));
    }

    /** The run an import names. An unfinished one ends the reconcile. */
    method GetImportRun(id: nat, ghost name: string, ghost at: nat, ghost spec: ImportSpec, ghost copy: ImportStatus,
                        run: string) returns (observed: Option<Stage>)
      requires Reached() && ImportAt(id, name, at, spec, copy, AtImportRun) && run == copy.runRef
      modifies this
      ensures Reached() && Grows(old(store), store)
      ensures Added(old(log), id, [Called(TrackRun(id, observed))])
      ensures if observed.Some? && !observed.value.Completed? then id !in procs
              else ImportAt(id, name, at, spec, copy, ImportWriting(WriteImport(name, at,
                     if observed.None? then copy.(runRef := "")
                     else copy.(phase := if observed.value.succeeded then Publishing else ImportFailed)), ThenEnd))
    {
      hide Reachable, Grows, Applicable, Apply, ProcValid;
      Known();
      ProcKnown(mode, Now(), id);
      Unchanged(store);
      observed := LookupRun(run);
      ImportTaken(Now(), id, TrackRun(id, observed));
      Record(Now(), TrackRun(id, observed));
    }

    method CreateImportRun(id: nat, name: string, ghost at: nat, ghost spec: ImportSpec, ghost copy: ImportStatus)
      returns (run: string)
      requires Reached() && ImportAt(id, name, at, spec, copy, AtImportCreate)
      modifies this
      ensures Reached() && Grows(old(store), store)
      ensures Added(old(log), id, [Called(Protocol.CreateRun(id, run))])
      ensures run !in old(store).runs && RunIs(store, run, OfImport(name), "")
      ensures ImportAt(id, name, at, spec, copy, AtImportAdopt(run))
    {
      hide Reachable, Grows, Applicable, Apply, ProcValid;
      Known();
      ProcKnown(mode, Now(), id);
      ghost var before := Now();
      run := FreshName();
      store := store.(runs := store.runs[run := Run(OfImport(name), "", Waiting, false)]);
      ImportTaken(before, id, Protocol.CreateRun(id, run));
      Record(before, Protocol.CreateRun(id, run));
    }

    method GetLatestImport(id: nat, name: string, ghost at: nat, ghost spec: ImportSpec, ghost copy: ImportStatus,
                           ghost run: string) returns (k: nat, latest: ImportStatus)
      requires Reached() && ImportAt(id, name, at, spec, copy, AtImportAdopt(run))
      modifies this
      ensures Reached() && Grows(old(store), store)
      ensures Added(old(log), id, [Called(ReadLatest(id, k))])
      ensures name in store.imports && k < |store.imports[name].revisions| && latest == store.imports[name].revisions[k]
      ensures ImportAt(id, name, at, spec, copy,
                       if latest.runRef != "" && latest.runRef != run then AtImportDuplicate(run)
                       else ImportWriting(WriteImport(name, k, latest.(runRef := run)), ThenEnd))
    {
      hide Reachable, Grows, Applicable, Apply, ProcValid;
      Known();
      ProcKnown(mode, Now(), id);
      StoreKnown(mode, Now());
      Unchanged(store);
      k := |store.imports[name].revisions| - 1;
      latest := store.imports[name].revisions[k];
      ImportTaken(Now(), id, ReadLatest(id, k));
      Record(Now(), ReadLatest(id, k));
    }

    method DeleteDuplicateImportRun(id: nat, ghost name: string, ghost at: nat, ghost spec: ImportSpec,
                                    ghost copy: ImportStatus, run: string)
      requires Reached() && ImportAt(id, name, at, spec, copy, AtImportDuplicate(run))
      modifies this
      ensures Reached() && Grows(old(store), store) && id !in procs
      ensures run in old(store).runs ==> run in store.runs && store.runs[run].deleted
      ensures Added(old(log), id, [Called(DeleteDuplicate(id))])
    {
      hide Reachable, Grows, Applicable, Apply, ProcValid;
      Known();
      ProcKnown(mode, Now(), id);
      ghost var before := Now();
      store := Discard(store, run);
      ImportTaken(before, id, DeleteDuplicate(id));
      Record(before, DeleteDuplicate(id));
    }

    // -------------------------------------------------------------- the platform

    method GetPlatform(id: nat) returns (found: bool, at: nat, copy: PlatformRevision)
      requires Reached() && id !in procs
      modifies this
      ensures Reached() && Grows(old(store), store)
      ensures |old(store).platform| > 0 ==> found
      ensures found ==> at < |store.platform| && copy == store.platform[at]
      ensures Added(old(log), id, if found then [Called(BeginPlatform(id, at))] else [])
      ensures if found then PlatformAt(id, at, copy, AtPipelineList) else id !in procs
    {
      hide Reachable, Grows;
      Unchanged(store);
      assert Own(log, id) == Own(log, id) + [];
      var now;
      found, at, copy, now := LookupPlatform();
      if found { Record(Now(), BeginPlatform(id, at)); }
    }

    /** The pipelines in any order, with their statuses. */
    method ListPipelines(id: nat, ghost at: nat, ghost copy: PlatformRevision)
      returns (list: seq<Listed>, items: seq<PipelineStatus>, now: nat)
      requires Reached() && PlatformAt(id, at, copy, AtPipelineList)
      modifies this
      ensures Reached() && Grows(old(store), store)
      ensures Added(old(log), id, [Called(Protocol.ListPipelines(id, list, now))])
      ensures ValidPipelineList(store.pipelines, list) && PipelineItems(store.pipelines, list, items)
      ensures PlatformAt(id, at, copy, AtImportList(CollectVersions(store.pipelines, list, now), list, now))
    {
      hide Reachable, Grows, Applicable, Apply, ProcValid, CollectVersions;
      Known();
      ProcKnown(mode, Now(), id);
      StoreKnown(mode, Now());
      Unchanged(store);
      now := *;
      list, items := AllPipelines();
      PlatformTaken(Now(), id, Protocol.ListPipelines(id, list, now));
      Record(Now(), Protocol.ListPipelines(id, list, now));
    }

    method AllPipelines() returns (list: seq<Listed>, items: seq<PipelineStatus>)
      requires forall n :: n in store.pipelines ==> |store.pipelines[n].revisions| > 0
      ensures ValidPipelineList(store.pipelines, list) && PipelineItems(store.pipelines, list, items)
      ensures ListsAllPipelines(store, list)
    {
      var names := Ordered(store.pipelines.Keys);
      list, items := [], [];
      for i := 0 to |names|
        invariant |list| == i && |items| == i
        invariant forall k :: 0 <= k < i ==>
                    list[k] == Listed(names[k], |store.pipelines[names[k]].revisions| - 1) && items[k] == Last(store.pipelines[names[k]].revisions).status
      {
        var at := |store.pipelines[names[i]].revisions| - 1;
        list, items := list + [Listed(names[i], at)], items + [store.pipelines[names[i]].revisions[at].status];
      }
      forall n | n in store.pipelines ensures exists k :: 0 <= k < |list| && list[k].name == n {
        var k :| 0 <= k < |names| && names[k] == n;
        assert list[k].name == n;
      }
    }

    /** The imports in any order, with their names, specs and statuses. */
    method ListImports(id: nat, ghost at: nat, ghost copy: PlatformRevision, ghost collections: seq<Info>,
                       ghost pipelines: seq<Listed>, ghost now: nat)
      returns (list: seq<Listed>, items: seq<(ImportSpec, ImportStatus)>)
      requires Reached() && PlatformAt(id, at, copy, AtImportList(collections, pipelines, now))
      modifies this
      ensures Reached() && Grows(old(store), store)
      ensures Added(old(log), id, [Called(Protocol.ListImports(id, list))])
      ensures ValidImportList(store.imports, list) && ImportItems(store.imports, list, items)
      ensures ImportersListed(store.imports, list)
      ensures var importers := Importers(store.imports, list);
              PlatformAt(id, at, copy, PlatformWriting(WritePlatform(at,
                AggregatedRevision(copy, collections, ImportInfos(store.imports, importers), importers, pipelines, now, list))))
    {
      hide Reachable, Grows, Applicable, Apply, ProcValid, Importers, ImportInfos, AggregatedRevision;
      Known();
      ProcKnown(mode, Now(), id);
      StoreKnown(mode, Now());
      Unchanged(store);
      list, items := AllImports();
      ImportersKnown(store.imports, list);
      PlatformTaken(Now(), id, Protocol.ListImports(id, list));
      Record(Now(), Protocol.ListImports(id, list));
    }

    method AllImports() returns (list: seq<Listed>, items: seq<(ImportSpec, ImportStatus)>)
      requires forall n :: n in store.imports ==> |store.imports[n].revisions| > 0
      ensures ValidImportList(store.imports, list) && ImportItems(store.imports, list, items)
      ensures ListsAllImports(store, list)
    {
      var names := Ordered(store.imports.Keys);
      list, items := [], [];
      for i := 0 to |names|
        invariant |list| == i && |items| == i
        invariant forall k :: 0 <= k < i ==>
                    list[k] == Listed(names[k], |store.imports[names[k]].revisions| - 1) && items[k] == (store.imports[names[k]].spec, Last(store.imports[names[k]].revisions))
      {
        var at := |store.imports[names[i]].revisions| - 1;
        list, items := list + [Listed(names[i], at)], items + [(store.imports[names[i]].spec, store.imports[names[i]].revisions[at])];
      }
      forall n | n in store.imports ensures exists k :: 0 <= k < |list| && list[k].name == n {
        var k :| 0 <= k < |names| && names[k] == n;
        assert list[k].name == n;
      }
    }

    /** The guarded Status().Update at the end of the platform reconcile. */
    method UpdatePlatform(id: nat, ghost at: nat, ghost copy: PlatformRevision, w: Write) returns (accepted: bool)
      requires Reached() && PlatformAt(id, at, copy, PlatformWriting(w))
      modifies this
      ensures Reached() && Grows(old(store), store) && id !in procs
      ensures Added(old(log), id, [Sent(id, w, accepted)])
      ensures accepted ==> w.WritePlatform? && w.base + 1 < |store.platform| && store.platform[w.base + 1] == w.platform
    {
      hide Reachable, Grows, Applicable, Apply;
      Known();
      ProcKnown(mode, Now(), id);
      ghost var before := Now();
      accepted := Accepts(store, w);
      store := Settle(store, w);
      PlatformTaken(before, id, Commit(id));
      Record(before, Commit(id));
    }

    /** No update is made when nothing changed. */
    method SkipStatusUpdate(id: nat, ghost at: nat, ghost copy: PlatformRevision, ghost w: Write)
      requires Reached() && PlatformAt(id, at, copy, PlatformWriting(w))
      requires w.WritePlatform? && w.base == at && w.platform == copy.(event := w.platform.event)
      modifies this
      ensures Reached() && Grows(old(store), store) && id !in procs
      ensures Added(old(log), id, [Called(SkipUpdate(id))])
    {
      hide Reachable, Grows, Applicable, Apply;
      Known();
      ProcKnown(mode, Now(), id);
      Unchanged(store);
      PlatformTaken(Now(), id, SkipUpdate(id));
      Record(Now(), SkipUpdate(id));
    }

    static lemma RoomAt(store: Store, claim: string, size: nat, k: nat)
      requires claim in store.volumes && k < |store.volumes[claim].sizes| && store.volumes[claim].sizes[k] >= size
      ensures HasRoom(store, claim, size)
    {
    }

    /** The claim exists and some request of it, so every later one too, is at least the size. */
    static ghost predicate HasRoom(store: Store, claim: string, size: nat) {
      claim in store.volumes && exists k :: 0 <= k < |store.volumes[claim].sizes| && store.volumes[claim].sizes[k] >= size
    }

    static ghost predicate RevisionIs(store: Store, name: string, k: nat, status: PipelineStatus) {
      name in store.pipelines && k < |store.pipelines[name].revisions| && store.pipelines[name].revisions[k].status == status
    }

    /** A run that was created for this owner, on this claim. */
    static ghost predicate RunIs(store: Store, run: string, owner: Owner, claim: string) {
      run in store.runs && store.runs[run].owner == owner && store.runs[run].claim == claim
    }

    static ghost predicate PipelineItems(pipelines: map<string, Pipeline>, list: seq<Listed>, items: seq<PipelineStatus>)
      requires ValidPipelineList(pipelines, list)
    {
      |items| == |list| && forall k :: 0 <= k < |list| ==> items[k] == pipelines[list[k].name].revisions[list[k].at].status
    }

    static ghost predicate ImportItems(imports: map<string, Import>, list: seq<Listed>, items: seq<(ImportSpec, ImportStatus)>)
      requires ValidImportList(imports, list)
    {
      |items| == |list| && forall k :: 0 <= k < |list| ==>
        items[k] == (imports[list[k].name].spec, imports[list[k].name].revisions[list[k].at])
    }

    static ghost predicate ImportersListed(imports: map<string, Import>, list: seq<Listed>)
      requires ValidImportList(imports, list)
    {
      forall k :: 0 <= k < |Importers(imports, list)| ==> Importers(imports, list)[k] in imports
    }

    static lemma SeenKept(a: Store, b: Store, parent: string, seen: nat)
      requires Grows(a, b)
      ensures parent in a.pipelines && seen < |a.pipelines[parent].revisions| ==>
                parent in b.pipelines && seen < |b.pipelines[parent].revisions|
    {
    }
  }
}
