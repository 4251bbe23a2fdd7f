/** The three reconcilers as they run: straight-line code over the API server, updating their local copies. Verifying
    them means that they only ever make the call that Protocol has next for them, with the write that Protocol prepared,
    whatever happens between two calls. Each contract says which calls were made, in terms of Programs, as the reconcile's
    own part of the server's log; so everything proved of Protocol's runs is proved of them. */
module Controllers {
  import opened Objects
  import opened Reconcilers
  import opened Protocol
  import opened Invariants
  import opened ApiServer
  import opened Programs

  // ---------------------------------------------------------------- CollectionPipeline

  /** The trigger annotation on a finished collection: first it is removed, then the status is reset. */
  method Restart(api: Server, id: nat, name: string, base: nat, spec: PipelineSpec, copy: PipelineRevision)
    returns (ghost part: seq<Event>)
    requires api.Reached() && copy.trigger && Restartable(copy.status)
    requires api.PipelineAt(id, name, base, spec, copy, OnRead(name, spec, base, copy))
    modifies api
    ensures api.Reached() && id !in api.procs && api.Added(old(api.log), id, part) && Continues(part, id)
    ensures Restarted(part, id, name, base, copy)
    ensures Grows(old(api.store), api.store)
  {
    hide Grows, Own, IsLog, StateOf, Continues, Server.PipelineAt, Server.Reached;
    var at, pipeline := base, copy.(trigger := false, event := TriggerRemoved);
    var removed := api.Update(id, name, at, spec, copy, WritePipeline(name, at, pipeline), ThenReset);
    part := [Sent(id, WritePipeline(name, at, pipeline), removed)];
    First(api, old(api.log), id, part[0]);
    if !removed { return; }
    at := at + 1;
    ghost var was, between, store := pipeline, api.log, api.store;
    pipeline := PipelineRevision(pipeline.trigger, pipeline.status.(runRef := "", version := "", phase := Unset), StatusReset);
    var reset := api.Update(id, name, at, spec, was, WritePipeline(name, at, pipeline), ThenReturn);
    Then(api, old(api.log), between, id, part, Sent(id, WritePipeline(name, at, pipeline), reset));
    part := part + [Sent(id, WritePipeline(name, at, pipeline), reset)];
    GrowsTwice(old(api.store), store, api.store);
  }

  /** The expansion that happens whatever state the pipeline is in. */
  method ExpandClaimEarly(api: Server, id: nat, name: string, ghost at: nat, spec: PipelineSpec, copy: PipelineRevision)
    returns (ok: bool, ghost part: seq<Event>, ghost size: nat)
    requires api.Reached() && api.PipelineAt(id, name, at, spec, copy, AtExpand) && spec.size.Some?
    modifies api
    ensures api.Reached() && api.Added(old(api.log), id, part) && Continues(part, id)
    ensures if ok then api.PipelineAt(id, name, at, spec, copy, OnReference(name, spec, at, copy)) else id !in api.procs
    ensures Grown(api.store, part, id, ExpandClaim(name, spec, copy.status), spec.size.value, size, ok) && (|part| == 1 ==> ok)
    ensures Grows(old(api.store), api.store)
  {
    hide Grows, Own, IsLog, StateOf, Continues, Server.PipelineAt, Server.Reached, OnReference, SizeIs;
    var pvcName := copy.status.claim;
    if pvcName == "" {
      if spec.parent != "" {
        pvcName := "collection-storage-" + spec.parent;
      } else if spec.incremental && spec.baseVersion != "" {
        pvcName := "collection-storage-" + spec.baseVersion;
      } else {
        pvcName := "collection-storage-" + name;
      }
    }
    var desiredSize := spec.size.value;
    var found, k, currentSize := api.GetClaim(id, name, at, spec, copy, pvcName, desiredSize);
    ok, size := true, currentSize;
    part := [Called(ReadVolume(id, if found then Some(k) else None))];
    First(api, old(api.log), id, part[0]);
    ghost var between, store := api.log, api.store;
    if found { SizeRead(store, pvcName, k, currentSize); }
    if found && desiredSize > currentSize {
      ok := api.Update(id, name, at, spec, copy, WriteVolume(pvcName, k, desiredSize), ThenReference);
      Then(api, old(api.log), between, id, part, Sent(id, WriteVolume(pvcName, k, desiredSize), ok));
      part := part + [Sent(id, WriteVolume(pvcName, k, desiredSize), ok)];
      SizeKept(store, api.store, pvcName, k, currentSize);
      GrowsTwice(old(api.store), store, api.store);
    }
  }

  method UpdatePlatformCollectionHistory(api: Server, id: nat, name: string, ghost at: nat, ghost spec: PipelineSpec,
                                         pipeline: PipelineRevision) returns (ghost part: seq<Event>)
    requires api.Reached() && api.PipelineAt(id, name, at, spec, pipeline, AtHistory)
    modifies api
    ensures api.Reached() && id !in api.procs && api.Added(old(api.log), id, part) && Continues(part, id)
    ensures CollectionEntered(api.store, part, id, name, pipeline.status.version)
    ensures Grows(old(api.store), api.store)
  {
    hide Grows, Own, IsLog, StateOf, Continues, Server.PipelineAt, Server.Reached;
    var found, k, platform, now := api.FindPlatformForHistory(id, name, at, spec, pipeline);
    part := [Called(ReadPlatform(id, if found then Some(k) else None, now))];
    First(api, old(api.log), id, part[0]);
    if !found { return; }
    var info := Info(pipeline.status.version, now);
    platform := platform.(lastCollection := Some(info));
    platform := platform.(collections := platform.collections + [info]);
    platform := platform.(event := CollectionAppended(name));
    ghost var between, store := api.log, api.store;
    var updated := api.Update(id, name, at, spec, pipeline, WritePlatform(k, platform), ThenReturn);
    Then(api, old(api.log), between, id, part, Sent(id, WritePlatform(k, platform), updated));
    part := part + [Sent(id, WritePlatform(k, platform), updated)];
    PlatformKept(store, api.store, k);
    GrowsTwice(old(api.store), store, api.store);
  }

  method TrackPipelineRun(api: Server, id: nat, name: string, at: nat, spec: PipelineSpec, copy: PipelineRevision)
    returns (ghost part: seq<Event>)
    requires api.Reached() && api.PipelineAt(id, name, at, spec, copy, AtTrack)
    modifies api
    ensures api.Reached() && id !in api.procs && api.Added(old(api.log), id, part) && Continues(part, id)
    ensures RunTracked(api.store, part, id, name, at, copy)
    ensures Grows(old(api.store), api.store)
  {
    hide Grows, Own, IsLog, StateOf, Continues, Server.PipelineAt, Server.Reached, CollectionEntered;
    var observed := api.GetTrackedRun(id, name, at, spec, copy, copy.status.runRef);
    part := [Called(TrackRun(id, observed))];
    First(api, old(api.log), id, part[0]);
    ghost var between, store := api.log, api.store;
    var status := copy.status;
    if observed.None? {
      status := status.(runRef := "", phase := Phase.Stale);
      var write := WritePipeline(name, at, PipelineRevision(copy.trigger, status, MarkedStale));
      var marked := api.Update(id, name, at, spec, copy, write, ThenReturn);
      Then(api, old(api.log), between, id, part, Sent(id, write, marked));
      part := part + [Sent(id, write, marked)];
      GrowsTwice(old(api.store), store, api.store);
      return;
    }
    var phase := RunPhase(observed.value);
    status := status.(phase := phase);
    var pipeline := PipelineRevision(copy.trigger, status, PipelineEvent.Tracked);
    var updated := api.Update(id, name, at, spec, copy, WritePipeline(name, at, pipeline),
                              if phase.Complete? then ThenHistory else ThenReturn);
    Then(api, old(api.log), between, id, part, Sent(id, WritePipeline(name, at, pipeline), updated));
    part := part + [Sent(id, WritePipeline(name, at, pipeline), updated)];
    GrowsTwice(old(api.store), store, api.store);
    if updated && phase.Complete? {
      between, store := api.log, api.store;
      ghost var rest := UpdatePlatformCollectionHistory(api, id, name, at + 1, spec, pipeline);
      Extend(api, old(api.log), between, id, part, rest);
      part := part + rest;
      GrowsTwice(old(api.store), store, api.store);
    }
  }

  method RecreateOrTrack(api: Server, id: nat, name: string, at: nat, spec: PipelineSpec, copy: PipelineRevision)
    returns (ghost part: seq<Event>)
    requires api.Reached() && api.PipelineAt(id, name, at, spec, copy, AtRun)
    modifies api
    ensures api.Reached() && id !in api.procs && api.Added(old(api.log), id, part) && Continues(part, id)
    ensures RecreatedOrTracked(api.store, part, id, name, at, copy)
    ensures Grows(old(api.store), api.store)
  {
    hide Grows, Own, IsLog, StateOf, Continues, Server.PipelineAt, Server.Reached, RunTracked;
    var observed, outdated := api.GetRun(id, name, at, spec, copy, copy.status.runRef);
    part := [Called(ReadRun(id, observed, outdated))];
    First(api, old(api.log), id, part[0]);
    ghost var between, store := api.log, api.store;
    if observed == Some(Waiting) && outdated {
      api.DeleteRun(id, name, at, spec, copy, copy.status.runRef);
      Then(api, old(api.log), between, id, part, Called(DropRun(id)));
      part := part + [Called(DropRun(id))];
      GrowsTwice(old(api.store), store, api.store);
      between, store := api.log, api.store;
      var status := copy.status.(runRef := "", phase := Unset);
      var write := WritePipeline(name, at, PipelineRevision(copy.trigger, status, RunDropped));
      var dropped := api.Update(id, name, at, spec, copy, write, ThenReturn);
      Then(api, old(api.log), between, id, part, Sent(id, write, dropped));
      part := part + [Sent(id, write, dropped)];
      DeletionKept(store, api.store, copy.status.runRef);
      GrowsTwice(old(api.store), store, api.store);
      return;
    }
    ghost var rest := TrackPipelineRun(api, id, name, at, spec, copy);
    Extend(api, old(api.log), between, id, part, rest);
    part := part + rest;
    GrowsTwice(old(api.store), store, api.store);
  }

  /** The parent must exist and be complete; its version is captured once. */
  method CheckParent(api: Server, id: nat, name: string, base: nat, spec: PipelineSpec, copy: PipelineRevision)
    returns (ok: bool, at: nat, pipeline: PipelineRevision, ghost part: seq<Event>)
    requires api.Reached() && api.PipelineAt(id, name, base, spec, copy, AtParent)
    modifies api
    ensures api.Reached() && api.Added(old(api.log), id, part) && Continues(part, id)
    ensures if ok then api.PipelineAt(id, name, at, spec, pipeline, OnBase(name, spec, at, pipeline)) else id !in api.procs
    ensures ParentChecked(api.store, part, id, name, spec, base, copy, ok, at, pipeline)
    ensures Grows(old(api.store), api.store)
  {
    hide Grows, Own, IsLog, StateOf, Continues, Server.PipelineAt, Server.Reached, OnBase;
    at, pipeline := base, copy;
    var found;
    ghost var k;
    var parent;
    found, k, parent := api.GetParent(id, name, at, spec, pipeline);
    part := [Called(ReadParent(id, if found then Some(k) else None))];
    First(api, old(api.log), id, part[0]);
    ghost var between, store := api.log, api.store;
    if !found {
      var status := pipeline.status.(phase := Failed);
      var write := WritePipeline(name, at, PipelineRevision(copy.trigger, status, Rejected));
      var rejected := api.Update(id, name, at, spec, copy, write, ThenReturn);
      Then(api, old(api.log), between, id, part, Sent(id, write, rejected));
      part := part + [Sent(id, write, rejected)];
      GrowsTwice(old(api.store), store, api.store);
      ok := false;
      return;
    }
    ok := parent.phase.Complete?;
    if !ok { return; }
    if pipeline.status.parentVersion == "" {
      var status := pipeline.status.(parentVersion := parent.version);
      pipeline := PipelineRevision(copy.trigger, status, ParentVersionCaptured);
      ok := api.Update(id, name, at, spec, copy, WritePipeline(name, at, pipeline), ThenBase);
      Then(api, old(api.log), between, id, part, Sent(id, WritePipeline(name, at, pipeline), ok));
      part := part + [Sent(id, WritePipeline(name, at, pipeline), ok)];
      at := at + 1;
      RevisionKept(store, api.store, spec.parent, k);
      GrowsTwice(old(api.store), store, api.store);
    }
  }

  method VersionExists(history: seq<Info>, version: string) returns (found: bool)
    ensures found <==> VersionListed(history, version)
  {
    for i := 0 to |history|
      invariant forall k :: 0 <= k < i ==> history[k].version != version
    {
      if history[i].version == version { return true; }
    }
    found := false;
  }

  /** The base version of an incremental collection must have been imported. */
  method CheckBaseVersion(api: Server, id: nat, name: string, at: nat, spec: PipelineSpec, copy: PipelineRevision)
    returns (ok: bool, ghost part: seq<Event>)
    requires api.Reached() && api.PipelineAt(id, name, at, spec, copy, AtBase)
    modifies api
    ensures api.Reached() && api.Added(old(api.log), id, part) && Continues(part, id)
    ensures if ok then api.PipelineAt(id, name, at, spec, copy, OnVersion(name, spec, at, copy)) else id !in api.procs
    ensures BaseChecked(api.store, part, id, name, spec, at, copy, ok)
    ensures Grows(old(api.store), api.store)
  {
    hide Grows, Own, IsLog, StateOf, Continues, Server.PipelineAt, Server.Reached, OnVersion, VersionListed;
    var found;
    ghost var k, now;
    var platform;
    found, k, platform, now := api.FindPlatformForBase(id, name, at, spec, copy);
    part := [Called(ReadPlatform(id, if found then Some(k) else None, now))];
    First(api, old(api.log), id, part[0]);
    ghost var between, store := api.log, api.store;
    ok := true;
    if found {
      var imported := VersionExists(platform.imports, spec.baseVersion);
      if !imported {
        var status := copy.status.(phase := Failed);
        var write := WritePipeline(name, at, PipelineRevision(copy.trigger, status, Rejected));
        var rejected := api.Update(id, name, at, spec, copy, write, ThenReturn);
        Then(api, old(api.log), between, id, part, Sent(id, write, rejected));
        part := part + [Sent(id, write, rejected)];
        PlatformKept(store, api.store, k);
        GrowsTwice(old(api.store), store, api.store);
        ok := false;
      }
    }
  }

  method AssignVersion(api: Server, id: nat, name: string, base: nat, spec: PipelineSpec, copy: PipelineRevision)
    returns (ok: bool, at: nat, pipeline: PipelineRevision, ghost part: seq<Event>)
    requires api.Reached() && api.PipelineAt(id, name, base, spec, copy, AtVersion)
    modifies api
    ensures api.Reached() && api.Added(old(api.log), id, part) && Continues(part, id)
    ensures at == base + 1
    ensures if ok then api.PipelineAt(id, name, at, spec, pipeline, OnClaim(name, spec, at, pipeline)) else id !in api.procs
    ensures VersionGiven(part, id, name, base, copy, ok, pipeline)
    ensures Grows(old(api.store), api.store)
  {
    hide Grows, Own, IsLog, StateOf, Continues, Server.PipelineAt, Server.Reached, OnClaim;
    var version := api.NewVersion(id, name, base, spec, copy);
    part := [Called(PickVersion(id, version))];
    First(api, old(api.log), id, part[0]);
    ghost var between, store := api.log, api.store;
    pipeline := PipelineRevision(copy.trigger, copy.status.(version := version), VersionAssigned);
    ok := api.Update(id, name, base, spec, copy, WritePipeline(name, base, pipeline), ThenClaim);
    Then(api, old(api.log), between, id, part, Sent(id, WritePipeline(name, base, pipeline), ok));
    part := part + [Sent(id, WritePipeline(name, base, pipeline), ok)];
    at := base + 1;
    GrowsTwice(old(api.store), store, api.store);
  }

  /** The second half of naming the working claim: the status tracks it. */
  method RecordClaim(api: Server, id: nat, name: string, base: nat, ghost spec: PipelineSpec, copy: PipelineRevision,
                     workingPVCName: string)
    returns (ok: bool, at: nat, pipeline: PipelineRevision, ghost part: seq<Event>)
    requires api.Reached() && api.PipelineAt(id, name, base, spec, copy, OnClaimKnown(name, base, copy, workingPVCName))
    modifies api
    ensures api.Reached() && api.Added(old(api.log), id, part) && Continues(part, id)
    ensures if ok then api.PipelineAt(id, name, at, spec, pipeline, AtVolume) else id !in api.procs
    ensures ClaimRecorded(part, id, name, base, copy, workingPVCName, ok, at, pipeline)
    ensures Grows(old(api.store), api.store)
  {
    hide Grows, Own, IsLog, StateOf, Continues, Server.PipelineAt, Server.Reached;
    Unchanged(api.store);
    ok, at, pipeline, part := true, base, copy, [];
    NoCalls(api, id);
    if pipeline.status.claim != workingPVCName {
      pipeline := PipelineRevision(copy.trigger, copy.status.(claim := workingPVCName), ClaimAssigned);
      ok := api.Update(id, name, at, spec, copy, WritePipeline(name, at, pipeline), ThenVolume);
      part := [Sent(id, WritePipeline(name, at, pipeline), ok)];
      First(api, old(api.log), id, part[0]);
      at := at + 1;
    }
  }

  /** The first half of ensurePVC: the name of the working claim, tracked in the status. */
  method RecordWorkingPVC(api: Server, id: nat, name: string, base: nat, spec: PipelineSpec, copy: PipelineRevision)
    returns (ok: bool, at: nat, pipeline: PipelineRevision, ghost part: seq<Event>)
    requires api.Reached() && api.PipelineAt(id, name, base, spec, copy, OnClaim(name, spec, base, copy))
    modifies api
    ensures api.Reached() && api.Added(old(api.log), id, part) && Continues(part, id)
    ensures if ok then api.PipelineAt(id, name, at, spec, pipeline, AtVolume) else id !in api.procs
    ensures WorkingClaimRecorded(api.store, part, id, name, spec, base, copy, ok, at, pipeline)
    ensures Grows(old(api.store), api.store)
  {
    hide Grows, Own, IsLog, StateOf, Continues, Server.PipelineAt, Server.Reached, OnClaimKnown, ClaimRecorded;
    var workingPVCName: string;
    if spec.parent != "" {
      var found;
      ghost var k;
      var parent;
      found, k, parent := api.GetParentClaim(id, name, base, spec, copy);
      part := [Called(ReadParent(id, if found then Some(k) else None))];
      First(api, old(api.log), id, part[0]);
      ok, at, pipeline := false, base, copy;
      if !found { return; }
      ghost var between, store := api.log, api.store;
      workingPVCName := if parent.claim != "" then parent.claim else "collection-storage-" + spec.parent;
      ghost var rest;
      ok, at, pipeline, rest := RecordClaim(api, id, name, base, spec, copy, workingPVCName);
      Extend(api, old(api.log), between, id, part, rest);
      part := part + rest;
      RevisionKept(store, api.store, spec.parent, k);
      GrowsTwice(old(api.store), store, api.store);
    } else {
      if spec.incremental && spec.baseVersion != "" {
        workingPVCName := "collection-storage-" + spec.baseVersion;
      } else {
        workingPVCName := "collection-storage-" + name;
      }
      ok, at, pipeline, part := RecordClaim(api, id, name, base, spec, copy, workingPVCName);
    }
  }

  /** ensurePVC: the working claim is recorded, exists, and is asked to have the size the pipeline wants. */
  method EnsurePVC(api: Server, id: nat, name: string, base: nat, spec: PipelineSpec, copy: PipelineRevision)
    returns (ok: bool, at: nat, pipeline: PipelineRevision, ghost part: seq<Event>, ghost recorded: seq<Event>, ghost size: nat)
    requires api.Reached() && api.PipelineAt(id, name, base, spec, copy, OnClaim(name, spec, base, copy))
    modifies api
    ensures api.Reached() && api.Added(old(api.log), id, part) && Continues(part, id)
    ensures if ok then api.PipelineAt(id, name, at, spec, pipeline, AtSigning) else id !in api.procs
    ensures ok ==> Server.HasRoom(api.store, pipeline.status.claim, SizeOf(spec))
    ensures recorded <= part
    ensures if |recorded| == |part| then WorkingClaimRecorded(api.store, recorded, id, name, spec, base, copy, false, at, pipeline) && !ok
            else
              && WorkingClaimRecorded(api.store, recorded, id, name, spec, base, copy, true, at, pipeline)
              && Grown(api.store, part[|recorded|..], id, pipeline.status.claim, SizeOf(spec), size, ok)
    ensures Grows(old(api.store), api.store)
  {
    hide Grows, Own, IsLog, StateOf, Continues, Server.PipelineAt, Server.Reached, OnClaim, WorkingClaimRecorded, SizeIs, Server.HasRoom;
    size := 0;
    ok, at, pipeline, part := RecordWorkingPVC(api, id, name, base, spec, copy);
    recorded := part;
    if !ok { return; }
    ghost var between, store := api.log, api.store;
    var workingPVCName := pipeline.status.claim;
    var desiredSize := if spec.size.Some? then spec.size.value else DEFAULT_SIZE;
    var answer, created := api.EnsureClaim(id, name, at, spec, pipeline, workingPVCName, desiredSize);
    ok := answer.Some? || created;
    Then(api, old(api.log), between, id, part, Called(ReadVolume(id, if answer.Some? then Some(answer.value.0) else None)));
    part := part + [Called(ReadVolume(id, if answer.Some? then Some(answer.value.0) else None))];
    WorkingClaimKept(store, api.store, recorded, id, name, spec, base, copy, true, at, pipeline);
    GrowsTwice(old(api.store), store, api.store);
    if answer.Some? {
      size := answer.value.1;
      SizeRead(api.store, workingPVCName, answer.value.0, size);
    }
    if answer.Some? && desiredSize > answer.value.1 {
      between, store := api.log, api.store;
      ok := api.Update(id, name, at, spec, pipeline, WriteVolume(workingPVCName, answer.value.0, desiredSize), ThenCreate);
      Then(api, old(api.log), between, id, part, Sent(id, WriteVolume(workingPVCName, answer.value.0, desiredSize), ok));
      part := part + [Sent(id, WriteVolume(workingPVCName, answer.value.0, desiredSize), ok)];
      WorkingClaimKept(store, api.store, recorded, id, name, spec, base, copy, true, at, pipeline);
      SizeKept(store, api.store, workingPVCName, answer.value.0, size);
      GrowsTwice(old(api.store), store, api.store);
    }
  }

  /** A managed signing configuration must have been applied to the pipeline, where a platform has one. */
  method AwaitSigning(api: Server, id: nat, ghost name: string, ghost at: nat, ghost spec: PipelineSpec, ghost copy: PipelineRevision,
                      applied: bool)
    returns (ok: bool, ghost part: seq<Event>)
    requires api.Reached() && api.PipelineAt(id, name, at, spec, copy, AtSigning)
    modifies api
    ensures api.Reached() && api.Added(old(api.log), id, part) && Continues(part, id)
    ensures if ok then api.PipelineAt(id, name, at, spec, copy, AtCreate) else id !in api.procs
    ensures SigningChecked(api.store, part, id, ok) && (applied ==> ok)
    ensures Grows(old(api.store), api.store)
  {
    hide Grows, Own, IsLog, StateOf, Continues, Server.PipelineAt, Server.Reached;
    var found, managed;
    ghost var k;
    found, k, managed := api.FindPlatformForSigning(id, name, at, spec, copy, applied);
    ok := !(found && managed && !applied);
    part := [Called(CheckSigning(id, if found then Some(k) else None, !ok))];
    First(api, old(api.log), id, part[0]);
  }

  /** Creating the run, and adopting it unless another reconcile has recorded its own by then. */
  method StartRun(api: Server, id: nat, name: string, at: nat, spec: PipelineSpec, copy: PipelineRevision)
    returns (ghost part: seq<Event>)
    requires api.Reached() && api.PipelineAt(id, name, at, spec, copy, AtCreate)
    modifies api
    ensures api.Reached() && id !in api.procs && api.Added(old(api.log), id, part) && Continues(part, id)
    ensures RunStarted(api.store, part, id, name, copy.status.claim)
    ensures Grows(old(api.store), api.store)
  {
    hide Grows, Own, IsLog, StateOf, Continues, Server.PipelineAt, Server.Reached, Server.RunIs;
    var run := api.CreateRun(id, name, at, spec, copy, name, copy.status.claim);
    part := [Called(CreateRun(id, run))];
    First(api, old(api.log), id, part[0]);
    ghost var between, store := api.log, api.store;
    var k, latest := api.GetLatest(id, name, at, spec, copy, run);
    Then(api, old(api.log), between, id, part, Called(ReadLatest(id, k)));
    part := part + [Called(ReadLatest(id, k))];
    RunKept(store, api.store, run, OfPipeline(name), copy.status.claim);
    GrowsTwice(old(api.store), store, api.store);
    between, store := api.log, api.store;
    if latest.status.runRef != "" && latest.status.runRef != run {
      RunThere(store, run, OfPipeline(name), copy.status.claim);
      api.DeleteDuplicateRun(id, name, at, spec, copy, run);
      Then(api, old(api.log), between, id, part, Called(DeleteDuplicate(id)));
      part := part + [Called(DeleteDuplicate(id))];
    } else {
      var status := latest.status.(runRef := run, phase := Pending);
      var write := WritePipeline(name, k, PipelineRevision(latest.trigger, status, RunAdopted));
      var adopted := api.Update(id, name, at, spec, copy, write, ThenReturn);
      Then(api, old(api.log), between, id, part, Sent(id, write, adopted));
      part := part + [Sent(id, write, adopted)];
    }
    RunKept(store, api.store, run, OfPipeline(name), copy.status.claim);
    RevisionKept(store, api.store, name, k);
    GrowsTwice(old(api.store), store, api.store);
  }

  /** The Reconcile of the CollectionPipeline controller. */
  method ReconcilePipeline(api: Server, id: nat, name: string)
    returns (found: bool, ghost at: nat, ghost part: seq<Event>, ghost rest: seq<Event>, ghost first: seq<Event>, ghost grown: (nat, bool))
    requires api.Reached() && id !in api.procs
    requires api.mode.exclusive ==> forall q :: q in api.procs && api.procs[q].PipelineProc? ==> api.procs[q].name != name
    modifies api
    ensures api.Reached() && id !in api.procs && api.Added(old(api.log), id, part)
    ensures name in old(api.store).pipelines ==> found
    ensures if found then IsProgram(part, id) && part == [Called(BeginPipeline(id, name, at))] + rest else part == []
    ensures found ==> name in api.store.pipelines && at < |api.store.pipelines[name].revisions|
                      && Reconciled(api.store, rest, first, grown, id, name, at, api.store.pipelines[name].spec,
                                    api.store.pipelines[name].revisions[at])
  {
    hide Grows, Own, IsLog, StateOf, Continues, Server.PipelineAt, Server.Reached, IsProgram, Reconciled, OnRead;
    var revision, spec, pipeline;
    found, revision, spec, pipeline := api.GetPipeline(id, name);
    part, rest, first, grown, at := [], [], [], (0, false), revision;
    if !found { return; }
    ghost var event, before, store := Called(BeginPipeline(id, name, revision)), api.log, api.store;
    ReadThere(api, id, name, revision, spec, pipeline, OnRead(name, spec, revision, pipeline));
    rest, first, grown := Reconciling(api, id, name, revision, spec, pipeline);
    part := [event] + rest;
    api.Join(old(api.log), before, id, [event], rest);
    ProgramOf(event, rest, id);
    RevisionKept(store, api.store, name, revision);
    SpecKept(store, api.store, name);
  }

  /** The reconcile after its first read: the restart, or the early expansion and then the tracking or the setting up. */
  method Reconciling(api: Server, id: nat, name: string, base: nat, spec: PipelineSpec, copy: PipelineRevision)
    returns (ghost part: seq<Event>, ghost first: seq<Event>, ghost grown: (nat, bool))
    requires api.Reached() && api.PipelineAt(id, name, base, spec, copy, OnRead(name, spec, base, copy))
    modifies api
    ensures api.Reached() && id !in api.procs && api.Added(old(api.log), id, part) && Continues(part, id)
    ensures Grows(old(api.store), api.store)
    ensures Reconciled(api.store, part, first, grown, id, name, base, spec, copy)
  {
    hide Grows, Own, IsLog, StateOf, Continues, Server.PipelineAt, Server.Reached, OnBase, Restarted, Grown, RecreatedOrTracked,
         CreatesCleared, Reconciled, NoneCreates;
    first, grown := [], (0, true);
    if copy.trigger && Restartable(copy.status) {
      part := Restart(api, id, name, base, spec, copy);
      RestartReconciled(api.store, part, grown, id, name, base, spec, copy);
      return;
    }
    part := [];
    NoCalls(api, id);
    ghost var between, store, rest := api.log, api.store, [];
    Unchanged(store);
    if spec.size.Some? {
      ghost var size;
      var expanded;
      expanded, part, size := ExpandClaimEarly(api, id, name, base, spec, copy);
      first, grown := part, (size, expanded);
      if !expanded {
        RefusedReconciled(api.store, part, grown, id, name, base, spec, copy);
        return;
      }
      between, store := api.log, api.store;
    }
    if copy.status.runRef != "" {
      rest := RecreateOrTrack(api, id, name, base, spec, copy);
    } else {
      rest := SetUp(api, id, name, base, spec, copy);
    }
    Extend(api, old(api.log), between, id, part, rest);
    assert [] + rest == rest;
    if spec.size.Some? {
      GrownKept(store, api.store, first, id, ExpandClaim(name, spec, copy.status), spec.size.value, grown.0, grown.1);
    }
    part := part + rest;
    GrowsTwice(old(api.store), store, api.store);
    GoneOnReconciled(api.store, first, rest, grown, id, name, base, spec, copy);
  }

  /** The reconcile of a pipeline without a run: the checks, the version, the claim, the signing configuration, and the run. */
  method SetUp(api: Server, id: nat, name: string, base: nat, spec: PipelineSpec, copy: PipelineRevision)
    returns (ghost part: seq<Event>)
    requires api.Reached() && copy.status.runRef == ""
    requires api.PipelineAt(id, name, base, spec, copy, OnReference(name, spec, base, copy))
    modifies api
    ensures api.Reached() && id !in api.procs && api.Added(old(api.log), id, part) && Continues(part, id)
    ensures Grows(old(api.store), api.store)
    ensures CreatesCleared(api.store, part, spec, copy.status)
  {
    hide Grows, Own, IsLog, StateOf, Continues, Server.PipelineAt, Server.Reached, CreatesCleared, NoneCreates, ParentFound, BaseFound,
         VersionFound, VolumeFound, SigningFound;
    ghost var store := api.store;
    var ok, at, pipeline;
    ok, at, pipeline, part := Check(api, id, name, base, spec, copy);
    if !ok {
      NothingCreated(api.store, part, spec, copy.status);
      return;
    }
    ghost var between, rest, before := api.log, [], api.store;
    rest := Provide(api, id, name, at, spec, pipeline);
    Extend(api, old(api.log), between, id, part, rest);
    GrowsTwice(store, before, api.store);
    CheckedThenProvided(before, api.store, part, rest, spec, copy.status);
    part := part + rest;
  }

  /** The checks of parent and base version, and the version. */
  method Check(api: Server, id: nat, name: string, base: nat, spec: PipelineSpec, copy: PipelineRevision)
    returns (ok: bool, at: nat, pipeline: PipelineRevision, ghost part: seq<Event>)
    requires api.Reached() && copy.status.runRef == ""
    requires api.PipelineAt(id, name, base, spec, copy, OnReference(name, spec, base, copy))
    modifies api
    ensures api.Reached() && api.Added(old(api.log), id, part) && Continues(part, id)
    ensures Grows(old(api.store), api.store)
    ensures if ok then api.PipelineAt(id, name, at, spec, pipeline, OnClaim(name, spec, at, pipeline)) else id !in api.procs
    ensures NoneCreates(part)
    ensures ok ==> Allowed(api.store, part, spec, copy.status)
  {
    hide Grows, Own, IsLog, StateOf, Continues, Server.PipelineAt, Server.Reached, OnClaim, ParentChecked, BaseChecked, VersionGiven,
         ParentFound, BaseFound, VersionFound, VolumeFound, SigningFound;
    ok, at, pipeline := true, base, copy;
    ghost var between, store, rest := api.log, api.store, [];
    part := [];
    NoCalls(api, id);
    Unchanged(store);
    if spec.parent != "" {
      ok, at, pipeline, part := CheckParent(api, id, name, at, spec, pipeline);
      FoundByParent(api.store, part, id, name, spec, base, copy, ok, at, pipeline);
      if !ok { return; }
      between, store := api.log, api.store;
    }
    if spec.incremental && spec.baseVersion != "" {
      ok, rest := CheckBaseVersion(api, id, name, at, spec, pipeline);
      FoundByBase(api.store, rest, id, name, spec, at, pipeline, ok);
      FoundOnward(store, api.store, part, rest);
      Extend(api, old(api.log), between, id, part, rest);
      GrowsTwice(old(api.store), store, api.store);
      part, between, store := part + rest, api.log, api.store;
      if !ok { return; }
    }
    if pipeline.status.version == "" {
      ghost var was, from := pipeline, at;
      ok, at, pipeline, rest := AssignVersion(api, id, name, at, spec, pipeline);
      FoundByVersion(rest, id, name, from, was, ok, pipeline);
      FoundOnward(store, api.store, part, rest);
      Extend(api, old(api.log), between, id, part, rest);
      GrowsTwice(old(api.store), store, api.store);
      part := part + rest;
    }
  }

  /** The claim, the wait for a signing configuration, and the run. */
  method Provide(api: Server, id: nat, name: string, base: nat, spec: PipelineSpec, copy: PipelineRevision)
    returns (ghost part: seq<Event>)
    requires api.Reached() && api.PipelineAt(id, name, base, spec, copy, OnClaim(name, spec, base, copy))
    modifies api
    ensures api.Reached() && id !in api.procs && api.Added(old(api.log), id, part) && Continues(part, id)
    ensures Grows(old(api.store), api.store)
    ensures Provided(part)
  {
    hide Grows, Own, IsLog, StateOf, Continues, Server.PipelineAt, Server.Reached, OnClaim, WorkingClaimRecorded, Grown, SigningChecked,
         RunStarted, Server.HasRoom, NoneCreates, VolumeFound, SigningFound, VersionFound, ParentFound, BaseFound, Provided;
    ghost var between, store, rest, recorded, size := api.log, api.store, [], [], 0;
    var ok, at, pipeline;
    ok, at, pipeline, part, recorded, size := EnsurePVC(api, id, name, base, spec, copy);
    FoundByVolume(api.store, recorded, part, id, name, spec, base, copy, size, ok, at, pipeline);
    if !ok { NothingProvided(part); return; }
    between, store := api.log, api.store;
    var applied := *;
    ok, rest := AwaitSigning(api, id, name, at, spec, pipeline, applied);
    FoundBySigning(api.store, rest, id, ok);
    FoundOnward(store, api.store, part, rest);
    Extend(api, old(api.log), between, id, part, rest);
    GrowsTwice(old(api.store), store, api.store);
    part, between, store := part + rest, api.log, api.store;
    if !ok { NothingProvided(part); return; }
    rest := StartRun(api, id, name, at, spec, pipeline);
    Extend(api, old(api.log), between, id, part, rest);
    GrowsTwice(old(api.store), store, api.store);
    ProvidedThenStarted(api.store, part, rest, id, name, pipeline.status.claim);
    part := part + rest;
  }

  // ---------------------------------------------------------------- MirrorImport

  method StartImport(api: Server, id: nat, name: string, at: nat, spec: ImportSpec, copy: ImportStatus)
    returns (ghost part: seq<Event>)
    requires api.Reached() && copy.phase.NotStarted?
    requires api.ImportAt(id, name, at, spec, copy, OnImportRead(name, spec, at, copy).value)
    modifies api
    ensures api.Reached() && id !in api.procs && api.Added(old(api.log), id, part) && Continues(part, id)
    ensures ImportStarted(api.store, part, id, name, spec, at, copy)
  {
    hide Grows, Own, IsLog, StateOf, Continues, Server.Reached, Server.ImportAt, VersionListed;
    var importCR := copy;
    part := [];
    NoCalls(api, id);
    ghost var between, store := api.log, api.store;
    Unchanged(store);
    if spec.collectionVersion != "" {
      var found;
      ghost var k, now;
      var platform;
      found, k, platform, now := api.FindPlatformForCheck(id, name, at, spec, copy);
      part := [Called(ReadPlatform(id, if found then Some(k) else None, now))];
      First(api, old(api.log), id, part[0]);
      between, store := api.log, api.store;
      if found {
        var duplicate := VersionExists(platform.imports, spec.collectionVersion);
        if duplicate {
          importCR := importCR.(phase := ImportFailed);
          var refused := api.UpdateImport(id, name, at, spec, copy, WriteImport(name, at, importCR), ThenEnd);
          Then(api, old(api.log), between, id, part, Sent(id, WriteImport(name, at, importCR), refused));
          part := part + [Sent(id, WriteImport(name, at, importCR), refused)];
          PlatformKept(store, api.store, k);
          return;
        }
        importCR := importCR.(phase := Importing);
        var passed := api.UpdateImport(id, name, at, spec, copy, WriteImport(name, at, importCR), ThenEnd);
        Then(api, old(api.log), between, id, part, Sent(id, WriteImport(name, at, importCR), passed));
        part := part + [Sent(id, WriteImport(name, at, importCR), passed)];
        PlatformKept(store, api.store, k);
        return;
      }
    }
    importCR := importCR.(phase := Importing);
    var started := api.UpdateImport(id, name, at, spec, copy, WriteImport(name, at, importCR), ThenEnd);
    Then(api, old(api.log), between, id, part, Sent(id, WriteImport(name, at, importCR), started));
    part := part + [Sent(id, WriteImport(name, at, importCR), started)];
  }

  method TrackImportPipelineRun(api: Server, id: nat, name: string, at: nat, spec: ImportSpec, copy: ImportStatus)
    returns (ghost part: seq<Event>)
    requires api.Reached() && copy.phase.Importing?
    requires api.ImportAt(id, name, at, spec, copy, OnImportRead(name, spec, at, copy).value)
    modifies api
    ensures api.Reached() && id !in api.procs && api.Added(old(api.log), id, part) && Continues(part, id)
    ensures ImportTracked(api.store, part, id, name, at, copy)
  {
    hide Grows, Own, IsLog, StateOf, Continues, Server.Reached, Server.ImportAt, ImportRunStarted;
    var importCR := copy;
    if importCR.runRef != "" {
      var observed := api.GetImportRun(id, name, at, spec, copy, importCR.runRef);
      part := [Called(TrackRun(id, observed))];
      First(api, old(api.log), id, part[0]);
      if observed.None? {
        importCR := importCR.(runRef := "");
      } else if observed.value.Completed? {
        importCR := importCR.(phase := if observed.value.succeeded then Publishing else ImportFailed);
      } else {
        return;
      }
      ghost var between := api.log;
      var updated := api.UpdateImport(id, name, at, spec, copy, WriteImport(name, at, importCR), ThenEnd);
      Then(api, old(api.log), between, id, part, Sent(id, WriteImport(name, at, importCR), updated));
      part := part + [Sent(id, WriteImport(name, at, importCR), updated)];
      return;
    }
    part := StartImportRun(api, id, name, at, spec, copy);
  }

  /** The rest of trackImportPipelineRun, for an import without a run. */
  method StartImportRun(api: Server, id: nat, name: string, at: nat, spec: ImportSpec, copy: ImportStatus)
    returns (ghost part: seq<Event>)
    requires api.Reached() && api.ImportAt(id, name, at, spec, copy, AtImportCreate)
    modifies api
    ensures api.Reached() && id !in api.procs && api.Added(old(api.log), id, part) && Continues(part, id)
    ensures ImportRunStarted(api.store, part, id, name)
  {
    hide Grows, Own, IsLog, StateOf, Continues, Server.Reached, Server.ImportAt, Server.RunIs;
    var run := api.CreateImportRun(id, name, at, spec, copy);
    part := [Called(CreateRun(id, run))];
    First(api, old(api.log), id, part[0]);
    ghost var between, store := api.log, api.store;
    var k, latest := api.GetLatestImport(id, name, at, spec, copy, run);
    Then(api, old(api.log), between, id, part, Called(ReadLatest(id, k)));
    part := part + [Called(ReadLatest(id, k))];
    RunKept(store, api.store, run, OfImport(name), "");
    between, store := api.log, api.store;
    if latest.runRef != "" && latest.runRef != run {
      RunThere(store, run, OfImport(name), "");
      api.DeleteDuplicateImportRun(id, name, at, spec, copy, run);
      Then(api, old(api.log), between, id, part, Called(DeleteDuplicate(id)));
      part := part + [Called(DeleteDuplicate(id))];
    } else {
      latest := latest.(runRef := run);
      var adopted := api.UpdateImport(id, name, at, spec, copy, WriteImport(name, k, latest), ThenEnd);
      Then(api, old(api.log), between, id, part, Sent(id, WriteImport(name, k, latest), adopted));
      part := part + [Sent(id, WriteImport(name, k, latest), adopted)];
    }
    RunKept(store, api.store, run, OfImport(name), "");
    ImportRevisionKept(store, api.store, name, k);
  }

  method UpdatePlatformImportHistory(api: Server, id: nat, name: string, ghost at: nat, spec: ImportSpec, importCR: ImportStatus)
    returns (ghost part: seq<Event>)
    requires api.Reached() && api.ImportAt(id, name, at, spec, importCR, AtAppend)
    modifies api
    ensures api.Reached() && id !in api.procs && api.Added(old(api.log), id, part) && Continues(part, id)
    ensures ImportEntered(api.store, part, id, name, spec)
  {
    hide Grows, Own, IsLog, StateOf, Continues, Server.Reached, Server.ImportAt;
    var found, k, platform, now := api.FindPlatformForImport(id, name, at, spec, importCR);
    part := [Called(ReadPlatform(id, if found then Some(k) else None, now))];
    First(api, old(api.log), id, part[0]);
    if !found { return; }
    var version := spec.collectionVersion;
    if version == "" { version := "import-" + name + "-" + spec.createdDate; }
    var info := Info(version, now);
    platform := platform.(lastImport := Some(info));
    platform := platform.(imports := platform.imports + [info]);
    platform := platform.(event := ImportAppended(name));
    ghost var between, store := api.log, api.store;
    var updated := api.UpdateImport(id, name, at, spec, importCR, WritePlatform(k, platform), ThenEnd);
    Then(api, old(api.log), between, id, part, Sent(id, WritePlatform(k, platform), updated));
    part := part + [Sent(id, WritePlatform(k, platform), updated)];
    PlatformKept(store, api.store, k);
  }

  method FinalizeImport(api: Server, id: nat, name: string, at: nat, spec: ImportSpec, copy: ImportStatus)
    returns (ghost part: seq<Event>)
    requires api.Reached() && copy.phase.Publishing?
    requires api.ImportAt(id, name, at, spec, copy, OnImportRead(name, spec, at, copy).value)
    modifies api
    ensures api.Reached() && id !in api.procs && api.Added(old(api.log), id, part) && Continues(part, id)
    ensures ImportFinalized(api.store, part, id, name, spec, at, copy)
  {
    hide Grows, Own, IsLog, StateOf, Continues, Server.Reached, Server.ImportAt, ImportEntered;
    var importCR := copy.(phase := Imported);
    var completed := api.UpdateImport(id, name, at, spec, copy, WriteImport(name, at, importCR), ThenAppend);
    part := [Sent(id, WriteImport(name, at, importCR), completed)];
    First(api, old(api.log), id, part[0]);
    if !completed { return; }
    ghost var between := api.log;
    ghost var rest := UpdatePlatformImportHistory(api, id, name, at + 1, spec, importCR);
    Extend(api, old(api.log), between, id, part, rest);
    part := part + rest;
  }

  /** The Reconcile of the MirrorImport controller. */
  method ReconcileImport(api: Server, id: nat, name: string)
    returns (found: bool, ghost part: seq<Event>, ghost rest: seq<Event>, ghost at: nat, ghost spec: ImportSpec, ghost copy: ImportStatus)
    requires api.Reached() && id !in api.procs
    modifies api
    ensures api.Reached() && id !in api.procs && api.Added(old(api.log), id, part)
    ensures name in old(api.store).imports ==> found
    ensures if found then IsProgram(part, id) && part == [Called(BeginImport(id, name, at))] + rest else part == []
    ensures found ==>
              match copy.phase
              case NotStarted => ImportStarted(api.store, rest, id, name, spec, at, copy)
              case Importing => ImportTracked(api.store, rest, id, name, at, copy)
              case Publishing => ImportFinalized(api.store, rest, id, name, spec, at, copy)
              case _ => rest == []
  {
    hide Grows, Own, IsLog, StateOf, Continues, Server.Reached, IsProgram, ImportStarted, ImportTracked, ImportFinalized;
    var revision, importSpec, importCR;
    found, revision, importSpec, importCR := api.GetImport(id, name);
    part, rest, at, spec, copy := [], [], revision, importSpec, importCR;
    if !found { return; }
    ghost var first, before := Called(BeginImport(id, name, revision)), api.log;
    NoCalls(api, id);
    match importCR.phase {
      case NotStarted => rest := StartImport(api, id, name, revision, importSpec, importCR);
      case Importing => rest := TrackImportPipelineRun(api, id, name, revision, importSpec, importCR);
      case Publishing => rest := FinalizeImport(api, id, name, revision, importSpec, importCR);
      case _ =>
    }
    part := [first] + rest;
    api.Join(old(api.log), before, id, [first], rest);
    ProgramOf(first, rest, id);
  }

  // ---------------------------------------------------------------- DisconnectedPlatform

  method AggregateCollections(ghost pipelines: map<string, Pipeline>, ghost list: seq<Listed>, items: seq<PipelineStatus>,
                              now: nat) returns (history: seq<Info>)
    requires ValidPipelineList(pipelines, list) && Server.PipelineItems(pipelines, list, items)
    ensures history == CollectVersions(pipelines, list, now)
  {
    history := [];
    for i := 0 to |items|
      invariant ValidPipelineList(pipelines, list[..i]) && history == CollectVersions(pipelines, list[..i], now)
    {
      assert list[..i + 1][..i] == list[..i] && Last(list[..i + 1]) == list[i];
      var p := items[i];
      if p.version != "" && (p.phase.Complete? || p.phase.Succeeded?) {
        history := history + [Info(p.version, now)];
      }
    }
    assert list[..|items|] == list;
  }

  method AggregateImports(ghost imports: map<string, Import>, list: seq<Listed>, items: seq<(ImportSpec, ImportStatus)>)
    returns (history: seq<Info>, importers: seq<string>)
    requires ValidImportList(imports, list) && Server.ImportItems(imports, list, items)
    requires Server.ImportersListed(imports, list)
    ensures importers == Importers(imports, list) && history == ImportInfos(imports, importers)
  {
    history, importers := [], [];
    for i := 0 to |items|
      invariant ValidImportList(imports, list[..i]) && importers == Importers(imports, list[..i])
      invariant |history| == |importers|
      invariant forall k :: 0 <= k < |importers| ==>
                  importers[k] in imports && history[k] == Info(AggregatedVersion(importers[k], imports[importers[k]].spec),
                                                                imports[importers[k]].spec.created)
    {
      assert list[..i + 1][..i] == list[..i] && Last(list[..i + 1]) == list[i];
      var spec, status := items[i].0, items[i].1;
      if status.phase.Imported? {
        var version := spec.collectionVersion;
        if version == "" { version := list[i].name; }
        history, importers := history + [Info(version, spec.created)], importers + [list[i].name];
      }
    }
    assert list[..|items|] == list;
  }

  /** The part of the platform's Reconcile that aggregates the histories and writes the status. */
  method ReconcilePlatform(api: Server, id: nat)
    returns (found: bool, updated: bool, at: nat, ghost part: seq<Event>, ghost seen: Listings)
    requires api.Reached() && id !in api.procs
    modifies api
    ensures api.Reached() && id !in api.procs && api.Added(old(api.log), id, part)
    ensures |old(api.store).platform| > 0 ==> found
    ensures if found then IsProgram(part, id) && part[0].step.BeginPlatform? else part == [] && !updated
    ensures found ==> Between(old(api.store), seen, api.store)
    ensures found ==> Aggregating(api.store, part, id, at, seen, updated)
  {
    hide Grows, Between, Own, IsLog, StateOf, Continues, IsProgram, Server.Reached, Server.PlatformAt, Aggregating, AggregatedAfter;
    var original;
    found, at, original := api.GetPlatform(id);
    updated, part, seen := false, [], Listings(map[], [], 0, map[], []);
    if !found { return; }
    ghost var first, begun, start := Called(BeginPlatform(id, at)), api.log, api.store;
    ghost var rest;
    updated, rest, seen := Aggregate(api, id, at, original);
    part := [first] + rest;
    api.Join(old(api.log), begun, id, [first], rest);
    ProgramOf(first, rest, id);
    BetweenLater(old(api.store), start, seen, api.store);
    AggregatingAfter(api.store, first, rest, id, at, seen, updated);
  }

  /** From the first list call on. */
  method Aggregate(api: Server, id: nat, at: nat, original: PlatformRevision)
    returns (updated: bool, ghost part: seq<Event>, ghost seen: Listings)
    requires api.Reached() && api.PlatformAt(id, at, original, AtPipelineList)
    modifies api
    ensures api.Reached() && id !in api.procs && api.Added(old(api.log), id, part) && Continues(part, id)
    ensures Between(old(api.store), seen, api.store)
    ensures AggregatedAfter(api.store, part, id, at, seen, updated)
  {
    hide Grows, Between, Own, IsLog, StateOf, Continues, Server.Reached, Server.PlatformAt, CollectVersions, Server.PipelineItems,
         ImportsAggregated, AggregatedAfter;
    var list, items, now := api.ListPipelines(id, at, original);
    part := [Called(ListPipelines(id, list, now))];
    First(api, old(api.log), id, part[0]);
    ghost var between, listing := api.log, api.store;
    ghost var rest;
    var collections := AggregateCollections(api.store.pipelines, list, items, now);
    updated, rest, seen := AggregateWith(api, id, at, original, collections, list, now);
    Extend(api, old(api.log), between, id, part, rest);
    part := part + rest;
    BetweenLater(old(api.store), listing, seen, api.store);
    AggregatedParts(api.store, rest, id, at, seen, updated);
  }

  /** From the second list call on, with the collections aggregated. */
  method AggregateWith(api: Server, id: nat, at: nat, original: PlatformRevision, collections: seq<Info>, list: seq<Listed>,
                       now: nat)
    returns (updated: bool, ghost part: seq<Event>, ghost seen: Listings)
    requires api.Reached() && api.PlatformAt(id, at, original, AtImportList(collections, list, now))
    requires ValidPipelineList(api.store.pipelines, list) && collections == CollectVersions(api.store.pipelines, list, now)
    modifies api
    ensures api.Reached() && id !in api.procs && api.Added(old(api.log), id, part) && Continues(part, id)
    ensures Between(old(api.store), seen, api.store)
    ensures seen.pipelines == old(api.store).pipelines && seen.list == list && seen.now == now
    ensures ImportsAggregated(api.store, part, id, at, seen, updated)
  {
    hide Grows, Between, Own, IsLog, StateOf, Continues, Server.Reached, CollectVersions, Importers, ImportInfos, ValidPipelineList,
         ValidImportList, Server.ImportItems, Server.ImportersListed, ImportsAggregated, Saved;
    ghost var start := api.store;
    var platform := original;
    if |collections| > 0 {
      platform := platform.(collections := collections);
      platform := platform.(lastCollection := Some(collections[|collections| - 1]));
    }
    var names, items := api.ListImports(id, at, original, collections, list, now);
    part := [Called(ListImports(id, names))];
    First(api, old(api.log), id, part[0]);
    ghost var between, listing := api.log, api.store;
    ghost var last;
    seen := Listings(start.pipelines, list, now, listing.imports, names);
    var imports, importers := AggregateImports(api.store.imports, names, items);
    if |imports| > 0 {
      platform := platform.(imports := imports);
      platform := platform.(lastImport := Some(imports[|imports| - 1]));
    }
    platform := platform.(event := Aggregated(importers, list, now, names));
    updated, last := SaveAggregate(api, id, at, original, platform);
    Extend(api, old(api.log), between, id, part, last);
    part := part + last;
    BetweenCalls(start, listing, api.store, seen);
    ImportsAggregatedParts(api.store, id, at, seen, platform, last, updated);
  }

  /** Only update status if it changed. */
  method SaveAggregate(api: Server, id: nat, at: nat, original: PlatformRevision, platform: PlatformRevision)
    returns (updated: bool, ghost part: seq<Event>)
    requires api.Reached() && api.PlatformAt(id, at, original, PlatformWriting(WritePlatform(at, platform)))
    modifies api
    ensures api.Reached() && id !in api.procs && api.Added(old(api.log), id, part) && Continues(part, id)
    ensures Grows(old(api.store), api.store) && at < |api.store.platform| && api.store.platform[at] == original
    ensures |part| == 1 && Saved(api.store, part[0], id, at, platform, updated)
  {
    hide Grows, Own, IsLog, StateOf, Continues, Server.Reached;
    ghost var store := api.store;
    var restUnchanged := *;
    if restUnchanged && platform.(event := original.event) == original {
      api.SkipStatusUpdate(id, at, original, WritePlatform(at, platform));
      updated, part := false, [Called(SkipUpdate(id))];
    } else {
      updated := api.UpdatePlatform(id, at, original, WritePlatform(at, platform));
      part := [Sent(id, WritePlatform(at, platform), updated)];
    }
    PlatformKept(store, api.store, at);
    First(api, old(api.log), id, part[0]);
  }
}
