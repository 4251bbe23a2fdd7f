/** What each function of the reconcilers does, as the calls it makes: for every answer of the server the next call, and
    for every update what is sent. The store is that of the end; revisions and sizes once read are still in it. */
module Programs {
  import opened Objects
  import opened Reconcilers
  import opened Protocol
  import opened ApiServer

  /** From its first read on, every call of one reconcile, none of them an early stop. */
  predicate IsProgram(part: seq<Event>, id: nat) {
    && |part| > 0 && Begins(part[0].step)
    && (forall k :: 0 <= k < |part| ==> !Environment(part[k].step) && part[k].step.id == id && !part[k].step.Stop?)
    && (forall k :: 0 < k < |part| ==> !Begins(part[k].step))
  }

  /** The calls of a program after its first. */
  predicate Continues(part: seq<Event>, id: nat) {
    forall k :: 0 <= k < |part| ==>
      !Environment(part[k].step) && part[k].step.id == id && !part[k].step.Stop? && !Begins(part[k].step)
  }

  /** One update and nothing else. */
  predicate OnlySends(part: seq<Event>, id: nat, w: Write) {
    |part| == 1 && part[0] == Sent(id, w, part[0].accepted)
  }

  // ---------------------------------------------------------------- CollectionPipeline

  predicate Restarted(part: seq<Event>, id: nat, name: string, at: nat, copy: PipelineRevision) {
    var removed := copy.(trigger := false, event := TriggerRemoved);
    var reset := PipelineRevision(false, copy.status.(runRef := "", version := "", phase := Unset), StatusReset);
    && |part| > 0 && part[0] == Sent(id, WritePipeline(name, at, removed), part[0].accepted)
    && (if part[0].accepted then OnlySends(part[1..], id, WritePipeline(name, at + 1, reset)) else |part| == 1)
  }

  /** The size the claim had at the revision a read returned. */
  predicate SizeIs(store: Store, claim: string, k: nat, size: nat) {
    claim in store.volumes && k < |store.volumes[claim].sizes| && store.volumes[claim].sizes[k] == size
  }

  /** The claim is looked up, and grown exactly when it is there and smaller. */
  predicate Grown(store: Store, part: seq<Event>, id: nat, claim: string, desired: nat, size: nat, ok: bool) {
    && |part| > 0 && part[0].step.ReadVolume? && part[0] == Called(ReadVolume(id, part[0].step.found))
    && var found := part[0].step.found;
       && (found.Some? ==> SizeIs(store, claim, found.value, size))
       && (if found.Some? && desired > size then |part| == 2 && part[1] == Sent(id, WriteVolume(claim, found.value, desired), ok)
           else |part| == 1)
  }

  ghost predicate RecreatedOrTracked(store: Store, part: seq<Event>, id: nat, name: string, at: nat, copy: PipelineRevision) {
    && |part| > 0 && part[0].step.ReadRun?
    && part[0] == Called(ReadRun(id, part[0].step.observed, part[0].step.signingChanged))
    && (if part[0].step.observed == Some(Waiting) && part[0].step.signingChanged then
          var dropped := PipelineRevision(copy.trigger, copy.status.(runRef := "", phase := Unset), RunDropped);
          && |part| > 1 && part[1] == Called(DropRun(id)) && OnlySends(part[2..], id, WritePipeline(name, at, dropped))
          && copy.status.runRef in store.runs && store.runs[copy.status.runRef].deleted
        else RunTracked(store, part[1..], id, name, at, copy))
  }

  function TrackedRevision(copy: PipelineRevision, observed: Option<Stage>): PipelineRevision {
    match observed
    case None => PipelineRevision(copy.trigger, copy.status.(runRef := "", phase := Phase.Stale), MarkedStale)
    case Some(stage) =>
      var phase := match stage
        case Waiting => Pending
        case Started => Collecting
        case Completed(succeeded) => if succeeded then Complete else Failed;
      PipelineRevision(copy.trigger, copy.status.(phase := phase), PipelineEvent.Tracked)
  }

  ghost predicate RunTracked(store: Store, part: seq<Event>, id: nat, name: string, at: nat, copy: PipelineRevision) {
    && |part| > 1 && part[0].step.TrackRun? && part[0] == Called(TrackRun(id, part[0].step.observed))
    && var revision := TrackedRevision(copy, part[0].step.observed);
       && part[1] == Sent(id, WritePipeline(name, at, revision), part[1].accepted)
       && (if part[0].step.observed.Some? && revision.status.phase.Complete? && part[1].accepted
           then CollectionEntered(store, part[2..], id, name, copy.status.version) else |part| == 2)
  }

  /** The platform is read, and the version appended to what was read. */
  predicate CollectionEntered(store: Store, part: seq<Event>, id: nat, name: string, version: string) {
    && |part| > 0 && part[0].step.ReadPlatform? && part[0] == Called(ReadPlatform(id, part[0].step.found, part[0].step.now))
    && match part[0].step.found
       case None => |part| == 1
       case Some(k) =>
         && k < |store.platform|
         && var read, entry := store.platform[k], Info(version, part[0].step.now);
            OnlySends(part[1..], id,
              WritePlatform(k, read.(collections := read.collections + [entry], lastCollection := Some(entry),
                                     event := CollectionAppended(name))))
  }

  /** A missing parent rejects the pipeline, an unfinished one ends the reconcile, and a finished one's version is captured
      exactly when none is. */
  predicate ParentChecked(store: Store, part: seq<Event>, id: nat, name: string, spec: PipelineSpec, base: nat,
                          copy: PipelineRevision, ok: bool, at: nat, pipeline: PipelineRevision)
  {
    && |part| > 0 && part[0].step.ReadParent? && part[0] == Called(ReadParent(id, part[0].step.found))
    && match part[0].step.found
       case None =>
         && OnlySends(part[1..], id,
              WritePipeline(name, base, PipelineRevision(copy.trigger, copy.status.(phase := Failed), Rejected)))
         && !ok
       case Some(k) =>
         && spec.parent in store.pipelines && k < |store.pipelines[spec.parent].revisions|
         && var parent := store.pipelines[spec.parent].revisions[k].status;
            if !parent.phase.Complete? then |part| == 1 && !ok
            else if copy.status.parentVersion == "" then
              && pipeline == PipelineRevision(copy.trigger, copy.status.(parentVersion := parent.version), ParentVersionCaptured)
              && |part| == 2 && part[1] == Sent(id, WritePipeline(name, base, pipeline), ok) && at == base + 1
            else |part| == 1 && ok && at == base && pipeline == copy
  }

  /** The pipeline is rejected exactly when a platform is found whose import history lacks the base version. */
  ghost predicate BaseChecked(store: Store, part: seq<Event>, id: nat, name: string, spec: PipelineSpec, at: nat,
                              copy: PipelineRevision, ok: bool)
  {
    && |part| > 0 && part[0].step.ReadPlatform? && part[0] == Called(ReadPlatform(id, part[0].step.found, part[0].step.now))
    && var found := part[0].step.found;
       && (found.Some? ==> found.value < |store.platform|)
       && (if found.Some? && !VersionListed(store.platform[found.value].imports, spec.baseVersion) then
             && OnlySends(part[1..], id,
                  WritePipeline(name, at, PipelineRevision(copy.trigger, copy.status.(phase := Failed), Rejected)))
             && !ok
           else |part| == 1 && ok)
  }

  predicate VersionGiven(part: seq<Event>, id: nat, name: string, base: nat, copy: PipelineRevision, ok: bool,
                         pipeline: PipelineRevision)
  {
    && |part| == 2 && part[0].step.PickVersion? && part[0] == Called(PickVersion(id, part[0].step.version))
    && part[0].step.version != ""
    && pipeline == PipelineRevision(copy.trigger, copy.status.(version := part[0].step.version), VersionAssigned)
    && part[1] == Sent(id, WritePipeline(name, base, pipeline), ok)
  }

  /** The status is written exactly when it names another claim. */
  predicate ClaimRecorded(part: seq<Event>, id: nat, name: string, base: nat, copy: PipelineRevision, claim: string,
                          ok: bool, at: nat, pipeline: PipelineRevision)
  {
    if copy.status.claim == claim then |part| == 0 && ok && at == base && pipeline == copy
    else
      && pipeline == PipelineRevision(copy.trigger, copy.status.(claim := claim), ClaimAssigned) && at == base + 1
      && |part| == 1 && part[0] == Sent(id, WritePipeline(name, base, pipeline), ok)
  }

  /** The working claim is the parent's, or made from its name while it has none; without a parent the root claim. */
  predicate WorkingClaimRecorded(store: Store, part: seq<Event>, id: nat, name: string, spec: PipelineSpec, base: nat,
                                 copy: PipelineRevision, ok: bool, at: nat, pipeline: PipelineRevision)
  {
    if spec.parent == "" then ClaimRecorded(part, id, name, base, copy, RootClaim(name, spec), ok, at, pipeline)
    else
      && |part| > 0 && part[0].step.ReadParent? && part[0] == Called(ReadParent(id, part[0].step.found))
      && match part[0].step.found
         case None => |part| == 1 && !ok
         case Some(k) =>
           && spec.parent in store.pipelines && k < |store.pipelines[spec.parent].revisions|
           && var parent := store.pipelines[spec.parent].revisions[k].status;
              ClaimRecorded(part[1..], id, name, base, copy, if parent.claim != "" then parent.claim else OwnClaim(spec.parent),
                            ok, at, pipeline)
  }

  /** The platform is looked up, and only one that manages a signing configuration can make the reconcile end here. */
  predicate SigningChecked(store: Store, part: seq<Event>, id: nat, ok: bool) {
    && |part| == 1 && part[0].step.CheckSigning? && part[0] == Called(CheckSigning(id, part[0].step.found, !ok))
    && (part[0].step.found.Some? ==> part[0].step.found.value < |store.platform|)
    && (!ok ==> part[0].step.found.Some?)
  }

  /** The run exists, is the pipeline's, and is adopted unless the pipeline read again names another; then it is deleted. */
  ghost predicate RunStarted(store: Store, part: seq<Event>, id: nat, name: string, claim: string) {
    && |part| == 3 && part[0].step.CreateRun? && part[1].step.ReadLatest?
    && var run, k := part[0].step.run, part[1].step.at;
       && part[0] == Called(CreateRun(id, run)) && part[1] == Called(ReadLatest(id, k))
       && Server.RunIs(store, run, OfPipeline(name), claim)
       && name in store.pipelines && k < |store.pipelines[name].revisions|
       && var latest := store.pipelines[name].revisions[k];
          if latest.status.runRef != "" && latest.status.runRef != run then
            part[2] == Called(DeleteDuplicate(id)) && store.runs[run].deleted
          else
            OnlySends(part[2..], id,
              WritePipeline(name, k, PipelineRevision(latest.trigger, latest.status.(runRef := run, phase := Pending), RunAdopted)))
  }

  // ---------------------------------------------------------------- before a run is created

  predicate NoneCreates(part: seq<Event>) {
    forall k :: 0 <= k < |part| ==> !part[k].step.CreateRun?
  }

  /** The parent was read at a revision in phase Complete. */
  predicate ParentEvent(store: Store, e: Event, parent: string) {
    && e.step.ReadParent? && e.step.found.Some?
    && parent in store.pipelines && e.step.found.value < |store.pipelines[parent].revisions|
    && store.pipelines[parent].revisions[e.step.found.value].status.phase.Complete?
  }

  /** The platform was looked up, and there was none or one whose import history has the version. */
  ghost predicate BaseEvent(store: Store, e: Event, version: string) {
    && e.step.ReadPlatform?
    && (e.step.found.Some? ==>
          e.step.found.value < |store.platform| && VersionListed(store.platform[e.step.found.value].imports, version))
  }

  predicate VersionEvent(e: Event) {
    && e.step.Commit? && e.accepted && e.sent.Some? && e.sent.value.WritePipeline?
    && e.sent.value.pipeline.event.VersionAssigned? && e.sent.value.pipeline.status.version != ""
  }

  predicate SigningEvent(e: Event) {
    e.step.CheckSigning? && !e.step.waits
  }

  ghost predicate ParentFound(store: Store, part: seq<Event>, parent: string) {
    exists k :: 0 <= k < |part| && ParentEvent(store, part[k], parent)
  }

  ghost predicate BaseFound(store: Store, part: seq<Event>, version: string) {
    exists k :: 0 <= k < |part| && BaseEvent(store, part[k], version)
  }

  ghost predicate VersionFound(part: seq<Event>) {
    exists k :: 0 <= k < |part| && VersionEvent(part[k])
  }

  ghost predicate SigningFound(part: seq<Event>) {
    exists k :: 0 <= k < |part| && SigningEvent(part[k])
  }

  ghost predicate VolumeFound(part: seq<Event>) {
    exists k :: 0 <= k < |part| && part[k].step.ReadVolume?
  }

  /** All that must have come before a run is created for a pipeline of this spec, read with this status. */
  ghost predicate Cleared(store: Store, part: seq<Event>, spec: PipelineSpec, status: PipelineStatus) {
    && (spec.parent != "" ==> ParentFound(store, part, spec.parent))
    && (spec.incremental && spec.baseVersion != "" ==> BaseFound(store, part, spec.baseVersion))
    && (status.version == "" ==> VersionFound(part))
    && VolumeFound(part) && SigningFound(part)
  }

  ghost predicate CreatesCleared(store: Store, part: seq<Event>, spec: PipelineSpec, status: PipelineStatus) {
    forall k :: 0 <= k < |part| && part[k].step.CreateRun? ==> Cleared(store, part[..k], spec, status)
  }

  /** Whatever was found in either stretch was found in both together. */
  lemma FoundInBoth(store: Store, a: seq<Event>, b: seq<Event>)
    ensures NoneCreates(a) && NoneCreates(b) ==> NoneCreates(a + b)
    ensures forall parent :: ParentFound(store, a, parent) || ParentFound(store, b, parent) ==> ParentFound(store, a + b, parent)
    ensures forall version :: BaseFound(store, a, version) || BaseFound(store, b, version) ==> BaseFound(store, a + b, version)
    ensures VersionFound(a) || VersionFound(b) ==> VersionFound(a + b)
    ensures VolumeFound(a) || VolumeFound(b) ==> VolumeFound(a + b)
    ensures SigningFound(a) || SigningFound(b) ==> SigningFound(a + b)
  {
    hide ParentEvent, BaseEvent, VersionEvent, SigningEvent;
    assert forall k :: 0 <= k < |a| ==> (a + b)[k] == a[k];
    assert forall k :: 0 <= k < |b| ==> (a + b)[|a| + k] == b[k];
  }

  lemma FoundLater(a: Store, b: Store, part: seq<Event>)
    requires Grows(a, b)
    ensures forall parent :: ParentFound(a, part, parent) ==> ParentFound(b, part, parent)
    ensures forall version :: BaseFound(a, part, version) ==> BaseFound(b, part, version)
  {
    hide VersionListed, RunsGrow, ImportsGrow, VolumesGrow;
    forall parent | ParentFound(a, part, parent) ensures ParentFound(b, part, parent) {
      var k :| 0 <= k < |part| && ParentEvent(a, part[k], parent);
      assert ParentEvent(b, part[k], parent);
    }
    forall version | BaseFound(a, part, version) ensures BaseFound(b, part, version) {
      var k :| 0 <= k < |part| && BaseEvent(a, part[k], version);
      assert BaseEvent(b, part[k], version);
    }
  }

  /** One more stretch of calls. */
  lemma FoundOnward(a: Store, b: Store, before: seq<Event>, part: seq<Event>)
    requires Grows(a, b)
    ensures NoneCreates(before) && NoneCreates(part) ==> NoneCreates(before + part)
    ensures forall parent :: ParentFound(a, before, parent) || ParentFound(b, part, parent) ==> ParentFound(b, before + part, parent)
    ensures forall version :: BaseFound(a, before, version) || BaseFound(b, part, version) ==> BaseFound(b, before + part, version)
    ensures VersionFound(before) || VersionFound(part) ==> VersionFound(before + part)
    ensures VolumeFound(before) || VolumeFound(part) ==> VolumeFound(before + part)
    ensures SigningFound(before) || SigningFound(part) ==> SigningFound(before + part)
  {
    hide ParentFound, BaseFound, VersionFound, VolumeFound, SigningFound, NoneCreates, Grows;
    FoundLater(a, b, before);
    FoundInBoth(b, before, part);
  }

  lemma FoundByParent(store: Store, part: seq<Event>, id: nat, name: string, spec: PipelineSpec, base: nat,
                      copy: PipelineRevision, ok: bool, at: nat, pipeline: PipelineRevision)
    requires ParentChecked(store, part, id, name, spec, base, copy, ok, at, pipeline)
    ensures NoneCreates(part) && (ok ==> ParentFound(store, part, spec.parent) && pipeline.status.version == copy.status.version)
  {
    if ok { assert ParentEvent(store, part[0], spec.parent); }
  }

  lemma FoundByBase(store: Store, part: seq<Event>, id: nat, name: string, spec: PipelineSpec, at: nat, copy: PipelineRevision,
                    ok: bool)
    requires BaseChecked(store, part, id, name, spec, at, copy, ok)
    ensures NoneCreates(part) && (ok ==> BaseFound(store, part, spec.baseVersion))
  {
    hide VersionListed;
    if ok { assert BaseEvent(store, part[0], spec.baseVersion); }
  }

  lemma FoundByVersion(part: seq<Event>, id: nat, name: string, base: nat, copy: PipelineRevision, ok: bool, pipeline: PipelineRevision)
    requires VersionGiven(part, id, name, base, copy, ok, pipeline)
    ensures NoneCreates(part) && (ok ==> VersionFound(part))
  {
    if ok { assert VersionEvent(part[1]); }
  }

  lemma FoundByClaim(store: Store, recorded: seq<Event>, id: nat, name: string, spec: PipelineSpec, base: nat,
                     copy: PipelineRevision, ok: bool, at: nat, pipeline: PipelineRevision)
    requires WorkingClaimRecorded(store, recorded, id, name, spec, base, copy, ok, at, pipeline)
    ensures NoneCreates(recorded)
  {
  }

  lemma FoundByGrowth(store: Store, part: seq<Event>, id: nat, claim: string, desired: nat, size: nat, ok: bool)
    requires Grown(store, part, id, claim, desired, size, ok)
    ensures NoneCreates(part) && VolumeFound(part)
  {
  }

  lemma FoundBySigning(store: Store, part: seq<Event>, id: nat, ok: bool)
    requires SigningChecked(store, part, id, ok)
    ensures NoneCreates(part) && (ok ==> SigningFound(part))
  {
    if ok { assert SigningEvent(part[0]); }
  }

  lemma NothingCreated(store: Store, part: seq<Event>, spec: PipelineSpec, status: PipelineStatus)
    requires NoneCreates(part)
    ensures CreatesCleared(store, part, spec, status)
  {
  }

  lemma ClearedBehind(store: Store, before: seq<Event>, part: seq<Event>, spec: PipelineSpec, status: PipelineStatus)
    requires NoneCreates(before) && CreatesCleared(store, part, spec, status)
    ensures CreatesCleared(store, before + part, spec, status)
  {
    forall k | 0 <= k < |before + part| && (before + part)[k].step.CreateRun?
      ensures Cleared(store, (before + part)[..k], spec, status)
    {
      var j := k - |before|;
      assert (before + part)[..k] == before + part[..j];
      FoundInBoth(store, before, part[..j]);
    }
  }

  /** Parent, base version and version are as a run needs them. */
  ghost predicate Allowed(store: Store, part: seq<Event>, spec: PipelineSpec, status: PipelineStatus) {
    && (spec.parent != "" ==> ParentFound(store, part, spec.parent))
    && (spec.incremental && spec.baseVersion != "" ==> BaseFound(store, part, spec.baseVersion))
    && (status.version == "" ==> VersionFound(part))
  }

  /** A run is created only behind the lookup of the claim and of the signing configuration. */
  ghost predicate Provided(part: seq<Event>) {
    forall k :: 0 <= k < |part| && part[k].step.CreateRun? ==> VolumeFound(part[..k]) && SigningFound(part[..k])
  }

  lemma NothingProvided(part: seq<Event>)
    requires NoneCreates(part)
    ensures Provided(part)
  {
  }

  lemma ProvidedThenStarted(store: Store, before: seq<Event>, part: seq<Event>, id: nat, name: string, claim: string)
    requires NoneCreates(before) && VolumeFound(before) && SigningFound(before) && RunStarted(store, part, id, name, claim)
    ensures Provided(before + part)
  {
    hide VolumeFound, SigningFound, Server.RunIs;
    forall k | 0 <= k < |before + part| && (before + part)[k].step.CreateRun? ensures (before + part)[..k] == before {
    }
  }

  lemma CheckedThenProvided(a: Store, b: Store, before: seq<Event>, part: seq<Event>, spec: PipelineSpec, status: PipelineStatus)
    requires Grows(a, b) && NoneCreates(before) && Allowed(a, before, spec, status) && Provided(part)
    ensures CreatesCleared(b, before + part, spec, status)
  {
    hide Grows, ParentFound, BaseFound, VersionFound, VolumeFound, SigningFound;
    forall k | 0 <= k < |before + part| && (before + part)[k].step.CreateRun?
      ensures Cleared(b, (before + part)[..k], spec, status)
    {
      var j := k - |before|;
      assert (before + part)[..k] == before + part[..j];
      FoundOnward(a, b, before, part[..j]);
    }
  }

  /** The calls of a pipeline's reconcile after its first read. `first` is the early expansion with its outcome `grown`: the
      size the claim had, and whether the reconcile went on. A finished pipeline with the annotation is restarted. */
  ghost predicate Reconciled(store: Store, part: seq<Event>, first: seq<Event>, grown: (nat, bool), id: nat, name: string, at: nat,
                             spec: PipelineSpec, copy: PipelineRevision)
  {
    var phase, run := copy.status.phase, copy.status.runRef;
    if copy.trigger && run != "" && (phase.Succeeded? || phase.Complete? || phase.Failed? || phase.Stale?) then
      Restarted(part, id, name, at, copy)
    else
      && first <= part
      && (if spec.size.Some? then Grown(store, first, id, ExpandClaim(name, spec, copy.status), spec.size.value, grown.0, grown.1)
          else first == [] && grown.1)
      && (if !grown.1 then part == first
          else if run != "" then RecreatedOrTracked(store, part[|first|..], id, name, at, copy)
          else CreatesCleared(store, part[|first|..], spec, copy.status))
  }

  lemma RestartReconciled(store: Store, part: seq<Event>, grown: (nat, bool), id: nat, name: string, at: nat, spec: PipelineSpec,
                          copy: PipelineRevision)
    requires copy.trigger && Restartable(copy.status) && Restarted(part, id, name, at, copy)
    ensures Reconciled(store, part, [], grown, id, name, at, spec, copy)
  {
  }

  lemma RefusedReconciled(store: Store, part: seq<Event>, grown: (nat, bool), id: nat, name: string, at: nat, spec: PipelineSpec,
                          copy: PipelineRevision)
    requires !(copy.trigger && Restartable(copy.status)) && spec.size.Some? && !grown.1
    requires Grown(store, part, id, ExpandClaim(name, spec, copy.status), spec.size.value, grown.0, grown.1)
    ensures Reconciled(store, part, part, grown, id, name, at, spec, copy)
  {
  }

  lemma GoneOnReconciled(store: Store, first: seq<Event>, rest: seq<Event>, grown: (nat, bool), id: nat, name: string, at: nat,
                         spec: PipelineSpec, copy: PipelineRevision)
    requires !(copy.trigger && Restartable(copy.status)) && grown.1
    requires if spec.size.Some? then Grown(store, first, id, ExpandClaim(name, spec, copy.status), spec.size.value, grown.0, grown.1)
             else first == []
    requires if copy.status.runRef != "" then RecreatedOrTracked(store, rest, id, name, at, copy)
             else CreatesCleared(store, rest, spec, copy.status)
    ensures Reconciled(store, first + rest, first, grown, id, name, at, spec, copy)
  {
    hide Grown, RecreatedOrTracked, CreatesCleared;
    assert (first + rest)[|first|..] == rest;
  }

  /** So a run is created only behind everything the spec asks for, whichever way the reconcile went. */
  lemma CreatesOnlyCleared(store: Store, part: seq<Event>, first: seq<Event>, grown: (nat, bool), id: nat, name: string, at: nat,
                           spec: PipelineSpec, copy: PipelineRevision)
    requires Reconciled(store, part, first, grown, id, name, at, spec, copy)
    ensures CreatesCleared(store, part, spec, copy.status)
  {
    hide Restarted, Grown, RecreatedOrTracked, CreatesCleared, NoneCreates;
    if copy.trigger && Restartable(copy.status) {
      NoneByRestart(part, id, name, at, copy);
      NothingCreated(store, part, spec, copy.status);
    } else {
      if spec.size.Some? { FoundByGrowth(store, first, id, ExpandClaim(name, spec, copy.status), spec.size.value, grown.0, grown.1); }
      else { NothingIn(); }
      var rest := part[|first|..];
      assert part == first + rest;
      if !grown.1 {
        NothingCreated(store, part, spec, copy.status);
      } else {
        if copy.status.runRef != "" {
          NoneByTracking(store, rest, id, name, at, copy);
          NothingCreated(store, rest, spec, copy.status);
        }
        ClearedBehind(store, first, rest, spec, copy.status);
      }
    }
  }

  lemma NothingIn()
    ensures NoneCreates([])
  {
  }

  lemma SpecKept(a: Store, b: Store, name: string)
    requires Grows(a, b) && name in a.pipelines
    ensures name in b.pipelines && b.pipelines[name].spec == a.pipelines[name].spec
  {
  }

  lemma ReadThere(api: Server, id: nat, name: string, at: nat, spec: PipelineSpec, copy: PipelineRevision, pc: PipelinePc)
    requires api.PipelineAt(id, name, at, spec, copy, pc)
    ensures name in api.store.pipelines && api.store.pipelines[name].spec == spec
    ensures at < |api.store.pipelines[name].revisions| && api.store.pipelines[name].revisions[at] == copy
  {
  }

  /** What the two stretches of ensurePVC contain. */
  lemma FoundByVolume(store: Store, recorded: seq<Event>, part: seq<Event>, id: nat, name: string, spec: PipelineSpec, base: nat,
                      copy: PipelineRevision, size: nat, ok: bool, at: nat, pipeline: PipelineRevision)
    requires recorded <= part
    requires if |recorded| == |part| then WorkingClaimRecorded(store, recorded, id, name, spec, base, copy, false, at, pipeline) && !ok
             else && WorkingClaimRecorded(store, recorded, id, name, spec, base, copy, true, at, pipeline)
                  && Grown(store, part[|recorded|..], id, pipeline.status.claim, SizeOf(spec), size, ok)
    ensures NoneCreates(part) && (ok ==> VolumeFound(part))
  {
    hide WorkingClaimRecorded, Grown, NoneCreates, VolumeFound;
    FoundByClaim(store, recorded, id, name, spec, base, copy, |recorded| < |part|, at, pipeline);
    if |recorded| < |part| {
      FoundByGrowth(store, part[|recorded|..], id, pipeline.status.claim, SizeOf(spec), size, ok);
      FoundInBoth(store, recorded, part[|recorded|..]);
      assert recorded + part[|recorded|..] == part;
    } else {
      assert recorded == part;
    }
  }

  lemma NoneByTracking(store: Store, part: seq<Event>, id: nat, name: string, at: nat, copy: PipelineRevision)
    requires RecreatedOrTracked(store, part, id, name, at, copy)
    ensures NoneCreates(part)
  {
    hide CollectionEntered, NoneCreates;
    var n := if part[0].step.observed == Some(Waiting) && part[0].step.signingChanged then 2 else 1;
    if n == 2 {
      NoneInOne(part[2..]);
    } else {
      var tracked := part[1..];
      if |tracked| > 2 {
        NoneByEntering(store, tracked[2..], id, name, copy.status.version);
        NoneBehind(tracked, 2);
      } else {
        NoneInTwo(tracked);
      }
    }
    NoneBehind(part, n);
  }

  lemma NoneInOne(part: seq<Event>)
    requires |part| == 1 && !part[0].step.CreateRun?
    ensures NoneCreates(part)
  {
  }

  lemma NoneInTwo(part: seq<Event>)
    requires |part| == 2 && !part[0].step.CreateRun? && !part[1].step.CreateRun?
    ensures NoneCreates(part)
  {
  }

  lemma NoneByEntering(store: Store, part: seq<Event>, id: nat, name: string, version: string)
    requires CollectionEntered(store, part, id, name, version)
    ensures NoneCreates(part)
  {
    if |part| > 1 { assert part[1] == part[1..][0]; }
  }

  /** The first calls create nothing, and neither do the others. */
  lemma NoneBehind(part: seq<Event>, n: nat)
    requires n <= |part| && n <= 2 && NoneCreates(part[n..])
    requires forall k :: 0 <= k < n ==> !part[k].step.CreateRun?
    ensures NoneCreates(part)
  {
    forall k | 0 <= k < |part| ensures !part[k].step.CreateRun? {
      if k >= n { assert part[k] == part[n..][k - n]; }
    }
  }

  lemma NoneByRestart(part: seq<Event>, id: nat, name: string, at: nat, copy: PipelineRevision)
    requires Restarted(part, id, name, at, copy)
    ensures NoneCreates(part)
  {
  }

  lemma GrownKept(a: Store, b: Store, part: seq<Event>, id: nat, claim: string, desired: nat, size: nat, ok: bool)
    requires Grows(a, b) && Grown(a, part, id, claim, desired, size, ok)
    ensures Grown(b, part, id, claim, desired, size, ok)
  {
    if part[0].step.found.Some? { SizeKept(a, b, claim, part[0].step.found.value, size); }
  }

  // ---------------------------------------------------------------- MirrorImport

  /** The import fails exactly when its version is listed in the platform read. */
  ghost predicate ImportStarted(store: Store, part: seq<Event>, id: nat, name: string, spec: ImportSpec, at: nat, copy: ImportStatus) {
    if spec.collectionVersion == "" then OnlySends(part, id, WriteImport(name, at, copy.(phase := Importing)))
    else
      && |part| > 0 && part[0].step.ReadPlatform? && part[0] == Called(ReadPlatform(id, part[0].step.found, part[0].step.now))
      && var found := part[0].step.found;
         && (found.Some? ==> found.value < |store.platform|)
         && var listed := found.Some? && VersionListed(store.platform[found.value].imports, spec.collectionVersion);
            OnlySends(part[1..], id, WriteImport(name, at, copy.(phase := if listed then ImportFailed else Importing)))
  }

  ghost predicate ImportTracked(store: Store, part: seq<Event>, id: nat, name: string, at: nat, copy: ImportStatus) {
    if copy.runRef == "" then ImportRunStarted(store, part, id, name)
    else
      && |part| > 0 && part[0].step.TrackRun? && part[0] == Called(TrackRun(id, part[0].step.observed))
      && match part[0].step.observed
         case None => OnlySends(part[1..], id, WriteImport(name, at, copy.(runRef := "")))
         case Some(Completed(succeeded)) =>
           OnlySends(part[1..], id, WriteImport(name, at, copy.(phase := if succeeded then Publishing else ImportFailed)))
         case Some(_) => |part| == 1
  }

  ghost predicate ImportRunStarted(store: Store, part: seq<Event>, id: nat, name: string) {
    && |part| == 3 && part[0].step.CreateRun? && part[1].step.ReadLatest?
    && var run, k := part[0].step.run, part[1].step.at;
       && part[0] == Called(CreateRun(id, run)) && part[1] == Called(ReadLatest(id, k))
       && Server.RunIs(store, run, OfImport(name), "")
       && name in store.imports && k < |store.imports[name].revisions|
       && var latest := store.imports[name].revisions[k];
          if latest.runRef != "" && latest.runRef != run then
            part[2] == Called(DeleteDuplicate(id)) && store.runs[run].deleted
          else OnlySends(part[2..], id, WriteImport(name, k, latest.(runRef := run)))
  }

  /** The import is completed first, and entered only when that was accepted. */
  predicate ImportFinalized(store: Store, part: seq<Event>, id: nat, name: string, spec: ImportSpec, at: nat, copy: ImportStatus) {
    && |part| > 0 && part[0] == Sent(id, WriteImport(name, at, copy.(phase := Imported)), part[0].accepted)
    && (if part[0].accepted then ImportEntered(store, part[1..], id, name, spec) else |part| == 1)
  }

  predicate ImportEntered(store: Store, part: seq<Event>, id: nat, name: string, spec: ImportSpec) {
    && |part| > 0 && part[0].step.ReadPlatform? && part[0] == Called(ReadPlatform(id, part[0].step.found, part[0].step.now))
    && match part[0].step.found
       case None => |part| == 1
       case Some(k) =>
         && k < |store.platform|
         && var version := if spec.collectionVersion != "" then spec.collectionVersion else "import-" + name + "-" + spec.createdDate;
            var read, entry := store.platform[k], Info(version, part[0].step.now);
            OnlySends(part[1..], id,
              WritePlatform(k, read.(imports := read.imports + [entry], lastImport := Some(entry), event := ImportAppended(name))))
  }

  // ---------------------------------------------------------------- DisconnectedPlatform

  /** What the two list calls returned, and the pipelines and imports the server held then. */
  datatype Listings = Listings(pipelines: map<string, Pipeline>, list: seq<Listed>, now: nat,
                               imports: map<string, Import>, names: seq<Listed>)

  /** The listings are from between two stores. */
  ghost predicate Between(a: Store, seen: Listings, b: Store) {
    && PipelinesGrow(a.pipelines, seen.pipelines) && PipelinesGrow(seen.pipelines, b.pipelines)
    && ImportsGrow(a.imports, seen.imports) && ImportsGrow(seen.imports, b.imports)
  }

  ghost predicate ValidListings(seen: Listings) {
    ValidPipelineList(seen.pipelines, seen.list) && ValidImportList(seen.imports, seen.names)
  }

  /** The platform read, each of its two histories replaced by what was listed unless that yields nothing. */
  ghost function AggregateOver(before: PlatformRevision, seen: Listings): PlatformRevision
    requires ValidListings(seen)
  {
    ImportersKnown(seen.imports, seen.names);
    var importers := Importers(seen.imports, seen.names);
    AggregatedRevision(before, CollectVersions(seen.pipelines, seen.list, seen.now), ImportInfos(seen.imports, importers),
                       importers, seen.list, seen.now, seen.names)
  }

  /** Both lists, then one guarded update of the platform read, or none, which needs that nothing has changed. */
  ghost predicate AggregatedAfter(store: Store, part: seq<Event>, id: nat, at: nat, seen: Listings, updated: bool) {
    && |part| == 3 && part[0] == Called(ListPipelines(id, seen.list, seen.now))
    && ImportsAggregated(store, part[1..], id, at, seen, updated)
  }

  /** The second list call and what follows it. */
  ghost predicate ImportsAggregated(store: Store, part: seq<Event>, id: nat, at: nat, seen: Listings, updated: bool) {
    && |part| == 2 && at < |store.platform| && ValidListings(seen)
    && part[0] == Called(ListImports(id, seen.names))
    && Saved(store, part[1], id, at, AggregateOver(store.platform[at], seen), updated)
  }

  predicate Saved(store: Store, last: Event, id: nat, at: nat, platform: PlatformRevision, updated: bool) {
    && at < |store.platform|
    && (updated ==> at + 1 < |store.platform| && store.platform[at + 1] == platform)
    && (last == Sent(id, WritePlatform(at, platform), updated)
        || (last == Called(SkipUpdate(id)) && !updated && platform.(event := store.platform[at].event) == store.platform[at]))
  }

  lemma ImportsAggregatedParts(store: Store, id: nat, at: nat, seen: Listings, platform: PlatformRevision, last: seq<Event>,
                               updated: bool)
    requires ValidListings(seen) && at < |store.platform| && platform == AggregateOver(store.platform[at], seen)
    requires |last| == 1 && Saved(store, last[0], id, at, platform, updated)
    ensures ImportsAggregated(store, [Called(ListImports(id, seen.names))] + last, id, at, seen, updated)
  {
  }

  lemma AggregatedParts(store: Store, rest: seq<Event>, id: nat, at: nat, seen: Listings, updated: bool)
    requires ImportsAggregated(store, rest, id, at, seen, updated)
    ensures AggregatedAfter(store, [Called(ListPipelines(id, seen.list, seen.now))] + rest, id, at, seen, updated)
  {
    assert ([Called(ListPipelines(id, seen.list, seen.now))] + rest)[1..] == rest;
  }

  ghost predicate Aggregating(store: Store, part: seq<Event>, id: nat, at: nat, seen: Listings, updated: bool) {
    && |part| == 4 && part[0] == Called(BeginPlatform(id, at))
    && AggregatedAfter(store, part[1..], id, at, seen, updated)
  }

  lemma AggregatingAfter(store: Store, first: Event, rest: seq<Event>, id: nat, at: nat, seen: Listings, updated: bool)
    requires first == Called(BeginPlatform(id, at)) && AggregatedAfter(store, rest, id, at, seen, updated)
    ensures Aggregating(store, [first] + rest, id, at, seen, updated)
  {
    assert ([first] + rest)[1..] == rest;
  }

  lemma BetweenCalls(a: Store, imported: Store, b: Store, seen: Listings)
    requires Grows(a, imported) && Grows(imported, b) && seen.pipelines == a.pipelines && seen.imports == imported.imports
    ensures Between(a, seen, b)
  {
  }

  lemma BetweenLater(a: Store, start: Store, seen: Listings, b: Store)
    requires Grows(a, start) && Between(start, seen, b)
    ensures Between(a, seen, b)
  {
  }

  // ---------------------------------------------------------------- putting parts together

  predicate Inner(step: Step, id: nat) {
    !Environment(step) && !Begins(step) && !step.Stop? && step.id == id
  }

  /** One more stretch of calls of the same reconcile. */
  lemma Extend(api: Server, before: seq<Event>, between: seq<Event>, id: nat, a: seq<Event>, b: seq<Event>)
    requires Own(between, id) == Own(before, id) + a && api.Added(between, id, b) && Continues(a, id) && Continues(b, id)
    ensures api.Added(before, id, a + b) && Continues(a + b, id) && (a + b)[|a|..] == b
  {
    api.Join(before, between, id, a, b);
  }

  /** One more call. */
  lemma Then(api: Server, before: seq<Event>, between: seq<Event>, id: nat, a: seq<Event>, e: Event)
    requires Own(between, id) == Own(before, id) + a && api.Added(between, id, [e]) && Continues(a, id) && Inner(e.step, id)
    ensures api.Added(before, id, a + [e]) && Continues(a + [e], id) && (a + [e])[|a|..] == [e]
  {
    api.Join(before, between, id, a, [e]);
  }

  lemma NoCalls(api: Server, id: nat)
    ensures api.Added(api.log, id, []) && Continues([], id)
  {
  }

  lemma SizeRead(store: Store, claim: string, k: nat, size: nat)
    requires claim in store.volumes && k < |store.volumes[claim].sizes| && store.volumes[claim].sizes[k] == size
    ensures SizeIs(store, claim, k, size)
  {
  }

  lemma First(api: Server, before: seq<Event>, id: nat, e: Event)
    requires api.Added(before, id, [e]) && Inner(e.step, id)
    ensures Continues([e], id) && Own(api.log, id) == Own(before, id) + [e]
  {
  }

  lemma ProgramOf(first: Event, rest: seq<Event>, id: nat)
    requires Begins(first.step) && first.step.id == id && Continues(rest, id)
    ensures IsProgram([first] + rest, id)
  {
  }

  // ---------------------------------------------------------------- what was read stays

  lemma PlatformKept(a: Store, b: Store, k: nat)
    requires Grows(a, b) && k < |a.platform|
    ensures k < |b.platform| && b.platform[k] == a.platform[k]
  {
  }

  lemma SizeKept(a: Store, b: Store, claim: string, k: nat, size: nat)
    requires Grows(a, b) && SizeIs(a, claim, k, size)
    ensures SizeIs(b, claim, k, size)
  {
  }

  lemma RevisionKept(a: Store, b: Store, name: string, k: nat)
    requires Grows(a, b) && name in a.pipelines && k < |a.pipelines[name].revisions|
    ensures name in b.pipelines && k < |b.pipelines[name].revisions|
    ensures b.pipelines[name].revisions[k] == a.pipelines[name].revisions[k]
  {
  }

  lemma ImportRevisionKept(a: Store, b: Store, name: string, k: nat)
    requires Grows(a, b) && name in a.imports && k < |a.imports[name].revisions|
    ensures name in b.imports && k < |b.imports[name].revisions|
    ensures b.imports[name].revisions[k] == a.imports[name].revisions[k]
  {
  }

  lemma RunKept(a: Store, b: Store, run: string, owner: Owner, claim: string)
    requires Grows(a, b) && Server.RunIs(a, run, owner, claim)
    ensures Server.RunIs(b, run, owner, claim) && (a.runs[run].deleted ==> b.runs[run].deleted)
  {
  }

  lemma DeletionKept(a: Store, b: Store, run: string)
    requires Grows(a, b) && run in a.runs && a.runs[run].deleted
    ensures run in b.runs && b.runs[run].deleted
  {
  }

  lemma RunThere(store: Store, run: string, owner: Owner, claim: string)
    requires Server.RunIs(store, run, owner, claim)
    ensures run in store.runs
  {
  }

  lemma WorkingClaimKept(a: Store, b: Store, part: seq<Event>, id: nat, name: string, spec: PipelineSpec, base: nat,
                         copy: PipelineRevision, ok: bool, at: nat, pipeline: PipelineRevision)
    requires Grows(a, b) && WorkingClaimRecorded(a, part, id, name, spec, base, copy, ok, at, pipeline)
    ensures WorkingClaimRecorded(b, part, id, name, spec, base, copy, ok, at, pipeline)
  {
    hide ClaimRecorded, Grows;
    if spec.parent != "" && part[0].step.found.Some? { RevisionKept(a, b, spec.parent, part[0].step.found.value); }
  }

  lemma GrowsTwice(a: Store, b: Store, c: Store)
    requires Grows(a, b) && Grows(b, c)
    ensures Grows(a, c)
  {
  }
}
