/** Phase and conditions of the platform status, as the reconciler's helper functions keep them up. Times are abstract:
    any values that do not decrease from one call to the next. */
module Conditions {
  datatype Truth = True | False | Unknown

  datatype Condition = Condition(kind: string, status: Truth, reason: string, message: string, generation: nat, transition: nat)

  datatype PlatformPhase = Empty | Ready | Error | Degraded

  datatype Status = Status(phase: PlatformPhase, conditions: seq<Condition>)

  const READY := "Ready"
  const DEGRADED := "Degraded"
  const HEALTHY := "Health check passed"

  // ---------------------------------------------------------------- specification

  function FirstOf(cs: seq<Condition>, kind: string): (i: nat)
    ensures i <= |cs| && (i < |cs| ==> cs[i].kind == kind) && forall k :: 0 <= k < i ==> cs[k].kind != kind
  {
    if |cs| == 0 then 0 else
      var i := FirstOf(cs[..|cs| - 1], kind);
      if i < |cs| - 1 then i else if cs[|cs| - 1].kind == kind then |cs| - 1 else |cs|
  }

  /** The condition of a kind, absent or present. */
  predicate Has(cs: seq<Condition>, kind: string) {
    FirstOf(cs, kind) < |cs|
  }

  function Get(cs: seq<Condition>, kind: string): Condition
    requires Has(cs, kind)
  {
    cs[FirstOf(cs, kind)]
  }

  function Put(cs: seq<Condition>, c: Condition): seq<Condition> {
    if Has(cs, c.kind) then cs[FirstOf(cs, c.kind) := c] else cs + [c]
  }

  /** The Ready condition after it is set to `status`. */
  function NextReady(cs: seq<Condition>, status: Truth, reason: string, message: string, generation: nat, now: nat): Condition {
    if !Has(cs, READY) then Condition(READY, status, reason, message, generation, now)
    else
      var c := Get(cs, READY);
      Condition(READY, status, reason, message, generation, if c.status == status then c.transition else now)
  }

  predicate SaysAlready(cs: seq<Condition>, status: Truth, reason: string, message: string) {
    Has(cs, READY) && var c := Get(cs, READY); c.status == status && c.reason == reason && c.message == message
  }

  /** One call of the reconciler on the status. */
  datatype Call =
    | Begin
    | Fail
    | SetError(reason: string, message: string, generation: nat, now: nat)
    | SetReady(reason: string, message: string, generation: nat, now: nat)
    | UpdateDegraded(reason: string, message: string, now: nat)
    | ClearDegraded(reason: string, now: nat)

  function AfterUpdate(s: Status, reason: string, message: string, now: nat): Status {
    var c := Condition(DEGRADED, True, reason, message, 0, now);
    var stays := Has(s.conditions, DEGRADED) && Get(s.conditions, DEGRADED).status.True?
                 && Get(s.conditions, DEGRADED).reason == reason;
    Status(if s.phase.Error? then Error else Degraded, if stays then s.conditions else Put(s.conditions, c))
  }

  function FirstReason(cs: seq<Condition>, reason: string): (i: nat)
    ensures i <= |cs| && (i < |cs| ==> cs[i].kind == DEGRADED && cs[i].reason == reason)
    ensures forall k :: 0 <= k < i ==> !(cs[k].kind == DEGRADED && cs[k].reason == reason)
  {
    if |cs| == 0 then 0 else
      var i := FirstReason(cs[..|cs| - 1], reason);
      if i < |cs| - 1 then i
      else if cs[|cs| - 1].kind == DEGRADED && cs[|cs| - 1].reason == reason then |cs| - 1 else |cs|
  }

  predicate AnyDegraded(cs: seq<Condition>) {
    exists k :: 0 <= k < |cs| && cs[k].kind == DEGRADED && cs[k].status.True?
  }

  function Cleared(cs: seq<Condition>, reason: string, now: nat): seq<Condition> {
    var i := FirstReason(cs, reason);
    if i == |cs| || (cs[i].status.False? && cs[i].message == HEALTHY) then cs
    else cs[i := cs[i].(status := False, message := HEALTHY, transition := now)]
  }

  function AfterClear(s: Status, reason: string, now: nat): Status {
    var cs := Cleared(s.conditions, reason, now);
    Status(if s.phase.Degraded? && !AnyDegraded(cs) then Ready else s.phase, cs)
  }

  function Step(s: Status, call: Call): Status {
    match call
    case Begin => s.(phase := Ready)
    case Fail => s.(phase := Error)
    case SetError(reason, message, generation, now) =>
      if SaysAlready(s.conditions, False, reason, message) then s
      else s.(conditions := Put(s.conditions, NextReady(s.conditions, False, reason, message, generation, now)))
    case SetReady(reason, message, generation, now) =>
      if SaysAlready(s.conditions, True, reason, message) && Get(s.conditions, READY).generation == generation then s
      else s.(conditions := Put(s.conditions, NextReady(s.conditions, True, reason, message, generation, now)))
    case UpdateDegraded(reason, message, now) => AfterUpdate(s, reason, message, now)
    case ClearDegraded(reason, now) => AfterClear(s, reason, now)
  }

  function Run(s: Status, calls: seq<Call>): Status {
    if |calls| == 0 then s else Step(Run(s, calls[..|calls| - 1]), calls[|calls| - 1])
  }

  // ---------------------------------------------------------------- what a call leaves, read off the conditions

  /** The first condition of the kind. */
  predicate IsFirst(cs: seq<Condition>, kind: string, i: nat) {
    i < |cs| && cs[i].kind == kind && forall j :: 0 <= j < i ==> cs[j].kind != kind
  }

  /** The condition of the kind says this. */
  ghost predicate Says(cs: seq<Condition>, kind: string, status: Truth, reason: string, message: string) {
    exists i: nat :: IsFirst(cs, kind, i) && cs[i].status == status && cs[i].reason == reason && cs[i].message == message
  }

  /** The first Degraded condition with the reason, if there is one, is now False and healthy; nothing else has changed. */
  predicate ReasonCleared(before: seq<Condition>, after: seq<Condition>, reason: string, now: nat) {
    && |after| == |before|
    && (forall k :: 0 <= k < |after| ==>
          if before[k].kind == "Degraded" && before[k].reason == reason
             && (forall j :: 0 <= j < k ==> !(before[j].kind == "Degraded" && before[j].reason == reason))
          then after[k].status.False? && after[k].message == "Health check passed" && after[k].kind == "Degraded"
               && after[k].reason == reason && (after[k] == before[k] || after[k].transition == now)
          else after[k] == before[k])
  }

  /** Only the condition of this kind is changed or added. */
  predicate OthersKept(before: seq<Condition>, after: seq<Condition>, kind: string) {
    && |before| <= |after| <= |before| + 1
    && (forall k :: 0 <= k < |before| && before[k].kind != kind ==> after[k] == before[k])
    && (forall k :: 0 <= k < |after| && (k == |before| || before[k].kind == kind) ==> after[k].kind == kind)
  }

  // ---------------------------------------------------------------- the status as it is updated in place

  class PlatformStatus {
    var phase: PlatformPhase
    var conditions: seq<Condition>

    ghost function Value(): Status
      reads this
    {
      Status(phase, conditions)
    }

    method BeginReconcile()
      modifies this`phase
      ensures Value() == Step(old(Value()), Begin)
      ensures phase == Ready
    {
      if phase.Empty? { phase := Ready; }
      phase := Ready;
    }

    /** What a reconcile does when a component fails. */
    method FailReconcile(reason: string, message: string, generation: nat, now: nat)
      modifies this
      ensures Value() == Run(old(Value()), [Fail, SetError(reason, message, generation, now)])
      ensures phase == Error && Says(conditions, "Ready", False, reason, message)
      ensures OthersKept(old(conditions), conditions, "Ready")
    {
      phase := Error;
      assert Value() == Step(old(Value()), Fail);
      SetErrorCondition(reason, message, generation, now);
      RunTwo(old(Value()), Fail, SetError(reason, message, generation, now));
    }

    method SetErrorCondition(reason: string, message: string, generation: nat, now: nat)
      modifies this`conditions
      ensures Value() == Step(old(Value()), SetError(reason, message, generation, now))
      ensures Says(conditions, "Ready", False, reason, message) && OthersKept(old(conditions), conditions, "Ready")
      ensures conditions == old(conditions)
              || exists i: nat :: IsFirst(conditions, "Ready", i) && conditions[i].generation == generation
    {
      for i := 0 to |conditions|
        invariant conditions == old(conditions)
        invariant forall k :: 0 <= k < i ==> conditions[k].kind != READY
      {
        var c := conditions[i];
        if c.kind == READY {
          FirstIs(conditions, READY, i);
          assert IsFirst(conditions, "Ready", i);
          if c.status.False? && c.reason == reason && c.message == message { return; }
          var lastTransition := c.transition;
          if !c.status.False? { lastTransition := now; }
          conditions := conditions[i := Condition(READY, False, reason, message, generation, lastTransition)];
          assert IsFirst(conditions, "Ready", i);
          return;
        }
      }
      FirstIs(conditions, READY, |conditions|);
      conditions := conditions + [Condition(READY, False, reason, message, generation, now)];
      assert IsFirst(conditions, "Ready", |old(conditions)|);
    }

    method SetReadyCondition(reason: string, message: string, generation: nat, now: nat)
      modifies this`conditions
      ensures Value() == Step(old(Value()), SetReady(reason, message, generation, now))
      ensures Says(conditions, "Ready", True, reason, message) && OthersKept(old(conditions), conditions, "Ready")
      ensures exists i: nat :: IsFirst(conditions, "Ready", i) && conditions[i].generation == generation
    {
      for i := 0 to |conditions|
        invariant conditions == old(conditions)
        invariant forall k :: 0 <= k < i ==> conditions[k].kind != READY
      {
        var c := conditions[i];
        if c.kind == READY {
          FirstIs(conditions, READY, i);
          assert IsFirst(conditions, "Ready", i);
          if c.status.True? && c.reason == reason && c.message == message && c.generation == generation { return; }
          var lastTransition := c.transition;
          if !c.status.True? { lastTransition := now; }
          conditions := conditions[i := Condition(READY, True, reason, message, generation, lastTransition)];
          assert IsFirst(conditions, "Ready", i);
          return;
        }
      }
      FirstIs(conditions, READY, |conditions|);
      conditions := conditions + [Condition(READY, True, reason, message, generation, now)];
      assert IsFirst(conditions, "Ready", |old(conditions)|);
    }

    method UpdateDegradedCondition(reason: string, message: string, now: nat)
      modifies this
      ensures Value() == Step(old(Value()), UpdateDegraded(reason, message, now))
      ensures exists i: nat :: IsFirst(conditions, "Degraded", i) && conditions[i].status.True? && conditions[i].reason == reason
      ensures conditions == old(conditions) || Says(conditions, "Degraded", True, reason, message)
      ensures conditions == old(conditions) || exists i: nat :: IsFirst(conditions, "Degraded", i) && conditions[i].transition == now
      ensures OthersKept(old(conditions), conditions, "Degraded")
      ensures phase == if old(phase).Error? then Error else Degraded
    {
      var degraded := Condition(DEGRADED, True, reason, message, 0, now);
      var found := false;
      for i := 0 to |conditions|
        invariant !found && phase == old(phase) && conditions == old(conditions)
        invariant forall k :: 0 <= k < i ==> conditions[k].kind != DEGRADED
      {
        if conditions[i].kind == DEGRADED {
          FirstIs(conditions, DEGRADED, i);
          if !conditions[i].status.True? || conditions[i].reason != reason {
            conditions := conditions[i := degraded];
          }
          assert IsFirst(conditions, "Degraded", i);
          found := true;
          break;
        }
      }
      if !found {
        FirstIs(conditions, DEGRADED, |conditions|);
        conditions := conditions + [degraded];
        assert IsFirst(conditions, "Degraded", |old(conditions)|);
      }
      if !phase.Error? { phase := Degraded; }
    }

    method ClearDegradedCondition(reason: string, now: nat)
      modifies this
      ensures Value() == Step(old(Value()), ClearDegraded(reason, now))
      ensures ReasonCleared(old(conditions), conditions, reason, now)
      ensures phase == if old(phase).Degraded? && (forall k :: 0 <= k < |conditions| ==>
                                                     !(conditions[k].kind == "Degraded" && conditions[k].status.True?))
                       then Ready else old(phase)
    {
      ClearReason(reason, now);
      var allCleared := true;
      for i := 0 to |conditions|
        invariant allCleared && forall k :: 0 <= k < i ==> !(conditions[k].kind == DEGRADED && conditions[k].status.True?)
      {
        if conditions[i].kind == DEGRADED && conditions[i].status.True? { allCleared := false; break; }
      }
      if allCleared && phase.Degraded? { phase := Ready; }
    }

    /** The first loop of clearDegradedCondition. */
    method ClearReason(reason: string, now: nat)
      modifies this`conditions
      ensures conditions == Cleared(old(conditions), reason, now)
      ensures ReasonCleared(old(conditions), conditions, reason, now)
    {
      for i := 0 to |conditions|
        invariant conditions == old(conditions)
        invariant forall k :: 0 <= k < i ==> !(conditions[k].kind == DEGRADED && conditions[k].reason == reason)
      {
        if conditions[i].kind == DEGRADED && conditions[i].reason == reason {
          ReasonIs(conditions, reason, i);
          if conditions[i].status.False? && conditions[i].message == HEALTHY { return; }
          conditions := conditions[i := conditions[i].(status := False, message := HEALTHY, transition := now)];
          return;
        }
      }
      ReasonIs(conditions, reason, |conditions|);
    }
  }

  lemma RunTwo(s: Status, a: Call, b: Call)
    ensures Run(s, [a, b]) == Step(Step(s, a), b)
  {
    assert [a, b][..1] == [a] && [a][..0] == [];
    assert Run(s, [a]) == Step(s, a);
    assert Run(s, [a, b]) == Step(Run(s, [a]), b);
  }

  lemma FirstIs(cs: seq<Condition>, kind: string, i: nat)
    requires i <= |cs| && (i < |cs| ==> cs[i].kind == kind) && forall k :: 0 <= k < i ==> cs[k].kind != kind
    ensures FirstOf(cs, kind) == i
  {
  }

  lemma ReasonIs(cs: seq<Condition>, reason: string, i: nat)
    requires i <= |cs| && (i < |cs| ==> cs[i].kind == DEGRADED && cs[i].reason == reason)
    requires forall k :: 0 <= k < i ==> !(cs[k].kind == DEGRADED && cs[k].reason == reason)
    ensures FirstReason(cs, reason) == i
  {
  }

  // ---------------------------------------------------------------- over any sequence of calls

  ghost predicate OneEach(cs: seq<Condition>) {
    forall j, k :: 0 <= j < k < |cs| ==> cs[j].kind != cs[k].kind
  }

  ghost predicate Sound(s: Status) {
    OneEach(s.conditions) && (s.phase.Degraded? ==> Has(s.conditions, DEGRADED) && Get(s.conditions, DEGRADED).status.True?)
  }

  lemma PutMeaning(cs: seq<Condition>, c: Condition)
    ensures Has(Put(cs, c), c.kind) && Get(Put(cs, c), c.kind) == c
    ensures forall kind :: kind != c.kind ==> (Has(Put(cs, c), kind) <==> Has(cs, kind))
    ensures forall kind :: kind != c.kind && Has(cs, kind) ==> Get(Put(cs, c), kind) == Get(cs, kind)
    ensures OneEach(cs) ==> OneEach(Put(cs, c))
  {
    var r := Put(cs, c);
    FirstIs(r, c.kind, FirstOf(cs, c.kind));
    forall kind | kind != c.kind
      ensures Has(r, kind) <==> Has(cs, kind)
      ensures Has(cs, kind) ==> Get(r, kind) == Get(cs, kind)
    {
      var i := FirstOf(cs, kind);
      if i < |cs| { FirstIs(r, kind, i); } else { FirstIs(r, kind, |r|); }
    }
  }

  lemma ClearedMeaning(cs: seq<Condition>, reason: string, now: nat)
    requires OneEach(cs)
    ensures OneEach(Cleared(cs, reason, now))
    ensures forall kind :: Has(Cleared(cs, reason, now), kind) <==> Has(cs, kind)
    ensures forall kind :: kind != DEGRADED && Has(cs, kind) ==> Get(Cleared(cs, reason, now), kind) == Get(cs, kind)
    ensures AnyDegraded(Cleared(cs, reason, now)) <==>
            Has(cs, DEGRADED) && Get(cs, DEGRADED).status.True? && Get(cs, DEGRADED).reason != reason
    ensures AnyDegraded(Cleared(cs, reason, now)) ==> Get(Cleared(cs, reason, now), DEGRADED) == Get(cs, DEGRADED)
  {
    var r := Cleared(cs, reason, now);
    forall kind
      ensures Has(r, kind) <==> Has(cs, kind)
      ensures kind != DEGRADED && Has(cs, kind) ==> Get(r, kind) == Get(cs, kind)
    {
      FirstIs(r, kind, FirstOf(cs, kind));
    }
    FirstIs(r, DEGRADED, FirstOf(cs, DEGRADED));
  }

  lemma StepSound(s: Status, call: Call)
    requires Sound(s)
    ensures Sound(Step(s, call))
  {
    hide FirstOf, FirstReason, Has, Get, Put, AnyDegraded, Cleared, OneEach;
    match call
    case Begin =>
    case Fail =>
    case SetError(reason, message, generation, now) =>
      PutMeaning(s.conditions, NextReady(s.conditions, False, reason, message, generation, now));
      assert READY != DEGRADED by { assert READY[0] != DEGRADED[0]; }
    case SetReady(reason, message, generation, now) =>
      PutMeaning(s.conditions, NextReady(s.conditions, True, reason, message, generation, now));
      assert READY != DEGRADED by { assert READY[0] != DEGRADED[0]; }
    case UpdateDegraded(reason, message, now) =>
      PutMeaning(s.conditions, Condition(DEGRADED, True, reason, message, 0, now));
    case ClearDegraded(reason, now) =>
      ClearedMeaning(s.conditions, reason, now);
  }

  /** Whatever is called in whatever order: one condition of each kind, and phase Degraded only with a Degraded
      condition that is True. */
  lemma {:induction false} ConditionsSound(s: Status, calls: seq<Call>)
    requires Sound(s)
    ensures Sound(Run(s, calls))
  {
    if |calls| > 0 {
      ConditionsSound(s, calls[..|calls| - 1]);
      StepSound(Run(s, calls[..|calls| - 1]), calls[|calls| - 1]);
    }
  }

  // ---------------------------------------------------------------- the Ready condition

  datatype Reported = Absent | Reported(status: Truth)

  function ReadyStatus(s: Status): Reported {
    if Has(s.conditions, READY) then Reported.Reported(Get(s.conditions, READY).status) else Absent
  }

  /** The k-th call creates the Ready condition or turns its status over. */
  ghost predicate Flips(s: Status, calls: seq<Call>, k: nat)
    requires k < |calls|
  {
    ReadyStatus(Run(s, calls[..k + 1])) != ReadyStatus(Run(s, calls[..k]))
  }

  ghost predicate NoFlipFrom(s: Status, calls: seq<Call>, from: nat) {
    forall k: nat :: from <= k < |calls| ==> !Flips(s, calls, k)
  }

  function TimeOf(call: Call): nat {
    match call
    case SetError(_, _, _, now) => now
    case SetReady(_, _, _, now) => now
    case UpdateDegraded(_, _, now) => now
    case ClearDegraded(_, now) => now
    case _ => 0
  }

  /** A call that turns Ready over stamps it with its own time, any other call leaves the stamp. */
  lemma StepStamp(s: Status, call: Call)
    requires OneEach(s.conditions)
    ensures var r := Step(s, call);
            && (Has(s.conditions, READY) ==> Has(r.conditions, READY))
            && (ReadyStatus(r) == ReadyStatus(s) && Has(s.conditions, READY) ==>
                  Get(r.conditions, READY).transition == Get(s.conditions, READY).transition)
            && (ReadyStatus(r) != ReadyStatus(s) ==>
                  Has(r.conditions, READY) && Get(r.conditions, READY).transition == TimeOf(call))
  {
    hide FirstOf, FirstReason, Has, Get, Put, AnyDegraded, Cleared, OneEach;
    assert READY != DEGRADED by { assert READY[0] != DEGRADED[0]; }
    match call
    case Begin =>
    case Fail =>
    case SetError(reason, message, generation, now) =>
      PutMeaning(s.conditions, NextReady(s.conditions, False, reason, message, generation, now));
    case SetReady(reason, message, generation, now) =>
      PutMeaning(s.conditions, NextReady(s.conditions, True, reason, message, generation, now));
    case UpdateDegraded(reason, message, now) =>
      PutMeaning(s.conditions, Condition(DEGRADED, True, reason, message, 0, now));
    case ClearDegraded(reason, now) =>
      ClearedMeaning(s.conditions, reason, now);
  }

  lemma FlipsBefore(s: Status, calls: seq<Call>, k: nat)
    requires k + 1 < |calls|
    ensures Flips(s, calls, k) <==> Flips(s, calls[..|calls| - 1], k)
  {
    assert calls[..|calls| - 1][..k + 1] == calls[..k + 1] && calls[..|calls| - 1][..k] == calls[..k];
  }

  /** The k-th call is the last flip, at time t. */
  ghost predicate StampedBy(s: Status, calls: seq<Call>, k: nat, t: nat) {
    k < |calls| && Flips(s, calls, k) && NoFlipFrom(s, calls, k + 1) && TimeOf(calls[k]) == t
  }

  ghost predicate Stamped(s: Status, calls: seq<Call>, t: nat) {
    || (Has(s.conditions, READY) && NoFlipFrom(s, calls, 0) && Get(s.conditions, READY).transition == t)
    || (exists k: nat :: StampedBy(s, calls, k, t))
  }

  lemma NoFlipExtended(s: Status, calls: seq<Call>, from: nat)
    requires |calls| > 0 && from <= |calls| - 1
    ensures NoFlipFrom(s, calls, from) <==> NoFlipFrom(s, calls[..|calls| - 1], from) && !Flips(s, calls, |calls| - 1)
  {
    hide Flips;
    var before, n := calls[..|calls| - 1], |calls| - 1;
    forall k: nat | k < n ensures Flips(s, calls, k) <==> Flips(s, before, k) { FlipsBefore(s, calls, k); }
  }

  lemma StampExtended(s: Status, calls: seq<Call>, t: nat)
    requires |calls| > 0 && !Flips(s, calls, |calls| - 1) && Stamped(s, calls[..|calls| - 1], t)
    ensures Stamped(s, calls, t)
  {
    hide Flips, Has, Get, NoFlipFrom;
    var before := calls[..|calls| - 1];
    if k: nat :| StampedBy(s, before, k, t) {
      NoFlipExtended(s, calls, k + 1);
      FlipsBefore(s, calls, k);
      assert StampedBy(s, calls, k, t);
    } else {
      NoFlipExtended(s, calls, 0);
    }
  }

  /** Ready's transition time is the time of the last call that turned it over or created it, and its first value
      when there was none. */
  lemma {:induction false} ReadyTransition(s: Status, calls: seq<Call>)
    requires Sound(s)
    ensures var r := Run(s, calls); Has(r.conditions, READY) ==> Stamped(s, calls, Get(r.conditions, READY).transition)
  {
    hide Step, Has, Get, Sound, ReadyStatus, Stamped;
    if |calls| == 0 {
      assert Has(s.conditions, READY) ==> Stamped(s, [], Get(s.conditions, READY).transition) by { StampedAtFirst(s); }
      assert calls == [];
    } else {
      var before, n := calls[..|calls| - 1], |calls| - 1;
      var was, r := Run(s, before), Run(s, calls);
      ReadyTransition(s, before);
      ConditionsSound(s, before);
      SoundOneEach(was);
      StepStamp(was, calls[n]);
      assert calls[..n + 1] == calls;
      StatusAbsent(was);
      StatusAbsent(r);
      if Flips(s, calls, n) {
        LastStamp(s, calls);
      } else if Has(r.conditions, READY) {
        StampExtended(s, calls, Get(was.conditions, READY).transition);
      }
    }
  }

  lemma StampedAtFirst(s: Status)
    ensures Has(s.conditions, READY) ==> Stamped(s, [], Get(s.conditions, READY).transition)
  {
    assert NoFlipFrom(s, [], 0);
  }

  lemma LastStamp(s: Status, calls: seq<Call>)
    requires |calls| > 0 && Flips(s, calls, |calls| - 1)
    ensures Stamped(s, calls, TimeOf(calls[|calls| - 1]))
  {
    hide Flips;
    assert StampedBy(s, calls, |calls| - 1, TimeOf(calls[|calls| - 1]));
  }

  lemma SoundOneEach(s: Status)
    requires Sound(s)
    ensures OneEach(s.conditions)
  {
  }

  lemma StatusAbsent(s: Status)
    ensures ReadyStatus(s).Absent? <==> !Has(s.conditions, READY)
  {
  }

  /** The call reports this about readiness. */
  predicate Reports(call: Call, c: Condition) {
    match call
    case SetError(reason, message, _, _) => c.status.False? && c.reason == reason && c.message == message
    case SetReady(reason, message, _, _) => c.status.True? && c.reason == reason && c.message == message
    case _ => false
  }

  predicate Reporting(call: Call) {
    call.SetError? || call.SetReady?
  }

  /** The k-th call is the last that reports readiness. */
  ghost predicate LastReport(calls: seq<Call>, k: nat) {
    k < |calls| && Reporting(calls[k]) && forall j :: k < j < |calls| ==> !Reporting(calls[j])
  }

  lemma StepReport(s: Status, call: Call)
    requires OneEach(s.conditions)
    ensures var r := Step(s, call);
            if Reporting(call) then Has(r.conditions, "Ready") && Reports(call, Get(r.conditions, "Ready"))
            else && (Has(r.conditions, "Ready") <==> Has(s.conditions, "Ready"))
                 && (Has(s.conditions, "Ready") ==> Get(r.conditions, "Ready") == Get(s.conditions, "Ready"))
  {
    hide FirstOf, FirstReason, Has, Get, Put, AnyDegraded, Cleared, OneEach;
    assert READY != DEGRADED by { assert READY[0] != DEGRADED[0]; }
    match call
    case Begin =>
    case Fail =>
    case SetError(reason, message, generation, now) =>
      PutMeaning(s.conditions, NextReady(s.conditions, False, reason, message, generation, now));
    case SetReady(reason, message, generation, now) =>
      PutMeaning(s.conditions, NextReady(s.conditions, True, reason, message, generation, now));
    case UpdateDegraded(reason, message, now) =>
      PutMeaning(s.conditions, Condition(DEGRADED, True, reason, message, 0, now));
    case ClearDegraded(reason, now) =>
      ClearedMeaning(s.conditions, reason, now);
  }

  /** Over any calls the Ready condition says what the last call that reports readiness said: an error makes it False and
      readiness True, with that call's reason and message; while there was none, it is what it was. */
  lemma {:induction false} ReadyIsLastReport(s: Status, calls: seq<Call>)
    requires Sound(s)
    ensures var r := Run(s, calls).conditions;
            && (forall k: nat :: LastReport(calls, k) ==> Has(r, "Ready") && Reports(calls[k], Get(r, "Ready")))
            && ((forall k :: 0 <= k < |calls| ==> !Reporting(calls[k])) ==>
                  (Has(r, "Ready") <==> Has(s.conditions, "Ready"))
                  && (Has(r, "Ready") ==> Get(r, "Ready") == Get(s.conditions, "Ready")))
  {
    hide Step, Has, Get, Sound, Reports;
    if |calls| > 0 {
      var before, n := calls[..|calls| - 1], |calls| - 1;
      ReadyIsLastReport(s, before);
      ConditionsSound(s, before);
      SoundOneEach(Run(s, before));
      StepReport(Run(s, before), calls[n]);
      forall k: nat | LastReport(calls, k)
        ensures Has(Run(s, calls).conditions, "Ready") && Reports(calls[k], Get(Run(s, calls).conditions, "Ready"))
      {
        if k < n {
          assert !Reporting(calls[n]);
          assert LastReport(before, k) by { forall j | k < j < |before| ensures !Reporting(before[j]) { assert before[j] == calls[j]; } }
        }
      }
    }
  }

  // ---------------------------------------------------------------- phase and Degraded

  predicate DegradedTrue(s: Status) {
    Has(s.conditions, DEGRADED) && Get(s.conditions, DEGRADED).status.True?
  }

  lemma StepDegraded(s: Status, call: Call)
    requires Sound(s) && !call.Begin?
    ensures var r := Step(s, call);
            && (r.phase.Error? <==> s.phase.Error? || call.Fail?)
            && (call.UpdateDegraded? ==> DegradedTrue(r) && (r.phase.Degraded? || s.phase.Error?))
            && (call.ClearDegraded? ==>
                  && (DegradedTrue(r) ==> DegradedTrue(s))
                  && r.phase == if s.phase.Degraded? && !DegradedTrue(r) then Ready else s.phase)
            && (!call.UpdateDegraded? && !call.ClearDegraded? ==>
                  (DegradedTrue(r) <==> DegradedTrue(s)) && (r.phase == s.phase || call.Fail?))
  {
    hide Has, Get, Put, FirstOf, OneEach, Cleared, AnyDegraded;
    assert READY != DEGRADED by { assert READY[0] != DEGRADED[0]; }
    match call
    case SetError(reason, message, generation, now) =>
      PutMeaning(s.conditions, NextReady(s.conditions, False, reason, message, generation, now));
    case SetReady(reason, message, generation, now) =>
      PutMeaning(s.conditions, NextReady(s.conditions, True, reason, message, generation, now));
    case UpdateDegraded(reason, message, now) =>
      PutMeaning(s.conditions, Condition(DEGRADED, True, reason, message, 0, now));
    case ClearDegraded(reason, now) =>
      ClearedMeaning(s.conditions, reason, now);
      ClearedTruth(s.conditions, reason, now);
    case _ =>
  }

  lemma ClearedTruth(cs: seq<Condition>, reason: string, now: nat)
    requires OneEach(cs)
    ensures var r := Cleared(cs, reason, now);
            AnyDegraded(r) <==> Has(r, DEGRADED) && Get(r, DEGRADED).status.True?
  {
    ClearedMeaning(cs, reason, now);
  }

  predicate Failed(calls: seq<Call>) {
    exists k :: 0 <= k < |calls| && calls[k].Fail?
  }

  predicate Updated(calls: seq<Call>) {
    exists k :: 0 <= k < |calls| && calls[k].UpdateDegraded?
  }

  /** No call clears this reason. */
  predicate NotCleared(calls: seq<Call>, reason: string) {
    forall k :: 0 <= k < |calls| && calls[k].ClearDegraded? ==> calls[k].reason != reason
  }

  /** Until something fails or updates it, the Degraded condition stays as it was at first, but for a call that clears its
      reason, and the phase stays Ready. */
  lemma {:induction false} Untouched(s: Status, calls: seq<Call>)
    requires Sound(s) && (forall k :: 0 <= k < |calls| ==> !calls[k].Begin?) && !Failed(calls) && !Updated(calls)
    ensures var r := Run(s.(phase := Ready), calls);
            && r.phase.Ready?
            && (DegradedTrue(r) <==> DegradedTrue(s) && NotCleared(calls, Get(s.conditions, DEGRADED).reason))
            && (DegradedTrue(r) ==> Get(r.conditions, DEGRADED) == Get(s.conditions, DEGRADED))
  {
    hide Sound, Step, Has, Get, NotCleared;
    var start := s.(phase := Ready);
    StartSound(s);
    if |calls| == 0 {
      assert DegradedTrue(s) ==> NotCleared(calls, Get(s.conditions, DEGRADED).reason) by { NothingClears(); }
    } else {
      var before, call := calls[..|calls| - 1], calls[|calls| - 1];
      assert calls == before + [call];
      SomeCall(before, call);
      Untouched(s, before);
      ConditionsSound(start, before);
      StepDegraded(Run(start, before), call);
      StepReason(Run(start, before), call);
      if DegradedTrue(s) { ClearsMore(before, call, Get(s.conditions, DEGRADED).reason); }
    }
  }

  lemma NothingClears()
    ensures forall reason :: NotCleared([], reason)
  {
  }

  lemma ClearsMore(before: seq<Call>, call: Call, reason: string)
    ensures NotCleared(before + [call], reason) <==> NotCleared(before, reason) && !(call.ClearDegraded? && call.reason == reason)
  {
    var calls := before + [call];
    assert calls[|before|] == call;
    if NotCleared(calls, reason) {
      forall k | 0 <= k < |before| && before[k].ClearDegraded? ensures before[k].reason != reason { assert calls[k] == before[k]; }
    }
  }

  /** Only a call that clears its reason turns a True Degraded condition off. */
  lemma StepReason(s: Status, call: Call)
    requires Sound(s) && !call.Begin? && !call.UpdateDegraded?
    ensures var r := Step(s, call);
            && (DegradedTrue(s) ==>
                  (DegradedTrue(r) <==> !(call.ClearDegraded? && call.reason == Get(s.conditions, DEGRADED).reason)))
            && (DegradedTrue(r) ==> DegradedTrue(s) && Get(r.conditions, DEGRADED) == Get(s.conditions, DEGRADED))
  {
    hide Has, Get, Put, FirstOf, OneEach, Cleared, AnyDegraded;
    assert READY != DEGRADED by { assert READY[0] != DEGRADED[0]; }
    match call
    case SetError(reason, message, generation, now) =>
      PutMeaning(s.conditions, NextReady(s.conditions, False, reason, message, generation, now));
    case SetReady(reason, message, generation, now) =>
      PutMeaning(s.conditions, NextReady(s.conditions, True, reason, message, generation, now));
    case ClearDegraded(reason, now) =>
      ClearedMeaning(s.conditions, reason, now);
      ClearedTruth(s.conditions, reason, now);
    case _ =>
  }

  /** Starting a reconcile hides a Degraded condition from the phase. After any calls of that reconcile the phase is Ready
      over a True Degraded condition exactly when none of them failed, none updated Degraded, and the condition was True at
      the start with a reason that none of them cleared. */
  lemma ReadyOverDegradedExactly(s: Status, calls: seq<Call>)
    requires Sound(s) && forall k :: 0 <= k < |calls| ==> !calls[k].Begin?
    ensures var r := Run(Step(s, Begin), calls);
            r.phase.Ready? && DegradedTrue(r) <==>
              !Failed(calls) && !Updated(calls) && DegradedTrue(s) && NotCleared(calls, Get(s.conditions, DEGRADED).reason)
  {
    hide DegradedTrue, Sound, Failed, Updated, NotCleared, Run;
    PhaseAfter(s, calls);
    if !Failed(calls) && !Updated(calls) { Untouched(s, calls); }
  }

  /** The phase after the calls of one reconcile. */
  lemma {:induction false} PhaseAfter(s: Status, calls: seq<Call>)
    requires Sound(s) && forall k :: 0 <= k < |calls| ==> !calls[k].Begin?
    ensures var r := Run(s.(phase := Ready), calls);
            && (r.phase.Error? <==> Failed(calls))
            && (!Failed(calls) && Updated(calls) ==> (r.phase.Degraded? <==> DegradedTrue(r)) && (r.phase.Ready? <==> !DegradedTrue(r)))
            && (!Failed(calls) && !Updated(calls) ==> r.phase.Ready?)
  {
    hide DegradedTrue, Sound, Step;
    var start := s.(phase := Ready);
    assert Sound(start) by { StartSound(s); }
    if |calls| > 0 {
      var before, call := calls[..|calls| - 1], calls[|calls| - 1];
      PhaseAfter(s, before);
      ConditionsSound(start, before);
      StepDegraded(Run(start, before), call);
      assert calls == before + [call];
      SomeCall(before, call);
    }
  }

  lemma StartSound(s: Status)
    requires Sound(s)
    ensures Sound(s.(phase := Ready))
  {
  }

  lemma SomeCall(before: seq<Call>, call: Call)
    ensures Failed(before + [call]) <==> Failed(before) || call.Fail?
    ensures Updated(before + [call]) <==> Updated(before) || call.UpdateDegraded?
  {
    var calls := before + [call];
    assert calls[|before|] == call;
    if Failed(before) { var k :| 0 <= k < |before| && before[k].Fail?; assert calls[k].Fail?; }
    if Updated(before) { var k :| 0 <= k < |before| && before[k].UpdateDegraded?; assert calls[k].UpdateDegraded?; }
  }
}
