/** The automatic growth of the database volume: its request doubles with the capacity, up to a maximum. Sizes are
    byte counts. */
module Expansion {
  import opened Objects

  datatype PodPhase = PodFailed | PodRunning | OtherPhase

  /** `waiting`: the waiting reasons of the containers; `used`: the percentage df reported, None when it could not be had. */
  datatype Pod = Pod(phase: PodPhase, waiting: seq<string>, used: Option<int>)

  const CRASH_LOOP := "CrashLoopBackOff"
  const THRESHOLD := 80

  datatype Claim = Claim(requested: nat, capacity: nat)

  // ---------------------------------------------------------------- specification

  predicate Crashing(pod: Pod) {
    pod.phase.PodFailed? || CRASH_LOOP in pod.waiting
  }

  function Usage(pod: Option<Pod>): Option<int> {
    if pod.None? then None
    else if Crashing(pod.value) then Some(100)
    else if pod.value.phase.PodRunning? then pod.value.used
    else None
  }

  function Min(a: nat, b: nat): nat {
    if a <= b then a else b
  }

  predicate Expands(c: Claim, max: nat, pod: Option<Pod>) {
    c.capacity < max && Usage(pod).Some? && Usage(pod).value >= THRESHOLD
  }

  function Expanded(c: Claim, max: nat, pod: Option<Pod>, accepted: bool): Claim {
    if Expands(c, max, pod) && accepted then c.(requested := Min(2 * c.capacity, max)) else c
  }

  /** The volume is full, or its pod fails for want of room. */
  predicate Full(pod: Option<Pod>) {
    pod.Some? &&
    (|| pod.value.phase.PodFailed? || "CrashLoopBackOff" in pod.value.waiting
     || (pod.value.phase.PodRunning? && pod.value.used.Some? && pod.value.used.value >= 80))
  }

  /** The claim is expanded exactly while its capacity is below the maximum and the volume is full. */
  lemma ExpandsExactly(c: Claim, max: nat, pod: Option<Pod>)
    ensures Expands(c, max, pod) <==> c.capacity < max && Full(pod)
  {
  }

  // ---------------------------------------------------------------- the claim as it is updated in place

  class VolumeClaim {
    var requested: nat
    var capacity: nat

    ghost function Value(): Claim
      reads this
    {
      Claim(requested, capacity)
    }

    /** autoExpandPVC. `accepted` is the server's answer to the update, should there be one; `tried` says there was. */
    method AutoExpand(max: nat, pod: Option<Pod>, accepted: bool) returns (tried: bool)
      modifies this`requested
      ensures Value() == Expanded(old(Value()), max, pod, accepted)
      ensures tried == Expands(old(Value()), max, pod)
      ensures tried <==> capacity < max && Full(pod)
      ensures requested == if tried && accepted then (if 2 * capacity <= max then 2 * capacity else max) else old(requested)
    {
      if capacity >= max || pod.None? { return false; }
      var podCrashing := pod.value.phase.PodFailed?;
      if !podCrashing {
        podCrashing := Waits(pod.value.waiting);
      }
      var pct := 0;
      if podCrashing {
        pct := 100;
      } else if pod.value.phase.PodRunning? {
        if pod.value.used.None? { return false; }
        pct := pod.value.used.value;
      } else {
        return false;
      }
      if pct < THRESHOLD { return false; }
      var newSize := capacity;
      newSize := newSize + capacity;
      if newSize > max { newSize := max; }
      if accepted { requested := newSize; }
      tried := true;
    }
  }

  method Waits(reasons: seq<string>) returns (found: bool)
    ensures found <==> CRASH_LOOP in reasons
  {
    found := false;
    for i := 0 to |reasons|
      invariant found <==> CRASH_LOOP in reasons[..i]
    {
      if reasons[i] == CRASH_LOOP { return true; }
    }
    assert reasons[..|reasons|] == reasons;
  }

  // ---------------------------------------------------------------- any run

  /** What happens to a claim: a reconcile, or the storage provider reporting a new capacity. */
  datatype Event = Reconcile(pod: Option<Pod>, accepted: bool) | Report(capacity: nat)

  predicate Allowed(c: Claim, e: Event) {
    e.Report? ==> c.capacity <= e.capacity
  }

  function Step(c: Claim, max: nat, e: Event): Claim {
    match e
    case Reconcile(pod, accepted) => Expanded(c, max, pod, accepted)
    case Report(capacity) => c.(capacity := capacity)
  }

  predicate IsRun(c: Claim, max: nat, events: seq<Event>)
    decreases |events|
  {
    |events| == 0 || (Allowed(c, events[0]) && IsRun(Step(c, max, events[0]), max, events[1..]))
  }

  function After(c: Claim, max: nat, events: seq<Event>): Claim
    decreases |events|
  {
    if |events| == 0 then c else After(Step(c, max, events[0]), max, events[1..])
  }

  /** The request is within reach of the next expansion, or expansions are over. */
  predicate WithinReach(c: Claim, max: nat) {
    c.capacity >= max || c.requested <= Min(2 * c.capacity, max)
  }

  lemma {:induction false} ReachKept(c: Claim, max: nat, events: seq<Event>)
    requires WithinReach(c, max) && IsRun(c, max, events)
    ensures WithinReach(After(c, max, events), max) && c.requested <= After(c, max, events).requested
    decreases |events|
  {
    if |events| > 0 { ReachKept(Step(c, max, events[0]), max, events[1..]); }
  }

  /** While the capacity does not shrink, no run ever lowers the request, exactly when the request it starts with is
      within reach: at most twice the capacity, and at most the maximum, unless the capacity is at the maximum. */
  lemma RequestsNeverShrinkExactly(c: Claim, max: nat)
    ensures (forall events :: IsRun(c, max, events) ==> c.requested <= After(c, max, events).requested) <==> WithinReach(c, max)
  {
    if WithinReach(c, max) {
      forall events | IsRun(c, max, events) ensures c.requested <= After(c, max, events).requested {
        ReachKept(c, max, events);
      }
    } else {
      var events := [Reconcile(Some(Pod(PodFailed, [], None)), true)];
      assert events[1..] == [];
      assert IsRun(c, max, events) && After(c, max, events) == c.(requested := Min(2 * c.capacity, max));
    }
  }

  /** A request that starts at or below the capacity is within reach as soon as it is within the maximum. */
  lemma InitialRequestWithinReach(c: Claim, max: nat)
    requires c.requested <= c.capacity
    ensures WithinReach(c, max)
  {
  }

  // ---------------------------------------------------------------- capped doubling

  function Power(k: nat): nat {
    if k == 0 then 1 else 2 * Power(k - 1)
  }

  /** 2^k * size, by repeated doubling. */
  function Doubled(size: nat, k: nat): nat {
    if k == 0 then size else 2 * Doubled(size, k - 1)
  }

  lemma {:induction false} DoubledIsPower(size: nat, k: nat)
    ensures Doubled(size, k) == Power(k) * size
  {
    if k > 0 {
      DoubledIsPower(size, k - 1);
      assert 2 * (Power(k - 1) * size) == (2 * Power(k - 1)) * size;
    }
  }

  lemma {:induction false} DoubledFirst(size: nat, k: nat)
    ensures Doubled(2 * size, k) == 2 * Doubled(size, k) && Doubled(size, k) >= size
  {
    if k > 0 { DoubledFirst(size, k - 1); }
  }

  /** Reconciles with these pods, all updates accepted, the capacity following the request after each. */
  function Followed(c: Claim, max: nat, pods: seq<Option<Pod>>): Claim {
    if |pods| == 0 then c else
      var before := Followed(c, max, pods[..|pods| - 1]);
      var next := Expanded(before, max, pods[|pods| - 1], true);
      if Expands(before, max, pods[|pods| - 1]) then Claim(next.requested, next.requested) else next
  }

  /** In how many of them the volume was full. */
  function Fulls(pods: seq<Option<Pod>>): nat {
    if |pods| == 0 then 0 else Fulls(pods[..|pods| - 1]) + (if Full(pods[|pods| - 1]) then 1 else 0)
  }

  /** ceil(log2(max / capacity)) */
  function Needed(capacity: nat, max: nat): nat
    requires capacity > 0
    decreases if capacity < max then max - capacity else 0
  {
    if capacity >= max then 0 else 1 + Needed(2 * capacity, max)
  }

  lemma {:induction false} NeededIsLeast(capacity: nat, max: nat, k: nat)
    requires capacity > 0
    ensures Doubled(capacity, k) >= max <==> Needed(capacity, max) <= k
    decreases if capacity < max then max - capacity else 0
  {
    if capacity >= max {
      DoubledFirst(capacity, k);
    } else if k > 0 {
      NeededIsLeast(2 * capacity, max, k - 1);
      DoubledFirst(capacity, k - 1);
    }
  }

  lemma {:induction false} FollowedDoubles(c: Claim, max: nat, pods: seq<Option<Pod>>)
    requires 0 < c.capacity < max
    ensures Followed(c, max, pods).capacity == Min(Doubled(c.capacity, Fulls(pods)), max)
    ensures Followed(c, max, pods).requested
            == if Fulls(pods) > 0 then Min(Doubled(c.capacity, Fulls(pods)), max) else c.requested
  {
    DoubledFirst(c.capacity, Fulls(pods));
    if |pods| > 0 {
      var before := pods[..|pods| - 1];
      FollowedDoubles(c, max, before);
      DoubledFirst(c.capacity, Fulls(before));
      ExpandsExactly(Followed(c, max, before), max, pods[|pods| - 1]);
    }
  }

  /** After any reconciles the request is min(2^k * capacity, max), where k counts those that found the volume full. The
      maximum is reached after Needed of them and not before, and from then on no reconcile writes. */
  lemma DoublingIsCapped(c: Claim, max: nat, pods: seq<Option<Pod>>, pod: Option<Pod>)
    requires 0 < c.capacity < max
    ensures var k := Fulls(pods);
            && Followed(c, max, pods).capacity == Min(Power(k) * c.capacity, max)
            && Followed(c, max, pods).requested == (if k > 0 then Min(Power(k) * c.capacity, max) else c.requested)
            && (Followed(c, max, pods).capacity == max <==> Needed(c.capacity, max) <= k)
            && (Needed(c.capacity, max) <= k ==> !Expands(Followed(c, max, pods), max, pod))
  {
    hide Followed, Doubled, Power, Needed, Fulls;
    NeededIsLeast(c.capacity, max, Fulls(pods));
    FollowedDoubles(c, max, pods);
    DoubledIsPower(c.capacity, Fulls(pods));
  }

  /** A claim whose capacity has not been reported yet is asked to shrink to nothing. */
  lemma UnreportedCapacity(requested: nat, max: nat)
    requires 0 < requested && 0 < max
    ensures !WithinReach(Claim(requested, 0), max)
    ensures Expanded(Claim(requested, 0), max, Some(Pod(PodFailed, [], None)), true).requested == 0
  {
  }
}
