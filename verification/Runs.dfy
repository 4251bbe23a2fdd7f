/** The states a run passes through. */
module Runs {
  import opened Objects
  import opened Reconcilers
  import opened Protocol
  import opened Invariants
  import opened Preservation

  /** The state before step `j`. */
  ghost function StateAt(m: Mode, s: State, steps: seq<Step>, j: nat): State
    requires IsRun(m, s, steps) && j <= |steps|
    decreases j
  {
    if j == 0 then s else StateAt(m, Apply(s, steps[0]), steps[1..], j - 1)
  }

  lemma {:induction false} StateAtStep(m: Mode, s: State, steps: seq<Step>, j: nat)
    requires IsRun(m, s, steps) && j < |steps|
    ensures Takes(m, StateAt(m, s, steps, j), steps[j])
    ensures StateAt(m, s, steps, j + 1) == Apply(StateAt(m, s, steps, j), steps[j])
    decreases j
  {
    hide Applicable, Admits, Apply;
    if j > 0 { StateAtStep(m, Apply(s, steps[0]), steps[1..], j - 1); }
  }

  lemma {:induction false} PrefixRun(m: Mode, s: State, steps: seq<Step>, j: nat)
    requires IsRun(m, s, steps) && j <= |steps|
    ensures IsRun(m, s, steps[..j]) && After(m, s, steps[..j]) == StateAt(m, s, steps, j)
    decreases j
  {
    hide Applicable, Admits, Apply;
    if j > 0 {
      PrefixRun(m, Apply(s, steps[0]), steps[1..], j - 1);
      assert steps[..j][1..] == steps[1..][..j - 1];
    }
  }

  lemma StateAtEnd(m: Mode, s: State, steps: seq<Step>)
    requires IsRun(m, s, steps)
    ensures StateAt(m, s, steps, |steps|) == After(m, s, steps)
  {
    PrefixRun(m, s, steps, |steps|);
    assert steps[..|steps|] == steps;
  }

  lemma StateAtReachable(m: Mode, steps: seq<Step>, j: nat)
    requires IsRun(m, INITIAL, steps) && j <= |steps|
    ensures Reachable(m, StateAt(m, INITIAL, steps, j)) && Inv(StateAt(m, INITIAL, steps, j))
  {
    hide Inv, Apply, IsRun, After, StateAt;
    PrefixRun(m, INITIAL, steps, j);
    ReachableInv(m, StateAt(m, INITIAL, steps, j));
  }

  lemma {:induction false} RunExtended(m: Mode, s: State, steps: seq<Step>, step: Step)
    requires IsRun(m, s, steps) && Takes(m, After(m, s, steps), step)
    ensures IsRun(m, s, steps + [step]) && After(m, s, steps + [step]) == Apply(After(m, s, steps), step)
    decreases |steps|
  {
    hide Apply;
    if |steps| == 0 {
      assert (steps + [step])[1..] == [];
    } else {
      assert (steps + [step])[1..] == steps[1..] + [step];
      RunExtended(m, Apply(s, steps[0]), steps[1..], step);
    }
  }

  lemma StepReached(m: Mode, s: State, step: Step)
    requires Reachable(m, s) && Takes(m, s, step)
    ensures Reachable(m, Apply(s, step)) && Grows(s.store, Apply(s, step).store)
  {
    hide Takes, Apply, Inv, Grows, IsRun, After;
    var steps :| IsRun(m, INITIAL, steps) && After(m, INITIAL, steps) == s;
    RunExtended(m, INITIAL, steps, step);
    ReachableInv(m, s);
    StepKeeps(m, s, step);
  }
}
