/** The order in which the pool starts the sessions' drain tasks, and the state of a turn in progress. */
module SessionOutcomes {
  import opened Options
  import opened SessionThreads

  /** The drain task that a step hands to the pool: of a session that has none. */
  function Handed(y: Sys, step: Step): seq<nat>
    requires Enabled(y, step)
  {
    if step.Submit? && !y.threads[step.session].processing then [step.session] else []
  }

  /** The drain task that a step starts, by its new slot. */
  function Started(y: Sys, step: Step): seq<nat>
    requires Shaped(y) && Enabled(y, step)
  {
    var d := Do(y, step);
    if |d.slots| > |y.slots| && d.slots[|y.slots|].Draining? then [d.slots[|y.slots|].session] else []
  }

  function AllHanded(y: Sys, steps: seq<Step>): seq<nat>
    requires Shaped(y)
    decreases |steps|
  {
    if steps == [] then []
    else if Enabled(y, steps[0]) && Shaped(Do(y, steps[0])) then Handed(y, steps[0]) + AllHanded(Do(y, steps[0]), steps[1..])
    else AllHanded(y, steps[1..])
  }

  function AllStarted(y: Sys, steps: seq<Step>): seq<nat>
    requires Shaped(y)
    decreases |steps|
  {
    if steps == [] then []
    else if Enabled(y, steps[0]) && Shaped(Do(y, steps[0])) then Started(y, steps[0]) + AllStarted(Do(y, steps[0]), steps[1..])
    else AllStarted(y, steps[1..])
  }

  lemma StepInOrder(y: Sys, step: Step)
    requires SessionThreads.Inv(y) && Enabled(y, step)
    ensures y.pool.backlog + Handed(y, step) == Started(y, step) + Do(y, step).pool.backlog
    ensures |Do(y, step).slots| == |y.slots| + |Started(y, step)|
  {
  }

  lemma {:induction false} RunInOrder(y: Sys, steps: seq<Step>)
    requires SessionThreads.Inv(y)
    ensures y.pool.backlog + AllHanded(y, steps) == AllStarted(y, steps) + Run(y, steps).pool.backlog
    ensures |Run(y, steps).slots| == |y.slots| + |AllStarted(y, steps)|
    decreases |steps|
  {
    if steps != [] {
      if Enabled(y, steps[0]) {
        StepKeeps(y, steps[0]);
        StepInOrder(y, steps[0]);
        RunInOrder(Do(y, steps[0]), steps[1..]);
        InOrder(y.pool.backlog, Handed(y, steps[0]), AllHanded(Do(y, steps[0]), steps[1..]), Started(y, steps[0]),
                Do(y, steps[0]).pool.backlog, AllStarted(Do(y, steps[0]), steps[1..]), Run(y, steps).pool.backlog);
      } else {
        RunInOrder(y, steps[1..]);
      }
    }
  }

  lemma InOrder(b: seq<nat>, h: seq<nat>, hs: seq<nat>, s: seq<nat>, c: seq<nat>, ss: seq<nat>, d: seq<nat>)
    requires b + h == s + c && c + hs == ss + d
    ensures b + (h + hs) == (s + ss) + d
  {
    assert b + (h + hs) == (b + h) + hs == (s + c) + hs == s + (c + hs) == s + (ss + d);
  }

  /** The pool starts drain tasks in the order they were handed to it, each once, whatever the sessions. */
  lemma StartedInOrder(concurrency: nat, sessions: nat, steps: seq<Step>)
    ensures var y := Fresh(concurrency, sessions);
            && AllHanded(y, steps) == AllStarted(y, steps) + Run(y, steps).pool.backlog
            && |Run(y, steps).slots| == |AllStarted(y, steps)|
  {
    var y := Fresh(concurrency, sessions);
    FreshOk(concurrency, sessions);
    RunInOrder(y, steps);
    assert [] + AllHanded(y, steps) == AllHanded(y, steps);
  }

  lemma ReachableHeard(y: Sys)
    requires Reachable(y)
    ensures SessionThreads.Inv(y) && AllHeard(y)
  {
    var concurrency, sessions, steps :|
      (FreshOk(concurrency, sessions); y == Run(Fresh(concurrency, sessions), steps));
    FreshOk(concurrency, sessions);
    RunHeard(Fresh(concurrency, sessions), steps);
  }

  /** What the state is while a turn that was let in is in progress: running, with its run as the active
      one, until its execution comes back, and then as that came back until its end is recorded. */
  ghost predicate InProgress(turn: Turn, op: Op, phase: Phase, heard: seq<Reply>) {
    && (phase.Starting? || phase.Executing? ==> turn == Turn(Running, Some(op.runId)))
    && (phase.Ending? ==> |heard| == 2 && turn == Turn(if heard[1] == Returned(true) then Completed else Aborted, Some(op.runId)))
    && (phase.Aborting? ==> turn == Turn(Aborted, Some(op.runId)))
  }

  lemma PhaseShows(turn: Turn, log: seq<Ended>, op: Op, phase: Phase, heard: seq<Reply>)
    requires PhaseOk(turn, log, op, phase) && PhaseHeard(turn, log, op, phase, heard)
    ensures InProgress(turn, op, phase, heard)
  {
  }

  lemma StateInProgress(y: Sys, s: nat)
    requires Reachable(y) && s < |y.threads| && y.threads[s].slot.Some?
    ensures var t := y.threads[s];
            && t.slot.value < |y.slots| && y.slots[t.slot.value].Draining?
            && InProgress(t.turn, y.slots[t.slot.value].op, y.slots[t.slot.value].phase, t.hearing)
  {
    ReachableHeard(y);
    var t := y.threads[s];
    assert ThreadOk(t, y.slots) && ThreadHeard(t, y.slots);
    PhaseShows(t.turn, t.log, y.slots[t.slot.value].op, y.slots[t.slot.value].phase, t.hearing);
  }
}
