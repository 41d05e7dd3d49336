/** Sessions on a bounded worker pool: a pool of drain tasks, one operation queue per session and
    one turn state machine per session. A step is the code between two awaits. */
module SessionThreads {
  import opened Options

  datatype Kind = UserInput | Interrupt | Cancel | Approve | Reject | Shutdown

  datatype Op = Op(id: nat, kind: Kind, runId: string)

  // ---- the turn state machine ----

  datatype TurnState = Idle | Running | Completed | Aborted | Shut

  datatype Turn = Turn(state: TurnState, active: Option<string>)

  datatype Reason = AlreadyRunning | RuntimeShutdown

  datatype Fault = StartNotRecorded | ExecutionThrew | EndNotRecorded | CancellationThrew | NoteNotRecorded

  datatype Result = Refused(reason: Reason) | Accepted(state: TurnState) | Threw(fault: Fault)

  /** The call a handler is waiting for. */
  datatype Phase =
    | Starting
    | Executing
    | Ending
    | Aborting(fault: Fault)
    | Cancelling(target: string)
    | Noting
    | Settled(result: Result)

  /** How an awaited call came back; `good` is the run's own success. */
  datatype Reply = Returned(good: bool) | Raised

  function TurnBegin(turn: Turn, op: Op): (Turn, Phase) {
    match op.kind
    case UserInput =>
      if turn.state == Running then (turn, Settled(Refused(AlreadyRunning)))
      else if turn.state == Shut then (turn, Settled(Refused(RuntimeShutdown)))
      else (Turn(Running, Some(op.runId)), Starting)
    case Interrupt => (turn, Cancelling(CancelTarget(turn, op)))
    case Cancel => (turn, Cancelling(CancelTarget(turn, op)))
    case Approve => (turn, Noting)
    case Reject => (turn, Noting)
    case Shutdown => (turn.(state := Shut), Noting)
  }

  function CancelTarget(turn: Turn, op: Op): string {
    if turn.active.Some? then turn.active.value else op.runId
  }

  function TurnStep(turn: Turn, phase: Phase, reply: Reply): (Turn, Phase)
    requires !phase.Settled?
  {
    match phase
    case Starting => if reply.Raised? then (turn, Settled(Threw(StartNotRecorded))) else (turn, Executing)
    case Executing =>
      if reply.Raised? then (turn.(state := Aborted), Aborting(ExecutionThrew))
      else (turn.(state := if reply.good then Completed else Aborted), Ending)
    case Ending =>
      if reply.Raised? then (turn.(state := Aborted), Aborting(EndNotRecorded))
      else (Turn(Idle, None), Settled(Accepted(turn.state)))
    case Aborting(fault) => (Turn(Idle, None), Settled(Threw(if reply.Raised? then EndNotRecorded else fault)))
    case Cancelling(target) => (turn, if reply.Raised? then Settled(Threw(CancellationThrew)) else Noting)
    case Noting => (turn, if reply.Raised? then Settled(Threw(NoteNotRecorded)) else Settled(Accepted(turn.state)))
  }

  // ---- the worker pool ----

  datatype Pool = Pool(concurrency: int, activeCount: int, backlog: seq<nat>)

  /** Starts the next drain task if a slot is free. */
  function Schedule(pool: Pool): (r: (Pool, Option<nat>))
    ensures r.1.Some? ==> r.1.value in pool.backlog
  {
    if pool.activeCount >= pool.concurrency || pool.backlog == [] then (pool, None)
    else (pool.(activeCount := pool.activeCount + 1, backlog := pool.backlog[1..]), Some(pool.backlog[0]))
  }

  function Enqueue(pool: Pool, session: nat): (r: (Pool, Option<nat>))
    ensures r.1.Some? ==> r.1.value in pool.backlog || r.1.value == session
  {
    Schedule(pool.(backlog := pool.backlog + [session]))
  }

  function TaskEnded(pool: Pool): (r: (Pool, Option<nat>))
    ensures r.1.Some? ==> r.1.value in pool.backlog
  {
    Schedule(pool.(activeCount := pool.activeCount - 1))
  }

  // ---- the whole system ----

  /** A dispatched operation and how it ended. */
  datatype Ended = Ended(op: Op, result: Result)

  datatype Thread = Thread(
    queue: seq<Op>,
    processing: bool,
    turn: Turn,
    // bookkeeping: the slot dispatching for this session, what was submitted and what has settled,
    // how the calls of the operation in progress came back, and those of every settled one
    slot: Option<nat>,
    submitted: seq<Op>,
    log: seq<Ended>,
    hearing: seq<Reply>,
    heard: seq<seq<Reply>>)

  const FRESH := Thread([], false, Turn(Idle, None), None, [], [], [], [])

  /** A started drain task: dispatching an operation, past its loop, or gone from the pool. */
  datatype Slot = Draining(session: nat, op: Op, phase: Phase) | Exiting | Released

  datatype Sys = Sys(pool: Pool, slots: seq<Slot>, threads: seq<Thread>)

  datatype Step =
    | Submit(session: nat, op: Op)
    | Advance(slot: nat, reply: Reply)
    | Resume(slot: nat)
    | Release(slot: nat)

  function Fresh(concurrency: int, sessions: nat): Sys {
    Sys(Pool(concurrency, 0, []), [], seq(sessions, _ => FRESH))
  }

  predicate Shaped(y: Sys) {
    && (forall s :: s in y.pool.backlog ==> s < |y.threads|)
    && (forall k :: 0 <= k < |y.slots| && y.slots[k].Draining? ==> y.slots[k].session < |y.threads|)
  }

  predicate Enabled(y: Sys, step: Step) {
    match step
    case Submit(s, op) => s < |y.threads|
    case Advance(k, reply) => k < |y.slots| && y.slots[k].Draining? && !y.slots[k].phase.Settled?
    case Resume(k) => k < |y.slots| && y.slots[k].Draining? && y.slots[k].phase.Settled?
    case Release(k) => k < |y.slots| && y.slots[k].Exiting?
  }

  /** The head of a drain loop: dispatch the next operation, or leave the loop. */
  function LoopHead(y: Sys, k: nat, s: nat): (r: Sys)
    requires k < |y.slots| && s < |y.threads|
    ensures |r.slots| == |y.slots| && |r.threads| == |y.threads| && r.pool == y.pool
  {
    var t := y.threads[s];
    if t.queue == [] then
      y.(slots := y.slots[k := Exiting], threads := y.threads[s := t.(processing := false, slot := None)])
    else
      var (turn, phase) := TurnBegin(t.turn, t.queue[0]);
      y.(slots := y.slots[k := Draining(s, t.queue[0], phase)],
         threads := y.threads[s := t.(queue := t.queue[1..], turn := turn, slot := Some(k), hearing := [])])
  }

  function Start(y: Sys, task: Option<nat>): (r: Sys)
    requires task.Some? ==> task.value < |y.threads|
    ensures |r.threads| == |y.threads| && r.pool == y.pool
  {
    if task.None? then y else LoopHead(y.(slots := y.slots + [Exiting]), |y.slots|, task.value)
  }

  function Do(y: Sys, step: Step): Sys
    requires Shaped(y) && Enabled(y, step)
  {
    match step
    case Submit(s, op) =>
      var t := y.threads[s];
      var queued := t.(queue := t.queue + [op], submitted := t.submitted + [op]);
      if t.processing then y.(threads := y.threads[s := queued])
      else
        var (pool, task) := Enqueue(y.pool, s);
        Start(y.(pool := pool, threads := y.threads[s := queued.(processing := true)]), task)
    case Advance(k, reply) =>
      var slot := y.slots[k];
      var t := y.threads[slot.session];
      var (turn, phase) := TurnStep(t.turn, slot.phase, reply);
      y.(slots := y.slots[k := slot.(phase := phase)], threads := y.threads[slot.session := t.(turn := turn, hearing := t.hearing + [reply])])
    case Resume(k) =>
      var slot := y.slots[k];
      var t := y.threads[slot.session];
      var logged := t.(log := t.log + [Ended(slot.op, slot.phase.result)], heard := t.heard + [t.hearing]);
      LoopHead(y.(threads := y.threads[slot.session := logged]), k, slot.session)
    case Release(k) =>
      var (pool, task) := TaskEnded(y.pool);
      Start(y.(pool := pool, slots := y.slots[k := Released]), task)
  }

  // ---- what the turn state is after a log of settled operations ----

  predicate HasShutdown(log: seq<Ended>) {
    exists i :: 0 <= i < |log| && log[i].op.kind == Shutdown
  }

  predicate LostStart(e: Ended) {
    e.op.kind == UserInput && e.result == Threw(StartNotRecorded)
  }

  predicate HasLostStart(log: seq<Ended>) {
    exists i :: 0 <= i < |log| && LostStart(log[i])
  }

  function StateAfter(log: seq<Ended>): TurnState {
    if HasShutdown(log) then Shut else if HasLostStart(log) then Running else Idle
  }

  function ActiveAfter(log: seq<Ended>): Option<string> {
    if log == [] then None
    else
      var last := log[|log| - 1];
      if LostStart(last) then Some(last.op.runId) else ActiveAfter(log[..|log| - 1])
  }

  function TurnAfter(log: seq<Ended>): Turn {
    Turn(StateAfter(log), ActiveAfter(log))
  }

  /** What may become of an operation dispatched after this log. */
  predicate ResultOk(log: seq<Ended>, op: Op, result: Result) {
    && (op.kind == UserInput ==>
          && (result == Refused(AlreadyRunning) <==> StateAfter(log) == Running)
          && (result == Refused(RuntimeShutdown) <==> StateAfter(log) == Shut))
    && (op.kind != UserInput ==> !result.Refused?)
  }

  predicate LogOk(log: seq<Ended>) {
    forall i :: 0 <= i < |log| ==> ResultOk(log[..i], log[i].op, log[i].result)
  }

  function Ops(log: seq<Ended>): (r: seq<Op>)
    ensures |r| == |log| && forall i :: 0 <= i < |log| ==> r[i] == log[i].op
  {
    seq(|log|, i requires 0 <= i < |log| => log[i].op)
  }

  // ---- the invariant ----

  predicate PhaseOk(turn: Turn, log: seq<Ended>, op: Op, phase: Phase) {
    match phase
    case Starting => op.kind == UserInput && StateAfter(log) == Idle && turn == Turn(Running, Some(op.runId))
    case Executing => op.kind == UserInput && StateAfter(log) == Idle && turn == Turn(Running, Some(op.runId))
    case Ending =>
      op.kind == UserInput && StateAfter(log) == Idle && turn.active == Some(op.runId) && (turn.state == Completed || turn.state == Aborted)
    case Aborting(fault) =>
      op.kind == UserInput && StateAfter(log) == Idle && turn == Turn(Aborted, Some(op.runId)) && fault != StartNotRecorded
    case Cancelling(target) =>
      (op.kind == Interrupt || op.kind == Cancel) && turn == TurnAfter(log) && target == CancelTarget(turn, op)
    case Noting =>
      op.kind != UserInput && turn == if op.kind == Shutdown then Turn(Shut, ActiveAfter(log)) else TurnAfter(log)
    case Settled(result) => turn == TurnAfter(log + [Ended(op, result)]) && ResultOk(log, op, result)
  }

  /** Nothing is lost, repeated or reordered: what was submitted is what settled, then the operation
      in progress, then the queue. */
  predicate ThreadOk(t: Thread, slots: seq<Slot>) {
    && LogOk(t.log)
    && (t.queue != [] ==> t.processing)
    && (t.slot.None? ==> t.submitted == Ops(t.log) + t.queue && t.turn == TurnAfter(t.log))
    && (t.slot.Some? ==>
          && t.processing && t.slot.value < |slots| && slots[t.slot.value].Draining?
          && t.submitted == Ops(t.log) + [slots[t.slot.value].op] + t.queue
          && PhaseOk(t.turn, t.log, slots[t.slot.value].op, slots[t.slot.value].phase))
  }

  predicate ThreadsOk(y: Sys) {
    forall s :: 0 <= s < |y.threads| ==> ThreadOk(y.threads[s], y.slots)
  }

  /** A session is processing exactly when one drain task of it waits or runs. */
  predicate LinksOk(y: Sys)
    requires Shaped(y)
  {
    && (forall k :: 0 <= k < |y.slots| && y.slots[k].Draining? ==> y.threads[y.slots[k].session].slot == Some(k))
    && (forall s :: 0 <= s < |y.threads| && y.threads[s].slot.Some? ==>
          y.threads[s].slot.value < |y.slots| && y.slots[y.threads[s].slot.value].Draining?
          && y.slots[y.threads[s].slot.value].session == s)
    && (forall i, j :: 0 <= i < j < |y.pool.backlog| ==> y.pool.backlog[i] != y.pool.backlog[j])
    && (forall s :: s in y.pool.backlog ==>
          y.threads[s].processing && y.threads[s].slot.None? && y.threads[s].queue != [])
    && (forall s :: 0 <= s < |y.threads| && y.threads[s].processing ==> y.threads[s].slot.Some? || s in y.pool.backlog)
  }

  function Live(slots: seq<Slot>): nat {
    if slots == [] then 0 else Live(slots[..|slots| - 1]) + if slots[|slots| - 1].Released? then 0 else 1
  }

  predicate PoolOk(y: Sys) {
    && y.pool.activeCount == Live(y.slots)
    && (y.pool.activeCount <= y.pool.concurrency || y.pool.activeCount == 0)
    && (y.pool.backlog != [] ==> y.pool.activeCount >= y.pool.concurrency)
  }

  ghost predicate Inv(y: Sys) {
    Shaped(y) && LinksOk(y) && ThreadsOk(y) && PoolOk(y)
  }

  // ---- the turn machine keeps its log honest ----

  lemma LogSnoc(log: seq<Ended>, e: Ended)
    ensures HasShutdown(log + [e]) <==> HasShutdown(log) || e.op.kind == Shutdown
    ensures HasLostStart(log + [e]) <==> HasLostStart(log) || LostStart(e)
    ensures ActiveAfter(log + [e]) == if LostStart(e) then Some(e.op.runId) else ActiveAfter(log)
    ensures Ops(log + [e]) == Ops(log) + [e.op]
    ensures LogOk(log) && ResultOk(log, e.op, e.result) ==> LogOk(log + [e])
  {
    var more := log + [e];
    assert more[..|more| - 1] == log && more[|log|] == e;
    if HasShutdown(log) {
      var i :| 0 <= i < |log| && log[i].op.kind == Shutdown;
      assert more[i].op.kind == Shutdown;
    }
    if HasLostStart(log) {
      var i :| 0 <= i < |log| && LostStart(log[i]);
      assert LostStart(more[i]);
    }
    if LogOk(log) && ResultOk(log, e.op, e.result) {
      forall i | 0 <= i < |more| ensures ResultOk(more[..i], more[i].op, more[i].result) {
        if i < |log| {
          assert more[..i] == log[..i];
        } else {
          assert more[..i] == log;
        }
      }
    }
  }

  lemma {:induction false} NoLostStartNoActive(log: seq<Ended>)
    requires !HasLostStart(log)
    ensures ActiveAfter(log) == None
  {
    if log != [] {
      var n := |log| - 1;
      forall i | 0 <= i < n ensures !LostStart(log[..n][i]) {
        assert log[..n][i] == log[i];
      }
      NoLostStartNoActive(log[..n]);
    }
  }

  lemma BeginOk(turn: Turn, log: seq<Ended>, op: Op)
    requires turn == TurnAfter(log)
    ensures var (next, phase) := TurnBegin(turn, op); PhaseOk(next, log, op, phase)
  {
    var (next, phase) := TurnBegin(turn, op);
    if phase.Settled? {
      LogSnoc(log, Ended(op, phase.result));
    }
  }

  lemma TurnStepOk(turn: Turn, log: seq<Ended>, op: Op, phase: Phase, reply: Reply)
    requires PhaseOk(turn, log, op, phase) && !phase.Settled?
    ensures var (next, then_) := TurnStep(turn, phase, reply); PhaseOk(next, log, op, then_)
  {
    var (next, then_) := TurnStep(turn, phase, reply);
    if then_.Settled? {
      LogSnoc(log, Ended(op, then_.result));
      if StateAfter(log) == Idle {
        NoLostStartNoActive(log);
      }
    }
  }

  // ---- every step keeps the invariant ----

  lemma {:induction false} LiveUpdate(slots: seq<Slot>, k: nat, slot: Slot)
    requires k < |slots|
    ensures Live(slots[k := slot]) + (if slots[k].Released? then 0 else 1) == Live(slots) + (if slot.Released? then 0 else 1)
  {
    var n := |slots| - 1;
    if k < n {
      assert slots[k := slot][..n] == slots[..n][k := slot];
      LiveUpdate(slots[..n], k, slot);
    } else {
      assert slots[k := slot][..n] == slots[..n];
    }
  }

  lemma LiveSnoc(slots: seq<Slot>, slot: Slot)
    ensures Live(slots + [slot]) == Live(slots) + (if slot.Released? then 0 else 1)
  {
    assert (slots + [slot])[..|slots|] == slots;
  }

  /** Slot `k` is at the head of its drain loop for session `s`; everything else is in order. */
  ghost predicate AtHead(y: Sys, k: nat, s: nat) {
    && Shaped(y) && k < |y.slots| && s < |y.threads| && !y.slots[k].Released?
    && HeadThread(y.threads[s])
    && (forall i :: 0 <= i < |y.threads| && i != s ==> ThreadOk(y.threads[i], y.slots) && y.threads[i].slot != Some(k))
    && HeadLinks(y, k, s)
  }

  ghost predicate HeadThread(t: Thread) {
    t.processing && LogOk(t.log) && t.turn == TurnAfter(t.log) && t.submitted == Ops(t.log) + t.queue
  }

  ghost predicate HeadLinks(y: Sys, k: nat, s: nat)
    requires Shaped(y) && k < |y.slots| && s < |y.threads|
  {
    && (forall i :: 0 <= i < |y.slots| && i != k && y.slots[i].Draining? ==>
          y.slots[i].session != s && y.threads[y.slots[i].session].slot == Some(i))
    && (forall i :: 0 <= i < |y.threads| && i != s && y.threads[i].slot.Some? ==>
          y.threads[i].slot.value < |y.slots| && y.slots[y.threads[i].slot.value].Draining?
          && y.slots[y.threads[i].slot.value].session == i)
    && (forall i, j :: 0 <= i < j < |y.pool.backlog| ==> y.pool.backlog[i] != y.pool.backlog[j])
    && s !in y.pool.backlog
    && (forall i :: i in y.pool.backlog ==> y.threads[i].processing && y.threads[i].slot.None? && y.threads[i].queue != [])
    && (forall i :: 0 <= i < |y.threads| && i != s && y.threads[i].processing ==> y.threads[i].slot.Some? || i in y.pool.backlog)
  }

  lemma HeadThreadKeeps(t: Thread, k: nat, s: nat, slots: seq<Slot>)
    requires HeadThread(t) && k < |slots| && t.queue != []
    requires slots[k] == Draining(s, t.queue[0], TurnBegin(t.turn, t.queue[0]).1)
    ensures ThreadOk(t.(queue := t.queue[1..], turn := TurnBegin(t.turn, t.queue[0]).0, slot := Some(k), hearing := []), slots)
  {
    BeginOk(t.turn, t.log, t.queue[0]);
    assert t.queue == [t.queue[0]] + t.queue[1..];
    assert Ops(t.log) + t.queue == Ops(t.log) + [t.queue[0]] + t.queue[1..];
  }

  lemma LoopHeadThreads(y: Sys, k: nat, s: nat)
    requires AtHead(y, k, s)
    ensures ThreadsOk(LoopHead(y, k, s))
  {
    var r, t := LoopHead(y, k, s), y.threads[s];
    forall i | 0 <= i < |r.threads| && i != s ensures ThreadOk(r.threads[i], r.slots) {
      assert r.threads[i] == y.threads[i];
      assert ThreadOk(y.threads[i], y.slots);
    }
    if t.queue != [] {
      HeadThreadKeeps(t, k, s, r.slots);
    }
  }

  lemma LoopHeadLinks(y: Sys, k: nat, s: nat)
    requires AtHead(y, k, s)
    ensures Shaped(LoopHead(y, k, s)) && LinksOk(LoopHead(y, k, s))
  {
    var r := LoopHead(y, k, s);
    forall i | 0 <= i < |r.threads| && i != s ensures r.threads[i] == y.threads[i] {}
    forall i | 0 <= i < |r.slots| && i != k ensures r.slots[i] == y.slots[i] {}
  }

  lemma LoopHeadKeeps(y: Sys, k: nat, s: nat)
    requires AtHead(y, k, s) && PoolOk(y)
    ensures Inv(LoopHead(y, k, s))
  {
    LoopHeadLinks(y, k, s);
    LoopHeadThreads(y, k, s);
    LiveUpdate(y.slots, k, LoopHead(y, k, s).slots[k]);
  }

  lemma ResumeKeeps(y: Sys, k: nat)
    requires Inv(y) && Enabled(y, Resume(k))
    ensures Inv(Do(y, Resume(k)))
  {
    var slot := y.slots[k];
    var s, t := slot.session, y.threads[slot.session];
    var e := Ended(slot.op, slot.phase.result);
    var z := y.(threads := y.threads[s := t.(log := t.log + [e], heard := t.heard + [t.hearing])]);
    assert ThreadOk(t, y.slots);
    LogSnoc(t.log, e);
    forall i | 0 <= i < |z.threads| && i != s ensures ThreadOk(z.threads[i], z.slots) && z.threads[i].slot != Some(k) {
      assert z.threads[i] == y.threads[i];
      assert ThreadOk(y.threads[i], y.slots);
    }
    assert HeadLinks(z, k, s);
    LoopHeadKeeps(z, k, s);
  }

  lemma AdvanceThreads(y: Sys, k: nat, reply: Reply)
    requires Inv(y) && Enabled(y, Advance(k, reply))
    ensures ThreadsOk(Do(y, Advance(k, reply)))
  {
    var r, slot := Do(y, Advance(k, reply)), y.slots[k];
    var s := slot.session;
    assert ThreadOk(y.threads[s], y.slots);
    TurnStepOk(y.threads[s].turn, y.threads[s].log, slot.op, slot.phase, reply);
    forall i | 0 <= i < |r.threads| ensures ThreadOk(r.threads[i], r.slots) {
      assert ThreadOk(y.threads[i], y.slots);
    }
  }

  lemma AdvanceKeeps(y: Sys, k: nat, reply: Reply)
    requires Inv(y) && Enabled(y, Advance(k, reply))
    ensures Inv(Do(y, Advance(k, reply)))
  {
    AdvanceThreads(y, k, reply);
    LiveUpdate(y.slots, k, Do(y, Advance(k, reply)).slots[k]);
  }

  lemma StartKeeps(y: Sys)
    requires Shaped(y) && LinksOk(y) && ThreadsOk(y) && y.pool.backlog != []
    requires y.pool.activeCount == Live(y.slots) && y.pool.activeCount < y.pool.concurrency
    requires |y.pool.backlog| == 1 || y.pool.activeCount == y.pool.concurrency - 1
    ensures var (pool, task) := Schedule(y.pool); Inv(Start(y.(pool := pool), task))
  {
    var s, k := y.pool.backlog[0], |y.slots|;
    var (pool, task) := Schedule(y.pool);
    var z := y.(pool := pool, slots := y.slots + [Exiting]);
    LiveSnoc(y.slots, Exiting);
    HeadOfBacklog(y.pool.backlog);
    assert ThreadOk(y.threads[s], y.slots);
    forall i | 0 <= i < |z.threads| && i != s ensures ThreadOk(z.threads[i], z.slots) && z.threads[i].slot != Some(k) {
      assert ThreadOk(y.threads[i], y.slots);
    }
    StartLinks(y, z);
    LoopHeadKeeps(z, k, s);
  }

  lemma HeadOfBacklog(backlog: seq<nat>)
    requires backlog != [] && forall i, j :: 0 <= i < j < |backlog| ==> backlog[i] != backlog[j]
    ensures backlog[0] !in backlog[1..] && forall i :: i in backlog <==> i == backlog[0] || i in backlog[1..]
  {
    assert backlog == [backlog[0]] + backlog[1..];
  }

  lemma StartLinks(y: Sys, z: Sys)
    requires Shaped(y) && LinksOk(y) && y.pool.backlog != [] && y.threads == z.threads
    requires z.slots == y.slots + [Exiting] && z.pool.backlog == y.pool.backlog[1..]
    ensures Shaped(z) && y.pool.backlog[0] in y.pool.backlog && HeadLinks(z, |y.slots|, y.pool.backlog[0])
  {
    HeadOfBacklog(y.pool.backlog);
    forall i | 0 <= i < |y.slots| ensures z.slots[i] == y.slots[i] {}
  }

  lemma ScheduleKeeps(y: Sys)
    requires Shaped(y) && LinksOk(y) && ThreadsOk(y)
    requires y.pool.activeCount == Live(y.slots) && (y.pool.activeCount <= y.pool.concurrency || y.pool.activeCount == 0)
    requires |y.pool.backlog| <= 1 || y.pool.activeCount >= y.pool.concurrency - 1
    ensures var (pool, task) := Schedule(y.pool); Inv(Start(y.(pool := pool), task))
  {
    if y.pool.activeCount < y.pool.concurrency && y.pool.backlog != [] {
      StartKeeps(y);
    } else {
      assert y.(pool := y.pool) == y;
    }
  }

  lemma SubmitThreads(y: Sys, s: nat, op: Op, z: Sys)
    requires Shaped(y) && LinksOk(y) && ThreadsOk(y) && s < |y.threads| && z.slots == y.slots
    requires var t := y.threads[s];
             z.threads == y.threads[s := t.(queue := t.queue + [op], submitted := t.submitted + [op], processing := true)]
    ensures ThreadsOk(z)
  {
    forall i | 0 <= i < |z.threads| ensures ThreadOk(z.threads[i], z.slots) {
      assert ThreadOk(y.threads[i], y.slots);
      if i == s {
        var t := y.threads[s];
        assert Ops(t.log) + (t.queue + [op]) == Ops(t.log) + t.queue + [op];
        if t.slot.Some? {
          var front := Ops(t.log) + [y.slots[t.slot.value].op];
          assert front + (t.queue + [op]) == front + t.queue + [op];
        }
      }
    }
  }

  lemma SubmitKeeps(y: Sys, s: nat, op: Op)
    requires Inv(y) && Enabled(y, Submit(s, op))
    ensures Inv(Do(y, Submit(s, op)))
  {
    var t := y.threads[s];
    var queued := t.(queue := t.queue + [op], submitted := t.submitted + [op], processing := true);
    var threads := y.threads[s := queued];
    if t.processing {
      SubmitThreads(y, s, op, y.(threads := threads));
    } else {
      var z := y.(threads := threads, pool := y.pool.(backlog := y.pool.backlog + [s]));
      SubmitThreads(y, s, op, z);
      SubmitLinks(y, s, z);
      ScheduleKeeps(z);
      assert z.(pool := Enqueue(y.pool, s).0) == y.(threads := threads, pool := Enqueue(y.pool, s).0);
    }
  }

  lemma SubmitLinks(y: Sys, s: nat, z: Sys)
    requires Shaped(y) && LinksOk(y) && s < |y.threads| && !y.threads[s].processing && y.threads[s].slot.None?
    requires z.slots == y.slots && z.pool.backlog == y.pool.backlog + [s] && |z.threads| == |y.threads|
    requires z.threads[s].processing && z.threads[s].queue != [] && z.threads[s].slot.None?
    requires forall i :: 0 <= i < |y.threads| && i != s ==> z.threads[i] == y.threads[i]
    ensures Shaped(z) && LinksOk(z)
  {
    assert s in z.pool.backlog by {
      assert z.pool.backlog[|y.pool.backlog|] == s;
    }
    forall i | i in y.pool.backlog ensures i in z.pool.backlog && i != s {}
  }

  /** The system once slot `k` has left the pool and before the next task starts. */
  function Vacated(y: Sys, k: nat): Sys
    requires k < |y.slots|
  {
    y.(pool := y.pool.(activeCount := y.pool.activeCount - 1), slots := y.slots[k := Released])
  }

  lemma VacatedThreads(y: Sys, k: nat)
    requires Inv(y) && Enabled(y, Release(k))
    ensures ThreadsOk(Vacated(y, k)) && Shaped(Vacated(y, k)) && LinksOk(Vacated(y, k))
  {
    forall i | 0 <= i < |y.threads| ensures ThreadOk(y.threads[i], Vacated(y, k).slots) {
      assert ThreadOk(y.threads[i], y.slots);
    }
  }

  lemma ReleaseKeeps(y: Sys, k: nat)
    requires Inv(y) && Enabled(y, Release(k))
    ensures Inv(Do(y, Release(k)))
  {
    var z := Vacated(y, k);
    VacatedThreads(y, k);
    LiveUpdate(y.slots, k, Released);
    ScheduleKeeps(z);
    assert z.(pool := TaskEnded(y.pool).0) == y.(slots := y.slots[k := Released], pool := TaskEnded(y.pool).0);
  }

  lemma StepKeeps(y: Sys, step: Step)
    requires Inv(y) && Enabled(y, step)
    ensures Inv(Do(y, step))
  {
    match step
    case Submit(s, op) => SubmitKeeps(y, s, op);
    case Advance(k, reply) => AdvanceKeeps(y, k, reply);
    case Resume(k) => ResumeKeeps(y, k);
    case Release(k) => ReleaseKeeps(y, k);
  }

  ghost function Run(y: Sys, steps: seq<Step>): (r: Sys)
    requires Inv(y)
    ensures Inv(r)
    decreases |steps|
  {
    if steps == [] then y
    else if Enabled(y, steps[0]) then
      StepKeeps(y, steps[0]);
      Run(Do(y, steps[0]), steps[1..])
    else Run(y, steps[1..])
  }

  lemma FreshOk(concurrency: int, sessions: nat)
    ensures Inv(Fresh(concurrency, sessions))
  {
    assert Ops([]) == [];
  }

  ghost predicate Reachable(y: Sys) {
    exists concurrency, sessions, steps ::
      (FreshOk(concurrency, sessions); y == Run(Fresh(concurrency, sessions), steps))
  }

  // ---- main results ----

  /** Each session's operations are dispatched one at a time, in submission order, each once. */
  lemma SerializedTurns(y: Sys, s: nat)
    requires Reachable(y) && s < |y.threads|
    ensures forall i, j :: 0 <= i < j < |y.slots| && y.slots[i].Draining? && y.slots[j].Draining? ==>
              y.slots[i].session != y.slots[j].session
    ensures y.threads[s].slot.None? ==> y.threads[s].submitted == Ops(y.threads[s].log) + y.threads[s].queue
    ensures forall k :: 0 <= k < |y.slots| && y.slots[k].Draining? && y.slots[k].session == s ==>
              y.threads[s].submitted == Ops(y.threads[s].log) + [y.slots[k].op] + y.threads[s].queue
  {
    assert ThreadOk(y.threads[s], y.slots);
  }

  /** At most `concurrency` drain tasks are in the pool, and none waits while a slot is free; a
      session with queued operations always has a drain task waiting or running. */
  lemma NoIdleSlot(y: Sys)
    requires Reachable(y)
    ensures Live(y.slots) == y.pool.activeCount && (y.pool.activeCount <= y.pool.concurrency || y.pool.activeCount == 0)
    ensures y.pool.backlog != [] ==> y.pool.activeCount >= y.pool.concurrency
    ensures forall s :: 0 <= s < |y.threads| && y.threads[s].queue != [] ==>
              s in y.pool.backlog || exists k :: 0 <= k < |y.slots| && y.slots[k].Draining? && y.slots[k].session == s
  {
    forall s | 0 <= s < |y.threads| && y.threads[s].queue != []
      ensures s in y.pool.backlog || exists k :: 0 <= k < |y.slots| && y.slots[k].Draining? && y.slots[k].session == s
    {
      assert ThreadOk(y.threads[s], y.slots);
      if s !in y.pool.backlog {
        assert y.slots[y.threads[s].slot.value].session == s;
      }
    }
  }

  /** Which turns are refused: as already running, exactly after a turn whose start event could not be
      recorded and before any shutdown; as shut down, exactly after a shutdown. */
  lemma RefusedExactly(y: Sys, s: nat, i: nat)
    requires Reachable(y) && s < |y.threads| && i < |y.threads[s].log| && y.threads[s].log[i].op.kind == UserInput
    ensures var log := y.threads[s].log;
            && (log[i].result == Refused(AlreadyRunning) <==>
                  (exists j :: 0 <= j < i && LostStart(log[j])) && !exists j :: 0 <= j < i && log[j].op.kind == Shutdown)
            && (log[i].result == Refused(RuntimeShutdown) <==> exists j :: 0 <= j < i && log[j].op.kind == Shutdown)
  {
    assert ThreadOk(y.threads[s], y.slots);
    var log := y.threads[s].log;
    var before := log[..i];
    assert ResultOk(before, log[i].op, log[i].result);
    if HasLostStart(before) {
      var j :| 0 <= j < |before| && LostStart(before[j]);
      assert LostStart(log[j]);
    }
    if HasShutdown(before) {
      var j :| 0 <= j < |before| && before[j].op.kind == Shutdown;
      assert log[j].op.kind == Shutdown;
    }
    forall j | 0 <= j < i ensures before[j] == log[j] {}
  }

  lemma {:induction false} RunFirst(y: Sys, step: Step, more: seq<Step>)
    requires Inv(y) && Enabled(y, step)
    ensures Inv(Do(y, step)) && Run(y, [step] + more) == Run(Do(y, step), more)
  {
    StepKeeps(y, step);
    assert ([step] + more)[1..] == more;
  }

  /** One session on a pool of one, with a drain task started. */
  function OneSession(slot: Slot, thread: Thread): Sys {
    Sys(Pool(1, 1, []), [slot], [thread])
  }

  function Dispatched(a: Op, queue: seq<Op>): Thread {
    Thread(queue, true, Turn(Running, Some(a.runId)), Some(0), [a] + queue, [], [], [])
  }

  lemma SubmitToIdle(a: Op)
    requires a.kind == UserInput
    ensures Shaped(Fresh(1, 1))
    ensures Do(Fresh(1, 1), Submit(0, a)) == OneSession(Draining(0, a, Starting), Dispatched(a, []))
  {
    var y := Fresh(1, 1);
    var queued := FRESH.(queue := [] + [a], submitted := [] + [a]);
    assert y.threads[0] == FRESH;
    var backlog: seq<nat> := [] + [0];
    assert backlog == [0] && [0][1..] == [];
    assert Enqueue(y.pool, 0) == (Pool(1, 1, []), Some(0));
    var z := y.(pool := Pool(1, 1, []), threads := [queued.(processing := true)], slots := [Exiting]);
    assert Do(y, Submit(0, a)) == LoopHead(z, 0, 0);
    assert [] + [a] == [a] && [a][1..] == [] && [a] + [] == [a];
    assert LoopHead(z, 0, 0).threads == [Dispatched(a, [])];
  }

  lemma SubmitToBusy(slot: Slot, a: Op, b: Op)
    requires slot.Draining? ==> slot.session == 0
    ensures Do(OneSession(slot, Dispatched(a, [])), Submit(0, b)) == OneSession(slot, Dispatched(a, [b]))
  {
    assert [] + [b] == [b] && [a] + [] + [b] == [a] + [b];
  }

  lemma LoseStart(a: Op, thread: Thread)
    ensures Do(OneSession(Draining(0, a, Starting), thread), Advance(0, Raised)) ==
            OneSession(Draining(0, a, Settled(Threw(StartNotRecorded))), thread.(hearing := thread.hearing + [Raised]))
  {
  }

  lemma DrainNext(a: Op, result: Result, thread: Thread)
    requires thread.queue != []
    ensures var (turn, phase) := TurnBegin(thread.turn, thread.queue[0]);
            Do(OneSession(Draining(0, a, Settled(result)), thread), Resume(0)) ==
            OneSession(Draining(0, thread.queue[0], phase), thread.(queue := thread.queue[1..], turn := turn, slot := Some(0),
                                                                    log := thread.log + [Ended(a, result)], hearing := [],
                                                                    heard := thread.heard + [thread.hearing]))
  {
  }

  lemma DrainLast(a: Op, result: Result, thread: Thread)
    requires thread.queue == []
    ensures Do(OneSession(Draining(0, a, Settled(result)), thread), Resume(0)) ==
            OneSession(Exiting, thread.(processing := false, slot := None, log := thread.log + [Ended(a, result)],
                                            heard := thread.heard + [thread.hearing]))
  {
  }

  lemma {:induction false} SubmitTwo(a: Op, b: Op, steps: seq<Step>)
    requires a.kind == UserInput
    ensures Inv(Fresh(1, 1)) && Inv(OneSession(Draining(0, a, Starting), Dispatched(a, [b])))
    ensures Run(Fresh(1, 1), [Submit(0, a)] + ([Submit(0, b)] + steps)) ==
            Run(OneSession(Draining(0, a, Starting), Dispatched(a, [b])), steps)
  {
    FreshOk(1, 1);
    SubmitToIdle(a);
    RunFirst(Fresh(1, 1), Submit(0, a), [Submit(0, b)] + steps);
    SubmitToBusy(Draining(0, a, Starting), a, b);
    RunFirst(OneSession(Draining(0, a, Starting), Dispatched(a, [])), Submit(0, b), steps);
  }

  /** The refusal does happen, whichever the two runs: the first turn's start event is not recorded,
      and the second is refused as already running although no turn is. */
  lemma RefusedAfterLostStart(a: Op, b: Op) returns (y: Sys)
    requires a.kind == UserInput && b.kind == UserInput
    ensures Reachable(y) && |y.threads| == 1
    ensures y.threads[0].log == [Ended(a, Threw(StartNotRecorded)), Ended(b, Refused(AlreadyRunning))]
  {
    var steps := [Advance(0, Raised), Resume(0), Resume(0)];
    SubmitTwo(a, b, steps);
    y := LostThenRefused(OneSession(Draining(0, a, Starting), Dispatched(a, [b])), a, b);
    RunReaches(y, [Submit(0, a)] + ([Submit(0, b)] + steps));
  }

  lemma {:induction false} RunReaches(y: Sys, steps: seq<Step>)
    requires Inv(Fresh(1, 1)) && y == Run(Fresh(1, 1), steps)
    ensures Reachable(y)
  {
    FreshOk(1, 1);
  }

  lemma LostThenRefused(y2: Sys, a: Op, b: Op) returns (y: Sys)
    requires Inv(y2) && y2 == OneSession(Draining(0, a, Starting), Dispatched(a, [b])) && b.kind == UserInput
    ensures y == Run(y2, [Advance(0, Raised), Resume(0), Resume(0)]) && |y.threads| == 1
    ensures y.threads[0].log == [Ended(a, Threw(StartNotRecorded)), Ended(b, Refused(AlreadyRunning))]
  {
    LoseStart(a, Dispatched(a, [b]));
    RunFirst(y2, Advance(0, Raised), [Resume(0), Resume(0)]);
    var y3 := Do(y2, Advance(0, Raised));
    DrainNext(a, Threw(StartNotRecorded), y3.threads[0]);
    RunFirst(y3, Resume(0), [Resume(0)]);
    var y4 := Do(y3, Resume(0));
    DrainLast(b, Refused(AlreadyRunning), y4.threads[0]);
    RunFirst(y4, Resume(0), []);
    y := Do(y4, Resume(0));
    assert [Advance(0, Raised)] + [Resume(0), Resume(0)] == [Advance(0, Raised), Resume(0), Resume(0)];
    assert [Resume(0)] + [Resume(0)] == [Resume(0), Resume(0)] && [Resume(0)] + [] == [Resume(0)];
  }

  // ---- how each operation is answered ----

  /** The answer of an operation dispatched after this log whose calls came back like this. */
  ghost predicate Answers(log: seq<Ended>, op: Op, heard: seq<Reply>, result: Result) {
    match op.kind
    case UserInput => AnswersInput(log, heard, result)
    case Interrupt => AnswersCancel(log, heard, result)
    case Cancel => AnswersCancel(log, heard, result)
    case Approve => AnswersNote(StateAfter(log), heard, result)
    case Reject => AnswersNote(StateAfter(log), heard, result)
    case Shutdown => AnswersNote(Shut, heard, result)
  }

  /** A turn that is let in calls for its start event, its execution and its end event, and after a
      failure for the event that reports it: it is accepted as its own execution came back, or throws
      the fault of the call that raised. */
  ghost predicate AnswersInput(log: seq<Ended>, heard: seq<Reply>, result: Result) {
    if StateAfter(log) == Running then heard == [] && result == Refused(AlreadyRunning)
    else if StateAfter(log) == Shut then heard == [] && result == Refused(RuntimeShutdown)
    else
      || (|heard| == 1 && heard[0] == Raised && result == Threw(StartNotRecorded))
      || (|heard| == 3 && heard[0] != Raised && heard[1] == Raised
          && result == Threw(if heard[2] == Raised then EndNotRecorded else ExecutionThrew))
      || (|heard| == 3 && heard[0] != Raised && heard[2] != Raised && heard[1] == Returned(true) && result == Accepted(Completed))
      || (|heard| == 3 && heard[0] != Raised && heard[2] != Raised && heard[1] == Returned(false) && result == Accepted(Aborted))
      || (|heard| == 4 && heard[0] != Raised && heard[1] != Raised && heard[2] == Raised && result == Threw(EndNotRecorded))
  }

  /** A cancellation calls for the cancellation itself and then for its event. */
  ghost predicate AnswersCancel(log: seq<Ended>, heard: seq<Reply>, result: Result) {
    || (|heard| == 1 && heard[0] == Raised && result == Threw(CancellationThrew))
    || (|heard| == 2 && heard[0] != Raised && heard[1] == Raised && result == Threw(NoteNotRecorded))
    || (|heard| == 2 && heard[0] != Raised && heard[1] != Raised && result == Accepted(StateAfter(log)))
  }

  /** The others call for one event. */
  ghost predicate AnswersNote(state: TurnState, heard: seq<Reply>, result: Result) {
    |heard| == 1 && result == if heard[0] == Raised then Threw(NoteNotRecorded) else Accepted(state)
  }

  /** What has been heard so far of an operation at this point. */
  ghost predicate PhaseHeard(turn: Turn, log: seq<Ended>, op: Op, phase: Phase, heard: seq<Reply>) {
    match phase
    case Starting => heard == []
    case Executing => |heard| == 1 && heard[0] != Raised
    case Ending =>
      && |heard| == 2 && heard[0] != Raised && heard[1] != Raised
      && (heard[1] == Returned(true) <==> turn.state == Completed)
    case Aborting(fault) =>
      || (fault == ExecutionThrew && |heard| == 2 && heard[0] != Raised && heard[1] == Raised)
      || (fault == EndNotRecorded && |heard| == 3 && heard[0] != Raised && heard[1] != Raised && heard[2] == Raised)
    case Cancelling(_) => heard == []
    case Noting => if op.kind == Interrupt || op.kind == Cancel then |heard| == 1 && heard[0] != Raised else heard == []
    case Settled(result) => Answers(log, op, heard, result)
  }

  ghost predicate LogHeard(t: Thread) {
    |t.heard| == |t.log| && forall i :: 0 <= i < |t.log| ==> Answers(t.log[..i], t.log[i].op, t.heard[i], t.log[i].result)
  }

  ghost predicate ThreadHeard(t: Thread, slots: seq<Slot>) {
    && LogHeard(t)
    && (t.slot.Some? ==>
          && t.slot.value < |slots| && slots[t.slot.value].Draining?
          && PhaseHeard(t.turn, t.log, slots[t.slot.value].op, slots[t.slot.value].phase, t.hearing))
  }

  ghost predicate AllHeard(y: Sys) {
    forall s :: 0 <= s < |y.threads| ==> ThreadHeard(y.threads[s], y.slots)
  }

  lemma BeginHeard(turn: Turn, log: seq<Ended>, op: Op)
    requires turn == TurnAfter(log)
    ensures var (next, phase) := TurnBegin(turn, op); PhaseHeard(next, log, op, phase, [])
  {
  }

  lemma TurnStepHeard(turn: Turn, log: seq<Ended>, op: Op, phase: Phase, reply: Reply, heard: seq<Reply>)
    requires PhaseOk(turn, log, op, phase) && PhaseHeard(turn, log, op, phase, heard) && !phase.Settled?
    ensures var (next, then_) := TurnStep(turn, phase, reply); PhaseHeard(next, log, op, then_, heard + [reply])
  {
  }

  lemma LogHeardSnoc(t: Thread, e: Ended)
    requires LogHeard(t) && Answers(t.log, e.op, t.hearing, e.result)
    ensures LogHeard(t.(log := t.log + [e], heard := t.heard + [t.hearing]))
  {
    var u := t.(log := t.log + [e], heard := t.heard + [t.hearing]);
    forall i | 0 <= i < |u.log| ensures Answers(u.log[..i], u.log[i].op, u.heard[i], u.log[i].result) {
      assert u.log[..i] == t.log[..i];
      assert t.log[..|t.log|] == t.log;
    }
  }

  lemma LoopHeadHeard(y: Sys, k: nat, s: nat)
    requires k < |y.slots| && s < |y.threads| && LogHeard(y.threads[s]) && y.threads[s].turn == TurnAfter(y.threads[s].log)
    requires forall i :: 0 <= i < |y.threads| && i != s ==> ThreadHeard(y.threads[i], y.slots) && y.threads[i].slot != Some(k)
    ensures AllHeard(LoopHead(y, k, s))
  {
    var r, t := LoopHead(y, k, s), y.threads[s];
    if t.queue != [] {
      BeginHeard(t.turn, t.log, t.queue[0]);
    }
    forall i | 0 <= i < |r.threads| && i != s ensures ThreadHeard(r.threads[i], r.slots) {
      assert r.threads[i] == y.threads[i];
    }
  }

  /** The oldest waiting task may start: its session is not dispatching. */
  lemma StartHeard(y: Sys)
    requires Shaped(y) && AllHeard(y)
    requires forall s :: s in y.pool.backlog ==> y.threads[s].slot.None? && y.threads[s].turn == TurnAfter(y.threads[s].log)
    ensures var (pool, task) := Schedule(y.pool); AllHeard(Start(y.(pool := pool), task))
  {
    var (pool, task) := Schedule(y.pool);
    if task.Some? {
      var z := y.(pool := pool, slots := y.slots + [Exiting]);
      forall i | 0 <= i < |z.threads| ensures ThreadHeard(z.threads[i], z.slots) && z.threads[i].slot != Some(|y.slots|) {
        assert ThreadHeard(y.threads[i], y.slots);
      }
      LoopHeadHeard(z, |y.slots|, task.value);
    }
  }

  lemma AdvanceHeard(y: Sys, k: nat, reply: Reply)
    requires Inv(y) && AllHeard(y) && Enabled(y, Advance(k, reply))
    ensures AllHeard(Do(y, Advance(k, reply)))
  {
    var r, slot := Do(y, Advance(k, reply)), y.slots[k];
    var t := y.threads[slot.session];
    assert ThreadOk(t, y.slots) && ThreadHeard(t, y.slots);
    TurnStepHeard(t.turn, t.log, slot.op, slot.phase, reply, t.hearing);
    forall i | 0 <= i < |r.threads| && i != slot.session ensures ThreadHeard(r.threads[i], r.slots) {
      assert ThreadHeard(y.threads[i], y.slots) && y.threads[i].slot != Some(k);
    }
  }

  lemma ResumeHeard(y: Sys, k: nat)
    requires Inv(y) && AllHeard(y) && Enabled(y, Resume(k))
    ensures AllHeard(Do(y, Resume(k)))
  {
    var slot := y.slots[k];
    var s, t, e := slot.session, y.threads[slot.session], Ended(slot.op, slot.phase.result);
    assert ThreadOk(t, y.slots) && ThreadHeard(t, y.slots);
    LogHeardSnoc(t, e);
    var z := y.(threads := y.threads[s := t.(log := t.log + [e], heard := t.heard + [t.hearing])]);
    forall i | 0 <= i < |z.threads| && i != s ensures ThreadHeard(z.threads[i], z.slots) && z.threads[i].slot != Some(k) {
      assert ThreadHeard(y.threads[i], y.slots);
    }
    LoopHeadHeard(z, k, s);
  }

  lemma ReleaseHeard(y: Sys, k: nat)
    requires Inv(y) && AllHeard(y) && Enabled(y, Release(k))
    ensures AllHeard(Do(y, Release(k)))
  {
    var z := Vacated(y, k);
    forall i | 0 <= i < |z.threads| ensures ThreadHeard(z.threads[i], z.slots) {
      assert ThreadHeard(y.threads[i], y.slots);
    }
    forall s | s in z.pool.backlog ensures z.threads[s].slot.None? && z.threads[s].turn == TurnAfter(z.threads[s].log) {
      assert ThreadOk(y.threads[s], y.slots);
    }
    StartHeard(z);
    assert z.(pool := TaskEnded(y.pool).0) == y.(slots := y.slots[k := Released], pool := TaskEnded(y.pool).0);
  }

  lemma SubmitHeard(y: Sys, s: nat, op: Op)
    requires Inv(y) && AllHeard(y) && Enabled(y, Submit(s, op))
    ensures AllHeard(Do(y, Submit(s, op)))
  {
    var t := y.threads[s];
    assert ThreadOk(t, y.slots) && ThreadHeard(t, y.slots);
    var queued := t.(queue := t.queue + [op], submitted := t.submitted + [op], processing := true);
    var z := y.(threads := y.threads[s := queued]);
    forall i | 0 <= i < |z.threads| ensures ThreadHeard(z.threads[i], z.slots) {
      assert ThreadHeard(y.threads[i], y.slots);
    }
    if !t.processing {
      var w := z.(pool := y.pool.(backlog := y.pool.backlog + [s]));
      forall b | b in w.pool.backlog ensures b < |w.threads| && w.threads[b].slot.None? && w.threads[b].turn == TurnAfter(w.threads[b].log) {
        assert ThreadOk(y.threads[b], y.slots);
      }
      StartHeard(w);
      assert w.(pool := Enqueue(y.pool, s).0) == z.(pool := Enqueue(y.pool, s).0);
    }
  }

  lemma StepHeard(y: Sys, step: Step)
    requires Inv(y) && AllHeard(y) && Enabled(y, step)
    ensures AllHeard(Do(y, step))
  {
    match step
    case Submit(s, op) => SubmitHeard(y, s, op);
    case Advance(k, reply) => AdvanceHeard(y, k, reply);
    case Resume(k) => ResumeHeard(y, k);
    case Release(k) => ReleaseHeard(y, k);
  }

  lemma {:induction false} RunHeard(y: Sys, steps: seq<Step>)
    requires Inv(y) && AllHeard(y)
    ensures AllHeard(Run(y, steps))
    decreases |steps|
  {
    if steps != [] {
      if Enabled(y, steps[0]) {
        StepKeeps(y, steps[0]);
        StepHeard(y, steps[0]);
        RunHeard(Do(y, steps[0]), steps[1..]);
      } else {
        RunHeard(y, steps[1..]);
      }
    }
  }

  /** In every run each settled operation is answered by what its own calls came back with, and by
      what the operations before it left. */
  lemma AnsweredExactly(y: Sys, s: nat, i: nat)
    requires Reachable(y) && s < |y.threads| && i < |y.threads[s].log|
    ensures var t := y.threads[s];
            i < |t.heard| && Answers(t.log[..i], t.log[i].op, t.heard[i], t.log[i].result)
  {
    var concurrency, sessions, steps :|
      (FreshOk(concurrency, sessions); y == Run(Fresh(concurrency, sessions), steps));
    FreshOk(concurrency, sessions);
    RunHeard(Fresh(concurrency, sessions), steps);
    assert ThreadHeard(y.threads[s], y.slots);
  }

  /** A shutdown is final: from its dispatch on the state is shut down, whatever follows. */
  lemma ShutdownAbsorbs(y: Sys, s: nat)
    requires Reachable(y) && s < |y.threads|
    ensures HasShutdown(y.threads[s].log) ==> y.threads[s].turn.state == Shut
    ensures y.threads[s].slot.None? && !HasShutdown(y.threads[s].log) ==>
              y.threads[s].turn.state == if HasLostStart(y.threads[s].log) then Running else Idle
  {
    var t := y.threads[s];
    assert ThreadOk(t, y.slots);
    if t.slot.Some? && y.slots[t.slot.value].phase.Settled? {
      LogSnoc(t.log, Ended(y.slots[t.slot.value].op, y.slots[t.slot.value].phase.result));
    }
  }

  /** An interrupt or cancel stops its own run, unless an earlier turn's start event was lost. */
  lemma CancelsOwnRun(y: Sys, k: nat)
    requires Reachable(y) && k < |y.slots| && y.slots[k].Draining? && y.slots[k].phase.Cancelling?
    requires !HasLostStart(y.threads[y.slots[k].session].log)
    ensures y.slots[k].phase.target == y.slots[k].op.runId
  {
    var t := y.threads[y.slots[k].session];
    assert ThreadOk(t, y.slots);
    NoLostStartNoActive(t.log);
  }

  // ---- liveness: every submitted operation settles ----

  function PhaseRank(phase: Phase): nat {
    match phase
    case Starting => 4
    case Executing => 3
    case Ending => 2
    case Aborting(_) => 1
    case Cancelling(_) => 2
    case Noting => 1
    case Settled(_) => 0
  }

  function SlotWeight(slot: Slot): nat {
    match slot
    case Draining(_, _, phase) => 2 + PhaseRank(phase)
    case Exiting => 1
    case Released => 0
  }

  function SlotTotal(slots: seq<Slot>): nat {
    if slots == [] then 0 else SlotTotal(slots[..|slots| - 1]) + SlotWeight(slots[|slots| - 1])
  }

  function QueueTotal(threads: seq<Thread>): nat {
    if threads == [] then 0 else QueueTotal(threads[..|threads| - 1]) + |threads[|threads| - 1].queue|
  }

  /** How many steps are left at most, if nothing new is submitted. */
  function Weight(y: Sys): nat {
    8 * QueueTotal(y.threads) + SlotTotal(y.slots) + 2 * |y.pool.backlog|
  }

  lemma {:induction false} SlotTotalUpdate(slots: seq<Slot>, k: nat, slot: Slot)
    requires k < |slots|
    ensures SlotTotal(slots[k := slot]) + SlotWeight(slots[k]) == SlotTotal(slots) + SlotWeight(slot)
  {
    var n := |slots| - 1;
    if k < n {
      assert slots[k := slot][..n] == slots[..n][k := slot];
      SlotTotalUpdate(slots[..n], k, slot);
    } else {
      assert slots[k := slot][..n] == slots[..n];
    }
  }

  lemma {:induction false} QueueTotalUpdate(threads: seq<Thread>, s: nat, t: Thread)
    requires s < |threads|
    ensures QueueTotal(threads[s := t]) + |threads[s].queue| == QueueTotal(threads) + |t.queue|
  {
    var n := |threads| - 1;
    if s < n {
      assert threads[s := t][..n] == threads[..n][s := t];
      QueueTotalUpdate(threads[..n], s, t);
    } else {
      assert threads[s := t][..n] == threads[..n];
    }
  }

  /** Passing the head of a drain loop never adds weight to a slot that had any left. */
  lemma LoopHeadWeight(y: Sys, k: nat, s: nat)
    requires k < |y.slots| && s < |y.threads|
    ensures Weight(LoopHead(y, k, s)) + SlotWeight(y.slots[k]) <= Weight(y) + 1
  {
    var r := LoopHead(y, k, s);
    SlotTotalUpdate(y.slots, k, r.slots[k]);
    QueueTotalUpdate(y.threads, s, r.threads[s]);
  }

  lemma StartWeight(y: Sys)
    requires Shaped(y)
    ensures var (pool, task) := Schedule(y.pool); Weight(Start(y.(pool := pool), task)) <= Weight(y)
  {
    var (pool, task) := Schedule(y.pool);
    if task.Some? {
      var z := y.(pool := pool, slots := y.slots + [Exiting]);
      assert z.slots[..|y.slots|] == y.slots;
      LoopHeadWeight(z, |y.slots|, task.value);
    } else {
      assert y.(pool := pool) == y;
    }
  }

  predicate Internal(step: Step) {
    !step.Submit?
  }

  lemma StepLowersRank(turn: Turn, phase: Phase, reply: Reply)
    requires !phase.Settled?
    ensures PhaseRank(TurnStep(turn, phase, reply).1) < PhaseRank(phase)
  {
  }

  lemma AdvanceLightens(y: Sys, k: nat, reply: Reply)
    requires Inv(y) && Enabled(y, Advance(k, reply))
    ensures Weight(Do(y, Advance(k, reply))) < Weight(y)
  {
    var slot := y.slots[k];
    var t := y.threads[slot.session];
    var (turn, phase) := TurnStep(t.turn, slot.phase, reply);
    StepLowersRank(t.turn, slot.phase, reply);
    SlotTotalUpdate(y.slots, k, slot.(phase := phase));
    QueueTotalUpdate(y.threads, slot.session, t.(turn := turn, hearing := t.hearing + [reply]));
  }

  lemma ResumeLightens(y: Sys, k: nat)
    requires Inv(y) && Enabled(y, Resume(k))
    ensures Weight(Do(y, Resume(k))) < Weight(y)
  {
    var slot := y.slots[k];
    var t := y.threads[slot.session];
    var logged := t.(log := t.log + [Ended(slot.op, slot.phase.result)], heard := t.heard + [t.hearing]);
    QueueTotalUpdate(y.threads, slot.session, logged);
    LoopHeadWeight(y.(threads := y.threads[slot.session := logged]), k, slot.session);
  }

  lemma ReleaseLightens(y: Sys, k: nat)
    requires Inv(y) && Enabled(y, Release(k))
    ensures Weight(Do(y, Release(k))) < Weight(y)
  {
    var z := y.(pool := y.pool.(activeCount := y.pool.activeCount - 1), slots := y.slots[k := Released]);
    SlotTotalUpdate(y.slots, k, Released);
    StartWeight(z);
    assert z.(pool := TaskEnded(y.pool).0) == y.(slots := y.slots[k := Released], pool := TaskEnded(y.pool).0);
  }

  lemma StepLightens(y: Sys, step: Step)
    requires Inv(y) && Enabled(y, step) && Internal(step)
    ensures Weight(Do(y, step)) < Weight(y)
  {
    match step
    case Advance(k, reply) => AdvanceLightens(y, k, reply);
    case Resume(k) => ResumeLightens(y, k);
    case Release(k) => ReleaseLightens(y, k);
  }

  ghost predicate SameSubmitted(y: Sys, r: Sys) {
    && r.pool.concurrency == y.pool.concurrency && |r.threads| == |y.threads|
    && forall s :: 0 <= s < |y.threads| ==> r.threads[s].submitted == y.threads[s].submitted
  }

  lemma StepSubmitsNothing(y: Sys, step: Step)
    requires Inv(y) && Enabled(y, step) && Internal(step)
    ensures SameSubmitted(y, Do(y, step))
  {
    match step
    case Advance(k, reply) =>
    case Resume(k) =>
    case Release(k) =>
  }

  /** How many steps of a schedule are really taken. */
  function Taken(y: Sys, schedule: seq<Step>): nat
    requires Shaped(y)
    decreases |schedule|
  {
    if schedule == [] then 0
    else if Enabled(y, schedule[0]) && Shaped(Do(y, schedule[0])) then 1 + Taken(Do(y, schedule[0]), schedule[1..])
    else Taken(y, schedule[1..])
  }

  lemma {:induction false} TakenIsBounded(y: Sys, schedule: seq<Step>)
    requires Inv(y) && forall i :: 0 <= i < |schedule| ==> Internal(schedule[i])
    ensures Taken(y, schedule) <= Weight(y)
    ensures SameSubmitted(y, Run(y, schedule))
    decreases |schedule|
  {
    if schedule != [] {
      if Enabled(y, schedule[0]) {
        StepKeeps(y, schedule[0]);
        StepLightens(y, schedule[0]);
        StepSubmitsNothing(y, schedule[0]);
        TakenIsBounded(Do(y, schedule[0]), schedule[1..]);
      } else {
        TakenIsBounded(y, schedule[1..]);
      }
    }
  }

  lemma {:induction false} LiveSlot(slots: seq<Slot>) returns (k: nat)
    requires Live(slots) > 0
    ensures k < |slots| && !slots[k].Released?
  {
    k := |slots| - 1;
    if slots[k].Released? {
      k := LiveSlot(slots[..k]);
    }
  }

  /** While an operation of any session is unsettled, some step of the system itself can be taken. */
  lemma SomeStepEnabled(y: Sys, s: nat) returns (step: Step)
    requires Inv(y) && 1 <= y.pool.concurrency && s < |y.threads| && y.threads[s].submitted != Ops(y.threads[s].log)
    ensures Enabled(y, step) && Internal(step)
  {
    var t := y.threads[s];
    assert ThreadOk(t, y.slots);
    assert Ops(t.log) + [] == Ops(t.log);
    var k: nat;
    if t.slot.Some? {
      k := t.slot.value;
    } else {
      k := LiveSlot(y.slots);
    }
    step := if y.slots[k].Exiting? then Release(k)
            else if y.slots[k].phase.Settled? then Resume(k) else Advance(k, Raised);
  }

  /** Once nothing new is submitted, with at least one slot in the pool: in whatever order sessions
      advance and whatever their calls answer, only boundedly many steps follow, and when none is left
      every operation submitted to every session has settled. */
  lemma {:induction false} EveryOpSettles(y: Sys, schedule: seq<Step>)
    requires Reachable(y) && 1 <= y.pool.concurrency && forall i :: 0 <= i < |schedule| ==> Internal(schedule[i])
    ensures Taken(y, schedule) <= Weight(y)
    ensures var d := Run(y, schedule);
            (forall step :: Internal(step) ==> !Enabled(d, step)) ==>
              |d.threads| == |y.threads|
              && forall s :: 0 <= s < |d.threads| ==> Ops(d.threads[s].log) == y.threads[s].submitted
  {
    TakenIsBounded(y, schedule);
    var d := Run(y, schedule);
    if forall step :: Internal(step) ==> !Enabled(d, step) {
      forall s | 0 <= s < |d.threads| ensures Ops(d.threads[s].log) == y.threads[s].submitted {
        if d.threads[s].submitted != Ops(d.threads[s].log) {
          var step := SomeStepEnabled(d, s);
        }
      }
    }
  }

  // ---- the objects ----

  class InMemoryQueue {
    const concurrency: int
    var activeCount: int
    var queue: seq<nat>

    ghost function View(): Pool
      reads this
    {
      Pool(concurrency, activeCount, queue)
    }

    constructor (concurrency: int)
      ensures View() == Pool(concurrency, 0, [])
    {
      this.concurrency := concurrency;
      activeCount, queue := 0, [];
    }

    method Add(task: nat) returns (started: Option<nat>)
      modifies this
      ensures (View(), started) == Enqueue(old(View()), task)
    {
      queue := queue + [task];
      started := ScheduleNext();
    }

    method ScheduleNext() returns (started: Option<nat>)
      modifies this
      ensures (View(), started) == Schedule(old(View()))
    {
      if activeCount >= concurrency {
        return None;
      }
      if |queue| == 0 {
        return None;
      }
      started := Some(queue[0]);
      queue := queue[1..];
      activeCount := activeCount + 1;
    }

    /** The `finally` of a started task. */
    method Finished() returns (started: Option<nat>)
      modifies this
      ensures (View(), started) == TaskEnded(old(View()))
    {
      activeCount := activeCount - 1;
      started := ScheduleNext();
    }
  }

  class TurnRuntime {
    var state: TurnState
    var activeRunId: Option<string>

    ghost function View(): Turn
      reads this
    {
      Turn(state, activeRunId)
    }

    constructor ()
      ensures View() == Turn(Idle, None)
    {
      state, activeRunId := Idle, None;
    }

    /** The code of a dispatch up to its first await. */
    method Dispatch(op: Op) returns (phase: Phase)
      modifies this
      ensures (View(), phase) == TurnBegin(old(View()), op)
    {
      match op.kind {
        case UserInput =>
          if state == Running {
            return Settled(Refused(AlreadyRunning));
          }
          if state == Shut {
            return Settled(Refused(RuntimeShutdown));
          }
          state := Running;
          activeRunId := Some(op.runId);
          phase := Starting;
        case Interrupt =>
          phase := Cancelling(if activeRunId.Some? then activeRunId.value else op.runId);
        case Cancel =>
          phase := Cancelling(if activeRunId.Some? then activeRunId.value else op.runId);
        case Approve =>
          phase := Noting;
        case Reject =>
          phase := Noting;
        case Shutdown =>
          state := Shut;
          phase := Noting;
      }
    }

    /** The code from one await to the next. */
    method Continue(phase: Phase, reply: Reply) returns (next: Phase)
      requires !phase.Settled?
      modifies this
      ensures (View(), next) == TurnStep(old(View()), phase, reply)
    {
      match phase {
        case Starting =>
          next := if reply.Raised? then Settled(Threw(StartNotRecorded)) else Executing;
        case Executing =>
          if reply.Raised? {
            state := Aborted;
            next := Aborting(ExecutionThrew);
          } else {
            state := if reply.good then Completed else Aborted;
            next := Ending;
          }
        case Ending =>
          if reply.Raised? {
            state := Aborted;
            next := Aborting(EndNotRecorded);
          } else {
            next := Settled(Accepted(state));
            Finally();
          }
        case Aborting(fault) =>
          next := Settled(Threw(if reply.Raised? then EndNotRecorded else fault));
          Finally();
        case Cancelling(target) =>
          next := if reply.Raised? then Settled(Threw(CancellationThrew)) else Noting;
        case Noting =>
          next := if reply.Raised? then Settled(Threw(NoteNotRecorded)) else Settled(Accepted(state));
      }
    }

    method Finally()
      modifies this
      ensures View() == Turn(Idle, None)
    {
      activeRunId := None;
      state := Idle;
    }
  }

  /** One session's queue and drain loop, over the shared pool and its own turn machine. `t` is the
      session's part of the system state. */
  class ThreadRuntime {
    var queue: seq<Op>
    var processing: bool
    const turnRuntime: TurnRuntime

    ghost predicate Is(t: Thread)
      reads this, turnRuntime
    {
      queue == t.queue && processing == t.processing && turnRuntime.View() == t.turn
    }

    constructor ()
      ensures Is(FRESH) && fresh(turnRuntime)
    {
      queue, processing := [], false;
      turnRuntime := new TurnRuntime();
    }

    /** `submit`: queues the operation and, unless a drain task exists, hands one to the pool. */
    method Accept(op: Op, session: nat, pool: InMemoryQueue, ghost y: Sys) returns (started: Option<nat>)
      requires session < |y.threads| && Is(y.threads[session]) && pool.View() == y.pool && Inv(y)
      modifies this, pool
      ensures started.Some? ==> started.value < |y.threads|
      ensures var t := y.threads[session].(queue := y.threads[session].queue + [op],
                                           submitted := y.threads[session].submitted + [op], processing := true);
              && Is(t)
              && Do(y, Submit(session, op)) == Start(y.(pool := pool.View(), threads := y.threads[session := t]), started)
    {
      assert ThreadOk(y.threads[session], y.slots);
      queue := queue + [op];
      if processing || |queue| == 0 {
        assert y.(pool := pool.View()) == y;
        return None;
      }
      processing := true;
      started := pool.Add(session);
    }

    /** The head of the drain loop, in slot `k` of the pool. */
    method TakeNext(session: nat, k: nat, ghost y: Sys) returns (next: Option<(Op, Phase)>)
      requires session < |y.threads| && k < |y.slots| && Is(y.threads[session])
      modifies this, turnRuntime
      ensures Is(LoopHead(y, k, session).threads[session])
      ensures LoopHead(y, k, session).slots[k] ==
              if next.Some? then Draining(session, next.value.0, next.value.1) else Exiting
    {
      if |queue| > 0 {
        var op := queue[0];
        queue := queue[1..];
        var phase := turnRuntime.Dispatch(op);
        return Some((op, phase));
      }
      processing := false;
      next := None;
    }
  }
}
