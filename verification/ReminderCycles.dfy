/** Reminders over both stores: the cycles that the task store completes and the messages that the
    executors send. */
module ReminderCycles {
  import opened Options
  import opened SchedulerTasks
  import D = SchedulerDelivery

  /** Both stores, with the steps and the task calls made so far. */
  datatype World = World(system: D.System, tasks: seq<Task>, steps: seq<D.Step>, calls: seq<Request>)

  const BEGIN := World(D.START, [], [], [])

  datatype Event =
    | Protocol(step: D.Step)
    | Call(request: Request)
    | Complete(e: nat, id: TaskId, n: nat, nextDueAt: Option<Time>, now: Time)

  function DeliveryOf(id: TaskId, n: nat): D.DeliveryId {
    D.MakeDeliveryId(id, MakeCycleId(id, n), D.REMINDER)
  }

  function CompleteRequest(id: TaskId, n: nat, nextDueAt: Option<Time>, now: Time): Request {
    Mutate(id, Op.Complete(MakeCycleId(id, n), nextDueAt, None, None, None), now)
  }

  /** The call of the task store completes a cycle. */
  predicate Completing(r: Request) {
    r.Mutate? && (r.op.Complete? || r.op.SettleComplete?)
  }

  /** A reminder's cycle is completed by its executor, which asks for it where the protocol settles;
      anything else may happen at any time. (A reminder has no run, so recovery never completes it.) */
  predicate CanHappen(reminders: set<TaskId>, w: World, event: Event) {
    match event
    case Protocol(step) => !step.Settled? && D.Enabled(w.system, step)
    case Call(r) => Completing(r) ==> r.id !in reminders
    case Complete(e, id, n, _, _) =>
      D.Enabled(w.system, D.Settled(e, true)) && w.system.executors[e].id == DeliveryOf(id, n)
  }

  function Happen(reminders: set<TaskId>, w: World, event: Event): World
    requires CanHappen(reminders, w, event)
  {
    match event
    case Protocol(step) => w.(system := D.Do(w.system, step), steps := w.steps + [step])
    case Call(r) => w.(tasks := Handle(w.tasks, r).0, calls := w.calls + [r])
    case Complete(e, id, n, nextDueAt, now) =>
      var r := CompleteRequest(id, n, nextDueAt, now);
      var (tasks, reply) := Handle(w.tasks, r);
      var step := D.Settled(e, reply.Done?);
      World(D.Do(w.system, step), tasks, w.steps + [step], w.calls + [r])
  }

  function Play(reminders: set<TaskId>, w: World, events: seq<Event>): World
    decreases |events|
  {
    if events == [] then w
    else Play(reminders, if CanHappen(reminders, w, events[0]) then Happen(reminders, w, events[0]) else w, events[1..])
  }

  /** The entry is an accepted completion of cycle `n` of the task. */
  predicate Completes(entry: Entry, id: TaskId, n: nat) {
    && Completing(entry.request) && entry.request.id == id && Carried(entry.request.op) == Some(MakeCycleId(id, n))
    && entry.reply == Done
  }

  /** What the calls so far were answered. */
  function Answered(w: World): seq<Entry> {
    History([], w.calls)
  }

  ghost predicate Consistent(w: World) {
    w.system == D.RunSteps(D.START, w.steps) && w.tasks == Final([], w.calls)
  }

  /** Every accepted completion of a reminder's cycle was asked for by its executor. */
  ghost predicate Justified(reminders: set<TaskId>, w: World) {
    forall i, id, n :: 0 <= i < |w.calls| && id in reminders && Completes(Answered(w)[i], id, n) ==>
      DeliveryOf(id, n) in w.system.completed
  }

  lemma HappenConsistent(reminders: set<TaskId>, w: World, event: Event)
    requires Consistent(w) && CanHappen(reminders, w, event)
    ensures Consistent(Happen(reminders, w, event))
  {
    match event
    case Protocol(step) => D.RunOne(D.START, w.steps, step);
    case Call(r) => HistorySnoc([], w.calls, r);
    case Complete(e, id, n, nextDueAt, now) =>
      var r := CompleteRequest(id, n, nextDueAt, now);
      HistorySnoc([], w.calls, r);
      D.RunOne(D.START, w.steps, D.Settled(e, Handle(w.tasks, r).1.Done?));
  }

  lemma StepKeepsCompleted(s: D.System, step: D.Step)
    requires D.Enabled(s, step)
    ensures s.completed <= D.Do(s, step).completed
  {
  }

  /** One more call, answered, and justified if it completes a reminder's cycle. */
  lemma AnswerJustified(reminders: set<TaskId>, w: World, next: World, r: Request)
    requires Consistent(w) && Justified(reminders, w) && next.calls == w.calls + [r]
    requires w.system.completed <= next.system.completed
    requires forall id, n :: id in reminders && Completes(Entry(r, Handle(w.tasks, r).1), id, n) ==>
               DeliveryOf(id, n) in next.system.completed
    ensures Justified(reminders, next)
  {
    HistorySnoc([], w.calls, r);
    forall i, id, n | 0 <= i < |next.calls| && id in reminders && Completes(Answered(next)[i], id, n)
      ensures DeliveryOf(id, n) in next.system.completed
    {
      if i < |w.calls| {
        assert Answered(w)[i] == Answered(next)[i];
      }
    }
  }

  lemma CompleteJustified(reminders: set<TaskId>, w: World, e: nat, id: TaskId, n: nat, nextDueAt: Option<Time>, now: Time)
    requires Consistent(w) && Justified(reminders, w) && StoreOk(w.tasks)
    requires CanHappen(reminders, w, Event.Complete(e, id, n, nextDueAt, now))
    ensures Justified(reminders, Happen(reminders, w, Event.Complete(e, id, n, nextDueAt, now)))
  {
    var r := CompleteRequest(id, n, nextDueAt, now);
    var reply := Handle(w.tasks, r).1;
    var next := Happen(reminders, w, Event.Complete(e, id, n, nextDueAt, now));
    StepKeepsCompleted(w.system, D.Settled(e, reply.Done?));
    assert reply.Done? ==> DeliveryOf(id, n) in next.system.completed;
    forall id', n' | id' in reminders && Completes(Entry(r, reply), id', n') ensures DeliveryOf(id', n') in next.system.completed {
      assert MakeCycleId(id', n') == MakeCycleId(id, n);
    }
    AnswerJustified(reminders, w, next, r);
  }

  lemma HappenJustified(reminders: set<TaskId>, w: World, event: Event)
    requires Consistent(w) && Justified(reminders, w) && StoreOk(w.tasks) && CanHappen(reminders, w, event)
    ensures Justified(reminders, Happen(reminders, w, event))
  {
    match event
    case Protocol(step) =>
      StepKeepsCompleted(w.system, step);
      assert Answered(Happen(reminders, w, event)) == Answered(w);
    case Call(r) => AnswerJustified(reminders, w, Happen(reminders, w, event), r);
    case Complete(e, id, n, nextDueAt, now) => CompleteJustified(reminders, w, e, id, n, nextDueAt, now);
  }

  lemma {:induction false} PlayKeeps(reminders: set<TaskId>, w: World, events: seq<Event>)
    requires Consistent(w) && Justified(reminders, w)
    ensures Consistent(Play(reminders, w, events)) && Justified(reminders, Play(reminders, w, events))
    decreases |events|
  {
    if events != [] {
      if CanHappen(reminders, w, events[0]) {
        FinalOk([], w.calls);
        HappenConsistent(reminders, w, events[0]);
        HappenJustified(reminders, w, events[0]);
        PlayKeeps(reminders, Happen(reminders, w, events[0]), events[1..]);
      } else {
        PlayKeeps(reminders, w, events[1..]);
      }
    }
  }

  // ---- main result ----

  /** Over every interleaving of executors, engine and users, with crashes anywhere: a reminder's
      cycle is completed in the task store at most once, and if it is, its message was sent
      successfully exactly once more than the record of a send failed -- exactly once, if none did. */
  lemma {:induction false} CompletedOnceSentOnce(reminders: set<TaskId>, events: seq<Event>, id: TaskId, n: nat, i: nat)
    requires id in reminders && i < |Play(reminders, BEGIN, events).calls|
    requires Completes(Answered(Play(reminders, BEGIN, events))[i], id, n)
    ensures var w := Play(reminders, BEGIN, events);
            && (forall j :: 0 <= j < |w.calls| && j != i ==> !Completes(Answered(w)[j], id, n))
            && D.Sends(w.system, DeliveryOf(id, n)) == D.Forgotten(w.system, DeliveryOf(id, n)) + 1
            && (forall ids :: D.Allowed(w.steps, ids, false) && D.AllKeepable(ids) ==> D.Sends(w.system, DeliveryOf(id, n)) == 1)
  {
    PlayKeeps(reminders, BEGIN, events);
    var w, c := Play(reminders, BEGIN, events), MakeCycleId(id, n);
    forall j | 0 <= j < |w.calls| && j != i ensures !Completes(Answered(w)[j], id, n) {
      if Completes(Answered(w)[j], id, n) {
        assert Finishes(Answered(w)[i], c) && Finishes(Answered(w)[j], c);
        FinishedOnce([], w.calls, if i < j then i else j, if i < j then j else i, c);
      }
    }
    D.SendsAreAccountedFor(w.system, DeliveryOf(id, n));
    forall ids | D.Allowed(w.steps, ids, false) && D.AllKeepable(ids) ensures D.Sends(w.system, DeliveryOf(id, n)) == 1 {
      D.SentOnceIfKept(w.steps, ids, DeliveryOf(id, n));
    }
  }
}
