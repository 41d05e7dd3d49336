/** The delivery store object and the three executors that send through it, each at work beside others
    that may act at every await. */
module SchedulerExecutors {
  import opened Options
  import opened SchedulerTasks
  import opened SchedulerDelivery

  /** The notifier's answer, and whether the store can then write the record of a successful send. */
  datatype SendReply = SendOk(externalId: Option<string>, writable: bool) | SendError

  datatype Outcome = CycleCompleted | CycleFailed | Raised | Returned

  class DeliveryStore {
    var deliveries: Deliveries

    constructor ()
      ensures deliveries == map[]
    {
      deliveries := map[];
    }

    method Ensure(id: DeliveryId) returns (status: DeliveryStatus)
      modifies this
      ensures deliveries == EnsurePending(old(deliveries), id)
      ensures id in deliveries && status == deliveries[id].status
    {
      if id !in deliveries {
        deliveries := deliveries[id := Delivery(Waiting, 0)];
      }
      status := deliveries[id].status;
    }

    method Claim(id: DeliveryId, retryFailed: bool) returns (outcome: ClaimOutcome)
      modifies this
      ensures (deliveries, outcome) == ClaimSending(old(deliveries), id, retryFailed)
    {
      if id !in deliveries {
        return Denied;
      }
      var delivery := deliveries[id];
      if delivery.status.Delivered? || (delivery.status.SendFailed? && !retryFailed) || delivery.status.Sending? {
        return Denied;
      }
      delivery := delivery.(status := Sending);
      delivery := delivery.(attempts := delivery.attempts + 1);
      if delivery.attempts > MAX_ATTEMPTS {
        return ClaimOutcome.Threw;
      }
      deliveries := deliveries[id := delivery];
      outcome := Granted;
    }

    method Delivered(id: DeliveryId, externalId: Option<string>, writable: bool) returns (stored: bool)
      modifies this
      ensures (deliveries, stored) == if writable then MarkDelivered(old(deliveries), id, externalId) else (old(deliveries), false)
    {
      stored := id in deliveries && Keepable(externalId) && writable;
      if stored {
        deliveries := deliveries[id := deliveries[id].(status := DeliveryStatus.Delivered)];
      }
    }

    method Failed(id: DeliveryId) returns (stored: bool)
      modifies this
      ensures (deliveries, stored) == MarkFailed(old(deliveries), id)
    {
      stored := id in deliveries;
      if stored {
        deliveries := deliveries[id := deliveries[id].(status := SendFailed)];
      }
    }
  }

  // ---- one executor beside the others ----

  /** The system is these deliveries, these executors and executor `e`. */
  ghost predicate Beside(d: Deliveries, others: map<nat, Executor>, s: System, e: nat) {
    s.deliveries == d && e !in others && e in s.executors && s.executors == others[e := s.executors[e]]
  }

  predicate Foreign(steps: seq<Step>, e: nat) {
    forall i :: 0 <= i < |steps| ==> steps[i].e != e
  }

  lemma GoBeside(t: System, s: System, e: nat, f: nat)
    requires Beside(t.deliveries, t.executors, s, e) && f != e && Enabled(t, Go(f))
    ensures Enabled(s, Go(f))
    ensures Beside(Do(t, Go(f)).deliveries, Do(t, Go(f)).executors, Do(s, Go(f)), e)
    ensures Do(s, Go(f)).executors[e] == s.executors[e]
  {
  }

  lemma StepBeside(t: System, s: System, e: nat, step: Step)
    requires Beside(t.deliveries, t.executors, s, e) && step.e != e
    ensures Enabled(t, step) <==> Enabled(s, step)
    ensures Enabled(t, step) ==>
              Beside(Do(t, step).deliveries, Do(t, step).executors, Do(s, step), e)
              && Do(s, step).executors[e] == s.executors[e]
  {
    if step.Go? {
      if Enabled(t, step) {
        GoBeside(t, s, e, step.e);
      }
    } else if step.Spawn? || step.Crash? {
      ComingBeside(t, s, e, step);
    } else {
      QuickBeside(t, s, e, step);
    }
  }

  lemma ComingBeside(t: System, s: System, e: nat, step: Step)
    requires Beside(t.deliveries, t.executors, s, e) && step.e != e && (step.Spawn? || step.Crash?)
    ensures Enabled(t, step) <==> Enabled(s, step)
    ensures Enabled(t, step) ==>
              Beside(Do(t, step).deliveries, Do(t, step).executors, Do(s, step), e)
              && Do(s, step).executors[e] == s.executors[e]
  {
  }

  lemma MoveBeside(t: System, s: System, u: System, v: System, e: nat, f: nat, pc: Pc)
    requires Beside(t.deliveries, t.executors, s, e) && f != e && f in t.executors
    requires u.deliveries == t.deliveries && u.executors == MoveTo(t, f, pc).executors
    requires v.deliveries == s.deliveries && v.executors == MoveTo(s, f, pc).executors
    ensures Beside(u.deliveries, u.executors, v, e) && v.executors[e] == s.executors[e]
  {
  }

  lemma QuickBeside(t: System, s: System, e: nat, step: Step)
    requires Beside(t.deliveries, t.executors, s, e) && step.e != e && !step.Go? && !step.Spawn? && !step.Crash?
    ensures Enabled(t, step) <==> Enabled(s, step)
    ensures Enabled(t, step) ==>
              Beside(Do(t, step).deliveries, Do(t, step).executors, Do(s, step), e)
              && Do(s, step).executors[e] == s.executors[e]
  {
    if Enabled(t, step) {
      MoveBeside(t, s, Do(t, step), Do(s, step), e, step.e, Do(t, step).executors[step.e].pc);
    }
  }

  /** What the others do is the same whether or not executor `e` is in sight. */
  lemma {:induction false} RunBeside(t: System, s: System, e: nat, steps: seq<Step>)
    requires Beside(t.deliveries, t.executors, s, e) && Foreign(steps, e)
    ensures var (u, v) := (RunSteps(t, steps), RunSteps(s, steps));
            Beside(u.deliveries, u.executors, v, e) && v.executors[e] == s.executors[e]
    decreases |steps|
  {
    if steps != [] {
      StepBeside(t, s, e, steps[0]);
      assert Foreign(steps[1..], e);
      RunBeside(if Enabled(t, steps[0]) then Do(t, steps[0]) else t,
                if Enabled(s, steps[0]) then Do(s, steps[0]) else s, e, steps[1..]);
    }
  }

  lemma {:induction false} RunMore(s: System, steps: seq<Step>, more: seq<Step>)
    ensures RunSteps(s, steps + more) == RunSteps(RunSteps(s, steps), more)
    decreases |steps|
  {
    if steps == [] {
      assert steps + more == more;
    } else {
      assert (steps + more)[1..] == steps[1..] + more;
      RunMore(if Enabled(s, steps[0]) then Do(s, steps[0]) else s, steps[1..], more);
    }
  }

  /** Executor `e` took the step that gives the delivery up. */
  ghost predicate GaveUpIn(s: System, steps: seq<Step>, e: nat)
    decreases |steps|
  {
    steps != [] &&
    var front, last := steps[..|steps| - 1], steps[|steps| - 1];
    var t := RunSteps(s, front);
    GaveUpIn(s, front, e) || (last == Go(e) && e in t.executors && t.executors[e].pc.GiveUp?)
  }

  lemma GaveUpOne(s: System, steps: seq<Step>, step: Step, e: nat)
    ensures var t := RunSteps(s, steps);
            GaveUpIn(s, steps + [step], e) <==>
              GaveUpIn(s, steps, e) || (step == Go(e) && e in t.executors && t.executors[e].pc.GiveUp?)
  {
    assert (steps + [step])[..|steps|] == steps;
  }

  lemma {:induction false} GaveUpForeign(s: System, steps: seq<Step>, more: seq<Step>, e: nat)
    requires Foreign(more, e)
    ensures GaveUpIn(s, steps + more, e) <==> GaveUpIn(s, steps, e)
    decreases |more|
  {
    if more == [] {
      assert steps + more == steps;
    } else {
      var front, last := more[..|more| - 1], more[|more| - 1];
      GaveUpForeign(s, steps, front, e);
      assert steps + more == (steps + front) + [last];
      GaveUpOne(s, steps + front, last, e);
    }
  }

  /** The notifier sends, and the record of it is kept. */
  predicate GetsThrough(reply: SendReply) {
    reply.SendOk? && Keepable(reply.externalId) && reply.writable
  }

  /** Executor `self`, the store, and the other executors with what they will do at each await. */
  class Worker {
    const self: nat
    const kind: ExecutorKind
    const id: DeliveryId
    const store: DeliveryStore
    var others: map<nat, Executor>
    var coming: seq<seq<Step>>
    ghost const start: System
    ghost var trace: seq<Step>

    /** Enters a system that is anywhere its invariant allows. */
    constructor (self: nat, kind: ExecutorKind, id: DeliveryId, store: DeliveryStore,
                 others: map<nat, Executor>, coming: seq<seq<Step>>, ghost system: System)
      requires OwnersOk(system) && system.deliveries == store.deliveries && system.executors == others && self !in others
      requires forall i :: 0 <= i < |coming| ==> Foreign(coming[i], self)
      ensures this.self == self && this.kind == kind && this.id == id && this.store == store && this.coming == coming
      ensures start == Do(system, Spawn(self, kind, id)) && trace == [] && At(Pc.Ensure)
    {
      this.self, this.kind, this.id, this.store := self, kind, id, store;
      this.others, this.coming := others, coming;
      start := Do(system, Spawn(self, kind, id));
      trace := [];
      new;
      StepKeepsOwners(system, Spawn(self, kind, id));
      assert RunSteps(start, []) == start;
    }

    /** The system after everything that happened since the executor came in. */
    ghost function Now(): System
      reads this
    {
      RunSteps(start, trace)
    }

    /** The executor stands at `pc`. */
    ghost predicate At(pc: Pc)
      reads this, store
    {
      && (forall i :: 0 <= i < |coming| ==> Foreign(coming[i], self))
      && Beside(store.deliveries, others, Now(), self) && Now().executors[self] == Executor(kind, id, pc)
      && OwnersOk(Now())
    }

    /** The cycle was recorded as completed by this executor. */
    ghost predicate Settles()
      reads this
    {
      Settled(self, true) in trace
    }

    /** The executor gave the delivery up. */
    ghost predicate GaveUp()
      reads this
    {
      GaveUpIn(start, trace, self)
    }

    ghost function Marks(): (bool, bool)
      reads this
    {
      (Settles(), GaveUp())
    }

    /** Nobody else is at work. */
    ghost predicate Quiet()
      reads this
    {
      coming == []
    }

    ghost predicate Stored(d: Delivery)
      reads this, store
    {
      id in store.deliveries && store.deliveries[id] == d
    }

    /** Nobody else is at work, and the delivery stands like this before an attempt that may not claim it. */
    ghost predicate Unclaimable(attempt: nat, d: Delivery)
      reads this, store
    {
      Quiet() && Stored(d) && !d.status.Waiting? && (attempt == 0 || !d.status.SendFailed?)
    }

    /** Nobody else is at work, and this many attempts have failed. */
    ghost predicate Tried(attempt: nat)
      reads this, store
    {
      Quiet() && Stored(Delivery(if attempt == 0 then Waiting else SendFailed, attempt))
    }

    /** The attempt went as the notifier and the disk answered. */
    ghost predicate TriedWith(attempt: nat, reply: SendReply)
      reads this, store
    {
      if GetsThrough(reply) then Stored(Delivery(DeliveryStatus.Delivered, attempt + 1)) else Tried(attempt + 1)
    }

    /** An await: the others act. */
    method OthersAct(ghost pc: Pc)
      requires At(pc)
      modifies this, store
      ensures At(pc) && Marks() == old(Marks())
      ensures old(IsDelivered(store.deliveries, id)) ==> IsDelivered(store.deliveries, id)
      ensures old(Quiet()) ==> Quiet() && store.deliveries == old(store.deliveries)
    {
      if coming == [] {
        return;
      }
      var steps := coming[0];
      assert Foreign(steps, self);
      var t := System(store.deliveries, others, map[], map[], {});
      RunBeside(t, Now(), self, steps);
      RunMore(start, trace, steps);
      RunKeepsOwners(Now(), steps);
      GaveUpForeign(start, trace, steps, self);
      if IsDelivered(store.deliveries, id) {
        DeliveredForever(Now(), steps, id);
      }
      var u := RunSteps(t, steps);
      store.deliveries := u.deliveries;
      others := u.executors;
      coming := coming[1..];
      trace := trace + steps;
    }

    /** The executor's own step, once its call has changed the store accordingly. */
    ghost method Take(step: Step, pc: Pc)
      requires step.e == self && self !in others && self in Now().executors && Enabled(Now(), step)
      requires OwnersOk(Now()) && forall i :: 0 <= i < |coming| ==> Foreign(coming[i], self)
      requires Now().executors == others[self := Now().executors[self]]
      requires store.deliveries == Do(Now(), step).deliveries
      requires Do(Now(), step).executors == others[self := Executor(kind, id, pc)]
      modifies `trace
      ensures trace == old(trace) + [step] && Now() == Do(old(Now()), step) && At(pc)
      ensures Settles() == (old(Settles()) || step == Settled(self, true))
      ensures GaveUp() == (old(GaveUp()) || (step == Go(self) && old(Now().executors[self].pc).GiveUp?))
    {
      StepKeepsOwners(Now(), step);
      RunOne(start, trace, step);
      GaveUpOne(start, trace, step, self);
      trace := trace + [step];
    }

    /** The step that the executor takes with a call of the store. */
    ghost method TakeGo(pc: Pc)
      requires self !in others && self in Now().executors && OwnersOk(Now())
      requires forall i :: 0 <= i < |coming| ==> Foreign(coming[i], self)
      requires Now().executors == others[self := Executor(kind, id, pc)]
      requires !pc.Send? && !pc.Settle? && !pc.Stopped?
      requires store.deliveries == Advance(Now().deliveries, Executor(kind, id, pc)).0
      modifies `trace
      ensures At(Advance(old(Now().deliveries), Executor(kind, id, pc)).1)
      ensures Settles() == old(Settles()) && GaveUp() == (old(GaveUp()) || pc.GiveUp?)
    {
      Take(Go(self), Advance(Now().deliveries, Executor(kind, id, pc)).1);
    }

    method EnsurePending() returns (status: DeliveryStatus)
      requires At(Pc.Ensure)
      modifies this, store
      ensures id in store.deliveries && status == store.deliveries[id].status && Marks() == old(Marks())
      ensures At(if kind.ReminderExecutor? then Look(0) else if status.Delivered? then Stopped
                 else if kind.WatchNotifier? then TryClaim(0) else Look(0))
      ensures old(Quiet()) ==> Quiet() && (id !in old(store.deliveries) ==> Stored(Delivery(Waiting, 0)))
      ensures old(Quiet()) && id in old(store.deliveries) ==> store.deliveries == old(store.deliveries)
    {
      OthersAct(Pc.Ensure);
      status := store.Ensure(id);
      TakeGo(Pc.Ensure);
    }

    /** `get`, at the top of a round or after a claim was denied. */
    method Get(ghost pc: Pc) returns (status: Option<DeliveryStatus>)
      requires At(pc) && (pc.Look? || pc.AfterDenial?)
      modifies this, store
      ensures status == if id in store.deliveries then Some(store.deliveries[id].status) else None
      ensures At(Advance(store.deliveries, Executor(kind, id, pc)).1) && Marks() == old(Marks())
      ensures old(Quiet()) ==> Quiet() && store.deliveries == old(store.deliveries)
    {
      OthersAct(pc);
      status := if id in store.deliveries then Some(store.deliveries[id].status) else None;
      TakeGo(pc);
    }

    method ClaimSending(attempt: nat) returns (outcome: ClaimOutcome)
      requires At(TryClaim(attempt))
      modifies this, store
      ensures Marks() == old(Marks())
      ensures outcome.Granted? ==> At(Send(attempt))
      ensures outcome.Threw? ==> At(Stopped)
      ensures outcome.Denied? ==> At(if kind.ReminderExecutor? then AfterDenial(attempt)
                                     else if kind.WatchNotifier? then Stopped else Look(attempt + 1))
      ensures old(Quiet()) ==>
                Quiet() && (store.deliveries, outcome) == SchedulerDelivery.ClaimSending(old(store.deliveries), id, RetryFailed(kind, attempt))
    {
      OthersAct(TryClaim(attempt));
      outcome := store.Claim(id, RetryFailed(kind, attempt));
      TakeGo(TryClaim(attempt));
    }

    /** The call of the notifier. */
    method CallNotifier(attempt: nat, reply: SendReply)
      requires At(Send(attempt))
      modifies this, store
      ensures At(if reply.SendOk? then Store(attempt, reply.externalId) else Blame(attempt)) && Marks() == old(Marks())
      ensures old(Quiet()) ==> Quiet() && store.deliveries == old(store.deliveries)
    {
      OthersAct(Send(attempt));
      if reply.SendOk? {
        Take(Sent(self, reply.externalId), Store(attempt, reply.externalId));
      } else {
        Take(NotSent(self), Blame(attempt));
      }
    }

    method RecordDelivered(attempt: nat, externalId: Option<string>, writable: bool) returns (recorded: bool)
      requires At(Store(attempt, externalId))
      modifies this, store
      ensures recorded == (Keepable(externalId) && writable) && Marks() == old(Marks())
      ensures At(if !recorded then Blame(attempt) else if kind.ReminderExecutor? then Settle else Stopped)
      ensures recorded ==> IsDelivered(store.deliveries, id)
      ensures old(Quiet()) && id in old(store.deliveries) ==>
                Quiet() && Stored(if recorded then old(store.deliveries)[id].(status := DeliveryStatus.Delivered) else old(store.deliveries)[id])
    {
      OthersAct(Store(attempt, externalId));
      recorded := store.Delivered(id, externalId, writable);
      if writable {
        TakeGo(Store(attempt, externalId));
      } else {
        Take(NotRecorded(self), Blame(attempt));
      }
    }

    method RecordFailed(attempt: nat)
      requires At(Blame(attempt))
      modifies this, store
      ensures At(AfterFailedAttempt(kind, attempt)) && !IsDelivered(store.deliveries, id) && Marks() == old(Marks())
      ensures old(Quiet()) && id in old(store.deliveries) ==>
                Quiet() && Stored(old(store.deliveries)[id].(status := SendFailed))
    {
      OthersAct(Blame(attempt));
      var _ := store.Failed(id);
      TakeGo(Blame(attempt));
    }

    /** One send: the notifier's answer, recorded in the store. */
    method SendAndRecord(attempt: nat, reply: SendReply) returns (recorded: bool)
      requires At(Send(attempt))
      modifies this, store
      ensures recorded == GetsThrough(reply) && Marks() == old(Marks())
      ensures recorded == IsDelivered(store.deliveries, id)
      ensures At(if !recorded then AfterFailedAttempt(kind, attempt) else if kind.ReminderExecutor? then Settle else Stopped)
      ensures old(Quiet()) && id in old(store.deliveries) ==>
                Quiet() && Stored(Delivery(if recorded then DeliveryStatus.Delivered else SendFailed, old(store.deliveries)[id].attempts))
    {
      CallNotifier(attempt, reply);
      recorded := false;
      if reply.SendOk? {
        recorded := RecordDelivered(attempt, reply.externalId, reply.writable);
      }
      if !recorded {
        RecordFailed(attempt);
      }
    }

    /** Past the last round. */
    method Exhaust(attempt: nat)
      requires At(Look(attempt)) && attempt >= Attempts(kind)
      modifies `trace
      ensures At(Stopped) && Settles() == old(Settles()) && GaveUp() == (old(GaveUp()) || kind.ReminderExecutor?)
    {
      TakeGo(Look(attempt));
      if kind.ReminderExecutor? {
        TakeGo(GiveUp);
      }
    }

    /** `complete`: the task store accepts the completion or not. */
    method Complete(accepted: bool)
      requires At(Settle)
      modifies `trace
      ensures At(Stopped) && IsDelivered(store.deliveries, id) && GaveUp() == old(GaveUp())
      ensures Settles() == (old(Settles()) || accepted) && (accepted ==> id in Now().completed)
    {
      Take(Settled(self, accepted), Stopped);
    }
  }

  // ---- the executors ----

  /** Somebody else delivered, is sending, or neither. */
  method AfterDeniedClaim(w: Worker, attempt: nat, accepted: bool) returns (ended: Option<Outcome>)
    requires w.At(AfterDenial(attempt)) && w.kind.ReminderExecutor? && !w.Settles()
    modifies w, w.store
    ensures w.At(if ended.Some? then Stopped else Look(attempt + 1)) && w.GaveUp() == old(w.GaveUp())
    ensures ended == None || ended == Some(CycleCompleted) || ended == Some(Raised)
    ensures ended == Some(CycleCompleted) <==> IsDelivered(w.store.deliveries, w.id)
    ensures ended == None <==> w.id in w.store.deliveries && w.store.deliveries[w.id].status.Sending?
    ensures w.Settles() <==> ended == Some(CycleCompleted) && accepted
    ensures old(w.Quiet()) ==> w.Quiet() && w.store.deliveries == old(w.store.deliveries)
  {
    var afterClaim := w.Get(AfterDenial(attempt));
    if afterClaim == Some(DeliveryStatus.Delivered) {
      w.Complete(accepted);
      return Some(CycleCompleted);
    }
    if afterClaim == Some(Sending) {
      return None;
    }
    return Some(Raised);
  }

  /** The rest of a round, once the delivery has been claimed. */
  method SendClaimed(w: Worker, attempt: nat, reply: SendReply, accepted: bool) returns (ended: Option<Outcome>)
    requires w.At(Send(attempt)) && w.kind.ReminderExecutor? && !w.Settles()
    modifies w, w.store
    ensures w.At(if ended.Some? then Stopped else Look(attempt + 1)) && w.GaveUp() == old(w.GaveUp())
    ensures ended == (if GetsThrough(reply) then Some(CycleCompleted) else None)
    ensures ended == Some(CycleCompleted) <==> IsDelivered(w.store.deliveries, w.id)
    ensures w.Settles() <==> ended == Some(CycleCompleted) && accepted
    ensures old(w.Quiet()) && old(w.Stored(Delivery(Sending, attempt + 1))) ==> w.TriedWith(attempt, reply)
  {
    var recorded := w.SendAndRecord(attempt, reply);
    if recorded {
      w.Complete(accepted);
      return Some(CycleCompleted);
    }
    return None;
  }

  /** How a round ends on a delivery that it may not claim. */
  function TurnedAway(status: DeliveryStatus): Option<Outcome> {
    match status
    case Delivered => Some(CycleCompleted)
    case Sending => None
    case _ => Some(Raised)
  }

  /** The round of a reminder that is not delivered yet. */
  method ClaimReminder(w: Worker, attempt: nat, reply: SendReply, accepted: bool) returns (ended: Option<Outcome>)
    requires w.At(TryClaim(attempt)) && w.kind.ReminderExecutor? && !w.Settles()
    modifies w, w.store
    ensures w.At(if ended.Some? then Stopped else Look(attempt + 1)) && w.GaveUp() == old(w.GaveUp())
    ensures ended == None || ended == Some(CycleCompleted) || ended == Some(Raised)
    ensures ended == Some(CycleCompleted) ==> IsDelivered(w.store.deliveries, w.id)
    ensures w.Settles() <==> ended == Some(CycleCompleted) && accepted
    ensures old(w.Tried(attempt)) && attempt < 100 ==>
              w.TriedWith(attempt, reply) && ended == if GetsThrough(reply) then Some(CycleCompleted) else None
    ensures forall d :: old(w.Unclaimable(attempt, d)) ==> w.Quiet() && w.Stored(d) && ended == TurnedAway(d.status)
  {
    var sending := w.ClaimSending(attempt);
    if sending.Threw? {
      return Some(Raised);
    }
    if sending.Denied? {
      ended := AfterDeniedClaim(w, attempt, accepted);
      return;
    }
    ended := SendClaimed(w, attempt, reply, accepted);
  }

  /** One round of the reminder's retry loop; `ended` is its outcome if it was the last. */
  method AttemptReminder(w: Worker, attempt: nat, reply: SendReply, accepted: bool) returns (ended: Option<Outcome>)
    requires w.At(Look(attempt)) && w.kind.ReminderExecutor? && attempt < Attempts(w.kind) && !w.Settles()
    modifies w, w.store
    ensures w.At(if ended.Some? then Stopped else Look(attempt + 1)) && w.GaveUp() == old(w.GaveUp())
    ensures ended == None || ended == Some(CycleCompleted) || ended == Some(Raised)
    ensures ended == Some(CycleCompleted) ==> IsDelivered(w.store.deliveries, w.id)
    ensures w.Settles() <==> ended == Some(CycleCompleted) && accepted
    ensures old(w.Tried(attempt)) ==>
              w.TriedWith(attempt, reply) && ended == if GetsThrough(reply) then Some(CycleCompleted) else None
    ensures forall d :: old(w.Unclaimable(attempt, d)) ==> w.Quiet() && w.Stored(d) && ended == TurnedAway(d.status)
  {
    var current := w.Get(Look(attempt));
    if current == Some(DeliveryStatus.Delivered) {
      w.Complete(accepted);
      return Some(CycleCompleted);
    }
    ended := ClaimReminder(w, attempt, reply, accepted);
  }

  /** The first of `n` attempts that gets through. */
  function FirstThrough(reply: nat -> SendReply, n: nat): (k: Option<nat>)
    ensures k.Some? ==> k.value < n && GetsThrough(reply(k.value)) && forall i :: 0 <= i < k.value ==> !GetsThrough(reply(i))
    ensures k.None? ==> forall i :: 0 <= i < n ==> !GetsThrough(reply(i))
  {
    if n == 0 then None
    else if FirstThrough(reply, n - 1).Some? then FirstThrough(reply, n - 1)
    else if GetsThrough(reply(n - 1)) then Some(n - 1) else None
  }

  lemma FirstIs(reply: nat -> SendReply, n: nat, k: nat)
    requires k < n && FirstThrough(reply, k).None? && GetsThrough(reply(k))
    ensures FirstThrough(reply, n) == Some(k)
  {
  }

  /** How the attempts end, if nobody else is at work: with the first that gets through. */
  ghost predicate EndsWell(w: Worker, reply: nat -> SendReply, n: nat, ended: bool)
    reads w, w.store
  {
    match FirstThrough(reply, n)
    case None => !ended && w.Stored(Delivery(SendFailed, n))
    case Some(k) => ended && w.Stored(Delivery(DeliveryStatus.Delivered, k + 1))
  }

  /** How the executor ends, if nobody else is at work, on a delivery that is not new: one that was
      delivered is completed, one left being sent is given up, and one left failed raises. */
  predicate EndsAsFound(status: DeliveryStatus, outcome: Outcome) {
    match status
    case Delivered => outcome == CycleCompleted
    case Sending => outcome == CycleFailed
    case SendFailed => outcome == Raised
    case Waiting => true
  }

  /** Where the rounds are, if nobody else is at work and the delivery was found as `start`. */
  ghost predicate GoesWell(w: Worker, reply: nat -> SendReply, attempt: nat, start: Option<Delivery>)
    reads w, w.store
  {
    start.Some? ==>
      if start.value == Delivery(Waiting, 0) then w.Tried(attempt) && FirstThrough(reply, attempt).None?
      else w.Unclaimable(attempt, start.value) && (attempt > 0 ==> start.value.status.Sending?)
  }

  /** How they end then. */
  ghost predicate EndsRight(w: Worker, reply: nat -> SendReply, start: Option<Delivery>, outcome: Outcome)
    reads w, w.store
  {
    start.Some? ==>
      if start.value == Delivery(Waiting, 0) then outcome != Raised && EndsWell(w, reply, Attempts(w.kind), outcome == CycleCompleted)
      else w.Stored(start.value) && EndsAsFound(start.value.status, outcome)
  }

  method ReminderRound(w: Worker, reply: nat -> SendReply, attempt: nat, accepted: bool, ghost start: Option<Delivery>)
    returns (ended: Option<Outcome>)
    requires w.At(Look(attempt)) && w.kind.ReminderExecutor? && attempt < Attempts(w.kind) && !w.Settles()
    requires GoesWell(w, reply, attempt, start)
    modifies w, w.store
    ensures w.At(if ended.Some? then Stopped else Look(attempt + 1)) && w.GaveUp() == old(w.GaveUp())
    ensures ended == None || ended == Some(CycleCompleted) || ended == Some(Raised)
    ensures ended == Some(CycleCompleted) ==> IsDelivered(w.store.deliveries, w.id)
    ensures w.Settles() <==> ended == Some(CycleCompleted) && accepted
    ensures if ended.Some? then EndsRight(w, reply, start, ended.value) else GoesWell(w, reply, attempt + 1, start)
  {
    ended := AttemptReminder(w, attempt, reply(attempt), accepted);
    if start == Some(Delivery(Waiting, 0)) && GetsThrough(reply(attempt)) {
      FirstIs(reply, Attempts(w.kind), attempt);
    }
  }

  /** The retry loop. */
  method RetryReminder(w: Worker, reply: nat -> SendReply, accepted: bool, ghost start: Option<Delivery>) returns (outcome: Outcome)
    requires w.At(Look(0)) && w.kind.ReminderExecutor? && !w.Settles() && !w.GaveUp() && GoesWell(w, reply, 0, start)
    modifies w, w.store
    ensures w.At(Stopped)
    ensures outcome == CycleCompleted || outcome == CycleFailed || outcome == Raised
    ensures outcome == CycleCompleted ==> IsDelivered(w.store.deliveries, w.id)
    ensures w.Settles() <==> outcome == CycleCompleted && accepted
    ensures outcome == CycleFailed <==> w.GaveUp()
    ensures EndsRight(w, reply, start, outcome)
  {
    var attempt := 0;
    while attempt < Attempts(w.kind)
      invariant attempt <= Attempts(w.kind) && w.At(Look(attempt)) && !w.Settles() && !w.GaveUp()
      invariant GoesWell(w, reply, attempt, start)
    {
      var ended := ReminderRound(w, reply, attempt, accepted, start);
      if ended.Some? {
        return ended.value;
      }
      attempt := attempt + 1;
    }
    w.Exhaust(attempt);
    outcome := CycleFailed;
  }

  /** The reminder executor, whatever the others do at its awaits: it follows the protocol to its end,
      completes the cycle only when the reminder is recorded as delivered, and fails it exactly if it
      gave the delivery up. With nobody else at work, a new delivery is completed by the first attempt
      that gets through, and the cycle is failed if none does; a delivery found delivered, being sent or
      failed stays as it is and completes the cycle, fails it or raises. */
  method ExecuteReminder(w: Worker, reply: nat -> SendReply, accepted: bool) returns (outcome: Outcome)
    requires w.At(Pc.Ensure) && w.kind.ReminderExecutor? && w.trace == []
    modifies w, w.store
    ensures w.At(Stopped)
    ensures outcome == CycleCompleted || outcome == CycleFailed || outcome == Raised
    ensures outcome == CycleCompleted ==> IsDelivered(w.store.deliveries, w.id)
    ensures w.Settles() <==> outcome == CycleCompleted && accepted
    ensures outcome == CycleFailed <==> w.GaveUp()
    ensures old(w.Quiet()) && w.id !in old(w.store.deliveries) ==>
              outcome != Raised && EndsWell(w, reply, Attempts(w.kind), outcome == CycleCompleted)
    ensures forall d :: old(w.Unclaimable(0, d)) ==> w.Stored(d) && EndsAsFound(d.status, outcome)
  {
    var _ := w.EnsurePending();
    ghost var found := w.store.deliveries[w.id];
    ghost var start := if w.Quiet() && (found == Delivery(Waiting, 0) || !found.status.Waiting?) then Some(found) else None;
    outcome := RetryReminder(w, reply, accepted, start);
  }

  /** The watch executor's terminal notice: it returns only once the notice is recorded as delivered.
      With nobody else at work it does so exactly if it was delivered already, or may be sent and the
      attempt succeeds. */
  method Notify(w: Worker, reply: SendReply) returns (outcome: Outcome)
    requires w.At(Pc.Ensure) && w.kind.WatchNotifier?
    modifies w, w.store
    ensures w.At(Stopped) && (outcome == Returned || outcome == Raised)
    ensures outcome == Returned ==> IsDelivered(w.store.deliveries, w.id)
    ensures old(w.Quiet()) && outcome == Raised ==> !IsDelivered(w.store.deliveries, w.id)
    ensures var before := old(w.store.deliveries);
            old(w.Quiet()) ==>
              (outcome == Returned <==>
                 || IsDelivered(before, w.id)
                 || (GetsThrough(reply) && (w.id in before ==> !before[w.id].status.Sending? && before[w.id].attempts < MAX_ATTEMPTS)))
  {
    var status := w.EnsurePending();
    if status.Delivered? {
      return Returned;
    }
    var sending := w.ClaimSending(0);
    if !sending.Granted? {
      return Raised;
    }
    var recorded := w.SendAndRecord(0, reply);
    outcome := if recorded then Returned else Raised;
  }

  /** The round of an explanation that is not delivered yet. */
  method ClaimExplanation(w: Worker, attempt: nat, reply: SendReply) returns (ended: Option<Outcome>)
    requires w.At(TryClaim(attempt)) && w.kind.WakeExplainer?
    modifies w, w.store
    ensures w.At(if ended.Some? then Stopped else Look(attempt + 1))
    ensures ended == None || ended == Some(Returned) || ended == Some(Raised)
    ensures ended == Some(Returned) ==> IsDelivered(w.store.deliveries, w.id)
    ensures old(w.Tried(attempt)) && attempt < 100 ==>
              w.TriedWith(attempt, reply) && ended == if GetsThrough(reply) then Some(Returned) else None
  {
    var sending := w.ClaimSending(attempt);
    if sending.Threw? {
      return Some(Raised);
    }
    if sending.Denied? {
      return None;
    }
    var recorded := w.SendAndRecord(attempt, reply);
    return if recorded then Some(Returned) else None;
  }

  /** One round of the wake explanation; `ended` is its outcome if it was the last. */
  method AttemptExplanation(w: Worker, attempt: nat, reply: SendReply) returns (ended: Option<Outcome>)
    requires w.At(Look(attempt)) && w.kind.WakeExplainer? && attempt < 3
    modifies w, w.store
    ensures w.At(if ended.Some? then Stopped else Look(attempt + 1))
    ensures ended == None || ended == Some(Returned) || ended == Some(Raised)
    ensures ended == Some(Returned) ==> IsDelivered(w.store.deliveries, w.id)
    ensures old(w.Tried(attempt)) ==>
              w.TriedWith(attempt, reply) && ended == if GetsThrough(reply) then Some(Returned) else None
  {
    var current := w.Get(Look(attempt));
    if current == Some(DeliveryStatus.Delivered) {
      return Some(Returned);
    }
    ended := ClaimExplanation(w, attempt, reply);
  }

  /** The three rounds; they end early if one returns or raises. */
  method RetryExplanation(w: Worker, reply: nat -> SendReply) returns (outcome: Outcome)
    requires w.At(Look(0)) && w.kind.WakeExplainer?
    modifies w, w.store
    ensures w.At(Stopped) && (outcome == Returned || outcome == Raised)
    ensures old(w.Tried(0)) ==> outcome == Returned && EndsWell(w, reply, 3, IsDelivered(w.store.deliveries, w.id))
  {
    ghost var alone := w.Tried(0);
    for attempt := 0 to 3
      invariant w.At(Look(attempt))
      invariant alone ==> w.Tried(attempt) && FirstThrough(reply, attempt).None?
    {
      var ended := AttemptExplanation(w, attempt, reply(attempt));
      if alone && GetsThrough(reply(attempt)) {
        FirstIs(reply, 3, attempt);
      }
      if ended.Some? {
        return ended.value;
      }
    }
    w.Exhaust(3);
    outcome := Returned;
  }

  /** The wake explanation: three attempts, and no failure of the cycle if they all fail. With nobody
      else at work, a new explanation is delivered by the first attempt that gets through. */
  method DeliverWakeExplanation(w: Worker, reply: nat -> SendReply) returns (outcome: Outcome)
    requires w.At(Pc.Ensure) && w.kind.WakeExplainer?
    modifies w, w.store
    ensures w.At(Stopped) && (outcome == Returned || outcome == Raised)
    ensures old(w.Quiet()) && w.id !in old(w.store.deliveries) ==>
              outcome == Returned && EndsWell(w, reply, 3, IsDelivered(w.store.deliveries, w.id))
    ensures old(w.Quiet()) && old(IsDelivered(w.store.deliveries, w.id)) ==> outcome == Returned && w.store.deliveries == old(w.store.deliveries)
  {
    var status := w.EnsurePending();
    if status.Delivered? {
      return Returned;
    }
    outcome := RetryExplanation(w, reply);
  }
}
