/** The task store object, and the engine's tick and recovery on top of it, beside others that may act
    at every await. */
module SchedulerEngine {
  import opened Options
  import opened SchedulerTasks

  const WAKE_INTERVAL_MS := 30_000

  class TaskStore {
    const instanceId: string
    var tasks: seq<Task>

    constructor (instanceId: string)
      ensures this.instanceId == instanceId && tasks == []
    {
      this.instanceId := instanceId;
      tasks := [];
    }

    method Find(id: TaskId) returns (i: nat)
      ensures i == IndexOf(tasks, id)
      ensures i < |tasks| ==> tasks[i := tasks[i]] == tasks
    {
      i := 0;
      while i < |tasks| && tasks[i].id != id
        invariant i <= |tasks|
        invariant IndexOf(tasks, id) == i + IndexOf(tasks[i..], id)
      {
        i := i + 1;
      }
    }

    /** The end of a mutation: the changed snapshot is written if it validates. */
    method Commit(i: nat, task: Task, reply: Reply) returns (r: Reply)
      requires i < |tasks|
      modifies this
      ensures Storable(task) ==> tasks == old(tasks)[i := task] && r == reply
      ensures !Storable(task) ==> tasks == old(tasks) && r == Unstorable
    {
      if Storable(task) {
        tasks := tasks[i := task];
        r := reply;
      } else {
        r := Unstorable;
      }
    }

    method Create(task: Task) returns (r: Reply)
      requires IsNew(task)
      modifies this
      ensures (tasks, r) == Handle(old(tasks), Request.Create(task))
    {
      var i := Find(task.id);
      if i < |tasks| {
        r := Refused;
      } else {
        tasks := tasks + [task];
        r := Done;
      }
    }

    method Nudge(id: TaskId, dueAt: Time, now: Time) returns (r: Reply)
      requires StoreOk(tasks)
      modifies this
      ensures (tasks, r) == Handle(old(tasks), Mutate(id, Op.Nudge(dueAt), now))
    {
      var i := Find(id);
      if i == |tasks| || !tasks[i].status.Pending? {
        return Ignored;
      }
      var task := tasks[i];
      task := task.(dueAt := dueAt);
      task := task.(updatedAt := now);
      r := Commit(i, task, Done);
    }

    method Claim(id: TaskId, expectedUpdatedAt: Option<Time>, now: Time) returns (r: Reply)
      requires StoreOk(tasks)
      modifies this
      ensures (tasks, r) == Handle(old(tasks), Mutate(id, Op.Claim(expectedUpdatedAt, instanceId), now))
    {
      var i := Find(id);
      if i == |tasks| {
        return NotClaimed(NotFound);
      }
      var task := tasks[i];
      if expectedUpdatedAt.Some? && task.updatedAt != expectedUpdatedAt.value {
        return NotClaimed(StaleUpdate);
      }
      if !task.status.Pending? {
        return NotClaimed(NotPending);
      }
      if task.dueAt > now {
        return NotClaimed(NotDue);
      }
      if task.expiresAt.Some? && task.expiresAt.value <= now {
        r := Commit(i, ToTerminal(task, Expired, now, Some("expired")), NotClaimed(LateExpired));
        return;
      }
      if task.cycleCount >= Min(task.maxCycles, MAX_CYCLES) {
        r := Commit(i, ToTerminal(task, Expired, now, Some("cycle_limit")), NotClaimed(CycleLimit));
        return;
      }
      var cycleNumber := task.cycleCount + 1;
      var cycleId := MakeCycleId(task.id, cycleNumber);
      task := task.(cycleCount := cycleNumber);
      task := task.(activeCycleId := Some(cycleId), activeRunId := None);
      task := task.(claimOwner := Some(instanceId), leaseExpiresAt := Some(now + CLAIM_LEASE_MS));
      task := task.(status := Claimed, updatedAt := now);
      r := Commit(i, task, Issued(cycleId));
    }

    method MarkRunning(id: TaskId, cycleId: CycleId, runId: Option<string>, now: Time) returns (r: Reply)
      requires StoreOk(tasks)
      modifies this
      ensures (tasks, r) == Handle(old(tasks), Mutate(id, Op.MarkRunning(cycleId, runId, instanceId), now))
    {
      var i := Find(id);
      if i == |tasks| || !HoldsCycle(tasks[i], cycleId) || tasks[i].claimOwner != Some(instanceId) {
        return Refused;
      }
      var task := tasks[i];
      task := task.(status := Running);
      if runId.Some? {
        task := task.(activeRunId := runId);
      }
      task := task.(lastStartedAt := Some(Or(task.lastStartedAt, now)), updatedAt := now);
      r := Commit(i, task, Done);
    }

    method RenewLease(id: TaskId, cycleId: CycleId, now: Time) returns (r: Reply)
      requires StoreOk(tasks)
      modifies this
      ensures (tasks, r) == Handle(old(tasks), Mutate(id, Op.RenewLease(cycleId, instanceId), now))
    {
      var i := Find(id);
      if i == |tasks| || !HoldsCycle(tasks[i], cycleId) || tasks[i].claimOwner != Some(instanceId) {
        return Refused;
      }
      var task := tasks[i].(leaseExpiresAt := Some(now + CLAIM_LEASE_MS));
      task := task.(updatedAt := now);
      r := Commit(i, task, Done);
    }

    method CompleteCycle(id: TaskId, cycleId: CycleId, nextDueAt: Option<Time>, completedAt: Option<Time>,
                         digest: Option<string>, observed: Option<string>, now: Time) returns (r: Reply)
      requires StoreOk(tasks)
      modifies this
      ensures (tasks, r) == Handle(old(tasks), Mutate(id, Op.Complete(cycleId, nextDueAt, completedAt, digest, observed), now))
    {
      var i := Find(id);
      if i == |tasks| || !HoldsCycle(tasks[i], cycleId) {
        return Refused;
      }
      var task, at := tasks[i], Or(completedAt, now);
      task := task.(consecutiveFailures := 0, lastCompletedAt := Some(at), lastObservationDigest := digest);
      if observed.Some? {
        task := task.(lastObservationStatus := observed);
      }
      task := task.(lastErrorCode := None);
      if LastCycle(task, nextDueAt) {
        task := ToTerminal(task, Completed, at, None);
      } else {
        task := ToPending(task, nextDueAt.value, at);
      }
      r := Commit(i, task, Done);
    }

    method FailCycle(id: TaskId, cycleId: CycleId, errorCode: string, retryAt: Option<Time>, terminal: bool, now: Time) returns (r: Reply)
      requires StoreOk(tasks)
      modifies this
      ensures (tasks, r) == Handle(old(tasks), Mutate(id, Op.Fail(cycleId, errorCode, retryAt, terminal), now))
    {
      var i := Find(id);
      if i == |tasks| || !HoldsCycle(tasks[i], cycleId) {
        return Refused;
      }
      var task := tasks[i];
      task := task.(consecutiveFailures := Min(task.consecutiveFailures + 1, MAX_CYCLES), lastErrorCode := Some(errorCode));
      if terminal || LastCycle(task, retryAt) {
        task := ToTerminal(task, Failed, now, Some(errorCode));
      } else {
        task := ToPending(task, retryAt.value, now);
      }
      r := Commit(i, task, Done);
    }

    method Cancel(id: TaskId, sessionId: string, aliases: set<string>, now: Time) returns (r: Reply)
      requires StoreOk(tasks)
      modifies this
      ensures (tasks, r) == Handle(old(tasks), Mutate(id, Op.Cancel(sessionId, aliases), now))
    {
      var i := Find(id);
      if i == |tasks| || tasks[i].owner.principalId !in aliases || tasks[i].owner.sessionId != sessionId {
        return Refused;
      }
      if IsTerminal(tasks[i].status) {
        return Ignored;
      }
      r := Commit(i, ToTerminal(tasks[i], Cancelled, now, Some("cancelled")), Done);
    }

    method Reconcile(id: TaskId, op: Op, now: Time) returns (r: Reply)
      requires StoreOk(tasks)
      requires op.Reclaim? || op.SettleComplete? || op.SettleFail? || op.Expire?
      modifies this
      ensures (tasks, r) == Handle(old(tasks), Mutate(id, op, now))
    {
      var i := Find(id);
      if i == |tasks| {
        return Ignored;
      }
      var task := tasks[i];
      if op.Expire? {
        r := Commit(i, ToTerminal(task, Expired, now, Some(Or(op.note, "expired"))), Done);
        return;
      }
      if task.activeCycleId != Some(op.cycleId) {
        return Ignored;
      }
      match op {
        case Reclaim(_, dueAt, note) =>
          task := ToPending(task.(lastErrorCode := note), dueAt, now);
        case SettleComplete(_, nextDueAt, completedAt, digest) =>
          task := task.(lastCompletedAt := Some(Or(completedAt, now)), lastObservationDigest := digest);
          task := if LastCycle(task, nextDueAt) then ToTerminal(task, Completed, now, None)
                  else ToPending(task, nextDueAt.value, now);
        case SettleFail(_, errorCode, retryAt, terminal) =>
          task := task.(lastErrorCode := Some(errorCode));
          task := if terminal || retryAt.None? then ToTerminal(task, Failed, now, Some(errorCode))
                  else ToPending(task, retryAt.value, now);
      }
      r := Commit(i, task, Done);
    }
  }

  // ---- due tasks ----

  predicate IsDue(t: Task, now: Time) {
    t.status.Pending? && t.dueAt <= now
  }

  function InsertDue(sorted: seq<Task>, t: Task): seq<Task> {
    if sorted == [] || t.dueAt < sorted[0].dueAt then [t] + sorted
    else [sorted[0]] + InsertDue(sorted[1..], t)
  }

  /** Filter, then a stable sort by due time. */
  function DueInOrder(tasks: seq<Task>, now: Time): seq<Task> {
    if tasks == [] then []
    else
      var front, t := DueInOrder(tasks[..|tasks| - 1], now), tasks[|tasks| - 1];
      if IsDue(t, now) then InsertDue(front, t) else front
  }

  function ListDue(tasks: seq<Task>, now: Time, limit: nat): seq<Task> {
    var due := DueInOrder(tasks, now);
    if |due| <= limit then due else due[..limit]
  }

  lemma {:induction false} InsertDueAdds(sorted: seq<Task>, t: Task)
    ensures multiset(InsertDue(sorted, t)) == multiset(sorted) + multiset{t}
    ensures forall x :: x in InsertDue(sorted, t) <==> x == t || x in sorted
  {
    if sorted != [] {
      assert sorted == [sorted[0]] + sorted[1..];
      if t.dueAt >= sorted[0].dueAt {
        InsertDueAdds(sorted[1..], t);
      }
    }
  }

  lemma {:induction false} InsertDueOrdered(sorted: seq<Task>, t: Task)
    requires forall i, j :: 0 <= i < j < |sorted| ==> sorted[i].dueAt <= sorted[j].dueAt
    ensures forall i, j :: 0 <= i < j < |InsertDue(sorted, t)| ==> InsertDue(sorted, t)[i].dueAt <= InsertDue(sorted, t)[j].dueAt
  {
    if sorted != [] && t.dueAt >= sorted[0].dueAt {
      InsertDueOrdered(sorted[1..], t);
      InsertDueAdds(sorted[1..], t);
      assert forall x :: x in InsertDue(sorted[1..], t) ==> sorted[0].dueAt <= x.dueAt;
    }
  }

  /** The due tasks, as they are stored. */
  function DueOnly(tasks: seq<Task>, now: Time): seq<Task> {
    if tasks == [] then []
    else DueOnly(tasks[..|tasks| - 1], now) + if IsDue(tasks[|tasks| - 1], now) then [tasks[|tasks| - 1]] else []
  }

  lemma {:induction false} DueOnlyMembers(tasks: seq<Task>, now: Time)
    ensures forall x :: x in DueOnly(tasks, now) <==> x in tasks && IsDue(x, now)
  {
    if tasks != [] {
      DueOnlyMembers(tasks[..|tasks| - 1], now);
      assert tasks == tasks[..|tasks| - 1] + [tasks[|tasks| - 1]];
    }
  }

  lemma {:induction false} DueIsSorted(tasks: seq<Task>, now: Time)
    ensures multiset(DueInOrder(tasks, now)) == multiset(DueOnly(tasks, now))
    ensures forall i, j :: 0 <= i < j < |DueInOrder(tasks, now)| ==>
              DueInOrder(tasks, now)[i].dueAt <= DueInOrder(tasks, now)[j].dueAt
  {
    if tasks != [] {
      var n := |tasks| - 1;
      DueIsSorted(tasks[..n], now);
      InsertDueOrdered(DueInOrder(tasks[..n], now), tasks[n]);
      InsertDueAdds(DueInOrder(tasks[..n], now), tasks[n]);
    }
  }

  /** The due list is the front, cut at the limit, of the pending tasks whose time has come: each as
      often as it is stored, and earliest first. */
  lemma DueListIsExact(tasks: seq<Task>, now: Time, limit: nat)
    ensures var all, listed := DueInOrder(tasks, now), ListDue(tasks, now, limit);
            && listed <= all && (|listed| == limit || listed == all) && |listed| <= limit
            && multiset(all) == multiset(DueOnly(tasks, now))
            && (forall i, j :: 0 <= i < j < |all| ==> all[i].dueAt <= all[j].dueAt)
            && (forall x :: x in all <==> x in tasks && IsDue(x, now))
  {
    DueIsSorted(tasks, now);
    DueOnlyMembers(tasks, now);
    forall x ensures x in DueInOrder(tasks, now) <==> x in tasks && IsDue(x, now) {
      assert x in DueInOrder(tasks, now) <==> x in multiset(DueInOrder(tasks, now));
      assert x in DueOnly(tasks, now) <==> x in multiset(DueOnly(tasks, now));
    }
  }

  // ---- the engine ----

  ghost function TotalMeasure(tasks: seq<Task>): nat
    requires StoreOk(tasks)
  {
    if tasks == [] then 0 else Measure(tasks[0]) + TotalMeasure(tasks[1..])
  }

  lemma {:induction false} TotalMeasureDrops(tasks: seq<Task>, i: nat, t: Task)
    requires StoreOk(tasks) && i < |tasks| && StoreOk(tasks[i := t]) && TaskOk(t)
    requires Measure(t) < Measure(tasks[i])
    ensures TotalMeasure(tasks[i := t]) < TotalMeasure(tasks)
  {
    if i == 0 {
      assert tasks[i := t][1..] == tasks[1..];
    } else {
      assert tasks[i := t][1..] == tasks[1..][i - 1 := t];
      TotalMeasureDrops(tasks[1..], i - 1, t);
    }
  }

  lemma DueClaimReplies(t: Task, instance: string, now: Time)
    requires TaskOk(t) && IsDue(t, now)
    ensures var reply := Apply(t, Op.Claim(Some(t.updatedAt), instance), now).1;
            reply.Issued? || reply == NotClaimed(LateExpired) || reply == NotClaimed(CycleLimit)
  {
  }

  /** A lifecycle step of one task makes the store's total measure smaller. */
  lemma LifecycleDrops(tasks: seq<Task>, i: nat, op: Op, now: Time)
    requires StoreOk(tasks) && i < |tasks| && Lifecycle(tasks[i], op, Apply(tasks[i], op, now).1)
    ensures var next := tasks[i := Apply(tasks[i], op, now).0];
            StoreOk(next) && TotalMeasure(next) < TotalMeasure(tasks)
  {
    ApplyKeeps(tasks[i], op, now);
    MeasureDrops(tasks[i], op, now);
    TotalMeasureDrops(tasks, i, Apply(tasks[i], op, now).0);
  }

  /** A due task seen in its current version is either started or retired by a claim. */
  lemma {:induction false} DueClaimMoves(tasks: seq<Task>, t: Task, instance: string, now: Time)
    requires StoreOk(tasks) && t in tasks && IsDue(t, now)
    ensures var (next, reply) := Handle(tasks, Mutate(t.id, Op.Claim(Some(t.updatedAt), instance), now));
            && StoreOk(next) && TotalMeasure(next) < TotalMeasure(tasks)
            && (reply.Issued? || reply == NotClaimed(LateExpired) || reply == NotClaimed(CycleLimit))
  {
    var i :| 0 <= i < |tasks| && tasks[i] == t;
    IndexOfUnique(tasks, i);
    DueClaimReplies(t, instance, now);
    LifecycleDrops(tasks, i, Op.Claim(Some(t.updatedAt), instance), now);
  }

  datatype RunStatus = RunQueued | RunRunning | RunCompleted | RunFailed | RunCancelled | RunUnknown

  predicate LeaseExpired(t: Task, now: Time) {
    IsActive(t.status) && (t.leaseExpiresAt.None? || t.leaseExpiresAt.value <= now)
  }

  /** What happens at an await: the calls that others make, the runs that end, and the clock after it. */
  datatype Meanwhile = Meanwhile(calls: seq<Request>, ended: nat, now: Time)

  /** The cycle was issued by one of these calls. */
  ghost predicate IssuedIn(h: seq<Entry>, c: CycleId) {
    exists i :: 0 <= i < |h| && h[i].reply == Issued(c)
  }

  lemma IssuedInMore(h: seq<Entry>, more: seq<Entry>, c: CycleId)
    requires IssuedIn(h, c) || IssuedIn(more, c)
    ensures IssuedIn(h + more, c)
  {
    if IssuedIn(h, c) {
      var i :| 0 <= i < |h| && h[i].reply == Issued(c);
      assert (h + more)[i].reply == Issued(c);
    } else {
      var i :| 0 <= i < |more| && more[i].reply == Issued(c);
      assert (h + more)[|h| + i].reply == Issued(c);
    }
  }

  /** A claim starts these cycles, at most one, or retires the task; what was held is held. */
  ghost predicate ClaimMoves(tasks: seq<Task>, next: seq<Task>, cycles: seq<CycleId>) {
    && StoreOk(tasks) && StoreOk(next) && TotalMeasure(next) < TotalMeasure(tasks)
    && (forall c :: Held(tasks, c) ==> Held(next, c)) && (forall k :: 0 <= k < |cycles| ==> Held(next, cycles[k]))
  }

  lemma ClaimOutcome(tasks: seq<Task>, t: Task, instance: string, now: Time, next: seq<Task>, reply: Reply)
    requires StoreOk(tasks) && (next, reply) == Handle(tasks, Mutate(t.id, Op.Claim(Some(t.updatedAt), instance), now))
    ensures t in tasks && IsDue(t, now) ==> ClaimMoves(tasks, next, if reply.Issued? then [reply.cycleId] else [])
  {
    if t in tasks && IsDue(t, now) {
      DueClaimMoves(tasks, t, instance, now);
      ClaimKeepsHeld(tasks, t, instance, now);
    }
  }

  class Engine {
    const store: TaskStore
    const maxConcurrency: nat
    var activeCount: nat
    var lastWakeStartedAt: Option<Time>
    var started: seq<CycleId>
    var clock: Time
    // what is still to happen at the awaits to come; nothing, once it is empty
    var coming: seq<Meanwhile>
    // the store when it was origin and every call of it since
    ghost var origin: seq<Task>
    ghost var calls: seq<Request>

    constructor (store: TaskStore, maxConcurrency: nat, clock: Time, coming: seq<Meanwhile>)
      requires 1 <= maxConcurrency <= 2 && StoreOk(store.tasks)
      ensures this.store == store && this.maxConcurrency == maxConcurrency && activeCount == 0 && started == []
      ensures this.clock == clock && this.coming == coming && Valid() && calls == []
    {
      this.store := store;
      this.maxConcurrency := maxConcurrency;
      activeCount := 0;
      lastWakeStartedAt := None;
      started := [];
      this.clock, this.coming := clock, coming;
      origin, calls := store.tasks, [];
    }

    ghost predicate Valid()
      reads this, store
    {
      && activeCount <= maxConcurrency
      && StoreOk(origin) && store.tasks == Final(origin, calls) && StoreOk(store.tasks)
      && (forall k :: 0 <= k < |started| ==> IssuedIn(History(origin, calls), started[k]))
    }

    /** Calls made, by the engine or by others, extend the history. */
    lemma {:induction false} CallsExtend(before: seq<Request>, more: seq<Request>)
      requires StoreOk(origin) && StoreOk(Final(origin, before))
      requires forall k :: 0 <= k < |started| ==> IssuedIn(History(origin, before), started[k])
      ensures Final(origin, before + more) == Final(Final(origin, before), more) && StoreOk(Final(origin, before + more))
      ensures forall k :: 0 <= k < |started| ==> IssuedIn(History(origin, before + more), started[k])
    {
      FinalAppend(origin, before, more);
      HistoryAppend(origin, before, more);
      FinalOk(Final(origin, before), more);
      forall k | 0 <= k < |started| ensures IssuedIn(History(origin, before + more), started[k]) {
        IssuedInMore(History(origin, before), History(Final(origin, before), more), started[k]);
      }
    }

    /** An await: others call the store, runs end, time passes. */
    method Await() returns (ghost theirs: seq<Request>)
      requires Valid()
      modifies this`activeCount, this`clock, this`coming, this`calls, store
      ensures Valid() && calls == old(calls) + theirs && store.tasks == Final(old(store.tasks), theirs)
      ensures activeCount <= old(activeCount)
      ensures old(coming) != [] ==> |coming| < |old(coming)|
      ensures old(coming) == [] ==> coming == [] && theirs == [] && activeCount == old(activeCount) && clock == old(clock)
    {
      theirs := [];
      if coming == [] {
        assert calls + [] == calls;
        return;
      }
      var now := coming[0];
      CallsExtend(calls, now.calls);
      theirs := now.calls;
      calls := calls + theirs;
      store.tasks := Final(store.tasks, now.calls);
      activeCount := if now.ended < activeCount then activeCount - now.ended else 0;
      clock := now.now;
      coming := coming[1..];
    }

    predicate CanStartWake(now: Time)
      reads this
    {
      lastWakeStartedAt.None? || now - lastWakeStartedAt.value >= WAKE_INTERVAL_MS
    }

    predicate MayStart(t: Task, now: Time)
      reads this
    {
      !t.kind.WakeTurn? || CanStartWake(now)
    }

    method FindCandidate(due: seq<Task>, now: Time) returns (candidate: Option<Task>)
      ensures candidate.None? ==> forall t :: t in due ==> !MayStart(t, now)
      ensures candidate.Some? ==> candidate.value in due && MayStart(candidate.value, now)
    {
      for i := 0 to |due|
        invariant forall j :: 0 <= j < i ==> !MayStart(due[j], now)
      {
        if MayStart(due[i], now) {
          return Some(due[i]);
        }
      }
      return None;
    }

    /** The claim, with what the engine does at once when it is granted. */
    method ClaimNow(task: Task)
      requires Valid() && activeCount < maxConcurrency
      modifies this`calls, this`started, this`activeCount, this`lastWakeStartedAt, store
      ensures Valid() && old(started) <= started && activeCount == old(activeCount) + |started| - |old(started)|
      ensures task in old(store.tasks) && IsDue(task, clock) ==>
                ClaimMoves(old(store.tasks), store.tasks, started[|old(started)|..])
    {
      ghost var before, request := store.tasks, Mutate(task.id, Op.Claim(Some(task.updatedAt), store.instanceId), clock);
      CallsExtend(calls, [request]);
      HistorySnoc(origin, calls, request);
      var claim := store.Claim(task.id, Some(task.updatedAt), clock);
      calls := calls + [request];
      ClaimOutcome(before, task, store.instanceId, clock, store.tasks, claim);
      if !claim.Issued? {
        return;
      }
      assert History(origin, calls)[|calls| - 1].reply == Issued(claim.cycleId);
      if task.kind.WakeTurn? {
        lastWakeStartedAt := Some(clock);
      }
      started := started + [claim.cycleId];
      activeCount := activeCount + 1;
    }

    /** The claim of a listed task, in the version that was listed; a claimed one is started. */
    method ClaimListed(task: Task)
      requires Valid() && activeCount < maxConcurrency
      modifies this, store
      ensures Valid() && origin == old(origin) && old(started) <= started
      ensures coming == [] || |coming| < |old(coming)|
      ensures old(coming) == [] && task in old(store.tasks) && IsDue(task, old(clock)) ==>
                && clock == old(clock) && activeCount == old(activeCount) + |started| - |old(started)|
                && ClaimMoves(old(store.tasks), store.tasks, started[|old(started)|..])
    {
      var _ := Await();
      ClaimNow(task);
    }

    /** One tick, whatever others do at its awaits: it ends, the concurrency bound is kept, every cycle
        it starts was issued by its claim, and it stops only when the bound is reached or none of the
        first due tasks may start. With nobody else at work, what it starts is held at its end. */
    method Tick()
      requires Valid()
      modifies this, store
      ensures Valid() && origin == old(origin) && old(started) <= started
      ensures activeCount == maxConcurrency ||
              forall t :: t in ListDue(store.tasks, clock, maxConcurrency - activeCount) ==> !MayStart(t, clock)
      ensures old(coming) == [] ==>
                && activeCount == old(activeCount) + |started| - |old(started)|
                && forall k :: |old(started)| <= k < |started| ==> Held(store.tasks, started[k])
    {
      while activeCount < maxConcurrency
        invariant Valid() && origin == old(origin) && old(started) <= started
        invariant old(coming) == [] ==>
                    && coming == [] && activeCount == old(activeCount) + |started| - |old(started)|
                    && forall k :: |old(started)| <= k < |started| ==> Held(store.tasks, started[k])
        decreases |coming|, TotalMeasure(store.tasks)
      {
        var _ := Await();
        var due := ListDue(store.tasks, clock, maxConcurrency - activeCount);
        var candidate := FindCandidate(due, clock);
        if candidate.None? {
          break;
        }
        DueListIsExact(store.tasks, clock, maxConcurrency - activeCount);
        ClaimListed(candidate.value);
      }
    }

    /** The recovery of one listed task whose lease had run out. */
    method RecoverTask(task: Task, now: Time, lookupRun: map<string, RunStatus>)
      requires Valid() && TaskOk(task) && IsActive(task.status) && Counted(store.tasks, task.id, task.cycleCount)
      modifies this, store
      ensures Valid() && origin == old(origin) && started == old(started)
      ensures Spent(store.tasks, task.id, task.cycleCount)
      ensures forall id, n :: old(Spent(store.tasks, id, n)) ==> Spent(store.tasks, id, n)
      ensures forall id, n :: old(Counted(store.tasks, id, n)) ==> Counted(store.tasks, id, n)
      ensures old(coming) == [] ==>
                && coming == [] && clock == old(clock)
                && store.tasks == Handle(old(store.tasks), Mutate(task.id, RecoveryOp(task, now, lookupRun), old(clock))).0
    {
      ghost var before := store.tasks;
      ghost var theirs := Await();
      EndedStaysEnded(before, theirs);
      ghost var request := Mutate(task.id, RecoveryOp(task, now, lookupRun), clock);
      CallsExtend(calls, [request]);
      HistorySnoc(origin, calls, request);
      RecoveryEnds(store.tasks, task, now, lookupRun, clock);
      EndedStaysEnded(store.tasks, [request]);
      assert Final(store.tasks, [request]) == Handle(store.tasks, request).0 by {
        HistorySnoc(store.tasks, [], request);
        assert [] + [request] == [request];
      }
      calls := calls + [request];
      var cycleId := task.activeCycleId.value;
      if task.activeRunId.Some? && task.activeRunId.value in lookupRun {
        var run := lookupRun[task.activeRunId.value];
        if run.RunCompleted? {
          var _ := store.Reconcile(task.id, SettleComplete(cycleId, None, None, None), clock);
          return;
        }
        if run.RunFailed? || run.RunCancelled? {
          var _ := store.Reconcile(task.id, SettleFail(cycleId, "scheduled_run_recovered_failed", None, true), clock);
          return;
        }
      }
      var _ := store.Reconcile(task.id, Reclaim(cycleId, now, Some("lease_expired_reclaimed")), clock);
    }

    /** The next of the listed tasks. */
    method RecoverListed(listed: seq<Task>, i: nat, now: Time, lookupRun: map<string, RunStatus>)
      requires Valid() && StoreOk(listed) && i < |listed| && OverUpTo(store.tasks, listed, i, now)
      modifies this, store
      ensures Valid() && origin == old(origin) && started == old(started)
      ensures OverUpTo(store.tasks, listed, i + 1, now)
      ensures old(coming) == [] && old(clock) == now && old(store.tasks) == RecoveredUpTo(listed, i, now, lookupRun) ==>
                coming == [] && clock == now && store.tasks == RecoveredUpTo(listed, i + 1, now, lookupRun)
    {
      RecoverNext(listed, i, now, lookupRun);
      if LeaseExpired(listed[i], now) {
        RecoverTask(listed[i], now, lookupRun);
      }
    }

    /** Recovery, whatever others do at its awaits: every cycle whose lease had run out at its start is
        over, and so fenced off, at its end. With nobody else at work, exactly the tasks of those
        cycles are moved. */
    method Recover(lookupRun: map<string, RunStatus>)
      requires Valid()
      modifies this, store
      ensures Valid() && origin == old(origin) && started == old(started)
      ensures forall t :: t in old(store.tasks) && LeaseExpired(t, old(clock)) ==>
                t.activeCycleId.Some? && Spent(store.tasks, t.id, t.cycleCount) && !Held(store.tasks, t.activeCycleId.value)
      ensures old(coming) == [] ==>
                store.tasks == RecoveredUpTo(old(store.tasks), |old(store.tasks)|, old(clock), lookupRun)
    {
      var listed, now := store.tasks, clock;
      assert OverUpTo(listed, listed, 0, now);
      assert RecoveredUpTo(listed, 0, now, lookupRun) == listed;
      for i := 0 to |listed|
        invariant Valid() && origin == old(origin) && started == old(started)
        invariant OverUpTo(store.tasks, listed, i, now)
        invariant old(coming) == [] ==> coming == [] && clock == now && store.tasks == RecoveredUpTo(listed, i, now, lookupRun)
      {
        RecoverListed(listed, i, now, lookupRun);
      }
      OverIsUnheld(store.tasks, listed, now);
    }
  }

  /** The listed tasks, the first `i` of them recovered. */
  ghost function RecoveredUpTo(listed: seq<Task>, i: nat, now: Time, lookupRun: map<string, RunStatus>): (r: seq<Task>)
    requires i <= |listed|
    ensures |r| == |listed|
  {
    seq(|listed|, k requires 0 <= k < |listed| =>
      if k < i && LeaseExpired(listed[k], now) then Recovered(listed[k], now, lookupRun) else listed[k])
  }

  lemma RecoveredIds(listed: seq<Task>, i: nat, now: Time, lookupRun: map<string, RunStatus>)
    requires StoreOk(listed) && i <= |listed|
    ensures forall k :: 0 <= k < |listed| ==> RecoveredUpTo(listed, i, now, lookupRun)[k].id == listed[k].id
  {
    forall k | 0 <= k < |listed| && LeaseExpired(listed[k], now) ensures Recovered(listed[k], now, lookupRun).id == listed[k].id {
      ApplyKeeps(listed[k], RecoveryOp(listed[k], now, lookupRun), now);
    }
  }

  lemma UpToNext(listed: seq<Task>, i: nat, now: Time, lookupRun: map<string, RunStatus>)
    requires i < |listed|
    ensures var next := if LeaseExpired(listed[i], now) then Recovered(listed[i], now, lookupRun) else listed[i];
            RecoveredUpTo(listed, i + 1, now, lookupRun) == RecoveredUpTo(listed, i, now, lookupRun)[i := next]
  {
  }

  lemma RecoverNext(listed: seq<Task>, i: nat, now: Time, lookupRun: map<string, RunStatus>)
    requires StoreOk(listed) && i < |listed|
    ensures var (tasks, next) := (RecoveredUpTo(listed, i, now, lookupRun), RecoveredUpTo(listed, i + 1, now, lookupRun));
            next == if LeaseExpired(listed[i], now)
                    then Handle(tasks, Mutate(listed[i].id, RecoveryOp(listed[i], now, lookupRun), now)).0 else tasks
  {
    var tasks := RecoveredUpTo(listed, i, now, lookupRun);
    UpToNext(listed, i, now, lookupRun);
    RecoveredIds(listed, i, now, lookupRun);
    IndexOfUnique(tasks, i);
    assert tasks[i] == listed[i] && tasks[i := listed[i]] == tasks;
  }

  /** The listed cycles have been counted, and of the first `i` tasks the lapsed ones are over. */
  ghost predicate OverUpTo(tasks: seq<Task>, listed: seq<Task>, i: nat, now: Time)
    requires i <= |listed|
  {
    && (forall k :: 0 <= k < |listed| ==> Counted(tasks, listed[k].id, listed[k].cycleCount))
    && (forall k :: 0 <= k < i && LeaseExpired(listed[k], now) ==> Spent(tasks, listed[k].id, listed[k].cycleCount))
  }

  lemma OverIsUnheld(tasks: seq<Task>, listed: seq<Task>, now: Time)
    requires StoreOk(listed) && OverUpTo(tasks, listed, |listed|, now)
    ensures forall t :: t in listed && LeaseExpired(t, now) ==>
              t.activeCycleId.Some? && Spent(tasks, t.id, t.cycleCount) && !Held(tasks, t.activeCycleId.value)
  {
    forall t | t in listed && LeaseExpired(t, now)
      ensures t.activeCycleId.Some? && Spent(tasks, t.id, t.cycleCount) && !Held(tasks, t.activeCycleId.value)
    {
      var k :| 0 <= k < |listed| && listed[k] == t;
      assert TaskOk(listed[k]);
    }
  }

  lemma {:induction false} CountedForever(tasks: seq<Task>, rs: seq<Request>, id: TaskId, n: nat)
    requires StoreOk(tasks) && Counted(tasks, id, n)
    ensures Counted(Final(tasks, rs), id, n)
    decreases |rs|
  {
    if rs != [] {
      HandleKeeps(tasks, rs[0]);
      CountedStays(tasks, rs[0], id, n);
      CountedForever(Handle(tasks, rs[0]).0, rs[1..], id, n);
    }
  }

  lemma {:induction false} EndedStaysEnded(tasks: seq<Task>, rs: seq<Request>)
    requires StoreOk(tasks)
    ensures forall id, n :: Spent(tasks, id, n) ==> Spent(Final(tasks, rs), id, n)
    ensures forall id, n :: Counted(tasks, id, n) ==> Counted(Final(tasks, rs), id, n)
  {
    forall id, n | Spent(tasks, id, n) ensures Spent(Final(tasks, rs), id, n) {
      SpentForever(tasks, rs, id, n);
    }
    forall id, n | Counted(tasks, id, n) ensures Counted(Final(tasks, rs), id, n) {
      CountedForever(tasks, rs, id, n);
    }
  }

  function RecoveryOp(t: Task, now: Time, lookupRun: map<string, RunStatus>): Op
    requires t.activeCycleId.Some?
  {
    var c := t.activeCycleId.value;
    if t.activeRunId.Some? && t.activeRunId.value in lookupRun then
      var run := lookupRun[t.activeRunId.value];
      if run.RunCompleted? then SettleComplete(c, None, None, None)
      else if run.RunFailed? || run.RunCancelled? then SettleFail(c, "scheduled_run_recovered_failed", None, true)
      else Reclaim(c, now, Some("lease_expired_reclaimed"))
    else Reclaim(c, now, Some("lease_expired_reclaimed"))
  }

  ghost function Recovered(t: Task, now: Time, lookupRun: map<string, RunStatus>): Task {
    if t.activeCycleId.Some? then Apply(t, RecoveryOp(t, now, lookupRun), now).0 else t
  }

  /** A recovered task is not active, and its old cycle is neither held nor issued ever again. */
  lemma RecoveryEndsCycle(tasks: seq<Task>, i: nat, now: Time, lookupRun: map<string, RunStatus>)
    requires StoreOk(tasks) && i < |tasks| && IsActive(tasks[i].status)
    ensures var t := tasks[i];
            var next := Handle(tasks, Mutate(t.id, RecoveryOp(t, now, lookupRun), now));
            && next.1 == Done && next.0 == tasks[i := Recovered(t, now, lookupRun)]
            && !IsActive(Recovered(t, now, lookupRun).status)
            && !Held(next.0, t.activeCycleId.value)
  {
    var t := tasks[i];
    IndexOfUnique(tasks, i);
    RecoveryIsTaken(t, t, now, lookupRun, now);
    AcceptedEndEnds(tasks, Mutate(t.id, RecoveryOp(t, now, lookupRun), now), t.activeCycleId.value);
    assert tasks[i := Recovered(t, now, lookupRun)][i].activeCycleId != t.activeCycleId;
    RecoveredIsIdle(t, now, lookupRun);
  }

  /** What recovery makes of a lapsed task: as its recorded run ended, or else due at once. */
  lemma RecoveredAs(t: Task, now: Time, lookupRun: map<string, RunStatus>)
    requires TaskOk(t) && IsActive(t.status)
    ensures var u := Recovered(t, now, lookupRun);
            var known := t.activeRunId.Some? && t.activeRunId.value in lookupRun;
            var run := if known then lookupRun[t.activeRunId.value] else RunUnknown;
            && (u.status == Completed <==> run == RunCompleted)
            && (u.status == Failed <==> run == RunFailed || run == RunCancelled)
            && (u.status == Pending <==> run == RunUnknown || run == RunQueued || run == RunRunning)
            && (u.status == Completed ==> u.lastCompletedAt == Some(now) && u.lastErrorCode == None)
            && (u.status == Failed ==> u.lastErrorCode == Some("scheduled_run_recovered_failed"))
            && (u.status == Pending ==> u.dueAt == now && u.lastErrorCode == Some("lease_expired_reclaimed"))
            && u.activeCycleId == None && u.cycleCount == t.cycleCount && u.updatedAt == now
  {
  }

  lemma RecoveredIsIdle(t: Task, now: Time, lookupRun: map<string, RunStatus>)
    requires TaskOk(t) && IsActive(t.status)
    ensures !IsActive(Recovered(t, now, lookupRun).status)
  {
  }

  /** Whatever has become of the task since it was listed, its recovery leaves that cycle over. */
  lemma RecoveryEnds(tasks: seq<Task>, t: Task, now: Time, lookupRun: map<string, RunStatus>, at: Time)
    requires StoreOk(tasks) && TaskOk(t) && IsActive(t.status) && Counted(tasks, t.id, t.cycleCount)
    ensures Spent(Handle(tasks, Mutate(t.id, RecoveryOp(t, now, lookupRun), at)).0, t.id, t.cycleCount)
  {
    var c, r := t.activeCycleId.value, Mutate(t.id, RecoveryOp(t, now, lookupRun), at);
    CountedStays(tasks, r, t.id, t.cycleCount);
    if Held(tasks, c) {
      HolderIs(tasks, t, c);
      RecoveryIsTaken(tasks[IndexOf(tasks, t.id)], t, now, lookupRun, at);
      AcceptedEndEnds(tasks, r, c);
    } else {
      UnheldIsTurnedAway(tasks, r, c);
    }
  }

  lemma {:induction false} HolderIs(tasks: seq<Task>, t: Task, c: CycleId)
    requires StoreOk(tasks) && TaskOk(t) && t.activeCycleId == Some(c) && Held(tasks, c)
    ensures IndexOf(tasks, t.id) < |tasks| && tasks[IndexOf(tasks, t.id)].activeCycleId == Some(c)
  {
    var i :| 0 <= i < |tasks| && tasks[i].activeCycleId == Some(c);
    CycleIdInjective(tasks[i].id, tasks[i].cycleCount, t.id, t.cycleCount);
    IndexOfUnique(tasks, i);
  }

  lemma RecoveryIsTaken(held: Task, t: Task, now: Time, lookupRun: map<string, RunStatus>, at: Time)
    requires TaskOk(held) && t.activeCycleId.Some? && held.activeCycleId == t.activeCycleId
    ensures Apply(held, RecoveryOp(t, now, lookupRun), at).1 == Done
  {
  }

  /** A claim of a pending task leaves every held cycle held. */
  lemma ClaimKeepsHeld(tasks: seq<Task>, t: Task, instance: string, now: Time)
    requires StoreOk(tasks) && t in tasks && IsDue(t, now)
    ensures var next := Handle(tasks, Mutate(t.id, Op.Claim(Some(t.updatedAt), instance), now));
            && (forall c :: Held(tasks, c) ==> Held(next.0, c))
            && (next.1.Issued? ==> Held(next.0, next.1.cycleId))
  {
    var i :| 0 <= i < |tasks| && tasks[i] == t;
    IndexOfUnique(tasks, i);
    var next := Handle(tasks, Mutate(t.id, Op.Claim(Some(t.updatedAt), instance), now));
    forall c | Held(tasks, c) ensures Held(next.0, c) {
      var j :| 0 <= j < |tasks| && tasks[j].activeCycleId == Some(c);
      assert j != i && next.0[j] == tasks[j];
    }
    if next.1.Issued? {
      assert next.0[i].activeCycleId == Some(next.1.cycleId);
    }
  }
}
