/** What each call of the task store answers and leaves behind, in the task's own fields and the clock. */
module SchedulerOutcomes {
  import opened Options
  import opened SchedulerTasks

  /** The call reached task `i` and did this to it, and to no other. */
  ghost predicate Becomes(tasks: seq<Task>, next: seq<Task>, i: nat, u: Task) {
    |next| == |tasks| && i < |tasks| && next[i] == u && forall j :: 0 <= j < |tasks| && j != i ==> next[j] == tasks[j]
  }

  /** What no call but a claim ever touches. */
  predicate SameTask(t: Task, u: Task) {
    && u.id == t.id && u.kind == t.kind && u.owner == t.owner && u.expiresAt == t.expiresAt
    && u.maxCycles == t.maxCycles && u.cycleCount == t.cycleCount && u.lastStartedAt == t.lastStartedAt
  }

  predicate SameFindings(t: Task, u: Task) {
    && u.lastCompletedAt == t.lastCompletedAt && u.lastObservationDigest == t.lastObservationDigest
    && u.lastObservationStatus == t.lastObservationStatus
  }

  predicate HoldsNothing(u: Task) {
    u.activeCycleId == None && u.activeRunId == None && u.claimOwner == None && u.leaseExpiresAt == None
  }

  /** Another cycle was asked for, is left, and would start before the task expires. */
  predicate GoesOn(t: Task, nextDueAt: Option<Time>) {
    && nextDueAt.Some? && t.cycleCount < t.maxCycles
    && (t.expiresAt.Some? ==> nextDueAt.value < t.expiresAt.value)
  }

  /** Pending again at the time asked for, or ended in this status. */
  predicate PendingOrEnded(t: Task, u: Task, goesOn: bool, nextDueAt: Option<Time>, end: Status, at: Time) {
    && SameTask(t, u) && HoldsNothing(u) && u.updatedAt == at
    && (goesOn ==> u.status == Pending && nextDueAt == Some(u.dueAt))
    && (!goesOn ==> u.status == end && u.dueAt == t.dueAt)
  }

  lemma Reached(tasks: seq<Task>, i: nat, op: Op, now: Time)
    requires StoreOk(tasks) && i < |tasks|
    ensures Handle(tasks, Mutate(tasks[i].id, op, now)) == (tasks[i := Apply(tasks[i], op, now).0], Apply(tasks[i], op, now).1)
    ensures Becomes(tasks, tasks[i := Apply(tasks[i], op, now).0], i, Apply(tasks[i], op, now).0)
    ensures Apply(tasks[i], op, now).0 == tasks[i] ==> tasks[i := Apply(tasks[i], op, now).0] == tasks
  {
    IndexOfUnique(tasks, i);
  }

  predicate TooLong(text: Option<string>, max: nat) {
    text.Some? && |text.value| > max
  }

  predicate AsCompleted(t: Task, c: CycleId, nextDueAt: Option<Time>, completedAt: Option<Time>,
                        digest: Option<string>, observed: Option<string>, now: Time, u: Task, reply: Reply) {
    var at := if completedAt.Some? then completedAt.value else now;
    && (reply == Refused <==> t.activeCycleId != Some(c))
    && (reply == Done <==> t.activeCycleId == Some(c) && !TooLong(digest, 256))
    && (reply != Done ==> u == t && (reply == Refused || reply == Unstorable))
    && (reply == Done ==>
          && PendingOrEnded(t, u, GoesOn(t, nextDueAt), nextDueAt, Completed, at)
          && u.consecutiveFailures == 0 && u.lastErrorCode == None && u.lastCompletedAt == Some(at)
          && u.lastObservationDigest == digest
          && u.lastObservationStatus == (if observed.Some? then observed else t.lastObservationStatus))
  }

  lemma CompletionOf(t: Task, c: CycleId, nextDueAt: Option<Time>, completedAt: Option<Time>,
                     digest: Option<string>, observed: Option<string>, now: Time)
    requires TaskOk(t)
    ensures var (u, reply) := Apply(t, Op.Complete(c, nextDueAt, completedAt, digest, observed), now);
            AsCompleted(t, c, nextDueAt, completedAt, digest, observed, now, u, reply)
  {
    if t.activeCycleId == Some(c) {
      assert IsActive(t.status);
    }
  }

  /** A completion is accepted from the holder of the cycle. The task is pending again at the next time
      exactly if there is one, cycles are left and it lies before the expiry; else it is completed. */
  lemma CompletionOutcome(tasks: seq<Task>, i: nat, c: CycleId, nextDueAt: Option<Time>, completedAt: Option<Time>,
                          digest: Option<string>, observed: Option<string>, now: Time)
    requires StoreOk(tasks) && i < |tasks|
    ensures var t := tasks[i];
            var (next, reply) := Handle(tasks, Mutate(t.id, Op.Complete(c, nextDueAt, completedAt, digest, observed), now));
            && i < |next| && Becomes(tasks, next, i, next[i])
            && AsCompleted(t, c, nextDueAt, completedAt, digest, observed, now, next[i], reply)
  {
    Reached(tasks, i, Op.Complete(c, nextDueAt, completedAt, digest, observed), now);
    CompletionOf(tasks[i], c, nextDueAt, completedAt, digest, observed, now);
  }

  predicate AsFailed(t: Task, c: CycleId, errorCode: string, retryAt: Option<Time>, terminal: bool, now: Time,
                     u: Task, reply: Reply) {
    && (reply == Refused <==> t.activeCycleId != Some(c))
    && (reply == Done <==> t.activeCycleId == Some(c) && 1 <= |errorCode| <= 128)
    && (reply != Done ==> u == t && (reply == Refused || reply == Unstorable))
    && (reply == Done ==>
          && PendingOrEnded(t, u, !terminal && GoesOn(t, retryAt), retryAt, Failed, now)
          && SameFindings(t, u) && u.lastErrorCode == Some(errorCode)
          && u.consecutiveFailures == (if t.consecutiveFailures < 50 then t.consecutiveFailures + 1 else 50))
  }

  lemma FailureOf(t: Task, c: CycleId, errorCode: string, retryAt: Option<Time>, terminal: bool, now: Time)
    requires TaskOk(t)
    ensures var (u, reply) := Apply(t, Op.Fail(c, errorCode, retryAt, terminal), now);
            AsFailed(t, c, errorCode, retryAt, terminal, now, u, reply)
  {
  }

  /** A failure likewise: pending again unless it is terminal, with one more failure counted. */
  lemma FailureOutcome(tasks: seq<Task>, i: nat, c: CycleId, errorCode: string, retryAt: Option<Time>, terminal: bool, now: Time)
    requires StoreOk(tasks) && i < |tasks|
    ensures var t := tasks[i];
            var (next, reply) := Handle(tasks, Mutate(t.id, Op.Fail(c, errorCode, retryAt, terminal), now));
            && i < |next| && Becomes(tasks, next, i, next[i])
            && AsFailed(t, c, errorCode, retryAt, terminal, now, next[i], reply)
  {
    Reached(tasks, i, Op.Fail(c, errorCode, retryAt, terminal), now);
    FailureOf(tasks[i], c, errorCode, retryAt, terminal, now);
  }

  /** A reclaim always leaves the task pending at the given time. */
  lemma ReclaimOutcome(tasks: seq<Task>, i: nat, c: CycleId, dueAt: Time, note: Option<string>, now: Time)
    requires StoreOk(tasks) && i < |tasks|
    ensures var t := tasks[i];
            var (next, reply) := Handle(tasks, Mutate(t.id, Op.Reclaim(c, dueAt, note), now));
            && (reply == Ignored <==> t.activeCycleId != Some(c))
            && (reply == Done <==> t.activeCycleId == Some(c) && !TooLong(note, 128) && note != Some([]))
            && (reply != Done ==> next == tasks && (reply == Ignored || reply == Unstorable))
            && (reply == Done ==>
                  && i < |next| && Becomes(tasks, next, i, next[i])
                  && PendingOrEnded(t, next[i], true, Some(dueAt), Failed, now)
                  && SameFindings(t, next[i]) && next[i].lastErrorCode == note
                  && next[i].consecutiveFailures == t.consecutiveFailures)
  {
    IndexOfUnique(tasks, i);
  }

  predicate AsSettled(t: Task, c: CycleId, nextDueAt: Option<Time>, completedAt: Option<Time>, digest: Option<string>,
                      now: Time, u: Task, reply: Reply) {
    && (reply == Ignored <==> t.activeCycleId != Some(c))
    && (reply == Done <==> t.activeCycleId == Some(c) && !TooLong(digest, 256))
    && (reply != Done ==> u == t && (reply == Ignored || reply == Unstorable))
    && (reply == Done ==>
          && PendingOrEnded(t, u, GoesOn(t, nextDueAt), nextDueAt, Completed, now)
          && u.lastCompletedAt == Some(if completedAt.Some? then completedAt.value else now)
          && u.lastObservationDigest == digest && u.lastObservationStatus == t.lastObservationStatus
          && u.consecutiveFailures == t.consecutiveFailures
          && u.lastErrorCode == (if GoesOn(t, nextDueAt) then t.lastErrorCode else None))
  }

  lemma SettledCompletionOf(t: Task, c: CycleId, nextDueAt: Option<Time>, completedAt: Option<Time>,
                            digest: Option<string>, now: Time)
    requires TaskOk(t)
    ensures var (u, reply) := Apply(t, Op.SettleComplete(c, nextDueAt, completedAt, digest), now);
            AsSettled(t, c, nextDueAt, completedAt, digest, now, u, reply)
  {
  }

  /** A completion found by recovery leaves the task as a completion by the holder would. */
  lemma SettledCompletionOutcome(tasks: seq<Task>, i: nat, c: CycleId, nextDueAt: Option<Time>, completedAt: Option<Time>,
                                 digest: Option<string>, now: Time)
    requires StoreOk(tasks) && i < |tasks|
    ensures var t := tasks[i];
            var (next, reply) := Handle(tasks, Mutate(t.id, Op.SettleComplete(c, nextDueAt, completedAt, digest), now));
            && i < |next| && Becomes(tasks, next, i, next[i])
            && AsSettled(t, c, nextDueAt, completedAt, digest, now, next[i], reply)
  {
    Reached(tasks, i, Op.SettleComplete(c, nextDueAt, completedAt, digest), now);
    SettledCompletionOf(tasks[i], c, nextDueAt, completedAt, digest, now);
  }

  /** A failure found by recovery asks neither for cycles left nor for the expiry. */
  lemma SettledFailureOutcome(tasks: seq<Task>, i: nat, c: CycleId, errorCode: string, retryAt: Option<Time>, terminal: bool, now: Time)
    requires StoreOk(tasks) && i < |tasks|
    ensures var t := tasks[i];
            var (next, reply) := Handle(tasks, Mutate(t.id, Op.SettleFail(c, errorCode, retryAt, terminal), now));
            && (reply == Ignored <==> t.activeCycleId != Some(c))
            && (reply == Done <==> t.activeCycleId == Some(c) && 1 <= |errorCode| <= 128)
            && (reply != Done ==> next == tasks && (reply == Ignored || reply == Unstorable))
            && (reply == Done ==>
                  && i < |next| && Becomes(tasks, next, i, next[i])
                  && PendingOrEnded(t, next[i], !terminal && retryAt.Some?, retryAt, Failed, now)
                  && SameFindings(t, next[i]) && next[i].lastErrorCode == Some(errorCode)
                  && next[i].consecutiveFailures == t.consecutiveFailures)
  {
    IndexOfUnique(tasks, i);
  }

  /** Cancelling is for the owner, in the task's session, and for a task that has not ended. */
  lemma CancellationOutcome(tasks: seq<Task>, i: nat, sessionId: string, aliases: set<string>, now: Time)
    requires StoreOk(tasks) && i < |tasks|
    ensures var t := tasks[i];
            var (next, reply) := Handle(tasks, Mutate(t.id, Op.Cancel(sessionId, aliases), now));
            var owned := t.owner.principalId in aliases && t.owner.sessionId == sessionId;
            var open := t.status == Pending || t.status == Claimed || t.status == Running;
            && (reply == Refused <==> !owned) && (reply == Ignored <==> owned && !open) && (reply == Done <==> owned && open)
            && (reply != Done ==> next == tasks)
            && (reply == Done ==>
                  && i < |next| && Becomes(tasks, next, i, next[i])
                  && PendingOrEnded(t, next[i], false, None, Cancelled, now) && SameFindings(t, next[i])
                  && next[i].lastErrorCode == Some("cancelled") && next[i].consecutiveFailures == t.consecutiveFailures)
  {
    IndexOfUnique(tasks, i);
  }

  lemma ExpiryOutcome(tasks: seq<Task>, i: nat, note: Option<string>, now: Time)
    requires StoreOk(tasks) && i < |tasks|
    ensures var t := tasks[i];
            var (next, reply) := Handle(tasks, Mutate(t.id, Op.Expire(note), now));
            && (reply == Done <==> !TooLong(note, 128) && note != Some([]))
            && (reply != Done ==> next == tasks && reply == Unstorable)
            && (reply == Done ==>
                  && i < |next| && Becomes(tasks, next, i, next[i])
                  && PendingOrEnded(t, next[i], false, None, Expired, now) && SameFindings(t, next[i])
                  && next[i].lastErrorCode == Some(if note.Some? then note.value else "expired")
                  && next[i].consecutiveFailures == t.consecutiveFailures)
  {
    IndexOfUnique(tasks, i);
  }

  // ---- claims ----

  /** Whether a claim may go ahead: in the version asked for, and due. */
  predicate Claimable(t: Task, expected: Option<Time>, now: Time) {
    (expected == None || expected == Some(t.updatedAt)) && t.status == Pending && t.dueAt <= now
  }

  predicate PastExpiry(t: Task, now: Time) {
    t.expiresAt.Some? && t.expiresAt.value <= now
  }

  /** A claim is granted exactly for a due pending task in the version asked for that has neither
      expired nor used up its cycles; its lease runs two minutes from now. */
  lemma ClaimGranted(tasks: seq<Task>, i: nat, expected: Option<Time>, instance: string, now: Time)
    requires StoreOk(tasks) && i < |tasks|
    ensures var t := tasks[i];
            var (next, reply) := Handle(tasks, Mutate(t.id, Op.Claim(expected, instance), now));
            && (reply.Issued? <==> Claimable(t, expected, now) && !PastExpiry(t, now) && t.cycleCount < t.maxCycles && t.cycleCount < 50)
            && (reply.Issued? ==>
                  && i < |next| && Becomes(tasks, next, i, next[i])
                  && reply == Issued(MakeCycleId(t.id, t.cycleCount + 1))
                  && next[i] == t.(cycleCount := t.cycleCount + 1, status := Claimed, activeCycleId := Some(reply.cycleId),
                                   claimOwner := Some(instance), leaseExpiresAt := Some(now + 120000), updatedAt := now))
  {
    IndexOfUnique(tasks, i);
  }

  /** A claim that is not granted says why, in this order, and retires only what is too late or used up. */
  lemma ClaimRefused(tasks: seq<Task>, i: nat, expected: Option<Time>, instance: string, now: Time)
    requires StoreOk(tasks) && i < |tasks|
    ensures var t := tasks[i];
            var (next, reply) := Handle(tasks, Mutate(t.id, Op.Claim(expected, instance), now));
            var stale := expected.Some? && expected.value != t.updatedAt;
            && (reply == NotClaimed(StaleUpdate) <==> stale)
            && (reply == NotClaimed(NotPending) <==> !stale && t.status != Pending)
            && (reply == NotClaimed(NotDue) <==> !stale && t.status == Pending && now < t.dueAt)
            && (reply == NotClaimed(LateExpired) <==> Claimable(t, expected, now) && PastExpiry(t, now))
            && (reply == NotClaimed(CycleLimit) <==>
                  Claimable(t, expected, now) && !PastExpiry(t, now) && (t.cycleCount >= t.maxCycles || t.cycleCount >= 50))
            && (reply == NotClaimed(StaleUpdate) || reply == NotClaimed(NotPending) || reply == NotClaimed(NotDue) ==> next == tasks)
            && (reply == NotClaimed(LateExpired) || reply == NotClaimed(CycleLimit) ==>
                  && i < |next| && Becomes(tasks, next, i, next[i])
                  && PendingOrEnded(t, next[i], false, None, Expired, now) && SameFindings(t, next[i])
                  && next[i].consecutiveFailures == t.consecutiveFailures
                  && next[i].lastErrorCode == Some(if reply == NotClaimed(LateExpired) then "expired" else "cycle_limit"))
  {
    IndexOfUnique(tasks, i);
  }

  /** Only the instance that holds the cycle marks it running or renews its lease. */
  lemma HolderOutcome(tasks: seq<Task>, i: nat, c: CycleId, runId: Option<string>, instance: string, now: Time)
    requires StoreOk(tasks) && i < |tasks|
    ensures var t := tasks[i];
            var (started, reply) := Handle(tasks, Mutate(t.id, Op.MarkRunning(c, runId, instance), now));
            var (renewed, answer) := Handle(tasks, Mutate(t.id, Op.RenewLease(c, instance), now));
            var holds := t.activeCycleId == Some(c) && t.claimOwner == Some(instance);
            && (reply == Refused <==> !holds) && (reply == Done <==> holds && !TooLong(runId, 256) && runId != Some([]))
            && (reply != Done ==> started == tasks)
            && (reply == Done ==>
                  && i < |started| && Becomes(tasks, started, i, started[i])
                  && started[i] == t.(status := Running, activeRunId := if runId.Some? then runId else t.activeRunId,
                                      lastStartedAt := if t.lastStartedAt.Some? then t.lastStartedAt else Some(now), updatedAt := now))
            && (answer == Refused <==> !holds) && (answer == Done <==> holds) && (answer != Done ==> renewed == tasks)
            && (answer == Done ==>
                  && i < |renewed| && Becomes(tasks, renewed, i, renewed[i])
                  && renewed[i] == t.(leaseExpiresAt := Some(now + 120000), updatedAt := now))
  {
    IndexOfUnique(tasks, i);
  }

  lemma NudgeOutcome(tasks: seq<Task>, i: nat, dueAt: Time, now: Time)
    requires StoreOk(tasks) && i < |tasks|
    ensures var t := tasks[i];
            var (next, reply) := Handle(tasks, Mutate(t.id, Op.Nudge(dueAt), now));
            && (reply == Done <==> t.status == Pending) && (reply == Ignored <==> t.status != Pending)
            && (reply != Done ==> next == tasks)
            && (reply == Done ==>
                  i < |next| && Becomes(tasks, next, i, next[i]) && next[i] == t.(dueAt := dueAt, updatedAt := now))
  {
    IndexOfUnique(tasks, i);
  }

  /** A task that is not there is refused where the caller must know it, and ignored elsewhere. */
  lemma UnknownOutcome(tasks: seq<Task>, id: TaskId, op: Op, now: Time)
    requires forall i :: 0 <= i < |tasks| ==> tasks[i].id != id
    ensures var (next, reply) := Handle(tasks, Mutate(id, op, now));
            && next == tasks
            && (op.Claim? ==> reply == NotClaimed(NotFound))
            && (op.MarkRunning? || op.RenewLease? || op.Complete? || op.Fail? || op.Cancel? ==> reply == Refused)
            && (op.Nudge? || op.Reclaim? || op.SettleComplete? || op.SettleFail? || op.Expire? ==> reply == Ignored)
  {
  }

  /** A task as it is created is taken unless its id is known. */
  lemma CreationOutcome(tasks: seq<Task>, t: Task)
    requires |t.id| == 36 && ':' !in t.id && t.status == Pending && 1 <= t.maxCycles <= 50
    requires t.cycleCount == 0 && t.consecutiveFailures == 0 && HoldsNothing(t)
    requires t.lastErrorCode == None && t.lastObservationDigest == None
    ensures var (next, reply) := Handle(tasks, Request.Create(t));
            if forall i :: 0 <= i < |tasks| ==> tasks[i].id != t.id then reply == Done && next == tasks + [t]
            else reply == Refused && next == tasks
  {
  }

  /** Whatever is asked of it, the store keeps only tasks that its schema allows: an active one has its
      cycle, its owner and its lease, one that ended has none of them, and the counts stay in range. */
  lemma StoredAsTheSchemaAllows(tasks: seq<Task>, r: Request, i: nat)
    requires StoreOk(tasks) && i < |Handle(tasks, r).0|
    ensures var t := Handle(tasks, r).0[i];
            && (t.status == Claimed || t.status == Running <==> t.activeCycleId.Some?)
            && (t.status == Claimed || t.status == Running ==> t.claimOwner.Some? && t.leaseExpiresAt.Some?)
            && (t.status != Claimed && t.status != Running ==> HoldsNothing(t))
            && 1 <= t.maxCycles <= 50 && t.cycleCount <= t.maxCycles && t.consecutiveFailures <= 50
            && !TooLong(t.activeRunId, 256) && !TooLong(t.lastErrorCode, 128) && !TooLong(t.lastObservationDigest, 256)
            && t.activeRunId != Some([]) && t.lastErrorCode != Some([])
  {
    HandleKeeps(tasks, r);
    assert TaskOk(Handle(tasks, r).0[i]);
  }
}
