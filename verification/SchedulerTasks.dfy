/** Scheduled tasks: the seven-state task machine whose cycle ids act as fencing tokens. */
module SchedulerTasks {
  import opened Decimals
  import opened Options

  type TaskId = string
  type CycleId = string
  type Time = int

  const MAX_CYCLES := 50
  const CLAIM_LEASE_MS := 120_000

  datatype Status = Pending | Claimed | Running | Completed | Failed | Cancelled | Expired

  datatype Kind = Reminder | WakeTurn | Watch | EventSubscription

  datatype Owner = Owner(sessionId: string, principalId: string)

  datatype Task = Task(
    id: TaskId, kind: Kind, owner: Owner, status: Status, dueAt: Time, updatedAt: Time, expiresAt: Option<Time>,
    maxCycles: nat, cycleCount: nat, consecutiveFailures: nat,
    activeCycleId: Option<CycleId>, activeRunId: Option<string>, claimOwner: Option<string>, leaseExpiresAt: Option<Time>,
    lastStartedAt: Option<Time>, lastCompletedAt: Option<Time>, lastErrorCode: Option<string>,
    lastObservationDigest: Option<string>, lastObservationStatus: Option<string>)

  predicate IsActive(status: Status) { status.Claimed? || status.Running? }

  predicate IsTerminal(status: Status) { status.Completed? || status.Failed? || status.Cancelled? || status.Expired? }

  // ---- cycle ids ----

  function MakeCycleId(id: TaskId, n: nat): CycleId {
    id + ":" + Decimal(n)
  }

  /** Task ids are UUIDs; what matters here is that they hold no colon. */
  predicate IsUuid(id: TaskId) {
    |id| == 36 && ':' !in id
  }

  // ---- what the snapshot schema refuses to store ----

  predicate Fits(text: Option<string>, min: nat, max: nat) {
    text.Some? ==> min <= |text.value| <= max
  }

  predicate Storable(t: Task) {
    && (IsActive(t.status) ==> t.activeCycleId.Some? && t.claimOwner.Some? && t.leaseExpiresAt.Some?)
    && (IsTerminal(t.status) ==>
          t.activeCycleId.None? && t.activeRunId.None? && t.claimOwner.None? && t.leaseExpiresAt.None?)
    && 1 <= t.maxCycles <= MAX_CYCLES && t.cycleCount <= MAX_CYCLES && t.consecutiveFailures <= MAX_CYCLES
    && Fits(t.activeRunId, 1, 256) && Fits(t.lastErrorCode, 1, 128) && Fits(t.lastObservationDigest, 0, 256)
  }

  // ---- operations on one task ----

  datatype Reason = NotFound | StaleUpdate | NotPending | NotDue | LateExpired | CycleLimit

  datatype Reply =
    | Issued(cycleId: CycleId)
    | NotClaimed(reason: Reason)
    | Done
    | Ignored
    | Refused
    | Unstorable

  datatype Op =
    | Nudge(dueAt: Time)
    | Claim(expectedUpdatedAt: Option<Time>, instance: string)
    | MarkRunning(cycleId: CycleId, runId: Option<string>, instance: string)
    | RenewLease(cycleId: CycleId, instance: string)
    | Complete(cycleId: CycleId, nextDueAt: Option<Time>, completedAt: Option<Time>,
               digest: Option<string>, observed: Option<string>)
    | Fail(cycleId: CycleId, errorCode: string, retryAt: Option<Time>, terminal: bool)
    | Cancel(sessionId: string, aliases: set<string>)
    | Reclaim(cycleId: CycleId, dueAt: Time, note: Option<string>)
    | SettleComplete(cycleId: CycleId, nextDueAt: Option<Time>, completedAt: Option<Time>, digest: Option<string>)
    | SettleFail(cycleId: CycleId, errorCode: string, retryAt: Option<Time>, terminal: bool)
    | Expire(note: Option<string>)

  function ClearActive(t: Task): Task {
    t.(activeCycleId := None, activeRunId := None, claimOwner := None, leaseExpiresAt := None)
  }

  function ToTerminal(t: Task, status: Status, now: Time, errorCode: Option<string>): Task {
    ClearActive(t).(status := status, lastErrorCode := errorCode, updatedAt := now)
  }

  function ToPending(t: Task, dueAt: Time, now: Time): Task {
    ClearActive(t).(status := Pending, dueAt := dueAt, updatedAt := now)
  }

  function Or<T>(o: Option<T>, other: T): T {
    if o.Some? then o.value else other
  }

  function Min(a: int, b: int): int {
    if a < b then a else b
  }

  /** No later cycle: none was asked for, the budget is spent, or it would start at or after expiry. */
  predicate LastCycle(t: Task, nextDueAt: Option<Time>) {
    nextDueAt.None? || t.cycleCount >= t.maxCycles || (t.expiresAt.Some? && nextDueAt.value >= t.expiresAt.value)
  }

  predicate HoldsCycle(t: Task, cycleId: CycleId) {
    t.activeCycleId == Some(cycleId) && IsActive(t.status)
  }

  function ClaimTask(t: Task, expected: Option<Time>, instance: string, now: Time): (Task, Reply) {
    if expected.Some? && t.updatedAt != expected.value then (t, NotClaimed(StaleUpdate))
    else if !t.status.Pending? then (t, NotClaimed(NotPending))
    else if t.dueAt > now then (t, NotClaimed(NotDue))
    else if t.expiresAt.Some? && t.expiresAt.value <= now then
      (ToTerminal(t, Expired, now, Some("expired")), NotClaimed(LateExpired))
    else if t.cycleCount >= Min(t.maxCycles, MAX_CYCLES) then
      (ToTerminal(t, Expired, now, Some("cycle_limit")), NotClaimed(CycleLimit))
    else
      var cycleId := MakeCycleId(t.id, t.cycleCount + 1);
      (t.(cycleCount := t.cycleCount + 1, activeCycleId := Some(cycleId), activeRunId := None,
          claimOwner := Some(instance), leaseExpiresAt := Some(now + CLAIM_LEASE_MS), status := Claimed, updatedAt := now),
       Issued(cycleId))
  }

  /** What an operation makes of the task, before the schema has its say. */
  function Draft(t: Task, op: Op, now: Time): (Task, Reply) {
    match op
    case Nudge(dueAt) => if t.status.Pending? then (t.(dueAt := dueAt, updatedAt := now), Done) else (t, Ignored)
    case Claim(expected, instance) => ClaimTask(t, expected, instance, now)
    case MarkRunning(cycleId, runId, instance) =>
      if !HoldsCycle(t, cycleId) || t.claimOwner != Some(instance) then (t, Refused)
      else (t.(status := Running, activeRunId := if runId.Some? then runId else t.activeRunId,
               lastStartedAt := Some(Or(t.lastStartedAt, now)), updatedAt := now), Done)
    case RenewLease(cycleId, instance) =>
      if !HoldsCycle(t, cycleId) || t.claimOwner != Some(instance) then (t, Refused)
      else (t.(leaseExpiresAt := Some(now + CLAIM_LEASE_MS), updatedAt := now), Done)
    case Complete(cycleId, nextDueAt, completedAt, digest, observed) =>
      if !HoldsCycle(t, cycleId) then (t, Refused)
      else
        var at := Or(completedAt, now);
        var u := t.(consecutiveFailures := 0, lastCompletedAt := Some(at), lastObservationDigest := digest,
                    lastObservationStatus := if observed.Some? then observed else t.lastObservationStatus,
                    lastErrorCode := None);
        (if LastCycle(u, nextDueAt) then ToTerminal(u, Completed, at, None) else ToPending(u, nextDueAt.value, at), Done)
    case Fail(cycleId, errorCode, retryAt, terminal) =>
      if !HoldsCycle(t, cycleId) then (t, Refused)
      else
        var u := t.(consecutiveFailures := Min(t.consecutiveFailures + 1, MAX_CYCLES), lastErrorCode := Some(errorCode));
        (if terminal || LastCycle(u, retryAt) then ToTerminal(u, Failed, now, Some(errorCode))
         else ToPending(u, retryAt.value, now), Done)
    case Cancel(sessionId, aliases) =>
      if t.owner.principalId !in aliases || t.owner.sessionId != sessionId then (t, Refused)
      else if IsTerminal(t.status) then (t, Ignored)
      else (ToTerminal(t, Cancelled, now, Some("cancelled")), Done)
    case Reclaim(cycleId, dueAt, note) =>
      if t.activeCycleId != Some(cycleId) then (t, Ignored)
      else (ToPending(t.(lastErrorCode := note), dueAt, now), Done)
    case SettleComplete(cycleId, nextDueAt, completedAt, digest) =>
      if t.activeCycleId != Some(cycleId) then (t, Ignored)
      else
        var u := t.(lastCompletedAt := Some(Or(completedAt, now)), lastObservationDigest := digest);
        (if LastCycle(u, nextDueAt) then ToTerminal(u, Completed, now, None) else ToPending(u, nextDueAt.value, now), Done)
    case SettleFail(cycleId, errorCode, retryAt, terminal) =>
      if t.activeCycleId != Some(cycleId) then (t, Ignored)
      else
        var u := t.(lastErrorCode := Some(errorCode));
        (if terminal || retryAt.None? then ToTerminal(u, Failed, now, Some(errorCode)) else ToPending(u, retryAt.value, now), Done)
    case Expire(note) => (ToTerminal(t, Expired, now, Some(Or(note, "expired"))), Done)
  }

  /** One mutation: the snapshot is written only if it still validates. */
  function Apply(t: Task, op: Op, now: Time): (Task, Reply) {
    var (u, reply) := Draft(t, op, now);
    if Storable(u) then (u, reply) else (t, Unstorable)
  }

  // ---- operations on the store ----

  datatype Request =
    | Create(task: Task)
    | Mutate(id: TaskId, op: Op, now: Time)

  function IndexOf(tasks: seq<Task>, id: TaskId): (i: nat)
    ensures i <= |tasks| && (i < |tasks| ==> tasks[i].id == id)
    ensures forall j :: 0 <= j < i ==> tasks[j].id != id
  {
    if tasks == [] || tasks[0].id == id then 0 else 1 + IndexOf(tasks[1..], id)
  }

  function MissingReply(op: Op): Reply {
    match op
    case Claim(_, _) => NotClaimed(NotFound)
    case MarkRunning(_, _, _) => Refused
    case Complete(_, _, _, _, _) => Refused
    case Fail(_, _, _, _) => Refused
    case Cancel(_, _) => Refused
    case RenewLease(_, _) => Refused
    case _ => Ignored
  }

  predicate IsNew(t: Task) {
    && IsUuid(t.id) && t.status.Pending? && t.cycleCount == 0 && t.consecutiveFailures == 0
    && 1 <= t.maxCycles <= MAX_CYCLES
    && t.activeCycleId.None? && t.activeRunId.None? && t.claimOwner.None? && t.leaseExpiresAt.None?
    && t.lastErrorCode.None? && t.lastObservationDigest.None?
  }

  function Handle(tasks: seq<Task>, r: Request): (seq<Task>, Reply) {
    match r
    case Create(t) =>
      // the id is a fresh random UUID
      if IsNew(t) && IndexOf(tasks, t.id) == |tasks| then (tasks + [t], Done) else (tasks, Refused)
    case Mutate(id, op, now) =>
      var i := IndexOf(tasks, id);
      if i == |tasks| then (tasks, MissingReply(op))
      else
        var (t, reply) := Apply(tasks[i], op, now);
        (tasks[i := t], reply)
  }

  // ---- the invariant ----

  function Cap(t: Task): nat { if t.maxCycles < MAX_CYCLES then t.maxCycles else MAX_CYCLES }

  /** Active status iff a cycle id is set, and then it is the id of the cycle counted last. */
  ghost predicate TaskOk(t: Task) {
    && IsUuid(t.id) && Storable(t)
    && (IsActive(t.status) <==> t.activeCycleId.Some?)
    && (t.activeCycleId.Some? ==> t.activeCycleId.value == MakeCycleId(t.id, t.cycleCount) && t.cycleCount >= 1)
    && (!IsActive(t.status) ==> t.activeRunId.None? && t.claimOwner.None? && t.leaseExpiresAt.None?)
    && t.cycleCount <= Cap(t)
  }

  ghost predicate StoreOk(tasks: seq<Task>) {
    && (forall i :: 0 <= i < |tasks| ==> TaskOk(tasks[i]))
    && (forall i, j :: 0 <= i < j < |tasks| ==> tasks[i].id != tasks[j].id)
  }

  predicate Opening(op: Op) {
    op.Nudge? || op.Claim? || op.MarkRunning? || op.RenewLease?
  }

  ghost predicate Succeeds(t: Task, u: Task) {
    TaskOk(u) && u.id == t.id && u.owner == t.owner && u.maxCycles == t.maxCycles && t.cycleCount <= u.cycleCount
  }

  lemma OpeningKeeps(t: Task, op: Op, now: Time)
    requires TaskOk(t) && Opening(op)
    ensures Succeeds(t, Apply(t, op, now).0)
  {
  }

  lemma ClosingKeeps(t: Task, op: Op, now: Time)
    requires TaskOk(t) && !Opening(op) && !ByHolder(op)
    ensures Succeeds(t, Apply(t, op, now).0)
  {
  }

  predicate ByHolder(op: Op) {
    op.Complete? || op.Fail?
  }

  lemma ByHolderKeeps(t: Task, op: Op, now: Time)
    requires TaskOk(t) && ByHolder(op)
    ensures Succeeds(t, Apply(t, op, now).0)
  {
  }

  lemma ApplyKeeps(t: Task, op: Op, now: Time)
    requires TaskOk(t)
    ensures Succeeds(t, Apply(t, op, now).0)
  {
    if Opening(op) {
      OpeningKeeps(t, op, now);
    } else if ByHolder(op) {
      ByHolderKeeps(t, op, now);
    } else {
      ClosingKeeps(t, op, now);
    }
  }

  lemma {:induction false} IndexOfUnique(tasks: seq<Task>, i: nat)
    requires i < |tasks| && forall j, k :: 0 <= j < k < |tasks| ==> tasks[j].id != tasks[k].id
    ensures IndexOf(tasks, tasks[i].id) == i
  {
  }

  lemma HandleKeeps(tasks: seq<Task>, r: Request)
    requires StoreOk(tasks)
    ensures StoreOk(Handle(tasks, r).0)
  {
    if r.Mutate? {
      var i := IndexOf(tasks, r.id);
      if i < |tasks| {
        ApplyKeeps(tasks[i], r.op, r.now);
      }
    }
  }

  // ---- runs ----

  datatype Entry = Entry(request: Request, reply: Reply)

  function Final(tasks: seq<Task>, rs: seq<Request>): seq<Task>
    decreases |rs|
  {
    if rs == [] then tasks else Final(Handle(tasks, rs[0]).0, rs[1..])
  }

  function History(tasks: seq<Task>, rs: seq<Request>): (h: seq<Entry>)
    ensures |h| == |rs|
    decreases |rs|
  {
    if rs == [] then [] else
    var (next, reply) := Handle(tasks, rs[0]);
    [Entry(rs[0], reply)] + History(next, rs[1..])
  }

  lemma {:induction false} FinalOk(tasks: seq<Task>, rs: seq<Request>)
    requires StoreOk(tasks)
    ensures StoreOk(Final(tasks, rs))
    decreases |rs|
  {
    if rs != [] {
      HandleKeeps(tasks, rs[0]);
      FinalOk(Handle(tasks, rs[0]).0, rs[1..]);
    }
  }

  lemma {:induction false} FinalAppend(tasks: seq<Task>, rs: seq<Request>, more: seq<Request>)
    ensures Final(tasks, rs + more) == Final(Final(tasks, rs), more)
    decreases |rs|
  {
    if rs == [] {
      assert rs + more == more;
    } else {
      assert (rs + more)[1..] == rs[1..] + more;
      FinalAppend(Handle(tasks, rs[0]).0, rs[1..], more);
    }
  }

  /** What happens first and what happens then. */
  lemma {:induction false} HistoryAppend(tasks: seq<Task>, rs: seq<Request>, more: seq<Request>)
    ensures History(tasks, rs + more) == History(tasks, rs) + History(Final(tasks, rs), more)
    decreases |rs|
  {
    if rs == [] {
      assert rs + more == more;
    } else {
      var (next, reply) := Handle(tasks, rs[0]);
      assert (rs + more)[1..] == rs[1..] + more;
      HistoryAppend(next, rs[1..], more);
      var first, then_ := History(next, rs[1..]), History(Final(tasks, rs), more);
      assert [Entry(rs[0], reply)] + (first + then_) == ([Entry(rs[0], reply)] + first) + then_;
    }
  }

  lemma HistorySnoc(tasks: seq<Task>, rs: seq<Request>, r: Request)
    ensures Final(tasks, rs + [r]) == Handle(Final(tasks, rs), r).0
    ensures History(tasks, rs + [r]) == History(tasks, rs) + [Entry(r, Handle(Final(tasks, rs), r).1)]
  {
    FinalAppend(tasks, rs, [r]);
    HistoryAppend(tasks, rs, [r]);
    assert [r][1..] == [];
  }

  // ---- cycle ids are unforgeable: equal ids mean the same task and the same cycle ----

  lemma CycleIdInjective(a: TaskId, m: nat, b: TaskId, n: nat)
    requires IsUuid(a) && IsUuid(b) && MakeCycleId(a, m) == MakeCycleId(b, n)
    ensures a == b && m == n
  {
    var s := MakeCycleId(a, m);
    assert a == s[..36] == b;
    assert Decimal(m) == s[37..] == Decimal(n);
    DecimalInjective(m, n);
  }

  // ---- fencing ----

  /** The cycle id an operation presents. */
  function Carried(op: Op): Option<CycleId> {
    match op
    case MarkRunning(c, _, _) => Some(c)
    case RenewLease(c, _) => Some(c)
    case Complete(c, _, _, _, _) => Some(c)
    case Fail(c, _, _, _) => Some(c)
    case Reclaim(c, _, _) => Some(c)
    case SettleComplete(c, _, _, _) => Some(c)
    case SettleFail(c, _, _, _) => Some(c)
    case _ => None
  }

  predicate Finishing(op: Op) {
    op.Complete? || op.Fail? || op.SettleComplete? || op.SettleFail?
  }

  /** The cycle is some task's current one. */
  ghost predicate Held(tasks: seq<Task>, c: CycleId) {
    exists i :: 0 <= i < |tasks| && tasks[i].activeCycleId == Some(c)
  }

  /** The task has counted the cycle already, so no later claim can issue it. */
  ghost predicate Counted(tasks: seq<Task>, id: TaskId, n: nat) {
    exists i :: 0 <= i < |tasks| && tasks[i].id == id && tasks[i].cycleCount >= n
  }

  /** Counted and no longer held: the cycle is over for good. */
  ghost predicate Spent(tasks: seq<Task>, id: TaskId, n: nat) {
    IsUuid(id) && Counted(tasks, id, n) && !Held(tasks, MakeCycleId(id, n))
  }

  lemma HeldIsCounted(tasks: seq<Task>, c: CycleId) returns (id: TaskId, n: nat)
    requires StoreOk(tasks) && Held(tasks, c)
    ensures IsUuid(id) && n >= 1 && c == MakeCycleId(id, n) && Counted(tasks, id, n)
  {
    var i :| 0 <= i < |tasks| && tasks[i].activeCycleId == Some(c);
    id, n := tasks[i].id, tasks[i].cycleCount;
  }

  lemma CountedStays(tasks: seq<Task>, r: Request, id: TaskId, n: nat)
    requires StoreOk(tasks) && Counted(tasks, id, n)
    ensures Counted(Handle(tasks, r).0, id, n)
  {
    var i :| 0 <= i < |tasks| && tasks[i].id == id && tasks[i].cycleCount >= n;
    if r.Mutate? && IndexOf(tasks, r.id) < |tasks| {
      ApplyKeeps(tasks[IndexOf(tasks, r.id)], r.op, r.now);
    }
    var next := Handle(tasks, r).0;
    assert next[i].id == id && next[i].cycleCount >= n;
  }

  /** The task by which a cycle became current. */
  lemma Gainer(tasks: seq<Task>, r: Request, c: CycleId) returns (i: nat)
    requires !Held(tasks, c) && Held(Handle(tasks, r).0, c)
    ensures r.Mutate? && i < |tasks| && i == IndexOf(tasks, r.id) && tasks[i].activeCycleId != Some(c)
    ensures Apply(tasks[i], r.op, r.now).0.activeCycleId == Some(c) && Handle(tasks, r).1 == Apply(tasks[i], r.op, r.now).1
  {
    var next := Handle(tasks, r).0;
    i :| 0 <= i < |next| && next[i].activeCycleId == Some(c);
    assert forall j :: 0 <= j < |tasks| ==> tasks[j].activeCycleId != Some(c);
  }

  /** A cycle becomes current only by the claim that issues it, and then it was not counted before. */
  lemma HeldByClaimOnly(tasks: seq<Task>, r: Request, id: TaskId, n: nat)
    requires StoreOk(tasks) && IsUuid(id) && !Held(tasks, MakeCycleId(id, n)) && Held(Handle(tasks, r).0, MakeCycleId(id, n))
    ensures Handle(tasks, r).1 == Issued(MakeCycleId(id, n)) && !Counted(tasks, id, n)
  {
    var c := MakeCycleId(id, n);
    var i := Gainer(tasks, r, c);
    GainedByClaim(tasks[i], r.op, r.now, c);
    CycleIdInjective(id, n, tasks[i].id, tasks[i].cycleCount + 1);
    OnlyOneCounts(tasks, i, n);
  }

  lemma OnlyOneCounts(tasks: seq<Task>, i: nat, n: nat)
    requires StoreOk(tasks) && i < |tasks| && tasks[i].cycleCount < n
    ensures !Counted(tasks, tasks[i].id, n)
  {
  }

  lemma GainedByClaim(t: Task, op: Op, now: Time, c: CycleId)
    requires t.activeCycleId != Some(c) && Apply(t, op, now).0.activeCycleId == Some(c)
    ensures Apply(t, op, now).1 == Issued(c) && c == MakeCycleId(t.id, t.cycleCount + 1)
  {
  }

  lemma IssueCounts(tasks: seq<Task>, r: Request, c: CycleId) returns (id: TaskId, n: nat)
    requires StoreOk(tasks) && Handle(tasks, r).1 == Issued(c)
    ensures IsUuid(id) && c == MakeCycleId(id, n) && !Counted(tasks, id, n)
    ensures Counted(Handle(tasks, r).0, id, n) && Held(Handle(tasks, r).0, c)
  {
    var i := IndexOf(tasks, r.id);
    id, n := tasks[i].id, tasks[i].cycleCount + 1;
    assert Handle(tasks, r).0[i].activeCycleId == Some(c);
    assert Handle(tasks, r).0[i].cycleCount >= n;
  }

  lemma CountedNotIssued(tasks: seq<Task>, r: Request, id: TaskId, n: nat)
    requires StoreOk(tasks) && IsUuid(id) && Counted(tasks, id, n)
    ensures Handle(tasks, r).1 != Issued(MakeCycleId(id, n))
  {
    if Handle(tasks, r).1 == Issued(MakeCycleId(id, n)) {
      var id', n' := IssueCounts(tasks, r, MakeCycleId(id, n));
      CycleIdInjective(id, n, id', n');
    }
  }

  lemma SpentStays(tasks: seq<Task>, r: Request, id: TaskId, n: nat)
    requires StoreOk(tasks) && Spent(tasks, id, n)
    ensures Spent(Handle(tasks, r).0, id, n)
  {
    CountedStays(tasks, r, id, n);
    if Held(Handle(tasks, r).0, MakeCycleId(id, n)) {
      HeldByClaimOnly(tasks, r, id, n);
    }
  }

  predicate TurnedAway(reply: Reply) {
    reply.Refused? || reply.Ignored?
  }

  /** Whatever carries a cycle id nobody holds is turned away and changes nothing. */
  lemma UnheldIsTurnedAway(tasks: seq<Task>, r: Request, c: CycleId)
    requires StoreOk(tasks) && !Held(tasks, c)
    requires r.Mutate? && Carried(r.op) == Some(c)
    ensures TurnedAway(Handle(tasks, r).1) && Handle(tasks, r).0 == tasks
  {
    var i := IndexOf(tasks, r.id);
    if i < |tasks| {
      assert tasks[i].activeCycleId != Some(c);
    }
  }

  lemma OneHolder(tasks: seq<Task>, i: nat, c: CycleId)
    requires StoreOk(tasks) && i < |tasks| && tasks[i].activeCycleId == Some(c)
    ensures forall j :: 0 <= j < |tasks| && j != i ==> tasks[j].activeCycleId != Some(c)
  {
    forall j | 0 <= j < |tasks| && tasks[j].activeCycleId == Some(c) ensures j == i {
      CycleIdInjective(tasks[i].id, tasks[i].cycleCount, tasks[j].id, tasks[j].cycleCount);
    }
  }

  /** An accepted completion, failure or reclaim ends the cycle it carries. */
  lemma AcceptedEndEnds(tasks: seq<Task>, r: Request, c: CycleId)
    requires StoreOk(tasks) && r.Mutate? && Carried(r.op) == Some(c) && (Finishing(r.op) || r.op.Reclaim?)
    requires Handle(tasks, r).1 == Done
    ensures Held(tasks, c) && !Held(Handle(tasks, r).0, c)
  {
    var i := IndexOf(tasks, r.id);
    var next := Handle(tasks, r).0;
    assert tasks[i].activeCycleId == Some(c);
    OneHolder(tasks, i, c);
    assert forall j :: 0 <= j < |next| && j != i ==> next[j] == tasks[j];
  }

  /** So does a cancellation or a forced expiry of the task that holds it. */
  lemma {:induction false} TerminationEnds(tasks: seq<Task>, r: Request, c: CycleId)
    requires StoreOk(tasks) && r.Mutate? && (r.op.Cancel? || r.op.Expire?) && Handle(tasks, r).1 == Done
    requires IndexOf(tasks, r.id) < |tasks| && tasks[IndexOf(tasks, r.id)].activeCycleId == Some(c)
    ensures !Held(Handle(tasks, r).0, c)
  {
    var i := IndexOf(tasks, r.id);
    TerminationClears(tasks[i], r.op, r.now);
    OneHolder(tasks, i, c);
  }

  lemma TerminationClears(t: Task, op: Op, now: Time)
    requires TaskOk(t) && (op.Cancel? || op.Expire?) && Apply(t, op, now).1 == Done
    ensures Apply(t, op, now).0.activeCycleId.None? && IsTerminal(Apply(t, op, now).0.status)
  {
  }

  // ---- fencing over whole runs ----

  lemma HistoryAt(tasks: seq<Task>, rs: seq<Request>, k: nat)
    requires k < |rs|
    ensures k == 0 ==> History(tasks, rs)[k] == Entry(rs[0], Handle(tasks, rs[0]).1)
    ensures k > 0 ==> History(tasks, rs)[k] == History(Handle(tasks, rs[0]).0, rs[1..])[k - 1]
  {
  }

  lemma {:induction false} CountedNeverIssued(tasks: seq<Task>, rs: seq<Request>, id: TaskId, n: nat, k: nat)
    requires StoreOk(tasks) && IsUuid(id) && Counted(tasks, id, n) && k < |rs|
    ensures History(tasks, rs)[k].reply != Issued(MakeCycleId(id, n))
    decreases |rs|
  {
    HistoryAt(tasks, rs, k);
    if k == 0 {
      CountedNotIssued(tasks, rs[0], id, n);
    } else {
      var next := CountedNext(tasks, rs[0], id, n);
      CountedNeverIssued(next, rs[1..], id, n, k - 1);
    }
  }

  lemma CountedNext(tasks: seq<Task>, r: Request, id: TaskId, n: nat) returns (next: seq<Task>)
    requires StoreOk(tasks) && Counted(tasks, id, n)
    ensures next == Handle(tasks, r).0 && StoreOk(next) && Counted(next, id, n)
  {
    next := Handle(tasks, r).0;
    HandleKeeps(tasks, r);
    CountedStays(tasks, r, id, n);
  }

  /** Every cycle id is issued by at most one claim. */
  lemma {:induction false} IssuedOnce(tasks: seq<Task>, rs: seq<Request>, i: nat, j: nat, c: CycleId)
    requires StoreOk(tasks) && i < j < |rs|
    requires History(tasks, rs)[i].reply == Issued(c)
    ensures History(tasks, rs)[j].reply != Issued(c)
    decreases |rs|
  {
    HandleKeeps(tasks, rs[0]);
    var next := Handle(tasks, rs[0]).0;
    if i == 0 {
      var id, n := IssueCounts(tasks, rs[0], c);
      CountedNeverIssued(next, rs[1..], id, n, j - 1);
    } else {
      IssuedOnce(next, rs[1..], i - 1, j - 1, c);
    }
  }

  lemma {:induction false} SpentForever(tasks: seq<Task>, rs: seq<Request>, id: TaskId, n: nat)
    requires StoreOk(tasks) && Spent(tasks, id, n)
    ensures Spent(Final(tasks, rs), id, n)
    decreases |rs|
  {
    if rs != [] {
      HandleKeeps(tasks, rs[0]);
      SpentStays(tasks, rs[0], id, n);
      SpentForever(Handle(tasks, rs[0]).0, rs[1..], id, n);
    }
  }

  /** Fencing: once a cycle stops being current, in every continuation every operation that carries
      it is turned away and leaves the store as it is, and it is never issued again. */
  lemma {:induction false} Fenced(tasks: seq<Task>, ending: Request, more: seq<Request>, late: Request, c: CycleId)
    requires StoreOk(tasks) && Held(tasks, c) && !Held(Handle(tasks, ending).0, c)
    ensures var s := Final(Handle(tasks, ending).0, more);
            && !Held(s, c)
            && Handle(s, late).1 != Issued(c)
            && (late.Mutate? && Carried(late.op) == Some(c) ==> TurnedAway(Handle(s, late).1) && Handle(s, late).0 == s)
  {
    var id, n := HeldIsCounted(tasks, c);
    HandleKeeps(tasks, ending);
    CountedStays(tasks, ending, id, n);
    var next := Handle(tasks, ending).0;
    SpentForever(next, more, id, n);
    FinalOk(next, more);
    var s := Final(next, more);
    CountedNotIssued(s, late, id, n);
    if late.Mutate? && Carried(late.op) == Some(c) {
      UnheldIsTurnedAway(s, late, c);
    }
  }

  ghost predicate Finishes(e: Entry, c: CycleId) {
    e.request.Mutate? && Finishing(e.request.op) && Carried(e.request.op) == Some(c) && e.reply == Done
  }

  lemma {:induction false} SpentNeverFinishes(tasks: seq<Task>, rs: seq<Request>, id: TaskId, n: nat, k: nat)
    requires StoreOk(tasks) && Spent(tasks, id, n) && k < |rs|
    ensures !Finishes(History(tasks, rs)[k], MakeCycleId(id, n))
    decreases |rs|
  {
    if k == 0 {
      if rs[0].Mutate? && Carried(rs[0].op) == Some(MakeCycleId(id, n)) {
        UnheldIsTurnedAway(tasks, rs[0], MakeCycleId(id, n));
      }
    } else {
      HandleKeeps(tasks, rs[0]);
      SpentStays(tasks, rs[0], id, n);
      SpentNeverFinishes(Handle(tasks, rs[0]).0, rs[1..], id, n, k - 1);
    }
  }

  /** Every cycle is accepted as finished at most once. */
  lemma {:induction false} FinishedOnce(tasks: seq<Task>, rs: seq<Request>, i: nat, j: nat, c: CycleId)
    requires StoreOk(tasks) && i < j < |rs|
    requires Finishes(History(tasks, rs)[i], c)
    ensures !Finishes(History(tasks, rs)[j], c)
    decreases |rs|
  {
    HandleKeeps(tasks, rs[0]);
    var next := Handle(tasks, rs[0]).0;
    if i == 0 {
      AcceptedEndEnds(tasks, rs[0], c);
      var id, n := HeldIsCounted(tasks, c);
      CountedStays(tasks, rs[0], id, n);
      SpentNeverFinishes(next, rs[1..], id, n, j - 1);
    } else {
      FinishedOnce(next, rs[1..], i - 1, j - 1, c);
    }
  }

  /** A cycle that is finished and was not current at the start was issued on the way. */
  lemma {:induction false} FinishedWasIssued(tasks: seq<Task>, rs: seq<Request>, j: nat, c: CycleId)
    requires StoreOk(tasks) && !Held(tasks, c) && j < |rs|
    requires Finishes(History(tasks, rs)[j], c)
    ensures exists i :: 0 <= i < j && History(tasks, rs)[i].reply == Issued(c)
    decreases |rs|
  {
    HandleKeeps(tasks, rs[0]);
    var next := Handle(tasks, rs[0]).0;
    if j == 0 {
      UnheldIsTurnedAway(tasks, rs[0], c);
    } else if Held(next, c) {
      var id, n := HeldIsCounted(next, c);
      HeldByClaimOnly(tasks, rs[0], id, n);
      assert History(tasks, rs)[0].reply == Issued(c);
    } else {
      FinishedWasIssued(next, rs[1..], j - 1, c);
      var i :| 0 <= i < j - 1 && History(next, rs[1..])[i].reply == Issued(c);
      assert History(tasks, rs)[i + 1].reply == Issued(c);
    }
  }

  // ---- termination ----

  function StatusRank(status: Status): nat {
    match status
    case Claimed => 3
    case Running => 2
    case Pending => 1
    case _ => 0
  }

  /** (cycles left, status rank) as one number. */
  function Measure(t: Task): nat
    requires t.cycleCount <= Cap(t)
  {
    4 * (Cap(t) - t.cycleCount) + StatusRank(t.status)
  }

  /** A claim that issues a cycle or retires the task; a completion, failure, reclaim, cancellation
      or forced expiry that moves it. */
  predicate Lifecycle(t: Task, op: Op, reply: Reply) {
    match op
    case Claim(_, _) => reply.Issued? || reply == NotClaimed(LateExpired) || reply == NotClaimed(CycleLimit)
    case Expire(_) => reply == Done && !IsTerminal(t.status)
    case Nudge(_) => false
    case MarkRunning(_, _, _) => false
    case RenewLease(_, _) => false
    case _ => reply == Done
  }

  ghost predicate Drops(t: Task, op: Op, u: Task, reply: Reply)
    requires t.cycleCount <= Cap(t)
  {
    && u.cycleCount <= Cap(u)
    && Measure(u) <= Measure(t)
    && (Lifecycle(t, op, reply) ==> Measure(u) < Measure(t))
    && u.cycleCount == t.cycleCount + if reply.Issued? then 1 else 0
  }

  lemma OpeningDrops(t: Task, op: Op, now: Time)
    requires TaskOk(t) && Opening(op)
    ensures Drops(t, op, Apply(t, op, now).0, Apply(t, op, now).1)
  {
  }

  lemma ByHolderDrops(t: Task, op: Op, now: Time)
    requires TaskOk(t) && ByHolder(op)
    ensures Drops(t, op, Apply(t, op, now).0, Apply(t, op, now).1)
  {
  }

  lemma ClosingDrops(t: Task, op: Op, now: Time)
    requires TaskOk(t) && !Opening(op) && !ByHolder(op)
    ensures Drops(t, op, Apply(t, op, now).0, Apply(t, op, now).1)
  {
  }

  /** Every lifecycle step makes the measure smaller, and no operation makes it larger. */
  lemma MeasureDrops(t: Task, op: Op, now: Time)
    requires TaskOk(t)
    ensures Drops(t, op, Apply(t, op, now).0, Apply(t, op, now).1)
  {
    if Opening(op) {
      OpeningDrops(t, op, now);
    } else if ByHolder(op) {
      ByHolderDrops(t, op, now);
    } else {
      ClosingDrops(t, op, now);
    }
  }

  /** Terminal tasks are left exactly as they are by every operation the engine issues. */
  lemma TerminalAbsorbs(t: Task, op: Op, now: Time)
    requires TaskOk(t) && IsTerminal(t.status) && !op.Expire?
    ensures Apply(t, op, now).0 == t && Apply(t, op, now).1 != Done && !Apply(t, op, now).1.Issued?
  {
  }

  /** The operations that reached one task, and what they did to it. */
  function TaskRun(t: Task, ops: seq<(Op, Time)>): Task
    decreases |ops|
  {
    if ops == [] then t else TaskRun(Apply(t, ops[0].0, ops[0].1).0, ops[1..])
  }

  function LifecycleSteps(t: Task, ops: seq<(Op, Time)>): nat
    decreases |ops|
  {
    if ops == [] then 0 else
    var (u, reply) := Apply(t, ops[0].0, ops[0].1);
    (if Lifecycle(t, ops[0].0, reply) then 1 else 0) + LifecycleSteps(u, ops[1..])
  }

  function CyclesIssued(t: Task, ops: seq<(Op, Time)>): nat
    decreases |ops|
  {
    if ops == [] then 0 else
    var (u, reply) := Apply(t, ops[0].0, ops[0].1);
    (if reply.Issued? then 1 else 0) + CyclesIssued(u, ops[1..])
  }

  lemma {:induction false} LifecycleBound(t: Task, ops: seq<(Op, Time)>)
    requires TaskOk(t)
    ensures TaskOk(TaskRun(t, ops)) && Cap(TaskRun(t, ops)) == Cap(t)
    ensures LifecycleSteps(t, ops) + Measure(TaskRun(t, ops)) <= Measure(t)
    ensures CyclesIssued(t, ops) + t.cycleCount == TaskRun(t, ops).cycleCount <= Cap(t)
    decreases |ops|
  {
    if ops != [] {
      ApplyKeeps(t, ops[0].0, ops[0].1);
      MeasureDrops(t, ops[0].0, ops[0].1);
      LifecycleBound(Apply(t, ops[0].0, ops[0].1).0, ops[1..]);
    }
  }

  /** A new task gets at most cap cycles and at most 4 * cap + 1 lifecycle steps, ever. */
  lemma {:induction false} TaskTerminates(t: Task, ops: seq<(Op, Time)>)
    requires IsNew(t)
    ensures CyclesIssued(t, ops) <= Cap(t) <= MAX_CYCLES
    ensures LifecycleSteps(t, ops) <= 4 * Cap(t) + 1
  {
    LifecycleBound(t, ops);
  }
}
