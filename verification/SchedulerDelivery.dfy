/** Notifications: a claim protocol around an external send, shared by three executors that
    interleave at every store operation and may crash anywhere. */
module SchedulerDelivery {
  import opened Decimals
  import opened Options
  import opened SchedulerTasks

  type DeliveryId = string

  datatype DeliveryStatus = Waiting | Sending | Delivered | SendFailed

  datatype Delivery = Delivery(status: DeliveryStatus, attempts: nat)

  type Deliveries = map<DeliveryId, Delivery>

  const MAX_ATTEMPTS := 100

  // ---- delivery ids ----

  const REMINDER := "reminder"

  function MakeDeliveryId(taskId: TaskId, cycleId: CycleId, purpose: string): DeliveryId {
    taskId + ":" + cycleId + ":" + purpose
  }

  lemma SplitAtColon(a: string, p: string, b: string, q: string)
    requires ':' !in a && ':' !in b && a + ":" + p == b + ":" + q
    ensures a == b && p == q
  {
    var s := a + ":" + p;
    assert s[|a|] == ':' && s[|b|] == ':';
    assert |a| == |b|;
    assert a == s[..|a|] && b == s[..|b|];
    assert p == s[|a| + 1..] && q == s[|b| + 1..];
  }

  /** Deliveries of different cycles or purposes never share a record. */
  lemma DeliveryIdInjective(a: TaskId, m: nat, p: string, b: TaskId, n: nat, q: string)
    requires IsUuid(a) && IsUuid(b)
    requires MakeDeliveryId(a, MakeCycleId(a, m), p) == MakeDeliveryId(b, MakeCycleId(b, n), q)
    ensures a == b && m == n && p == q
  {
    var s := MakeDeliveryId(a, MakeCycleId(a, m), p);
    assert s == a + ":" + a + ":" + Decimal(m) + ":" + p;
    assert s == b + ":" + b + ":" + Decimal(n) + ":" + q;
    assert a == s[..36] == b;
    assert Decimal(m) + ":" + p == s[74..] == Decimal(n) + ":" + q;
    DecimalRoundTrip(m);
    DecimalRoundTrip(n);
    SplitAtColon(Decimal(m), p, Decimal(n), q);
    DecimalInjective(m, n);
  }

  // ---- the delivery store ----

  /** The schema keeps external message ids of at most 256 characters. */
  predicate Keepable(externalId: Option<string>) {
    Fits(externalId, 0, 256)
  }

  function EnsurePending(d: Deliveries, id: DeliveryId): Deliveries {
    if id in d then d else d[id := Delivery(Waiting, 0)]
  }

  predicate Claimable(d: Deliveries, id: DeliveryId, retryFailed: bool) {
    id in d && (d[id].status.Waiting? || (d[id].status.SendFailed? && retryFailed))
  }

  datatype ClaimOutcome = Granted | Denied | Threw

  function ClaimSending(d: Deliveries, id: DeliveryId, retryFailed: bool): (Deliveries, ClaimOutcome) {
    if !Claimable(d, id, retryFailed) then (d, Denied)
    else if d[id].attempts + 1 > MAX_ATTEMPTS then (d, Threw)
    else (d[id := Delivery(Sending, d[id].attempts + 1)], Granted)
  }

  /** False when the mutation throws and nothing is written. */
  function MarkDelivered(d: Deliveries, id: DeliveryId, externalId: Option<string>): (Deliveries, bool) {
    if id !in d || !Keepable(externalId) then (d, false) else (d[id := d[id].(status := Delivered)], true)
  }

  function MarkFailed(d: Deliveries, id: DeliveryId): (Deliveries, bool) {
    if id !in d then (d, false) else (d[id := d[id].(status := SendFailed)], true)
  }

  // ---- the executors ----

  datatype ExecutorKind = ReminderExecutor(maxAttempts: nat) | WatchNotifier | WakeExplainer

  datatype Pc =
    | Ensure
    | Look(attempt: nat)
    | TryClaim(attempt: nat)
    | AfterDenial(attempt: nat)
    | Send(attempt: nat)
    | Store(attempt: nat, externalId: Option<string>)
    | Blame(attempt: nat)
    | Settle
    | GiveUp
    | Stopped

  datatype Executor = Executor(kind: ExecutorKind, id: DeliveryId, pc: Pc)

  /** A reminder is attempted as often as configured, but once at least and ten times at most. */
  function Attempts(kind: ExecutorKind): (n: nat)
    ensures 1 <= n <= 10
    ensures kind.ReminderExecutor? && 1 <= kind.maxAttempts <= 10 ==> n == kind.maxAttempts
    ensures (kind.WatchNotifier? ==> n == 1) && (kind.WakeExplainer? ==> n == 3)
    ensures kind.ReminderExecutor? ==> (n == 1 || n <= kind.maxAttempts) && (n == 10 || n >= kind.maxAttempts)
  {
    match kind
    case ReminderExecutor(n) => if n < 1 then 1 else if n > 10 then 10 else n
    case WatchNotifier => 1
    case WakeExplainer => 3
  }

  predicate RetryFailed(kind: ExecutorKind, attempt: nat) {
    kind.WatchNotifier? || attempt > 0
  }

  predicate IsDelivered(d: Deliveries, id: DeliveryId) {
    id in d && d[id].status.Delivered?
  }

  function AfterFailedAttempt(kind: ExecutorKind, attempt: nat): Pc {
    if kind.WatchNotifier? then Stopped else Look(attempt + 1)
  }

  /** What the executor does with the delivery store at its program counter. */
  function Advance(d: Deliveries, x: Executor): (Deliveries, Pc) {
    match x.pc
    case Ensure =>
      var e := EnsurePending(d, x.id);
      (e, match x.kind
          case ReminderExecutor(_) => Look(0)
          case WatchNotifier => if IsDelivered(e, x.id) then Stopped else TryClaim(0)
          case WakeExplainer => if IsDelivered(e, x.id) then Stopped else Look(0))
    case Look(a) =>
      (d, if a >= Attempts(x.kind) then (if x.kind.ReminderExecutor? then GiveUp else Stopped)
          else if IsDelivered(d, x.id) then (if x.kind.ReminderExecutor? then Settle else Stopped)
          else TryClaim(a))
    case TryClaim(a) =>
      var (e, outcome) := ClaimSending(d, x.id, RetryFailed(x.kind, a));
      (e, if outcome.Granted? then Send(a)
          else if outcome.Threw? then Stopped
          else match x.kind
               case ReminderExecutor(_) => AfterDenial(a)
               case WatchNotifier => Stopped
               case WakeExplainer => Look(a + 1))
    case AfterDenial(a) =>
      (d, if IsDelivered(d, x.id) then Settle
          else if x.id in d && d[x.id].status.Sending? then Look(a + 1)
          else Stopped)
    case Store(a, externalId) =>
      var (e, stored) := MarkDelivered(d, x.id, externalId);
      (e, if !stored then Blame(a) else if x.kind.ReminderExecutor? then Settle else Stopped)
    case Blame(a) =>
      var (e, stored) := MarkFailed(d, x.id);
      (e, if stored then AfterFailedAttempt(x.kind, a) else Stopped)
    case GiveUp => (d, Stopped)
    case _ => (d, x.pc)
  }

  // ---- the system ----

  /** `sends` counts the sends that succeeded, `forgotten` those of them whose record failed, and
      `completed` holds the reminder deliveries whose cycle was recorded as completed. */
  datatype System = System(deliveries: Deliveries, executors: map<nat, Executor>,
                           sends: map<DeliveryId, nat>, forgotten: map<DeliveryId, nat>, completed: set<DeliveryId>)

  const START := System(map[], map[], map[], map[], {})

  datatype Step =
    | Spawn(e: nat, kind: ExecutorKind, id: DeliveryId)
    | Crash(e: nat)
    | Go(e: nat)
    | Sent(e: nat, externalId: Option<string>)
    | NotSent(e: nat)
    | NotRecorded(e: nat)
    | Settled(e: nat, accepted: bool)

  function CountOf(counts: map<DeliveryId, nat>, id: DeliveryId): nat {
    if id in counts then counts[id] else 0
  }

  function Sends(s: System, id: DeliveryId): nat {
    CountOf(s.sends, id)
  }

  function Forgotten(s: System, id: DeliveryId): nat {
    CountOf(s.forgotten, id)
  }

  predicate Enabled(s: System, step: Step) {
    match step
    case Spawn(e, _, _) => e !in s.executors
    case Crash(e) => e in s.executors
    case Go(e) => e in s.executors && !s.executors[e].pc.Send? && !s.executors[e].pc.Settle? && !s.executors[e].pc.Stopped?
    case Sent(e, _) => e in s.executors && s.executors[e].pc.Send?
    case NotSent(e) => e in s.executors && s.executors[e].pc.Send?
    case NotRecorded(e) => e in s.executors && s.executors[e].pc.Store?
    case Settled(e, _) => e in s.executors && s.executors[e].pc.Settle?
  }

  function MoveTo(s: System, e: nat, pc: Pc): System
    requires e in s.executors
  {
    s.(executors := s.executors[e := s.executors[e].(pc := pc)])
  }

  function Forget(s: System, id: DeliveryId): System {
    s.(forgotten := s.forgotten[id := Forgotten(s, id) + 1])
  }

  function Do(s: System, step: Step): System
    requires Enabled(s, step)
  {
    match step
    case Spawn(e, kind, id) => s.(executors := s.executors[e := Executor(kind, id, Ensure)])
    case Crash(e) => s.(executors := map k | k in s.executors && k != e :: s.executors[k])
    case Go(e) =>
      var x := s.executors[e];
      var (d, pc) := Advance(s.deliveries, x);
      MoveTo(if x.pc.Store? && pc.Blame? then Forget(s, x.id) else s.(deliveries := d), e, pc)
    case Sent(e, externalId) =>
      var x := s.executors[e];
      MoveTo(s.(sends := s.sends[x.id := Sends(s, x.id) + 1]), e, Store(x.pc.attempt, externalId))
    case NotSent(e) => MoveTo(s, e, Blame(s.executors[e].pc.attempt))
    case NotRecorded(e) =>
      // the store's lock or write failed: nothing is written, and the send counts as failed
      var x := s.executors[e];
      MoveTo(Forget(s, x.id), e, Blame(x.pc.attempt))
    case Settled(e, accepted) =>
      var x := s.executors[e];
      MoveTo(if accepted then s.(completed := s.completed + {x.id}) else s, e, Stopped)
  }

  function RunSteps(s: System, steps: seq<Step>): System
    decreases |steps|
  {
    if steps == [] then s
    else RunSteps(if Enabled(s, steps[0]) then Do(s, steps[0]) else s, steps[1..])
  }

  // ---- invariants ----

  /** The executor holds the claim of its delivery: from the granted claim to the recorded result. */
  predicate Owns(x: Executor) {
    x.pc.Send? || x.pc.Store? || x.pc.Blame?
  }

  ghost predicate OwnersOk(s: System) {
    && (forall e, f :: e in s.executors && f in s.executors && e != f && Owns(s.executors[e]) && Owns(s.executors[f]) ==>
          s.executors[e].id != s.executors[f].id)
    && (forall e :: e in s.executors && Owns(s.executors[e]) ==>
          s.executors[e].id in s.deliveries && s.deliveries[s.executors[e].id].status.Sending?)
    && (forall e :: e in s.executors && s.executors[e].pc.Settle? ==> IsDelivered(s.deliveries, s.executors[e].id))
    && (forall id :: id in s.completed ==> IsDelivered(s.deliveries, id))
  }

  /** The successful sends that are not forgotten: at most one, read off the delivery's status. */
  ghost predicate CountOk(s: System, id: DeliveryId) {
    var kept := Sends(s, id) - Forgotten(s, id);
    && 0 <= kept <= 1
    && (id !in s.deliveries ==> kept == 0)
    && (id in s.deliveries && (s.deliveries[id].status.Waiting? || s.deliveries[id].status.SendFailed?) ==> kept == 0)
    && (IsDelivered(s.deliveries, id) ==> kept == 1)
  }

  ghost predicate CountsOk(s: System) {
    && (forall id :: CountOk(s, id))
    && (forall e :: e in s.executors && Owns(s.executors[e]) ==>
          Sends(s, s.executors[e].id) - Forgotten(s, s.executors[e].id) == if s.executors[e].pc.Store? then 1 else 0)
  }

  ghost predicate Elsewhere(d: Deliveries, e: Deliveries, id: DeliveryId) {
    forall k :: k != id ==> (k in e <==> k in d) && (k in d ==> e[k] == d[k])
  }

  /** What one step of an executor can do to the deliveries, and where it can go. */
  ghost predicate Effect(d: Deliveries, x: Executor, e: Deliveries, y: Executor) {
    && y.id == x.id && Elsewhere(d, e, x.id)
    && (!Owns(x) && Owns(y) ==>
          && y.pc.Send? && x.id in d && (d[x.id].status.Waiting? || d[x.id].status.SendFailed?)
          && x.id in e && e[x.id].status.Sending?)
    && (!Owns(x) && !Owns(y) ==> e == d || (x.id !in d && x.id in e && e[x.id].status.Waiting?))
    && (Owns(x) ==> x.pc.Store? || x.pc.Blame?)
    && (x.pc.Store? && Keepable(x.pc.externalId) ==> !Owns(y) && IsDelivered(e, x.id))
    && (x.pc.Store? && !Keepable(x.pc.externalId) ==> y.pc.Blame? && e == d)
    && (x.pc.Blame? ==> !Owns(y) && x.id in e && e[x.id].status.SendFailed?)
    && (y.pc.Settle? ==> IsDelivered(e, x.id))
  }

  lemma AdvanceEffect(d: Deliveries, x: Executor)
    requires !x.pc.Send? && !x.pc.Settle? && !x.pc.Stopped? && (Owns(x) ==> x.id in d)
    ensures Effect(d, x, Advance(d, x).0, x.(pc := Advance(d, x).1))
  {
    match x.pc
    case Ensure =>
    case Look(_) =>
    case TryClaim(_) =>
    case AfterDenial(_) =>
    case Store(_, _) =>
    case Blame(_) =>
    case GiveUp =>
  }

  lemma MoveKeepsOwners(s: System, e: nat, d: Deliveries, y: Executor)
    requires OwnersOk(s) && e in s.executors && Effect(s.deliveries, s.executors[e], d, y)
    ensures OwnersOk(s.(deliveries := d, executors := s.executors[e := y]))
  {
    var x, t := s.executors[e], s.(deliveries := d, executors := s.executors[e := y]);
    forall f | f in t.executors && f != e && Owns(t.executors[f]) && Owns(y) ensures t.executors[f].id != y.id {
      assert t.executors[f] == s.executors[f];
    }
    forall f | f in t.executors && Owns(t.executors[f])
      ensures t.executors[f].id in d && d[t.executors[f].id].status.Sending?
    {
      if f != e {
        assert t.executors[f] == s.executors[f];
        assert Owns(x) ==> s.executors[f].id != x.id;
      }
    }
  }

  lemma GoKeepsOwners(s: System, e: nat)
    requires OwnersOk(s) && Enabled(s, Go(e))
    ensures OwnersOk(Do(s, Go(e)))
  {
    var x := s.executors[e];
    AdvanceEffect(s.deliveries, x);
    var (d, pc) := Advance(s.deliveries, x);
    MoveKeepsOwners(s, e, d, x.(pc := pc));
  }

  lemma SendKeepsOwners(s: System, step: Step)
    requires OwnersOk(s) && Enabled(s, step) && (step.Sent? || step.NotSent? || step.NotRecorded?)
    ensures OwnersOk(Do(s, step))
  {
  }

  lemma StepKeepsOwners(s: System, step: Step)
    requires OwnersOk(s) && Enabled(s, step)
    ensures OwnersOk(Do(s, step))
  {
    if step.Go? {
      GoKeepsOwners(s, step.e);
    } else if step.Sent? || step.NotSent? || step.NotRecorded? {
      SendKeepsOwners(s, step);
    }
  }

  /** What a move does to the counts of its delivery: `sent` and `lost` say how they grew. */
  ghost predicate Counted(s: System, t: System, id: DeliveryId, sent: nat, lost: nat) {
    && Sends(t, id) == Sends(s, id) + sent && Forgotten(t, id) == Forgotten(s, id) + lost
    && forall k :: k != id ==> Sends(t, k) == Sends(s, k) && Forgotten(t, k) == Forgotten(s, k)
  }

  /** The counts stay right when the move's own delivery and executor do. */
  lemma MoveKeepsCounts(s: System, t: System, e: nat, sent: nat, lost: nat)
    requires OwnersOk(s) && OwnersOk(t) && CountsOk(s) && e in s.executors && e in t.executors
    requires t.executors.Keys == s.executors.Keys && t.executors[e].id == s.executors[e].id
    requires forall f :: f in s.executors && f != e ==> t.executors[f] == s.executors[f]
    requires Elsewhere(s.deliveries, t.deliveries, s.executors[e].id) && Counted(s, t, s.executors[e].id, sent, lost)
    requires CountOk(t, s.executors[e].id)
    requires Owns(t.executors[e]) ==>
               Sends(t, s.executors[e].id) - Forgotten(t, s.executors[e].id) == if t.executors[e].pc.Store? then 1 else 0
    requires Owns(s.executors[e]) || (sent == 0 && lost == 0)
    ensures CountsOk(t)
  {
    var x := s.executors[e];
    forall id ensures CountOk(t, id) {
      assert CountOk(s, id);
    }
    forall f | f in t.executors && Owns(t.executors[f])
      ensures Sends(t, t.executors[f].id) - Forgotten(t, t.executors[f].id) == if t.executors[f].pc.Store? then 1 else 0
    {
      if f != e {
        assert t.executors[f] == s.executors[f];
        assert Owns(x) ==> s.executors[f].id != x.id;
      }
    }
  }

  lemma GoKeepsCounts(s: System, e: nat)
    requires OwnersOk(s) && CountsOk(s) && Enabled(s, Go(e))
    ensures CountsOk(Do(s, Go(e)))
  {
    var x, t := s.executors[e], Do(s, Go(e));
    AdvanceEffect(s.deliveries, x);
    GoKeepsOwners(s, e);
    assert CountOk(s, x.id);
    MoveKeepsCounts(s, t, e, 0, if x.pc.Store? && t.executors[e].pc.Blame? then 1 else 0);
  }

  lemma SendKeepsCounts(s: System, step: Step)
    requires OwnersOk(s) && CountsOk(s) && Enabled(s, step) && (step.Sent? || step.NotSent? || step.NotRecorded?)
    ensures CountsOk(Do(s, step))
  {
    StepKeepsOwners(s, step);
    assert CountOk(s, s.executors[step.e].id);
    MoveKeepsCounts(s, Do(s, step), step.e, if step.Sent? then 1 else 0, if step.NotRecorded? then 1 else 0);
  }

  lemma StepKeepsCounts(s: System, step: Step)
    requires OwnersOk(s) && CountsOk(s) && Enabled(s, step)
    ensures CountsOk(Do(s, step))
  {
    if step.Go? {
      GoKeepsCounts(s, step.e);
    } else if step.Sent? || step.NotSent? || step.NotRecorded? {
      SendKeepsCounts(s, step);
    } else {
      OthersKeepCounts(s, step);
    }
  }

  lemma OthersKeepCounts(s: System, step: Step)
    requires CountsOk(s) && Enabled(s, step) && (step.Spawn? || step.Crash? || step.Settled?)
    ensures CountsOk(Do(s, step))
  {
    var t := Do(s, step);
    forall id ensures CountOk(t, id) {
      assert CountOk(s, id);
    }
  }

  // ---- main results ----

  ghost predicate Reachable(s: System) {
    exists steps :: s == RunSteps(START, steps)
  }

  lemma {:induction false} RunKeepsOwners(s: System, steps: seq<Step>)
    requires OwnersOk(s)
    ensures OwnersOk(RunSteps(s, steps))
    decreases |steps|
  {
    if steps != [] {
      if Enabled(s, steps[0]) {
        StepKeepsOwners(s, steps[0]);
        RunKeepsOwners(Do(s, steps[0]), steps[1..]);
      } else {
        RunKeepsOwners(s, steps[1..]);
      }
    }
  }

  /** Over every interleaving and every crash, whatever the notifier returns: two sends of the same
      delivery are never in flight together. */
  lemma OneSendInFlight(s: System, e: nat, f: nat)
    requires Reachable(s) && e in s.executors && f in s.executors && e != f
    requires s.executors[e].pc.Send? && s.executors[f].pc.Send?
    ensures s.executors[e].id != s.executors[f].id
  {
    var steps :| s == RunSteps(START, steps);
    RunKeepsOwners(START, steps);
  }

  lemma DeliveredStays(s: System, step: Step, id: DeliveryId)
    requires OwnersOk(s) && Enabled(s, step) && IsDelivered(s.deliveries, id)
    ensures IsDelivered(Do(s, step).deliveries, id)
  {
    if step.Go? {
      AdvanceEffect(s.deliveries, s.executors[step.e]);
    }
  }

  lemma {:induction false} DeliveredForever(s: System, steps: seq<Step>, id: DeliveryId)
    requires OwnersOk(s) && IsDelivered(s.deliveries, id)
    ensures IsDelivered(RunSteps(s, steps).deliveries, id)
    decreases |steps|
  {
    if steps != [] {
      if Enabled(s, steps[0]) {
        StepKeepsOwners(s, steps[0]);
        DeliveredStays(s, steps[0], id);
        DeliveredForever(Do(s, steps[0]), steps[1..], id);
      } else {
        DeliveredForever(s, steps[1..], id);
      }
    }
  }

  /** The state `delivered` is never left. */
  lemma {:induction false} DeliveredIsFinal(s: System, steps: seq<Step>, id: DeliveryId)
    requires Reachable(s) && IsDelivered(s.deliveries, id)
    ensures IsDelivered(RunSteps(s, steps).deliveries, id)
  {
    var before :| s == RunSteps(START, before);
    RunKeepsOwners(START, before);
    DeliveredForever(s, steps, id);
  }

  lemma {:induction false} RunKeepsCounts(s: System, steps: seq<Step>)
    requires OwnersOk(s) && CountsOk(s)
    ensures OwnersOk(RunSteps(s, steps)) && CountsOk(RunSteps(s, steps))
    decreases |steps|
  {
    if steps != [] {
      if Enabled(s, steps[0]) {
        StepKeepsOwners(s, steps[0]);
        StepKeepsCounts(s, steps[0]);
        RunKeepsCounts(Do(s, steps[0]), steps[1..]);
      } else {
        RunKeepsCounts(s, steps[1..]);
      }
    }
  }

  /** Over every interleaving and every crash, whatever the notifier and the store's disk answer:
      each successful send but one was followed by a failed record of it, and a delivery recorded as
      delivered has exactly one send more than it has failed records. */
  lemma SendsAreAccountedFor(s: System, id: DeliveryId)
    requires Reachable(s)
    ensures Forgotten(s, id) <= Sends(s, id) <= Forgotten(s, id) + 1
    ensures IsDelivered(s.deliveries, id) || id in s.completed ==> Sends(s, id) == Forgotten(s, id) + 1
  {
    var steps :| s == RunSteps(START, steps);
    RunKeepsCounts(START, steps);
    assert CountOk(s, id);
  }

  /** What the world may do in a run: the message ids that the notifier hands back, and whether the
      record of a successful send may fail. */
  ghost predicate Allowed(steps: seq<Step>, ids: iset<Option<string>>, lossy: bool) {
    && (forall i :: 0 <= i < |steps| && steps[i].Sent? ==> steps[i].externalId in ids)
    && (forall i :: 0 <= i < |steps| && steps[i].NotRecorded? ==> lossy)
  }

  ghost predicate AllKeepable(ids: iset<Option<string>>) {
    forall x: Option<string> :: x in ids && x.Some? ==> |x.value| <= 256
  }

  /** Nothing has been forgotten, and nothing that waits to be recorded is refused. */
  ghost predicate NothingLost(s: System) {
    && s.forgotten == map[]
    && forall e :: e in s.executors && s.executors[e].pc.Store? ==> Keepable(s.executors[e].pc.externalId) && s.executors[e].id in s.deliveries
  }

  lemma StepLosesNothing(s: System, step: Step)
    requires OwnersOk(s) && NothingLost(s) && Enabled(s, step)
    requires !step.NotRecorded? && (step.Sent? ==> Keepable(step.externalId))
    ensures NothingLost(Do(s, step))
  {
    StepKeepsOwners(s, step);
  }

  lemma {:induction false} RunLosesNothing(s: System, steps: seq<Step>, ids: iset<Option<string>>)
    requires OwnersOk(s) && NothingLost(s) && Allowed(steps, ids, false) && AllKeepable(ids)
    ensures NothingLost(RunSteps(s, steps))
    decreases |steps|
  {
    if steps != [] {
      assert Allowed(steps[1..], ids, false);
      if Enabled(s, steps[0]) {
        StepKeepsOwners(s, steps[0]);
        StepLosesNothing(s, steps[0]);
        RunLosesNothing(Do(s, steps[0]), steps[1..], ids);
      } else {
        RunLosesNothing(s, steps[1..], ids);
      }
    }
  }

  lemma {:induction false} NothingSent(s: System, steps: seq<Step>, lossy: bool)
    requires s.sends == map[] && Allowed(steps, iset{}, lossy)
    ensures RunSteps(s, steps).sends == map[]
    decreases |steps|
  {
    if steps != [] {
      assert Allowed(steps[1..], iset{}, lossy);
      NothingSent(if Enabled(s, steps[0]) then Do(s, steps[0]) else s, steps[1..], lossy);
    }
  }

  lemma {:induction false} RunOne(s: System, steps: seq<Step>, step: Step)
    requires Enabled(RunSteps(s, steps), step)
    ensures RunSteps(s, steps + [step]) == Do(RunSteps(s, steps), step)
    decreases |steps|
  {
    if steps == [] {
      assert [] + [step] == [step];
      assert RunSteps(s, [step]) == RunSteps(Do(s, step), []);
    } else {
      assert (steps + [step])[1..] == steps[1..] + [step];
      RunOne(if Enabled(s, steps[0]) then Do(s, steps[0]) else s, steps[1..], step);
    }
  }

  /** A reminder about to be sent for the first time. */
  lemma FirstSend(externalId: Option<string>) returns (steps: seq<Step>)
    ensures forall i :: 0 <= i < |steps| ==> !steps[i].NotRecorded? && (steps[i].Sent? ==> steps[i].externalId == externalId)
    ensures RunSteps(START, steps) == System(map[REMINDER := Delivery(Sending, 1)],
              map[0 := Executor(ReminderExecutor(3), REMINDER, Store(0, externalId))], map[REMINDER := 1], map[], {})
  {
    var k := ReminderExecutor(3);
    steps := [];
    RunOne(START, steps, Spawn(0, k, REMINDER));
    steps := steps + [Spawn(0, k, REMINDER)];
    RunOne(START, steps, Go(0));
    steps := steps + [Go(0)];
    RunOne(START, steps, Go(0));
    steps := steps + [Go(0)];
    RunOne(START, steps, Go(0));
    steps := steps + [Go(0)];
    RunOne(START, steps, Sent(0, externalId));
    steps := steps + [Sent(0, externalId)];
  }

  /** The first attempt: sent, and then recorded as failed. */
  lemma SentThenForgotten(externalId: Option<string>, lossy: bool) returns (steps: seq<Step>)
    requires lossy || !Keepable(externalId)
    ensures Allowed(steps, iset{externalId}, lossy)
    ensures RunSteps(START, steps) == System(map[REMINDER := Delivery(SendFailed, 1)],
              map[0 := Executor(ReminderExecutor(3), REMINDER, Look(1))], map[REMINDER := 1], map[REMINDER := 1], {})
  {
    steps := FirstSend(externalId);
    var step := if lossy then NotRecorded(0) else Go(0);
    RunOne(START, steps, step);
    steps := steps + [step];
    RunOne(START, steps, Go(0));
    steps := steps + [Go(0)];
  }

  /** A reminder whose message id the store will not keep, or whose record fails once: the recorded
      failure hides the send that succeeded, and the second attempt sends again. */
  lemma SentTwice(externalId: Option<string>, lossy: bool) returns (steps: seq<Step>)
    requires lossy || !Keepable(externalId)
    ensures Allowed(steps, iset{externalId}, lossy)
    ensures Sends(RunSteps(START, steps), REMINDER) == 2
  {
    steps := SentThenForgotten(externalId, lossy);
    RunOne(START, steps, Go(0));
    steps := steps + [Go(0)];
    RunOne(START, steps, Go(0));
    steps := steps + [Go(0)];
    RunOne(START, steps, Sent(0, externalId));
    steps := steps + [Sent(0, externalId)];
  }

  lemma {:induction false} SentOnceIfKept(steps: seq<Step>, ids: iset<Option<string>>, id: DeliveryId)
    requires Allowed(steps, ids, false) && AllKeepable(ids)
    ensures Forgotten(RunSteps(START, steps), id) == 0 && Sends(RunSteps(START, steps), id) <= 1
  {
    RunLosesNothing(START, steps, ids);
    SendsAreAccountedFor(RunSteps(START, steps), id);
  }

  /** At most once, exactly: no delivery is ever sent successfully twice, in any interleaving with
      any crashes, if and only if no record of a successful send may fail and every message id that
      the notifier may return fits the store -- or the notifier never succeeds at all. */
  lemma AtMostOnceExactly(ids: iset<Option<string>>, lossy: bool)
    ensures ids == iset{} || (!lossy && AllKeepable(ids)) <==>
            forall steps, id :: Allowed(steps, ids, lossy) ==> Sends(RunSteps(START, steps), id) <= 1
  {
    if ids == iset{} {
      forall steps, id | Allowed(steps, ids, lossy) ensures Sends(RunSteps(START, steps), id) <= 1 {
        NothingSent(START, steps, lossy);
      }
    } else if !lossy && AllKeepable(ids) {
      forall steps, id | Allowed(steps, ids, lossy) ensures Sends(RunSteps(START, steps), id) <= 1 {
        SentOnceIfKept(steps, ids, id);
      }
    } else {
      var x :| x in ids && (lossy || !Keepable(x));
      var steps := SentTwice(x, lossy);
      assert Allowed(steps, ids, lossy);
    }
  }

  /** A reminder cycle recorded as completed was sent exactly once, if no record failed. */
  lemma {:induction false} CompletedMeansSentOnce(steps: seq<Step>, ids: iset<Option<string>>, id: DeliveryId)
    requires Allowed(steps, ids, false) && AllKeepable(ids)
    requires id in RunSteps(START, steps).completed
    ensures Sends(RunSteps(START, steps), id) == 1
  {
    SentOnceIfKept(steps, ids, id);
    SendsAreAccountedFor(RunSteps(START, steps), id);
  }

  // ---- the notifiers of the gateway ----

  const MAX_SAFE_INTEGER := 0x1F_FFFF_FFFF_FFFF

  /** Telegram's message numbers in decimal, and nothing from the web. */
  ghost function ShippedIds(): iset<Option<string>> {
    iset n: nat | n <= MAX_SAFE_INTEGER :: Some(Decimal(n))
  }

  /** So with the gateway's own notifiers a delivery is sent at most once in every run in which no
      record of a successful send fails. */
  lemma {:induction false} ShippedNotifiersSendOnce(steps: seq<Step>, id: DeliveryId)
    requires Allowed(steps, ShippedIds() + iset{None}, false)
    ensures Sends(RunSteps(START, steps), id) <= 1
  {
    PowerOfTen16();
    forall n: nat | n <= MAX_SAFE_INTEGER ensures Keepable(Some(Decimal(n))) {
      DecimalLength(n, 16);
    }
    SentOnceIfKept(steps, ShippedIds() + iset{None}, id);
  }
}
