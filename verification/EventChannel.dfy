/** The run event channel: a queue with a high and a low watermark in front of one asynchronous
    sink. Every step below is one stretch of code between two awaits. */
module EventChannel {
  import opened Options

  type Event = string

  /** A queued event and the push call waiting on it. */
  datatype Pending = Pending(push: nat, event: Event)

  datatype Settlement = Settlement(push: nat, ok: bool)

  /** Channel state, the calls in progress, and the history: `enqueued` in order, `sunk` the items
      whose sink call has ended, `settled` how each push ended, `flushed` the flush calls that have
      returned with the number of events that had been enqueued when they were made. */
  datatype Channel = Channel(
    max: nat, low: nat, queue: seq<Pending>, flushing: bool, sinking: Option<Pending>,
    capacityWaiters: seq<nat>, idleWaiters: seq<(nat, nat)>,
    woken: set<nat>, admitted: set<nat>, events: map<nat, Event>,
    enqueued: seq<Pending>, sunk: seq<Pending>, settled: seq<Settlement>, flushed: seq<(nat, nat)>)

  function Max(a: int, b: int): int { if a > b then a else b }
  function Min(a: int, b: int): int { if a < b then a else b }

  function HighWatermark(maxBufferedEvents: Option<int>): nat {
    Max(20, if maxBufferedEvents.Some? then maxBufferedEvents.value else 400)
  }

  function LowWatermark(max: nat, lowWatermark: Option<int>): nat
    requires max >= 20
  {
    Min(max - 1, Max(1, if lowWatermark.Some? then lowWatermark.value else max * 65 / 100))
  }

  function Fresh(maxBufferedEvents: Option<int>, lowWatermark: Option<int>): Channel {
    var max := HighWatermark(maxBufferedEvents);
    Channel(max, LowWatermark(max, lowWatermark), [], false, None, [], [], {}, {}, map[], [], [], [], [])
  }

  datatype Step =
    | Push(push: nat, event: Event)
    | Resume(push: nat)
    | Enqueue(push: nat)
    | Flush(flush: nat)
    | SinkEnded(ok: bool)

  predicate Enabled(c: Channel, step: Step) {
    match step
    case Push(p, _) => p !in c.events
    case Resume(p) => p in c.woken && p in c.events
    case Enqueue(p) => p in c.admitted && p in c.events
    case Flush(_) => true
    case SinkEnded(_) => c.sinking.Some?
  }

  /** The capacity check of waitForCapacity. */
  function CheckCapacity(c: Channel, p: nat): Channel {
    if |c.queue| >= c.max then c.(capacityWaiters := c.capacityWaiters + [p])
    else c.(admitted := c.admitted + {p})
  }

  /** The head of the flush loop: take the next event to the sink, or leave the loop. */
  function LoopHead(c: Channel): Channel {
    if c.queue != [] then c.(sinking := Some(c.queue[0]), queue := c.queue[1..])
    else c.(flushing := false, sinking := None, idleWaiters := [], flushed := c.flushed + c.idleWaiters)
  }

  function ScheduleFlush(c: Channel): Channel {
    if c.flushing then c else LoopHead(c.(flushing := true))
  }

  function Elements(s: seq<nat>): set<nat> {
    set x | x in s
  }

  function NotifyCapacityWaiters(c: Channel): Channel {
    if |c.queue| > c.low then c
    else c.(capacityWaiters := [], woken := c.woken + Elements(c.capacityWaiters))
  }

  function Do(c: Channel, step: Step): Channel
    requires Enabled(c, step)
  {
    match step
    case Push(p, event) => CheckCapacity(c.(events := c.events[p := event]), p)
    case Resume(p) => CheckCapacity(c.(woken := c.woken - {p}), p)
    case Enqueue(p) =>
      var item := Pending(p, c.events[p]);
      ScheduleFlush(c.(admitted := c.admitted - {p}, queue := c.queue + [item], enqueued := c.enqueued + [item]))
    case Flush(f) =>
      if !c.flushing && c.queue == [] then c.(flushed := c.flushed + [(f, |c.enqueued|)])
      else ScheduleFlush(c.(idleWaiters := c.idleWaiters + [(f, |c.enqueued|)]))
    case SinkEnded(ok) =>
      var item := c.sinking.value;
      LoopHead(NotifyCapacityWaiters(c.(sinking := None, sunk := c.sunk + [item],
                                        settled := c.settled + [Settlement(item.push, ok)])))
  }

  function Run(c: Channel, steps: seq<Step>): Channel
    decreases |steps|
  {
    if steps == [] then c else Run(if Enabled(c, steps[0]) then Do(c, steps[0]) else c, steps[1..])
  }

  // ---- the invariant ----

  function Sinking(c: Channel): seq<Pending> {
    if c.sinking.Some? then [c.sinking.value] else []
  }

  ghost predicate Distinct(s: seq<nat>) {
    forall i, j :: 0 <= i < j < |s| ==> s[i] != s[j]
  }

  /** No lost wake-up: when the loop is not running nothing is queued and nobody waits. */
  ghost predicate Awake(c: Channel) {
    && (c.flushing <==> c.sinking.Some?)
    && (!c.flushing ==> c.queue == [] && c.capacityWaiters == [] && c.idleWaiters == [])
  }

  /** Every enqueued event is in exactly one place, in enqueue order. */
  ghost predicate Ordered(c: Channel) {
    && c.enqueued == c.sunk + Sinking(c) + c.queue
    && |c.settled| == |c.sunk|
    && forall i :: 0 <= i < |c.sunk| ==> c.settled[i].push == c.sunk[i].push
  }

  /** Every push call is in exactly one stage. */
  ghost predicate Staged(c: Channel) {
    && (forall p :: p in c.woken || p in c.admitted || p in c.capacityWaiters ==> p in c.events)
    && c.woken !! c.admitted
    && (forall p :: p in c.capacityWaiters ==> p !in c.woken && p !in c.admitted)
    && Distinct(c.capacityWaiters)
    && (forall i :: 0 <= i < |c.enqueued| ==>
          var p := c.enqueued[i].push;
          p in c.events && c.events[p] == c.enqueued[i].event
          && p !in c.woken && p !in c.admitted && p !in c.capacityWaiters)
    && (forall i, j :: 0 <= i < j < |c.enqueued| ==> c.enqueued[i].push != c.enqueued[j].push)
    && (forall p :: p in c.events ==> p in c.woken || p in c.admitted || p in c.capacityWaiters || WasEnqueued(c, p))
  }

  ghost predicate WasEnqueued(c: Channel, p: nat) {
    exists i :: 0 <= i < |c.enqueued| && c.enqueued[i].push == p
  }

  ghost predicate FlushesOk(c: Channel) {
    && (forall i :: 0 <= i < |c.idleWaiters| ==> c.idleWaiters[i].1 <= |c.enqueued|)
    && (forall i :: 0 <= i < |c.flushed| ==> c.flushed[i].1 <= |c.sunk|)
  }

  ghost predicate Inv(c: Channel) {
    && 1 <= c.low < c.max && Awake(c) && Ordered(c) && Staged(c) && FlushesOk(c)
  }

  lemma CheckCapacityKeeps(c: Channel, p: nat)
    requires 1 <= c.low < c.max && Awake(c) && Ordered(c) && FlushesOk(c)
    requires Staged(c.(admitted := c.admitted + {p})) && p !in c.woken && p !in c.admitted && p !in c.capacityWaiters
    ensures Inv(CheckCapacity(c, p))
  {
    var d := CheckCapacity(c, p);
    forall q | q in d.events ensures q in d.woken || q in d.admitted || q in d.capacityWaiters || WasEnqueued(d, q) {
      assert WasEnqueued(c.(admitted := c.admitted + {p}), q) <==> WasEnqueued(d, q);
    }
  }

  lemma PushKeeps(c: Channel, p: nat, event: Event)
    requires Inv(c) && p !in c.events
    ensures Inv(Do(c, Push(p, event)))
  {
    var d := c.(events := c.events[p := event]);
    var e := d.(admitted := d.admitted + {p});
    forall q | q in e.events ensures q in e.woken || q in e.admitted || q in e.capacityWaiters || WasEnqueued(e, q) {
      assert WasEnqueued(c, q) <==> WasEnqueued(e, q);
    }
    CheckCapacityKeeps(d, p);
  }

  lemma ResumeKeeps(c: Channel, p: nat)
    requires Inv(c) && Enabled(c, Resume(p))
    ensures Inv(Do(c, Resume(p)))
  {
    var d := c.(woken := c.woken - {p});
    var e := d.(admitted := d.admitted + {p});
    forall q | q in e.events ensures q in e.woken || q in e.admitted || q in e.capacityWaiters || WasEnqueued(e, q) {
      assert WasEnqueued(c, q) <==> WasEnqueued(e, q);
    }
    CheckCapacityKeeps(d, p);
  }

  lemma EnqueueStages(c: Channel, p: nat, d: Channel)
    requires Inv(c) && Enabled(c, Enqueue(p))
    requires d.enqueued == c.enqueued + [Pending(p, c.events[p])] && d.admitted == c.admitted - {p}
    requires d.woken == c.woken && d.capacityWaiters == c.capacityWaiters && d.events == c.events
    ensures Staged(d)
  {
    forall q | q in d.events ensures q in d.woken || q in d.admitted || q in d.capacityWaiters || WasEnqueued(d, q) {
      if q == p {
        assert d.enqueued[|c.enqueued|].push == p;
      } else if WasEnqueued(c, q) {
        var i :| 0 <= i < |c.enqueued| && c.enqueued[i].push == q;
        assert d.enqueued[i].push == q;
      }
    }
  }

  lemma EnqueueOrders(c: Channel, p: nat)
    requires Inv(c) && Enabled(c, Enqueue(p))
    ensures var d := Do(c, Enqueue(p)); Ordered(d) && Awake(d) && FlushesOk(d)
  {
    var item := Pending(p, c.events[p]);
    if c.flushing {
      assert c.enqueued + [item] == c.sunk + Sinking(c) + (c.queue + [item]);
    } else {
      assert c.queue + [item] == [item] && [item][1..] == [];
      assert c.enqueued + [item] == c.sunk + [item] + [];
    }
  }

  lemma EnqueueKeeps(c: Channel, p: nat)
    requires Inv(c) && Enabled(c, Enqueue(p))
    ensures Inv(Do(c, Enqueue(p)))
  {
    EnqueueOrders(c, p);
    EnqueueStages(c, p, Do(c, Enqueue(p)));
  }

  lemma FlushKeeps(c: Channel, f: nat)
    requires Inv(c)
    ensures Inv(Do(c, Flush(f)))
  {
    var d := Do(c, Flush(f));
    assert forall q :: WasEnqueued(c, q) <==> WasEnqueued(d, q);
    if !c.flushing {
      assert |c.enqueued| == |c.sunk|;
    }
  }

  lemma SinkEndedOrders(c: Channel, ok: bool)
    requires Inv(c) && c.sinking.Some?
    ensures Ordered(Do(c, SinkEnded(ok))) && Awake(Do(c, SinkEnded(ok))) && FlushesOk(Do(c, SinkEnded(ok)))
  {
    var d := Do(c, SinkEnded(ok));
    if c.queue != [] {
      assert c.queue == [c.queue[0]] + c.queue[1..];
      assert d.enqueued == d.sunk + [c.queue[0]] + c.queue[1..];
    } else {
      assert d.enqueued == d.sunk;
    }
  }

  lemma SinkEndedKeeps(c: Channel, ok: bool)
    requires Inv(c) && c.sinking.Some?
    ensures Inv(Do(c, SinkEnded(ok)))
  {
    SinkEndedOrders(c, ok);
    var d := Do(c, SinkEnded(ok));
    assert forall q :: WasEnqueued(c, q) <==> WasEnqueued(d, q);
  }

  lemma StepKeeps(c: Channel, step: Step)
    requires Inv(c) && Enabled(c, step)
    ensures Inv(Do(c, step))
  {
    match step
    case Push(p, event) => PushKeeps(c, p, event);
    case Resume(p) => ResumeKeeps(c, p);
    case Enqueue(p) => EnqueueKeeps(c, p);
    case Flush(f) => FlushKeeps(c, f);
    case SinkEnded(ok) => SinkEndedKeeps(c, ok);
  }

  // ---- main results, over every run ----

  lemma FreshOk(maxBufferedEvents: Option<int>, lowWatermark: Option<int>)
    ensures Inv(Fresh(maxBufferedEvents, lowWatermark))
  {
  }

  lemma {:induction false} RunKeeps(c: Channel, steps: seq<Step>)
    requires Inv(c)
    ensures Inv(Run(c, steps))
    decreases |steps|
  {
    if steps != [] {
      if Enabled(c, steps[0]) {
        StepKeeps(c, steps[0]);
        RunKeeps(Do(c, steps[0]), steps[1..]);
      } else {
        RunKeeps(c, steps[1..]);
      }
    }
  }

  ghost predicate Reachable(c: Channel) {
    exists max, low, steps :: c == Run(Fresh(max, low), steps)
  }

  lemma ReachableOk(c: Channel)
    requires Reachable(c)
    ensures Inv(c)
  {
    var max, low, steps :| c == Run(Fresh(max, low), steps);
    FreshOk(max, low);
    RunKeeps(Fresh(max, low), steps);
  }

  /** No lost wake-up: outside the flush loop nothing is queued and nobody waits. */
  lemma NoLostWakeUp(c: Channel)
    requires Reachable(c) && !c.flushing
    ensures c.queue == [] && c.capacityWaiters == [] && c.idleWaiters == [] && c.sunk == c.enqueued
  {
    ReachableOk(c);
  }

  /** Events reach the sink in enqueue order, each exactly once, and each push settles exactly once,
      when its own sink call has ended. */
  lemma SinkOrder(c: Channel)
    requires Reachable(c)
    ensures c.sunk + Sinking(c) <= c.enqueued
    ensures forall i, j :: 0 <= i < j < |c.enqueued| ==> c.enqueued[i].push != c.enqueued[j].push
    ensures |c.settled| == |c.sunk| && forall i :: 0 <= i < |c.settled| ==> c.settled[i].push == c.sunk[i].push
    ensures forall i, j :: 0 <= i < j < |c.settled| ==> c.settled[i].push != c.settled[j].push
  {
    ReachableOk(c);
    forall i | 0 <= i < |c.sunk| ensures c.sunk[i] == c.enqueued[i] {
    }
  }

  /** A flush that has returned returned after every event enqueued before it was sunk. */
  lemma FlushWaitsForAll(c: Channel, i: nat)
    requires Reachable(c) && i < |c.flushed|
    ensures c.flushed[i].1 <= |c.sunk| <= |c.enqueued| && c.enqueued[..c.flushed[i].1] == c.sunk[..c.flushed[i].1]
  {
    ReachableOk(c);
  }

  // ---- liveness: every call in progress ends ----

  lemma {:induction false} ElementsCount(s: seq<nat>)
    requires Distinct(s)
    ensures |Elements(s)| == |s|
  {
    if s != [] {
      var front := s[..|s| - 1];
      ElementsCount(front);
      assert Elements(s) == Elements(front) + {s[|s| - 1]};
    }
  }

  /** Pushes whose event the sink is not done with. */
  function Unsunk(c: Channel): nat {
    |c.capacityWaiters| + |c.woken| + |c.admitted| + |c.queue| + |Sinking(c)|
  }

  function Moves(c: Channel): nat {
    2 * |c.woken| + |c.admitted|
  }

  ghost predicate Advances(c: Channel, d: Channel) {
    Unsunk(d) < Unsunk(c) || (Unsunk(d) == Unsunk(c) && Moves(d) < Moves(c))
  }

  lemma SinkAdvances(c: Channel, ok: bool)
    requires Inv(c) && Enabled(c, SinkEnded(ok))
    ensures Advances(c, Do(c, SinkEnded(ok)))
  {
    ElementsCount(c.capacityWaiters);
    assert c.woken !! Elements(c.capacityWaiters);
    assert |c.woken + Elements(c.capacityWaiters)| == |c.woken| + |c.capacityWaiters|;
  }

  lemma StepAdvances(c: Channel, step: Step)
    requires Inv(c) && Enabled(c, step) && !step.Push? && !step.Flush?
    ensures Advances(c, Do(c, step))
  {
    if step.SinkEnded? {
      SinkAdvances(c, step.ok);
    }
  }

  /** While a push is unsettled or a flush waits, some step of the channel itself can be taken. */
  lemma SomeStepEnabled(c: Channel) returns (step: Step)
    requires Inv(c) && (Unsunk(c) > 0 || c.idleWaiters != [])
    ensures Enabled(c, step) && !step.Push? && !step.Flush?
  {
    if c.sinking.Some? {
      step := SinkEnded(true);
    } else if c.woken != {} {
      var p :| p in c.woken;
      step := Resume(p);
    } else {
      assert |c.admitted| > 0;
      var p :| p in c.admitted;
      step := Enqueue(p);
    }
  }

  predicate Internal(step: Step) {
    step.Resume? || step.Enqueue? || step.SinkEnded?
  }

  /** How many steps of a schedule are really taken. */
  function Taken(c: Channel, schedule: seq<Step>): nat
    decreases |schedule|
  {
    if schedule == [] then 0
    else if Enabled(c, schedule[0]) then 1 + Taken(Do(c, schedule[0]), schedule[1..])
    else Taken(c, schedule[1..])
  }

  lemma {:induction false} MultiplesApart(x: nat, y: nat, k: nat)
    requires y < x
    ensures y * k + k <= x * k
    decreases x
  {
    assert (x - 1) * k + k == x * k;
    if y < x - 1 {
      MultiplesApart(x - 1, y, k);
    }
  }

  ghost function Bound(c: Channel, k: nat): nat {
    Unsunk(c) * k + Moves(c)
  }

  lemma BoundDrops(c: Channel, d: Channel, k: nat)
    requires Moves(d) < k
    requires Unsunk(d) < Unsunk(c) || (Unsunk(d) == Unsunk(c) && Moves(d) < Moves(c))
    ensures Bound(d, k) < Bound(c, k)
  {
    if Unsunk(d) < Unsunk(c) {
      MultiplesApart(Unsunk(c), Unsunk(d), k);
    }
  }

  lemma {:induction false} TakenIsBounded(c: Channel, schedule: seq<Step>, k: nat)
    requires Inv(c) && 2 * Unsunk(c) < k && forall i :: 0 <= i < |schedule| ==> Internal(schedule[i])
    ensures Taken(c, schedule) <= Bound(c, k)
    decreases |schedule|
  {
    if schedule != [] {
      if Enabled(c, schedule[0]) {
        var d := Do(c, schedule[0]);
        StepKeeps(c, schedule[0]);
        StepAdvances(c, schedule[0]);
        TakenIsBounded(d, schedule[1..], k);
        BoundDrops(c, d, k);
      } else {
        TakenIsBounded(c, schedule[1..], k);
      }
    }
  }

  /** Once no new calls arrive: in whatever order the pending steps are taken and however the sink
      calls end, only boundedly many steps can be taken, and when none is left every push has
      settled, every flush has returned and every event enqueued has been through the sink. */
  lemma {:induction false} EveryCallEnds(c: Channel, schedule: seq<Step>)
    requires Reachable(c) && forall i :: 0 <= i < |schedule| ==> Internal(schedule[i])
    ensures Taken(c, schedule) <= Bound(c, 2 * Unsunk(c) + 1)
    ensures var d := Run(c, schedule);
            (forall step :: Internal(step) ==> !Enabled(d, step)) ==>
              Unsunk(d) == 0 && d.idleWaiters == [] && d.enqueued == d.sunk && !d.flushing
  {
    ReachableOk(c);
    TakenIsBounded(c, schedule, 2 * Unsunk(c) + 1);
    RunKeeps(c, schedule);
    var d := Run(c, schedule);
    if Unsunk(d) > 0 || d.idleWaiters != [] {
      var step := SomeStepEnabled(d);
    } else {
      assert d.enqueued == d.sunk;
    }
  }

  // ---- the object ----

  class RunEventChannel {
    const max: nat
    const low: nat
    var queue: seq<Pending>
    var capacityWaiters: seq<nat>
    var idleWaiters: seq<(nat, nat)>
    var flushing: bool
    var sinking: Option<Pending>
    // calls between two awaits, and the history
    var woken: set<nat>
    var admitted: set<nat>
    var events: map<nat, Event>
    ghost var enqueued: seq<Pending>
    ghost var sunk: seq<Pending>
    var settled: seq<Settlement>
    var flushed: seq<(nat, nat)>
    var enqueuedCount: nat

    ghost function View(): Channel
      reads this
    {
      Channel(max, low, queue, flushing, sinking, capacityWaiters, idleWaiters, woken, admitted, events,
              enqueued, sunk, settled, flushed)
    }

    ghost predicate Valid()
      reads this
    {
      Inv(View()) && enqueuedCount == |enqueued|
    }

    constructor (maxBufferedEvents: Option<int>, lowWatermark: Option<int>)
      ensures Valid() && View() == Fresh(maxBufferedEvents, lowWatermark)
    {
      max := HighWatermark(maxBufferedEvents);
      low := LowWatermark(HighWatermark(maxBufferedEvents), lowWatermark);
      queue, capacityWaiters, idleWaiters, flushing, sinking := [], [], [], false, None;
      woken, admitted, events := {}, {}, map[];
      enqueued, sunk, settled, flushed, enqueuedCount := [], [], [], [], 0;
    }

    method WaitForCapacity(p: nat)
      modifies `capacityWaiters, `admitted
      ensures View() == CheckCapacity(old(View()), p)
    {
      if |queue| >= max {
        capacityWaiters := capacityWaiters + [p];
      } else {
        admitted := admitted + {p};
      }
    }

    method Push(p: nat, event: Event)
      requires Valid() && p !in events
      modifies this
      ensures Valid() && View() == Do(old(View()), Step.Push(p, event))
    {
      PushKeeps(View(), p, event);
      events := events[p := event];
      WaitForCapacity(p);
    }

    method Resume(p: nat)
      requires Valid() && p in woken
      modifies this
      ensures Valid() && View() == Do(old(View()), Step.Resume(p))
    {
      ResumeKeeps(View(), p);
      woken := woken - {p};
      WaitForCapacity(p);
    }

    method Enqueue(p: nat)
      requires Valid() && p in admitted
      modifies this
      ensures Valid() && View() == Do(old(View()), Step.Enqueue(p))
    {
      EnqueueKeeps(View(), p);
      Join(p);
    }

    method Join(p: nat)
      requires p in admitted && p in events && enqueuedCount == |enqueued|
      modifies this
      ensures View() == Do(old(View()), Step.Enqueue(p)) && enqueuedCount == |enqueued|
    {
      var item := Pending(p, events[p]);
      admitted := admitted - {p};
      queue := queue + [item];
      enqueued, enqueuedCount := enqueued + [item], enqueuedCount + 1;
      Schedule();
    }

    method Flush(f: nat)
      requires Valid()
      modifies this
      ensures Valid() && View() == Do(old(View()), Step.Flush(f))
    {
      FlushKeeps(View(), f);
      if !flushing && |queue| == 0 {
        flushed := flushed + [(f, enqueuedCount)];
        return;
      }
      idleWaiters := idleWaiters + [(f, enqueuedCount)];
      Schedule();
    }

    method Schedule()
      modifies this
      ensures View() == ScheduleFlush(old(View())) && enqueuedCount == old(enqueuedCount)
    {
      if flushing {
        return;
      }
      flushing := true;
      TakeNext();
    }

    method TakeNext()
      modifies this
      ensures View() == LoopHead(old(View())) && enqueuedCount == old(enqueuedCount)
    {
      if |queue| > 0 {
        sinking := Some(queue[0]);
        queue := queue[1..];
      } else {
        flushing := false;
        sinking := None;
        ResolveIdleWaiters();
      }
    }

    method ResolveIdleWaiters()
      modifies `idleWaiters, `flushed
      ensures idleWaiters == [] && flushed == old(flushed) + old(idleWaiters)
    {
      var waiters := idleWaiters;
      idleWaiters := [];
      for i := 0 to |waiters|
        invariant idleWaiters == [] && flushed == old(flushed) + waiters[..i]
      {
        flushed := flushed + [waiters[i]];
        assert waiters[..i + 1] == waiters[..i] + [waiters[i]];
      }
      assert waiters[..|waiters|] == waiters;
    }

    method NotifyWaiters()
      modifies `capacityWaiters, `woken
      ensures View() == NotifyCapacityWaiters(old(View()))
    {
      if |queue| > low {
        return;
      }
      var waiters := capacityWaiters;
      capacityWaiters := [];
      for i := 0 to |waiters|
        invariant capacityWaiters == [] && woken == old(woken) + Elements(waiters[..i])
      {
        woken := woken + {waiters[i]};
        assert Elements(waiters[..i + 1]) == Elements(waiters[..i]) + {waiters[i]};
      }
      assert waiters[..|waiters|] == waiters;
    }

    method SinkDone(ok: bool)
      requires Valid() && sinking.Some?
      modifies this
      ensures Valid() && View() == Do(old(View()), SinkEnded(ok))
    {
      SinkEndedKeeps(View(), ok);
      var item := sinking.value;
      sinking := None;
      sunk := sunk + [item];
      settled := settled + [Settlement(item.push, ok)];
      NotifyWaiters();
      TakeNext();
    }
  }
}
