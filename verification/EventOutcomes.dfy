/** What the calls of the event channel are answered, in which order, and when they wait. */
module EventOutcomes {
  import opened Options
  import opened EventChannel

  // ---- every call is accounted for ----

  /** The flush calls of a run, in order, each with the number of events enqueued before it. */
  ghost function FlushesMade(c: Channel, steps: seq<Step>): seq<(nat, nat)>
    decreases |steps|
  {
    if steps == [] then []
    else if Enabled(c, steps[0]) then
      (if steps[0].Flush? then [(steps[0].flush, |c.enqueued|)] else []) + FlushesMade(Do(c, steps[0]), steps[1..])
    else FlushesMade(c, steps[1..])
  }

  /** How the sink calls of a run ended, in order. */
  ghost function SinkResults(c: Channel, steps: seq<Step>): seq<bool>
    decreases |steps|
  {
    if steps == [] then []
    else if Enabled(c, steps[0]) then
      (if steps[0].SinkEnded? then [steps[0].ok] else []) + SinkResults(Do(c, steps[0]), steps[1..])
    else SinkResults(c, steps[1..])
  }

  function Flushes(c: Channel): seq<(nat, nat)> {
    c.flushed + c.idleWaiters
  }

  function Results(c: Channel): seq<bool> {
    seq(|c.settled|, i requires 0 <= i < |c.settled| => c.settled[i].ok)
  }

  lemma StepFlushes(c: Channel, step: Step)
    requires Inv(c) && Enabled(c, step)
    ensures Flushes(Do(c, step)) == Flushes(c) + if step.Flush? then [(step.flush, |c.enqueued|)] else []
  {
  }

  lemma StepResults(c: Channel, step: Step)
    requires Inv(c) && Enabled(c, step)
    ensures Results(Do(c, step)) == Results(c) + if step.SinkEnded? then [step.ok] else []
  {
  }

  lemma {:induction false} RunFlushes(c: Channel, steps: seq<Step>)
    requires Inv(c)
    ensures Flushes(Run(c, steps)) == Flushes(c) + FlushesMade(c, steps)
    decreases |steps|
  {
    if steps != [] {
      if Enabled(c, steps[0]) {
        StepKeeps(c, steps[0]);
        StepFlushes(c, steps[0]);
        RunFlushes(Do(c, steps[0]), steps[1..]);
      } else {
        RunFlushes(c, steps[1..]);
      }
    }
  }

  lemma {:induction false} RunResults(c: Channel, steps: seq<Step>)
    requires Inv(c)
    ensures Results(Run(c, steps)) == Results(c) + SinkResults(c, steps)
    decreases |steps|
  {
    if steps != [] {
      if Enabled(c, steps[0]) {
        StepKeeps(c, steps[0]);
        StepResults(c, steps[0]);
        RunResults(Do(c, steps[0]), steps[1..]);
      } else {
        RunResults(c, steps[1..]);
      }
    }
  }

  /** In every run the flushes that have returned are the first flush calls made, in call order, and the
      others still wait, each for the events enqueued before it; when no event is left all have returned.
      The pushes settle as the sink calls ended, in the order of the events. */
  lemma EveryCallIsAnswered(maxBufferedEvents: Option<int>, lowWatermark: Option<int>, steps: seq<Step>)
    ensures var start := Fresh(maxBufferedEvents, lowWatermark);
            var c := Run(start, steps);
            && Flushes(c) == FlushesMade(start, steps)
            && Results(c) == SinkResults(start, steps)
            && (c.sunk == c.enqueued ==> c.flushed == FlushesMade(start, steps))
  {
    var start := Fresh(maxBufferedEvents, lowWatermark);
    var c := Run(start, steps);
    FreshOk(maxBufferedEvents, lowWatermark);
    RunFlushes(start, steps);
    RunResults(start, steps);
    RunKeeps(start, steps);
    if c.sunk == c.enqueued {
      assert |Sinking(c)| == 0;
    }
  }

  // ---- the watermarks ----

  /** A push, or one that is woken, waits exactly while the queue has reached the high watermark; it
      waits behind the others, and goes on otherwise. */
  lemma WaitsAtHighWatermark(c: Channel, step: Step)
    requires Inv(c) && Enabled(c, step) && (step.Push? || step.Resume?)
    ensures var (d, p) := (Do(c, step), step.push);
            && d.queue == c.queue && d.sinking == c.sinking && d.flushing == c.flushing
            && (p in d.admitted <==> |c.queue| < c.max)
            && (p in d.capacityWaiters <==> |c.queue| >= c.max)
            && d.admitted - {p} == c.admitted && c.capacityWaiters <= d.capacityWaiters <= c.capacityWaiters + [p]
            && d.woken == c.woken - {p}
  {
  }

  /** When a sink call ends, all waiting pushes are woken if the queue is down to the low watermark, and none otherwise. */
  lemma WokenAtLowWatermark(c: Channel, ok: bool)
    requires Inv(c) && Enabled(c, SinkEnded(ok))
    ensures var d := Do(c, SinkEnded(ok));
            && d.admitted == c.admitted && c.woken <= d.woken
            && (|c.queue| <= c.low ==> d.capacityWaiters == [] && forall p :: p in d.woken <==> p in c.woken || p in c.capacityWaiters)
            && (|c.queue| > c.low ==> d.capacityWaiters == c.capacityWaiters && d.woken == c.woken)
  {
  }

  /** The watermarks are the configured ones, brought into range, or 400 and 65 percent. */
  lemma WatermarksAre(maxBufferedEvents: Option<int>, lowWatermark: Option<int>)
    ensures var c := Fresh(maxBufferedEvents, lowWatermark);
            && c.max >= 20 && 1 <= c.low < c.max
            && (maxBufferedEvents.None? ==> c.max == 400)
            && (maxBufferedEvents.Some? ==> c.max == 20 || c.max == maxBufferedEvents.value)
            && (maxBufferedEvents.Some? ==> c.max >= maxBufferedEvents.value)
            && (lowWatermark.None? ==> c.low * 100 <= c.max * 65 < c.low * 100 + 100)
            && (lowWatermark.Some? && 1 <= lowWatermark.value < c.max ==> c.low == lowWatermark.value)
            && (lowWatermark.Some? && lowWatermark.value < 1 ==> c.low == 1)
            && (lowWatermark.Some? && lowWatermark.value >= c.max ==> c.low == c.max - 1)
  {
  }
}
