/** What the disk holds after any run of the feed, in terms of the writes made, and how a pass goes on. */
module FeedOutcomes {
  import opened Options
  import opened RunJournal
  import opened RunFeed

  /** How often a run's state was written. */
  function Writes(steps: seq<Step>, r: RunId): nat {
    if steps == [] then 0 else (if steps[0] == WriteState(r) then 1 else 0) + Writes(steps[1..], r)
  }

  /** The runs whose change was journaled, in order, and how often each had been written by then. */
  ghost function Journaled(s: Feed, steps: seq<Step>): seq<(RunId, nat)>
    decreases |steps|
  {
    if steps == [] then []
    else if Enabled(s, steps[0]) then
      Change(s.disk, steps[0]) + Journaled(Do(s, steps[0]), steps[1..])
    else Journaled(s, steps[1..])
  }

  function Revision(d: Disk, r: RunId): nat {
    if r in d.store then d.store[r] else 0
  }

  /** The journaled changes of a disk: the run of each id, and its revision then. */
  function History(d: Disk): seq<(RunId, nat)>
    requires |d.ids| == |d.versions|
  {
    seq(|d.ids|, i requires 0 <= i < |d.ids| => (d.ids[i], d.versions[i]))
  }

  /** Nothing is stored without a write. */
  ghost predicate OnlyWritten(d: Disk) {
    |d.ids| == |d.versions| && forall r :: r in d.store ==> d.store[r] > 0
  }

  function Pending(d: Disk, r: RunId): nat {
    d.writing[r]
  }

  function Mentions(changes: seq<(RunId, nat)>, r: RunId): nat {
    if changes == [] then 0 else (if changes[0].0 == r then 1 else 0) + Mentions(changes[1..], r)
  }

  lemma {:induction false} MentionsMore(changes: seq<(RunId, nat)>, more: seq<(RunId, nat)>, r: RunId)
    ensures Mentions(changes + more, r) == Mentions(changes, r) + Mentions(more, r)
  {
    if changes == [] {
      assert changes + more == more;
    } else {
      assert (changes + more)[1..] == changes[1..] + more;
      MentionsMore(changes[1..], more, r);
    }
  }

  ghost function Change(d: Disk, step: Step): seq<(RunId, nat)> {
    if step.AppendChange? then [(step.runId, Revision(d, step.runId))] else []
  }

  function IsWrite(step: Step, r: RunId): nat {
    if step == WriteState(r) then 1 else 0
  }

  lemma StepRevision(s: Feed, step: Step, r: RunId)
    requires Enabled(s, step) && OnlyWritten(s.disk)
    ensures OnlyWritten(Do(s, step).disk) && Revision(Do(s, step).disk, r) == Revision(s.disk, r) + IsWrite(step, r)
  {
  }

  lemma StepHistory(s: Feed, step: Step)
    requires Enabled(s, step) && OnlyWritten(s.disk)
    ensures OnlyWritten(Do(s, step).disk) && History(Do(s, step).disk) == History(s.disk) + Change(s.disk, step)
  {
  }

  lemma {:induction false} StepPending(s: Feed, step: Step, r: RunId)
    requires Enabled(s, step) && OnlyWritten(s.disk)
    ensures Pending(Do(s, step).disk, r) + Mentions(Change(s.disk, step), r) == Pending(s.disk, r) + IsWrite(step, r)
  {
    assert step.AppendChange? ==> Mentions(Change(s.disk, step), r) == if step.runId == r then 1 else 0;
  }

  lemma {:induction false} RunRevision(s: Feed, steps: seq<Step>, r: RunId)
    requires OnlyWritten(s.disk)
    ensures OnlyWritten(RunSteps(s, steps).disk) && Revision(RunSteps(s, steps).disk, r) == Revision(s.disk, r) + Writes(steps, r)
    decreases |steps|
  {
    if steps != [] {
      if Enabled(s, steps[0]) {
        StepRevision(s, steps[0], r);
        RunRevision(Do(s, steps[0]), steps[1..], r);
      } else {
        RunRevision(s, steps[1..], r);
      }
    }
  }

  lemma {:induction false} RunHistory(s: Feed, steps: seq<Step>)
    requires OnlyWritten(s.disk)
    ensures OnlyWritten(RunSteps(s, steps).disk) && History(RunSteps(s, steps).disk) == History(s.disk) + Journaled(s, steps)
    decreases |steps|
  {
    if steps != [] {
      if Enabled(s, steps[0]) {
        StepHistory(s, steps[0]);
        RunHistory(Do(s, steps[0]), steps[1..]);
      } else {
        RunHistory(s, steps[1..]);
      }
    }
  }

  lemma {:induction false} RunPending(s: Feed, steps: seq<Step>, r: RunId)
    requires OnlyWritten(s.disk)
    ensures Pending(RunSteps(s, steps).disk, r) + Mentions(Journaled(s, steps), r) == Pending(s.disk, r) + Writes(steps, r)
    decreases |steps|
  {
    if steps != [] {
      if Enabled(s, steps[0]) {
        StepHistory(s, steps[0]);
        StepPending(s, steps[0], r);
        RunPending(Do(s, steps[0]), steps[1..], r);
        MentionsMore(Change(s.disk, steps[0]), Journaled(Do(s, steps[0]), steps[1..]), r);
      } else {
        RunPending(s, steps[1..], r);
      }
    }
  }

  /** In every run of the feed the revision stored of a run is the number of its writes, the journal has
      numbered the changes in the order they were appended, each with the revision of that moment, and
      the writes that are still half done are those made and not yet journaled. */
  lemma DiskIsHistory(steps: seq<Step>, r: RunId)
    ensures var d := RunSteps(INIT, steps).disk;
            && (r in d.store <==> Writes(steps, r) > 0) && (r in d.store ==> d.store[r] == Writes(steps, r))
            && |d.ids| == |d.versions| == d.journal.cursor && History(d) == Journaled(INIT, steps)
            && d.writing[r] == Writes(steps, r) - Mentions(Journaled(INIT, steps), r)
  {
    RunRevision(INIT, steps, r);
    RunHistory(INIT, steps);
    RunPending(INIT, steps, r);
    InitOk();
    RunKeeps(INIT, steps);
    assert History(INIT.disk) == [];
  }

  /** Between passes the server sends the session data, or finds it unchanged, and goes on from where
      the snapshot or the batch ended; a connection that ends loses what is on the wire and nothing else. */
  lemma PassesGoOn(s: Feed, step: Step)
    requires Enabled(s, step) && (step.SendSession? || step.SkipSession? || step.Connect? || step.Disconnect?)
    ensures var d := Do(s, step);
            && d.disk == s.disk && d.client == s.client
            && (step.SendSession? || step.SkipSession? ==> d.server == Top(s.server.cursor, false))
            && (step.SendSession? ==> d.wire == s.wire + [Session(s.server.cursor)])
            && (step.SkipSession? ==> d.wire == s.wire)
            && (step.Disconnect? ==> d.wire == [] && d.server == Off)
            && (step.Connect? ==> d.wire == [] && (d.server == Top(0, true) <==> s.client.cursor.None?)
                                  && (s.client.cursor.Some? ==> d.server == Top(s.client.cursor.value, false)))
  {
  }
}
