/** The objects at both ends of the feed, tied to the steps of RunFeed. */
module ConversationStream {
  import opened Options
  import opened RunJournal
  import opened RunFeed

  lemma {:induction false} RunOne(s: Feed, steps: seq<Step>, step: Step)
    requires Enabled(RunSteps(s, steps), step)
    ensures RunSteps(s, steps + [step]) == Do(RunSteps(s, steps), step)
  {
    var t := RunSteps(s, steps);
    RunAppend(s, steps, [step]);
    assert RunSteps(t, [step]) == RunSteps(Do(t, step), []);
  }

  /** The client's `current`. */
  class Watcher {
    var cursor: Option<nat>
    var held: map<RunId, nat>
    ghost var base: nat
    ghost var seen: map<RunId, nat>

    ghost function View(): Client
      reads this
    {
      Client(cursor, held, base, seen)
    }

    constructor ()
      ensures View() == NEW_CLIENT
    {
      cursor := None;
      held := map[];
      base := 0;
      seen := map[];
    }

    /** One parsed frame; `ok` is false where the client gives the stream up with an error. */
    method Receive(f: Frame) returns (ok: bool)
      modifies this
      ensures View() == Apply(old(View()), f)
      ensures ok == (f.Snapshot? || old(cursor).Some?)
    {
      ok := true;
      match f
      case Snapshot(watermark, runs) =>
        cursor := Some(watermark);
        held := runs;
        base := watermark;
        seen := seen + runs;
      case Run(id, runId, version) =>
        if cursor.None? {
          ok := false;
        } else if cursor.value < id {
          cursor := Some(id);
          held := held[runId := version];
          seen := seen[runId := version];
        }
      case Session(at) =>
        if cursor.None? {
          ok := false;
        } else {
          cursor := Some(at);
        }
    }
  }

  // ---- the server beside the writers ----

  predicate ByWriters(steps: seq<Step>) {
    forall i :: 0 <= i < |steps| ==> steps[i].WriteState? || steps[i].AppendChange?
  }

  /** All that a writer sees. */
  ghost predicate SameFiles(s: Feed, t: Feed) {
    s.disk.store == t.disk.store && s.disk.writing == t.disk.writing && s.disk.journal == t.disk.journal
  }

  lemma WriterStep(t: Feed, s: Feed, step: Step)
    requires SameFiles(t, s) && (step.WriteState? || step.AppendChange?)
    ensures Enabled(t, step) <==> Enabled(s, step)
    ensures Enabled(t, step) ==>
              && SameFiles(Do(t, step), Do(s, step)) && s.disk.store.Keys <= Do(s, step).disk.store.Keys
              && Do(s, step) == s.(disk := Do(s, step).disk)
  {
  }

  /** Writers do the same whatever the server and the client are at, and leave those alone. */
  lemma {:induction false} RunWriters(t: Feed, s: Feed, steps: seq<Step>)
    requires SameFiles(t, s) && ByWriters(steps)
    ensures var (u, v) := (RunSteps(t, steps), RunSteps(s, steps));
            SameFiles(u, v) && s.disk.store.Keys <= v.disk.store.Keys && v == s.(disk := v.disk)
    decreases |steps|
  {
    if steps != [] {
      assert ByWriters(steps[1..]);
      WriterStep(t, s, steps[0]);
      RunWriters(if Enabled(t, steps[0]) then Do(t, steps[0]) else t,
                 if Enabled(s, steps[0]) then Do(s, steps[0]) else s, steps[1..]);
    }
  }

  /** The server's side of one connection, and the writers with what they will do at each await. */
  class StreamLoop {
    const storage: RunStorage
    const requested: Option<nat>
    var cursor: nat
    var initial: bool
    var sent: seq<Frame>
    var writing: multiset<RunId>
    var coming: seq<seq<Step>>
    ghost const start: Feed
    ghost var trace: seq<Step>

    /** Enters the system where the connection has just been made. */
    constructor (storage: RunStorage, requested: Option<nat>, writing: multiset<RunId>, coming: seq<seq<Step>>, ghost s: Feed)
      requires s.disk.store == storage.states && s.disk.journal == storage.View() && s.disk.writing == writing
      requires s.server == (if requested.None? then Top(0, true) else Top(requested.value, false))
      requires forall i :: 0 <= i < |coming| ==> ByWriters(coming[i])
      ensures this.storage == storage && this.requested == requested && start == s && trace == []
      ensures cursor == (if requested.None? then 0 else requested.value) && initial && sent == []
      ensures At(Top(cursor, initial && requested.None?))
    {
      this.storage := storage;
      this.requested := requested;
      cursor := if requested.None? then 0 else requested.value;
      initial := true;
      sent := [];
      this.writing, this.coming := writing, coming;
      start, trace := s, [];
      new;
      assert s.wire + [] == s.wire;
    }

    /** The system after everything that happened since the connection was made. */
    ghost function Now(): Feed
      reads this
    {
      RunSteps(start, trace)
    }

    /** The system's server is here, over the storage's files, and has sent what this object sent. */
    ghost predicate At(server: Server)
      reads this, storage
    {
      && (forall i :: 0 <= i < |coming| ==> ByWriters(coming[i]))
      && Now().disk.store == storage.states && Now().disk.journal == storage.View() && Now().disk.writing == writing
      && Now().server == server && Now().wire == start.wire + sent
    }

    /** An await: writers go on. */
    method Await(ghost server: Server)
      requires At(server)
      modifies this`writing, this`coming, this`trace, storage
      ensures At(server) && old(storage.states.Keys) <= storage.states.Keys
    {
      if coming == [] {
        return;
      }
      var t := Feed(Disk(storage.states, writing, Journal(storage.cursor, storage.changes), [], []), Off, [], NEW_CLIENT);
      RunWriters(t, Now(), coming[0]);
      RunAppend(start, trace, coming[0]);
      var u := RunSteps(t, coming[0]).disk;
      trace := trace + coming[0];
      storage.states, storage.cursor, storage.changes := u.store, u.journal.cursor, u.journal.changes;
      writing := u.writing;
      coming := coming[1..];
    }

    /** The loop's own step. */
    ghost method Take(step: Step)
      requires Enabled(Now(), step)
      modifies `trace
      ensures Now() == Do(old(Now()), step)
    {
      RunOne(start, trace, step);
      trace := trace + [step];
    }

    /** The runs of the history, read one after the other while writers go on. */
    method ReadHistory(listed: seq<RunId>, watermark: nat) returns (got: map<RunId, nat>)
      requires At(Listing(watermark, map[])) && forall r :: r in listed ==> r in storage.states
      modifies this`writing, this`coming, this`trace, storage
      ensures At(Listing(watermark, got)) && got.Keys == set r | r in listed
    {
      got := map[];
      for i := 0 to |listed|
        invariant At(Listing(watermark, got)) && forall r :: r in listed ==> r in storage.states
        invariant got.Keys == set r | r in listed[..i]
      {
        Await(Listing(watermark, got));
        Take(ReadRun(listed[i]));
        got := got[listed[i] := storage.states[listed[i]]];
      }
      assert listed[..|listed|] == listed;
    }

    /** The frame goes on the wire. */
    method Send(frame: Frame, ghost step: Step, ghost server: Server)
      requires Enabled(Now(), step) && (forall i :: 0 <= i < |coming| ==> ByWriters(coming[i]))
      requires Do(Now(), step) == Now().(wire := Now().wire + [frame], server := server)
      requires At(Now().server)
      modifies `sent, `trace
      ensures At(server) && sent == old(sent) + [frame]
    {
      Take(step);
      sent := sent + [frame];
    }

    /** The coalesced batch: each run as it is stored when its turn comes. */
    method SendBatch(latest: seq<Change>, target: nat)
      requires At(Replay(latest, target))
      modifies this`writing, this`coming, this`trace, this`sent, storage
      ensures At(Replay([], target)) && old(sent) <= sent
    {
      for i := 0 to |latest|
        invariant At(Replay(latest[i..], target)) && old(sent) <= sent
      {
        var change := latest[i];
        Await(Replay(latest[i..], target));
        Take(FetchRun);
        if change.runId in storage.states {
          var version := storage.states[change.runId];
          Await(Fetched(version, latest[i..], target));
          Send(Frame.Run(change.id, change.runId, version), SendRun, Replay(latest[i + 1..], target));
        }
      }
      assert latest[|latest|..] == [];
    }

    /** `changesSince`: the journal is read, and the way to go chosen. */
    method ReadJournalFile() returns (changes: RunChanges)
      requires At(Top(cursor, initial && requested.None?))
      modifies this`writing, this`coming, this`trace, storage
      ensures old(storage.states.Keys) <= storage.states.Keys
      ensures At(if changes.reset || (initial && requested.None?) then Listing(changes.cursor, map[])
                 else Replay(Latest(changes.changes), changes.cursor))
    {
      Await(Top(cursor, initial && requested.None?));
      changes := storage.Read(cursor);
      Take(ReadJournal);
    }

    method SendHistory(listed: seq<RunId>)
      requires At(Listing(cursor, map[])) && forall r :: r in listed ==> r in storage.states
      modifies this`writing, this`coming, this`trace, this`sent, storage
      ensures At(Meta(cursor)) && old(sent) <= sent
    {
      var got := ReadHistory(listed, cursor);
      Send(Snapshot(cursor, got), SendSnapshot, Meta(cursor));
    }

    method SendChanges(changes: RunChanges)
      requires At(Replay(Latest(changes.changes), cursor))
      modifies this`writing, this`coming, this`trace, this`sent, storage
      ensures At(Meta(cursor)) && old(sent) <= sent
    {
      SendBatch(Latest(changes.changes), cursor);
      Take(EndReplay);
    }

    /** The session's metadata, if it is due and has changed. */
    method SendMetadata(due: bool)
      requires At(Meta(cursor))
      modifies this`writing, this`coming, this`trace, this`sent, storage
      ensures At(Top(cursor, false)) && old(sent) <= sent
    {
      Await(Meta(cursor));
      if due {
        Send(Session(cursor), SendSession, Top(cursor, false));
      } else {
        Take(SkipSession);
      }
    }

    /** One pass of the loop, whatever writers do at its awaits: what it writes on the stream, and
        where it leaves the cursor, is a run of the feed's own steps and the writers'. */
    method Pass(listed: seq<RunId>, metadataDue: bool)
      requires At(Top(cursor, initial && requested.None?)) && forall r :: r in listed ==> r in storage.states
      modifies this, storage
      ensures At(Top(cursor, false)) && !initial && old(sent) <= sent
    {
      var changes := ReadJournalFile();
      cursor := changes.cursor;
      if changes.reset || (initial && requested.None?) {
        SendHistory(listed);
      } else {
        SendChanges(changes);
      }
      SendMetadata(metadataDue);
      initial := false;
    }
  }
}
