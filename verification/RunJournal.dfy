/** The bounded change journal that follows every stored run. */
module RunJournal {
  import opened Texts

  type RunId = string

  datatype Change = Change(id: nat, runId: RunId)

  /** The file changes.json: the last id handed out, and the newest entries. */
  datatype Journal = Journal(cursor: nat, changes: seq<Change>)

  datatype RunChanges = RunChanges(cursor: nat, reset: bool, changes: seq<Change>)

  const RETAINED := 512

  const EMPTY := Journal(0, [])

  function Append(j: Journal, runId: RunId): Journal {
    Journal(j.cursor + 1, LastOf(j.changes + [Change(j.cursor + 1, runId)], RETAINED))
  }

  function After(changes: seq<Change>, after: nat): seq<Change> {
    if changes == [] then []
    else if changes[0].id > after then [changes[0]] + After(changes[1..], after)
    else After(changes[1..], after)
  }

  function ReadChanges(j: Journal, after: nat): RunChanges {
    var oldest: int := if j.changes == [] then 1 else j.changes[0].id;
    RunChanges(j.cursor, after > j.cursor || after < oldest - 1, After(j.changes, after))
  }

  // ---- what the journal promises, for every history of writes ----

  /** The journal left by a list of writes, oldest first. */
  function Written(runIds: seq<RunId>): Journal {
    if runIds == [] then EMPTY
    else Append(Written(runIds[..|runIds| - 1]), runIds[|runIds| - 1])
  }

  /** Ids are contiguous, end at the cursor, and name the run written under that id. */
  ghost predicate Tracks(j: Journal, runIds: seq<RunId>) {
    && j.cursor == |runIds|
    && |j.changes| == (if |runIds| < RETAINED then |runIds| else RETAINED)
    && forall i :: 0 <= i < |j.changes| ==>
         && j.changes[i].id == |runIds| - |j.changes| + i + 1
         && j.changes[i].runId == runIds[|runIds| - |j.changes| + i]
  }

  lemma AppendTracks(j: Journal, runIds: seq<RunId>, runId: RunId)
    requires Tracks(j, runIds)
    ensures Tracks(Append(j, runId), runIds + [runId])
  {
  }

  /** After any number of writes the ids are contiguous and end at the cursor; the last 512 are kept. */
  lemma {:induction false} JournalIsContiguous(runIds: seq<RunId>)
    ensures Tracks(Written(runIds), runIds)
    ensures |Written(runIds).changes| == if |runIds| < 512 then |runIds| else 512
  {
    if runIds != [] {
      var front := runIds[..|runIds| - 1];
      JournalIsContiguous(front);
      AppendTracks(Written(front), front, runIds[|runIds| - 1]);
      assert front + [runIds[|runIds| - 1]] == runIds;
    }
  }

  lemma {:induction false} AfterKeepsAll(changes: seq<Change>, after: nat)
    requires forall i :: 0 <= i < |changes| ==> changes[i].id > after
    ensures After(changes, after) == changes
  {
    if changes != [] {
      AfterKeepsAll(changes[1..], after);
    }
  }

  lemma {:induction false} AfterSuffix(changes: seq<Change>, first: nat, after: nat)
    requires forall i :: 0 <= i < |changes| ==> changes[i].id == first + i
    requires first <= after + 1 <= first + |changes|
    ensures After(changes, after) == changes[after + 1 - first..]
  {
    if after + 1 == first {
      AfterKeepsAll(changes, after);
    } else {
      AfterSuffix(changes[1..], first + 1, after);
    }
  }

  ghost predicate Retained(j: Journal, id: nat) {
    exists i :: 0 <= i < |j.changes| && j.changes[i].id == id
  }

  /** `reset` is false exactly when every missed id is still in the journal. */
  lemma ResetIsExact(j: Journal, runIds: seq<RunId>, after: nat)
    requires Tracks(j, runIds)
    ensures !ReadChanges(j, after).reset <==>
            after <= j.cursor && forall id :: after < id <= j.cursor ==> Retained(j, id)
  {
    var n := |j.changes|;
    if ReadChanges(j, after).reset {
      if after <= j.cursor {
        assert !Retained(j, after + 1);
      }
    } else {
      forall id | after < id <= j.cursor ensures Retained(j, id) {
        assert j.changes[id - 1 - (|runIds| - n)].id == id;
      }
    }
  }

  /** Without a reset the reader gets the missed writes, all of them, in order. */
  lemma ReplayIsComplete(j: Journal, runIds: seq<RunId>, after: nat)
    requires Tracks(j, runIds) && !ReadChanges(j, after).reset
    ensures after <= |runIds|
    ensures var got := ReadChanges(j, after).changes;
            && |got| == |runIds| - after
            && forall i :: 0 <= i < |got| ==> got[i] == Change(after + i + 1, runIds[after + i])
  {
    var first := |runIds| - |j.changes| + 1;
    assert first <= after + 1 <= first + |j.changes|;
    AfterSuffix(j.changes, first, after);
    SuffixIs(j.changes, runIds, first, after);
  }

  lemma SuffixIs(changes: seq<Change>, runIds: seq<RunId>, first: nat, after: nat)
    requires 1 <= first <= after + 1 <= first + |changes| && |runIds| == first + |changes| - 1
    requires forall i :: 0 <= i < |changes| ==> changes[i].id == first + i && changes[i].runId == runIds[first - 1 + i]
    ensures var got := changes[after + 1 - first..];
            |got| == |runIds| - after && forall i :: 0 <= i < |got| ==> got[i] == Change(after + i + 1, runIds[after + i])
  {
    var got := changes[after + 1 - first..];
    forall i | 0 <= i < |got| ensures got[i] == Change(after + i + 1, runIds[after + i]) {
      assert got[i] == changes[after + 1 - first + i];
    }
  }

  /** The storage object: one state file per run, and the session's journal. */
  class RunStorage {
    var states: map<RunId, nat>
    var cursor: nat
    var changes: seq<Change>

    ghost function View(): Journal
      reads this
    {
      Journal(cursor, changes)
    }

    constructor ()
      ensures states == map[] && View() == EMPTY
    {
      states := map[];
      cursor := 0;
      changes := [];
    }

    /** First half of writeRun: the state file is replaced. */
    method WriteState(runId: RunId, version: nat)
      modifies `states
      ensures states == old(states)[runId := version]
    {
      states := states[runId := version];
    }

    /** Second half of writeRun: the journal entry. */
    method AppendChange(runId: RunId)
      modifies `cursor, `changes
      ensures View() == Append(old(View()), runId)
    {
      cursor := cursor + 1;
      changes := changes + [Change(cursor, runId)];
      if |changes| > RETAINED {
        changes := changes[|changes| - RETAINED..];
      }
    }

    method WriteRun(runId: RunId, version: nat)
      modifies this
      ensures states == old(states)[runId := version]
      ensures View() == Append(old(View()), runId)
    {
      WriteState(runId, version);
      AppendChange(runId);
    }

    method Read(after: nat) returns (r: RunChanges)
      ensures r == ReadChanges(View(), after)
    {
      var oldest: int := if changes == [] then 1 else changes[0].id;
      r := RunChanges(cursor, after > cursor || after < oldest - 1, After(changes, after));
    }
  }
}
