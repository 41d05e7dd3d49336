/** The change feed: writers, the server's stream loop, the wire, and one resuming client. */
module RunFeed {
  import opened Options
  import opened RunJournal

  // ---- the client's merge ----

  datatype Frame =
    | Snapshot(watermark: nat, runs: map<RunId, nat>)
    | Run(id: nat, runId: RunId, version: nat)
    | Session(at: nat)

  /** `cursor` and `held` are the client's conversation snapshot, run contents being revision
      numbers. `base` is the watermark of the last snapshot it took and `seen` the newest revision
      it ever showed of each run; the client itself has no use for these two. */
  datatype Client = Client(cursor: Option<nat>, held: map<RunId, nat>, base: nat, seen: map<RunId, nat>)

  const NEW_CLIENT := Client(None, map[], 0, map[])

  function Apply(c: Client, f: Frame): Client {
    match f
    case Snapshot(w, runs) => Client(Some(w), runs, w, c.seen + runs)
    case Run(id, r, v) =>
      if c.cursor.None? || id <= c.cursor.value then c
      else Client(Some(id), c.held[r := v], c.base, c.seen[r := v])
    case Session(at) => if c.cursor.None? then c else c.(cursor := Some(at))
  }

  /** The client after everything already on the wire. */
  function ApplyAll(c: Client, wire: seq<Frame>): Client
    decreases |wire|
  {
    if wire == [] then c else ApplyAll(Apply(c, wire[0]), wire[1..])
  }

  // ---- the server's coalesced replay ----

  predicate ChangedIn(changes: seq<Change>, runId: RunId) {
    exists i :: 0 <= i < |changes| && changes[i].runId == runId
  }

  /** The last change of every run, in id order. */
  function Coalesce(changes: seq<Change>): seq<Change> {
    if changes == [] then []
    else if ChangedIn(changes[1..], changes[0].runId) then Coalesce(changes[1..])
    else [changes[0]] + Coalesce(changes[1..])
  }

  /** `Map.set`: the value of a known key is replaced where it stands, a new key goes last. */
  function Put(entries: seq<Change>, c: Change): seq<Change> {
    if entries == [] then [c]
    else if entries[0].runId == c.runId then [c] + entries[1..]
    else [entries[0]] + Put(entries[1..], c)
  }

  function MapValues(changes: seq<Change>): seq<Change> {
    if changes == [] then []
    else Put(MapValues(changes[..|changes| - 1]), changes[|changes| - 1])
  }

  function InsertById(sorted: seq<Change>, c: Change): seq<Change> {
    if sorted == [] || c.id < sorted[0].id then [c] + sorted
    else [sorted[0]] + InsertById(sorted[1..], c)
  }

  function SortById(changes: seq<Change>): seq<Change> {
    if changes == [] then []
    else InsertById(SortById(changes[..|changes| - 1]), changes[|changes| - 1])
  }

  /** The server's batch: a map keyed by run keeps the latest change of each, then a sort by id. */
  function Latest(changes: seq<Change>): seq<Change> {
    SortById(MapValues(changes))
  }

  datatype Server =
    | Off
    | Top(cursor: nat, unasked: bool)
    | Listing(watermark: nat, got: map<RunId, nat>)
    | Replay(rest: seq<Change>, target: nat)
    | Fetched(version: nat, rest: seq<Change>, target: nat)
    | Meta(cursor: nat)

  // ---- the whole system ----

  /** `writing` holds the writes between the state file and the journal; `ids` and `versions` record
      for every id ever journaled its run and the revision stored at that moment. */
  datatype Disk = Disk(store: map<RunId, nat>, writing: multiset<RunId>, journal: Journal,
                       ids: seq<RunId>, versions: seq<nat>)

  datatype Feed = Feed(disk: Disk, server: Server, wire: seq<Frame>, client: Client)

  const INIT := Feed(Disk(map[], multiset{}, EMPTY, [], []), Off, [], NEW_CLIENT)

  datatype Step =
    | WriteState(runId: RunId)
    | AppendChange(runId: RunId)
    | Connect
    | Disconnect
    | ReadJournal
    | ReadRun(runId: RunId)
    | SendSnapshot
    | FetchRun
    | SendRun
    | EndReplay
    | SendSession
    | SkipSession
    | Deliver

  function WriteStateOn(d: Disk, r: RunId): Disk {
    d.(store := d.store[r := if r in d.store then d.store[r] + 1 else 1], writing := d.writing + multiset{r})
  }

  function AppendChangeOn(d: Disk, r: RunId): Disk
    requires r in d.store
  {
    d.(writing := d.writing - multiset{r}, journal := Append(d.journal, r),
       ids := d.ids + [r], versions := d.versions + [d.store[r]])
  }

  predicate Enabled(s: Feed, step: Step) {
    match step
    case WriteState(_) => true
    case AppendChange(r) => r in s.disk.writing && r in s.disk.store
    case Connect => s.server.Off?
    case Disconnect => !s.server.Off?
    case ReadJournal => s.server.Top?
    case ReadRun(r) => s.server.Listing? && r in s.disk.store
    case SendSnapshot => s.server.Listing?
    case FetchRun => s.server.Replay? && s.server.rest != []
    case SendRun => s.server.Fetched? && s.server.rest != []
    case EndReplay => s.server.Replay? && s.server.rest == []
    case SendSession => s.server.Meta?
    case SkipSession => s.server.Meta?
    case Deliver => s.wire != []
  }

  function Do(s: Feed, step: Step): Feed
    requires Enabled(s, step)
  {
    match step
    case WriteState(r) => s.(disk := WriteStateOn(s.disk, r))
    case AppendChange(r) => s.(disk := AppendChangeOn(s.disk, r))
    case Connect =>
      s.(server := if s.client.cursor.None? then Top(0, true) else Top(s.client.cursor.value, false), wire := [])
    case Disconnect => s.(server := Off, wire := [])
    case ReadJournal =>
      var read := ReadChanges(s.disk.journal, s.server.cursor);
      s.(server := if read.reset || s.server.unasked then Listing(read.cursor, map[])
                   else Replay(Latest(read.changes), read.cursor))
    case ReadRun(r) => s.(server := s.server.(got := s.server.got[r := s.disk.store[r]]))
    case SendSnapshot =>
      s.(wire := s.wire + [Snapshot(s.server.watermark, s.server.got)], server := Meta(s.server.watermark))
    case FetchRun =>
      var r := s.server.rest[0].runId;
      s.(server := if r in s.disk.store then Fetched(s.disk.store[r], s.server.rest, s.server.target)
                   else Replay(s.server.rest[1..], s.server.target))
    case SendRun =>
      var c := s.server.rest[0];
      s.(wire := s.wire + [Run(c.id, c.runId, s.server.version)], server := Replay(s.server.rest[1..], s.server.target))
    case EndReplay => s.(server := Meta(s.server.target))
    case SendSession => s.(wire := s.wire + [Session(s.server.cursor)], server := Top(s.server.cursor, false))
    case SkipSession => s.(server := Top(s.server.cursor, false))
    case Deliver => s.(client := Apply(s.client, s.wire[0]), wire := s.wire[1..])
  }

  /** Steps that are not enabled leave the system as it is. */
  function RunSteps(s: Feed, steps: seq<Step>): Feed
    decreases |steps|
  {
    if steps == [] then s
    else RunSteps(if Enabled(s, steps[0]) then Do(s, steps[0]) else s, steps[1..])
  }

  // ---- the invariant ----

  /** The last id journaled for a run, 0 if there is none. */
  function Last(ids: seq<RunId>, r: RunId): nat {
    LastBelow(ids, r, |ids|)
  }

  function LastBelow(ids: seq<RunId>, r: RunId, n: nat): (k: nat)
    requires n <= |ids|
    ensures k <= n && (k > 0 ==> ids[k - 1] == r)
    ensures forall i :: k <= i < n ==> ids[i] != r
  {
    if n == 0 || ids[n - 1] == r then n else LastBelow(ids, r, n - 1)
  }

  ghost predicate DiskOk(d: Disk) {
    && |d.ids| == |d.versions| && Tracks(d.journal, d.ids)
    && (forall i :: 0 <= i < |d.ids| ==> d.ids[i] in d.store && d.versions[i] <= d.store[d.ids[i]])
    && (forall r :: r in d.store && r !in d.writing ==>
          Last(d.ids, r) > 0 && d.versions[Last(d.ids, r) - 1] == d.store[r])
  }

  /** What a client with this cursor is owed about a run. */
  ghost predicate Current(c: Client, d: Disk, r: RunId)
    requires |d.ids| == |d.versions|
  {
    var last := Last(d.ids, r);
    last > 0 ==> r in c.held && c.held[r] >= d.versions[last - 1]
  }

  ghost predicate Concerned(c: Client, d: Disk, r: RunId) {
    r in c.held || Last(d.ids, r) > c.base
  }

  ghost predicate ClientOk(c: Client, d: Disk)
    requires |d.ids| == |d.versions|
  {
    && (c.cursor.None? ==> c.held == map[] && c.base == 0)
    && (c.cursor.Some? ==>
          && c.base <= c.cursor.value <= |d.ids|
          && forall r :: Concerned(c, d, r) && Last(d.ids, r) <= c.cursor.value ==> Current(c, d, r))
    && (forall r :: r in c.seen ==> r in d.store && c.seen[r] <= d.store[r])
    && (forall r :: r in c.held ==> r in c.seen && c.seen[r] == c.held[r])
  }

  /** The client has use for the frame, and nothing in it is older than what it showed. */
  ghost predicate FrameOk(c: Client, f: Frame) {
    match f
    case Snapshot(w, runs) =>
      && (c.cursor.Some? ==> c.cursor.value <= w)
      && forall r :: r in runs && r in c.seen ==> c.seen[r] <= runs[r]
    case Run(id, r, v) => c.cursor.Some? && c.cursor.value < id && (r in c.seen ==> c.seen[r] <= v)
    case Session(at) => c.cursor.Some? && c.cursor.value <= at
  }

  ghost predicate WireOk(c: Client, wire: seq<Frame>, d: Disk)
    requires |d.ids| == |d.versions|
    decreases |wire|
  {
    && ClientOk(c, d)
    && (wire != [] ==> FrameOk(c, wire[0]) && WireOk(Apply(c, wire[0]), wire[1..], d))
  }

  ghost predicate Ascending(changes: seq<Change>) {
    forall i, j :: 0 <= i < j < |changes| ==> changes[i].id < changes[j].id
  }

  /** What is left of a batch: ids ascend from the client's cursor to the target. */
  ghost predicate RestFits(rest: seq<Change>, after: nat, target: nat, ids: seq<RunId>) {
    && (forall i :: 0 <= i < |rest| ==> after < rest[i].id <= target && target <= |ids| && ids[rest[i].id - 1] == rest[i].runId)
    && (rest == [] ==> after == target)
    && (rest != [] ==> rest[|rest| - 1].id == target)
    && Ascending(rest)
  }

  /** The run's last change is shown, or is still to come in this batch. */
  ghost predicate Covered(c: Client, rest: seq<Change>, d: Disk, r: RunId)
    requires |d.ids| == |d.versions|
  {
    Current(c, d, r) || Change(Last(d.ids, r), r) in rest
  }

  ghost predicate CoversTo(c: Client, rest: seq<Change>, target: nat, d: Disk)
    requires |d.ids| == |d.versions|
  {
    forall r :: Concerned(c, d, r) && 0 < Last(d.ids, r) <= target ==> Covered(c, rest, d, r)
  }

  ghost predicate ReplayOk(c: Client, rest: seq<Change>, target: nat, d: Disk)
    requires |d.ids| == |d.versions|
  {
    && c.cursor.Some? && c.cursor.value <= target <= |d.ids|
    && RestFits(rest, c.cursor.value, target, d.ids)
    && CoversTo(c, rest, target, d)
  }

  ghost predicate ServerOk(v: Client, s: Server, d: Disk)
    requires |d.ids| == |d.versions|
  {
    match s
    case Off => true
    case Top(cursor, unasked) => if unasked then v.cursor.None? else v.cursor == Some(cursor)
    case Listing(w, got) =>
      && w <= |d.ids| && (v.cursor.Some? ==> v.cursor.value <= w)
      && (forall r :: r in got ==>
            && r in d.store && got[r] <= d.store[r]
            && (r in v.seen ==> v.seen[r] <= got[r])
            && (0 < Last(d.ids, r) <= w ==> got[r] >= d.versions[Last(d.ids, r) - 1]))
    case Replay(rest, target) => ReplayOk(v, rest, target, d)
    case Fetched(version, rest, target) =>
      && rest != [] && ReplayOk(v, rest, target, d)
      && var c := rest[0];
         && c.runId in d.store && version <= d.store[c.runId]
         && version >= d.versions[c.id - 1]
         && (c.runId in v.seen ==> v.seen[c.runId] <= version)
    case Meta(cursor) => v.cursor == Some(cursor)
  }

  ghost predicate Inv(s: Feed) {
    && DiskOk(s.disk)
    && (s.server.Off? ==> s.wire == [])
    && WireOk(s.client, s.wire, s.disk)
    && ServerOk(ApplyAll(s.client, s.wire), s.server, s.disk)
  }

  // ---- small facts ----

  lemma {:induction false} LastBelowPrefix(ids: seq<RunId>, longer: seq<RunId>, r: RunId, n: nat)
    requires n <= |ids| && ids <= longer
    ensures LastBelow(ids, r, n) == LastBelow(longer, r, n)
  {
    if n > 0 && ids[n - 1] != r {
      LastBelowPrefix(ids, longer, r, n - 1);
    }
  }

  lemma LastAppend(ids: seq<RunId>, x: RunId, r: RunId)
    ensures Last(ids + [x], r) == if x == r then |ids| + 1 else Last(ids, r)
  {
    if x != r {
      LastBelowPrefix(ids, ids + [x], r, |ids|);
    }
  }

  lemma LastIsLast(ids: seq<RunId>, r: RunId, i: nat)
    requires i < |ids| && ids[i] == r
    ensures Last(ids, r) > i
  {
  }

  lemma {:induction false} ApplyAllAppend(c: Client, wire: seq<Frame>, f: Frame)
    ensures ApplyAll(c, wire + [f]) == Apply(ApplyAll(c, wire), f)
    decreases |wire|
  {
    if wire != [] {
      assert (wire + [f])[1..] == wire[1..] + [f];
      ApplyAllAppend(Apply(c, wire[0]), wire[1..], f);
    } else {
      assert (wire + [f])[1..] == [];
    }
  }

  lemma {:induction false} WireEnd(c: Client, wire: seq<Frame>, d: Disk)
    requires |d.ids| == |d.versions| && WireOk(c, wire, d)
    ensures ClientOk(ApplyAll(c, wire), d)
    decreases |wire|
  {
    if wire != [] {
      WireEnd(Apply(c, wire[0]), wire[1..], d);
    }
  }

  lemma {:induction false} WireAppend(c: Client, wire: seq<Frame>, f: Frame, d: Disk)
    requires |d.ids| == |d.versions| && WireOk(c, wire, d)
    requires FrameOk(ApplyAll(c, wire), f) && ClientOk(Apply(ApplyAll(c, wire), f), d)
    ensures WireOk(c, wire + [f], d)
    decreases |wire|
  {
    if wire != [] {
      assert (wire + [f])[1..] == wire[1..] + [f];
      WireAppend(Apply(c, wire[0]), wire[1..], f, d);
    } else {
      assert (wire + [f])[1..] == [];
    }
  }

  /** A disk that only moves forward keeps what clients and server rely on. */
  ghost predicate Forward(d: Disk, e: Disk)
    requires |d.ids| == |d.versions| && |e.ids| == |e.versions|
  {
    && (forall r :: r in d.store ==> r in e.store && d.store[r] <= e.store[r])
    && d.ids <= e.ids && d.versions <= e.versions
    && (forall r :: Last(e.ids, r) == Last(d.ids, r) || Last(e.ids, r) > |d.ids|)
  }

  lemma ClientForward(c: Client, d: Disk, e: Disk)
    requires |d.ids| == |d.versions| && |e.ids| == |e.versions|
    requires Forward(d, e) && ClientOk(c, d)
    ensures ClientOk(c, e)
  {
    if c.cursor.Some? {
      forall r | Concerned(c, e, r) && Last(e.ids, r) <= c.cursor.value ensures Current(c, e, r) {
        assert Concerned(c, d, r) && Current(c, d, r);
      }
    }
  }

  lemma {:induction false} WireForward(c: Client, wire: seq<Frame>, d: Disk, e: Disk)
    requires |d.ids| == |d.versions| && |e.ids| == |e.versions|
    requires Forward(d, e) && WireOk(c, wire, d)
    ensures WireOk(c, wire, e)
    decreases |wire|
  {
    ClientForward(c, d, e);
    if wire != [] {
      WireForward(Apply(c, wire[0]), wire[1..], d, e);
    }
  }

  lemma ReplayForward(v: Client, rest: seq<Change>, target: nat, d: Disk, e: Disk)
    requires |d.ids| == |d.versions| && |e.ids| == |e.versions|
    requires Forward(d, e) && ReplayOk(v, rest, target, d)
    ensures ReplayOk(v, rest, target, e)
  {
    forall r | Concerned(v, e, r) && 0 < Last(e.ids, r) <= target
      ensures Covered(v, rest, e, r)
    {
      assert Concerned(v, d, r) && Covered(v, rest, d, r);
    }
  }

  lemma ListingForward(v: Client, w: nat, got: map<RunId, nat>, d: Disk, e: Disk)
    requires |d.ids| == |d.versions| && |e.ids| == |e.versions|
    requires Forward(d, e) && ServerOk(v, Listing(w, got), d)
    ensures ServerOk(v, Listing(w, got), e)
  {
    forall r | r in got && 0 < Last(e.ids, r) <= w ensures got[r] >= e.versions[Last(e.ids, r) - 1] {
      assert Last(e.ids, r) == Last(d.ids, r);
      assert e.versions[Last(e.ids, r) - 1] == d.versions[Last(d.ids, r) - 1];
    }
  }

  lemma FetchedForward(v: Client, version: nat, rest: seq<Change>, target: nat, d: Disk, e: Disk)
    requires |d.ids| == |d.versions| && |e.ids| == |e.versions|
    requires Forward(d, e) && ServerOk(v, Fetched(version, rest, target), d)
    ensures ServerOk(v, Fetched(version, rest, target), e)
  {
    ReplayForward(v, rest, target, d, e);
    assert e.versions[rest[0].id - 1] == d.versions[rest[0].id - 1];
  }

  lemma ServerForward(v: Client, s: Server, d: Disk, e: Disk)
    requires |d.ids| == |d.versions| && |e.ids| == |e.versions|
    requires Forward(d, e) && ServerOk(v, s, d)
    ensures ServerOk(v, s, e)
  {
    match s
    case Replay(rest, target) => ReplayForward(v, rest, target, d, e);
    case Fetched(version, rest, target) => FetchedForward(v, version, rest, target, d, e);
    case Listing(w, got) => ListingForward(v, w, got, d, e);
    case _ =>
  }

  lemma {:induction false} CoalesceSelects(changes: seq<Change>, c: Change)
    requires c in Coalesce(changes)
    ensures c in changes
  {
    if c != changes[0] || ChangedIn(changes[1..], changes[0].runId) {
      CoalesceSelects(changes[1..], c);
    }
  }

  lemma {:induction false} CoalesceAscends(changes: seq<Change>)
    requires Ascending(changes)
    ensures Ascending(Coalesce(changes))
  {
    if changes != [] {
      CoalesceAscends(changes[1..]);
      forall c | c in Coalesce(changes[1..]) ensures changes[0].id < c.id {
        CoalesceSelects(changes[1..], c);
      }
    }
  }

  /** A change with no later change of the same run survives coalescing. */
  lemma {:induction false} CoalesceKeeps(changes: seq<Change>, i: nat)
    requires i < |changes|
    requires forall j :: i < j < |changes| ==> changes[j].runId != changes[i].runId
    ensures changes[i] in Coalesce(changes)
  {
    if i > 0 {
      CoalesceKeeps(changes[1..], i - 1);
    }
  }

  /** The newest change survives, so a replay always ends at the journal's cursor. */
  lemma {:induction false} CoalesceEnds(changes: seq<Change>)
    requires changes != []
    ensures Coalesce(changes) != []
    ensures Coalesce(changes)[|Coalesce(changes)| - 1] == changes[|changes| - 1]
  {
    if |changes| > 1 {
      CoalesceEnds(changes[1..]);
    } else {
      assert changes[1..] == [];
    }
  }

  // ---- the server's map-and-sort is the coalescing it stands for ----

  lemma {:induction false} PutMembers(entries: seq<Change>, c: Change, x: Change)
    requires forall i, j :: 0 <= i < j < |entries| ==> entries[i].runId != entries[j].runId
    ensures x in Put(entries, c) <==> x == c || (x in entries && x.runId != c.runId)
    ensures forall i, j :: 0 <= i < j < |Put(entries, c)| ==> Put(entries, c)[i].runId != Put(entries, c)[j].runId
  {
    if entries != [] && entries[0].runId != c.runId {
      PutMembers(entries[1..], c, x);
      forall y | y in Put(entries[1..], c) ensures y.runId != entries[0].runId {
        PutMembers(entries[1..], c, y);
      }
    }
  }

  ghost predicate LastOfRun(changes: seq<Change>, i: nat)
    requires i < |changes|
  {
    forall j :: i < j < |changes| ==> changes[j].runId != changes[i].runId
  }

  ghost predicate IsLastChange(changes: seq<Change>, x: Change) {
    exists i :: 0 <= i < |changes| && changes[i] == x && LastOfRun(changes, i)
  }

  lemma LastChangeSnoc(front: seq<Change>, c: Change, x: Change)
    ensures IsLastChange(front + [c], x) <==> x == c || (IsLastChange(front, x) && x.runId != c.runId)
  {
    var changes, n := front + [c], |front|;
    assert changes[n] == c && LastOfRun(changes, n);
    if x != c && IsLastChange(changes, x) {
      var i :| 0 <= i < |changes| && changes[i] == x && LastOfRun(changes, i);
      assert forall j :: i < j < n ==> front[j] == changes[j];
      assert front[i] == x && LastOfRun(front, i) && changes[n].runId != x.runId;
    }
    if IsLastChange(front, x) && x.runId != c.runId {
      var i :| 0 <= i < |front| && front[i] == x && LastOfRun(front, i);
      assert forall j :: i < j < n ==> front[j] == changes[j];
      assert changes[i] == x && LastOfRun(changes, i);
    }
  }

  lemma {:induction false} MapValuesMembers(changes: seq<Change>, x: Change)
    ensures x in MapValues(changes) <==> IsLastChange(changes, x)
    ensures forall i, j :: 0 <= i < j < |MapValues(changes)| ==> MapValues(changes)[i].runId != MapValues(changes)[j].runId
  {
    if changes != [] {
      var front, c := changes[..|changes| - 1], changes[|changes| - 1];
      assert changes == front + [c];
      MapValuesMembers(front, x);
      PutMembers(MapValues(front), c, x);
      LastChangeSnoc(front, c, x);
    }
  }

  lemma {:induction false} InsertMembers(sorted: seq<Change>, c: Change)
    requires Ascending(sorted) && forall x :: x in sorted ==> x.id != c.id
    ensures Ascending(InsertById(sorted, c))
    ensures forall x :: x in InsertById(sorted, c) <==> x == c || x in sorted
  {
    if sorted != [] {
      assert sorted[0] in sorted;
      assert sorted == [sorted[0]] + sorted[1..];
      if sorted[0].id < c.id {
        InsertMembers(sorted[1..], c);
        assert forall x :: x in InsertById(sorted[1..], c) ==> sorted[0].id < x.id;
      }
    }
  }

  lemma {:induction false} SortMembers(changes: seq<Change>)
    requires forall i, j :: 0 <= i < j < |changes| ==> changes[i].id != changes[j].id
    ensures Ascending(SortById(changes))
    ensures forall x :: x in SortById(changes) <==> x in changes
  {
    if changes != [] {
      var n := |changes| - 1;
      SortMembers(changes[..n]);
      InsertMembers(SortById(changes[..n]), changes[n]);
      assert changes == changes[..n] + [changes[n]];
    }
  }

  lemma {:induction false} AscendingUnique(a: seq<Change>, b: seq<Change>)
    requires Ascending(a) && Ascending(b)
    requires forall x :: x in a <==> x in b
    ensures a == b
  {
    if |a| > 0 {
      assert a[0] in a;
    }
    if |b| > 0 {
      assert b[0] in b;
    }
    if a != [] {
      assert a[0] == b[0];
      forall x ensures x in a[1..] <==> x in b[1..] {
        assert x in a <==> x in b;
        assert a == [a[0]] + a[1..] && b == [b[0]] + b[1..];
      }
      AscendingUnique(a[1..], b[1..]);
      assert a == [a[0]] + a[1..] && b == [b[0]] + b[1..];
    }
  }

  lemma {:induction false} CoalesceIsLast(changes: seq<Change>, x: Change)
    requires Ascending(changes) && x in Coalesce(changes)
    ensures exists i :: 0 <= i < |changes| && changes[i] == x && LastOfRun(changes, i)
  {
    if x == changes[0] && !ChangedIn(changes[1..], x.runId) {
      forall j | 0 < j < |changes| ensures changes[j].runId != x.runId {
        assert changes[1..][j - 1] == changes[j];
      }
      assert LastOfRun(changes, 0);
    } else {
      CoalesceIsLast(changes[1..], x);
      var i :| 0 <= i < |changes| - 1 && changes[1..][i] == x && LastOfRun(changes[1..], i);
      forall j | i + 1 < j < |changes| ensures changes[j].runId != x.runId {
        assert changes[1..][j - 1] == changes[j];
      }
      assert changes[i + 1] == x && LastOfRun(changes, i + 1);
    }
  }

  /** The server's map-and-sort keeps exactly the last change of every run, in id order. */
  lemma {:induction false} LatestIsCoalesce(changes: seq<Change>)
    requires Ascending(changes)
    ensures Latest(changes) == Coalesce(changes)
  {
    var values := MapValues(changes);
    forall x ensures x in values <==> x in Coalesce(changes) {
      MapValuesMembers(changes, x);
      if i :| 0 <= i < |changes| && changes[i] == x && LastOfRun(changes, i) {
        CoalesceKeeps(changes, i);
      }
      if x in Coalesce(changes) {
        CoalesceIsLast(changes, x);
      }
    }
    if changes != [] {
      MapValuesMembers(changes, changes[0]);
    }
    forall i, j | 0 <= i < j < |values| ensures values[i].id != values[j].id {
      MapValuesMembers(changes, values[i]);
      MapValuesMembers(changes, values[j]);
    }
    SortMembers(values);
    CoalesceAscends(changes);
    AscendingUnique(Latest(changes), Coalesce(changes));
  }

  // ---- every step keeps the invariant ----

  lemma WriteStateDisk(d: Disk, r: RunId)
    requires DiskOk(d)
    ensures DiskOk(WriteStateOn(d, r)) && Forward(d, WriteStateOn(d, r))
  {
    var e := WriteStateOn(d, r);
    forall x | x in e.store && x !in e.writing
      ensures Last(e.ids, x) > 0 && e.versions[Last(e.ids, x) - 1] == e.store[x]
    {
      assert x != r && x !in d.writing;
    }
  }

  lemma WriteStateKeeps(s: Feed, r: RunId)
    requires Inv(s)
    ensures Inv(Do(s, WriteState(r)))
  {
    var e := WriteStateOn(s.disk, r);
    WriteStateDisk(s.disk, r);
    WireForward(s.client, s.wire, s.disk, e);
    ServerForward(ApplyAll(s.client, s.wire), s.server, s.disk, e);
  }

  lemma AppendChangeDisk(d: Disk, r: RunId)
    requires DiskOk(d) && r in d.writing && r in d.store
    ensures DiskOk(AppendChangeOn(d, r)) && Forward(d, AppendChangeOn(d, r))
  {
    AppendTracks(d.journal, d.ids, r);
    AppendChangeForward(d, r);
    AppendChangeSettles(d, r);
    AppendChangeStored(d, r);
  }

  lemma AppendChangeStored(d: Disk, r: RunId)
    requires DiskOk(d) && r in d.store
    ensures var e := AppendChangeOn(d, r);
            |e.ids| == |e.versions|
            && forall i :: 0 <= i < |e.ids| ==> e.ids[i] in e.store && e.versions[i] <= e.store[e.ids[i]]
  {
    var e := AppendChangeOn(d, r);
    forall i | 0 <= i < |e.ids| ensures e.ids[i] in e.store && e.versions[i] <= e.store[e.ids[i]] {
      if i < |d.ids| {
        assert e.ids[i] == d.ids[i] && e.versions[i] == d.versions[i];
      }
    }
  }

  lemma AppendChangeForward(d: Disk, r: RunId)
    requires |d.ids| == |d.versions| && r in d.store
    ensures Forward(d, AppendChangeOn(d, r))
  {
    forall x ensures Last(d.ids + [r], x) == if x == r then |d.ids| + 1 else Last(d.ids, x) {
      LastAppend(d.ids, r, x);
    }
  }

  lemma AppendChangeSettles(d: Disk, r: RunId)
    requires DiskOk(d) && r in d.store
    ensures var e := AppendChangeOn(d, r);
            forall x :: x in e.store && x !in e.writing ==> Last(e.ids, x) > 0 && e.versions[Last(e.ids, x) - 1] == e.store[x]
  {
    var e := AppendChangeOn(d, r);
    forall x | x in e.store && x !in e.writing
      ensures Last(e.ids, x) > 0 && e.versions[Last(e.ids, x) - 1] == e.store[x]
    {
      LastAppend(d.ids, r, x);
      if x != r {
        assert x !in d.writing;
      }
    }
  }

  lemma AppendChangeKeeps(s: Feed, r: RunId)
    requires Inv(s) && Enabled(s, AppendChange(r))
    ensures Inv(Do(s, AppendChange(r)))
  {
    var e := AppendChangeOn(s.disk, r);
    AppendChangeDisk(s.disk, r);
    WireForward(s.client, s.wire, s.disk, e);
    ServerForward(ApplyAll(s.client, s.wire), s.server, s.disk, e);
  }

  lemma {:induction false} CoalescedFits(changes: seq<Change>, after: nat, ids: seq<RunId>, c: Change)
    requires after + |changes| == |ids| && c in Coalesce(changes)
    requires forall i :: 0 <= i < |changes| ==> changes[i] == Change(after + i + 1, ids[after + i])
    ensures after < c.id <= |ids| && ids[c.id - 1] == c.runId
  {
    CoalesceSelects(changes, c);
    var k :| 0 <= k < |changes| && changes[k] == c;
  }

  lemma {:induction false} CoalesceFits(changes: seq<Change>, after: nat, ids: seq<RunId>)
    requires after + |changes| == |ids|
    requires forall i :: 0 <= i < |changes| ==> changes[i] == Change(after + i + 1, ids[after + i])
    ensures RestFits(Coalesce(changes), after, |ids|, ids)
  {
    NumberedAscend(changes, after, ids);
    CoalesceAscends(changes);
    EachFits(changes, after, ids);
    CoalesceEnd(changes, after, ids);
    AllFit(Coalesce(changes), after, ids);
  }

  lemma {:induction false} EachFits(changes: seq<Change>, after: nat, ids: seq<RunId>)
    requires after + |changes| == |ids|
    requires forall i :: 0 <= i < |changes| ==> changes[i] == Change(after + i + 1, ids[after + i])
    ensures forall c :: c in Coalesce(changes) ==> after < c.id <= |ids| && ids[c.id - 1] == c.runId
  {
    forall c | c in Coalesce(changes) ensures after < c.id <= |ids| && ids[c.id - 1] == c.runId {
      CoalescedFits(changes, after, ids, c);
    }
  }

  lemma NumberedAscend(changes: seq<Change>, after: nat, ids: seq<RunId>)
    requires after + |changes| == |ids|
    requires forall i :: 0 <= i < |changes| ==> changes[i] == Change(after + i + 1, ids[after + i])
    ensures Ascending(changes)
  {
  }

  lemma AllFit(rest: seq<Change>, after: nat, ids: seq<RunId>)
    requires Ascending(rest) && after <= |ids|
    requires forall c :: c in rest ==> after < c.id <= |ids| && ids[c.id - 1] == c.runId
    requires rest == [] ==> after == |ids|
    requires rest != [] ==> rest[|rest| - 1].id == |ids|
    ensures RestFits(rest, after, |ids|, ids)
  {
    forall i | 0 <= i < |rest| ensures after < rest[i].id <= |ids| && ids[rest[i].id - 1] == rest[i].runId {
      assert rest[i] in rest;
    }
  }

  lemma {:induction false} CoalesceEnd(changes: seq<Change>, after: nat, ids: seq<RunId>)
    requires after + |changes| == |ids|
    requires forall i :: 0 <= i < |changes| ==> changes[i] == Change(after + i + 1, ids[after + i])
    ensures Coalesce(changes) == [] ==> after == |ids|
    ensures Coalesce(changes) != [] ==> Coalesce(changes)[|Coalesce(changes)| - 1].id == |ids|
  {
    if changes != [] {
      CoalesceEnds(changes);
    }
  }

  lemma LatestFits(j: Journal, ids: seq<RunId>, after: nat)
    requires Tracks(j, ids) && !ReadChanges(j, after).reset
    ensures RestFits(Latest(ReadChanges(j, after).changes), after, j.cursor, ids)
  {
    ReplayIsComplete(j, ids, after);
    var changes := ReadChanges(j, after).changes;
    assert Ascending(changes);
    LatestIsCoalesce(changes);
    CoalesceFits(changes, after, ids);
  }

  lemma LatestCovers(j: Journal, ids: seq<RunId>, after: nat, r: RunId)
    requires Tracks(j, ids) && !ReadChanges(j, after).reset
    requires Last(ids, r) > after
    ensures Change(Last(ids, r), r) in Latest(ReadChanges(j, after).changes)
  {
    ReplayIsComplete(j, ids, after);
    var changes := ReadChanges(j, after).changes;
    LatestIsCoalesce(changes);
    CoalesceKeeps(changes, Last(ids, r) - after - 1);
  }

  lemma LastInSuffix(ids: seq<RunId>, i: nat)
    requires i < |ids| && forall k :: i < k < |ids| ==> ids[k] != ids[i]
    ensures Last(ids, ids[i]) == i + 1
  {
  }

  lemma {:induction false} CoalescedIsLast(changes: seq<Change>, after: nat, ids: seq<RunId>, c: Change)
    requires after + |changes| == |ids| && Ascending(changes) && c in Coalesce(changes)
    requires forall i :: 0 <= i < |changes| ==> changes[i] == Change(after + i + 1, ids[after + i])
    ensures after < c.id <= |ids| && ids[c.id - 1] == c.runId && Last(ids, c.runId) == c.id
  {
    CoalesceIsLast(changes, c);
    var i :| 0 <= i < |changes| && changes[i] == c && LastOfRun(changes, i);
    forall k | after + i < k < |ids| ensures ids[k] != ids[after + i] {
      assert changes[k - after].runId == ids[k];
    }
    LastInSuffix(ids, after + i);
  }

  lemma BatchedIsLast(j: Journal, ids: seq<RunId>, after: nat, c: Change)
    requires Tracks(j, ids) && !ReadChanges(j, after).reset
    requires c in Latest(ReadChanges(j, after).changes)
    ensures after < c.id <= |ids| && ids[c.id - 1] == c.runId && Last(ids, c.runId) == c.id
  {
    ReplayIsComplete(j, ids, after);
    var changes := ReadChanges(j, after).changes;
    NumberedAscend(changes, after, ids);
    LatestIsCoalesce(changes);
    CoalescedIsLast(changes, after, ids, c);
  }

  /** The batch holds each run changed since, under the id of its last change, and nothing else. */
  lemma BatchIsExact(j: Journal, ids: seq<RunId>, after: nat)
    requires Tracks(j, ids) && !ReadChanges(j, after).reset
    ensures forall c :: c in Latest(ReadChanges(j, after).changes) <==>
              after < c.id <= |ids| && ids[c.id - 1] == c.runId && Last(ids, c.runId) == c.id
  {
    var rest := Latest(ReadChanges(j, after).changes);
    forall c ensures c in rest <==> after < c.id <= |ids| && ids[c.id - 1] == c.runId && Last(ids, c.runId) == c.id {
      if c in rest {
        BatchedIsLast(j, ids, after, c);
      }
      if after < c.id <= |ids| && ids[c.id - 1] == c.runId && Last(ids, c.runId) == c.id {
        LatestCovers(j, ids, after, c.runId);
      }
    }
  }

  lemma ReplayStarts(v: Client, after: nat, d: Disk)
    requires DiskOk(d) && ClientOk(v, d) && v.cursor == Some(after)
    requires !ReadChanges(d.journal, after).reset
    ensures ReplayOk(v, Latest(ReadChanges(d.journal, after).changes), d.journal.cursor, d)
  {
    LatestFits(d.journal, d.ids, after);
    forall r | Concerned(v, d, r) && 0 < Last(d.ids, r) <= |d.ids|
      ensures Covered(v, Latest(ReadChanges(d.journal, after).changes), d, r)
    {
      if Last(d.ids, r) > after {
        LatestCovers(d.journal, d.ids, after, r);
      }
    }
  }

  lemma ReadJournalKeeps(s: Feed)
    requires Inv(s) && s.server.Top?
    ensures Inv(Do(s, ReadJournal))
  {
    var read := ReadChanges(s.disk.journal, s.server.cursor);
    WireEnd(s.client, s.wire, s.disk);
    if !read.reset && !s.server.unasked {
      ReplayStarts(ApplyAll(s.client, s.wire), s.server.cursor, s.disk);
    }
  }

  /** A run is never older on disk than the version its last journal entry saw. */
  lemma StoreIsLatest(d: Disk, r: RunId)
    requires DiskOk(d) && r in d.store && 0 < Last(d.ids, r)
    ensures d.versions[Last(d.ids, r) - 1] <= d.store[r]
  {
    assert d.ids[Last(d.ids, r) - 1] == r;
  }

  lemma ListingGains(v: Client, w: nat, got: map<RunId, nat>, r: RunId, d: Disk)
    requires DiskOk(d) && r in d.store && (r in v.seen ==> v.seen[r] <= d.store[r])
    requires ServerOk(v, Listing(w, got), d)
    ensures ServerOk(v, Listing(w, got[r := d.store[r]]), d)
  {
    if 0 < Last(d.ids, r) {
      StoreIsLatest(d, r);
    }
  }

  lemma ReadRunKeeps(s: Feed, r: RunId)
    requires Inv(s) && Enabled(s, ReadRun(r))
    ensures Inv(Do(s, ReadRun(r)))
  {
    WireEnd(s.client, s.wire, s.disk);
    ListingGains(ApplyAll(s.client, s.wire), s.server.watermark, s.server.got, r, s.disk);
  }

  lemma SendKeeps(s: Feed, f: Frame, server: Server)
    requires Inv(s) && !s.server.Off?
    requires var v := ApplyAll(s.client, s.wire);
             FrameOk(v, f) && ClientOk(Apply(v, f), s.disk) && ServerOk(Apply(v, f), server, s.disk)
    requires !server.Off?
    ensures Inv(s.(wire := s.wire + [f], server := server))
  {
    WireAppend(s.client, s.wire, f, s.disk);
    ApplyAllAppend(s.client, s.wire, f);
  }

  lemma SnapshotShown(v: Client, w: nat, got: map<RunId, nat>, d: Disk, r: RunId)
    requires DiskOk(d) && ServerOk(v, Listing(w, got), d) && Last(d.ids, r) <= w && r in got
    ensures Current(Apply(v, Snapshot(w, got)), d, r)
  {
  }

  lemma SnapshotClientOk(v: Client, w: nat, got: map<RunId, nat>, d: Disk)
    requires DiskOk(d) && ClientOk(v, d) && ServerOk(v, Listing(w, got), d)
    ensures ClientOk(Apply(v, Snapshot(w, got)), d)
  {
    var c := Apply(v, Snapshot(w, got));
    forall r | Concerned(c, d, r) && Last(d.ids, r) <= w ensures Current(c, d, r) {
      SnapshotShown(v, w, got, d, r);
    }
  }

  lemma SnapshotOk(v: Client, w: nat, got: map<RunId, nat>, d: Disk)
    requires DiskOk(d) && ClientOk(v, d) && ServerOk(v, Listing(w, got), d)
    ensures FrameOk(v, Snapshot(w, got))
    ensures ClientOk(Apply(v, Snapshot(w, got)), d) && ServerOk(Apply(v, Snapshot(w, got)), Meta(w), d)
  {
    SnapshotClientOk(v, w, got, d);
  }

  lemma SendSnapshotKeeps(s: Feed)
    requires Inv(s) && s.server.Listing?
    ensures Inv(Do(s, SendSnapshot))
  {
    WireEnd(s.client, s.wire, s.disk);
    var w, got := s.server.watermark, s.server.got;
    SnapshotOk(ApplyAll(s.client, s.wire), w, got, s.disk);
    SendKeeps(s, Snapshot(w, got), Meta(w));
  }

  lemma FetchOk(v: Client, rest: seq<Change>, target: nat, d: Disk)
    requires DiskOk(d) && ClientOk(v, d) && ReplayOk(v, rest, target, d) && rest != []
    ensures var r := rest[0].runId;
            r in d.store && ServerOk(v, Fetched(d.store[r], rest, target), d)
  {
    assert d.ids[rest[0].id - 1] == rest[0].runId;
  }

  lemma FetchRunKeeps(s: Feed)
    requires Inv(s) && Enabled(s, FetchRun)
    ensures Inv(Do(s, FetchRun))
  {
    WireEnd(s.client, s.wire, s.disk);
    FetchOk(ApplyAll(s.client, s.wire), s.server.rest, s.server.target, s.disk);
  }

  /** The run of a sent frame is covered afterwards: by the client, or by the rest of the batch. */
  lemma SendRunCoversIt(v: Client, after: Client, c: Change, version: nat, rest: seq<Change>, d: Disk)
    requires |d.ids| == |d.versions| && 0 < c.id <= |d.ids| && d.ids[c.id - 1] == c.runId
    requires version >= d.versions[c.id - 1] && (c.runId in v.held ==> v.held[c.runId] <= version)
    requires after.held == v.held[c.runId := version]
    requires Covered(v, [c] + rest, d, c.runId)
    ensures Covered(after, rest, d, c.runId)
  {
    LastIsLast(d.ids, c.runId, c.id - 1);
  }

  lemma SendRunCoversOther(v: Client, after: Client, c: Change, version: nat, rest: seq<Change>, d: Disk, r: RunId)
    requires |d.ids| == |d.versions| && r != c.runId
    requires after.held == v.held[c.runId := version]
    requires Covered(v, [c] + rest, d, r)
    ensures Covered(after, rest, d, r)
  {
    var last := Change(Last(d.ids, r), r);
    assert last in [c] + rest ==> last in rest;
  }

  lemma SendRunCovers(v: Client, after: Client, c: Change, version: nat, rest: seq<Change>, target: nat, d: Disk)
    requires |d.ids| == |d.versions| && 0 < c.id <= |d.ids| && d.ids[c.id - 1] == c.runId
    requires version >= d.versions[c.id - 1] && (c.runId in v.held ==> v.held[c.runId] <= version)
    requires after.held == v.held[c.runId := version] && after.base == v.base < c.id <= target
    requires CoversTo(v, [c] + rest, target, d)
    ensures CoversTo(after, rest, target, d)
  {
    LastIsLast(d.ids, c.runId, c.id - 1);
    forall r | Concerned(after, d, r) && 0 < Last(d.ids, r) <= target ensures Covered(after, rest, d, r) {
      assert Concerned(v, d, r) && Covered(v, [c] + rest, d, r);
      if r == c.runId {
        SendRunCoversIt(v, after, c, version, rest, d);
      } else {
        SendRunCoversOther(v, after, c, version, rest, d, r);
      }
    }
  }

  /** Below the id just sent nothing is pending any more. */
  lemma SentIsCurrent(after: Client, rest: seq<Change>, target: nat, id: nat, d: Disk)
    requires |d.ids| == |d.versions| && CoversTo(after, rest, target, d) && id <= target
    requires forall x :: x in rest ==> x.id > id
    ensures forall r :: Concerned(after, d, r) && Last(d.ids, r) <= id ==> Current(after, d, r)
  {
    forall r | Concerned(after, d, r) && Last(d.ids, r) <= id ensures Current(after, d, r) {
      if Last(d.ids, r) > 0 {
        assert Covered(after, rest, d, r);
      }
    }
  }

  lemma RestTail(rest: seq<Change>, after: nat, target: nat, ids: seq<RunId>)
    requires RestFits(rest, after, target, ids) && rest != []
    ensures RestFits(rest[1..], rest[0].id, target, ids)
  {
  }

  lemma SendRunClient(v: Client, after: Client, c: Change, version: nat, rest: seq<Change>, target: nat, d: Disk)
    requires |d.ids| == |d.versions| && ClientOk(v, d) && v.cursor.Some? && v.cursor.value < c.id <= target <= |d.ids|
    requires after == Apply(v, Run(c.id, c.runId, version)) && CoversTo(after, rest, target, d)
    requires forall x :: x in rest ==> x.id > c.id
    requires c.runId in d.store && version <= d.store[c.runId]
    ensures ClientOk(after, d)
  {
    SentIsCurrent(after, rest, target, c.id, d);
  }

  lemma SendRunReplay(v: Client, version: nat, rest: seq<Change>, target: nat, d: Disk)
    requires |d.ids| == |d.versions| && ClientOk(v, d) && ServerOk(v, Fetched(version, rest, target), d)
    ensures var after := Apply(v, Run(rest[0].id, rest[0].runId, version));
            ClientOk(after, d) && ReplayOk(after, rest[1..], target, d)
  {
    var c := rest[0];
    var after := Apply(v, Run(c.id, c.runId, version));
    assert [c] + rest[1..] == rest;
    RestTail(rest, v.cursor.value, target, d.ids);
    SendRunCovers(v, after, c, version, rest[1..], target, d);
    SendRunClient(v, after, c, version, rest[1..], target, d);
  }

  lemma SendRunKeeps(s: Feed)
    requires Inv(s) && Enabled(s, SendRun)
    ensures Inv(Do(s, SendRun))
  {
    WireEnd(s.client, s.wire, s.disk);
    var v, c := ApplyAll(s.client, s.wire), s.server.rest[0];
    SendRunReplay(v, s.server.version, s.server.rest, s.server.target, s.disk);
    SendKeeps(s, Run(c.id, c.runId, s.server.version), Replay(s.server.rest[1..], s.server.target));
  }

  lemma SendSessionKeeps(s: Feed)
    requires Inv(s) && s.server.Meta?
    ensures Inv(Do(s, SendSession))
  {
    WireEnd(s.client, s.wire, s.disk);
    SendKeeps(s, Session(s.server.cursor), Top(s.server.cursor, false));
  }

  lemma StepKeeps(s: Feed, step: Step)
    requires Inv(s) && Enabled(s, step)
    ensures Inv(Do(s, step))
  {
    match step
    case WriteState(r) => WriteStateKeeps(s, r);
    case AppendChange(r) => AppendChangeKeeps(s, r);
    case ReadJournal => ReadJournalKeeps(s);
    case ReadRun(r) => ReadRunKeeps(s, r);
    case SendSnapshot => SendSnapshotKeeps(s);
    case FetchRun => FetchRunKeeps(s);
    case SendRun => SendRunKeeps(s);
    case SendSession => SendSessionKeeps(s);
    case _ =>
  }

  lemma {:induction false} RunKeeps(s: Feed, steps: seq<Step>)
    requires Inv(s)
    ensures Inv(RunSteps(s, steps))
    decreases |steps|
  {
    if steps != [] {
      if Enabled(s, steps[0]) {
        StepKeeps(s, steps[0]);
        RunKeeps(Do(s, steps[0]), steps[1..]);
      } else {
        RunKeeps(s, steps[1..]);
      }
    }
  }

  lemma InitOk()
    ensures Inv(INIT)
  {
  }

  ghost predicate Reachable(s: Feed) {
    exists steps :: s == RunSteps(INIT, steps)
  }

  lemma ReachableOk(s: Feed)
    requires Reachable(s)
    ensures Inv(s)
  {
    var steps :| s == RunSteps(INIT, steps);
    InitOk();
    RunKeeps(INIT, steps);
  }

  // ---- main results ----

  /** Convergence: at every moment of every run, a run the client holds, or that changed after its
      last snapshot watermark, equals the stored run as soon as the client's cursor has passed the
      run's last change and no write of it is between state file and journal. */
  lemma Convergence(s: Feed, r: RunId)
    requires Reachable(s) && s.client.cursor.Some? && r !in s.disk.writing
    requires r in s.client.held || Last(s.disk.ids, r) > s.client.base
    requires Last(s.disk.ids, r) <= s.client.cursor.value
    ensures r in s.client.held && r in s.disk.store && s.client.held[r] == s.disk.store[r]
  {
    ReachableOk(s);
    assert Concerned(s.client, s.disk, r);
    assert Current(s.client, s.disk, r);
  }

  lemma SeenGrowsOnce(s: Feed, step: Step, r: RunId)
    requires Inv(s) && Enabled(s, step) && r in s.client.seen
    ensures r in Do(s, step).client.seen && s.client.seen[r] <= Do(s, step).client.seen[r]
  {
  }

  lemma {:induction false} SeenGrows(s: Feed, steps: seq<Step>, r: RunId)
    requires Inv(s) && r in s.client.seen
    ensures var c := RunSteps(s, steps).client;
            r in c.seen && s.client.seen[r] <= c.seen[r]
    decreases |steps|
  {
    if steps != [] {
      if Enabled(s, steps[0]) {
        StepKeeps(s, steps[0]);
        SeenGrowsOnce(s, steps[0], r);
        SeenGrows(Do(s, steps[0]), steps[1..], r);
      } else {
        SeenGrows(s, steps[1..], r);
      }
    }
  }

  /** Monotone reads: between any two moments of any run, across replays, snapshots and reconnects,
      the client never shows a run older than it showed it before. */
  lemma {:induction false} MonotoneReads(s: Feed, steps: seq<Step>, r: RunId)
    requires Reachable(s) && r in s.client.held && r in RunSteps(s, steps).client.held
    ensures s.client.held[r] <= RunSteps(s, steps).client.held[r]
  {
    ReachableOk(s);
    SeenGrows(s, steps, r);
    RunKeeps(s, steps);
  }

  /** The client's cursor filter and its missing-snapshot error never fire on a frame it is sent. */
  lemma NothingDiscarded(s: Feed)
    requires Reachable(s) && s.wire != []
    ensures s.wire[0].Run? ==> s.client.cursor.Some? && s.wire[0].id > s.client.cursor.value
    ensures s.wire[0].Run? ==> Do(s, Deliver).client.held == s.client.held[s.wire[0].runId := s.wire[0].version]
    ensures s.wire[0].Session? ==> s.client.cursor.Some? && s.wire[0].at >= s.client.cursor.value
  {
    ReachableOk(s);
  }

  /** What a delivered frame does: a snapshot replaces everything the client holds, a run frame shows
      that run at that revision and leaves the others, session data only moves the cursor. */
  lemma FramesTakeEffect(s: Feed)
    requires Reachable(s) && s.wire != []
    ensures var c, d := s.client, Do(s, Deliver).client;
            match s.wire[0]
            case Snapshot(w, runs) => d.cursor == Some(w) && d.held == runs && d.base == w
            case Run(id, r, v) => d.cursor == Some(id) && d.held == c.held[r := v] && d.base == c.base
            case Session(at) => d.cursor == Some(at) && d.held == c.held && d.base == c.base
  {
    ReachableOk(s);
  }

  /** What a client does not want it does not take: a run frame at or below its cursor, and anything but
      a snapshot before it has one. */
  lemma StaleFramesAreIgnored(c: Client, f: Frame)
    requires if f.Run? then c.cursor.None? || f.id <= c.cursor.value else f.Session? && c.cursor.None?
    ensures Apply(c, f) == c
  {
  }

  predicate DeliversSnapshot(s: Feed, step: Step) {
    step.Deliver? && s.wire != [] && s.wire[0].Snapshot?
  }

  predicate NoSnapshotDelivered(s: Feed, steps: seq<Step>)
    decreases |steps|
  {
    steps == [] ||
    (!DeliversSnapshot(s, steps[0])
     && NoSnapshotDelivered(if Enabled(s, steps[0]) then Do(s, steps[0]) else s, steps[1..]))
  }

  /** A run that the client holds it goes on holding until the next snapshot comes. */
  lemma {:induction false} HeldStays(s: Feed, steps: seq<Step>, r: RunId)
    requires r in s.client.held && NoSnapshotDelivered(s, steps)
    ensures r in RunSteps(s, steps).client.held
    decreases |steps|
  {
    if steps != [] {
      HeldStays(if Enabled(s, steps[0]) then Do(s, steps[0]) else s, steps[1..], r);
    }
  }

  predicate OnlySessions(wire: seq<Frame>) {
    forall i :: 0 <= i < |wire| ==> wire[i].Session?
  }

  /** The last thing on the wire but for session data is a snapshot that shows the run. */
  predicate SnapshotShows(wire: seq<Frame>, r: RunId, version: nat) {
    wire != [] && (SnapshotShows(wire[1..], r, version)
                   || (wire[0].Snapshot? && r in wire[0].runs && wire[0].runs[r] >= version && OnlySessions(wire[1..])))
  }

  /** Where a run that was read for a snapshot is: read, sent, or held. */
  ghost predicate Underway(s: Feed, r: RunId, version: nat) {
    match s.server
    case Listing(_, got) => r in got && got[r] >= version
    case Top(_, _) => Arriving(s, r, version)
    case Meta(_) => Arriving(s, r, version)
    case _ => false
  }

  ghost predicate Arriving(s: Feed, r: RunId, version: nat) {
    SnapshotShows(s.wire, r, version) || (OnlySessions(s.wire) && r in s.client.held && s.client.held[r] >= version)
  }

  lemma {:induction false} SnapshotSent(wire: seq<Frame>, f: Frame, r: RunId, version: nat)
    requires f.Snapshot? && r in f.runs && f.runs[r] >= version
    ensures SnapshotShows(wire + [f], r, version)
  {
    if wire == [] {
      assert (wire + [f])[1..] == [];
    } else {
      assert (wire + [f])[1..] == wire[1..] + [f];
      SnapshotSent(wire[1..], f, r, version);
    }
  }

  lemma {:induction false} SessionSent(wire: seq<Frame>, f: Frame, r: RunId, version: nat)
    requires f.Session? && SnapshotShows(wire, r, version)
    ensures SnapshotShows(wire + [f], r, version)
  {
    assert (wire + [f])[1..] == wire[1..] + [f];
    if SnapshotShows(wire[1..], r, version) {
      SessionSent(wire[1..], f, r, version);
    }
  }

  lemma StaysUnderway(s: Feed, step: Step, r: RunId, version: nat)
    requires Inv(s) && Underway(s, r, version) && Enabled(s, step) && !step.Disconnect? && !step.ReadJournal?
    ensures Underway(Do(s, step), r, version)
  {
    match step
    case SendSnapshot => SnapshotSent(s.wire, Snapshot(s.server.watermark, s.server.got), r, version);
    case SendSession =>
      if SnapshotShows(s.wire, r, version) {
        SessionSent(s.wire, Session(s.server.cursor), r, version);
      }
    case _ =>
  }

  lemma {:induction false} RunStaysUnderway(s: Feed, steps: seq<Step>, r: RunId, version: nat)
    requires Inv(s) && Underway(s, r, version)
    requires forall i :: 0 <= i < |steps| ==> !steps[i].Disconnect? && !steps[i].ReadJournal?
    ensures Underway(RunSteps(s, steps), r, version)
    decreases |steps|
  {
    if steps != [] {
      if Enabled(s, steps[0]) {
        StepKeeps(s, steps[0]);
        StaysUnderway(s, steps[0], r, version);
        RunStaysUnderway(Do(s, steps[0]), steps[1..], r, version);
      } else {
        RunStaysUnderway(s, steps[1..], r, version);
      }
    }
  }

  /** Every run that the server reads for a snapshot is held once that snapshot has been sent and
      delivered, at the revision read or a later one. */
  lemma {:induction false} ReadRunsAreHeld(s: Feed, r: RunId, steps: seq<Step>)
    requires Reachable(s) && Enabled(s, ReadRun(r))
    requires forall i :: 0 <= i < |steps| ==> !steps[i].Disconnect? && !steps[i].ReadJournal?
    ensures var t := RunSteps(Do(s, ReadRun(r)), steps);
            !t.server.Listing? && (forall i :: 0 <= i < |t.wire| ==> !t.wire[i].Snapshot?) ==>
              r in t.client.held && t.client.held[r] >= s.disk.store[r]
  {
    ReachableOk(s);
    StepKeeps(s, ReadRun(r));
    RunStaysUnderway(Do(s, ReadRun(r)), steps, r, s.disk.store[r]);
    var t := RunSteps(Do(s, ReadRun(r)), steps);
    if !t.server.Listing? && (forall i :: 0 <= i < |t.wire| ==> !t.wire[i].Snapshot?) {
      NoneShows(t.wire, r, s.disk.store[r]);
    }
  }

  lemma {:induction false} NoneShows(wire: seq<Frame>, r: RunId, version: nat)
    requires forall i :: 0 <= i < |wire| ==> !wire[i].Snapshot?
    ensures !SnapshotShows(wire, r, version)
  {
    if wire != [] {
      NoneShows(wire[1..], r, version);
    }
  }

  /** When the server starts over with a snapshot: for a client without a cursor, or one whose missed
      changes are no longer all in the journal. Any other gets exactly the runs changed since, each
      once, under the id of its last change. */
  lemma SnapshotOnlyIfNeeded(s: Feed)
    requires Reachable(s) && Enabled(s, ReadJournal)
    ensures var after, now := Do(s, ReadJournal).server, s.disk.journal.cursor;
            var kept := s.server.cursor <= now && forall id :: s.server.cursor < id <= now ==> Retained(s.disk.journal, id);
            && (after.Listing? <==> s.server.unasked || !kept)
            && (after.Listing? ==> after == Listing(now, map[]))
            && (!after.Listing? ==>
                  && after.Replay? && after.target == now
                  && forall c :: c in after.rest <==>
                       s.server.cursor < c.id <= |s.disk.ids| && s.disk.ids[c.id - 1] == c.runId && Last(s.disk.ids, c.runId) == c.id)
  {
    ReachableOk(s);
    ResetIsExact(s.disk.journal, s.disk.ids, s.server.cursor);
    if Do(s, ReadJournal).server.Replay? {
      ReplayIsComplete(s.disk.journal, s.disk.ids, s.server.cursor);
      BatchIsExact(s.disk.journal, s.disk.ids, s.server.cursor);
    }
  }

  /** A replayed change always finds its run, so the batch never skips one. */
  lemma ReplayedRunExists(s: Feed)
    requires Reachable(s) && Enabled(s, FetchRun)
    ensures s.server.rest[0].runId in s.disk.store
  {
    ReachableOk(s);
  }

  /** The journal file is the bounded tail of every write made so far. */
  lemma JournalIsTail(s: Feed)
    requires Reachable(s)
    ensures Tracks(s.disk.journal, s.disk.ids)
  {
    ReachableOk(s);
  }

  // ---- nothing blocks: left alone, stream and client catch up ----

  predicate Stale(s: Feed) {
    match s.server
    case Off => true
    case Top(cursor, unasked) => unasked || cursor != s.disk.journal.cursor
    case Listing(w, _) => w != s.disk.journal.cursor
    case Replay(_, target) => target != s.disk.journal.cursor
    case Fetched(_, _, target) => target != s.disk.journal.cursor
    case Meta(cursor) => cursor != s.disk.journal.cursor
  }

  function Rank(s: Feed): nat {
    (if Stale(s) then 5 else 0) + match s.server
                                  case Off => 5
                                  case Top(_, _) => if Stale(s) then 1 else 0
                                  case Meta(_) => if Stale(s) then 2 else 1
                                  case _ => if Stale(s) then 3 else 2
  }

  function BatchLeft(s: Feed): nat {
    match s.server
    case Replay(rest, _) => 2 * |rest| + 1
    case Fetched(_, rest, _) => 2 * |rest|
    case _ => 0
  }

  /** The step the stream or the client takes next when no writer and no disconnect gets in. */
  function Next(s: Feed): Step {
    if s.wire != [] then Deliver else
    match s.server
    case Off => Connect
    case Top(_, _) => ReadJournal
    case Listing(_, _) => SendSnapshot
    case Replay(rest, _) => if rest == [] then EndReplay else FetchRun
    case Fetched(_, _, _) => SendRun
    case Meta(_) => SendSession
  }

  ghost predicate CaughtUp(s: Feed) {
    s.client.cursor == Some(s.disk.journal.cursor)
  }

  ghost predicate Advances(s: Feed, t: Feed) {
    && t.disk == s.disk
    && (Rank(t) < Rank(s)
        || (Rank(t) == Rank(s) && BatchLeft(t) < BatchLeft(s))
        || (Rank(t) == Rank(s) && BatchLeft(t) == BatchLeft(s) && |t.wire| < |s.wire|))
  }

  lemma ServerAdvances(s: Feed)
    requires s.wire == [] && (s.server.Top? ==> Stale(s)) && (s.server.Fetched? ==> s.server.rest != [])
    ensures Enabled(s, Next(s)) && Advances(s, Do(s, Next(s)))
  {
    match s.server
    case Off =>
    case Top(_, _) =>
    case Listing(_, _) =>
    case Replay(_, _) =>
    case Fetched(_, _, _) =>
    case Meta(_) =>
  }

  lemma NextAdvances(s: Feed)
    requires Inv(s) && !(CaughtUp(s) && s.wire == [])
    ensures Enabled(s, Next(s)) && Advances(s, Do(s, Next(s)))
  {
    if s.wire == [] {
      assert ApplyAll(s.client, s.wire) == s.client;
      ServerAdvances(s);
    }
  }

  /** From every reachable state the stream and the client alone reach the journal's cursor. */
  lemma {:induction false} CatchesUp(s: Feed) returns (steps: seq<Step>)
    requires Inv(s)
    ensures forall i :: 0 <= i < |steps| ==> !steps[i].WriteState? && !steps[i].AppendChange? && !steps[i].Disconnect?
    ensures RunSteps(s, steps).disk == s.disk
    ensures CaughtUp(RunSteps(s, steps))
    decreases Rank(s), BatchLeft(s), |s.wire|
  {
    if CaughtUp(s) && s.wire == [] {
      steps := [];
    } else {
      NextAdvances(s);
      StepKeeps(s, Next(s));
      var more := CatchesUp(Do(s, Next(s)));
      steps := [Next(s)] + more;
      assert steps[1..] == more;
    }
  }

  lemma {:induction false} RunAppend(s: Feed, a: seq<Step>, b: seq<Step>)
    ensures RunSteps(s, a + b) == RunSteps(RunSteps(s, a), b)
    decreases |a|
  {
    if a == [] {
      assert a + b == b;
    } else {
      assert (a + b)[1..] == a[1..] + b;
      RunAppend(if Enabled(s, a[0]) then Do(s, a[0]) else s, a[1..], b);
    }
  }

  /** Eventual consistency: whatever happened before, once writers pause the stream and the client
      reach, by their own steps, a state in which every run the client holds, or that changed since
      its last snapshot, equals the stored run unless a write of it is still half done. */
  lemma EventuallyConsistent(s: Feed) returns (steps: seq<Step>)
    requires Reachable(s)
    ensures forall i :: 0 <= i < |steps| ==> !steps[i].WriteState? && !steps[i].AppendChange? && !steps[i].Disconnect?
    ensures var t := RunSteps(s, steps);
            && t.disk == s.disk
            && forall r :: Concerned(t.client, t.disk, r) && r in t.disk.store && r !in t.disk.writing ==>
                 r in t.client.held && t.client.held[r] == t.disk.store[r]
  {
    ReachableOk(s);
    steps := CatchesUp(s);
    var t := RunSteps(s, steps);
    var before :| s == RunSteps(INIT, before);
    RunAppend(INIT, before, steps);
    assert Reachable(t);
    forall r | Concerned(t.client, t.disk, r) && r in t.disk.store && r !in t.disk.writing
      ensures r in t.client.held && t.client.held[r] == t.disk.store[r]
    {
      ReachableOk(t);
      Convergence(t, r);
    }
  }
}
