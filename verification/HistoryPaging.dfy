/** A session's run history: creation times that always increase, and paging by the last run seen. */
module HistoryPaging {
  import opened Options
  import opened RunRecords

  datatype Listing = Page(runs: seq<Run>, nextCursor: Option<nat>) | InvalidCursor

  const DEFAULT_LIMIT := 50
  const MAX_LIMIT := 100

  function ClampLimit(limit: Option<int>): nat {
    var l := if limit.Some? then limit.value else DEFAULT_LIMIT;
    if l > MAX_LIMIT then MAX_LIMIT else if l < 1 then 1 else l
  }

  /** `findIndex` by run id. */
  function IndexOf(runs: seq<Run>, id: nat): (r: int)
    ensures -1 <= r < |runs|
    ensures r >= 0 ==> runs[r].id == id
    ensures r < 0 ==> forall i :: 0 <= i < |runs| ==> runs[i].id != id
  {
    if runs == [] then -1
    else if runs[0].id == id then 0
    else
      var r := IndexOf(runs[1..], id);
      assert runs == [runs[0]] + runs[1..];
      if r < 0 then -1 else r + 1
  }

  /** The part of a listing after position `index`, and where to go on. */
  function PageAfter(sorted: seq<Run>, index: int, limit: nat): Listing
    requires -1 <= index < |sorted| && 1 <= limit
  {
    var start := index + 1;
    if start + limit < |sorted| then Page(sorted[start..start + limit], Some(sorted[start + limit - 1].id))
    else Page(sorted[start..], None)
  }

  function ListHistory(runs: seq<Run>, before: Option<nat>, limit: Option<int>): Listing {
    var sorted := Sort(true, runs);
    var index := if before.Some? then IndexOf(sorted, before.value) else -1;
    if before.Some? && index < 0 then InvalidCursor
    else PageAfter(sorted, index, ClampLimit(limit))
  }

  /** The creation time of a run stored now. */
  function NextTime(runs: seq<Run>, clock: int): int {
    var sorted := Sort(true, runs);
    var floor := if sorted == [] then 1 else sorted[0].createdAt + 1;
    if clock < floor then floor else clock
  }

  /** A new run is created and last updated at the same time. */
  function At(run: Run, time: int): Run {
    run.(createdAt := time, updatedAt := time)
  }

  predicate SameKey(a: Run, b: Run) {
    a.id == b.id && a.createdAt == b.createdAt
  }

  // ---- a store that changes while a reader pages through it ----

  datatype Event =
    | Create(clock: int, run: Run)
    | Update(index: nat, run: Run)
    | Fetch(limit: Option<int>)

  /** A client following `nextCursor`; `start` is the history its first page was cut from. */
  datatype Reader = Reader(started: bool, cursor: Option<nat>, done: bool, failed: bool, visited: seq<nat>, start: seq<nat>)

  datatype World = World(runs: seq<Run>, reader: Reader)

  const IDLE := Reader(false, None, false, false, [], [])

  predicate CanHappen(w: World, e: Event) {
    match e
    case Create(clock, run) => forall i :: 0 <= i < |w.runs| ==> w.runs[i].id != run.id
    case Update(i, run) => i < |w.runs| && SameKey(run, w.runs[i])
    case Fetch(limit) => true
  }

  function FetchNext(w: World, limit: Option<int>): Reader {
    var r := w.reader;
    if r.done || r.failed then r
    else
      var start := if r.started then r.start else Ids(Sort(true, w.runs));
      match ListHistory(w.runs, r.cursor, limit)
      case InvalidCursor => r.(failed := true)
      case Page(runs, next) => Reader(true, next, next.None?, false, r.visited + Ids(runs), start)
  }

  function Happen(w: World, e: Event): World
    requires CanHappen(w, e)
  {
    match e
    case Create(clock, run) => w.(runs := w.runs + [At(run, NextTime(w.runs, clock))])
    case Update(i, run) => w.(runs := w.runs[i := run])
    case Fetch(limit) => w.(reader := FetchNext(w, limit))
  }

  function Play(w: World, events: seq<Event>): World
    decreases |events|
  {
    if events == [] then w
    else if CanHappen(w, events[0]) then Play(Happen(w, events[0]), events[1..])
    else Play(w, events[1..])
  }

  // ---- creation times ----

  /** A new run is newer than every stored one, even when the clock has gone back. */
  lemma CreateIsNewest(runs: seq<Run>, clock: int)
    requires DistinctIds(runs)
    ensures clock <= NextTime(runs, clock) && forall i :: 0 <= i < |runs| ==> runs[i].createdAt < NextTime(runs, clock)
  {
    SortOrdered(true, runs);
    SortPermutes(true, runs);
    var sorted := Sort(true, runs);
    forall i | 0 <= i < |runs| ensures runs[i].createdAt < NextTime(runs, clock) {
      assert runs[i] in sorted;
      var j :| 0 <= j < |sorted| && sorted[j] == runs[i];
      assert j == 0 || Precedes(true, sorted[0], sorted[j]);
    }
  }

  /** A new run goes to the front of the history. */
  lemma {:induction false} CreateGoesFirst(runs: seq<Run>, clock: int, run: Run)
    requires DistinctIds(runs)
    ensures var added := At(run, NextTime(runs, clock));
            Sort(true, runs + [added]) == [added] + Sort(true, runs)
  {
    CreateIsNewest(runs, clock);
    SortPermutes(true, runs);
    var added := At(run, NextTime(runs, clock));
    assert (runs + [added])[..|runs|] == runs;
    if runs != [] {
      assert Sort(true, runs)[0] in runs;
    }
  }

  predicate SameKeys(a: seq<Run>, b: seq<Run>) {
    |a| == |b| && forall i :: 0 <= i < |a| ==> SameKey(a[i], b[i])
  }

  lemma {:induction false} InsertSameKeys(a: seq<Run>, b: seq<Run>, x: Run, y: Run)
    requires SameKeys(a, b) && SameKey(x, y)
    ensures SameKeys(Insert(true, a, x), Insert(true, b, y))
  {
    if a != [] && !Precedes(true, x, a[0]) {
      InsertSameKeys(a[1..], b[1..], x, y);
    }
  }

  /** Updates never reorder the history. */
  lemma {:induction false} UpdateKeepsOrder(a: seq<Run>, b: seq<Run>)
    requires SameKeys(a, b)
    ensures SameKeys(Sort(true, a), Sort(true, b)) && Ids(Sort(true, a)) == Ids(Sort(true, b))
  {
    if a != [] {
      var n := |a| - 1;
      UpdateKeepsOrder(a[..n], b[..n]);
      InsertSameKeys(Sort(true, a[..n]), Sort(true, b[..n]), a[n], b[n]);
    }
  }

  // ---- the reader ----

  predicate DistinctNats(s: seq<nat>) {
    forall i, j :: 0 <= i < j < |s| ==> s[i] != s[j]
  }

  /** The history the reader started from is the oldest part of the history now, and it has read
      the front of that part up to its cursor. */
  ghost predicate ReaderOk(r: Reader, ids: seq<nat>) {
    && !r.failed
    && (!r.started ==> r == IDLE)
    && (r.started ==>
          && |r.start| <= |ids| && ids[|ids| - |r.start|..] == r.start
          && |r.visited| <= |r.start| && r.visited == r.start[..|r.visited|]
          && (r.done ==> r.visited == r.start)
          && (!r.done ==> 1 <= |r.visited| < |r.start| && r.cursor == Some(r.start[|r.visited| - 1])))
  }

  ghost predicate WorldOk(w: World) {
    DistinctIds(w.runs) && ReaderOk(w.reader, Ids(Sort(true, w.runs)))
  }

  lemma {:induction false} SortedIdsDistinct(runs: seq<Run>)
    requires DistinctIds(runs)
    ensures DistinctNats(Ids(Sort(true, runs)))
  {
    SortDistinct(true, runs);
  }

  lemma SameNat(s: seq<nat>, i: nat, j: nat)
    requires DistinctNats(s) && i < |s| && j < |s| && s[i] == s[j]
    ensures i == j
  {
  }

  lemma {:induction false} IndexOfFound(runs: seq<Run>, i: nat)
    requires i < |runs| && DistinctNats(Ids(runs))
    ensures IndexOf(runs, runs[i].id) == i
  {
    var r := IndexOf(runs, runs[i].id);
    SameNat(Ids(runs), r, i);
  }

  lemma IdsSlice(runs: seq<Run>, from: nat, to: nat)
    requires from <= to <= |runs|
    ensures Ids(runs[from..to]) == Ids(runs)[from..to]
  {
  }

  /** The reader's part of the history is the end of it, so its cursor sits just before what it has not read. */
  lemma CursorPlace(ids: seq<nat>, r: Reader) returns (index: nat)
    requires ReaderOk(r, ids) && r.started && !r.done
    ensures index + 1 == |ids| - |r.start| + |r.visited| && index + 1 < |ids| && r.cursor == Some(ids[index])
  {
    index := |ids| - |r.start| + |r.visited| - 1;
  }

  lemma SliceOfEnd(ids: seq<nat>, offset: nat, v: nat, to: nat)
    requires offset + v <= to <= |ids|
    ensures ids[offset..][..v] + ids[offset + v..to] == ids[offset..][..to - offset]
  {
  }

  lemma ReadOn(ids: seq<nat>, r: Reader, to: nat, next: Option<nat>)
    requires ReaderOk(r, ids) && r.started && !r.done
    requires |ids| - |r.start| + |r.visited| < to <= |ids|
    requires next == if to < |ids| then Some(ids[to - 1]) else None
    ensures var from := |ids| - |r.start| + |r.visited|;
            ReaderOk(Reader(true, next, next.None?, false, r.visited + ids[from..to], r.start), ids)
  {
    var offset, v := |ids| - |r.start|, |r.visited|;
    SliceOfEnd(ids, offset, v, to);
    var visited := r.visited + ids[offset + v..to];
    assert visited == r.start[..to - offset] && |visited| == to - offset;
    if to < |ids| {
      assert ids[to - 1] == r.start[|visited| - 1];
    } else {
      assert visited == r.start;
    }
  }

  lemma PageIds(sorted: seq<Run>, index: int, limit: nat) returns (to: nat)
    requires -1 <= index < |sorted| && 1 <= limit
    ensures index + 1 <= to <= |sorted| && (index + 1 < |sorted| ==> index + 1 < to)
    ensures PageAfter(sorted, index, limit).Page?
    ensures Ids(PageAfter(sorted, index, limit).runs) == Ids(sorted)[index + 1..to]
    ensures PageAfter(sorted, index, limit).nextCursor == if to < |sorted| then Some(Ids(sorted)[to - 1]) else None
  {
    to := if index + 1 + limit < |sorted| then index + 1 + limit else |sorted|;
    assert PageAfter(sorted, index, limit).runs == sorted[index + 1..to];
    IdsSlice(sorted, index + 1, to);
  }

  ghost predicate NextReaderOk(r: Reader, ids: seq<nat>, page: Listing)
    requires page.Page?
  {
    && 1 <= |page.runs|
    && ReaderOk(Reader(true, page.nextCursor, page.nextCursor.None?, false, r.visited + Ids(page.runs), r.start), ids)
  }

  lemma NextReader(ids: seq<nat>, r: Reader, page: Listing, from: nat, to: nat)
    requires ReaderOk(r, ids) && r.started && !r.done && page.Page?
    requires from == |ids| - |r.start| + |r.visited| < to <= |ids|
    requires Ids(page.runs) == ids[from..to]
    requires page.nextCursor == if to < |ids| then Some(ids[to - 1]) else None
    ensures NextReaderOk(r, ids, page)
  {
    ReadOn(ids, r, to, page.nextCursor);
    assert |Ids(page.runs)| == to - from;
  }

  lemma FetchReads(sorted: seq<Run>, r: Reader, limit: nat) returns (index: nat)
    requires DistinctNats(Ids(sorted)) && ReaderOk(r, Ids(sorted)) && r.started && !r.done && 1 <= limit
    ensures index < |sorted| && r.cursor.Some? && IndexOf(sorted, r.cursor.value) == index
    ensures PageAfter(sorted, index, limit).Page? && NextReaderOk(r, Ids(sorted), PageAfter(sorted, index, limit))
  {
    index := CursorPlace(Ids(sorted), r);
    CursorFound(sorted, r.cursor.value, index);
    NextPageReads(sorted, r, limit, index);
  }

  lemma NextPageReads(sorted: seq<Run>, r: Reader, limit: nat, index: nat)
    requires ReaderOk(r, Ids(sorted)) && r.started && !r.done && 1 <= limit
    requires index + 1 == |sorted| - |r.start| + |r.visited| && index + 1 < |sorted|
    ensures PageAfter(sorted, index, limit).Page? && NextReaderOk(r, Ids(sorted), PageAfter(sorted, index, limit))
  {
    var to := PageIds(sorted, index, limit);
    NextReader(Ids(sorted), r, PageAfter(sorted, index, limit), index + 1, to);
  }

  lemma {:induction false} CursorFound(sorted: seq<Run>, id: nat, index: nat)
    requires DistinctNats(Ids(sorted)) && index < |sorted| && Ids(sorted)[index] == id
    ensures IndexOf(sorted, id) == index
  {
    IndexOfFound(sorted, index);
  }

  lemma FirstReader(ids: seq<nat>, to: nat, next: Option<nat>)
    requires to <= |ids| && (ids != [] ==> 1 <= to) && next == if to < |ids| then Some(ids[to - 1]) else None
    ensures ReaderOk(Reader(true, next, next.None?, false, ids[..to], ids), ids)
  {
  }

  lemma FirstPageReads(sorted: seq<Run>, limit: nat)
    requires 1 <= limit
    ensures PageAfter(sorted, -1, limit).Page?
    ensures var page := PageAfter(sorted, -1, limit);
            (page.nextCursor.Some? ==> page.runs != [])
            && ReaderOk(Reader(true, page.nextCursor, page.nextCursor.None?, false, Ids(page.runs), Ids(sorted)), Ids(sorted))
  {
    var page := PageAfter(sorted, -1, limit);
    if sorted == [] {
      assert Ids(page.runs) == Ids(sorted)[..0];
      FirstReader(Ids(sorted), 0, None);
    } else {
      var to := PageIds(sorted, -1, limit);
      FirstReader(Ids(sorted), to, page.nextCursor);
      assert Ids(page.runs) == Ids(sorted)[..to];
    }
  }

  ghost predicate FetchOk(w: World, r: Reader) {
    && r.started && r.start == (if w.reader.started then w.reader.start else Ids(Sort(true, w.runs)))
    && (r.done || |r.visited| > |w.reader.visited|)
    && ReaderOk(r, Ids(Sort(true, w.runs)))
  }

  lemma FirstFetch(w: World, limit: Option<int>)
    requires !w.reader.started && w.reader == IDLE
    ensures FetchOk(w, FetchNext(w, limit))
  {
    var sorted, most := Sort(true, w.runs), ClampLimit(limit);
    FirstPageReads(sorted, most);
    var page := PageAfter(sorted, -1, most);
    FirstFetchIs(w, limit, page);
    assert w.reader.visited == [];
  }

  lemma FirstFetchIs(w: World, limit: Option<int>, page: Listing)
    requires w.reader == IDLE && page == PageAfter(Sort(true, w.runs), -1, ClampLimit(limit)) && page.Page?
    ensures FetchNext(w, limit) ==
            Reader(true, page.nextCursor, page.nextCursor.None?, false, Ids(page.runs), Ids(Sort(true, w.runs)))
  {
    assert ListHistory(w.runs, None, limit) == page;
    assert [] + Ids(page.runs) == Ids(page.runs);
  }

  lemma NextFetch(w: World, limit: Option<int>)
    requires DistinctIds(w.runs) && w.reader.started && !w.reader.done && ReaderOk(w.reader, Ids(Sort(true, w.runs)))
    ensures FetchOk(w, FetchNext(w, limit))
  {
    var sorted, most := Sort(true, w.runs), ClampLimit(limit);
    SortedIdsDistinct(w.runs);
    var index := FetchReads(sorted, w.reader, most);
    ListingIs(w.runs, w.reader.cursor.value, limit, sorted, index);
    assert |w.reader.visited + Ids(PageAfter(sorted, index, most).runs)| > |w.reader.visited|;
  }

  lemma FetchKeeps(w: World, limit: Option<int>)
    requires WorldOk(w)
    ensures WorldOk(Happen(w, Fetch(limit))) && FetchOk(w, Happen(w, Fetch(limit)).reader)
  {
    if !w.reader.started {
      FirstFetch(w, limit);
    } else if !w.reader.done {
      NextFetch(w, limit);
    }
  }

  lemma {:induction false} ListingIs(runs: seq<Run>, before: nat, limit: Option<int>, sorted: seq<Run>, index: nat)
    requires sorted == Sort(true, runs) && index < |sorted| && IndexOf(sorted, before) == index
    ensures ListHistory(runs, Some(before), limit) == PageAfter(sorted, index, ClampLimit(limit))
  {
  }

  /** A new id in front leaves the reader's part of the history where it is, at the end. */
  lemma ReaderKeeps(r: Reader, ids: seq<nat>, id: nat)
    requires ReaderOk(r, ids)
    ensures ReaderOk(r, [id] + ids)
  {
    var more := [id] + ids;
    if r.started {
      assert more[|more| - |r.start|..] == ids[|ids| - |r.start|..];
    }
  }

  lemma DistinctMore(runs: seq<Run>, run: Run)
    requires DistinctIds(runs) && forall i :: 0 <= i < |runs| ==> runs[i].id != run.id
    ensures DistinctIds(runs + [run])
  {
  }

  lemma CreateKeeps(w: World, clock: int, run: Run)
    requires WorldOk(w) && CanHappen(w, Create(clock, run))
    ensures WorldOk(Happen(w, Create(clock, run)))
  {
    var added := At(run, NextTime(w.runs, clock));
    var sorted := Sort(true, w.runs);
    CreateGoesFirst(w.runs, clock, run);
    DistinctMore(w.runs, added);
    ReaderKeeps(w.reader, Ids(sorted), added.id);
    assert Ids([added] + sorted) == [added.id] + Ids(sorted);
    assert Happen(w, Create(clock, run)) == World(w.runs + [added], w.reader);
    assert Ids(Sort(true, w.runs + [added])) == [added.id] + Ids(sorted);
  }

  lemma UpdateKeeps(w: World, i: nat, run: Run)
    requires WorldOk(w) && CanHappen(w, Update(i, run))
    ensures WorldOk(Happen(w, Update(i, run)))
  {
    UpdateKeepsOrder(w.runs, w.runs[i := run]);
  }

  lemma HappenKeeps(w: World, e: Event)
    requires WorldOk(w) && CanHappen(w, e)
    ensures WorldOk(Happen(w, e))
    ensures w.reader.started ==> Happen(w, e).reader.started && Happen(w, e).reader.start == w.reader.start
    ensures w.reader.started && e.Fetch? ==> Happen(w, e).reader.done || |Happen(w, e).reader.visited| > |w.reader.visited|
  {
    match e
    case Create(clock, run) => CreateKeeps(w, clock, run);
    case Update(i, run) => UpdateKeeps(w, i, run);
    case Fetch(limit) => FetchKeeps(w, limit);
  }

  function Fetches(events: seq<Event>): nat {
    if events == [] then 0 else (if events[0].Fetch? then 1 else 0) + Fetches(events[1..])
  }

  lemma {:induction false} PlayKeeps(w: World, events: seq<Event>)
    requires WorldOk(w) && w.reader.started
    ensures var final := Play(w, events);
            WorldOk(final) && final.reader.started && final.reader.start == w.reader.start
            && (w.reader.done ==> final.reader.done)
            && (final.reader.done || |final.reader.visited| >= |w.reader.visited| + Fetches(events))
    decreases |events|
  {
    if events != [] {
      if CanHappen(w, events[0]) {
        HappenKeeps(w, events[0]);
        PlayKeeps(Happen(w, events[0]), events[1..]);
      } else {
        PlayKeeps(w, events[1..]);
      }
    }
  }

  // ---- main results ----

  /** Following `nextCursor` with any limits, while runs are created and updated in between, reads
      every run that was there at the first page exactly once, newest first: what has been read is
      always a front part of that history, no cursor is ever refused, and the end is reached after at
      most as many pages as there were runs. */
  lemma {:induction false} PagingVisitsEachRunOnce(runs: seq<Run>, limit: Option<int>, events: seq<Event>)
    requires DistinctIds(runs)
    ensures var history := Ids(Sort(true, runs));
            var reader := Play(Happen(World(runs, IDLE), Fetch(limit)), events).reader;
            && !reader.failed && reader.visited <= history
            && (reader.done ==> reader.visited == history)
            && (1 + Fetches(events) >= |runs| ==> reader.visited == history)
    ensures multiset(Sort(true, runs)) == multiset(runs) && Ordered(true, Sort(true, runs))
  {
    SortPermutes(true, runs);
    SortOrdered(true, runs);
    var w := World(runs, IDLE);
    FetchKeeps(w, limit);
    PlayKeeps(Happen(w, Fetch(limit)), events);
    var reader := Play(Happen(w, Fetch(limit)), events).reader;
    assert reader.start[..|reader.visited|] == reader.visited;
  }

  // ---- the object ----

  class RunStore {
    var runs: seq<Run>

    constructor ()
      ensures runs == []
    {
      runs := [];
    }

    method CreateRun(run: Run, clock: int) returns (stored: Run)
      requires DistinctIds(runs) && forall i :: 0 <= i < |runs| ==> runs[i].id != run.id
      modifies this
      ensures DistinctIds(runs) && runs == old(runs) + [stored] && stored == At(run, NextTime(old(runs), clock))
      ensures forall i :: 0 <= i < |old(runs)| ==> old(runs)[i].createdAt < stored.createdAt
    {
      CreateIsNewest(runs, clock);
      var latest := List(None, Some(1));
      var previousTime := if |latest.runs| > 0 then latest.runs[0].createdAt else 0;
      stored := At(run, if clock < previousTime + 1 then previousTime + 1 else clock);
      runs := runs + [stored];
    }

    /** `patched` is the stored run with the patch applied; its update time is set here. */
    method UpdateRun(id: nat, patched: Run, clock: int) returns (found: bool)
      requires DistinctIds(runs) && patched.id == id
      modifies this
      ensures found <==> exists i :: 0 <= i < |old(runs)| && old(runs)[i].id == id
      ensures DistinctIds(runs) && |runs| == |old(runs)|
      ensures forall i :: 0 <= i < |runs| ==>
                runs[i] == if old(runs)[i].id == id then patched.(updatedAt := clock) else old(runs)[i]
      ensures (forall i :: 0 <= i < |old(runs)| && old(runs)[i].id == id ==> old(runs)[i].createdAt == patched.createdAt) ==>
                Ids(Sort(true, runs)) == Ids(Sort(true, old(runs)))
    {
      var i := 0;
      found := false;
      while i < |runs| && runs[i].id != id
        invariant i <= |runs| && runs == old(runs)
        invariant forall k :: 0 <= k < i ==> runs[k].id != id
      {
        i := i + 1;
      }
      if i < |runs| {
        found := true;
        runs := runs[i := patched.(updatedAt := clock)];
      }
      if SameKeys(runs, old(runs)) {
        UpdateKeepsOrder(runs, old(runs));
      }
    }

    method FindIndex(sorted: seq<Run>, id: nat) returns (index: int)
      ensures index == IndexOf(sorted, id)
    {
      var i := 0;
      while i < |sorted|
        invariant i <= |sorted|
        invariant IndexOf(sorted, id) == if IndexOf(sorted[i..], id) < 0 then -1 else i + IndexOf(sorted[i..], id)
      {
        if sorted[i].id == id {
          return i;
        }
        assert sorted[i..][1..] == sorted[i + 1..];
        i := i + 1;
      }
      return -1;
    }

    method List(before: Option<nat>, limit: Option<int>) returns (listing: Listing)
      ensures listing == ListHistory(runs, before, limit)
      ensures before.None? ==> listing.Page? && listing == PageAfter(Sort(true, runs), -1, ClampLimit(limit))
    {
      var sorted := Sort(true, runs);
      var index := -1;
      if before.Some? {
        index := FindIndex(sorted, before.value);
        if index < 0 {
          return InvalidCursor;
        }
      }
      listing := Slice(sorted, index, ClampLimit(limit));
    }

    method Slice(sorted: seq<Run>, index: int, limit: nat) returns (listing: Listing)
      requires -1 <= index < |sorted| && 1 <= limit
      ensures listing == PageAfter(sorted, index, limit)
    {
      var start := index + 1;
      var end := if start + limit < |sorted| then start + limit else |sorted|;
      var page := sorted[start..end];
      if start + limit < |sorted| {
        return Page(page, Some(page[|page| - 1].id));
      }
      return Page(page, None);
    }
  }
}
