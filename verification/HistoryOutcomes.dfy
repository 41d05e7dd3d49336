/** What a page of the history holds, and what a prompt is given of it, in the runs' own fields. */
module HistoryOutcomes {
  import opened Options
  import opened Texts
  import opened RunRecords
  import opened HistoryPaging
  import opened TurnBudget
  import opened ConversationWindow

  // ---- creation times ----

  /** The creation time of a new run is the clock, or if that is not later than every stored run, the
      least time that is; it is also the time of its last update. */
  lemma CreatedAsEarlyAsMayBe(runs: seq<Run>, clock: int, run: Run)
    requires DistinctIds(runs)
    ensures var stored := At(run, NextTime(runs, clock));
            && stored == run.(createdAt := stored.createdAt, updatedAt := stored.createdAt)
            && stored.createdAt >= clock && (runs == [] ==> stored.createdAt == clock || stored.createdAt == 1 > clock)
            && (forall r :: r in runs ==> r.createdAt < stored.createdAt)
            && (runs != [] ==> stored.createdAt == clock || exists r :: r in runs && stored.createdAt == r.createdAt + 1)
  {
    CreateIsNewest(runs, clock);
    SortPermutes(true, runs);
    var sorted := Sort(true, runs);
    assert sorted != [] ==> sorted[0] in runs;
  }

  // ---- pages ----

  /** The run comes after the cursor: it is older than the run the cursor names. */
  predicate Beyond(cursor: Option<Run>, r: Run) {
    cursor.None? || r.createdAt < cursor.value.createdAt || (r.createdAt == cursor.value.createdAt && r.id < cursor.value.id)
  }

  /** Fifty runs unless the client asks for another number, and between one and a hundred. */
  predicate IsPageSize(limit: Option<int>, size: nat) {
    && (limit.None? ==> size == 50)
    && (limit.Some? && 1 <= limit.value <= 100 ==> size == limit.value)
    && (limit.Some? && limit.value < 1 ==> size == 1)
    && (limit.Some? && limit.value > 100 ==> size == 100)
  }

  /** The page holds the newest runs beyond the cursor, newest first, up to the page size; there is a
      next cursor exactly if older ones are left, and it names the last run of the page. */
  ghost predicate IsPage(runs: seq<Run>, cursor: Option<Run>, size: nat, page: seq<Run>, next: Option<nat>) {
    && |page| <= size
    && (forall r :: r in page ==> r in runs && Beyond(cursor, r))
    && (forall i, j :: 0 <= i < j < |page| ==> Beyond(Some(page[i]), page[j]))
    && (forall r :: r in runs && Beyond(cursor, r) && r !in page ==> next.Some? && |page| == size && AfterAll(page, r))
    && (next.Some? ==> page != [] && next.value == page[|page| - 1].id && exists r :: r in runs && Beyond(cursor, r) && r !in page)
  }

  ghost predicate AfterAll(page: seq<Run>, r: Run) {
    forall i :: 0 <= i < |page| ==> Beyond(Some(page[i]), r)
  }

  ghost predicate NewestFirst(sorted: seq<Run>) {
    forall i, j :: 0 <= i < j < |sorted| ==> Beyond(Some(sorted[i]), sorted[j])
  }

  lemma InSlice(sorted: seq<Run>, index: int, end: nat, r: Run)
    requires NewestFirst(sorted) && -1 <= index < |sorted| && index < end <= |sorted| && r in sorted[index + 1..end]
    ensures r in sorted && Beyond(if index < 0 then None else Some(sorted[index]), r)
  {
    var page := sorted[index + 1..end];
    var i :| 0 <= i < |page| && page[i] == r;
    assert sorted[index + 1 + i] == r;
  }

  lemma PastSlice(sorted: seq<Run>, index: int, end: nat, r: Run)
    requires NewestFirst(sorted) && -1 <= index < |sorted| && index < end <= |sorted| && r in sorted && r !in sorted[index + 1..end]
    requires Beyond(if index < 0 then None else Some(sorted[index]), r)
    ensures end < |sorted| && AfterAll(sorted[index + 1..end], r)
  {
    var page := sorted[index + 1..end];
    forall k | index < k < end ensures sorted[k] in page {
      assert page[k - index - 1] == sorted[k];
    }
    assert forall k :: 0 <= k < index ==> Beyond(Some(sorted[k]), sorted[index]);
    var k :| 0 <= k < |sorted| && sorted[k] == r;
    assert k >= end;
  }

  /** The part of a newest-first list after position `index` up to `end`. */
  lemma SliceHolds(sorted: seq<Run>, index: int, end: nat, r: Run)
    requires NewestFirst(sorted) && -1 <= index < |sorted| && index < end <= |sorted|
    ensures var (page, cursor) := (sorted[index + 1..end], if index < 0 then None else Some(sorted[index]));
            && (r in page ==> r in sorted && Beyond(cursor, r))
            && (r in sorted && Beyond(cursor, r) && r !in page ==> end < |sorted| && AfterAll(page, r))
  {
    if r in sorted[index + 1..end] {
      InSlice(sorted, index, end, r);
    } else if r in sorted && Beyond(if index < 0 then None else Some(sorted[index]), r) {
      PastSlice(sorted, index, end, r);
    }
  }

  lemma LeftOver(sorted: seq<Run>, index: int, end: nat)
    requires NewestFirst(sorted) && -1 <= index < end < |sorted|
    ensures var (page, cursor) := (sorted[index + 1..end], if index < 0 then None else Some(sorted[index]));
            Beyond(cursor, sorted[end]) && sorted[end] !in page
  {
    var page := sorted[index + 1..end];
    forall i | 0 <= i < |page| ensures page[i] != sorted[end] {
      assert Beyond(Some(sorted[index + 1 + i]), sorted[end]);
    }
  }

  lemma SliceIsPage(runs: seq<Run>, sorted: seq<Run>, index: int, size: nat)
    requires (forall r :: r in sorted <==> r in runs) && NewestFirst(sorted)
    requires -1 <= index < |sorted| && 1 <= size
    ensures var page := PageAfter(sorted, index, size);
            page.Page? && IsPage(runs, if index < 0 then None else Some(sorted[index]), size, page.runs, page.nextCursor)
  {
    var end := if index + 1 + size < |sorted| then index + 1 + size else |sorted|;
    forall r ensures
      var (page, cursor) := (sorted[index + 1..end], if index < 0 then None else Some(sorted[index]));
      && (r in page ==> r in sorted && Beyond(cursor, r))
      && (r in sorted && Beyond(cursor, r) && r !in page ==> end < |sorted| && AfterAll(page, r))
    {
      SliceHolds(sorted, index, end, r);
    }
    if end < |sorted| {
      LeftOver(sorted, index, end);
      assert sorted[end] in sorted;
    }
  }

  /** A page is refused exactly if no stored run has the cursor's id; else it is the page after it. */
  lemma PageIsExact(runs: seq<Run>, before: Option<nat>, limit: Option<int>)
    requires DistinctIds(runs)
    ensures var page := ListHistory(runs, before, limit);
            && (page.InvalidCursor? <==> before.Some? && forall r :: r in runs ==> r.id != before.value)
            && (page.Page? ==> exists cursor: Option<Run>, size: nat ::
                  && IsPageSize(limit, size) && IsPage(runs, cursor, size, page.runs, page.nextCursor)
                  && (before.None? ==> cursor.None?) && (before.Some? ==> cursor.Some? && cursor.value in runs && cursor.value.id == before.value))
  {
    var sorted := Sort(true, runs);
    SortPermutes(true, runs);
    SortedByTime(true, runs);
    assert NewestFirst(sorted);
    var index := if before.Some? then IndexOf(sorted, before.value) else -1;
    if before.Some? && index < 0 {
      forall r | r in runs ensures r.id != before.value {
        assert r in sorted;
      }
    } else {
      SliceIsPage(runs, sorted, index, ClampLimit(limit));
      assert IsPageSize(limit, ClampLimit(limit));
      if index >= 0 {
        assert sorted[index] in runs;
      }
    }
  }

  // ---- what a prompt is given ----

  /** A run is told in a prompt exactly if it is a finished turn of the user after every `/newsession`. */
  lemma EligibleInFields(runs: seq<Run>, r: Run)
    requires DistinctIds(runs)
    ensures r in Eligible(runs) <==>
              && r in runs && !r.scheduled && r.status != Queued && r.status != Running
              && forall q :: q in runs && q.message == NEW_SESSION ==> Beyond(Some(r), q)
    ensures forall i, j :: 0 <= i < j < |Eligible(runs)| ==> Beyond(Some(Eligible(runs)[j]), Eligible(runs)[i])
  {
    EligibleExactly(runs, r);
    EligibleOrdered(runs);
    forall q ensures Older(q, r) <==> Beyond(Some(r), q) {}
    var eligible := Eligible(runs);
    forall i, j | 0 <= i < j < |eligible| ensures Beyond(Some(eligible[j]), eligible[i]) {
      assert Precedes(false, eligible[i], eligible[j]);
    }
  }

  function Units(s: string): Text {
    seq(|s|, i requires 0 <= i < |s| => s[i] as int)
  }

  function Name(status: Status): string {
    match status
    case Queued => "queued"
    case Running => "running"
    case Completed => "completed"
    case Cancelled => "cancelled"
    case Failed => "failed"
    case NeedsApproval => "needs_approval"
  }

  lemma StatusTextIs(status: Status)
    ensures StatusText(status) == Units(Name(status))
  {
  }

  /** What is told of a run that did not complete. */
  function Report(run: Run): Text {
    Units("[") + Units(Name(run.status)) + Units("] ") + OrEmpty(run.assistantPreview) + Units("\n") + OrEmpty(run.assistantText)
  }

  lemma UnitsAre()
    ensures Units("[") == [0x5B] && Units("] ") == [0x5D, 0x20] && Units("\n") == [0x0A]
  {
  }

  lemma ReportIsTrimmed(run: Run)
    requires run.status != Completed
    ensures Answer(run) == TrimBoth(Report(run), IsSpace) && Report(run) != [] && Report(run)[0] == 0x5B
  {
    UnitsAre();
    StatusTextIs(run.status);
  }

  lemma TrimmedAtTheEnd(t: Text) returns (trail: Text)
    requires t != [] && !IsSpace(t[0])
    ensures var r := TrimBoth(t, IsSpace);
            r + trail == t && AllSpace(trail, IsSpace) && (r != [] ==> !IsSpace(r[|r| - 1]))
  {
    assert TrimStart(t, IsSpace) == t;
    trail := TrimEndIs(t, IsSpace);
  }

  /** The answer of a completed run is its text; any other run is told with its status in brackets, its
      preview and its text, trimmed at the end. */
  lemma AnswerIs(run: Run) returns (trail: Text)
    ensures run.status == Completed ==> Answer(run) == if run.assistantText.Some? then run.assistantText.value else []
    ensures run.status != Completed ==>
              && Answer(run) + trail == Report(run) && AllSpace(trail, IsSpace)
              && (Answer(run) != [] ==> !IsSpace(Answer(run)[|Answer(run)| - 1]))
  {
    trail := [];
    if run.status != Completed {
      ReportIsTrimmed(run);
      trail := TrimmedAtTheEnd(Report(run));
    }
  }

  /** A text is cut to its front, sixteen units shorter than allowed, and the mark of a cut. */
  ghost predicate IsCut(t: Text, max: int, cut: Text) {
    if |t| <= max then cut == t
    else exists n: nat :: n <= |t| && cut == t[..n] + CUT_MARK && (if max < 16 then n == 0 else n == max - 16)
  }

  lemma ClipIsCut(t: Text, max: int)
    ensures IsCut(t, max, Clip(t, max))
  {
    if |t| > max {
      var n := if max < 16 then 0 else max - 16;
      assert Clip(t, max) == t[..n] + CUT_MARK;
    }
  }

  /** A turn that fits is told whole; else the question is cut to half of what is left and the answer to the rest. */
  lemma FitIs(turn: Turn, remaining: int)
    ensures var pair := Fit(turn, remaining);
            && pair.run == turn.run
            && (|turn.message| + |turn.answer| <= remaining ==> pair.message == turn.message && pair.content == turn.answer)
            && (|turn.message| + |turn.answer| > remaining ==>
                  IsCut(turn.message, remaining / 2, pair.message) && IsCut(turn.answer, remaining - |pair.message|, pair.content))
  {
    ClipIsCut(turn.message, remaining / 2);
    ClipIsCut(turn.answer, remaining - |Fit(turn, remaining).message|);
  }

  /** How a run is told by two entries: whole, or cut to a budget. */
  ghost predicate ToldBy(run: Run, answer: Text, whole: bool, budget: int, asked: Entry, answered: Entry) {
    && asked.UserEntry? && answered.AssistantEntry?
    && asked.runId == run.id == answered.runId && asked.timestamp == run.createdAt && answered.timestamp == run.updatedAt
    && if whole then asked.content == run.message && answered.content == answer
       else IsCut(run.message, budget / 2, asked.content) && IsCut(answer, budget - |asked.content|, answered.content)
  }

  ghost predicate PairTells(turn: Turn, whole: bool, budget: int, pair: Pair) {
    && pair.run == turn.run
    && if whole then pair == WholePair(turn)
       else IsCut(turn.message, budget / 2, pair.message) && IsCut(turn.answer, budget - |pair.message|, pair.content)
  }

  lemma {:induction false} TakenTells(newest: seq<Turn>, budget: int, i: nat)
    requires i < |Take(Fit, newest, budget, 0)|
    ensures var pairs := Take(Fit, newest, budget, 0);
            |pairs| <= |newest| && PairTells(newest[i], i > 0 || Size(newest[i]) <= budget, budget, pairs[i])
  {
    FitIsFitter();
    TakeIsBest(Fit, newest, budget, 26);
    if i == 0 {
      TakeUnfolds(Fit, newest, budget, 0);
      FitIs(newest[0], budget);
    }
  }

  /** Pair `k` of the window, oldest first, is that of one of the newest turns. */
  ghost predicate PairIsOf(window: seq<Pair>, turns: seq<Turn>, budget: int, k: nat) {
    && k < |window| <= |turns|
    && var turn := turns[|turns| - |window| + k];
       PairTells(turn, k < |window| - 1 || Size(turn) <= budget, budget, window[k])
  }

  ghost predicate Mirrors(newest: seq<Turn>, turns: seq<Turn>) {
    |newest| == |turns| && forall i :: 0 <= i < |newest| ==> newest[i] == turns[|turns| - 1 - i]
  }

  lemma {:induction false} Mirrored(taken: seq<Pair>, newest: seq<Turn>, turns: seq<Turn>, budget: int, k: nat)
    requires k < |taken| <= |newest| && Mirrors(newest, turns)
    requires var i := |taken| - 1 - k; PairTells(newest[i], i > 0 || Size(newest[i]) <= budget, budget, taken[i])
    ensures PairIsOf(Reverse(taken), turns, budget, k)
  {
    var i := |taken| - 1 - k;
    assert newest[i] == turns[|turns| - |taken| + k];
    assert Reverse(taken)[k] == taken[i];
  }

  lemma {:induction false} PairsAreTurns(newest: seq<Turn>, turns: seq<Turn>, budget: int, k: nat)
    requires Mirrors(newest, turns) && k < |Take(Fit, newest, budget, 0)|
    ensures PairIsOf(Reverse(Take(Fit, newest, budget, 0)), turns, budget, k)
  {
    var taken := Take(Fit, newest, budget, 0);
    TakenTells(newest, budget, |taken| - 1 - k);
    Mirrored(taken, newest, turns, budget, k);
  }

  /** Of `n` pairs of entries, pair `k` tells its run, as the turn that the run was. */
  ghost predicate EntriesAreOf(entries: seq<Entry>, n: nat, eligible: seq<Run>, turns: seq<Turn>, budget: int, k: nat) {
    && |entries| == 2 * n && k < n <= |eligible| == |turns|
    && var run, turn := eligible[|eligible| - n + k], turns[|eligible| - n + k];
       && AskedAs(turn, run)
       && ToldBy(run, turn.answer, k < n - 1 || Size(turn) <= budget, budget, entries[2 * k], entries[2 * k + 1])
  }

  lemma {:induction false} EntriesTell(window: seq<Pair>, eligible: seq<Run>, turns: seq<Turn>, budget: int, k: nat)
    requires PairIsOf(window, turns, budget, k)
    requires |turns| == |eligible| && forall i :: 0 <= i < |turns| ==> AskedAs(turns[i], eligible[i])
    ensures EntriesAreOf(Flat(window), |window|, eligible, turns, budget, k)
  {
    var i := |eligible| - |window| + k;
    FlatTells(window, k, turns[i], eligible[i], k < |window| - 1 || Size(turns[i]) <= budget, budget);
  }

  /** The entries of a prompt are the newest eligible runs, oldest first, each as the user's message at
      its creation and then the answer at its last update. All but the newest are told whole, and the
      newest too if it fits; else it is cut to the budget. */
  lemma EntriesAreRuns(runs: seq<Run>, budget: int, k: nat)
    requires k < |Window(runs, budget)|
    ensures EntriesAreOf(Flat(Window(runs, budget)), |Window(runs, budget)|, Eligible(runs), Turns(Eligible(runs)), budget, k)
    ensures forall i :: 0 <= i < |Eligible(runs)| ==> Turns(Eligible(runs))[i].answer == Answer(Eligible(runs)[i])
  {
    PairsAreTurns(NewestTurns(runs), Turns(Eligible(runs)), budget, k);
    EntriesTell(Window(runs, budget), Eligible(runs), Turns(Eligible(runs)), budget, k);
  }

  /** The turn is this run's, but for its answer. */
  predicate AskedAs(turn: Turn, run: Run) {
    turn.run == Source(run.id, run.createdAt, run.updatedAt) && turn.message == run.message
  }

  lemma {:induction false} FlatTells(pairs: seq<Pair>, k: nat, turn: Turn, run: Run, whole: bool, budget: int)
    requires k < |pairs| && PairTells(turn, whole, budget, pairs[k]) && AskedAs(turn, run)
    ensures |Flat(pairs)| == 2 * |pairs| && ToldBy(run, turn.answer, whole, budget, Flat(pairs)[2 * k], Flat(pairs)[2 * k + 1])
  {
    assert Flat(pairs)[2 * k] == AskedIn(pairs[k]) && Flat(pairs)[2 * k + 1] == AnsweredIn(pairs[k]);
  }

  /** With the budget that is used when none is given, a prompt holds at most 24000 characters of history. */
  lemma DefaultIsEnough(runs: seq<Run>)
    ensures Total(Window(runs, DEFAULT_BUDGET)) <= 24000
  {
    WithinBudgetExactly(DEFAULT_BUDGET);
  }
}
