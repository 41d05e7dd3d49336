/** The part of a session's history that goes into a prompt: the newest turns that fit a budget. */
module ConversationWindow {
  import opened Options
  import opened RunRecords
  import opened Texts
  import opened TurnBudget

  const DEFAULT_BUDGET := 24000

  datatype Entry =
    | UserEntry(content: Text, runId: nat, timestamp: int)
    | AssistantEntry(content: Text, runId: nat, timestamp: int)

  // "/newsession"
  const NEW_SESSION: Text := [0x2F, 0x6E, 0x65, 0x77, 0x73, 0x65, 0x73, 0x73, 0x69, 0x6F, 0x6E]
  // a space, an ellipsis and "[truncated]"
  const CUT_MARK: Text := [0x20, 0x2026, 0x5B, 0x74, 0x72, 0x75, 0x6E, 0x63, 0x61, 0x74, 0x65, 0x64, 0x5D]

  const CUT_RESERVE := 16

  // ---- the text of an answer ----

  function StatusText(status: Status): Text {
    match status
    case Queued => [0x71, 0x75, 0x65, 0x75, 0x65, 0x64]
    case Running => [0x72, 0x75, 0x6E, 0x6E, 0x69, 0x6E, 0x67]
    case Completed => [0x63, 0x6F, 0x6D, 0x70, 0x6C, 0x65, 0x74, 0x65, 0x64]
    case Cancelled => [0x63, 0x61, 0x6E, 0x63, 0x65, 0x6C, 0x6C, 0x65, 0x64]
    case Failed => [0x66, 0x61, 0x69, 0x6C, 0x65, 0x64]
    case NeedsApproval => [0x6E, 0x65, 0x65, 0x64, 0x73, 0x5F, 0x61, 0x70, 0x70, 0x72, 0x6F, 0x76, 0x61, 0x6C]
  }

  function OrEmpty(t: Option<Text>): Text {
    if t.Some? then t.value else []
  }

  function Answer(run: Run): Text {
    if run.status == Completed then OrEmpty(run.assistantText)
    else
      TrimBoth([0x5B] + StatusText(run.status) + [0x5D, 0x20] + OrEmpty(run.assistantPreview)
               + [0x0A] + OrEmpty(run.assistantText), IsSpace)
  }

  // ---- which runs ----

  predicate Counts(run: Run) {
    !run.scheduled && run.status != Queued && run.status != Running
  }

  /** Position of the last `/newsession`, or -1. */
  function LastReset(chronological: seq<Run>): (r: int)
    ensures -1 <= r < |chronological|
  {
    if chronological == [] then -1
    else if chronological[|chronological| - 1].message == NEW_SESSION then |chronological| - 1
    else LastReset(chronological[..|chronological| - 1])
  }

  function Filter(runs: seq<Run>): seq<Run> {
    if runs == [] then []
    else Filter(runs[..|runs| - 1]) + if Counts(runs[|runs| - 1]) then [runs[|runs| - 1]] else []
  }

  function Eligible(runs: seq<Run>): seq<Run> {
    var chronological := Sort(false, runs);
    Filter(chronological[LastReset(chronological) + 1..])
  }

  function TurnOf(run: Run): Turn {
    Turn(Source(run.id, run.createdAt, run.updatedAt), run.message, Answer(run))
  }

  function Turns(runs: seq<Run>): (turns: seq<Turn>)
    ensures |turns| == |runs|
    ensures forall i :: 0 <= i < |runs| ==> turns[i] == TurnOf(runs[i])
  {
    seq(|runs|, i requires 0 <= i < |runs| => TurnOf(runs[i]))
  }

  /** The eligible turns, newest first. */
  function NewestTurns(runs: seq<Run>): seq<Turn> {
    Reverse(Turns(Eligible(runs)))
  }

  // ---- which of them fit, and how ----

  function Clip(t: Text, max: int): Text {
    if |t| <= max then t
    else t[..if max - CUT_RESERVE < 0 then 0 else if max - CUT_RESERVE > |t| then |t| else max - CUT_RESERVE] + CUT_MARK
  }

  function Fit(turn: Turn, remaining: int): Pair {
    var userBudget := if |turn.message| <= remaining / 2 then |turn.message| else remaining / 2;
    var message := if Size(turn) <= remaining then turn.message else Clip(turn.message, userBudget);
    Pair(turn.run, message, Clip(turn.answer, remaining - |message|))
  }

  function WindowOf(newest: seq<Turn>, budget: int): seq<Pair> {
    Reverse(Take(Fit, newest, budget, 0))
  }

  function Window(runs: seq<Run>, budget: int): seq<Pair> {
    WindowOf(NewestTurns(runs), budget)
  }

  function AskedIn(pair: Pair): Entry {
    UserEntry(pair.message, pair.run.id, pair.run.askedAt)
  }

  function AnsweredIn(pair: Pair): Entry {
    AssistantEntry(pair.content, pair.run.id, pair.run.answeredAt)
  }

  function Flat(pairs: seq<Pair>): (entries: seq<Entry>)
    ensures |entries| == 2 * |pairs|
    ensures forall i :: 0 <= i < |pairs| ==>
              entries[2 * i] == AskedIn(pairs[i]) && entries[2 * i + 1] == AnsweredIn(pairs[i])
  {
    if pairs == [] then []
    else [AskedIn(pairs[0]), AnsweredIn(pairs[0])] + Flat(pairs[1..])
  }

  // ---- which runs are eligible ----

  lemma {:induction false} LastResetIs(chronological: seq<Run>)
    ensures var r := LastReset(chronological);
            && (r >= 0 ==> chronological[r].message == NEW_SESSION)
            && forall i :: r < i < |chronological| ==> chronological[i].message != NEW_SESSION
  {
    if chronological != [] {
      LastResetIs(chronological[..|chronological| - 1]);
    }
  }

  lemma {:induction false} FilterMembers(runs: seq<Run>)
    ensures forall r :: r in Filter(runs) <==> r in runs && Counts(r)
  {
    if runs != [] {
      FilterMembers(runs[..|runs| - 1]);
      assert runs == runs[..|runs| - 1] + [runs[|runs| - 1]];
    }
  }

  lemma {:induction false} FilterOrdered(runs: seq<Run>)
    requires Ordered(false, runs)
    ensures Ordered(false, Filter(runs))
  {
    if runs != [] {
      var n := |runs| - 1;
      FilterOrdered(runs[..n]);
      FilterMembers(runs[..n]);
      forall i | 0 <= i < |Filter(runs[..n])| ensures Precedes(false, Filter(runs[..n])[i], runs[n]) {
        assert Filter(runs[..n])[i] in runs[..n];
      }
    }
  }

  /** No `/newsession` at or after this run. */
  ghost predicate SinceReset(runs: seq<Run>, r: Run) {
    forall q :: q in runs && q.message == NEW_SESSION ==> Older(q, r)
  }

  /** The eligible runs are in chronological order. */
  lemma EligibleOrdered(runs: seq<Run>)
    requires DistinctIds(runs)
    ensures Ordered(false, Eligible(runs))
  {
    var chronological := Sort(false, runs);
    SortOrdered(false, runs);
    FilterOrdered(chronological[LastReset(chronological) + 1..]);
  }

  /** A run is eligible exactly when it is a finished user turn after every `/newsession`. */
  lemma EligibleExactly(runs: seq<Run>, r: Run)
    requires DistinctIds(runs)
    ensures r in Eligible(runs) <==> r in runs && Counts(r) && SinceReset(runs, r)
  {
    var chronological := Sort(false, runs);
    SortPermutes(false, runs);
    SortOrdered(false, runs);
    FilterMembers(chronological[LastReset(chronological) + 1..]);
    AfterReset(chronological, r);
    SameReset(chronological, runs, r);
  }

  lemma SameReset(a: seq<Run>, b: seq<Run>, r: Run)
    requires forall q :: q in a <==> q in b
    ensures SinceReset(a, r) <==> SinceReset(b, r)
  {
  }

  lemma {:induction false} AfterReset(chronological: seq<Run>, r: Run)
    requires Ordered(false, chronological)
    ensures r in chronological[LastReset(chronological) + 1..] <==> r in chronological && SinceReset(chronological, r)
  {
    var late := chronological[LastReset(chronological) + 1..];
    if r in late {
      var i :| 0 <= i < |late| && late[i] == r;
      LateIsSinceReset(chronological, LastReset(chronological) + 1 + i);
    } else if r in chronological {
      EarlyIsNot(chronological, r);
    }
  }

  lemma {:induction false} EarlyIsNot(chronological: seq<Run>, r: Run)
    requires Ordered(false, chronological) && r in chronological && r !in chronological[LastReset(chronological) + 1..]
    ensures !SinceReset(chronological, r)
  {
    LastResetIs(chronological);
    var reset := LastReset(chronological);
    var i :| 0 <= i < |chronological| && chronological[i] == r;
    assert forall k :: reset < k < |chronological| ==> chronological[k] == chronological[reset + 1..][k - reset - 1];
    assert i == reset || Precedes(false, chronological[i], chronological[reset]);
    assert chronological[reset] in chronological;
  }

  lemma {:induction false} LateIsSinceReset(chronological: seq<Run>, i: nat)
    requires Ordered(false, chronological) && LastReset(chronological) < i < |chronological|
    ensures chronological[i] in chronological && SinceReset(chronological, chronological[i])
  {
    LastResetIs(chronological);
    forall q | q in chronological && q.message == NEW_SESSION ensures Older(q, chronological[i]) {
      var j :| 0 <= j < |chronological| && chronological[j] == q;
      assert j < i;
      assert Precedes(false, chronological[j], chronological[i]);
    }
  }

  // ---- what the window holds ----

  lemma ClipLength(t: Text, max: int)
    ensures |Clip(t, max)| == if |t| <= max then |t| else if max >= CUT_RESERVE then max - 3 else 13
  {
  }

  /** A turn that fits is taken whole and costs its size. */
  lemma WholeFits(turn: Turn, remaining: int)
    requires Size(turn) <= remaining
    ensures Fit(turn, remaining) == WholePair(turn)
  {
  }

  /** A turn that does not fit is cut to the budget, unless the budget is too small for two cut marks. */
  lemma CutFits(turn: Turn, budget: int)
    requires 26 <= budget
    ensures PairSize(Fit(turn, budget)) <= budget
  {
    var pair := Fit(turn, budget);
    ClipLength(turn.message, if |turn.message| <= budget / 2 then |turn.message| else budget / 2);
    ClipLength(turn.answer, budget - |pair.message|);
  }

  lemma FitIsFitter()
    ensures Fits(Fit, 26)
  {
    forall turn, remaining | Size(turn) <= remaining ensures Fit(turn, remaining) == WholePair(turn) {
      WholeFits(turn, remaining);
    }
    forall turn, remaining | 26 <= remaining ensures PairSize(Fit(turn, remaining)) <= remaining {
      CutFits(turn, remaining);
    }
  }

  // ---- main results ----

  /** The window of any newest-first list of turns is a contiguous run of the newest, in chronological
      order, with only the newest ever cut, and that only when it does not fit by itself; as many older
      turns are in as fit. */
  lemma WindowIsBest(newest: seq<Turn>, budget: int)
    ensures IsBestWindow(Reverse(WindowOf(newest, budget)), newest, budget)
  {
    FitIsFitter();
    TakeIsBest(Fit, newest, budget, 26);
    ReverseTwice(Take(Fit, newest, budget, 0));
  }

  lemma WindowIsNewest(runs: seq<Run>, budget: int)
    ensures IsBestWindow(Reverse(Window(runs, budget)), NewestTurns(runs), budget)
  {
    WindowIsBest(NewestTurns(runs), budget);
  }

  lemma ReverseTwice(pairs: seq<Pair>)
    ensures Reverse(Reverse(pairs)) == pairs
  {
    assert |Reverse(Reverse(pairs))| == |pairs|;
    forall i | 0 <= i < |pairs| ensures Reverse(Reverse(pairs))[i] == pairs[i] {
      assert Reverse(Reverse(pairs))[i] == Reverse(pairs)[|pairs| - 1 - i];
    }
  }

  lemma {:induction false} TotalSnoc(pairs: seq<Pair>, pair: Pair)
    ensures Total(pairs + [pair]) == Total(pairs) + PairSize(pair)
  {
    if pairs == [] {
      assert [pair][1..] == [];
      assert [] + [pair] == [pair];
    } else {
      assert (pairs + [pair])[1..] == pairs[1..] + [pair];
      TotalSnoc(pairs[1..], pair);
    }
  }

  lemma {:induction false} TotalReverse(pairs: seq<Pair>)
    ensures Total(Reverse(pairs)) == Total(pairs)
  {
    if pairs != [] {
      TotalReverse(pairs[1..]);
      TotalSnoc(Reverse(pairs[1..]), pairs[0]);
    }
  }

  /** One run whose message and answer are both too long for any budget below 26. */
  function LongRun(): Run {
    Run(0, 0, 0, Completed, false, seq(50, _ => 0x61), Some(seq(50, _ => 0x61)), None)
  }

  lemma LongRunIsEligible()
    ensures NewestTurns([LongRun()]) == [Turn(Source(0, 0, 0), LongRun().message, LongRun().message)]
  {
    var run := LongRun();
    assert run.message[0] == 0x61 && NEW_SESSION[0] == 0x2F;
    assert [run][..0] == [];
    assert Sort(false, [run]) == [run];
    assert LastReset([run]) == -1;
    assert [run][0..] == [run];
    assert Filter([run]) == [run];
  }

  lemma LongTurnOverruns(turn: Turn, budget: int)
    requires budget < 26 && |turn.message| == 50 && |turn.answer| == 50
    ensures Total(Take(Fit, [turn], budget, 0)) == 26
  {
    ClipLength(turn.message, budget / 2);
    ClipLength(turn.answer, budget - 13);
    TakeUnfolds(Fit, [turn], budget, 0);
    assert Rest(Fit, [turn], budget, 0) == [];
    TotalCons(Fit(turn, budget), []);
  }

  /** The window keeps within its budget whatever the runs, exactly when the budget has room for two cut
      marks. */
  lemma WithinBudgetExactly(budget: int)
    ensures (forall runs :: Total(Window(runs, budget)) <= budget) <==> 26 <= budget
  {
    if 26 <= budget {
      FitIsFitter();
      forall runs ensures Total(Window(runs, budget)) <= budget {
        TakeTotal(Fit, NewestTurns(runs), budget, 0, 26);
        TotalReverse(Take(Fit, NewestTurns(runs), budget, 0));
      }
    } else {
      LongRunIsEligible();
      LongTurnOverruns(Turn(Source(0, 0, 0), LongRun().message, LongRun().message), budget);
      TotalReverse(Take(Fit, NewestTurns([LongRun()]), budget, 0));
      assert Total(Window([LongRun()], budget)) > budget;
    }
  }

  // ---- the loops ----

  /** The pass over the runs that looks for the last `/newsession`. */
  method FindReset(chronological: seq<Run>) returns (reset: int)
    ensures reset == LastReset(chronological)
  {
    reset := -1;
    for i := 0 to |chronological|
      invariant reset == LastReset(chronological[..i])
    {
      assert chronological[..i + 1][..i] == chronological[..i];
      if chronological[i].message == NEW_SESSION {
        reset := i;
      }
    }
    assert chronological[..|chronological|] == chronological;
  }

  lemma ReverseCons(pair: Pair, rest: seq<Pair>, pairs: seq<Pair>)
    ensures Reverse([pair] + rest) + pairs == Reverse(rest) + ([pair] + pairs)
  {
    assert ([pair] + rest)[1..] == rest;
  }

  /** One round of the loop: the newest turn moves to the front of the pairs. */
  lemma {:induction false} TakeOne(turns: seq<Turn>, remaining: int, pairs: seq<Pair>, pair: Pair)
    requires turns != [] && (Size(turns[0]) <= remaining || pairs == []) && pair == Fit(turns[0], remaining)
    ensures Reverse(Take(Fit, turns, remaining, |pairs|)) + pairs ==
            Reverse(Rest(Fit, turns, remaining, |pairs|)) + ([pair] + pairs)
  {
    TakeUnfolds(Fit, turns, remaining, |pairs|);
    ReverseCons(pair, Rest(Fit, turns, remaining, |pairs|), pairs);
  }

  method TakeNewest(turns: seq<Turn>, budget: int) returns (pairs: seq<Pair>)
    ensures pairs == Reverse(Take(Fit, turns, budget, 0))
  {
    pairs := [];
    var remaining := budget;
    var i := 0;
    while i < |turns|
      invariant i <= |turns|
      invariant Reverse(Take(Fit, turns, budget, 0)) == Reverse(Take(Fit, turns[i..], remaining, |pairs|)) + pairs
    {
      var turn := turns[i];
      if Size(turn) > remaining && |pairs| > 0 {
        return;
      }
      var pair := Fit(turn, remaining);
      TakeOne(turns[i..], remaining, pairs, pair);
      assert turns[i..][1..] == turns[i + 1..];
      pairs := [pair] + pairs;
      remaining := remaining - PairSize(pair);
      if remaining <= 0 {
        return;
      }
      i := i + 1;
    }
  }

  method Build(runs: seq<Run>, budget: int := DEFAULT_BUDGET) returns (entries: seq<Entry>)
    ensures entries == Flat(Window(runs, budget))
  {
    var chronological := Sort(false, runs);
    var reset := FindReset(chronological);
    var eligible := Filter(chronological[reset + 1..]);
    assert eligible == Eligible(runs);
    var pairs := TakeNewest(Reverse(Turns(eligible)), budget);
    assert pairs == Window(runs, budget);
    entries := Flat(pairs);
  }
}
