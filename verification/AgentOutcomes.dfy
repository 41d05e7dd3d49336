/** What each round of the agent loop comes to, in terms of the clock, the reply and the tools. */
module AgentOutcomes {
  import opened Options
  import opened AgentLoop

  // ---- rounds ----

  /** The provider answered. */
  predicate Heard(round: Round) {
    !round.expired && !round.cancelled && round.reply.failure == None
  }

  function TextOf(reply: Reply): Text {
    if reply.content.Some? then reply.content.value else []
  }

  /** The answer is a final text: the model stopped, or said something without asking for tools and was
      not cut off. */
  predicate Speaks(round: Round) {
    && Heard(round)
    && (round.reply.finish == Stop || (round.reply.calls == [] && TextOf(round.reply) != [] && round.reply.finish != Length))
  }

  predicate CallsTools(round: Round) {
    Heard(round) && !Speaks(round) && round.reply.calls != []
  }

  predicate Aborts(round: Round) {
    !round.expired
    && (round.cancelled || (round.reply.failure.Some? && round.reply.failure.value.cancelled && round.reply.callerCancelled))
  }

  predicate Breaks(round: Round) {
    !round.expired && !round.cancelled && round.reply.failure.Some? && !Aborts(round)
  }

  function Says(said: Said): Option<Outcome> {
    Some(Completed(said))
  }

  // ---- a turn of a user ----

  /** The calls of a reply all run if the budget allows, and fail the turn if not. */
  lemma {:induction false} CallsUnscheduled(cfg: Config, st: State, calls: seq<ToolCall>, runs: seq<ToolRun>)
    requires !cfg.schedulerTurn
    ensures var (r, o) := CallTools(cfg, st, calls, runs);
            && (o == None || o == Some(Failed))
            && (o == None <==> calls == [] || st.toolCallCount + |calls| <= cfg.toolLimit)
            && (o == None ==> r.toolCallCount == st.toolCallCount + |calls| && r.repaired == st.repaired)
    decreases |calls|
  {
    if calls != [] && st.toolCallCount < cfg.toolLimit {
      CallsUnscheduled(cfg, Execute(st, calls[0], FirstRun(runs)), calls[1..], if runs == [] then [] else runs[1..]);
    }
  }

  /** When a user's turn is over after a round, and with what. */
  predicate EndsUnscheduled(cfg: Config, st: State, round: Round, last: bool, o: Option<Outcome>) {
    var text := TextOf(round.reply);
    var doubtful := cfg.ungrounded(text, st.successful);
    && (o == Says(ModelText(text)) <==> Speaks(round) && !doubtful && text != [])
    && (o == Says(NothingSaid) <==> Speaks(round) && !doubtful && text == [])
    && (o == Says(GroundingFallback) <==> Speaks(round) && doubtful && (st.repaired || last))
    && (o == Says(SavedResults) <==> round.expired && st.artifacts > 0)
    && (o == Some(Cancelled) <==> Aborts(round))
    && (o == Some(Failed) <==>
          || (round.expired && st.artifacts == 0) || Breaks(round)
          || (Heard(round) && !Speaks(round) && !CallsTools(round))
          || (CallsTools(round) && st.toolCallCount + |round.reply.calls| > cfg.toolLimit))
    && (o == None <==>
          || (Speaks(round) && doubtful && !st.repaired && !last)
          || (CallsTools(round) && st.toolCallCount + |round.reply.calls| <= cfg.toolLimit))
  }

  lemma {:induction false} RoundUnscheduled(cfg: Config, st: State, round: Round, last: bool)
    requires !cfg.schedulerTurn
    ensures EndsUnscheduled(cfg, st, round, last, DoRound(cfg, st, round, last).1)
  {
    if CallsTools(round) {
      var asked := st.(log := st.log + [Asked(st.messages)], progress := OrElse(round.reply.content, st.progress),
                       messages := st.messages + [ToolCalls(round.reply.calls)]);
      CallsUnscheduled(cfg, asked, round.reply.calls, round.runs);
    }
  }

  /** A doubtful text is put back to the model once, with the instruction to repair it. */
  lemma {:induction false} DoubtfulIsRepairedOnce(cfg: Config, st: State, round: Round, last: bool)
    requires !cfg.schedulerTurn && Speaks(round) && cfg.ungrounded(TextOf(round.reply), st.successful) && !st.repaired && !last
    ensures var r := DoRound(cfg, st, round, last).0;
            && r.repaired && r.messages == st.messages + [Plain(TextOf(round.reply)), RepairInstruction]
            && r.successful == st.successful && r.toolCallCount == st.toolCallCount && r.artifacts == st.artifacts
  {
  }

  // ---- a scheduled turn ----

  /** The action is the one selected before, or else forced for this reason. */
  ghost predicate ForcedFor(st: State, r: State, o: Option<Outcome>, why: ForceReason, progress: Option<Text>) {
    && r.action == (if st.action.Some? then st.action else Some(Forced(why, progress)))
    && o == Says(ActionSummary(r.action.value))
  }

  /** Why a scheduled turn's action is forced by a round that calls no tools. */
  lemma {:induction false} RoundScheduled(cfg: Config, st: State, round: Round, last: bool)
    requires cfg.schedulerTurn && !CallsTools(round)
    ensures var (r, o) := DoRound(cfg, st, round, last);
            var said := TextOf(round.reply);
            var latest := if round.reply.content.Some? then round.reply.content else st.progress;
            && (o == Some(Cancelled) <==> Aborts(round))
            && (round.expired ==> ForcedFor(st, r, o, DeadlinePassed, st.progress))
            && (Breaks(round) && round.reply.failure.value.cancelled && round.reply.deadlineHit ==>
                  ForcedFor(st, r, o, CallTimedOut, st.progress))
            && (Breaks(round) && !(round.reply.failure.value.cancelled && round.reply.deadlineHit) ==>
                  ForcedFor(st, r, o, ProviderFailed,
                            if round.reply.failure.value.message.Some? then round.reply.failure.value.message else st.progress))
            && (Speaks(round) ==> ForcedFor(st, r, o, NoActionSelected, if said != [] then Some(said) else latest))
            && (Heard(round) && !Speaks(round) ==> ForcedFor(st, r, o, UnexpectedFinish, latest))
  {
  }

  // ---- tool calls ----

  /** The state after the first `n` calls, if all of them run. */
  function Ran(st: State, calls: seq<ToolCall>, runs: seq<ToolRun>, n: nat): State
    requires n <= |calls|
    decreases n
  {
    if n == 0 then st else Ran(Execute(st, calls[0], FirstRun(runs)), calls[1..], if runs == [] then [] else runs[1..], n - 1)
  }

  function RunAt(runs: seq<ToolRun>, i: nat): ToolRun {
    if i < |runs| then runs[i] else UNSCRIPTED
  }

  /** What one tool call leaves: it is counted and answered, and its result is the latest progress. It
      succeeds unless it fails or tries to select a second action. */
  lemma CallOutcome(st: State, call: ToolCall, run: ToolRun)
    ensures var r := Execute(st, call, run);
            var second := run.attempt.Some? && st.action.Some?;
            && r.toolCallCount == st.toolCallCount + 1 && r.messages == st.messages + [ToolResult(call.id)]
            && r.progress == Some(run.result) && r.artifacts == st.artifacts + run.artifacts && r.repaired == st.repaired
            && r.action == (if st.action.Some? then st.action else run.attempt)
            && r.successful == (if run.fails || second then st.successful else st.successful + {call.tool})
            && |r.log| > 0 && r.log[|r.log| - 1] == Executed(call.tool, !run.fails && !second)
  {
  }

  /** A terminal action that was selected and reported as done ends a scheduled turn. */
  ghost predicate EndsTurn(cfg: Config, st: State, call: ToolCall, run: ToolRun) {
    && cfg.schedulerTurn && (call.tool == TaskComplete || call.tool == TaskReschedule)
    && !run.fails && (run.attempt.Some? ==> st.action == None) && (run.attempt.Some? || st.action.Some?)
  }

  /** The budget a call would exceed, if any: a scheduled turn keeps one call for its action. */
  ghost predicate OverBudget(cfg: Config, st: State, call: ToolCall) {
    st.toolCallCount >= cfg.toolLimit || (cfg.schedulerTurn && call.tool.Ordinary? && st.toolCallCount >= cfg.toolLimit - 1)
  }

  /** The calls run in order up to the first that is over budget or ends the turn. */
  lemma {:induction false} CallsRunInOrder(cfg: Config, st: State, calls: seq<ToolCall>, runs: seq<ToolRun>) returns (n: nat)
    ensures n <= |calls|
    ensures forall i :: 0 <= i < n && i < |calls| - 1 ==>
              !OverBudget(cfg, Ran(st, calls, runs, i), calls[i])
    ensures var (r, o) := CallTools(cfg, st, calls, runs);
            var before := Ran(st, calls, runs, n);
            if o == None then n == |calls| && r == before
            else if n < |calls| && OverBudget(cfg, before, calls[n]) then
              if cfg.schedulerTurn then
                ForcedFor(before, r, o, if calls[n].tool.Ordinary? then ObservationsSpent else ToolCallsSpent, before.progress)
              else r == before && o == Some(Failed)
            else
              && 1 <= n && r == before && o == (if r.action.Some? then Says(ActionSummary(r.action.value)) else None)
              && EndsTurn(cfg, Ran(st, calls, runs, n - 1), calls[n - 1], RunAt(runs, n - 1))
    decreases |calls|
  {
    if calls == [] || OverBudget(cfg, st, calls[0]) {
      n := 0;
    } else {
      var next := Execute(st, calls[0], FirstRun(runs));
      var later := if runs == [] then [] else runs[1..];
      if EndsTurn(cfg, st, calls[0], FirstRun(runs)) {
        n := 1;
      } else {
        var m := CallsRunInOrder(cfg, next, calls[1..], later);
        n := m + 1;
        forall i | 0 <= i < n && i < |calls| - 1 ensures !OverBudget(cfg, Ran(st, calls, runs, i), calls[i]) {
          if i > 0 {
            assert Ran(st, calls, runs, i) == Ran(next, calls[1..], later, i - 1);
          }
        }
      }
    }
  }

  // ---- the whole turn ----

  /** The state before the `k`-th round, if no earlier one ends the turn. */
  function Before(cfg: Config, st: State, rounds: seq<Round>, k: nat): State
    requires k <= |rounds|
    decreases k
  {
    if k == 0 then st else Before(cfg, DoRound(cfg, st, rounds[0], |rounds| == 1).0, rounds[1..], k - 1)
  }

  /** The turn is as its first round that ends it says; if none does, it is out of rounds. */
  lemma {:induction false} FirstEndDecides(cfg: Config, st: State, rounds: seq<Round>) returns (k: nat)
    ensures k <= |rounds|
    ensures forall j :: 0 <= j < k ==> DoRound(cfg, Before(cfg, st, rounds, j), rounds[j], j == |rounds| - 1).1 == None
    ensures var (r, outcome) := Loop(cfg, st, rounds);
            var before := Before(cfg, st, rounds, k);
            if k < |rounds| then DoRound(cfg, before, rounds[k], k == |rounds| - 1) == (r, Some(outcome))
            else if cfg.schedulerTurn then ForcedFor(before, r, Some(outcome), RoundsSpent, before.progress)
            else r == before && outcome == Failed
    decreases |rounds|
  {
    if rounds == [] || DoRound(cfg, st, rounds[0], |rounds| == 1).1.Some? {
      k := 0;
    } else {
      var next := DoRound(cfg, st, rounds[0], |rounds| == 1).0;
      var m := FirstEndDecides(cfg, next, rounds[1..]);
      k := m + 1;
      forall j | 0 <= j < k ensures DoRound(cfg, Before(cfg, st, rounds, j), rounds[j], j == |rounds| - 1).1 == None {
        if j > 0 {
          assert rounds[1..][j - 1] == rounds[j];
        }
      }
    }
  }

  /** So a grounded text that the model ends a round with is the answer of a user's turn, if no earlier
      round ended it; a doubtful one is replaced once the repair has been used up. */
  lemma {:induction false} GroundedTextIsTheAnswer(cfg: Config, history: seq<Message>, rounds: seq<Round>, k: nat)
    requires !cfg.schedulerTurn && k < |rounds| && Speaks(rounds[k])
    requires forall j :: 0 <= j < k ==> DoRound(cfg, Before(cfg, Start(history), rounds, j), rounds[j], j == |rounds| - 1).1 == None
    ensures var before, text := Before(cfg, Start(history), rounds, k), TextOf(rounds[k].reply);
            var outcome := Loop(cfg, Start(history), rounds).1;
            && (!cfg.ungrounded(text, before.successful) ==> outcome == Completed(if text == [] then NothingSaid else ModelText(text)))
            && (cfg.ungrounded(text, before.successful) && (before.repaired || k == |rounds| - 1) ==> outcome == Completed(GroundingFallback))
  {
    var n := FirstEndDecides(cfg, Start(history), rounds);
    RoundUnscheduled(cfg, Before(cfg, Start(history), rounds, k), rounds[k], k == |rounds| - 1);
  }

  /** A turn starts with its repair unused and nothing done: a doubtful text in the first of several
      rounds is put back to the model and does not end the turn. */
  lemma {:induction false} FirstDoubtIsRepaired(cfg: Config, history: seq<Message>, rounds: seq<Round>)
    requires !cfg.schedulerTurn && |rounds| > 1 && Speaks(rounds[0]) && cfg.ungrounded(TextOf(rounds[0].reply), {})
    ensures DoRound(cfg, Start(history), rounds[0], false).1 == None
    ensures var before := Before(cfg, Start(history), rounds, 1);
            && before.repaired && before.messages == history + [Plain(TextOf(rounds[0].reply)), RepairInstruction]
            && before.toolCallCount == 0 && before.successful == {} && before.action == None && before.artifacts == 0
  {
    RoundUnscheduled(cfg, Start(history), rounds[0], false);
    DoubtfulIsRepairedOnce(cfg, Start(history), rounds[0], false);
  }
}
