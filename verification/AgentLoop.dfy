/** The bounded agent loop: rounds of provider calls and tool calls, and the single terminal action of a
    scheduled turn. What the provider, the tools and the clock answer is a script of rounds. */
module AgentLoop {
  import opened Options

  /** Text as its UTF-16 code units. */
  type Text = seq<int>

  // ---- the terminal action ----

  datatype ForceReason = DeadlinePassed | CallTimedOut | ProviderFailed | NoActionSelected
    | ObservationsSpent | ToolCallsSpent | UnexpectedFinish | RoundsSpent

  datatype Action = Complete(summary: Text) | Reschedule(reason: Text) | Forced(why: ForceReason, progress: Option<Text>)

  // ---- the script ----

  datatype Tool = TaskComplete | TaskReschedule | Ordinary(name: nat)

  datatype ToolCall = ToolCall(id: nat, tool: Tool)

  /** How a tool ran: the action it tried to select, whether it failed by itself, and what it left. */
  datatype ToolRun = ToolRun(attempt: Option<Action>, fails: bool, result: Text, artifacts: nat)

  /** `cancelled` is the failure code of an aborted call. */
  datatype Failure = Failure(cancelled: bool, message: Option<Text>)

  datatype Finish = Stop | Length | OtherFinish

  datatype Reply = Reply(failure: Option<Failure>, callerCancelled: bool, deadlineHit: bool,
                         content: Option<Text>, finish: Finish, calls: seq<ToolCall>)

  datatype Round = Round(expired: bool, cancelled: bool, reply: Reply, runs: seq<ToolRun>)

  const UNSCRIPTED := ToolRun(None, true, [], 0)

  /** `ungrounded` is the check of claims in a text against the tools that succeeded. */
  datatype Config = Config(schedulerTurn: bool, toolLimit: int, ungrounded: (Text, set<Tool>) -> bool)

  // ---- the state ----

  datatype Message = Plain(text: Text) | RepairInstruction | ToolCalls(calls: seq<ToolCall>) | ToolResult(id: nat)

  datatype Event = Asked(messages: seq<Message>) | Executed(tool: Tool, ok: bool) | Selected(action: Action)

  datatype State = State(
    messages: seq<Message>,
    toolCallCount: nat,
    successful: set<Tool>,
    repaired: bool,
    progress: Option<Text>,
    artifacts: nat,
    action: Option<Action>,
    log: seq<Event>)

  datatype Said = ModelText(text: Text) | NothingSaid | GroundingFallback | SavedResults | ActionSummary(action: Action)

  datatype Outcome = Completed(said: Said) | Failed | Cancelled

  function Start(history: seq<Message>): State {
    State(history, 0, {}, false, None, 0, None, [])
  }

  predicate IsTerminal(tool: Tool) {
    !tool.Ordinary?
  }

  /** `complete` and `reschedule` of the turn control; the second selection throws. */
  function Select(st: State, action: Action): State {
    if st.action.Some? then st else st.(action := Some(action), log := st.log + [Selected(action)])
  }

  function Force(st: State, why: ForceReason, progress: Option<Text>): (State, Outcome) {
    var r := Select(st, Forced(why, progress));
    (r, Completed(ActionSummary(if r.action.Some? then r.action.value else Forced(why, progress))))
  }

  /** A scheduled turn ends with a forced action where another turn fails. */
  function GiveUp(cfg: Config, st: State, why: ForceReason, progress: Option<Text>): (State, Outcome) {
    if cfg.schedulerTurn then Force(st, why, progress) else (st, Failed)
  }

  // ---- tool calls ----

  predicate RunSucceeds(st: State, run: ToolRun) {
    !run.fails && (run.attempt.Some? ==> st.action.None?)
  }

  function Execute(st: State, call: ToolCall, run: ToolRun): State {
    var ok := RunSucceeds(st, run);
    var selected := if run.attempt.Some? then Select(st, run.attempt.value) else st;
    selected.(
      toolCallCount := st.toolCallCount + 1,
      successful := if ok then st.successful + {call.tool} else st.successful,
      progress := Some(run.result),
      artifacts := st.artifacts + run.artifacts,
      messages := st.messages + [ToolResult(call.id)],
      log := selected.log + [Executed(call.tool, ok)])
  }

  /** The tool a scheduled turn has no budget for, if any. */
  function BudgetSpent(cfg: Config, st: State, call: ToolCall): Option<ForceReason> {
    if cfg.schedulerTurn && !IsTerminal(call.tool) && st.toolCallCount >= cfg.toolLimit - 1 then Some(ObservationsSpent)
    else if st.toolCallCount >= cfg.toolLimit then Some(ToolCallsSpent)
    else None
  }

  function FirstRun(runs: seq<ToolRun>): ToolRun {
    if runs == [] then UNSCRIPTED else runs[0]
  }

  function CallTools(cfg: Config, st: State, calls: seq<ToolCall>, runs: seq<ToolRun>): (State, Option<Outcome>)
    decreases |calls|
  {
    if calls == [] then (st, None)
    else
      var spent := BudgetSpent(cfg, st, calls[0]);
      if spent.Some? then
        var (r, outcome) := GiveUp(cfg, st, spent.value, st.progress);
        (r, Some(outcome))
      else
        var ok := RunSucceeds(st, FirstRun(runs));
        var r := Execute(st, calls[0], FirstRun(runs));
        if cfg.schedulerTurn && IsTerminal(calls[0].tool) && ok && r.action.Some? then
          (r, Some(Completed(ActionSummary(r.action.value))))
        else CallTools(cfg, r, calls[1..], if runs == [] then [] else runs[1..])
  }

  // ---- a round ----

  function OrElse<T>(a: Option<T>, b: Option<T>): Option<T> {
    if a.Some? then a else b
  }

  predicate IsFinalText(reply: Reply) {
    reply.finish == Stop || (reply.calls == [] && reply.content.Some? && reply.content.value != [] && reply.finish != Length)
  }

  function FinalText(cfg: Config, st: State, text: Text, last: bool): (State, Option<Outcome>) {
    if !cfg.schedulerTurn && cfg.ungrounded(text, st.successful) then
      if !st.repaired && !last then
        (st.(repaired := true, messages := st.messages + [Plain(text), RepairInstruction]), None)
      else (st, Some(Completed(GroundingFallback)))
    else if cfg.schedulerTurn then
      var (r, outcome) := Force(st, NoActionSelected, if text != [] then Some(text) else st.progress);
      (r, Some(outcome))
    else (st, Some(Completed(if text == [] then NothingSaid else ModelText(text))))
  }

  /** The reason and the progress a failed provider call is given up with. */
  function FailureReason(reply: Reply): ForceReason
    requires reply.failure.Some?
  {
    if reply.failure.value.cancelled && reply.deadlineHit then CallTimedOut else ProviderFailed
  }

  function FailureProgress(st: State, reply: Reply): Option<Text>
    requires reply.failure.Some?
  {
    if FailureReason(reply) == CallTimedOut then st.progress else OrElse(reply.failure.value.message, st.progress)
  }

  function OnReply(cfg: Config, st: State, round: Round, last: bool): (State, Option<Outcome>) {
    var reply := round.reply;
    if reply.failure.Some? then
      if reply.failure.value.cancelled && reply.callerCancelled then (st, Some(Cancelled))
      else
        var (r, outcome) := GiveUp(cfg, st, FailureReason(reply), FailureProgress(st, reply));
        (r, Some(outcome))
    else
      var heard := st.(progress := OrElse(reply.content, st.progress));
      if IsFinalText(reply) then FinalText(cfg, heard, if reply.content.Some? then reply.content.value else [], last)
      else if reply.calls != [] then
        CallTools(cfg, heard.(messages := heard.messages + [ToolCalls(reply.calls)]), reply.calls, round.runs)
      else
        var (r, outcome) := GiveUp(cfg, heard, UnexpectedFinish, heard.progress);
        (r, Some(outcome))
  }

  /** One turn of the loop; `last` says that no iteration is left after it. */
  function DoRound(cfg: Config, st: State, round: Round, last: bool): (State, Option<Outcome>) {
    if round.expired then
      if cfg.schedulerTurn then
        var (r, outcome) := Force(st, DeadlinePassed, st.progress);
        (r, Some(outcome))
      else (st, Some(if st.artifacts > 0 then Completed(SavedResults) else Failed))
    else if round.cancelled then (st, Some(Cancelled))
    else OnReply(cfg, st.(log := st.log + [Asked(st.messages)]), round, last)
  }

  /** The loop over the iterations that are left. */
  function Loop(cfg: Config, st: State, rounds: seq<Round>): (State, Outcome)
    decreases |rounds|
  {
    if rounds == [] then GiveUp(cfg, st, RoundsSpent, st.progress)
    else
      var (r, outcome) := DoRound(cfg, st, rounds[0], |rounds| == 1);
      if outcome.Some? then (r, outcome.value) else Loop(cfg, r, rounds[1..])
  }

  // ---- the terminal action of a scheduled turn ----

  function Selections(log: seq<Event>): nat {
    if log == [] then 0 else Selections(log[..|log| - 1]) + if log[|log| - 1].Selected? then 1 else 0
  }

  lemma SelectionsSnoc(log: seq<Event>, e: Event)
    ensures Selections(log + [e]) == Selections(log) + if e.Selected? then 1 else 0
  {
    assert (log + [e])[..|log|] == log;
  }

  /** The action is the one selected, and nothing else was. */
  ghost predicate ActionOk(st: State) {
    && Selections(st.log) == (if st.action.Some? then 1 else 0)
    && (forall i :: 0 <= i < |st.log| && st.log[i].Selected? ==> st.action == Some(st.log[i].action))
  }

  lemma SelectOk(st: State, action: Action)
    requires ActionOk(st)
    ensures ActionOk(Select(st, action))
  {
    SelectionsSnoc(st.log, Selected(action));
    if st.action.None? {
      NoneSelected(st.log);
    }
  }

  lemma {:induction false} NoneSelected(log: seq<Event>)
    requires Selections(log) == 0
    ensures forall i :: 0 <= i < |log| ==> !log[i].Selected?
  {
    if log != [] {
      NoneSelected(log[..|log| - 1]);
    }
  }

  lemma ExecuteOk(st: State, call: ToolCall, run: ToolRun)
    requires ActionOk(st)
    ensures ActionOk(Execute(st, call, run))
  {
    var selected := if run.attempt.Some? then Select(st, run.attempt.value) else st;
    if run.attempt.Some? {
      SelectOk(st, run.attempt.value);
    }
    SelectionsSnoc(selected.log, Executed(call.tool, RunSucceeds(st, run)));
  }

  /** How a scheduled turn may end. */
  ghost predicate EndsWithAction(st: State, outcome: Outcome) {
    outcome == Cancelled || (st.action.Some? && outcome == Completed(ActionSummary(st.action.value)))
  }

  lemma {:induction false} CallToolsOk(cfg: Config, st: State, calls: seq<ToolCall>, runs: seq<ToolRun>)
    requires ActionOk(st)
    ensures var (r, outcome) := CallTools(cfg, st, calls, runs);
            ActionOk(r) && (cfg.schedulerTurn && outcome.Some? ==> EndsWithAction(r, outcome.value))
    decreases |calls|
  {
    if calls != [] {
      var spent := BudgetSpent(cfg, st, calls[0]);
      if spent.Some? {
        SelectOk(st, Forced(spent.value, st.progress));
      } else {
        ExecuteOk(st, calls[0], FirstRun(runs));
        CallToolsOk(cfg, Execute(st, calls[0], FirstRun(runs)), calls[1..], if runs == [] then [] else runs[1..]);
      }
    }
  }

  lemma RoundOk(cfg: Config, st: State, round: Round, last: bool)
    requires ActionOk(st)
    ensures var (r, outcome) := DoRound(cfg, st, round, last);
            ActionOk(r) && (cfg.schedulerTurn && outcome.Some? ==> EndsWithAction(r, outcome.value))
  {
    SelectOk(st, Forced(DeadlinePassed, st.progress));
    var asked := st.(log := st.log + [Asked(st.messages)]);
    SelectionsSnoc(st.log, Asked(st.messages));
    assert ActionOk(asked);
    if !round.expired && !round.cancelled {
      ReplyOk(cfg, asked, round, last);
    }
  }

  lemma FinalTextOk(cfg: Config, st: State, text: Text, last: bool)
    requires ActionOk(st)
    ensures var (r, outcome) := FinalText(cfg, st, text, last);
            ActionOk(r) && (cfg.schedulerTurn && outcome.Some? ==> EndsWithAction(r, outcome.value))
  {
    SelectOk(st, Forced(NoActionSelected, if text != [] then Some(text) else st.progress));
  }

  lemma ReplyOk(cfg: Config, st: State, round: Round, last: bool)
    requires ActionOk(st)
    ensures var (r, outcome) := OnReply(cfg, st, round, last);
            ActionOk(r) && (cfg.schedulerTurn && outcome.Some? ==> EndsWithAction(r, outcome.value))
  {
    var reply := round.reply;
    if reply.failure.Some? {
      SelectOk(st, Forced(FailureReason(reply), FailureProgress(st, reply)));
    } else {
      var heard := st.(progress := OrElse(reply.content, st.progress));
      assert ActionOk(heard);
      if IsFinalText(reply) {
        FinalTextOk(cfg, heard, if reply.content.Some? then reply.content.value else [], last);
      } else if reply.calls != [] {
        CallToolsOk(cfg, heard.(messages := heard.messages + [ToolCalls(reply.calls)]), reply.calls, round.runs);
      } else {
        SelectOk(heard, Forced(UnexpectedFinish, heard.progress));
      }
    }
  }

  lemma {:induction false} LoopOk(cfg: Config, st: State, rounds: seq<Round>)
    requires ActionOk(st)
    ensures var (r, outcome) := Loop(cfg, st, rounds);
            ActionOk(r) && (cfg.schedulerTurn ==> EndsWithAction(r, outcome))
    decreases |rounds|
  {
    if rounds == [] {
      SelectOk(st, Forced(RoundsSpent, st.progress));
    } else {
      RoundOk(cfg, st, rounds[0], |rounds| == 1);
      var (r, outcome) := DoRound(cfg, st, rounds[0], |rounds| == 1);
      if outcome.None? {
        LoopOk(cfg, r, rounds[1..]);
      }
    }
  }

  /** Whatever the provider, the tools and the clock do: a scheduled turn that is not cancelled ends
      completed, with exactly one action ever selected, and reports that action; a cancelled one has
      selected at most one. */
  lemma {:induction false} OneTerminalAction(cfg: Config, history: seq<Message>, rounds: seq<Round>)
    requires cfg.schedulerTurn
    ensures var (st, outcome) := Loop(cfg, Start(history), rounds);
            && Selections(st.log) <= 1
            && (outcome != Cancelled ==>
                  st.action.Some? && Selections(st.log) == 1 && outcome == Completed(ActionSummary(st.action.value)))
            && (forall i :: 0 <= i < |st.log| && st.log[i].Selected? ==> st.action == Some(st.log[i].action))
  {
    LoopOk(cfg, Start(history), rounds);
  }

  // ---- budgets ----

  function Executions(log: seq<Event>): nat {
    if log == [] then 0 else Executions(log[..|log| - 1]) + if log[|log| - 1].Executed? then 1 else 0
  }

  /** Tool calls other than the terminal actions. */
  function Observations(log: seq<Event>): nat {
    if log == [] then 0
    else Observations(log[..|log| - 1]) + if log[|log| - 1].Executed? && !IsTerminal(log[|log| - 1].tool) then 1 else 0
  }

  function Max(a: int, b: int): int {
    if a > b then a else b
  }

  ghost predicate WithinBudget(cfg: Config, st: State) {
    && Executions(st.log) == st.toolCallCount <= Max(0, cfg.toolLimit)
    && (cfg.schedulerTurn ==> Observations(st.log) <= Max(0, cfg.toolLimit - 1))
    && Observations(st.log) <= st.toolCallCount
  }

  lemma CountsSnoc(log: seq<Event>, e: Event)
    ensures Executions(log + [e]) == Executions(log) + if e.Executed? then 1 else 0
    ensures Observations(log + [e]) == Observations(log) + if e.Executed? && !IsTerminal(e.tool) then 1 else 0
  {
    assert (log + [e])[..|log|] == log;
  }

  lemma SelectBudget(cfg: Config, st: State, action: Action)
    requires WithinBudget(cfg, st)
    ensures WithinBudget(cfg, Select(st, action))
  {
    CountsSnoc(st.log, Selected(action));
  }

  lemma ExecuteBudget(cfg: Config, st: State, call: ToolCall, run: ToolRun)
    requires WithinBudget(cfg, st) && BudgetSpent(cfg, st, call).None?
    ensures WithinBudget(cfg, Execute(st, call, run))
  {
    var selected := if run.attempt.Some? then Select(st, run.attempt.value) else st;
    if run.attempt.Some? {
      SelectBudget(cfg, st, run.attempt.value);
    }
    CountsSnoc(selected.log, Executed(call.tool, RunSucceeds(st, run)));
  }

  lemma {:induction false} CallToolsBudget(cfg: Config, st: State, calls: seq<ToolCall>, runs: seq<ToolRun>)
    requires WithinBudget(cfg, st)
    ensures WithinBudget(cfg, CallTools(cfg, st, calls, runs).0)
    decreases |calls|
  {
    if calls != [] {
      var spent := BudgetSpent(cfg, st, calls[0]);
      if spent.Some? {
        SelectBudget(cfg, st, Forced(spent.value, st.progress));
      } else {
        ExecuteBudget(cfg, st, calls[0], FirstRun(runs));
        CallToolsBudget(cfg, Execute(st, calls[0], FirstRun(runs)), calls[1..], if runs == [] then [] else runs[1..]);
      }
    }
  }

  lemma RoundBudget(cfg: Config, st: State, round: Round, last: bool)
    requires WithinBudget(cfg, st)
    ensures WithinBudget(cfg, DoRound(cfg, st, round, last).0)
  {
    SelectBudget(cfg, st, Forced(DeadlinePassed, st.progress));
    var asked := st.(log := st.log + [Asked(st.messages)]);
    CountsSnoc(st.log, Asked(st.messages));
    assert WithinBudget(cfg, asked);
    if !round.expired && !round.cancelled {
      ReplyBudget(cfg, asked, round, last);
    }
  }

  lemma FinalTextBudget(cfg: Config, st: State, text: Text, last: bool)
    requires WithinBudget(cfg, st)
    ensures WithinBudget(cfg, FinalText(cfg, st, text, last).0)
  {
    SelectBudget(cfg, st, Forced(NoActionSelected, if text != [] then Some(text) else st.progress));
  }

  lemma ReplyBudget(cfg: Config, st: State, round: Round, last: bool)
    requires WithinBudget(cfg, st)
    ensures WithinBudget(cfg, OnReply(cfg, st, round, last).0)
  {
    var reply := round.reply;
    if reply.failure.Some? {
      SelectBudget(cfg, st, Forced(FailureReason(reply), FailureProgress(st, reply)));
    } else {
      var heard := st.(progress := OrElse(reply.content, st.progress));
      assert WithinBudget(cfg, heard);
      if IsFinalText(reply) {
        FinalTextBudget(cfg, heard, if reply.content.Some? then reply.content.value else [], last);
      } else if reply.calls != [] {
        CallToolsBudget(cfg, heard.(messages := heard.messages + [ToolCalls(reply.calls)]), reply.calls, round.runs);
      } else {
        SelectBudget(cfg, heard, Forced(UnexpectedFinish, heard.progress));
      }
    }
  }

  lemma {:induction false} LoopBudget(cfg: Config, st: State, rounds: seq<Round>)
    requires WithinBudget(cfg, st)
    ensures WithinBudget(cfg, Loop(cfg, st, rounds).0)
    decreases |rounds|
  {
    if rounds == [] {
      SelectBudget(cfg, st, Forced(RoundsSpent, st.progress));
    } else {
      RoundBudget(cfg, st, rounds[0], |rounds| == 1);
      var (r, outcome) := DoRound(cfg, st, rounds[0], |rounds| == 1);
      if outcome.None? {
        LoopBudget(cfg, r, rounds[1..]);
      }
    }
  }

  /** At most `limit` tool calls are executed, and in a scheduled turn at most `limit - 1` that are not
      terminal actions, so that one call is always left for the action. */
  lemma ToolBudgets(cfg: Config, history: seq<Message>, rounds: seq<Round>)
    ensures var log := Loop(cfg, Start(history), rounds).0.log;
            && Executions(log) <= Max(0, cfg.toolLimit)
            && (cfg.schedulerTurn ==> Observations(log) <= Max(0, cfg.toolLimit - 1))
  {
    LoopBudget(cfg, Start(history), rounds);
  }

  /** Observations within the budget are all made. */
  lemma {:induction false} ObservesAll(cfg: Config, st: State, calls: seq<ToolCall>)
    requires cfg.schedulerTurn && st.toolCallCount + |calls| <= cfg.toolLimit - 1
    requires forall i :: 0 <= i < |calls| ==> !IsTerminal(calls[i].tool)
    ensures Observations(CallTools(cfg, st, calls, []).0.log) == Observations(st.log) + |calls|
    ensures CallTools(cfg, st, calls, []).1.None?
    decreases |calls|
  {
    if calls != [] {
      var next := Execute(st, calls[0], UNSCRIPTED);
      CountsSnoc(st.log, Executed(calls[0].tool, false));
      ObservesAll(cfg, next, calls[1..]);
    }
  }

  /** A provider that asks for this many observations at once. */
  function Curious(n: nat): Round {
    Round(false, false, Reply(None, false, false, None, OtherFinish, seq(n, i requires 0 <= i => ToolCall(i, Ordinary(0)))), [])
  }

  lemma {:induction false} CuriousSpends(cfg: Config, n: nat)
    requires cfg.schedulerTurn && 1 <= n == cfg.toolLimit - 1
    ensures Observations(Loop(cfg, Start([]), [Curious(n)]).0.log) == n
  {
    var st := Start([]);
    var asked := st.(log := [] + [Asked([])], messages := [] + [ToolCalls(Curious(n).reply.calls)]);
    CountsSnoc([], Asked([]));
    ObservesAll(cfg, asked, Curious(n).reply.calls);
    var r := CallTools(cfg, asked, Curious(n).reply.calls, []).0;
    assert DoRound(cfg, st, Curious(n), true) == (r, None);
    assert Loop(cfg, r, []) == Force(r, RoundsSpent, r.progress);
    CountsSnoc(r.log, Selected(Forced(RoundsSpent, r.progress)));
  }

  /** The bound is the least there is: a number bounds the observations of every scheduled turn exactly
      if it is at least `max(0, limit - 1)`; so `limit - 1` itself is one exactly for a limit of one or more. */
  lemma {:induction false} ObservationBoundExactly(cfg: Config, bound: int)
    requires cfg.schedulerTurn
    ensures (forall history, rounds :: Observations(Loop(cfg, Start(history), rounds).0.log) <= bound)
            <==> Max(0, cfg.toolLimit - 1) <= bound
  {
    if Max(0, cfg.toolLimit - 1) <= bound {
      forall history, rounds ensures Observations(Loop(cfg, Start(history), rounds).0.log) <= bound {
        ToolBudgets(cfg, history, rounds);
      }
    } else if cfg.toolLimit - 1 >= 1 {
      CuriousSpends(cfg, cfg.toolLimit - 1);
    } else {
      assert Observations(Loop(cfg, Start([]), []).0.log) >= 0;
    }
  }

  // ---- the transcript ----

  function Results(calls: seq<ToolCall>): (r: seq<Message>)
    ensures |r| == |calls| && forall i :: 0 <= i < |calls| ==> r[i] == ToolResult(calls[i].id)
  {
    seq(|calls|, i requires 0 <= i < |calls| => ToolResult(calls[i].id))
  }

  /** Every tool-call message is followed by exactly its results, in order. */
  predicate Paired(messages: seq<Message>)
    decreases |messages|
  {
    if messages == [] then true
    else if messages[0].ToolCalls? then
      var n := |messages[0].calls|;
      1 + n <= |messages| && messages[1..1 + n] == Results(messages[0].calls) && Paired(messages[1 + n..])
    else !messages[0].ToolResult? && Paired(messages[1..])
  }

  lemma {:induction false} PairedAnswered(calls: seq<ToolCall>, tail: seq<Message>)
    requires Paired(tail)
    ensures Paired([ToolCalls(calls)] + Results(calls) + tail)
  {
    var m := [ToolCalls(calls)] + Results(calls) + tail;
    assert m[1..1 + |calls|] == Results(calls);
    assert m[1 + |calls|..] == tail;
  }

  lemma Regroup(a: seq<Message>, k: nat, b: seq<Message>)
    requires k <= |a|
    ensures a + b == a[..k] + (a[k..] + b)
  {
  }

  lemma AnsweredFront(a: seq<Message>) returns (rest: seq<Message>)
    requires Paired(a) && a != [] && a[0].ToolCalls?
    ensures 1 + |a[0].calls| <= |a| && a[..1 + |a[0].calls|] == [ToolCalls(a[0].calls)] + Results(a[0].calls)
    ensures rest == a[1 + |a[0].calls|..] && Paired(rest) && |rest| < |a|
  {
    var n := |a[0].calls|;
    rest := a[1 + n..];
    assert a[..1 + n] == [a[0]] + a[1..1 + n];
  }

  lemma {:induction false} PairedConcat(a: seq<Message>, b: seq<Message>)
    requires Paired(a) && Paired(b)
    ensures Paired(a + b)
    decreases |a|
  {
    if a == [] {
      assert a + b == b;
    } else if a[0].ToolCalls? {
      var calls := a[0].calls;
      var rest := AnsweredFront(a);
      PairedConcat(rest, b);
      PairedAnswered(calls, rest + b);
      Regroup(a, 1 + |calls|, b);
    } else {
      PairedConcat(a[1..], b);
      assert (a + b)[1..] == a[1..] + b;
    }
  }

  ghost predicate AsksPaired(log: seq<Event>) {
    forall i :: 0 <= i < |log| && log[i].Asked? ==> Paired(log[i].messages)
  }

  lemma ResultsCons(messages: seq<Message>, calls: seq<ToolCall>)
    requires calls != []
    ensures (messages + [ToolResult(calls[0].id)]) + Results(calls[1..]) == messages + Results(calls)
  {
    assert [ToolResult(calls[0].id)] + Results(calls[1..]) == Results(calls);
  }

  /** Tool calls that all ran have added their results, in order, and no provider call. */
  lemma {:induction false} CallToolsAnswer(cfg: Config, st: State, calls: seq<ToolCall>, runs: seq<ToolRun>)
    requires AsksPaired(st.log)
    ensures var (r, outcome) := CallTools(cfg, st, calls, runs);
            AsksPaired(r.log) && (outcome.None? ==> r.messages == st.messages + Results(calls))
    decreases |calls|
  {
    if calls == [] {
      assert st.messages + Results(calls) == st.messages;
    } else if BudgetSpent(cfg, st, calls[0]).None? {
      var r := Execute(st, calls[0], FirstRun(runs));
      ExecuteAsks(st, calls[0], FirstRun(runs));
      CallToolsAnswer(cfg, r, calls[1..], if runs == [] then [] else runs[1..]);
      ResultsCons(st.messages, calls);
    }
  }

  lemma ExecuteAsks(st: State, call: ToolCall, run: ToolRun)
    requires AsksPaired(st.log)
    ensures AsksPaired(Execute(st, call, run).log)
  {
  }

  lemma RoundPaired(cfg: Config, st: State, round: Round, last: bool)
    requires Paired(st.messages) && AsksPaired(st.log)
    ensures var (r, outcome) := DoRound(cfg, st, round, last);
            AsksPaired(r.log) && (outcome.None? ==> Paired(r.messages))
  {
    if !round.expired && !round.cancelled {
      var asked := st.(log := st.log + [Asked(st.messages)]);
      assert AsksPaired(asked.log);
      ReplyPaired(cfg, asked, round, last);
    }
  }

  lemma {:induction false} RepairPaired(messages: seq<Message>, text: Text)
    requires Paired(messages)
    ensures Paired(messages + [Plain(text), RepairInstruction])
  {
    assert [Plain(text), RepairInstruction][1..] == [RepairInstruction];
    assert Paired([RepairInstruction][1..]);
    PairedConcat(messages, [Plain(text), RepairInstruction]);
  }

  lemma AppendAssociates(messages: seq<Message>, m: Message, results: seq<Message>)
    ensures (messages + [m]) + results == messages + ([m] + results) && [m] + results + [] == [m] + results
  {
  }

  lemma {:induction false} AnswersPaired(messages: seq<Message>, calls: seq<ToolCall>)
    requires Paired(messages)
    ensures Paired((messages + [ToolCalls(calls)]) + Results(calls))
  {
    PairedAnswered(calls, []);
    AppendAssociates(messages, ToolCalls(calls), Results(calls));
    PairedConcat(messages, [ToolCalls(calls)] + Results(calls));
  }

  lemma ReplyPaired(cfg: Config, st: State, round: Round, last: bool)
    requires Paired(st.messages) && AsksPaired(st.log)
    ensures var (r, outcome) := OnReply(cfg, st, round, last);
            AsksPaired(r.log) && (outcome.None? ==> Paired(r.messages))
  {
    var reply := round.reply;
    if reply.failure.None? {
      var heard := st.(progress := OrElse(reply.content, st.progress));
      if IsFinalText(reply) {
        RepairPaired(st.messages, if reply.content.Some? then reply.content.value else []);
      } else if reply.calls != [] {
        CallToolsAnswer(cfg, heard.(messages := heard.messages + [ToolCalls(reply.calls)]), reply.calls, round.runs);
        AnswersPaired(st.messages, reply.calls);
      }
    }
  }

  lemma {:induction false} LoopPaired(cfg: Config, st: State, rounds: seq<Round>)
    requires Paired(st.messages) && AsksPaired(st.log)
    ensures AsksPaired(Loop(cfg, st, rounds).0.log)
    decreases |rounds|
  {
    if rounds != [] {
      RoundPaired(cfg, st, rounds[0], |rounds| == 1);
      var (r, outcome) := DoRound(cfg, st, rounds[0], |rounds| == 1);
      if outcome.None? {
        LoopPaired(cfg, r, rounds[1..]);
      }
    }
  }

  /** At every provider call each tool-call message is followed by exactly its results, in order. */
  lemma {:induction false} TranscriptIsPaired(cfg: Config, history: seq<Message>, rounds: seq<Round>, i: nat)
    requires forall k :: 0 <= k < |history| ==> history[k].Plain?
    requires var log := Loop(cfg, Start(history), rounds).0.log; i < |log| && log[i].Asked?
    ensures Paired(Loop(cfg, Start(history), rounds).0.log[i].messages)
  {
    PlainPaired(history);
    LoopPaired(cfg, Start(history), rounds);
  }

  lemma {:induction false} PlainPaired(history: seq<Message>)
    requires forall k :: 0 <= k < |history| ==> history[k].Plain?
    ensures Paired(history)
  {
    if history != [] {
      PlainPaired(history[1..]);
    }
  }

  // ---- grounding ----

  /** The tools with a successful call in the log. */
  ghost predicate Receipts(st: State) {
    forall tool :: tool in st.successful <==> exists i :: 0 <= i < |st.log| && st.log[i] == Executed(tool, true)
  }

  lemma ReceiptsSnoc(st: State, r: State, e: Event)
    requires Receipts(st) && r.log == st.log + [e]
    requires r.successful == if e.Executed? && e.ok then st.successful + {e.tool} else st.successful
    ensures Receipts(r)
  {
    forall tool ensures tool in r.successful <==> exists i :: 0 <= i < |r.log| && r.log[i] == Executed(tool, true) {
      if tool in st.successful {
        var i :| 0 <= i < |st.log| && st.log[i] == Executed(tool, true);
        assert r.log[i] == Executed(tool, true);
      }
      if e == Executed(tool, true) {
        assert r.log[|st.log|] == e;
      }
      if tool !in r.successful {
        forall i | 0 <= i < |r.log| ensures r.log[i] != Executed(tool, true) {
          if i < |st.log| {
            assert r.log[i] == st.log[i];
          }
        }
      }
    }
  }

  lemma SelectReceipts(st: State, action: Action)
    requires Receipts(st)
    ensures Receipts(Select(st, action))
  {
    if st.action.None? {
      ReceiptsSnoc(st, Select(st, action), Selected(action));
    }
  }

  lemma ExecuteReceipts(st: State, call: ToolCall, run: ToolRun)
    requires Receipts(st)
    ensures Receipts(Execute(st, call, run))
  {
    var selected := if run.attempt.Some? then Select(st, run.attempt.value) else st;
    if run.attempt.Some? {
      SelectReceipts(st, run.attempt.value);
    }
    ReceiptsSnoc(selected, Execute(st, call, run), Executed(call.tool, RunSucceeds(st, run)));
  }

  /** What a completed text of the model has passed. */
  ghost predicate Grounded(cfg: Config, st: State, outcome: Outcome) {
    && Receipts(st)
    && (outcome.Completed? && outcome.said.ModelText? ==> !cfg.schedulerTurn && !cfg.ungrounded(outcome.said.text, st.successful))
  }

  lemma {:induction false} CallToolsGrounded(cfg: Config, st: State, calls: seq<ToolCall>, runs: seq<ToolRun>)
    requires Receipts(st)
    ensures var (r, outcome) := CallTools(cfg, st, calls, runs);
            Receipts(r) && (outcome.Some? ==> Grounded(cfg, r, outcome.value))
    decreases |calls|
  {
    if calls != [] {
      var spent := BudgetSpent(cfg, st, calls[0]);
      if spent.Some? {
        SelectReceipts(st, Forced(spent.value, st.progress));
      } else {
        ExecuteReceipts(st, calls[0], FirstRun(runs));
        CallToolsGrounded(cfg, Execute(st, calls[0], FirstRun(runs)), calls[1..], if runs == [] then [] else runs[1..]);
      }
    }
  }

  lemma ReplyGrounded(cfg: Config, st: State, round: Round, last: bool)
    requires Receipts(st)
    ensures var (r, outcome) := OnReply(cfg, st, round, last);
            Receipts(r) && (outcome.Some? ==> Grounded(cfg, r, outcome.value))
  {
    var reply := round.reply;
    if reply.failure.Some? {
      SelectReceipts(st, Forced(FailureReason(reply), FailureProgress(st, reply)));
    } else {
      var heard := st.(progress := OrElse(reply.content, st.progress));
      var text := if reply.content.Some? then reply.content.value else [];
      SelectReceipts(heard, Forced(NoActionSelected, if text != [] then Some(text) else heard.progress));
      SelectReceipts(heard, Forced(UnexpectedFinish, heard.progress));
      CallToolsGrounded(cfg, heard.(messages := heard.messages + [ToolCalls(reply.calls)]), reply.calls, round.runs);
    }
  }

  lemma {:induction false} LoopGrounded(cfg: Config, st: State, rounds: seq<Round>)
    requires Receipts(st)
    ensures var (r, outcome) := Loop(cfg, st, rounds); Grounded(cfg, r, outcome)
    decreases |rounds|
  {
    if rounds == [] {
      SelectReceipts(st, Forced(RoundsSpent, st.progress));
    } else {
      SelectReceipts(st, Forced(DeadlinePassed, st.progress));
      var asked := st.(log := st.log + [Asked(st.messages)]);
      ReceiptsSnoc(st, asked, Asked(st.messages));
      ReplyGrounded(cfg, asked, rounds[0], |rounds| == 1);
      var (r, outcome) := DoRound(cfg, st, rounds[0], |rounds| == 1);
      if outcome.None? {
        LoopGrounded(cfg, r, rounds[1..]);
      }
    }
  }

  /** A text of the model that is returned as the answer passed the grounding check for exactly the
      tools that had succeeded in the turn. */
  lemma AnswersAreGrounded(cfg: Config, history: seq<Message>, rounds: seq<Round>)
    ensures var (st, outcome) := Loop(cfg, Start(history), rounds);
            outcome.Completed? && outcome.said.ModelText? ==>
              !cfg.schedulerTurn && !cfg.ungrounded(outcome.said.text, st.successful)
              && forall tool :: tool in st.successful <==> exists i :: 0 <= i < |st.log| && st.log[i] == Executed(tool, true)
  {
    LoopGrounded(cfg, Start(history), rounds);
  }

  // ---- the loop itself ----

  /** The script from the `i`-th tool on. */
  function DropRuns(runs: seq<ToolRun>, i: nat): seq<ToolRun> {
    if |runs| <= i then [] else runs[i..]
  }

  class AgentTurn {
    var messages: seq<Message>
    var toolCallCount: nat
    var successfulTools: set<Tool>
    var groundingRepairAttempts: nat
    var lastProgress: Option<Text>
    var artifacts: nat
    // the turn control's closed-over variable
    var action: Option<Action>
    ghost var log: seq<Event>

    ghost function View(): State
      reads this
    {
      State(messages, toolCallCount, successfulTools, groundingRepairAttempts > 0, lastProgress, artifacts, action, log)
    }

    constructor (history: seq<Message>)
      ensures View() == Start(history)
    {
      messages, toolCallCount, successfulTools := history, 0, {};
      groundingRepairAttempts, lastProgress, artifacts, action, log := 0, None, 0, None, [];
    }

    /** `complete` or `reschedule` of the turn control; not ok stands for its exception. */
    method SelectAction(chosen: Action) returns (ok: bool)
      modifies `action, `log
      ensures View() == Select(old(View()), chosen) && ok == old(action).None?
    {
      if action.Some? {
        return false;
      }
      action := Some(chosen);
      log := log + [Selected(chosen)];
      return true;
    }

    method ForceTerminalAction(why: ForceReason, progress: Option<Text>) returns (outcome: Outcome)
      modifies `action, `log
      ensures (View(), outcome) == Force(old(View()), why, progress)
    {
      if action.Some? {
        return Completed(ActionSummary(action.value));
      }
      var ok := SelectAction(Forced(why, progress));
      outcome := Completed(ActionSummary(Forced(why, progress)));
    }

    method EndWithout(cfg: Config, why: ForceReason, progress: Option<Text>) returns (outcome: Outcome)
      modifies `action, `log
      ensures (View(), outcome) == GiveUp(cfg, old(View()), why, progress)
    {
      if cfg.schedulerTurn {
        outcome := ForceTerminalAction(why, progress);
      } else {
        outcome := Failed;
      }
    }

    method ExecuteTool(call: ToolCall, run: ToolRun) returns (ok: bool)
      modifies this
      ensures View() == Execute(old(View()), call, run) && ok == RunSucceeds(old(View()), run)
    {
      toolCallCount := toolCallCount + 1;
      ok := true;
      if run.attempt.Some? {
        ok := SelectAction(run.attempt.value);
      }
      ok := ok && !run.fails;
      artifacts := artifacts + run.artifacts;
      if ok {
        successfulTools := successfulTools + {call.tool};
      }
      lastProgress := Some(run.result);
      messages := messages + [ToolResult(call.id)];
      log := log + [Executed(call.tool, ok)];
    }

    method RunTools(cfg: Config, calls: seq<ToolCall>, runs: seq<ToolRun>) returns (outcome: Option<Outcome>)
      modifies this
      ensures (View(), outcome) == CallTools(cfg, old(View()), calls, runs)
    {
      assert DropRuns(runs, 0) == runs && calls[0..] == calls;
      for i := 0 to |calls|
        invariant CallTools(cfg, old(View()), calls, runs) == CallTools(cfg, View(), calls[i..], DropRuns(runs, i))
      {
        assert calls[i..][0] == calls[i] && calls[i..][1..] == calls[i + 1..];
        var isTerminalAction := cfg.schedulerTurn && IsTerminal(calls[i].tool);
        if cfg.schedulerTurn && !isTerminalAction && toolCallCount >= cfg.toolLimit - 1 {
          var forced := ForceTerminalAction(ObservationsSpent, lastProgress);
          return Some(forced);
        }
        if toolCallCount >= cfg.toolLimit {
          var ended := EndWithout(cfg, ToolCallsSpent, lastProgress);
          return Some(ended);
        }
        var run := if i < |runs| then runs[i] else UNSCRIPTED;
        assert run == FirstRun(DropRuns(runs, i));
        assert (if DropRuns(runs, i) == [] then [] else DropRuns(runs, i)[1..]) == DropRuns(runs, i + 1);
        var ok := ExecuteTool(calls[i], run);
        if isTerminalAction && ok && action.Some? {
          return Some(Completed(ActionSummary(action.value)));
        }
      }
      return None;
    }

    method TakeFinalText(cfg: Config, text: Text, last: bool) returns (outcome: Option<Outcome>)
      modifies this
      ensures (View(), outcome) == FinalText(cfg, old(View()), text, last)
    {
      if !cfg.schedulerTurn {
        if cfg.ungrounded(text, successfulTools) {
          if groundingRepairAttempts == 0 && !last {
            groundingRepairAttempts := groundingRepairAttempts + 1;
            messages := messages + [Plain(text)];
            messages := messages + [RepairInstruction];
            assert messages == old(messages) + [Plain(text), RepairInstruction];
            return None;
          }
          return Some(Completed(GroundingFallback));
        }
        return Some(Completed(if text == [] then NothingSaid else ModelText(text)));
      }
      var forced := ForceTerminalAction(NoActionSelected, if text != [] then Some(text) else lastProgress);
      return Some(forced);
    }

    method TakeReply(cfg: Config, round: Round, last: bool) returns (outcome: Option<Outcome>)
      modifies this
      ensures (View(), outcome) == OnReply(cfg, old(View()), round, last)
    {
      var reply := round.reply;
      if reply.failure.Some? {
        if reply.failure.value.cancelled && reply.callerCancelled {
          return Some(Cancelled);
        }
        var ended := EndWithout(cfg, FailureReason(reply),
                                if FailureReason(reply) == CallTimedOut then lastProgress else OrElse(reply.failure.value.message, lastProgress));
        return Some(ended);
      }
      lastProgress := OrElse(reply.content, lastProgress);
      if IsFinalText(reply) {
        outcome := TakeFinalText(cfg, if reply.content.Some? then reply.content.value else [], last);
        return;
      }
      if |reply.calls| > 0 {
        messages := messages + [ToolCalls(reply.calls)];
        outcome := RunTools(cfg, reply.calls, round.runs);
        return;
      }
      var ended := EndWithout(cfg, UnexpectedFinish, lastProgress);
      return Some(ended);
    }

    method RunLoop(cfg: Config, rounds: seq<Round>) returns (outcome: Outcome)
      modifies this
      ensures (View(), outcome) == Loop(cfg, old(View()), rounds)
    {
      var iteration := 0;
      assert rounds[0..] == rounds;
      while iteration < |rounds|
        invariant iteration <= |rounds|
        invariant Loop(cfg, old(View()), rounds) == Loop(cfg, View(), rounds[iteration..])
      {
        var round := rounds[iteration];
        assert rounds[iteration..][0] == round && rounds[iteration..][1..] == rounds[iteration + 1..];
        iteration := iteration + 1;
        if round.expired {
          if cfg.schedulerTurn {
            outcome := ForceTerminalAction(DeadlinePassed, lastProgress);
            return;
          }
          return if artifacts > 0 then Completed(SavedResults) else Failed;
        }
        if round.cancelled {
          return Cancelled;
        }
        log := log + [Asked(messages)];
        var ended := TakeReply(cfg, round, iteration == |rounds|);
        if ended.Some? {
          return ended.value;
        }
      }
      outcome := EndWithout(cfg, RoundsSpent, lastProgress);
    }
  }
}
