/** Admission of chat turns: under the session's admission mutex a turn looks for an earlier run of the
    same request, else stores a new run and takes its place in the session's execution mutex. */
module Admission {
  import opened Options
  import opened TailMutex

  datatype Input = Input(session: string, principal: string, requestId: Option<string>, message: string)

  /** A stored run, its redacted message, and its place in the execution order; none if storing it
      failed half-way. `input` and `updates`, how often the run was stored again, are bookkeeping of
      what the message came from. */
  datatype Stored = Stored(input: Input, message: string, updates: nat, place: Option<nat>)

  datatype Answer = Admitted(run: nat) | Existing(run: nat) | Rejected

  datatype CallStage = Queued | Finding | Creating | Leaving(answer: Answer) | Done(answer: Answer)

  /** Whether the session or the run store could not be read, and the runs that were stored then. */
  datatype Lookup = Lookup(fails: bool, runs: seq<Stored>)

  /** Call `c` holds ticket `c` of the admission mutex. `look` and `created` are bookkeeping. */
  datatype Call = Call(input: Input, stage: CallStage, look: Option<Lookup>, created: Option<CreateOutcome>)

  /** What redaction makes of a text; doing it again may change it again. */
  type Redactor = string -> string

  datatype Gate = Gate(redact: Redactor, admission: Mutex, execution: Mutex, runs: seq<Stored>, calls: seq<Call>)

  datatype CreateOutcome = Created | LostBeforeWrite | LostAfterWrite

  datatype GateStep =
    | Arrive(input: Input)
    | Enter(call: nat)
    | Find(call: nat, fails: bool)
    | Create(call: nat, outcome: CreateOutcome)
    | Leave(call: nat)
    | OtherTurn(session: string)
    | BeginTurn(place: nat)
    | EndTurn(place: nat)
    | Update(run: nat)

  function Empty(redact: Redactor): Gate {
    Gate(redact, TailMutex.FRESH, TailMutex.FRESH, [], [])
  }

  predicate SameRequest(a: Input, b: Input) {
    a.session == b.session && a.principal == b.principal && a.requestId == b.requestId
  }

  /** Looks through the stored runs for one of this request. */
  function FindRequest(runs: seq<Stored>, input: Input): (r: Option<nat>)
    ensures r.Some? ==> r.value < |runs| && SameRequest(runs[r.value].input, input)
    ensures r.None? ==> forall i :: 0 <= i < |runs| ==> !SameRequest(runs[i].input, input)
  {
    if runs == [] then None
    else if SameRequest(runs[|runs| - 1].input, input) then Some(|runs| - 1)
    else FindRequest(runs[..|runs| - 1], input)
  }

  predicate Open(g: Gate, step: GateStep) {
    match step
    case Arrive(input) => true
    case Enter(c) => c < |g.calls| && g.calls[c].stage == Queued && CanGrant(g.admission, c)
    case Find(c, fails) => c < |g.calls| && g.calls[c].stage == Finding
    case Create(c, outcome) => c < |g.calls| && g.calls[c].stage == Creating
    case Leave(c) =>
      c < |g.calls| && g.calls[c].stage.Leaving? && c < |g.admission.tickets| && g.admission.tickets[c].stage != Waiting
    case OtherTurn(session) => true
    case BeginTurn(i) => CanGrant(g.execution, i)
    case EndTurn(i) => i < |g.execution.tickets| && g.execution.tickets[i].stage == Holding
    case Update(i) => i < |g.runs|
  }

  function SetStage(calls: seq<Call>, c: nat, stage: CallStage): (r: seq<Call>)
    requires c < |calls|
    ensures |r| == |calls|
  {
    calls[c := calls[c].(stage := stage)]
  }

  /** A call leaves this stage with what it learned. */
  function Learn(calls: seq<Call>, c: nat, stage: CallStage, look: Lookup): (r: seq<Call>)
    requires c < |calls|
    ensures |r| == |calls|
  {
    calls[c := calls[c].(stage := stage, look := Some(look))]
  }

  function Settle(calls: seq<Call>, c: nat, answer: Answer, outcome: CreateOutcome): (r: seq<Call>)
    requires c < |calls|
    ensures |r| == |calls|
  {
    calls[c := calls[c].(stage := Leaving(answer), created := Some(outcome))]
  }

  /** The run as it is first stored. */
  function NewRun(redact: Redactor, input: Input, place: Option<nat>): Stored {
    Stored(input, redact(input.message), 0, place)
  }

  /** What the lookup of a call leads to. */
  function Found(redact: Redactor, runs: seq<Stored>, input: Input, fails: bool): CallStage {
    if fails then Leaving(Rejected)
    else if input.requestId.None? then Creating
    else
      match FindRequest(runs, input)
      case None => Creating
      case Some(r) => Leaving(if runs[r].message != redact(input.message) then Rejected else Existing(r))
  }

  function Go(g: Gate, step: GateStep): Gate
    requires Open(g, step)
  {
    match step
    case Arrive(input) =>
      g.(admission := Acquire(g.admission, input.session), calls := g.calls + [Call(input, Queued, None, None)])
    case Enter(c) => g.(admission := Grant(g.admission, c), calls := SetStage(g.calls, c, Finding))
    case Find(c, fails) => g.(calls := Learn(g.calls, c, Found(g.redact, g.runs, g.calls[c].input, fails), Lookup(fails, g.runs)))
    case Create(c, outcome) =>
      (match outcome
       case Created =>
         g.(runs := g.runs + [NewRun(g.redact, g.calls[c].input, Some(|g.execution.tickets|))],
            execution := Acquire(g.execution, g.calls[c].input.session),
            calls := Settle(g.calls, c, Admitted(|g.runs|), outcome))
       case LostAfterWrite =>
         g.(runs := g.runs + [NewRun(g.redact, g.calls[c].input, None)], calls := Settle(g.calls, c, Rejected, outcome))
       case LostBeforeWrite => g.(calls := Settle(g.calls, c, Rejected, outcome)))
    case Leave(c) =>
      g.(admission := Release(g.admission, c), calls := SetStage(g.calls, c, Done(g.calls[c].stage.answer)))
    case OtherTurn(session) => g.(execution := Acquire(g.execution, session))
    case BeginTurn(i) => g.(execution := Grant(g.execution, i))
    case EndTurn(i) => g.(execution := Release(g.execution, i))
    case Update(i) =>
      // storing a run again redacts it again
      var run := g.runs[i];
      g.(runs := g.runs[i := run.(message := g.redact(run.message), updates := run.updates + 1)])
  }

  function Play(g: Gate, steps: seq<GateStep>): Gate
    decreases |steps|
  {
    if steps == [] then g
    else if Open(g, steps[0]) then Play(Go(g, steps[0]), steps[1..])
    else Play(g, steps[1..])
  }

  // ---- the invariant ----

  predicate StageMatches(stage: CallStage, ticket: TailMutex.Stage) {
    match stage
    case Queued => ticket == Waiting
    case Done(_) => ticket == Released
    case _ => ticket == Holding
  }

  ghost predicate CallsOk(g: Gate) {
    && |g.admission.tickets| == |g.calls|
    && (forall c :: 0 <= c < |g.calls| ==>
          g.admission.tickets[c].key == g.calls[c].input.session
          && StageMatches(g.calls[c].stage, g.admission.tickets[c].stage))
  }

  /** A call about to create found no run of its request, and still there is none. */
  ghost predicate NothingFound(g: Gate) {
    forall c, i :: 0 <= c < |g.calls| && g.calls[c].stage == Creating && g.calls[c].input.requestId.Some? && 0 <= i < |g.runs| ==>
      !SameRequest(g.runs[i].input, g.calls[c].input)
  }

  ghost predicate OnePerRequest(runs: seq<Stored>) {
    forall i, j :: 0 <= i < j < |runs| && runs[i].input.requestId.Some? ==> !SameRequest(runs[i].input, runs[j].input)
  }

  ghost predicate PlacesOk(runs: seq<Stored>, tickets: seq<Ticket>) {
    && (forall i :: 0 <= i < |runs| && runs[i].place.Some? ==>
          runs[i].place.value < |tickets| && tickets[runs[i].place.value].key == runs[i].input.session)
    && (forall i, j :: 0 <= i < j < |runs| && runs[i].place.Some? && runs[j].place.Some? ==>
          runs[i].place.value < runs[j].place.value)
  }

  function AnswerOf(stage: CallStage): Option<Answer> {
    match stage
    case Leaving(answer) => Some(answer)
    case Done(answer) => Some(answer)
    case _ => None
  }

  ghost predicate AnswerOk(runs: seq<Stored>, call: Call) {
    match AnswerOf(call.stage)
    case Some(Admitted(r)) => r < |runs| && runs[r].input == call.input
    case Some(Existing(r)) => r < |runs| && SameRequest(runs[r].input, call.input)
    case _ => true
  }

  ghost predicate AnswersOk(g: Gate) {
    forall c :: 0 <= c < |g.calls| ==> AnswerOk(g.runs, g.calls[c])
  }

  ghost predicate GateOk(g: Gate) {
    && Inv(g.admission) && Inv(g.execution)
    && CallsOk(g) && NothingFound(g) && OnePerRequest(g.runs) && PlacesOk(g.runs, g.execution.tickets) && AnswersOk(g)
  }

  // ---- every step keeps it ----

  /** Two calls of one session are never both past the admission mutex. */
  lemma {:induction false} OneCreator(g: Gate, c: nat, d: nat)
    requires Inv(g.admission) && CallsOk(g) && c < |g.calls| && d < |g.calls| && c != d
    requires g.calls[c].stage == Creating && g.calls[d].stage == Creating
    ensures g.calls[c].input.session != g.calls[d].input.session
  {
  }

  lemma ArriveKeeps(g: Gate, input: Input)
    requires GateOk(g)
    ensures GateOk(Go(g, Arrive(input)))
  {
    AcquireKeeps(g.admission, input.session);
  }

  lemma StageKeeps(g: Gate, c: nat, call: Call, admission: Mutex)
    requires CallsOk(g) && NothingFound(g) && AnswersOk(g) && c < |g.calls|
    requires |admission.tickets| == |g.calls|
    requires forall d :: 0 <= d < |g.calls| && d != c ==> admission.tickets[d] == g.admission.tickets[d]
    requires admission.tickets[c].key == g.admission.tickets[c].key && StageMatches(call.stage, admission.tickets[c].stage)
    requires call.input == g.calls[c].input
    requires call.stage == Creating && call.input.requestId.Some? ==>
               forall i :: 0 <= i < |g.runs| ==> !SameRequest(g.runs[i].input, call.input)
    requires AnswerOk(g.runs, call)
    ensures var h := g.(admission := admission, calls := g.calls[c := call]);
            CallsOk(h) && NothingFound(h) && AnswersOk(h)
  {
  }

  lemma {:induction false} EnterKeeps(g: Gate, c: nat)
    requires GateOk(g) && Open(g, Enter(c))
    ensures GateOk(Go(g, Enter(c)))
  {
    GrantKeeps(g.admission, c);
    StageKeeps(g, c, g.calls[c].(stage := Finding), Grant(g.admission, c));
  }

  lemma {:induction false} FindKeeps(g: Gate, c: nat, fails: bool)
    requires GateOk(g) && Open(g, Find(c, fails))
    ensures GateOk(Go(g, Find(c, fails)))
  {
    var call := g.calls[c].(stage := Found(g.redact, g.runs, g.calls[c].input, fails), look := Some(Lookup(fails, g.runs)));
    StageKeeps(g, c, call, g.admission);
  }

  lemma LeaveKeeps(g: Gate, c: nat)
    requires GateOk(g) && Open(g, Leave(c))
    ensures GateOk(Go(g, Leave(c)))
  {
    ReleaseKeeps(g.admission, c);
    StageKeeps(g, c, g.calls[c].(stage := Done(g.calls[c].stage.answer)), Release(g.admission, c));
  }

  lemma OneMore(runs: seq<Stored>, run: Stored)
    requires OnePerRequest(runs)
    requires run.input.requestId.Some? ==> forall i :: 0 <= i < |runs| ==> !SameRequest(runs[i].input, run.input)
    ensures OnePerRequest(runs + [run])
  {
    var more := runs + [run];
    forall i, j | 0 <= i < j < |more| && more[i].input.requestId.Some? ensures !SameRequest(more[i].input, more[j].input) {
      assert more[i] == runs[i];
      if j < |runs| {
        assert more[j] == runs[j];
      }
    }
  }

  lemma OneMorePlace(runs: seq<Stored>, run: Stored, tickets: seq<Ticket>, more: seq<Ticket>)
    requires PlacesOk(runs, tickets) && |more| >= |tickets| && more[..|tickets|] == tickets
    requires run.place.Some? ==>
               |tickets| == run.place.value < |more| && more[run.place.value].key == run.input.session
    ensures PlacesOk(runs + [run], more)
  {
    var all := runs + [run];
    forall i | 0 <= i < |all| && all[i].place.Some?
      ensures all[i].place.value < |more| && more[all[i].place.value].key == all[i].input.session
    {
      if i < |runs| {
        assert all[i] == runs[i];
        assert more[runs[i].place.value] == tickets[runs[i].place.value];
      }
    }
    forall i, j | 0 <= i < j < |all| && all[i].place.Some? && all[j].place.Some? ensures all[i].place.value < all[j].place.value {
      assert all[i] == runs[i];
      if j < |runs| {
        assert all[j] == runs[j];
      }
    }
  }

  /** A run stored for one call is no run of the request of any other call about to create. */
  lemma StoreKeepsCalls(g: Gate, c: nat, run: Stored, answer: Answer, outcome: CreateOutcome)
    requires Inv(g.admission) && CallsOk(g) && NothingFound(g) && AnswersOk(g)
    requires c < |g.calls| && g.calls[c].stage == Creating && run.input == g.calls[c].input
    requires answer == Rejected || answer == Admitted(|g.runs|)
    ensures var h := g.(runs := g.runs + [run], calls := Settle(g.calls, c, answer, outcome));
            CallsOk(h) && NothingFound(h) && AnswersOk(h)
  {
    var h := g.(runs := g.runs + [run], calls := Settle(g.calls, c, answer, outcome));
    forall d, i | 0 <= d < |h.calls| && h.calls[d].stage == Creating && h.calls[d].input.requestId.Some? && 0 <= i < |h.runs|
      ensures !SameRequest(h.runs[i].input, h.calls[d].input)
    {
      NotThisRequest(g, c, d, run.input, i);
    }
    StoreKeepsAnswers(g, c, run, answer, outcome);
  }

  lemma StoreKeepsAnswers(g: Gate, c: nat, run: Stored, answer: Answer, outcome: CreateOutcome)
    requires AnswersOk(g) && c < |g.calls| && run.input == g.calls[c].input && (answer == Rejected || answer == Admitted(|g.runs|))
    ensures AnswersOk(g.(runs := g.runs + [run], calls := Settle(g.calls, c, answer, outcome)))
  {
    var h := g.(runs := g.runs + [run], calls := Settle(g.calls, c, answer, outcome));
    forall d | 0 <= d < |h.calls| ensures AnswerOk(h.runs, h.calls[d]) {
      assert AnswerOk(g.runs, g.calls[d]);
    }
  }

  lemma {:induction false} NotThisRequest(g: Gate, c: nat, d: nat, input: Input, i: nat)
    requires Inv(g.admission) && CallsOk(g) && NothingFound(g)
    requires c < |g.calls| && g.calls[c].stage == Creating && input == g.calls[c].input
    requires d < |g.calls| && g.calls[d].stage == Creating && g.calls[d].input.requestId.Some? && d != c && i <= |g.runs|
    ensures !SameRequest(if i < |g.runs| then g.runs[i].input else input, g.calls[d].input)
  {
    if i == |g.runs| {
      OneCreator(g, c, d);
    }
  }

  lemma {:induction false} CreatedKeeps(g: Gate, c: nat)
    requires GateOk(g) && Open(g, Create(c, Created))
    ensures GateOk(Go(g, Create(c, Created)))
  {
    var run := NewRun(g.redact, g.calls[c].input, Some(|g.execution.tickets|));
    var execution := Acquire(g.execution, g.calls[c].input.session);
    AcquireKeeps(g.execution, g.calls[c].input.session);
    OneMore(g.runs, run);
    assert execution.tickets[..|g.execution.tickets|] == g.execution.tickets;
    OneMorePlace(g.runs, run, g.execution.tickets, execution.tickets);
    StoreKeepsCalls(g, c, run, Admitted(|g.runs|), Created);
  }

  lemma {:induction false} CreateKeeps(g: Gate, c: nat, outcome: CreateOutcome)
    requires GateOk(g) && Open(g, Create(c, outcome))
    ensures GateOk(Go(g, Create(c, outcome)))
  {
    match outcome
    case Created => CreatedKeeps(g, c);
    case LostAfterWrite =>
      var run := NewRun(g.redact, g.calls[c].input, None);
      OneMore(g.runs, run);
      OneMorePlace(g.runs, run, g.execution.tickets, g.execution.tickets);
      StoreKeepsCalls(g, c, run, Rejected, LostAfterWrite);
    case LostBeforeWrite =>
      StageKeeps(g, c, g.calls[c].(stage := Leaving(Rejected), created := Some(outcome)), g.admission);
  }

  /** The gate stays in order while the execution mutex moves on and keeps its tickets' keys. */
  lemma ExecutionMoves(g: Gate, m: Mutex)
    requires GateOk(g) && Inv(m) && |g.execution.tickets| <= |m.tickets|
    requires forall i :: 0 <= i < |g.execution.tickets| ==> m.tickets[i].key == g.execution.tickets[i].key
    ensures GateOk(g.(execution := m))
  {
    assert PlacesOk(g.runs, m.tickets);
  }

  lemma ExecutionKeeps(g: Gate, step: GateStep)
    requires GateOk(g) && Open(g, step) && (step.OtherTurn? || step.BeginTurn? || step.EndTurn?)
    ensures GateOk(Go(g, step))
  {
    match step
    case OtherTurn(session) =>
      AcquireKeeps(g.execution, session);
      ExecutionMoves(g, Acquire(g.execution, session));
    case BeginTurn(i) =>
      GrantKeeps(g.execution, i);
      ExecutionMoves(g, Grant(g.execution, i));
    case EndTurn(i) =>
      ReleaseKeeps(g.execution, i);
      ExecutionMoves(g, Release(g.execution, i));
  }

  lemma UpdateKeeps(g: Gate, i: nat)
    requires GateOk(g) && Open(g, Update(i))
    ensures GateOk(Go(g, Update(i)))
  {
    var h := Go(g, Update(i));
    forall c | 0 <= c < |h.calls| ensures AnswerOk(h.runs, h.calls[c]) {
      assert AnswerOk(g.runs, g.calls[c]);
    }
  }

  lemma GoKeeps(g: Gate, step: GateStep)
    requires GateOk(g) && Open(g, step)
    ensures GateOk(Go(g, step))
  {
    match step
    case Arrive(input) => ArriveKeeps(g, input);
    case Enter(c) => EnterKeeps(g, c);
    case Find(c, fails) => FindKeeps(g, c, fails);
    case Create(c, outcome) => CreateKeeps(g, c, outcome);
    case Leave(c) => LeaveKeeps(g, c);
    case Update(i) => UpdateKeeps(g, i);
    case _ => ExecutionKeeps(g, step);
  }

  lemma {:induction false} PlayKeeps(g: Gate, steps: seq<GateStep>)
    requires GateOk(g)
    ensures GateOk(Play(g, steps))
    decreases |steps|
  {
    if steps != [] {
      if Open(g, steps[0]) {
        GoKeeps(g, steps[0]);
        PlayKeeps(Go(g, steps[0]), steps[1..]);
      } else {
        PlayKeeps(g, steps[1..]);
      }
    }
  }

  // ---- main results, over every run ----

  /** At most one run is ever stored for a session, principal and request id, however calls overlap,
      fail or are repeated. */
  lemma {:induction false} OneRunPerRequest(redact: Redactor, steps: seq<GateStep>, i: nat, j: nat)
    requires i < j < |Play(Empty(redact), steps).runs| && Play(Empty(redact), steps).runs[i].input.requestId.Some?
    ensures var a, b := Play(Empty(redact), steps).runs[i].input, Play(Empty(redact), steps).runs[j].input;
            a.session != b.session || a.principal != b.principal || a.requestId != b.requestId
  {
    PlayKeeps(Empty(redact), steps);
  }

  /** Repeating a request is idempotent: every call of it that is answered with a run gets the same one. */
  lemma {:induction false} RetriesGetTheSameRun(redact: Redactor, steps: seq<GateStep>, c: nat, d: nat)
    requires var g := Play(Empty(redact), steps);
             AnsweredWithRun(g, c) && AnsweredWithRun(g, d)
             && g.calls[c].input.requestId.Some? && g.calls[c].input.requestId == g.calls[d].input.requestId
             && g.calls[c].input.session == g.calls[d].input.session && g.calls[c].input.principal == g.calls[d].input.principal
    ensures var calls := Play(Empty(redact), steps).calls;
            AnswerOf(calls[c].stage).value.run == AnswerOf(calls[d].stage).value.run
  {
    PlayKeeps(Empty(redact), steps);
    SameAnswer(Play(Empty(redact), steps), c, d);
  }

  predicate AnsweredWithRun(g: Gate, c: nat) {
    c < |g.calls| && AnswerOf(g.calls[c].stage).Some? && !AnswerOf(g.calls[c].stage).value.Rejected?
  }

  lemma SameAnswer(g: Gate, c: nat, d: nat)
    requires OnePerRequest(g.runs) && AnswersOk(g) && AnsweredWithRun(g, c) && AnsweredWithRun(g, d)
    requires g.calls[c].input.requestId.Some? && SameRequest(g.calls[c].input, g.calls[d].input)
    ensures AnswerOf(g.calls[c].stage).value.run == AnswerOf(g.calls[d].stage).value.run
  {
    assert AnswerOk(g.runs, g.calls[c]) && AnswerOk(g.runs, g.calls[d]);
    var i, j := AnswerOf(g.calls[c].stage).value.run, AnswerOf(g.calls[d].stage).value.run;
    assert SameRequest(g.runs[i].input, g.runs[j].input);
  }

  /** Admitted runs of a session execute in the order they were stored, one at a time: a later one does
      not begin before the earlier one has ended. */
  lemma {:induction false} ExecutionInAdmissionOrder(redact: Redactor, steps: seq<GateStep>, i: nat, j: nat)
    requires var runs := Play(Empty(redact), steps).runs;
             i < j < |runs| && runs[i].input.session == runs[j].input.session && runs[i].place.Some? && runs[j].place.Some?
    ensures var g := Play(Empty(redact), steps);
            var first, second := g.runs[i].place.value, g.runs[j].place.value;
            first < second < |g.execution.tickets|
            && (g.execution.tickets[second].stage != Waiting ==> g.execution.tickets[first].stage == Released)
  {
    PlayKeeps(Empty(redact), steps);
  }

  // ---- what a call is answered ----

  function Times(redact: Redactor, n: nat, text: string): string {
    if n == 0 then text else redact(Times(redact, n - 1, text))
  }

  /** A stored message has been redacted once, and once more for every time the run was stored again. */
  ghost predicate MessagesOk(redact: Redactor, runs: seq<Stored>) {
    forall i :: 0 <= i < |runs| ==> runs[i].message == Times(redact, 1 + runs[i].updates, runs[i].input.message)
  }

  /** A run of the call's request was stored when it looked; this is it. */
  ghost predicate FoundRun(call: Call, r: nat) {
    && call.look.Some? && call.input.requestId.Some? && r < |call.look.value.runs|
    && var input := call.look.value.runs[r].input;
       input.session == call.input.session && input.principal == call.input.principal && input.requestId == call.input.requestId
  }

  /** The lookup ended in one of three ways. */
  ghost predicate LookedUp(redact: Redactor, call: Call) {
    call.look.Some? ==>
      && MessagesOk(redact, call.look.value.runs)
      && (ConflictsAtLookup(call) <==> call.look.value.fails || exists r: nat :: FoundOther(redact, call, r))
      && (forall r: nat :: AnswerOf(call.stage) == Some(Existing(r)) <==> !call.look.value.fails && FoundSame(redact, call, r))
      && (GoesOn(call) <==> !call.look.value.fails && forall r: nat :: !FoundRun(call, r))
  }

  /** The stored message is the call's, redacted. */
  ghost predicate FoundSame(redact: Redactor, call: Call, r: nat) {
    FoundRun(call, r) && call.look.value.runs[r].message == redact(call.input.message)
  }

  ghost predicate FoundOther(redact: Redactor, call: Call, r: nat) {
    FoundRun(call, r) && call.look.value.runs[r].message != redact(call.input.message)
  }

  predicate ConflictsAtLookup(call: Call) {
    AnswerOf(call.stage) == Some(Rejected) && call.created.None?
  }

  /** The call goes on, or has gone on, to store a new run. */
  predicate GoesOn(call: Call) {
    call.stage == Creating || call.created.Some?
  }

  /** A call that stored its run names it; one that could not is rejected. */
  ghost predicate CreatedAs(runs: seq<Stored>, call: Call) {
    call.created.Some? ==>
      match call.created.value
      case Created =>
        exists r :: 0 <= r < |runs| && AnswerOf(call.stage) == Some(Admitted(r)) && runs[r].input == call.input && runs[r].place.Some?
      case _ => AnswerOf(call.stage) == Some(Rejected)
  }

  ghost predicate CallAnswered(redact: Redactor, runs: seq<Stored>, call: Call) {
    && LookedUp(redact, call) && CreatedAs(runs, call)
    && (call.look.None? <==> call.stage == Queued || call.stage == Finding)
    && (call.created.Some? ==> call.stage.Leaving? || call.stage.Done?)
    && (AnswerOf(call.stage).Some? && AnswerOf(call.stage).value.Admitted? ==> call.created == Some(Created))
  }

  ghost predicate Answered(g: Gate) {
    && MessagesOk(g.redact, g.runs)
    && forall c :: 0 <= c < |g.calls| ==> CallAnswered(g.redact, g.runs, g.calls[c])
  }

  lemma {:induction false} FoundIs(runs: seq<Stored>, input: Input, r: nat)
    requires OnePerRequest(runs) && input.requestId.Some? && r < |runs| && SameRequest(runs[r].input, input)
    ensures FindRequest(runs, input) == Some(r)
  {
  }

  lemma LookupIsExact(redact: Redactor, call: Call)
    requires call.look.Some? && call.created.None?
    requires OnePerRequest(call.look.value.runs) && MessagesOk(redact, call.look.value.runs)
    requires call.stage == Found(redact, call.look.value.runs, call.input, call.look.value.fails)
    ensures LookedUp(redact, call)
  {
    var runs := call.look.value.runs;
    forall r: nat | FoundRun(call, r) ensures FindRequest(runs, call.input) == Some(r) {
      FoundIs(runs, call.input, r);
    }
    if call.input.requestId.Some? && FindRequest(runs, call.input).Some? {
      var r := FindRequest(runs, call.input).value;
      assert FoundSame(redact, call, r) || FoundOther(redact, call, r);
    }
  }

  lemma FindAnswers(g: Gate, c: nat, fails: bool)
    requires OnePerRequest(g.runs) && Answered(g) && Open(g, Find(c, fails))
    ensures CallAnswered(g.redact, g.runs, Go(g, Find(c, fails)).calls[c])
  {
    assert CallAnswered(g.redact, g.runs, g.calls[c]);
    LookupIsExact(g.redact, Go(g, Find(c, fails)).calls[c]);
  }

  /** What is stored later changes nothing for a call that has been answered. */
  lemma StaysAnswered(redact: Redactor, runs: seq<Stored>, more: seq<Stored>, call: Call)
    requires CallAnswered(redact, runs, call) && |runs| <= |more|
    requires forall i :: 0 <= i < |runs| ==> more[i].input == runs[i].input && more[i].place == runs[i].place
    ensures CallAnswered(redact, more, call)
  {
    if call.created == Some(Created) {
      var r :| 0 <= r < |runs| && AnswerOf(call.stage) == Some(Admitted(r)) && runs[r].input == call.input && runs[r].place.Some?;
      assert more[r].input == call.input && more[r].place.Some?;
    }
  }

  /** What a lookup led to is what it led to, however the call moves on. */
  lemma MovedOn(redact: Redactor, call: Call, next: Call)
    requires LookedUp(redact, call) && next.input == call.input && next.look == call.look
    requires ConflictsAtLookup(next) == ConflictsAtLookup(call) && GoesOn(next) == GoesOn(call)
    requires forall r: nat :: AnswerOf(next.stage) == Some(Existing(r)) <==> AnswerOf(call.stage) == Some(Existing(r))
    ensures LookedUp(redact, next)
  {
    if call.look.Some? {
      forall r: nat
        ensures FoundRun(next, r) == FoundRun(call, r) && FoundSame(redact, next, r) == FoundSame(redact, call, r)
                && FoundOther(redact, next, r) == FoundOther(redact, call, r)
      {
      }
    }
  }

  lemma CreatedAnswers(g: Gate, c: nat)
    requires c < |g.calls| && CallAnswered(g.redact, g.runs, g.calls[c]) && Open(g, Create(c, Created))
    ensures var h := Go(g, Create(c, Created)); CreatedAs(h.runs, h.calls[c])
  {
    var h, r := Go(g, Create(c, Created)), |g.runs|;
    assert h.runs[r].input == h.calls[c].input && AnswerOf(h.calls[c].stage) == Some(Admitted(r));
  }

  lemma CreateAnswers(g: Gate, c: nat, outcome: CreateOutcome)
    requires c < |g.calls| && CallAnswered(g.redact, g.runs, g.calls[c]) && Open(g, Create(c, outcome))
    ensures var h := Go(g, Create(c, outcome)); CallAnswered(h.redact, h.runs, h.calls[c])
  {
    MovedOn(g.redact, g.calls[c], Go(g, Create(c, outcome)).calls[c]);
    if outcome == Created {
      CreatedAnswers(g, c);
    }
  }

  lemma RunsAreKept(g: Gate, step: GateStep)
    requires Open(g, step)
    ensures var runs := Go(g, step).runs;
            |g.runs| <= |runs|
            && forall i :: 0 <= i < |g.runs| ==> runs[i].input == g.runs[i].input && runs[i].place == g.runs[i].place
  {
  }

  /** A step that gives a call its place or takes it away. */
  lemma StageAnswers(g: Gate, step: GateStep)
    requires Open(g, step) && (step.Enter? || step.Leave?) && CallAnswered(g.redact, g.runs, g.calls[step.call])
    ensures CallAnswered(g.redact, g.runs, Go(g, step).calls[step.call])
  {
    MovedOn(g.redact, g.calls[step.call], Go(g, step).calls[step.call]);
  }

  lemma GoMessages(g: Gate, step: GateStep)
    requires MessagesOk(g.redact, g.runs) && Open(g, step)
    ensures MessagesOk(g.redact, Go(g, step).runs) && Go(g, step).redact == g.redact
  {
    if step.Create? {
      assert Times(g.redact, 1, g.calls[step.call].input.message) == g.redact(Times(g.redact, 0, g.calls[step.call].input.message));
    }
  }

  /** The call that a step is about. */
  function Moved(g: Gate, step: GateStep): nat {
    match step
    case Enter(c) => c
    case Find(c, _) => c
    case Create(c, _) => c
    case Leave(c) => c
    case _ => |g.calls|
  }

  lemma OthersStay(g: Gate, step: GateStep)
    requires Open(g, step)
    ensures var calls := Go(g, step).calls;
            && |calls| == |g.calls| + (if step.Arrive? then 1 else 0)
            && (forall c :: 0 <= c < |g.calls| && c != Moved(g, step) ==> calls[c] == g.calls[c])
            && (step.Arrive? ==> calls[|g.calls|] == Call(step.input, Queued, None, None))
  {
  }

  lemma MovedAnswers(g: Gate, step: GateStep, c: nat)
    requires OnePerRequest(g.runs) && Answered(g) && Open(g, step) && c == Moved(g, step) < |g.calls|
    ensures c < |Go(g, step).calls| && CallAnswered(g.redact, Go(g, step).runs, Go(g, step).calls[c])
  {
    assert CallAnswered(g.redact, g.runs, g.calls[c]);
    match step
    case Find(_, fails) => FindAnswers(g, c, fails);
    case Create(_, outcome) => CreateAnswers(g, c, outcome);
    case _ => StageAnswers(g, step);
  }

  lemma GoAnswers(g: Gate, step: GateStep)
    requires OnePerRequest(g.runs) && Answered(g) && Open(g, step)
    ensures Answered(Go(g, step)) && Go(g, step).redact == g.redact
  {
    var runs, calls := Go(g, step).runs, Go(g, step).calls;
    GoMessages(g, step);
    OthersStay(g, step);
    RunsAreKept(g, step);
    if Moved(g, step) < |g.calls| {
      MovedAnswers(g, step, Moved(g, step));
    }
    forall c | 0 <= c < |calls| ensures CallAnswered(g.redact, runs, calls[c]) {
      if c < |g.calls| && c != Moved(g, step) {
        StaysAnswered(g.redact, g.runs, runs, g.calls[c]);
      }
    }
  }

  lemma GoKeepsAll(g: Gate, step: GateStep)
    requires GateOk(g) && Answered(g) && Open(g, step)
    ensures GateOk(Go(g, step)) && Answered(Go(g, step)) && Go(g, step).redact == g.redact
  {
    GoKeeps(g, step);
    GoAnswers(g, step);
  }

  lemma {:induction false} PlayAnswers(g: Gate, steps: seq<GateStep>)
    requires GateOk(g) && Answered(g)
    ensures Answered(Play(g, steps)) && Play(g, steps).redact == g.redact
    decreases |steps|
  {
    if steps != [] {
      if Open(g, steps[0]) {
        GoKeepsAll(g, steps[0]);
        PlayAnswers(Go(g, steps[0]), steps[1..]);
      } else {
        PlayAnswers(g, steps[1..]);
      }
    }
  }

  /** How every lookup ends, in every run. A call is answered with an existing run exactly if its lookup
      did not fail and a run of its request with this message, redacted, was stored then, and it is
      that run; it is rejected by its lookup exactly if that failed or the stored message differs; and it
      goes on to store a run exactly if it has no request id or no run of its request was stored. */
  lemma {:induction false} AnsweredExactly(redact: Redactor, steps: seq<GateStep>, c: nat)
    requires var calls := Play(Empty(redact), steps).calls; c < |calls| && calls[c].look.Some?
    ensures var g := Play(Empty(redact), steps);
            && LookedUp(redact, g.calls[c]) && CreatedAs(g.runs, g.calls[c])
            && MessagesOk(redact, g.runs)
  {
    PlayAnswers(Empty(redact), steps);
    assert CallAnswered(redact, Play(Empty(redact), steps).runs, Play(Empty(redact), steps).calls[c]);
  }

  // ---- retries ----

  ghost predicate Idempotent(redact: Redactor) {
    forall text :: redact(redact(text)) == redact(text)
  }

  lemma {:induction false} OnceIsEnough(redact: Redactor, n: nat, text: string)
    requires Idempotent(redact)
    ensures Times(redact, n + 1, text) == redact(text)
  {
    if n > 0 {
      OnceIsEnough(redact, n - 1, text);
    }
  }

  /** The request was sent again with its own message, while its run was stored. */
  ghost predicate Retried(call: Call, r: nat) {
    && FoundRun(call, r) && !call.look.value.fails
    && call.look.value.runs[r].input.message == call.input.message
  }

  lemma {:induction false} RetryAnswered(redact: Redactor, steps: seq<GateStep>, c: nat, r: nat)
    requires Idempotent(redact) && c < |Play(Empty(redact), steps).calls| && Retried(Play(Empty(redact), steps).calls[c], r)
    ensures AnswerOf(Play(Empty(redact), steps).calls[c].stage) == Some(Existing(r))
  {
    AnsweredExactly(redact, steps, c);
    var call := Play(Empty(redact), steps).calls[c];
    var run := call.look.value.runs[r];
    OnceIsEnough(redact, run.updates, run.input.message);
    assert FoundSame(redact, call, r);
  }

  lemma {:induction false} PlayFirst(g: Gate, step: GateStep, more: seq<GateStep>)
    requires Open(g, step)
    ensures Play(g, [step] + more) == Play(Go(g, step), more)
  {
    assert ([step] + more)[1..] == more;
  }

  lemma {:induction false} PlayTwo(g: Gate, a: GateStep, b: GateStep, more: seq<GateStep>)
    requires Open(g, a) && Open(Go(g, a), b)
    ensures Play(g, [a] + ([b] + more)) == Play(Go(Go(g, a), b), more)
  {
    PlayFirst(g, a, [b] + more);
    PlayFirst(Go(g, a), b, more);
  }

  /** The first call has left, its run is stored and has been stored again once. */
  function OnceStored(redact: Redactor, input: Input): Gate {
    Gate(redact, Mutex(map[], [Ticket(input.session, None, Released)], [0]),
         Acquire(TailMutex.FRESH, input.session),
         [Stored(input, redact(redact(input.message)), 1, Some(0))],
         [Call(input, Done(Admitted(0)), Some(Lookup(false, [])), Some(Created))])
  }

  /** The first call is about to store its run. */
  function FirstInside(redact: Redactor, input: Input): Gate {
    Gate(redact, Mutex(map[input.session := 0], [Ticket(input.session, None, Holding)], [0]), TailMutex.FRESH, [],
         [Call(input, Creating, Some(Lookup(false, [])), None)])
  }

  lemma FirstComesIn(redact: Redactor, input: Input, more: seq<GateStep>)
    ensures Play(Empty(redact), [Arrive(input)] + ([Enter(0)] + ([Find(0, false)] + more))) == Play(FirstInside(redact, input), more)
  {
    var g1 := Go(Empty(redact), Arrive(input));
    assert g1 == Gate(redact, Mutex(map[input.session := 0], [Ticket(input.session, None, Waiting)], []), TailMutex.FRESH, [],
                      [Call(input, Queued, None, None)]);
    var g2 := Go(g1, Enter(0));
    assert g2 == Gate(redact, Mutex(map[input.session := 0], [Ticket(input.session, None, Holding)], [0]), TailMutex.FRESH, [],
                      [Call(input, Finding, None, None)]);
    PlayTwo(Empty(redact), Arrive(input), Enter(0), [Find(0, false)] + more);
    PlayFirst(g2, Find(0, false), more);
    assert Go(g2, Find(0, false)) == FirstInside(redact, input);
  }

  lemma FirstGoesOut(redact: Redactor, input: Input, more: seq<GateStep>)
    ensures Play(FirstInside(redact, input), [Create(0, Created)] + ([Leave(0)] + ([Update(0)] + more))) ==
            Play(OnceStored(redact, input), more)
  {
    var g3 := FirstInside(redact, input);
    var g4 := Go(g3, Create(0, Created));
    assert g4.runs == [Stored(input, redact(input.message), 0, Some(0))];
    var g5 := Go(g4, Leave(0));
    assert g5.admission == Mutex(map[], [Ticket(input.session, None, Released)], [0]);
    PlayTwo(g3, Create(0, Created), Leave(0), [Update(0)] + more);
    PlayFirst(g5, Update(0), more);
    assert Go(g5, Update(0)) == OnceStored(redact, input);
  }

  lemma SecondLooks(redact: Redactor, input: Input)
    requires input.requestId.Some? && redact(redact(input.message)) != redact(input.message)
    ensures var calls := Play(OnceStored(redact, input), [Arrive(input)] + ([Enter(1)] + ([Find(1, false)] + []))).calls;
            |calls| == 2 && Retried(calls[1], 0) && AnswerOf(calls[1].stage) == Some(Rejected)
  {
    var g := OnceStored(redact, input);
    var g1 := Go(g, Arrive(input));
    assert g1.admission.tickets == [Ticket(input.session, None, Released), Ticket(input.session, None, Waiting)];
    var g2 := Go(g1, Enter(1));
    PlayTwo(g, Arrive(input), Enter(1), [Find(1, false)] + []);
    PlayFirst(g2, Find(1, false), []);
    assert FindRequest(g2.runs, input) == Some(0);
  }

  /** If call `c` of this run repeats the request of run `r` with its message, it is answered with it. */
  ghost predicate RetryWorks(redact: Redactor, steps: seq<GateStep>, c: nat, r: nat) {
    var calls := Play(Empty(redact), steps).calls;
    c < |calls| && Retried(calls[c], r) ==> AnswerOf(calls[c].stage) == Some(Existing(r))
  }

  lemma RetryConflicts(redact: Redactor, text: string) returns (steps: seq<GateStep>)
    requires redact(redact(text)) != redact(text)
    ensures !RetryWorks(redact, steps, 1, 0)
  {
    var input := Input("s", "p", Some("q"), text);
    var last := [Arrive(input)] + ([Enter(1)] + ([Find(1, false)] + []));
    var then_ := [Create(0, Created)] + ([Leave(0)] + ([Update(0)] + last));
    steps := [Arrive(input)] + ([Enter(0)] + ([Find(0, false)] + then_));
    FirstComesIn(redact, input, then_);
    FirstGoesOut(redact, input, last);
    SecondLooks(redact, input);
  }

  /** A retry is always answered with its run, exactly if redaction is idempotent: a text that redaction
      changes twice makes its retry a conflict once the run has been stored again. */
  lemma RetriesWorkExactly(redact: Redactor)
    ensures Idempotent(redact) <==> forall steps, c: nat, r: nat :: RetryWorks(redact, steps, c, r)
  {
    if Idempotent(redact) {
      forall steps, c: nat, r: nat ensures RetryWorks(redact, steps, c, r) {
        var calls := Play(Empty(redact), steps).calls;
        if c < |calls| && Retried(calls[c], r) {
          RetryAnswered(redact, steps, c, r);
        }
      }
    } else {
      var text :| redact(redact(text)) != redact(text);
      var steps := RetryConflicts(redact, text);
    }
  }

  // ---- the object ----

  class ChatAdmission {
    const admissionMutex: SessionMutex
    const sessionMutex: SessionMutex
    const redact: Redactor
    var runs: seq<Stored>
    var calls: seq<Call>

    ghost function View(): Gate
      reads this, admissionMutex, sessionMutex
    {
      Gate(redact, admissionMutex.View(), sessionMutex.View(), runs, calls)
    }

    ghost predicate Valid()
      reads this, admissionMutex, sessionMutex
    {
      admissionMutex != sessionMutex && GateOk(View())
    }

    constructor (redact: Redactor)
      ensures Valid() && View() == Empty(redact) && fresh(admissionMutex) && fresh(sessionMutex)
    {
      admissionMutex := new SessionMutex();
      sessionMutex := new SessionMutex();
      this.redact := redact;
      runs, calls := [], [];
    }

    method HandleTurn(input: Input) returns (call: nat)
      requires Valid()
      modifies this, admissionMutex
      ensures Valid() && View() == Go(old(View()), Arrive(input)) && call == old(|calls|)
    {
      GoKeeps(View(), Arrive(input));
      call := admissionMutex.Register(input.session);
      calls := calls + [Call(input, Queued, None, None)];
    }

    method Entered(c: nat)
      requires Valid() && Open(View(), Enter(c))
      modifies this, admissionMutex
      ensures Valid() && View() == Go(old(View()), Enter(c))
    {
      ghost var after := Go(View(), Enter(c));
      GoKeeps(View(), Enter(c));
      admissionMutex.Resume(c);
      calls := SetStage(calls, c, Finding);
      assert View() == after;
    }

    /** Looks through the stored runs, newest first: any order finds the same. */
    method FindStored(input: Input) returns (found: Option<nat>)
      ensures found == FindRequest(runs, input)
    {
      var i := |runs|;
      assert runs[..i] == runs;
      while i > 0
        invariant 0 <= i <= |runs| && FindRequest(runs[..i], input) == FindRequest(runs, input)
      {
        assert runs[..i][..i - 1] == runs[..i - 1];
        if SameRequest(runs[i - 1].input, input) {
          return Some(i - 1);
        }
        i := i - 1;
      }
      return None;
    }

    /** What the lookup leads to. */
    method Decide(c: nat, fails: bool) returns (next: CallStage)
      requires c < |calls|
      ensures next == Found(redact, runs, calls[c].input, fails)
    {
      if fails {
        return Leaving(Rejected);
      }
      if calls[c].input.requestId.None? {
        return Creating;
      }
      var found := FindStored(calls[c].input);
      if found.None? {
        return Creating;
      }
      if runs[found.value].message != redact(calls[c].input.message) {
        return Leaving(Rejected);
      }
      return Leaving(Existing(found.value));
    }

    method Look(c: nat, fails: bool)
      requires Valid() && Open(View(), Find(c, fails))
      modifies this
      ensures Valid() && View() == Go(old(View()), Find(c, fails))
    {
      ghost var after := Go(View(), Find(c, fails));
      GoKeeps(View(), Find(c, fails));
      var next := Decide(c, fails);
      calls := Learn(calls, c, next, Lookup(fails, runs));
      assert View() == after;
    }

    /** `createRun` and, once it has returned, the place in the execution order. */
    method StoreRun(input: Input, outcome: CreateOutcome) returns (answer: Answer)
      requires admissionMutex != sessionMutex
      modifies this, sessionMutex
      ensures calls == old(calls)
      ensures outcome == Created ==>
                && runs == old(runs) + [NewRun(redact, input, Some(old(|sessionMutex.tickets|)))]
                && sessionMutex.View() == Acquire(old(sessionMutex.View()), input.session)
                && answer == Admitted(|old(runs)|)
      ensures outcome == LostAfterWrite ==>
                runs == old(runs) + [NewRun(redact, input, None)] && sessionMutex.View() == old(sessionMutex.View()) && answer == Rejected
      ensures outcome == LostBeforeWrite ==>
                runs == old(runs) && sessionMutex.View() == old(sessionMutex.View()) && answer == Rejected
    {
      answer := Rejected;
      match outcome {
        case Created =>
          answer := Admitted(|runs|);
          var place := sessionMutex.Register(input.session);
          runs := runs + [NewRun(redact, input, Some(place))];
        case LostAfterWrite =>
          runs := runs + [NewRun(redact, input, None)];
        case LostBeforeWrite =>
      }
    }

    method Store(c: nat, outcome: CreateOutcome)
      requires Valid() && Open(View(), Create(c, outcome))
      modifies this, sessionMutex
      ensures Valid() && View() == Go(old(View()), Create(c, outcome))
    {
      ghost var after := Go(View(), Create(c, outcome));
      GoKeeps(View(), Create(c, outcome));
      var answer := StoreRun(calls[c].input, outcome);
      calls := Settle(calls, c, answer, outcome);
      assert View() == after;
    }

    method Left(c: nat)
      requires Valid() && Open(View(), Leave(c))
      modifies this, admissionMutex
      ensures Valid() && View() == Go(old(View()), Leave(c))
    {
      ghost var after := Go(View(), Leave(c));
      GoKeeps(View(), Leave(c));
      admissionMutex.ReleaseTicket(c);
      calls := SetStage(calls, c, Done(calls[c].stage.answer));
      assert View() == after;
    }

    /** A run is stored again, and so redacted again. */
    method UpdateRun(i: nat)
      requires Valid() && i < |runs|
      modifies this
      ensures Valid() && View() == Go(old(View()), Update(i))
    {
      ghost var after := Go(View(), Update(i));
      GoKeeps(View(), Update(i));
      runs := runs[i := runs[i].(message := redact(runs[i].message), updates := runs[i].updates + 1)];
      assert View() == after;
    }
  }
}
