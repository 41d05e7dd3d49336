/** When the steps of the admission gate may be taken, and what each leaves behind. */
module AdmissionOutcomes {
  import opened Options
  import opened TailMutex
  import opened Admission

  /** A call may come in at any time; it waits behind the calls of its session that came before. */
  lemma ArrivesLast(redact: Redactor, steps: seq<GateStep>, input: Input)
    ensures var g := Play(Empty(redact), steps);
            && Open(g, Arrive(input))
            && var h := Go(g, Arrive(input));
               h.calls == g.calls + [Call(input, Queued, None, None)] && h.runs == g.runs && h.execution == g.execution
  {
  }

  /** Call `c` is the first of its session that has not left. */
  predicate IsNext(calls: seq<Call>, c: nat)
    requires c < |calls|
  {
    calls[c].stage == Queued && forall d :: 0 <= d < c && calls[d].input.session == calls[c].input.session ==> calls[d].stage.Done?
  }

  ghost predicate OnlyStage(g: Gate, h: Gate, c: nat, stage: CallStage)
    requires c < |g.calls|
  {
    h.runs == g.runs && h.execution == g.execution && h.calls == g.calls[c := g.calls[c].(stage := stage)]
  }

  lemma NextIsFirst(g: Gate, c: nat)
    requires CallsOk(g) && c < |g.calls|
    ensures IsNext(g.calls, c) <==> IsFirst(g.admission.tickets, c)
  {
    forall d | 0 <= d < |g.calls|
      ensures g.admission.tickets[d].key == g.calls[d].input.session
      ensures g.admission.tickets[d].stage == Waiting <==> g.calls[d].stage == Queued
      ensures g.admission.tickets[d].stage == Released <==> g.calls[d].stage.Done?
    {
      assert StageMatches(g.calls[d].stage, g.admission.tickets[d].stage);
    }
  }

  lemma EnterOpens(g: Gate, c: nat)
    requires TailMutex.Inv(g.admission) && CallsOk(g) && c < |g.calls|
    ensures Open(g, Enter(c)) <==> IsNext(g.calls, c)
  {
    NextIsFirst(g, c);
    FirstMayBegin(g.admission, c);
  }

  lemma EnterMoves(g: Gate, c: nat)
    requires c < |g.calls| && Open(g, Enter(c))
    ensures OnlyStage(g, Go(g, Enter(c)), c, Finding)
  {
  }

  /** A call enters exactly when every earlier call of its session is done, and then it looks. */
  lemma {:induction false} EntersExactly(redact: Redactor, steps: seq<GateStep>, c: nat)
    requires c < |Play(Empty(redact), steps).calls|
    ensures var g := Play(Empty(redact), steps);
            && (Open(g, Enter(c)) <==> IsNext(g.calls, c))
            && (Open(g, Enter(c)) ==> OnlyStage(g, Go(g, Enter(c)), c, Finding))
  {
    PlayKeeps(Empty(redact), steps);
    EnterOpens(Play(Empty(redact), steps), c);
    if Open(Play(Empty(redact), steps), Enter(c)) {
      EnterMoves(Play(Empty(redact), steps), c);
    }
  }

  /** A run is stored unless the call fails before the write, with the redacted message. It takes the
      next execution place of its session, and is answered, exactly if nothing fails; a call that
      fails is rejected. */
  lemma {:induction false} CreatesExactly(redact: Redactor, steps: seq<GateStep>, c: nat, outcome: Admission.CreateOutcome)
    requires Open(Play(Empty(redact), steps), Create(c, outcome))
    ensures var g := Play(Empty(redact), steps);
            var h, n, place := Go(g, Create(c, outcome)), |g.runs|, |g.execution.tickets|;
            && (outcome == LostBeforeWrite ==> h.runs == g.runs)
            && (outcome != LostBeforeWrite ==> h.runs == g.runs + [Stored(g.calls[c].input, redact(g.calls[c].input.message), 0,
                                                                         if outcome == Created then Some(place) else None)])
            && (outcome != Created ==> h.execution == g.execution)
            && (outcome == Created ==>
                  && |h.execution.tickets| == place + 1 && g.execution.tickets <= h.execution.tickets
                  && h.execution.tickets[place].key == g.calls[c].input.session && h.execution.tickets[place].stage == Waiting)
            && |h.calls| == |g.calls| && h.calls[c].stage == Leaving(if outcome == Created then Admitted(n) else Rejected)
            && forall d :: 0 <= d < |g.calls| && d != c ==> h.calls[d] == g.calls[d]
  {
    PlayAnswers(Empty(redact), steps);
  }

  lemma LeaveOpens(g: Gate, c: nat)
    requires CallsOk(g) && c < |g.calls|
    ensures Open(g, Leave(c)) <==> g.calls[c].stage.Leaving?
  {
    assert StageMatches(g.calls[c].stage, g.admission.tickets[c].stage);
  }

  lemma LeaveMoves(g: Gate, c: nat)
    requires c < |g.calls| && Open(g, Leave(c))
    ensures OnlyStage(g, Go(g, Leave(c)), c, Done(g.calls[c].stage.answer))
  {
  }

  /** However it was answered, a call leaves with that answer and touches nothing else. */
  lemma {:induction false} LeavesWithItsAnswer(redact: Redactor, steps: seq<GateStep>, c: nat)
    requires c < |Play(Empty(redact), steps).calls|
    ensures var g := Play(Empty(redact), steps);
            && (Open(g, Leave(c)) <==> g.calls[c].stage.Leaving?)
            && (Open(g, Leave(c)) ==> OnlyStage(g, Go(g, Leave(c)), c, Done(g.calls[c].stage.answer)))
  {
    PlayKeeps(Empty(redact), steps);
    LeaveOpens(Play(Empty(redact), steps), c);
    if Open(Play(Empty(redact), steps), Leave(c)) {
      LeaveMoves(Play(Empty(redact), steps), c);
    }
  }

  /** Turn `i` may begin once it is the first of its session that has not ended, and end once it holds
      the session; either touches no other turn. */
  ghost predicate MovesInTurn(g: Gate, i: nat)
    requires i < |g.execution.tickets|
  {
    && (Open(g, BeginTurn(i)) <==> IsFirst(g.execution.tickets, i))
    && (Open(g, EndTurn(i)) <==> g.execution.tickets[i].stage == Holding)
    && (Open(g, BeginTurn(i)) ==> MovesOnly(g, Go(g, BeginTurn(i)), i, Holding))
    && (Open(g, EndTurn(i)) ==> MovesOnly(g, Go(g, EndTurn(i)), i, Released))
  }

  predicate IsFirst(places: seq<Ticket>, i: nat)
    requires i < |places|
  {
    places[i].stage == Waiting && forall j :: 0 <= j < i && places[j].key == places[i].key ==> places[j].stage == Released
  }

  lemma FirstMayBegin(m: Mutex, i: nat)
    requires TailMutex.Inv(m) && i < |m.tickets|
    ensures CanGrant(m, i) <==> IsFirst(m.tickets, i)
  {
    if CanGrant(m, i) {
      GrantIsOldest(m, i);
    }
  }

  lemma {:induction false} TurnMoves(g: Gate, i: nat)
    requires TailMutex.Inv(g.execution) && i < |g.execution.tickets|
    ensures MovesInTurn(g, i)
  {
    FirstMayBegin(g.execution, i);
  }

  /** A turn begins exactly when every earlier place of its session has ended, whether it was admitted
      here or is another turn of the session; it then holds the session until it ends. */
  lemma {:induction false} TurnsTakeTurns(redact: Redactor, steps: seq<GateStep>, i: nat)
    requires i < |Play(Empty(redact), steps).execution.tickets|
    ensures MovesInTurn(Play(Empty(redact), steps), i)
  {
    PlayKeeps(Empty(redact), steps);
    TurnMoves(Play(Empty(redact), steps), i);
  }

  ghost predicate MovesOnly(g: Gate, h: Gate, i: nat, stage: TailMutex.Stage)
    requires i < |g.execution.tickets|
  {
    h.runs == g.runs && h.calls == g.calls && h.execution.tickets == g.execution.tickets[i := g.execution.tickets[i].(stage := stage)]
  }

  lemma OtherTurnsLineUp(g: Gate, session: string)
    ensures Open(g, OtherTurn(session))
    ensures var h, place := Go(g, OtherTurn(session)), |g.execution.tickets|;
            && h.runs == g.runs && h.calls == g.calls
            && |h.execution.tickets| == place + 1 && g.execution.tickets <= h.execution.tickets
            && h.execution.tickets[place].key == session && h.execution.tickets[place].stage == Waiting
  {
  }
}
