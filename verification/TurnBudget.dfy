/** Taking the newest turns of a conversation while they fit a budget. */
module TurnBudget {
  import opened RunRecords

  /** The run that a turn was, and when it was asked and answered. */
  datatype Source = Source(id: nat, askedAt: int, answeredAt: int)

  /** A finished turn: what the user said and what was answered. */
  datatype Turn = Turn(run: Source, message: Text, answer: Text)

  /** One turn as it appears in the window. */
  datatype Pair = Pair(run: Source, message: Text, content: Text)

  /** How a turn is put into what is left of the budget. */
  type Fitter = (Turn, int) -> Pair

  function Size(turn: Turn): nat {
    |turn.message| + |turn.answer|
  }

  function PairSize(pair: Pair): nat {
    |pair.message| + |pair.content|
  }

  function WholePair(turn: Turn): Pair {
    Pair(turn.run, turn.message, turn.answer)
  }

  function Reverse<T>(s: seq<T>): (r: seq<T>)
    ensures |r| == |s| && forall i :: 0 <= i < |s| ==> r[i] == s[|s| - 1 - i]
  {
    if s == [] then [] else Reverse(s[1..]) + [s[0]]
  }

  /** The pairs taken from the front of a newest-first list, when `taken` newer ones are already in. */
  function Take(fit: Fitter, turns: seq<Turn>, remaining: int, taken: nat): seq<Pair> {
    if turns == [] || (Size(turns[0]) > remaining && taken > 0) then []
    else
      var pair := fit(turns[0], remaining);
      [pair] + if remaining - PairSize(pair) <= 0 then [] else Take(fit, turns[1..], remaining - PairSize(pair), taken + 1)
  }

  function Total(pairs: seq<Pair>): nat {
    if pairs == [] then 0 else PairSize(pairs[0]) + Total(pairs[1..])
  }

  /** A turn that fits is taken whole; one that does not is cut to a budget that is not too small. */
  ghost predicate Fits(fit: Fitter, smallest: nat) {
    && (forall turn, remaining :: fit(turn, remaining).run == turn.run)
    && (forall turn, remaining :: Size(turn) <= remaining ==> fit(turn, remaining) == WholePair(turn))
    && (forall turn, remaining :: smallest <= remaining ==> PairSize(fit(turn, remaining)) <= remaining)
  }

  predicate FitsAlone(turns: seq<Turn>, budget: int) {
    turns != [] && Size(turns[0]) <= budget
  }

  /** The pairs are those of the first turns, in order; all but the newest are whole. */
  ghost predicate AreNewest(pairs: seq<Pair>, turns: seq<Turn>, newestWhole: bool) {
    && |pairs| <= |turns|
    && (forall i :: 0 <= i < |pairs| ==> pairs[i].run == turns[i].run)
    && (forall i :: 0 <= i < |pairs| && (newestWhole || i > 0) ==> pairs[i] == WholePair(turns[i]))
  }

  lemma ConsNewest(pair: Pair, rest: seq<Pair>, turns: seq<Turn>, whole: bool)
    requires turns != [] && AreNewest(rest, turns[1..], true)
    requires pair.run == turns[0].run && (whole ==> pair == WholePair(turns[0]))
    ensures AreNewest([pair] + rest, turns, whole)
  {
    assert forall i :: 0 <= i < |rest| ==> turns[i + 1] == turns[1..][i];
  }

  /** Nothing is left out without need: the next older turn would not fit, or the budget is spent. */
  ghost predicate NoRoomFor(turns: seq<Turn>, count: nat, remaining: int) {
    count >= |turns| || remaining <= 0 || Size(turns[count]) > remaining
  }

  /** The rest of what `Take` takes. */
  function Rest(fit: Fitter, turns: seq<Turn>, remaining: int, taken: nat): seq<Pair>
    requires turns != []
  {
    var left := remaining - PairSize(fit(turns[0], remaining));
    if left <= 0 then [] else Take(fit, turns[1..], left, taken + 1)
  }

  lemma {:induction false} TakeUnfolds(fit: Fitter, turns: seq<Turn>, remaining: int, taken: nat)
    requires turns != [] && (Size(turns[0]) <= remaining || taken == 0)
    ensures Take(fit, turns, remaining, taken) == [fit(turns[0], remaining)] + Rest(fit, turns, remaining, taken)
  {
  }

  lemma TotalCons(pair: Pair, rest: seq<Pair>)
    ensures Total([pair] + rest) == PairSize(pair) + Total(rest)
  {
    assert ([pair] + rest)[1..] == rest;
  }

  lemma {:induction false} TakeIsNewest(fit: Fitter, turns: seq<Turn>, remaining: int, taken: nat, smallest: nat)
    requires Fits(fit, smallest)
    ensures AreNewest(Take(fit, turns, remaining, taken), turns, taken > 0 || FitsAlone(turns, remaining))
  {
    if turns != [] && (Size(turns[0]) <= remaining || taken == 0) {
      var pair := fit(turns[0], remaining);
      TakeIsNewest(fit, turns[1..], remaining - PairSize(pair), taken + 1, smallest);
      TakeUnfolds(fit, turns, remaining, taken);
      ConsNewest(pair, Rest(fit, turns, remaining, taken), turns, Size(turns[0]) <= remaining);
    }
  }

  lemma {:induction false} TakeTotal(fit: Fitter, turns: seq<Turn>, remaining: int, taken: nat, smallest: nat)
    requires Fits(fit, smallest) && 0 <= remaining && (taken > 0 || smallest <= remaining)
    ensures Total(Take(fit, turns, remaining, taken)) <= remaining
  {
    if turns != [] && (Size(turns[0]) <= remaining || taken == 0) {
      var pair := fit(turns[0], remaining);
      assert PairSize(pair) <= remaining;
      TakeTotal(fit, turns[1..], remaining - PairSize(pair), taken + 1, smallest);
      TakeUnfolds(fit, turns, remaining, taken);
      TotalCons(pair, Rest(fit, turns, remaining, taken));
    }
  }

  lemma NoRoomCons(turns: seq<Turn>, count: nat, remaining: int)
    requires turns != [] && (remaining <= 0 || NoRoomFor(turns[1..], count, remaining))
    ensures NoRoomFor(turns, count + 1, remaining)
  {
  }

  lemma {:induction false} TakeIsMaximal(fit: Fitter, turns: seq<Turn>, remaining: int, taken: nat)
    ensures NoRoomFor(turns, |Take(fit, turns, remaining, taken)|, remaining - Total(Take(fit, turns, remaining, taken)))
  {
    if turns != [] && (Size(turns[0]) <= remaining || taken == 0) {
      var pair := fit(turns[0], remaining);
      var left := remaining - PairSize(pair);
      TakeIsMaximal(fit, turns[1..], left, taken + 1);
      TakeUnfolds(fit, turns, remaining, taken);
      var rest := Rest(fit, turns, remaining, taken);
      TotalCons(pair, rest);
      NoRoomCons(turns, |rest|, left - Total(rest));
    }
  }

  /** The newest turns, in order, with only the newest ever cut and that only when it does not fit by
      itself; as many older turns are in as fit. */
  ghost predicate IsBestWindow(pairs: seq<Pair>, turns: seq<Turn>, budget: int) {
    && AreNewest(pairs, turns, FitsAlone(turns, budget))
    && NoRoomFor(turns, |pairs|, budget - Total(pairs))
    && (turns != [] ==> pairs != [])
  }

  lemma {:induction false} TakeIsBest(fit: Fitter, turns: seq<Turn>, budget: int, smallest: nat)
    requires Fits(fit, smallest)
    ensures IsBestWindow(Take(fit, turns, budget, 0), turns, budget)
  {
    TakeIsNewest(fit, turns, budget, 0, smallest);
    TakeIsMaximal(fit, turns, budget, 0);
    if turns != [] {
      TakeUnfolds(fit, turns, budget, 0);
    }
  }
}
