/** Telegram's outbound order: a reply's place is reserved when its message arrives and used once, when
    the reply is ready; the places of a chat form the same promise chain as the session mutex. */
module OutboundReservations {
  import opened TailMutex

  datatype Outbox = Outbox(chain: Mutex, used: set<nat>)

  const EMPTY := Outbox(TailMutex.FRESH, {})

  datatype Move = Reserve(chat: string) | Claim(place: nat) | Begin(place: nat) | End(place: nat)

  /** A place is waited for once it is claimed, and is delivered to while it is held. */
  predicate CanMove(o: Outbox, move: Move) {
    match move
    case Reserve(chat) => true
    case Claim(i) => i < |o.chain.tickets|
    case Begin(i) => i in o.used && CanGrant(o.chain, i)
    case End(i) => i < |o.chain.tickets| && o.chain.tickets[i].stage == Holding
  }

  /** Claiming a used place is refused; a delivery that fails ends like any other. */
  function Apply(o: Outbox, move: Move): Outbox
    requires CanMove(o, move)
  {
    match move
    case Reserve(chat) => o.(chain := Acquire(o.chain, chat))
    case Claim(i) => o.(used := o.used + {i})
    case Begin(i) => o.(chain := Grant(o.chain, i))
    case End(i) => o.(chain := Release(o.chain, i))
  }

  function Play(o: Outbox, moves: seq<Move>): Outbox
    decreases |moves|
  {
    if moves == [] then o
    else if CanMove(o, moves[0]) then Play(Apply(o, moves[0]), moves[1..])
    else Play(o, moves[1..])
  }

  ghost predicate OutboxOk(o: Outbox) {
    Inv(o.chain) && forall i :: 0 <= i < |o.chain.tickets| && o.chain.tickets[i].stage != Waiting ==> i in o.used
  }

  lemma ApplyKeeps(o: Outbox, move: Move)
    requires OutboxOk(o) && CanMove(o, move)
    ensures OutboxOk(Apply(o, move))
  {
    match move
    case Reserve(chat) => AcquireKeeps(o.chain, chat);
    case Claim(i) =>
    case Begin(i) => GrantKeeps(o.chain, i);
    case End(i) => ReleaseKeeps(o.chain, i);
  }

  lemma {:induction false} PlayKeeps(o: Outbox, moves: seq<Move>)
    requires OutboxOk(o)
    ensures OutboxOk(Play(o, moves))
    decreases |moves|
  {
    if moves != [] {
      if CanMove(o, moves[0]) {
        ApplyKeeps(o, moves[0]);
        PlayKeeps(Apply(o, moves[0]), moves[1..]);
      } else {
        PlayKeeps(o, moves[1..]);
      }
    }
  }

  /** Replies of a chat go out one at a time in the order their messages arrived: a place is delivered to
      only after it was claimed and every earlier place of the chat was delivered to and ended. One
      reservation that is never claimed therefore holds back every later reply of its chat. */
  lemma {:induction false} RepliesInArrivalOrder(moves: seq<Move>, i: nat, j: nat)
    requires i < j < |Play(EMPTY, moves).chain.tickets|
    requires Play(EMPTY, moves).chain.tickets[i].key == Play(EMPTY, moves).chain.tickets[j].key
    ensures var o := Play(EMPTY, moves);
            && (o.chain.tickets[j].stage != Waiting ==> o.chain.tickets[i].stage == Released && i in o.used && j in o.used)
            && (i !in o.used ==> o.chain.tickets[j].stage == Waiting)
  {
    PlayKeeps(EMPTY, moves);
  }

  /** The head of a chat's line: a place can be delivered to exactly if it was claimed, waits, and every
      earlier place of the chat has ended. */
  lemma BeginsExactly(moves: seq<Move>, j: nat)
    ensures var o := Play(EMPTY, moves);
            CanMove(o, Begin(j)) <==>
              && j < |o.chain.tickets| && j in o.used && o.chain.tickets[j].stage == Waiting
              && forall i :: 0 <= i < j && o.chain.tickets[i].key == o.chain.tickets[j].key ==> o.chain.tickets[i].stage == Released
  {
    PlayKeeps(EMPTY, moves);
    var o := Play(EMPTY, moves);
    if CanMove(o, Begin(j)) {
      GrantIsOldest(o.chain, j);
    }
  }

  /** A place can always be reserved, used from then on, and ended while it is delivered to. */
  lemma MayMove(o: Outbox, chat: string, j: nat)
    ensures CanMove(o, Reserve(chat))
    ensures CanMove(o, Claim(j)) <==> j < |o.chain.tickets|
    ensures CanMove(o, End(j)) <==> j < |o.chain.tickets| && o.chain.tickets[j].stage == Holding
  {
  }

  /** Each move takes its own place one stage on: reserved for the chat, claimed, delivered to, ended. */
  lemma MovesOn(o: Outbox, move: Move)
    requires CanMove(o, move)
    ensures var p := Apply(o, move);
            match move
            case Reserve(chat) =>
              p.used == o.used && |p.chain.tickets| == |o.chain.tickets| + 1 && o.chain.tickets <= p.chain.tickets
              && p.chain.tickets[|o.chain.tickets|].key == chat && p.chain.tickets[|o.chain.tickets|].stage == Waiting
            case Claim(i) => i < |o.chain.tickets| && p.chain == o.chain && forall k :: k in p.used <==> k in o.used || k == i
            case Begin(i) => p.used == o.used && Elsewhere(o.chain, p.chain, i) && p.chain.tickets[i] == o.chain.tickets[i].(stage := Holding)
            case End(i) => p.used == o.used && Elsewhere(o.chain, p.chain, i) && p.chain.tickets[i] == o.chain.tickets[i].(stage := Released)
  {
  }

  class TelegramOutbox {
    const chain: SessionMutex
    var used: set<nat>

    ghost function View(): Outbox
      reads this, chain
    {
      Outbox(chain.View(), used)
    }

    constructor ()
      ensures View() == EMPTY && fresh(chain)
    {
      chain := new SessionMutex();
      used := {};
    }

    method ReserveOutboundDelivery(chat: string) returns (place: nat)
      modifies this, chain
      ensures View() == Apply(old(View()), Reserve(chat)) && place == old(|chain.tickets|)
    {
      place := chain.Register(chat);
    }

    /** The start of the returned function; not accepted stands for its exception. */
    method Use(place: nat) returns (accepted: bool)
      requires CanMove(View(), Claim(place))
      modifies this
      ensures accepted == (place !in old(used)) && View() == Apply(old(View()), Claim(place))
    {
      if place in used {
        assert used + {place} == used;
        return false;
      }
      used := used + {place};
      return true;
    }

    method StartDelivery(place: nat)
      requires CanMove(View(), Begin(place))
      modifies this, chain
      ensures View() == Apply(old(View()), Begin(place))
    {
      chain.Resume(place);
    }

    /** The `finally` after the delivery. */
    method FinishDelivery(place: nat)
      requires CanMove(View(), End(place))
      modifies this, chain
      ensures View() == Apply(old(View()), End(place))
    {
      chain.ReleaseTicket(place);
    }
  }
}
