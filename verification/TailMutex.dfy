/** The promise-chain mutex: each caller waits for the promise of the caller before it. A ticket
    stands for a caller's promise, `previous` for the promise it waits for. */
module TailMutex {
  import opened Options

  datatype Stage = Waiting | Holding | Released

  datatype Ticket = Ticket(key: string, previous: Option<nat>, stage: Stage)

  datatype Mutex = Mutex(
    tails: map<string, nat>,
    tickets: seq<Ticket>,
    // bookkeeping: tickets in the order they were granted
    granted: seq<nat>)

  const FRESH := Mutex(map[], [], [])

  /** The synchronous half of `acquire`: takes the place behind the current tail. */
  function Acquire(m: Mutex, key: string): Mutex {
    var previous := if key in m.tails then Some(m.tails[key]) else None;
    m.(tails := m.tails[key := |m.tickets|], tickets := m.tickets + [Ticket(key, previous, Waiting)])
  }

  /** The awaited promise has resolved. */
  predicate CanGrant(m: Mutex, i: nat) {
    && i < |m.tickets| && m.tickets[i].stage == Waiting
    && (m.tickets[i].previous.None?
        || (m.tickets[i].previous.value < |m.tickets| && m.tickets[m.tickets[i].previous.value].stage == Released))
  }

  function Grant(m: Mutex, i: nat): Mutex
    requires CanGrant(m, i)
  {
    m.(tickets := m.tickets[i := m.tickets[i].(stage := Holding)], granted := m.granted + [i])
  }

  /** `release`: a second call does nothing. */
  function Release(m: Mutex, i: nat): Mutex
    requires i < |m.tickets| && m.tickets[i].stage != Waiting
  {
    if m.tickets[i].stage == Released then m
    else
      var key := m.tickets[i].key;
      var tails := if key in m.tails && m.tails[key] == i then m.tails - {key} else m.tails;
      m.(tails := tails, tickets := m.tickets[i := m.tickets[i].(stage := Released)])
  }

  datatype Step = AcquireStep(key: string) | GrantStep(ticket: nat) | ReleaseStep(ticket: nat)

  predicate Enabled(m: Mutex, step: Step) {
    match step
    case AcquireStep(key) => true
    case GrantStep(i) => CanGrant(m, i)
    case ReleaseStep(i) => i < |m.tickets| && m.tickets[i].stage != Waiting
  }

  function Do(m: Mutex, step: Step): Mutex
    requires Enabled(m, step)
  {
    match step
    case AcquireStep(key) => Acquire(m, key)
    case GrantStep(i) => Grant(m, i)
    case ReleaseStep(i) => Release(m, i)
  }

  function Run(m: Mutex, steps: seq<Step>): Mutex
    decreases |steps|
  {
    if steps == [] then m
    else if Enabled(m, steps[0]) then Run(Do(m, steps[0]), steps[1..])
    else Run(m, steps[1..])
  }

  // ---- the invariant ----

  /** While a ticket is not released, every later ticket for the same key waits. */
  ghost predicate Exclusive(m: Mutex) {
    forall i, j :: 0 <= i < j < |m.tickets| && m.tickets[i].key == m.tickets[j].key && m.tickets[i].stage != Released ==>
      m.tickets[j].stage == Waiting
  }

  /** A ticket waits for the latest earlier ticket of its key, unless all of those are released. */
  ghost predicate Chained(m: Mutex) {
    && (forall j :: 0 <= j < |m.tickets| && m.tickets[j].previous.Some? ==>
          m.tickets[j].previous.value < j && m.tickets[m.tickets[j].previous.value].key == m.tickets[j].key)
    && (forall i, j :: 0 <= i < j < |m.tickets| && m.tickets[i].key == m.tickets[j].key && m.tickets[i].stage != Released ==>
          m.tickets[j].previous.Some? && i <= m.tickets[j].previous.value)
  }

  /** A key has an entry exactly while somebody holds or waits for it, and the entry is the last ticket. */
  ghost predicate TailsOk(m: Mutex) {
    && (forall key :: key in m.tails ==>
          m.tails[key] < |m.tickets| && m.tickets[m.tails[key]].key == key && m.tickets[m.tails[key]].stage != Released)
    && (forall i :: 0 <= i < |m.tickets| && m.tickets[i].stage != Released ==>
          m.tickets[i].key in m.tails)
    && (forall i :: 0 <= i < |m.tickets| && m.tickets[i].key in m.tails ==> i <= m.tails[m.tickets[i].key])
  }

  /** Grants are in ticket order, for each key. */
  ghost predicate GrantsOk(m: Mutex) {
    && (forall a :: 0 <= a < |m.granted| ==> m.granted[a] < |m.tickets| && m.tickets[m.granted[a]].stage != Waiting)
    && (forall i :: 0 <= i < |m.tickets| && m.tickets[i].stage != Waiting ==> i in m.granted)
    && (forall a, b :: 0 <= a < b < |m.granted| && m.tickets[m.granted[a]].key == m.tickets[m.granted[b]].key ==>
          m.granted[a] < m.granted[b])
  }

  ghost predicate Inv(m: Mutex) {
    Exclusive(m) && Chained(m) && TailsOk(m) && GrantsOk(m)
  }

  lemma AcquireKeeps(m: Mutex, key: string)
    requires Inv(m)
    ensures Inv(Acquire(m, key))
  {
    AcquireChains(m, key);
    AcquireTails(m, key);
    var r := Acquire(m, key);
    assert Exclusive(r);
    forall a, b | 0 <= a < b < |r.granted| && r.tickets[r.granted[a]].key == r.tickets[r.granted[b]].key
      ensures r.granted[a] < r.granted[b]
    {
      assert m.tickets[m.granted[a]] == r.tickets[r.granted[a]] && m.tickets[m.granted[b]] == r.tickets[r.granted[b]];
    }
  }

  lemma AcquireChains(m: Mutex, key: string)
    requires Chained(m) && TailsOk(m)
    ensures Chained(Acquire(m, key))
  {
    var r, n := Acquire(m, key), |m.tickets|;
    forall i, j | 0 <= i < j < |r.tickets| && r.tickets[i].key == r.tickets[j].key && r.tickets[i].stage != Released
      ensures r.tickets[j].previous.Some? && i <= r.tickets[j].previous.value
    {
      assert r.tickets[i] == m.tickets[i];
      if j < n {
        assert r.tickets[j] == m.tickets[j];
      }
    }
  }

  lemma AcquireTails(m: Mutex, key: string)
    requires TailsOk(m)
    ensures TailsOk(Acquire(m, key))
  {
    var r := Acquire(m, key);
    forall i | 0 <= i < |m.tickets| ensures r.tickets[i] == m.tickets[i] {}
  }

  /** A ticket that can be granted is the oldest of its key that is not released. */
  lemma GrantIsOldest(m: Mutex, j: nat)
    requires Exclusive(m) && Chained(m) && CanGrant(m, j)
    ensures forall i :: 0 <= i < j && m.tickets[i].key == m.tickets[j].key ==> m.tickets[i].stage == Released
  {
  }

  lemma GrantKeeps(m: Mutex, j: nat)
    requires Inv(m) && CanGrant(m, j)
    ensures Inv(Grant(m, j))
  {
    GrantIsOldest(m, j);
    GrantExcludes(m, j);
    GrantTails(m, j);
    GrantGrants(m, j);
  }

  lemma GrantExcludes(m: Mutex, j: nat)
    requires Exclusive(m) && Chained(m) && CanGrant(m, j)
    requires forall i :: 0 <= i < j && m.tickets[i].key == m.tickets[j].key ==> m.tickets[i].stage == Released
    ensures Exclusive(Grant(m, j)) && Chained(Grant(m, j))
  {
    var r := Grant(m, j);
    forall i | 0 <= i < |m.tickets|
      ensures r.tickets[i].key == m.tickets[i].key && r.tickets[i].previous == m.tickets[i].previous
      ensures i != j ==> r.tickets[i] == m.tickets[i]
    {}
  }

  lemma GrantTails(m: Mutex, j: nat)
    requires TailsOk(m) && CanGrant(m, j)
    ensures TailsOk(Grant(m, j))
  {
    var r := Grant(m, j);
    forall i | 0 <= i < |m.tickets| ensures r.tickets[i].key == m.tickets[i].key && (i != j ==> r.tickets[i] == m.tickets[i]) {}
  }

  lemma GrantGrants(m: Mutex, j: nat)
    requires GrantsOk(m) && CanGrant(m, j)
    requires forall i :: 0 <= i < |m.tickets| && m.tickets[i].key == m.tickets[j].key && m.tickets[i].stage != Waiting ==> i < j
    ensures GrantsOk(Grant(m, j))
  {
    var r := Grant(m, j);
    forall i | 0 <= i < |m.tickets| ensures r.tickets[i].key == m.tickets[i].key && (i != j ==> r.tickets[i] == m.tickets[i]) {}
    forall i | 0 <= i < |r.tickets| && r.tickets[i].stage != Waiting ensures i in r.granted {
      if i == j {
        assert r.granted[|m.granted|] == j;
      } else {
        assert i in m.granted;
      }
    }
  }

  lemma ReleaseKeeps(m: Mutex, i: nat)
    requires Inv(m) && i < |m.tickets| && m.tickets[i].stage != Waiting
    ensures Inv(Release(m, i))
  {
    if m.tickets[i].stage == Holding {
      ReleaseTails(m, i);
      ReleaseChains(m, i);
      ReleaseGrants(m, i);
    }
  }

  lemma ReleaseChains(m: Mutex, i: nat)
    requires Exclusive(m) && Chained(m) && i < |m.tickets| && m.tickets[i].stage == Holding
    ensures Exclusive(Release(m, i)) && Chained(Release(m, i))
  {
    var r := Release(m, i);
    forall k | 0 <= k < |m.tickets|
      ensures r.tickets[k].key == m.tickets[k].key && r.tickets[k].previous == m.tickets[k].previous
      ensures k != i ==> r.tickets[k] == m.tickets[k]
    {}
  }

  lemma ReleaseGrants(m: Mutex, i: nat)
    requires GrantsOk(m) && i < |m.tickets| && m.tickets[i].stage == Holding
    ensures GrantsOk(Release(m, i))
  {
    var r := Release(m, i);
    forall k | 0 <= k < |m.tickets|
      ensures r.tickets[k].key == m.tickets[k].key && (r.tickets[k].stage == Waiting <==> m.tickets[k].stage == Waiting)
    {}
  }

  lemma ReleaseTails(m: Mutex, i: nat)
    requires TailsOk(m) && i < |m.tickets| && m.tickets[i].stage == Holding
    requires forall h :: 0 <= h < i && m.tickets[h].key == m.tickets[i].key ==> m.tickets[h].stage == Released
    ensures TailsOk(Release(m, i))
  {
    var r := Release(m, i);
    forall k | 0 <= k < |m.tickets| ensures r.tickets[k].key == m.tickets[k].key && (k != i ==> r.tickets[k] == m.tickets[k]) {}
  }

  lemma StepKeeps(m: Mutex, step: Step)
    requires Inv(m) && Enabled(m, step)
    ensures Inv(Do(m, step))
  {
    match step
    case AcquireStep(key) => AcquireKeeps(m, key);
    case GrantStep(i) => GrantKeeps(m, i);
    case ReleaseStep(i) => ReleaseKeeps(m, i);
  }

  lemma {:induction false} RunKeeps(m: Mutex, steps: seq<Step>)
    requires Inv(m)
    ensures Inv(Run(m, steps))
    decreases |steps|
  {
    if steps != [] {
      if Enabled(m, steps[0]) {
        StepKeeps(m, steps[0]);
        RunKeeps(Do(m, steps[0]), steps[1..]);
      } else {
        RunKeeps(m, steps[1..]);
      }
    }
  }

  // ---- main results, over every run ----

  /** For each key at most one caller holds, callers are granted in the order they called, and nobody
      is granted before every earlier caller has released. */
  lemma ExclusiveAndFifo(steps: seq<Step>)
    ensures var m := Run(FRESH, steps);
            && (forall i, j :: 0 <= i < j < |m.tickets| && m.tickets[i].key == m.tickets[j].key ==>
                  m.tickets[i].stage == Released || m.tickets[j].stage == Waiting)
            && (forall a :: 0 <= a < |m.granted| ==> m.granted[a] < |m.tickets|)
            && (forall a, b :: 0 <= a < b < |m.granted| && m.tickets[m.granted[a]].key == m.tickets[m.granted[b]].key ==>
                  m.granted[a] < m.granted[b])
  {
    RunKeeps(FRESH, steps);
  }

  /** The map holds a key exactly while somebody holds it or waits for it: nothing leaks, and no entry
      that a waiter needs is dropped. */
  lemma EntryIffInUse(steps: seq<Step>, key: string)
    ensures var m := Run(FRESH, steps);
            key in m.tails <==> exists i :: 0 <= i < |m.tickets| && m.tickets[i].key == key && m.tickets[i].stage != Released
  {
    RunKeeps(FRESH, steps);
    var m := Run(FRESH, steps);
    if key in m.tails {
      assert m.tickets[m.tails[key]].key == key;
    }
  }

  lemma OldestWaiting(m: Mutex, key: string, j: nat) returns (i: nat)
    requires Inv(m) && j < |m.tickets| && m.tickets[j].key == key && m.tickets[j].stage != Released
    ensures i <= j && m.tickets[i].key == key && m.tickets[i].stage != Released
    ensures forall h :: 0 <= h < i && m.tickets[h].key == key ==> m.tickets[h].stage == Released
  {
    i := j;
    while exists h :: 0 <= h < i && m.tickets[h].key == key && m.tickets[h].stage != Released
      invariant i <= j && m.tickets[i].key == key && m.tickets[i].stage != Released
      decreases i
    {
      var h :| 0 <= h < i && m.tickets[h].key == key && m.tickets[h].stage != Released;
      i := h;
    }
  }

  /** Nobody is stranded: while somebody waits for a key, either it is held, or the oldest waiter can
      be granted now. */
  lemma {:induction false} NoStrandedWaiter(steps: seq<Step>, j: nat)
    requires j < |Run(FRESH, steps).tickets| && Run(FRESH, steps).tickets[j].stage == Waiting
    ensures var m := Run(FRESH, steps);
            exists i :: 0 <= i <= j && m.tickets[i].key == m.tickets[j].key && (m.tickets[i].stage == Holding || CanGrant(m, i))
  {
    RunKeeps(FRESH, steps);
    var m := Run(FRESH, steps);
    var i := OldestWaiting(m, m.tickets[j].key, j);
    assert m.tickets[i].stage == Holding || CanGrant(m, i);
  }

  /** The head of the line: a caller may go on exactly if it waits and every earlier caller of its key
      has released. */
  lemma {:induction false} GrantableExactly(steps: seq<Step>, j: nat)
    requires j < |Run(FRESH, steps).tickets|
    ensures var m := Run(FRESH, steps);
            CanGrant(m, j) <==> m.tickets[j].stage == Waiting
                                && forall i :: 0 <= i < j && m.tickets[i].key == m.tickets[j].key ==> m.tickets[i].stage == Released
  {
    RunKeeps(FRESH, steps);
    if CanGrant(Run(FRESH, steps), j) {
      GrantIsOldest(Run(FRESH, steps), j);
    }
  }

  ghost predicate Elsewhere(m: Mutex, d: Mutex, i: nat) {
    |d.tickets| == |m.tickets| && forall k :: 0 <= k < |m.tickets| && k != i ==> d.tickets[k] == m.tickets[k]
  }

  /** Each call moves its own ticket one stage on and touches no other: it is handed out waiting, then
      held, then released, whatever was released before. */
  lemma OneStageOn(m: Mutex, step: Step)
    requires Enabled(m, step)
    ensures var d := Do(m, step);
            match step
            case AcquireStep(key) =>
              |d.tickets| == |m.tickets| + 1 && m.tickets <= d.tickets
              && d.tickets[|m.tickets|].key == key && d.tickets[|m.tickets|].stage == Waiting
            case GrantStep(i) => Elsewhere(m, d, i) && m.tickets[i].stage == Waiting && d.tickets[i] == m.tickets[i].(stage := Holding)
            case ReleaseStep(i) => Elsewhere(m, d, i) && d.tickets[i] == m.tickets[i].(stage := Released)
  {
  }

  // ---- the object ----

  class SessionMutex {
    var tails: map<string, nat>
    // the promises handed out so far
    var tickets: seq<Ticket>
    ghost var granted: seq<nat>

    ghost function View(): Mutex
      reads this
    {
      Mutex(tails, tickets, granted)
    }

    constructor ()
      ensures View() == FRESH
    {
      tails, tickets, granted := map[], [], [];
    }

    /** `acquire` up to its await. */
    method Register(key: string) returns (ticket: nat)
      modifies this
      ensures View() == Acquire(old(View()), key) && ticket == old(|tickets|)
    {
      var previous := None;
      if key in tails {
        previous := Some(tails[key]);
      }
      ticket := |tickets|;
      tickets := tickets + [Ticket(key, previous, Waiting)];
      tails := tails[key := ticket];
    }

    /** The await returns: the caller holds the key. */
    method Resume(ticket: nat)
      requires CanGrant(View(), ticket)
      modifies this
      ensures View() == Grant(old(View()), ticket)
    {
      tickets := tickets[ticket := tickets[ticket].(stage := Holding)];
      granted := granted + [ticket];
    }

    /** The function that `acquire` returned. */
    method ReleaseTicket(ticket: nat)
      requires ticket < |tickets| && tickets[ticket].stage != Waiting
      modifies this
      ensures View() == Release(old(View()), ticket)
    {
      if tickets[ticket].stage == Released {
        return;
      }
      tickets := tickets[ticket := tickets[ticket].(stage := Released)];
      var key := tickets[ticket].key;
      if key in tails && tails[key] == ticket {
        tails := tails - {key};
      }
    }
  }
}
