/** When a call on the approval store succeeds, read off the calls made before it. */
module ApprovalOutcomes {
  import opened ToolApproval

  type Calls = seq<(Call, Time)>

  // ---- which requests are waiting ----

  /** When a request made by call `r` expires. */
  function Expiry(calls: Calls, r: nat, ttl: int): Time
    requires r < |calls|
  {
    calls[r].1 + ttl
  }

  ghost predicate ActionOf(calls: Calls, r: nat, session: string, key: string)
    requires r < |calls|
  {
    calls[r].0.Request? && calls[r].0.sessionId == session && calls[r].0.actionKey == key
  }

  /** Call `j` asks for an action of which no unexpired request is waiting: it opens one. */
  ghost predicate Opens(calls: Calls, j: nat, ttl: int)
    requires j < |calls|
    decreases j, 2
  {
    && calls[j].0.Request?
    && !exists r: nat :: r < j && Waiting(calls, j, r, calls[j].1, ttl)
                         && ActionOf(calls, r, calls[j].0.sessionId, calls[j].0.actionKey)
  }

  /** Call `j` ends a request opened by call `r`: its session decides on it, everything is cleared, or
      its token is given away again. */
  ghost predicate Closes(calls: Calls, j: nat, r: nat, ttl: int)
    requires r < j < |calls| && calls[r].0.Request?
    decreases j, 3
  {
    match calls[j].0
    case Approve(session, token) => session == calls[r].0.sessionId && token == calls[r].0.token
    case Reject(session, token) => session == calls[r].0.sessionId && token == calls[r].0.token
    case Request(_, _, _, token) => token == calls[r].0.token && Opens(calls, j, ttl)
    case Consume(_, _) => false
    case Clear => true
  }

  /** After `n` calls, the request opened by call `r` is not closed, and no call came at or after its expiry. */
  ghost predicate Kept(calls: Calls, n: nat, r: nat, ttl: int)
    requires r < n <= |calls|
    decreases n, 0
  {
    && calls[r].0.Request? && Opens(calls, r, ttl)
    && forall j: nat :: r < j < n ==> calls[j].1 < Expiry(calls, r, ttl) && !Closes(calls, j, r, ttl)
  }

  /** It is also unexpired at `now`, the time of the next call. */
  ghost predicate Waiting(calls: Calls, n: nat, r: nat, now: Time, ttl: int)
    requires r < n <= |calls|
    ensures Waiting(calls, n, r, now, ttl) ==> calls[r].0.Request?
    decreases n, 1
  {
    Kept(calls, n, r, ttl) && now < Expiry(calls, r, ttl)
  }

  // ---- which approvals are good ----

  /** Call `i` approves the request opened by call `r`: its session names its token while it waits. */
  ghost predicate Grants(calls: Calls, i: nat, r: nat, ttl: int)
    requires r < i < |calls|
  {
    && calls[i].0.Approve? && Waiting(calls, i, r, calls[i].1, ttl)
    && calls[i].0.sessionId == calls[r].0.sessionId && calls[i].0.token == calls[r].0.token
  }

  /** Call `j` uses up or replaces an approval of this action, or clears everything. */
  ghost predicate Spends(calls: Calls, j: nat, session: string, key: string, ttl: int)
    requires j < |calls|
  {
    calls[j].0 == Consume(session, key) || calls[j].0.Clear?
    || exists r: nat :: r < j && Grants(calls, j, r, ttl) && ActionOf(calls, r, session, key)
  }

  /** After `n` calls, the approval given by call `i` to the request of call `r` has not been used, and
      no call came at or after its expiry. */
  ghost predicate Good(calls: Calls, n: nat, i: nat, r: nat, session: string, key: string, ttl: int)
    requires r < i < n <= |calls|
  {
    && Grants(calls, i, r, ttl) && ActionOf(calls, r, session, key)
    && forall j: nat :: i < j < n ==> calls[j].1 < Expiry(calls, r, ttl) && !Spends(calls, j, session, key, ttl)
  }

  // ---- the store agrees ----

  function PendingOf(calls: Calls, r: nat, ttl: int): Pending
    requires r < |calls| && calls[r].0.Request?
  {
    Pending(calls[r].0.sessionId, calls[r].0.actionKey, calls[r].0.description, Expiry(calls, r, ttl))
  }

  ghost predicate Opened(calls: Calls, n: nat, t: string, ttl: int)
    requires n <= |calls|
  {
    exists r: nat :: r < n && Kept(calls, n, r, ttl) && calls[r].0.token == t
  }

  ghost predicate PendingAgrees(calls: Calls, n: nat, s: Approvals, ttl: int)
    requires n <= |calls|
  {
    && (forall r: nat :: r < n && Kept(calls, n, r, ttl) ==> calls[r].0.token in s.pending && s.pending[calls[r].0.token] == PendingOf(calls, r, ttl))
    && (forall t :: t in s.pending ==> Opened(calls, n, t, ttl))
  }

  ghost predicate Granted(calls: Calls, n: nat, session: string, key: string, ttl: int)
    requires n <= |calls|
  {
    exists i: nat, r: nat :: r < i < n && Good(calls, n, i, r, session, key, ttl)
  }

  ghost predicate ApprovedAgrees(calls: Calls, n: nat, s: Approvals, ttl: int)
    requires n <= |calls|
  {
    && (forall i: nat, r: nat, session, key :: r < i < n && Good(calls, n, i, r, session, key, ttl)
          ==> (session, key) in s.approved && s.approved[(session, key)] == Expiry(calls, r, ttl))
    && (forall k :: k in s.approved ==> Granted(calls, n, k.0, k.1, ttl))
  }

  /** At the time of the next call, the unexpired pending requests are the waiting ones. */
  lemma {:induction false} PrunedPending(calls: Calls, n: nat, s: Approvals, now: Time, ttl: int)
    requires n <= |calls| && PendingAgrees(calls, n, s, ttl)
    ensures var p := Prune(s, now);
            && (forall r: nat :: r < n && Waiting(calls, n, r, now, ttl) ==> calls[r].0.token in p.pending && p.pending[calls[r].0.token] == PendingOf(calls, r, ttl))
            && (forall t :: t in p.pending ==> exists r: nat :: r < n && Waiting(calls, n, r, now, ttl) && calls[r].0.token == t)
  {
    var p := Prune(s, now);
    forall r: nat | r < n && Waiting(calls, n, r, now, ttl)
      ensures calls[r].0.token in p.pending && p.pending[calls[r].0.token] == PendingOf(calls, r, ttl)
    {
      assert Kept(calls, n, r, ttl);
    }
    forall t | t in p.pending ensures exists r: nat :: r < n && Waiting(calls, n, r, now, ttl) && calls[r].0.token == t {
      assert Opened(calls, n, t, ttl);
      var r: nat :| r < n && Kept(calls, n, r, ttl) && calls[r].0.token == t;
      assert Waiting(calls, n, r, now, ttl);
    }
  }

  /** A request that stays open through call `n` was waiting then; call `n` may open one. */
  lemma {:induction false} KeptStep(calls: Calls, n: nat, r: nat, ttl: int)
    requires r <= n < |calls| && calls[r].0.Request?
    ensures r < n ==> (Kept(calls, n + 1, r, ttl) <==> Waiting(calls, n, r, calls[n].1, ttl) && !Closes(calls, n, r, ttl))
    ensures r == n ==> (Kept(calls, n + 1, r, ttl) <==> Opens(calls, n, ttl))
  {
  }

  /** A pending request stays through a call that does not decide on it, clear it or reuse its token. */
  lemma PendingStays(s: Approvals, c: Call, now: Time, ttl: int, t: string)
    requires t in s.pending && now < s.pending[t].expiresAt && !c.Clear?
    requires (c.Approve? || c.Reject?) && c.token == t ==> c.sessionId != s.pending[t].sessionId
    requires c.Request? && c.token == t ==> Asked(Prune(s, now), c.sessionId, c.actionKey)
    ensures var next := Act(s, c, now, ttl).0; t in next.pending && next.pending[t] == s.pending[t]
  {
  }

  /** A pending request was there before, untouched by the call, or the call has just made it. */
  lemma PendingCameFrom(s: Approvals, c: Call, now: Time, ttl: int, t: string)
    requires t in Act(s, c, now, ttl).0.pending
    ensures if c.Request? && c.token == t && !Asked(Prune(s, now), c.sessionId, c.actionKey) then true
            else t in Prune(s, now).pending && !c.Clear?
                 && ((c.Approve? || c.Reject?) && c.token == t ==> c.sessionId != s.pending[t].sessionId)
  {
  }

  lemma {:induction false} KeptIsPending(calls: Calls, n: nat, s: Approvals, ttl: int, r: nat)
    requires n < |calls| && PendingAgrees(calls, n, s, ttl)
    requires r < n + 1 && Kept(calls, n + 1, r, ttl)
    ensures var next := Act(s, calls[n].0, calls[n].1, ttl).0;
            calls[r].0.token in next.pending && next.pending[calls[r].0.token] == PendingOf(calls, r, ttl)
  {
    KeptStep(calls, n, r, ttl);
    OpensIs(calls, n, s, ttl);
    if r < n {
      assert Kept(calls, n, r, ttl);
      PendingStays(s, calls[n].0, calls[n].1, ttl, calls[r].0.token);
    }
  }

  lemma PendingIsKept(calls: Calls, n: nat, s: Approvals, ttl: int, t: string)
    requires n < |calls| && PendingAgrees(calls, n, s, ttl)
    requires t in Act(s, calls[n].0, calls[n].1, ttl).0.pending
    ensures Opened(calls, n + 1, t, ttl)
  {
    var (c, now) := calls[n];
    OpensIs(calls, n, s, ttl);
    PendingCameFrom(s, c, now, ttl, t);
    if c.Request? && c.token == t && Opens(calls, n, ttl) {
      assert Kept(calls, n + 1, n, ttl);
    } else {
      PrunedPending(calls, n, s, now, ttl);
      var r: nat :| r < n && Waiting(calls, n, r, now, ttl) && calls[r].0.token == t;
      KeptStep(calls, n, r, ttl);
      assert Kept(calls, n + 1, r, ttl);
    }
  }

  lemma PendingStep(calls: Calls, n: nat, s: Approvals, ttl: int)
    requires n < |calls| && PendingAgrees(calls, n, s, ttl)
    ensures PendingAgrees(calls, n + 1, Act(s, calls[n].0, calls[n].1, ttl).0, ttl)
  {
    var next := Act(s, calls[n].0, calls[n].1, ttl).0;
    forall r: nat | r < n + 1 && Kept(calls, n + 1, r, ttl)
      ensures calls[r].0.token in next.pending && next.pending[calls[r].0.token] == PendingOf(calls, r, ttl)
    {
      KeptIsPending(calls, n, s, ttl, r);
    }
    forall t | t in next.pending ensures Opened(calls, n + 1, t, ttl) {
      PendingIsKept(calls, n, s, ttl, t);
    }
  }

  /** A request opens one exactly if the store has none pending of its action. */
  lemma {:induction false} OpensIs(calls: Calls, n: nat, s: Approvals, ttl: int)
    requires n < |calls| && PendingAgrees(calls, n, s, ttl)
    ensures calls[n].0.Request? ==>
              (Opens(calls, n, ttl) <==> !Asked(Prune(s, calls[n].1), calls[n].0.sessionId, calls[n].0.actionKey))
  {
    var (c, now) := calls[n];
    var p := Prune(s, now);
    PrunedPending(calls, n, s, now, ttl);
    if c.Request? {
      if Asked(p, c.sessionId, c.actionKey) {
        var t :| t in p.pending && p.pending[t].sessionId == c.sessionId && p.pending[t].actionKey == c.actionKey;
        var r: nat :| r < n && Waiting(calls, n, r, now, ttl) && calls[r].0.token == t;
        assert ActionOf(calls, r, c.sessionId, c.actionKey);
      }
    }
  }

  /** An approval succeeds exactly if it names a waiting request of its own session. */
  lemma GrantsIs(calls: Calls, n: nat, s: Approvals, ttl: int)
    requires n < |calls| && PendingAgrees(calls, n, s, ttl) && calls[n].0.Approve?
    ensures var p := Prune(s, calls[n].1);
            && (TokenIsOf(p, calls[n].0.sessionId, calls[n].0.token) <==> exists r: nat :: r < n && Grants(calls, n, r, ttl))
            && (forall r: nat :: r < n && Grants(calls, n, r, ttl) ==> p.pending[calls[n].0.token] == PendingOf(calls, r, ttl))
  {
    PrunedPending(calls, n, s, calls[n].1, ttl);
    var p := Prune(s, calls[n].1);
    if TokenIsOf(p, calls[n].0.sessionId, calls[n].0.token) {
      var r: nat :| r < n && Waiting(calls, n, r, calls[n].1, ttl) && calls[r].0.token == calls[n].0.token;
      assert Grants(calls, n, r, ttl);
    }
  }

  lemma GoodStep(calls: Calls, n: nat, i: nat, r: nat, session: string, key: string, ttl: int)
    requires r < i <= n < |calls|
    ensures i < n ==> (Good(calls, n + 1, i, r, session, key, ttl)
                       <==> Good(calls, n, i, r, session, key, ttl) && calls[n].1 < Expiry(calls, r, ttl) && !Spends(calls, n, session, key, ttl))
    ensures i == n ==> (Good(calls, n + 1, i, r, session, key, ttl) <==> Grants(calls, n, r, ttl) && ActionOf(calls, r, session, key))
  {
  }

  /** A call that does not touch an approval leaves it as it is. */
  lemma ApprovedStays(s: Approvals, c: Call, now: Time, ttl: int, session: string, key: string)
    requires (session, key) in s.approved && now < s.approved[(session, key)] && !c.Clear? && c != Consume(session, key)
    requires var p := Prune(s, now);
             c.Approve? && TokenIsOf(p, c.sessionId, c.token) ==> (c.sessionId, p.pending[c.token].actionKey) != (session, key)
    ensures var next := Act(s, c, now, ttl).0;
            (session, key) in next.approved && next.approved[(session, key)] == s.approved[(session, key)]
  {
  }

  lemma NotSpent(calls: Calls, n: nat, s: Approvals, ttl: int, session: string, key: string)
    requires n < |calls| && PendingAgrees(calls, n, s, ttl) && !Spends(calls, n, session, key, ttl)
    ensures var (p, c) := (Prune(s, calls[n].1), calls[n].0);
            c.Approve? && TokenIsOf(p, c.sessionId, c.token) ==> (c.sessionId, p.pending[c.token].actionKey) != (session, key)
  {
    if calls[n].0.Approve? {
      GrantsIs(calls, n, s, ttl);
      if q: nat :| q < n && Grants(calls, n, q, ttl) {
        assert !ActionOf(calls, q, session, key);
      }
    }
  }

  lemma GoodIsApproved(calls: Calls, n: nat, s: Approvals, ttl: int, i: nat, r: nat, session: string, key: string)
    requires n < |calls| && PendingAgrees(calls, n, s, ttl) && ApprovedAgrees(calls, n, s, ttl)
    requires r < i < n + 1 && Good(calls, n + 1, i, r, session, key, ttl)
    ensures var next := Act(s, calls[n].0, calls[n].1, ttl).0;
            (session, key) in next.approved && next.approved[(session, key)] == Expiry(calls, r, ttl)
  {
    GoodStep(calls, n, i, r, session, key, ttl);
    if i == n {
      GrantsIs(calls, n, s, ttl);
    } else {
      NotSpent(calls, n, s, ttl, session, key);
      ApprovedStays(s, calls[n].0, calls[n].1, ttl, session, key);
    }
  }

  /** An approval was there before, untouched by the call, or the call has just given it. */
  lemma ApprovedCameFrom(s: Approvals, c: Call, now: Time, ttl: int, k: (string, string))
    requires k in Act(s, c, now, ttl).0.approved
    ensures var p := Prune(s, now);
            if c.Approve? && TokenIsOf(p, c.sessionId, c.token) && (c.sessionId, p.pending[c.token].actionKey) == k then true
            else k in p.approved && !c.Clear? && c != Consume(k.0, k.1)
  {
  }

  lemma ApprovedIsGood(calls: Calls, n: nat, s: Approvals, ttl: int, k: (string, string))
    requires n < |calls| && PendingAgrees(calls, n, s, ttl) && ApprovedAgrees(calls, n, s, ttl)
    requires k in Act(s, calls[n].0, calls[n].1, ttl).0.approved
    ensures Granted(calls, n + 1, k.0, k.1, ttl)
  {
    var (c, now) := calls[n];
    ApprovedCameFrom(s, c, now, ttl, k);
    if r: nat :| r < n && Grants(calls, n, r, ttl) && ActionOf(calls, r, k.0, k.1) {
      GoodStep(calls, n, n, r, k.0, k.1, ttl);
      assert Good(calls, n + 1, n, r, k.0, k.1, ttl);
    } else {
      if c.Approve? && TokenIsOf(Prune(s, now), c.sessionId, c.token) {
        GrantsIs(calls, n, s, ttl);
        var r: nat :| r < n && Grants(calls, n, r, ttl);
        assert !ActionOf(calls, r, k.0, k.1);
      }
      StillGood(calls, n, s, ttl, k);
    }
  }

  lemma StillGood(calls: Calls, n: nat, s: Approvals, ttl: int, k: (string, string))
    requires n < |calls| && ApprovedAgrees(calls, n, s, ttl)
    requires k in Prune(s, calls[n].1).approved && !Spends(calls, n, k.0, k.1, ttl)
    ensures Granted(calls, n + 1, k.0, k.1, ttl)
  {
    assert Granted(calls, n, k.0, k.1, ttl);
    var i: nat, r: nat :| r < i < n && Good(calls, n, i, r, k.0, k.1, ttl);
    GoodStep(calls, n, i, r, k.0, k.1, ttl);
    assert Good(calls, n + 1, i, r, k.0, k.1, ttl);
  }

  lemma ApprovedStep(calls: Calls, n: nat, s: Approvals, ttl: int)
    requires n < |calls| && PendingAgrees(calls, n, s, ttl) && ApprovedAgrees(calls, n, s, ttl)
    ensures ApprovedAgrees(calls, n + 1, Act(s, calls[n].0, calls[n].1, ttl).0, ttl)
  {
    var next := Act(s, calls[n].0, calls[n].1, ttl).0;
    var m := n + 1;
    forall i: nat, r: nat, session, key | r < i < m && Good(calls, m, i, r, session, key, ttl)
      ensures (session, key) in next.approved && next.approved[(session, key)] == Expiry(calls, r, ttl)
    {
      GoodIsApproved(calls, n, s, ttl, i, r, session, key);
    }
    forall k | k in next.approved ensures Granted(calls, n + 1, k.0, k.1, ttl) {
      ApprovedIsGood(calls, n, s, ttl, k);
    }
  }

  lemma {:induction false} StoreAgrees(calls: Calls, n: nat, ttl: int)
    requires n <= |calls|
    ensures PendingAgrees(calls, n, AfterCalls(calls[..n], ttl), ttl) && ApprovedAgrees(calls, n, AfterCalls(calls[..n], ttl), ttl)
  {
    if n > 0 {
      var m := n - 1;
      StoreAgrees(calls, m, ttl);
      assert calls[..n][..m] == calls[..m] && calls[..n][m] == calls[m];
      PendingStep(calls, m, AfterCalls(calls[..m], ttl), ttl);
      ApprovedStep(calls, m, AfterCalls(calls[..m], ttl), ttl);
    }
  }

  // ---- main results ----

  /** After any history an approval of a token succeeds exactly if its session asked for an action under
      that token, no unexpired request of that action was waiting then, and nothing has closed the
      request or reached its expiry since. A rejection succeeds in the same cases. */
  lemma DecidedExactly(calls: Calls, ttl: int, session: string, token: string, now: Time)
    ensures var s := AfterCalls(calls, ttl);
            && Act(s, Approve(session, token), now, ttl).1 == Act(s, Reject(session, token), now, ttl).1
            && (Act(s, Approve(session, token), now, ttl).1
                <==> exists r: nat :: r < |calls| && Waiting(calls, |calls|, r, now, ttl)
                                      && calls[r].0.sessionId == session && calls[r].0.token == token)
  {
    StoreAgrees(calls, |calls|, ttl);
    assert calls[..|calls|] == calls;
    PrunedPending(calls, |calls|, AfterCalls(calls, ttl), now, ttl);
  }

  /** After any history an action is let through exactly if its session approved a waiting request of
      it, which has not expired by now nor by any call since, and that approval has been neither used
      nor replaced nor cleared. */
  lemma LetThroughExactly(calls: Calls, ttl: int, session: string, key: string, now: Time)
    ensures Act(AfterCalls(calls, ttl), Consume(session, key), now, ttl).1
            <==> exists i: nat, r: nat :: r < i < |calls| && Good(calls, |calls|, i, r, session, key, ttl) && now < Expiry(calls, r, ttl)
  {
    StoreAgrees(calls, |calls|, ttl);
    assert calls[..|calls|] == calls;
    var s := AfterCalls(calls, ttl);
    if Act(s, Consume(session, key), now, ttl).1 {
      var k := (session, key);
      assert Granted(calls, |calls|, k.0, k.1, ttl);
      var i: nat, r: nat :| r < i < |calls| && Good(calls, |calls|, i, r, session, key, ttl);
      assert s.approved[k] == Expiry(calls, r, ttl);
    }
  }

  /** Once its session has rejected a token, the token approves nothing any more, unless it is given
      away again. */
  lemma {:induction false} RejectedIsNever(calls: Calls, ttl: int, j: nat, session: string, token: string, now: Time)
    requires j < |calls| && calls[j].0 == Reject(session, token)
    requires forall n: nat :: j < n < |calls| && calls[n].0.Request? ==> calls[n].0.token != token
    ensures !Act(AfterCalls(calls, ttl), Approve(session, token), now, ttl).1
  {
    DecidedExactly(calls, ttl, session, token, now);
    forall r: nat | r < |calls| && calls[r].0.Request? && calls[r].0.sessionId == session && calls[r].0.token == token
      ensures !Waiting(calls, |calls|, r, now, ttl)
    {
      assert r < j;
      ClosedIsOver(calls, |calls|, j, r, now, ttl);
    }
  }

  lemma {:induction false} ClosedIsOver(calls: Calls, n: nat, j: nat, r: nat, now: Time, ttl: int)
    requires r < j < n <= |calls| && calls[r].0.Request?
    requires calls[j].0 == Reject(calls[r].0.sessionId, calls[r].0.token)
    ensures !Waiting(calls, n, r, now, ttl)
  {
    assert Closes(calls, j, r, ttl);
  }
}
