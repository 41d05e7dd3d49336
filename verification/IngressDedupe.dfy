/** The ingress dedupe window: an insertion-ordered map bounded in age and in size. */
module IngressDedupe {
  import opened Options
  import opened Texts

  const DEFAULT_MAX_ENTRIES := 1000
  const DEFAULT_TTL_MS := 600000

  datatype Entry = Entry(key: string, seenAt: int)

  /** One message with this key arrived at this time. */
  datatype Call = Call(key: string, at: int)

  predicate Has(entries: seq<Entry>, key: string) {
    exists i :: 0 <= i < |entries| && entries[i].key == key
  }

  function Prune(entries: seq<Entry>, now: int, ttl: int): seq<Entry> {
    if entries == [] then []
    else if now - entries[0].seenAt >= ttl then Prune(entries[1..], now, ttl)
    else [entries[0]] + Prune(entries[1..], now, ttl)
  }

  function Delete(entries: seq<Entry>, key: string): seq<Entry> {
    if entries == [] then []
    else if entries[0].key == key then Delete(entries[1..], key)
    else [entries[0]] + Delete(entries[1..], key)
  }

  function Seen(entries: seq<Entry>, call: Call, ttl: int): bool {
    Has(Prune(entries, call.at, ttl), call.key)
  }

  function After(entries: seq<Entry>, call: Call, max: nat, ttl: int): seq<Entry> {
    var kept := Prune(entries, call.at, ttl);
    if Has(kept, call.key) then Delete(kept, call.key) + [Entry(call.key, call.at)]
    else LastOf(kept + [Entry(call.key, call.at)], max)
  }

  /** The map after a whole history of calls. */
  function Entries(history: seq<Call>, max: nat, ttl: int): seq<Entry> {
    if history == [] then []
    else After(Entries(history[..|history| - 1], max, ttl), history[|history| - 1], max, ttl)
  }

  // ---- what the map holds, for any clock ----

  /** Among the first `n` calls, call `j` is the latest with its key, and at no later one was it as
      old as `ttl`. */
  predicate Live(h: seq<Call>, n: nat, j: nat, ttl: int)
    requires n <= |h|
  {
    j < n && forall m :: j < m < n ==> h[m].key != h[j].key && h[m].at - h[j].at < ttl
  }

  /** The other keys called since call `j` that are still unexpired after the first `n` calls. */
  function UnexpiredSince(h: seq<Call>, n: nat, j: nat, ttl: int): set<string>
    requires n <= |h|
  {
    set k | j < k < n && Live(h, n, k, ttl) :: h[k].key
  }

  /** Ever since call `j`, fewer than `max` other keys were unexpired. */
  predicate NeverCrowded(h: seq<Call>, n: nat, j: nat, max: nat, ttl: int)
    requires n <= |h|
  {
    forall m :: j < m <= n ==> |UnexpiredSince(h, m, j, ttl)| < max
  }

  function At(call: Call): Entry {
    Entry(call.key, call.at)
  }

  predicate Ascending(js: seq<nat>, n: nat) {
    && (forall a, b :: 0 <= a < b < |js| ==> js[a] < js[b])
    && (forall a :: 0 <= a < |js| ==> js[a] < n)
  }

  function EntriesOf(h: seq<Call>, js: seq<nat>): (entries: seq<Entry>)
    requires Ascending(js, |h|)
    ensures |entries| == |js| && forall i :: 0 <= i < |js| ==> entries[i] == At(h[js[i]])
  {
    if js == [] then [] else [At(h[js[0]])] + EntriesOf(h, js[1..])
  }

  /** The map after the first `n` calls holds exactly these calls: those that are live and were never
      crowded out, in the order they were made. */
  ghost predicate Holds(h: seq<Call>, n: nat, js: seq<nat>, max: nat, ttl: int)
    requires n <= |h|
  {
    && Ascending(js, n) && |js| <= max
    && forall j :: j in js <==> Live(h, n, j, ttl) && NeverCrowded(h, n, j, max, ttl)
  }

  // ---- one call ----

  predicate Survives(h: seq<Call>, j: nat, call: Call, ttl: int)
    requires j < |h|
  {
    h[j].key != call.key && call.at - h[j].at < ttl
  }

  function Survivors(h: seq<Call>, js: seq<nat>, call: Call, ttl: int): seq<nat>
    requires Ascending(js, |h|)
  {
    if js == [] then []
    else (if Survives(h, js[0], call, ttl) then [js[0]] else []) + Survivors(h, js[1..], call, ttl)
  }

  lemma AscendingCons(j: nat, js: seq<nat>, n: nat)
    requires Ascending(js, n) && j < n && forall k :: k in js ==> j < k
    ensures Ascending([j] + js, n)
  {
    assert forall a :: 0 <= a < |js| ==> js[a] in js;
  }

  lemma AscendingTail(js: seq<nat>, n: nat)
    requires Ascending(js, n) && js != []
    ensures Ascending(js[1..], n) && (forall k :: k in js[1..] ==> js[0] < k)
    ensures forall k :: k in js <==> k == js[0] || k in js[1..]
  {
    assert js == [js[0]] + js[1..];
  }

  lemma {:induction false} SurvivorsAre(h: seq<Call>, js: seq<nat>, n: nat, call: Call, ttl: int)
    requires Ascending(js, n) && n <= |h|
    ensures Ascending(Survivors(h, js, call, ttl), n) && |Survivors(h, js, call, ttl)| <= |js|
    ensures forall j :: j in Survivors(h, js, call, ttl) <==> j in js && Survives(h, j, call, ttl)
  {
    if js != [] {
      AscendingTail(js, n);
      SurvivorsAre(h, js[1..], n, call, ttl);
      if Survives(h, js[0], call, ttl) {
        AscendingCons(js[0], Survivors(h, js[1..], call, ttl), n);
      }
    }
  }

  lemma PruneDeleteCons(e: Entry, rest: seq<Entry>, call: Call, ttl: int)
    ensures Delete(Prune([e] + rest, call.at, ttl), call.key) ==
            (if e.key != call.key && call.at - e.seenAt < ttl then [e] else []) + Delete(Prune(rest, call.at, ttl), call.key)
  {
    assert ([e] + rest)[1..] == rest;
    assert ([e] + Prune(rest, call.at, ttl))[1..] == Prune(rest, call.at, ttl);
  }

  lemma {:induction false} EntriesOfCons(h: seq<Call>, j: nat, js: seq<nat>)
    requires j < |h| && Ascending(js, |h|) && Ascending([j] + js, |h|)
    ensures EntriesOf(h, [j] + js) == [At(h[j])] + EntriesOf(h, js)
  {
  }

  lemma {:induction false} SurvivorsStay(h: seq<Call>, js: seq<nat>, call: Call, ttl: int)
    requires Ascending(js, |h|)
    ensures Ascending(Survivors(h, js, call, ttl), |h|)
    ensures Delete(Prune(EntriesOf(h, js), call.at, ttl), call.key) == EntriesOf(h, Survivors(h, js, call, ttl))
  {
    SurvivorsAre(h, js, |h|, call, ttl);
    if js != [] {
      SurvivorsStay(h, js[1..], call, ttl);
      PruneDeleteCons(At(h[js[0]]), EntriesOf(h, js[1..]), call, ttl);
      if Survives(h, js[0], call, ttl) {
        EntriesOfCons(h, js[0], Survivors(h, js[1..], call, ttl));
      }
    }
  }

  lemma {:induction false} PruneShrinks(entries: seq<Entry>, now: int, ttl: int)
    ensures |Prune(entries, now, ttl)| <= |entries|
  {
    if entries != [] {
      PruneShrinks(entries[1..], now, ttl);
    }
  }

  lemma {:induction false} PruneMembers(entries: seq<Entry>, now: int, ttl: int)
    ensures forall e :: e in Prune(entries, now, ttl) <==> e in entries && now - e.seenAt < ttl
  {
    if entries != [] {
      PruneMembers(entries[1..], now, ttl);
      assert entries == [entries[0]] + entries[1..];
    }
  }

  lemma {:induction false} DeleteLength(entries: seq<Entry>, key: string)
    ensures |Delete(entries, key)| <= |entries|
    ensures Has(entries, key) ==> |Delete(entries, key)| < |entries|
    ensures !Has(entries, key) ==> Delete(entries, key) == entries
  {
    if entries != [] {
      DeleteLength(entries[1..], key);
      if Has(entries[1..], key) {
        var i :| 0 <= i < |entries| - 1 && entries[1..][i].key == key;
        assert entries[i + 1].key == key;
      }
      if Has(entries, key) && entries[0].key != key {
        var i :| 0 <= i < |entries| && entries[i].key == key;
        assert entries[1..][i - 1].key == key;
      }
    }
  }

  /** Hit or miss: the key's old entry goes, the new one joins at the end, and the first go until the
      bound holds. */
  lemma AfterIs(entries: seq<Entry>, call: Call, max: nat, ttl: int)
    requires |entries| <= max
    ensures After(entries, call, max, ttl) == LastOf(Delete(Prune(entries, call.at, ttl), call.key) + [At(call)], max)
  {
    PruneShrinks(entries, call.at, ttl);
    DeleteLength(Prune(entries, call.at, ttl), call.key);
  }

  lemma {:induction false} EntriesDropped(h: seq<Call>, js: seq<nat>, k: nat)
    requires Ascending(js, |h|) && k <= |js|
    ensures Ascending(js[k..], |h|) && EntriesOf(h, js)[k..] == EntriesOf(h, js[k..])
    decreases k
  {
    if k > 0 {
      EntriesDropped(h, js[1..], k - 1);
      assert js[1..][k - 1..] == js[k..];
      assert EntriesOf(h, js)[k..] == EntriesOf(h, js[1..])[k - 1..];
    }
  }

  lemma {:induction false} LastOfEntries(h: seq<Call>, js: seq<nat>, max: nat)
    requires Ascending(js, |h|)
    ensures Ascending(LastOf(js, max), |h|) && LastOf(EntriesOf(h, js), max) == EntriesOf(h, LastOf(js, max))
  {
    if |js| > max {
      EntriesDropped(h, js, |js| - max);
    }
  }

  lemma LiveNext(h: seq<Call>, n: nat, j: nat, ttl: int)
    requires n < |h| && j < n
    ensures Live(h, n + 1, j, ttl) <==> Live(h, n, j, ttl) && Survives(h, j, h[n], ttl)
  {
  }

  lemma CrowdedNext(h: seq<Call>, n: nat, j: nat, max: nat, ttl: int)
    requires n < |h| && j < n
    ensures NeverCrowded(h, n + 1, j, max, ttl) <==>
            NeverCrowded(h, n, j, max, ttl) && |UnexpiredSince(h, n + 1, j, ttl)| < max
  {
  }

  /** What is called later is crowded out later. */
  lemma LaterIsLessCrowded(h: seq<Call>, n: nat, j: nat, k: nat, max: nat, ttl: int)
    requires n <= |h| && j <= k && NeverCrowded(h, n, j, max, ttl)
    ensures NeverCrowded(h, n, k, max, ttl)
  {
    forall m | k < m <= n ensures |UnexpiredSince(h, m, k, ttl)| < max {
      var few, many := UnexpiredSince(h, m, k, ttl), UnexpiredSince(h, m, j, ttl);
      assert few <= many;
      SubsetIsSmaller(few, many);
      assert |many| < max;
    }
  }

  lemma SubsetIsSmaller<T>(a: set<T>, b: set<T>)
    requires a <= b
    ensures |a| <= |b|
  {
    assert b == a + (b - a);
  }

  /** The calls that stay, with the new one, before the bound is enforced. */
  ghost predicate Joined(h: seq<Call>, n: nat, js: seq<nat>, max: nat, ttl: int)
    requires n < |h|
  {
    && Ascending(js, n + 1) && js != [] && js[|js| - 1] == n
    && forall j :: j in js <==> j == n || (Live(h, n + 1, j, ttl) && NeverCrowded(h, n, j, max, ttl))
  }

  lemma {:induction false} SurvivorsJoin(h: seq<Call>, n: nat, js: seq<nat>, max: nat, ttl: int)
    requires n < |h| && Holds(h, n, js, max, ttl)
    ensures Ascending(Survivors(h, js, h[n], ttl), n) && Joined(h, n, Survivors(h, js, h[n], ttl) + [n], max, ttl)
  {
    var r := Survivors(h, js, h[n], ttl);
    SurvivorsAre(h, js, n, h[n], ttl);
    forall j: nat ensures j in r + [n] <==> j == n || (Live(h, n + 1, j, ttl) && NeverCrowded(h, n, j, max, ttl)) {
      if j < n {
        LiveNext(h, n, j, ttl);
      }
    }
  }

  function KeysAt(h: seq<Call>, js: seq<nat>): set<string>
    requires Ascending(js, |h|)
  {
    set a | 0 <= a < |js| :: h[js[a]].key
  }

  lemma KeysAtSnoc(h: seq<Call>, js: seq<nat>)
    requires Ascending(js, |h|) && js != []
    ensures KeysAt(h, js) == KeysAt(h, js[..|js| - 1]) + {h[js[|js| - 1]].key}
  {
    var front := js[..|js| - 1];
    forall k | k in KeysAt(h, front) ensures k in KeysAt(h, js) {
      var a :| 0 <= a < |front| && h[front[a]].key == k;
      assert h[js[a]].key == k;
    }
    forall k | k in KeysAt(h, js) && k != h[js[|js| - 1]].key ensures k in KeysAt(h, front) {
      var a :| 0 <= a < |js| && h[js[a]].key == k;
      assert h[front[a]].key == k;
    }
  }

  lemma {:induction false} KeysAtCount(h: seq<Call>, js: seq<nat>)
    requires Ascending(js, |h|) && forall a, b :: 0 <= a < b < |js| ==> h[js[a]].key != h[js[b]].key
    ensures |KeysAt(h, js)| == |js|
  {
    if js != [] {
      var front := js[..|js| - 1];
      KeysAtCount(h, front);
      KeysAtSnoc(h, js);
      assert forall a :: 0 <= a < |front| ==> h[front[a]].key != h[js[|js| - 1]].key;
    }
  }

  /** The calls after place `i` are exactly the keys that are unexpired since. */
  lemma KeysAfter(h: seq<Call>, n: nat, js: seq<nat>, i: nat, max: nat, ttl: int)
    requires n < |h| && Joined(h, n, js, max, ttl) && i < |js|
    ensures |UnexpiredSince(h, n + 1, js[i], ttl)| == |js| - i - 1
  {
    var later := js[i + 1..];
    forall a | 0 <= a < |js| ensures Live(h, n + 1, js[a], ttl) {
      assert js[a] in js;
    }
    KeysAtCount(h, later);
    forall k | k in KeysAt(h, later) ensures k in UnexpiredSince(h, n + 1, js[i], ttl) {
      var a :| 0 <= a < |later| && h[later[a]].key == k;
      assert later[a] == js[i + 1 + a];
    }
    forall k | k in UnexpiredSince(h, n + 1, js[i], ttl) ensures k in KeysAt(h, later) {
      var m :| js[i] < m < n + 1 && Live(h, n + 1, m, ttl) && h[m].key == k;
      var a := PlaceOf(h, n, js, i, m, max, ttl);
      assert later[a - i - 1] == m;
    }
    assert KeysAt(h, later) == UnexpiredSince(h, n + 1, js[i], ttl);
  }

  lemma PlaceOf(h: seq<Call>, n: nat, js: seq<nat>, i: nat, m: nat, max: nat, ttl: int) returns (a: nat)
    requires n < |h| && Joined(h, n, js, max, ttl) && i < |js| && js[i] < m && Live(h, n + 1, m, ttl)
    ensures i < a < |js| && js[a] == m
  {
    assert js[i] in js;
    if m < n {
      LaterIsLessCrowded(h, n, js[i], m, max, ttl);
    }
    assert m in js;
    a :| 0 <= a < |js| && js[a] == m;
  }

  /** Enforcing the bound drops exactly what is now crowded out. */
  lemma BoundDropsCrowded(h: seq<Call>, n: nat, js: seq<nat>, max: nat, ttl: int)
    requires n < |h| && Joined(h, n, js, max, ttl) && 1 <= max
    ensures Holds(h, n + 1, LastOf(js, max), max, ttl)
  {
    var kept := LastOf(js, max);
    var cut := |js| - |kept|;
    forall j | j in js ensures j in kept <==> NeverCrowded(h, n + 1, j, max, ttl) {
      var i :| 0 <= i < |js| && js[i] == j;
      KeysAfter(h, n, js, i, max, ttl);
      if j < n {
        CrowdedNext(h, n, j, max, ttl);
      }
      if i >= cut {
        assert kept[i - cut] == j;
      }
      assert i < cut ==> forall a :: 0 <= a < |kept| ==> kept[a] == js[cut + a] > j;
    }
    forall j: nat ensures j in kept <==> Live(h, n + 1, j, ttl) && NeverCrowded(h, n + 1, j, max, ttl) {
      if j < n && NeverCrowded(h, n + 1, j, max, ttl) {
        CrowdedNext(h, n, j, max, ttl);
      }
    }
  }

  lemma {:induction false} EntriesOfSnoc(h: seq<Call>, js: seq<nat>, j: nat)
    requires Ascending(js + [j], |h|) && Ascending(js, |h|) && j < |h|
    ensures EntriesOf(h, js + [j]) == EntriesOf(h, js) + [At(h[j])]
  {
  }

  lemma EntriesUnfold(h: seq<Call>, n: nat, max: nat, ttl: int)
    requires n < |h|
    ensures Entries(h[..n + 1], max, ttl) == After(Entries(h[..n], max, ttl), h[n], max, ttl)
  {
    assert h[..n + 1][..n] == h[..n];
  }

  lemma {:induction false} AfterKeeps(h: seq<Call>, n: nat, js: seq<nat>, max: nat, ttl: int)
    requires n < |h| && Ascending(js, n) && |js| <= max
    ensures var next := LastOf(Survivors(h, js, h[n], ttl) + [n], max);
            Ascending(next, |h|) && After(EntriesOf(h, js), h[n], max, ttl) == EntriesOf(h, next)
  {
    var r := Survivors(h, js, h[n], ttl);
    SurvivorsAre(h, js, n, h[n], ttl);
    AfterIs(EntriesOf(h, js), h[n], max, ttl);
    SurvivorsStay(h, js, h[n], ttl);
    EntriesOfSnoc(h, r, n);
    LastOfEntries(h, r + [n], max);
  }

  /** `js` are the calls whose entries the map holds after the first `n` calls. */
  ghost predicate HeldAfter(h: seq<Call>, n: nat, js: seq<nat>, max: nat, ttl: int)
    requires n <= |h|
  {
    Holds(h, n, js, max, ttl) && Entries(h[..n], max, ttl) == EntriesOf(h, js)
  }

  lemma NextHeld(h: seq<Call>, n: nat, js: seq<nat>, max: nat, ttl: int) returns (next: seq<nat>)
    requires n < |h| && 1 <= max && HeldAfter(h, n, js, max, ttl)
    ensures HeldAfter(h, n + 1, next, max, ttl)
  {
    next := LastOf(Survivors(h, js, h[n], ttl) + [n], max);
    SurvivorsJoin(h, n, js, max, ttl);
    BoundDropsCrowded(h, n, Survivors(h, js, h[n], ttl) + [n], max, ttl);
    EntriesUnfold(h, n, max, ttl);
    AfterKeeps(h, n, js, max, ttl);
  }

  /** What the map holds after any history, under any clock. */
  lemma {:induction false} MapHolds(h: seq<Call>, n: nat, max: nat, ttl: int) returns (js: seq<nat>)
    requires n <= |h| && 1 <= max
    ensures HeldAfter(h, n, js, max, ttl)
    decreases n
  {
    if n == 0 {
      js := [];
    } else {
      js := MapHolds(h, n - 1, max, ttl);
      js := NextHeld(h, n - 1, js, max, ttl);
    }
  }

  // ---- main results ----

  predicate Monotone(history: seq<Call>) {
    forall i, j :: 0 <= i <= j < |history| ==> history[i].at <= history[j].at
  }

  function KeysOf(calls: seq<Call>): set<string> {
    set i | 0 <= i < |calls| :: calls[i].key
  }

  /** `j` is the latest call with this key. */
  predicate LatestCall(history: seq<Call>, key: string, j: int) {
    0 <= j < |history| && history[j].key == key && forall i :: j < i < |history| ==> history[i].key != key
  }

  /** At no call since call `j` was that call as old as `ttl`. */
  predicate StayedYoung(history: seq<Call>, j: nat, ttl: int)
    requires j < |history|
  {
    forall m :: j < m < |history| ==> history[m].at - history[j].at < ttl
  }

  /** Under any clock, a message is suppressed exactly when the previous message with its key was
      younger than `ttl` at every call since, this one included, and at no call since were as many as
      `max` other keys unexpired. */
  lemma SuppressedUnderAnyClock(history: seq<Call>, call: Call, max: nat, ttl: int)
    requires 1 <= max
    ensures Seen(Entries(history, max, ttl), call, ttl) <==>
            exists j :: LatestCall(history, call.key, j) && StayedYoung(history + [call], j, ttl)
                        && NeverCrowded(history, |history|, j, max, ttl)
  {
    var n := |history|;
    var js := MapHolds(history, n, max, ttl);
    assert history[..n] == history;
    var entries := EntriesOf(history, js);
    PruneMembers(entries, call.at, ttl);
    var kept := Prune(entries, call.at, ttl);
    if Has(kept, call.key) {
      var i :| 0 <= i < |kept| && kept[i].key == call.key;
      assert kept[i] in entries;
      var a :| 0 <= a < |entries| && entries[a] == kept[i];
      assert js[a] in js;
      HeldIsSuppressed(history, call, js[a], max, ttl);
    }
    forall j | LatestCall(history, call.key, j) && StayedYoung(history + [call], j, ttl) && NeverCrowded(history, n, j, max, ttl)
      ensures Has(kept, call.key)
    {
      YoungIsLive(history, call, j, ttl);
      var a :| 0 <= a < |js| && js[a] == j;
      assert entries[a] in kept;
    }
  }

  lemma HeldIsSuppressed(history: seq<Call>, call: Call, j: nat, max: nat, ttl: int)
    requires Live(history, |history|, j, ttl) && NeverCrowded(history, |history|, j, max, ttl)
    requires history[j].key == call.key && call.at - history[j].at < ttl
    ensures LatestCall(history, call.key, j) && StayedYoung(history + [call], j, ttl)
  {
  }

  lemma YoungIsLive(history: seq<Call>, call: Call, j: nat, ttl: int)
    requires LatestCall(history, call.key, j) && StayedYoung(history + [call], j, ttl)
    ensures Live(history, |history|, j, ttl) && call.at - history[j].at < ttl
  {
    var h := history + [call];
    assert h[|history|].at - h[j].at < ttl;
    forall m | j < m < |history| ensures history[m].at - history[j].at < ttl {
      assert h[m].at - h[j].at < ttl;
    }
  }

  lemma UnexpiredWereCalled(history: seq<Call>, n: nat, j: nat, ttl: int)
    requires n <= |history| && j < |history|
    ensures UnexpiredSince(history, n, j, ttl) <= KeysOf(history[j + 1..])
    ensures |UnexpiredSince(history, n, j, ttl)| <= |KeysOf(history[j + 1..])|
  {
    var since := history[j + 1..];
    forall k | k in UnexpiredSince(history, n, j, ttl) ensures k in KeysOf(since) {
      var m :| j < m < n && Live(history, n, m, ttl) && history[m].key == k;
      assert since[m - j - 1].key == k;
    }
    SubsetIsSmaller(UnexpiredSince(history, n, j, ttl), KeysOf(since));
  }

  /** So under any clock: a previous message that stayed young, with fewer than `max` other keys
      since, does suppress. */
  lemma {:induction false} FewKeysSuppress(history: seq<Call>, call: Call, j: nat, max: nat, ttl: int)
    requires LatestCall(history, call.key, j) && StayedYoung(history + [call], j, ttl)
    requires |KeysOf(history[j + 1..])| < max
    ensures Seen(Entries(history, max, ttl), call, ttl)
  {
    forall m | j < m <= |history| ensures |UnexpiredSince(history, m, j, ttl)| < max {
      UnexpiredWereCalled(history, m, j, ttl);
    }
    SuppressedUnderAnyClock(history, call, max, ttl);
  }

  /** Under a clock that does not go back, the latest calls since a young one are all unexpired. */
  lemma AllUnexpired(history: seq<Call>, call: Call, j: nat, ttl: int)
    requires Monotone(history + [call]) && j < |history| && call.at - history[j].at < ttl
    ensures StayedYoung(history + [call], j, ttl)
    ensures KeysOf(history[j + 1..]) <= UnexpiredSince(history, |history|, j, ttl)
  {
    var h, n := history + [call], |history|;
    forall m | j < m <= n ensures h[m].at <= call.at && history[j].at <= h[m].at {
      assert h[n] == call && h[j] == history[j];
    }
    forall k | k in KeysOf(history[j + 1..]) ensures k in UnexpiredSince(history, n, j, ttl) {
      var i :| 0 <= i < n - j - 1 && history[j + 1..][i].key == k;
      var m := LatestOf(history, k, j + 1 + i);
      forall m' | m < m' < n ensures history[m'].at - history[m].at < ttl {
        assert h[m'] == history[m'] && h[m] == history[m];
      }
      assert Live(history, n, m, ttl);
    }
  }

  lemma {:induction false} LatestOf(history: seq<Call>, key: string, i: nat) returns (m: nat)
    requires i < |history| && history[i].key == key
    ensures i <= m && LatestCall(history, key, m)
    decreases |history| - i
  {
    if i' :| i < i' < |history| && history[i'].key == key {
      m := LatestOf(history, key, i');
    } else {
      m := i;
    }
  }

  /** Under a clock that does not go back, a message is suppressed exactly when the previous message
      with its key came less than `ttl` ago and fewer than `max` other keys have come since. */
  lemma {:induction false} SuppressedExactly(history: seq<Call>, call: Call, max: nat, ttl: int)
    requires Monotone(history + [call]) && 1 <= max
    ensures Seen(Entries(history, max, ttl), call, ttl) <==>
            exists j :: LatestCall(history, call.key, j) && call.at - history[j].at < ttl && |KeysOf(history[j + 1..])| < max
  {
    SuppressedUnderAnyClock(history, call, max, ttl);
    if Seen(Entries(history, max, ttl), call, ttl) {
      var j :| LatestCall(history, call.key, j) && StayedYoung(history + [call], j, ttl)
               && NeverCrowded(history, |history|, j, max, ttl);
      YoungIsLive(history, call, j, ttl);
      AllUnexpired(history, call, j, ttl);
      SubsetIsSmaller(KeysOf(history[j + 1..]), UnexpiredSince(history, |history|, j, ttl));
      assert |UnexpiredSince(history, |history|, j, ttl)| < max;
    }
    forall j | LatestCall(history, call.key, j) && call.at - history[j].at < ttl && |KeysOf(history[j + 1..])| < max
      ensures Seen(Entries(history, max, ttl), call, ttl)
    {
      AllUnexpired(history, call, j, ttl);
      FewKeysSuppress(history, call, j, max, ttl);
    }
  }

  /** Under any clock the map stays within its bound, and holds no key twice: its entries are latest
      calls, in call order, each younger than `ttl` at every call since. */
  lemma WindowIsBounded(history: seq<Call>, max: nat, ttl: int) returns (js: seq<nat>)
    requires 1 <= max
    ensures var entries := Entries(history, max, ttl);
            && |entries| == |js| <= max && (forall a, b :: 0 <= a < b < |js| ==> js[a] < js[b])
            && (forall a :: 0 <= a < |js| ==> LatestCall(history, entries[a].key, js[a])
                                              && entries[a].seenAt == history[js[a]].at && StayedYoung(history, js[a], ttl))
            && (forall a, b :: 0 <= a < b < |js| ==> entries[a].key != entries[b].key)
            && (Monotone(history) ==> forall a, b :: 0 <= a < b < |js| ==> entries[a].seenAt <= entries[b].seenAt)
  {
    js := MapHolds(history, |history|, max, ttl);
    assert history[..|history|] == history;
    forall a | 0 <= a < |js| ensures Live(history, |history|, js[a], ttl) {
      assert js[a] in js;
    }
  }

  /** Once the clock goes back the rule fails: pruning at the later time has dropped a key that is
      young again at the earlier one. */
  lemma ClockRollbackForgets()
    ensures var history := [Call("a", 0), Call("b", 10)];
            LatestCall(history, "a", 0) && 5 - history[0].at < 10 && |KeysOf(history[1..])| < 1000
            && !Seen(Entries(history, 1000, 10), Call("a", 5), 10)
  {
    var history := [Call("a", 0), Call("b", 10)];
    assert history[..1] == [Call("a", 0)] && history[..1][..0] == [];
    assert Entries([], 1000, 10) == [];
    assert Entries(history[..1], 1000, 10) == After([], Call("a", 0), 1000, 10) == [Entry("a", 0)];
    assert Prune([Entry("a", 0)], 10, 10) == [];
    assert Entries(history, 1000, 10) == After([Entry("a", 0)], Call("b", 10), 1000, 10) == [Entry("b", 10)];
    assert KeysOf(history[1..]) == {"b"};
    assert Prune([Entry("b", 10)], 5, 10) == [Entry("b", 10)];
    assert [Entry("b", 10)][0].key == "b" && "b"[0] != "a"[0];
  }

  // ---- the object ----

  class TelegramIngressDeduper {
    const maxEntries: nat
    const ttlMs: nat
    // insertion-ordered
    var entries: seq<Entry>

    constructor (max: Option<int>, ttl: Option<int>)
      ensures 1 <= maxEntries && 1 <= ttlMs && entries == []
      ensures maxEntries == if max.None? then DEFAULT_MAX_ENTRIES else if max.value >= 1 then max.value else 1
      ensures ttlMs == if ttl.None? then DEFAULT_TTL_MS else if ttl.value >= 1 then ttl.value else 1
    {
      var m := if max.Some? then max.value else DEFAULT_MAX_ENTRIES;
      var t := if ttl.Some? then ttl.value else DEFAULT_TTL_MS;
      maxEntries := if m < 1 then 1 else m;
      ttlMs := if t < 1 then 1 else t;
      entries := [];
    }

    /** Answers for the next message of a history and takes it in. */
    method HasSeen(key: string, now: int, ghost history: seq<Call>) returns (seen: bool)
      requires 1 <= maxEntries && entries == Entries(history, maxEntries, ttlMs)
      modifies this
      ensures seen == Seen(old(entries), Call(key, now), ttlMs)
      ensures entries == Entries(history + [Call(key, now)], maxEntries, ttlMs)
      ensures seen <==> exists j :: LatestCall(history, key, j) && StayedYoung(history + [Call(key, now)], j, ttlMs)
                                    && NeverCrowded(history, |history|, j, maxEntries, ttlMs)
      ensures Monotone(history + [Call(key, now)]) ==>
                (seen <==> exists j :: LatestCall(history, key, j) && now - history[j].at < ttlMs && |KeysOf(history[j + 1..])| < maxEntries)
    {
      ghost var call := Call(key, now);
      assert (history + [call])[..|history|] == history;
      SuppressedUnderAnyClock(history, call, maxEntries, ttlMs);
      if Monotone(history + [call]) {
        SuppressedExactly(history, call, maxEntries, ttlMs);
      }
      PruneEntries(now);
      seen := Has(entries, key);
      if seen {
        entries := Delete(entries, key) + [Entry(key, now)];
        return;
      }
      entries := entries + [Entry(key, now)];
      ghost var full := entries;
      while |entries| > maxEntries
        invariant |entries| <= |full| && entries == full[|full| - |entries|..]
        invariant |entries| < |full| ==> |entries| >= maxEntries
      {
        entries := entries[1..];
      }
      assert entries == LastOf(full, maxEntries);
    }

    method PruneEntries(now: int)
      modifies this
      ensures entries == Prune(old(entries), now, ttlMs)
    {
      var kept: seq<Entry> := [];
      var i := 0;
      ghost var before := entries;
      while i < |entries|
        invariant entries == before && i <= |entries|
        invariant kept + Prune(before[i..], now, ttlMs) == Prune(before, now, ttlMs)
      {
        if now - entries[i].seenAt < ttlMs {
          kept := kept + [entries[i]];
        }
        i := i + 1;
        assert before[i - 1..][1..] == before[i..];
      }
      entries := kept;
    }
  }
}
