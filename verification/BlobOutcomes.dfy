/** What each blob operation answers and leaves, and how the recency it records decides evictions. */
module BlobOutcomes {
  import opened Options
  import opened BlobStorage

  // ---- what a store says about a blob ----

  ghost predicate Holds(s: Store, id: Digest, meta: Meta) {
    Entry(id, meta) in s.index
  }

  ghost predicate Indexed(s: Store, id: Digest) {
    exists x :: x in s.index && x.id == id
  }

  /** From `s` to `r` nothing has changed but the entry and the metadata file of this blob. */
  ghost predicate OnlyTouches(s: Store, r: Store, id: Digest) {
    && r.files == s.files
    && (forall x: Entry :: x.id != id ==> (x in r.index <==> x in s.index))
    && (forall k :: k != id ==> (k in r.sidecars <==> k in s.sidecars))
    && (forall k :: k != id && k in s.sidecars ==> r.sidecars[k] == s.sidecars[k])
  }

  /** The blob is indexed with this metadata, and its metadata file says so. */
  ghost predicate Recorded(r: Store, id: Digest, meta: Meta) {
    && Holds(r, id, meta) && (forall x :: x in r.index && x.id == id ==> x.meta == meta)
    && id in r.sidecars && r.sidecars[id] == meta
  }

  ghost predicate Dropped(s: Store, r: Store, id: Digest) {
    OnlyTouches(s, r, id) && !Indexed(r, id) && id !in r.sidecars
  }

  lemma FoundIs(s: Store, id: Digest)
    ensures Find(s.index, id) >= 0 <==> Indexed(s, id)
    ensures var i := Find(s.index, id); i >= 0 ==> Holds(s, id, s.index[i].meta)
  {
    var i := Find(s.index, id);
    if i >= 0 {
      assert s.index[i] in s.index;
      assert s.index[i] == Entry(id, s.index[i].meta);
    }
    if Indexed(s, id) {
      var x :| x in s.index && x.id == id;
      var j :| 0 <= j < |s.index| && s.index[j] == x;
    }
  }

  lemma TouchIs(s: Store, i: nat, meta: Meta)
    requires Distinct(s.index) && i < |s.index|
    ensures var r := Touch(s, i, meta);
            Distinct(r.index) && OnlyTouches(s, r, s.index[i].id) && Recorded(r, s.index[i].id, meta)
  {
    var r, id := Touch(s, i, meta), s.index[i].id;
    assert r.index[i] == Entry(id, meta);
    forall j, k | 0 <= j < k < |r.index| ensures r.index[j].id != r.index[k].id {
      assert r.index[j].id == s.index[j].id && r.index[k].id == s.index[k].id;
    }
    forall x: Entry | x.id != id ensures x in r.index <==> x in s.index {
      if x in s.index {
        var j :| 0 <= j < |s.index| && s.index[j] == x;
        assert r.index[j] == x;
      }
    }
    forall x | x in r.index && x.id == id ensures x.meta == meta {
      var j :| 0 <= j < |r.index| && r.index[j] == x;
      assert j == i;
    }
  }

  // ---- reads ----

  /** What a read of a blob may find: no entry, an entry whose file is gone, or both. */
  ghost predicate ReadBy(s: Store, id: Digest, now: int, r: Store, found: bool) {
    && (found <==> Indexed(s, id) && id in s.files)
    && (!Indexed(s, id) ==> r == s)
    && (Indexed(s, id) && id !in s.files ==> Dropped(s, r, id))
    && (found ==> OnlyTouches(s, r, id)
                  && forall meta :: Holds(s, id, meta) ==> Recorded(r, id, Meta(meta.mime, meta.size, now)))
  }

  lemma AccessIs(s: Store, id: Digest, now: int)
    requires Distinct(s.index)
    ensures var (r, i) := Access(s, id, now);
            && Distinct(r.index) && ReadBy(s, id, now, r, i.Some?)
            && (i.Some? ==> i.value < |s.index| && Holds(s, id, s.index[i.value].meta))
  {
    FoundIs(s, id);
    var i := Find(s.index, id);
    if i >= 0 {
      RemoveMembers(s.index, i);
      RemoveKeepsDistinct(s.index, i);
      TouchIs(s, i, s.index[i].meta.(lastAccess := now));
      forall meta | Holds(s, id, meta) ensures meta == s.index[i].meta {
        var j :| 0 <= j < |s.index| && s.index[j] == Entry(id, meta);
        assert j == i;
      }
    }
  }

  /** A blob is read exactly if it has an entry and a file; the bytes are the file's, and the read
      renews that blob's recency and nothing else. An entry whose file is gone goes, with its metadata. */
  lemma GetOutcome(s: Store, id: Digest, now: int)
    requires Distinct(s.index)
    ensures var (r, answer) := Get(s, id, now);
            && Distinct(r.index) && ReadBy(s, id, now, r, answer.Content?)
            && answer == (if Indexed(s, id) && id in s.files then Content(s.files[id]) else NotFound)
  {
    AccessIs(s, id, now);
  }

  /** The same for the metadata of a blob, answered as the entry has it. */
  lemma GetMetadataOutcome(s: Store, id: Digest, now: int)
    requires Distinct(s.index)
    ensures var (r, answer) := GetMetadata(s, id, now);
            && Distinct(r.index) && ReadBy(s, id, now, r, answer.Info?)
            && (answer.Info? || answer.NotFound?)
            && (answer.Info? ==> exists at :: Holds(s, id, Meta(answer.mime, answer.size, at)))
  {
    AccessIs(s, id, now);
    var (r, i) := Access(s, id, now);
    if i.Some? {
      var meta := s.index[i.value].meta;
      assert Holds(s, id, Meta(meta.mime, meta.size, meta.lastAccess));
    }
  }

  // ---- writes ----

  ghost predicate Intact(s: Store, id: Digest) {
    Indexed(s, id) && id in s.files && DigestOf(s.files[id]) == id
  }

  /** A blob that is already there, undamaged, is only used again; an unknown type becomes the given one. */
  ghost predicate UsedAgain(s: Store, r: Store, id: Digest, mime: Mime, now: int) {
    && OnlyTouches(s, r, id)
    && forall meta :: Holds(s, id, meta) ==> Recorded(r, id, Meta(if meta.mime == Unknown then mime else meta.mime, meta.size, now))
  }

  /** Otherwise it is written, and of the others those that stay are as they were. */
  ghost predicate WrittenAnew(s: Store, r: Store, bytes: Bytes, mime: Mime, now: int) {
    var id := DigestOf(bytes);
    && Recorded(r, id, Meta(mime, |bytes|, now)) && id in r.files && r.files[id] == bytes
    && (forall x :: x in r.index && x.id != id ==> x in s.index && OneStays(s, r, x.id))
    && (forall x :: x in s.index && x.id != id && x !in r.index ==> x.id !in r.files && x.id !in r.sidecars)
  }

  ghost predicate OneStays(s: Store, r: Store, k: Digest) {
    && (k in r.files <==> k in s.files) && (k in s.files ==> r.files[k] == s.files[k])
    && (k in r.sidecars <==> k in s.sidecars) && (k in s.sidecars ==> r.sidecars[k] == s.sidecars[k])
  }

  /** An eviction removes the entries, files and metadata of the blobs it removes, and of no others. */
  lemma EvictStoreIs(caps: Caps, z: Store, kept: Option<Digest>)
    requires Distinct(z.index)
    ensures var r := EvictStore(caps, z, kept).0;
            && Distinct(r.index)
            && (forall x :: x in r.index ==> x in z.index && OneStays(z, r, x.id))
            && (forall x :: x in z.index && x !in r.index ==> Some(x.id) != kept && x.id !in r.files && x.id !in r.sidecars)
  {
    EvictPartitions(caps, z.index, kept);
    EvictProtects(caps, z.index, kept);
    var r, e := EvictStore(caps, z, kept).0, Evict(caps, z.index, kept);
    forall x | x in r.index ensures x in z.index && OneStays(z, r, x.id) {
      assert x.id !in IdsOf(e.removed);
    }
    forall x | x in z.index && x !in r.index ensures Some(x.id) != kept && x.id !in r.files && x.id !in r.sidecars {
      IdsOfHas(e.removed, x);
    }
  }

  lemma WrittenMembers(s: Store, bytes: Bytes, mime: Mime, now: int)
    requires Distinct(s.index)
    ensures var z, id := Written(s, bytes, mime, now), DigestOf(bytes);
            && Distinct(z.index) && Recorded(z, id, Meta(mime, |bytes|, now))
            && forall x: Entry :: x.id != id ==> (x in z.index <==> x in s.index)
  {
    var z, id := Written(s, bytes, mime, now), DigestOf(bytes);
    var front, last := Delete(s.index, id), Entry(id, Meta(mime, |bytes|, now));
    DeleteIs(s.index, id);
    DistinctSnoc(front, last);
    assert z.index == front + [last];
    assert z.index[|front|] == last;
    forall x | x in z.index ensures x in front || x == last {}
    forall x | x in front ensures x in z.index {}
  }

  lemma WriteIs(caps: Caps, s: Store, bytes: Bytes, mime: Mime, now: int)
    requires Distinct(s.index) && (caps.maxBytes > 0 ==> |bytes| <= caps.maxBytes)
    ensures var (r, ok) := EvictStore(caps, Written(s, bytes, mime, now), Some(DigestOf(bytes)));
            ok && Distinct(r.index) && !Over(caps, r.index) && WrittenAnew(s, r, bytes, mime, now)
  {
    var z, id := Written(s, bytes, mime, now), DigestOf(bytes);
    var r := EvictStore(caps, z, Some(id)).0;
    WrittenMembers(s, bytes, mime, now);
    EvictStoreIs(caps, z, Some(id));
    WrittenEvicts(caps, s, bytes, mime, now);
    EvictEnds(caps, z.index, Some(id));
    var last := Entry(id, Meta(mime, |bytes|, now));
    assert last in z.index;
    assert last in r.index && OneStays(z, r, last.id);
    forall x | x in r.index && x.id != id ensures x in s.index && OneStays(s, r, x.id) {
      assert OneStays(z, r, x.id);
    }
  }

  /** The answer of every `put`, and the whole store it leaves: refused without a type or when it is
      larger than the byte cap, used again when it is there intact, written anew under the caps otherwise. */
  lemma PutOutcome(caps: Caps, s: Store, bytes: Bytes, mime: Option<Mime>, now: int)
    requires Distinct(s.index)
    ensures var ((r, answer), id) := (Put(caps, s, bytes, mime, now), DigestOf(bytes));
            var large := caps.maxBytes > 0 && |bytes| > caps.maxBytes;
            && Distinct(r.index)
            && (mime.None? ==> r == s && answer == BadMime)
            && (mime.Some? && large ==> r == s && answer == TooLarge)
            && (mime.Some? && !large ==> answer == Stored(id))
            && (mime.Some? && !large && Intact(s, id) ==> UsedAgain(s, r, id, mime.value, now))
            && (mime.Some? && !large && !Intact(s, id) ==> !Over(caps, r.index) && WrittenAnew(s, r, bytes, mime.value, now))
  {
    if mime.Some? && !(caps.maxBytes > 0 && |bytes| > caps.maxBytes) {
      var id := DigestOf(bytes);
      FoundIs(s, id);
      var i := Find(s.index, id);
      if i >= 0 && FileMatches(s, id) {
        var meta := s.index[i].meta;
        TouchIs(s, i, Meta(if meta.mime == Unknown then mime.value else meta.mime, meta.size, now));
        forall m | Holds(s, id, m) ensures m == meta {
          var j :| 0 <= j < |s.index| && s.index[j] == Entry(id, m);
          assert j == i;
        }
      } else {
        WriteIs(caps, s, bytes, mime.value, now);
      }
    }
  }

  // ---- recency ----

  /** The blob an event has put or read, if it has, and when. */
  ghost function Used(caps: Caps, s: Store, e: Event): Option<Digest> {
    match Step(caps, s, e).1
    case Stored(id) => Some(id)
    case Content(_) => if e.GetEvent? then Some(e.id) else None
    case Info(_, _) => if e.InfoEvent? then Some(e.id) else None
    case _ => None
  }

  /** When a run last put or read a blob. */
  ghost function LastUse(caps: Caps, s: Store, events: seq<Event>, id: Digest): Option<int>
    decreases |events|
  {
    if events == [] then None
    else
      var rest := LastUse(caps, Step(caps, s, events[0]).0, events[1..], id);
      if rest.Some? then rest else if Used(caps, s, events[0]) == Some(id) then Some(events[0].now) else None
  }

  /** The recency of a blob is its last use, or what it was if it was not used. */
  ghost predicate Since(s: Store, used: Option<int>, x: Entry) {
    if used.Some? then x.meta.lastAccess == used.value
    else exists y :: y in s.index && y.id == x.id && y.meta.lastAccess == x.meta.lastAccess
  }

  lemma StepRecency(caps: Caps, s: Store, e: Event, x: Entry)
    requires Distinct(s.index) && x in Step(caps, s, e).0.index
    ensures Distinct(Step(caps, s, e).0.index)
    ensures Since(s, if Used(caps, s, e) == Some(x.id) then Some(e.now) else None, x)
  {
    match e
    case PutEvent(bytes, mime, now) =>
      PutOutcome(caps, s, bytes, mime, now);
      UsedHeld(s, DigestOf(bytes));
    case GetEvent(id, now) =>
      GetOutcome(s, id, now);
      UsedHeld(s, id);
    case InfoEvent(id, now) =>
      GetMetadataOutcome(s, id, now);
      UsedHeld(s, id);
  }

  lemma UsedHeld(s: Store, id: Digest)
    ensures Indexed(s, id) ==> exists meta :: Holds(s, id, meta)
  {
    FoundIs(s, id);
  }

  /** Over any run of operations on any clock: the recency a blob has is the time of the last operation
      that put or read it; a blob that none did keeps the recency it started with. */
  lemma {:induction false} RecencyIsLastUse(caps: Caps, s: Store, events: seq<Event>, x: Entry)
    requires Distinct(s.index) && x in Run(caps, s, events).index
    ensures Since(s, LastUse(caps, s, events, x.id), x)
    decreases |events|
  {
    if events != [] {
      var e := events[0];
      var t := Step(caps, s, e).0;
      StepDistinct(caps, s, e);
      RecencyIsLastUse(caps, t, events[1..], x);
      if LastUse(caps, t, events[1..], x.id).None? {
        var y :| y in t.index && y.id == x.id && y.meta.lastAccess == x.meta.lastAccess;
        StepRecency(caps, s, e, y);
      }
    }
  }

  lemma StepDistinct(caps: Caps, s: Store, e: Event)
    requires Distinct(s.index)
    ensures Distinct(Step(caps, s, e).0.index)
  {
    match e
    case PutEvent(bytes, mime, now) => PutOutcome(caps, s, bytes, mime, now);
    case GetEvent(id, now) => AccessIs(s, id, now);
    case InfoEvent(id, now) => AccessIs(s, id, now);
  }

  lemma {:induction false} RunDistinct(caps: Caps, s: Store, events: seq<Event>)
    requires Distinct(s.index)
    ensures Distinct(Run(caps, s, events).index)
    decreases |events|
  {
    if events != [] {
      StepDistinct(caps, s, events[0]);
      RunDistinct(caps, Step(caps, s, events[0]).0, events[1..]);
    }
  }

  /** What a `put` evicts after any run was last used no later than anything that stays, the blob itself
      aside. */
  lemma {:induction false} EvictedWereOldest(caps: Caps, s: Store, events: seq<Event>, e: Event, x: Entry, y: Entry)
    requires Distinct(s.index) && e.PutEvent?
    requires var before, after := Run(caps, s, events), Run(caps, s, events + [e]);
             && x in before.index && x.id != DigestOf(e.bytes) && !Indexed(after, x.id)
             && y in after.index && y.id != DigestOf(e.bytes)
    ensures x.meta.lastAccess <= y.meta.lastAccess
    ensures Since(s, LastUse(caps, s, events, x.id), x) && Since(s, LastUse(caps, s, events, y.id), y)
  {
    var before := Run(caps, s, events);
    RunDistinct(caps, s, events);
    RunSnoc(caps, s, events, e);
    var after := Step(caps, before, e).0;
    var id := DigestOf(e.bytes);
    PutOutcome(caps, before, e.bytes, e.mime, e.now);
    assert x !in after.index;
    assert e.mime.Some? && WrittenAnew(before, after, e.bytes, e.mime.value, e.now) && !Intact(before, id);
    FoundIs(before, id);
    var z := Written(before, e.bytes, e.mime.value, e.now);
    WrittenMembers(before, e.bytes, e.mime.value, e.now);
    EvictTakesOldest(caps, z.index, Some(id));
    EvictPartitions(caps, z.index, Some(id));
    RecencyIsLastUse(caps, s, events, x);
    RecencyIsLastUse(caps, s, events, y);
  }

  lemma RunSnoc(caps: Caps, s: Store, events: seq<Event>, e: Event)
    ensures Run(caps, s, events + [e]) == Step(caps, Run(caps, s, events), e).0
    decreases |events|
  {
    if events == [] {
      assert Run(caps, Step(caps, s, e).0, []) == Step(caps, s, e).0;
      assert ([] + [e])[1..] == [];
    } else {
      assert (events + [e])[1..] == events[1..] + [e];
      RunSnoc(caps, Step(caps, s, events[0]).0, events[1..], e);
    }
  }

  /** This blob was used later than every other. */
  ghost predicate Latest(index: seq<Entry>, id: Digest) {
    Distinct(index) && forall x, y :: x in index && y in index && x.id == id && y.id != id ==> y.meta.lastAccess < x.meta.lastAccess
  }

  lemma {:induction false} LatestIsNotNext(index: seq<Entry>, id: Digest, kept: Option<Digest>, x: Entry)
    requires Latest(index, id) && x in index && x.id != id && Some(x.id) != kept
    ensures var v := Victim(index, kept); v.Some? && index[v.value].id != id
  {
    VictimIsOldest(index, kept);
    var i :| 0 <= i < |index| && index[i] == x;
    var v := Victim(index, kept).value;
    assert index[v] in index;
    assert i == v || Older(index, v, i);
  }

  lemma {:induction false} LatestGoesLast(limits: Caps, index: seq<Entry>, id: Digest, kept: Option<Digest>, x: Entry, y: Entry)
    requires Latest(index, id) && x.id == id && x in Evict(limits, index, kept).removed && y in Evict(limits, index, kept).index
    ensures Some(y.id) == kept
  {
    EvictTakesOldest(limits, index, kept);
    EvictPartitions(limits, index, kept);
  }

  lemma {:induction false} UsedIsLatest(caps: Caps, s: Store, e: Event, id: Digest)
    requires Distinct(s.index) && Used(caps, s, e) == Some(id)
    requires forall x :: x in s.index && x.id != id ==> x.meta.lastAccess < e.now
    ensures Latest(Step(caps, s, e).0.index, id)
  {
    var r := Step(caps, s, e).0;
    StepDistinct(caps, s, e);
    forall x | x in r.index ensures if x.id == id then x.meta.lastAccess == e.now else x.meta.lastAccess < e.now {
      StepRecency(caps, s, e, x);
    }
  }

  /** Used after every other blob, a blob is the last to go: the next victim is another one whenever
      another may go, and an eviction that takes it leaves nothing it could have taken instead. */
  lemma {:induction false} UsedIsSpared(caps: Caps, s: Store, e: Event, id: Digest, limits: Caps, kept: Option<Digest>, x: Entry, y: Entry)
    requires Distinct(s.index) && Used(caps, s, e) == Some(id)
    requires forall x :: x in s.index && x.id != id ==> x.meta.lastAccess < e.now
    ensures var r, v := Step(caps, s, e).0, Victim(Step(caps, s, e).0.index, kept);
            x in r.index && x.id != id && Some(x.id) != kept ==> v.Some? && v.value < |r.index| && r.index[v.value].id != id
    ensures var r := Step(caps, s, e).0;
            x.id == id && x in Evict(limits, r.index, kept).removed && y in Evict(limits, r.index, kept).index ==> Some(y.id) == kept
  {
    var index := Step(caps, s, e).0.index;
    UsedIsLatest(caps, s, e, id);
    if x in index && x.id != id && Some(x.id) != kept {
      LatestIsNotNext(index, id, kept, x);
    }
    if x.id == id && x in Evict(limits, index, kept).removed && y in Evict(limits, index, kept).index {
      LatestGoesLast(limits, index, id, kept, x, y);
    }
  }

  // ---- the caps ----

  function BytesOf(index: seq<Entry>): nat {
    if index == [] then 0 else index[0].meta.size + BytesOf(index[1..])
  }

  lemma {:induction false} BytesAreTotal(index: seq<Entry>)
    ensures TotalBytes(index) == BytesOf(index)
  {
    if index != [] {
      TotalRemove(index, 0);
      assert RemoveAt(index, 0) == index[1..];
      BytesAreTotal(index[1..]);
    }
  }

  /** From any directory and through any run, whichever caps are set hold: the number of entries, and
      the sum of their sizes, each the size of its file. */
  lemma {:induction false} CapsHold(caps: Caps, disk: Store, mtime: Digest -> int, listing: seq<Digest>, events: seq<Event>)
    requires IsListing(disk, listing)
    ensures var s := Run(caps, Open(caps, disk, mtime, listing).0, events);
            && (caps.maxEntries > 0 ==> |s.index| <= caps.maxEntries)
            && (caps.maxBytes > 0 ==> BytesOf(s.index) <= caps.maxBytes)
            && forall x :: x in s.index ==> x.id in s.files && x.meta.size == |s.files[x.id]|
  {
    EveryRunIsHealthy(caps, disk, mtime, listing, events, GetEvent(DigestOf([]), 0));
    var s := Run(caps, Open(caps, disk, mtime, listing).0, events);
    BytesAreTotal(s.index);
    forall x | x in s.index ensures x.id in s.files && x.meta.size == |s.files[x.id]| {
      var i :| 0 <= i < |s.index| && s.index[i] == x;
      assert Told(s, mtime, s.index[i]);
    }
  }

  /** What the directory says about a blob: its metadata file, or without one its file. */
  ghost predicate SaidBy(disk: Store, mtime: Digest -> int, x: Entry) {
    && x.id in disk.files && x.meta.size == |disk.files[x.id]|
    && (x.id in disk.sidecars ==> x.meta.mime == disk.sidecars[x.id].mime && x.meta.lastAccess == disk.sidecars[x.id].lastAccess)
    && (x.id !in disk.sidecars ==> x.meta.mime == Unknown && x.meta.lastAccess == mtime(x.id))
  }

  lemma {:induction false} ScannedAre(disk: Store, mtime: Digest -> int, listing: seq<Digest>, x: Entry)
    requires IsListing(disk, listing)
    ensures x in Scan(disk, mtime, listing) <==> SaidBy(disk, mtime, x)
  {
    var index := Scan(disk, mtime, listing);
    if x in index {
      var i :| 0 <= i < |index| && index[i] == x;
    }
    if SaidBy(disk, mtime, x) {
      var i :| 0 <= i < |listing| && listing[i] == x.id;
      assert index[i] == x;
    }
  }

  /** Opening indexes what the directory says of each blob. What it evicts goes from the disk too, and
      was used no later than anything that stays. */
  lemma OpenOutcome(caps: Caps, disk: Store, mtime: Digest -> int, listing: seq<Digest>, x: Entry, y: Entry)
    requires IsListing(disk, listing)
    ensures var r := Open(caps, disk, mtime, listing).0;
            && (x in r.index ==> SaidBy(disk, mtime, x) && OneStays(disk, r, x.id))
            && (SaidBy(disk, mtime, y) && y !in r.index ==> y.id !in r.files && y.id !in r.sidecars)
            && (x in r.index && SaidBy(disk, mtime, y) && y !in r.index ==> y.meta.lastAccess <= x.meta.lastAccess)
  {
    var z := disk.(index := Scan(disk, mtime, listing));
    ScanConsistent(disk, mtime, listing);
    EvictStoreIs(caps, z, None);
    EvictTakesOldest(caps, z.index, None);
    EvictPartitions(caps, z.index, None);
    ScannedAre(disk, mtime, listing, x);
    ScannedAre(disk, mtime, listing, y);
  }
}
