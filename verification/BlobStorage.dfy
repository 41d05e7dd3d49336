/** Content-addressed blobs under a byte cap and an entry cap, with least-recently-used eviction. */
module BlobStorage {
  import opened Options

  type Bytes = seq<bv8>

  /** A collision-free digest: the digest of different bytes is different. */
  datatype Digest = DigestOf(bytes: Bytes)

  /** `Unknown` stands for application/octet-stream. */
  datatype Mime = Unknown | Known(name: string)

  datatype Meta = Meta(mime: Mime, size: nat, lastAccess: int)

  datatype Entry = Entry(id: Digest, meta: Meta)

  /** Zero disables a cap. */
  datatype Caps = Caps(maxBytes: nat, maxEntries: nat)

  /** The index in insertion order, the blob files and the metadata files. */
  datatype Store = Store(index: seq<Entry>, files: map<Digest, Bytes>, sidecars: map<Digest, Meta>)

  datatype Answer = Stored(id: Digest) | Content(bytes: Bytes) | Info(mime: Mime, size: nat)
    | TooLarge | BadMime | NotFound | CapacityError

  // ---- the index ----

  function TotalBytes(index: seq<Entry>): nat {
    if index == [] then 0 else TotalBytes(index[..|index| - 1]) + index[|index| - 1].meta.size
  }

  predicate Over(caps: Caps, index: seq<Entry>) {
    (caps.maxEntries > 0 && |index| > caps.maxEntries) || (caps.maxBytes > 0 && TotalBytes(index) > caps.maxBytes)
  }

  predicate Distinct(index: seq<Entry>) {
    forall i, j :: 0 <= i < j < |index| ==> index[i].id != index[j].id
  }

  /** Position of an id, or -1. */
  function Find(index: seq<Entry>, id: Digest): (r: int)
    ensures -1 <= r < |index|
    ensures r >= 0 ==> index[r].id == id
    ensures r < 0 ==> forall i :: 0 <= i < |index| ==> index[i].id != id
  {
    if index == [] then -1
    else if index[|index| - 1].id == id then |index| - 1
    else Find(index[..|index| - 1], id)
  }

  function RemoveAt(index: seq<Entry>, i: nat): seq<Entry>
    requires i < |index|
  {
    index[..i] + index[i + 1..]
  }

  function Delete(index: seq<Entry>, id: Digest): seq<Entry> {
    var i := Find(index, id);
    if i < 0 then index else RemoveAt(index, i)
  }

  /** The entry with the earliest access, the first in the index among equals; the protected blob is
      never picked. */
  function Victim(index: seq<Entry>, kept: Option<Digest>): (r: Option<nat>)
    ensures r.Some? ==> r.value < |index| && Some(index[r.value].id) != kept
  {
    if index == [] then None
    else
      var n := |index| - 1;
      var v := Victim(index[..n], kept);
      if Some(index[n].id) == kept then v
      else if v.None? || index[n].meta.lastAccess < index[v.value].meta.lastAccess then Some(n)
      else v
  }

  /** What an eviction leaves, what it removes in order, and whether it ends under the caps. */
  datatype Eviction = Eviction(index: seq<Entry>, removed: seq<Entry>, ok: bool)

  function Evict(caps: Caps, index: seq<Entry>, kept: Option<Digest>): Eviction
    decreases |index|
  {
    if !Over(caps, index) then Eviction(index, [], true)
    else
      var v := Victim(index, kept);
      if v.None? then Eviction(index, [], false)
      else
        var rest := Evict(caps, RemoveAt(index, v.value), kept);
        rest.(removed := [index[v.value]] + rest.removed)
  }

  function IdsOf(entries: seq<Entry>): set<Digest> {
    set i | 0 <= i < |entries| :: entries[i].id
  }

  function EvictStore(caps: Caps, s: Store, kept: Option<Digest>): (Store, bool) {
    var e := Evict(caps, s.index, kept);
    (Store(e.index, s.files - IdsOf(e.removed), s.sidecars - IdsOf(e.removed)), e.ok)
  }

  // ---- the operations ----

  predicate FileMatches(s: Store, id: Digest) {
    id in s.files && DigestOf(s.files[id]) == id
  }

  function Touch(s: Store, i: nat, meta: Meta): Store
    requires i < |s.index|
  {
    s.(index := s.index[i := s.index[i].(meta := meta)], sidecars := s.sidecars[s.index[i].id := meta])
  }

  /** The store with a blob written, before eviction. */
  function Written(s: Store, bytes: Bytes, mime: Mime, now: int): Store {
    var id := DigestOf(bytes);
    var meta := Meta(mime, |bytes|, now);
    Store(Delete(s.index, id) + [Entry(id, meta)], s.files[id := bytes], s.sidecars[id := meta])
  }

  function Put(caps: Caps, s: Store, bytes: Bytes, mime: Option<Mime>, now: int): (Store, Answer) {
    var id := DigestOf(bytes);
    if mime.None? then (s, BadMime)
    else if caps.maxBytes > 0 && |bytes| > caps.maxBytes then (s, TooLarge)
    else
      var i := Find(s.index, id);
      if i >= 0 && FileMatches(s, id) then
        var meta := s.index[i].meta;
        (Touch(s, i, Meta(if meta.mime == Unknown then mime.value else meta.mime, meta.size, now)), Stored(id))
      else
        var (r, ok) := EvictStore(caps, Written(s, bytes, mime.value, now), Some(id));
        (r, if ok then Stored(id) else CapacityError)
  }

  /** The part shared by `get` and `getMetadata`: an entry whose file is gone is dropped. */
  function Access(s: Store, id: Digest, now: int): (Store, Option<nat>) {
    var i := Find(s.index, id);
    if i < 0 then (s, None)
    else if id !in s.files then (s.(index := RemoveAt(s.index, i), sidecars := s.sidecars - {id}), None)
    else (Touch(s, i, s.index[i].meta.(lastAccess := now)), Some(i))
  }

  function Get(s: Store, id: Digest, now: int): (Store, Answer) {
    var (r, i) := Access(s, id, now);
    if i.None? then (r, NotFound)
    else if id in s.files then (r, Content(s.files[id])) else (r, NotFound)
  }

  function GetMetadata(s: Store, id: Digest, now: int): (Store, Answer) {
    var (r, i) := Access(s, id, now);
    (r, if i.Some? && i.value < |s.index| then Info(s.index[i.value].meta.mime, s.index[i.value].meta.size) else NotFound)
  }

  /** What a blob file and its metadata file say about a blob; without metadata, the file's own time. */
  function Recover(disk: Store, mtime: Digest -> int, id: Digest): Entry
    requires id in disk.files
  {
    Entry(id, if id in disk.sidecars then Meta(disk.sidecars[id].mime, |disk.files[id]|, disk.sidecars[id].lastAccess)
              else Meta(Unknown, |disk.files[id]|, mtime(id)))
  }

  /** `listing` is the order in which the directory lists the blob files. */
  ghost predicate IsListing(disk: Store, listing: seq<Digest>) {
    && (forall i, j :: 0 <= i < j < |listing| ==> listing[i] != listing[j])
    && (forall i :: 0 <= i < |listing| ==> listing[i] in disk.files)
    && (forall id :: id in disk.files ==> id in listing)
  }

  function Scan(disk: Store, mtime: Digest -> int, listing: seq<Digest>): (index: seq<Entry>)
    requires forall i :: 0 <= i < |listing| ==> listing[i] in disk.files
    ensures |index| == |listing| && forall i :: 0 <= i < |listing| ==> index[i] == Recover(disk, mtime, listing[i])
  {
    if listing == [] then []
    else Scan(disk, mtime, listing[..|listing| - 1]) + [Recover(disk, mtime, listing[|listing| - 1])]
  }

  /** Initialization: reads the directory and evicts down to the caps. */
  function Open(caps: Caps, disk: Store, mtime: Digest -> int, listing: seq<Digest>): (Store, bool)
    requires forall i :: 0 <= i < |listing| ==> listing[i] in disk.files
  {
    EvictStore(caps, disk.(index := Scan(disk, mtime, listing)), None)
  }

  // ---- least recently used ----

  /** `a` goes before `b`: earlier access, or the same and earlier in the index. */
  predicate Older(index: seq<Entry>, a: nat, b: nat)
    requires a < |index| && b < |index|
  {
    index[a].meta.lastAccess < index[b].meta.lastAccess || (index[a].meta.lastAccess == index[b].meta.lastAccess && a < b)
  }

  /** The victim is the least recently used of the entries that may go; there is none only if no entry may go. */
  lemma {:induction false} VictimIsOldest(index: seq<Entry>, kept: Option<Digest>)
    ensures var v := Victim(index, kept);
            && (v.None? ==> forall i :: 0 <= i < |index| ==> Some(index[i].id) == kept)
            && (v.Some? ==> forall i :: 0 <= i < |index| && Some(index[i].id) != kept && i != v.value ==> Older(index, v.value, i))
  {
    if index != [] {
      var n := |index| - 1;
      var front := index[..n];
      VictimIsOldest(front, kept);
      assert forall i :: 0 <= i < n ==> front[i] == index[i];
      var v := Victim(front, kept);
      if v.Some? {
        forall i | 0 <= i < n && Some(index[i].id) != kept && i != v.value ensures Older(index, v.value, i) {
          assert Older(front, v.value, i);
        }
      }
    }
  }

  lemma TotalSnoc(index: seq<Entry>, e: Entry)
    ensures TotalBytes(index + [e]) == TotalBytes(index) + e.meta.size
  {
    assert (index + [e])[..|index|] == index;
  }

  lemma {:induction false} TotalRemove(index: seq<Entry>, i: nat)
    requires i < |index|
    ensures TotalBytes(RemoveAt(index, i)) == TotalBytes(index) - index[i].meta.size
  {
    var n := |index| - 1;
    if i == n {
      assert RemoveAt(index, i) == index[..n];
    } else {
      TotalRemove(index[..n], i);
      TotalSnoc(RemoveAt(index[..n], i), index[n]);
      assert RemoveAt(index, i) == RemoveAt(index[..n], i) + [index[n]];
    }
  }

  lemma {:induction false} TotalUpdate(index: seq<Entry>, i: nat, e: Entry)
    requires i < |index| && e.meta.size == index[i].meta.size
    ensures TotalBytes(index[i := e]) == TotalBytes(index)
  {
    var n := |index| - 1;
    if i == n {
      assert index[i := e][..n] == index[..n];
    } else {
      assert index[i := e][..n] == index[..n][i := e];
      TotalUpdate(index[..n], i, e);
    }
  }

  lemma RemoveKeepsDistinct(index: seq<Entry>, i: nat)
    requires Distinct(index) && i < |index|
    ensures Distinct(RemoveAt(index, i))
    ensures forall j :: 0 <= j < |index| - 1 ==> RemoveAt(index, i)[j].id != index[i].id
  {
  }

  // ---- eviction ----

  /** The ids of the entries still there after the first `n` removals, and those removed, are the ids there before. */
  lemma {:induction false} EvictPartitions(caps: Caps, index: seq<Entry>, kept: Option<Digest>)
    requires Distinct(index)
    ensures var e := Evict(caps, index, kept);
            && Distinct(e.index)
            && (forall x :: x in index <==> x in e.index || x in e.removed)
            && (forall x, y :: x in e.index && y in e.removed ==> x.id != y.id)
    decreases |index|
  {
    if Over(caps, index) && Victim(index, kept).Some? {
      var v := Victim(index, kept).value;
      var rest := RemoveAt(index, v);
      RemoveKeepsDistinct(index, v);
      EvictPartitions(caps, rest, kept);
      RemoveMembers(index, v);
    }
  }

  lemma RemoveMembers(index: seq<Entry>, i: nat)
    requires Distinct(index) && i < |index|
    ensures forall x :: x in index <==> x == index[i] || x in RemoveAt(index, i)
    ensures forall x :: x in RemoveAt(index, i) ==> x.id != index[i].id
  {
    var rest := RemoveAt(index, i);
    forall x | x in index ensures x == index[i] || x in rest {
      var j :| 0 <= j < |index| && index[j] == x;
      if j < i {
        assert rest[j] == x;
      } else if j > i {
        assert rest[j - 1] == x;
      }
    }
    forall x | x in rest ensures x in index && x.id != index[i].id {
      var j :| 0 <= j < |rest| && rest[j] == x;
      assert x == index[if j < i then j else j + 1];
    }
  }

  /** The protected blob is never evicted. */
  lemma {:induction false} EvictProtects(caps: Caps, index: seq<Entry>, kept: Option<Digest>)
    ensures forall x :: x in Evict(caps, index, kept).removed ==> Some(x.id) != kept
    decreases |index|
  {
    if Over(caps, index) && Victim(index, kept).Some? {
      EvictProtects(caps, RemoveAt(index, Victim(index, kept).value), kept);
    }
  }

  /** Eviction ends under the caps, or with nothing left that may go. */
  lemma {:induction false} EvictEnds(caps: Caps, index: seq<Entry>, kept: Option<Digest>)
    ensures var e := Evict(caps, index, kept);
            && (e.ok <==> !Over(caps, e.index))
            && (!e.ok ==> forall i :: 0 <= i < |e.index| ==> Some(e.index[i].id) == kept)
    decreases |index|
  {
    if Over(caps, index) {
      VictimIsOldest(index, kept);
      if Victim(index, kept).Some? {
        EvictEnds(caps, RemoveAt(index, Victim(index, kept).value), kept);
      }
    }
  }

  /** A protected blob that fits the byte cap by itself never makes eviction fail. */
  lemma {:induction false} EvictSucceeds(caps: Caps, index: seq<Entry>, kept: Option<Digest>)
    requires Distinct(index)
    requires caps.maxBytes > 0 && kept.Some? ==> forall i :: 0 <= i < |index| && index[i].id == kept.value ==> index[i].meta.size <= caps.maxBytes
    ensures Evict(caps, index, kept).ok
  {
    var e := Evict(caps, index, kept);
    EvictEnds(caps, index, kept);
    EvictPartitions(caps, index, kept);
    if !e.ok {
      AtMostOne(e.index, kept);
      forall x | x in e.index ensures x in index {}
      SmallIsUnder(caps, e.index);
    }
  }

  lemma SmallIsUnder(caps: Caps, index: seq<Entry>)
    requires |index| <= 1
    requires caps.maxBytes > 0 ==> forall i :: 0 <= i < |index| ==> index[i].meta.size <= caps.maxBytes
    ensures !Over(caps, index)
  {
    if index != [] {
      assert index[..|index| - 1] == [];
      assert TotalBytes(index) == index[0].meta.size;
    }
  }

  lemma AtMostOne(index: seq<Entry>, kept: Option<Digest>)
    requires Distinct(index) && forall i :: 0 <= i < |index| ==> Some(index[i].id) == kept
    ensures |index| <= 1
  {
    if index != [] {
      assert index[0].id == index[|index| - 1].id;
    }
  }

  /** The index after `n` least recently used entries have gone. */
  function DropOldest(index: seq<Entry>, kept: Option<Digest>, n: nat): seq<Entry>
    decreases n
  {
    if n == 0 || Victim(index, kept).None? then index
    else DropOldest(RemoveAt(index, Victim(index, kept).value), kept, n - 1)
  }

  /** Eviction removes the shortest least-recently-used sequence that restores the caps: after any
      smaller number of removals the store was still over. */
  lemma {:induction false} EvictIsShortest(caps: Caps, index: seq<Entry>, kept: Option<Digest>)
    ensures var e := Evict(caps, index, kept);
            && e.index == DropOldest(index, kept, |e.removed|)
            && forall n :: 0 <= n < |e.removed| ==> Over(caps, DropOldest(index, kept, n))
    decreases |index|
  {
    if Over(caps, index) && Victim(index, kept).Some? {
      var rest := RemoveAt(index, Victim(index, kept).value);
      EvictIsShortest(caps, rest, kept);
      var e := Evict(caps, index, kept);
      forall n | 0 <= n < |e.removed| ensures Over(caps, DropOldest(index, kept, n)) {
        assert n > 0 ==> DropOldest(index, kept, n) == DropOldest(rest, kept, n - 1);
      }
    }
  }

  /** Nothing that stays, but for the protected blob, was used before anything that went. */
  lemma {:induction false} EvictTakesOldest(caps: Caps, index: seq<Entry>, kept: Option<Digest>)
    requires Distinct(index)
    ensures var e := Evict(caps, index, kept);
            forall x, y :: x in e.removed && y in e.index && Some(y.id) != kept ==> x.meta.lastAccess <= y.meta.lastAccess
    decreases |index|
  {
    if Over(caps, index) && Victim(index, kept).Some? {
      var v := Victim(index, kept).value;
      var rest := RemoveAt(index, v);
      RemoveKeepsDistinct(index, v);
      EvictTakesOldest(caps, rest, kept);
      EvictPartitions(caps, rest, kept);
      RemoveMembers(index, v);
      VictimIsOldest(index, kept);
      forall y | y in rest && Some(y.id) != kept ensures index[v].meta.lastAccess <= y.meta.lastAccess {
        assert y in index;
        var i :| 0 <= i < |index| && index[i] == y;
      }
    }
  }

  // ---- the index agrees with the disk ----

  ghost predicate HasEntry(index: seq<Entry>, id: Digest) {
    exists i :: 0 <= i < |index| && index[i].id == id
  }

  ghost predicate Told(s: Store, mtime: Digest -> int, e: Entry) {
    e.id in s.files && e == Recover(s, mtime, e.id)
  }

  /** The index has one entry for every blob file, and each entry is what the disk says about it. */
  ghost predicate Consistent(s: Store, mtime: Digest -> int) {
    && Distinct(s.index)
    && (forall id :: id in s.files ==> HasEntry(s.index, id))
    && (forall i :: 0 <= i < |s.index| ==> Told(s, mtime, s.index[i]))
  }

  lemma IdsOfHas(entries: seq<Entry>, e: Entry)
    requires e in entries
    ensures e.id in IdsOf(entries) && HasEntry(entries, e.id)
  {
    var k :| 0 <= k < |entries| && entries[k] == e;
    assert entries[k].id == e.id;
  }

  lemma EvictConsistent(caps: Caps, s: Store, kept: Option<Digest>, mtime: Digest -> int)
    requires Consistent(s, mtime)
    ensures Consistent(EvictStore(caps, s, kept).0, mtime)
  {
    var e, r := Evict(caps, s.index, kept), EvictStore(caps, s, kept).0;
    EvictPartitions(caps, s.index, kept);
    forall i | 0 <= i < |r.index| ensures Told(r, mtime, r.index[i]) {
      assert r.index[i] in e.index;
      assert r.index[i] in s.index;
      assert r.index[i].id !in IdsOf(e.removed);
    }
    forall id | id in r.files ensures HasEntry(r.index, id) {
      assert HasEntry(s.index, id);
      var j :| 0 <= j < |s.index| && s.index[j].id == id;
      assert s.index[j] in s.index;
      assert s.index[j] in e.removed ==> id in IdsOf(e.removed) by {
        if s.index[j] in e.removed {
          IdsOfHas(e.removed, s.index[j]);
        }
      }
      IdsOfHas(e.index, s.index[j]);
    }
  }

  lemma TouchConsistent(s: Store, i: nat, meta: Meta, mtime: Digest -> int)
    requires Consistent(s, mtime) && i < |s.index| && meta.size == s.index[i].meta.size
    ensures Consistent(Touch(s, i, meta), mtime)
  {
    var r := Touch(s, i, meta);
    forall j | 0 <= j < |r.index| ensures r.index[j].id == s.index[j].id && Told(r, mtime, r.index[j]) {
      assert Told(s, mtime, s.index[j]);
    }
    forall id | id in r.files ensures HasEntry(r.index, id) {
      assert HasEntry(s.index, id);
      var j :| 0 <= j < |s.index| && s.index[j].id == id;
      assert r.index[j].id == id;
    }
  }

  lemma DeleteIs(index: seq<Entry>, id: Digest)
    requires Distinct(index)
    ensures Distinct(Delete(index, id))
    ensures forall x :: x in Delete(index, id) <==> x in index && x.id != id
  {
    var i := Find(index, id);
    if i >= 0 {
      RemoveKeepsDistinct(index, i);
      RemoveMembers(index, i);
    }
  }

  lemma WrittenTells(s: Store, bytes: Bytes, mime: Mime, now: int, mtime: Digest -> int, e: Entry)
    requires Told(s, mtime, e) && e.id != DigestOf(bytes)
    ensures Told(Written(s, bytes, mime, now), mtime, e)
  {
  }

  lemma CoversSnoc(index: seq<Entry>, front: seq<Entry>, last: Entry, k: Digest)
    requires forall x :: x in front <==> x in index && x.id != last.id
    requires k == last.id || HasEntry(index, k)
    ensures HasEntry(front + [last], k)
  {
    if k == last.id {
      assert (front + [last])[|front|].id == k;
    } else {
      var j :| 0 <= j < |index| && index[j].id == k;
      assert index[j] in front;
      IdsOfHas(front + [last], index[j]);
    }
  }

  lemma DistinctSnoc(front: seq<Entry>, last: Entry)
    requires Distinct(front) && forall x :: x in front ==> x.id != last.id
    ensures Distinct(front + [last])
  {
    forall i | 0 <= i < |front| ensures front[i].id != last.id {
      assert front[i] in front;
    }
  }

  lemma AllToldSnoc(r: Store, mtime: Digest -> int, front: seq<Entry>, last: Entry)
    requires r.index == front + [last] && Told(r, mtime, last) && forall x :: x in front ==> Told(r, mtime, x)
    ensures forall i :: 0 <= i < |r.index| ==> Told(r, mtime, r.index[i])
  {
    forall i | 0 <= i < |r.index| ensures Told(r, mtime, r.index[i]) {
      if i < |front| {
        assert front[i] in front;
      }
    }
  }

  lemma WrittenConsistent(s: Store, bytes: Bytes, mime: Mime, now: int, mtime: Digest -> int)
    requires Consistent(s, mtime)
    ensures Consistent(Written(s, bytes, mime, now), mtime)
  {
    var r := Written(s, bytes, mime, now);
    var front, last := Delete(s.index, DigestOf(bytes)), Entry(DigestOf(bytes), Meta(mime, |bytes|, now));
    DeleteIs(s.index, DigestOf(bytes));
    DistinctSnoc(front, last);
    forall x | x in front ensures Told(r, mtime, x) {
      var j :| 0 <= j < |s.index| && s.index[j] == x;
      WrittenTells(s, bytes, mime, now, mtime, s.index[j]);
    }
    AllToldSnoc(r, mtime, front, last);
    forall k | k in r.files ensures HasEntry(r.index, k) {
      CoversSnoc(s.index, front, last, k);
    }
  }

  lemma {:induction false} ScanConsistent(disk: Store, mtime: Digest -> int, listing: seq<Digest>)
    requires IsListing(disk, listing)
    ensures Consistent(disk.(index := Scan(disk, mtime, listing)), mtime)
  {
    var r := disk.(index := Scan(disk, mtime, listing));
    forall i | 0 <= i < |r.index| ensures Told(r, mtime, r.index[i]) {
      assert r.index[i] == Recover(disk, mtime, listing[i]);
    }
    forall id | id in r.files ensures HasEntry(r.index, id) {
      var i :| 0 <= i < |listing| && listing[i] == id;
      assert r.index[i].id == id;
    }
  }

  // ---- main results ----

  /** Both caps hold and the index matches the disk. */
  ghost predicate Healthy(caps: Caps, s: Store, mtime: Digest -> int) {
    Consistent(s, mtime) && !Over(caps, s.index)
  }

  /** From any directory whatever, initialization succeeds and leaves a healthy store. */
  lemma OpenIsHealthy(caps: Caps, disk: Store, mtime: Digest -> int, listing: seq<Digest>)
    requires IsListing(disk, listing)
    ensures var (r, ok) := Open(caps, disk, mtime, listing); ok && Healthy(caps, r, mtime)
  {
    var z := disk.(index := Scan(disk, mtime, listing));
    ScanConsistent(disk, mtime, listing);
    EvictConsistent(caps, z, None, mtime);
    EvictSucceeds(caps, z.index, None);
    EvictEnds(caps, z.index, None);
  }

  lemma {:induction false} WrittenEvicts(caps: Caps, s: Store, bytes: Bytes, mime: Mime, now: int)
    requires Distinct(s.index) && (caps.maxBytes > 0 ==> |bytes| <= caps.maxBytes)
    ensures var z := Written(s, bytes, mime, now); Distinct(z.index) && Evict(caps, z.index, Some(DigestOf(bytes))).ok
  {
    var id, z := DigestOf(bytes), Written(s, bytes, mime, now);
    DeleteIs(s.index, id);
    var front := Delete(s.index, id);
    forall i | 0 <= i < |front| ensures front[i].id != id {
      assert front[i] in front;
    }
    assert z.index == front + [Entry(id, Meta(mime, |bytes|, now))];
    EvictSucceeds(caps, z.index, Some(id));
  }

  /** Every operation keeps the store healthy, and `put` never hits the error for a capacity that
      cannot be satisfied. */
  lemma PutKeeps(caps: Caps, s: Store, bytes: Bytes, mime: Option<Mime>, now: int, mtime: Digest -> int)
    requires Healthy(caps, s, mtime)
    ensures var (r, answer) := Put(caps, s, bytes, mime, now); Healthy(caps, r, mtime) && !answer.CapacityError?
  {
    var id := DigestOf(bytes);
    if mime.Some? && !(caps.maxBytes > 0 && |bytes| > caps.maxBytes) {
      var i := Find(s.index, id);
      if i >= 0 && FileMatches(s, id) {
        var meta := s.index[i].meta;
        var touched := Meta(if meta.mime == Unknown then mime.value else meta.mime, meta.size, now);
        TouchConsistent(s, i, touched, mtime);
        TotalUpdate(s.index, i, s.index[i].(meta := touched));
      } else {
        var z := Written(s, bytes, mime.value, now);
        WrittenConsistent(s, bytes, mime.value, now, mtime);
        WrittenEvicts(caps, s, bytes, mime.value, now);
        EvictConsistent(caps, z, Some(id), mtime);
        EvictEnds(caps, z.index, Some(id));
      }
    }
  }

  lemma AccessKeeps(caps: Caps, s: Store, id: Digest, now: int, mtime: Digest -> int)
    requires Healthy(caps, s, mtime)
    ensures Healthy(caps, Access(s, id, now).0, mtime)
    ensures Access(s, id, now).1.Some? <==> id in s.files
    ensures Access(s, id, now).0.files == s.files
  {
    var i := Find(s.index, id);
    assert id in s.files ==> HasEntry(s.index, id);
    if i >= 0 {
      assert Told(s, mtime, s.index[i]);
      var meta := s.index[i].meta.(lastAccess := now);
      TouchConsistent(s, i, meta, mtime);
      TotalUpdate(s.index, i, s.index[i].(meta := meta));
    }
  }

  /** A successful `put` is readable: the file holds these bytes and an immediate `get` returns them,
      even over a store whose files were lost or damaged behind its back. */
  lemma PutIsReadable(caps: Caps, s: Store, bytes: Bytes, mime: Option<Mime>, now: int, later: int)
    requires Distinct(s.index)
    ensures var (r, answer) := Put(caps, s, bytes, mime, now);
            answer.Stored? ==> answer.id == DigestOf(bytes) && Get(r, answer.id, later).1 == Content(bytes)
  {
    var id := DigestOf(bytes);
    var (r, answer) := Put(caps, s, bytes, mime, now);
    if answer.Stored? {
      var i := Find(s.index, id);
      if i >= 0 && FileMatches(s, id) {
        assert r.index[i].id == id;
      } else {
        WrittenStays(caps, s, bytes, mime.value, now);
      }
      GetFinds(r, id, later);
    }
  }

  lemma GetFinds(s: Store, id: Digest, now: int)
    requires HasEntry(s.index, id) && id in s.files
    ensures Get(s, id, now).1 == Content(s.files[id])
  {
  }

  /** A blob just written survives the eviction that makes room for it. */
  lemma WrittenStays(caps: Caps, s: Store, bytes: Bytes, mime: Mime, now: int)
    requires Distinct(s.index) && (caps.maxBytes > 0 ==> |bytes| <= caps.maxBytes)
    ensures var id := DigestOf(bytes);
            var r := EvictStore(caps, Written(s, bytes, mime, now), Some(id)).0;
            HasEntry(r.index, id) && id in r.files && r.files[id] == bytes
  {
    var id, z := DigestOf(bytes), Written(s, bytes, mime, now);
    var e := Evict(caps, z.index, Some(id));
    WrittenEvicts(caps, s, bytes, mime, now);
    EvictPartitions(caps, z.index, Some(id));
    EvictProtects(caps, z.index, Some(id));
    var last := Entry(id, Meta(mime, |bytes|, now));
    assert z.index[|z.index| - 1] == last;
    assert last in e.index;
    IdsOfHas(e.index, last);
    assert id !in IdsOf(e.removed);
  }

  // ---- restarts ----

  /** Indexes with the same entries, however ordered, are equally large. */
  lemma {:induction false} SameEntriesSameTotal(a: seq<Entry>, b: seq<Entry>)
    requires Distinct(a) && Distinct(b) && forall x :: x in a <==> x in b
    ensures |a| == |b| && TotalBytes(a) == TotalBytes(b)
    decreases |a|
  {
    assert b == [] || b[0] in a;
    if a != [] {
      var n := |a| - 1;
      assert a[n] in b;
      var i :| 0 <= i < |b| && b[i] == a[n];
      RemoveMembers(a, n);
      RemoveMembers(b, i);
      RemoveKeepsDistinct(a, n);
      RemoveKeepsDistinct(b, i);
      assert RemoveAt(a, n) == a[..n];
      SameEntriesSameTotal(a[..n], RemoveAt(b, i));
      TotalRemove(b, i);
    }
  }

  /** A restart loses nothing: reading the directory of a healthy store back, in any order, gives the
      same entries with the same recency, and evicts none. */
  lemma RestartKeepsEntries(caps: Caps, s: Store, mtime: Digest -> int, listing: seq<Digest>)
    requires Healthy(caps, s, mtime) && IsListing(s, listing)
    ensures var (r, ok) := Open(caps, s, mtime, listing);
            ok && r.files == s.files && r.sidecars == s.sidecars && forall x :: x in r.index <==> x in s.index
  {
    var index := Scan(s, mtime, listing);
    ScanConsistent(s, mtime, listing);
    forall x ensures x in index <==> x in s.index {
      SameEntry(s, mtime, listing, x);
    }
    SameEntriesSameTotal(index, s.index);
    EvictsNothing(caps, s.(index := index));
  }

  lemma EvictsNothing(caps: Caps, s: Store)
    requires !Over(caps, s.index)
    ensures EvictStore(caps, s, None) == (s, true)
  {
    assert IdsOf([]) == {};
    assert s.files - {} == s.files && s.sidecars - {} == s.sidecars;
  }

  lemma {:induction false} SameEntry(s: Store, mtime: Digest -> int, listing: seq<Digest>, x: Entry)
    requires Consistent(s, mtime) && IsListing(s, listing)
    ensures x in Scan(s, mtime, listing) <==> x in s.index
  {
    var index := Scan(s, mtime, listing);
    if x in index {
      var i :| 0 <= i < |index| && index[i] == x;
      assert index[i] == Recover(s, mtime, listing[i]);
      assert HasEntry(s.index, x.id);
      var j :| 0 <= j < |s.index| && s.index[j].id == x.id;
      assert Told(s, mtime, s.index[j]);
    }
    if x in s.index {
      var j :| 0 <= j < |s.index| && s.index[j] == x;
      assert Told(s, mtime, s.index[j]);
      var i :| 0 <= i < |listing| && listing[i] == x.id;
      assert index[i] == Recover(s, mtime, listing[i]);
    }
  }

  // ---- whole runs ----

  datatype Event =
    | PutEvent(bytes: Bytes, mime: Option<Mime>, now: int)
    | GetEvent(id: Digest, now: int)
    | InfoEvent(id: Digest, now: int)

  function Step(caps: Caps, s: Store, e: Event): (Store, Answer) {
    match e
    case PutEvent(bytes, mime, now) => Put(caps, s, bytes, mime, now)
    case GetEvent(id, now) => Get(s, id, now)
    case InfoEvent(id, now) => GetMetadata(s, id, now)
  }

  function Run(caps: Caps, s: Store, events: seq<Event>): Store
    decreases |events|
  {
    if events == [] then s else Run(caps, Step(caps, s, events[0]).0, events[1..])
  }

  lemma StepKeeps(caps: Caps, s: Store, e: Event, mtime: Digest -> int)
    requires Healthy(caps, s, mtime)
    ensures Healthy(caps, Step(caps, s, e).0, mtime) && !Step(caps, s, e).1.CapacityError?
  {
    match e
    case PutEvent(bytes, mime, now) => PutKeeps(caps, s, bytes, mime, now, mtime);
    case GetEvent(id, now) => AccessKeeps(caps, s, id, now, mtime);
    case InfoEvent(id, now) => AccessKeeps(caps, s, id, now, mtime);
  }

  lemma {:induction false} RunKeeps(caps: Caps, s: Store, events: seq<Event>, mtime: Digest -> int)
    requires Healthy(caps, s, mtime)
    ensures Healthy(caps, Run(caps, s, events), mtime)
    decreases |events|
  {
    if events != [] {
      StepKeeps(caps, s, events[0], mtime);
      RunKeeps(caps, Step(caps, s, events[0]).0, events[1..], mtime);
    }
  }

  /** From any directory, through any run of operations: both caps hold, the index has exactly one entry
      per blob file and tells what the disk tells, and no operation meets the capacity error. */
  lemma {:induction false} EveryRunIsHealthy(caps: Caps, disk: Store, mtime: Digest -> int, listing: seq<Digest>, events: seq<Event>, e: Event)
    requires IsListing(disk, listing)
    ensures var s := Run(caps, Open(caps, disk, mtime, listing).0, events);
            Healthy(caps, s, mtime) && !Step(caps, s, e).1.CapacityError?
  {
    OpenIsHealthy(caps, disk, mtime, listing);
    RunKeeps(caps, Open(caps, disk, mtime, listing).0, events, mtime);
    StepKeeps(caps, Run(caps, Open(caps, disk, mtime, listing).0, events), e, mtime);
  }

  lemma RemovedGrows(removed: seq<Entry>, gone: Entry, rest: seq<Entry>)
    ensures removed + ([gone] + rest) == (removed + [gone]) + rest
    ensures IdsOf(removed + [gone]) == IdsOf(removed) + {gone.id}
  {
    var more := removed + [gone];
    forall id ensures id in IdsOf(more) <==> id in IdsOf(removed) + {gone.id} {
      if id in IdsOf(removed) {
        var i :| 0 <= i < |removed| && removed[i].id == id;
        assert more[i].id == id;
      }
      assert more[|removed|] == gone;
    }
  }

  /** `removed` have gone so far on the way from `start` to the end of its eviction. */
  ghost predicate Midway(caps: Caps, start: Store, s: Store, kept: Option<Digest>, removed: seq<Entry>) {
    var whole, rest := Evict(caps, start.index, kept), Evict(caps, s.index, kept);
    && s.files == start.files - IdsOf(removed) && s.sidecars == start.sidecars - IdsOf(removed)
    && whole.index == rest.index && whole.ok == rest.ok && whole.removed == removed + rest.removed
  }

  lemma MidwayStarts(caps: Caps, s: Store, kept: Option<Digest>)
    ensures Midway(caps, s, s, kept, [])
  {
    assert IdsOf([]) == {};
    assert s.files - {} == s.files && s.sidecars - {} == s.sidecars;
    assert [] + Evict(caps, s.index, kept).removed == Evict(caps, s.index, kept).removed;
  }

  lemma {:induction false} MidwayContinues(caps: Caps, start: Store, s: Store, kept: Option<Digest>, removed: seq<Entry>)
    requires Midway(caps, start, s, kept, removed) && Over(caps, s.index) && Victim(s.index, kept).Some?
    ensures var v := Victim(s.index, kept).value;
            var gone := s.index[v];
            Midway(caps, start, Store(RemoveAt(s.index, v), s.files - {gone.id}, s.sidecars - {gone.id}), kept, removed + [gone])
  {
    var v := Victim(s.index, kept).value;
    RemovedGrows(removed, s.index[v], Evict(caps, RemoveAt(s.index, v), kept).removed);
    assert s.files - {s.index[v].id} == start.files - (IdsOf(removed) + {s.index[v].id});
    assert s.sidecars - {s.index[v].id} == start.sidecars - (IdsOf(removed) + {s.index[v].id});
  }

  lemma {:induction false} MidwayEnds(caps: Caps, start: Store, s: Store, kept: Option<Digest>, removed: seq<Entry>)
    requires Midway(caps, start, s, kept, removed) && (!Over(caps, s.index) || Victim(s.index, kept).None?)
    ensures EvictStore(caps, start, kept) == (s, !Over(caps, s.index))
  {
    assert Evict(caps, s.index, kept).removed == [];
    assert removed + [] == removed;
  }

  // ---- the object ----

  class BlobStore {
    const maxBytes: nat
    const maxEntries: nat
    var index: seq<Entry>
    // the directory
    var files: map<Digest, Bytes>
    var sidecars: map<Digest, Meta>

    ghost function Limits(): Caps
      reads this
    {
      Caps(maxBytes, maxEntries)
    }

    ghost function View(): Store
      reads this
    {
      Store(index, files, sidecars)
    }

    constructor (caps: Caps, disk: Store)
      ensures Limits() == caps && View() == disk
    {
      maxBytes, maxEntries := caps.maxBytes, caps.maxEntries;
      index, files, sidecars := disk.index, disk.files, disk.sidecars;
    }

    method Initialize(listing: seq<Digest>, mtime: Digest -> int) returns (ok: bool)
      requires forall i :: 0 <= i < |listing| ==> listing[i] in files
      modifies this
      ensures (View(), ok) == Open(Limits(), old(View()), mtime, listing)
    {
      index := [];
      for i := 0 to |listing|
        invariant files == old(files) && sidecars == old(sidecars)
        invariant index == Scan(old(View()), mtime, listing[..i])
      {
        var id := listing[i];
        var meta := Meta(Unknown, |files[id]|, mtime(id));
        if id in sidecars {
          meta := Meta(sidecars[id].mime, |files[id]|, sidecars[id].lastAccess);
        }
        index := index + [Entry(id, meta)];
        assert listing[..i + 1][..i] == listing[..i];
      }
      assert listing[..|listing|] == listing;
      ok := EvictUntilUnderCap(None);
    }

    method IsOverCap() returns (over: bool)
      ensures over == Over(Limits(), index)
    {
      if maxEntries > 0 && |index| > maxEntries {
        return true;
      }
      if maxBytes == 0 {
        return false;
      }
      var totalBytes := 0;
      for i := 0 to |index|
        invariant totalBytes == TotalBytes(index[..i])
      {
        totalBytes := totalBytes + index[i].meta.size;
        assert index[..i + 1][..i] == index[..i];
      }
      assert index[..|index|] == index;
      over := totalBytes > maxBytes;
    }

    method PickLeastRecentlyUsed(kept: Option<Digest>) returns (victim: Option<nat>)
      ensures victim == Victim(index, kept)
    {
      victim := None;
      for i := 0 to |index|
        invariant victim == Victim(index[..i], kept)
      {
        assert index[..i + 1][..i] == index[..i];
        if Some(index[i].id) != kept && (victim.None? || index[i].meta.lastAccess < index[victim.value].meta.lastAccess) {
          victim := Some(i);
        }
      }
      assert index[..|index|] == index;
    }

    method EvictUntilUnderCap(kept: Option<Digest>) returns (ok: bool)
      modifies this
      ensures (View(), ok) == EvictStore(Limits(), old(View()), kept)
    {
      ghost var removed: seq<Entry> := [];
      MidwayStarts(Limits(), View(), kept);
      while true
        invariant Midway(Limits(), old(View()), View(), kept, removed)
        decreases |index|
      {
        var over := IsOverCap();
        if !over {
          MidwayEnds(Limits(), old(View()), View(), kept, removed);
          return true;
        }
        var victim := PickLeastRecentlyUsed(kept);
        if victim.None? {
          MidwayEnds(Limits(), old(View()), View(), kept, removed);
          return false;
        }
        var gone := index[victim.value];
        MidwayContinues(Limits(), old(View()), View(), kept, removed);
        files := files - {gone.id};
        sidecars := sidecars - {gone.id};
        index := RemoveAt(index, victim.value);
        removed := removed + [gone];
      }
    }

    method PutBlob(bytes: Bytes, mime: Option<Mime>, now: int) returns (answer: Answer)
      modifies this
      ensures (View(), answer) == Put(Limits(), old(View()), bytes, mime, now)
    {
      if mime.None? {
        return BadMime;
      }
      if maxBytes > 0 && |bytes| > maxBytes {
        return TooLarge;
      }
      var id := DigestOf(bytes);
      var i := Find(index, id);
      if i >= 0 && id in files && DigestOf(files[id]) == id {
        var meta := index[i].meta.(lastAccess := now);
        if meta.mime == Unknown {
          meta := meta.(mime := mime.value);
        }
        index := index[i := index[i].(meta := meta)];
        sidecars := sidecars[id := meta];
        return Stored(id);
      }
      index := Delete(index, id);
      files := files[id := bytes];
      var meta := Meta(mime.value, |bytes|, now);
      index := index + [Entry(id, meta)];
      sidecars := sidecars[id := meta];
      var ok := EvictUntilUnderCap(Some(id));
      answer := if ok then Stored(id) else CapacityError;
    }

    method DropEntry(i: nat)
      requires i < |index|
      modifies this
      ensures View() == Store(RemoveAt(old(index), i), old(files), old(sidecars) - {old(index)[i].id})
    {
      sidecars := sidecars - {index[i].id};
      index := RemoveAt(index, i);
    }

    method SetMeta(i: nat, meta: Meta)
      requires i < |index|
      modifies this
      ensures View() == Touch(old(View()), i, meta)
    {
      sidecars := sidecars[index[i].id := meta];
      index := index[i := index[i].(meta := meta)];
    }

    method GetBlob(id: Digest, now: int) returns (answer: Answer)
      modifies this
      ensures (View(), answer) == Get(old(View()), id, now)
    {
      var i := Find(index, id);
      if i < 0 {
        return NotFound;
      }
      if id !in files {
        DropEntry(i);
        return NotFound;
      }
      SetMeta(i, index[i].meta.(lastAccess := now));
      answer := Content(files[id]);
    }

    method GetBlobMetadata(id: Digest, now: int) returns (answer: Answer)
      modifies this
      ensures (View(), answer) == GetMetadata(old(View()), id, now)
    {
      var i := Find(index, id);
      if i < 0 {
        return NotFound;
      }
      if id !in files {
        DropEntry(i);
        return NotFound;
      }
      var meta := index[i].meta;
      SetMeta(i, meta.(lastAccess := now));
      answer := Info(meta.mime, meta.size);
    }
  }
}
