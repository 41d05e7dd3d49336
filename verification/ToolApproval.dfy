/** Approval keys: the canonical text of a tool call, with object members sorted by key. */
module ToolApproval {
  import opened JsonText
  import opened Options

  /** `localeCompare`: negative, zero or positive. */
  type Comparer = (Text, Text) -> int

  ghost predicate Consistent(cmp: Comparer) {
    && (forall a :: cmp(a, a) == 0)
    && (forall a, b :: cmp(a, b) < 0 <==> cmp(b, a) > 0)
    && (forall a, b, c :: cmp(a, b) <= 0 && cmp(b, c) <= 0 ==> cmp(a, c) <= 0)
  }

  /** No two distinct keys compare as equal. */
  ghost predicate Separates(cmp: Comparer) {
    forall a, b :: a != b ==> cmp(a, b) != 0
  }

  function InsertEntry(cmp: Comparer, sorted: seq<Entry>, e: Entry): seq<Entry> {
    if sorted == [] || cmp(e.key, sorted[0].key) < 0 then [e] + sorted
    else [sorted[0]] + InsertEntry(cmp, sorted[1..], e)
  }

  /** The stable sort of the members by key. */
  function SortEntries(cmp: Comparer, entries: seq<Entry>): (sorted: seq<Entry>)
    ensures |sorted| == |entries|
  {
    if entries == [] then []
    else
      var front := SortEntries(cmp, entries[..|entries| - 1]);
      InsertEntryLength(cmp, front, entries[|entries| - 1]);
      InsertEntry(cmp, front, entries[|entries| - 1])
  }

  lemma {:induction false} InsertEntryLength(cmp: Comparer, sorted: seq<Entry>, e: Entry)
    ensures |InsertEntry(cmp, sorted, e)| == |sorted| + 1
  {
    if sorted != [] {
      InsertEntryLength(cmp, sorted[1..], e);
    }
  }

  lemma {:induction false} InsertEntryMembers(cmp: Comparer, sorted: seq<Entry>, e: Entry)
    ensures forall x :: x in InsertEntry(cmp, sorted, e) <==> x == e || x in sorted
  {
    if sorted != [] {
      InsertEntryMembers(cmp, sorted[1..], e);
      assert sorted == [sorted[0]] + sorted[1..];
    }
  }

  lemma {:induction false} SortEntriesMembers(cmp: Comparer, entries: seq<Entry>)
    ensures forall x :: x in SortEntries(cmp, entries) <==> x in entries
  {
    if entries != [] {
      var n := |entries| - 1;
      SortEntriesMembers(cmp, entries[..n]);
      InsertEntryMembers(cmp, SortEntries(cmp, entries[..n]), entries[n]);
      assert entries == entries[..n] + [entries[n]];
    }
  }

  // ---- canonical ----

  function Canonical(cmp: Comparer, v: Json): Text
    decreases v, 1, 0
  {
    match v
    case Arr(items) => [LBRACKET] + CanonicalItems(cmp, items, v) + [RBRACKET]
    case Obj(entries) =>
      SortEntriesMembers(cmp, entries);
      [LBRACE] + CanonicalEntries(cmp, SortEntries(cmp, entries), v) + [RBRACE]
    case _ => Print(v)
  }

  function CanonicalItems(cmp: Comparer, items: seq<Json>, ghost whole: Json): Text
    requires forall x :: x in items ==> x < whole
    decreases whole, 0, |items|
  {
    if items == [] then []
    else
      assert items[0] in items;
      assert forall x :: x in items[1..] ==> x in items;
      if |items| == 1 then Canonical(cmp, items[0])
      else Canonical(cmp, items[0]) + [COMMA] + CanonicalItems(cmp, items[1..], whole)
  }

  function CanonicalEntries(cmp: Comparer, entries: seq<Entry>, ghost whole: Json): Text
    requires forall e :: e in entries ==> e.value < whole
    decreases whole, 0, |entries|
  {
    if entries == [] then []
    else
      assert entries[0] in entries;
      var text := Quote(entries[0].key) + [COLON] + Canonical(cmp, entries[0].value);
      if |entries| == 1 then text else text + [COMMA] + CanonicalEntries(cmp, entries[1..], whole)
  }

  // ---- the value behind a JSON text: members have no order ----

  datatype Value =
    | NullValue
    | BoolValue(b: bool)
    | NumValue(number: NumberText)
    | StrValue(s: Text)
    | ListValue(items: seq<Value>)
    | RecordValue(members: map<Text, Value>)

  function Meaning(v: Json): Value
    decreases v
  {
    match v
    case Null => NullValue
    case Bool(b) => BoolValue(b)
    case Num(t) => NumValue(t)
    case Str(s) => StrValue(s)
    case Arr(items) => ListValue(Meanings(items))
    case Obj(entries) => RecordValue(Members(entries))
  }

  function Meanings(items: seq<Json>): (r: seq<Value>)
    ensures |r| == |items|
    decreases items
  {
    if items == [] then [] else [Meaning(items[0])] + Meanings(items[1..])
  }

  function Members(entries: seq<Entry>): map<Text, Value>
    decreases entries
  {
    if entries == [] then map[] else Members(entries[1..])[entries[0].key := Meaning(entries[0].value)]
  }

  ghost predicate DistinctKeys(entries: seq<Entry>) {
    forall i, j :: 0 <= i < j < |entries| ==> entries[i].key != entries[j].key
  }

  /** Objects have no repeated keys, at any depth. */
  ghost predicate WellFormed(v: Json)
    decreases v
  {
    match v
    case Arr(items) => forall i :: 0 <= i < |items| ==> WellFormed(items[i])
    case Obj(entries) => DistinctKeys(entries) && forall i :: 0 <= i < |entries| ==> WellFormed(entries[i].value)
    case _ => true
  }

  // ---- canonical text is the printed text of the sorted value ----

  function Sorted(cmp: Comparer, v: Json): Json
    decreases v
  {
    match v
    case Arr(items) => Arr(SortedItems(cmp, items))
    case Obj(entries) => Obj(SortEntries(cmp, SortedValues(cmp, entries)))
    case _ => v
  }

  function SortedItems(cmp: Comparer, items: seq<Json>): (r: seq<Json>)
    ensures |r| == |items| && forall i :: 0 <= i < |items| ==> r[i] == Sorted(cmp, items[i])
    decreases items
  {
    if items == [] then [] else [Sorted(cmp, items[0])] + SortedItems(cmp, items[1..])
  }

  function SortedValues(cmp: Comparer, entries: seq<Entry>): (r: seq<Entry>)
    ensures |r| == |entries|
    ensures forall i :: 0 <= i < |entries| ==> r[i] == Entry(entries[i].key, Sorted(cmp, entries[i].value))
    decreases entries
  {
    if entries == [] then []
    else [Entry(entries[0].key, Sorted(cmp, entries[0].value))] + SortedValues(cmp, entries[1..])
  }

  lemma {:induction false} InsertCommutes(cmp: Comparer, sorted: seq<Entry>, e: Entry)
    ensures InsertEntry(cmp, SortedValues(cmp, sorted), Entry(e.key, Sorted(cmp, e.value)))
         == SortedValues(cmp, InsertEntry(cmp, sorted, e))
  {
    if sorted != [] {
      InsertCommutes(cmp, sorted[1..], e);
      assert SortedValues(cmp, sorted)[1..] == SortedValues(cmp, sorted[1..]);
    }
  }

  lemma {:induction false} SortCommutes(cmp: Comparer, entries: seq<Entry>)
    ensures SortEntries(cmp, SortedValues(cmp, entries)) == SortedValues(cmp, SortEntries(cmp, entries))
  {
    if entries != [] {
      var n := |entries| - 1;
      SortCommutes(cmp, entries[..n]);
      assert SortedValues(cmp, entries)[..n] == SortedValues(cmp, entries[..n]);
      InsertCommutes(cmp, SortEntries(cmp, entries[..n]), entries[n]);
    }
  }

  lemma {:induction false} CanonicalIsPrint(cmp: Comparer, v: Json)
    ensures Canonical(cmp, v) == Print(Sorted(cmp, v))
    decreases v, 1, 0
  {
    match v
    case Arr(items) => CanonicalItemsPrint(cmp, items, v);
    case Obj(entries) =>
      SortEntriesMembers(cmp, entries);
      CanonicalEntriesPrint(cmp, SortEntries(cmp, entries), v);
      SortCommutes(cmp, entries);
    case _ =>
  }

  lemma {:induction false} CanonicalItemsPrint(cmp: Comparer, items: seq<Json>, whole: Json)
    requires forall x :: x in items ==> x < whole
    ensures CanonicalItems(cmp, items, whole) == PrintItems(SortedItems(cmp, items))
    decreases whole, 0, |items|
  {
    if items != [] {
      assert items[0] in items;
      assert forall x :: x in items[1..] ==> x in items;
      CanonicalIsPrint(cmp, items[0]);
      CanonicalItemsPrint(cmp, items[1..], whole);
      assert SortedItems(cmp, items)[1..] == SortedItems(cmp, items[1..]);
    }
  }

  lemma {:induction false} CanonicalEntriesPrint(cmp: Comparer, entries: seq<Entry>, whole: Json)
    requires forall e :: e in entries ==> e.value < whole
    ensures CanonicalEntries(cmp, entries, whole) == PrintEntries(SortedValues(cmp, entries))
    decreases whole, 0, |entries|
  {
    if entries != [] {
      assert entries[0] in entries;
      CanonicalIsPrint(cmp, entries[0].value);
      CanonicalEntriesPrint(cmp, entries[1..], whole);
      assert SortedValues(cmp, entries)[1..] == SortedValues(cmp, entries[1..]);
    }
  }

  // ---- sorting keeps the meaning ----

  lemma {:induction false} MembersAre(entries: seq<Entry>)
    requires DistinctKeys(entries)
    ensures forall i :: 0 <= i < |entries| ==> entries[i].key in Members(entries) && Members(entries)[entries[i].key] == Meaning(entries[i].value)
    ensures forall k :: k in Members(entries) ==> exists i :: 0 <= i < |entries| && entries[i].key == k
  {
    if entries != [] {
      var tail := entries[1..];
      MembersAre(tail);
      forall k | k in Members(entries) ensures exists i :: 0 <= i < |entries| && entries[i].key == k {
        if k != entries[0].key {
          var i :| 0 <= i < |tail| && tail[i].key == k;
          assert entries[i + 1].key == k;
        }
      }
      forall i | 0 <= i < |entries|
        ensures entries[i].key in Members(entries) && Members(entries)[entries[i].key] == Meaning(entries[i].value)
      {
        if i > 0 {
          assert entries[i] == tail[i - 1];
        }
      }
    }
  }

  /** Lists with the same entries and no repeated key have the same members. */
  lemma {:induction false} SameEntriesSameMembers(a: seq<Entry>, b: seq<Entry>)
    requires DistinctKeys(a) && DistinctKeys(b) && forall e :: e in a <==> e in b
    ensures Members(a) == Members(b)
  {
    MembersAre(a);
    MembersAre(b);
    forall k ensures k in Members(a) <==> k in Members(b) {
      if k in Members(a) {
        var i :| 0 <= i < |a| && a[i].key == k;
        assert a[i] in b;
      }
      if k in Members(b) {
        var i :| 0 <= i < |b| && b[i].key == k;
        assert b[i] in a;
      }
    }
    forall k | k in Members(a) ensures Members(a)[k] == Members(b)[k] {
      var i :| 0 <= i < |a| && a[i].key == k;
      assert a[i] in b;
      var j :| 0 <= j < |b| && b[j] == a[i];
    }
  }

  lemma {:induction false} InsertKeepsDistinct(cmp: Comparer, sorted: seq<Entry>, e: Entry)
    requires DistinctKeys(sorted) && forall x :: x in sorted ==> x.key != e.key
    ensures DistinctKeys(InsertEntry(cmp, sorted, e))
  {
    if sorted != [] {
      assert sorted == [sorted[0]] + sorted[1..];
      InsertKeepsDistinct(cmp, sorted[1..], e);
      InsertEntryMembers(cmp, sorted[1..], e);
      assert sorted[0] in sorted;
      forall x | x in InsertEntry(cmp, sorted[1..], e) ensures x.key != sorted[0].key {
        if x in sorted[1..] {
          var j :| 0 <= j < |sorted| - 1 && sorted[1..][j] == x;
          assert sorted[j + 1] == x;
        }
      }
    }
  }

  lemma {:induction false} SortKeepsDistinct(cmp: Comparer, entries: seq<Entry>)
    requires DistinctKeys(entries)
    ensures DistinctKeys(SortEntries(cmp, entries))
  {
    if entries != [] {
      var n := |entries| - 1;
      SortKeepsDistinct(cmp, entries[..n]);
      SortEntriesMembers(cmp, entries[..n]);
      InsertKeepsDistinct(cmp, SortEntries(cmp, entries[..n]), entries[n]);
    }
  }

  lemma {:induction false} SortedMeaning(cmp: Comparer, v: Json)
    requires WellFormed(v)
    ensures Meaning(Sorted(cmp, v)) == Meaning(v)
    decreases v, 1
  {
    match v
    case Arr(items) => SortedMeanings(cmp, items);
    case Obj(entries) =>
      SortedMembers(cmp, entries);
      var values := SortedValues(cmp, entries);
      assert DistinctKeys(values);
      SortKeepsDistinct(cmp, values);
      SortEntriesMembers(cmp, values);
      SameEntriesSameMembers(SortEntries(cmp, values), values);
    case _ =>
  }

  lemma {:induction false} SortedMeanings(cmp: Comparer, items: seq<Json>)
    requires forall i :: 0 <= i < |items| ==> WellFormed(items[i])
    ensures Meanings(SortedItems(cmp, items)) == Meanings(items)
    decreases items, 0
  {
    if items != [] {
      SortedMeaning(cmp, items[0]);
      SortedMeanings(cmp, items[1..]);
      assert SortedItems(cmp, items)[1..] == SortedItems(cmp, items[1..]);
    }
  }

  lemma {:induction false} SortedMembers(cmp: Comparer, entries: seq<Entry>)
    requires forall i :: 0 <= i < |entries| ==> WellFormed(entries[i].value)
    ensures Members(SortedValues(cmp, entries)) == Members(entries)
    decreases entries, 0
  {
    if entries != [] {
      SortedMeaning(cmp, entries[0].value);
      SortedMembers(cmp, entries[1..]);
      assert SortedValues(cmp, entries)[1..] == SortedValues(cmp, entries[1..]);
    }
  }

  /** Nothing is lost: two values with the same canonical text are equal up to member order,
      whatever the comparison. */
  lemma {:induction false} CanonicalLossless(cmp: Comparer, v: Json, w: Json)
    requires WellFormed(v) && WellFormed(w) && Canonical(cmp, v) == Canonical(cmp, w)
    ensures Meaning(v) == Meaning(w)
  {
    CanonicalIsPrint(cmp, v);
    CanonicalIsPrint(cmp, w);
    PrintInjective(Sorted(cmp, v), Sorted(cmp, w));
    SortedMeaning(cmp, v);
    SortedMeaning(cmp, w);
  }

  // ---- member order does not matter, exactly when the comparison separates keys ----

  ghost predicate Ascending(cmp: Comparer, entries: seq<Entry>) {
    forall i, j :: 0 <= i < j < |entries| ==> cmp(entries[i].key, entries[j].key) < 0
  }

  lemma ConsAscends(cmp: Comparer, first: Entry, tail: seq<Entry>)
    requires Ascending(cmp, tail) && forall x :: x in tail ==> cmp(first.key, x.key) < 0
    ensures Ascending(cmp, [first] + tail)
  {
  }

  lemma FirstIsBelow(cmp: Comparer, sorted: seq<Entry>)
    requires Ascending(cmp, sorted) && sorted != []
    ensures Ascending(cmp, sorted[1..]) && forall x :: x in sorted[1..] ==> cmp(sorted[0].key, x.key) < 0
  {
  }

  lemma {:induction false} InsertAscends(cmp: Comparer, sorted: seq<Entry>, e: Entry)
    requires Consistent(cmp) && Separates(cmp) && Ascending(cmp, sorted)
    requires forall x :: x in sorted ==> x.key != e.key
    ensures Ascending(cmp, InsertEntry(cmp, sorted, e))
  {
    if sorted == [] {
      ConsAscends(cmp, e, []);
    } else {
      var first, tail := sorted[0], sorted[1..];
      assert first in sorted && sorted == [first] + tail;
      FirstIsBelow(cmp, sorted);
      if cmp(e.key, first.key) < 0 {
        forall x | x in sorted ensures cmp(e.key, x.key) < 0 {
          if x in tail {
            Below(cmp, e.key, first.key, x.key);
          }
        }
        ConsAscends(cmp, e, sorted);
      } else {
        assert cmp(first.key, e.key) < 0;
        InsertAscends(cmp, tail, e);
        InsertEntryMembers(cmp, tail, e);
        ConsAscends(cmp, first, InsertEntry(cmp, tail, e));
      }
    }
  }

  lemma Below(cmp: Comparer, a: Text, b: Text, c: Text)
    requires Consistent(cmp) && Separates(cmp) && cmp(a, b) < 0 && cmp(b, c) < 0
    ensures cmp(a, c) < 0
  {
    assert cmp(a, c) <= 0;
    if a == c {
      assert cmp(b, a) > 0;
    }
  }

  lemma {:induction false} SortAscends(cmp: Comparer, entries: seq<Entry>)
    requires Consistent(cmp) && Separates(cmp) && DistinctKeys(entries)
    ensures Ascending(cmp, SortEntries(cmp, entries))
  {
    if entries != [] {
      var n := |entries| - 1;
      SortAscends(cmp, entries[..n]);
      SortEntriesMembers(cmp, entries[..n]);
      InsertAscends(cmp, SortEntries(cmp, entries[..n]), entries[n]);
    }
  }

  lemma {:induction false} AscendingUnique(cmp: Comparer, a: seq<Entry>, b: seq<Entry>)
    requires Consistent(cmp) && Ascending(cmp, a) && Ascending(cmp, b) && forall e :: e in a <==> e in b
    ensures a == b
  {
    if |a| > 0 {
      assert a[0] in a;
    }
    if |b| > 0 {
      assert b[0] in b;
    }
    if a != [] {
      FirstIsSame(cmp, a, b);
      TailMembers(cmp, a);
      TailMembers(cmp, b);
      AscendingUnique(cmp, a[1..], b[1..]);
      assert a == [a[0]] + a[1..] && b == [b[0]] + b[1..];
    }
  }

  lemma TailMembers(cmp: Comparer, a: seq<Entry>)
    requires Consistent(cmp) && Ascending(cmp, a) && a != []
    ensures Ascending(cmp, a[1..]) && forall e :: e in a[1..] <==> e in a && e != a[0]
  {
    FirstIsOnce(cmp, a);
    assert a == [a[0]] + a[1..];
  }

  lemma FirstIsOnce(cmp: Comparer, a: seq<Entry>)
    requires Consistent(cmp) && Ascending(cmp, a) && a != []
    ensures a[0] !in a[1..]
  {
    forall j | 0 <= j < |a| - 1 ensures a[1..][j] != a[0] {
      assert cmp(a[0].key, a[j + 1].key) < 0;
    }
  }

  lemma FirstIsSame(cmp: Comparer, a: seq<Entry>, b: seq<Entry>)
    requires Consistent(cmp) && Ascending(cmp, a) && Ascending(cmp, b) && a != [] && b != []
    requires a[0] in b && b[0] in a
    ensures a[0] == b[0]
  {
    var j :| 0 <= j < |b| && b[j] == a[0];
    var i :| 0 <= i < |a| && a[i] == b[0];
  }

  lemma {:induction false} MeaningsAt(items: seq<Json>, i: nat)
    requires i < |items|
    ensures Meanings(items)[i] == Meaning(items[i])
  {
    if i > 0 {
      MeaningsAt(items[1..], i - 1);
    }
  }

  lemma {:induction false} SortedSame(cmp: Comparer, v: Json, w: Json)
    requires Consistent(cmp) && Separates(cmp) && WellFormed(v) && WellFormed(w) && Meaning(v) == Meaning(w)
    ensures Sorted(cmp, v) == Sorted(cmp, w)
    decreases v
  {
    match v
    case Arr(a) =>
      var b := w.items;
      assert |a| == |b|;
      forall i | 0 <= i < |a| ensures Sorted(cmp, a[i]) == Sorted(cmp, b[i]) {
        MeaningsAt(a, i);
        MeaningsAt(b, i);
        SortedSame(cmp, a[i], b[i]);
      }
    case Obj(a) =>
      var b := w.entries;
      var x, y := SortedValues(cmp, a), SortedValues(cmp, b);
      MembersAre(a);
      MembersAre(b);
      forall i, j | 0 <= i < |a| && 0 <= j < |b| && a[i].key == b[j].key ensures x[i] == y[j] {
        SortedSame(cmp, a[i].value, b[j].value);
      }
      SameEntries(a, b, x, y);
      assert DistinctKeys(x) && DistinctKeys(y);
      SortAscends(cmp, x);
      SortAscends(cmp, y);
      SortEntriesMembers(cmp, x);
      SortEntriesMembers(cmp, y);
      AscendingUnique(cmp, SortEntries(cmp, x), SortEntries(cmp, y));
    case _ =>
  }

  lemma {:induction false} EntriesInclude(a: seq<Entry>, b: seq<Entry>, x: seq<Entry>, y: seq<Entry>)
    requires DistinctKeys(a) && DistinctKeys(b) && Members(a) == Members(b) && |x| == |a| && |y| == |b|
    requires forall i, j :: 0 <= i < |a| && 0 <= j < |b| && a[i].key == b[j].key ==> x[i] == y[j]
    ensures forall e :: e in x ==> e in y
  {
    forall e | e in x ensures e in y {
      var i :| 0 <= i < |x| && x[i] == e;
      var j := SameKeyAt(a, b, i);
      assert y[j] == e;
    }
  }

  lemma SameKeyAt(a: seq<Entry>, b: seq<Entry>, i: nat) returns (j: nat)
    requires DistinctKeys(a) && DistinctKeys(b) && Members(a) == Members(b) && i < |a|
    ensures j < |b| && b[j].key == a[i].key
  {
    MembersAre(a);
    MembersAre(b);
    assert a[i].key in Members(b);
    j :| 0 <= j < |b| && b[j].key == a[i].key;
  }

  lemma {:induction false} SameEntries(a: seq<Entry>, b: seq<Entry>, x: seq<Entry>, y: seq<Entry>)
    requires DistinctKeys(a) && DistinctKeys(b) && Members(a) == Members(b) && |x| == |a| && |y| == |b|
    requires forall i, j :: 0 <= i < |a| && 0 <= j < |b| && a[i].key == b[j].key ==> x[i] == y[j]
    ensures forall e :: e in x <==> e in y
  {
    EntriesInclude(a, b, x, y);
    EntriesInclude(b, a, y, x);
  }

  /** Two keys that compare as equal keep the order they came in, and so give two texts. */
  lemma TiedKeysKeepOrder(cmp: Comparer, j: Text, k: Text)
    requires Consistent(cmp) && j != k && cmp(j, k) == 0
    ensures var v, w := Obj([Entry(j, Null), Entry(k, Null)]), Obj([Entry(k, Null), Entry(j, Null)]);
            WellFormed(v) && WellFormed(w) && Meaning(v) == Meaning(w) && Canonical(cmp, v) != Canonical(cmp, w)
  {
    var e, f := Entry(j, Null), Entry(k, Null);
    var v, w := Obj([e, f]), Obj([f, e]);
    assert cmp(k, j) == 0;
    TwoStay(cmp, e, f);
    TwoStay(cmp, f, e);
    CanonicalIsPrint(cmp, v);
    CanonicalIsPrint(cmp, w);
    assert Sorted(cmp, v) == v && Sorted(cmp, w) == w by {
      assert SortedValues(cmp, [e, f]) == [e, f];
      assert SortedValues(cmp, [f, e]) == [f, e];
    }
    assert v != w by {
      assert v.entries[0] != w.entries[0];
    }
    if Canonical(cmp, v) == Canonical(cmp, w) {
      PrintInjective(v, w);
    }
    assert DistinctKeys([e, f]) && DistinctKeys([f, e]);
    SameEntriesSameMembers([e, f], [f, e]);
  }

  lemma TwoStay(cmp: Comparer, e: Entry, f: Entry)
    requires cmp(f.key, e.key) >= 0
    ensures SortEntries(cmp, [e, f]) == [e, f]
  {
    assert [e, f][..1] == [e] && [e][..0] == [];
    assert SortEntries(cmp, [e]) == InsertEntry(cmp, [], e) == [e];
    assert InsertEntry(cmp, [e], f) == [e] + InsertEntry(cmp, [], f);
  }

  /** Member order never changes the text, exactly when distinct keys never compare as equal. */
  lemma OrderFreeExactly(cmp: Comparer)
    requires Consistent(cmp)
    ensures Separates(cmp) <==>
            forall v, w :: WellFormed(v) && WellFormed(w) && Meaning(v) == Meaning(w) ==> Canonical(cmp, v) == Canonical(cmp, w)
  {
    if Separates(cmp) {
      forall v, w | WellFormed(v) && WellFormed(w) && Meaning(v) == Meaning(w)
        ensures Canonical(cmp, v) == Canonical(cmp, w)
      {
        SortedSame(cmp, v, w);
        CanonicalIsPrint(cmp, v);
        CanonicalIsPrint(cmp, w);
      }
    } else {
      var j, k :| j != k && cmp(j, k) == 0;
      TiedKeysKeepOrder(cmp, j, k);
    }
  }

  // ---- the action key ----

  /** What toolApprovalActionKey hashes: the tool's name, a NUL, the canonical input. */
  function ActionText(cmp: Comparer, toolName: Text, input: Json): Text {
    toolName + [0] + Canonical(cmp, input)
  }

  /** The hashed text determines the tool, and the input up to member order. */
  lemma {:induction false} ActionTextDetermines(cmp: Comparer, a: Text, v: Json, b: Text, w: Json)
    requires 0 !in a && 0 !in b && WellFormed(v) && WellFormed(w)
    requires ActionText(cmp, a, v) == ActionText(cmp, b, w)
    ensures a == b && Meaning(v) == Meaning(w)
  {
    var x, y := ActionText(cmp, a, v), ActionText(cmp, b, w);
    assert x[|a|] == 0 && y[|b|] == 0;
    assert forall i :: 0 <= i < |a| ==> x[i] == a[i];
    assert forall i :: 0 <= i < |b| ==> y[i] == b[i];
    assert |a| == |b|;
    assert a == x[..|a|] && b == y[..|b|];
    assert Canonical(cmp, v) == x[|a| + 1..] && Canonical(cmp, w) == y[|b| + 1..];
    CanonicalLossless(cmp, v, w);
  }

  // ---- the approval store ----

  type Time = int

  const TTL_MS := 10 * 60_000

  datatype Pending = Pending(sessionId: string, actionKey: string, description: string, expiresAt: Time)

  // hexadecimal SHA-256
  const DIGEST_LENGTH := 64

  /** The key under which an approved action of a session is kept. */
  function ApprovedKey(sessionId: string, actionKey: string): string {
    sessionId + [':'] + actionKey
  }

  /** It tells session and action apart, whatever the session id contains, so the pair may stand for it. */
  lemma ApprovedKeyInjective(a: string, k: string, b: string, l: string)
    requires |k| == |l| == DIGEST_LENGTH && ApprovedKey(a, k) == ApprovedKey(b, l)
    ensures a == b && k == l
  {
    var s := ApprovedKey(a, k);
    assert |a| == |b|;
    assert a == s[..|a|] == b;
    assert k == s[|a| + 1..] == l;
  }

  /** `approved` is kept by session and action. */
  datatype Approvals = Approvals(pending: map<string, Pending>, approved: map<(string, string), Time>)

  const NONE := Approvals(map[], map[])

  datatype Call =
    | Request(sessionId: string, actionKey: string, description: string, token: string)
    | Approve(sessionId: string, token: string)
    | Reject(sessionId: string, token: string)
    | Consume(sessionId: string, actionKey: string)
    | Clear

  /** Expired entries go first, on every call. */
  function Prune(s: Approvals, now: Time): Approvals {
    Approvals(map t | t in s.pending && s.pending[t].expiresAt > now :: s.pending[t],
              map k | k in s.approved && s.approved[k] > now :: s.approved[k])
  }

  ghost predicate Asked(s: Approvals, sessionId: string, actionKey: string) {
    exists t :: t in s.pending && s.pending[t].sessionId == sessionId && s.pending[t].actionKey == actionKey
  }

  predicate TokenIsOf(s: Approvals, sessionId: string, token: string) {
    token in s.pending && s.pending[token].sessionId == sessionId
  }

  /** One call at a time `now`; the result says whether it succeeded. A request succeeds always. */
  ghost function Act(s: Approvals, call: Call, now: Time, ttl: int): (Approvals, bool) {
    var p := Prune(s, now);
    match call
    case Request(session, key, description, token) =>
      if Asked(p, session, key) then (p, true)
      else (p.(pending := p.pending[token := Pending(session, key, description, now + ttl)]), true)
    case Approve(session, token) =>
      if !TokenIsOf(p, session, token) then (p, false)
      else
        var a := p.pending[token];
        (Approvals(p.pending - {token}, p.approved[(session, a.actionKey) := a.expiresAt]), true)
    case Reject(session, token) =>
      if !TokenIsOf(p, session, token) then (p, false) else (p.(pending := p.pending - {token}), true)
    case Consume(session, key) =>
      if (session, key) !in p.approved then (p, false)
      else (p.(approved := p.approved - {(session, key)}), true)
    case Clear => (NONE, true)
  }

  /** How many calls of a run approved, or consumed, one action of one session. */
  ghost function ApprovedTimes(s: Approvals, calls: seq<(Call, Time)>, ttl: int, session: string, key: string): nat
    decreases |calls|
  {
    if calls == [] then 0 else
    var (c, now) := calls[0];
    var next := Act(s, c, now, ttl);
    (if c.Approve? && next.1 && c.sessionId == session && Prune(s, now).pending[c.token].actionKey == key then 1 else 0)
    + ApprovedTimes(next.0, calls[1..], ttl, session, key)
  }

  ghost function Consumptions(s: Approvals, calls: seq<(Call, Time)>, ttl: int, session: string, key: string): nat
    decreases |calls|
  {
    if calls == [] then 0 else
    var (c, now) := calls[0];
    var next := Act(s, c, now, ttl);
    (if c == Consume(session, key) && next.1 then 1 else 0) + Consumptions(next.0, calls[1..], ttl, session, key)
  }

  /** An approval is good for one use: in every run an action of a session is let through at most as
      often as that session approved it. */
  lemma {:induction false} ApprovalsAreOneShot(s: Approvals, calls: seq<(Call, Time)>, ttl: int, session: string, key: string)
    ensures Consumptions(s, calls, ttl, session, key)
            <= ApprovedTimes(s, calls, ttl, session, key) + if (session, key) in s.approved then 1 else 0
    decreases |calls|
  {
    if calls != [] {
      var (c, now) := calls[0];
      ApprovalsAreOneShot(Act(s, c, now, ttl).0, calls[1..], ttl, session, key);
    }
  }

  /** The store after a history of calls. */
  ghost function AfterCalls(calls: seq<(Call, Time)>, ttl: int): Approvals {
    if calls == [] then NONE
    else Act(AfterCalls(calls[..|calls| - 1], ttl), calls[|calls| - 1].0, calls[|calls| - 1].1, ttl).0
  }

  /** The session asked for this action at the time from which this expiry counts. */
  ghost predicate RequestedFor(calls: seq<(Call, Time)>, session: string, key: string, expiresAt: Time, ttl: int) {
    exists i :: 0 <= i < |calls| && calls[i].0.Request? && calls[i].0.sessionId == session && calls[i].0.actionKey == key
                && calls[i].1 + ttl == expiresAt
  }

  ghost predicate AllRequested(s: Approvals, calls: seq<(Call, Time)>, ttl: int) {
    && (forall t :: t in s.pending ==> RequestedFor(calls, s.pending[t].sessionId, s.pending[t].actionKey, s.pending[t].expiresAt, ttl))
    && (forall k :: k in s.approved ==> RequestedFor(calls, k.0, k.1, s.approved[k], ttl))
  }

  lemma RequestedSnoc(calls: seq<(Call, Time)>, last: (Call, Time), session: string, key: string, expiresAt: Time, ttl: int)
    requires RequestedFor(calls, session, key, expiresAt, ttl)
    ensures RequestedFor(calls + [last], session, key, expiresAt, ttl)
  {
    var i :| 0 <= i < |calls| && calls[i].0.Request? && calls[i].0.sessionId == session && calls[i].0.actionKey == key
             && calls[i].1 + ttl == expiresAt;
    assert (calls + [last])[i] == calls[i];
  }

  lemma StillRequested(s: Approvals, calls: seq<(Call, Time)>, last: (Call, Time), ttl: int)
    requires AllRequested(s, calls, ttl)
    ensures AllRequested(s, calls + [last], ttl)
  {
    forall t | t in s.pending
      ensures RequestedFor(calls + [last], s.pending[t].sessionId, s.pending[t].actionKey, s.pending[t].expiresAt, ttl)
    {
      RequestedSnoc(calls, last, s.pending[t].sessionId, s.pending[t].actionKey, s.pending[t].expiresAt, ttl);
    }
    forall k | k in s.approved ensures RequestedFor(calls + [last], k.0, k.1, s.approved[k], ttl) {
      RequestedSnoc(calls, last, k.0, k.1, s.approved[k], ttl);
    }
  }

  lemma PruneRequested(s: Approvals, calls: seq<(Call, Time)>, now: Time, ttl: int)
    requires AllRequested(s, calls, ttl)
    ensures AllRequested(Prune(s, now), calls, ttl)
  {
  }

  lemma ActRequested(s: Approvals, calls: seq<(Call, Time)>, last: (Call, Time), ttl: int)
    requires AllRequested(s, calls, ttl)
    ensures AllRequested(Act(s, last.0, last.1, ttl).0, calls + [last], ttl)
  {
    var p := Prune(s, last.1);
    StillRequested(s, calls, last, ttl);
    PruneRequested(s, calls + [last], last.1, ttl);
    match last.0
    case Request(session, key, description, token) =>
      assert (calls + [last])[|calls|] == last;
      assert RequestedFor(calls + [last], session, key, last.1 + ttl, ttl);
    case Approve(session, token) =>
      if TokenIsOf(p, session, token) {
        assert RequestedFor(calls + [last], session, p.pending[token].actionKey, p.pending[token].expiresAt, ttl);
      }
    case Reject(session, token) =>
    case Consume(session, key) =>
    case Clear =>
  }

  lemma {:induction false} HistoryRequested(calls: seq<(Call, Time)>, ttl: int)
    ensures AllRequested(AfterCalls(calls, ttl), calls, ttl)
  {
    if calls != [] {
      var n := |calls| - 1;
      HistoryRequested(calls[..n], ttl);
      ActRequested(AfterCalls(calls[..n], ttl), calls[..n], calls[n], ttl);
      assert calls[..n] + [calls[n]] == calls;
    }
  }

  /** Nothing is let through that the session did not ask for, nor once `ttl` has passed since it asked. */
  lemma {:induction false} ConsumedInTime(calls: seq<(Call, Time)>, ttl: int, session: string, key: string, now: Time)
    requires Act(AfterCalls(calls, ttl), Consume(session, key), now, ttl).1
    ensures exists i :: 0 <= i < |calls| && calls[i].0.Request? && calls[i].0.sessionId == session && calls[i].0.actionKey == key
                        && now < calls[i].1 + ttl
  {
    HistoryRequested(calls, ttl);
    var expiresAt := AfterCalls(calls, ttl).approved[(session, key)];
    assert RequestedFor(calls, session, key, expiresAt, ttl);
    var i :| 0 <= i < |calls| && calls[i].0.Request? && calls[i].0.sessionId == session && calls[i].0.actionKey == key
             && calls[i].1 + ttl == expiresAt;
  }

  // ---- the object ----

  class ToolApprovalStore {
    const ttlMs: int
    var pending: map<string, Pending>
    var approved: map<(string, string), Time>

    ghost function View(): Approvals
      reads this
    {
      Approvals(pending, approved)
    }

    constructor (ttlMs: int := TTL_MS)
      ensures View() == NONE && this.ttlMs == ttlMs
    {
      this.ttlMs := ttlMs;
      pending, approved := map[], map[];
    }

    method PruneExpired(now: Time)
      modifies this
      ensures View() == Prune(old(View()), now)
    {
      pending := map t | t in pending && pending[t].expiresAt > now :: pending[t];
      approved := map k | k in approved && approved[k] > now :: approved[k];
    }

    /** The token of a pending request for this action, if there is one. */
    method FindPending(sessionId: string, actionKey: string) returns (found: Option<string>)
      ensures found.Some? <==> Asked(View(), sessionId, actionKey)
      ensures found.Some? ==> TokenIsOf(View(), sessionId, found.value) && pending[found.value].actionKey == actionKey
    {
      var tokens := pending.Keys;
      while tokens != {}
        invariant tokens <= pending.Keys
        invariant forall t :: t in pending && t !in tokens ==> !(pending[t].sessionId == sessionId && pending[t].actionKey == actionKey)
        decreases |tokens|
      {
        var t :| t in tokens;
        if pending[t].sessionId == sessionId && pending[t].actionKey == actionKey {
          return Some(t);
        }
        tokens := tokens - {t};
      }
      return None;
    }

    method RequestApproval(sessionId: string, actionKey: string, description: string, newToken: string, now: Time) returns (token: string)
      modifies this
      ensures View() == Act(old(View()), Request(sessionId, actionKey, description, newToken), now, ttlMs).0
      ensures TokenIsOf(View(), sessionId, token) && pending[token].actionKey == actionKey
    {
      PruneExpired(now);
      var found := FindPending(sessionId, actionKey);
      if found.Some? {
        return found.value;
      }
      token := newToken;
      pending := pending[token := Pending(sessionId, actionKey, description, now + ttlMs)];
    }

    method ApproveToken(sessionId: string, token: string, now: Time) returns (ok: bool)
      modifies this
      ensures (View(), ok) == Act(old(View()), Approve(sessionId, token), now, ttlMs)
    {
      PruneExpired(now);
      if token !in pending || pending[token].sessionId != sessionId {
        return false;
      }
      var request := pending[token];
      pending := pending - {token};
      approved := approved[(sessionId, request.actionKey) := request.expiresAt];
      return true;
    }

    method RejectToken(sessionId: string, token: string, now: Time) returns (ok: bool)
      modifies this
      ensures (View(), ok) == Act(old(View()), Reject(sessionId, token), now, ttlMs)
    {
      PruneExpired(now);
      if token !in pending || pending[token].sessionId != sessionId {
        return false;
      }
      pending := pending - {token};
      return true;
    }

    method ConsumeAction(sessionId: string, actionKey: string, now: Time) returns (ok: bool)
      modifies this
      ensures (View(), ok) == Act(old(View()), Consume(sessionId, actionKey), now, ttlMs)
    {
      PruneExpired(now);
      if (sessionId, actionKey) !in approved {
        return false;
      }
      approved := approved - {(sessionId, actionKey)};
      return true;
    }

    method ClearAll()
      modifies this
      ensures View() == NONE
    {
      pending, approved := map[], map[];
    }
  }
}
