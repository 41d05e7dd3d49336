/** Stored runs and their order: by creation time, then by id. */
module RunRecords {
  import opened Options

  /** Text as its UTF-16 code units. */
  type Text = seq<int>

  datatype Status = Queued | Running | Completed | Cancelled | Failed | NeedsApproval

  /** `id` stands for the run id by its rank in id order. */
  datatype Run = Run(
    id: nat,
    createdAt: int,
    updatedAt: int,
    status: Status,
    scheduled: bool,
    message: Text,
    assistantText: Option<Text>,
    assistantPreview: Option<Text>)

  predicate Older(a: Run, b: Run) {
    a.createdAt < b.createdAt || (a.createdAt == b.createdAt && a.id < b.id)
  }

  predicate Precedes(newestFirst: bool, a: Run, b: Run) {
    if newestFirst then Older(b, a) else Older(a, b)
  }

  function Insert(newestFirst: bool, sorted: seq<Run>, run: Run): seq<Run> {
    if sorted == [] || Precedes(newestFirst, run, sorted[0]) then [run] + sorted
    else [sorted[0]] + Insert(newestFirst, sorted[1..], run)
  }

  /** The stable sort of the runs. */
  function Sort(newestFirst: bool, runs: seq<Run>): seq<Run> {
    if runs == [] then []
    else Insert(newestFirst, Sort(newestFirst, runs[..|runs| - 1]), runs[|runs| - 1])
  }

  predicate DistinctIds(runs: seq<Run>) {
    forall i, j :: 0 <= i < j < |runs| ==> runs[i].id != runs[j].id
  }

  predicate Ordered(newestFirst: bool, runs: seq<Run>) {
    forall i, j :: 0 <= i < j < |runs| ==> Precedes(newestFirst, runs[i], runs[j])
  }

  function Ids(runs: seq<Run>): (r: seq<nat>)
    ensures |r| == |runs| && forall i :: 0 <= i < |runs| ==> r[i] == runs[i].id
  {
    seq(|runs|, i requires 0 <= i < |runs| => runs[i].id)
  }

  lemma {:induction false} InsertPermutes(newestFirst: bool, sorted: seq<Run>, run: Run)
    ensures multiset(Insert(newestFirst, sorted, run)) == multiset(sorted) + multiset{run}
  {
    if sorted != [] {
      assert sorted == [sorted[0]] + sorted[1..];
      InsertPermutes(newestFirst, sorted[1..], run);
    }
  }

  lemma {:induction false} SortPermutes(newestFirst: bool, runs: seq<Run>)
    ensures multiset(Sort(newestFirst, runs)) == multiset(runs)
    ensures |Sort(newestFirst, runs)| == |runs|
    ensures forall r :: r in Sort(newestFirst, runs) <==> r in runs
  {
    if runs != [] {
      var n := |runs| - 1;
      SortPermutes(newestFirst, runs[..n]);
      InsertPermutes(newestFirst, Sort(newestFirst, runs[..n]), runs[n]);
      assert runs == runs[..n] + [runs[n]];
    }
    var sorted := Sort(newestFirst, runs);
    assert |multiset(sorted)| == |multiset(runs)|;
    forall r ensures r in sorted <==> r in runs {
      assert r in multiset(sorted) <==> r in multiset(runs);
    }
  }

  lemma {:induction false} InsertOrdered(newestFirst: bool, sorted: seq<Run>, run: Run)
    requires Ordered(newestFirst, sorted) && forall r :: r in sorted ==> r.id != run.id
    ensures Ordered(newestFirst, Insert(newestFirst, sorted, run))
  {
    if sorted != [] {
      var tail := sorted[1..];
      if Precedes(newestFirst, run, sorted[0]) {
        forall i | 0 <= i < |sorted| ensures Precedes(newestFirst, run, sorted[i]) {
          if i > 0 {
            assert Precedes(newestFirst, sorted[0], sorted[i]);
          }
        }
      } else {
        assert sorted[0] in sorted;
        forall r | r in tail ensures r in sorted && Precedes(newestFirst, sorted[0], r) {
          var j :| 0 <= j < |tail| && tail[j] == r;
          assert sorted[j + 1] == r;
        }
        InsertOrdered(newestFirst, tail, run);
        var rest := Insert(newestFirst, tail, run);
        InsertPermutes(newestFirst, tail, run);
        forall i | 0 <= i < |rest| ensures Precedes(newestFirst, sorted[0], rest[i]) {
          assert rest[i] in multiset(rest);
        }
      }
    }
  }

  lemma {:induction false} SortOrdered(newestFirst: bool, runs: seq<Run>)
    requires DistinctIds(runs)
    ensures Ordered(newestFirst, Sort(newestFirst, runs))
  {
    if runs != [] {
      var n := |runs| - 1;
      SortOrdered(newestFirst, runs[..n]);
      SortPermutes(newestFirst, runs[..n]);
      forall r | r in Sort(newestFirst, runs[..n]) ensures r.id != runs[n].id {
        var j :| 0 <= j < |runs[..n]| && runs[..n][j] == r;
        assert runs[j] == r;
      }
      InsertOrdered(newestFirst, Sort(newestFirst, runs[..n]), runs[n]);
    }
  }

  lemma {:induction false} InsertDistinct(newestFirst: bool, sorted: seq<Run>, run: Run)
    requires DistinctIds(sorted) && forall i :: 0 <= i < |sorted| ==> sorted[i].id != run.id
    ensures DistinctIds(Insert(newestFirst, sorted, run))
  {
    if sorted != [] && !Precedes(newestFirst, run, sorted[0]) {
      var tail := sorted[1..];
      InsertDistinct(newestFirst, tail, run);
      InsertPermutes(newestFirst, tail, run);
      var rest := Insert(newestFirst, tail, run);
      forall i | 0 <= i < |rest| ensures rest[i].id != sorted[0].id {
        assert rest[i] in multiset(rest);
        if rest[i] in tail {
          var j :| 0 <= j < |tail| && tail[j] == rest[i];
          assert sorted[j + 1] == rest[i];
        }
      }
    }
  }

  lemma {:induction false} SortDistinct(newestFirst: bool, runs: seq<Run>)
    requires DistinctIds(runs)
    ensures DistinctIds(Sort(newestFirst, runs))
  {
    if runs != [] {
      var n := |runs| - 1;
      SortDistinct(newestFirst, runs[..n]);
      SortPermutes(newestFirst, runs[..n]);
      var front := Sort(newestFirst, runs[..n]);
      forall i | 0 <= i < |front| ensures front[i].id != runs[n].id {
        assert front[i] in runs[..n];
      }
      InsertDistinct(newestFirst, front, runs[n]);
    }
  }

  lemma SameHead(newestFirst: bool, a: seq<Run>, b: seq<Run>)
    requires Ordered(newestFirst, a) && Ordered(newestFirst, b) && a != [] && b != [] && a[0] in b && b[0] in a
    ensures a[0] == b[0]
  {
    assert forall k :: 0 < k < |a| ==> Precedes(newestFirst, a[0], a[k]);
    assert forall k :: 0 < k < |b| ==> Precedes(newestFirst, b[0], b[k]);
  }

  /** The order in which the runs are read from disk does not matter. */
  lemma {:induction false} OrderedUnique(newestFirst: bool, a: seq<Run>, b: seq<Run>)
    requires Ordered(newestFirst, a) && Ordered(newestFirst, b) && multiset(a) == multiset(b)
    ensures a == b
    decreases |a|
  {
    assert |multiset(a)| == |multiset(b)|;
    if a != [] {
      assert a[0] in multiset(b) && b[0] in multiset(a);
      SameHead(newestFirst, a, b);
      assert a == [a[0]] + a[1..] && b == [b[0]] + b[1..];
      assert multiset(a) == multiset{a[0]} + multiset(a[1..]);
      assert multiset(b) == multiset{a[0]} + multiset(b[1..]);
      assert multiset(a[1..]) == multiset(a) - multiset{a[0]};
      assert multiset(b[1..]) == multiset(b) - multiset{a[0]};
      TailOrdered(newestFirst, a);
      TailOrdered(newestFirst, b);
      OrderedUnique(newestFirst, a[1..], b[1..]);
    }
  }

  lemma TailOrdered(newestFirst: bool, a: seq<Run>)
    requires Ordered(newestFirst, a) && a != []
    ensures Ordered(newestFirst, a[1..])
  {
  }

  lemma {:induction false} SortUnique(newestFirst: bool, a: seq<Run>, b: seq<Run>)
    requires DistinctIds(a) && DistinctIds(b) && multiset(a) == multiset(b)
    ensures Sort(newestFirst, a) == Sort(newestFirst, b)
  {
    SortPermutes(newestFirst, a);
    SortPermutes(newestFirst, b);
    SortOrdered(newestFirst, a);
    SortOrdered(newestFirst, b);
    OrderedUnique(newestFirst, Sort(newestFirst, a), Sort(newestFirst, b));
  }

  /** The sorted runs are the given ones, each as often, by creation time and then by id: downwards or upwards. */
  lemma {:induction false} SortedByTime(newestFirst: bool, runs: seq<Run>)
    requires DistinctIds(runs)
    ensures var s := Sort(newestFirst, runs);
            && multiset(s) == multiset(runs)
            && forall i, j :: 0 <= i < j < |s| ==>
                 if newestFirst then s[j].createdAt < s[i].createdAt || (s[j].createdAt == s[i].createdAt && s[j].id < s[i].id)
                 else s[i].createdAt < s[j].createdAt || (s[i].createdAt == s[j].createdAt && s[i].id < s[j].id)
  {
    SortPermutes(newestFirst, runs);
    SortOrdered(newestFirst, runs);
    var s := Sort(newestFirst, runs);
    forall i, j | 0 <= i < j < |s|
      ensures if newestFirst then s[j].createdAt < s[i].createdAt || (s[j].createdAt == s[i].createdAt && s[j].id < s[i].id)
              else s[i].createdAt < s[j].createdAt || (s[i].createdAt == s[j].createdAt && s[i].id < s[j].id)
    {
      assert Precedes(newestFirst, s[i], s[j]);
    }
  }
}
