/** The client's incremental reading of the event stream: line-end normalisation and framing
    (sections 9.2.5 and 9.2.6 of the WHATWG HTML Living Standard, for LF and CRLF line ends). */
module SseFraming {
  const LIMIT := 16 * 1024 * 1024

  /** `replace(/\r\n/g, "\n")` */
  function Normalize(s: string): string {
    if |s| < 2 then s
    else if s[0] == '\r' && s[1] == '\n' then ['\n'] + Normalize(s[2..])
    else [s[0]] + Normalize(s[1..])
  }

  /** `indexOf("\n\n")`, or the length of the text. */
  function BlankLine(s: string): (i: nat)
    ensures i <= |s| && (i < |s| ==> i + 2 <= |s| && s[i] == '\n' && s[i + 1] == '\n')
    ensures forall j :: 0 <= j < i && j + 1 < |s| ==> !(s[j] == '\n' && s[j + 1] == '\n')
  {
    if |s| < 2 then |s|
    else if s[0] == '\n' && s[1] == '\n' then 0
    else
      var rest := BlankLine(s[1..]);
      assert forall j :: 1 <= j < 1 + rest && j + 1 < |s| ==> s[j] == s[1..][j - 1] && s[j + 1] == s[1..][j];
      1 + rest
  }

  /** The complete frames of a text, and what is left. */
  function Split(s: string): (seq<string>, string) {
    var i := BlankLine(s);
    if i == |s| then ([], s)
    else
      var (frames, rest) := Split(s[i + 2..]);
      ([s[..i]] + frames, rest)
  }

  /** What the reader makes of one more chunk. */
  function Feed(buffer: string, chunk: string): (seq<string>, string) {
    Split(Normalize(buffer + chunk))
  }

  function FeedAll(buffer: string, chunks: seq<string>): (seq<string>, string)
    decreases |chunks|
  {
    if chunks == [] then ([], buffer)
    else
      var (frames, rest) := Feed(buffer, chunks[0]);
      var (more, last) := FeedAll(rest, chunks[1..]);
      (frames + more, last)
  }

  function Concat(chunks: seq<string>): string {
    if chunks == [] then "" else chunks[0] + Concat(chunks[1..])
  }

  ghost predicate CrLfAt(s: string, i: int) {
    0 <= i && i + 1 < |s| && s[i] == '\r' && s[i + 1] == '\n'
  }

  ghost predicate CrCrLfAt(s: string, i: int) {
    0 <= i && i + 2 < |s| && s[i] == '\r' && s[i + 1] == '\r' && s[i + 2] == '\n'
  }

  ghost predicate NoCrLf(s: string) {
    forall i :: !CrLfAt(s, i)
  }

  ghost predicate NoCrCrLf(s: string) {
    forall i :: !CrCrLfAt(s, i)
  }

  // ---- normalisation ----

  lemma TailNoCrCrLf(s: string, k: nat)
    requires NoCrCrLf(s) && k <= |s|
    ensures NoCrCrLf(s[k..])
  {
    forall i ensures !CrCrLfAt(s[k..], i) {
      assert !CrCrLfAt(s, i + k);
    }
  }

  lemma HeadNoCrCrLf(s: string, k: nat)
    requires NoCrCrLf(s) && k <= |s|
    ensures NoCrCrLf(s[..k])
  {
    forall i ensures !CrCrLfAt(s[..k], i) {
      assert !CrCrLfAt(s, i);
    }
  }

  /** Text without CR CR LF is free of CR LF once normalised. */
  lemma {:induction false} NormalizeRemoves(s: string)
    requires NoCrCrLf(s)
    ensures NoCrLf(Normalize(s))
    ensures s != "" ==> Normalize(s) != "" && Normalize(s)[0] == (if CrLfAt(s, 0) then '\n' else s[0])
  {
    if |s| < 2 {
    } else if s[0] == '\r' && s[1] == '\n' {
      TailNoCrCrLf(s, 2);
      NormalizeRemoves(s[2..]);
      forall i ensures !CrLfAt(Normalize(s), i) {
        assert !CrLfAt(Normalize(s[2..]), i - 1);
      }
    } else {
      TailNoCrCrLf(s, 1);
      NormalizeRemoves(s[1..]);
      assert !CrCrLfAt(s, 0);
      forall i ensures !CrLfAt(Normalize(s), i) {
        assert !CrLfAt(Normalize(s[1..]), i - 1);
      }
    }
  }

  /** Normalising what is already normalised changes nothing, whatever follows. */
  lemma {:induction false} NormalizeAgain(a: string, b: string)
    requires NoCrCrLf(a + b)
    ensures Normalize(Normalize(a) + b) == Normalize(a + b)
  {
    if |a| < 2 {
    } else if a[0] == '\r' && a[1] == '\n' {
      TailNoCrCrLf(a + b, 2);
      assert (a + b)[2..] == a[2..] + b;
      NormalizeAgain(a[2..], b);
      NormalizeStep('\n', Normalize(a[2..]) + b);
      assert Normalize(a) + b == ['\n'] + (Normalize(a[2..]) + b);
      assert Normalize(a + b) == ['\n'] + Normalize(a[2..] + b);
    } else {
      AgainStep(a, b);
      NormalizeAgain(a[1..], b);
    }
  }

  lemma {:induction false} AgainStep(a: string, b: string)
    requires NoCrCrLf(a + b) && |a| >= 2 && !(a[0] == '\r' && a[1] == '\n')
    ensures NoCrCrLf(a[1..] + b)
    ensures Normalize(a + b) == [a[0]] + Normalize(a[1..] + b)
    ensures Normalize(Normalize(a) + b) == [a[0]] + Normalize(Normalize(a[1..]) + b)
  {
    TailNoCrCrLf(a + b, 1);
    assert (a + b)[1..] == a[1..] + b;
    HeadNoCrCrLf(a + b, |a|);
    assert (a + b)[..|a|] == a;
    TailNoCrCrLf(a, 1);
    NormalizeRemoves(a[1..]);
    assert !CrCrLfAt(a, 0);
    assert Normalize(a) + b == [a[0]] + (Normalize(a[1..]) + b);
    NormalizeStep(a[0], Normalize(a[1..]) + b);
  }

  lemma NormalizeStep(c: char, s: string)
    requires !(c == '\r' && s != "" && s[0] == '\n')
    ensures Normalize([c] + s) == [c] + Normalize(s)
  {
    assert ([c] + s)[1..] == s;
  }

  lemma PrefixHead(p: string)
    requires NoCrLf(p) && p != ""
    ensures NoCrLf(p[1..]) && !(p[0] == '\r' && |p| > 1 && p[1] == '\n')
  {
    assert !CrLfAt(p, 0);
    forall i ensures !CrLfAt(p[1..], i) {
      assert !CrLfAt(p, i + 1);
    }
  }

  lemma {:induction false} NormalizePrefix(p: string, s: string)
    requires NoCrLf(p) && (p != "" ==> p[|p| - 1] != '\r')
    ensures Normalize(p + s) == p + Normalize(s)
  {
    if p == "" {
      assert p + s == s;
    } else {
      var q := p[1..];
      PrefixHead(p);
      NormalizePrefix(q, s);
      assert p + s == [p[0]] + (q + s);
      NormalizeStep(p[0], q + s);
      assert p + Normalize(s) == [p[0]] + (q + Normalize(s));
    }
  }

  // ---- framing ----

  lemma BlankLineIsFirst(s: string, i: nat)
    requires i + 2 <= |s| && s[i] == '\n' && s[i + 1] == '\n'
    requires forall j :: 0 <= j < i ==> !(s[j] == '\n' && s[j + 1] == '\n')
    ensures BlankLine(s) == i
  {
    assert BlankLine(s) <= i;
  }

  lemma {:induction false} SplitStep(p: string, i: nat, s: string)
    requires BlankLine(p) == i && i + 2 == |p|
    ensures Split(p + s) == ([p[..i]] + Split(s).0, Split(s).1)
  {
    var t := p + s;
    BlankLineIsFirst(t, i);
    assert t[i + 2..] == s && t[..i] == p[..i];
  }

  /** Frames cut before those of a result. */
  function Then(frames: seq<string>, r: (seq<string>, string)): (seq<string>, string) {
    (frames + r.0, r.1)
  }

  lemma ThenThen(a: seq<string>, b: seq<string>, r: (seq<string>, string))
    ensures Then(a, Then(b, r)) == Then(a + b, r)
  {
    assert a + (b + r.0) == (a + b) + r.0;
  }

  lemma {:induction false} SplitUnfolds(p: string, i: nat, u: string)
    requires i + 2 == |p| && BlankLine(p + u) == i
    ensures Split(p + u) == Then([p[..i]], Split(u))
  {
    assert (p + u)[..i] == p[..i] && (p + u)[i + 2..] == u;
  }

  lemma {:induction false} SplitHead(t: string, i: nat)
    requires i == BlankLine(t) < |t|
    ensures Split(t) == Then([t[..i]], Split(t[i + 2..]))
  {
  }

  /** One more chunk after normalised text: the frames already cut stay cut, and the buffer alone
      decides the rest. */
  lemma {:induction false} SplitThenFeed(t: string, chunk: string)
    requires NoCrLf(t)
    ensures Split(Normalize(t + chunk)) == Then(Split(t).0, Feed(Split(t).1, chunk))
    decreases |t|
  {
    var i := BlankLine(t);
    if i < |t| {
      var p, u := CutFirst(t, i);
      SplitThenFeed(u, chunk);
      FirstFrameStays(p, i, u, chunk);
      SplitUnfolds(p, i, u);
      ThenThen([p[..i]], Split(u).0, Feed(Split(u).1, chunk));
    } else {
      assert [] + Feed(t, chunk).0 == Feed(t, chunk).0;
    }
  }

  lemma CutFirst(t: string, i: nat) returns (p: string, u: string)
    requires NoCrLf(t) && i + 2 <= |t|
    ensures t == p + u && |p| == i + 2 && NoCrLf(p) && NoCrLf(u)
  {
    p, u := t[..i + 2], t[i + 2..];
    forall j ensures !CrLfAt(p, j) && !CrLfAt(u, j) {
      assert !CrLfAt(t, j) && !CrLfAt(t, j + i + 2);
    }
  }

  lemma {:induction false} FirstFrameStays(p: string, i: nat, u: string, chunk: string)
    requires NoCrLf(p) && i + 2 == |p| && BlankLine(p + u) == i
    ensures Split(Normalize((p + u) + chunk)) == Then([p[..i]], Split(Normalize(u + chunk)))
  {
    assert (p + u)[i] == p[i] && (p + u)[i + 1] == p[i + 1];
    assert forall j :: 0 <= j <= i ==> p[j] == (p + u)[j];
    BlankLineIsFirst(p, i);
    assert (p + u) + chunk == p + (u + chunk);
    NormalizePrefix(p, u + chunk);
    SplitStep(p, i, Normalize(u + chunk));
  }

  lemma {:induction false} FeedOne(a: string, c: string, rest: string)
    requires NoCrCrLf((a + c) + rest)
    ensures Split(Normalize(a + c)).0 == Split(Normalize(a)).0 + Feed(Split(Normalize(a)).1, c).0
    ensures Split(Normalize(a + c)).1 == Feed(Split(Normalize(a)).1, c).1
  {
    HeadNoCrCrLf((a + c) + rest, |a + c|);
    assert ((a + c) + rest)[..|a + c|] == a + c;
    HeadNoCrCrLf(a + c, |a|);
    assert (a + c)[..|a|] == a;
    NormalizeRemoves(a);
    SplitThenFeed(Normalize(a), c);
    NormalizeAgain(a, c);
  }

  lemma FeedAllStep(cut: seq<string>, buffer: string, chunks: seq<string>)
    requires chunks != []
    ensures var (more, next) := Feed(buffer, chunks[0]);
            && cut + FeedAll(buffer, chunks).0 == (cut + more) + FeedAll(next, chunks[1..]).0
            && FeedAll(buffer, chunks).1 == FeedAll(next, chunks[1..]).1
  {
  }

  lemma {:induction false} FeedFrom(a: string, chunks: seq<string>)
    requires NoCrCrLf(a + Concat(chunks))
    ensures Split(Normalize(a + Concat(chunks))).0 == Split(Normalize(a)).0 + FeedAll(Split(Normalize(a)).1, chunks).0
    ensures Split(Normalize(a + Concat(chunks))).1 == FeedAll(Split(Normalize(a)).1, chunks).1
    decreases |chunks|
  {
    if chunks == [] {
      assert a + Concat(chunks) == a;
    } else {
      var c, later := chunks[0], Concat(chunks[1..]);
      assert a + Concat(chunks) == (a + c) + later;
      FeedOne(a, c, later);
      FeedFrom(a + c, chunks[1..]);
      FeedAllStep(Split(Normalize(a)).0, Split(Normalize(a)).1, chunks);
    }
  }

  lemma {:induction false} WholeStream(chunks: seq<string>)
    requires NoCrCrLf(Concat(chunks))
    ensures FeedAll("", chunks) == Split(Normalize(Concat(chunks)))
  {
    var s := Concat(chunks);
    assert "" + s == s;
    assert Split(Normalize("")) == ([], "");
    FeedFrom("", chunks);
    assert [] + FeedAll("", chunks).0 == FeedAll("", chunks).0;
  }

  /** Framing does not depend on the chunks: without CR CR LF every split of the stream gives the
      frames, and the leftover, of the whole stream read at once. */
  lemma {:induction false} ChunksDoNotMatter(chunks: seq<string>)
    requires NoCrCrLf(Concat(chunks))
    ensures FeedAll("", chunks) == FeedAll("", [Concat(chunks)])
  {
    WholeStream(chunks);
    assert Concat([Concat(chunks)]) == Concat(chunks) + "" == Concat(chunks);
    WholeStream([Concat(chunks)]);
  }

  // ---- the condition is exact ----

  function Returns(s: string): nat {
    if s == "" then 0 else (if s[0] == '\r' then 1 else 0) + Returns(s[1..])
  }

  function ReturnsIn(frames: seq<string>): nat {
    if frames == [] then 0 else Returns(frames[0]) + ReturnsIn(frames[1..])
  }

  lemma {:induction false} ReturnsAdd(a: string, b: string)
    ensures Returns(a + b) == Returns(a) + Returns(b)
  {
    if a == "" {
      assert a + b == b;
    } else {
      assert (a + b)[1..] == a[1..] + b;
      ReturnsAdd(a[1..], b);
    }
  }

  lemma {:induction false} ReturnsInAdd(a: seq<string>, b: seq<string>)
    ensures ReturnsIn(a + b) == ReturnsIn(a) + ReturnsIn(b)
  {
    if a == [] {
      assert a + b == b;
    } else {
      assert (a + b)[1..] == a[1..] + b;
      ReturnsInAdd(a[1..], b);
    }
  }

  const BLANK_LINE: string := ['\n', '\n']

  lemma ReturnsAround(a: string, b: string)
    ensures Returns(a + BLANK_LINE + b) == Returns(a) + Returns(b)
  {
    ReturnsAdd(a + BLANK_LINE, b);
    ReturnsAdd(a, BLANK_LINE);
    assert BLANK_LINE[1..] == ['\n'] && ['\n'][1..] == [];
  }

  lemma {:induction false} SplitKeepsReturns(s: string)
    ensures Returns(s) == ReturnsIn(Split(s).0) + Returns(Split(s).1)
    decreases |s|
  {
    var i := BlankLine(s);
    if i < |s| {
      var f, u := s[..i], s[i + 2..];
      SplitHead(s, i);
      SplitKeepsReturns(u);
      ReturnsApart(s, i);
      ReturnsInCons(f, Split(u).0);
    }
  }

  lemma ReturnsApart(s: string, i: nat)
    requires i + 2 <= |s| && s[i] == s[i + 1] == '\n'
    ensures Returns(s) == Returns(s[..i]) + Returns(s[i + 2..])
  {
    assert s == s[..i] + BLANK_LINE + s[i + 2..];
    ReturnsAround(s[..i], s[i + 2..]);
  }

  lemma ReturnsInCons(f: string, frames: seq<string>)
    ensures ReturnsIn([f] + frames) == Returns(f) + ReturnsIn(frames)
  {
    assert ([f] + frames)[1..] == frames;
  }

  lemma {:induction false} NormalizeConcat(a: string, b: string)
    requires !(a != "" && a[|a| - 1] == '\r' && b != "" && b[0] == '\n')
    ensures Normalize(a + b) == Normalize(a) + Normalize(b)
  {
    if a == "" {
      assert a + b == b;
    } else if CrLfAt(a, 0) {
      assert (a + b)[2..] == a[2..] + b;
      NormalizeConcat(a[2..], b);
    } else {
      NormalizeConcat(a[1..], b);
      NormalizeHead(a);
      NormalizeHead(a + b);
      assert (a + b)[1..] == a[1..] + b;
      ConsConcat(a[0], Normalize(a[1..]), Normalize(b));
    }
  }

  lemma ConsConcat(c: char, s: string, t: string)
    ensures [c] + (s + t) == ([c] + s) + t
  {
  }

  lemma {:induction false} NormalizeHead(s: string)
    requires |s| > 0 && !CrLfAt(s, 0)
    ensures Normalize(s) == [s[0]] + Normalize(s[1..])
  {
  }

  lemma {:induction false} NormalizeReturns(s: string)
    ensures Returns(Normalize(s)) <= Returns(s)
  {
    if |s| >= 2 {
      if s[0] == '\r' && s[1] == '\n' {
        NormalizeReturns(s[2..]);
        ReturnsCons('\n', Normalize(s[2..]));
        assert Returns(s) == 1 + Returns(s[1..]) && s[1..][1..] == s[2..];
      } else {
        NormalizeReturns(s[1..]);
        ReturnsCons(s[0], Normalize(s[1..]));
      }
    }
  }

  lemma ReturnsCons(c: char, s: string)
    ensures Returns([c] + s) == (if c == '\r' then 1 else 0) + Returns(s)
  {
    assert ([c] + s)[1..] == s;
  }

  /** Normalising a text with a CR LF takes a carriage return away. */
  lemma {:induction false} NormalizeLosesReturn(s: string, i: nat)
    requires CrLfAt(s, i)
    ensures Returns(Normalize(s)) < Returns(s)
    decreases |s|
  {
    if CrLfAt(s, 0) {
      NormalizeReturns(s[2..]);
      ReturnsCons('\n', Normalize(s[2..]));
      assert Returns(s) == 1 + Returns(s[1..]) && s[1..][1..] == s[2..];
    } else {
      assert CrLfAt(s[1..], i - 1);
      NormalizeLosesReturn(s[1..], i - 1);
      ReturnsCons(s[0], Normalize(s[1..]));
    }
  }

  // ---- how a text ends ----

  predicate EndsIn(s: string, c: char) {
    s != "" && s[|s| - 1] == c
  }

  predicate EndsInTwo(s: string, b: char, c: char) {
    |s| >= 2 && s[|s| - 2] == b && s[|s| - 1] == c
  }

  predicate EndsInCrLf(s: string) {
    EndsInTwo(s, '\r', '\n')
  }

  predicate EndsInLfLf(s: string) {
    EndsInTwo(s, '\n', '\n')
  }

  /** As every complete event does, with LF or CRLF line ends. */
  predicate EndsInBlankLine(s: string) {
    EndsInLfLf(s) || (EndsInCrLf(s) && |s| >= 3 && s[|s| - 3] == '\n')
  }

  predicate EndsInCrCrLf(s: string) {
    |s| >= 3 && s[|s| - 3] == '\r' && EndsInCrLf(s)
  }

  /** A text that ends in a blank line leaves nothing but at most a line feed in the buffer. */
  lemma {:induction false} ClosedRest(t: string)
    requires EndsInLfLf(t)
    ensures Returns(Split(t).1) == 0
    decreases |t|
  {
    var i := BlankLine(t);
    var u := t[i + 2..];
    SplitHead(t, i);
    if |u| >= 2 {
      assert u[|u| - 2] == t[|t| - 2] && u[|u| - 1] == t[|t| - 1];
      ClosedRest(u);
    } else {
      assert u == [] || u == ['\n'];
      assert ['\n'][1..] == [];
      assert BlankLine(u) == |u|;
    }
  }

  /** The last character outlives normalisation. */
  lemma {:induction false} LastStays(a: string, c: char)
    requires EndsIn(a, c)
    ensures EndsIn(Normalize(a), c)
    decreases |a|
  {
    if |a| >= 2 {
      if CrLfAt(a, 0) {
        if |a| > 2 {
          LastStays(a[2..], c);
        }
      } else {
        LastStays(a[1..], c);
      }
    }
  }

  const CRLF: string := ['\r', '\n']

  lemma {:induction false} ClosedNormal(s: string)
    requires EndsInBlankLine(s)
    ensures EndsInLfLf(Normalize(s))
  {
    var end := if EndsInLfLf(s) then ['\n'] else CRLF;
    var a := s[..|s| - |end|];
    assert s == a + end && EndsIn(a, '\n');
    NormalizeConcat(a, end);
    LastStays(a, '\n');
    assert CRLF[2..] == [];
    assert Normalize(end) == ['\n'];
  }

  /** A CR LF that survived normalisation at the end of the text stays in the buffer. */
  lemma {:induction false} OpenRest(t: string)
    requires EndsInCrLf(t)
    ensures EndsInCrLf(Split(t).1)
    decreases |t|
  {
    var i := BlankLine(t);
    if i < |t| {
      assert i + 2 <= |t| - 2;
      SplitHead(t, i);
      OpenRest(t[i + 2..]);
    }
  }

  lemma {:induction false} CrCrLfNormal(s: string)
    requires EndsInCrCrLf(s)
    ensures EndsInCrLf(Normalize(s))
    decreases |s|
  {
    if CrLfAt(s, 0) {
      CrCrLfNormal(s[2..]);
    } else if |s| > 3 {
      CrCrLfNormal(s[1..]);
    } else {
      assert s[1..][2..] == [];
      assert Normalize(s[1..]) == ['\n'] + [];
    }
  }

  /** A chunk that ends in CR CR LF leaves a CR LF in the buffer. */
  lemma {:induction false} CutLeavesCrLf(s: string)
    requires EndsInCrCrLf(s)
    ensures EndsInCrLf(Split(Normalize(s)).1)
  {
    CrCrLfNormal(s);
    OpenRest(Normalize(s));
  }

  /** The next chunk's normalisation takes that carriage return away. */
  lemma {:induction false} NextChunkLosesReturn(r: string, s: string)
    requires EndsInCrLf(r)
    ensures Returns(Normalize(r + s)) < Returns(r) + Returns(Normalize(s))
  {
    NormalizeConcat(r, s);
    NormalizeLosesReturn(r, |r| - 2);
    ReturnsAdd(Normalize(r), Normalize(s));
  }

  /** Read in two parts, a stream cut right after a CR CR LF loses a carriage return that it keeps
      when it is read at once. */
  lemma {:induction false} CutLosesReturn(s1: string, s2: string)
    requires EndsInCrCrLf(s1)
    ensures var (f1, r1) := Split(Normalize(s1));
            ReturnsIn(f1) + Returns(Normalize(r1 + s2)) < Returns(Normalize(s1 + s2))
  {
    var r1 := Split(Normalize(s1)).1;
    CutLeavesCrLf(s1);
    NextChunkLosesReturn(r1, s2);
    NormalizeConcat(s1, s2);
    ReturnsAdd(Normalize(s1), Normalize(s2));
    SplitKeepsReturns(Normalize(s1));
  }

  /** Cut right after a CR CR LF, the stream is not read as it is read at once. */
  lemma CutMatters(s: string, k: nat)
    requires k <= |s| && EndsInCrCrLf(s[..k])
    ensures FeedAll("", [s[..k], s[k..]]) != FeedAll("", [s])
  {
    var s1, s2 := s[..k], s[k..];
    assert s == s1 + s2;
    var (f1, r1) := Split(Normalize(s1));
    var (f2, r2) := Split(Normalize(r1 + s2));
    TwoChunks(s1, s2);
    OneChunk(s);
    CutLosesReturn(s1, s2);
    SplitKeepsReturns(Normalize(r1 + s2));
    SplitKeepsReturns(Normalize(s));
    ReturnsInAdd(f1, f2);
  }

  /** If the stream ends in a blank line, it is the frames that differ. */
  lemma CutChangesFrames(s: string, k: nat)
    requires EndsInBlankLine(s) && k <= |s| && EndsInCrCrLf(s[..k])
    ensures FeedAll("", [s[..k], s[k..]]).0 != FeedAll("", [s]).0
  {
    var s1, s2 := s[..k], s[k..];
    assert s == s1 + s2;
    var (f1, r1) := Split(Normalize(s1));
    var f2 := Split(Normalize(r1 + s2)).0;
    TwoChunks(s1, s2);
    OneChunk(s);
    CutLosesReturn(s1, s2);
    CutLeavesCrLf(s1);
    TailCloses(s, k, r1);
    ClosedReturns(s);
    ClosedReturns(r1 + s2);
    ReturnsInAdd(f1, f2);
  }

  lemma TailCloses(s: string, k: nat, r: string)
    requires EndsInBlankLine(s) && k <= |s| && EndsInCrCrLf(s[..k]) && EndsInCrLf(r)
    ensures EndsInBlankLine(r + s[k..])
  {
    var t := r + s[k..];
    assert s[..k][k - 1] == s[k - 1] == '\n' && s[..k][k - 2] == s[k - 2] == '\r' && s[..k][k - 3] == s[k - 3] == '\r';
    assert k < |s|;
    assert t[|t| - 1] == s[|s| - 1];
  }

  /** A text that ends in a blank line has all its carriage returns in its frames. */
  lemma {:induction false} ClosedReturns(s: string)
    requires EndsInBlankLine(s)
    ensures ReturnsIn(Split(Normalize(s)).0) == Returns(Normalize(s))
  {
    SplitKeepsReturns(Normalize(s));
    ClosedNormal(s);
    ClosedRest(Normalize(s));
  }

  lemma OneChunk(s: string)
    ensures FeedAll("", [s]) == Split(Normalize(s))
  {
    assert "" + s == s;
    var (f, r) := Split(Normalize(s));
    assert FeedAll(r, [s][1..]) == ([], r);
    assert f + [] == f;
  }

  lemma TwoChunks(s1: string, s2: string)
    ensures var (f1, r1) := Split(Normalize(s1));
            var (f2, r2) := Split(Normalize(r1 + s2));
            FeedAll("", [s1, s2]) == (f1 + f2, r2)
  {
    assert "" + s1 == s1;
    var (f1, r1) := Split(Normalize(s1));
    var (f2, r2) := Split(Normalize(r1 + s2));
    assert [s1, s2][1..] == [s2];
    assert FeedAll(r2, [s2][1..]) == ([], r2);
    assert f2 + [] == f2;
    assert FeedAll(r1, [s2]) == (f2, r2);
  }

  lemma ConcatTwo(a: string, b: string)
    ensures Concat([a, b]) == a + b
  {
    assert [a, b][1..] == [b] && [b][1..] == [];
    assert Concat([b]) == b + "" == b;
  }

  lemma CutAfterCrCrLf(s: string) returns (k: nat)
    requires !NoCrCrLf(s)
    ensures k <= |s| && EndsInCrCrLf(s[..k]) && Concat([s[..k], s[k..]]) == s
  {
    var i :| CrCrLfAt(s, i);
    k := i + 3;
    ConcatTwo(s[..k], s[k..]);
    assert s[..k] + s[k..] == s;
  }

  /** Exactly the streams without CR CR LF are read the same way however they are cut: the same
      frames, and the same text left over. */
  lemma ChunkIndependentExactly(s: string)
    ensures NoCrCrLf(s) <==> forall chunks :: Concat(chunks) == s ==> FeedAll("", chunks) == FeedAll("", [s])
  {
    if NoCrCrLf(s) {
      OneChunk(s);
      forall chunks | Concat(chunks) == s ensures FeedAll("", chunks) == FeedAll("", [s]) {
        ChunksDoNotMatter(chunks);
      }
    } else {
      var k := CutAfterCrCrLf(s);
      CutMatters(s, k);
    }
  }

  /** For a stream that ends in a blank line the same holds of the frames alone. */
  lemma FramesIndependentExactly(s: string)
    requires EndsInBlankLine(s)
    ensures NoCrCrLf(s) <==> forall chunks :: Concat(chunks) == s ==> FeedAll("", chunks).0 == FeedAll("", [s]).0
  {
    if NoCrCrLf(s) {
      ChunkIndependentExactly(s);
    } else {
      var k := CutAfterCrCrLf(s);
      CutChangesFrames(s, k);
    }
  }

  // ---- the 16 MiB bound on an unfinished frame ----

  datatype Reader = Reader(frames: seq<string>, buffer: string, failed: bool)

  const IDLE := Reader([], "", false)

  function Accept(r: Reader, chunk: string): Reader {
    if r.failed then r
    else
      var (frames, rest) := Feed(r.buffer, chunk);
      Reader(r.frames + frames, rest, |rest| > LIMIT)
  }

  function AcceptAll(r: Reader, chunks: seq<string>): Reader
    decreases |chunks|
  {
    if chunks == [] then r else AcceptAll(Accept(r, chunks[0]), chunks[1..])
  }

  /** What is unfinished after a prefix of the stream. */
  function Unfinished(s: string, k: nat): string
    requires k <= |s|
  {
    Split(Normalize(s[..k])).1
  }

  lemma {:induction false} AcceptFrom(s: string, k: nat, r: Reader, chunks: seq<string>)
    requires NoCrCrLf(s) && k <= |s| && s[k..] == Concat(chunks)
    requires !r.failed && r.frames == Split(Normalize(s[..k])).0 && r.buffer == Unfinished(s, k)
    requires forall j :: 0 <= j <= |s| ==> |Unfinished(s, j)| <= LIMIT
    ensures AcceptAll(r, chunks) == Reader(Split(Normalize(s)).0, Split(Normalize(s)).1, false)
    decreases |chunks|
  {
    if chunks == [] {
      assert s[..k] == s;
    } else {
      var c := chunks[0];
      var m := k + |c|;
      assert s[k..][..|c|] == c && s[k..][|c|..] == Concat(chunks[1..]);
      assert s[..m] == s[..k] + c && s[m..] == Concat(chunks[1..]);
      assert s == (s[..k] + c) + s[m..];
      FeedOne(s[..k], c, s[m..]);
      assert |Unfinished(s, m)| <= LIMIT;
      AcceptFrom(s, m, Accept(r, c), chunks[1..]);
    }
  }

  lemma {:induction false} StaysFailed(r: Reader, chunks: seq<string>)
    requires r.failed
    ensures AcceptAll(r, chunks) == r
    decreases |chunks|
  {
    if chunks != [] {
      StaysFailed(r, chunks[1..]);
    }
  }

  /** A reader that has not given up has read what the framing says. */
  lemma {:induction false} AcceptIsFeed(r: Reader, chunks: seq<string>)
    requires !AcceptAll(r, chunks).failed
    ensures !r.failed
    ensures AcceptAll(r, chunks).frames == r.frames + FeedAll(r.buffer, chunks).0
    ensures AcceptAll(r, chunks).buffer == FeedAll(r.buffer, chunks).1
    decreases |chunks|
  {
    if chunks == [] {
      assert r.frames + [] == r.frames;
    } else {
      var next := Accept(r, chunks[0]);
      AcceptIsFeed(next, chunks[1..]);
      if r.failed {
        StaysFailed(r, chunks);
      }
      var (frames, rest) := Feed(r.buffer, chunks[0]);
      var more := FeedAll(rest, chunks[1..]).0;
      assert (r.frames + frames) + more == r.frames + (frames + more);
    }
  }

  lemma LongPrefixFails(s: string, k: nat) returns (chunks: seq<string>)
    requires k <= |s| && |Unfinished(s, k)| > LIMIT
    ensures Concat(chunks) == s && AcceptAll(IDLE, chunks).failed
  {
    chunks := [s[..k], s[k..]];
    ConcatTwo(s[..k], s[k..]);
    assert s[..k] + s[k..] == s && "" + s[..k] == s[..k];
    assert Accept(IDLE, s[..k]).failed;
    StaysFailed(Accept(IDLE, s[..k]), chunks[1..]);
  }

  /** What the whole stream holds, read without giving up. */
  function InFull(s: string): Reader {
    var (frames, rest) := Split(Normalize(s));
    Reader(frames, rest, false)
  }

  lemma {:induction false} ShortIsInFull(s: string, chunks: seq<string>)
    requires NoCrCrLf(s) && Concat(chunks) == s
    requires forall k :: 0 <= k <= |s| ==> |Unfinished(s, k)| <= LIMIT
    ensures AcceptAll(IDLE, chunks) == InFull(s)
  {
    assert s[..0] == [] && s[0..] == s;
    assert Split(Normalize([])) == ([], []);
    AcceptFrom(s, 0, IDLE, chunks);
  }

  lemma {:induction false} InFullIsFeed(s: string, chunks: seq<string>)
    requires AcceptAll(IDLE, chunks) == InFull(s)
    ensures FeedAll("", chunks) == Split(Normalize(s))
  {
    AcceptIsFeed(IDLE, chunks);
    var (frames, rest) := FeedAll("", chunks);
    assert [] + frames == frames;
  }

  lemma CrCrLfIsNotInFull(s: string) returns (chunks: seq<string>)
    requires !NoCrCrLf(s)
    ensures Concat(chunks) == s && AcceptAll(IDLE, chunks) != InFull(s)
  {
    var k := CutAfterCrCrLf(s);
    chunks := [s[..k], s[k..]];
    CutMatters(s, k);
    OneChunk(s);
    if AcceptAll(IDLE, chunks) == InFull(s) {
      InFullIsFeed(s, chunks);
    }
  }

  /** Every cut of the stream gives the reader all the frames of the whole stream and the same left
      over, without its giving up, exactly when the stream has no CR CR LF and none of its prefixes
      leaves more than 16 MiB unfinished. */
  lemma GivesUpExactly(s: string)
    ensures (forall chunks :: Concat(chunks) == s ==> AcceptAll(IDLE, chunks) == InFull(s))
            <==> NoCrCrLf(s) && forall k :: 0 <= k <= |s| ==> |Unfinished(s, k)| <= LIMIT
  {
    if k :| 0 <= k <= |s| && |Unfinished(s, k)| > LIMIT {
      var chunks := LongPrefixFails(s, k);
    } else if NoCrCrLf(s) {
      forall chunks | Concat(chunks) == s ensures AcceptAll(IDLE, chunks) == InFull(s) {
        ShortIsInFull(s, chunks);
      }
    } else {
      var chunks := CrCrLfIsNotInFull(s);
    }
  }

  // ---- the object ----

  class StreamReader {
    var buffer: string

    constructor ()
      ensures buffer == ""
    {
      buffer := "";
    }

    method FindBlankLine() returns (end: nat)
      ensures end == BlankLine(buffer)
    {
      end := 0;
      while end + 1 < |buffer| && !(buffer[end] == '\n' && buffer[end + 1] == '\n')
        invariant end <= |buffer|
        invariant forall j :: 0 <= j < end && j + 1 < |buffer| ==> !(buffer[j] == '\n' && buffer[j + 1] == '\n')
        decreases |buffer| - end
      {
        end := end + 1;
      }
      if end + 1 < |buffer| {
        BlankLineIsFirst(buffer, end);
      } else {
        end := |buffer|;
      }
    }

    /** One chunk; `ok` is false where the client gives the stream up. */
    method Accept(chunk: string) returns (frames: seq<string>, ok: bool)
      modifies this
      ensures (frames, buffer) == Feed(old(buffer), chunk)
      ensures ok == (|buffer| <= LIMIT)
    {
      buffer := Normalize(buffer + chunk);
      ghost var text := buffer;
      frames := [];
      assert [] + Split(text).0 == Split(text).0;
      var end := FindBlankLine();
      while end < |buffer|
        invariant end == BlankLine(buffer)
        invariant Split(text) == Then(frames, Split(buffer))
        decreases |buffer|
      {
        SplitHead(buffer, end);
        ThenThen(frames, [buffer[..end]], Split(buffer[end + 2..]));
        frames := frames + [buffer[..end]];
        buffer := buffer[end + 2..];
        end := FindBlankLine();
      }
      assert frames + [] == frames;
      ok := |buffer| <= LIMIT;
    }
  }
}
