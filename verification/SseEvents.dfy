/** The fields of one frame, and events written one field a line read back from any cut of the stream
    (field processing of section 9.2.6 of the WHATWG HTML Living Standard). */
module SseEvents {
  import opened Options
  import opened Decimals
  import opened SseFraming
  import opened Texts

  /** `cursor` is the client's reading of the id field. */
  datatype Event = Event(name: string, cursor: Option<nat>, data: string)

  datatype Fields = Fields(event: string, cursor: Option<nat>, data: seq<string>)

  // ---- text helpers ----

  predicate StartsWith(s: string, p: string) {
    |p| <= |s| && s[..|p|] == p
  }

  predicate Blank(c: char) {
    IsSpace(c as int)
  }

  function Trim(s: string): string {
    TrimBoth(s, Blank)
  }

  function NewLine(s: string): (i: nat)
    ensures i <= |s| && (i < |s| ==> s[i] == '\n') && forall j :: 0 <= j < i ==> s[j] != '\n'
  {
    if s == "" || s[0] == '\n' then 0 else 1 + NewLine(s[1..])
  }

  /** `split("\n")` */
  function Lines(s: string): (ls: seq<string>)
    ensures ls != []
  {
    var i := NewLine(s);
    if i == |s| then [s] else [s[..i]] + Lines(s[i + 1..])
  }

  /** `join("\n")` */
  function Join(ls: seq<string>): string {
    if ls == [] then "" else if |ls| == 1 then ls[0] else ls[0] + ['\n'] + Join(ls[1..])
  }

  // ---- one frame ----

  function SkipSpaces(s: string): string {
    if s != "" && s[0] == ' ' then SkipSpaces(s[1..]) else s
  }

  /** `/^id: *\d+$/` and the number behind it. */
  function IdOf(line: string): Option<nat> {
    if StartsWith(line, "id:") && AllDigits(SkipSpaces(line[3..])) then Some(NumberOf(SkipSpaces(line[3..]))) else None
  }

  function ReadLine(f: Fields, line: string): Fields {
    var g := if StartsWith(line, "event:") then f.(event := Trim(line[6..])) else f;
    var h := if IdOf(line).Some? then g.(cursor := IdOf(line)) else g;
    if StartsWith(line, "data:") then
      var rest := line[5..];
      h.(data := h.data + [if StartsWith(rest, " ") then rest[1..] else rest])
    else h
  }

  function ReadLines(f: Fields, lines: seq<string>): Fields
    decreases |lines|
  {
    if lines == [] then f else ReadLines(ReadLine(f, lines[0]), lines[1..])
  }

  const NO_FIELDS := Fields("message", None, [])

  function ReadFrame(frame: string): Event {
    var f := ReadLines(NO_FIELDS, Lines(frame));
    Event(f.event, f.cursor, Join(f.data))
  }

  /** The client's loop over the lines of a frame. */
  method ParseFrame(frame: string) returns (event: Event)
    ensures event == ReadFrame(frame)
  {
    var lines := Lines(frame);
    var fields := NO_FIELDS;
    for i := 0 to |lines|
      invariant ReadLines(NO_FIELDS, lines) == ReadLines(fields, lines[i..])
    {
      var line := lines[i];
      ghost var before := fields;
      if StartsWith(line, "event:") {
        fields := fields.(event := Trim(line[6..]));
      }
      var id := IdOf(line);
      if id.Some? {
        fields := fields.(cursor := id);
      }
      if StartsWith(line, "data:") {
        var rest := line[5..];
        fields := fields.(data := fields.data + [if StartsWith(rest, " ") then rest[1..] else rest]);
      }
      assert fields == ReadLine(before, line);
    }
    event := Event(fields.event, fields.cursor, Join(fields.data));
  }

  // ---- writing ----

  function Prefixed(p: string, ls: seq<string>): (r: seq<string>)
    ensures |r| == |ls| && forall i :: 0 <= i < |ls| ==> r[i] == p + ls[i]
  {
    if ls == [] then [] else [p + ls[0]] + Prefixed(p, ls[1..])
  }

  /** An event as its lines: event, one data line for each line of the data, then the id if there is one. */
  function FieldLines(e: Event): (ls: seq<string>)
    ensures |ls| >= 2
  {
    ["event: " + e.name] + Prefixed("data: ", Lines(e.data))
    + if e.cursor.Some? then ["id: " + Decimal(e.cursor.value)] else []
  }

  function Frame(e: Event): string {
    Join(FieldLines(e))
  }

  function Stream(es: seq<Event>): string {
    if es == [] then "" else Frame(es[0]) + "\n\n" + Stream(es[1..])
  }

  /** What a server can put in a field: the name is trimmed and on one line, and the data has no
      carriage return (JSON text never does). */
  predicate Sendable(e: Event) {
    && e.name != "" && !Blank(e.name[0]) && !Blank(e.name[|e.name| - 1])
    && '\n' !in e.name && '\r' !in e.name && '\r' !in e.data
  }

  // ---- lines ----

  lemma {:induction false} LinesHaveNoNewLine(s: string)
    ensures forall l :: l in Lines(s) ==> '\n' !in l && forall c :: c in l ==> c in s
  {
    var i := NewLine(s);
    if i < |s| {
      LinesHaveNoNewLine(s[i + 1..]);
    }
  }

  lemma JoinCons(l: string, ls: seq<string>)
    requires ls != []
    ensures Join([l] + ls) == l + ['\n'] + Join(ls)
  {
    assert ([l] + ls)[1..] == ls;
  }

  lemma {:induction false} JoinLines(s: string)
    ensures Join(Lines(s)) == s
  {
    var i := NewLine(s);
    if i < |s| {
      JoinLines(s[i + 1..]);
      LinesHead(s, i);
      JoinCons(s[..i], Lines(s[i + 1..]));
      AroundNewLine(s, i);
    }
  }

  lemma {:induction false} LinesHead(s: string, i: nat)
    requires i == NewLine(s) < |s|
    ensures Lines(s) == [s[..i]] + Lines(s[i + 1..])
  {
  }

  lemma AroundNewLine(s: string, i: nat)
    requires i < |s| && s[i] == '\n'
    ensures s[..i] + ['\n'] + s[i + 1..] == s
  {
  }

  lemma NewLineAt(l: string, rest: string)
    requires '\n' !in l
    ensures NewLine(l + ['\n'] + rest) == |l|
  {
    var s := l + ['\n'] + rest;
    assert s[|l|] == '\n';
    assert forall j :: 0 <= j < |l| ==> s[j] == l[j];
  }

  lemma {:induction false} LinesJoin(ls: seq<string>)
    requires ls != [] && forall l :: l in ls ==> '\n' !in l
    ensures Lines(Join(ls)) == ls
  {
    if |ls| == 1 {
      var l := ls[0];
      assert l in ls;
      assert NewLine(l) == |l|;
    } else {
      assert forall l :: l in ls[1..] ==> l in ls;
      LinesJoin(ls[1..]);
      assert ls[0] in ls;
      LinesCons(ls[0], Join(ls[1..]));
      assert ls == [ls[0]] + ls[1..];
    }
  }

  lemma LinesCons(l: string, rest: string)
    requires '\n' !in l
    ensures Lines(l + ['\n'] + rest) == [l] + Lines(rest)
  {
    NewLineAt(l, rest);
    var s := l + ['\n'] + rest;
    assert s[..|l|] == l && s[|l| + 1..] == rest;
  }

  // ---- reading back one frame ----

  lemma {:induction false} ReadLinesAdd(f: Fields, a: seq<string>, b: seq<string>)
    ensures ReadLines(f, a + b) == ReadLines(ReadLines(f, a), b)
    decreases |a|
  {
    if a == [] {
      assert a + b == b;
    } else {
      assert (a + b)[1..] == a[1..] + b;
      ReadLinesAdd(ReadLine(f, a[0]), a[1..], b);
    }
  }

  lemma TrimSpaced(name: string)
    requires name != "" && !Blank(name[0]) && !Blank(name[|name| - 1])
    ensures Trim(" " + name) == name
  {
    assert (" " + name)[1..] == name;
    assert TrimStart(name, Blank) == name;
  }

  lemma ReadEventLine(f: Fields, name: string)
    requires name != "" && !Blank(name[0]) && !Blank(name[|name| - 1])
    ensures ReadLine(f, "event: " + name) == f.(event := name)
  {
    var line := "event: " + name;
    assert line[..6] == "event:" && line[6..] == " " + name;
    TrimSpaced(name);
    assert line[0] == 'e';
    assert !StartsWith(line, "id:") && !StartsWith(line, "data:");
  }

  lemma ReadDataLine(f: Fields, l: string)
    ensures ReadLine(f, "data: " + l) == f.(data := f.data + [l])
  {
    var line := "data: " + l;
    assert line[..5] == "data:" && line[5..] == " " + l && (" " + l)[..1] == " " && (" " + l)[1..] == l;
    assert line[0] == 'd';
    assert !StartsWith(line, "id:") && !StartsWith(line, "event:");
  }

  lemma SkipOneSpace(d: string)
    requires d != "" && d[0] != ' '
    ensures SkipSpaces([' '] + d) == d
  {
    assert ([' '] + d)[1..] == d;
  }

  lemma {:induction false} IdOfIdLine(d: string)
    requires AllDigits(d)
    ensures IdOf("id: " + d) == Some(NumberOf(d))
  {
    var line := "id: " + d;
    assert line[..3] == "id:" && line[3..] == [' '] + d;
    assert IsDigit(d[0]);
    SkipOneSpace(d);
  }

  lemma ReadIdLine(f: Fields, n: nat)
    ensures ReadLine(f, "id: " + Decimal(n)) == f.(cursor := Some(n))
  {
    var line := "id: " + Decimal(n);
    DecimalRoundTrip(n);
    IdOfIdLine(Decimal(n));
    assert line[0] == 'i';
    assert !StartsWith(line, "data:") && !StartsWith(line, "event:");
  }

  lemma {:induction false} ReadDataLines(f: Fields, ls: seq<string>)
    ensures ReadLines(f, Prefixed("data: ", ls)) == f.(data := f.data + ls)
    decreases |ls|
  {
    if ls == [] {
      assert f.data + ls == f.data;
    } else {
      ReadDataLine(f, ls[0]);
      var g := f.(data := f.data + [ls[0]]);
      ReadDataLines(g, ls[1..]);
      assert Prefixed("data: ", ls)[1..] == Prefixed("data: ", ls[1..]);
      assert g.data + ls[1..] == f.data + ls;
    }
  }

  lemma FieldLinesHaveNoNewLine(e: Event)
    requires Sendable(e)
    ensures forall l :: l in FieldLines(e) ==> l != "" && '\n' !in l && '\r' !in l
  {
    LinesHaveNoNewLine(e.data);
    forall l | l in Prefixed("data: ", Lines(e.data)) ensures l != "" && '\n' !in l && '\r' !in l {
      var i :| 0 <= i < |Lines(e.data)| && l == "data: " + Lines(e.data)[i];
      assert Lines(e.data)[i] in Lines(e.data);
    }
    if e.cursor.Some? {
      DecimalRoundTrip(e.cursor.value);
      var d := Decimal(e.cursor.value);
      forall c | c in d ensures IsDigit(c) {
        var i :| 0 <= i < |d| && d[i] == c;
      }
    }
  }

  /** A frame reads back as the event it was written for. */
  lemma FrameRoundTrip(e: Event)
    requires Sendable(e)
    ensures ReadFrame(Frame(e)) == e
  {
    FieldLinesHaveNoNewLine(e);
    LinesJoin(FieldLines(e));
    var head, body := ["event: " + e.name], Prefixed("data: ", Lines(e.data));
    var tail := if e.cursor.Some? then ["id: " + Decimal(e.cursor.value)] else [];
    ReadLinesAdd(NO_FIELDS, head + body, tail);
    ReadLinesAdd(NO_FIELDS, head, body);
    ReadEventLine(NO_FIELDS, e.name);
    var f := NO_FIELDS.(event := e.name);
    assert ReadLines(NO_FIELDS, head) == ReadLines(f, head[1..]) == f;
    ReadDataLines(f, Lines(e.data));
    assert f.data + Lines(e.data) == Lines(e.data);
    var g := f.(data := Lines(e.data));
    if e.cursor.Some? {
      ReadIdLine(g, e.cursor.value);
      assert ReadLines(g, tail) == ReadLines(ReadLine(g, tail[0]), []);
    }
    JoinLines(e.data);
  }

  // ---- reading back a stream ----

  /** Joined non-empty lines hold no blank line and do not end in a line feed. */
  lemma {:induction false} JoinIsClosed(ls: seq<string>)
    requires ls != [] && forall l :: l in ls ==> l != "" && '\n' !in l && '\r' !in l
    ensures var s := Join(ls);
            && '\r' !in s && s != "" && s[0] == ls[0][0] && s[|s| - 1] != '\n'
            && forall j :: 0 <= j < |s| - 1 ==> !(s[j] == '\n' && s[j + 1] == '\n')
  {
    assert ls[0] in ls && ls[0][0] != '\n' && ls[0][|ls[0]| - 1] != '\n';
    if |ls| > 1 {
      forall l | l in ls[1..] ensures l != "" && '\n' !in l && '\r' !in l {
        assert l in ls;
      }
      JoinIsClosed(ls[1..]);
      var s, t, n := Join(ls), Join(ls[1..]), |ls[0]|;
      assert ls[1] in ls && t[0] == ls[1][0] != '\n';
      assert s == ls[0] + "\n" + t;
      forall j | 0 <= j < |s| - 1 ensures !(s[j] == '\n' && s[j + 1] == '\n') {
        if j > n {
          assert s[j] == t[j - n - 1] && s[j + 1] == t[j - n];
        }
      }
    }
  }

  lemma {:induction false} FrameIsClosed(e: Event, rest: string)
    requires Sendable(e)
    ensures '\r' !in Frame(e)
    ensures Split(Frame(e) + "\n\n" + rest) == ([Frame(e)] + Split(rest).0, Split(rest).1)
  {
    FieldLinesHaveNoNewLine(e);
    JoinIsClosed(FieldLines(e));
    var f := Frame(e);
    var p := f + "\n\n";
    assert p[|f|] == '\n' && p[|f| + 1] == '\n';
    forall j | 0 <= j < |f| ensures !(p[j] == '\n' && p[j + 1] == '\n') {
      if j < |f| - 1 {
        assert p[j] == f[j] && p[j + 1] == f[j + 1];
      } else {
        assert p[j] == f[|f| - 1];
      }
    }
    BlankLineIsFirst(p, |f|);
    SplitStep(p, |f|, rest);
    assert p[..|f|] == f;
  }

  lemma {:induction false} NormalizeIdentity(s: string)
    requires '\r' !in s
    ensures Normalize(s) == s
  {
    if |s| >= 2 {
      NormalizeIdentity(s[1..]);
    }
  }

  function Frames(es: seq<Event>): (fs: seq<string>)
    ensures |fs| == |es| && forall i :: 0 <= i < |es| ==> fs[i] == Frame(es[i])
  {
    if es == [] then [] else [Frame(es[0])] + Frames(es[1..])
  }

  lemma {:induction false} StreamSplits(es: seq<Event>)
    requires forall i :: 0 <= i < |es| ==> Sendable(es[i])
    ensures '\r' !in Stream(es) && Split(Stream(es)) == (Frames(es), "")
  {
    if es != [] {
      StreamSplits(es[1..]);
      FrameIsClosed(es[0], Stream(es[1..]));
    }
  }

  /** From the server's fields to the client's: however the written stream is cut into chunks, the
      client reads the events that were written, in order, each once, and nothing is left over. */
  lemma {:induction false} StreamRoundTrip(es: seq<Event>, chunks: seq<string>)
    requires forall i :: 0 <= i < |es| ==> Sendable(es[i])
    requires Concat(chunks) == Stream(es)
    ensures var (frames, rest) := FeedAll("", chunks);
            && rest == "" && |frames| == |es|
            && forall i :: 0 <= i < |es| ==> ReadFrame(frames[i]) == es[i]
  {
    StreamSplits(es);
    var s := Stream(es);
    forall i ensures !CrCrLfAt(s, i) {
    }
    WholeStream(chunks);
    NormalizeIdentity(s);
    forall i | 0 <= i < |es| ensures ReadFrame(Frames(es)[i]) == es[i] {
      FrameRoundTrip(es[i]);
    }
  }
}
