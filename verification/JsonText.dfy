/** JSON values and the text JSON.stringify gives them, over UTF-16 code units. */
module JsonText {

  type CodeUnit = u: int | 0 <= u < 0x10000

  type Text = seq<CodeUnit>

  const QUOTE: CodeUnit := 0x22
  const BACKSLASH: CodeUnit := 0x5C
  const COMMA: CodeUnit := 0x2C
  const COLON: CodeUnit := 0x3A
  const LBRACKET: CodeUnit := 0x5B
  const RBRACKET: CodeUnit := 0x5D
  const LBRACE: CodeUnit := 0x7B
  const RBRACE: CodeUnit := 0x7D
  const LOWER_U: CodeUnit := 0x75

  const NULL: Text := [0x6E, 0x75, 0x6C, 0x6C]
  const TRUE: Text := [0x74, 0x72, 0x75, 0x65]
  const FALSE: Text := [0x66, 0x61, 0x6C, 0x73, 0x65]

  /** Digits, sign, point and exponent. */
  predicate NumberUnit(u: CodeUnit) {
    0x30 <= u <= 0x39 || u == 0x2B || u == 0x2D || u == 0x2E || u == 0x65
  }

  predicate IsNumberText(t: Text) {
    t != [] && (0x30 <= t[0] <= 0x39 || t[0] == 0x2D) && forall i :: 0 <= i < |t| ==> NumberUnit(t[i])
  }

  /** A finite number stands for itself by the text Number's toString gives it. */
  type NumberText = t: Text | IsNumberText(t) witness [0x30]

  datatype Entry = Entry(key: Text, value: Json)

  datatype Json =
    | Null
    | Bool(b: bool)
    | Num(number: NumberText)
    | Str(s: Text)
    | Arr(items: seq<Json>)
    | Obj(entries: seq<Entry>)

  // ---- strings ----

  predicate IsHigh(u: CodeUnit) { 0xD800 <= u <= 0xDBFF }
  predicate IsLow(u: CodeUnit) { 0xDC00 <= u <= 0xDFFF }
  predicate IsSurrogate(u: CodeUnit) { IsHigh(u) || IsLow(u) }

  function HexDigit(n: int): CodeUnit
    requires 0 <= n < 16
  {
    if n < 10 then 0x30 + n else 0x57 + n
  }

  function Hex4(u: CodeUnit): Text {
    [HexDigit(u / 0x1000), HexDigit(u / 0x100 % 16), HexDigit(u / 16 % 16), HexDigit(u % 16)]
  }

  /** The letter of a two-unit escape, 0 if the unit has none. */
  function ShortEscape(u: CodeUnit): CodeUnit {
    match u
    case 0x22 => 0x22
    case 0x5C => 0x5C
    case 0x08 => 0x62
    case 0x0C => 0x66
    case 0x0A => 0x6E
    case 0x0D => 0x72
    case 0x09 => 0x74
    case _ => 0
  }

  function EscapeUnit(u: CodeUnit): Text {
    if ShortEscape(u) != 0 then [BACKSLASH, ShortEscape(u)]
    else if u < 0x20 || IsSurrogate(u) then [BACKSLASH, LOWER_U] + Hex4(u)
    else [u]
  }

  predicate StartsWithPair(s: Text) {
    |s| >= 2 && IsHigh(s[0]) && IsLow(s[1])
  }

  /** Surrogate pairs stay as they are, lone surrogates are escaped. */
  function Escape(s: Text): Text {
    if s == [] then []
    else if StartsWithPair(s) then s[..2] + Escape(s[2..])
    else EscapeUnit(s[0]) + Escape(s[1..])
  }

  function Quote(s: Text): Text {
    [QUOTE] + Escape(s) + [QUOTE]
  }

  // ---- printing, members in the order they stand ----

  function Print(v: Json): Text
    decreases v
  {
    match v
    case Null => NULL
    case Bool(b) => if b then TRUE else FALSE
    case Num(t) => t
    case Str(s) => Quote(s)
    case Arr(items) => [LBRACKET] + PrintItems(items) + [RBRACKET]
    case Obj(entries) => [LBRACE] + PrintEntries(entries) + [RBRACE]
  }

  function PrintItems(items: seq<Json>): Text
    decreases items
  {
    if items == [] then []
    else if |items| == 1 then Print(items[0])
    else Print(items[0]) + [COMMA] + PrintItems(items[1..])
  }

  function PrintEntry(e: Entry): Text
    decreases e
  {
    Quote(e.key) + [COLON] + Print(e.value)
  }

  function PrintEntries(entries: seq<Entry>): Text
    decreases entries
  {
    if entries == [] then []
    else if |entries| == 1 then PrintEntry(entries[0])
    else PrintEntry(entries[0]) + [COMMA] + PrintEntries(entries[1..])
  }

  // ---- the text determines the value ----

  lemma HexDigitInjective(a: int, b: int)
    requires 0 <= a < 16 && 0 <= b < 16 && HexDigit(a) == HexDigit(b)
    ensures a == b
  {
  }

  /** A code unit is the number its four digits spell. */
  lemma FourDigits(u: CodeUnit)
    ensures u == 0x1000 * (u / 0x1000) + 0x100 * (u / 0x100 % 16) + 16 * (u / 16 % 16) + u % 16
  {
    assert u / 0x100 / 16 == u / 0x1000;
    assert u / 16 / 16 == u / 0x100;
  }

  lemma Hex4Injective(u: CodeUnit, w: CodeUnit)
    requires Hex4(u) == Hex4(w)
    ensures u == w
  {
    var x, y := Hex4(u), Hex4(w);
    assert x[0] == y[0] && x[1] == y[1] && x[2] == y[2] && x[3] == y[3];
    HexDigitInjective(u / 0x1000, w / 0x1000);
    HexDigitInjective(u / 0x100 % 16, w / 0x100 % 16);
    HexDigitInjective(u / 16 % 16, w / 16 % 16);
    HexDigitInjective(u % 16, w % 16);
    FourDigits(u);
    FourDigits(w);
  }

  lemma CancelPrefix(p: Text, x: Text, y: Text)
    requires p + x == p + y
    ensures x == y
  {
    assert x == (p + x)[|p|..] && y == (p + y)[|p|..];
  }

  lemma EscapeUnitCancel(u: CodeUnit, w: CodeUnit, x: Text, y: Text)
    requires EscapeUnit(u) + x == EscapeUnit(w) + y
    ensures u == w && x == y
  {
    var s, t := EscapeUnit(u) + x, EscapeUnit(w) + y;
    assert s[0] == t[0];
    if s[0] == BACKSLASH {
      assert s[1] == t[1];
      if s[1] == LOWER_U {
        assert Hex4(u) == s[2..6] == t[2..6] == Hex4(w);
        Hex4Injective(u, w);
      }
    }
    CancelPrefix(EscapeUnit(u), x, y);
  }

  /** A quoted string's text up to the closing quote and beyond. */
  function Closed(s: Text, r: Text): Text {
    Escape(s) + [QUOTE] + r
  }

  lemma ClosedCases(s: Text, r: Text)
    ensures s == [] ==> Closed(s, r) == [QUOTE] + r
    ensures StartsWithPair(s) ==> Closed(s, r) == s[..2] + Closed(s[2..], r) && IsHigh(Closed(s, r)[0])
    ensures s != [] && !StartsWithPair(s) ==>
              Closed(s, r) == EscapeUnit(s[0]) + Closed(s[1..], r) && !IsHigh(Closed(s, r)[0])
    ensures Closed(s, r)[0] == QUOTE <==> s == []
  {
  }

  lemma {:induction false} ClosedCancel(s: Text, t: Text, r: Text, q: Text)
    requires Closed(s, r) == Closed(t, q)
    ensures s == t && r == q
    decreases |s|
  {
    ClosedCases(s, r);
    ClosedCases(t, q);
    if s == [] {
      CancelPrefix([QUOTE], r, q);
    } else if StartsWithPair(s) {
      var x := Closed(s, r);
      assert s[..2] == x[..2] == t[..2];
      CancelPrefix(s[..2], Closed(s[2..], r), Closed(t[2..], q));
      ClosedCancel(s[2..], t[2..], r, q);
      assert s == s[..2] + s[2..] && t == t[..2] + t[2..];
    } else {
      EscapeUnitCancel(s[0], t[0], Closed(s[1..], r), Closed(t[1..], q));
      ClosedCancel(s[1..], t[1..], r, q);
      assert s == [s[0]] + s[1..] && t == [t[0]] + t[1..];
    }
  }

  lemma QuoteCancel(s: Text, t: Text, r: Text, q: Text)
    requires Quote(s) + r == Quote(t) + q
    ensures s == t && r == q
  {
    assert Quote(s) + r == [QUOTE] + Closed(s, r);
    assert Quote(t) + q == [QUOTE] + Closed(t, q);
    CancelPrefix([QUOTE], Closed(s, r), Closed(t, q));
    ClosedCancel(s, t, r, q);
  }

  /** What can follow a value: nothing, a comma or a closing bracket. */
  predicate Ends(r: Text) {
    r == [] || r[0] == COMMA || r[0] == RBRACKET || r[0] == RBRACE
  }

  lemma NumberCancel(s: NumberText, t: NumberText, r: Text, q: Text)
    requires Ends(r) && Ends(q) && s + r == t + q
    ensures s == t && r == q
  {
    var x, y := s + r, t + q;
    assert forall i :: 0 <= i < |s| ==> NumberUnit(x[i]);
    assert forall i :: 0 <= i < |t| ==> NumberUnit(y[i]);
    assert |s| < |x| ==> x[|s|] == r[0] && !NumberUnit(x[|s|]);
    assert |t| < |y| ==> y[|t|] == q[0] && !NumberUnit(y[|t|]);
    assert |s| == |t|;
    assert s == x[..|s|] && t == y[..|t|];
    CancelPrefix(s, r, q);
  }

  /** The first unit tells the kind of value. */
  function Lead(v: Json): CodeUnit {
    match v
    case Null => 0x6E
    case Bool(b) => if b then 0x74 else 0x66
    case Num(t) => t[0]
    case Str(_) => QUOTE
    case Arr(_) => LBRACKET
    case Obj(_) => LBRACE
  }

  lemma PrintLead(v: Json, r: Text)
    ensures Print(v) != [] && (Print(v) + r)[0] == Print(v)[0] == Lead(v)
    ensures Lead(v) != RBRACKET && Lead(v) != RBRACE && Lead(v) != COMMA
  {
  }

  /** The printed text of a value, wherever it stands, determines the value and what follows. */
  lemma {:induction false} PrintCancel(v: Json, w: Json, r: Text, q: Text)
    requires Ends(r) && Ends(q) && Print(v) + r == Print(w) + q
    ensures v == w && r == q
    decreases v
  {
    PrintLead(v, r);
    PrintLead(w, q);
    match v
    case Null => CancelPrefix(NULL, r, q);
    case Bool(b) => CancelPrefix(Print(v), r, q);
    case Num(t) => NumberCancel(t, w.number, r, q);
    case Str(s) => QuoteCancel(s, w.s, r, q);
    case Arr(items) =>
      var x, y := ItemsClosed(items, r), ItemsClosed(w.items, q);
      assert Print(v) + r == [LBRACKET] + x && Print(w) + q == [LBRACKET] + y;
      CancelPrefix([LBRACKET], x, y);
      ItemsCancel(items, w.items, r, q);
    case Obj(entries) =>
      var x, y := EntriesClosed(entries, r), EntriesClosed(w.entries, q);
      assert Print(v) + r == [LBRACE] + x && Print(w) + q == [LBRACE] + y;
      CancelPrefix([LBRACE], x, y);
      EntriesCancel(entries, w.entries, r, q);
  }

  /** The text of a list's items up to the closing bracket and beyond. */
  function ItemsClosed(items: seq<Json>, r: Text): Text {
    PrintItems(items) + [RBRACKET] + r
  }

  function ItemsTail(items: seq<Json>, r: Text): Text
    requires items != []
  {
    if |items| == 1 then [RBRACKET] + r else [COMMA] + ItemsClosed(items[1..], r)
  }

  lemma ItemsCases(items: seq<Json>, r: Text)
    ensures items == [] ==> ItemsClosed(items, r) == [RBRACKET] + r
    ensures items != [] ==> ItemsClosed(items, r) == Print(items[0]) + ItemsTail(items, r)
    ensures items != [] ==> Ends(ItemsTail(items, r))
    ensures ItemsClosed(items, r)[0] == RBRACKET <==> items == []
  {
    if items != [] {
      ItemsHead(items, r);
      PrintLead(items[0], ItemsTail(items, r));
    }
  }

  lemma ItemsHead(items: seq<Json>, r: Text)
    requires items != []
    ensures ItemsClosed(items, r) == Print(items[0]) + ItemsTail(items, r)
  {
    var p := Print(items[0]);
    if |items| == 1 {
      assert p + [RBRACKET] + r == p + ([RBRACKET] + r);
    } else {
      var q := PrintItems(items[1..]);
      assert p + [COMMA] + q + [RBRACKET] + r == p + ([COMMA] + (q + [RBRACKET] + r));
    }
  }

  lemma {:induction false} ItemsCancel(a: seq<Json>, b: seq<Json>, r: Text, q: Text)
    requires ItemsClosed(a, r) == ItemsClosed(b, q)
    ensures a == b && r == q
    decreases a
  {
    ItemsCases(a, r);
    ItemsCases(b, q);
    if a == [] {
      CancelPrefix([RBRACKET], r, q);
    } else {
      PrintCancel(a[0], b[0], ItemsTail(a, r), ItemsTail(b, q));
      assert ItemsTail(a, r)[0] == ItemsTail(b, q)[0];
      assert a == [a[0]] + a[1..] && b == [b[0]] + b[1..];
      if |a| == 1 {
        CancelPrefix([RBRACKET], r, q);
      } else {
        CancelPrefix([COMMA], ItemsClosed(a[1..], r), ItemsClosed(b[1..], q));
        ItemsCancel(a[1..], b[1..], r, q);
      }
    }
  }

  function EntriesClosed(entries: seq<Entry>, r: Text): Text {
    PrintEntries(entries) + [RBRACE] + r
  }

  function EntriesTail(entries: seq<Entry>, r: Text): Text
    requires entries != []
  {
    if |entries| == 1 then [RBRACE] + r else [COMMA] + EntriesClosed(entries[1..], r)
  }

  lemma EntryLead(e: Entry, r: Text)
    ensures PrintEntry(e) != [] && (PrintEntry(e) + r)[0] == QUOTE
  {
  }

  lemma EntriesFirst(entries: seq<Entry>, r: Text)
    requires entries != []
    ensures EntriesClosed(entries, r) == PrintEntry(entries[0]) + EntriesTail(entries, r)
  {
    var p := PrintEntry(entries[0]);
    if |entries| > 1 {
      var more := PrintEntries(entries[1..]);
      assert PrintEntries(entries) == p + [COMMA] + more;
      assert (p + [COMMA] + more) + [RBRACE] + r == p + ([COMMA] + (more + [RBRACE] + r));
    } else {
      assert PrintEntries(entries) == p;
      assert p + [RBRACE] + r == p + ([RBRACE] + r);
    }
  }

  lemma EntriesCases(entries: seq<Entry>, r: Text)
    ensures entries == [] ==> EntriesClosed(entries, r) == [RBRACE] + r
    ensures entries != [] ==> EntriesClosed(entries, r) == PrintEntry(entries[0]) + EntriesTail(entries, r)
    ensures entries != [] ==> Ends(EntriesTail(entries, r))
    ensures EntriesClosed(entries, r)[0] == RBRACE <==> entries == []
  {
    if entries != [] {
      EntriesFirst(entries, r);
      EntryLead(entries[0], EntriesTail(entries, r));
    }
  }

  lemma {:induction false} EntryCancel(a: Entry, b: Entry, r: Text, q: Text)
    requires Ends(r) && Ends(q) && PrintEntry(a) + r == PrintEntry(b) + q
    ensures a == b && r == q
    decreases a
  {
    EntryHead(a, r);
    EntryHead(b, q);
    QuoteCancel(a.key, b.key, [COLON] + (Print(a.value) + r), [COLON] + (Print(b.value) + q));
    CancelPrefix([COLON], Print(a.value) + r, Print(b.value) + q);
    PrintCancel(a.value, b.value, r, q);
  }

  lemma EntryHead(e: Entry, r: Text)
    ensures PrintEntry(e) + r == Quote(e.key) + ([COLON] + (Print(e.value) + r))
  {
    Associates(Quote(e.key), [COLON], Print(e.value), r);
  }

  lemma Associates(a: Text, b: Text, c: Text, d: Text)
    ensures a + b + c + d == a + (b + (c + d))
  {
  }

  lemma {:induction false} EntriesCancel(a: seq<Entry>, b: seq<Entry>, r: Text, q: Text)
    requires EntriesClosed(a, r) == EntriesClosed(b, q)
    ensures a == b && r == q
    decreases a
  {
    EntriesCases(a, r);
    EntriesCases(b, q);
    if a == [] {
      CancelPrefix([RBRACE], r, q);
    } else {
      EntryCancel(a[0], b[0], EntriesTail(a, r), EntriesTail(b, q));
      assert EntriesTail(a, r)[0] == EntriesTail(b, q)[0];
      assert a == [a[0]] + a[1..] && b == [b[0]] + b[1..];
      if |a| == 1 {
        CancelPrefix([RBRACE], r, q);
      } else {
        CancelPrefix([COMMA], EntriesClosed(a[1..], r), EntriesClosed(b[1..], q));
        EntriesCancel(a[1..], b[1..], r, q);
      }
    }
  }

  /** Printing is injective. */
  lemma {:induction false} PrintInjective(v: Json, w: Json)
    requires Print(v) == Print(w)
    ensures v == w
  {
    assert Print(v) + [] == Print(w) + [];
    PrintCancel(v, w, [], []);
  }
}
