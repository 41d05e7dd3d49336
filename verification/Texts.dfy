/** White space, as String's `trim` removes it, and the ends of lists. */
module Texts {

  /** White space and line terminators among UTF-16 units. */
  predicate IsSpace(u: int) {
    || 0x09 <= u <= 0x0D || u == 0x20 || u == 0xA0 || u == 0x1680 || 0x2000 <= u <= 0x200A
    || u == 0x2028 || u == 0x2029 || u == 0x202F || u == 0x205F || u == 0x3000 || u == 0xFEFF
  }

  function TrimStart<T>(t: seq<T>, space: T -> bool): seq<T> {
    if t != [] && space(t[0]) then TrimStart(t[1..], space) else t
  }

  function TrimEnd<T>(t: seq<T>, space: T -> bool): seq<T> {
    if t != [] && space(t[|t| - 1]) then TrimEnd(t[..|t| - 1], space) else t
  }

  function TrimBoth<T>(t: seq<T>, space: T -> bool): seq<T> {
    TrimEnd(TrimStart(t, space), space)
  }

  /** `slice(-n)` of a list. */
  function LastOf<T>(s: seq<T>, n: nat): seq<T> {
    if |s| <= n then s else s[|s| - n..]
  }

  ghost predicate AllSpace<T>(t: seq<T>, space: T -> bool) {
    forall i :: 0 <= i < |t| ==> space(t[i])
  }

  lemma {:induction false} TrimStartIs<T>(t: seq<T>, space: T -> bool) returns (lead: seq<T>)
    ensures t == lead + TrimStart(t, space) && AllSpace(lead, space)
    ensures TrimStart(t, space) != [] ==> !space(TrimStart(t, space)[0])
  {
    lead := [];
    if t != [] && space(t[0]) {
      var rest := TrimStartIs(t[1..], space);
      lead := [t[0]] + rest;
      assert t == [t[0]] + t[1..];
    }
  }

  lemma {:induction false} TrimEndIs<T>(t: seq<T>, space: T -> bool) returns (trail: seq<T>)
    ensures t == TrimEnd(t, space) + trail && AllSpace(trail, space)
    ensures var r := TrimEnd(t, space); r != [] ==> !space(r[|r| - 1]) && r[0] == t[0]
  {
    trail := [];
    if t != [] && space(t[|t| - 1]) {
      var front := TrimEndIs(t[..|t| - 1], space);
      trail := front + [t[|t| - 1]];
      assert t == t[..|t| - 1] + [t[|t| - 1]];
    }
  }

  /** A trimmed text is the text without white space at its ends, and nothing else is taken away. */
  lemma TrimIs<T>(t: seq<T>, space: T -> bool) returns (lead: seq<T>, trail: seq<T>)
    ensures var r := TrimBoth(t, space);
            && t == lead + r + trail && AllSpace(lead, space) && AllSpace(trail, space)
            && (r != [] ==> !space(r[0]) && !space(r[|r| - 1]))
  {
    lead := TrimStartIs(t, space);
    trail := TrimEndIs(TrimStart(t, space), space);
  }
}
