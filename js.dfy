/** The small part of JavaScript's semantics that the two form pages rely on:
    numbers that may be NaN, the `number | ""` field convention, truthiness of
    optional strings, and the string built-ins `trim`, `includes` and `join`. */
module Js {

  datatype Option<+T> = None | Some(value: T)

  /** A JavaScript number as the forms use it: an integer or NaN.
      Money is held as an integer number of cents. */
  datatype Num = NaN | Val(n: int)

  /** A form field typed `number | ""`: the empty-string sentinel or a number. */
  datatype Slot = Blank | Filled(num: Num)

  /** Truthiness of a property that holds a string or is undefined/null. */
  predicate Truthy(s: Option<string>) {
    s.Some? && s.value != ""
  }

  /** `a || b` where `a` is an optional string and `b` a string. */
  function Or(a: Option<string>, b: string): string {
    if Truthy(a) then a.value else b
  }

  /** The characters `String.prototype.trim` removes: WhiteSpace and LineTerminator. */
  predicate IsWhitespace(c: char) {
    || c == '\t' || c == '\n' || c == '\U{B}' || c == '\U{C}' || c == '\r' || c == ' '
    || c == '\U{A0}' || c == '\U{1680}' || ('\U{2000}' <= c <= '\U{200A}')
    || c == '\U{2028}' || c == '\U{2029}' || c == '\U{202F}' || c == '\U{205F}'
    || c == '\U{3000}' || c == '\U{FEFF}'
  }

  predicate AllWhitespace(s: string) {
    forall i :: 0 <= i < |s| ==> IsWhitespace(s[i])
  }

  /** Drops the leading whitespace. */
  function TrimStart(s: string): string {
    if |s| > 0 && IsWhitespace(s[0]) then TrimStart(s[1..]) else s
  }

  /** Drops the trailing whitespace. */
  function TrimEnd(s: string): string {
    if |s| > 0 && IsWhitespace(s[|s| - 1]) then TrimEnd(s[..|s| - 1]) else s
  }

  /** `s.trim()`. */
  function Trim(s: string): string {
    TrimEnd(TrimStart(s))
  }

  /** `TrimStart` gives a suffix of `s`; everything it cuts off is whitespace
      and the result does not start with whitespace. */
  lemma {:induction false} TrimStartSpec(s: string)
    ensures |TrimStart(s)| <= |s| && TrimStart(s) == s[|s| - |TrimStart(s)|..]
    ensures forall i :: 0 <= i < |s| - |TrimStart(s)| ==> IsWhitespace(s[i])
    ensures TrimStart(s) == [] || !IsWhitespace(TrimStart(s)[0])
  {
    if |s| > 0 && IsWhitespace(s[0]) {
      TrimStartSpec(s[1..]);
    }
  }

  /** `TrimEnd` gives a prefix of `s`; everything it cuts off is whitespace
      and the result does not end with whitespace. */
  lemma {:induction false} TrimEndSpec(s: string)
    ensures |TrimEnd(s)| <= |s| && TrimEnd(s) == s[..|TrimEnd(s)|]
    ensures forall i :: |TrimEnd(s)| <= i < |s| ==> IsWhitespace(s[i])
    ensures TrimEnd(s) == [] || !IsWhitespace(TrimEnd(s)[|TrimEnd(s)| - 1])
  {
    if |s| > 0 && IsWhitespace(s[|s| - 1]) {
      TrimEndSpec(s[..|s| - 1]);
    }
  }

  /** `r` is the window of `s` that starts at `lo`, and everything of `s`
      outside that window is whitespace. */
  predicate WindowOf(s: string, r: string, lo: int) {
    && 0 <= lo <= |s| - |r|
    && r == s[lo..lo + |r|]
    && (forall i :: 0 <= i < lo ==> IsWhitespace(s[i]))
    && (forall i :: lo + |r| <= i < |s| ==> IsWhitespace(s[i]))
  }

  /** The trim is a window of `s` bordered by whitespace only, and it neither
      starts nor ends with whitespace. */
  lemma TrimSpec(s: string)
    ensures |Trim(s)| <= |s|
    ensures exists lo :: WindowOf(s, Trim(s), lo)
    ensures Trim(s) == [] || (!IsWhitespace(Trim(s)[0]) && !IsWhitespace(Trim(s)[|Trim(s)| - 1]))
  {
    var t := TrimStart(s);
    var r := TrimEnd(t);
    TrimStartSpec(s);
    TrimEndSpec(t);
    var lo := |s| - |t|;
    assert s[lo..lo + |r|] == r;
    assert forall i :: lo + |r| <= i < |s| ==> s[i] == t[i - lo];
    assert WindowOf(s, r, lo);
    if r != [] {
      assert r[0] == t[0];
    }
  }

  lemma {:induction false} TrimStartFixed(s: string)
    requires s == [] || !IsWhitespace(s[0])
    ensures TrimStart(s) == s
  {
  }

  lemma {:induction false} TrimEndFixed(s: string)
    requires s == [] || !IsWhitespace(s[|s| - 1])
    ensures TrimEnd(s) == s
  {
  }

  /** A string without whitespace at either end is its own trim. */
  lemma TrimFixed(s: string)
    requires s == [] || (!IsWhitespace(s[0]) && !IsWhitespace(s[|s| - 1]))
    ensures Trim(s) == s
  {
    TrimStartFixed(s);
    TrimEndFixed(s);
  }

  /** Trimming twice is trimming once. */
  lemma TrimIdempotent(s: string)
    ensures Trim(Trim(s)) == Trim(s)
  {
    TrimSpec(s);
    TrimFixed(Trim(s));
  }

  /** The trim is empty exactly when the string is whitespace only. */
  lemma TrimEmptyIff(s: string)
    ensures Trim(s) == [] <==> AllWhitespace(s)
  {
    TrimSpec(s);
    var r := Trim(s);
    var lo :| WindowOf(s, r, lo);
    if r != [] {
      assert s[lo] == r[0];
    }
  }

  /** `s.includes(sub)`. */
  predicate Includes(s: string, sub: string) {
    exists i | 0 <= i <= |s| - |sub| :: OccursAt(s, sub, i)
  }

  /** `sub` stands in `s` from index `i` on. */
  predicate OccursAt(s: string, sub: string, i: int) {
    0 <= i <= |s| - |sub| && s[i..i + |sub|] == sub
  }

  /** Inclusion survives appending on either side. */
  lemma IncludesPrepend(a: string, s: string, sub: string)
    requires Includes(s, sub)
    ensures Includes(a + s, sub)
  {
    var i :| 0 <= i <= |s| - |sub| && OccursAt(s, sub, i);
    var t := a + s;
    assert t[|a| + i..|a| + i + |sub|] == s[i..i + |sub|];
    assert OccursAt(t, sub, |a| + i);
  }

  lemma IncludesAppend(s: string, b: string, sub: string)
    requires Includes(s, sub)
    ensures Includes(s + b, sub)
  {
    var i :| 0 <= i <= |s| - |sub| && OccursAt(s, sub, i);
    var t := s + b;
    assert t[i..i + |sub|] == s[i..i + |sub|];
    assert OccursAt(t, sub, i);
  }

  lemma IncludesSelf(s: string)
    ensures Includes(s, s)
  {
    assert OccursAt(s, s, 0);
  }

  /** `xs.join(sep)`: the elements separated by `sep`; "" for an empty array. */
  function Join(xs: seq<string>, sep: string): string
  {
    if |xs| == 0 then ""
    else if |xs| == 1 then xs[0]
    else Join(xs[..|xs| - 1], sep) + sep + xs[|xs| - 1]
  }

  /** Every element of the array appears in its join. */
  lemma {:induction false} JoinIncludesEach(xs: seq<string>, sep: string, i: int)
    requires 0 <= i < |xs|
    ensures Includes(Join(xs, sep), xs[i])
  {
    if |xs| == 1 {
      IncludesSelf(xs[0]);
    } else {
      var front := Join(xs[..|xs| - 1], sep);
      assert Join(xs, sep) == (front + sep) + xs[|xs| - 1];
      if i == |xs| - 1 {
        IncludesSelf(xs[i]);
        IncludesPrepend(front + sep, xs[i], xs[i]);
      } else {
        assert xs[..|xs| - 1][i] == xs[i];
        JoinIncludesEach(xs[..|xs| - 1], sep, i);
        IncludesAppend(front, sep, xs[i]);
        IncludesAppend(front + sep, xs[|xs| - 1], xs[i]);
      }
    }
  }

  /** The join's length: the elements' lengths plus one separator between each pair. */
  function TotalLength(xs: seq<string>): nat {
    if xs == [] then 0 else TotalLength(xs[..|xs| - 1]) + |xs[|xs| - 1]|
  }

  lemma {:induction false} JoinLength(xs: seq<string>, sep: string)
    requires |xs| > 0
    ensures |Join(xs, sep)| == TotalLength(xs) + (|xs| - 1) * |sep|
  {
    if |xs| > 1 {
      JoinLength(xs[..|xs| - 1], sep);
    } else {
      assert xs[..0] == [];
    }
  }
}
