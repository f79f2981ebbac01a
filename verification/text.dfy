/**
 The JavaScript string primitives the client's decisions depend on, written out
 over `string` (a sequence of Unicode scalar values): `String.prototype.trim`,
 the UTF-16 `length`, and the first piece of `split(separator)`.
 */
module Text {

  /**
   The characters `trim()` removes: the ECMAScript WhiteSpace set (tab, vertical
   tab, form feed, space, no-break space, byte order mark and the Unicode space
   separators) and the LineTerminator set (line feed, carriage return, line and
   paragraph separators).
   */
  predicate IsWhitespace(c: char) {
    || c == '\t' || c == '\U{0B}' || c == '\U{0C}' || c == ' '
    || c == '\U{A0}' || c == '\U{FEFF}'
    || c == '\U{1680}' || ('\U{2000}' <= c <= '\U{200A}')
    || c == '\U{202F}' || c == '\U{205F}' || c == '\U{3000}'
    || c == '\n' || c == '\r' || c == '\U{2028}' || c == '\U{2029}'
  }

  /** Every character of `s` is whitespace (vacuously so for ""). */
  predicate IsBlank(s: string) {
    forall i :: 0 <= i < |s| ==> IsWhitespace(s[i])
  }

  /** `s` without its leading whitespace. */
  function TrimStart(s: string): (r: string)
    ensures |r| <= |s| && r == s[|s| - |r|..]
    ensures forall i :: 0 <= i < |s| - |r| ==> IsWhitespace(s[i])
    ensures r != [] ==> !IsWhitespace(r[0])
  {
    if s != [] && IsWhitespace(s[0]) then TrimStart(s[1..]) else s
  }

  /** `s` without its trailing whitespace. */
  function TrimEnd(s: string): (r: string)
    ensures |r| <= |s| && r == s[..|r|]
    ensures forall i :: |r| <= i < |s| ==> IsWhitespace(s[i])
    ensures r != [] ==> !IsWhitespace(r[|r| - 1])
  {
    if s != [] && IsWhitespace(s[|s| - 1]) then TrimEnd(s[..|s| - 1]) else s
  }

  /**
   `s.trim()`: the stretch of `s` between its leading and its trailing
   whitespace. It is the empty (falsy) string exactly when `s` is blank.
   */
  function Trim(s: string): (r: string)
    ensures var k := |s| - |TrimStart(s)|; k + |r| <= |s| && r == s[k..k + |r|]
    ensures var k := |s| - |TrimStart(s)|; forall i :: k + |r| <= i < |s| ==> IsWhitespace(s[i])
    ensures r != [] ==> !IsWhitespace(r[0]) && !IsWhitespace(r[|r| - 1])
    ensures r == "" <==> IsBlank(s)
  {
    TrimEnd(TrimStart(s))
  }

  /**
   `s.length` in JavaScript: the number of UTF-16 code units, two for every
   character outside the Basic Multilingual Plane.
   */
  function Utf16Length(s: string): (n: nat)
    ensures |s| <= n <= 2 * |s|
    ensures n == |s| <==> forall i :: 0 <= i < |s| ==> s[i] as int <= 0xFFFF
  {
    if s == [] then 0
    else
      var rest := Utf16Length(s[1..]);
      assert forall i :: 1 <= i < |s| ==> s[i] == s[1..][i - 1];
      (if s[0] as int <= 0xFFFF then 1 else 2) + rest
  }

  /** The positions of `s` holding a character outside the Basic Multilingual Plane. */
  function Astral(s: string): set<nat> {
    set i: nat | i < |s| && s[i] as int > 0xFFFF
  }

  /** Positions shifted up by one. */
  function Shift(a: set<nat>): set<nat> {
    set i | i in a :: i + 1
  }

  /** Shifting a set of positions keeps its size. */
  lemma {:induction false} ShiftSize(a: set<nat>)
    ensures |Shift(a)| == |a|
    decreases |a|
  {
    if a != {} {
      var x :| x in a;
      var rest := a - {x};
      ShiftSize(rest);
      forall j | j in Shift(a)
        ensures j in Shift(rest) + {x + 1}
      {
        var i :| i in a && j == i + 1;
        assert i == x || i in rest;
      }
      assert Shift(a) == Shift(rest) + {x + 1};
      assert x + 1 !in Shift(rest);
    }
  }

  /** The astral positions of a non-empty string: its head's, if astral, and its tail's shifted by one. */
  lemma AstralCons(s: string)
    requires s != []
    ensures Astral(s) == (if s[0] as int > 0xFFFF then {0} else {}) + Shift(Astral(s[1..]))
  {
    var tail := Astral(s[1..]);
    forall i: nat | i in Astral(s) && i > 0
      ensures i in Shift(tail)
    {
      assert s[1..][i - 1] == s[i];
      assert i - 1 in tail;
    }
  }

  /**
   `length` counts one code unit per character and one more per character
   outside the Basic Multilingual Plane.
   */
  lemma {:induction false} Utf16LengthCounts(s: string)
    ensures Utf16Length(s) == |s| + |Astral(s)|
  {
    if s != [] {
      Utf16LengthCounts(s[1..]);
      AstralCons(s);
      ShiftSize(Astral(s[1..]));
      assert 0 !in Shift(Astral(s[1..]));
    }
  }

  /**
   `s.split(sep)[0]`: the part of `s` before the first `sep`, or all of `s`
   when `sep` does not occur in it.
   */
  function BeforeFirst(s: string, sep: char): (r: string)
    ensures r <= s
    ensures sep !in r
    ensures |r| < |s| ==> s[|r|] == sep
  {
    if s == [] || s[0] == sep then [] else [s[0]] + BeforeFirst(s[1..], sep)
  }

  /** The first piece is the whole string exactly when the separator is absent. */
  lemma BeforeFirstWhole(s: string, sep: char)
    ensures BeforeFirst(s, sep) == s <==> sep !in s
  {
  }
}
