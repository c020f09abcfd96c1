/**
 * Character classes and trimming shared by the browser client and the server.
 *
 * JavaScript's `String.prototype.trim` and the regular-expression class `\s`
 * use one set of characters (WhiteSpace and LineTerminator of ECMAScript);
 * Python's `str.strip()` uses the characters for which `str.isspace()` holds.
 * The two sets differ, so both are written out.
 */
module Text {

  /** `\s` in a JavaScript regular expression, and what `trim()` removes. */
  predicate IsJsWhitespace(c: char)
  {
    var n := c as int;
    (0x09 <= n <= 0x0D) || n == 0x20 || n == 0xA0 || n == 0x1680
    || (0x2000 <= n <= 0x200A) || n == 0x2028 || n == 0x2029
    || n == 0x202F || n == 0x205F || n == 0x3000 || n == 0xFEFF
  }

  /** Python's `str.isspace()` on a one-character string, and what `strip()` removes. */
  predicate IsPySpace(c: char)
  {
    var n := c as int;
    (0x09 <= n <= 0x0D) || (0x1C <= n <= 0x1F) || n == 0x20 || n == 0x85
    || n == 0xA0 || n == 0x1680 || (0x2000 <= n <= 0x200A)
    || n == 0x2028 || n == 0x2029 || n == 0x202F || n == 0x205F || n == 0x3000
  }

  /** The characters one of the two languages strips and the other keeps. */
  lemma WhitespaceGap(c: char)
    ensures IsPySpace(c) && !IsJsWhitespace(c) <==> (0x1C <= c as int <= 0x1F || c as int == 0x85)
    ensures IsJsWhitespace(c) && !IsPySpace(c) <==> c as int == 0xFEFF
  {
  }

  /** Every character of `s` is in the class `ws`. */
  ghost predicate AllIn(s: string, ws: char -> bool)
  {
    forall i :: 0 <= i < |s| ==> ws(s[i])
  }

  /** `s` with its leading characters of class `ws` removed. */
  function TrimStart(s: string, ws: char -> bool): (r: string)
    ensures |r| <= |s| && r == s[|s| - |r|..]
    ensures forall i :: 0 <= i < |s| - |r| ==> ws(s[i])
    ensures r != [] ==> !ws(r[0])
  {
    if |s| > 0 && ws(s[0]) then TrimStart(s[1..], ws) else s
  }

  /** `s` with its trailing characters of class `ws` removed. */
  function TrimEnd(s: string, ws: char -> bool): (r: string)
    ensures |r| <= |s| && r == s[..|r|]
    ensures forall i :: |r| <= i < |s| ==> ws(s[i])
    ensures r != [] ==> !ws(r[|r| - 1])
  {
    if |s| > 0 && ws(s[|s| - 1]) then TrimEnd(s[..|s| - 1], ws) else s
  }

  /**
   * `s` with leading and trailing characters of class `ws` removed: the
   * result neither starts nor ends with a character of `ws`, and it is empty
   * exactly when every character of `s` is in `ws` (TrimSplit and TrimPadded
   * say which piece of `s` it is).
   */
  function Trim(s: string, ws: char -> bool): (r: string)
    ensures |r| <= |s|
    ensures r != [] ==> !ws(r[0]) && !ws(r[|r| - 1])
    ensures r == [] <==> AllIn(s, ws)
  {
    if |s| > 0 && ws(s[0]) then
      Trim(s[1..], ws)
    else
      TrimEnd(s, ws)
  }

  /** Trimming both ends is trimming the start, then the end. */
  lemma {:induction false} TrimComposes(s: string, ws: char -> bool)
    ensures Trim(s, ws) == TrimEnd(TrimStart(s, ws), ws)
  {
    if |s| > 0 && ws(s[0]) {
      TrimComposes(s[1..], ws);
    }
  }

  /** The trimmed string is the piece of `s` left between two runs of class characters. */
  lemma {:induction false} TrimSplit(s: string, ws: char -> bool) returns (a: nat)
    ensures a + |Trim(s, ws)| <= |s|
    ensures Trim(s, ws) == s[a..a + |Trim(s, ws)|]
    ensures forall i :: 0 <= i < a ==> ws(s[i])
    ensures forall i :: a + |Trim(s, ws)| <= i < |s| ==> ws(s[i])
  {
    if |s| > 0 && ws(s[0]) {
      var b := TrimSplit(s[1..], ws);
      a := b + 1;
      var r := Trim(s, ws);
      assert r == Trim(s[1..], ws);
      assert s[1..][b..b + |r|] == s[a..a + |r|];
      forall i | 0 <= i < a ensures ws(s[i]) {
        if i > 0 { assert s[i] == s[1..][i - 1]; }
      }
      forall i | a + |r| <= i < |s| ensures ws(s[i]) {
        assert s[i] == s[1..][i - 1];
      }
    } else {
      a := 0;
    }
  }

  /** JavaScript's `trim()` */
  function JsTrim(s: string): (t: string)
  {
    Trim(s, IsJsWhitespace)
  }

  /** Python's `str.strip()` with no argument */
  function PyStrip(s: string): (t: string)
  {
    Trim(s, IsPySpace)
  }

  /** Padding a piece that has no class character at either end trims back to the piece. */
  lemma {:induction false} TrimPadded(p: string, t: string, q: string, ws: char -> bool)
    requires AllIn(p, ws) && AllIn(q, ws)
    requires t != [] ==> !ws(t[0]) && !ws(t[|t| - 1])
    requires t == [] ==> q == []
    ensures Trim(p + t + q, ws) == t
  {
    if p != [] {
      assert (p + t + q)[0] == p[0];
      assert (p + t + q)[1..] == p[1..] + t + q;
      TrimPadded(p[1..], t, q, ws);
    } else {
      assert p + t + q == t + q;
      if t != [] {
        assert (t + q)[0] == t[0];
      }
      TrimEndPadded(t, q, ws);
    }
  }

  lemma {:induction false} TrimEndPadded(t: string, q: string, ws: char -> bool)
    requires AllIn(q, ws)
    requires t != [] ==> !ws(t[|t| - 1])
    requires t == [] ==> q == []
    ensures TrimEnd(t + q, ws) == t
  {
    if q != [] {
      assert (t + q)[..|t + q| - 1] == t + q[..|q| - 1];
      TrimEndPadded(t, q[..|q| - 1], ws);
    } else {
      assert t + q == t;
    }
  }

  /** Trimming twice is trimming once. */
  lemma TrimIdempotent(s: string, ws: char -> bool)
    ensures Trim(Trim(s, ws), ws) == Trim(s, ws)
  {
    var r := Trim(s, ws);
    TrimPadded([], r, [], ws);
    assert [] + r + [] == r;
  }

  /**
   * JavaScript's `length`: the number of UTF-16 code units, so a character
   * outside the Basic Multilingual Plane counts twice.
   */
  function Utf16Length(s: string): (n: nat)
    ensures |s| <= n <= 2 * |s|
    ensures (forall i :: 0 <= i < |s| ==> s[i] as int <= 0xFFFF) ==> n == |s|
  {
    if s == [] then 0
    else (if s[0] as int > 0xFFFF then 2 else 1) + Utf16Length(s[1..])
  }
}
