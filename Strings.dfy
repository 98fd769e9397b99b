/**
 * The two JavaScript string operations the application relies on:
 * `String.prototype.includes` (error classification) and
 * `String.prototype.trim` (the blank-niche check).
 */
module Strings {

  /** `t` occurs in `s` starting at index `i`. */
  predicate OccursAt(t: string, s: string, i: int)
  {
    0 <= i <= |s| - |t| && s[i..i + |t|] == t
  }

  /** `t` occurs in `s` at some position: the meaning of `s.includes(t)`. */
  ghost predicate IsInfix(t: string, s: string)
  {
    exists i :: OccursAt(t, s, i)
  }

  /** `s.includes(t)`, searched left to right. */
  function Contains(s: string, t: string): (r: bool)
    ensures r <==> IsInfix(t, s)
    decreases |s|
  {
    if |t| > |s| then false
    else if s[..|t|] == t then assert OccursAt(t, s, 0); true
    else InfixShift(s, t); Contains(s[1..], t)
  }

  /** When `t` is not at the front of `s`, it occurs in `s` iff it occurs in `s[1..]`. */
  lemma InfixShift(s: string, t: string)
    requires |t| <= |s| && s[..|t|] != t
    ensures IsInfix(t, s) <==> IsInfix(t, s[1..])
  {
    if IsInfix(t, s[1..]) {
      var i :| OccursAt(t, s[1..], i);
      assert s[i + 1..i + 1 + |t|] == t;
      assert OccursAt(t, s, i + 1);
    }
    if IsInfix(t, s) {
      var i :| OccursAt(t, s, i);
      assert i != 0;
      assert s[1..][i - 1..i - 1 + |t|] == t;
      assert OccursAt(t, s[1..], i - 1);
    }
  }

  /**
   * The characters `trim` removes: ECMAScript's WhiteSpace (tab, vertical
   * tab, form feed, space, no-break space, byte order mark and the other
   * Unicode space separators) and LineTerminator (line feed, carriage return,
   * line and paragraph separators).
   */
  predicate IsWhitespace(c: char)
  {
    || c == '\t' || c == '\n' || c == '\U{B}' || c == '\U{C}' || c == '\r'
    || c == ' ' || c == '\U{A0}' || c == '\U{1680}'
    || ('\U{2000}' <= c <= '\U{200A}')
    || c == '\U{2028}' || c == '\U{2029}' || c == '\U{202F}' || c == '\U{205F}'
    || c == '\U{3000}' || c == '\U{FEFF}'
  }

  /** Drops the leading whitespace. */
  function TrimStart(s: string): string
    decreases |s|
  {
    if s != [] && IsWhitespace(s[0]) then TrimStart(s[1..]) else s
  }

  /** Drops the trailing whitespace. */
  function TrimEnd(s: string): string
    decreases |s|
  {
    if s != [] && IsWhitespace(s[|s| - 1]) then TrimEnd(s[..|s| - 1]) else s
  }

  /** `s.trim()`. */
  function Trim(s: string): string
  {
    TrimEnd(TrimStart(s))
  }

  /** `!s.trim()`: the trimmed string is empty, hence falsy. */
  predicate IsBlank(s: string)
  {
    Trim(s) == ""
  }

  /**
   * `TrimStart` keeps a suffix, drops only whitespace, and what it keeps does
   * not start with whitespace.
   */
  lemma {:induction false} TrimStartSpec(s: string)
    ensures |TrimStart(s)| <= |s| && TrimStart(s) == s[|s| - |TrimStart(s)|..]
    ensures forall i :: 0 <= i < |s| - |TrimStart(s)| ==> IsWhitespace(s[i])
    ensures TrimStart(s) != [] ==> !IsWhitespace(TrimStart(s)[0])
    decreases |s|
  {
    if s != [] && IsWhitespace(s[0]) {
      TrimStartSpec(s[1..]);
      assert TrimStart(s) == TrimStart(s[1..]);
      forall i | 1 <= i < |s| - |TrimStart(s)| ensures IsWhitespace(s[i]) {
        assert s[i] == s[1..][i - 1];
      }
    }
  }

  /**
   * `TrimEnd` keeps a prefix, drops only whitespace, and what it keeps does
   * not end with whitespace.
   */
  lemma {:induction false} TrimEndSpec(s: string)
    ensures |TrimEnd(s)| <= |s| && TrimEnd(s) == s[..|TrimEnd(s)|]
    ensures forall i :: |TrimEnd(s)| <= i < |s| ==> IsWhitespace(s[i])
    ensures TrimEnd(s) != [] ==> !IsWhitespace(TrimEnd(s)[|TrimEnd(s)| - 1])
    decreases |s|
  {
    if s != [] && IsWhitespace(s[|s| - 1]) {
      TrimEndSpec(s[..|s| - 1]);
      assert TrimEnd(s) == TrimEnd(s[..|s| - 1]);
      forall i | |TrimEnd(s)| <= i < |s| - 1 ensures IsWhitespace(s[i]) {
        assert s[i] == s[..|s| - 1][i];
      }
    }
  }

  /**
   * `trim` keeps a contiguous piece of the input that neither starts nor ends
   * with whitespace, and removes only whitespace around it.
   */
  lemma TrimKeepsCore(s: string)
    ensures exists a :: OccursAt(Trim(s), s, a)
    ensures Trim(s) != [] ==> !IsWhitespace(Trim(s)[0]) && !IsWhitespace(Trim(s)[|Trim(s)| - 1])
  {
    var t := TrimStart(s);
    TrimStartSpec(s);
    TrimEndSpec(t);
    var a := |s| - |t|;
    assert s[a..a + |Trim(s)|] == t[..|Trim(s)|];
    assert OccursAt(Trim(s), s, a);
    if Trim(s) != [] {
      assert Trim(s)[0] == t[0];
    }
  }

  /** A string is blank exactly when every character in it is whitespace. */
  lemma BlankIffAllWhitespace(s: string)
    ensures IsBlank(s) <==> forall i :: 0 <= i < |s| ==> IsWhitespace(s[i])
  {
    var t := TrimStart(s);
    TrimStartSpec(s);
    TrimEndSpec(t);
    if IsBlank(s) {
      assert |TrimEnd(t)| == 0;
      assert t == [];
    } else {
      var k := |s| - |t|;
      assert t != [];
      assert s[k] == t[0];
    }
  }
}
