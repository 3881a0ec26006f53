/**
 * The two JavaScript string primitives the chat handler relies on:
 * `String.prototype.trim` (through the truthiness test `!s.trim()`) and
 * `String.prototype.includes`.
 */
module JsString {

  /**
   * ECMAScript's WhiteSpace and LineTerminator code points, the set that
   * `trim` removes: TAB, VT, FF, SPACE, NBSP, ZWNBSP, the other Zs space
   * separators, LF, CR, LINE SEPARATOR and PARAGRAPH SEPARATOR.
   */
  predicate IsWhitespace(c: char) {
    c == '\t' || c == '\n' || c == '\U{000B}' || c == '\U{000C}' || c == '\r' ||
    c == ' ' || c == '\U{00A0}' || c == '\U{1680}' ||
    ('\U{2000}' <= c <= '\U{200A}') ||
    c == '\U{2028}' || c == '\U{2029}' || c == '\U{202F}' || c == '\U{205F}' ||
    c == '\U{3000}' || c == '\U{FEFF}'
  }

  /** Every character of `s` is whitespace (the empty string included). */
  predicate IsBlank(s: string) {
    forall i :: 0 <= i < |s| ==> IsWhitespace(s[i])
  }

  /** A blank string has only blank parts. */
  lemma BlankSuffix(a: string, b: string)
    ensures IsBlank(a + b) ==> IsBlank(b)
  {
    if IsBlank(a + b) {
      forall i | 0 <= i < |b|
        ensures IsWhitespace(b[i])
      {
        assert b[i] == (a + b)[|a| + i];
      }
    }
  }

  /** A text ending in a visible character survives `trim`. */
  lemma NonBlankEnding(front: string, last: string)
    requires last != [] && !IsWhitespace(last[|last| - 1])
    ensures Trim(front + last) != []
  {
    BlankSuffix(front, last);
    TrimEmptyIffBlank(front + last);
  }

  /** `s` with its leading whitespace removed. */
  function TrimStart(s: string): string {
    if s != [] && IsWhitespace(s[0]) then TrimStart(s[1..]) else s
  }

  /** `s` with its trailing whitespace removed. */
  function TrimEnd(s: string): string {
    if s != [] && IsWhitespace(s[|s| - 1]) then TrimEnd(s[..|s| - 1]) else s
  }

  /** `TrimStart` drops a whitespace prefix and stops at the first visible character. */
  lemma {:induction false} TrimStartDropsBlankPrefix(s: string)
    ensures |TrimStart(s)| <= |s| && TrimStart(s) == s[|s| - |TrimStart(s)|..]
    ensures TrimStart(s) != [] ==> !IsWhitespace(TrimStart(s)[0])
    ensures forall i :: 0 <= i < |s| - |TrimStart(s)| ==> IsWhitespace(s[i])
  {
    if s != [] && IsWhitespace(s[0]) {
      TrimStartDropsBlankPrefix(s[1..]);
      assert forall i :: 1 <= i < |s| ==> s[i] == s[1..][i - 1];
    }
  }

  /** `TrimEnd` drops a whitespace suffix and stops at the last visible character. */
  lemma {:induction false} TrimEndDropsBlankSuffix(s: string)
    ensures |TrimEnd(s)| <= |s| && TrimEnd(s) == s[..|TrimEnd(s)|]
    ensures TrimEnd(s) != [] ==> !IsWhitespace(TrimEnd(s)[|TrimEnd(s)| - 1])
    ensures forall i :: |TrimEnd(s)| <= i < |s| ==> IsWhitespace(s[i])
  {
    if s != [] && IsWhitespace(s[|s| - 1]) {
      TrimEndDropsBlankSuffix(s[..|s| - 1]);
    }
  }

  /** JavaScript's `s.trim()`: never longer than `s`, and with visible characters at both ends. */
  function Trim(s: string): (r: string)
    ensures |r| <= |s|
    ensures r != [] ==> !IsWhitespace(r[0]) && !IsWhitespace(r[|r| - 1])
  {
    TrimStartDropsBlankPrefix(s);
    TrimEndDropsBlankSuffix(TrimStart(s));
    TrimEnd(TrimStart(s))
  }

  /** `trim` leaves nothing exactly when the string is all whitespace. */
  lemma TrimEmptyIffBlank(s: string)
    ensures Trim(s) == [] <==> IsBlank(s)
  {
    var t := TrimStart(s);
    TrimStartDropsBlankPrefix(s);
    TrimEndDropsBlankSuffix(t);
    if t != [] {
      assert t[0] == s[|s| - |t|];
    }
  }

  /** `trim` yields a slice of its input that neither starts nor ends with whitespace. */
  lemma TrimIsInnerSlice(s: string)
    ensures exists i, j :: 0 <= i <= j <= |s| && Trim(s) == s[i..j]
    ensures Trim(s) != [] ==> !IsWhitespace(Trim(s)[0]) && !IsWhitespace(Trim(s)[|Trim(s)| - 1])
  {
    var t := TrimStart(s);
    var r := TrimEnd(t);
    TrimStartDropsBlankPrefix(s);
    TrimEndDropsBlankSuffix(t);
    var i := |s| - |t|;
    assert t == s[i..];
    assert r == t[..|r|];
    assert r == s[i..i + |r|];
    if r != [] {
      assert r[0] == t[0];
    }
  }

  /** JavaScript's `s.includes(t)`: `t` occurs in `s` at some position. */
  function Includes(s: string, t: string): (r: bool)
    ensures t <= s ==> r
    ensures r ==> |t| <= |s|
  {
    t <= s || (s != [] && Includes(s[1..], t))
  }

  /** `Includes` agrees with the positional definition of an occurrence. */
  lemma {:induction false} IncludesIffOccurs(s: string, t: string)
    ensures Includes(s, t) <==> exists i :: 0 <= i <= |s| && t <= s[i..]
  {
    if s != [] {
      IncludesIffOccurs(s[1..], t);
    }
    forall i | 0 <= i <= |s| && t <= s[i..]
      ensures Includes(s, t)
    {
      if i == 0 {
        assert s[0..] == s;
      } else {
        assert s[1..][i - 1..] == s[i..];
      }
    }
    if Includes(s, t) {
      if t <= s {
        assert t <= s[0..];
      } else {
        var i :| 0 <= i <= |s[1..]| && t <= s[1..][i..];
        assert s[1..][i..] == s[i + 1..];
        assert t <= s[i + 1..];
      }
    }
  }

  /** A text includes its own ending. */
  lemma IncludesEnding(s: string, t: string)
    ensures Includes(s + t, t)
  {
    IncludesIffOccurs(s + t, t);
    assert (s + t)[|s|..] == t;
  }

  /** Appending text keeps what a text includes. */
  lemma IncludesExtends(s: string, u: string, t: string)
    requires Includes(s, t)
    ensures Includes(s + u, t)
  {
    IncludesIffOccurs(s, t);
    IncludesIffOccurs(s + u, t);
    var i :| 0 <= i <= |s| && t <= s[i..];
    assert (s + u)[i..] == s[i..] + u;
  }

  /** What a text includes, every text starting with it includes too. */
  lemma IncludesPrefix(s: string, u: string, t: string)
    requires s <= u && Includes(s, t)
    ensures Includes(u, t)
  {
    assert u == s + u[|s|..];
    IncludesExtends(s, u[|s|..], t);
  }
}
