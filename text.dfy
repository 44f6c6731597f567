/** Kotlin's `Char.isWhitespace`, `CharSequence.isBlank` and `String.trim`,
    which the document API uses to reject empty pastes and to normalise the
    stored content. */
module Text {

  /** Kotlin/JVM `Char.isWhitespace`: Java's `Character.isWhitespace` or
      `Character.isSpaceChar`. The controls U+0009..U+000D and U+001C..U+001F,
      the space separators (U+0020, U+00A0, U+1680, U+2000..U+200A, U+202F,
      U+205F, U+3000) and the line and paragraph separators U+2028, U+2029. */
  predicate IsWhitespace(c: char) {
    var n := c as int;
    || 0x09 <= n <= 0x0D
    || 0x1C <= n <= 0x20
    || n == 0xA0
    || n == 0x1680
    || 0x2000 <= n <= 0x200A
    || n == 0x2028 || n == 0x2029
    || n == 0x202F || n == 0x205F || n == 0x3000
  }

  /** `isBlank()`: empty, or whitespace only. */
  predicate IsBlank(s: string) {
    forall i :: 0 <= i < |s| ==> IsWhitespace(s[i])
  }

  /** Neither end of `s` is whitespace (the empty string qualifies). */
  predicate IsTrimmed(s: string) {
    s != [] ==> !IsWhitespace(s[0]) && !IsWhitespace(s[|s| - 1])
  }

  /** Drops the leading whitespace. */
  function TrimStart(s: string): (r: string)
    ensures |r| <= |s|
    decreases |s|
  {
    if s != [] && IsWhitespace(s[0]) then TrimStart(s[1..]) else s
  }

  /** Drops the trailing whitespace. */
  function TrimEnd(s: string): (r: string)
    ensures |r| <= |s|
    decreases |s|
  {
    if s != [] && IsWhitespace(s[|s| - 1]) then TrimEnd(s[..|s| - 1]) else s
  }

  /** What TrimStart keeps is a suffix of `s`, all it drops is whitespace,
      and what it keeps does not start with whitespace. */
  lemma {:induction false} TrimStartKeepsSuffix(s: string)
    ensures var r := TrimStart(s);
      && |r| <= |s| && r == s[|s| - |r|..]
      && (forall i :: 0 <= i < |s| - |r| ==> IsWhitespace(s[i]))
      && (r != [] ==> !IsWhitespace(r[0]))
    decreases |s|
  {
    if s != [] && IsWhitespace(s[0]) {
      TrimStartKeepsSuffix(s[1..]);
      var r := TrimStart(s);
      forall i | 0 <= i < |s| - |r| ensures IsWhitespace(s[i]) {
        if i > 0 { assert s[i] == s[1..][i - 1]; }
      }
    }
  }

  /** What TrimEnd keeps is a prefix of `s`, all it drops is whitespace, and
      what it keeps does not end with whitespace. */
  lemma {:induction false} TrimEndKeepsPrefix(s: string)
    ensures var r := TrimEnd(s);
      && |r| <= |s| && r == s[..|r|]
      && (forall i :: |r| <= i < |s| ==> IsWhitespace(s[i]))
      && (r != [] ==> !IsWhitespace(r[|r| - 1]))
    decreases |s|
  {
    if s != [] && IsWhitespace(s[|s| - 1]) {
      var p := s[..|s| - 1];
      TrimEndKeepsPrefix(p);
      var r := TrimEnd(s);
      assert r == p[..|r|];
      forall i | |r| <= i < |s| ensures IsWhitespace(s[i]) {
        if i < |s| - 1 { assert s[i] == p[i]; }
      }
    }
  }

  /** `trim()`: strips whitespace from both ends; the result is empty
      exactly when `s` is blank. */
  function Trim(s: string): (r: string)
    ensures IsTrimmed(r)
    ensures r == [] <==> IsBlank(s)
  {
    TrimEmptyIffBlank(s);
    TrimEnd(TrimStart(s))
  }

  lemma TrimEmptyIffBlank(s: string)
    ensures IsTrimmed(TrimEnd(TrimStart(s)))
    ensures TrimEnd(TrimStart(s)) == [] <==> IsBlank(s)
  {
    var t := TrimStart(s);
    TrimStartKeepsSuffix(s);
    TrimEndKeepsPrefix(t);
    var r := TrimEnd(t);
    if r != [] {
      assert r[0] == t[0];
    }
    if t != [] {
      assert t[0] == s[|s| - |t|];
    }
  }

  /** TrimStart cuts `s` into a blank prefix and what it keeps. */
  lemma TrimStartSplits(s: string)
    ensures var t := TrimStart(s);
      s == s[..|s| - |t|] + t && IsBlank(s[..|s| - |t|])
  {
    TrimStartKeepsSuffix(s);
  }

  /** TrimEnd cuts `s` into what it keeps and a blank suffix. */
  lemma TrimEndSplits(s: string)
    ensures var r := TrimEnd(s);
      s == r + s[|r|..] && IsBlank(s[|r|..])
  {
    TrimEndKeepsPrefix(s);
  }

  /** What Trim keeps is `s` with a blank prefix and a blank suffix cut
      off, the prefix being what TrimStart drops. */
  lemma TrimIsInfix(s: string)
    ensures var i, r := |s| - |TrimStart(s)|, Trim(s);
      && i + |r| <= |s|
      && s == s[..i] + r + s[i + |r|..]
      && IsBlank(s[..i]) && IsBlank(s[i + |r|..])
  {
    var t := TrimStart(s);
    var i := |s| - |t|;
    var r := TrimEnd(t);
    TrimStartSplits(s);
    TrimEndSplits(t);
    assert t[|r|..] == s[i + |r|..];
    assert s == s[..i] + r + t[|r|..];
  }

  /** Whitespace in front of a string that does not start with whitespace is
      exactly what TrimStart removes. */
  lemma {:induction false} TrimStartOfPadded(p: string, r: string)
    requires IsBlank(p)
    requires r != [] ==> !IsWhitespace(r[0])
    ensures TrimStart(p + r) == r
    decreases |p|
  {
    if p == [] {
      assert p + r == r;
    } else {
      assert (p + r)[0] == p[0];
      assert (p + r)[1..] == p[1..] + r;
      TrimStartOfPadded(p[1..], r);
    }
  }

  /** Whitespace behind a string that does not end with whitespace is
      exactly what TrimEnd removes. */
  lemma {:induction false} TrimEndOfPadded(r: string, q: string)
    requires IsBlank(q)
    requires r != [] ==> !IsWhitespace(r[|r| - 1])
    ensures TrimEnd(r + q) == r
    decreases |q|
  {
    if q == [] {
      assert r + q == r;
    } else {
      var n := |r + q|;
      assert (r + q)[n - 1] == q[|q| - 1];
      assert (r + q)[..n - 1] == r + q[..|q| - 1];
      TrimEndOfPadded(r, q[..|q| - 1]);
    }
  }

  /** The converse of Trim's contract: any string with no whitespace at its
      ends, padded with whitespace on either side, trims back to itself. */
  lemma TrimOfPadded(p: string, r: string, q: string)
    requires IsBlank(p) && IsBlank(q) && IsTrimmed(r)
    ensures Trim(p + r + q) == r
  {
    if r == [] {
      assert p + r + q == p + q;
      assert IsBlank(p + q) by {
        forall i | 0 <= i < |p + q| ensures IsWhitespace((p + q)[i]) {
          if i >= |p| { assert (p + q)[i] == q[i - |p|]; }
        }
      }
    } else {
      assert p + r + q == p + (r + q);
      assert (r + q)[0] == r[0];
      TrimStartOfPadded(p, r + q);
      TrimEndOfPadded(r, q);
    }
  }

  /** Trimming twice is trimming once. */
  lemma TrimIdempotent(s: string)
    ensures Trim(Trim(s)) == Trim(s)
  {
    var r := Trim(s);
    assert [] + r + [] == r;
    TrimOfPadded([], r, []);
  }
}
