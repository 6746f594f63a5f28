/**
  * The two pieces of Kotlin's string library that the forms rely on:
  * `String.trim()` and `String.length`, which counts UTF-16 code units.
  */
module Text {

  /**
    * Kotlin's `Char.isWhitespace()` on the JVM: Java's `isWhitespace` or
    * `isSpaceChar`, i.e. the ASCII controls TAB..CR and FS..US, plus every
    * Unicode space, line and paragraph separator.
    */
  predicate IsWhitespace(c: char) {
    || ('\t' <= c <= '\r')
    || ('\U{1C}' <= c <= '\U{1F}')
    || c == ' ' || c == '\U{A0}' || c == '\U{1680}'
    || ('\U{2000}' <= c <= '\U{200A}')
    || c == '\U{2028}' || c == '\U{2029}' || c == '\U{202F}'
    || c == '\U{205F}' || c == '\U{3000}'
  }

  ghost predicate AllWhitespace(s: string) {
    forall k :: 0 <= k < |s| ==> IsWhitespace(s[k])
  }

  /** Neither end of `s` is a whitespace character. */
  ghost predicate EdgesTrimmed(s: string) {
    s == [] || (!IsWhitespace(s[0]) && !IsWhitespace(s[|s| - 1]))
  }

  /** `r` is `s` with only whitespace removed, and only from its two ends. */
  ghost predicate IsWhitespaceTrimOf(s: string, r: string) {
    exists i :: CutAt(s, r, i)
  }

  /** `r` sits at position `i` of `s`, with only whitespace before and after it. */
  ghost predicate CutAt(s: string, r: string, i: int) {
    0 <= i <= |s| - |r| && s[i..i + |r|] == r
    && AllWhitespace(s[..i]) && AllWhitespace(s[i + |r|..])
  }

  /** Drops the leading whitespace. */
  function TrimStart(s: string): string
    decreases |s|
  {
    if s != [] && IsWhitespace(s[0]) then TrimStart(s[1..]) else s
  }

  /** Drops the trailing whitespace. */
  function TrimEnd(s: string): string
    decreases |s|
  {
    if s != [] && IsWhitespace(s[|s| - 1]) then TrimEnd(s[..|s| - 1]) else s
  }

  /** Kotlin's `trim()`: whitespace removed from both ends. */
  function Trim(s: string): (r: string)
    ensures EdgesTrimmed(r)
  {
    TrimStartSpec(s);
    TrimEndSpec(TrimStart(s));
    TrimEnd(TrimStart(s))
  }

  /** `TrimStart` keeps a suffix, drops only whitespace, and stops at a non-whitespace character. */
  lemma {:induction false} TrimStartSpec(s: string)
    ensures |TrimStart(s)| <= |s| && TrimStart(s) == s[|s| - |TrimStart(s)|..]
    ensures AllWhitespace(s[..|s| - |TrimStart(s)|])
    ensures TrimStart(s) == [] || !IsWhitespace(TrimStart(s)[0])
    decreases |s|
  {
    if s != [] && IsWhitespace(s[0]) {
      TrimStartSpec(s[1..]);
      var r := TrimStart(s[1..]);
      assert s[..|s| - |r|] == [s[0]] + s[1..][..|s| - 1 - |r|];
      AllWhitespaceConcat([s[0]], s[1..][..|s| - 1 - |r|]);
    } else {
      assert s[..0] == [];
    }
  }

  /** `TrimEnd` keeps a prefix, drops only whitespace, and stops at a non-whitespace character. */
  lemma {:induction false} TrimEndSpec(s: string)
    ensures |TrimEnd(s)| <= |s| && TrimEnd(s) == s[..|TrimEnd(s)|]
    ensures AllWhitespace(s[|TrimEnd(s)|..])
    ensures TrimEnd(s) == [] || !IsWhitespace(TrimEnd(s)[|TrimEnd(s)| - 1])
    decreases |s|
  {
    if s != [] && IsWhitespace(s[|s| - 1]) {
      var p := s[..|s| - 1];
      TrimEndSpec(p);
      var r := TrimEnd(p);
      assert r == s[..|r|];
      assert s[|r|..] == p[|r|..] + [s[|s| - 1]];
      AllWhitespaceConcat(p[|r|..], [s[|s| - 1]]);
    } else {
      assert s[|s|..] == [];
    }
  }

  /** `Trim` removes whitespace, and only at the two ends. */
  lemma TrimCutsWhitespace(s: string)
    ensures IsWhitespaceTrimOf(s, Trim(s))
  {
    var t := TrimStart(s);
    var r := TrimEnd(t);
    TrimStartSpec(s);
    TrimEndSpec(t);
    var i := |s| - |t|;
    assert t == s[i..];
    assert r == t[..|r|];
    assert s[i..i + |r|] == r;
    assert s[i + |r|..] == t[|r|..];
    assert CutAt(s, r, i);
  }

  /** Cutting off exactly the leading whitespace run is `TrimStart`. */
  lemma {:induction false} TrimStartAt(s: string, i: nat)
    requires i <= |s| && AllWhitespace(s[..i])
    requires i == |s| || !IsWhitespace(s[i])
    ensures TrimStart(s) == s[i..]
  {
    if i > 0 {
      assert s[..i][0] == s[0];
      assert s[1..][..i - 1] == s[1..i];
      assert s[1..][i - 1..] == s[i..];
      TrimStartAt(s[1..], i - 1);
    }
  }

  /** Cutting off exactly the trailing whitespace run is `TrimEnd`. */
  lemma {:induction false} TrimEndAt(s: string, j: nat)
    requires j <= |s| && AllWhitespace(s[j..])
    requires j == 0 || !IsWhitespace(s[j - 1])
    ensures TrimEnd(s) == s[..j]
    decreases |s|
  {
    if j < |s| {
      assert s[j..][|s| - 1 - j] == s[|s| - 1];
      var p := s[..|s| - 1];
      assert p[j..] == s[j..|s| - 1];
      assert p[..j] == s[..j];
      TrimEndAt(p, j);
    }
  }

  /** Two whitespace-only texts make a whitespace-only text. */
  lemma AllWhitespaceConcat(a: string, b: string)
    requires AllWhitespace(a) && AllWhitespace(b)
    ensures AllWhitespace(a + b)
  {
    forall k | 0 <= k < |a + b| ensures IsWhitespace((a + b)[k]) {
      if k < |a| { assert (a + b)[k] == a[k]; } else { assert (a + b)[k] == b[k - |a|]; }
    }
  }

  /** A text of whitespace only trims to the empty string. */
  lemma TrimOfBlank(s: string)
    requires AllWhitespace(s)
    ensures Trim(s) == []
  {
    assert s[..|s|] == s;
    TrimStartAt(s, |s|);
    assert TrimStart(s) == [];
  }

  /** Trimming at a known cut point: the text between the two whitespace runs is `Trim`. */
  lemma TrimAt(s: string, r: string, i: nat)
    requires r != [] && !IsWhitespace(r[0]) && !IsWhitespace(r[|r| - 1])
    requires CutAt(s, r, i)
    ensures Trim(s) == r
  {
    assert s[i] == r[0];
    TrimStartAt(s, i);
    var t := s[i..];
    assert t[|r|..] == s[i + |r|..];
    assert t[|r| - 1] == r[|r| - 1];
    TrimEndAt(t, |r|);
    assert t[..|r|] == r;
  }

  /** There is only one way to trim: any whitespace-only cut that leaves clean edges is `Trim`. */
  lemma TrimUnique(s: string, r: string)
    requires IsWhitespaceTrimOf(s, r) && EdgesTrimmed(r)
    ensures r == Trim(s)
  {
    var i :| CutAt(s, r, i);
    if r == [] {
      assert s == s[..i] + s[i..];
      AllWhitespaceConcat(s[..i], s[i..]);
      TrimOfBlank(s);
    } else {
      TrimAt(s, r, i);
    }
  }

  /** Trimming twice is trimming once. */
  lemma TrimIdempotent(s: string)
    ensures Trim(Trim(s)) == Trim(s)
  {
    var r := Trim(s);
    TrimCutsWhitespace(s);
    if r != [] {
      assert r[0..0 + |r|] == r && r[..0] == [] && r[|r|..] == [];
      assert CutAt(r, r, 0);
      TrimAt(r, r, 0);
    }
  }

  /** Kotlin's `String.length`: characters outside the Basic Multilingual Plane take two UTF-16 units. */
  function Utf16Length(s: string): (n: nat)
    ensures |s| <= n <= 2 * |s|
  {
    if s == [] then 0 else (if s[0] as int >= 0x1_0000 then 2 else 1) + Utf16Length(s[1..])
  }

  /** On text inside the Basic Multilingual Plane the Kotlin length is the number of characters. */
  lemma {:induction false} Utf16LengthOfBmp(s: string)
    requires forall k :: 0 <= k < |s| ==> s[k] as int < 0x1_0000
    ensures Utf16Length(s) == |s|
  {
    if s != [] {
      Utf16LengthOfBmp(s[1..]);
    }
  }
}
