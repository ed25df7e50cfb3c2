/**
 * The Python `str` operations the core relies on, over `seq<char>`.
 * Letters and case are the ASCII ones; whitespace is Python's full set.
 */
module Strings {

  /** `c.isspace()`: every code point Python treats as whitespace. */
  predicate IsSpace(c: char)
  {
    var n := c as int;
    (9 <= n <= 13) || (28 <= n <= 32) || n == 0x85 || n == 0xA0 || n == 0x1680
    || (0x2000 <= n <= 0x200A) || n == 0x2028 || n == 0x2029 || n == 0x202F
    || n == 0x205F || n == 0x3000
  }

  predicate IsUpper(c: char) { 'A' <= c <= 'Z' }

  predicate IsLowerLetter(c: char) { 'a' <= c <= 'z' }

  /** `c.isalpha()` restricted to ASCII letters. */
  predicate IsAlpha(c: char) { IsUpper(c) || IsLowerLetter(c) }

  /** `c.isdigit()` restricted to ASCII digits. */
  predicate IsDigit(c: char) { '0' <= c <= '9' }

  function LowerChar(c: char): (r: char)
    ensures IsUpper(c) ==> IsLowerLetter(r)
    ensures !IsUpper(c) ==> r == c
  {
    if IsUpper(c) then (c as int + 32) as char else c
  }

  /** `s.lower()`: same length, each ASCII capital replaced by its small letter. */
  function Lower(s: string): (r: string)
    ensures |r| == |s|
    ensures forall i :: 0 <= i < |s| ==> r[i] == LowerChar(s[i])
  {
    seq(|s|, i requires 0 <= i < |s| => LowerChar(s[i]))
  }

  /** A string without capitals is its own lower-case form. */
  lemma LowerOfLowercase(s: string)
    requires forall i :: 0 <= i < |s| ==> !IsUpper(s[i])
    ensures Lower(s) == s
  {
  }

  /** Index of the first non-whitespace character of `s` at or after `i`, or `|s|`. */
  function SkipSpaces(s: string, i: nat): (j: nat)
    requires i <= |s|
    ensures i <= j <= |s|
    ensures forall k :: i <= k < j ==> IsSpace(s[k])
    ensures j < |s| ==> !IsSpace(s[j])
    decreases |s| - i
  {
    if i < |s| && IsSpace(s[i]) then SkipSpaces(s, i + 1) else i
  }

  /** Index just past the last non-whitespace character of `s[lo..hi]`, or `lo`. */
  function SkipSpacesBack(s: string, lo: nat, hi: nat): (j: nat)
    requires lo <= hi <= |s|
    ensures lo <= j <= hi
    ensures forall k :: j <= k < hi ==> IsSpace(s[k])
    ensures j > lo ==> !IsSpace(s[j - 1])
    decreases hi
  {
    if hi > lo && IsSpace(s[hi - 1]) then SkipSpacesBack(s, lo, hi - 1) else hi
  }

  /** `s.strip()`: leading and trailing whitespace removed. */
  function Strip(s: string): string
  {
    var i := SkipSpaces(s, 0);
    s[i..SkipSpacesBack(s, i, |s|)]
  }

  /** `s.strip()` is the slice of `s` between two runs of whitespace and neither starts nor ends with one. */
  lemma StripIsInnerSlice(s: string)
    ensures exists i, j :: (0 <= i <= j <= |s| && Strip(s) == s[i..j]
                             && (forall k :: 0 <= k < i ==> IsSpace(s[k]))
                             && (forall k :: j <= k < |s| ==> IsSpace(s[k])))
    ensures Strip(s) != [] ==> !IsSpace(Strip(s)[0]) && !IsSpace(Strip(s)[|Strip(s)| - 1])
  {
    var i := SkipSpaces(s, 0);
    var j := SkipSpacesBack(s, i, |s|);
    if i < j {
      assert Strip(s)[0] == s[i];
      assert Strip(s)[|Strip(s)| - 1] == s[j - 1];
    }
    assert Strip(s) == s[i..j];
  }

  /** Stripping removes only whitespace: every other character of `s` is kept, and nothing new appears. */
  lemma StripKeepsNonSpace(s: string)
    ensures forall c :: c in s && !IsSpace(c) ==> c in Strip(s)
    ensures forall c :: c in Strip(s) ==> c in s
  {
    StripIsInnerSlice(s);
    var i, j :| 0 <= i <= j <= |s| && Strip(s) == s[i..j]
                && (forall k :: 0 <= k < i ==> IsSpace(s[k]))
                && (forall k :: j <= k < |s| ==> IsSpace(s[k]));
    forall c | c in s && !IsSpace(c)
      ensures c in Strip(s)
    {
      var k :| 0 <= k < |s| && s[k] == c;
      assert s[i..j][k - i] == c;
    }
  }

  /** A string that neither starts nor ends with whitespace is its own stripped form. */
  lemma StripOfTrimmed(s: string)
    requires s != [] ==> !IsSpace(s[0]) && !IsSpace(s[|s| - 1])
    ensures Strip(s) == s
  {
    if s != [] {
      assert SkipSpaces(s, 0) == 0;
      assert SkipSpacesBack(s, 0, |s|) == |s|;
    }
  }

  /** Stripping twice changes nothing. */
  lemma StripIdempotent(s: string)
    ensures Strip(Strip(s)) == Strip(s)
  {
    StripIsInnerSlice(s);
    StripOfTrimmed(Strip(s));
  }

  /** One leading blank before a word is stripped away. */
  lemma StripOneLeadingSpace(s: string)
    requires s != [] && !IsSpace(s[0]) && !IsSpace(s[|s| - 1])
    ensures Strip(" " + s) == s
  {
    var t := " " + s;
    assert t[1] == s[0] && t[|t| - 1] == s[|s| - 1];
    assert SkipSpaces(t, 1) == 1;
    assert SkipSpaces(t, 0) == 1;
    assert SkipSpacesBack(t, 1, |t|) == |t|;
    assert t[1..|t|] == s;
  }

  /** `s.startswith(p)`. */
  predicate StartsWith(s: string, p: string)
  {
    |p| <= |s| && s[..|p|] == p
  }

  /** `s.endswith(p)`. */
  predicate EndsWith(s: string, p: string)
  {
    |p| <= |s| && s[|s| - |p|..] == p
  }

  /** `t` occurs in `s` starting at index `k`. */
  predicate OccursAt(s: string, t: string, k: int)
  {
    0 <= k && k + |t| <= |s| && s[k..k + |t|] == t
  }

  /** `t in s`. */
  predicate Contains(s: string, t: string)
  {
    exists k :: 0 <= k <= |s| && OccursAt(s, t, k)
  }

  /** The search behind `s.find(t, i)`: the first occurrence at or after `i`, or -1. */
  function FindFrom(s: string, t: string, i: nat): (r: int)
    requires i <= |s|
    ensures r == -1 || (i <= r && OccursAt(s, t, r))
    ensures r == -1 ==> forall k :: i <= k ==> !OccursAt(s, t, k)
    ensures r != -1 ==> forall k :: i <= k < r ==> !OccursAt(s, t, k)
    decreases |s| - i
  {
    if OccursAt(s, t, i) then i
    else if i == |s| then -1
    else FindFrom(s, t, i + 1)
  }

  /** `s.find(t)`: the lowest index where `t` occurs in `s`, or -1 when `t in s` is false. */
  function Find(s: string, t: string): (r: int)
    ensures r == -1 <==> !Contains(s, t)
    ensures r != -1 ==> OccursAt(s, t, r) && forall k :: 0 <= k < r ==> !OccursAt(s, t, k)
  {
    FindFrom(s, t, 0)
  }

  /** Index of the first '\n' in `s`, or `|s|` when there is none. */
  function LineEnd(s: string): (i: nat)
    ensures i <= |s|
    ensures i < |s| ==> s[i] == '\n'
    ensures forall k :: 0 <= k < i ==> s[k] != '\n'
  {
    if s == [] || s[0] == '\n' then 0 else 1 + LineEnd(s[1..])
  }

  /** `s.splitlines()` for '\n' line ends: no line holds a '\n', and a final '\n' opens no empty line. */
  function SplitLines(s: string): (lines: seq<string>)
    ensures forall l :: l in lines ==> '\n' !in l
    ensures s == [] <==> lines == []
    decreases |s|
  {
    if s == [] then []
    else
      var i := LineEnd(s);
      if i == |s| then [s] else [s[..i]] + SplitLines(s[i + 1..])
  }

  /** `"\n".join(lines)`. */
  function JoinLines(lines: seq<string>): string
  {
    if lines == [] then []
    else if |lines| == 1 then lines[0]
    else lines[0] + "\n" + JoinLines(lines[1..])
  }

  /** Joining the lines with '\n' gives back the text, less the one final '\n' that opened no line. */
  lemma JoinLinesCons(l: string, tail: seq<string>)
    requires tail != []
    ensures JoinLines([l] + tail) == l + "\n" + JoinLines(tail)
  {
    assert ([l] + tail)[1..] == tail;
  }

  lemma {:induction false} SplitLinesJoin(s: string)
    requires s != []
    ensures JoinLines(SplitLines(s)) == if s[|s| - 1] == '\n' then s[..|s| - 1] else s
    decreases |s|
  {
    var i := LineEnd(s);
    if i < |s| {
      var rest := s[i + 1..];
      if rest != [] {
        SplitLinesJoin(rest);
        JoinLinesCons(s[..i], SplitLines(rest));
        var r := JoinLines(SplitLines(rest));
        assert s[|s| - 1] == rest[|rest| - 1];
        if s[|s| - 1] == '\n' {
          assert r == rest[..|rest| - 1];
          assert s[..|s| - 1] == s[..i] + "\n" + r;
        } else {
          assert r == rest;
          assert s == s[..i] + "\n" + r;
        }
      } else {
        assert s[..|s| - 1] == s[..i];
      }
    }
  }
}
