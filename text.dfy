/**
  The two string tests the validator relies on: JavaScript's `String.prototype.trim`
  (to decide whether a name is blank) and `RegExp.prototype.test` with the
  unanchored pattern `\S+@\S+\.\S+` (to decide whether an email looks valid).
  Characters are Unicode scalar values.
 */
module Text {

  /** The ECMAScript WhiteSpace and LineTerminator code points: the set that
      `\s` matches and that `trim` strips. */
  predicate IsSpace(c: char)
  {
    || c == '\t' || c == '\n' || c == '\U{000B}' || c == '\U{000C}' || c == '\r'
    || c == ' ' || c == '\U{00A0}' || c == '\U{1680}'
    || ('\U{2000}' <= c <= '\U{200A}')
    || c == '\U{2028}' || c == '\U{2029}' || c == '\U{202F}' || c == '\U{205F}'
    || c == '\U{3000}' || c == '\U{FEFF}'
  }

  /** Every character of s[lo..hi] is matched by `\S`. */
  predicate NonSpaceRun(s: string, lo: int, hi: int)
    requires 0 <= lo <= hi <= |s|
  {
    forall k | lo <= k < hi :: !IsSpace(s[k])
  }

  /** Leading whitespace removed: the result is the longest suffix of `s`
      that does not start with whitespace. */
  function TrimStart(s: string): (r: string)
    ensures |r| <= |s| && r == s[|s| - |r|..]
    ensures r == [] || !IsSpace(r[0])
    ensures forall i | 0 <= i < |s| - |r| :: IsSpace(s[i])
    decreases |s|
  {
    if s != [] && IsSpace(s[0]) then
      var r := TrimStart(s[1..]);
      assert forall i | 1 <= i < |s| - |r| :: s[i] == s[1..][i - 1];
      r
    else
      s
  }

  /** Trailing whitespace removed: the result is the longest prefix of `s`
      that does not end with whitespace. */
  function TrimEnd(s: string): (r: string)
    ensures |r| <= |s| && r == s[..|r|]
    ensures r == [] || !IsSpace(r[|r| - 1])
    ensures forall i | |r| <= i < |s| :: IsSpace(s[i])
    decreases |s|
  {
    if s != [] && IsSpace(s[|s| - 1]) then
      var r := TrimEnd(s[..|s| - 1]);
      assert forall i | |r| <= i < |s| - 1 :: s[i] == s[..|s| - 1][i];
      r
    else
      s
  }

  /** `r` is `s` with the first `k` characters and everything after
      `k + |r|` removed, and every removed character is whitespace. */
  ghost predicate StrippedAt(s: string, r: string, k: int)
  {
    && 0 <= k <= k + |r| <= |s|
    && r == s[k..k + |r|]
    && (forall i | 0 <= i < k :: IsSpace(s[i]))
    && (forall i | k + |r| <= i < |s| :: IsSpace(s[i]))
  }

  /** A string that keeps only a suffix `t` of `s` behind leading
      whitespace, then only a prefix `r` of `t` before trailing whitespace, is
      `s` stripped of whitespace at both ends. */
  lemma StripBothEnds(s: string, t: string, r: string)
    requires |t| <= |s| && t == s[|s| - |t|..]
    requires forall i | 0 <= i < |s| - |t| :: IsSpace(s[i])
    requires |r| <= |t| && r == t[..|r|]
    requires forall i | |r| <= i < |t| :: IsSpace(t[i])
    ensures StrippedAt(s, r, |s| - |t|)
  {
    var k := |s| - |t|;
    forall i | k + |r| <= i < |s|
      ensures IsSpace(s[i])
    {
      assert s[i] == t[i - k];
    }
  }

  /** `s.trim()`: whitespace removed from both ends, and only from the ends. */
  function Trim(s: string): (r: string)
    ensures r == [] || (!IsSpace(r[0]) && !IsSpace(r[|r| - 1]))
    ensures exists k :: StrippedAt(s, r, k)
  {
    var t := TrimStart(s);
    var r := TrimEnd(t);
    StripBothEnds(s, t, r);
    assert r != [] ==> r[0] == t[0];
    r
  }

  /** `!s.trim()`: the trimmed string is the falsy empty string, which happens
      exactly when every character is whitespace (the empty string included). */
  predicate IsBlank(s: string)
    ensures IsBlank(s) <==> forall i | 0 <= i < |s| :: IsSpace(s[i])
  {
    var t := TrimStart(s);
    assert t != [] ==> t[0] == s[|s| - |t|];
    assert t != [] ==> t[|TrimEnd(t)| - 1] == s[|s| - |t| + |TrimEnd(t)| - 1];
    |Trim(s)| == 0
  }

  /** `t` is split by an `@` at `a` and a `.` at `d` into three non-empty
      runs of non-whitespace. */
  ghost predicate ShapedAt(t: string, a: int, d: int)
  {
    && 0 < a < |t| && a + 1 < d < |t| - 1
    && NonSpaceRun(t, 0, a)
    && t[a] == '@'
    && NonSpaceRun(t, a + 1, d)
    && t[d] == '.'
    && NonSpaceRun(t, d + 1, |t|)
  }

  /** `t` as a whole is in the language of `\S+@\S+\.\S+`: a non-empty run of
      non-whitespace, `@`, a non-empty run of non-whitespace, `.`, and a
      non-empty run of non-whitespace. */
  ghost predicate EmailShaped(t: string)
  {
    exists a, d :: ShapedAt(t, a, d)
  }

  /** `/\S+@\S+\.\S+/.test(s)`: some substring of `s` is in the pattern's
      language (the pattern is not anchored). */
  ghost predicate RegexTest(s: string)
    ensures RegexTest(s) ==> |s| >= 5
  {
    exists i, j | 0 <= i <= j <= |s| :: EmailShaped(s[i..j])
  }

  /** Position `a` holds an `@` with a non-whitespace character before it,
      position `d` past `a + 1` holds a `.` with only non-whitespace between
      the two and a non-whitespace character after it. */
  predicate MatchAt(s: string, a: int, d: int)
  {
    && 0 < a < |s| && a + 1 < d < |s| - 1
    && !IsSpace(s[a - 1])
    && s[a] == '@'
    && NonSpaceRun(s, a + 1, d)
    && s[d] == '.'
    && !IsSpace(s[d + 1])
  }

  /** The executable form of `/\S+@\S+\.\S+/.test(s)`: it accepts exactly
      the strings the regular expression finds a match in. */
  predicate EmailMatch(s: string)
    ensures EmailMatch(s) <==> RegexTest(s)
  {
    PositionSearchIffRegexTest(s);
    exists a, d | 0 < a < |s| && a + 1 < d < |s| - 1 :: MatchAt(s, a, d)
  }

  /** Every match the executable test finds is a match of the regular
      expression: the substring from just before the `@` to just after the `.`. */
  lemma MatchAtIsRegexMatch(s: string, a: int, d: int)
    requires MatchAt(s, a, d)
    ensures ShapedAt(s[a - 1..d + 2], 1, d - a + 1)
  {
    var t := s[a - 1..d + 2];
    assert NonSpaceRun(t, 2, d - a + 1) by {
      forall k | 2 <= k < d - a + 1 ensures !IsSpace(t[k]) {
        assert t[k] == s[a - 1 + k];
      }
    }
  }

  /** Every match of the regular expression, at offset `i` of `s`, yields the
      `@` and `.` positions the executable test looks for. */
  lemma RegexMatchIsMatchAt(s: string, i: int, j: int, a: int, d: int)
    requires 0 <= i <= j <= |s| && ShapedAt(s[i..j], a, d)
    ensures MatchAt(s, i + a, i + d)
  {
    var t := s[i..j];
    assert t[a - 1] == s[i + a - 1] && t[d + 1] == s[i + d + 1];
    assert t[a] == s[i + a] && t[d] == s[i + d];
    assert NonSpaceRun(s, i + a + 1, i + d) by {
      forall k | i + a + 1 <= k < i + d ensures !IsSpace(s[k]) {
        assert s[k] == t[k - i];
      }
    }
  }

  /** Searching for an `@`/`.` position pair succeeds exactly when the
      regular expression finds a match. */
  lemma PositionSearchIffRegexTest(s: string)
    ensures (exists a, d | 0 < a < |s| && a + 1 < d < |s| - 1 :: MatchAt(s, a, d)) <==> RegexTest(s)
  {
    if exists a, d | 0 < a < |s| && a + 1 < d < |s| - 1 :: MatchAt(s, a, d) {
      var a, d :| 0 < a < |s| && a + 1 < d < |s| - 1 && MatchAt(s, a, d);
      MatchAtIsRegexMatch(s, a, d);
      assert EmailShaped(s[a - 1..d + 2]);
    }
    if RegexTest(s) {
      var i, j :| 0 <= i <= j <= |s| && EmailShaped(s[i..j]);
      var a, d :| ShapedAt(s[i..j], a, d);
      RegexMatchIsMatchAt(s, i, j, a, d);
    }
  }
}
