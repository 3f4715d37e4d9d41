/**
 * The profile-update email check: the pattern `^[^\s@]+@[^\s@]+\.[^\s@]+$`,
 * stated once by the structure of the pattern and once as a scan of the
 * string, with a proof that the two agree.
 */
module EmailFormat {
  import opened Common

  /**
   * The characters matched by `\s` in JavaScript patterns: tab, line feed,
   * vertical tab, form feed, carriage return, the space separators of Unicode
   * category Zs, the line and paragraph separators, and the byte order mark.
   */
  predicate IsWhitespace(c: char)
  {
    var n := c as int;
    (0x09 <= n <= 0x0D) || n == 0x20 || n == 0xA0 || n == 0x1680
    || (0x2000 <= n <= 0x200A) || n == 0x2028 || n == 0x2029 || n == 0x202F
    || n == 0x205F || n == 0x3000 || n == 0xFEFF
  }

  /** A character of the class `[^\s@]`. */
  predicate Plain(c: char)
  {
    !IsWhitespace(c) && c != '@'
  }

  predicate AllPlain(s: string)
  {
    forall i :: 0 <= i < |s| ==> Plain(s[i])
  }

  /** The match of the pattern with its `@` at `i` and its `\.` at `j`. */
  ghost predicate MatchAt(s: string, i: int, j: int)
  {
    && 1 <= i && i + 2 <= j && j + 2 <= |s|
    && s[i] == '@' && s[j] == '.'
    && AllPlain(s[..i]) && AllPlain(s[i + 1..j]) && AllPlain(s[j + 1..])
  }

  /** `s` matches `^[^\s@]+@[^\s@]+\.[^\s@]+$`. */
  ghost predicate MatchesPattern(s: string)
  {
    exists i, j :: MatchAt(s, i, j)
  }

  /** The first position of `c` in `s`, if any. */
  function IndexOf(s: string, c: char): (r: Option<nat>)
    ensures r.Some? ==> r.value < |s| && s[r.value] == c
    ensures r.Some? ==> forall k :: 0 <= k < r.value ==> s[k] != c
    ensures r.None? ==> forall k :: 0 <= k < |s| ==> s[k] != c
  {
    if s == [] then None
    else if s[0] == c then Some(0)
    else match IndexOf(s[1..], c)
      case None => None
      case Some(k) => Some(k + 1)
  }

  /**
   * The reference reading of the pattern: no whitespace, exactly one `@`
   * with something before it, and a `.` in the domain with at least one
   * character on each side of it.
   */
  predicate IsEmailAddress(s: string)
  {
    match IndexOf(s, '@')
    case None => false
    case Some(at) =>
      var domain := s[at + 1..];
      && at >= 1
      && AllPlain(s[..at]) && AllPlain(domain)
      && |domain| >= 3 && '.' in domain[1..|domain| - 1]
  }

  lemma AllPlainSlices(s: string, a: int, b: int, c: int)
    requires 0 <= a <= b < c <= |s|
    requires AllPlain(s[a..b]) && AllPlain(s[b + 1..c]) && Plain(s[b])
    ensures AllPlain(s[a..c])
  {
    forall k | 0 <= k < c - a ensures Plain(s[a..c][k]) {
      if k < b - a {
        assert s[a..c][k] == s[a..b][k];
      } else if k > b - a {
        assert s[a..c][k] == s[b + 1..c][k - (b - a) - 1];
      }
    }
  }

  /** The reference reading and the pattern accept the same strings. */
  lemma EmailAddressIffPattern(s: string)
    ensures IsEmailAddress(s) <==> MatchesPattern(s)
  {
    if IsEmailAddress(s) {
      var at := IndexOf(s, '@').value;
      var domain := s[at + 1..];
      var d :| d in domain[1..|domain| - 1] && d == '.';
      var k :| 0 <= k < |domain| - 2 && domain[1..|domain| - 1][k] == '.';
      var j := at + 2 + k;
      assert s[j] == '.';
      assert s[at + 1..j] == domain[..k + 1];
      assert s[j + 1..] == domain[k + 2..];
      assert AllPlain(domain[..k + 1]);
      assert AllPlain(domain[k + 2..]);
      assert MatchAt(s, at, j);
    }
    if MatchesPattern(s) {
      var i, j :| MatchAt(s, i, j);
      assert forall k :: 0 <= k < i ==> s[k] == s[..i][k];
      assert IndexOf(s, '@') == Some(i);
      var domain := s[i + 1..];
      AllPlainSlices(s, i + 1, j, |s|);
      assert s[i + 1..|s|] == domain;
      assert domain[1..|domain| - 1][j - i - 2] == '.';
    }
  }

}
