/** The email format test of the contact form: the regular expression `\S+@\S+\.\S+`, applied
    with RegExp.prototype.test, which looks for a match anywhere in the string (the pattern has
    no anchors). The pattern is modelled as predicates over the character sequence, not by a
    regular-expression engine. */
module EmailPattern {
  import opened Strings

  /** The slices `s[i..a]`, `s[a + 1..d]` and `s[d + 1..e]` are the three `\S+` runs of a match,
      with `@` at `a` and `.` at `d`: the pattern read as it is written. */
  ghost predicate MatchSpans(s: string, i: int, a: int, d: int, e: int) {
    && 0 <= i < a && a + 1 < d && d + 1 < e <= |s|
    && s[a] == '@' && s[d] == '.'
    && NoSpace(s[i..a]) && NoSpace(s[a + 1..d]) && NoSpace(s[d + 1..e])
  }

  /** RegExp.prototype.test with `\S+@\S+\.\S+`: some slice of `s` matches. */
  ghost predicate PatternMatches(s: string) {
    exists i, a, d, e :: MatchSpans(s, i, a, d, e)
  }

  /** The shortest-match form of the same test: an `@` at `a` preceded by a non-space, a `.`
      at `d` followed by a non-space, and only non-space characters strictly between them. */
  predicate MatchAt(s: string, a: int, d: int) {
    && 0 < a && a + 1 < d && d + 1 < |s|
    && s[a] == '@' && !IsSpace(s[a - 1])
    && s[d] == '.' && !IsSpace(s[d + 1])
    && forall k | a < k < d :: !IsSpace(s[k])
  }

  /** The test the validator performs. */
  predicate LooksLikeEmail(s: string) {
    exists a, d | 0 < a < |s| && a + 1 < d < |s| :: MatchAt(s, a, d)
  }

  /** The shortest-match form agrees with the pattern read span by span, in both directions. */
  lemma LooksLikeEmailIsPattern(s: string)
    ensures LooksLikeEmail(s) <==> PatternMatches(s)
  {
    if LooksLikeEmail(s) {
      var a, d :| 0 < a < |s| && a + 1 < d < |s| && MatchAt(s, a, d);
      assert s[a - 1..a] == [s[a - 1]];
      assert s[d + 1..d + 2] == [s[d + 1]];
      var mid := s[a + 1..d];
      forall k | 0 <= k < |mid| ensures !IsSpace(mid[k]) { assert mid[k] == s[a + 1 + k]; }
      assert MatchSpans(s, a - 1, a, d, d + 2);
    }
    if PatternMatches(s) {
      var i, a, d, e :| MatchSpans(s, i, a, d, e);
      assert s[a - 1] == s[i..a][a - 1 - i];
      assert s[d + 1] == s[d + 1..e][0];
      forall k | a < k < d ensures !IsSpace(s[k]) { assert s[k] == s[a + 1..d][k - a - 1]; }
      assert MatchAt(s, a, d);
    }
  }

  /** A match never includes white space, so trimming the string first would not change the
      outcome: testing the untrimmed value, as the form does, is the same as testing the
      trimmed one. */
  lemma LooksLikeEmailIgnoresTrim(s: string)
    ensures LooksLikeEmail(s) <==> LooksLikeEmail(Trim(s))
  {
    var t, i := Trim(s), TrimStart(s);
    if LooksLikeEmail(s) {
      var a, d :| 0 < a < |s| && a + 1 < d < |s| && MatchAt(s, a, d);
      MatchSurvivesTrim(s, a, d);
      assert 0 < a - i < |t| && a - i + 1 < d - i < |t|;
    }
    if LooksLikeEmail(t) {
      var a, d :| 0 < a < |t| && a + 1 < d < |t| && MatchAt(t, a, d);
      MatchOfTrimmed(s, a, d);
      assert 0 < i + a < |s| && i + a + 1 < i + d < |s|;
    }
  }

  lemma MatchSurvivesTrim(s: string, a: int, d: int)
    requires MatchAt(s, a, d)
    ensures TrimStart(s) < a && d - TrimStart(s) < |Trim(s)|
    ensures MatchAt(Trim(s), a - TrimStart(s), d - TrimStart(s))
  {
    var t, i, j := Trim(s), TrimStart(s), TrimEnd(s);
    assert !IsSpace(s[a - 1]) && !IsSpace(s[d + 1]);
    assert i <= a - 1 && d + 1 < j;
    assert t == s[i..j];
    assert t[a - i] == s[a] && t[d - i] == s[d];
    assert t[a - i - 1] == s[a - 1] && t[d - i + 1] == s[d + 1];
  }

  lemma MatchOfTrimmed(s: string, a: int, d: int)
    requires MatchAt(Trim(s), a, d)
    ensures d + TrimStart(s) < |s|
    ensures MatchAt(s, a + TrimStart(s), d + TrimStart(s))
  {
    var t, i := Trim(s), TrimStart(s);
    assert t == s[i..TrimEnd(s)];
  }

  lemma NotAnEmailFails()
    ensures !LooksLikeEmail("not-an-email")
  {
    var s := "not-an-email";
    forall a | 0 < a < |s| ensures s[a] != '@' { }
  }

  lemma ShortAddressPasses()
    ensures LooksLikeEmail("a@b.co")
  {
    assert MatchAt("a@b.co", 1, 3);
  }
}
