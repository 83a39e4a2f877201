/** Python's `str.replace(old, new)` for a non-empty `old`: every
    non-overlapping occurrence, scanning left to right, is replaced. */
module Text {

  function ReplaceAll(s: string, pat: string, rep: string): (r: string)
    requires |pat| > 0
    // text in which the pattern cannot start is left as it is
    ensures pat[0] !in s ==> r == s
    // replacing the pattern by itself changes nothing
    ensures rep == pat ==> r == s
    decreases |s|
  {
    if |s| < |pat| then s
    else if s[..|pat|] == pat then rep + ReplaceAll(s[|pat|..], pat, rep)
    else [s[0]] + ReplaceAll(s[1..], pat, rep)
  }

  /** A prefix that cannot start the placeholder passes through unchanged. */
  lemma {:induction false} ReplaceAllSkipsPrefix(p: string, q: string, pat: string, rep: string)
    requires |pat| > 0 && pat[0] !in p
    ensures ReplaceAll(p + q, pat, rep) == p + ReplaceAll(q, pat, rep)
  {
    if p != [] {
      var s := p + q;
      assert s[0] == p[0] && s[1..] == p[1..] + q;
      ReplaceAllSkipsPrefix(p[1..], q, pat, rep);
      if |s| >= |pat| {
        assert s[..|pat|][0] != pat[0];
        assert ReplaceAll(s, pat, rep) == [p[0]] + ReplaceAll(p[1..] + q, pat, rep);
        assert [p[0]] + (p[1..] + ReplaceAll(q, pat, rep)) == p + ReplaceAll(q, pat, rep);
      } else {
        ReplaceAllShort(q, pat, rep);
        ReplaceAllShort(s, pat, rep);
      }
    } else {
      assert p + q == q;
    }
  }

  lemma ReplaceAllShort(s: string, pat: string, rep: string)
    requires |pat| > 0 && |s| < |pat|
    ensures ReplaceAll(s, pat, rep) == s
  {
  }

  /** A text that starts with the placeholder starts with the replacement. */
  lemma ReplaceAllAtHead(q: string, pat: string, rep: string)
    requires |pat| > 0
    ensures ReplaceAll(pat + q, pat, rep) == rep + ReplaceAll(q, pat, rep)
  {
    assert (pat + q)[..|pat|] == pat;
    assert (pat + q)[|pat|..] == q;
  }

  /** A template `prefix + pat + suffix` whose only placeholder is the marked
      one becomes `prefix + rep + suffix`: nothing else in it changes. */
  lemma Substitute(prefix: string, suffix: string, pat: string, rep: string)
    requires |pat| > 0 && pat[0] !in prefix && pat[0] !in suffix
    ensures ReplaceAll(prefix + pat + suffix, pat, rep) == prefix + rep + suffix
  {
    assert prefix + pat + suffix == prefix + (pat + suffix);
    ReplaceAllSkipsPrefix(prefix, pat + suffix, pat, rep);
    ReplaceAllAtHead(suffix, pat, rep);
    assert suffix == suffix + [];
    ReplaceAllSkipsPrefix(suffix, [], pat, rep);
  }
}
