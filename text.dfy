/** Case-insensitive substring search, as `String.contains(other, ignoreCase
    = true)` performs it, restricted to ASCII case folding. */
module Text {

  /** ASCII lower-casing of one character; every other character is kept. */
  function LowerAscii(c: char): char
  {
    if 'A' <= c <= 'Z' then (c as int - 'A' as int + 'a' as int) as char else c
  }

  /** ASCII lower-casing of a whole string. */
  function Lower(s: string): (r: string)
    ensures |r| == |s|
  {
    seq(|s|, i requires 0 <= i < |s| => LowerAscii(s[i]))
  }

  /** `a` and `b` have the same length and agree character by character
      once case is ignored. */
  predicate EqualIgnoreCase(a: string, b: string)
  {
    |a| == |b| && (a == [] || (LowerAscii(a[0]) == LowerAscii(b[0]) && EqualIgnoreCase(a[1..], b[1..])))
  }

  /** `s` begins with `prefix`, ignoring case. */
  predicate StartsWithIgnoreCase(s: string, prefix: string)
  {
    |prefix| <= |s| && EqualIgnoreCase(s[..|prefix|], prefix)
  }

  /** `s` contains `q` at some offset, ignoring case; every string contains
      the empty string. */
  predicate ContainsIgnoreCase(s: string, q: string)
    decreases |s|
  {
    StartsWithIgnoreCase(s, q) || (|s| > 0 && ContainsIgnoreCase(s[1..], q))
  }

  /** Ignoring case is the same as comparing the lower-cased strings. */
  lemma {:induction false} EqualIgnoreCaseIsLowerEqual(a: string, b: string)
    ensures EqualIgnoreCase(a, b) <==> Lower(a) == Lower(b)
    decreases |a|
  {
    if |a| == |b| && a != [] {
      EqualIgnoreCaseIsLowerEqual(a[1..], b[1..]);
      assert Lower(a) == [LowerAscii(a[0])] + Lower(a[1..]);
      assert Lower(b) == [LowerAscii(b[0])] + Lower(b[1..]);
      if Lower(a) == Lower(b) {
        assert Lower(a)[1..] == Lower(b)[1..];
      }
    }
  }

  /** The window of `s` starting at offset `i` equals `q` up to case. */
  predicate MatchesAt(s: string, q: string, i: nat)
  {
    i + |q| <= |s| && EqualIgnoreCase(s[i..i + |q|], q)
  }

  /** The recursive search agrees with the direct definition: some window of
      `s` as long as `q` equals `q` up to case. */
  lemma {:induction false} ContainsIgnoreCaseAt(s: string, q: string)
    ensures ContainsIgnoreCase(s, q) <==> exists i: nat :: MatchesAt(s, q, i)
    decreases |s|
  {
    if |q| <= |s| {
      assert s[0..0 + |q|] == s[..|q|];
      assert StartsWithIgnoreCase(s, q) <==> MatchesAt(s, q, 0);
    }
    if |s| > 0 {
      ContainsIgnoreCaseAt(s[1..], q);
      if i: nat :| MatchesAt(s, q, i) && i > 0 {
        assert s[1..][i - 1..i - 1 + |q|] == s[i..i + |q|];
        assert MatchesAt(s[1..], q, i - 1);
      }
      if j: nat :| MatchesAt(s[1..], q, j) {
        assert s[1..][j..j + |q|] == s[j + 1..j + 1 + |q|];
        assert MatchesAt(s, q, j + 1);
      }
    } else {
      if i: nat :| MatchesAt(s, q, i) {
        assert i == 0;
      }
    }
  }

  /** Every string contains the empty query. */
  lemma EmptyQueryAlwaysMatches(s: string)
    ensures ContainsIgnoreCase(s, "")
  {
  }

  /** The case in which the query is typed does not change the outcome. */
  lemma {:induction false} QueryCaseIrrelevant(s: string, q: string)
    ensures ContainsIgnoreCase(s, q) <==> ContainsIgnoreCase(s, Lower(q))
    decreases |s|
  {
    if |q| <= |s| {
      EqualIgnoreCaseIsLowerEqual(s[..|q|], q);
      EqualIgnoreCaseIsLowerEqual(s[..|q|], Lower(q));
      assert Lower(Lower(q)) == Lower(q);
    }
    if |s| > 0 {
      QueryCaseIrrelevant(s[1..], q);
    }
  }

  /** Equality ignoring case relates the characters at each position. */
  lemma EqualIgnoreCaseAt(a: string, b: string, k: nat)
    requires EqualIgnoreCase(a, b) && k < |a|
    ensures |a| == |b| && LowerAscii(a[k]) == LowerAscii(b[k])
  {
    EqualIgnoreCaseIsLowerEqual(a, b);
    assert Lower(a)[k] == Lower(b)[k];
  }

  /** A window of `s` that equals `q` up to case is a match. */
  lemma {:induction false} WindowMatches(pre: string, w: string, post: string, q: string)
    requires EqualIgnoreCase(w, q)
    ensures ContainsIgnoreCase(pre + w + post, q)
  {
    var s := pre + w + post;
    EqualIgnoreCaseIsLowerEqual(w, q);
    assert s[|pre|..|pre| + |q|] == w;
    assert MatchesAt(s, q, |pre|);
    ContainsIgnoreCaseAt(s, q);
  }

  /** A lower-case letter of the query that `s` has in neither case rules
      out every match. */
  lemma AbsentLetterRulesOutMatch(s: string, q: string, k: nat, upper: char)
    requires k < |q| && 'a' <= q[k] <= 'z' && upper as int == q[k] as int - 'a' as int + 'A' as int
    requires forall i :: 0 <= i < |s| ==> s[i] != q[k] && s[i] != upper
    ensures !ContainsIgnoreCase(s, q)
  {
    ContainsIgnoreCaseAt(s, q);
    if i: nat :| MatchesAt(s, q, i) {
      EqualIgnoreCaseAt(s[i..i + |q|], q, k);
    }
  }
}
