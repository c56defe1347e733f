/** String helpers the speech layer relies on: Swift's `hasPrefix`, `contains`
    and `replacingOccurrences(of:with:)`, over strings as sequences of characters. */
module Text {

  /** `s` starts with `p` (Swift's `hasPrefix`). */
  predicate HasPrefix(s: string, p: string) {
    |p| <= |s| && s[..|p|] == p
  }

  /** `pat` occurs somewhere in `s` (Swift's `contains` on strings). */
  predicate Contains(s: string, pat: string)
    decreases |s|
  {
    HasPrefix(s, pat) || (|s| > 0 && Contains(s[1..], pat))
  }

  /** Foundation's `replacingOccurrences(of: pat, with: rep)`: scans `s` from the
      left and replaces every non-overlapping occurrence of `pat` by `rep`. An empty
      pattern leaves the string as it is. Replacing by something at least as long
      never shortens the text, and a string without the pattern comes back unchanged. */
  function ReplaceAll(s: string, pat: string, rep: string): (r: string)
    ensures |pat| <= |rep| ==> |s| <= |r|
    ensures |pat| > 0 && !Contains(s, pat) ==> r == s
    decreases |s|
  {
    if |pat| == 0 || |s| < |pat| then s
    else if s[..|pat|] == pat then rep + ReplaceAll(s[|pat|..], pat, rep)
    else
      assert !Contains(s, pat) ==> !Contains(s[1..], pat);
      assert [s[0]] + s[1..] == s;
      [s[0]] + ReplaceAll(s[1..], pat, rep)
  }

  /** Scanning `s` from index `j`, the pattern first starts at index `k`: it does
      not start at `j`, `j + 1`, ..., `k - 1`, and it starts at `k`. */
  predicate FirstOccurrenceFrom(s: string, pat: string, j: nat, k: nat)
    decreases k - j
  {
    j <= k && k + |pat| <= |s| &&
    if j == k then HasPrefix(s[k..], pat)
    else !HasPrefix(s[j..], pat) && FirstOccurrenceFrom(s, pat, j + 1, k)
  }

  /** `k` is where `pat` first occurs in `s`. */
  predicate FirstOccurrence(s: string, pat: string, k: nat) {
    FirstOccurrenceFrom(s, pat, 0, k)
  }

  /** The scanning rule, for every input: the text before the first occurrence is
      kept, that occurrence becomes `rep`, and scanning resumes right after it, so a
      later match never overlaps a replaced one. Together with the pattern-free case
      of `ReplaceAll`'s contract this fixes the result completely. */
  lemma ReplaceAtFirst(s: string, pat: string, rep: string, k: nat)
    requires |pat| > 0 && FirstOccurrence(s, pat, k)
    ensures ReplaceAll(s, pat, rep) == s[..k] + (rep + ReplaceAll(s[k + |pat|..], pat, rep))
  {
    ScanFrom(s, pat, rep, 0, k);
    assert s[0..] == s && s[0..k] == s[..k];
  }

  /** The scanning rule for the suffix `s[j..]`, by induction on the distance from
      `j` to the first occurrence. */
  lemma {:induction false} ScanFrom(s: string, pat: string, rep: string, j: nat, k: nat)
    requires |pat| > 0 && FirstOccurrenceFrom(s, pat, j, k)
    ensures ReplaceAll(s[j..], pat, rep) == s[j..k] + (rep + ReplaceAll(s[k + |pat|..], pat, rep))
    decreases k - j
  {
    if j == k {
      MatchAt(s, pat, rep, k);
      assert s[k..k] + (rep + ReplaceAll(s[k + |pat|..], pat, rep)) == rep + ReplaceAll(s[k + |pat|..], pat, rep);
    } else {
      ScanFrom(s, pat, rep, j + 1, k);
      SkipAt(s, pat, rep, j);
      assert [s[j]] + s[j + 1..k] == s[j..k];
      Prepend(s[j], ReplaceAll(s[j + 1..], pat, rep), s[j + 1..k], rep + ReplaceAll(s[k + |pat|..], pat, rep), s[j..k]);
    }
  }

  /** Putting `c` in front of `b + x` gives `([c] + b) + x`. */
  lemma Prepend(c: char, r: string, b: string, x: string, p: string)
    requires r == b + x && [c] + b == p
    ensures [c] + r == p + x
  {
    assert [c] + (b + x) == ([c] + b) + x;
  }

  /** Where the pattern starts, it becomes `rep` and scanning resumes after it. */
  lemma MatchAt(s: string, pat: string, rep: string, k: nat)
    requires 0 < |pat| && k <= |s| && HasPrefix(s[k..], pat)
    ensures ReplaceAll(s[k..], pat, rep) == rep + ReplaceAll(s[k + |pat|..], pat, rep)
  {
    assert s[k..][|pat|..] == s[k + |pat|..];
  }

  /** Where the pattern does not start, the character there is kept and scanning
      moves on. */
  lemma SkipAt(s: string, pat: string, rep: string, j: nat)
    requires 0 < |pat| && j + |pat| <= |s| && !HasPrefix(s[j..], pat)
    ensures ReplaceAll(s[j..], pat, rep) == [s[j]] + ReplaceAll(s[j + 1..], pat, rep)
  {
    assert s[j..][1..] == s[j + 1..];
  }

  /** An illustration of the scanning rule: "aaa" holds "aa" twice, but only the
      first occurrence is replaced. */
  lemma LeftToRightNonOverlapping()
    ensures ReplaceAll("aaa", "aa", "b") == "ba"
  {
    assert "aaa"[..2] == "aa";
    assert "aaa"[2..] == "a";
  }

  /** A string whose characters never include the first character of `q` cannot
      contain `q`. */
  lemma {:induction false} AbsentLead(s: string, q: string)
    requires |q| > 0 && q[0] !in s
    ensures !Contains(s, q)
    decreases |s|
  {
    if |s| > 0 {
      assert s[1..] <= s[1..] && forall c :: c in s[1..] ==> c in s;
      AbsentLead(s[1..], q);
    }
  }

  /** An occurrence inside a suffix is an occurrence in the whole string. */
  lemma {:induction false} ContainsSuffix(s: string, k: nat, q: string)
    requires k <= |s| && Contains(s[k..], q)
    ensures Contains(s, q)
    decreases k
  {
    if k > 0 {
      assert s[1..][k - 1..] == s[k..];
      ContainsSuffix(s[1..], k - 1, q);
    }
  }

  /** A two-character sequence absent from `x` and from `y` is absent from `x + y`
      unless it straddles the seam with the last character of `x` and the first of `y`. */
  lemma {:induction false} ConcatAvoids(x: string, y: string, q: string)
    requires |q| == 2 && !Contains(x, q) && !Contains(y, q)
    requires !(|x| > 0 && |y| > 0 && x[|x| - 1] == q[0] && y[0] == q[1])
    ensures !Contains(x + y, q)
    decreases |x|
  {
    if |x| == 0 {
      assert x + y == y;
    } else {
      assert (x + y)[1..] == x[1..] + y;
      assert !Contains(x[1..], q);
      ConcatAvoids(x[1..], y, q);
      if |x| >= 2 {
        assert (x + y)[..2] == x[..2];
      } else if |y| > 0 {
        assert (x + y)[..2] == [x[0], y[0]];
      }
    }
  }

  /** After replacing every `pat` by `rep`, the two-character sequence `q` is gone,
      when `rep` cannot produce it (it lacks `q`'s first character and does not start
      with `q`'s second) and `s` lacks `q` unless `q` is the pattern itself. */
  lemma {:induction false} ReplaceAllAvoids(s: string, pat: string, rep: string, q: string)
    requires |q| == 2 && |pat| > 0 && |rep| > 0
    requires q[0] !in rep && rep[0] != q[1]
    requires q == pat || !Contains(s, q)
    ensures !Contains(ReplaceAll(s, pat, rep), q)
    decreases |s|
  {
    if |s| < |pat| {
      assert ReplaceAll(s, pat, rep) == s;
    } else if s[..|pat|] == pat {
      var rest := s[|pat|..];
      if q != pat {
        assert !Contains(rest, q) by {
          if Contains(rest, q) { ContainsSuffix(s, |pat|, q); }
        }
      }
      ReplaceAllAvoids(rest, pat, rep, q);
      AbsentLead(rep, q);
      assert rep[|rep| - 1] in rep;
      ConcatAvoids(rep, ReplaceAll(rest, pat, rep), q);
    } else {
      var rest := s[1..];
      ReplaceAllAvoids(rest, pat, rep, q);
      var t := ReplaceAll(rest, pat, rep);
      assert |t| > 0 && s[0] == q[0] ==> t[0] != q[1] by {
        if |t| > 0 && s[0] == q[0] {
          if |rest| >= |pat| && rest[..|pat|] == pat {
            assert t[0] == rep[0];
          } else {
            assert t[0] == s[1];
            assert s[..2] == [s[0], s[1]];
          }
        }
      }
      assert !Contains([s[0]], q);
      ConcatAvoids([s[0]], t, q);
    }
  }
}
