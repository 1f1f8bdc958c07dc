/** The few JavaScript string operations the core relies on: `indexOf`,
    `replace` with a string pattern (first occurrence only), `split(p)[0]`,
    `substring(0, indexOf(c))` and the last occurrence of a character. */
module Strings {
  import opened Types

  /** `pat` occurs in `s` starting at index `i`. */
  predicate OccursAt(s: string, pat: string, i: nat) {
    i + |pat| <= |s| && s[i..i + |pat|] == pat
  }

  /** The first index at or after `from` where `pat` occurs (JavaScript's
      `s.indexOf(pat, from)`, with None for -1). */
  function IndexFrom(s: string, pat: string, from: nat): (r: Option<nat>)
    requires from <= |s|
    ensures r.Some? ==> from <= r.value && OccursAt(s, pat, r.value)
    ensures r.Some? ==> forall j :: from <= j < r.value ==> !OccursAt(s, pat, j)
    ensures r.None? ==> forall j :: from <= j <= |s| ==> !OccursAt(s, pat, j)
    decreases |s| - from
  {
    if OccursAt(s, pat, from) then Some(from)
    else if from == |s| then None
    else IndexFrom(s, pat, from + 1)
  }

  /** `s.indexOf(pat)`. */
  function IndexOf(s: string, pat: string): Option<nat> {
    IndexFrom(s, pat, 0)
  }

  predicate Contains(s: string, pat: string) {
    IndexOf(s, pat).Some?
  }

  /** `s.replace(pat, rep)` for a string pattern: only the first occurrence is
      replaced. */
  function ReplaceFirst(s: string, pat: string, rep: string): string {
    match IndexOf(s, pat)
    case Some(i) => s[..i] + rep + s[i + |pat|..]
    case None => s
  }

  /** `s.split(pat)[0]`: the text before the first occurrence of `pat`. */
  function BeforeFirst(s: string, pat: string): string {
    match IndexOf(s, pat)
    case Some(i) => s[..i]
    case None => s
  }

  /** `s.substring(0, s.indexOf(pat))`; a missing `pat` gives -1, which
      `substring` clamps to 0, so the result is then "". */
  function TextBefore(s: string, pat: string): string {
    match IndexOf(s, pat)
    case Some(i) => s[..i]
    case None => ""
  }

  /** The last index of character `c` in `s`. */
  function LastIndexOf(s: string, c: char): (r: Option<nat>)
    ensures r.Some? ==> r.value < |s| && s[r.value] == c
    ensures r.Some? ==> forall j :: r.value < j < |s| ==> s[j] != c
    ensures r.None? ==> forall j :: 0 <= j < |s| ==> s[j] != c
  {
    if |s| == 0 then None
    else if s[|s| - 1] == c then Some(|s| - 1)
    else LastIndexOf(s[..|s| - 1], c)
  }

  /** A leading `pat` is found at index 0. */
  lemma {:induction false} IndexOfPrefix(pat: string, rest: string)
    ensures IndexOf(pat + rest, pat) == Some(0)
  {
    assert (pat + rest)[0..|pat|] == pat;
    assert OccursAt(pat + rest, pat, 0);
  }

  /** A text without `pat` followed by `pat` has its first occurrence of `pat`
      right after the text, when no occurrence can straddle the boundary
      (here: `pat` is ".git", whose first character does not recur in it). */
  lemma {:induction false} IndexOfGitSuffix(s: string, rest: string)
    requires !Contains(s, ".git")
    ensures IndexOf(s + ".git" + rest, ".git") == Some(|s|)
  {
    var t := s + ".git" + rest;
    var pat := ".git";
    assert OccursAt(t, pat, |s|) by {
      assert t[|s|..|s| + 4] == pat;
    }
    forall j | 0 <= j < |s|
      ensures !OccursAt(t, pat, j)
    {
      assert IndexFrom(s, pat, 0).None?;
      if j + 4 <= |s| {
        assert !OccursAt(s, pat, j);
        assert t[j..j + 4] == s[j..j + 4];
      } else {
        // an occurrence would straddle the boundary: its character at index
        // |s| would be a later character of ".git", but that one is '.'
        var k := |s| - j;
        assert 1 <= k <= 3 && pat[k] != '.';
        assert t[j..j + 4][k] == t[|s|] == '.';
      }
    }
    IndexFromFirst(t, pat, 0, |s|);
  }

  /** If `pat` occurs at `i` and nowhere in [from, i), the search from `from`
      finds `i`. */
  lemma {:induction false} IndexFromFirst(s: string, pat: string, from: nat, i: nat)
    requires from <= i <= |s|
    requires OccursAt(s, pat, i)
    requires forall j :: from <= j < i ==> !OccursAt(s, pat, j)
    ensures IndexFrom(s, pat, from) == Some(i)
    decreases i - from
  {
    if from < i {
      IndexFromFirst(s, pat, from + 1, i);
    }
  }

  /** The last occurrence of `c` in `s + [c] + t` is the one added, when `t`
      holds no `c`. */
  lemma {:induction false} LastIndexOfJoin(s: string, c: char, t: string)
    requires c !in t
    ensures LastIndexOf(s + [c] + t, c) == Some(|s|)
    decreases |t|
  {
    var u := s + [c] + t;
    if t == [] {
      assert u[|u| - 1] == c;
    } else {
      assert u[|u| - 1] == t[|t| - 1] != c;
      assert u[..|u| - 1] == s + [c] + t[..|t| - 1];
      LastIndexOfJoin(s, c, t[..|t| - 1]);
    }
  }
}
