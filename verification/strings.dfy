/**
 * The handful of Python string operations the translator relies on:
 * substring search (`pat in s`), `str.replace`, `str.split(sep)[i]`
 * and `str.lower`, written out over `seq<char>`.
 */
module Strings {
  import opened Wrappers

  /** `pat` occurs in `s` starting at position `i`. */
  predicate OccursAt(s: string, pat: string, i: nat) {
    i + |pat| <= |s| && s[i..i + |pat|] == pat
  }

  /** The first position at which `pat` occurs in `s` (Python's `s.find(pat)`). */
  function IndexOf(s: string, pat: string): (r: Option<nat>)
    ensures r.Some? ==> OccursAt(s, pat, r.value)
    ensures r.Some? ==> forall j: nat :: j < r.value ==> !OccursAt(s, pat, j)
    ensures r.None? ==> forall j: nat :: !OccursAt(s, pat, j)
    decreases |s|
  {
    if |s| < |pat| then None
    else if s[..|pat|] == pat then Some(0)
    else
      ShiftOccurrence(s, pat);
      assert !OccursAt(s, pat, 0);
      assert forall j: nat :: j > 0 ==> OccursAt(s, pat, j) == OccursAt(s[1..], pat, j - 1);
      match IndexOf(s[1..], pat)
      case None => None
      case Some(k) => Some(k + 1)
  }

  /** An occurrence in `s[1..]` is an occurrence in `s` one position later. */
  lemma ShiftOccurrence(s: string, pat: string)
    requires |s| > 0
    ensures forall j: nat :: OccursAt(s[1..], pat, j) <==> OccursAt(s, pat, j + 1)
  {
    forall j: nat
      ensures OccursAt(s[1..], pat, j) <==> OccursAt(s, pat, j + 1)
    {
      if j + 1 + |pat| <= |s| {
        assert s[1..][j..j + |pat|] == s[j + 1..j + 1 + |pat|];
      }
    }
  }

  /** Python's `pat in s`. */
  predicate Contains(s: string, pat: string) {
    IndexOf(s, pat).Some?
  }

  /** A string containing `pat` contains every prefix of `pat`. */
  lemma ContainsPrefix(s: string, pat: string, k: nat)
    requires Contains(s, pat) && k <= |pat|
    ensures Contains(s, pat[..k])
  {
    var i := IndexOf(s, pat).value;
    assert s[i..i + k] == pat[..k];
    assert OccursAt(s, pat[..k], i);
  }

  /** Python's `s.replace(pat, rep)`: every non-overlapping occurrence, left to right. */
  function Replace(s: string, pat: string, rep: string): string
    requires pat != []
    decreases |s|
  {
    if |s| < |pat| then s
    else if s[..|pat|] == pat then rep + Replace(s[|pat|..], pat, rep)
    else [s[0]] + Replace(s[1..], pat, rep)
  }

  /** `replace` leaves a string without the pattern's first character unchanged. */
  lemma {:induction false} ReplaceAbsent(s: string, pat: string, rep: string)
    requires pat != [] && pat[0] !in s
    ensures Replace(s, pat, rep) == s
    decreases |s|
  {
    if |s| >= |pat| {
      assert s[..|pat|][0] == s[0];
      assert s[0] in s;
      assert s[1..] + [] == s[1..];
      forall c | c in s[1..] ensures c in s { }
      ReplaceAbsent(s[1..], pat, rep);
    }
  }

  /** A string that is exactly the pattern is replaced by `rep`. */
  lemma ReplaceWhole(pat: string, rep: string)
    requires pat != []
    ensures Replace(pat, pat, rep) == rep
  {
    assert pat[..|pat|] == pat;
    assert pat[|pat|..] == [];
  }

  /**
   * Python's `s.split(sep)[1]` when `sep` occurs in `s`: the text between
   * the first occurrence of `sep` and the second one, or the end of `s`.
   */
  function SplitSecond(s: string, sep: string): (r: string)
    requires sep != [] && Contains(s, sep)
    ensures !Contains(r, sep)
    ensures var rest := s[IndexOf(s, sep).value + |sep|..];
      r <= rest &&
      (forall j: nat :: j < |r| ==> !OccursAt(rest, sep, j)) &&
      ((r == rest && !Contains(rest, sep)) || OccursAt(rest, sep, |r|))
  {
    var rest := s[IndexOf(s, sep).value + |sep|..];
    match IndexOf(rest, sep)
    case None => rest
    case Some(j) =>
      PrefixBeforeFirst(rest, sep, j);
      rest[..j]
  }

  /** The text before the first occurrence of `pat` does not contain `pat`. */
  lemma PrefixBeforeFirst(s: string, pat: string, j: nat)
    requires pat != [] && IndexOf(s, pat) == Some(j)
    ensures !Contains(s[..j], pat)
  {
    if Contains(s[..j], pat) {
      var t := IndexOf(s[..j], pat).value;
      assert s[..j][t..t + |pat|] == s[t..t + |pat|];
      assert OccursAt(s, pat, t);
    }
  }

  /** Python's `s.split("/")[-1]`: what follows the last slash, or all of `s`. */
  function LastSegment(s: string): (r: string)
    ensures '/' !in r
    ensures |r| <= |s| && r == s[|s| - |r|..]
    ensures |r| < |s| ==> s[|s| - |r| - 1] == '/'
    decreases |s|
  {
    if s == [] || s[|s| - 1] == '/' then []
    else LastSegment(s[..|s| - 1]) + [s[|s| - 1]]
  }

  /** The last segment of a path whose final component is `x` is `x`. */
  lemma {:induction false} LastSegmentOfPath(prefix: string, x: string)
    requires '/' !in x
    ensures LastSegment(prefix + "/" + x) == x
    decreases |x|
  {
    var s := prefix + "/" + x;
    if x != [] {
      var init := x[..|x| - 1];
      assert '/' !in init by {
        forall c | c in init ensures c in x { }
      }
      LastSegmentOfPath(prefix, init);
      assert s[..|s| - 1] == prefix + "/" + init;
      assert x == init + [x[|x| - 1]];
    }
  }

  /** ASCII case folding of one character. */
  function LowerChar(c: char): char {
    if 'A' <= c <= 'Z' then (c as int + 32) as char else c
  }

  /** Python's `s.lower()` on the ASCII range. */
  function Lower(s: string): (r: string)
    ensures |r| == |s|
    ensures forall i :: 0 <= i < |r| ==> !('A' <= r[i] <= 'Z')
    ensures forall i :: 0 <= i < |s| ==>
      r[i] == if 'A' <= s[i] <= 'Z' then (s[i] as int + 32) as char else s[i]
  {
    seq(|s|, i requires 0 <= i < |s| => LowerChar(s[i]))
  }
}
