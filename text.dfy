/** The string operations the agent uses, as Python defines them on `str`:
    the substring test `pat in text`, `lower()`, `strip()`, the slice `s[:n]`
    and `sep.join(parts)`. Characters are Unicode code points; `lower()` is
    modelled on ASCII, `strip()` on the ASCII and Latin-1 range. */
module Text {

  /** `pat` occurs in `text` starting at index `i`. */
  predicate MatchesAt(text: string, pat: string, i: nat)
  {
    i + |pat| <= |text| && text[i..i + |pat|] == pat
  }

  /** Python's `pat in text`. */
  predicate Contains(text: string, pat: string)
  {
    exists i: nat | i <= |text| :: MatchesAt(text, pat, i)
  }

  /** Python's `any(p in text for p in pats)`. */
  predicate ContainsAny(text: string, pats: seq<string>)
  {
    exists k | 0 <= k < |pats| :: Contains(text, pats[k])
  }

  function LowerChar(c: char): char
  {
    if 'A' <= c <= 'Z' then (c as int + 32) as char else c
  }

  /** Python's `s.lower()`, on ASCII letters. */
  function Lower(s: string): (r: string)
    ensures |r| == |s|
  {
    seq(|s|, i requires 0 <= i < |s| => LowerChar(s[i]))
  }

  /** Python's `c.isspace()`, on the ASCII and Latin-1 range. */
  predicate IsSpace(c: char)
  {
    (9 <= c as int <= 13) || (28 <= c as int <= 32) || c as int == 0x85 || c as int == 0xA0
  }

  /** Every character of `s` outside `s[lo..hi]` is whitespace. */
  ghost predicate SpacesOutside(s: string, lo: nat, hi: nat)
    requires lo <= hi <= |s|
  {
    (forall i :: 0 <= i < lo ==> IsSpace(s[i])) && (forall i :: hi <= i < |s| ==> IsSpace(s[i]))
  }

  /** The length of the longest all-whitespace prefix of `s`. */
  function LeadingSpaces(s: string): (n: nat)
    ensures n <= |s|
    ensures forall i :: 0 <= i < n ==> IsSpace(s[i])
    ensures n < |s| ==> !IsSpace(s[n])
  {
    if |s| > 0 && IsSpace(s[0]) then 1 + LeadingSpaces(s[1..]) else 0
  }

  /** The length of the longest all-whitespace suffix of `s`. */
  function TrailingSpaces(s: string): (n: nat)
    ensures n <= |s|
    ensures forall i :: |s| - n <= i < |s| ==> IsSpace(s[i])
    ensures n < |s| ==> !IsSpace(s[|s| - n - 1])
  {
    if |s| > 0 && IsSpace(s[|s| - 1]) then 1 + TrailingSpaces(s[..|s| - 1]) else 0
  }

  /** Python's `s.strip()`: the result is a slice of `s` that neither starts nor
      ends with whitespace, and only whitespace was cut away around it. */
  function Strip(s: string): (r: string)
    ensures r == [] || (!IsSpace(r[0]) && !IsSpace(r[|r| - 1]))
    ensures exists lo: nat | lo <= |s| :: MatchesAt(s, r, lo) && SpacesOutside(s, lo, lo + |r|)
  {
    var lo := LeadingSpaces(s);
    var hi := |s| - TrailingSpaces(s[lo..]);
    assert MatchesAt(s, s[lo..hi], lo);
    s[lo..hi]
  }

  /** Python's slice `s[:n]`. */
  function Take(s: string, n: nat): (r: string)
    ensures |r| == if |s| <= n then |s| else n
    ensures r == s[..|r|]
  {
    if |s| <= n then s else s[..n]
  }

  /** Python's `sep.join(parts)`. */
  function Join(sep: string, parts: seq<string>): string
    decreases |parts|
  {
    if |parts| == 0 then ""
    else if |parts| == 1 then parts[0]
    else parts[0] + sep + Join(sep, parts[1..])
  }

  // ---------------------------------------------------------------------------
  // Substrings

  lemma ContainsSelf(s: string)
    ensures Contains(s, s)
  {
    assert MatchesAt(s, s, 0);
  }

  lemma ContainsPrefix(x: string, b: string)
    ensures Contains(x + b, x)
  {
    assert (x + b)[0..|x|] == x;
    assert MatchesAt(x + b, x, 0);
  }

  /** A pattern found in `x` is found in any text that has `x` inside it. */
  lemma ContainsInfix(a: string, x: string, b: string, p: string)
    requires Contains(x, p)
    ensures Contains(a + x + b, p)
  {
    var j: nat :| j <= |x| && MatchesAt(x, p, j);
    var t := a + x + b;
    assert t[|a| + j..|a| + j + |p|] == x[j..j + |p|];
    assert MatchesAt(t, p, |a| + j);
  }

  /** Being a substring is transitive. */
  lemma ContainsTrans(t: string, x: string, p: string)
    requires Contains(t, x) && Contains(x, p)
    ensures Contains(t, p)
  {
    var i: nat :| i <= |t| && MatchesAt(t, x, i);
    assert t == t[..i] + x + t[i + |x|..];
    ContainsInfix(t[..i], x, t[i + |x|..], p);
  }

  /** An occurrence of `p` brings every pair of adjacent characters of `p` with it. */
  lemma ContainsAdjacentPair(t: string, p: string, k: nat)
    requires k + 1 < |p|
    ensures Contains(t, p) ==> exists i :: 0 <= i < |t| - 1 && t[i] == p[k] && t[i + 1] == p[k + 1]
  {
    if !Contains(t, p) { return; }
    var j: nat :| j <= |t| && MatchesAt(t, p, j);
    assert t[j + k] == t[j..j + |p|][k] && t[j + k + 1] == t[j..j + |p|][k + 1];
  }

  // ---------------------------------------------------------------------------
  // Lower-casing

  lemma LowerIdempotent(s: string)
    ensures Lower(Lower(s)) == Lower(s)
  {
  }

  lemma LowerSlice(s: string, lo: nat, hi: nat)
    requires lo <= hi <= |s|
    ensures Lower(s[lo..hi]) == Lower(s)[lo..hi]
  {
  }

  /** Lower-casing never turns a letter into whitespace or whitespace into a letter. */
  lemma LowerKeepsSpaces(c: char)
    ensures IsSpace(LowerChar(c)) <==> IsSpace(c)
  {
  }

  // ---------------------------------------------------------------------------
  // Stripping

  /** Cutting away whitespace around a slice does not change whether a word
      without whitespace occurs. */
  lemma ContainsWithinSpaces(s: string, lo: nat, hi: nat, p: string)
    requires lo <= hi <= |s| && SpacesOutside(s, lo, hi)
    requires |p| > 0 && forall k :: 0 <= k < |p| ==> !IsSpace(p[k])
    ensures Contains(s[lo..hi], p) <==> Contains(s, p)
  {
    if Contains(s[lo..hi], p) {
      assert s == s[..lo] + s[lo..hi] + s[hi..];
      ContainsInfix(s[..lo], s[lo..hi], s[hi..], p);
    }
    if Contains(s, p) {
      var j: nat :| j <= |s| && MatchesAt(s, p, j);
      OccurrenceWithinSpaces(s, lo, hi, p, j);
    }
  }

  /** An occurrence of a word without whitespace lies inside `s[lo..hi]`. */
  lemma OccurrenceWithinSpaces(s: string, lo: nat, hi: nat, p: string, j: nat)
    requires lo <= hi <= |s| && SpacesOutside(s, lo, hi)
    requires |p| > 0 && forall k :: 0 <= k < |p| ==> !IsSpace(p[k])
    requires MatchesAt(s, p, j)
    ensures Contains(s[lo..hi], p)
  {
    assert s[j] == p[0] && s[j + |p| - 1] == p[|p| - 1] by {
      assert s[j..j + |p|] == p;
    }
    assert lo <= j && j + |p| <= hi;
    var inner := s[lo..hi];
    forall t | 0 <= t < |p|
      ensures inner[j - lo..j - lo + |p|][t] == p[t]
    {
      assert s[j..j + |p|][t] == p[t];
    }
    assert MatchesAt(inner, p, j - lo);
  }

  /** `p in s.strip().lower()` holds exactly when `p in s.lower()` does, for a
      word `p` without whitespace. */
  lemma StripLowerKeepsWord(s: string, p: string)
    requires |p| > 0 && forall k :: 0 <= k < |p| ==> !IsSpace(p[k])
    ensures Contains(Lower(Strip(s)), p) <==> Contains(Lower(s), p)
  {
    var r := Strip(s);
    var lo: nat :| lo <= |s| && MatchesAt(s, r, lo) && SpacesOutside(s, lo, lo + |r|);
    var hi := lo + |r|;
    assert r == s[lo..hi];
    LowerSlice(s, lo, hi);
    forall i | 0 <= i < |s| && !(lo <= i < hi)
      ensures IsSpace(Lower(s)[i])
    {
      LowerKeepsSpaces(s[i]);
    }
    ContainsWithinSpaces(Lower(s), lo, hi, p);
  }

  // ---------------------------------------------------------------------------
  // Joining

  /** Every part is a substring of the joined text. */
  lemma {:induction false} JoinContainsPart(sep: string, parts: seq<string>, k: nat)
    requires k < |parts|
    ensures Contains(Join(sep, parts), parts[k])
    decreases |parts|
  {
    if |parts| == 1 {
      ContainsSelf(parts[0]);
    } else if k == 0 {
      ContainsSelf(parts[0]);
      ContainsInfix("", parts[0], sep + Join(sep, parts[1..]), parts[0]);
      assert "" + parts[0] + (sep + Join(sep, parts[1..])) == Join(sep, parts);
    } else {
      JoinContainsPart(sep, parts[1..], k - 1);
      ContainsInfix(parts[0] + sep, Join(sep, parts[1..]), "", parts[k]);
      assert parts[0] + sep + Join(sep, parts[1..]) + "" == Join(sep, parts);
    }
  }
}
