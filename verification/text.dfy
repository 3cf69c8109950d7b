/** String helpers the handler relies on: first-occurrence `replace`,
    `split(c)[0]`, and decimal digits (array indices as property keys,
    `parseInt` of a digit string). */
module Text {
  import opened Wrappers

  /** The characters of `s` from position `i` on agree with `pat`. */
  predicate MatchesAt(s: string, pat: string, i: nat)
    decreases |pat|
  {
    pat == [] || (i < |s| && s[i] == pat[0] && MatchesAt(s, pat[1..], i + 1))
  }

  /** `pat` occurs in `s` starting at position `i`. */
  predicate OccursAt(s: string, pat: string, i: nat) {
    i + |pat| <= |s| && MatchesAt(s, pat, i)
  }

  lemma {:induction false} SliceMatches(s: string, pat: string, i: nat)
    requires i + |pat| <= |s| && s[i..i + |pat|] == pat
    ensures OccursAt(s, pat, i)
    decreases |pat|
  {
    if pat != [] {
      assert s[i] == s[i..i + |pat|][0];
      assert s[i + 1..i + 1 + |pat[1..]|] == s[i..i + |pat|][1..];
      SliceMatches(s, pat[1..], i + 1);
    }
  }

  /** The first position at or after `from` where `pat` occurs. */
  function IndexFrom(s: string, pat: string, from: nat): (r: Option<nat>)
    ensures r.Some? ==> from <= r.value && OccursAt(s, pat, r.value)
    ensures r.Some? ==> forall j :: from <= j < r.value ==> !OccursAt(s, pat, j)
    ensures r.None? ==> forall j :: from <= j ==> !OccursAt(s, pat, j)
    decreases |s| - from
  {
    if from + |pat| > |s| then None
    else if OccursAt(s, pat, from) then Some(from)
    else IndexFrom(s, pat, from + 1)
  }

  /** JavaScript `s.replace(pat, rep)` with a string pattern: only the first
      occurrence is replaced; a string without `pat` is returned unchanged. */
  function ReplaceFirst(s: string, pat: string, rep: string): (r: string)
    ensures forall i: nat :: OccursAt(s, pat, i) && (forall j: nat :: j < i ==> !OccursAt(s, pat, j)) ==>
      r == s[..i] + rep + s[i + |pat|..]
  {
    match IndexFrom(s, pat, 0)
    case None => s
    case Some(i) => s[..i] + rep + s[i + |pat|..]
  }

  /** Extending both sides by the same front keeps a prefix a prefix. */
  lemma PrefixUnderFront(a: string, p: string, q: string)
    requires p <= q
    ensures a + p <= a + q
  {
  }

  /** JavaScript `s.split(c)[0]`: the longest prefix of `s` without `c`. */
  function Before(s: string, c: char): (r: string)
    ensures r <= s && c !in r
    ensures |r| < |s| ==> s[|r|] == c
  {
    if s == [] || s[0] == c then "" else [s[0]] + Before(s[1..], c)
  }

  lemma {:induction false} ReplaceFirstAtStart(pat: string, rest: string, rep: string)
    ensures ReplaceFirst(pat + rest, pat, rep) == rep + rest
  {
    var s := pat + rest;
    assert s[0..|pat|] == pat;
    SliceMatches(s, pat, 0);
    assert IndexFrom(s, pat, 0) == Some(0);
    assert s[|pat|..] == rest;
  }

  lemma {:induction false} ReplaceFirstAbsent(s: string, pat: string, rep: string)
    requires forall i :: !OccursAt(s, pat, i)
    ensures ReplaceFirst(s, pat, rep) == s
  {
  }

  /** Only the first occurrence goes: "Bearer Bearer x" becomes "Bearer x". */
  lemma ReplaceFirstKeepsLaterOccurrences(pat: string, rest: string)
    ensures ReplaceFirst(pat + pat + rest, pat, "") == pat + rest
  {
    assert pat + pat + rest == pat + (pat + rest);
    ReplaceFirstAtStart(pat, pat + rest, "");
  }

  lemma {:induction false} BeforeStopsAtFirst(p: string, c: char, q: string)
    requires c !in p
    ensures Before(p + [c] + q, c) == p
  {
    if p != [] {
      assert (p + [c] + q)[1..] == p[1..] + [c] + q;
      BeforeStopsAtFirst(p[1..], c, q);
    }
  }

  predicate IsDigit(ch: char) { '0' <= ch <= '9' }

  predicate AllDigits(s: string) { forall i :: 0 <= i < |s| ==> IsDigit(s[i]) }

  function DigitChar(d: nat): (ch: char)
    requires d < 10
    ensures IsDigit(ch) && ch as int - '0' as int == d
  {
    (d + '0' as int) as char
  }

  /** Decimal notation of `n` without leading zeros, as `String(n)` writes it. */
  function Decimal(n: nat): (s: string)
    ensures |s| > 0 && AllDigits(s)
    ensures n > 0 ==> s[0] != '0'
    ensures |s| > 1 ==> s[0] != '0'
  {
    if n < 10 then [DigitChar(n)] else Decimal(n / 10) + [DigitChar(n % 10)]
  }

  /** The value of a string of decimal digits. */
  function DigitsValue(s: string): (v: nat)
    requires AllDigits(s)
  {
    if s == [] then 0
    else DigitsValue(s[..|s| - 1]) * 10 + (s[|s| - 1] as int - '0' as int)
  }

  function Pow10(k: nat): (p: nat)
    ensures p >= 1
  {
    if k == 0 then 1 else 10 * Pow10(k - 1)
  }

  /** Reading back the decimal notation of `n` gives `n`. */
  lemma {:induction false} DecimalRoundTrip(n: nat)
    ensures DigitsValue(Decimal(n)) == n
  {
    if n >= 10 {
      var s := Decimal(n);
      assert s[..|s| - 1] == Decimal(n / 10);
      DecimalRoundTrip(n / 10);
    }
  }

  /** A non-empty digit string with no leading zero is the decimal
      notation of its own value: `Decimal` is the only such spelling. */
  lemma {:induction false} DecimalUnique(s: string)
    requires |s| > 0 && AllDigits(s) && (|s| > 1 ==> s[0] != '0')
    ensures s == Decimal(DigitsValue(s))
  {
    if |s| > 1 {
      var p := s[..|s| - 1];
      assert p[0] == s[0];
      LeadingDigitPositive(p);
      DecimalUnique(p);
    }
  }

  /** A digit string that starts with a non-zero digit has a positive value. */
  lemma {:induction false} LeadingDigitPositive(s: string)
    requires |s| > 0 && AllDigits(s) && s[0] != '0'
    ensures DigitsValue(s) > 0
  {
    if |s| > 1 {
      var p := s[..|s| - 1];
      assert p[0] == s[0];
      LeadingDigitPositive(p);
    }
  }

  /** A number below 10^k needs at most k digits (k >= 1). */
  lemma {:induction false} DecimalLength(n: nat, k: nat)
    requires 1 <= k && n < Pow10(k)
    ensures |Decimal(n)| <= k
  {
    if n >= 10 {
      assert n / 10 < Pow10(k - 1);
      DecimalLength(n / 10, k - 1);
    }
  }
}
