/**
 Migration names as landfill reads them: the `\d+_[\w\d]+` pattern that
 `get_migrations` matches, `name.split("_")[0]`, `int(...)` of that prefix,
 and Python 2's `<=` on byte strings, which the sweep uses against the
 watermark.
 */
module Names {

  predicate IsDigit(c: char) {
    '0' <= c <= '9'
  }

  /** `\w` of Python 2's `re` without the UNICODE flag. */
  predicate IsWordChar(c: char) {
    IsDigit(c) || ('a' <= c <= 'z') || ('A' <= c <= 'Z') || c == '_'
  }

  predicate AllDigits(s: string) {
    forall i :: 0 <= i < |s| ==> IsDigit(s[i])
  }

  /** Length of the longest run of digits at the start of `s`. */
  function LeadingDigits(s: string): (n: nat)
    ensures n <= |s|
    ensures AllDigits(s[..n])
    ensures n < |s| ==> !IsDigit(s[n])
  {
    if |s| == 0 || !IsDigit(s[0]) then 0
    else
      var n := 1 + LeadingDigits(s[1..]);
      assert s[..n] == [s[0]] + s[1..][..n - 1];
      n
  }

  /** What `re.match(r"\d+_[\w\d]+", s)` accepts, read the way a backtracking
      regex engine does: SOME non-empty digit run, then `_`, then one word
      character; the match is anchored at the start only. */
  ghost predicate RegexMatches(s: string) {
    exists k :: 1 <= k && k + 1 < |s| && AllDigits(s[..k]) && s[k] == '_' && IsWordChar(s[k + 1])
  }

  /** The deterministic reading of the same pattern: the maximal digit run
      must be followed by `_` and a word character. */
  predicate IsMigrationName(s: string) {
    var k := LeadingDigits(s);
    1 <= k && k + 1 < |s| && s[k] == '_' && IsWordChar(s[k + 1])
  }

  type MigrationName = s: string | IsMigrationName(s) witness "0_a"

  /** The scanner accepts exactly the strings the regex matches. */
  lemma MigrationNameIsRegexMatch(s: string)
    ensures IsMigrationName(s) <==> RegexMatches(s)
  {
    var n := LeadingDigits(s);
    if RegexMatches(s) {
      var k :| 1 <= k && k + 1 < |s| && AllDigits(s[..k]) && s[k] == '_' && IsWordChar(s[k + 1]);
      assert k == n;
    }
  }

  /** `s.split("_")[0]`: everything before the first underscore, or all of
      `s` when it has none. */
  function Prefix(s: string): (p: string)
    ensures p <= s
    ensures '_' !in p
    ensures |p| < |s| ==> s[|p|] == '_'
  {
    if |s| == 0 || s[0] == '_' then ""
    else [s[0]] + Prefix(s[1..])
  }

  /** For a migration name the split prefix is exactly the leading digit run. */
  lemma PrefixOfMigrationName(s: string)
    requires IsMigrationName(s)
    ensures Prefix(s) == s[..LeadingDigits(s)]
    ensures AllDigits(Prefix(s)) && |Prefix(s)| >= 1
  {
    var n := LeadingDigits(s);
    var p := Prefix(s);
    assert |p| == n;
  }

  function DigitValue(c: char): nat
    requires IsDigit(c)
  {
    (c as int) - ('0' as int)
  }

  function Pow10(n: nat): (r: nat)
    ensures r >= 1
  {
    if n == 0 then 1 else 10 * Pow10(n - 1)
  }

  /** `int(s)` for a string of decimal digits (the empty string reads as 0;
      the callers only pass non-empty ones). */
  function Value(s: string): nat
    requires AllDigits(s)
  {
    if |s| == 0 then 0
    else DigitValue(s[0]) * Pow10(|s| - 1) + Value(s[1..])
  }

  /** A string of `n` digits reads as less than 10^n. */
  lemma {:induction false} ValueBound(s: string)
    requires AllDigits(s)
    ensures Value(s) < Pow10(|s|)
  {
    if |s| > 0 {
      ValueBound(s[1..]);
      ScaledDigitBound(DigitValue(s[0]), Pow10(|s| - 1), Value(s[1..]));
    }
  }

  /** d * p + v < 10 * p for a digit d and v < p. */
  lemma ScaledDigitBound(d: nat, p: nat, v: nat)
    requires d <= 9 && v < p
    ensures d * p + v < 10 * p
  {
    assert d * p <= 9 * p;
  }

  /** Python 2 `a <= b` on byte strings: lexicographic by character code,
      a proper prefix sorting first. */
  predicate LexLe(a: string, b: string) {
    |a| == 0 || (|b| > 0 && (a[0] < b[0] || (a[0] == b[0] && LexLe(a[1..], b[1..]))))
  }

  lemma {:induction false} LexLeReflexive(a: string)
    ensures LexLe(a, a)
  {
    if |a| > 0 {
      LexLeReflexive(a[1..]);
    }
  }

  /** Any two byte strings compare one way or the other. */
  lemma {:induction false} LexLeTotal(a: string, b: string)
    ensures LexLe(a, b) || LexLe(b, a)
  {
    if |a| > 0 && |b| > 0 && a[0] == b[0] {
      LexLeTotal(a[1..], b[1..]);
    }
  }

  lemma {:induction false} LexLeTrans(a: string, b: string, c: string)
    requires LexLe(a, b) && LexLe(b, c)
    ensures LexLe(a, c)
  {
    if |a| > 0 && a[0] == b[0] && b[0] == c[0] {
      LexLeTrans(a[1..], b[1..], c[1..]);
    }
  }

  /** Why zero-padded migration names work: on digit strings of one width the
      string order agrees with the numeric order. */
  lemma {:induction false} PaddedOrderIsNumeric(a: string, b: string)
    requires AllDigits(a) && AllDigits(b) && |a| == |b|
    ensures LexLe(a, b) <==> Value(a) <= Value(b)
  {
    if |a| > 0 {
      PaddedOrderIsNumeric(a[1..], b[1..]);
      var p := Pow10(|a| - 1);
      var da, db := DigitValue(a[0]), DigitValue(b[0]);
      ValueBound(a[1..]);
      ValueBound(b[1..]);
      if da < db {
        LeadingDigitDecides(da, db, p, Value(a[1..]), Value(b[1..]));
      } else if db < da {
        LeadingDigitDecides(db, da, p, Value(b[1..]), Value(a[1..]));
      }
    }
  }

  /** A smaller leading digit wins whatever follows it. */
  lemma LeadingDigitDecides(x: nat, y: nat, p: nat, u: nat, v: nat)
    requires x < y && u < p
    ensures x * p + u < y * p + v
  {
    assert (x + 1) * p <= y * p;
  }

  /** Without padding the two orders disagree: "10" <= "9" as strings, yet
      10 > 9. */
  lemma UnpaddedOrderIsNotNumeric()
    ensures LexLe("10", "9") && Value("10") > Value("9")
  {
    assert "10"[0] < "9"[0];
    assert "10"[1..] == "0";
    assert Value("0") == 0;
  }
}
