/**
 * Text helpers of the grid component: decimal rendering of numbers (the
 * `toString()` calls of the footer), first-occurrence string replacement and
 * the `stringFormat` placeholder substitution built on it.
 */
module Strings {
  import opened Wrappers

  /** A character a decimal rendering of an integer may contain. */
  predicate IsNumeral(c: char) {
    c == '-' || '0' <= c <= '9'
  }

  function DigitChar(d: nat): (c: char)
    requires d < 10
    ensures '0' <= c <= '9'
    ensures c as int == 48 + d
  {
    (48 + d) as char
  }

  /** Decimal text of a natural number. */
  function NatToString(n: nat): (s: string)
    ensures |s| > 0
    ensures forall i :: 0 <= i < |s| ==> '0' <= s[i] <= '9'
    decreases n
  {
    if n < 10 then [DigitChar(n)] else NatToString(n / 10) + [DigitChar(n % 10)]
  }

  /** The decimal text of a natural number starts with '0' only when it is "0". */
  lemma {:induction false} NatToStringLeadingDigit(n: nat)
    ensures NatToString(n)[0] == '0' <==> n == 0
    ensures n == 0 ==> NatToString(n) == "0"
    decreases n
  {
    if n >= 10 {
      NatToStringLeadingDigit(n / 10);
      assert NatToString(n)[0] == NatToString(n / 10)[0];
    }
  }

  /** Decimal text of an integer, with a leading '-' when negative. */
  function IntToString(i: int): (s: string)
    ensures |s| > 0
    ensures forall k :: 0 <= k < |s| ==> IsNumeral(s[k])
    ensures IsDecimalText(s)
    ensures IsCanonicalDecimal(s)
    ensures i < 0 ==> s[0] == '-' && s[1] != '0'
    ensures i >= 0 ==> s == NatToString(i)
  {
    NatToStringLeadingDigit(if i < 0 then -i else i);
    if i < 0 then
      var t := "-" + NatToString(-i);
      assert t[1..] == NatToString(-i);
      t
    else NatToString(i)
  }

  /** Only decimal digits. */
  predicate IsDigits(s: string) {
    forall k :: 0 <= k < |s| ==> '0' <= s[k] <= '9'
  }

  /** A non-empty digit string, optionally after a leading '-'. */
  predicate IsDecimalText(s: string) {
    (|s| > 0 && IsDigits(s)) || (|s| > 1 && s[0] == '-' && IsDigits(s[1..]))
  }

  /**
   * The form `toString()` gives an integer: no leading zero (a lone "0"
   * aside), and no "-0".
   */
  predicate IsCanonicalDecimal(s: string) {
    IsDecimalText(s)
    && (s[0] == '0' ==> |s| == 1)
    && (s[0] == '-' ==> s[1] != '0')
  }

  /** The value of one decimal digit. */
  function DigitValue(c: char): (d: nat)
    requires '0' <= c <= '9'
    ensures d < 10 && DigitChar(d) == c
  {
    c as int - 48
  }

  /** The number a digit string denotes, most significant digit first. */
  function NatValue(s: string): (n: nat)
    requires IsDigits(s)
    ensures s == [] ==> n == 0
  {
    if s == [] then 0 else 10 * NatValue(s[..|s| - 1]) + DigitValue(s[|s| - 1])
  }

  /** The integer a decimal text denotes: the reading of `NatToString`/`IntToString`. */
  function DecimalValue(s: string): (i: int)
    requires IsDecimalText(s)
    ensures s[0] != '-' ==> i >= 0
  {
    if s[0] == '-' then -(NatValue(s[1..]) as int) else NatValue(s)
  }

  /** The decimal text of a natural number reads back as that number. */
  lemma {:induction false} NatToStringRoundTrip(n: nat)
    ensures IsDigits(NatToString(n)) && NatValue(NatToString(n)) == n
  {
    var s := NatToString(n);
    if n >= 10 {
      NatToStringRoundTrip(n / 10);
      assert s[..|s| - 1] == NatToString(n / 10);
      assert s[|s| - 1] == DigitChar(n % 10);
    } else {
      assert s[..|s| - 1] == [];
    }
  }

  /** The decimal text of an integer reads back as that integer. */
  lemma IntToStringRoundTrip(i: int)
    ensures DecimalValue(IntToString(i)) == i
  {
    if i < 0 {
      NatToStringRoundTrip(-i);
      MinusValue(NatToString(-i));
      assert IntToString(i) == "-" + NatToString(-i);
    } else {
      NatToStringRoundTrip(i);
      assert IntToString(i) == NatToString(i);
    }
  }

  /** A '-' in front of a digit string negates its value. */
  lemma MinusValue(t: string)
    requires |t| > 0 && IsDigits(t)
    ensures IsDecimalText("-" + t) && DecimalValue("-" + t) == -(NatValue(t) as int)
  {
    assert ("-" + t)[0] == '-' && ("-" + t)[1..] == t;
  }

  /** A digit string of value 0 is all zeros. */
  lemma {:induction false} ZeroValueAllZeros(s: string)
    requires IsDigits(s) && NatValue(s) == 0
    ensures forall k :: 0 <= k < |s| ==> s[k] == '0'
  {
    if s != [] {
      var p := s[..|s| - 1];
      assert IsDigits(p);
      ZeroValueAllZeros(p);
      assert DigitValue(s[|s| - 1]) == 0;
      forall k | 0 <= k < |s| ensures s[k] == '0' {
        if k < |s| - 1 { assert s[k] == p[k]; }
      }
    }
  }

  /** A digit string without a leading zero is the decimal text of its value. */
  lemma {:induction false} CanonicalDigitsAreNatToString(s: string)
    requires |s| > 0 && IsDigits(s) && (s[0] == '0' ==> |s| == 1)
    ensures NatToString(NatValue(s)) == s
  {
    var d := DigitValue(s[|s| - 1]);
    var p := s[..|s| - 1];
    assert IsDigits(p);
    if |s| == 1 {
      assert p == [];
      assert NatValue(s) == d;
      assert NatToString(d) == [DigitChar(d)] == s;
    } else {
      assert p[0] == s[0];
      CanonicalDigitsAreNatToString(p);
      var v := NatValue(p);
      if v == 0 {
        ZeroValueAllZeros(p);
        assert false;
      }
      var n := NatValue(s);
      assert n == 10 * v + d;
      assert n / 10 == v && n % 10 == d;
      assert NatToString(n) == NatToString(v) + [DigitChar(d)];
      assert s == p + [s[|s| - 1]];
    }
  }

  /**
   * `IntToString` gives the only canonical text of each integer: every
   * canonical decimal text is `IntToString` of its value.
   */
  lemma CanonicalIsIntToString(s: string)
    requires IsCanonicalDecimal(s)
    ensures IntToString(DecimalValue(s)) == s
  {
    if s[0] == '-' {
      var t := s[1..];
      CanonicalDigitsAreNatToString(t);
      assert s == "-" + t;
    } else {
      assert !('-' == s[0]) && IsDigits(s);
      CanonicalDigitsAreNatToString(s);
    }
  }

  /** Distinct integers have distinct decimal texts. */
  lemma IntToStringInjective(i: int, j: int)
    requires IntToString(i) == IntToString(j)
    ensures i == j
  {
    IntToStringRoundTrip(i);
    IntToStringRoundTrip(j);
  }

  /** `pat` occurs in `s` starting at index `i`. */
  predicate OccursAt(s: string, pat: string, i: nat) {
    i + |pat| <= |s| && s[i..i + |pat|] == pat
  }

  lemma OccursShift(s: string, pat: string, j: nat)
    requires |s| > 0
    ensures OccursAt(s[1..], pat, j) <==> OccursAt(s, pat, j + 1)
  {
    if j + |pat| <= |s| - 1 {
      assert s[1..][j..j + |pat|] == s[j + 1..j + 1 + |pat|];
    }
  }

  /** Index of the first occurrence of `pat` in `s`, if any. */
  function IndexOf(s: string, pat: string): (r: Option<nat>)
    ensures r.Some? ==> OccursAt(s, pat, r.value)
    ensures r.Some? ==> forall j: nat :: j < r.value ==> !OccursAt(s, pat, j)
    ensures r.None? ==> forall j: nat :: !OccursAt(s, pat, j)
    decreases |s|
  {
    if |s| < |pat| then None
    else if s[..|pat|] == pat then Some(0)
    else
      var rest := IndexOf(s[1..], pat);
      assert !OccursAt(s, pat, 0);
      assert forall j: nat :: OccursAt(s[1..], pat, j) <==> OccursAt(s, pat, j + 1) by {
        forall j: nat ensures OccursAt(s[1..], pat, j) <==> OccursAt(s, pat, j + 1) {
          OccursShift(s, pat, j);
        }
      }
      assert forall j: nat :: OccursAt(s, pat, j) ==> j == 0 || OccursAt(s[1..], pat, j - 1);
      match rest
      case None => None
      case Some(i) => Some(i + 1)
  }

  /**
   * `s.replace(pat, rep)` with a string pattern: only the first occurrence
   * of `pat` is replaced; without one, `s` is returned unchanged.
   */
  function ReplaceFirst(s: string, pat: string, rep: string): (r: string)
    ensures (forall j: nat :: !OccursAt(s, pat, j)) ==> r == s
    ensures forall i: nat :: OccursAt(s, pat, i) && (forall j: nat :: j < i ==> !OccursAt(s, pat, j)) ==>
              r == s[..i] + rep + s[i + |pat|..]
  {
    match IndexOf(s, pat)
    case None => s
    case Some(i) => s[..i] + rep + s[i + |pat|..]
  }

  /** The placeholder the k-th argument replaces: `'{' + k + '}'`. */
  function Placeholder(k: nat): (p: string)
    ensures |p| >= 3 && p[0] == '{' && p[|p| - 1] == '}'
  {
    "{" + NatToString(k) + "}"
  }

  /** The template after the substitutions for arguments 0 .. k-1, in that order. */
  function Substituted(template: string, args: seq<string>, k: nat): (r: string)
    requires k <= |args|
  {
    if k == 0 then template
    else ReplaceFirst(Substituted(template, args, k - 1), Placeholder(k - 1), args[k - 1])
  }

  /** One more substitution step. */
  lemma SubstitutedStep(template: string, args: seq<string>, k: nat)
    requires 0 < k <= |args|
    ensures Substituted(template, args, k)
         == ReplaceFirst(Substituted(template, args, k - 1), Placeholder(k - 1), args[k - 1])
  {
  }

  /** What `stringFormat(template, ...args)` returns. */
  function Format(template: string, args: seq<string>): (r: string) {
    Substituted(template, args, |args|)
  }

  /**
   * `stringFormat`: for k = 0, 1, ... in order, replaces the first
   * occurrence of `{k}` in the text built so far with `args[k]`.
   */
  method StringFormat(template: string, args: seq<string>) returns (r: string)
    ensures r == Format(template, args)
  {
    r := template;
    for k := 0 to |args|
      invariant r == Substituted(template, args, k)
    {
      r := ReplaceFirst(r, Placeholder(k), args[k]);
    }
  }

  /** A string none of whose characters is `pat[0]` holds no occurrence of `pat`. */
  lemma NoOccurrenceWithoutFirstChar(s: string, pat: string)
    requires |pat| > 0
    requires forall i :: 0 <= i < |s| ==> s[i] != pat[0]
    ensures forall j: nat :: !OccursAt(s, pat, j)
  {
    forall j: nat ensures !OccursAt(s, pat, j) {
      if j + |pat| <= |s| {
        assert s[j..j + |pat|][0] == s[j];
      }
    }
  }

  /**
   * When `pat` starts with a character `a` never holds, the first
   * occurrence of `pat` in `a + pat + b` is the one right after `a`, so
   * replacing it yields `a + rep + b`.
   */
  lemma ReplaceAfterPrefix(a: string, pat: string, b: string, rep: string)
    requires |pat| > 0
    requires forall i :: 0 <= i < |a| ==> a[i] != pat[0]
    ensures ReplaceFirst(a + pat + b, pat, rep) == a + rep + b
  {
    var s := a + pat + b;
    assert s[|a|..|a| + |pat|] == pat;
    assert OccursAt(s, pat, |a|);
    forall j: nat | j < |a| ensures !OccursAt(s, pat, j) {
      if j + |pat| <= |s| {
        assert s[j..j + |pat|][0] == s[j] == a[j];
      }
    }
    assert s[..|a|] == a;
    assert s[|a| + |pat|..] == b;
  }

  /** A text that starts with `pat` has that occurrence replaced. */
  lemma ReplaceAtStart(pat: string, b: string, rep: string)
    requires |pat| > 0
    ensures ReplaceFirst(pat + b, pat, rep) == rep + b
  {
    var s := pat + b;
    IndexAtStart(pat, b);
    assert s[..0] + rep + s[|pat|..] == rep + b;
  }

  lemma IndexAtStart(pat: string, b: string)
    ensures IndexOf(pat + b, pat) == Some(0)
  {
    assert (pat + b)[..|pat|] == pat;
  }

  /** Replacing a placeholder that does not occur leaves the text unchanged. */
  lemma ReplaceAbsent(s: string, pat: string, rep: string)
    requires |pat| > 0
    requires forall i :: 0 <= i < |s| ==> s[i] != pat[0]
    ensures ReplaceFirst(s, pat, rep) == s
  {
    NoOccurrenceWithoutFirstChar(s, pat);
  }

  /** Replacing a pattern that occurs nowhere leaves the text unchanged. */
  lemma ReplaceNone(s: string, pat: string, rep: string)
    requires forall j: nat :: !OccursAt(s, pat, j)
    ensures ReplaceFirst(s, pat, rep) == s
  {
  }

  /**
   * A template in which none of the placeholders `{0}` .. `{|args|-1}` occurs
   * is returned unchanged.
   */
  lemma {:induction false} FormatWithoutPlaceholders(template: string, args: seq<string>, k: nat)
    requires k <= |args|
    requires forall m: nat, j: nat :: m < k ==> !OccursAt(template, Placeholder(m), j)
    ensures Substituted(template, args, k) == template
  {
    if k > 0 {
      FormatWithoutPlaceholders(template, args, k - 1);
    }
  }

  /** One ignored argument: its placeholder no longer occurs. */
  lemma IgnoredStep(template: string, args: seq<string>, n: nat, k: nat, t: string, p: string)
    requires n < k <= |args|
    requires t == Substituted(template, args, n) && p == Placeholder(k - 1)
    requires Substituted(template, args, k - 1) == t
    requires forall j: nat :: !OccursAt(t, p, j)
    ensures Substituted(template, args, k) == t
  {
    SubstitutedStep(template, args, k);
    ReplaceNone(t, p, args[k - 1]);
  }

  /**
   * Arguments beyond the first n are ignored when their placeholders do not
   * occur in the text the first n substitutions leave.
   */
  lemma {:induction false} ExtraArgsIgnored(template: string, args: seq<string>, n: nat, k: nat)
    requires n <= k <= |args|
    requires forall m: nat, j: nat :: n <= m < k ==> !OccursAt(Substituted(template, args, n), Placeholder(m), j)
    ensures Substituted(template, args, k) == Substituted(template, args, n)
  {
    if k > n {
      ExtraArgsIgnored(template, args, n, k - 1);
      var t, p := Substituted(template, args, n), Placeholder(k - 1);
      assert forall j: nat :: !OccursAt(t, p, j);
      IgnoredStep(template, args, n, k, t, p);
    }
  }
}
