/**
  * The legend text "Step k / N" that the render pass writes, with the decimal
  * rendering of numbers that JavaScript's template literals perform, and a
  * parser that reads a legend back.
  */
module StepText {
  import opened JsValues

  predicate IsDigit(c: char) {
    '0' <= c <= '9'
  }

  predicate AllDigits(s: string) {
    forall i :: 0 <= i < |s| ==> IsDigit(s[i])
  }

  function DigitChar(d: nat): (c: char)
    requires d < 10
    ensures IsDigit(c) && c as int - '0' as int == d
  {
    ('0' as int + d) as char
  }

  /**
    * The decimal numeral of `n`, as `${n}` writes it for every `n` below
    * 10^21 (from there JavaScript switches to exponent notation): digits
    * only, no leading zero.
    */
  function NatToString(n: nat): (s: string)
    ensures |s| > 0 && AllDigits(s)
    ensures s[0] == '0' ==> n == 0 && |s| == 1
    decreases n
  {
    if n < 10 then [DigitChar(n)] else NatToString(n / 10) + [DigitChar(n % 10)]
  }

  /** The number a string of decimal digits denotes. */
  function DigitsValue(s: string): nat
    requires AllDigits(s)
    decreases |s|
  {
    if s == [] then 0 else 10 * DigitsValue(s[..|s| - 1]) + (s[|s| - 1] as int - '0' as int)
  }

  /** Reading the numeral of `n` gives `n` back. */
  lemma {:induction false} NatToStringRoundTrip(n: nat)
    ensures DigitsValue(NatToString(n)) == n
    decreases n
  {
    if n >= 10 {
      NatToStringRoundTrip(n / 10);
      var s := NatToString(n);
      assert s[..|s| - 1] == NatToString(n / 10);
    }
  }

  /** Different numbers have different numerals. */
  lemma NatToStringInjective(a: nat, b: nat)
    requires NatToString(a) == NatToString(b)
    ensures a == b
  {
    NatToStringRoundTrip(a);
    NatToStringRoundTrip(b);
  }

  /** Splits `s` into its longest prefix of digits and the rest. */
  function SplitDigits(s: string): (r: (string, string))
    ensures r.0 + r.1 == s && AllDigits(r.0)
    ensures r.1 == [] || !IsDigit(r.1[0])
    decreases |s|
  {
    if s == [] || !IsDigit(s[0]) then ([], s)
    else
      var rest := SplitDigits(s[1..]);
      assert [s[0]] + (rest.0 + rest.1) == s;
      ([s[0]] + rest.0, rest.1)
  }

  /** A run of digits followed by a non-digit splits exactly there. */
  lemma {:induction false} SplitDigitsAt(d: string, rest: string)
    requires AllDigits(d)
    requires rest == [] || !IsDigit(rest[0])
    ensures SplitDigits(d + rest) == (d, rest)
    decreases |d|
  {
    if d == [] {
      assert d + rest == rest;
    } else {
      SplitDigitsAt(d[1..], rest);
      assert (d + rest)[0] == d[0] && IsDigit(d[0]);
      assert (d + rest)[1..] == d[1..] + rest;
      assert [d[0]] + d[1..] == d;
    }
  }

  /**
    * The legend shown for the 0-based step index `step` out of `count` steps.
    * It names the 1-based position of the step and the step count, and
    * nothing else: it reads back as exactly those two numbers.
    */
  function Legend(step: nat, count: nat): (t: string)
    ensures ParseLegend(t) == Some((step + 1, count))
  {
    ParseStepLegend(step + 1, count);
    "Step " + NatToString(step + 1) + " / " + NatToString(count)
  }

  /** Reads "Step k / N" back into (k, N); any other text gives None. */
  function ParseLegend(t: string): Option<(nat, nat)> {
    if |t| < 5 || t[..5] != "Step " then None
    else
      var first := SplitDigits(t[5..]);
      if first.0 == [] || |first.1| < 3 || first.1[..3] != " / " then None
      else
        var second := SplitDigits(first.1[3..]);
        if second.0 == [] || second.1 != [] then None
        else Some((DigitsValue(first.0), DigitsValue(second.0)))
  }

  /** "Step k / count" with both numbers written in decimal reads back as (k, count). */
  lemma ParseStepLegend(k: nat, count: nat)
    ensures ParseLegend("Step " + NatToString(k) + " / " + NatToString(count)) == Some((k, count))
  {
    var a, b := NatToString(k), NatToString(count);
    var t := "Step " + a + " / " + b;
    var tail := " / " + b;
    assert t == "Step " + (a + tail);
    assert t[..5] == "Step ";
    assert t[5..] == a + tail;
    SplitDigitsAt(a, tail);
    assert SplitDigits(t[5..]) == (a, tail);
    assert tail[..3] == " / " && tail[3..] == b;
    SplitDigitsAt(b, []);
    assert b + [] == b;
    assert SplitDigits(tail[3..]) == (b, []);
    NatToStringRoundTrip(k);
    NatToStringRoundTrip(count);
    assert ParseLegend(t) == Some((DigitsValue(a), DigitsValue(b)));
  }

  /** Different positions in the step script show different legends. */
  lemma LegendInjective(s1: nat, s2: nat, count: nat)
    requires Legend(s1, count) == Legend(s2, count)
    ensures s1 == s2
  {
  }

  /** The fourth of seven steps (index 3) reads "Step 4 / 7". */
  lemma LegendOfFourthOfSeven()
    ensures Legend(3, 7) == "Step 4 / 7"
  {
  }
}
