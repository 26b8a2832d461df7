/** Decimal digit strings, and the round trip through a JavaScript number
    (`parseInt(code).toString()`) that the UPC and EAN encoders apply to
    string input before they check its length. Integers are exact here;
    numbers at or above 10^21 print in exponent form in JavaScript and are
    kept out by the callers' preconditions. */
module Decimal {

  type Digit = d: nat | d < 10

  predicate IsDigit(c: char) {
    '0' <= c <= '9'
  }

  predicate IsDigits(s: string) {
    forall i :: 0 <= i < |s| ==> IsDigit(s[i])
  }

  function DigitValue(c: char): Digit
    requires IsDigit(c)
  {
    c as int - '0' as int
  }

  function DigitChar(d: Digit): (c: char)
    ensures IsDigit(c) && DigitValue(c) == d
  {
    ('0' as int + d) as char
  }

  lemma DigitCharOfValue(c: char)
    requires IsDigit(c)
    ensures DigitChar(DigitValue(c)) == c
  {
  }

  /** The number a digit string denotes, read most significant digit first. */
  function Value(s: string): nat
    requires IsDigits(s)
  {
    if s == [] then 0 else Value(s[..|s| - 1]) * 10 + DigitValue(s[|s| - 1])
  }

  function Pow10(k: nat): (p: nat)
    ensures p >= 1
  {
    if k == 0 then 1 else 10 * Pow10(k - 1)
  }

  /** `Number.prototype.toString()` for a non-negative integer below 10^21. */
  function ToDecimal(n: nat): (s: string)
    ensures IsDigits(s) && |s| >= 1
  {
    if n < 10 then [DigitChar(n)] else ToDecimal(n / 10) + [DigitChar(n % 10)]
  }

  /** A digit string without redundant leading zeros: what toString prints. */
  predicate Canonical(s: string) {
    IsDigits(s) && |s| >= 1 && (s[0] == '0' ==> |s| == 1)
  }

  /** Independent description of the normalisation: drop leading zeros,
      keeping a single "0" for an all-zero string. */
  function StripLeadingZeros(s: string): (r: string)
    requires IsDigits(s) && s != []
    ensures Canonical(r) && |r| <= |s| && r == s[|s| - |r|..]
  {
    if |s| > 1 && s[0] == '0' then StripLeadingZeros(s[1..]) else s
  }

  /** 10^21: from here on JavaScript prints numbers in exponent form. */
  const ExponentThreshold: nat := 1_000_000_000_000_000_000_000

  /** `parseInt(s).toString()` for a digit string: "NaN" for the empty string,
      otherwise the decimal form of the number the string denotes. */
  function ParseAndPrint(s: string): (r: string)
    requires IsDigits(s) && (s != [] ==> Value(s) < ExponentThreshold)
    ensures r == "NaN" <==> s == []
    ensures s != [] ==> Canonical(r) && Value(r) == Value(s)
  {
    if s == [] then "NaN"
    else
      ToDecimalCanonical(Value(s));
      ToDecimalValue(Value(s));
      ToDecimal(Value(s))
  }

  lemma {:induction false} ToDecimalValue(n: nat)
    ensures Value(ToDecimal(n)) == n
  {
    var s := ToDecimal(n);
    if n >= 10 {
      ToDecimalValue(n / 10);
      assert s[..|s| - 1] == ToDecimal(n / 10);
    } else {
      assert s[..0] == [];
    }
  }

  lemma {:induction false} ToDecimalCanonical(n: nat)
    ensures Canonical(ToDecimal(n))
    ensures n >= 1 ==> ToDecimal(n)[0] != '0'
  {
    if n >= 10 {
      ToDecimalCanonical(n / 10);
    }
  }

  lemma {:induction false} ValueLowerBound(s: string)
    requires IsDigits(s) && s != [] && s[0] != '0'
    ensures Value(s) >= Pow10(|s| - 1)
  {
    var p := s[..|s| - 1];
    if |s| == 1 {
      assert p == [];
    } else {
      assert p[0] == s[0];
      ValueLowerBound(p);
    }
  }

  /** A string of k digits denotes a number below 10^k. */
  lemma {:induction false} ValueUpperBound(s: string)
    requires IsDigits(s)
    ensures Value(s) < Pow10(|s|)
  {
    if s != [] {
      ValueUpperBound(s[..|s| - 1]);
    }
  }

  /** Reading from the front: the first digit weighs 10^(|s| - 1). */
  lemma {:induction false} ValueFront(s: string)
    requires IsDigits(s) && s != []
    ensures Value(s) == DigitValue(s[0]) * Pow10(|s| - 1) + Value(s[1..])
  {
    if |s| > 1 {
      var p, t := s[..|s| - 1], s[1..];
      var first, last := DigitValue(s[0]), DigitValue(s[|s| - 1]);
      var q := Pow10(|s| - 2);
      assert p[0] == s[0] && p[1..] == t[..|t| - 1] && t[|t| - 1] == s[|s| - 1];
      ValueFront(p);
      assert Value(p) == first * q + Value(p[1..]);
      assert Value(t) == Value(p[1..]) * 10 + last;
      assert Value(s) == Value(p) * 10 + last;
      Regroup(first, q, Value(p[1..]), last);
    }
  }

  lemma Regroup(a: nat, q: nat, b: nat, c: nat)
    ensures (a * q + b) * 10 + c == a * (10 * q) + (b * 10 + c)
  {
  }

  /** The first digit d of a digit string places the number it denotes
      between d * 10^(|s| - 1) and (d + 1) * 10^(|s| - 1). */
  lemma LeadingDigit(s: string)
    requires IsDigits(s) && s != []
    ensures var d := DigitValue(s[0]);
      d * Pow10(|s| - 1) <= Value(s) < (d + 1) * Pow10(|s| - 1)
  {
    ValueFront(s);
    ValueUpperBound(s[1..]);
  }

  lemma {:induction false} CanonicalRoundTrip(s: string)
    requires Canonical(s)
    ensures ToDecimal(Value(s)) == s
  {
    var p := s[..|s| - 1];
    var d := DigitValue(s[|s| - 1]);
    DigitCharOfValue(s[|s| - 1]);
    if |s| == 1 {
      assert p == [];
    } else {
      assert p[0] == s[0];
      ValueLowerBound(s);
      assert Value(s) >= 10;
      assert Value(s) / 10 == Value(p) && Value(s) % 10 == d;
      CanonicalRoundTrip(p);
      assert s == p + [s[|s| - 1]];
    }
  }

  lemma {:induction false} LeadingZeroValue(t: string)
    requires IsDigits(t)
    ensures IsDigits("0" + t) && Value("0" + t) == Value(t)
  {
    var s := "0" + t;
    if t == [] {
      assert s[..0] == [];
    } else {
      assert s[..|s| - 1] == "0" + t[..|t| - 1];
      LeadingZeroValue(t[..|t| - 1]);
    }
  }

  lemma {:induction false} StripKeepsValue(s: string)
    requires IsDigits(s) && s != []
    ensures Value(StripLeadingZeros(s)) == Value(s)
  {
    if |s| > 1 && s[0] == '0' {
      StripKeepsValue(s[1..]);
      assert s == "0" + s[1..];
      LeadingZeroValue(s[1..]);
    }
  }

  /** The number round trip drops exactly the leading zeros. */
  lemma ParseAndPrintStrips(s: string)
    requires IsDigits(s) && s != [] && Value(s) < ExponentThreshold
    ensures ParseAndPrint(s) == StripLeadingZeros(s)
  {
    var r := StripLeadingZeros(s);
    StripKeepsValue(s);
    CanonicalRoundTrip(r);
  }

  /** The printed length of n is at most k exactly when n < 10^k. */
  lemma {:induction false} ToDecimalLength(n: nat, k: nat)
    requires k >= 1
    ensures |ToDecimal(n)| <= k <==> n < Pow10(k)
  {
    if n >= 10 {
      if k == 1 {
        assert |ToDecimal(n)| >= 2;
      } else {
        ToDecimalLength(n / 10, k - 1);
      }
    } else {
      assert Pow10(k) == 10 * Pow10(k - 1);
    }
  }
}
