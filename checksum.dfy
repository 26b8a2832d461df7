/** The weighted mod-10 check digit of UPC-A and EAN-13. Both encoders sum
    their digits with alternating weights 3 and 1; they differ only in which
    parity of position gets the 3. */
module Checksum {
  import opened Decimal

  function Weight(i: nat, evenWeight: nat, oddWeight: nat): nat {
    if i % 2 == 0 then evenWeight else oddWeight
  }

  /** Sum of the digits of s, the digit at 0-based index i weighted by
      Weight(i, evenWeight, oddWeight). */
  function WeightedSum(s: string, evenWeight: nat, oddWeight: nat): nat
    requires IsDigits(s)
  {
    if s == [] then 0
    else WeightedSum(s[..|s| - 1], evenWeight, oddWeight)
         + Weight(|s| - 1, evenWeight, oddWeight) * DigitValue(s[|s| - 1])
  }

  /** The check digit for a weighted sum: the single digit that brings the
      sum to a multiple of ten. */
  function CheckDigitFor(sum: nat): (d: Digit)
    ensures (sum + d) % 10 == 0
  {
    var rem := sum % 10;
    if rem != 0 then 10 - rem else rem
  }

  /** No other digit completes the sum. */
  lemma CheckDigitUnique(sum: nat, d: Digit)
    ensures (sum + d) % 10 == 0 <==> d == CheckDigitFor(sum)
  {
  }

  /** Appending a digit adds its weighted value at the next position. */
  lemma AppendDigit(s: string, evenWeight: nat, oddWeight: nat, d: Digit)
    requires IsDigits(s)
    ensures IsDigits(s + [DigitChar(d)])
    ensures WeightedSum(s + [DigitChar(d)], evenWeight, oddWeight)
            == WeightedSum(s, evenWeight, oddWeight) + Weight(|s|, evenWeight, oddWeight) * d
  {
    var t := s + [DigitChar(d)];
    assert t[..|t| - 1] == s;
  }

  /** When the position after s carries weight 1, appending a digit makes the
      weighted sum a multiple of ten exactly when it is s's check digit. */
  lemma CompletesExactly(s: string, evenWeight: nat, oddWeight: nat, d: Digit)
    requires IsDigits(s) && Weight(|s|, evenWeight, oddWeight) == 1
    ensures IsDigits(s + [DigitChar(d)])
    ensures WeightedSum(s + [DigitChar(d)], evenWeight, oddWeight) % 10 == 0
            <==> d == CheckDigitFor(WeightedSum(s, evenWeight, oddWeight))
  {
    AppendDigit(s, evenWeight, oddWeight, d);
    CheckDigitUnique(WeightedSum(s, evenWeight, oddWeight), d);
  }
}
