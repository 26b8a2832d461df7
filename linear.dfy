/** What the three encoders share: the input they accept, the ways they fail,
    and the normalisation that UPC and EAN apply before the length check. */
module Linear {
  import opened Decimal

  /** A code passed as a string of digits or as a non-negative integer. */
  datatype Input = Text(s: string) | Number(n: nat)

  /** `InvalidLength` is the exception the UPC and EAN constructors throw;
      `UnsupportedCharacter` is the failure of a Code 39 table lookup. */
  datatype Error = InvalidLength(message: string) | UnsupportedCharacter(c: char)

  /** Inputs inside the model: digit strings and integers below 10^21. */
  predicate Admissible(input: Input) {
    match input
    case Text(s) => IsDigits(s) && (s != [] ==> Value(s) < ExponentThreshold)
    case Number(n) => n < ExponentThreshold
  }

  /** The number an admissible input denotes (0 for the empty string). */
  function Magnitude(input: Input): nat
    requires Admissible(input)
  {
    match input
    case Text(s) => Value(s)
    case Number(n) => n
  }

  /** The string whose length the UPC and EAN constructors check: a string is
      read as a number and printed back, a number is printed. The empty string
      becomes "NaN"; everything else becomes the canonical decimal form of the
      number it denotes. */
  function Normalise(input: Input): (r: string)
    requires Admissible(input)
    ensures r == "NaN" <==> input == Text("")
    ensures r != "NaN" ==> Canonical(r) && Value(r) == Magnitude(input)
  {
    ToDecimalValue(Magnitude(input));
    ToDecimalCanonical(Magnitude(input));
    match input
    case Text(s) => ParseAndPrint(s)
    case Number(n) => ToDecimal(n)
  }

  /** For string input, normalising drops exactly the leading zeros. */
  lemma NormaliseStripsZeros(s: string)
    requires Admissible(Text(s)) && s != []
    ensures Normalise(Text(s)) == StripLeadingZeros(s)
  {
    ParseAndPrintStrips(s);
  }

  /** The normalised code has k or k + 1 characters exactly when the input
      is not the empty string and denotes a number of k or k + 1 digits. */
  lemma LengthWindow(input: Input, k: nat)
    requires Admissible(input) && k >= 4
    ensures |Normalise(input)| == k || |Normalise(input)| == k + 1
            <==> input != Text("") && Pow10(k - 1) <= Magnitude(input) < Pow10(k + 1)
  {
    if input != Text("") {
      ToDecimalLength(Magnitude(input), k + 1);
      ToDecimalLength(Magnitude(input), k - 1);
    }
  }

  /** A string with one leading zero loses exactly that zero. */
  lemma LeadingZeroDropped(s: string)
    requires Admissible(Text(s)) && |s| >= 2 && s[0] == '0' && s[1] != '0'
    ensures Normalise(Text(s)) == s[1..]
  {
    NormaliseStripsZeros(s);
    assert s[1..][0] != '0';
  }
}
