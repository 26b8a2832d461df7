/** The UPC-A encoder: normalise and length-check the code, keep eleven
    digits, append the mod-10 check digit, and draw the guarded string
    `*` + six digits + `#` + six digits + `*` in 95 modules, the left digits
    from number set L and the right digits from number set R. */
module Upc {
  import opened Wrappers
  import opened Decimal
  import opened Checksum
  import opened Patterns
  import opened Linear

  const LengthMessage: string := "Invalid UPC barcode length"

  /** The check digit of eleven code digits, even 0-based positions weighted
      3 and odd positions 1. */
  function CheckDigitOf(code: string): (d: Digit)
    requires |code| == 11 && IsDigits(code)
    ensures (WeightedSum(code, 3, 1) + d) % 10 == 0
  {
    CheckDigitFor(WeightedSum(code, 3, 1))
  }

  /** A twelve-digit UPC-A code whose weighted sum is a multiple of ten. */
  predicate IsValid(code: string) {
    |code| == 12 && IsDigits(code) && WeightedSum(code, 3, 1) % 10 == 0
  }

  /** The eleven digits followed by their check digit. */
  function Complete(code: string): string
    requires |code| == 11 && IsDigits(code)
  {
    code + [DigitChar(CheckDigitOf(code))]
  }

  /** The check digit is the one digit that makes the twelve-digit code valid. */
  lemma CheckDigitCompletes(code: string, d: Digit)
    requires |code| == 11 && IsDigits(code)
    ensures IsValid(code + [DigitChar(d)]) <==> d == CheckDigitOf(code)
  {
    CompletesExactly(code, 3, 1, d);
  }

  /** Sums the eleven digits with weights 3, 1, 3, ... and reduces mod 10. */
  method CheckDigit(code: string) returns (check: Digit)
    requires |code| == 11 && IsDigits(code)
    ensures check == CheckDigitOf(code)
    ensures IsValid(code + [DigitChar(check)])
  {
    var sum: nat := 0;
    var i := 0;
    while i < 11
      invariant 0 <= i <= 11
      invariant sum == WeightedSum(code[..i], 3, 1)
    {
      var digit: nat := DigitValue(code[i]);
      assert code[..i + 1][..i] == code[..i];
      if i % 2 == 0 {
        sum := sum + digit * 3;
      } else {
        sum := sum + digit;
      }
      i := i + 1;
    }
    assert code[..11] == code;
    sum := sum % 10;
    check := if sum != 0 then 10 - sum else sum;
    CheckDigitCompletes(code, check);
  }

  /** Guarded-string indices from 7 on draw from number set R, the rest from L. */
  function SetAt(index: nat): NumberSet {
    if index >= 7 then R else L
  }

  /** The modules of character c at index `index` of the guarded string. */
  function Mapper(c: char, index: nat): Pattern {
    Lookup(SetAt(index), c)
  }

  /** On the right of the centre guard a digit is drawn as the complement of
      its left-hand pattern; the guards look the same on both sides. */
  lemma MapperSides(c: char, left: nat, right: nat)
    requires left < 7 <= right
    ensures IsDigit(c) ==> Mapper(c, right) == Complement(Mapper(c, left))
    ensures !IsDigit(c) ==> Mapper(c, right) == Mapper(c, left)
  {
    if IsDigit(c) {
      RIsComplementOfL(DigitValue(c));
    }
  }

  /** The twelve digits between the guards: `*`, six digits, `#`, six digits, `*`. */
  function Guarded(code: string): string
    requires |code| == 12
  {
    "*" + code[..6] + "#" + code[6..12] + "*"
  }

  /** The modules of a complete twelve-digit code. */
  function Bars(code: string): Pattern
    requires |code| == 12
  {
    Render(Guarded(code), Mapper, 0)
  }

  /** The symbol as ISO/IEC 15420 lays it out. */
  function Symbol(code: string): Pattern
    requires |code| == 12 && IsDigits(code)
  {
    Guard + DigitRun(code[..6], [L, L, L, L, L, L]) + Centre
    + DigitRun(code[6..], [R, R, R, R, R, R]) + Guard
  }

  /** Drawing the guarded string character by character gives the symbol. */
  lemma BarsAreSymbol(code: string)
    requires |code| == 12 && IsDigits(code)
    ensures Bars(code) == Symbol(code)
  {
    var left, right := code[..6], code[6..];
    var ls, rs := [L, L, L, L, L, L], [R, R, R, R, R, R];
    assert Guarded(code) == "*" + left + "#" + right + "*";
    forall i | 0 <= i < 6
      ensures Mapper(left[i], 1 + i) == DigitPattern(ls[i], DigitValue(left[i]))
      ensures Mapper(right[i], 8 + i) == DigitPattern(rs[i], DigitValue(right[i]))
    {
      assert IsDigit(left[i]) && IsDigit(right[i]);
    }
    RenderGuarded(left, right, Mapper, ls, rs);
  }

  /** The bars are laid out as the symbol: guards, then six digits from L
      around the centre guard, then six digits from R. */
  lemma BarsLaidOut(code: string)
    requires |code| == 12 && IsDigits(code)
    ensures LaidOut(Bars(code), code[..6], code[6..], [L, L, L, L, L, L], [R, R, R, R, R, R])
  {
    BarsAreSymbol(code);
    SymbolLayout(code[..6], code[6..], [L, L, L, L, L, L], [R, R, R, R, R, R]);
  }

  lemma LeftDigitAt(code: string, k: nat)
    requires |code| == 12 && IsDigits(code) && k < 6
    ensures |Bars(code)| == 95
    ensures Bars(code)[3 + 7 * k .. 10 + 7 * k] == LSet[DigitValue(code[k])]
  {
    BarsLaidOut(code);
    assert code[..6][k] == code[k];
  }

  lemma RightDigitAt(code: string, k: nat)
    requires |code| == 12 && IsDigits(code) && 6 <= k < 12
    ensures |Bars(code)| == 95
    ensures Bars(code)[8 + 7 * k .. 15 + 7 * k] == RSet[DigitValue(code[k])]
  {
    BarsLaidOut(code);
    assert code[6..][k - 6] == code[k];
    assert 8 + 7 * k == 50 + 7 * (k - 6);
  }

  /** A UPC-A symbol is 95 modules: the normal guard, the first six digits in
      number set L, the centre guard, the last six digits in number set R,
      and the normal guard again. */
  lemma BarsLayout(code: string)
    requires |code| == 12 && IsDigits(code)
    ensures var bars := Bars(code);
      && |bars| == 95
      && bars[..3] == Guard && bars[45..50] == Centre && bars[92..] == Guard
      && (forall k :: 0 <= k < 6 ==> bars[3 + 7 * k .. 10 + 7 * k] == LSet[DigitValue(code[k])])
      && (forall k :: 6 <= k < 12 ==> bars[8 + 7 * k .. 15 + 7 * k] == RSet[DigitValue(code[k])])
  {
    BarsLaidOut(code);
    forall k | 0 <= k < 6
      ensures Bars(code)[3 + 7 * k .. 10 + 7 * k] == LSet[DigitValue(code[k])]
    {
      LeftDigitAt(code, k);
    }
    forall k | 6 <= k < 12
      ensures Bars(code)[8 + 7 * k .. 15 + 7 * k] == RSet[DigitValue(code[k])]
    {
      RightDigitAt(code, k);
    }
  }

  /** Different twelve-digit codes give different bars. */
  lemma BarsDetermineCode(c1: string, c2: string)
    requires |c1| == 12 && IsDigits(c1) && |c2| == 12 && IsDigits(c2)
    requires Bars(c1) == Bars(c2)
    ensures c1 == c2
  {
    BarsLayout(c1);
    BarsLayout(c2);
    var bars := Bars(c1);
    forall k | 0 <= k < 6
      ensures c1[k] == c2[k]
    {
      assert bars[3 + 7 * k .. 10 + 7 * k] == DigitPattern(L, DigitValue(c1[k]));
      assert bars[3 + 7 * k .. 10 + 7 * k] == DigitPattern(L, DigitValue(c2[k]));
      DigitPatternsDistinct(L, DigitValue(c1[k]), L, DigitValue(c2[k]));
    }
    forall k | 6 <= k < 12
      ensures c1[k] == c2[k]
    {
      assert bars[8 + 7 * k .. 15 + 7 * k] == DigitPattern(R, DigitValue(c1[k]));
      assert bars[8 + 7 * k .. 15 + 7 * k] == DigitPattern(R, DigitValue(c2[k]));
      DigitPatternsDistinct(R, DigitValue(c1[k]), R, DigitValue(c2[k]));
    }
  }

  /** The length check passes exactly for inputs denoting a number of eleven
      or twelve digits; a leading zero in a string does not count. */
  lemma AcceptedInputs(input: Input)
    requires Admissible(input)
    ensures |Normalise(input)| == 11 || |Normalise(input)| == 12
            <==> input != Text("") && Pow10(10) <= Magnitude(input) < Pow10(12)
  {
    LengthWindow(input, 11);
  }

  /** The code "01234567890" is read as the number 1234567890, whose ten
      digits fail the length check. */
  lemma LeadingZeroExampleRejected()
    ensures Admissible(Text("01234567890"))
    ensures |Normalise(Text("01234567890"))| == 10
  {
    var s := "01234567890";
    assert IsDigits(s);
    assert Value(s) < ExponentThreshold by {
      ValueUpperBound(s);
      assert Pow10(11) < ExponentThreshold;
    }
    LeadingZeroDropped(s);
  }

  /** An encoded UPC-A symbol: its modules and its twelve-digit code. */
  class Upc {
    var bars: seq<Bit>
    var code: string

    /** Keeps the eleven accepted digits and draws the symbol. */
    constructor (digits: string)
      requires |digits| == 11 && IsDigits(digits)
      ensures code == Complete(digits) && IsValid(code)
      ensures bars == Bars(code)
    {
      bars := [];
      code := digits;
      new;
      GenerateBars();
    }

    /** Appends the check digit to the code, then the modules of each
        character of the guarded string to the bars. */
    method GenerateBars()
      requires |code| == 11 && IsDigits(code) && bars == []
      modifies this
      ensures code == Complete(old(code)) && IsValid(code)
      ensures bars == Bars(code)
    {
      var check := CheckDigit(code);
      code := code + [DigitChar(check)];
      var g := Guarded(code);
      var i := 0;
      while i < |g|
        invariant 0 <= i <= |g|
        invariant bars == Render(g[..i], Mapper, 0)
        invariant code == old(code) + [DigitChar(check)]
      {
        RenderStep(g, Mapper, i);
        bars := bars + Mapper(g[i], i);
        i := i + 1;
      }
      assert g[..|g|] == g;
    }
  }

  /** `new UPC(code)`: fails with "Invalid UPC barcode length" unless the
      normalised code has eleven or twelve characters; otherwise encodes its
      first eleven, discarding a twelfth without looking at it. */
  method Create(input: Input) returns (r: Result<Upc, Error>)
    requires Admissible(input)
    ensures var n := Normalise(input);
      && (r.Err? <==> |n| != 11 && |n| != 12)
      && (r.Err? ==> r.error == InvalidLength(LengthMessage))
      && (r.Ok? ==> fresh(r.value) && r.value.code == Complete(n[..11])
                    && r.value.bars == Bars(r.value.code))
  {
    var n := Normalise(input);
    if |n| != 11 && |n| != 12 {
      return Err(InvalidLength(LengthMessage));
    }
    var u := new Upc(n[..11]);
    return Ok(u);
  }
}
