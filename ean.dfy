/** The EAN-13 encoder: normalise and length-check the code, keep twelve
    digits, take the first as the parity selector, append the mod-10 check
    digit, and draw `*` + digits 1-6 + `#` + digits 7-12 + `*` in 95 modules.
    The right digits come from number set R; each left digit comes from L or G
    as the parity selector says, so the first digit is drawn by no modules of
    its own. */
module Ean {
  import opened Wrappers
  import opened Decimal
  import opened Checksum
  import opened Patterns
  import opened Linear

  const LengthMessage: string := "Invalid EAN barcode length"

  /** The check digit of twelve code digits, odd 0-based positions weighted
      3 and even positions 1. */
  function CheckDigitOf(code: string): (d: Digit)
    requires |code| == 12 && IsDigits(code)
    ensures (WeightedSum(code, 1, 3) + d) % 10 == 0
  {
    CheckDigitFor(WeightedSum(code, 1, 3))
  }

  /** A thirteen-digit EAN-13 code whose weighted sum is a multiple of ten. */
  predicate IsValid(code: string) {
    |code| == 13 && IsDigits(code) && WeightedSum(code, 1, 3) % 10 == 0
  }

  /** The twelve digits followed by their check digit. */
  function Complete(code: string): string
    requires |code| == 12 && IsDigits(code)
  {
    code + [DigitChar(CheckDigitOf(code))]
  }

  /** The check digit is the one digit that makes the thirteen-digit code valid. */
  lemma CheckDigitCompletes(code: string, d: Digit)
    requires |code| == 12 && IsDigits(code)
    ensures IsValid(code + [DigitChar(d)]) <==> d == CheckDigitOf(code)
  {
    CompletesExactly(code, 1, 3, d);
  }

  /** Sums the twelve digits with weights 1, 3, 1, ... and reduces mod 10. */
  method CheckDigit(code: string) returns (check: Digit)
    requires |code| == 12 && IsDigits(code)
    ensures check == CheckDigitOf(code)
    ensures IsValid(code + [DigitChar(check)])
  {
    var sum: nat := 0;
    var i := 0;
    while i < 12
      invariant 0 <= i <= 12
      invariant sum == WeightedSum(code[..i], 1, 3)
    {
      var digit: nat := DigitValue(code[i]);
      assert code[..i + 1][..i] == code[..i];
      if i % 2 == 1 {
        sum := sum + digit * 3;
      } else {
        sum := sum + digit;
      }
      i := i + 1;
    }
    assert code[..12] == code;
    sum := sum % 10;
    check := if sum != 0 then 10 - sum else sum;
    CheckDigitCompletes(code, check);
  }

  lemma SumStep(s: string, i: nat)
    requires IsDigits(s) && i < |s|
    ensures WeightedSum(s[..i + 1], 1, 3) == WeightedSum(s[..i], 1, 3) + Weight(i, 1, 3) * DigitValue(s[i])
  {
    assert s[..i + 1][..i] == s[..i];
  }

  const ExampleDigits: string := "400638133393"

  lemma ExampleFirstHalf()
    ensures IsDigits(ExampleDigits) && WeightedSum(ExampleDigits[..6], 1, 3) == 49
  {
    var s := ExampleDigits;
    assert IsDigits(s);
    assert s[..0] == [];
    SumStep(s, 0); SumStep(s, 1); SumStep(s, 2);
    SumStep(s, 3); SumStep(s, 4); SumStep(s, 5);
  }

  lemma ExampleNine()
    ensures IsDigits(ExampleDigits) && WeightedSum(ExampleDigits[..9], 1, 3) == 62
  {
    var s := ExampleDigits;
    ExampleFirstHalf();
    SumStep(s, 6); SumStep(s, 7); SumStep(s, 8);
  }

  lemma ExampleSum()
    ensures IsDigits(ExampleDigits) && WeightedSum(ExampleDigits, 1, 3) == 89
  {
    var s := ExampleDigits;
    ExampleNine();
    SumStep(s, 9); SumStep(s, 10); SumStep(s, 11);
    assert s[..12] == s;
  }

  /** A published EAN-13 code: the twelve digits 400638133393 complete with
      check digit 1. */
  lemma CheckDigitExample()
    ensures IsDigits(ExampleDigits)
    ensures Complete(ExampleDigits) == "4006381333931"
  {
    ExampleSum();
  }

  /** The switch on the parity selector: the left-half indices whose digit is
      drawn from number set L; the other left-half indices use G. */
  predicate UsesL(base: Digit, index: nat) {
    match base
    case 0 => true
    case 1 => index == 1 || index == 2 || index == 4
    case 2 => index == 1 || index == 2 || index == 5
    case 3 => index == 1 || index == 2 || index == 6
    case 4 => index == 1 || index == 3 || index == 4
    case 5 => index == 1 || index == 4 || index == 5
    case 6 => index == 1 || index == 5 || index == 6
    case 7 => index == 1 || index == 3 || index == 5
    case 8 => index == 1 || index == 3 || index == 6
    case 9 => index == 1 || index == 4 || index == 6
  }

  /** Guarded-string indices above 6 draw from R; the others from L or G. */
  function SetAt(base: Digit, index: nat): NumberSet {
    if index > 6 then R else if UsesL(base, index) then L else G
  }

  /** The modules of character c at index `index` of the guarded string, for
      the given parity selector. */
  function Mapper(base: Digit, c: char, index: nat): Pattern {
    Lookup(SetAt(base, index), c)
  }

  /** The mapper of one symbol, its parity selector fixed. */
  function MapperOf(base: Digit): CharMapper {
    (c, index) => Mapper(base, c, index)
  }

  /** Digits 1-6 and 7-12 between the guards; digit 0 is left out. */
  function Guarded(code: string): string
    requires |code| == 13
  {
    "*" + code[1..7] + "#" + code[7..13] + "*"
  }

  /** The modules of a complete thirteen-digit code under a parity selector. */
  function Bars(base: Digit, code: string): Pattern
    requires |code| == 13
  {
    Render(Guarded(code), MapperOf(base), 0)
  }

  /** The parity patterns of ISO/IEC 15420 for number sets A (L) and B (G),
      indexed by the leading digit, one entry per left-half digit. */
  const ParityTable: seq<seq<NumberSet>> := [
    [L, L, L, L, L, L], [L, L, G, L, G, G], [L, L, G, G, L, G], [L, L, G, G, G, L],
    [L, G, L, L, G, G], [L, G, G, L, L, G], [L, G, G, G, L, L], [L, G, L, G, L, G],
    [L, G, L, G, G, L], [L, G, G, L, G, L]
  ]

  /** The number sets the encoder uses for the six left-half digits. */
  function LeftSets(base: Digit): (sets: seq<NumberSet>)
    ensures |sets| == 6
  {
    [SetAt(base, 1), SetAt(base, 2), SetAt(base, 3), SetAt(base, 4), SetAt(base, 5), SetAt(base, 6)]
  }

  /** The switch agrees with the standard's parity table. */
  lemma ParityMatchesStandard(base: Digit)
    ensures LeftSets(base) == ParityTable[base]
  {
    Digits10(base);
  }

  /** The first left-half digit is always drawn from L, whatever the selector. */
  lemma FirstPositionL(base: Digit)
    ensures SetAt(base, 1) == L
  {
    Digits10(base);
  }

  /** Number of G digits among the left-half sets from index k on. */
  function CountG(sets: seq<NumberSet>, k: nat): nat
    decreases |sets| - k
  {
    if k >= |sets| then 0 else (if sets[k] == G then 1 else 0) + CountG(sets, k + 1)
  }

  /** Selector 0 draws the whole left half from L, like UPC-A; every other
      selector draws exactly three of the six left digits from G. */
  lemma ParityWeight(base: Digit)
    ensures CountG(LeftSets(base), 0) == if base == 0 then 0 else 3
  {
    ParityMatchesStandard(base);
    Digits10(base);
  }

  /** The left-half sets determine the parity selector, so a reader recovers
      the leading digit from the sets alone. */
  lemma LeadingDigitDetermined(b1: Digit, b2: Digit)
    requires LeftSets(b1) == LeftSets(b2)
    ensures b1 == b2
  {
    ParityMatchesStandard(b1);
    ParityMatchesStandard(b2);
    Digits10(b1);
    Digits10(b2);
  }

  /** The symbol as ISO/IEC 15420 lays it out. */
  function Symbol(base: Digit, code: string): Pattern
    requires |code| == 13 && IsDigits(code)
  {
    Guard + DigitRun(code[1..7], LeftSets(base)) + Centre
    + DigitRun(code[7..], [R, R, R, R, R, R]) + Guard
  }

  /** Drawing the guarded string character by character gives the symbol. */
  lemma BarsAreSymbol(base: Digit, code: string)
    requires |code| == 13 && IsDigits(code)
    ensures Bars(base, code) == Symbol(base, code)
  {
    var left, right := code[1..7], code[7..];
    var ls, rs := LeftSets(base), [R, R, R, R, R, R];
    var m := MapperOf(base);
    assert Guarded(code) == "*" + left + "#" + right + "*";
    forall i | 0 <= i < 6
      ensures m(left[i], 1 + i) == DigitPattern(ls[i], DigitValue(left[i]))
      ensures m(right[i], 8 + i) == DigitPattern(rs[i], DigitValue(right[i]))
    {
      assert IsDigit(left[i]) && IsDigit(right[i]);
    }
    RenderGuarded(left, right, m, ls, rs);
  }

  /** The bars are laid out as the symbol: guards, then digits 1-6 from the
      selected sets around the centre guard, then digits 7-12 from R. */
  lemma BarsLaidOut(base: Digit, code: string)
    requires |code| == 13 && IsDigits(code)
    ensures LaidOut(Bars(base, code), code[1..7], code[7..], LeftSets(base), [R, R, R, R, R, R])
  {
    BarsAreSymbol(base, code);
    SymbolLayout(code[1..7], code[7..], LeftSets(base), [R, R, R, R, R, R]);
  }

  /** In any laid-out symbol, code digit k of the left half sits at modules
      7k-4 to 7k+3. */
  lemma LeftSlot(s: Pattern, base: Digit, code: string, k: nat)
    requires |code| == 13 && IsDigits(code) && 1 <= k <= 6
    requires LaidOut(s, code[1..7], code[7..], LeftSets(base), [R, R, R, R, R, R])
    ensures |s| == 95
    ensures s[7 * k - 4 .. 7 * k + 3] == DigitPattern(SetAt(base, k), DigitValue(code[k]))
  {
    var j := k - 1;
    assert s[3 + 7 * j .. 10 + 7 * j] == DigitPattern(LeftSets(base)[j], DigitValue(code[1..7][j]));
    assert code[1..7][j] == code[k] && LeftSets(base)[j] == SetAt(base, k);
    assert 3 + 7 * j == 7 * k - 4 && 10 + 7 * j == 7 * k + 3;
  }

  lemma LeftDigitAt(base: Digit, code: string, k: nat)
    requires |code| == 13 && IsDigits(code) && 1 <= k <= 6
    ensures |Bars(base, code)| == 95
    ensures Bars(base, code)[7 * k - 4 .. 7 * k + 3] == DigitPattern(SetAt(base, k), DigitValue(code[k]))
  {
    BarsLaidOut(base, code);
    LeftSlot(Bars(base, code), base, code, k);
  }

  lemma RightDigitAt(base: Digit, code: string, k: nat)
    requires |code| == 13 && IsDigits(code) && 7 <= k <= 12
    ensures |Bars(base, code)| == 95
    ensures Bars(base, code)[7 * k + 1 .. 7 * k + 8] == RSet[DigitValue(code[k])]
  {
    BarsLaidOut(base, code);
    assert code[7..][k - 7] == code[k];
    assert 7 * k + 1 == 50 + 7 * (k - 7);
  }

  /** An EAN-13 symbol is 95 modules: the normal guard, digits 1-6 in the
      number sets the selector picks, the centre guard, digits 7-12 in
      number set R, and the normal guard again. */
  lemma BarsLayout(base: Digit, code: string)
    requires |code| == 13 && IsDigits(code)
    ensures var bars := Bars(base, code);
      && |bars| == 95
      && bars[..3] == Guard && bars[45..50] == Centre && bars[92..] == Guard
      && (forall k :: 1 <= k <= 6 ==>
            bars[7 * k - 4 .. 7 * k + 3] == DigitPattern(SetAt(base, k), DigitValue(code[k])))
      && (forall k :: 7 <= k <= 12 ==> bars[7 * k + 1 .. 7 * k + 8] == RSet[DigitValue(code[k])])
  {
    BarsLaidOut(base, code);
    forall k | 1 <= k <= 6
      ensures Bars(base, code)[7 * k - 4 .. 7 * k + 3] == DigitPattern(SetAt(base, k), DigitValue(code[k]))
    {
      LeftDigitAt(base, code, k);
    }
    forall k | 7 <= k <= 12
      ensures Bars(base, code)[7 * k + 1 .. 7 * k + 8] == RSet[DigitValue(code[k])]
    {
      RightDigitAt(base, code, k);
    }
  }

  /** The bars determine the whole thirteen-digit code, the leading digit
      included, when that digit is the parity selector. */
  lemma BarsDetermineCode(c1: string, c2: string)
    requires |c1| == 13 && IsDigits(c1) && |c2| == 13 && IsDigits(c2)
    requires Bars(DigitValue(c1[0]), c1) == Bars(DigitValue(c2[0]), c2)
    ensures c1 == c2
  {
    var b1, b2 := DigitValue(c1[0]), DigitValue(c2[0]);
    BarsLayout(b1, c1);
    BarsLayout(b2, c2);
    var bars := Bars(b1, c1);
    forall k | 1 <= k <= 6
      ensures SetAt(b1, k) == SetAt(b2, k) && c1[k] == c2[k]
    {
      assert bars[7 * k - 4 .. 7 * k + 3] == DigitPattern(SetAt(b1, k), DigitValue(c1[k]));
      assert bars[7 * k - 4 .. 7 * k + 3] == DigitPattern(SetAt(b2, k), DigitValue(c2[k]));
      DigitPatternsDistinct(SetAt(b1, k), DigitValue(c1[k]), SetAt(b2, k), DigitValue(c2[k]));
    }
    forall k | 7 <= k <= 12
      ensures c1[k] == c2[k]
    {
      assert bars[7 * k + 1 .. 7 * k + 8] == DigitPattern(R, DigitValue(c1[k]));
      assert bars[7 * k + 1 .. 7 * k + 8] == DigitPattern(R, DigitValue(c2[k]));
      DigitPatternsDistinct(R, DigitValue(c1[k]), R, DigitValue(c2[k]));
    }
    LeadingDigitDetermined(b1, b2);
    assert c1[0] == c2[0];
  }

  /** The length check passes exactly for inputs denoting a number of twelve
      or thirteen digits; leading zeros of a string do not count. */
  lemma AcceptedInputs(input: Input)
    requires Admissible(input)
    ensures |Normalise(input)| == 12 || |Normalise(input)| == 13
            <==> input != Text("") && Pow10(11) <= Magnitude(input) < Pow10(13)
  {
    LengthWindow(input, 12);
  }

  /** The input passes the length check. */
  predicate Accepted(input: Input)
    requires Admissible(input)
  {
    |Normalise(input)| == 12 || |Normalise(input)| == 13
  }

  /** The parity selector: the first digit of the normalised code, that is
      the leading digit of the number the input denotes. It is never 0, so
      the all-L left half is out of reach. */
  function Selector(input: Input): (b: Digit)
    requires Admissible(input) && Accepted(input)
    ensures var p := Pow10(|Normalise(input)| - 1);
      b * p <= Magnitude(input) < (b + 1) * p
    ensures b != 0
  {
    var n := Normalise(input);
    LeadingDigit(n);
    DigitValue(n[0])
  }

  /** One entry of the bars array as the encoder builds it: a module, or the
      `undefined` that `concat` appends when `_mapper` finds no pattern. */
  datatype Cell = Module(bit: Bit) | Undefined

  /** The modules of a pattern as entries of the bars array. */
  function Lift(p: Pattern): (cells: seq<Cell>)
    ensures |cells| == |p| && forall i :: 0 <= i < |p| ==> cells[i] == Module(p[i])
  {
    seq(|p|, i requires 0 <= i < |p| => Module(p[i]))
  }

  /** The selector as written, `parseInt(code[0])` on the constructor's
      argument: the first character of a string, but NaN for a number, whose
      `code[0]` is undefined. */
  function SelectorAsWritten(input: Input): Option<Digit>
    requires Admissible(input) && Accepted(input)
  {
    match input
    case Text(_) => Some(Selector(input))
    case Number(_) => None
  }

  /** The number set `_mapper` picks as written: with a NaN selector no case
      of the switch matches, and indices up to 6 get no table at all. */
  function SetAtAsWritten(base: Option<Digit>, index: nat): Option<NumberSet> {
    if index > 6 then Some(R)
    else match base
      case None => None
      case Some(b) => Some(SetAt(b, index))
  }

  /** What one step of `_generateBars` appends as written. */
  function CellsAt(base: Option<Digit>, c: char, index: nat): seq<Cell> {
    match SetAtAsWritten(base, index)
    case None => [Undefined]
    case Some(ns) => Lift(Lookup(ns, c))
  }

  /** The bars array as written, for characters of g at indices from on. */
  function DrawAsWritten(base: Option<Digit>, g: string, from: nat): seq<Cell> {
    Cells(g, CellMap(base), from)
  }

  /** The step of `_generateBars` for one selector, as a function value. */
  function CellMap(base: Option<Digit>): (char, nat) -> seq<Cell> {
    (c: char, index: nat) => CellsAt(base, c, index)
  }

  /** The entries appended for g, whose characters sit at indices from,
      from + 1, ..., each mapped by f. */
  function Cells(g: string, f: (char, nat) -> seq<Cell>, from: nat): seq<Cell> {
    if g == [] then [] else f(g[0], from) + Cells(g[1..], f, from + 1)
  }

  lemma {:induction false} CellsAppend(g: string, h: string, f: (char, nat) -> seq<Cell>, from: nat)
    ensures Cells(g + h, f, from) == Cells(g, f, from) + Cells(h, f, from + |g|)
  {
    if g == [] {
      assert g + h == h;
    } else {
      assert (g + h)[0] == g[0] && (g + h)[1..] == g[1..] + h;
      CellsAppend(g[1..], h, f, from + 1);
      var x := f(g[0], from);
      var y := Cells(g[1..], f, from + 1);
      var z := Cells(h, f, from + |g|);
      assert x + (y + z) == (x + y) + z;
    }
  }

  lemma LiftAppend(a: Pattern, b: Pattern)
    ensures Lift(a + b) == Lift(a) + Lift(b)
  {
    assert forall i :: 0 <= i < |a + b| ==> Lift(a + b)[i] == (Lift(a) + Lift(b))[i];
  }

  /** With a known selector, the code as written draws the modules of Bars. */
  lemma {:induction false} DrawWithSelector(b: Digit, g: string, from: nat)
    ensures DrawAsWritten(Some(b), g, from) == Lift(Render(g, MapperOf(b), from))
  {
    if g != [] {
      var head := Mapper(b, g[0], from);
      var tail := Render(g[1..], MapperOf(b), from + 1);
      assert Render(g, MapperOf(b), from) == head + tail;
      assert CellsAt(Some(b), g[0], from) == Lift(head) by {
        assert SetAtAsWritten(Some(b), from) == Some(SetAt(b, from));
      }
      DrawWithSelector(b, g[1..], from + 1);
      LiftAppend(head, tail);
    }
  }

  /** With a NaN selector, each character up to index 6 becomes a single
      `undefined`. */
  lemma {:induction false} UndefinedRun(g: string, from: nat)
    requires from + |g| <= 7
    ensures DrawAsWritten(None, g, from) == seq(|g|, i => Undefined)
  {
    if g != [] {
      UndefinedRun(g[1..], from + 1);
      assert CellsAt(None, g[0], from) == [Undefined];
    }
  }

  /** From index 7 on, the selector plays no part. */
  lemma {:induction false} RightOfCentre(base: Option<Digit>, g: string, from: nat)
    requires from >= 7
    ensures DrawAsWritten(base, g, from) == DrawAsWritten(Some(0), g, from)
  {
    if g != [] {
      RightOfCentre(base, g[1..], from + 1);
    }
  }

  /** The centre guard, digits 7-12 and the end guard, drawn from index 7. */
  lemma RightHalf(code: string)
    requires |code| == 13 && IsDigits(code)
    ensures Render("#" + code[7..] + "*", MapperOf(0), 7) == Centre + DigitRun(code[7..], [R, R, R, R, R, R]) + Guard
  {
    var right, m := code[7..], MapperOf(0);
    assert "#" + right + "*" == "#" + (right + "*");
    RenderAppend("#", right + "*", m, 7);
    RenderAppend(right, "*", m, 8);
    RenderOne('#', m, 7);
    RenderOne('*', m, 14);
    forall i | 0 <= i < 6
      ensures m(right[i], 8 + i) == DigitPattern(R, DigitValue(right[i]))
    {
      assert IsDigit(right[i]);
    }
    RenderDigits(right, m, 8, [R, R, R, R, R, R]);
  }

  /** With a NaN selector: seven `undefined` entries, then the centre guard,
      digits 7-12 from R and the end guard. */
  lemma NaNSelectorDrawing(code: string)
    requires |code| == 13 && IsDigits(code)
    ensures DrawAsWritten(None, Guarded(code), 0)
            == seq(7, i => Undefined) + Lift(Centre + DigitRun(code[7..], [R, R, R, R, R, R]) + Guard)
  {
    var g := Guarded(code);
    var left, rest := g[..7], g[7..];
    assert DrawAsWritten(None, g, 0) == DrawAsWritten(None, left, 0) + DrawAsWritten(None, rest, 7) by {
      assert g == left + rest;
      CellsAppend(left, rest, CellMap(None), 0);
    }
    assert DrawAsWritten(None, left, 0) == seq(7, i => Undefined) by {
      UndefinedRun(left, 0);
    }
    assert DrawAsWritten(None, rest, 7) == Lift(Render(rest, MapperOf(0), 7)) by {
      RightOfCentre(None, rest, 7);
      DrawWithSelector(0, rest, 7);
    }
    assert Render(rest, MapperOf(0), 7) == Centre + DigitRun(code[7..], [R, R, R, R, R, R]) + Guard by {
      assert rest == "#" + code[7..] + "*";
      RightHalf(code);
    }
  }

  /** For string input the code as written draws exactly the symbol. For
      number input it draws seven `undefined` entries for the start guard and
      the six left-half digits, then the centre guard, digits 7-12 from R and
      the end guard: 57 entries instead of 95 modules. */
  lemma NumberInputDrawsUndefined(input: Input, code: string)
    requires Admissible(input) && Accepted(input)
    requires |code| == 13 && IsDigits(code)
    ensures input.Text? ==>
      DrawAsWritten(SelectorAsWritten(input), Guarded(code), 0) == Lift(Bars(Selector(input), code))
    ensures input.Number? ==> var cells := DrawAsWritten(SelectorAsWritten(input), Guarded(code), 0);
      && cells == seq(7, i => Undefined) + Lift(Centre + DigitRun(code[7..], [R, R, R, R, R, R]) + Guard)
      && |cells| == 57
  {
    if input.Text? {
      DrawWithSelector(Selector(input), Guarded(code), 0);
    } else {
      NaNSelectorDrawing(code);
      DigitRunLength(code[7..], [R, R, R, R, R, R]);
    }
  }

  /** An encoded EAN-13 symbol: its modules, its thirteen-digit code and its
      parity selector. */
  class Ean {
    var bars: seq<Bit>
    var code: string
    var base: Digit

    /** Keeps the twelve accepted digits, takes the first as the parity
        selector and draws the symbol. */
    constructor (digits: string)
      requires |digits| == 12 && IsDigits(digits)
      ensures base == DigitValue(digits[0])
      ensures code == Complete(digits) && IsValid(code)
      ensures bars == Bars(base, code)
    {
      bars := [];
      base := DigitValue(digits[0]);
      code := digits;
      new;
      GenerateBars();
    }

    /** Appends the check digit to the code, then the modules of each
        character of the guarded string to the bars. */
    method GenerateBars()
      requires |code| == 12 && IsDigits(code) && bars == []
      modifies this
      ensures base == old(base)
      ensures code == Complete(old(code)) && IsValid(code)
      ensures bars == Bars(base, code)
    {
      var check := CheckDigit(code);
      code := code + [DigitChar(check)];
      var g := Guarded(code);
      var i := 0;
      while i < |g|
        invariant 0 <= i <= |g|
        invariant bars == Render(g[..i], MapperOf(base), 0)
        invariant code == old(code) + [DigitChar(check)] && base == old(base)
      {
        RenderStep(g, MapperOf(base), i);
        bars := bars + Mapper(base, g[i], i);
        i := i + 1;
      }
      assert g[..|g|] == g;
    }
  }

  /** `new EAN(code)`: fails with "Invalid EAN barcode length" unless the
      normalised code has twelve or thirteen characters; otherwise encodes
      its first twelve, discarding a thirteenth without looking at it. The
      parity selector is the first digit of the normalised code, for string
      and number input alike. */
  method Create(input: Input) returns (r: Result<Ean, Error>)
    requires Admissible(input)
    ensures var n := Normalise(input);
      && (r.Err? <==> !Accepted(input))
      && (r.Err? ==> r.error == InvalidLength(LengthMessage))
      && (r.Ok? ==> fresh(r.value) && r.value.base == Selector(input)
                    && r.value.code == Complete(n[..12])
                    && r.value.bars == Bars(r.value.base, r.value.code))
  {
    var n := Normalise(input);
    if !Accepted(input) {
      return Err(InvalidLength(LengthMessage));
    }
    var e := new Ean(n[..12]);
    return Ok(e);
  }
}
