/** The module patterns of UPC-A and EAN-13: number sets L (set A), G (set B)
    and R (set C) of ISO/IEC 15420, the guard patterns, and the rendering of a
    guarded character string into modules. */
module Patterns {
  import opened Decimal

  /** One module: 1 is a dark bar, 0 a light space. */
  type Bit = b: int | 0 <= b <= 1

  type Pattern = seq<Bit>

  datatype NumberSet = L | G | R

  /** Number set L, indexed by digit. */
  const LSet: seq<Pattern> := [
    [0, 0, 0, 1, 1, 0, 1], [0, 0, 1, 1, 0, 0, 1], [0, 0, 1, 0, 0, 1, 1],
    [0, 1, 1, 1, 1, 0, 1], [0, 1, 0, 0, 0, 1, 1], [0, 1, 1, 0, 0, 0, 1],
    [0, 1, 0, 1, 1, 1, 1], [0, 1, 1, 1, 0, 1, 1], [0, 1, 1, 0, 1, 1, 1],
    [0, 0, 0, 1, 0, 1, 1]
  ]

  /** Number set G, indexed by digit. */
  const GSet: seq<Pattern> := [
    [0, 1, 0, 0, 1, 1, 1], [0, 1, 1, 0, 0, 1, 1], [0, 0, 1, 1, 0, 1, 1],
    [0, 1, 0, 0, 0, 0, 1], [0, 0, 1, 1, 1, 0, 1], [0, 1, 1, 1, 0, 0, 1],
    [0, 0, 0, 0, 1, 0, 1], [0, 0, 1, 0, 0, 0, 1], [0, 0, 0, 1, 0, 0, 1],
    [0, 0, 1, 0, 1, 1, 1]
  ]

  /** Number set R, indexed by digit. */
  const RSet: seq<Pattern> := [
    [1, 1, 1, 0, 0, 1, 0], [1, 1, 0, 0, 1, 1, 0], [1, 1, 0, 1, 1, 0, 0],
    [1, 0, 0, 0, 0, 1, 0], [1, 0, 1, 1, 1, 0, 0], [1, 0, 0, 1, 1, 1, 0],
    [1, 0, 1, 0, 0, 0, 0], [1, 0, 0, 0, 1, 0, 0], [1, 0, 0, 1, 0, 0, 0],
    [1, 1, 1, 0, 1, 0, 0]
  ]

  /** The normal guard `*` that starts and ends the symbol. */
  const Guard: Pattern := [1, 0, 1]

  /** The centre guard `#`. */
  const Centre: Pattern := [0, 1, 0, 1, 0]

  function DigitPattern(ns: NumberSet, d: Digit): Pattern {
    match ns
    case L => LSet[d]
    case G => GSet[d]
    case R => RSet[d]
  }

  /** The pattern of c in the given number set. Only digits differ between the
      sets: the guards are the same in all three. A character with no entry
      gets no modules; UPC and EAN never look one up. */
  function Lookup(ns: NumberSet, c: char): Pattern {
    if c == '*' then Guard
    else if c == '#' then Centre
    else if IsDigit(c) then DigitPattern(ns, DigitValue(c))
    else []
  }

  function Complement(p: Pattern): Pattern {
    seq(|p|, i requires 0 <= i < |p| => 1 - p[i])
  }

  function Reverse(p: Pattern): Pattern {
    seq(|p|, i requires 0 <= i < |p| => p[|p| - 1 - i])
  }

  /** Number of colour changes in p from index i on. */
  function ChangesFrom(p: Pattern, i: nat): nat
    decreases |p| - i
  {
    if i + 1 >= |p| then 0
    else (if p[i] != p[i + 1] then 1 else 0) + ChangesFrom(p, i + 1)
  }

  /** Number of dark modules in p from index i on. */
  function DarkFrom(p: Pattern, i: nat): nat
    decreases |p| - i
  {
    if i >= |p| then 0 else p[i] + DarkFrom(p, i + 1)
  }

  lemma Digits10(d: Digit)
    ensures d == 0 || d == 1 || d == 2 || d == 3 || d == 4 || d == 5 || d == 6 || d == 7 || d == 8 || d == 9
  {
  }

  /** A digit is in the lower or the upper half, five values each. */
  lemma DigitHalves(d: Digit)
    ensures d < 5 ==> d == 0 || d == 1 || d == 2 || d == 3 || d == 4
    ensures d >= 5 ==> d == 5 || d == 6 || d == 7 || d == 8 || d == 9
  {
  }

  /** R is the bitwise complement of L, digit by digit. */
  lemma RIsComplementOfL(d: Digit)
    ensures RSet[d] == Complement(LSet[d])
  {
    Digits10(d);
  }

  /** G is R read backwards, digit by digit. */
  lemma GIsReverseOfR(d: Digit)
    ensures GSet[d] == Reverse(RSet[d])
  {
    Digits10(d);
  }

  /** The properties every digit pattern has; the position of the dark
      modules tells the number sets apart. */
  predicate DigitShape(p: Pattern) {
    |p| == 7 && ChangesFrom(p, 0) == 3 && p[6] == 1 - p[0]
  }

  lemma LShapeLow(d: Digit)
    requires d < 5
    ensures DigitShape(LSet[d]) && LSet[d][0] == 0 && DarkFrom(LSet[d], 0) % 2 == 1
  {
    DigitHalves(d);
  }

  lemma LShapeHigh(d: Digit)
    requires d >= 5
    ensures DigitShape(LSet[d]) && LSet[d][0] == 0 && DarkFrom(LSet[d], 0) % 2 == 1
  {
    DigitHalves(d);
  }

  lemma LShape(d: Digit)
    ensures DigitShape(LSet[d]) && LSet[d][0] == 0 && DarkFrom(LSet[d], 0) % 2 == 1
  {
    if d < 5 {
      LShapeLow(d);
    } else {
      LShapeHigh(d);
    }
  }

  lemma GShapeLow(d: Digit)
    requires d < 5
    ensures DigitShape(GSet[d]) && GSet[d][0] == 0 && DarkFrom(GSet[d], 0) % 2 == 0
  {
    DigitHalves(d);
  }

  lemma GShapeHigh(d: Digit)
    requires d >= 5
    ensures DigitShape(GSet[d]) && GSet[d][0] == 0 && DarkFrom(GSet[d], 0) % 2 == 0
  {
    DigitHalves(d);
  }

  lemma GShape(d: Digit)
    ensures DigitShape(GSet[d]) && GSet[d][0] == 0 && DarkFrom(GSet[d], 0) % 2 == 0
  {
    if d < 5 {
      GShapeLow(d);
    } else {
      GShapeHigh(d);
    }
  }

  lemma RShapeLow(d: Digit)
    requires d < 5
    ensures DigitShape(RSet[d]) && RSet[d][0] == 1 && DarkFrom(RSet[d], 0) % 2 == 0
  {
    DigitHalves(d);
  }

  lemma RShapeHigh(d: Digit)
    requires d >= 5
    ensures DigitShape(RSet[d]) && RSet[d][0] == 1 && DarkFrom(RSet[d], 0) % 2 == 0
  {
    DigitHalves(d);
  }

  lemma RShape(d: Digit)
    ensures DigitShape(RSet[d]) && RSet[d][0] == 1 && DarkFrom(RSet[d], 0) % 2 == 0
  {
    if d < 5 {
      RShapeLow(d);
    } else {
      RShapeHigh(d);
    }
  }

  /** Every digit pattern is seven modules in two bars and two spaces. L and G
      characters start light and end dark, R characters the other way round;
      L characters have an odd number of dark modules, G and R an even number. */
  lemma DigitPatternShape(ns: NumberSet, d: Digit)
    ensures var p := DigitPattern(ns, d);
      && |p| == 7
      && ChangesFrom(p, 0) == 3
      && (ns == R <==> p[0] == 1)
      && p[6] == 1 - p[0]
      && (ns == L <==> DarkFrom(p, 0) % 2 == 1)
  {
    match ns
    case L => LShape(d);
    case G => GShape(d);
    case R => RShape(d);
  }

  /** Within one number set, no two digits share a pattern. */
  lemma LDistinct(d1: Digit, d2: Digit)
    requires LSet[d1] == LSet[d2]
    ensures d1 == d2
  {
    Digits10(d1);
    Digits10(d2);
  }

  lemma GDistinct(d1: Digit, d2: Digit)
    requires GSet[d1] == GSet[d2]
    ensures d1 == d2
  {
    Digits10(d1);
    Digits10(d2);
  }

  lemma RDistinct(d1: Digit, d2: Digit)
    requires RSet[d1] == RSet[d2]
    ensures d1 == d2
  {
    Digits10(d1);
    Digits10(d2);
  }

  /** A digit pattern identifies both its digit and its number set. */
  lemma DigitPatternsDistinct(s1: NumberSet, d1: Digit, s2: NumberSet, d2: Digit)
    requires DigitPattern(s1, d1) == DigitPattern(s2, d2)
    ensures s1 == s2 && d1 == d2
  {
    DigitPatternShape(s1, d1);
    DigitPatternShape(s2, d2);
    assert s1 == s2;
    match s1
    case L => LDistinct(d1, d2);
    case G => GDistinct(d1, d2);
    case R => RDistinct(d1, d2);
  }

  /** A mapper gives the modules of a character at an index of the guarded
      string. */
  type CharMapper = (char, nat) -> Pattern

  /** The modules of g, whose characters sit at indices from, from + 1, ...,
      each mapped by m. */
  function Render(g: string, m: CharMapper, from: nat): Pattern {
    if g == [] then [] else m(g[0], from) + Render(g[1..], m, from + 1)
  }

  /** The modules of a run of digits, the k-th drawn from number set sets[k]. */
  function DigitRun(s: string, sets: seq<NumberSet>): Pattern
    requires IsDigits(s) && |sets| == |s|
  {
    if s == [] then [] else DigitPattern(sets[0], DigitValue(s[0])) + DigitRun(s[1..], sets[1..])
  }

  /** Rendering a concatenation renders the parts one after the other, the
      second part starting at the index where the first one ends. */
  lemma {:induction false} RenderAppend(g: string, h: string, m: CharMapper, from: nat)
    ensures Render(g + h, m, from) == Render(g, m, from) + Render(h, m, from + |g|)
  {
    if g == [] {
      assert g + h == h;
    } else {
      assert (g + h)[1..] == g[1..] + h;
      RenderAppend(g[1..], h, m, from + 1);
      var x := m(g[0], from);
      var y := Render(g[1..], m, from + 1);
      var z := Render(h, m, from + |g|);
      assert x + (y + z) == (x + y) + z;
    }
  }

  lemma RenderOne(c: char, m: CharMapper, from: nat)
    ensures Render([c], m, from) == m(c, from)
  {
    assert [c][1..] == [];
  }

  /** Rendering one more character of g appends that character's modules:
      the step of an encoder's loop. */
  lemma RenderStep(g: string, m: CharMapper, i: nat)
    requires i < |g|
    ensures Render(g[..i + 1], m, 0) == Render(g[..i], m, 0) + m(g[i], i)
  {
    assert g[..i + 1] == g[..i] + [g[i]];
    RenderOne(g[i], m, i);
    RenderAppend(g[..i], [g[i]], m, 0);
  }

  /** A run of digits renders as the digit patterns of the given number sets
      when m draws each digit from its set. */
  lemma {:induction false} RenderDigits(s: string, m: CharMapper, from: nat, sets: seq<NumberSet>)
    requires IsDigits(s) && |sets| == |s|
    requires forall i :: 0 <= i < |s| ==> m(s[i], from + i) == DigitPattern(sets[i], DigitValue(s[i]))
    ensures Render(s, m, from) == DigitRun(s, sets)
  {
    if s != [] {
      assert m(s[0], from + 0) == DigitPattern(sets[0], DigitValue(s[0]));
      forall i | 0 <= i < |s| - 1
        ensures m(s[1..][i], from + 1 + i) == DigitPattern(sets[1..][i], DigitValue(s[1..][i]))
      {
        assert m(s[i + 1], from + (i + 1)) == DigitPattern(sets[i + 1], DigitValue(s[i + 1]));
      }
      RenderDigits(s[1..], m, from + 1, sets[1..]);
    }
  }

  /** What a mapper must do for the guarded UPC-A and EAN-13 string: the
      guards at indices 0, 7 and 14, and each digit at indices 1-6 and 8-13
      drawn from the number set given for it. */
  predicate DrawsGuarded(m: CharMapper, left: string, right: string,
                         lsets: seq<NumberSet>, rsets: seq<NumberSet>)
    requires |left| == 6 && IsDigits(left) && |lsets| == 6
    requires |right| == 6 && IsDigits(right) && |rsets| == 6
  {
    && m('*', 0) == Guard && m('#', 7) == Centre && m('*', 14) == Guard
    && (forall i :: 0 <= i < 6 ==> m(left[i], 1 + i) == DigitPattern(lsets[i], DigitValue(left[i])))
    && (forall i :: 0 <= i < 6 ==> m(right[i], 8 + i) == DigitPattern(rsets[i], DigitValue(right[i])))
  }

  /** The string `*` + left + `#`, rendered from index 0. */
  lemma RenderLeftHalf(left: string, right: string, m: CharMapper, lsets: seq<NumberSet>, rsets: seq<NumberSet>)
    requires |left| == 6 && IsDigits(left) && |lsets| == 6
    requires |right| == 6 && IsDigits(right) && |rsets| == 6
    requires DrawsGuarded(m, left, right, lsets, rsets)
    ensures Render("*" + left + "#", m, 0) == Guard + DigitRun(left, lsets) + Centre
  {
    var a := DigitRun(left, lsets);
    assert Render("*", m, 0) == Guard by {
      RenderOne('*', m, 0);
    }
    assert Render(left, m, 1) == a by {
      RenderDigits(left, m, 1, lsets);
    }
    assert Render("*" + left, m, 0) == Guard + a by {
      RenderAppend("*", left, m, 0);
    }
    assert Render("#", m, 7) == Centre by {
      RenderOne('#', m, 7);
    }
    assert Render("*" + left + "#", m, 0) == Render("*" + left, m, 0) + Render("#", m, 7) by {
      RenderAppend("*" + left, "#", m, 0);
    }
  }

  /** Rendering three parts one after the other. */
  lemma RenderAppend3(x: string, y: string, z: string, m: CharMapper)
    ensures Render(x + y + z, m, 0) == Render(x, m, 0) + Render(y, m, |x|) + Render(z, m, |x| + |y|)
  {
    RenderAppend(x, y, m, 0);
    RenderAppend(x + y, z, m, 0);
  }

  /** The guarded string `*` + left + `#` + right + `*` of UPC-A and EAN-13
      renders as the guard, the left digits, the centre guard, the right digits
      and the guard. */
  lemma RenderGuarded(left: string, right: string, m: CharMapper,
                      lsets: seq<NumberSet>, rsets: seq<NumberSet>)
    requires |left| == 6 && IsDigits(left) && |lsets| == 6
    requires |right| == 6 && IsDigits(right) && |rsets| == 6
    requires DrawsGuarded(m, left, right, lsets, rsets)
    ensures Render("*" + left + "#" + right + "*", m, 0)
            == Guard + DigitRun(left, lsets) + Centre + DigitRun(right, rsets) + Guard
  {
    var h := "*" + left + "#";
    var a, b := Guard + DigitRun(left, lsets) + Centre, DigitRun(right, rsets);
    assert Render(h, m, 0) == a by {
      RenderLeftHalf(left, right, m, lsets, rsets);
    }
    assert Render(right, m, 8) == b by {
      RenderDigits(right, m, 8, rsets);
    }
    assert Render("*", m, 14) == Guard by {
      RenderOne('*', m, 14);
    }
    assert Render(h + right + "*", m, 0) == Render(h, m, 0) + Render(right, m, 8) + Render("*", m, 14) by {
      RenderAppend3(h, right, "*", m);
    }
  }

  /** A run of k digits is 7k modules. */
  lemma {:induction false} DigitRunLength(s: string, sets: seq<NumberSet>)
    requires IsDigits(s) && |sets| == |s|
    ensures |DigitRun(s, sets)| == 7 * |s|
  {
    if s != [] {
      DigitRunLength(s[1..], sets[1..]);
      DigitPatternShape(sets[0], DigitValue(s[0]));
    }
  }

  /** The i-th seven modules of a run of digits are the pattern of the i-th
      digit in the i-th number set. */
  lemma {:induction false} DigitRunAt(s: string, sets: seq<NumberSet>, i: nat)
    requires IsDigits(s) && |sets| == |s| && i < |s|
    ensures 7 * i + 7 <= |DigitRun(s, sets)|
    ensures DigitRun(s, sets)[7 * i .. 7 * i + 7] == DigitPattern(sets[i], DigitValue(s[i]))
  {
    var first := DigitPattern(sets[0], DigitValue(s[0]));
    var rest := DigitRun(s[1..], sets[1..]);
    assert |first| == 7 by {
      DigitPatternShape(sets[0], DigitValue(s[0]));
    }
    assert |rest| == 7 * (|s| - 1) by {
      DigitRunLength(s[1..], sets[1..]);
    }
    assert DigitRun(s, sets) == first + rest;
    if i == 0 {
      assert (first + rest)[..7] == first;
    } else {
      var j := i - 1;
      assert rest[7 * j .. 7 * j + 7] == DigitPattern(sets[i], DigitValue(s[i])) by {
        DigitRunAt(s[1..], sets[1..], j);
        assert s[1..][j] == s[i] && sets[1..][j] == sets[i];
      }
      SliceAfter(first, rest, 7 * i, 7 * i + 7);
      assert 7 * i - 7 == 7 * j;
    }
  }

  /** A slice lying after a in a + b is a slice of b. */
  lemma SliceAfter(a: Pattern, b: Pattern, lo: nat, hi: nat)
    requires |a| <= lo <= hi <= |a| + |b|
    ensures (a + b)[lo..hi] == b[lo - |a| .. hi - |a|]
  {
    assert forall k :: 0 <= k < hi - lo ==> (a + b)[lo..hi][k] == b[lo - |a| .. hi - |a|][k];
  }

  /** A slice of a slice is a slice of the whole. */
  lemma SliceWithin(s: Pattern, lo: nat, hi: nat, i: nat, j: nat)
    requires lo <= hi <= |s| && i <= j <= hi - lo
    ensures s[lo..hi][i..j] == s[lo + i .. lo + j]
  {
    assert forall t :: 0 <= t < j - i ==> s[lo..hi][i..j][t] == s[lo + i + t];
  }

  /** Where the five parts of a guarded symbol sit, for digit runs of 42
      modules each. */
  lemma FrameLayout(a: Pattern, b: Pattern)
    requires |a| == 42 && |b| == 42
    ensures var s := Guard + a + Centre + b + Guard;
      && |s| == 95
      && s[..3] == Guard && s[3..45] == a && s[45..50] == Centre && s[50..92] == b && s[92..] == Guard
  {
  }

  /** Where the parts of a 95-module guarded symbol s sit: the guard, six
      digits of seven modules from the left sets, the centre guard, six digits
      from the right sets and the guard. */
  predicate LaidOut(s: Pattern, left: string, right: string, lsets: seq<NumberSet>, rsets: seq<NumberSet>)
    requires |left| == 6 && IsDigits(left) && |lsets| == 6
    requires |right| == 6 && IsDigits(right) && |rsets| == 6
  {
    && |s| == 95
    && s[..3] == Guard && s[45..50] == Centre && s[92..] == Guard
    && (forall k :: 0 <= k < 6 ==> s[3 + 7 * k .. 10 + 7 * k] == DigitPattern(lsets[k], DigitValue(left[k])))
    && (forall k :: 0 <= k < 6 ==> s[50 + 7 * k .. 57 + 7 * k] == DigitPattern(rsets[k], DigitValue(right[k])))
  }

  /** The left digit run lands at modules 3 + 7k of the symbol. */
  lemma LeftSlots(a: Pattern, b: Pattern, left: string, lsets: seq<NumberSet>)
    requires |left| == 6 && IsDigits(left) && |lsets| == 6
    requires a == DigitRun(left, lsets) && |a| == 42 && |b| == 42
    ensures forall k :: 0 <= k < 6 ==>
      (Guard + a + Centre + b + Guard)[3 + 7 * k .. 10 + 7 * k] == DigitPattern(lsets[k], DigitValue(left[k]))
  {
    var s := Guard + a + Centre + b + Guard;
    FrameLayout(a, b);
    forall k | 0 <= k < 6
      ensures s[3 + 7 * k .. 10 + 7 * k] == DigitPattern(lsets[k], DigitValue(left[k]))
    {
      assert a[7 * k .. 7 * k + 7] == DigitPattern(lsets[k], DigitValue(left[k])) by {
        DigitRunAt(left, lsets, k);
      }
      SliceWithin(s, 3, 45, 7 * k, 7 * k + 7);
    }
  }

  /** The right digit run lands at modules 50 + 7k of the symbol. */
  lemma RightSlots(a: Pattern, b: Pattern, right: string, rsets: seq<NumberSet>)
    requires |right| == 6 && IsDigits(right) && |rsets| == 6
    requires b == DigitRun(right, rsets) && |a| == 42 && |b| == 42
    ensures forall k :: 0 <= k < 6 ==>
      (Guard + a + Centre + b + Guard)[50 + 7 * k .. 57 + 7 * k] == DigitPattern(rsets[k], DigitValue(right[k]))
  {
    var s := Guard + a + Centre + b + Guard;
    FrameLayout(a, b);
    forall k | 0 <= k < 6
      ensures s[50 + 7 * k .. 57 + 7 * k] == DigitPattern(rsets[k], DigitValue(right[k]))
    {
      assert b[7 * k .. 7 * k + 7] == DigitPattern(rsets[k], DigitValue(right[k])) by {
        DigitRunAt(right, rsets, k);
      }
      SliceWithin(s, 50, 92, 7 * k, 7 * k + 7);
    }
  }

  /** The guard, two runs of six digits around the centre guard, and the guard
      are laid out as above. */
  lemma SymbolLayout(left: string, right: string, lsets: seq<NumberSet>, rsets: seq<NumberSet>)
    requires |left| == 6 && IsDigits(left) && |lsets| == 6
    requires |right| == 6 && IsDigits(right) && |rsets| == 6
    ensures LaidOut(Guard + DigitRun(left, lsets) + Centre + DigitRun(right, rsets) + Guard, left, right, lsets, rsets)
  {
    var a, b := DigitRun(left, lsets), DigitRun(right, rsets);
    assert |a| == 42 by {
      DigitRunLength(left, lsets);
    }
    assert |b| == 42 by {
      DigitRunLength(right, rsets);
    }
    FrameLayout(a, b);
    LeftSlots(a, b, left, lsets);
    RightSlots(a, b, right, rsets);
  }

}
