/** The ratio of two big integers that represents f * 2^e in units of 10^x. */
module DragonScale {
  import opened BigArith
  import opened BigSteps
  import opened DragonSteps
  import opened Rounding

  function Pos(v: int): nat {
    if v > 0 then v else 0
  }

  /** f * 2^e / 10^x as a fraction: its numerator and its denominator. */
  function Top(f: nat, e: int, x: int): nat {
    f * Pow(2, Pos(e)) * Pow(10, Pos(-x))
  }

  function Bottom(e: int, x: int): nat {
    Pow(2, Pos(-e)) * Pow(10, Pos(x))
  }

  lemma BottomPositive(e: int, x: int)
    ensures Bottom(e, x) > 0
  {
    PowPositive(2, Pos(-e));
    PowPositive(10, Pos(x));
    Positive(Pow(2, Pos(-e)), Pow(10, Pos(x)));
  }

  /** n / d is f * 2^e / 10^x. */
  predicate Represents(n: int, d: int, f: nat, e: int, x: int) {
    n * Bottom(e, x) == Top(f, e, x) * d
  }

  /** f * 2^e / 10^u rounded half to even. */
  function Nearest(f: nat, e: int, u: int): nat {
    BottomPositive(e, u);
    RoundHalfEven(Top(f, e, u), Bottom(e, u))
  }

  /** The value with half a unit in the last place added does not reach 10^x (reaches it at most, for an
      odd significand): the estimated exponent is one too high. */
  predicate TooHigh(f: nat, e: int, x: int) {
    var sum, limit := Top(2 * f + 1, e, x), 2 * Bottom(e, x);
    if f % 2 == 0 then sum < limit else sum <= limit
  }

  const INT_MAX: int := 0x7fff_ffff

  /** What the printer asks of its caller: a significand of at most 128 bits that is not zero, and an estimate
      of the decimal exponent that is not too low, for the shortest form not even by rounding up. */
  predicate Callable(f: nat, e: int, precision: int, estimate: int) {
    && 0 < f < W128 && -0x8000_0000 < estimate < INT_MAX && (e >= 0 ==> estimate >= 0)
    && Top(f, e, estimate + 1) < Bottom(e, estimate + 1)
    && (precision < 0 ==> TooHigh(f, e, estimate + 1))
  }

  // ----- the three ways to set the fraction up -----

  lemma SetUpLarge(f: nat, e: nat, x: nat, s: nat)
    ensures Represents(f * Pow(2, e + s), Pow(10, x) * Pow(2, s), f, e, x)
  {
    PowAdd(2, e, s);
    var a, b, t := Pow(2, e), Pow(2, s), Pow(10, x);
    assert Pow(2, 0) == 1 && Pow(10, 0) == 1;
    assert Bottom(e, x) == t && Top(f, e, x) == f * a;
    Shuffle(f, a, b, t);
  }

  lemma Shuffle(f: int, a: int, b: int, t: int)
    ensures (f * (a * b)) * t == (f * a) * (t * b)
  {
    assert (f * a) * (t * b) == (f * a) * (b * t);
    assert (f * a) * (b * t) == ((f * a) * b) * t;
    assert (f * a) * b == f * (a * b);
  }

  lemma SetUpSmall(f: nat, e: int, x: int, s: nat)
    requires e < 0 && x < 0
    ensures Represents(Pow(10, -x) * f * Pow(2, s), Pow(2, s - e), f, e, x)
  {
    PowAdd(2, s, -e);
    var a, b, t := Pow(2, -e), Pow(2, s), Pow(10, -x);
    assert Pow(2, 0) == 1 && Pow(10, 0) == 1;
    assert Bottom(e, x) == a && Top(f, e, x) == f * t;
    assert ((t * f) * b) * a == (t * f) * (b * a) by { MulAssoc(t * f, b, a); }
    assert t * f == f * t;
  }

  lemma SetUpMixed(f: nat, e: int, x: int, s: nat)
    requires e < 0 && x >= 0
    ensures Represents(f * Pow(2, s), Pow(10, x) * Pow(2, s - e), f, e, x)
  {
    PowAdd(2, s, -e);
    var a, b, t := Pow(2, -e), Pow(2, s), Pow(10, x);
    assert Pow(2, 0) == 1 && Pow(10, 0) == 1;
    assert Bottom(e, x) == a * t && Top(f, e, x) == f;
    Shuffle2(f, a, b, t);
  }

  lemma Shuffle2(f: int, a: int, b: int, t: int)
    ensures (f * b) * (a * t) == f * (t * (b * a))
  {
    MulAssoc(f, b, a * t);
    assert b * (a * t) == t * (b * a);
  }

  lemma SmallPowers()
    ensures Pow(2, 1) == 2 && Pow(2, 2) == 4
  {
    assert Pow(2, 1) == 2 * Pow(2, 0);
  }

  lemma OneDoubled(e: nat, s: nat)
    requires 1 <= s <= 2
    ensures Pow(2, e + s) == (if s == 1 then 2 * Pow(2, e) else 4 * Pow(2, e))
    ensures Pow(2, e + 1) == 2 * Pow(2, e)
  {
    if s == 2 { assert Pow(2, e + 2) == 2 * Pow(2, e + 1); }
  }

  // ----- consequences -----

  lemma TopLinear(f: nat, e: int, x: int)
    ensures Top(2 * f + 1, e, x) == 2 * Top(f, e, x) + Top(1, e, x)
  {
    var a, b := Pow(2, Pos(e)), Pow(10, Pos(-x));
    assert (2 * f + 1) * a == 2 * (f * a) + 1 * a;
    assert (2 * (f * a) + 1 * a) * b == 2 * (f * a * b) + 1 * a * b;
  }

  /** The comparison of numerator + upper with the denominator is the comparison with 10^x. */
  lemma FixupTest(n: nat, u: nat, d: nat, f: nat, e: int, x: int)
    requires d > 0 && Represents(n, d, f, e, x) && Represents(2 * u, d, 1, e, x)
    ensures n + u < d <==> Top(2 * f + 1, e, x) < 2 * Bottom(e, x)
    ensures n + u <= d <==> Top(2 * f + 1, e, x) <= 2 * Bottom(e, x)
  {
    BottomPositive(e, x);
    TopLinear(f, e, x);
    var g, a, b := Bottom(e, x), Top(f, e, x), Top(1, e, x);
    hide Top, Bottom;
    AddFractions(n, u, d, a, b, g);
    SameOrder(2 * n + 2 * u, 2 * d, 2 * a + b, 2 * g, d, g);
  }

  lemma AddFractions(n: int, u: int, d: int, a: int, b: int, g: int)
    requires n * g == a * d && (2 * u) * g == b * d
    ensures (2 * n + 2 * u) * g == (2 * a + b) * d
  {
    Distributes(2 * n, 2 * u, g);
    Distributes(2 * a, b, d);
    MulAssoc(2, n, g);
    MulAssoc(2, a, d);
  }

  lemma Distributes(x: int, y: int, z: int)
    ensures (x + y) * z == x * z + y * z
  {
  }

  lemma SameOrder(m: int, m2: int, t: int, t2: int, d: int, g: int)
    requires d > 0 && g > 0 && m * g == t * d && m2 == 2 * d && t2 == 2 * g
    ensures (m < m2 <==> t < t2) && (m <= m2 <==> t <= t2)
  {
    ScaledOrder(m, m2, g);
    ScaledOrder(t, t2, d);
    assert m2 * g == t2 * d;
  }

  /** Decrementing the exponent and multiplying the numerator by ten keeps the value. */
  lemma OneLower(n: int, d: int, f: nat, e: int, x: int)
    requires Represents(n, d, f, e, x)
    ensures Represents(n * 10, d, f, e, x - 1)
  {
    var p, q := Pow(2, Pos(e)), Pow(2, Pos(-e));
    if x >= 1 {
      var t := Pow(10, x - 1);
      assert Pow(10, Pos(-x)) == 1 && Pow(10, Pos(-(x - 1))) == 1 && Pow(10, x) == 10 * t;
      TenAcross(n, q, t);
    } else {
      var t := Pow(10, -x);
      assert Pow(10, Pos(x)) == 1 && Pow(10, Pos(x - 1)) == 1 && Pow(10, -(x - 1)) == 10 * t;
      TenInside(f * p, t, d);
      MulAssoc(n, 10, q);
      Commutes(10, q);
      MulAssoc(n, q, 10);
    }
  }

  lemma TenAcross(n: int, q: int, t: int)
    ensures n * (q * (10 * t)) == (n * 10) * (q * t)
  {
    assert q * (10 * t) == 10 * (q * t);
  }

  lemma TenInside(g: int, t: int, d: int)
    ensures (g * (10 * t)) * d == 10 * ((g * t) * d)
  {
    assert g * (10 * t) == 10 * (g * t);
  }

  // ----- changing the unit -----

  lemma PowSplit(a: nat, b: nat, c: nat)
    ensures Pow(10, a + b + c) == Pow(10, a) * Pow(10, b) * Pow(10, c)
  {
    PowAdd(10, a + b, c);
    PowAdd(10, a, b);
  }

  /** Moving k digits from the exponent into the fraction. */
  lemma ChangeUnit(n: nat, d: nat, f: nat, e: int, x: int, k: int)
    requires Represents(n, d, f, e, x)
    ensures (n * Pow(10, Pos(k))) * Bottom(e, x - k) == Top(f, e, x - k) * (d * Pow(10, Pos(-k)))
  {
    var u := x - k;
    var xp, xn := Pow(10, Pos(x)), Pow(10, Pos(-x));
    var kp, kn := Pow(10, Pos(k)), Pow(10, Pos(-k));
    var up, un := Pow(10, Pos(u)), Pow(10, Pos(-u));
    PowSplit(Pos(k), Pos(u), Pos(-x));
    PowSplit(Pos(x), Pos(-u), Pos(-k));
    assert Pos(k) + Pos(u) + Pos(-x) == Pos(x) + Pos(-u) + Pos(-k);
    PowPositive(10, Pos(x));
    var p, q := Pow(2, Pos(e)), Pow(2, Pos(-e));
    CancelUnit(n, d, f * p, q, xp, xn, kp, kn, up, un);
  }

  lemma CancelUnit(n: int, d: int, fp: int, q: int, xp: int, xn: int, kp: int, kn: int, up: int, un: int)
    requires n * (q * xp) == fp * xn * d && kp * up * xn == xp * un * kn && xp > 0
    ensures (n * kp) * (q * up) == (fp * un) * (d * kn)
  {
    var l, r := (n * kp) * (q * up), (fp * un) * (d * kn);
    assert l * xp == (n * (q * xp)) * (kp * up) by { Left(n, kp, q, up, xp); }
    assert r * xp == (fp * d) * (xp * un * kn) by { Right(fp, un, d, kn, xp); }
    assert (fp * xn * d) * (kp * up) == (fp * d) * (kp * up * xn) by { Middle(fp, xn, d, kp * up); }
    ScaledOrder(l, r, xp);
  }

  lemma Left(n: int, kp: int, q: int, up: int, xp: int)
    ensures (n * kp) * (q * up) * xp == (n * (q * xp)) * (kp * up)
  {
    calc {
      (n * kp) * (q * up) * xp;
      (n * kp) * (up * q) * xp;
      (n * (kp * up)) * (q * xp);
      (n * (q * xp)) * (kp * up);
    }
  }

  lemma Right(fp: int, un: int, d: int, kn: int, xp: int)
    ensures (fp * un) * (d * kn) * xp == (fp * d) * (xp * un * kn)
  {
    calc {
      (fp * un) * (d * kn) * xp;
      (fp * d) * (un * kn) * xp;
      (fp * d) * (xp * (un * kn));
      (fp * d) * (xp * un * kn);
    }
  }

  lemma Middle(fp: int, xn: int, d: int, m: int)
    ensures (fp * xn * d) * m == (fp * d) * (m * xn)
  {
    assert fp * xn * d == fp * d * xn;
  }

  /** The rounded fraction is the value rounded at the unit of its last digit. */
  lemma RoundedAtUnit(n: nat, d: nat, f: nat, e: int, x: int, k: int)
    requires d > 0 && Represents(n, d, f, e, x)
    ensures n * Pow(10, Pos(k)) >= 0 && d * Pow(10, Pos(-k)) > 0
    ensures RoundHalfEven(n * Pow(10, Pos(k)), d * Pow(10, Pos(-k))) == Nearest(f, e, x - k)
  {
    ChangeUnit(n, d, f, e, x, k);
    PowPositive(10, Pos(-k));
    PowPositive(10, Pos(k));
    Positive(d, Pow(10, Pos(-k)));
    BottomPositive(e, x - k);
    hide RoundHalfEven, Top, Bottom, Represents;
    RoundRatio(n * Pow(10, Pos(k)), d * Pow(10, Pos(-k)), Top(f, e, x - k), Bottom(e, x - k));
  }

  /** A value below 10^(x+1) gives a fraction below ten. */
  lemma BelowTen(n: nat, d: nat, f: nat, e: int, x: int)
    requires d > 0 && Represents(n, d, f, e, x) && Top(f, e, x + 1) < Bottom(e, x + 1)
    ensures n < 10 * d
  {
    ChangeUnit(n, d, f, e, x, -1);
    assert Pow(10, 0) == 1 && Pow(10, 1) == 10;
    var a, b := Top(f, e, x + 1), Bottom(e, x + 1);
    hide Top, Bottom;
    assert n * b == a * (10 * d);
    assert a * (10 * d) < b * (10 * d) by { ScaledOrder(a, b, 10 * d); }
    assert (10 * d) * b == b * (10 * d);
    ScaledOrder(n, 10 * d, b);
  }

  /** A division before the last digit is skipped only for a value that is a power of ten. */
  lemma {:induction false} SkipIsPower(r: Start, f: nat, e: int, x: int, j: nat)
    requires r.d > 0 && Represents(r.n, r.d, f, e, x)
    ensures Tens(r.n, j) == r.d <==> Tens(Top(f, e, x), j) == Bottom(e, x)
  {
    var t, a, g := Pow(10, j), Top(f, e, x), Bottom(e, x);
    BottomPositive(e, x);
    TensIsPow(r.n, j);
    TensIsPow(a, j);
    hide Top, Bottom;
    CrossEqual(r.n, r.d, a, g, t);
  }

  lemma CrossEqual(n: int, d: int, a: int, g: int, t: int)
    requires n * g == a * d && d > 0 && g > 0
    ensures n * t == d <==> a * t == g
  {
    Swap(n, t, g);
    Swap(a, t, d);
    ScaledOrder(n * t, d, g);
    ScaledOrder(a * t, g, d);
    Commutes(d, g);
  }

  lemma Swap(x: int, y: int, z: int)
    ensures (x * y) * z == (x * z) * y
  {
  }

  lemma Commutes(x: int, y: int)
    ensures x * y == y * x
  {
  }

  /** Ten to the a below two to the b needs b above a. */
  lemma {:induction false} PowersOrder(a: nat, b: nat)
    requires Pow(10, a) < Pow(2, b)
    ensures a < b
  {
    if b <= a { TwoBelowTen(b, a); }
  }

  lemma {:induction false} TwoBelowTen(b: nat, a: nat)
    requires b <= a
    ensures Pow(2, b) <= Pow(10, a)
    decreases a
  {
    if a > 0 {
      TwoBelowTen(if b > 0 then b - 1 else 0, a - 1);
    }
  }

  // ----- the fixup -----

  /** The exponent after the optional fixup. */
  function FinalExponent(f: nat, e: int, fixup: bool, exp10: int): int {
    if fixup && TooHigh(f, e, exp10) then exp10 - 1 else exp10
  }

  /** Taking one off the exponent when numerator and upper stay below the denominator leaves a fraction
      below ten that represents the value at the final exponent. */
  lemma AfterFixup(n: nat, u: nat, d: nat, f: nat, e: int, fixup: bool, exp10: int)
    requires d > 0 && u > 0 && Represents(n, d, f, e, exp10) && Represents(2 * u, d, 1, e, exp10)
    requires Top(f, e, exp10 + 1) < Bottom(e, exp10 + 1)
    ensures var lowered := fixup && (if f % 2 == 0 then n + u < d else n + u <= d);
            var n', x := if lowered then n * 10 else n, FinalExponent(f, e, fixup, exp10);
            x == (if lowered then exp10 - 1 else exp10) && n' < 10 * d && Represents(n', d, f, e, x)
  {
    FixupTest(n, u, d, f, e, exp10);
    BelowTen(n, d, f, e, exp10);
    OneLower(n, d, f, e, exp10);
    hide Represents, Top, Bottom;
  }

  lemma PowZero()
    ensures Pow(10, 0) == 1
  {
  }

  // ----- what the whole call prints -----

  /** The value is a power of ten among the digits before the last, and the numerator carries more implicit
      zero bigits than the denominator: the division that should yield 1 is skipped. */
  predicate PowerSkipped(f: nat, e: int, shift: nat, estimate: int, x: int, count: int) {
    && e >= 0 && (e + shift) / 32 > estimate / 32
    && exists j :: 0 <= j < count - 1 && Tens(Top(f, e, x), j) == Bottom(e, x)
  }

  /** The characters and the exponent denote f * 2^e rounded half to even to count digits from 10^x down;
      every character is a digit unless a power of ten is skipped. */
  predicate Printed(f: nat, e: int, x: int, count: int, data: seq<int>, expOut: int, fixed: bool, skipped: bool) {
    var u := x - (count - 1);
    && count > 0
    && (if fixed then expOut == u else u <= expOut <= u + 1)
    && (expOut >= u ==> Tens(Denotes(data), expOut - u) == Nearest(f, e, u))
    && (AllDigits(data) <==> !skipped)
    && |data| == (if fixed && !skipped && Nearest(f, e, u) == Tens(10, count - 1) then count + 1 else count)
  }

  /** In fixed notation the characters are the rounded value itself, otherwise there are just so many of them. */
  lemma PrintedIs(f: nat, e: int, x: int, count: int, data: seq<int>, expOut: int, fixed: bool, skipped: bool)
    requires Printed(f, e, x, count, data, expOut, fixed, skipped)
    ensures fixed ==> expOut == x - (count - 1) && Denotes(data) == Nearest(f, e, expOut)
    ensures !fixed ==> |data| == count
  {
    hide Nearest, Denotes, AllDigits;
  }

  lemma RoundedIsPrinted(r: Start, f: nat, e: int, x: int, count: int, data: seq<int>, bump: int,
                                            fixed: bool, shift: nat, estimate: int)
    requires count > 0 && Rounded(r, count, data, bump, fixed) && Represents(r.n, r.d, f, e, x)
    requires r.exp > r.dexp <==> e >= 0 && (e + shift) / 32 > estimate / 32
    ensures Printed(f, e, x, count, data, x - (count - 1) + bump, fixed, PowerSkipped(f, e, shift, estimate, x, count))
  {
    SkippedIff(r, f, e, x, count, shift, estimate);
    RoundedAtUnit(r.n, r.d, f, e, x, count - 1);
    TensIsPow(r.n, count - 1);
    assert Pow(10, 0) == 1;
    hide RoundHalfEven, Denotes, Tens, Represents, Nearest, NoSkip, PowerSkipped;
  }

  lemma SkippedIff(r: Start, f: nat, e: int, x: int, count: int, shift: nat, estimate: int)
    requires r.d > 0 && Represents(r.n, r.d, f, e, x)
    requires r.exp > r.dexp <==> e >= 0 && (e + shift) / 32 > estimate / 32
    ensures NoSkip(r, count - 1) <==> !PowerSkipped(f, e, shift, estimate, x, count)
  {
    hide Tens, Represents, Top, Bottom;
    forall j | 0 <= j < count - 1
      ensures SkipsAt(r, j) <==> r.exp > r.dexp && Tens(Top(f, e, x), j) == Bottom(e, x)
    {
      SkipIsPower(r, f, e, x, j);
    }
  }

  /** Below 10^(x+1), a negative binary exponent is at least as long as a negative decimal one. */
  lemma NegativeExponents(f: nat, e: int, x: int)
    requires 0 < f && e < 0 && x < 0 && Top(f, e, x + 1) < Bottom(e, x + 1)
    ensures -x <= -e
  {
    var t := Pow(10, -(x + 1));
    assert Pow(2, 0) == 1 && Pow(10, 0) == 1;
    assert Top(f, e, x + 1) == f * t && Bottom(e, x + 1) == Pow(2, -e);
    assert t <= f * t by { PowPositive(10, -(x + 1)); MulAtLeast(f, t); }
    PowersOrder(-(x + 1), -e);
  }

  lemma MulAtLeast(f: nat, t: nat)
    requires f > 0
    ensures t <= f * t
  {
    assert (f - 1) * t >= 0;
  }

  /** With no digit left to print, the one printed digit is the rounding. */
  lemma NoDigitLeft(n: nat, d: nat, count: int)
    requires d > 0 && n < 10 * d && count <= 0
    ensures d * Pow(10, 1 - count) > 0
    ensures RoundHalfEven(n, d * Pow(10, 1 - count)) == if count == 0 && 2 * n > 10 * d then 1 else 0
  {
    var w := Pow(10, 1 - count);
    assert Pow(10, 0) == 1;
    if count == 0 {
      assert w == 10;
      SmallRatio(n, d * 10);
    } else {
      var v := Pow(10, -1 - count);
      PowPositive(10, -1 - count);
      assert Pow(10, -count) == 10 * v;
      assert w == 10 * (10 * v);
      MulAtLeast(v, d);
      Commutes(v, d);
      assert d * w == 100 * (d * v) by { TimesHundred(d, v); }
      SmallRatio(n, d * w);
    }
  }

  lemma TimesHundred(d: nat, v: nat)
    ensures d * (10 * (10 * v)) == 100 * (d * v)
  {
  }

  lemma SmallRatio(n: nat, d: nat)
    requires d > 0 && n < d
    ensures RoundHalfEven(n, d) == if 2 * n > d then 1 else 0
  {
    RoundingIs(n, d, if 2 * n > d then 1 else 0);
  }
}
