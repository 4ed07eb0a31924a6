/** Which calls of the floating-point printer go wrong: concrete ones, and none of a given precision for the
    significands of the IEEE formats. */
module DragonFormats {
  import opened BigArith
  import opened BigSteps
  import opened DragonScale
  import opened DragonSteps
  import opened Rounding
  import opened ShortestSteps

  /** est is the estimate of the decimal exponent that format_float makes from the exponent n of the highest bit:
      n times 0.3010299956639812, less 10^-10, rounded up, with a margin of 10^-10 for the rounding of doubles. */
  predicate Estimates(n: int, est: int) {
    n * 3010299956639812 - 2000000 <= est * 10000000000000000 < n * 3010299956639812 + 10000000000000000
  }

  // ----- powers -----

  lemma {:induction false} PowProduct(b: nat, m: nat, n: nat, k: nat)
    requires k == m + n
    ensures Pow(b, k) == Pow(b, m) * Pow(b, n)
  {
    PowAdd(b, m, n);
  }

  lemma TenPowers()
    ensures Pow(10, 10) == 10000000000 && Pow(10, 17) == 100000000000000000 && Pow(10, 18) == 1000000000000000000
    ensures Pow(10, 26) == 100000000000000000000000000 && Pow(10, 27) == 1000000000000000000000000000
    ensures Pow(10, 30) == 1000000000000000000000000000000
    ensures Pow(10, 41) == 100000000000000000000000000000000000000000
    ensures Pow(10, 42) == 1000000000000000000000000000000000000000000
    ensures Pow(10, 43) == 10000000000000000000000000000000000000000000
    ensures Pow(10, 44) == 100000000000000000000000000000000000000000000
    ensures Pow(10, 45) == 1000000000000000000000000000000000000000000000
  {
    assert Pow(10, 11) == 100000000000 && Pow(10, 12) == 1000000000000 && Pow(10, 15) == 1000000000000000;
    PowProduct(10, 15, 15, 30);
    PowProduct(10, 12, 15, 27);
    assert Pow(10, 10) == 10000000000 && Pow(10, 3) == 1000;
    PowProduct(10, 3, 15, 18);
    assert Pow(10, 18) == 10 * Pow(10, 17) && Pow(10, 27) == 10 * Pow(10, 26);
    PowProduct(10, 11, 30, 41);
    assert Pow(10, 42) == 10 * Pow(10, 41);
    assert Pow(10, 43) == 10 * Pow(10, 42);
    assert Pow(10, 44) == 10 * Pow(10, 43);
    assert Pow(10, 45) == 10 * Pow(10, 44);
  }

  lemma TwoPowers()
    ensures Pow(2, 23) == 8388608 && Pow(2, 24) == 16777216 && Pow(2, 32) == 4294967296
    ensures Pow(2, 52) == 4503599627370496 && Pow(2, 53) == 9007199254740992
    ensures Pow(2, 31) == 2147483648 && Pow(2, 63) == 9223372036854775808 && Pow(2, 64) == 18446744073709551616
    ensures Pow(2, 70) == 1180591620717411303424
    ensures Pow(2, 112) == 5192296858534827628530496329220096
    ensures Pow(2, 113) == 10384593717069655257060992658440192
  {
    assert Pow(2, 14) == 16384 && Pow(2, 17) == 131072 && Pow(2, 8) == 256;
    PowProduct(2, 14, 17, 31);
    assert Pow(2, 6) == 64 && Pow(2, 7) == 128;
    PowProduct(2, 17, 6, 23);
    PowProduct(2, 17, 7, 24);
    assert Pow(2, 32) == 2 * Pow(2, 31);
    PowProduct(2, 32, 6, 38);
    PowProduct(2, 38, 14, 52);
    assert Pow(2, 53) == 2 * Pow(2, 52);
    PowProduct(2, 31, 31, 62);
    assert Pow(2, 63) == 2 * Pow(2, 62);
    assert Pow(2, 64) == 2 * Pow(2, 63);
    PowProduct(2, 8, 62, 70);
    PowProduct(2, 31, 62, 93);
    PowProduct(2, 17, 93, 110);
    assert Pow(2, 111) == 2 * Pow(2, 110);
    assert Pow(2, 112) == 2 * Pow(2, 111);
    assert Pow(2, 113) == 2 * Pow(2, 112);
  }

  // ----- misjudged calls of the shortest branch -----

  /** A normalised significand of the binary floating-point formats with 24, 53, 64 and 113 bits. */
  predicate Normalised(f: nat, bits: nat) {
    (bits == 24 || bits == 53 || bits == 64 || bits == 113) && Pow(2, bits - 1) <= f < Pow(2, bits)
  }

  /** A midpoint that is m * 10^u, with m not a multiple of ten and a unit in the last place below 10^u, is the
      only decimal of its length near the value, and no shorter one is. */
  lemma LoneMidpoint(f: nat, e: int, u: int, m: int)
    requires f > 0 && OnMidpoint(f, e, false, u, m) && m % 10 != 0 && Top(1, e, u) < Bottom(e, u)
    ensures NoShorterReadable(f, e, false, u) && !Readable(f, e, false, u, m + 1)
  {
    hide Top, Bottom, Readable, OnMidpoint;
    forall k ensures !Readable(f, e, false, u, Coarse(k)) {
      OnlyOne(f, e, u, m, Coarse(k));
    }
    OnlyOne(f, e, u, m, m + 1);
  }

  lemma OnlyOne(f: nat, e: int, u: int, m: int, k: int)
    requires f > 0 && OnMidpoint(f, e, false, u, m) && Top(1, e, u) < Bottom(e, u) && k != m
    ensures !Readable(f, e, false, u, k)
  {
    Bounds(f, e, u, 2);
    hide Top, Bottom;
    Spread(k, m, Bottom(e, u));
  }

  lemma Spread(k: int, m: int, b: int)
    requires b > 0 && k != m
    ensures 4 * k * b <= 4 * m * b - 4 * b || 4 * k * b >= 4 * m * b + 4 * b
  {
    if k < m { Apart(k, m, b); } else { Apart(m, k, b); }
  }

  lemma {:induction false} TopBottomOf(k: nat, e: nat, u: nat)
    ensures Top(k, e, u) == k * Pow(2, e) && Bottom(e, u) == Pow(10, u)
  {
    assert Pow(2, 0) == 1 && Pow(10, 0) == 1;
  }

  const EVEN_TIE_24: nat := 14648438
  const EVEN_TIE_53: nat := 4503599643554688
  const EVEN_TIE: nat := 11175870895385742188
  const ODD_TIE: nat := 8881784197001252323389053344726563
  const ROUND_VALUE: nat := 9313225746154785156250000000000000

  /** A 64-bit even significand: the midpoint 13194139533312 * 10^27 reads back, but compare() calls the remainder
      larger than lower because lower carries one more zero bigit. */
  lemma {:induction false} EvenTieMisjudged()
    ensures Callable(EVEN_TIE, 70, -1, 41) && Misjudged(EVEN_TIE, 70, false, true, 41)
    ensures Normalised(EVEN_TIE, 64) && EVEN_TIE % 2 == 0 && Estimates(70 + 63, 41)
  {
    hide Pow, Top, Bottom;
    var f, m := EVEN_TIE, 13194139533312;
    TopBottomOf(f, 70, 42);
    TopBottomOf(2 * f + 1, 70, 42);
    TopBottomOf(2 * f + 1, 70, 41);
    TopBottomOf(4 * f - 2, 70, 27);
    TopBottomOf(1, 70, 27);
    TenPowers();
    TwoPowers();
    LoneMidpoint(f, 70, 27, m);
    assert Skew(70, false, 41) == -1 && FinalExponent(f, 70, true, 41) == 40;
    assert TieMisjudged(f, 70, false, -1, 27, m);
  }

  /** The same with 24 bits and the midpoint 6291456 * 10^10. */
  lemma EvenTieOfFloat()
    ensures Callable(EVEN_TIE_24, 32, -1, 17) && Misjudged(EVEN_TIE_24, 32, false, true, 17)
    ensures Normalised(EVEN_TIE_24, 24) && EVEN_TIE_24 % 2 == 0 && Estimates(32 + 23, 17)
  {
    hide Pow, Top, Bottom;
    var f, m := EVEN_TIE_24, 6291456;
    TopBottomOf(f, 32, 18);
    TopBottomOf(2 * f + 1, 32, 18);
    TopBottomOf(2 * f + 1, 32, 17);
    TopBottomOf(4 * f - 2, 32, 10);
    TopBottomOf(1, 32, 10);
    TenPowers();
    TwoPowers();
    LoneMidpoint(f, 32, 10, m);
    assert Skew(32, false, 17) == -1 && FinalExponent(f, 32, true, 17) == 16;
    assert TieMisjudged(f, 32, false, -1, 10, m);
  }

  /** The same with 53 bits and the midpoint 1934281318334464 * 10^10. */
  lemma EvenTieOfDouble()
    ensures Callable(EVEN_TIE_53, 32, -1, 26) && Misjudged(EVEN_TIE_53, 32, false, true, 26)
    ensures Normalised(EVEN_TIE_53, 53) && EVEN_TIE_53 % 2 == 0 && Estimates(32 + 52, 26)
  {
    hide Pow, Top, Bottom;
    var f, m := EVEN_TIE_53, 1934281318334464;
    TopBottomOf(f, 32, 27);
    TopBottomOf(2 * f + 1, 32, 27);
    TopBottomOf(2 * f + 1, 32, 26);
    TopBottomOf(4 * f - 2, 32, 10);
    TopBottomOf(1, 32, 10);
    TenPowers();
    TwoPowers();
    LoneMidpoint(f, 32, 10, m);
    assert Skew(32, false, 26) == -1 && FinalExponent(f, 32, true, 26) == 25;
    assert TieMisjudged(f, 32, false, -1, 10, m);
  }

  /** A 113-bit odd significand: the midpoint 19073486328125 * 10^30, which reads back as the even neighbour, is
      taken for inside because the remainder carries one more zero bigit than lower. */
  lemma {:induction false} OddTieMisjudged()
    ensures Callable(ODD_TIE, 31, -1, 44) && Misjudged(ODD_TIE, 31, false, true, 44)
    ensures Normalised(ODD_TIE, 113) && ODD_TIE % 2 == 1 && Estimates(31 + 112, 44)
  {
    hide Pow, Top, Bottom;
    var f, m := ODD_TIE, 19073486328125;
    TopBottomOf(f, 31, 45);
    TopBottomOf(2 * f + 1, 31, 45);
    TopBottomOf(2 * f + 1, 31, 44);
    TopBottomOf(4 * f - 2, 31, 30);
    TopBottomOf(1, 31, 30);
    TenPowers();
    TwoPowers();
    LoneMidpoint(f, 31, 30, m);
    assert Skew(31, false, 44) == 1 && FinalExponent(f, 31, true, 44) == 43;
    assert TieMisjudged(f, 31, false, 1, 30, m);
  }

  /** 2 * 10^43 as a 113-bit significand times 2^31: the zero remainder after the only digit is not recognised,
      and a superfluous zero is printed. It takes an estimate of 43; format_float would pass 44. */
  lemma {:induction false} ZeroRemainderMisjudged()
    ensures Callable(ROUND_VALUE, 31, -1, 43) && Misjudged(ROUND_VALUE, 31, false, true, 43)
    ensures Normalised(ROUND_VALUE, 113) && Estimates(31 + 112, 44)
  {
    hide Pow, Top, Bottom;
    var f := ROUND_VALUE;
    TopBottomOf(f, 31, 44);
    TopBottomOf(2 * f + 1, 31, 44);
    TopBottomOf(2 * f + 1, 31, 43);
    TopBottomOf(4 * f + 2, 31, 43);
    TopBottomOf(f, 31, 43);
    TenPowers();
    TwoPowers();
    assert Skew(31, false, 43) == 1 && FinalExponent(f, 31, true, 43) == 43;
    assert ZeroMisjudged(f, 31, false, 43, 2);
  }

  // ----- skipped divisions -----

  lemma OddTimesFive(p: nat)
    ensures 5 * p % 2 == p % 2
  {
    var half, r := p / 2, p % 2;
    ParityIs(5 * p, 5 * half + 2 * r, r);
  }

  lemma ParityIs(x: nat, half: nat, r: nat)
    requires x == 2 * half + r && r < 2
    ensures x % 2 == r
  {
  }

  /** Powers of five are odd. */
  lemma {:induction false} FiveOdd(k: nat)
    ensures Pow(5, k) % 2 == 1
  {
    if k > 0 {
      FiveOdd(k - 1);
      OddTimesFive(Pow(5, k - 1));
    }
  }

  lemma {:induction false} PowGrows(b: nat, m: nat, n: nat)
    requires b > 0 && m <= n
    ensures Pow(b, m) <= Pow(b, n)
  {
    if m < n {
      PowGrows(b, m, n - 1);
      assert Pow(b, n) == b * Pow(b, n - 1);
      MulAtLeast(b, Pow(b, n - 1));
    }
  }

  /** A power of ten written with a binary exponent has a power of five times a power of two in front. */
  lemma FactorOfTen(f: nat, e: nat, k: nat)
    requires f * Pow(2, e) == Pow(10, k)
    ensures e <= k && f == Pow(5, k) * Pow(2, k - e)
  {
    PowTen(k);
    FiveOdd(k);
    if e <= k {
      PowProduct(2, k - e, e, k);
      PowPositive(2, e);
      MulAssoc(Pow(5, k), Pow(2, k - e), Pow(2, e));
      ScaledOrder(f, Pow(5, k) * Pow(2, k - e), Pow(2, e));
    } else {
      var t := Pow(2, e - k - 1);
      PowProduct(2, e - k, k, e);
      PowPositive(2, k);
      MulAssoc(f, Pow(2, e - k), Pow(2, k));
      ScaledOrder(f * Pow(2, e - k), Pow(5, k), Pow(2, k));
      assert Pow(2, e - k) == 2 * t;
      Doubling(f, t);
      assert false;
    }
  }

  lemma Doubling(f: nat, t: nat)
    ensures f * (2 * t) == 2 * (f * t) && (f * (2 * t)) % 2 == 0
  {
    assert f * (2 * t) == 2 * (f * t);
  }

  /** Among the digits before the last, only a power of ten up to 10^x is met. */
  lemma {:induction false} SkippedIsTen(f: nat, e: nat, x: int, j: nat)
    requires f > 0 && Tens(Top(f, e, x), j) == Bottom(e, x)
    ensures 0 <= j <= x && f * Pow(2, e) == Pow(10, x - j)
  {
    var a, t := f * Pow(2, e), Pow(10, j);
    assert Pow(2, 0) == 1 && Pow(10, 0) == 1;
    TensIsPow(Top(f, e, x), j);
    PowPositive(2, e);
    PowPositive(10, j);
    Positive(f, Pow(2, e));
    if x < j {
      Deeper(a, x, j);
    } else {
      PowProduct(10, x - j, j, x);
      ScaledOrder(a, Pow(10, x - j), t);
    }
  }

  lemma {:induction false} Deeper(a: nat, x: int, j: nat)
    requires a > 0 && x < j
    ensures (a * Pow(10, Pos(-x))) * Pow(10, j) > Pow(10, Pos(x))
  {
    PowPositive(10, Pos(-x));
    PowPositive(10, j);
    Positive(a, Pow(10, Pos(-x)));
    MulAtLeast(a * Pow(10, Pos(-x)), Pow(10, j));
    if x >= 0 {
      PowGrows(10, x + 1, j);
      assert Pow(10, x + 1) == 10 * Pow(10, x);
      PowPositive(10, x);
    } else {
      assert Pow(10, 0) == 1 && Pow(10, -x) == 10 * Pow(10, -x - 1);
      PowPositive(10, -x - 1);
      MulAtLeast(a, Pow(10, -x));
      MulAtLeast(Pow(10, j), a * Pow(10, -x));
    }
  }

  lemma FivePowers()
    ensures Pow(5, 28) > Pow(2, 64) > Pow(2, 53) && Pow(2, 64) > Pow(2, 24)
    ensures Pow(5, 49) > Pow(2, 113) && 2 * Pow(5, 31) < Pow(2, 112)
  {
    TwoPowers();
    assert Pow(2, 8) == 256 && Pow(5, 3) == 125 && Pow(5, 7) == 78125;
    PowProduct(2, 62, 2, 64);
    PowProduct(2, 31, 31, 62);
    PowProduct(5, 7, 7, 14);
    PowProduct(5, 14, 14, 28);
    PowProduct(5, 3, 28, 31);
    PowProduct(5, 7, 14, 21);
    PowProduct(5, 21, 28, 49);
    assert Pow(2, 2) == 4;
    PowGrows(2, 24, 53);
    PowGrows(2, 53, 62);
  }

  /** How large the power of five can be, and how small beside at most one factor of two. */
  lemma {:induction false} FiveFits(f: nat, bits: nat, k: nat, two: nat)
    requires Normalised(f, bits) && f == Pow(5, k) * Pow(2, two)
    ensures k < 49 && (bits < 113 ==> k < 28) && (bits == 113 && two <= 1 ==> k >= 32)
  {
    hide Pow;
    FivePowers();
    FactorTwo(Pow(5, k), two);
    if k >= 28 { PowGrows(5, 28, k); }
    if k >= 49 { PowGrows(5, 49, k); }
    if k < 32 { PowGrows(5, k, 31); }
  }

  lemma {:induction false} FactorTwo(a: nat, two: nat)
    ensures a * Pow(2, two) >= a && (two <= 1 ==> a * Pow(2, two) <= 2 * a)
  {
    PowPositive(2, two);
    MulAtLeast(Pow(2, two), a);
    Commutes(Pow(2, two), a);
    assert Pow(2, 0) == 1 && Pow(2, 1) == 2;
  }

  lemma {:induction false} NoCrossing(f: nat, bits: nat, k: nat, two: nat, shift: nat, estimate: nat)
    requires Normalised(f, bits) && f == Pow(5, k) * Pow(2, two) && two <= k <= estimate && 1 <= shift <= 2
    ensures (k - two + shift) / 32 <= estimate / 32
  {
    FiveFits(f, bits, k, two);
    assert bits <= 113;
    hide Pow, Normalised;
    var a := k - two + shift;
    if a <= estimate {
      BigitOrder(a, estimate);
    } else {
      BigitOf(a);
      BigitOrder(k, estimate);
      BigitOf(k);
    }
  }

  lemma BigitOrder(a: nat, b: nat)
    requires a <= b
    ensures a / 32 <= b / 32
  {
  }

  lemma BigitOf(a: nat)
    ensures a < 32 ==> a / 32 == 0
    ensures 32 <= a < 64 ==> a / 32 == 1
  {
  }

  /** The division that compare() misjudges is never met with a significand of these formats: with a precision
      the characters are always digits. */
  lemma NeverSkipped(f: nat, bits: nat, e: int, closer: bool, fixup: bool, estimate: int, count: int)
    requires Normalised(f, bits) && (e >= 0 ==> estimate >= 0)
    ensures !PowerSkipped(f, e, if closer then 2 else 1, estimate, FinalExponent(f, e, fixup, estimate), count)
  {
    var x, shift := FinalExponent(f, e, fixup, estimate), if closer then 2 else 1;
    if PowerSkipped(f, e, shift, estimate, x, count) {
      var j :| 0 <= j < count - 1 && Tens(Top(f, e, x), j) == Bottom(e, x);
      PowPositive(2, bits - 1);
      hide Top, Bottom, Pow, Normalised;
      SkippedIsTen(f, e, x, j);
      FactorOfTen(f, e, x - j);
      NoCrossing(f, bits, x - j, x - j - e, shift, estimate);
    }
  }

  /** A direct call with another significand can meet it: 10^31 written as 5^31 * 2^31. */
  lemma {:induction false} SkipWitness(precision: int, fixup: bool)
    requires precision >= 2
    ensures Callable(Pow(5, 31), 31, precision, 31)
    ensures var x := FinalExponent(Pow(5, 31), 31, fixup, 31);
            PowerSkipped(Pow(5, 31), 31, 1, 31, x, precision)
  {
    var a := Pow(5, 31);
    hide Pow, Top, Bottom, TooHigh;
    SkipSizes();
    TopBottomOf(a, 31, 31);
    TopBottomOf(a, 31, 32);
    NotTooHigh(a, 31, 31);
    assert Tens(Top(a, 31, 31), 0) == Bottom(31, 31);
  }

  /** A power of ten is not below the next one up, not even with half a unit added. */
  lemma {:induction false} NotTooHigh(f: nat, e: nat, x: nat)
    requires f * Pow(2, e) == Pow(10, x)
    ensures !TooHigh(f, e, x)
  {
    PowPositive(2, e);
    TopBottomOf(2 * f + 1, e, x);
    Distributes(2 * f, 1, Pow(2, e));
    MulAssoc(2, f, Pow(2, e));
  }

  lemma {:induction false} SkipSizes()
    ensures 0 < Pow(5, 31) < W128 && Pow(5, 31) * Pow(2, 31) == Pow(10, 31)
    ensures 0 < Pow(10, 31) && Pow(10, 32) == 10 * Pow(10, 31)
  {
    PowTen(31);
    FivePowers();
    TwoPowers();
    PowPositive(5, 31);
    PowPositive(10, 31);
    assert Pow(10, 32) == 10 * Pow(10, 31);
  }
}
