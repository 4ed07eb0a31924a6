/** The estimate of the decimal exponent that format_float passes on is never too low: it meets what the printer
    asks of its caller. */
module DragonEstimate {
  import opened BigArith
  import opened BigSteps
  import opened DragonFormats
  import opened DragonScale
  import opened Rounding

  // ----- two rational bounds on the logarithm -----

  /** log10(2) < 87 / 289 and log10(2) > 59 / 196. */
  lemma TwoAgainstTen()
    ensures Pow(2, 289) < Pow(10, 87) && Pow(10, 59) < Pow(2, 196)
  {
    PowTen(87);
    PowTen(59);
    PowProduct(2, 202, 87, 289);
    PowProduct(2, 137, 59, 196);
    FivesAgainstTwos();
    PowPositive(2, 87);
    PowPositive(2, 59);
    hide Pow;
    ScaledOrder(Pow(2, 202), Pow(5, 87), Pow(2, 87));
    ScaledOrder(Pow(5, 59), Pow(2, 137), Pow(2, 59));
  }

  lemma FivesAgainstTwos()
    ensures Pow(2, 202) < Pow(5, 87) && Pow(5, 59) < Pow(2, 137)
  {
    TwoPowers();
    assert Pow(5, 7) == 78125 && Pow(5, 3) == 125 && Pow(2, 6) == 64 && Pow(2, 5) == 32;
    hide Pow;
    PowProduct(5, 7, 7, 14);
    PowProduct(5, 14, 14, 28);
    PowProduct(5, 28, 28, 56);
    PowProduct(5, 56, 28, 84);
    PowProduct(5, 84, 3, 87);
    PowProduct(5, 56, 3, 59);
    PowProduct(2, 31, 31, 62);
    PowProduct(2, 62, 70, 132);
    PowProduct(2, 132, 5, 137);
    PowProduct(2, 132, 70, 202);
  }

  // ----- powers of powers -----

  lemma {:induction false} PowOne(n: nat)
    ensures Pow(1, n) == 1
  {
    if n > 0 { PowOne(n - 1); }
  }

  lemma {:induction false} PowPow(b: nat, m: nat, n: nat)
    ensures Pow(Pow(b, m), n) == Pow(b, m * n)
  {
    if n > 0 {
      PowPow(b, m, n - 1);
      PowAdd(b, m, m * (n - 1));
      assert m * n == m + m * (n - 1);
    } else {
      assert m * n == 0;
    }
  }

  lemma {:induction false} BaseGrows(a: nat, b: nat, n: nat)
    requires a <= b
    ensures Pow(a, n) <= Pow(b, n)
  {
    if n > 0 {
      BaseGrows(a, b, n - 1);
      MulMono2(a, b, Pow(a, n - 1), Pow(b, n - 1));
    }
  }

  lemma MulMono2(a: nat, b: nat, x: nat, y: nat)
    requires a <= b && x <= y
    ensures a * x <= b * y
  {
    assert a * x <= a * y && a * y <= b * y;
  }

  lemma {:induction false} RootGrows(a: nat, b: nat, n: nat)
    requires Pow(a, n) <= Pow(b, n) && n > 0 && b > 0
    ensures a <= b
  {
    if a > b {
      PowPositive(b, n - 1);
      BaseGrows(b, a, n - 1);
      MulStrict(b, a, Pow(b, n - 1), Pow(a, n - 1));
    }
  }

  lemma MulStrict(a: nat, b: nat, x: nat, y: nat)
    requires a < b && 0 < x <= y
    ensures a * x < b * y
  {
    assert a * x < b * x && b * x <= b * y;
  }

  /** If p^s <= q^t then p^k <= q^x whenever t * k <= s * x. */
  lemma {:induction false} CompareByRatio(p: nat, q: nat, s: nat, t: nat, k: nat, x: nat)
    requires p > 0 && q > 0 && s > 0 && Pow(p, s) <= Pow(q, t) && t * k <= s * x
    ensures Pow(p, k) <= Pow(q, x)
  {
    BaseGrows(Pow(p, s), Pow(q, t), k);
    PowPow(p, s, k);
    PowPow(q, t, k);
    PowGrows(q, t * k, s * x);
    PowPow(p, k, s);
    PowPow(q, x, s);
    assert s * k == k * s && s * x == x * s;
    PowPositive(q, x);
    RootGrows(Pow(p, k), Pow(q, x), s);
  }

  // ----- the estimate -----

  lemma Ratios(n: int, est: int)
    requires Estimates(n, est) && -17000 <= n <= 17000
    ensures n + 1 >= 0 ==> est + 1 >= 1 && 87 * (n + 1) <= 289 * (est + 1)
    ensures n + 1 < 0 ==> 196 * -(est + 1) <= 59 * -(n + 1)
  {
  }

  /** 2^k is at most 10^x, whatever their signs. */
  predicate PowersInOrder(k: int, x: int) {
    if k >= 0 && x >= 0 then Pow(2, k) <= Pow(10, x)
    else if k < 0 && x < 0 then Pow(10, -x) <= Pow(2, -k)
    else x >= 0
  }

  /** 2^(n + 1) is at most 10^(est + 1). */
  lemma NotTooLow(n: int, est: int)
    requires Estimates(n, est) && -17000 <= n <= 17000
    ensures PowersInOrder(n + 1, est + 1)
  {
    hide Pow;
    TwoAgainstTen();
    Ratios(n, est);
    hide Estimates;
    var k, x := n + 1, est + 1;
    if k >= 0 {
      CompareByRatio(2, 10, 289, 87, k, x);
    } else if x < 0 {
      CompareByRatio(10, 2, 59, 196, -x, -k);
    }
  }

  lemma OrderedFractions(k: int, x: int)
    requires PowersInOrder(k, x)
    ensures Top(1, k, x) <= Bottom(k, x)
  {
    assert Pow(2, 0) == 1 && Pow(10, 0) == 1;
    hide Pow;
    PowPositive(2, Pos(-k));
    PowPositive(10, Pos(x));
    if k <= 0 && x >= 0 { Positive(Pow(2, Pos(-k)), Pow(10, Pos(x))); }
  }

  /** 2^bits units of 2^e are 2^(e + bits). */
  lemma {:induction false} WholeBinade(e: int, bits: nat, x: int)
    requires Top(1, e + bits, x) <= Bottom(e + bits, x)
    ensures Top(Pow(2, bits), e, x) <= Bottom(e, x)
  {
    var k := e + bits;
    var a, b, c, d := Pow(2, Pos(e)), Pow(2, Pos(-k)), Pow(2, Pos(k)), Pow(2, Pos(-e));
    var w, t, v := Pow(2, bits), Pow(10, Pos(-x)), Pow(10, Pos(x));
    PowAdd(2, bits, Pos(e));
    PowAdd(2, bits + Pos(e), Pos(-k));
    PowAdd(2, Pos(k), Pos(-e));
    assert bits + Pos(e) + Pos(-k) == Pos(k) + Pos(-e);
    PowPositive(2, Pos(-k));
    hide Pow;
    Binade(w, a, b, c, d, t, v);
  }

  lemma Rotated(b: nat, v: nat, d: nat)
    ensures (b * v) * d == (d * v) * b
  {
    Commutes(b * v, d);
    MulAssoc(d, v, b);
    Commutes(v, b);
  }

  lemma Binade(w: nat, a: nat, b: nat, c: nat, d: nat, t: nat, v: nat)
    requires w * a * b == c * d && 1 * c * t <= b * v && b > 0
    ensures w * a * t <= d * v
  {
    var l, r := w * a * t, d * v;
    Swap(w * a, t, b);
    Swap(c, d, t);
    MulMono2(c * t, b * v, d, d);
    Rotated(b, v, d);
    ScaledOrder(l, r, b);
  }

  /** For every significand of bits bits and every exponent of the formats, the estimate is one the printer can be
      called with, with a precision and without. */
  lemma {:induction false} EstimateCallable(f: nat, bits: nat, e: int, est: int, precision: int)
    requires 0 < bits <= 128 && Pow(2, bits - 1) <= f < Pow(2, bits)
    requires -17000 <= e + bits - 1 <= 17000 && Estimates(e + bits - 1, est)
    ensures Callable(f, e, precision, est)
  {
    NotTooLow(e + bits - 1, est);
    OrderedFractions(e + bits, est + 1);
    WholeBinade(e, bits, est + 1);
    PowPositive(2, bits - 1);
    FitsWide(bits);
    BottomPositive(e, est + 1);
    TopLinear(f, e, est + 1);
    TopBelow(f, Pow(2, bits), e, est + 1);
    hide Top, Bottom, Pow;
  }

  lemma {:induction false} FitsWide(bits: nat)
    requires bits <= 128
    ensures Pow(2, bits) <= W128
  {
    TwoPowers();
    assert Pow(2, 15) == 32768;
    hide Pow;
    PowProduct(2, 15, 113, 128);
    PowGrows(2, bits, 128);
  }

  /** Half a unit more than a smaller significand stays below. */
  lemma TopBelow(f: nat, w: nat, e: int, x: int)
    requires f < w
    ensures Top(2 * f + 1, e, x) < 2 * Top(w, e, x) && Top(1, e, x) > 0
  {
    PowPositive(2, Pos(e));
    PowPositive(10, Pos(-x));
    var a, b := Pow(2, Pos(e)), Pow(10, Pos(-x));
    hide Pow;
    Positive(a, b);
    MulAssoc(2 * f + 1, a, b);
    MulAssoc(w, a, b);
    MulStrict(2 * f + 1, 2 * w, a * b, a * b);
    MulAssoc(2, w, a * b);
  }
}
