/** Facts about the single steps of the big-integer loops. */
module BigSteps {
  import opened Bits
  import opened BigArith
  import opened BigLemmas

  const W64: nat := 0x1_0000_0000_0000_0000
  const W128: nat := 0x1_0000_0000_0000_0000_0000_0000_0000_0000

  // ----- facts about single steps -----

  lemma CarryFits(d: bigit, v: nat, carry: nat, bound: nat)
    requires v < bound && carry < bound
    ensures Product(d, v, carry) / BASE < bound
  {
    MulMono(d, v, 0xffff_ffff, bound - 1);
  }

  lemma {:induction false} OneDigit(c: nat)
    requires 0 < c < BASE
    ensures Digits(c) == [c]
  {
    assert c / BASE == 0;
    assert Digits(0) == [];
  }

  /** The split multiplication computes the exact next bigit and carry without overflow. */
  lemma {:induction false} WideStep(d: bigit, value: nat, carry: nat)
    requires value < W128 && carry < W128
    ensures var result := Product(value % W64, d, carry % BASE);
            var next := Product(value / W64, d, 0) * BASE + result / BASE + carry / BASE;
            && result < W128 && Product(value / W64, d, 0) * BASE < W128
            && result % BASE == Product(d, value, carry) % BASE
            && next == Product(d, value, carry) / BASE && next < W128
  {
    var lower, upper := value % W64, value / W64;
    var x, y := lower * d, upper * d;
    MulMono(lower, d, W64 - 1, BASE - 1);
    MulMono(upper, d, W64 - 1, BASE - 1);
    SplitProduct(d, lower, upper);
    CarryFits(d, value, carry, W128);
    assert Product(d, value, carry) == y * W64 + x + carry;
    hide Product;
    WideParts(x, y, carry);
  }

  lemma WideParts(x: nat, y: nat, carry: nat)
    ensures var result, all := x + carry % BASE, y * W64 + x + carry;
            result % BASE == all % BASE && y * BASE + result / BASE + carry / BASE == all / BASE
  {
    assert y * W64 + x + carry == BASE * (y * BASE + carry / BASE) + (x + carry % BASE);
  }

  /** The same for 64 bits, split into two bigits. */
  lemma {:induction false} NarrowStep(d: bigit, value: nat, carry: nat)
    requires value < W64 && carry < W64
    ensures var result := Product(value % BASE, d, carry % BASE);
            var next := Product(value / BASE, d, 0) + result / BASE + carry / BASE;
            && result < W64 && Product(value / BASE, d, 0) < W64
            && result % BASE == Product(d, value, carry) % BASE
            && next == Product(d, value, carry) / BASE && next < W64
  {
    var lower, upper := value % BASE, value / BASE;
    var x, y := lower * d, upper * d;
    MulMono(lower, d, BASE - 1, BASE - 1);
    MulMono(upper, d, BASE - 1, BASE - 1);
    SplitBigits(d, lower, upper);
    CarryFits(d, value, carry, W64);
    assert Product(d, value, carry) == y * BASE + x + carry;
    hide Product;
    NarrowParts(x, y, carry);
  }

  lemma NarrowParts(x: nat, y: nat, carry: nat)
    ensures var result, all := x + carry % BASE, y * BASE + x + carry;
            result % BASE == all % BASE && y + result / BASE + carry / BASE == all / BASE
  {
    assert y * BASE + x + carry == BASE * (y + carry / BASE) + (x + carry % BASE);
  }

  lemma SplitBigits(d: nat, lower: nat, upper: nat)
    ensures d * (upper * BASE + lower) == (upper * d) * BASE + lower * d
  {
  }

  lemma {:induction false} NotNegative(v: nat, e: nat)
    ensures Shift(v, e) >= 0
  {
    ShiftZero(e);
    ShiftMono(0, v, e);
  }

  lemma SplitProduct(d: nat, lower: nat, upper: nat)
    ensures d * (upper * W64 + lower) == (upper * d) * W64 + lower * d
  {
  }

  lemma {:induction false} Scaled(s: seq<bigit>, v: nat, exp: nat)
    requires v > 0 && s != []
    ensures Shift(V(MulAdd(s, v, 0)), exp) == Shift(V(s), exp) * v
    ensures var m := MulAdd(s, v, 0);
            && m != []
            && (s[|s| - 1] != 0 ==> m[|m| - 1] != 0)
            && (|s| == 1 && s[0] == 0 ==> m == [0])
  {
    MulAddValue(s, v, 0);
    ShiftMul(V(s), v, exp);
    if s[|s| - 1] != 0 { MulAddTop(s, v, 0); }
    if |s| == 1 && s[0] == 0 {
      assert s[1..] == [] && Digits(0) == [];
      ZeroTimes(v);
      assert Product(0, v, 0) == 0;
    }
  }

  lemma ShiftFactor(v: nat, e: nat, shift: nat)
    ensures Shift(v, e + shift / 32) * Pow(2, shift % 32) == Shift(v, e) * Pow(2, shift)
  {
    var q, r := shift / 32, shift % 32;
    ShiftTwice(v, q, e);
    ShiftIsPow2(v, q, 32);
    ShiftMul(v, Pow(2, 32 * q), e);
    PowAdd(2, 32 * q, r);
    assert 32 * q + r == shift;
    MulAssoc(Shift(v, e), Pow(2, 32 * q), Pow(2, r));
  }

  lemma MulAssoc(x: int, y: int, z: int)
    ensures (x * y) * z == x * (y * z)
  {
  }

  predicate Complements(p: nat, q: nat) {
    p > 0 && q > 0 && p * q == BASE
  }

  lemma PowersFit(shift: nat)
    requires 0 < shift < 32
    ensures Complements(Pow2(shift), Pow2(32 - shift)) && Pow2(shift) <= BASE
  {
    Pow2Is(shift);
    Pow2Is(32 - shift);
    PowAdd(2, shift, 32 - shift);
    PowSum(shift);
    MulMono(Pow2(shift), 1, Pow2(shift), Pow2(32 - shift));
  }

  lemma PowSum(shift: nat)
    requires shift <= 32
    ensures Pow(2, shift + (32 - shift)) == BASE
  {
    PowBase(shift + (32 - shift));
  }

  lemma NoWrap(x: nat, m: nat)
    requires x < m
    ensures x % m == x
  {
  }

  /** One bigit of a multiplication pass. */
  lemma MulAddStep(s: seq<bigit>, i: nat, v: nat, carry: nat, done: seq<bigit>)
    requires i < |s|
    ensures var r := Product(s[i], v, carry);
            done + MulAdd(s[i..], v, carry) == done + [r % BASE] + MulAdd(s[i + 1..], v, r / BASE)
  {
    hide Product, Digits;
    assert s[i..][0] == s[i] && s[i..][1..] == s[i + 1..];
  }

  lemma MulAddEnd(v: nat, carry: nat)
    ensures MulAdd([], v, carry) == Digits(carry)
  {
  }

  /** Shifting a bigit left and adding the bits carried in is multiplying by 2^shift and adding. */
  lemma ShiftedBigit(d: bigit, p: nat, q: nat, carry: nat)
    requires Complements(p, q) && carry < p
    ensures d / q < p
    ensures Product(d, p, carry) / BASE == d / q
    ensures (Product(d, p, 0) % BASE + carry) % BASE == Product(d, p, carry) % BASE
  {
    hide Product;
    var h, l := d / q, d % q;
    ProductParts(d, p, q, 0, h, l);
    ProductParts(d, p, q, carry, h, l);
    DivBound(d, p, q);
    BaseParts(h, l * p);
    BaseParts(h, l * p + carry);
  }

  lemma Quotients(d: nat, q: nat)
    requires q > 0
    ensures d == d / q * q + d % q && d % q <= q - 1
  {
  }

  /** The bits shifted out and the bits that stay. */
  lemma ProductParts(d: bigit, p: nat, q: nat, carry: nat, h: nat, l: nat)
    requires p * q == BASE && 0 < p && 0 < q && carry < p && h == d / q && l == d % q
    ensures Product(d, p, carry) == BASE * h + (l * p + carry) && 0 <= l * p + carry < BASE && l * p >= 0
  {
    Quotients(d, q);
    HighPart(h, l, p, q);
    MulMono(l, p, q - 1, p);
    LowPart(p, q);
  }

  lemma BaseParts(h: nat, low: nat)
    requires low < BASE
    ensures (BASE * h + low) / BASE == h && (BASE * h + low) % BASE == low
  {
  }

  lemma HighPart(h: nat, l: nat, p: nat, q: nat)
    requires p * q == BASE
    ensures (h * q + l) * p == BASE * h + l * p
  {
    assert (h * q + l) * p == h * (p * q) + l * p;
  }

  lemma LowPart(p: nat, q: nat)
    requires p * q == BASE && q > 0
    ensures (q - 1) * p == BASE - p
  {
    assert (q - 1) * p == p * q - p;
  }

  lemma DivBound(d: nat, p: nat, q: nat)
    requires p * q == BASE && d < BASE && q > 0 && p > 0
    ensures d / q < p
  {
    if d / q >= p {
      assert q * p == p * q;
      MulMono(q, p, q, d / q);
    }
  }

  // ----- squaring -----

  lemma {:induction false} EmptySquare(n: seq<bigit>, z: seq<bigit>)
    ensures V(z[..0]) + Shift(0, 0) == SumConv(n, 0, n, 0)
  {
    assert z[..0] == [];
  }

  /** Writing the low bigit of the sum and keeping the rest as carry preserves the partial square. */
  lemma {:induction false} SquareStep(below: seq<bigit>, n: seq<bigit>, k: nat, before: nat, sum: nat)
    requires |below| == k && before <= |n| * BASE
    requires V(below) + Shift(before, k) == SumConv(n, 0, n, k)
    requires sum == before + Conv(n, 0, n, k)
    ensures V(below + [sum % BASE]) + Shift(sum / BASE, k + 1) == SumConv(n, 0, n, k + 1)
    ensures sum / BASE <= |n| * BASE
  {
    hide Conv;
    ConvBound(n, 0, n, k);
    VConcat(below, [sum % BASE]);
    VOne(sum % BASE);
    ShiftAdd(before, Conv(n, 0, n, k), k);
    ShiftAdd(sum % BASE, BASE * (sum / BASE), k);
    ShiftTwice(sum / BASE, 1, k);
    assert Shift(sum / BASE, 1) == BASE * Shift(sum / BASE, 0) == BASE * (sum / BASE);
  }

  /** After the last weight the carry is zero and the bigits are the exact square. */
  lemma {:induction false} ExactSquare(n: seq<bigit>, out: seq<bigit>, sum: nat, exp: nat)
    requires |out| == 2 * |n|
    requires V(out) + Shift(sum, 2 * |n|) == SumConv(n, 0, n, 2 * |n|)
    ensures sum == 0
    ensures Shift(V(out), 2 * exp) == Shift(V(n), exp) * Shift(V(n), exp)
  {
    var v, m := V(n), |n|;
    SumConvIsProduct(n, 0, n, 2 * m);
    WholeHi(n);
    VBound(n);
    SquareBound(v, m);
    if sum > 0 {
      ShiftMono(1, sum, 2 * m);
      assert false;
    }
    ShiftZero(2 * m);
    ShiftMul(v, v, exp);
    ShiftTwice(v * v, exp, exp);
    ShiftMul(v, Shift(v, exp), exp);
    ShiftOfProduct(v, exp);
    assert exp + exp == 2 * exp;
  }

  lemma {:induction false} ShiftOfProduct(v: nat, exp: nat)
    ensures Shift(Shift(v * v, exp), exp) == Shift(v, exp) * Shift(v, exp)
  {
    ShiftMul(v, v, exp);
    ShiftMul(v, Shift(v, exp), exp);
    assert Shift(v, exp) * v == v * Shift(v, exp);
  }

  lemma {:induction false} WholeHi(n: seq<bigit>)
    ensures Hi(n, 0) == V(n)
  {
    assert n[0..] == n;
  }

  lemma {:induction false} SquareBound(v: nat, m: nat)
    requires v < Shift(1, m)
    ensures v * v < Shift(1, 2 * m)
  {
    var u := Shift(1, m);
    MulMono(v, v, u - 1, u - 1);
    ShiftMul(1, u, m);
    ShiftTwice(1, m, m);
    assert m + m == 2 * m;
    Below(u);
  }

  lemma Below(u: int)
    requires u >= 1
    ensures (u - 1) * (u - 1) < u * u
  {
    assert (u - 1) * (u - 1) == u * u - 2 * u + 1;
  }

  lemma ProductIs(x: nat, y: nat, c: nat)
    ensures Product(x, y, c) == Product(x, y, 0) + c
  {
  }

  // ----- powers -----

  predicate IsPow2(m: nat) {
    m == 1 || (m > 1 && m % 2 == 0 && IsPow2(m / 2))
  }

  /** 1 << (number of significant bits - 1). */
  function HighestBit(e: nat): (m: nat)
    requires e > 0
    ensures IsPow2(m) && m <= e < 2 * m
  {
    if e == 1 then 1 else 2 * HighestBit(e / 2)
  }

  /** x is what the bits of e from done upwards spell. */
  predicate Leading(e: nat, done: nat, x: nat) {
    1 <= done <= e && IsPow2(done) && x == e / done
  }

  lemma FirstPower(e: nat, m: nat)
    requires 0 < m <= e < 2 * m && IsPow2(m)
    ensures Leading(e, m, 1) && Pow(5, 1) == 5
  {
    assert Pow(5, 0) == 1;
    hide IsPow2;
  }

  lemma NextLeading(e: nat, done: nat, x: nat)
    requires Leading(e, done, x) && done / 2 != 0
    ensures Leading(e, done / 2, x + x + e / (done / 2) % 2) && x <= e / 2
    ensures e / (done / 2) % 2 == if e / (done / 2) % 2 == 1 then 1 else 0
  {
    HalveMask(e, done);
    hide IsPow2;
  }

  lemma AllLeading(e: nat, done: nat, x: nat)
    requires Leading(e, done, x) && done / 2 == 0
    ensures x == e
  {
    assert done == 1;
  }

  lemma {:induction false} HalveMask(e: nat, m: nat)
    requires IsPow2(m) && m / 2 != 0
    ensures m == 2 * (m / 2) && IsPow2(m / 2)
    ensures e / (m / 2) == 2 * (e / m) + e / (m / 2) % 2
    ensures e / m <= e / 2
  {
    var h := m / 2;
    assert m == 2 * h && IsPow2(h);
    hide IsPow2;
    DivSmaller(e, m);
    HalfDivisor(e, h, m);
  }

  /** Dividing by half the divisor doubles the quotient and may add one. */
  lemma HalfDivisor(e: nat, h: nat, m: nat)
    requires h > 0 && m == 2 * h
    ensures e / h == 2 * (e / m) + e / h % 2
  {
    var q, r := DivParts(e, m);
    HalfQuotient(e, h, q, r, m);
  }

  lemma DivParts(x: nat, d: nat) returns (q: nat, r: nat)
    requires d > 0
    ensures q == x / d && x == q * d + r && r < d
  {
    q, r := x / d, x % d;
  }

  lemma HalfQuotient(e: nat, h: nat, q: nat, r: nat, m: nat)
    requires h > 0 && m == 2 * h && e == q * m + r && r < m
    ensures e / h == 2 * q + e / h % 2
  {
    EvenPart(q, h);
    assert q * m == (2 * q) * h;
    if r < h {
      DivUnique(e, h, 2 * q, r);
    } else {
      DivUnique(e, h, 2 * q + 1, r - h);
    }
  }

  lemma EvenPart(q: nat, h: nat)
    ensures q * (2 * h) == (2 * q) * h
    ensures (2 * q + 1) * h == (2 * q) * h + h
  {
  }

  lemma DivUnique(x: nat, d: nat, q: nat, r: nat)
    requires d > 0 && x == q * d + r && r < d
    ensures x / d == q && x % d == r
  {
    var a, b := x / d, x % d;
    assert x == a * d + b;
    if a < q { Apart(a, q, d); }
    if q < a { Apart(q, a, d); }
  }

  lemma Apart(a: int, b: int, d: nat)
    requires a < b
    ensures a * d + d <= b * d
  {
    assert (a + 1) * d <= b * d;
  }

  lemma DivSmaller(e: nat, m: nat)
    requires m >= 2
    ensures e / m <= e / 2
  {
    var q := e / m;
    assert e == q * m + e % m;
    MulMono(q, 2, q, m);
  }

  lemma {:induction false} FivePower(x: nat)
    ensures Pow(5, x) <= Shift(1, x)
  {
    if x > 0 { FivePower(x - 1); }
  }

  lemma {:induction false} FewBigits(s: seq<bigit>, x: nat)
    requires s != [] && s[|s| - 1] != 0 && V(s) == Pow(5, x) && x < 0x4000_0000
    ensures |s| <= 0x7fff_ffff
  {
    VTop(s);
    FivePower(x);
    if |s| > x + 1 {
      ShiftGrows(x + 1, |s| - 1);
      ShiftGrows(x, x);
    }
  }

  lemma {:induction false} StillNormal(s: seq<bigit>)
    requires s != [] && (|s| > 1 ==> s[|s| - 1] != 0) && V(s) > 0
    ensures s[|s| - 1] != 0
  {
    if |s| == 1 { assert s == [s[0]]; VOne(s[0]); }
  }

  // ----- comparison -----

  lemma {:induction false} LongerIsLarger(f: seq<bigit>, g: seq<bigit>)
    requires |f| > |g| ==> f[|f| - 1] != 0
    requires |g| > |f| ==> g[|g| - 1] != 0
    ensures |f| > |g| ==> V(f) > V(g)
    ensures |g| > |f| ==> V(g) > V(f)
  {
    VBound(f);
    VBound(g);
    if |f| > |g| { VTop(f); ShiftGrows(|g|, |f| - 1); }
    if |g| > |f| { VTop(g); ShiftGrows(|f|, |g| - 1); }
  }

  lemma HiBeyond(f: seq<bigit>, n: nat)
    requires n >= |f|
    ensures Hi(f, n) == 0
  {
  }

  lemma {:induction false} SumTooShort(f: seq<bigit>, g: seq<bigit>, h: seq<bigit>)
    requires |f| + 1 < |h| && |g| + 1 < |h| && h[|h| - 1] != 0
    ensures V(f) + V(g) < V(h)
  {
    VBound(f);
    VBound(g);
    VTop(h);
    ShiftGrows(|f|, |h| - 2);
    ShiftGrows(|g|, |h| - 2);
    assert Shift(1, |h| - 1) == BASE * Shift(1, |h| - 2);
  }

  /** A difference of the upper parts that the lower parts cannot make up decides the comparison. */
  lemma {:induction false} DecidedByHi(f: seq<bigit>, g: seq<bigit>, h: seq<bigit>, i: nat)
    ensures Hi(f, i) + Hi(g, i) > Hi(h, i) ==> V(f) + V(g) > V(h)
    ensures Hi(f, i) + Hi(g, i) + 2 <= Hi(h, i) ==> V(f) + V(g) < V(h)
  {
    hide V, Hi;
    HiLo(f, i);
    HiLo(g, i);
    HiLo(h, i);
    ShiftAdd(Hi(f, i), Hi(g, i), i);
    ShiftAdd(Hi(f, i) + 1, Hi(g, i) + 1, i);
    ShiftMono(Hi(h, i) + 1, Hi(f, i) + Hi(g, i), i);
    ShiftMono(Hi(f, i) + 1 + (Hi(g, i) + 1), Hi(h, i), i);
  }

  lemma {:induction false} SignOfShifted(a: nat, b: nat, c: nat, m: nat)
    ensures Sign(Shift(a, m) + Shift(b, m) - Shift(c, m)) == Sign(a + b - c)
  {
    ShiftAdd(a, b, m);
    ShiftMono(a + b, c, m);
    ShiftMono(c, a + b, m);
  }

  // ----- subtraction and division -----

  lemma WrapsAround(t: int)
    requires -0x1_0000_0000 <= t < BASE
    ensures t % W64 % BASE == (if t < 0 then t + BASE else t)
    ensures t % W64 / 0x8000_0000_0000_0000 == if t < 0 then 1 else 0
  {
    if t < 0 {
      assert t % W64 == t + W64;
      assert t + W64 == BASE * (BASE - 1) + (t + BASE);
    }
  }

  lemma {:induction false} LongEnough(s: seq<bigit>, e: nat, o: seq<bigit>, oe: nat)
    requires e <= oe && o != [] && o[|o| - 1] != 0
    requires Shift(V(s), e) >= Shift(V(o), oe)
    ensures |s| >= oe - e + |o|
  {
    VBound(s);
    VTop(o);
    ShiftMono(V(s), Shift(1, |s|), e);
    ShiftMono(Shift(1, |o| - 1), V(o), oe);
    ShiftTwice(1, |s|, e);
    ShiftTwice(1, |o| - 1, oe);
    if |s| + e <= |o| - 1 + oe {
      ShiftGrows(|s| + e, |o| - 1 + oe);
    }
  }

  lemma {:induction false} SubLoopStep(a: seq<bigit>, b: seq<bigit>, j: nat, borrow: nat, done: seq<bigit>)
    requires |a| == |b| && j < |a| && borrow <= 1
    requires var (rest, out) := SubLoop(a[j..], b[j..], borrow); SubLoop(a, b, 0) == (done + rest, out)
    ensures var t := a[j] - b[j] - borrow;
            var (rest, out) := SubLoop(a[j + 1..], b[j + 1..], if t < 0 then 1 else 0);
            SubLoop(a, b, 0) == (done + [if t < 0 then t + BASE else t] + rest, out)
  {
    var t := a[j] - b[j] - borrow;
    assert a[j..][0] == a[j] && a[j..][1..] == a[j + 1..];
    assert b[j..][0] == b[j] && b[j..][1..] == b[j + 1..];
    var (rest, out) := SubLoop(a[j + 1..], b[j + 1..], if t < 0 then 1 else 0);
    var d := if t < 0 then t + BASE else t;
    assert done + ([d] + rest) == done + [d] + rest;
  }

  lemma {:induction false} SubDone(a: seq<bigit>, b: seq<bigit>, borrow: nat)
    requires |a| == |b| && borrow <= 1
    ensures SubLoop(a[|a|..], b[|b|..], borrow) == ([], borrow)
  {
  }

  /** The upper part of the larger number is not below the other number. */
  lemma UpperPart(s: seq<bigit>, o: seq<bigit>, k: nat, e: nat)
    requires k <= |s| && Shift(V(s), e) >= Shift(V(o), e + k)
    ensures V(s[k..]) >= V(o)
  {
    hide V;
    ShiftTwice(V(o), k, e);
    assert k + e == e + k;
    ShiftMono(V(s), Shift(V(o), k), e);
    VSplit(s, k);
    VBound(s[..k]);
    ShiftAdd(V(s[k..]), 1, k);
    ShiftMono(V(s[k..]) + 1, V(o), k);
  }

  /** The upper part once the loop is done: either nothing is borrowed, or the one bigit above pays for it. */
  lemma {:induction false} BorrowedAbove(hi: seq<bigit>, o: seq<bigit>, r: seq<bigit>, borrow: nat)
    requires |o| <= |hi| <= |o| + 1 && V(hi) >= V(o)
    requires SubLoop(hi[..|o|], o, 0) == (r, borrow)
    ensures borrow != 0 ==> |hi| == |o| + 1 && hi[|o|] >= 1 && V(r + [hi[|o|] - 1]) == V(hi) - V(o)
    ensures borrow == 0 ==> V(r + hi[|o|..]) == V(hi) - V(o)
  {
    var n := |o|;
    SubLoopValue(hi[..n], o, 0);
    hide V, SubLoop;
    VSplit(hi, n);
    VBound(r);
    ShiftZero(n);
    if borrow != 0 {
      PaidAbove(hi, o, r, n);
    } else {
      VConcat(r, hi[n..]);
    }
  }

  /** What was borrowed comes out of the one bigit above. */
  lemma {:induction false} PaidAbove(hi: seq<bigit>, o: seq<bigit>, r: seq<bigit>, n: nat)
    requires |r| == n && n <= |hi| <= n + 1 && V(hi) >= V(o) && V(r) < Shift(1, n)
    requires V(hi) == V(hi[..n]) + Shift(V(hi[n..]), n) && V(r) == V(hi[..n]) - V(o) + Shift(1, n)
    ensures |hi| == n + 1 && hi[n] >= 1 && V(r + [hi[n] - 1]) == V(hi) - V(o)
  {
    hide V, Shift;
    var above := V(hi[n..]);
    ShiftZero(n);
    ShiftMono(above, 0, n);
    assert Shift(above, n) > 0 && above > 0;
    TailNotEmpty(hi[n..]);
    var t := hi[n];
    assert hi[n..] == [t];
    VOne(t);
    VOne(t - 1);
    ShiftAdd(t, 1, n);
    VConcat(r, [t - 1]);
  }

  /** Replacing the upper part by its difference with o subtracts o from the whole. */
  lemma {:induction false} UpperReplaced(s: seq<bigit>, o: seq<bigit>, k: nat, e: nat, hi: seq<bigit>)
    requires k <= |s| && V(hi) == V(s[k..]) - V(o)
    ensures Shift(V(s[..k] + hi), e) == Shift(V(s), e) - Shift(V(o), e + k)
  {
    hide V;
    VSplit(s, k);
    VConcat(s[..k], hi);
    ShiftAdd(V(s[k..]), V(o), k);
    ShiftTwice(V(o), k, e);
    assert k + e == e + k;
    ShiftAdd(V(s), Shift(V(o), k), e);
  }

  lemma Borrowed(s: seq<bigit>, o: seq<bigit>, k: nat, e: nat, r: seq<bigit>, borrow: nat)
    requires k + |o| <= |s| <= k + |o| + 1
    requires SubLoop(s[k..k + |o|], o, 0) == (r, borrow)
    requires Shift(V(s), e) >= Shift(V(o), e + k)
    ensures borrow != 0 ==>
              |s| == k + |o| + 1 && s[k + |o|] >= 1
              && Shift(V(s[..k] + r + [s[k + |o|] - 1]), e) == Shift(V(s), e) - Shift(V(o), e + k)
    ensures borrow == 0 ==>
              Shift(V(s[..k] + r + s[k + |o|..]), e) == Shift(V(s), e) - Shift(V(o), e + k)
  {
    hide V, SubLoop, Shift;
    var n, hi := |o|, s[k..];
    UpperPart(s, o, k, e);
    assert hi[..n] == s[k..k + n] && hi[n..] == s[k + n..];
    BorrowedAbove(hi, o, r, borrow);
    if borrow != 0 {
      var d := r + [hi[n] - 1];
      UpperReplaced(s, o, k, e, d);
      assert s[..k] + d == s[..k] + r + [s[k + n] - 1];
    } else {
      var d := r + hi[n..];
      UpperReplaced(s, o, k, e, d);
      assert s[..k] + d == s[..k] + r + s[k + n..];
    }
  }

  lemma {:induction false} TailNotEmpty(t: seq<bigit>)
    requires V(t) > 0
    ensures t != []
  {
  }

  lemma {:induction false} PositiveValue(s: seq<bigit>, e: nat)
    requires s != [] && s[|s| - 1] != 0
    ensures Shift(V(s), e) > 0
  {
    VTop(s);
    ShiftGrows(0, |s| - 1);
    ShiftMono(1, V(s), e);
    ShiftGrows(0, e);
  }

  lemma {:induction false} ZeroOrNormal(s: seq<bigit>, e: nat)
    requires s != [] && (|s| > 1 ==> s[|s| - 1] != 0)
    ensures s[|s| - 1] != 0 || (s == [0] && Shift(V(s), e) == 0)
  {
    if s[|s| - 1] == 0 {
      assert s == [0];
      VOne(0);
      ShiftZero(e);
    }
  }

  /** A number below 2^31 times another is at most one bigit longer. */
  lemma {:induction false} OneBigitLonger(s: seq<bigit>, e: nat, o: seq<bigit>, oe: nat)
    requires s != [] && (|s| > 1 ==> s[|s| - 1] != 0) && e <= oe && o != [] && o[|o| - 1] != 0
    requires Shift(V(s), e) < 0x8000_0000 * Shift(V(o), oe)
    ensures |s| + e <= |o| + oe + 1
  {
    hide V;
    ShiftGrows(0, |o| + oe);
    if |s| + e >= |o| + oe + 2 {
      VTop(s);
      VBound(o);
      ShiftMono(Shift(1, |s| - 1), V(s), e);
      ShiftMono(V(o), Shift(1, |o|), oe);
      ShiftTwice(1, |s| - 1, e);
      ShiftTwice(1, |o|, oe);
      ShiftGrows(|o| + oe + 1, |s| - 1 + e);
    }
  }

  lemma QuotientStep(v: int, q: nat, d: int, val: int)
    requires d > 0 && val >= 0 && v == q * d + (val + d) && v < 0x8000_0000 * d
    ensures v == (q + 1) * d + val && q + 1 < 0x8000_0000
  {
    assert (q + 1) * d == q * d + d;
    if q + 1 >= 0x8000_0000 {
      MulMono(0x8000_0000, d, q + 1, d);
    }
  }

  lemma NoMore(v: int, q: nat, d: int, val: int)
    requires d > 0 && v == q * d + val
    ensures val <= v
  {
    assert q * d >= 0;
  }

  lemma SmallQuotient(v: int, d: int)
    requires 0 <= v && 0 < d
    ensures v < d ==> v / d == 0
  {
  }

  lemma IsQuotient(v: int, d: int, q: nat, r: int)
    requires 0 <= r < d && v == q * d + r
    ensures v / d == q && v % d == r
  {
    DivUnique(v, d, q, r);
  }

  // ----- lengths -----

  /** A number not below BASE^a has more than a bigits, implicit zeros included. */
  lemma {:induction false} LongNumber(s: seq<bigit>, e: nat, a: nat)
    requires Shift(V(s), e) >= Shift(1, a)
    ensures |s| + e > a
  {
    VBound(s);
    ShiftMono(V(s), Shift(1, |s|), e);
    ShiftTwice(1, |s|, e);
    if |s| + e <= a { ShiftGrows(|s| + e, a); }
  }

  /** A power of two with all its whole bigits implicit has a single explicit one. */
  lemma {:induction false} OneBigit(s: seq<bigit>, k: nat)
    requires s != [] && s[|s| - 1] != 0 && Shift(V(s), k / 32) == Pow(2, k)
    ensures |s| == 1
  {
    if |s| > 1 {
      VTop(s);
      ShiftGrows(1, |s| - 1);
      ShiftMono(Shift(1, 1), V(s), k / 32);
      ShiftTwice(1, 1, k / 32);
      ShiftIsPow2(1, 1 + k / 32, 32);
      PowTwoGrows(k, 32 * (1 + k / 32));
    }
  }

  lemma {:induction false} PowTwoGrows(a: nat, b: nat)
    requires a < b
    ensures Pow(2, a) < Pow(2, b)
  {
    PowAdd(2, b - a, a);
    PowPositive(2, a);
    PowPositive(2, b - a - 1);
    assert Pow(2, b - a) >= 2;
    MulMono(2, Pow(2, a), Pow(2, b - a), Pow(2, a));
  }

  /** Ten times 2^e is not below the bigits of 2^(e + 2). */
  lemma TenPowerOfTwo(e: nat, shift: nat)
    requires shift <= 2
    ensures 10 * Pow(2, e) >= Shift(1, (e + shift) / 32)
  {
    var a := (e + shift) / 32;
    ShiftIsPow2(1, a, 32);
    if 32 * a < e + 2 { PowTwoGrows(32 * a, e + 2); }
    assert Pow(2, e + 2) == 2 * Pow(2, e + 1) && Pow(2, e + 1) == 2 * Pow(2, e);
  }
}
