/** Products, differences and aligned views of bigit sequences. */
module BigLemmas {
  import opened BigArith

  function Get(s: seq<bigit>, k: int): bigit {
    if 0 <= k < |s| then s[k] else 0
  }

  function ZeroBigits(n: nat): (z: seq<bigit>)
    ensures |z| == n && forall i :: 0 <= i < n ==> z[i] == 0
  {
    seq(n, _ => 0)
  }

  lemma {:induction false} VZeros(n: nat)
    ensures V(ZeroBigits(n)) == 0
  {
    if n > 0 {
      assert ZeroBigits(n)[1..] == ZeroBigits(n - 1);
      VZeros(n - 1);
    }
  }

  /** The number from position i upwards. */
  function Hi(f: seq<bigit>, i: nat): nat {
    if i < |f| then V(f[i..]) else 0
  }

  lemma {:induction false} HiStep(f: seq<bigit>, i: nat)
    ensures Hi(f, i) == Get(f, i) + BASE * Hi(f, i + 1)
  {
    if i < |f| {
      var t := f[i..];
      assert t[0] == f[i] && t[1..] == f[i + 1..];
      assert V(t) == t[0] + BASE * V(t[1..]);
      if i + 1 == |f| { assert t[1..] == []; }
    }
  }

  // ----- convolution -----

  /** The sum of a[i + t] * b[k - t] over t >= 0. */
  function Conv(a: seq<bigit>, i: nat, b: seq<bigit>, k: int): (c: nat)
    decreases |a| - i
  {
    if i >= |a| || k < 0 then 0 else Product(a[i], Get(b, k), Conv(a, i + 1, b, k - 1))
  }

  /** The cross products of a[i..] and b of weights 0..n-1, each at its weight. */
  function SumConv(a: seq<bigit>, i: nat, b: seq<bigit>, n: nat): int {
    if n == 0 then 0 else SumConv(a, i, b, n - 1) + Shift(Conv(a, i, b, n - 1), n - 1)
  }

  /** b as the sum of its bigits, read up to position n. */
  function SumGet(b: seq<bigit>, n: nat): int {
    if n == 0 then 0 else SumGet(b, n - 1) + Shift(Get(b, n - 1), n - 1)
  }

  lemma {:induction false} SumGetIsV(b: seq<bigit>, n: nat)
    ensures SumGet(b, n) == V(if n <= |b| then b[..n] else b)
  {
    if n > 0 {
      SumGetIsV(b, n - 1);
      if n <= |b| {
        VConcat(b[..n - 1], [b[n - 1]]);
        assert b[..n - 1] + [b[n - 1]] == b[..n];
        VOne(b[n - 1]);
      } else {
        ShiftZero(n - 1);
        if n - 1 == |b| { assert b[..n - 1] == b; }
      }
    }
  }

  lemma {:induction false} SumConvSplit(a: seq<bigit>, i: nat, b: seq<bigit>, n: nat)
    requires i < |a| && n >= 1
    ensures SumConv(a, i, b, n) == a[i] * SumGet(b, n) + BASE * SumConv(a, i + 1, b, n - 1)
  {
    var g: int, c: int := Get(b, n - 1), Conv(a, i + 1, b, n - 2);
    var a0: int := a[i];
    ConvStep(a, i, b, n - 1);
    hide Product, Conv;
    ShiftAdd(g * a0, c, n - 1);
    ShiftMul(g, a0, n - 1);
    if n == 1 {
      assert SumGet(b, 0) == 0 && SumConv(a, i, b, 0) == 0 && SumConv(a, i + 1, b, 0) == 0;
      NoWeight(a, i + 1, b, n - 2);
    } else {
      SumConvSplit(a, i, b, n - 1);
      SplitSum(a0, SumGet(b, n - 1), Shift(g, n - 1), SumConv(a, i + 1, b, n - 2), Shift(c, n - 2));
    }
  }

  lemma {:induction false} NoWeight(a: seq<bigit>, i: nat, b: seq<bigit>, k: int)
    requires k < 0
    ensures Conv(a, i, b, k) == 0
  {
  }

  lemma ConvStep(a: seq<bigit>, i: nat, b: seq<bigit>, k: nat)
    requires i < |a|
    ensures Conv(a, i, b, k) == Get(b, k) * a[i] + Conv(a, i + 1, b, k - 1)
  {
  }

  lemma SplitSum(a0: nat, x: int, y: int, s: int, t: int)
    ensures a0 * (x + y) + BASE * (s + t) == (a0 * x + BASE * s) + (y * a0 + BASE * t)
  {
  }

  /** The product of two numbers is the sum of their cross products. */
  lemma {:induction false} SumConvIsProduct(a: seq<bigit>, i: nat, b: seq<bigit>, n: nat)
    requires i <= |a| && n >= |a| - i + |b|
    ensures SumConv(a, i, b, n) == Hi(a, i) * V(b)
    decreases |a| - i
  {
    if i == |a| {
      NoProducts(a, i, b, n);
      ZeroTimes(V(b));
    } else if n >= 1 {
      SumConvSplit(a, i, b, n);
      SumGetIsV(b, n);
      SumConvIsProduct(a, i + 1, b, n - 1);
      HiStep(a, i);
      Expand(a[i], Hi(a, i + 1), V(b));
    }
  }

  lemma Expand(d: nat, t: nat, v: nat)
    ensures d * v + BASE * (t * v) == (d + BASE * t) * v
  {
    Distribute(d, t, v);
  }

  lemma {:induction false} NoProducts(a: seq<bigit>, i: nat, b: seq<bigit>, n: nat)
    requires i >= |a|
    ensures SumConv(a, i, b, n) == 0
  {
    if n > 0 {
      NoProducts(a, i, b, n - 1);
      ShiftZero(n - 1);
    }
  }

  lemma ProductZero(x: nat, c: nat)
    ensures Product(x, 0, c) == c
  {
  }

  /** Products whose second factor lies beyond b vanish. */
  lemma {:induction false} ConvSkip(a: seq<bigit>, i: nat, b: seq<bigit>, k: nat, t: nat)
    requires i + t <= |a| && t <= k && k - t >= |b| - 1
    ensures Conv(a, i, b, k) == Conv(a, i + t, b, k - t)
    decreases t
  {
    hide Product;
    if t > 0 {
      ProductZero(a[i], Conv(a, i + 1, b, k - 1));
      ConvSkip(a, i + 1, b, k - 1, t - 1);
    }
  }

  const SQUARE: nat := 0xffff_fffe_0000_0001  // (2^32 - 1)^2

  lemma {:induction false} ConvBound(a: seq<bigit>, i: nat, b: seq<bigit>, k: int)
    requires i <= |a|
    ensures Conv(a, i, b, k) <= (|a| - i) * SQUARE
    decreases |a| - i
  {
    hide Product;
    if i < |a| && k >= 0 {
      ConvBound(a, i + 1, b, k - 1);
      ProductBound(a[i], Get(b, k), Conv(a, i + 1, b, k - 1));
    }
  }

  lemma ProductBound(x: bigit, y: bigit, c: nat)
    ensures Product(x, y, c) <= SQUARE + c
  {
    MulMono(x, y, 0xffff_ffff, 0xffff_ffff);
  }

  lemma MulMono(x: nat, y: nat, m: nat, n: nat)
    requires x <= m && y <= n
    ensures x * y <= m * n
  {
    assert x * y <= m * y;
    assert m * y <= m * n;
  }

  // ----- subtraction -----

  /** Bigits of a - b - borrow with the borrow out, one pass from the low end. */
  function SubLoop(a: seq<bigit>, b: seq<bigit>, borrow: nat): (seq<bigit>, nat)
    requires |a| == |b| && borrow <= 1
    decreases |a|
  {
    if a == [] then ([], borrow)
    else
      var t := a[0] - b[0] - borrow;
      var (rest, out) := SubLoop(a[1..], b[1..], if t < 0 then 1 else 0);
      ([if t < 0 then t + BASE else t] + rest, out)
  }

  lemma {:induction false} SubLoopValue(a: seq<bigit>, b: seq<bigit>, borrow: nat)
    requires |a| == |b| && borrow <= 1
    ensures var (r, out) := SubLoop(a, b, borrow);
            |r| == |a| && out <= 1 && V(r) == V(a) - V(b) - borrow + Shift(out, |a|)
    decreases |a|
  {
    if a != [] {
      var t := a[0] - b[0] - borrow;
      var w := if t < 0 then 1 else 0;
      SubLoopValue(a[1..], b[1..], w);
      var (rest, out) := SubLoop(a[1..], b[1..], w);
      var (r, _) := SubLoop(a, b, borrow);
      assert r[1..] == rest;
    }
  }

  // ----- aligned views -----

  function Full(bigits: seq<bigit>, exp: nat): seq<bigit> {
    ZeroBigits(exp) + bigits
  }

  lemma {:induction false} FullValue(bigits: seq<bigit>, exp: nat)
    ensures V(Full(bigits, exp)) == Shift(V(bigits), exp)
  {
    VConcat(ZeroBigits(exp), bigits);
    VZeros(exp);
  }

  /** The part below position i is less than one unit of position i. */
  lemma {:induction false} HiLo(f: seq<bigit>, i: nat)
    ensures Shift(Hi(f, i), i) <= V(f) < Shift(Hi(f, i) + 1, i)
  {
    ShiftAdd(Hi(f, i), 1, i);
    if i < |f| {
      VSplit(f, i);
      VBound(f[..i]);
    } else {
      VBound(f);
      ShiftZero(i);
      ShiftGrows(|f|, i);
    }
  }

  /** Below the exponent there are only zeros. */
  lemma {:induction false} HiAtExp(bigits: seq<bigit>, exp: nat, i: nat)
    requires i <= exp
    ensures V(Full(bigits, exp)) == Shift(Hi(Full(bigits, exp), i), i)
  {
    var f := Full(bigits, exp);
    if i < |f| {
      VSplit(f, i);
      assert f[..i] == ZeroBigits(i);
      VZeros(i);
    } else {
      assert f == ZeroBigits(exp);
      VZeros(exp);
      ShiftZero(i);
    }
  }
}
