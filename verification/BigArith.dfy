/** Values of bigit sequences: little-endian numbers in base 2^32. */
module BigArith {
  import opened Bits

  const BASE: nat := 0x1_0000_0000

  type bigit = x: int | 0 <= x < 0x1_0000_0000

  function V(s: seq<bigit>): nat {
    if s == [] then 0 else s[0] + BASE * V(s[1..])
  }

  /** v times BASE^n. */
  function Shift(v: int, n: nat): int {
    if n == 0 then v else BASE * Shift(v, n - 1)
  }

  function Pow(b: nat, e: nat): nat {
    if e == 0 then 1 else b * Pow(b, e - 1)
  }

  function Sign(x: int): int {
    if x > 0 then 1 else if x < 0 then -1 else 0
  }

  // ----- shifts -----

  lemma {:induction false} ShiftAdd(a: int, b: int, n: nat)
    ensures Shift(a + b, n) == Shift(a, n) + Shift(b, n)
    ensures Shift(a - b, n) == Shift(a, n) - Shift(b, n)
  {
    if n > 0 { ShiftAdd(a, b, n - 1); }
  }

  lemma {:induction false} ShiftMul(a: int, k: int, n: nat)
    ensures Shift(a * k, n) == Shift(a, n) * k
  {
    if n > 0 {
      ShiftMul(a, k, n - 1);
      var s := Shift(a, n - 1);
      assert BASE * (s * k) == (BASE * s) * k;
    }
  }

  lemma {:induction false} ShiftTwice(a: int, m: nat, n: nat)
    ensures Shift(Shift(a, m), n) == Shift(a, m + n)
  {
    if n > 0 { ShiftTwice(a, m, n - 1); }
  }

  lemma {:induction false} ShiftMono(a: int, b: int, n: nat)
    ensures a <= b ==> Shift(a, n) <= Shift(b, n)
    ensures a < b ==> Shift(a, n) < Shift(b, n)
  {
    if n > 0 { ShiftMono(a, b, n - 1); }
  }

  lemma {:induction false} ShiftGrows(m: nat, n: nat)
    requires m <= n
    ensures 1 <= Shift(1, m) <= Shift(1, n)
    decreases n
  {
    if m < n { ShiftGrows(m, n - 1); }
    else if m > 0 { ShiftGrows(m - 1, m - 1); }
  }

  lemma {:induction false} ShiftZero(n: nat)
    ensures Shift(0, n) == 0
  {
    if n > 0 { ShiftZero(n - 1); }
  }

  // ----- values of sequences -----

  lemma {:induction false} VConcat(a: seq<bigit>, b: seq<bigit>)
    ensures V(a + b) == V(a) + Shift(V(b), |a|)
  {
    if a == [] {
      assert a + b == b;
    } else {
      VConcat(a[1..], b);
      assert (a + b)[1..] == a[1..] + b;
    }
  }

  lemma {:induction false} VSplit(s: seq<bigit>, i: nat)
    requires i <= |s|
    ensures V(s) == V(s[..i]) + Shift(V(s[i..]), i)
  {
    VConcat(s[..i], s[i..]);
    assert s[..i] + s[i..] == s;
  }

  lemma {:induction false} VBound(s: seq<bigit>)
    ensures V(s) < Shift(1, |s|)
  {
    if s != [] { VBound(s[1..]); }
  }

  /** A top bigit that is not zero bounds the value from below. */
  lemma {:induction false} VTop(s: seq<bigit>)
    requires s != [] && s[|s| - 1] != 0
    ensures V(s) >= Shift(1, |s| - 1)
  {
    if |s| > 1 { VTop(s[1..]); }
  }

  lemma {:induction false} VZeroTop(s: seq<bigit>)
    requires s != [] && s[|s| - 1] == 0
    ensures V(s) == V(s[..|s| - 1])
  {
    VSplit(s, |s| - 1);
    var top := s[|s| - 1..];
    assert top == [0] && top[1..] == [];
    assert V(top) == 0;
    ShiftZero(|s| - 1);
  }

  lemma VOne(d: bigit)
    ensures V([d]) == d
  {
    assert [d][1..] == [];
  }

  // ----- digits of a number -----

  function Digits(n: nat): (d: seq<bigit>)
    ensures n > 0 ==> d != [] && d[|d| - 1] != 0
    ensures n == 0 <==> d == []
  {
    if n == 0 then [] else [n % BASE] + Digits(n / BASE)
  }

  lemma {:induction false} VDigits(n: nat)
    ensures V(Digits(n)) == n
  {
    if n > 0 {
      VDigits(n / BASE);
      assert Digits(n)[1..] == Digits(n / BASE);
    }
  }

  // ----- multiplication of a number by a machine integer -----

  function Product(d: nat, v: nat, carry: nat): nat {
    d * v + carry
  }

  /** The bigits of s * v + carry, one pass from the low end. */
  function MulAdd(s: seq<bigit>, v: nat, carry: nat): seq<bigit> {
    if s == [] then Digits(carry)
    else
      var r := Product(s[0], v, carry);
      [r % BASE] + MulAdd(s[1..], v, r / BASE)
  }

  lemma {:induction false} MulAddValue(s: seq<bigit>, v: nat, carry: nat)
    ensures V(MulAdd(s, v, carry)) == V(s) * v + carry
  {
    hide Product;
    if s == [] {
      VDigits(carry);
      ZeroTimes(v);
    } else {
      var r := Product(s[0], v, carry);
      MulAddValue(s[1..], v, r / BASE);
      assert MulAdd(s, v, carry)[1..] == MulAdd(s[1..], v, r / BASE);
      MulStep(s[0], V(s[1..]), v, carry);
    }
  }

  lemma ZeroTimes(v: nat)
    ensures 0 * v == 0
  {
  }

  lemma MulStep(d: nat, t: nat, v: nat, carry: nat)
    ensures var r := Product(d, v, carry); r % BASE + BASE * (t * v + r / BASE) == (d + BASE * t) * v + carry
  {
    Distribute(d, t, v);
  }

  lemma Distribute(d: nat, t: nat, v: nat)
    ensures (d + BASE * t) * v == d * v + BASE * (t * v)
  {
  }

  /** A number times a positive integer keeps a non-zero top bigit. */
  lemma {:induction false} MulAddTop(s: seq<bigit>, v: nat, carry: nat)
    requires s != [] && s[|s| - 1] != 0 && v > 0
    ensures var m := MulAdd(s, v, carry); m != [] && m[|m| - 1] != 0 && |m| >= |s|
  {
    var r := Product(s[0], v, carry);
    if |s| == 1 {
      Positive(s[0], v);
      assert s[1..] == [];
      assert MulAdd(s[1..], v, r / BASE) == Digits(r / BASE);
    } else {
      MulAddTop(s[1..], v, r / BASE);
    }
  }

  lemma Positive(a: nat, b: nat)
    requires a > 0 && b > 0
    ensures a * b > 0
  {
  }

  // ----- powers -----

  lemma {:induction false} PowAdd(b: nat, m: nat, n: nat)
    ensures Pow(b, m + n) == Pow(b, m) * Pow(b, n)
  {
    if m > 0 {
      PowAdd(b, m - 1, n);
      var x, y := Pow(b, m - 1), Pow(b, n);
      Associate(b, x, y);
    }
  }

  lemma Associate(x: nat, y: nat, z: nat)
    ensures x * (y * z) == (x * y) * z
  {
  }

  lemma {:induction false} PowTen(e: nat)
    ensures Pow(5, e) * Pow(2, e) == Pow(10, e)
  {
    if e > 0 {
      PowTen(e - 1);
      var x, y := Pow(5, e - 1), Pow(2, e - 1);
      FiveTimesTwo(x, y);
    }
  }

  lemma FiveTimesTwo(x: nat, y: nat)
    ensures (5 * x) * (2 * y) == 10 * (x * y)
  {
  }

  lemma OneMore(b: nat, e: nat)
    ensures Pow(b, e + 1) == b * Pow(b, e)
  {
  }

  lemma {:induction false} PowPositive(b: nat, e: nat)
    requires b > 0
    ensures Pow(b, e) > 0
  {
    if e > 0 { PowPositive(b, e - 1); }
  }

  lemma {:induction false} Pow2Is(n: nat)
    ensures Pow2(n) == Pow(2, n)
  {
    if n > 0 { Pow2Is(n - 1); }
  }

  lemma Pow2Base()
    ensures Pow2(32) == BASE
  {
    assert Pow2(10) == 1024;
    assert Pow2(20) == 1024 * 1024;
    assert Pow2(30) == 1024 * 1024 * 1024;
  }

  lemma {:induction false} PowBase(w: nat)
    requires w == 32
    ensures Pow(2, w) == BASE
  {
    Pow2Is(w);
    Pow2Base();
  }

  /** Shifting by q bigits multiplies by 2^(w q), w being the 32 bits of a bigit. */
  lemma {:induction false} ShiftIsPow2(v: nat, q: nat, w: nat)
    requires w == 32
    ensures Shift(v, q) == v * Pow(2, w * q)
  {
    if q == 0 {
      assert Pow(2, 0) == 1;
    } else {
      ShiftIsPow2(v, q - 1, w);
      PowBase(w);
      PowAdd(2, w, w * (q - 1));
      assert w + w * (q - 1) == w * q;
      Reassociate(v, Pow(2, w * (q - 1)));
    }
  }

  lemma Reassociate(v: nat, p: nat)
    ensures BASE * (v * p) == v * (BASE * p)
  {
  }
}
