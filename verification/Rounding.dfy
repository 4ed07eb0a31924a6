/** Rounding of a ratio to the nearest integer, ties to the even one. */
module Rounding {

  function RoundHalfEven(a: nat, d: nat): nat
    requires d > 0
  {
    var q, r := a / d, a % d;
    if 2 * r > d || (2 * r == d && q % 2 == 1) then q + 1 else q
  }

  /** x is at most half a unit away from a / d, and even when it is exactly half a unit away. */
  predicate IsRounding(a: int, d: int, x: int) {
    var t := 2 * (a - x * d);
    -d <= t <= d && (t == d || t == -d ==> x % 2 == 0)
  }

  lemma Rounds(a: nat, d: nat)
    requires d > 0
    ensures IsRounding(a, d, RoundHalfEven(a, d))
  {
    var q, r := a / d, a % d;
    IsRoundingOf(a, d, q, r);
  }

  lemma IsRoundingOf(a: nat, d: nat, q: nat, r: nat)
    requires a == q * d + r && r < d
    ensures IsRounding(a, d, if 2 * r > d || (2 * r == d && q % 2 == 1) then q + 1 else q)
  {
    assert (q + 1) * d == q * d + d;
  }

  lemma OneRounding(a: nat, d: nat, x: nat, y: nat)
    requires d > 0 && IsRounding(a, d, x) && IsRounding(a, d, y)
    ensures x == y
  {
    if x <= y { Closest(a, d, x, y); } else { Closest(a, d, y, x); }
  }

  lemma Closest(a: nat, d: nat, x: nat, y: nat)
    requires d > 0 && IsRounding(a, d, x) && IsRounding(a, d, y) && x <= y
    ensures x == y
  {
    var n := y - x;
    assert y * d == x * d + n * d;
    Gap(d, n);
  }

  lemma Gap(d: nat, n: nat)
    ensures n == 1 ==> n * d == d
    ensures n >= 2 ==> n * d >= 2 * d
  {
    if n >= 2 { assert n * d == 2 * d + (n - 2) * d; }
  }

  lemma RoundingIs(a: nat, d: nat, x: nat)
    requires d > 0 && IsRounding(a, d, x)
    ensures RoundHalfEven(a, d) == x
  {
    hide IsRounding, RoundHalfEven;
    Rounds(a, d);
    OneRounding(a, d, x, RoundHalfEven(a, d));
  }

  /** Rounding depends on the ratio only. */
  lemma RoundRatio(a: nat, d: nat, b: nat, c: nat)
    requires d > 0 && c > 0 && a * c == b * d
    ensures RoundHalfEven(a, d) == RoundHalfEven(b, c)
  {
    hide RoundHalfEven;
    var x := RoundHalfEven(a, d);
    Rounds(a, d);
    var t, u := a - x * d, b - x * c;
    assert t * c == u * d by { Regroup(a, d, b, c, x); }
    HalfKept(t, d, u, c);
    RoundingIs(b, c, x);
  }

  lemma Regroup(a: int, d: int, b: int, c: int, x: int)
    requires a * c == b * d
    ensures (a - x * d) * c == (b - x * c) * d
  {
    assert (a - x * d) * c == a * c - x * d * c;
    assert (b - x * c) * d == b * d - x * c * d;
    assert x * d * c == x * c * d;
  }

  lemma HalfKept(t: int, d: int, u: int, c: int)
    requires t * c == u * d && d > 0 && c > 0 && -d <= 2 * t <= d
    ensures -c <= 2 * u <= c && (2 * u == c <==> 2 * t == d) && (2 * u == -c <==> 2 * t == -d)
  {
    ScaledOrder(2 * t, d, c);
    ScaledOrder(-d, 2 * t, c);
    ScaledOrder(2 * u, c, d);
    ScaledOrder(-c, 2 * u, d);
    assert 2 * t * c == 2 * u * d;
    assert d * c == c * d && -d * c == -c * d;
  }

  lemma ScaledOrder(x: int, y: int, k: int)
    requires k > 0
    ensures x < y <==> x * k < y * k
    ensures x == y <==> x * k == y * k
  {
    if x < y { assert (y - x) * k > 0; }
    if x > y { assert (x - y) * k > 0; }
  }
}
