/** Bytes, words and the bitwise operators the chips use, on integers. */
module Bits {

  type byte = x: int | 0 <= x < 256
  type word = x: int | 0 <= x < 65536

  function Pow2(n: nat): (p: nat)
    ensures p > 0
  {
    if n == 0 then 1 else 2 * Pow2(n - 1)
  }

  /** Bit b of x: (x >> b) & 1. */
  function Bit(x: nat, b: nat): (r: nat)
    ensures r <= 1
    decreases b, x
  {
    if b == 0 then x % 2 else Bit(x / 2, b - 1)
  }

  /** n cleared memory cells. */
  function Zeros(n: nat): (z: seq<byte>)
    ensures |z| == n && forall i :: 0 <= i < n ==> z[i] == 0
  {
    seq(n, _ => 0)
  }

  datatype BitOp = AndOp | OrOp | XorOp {
    function Apply(a: nat, b: nat): (r: nat)
      requires a <= 1 && b <= 1
      ensures r <= 1
    {
      match this
      case AndOp => if a == 1 && b == 1 then 1 else 0
      case OrOp => if a == 1 || b == 1 then 1 else 0
      case XorOp => if a == b then 0 else 1
    }
  }

  /** The bitwise operator op on the low n bits of x and y. */
  function Bitwise(op: BitOp, x: nat, y: nat, n: nat): (r: nat)
    ensures r < Pow2(n)
    decreases n, x
  {
    if n == 0 then 0
    else op.Apply(x % 2, y % 2) + 2 * Bitwise(op, x / 2, y / 2, n - 1)
  }

  function ByteOp(op: BitOp, x: byte, y: byte): (r: byte) {
    assert Pow2(8) == 256;
    Bitwise(op, x, y, 8)
  }

  function And(x: byte, y: byte): byte { ByteOp(AndOp, x, y) }
  function Or(x: byte, y: byte): byte { ByteOp(OrOp, x, y) }
  function Xor(x: byte, y: byte): byte { ByteOp(XorOp, x, y) }

  /** ~x on eight bits. */
  function Not(x: byte): byte { 255 - x }

  /** Every bit of the result is the operator on the bits of the operands. */
  lemma {:induction false} BitOfBitwise(op: BitOp, x: nat, y: nat, n: nat, k: nat)
    requires k < n
    ensures Bit(Bitwise(op, x, y, n), k) == op.Apply(Bit(x, k), Bit(y, k))
  {
    var r := Bitwise(op, x / 2, y / 2, n - 1);
    var full := Bitwise(op, x, y, n);
    assert full % 2 == op.Apply(x % 2, y % 2) && full / 2 == r;
    if k > 0 {
      BitOfBitwise(op, x / 2, y / 2, n - 1, k - 1);
    }
  }

  /** A number below 2^n is determined by its low n bits. */
  lemma {:induction false} BitsDetermine(x: nat, y: nat, n: nat)
    requires x < Pow2(n) && y < Pow2(n)
    requires forall k :: 0 <= k < n ==> Bit(x, k) == Bit(y, k)
    ensures x == y
  {
    if n > 0 {
      assert Bit(x, 0) == Bit(y, 0);
      forall k | 0 <= k < n - 1 ensures Bit(x / 2, k) == Bit(y / 2, k) {
        assert Bit(x, k + 1) == Bit(y, k + 1);
      }
      BitsDetermine(x / 2, y / 2, n - 1);
    }
  }

  /** Or of two numbers without a common bit is their sum. */
  lemma {:induction false} OrDisjoint(h: nat, l: nat, k: nat, n: nat)
    requires k <= n && l < Pow2(k) && h < Pow2(n - k)
    ensures Bitwise(OrOp, Pow2(k) * h, l, n) == Pow2(k) * h + l
  {
    if k == 0 {
      OrZeroRight(h, n);
    } else {
      var half := Pow2(k - 1) * h;
      assert Pow2(k) * h == 2 * half;
      assert 2 * half / 2 == half && 2 * half % 2 == 0;
      OrDisjoint(h, l / 2, k - 1, n - 1);
    }
  }

  /** Or of a high nibble and a low nibble packs them into one byte. */
  lemma OrNibble(h: nat, l: nat)
    requires h < 16 && l < 16
    ensures Or(16 * h, l) == 16 * h + l
  {
    assert Pow2(4) == 16;
    OrDisjoint(h, l, 4, 8);
  }

  lemma {:induction false} OrZeroRight(x: nat, n: nat)
    requires x < Pow2(n)
    ensures Bitwise(OrOp, x, 0, n) == x
  {
    if n > 0 { OrZeroRight(x / 2, n - 1); }
  }

  lemma {:induction false} OrZeroLeft(x: nat, n: nat)
    requires x < Pow2(n)
    ensures Bitwise(OrOp, 0, x, n) == x
  {
    if n > 0 { OrZeroLeft(x / 2, n - 1); }
  }

  lemma {:induction false} AndZero(x: nat, n: nat)
    ensures Bitwise(AndOp, x, 0, n) == 0
  {
    if n > 0 { AndZero(x / 2, n - 1); }
  }

  lemma {:induction false} SmallHasNoHighBits(x: nat, n: nat, k: nat)
    requires x < Pow2(n) && n <= k
    ensures Bit(x, k) == 0
  {
    if n > 0 { SmallHasNoHighBits(x / 2, n - 1, k - 1); }
    else if k > 0 { SmallHasNoHighBits(x / 2, 0, k - 1); }
  }
}
