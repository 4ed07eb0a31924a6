/** The arbitrary-length integer of deps/fmt/include/fmt/format.h, updated in place. */
module BigInts {
  import opened Bits
  import opened BigArith
  import opened BigLemmas
  import opened BigSteps

  class BigInt {
    var bigits: seq<bigit>
    var exp: nat

    /** bigits[n-1] ... bigits[0] in base 2^32, followed by exp zero bigits. */
    ghost function Value(): int
      reads this
    {
      Shift(V(bigits), exp)
    }

    /** No superfluous top bigit; zero is the single bigit 0. */
    ghost predicate Trimmed()
      reads this
    {
      bigits != [] && (|bigits| > 1 ==> bigits[|bigits| - 1] != 0)
    }

    /** Trimmed and not zero. */
    ghost predicate Normal()
      reads this
    {
      bigits != [] && bigits[|bigits| - 1] != 0
    }

    constructor ()
      ensures bigits == [] && exp == 0
    {
      bigits, exp := [], 0;
    }

    function NumBigits(): nat
      reads this
    {
      |bigits| + exp
    }

    method Assign(n: nat)
      requires n < W128
      modifies this
      ensures Value() == n && exp == 0 && Trimmed() && (n > 0 ==> Normal())
    {
      var rest: nat := n;
      bigits := [rest % BASE];
      rest := rest / BASE;
      while rest != 0
        invariant bigits != []
        invariant n > 0 ==> bigits + Digits(rest) == Digits(n)
        invariant n == 0 ==> rest == 0 && bigits == [0]
        decreases rest
      {
        ghost var sofar := bigits;
        bigits := bigits + [rest % BASE];
        assert sofar + Digits(rest) == bigits + Digits(rest / BASE);
        rest := rest / BASE;
      }
      exp := 0;
      VDigits(n);
      if n > 0 {
        assert bigits == Digits(n);
      } else {
        VOne(0);
      }
    }

    method AssignFrom(other: BigInt)
      modifies this
      ensures bigits == other.bigits && exp == other.exp
    {
      bigits := other.bigits;
      exp := other.exp;
    }

    // ----- multiplication by machine integers -----

    /** multiply(uint32_t). */
    method Multiply32(value: bigit)
      modifies this`bigits
      ensures bigits == MulAdd(old(bigits), value, 0)
    {
      hide Product, MulAdd, Digits;
      ghost var s := bigits;
      var carry: nat := 0;
      var i := 0;
      while i < |bigits|
        invariant 0 <= i <= |bigits| == |s| && carry < BASE
        invariant bigits[i..] == s[i..]
        invariant bigits[..i] + MulAdd(s[i..], value, carry) == MulAdd(s, value, 0)
      {
        ghost var done := bigits[..i];
        CarryFits(bigits[i], value, carry, BASE);
        var result := Product(bigits[i], value, carry);
        MulAddStep(s, i, value, carry, done);
        bigits := bigits[i := result % BASE];
        carry := result / BASE;
        assert bigits[..i + 1] == done + [result % BASE];
        i := i + 1;
      }
      assert bigits[..i] == bigits && s[i..] == [];
      MulAddEnd(value, carry);
      if carry != 0 {
        OneDigit(carry);
        bigits := bigits + [carry];
      }
    }

    /** multiply<uint64_t or uint128_t>: the factor is split in halves, and every intermediate is taken modulo 2^64 or
        2^128. */
    method MultiplyWide(value: nat, wide: bool)
      requires value < if wide then W128 else W64
      modifies this`bigits
      ensures bigits == MulAdd(old(bigits), value, 0)
    {
      hide Product, MulAdd, Digits;
      ghost var s := bigits;
      var carry: nat := 0;
      var i := 0;
      while i < |bigits|
        invariant 0 <= i <= |bigits| == |s| && carry < if wide then W128 else W64
        invariant bigits[i..] == s[i..]
        invariant bigits[..i] + MulAdd(s[i..], value, carry) == MulAdd(s, value, 0)
      {
        ghost var done := bigits[..i];
        MulAddStep(s, i, value, carry, done);
        var low;
        if wide {
          low, carry := WideDigit(bigits[i], value, carry);
        } else {
          low, carry := NarrowDigit(bigits[i], value, carry);
        }
        bigits := bigits[i := low];
        assert bigits[..i + 1] == done + [low];
        i := i + 1;
      }
      assert bigits[..i] == bigits && s[i..] == [];
      MulAddEnd(value, carry);
      AppendCarry(carry);
      assert bigits + [] == bigits;
    }

    method AppendCarry(carry: nat)
      modifies this`bigits
      ensures bigits == old(bigits) + Digits(carry)
    {
      var left: nat := carry;
      while left != 0
        invariant bigits + Digits(left) == old(bigits) + Digits(carry)
        decreases left
      {
        ghost var sofar := bigits;
        bigits := bigits + [left % BASE];
        assert sofar + Digits(left) == bigits + Digits(left / BASE);
        left := left / BASE;
      }
    }

    /** The instantiation for 128 bits. */
    static method WideDigit(d: bigit, value: nat, carry: nat) returns (low: bigit, next: nat)
      requires value < W128 && carry < W128
      ensures low == Product(d, value, carry) % BASE
      ensures next == Product(d, value, carry) / BASE && next < W128
    {
      hide Product;
      WideStep(d, value, carry);
      var lower, upper := value % W64, value / W64;
      NoWrap(Product(lower, d, carry % BASE), W128);
      NoWrap(Product(upper, d, 0) * BASE, W128);
      NoWrap(Product(d, value, carry) / BASE, W128);
      var result := Product(lower, d, carry % BASE) % W128;
      low := result % BASE;
      next := (Product(upper, d, 0) * BASE % W128 + result / BASE + carry / BASE) % W128;
    }

    /** The instantiation for 64 bits, whose upper half needs no shift. */
    static method NarrowDigit(d: bigit, value: nat, carry: nat) returns (low: bigit, next: nat)
      requires value < W64 && carry < W64
      ensures low == Product(d, value, carry) % BASE
      ensures next == Product(d, value, carry) / BASE && next < W64
    {
      hide Product;
      NarrowStep(d, value, carry);
      var lower, upper := value % BASE, value / BASE;
      NoWrap(Product(lower, d, carry % BASE), W64);
      NoWrap(Product(upper, d, 0), W64);
      NoWrap(Product(d, value, carry) / BASE, W64);
      var result := Product(lower, d, carry % BASE) % W64;
      low := result % BASE;
      next := (Product(upper, d, 0) % W64 + result / BASE + carry / BASE) % W64;
    }

    /** operator*= for 32-bit operands. */
    method TimesSmall(value: bigit)
      requires value > 0 && bigits != []
      modifies this`bigits
      ensures Value() == old(Value()) * value
      ensures old(Normal()) ==> Normal()
      ensures old(Trimmed()) ==> Trimmed()
      ensures old(bigits) == [0] ==> bigits == [0]
    {
      Multiply32(value);
      Scaled(old(bigits), value, exp);
    }

    /** operator*= for wider operands. */
    method TimesWide(value: nat, wide: bool)
      requires 0 < value < (if wide then W128 else W64) && bigits != []
      modifies this`bigits
      ensures Value() == old(Value()) * value
      ensures old(Normal()) ==> Normal()
      ensures old(Trimmed()) ==> Trimmed()
    {
      MultiplyWide(value, wide);
      Scaled(old(bigits), value, exp);
    }

    // ----- shifts and alignment -----

    /** operator<<=. */
    method ShiftLeft(shift: nat)
      requires bigits != []
      modifies this
      ensures Value() == old(Value()) * Pow(2, shift)
      ensures exp == old(exp) + shift / 32
      ensures old(Normal()) ==> Normal()
      ensures old(Trimmed()) ==> Trimmed()
    {
      ghost var v := V(bigits);
      exp := exp + shift / 32;
      var rest := shift % 32;
      ShiftFactor(v, old(exp), shift);
      if rest == 0 { return; }
      ShiftBits(rest);
      Scaled(old(bigits), Pow2(rest), exp);
      Pow2Is(rest);
    }

    /** The bit part of a shift: each bigit takes the bits its lower neighbour lost. */
    method ShiftBits(shift: nat)
      requires 0 < shift < 32
      modifies this`bigits
      ensures bigits == MulAdd(old(bigits), Pow2(shift), 0)
    {
      hide Product, Pow2, MulAdd, Digits, Complements;
      ghost var s := bigits;
      var p, q := Pow2(shift), Pow2(32 - shift);
      var carry: nat := 0;
      var i := 0;
      PowersFit(shift);
      while i < |bigits|
        invariant 0 <= i <= |bigits| == |s| && carry < p
        invariant bigits[i..] == s[i..]
        invariant bigits[..i] + MulAdd(s[i..], p, carry) == MulAdd(s, p, 0)
      {
        ghost var done := bigits[..i];
        ShiftedBigit(bigits[i], p, q, carry);
        MulAddStep(s, i, p, carry, done);
        ghost var whole := Product(bigits[i], p, carry);
        var c := bigits[i] / q;
        bigits := bigits[i := (Product(bigits[i], p, 0) % BASE + carry) % BASE];
        carry := c;
        assert bigits[..i + 1] == done + [whole % BASE];
        i := i + 1;
      }
      assert bigits[..i] == bigits && s[i..] == [];
      MulAddEnd(p, carry);
      if carry != 0 {
        OneDigit(carry);
        bigits := bigits + [carry];
      }
    }

    method RemoveLeadingZeros()
      requires bigits != []
      modifies this`bigits
      ensures V(bigits) == old(V(bigits)) && Trimmed() && |bigits| <= |old(bigits)|
    {
      var n := |bigits| - 1;
      assert bigits[..n + 1] == bigits;
      while n > 0 && bigits[n] == 0
        invariant 0 <= n < |bigits| && bigits == old(bigits)
        invariant V(bigits[..n + 1]) == V(bigits)
      {
        VZeroTop(bigits[..n + 1]);
        assert bigits[..n + 1][..n] == bigits[..n];
        n := n - 1;
      }
      bigits := bigits[..n + 1];
    }

    /** align: the same number with an exponent not above the other's. */
    method Align(other: BigInt)
      requires bigits != []
      modifies this
      ensures Value() == old(Value())
      ensures exp == (if old(exp) <= other.exp then old(exp) else other.exp)
      ensures old(Normal()) ==> Normal()
      ensures old(Trimmed()) && V(old(bigits)) == 0 && old(exp) <= other.exp ==> bigits == old(bigits)
      ensures NumBigits() == old(NumBigits())
    {
      if exp <= other.exp { return; }
      var diff := exp - other.exp;
      ghost var v := V(bigits);
      FullValue(bigits, diff);
      ShiftTwice(v, diff, exp - diff);
      bigits := ZeroBigits(diff) + bigits;
      exp := exp - diff;
    }

    // ----- squaring -----

    /** square(): cross products of equal weight are summed before the next bigit is written. */
    method Square()
      requires bigits != [] && |bigits| <= 0x7fff_ffff
      modifies this
      ensures Value() == old(Value()) * old(Value())
      ensures exp == 2 * old(exp) && Trimmed()
    {
      hide Conv, SumConv, V;
      var n := bigits;
      var num, total := |n|, 2 * |n|;
      bigits := ZeroBigits(total);
      var sum: nat := 0;
      var k := 0;
      EmptySquare(n, bigits);
      while k < total
        invariant 0 <= k <= total == |bigits| && exp == old(exp)
        invariant sum <= num * BASE
        invariant V(bigits[..k]) + Shift(sum, k) == SumConv(n, 0, n, k)
      {
        ghost var below, before := bigits[..k], sum;
        sum := AddCrossProducts(n, k, sum);
        SquareStep(below, n, k, before, sum);
        bigits := bigits[k := sum % BASE];
        assert bigits[..k + 1] == below + [sum % BASE];
        sum := sum / BASE;
        k := k + 1;
      }
      assert bigits[..k] == bigits;
      ExactSquare(n, bigits, sum, exp);
      RemoveLeadingZeros();
      exp := exp * 2;
    }

    /** Adds the products n[i] * n[j] with i + j == k; the running sum stays below 2^128. */
    static method AddCrossProducts(n: seq<bigit>, k: nat, start: nat) returns (sum: nat)
      requires k < 2 * |n| && |n| <= 0x7fff_ffff && start <= |n| * BASE
      ensures sum == start + Conv(n, 0, n, k) && sum < W128
    {
      hide Product;
      sum := start;
      ConvBound(n, 0, n, k);
      var i, j: int;
      if k < |n| {
        i, j := 0, k;
      } else {
        j := |n| - 1;
        i := k - j;
        ConvSkip(n, 0, n, k, i);
      }
      while j >= 0 && i < |n|
        invariant 0 <= i <= |n| && -1 <= j < |n| && i + j == k
        invariant sum + Conv(n, i, n, j) == start + Conv(n, 0, n, k)
      {
        ProductIs(n[i], n[j], Conv(n, i + 1, n, j - 1));
        sum := sum + Product(n[i], n[j], 0);
        i, j := i + 1, j - 1;
      }
    }

    // ----- powers of ten -----

    /** assign_pow10: 5^e by squaring and multiplying along the bits of e, then a shift by e. */
    method AssignPow10(e: nat)
      requires e < 0x8000_0000
      modifies this
      ensures Value() == Pow(10, e)
      ensures Normal() && exp == e / 32
    {
      if e == 0 {
        Assign(1);
        return;
      }
      hide V, Pow, Leading;
      var bitmask: nat := HighestBit(e);
      Assign(5);
      ghost var done: nat, x: nat := bitmask, 1;
      FirstPower(e, bitmask);
      bitmask := bitmask / 2;
      while bitmask != 0
        invariant Leading(e, done, x) && bitmask == done / 2 && exp == 0 && Normal()
        invariant V(bigits) == Pow(5, x)
        decreases bitmask
      {
        NextLeading(e, done, x);
        FewBigits(bigits, x);
        SquareFive(e / bitmask % 2 == 1, x);
        x := x + x + e / bitmask % 2;
        done := bitmask;
        bitmask := bitmask / 2;
      }
      AllLeading(e, done, x);
      ShiftLeft(e);
      PowTen(e);
    }

    /** One bit of the exponent: 5^x is squared and, for a 1, multiplied by 5. */
    method SquareFive(odd: bool, ghost x: nat)
      requires exp == 0 && Normal() && V(bigits) == Pow(5, x) && |bigits| <= 0x7fff_ffff
      modifies this
      ensures exp == 0 && Normal() && V(bigits) == Pow(5, x + x + if odd then 1 else 0)
    {
      hide V, Pow;
      PowAdd(5, x, x);
      PowPositive(5, x + x);
      OneMore(5, x + x);
      Square();
      StillNormal(bigits);
      if odd {
        TimesSmall(5);
      }
    }

    // ----- comparison -----

    /** compare(b1, b2): exact for different values, except that a zero with a high exponent counts as larger;
        for equal values it compares the exponents, the number with more explicit low bigits being the larger. */
    static method Compare(b1: BigInt, b2: BigInt) returns (r: int)
      requires b1.Trimmed() && b2.Normal()
      ensures r == if !b1.Normal() && b1.NumBigits() > b2.NumBigits() then 1
                   else if b1.Value() != b2.Value() then Sign(b1.Value() - b2.Value())
                   else Sign(b2.exp - b1.exp)
    {
      hide V, Hi;
      ghost var f1, f2 := Full(b1.bigits, b1.exp), Full(b2.bigits, b2.exp);
      FullValue(b1.bigits, b1.exp);
      FullValue(b2.bigits, b2.exp);
      var n1, n2 := b1.NumBigits(), b2.NumBigits();
      if n1 != n2 {
        if b1.Normal() || n1 < n2 { LongerIsLarger(f1, f2); }
        return if n1 > n2 then 1 else -1;
      }
      var i, j := |b1.bigits| - 1, |b2.bigits| - 1;
      var end := if i - j < 0 then 0 else i - j;
      HiBeyond(f1, n1);
      HiBeyond(f2, n2);
      while i >= end
        invariant -1 <= i < |b1.bigits| && -1 <= j < |b2.bigits| && i + b1.exp == j + b2.exp
        invariant i - j == |b1.bigits| - |b2.bigits| && i >= end - 1
        invariant Hi(f1, i + 1 + b1.exp) == Hi(f2, i + 1 + b1.exp)
        decreases i
      {
        var p := i + b1.exp;
        HiStep(f1, p);
        HiStep(f2, p);
        assert f1[p] == b1.bigits[i] && f2[p] == b2.bigits[j];
        if b1.bigits[i] != b2.bigits[j] {
          HiLo(f1, p);
          HiLo(f2, p);
          ShiftMono(Hi(f1, p) + 1, Hi(f2, p), p);
          ShiftMono(Hi(f2, p) + 1, Hi(f1, p), p);
          return if b1.bigits[i] > b2.bigits[j] then 1 else -1;
        }
        i, j := i - 1, j - 1;
      }
      HiLo(f1, i + 1 + b1.exp);
      HiLo(f2, i + 1 + b1.exp);
      HiAtExp(b1.bigits, b1.exp, b1.exp);
      HiAtExp(b2.bigits, b2.exp, b2.exp);
      if i != j {
        return if i > j then 1 else -1;
      }
      return 0;
    }

    function GetBigit(i: int): bigit
      reads this
    {
      if i >= exp && i < NumBigits() then bigits[i - exp] else 0
    }

    /** add_compare: the exact sign of lhs1 + lhs2 - rhs, stopping as soon as it is decided. */
    static method AddCompare(lhs1: BigInt, lhs2: BigInt, rhs: BigInt) returns (r: int)
      requires lhs1.Trimmed() && lhs2.Trimmed() && rhs.Normal()
      requires lhs1.Normal() || lhs1.NumBigits() <= rhs.NumBigits()
      requires lhs2.Normal() || lhs2.NumBigits() <= rhs.NumBigits()
      ensures r == Sign(lhs1.Value() + lhs2.Value() - rhs.Value())
    {
      hide V, Hi, Shift;
      ghost var f1, f2, g := Full(lhs1.bigits, lhs1.exp), Full(lhs2.bigits, lhs2.exp), Full(rhs.bigits, rhs.exp);
      FullValue(lhs1.bigits, lhs1.exp);
      FullValue(lhs2.bigits, lhs2.exp);
      FullValue(rhs.bigits, rhs.exp);
      var maxLhs := if lhs1.NumBigits() > lhs2.NumBigits() then lhs1.NumBigits() else lhs2.NumBigits();
      var numRhs := rhs.NumBigits();
      if maxLhs + 1 < numRhs {
        SumTooShort(f1, f2, g);
        return -1;
      }
      if maxLhs > numRhs {
        if lhs1.NumBigits() == maxLhs { LongerIsLarger(f1, g); } else { LongerIsLarger(f2, g); }
        return 1;
      }
      var borrow := 0;
      var minExp := if lhs1.exp < lhs2.exp then lhs1.exp else lhs2.exp;
      minExp := if rhs.exp < minExp then rhs.exp else minExp;
      var i: int := numRhs - 1;
      HiBeyond(g, numRhs);
      HiBeyond(f1, numRhs);
      HiBeyond(f2, numRhs);
      while i >= minExp
        invariant minExp - 1 <= i < numRhs
        invariant 0 <= Hi(g, i + 1) - Hi(f1, i + 1) - Hi(f2, i + 1) <= 1
        invariant borrow == BASE * (Hi(g, i + 1) - Hi(f1, i + 1) - Hi(f2, i + 1))
        decreases i
      {
        HiStep(f1, i);
        HiStep(f2, i);
        HiStep(g, i);
        var sum := lhs1.GetBigit(i) + lhs2.GetBigit(i);
        var rhsBigit := rhs.GetBigit(i);
        assert Get(f1, i) == lhs1.GetBigit(i) && Get(f2, i) == lhs2.GetBigit(i) && Get(g, i) == rhs.GetBigit(i);
        if sum > rhsBigit + borrow {
          DecidedByHi(f1, f2, g, i);
          return 1;
        }
        borrow := rhsBigit + borrow - sum;
        if borrow > 1 {
          DecidedByHi(f1, f2, g, i);
          return -1;
        }
        borrow := borrow * BASE;
        i := i - 1;
      }
      HiAtExp(lhs1.bigits, lhs1.exp, minExp);
      HiAtExp(lhs2.bigits, lhs2.exp, minExp);
      HiAtExp(rhs.bigits, rhs.exp, minExp);
      SignOfShifted(Hi(f1, minExp), Hi(f2, minExp), Hi(g, minExp), minExp);
      return if borrow != 0 then -1 else 0;
    }

    // ----- subtraction and division -----

    /** subtract_bigits: two's complement on 64 bits, the borrow read off the top bit. */
    method SubtractBigits(index: nat, other: bigit, borrow: nat) returns (out: nat)
      requires index < |bigits| && borrow <= 1
      modifies this`bigits
      ensures var t := old(bigits)[index] - other - borrow;
              && bigits == old(bigits)[index := if t < 0 then t + BASE else t]
              && out == if t < 0 then 1 else 0
    {
      var result := (bigits[index] - other - borrow) % W64;
      WrapsAround(bigits[index] - other - borrow);
      bigits := bigits[index := result % BASE];
      out := result / 0x8000_0000_0000_0000;
    }

    /** The loop of subtract_aligned: the bigits from k on, less the other number's. */
    method SubtractFrom(other: BigInt, k: nat) returns (borrow: nat)
      requires this != other && k + |other.bigits| <= |bigits|
      modifies this`bigits
      ensures |bigits| == |old(bigits)| && borrow <= 1
      ensures var n := |other.bigits|;
              && bigits[..k] == old(bigits)[..k] && bigits[k + n..] == old(bigits)[k + n..]
              && SubLoop(old(bigits)[k..k + n], other.bigits, 0) == (bigits[k..k + n], borrow)
    {
      hide SubLoop;
      ghost var s := bigits;
      var n := |other.bigits|;
      ghost var mid := s[k..k + n];
      borrow := 0;
      var j := 0;
      assert mid[0..] == mid && other.bigits[0..] == other.bigits && bigits[k..k + 0] == [];
      ghost var all := SubLoop(mid, other.bigits, 0).0;
      assert [] + all == all;
      while j < n
        invariant 0 <= j <= n == |other.bigits| && borrow <= 1 && |bigits| == |s|
        invariant bigits[..k] == s[..k] && bigits[k + j..] == s[k + j..]
        invariant var (rest, out) := SubLoop(mid[j..], other.bigits[j..], borrow);
                  SubLoop(mid, other.bigits, 0) == (bigits[k..k + j] + rest, out)
      {
        ghost var done := bigits[k..k + j];
        assert bigits[k + j] == s[k + j..][0] == mid[j];
        SubLoopStep(mid, other.bigits, j, borrow, done);
        borrow := SubtractBigits(k + j, other.bigits[j], borrow);
        assert bigits[k..k + j + 1] == done + [bigits[k + j]];
        assert bigits[k + j + 1..] == s[k + j + 1..];
        j := j + 1;
      }
      SubDone(mid, other.bigits, borrow);
      assert bigits[k..k + n] + [] == bigits[k..k + n];
    }

    /** subtract_aligned: the borrow is propagated one bigit past the other number, which is enough when
        this number is at most one bigit longer. */
    method SubtractAligned(other: BigInt)
      requires this != other && bigits != [] && other.Normal()
      requires other.exp >= exp && Value() >= other.Value()
      requires NumBigits() <= other.NumBigits() + 1
      modifies this`bigits
      ensures Value() == old(Value()) - other.Value() && Trimmed()
      ensures NumBigits() <= old(NumBigits())
    {
      hide V, SubLoop, Shift;
      ghost var s := bigits;
      var n, k := |other.bigits|, other.exp - exp;
      LongEnough(s, exp, other.bigits, other.exp);
      var borrow := SubtractFrom(other, k);
      ghost var r := bigits[k..k + n];
      Borrowed(s, other.bigits, k, exp, r, borrow);
      assert bigits == s[..k] + r + s[k + n..];
      if borrow != 0 {
        borrow := SubtractBigits(k + n, 0, borrow);
        assert bigits == s[..k] + r + [s[k + n] - 1];
      }
      RemoveLeadingZeros();
    }

    /** divmod_assign: the floor quotient, leaving the remainder. When both numbers are equal but this one
        has the higher exponent, compare() calls it smaller and the quotient is 0. */
    method DivmodAssign(divisor: BigInt) returns (quotient: nat)
      requires this != divisor && divisor.Normal() && Trimmed()
      requires Normal() || (bigits == [0] && exp <= divisor.exp)
      requires Value() < 0x8000_0000 * divisor.Value()
      modifies this
      ensures divisor.Value() > 0
      ensures var skipped := old(Value()) == divisor.Value() && old(exp) > divisor.exp;
              && quotient == (if skipped then 0 else old(Value()) / divisor.Value())
              && Value() == old(Value()) - quotient * divisor.Value()
      ensures Trimmed() && (Normal() || (bigits == [0] && exp <= divisor.exp))
      ensures exp == if quotient == 0 || old(exp) <= divisor.exp then old(exp) else divisor.exp
    {
      hide V, Shift;
      PositiveValue(divisor.bigits, divisor.exp);
      ZeroOrNormal(bigits, exp);
      NotNegative(V(bigits), exp);
      ghost var v, d := Value(), divisor.Value();
      var c := Compare(this, divisor);
      if c < 0 {
        SmallQuotient(v, d);
        return 0;
      }
      Align(divisor);
      quotient := 0;
      while true
        invariant Trimmed() && Value() >= d && d > 0
        invariant exp == (if old(exp) <= divisor.exp then old(exp) else divisor.exp)
        invariant divisor.Normal() && divisor.Value() == d
        invariant v == quotient * d + Value() && quotient < 0x8000_0000
        decreases Value()
      {
        NoMore(v, quotient, d, Value());
        OneBigitLonger(bigits, exp, divisor.bigits, divisor.exp);
        SubtractAligned(divisor);
        NotNegative(V(bigits), exp);
        QuotientStep(v, quotient, d, Value());
        quotient := quotient + 1;
        ZeroOrNormal(bigits, exp);
        NotNegative(V(bigits), exp);
        c := Compare(this, divisor);
        if c < 0 { break; }
      }
      IsQuotient(v, d, quotient, Value());
    }
  }
}
