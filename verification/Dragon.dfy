/** Fixed-precision digit generation of deps/fmt/include/fmt/format.h. */
module Dragon {
  import opened BigArith
  import opened BigInts
  import opened BigSteps
  import opened DragonScale
  import opened DragonSteps
  import opened Rounding
  import opened ShortestSteps

  class CharBuffer {
    var data: seq<int>

    constructor ()
      ensures data == []
    {
      data := [];
    }

    method PushBack(c: int)
      modifies this
      ensures data == old(data) + [c]
    {
      data := data + [c];
    }

    /** Grows or cuts the buffer; new characters are unspecified. */
    method TryResize(count: nat)
      modifies this
      ensures |data| == count
      ensures forall k :: 0 <= k < count && k < |old(data)| ==> data[k] == old(data)[k]
    {
      if count <= |data| {
        data := data[..count];
      } else {
        data := data + seq(count - |data|, _ => 0);
      }
    }
  }

  /** Carries leftwards from an overflowed last digit; a carry out of the first digit adds a digit when
      fixed and raises the exponent otherwise. */
  method PropagateCarry(buf: CharBuffer, fixed: bool, exp10: int) returns (expOut: int)
    requires buf.data != [] && buf.data[|buf.data| - 1] == OVERFLOW
    requires AllDigits(buf.data[..|buf.data| - 1])
    modifies buf
    ensures AllDigits(buf.data) && exp10 <= expOut <= exp10 + 1
    ensures Tens(Denotes(buf.data), expOut - exp10) == Denotes(old(buf.data))
    ensures var n, carried := |old(buf.data)|, Denotes(old(buf.data)) == Tens(10, |old(buf.data)| - 1);
            && |buf.data| == (if carried && fixed then n + 1 else n)
            && expOut == if carried && !fixed then exp10 + 1 else exp10
  {
    hide Denotes, Tens;
    var i := |buf.data| - 1;
    ghost var total := Denotes(buf.data);
    while i > 0 && buf.data[i] == OVERFLOW
      invariant 0 <= i < |buf.data| == |old(buf.data)| && Denotes(buf.data) == total
      invariant forall k :: 0 <= k < i ==> ZERO <= buf.data[k] <= ZERO + 9
      invariant forall k :: i < k < |buf.data| ==> buf.data[k] == ZERO
      invariant ZERO <= buf.data[i] <= OVERFLOW
    {
      CarryKeeps(buf.data, i);
      buf.data := buf.data[i := ZERO][i - 1 := buf.data[i - 1] + 1];
      i := i - 1;
    }
    expOut := exp10;
    if buf.data[0] == OVERFLOW {
      AllNines(buf.data);
      buf.data := buf.data[0 := ZERO + 1];
      if fixed {
        DenotesLast(buf.data, ZERO);
        buf.PushBack(ZERO);
      } else {
        expOut := expOut + 1;
      }
    } else {
      NotAllNines(buf.data);
    }
    TensSmall(Denotes(buf.data));
  }

  /** The numbers a digit run works on: the division loop can be called on them. */
  ghost predicate Ready(numerator: BigInt, denominator: BigInt)
    reads numerator, denominator
  {
    && numerator != denominator && denominator.Normal() && numerator.Trimmed()
    && (numerator.Normal() || (numerator.bigits == [0] && numerator.exp <= denominator.exp))
  }

  ghost function StartOf(numerator: BigInt, denominator: BigInt): Start
    requires numerator.Value() >= 0 && denominator.Value() >= 0
    reads numerator, denominator
  {
    Start(numerator.Value(), denominator.Value(), numerator.exp, denominator.exp)
  }

  /** All digits but the last: divide, store the digit, multiply the remainder by ten. */
  method LeadingDigits(numerator: BigInt, denominator: BigInt, count: nat, buf: CharBuffer, ghost r: Start)
    returns (ghost hit: int)
    requires Ready(numerator, denominator) && denominator.Value() == r.d && denominator.exp == r.dexp && r.d > 0
    requires numerator.Value() == r.n && numerator.exp == r.exp && r.n < 10 * r.d
    requires |buf.data| == count + 1
    modifies numerator, buf
    ensures Ready(numerator, denominator)
    ensures |buf.data| == count + 1
    ensures Progress(r, buf.data[..count], numerator.Value(), numerator.exp, hit)
  {
    hide Progress, BigArith.V, BigArith.Shift;
    FirstProgress(r);
    hit := -1;
    var i := 0;
    assert buf.data[..0] == [];
    while i < count
      invariant 0 <= i <= count && |buf.data| == count + 1
      invariant Ready(numerator, denominator)
      invariant denominator.Value() == r.d && denominator.exp == r.dexp
      invariant Progress(r, buf.data[..i], numerator.Value(), numerator.exp, hit)
    {
      ghost var done, n, exp := buf.data[..i], numerator.Value(), numerator.exp;
      Bounded(r, done, n, exp, hit);
      var digit := numerator.DivmodAssign(denominator);
      ghost var rest := numerator.Value();
      NextDigit(r, done, n, exp, hit, digit, rest, numerator.exp);
      buf.data := buf.data[i := ZERO + digit];
      assert buf.data[..i + 1] == done + [ZERO + digit];
      numerator.TimesSmall(10);
      hit := HitAfter(r, done, n, exp, hit);
      i := i + 1;
    }
  }

  /** The given number of digits, rounded half to even. */
  method FixedDigits(numerator: BigInt, denominator: BigInt, fixed: bool, numDigits: nat, exp10: int, buf: CharBuffer)
    returns (expOut: int)
    requires numDigits > 0 && Ready(numerator, denominator)
    requires 0 <= numerator.Value() < 10 * denominator.Value()
    modifies numerator, buf
    ensures Rounded(old(StartOf(numerator, denominator)), numDigits, buf.data, expOut - exp10, fixed)
  {
    hide Progress, BigArith.V, BigArith.Shift, Denotes, Tens, RoundHalfEven, NoSkip;
    ghost var r := StartOf(numerator, denominator);
    buf.TryResize(numDigits);
    ghost var hit := LeadingDigits(numerator, denominator, numDigits - 1, buf, r);
    ghost var s, n, exp := buf.data[..numDigits - 1], numerator.Value(), numerator.exp;
    Bounded(r, s, n, exp, hit);
    var digit := numerator.DivmodAssign(denominator);
    ghost var rest, exp' := numerator.Value(), numerator.exp;
    var result := BigInt.AddCompare(numerator, numerator, denominator);
    expOut := exp10;
    if result > 0 || (result == 0 && digit % 2 != 0) {
      if digit == 9 {
        CarryStart(r, s, n, exp, hit, digit, rest, exp');
        buf.data := buf.data[numDigits - 1 := OVERFLOW];
        assert buf.data == s + [OVERFLOW] && buf.data[..numDigits - 1] == s;
        expOut := PropagateCarry(buf, fixed, exp10);
        return;
      }
      PlainEnd(r, s, n, exp, hit, digit, rest, exp', fixed);
      digit := digit + 1;
    } else {
      PlainEnd(r, s, n, exp, hit, digit, rest, exp', fixed);
    }
    buf.data := buf.data[numDigits - 1 := ZERO + digit];
    assert buf.data == s + [ZERO + digit];
  }

  /** No digit left to print: one character for the rounding of a value below one unit. */
  method NoDigits(numerator: BigInt, denominator: BigInt, numDigits: int, buf: CharBuffer)
    requires numDigits <= 0 && Ready(numerator, denominator)
    requires 0 <= numerator.Value() < 10 * denominator.Value()
    modifies denominator, buf
    ensures var n, d := old(numerator.Value()), old(denominator.Value());
            && d * Pow(10, 1 - numDigits) > 0
            && buf.data == old(buf.data) + [ZERO + RoundHalfEven(n, d * Pow(10, 1 - numDigits))]
  {
    hide BigArith.V, BigArith.Shift, RoundHalfEven, Pow;
    NoDigitLeft(numerator.Value(), denominator.Value(), numDigits);
    var digit := ZERO;
    if numDigits == 0 {
      denominator.TimesSmall(10);
      var c := BigInt.AddCompare(numerator, numerator, denominator);
      digit := if c > 0 then ZERO + 1 else ZERO;
    }
    buf.PushBack(digit);
  }

  // ----- the shortest representation -----

  /** numerator <[=] lower, as compare() answers it: a zero that reaches higher than lower counts as larger, and
      a tie goes by the exponents. */
  method BelowLow(numerator: BigInt, lower: BigInt, even: bool) returns (low: bool)
    requires numerator.Trimmed() && lower.Normal()
    ensures low == if numerator.Value() == 0 && 1 + numerator.exp > lower.NumBigits() then false
                   else if numerator.Value() == lower.Value() then
                     (if even then lower.exp <= numerator.exp else lower.exp < numerator.exp)
                   else numerator.Value() < lower.Value()
  {
    hide BigArith.V, BigArith.Shift;
    ZeroOrNormal(numerator.bigits, numerator.exp);
    if numerator.Normal() { PositiveValue(numerator.bigits, numerator.exp); }
    PositiveValue(lower.bigits, lower.exp);
    var c := BigInt.Compare(numerator, lower);
    low := c - (if even then 1 else 0) < 0;
  }

  /** numerator + upper >[=] denominator. */
  method AboveHigh(numerator: BigInt, upper: BigInt, denominator: BigInt, even: bool) returns (high: bool)
    requires Ready(numerator, denominator) && upper.Normal()
    ensures var sum := numerator.Value() + upper.Value();
            high == if even then sum >= denominator.Value() else sum > denominator.Value()
  {
    hide BigArith.V, BigArith.Shift;
    var c := BigInt.AddCompare(numerator, upper, denominator);
    high := c + (if even then 1 else 0) > 0;
  }

  /** The last digit of a shortest representation: up when only that is inside, to the nearer side when both
      are, half to even. */
  method LastShortest(numerator: BigInt, denominator: BigInt, low: bool, high: bool, digit: nat) returns (up: bool)
    requires Ready(numerator, denominator) && (low || high)
    ensures up ==> high
    ensures !up ==> low
    ensures low && high ==> up == RoundsUp(denominator.Value(), digit, numerator.Value())
  {
    hide BigArith.V, BigArith.Shift;
    up := !low;
    if low && high {
      var result := BigInt.AddCompare(numerator, numerator, denominator);
      up := result > 0 || (result == 0 && digit % 2 != 0);
    }
  }

  method TenTimes(numerator: BigInt, lower: BigInt, upper: BigInt)
    requires numerator.Trimmed() && lower.Normal() && upper.Normal() && lower != numerator && upper != numerator
    modifies numerator`bigits, lower`bigits, upper`bigits
    ensures numerator.Value() == old(numerator.Value()) * 10 && numerator.Trimmed()
    ensures old(numerator.Normal()) ==> numerator.Normal()
    ensures old(numerator.bigits) == [0] ==> numerator.bigits == [0]
    ensures lower.Value() == old(lower.Value()) * 10 && upper.Value() == old(upper.Value()) * 10
    ensures lower.Normal() && upper.Normal()
  {
    hide BigArith.V, BigArith.Shift;
    numerator.TimesSmall(10);
    lower.TimesSmall(10);
    if upper != lower { upper.TimesSmall(10); }
  }

  /** The exponent of the numerator once a digit is not zero. */
  function Settled(exp: nat, divisorExp: nat): nat {
    if exp <= divisorExp then exp else divisorExp
  }

  /** One division and the two tests, as the loop makes them after the digits s. */
  method TakeDigit(numerator: BigInt, denominator: BigInt, lower: BigInt, upper: BigInt, even: bool,
                   ghost g: Gaps, ghost s: seq<int>, ghost exp: nat, ghost lowBits: nat)
    returns (digit: nat, low: bool, high: bool)
    requires Ready(numerator, denominator) && lower.Normal() && upper.Normal() && denominator.Value() == g.d
    requires numerator != lower && numerator != upper && g.even == even && g.low < g.n && Denotes(s) >= 0
    requires Going(g, s, numerator.Value(), lower.Value(), upper.Value())
    requires exp <= lower.exp + 1 && (exp <= lower.exp || 10 * g.low >= BigArith.Shift(1, exp))
    requires numerator.exp == if Denotes(s) == 0 then exp else Settled(exp, denominator.exp)
    requires s == [] ==> lower.NumBigits() == lowBits
    requires lowBits > lower.exp
    modifies numerator
    ensures Ready(numerator, denominator)
    ensures var n, rest, whole := old(numerator.Value()), numerator.Value(), Denotes(s + [ZERO + digit]);
            var settled := Settled(exp, denominator.exp);
            && Split(g, n, digit, rest) && Parts(g, |s|, whole, rest) && whole >= 0 && digit % 2 == whole % 2
            && numerator.exp == (if whole == 0 then exp else settled)
            && (rest == g.d ==> settled < lowBits)
            && low == Judged(g, settled - lower.exp, settled >= lowBits && |s| == 0, rest, Tens(g.low, |s|))
            && high == HighTrue(g, rest, Tens(g.up, |s|))
  {
    hide BigArith.V, BigArith.Shift, Going, Parts, Judged, Tens, Denotes;
    ghost var n, l, u, settled := numerator.Value(), lower.Value(), upper.Value(), Settled(exp, denominator.exp);
    GoingBounds(g, s, n, l, u);
    digit := numerator.DivmodAssign(denominator);
    ghost var rest, whole := numerator.Value(), Denotes(s + [ZERO + digit]);
    PartsAt(g, s, n, l, u, digit, rest);
    LowerBigits(g, |s|, lower.bigits, lower.exp, exp);
    JudgedBy(g, settled - lower.exp, settled >= lowBits, |s|, whole, rest, numerator.exp, settled, lower.exp, lower.NumBigits());
    low := BelowLow(numerator, lower, even);
    high := AboveHigh(numerator, upper, denominator, even);
  }

  /** Digits until a test holds: the decimal lies between the midpoints, and it reads back with no shorter one
      doing so exactly when no length is bad. */
  method ShortestDigits(numerator: BigInt, denominator: BigInt, lower: BigInt, upper: BigInt, even: bool, exp10: int,
                        buf: CharBuffer, ghost g: Gaps)
    returns (expOut: int)
    requires Ready(numerator, denominator) && lower.Normal() && upper.Normal()
    requires lower != numerator && lower != denominator && upper != numerator && upper != denominator
    requires g.n == numerator.Value() && g.d == denominator.Value() && g.low == lower.Value() && g.up == upper.Value()
    requires g.even == even && g.low < g.n
    requires Going(g, [], g.n, g.low, g.up) && NoShorter(g, 0)
    requires numerator.exp <= lower.exp + 1
    requires numerator.exp <= lower.exp || 10 * lower.Value() >= BigArith.Shift(1, numerator.exp)
    modifies numerator, lower, upper, buf
    ensures buf.data != [] && AllDigits(buf.data) && expOut == exp10 - (|buf.data| - 1)
    ensures Within(g, |buf.data| - 1, Denotes(buf.data))
    ensures var settled := Settled(old(numerator.exp), denominator.exp);
            Good(g, |buf.data| - 1, Denotes(buf.data))
            <==> AllGood(g, settled - old(lower.exp), settled >= old(lower.NumBigits()))
  {
    hide BigArith.V, BigArith.Shift, Going, Parts, Split, Judged, Inside, Within, NoShorter, NeverBad, BadAt, AllGood, Good,
         Tens, Denotes, AllDigits, LowTrue, HighTrue, RoundsUp, Settled;
    ghost var exp, lowBits := numerator.exp, lower.NumBigits();
    ghost var settled := Settled(exp, denominator.exp);
    ghost var skew, zeroHigh := settled - lower.exp, settled >= lowBits;
    buf.data := [];
    FirstState(g, skew, zeroHigh);
    while true
      invariant Ready(numerator, denominator) && lower.Normal() && upper.Normal() && denominator.Value() == g.d
      invariant lower.exp == old(lower.exp) && (buf.data == [] ==> lower.NumBigits() == lowBits)
      invariant Denotes(buf.data) >= 0 && numerator.exp == if Denotes(buf.data) == 0 then exp else settled
      invariant Going(g, buf.data, numerator.Value(), lower.Value(), upper.Value())
      invariant NoShorter(g, |buf.data|) <==> NeverBad(g, skew, zeroHigh, |buf.data|)
      decreases 10 * g.d - upper.Value()
    {
      ghost var s, n, l, u := buf.data, numerator.Value(), lower.Value(), upper.Value();
      GoingBounds(g, s, n, l, u);
      var digit, low, high := TakeDigit(numerator, denominator, lower, upper, even, g, s, exp, lowBits);
      ghost var rest, whole := numerator.Value(), Denotes(s + [ZERO + digit]);
      if low || high {
        var up := LastShortest(numerator, denominator, low, high, digit);
        Stopped(g, skew, zeroHigh, s, n, l, u, digit, rest, low, high, up);
        buf.data := buf.data + [if up then ZERO + digit + 1 else ZERO + digit];
        expOut := exp10 - (|buf.data| - 1);
        return;
      }
      Continued(g, skew, zeroHigh, s, n, l, u, digit, rest, low, high);
      buf.PushBack(ZERO + digit);
      TenTimes(numerator, lower, upper);
    }
  }

  /** The fraction and the half gaps to the neighbouring values represent f, one unit in the last place to
      the next value and the gap to the previous one, which is half of that when the predecessor is closer. */
  ghost predicate Prepared(numerator: BigInt, denominator: BigInt, lower: BigInt, upper: BigInt,
                           f: nat, e: int, closer: bool, exp10: int)
    reads numerator, denominator, lower, upper
  {
    && numerator != denominator && upper != numerator && upper != denominator
    && lower != numerator && lower != denominator
    && numerator.Normal() && denominator.Normal() && lower.Normal() && upper.Normal()
    && Represents(numerator.Value(), denominator.Value(), f, e, exp10)
    && Represents(2 * upper.Value(), denominator.Value(), 1, e, exp10)
    && Represents((if closer then 4 else 2) * lower.Value(), denominator.Value(), 1, e, exp10)
    && var shift := if closer then 2 else 1;
       if e >= 0 then
         && numerator.exp == (e + shift) / 32 && denominator.exp == exp10 / 32
         && lower.exp == e / 32 && |lower.bigits| == 1 && lower.Value() == Pow(2, e)
       else if exp10 < 0 then numerator.exp == lower.exp == -exp10 / 32 && denominator.exp == (shift - e) / 32
       else numerator.exp == lower.exp == 0
  }

  /** 1 shifted left. */
  method PowerOfTwo(k: nat) returns (b: BigInt)
    ensures fresh(b) && b.Normal() && b.Value() == Pow(2, k) && b.exp == k / 32 && |b.bigits| == 1
  {
    b := new BigInt();
    b.Assign(1);
    b.ShiftLeft(k);
    OneBigit(b.bigits, k);
  }

  /** A copy shifted left by one. */
  method Doubled(other: BigInt) returns (b: BigInt)
    requires other.Normal()
    ensures fresh(b) && b.Normal() && b.Value() == other.Value() * Pow(2, 1)
  {
    b := new BigInt();
    b.AssignFrom(other);
    b.ShiftLeft(1);
  }

  method SetUpIntegral(f: nat, e: nat, closer: bool, exp10: nat)
    returns (numerator: BigInt, denominator: BigInt, lower: BigInt, upper: BigInt)
    requires 0 < f < W128 && exp10 <= INT_MAX
    ensures fresh(numerator) && fresh(denominator) && fresh(lower) && fresh(upper)
    ensures Prepared(numerator, denominator, lower, upper, f, e, closer, exp10)
  {
    hide BigArith.V, BigArith.Shift, Represents, Pow;
    numerator := new BigInt();
    denominator := new BigInt();
    var shift := if closer then 2 else 1;
    numerator.Assign(f);
    numerator.ShiftLeft(e + shift);
    lower := PowerOfTwo(e);
    upper := lower;
    if closer { upper := PowerOfTwo(e + 1); }
    denominator.AssignPow10(exp10);
    denominator.ShiftLeft(shift);
    SetUpLarge(f, e, exp10, shift);
    SetUpLarge(1, e, exp10, shift);
    OneDoubled(e, shift);
  }

  /** A power of ten, and f times it shifted. */
  method PowerAndMultiple(p: nat, f: nat, shift: nat) returns (numerator: BigInt, power: BigInt)
    requires 0 < f < W128 && 0 < p < 0x8000_0000 && shift < 32
    ensures fresh(numerator) && fresh(power) && numerator != power && numerator.Normal() && power.Normal()
    ensures power.Value() == Pow(10, p) && numerator.Value() == Pow(10, p) * f * Pow(2, shift)
    ensures numerator.exp == power.exp == p / 32
  {
    hide BigArith.V, BigArith.Shift, Pow;
    numerator := new BigInt();
    power := new BigInt();
    numerator.AssignPow10(p);
    power.AssignFrom(numerator);
    numerator.TimesWide(f, true);
    numerator.ShiftLeft(shift);
  }

  method SetUpTiny(f: nat, e: int, closer: bool, exp10: int)
    returns (numerator: BigInt, denominator: BigInt, lower: BigInt, upper: BigInt)
    requires 0 < f < W128 && -0x8000_0000 < exp10 < 0 && e < 0
    ensures fresh(numerator) && fresh(denominator) && fresh(lower) && fresh(upper)
    ensures Prepared(numerator, denominator, lower, upper, f, e, closer, exp10)
  {
    hide BigArith.V, BigArith.Shift, Represents, Pow;
    var shift := if closer then 2 else 1;
    SetUpSmall(f, e, exp10, shift);
    SetUpSmall(1, e, exp10, shift);
    SmallPowers();
    numerator, lower := PowerAndMultiple(-exp10, f, shift);
    upper := lower;
    if closer { upper := Doubled(lower); }
    denominator := PowerOfTwo(shift - e);
  }

  method SetUpFraction(f: nat, e: int, closer: bool, exp10: nat)
    returns (numerator: BigInt, denominator: BigInt, lower: BigInt, upper: BigInt)
    requires 0 < f < W128 && exp10 < 0x8000_0000 && e < 0
    ensures fresh(numerator) && fresh(denominator) && fresh(lower) && fresh(upper)
    ensures Prepared(numerator, denominator, lower, upper, f, e, closer, exp10)
  {
    hide BigArith.V, BigArith.Shift, Represents, Pow;
    var shift := if closer then 2 else 1;
    SetUpMixed(f, e, exp10, shift);
    SetUpMixed(1, e, exp10, shift);
    SmallPowers();
    numerator := new BigInt();
    denominator := new BigInt();
    lower := new BigInt();
    upper := lower;
    numerator.Assign(f);
    numerator.ShiftLeft(shift);
    denominator.AssignPow10(exp10);
    denominator.ShiftLeft(shift - e);
    lower.Assign(1);
    if closer {
      upper := new BigInt();
      upper.Assign(2);
    }
  }

  /** The part after the fixup: the digits of numerator / denominator, which represents the value. */
  method PrintDigits(numerator: BigInt, denominator: BigInt, fixed: bool, count: int, x: int, buf: CharBuffer,
                     ghost f: nat, ghost e: int, ghost shift: nat, ghost estimate: int)
    returns (expOut: int)
    requires Ready(numerator, denominator) && 0 <= numerator.Value() < 10 * denominator.Value()
    requires Represents(numerator.Value(), denominator.Value(), f, e, x)
    requires numerator.exp > denominator.exp <==> e >= 0 && (e + shift) / 32 > estimate / 32
    modifies numerator, denominator, buf
    ensures count <= 0 ==> expOut == x - (count - 1) && buf.data == old(buf.data) + [ZERO + Nearest(f, e, expOut)]
    ensures count > 0 ==> Printed(f, e, x, count, buf.data, expOut, fixed, PowerSkipped(f, e, shift, estimate, x, count))
  {
    hide BigArith.V, BigArith.Shift, Represents, Pow, Nearest, Printed, PowerSkipped, Rounded, RoundHalfEven;
    ghost var r := StartOf(numerator, denominator);
    expOut := x - (count - 1);
    if count <= 0 {
      RoundedAtUnit(r.n, r.d, f, e, x, count - 1);
      PowZero();
      NoDigits(numerator, denominator, count, buf);
    } else {
      expOut := FixedDigits(numerator, denominator, fixed, count, expOut, buf);
      RoundedIsPrinted(r, f, e, x, count, buf.data, expOut - (x - (count - 1)), fixed, shift, estimate);
    }
  }

  /** The shortest branch after the fixup. */
  method PrintShortest(numerator: BigInt, denominator: BigInt, lower: BigInt, upper: BigInt, even: bool, x: int,
                       buf: CharBuffer, ghost f: nat, ghost e: int, ghost closer: bool, ghost fixup: bool, ghost estimate: int)
    returns (expOut: int)
    requires Ready(numerator, denominator) && lower.Normal() && upper.Normal()
    requires lower != numerator && lower != denominator && upper != numerator && upper != denominator
    requires numerator.Value() >= 0 && denominator.Value() >= 0 && lower.Value() >= 0 && upper.Value() >= 0
    requires x == FinalExponent(f, e, fixup, estimate)
    requires var g := Gaps(numerator.Value(), denominator.Value(), lower.Value(), upper.Value(), even);
             g.low < g.n && f > 0 && Fits(g, f, e, closer, x) && Going(g, [], g.n, g.low, g.up) && NoShorter(g, 0)
    requires Aligned(numerator, denominator, lower, e, closer, estimate)
    requires var settled := Settled(numerator.exp, denominator.exp);
             settled >= lower.NumBigits() <==> e >= 0 && Skew(e, closer, estimate) > 0 && x == estimate
    modifies numerator, lower, upper, buf
    ensures f > 0 && ShortestPrinted(f, e, closer, x, buf.data, expOut, Misjudged(f, e, closer, fixup, estimate))
  {
    hide BigArith.V, BigArith.Shift, Fits, Going, NoShorter, Inside, Within, ShortestPrinted, Denotes, BadAt, Good, Skew,
         Misjudged, FinalExponent;
    ghost var g := Gaps(numerator.Value(), denominator.Value(), lower.Value(), upper.Value(), even);
    ghost var settled := Settled(numerator.exp, denominator.exp);
    ghost var skew, zeroHigh := settled - lower.exp, settled >= lower.NumBigits();
    expOut := ShortestDigits(numerator, denominator, lower, upper, even, x, buf, g);
    if e >= 0 {
      BadIsMisjudged(g, zeroHigh, f, e, closer, fixup, estimate);
    } else {
      NothingBad(g, skew, zeroHigh);
      NotMisjudged(f, e, closer, fixup, estimate);
    }
    ResultIsPrinted(g, buf.data, f, e, closer, x, Misjudged(f, e, closer, fixup, estimate));
  }

  /** How the implicit zero bigits of the three numbers lie. */
  ghost predicate Aligned(numerator: BigInt, denominator: BigInt, lower: BigInt, e: int, closer: bool, estimate: int)
    reads numerator, denominator, lower
  {
    && numerator.exp <= lower.exp + 1
    && (numerator.exp <= lower.exp || 10 * lower.Value() >= BigArith.Shift(1, numerator.exp))
    && Settled(numerator.exp, denominator.exp) - lower.exp == if e >= 0 then Skew(e, closer, estimate) else 0
  }

  /** The three ways to set up, chosen by the signs of the exponents, and how the implicit zeros then lie. */
  method SetUp(f: nat, e: int, closer: bool, exp10: int)
    returns (numerator: BigInt, denominator: BigInt, lower: BigInt, upper: BigInt)
    requires 0 < f < W128 && -0x8000_0000 < exp10 < INT_MAX && (e >= 0 ==> exp10 >= 0)
    requires Top(f, e, exp10 + 1) < Bottom(e, exp10 + 1)
    ensures fresh(numerator) && fresh(denominator) && fresh(lower) && fresh(upper)
    ensures Prepared(numerator, denominator, lower, upper, f, e, closer, exp10)
    ensures numerator.Value() > 0 && denominator.Value() > 0 && lower.Value() > 0 && upper.Value() > 0
    ensures Aligned(numerator, denominator, lower, e, closer, exp10) && (e >= 0 ==> |lower.bigits| == 1)
    ensures lower.Value() < numerator.Value()
    ensures numerator.exp > denominator.exp <==> e >= 0 && (e + (if closer then 2 else 1)) / 32 > exp10 / 32
  {
    hide BigArith.V, BigArith.Shift, Represents, Pow, Top, Bottom;
    if e >= 0 {
      numerator, denominator, lower, upper := SetUpIntegral(f, e, closer, exp10);
    } else if exp10 < 0 {
      numerator, denominator, lower, upper := SetUpTiny(f, e, closer, exp10);
      NegativeExponents(f, e, exp10);
    } else {
      numerator, denominator, lower, upper := SetUpFraction(f, e, closer, exp10);
    }
    PositiveValue(numerator.bigits, numerator.exp);
    PositiveValue(denominator.bigits, denominator.exp);
    PositiveValue(upper.bigits, upper.exp);
    PositiveValue(lower.bigits, lower.exp);
    if e >= 0 { TenPowerOfTwo(e, if closer then 2 else 1); }
    LowBelow(numerator.Value(), lower.Value(), denominator.Value(), f, e, exp10, if closer then 4 else 2);
  }

  /** The estimate is one too high when numerator + upper stays below the denominator; then everything the branches
      need is multiplied by ten. */
  method FixUp(numerator: BigInt, denominator: BigInt, lower: BigInt, upper: BigInt, even: bool, shortest: bool)
    returns (lowered: bool)
    requires numerator.Normal() && denominator.Normal() && lower.Normal() && upper.Normal()
    requires numerator != denominator && lower != numerator && lower != denominator && upper != numerator && upper != denominator
    modifies numerator`bigits, lower`bigits, upper`bigits
    ensures var sum := old(numerator.Value() + upper.Value());
            lowered == if even then sum < denominator.Value() else sum <= denominator.Value()
    ensures numerator.Normal() && lower.Normal() && upper.Normal() && denominator.Normal()
    ensures denominator.Value() == old(denominator.Value())
    ensures numerator.Value() == old(numerator.Value()) * if lowered then 10 else 1
    ensures shortest ==> lower.Value() == old(lower.Value()) * if lowered then 10 else 1
    ensures shortest ==> upper.Value() == old(upper.Value()) * if lowered then 10 else 1
    ensures !lowered ==> lower.bigits == old(lower.bigits)
  {
    hide BigArith.V, BigArith.Shift;
    var c := BigInt.AddCompare(numerator, upper, denominator);
    lowered := c + (if even then 1 else 0) <= 0;
    if lowered {
      if shortest {
        TenTimes(numerator, lower, upper);
      } else {
        numerator.TimesSmall(10);
      }
    }
  }

  /** The fixup and the shortest branch; a negative precision is never adjusted beyond an int. */
  method FormatShortest(numerator: BigInt, denominator: BigInt, lower: BigInt, upper: BigInt,
                        f: nat, e: int, closer: bool, fixup: bool, exp10: int, buf: CharBuffer)
    returns (expOut: int)
    requires 0 < f && TooHigh(f, e, exp10 + 1) && Top(f, e, exp10 + 1) < Bottom(e, exp10 + 1)
    requires Prepared(numerator, denominator, lower, upper, f, e, closer, exp10)
    requires numerator.Value() > 0 && denominator.Value() > 0 && lower.Value() > 0 && upper.Value() > 0
    requires Aligned(numerator, denominator, lower, e, closer, exp10) && (e >= 0 ==> |lower.bigits| == 1)
    requires lower.Value() < numerator.Value()
    modifies numerator, lower, upper, buf
    ensures var x := FinalExponent(f, e, fixup, exp10);
            ShortestPrinted(f, e, closer, x, buf.data, expOut, Misjudged(f, e, closer, fixup, exp10))
  {
    hide BigArith.V, BigArith.Shift, Represents, Pow, Top, Bottom, TooHigh, Fits, Going, NoShorter, ShortestPrinted, Skew,
         Misjudged, FinalExponent;
    var x := exp10;
    ghost var n, u, l, d := numerator.Value(), upper.Value(), lower.Value(), denominator.Value();
    Started(n, u, l, d, f, e, closer, fixup, exp10);
    if fixup {
      var lowered := FixUp(numerator, denominator, lower, upper, f % 2 == 0, true);
      if lowered {
        x := x - 1;
        StillAligned(lower.bigits, lower.exp, l, numerator.exp);
      }
    }
    expOut := PrintShortest(numerator, denominator, lower, upper, f % 2 == 0, x, buf, f, e, closer, fixup, exp10);
  }

  /** format_dragon. With a precision the printed digits and exponent denote f * 2^e rounded half to even, in fixed
      notation to that many places behind the point and otherwise to that many digits; with a
      negative one they are the shortest decimal that reads back as f * 2^e, exactly when not misjudged. */
  method FormatDragon(f: nat, e: int, closer: bool, fixup: bool, fixed: bool, precision: int, exp10: int, buf: CharBuffer)
    returns (ok: bool, expOut: int)
    requires Callable(f, e, precision, exp10)
    modifies buf
    ensures var x := FinalExponent(f, e, fixup, exp10);
            && ok == !(fixup && fixed && x + 1 > 0 && precision > INT_MAX - (x + 1))
            && (!ok ==> buf.data == old(buf.data))
            && (precision < 0 ==> ok && ShortestPrinted(f, e, closer, x, buf.data, expOut, Misjudged(f, e, closer, fixup, exp10)))
            && (ok && precision >= 0 ==>
                  var last := if fixup && fixed then -precision else x - (precision - 1);
                  if x < last then expOut == last && buf.data == old(buf.data) + [ZERO + Nearest(f, e, last)]
                  else Printed(f, e, x, x - last + 1, buf.data, expOut, fixed,
                               PowerSkipped(f, e, if closer then 2 else 1, exp10, x, x - last + 1)))
    ensures ok && precision >= 0 && fixup && fixed ==>
              && expOut == -precision
              && if FinalExponent(f, e, fixup, exp10) < -precision
                 then buf.data == old(buf.data) + ['0' as int + Nearest(f, e, -precision)]
                 else Denotes(buf.data) == Nearest(f, e, -precision)
    ensures precision > 0 && !fixed ==> |buf.data| == precision
  {
    hide BigArith.V, BigArith.Shift, Represents, Pow, Top, Bottom, Printed, PowerSkipped, Nearest, TooHigh,
         Fits, Going, NoShorter, ShortestPrinted, Skew, Misjudged;
    var numerator, denominator, lower, upper := SetUp(f, e, closer, exp10);
    ok := true;
    if precision < 0 {
      expOut := FormatShortest(numerator, denominator, lower, upper, f, e, closer, fixup, exp10, buf);
    } else {
      var x, count := exp10, precision;
      AfterFixup(numerator.Value(), upper.Value(), denominator.Value(), f, e, fixup, exp10);
      if fixup {
        var lowered := FixUp(numerator, denominator, lower, upper, f % 2 == 0, false);
        if lowered { x := x - 1; }
        if fixed {
          if x + 1 > 0 && count > INT_MAX - (x + 1) { return false, x; }
          count := count + (x + 1);
        }
      }
      expOut := PrintDigits(numerator, denominator, fixed, count, x, buf, f, e, if closer then 2 else 1, exp10);
      if count > 0 {
        PrintedIs(f, e, x, count, buf.data, expOut, fixed, PowerSkipped(f, e, if closer then 2 else 1, exp10, x, count));
      }
    }
  }
}
