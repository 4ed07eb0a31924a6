/** The decimal writer of deps/fmt/include/fmt/format.h: two digits at a time, right-aligned, and for 32-bit
    values a multiplication modulo 2^64 in place of the division by 100. */
module Decimal {

  const W64: nat := 0x1_0000_0000_0000_0000

  /** 2^39 / 100 + 1. */
  const CENT: nat := 5497558139

  /** 100 << 25: from here on value * CENT exceeds 2^64. */
  const THRESHOLD: nat := 0xC800_0000

  function Digit(d: nat): char
    requires d < 10
  {
    '0' + d as char
  }

  /** The decimal representation without leading zeros. */
  function DecimalDigits(v: nat): (s: string)
    ensures s != []
  {
    if v < 10 then [Digit(v)] else DecimalDigits(v / 10) + [Digit(v % 10)]
  }

  // ----- what the digits mean -----

  predicate IsNumeral(s: string) {
    s != [] && (forall i :: 0 <= i < |s| ==> '0' <= s[i] <= '9') && (|s| > 1 ==> s[0] != '0')
  }

  function NumeralValue(s: string): int {
    if s == [] then 0 else NumeralValue(s[..|s| - 1]) * 10 + (s[|s| - 1] as int - '0' as int)
  }

  /** The digits are the numeral of the value. */
  lemma {:induction false} DigitsDenote(v: nat)
    ensures IsNumeral(DecimalDigits(v)) && NumeralValue(DecimalDigits(v)) == v
    ensures v > 0 ==> DecimalDigits(v)[0] != '0'
  {
    var s := DecimalDigits(v);
    if v < 10 {
      assert s[..0] == [];
    } else {
      DigitsDenote(v / 10);
      assert s[..|s| - 1] == DecimalDigits(v / 10);
    }
  }

  /** And the only numeral of that value. */
  lemma {:induction false} OnlyNumeral(s: string)
    requires IsNumeral(s)
    ensures NumeralValue(s) >= 0 && DecimalDigits(NumeralValue(s)) == s
    ensures s[0] != '0' ==> NumeralValue(s) > 0
    decreases |s|
  {
    hide DecimalDigits, Digit;
    var front, d := s[..|s| - 1], s[|s| - 1] as int - '0' as int;
    DigitOf(s[|s| - 1]);
    assert s == front + [Digit(d)];
    if front == [] {
      assert NumeralValue(front) == 0;
      OneDigit(d);
    } else {
      FrontIsNumeral(s);
      OnlyNumeral(front);
      OneDigitMore(NumeralValue(front), d);
    }
  }

  lemma FrontIsNumeral(s: string)
    requires IsNumeral(s) && |s| > 1
    ensures IsNumeral(s[..|s| - 1]) && s[..|s| - 1][0] != '0'
  {
  }

  lemma DigitOf(c: char)
    requires '0' <= c <= '9'
    ensures 0 <= c as int - '0' as int <= 9 && Digit(c as int - '0' as int) == c
  {
  }

  lemma OneDigit(d: nat)
    requires d < 10
    ensures DecimalDigits(d) == [Digit(d)]
  {
  }

  lemma OneDigitMore(n: nat, d: nat)
    requires n > 0 && d < 10
    ensures DecimalDigits(n * 10 + d) == DecimalDigits(n) + [Digit(d)]
  {
    assert (n * 10 + d) / 10 == n && (n * 10 + d) % 10 == d;
  }

  // ----- the tables -----

  /** digits2: the two digits of 0..99, twenty entries a row. */
  function PairRow(k: nat): (s: string)
    requires k < 10
    ensures |s| == 20
  {
    match k
    case 0 => "00010203040506070809"
    case 1 => "10111213141516171819"
    case 2 => "20212223242526272829"
    case 3 => "30313233343536373839"
    case 4 => "40414243444546474849"
    case 5 => "50515253545556575859"
    case 6 => "60616263646566676869"
    case 7 => "70717273747576777879"
    case 8 => "80818283848586878889"
    case _ => "90919293949596979899"
  }

  /** digits2_i: entry x holds the two digits of the i whose i / 100 starts with the seven binary digits x. */
  function FractionRow(k: nat): (s: string)
    requires k < 16
    ensures |s| == 16
  {
    match k
    case 0 => "00010203  040506"
    case 1 => "0707080910  1112"
    case 2 => "131414151617  18"
    case 3 => "192021  222324  "
    case 4 => "25262728  293031"
    case 5 => "3232333435  3637"
    case 6 => "383939404142  43"
    case 7 => "444546  474849  "
    case 8 => "50515253  545556"
    case 9 => "5757585960  6162"
    case 10 => "636464656667  68"
    case 11 => "697071  727374  "
    case 12 => "75767778  798081"
    case 13 => "8282838485  8687"
    case 14 => "888989909192  93"
    case _ => "949596  979899  "
  }

  function Digits2(v: nat): (p: (char, char))
    requires v < 100
  {
    (PairRow(v / 10)[2 * (v % 10)], PairRow(v / 10)[2 * (v % 10) + 1])
  }

  function Digits2I(x: nat): (p: (char, char))
    requires x < 128
  {
    (FractionRow(x / 8)[2 * (x % 8)], FractionRow(x / 8)[2 * (x % 8) + 1])
  }

  function TwoDigits(r: nat): (p: (char, char))
    requires r < 100
  {
    (Digit(r / 10), Digit(r % 10))
  }

  predicate PairEntry(v: nat)
    requires v < 100
  {
    Digits2(v) == TwoDigits(v)
  }

  predicate FractionEntry(r: nat, x: nat)
    requires r < 100
  {
    x < 128 && Digits2I(x) == TwoDigits(r)
  }

  /** The fractions the division by 100 can leave for the remainder r: 1.28 r, rounded down, or one more
      when what the quotient adds to the fraction crosses an integer. */
  predicate InSlot(r: nat, x: nat) {
    128 * r - 100 < 100 * x <= 128 * r + 11
  }

  lemma PairTens0(v: nat)
    requires v / 10 == 0
    ensures PairEntry(v)
  {
  }

  lemma PairTens1(v: nat)
    requires v / 10 == 1
    ensures PairEntry(v)
  {
  }

  lemma PairTens2(v: nat)
    requires v / 10 == 2
    ensures PairEntry(v)
  {
  }

  lemma PairTens3(v: nat)
    requires v / 10 == 3
    ensures PairEntry(v)
  {
  }

  lemma PairTens4(v: nat)
    requires v / 10 == 4
    ensures PairEntry(v)
  {
  }

  lemma PairTens5(v: nat)
    requires v / 10 == 5
    ensures PairEntry(v)
  {
  }

  lemma PairTens6(v: nat)
    requires v / 10 == 6
    ensures PairEntry(v)
  {
  }

  lemma PairTens7(v: nat)
    requires v / 10 == 7
    ensures PairEntry(v)
  {
  }

  lemma PairTens8(v: nat)
    requires v / 10 == 8
    ensures PairEntry(v)
  {
  }

  lemma PairTens9(v: nat)
    requires v / 10 == 9
    ensures PairEntry(v)
  {
  }

  lemma FractionEight0(r: nat, x: nat)
    requires r < 100 && x / 8 == 0 && InSlot(r, x)
    ensures FractionEntry(r, x)
  {
  }

  lemma FractionEight1(r: nat, x: nat)
    requires r < 100 && x / 8 == 1 && InSlot(r, x)
    ensures FractionEntry(r, x)
  {
  }

  lemma FractionEight2(r: nat, x: nat)
    requires r < 100 && x / 8 == 2 && InSlot(r, x)
    ensures FractionEntry(r, x)
  {
  }

  lemma FractionEight3(r: nat, x: nat)
    requires r < 100 && x / 8 == 3 && InSlot(r, x)
    ensures FractionEntry(r, x)
  {
  }

  lemma FractionEight4(r: nat, x: nat)
    requires r < 100 && x / 8 == 4 && InSlot(r, x)
    ensures FractionEntry(r, x)
  {
  }

  lemma FractionEight5(r: nat, x: nat)
    requires r < 100 && x / 8 == 5 && InSlot(r, x)
    ensures FractionEntry(r, x)
  {
  }

  lemma FractionEight6(r: nat, x: nat)
    requires r < 100 && x / 8 == 6 && InSlot(r, x)
    ensures FractionEntry(r, x)
  {
  }

  lemma FractionEight7(r: nat, x: nat)
    requires r < 100 && x / 8 == 7 && InSlot(r, x)
    ensures FractionEntry(r, x)
  {
  }

  lemma FractionEight8(r: nat, x: nat)
    requires r < 100 && x / 8 == 8 && InSlot(r, x)
    ensures FractionEntry(r, x)
  {
  }

  lemma FractionEight9(r: nat, x: nat)
    requires r < 100 && x / 8 == 9 && InSlot(r, x)
    ensures FractionEntry(r, x)
  {
  }

  lemma FractionEight10(r: nat, x: nat)
    requires r < 100 && x / 8 == 10 && InSlot(r, x)
    ensures FractionEntry(r, x)
  {
  }

  lemma FractionEight11(r: nat, x: nat)
    requires r < 100 && x / 8 == 11 && InSlot(r, x)
    ensures FractionEntry(r, x)
  {
  }

  lemma FractionEight12(r: nat, x: nat)
    requires r < 100 && x / 8 == 12 && InSlot(r, x)
    ensures FractionEntry(r, x)
  {
  }

  lemma FractionEight13(r: nat, x: nat)
    requires r < 100 && x / 8 == 13 && InSlot(r, x)
    ensures FractionEntry(r, x)
  {
  }

  lemma FractionEight14(r: nat, x: nat)
    requires r < 100 && x / 8 == 14 && InSlot(r, x)
    ensures FractionEntry(r, x)
  {
  }

  lemma FractionEight15(r: nat, x: nat)
    requires r < 100 && x / 8 == 15 && InSlot(r, x)
    ensures FractionEntry(r, x)
  {
  }

  lemma PairTable(v: nat)
    requires v < 100
    ensures Digits2(v) == TwoDigits(v)
  {
    hide PairRow;
    match v / 10
    case 0 => PairTens0(v);
    case 1 => PairTens1(v);
    case 2 => PairTens2(v);
    case 3 => PairTens3(v);
    case 4 => PairTens4(v);
    case 5 => PairTens5(v);
    case 6 => PairTens6(v);
    case 7 => PairTens7(v);
    case 8 => PairTens8(v);
    case _ => PairTens9(v);
  }

  lemma FractionTable(r: nat, x: nat)
    requires r < 100 && InSlot(r, x)
    ensures x < 128 && Digits2I(x) == TwoDigits(r)
  {
    hide FractionRow;
    match x / 8
    case 0 => FractionEight0(r, x);
    case 1 => FractionEight1(r, x);
    case 2 => FractionEight2(r, x);
    case 3 => FractionEight3(r, x);
    case 4 => FractionEight4(r, x);
    case 5 => FractionEight5(r, x);
    case 6 => FractionEight6(r, x);
    case 7 => FractionEight7(r, x);
    case 8 => FractionEight8(r, x);
    case 9 => FractionEight9(r, x);
    case 10 => FractionEight10(r, x);
    case 11 => FractionEight11(r, x);
    case 12 => FractionEight12(r, x);
    case 13 => FractionEight13(r, x);
    case 14 => FractionEight14(r, x);
    case _ => FractionEight15(r, x);
  }

  // ----- the division by multiplication -----

  function Product(v: nat): nat { v * CENT % W64 }

  /** For every 32-bit value the wrapped product gives the exact quotient, once 2^25 is added back, and a
      fraction whose table entry is the remainder. */
  lemma {:induction false} DividesBy100(v: nat)
    requires v < 0x1_0000_0000
    ensures Product(v) / 0x80_0000_0000 + (if v >= THRESHOLD then 0x200_0000 else 0) == v / 100
    ensures var x := Product(v) / 0x1_0000_0000 % 128; Digits2I(x) == TwoDigits(v % 100)
  {
    var q, r := v / 100, v % 100;
    var low, wraps := 12 * q + r * CENT, if v >= THRESHOLD then 1 else 0;
    ProductParts(v, q, r, wraps);
    hide Digits2I, TwoDigits, Product;
    Halves(Product(v), q - wraps * 0x200_0000, low);
    Slot(q, r, low / 0x1_0000_0000);
    FractionTable(r, low / 0x1_0000_0000);
  }

  lemma ProductParts(v: nat, q: nat, r: nat, wraps: nat)
    requires v < 0x1_0000_0000 && v == 100 * q + r && r < 100 && wraps == if v >= THRESHOLD then 1 else 0
    ensures 12 * q + r * CENT < 0x80_0000_0000 && q >= wraps * 0x200_0000
    ensures Product(v) == (q - wraps * 0x200_0000) * 0x80_0000_0000 + (12 * q + r * CENT)
  {
    var p := q * 0x80_0000_0000 + (12 * q + r * CENT);
    assert v * CENT == p;
    assert if wraps == 1 then W64 <= p < 2 * W64 else p < W64;
    Wrapped(p, wraps);
  }

  lemma Wrapped(p: nat, wraps: nat)
    requires wraps <= 1 && wraps * W64 <= p < wraps * W64 + W64
    ensures p % W64 == p - wraps * W64
  {
  }

  lemma Halves(p: nat, h: nat, low: nat)
    requires p == h * 0x80_0000_0000 + low && low < 0x80_0000_0000
    ensures p / 0x80_0000_0000 == h
    ensures p / 0x1_0000_0000 % 128 == low / 0x1_0000_0000
  {
    assert p / 0x1_0000_0000 == 128 * h + low / 0x1_0000_0000;
  }

  lemma Slot(q: nat, r: nat, x: nat)
    requires r < 100 && 100 * q + r < 0x1_0000_0000 && x == (12 * q + r * CENT) / 0x1_0000_0000
    ensures InSlot(r, x)
  {
  }

  /** The width is exact: the fraction of 2^32 itself lands on a blank entry. */
  lemma FirstFailure()
    ensures var v := 0x1_0000_0000;
            var x := Product(v) / 0x1_0000_0000 % 128;
            v % 100 == 96 && Digits2I(x) == (' ', ' ')
  {
    assert Product(0x1_0000_0000) / 0x1_0000_0000 % 128 == 123;
  }

  // ----- writing -----

  /** write2digits and write2digits_i store the pair they look up. */
  method WritePair(out: array<char>, n: nat, p: (char, char))
    requires n + 2 <= out.Length
    modifies out
    ensures out[..] == old(out[..])[n := p.0][n + 1 := p.1]
  {
    out[n], out[n + 1] := p.0, p.1;
  }

  lemma {:induction false} LastTwo(v: nat)
    requires v >= 100
    ensures DecimalDigits(v) == DecimalDigits(v / 100) + [TwoDigits(v % 100).0, TwoDigits(v % 100).1]
  {
    assert v / 10 / 10 == v / 100 && v / 10 % 10 == v % 100 / 10 && v % 10 == v % 100 % 10;
    assert DecimalDigits(v) == DecimalDigits(v / 10) + [Digit(v % 10)];
    assert DecimalDigits(v / 10) == DecimalDigits(v / 100) + [Digit(v / 10 % 10)];
  }

  lemma {:induction false} OneOrTwo(v: nat)
    requires v < 100
    ensures DecimalDigits(v) == if v >= 10 then [TwoDigits(v).0, TwoDigits(v).1] else [Digit(v)]
  {
    if v >= 10 { assert DecimalDigits(v / 10) == [Digit(v / 10)]; }
  }

  /** One turn of the loop: two digits stored, the value divided by 100. */
  method StorePair(out: array<char>, n: nat, v: nat, narrow: bool) returns (rest: nat)
    requires n + 2 <= out.Length && (narrow ==> v < 0x1_0000_0000)
    modifies out
    ensures var p := TwoDigits(v % 100); out[..] == old(out[..])[n := p.0][n + 1 := p.1]
    ensures rest == v / 100
  {
    hide Digits2, Digits2I, TwoDigits, Product;
    if narrow {
      DividesBy100(v);
      var p := Product(v);
      WritePair(out, n, Digits2I(p / 0x1_0000_0000 % 128));
      rest := p / 0x80_0000_0000 + (if v >= THRESHOLD then 0x200_0000 else 0);
    } else {
      PairTable(v % 100);
      WritePair(out, n, Digits2(v % 100));
      rest := v / 100;
    }
  }

  /** Storing before the written tail extends it. */
  lemma TailGrows(before: string, n: nat, end: nat, tail: string, a: char, b: char)
    requires n <= end <= |before| && |tail| == end - n
    ensures n >= 1 ==> (before[..n] + tail + before[end..])[n - 1 := b] == before[..n - 1] + ([b] + tail) + before[end..]
    ensures n >= 2 ==> (before[..n] + tail + before[end..])[n - 2 := a][n - 1 := b]
                       == before[..n - 2] + ([a, b] + tail) + before[end..]
  {
  }

  lemma Regroup(front: string, a: char, b: char, tail: string)
    ensures front + [a, b] + tail == front + ([a, b] + tail)
    ensures [a, b] + [] == [a, b] && front + [] == front
  {
  }

  /** do_format_decimal on the size characters from start: narrow is the 32-bit instantiation. */
  method DoFormatDecimal(out: array<char>, start: nat, value: nat, size: nat, narrow: bool) returns (first: nat)
    requires start + size <= out.Length && |DecimalDigits(value)| <= size
    requires narrow ==> value < 0x1_0000_0000
    modifies out
    ensures first == start + size - |DecimalDigits(value)|
    ensures out[..] == old(out[..first]) + DecimalDigits(value) + old(out[start + size..])
  {
    hide DecimalDigits, Digits2, TwoDigits;
    var v, n: nat := value, start + size;
    ghost var end, all, before, tail := start + size, DecimalDigits(value), out[..], "";
    assert out[..] == before[..end] + "" + before[end..];
    Regroup(all, '0', '0', "");
    while v >= 100
      invariant n == end - |tail| && |tail| <= |all| && (narrow ==> v < 0x1_0000_0000)
      invariant DecimalDigits(v) + tail == all
      invariant out[..] == before[..n] + tail + before[end..]
      decreases v
    {
      LastTwo(v);
      ghost var pair := TwoDigits(v % 100);
      assert |DecimalDigits(v)| + |tail| == |all|;
      TailGrows(before, n, end, tail, pair.0, pair.1);
      Regroup(DecimalDigits(v / 100), pair.0, pair.1, tail);
      n := n - 2;
      v := StorePair(out, n, v, narrow);
      tail := [pair.0, pair.1] + tail;
    }
    assert |DecimalDigits(v)| + |tail| == |all|;
    OneOrTwo(v);
    ghost var pair := TwoDigits(v);
    if v >= 10 {
      TailGrows(before, n, end, tail, pair.0, pair.1);
      n := n - 2;
      PairTable(v);
      WritePair(out, n, Digits2(v));
    } else {
      TailGrows(before, n, end, tail, '0', Digit(v));
      n := n - 1;
      out[n] := Digit(v);
    }
    first := n;
  }
}
