/** The number a run of digit characters denotes, and the steps of fixed-precision digit generation. */
module DragonSteps {
  import opened BigArith
  import opened Rounding

  const ZERO: int := '0' as int
  const OVERFLOW: int := 58

  /** The decimal number written by the characters; '0' + 10 stands for ten. */
  function Denotes(s: seq<int>): int {
    if s == [] then 0 else Denotes(s[..|s| - 1]) * 10 + (s[|s| - 1] - ZERO)
  }

  predicate AllDigits(s: seq<int>) {
    forall k :: 0 <= k < |s| ==> ZERO <= s[k] <= ZERO + 9
  }

  /** x times 10^i. */
  function Tens(x: int, i: nat): int {
    if i == 0 then x else 10 * Tens(x, i - 1)
  }

  function Times(d: int, p: int): int {
    d * p
  }

  // ----- arithmetic of the two functions -----

  lemma {:induction false} TensLinear(x: int, y: int, i: nat)
    ensures Tens(x + y, i) == Tens(x, i) + Tens(y, i)
    ensures Tens(10 * x, i) == 10 * Tens(x, i)
  {
    if i > 0 { TensLinear(x, y, i - 1); }
  }

  lemma {:induction false} TensIsPow(x: int, i: nat)
    ensures Tens(x, i) == x * Pow(10, i)
  {
    if i > 0 {
      TensIsPow(x, i - 1);
      var p := Pow(10, i - 1);
      assert 10 * (x * p) == x * (10 * p);
    }
  }

  lemma {:induction false} TensGrows(x: nat, i: nat)
    ensures Tens(x, i) >= x
  {
    if i > 0 { TensGrows(x, i - 1); }
  }

  lemma {:induction false} DenotesLast(s: seq<int>, c: int)
    ensures Denotes(s + [c]) == 10 * Denotes(s) + (c - ZERO)
  {
    assert (s + [c])[..|s|] == s;
  }

  lemma {:induction false} DenotesUpdate(s: seq<int>, i: nat, c: int)
    requires i < |s|
    ensures Denotes(s[i := c]) == Denotes(s) + Tens(c - s[i], |s| - 1 - i)
  {
    var n := |s| - 1;
    if i < n {
      DenotesUpdate(s[..n], i, c);
      assert s[i := c][..n] == s[..n][i := c];
    } else {
      assert s[i := c][..n] == s[..n];
    }
  }

  /** Clearing an overflowed digit and incrementing its left neighbour keeps the number. */
  lemma CarryKeeps(s: seq<int>, i: nat)
    requires 0 < i < |s| && s[i] == OVERFLOW
    ensures Denotes(s[i := ZERO][i - 1 := s[i - 1] + 1]) == Denotes(s)
  {
    DenotesUpdate(s, i, ZERO);
    DenotesUpdate(s[i := ZERO], i - 1, s[i - 1] + 1);
    TensLinear(-1, 0, |s| - 1 - i);
    TensLinear(1, -1, |s| - 1 - i);
    assert Tens(0, |s| - 1 - i) == 0 by { TensLinear(0, 0, |s| - 1 - i); }
  }

  lemma {:induction false} OnlyTop(s: seq<int>)
    requires s != [] && forall k :: 0 < k < |s| ==> s[k] == ZERO
    ensures Denotes(s) == Tens(s[0] - ZERO, |s| - 1)
  {
    if |s| > 1 {
      OnlyTop(s[..|s| - 1]);
    } else {
      assert s[..0] == [] && Denotes(s[..0]) == 0;
    }
  }

  lemma {:induction false} DenotesNat(s: seq<int>)
    requires forall k :: 0 <= k < |s| ==> s[k] >= ZERO
    ensures Denotes(s) >= 0
  {
    if s != [] { DenotesNat(s[..|s| - 1]); }
  }

  lemma {:induction false} TensSmall(x: int)
    ensures Tens(x, 0) == x && Tens(x, 1) == 10 * x
  {
    assert Tens(x, 0) == x;
  }

  /** A carry out of the first digit leaves a power of ten. */
  lemma AllNines(s: seq<int>)
    requires s != [] && s[0] == OVERFLOW && forall k :: 0 < k < |s| ==> s[k] == ZERO
    ensures Denotes(s) == Tens(10, |s| - 1)
    ensures Denotes(s) == 10 * Denotes(s[0 := ZERO + 1])
  {
    OnlyTop(s);
    OnlyTop(s[0 := ZERO + 1]);
    TensLinear(1, 0, |s| - 1);
  }

  /** Digits stay below the power of ten of their count. */
  lemma {:induction false} NotAllNines(s: seq<int>)
    requires s != [] && AllDigits(s)
    ensures Denotes(s) < Tens(10, |s| - 1)
  {
    var t := s[..|s| - 1];
    if t == [] {
      assert Denotes(t) == 0;
    } else {
      NotAllNines(t);
    }
  }

  // ----- the state of the digit loop -----

  /** What a run starts from: the numerator and denominator and their exponents. */
  datatype Start = Start(n: nat, d: nat, exp: nat, dexp: nat)

  /** The division before digit j finds equal values with the higher exponent on the left. */
  predicate SkipsAt(r: Start, j: nat) {
    r.exp > r.dexp && Tens(r.n, j) == r.d
  }

  /** After the digits s: n is the scaled remainder; before a skipped digit everything is regular, the
      digit after a skipped one is ten and the rest are zero. */
  predicate Progress(r: Start, s: seq<int>, n: int, exp: nat, hit: int) {
    && r.d > 0 && n >= 0
    && Tens(r.n, |s|) == 10 * Times(r.d, Denotes(s)) + n
    && (forall k :: 0 <= k < |s| ==> ZERO <= s[k] <= OVERFLOW)
    && if hit < 0 then Regular(r, s, n, exp) else Skipped(r, s, n, hit)
  }

  predicate Regular(r: Start, s: seq<int>, n: int, exp: nat) {
    && n < 10 * r.d && AllDigits(s)
    && (forall j :: 0 <= j < |s| ==> !SkipsAt(r, j))
    && (exp > r.dexp ==> Denotes(s) == 0 && exp == r.exp)
    && (r.exp > r.dexp && exp <= r.dexp ==> Denotes(s) > 0)
  }

  predicate Skipped(r: Start, s: seq<int>, n: int, hit: int) {
    && 0 <= hit < |s| && SkipsAt(r, hit)
    && if |s| == hit + 1 then n == 10 * r.d else n == 0 && s[hit + 1] == OVERFLOW
  }

  /** What divmod_assign leaves: the quotient q and the remainder. */
  predicate Divided(r: Start, n: int, exp: nat, q: int, rest: int, exp': nat)
    requires r.d > 0
  {
    && q == (if n == r.d && exp > r.dexp then 0 else n / r.d)
    && rest == n - q * r.d
    && (if q == 0 then exp' == exp else exp' <= r.dexp)
  }

  lemma FirstProgress(r: Start)
    requires r.d > 0 && r.n < 10 * r.d
    ensures Progress(r, [], r.n, r.exp, -1)
  {
    TimesZero(r.d);
  }

  lemma TimesZero(d: int)
    ensures Times(d, 0) == 0
  {
  }

  lemma TimesNext(d: int, p: int, q: int)
    ensures Times(d, 10 * p + q) == 10 * Times(d, p) + q * d
  {
  }

  function HitAfter(r: Start, s: seq<int>, n: int, exp: nat, hit: int): int {
    if hit < 0 && n == r.d && exp > r.dexp then |s| else hit
  }

  lemma QuotientIs(n: int, d: int)
    requires d > 0 && 0 <= n <= 10 * d
    ensures 0 <= n / d <= 10 && (n < 10 * d ==> n / d <= 9) && (n == 10 * d ==> n / d == 10)
    ensures 0 <= n - n / d * d < d
    ensures n / d == 0 <==> n < d
  {
    var k := n / d;
    assert n == k * d + n % d;
    if k >= 11 { assert k * d >= 11 * d by { Scale(11, k, d); } }
    if k >= 10 { assert k * d >= 10 * d by { Scale(10, k, d); } }
    if k <= 9 { assert k * d <= 9 * d by { Scale(k, 9, d); } }
    if k >= 1 { assert k * d >= 1 * d by { Scale(1, k, d); } }
  }

  lemma Scale(a: int, b: int, d: int)
    requires a <= b && d > 0
    ensures a * d <= b * d
  {
    assert (b - a) * d >= 0;
  }

  /** One more digit. */
  lemma NextDigit(r: Start, s: seq<int>, n: int, exp: nat, hit: int, q: int, rest: int, exp': nat)
    requires Progress(r, s, n, exp, hit) && Divided(r, n, exp, q, rest, exp')
    ensures Progress(r, s + [ZERO + q], 10 * rest, exp', HitAfter(r, s, n, exp, hit))
    ensures 0 <= q <= 10
  {
    hide Tens, Denotes, Times;
    QuotientIs(n, r.d);
    DenotesLast(s, ZERO + q);
    TimesNext(r.d, Denotes(s), q);
    NextTens(r.n, |s|);
    DenotesNat(s);
    if hit < 0 {
      HitIsFirst(r, s, n, exp);
      NextRegular(r, s, n, exp, q, rest, exp');
    } else {
      NextSkipped(r, s, n, hit, q, rest);
    }
  }

  lemma NextTens(x: int, i: nat)
    ensures Tens(x, i + 1) == 10 * Tens(x, i)
  {
  }

  /** In a regular state the division is skipped exactly when SkipsAt says so. */
  lemma {:induction false} HitIsFirst(r: Start, s: seq<int>, n: int, exp: nat)
    requires r.d > 0 && n >= 0 && Regular(r, s, n, exp) && Denotes(s) >= 0
    requires Tens(r.n, |s|) == 10 * Times(r.d, Denotes(s)) + n
    ensures (n == r.d && exp > r.dexp) <==> SkipsAt(r, |s|)
  {
    var p := Denotes(s);
    if p == 0 {
      TimesZero(r.d);
    } else {
      assert r.d * p >= r.d by { Scale(1, p, r.d); }
    }
  }

  lemma {:induction false} NextRegular(r: Start, s: seq<int>, n: int, exp: nat, q: int, rest: int, exp': nat)
    requires r.d > 0 && 0 <= n && Regular(r, s, n, exp) && Divided(r, n, exp, q, rest, exp')
    requires 0 <= n / r.d <= 9 && (n / r.d == 0 <==> n < r.d) && 0 <= n - n / r.d * r.d < r.d
    requires (n == r.d && exp > r.dexp) <==> SkipsAt(r, |s|)
    requires Denotes(s + [ZERO + q]) == 10 * Denotes(s) + q && Denotes(s) >= 0
    ensures if SkipsAt(r, |s|) then Skipped(r, s + [ZERO + q], 10 * rest, |s|)
            else Regular(r, s + [ZERO + q], 10 * rest, exp')
    ensures rest >= 0
  {
    hide Tens, Denotes, Times, SkipsAt;
    var t := s + [ZERO + q];
    if SkipsAt(r, |s|) {
      assert q == 0 && rest == r.d;
    } else {
      assert q == n / r.d;
      forall j | 0 <= j < |t| ensures !SkipsAt(r, j) { }
    }
  }

  lemma NextSkipped(r: Start, s: seq<int>, n: int, hit: int, q: int, rest: int)
    requires r.d > 0 && Skipped(r, s, n, hit) && rest == n - q * r.d
    requires n == 10 * r.d ==> q == 10
    requires n == 0 ==> q == 0
    ensures Skipped(r, s + [ZERO + q], 10 * rest, hit) && rest == 0
  {
  }

  lemma Bounded(r: Start, s: seq<int>, n: int, exp: nat, hit: int)
    requires Progress(r, s, n, exp, hit)
    ensures r.d > 0 && 0 <= n <= 10 * r.d
  {
  }

  /** Half-to-even rounding of the last digit q by the remainder. */
  predicate RoundsUp(d: int, q: int, rest: int) {
    2 * rest > d || (2 * rest == d && q % 2 != 0)
  }

  function LastDigit(d: int, q: int, rest: int): int {
    if RoundsUp(d, q, rest) then q + 1 else q
  }

  lemma {:induction false} FinalDigit(r: Start, s: seq<int>, n: int, exp: nat, hit: int, q: int, rest: int, exp': nat)
    requires Progress(r, s, n, exp, hit) && Divided(r, n, exp, q, rest, exp')
    ensures 0 <= q <= 10 && Tens(r.n, |s|) >= 0
    ensures RoundHalfEven(Tens(r.n, |s|), r.d) == Denotes(s + [ZERO + LastDigit(r.d, q, rest)])
    ensures RoundsUp(r.d, q, rest) ==> hit < 0 && q <= 9
    ensures hit < 0 ==> AllDigits(s) && q <= 9 && forall j :: 0 <= j < |s| ==> !SkipsAt(r, j)
    ensures hit >= 0 ==> !AllDigits(s + [ZERO + q]) && 0 <= hit < |s| && SkipsAt(r, hit)
  {
    hide Denotes, Tens, Times, RoundHalfEven;
    QuotientIs(n, r.d);
    DenotesLast(s, ZERO + LastDigit(r.d, q, rest));
    TensGrows(r.n, |s|);
    DenotesNat(s);
    TimesNext(r.d, Denotes(s), q);
    TimesNext(r.d, Denotes(s), 0);
    LastRounding(Tens(r.n, |s|), r.d, Denotes(s), q, rest);
    if hit >= 0 && |s| > hit + 1 {
      assert (s + [ZERO + q])[hit + 1] == OVERFLOW;
    }
    if hit >= 0 && |s| == hit + 1 {
      assert (s + [ZERO + q])[hit + 1] == OVERFLOW;
    }
  }

  /** The exact remainder, or a whole divisor left behind after the quotient 0, decides the rounding. */
  lemma LastRounding(a: nat, d: nat, p: nat, q: nat, rest: nat)
    requires d > 0 && a == Times(d, 10 * p + q) + rest
    requires rest < d || (rest == d && p == 0 && q == 0)
    ensures RoundHalfEven(a, d) == 10 * p + LastDigit(d, q, rest)
  {
    hide RoundHalfEven, Times;
    if rest < d {
      LastRemainder(a, d, 10 * p + q, q, rest);
    } else {
      TimesCommutes(d, 0);
      RoundingIs(a, d, 1);
    }
  }

  /** An exact remainder: the parity of the last digit is that of the whole. */
  lemma LastRemainder(a: nat, d: nat, x: nat, q: nat, rest: nat)
    requires d > 0 && a == Times(d, x) + rest && rest < d && x % 2 == q % 2
    ensures RoundHalfEven(a, d) == if RoundsUp(d, q, rest) then x + 1 else x
  {
    TimesCommutes(d, x);
    hide RoundHalfEven, Times, IsRounding;
    IsRoundingOf(a, d, x, rest);
    RoundingIs(a, d, if RoundsUp(d, q, rest) then x + 1 else x);
  }

  lemma TimesCommutes(d: int, x: int)
    ensures Times(d, x) == x * d
  {
  }

  // ----- the result -----

  predicate NoSkip(r: Start, count: int) {
    forall j :: 0 <= j < count ==> !SkipsAt(r, j)
  }

  /** The characters, scaled by 10^bump, are the ratio with count digits rounded half to even; all are digits
      exactly when no division before the last one is skipped; a carry out of the first digit adds a digit
      when fixed and bumps the exponent otherwise. */
  predicate Rounded(r: Start, count: nat, data: seq<int>, bump: int, fixed: bool) {
    && r.d > 0 && count > 0 && 0 <= bump <= 1 && Tens(r.n, count - 1) >= 0
    && var exact := RoundHalfEven(Tens(r.n, count - 1), r.d);
       var carried := NoSkip(r, count - 1) && exact == Tens(10, count - 1);
       && Tens(Denotes(data), bump) == exact
       && (AllDigits(data) <==> NoSkip(r, count - 1))
       && |data| == (if carried && fixed then count + 1 else count)
       && bump == (if carried && !fixed then 1 else 0)
  }

  lemma PlainEnd(r: Start, s: seq<int>, n: int, exp: nat, hit: int, q: int, rest: int,
                                    exp': nat, fixed: bool)
    requires Progress(r, s, n, exp, hit) && Divided(r, n, exp, q, rest, exp')
    requires !(RoundsUp(r.d, q, rest) && q == 9)
    ensures Rounded(r, |s| + 1, s + [ZERO + LastDigit(r.d, q, rest)], 0, fixed)
  {
    FinalDigit(r, s, n, exp, hit, q, rest, exp');
    hide Progress, Divided, Denotes, Tens, RoundHalfEven, SkipsAt, RoundsUp;
    var t := s + [ZERO + LastDigit(r.d, q, rest)];
    TensSmall(Denotes(t));
    if hit < 0 {
      assert AllDigits(t);
      NotAllNines(t);
    }
  }

  lemma {:induction false} CarryStart(r: Start, s: seq<int>, n: int, exp: nat, hit: int, q: int, rest: int, exp': nat)
    requires Progress(r, s, n, exp, hit) && Divided(r, n, exp, q, rest, exp')
    requires RoundsUp(r.d, q, rest) && q == 9
    ensures AllDigits(s) && NoSkip(r, |s|) && Tens(r.n, |s|) >= 0
    ensures Denotes(s + [OVERFLOW]) == RoundHalfEven(Tens(r.n, |s|), r.d)
  {
    FinalDigit(r, s, n, exp, hit, q, rest, exp');
  }
}
