/** The steps of shortest digit generation: the digits stop as soon as a decimal of that length lies between
    the midpoints to the neighbouring values. */
module ShortestSteps {
  import opened BigArith
  import opened BigLemmas
  import opened BigSteps
  import opened DragonScale
  import opened DragonSteps
  import opened Rounding

  /** The value n / d with the half gaps low / d below and up / d above it; an even significand includes
      the midpoints themselves. */
  datatype Gaps = Gaps(n: nat, d: nat, low: nat, up: nat, even: bool)

  /** m units of 10^-i lie inside the gaps. */
  predicate Inside(g: Gaps, i: nat, m: int) {
    var t, l, u, x := Tens(g.n, i), Tens(g.low, i), Tens(g.up, i), Times(g.d, m);
    if g.even then t - l <= x <= t + u else t - l < x < t + u
  }

  predicate Within(g: Gaps, i: nat, m: int) {
    Tens(g.n, i) - Tens(g.low, i) <= Times(g.d, m) <= Tens(g.n, i) + Tens(g.up, i)
  }

  /** A number of units that needs one digit less. */
  function Coarse(m: int): int {
    10 * m
  }

  ghost predicate NoShorter(g: Gaps, i: nat) {
    forall m :: !Inside(g, i, Coarse(m))
  }

  /** A shortest decimal that reads back. */
  ghost predicate Good(g: Gaps, i: nat, m: int) {
    Inside(g, i, m) && NoShorter(g, i)
  }

  // ----- the state of the loop -----

  predicate LowTrue(g: Gaps, rest: int, l: int) {
    if g.even then rest <= l else rest < l
  }

  predicate HighTrue(g: Gaps, rest: int, u: int) {
    if g.even then rest + u >= g.d else rest + u > g.d
  }

  predicate Going(g: Gaps, s: seq<int>, n: int, l: int, u: int) {
    && g.d > 0 && g.low > 0 && g.up > 0 && AllDigits(s) && n >= 0
    && Tens(g.n, |s|) == 10 * Times(g.d, Denotes(s)) + n
    && l == Tens(g.low, |s|) && u == Tens(g.up, |s|) && l > 0 && u > 0
    && if g.even then n + u < 10 * g.d else n + u <= 10 * g.d
  }

  /** What divmod_assign leaves; a skipped division leaves the whole divisor. */
  predicate Split(g: Gaps, n: int, q: int, rest: int)
    requires g.d > 0
  {
    (q == n / g.d && rest == n - q * g.d) || (n == g.d && q == 0 && rest == n)
  }

  lemma FirstGoing(g: Gaps)
    requires g.d > 0 && 0 < g.low < g.n && g.up > 0
    requires if g.even then g.n + g.up < 10 * g.d else g.n + g.up <= 10 * g.d
    ensures Going(g, [], g.n, g.low, g.up) && NoShorter(g, 0)
  {
    TimesZero(g.d);
    assert Denotes([]) == 0;
    forall m ensures !Inside(g, 0, Coarse(m)) {
      assert Tens(g.n, 0) == g.n && Tens(g.low, 0) == g.low && Tens(g.up, 0) == g.up;
      TimesNext(g.d, m, 0);
      if m <= 0 { Scale(m, 0, g.d); } else { Scale(1, m, g.d); }
    }
  }

  lemma {:induction false} GoingBounds(g: Gaps, s: seq<int>, n: int, l: int, u: int)
    requires Going(g, s, n, l, u)
    ensures 0 <= n < 10 * g.d && g.d > 0
    ensures l == Tens(g.low, |s|) && u == Tens(g.up, |s|) && l > 0 && u > 0
  {
  }

  /** One more digit, with room to round it up. */
  lemma {:induction false} DigitAt(g: Gaps, s: seq<int>, n: int, l: int, u: int, q: int, rest: int)
    requires Going(g, s, n, l, u) && Split(g, n, q, rest)
    ensures 0 <= q <= 9 && 0 <= rest <= g.d && (HighTrue(g, rest, u) ==> q <= 8)
    ensures Tens(g.n, |s|) == Times(g.d, Denotes(s + [ZERO + q])) + rest
    ensures Denotes(s + [ZERO + q + 1]) == Denotes(s + [ZERO + q]) + 1
    ensures AllDigits(s + [ZERO + q]) && (q <= 8 ==> AllDigits(s + [ZERO + q + 1]))
  {
    hide Tens, Denotes, Times;
    QuotientIs(n, g.d);
    DenotesLast(s, ZERO + q);
    DenotesLast(s, ZERO + q + 1);
    TimesNext(g.d, Denotes(s), q);
  }

  /** The upper test fails: the loop can go on. */
  lemma GoOn(g: Gaps, s: seq<int>, n: int, l: int, u: int, q: int, rest: int)
    requires Going(g, s, n, l, u) && Split(g, n, q, rest) && !HighTrue(g, rest, u)
    ensures Going(g, s + [ZERO + q], 10 * rest, 10 * l, 10 * u) && 10 * u <= 10 * g.d
  {
    hide Denotes, Times;
    DigitAt(g, s, n, l, u, q, rest);
    NextTens(g.n, |s|);
    NextTens(g.low, |s|);
    NextTens(g.up, |s|);
  }

  lemma {:induction false} Outside(g: Gaps, i: nat, whole: int, rest: int, m: int)
    requires g.d > 0 && Tens(g.n, i) == Times(g.d, whole) + rest && 0 <= rest <= g.d
    requires !LowTrue(g, rest, Tens(g.low, i)) && !HighTrue(g, rest, Tens(g.up, i))
    ensures !Inside(g, i, m)
  {
    hide Tens;
    if m <= whole {
      TimesMono(g.d, m, whole);
    } else {
      TimesMono(g.d, whole + 1, m);
      TimesMore(g.d, whole);
    }
  }

  lemma TimesMono(d: int, x: int, y: int)
    requires d > 0 && x <= y
    ensures Times(d, x) <= Times(d, y)
  {
    assert d * (y - x) >= 0;
  }

  lemma TimesMore(d: int, x: int)
    ensures Times(d, x + 1) == Times(d, x) + d
  {
  }

  /** The quotient and the remainder of the value at a length; a skipped division leaves the whole divisor. */
  predicate Parts(g: Gaps, i: nat, whole: int, rest: int) {
    && g.d > 0 && Tens(g.n, i) == Times(g.d, whole) + rest && 0 <= rest <= g.d
    && 0 < Tens(g.low, i) < Tens(g.n, i) && Tens(g.up, i) > 0
    && (rest == g.d ==> whole == 0)
  }

  /** Rounding up is inside the gaps exactly when the upper test holds, rounding down when the lower one does. */
  lemma {:induction false} Chosen(g: Gaps, i: nat, whole: int, rest: int)
    requires Parts(g, i, whole, rest)
    ensures HighTrue(g, rest, Tens(g.up, i)) <==> Inside(g, i, whole + 1)
    ensures HighTrue(g, rest, Tens(g.up, i)) ==> Within(g, i, whole + 1)
    ensures LowTrue(g, rest, Tens(g.low, i)) <==> Inside(g, i, whole)
    ensures rest <= Tens(g.low, i) ==> Within(g, i, whole)
  {
    hide Tens;
    TimesMore(g.d, whole);
  }

  // ----- when the lower test is answered wrongly -----

  /** numerator <[=] lower as compare() answers it. skew is how many more zero bigits the numerator carries
      than lower; zeroHigh says that a zero numerator would count as the larger. */
  predicate Judged(g: Gaps, skew: int, zeroHigh: bool, rest: int, l: int) {
    if rest == 0 && zeroHigh then false
    else if rest == l then (if g.even then skew >= 0 else skew > 0)
    else rest < l
  }

  /** m units of 10^-i are the midpoint below the value, no shorter decimal lies inside the gaps, and the tie
      is answered the wrong way with nothing to make up for it: an even significand goes past the midpoint
      although m + 1 units are outside, an odd one stops on it. */
  ghost predicate BadTie(g: Gaps, skew: int, i: nat, m: int) {
    && Times(g.d, m) == Tens(g.n, i) - Tens(g.low, i) && NoShorter(g, i)
    && if g.even then skew < 0 && !Inside(g, i, m + 1)
       else skew > 0 && !(Inside(g, i, m + 1) && RoundsUp(g.d, m, Tens(g.low, i)))
  }

  /** The value has a single digit, and the zero remainder is not recognised. */
  predicate BadZero(g: Gaps, m: int) {
    Times(g.d, m) == Tens(g.n, 0) && !Inside(g, 0, m + 1)
  }

  ghost predicate BadAt(g: Gaps, skew: int, zeroHigh: bool, i: nat) {
    (exists m :: BadTie(g, skew, i, m)) || (i == 0 && zeroHigh && exists m :: BadZero(g, m))
  }

  ghost predicate NeverBad(g: Gaps, skew: int, zeroHigh: bool, count: nat) {
    forall i :: 0 <= i < count ==> !BadAt(g, skew, zeroHigh, i)
  }

  ghost predicate AllGood(g: Gaps, skew: int, zeroHigh: bool) {
    forall j: nat :: !BadAt(g, skew, zeroHigh, j)
  }

  lemma SameUnits(d: int, x: int, y: int)
    requires d > 0
    ensures Times(d, x) == Times(d, y) <==> x == y
    ensures x < y ==> Times(d, x) + d <= Times(d, y)
  {
    if x < y { TimesMono(d, x + 1, y); TimesMore(d, x); }
    if y < x { TimesMono(d, y + 1, x); TimesMore(d, y); }
  }

  /** A bad tie is the quotient itself, with the lower gap as remainder. */
  lemma {:induction false} BadTieIs(g: Gaps, skew: int, i: nat, whole: int, rest: int, m: int)
    requires Parts(g, i, whole, rest) && BadTie(g, skew, i, m)
    ensures m == whole && rest == Tens(g.low, i)
  {
    hide Tens, Times, NoShorter;
    SameUnits(g.d, m, whole);
    SameUnits(g.d, whole, m);
    TimesMore(g.d, m);
    assert m <= whole;
    if rest == g.d { TimesNothing(g.d); SameUnits(g.d, m, 0); }
  }

  lemma TimesNothing(d: int)
    ensures Times(d, 0) == 0 && Times(d, 1) == d
  {
  }

  /** The answer of compare() from the exponents: a tie or a zero remainder comes after the first digit that is
      not zero, when the numerator's exponent has settled at settled; zeros are recognised at every length but
      perhaps the first. */
  lemma {:induction false} JudgedBy(g: Gaps, skew: int, zeroHigh: bool, i: nat, whole: int, rest: int,
                                    exp: nat, settled: nat, lowExp: nat, lowBigits: nat)
    requires Parts(g, i, whole, rest) && (whole > 0 ==> exp == settled) && skew == settled - lowExp
    requires if i == 0 then zeroHigh == (settled >= lowBigits) else settled < lowBigits
    ensures var l := Tens(g.low, i);
            var answer := if rest == 0 && 1 + exp > lowBigits then false
                          else if rest == l then (if g.even then lowExp <= exp else lowExp < exp)
                          else rest < l;
            answer == Judged(g, skew, zeroHigh && i == 0, rest, l)
  {
    hide Tens, Times;
    if whole <= 0 {
      TimesNothing(g.d);
      TimesMono(g.d, whole, 0);
    }
  }

  /** At one length, with no shorter decimal inside: going on is wrong, and stopping chooses wrongly, exactly
      when the length is bad. */
  lemma Level(g: Gaps, skew: int, zeroHigh: bool, i: nat, whole: int, rest: int, q: int,
                                 low: bool, high: bool, up: bool)
    requires Parts(g, i, whole, rest) && NoShorter(g, i) && q % 2 == whole % 2
    requires rest == g.d ==> !zeroHigh
    requires low == Judged(g, skew, zeroHigh && i == 0, rest, Tens(g.low, i)) && high == HighTrue(g, rest, Tens(g.up, i))
    requires up == (if low && high then RoundsUp(g.d, q, rest) else high)
    ensures low || high ==> (Inside(g, i, if up then whole + 1 else whole) <==> !BadAt(g, skew, zeroHigh, i))
    ensures !low && !high ==> (NoShorter(g, i + 1) <==> !BadAt(g, skew, zeroHigh, i))
  {
    Chosen(g, i, whole, rest);
    BadAtIs(g, skew, zeroHigh, i, whole, rest);
    if !low && !high { NextShorter(g, i, whole, rest); }
    hide Tens, Times, NoShorter, Inside, BadAt;
  }

  lemma {:induction false} BadAtIs(g: Gaps, skew: int, zeroHigh: bool, i: nat, whole: int, rest: int)
    requires Parts(g, i, whole, rest) && NoShorter(g, i) && (rest == g.d ==> !zeroHigh)
    ensures BadAt(g, skew, zeroHigh, i) <==>
              || (rest == Tens(g.low, i) && BadTie(g, skew, i, whole))
              || (i == 0 && zeroHigh && rest == 0 && !Inside(g, 0, whole + 1))
  {
    hide Times, NoShorter, Inside, Tens;
    forall m | BadTie(g, skew, i, m) ensures m == whole && rest == Tens(g.low, i) {
      BadTieIs(g, skew, i, whole, rest, m);
    }
    forall m | i == 0 && BadZero(g, m) && rest < g.d ensures m == whole && rest == 0 {
      SameUnits(g.d, m, whole);
      SameUnits(g.d, whole, m);
    }
    if i == 0 && rest == 0 && !Inside(g, 0, whole + 1) { assert BadZero(g, whole); }
  }

  /** Without rounding up, a decimal of this length is inside exactly when the lower test holds. */
  lemma {:induction false} NextShorter(g: Gaps, i: nat, whole: int, rest: int)
    requires Parts(g, i, whole, rest) && !HighTrue(g, rest, Tens(g.up, i))
    ensures NoShorter(g, i + 1) <==> !LowTrue(g, rest, Tens(g.low, i))
  {
    Chosen(g, i, whole, rest);
    CoarseInside(g, i, whole);
    hide Tens;
    forall m | !LowTrue(g, rest, Tens(g.low, i)) ensures !Inside(g, i + 1, Coarse(m)) {
      CoarseInside(g, i, m);
      Outside(g, i, whole, rest, m);
    }
  }

  lemma CoarseInside(g: Gaps, i: nat, m: int)
    ensures Inside(g, i + 1, Coarse(m)) <==> Inside(g, i, m)
  {
    hide Times;
    NextTens(g.n, i);
    NextTens(g.low, i);
    NextTens(g.up, i);
    TimesNext(g.d, m, 0);
  }

  /** Once a decimal is inside, a shorter one is inside at every greater length. */
  lemma {:induction false} StaysInside(g: Gaps, i: nat, m: int, j: nat)
    requires Inside(g, i, m) && i < j
    ensures !NoShorter(g, j)
    decreases j - i
  {
    hide Inside;
    CoarseInside(g, i, m);
    if i + 1 < j { StaysInside(g, i + 1, Coarse(m), j); }
  }

  lemma FirstState(g: Gaps, skew: int, zeroHigh: bool)
    ensures NeverBad(g, skew, zeroHigh, 0) && Denotes([]) == 0
  {
  }

  lemma OneMoreLevel(g: Gaps, skew: int, zeroHigh: bool, i: nat)
    ensures NeverBad(g, skew, zeroHigh, i + 1) <==> NeverBad(g, skew, zeroHigh, i) && !BadAt(g, skew, zeroHigh, i)
    ensures !NoShorter(g, i) ==> !NoShorter(g, i + 1)
  {
    hide BadAt, Inside;
    if !NoShorter(g, i) {
      var m :| Inside(g, i, Coarse(m));
      StaysInside(g, i, Coarse(m), i + 1);
    }
  }

  /** A whole divisor is left behind only by the quotient 0. */
  lemma SplitWhole(g: Gaps, n: int, q: int, rest: int)
    requires g.d > 0 && 0 <= n <= 10 * g.d && Split(g, n, q, rest)
    ensures rest == g.d ==> q == 0
  {
    QuotientIs(n, g.d);
  }

  /** The parts of the value after one more division. */
  lemma {:induction false} PartsAt(g: Gaps, s: seq<int>, n: int, l: int, u: int, q: int, rest: int)
    requires Going(g, s, n, l, u) && Split(g, n, q, rest) && g.low < g.n && Denotes(s) >= 0
    requires rest == g.d ==> Denotes(s) == 0
    ensures var whole := Denotes(s + [ZERO + q]);
            Parts(g, |s|, whole, rest) && whole == 10 * Denotes(s) + q && whole % 2 == q % 2
  {
    hide Tens, Denotes, Times, Split, Going;
    GoingBounds(g, s, n, l, u);
    DigitAt(g, s, n, l, u, q, rest);
    DenotesLast(s, ZERO + q);
    TensOrder(g.low, g.n, |s|);
    SplitWhole(g, n, q, rest);
    LastDecides(Denotes(s), q);
  }

  lemma LastDecides(x: int, q: int)
    ensures (10 * x + q) % 2 == q % 2
  {
  }

  lemma {:induction false} TensOrder(x: nat, y: nat, i: nat)
    requires x < y
    ensures Tens(x, i) < Tens(y, i)
  {
    if i > 0 { TensOrder(x, y, i - 1); }
  }

  /** After the first length lower is longer than the numerator can reach. */
  lemma {:induction false} LowerBigits(g: Gaps, i: nat, bits: seq<bigit>, lowExp: nat, exp: nat)
    requires bits != [] && Shift(V(bits), lowExp) == Tens(g.low, i)
    requires exp <= lowExp || 10 * g.low >= Shift(1, exp)
    ensures i > 0 ==> |bits| + lowExp > exp
  {
    if i > 0 && exp > lowExp {
      TensLinear(g.low, 0, i - 1);
      assert Tens(g.low, i) == 10 * Tens(g.low, i - 1);
      TensGrows(g.low, i - 1);
      LongNumber(bits, lowExp, exp);
    }
  }

  /** The verdict: the result is shortest and reads back exactly when no length is bad. */
  lemma Verdict(g: Gaps, skew: int, zeroHigh: bool, i: nat, m: int)
    requires NoShorter(g, i) <==> NeverBad(g, skew, zeroHigh, i)
    requires NoShorter(g, i) ==> (Inside(g, i, m) <==> !BadAt(g, skew, zeroHigh, i))
    ensures Good(g, i, m) <==> AllGood(g, skew, zeroHigh)
  {
    hide Inside, NoShorter;
    if Good(g, i, m) {
      forall j: nat ensures !BadAt(g, skew, zeroHigh, j) {
        if j > i { StaysInside(g, i, m, j); }
      }
    }
  }

  /** The loop stops: the chosen character completes a decimal between the midpoints, and the verdict falls. */
  lemma {:induction false} Stopped(g: Gaps, skew: int, zeroHigh: bool, s: seq<int>, n: int, l: int, u: int, q: int, rest: int,
                                   low: bool, high: bool, up: bool)
    requires Going(g, s, n, l, u) && Split(g, n, q, rest) && Parts(g, |s|, Denotes(s + [ZERO + q]), rest)
    requires q % 2 == Denotes(s + [ZERO + q]) % 2 && (rest == g.d ==> !zeroHigh) && (low || high)
    requires low == Judged(g, skew, zeroHigh && |s| == 0, rest, Tens(g.low, |s|)) && high == HighTrue(g, rest, Tens(g.up, |s|))
    requires up == (if low && high then RoundsUp(g.d, q, rest) else high)
    requires NoShorter(g, |s|) <==> NeverBad(g, skew, zeroHigh, |s|)
    ensures var data := s + [if up then ZERO + q + 1 else ZERO + q];
            && AllDigits(data) && Within(g, |s|, Denotes(data))
            && (Good(g, |s|, Denotes(data)) <==> AllGood(g, skew, zeroHigh))
  {
    hide Tens, Times, Denotes, Inside, Within, NoShorter, NeverBad, BadAt, AllGood, RoundsUp;
    var whole := Denotes(s + [ZERO + q]);
    DigitAt(g, s, n, l, u, q, rest);
    Chosen(g, |s|, whole, rest);
    if NoShorter(g, |s|) { Level(g, skew, zeroHigh, |s|, whole, rest, q, low, high, up); }
    Verdict(g, skew, zeroHigh, |s|, if up then whole + 1 else whole);
  }

  /** The loop goes on. */
  lemma {:induction false} Continued(g: Gaps, skew: int, zeroHigh: bool, s: seq<int>, n: int, l: int, u: int, q: int, rest: int,
                                     low: bool, high: bool)
    requires Going(g, s, n, l, u) && Split(g, n, q, rest) && Parts(g, |s|, Denotes(s + [ZERO + q]), rest)
    requires q % 2 == Denotes(s + [ZERO + q]) % 2 && (rest == g.d ==> !zeroHigh) && !low && !high
    requires low == Judged(g, skew, zeroHigh && |s| == 0, rest, Tens(g.low, |s|)) && high == HighTrue(g, rest, Tens(g.up, |s|))
    requires NoShorter(g, |s|) <==> NeverBad(g, skew, zeroHigh, |s|)
    ensures Going(g, s + [ZERO + q], 10 * rest, 10 * l, 10 * u) && 10 * u <= 10 * g.d && u > 0
    ensures NoShorter(g, |s| + 1) <==> NeverBad(g, skew, zeroHigh, |s| + 1)
  {
    hide Tens, Times, Denotes, Inside, NoShorter, NeverBad, BadAt, RoundsUp, Judged;
    if NoShorter(g, |s|) { Level(g, skew, zeroHigh, |s|, Denotes(s + [ZERO + q]), rest, q, low, high, false); }
    OneMoreLevel(g, skew, zeroHigh, |s|);
    assert u == Tens(g.up, |s|);
    GoOn(g, s, n, l, u, q, rest);
  }

  // ----- the gaps in terms of the value -----

  /** m * 10^u lies between the midpoints around f * 2^e, or on one of them; the lower gap is half as wide
      when the predecessor is closer. */
  predicate Bracketed(f: nat, e: int, closer: bool, u: int, m: int)
    requires f > 0
  {
    Top(4 * f - (if closer then 1 else 2), e, u) <= 4 * m * Bottom(e, u) <= Top(4 * f + 2, e, u)
  }

  /** Reading m * 10^u, rounding half to even, gives f * 2^e back. */
  predicate Readable(f: nat, e: int, closer: bool, u: int, m: int)
    requires f > 0
  {
    var lo, hi, x := Top(4 * f - (if closer then 1 else 2), e, u), Top(4 * f + 2, e, u), 4 * m * Bottom(e, u);
    if f % 2 == 0 then lo <= x <= hi else lo < x < hi
  }

  /** m * 10^u is the midpoint below the value. */
  predicate OnMidpoint(f: nat, e: int, closer: bool, u: int, m: int)
    requires f > 0
  {
    4 * m * Bottom(e, u) == Top(4 * f - (if closer then 1 else 2), e, u)
  }

  /** Of m and m + 1 units around the midpoint and the value, half-to-even rounding of the value takes m + 1. */
  predicate UpperNearer(e: int, closer: bool, u: int, m: int) {
    var gap, unit := Top(1, e, u), (if closer then 2 else 1) * Bottom(e, u);
    gap > unit || (gap == unit && m % 2 != 0)
  }

  ghost predicate NoShorterReadable(f: nat, e: int, closer: bool, u: int)
    requires f > 0
  {
    forall m :: !Readable(f, e, closer, u, Coarse(m))
  }

  predicate Fits(g: Gaps, f: nat, e: int, closer: bool, x: int) {
    && f > 0 && g.d > 0 && g.even == (f % 2 == 0)
    && DragonScale.Represents(g.n, g.d, f, e, x)
    && DragonScale.Represents(2 * g.up, g.d, 1, e, x)
    && DragonScale.Represents((if closer then 4 else 2) * g.low, g.d, 1, e, x)
  }

  lemma TopScaled(f: nat, k: nat, e: int, x: int)
    ensures Top(k * f, e, x) == k * Top(f, e, x)
  {
    MulAssoc(k, f, Pow(2, Pos(e)));
    MulAssoc(k, f * Pow(2, Pos(e)), Pow(10, Pos(-x)));
  }

  lemma TopSum(a: nat, b: nat, e: int, x: int)
    ensures Top(a + b, e, x) == Top(a, e, x) + Top(b, e, x)
  {
    Distributes(a, b, Pow(2, Pos(e)));
    Distributes(a * Pow(2, Pos(e)), b * Pow(2, Pos(e)), Pow(10, Pos(-x)));
  }

  lemma Bounds(f: nat, e: int, x: int, c: nat)
    requires f > 0 && c <= 2
    ensures Top(4 * f - c, e, x) == 4 * Top(f, e, x) - c * Top(1, e, x)
    ensures Top(4 * f + 2, e, x) == 4 * Top(f, e, x) + 2 * Top(1, e, x)
    ensures Top(4 * f, e, x) == 4 * Top(f, e, x)
  {
    TopScaled(f, 4, e, x);
    TopScaled(1, c, e, x);
    TopScaled(1, 2, e, x);
    TopSum(4 * f, 2, e, x);
    TopSum(4 * f - c, c, e, x);
  }

  /** A gap moved to the unit 10^(x - i). */
  lemma {:induction false} AtUnit(n: nat, d: nat, f: nat, e: int, x: int, i: nat)
    requires DragonScale.Represents(n, d, f, e, x)
    ensures Tens(n, i) * Bottom(e, x - i) == Top(f, e, x - i) * d
  {
    ChangeUnit(n, d, f, e, x, i);
    TensIsPow(n, i);
    PowZero();
  }

  /** The loop's gaps are the midpoints around the value. */
  lemma {:induction false} InsideIsReadable(g: Gaps, i: nat, m: int, f: nat, e: int, closer: bool, x: int)
    requires Fits(g, f, e, closer, x)
    ensures Inside(g, i, m) <==> Readable(f, e, closer, x - i, m)
    ensures Within(g, i, m) <==> Bracketed(f, e, closer, x - i, m)
    ensures Times(g.d, m) == Tens(g.n, i) - Tens(g.low, i) <==> OnMidpoint(f, e, closer, x - i, m)
    ensures Times(g.d, m) == Tens(g.n, i) <==> m * Bottom(e, x - i) == Top(f, e, x - i)
    ensures RoundsUp(g.d, m, Tens(g.low, i)) <==> UpperNearer(e, closer, x - i, m)
  {
    var u := x - i;
    var c := if closer then 1 else 2;
    AtUnit(g.n, g.d, f, e, x, i);
    AtUnit(2 * g.up, g.d, 1, e, x, i);
    AtUnit((if closer then 4 else 2) * g.low, g.d, 1, e, x, i);
    TensScaled(g.up, 2, i);
    TensScaled(g.low, if closer then 4 else 2, i);
    Bounds(f, e, u, c);
    BottomPositive(e, u);
    var t, l, w := Tens(g.n, i), Tens(g.low, i), Tens(g.up, i);
    var b, a, o := Bottom(e, u), Top(f, e, u), Top(1, e, u);
    hide Tens, Top, Bottom, DragonScale.Represents;
    LowSide(t, l, b, a, o, g.d, closer);
    HighSide(t, w, b, a, o, g.d);
    MulAssoc(4, t, b);
    MulAssoc(4, a, g.d);
    MidSide(g.d, m, b);
    CrossOrder(t - l, Times(g.d, m), 4 * a - c * o, 4 * m * b, g.d, b);
    CrossOrder(t + w, Times(g.d, m), 4 * a + 2 * o, 4 * m * b, g.d, b);
    CrossOrder(t, Times(g.d, m), 4 * a, 4 * m * b, g.d, b);
    MulAssoc(4, m, b);
    TwiceLow(l, g.d, b, o, closer);
  }

  lemma TwiceLow(l: int, d: int, b: int, o: int, closer: bool)
    requires d > 0 && b > 0 && (if closer then 4 * l else 2 * l) * b == o * d
    ensures 2 * l > d <==> o > (if closer then 2 else 1) * b
    ensures 2 * l == d <==> o == (if closer then 2 else 1) * b
  {
    var k := if closer then 2 else 1;
    MulAssoc(k, d, b);
    MulAssoc(k, b, d);
    Commutes(d, b);
    ScaledOrder(k * (2 * l), k * d, b);
    ScaledOrder(k * d, k * (2 * l), b);
    ScaledOrder(o, k * b, d);
    ScaledOrder(k * b, o, d);
  }

  lemma {:induction false} TensScaled(x: nat, k: nat, i: nat)
    ensures Tens(k * x, i) == k * Tens(x, i)
  {
    TensIsPow(k * x, i);
    TensIsPow(x, i);
    MulAssoc(k, x, Pow(10, i));
  }

  lemma LowSide(t: int, l: int, b: int, a: int, o: int, d: int, closer: bool)
    requires t * b == a * d && (if closer then 4 * l else 2 * l) * b == o * d
    ensures (4 * (t - l)) * b == (4 * a - (if closer then o else 2 * o)) * d
  {
    assert (4 * (t - l)) * b == 4 * (t * b) - 4 * (l * b);
    MulAssoc(if closer then 4 else 2, l, b);
    assert (4 * a - o) * d == 4 * (a * d) - o * d;
    assert (4 * a - 2 * o) * d == 4 * (a * d) - 2 * (o * d);
  }

  lemma HighSide(t: int, w: int, b: int, a: int, o: int, d: int)
    requires t * b == a * d && (2 * w) * b == o * d
    ensures (4 * (t + w)) * b == (4 * a + 2 * o) * d
  {
    assert (4 * (t + w)) * b == 4 * (t * b) + 4 * (w * b);
    MulAssoc(2, w, b);
    assert (4 * a + 2 * o) * d == 4 * (a * d) + 2 * (o * d);
  }

  lemma MidSide(d: int, m: int, b: int)
    ensures (4 * Times(d, m)) * b == (4 * m * b) * d
  {
    MulAssoc(4, d * m, b);
    Swap(d, m, b);
    Commutes(d, m);
    Swap(m, b, d);
    MulAssoc(4, m, b);
    MulAssoc(4, m * b, d);
  }

  lemma CrossOrder(x: int, y: int, p: int, q: int, d: int, b: int)
    requires d > 0 && b > 0 && (4 * x) * b == p * d && (4 * y) * b == q * d
    ensures (x < y <==> p < q) && (x == y <==> p == q)
  {
    ScaledOrder(4 * x, 4 * y, b);
    ScaledOrder(p, q, d);
  }

  // ----- the start and the result -----

  /** The lower gap is less than half of the value. */
  lemma LowBelow(n: nat, l: nat, d: nat, f: nat, e: int, x: int, c: nat)
    requires f > 0 && d > 0 && l > 0 && c >= 2
    requires DragonScale.Represents(n, d, f, e, x) && DragonScale.Represents(c * l, d, 1, e, x)
    ensures l < n
  {
    BottomPositive(e, x);
    TopScaled(1, f, e, x);
    var b, a, o := Bottom(e, x), Top(f, e, x), Top(1, e, x);
    hide Top, Bottom;
    assert o <= f * o by { MulAtLeast(f, o); }
    MulMono(o, d, f * o, d);
    assert (c * l) * b <= n * b;
    if c * l > n { ScaledOrder(n, c * l, b); }
    assert c * l >= 2 * l by { Scale(2, c, l); }
  }

  lemma EstimateBound(f: nat, e: int, x: int)
    requires TooHigh(f, e, x)
    ensures Top(f, e, x) < Bottom(e, x)
  {
    TopLinear(f, e, x);
    OnePositive(e, x);
    hide Top, Bottom;
  }

  lemma OnePositive(e: int, x: int)
    ensures Top(1, e, x) > 0
  {
    PowPositive(2, Pos(e));
    PowPositive(10, Pos(-x));
    Positive(1 * Pow(2, Pos(e)), Pow(10, Pos(-x)));
  }

  /** After the optional fixup the loop can start, provided the estimate is not too low. */
  lemma Started(n: nat, u: nat, l: nat, d: nat, f: nat, e: int, closer: bool, fixup: bool, exp10: int)
    requires f > 0 && d > 0 && u > 0 && l > 0 && TooHigh(f, e, exp10 + 1)
    requires DragonScale.Represents(n, d, f, e, exp10) && DragonScale.Represents(2 * u, d, 1, e, exp10)
    requires DragonScale.Represents((if closer then 4 else 2) * l, d, 1, e, exp10)
    ensures var lowered := fixup && (if f % 2 == 0 then n + u < d else n + u <= d);
            var k, x := if lowered then 10 else 1, FinalExponent(f, e, fixup, exp10);
            var g := Gaps(n * k, d, l * k, u * k, f % 2 == 0);
            && x == (if lowered then exp10 - 1 else exp10)
            && Fits(g, f, e, closer, x) && Going(g, [], g.n, g.low, g.up) && NoShorter(g, 0)
  {
    var c := if closer then 4 else 2;
    EstimateBound(f, e, exp10 + 1);
    AfterFixup(n, u, d, f, e, fixup, exp10);
    LowBelow(n, l, d, f, e, exp10, c);
    OneLower(n, d, f, e, exp10);
    OneLower(2 * u, d, 1, e, exp10);
    OneLower(c * l, d, 1, e, exp10);
    OneHigher(n, d, f, e, exp10);
    OneHigher(2 * u, d, 1, e, exp10);
    FixupTest(n, u, d * 10, f, e, exp10 + 1);
    hide DragonScale.Represents, Top, Bottom, Going, NoShorter;
    MulAssoc(2, u, 10);
    MulAssoc(c, l, 10);
    if fixup && (if f % 2 == 0 then n + u < d else n + u <= d) {
      FirstGoing(Gaps(n * 10, d, l * 10, u * 10, f % 2 == 0));
    } else {
      FirstGoing(Gaps(n, d, l, u, f % 2 == 0));
    }
  }

  lemma OneHigher(n: nat, d: nat, f: nat, e: int, x: int)
    requires DragonScale.Represents(n, d, f, e, x)
    ensures DragonScale.Represents(n, d * 10, f, e, x + 1)
  {
    ChangeUnit(n, d, f, e, x, -1);
    assert Pow(10, 0) == 1 && Pow(10, 1) == 10;
  }

  // ----- the condition in terms of the call -----

  /** How many more zero bigits the remainders carry than lower. */
  function Skew(e: int, closer: bool, estimate: int): int {
    var a := (e + (if closer then 2 else 1)) / 32;
    (if a < estimate / 32 then a else estimate / 32) - e / 32
  }

  ghost predicate TieMisjudged(f: nat, e: int, closer: bool, skew: int, u: int, m: int)
    requires f > 0
  {
    && OnMidpoint(f, e, closer, u, m) && NoShorterReadable(f, e, closer, u)
    && if f % 2 == 0 then skew < 0 && !Readable(f, e, closer, u, m + 1)
       else skew > 0 && !(Readable(f, e, closer, u, m + 1) && UpperNearer(e, closer, u, m))
  }

  predicate ZeroMisjudged(f: nat, e: int, closer: bool, x: int, m: int)
    requires f > 0
  {
    m * Bottom(e, x) == Top(f, e, x) && !Readable(f, e, closer, x, m + 1)
  }

  /** The exact condition under which the shortest branch misses its goal: the midpoint below the value is a
      decimal that would end the loop, and the exponents of the big integers make compare() answer the tie the
      wrong way; or the value has one digit and its zero remainder has a higher exponent than lower. */
  ghost predicate Misjudged(f: nat, e: int, closer: bool, fixup: bool, estimate: int)
    requires f > 0
  {
    var x, skew := FinalExponent(f, e, fixup, estimate), Skew(e, closer, estimate);
    && e >= 0
    && ((exists u, m :: u <= x && TieMisjudged(f, e, closer, skew, u, m))
        || (skew > 0 && x == estimate && exists m :: ZeroMisjudged(f, e, closer, x, m)))
  }

  /** The characters are digits and their decimal lies between the midpoints; unless misjudged, and only then,
      it reads back as f * 2^e and no shorter decimal does. */
  ghost predicate ShortestPrinted(f: nat, e: int, closer: bool, x: int, data: seq<int>, expOut: int, misjudged: bool) {
    && f > 0 && data != [] && AllDigits(data) && expOut == x - (|data| - 1)
    && Bracketed(f, e, closer, expOut, Denotes(data))
    && (Readable(f, e, closer, expOut, Denotes(data)) && NoShorterReadable(f, e, closer, expOut) <==> !misjudged)
  }

  lemma NoShorterAtUnit(g: Gaps, i: nat, f: nat, e: int, closer: bool, x: int)
    requires Fits(g, f, e, closer, x)
    ensures NoShorter(g, i) <==> NoShorterReadable(f, e, closer, x - i)
  {
    hide DragonScale.Represents, Inside, Readable;
    forall m ensures Inside(g, i, Coarse(m)) <==> Readable(f, e, closer, x - i, Coarse(m)) {
      InsideIsReadable(g, i, Coarse(m), f, e, closer, x);
    }
  }

  lemma TieAtUnit(g: Gaps, skew: int, i: nat, m: int, f: nat, e: int, closer: bool, x: int)
    requires Fits(g, f, e, closer, x)
    ensures BadTie(g, skew, i, m) <==> TieMisjudged(f, e, closer, skew, x - i, m)
    ensures i == 0 ==> (BadZero(g, m) <==> ZeroMisjudged(f, e, closer, x, m))
  {
    hide DragonScale.Represents, Inside, Readable, NoShorter, NoShorterReadable, OnMidpoint, UpperNearer, RoundsUp;
    NoShorterAtUnit(g, i, f, e, closer, x);
    InsideIsReadable(g, i, m, f, e, closer, x);
    InsideIsReadable(g, i, m + 1, f, e, closer, x);
  }

  /** Some length is bad exactly when the call is misjudged. */
  lemma BadIsMisjudged(g: Gaps, zeroHigh: bool, f: nat, e: int, closer: bool, fixup: bool, estimate: int)
    requires e >= 0 && f > 0 && Fits(g, f, e, closer, FinalExponent(f, e, fixup, estimate))
    requires zeroHigh <==> Skew(e, closer, estimate) > 0 && FinalExponent(f, e, fixup, estimate) == estimate
    ensures AllGood(g, Skew(e, closer, estimate), zeroHigh) <==> !Misjudged(f, e, closer, fixup, estimate)
  {
    var x, skew := FinalExponent(f, e, fixup, estimate), Skew(e, closer, estimate);
    hide Fits, BadTie, BadZero, TieMisjudged, ZeroMisjudged, FinalExponent, Skew;
    forall i: nat, m
      ensures BadTie(g, skew, i, m) <==> TieMisjudged(f, e, closer, skew, x - i, m)
      ensures i == 0 ==> (BadZero(g, m) <==> ZeroMisjudged(f, e, closer, x, m))
    {
      TieAtUnit(g, skew, i, m, f, e, closer, x);
    }
    if !AllGood(g, skew, zeroHigh) {
      var j: nat :| BadAt(g, skew, zeroHigh, j);
      if m :| BadTie(g, skew, j, m) {
        assert TieMisjudged(f, e, closer, skew, x - j, m);
      } else {
        var m :| BadZero(g, m);
        assert BadZero(g, m) <==> ZeroMisjudged(f, e, closer, x, m) by { TieAtUnit(g, skew, 0, m, f, e, closer, x); }
      }
    }
    if exists u, m :: u <= x && TieMisjudged(f, e, closer, skew, u, m) {
      var u, m :| u <= x && TieMisjudged(f, e, closer, skew, u, m);
      var i: nat := x - u;
      assert BadTie(g, skew, i, m);
      assert BadAt(g, skew, zeroHigh, i);
    }
    if zeroHigh && exists m :: ZeroMisjudged(f, e, closer, x, m) {
      var m :| ZeroMisjudged(f, e, closer, x, m);
      TieAtUnit(g, skew, 0, m, f, e, closer, x);
      assert BadAt(g, skew, zeroHigh, 0);
    }
  }

  lemma NothingBad(g: Gaps, skew: int, zeroHigh: bool)
    requires skew == 0 && !zeroHigh
    ensures AllGood(g, skew, zeroHigh)
  {
    hide Inside, NoShorter;
  }

  /** A caller can rule a misjudgement out by looking at the exponents alone. */
  lemma NotMisjudged(f: nat, e: int, closer: bool, fixup: bool, estimate: int)
    requires f > 0 && (e < 0 || Skew(e, closer, estimate) == 0)
    ensures !Misjudged(f, e, closer, fixup, estimate)
  {
  }

  /** Ten times lower reaches as high as the numerator. */
  lemma {:induction false} StillAligned(bits: seq<bigit>, lowExp: nat, low: nat, exp: nat)
    requires bits != [] && Shift(V(bits), lowExp) == low * 10
    requires exp <= lowExp || 10 * low >= Shift(1, exp)
    ensures |bits| + lowExp > exp
  {
    if exp > lowExp { LongNumber(bits, lowExp, exp); }
  }

  lemma {:induction false} ResultIsPrinted(g: Gaps, data: seq<int>, f: nat, e: int, closer: bool, x: int, misjudged: bool)
    requires Fits(g, f, e, closer, x) && data != [] && AllDigits(data) && Within(g, |data| - 1, Denotes(data))
    requires Good(g, |data| - 1, Denotes(data)) <==> !misjudged
    ensures ShortestPrinted(f, e, closer, x, data, x - (|data| - 1), misjudged)
  {
    hide DragonScale.Represents, Inside, Within, Readable, Bracketed, Denotes, AllDigits, NoShorter, NoShorterReadable;
    var n := |data| - 1;
    InsideIsReadable(g, n, Denotes(data), f, e, closer, x);
    NoShorterAtUnit(g, n, f, e, closer, x);
  }
}
