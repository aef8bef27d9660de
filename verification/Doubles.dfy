/**
 * The one place where money is multiplied and divided in double precision: the proration of a
 * refund's cost of goods. Magnitudes here stay far inside the exponent range, so a double is a
 * mantissa of at most 53 bits times a power of two, and each operation rounds half to even.
 */
module Doubles {
  import opened Prelude
  import opened Arith
  import opened Money

  const TWO_52: nat := 4_503_599_627_370_496
  const TWO_53: nat := 9_007_199_254_740_992

  /** num / den to the nearest whole number, a half to the even neighbour. */
  function RoundHalfEven(num: nat, den: nat): nat
    requires den > 0
  {
    var whole := num / den;
    var rest := num - whole * den;
    if 2 * rest < den || (2 * rest == den && whole % 2 == 0) then whole else whole + 1
  }

  /** How often den doubles before num / den has at most 53 bits. */
  function Halvings(num: nat, den: nat): nat
    requires den > 0
    decreases if num >= den then num - den else 0
  {
    if num < TWO_53 * den then 0 else 1 + Halvings(num, 2 * den)
  }

  /** How often num doubles before num / den has 53 bits. */
  function Doublings(num: nat, den: nat): nat
    requires num > 0 && den > 0
    decreases if num < TWO_52 * den then TWO_52 * den - num else 0
  {
    if num >= TWO_52 * den then 0 else 1 + Doublings(2 * num, den)
  }

  /** The double nearest a whole number, which is whole. */
  function NearestWhole(p: nat): nat {
    if p < TWO_53 then p
    else
      var unit := Pow2(Halvings(p, 1));
      Pow2Grows(0, Halvings(p, 1));
      RoundHalfEven(p, unit) * unit
  }

  datatype Fraction = Fraction(num: nat, den: nat)

  /** The double nearest p / q, as a fraction over a power of two. */
  function NearestQuotient(p: nat, q: nat): (f: Fraction)
    requires q > 0
    ensures f.den > 0
  {
    if p == 0 then Fraction(0, 1)
    else if p >= TWO_53 * q then
      var unit := Pow2(Halvings(p, q));
      Pow2Grows(0, Halvings(p, q));
      Fraction(RoundHalfEven(p, q * unit) * unit, 1)
    else
      var scale := Pow2(Doublings(p, q));
      Pow2Grows(0, Doublings(p, q));
      Fraction(RoundHalfEven(p * scale, q), scale)
  }

  function CeilingOf(num: nat, den: nat): int
    requires den > 0
  {
    (num + den - 1) / den
  }

  /** full * amount / gross in doubles, and the largest whole number not above it. */
  function Prorate(full: int, amount: nat, gross: nat): int
    requires gross > 0
  {
    var q := NearestQuotient(NearestWhole(Abs(full) * amount), gross);
    if full >= 0 then q.num / q.den else -CeilingOf(q.num, q.den)
  }

  // -------------------------------------------------------------------- laws

  lemma RoundsNear(num: nat, den: nat)
    requires den > 0
    ensures var m, whole := RoundHalfEven(num, den), num / den;
      && (m == whole || m == whole + 1)
      && (m == whole ==> 2 * (num - whole * den) <= den)
      && (m == whole + 1 ==> 2 * (num - whole * den) >= den && num - whole * den > 0)
  {
    Quotient(num, den);
  }

  lemma {:induction false} DoublingsReach(num: nat, den: nat)
    requires 0 < num < TWO_53 * den
    ensures TWO_52 * den <= num * Pow2(Doublings(num, den)) < TWO_53 * den
    decreases if num < TWO_52 * den then TWO_52 * den - num else 0
  {
    if num < TWO_52 * den {
      DoublingsReach(2 * num, den);
      Regroup(num, Pow2(Doublings(2 * num, den)));
    }
  }

  lemma Regroup(a: int, b: int)
    ensures (2 * a) * b == a * (2 * b)
  {
  }

  /** Scaling is undone by a nested quotient. */
  lemma ScaledQuotient(p: nat, q: nat, scale: nat)
    requires q > 0 && scale > 0
    ensures (p * scale / q) / scale == p / q
  {
    var k, w := p / q, p * scale / q;
    Quotient(p, q);
    Quotient(p * scale, q);
    // k*scale*q <= p*scale < (k+1)*scale*q
    ProductGrows(k * q, p, scale);
    ProductGrows(p + 1, k * q + q, scale);
    Swap(k, q, scale);
    Swap(k + 1, q, scale);
    assert (k + 1) * q == k * q + q;
    assert (p + 1) * scale == p * scale + scale;
    if w < k * scale { Gap(k * scale, w, 1, q); }
    if w >= (k + 1) * scale { Gap(w, (k + 1) * scale, 0, q); }
    assert (k + 1) * scale == k * scale + scale;
    QuotientIsUnique(w, scale, k);
  }

  lemma Swap(a: int, b: int, c: int)
    ensures (a * b) * c == (a * c) * b
  {
  }

  /** Below 2^53, rounding a quotient carries it across no whole number. */
  lemma NoCarry(p: nat, q: nat, scale: nat, k: nat)
    requires 0 < p < TWO_53 && q > 0 && scale > 0
    requires TWO_52 * q <= p * scale
    ensures p < k * q ==> 2 * (k * scale * q - p * scale) > q
    ensures p > k * q ==> 2 * (p * scale - k * scale * q) > q
  {
    Swap(k, q, scale);
    if p < k * q {
      ProductGrows(p + 1, k * q, scale);
      Distribute(p, 1, scale);
      TooWide(p, q, scale);
    }
    if p > k * q {
      ProductGrows(k * q + 1, p, scale);
      Distribute(k * q, 1, scale);
      TooWide(p, q, scale);
    }
  }

  /** The scale exceeds half of q, for otherwise p would have 54 bits. */
  lemma TooWide(p: nat, q: nat, scale: nat)
    requires 0 < p < TWO_53 && q > 0 && scale > 0 && TWO_52 * q <= p * scale
    ensures 2 * scale > q
  {
    ProductGrows(p, TWO_53 - 1, scale);
  }

  lemma ExactFloor(p: nat, q: nat, scale: nat)
    requires 0 < p < TWO_53 && q > 0 && scale > 0 && TWO_52 * q <= p * scale
    ensures RoundHalfEven(p * scale, q) / scale == p / q
  {
    var m, w, k := RoundHalfEven(p * scale, q), p * scale / q, p / q;
    RoundsNear(p * scale, q);
    ScaledQuotient(p, q, scale);
    Quotient(p, q);
    Distribute(k, 1, q);
    Distribute(w, 1, q);
    NoCarry(p, q, scale, k + 1);
    if m == w + 1 && (w + 1) / scale != w / scale { StepsOver(w, scale); }
  }

  lemma StepsOver(w: nat, scale: nat)
    requires scale > 0 && (w + 1) / scale != w / scale
    ensures w + 1 == (w / scale + 1) * scale
  {
    Quotient(w, scale);
    var k := w / scale;
    assert (k + 1) * scale == k * scale + scale;
    if w + 1 < k * scale + scale { QuotientIsUnique(w + 1, scale, k); }
  }

  lemma CeilingIs(num: nat, den: nat, k: nat)
    requires den > 0 && num <= k * den && num + den > k * den
    ensures CeilingOf(num, den) == k
  {
    QuotientIsUnique(num + den - 1, den, k);
  }

  /** Rounding never passes a whole bound from below. */
  lemma RoundsUnder(num: nat, den: nat, bound: nat)
    requires den > 0 && num <= bound * den
    ensures RoundHalfEven(num, den) <= bound
  {
    var whole := num / den;
    RoundsNear(num, den);
    Quotient(num, den);
    if whole >= bound { Gap(whole, bound, whole - bound, den); }
    if whole > bound { Gap(whole, bound, 1, den); }
  }

  /** More than half a unit above a whole number, rounding leaves it behind. */
  lemma RoundsOver(num: nat, den: nat, bound: nat)
    requires den > 0 && num >= bound * den && 2 * (num - bound * den) > den
    ensures RoundHalfEven(num, den) > bound
  {
    var whole := num / den;
    RoundsNear(num, den);
    Quotient(num, den);
    if whole < bound { Gap(bound, whole, 1, den); }
  }

  lemma ExactCeiling(p: nat, q: nat, scale: nat)
    requires 0 < p < TWO_53 && q > 0 && scale > 0 && TWO_52 * q <= p * scale
    ensures CeilingOf(RoundHalfEven(p * scale, q), scale) == CeilingOf(p, q)
  {
    var m, k := RoundHalfEven(p * scale, q), CeilingOf(p, q);
    Quotient(p + q - 1, q);
    Distribute(k, 1, q);
    Distribute(k, 1, scale);
    NoCarry(p, q, scale, k - 1);
    Swap(k, q, scale);
    Swap(k - 1, q, scale);
    ProductGrows(p, k * q, scale);
    ProductGrows((k - 1) * q, p, scale);
    RoundsUnder(p * scale, q, k * scale);
    RoundsOver(p * scale, q, (k - 1) * scale);
    CeilingIs(m, scale, k);
  }

  lemma FloorOfNegative(p: nat, q: nat)
    requires q > 0
    ensures -CeilingOf(p, q) == (0 - p) / q
  {
    var k := CeilingOf(p, q);
    Quotient(p + q - 1, q);
    Distribute(0, k, q);
    QuotientIsUnique(0 - p, q, -k);
  }

  /** While the product has at most 53 bits, proration in doubles is exact: it is the floor of the true quotient. */
  lemma ProrateIsFloor(full: int, amount: nat, gross: nat)
    requires gross > 0 && Abs(full) * amount <= MAX_SAFE
    ensures Prorate(full, amount, gross) == full * amount / gross
  {
    var p := Abs(full) * amount;
    ProductSign(Abs(full), amount);
    Distribute(0, full, amount);
    if p == 0 {
      assert full * amount == 0;
    } else {
      ProductGrows(1, gross, TWO_53);
      DoublingsReach(p, gross);
      Pow2Grows(0, Doublings(p, gross));
      var scale := Pow2(Doublings(p, gross));
      ExactFloor(p, gross, scale);
      ExactCeiling(p, gross, scale);
      FloorOfNegative(p, gross);
    }
  }

  lemma {:induction false} DoublingsIs(num: nat, den: nat, k: nat)
    requires num > 0 && den > 0 && TWO_52 * den <= num * Pow2(k) < TWO_53 * den
    ensures Doublings(num, den) == k
    decreases k
  {
    if k == 0 {
      assert num * Pow2(0) == num;
    } else {
      Regroup(num, Pow2(k - 1));
      Pow2Grows(0, k - 1);
      ProductGrows(1, Pow2(k - 1), 2 * num);
      DoublingsIs(2 * num, den, k - 1);
    }
  }

  /** An even bound is reached exactly when the quotient is at most half a unit short of it. */
  lemma ReachesEven(num: nat, den: nat, bound: nat)
    requires den > 0 && bound % 2 == 0
    ensures RoundHalfEven(num, den) >= bound <==> 2 * (bound * den - num) <= den
  {
    var whole := num / den;
    RoundsNear(num, den);
    Quotient(num, den);
    Distribute(whole, 1, den);
    if whole >= bound {
      Gap(whole, bound, 0, den);
    } else if whole + 1 < bound {
      Gap(bound, whole + 1, 1, den);
    }
  }

  /** How much of full * gross the first rounding loses. */
  function RoundedOff(full: nat, gross: nat): int { full * gross - NearestWhole(full * gross) }

  /** The power of two the quotient is scaled by. */
  function Scale(full: nat, gross: nat): nat
    requires gross > 0
  {
    var p := NearestWhole(full * gross);
    if p == 0 then 1 else Pow2(Doublings(p, gross))
  }

  lemma {:induction false} HalvingsReach(num: nat, den: nat)
    requires den > 0 && num >= TWO_52 * den
    ensures num >= TWO_52 * (den * Pow2(Halvings(num, den)))
    decreases if num >= den then num - den else 0
  {
    if num >= TWO_53 * den {
      HalvingsReach(num, 2 * den);
      Regroup(den, Pow2(Halvings(num, 2 * den)));
    } else {
      assert den * Pow2(0) == den;
    }
  }

  /** Rounding a positive whole number leaves it positive and at most doubles it. */
  lemma NearestWholeBounds(p: nat)
    requires p > 0
    ensures 0 < NearestWhole(p) <= 2 * p
  {
    if p >= TWO_53 {
      var unit := Pow2(Halvings(p, 1));
      Pow2Grows(0, Halvings(p, 1));
      HalvingsReach(p, 1);
      RoundedUnits(p, unit);
    }
  }

  lemma RoundedUnits(p: nat, unit: nat)
    requires 0 < unit <= p
    ensures 0 < RoundHalfEven(p, unit) * unit <= p + unit
  {
    var m, whole := RoundHalfEven(p, unit), p / unit;
    RoundsNear(p, unit);
    Quotient(p, unit);
    assert whole >= 1 by { if whole <= 0 { Gap(0, whole, 0, unit); } }
    Distribute(whole, 1, unit);
    ProductGrows(whole, m, unit);
    ProductGrows(m, whole + 1, unit);
    ProductGrows(1, m, unit);
  }

  /**
   * Prorating by the whole gross gives the full amount back exactly when what the product lost to
   * rounding, scaled like the quotient, is at most half of the gross.
   */
  lemma WholeProrationIff(full: nat, gross: nat)
    requires 0 < full <= MAX_MINOR && gross > 0
    ensures Prorate(full, gross, gross) >= full <==> 2 * (Scale(full, gross) * RoundedOff(full, gross)) <= gross
  {
    var p, scale := NearestWhole(full * gross), Scale(full, gross);
    ProductIsSmall(full, gross);
    Pow2Grows(0, Doublings(p, gross));
    ScaleIsEven(p, gross);
    ProrationOfWhole(full, gross, p);
    hide NearestWhole, Doublings, RoundHalfEven, Prorate, Pow2;
    EvenMultiple(full, scale);
    ReachesEven(p * scale, gross, full * scale);
    LostScaled(full, gross, p, scale);
    QuotientReaches(RoundHalfEven(p * scale, gross), scale, full);
  }

  lemma ProductIsSmall(full: nat, gross: nat)
    requires 0 < full <= MAX_MINOR && gross > 0
    ensures 0 < NearestWhole(full * gross) < TWO_52 * gross
  {
    hide NearestWhole;
    ProductGrows(1, full, gross);
    ProductGrows(full, MAX_MINOR, gross);
    NearestWholeBounds(full * gross);
  }

  /** Below the 53-bit quotients, prorating by the whole gross divides the rounded, scaled product. */
  lemma ProrationOfWhole(full: nat, gross: nat, p: nat)
    requires gross > 0 && p == NearestWhole(full * gross) && 0 < p < TWO_52 * gross
    ensures var scale := Pow2(Doublings(p, gross));
    scale > 0 && Prorate(full, gross, gross) == RoundHalfEven(p * scale, gross) / scale
  {
    hide NearestWhole, Doublings, RoundHalfEven;
    Pow2Grows(0, Doublings(p, gross));
  }

  lemma QuotientReaches(m: nat, scale: nat, full: nat)
    requires scale > 0
    ensures m / scale >= full <==> m >= full * scale
  {
    Quotient(m, scale);
    if m / scale >= full {
      Gap(m / scale, full, 0, scale);
    } else {
      Gap(full, m / scale, 1, scale);
    }
  }

  lemma LostScaled(full: nat, gross: nat, p: nat, scale: nat)
    ensures (full * scale) * gross - p * scale == scale * (full * gross - p)
  {
    Swap(full, scale, gross);
    Distribute(full * gross, p, scale);
  }

  lemma ScaleIsEven(p: nat, q: nat)
    requires q > 0 && 0 < p < TWO_52 * q
    ensures Pow2(Doublings(p, q)) % 2 == 0
  {
    PowerIsEven(Doublings(p, q));
  }

  lemma PowerIsEven(n: nat)
    ensures n > 0 ==> Pow2(n) % 2 == 0
  {
    if n > 0 { assert Pow2(n) == 2 * Pow2(n - 1); }
  }

  lemma EvenMultiple(a: nat, b: nat)
    requires b % 2 == 0
    ensures (a * b) % 2 == 0
  {
    var half := b / 2;
    Regroup(half, a);
    assert a * b == 2 * (a * half);
  }

  /** Past 2^53 the code can be one unit short: a whole refund of 97_554_855 returns 95_433_702 of 95_433_703. */
  lemma ProratedShort()
    ensures 95_433_703 * 97_554_855 > MAX_SAFE
    ensures Prorate(95_433_703, 97_554_855, 97_554_855) == 95_433_702
  {
    var p, q := 9_310_021_058_278_064, 97_554_855;
    assert Halvings(p + 1, 1) == 1 + Halvings(p + 1, 2) && Halvings(p + 1, 2) == 0;
    assert Pow2(1) == 2 * Pow2(0) && Pow2(0) == 1;
    assert NearestWhole(p + 1) == p;
    PowerOf26();
    DoublingsIs(p, q, 26);
    assert RoundHalfEven(p * 67_108_864, q) == 6_404_447_395_643_391;
  }

  lemma PowerOf26()
    ensures Pow2(26) == 67_108_864
  {
    assert Pow2(2) == 4 && Pow2(4) == 16;
    PowersAdd(4, 4);
    PowersAdd(8, 8);
    PowersAdd(16, 8);
    PowersAdd(24, 2);
  }

  lemma {:induction false} PowersAdd(m: nat, n: nat)
    ensures Pow2(m + n) == Pow2(m) * Pow2(n)
  {
    if n > 0 {
      PowersAdd(m, n - 1);
      Regroup(Pow2(n - 1), Pow2(m));
    }
  }
}
