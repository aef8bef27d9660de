/**
 * The money kernel: amounts are integers of minor units in a bounded range, and every
 * operation that could leave the range, or the range of exact doubles, fails instead.
 */
module Money {
  import opened Prelude
  import opened Sums
  import opened Arith

  const MAX_MINOR: int := 900_719_925_474
  const MAX_SAFE: int := 9_007_199_254_740_991

  predicate Safe(v: int) { -MAX_SAFE <= v <= MAX_SAFE }

  predicate InRange(v: int) { -MAX_MINOR <= v <= MAX_MINOR }

  function ToMinor(v: int): Result<int> {
    if InRange(v) then Ok(v) else Err(OutOfRange)
  }

  /** Left-to-right sum whose every partial sum must stay exact. */
  function AddFrom(acc: int, values: seq<int>): Result<int>
    decreases |values|
  {
    if values == [] then ToMinor(acc)
    else if !Safe(acc + values[0]) then Err(OutOfRange)
    else AddFrom(acc + values[0], values[1..])
  }

  function AddMinor(values: seq<int>): Result<int> {
    AddFrom(0, values)
  }

  lemma {:induction false} AddFromIsSum(acc: int, values: seq<int>)
    ensures AddFrom(acc, values).Ok? ==> AddFrom(acc, values).value == acc + Sum(values) && InRange(acc + Sum(values))
    decreases |values|
  {
    if values != [] && Safe(acc + values[0]) { AddFromIsSum(acc + values[0], values[1..]); }
  }

  /** A guarded sum that returns at all returns the mathematical sum. */
  lemma AddMinorIsSum(values: seq<int>)
    ensures AddMinor(values).Ok? ==> AddMinor(values).value == Sum(values) && InRange(Sum(values))
  {
    AddFromIsSum(0, values);
  }

  lemma Add2(a: int, b: int)
    ensures AddMinor([a, b]).Ok? ==> AddMinor([a, b]).value == a + b && InRange(a + b)
  {
    AddMinorIsSum([a, b]);
    SumOf2(a, b);
  }

  lemma Add3(a: int, b: int, c: int)
    ensures AddMinor([a, b, c]).Ok? ==> AddMinor([a, b, c]).value == a + b + c && InRange(a + b + c)
  {
    AddMinorIsSum([a, b, c]);
    SumOf3(a, b, c);
  }

  lemma Add4(a: int, b: int, c: int, d: int)
    ensures AddMinor([a, b, c, d]).Ok? ==> AddMinor([a, b, c, d]).value == a + b + c + d && InRange(a + b + c + d)
  {
    AddMinorIsSum([a, b, c, d]);
    SumOf4(a, b, c, d);
  }

  lemma Add5(a: int, b: int, c: int, d: int, e: int)
    ensures AddMinor([a, b, c, d, e]).Ok? ==> AddMinor([a, b, c, d, e]).value == a + b + c + d + e && InRange(a + b + c + d + e)
  {
    AddMinorIsSum([a, b, c, d, e]);
    SumOf5(a, b, c, d, e);
  }

  lemma {:induction false} AddFromSucceeds(acc: int, values: seq<int>)
    requires acc >= 0 && InRange(acc + Sum(values))
    requires forall i :: 0 <= i < |values| ==> values[i] >= 0
    ensures AddFrom(acc, values) == Ok(acc + Sum(values))
    decreases |values|
  {
    if values != [] {
      SumNonNegative(values[1..]);
      AddFromSucceeds(acc + values[0], values[1..]);
    }
  }

  /** With no negative addend, only the final sum can be out of range. */
  lemma AddMinorSucceeds(values: seq<int>)
    requires forall i :: 0 <= i < |values| ==> values[i] >= 0
    requires InRange(Sum(values))
    ensures AddMinor(values) == Ok(Sum(values))
  {
    AddFromSucceeds(0, values);
  }

  lemma {:induction false} AddFromFits(acc: int, values: seq<int>)
    requires forall i :: 0 <= i < |values| ==> InRange(values[i])
    requires |values| <= 9 && Abs(acc) <= (9 - |values|) * 900_719_925_474 && InRange(acc + Sum(values))
    ensures AddFrom(acc, values) == Ok(acc + Sum(values))
    decreases |values|
  {
    if values != [] { AddFromFits(acc + values[0], values[1..]); }
  }

  /** Few enough amounts in range stay exact on the way, so again only the final sum can be out of range. */
  lemma AddMinorFits(values: seq<int>)
    requires |values| <= 9 && InRange(Sum(values))
    requires forall i :: 0 <= i < |values| ==> InRange(values[i])
    ensures AddMinor(values) == Ok(Sum(values))
  {
    AddFromFits(0, values);
  }

  lemma AddMinorOfOne(a: int)
    requires InRange(a)
    ensures AddMinor([a]) == Ok(a)
  {
    assert Sum([a]) == a + Sum([]);
    AddMinorFits([a]);
  }

  method AddMinorLoop(values: seq<int>) returns (r: Result<int>)
    ensures r == AddMinor(values)
  {
    var total := 0;
    for i := 0 to |values|
      invariant AddMinor(values) == AddFrom(total, values[i..])
    {
      total := total + values[i];
      if !Safe(total) { return Err(OutOfRange); }
    }
    return ToMinor(total);
  }

  function SubMinor(a: int, b: int): Result<int> { ToMinor(a - b) }

  function NegateMinor(v: int): Result<int> { ToMinor(-v) }

  /** The nearest whole quotient; a half goes away from zero. Both operands must be exact in a double. */
  function DivRoundHalfAway(numerator: int, denominator: int): Result<int> {
    if !Safe(denominator) || denominator <= 0 then Err(BadDivisor)
    else if !Safe(numerator) then Err(OutOfRange)
    else
      var abs := Abs(numerator);
      var whole := abs / denominator;
      var rounded := if (abs - whole * denominator) * 2 >= denominator then whole + 1 else whole;
      Ok(if numerator < 0 then -rounded else rounded)
  }

  function MulBps(value: int, bps: int): Result<int> {
    if !Safe(bps) then Err(BadRate)
    else
      var q :- DivRoundHalfAway(value * bps, 10_000);
      ToMinor(q)
  }

  /** An absent bound leaves that side open; the cap wins over the floor. */
  function ClampMinor(value: int, min: Option<int>, max: Option<int>): Result<int> {
    var floored := if min.Some? && value < min.value then min.value else value;
    ToMinor(if max.Some? && floored > max.value then max.value else floored)
  }

  datatype VatSplit = VatSplit(net: int, vat: int)

  function SplitVatInclusive(gross: int, vatRateBps: int): Result<VatSplit> {
    if vatRateBps < 0 then Err(BadRate)
    else
      var q :- DivRoundHalfAway(gross * 10_000, 10_000 + vatRateBps);
      var net :- ToMinor(q);
      var vat :- SubMinor(gross, net);
      Ok(VatSplit(net, vat))
  }

  // ------------------------------------------------------------------- laws

  /** q is n/d to within half a unit, and on an exact half lies further from zero. */
  ghost predicate RoundsHalfAway(n: int, d: int, q: int) {
    && 2 * Abs(n - q * d) <= d
    && (2 * Abs(n - q * d) == d ==> Abs(q * d) > Abs(n))
  }

  /** The magnitude of a multiple, and that a multiple is never strictly between 0 and the unit. */
  lemma Multiple(q: int, d: int)
    requires d > 0
    ensures Abs(q * d) == Abs(q) * d
    ensures q * d == 0 || Abs(q * d) >= d
  {
    if q > 0 { Gap(q, 0, 1, d); } else if q < 0 { Gap(0, q, 1, d); Gap(-q, 0, 1, d); Distribute(0, q, d); }
  }

  lemma RoundingIsOrdered(m: int, n: int, d: int, p: int, q: int)
    requires d > 0 && m <= n && RoundsHalfAway(m, d, p) && RoundsHalfAway(n, d, q)
    ensures p <= q
  {
    if p > q {
      Gap(p, q, 1, d);
      Multiple(p, d);
      Multiple(q, d);
    }
  }

  /** Rounding half away from zero has exactly one answer. */
  lemma RoundingIsUnique(n: int, d: int, p: int, q: int)
    requires d > 0 && RoundsHalfAway(n, d, p) && RoundsHalfAway(n, d, q)
    ensures p == q
  {
    RoundingIsOrdered(n, n, d, p, q);
    RoundingIsOrdered(n, n, d, q, p);
  }

  /** Division fails exactly on unsafe operands, and otherwise rounds half away from zero. */
  lemma DivisionRounds(n: int, d: int)
    ensures DivRoundHalfAway(n, d).Ok? <==> 0 < d <= MAX_SAFE && Safe(n)
    ensures DivRoundHalfAway(n, d).Ok? ==> RoundsHalfAway(n, d, DivRoundHalfAway(n, d).value)
  {
    if 0 < d <= MAX_SAFE && Safe(n) {
      var w := Abs(n) / d;
      Quotient(Abs(n), d);
      Distribute(w, 1, d);
      Distribute(0, w, d);
      Distribute(0, w + 1, d);
    }
  }

  /** A reversal undoes a charge exactly: rounding is odd. */
  lemma DivisionIsOdd(n: int, d: int)
    requires DivRoundHalfAway(n, d).Ok?
    ensures DivRoundHalfAway(-n, d) == Ok(-DivRoundHalfAway(n, d).value)
  {
    if n == 0 { QuotientIsUnique(0, d, 0); }
  }

  lemma DivisionIsMonotone(m: int, n: int, d: int)
    requires m <= n && DivRoundHalfAway(m, d).Ok? && DivRoundHalfAway(n, d).Ok?
    ensures DivRoundHalfAway(m, d).value <= DivRoundHalfAway(n, d).value
  {
    DivisionRounds(m, d);
    DivisionRounds(n, d);
    RoundingIsOrdered(m, n, d, DivRoundHalfAway(m, d).value, DivRoundHalfAway(n, d).value);
  }

  /** Below 100% no intermediate of a rate multiplication leaves the exact range. */
  lemma RateMultiplicationIsSafe(value: int, bps: int)
    requires InRange(value) && -10_000 <= bps <= 10_000
    ensures Safe(value * bps)
    ensures MulBps(value, bps).Ok?
    ensures RoundsHalfAway(value * bps, 10_000, MulBps(value, bps).value)
    ensures Abs(MulBps(value, bps).value) <= Abs(value)
  {
    ProductBound(value, bps);
    DivisionRounds(value * bps, 10_000);
    var q := DivRoundHalfAway(value * bps, 10_000).value;
    assert Abs(value * bps) <= Abs(value) * 10_000;
    assert Abs(q) <= Abs(value);
  }

  lemma ProductBound(value: int, bps: int)
    requires -10_000 <= bps <= 10_000
    ensures Abs(value * bps) <= Abs(value) * 10_000
  {
    if value >= 0 {
      ProductGrows(bps, 10_000, value);
      ProductGrows(-10_000, bps, value);
    } else {
      ProductGrows(bps, 10_000, -value);
      ProductGrows(-10_000, bps, -value);
      Distribute(0, value, bps);
    }
  }

  lemma MulBpsIsOdd(value: int, bps: int)
    requires MulBps(value, bps).Ok?
    ensures MulBps(-value, bps) == Ok(-MulBps(value, bps).value)
  {
    Distribute(0, value, bps);
    DivisionIsOdd(value * bps, 10_000);
  }

  lemma MulBpsIsMonotone(v: int, w: int, bps: int)
    requires v <= w && bps >= 0 && MulBps(v, bps).Ok? && MulBps(w, bps).Ok?
    ensures MulBps(v, bps).value <= MulBps(w, bps).value
  {
    ProductGrows(v, w, bps);
    DivisionIsMonotone(v * bps, w * bps, 10_000);
  }

  lemma VatError(net: int, rate: int, vat: int)
    ensures (net + vat) * 10_000 - net * (10_000 + rate) == vat * 10_000 - net * rate
    ensures rate == 0 ==> net * rate == 0
  {
    assert net * (10_000 + rate) == net * 10_000 + net * rate;
  }

  /** Adding VAT and splitting it off again gives the net amount back, to the unit. */
  lemma VatRoundTrip(net: int, rate: int)
    requires InRange(net) && 0 <= rate <= 10_000
    ensures MulBps(net, rate).Ok?
    ensures var gross := net + MulBps(net, rate).value;
      InRange(gross) ==> SplitVatInclusive(gross, rate) == Ok(VatSplit(net, MulBps(net, rate).value))
  {
    RateMultiplicationIsSafe(net, rate);
    var vat := MulBps(net, rate).value;
    var gross := net + vat;
    if InRange(gross) {
      var d := 10_000 + rate;
      DivisionRounds(gross * 10_000, d);
      // the split misses net*d by at most half of 10000 units, which is at most half of d
      VatError(net, rate, vat);
      assert RoundsHalfAway(gross * 10_000, d, net);
      RoundingIsUnique(gross * 10_000, d, net, DivRoundHalfAway(gross * 10_000, d).value);
      assert SubMinor(gross, net) == Ok(vat);
    }
  }

  /** The net part grows with the gross. */
  lemma SplitIsMonotone(g: int, h: int, rate: int)
    requires g <= h && SplitVatInclusive(g, rate).Ok? && SplitVatInclusive(h, rate).Ok?
    ensures SplitVatInclusive(g, rate).value.net <= SplitVatInclusive(h, rate).value.net
  {
    DivisionIsMonotone(g * 10_000, h * 10_000, 10_000 + rate);
  }
}
