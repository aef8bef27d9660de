/** What a fee formula charges on a base: percentage and fixed part, held between floor and cap, and the VAT step after it. */
module Fee {
  import opened Prelude
  import Arith
  import opened Money
  import opened Domain

  datatype AppliedFee = AppliedFee(exVat: int, vat: int, cost: int)

  predicate FormulaIsValid(f: FeeFormula) {
    && 0 <= f.percentBps <= MAX_SAFE
    && 0 <= f.feeVatBps <= 10_000
    && 0 <= f.fixed <= MAX_MINOR
    && (f.minFee.Some? ==> 0 <= f.minFee.value <= MAX_MINOR)
    && (f.maxFee.Some? ==> 0 <= f.maxFee.value <= MAX_MINOR)
    && (f.minFee.Some? && f.maxFee.Some? ==> f.minFee.value <= f.maxFee.value)
  }

  /** The quoted fee before VAT is considered. */
  function Quote(base: int, f: FeeFormula): Result<int> {
    var percentage :- MulBps(base, f.percentBps);
    var raw :- AddMinor([percentage, f.fixed]);
    ClampMinor(raw, f.minFee, f.maxFee)
  }

  function WithVat(quote: int, f: FeeFormula, vatRegistered: bool): Result<AppliedFee> {
    if f.ratesIncludeVat then
      var split :- SplitVatInclusive(quote, f.feeVatBps);
      var exVat := split.net;
      var vat :- SubMinor(quote, exVat);
      if vatRegistered then Ok(AppliedFee(exVat, vat, exVat))
      else
        var cost :- AddMinor([exVat, vat]);
        Ok(AppliedFee(exVat, vat, cost))
    else
      var vat :- MulBps(quote, f.feeVatBps);
      if vatRegistered then Ok(AppliedFee(quote, vat, quote))
      else
        var cost :- AddMinor([quote, vat]);
        Ok(AppliedFee(quote, vat, cost))
  }

  function ApplyFee(base: int, f: FeeFormula, vatRegistered: bool): Result<AppliedFee> {
    var quote :- Quote(base, f);
    WithVat(quote, f, vatRegistered)
  }

  function BasisOf(source: FeeSource): TermBasis {
    if source.GatewayStatement? then Actual else Estimated
  }

  // -------------------------------------------------------------------- laws

  /** What the card asks for on a base: percentage and fixed part, raised to the floor, then lowered to the cap. */
  ghost predicate IsAsked(base: int, f: FeeFormula, percentage: int, asked: int) {
    && RoundsHalfAway(base * f.percentBps, 10_000, percentage)
    && var both := percentage + f.fixed;
       var raised := if f.minFee.Some? && both < f.minFee.value then f.minFee.value else both;
       asked == if f.maxFee.Some? && raised > f.maxFee.value then f.maxFee.value else raised
  }

  /** The VAT on what is asked: taken out of it, or put on top of it, and lost by whoever cannot reclaim it. */
  ghost predicate IsTaxed(asked: int, f: FeeFormula, vatRegistered: bool, fee: AppliedFee) {
    && (if f.ratesIncludeVat
        then RoundsHalfAway(asked * 10_000, 10_000 + f.feeVatBps, fee.exVat) && fee.exVat + fee.vat == asked
        else fee.exVat == asked && RoundsHalfAway(asked * f.feeVatBps, 10_000, fee.vat))
    && fee.cost == if vatRegistered then fee.exVat else fee.exVat + fee.vat
  }

  /** The fee in the words of the rate card. */
  ghost predicate IsFee(base: int, f: FeeFormula, vatRegistered: bool, fee: AppliedFee) {
    exists percentage, asked :: IsAsked(base, f, percentage, asked) && IsTaxed(asked, f, vatRegistered, fee)
  }

  lemma RateIsRounded(value: int, bps: int)
    requires MulBps(value, bps).Ok?
    ensures RoundsHalfAway(value * bps, 10_000, MulBps(value, bps).value)
  {
    DivisionRounds(value * bps, 10_000);
  }

  lemma SplitIsRounded(gross: int, rate: int)
    requires SplitVatInclusive(gross, rate).Ok?
    ensures rate >= 0 && RoundsHalfAway(gross * 10_000, 10_000 + rate, SplitVatInclusive(gross, rate).value.net)
    ensures SplitVatInclusive(gross, rate).value.net + SplitVatInclusive(gross, rate).value.vat == gross
  {
    DivisionRounds(gross * 10_000, 10_000 + rate);
  }

  lemma QuoteIsAsked(base: int, f: FeeFormula)
    requires Quote(base, f).Ok?
    ensures IsAsked(base, f, MulBps(base, f.percentBps).value, Quote(base, f).value)
  {
    hide RoundsHalfAway;
    RateIsRounded(base, f.percentBps);
    Add2(MulBps(base, f.percentBps).value, f.fixed);
  }

  lemma QuoteIsTaxed(quote: int, f: FeeFormula, vatRegistered: bool)
    requires WithVat(quote, f, vatRegistered).Ok?
    ensures IsTaxed(quote, f, vatRegistered, WithVat(quote, f, vatRegistered).value)
    ensures !f.ratesIncludeVat || f.feeVatBps >= 0
  {
    hide RoundsHalfAway, MulBps, SplitVatInclusive;
    var fee := WithVat(quote, f, vatRegistered).value;
    if f.ratesIncludeVat { SplitIsRounded(quote, f.feeVatBps); } else { RateIsRounded(quote, f.feeVatBps); }
    Add2(fee.exVat, fee.vat);
  }

  /** Whatever is charged is the percentage and the fixed part, between floor and cap, with its VAT, to the unit. */
  lemma FeeIsTheCards(base: int, f: FeeFormula, vatRegistered: bool)
    requires ApplyFee(base, f, vatRegistered).Ok?
    ensures IsFee(base, f, vatRegistered, ApplyFee(base, f, vatRegistered).value)
  {
    hide IsAsked, IsTaxed, Quote, WithVat;
    QuoteIsAsked(base, f);
    QuoteIsTaxed(Quote(base, f).value, f, vatRegistered);
  }

  /** And no other fee is: the words leave nothing open. */
  lemma OneFee(base: int, f: FeeFormula, vatRegistered: bool, fee: AppliedFee, other: AppliedFee)
    requires f.feeVatBps >= 0 && IsFee(base, f, vatRegistered, fee) && IsFee(base, f, vatRegistered, other)
    ensures fee == other
  {
    hide RoundsHalfAway;
    var p, asked :| IsAsked(base, f, p, asked) && IsTaxed(asked, f, vatRegistered, fee);
    var q, asked' :| IsAsked(base, f, q, asked') && IsTaxed(asked', f, vatRegistered, other);
    RoundingIsUnique(base * f.percentBps, 10_000, p, q);
    if f.ratesIncludeVat {
      RoundingIsUnique(asked * 10_000, 10_000 + f.feeVatBps, fee.exVat, other.exVat);
    } else {
      RoundingIsUnique(asked * f.feeVatBps, 10_000, fee.vat, other.vat);
    }
  }

  /** A validated formula fails only by leaving the range. */
  lemma FeeFailsInRange(base: int, f: FeeFormula, vatRegistered: bool)
    requires FormulaIsValid(f)
    ensures ApplyFee(base, f, vatRegistered).Err? ==> ApplyFee(base, f, vatRegistered).error.OutOfRange?
  {
    hide AddMinor;
    forall values: seq<int> ensures AddMinor(values).Err? ==> AddMinor(values).error.OutOfRange? { SumFailsInRange(0, values); }
  }

  lemma {:induction false} SumFailsInRange(acc: int, values: seq<int>)
    ensures AddFrom(acc, values).Err? ==> AddFrom(acc, values).error.OutOfRange?
    ensures acc == 0 ==> AddMinor(values) == AddFrom(acc, values)
    decreases |values|
  {
    if values != [] { SumFailsInRange(acc + values[0], values[1..]); }
  }

  /** A charge of a positive base stays within the merchant's floor and cap and is never negative. */
  lemma QuoteBounds(base: int, f: FeeFormula)
    requires FormulaIsValid(f) && base >= 0 && Quote(base, f).Ok?
    ensures Quote(base, f).value >= 0
    ensures f.minFee.Some? ==> Quote(base, f).value >= f.minFee.value
    ensures f.maxFee.Some? ==> Quote(base, f).value <= f.maxFee.value
  {
    var p := MulBps(base, f.percentBps).value;
    QuotientNonNegative(base, f.percentBps);
    Add2(p, f.fixed);
  }

  lemma QuotientNonNegative(value: int, bps: int)
    requires value >= 0 && bps >= 0 && MulBps(value, bps).Ok?
    ensures MulBps(value, bps).value >= 0
  {
    MulBpsIsMonotone(0, value, bps);
    ZeroRate(bps);
  }

  lemma ZeroRate(bps: int)
    requires bps >= 0
    ensures MulBps(0, bps).Ok? ==> MulBps(0, bps).value == 0
  {
    assert 0 * bps == 0;
    if MulBps(0, bps).Ok? { MulBpsIsOdd(0, bps); }
  }

  lemma QuoteIsMonotone(base: int, larger: int, f: FeeFormula)
    requires FormulaIsValid(f) && base <= larger && Quote(base, f).Ok? && Quote(larger, f).Ok?
    ensures Quote(base, f).value <= Quote(larger, f).value
  {
    MulBpsIsMonotone(base, larger, f.percentBps);
    Add2(MulBps(base, f.percentBps).value, f.fixed);
    Add2(MulBps(larger, f.percentBps).value, f.fixed);
  }

  /** What the VAT step makes of a quote: an inclusive quote is conserved, an exclusive one is added to. */
  lemma WithVatFacts(quote: int, f: FeeFormula, vatRegistered: bool)
    requires FormulaIsValid(f) && WithVat(quote, f, vatRegistered).Ok?
    ensures var fee := WithVat(quote, f, vatRegistered).value;
      && (f.ratesIncludeVat ==> SplitVatInclusive(quote, f.feeVatBps) == Ok(VatSplit(fee.exVat, fee.vat)) && fee.exVat + fee.vat == quote)
      && (!f.ratesIncludeVat ==> fee.exVat == quote && MulBps(quote, f.feeVatBps) == Ok(fee.vat))
      && fee.cost == if vatRegistered then fee.exVat else fee.exVat + fee.vat
  {
    var fee := WithVat(quote, f, vatRegistered).value;
    Add2(fee.exVat, fee.vat);
  }

  /** A validated rate card never charges less for a larger base. */
  lemma FeeIsMonotone(base: int, larger: int, f: FeeFormula, vatRegistered: bool)
    requires FormulaIsValid(f) && base <= larger
    requires ApplyFee(base, f, vatRegistered).Ok? && ApplyFee(larger, f, vatRegistered).Ok?
    ensures ApplyFee(base, f, vatRegistered).value.cost <= ApplyFee(larger, f, vatRegistered).value.cost
  {
    QuoteIsMonotone(base, larger, f);
    var q, r := Quote(base, f).value, Quote(larger, f).value;
    WithVatFacts(q, f, vatRegistered);
    WithVatFacts(r, f, vatRegistered);
    if f.ratesIncludeVat {
      SplitIsMonotone(q, r, f.feeVatBps);
    } else {
      MulBpsIsMonotone(q, r, f.feeVatBps);
    }
  }

  /** Nothing charged on a non-negative amount under a validated card is negative. */
  lemma FeeIsNonNegative(base: int, f: FeeFormula, vatRegistered: bool)
    requires FormulaIsValid(f) && base >= 0 && ApplyFee(base, f, vatRegistered).Ok?
    ensures var fee := ApplyFee(base, f, vatRegistered).value; fee.exVat >= 0 && fee.vat >= 0 && fee.cost >= 0
  {
    QuoteBounds(base, f);
    var q := Quote(base, f).value;
    WithVatFacts(q, f, vatRegistered);
    if f.ratesIncludeVat {
      SplitSign(q, f.feeVatBps);
    } else {
      QuotientNonNegative(q, f.feeVatBps);
    }
  }

  lemma SplitSign(gross: int, rate: int)
    requires gross >= 0 && 0 <= rate && SplitVatInclusive(gross, rate).Ok?
    ensures var s := SplitVatInclusive(gross, rate).value; s.net >= 0 && s.vat >= 0
  {
    var d := 10_000 + rate;
    DivisionRounds(gross * 10_000, d);
    var q := DivRoundHalfAway(gross * 10_000, d).value;
    Multiple(q, d);
    // gross itself, as a multiple of d, is at least the numerator
    DivisionRoundsDown(gross, rate, q);
  }

  lemma DivisionRoundsDown(gross: int, rate: int, q: int)
    requires gross >= 0 && rate >= 0 && RoundsHalfAway(gross * 10_000, 10_000 + rate, q)
    ensures 0 <= q <= gross
  {
    var d := 10_000 + rate;
    assert gross * d == gross * 10_000 + gross * rate;
    Arith.ProductSign(gross, rate);
    if q > gross {
      Arith.Gap(q, gross, 1, d);
      Multiple(q, d);
    }
    if q < 0 {
      Arith.Gap(0, q, 1, d);
      Multiple(q, d);
    }
  }
}
