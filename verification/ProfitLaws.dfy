/** The promises of the profit engine about whole orders. */
module ProfitLaws {
  import opened Prelude
  import opened Sums
  import opened Money
  import opened Domain
  import opened Cogs
  import opened Diagnostics
  import opened AllocateLines
  import opened AllocateLinesLaws
  import opened TermLaws
  import opened Profit
  import CappedSpread
  import Normalize
  import NormalizeLaws
  import Sequences
  import Sorting
  import OrderRecognition
  import Revenue
  import Gateway
  import Shipping
  import Cod = CashOnDelivery
  import Reversals
  import ReversalLaws

  // ---------------------------------------------------------- what a run holds

  /** What stands behind a computed order: its canonical form, its terms, and how the report was put together. */
  ghost predicate Behind(input: ProfitInput, n: Normalize.Normalized, t: Terms, report: Report) {
    && Normalize.NormalizeAndValidate(input) == Normalize.Accepted(n) && n == Normalize.Canonical(input)
    && ComputeTerms(input, n) == Ok(t)
    && ComputeLines(n.items, t) == Ok(report.lines)
    && TotalsOf(t, report.lines) == Ok(report.totals)
    && report.recognition == t.recognition
    && report.confidence == ConfidenceOf(t, n.items == [], n.reversals == [])
    && report.diagnostics == SortDiagnostics(AllDiagnostics(t))
  }

  /** The engine reports this on that order. */
  ghost predicate Reports(input: ProfitInput, report: Report) {
    Compute(input) == ComputedOrder(input.order.id, input.store.storeId, report)
  }

  lemma Opened(input: ProfitInput, report: Report) returns (n: Normalize.Normalized, t: Terms)
    requires Reports(input, report)
    ensures Behind(input, n, t, report)
  {
    hide Normalize.Fatals, Normalize.Canonical, ComputeTerms, ComputeLines, TotalsOf, ConfidenceOf, AllDiagnostics,
      SortDiagnostics;
    n := Normalize.NormalizeAndValidate(input).normalized;
    t := ComputeTerms(input, n).value;
  }

  /** What the terms of a run are, term by term. */
  ghost predicate TermsFrom(input: ProfitInput, n: Normalize.Normalized, t: Terms) {
    var rules, registered := input.feeRuleSet, input.store.vatRegistered;
    && Revenue.ComputeRevenue(n.order, n.items, t.recognition) == Ok(t.revenue)
    && ComputeCogs(n.items, n.costs) == Ok(t.cogs)
    && Shipping.ComputeShippingCost(n.order, n.shipments, rules.shippingFallback, Outbound) == Ok(t.outbound)
    && Shipping.ComputeShippingCost(n.order, n.shipments, rules.shippingFallback, Return) == Ok(t.returned)
    && Gateway.ComputeGatewayFees(n.order, rules.gateway, registered) == Ok(t.gateway)
    && Cod.ComputeCodCost(n.order, n.shipments, rules.cod, registered) == Ok(t.cod)
    && Reversals.ComputeReversalImpact(n.reversals, t.revenue.value.lines, LedgerFor(n.items, t.revenue.value, t.cogs.value),
                                       t.recognition, n.shipments, Dispatched(n.order.fulfillmentState)) == Ok(t.reversal)
  }

  lemma TermsOpened(input: ProfitInput, n: Normalize.Normalized, t: Terms)
    requires ComputeTerms(input, n) == Ok(t)
    ensures TermsFrom(input, n, t)
    ensures t.recognition == OrderRecognition.ComputeRecognition(n.order, n.shipments)
  {
    hide OrderRecognition.ComputeRecognition, Revenue.ComputeRevenue, ComputeCogs, Shipping.ComputeShippingCost,
      Gateway.ComputeGatewayFees, Cod.ComputeCodCost, Reversals.ComputeReversalImpact, LedgerFor;
  }

  // ------------------------------------------------------------ re-ingestion

  /**
   * Re-ingestion invariance: the same facts arriving in any order give the identical result,
   * totals, lines, confidence and diagnostics included.
   */
  lemma ReingestionInvariance(a: ProfitInput, b: ProfitInput)
    requires NormalizeLaws.SameContent(a, b)
    ensures Compute(a).ComputedOrder? <==> Compute(b).ComputedOrder?
    ensures Compute(a).ComputedOrder? ==> Compute(a) == Compute(b)
    ensures NormalizeLaws.Acceptable(a) ==> Compute(a) == Compute(b)
  {
    hide Normalize.NormalizeAndValidate, ComputeReport, SortDiagnostics, NormalizeLaws.Acceptable;
    NormalizeLaws.NormalizationForgetsOrder(a, b);
    NormalizeLaws.AcceptedIffAcceptable(a);
    if Normalize.NormalizeAndValidate(a).Accepted? { ReportReadsOnlyFacts(a, b, Normalize.NormalizeAndValidate(a).normalized); }
  }

  /** Beyond the canonical form, a report reads only the store, the rules and the local date. */
  lemma ReportReadsOnlyFacts(a: ProfitInput, b: ProfitInput, n: Normalize.Normalized)
    requires a.store == b.store && a.feeRuleSet == b.feeRuleSet && a.localDate == b.localDate
    ensures ComputeReport(a, n) == ComputeReport(b, n)
  {
    hide OrderRecognition.ComputeRecognition, Revenue.ComputeRevenue, ComputeCogs, Shipping.ComputeShippingCost,
      Gateway.ComputeGatewayFees, Cod.ComputeCodCost, Reversals.ComputeReversalImpact, LedgerFor, ComputeLines,
      TotalsOf, ConfidenceOf, AllDiagnostics, SortDiagnostics;
  }

  // --------------------------------------------------------------- exact tie

  /** The canonical items of an accepted order carry distinct ids. */
  lemma CanonicalItems(input: ProfitInput, n: Normalize.Normalized)
    requires Normalize.NormalizeAndValidate(input) == Normalize.Accepted(n)
    ensures Distinct(Revenue.ItemIds(n.items))
    ensures forall i :: i in n.items ==> i in input.items
    ensures forall i :: i in n.items ==> i.quantity >= 0
    ensures |n.items| == |input.items|
  {
    hide Normalize.Fatals, NormalizeLaws.GoodHeader, NormalizeLaws.GoodRules, NormalizeLaws.GoodReversals,
      NormalizeLaws.GoodShipments, NormalizeLaws.GoodCosts, Normalize.IndexUpTo, Sorting.Sort, Normalize.ByLineId,
      Normalize.ByShipmentId, Normalize.ByReversalId, Distinct;
    NormalizeLaws.AcceptedIffAcceptable(input);
    Sorting.SortPermutes(Normalize.ByLineId, input.items);
    Sequences.SameLength(n.items, input.items);
    var f := (i: Item) => i.id;
    NormalizeLaws.KeysPermute(f, n.items, input.items);
    assert Revenue.ItemIds(n.items) == Sequences.Map(f, n.items)
        && Normalize.ItemIds(input.items) == Sequences.Map(f, input.items);
  }

  /** The order-level formula: revenue by its parts, and the margin as revenue plus impact less every cost. */
  ghost predicate TotalsFormula(totals: Totals) {
    var c := totals.costs;
    && totals.revenue == totals.items + totals.shipping + totals.codFee - totals.orderDiscount
    && totals.impact == totals.restocked - totals.reversedRevenue
    && totals.margin == totals.revenue + totals.impact - c.cogs - c.outbound - c.returned - c.gateway - c.cod
    && InRange(totals.margin)
  }

  lemma MarginAddsUp(revenue: int, impact: int, c: Costs)
    requires ContributionMargin(revenue, impact, c).Ok?
    ensures ContributionMargin(revenue, impact, c).value
        == revenue + impact - c.cogs - c.outbound - c.returned - c.gateway - c.cod
    ensures InRange(ContributionMargin(revenue, impact, c).value)
  {
    hide AddMinor;
    Add2(revenue, impact);
    Add5(c.cogs, c.outbound, c.returned, c.gateway, c.cod);
  }

  /** The margin rate is the exact ratio in basis points, rounded half away from zero, and absent without revenue. */
  lemma RateIsRounded(margin: int, revenue: int)
    requires InRange(margin)
    ensures MarginBpsOf(margin, revenue).Ok? <==> revenue <= MAX_SAFE
    ensures MarginBpsOf(margin, revenue).Ok? ==>
      var bps := MarginBpsOf(margin, revenue).value;
      if revenue <= 0 then bps.None? else bps.Some? && RoundsHalfAway(margin * 10_000, revenue, bps.value)
  {
    hide DivRoundHalfAway, RoundsHalfAway;
    if revenue > 0 { DivisionRounds(margin * 10_000, revenue); }
  }

  lemma ImpactTies(input: ProfitInput, n: Normalize.Normalized, t: Terms)
    requires TermsFrom(input, n, t)
    ensures ReversalLaws.WellFormed(t.reversal.value, t.revenue.value.lines,
        LedgerFor(n.items, t.revenue.value, t.cogs.value), t.recognition.Recognized?)
  {
    hide Revenue.ComputeRevenue, ComputeCogs, Shipping.ComputeShippingCost, Gateway.ComputeGatewayFees,
      Cod.ComputeCodCost, Reversals.ComputeReversalImpact, LedgerFor, ReversalLaws.WellFormed;
    ReversalLaws.ReturnsAreBounded(n.reversals, t.revenue.value.lines, LedgerFor(n.items, t.revenue.value, t.cogs.value),
                                   t.recognition, n.shipments, Dispatched(n.order.fulfillmentState));
  }

  lemma RevenueOf(input: ProfitInput, n: Normalize.Normalized, t: Terms)
    requires TermsFrom(input, n, t)
    ensures var r := t.revenue.value;
      && Revenue.Aligned(n.items, r.lines)
      && (n.items != [] ==> r.total == Sum(Revenue.Nets(r.lines)) + (r.shipping - r.shippingDiscount) + (r.codFee - r.codFeeDiscount))
      && r.total == r.items + r.shipping + r.codFee - r.orderDiscount
    ensures !t.recognition.Recognized? ==>
      t.revenue.value.lines == Revenue.ZeroLines(n.items) && t.revenue.value.total == 0
      && t.revenue.value.shipping == t.revenue.value.shippingDiscount == t.revenue.value.codFee
          == t.revenue.value.codFeeDiscount == 0
  {
    hide AddMinor, ComputeCogs, Shipping.ComputeShippingCost, Gateway.ComputeGatewayFees, Cod.ComputeCodCost,
      Reversals.ComputeReversalImpact, LedgerFor, Revenue.Unreflected, Revenue.ComputeLineRevenue, Revenue.Nets,
      Revenue.Aligned, Sum, Revenue.ZeroLines;
    Revenue.RevenueTies(n.order, n.items, t.recognition);
  }

  /** Every computed order, excluded or not, obeys the order-level formula. */
  lemma TotalsTie(input: ProfitInput, report: Report)
    requires Reports(input, report)
    ensures TotalsFormula(report.totals)
    ensures RoundedRate(report.totals)
  {
    hide *;
    var n, t := Opened(input, report);
    BehindTies(input, n, t, report);
  }

  ghost predicate RoundedRate(totals: Totals) {
    if totals.revenue <= 0 then totals.marginBps.None?
    else totals.marginBps.Some? && RoundsHalfAway(totals.margin * 10_000, totals.revenue, totals.marginBps.value)
  }

  lemma BehindTies(input: ProfitInput, n: Normalize.Normalized, t: Terms, report: Report)
    requires Behind(input, n, t, report)
    ensures TotalsFormula(report.totals) && RoundedRate(report.totals)
  {
    hide ComputeTerms, TermsFrom, ComputeLines, TotalsOf, Revenue.Nets, Revenue.Aligned, Sum, Revenue.ZeroLines,
      ReversalLaws.WellFormed, Normalize.NormalizeAndValidate, Normalize.Canonical, ConfidenceOf, SortDiagnostics,
      AllDiagnostics;
    TermsOpened(input, n, t);
    RevenueOf(input, n, t);
    ImpactTies(input, n, t);
    TotalsAddUp(t, report.lines, n.items);
  }

  lemma TotalsAddUp(t: Terms, lines: seq<ProfitLine>, items: seq<Item>)
    requires TotalsOf(t, lines).Ok?
    requires t.revenue.value.total == t.revenue.value.items + t.revenue.value.shipping + t.revenue.value.codFee - t.revenue.value.orderDiscount
    requires ReversalLaws.WellFormed(t.reversal.value, t.revenue.value.lines,
        LedgerFor(items, t.revenue.value, t.cogs.value), t.recognition.Recognized?)
    ensures TotalsFormula(TotalsOf(t, lines).value) && RoundedRate(TotalsOf(t, lines).value)
  {
    hide AddMinor, ContributionMargin, MarginBpsOf, LedgerFor, ReversalLaws.LineWellFormed, RoundsHalfAway,
      CoveredRevenues;
    var r := t.revenue.value;
    MarginAddsUp(r.total, Profit.ImpactOf(t), CostsOf(t));
    RateIsRounded(ContributionMargin(r.total, Profit.ImpactOf(t), CostsOf(t)).value, r.total);
  }

  /** Revenue, cost and reversal lines stand for the same items, in the same order. */
  lemma TermsAlign(input: ProfitInput, n: Normalize.Normalized, t: Terms)
    requires Normalize.NormalizeAndValidate(input) == Normalize.Accepted(n) && TermsFrom(input, n, t)
    ensures SameLines(t.revenue.value.lines, t.cogs.value.lines, t.reversal.value.lines)
    ensures |t.revenue.value.lines| == |input.items|
    ensures t.cogs.value.cogs == Sum(LineCosts(t.cogs.value.lines))
  {
    hide Normalize.NormalizeAndValidate, AddMinor, Sum, LineCosts, Revenue.Nets, Revenue.ZeroLines, Distinct,
      CostLines, Revenue.ComputeRevenue, Shipping.ComputeShippingCost, Gateway.ComputeGatewayFees,
      Cod.ComputeCodCost, Reversals.ComputeReversalImpact, LedgerFor, ReversalLaws.LineWellFormed;
    CanonicalItems(input, n);
    RevenueOf(input, n, t);
    CogsTies(n.items, n.costs);
    ImpactTies(input, n, t);
    ReversalIdsFollow(t.reversal.value.lines, t.revenue.value.lines,
        LedgerFor(n.items, t.revenue.value, t.cogs.value), t.recognition.Recognized?);
    assert LineIds(t.revenue.value.lines) == Revenue.ItemIds(n.items);
  }

  lemma ReversalIdsFollow(lines: seq<Reversals.LineReversal>, revenueLines: seq<Revenue.LineRevenue>,
        ledger: Reversals.Ledger, recognized: bool)
    requires |lines| == |revenueLines|
    requires forall i :: 0 <= i < |revenueLines| ==> ReversalLaws.LineWellFormed(lines[i], revenueLines[i], ledger, recognized)
    ensures forall i :: 0 <= i < |lines| ==> lines[i].itemId == revenueLines[i].itemId
    ensures forall i :: 0 <= i < |lines| ==> lines[i].impact == lines[i].restocked - lines[i].revenue
    ensures !recognized ==> forall i :: 0 <= i < |lines| ==> lines[i].revenue == 0
  {
    hide CappedSpread.LineCost, Get;
  }

  /** The breakdown sums back to the totals, column by column, and margin by margin. */
  ghost predicate LinesTieToTotals(lines: seq<ProfitLine>, totals: Totals) {
    && SumOf(MarginOf, lines) == totals.margin
    && SumOf(NetOf, lines) + SumOf(ShippingRevenueOf, lines) + SumOf(CodFeeRevenueOf, lines) == totals.revenue
    && SumOf(CogsOf, lines) == totals.costs.cogs
    && SumOf(OutboundOf, lines) == totals.costs.outbound
    && SumOf(ReturnedOf, lines) == totals.costs.returned
    && SumOf(GatewayOf, lines) == totals.costs.gateway
    && SumOf(CodOf, lines) == totals.costs.cod
    && SumOf(AllocateLinesLaws.ImpactOf, lines) == totals.impact
    && SumOf(RestockedOf, lines) == totals.restocked
    && SumOf(ReversedRevenueOf, lines) == totals.reversedRevenue
  }

  /**
   * Exact tie: on every computed order that counts and has items, each line margin and each
   * cost, revenue and reversal column sums to its total, to the unit.
   */
  lemma ExactTie(input: ProfitInput, report: Report)
    requires Reports(input, report)
    ensures report.recognition.Excluded? || input.items == [] ==> report.lines == []
    ensures !report.recognition.Excluded? && input.items != [] ==>
      |report.lines| == |input.items| && LinesTieToTotals(report.lines, report.totals)
  {
    hide *;
    var n, t := Opened(input, report);
    BehindTies(input, n, t, report);
    BehindTiesLines(input, n, t, report);
  }

  lemma BehindTiesLines(input: ProfitInput, n: Normalize.Normalized, t: Terms, report: Report)
    requires Behind(input, n, t, report) && TotalsFormula(report.totals)
    ensures report.recognition.Excluded? || input.items == [] ==> report.lines == []
    ensures !report.recognition.Excluded? && input.items != [] ==>
      |report.lines| == |input.items| && LinesTieToTotals(report.lines, report.totals)
  {
    hide ComputeTerms, Sum, LineCosts, Revenue.Nets, Revenue.ZeroLines, SameLines, AllocateOrderCostsToLines,
      Revenue.Aligned, Normalize.NormalizeAndValidate, Normalize.Canonical, ConfidenceOf, SortDiagnostics,
      AllDiagnostics, ReversalLaws.WellFormed, TotalsOf, LinesTieToTotals, ComputeLines, TotalsFormula, AmountsOf;
    TermsOpened(input, n, t);
    TermsAlign(input, n, t);
    RevenueOf(input, n, t);
    ImpactTies(input, n, t);
    if t.recognition.Excluded? || input.items == [] {
      NoLines(n, t);
    } else {
      CanonicalItems(input, n);
      ParcelsTie(input, n, t);
      LinesTieUp(n, t, report);
    }
  }

  lemma NoLines(n: Normalize.Normalized, t: Terms)
    requires ComputeLines(n.items, t).Ok? && (t.recognition.Excluded? || |t.revenue.value.lines| == 0)
    ensures ComputeLines(n.items, t).value == []
  {
  }

  lemma ParcelsTie(input: ProfitInput, n: Normalize.Normalized, t: Terms)
    requires TermsFrom(input, n, t)
    ensures t.outbound.value.parcels != [] ==> t.outbound.value.cost == Sum(Shipping.ParcelCosts(t.outbound.value.parcels))
    ensures t.returned.value.parcels != [] ==> t.returned.value.cost == Sum(Shipping.ParcelCosts(t.returned.value.parcels))
  {
    hide Sum, Shipping.ParcelCosts, Revenue.ComputeRevenue, ComputeCogs, Shipping.ComputeShippingCost,
      Gateway.ComputeGatewayFees, Cod.ComputeCodCost, Reversals.ComputeReversalImpact, LedgerFor;
    var rules := input.feeRuleSet.shippingFallback;
    ShippingTies(n.order, n.shipments, rules, Outbound);
    ShippingTies(n.order, n.shipments, rules, Return);
  }

  lemma LinesTieUp(n: Normalize.Normalized, t: Terms, report: Report)
    requires !t.recognition.Excluded? && ComputeLines(n.items, t) == Ok(report.lines)
        && TotalsOf(t, report.lines) == Ok(report.totals)
    requires TotalsFormula(report.totals) && n.items != []
    requires SameLines(t.revenue.value.lines, t.cogs.value.lines, t.reversal.value.lines) && |t.revenue.value.lines| == |n.items|
    requires t.cogs.value.cogs == Sum(LineCosts(t.cogs.value.lines))
    requires var r := t.revenue.value;
      r.total == Sum(Revenue.Nets(r.lines)) + (r.shipping - r.shippingDiscount) + (r.codFee - r.codFeeDiscount)
    requires t.outbound.value.parcels != [] ==> t.outbound.value.cost == Sum(Shipping.ParcelCosts(t.outbound.value.parcels))
    requires t.returned.value.parcels != [] ==> t.returned.value.cost == Sum(Shipping.ParcelCosts(t.returned.value.parcels))
    requires ReversalLaws.WellFormed(t.reversal.value, t.revenue.value.lines,
        LedgerFor(n.items, t.revenue.value, t.cogs.value), t.recognition.Recognized?)
    ensures |report.lines| == |n.items| && LinesTieToTotals(report.lines, report.totals)
  {
    hide Sum, SumOf, LineCosts, Revenue.Nets, SameLines, AllocateOrderCostsToLines, Shipping.ParcelCosts, AddMinor,
      ContributionMargin, MarginBpsOf, Reversals.Impacts, Reversals.Restocks, Reversals.Revenues,
      ReversalLaws.LineWellFormed, LedgerFor, CoveredRevenues;
    var r := t.revenue.value;
    var amounts := AmountsOf(t, r.shipping - r.shippingDiscount, r.codFee - r.codFeeDiscount);
    LinesTie(n.items, r.lines, t.cogs.value.lines, t.reversal.value.lines, amounts);
  }

  /** Nothing about an excluded order counts: no revenue, no cost, no margin, no line. */
  lemma ExcludedCountsNothing(input: ProfitInput, report: Report)
    requires Reports(input, report) && report.recognition.Excluded?
    ensures report.totals.revenue == 0 && report.totals.costs == Costs(0, 0, 0, 0, 0) && report.totals.impact == 0
    ensures report.totals.margin == 0 && report.totals.marginBps.None? && report.lines == []
  {
    hide *;
    var n, t := Opened(input, report);
    BehindTies(input, n, t, report);
    ExactTie(input, report);
    BehindExcluded(input, n, t, report);
  }

  lemma BehindExcluded(input: ProfitInput, n: Normalize.Normalized, t: Terms, report: Report)
    requires Behind(input, n, t, report) && report.recognition.Excluded? && TotalsFormula(report.totals)
        && RoundedRate(report.totals)
    ensures report.totals.revenue == 0 && report.totals.costs == Costs(0, 0, 0, 0, 0) && report.totals.impact == 0
    ensures report.totals.margin == 0 && report.totals.marginBps.None?
  {
    hide ComputeTerms, TermsFrom, Normalize.NormalizeAndValidate, Normalize.Canonical, ComputeLines, ConfidenceOf,
      SortDiagnostics, AllDiagnostics, ContributionMargin, AddMinor, MarginBpsOf;
    TermsOpened(input, n, t);
    RevenueOf(input, n, t);
  }
}
