/** Whole orders: how far a report may be trusted, what its lines earned, and when there is no report. */
module OrderFigureLaws {
  import opened Prelude
  import opened Sums
  import opened Domain
  import opened Confidence
  import opened AllocateLines
  import opened AllocateLinesLaws
  import opened Profit
  import opened ProfitLaws
  import opened ReturnLaws
  import opened FigureLaws
  import Allocation
  import CashLaws
  import ChargeLaws
  import Cogs
  import Diagnostics
  import GateLaws
  import LineShareLaws
  import Money
  import Normalize
  import OrderLegLaws
  import OrderRecognition
  import ParcelLaws
  import ReportLaws
  import RestockLaws
  import Revenue
  import Reversals
  import Sequences
  import Shipping
  import Sorting
  import Splits
  import TakeBackLaws
  import Gateway
  import Cod = CashOnDelivery

  // --------------------------------------------------------- which term says what

  lemma CogsSay(input: ProfitInput, n: Normalize.Normalized, t: Terms, d: Diagnostic)
    requires TermsFrom(input, n, t) && d in t.cogs.diagnostics
    ensures d.code == CostMissing || d.code == CostEstimated
  {
    hide Revenue.ComputeRevenue, Shipping.ComputeShippingCost, Gateway.ComputeGatewayFees, Cod.ComputeCodCost,
      Reversals.ComputeReversalImpact, LedgerFor, Cogs.CostLines, Money.AddMinor, Uncosted, CostGuessed;
    CostsInWords(n.items, n.costs, |n.items|, d);
  }

  lemma ShippingSays(order: Order, shipments: seq<Shipment>, rules: seq<ShippingRule>, direction: Direction, d: Diagnostic)
    requires Shipping.ComputeShippingCost(order, shipments, rules, direction).Ok?
    requires d in Shipping.ComputeShippingCost(order, shipments, rules, direction).value.diagnostics
    ensures d.code in {CarrierCostMissing, ShippingFallbackMissing, ShippingFallbackUsed, NoOutboundShipment}
  {
    hide Shipping.ComputeShippingCost, ParcelLaws.LegsAt, ParcelLaws.LegsCosted, ParcelLaws.ParcelsOf,
      ParcelLaws.RateFor, Sum, Shipping.ParcelCosts;
    var at, legs, costings := ParcelLaws.ShippingIsItsLegs(order, shipments, rules, direction);
  }

  lemma GatewaySays(order: Order, rules: seq<GatewayRule>, registered: bool, d: Diagnostic)
    requires Gateway.ComputeGatewayFees(order, rules, registered).Ok?
        && d in Gateway.ComputeGatewayFees(order, rules, registered).value.diagnostics
    ensures d.code in {PaymentLegsUnderTotal, UnknownPaymentInstrument, CardSchemeUnknown, FeeRuleMissing, FeeRuleDefaultUsed}
  {
    hide Gateway.ComputeGatewayFees, ChargeLaws.Prices, ChargeLaws.FallsShort, ChargeLaws.GatewayBasis, Sum,
      ChargeLaws.TableAt;
    var at, used, fees := ChargeLaws.GatewayIsItsLegs(order, rules, registered);
  }

  lemma CashSays(order: Order, shipments: seq<Shipment>, rules: seq<CodRule>, registered: bool, d: Diagnostic)
    requires Cod.ComputeCodCost(order, shipments, rules, registered).Ok?
        && d in Cod.ComputeCodCost(order, shipments, rules, registered).value.diagnostics
    ensures d.code in {CodFeeRuleMissing, FeeRuleDefaultUsed}
  {
    hide Cod.ComputeCodCost, CashLaws.PostedByLeg, CashLaws.CarrierList, Sum, CashLaws.Flat, CashLaws.SourceOf;
    var carriers, legs, posts := CashLaws.CashIsItsLegs(order, shipments, rules, registered);
  }

  lemma ReversalSays(recognition: Recognition, state: FulfillmentState, shipments: seq<Shipment>, reversals: seq<Reversal>,
        ids: seq<string>, d: Diagnostic)
    requires RestockLaws.BackRemark(recognition, state, shipments, reversals, ids, d)
    ensures d.code in {RestockUnconfirmed, ReversalTotalMismatch, ReversalLineUnmatched, ReversalLinesAllocated}
  {
    hide RestockLaws.NeverLeft, RestockLaws.CameBack, TakeBackLaws.Claimed, TakeBackLaws.NamesStranger,
      TakeBackLaws.LeavesOpen;
  }

  /** That an order has no items is for its revenue to say. */
  lemma OnlyRevenueSays(input: ProfitInput, n: Normalize.Normalized, t: Terms, report: Report, d: Diagnostic)
    requires Behind(input, n, t, report) && TermsFrom(input, n, t) && Distinct(Revenue.ItemIds(n.items))
        && d.code == OrderHasNoItems
    ensures d in report.diagnostics <==> d in t.revenue.diagnostics
  {
    hide Behind, Distinct, RestockLaws.BackRemark, Revenue.ComputeRevenue, Shipping.ComputeShippingCost,
      Gateway.ComputeGatewayFees, Cod.ComputeCodCost, Reversals.ComputeReversalImpact, LedgerFor, Cogs.ComputeCogs;
    OrderLegLaws.RemarksAreTheTerms(input, n, t, report, d);
    if d in t.cogs.diagnostics { CogsSay(input, n, t, d); }
    if d in t.outbound.diagnostics { ShippingSays(n.order, n.shipments, input.feeRuleSet.shippingFallback, Outbound, d); }
    if d in t.returned.diagnostics { ShippingSays(n.order, n.shipments, input.feeRuleSet.shippingFallback, Return, d); }
    if d in t.gateway.diagnostics { GatewaySays(n.order, input.feeRuleSet.gateway, input.store.vatRegistered, d); }
    RestockLaws.ReversalSaysSo(input, n, t, d);
    if d in t.reversal.diagnostics {
      ReversalSays(t.recognition, n.order.fulfillmentState, n.shipments, n.reversals, Revenue.ItemIds(n.items), d);
    }
    if d in t.cod.diagnostics { CashSays(n.order, n.shipments, input.feeRuleSet.cod, input.store.vatRegistered, d); }
  }

  // ----------------------------------------------------------------- confidence

  /** The report remarks on it somewhere. */
  ghost predicate Says(ds: seq<Diagnostic>, code: Code) { exists d :: d in ds && d.code == code }

  ghost predicate Firm(basis: TermBasis) { basis == Actual || basis == NoTerm }

  /** No cost row is for the item. */
  ghost predicate HasNoCost(item: Item, costs: seq<ResolvedCost>) {
    forall c :: c in costs ==> !RowFor(c, item) && !RowForSku(c, item)
  }

  /** The row that is for it only guesses. */
  ghost predicate HasGuessedCost(item: Item, costs: seq<ResolvedCost>) {
    exists c :: CostedBy(costs, item, c) && !Knows(c.source)
  }

  /** How far the cost of goods can be trusted: the worst of its lines, and less while somebody does not know what came back. */
  ghost predicate CogsTrust(basis: TermBasis, counted: bool, items: seq<Item>, costs: seq<ResolvedCost>,
        inferred: bool, unconfirmed: bool) {
    var base :=
      if !counted || items == [] then NoTerm
      else if exists i :: i in items && HasNoCost(i, costs) then Missing
      else if inferred || exists i :: i in items && HasGuessedCost(i, costs) then Estimated
      else Actual;
    basis == if unconfirmed && Firm(base) then Estimated else base
  }

  ghost predicate ReversalTrustIs(trust: ReversalTrust, doubtful: bool, none: bool, split: bool) {
    trust == if doubtful then AllocatedReversal else if none then NoReversal else if split then AllocatedReversal
        else ReportedReversal
  }

  /** The level: incomplete with a gap, exact with nothing in doubt, estimated otherwise. */
  ghost predicate LevelIs(c: ProfitConfidence) {
    var gap := c.revenue == Unreconciled || c.cogs == Missing || c.outbound == Missing || c.returned == Missing
        || c.gateway == Missing || c.cod == Missing;
    var firm := Firm(c.cogs) && Firm(c.outbound) && Firm(c.returned) && Firm(c.gateway) && Firm(c.cod)
        && c.reversal != AllocatedReversal;
    c.level == if gap then Incomplete else if firm then Exact else EstimatedLevel
  }

  /** Some money taken off a line is a split, not what its reversal named. */
  ghost predicate MoneySplit(input: ProfitInput, recognition: Recognition) {
    && !RestockLaws.NeverLeft(recognition, input.order.fulfillmentState) && recognition != CostOnly(RtoUncollected)
    && exists r :: r in input.reversals && TakeBackLaws.Allocates(r, Revenue.ItemIds(input.items))
  }

  /** What the confidence of a report rests on. */
  ghost predicate Earned(input: ProfitInput, report: Report) {
    var c, ds, counted := report.confidence, report.diagnostics, !report.recognition.Excluded?;
    var split := MoneySplit(input, report.recognition);
    var inferred := RestockLaws.Inferred(report.recognition, input.order.fulfillmentState, input.shipments);
    && c.revenue == (if Reconciles(input.order, input.items) && input.items != [] then ReportedRevenue else Unreconciled)
    && CogsTrust(c.cogs, counted, input.items, input.costs, inferred, Says(ds, RestockUnconfirmed))
    && ReversalTrustIs(c.reversal, Says(ds, ReversalLineUnmatched)
        || Says(ds, ReversalTotalMismatch), input.reversals == [], split)
    && (!counted ==> c.outbound == c.returned == c.gateway == c.cod == NoTerm)
    && LevelIs(c)
  }

  lemma SameSayings(t: Terms, ds: seq<Diagnostic>, code: Code)
    requires ds == Diagnostics.SortDiagnostics(AllDiagnostics(t))
    ensures Says(ds, code) <==> Has(AllDiagnostics(t), code)
  {
    hide Diagnostics.NotAfter, Sorting.Sort, AllDiagnostics;
    var all := AllDiagnostics(t);
    Sorting.SortPermutes(Diagnostics.NotAfter, all);
    Sequences.SameLength(ds, all);
    if Has(all, code) {
      var i :| 0 <= i < |all| && all[i].code == code;
      assert all[i] in ds;
    }
    if Says(ds, code) {
      var d :| d in ds && d.code == code;
      var i :| 0 <= i < |all| && all[i] == d;
    }
  }

  lemma LevelOf(terms: TermBases, ds: seq<Diagnostic>)
    ensures LevelIs(DeriveConfidence(terms, ds))
  {
    hide Has, AllSettled;
    var c := DeriveConfidence(terms, ds);
    FiveBases(c.cogs, c.outbound, c.returned, c.gateway, c.cod);
  }

  lemma OneRow(costs: seq<ResolvedCost>, item: Item, a: ResolvedCost, b: ResolvedCost)
    requires forall i, j :: 0 <= i < j < |costs| ==> !GateLaws.SameCostKey(costs[i], costs[j])
    requires CostedBy(costs, item, a) && CostedBy(costs, item, b)
    ensures a == b
  {
    var i :| 0 <= i < |costs| && costs[i] == a;
    var j :| 0 <= j < |costs| && costs[j] == b;
    assert GateLaws.SameCostKey(a, b) && GateLaws.SameCostKey(b, a);
  }

  lemma ItemCosts(costs: seq<ResolvedCost>, item: Item)
    requires forall i, j :: 0 <= i < j < |costs| ==> !GateLaws.SameCostKey(costs[i], costs[j])
    ensures var index := Normalize.IndexUpTo(costs, |costs|);
      && (Uncosted(item, index) <==> HasNoCost(item, costs)) && (CostGuessed(item, index) <==> HasGuessedCost(item, costs))
  {
    hide Cogs.CostOf, Normalize.IndexUpTo, RowFor, RowForSku, GateLaws.SameCostKey, Knows;
    CostOfInWords(costs, item);
    var found := Cogs.CostOf(item, Normalize.IndexUpTo(costs, |costs|));
    if found.Some? {
      forall c | CostedBy(costs, item, c) ensures c == found.value { OneRow(costs, item, c, found.value); }
    }
  }

  lemma NoSharedCostKey(input: ProfitInput)
    requires Normalize.NormalizeAndValidate(input).Accepted?
    ensures forall i, j :: 0 <= i < j < |input.costs| ==> !GateLaws.SameCostKey(input.costs[i], input.costs[j])
  {
    hide Normalize.NormalizeAndValidate, GateLaws.SameCostKey;
    GateLaws.AcceptedIffSound(input);
    assert !GateLaws.Defect(input, Diagnostic(DuplicateCostKey, OfOrder));
  }

  lemma CostFlagsOf(input: ProfitInput, n: Normalize.Normalized, t: Terms)
    requires TermsFrom(input, n, t) && n == Normalize.Canonical(input)
        && Normalize.NormalizeAndValidate(input) == Normalize.Accepted(n)
    ensures t.cogs.value.anyMissing <==> exists i :: i in input.items && HasNoCost(i, input.costs)
    ensures t.cogs.value.anyEstimated <==> exists i :: i in input.items && HasGuessedCost(i, input.costs)
  {
    hide Revenue.ComputeRevenue, Shipping.ComputeShippingCost, Gateway.ComputeGatewayFees, Cod.ComputeCodCost,
      Reversals.ComputeReversalImpact, LedgerFor, Cogs.CostLines, Money.AddMinor, Uncosted, CostGuessed, HasNoCost,
      HasGuessedCost, Sorting.Sort, Normalize.IndexUpTo, Normalize.NormalizeAndValidate, GateLaws.SameCostKey;
    Sorting.SortPermutes(Normalize.ByLineId, input.items);
    Sequences.SameLength(n.items, input.items);
    NoSharedCostKey(input);
    CostsInWords(n.items, n.costs, |n.items|, Diagnostic(CostMissing, OfOrder));
    forall i: Item ensures Uncosted(i, n.costs) <==> HasNoCost(i, input.costs)
      ensures CostGuessed(i, n.costs) <==> HasGuessedCost(i, input.costs)
    {
      ItemCosts(input.costs, i);
    }
    assert forall i :: i in n.items <==> i in input.items;
    assert forall k :: 0 <= k < |n.items| ==> n.items[k] in n.items;
  }

  lemma AllocatingForgetsOrder(r: Reversal, xs: seq<string>, ys: seq<string>)
    requires forall id :: id in xs <==> id in ys
    ensures TakeBackLaws.Allocates(r, xs) <==> TakeBackLaws.Allocates(r, ys)
  {
    hide TakeBackLaws.Claimed, TakeBackLaws.LeavesOpen;
  }

  lemma SplitForgetsOrder(input: ProfitInput, n: Normalize.Normalized, recognition: Recognition)
    requires n == Normalize.Canonical(input)
    ensures RestockLaws.SplitsMoney(recognition, input.order.fulfillmentState, n.reversals, Revenue.ItemIds(n.items))
        <==> MoneySplit(input, recognition)
  {
    hide Sorting.Sort, Normalize.IndexUpTo, TakeBackLaws.Allocates, RestockLaws.NeverLeft, Revenue.ItemIds;
    Sorting.SortPermutes(Normalize.ByReversalId, input.reversals);
    Sequences.SameLength(n.reversals, input.reversals);
    SameItemIds(input, n);
    var xs, ys := Revenue.ItemIds(n.items), Revenue.ItemIds(input.items);
    forall r: Reversal ensures TakeBackLaws.Allocates(r, xs)
        <==> TakeBackLaws.Allocates(r, ys) { AllocatingForgetsOrder(r, xs, ys); }
    assert forall k :: 0 <= k < |n.reversals| ==> n.reversals[k] in n.reversals;
  }

  lemma SameItemIds(input: ProfitInput, n: Normalize.Normalized)
    requires n == Normalize.Canonical(input)
    ensures forall id :: id in Revenue.ItemIds(n.items) <==> id in Revenue.ItemIds(input.items)
  {
    hide Sorting.Sort, Normalize.IndexUpTo;
    Sorting.SortPermutes(Normalize.ByLineId, input.items);
    Sequences.SameLength(n.items, input.items);
    var f := (i: Item) => i.id;
    Sequences.MapPermutes(f, n.items, input.items);
    assert Revenue.ItemIds(n.items) == Sequences.Map(f, n.items) && Revenue.ItemIds(input.items) == Sequences.Map(f, input.items);
    Sequences.SameLength(Revenue.ItemIds(n.items), Revenue.ItemIds(input.items));
  }

  lemma SameReconciling(input: ProfitInput, n: Normalize.Normalized)
    requires n == Normalize.Canonical(input)
    ensures Reconciles(n.order, n.items) <==> Reconciles(input.order, input.items)
    ensures n.items == [] <==> input.items == []
    ensures n.reversals == [] <==> input.reversals == []
  {
    hide Sorting.Sort, Normalize.IndexUpTo, ReportLaws.SumUnreflected, Revenue.LineTotals, Sum;
    CanonicalSums(input, n);
    Sorting.SortPermutes(Normalize.ByLineId, input.items);
    Sorting.SortPermutes(Normalize.ByReversalId, input.reversals);
  }

  /** The facts the confidence is derived from, in words. */
  lemma TermFacts(input: ProfitInput, n: Normalize.Normalized, t: Terms, report: Report)
    requires Behind(input, n, t, report) && TermsFrom(input, n, t) && t.recognition == report.recognition
    requires Normalize.NormalizeAndValidate(input) == Normalize.Accepted(n) && n == Normalize.Canonical(input)
    ensures t.revenue.value.reconciles <==> Reconciles(input.order, input.items)
    ensures Says(report.diagnostics, OrderHasNoItems) <==> input.items == []
    ensures t.cogs.value.anyMissing <==> exists i :: i in input.items && HasNoCost(i, input.costs)
    ensures t.cogs.value.anyEstimated <==> exists i :: i in input.items && HasGuessedCost(i, input.costs)
    ensures t.reversal.value.inferredRestock
        <==> RestockLaws.Inferred(report.recognition, input.order.fulfillmentState, input.shipments)
    ensures t.reversal.value.isAllocated <==> MoneySplit(input, report.recognition)
  {
    hide Behind, TermsFrom, Normalize.NormalizeAndValidate, Normalize.Canonical, HasNoCost, HasGuessedCost,
      MoneySplit, Reconciles, RestockLaws.BackRemark, RestockLaws.SplitsMoney, RestockLaws.CameBack,
      RestockLaws.NeverLeft, Distinct;
    CanonicalItems(input, n);
    OrderLegLaws.CanonicalOrder(input, n);
    SameReconciling(input, n);
    RevenueSays(input, n, t, report);
    CostFlagsOf(input, n, t);
    RestockLaws.ReversalSaysSo(input, n, t, Diagnostic(RestockUnconfirmed, OfOrder));
    RestockLaws.SameShipments(n.shipments, input.shipments);
    SplitForgetsOrder(input, n, t.recognition);
  }

  lemma RevenueSays(input: ProfitInput, n: Normalize.Normalized, t: Terms, report: Report)
    requires Behind(input, n, t, report) && TermsFrom(input, n, t) && Distinct(Revenue.ItemIds(n.items))
    ensures t.revenue.value.reconciles <==> Reconciles(n.order, n.items)
    ensures Says(report.diagnostics, OrderHasNoItems) <==> n.items == []
  {
    hide Behind, Revenue.ComputeRevenue, Shipping.ComputeShippingCost, Gateway.ComputeGatewayFees,
      Cod.ComputeCodCost, Reversals.ComputeReversalImpact, LedgerFor, Cogs.ComputeCogs, Reconciles, Discounted,
      Distinct, ReportLaws.SumOn;
    var e := Diagnostic(OrderHasNoItems, OfOrder);
    RevenueInWords(n.order, n.items, t.recognition, e);
    OnlyRevenueSays(input, n, t, report, e);
    if d: Diagnostic :| d in report.diagnostics && d.code == OrderHasNoItems {
      OnlyRevenueSays(input, n, t, report, d);
      RevenueInWords(n.order, n.items, t.recognition, d);
    }
  }

  lemma ConfidenceBehind(input: ProfitInput, n: Normalize.Normalized, t: Terms, report: Report)
    requires Behind(input, n, t, report) && TermsFrom(input, n, t) && t.recognition == report.recognition
    requires Normalize.NormalizeAndValidate(input) == Normalize.Accepted(n) && n == Normalize.Canonical(input)
    ensures Earned(input, report)
  {
    hide Normalize.NormalizeAndValidate, Normalize.Canonical, HasNoCost, HasGuessedCost, MoneySplit, Reconciles,
      RestockLaws.Inferred, TermsFrom, ComputeTerms, ComputeLines, TotalsOf, Diagnostics.SortDiagnostics,
      AllDiagnostics, Has, Says, LevelIs;
    TermFacts(input, n, t, report);
    SameReconciling(input, n);
    SameSayings(t, report.diagnostics, RestockUnconfirmed);
    SameSayings(t, report.diagnostics, ReversalLineUnmatched);
    SameSayings(t, report.diagnostics, ReversalTotalMismatch);
    SameSayings(t, report.diagnostics, OrderHasNoItems);
    LevelOf(TermBasesOf(t, n.items == [], n.reversals == []), AllDiagnostics(t));
  }

  /**
   * A report's confidence is what its order earns: revenue by its figures agreeing, cost of goods by
   * its cost rows and by what came back, reversals by what they name, and the level by all of these
   * and the freight and fee terms (`OrderLegLaws`).
   */
  lemma ConfidenceIsEarned(input: ProfitInput, report: Report)
    requires Reports(input, report)
    ensures Earned(input, report)
  {
    hide *;
    var n, t := Opened(input, report);
    BehindOpens(input, n, t, report);
    BehindIsCanonical(input, n, t, report);
    ConfidenceBehind(input, n, t, report);
  }

  lemma BehindIsCanonical(input: ProfitInput, n: Normalize.Normalized, t: Terms, report: Report)
    requires Behind(input, n, t, report)
    ensures n == Normalize.Canonical(input)
  {
    hide ComputeTerms, ComputeLines, TotalsOf, Normalize.NormalizeAndValidate, Normalize.Canonical, ConfidenceOf,
      Diagnostics.SortDiagnostics;
  }

  // ------------------------------------------------------------ what lines earned

  function DiscountOf(l: ProfitLine): int { l.discount }

  /** What the lines earned and were given off, and what they carry of shipping and cash-fee revenue in all. */
  ghost predicate LinesEarned(order: Order, items: seq<Item>, recognized: bool, lines: seq<ProfitLine>) {
    && |lines| == |items| && (forall i :: 0 <= i < |items| ==> lines[i].itemId == items[i].id)
    && if recognized then
         && Splits.IsSplit(ReportLaws.SumOn(OnItems, order.discounts), Revenue.ItemIds(items),
             Revenue.LineTotals(items), Column(DiscountOf, lines))
         && (forall i :: 0 <= i < |items| ==> lines[i].net == items[i].lineTotalExVat - lines[i].discount)
         && SumOf(ShippingRevenueOf, lines) == order.shippingChargedExVat - ReportLaws.SumOn(OnShipping, order.discounts)
         && SumOf(CodFeeRevenueOf, lines) == order.codFeeChargedExVat - ReportLaws.SumOn(OnCodFee, order.discounts)
       else
         && (forall i :: 0 <= i < |items| ==> lines[i].net == 0 && lines[i].discount == 0)
         && SumOf(ShippingRevenueOf, lines) == 0 && SumOf(CodFeeRevenueOf, lines) == 0
  }

  lemma CarriedEarnings(out: seq<ProfitLine>, lines: seq<Revenue.LineRevenue>, cogs: seq<Cogs.LineCogs>,
        reversals: seq<Reversals.LineReversal>, s: Spreads)
    requires |out| == |lines| == |cogs| == |reversals|
    requires forall i :: 0 <= i < |out| ==> Carries(out[i], lines[i], cogs[i], reversals[i], s)
    ensures Column(DiscountOf, out) == Discounts(lines)
    ensures forall i :: 0 <= i < |out| ==>
      out[i].net == lines[i].net && out[i].discount == lines[i].discount && out[i].itemId == lines[i].itemId
  {
  }

  lemma ColumnTotals(input: ProfitInput, n: Normalize.Normalized, t: Terms, report: Report)
    requires Behind(input, n, t, report) && TermsFrom(input, n, t) && !report.recognition.Excluded? && n.items != []
    requires Normalize.NormalizeAndValidate(input) == Normalize.Accepted(n) && t.recognition == report.recognition
    ensures var r := t.revenue.value;
      SumOf(ShippingRevenueOf, report.lines) == r.shipping - r.shippingDiscount
          && SumOf(CodFeeRevenueOf, report.lines) == r.codFee - r.codFeeDiscount
  {
    hide ComputeTerms, ComputeLines, TotalsOf, Carries, Normalize.NormalizeAndValidate, Normalize.Canonical,
      ConfidenceOf, TermsFrom, Diagnostics.SortDiagnostics, AllDiagnostics, WeightTable, Sum, Column, SpreadParcels,
      SpreadReturn, Along, LineBuckets, LineShareLaws.Describe, Distinct, Splits.IsSplit,
      LineShareLaws.SharesFreight, LineShareLaws.SharesReturn, Allocation.Allocate;
    CanonicalItems(input, n);
    RevenueOf(input, n, t);
    TermsAlign(input, n, t);
    var s := LinesAre(input, n, t, report);
    var r := t.revenue.value;
    SpreadColumns(report.lines, r.lines, t.cogs.value.lines, t.reversal.value.lines, s);
    var amounts := AmountsOf(t, r.shipping - r.shippingDiscount, r.codFee - r.codFeeDiscount);
    SpreadTotal(amounts.shippingRevenue, r.lines, WeightTable(n.items));
    SpreadTotal(amounts.codFeeRevenue, r.lines, WeightTable(n.items));
  }

  lemma EarnedBehind(input: ProfitInput, n: Normalize.Normalized, t: Terms, report: Report)
    requires Behind(input, n, t, report) && TermsFrom(input, n, t) && !report.recognition.Excluded? && n.items != []
        && n.order == input.order
    requires Normalize.NormalizeAndValidate(input) == Normalize.Accepted(n) && t.recognition == report.recognition
    ensures LinesEarned(input.order, n.items, report.recognition == Recognized, report.lines)
  {
    hide Behind, Carries, Normalize.NormalizeAndValidate, Revenue.ComputeRevenue, Shipping.ComputeShippingCost,
      Gateway.ComputeGatewayFees, Cod.ComputeCodCost, Reversals.ComputeReversalImpact, LedgerFor, Cogs.ComputeCogs,
      AllSpreads, AmountsOf, WeightTable, Splits.IsSplit, ReportLaws.SumOn, Reconciles, RevenueRemark, Sum, Column,
      Distinct, SumOf, Revenue.ItemIds, Revenue.LineTotals, Discounts;
    var s := LinesAre(input, n, t, report);
    CarriedEarnings(report.lines, t.revenue.value.lines, t.cogs.value.lines, t.reversal.value.lines, s);
    RevenueInWords(n.order, n.items, t.recognition, Diagnostic(OrderExcluded, OfOrder));
    ReportLaws.RevenueFigures(n.order, n.items, t.recognition);
    ColumnTotals(input, n, t, report);
  }

  /** Each line earns its item's total less its part of the item discounts; shipping and cash fees bring in what was charged less theirs. */
  lemma LinesEarnTheirs(input: ProfitInput, report: Report) returns (items: seq<Item>)
    requires Reports(input, report) && !report.recognition.Excluded? && input.items != []
    ensures multiset(items) == multiset(input.items)
    ensures LinesEarned(input.order, items, report.recognition == Recognized, report.lines)
  {
    hide *;
    var n, t := Opened(input, report);
    BehindOpens(input, n, t, report);
    OrderLegLaws.CanonicalOrder(input, n);
    Sequences.SameLength(n.items, input.items);
    items := n.items;
    EarnedBehind(input, n, t, report);
  }

  // -------------------------------------------------------------------- outcome

  /** The report is headed by its store, day and card, and reads the order as it is. */
  ghost predicate Headed(input: ProfitInput, report: Report) {
    && report.currency == input.store.currency && Some(report.businessDate) == input.localDate
        && report.feeRuleSetId == input.feeRuleSet.id
    && OrderRecognition.IsSo(input.order, input.shipments, report.recognition)
  }

  ghost predicate HasDefect(input: ProfitInput) { exists d :: GateLaws.Defect(input, d) }

  lemma SameReading(order: Order, xs: seq<Shipment>, ys: seq<Shipment>, r: Recognition)
    requires multiset(xs) == multiset(ys)
    ensures OrderRecognition.IsSo(order, xs, r) <==> OrderRecognition.IsSo(order, ys, r)
  {
    hide OrderRecognition.SentOut, OrderRecognition.NeverPaid, OrderRecognition.HasLeft, OrderRecognition.Refused,
      OrderRecognition.Waiting, OrderRecognition.Real;
    Sequences.SameLength(xs, ys);
    assert OrderRecognition.AllGone(xs) <==> OrderRecognition.AllGone(ys);
    hide OrderRecognition.AllGone;
  }

  lemma RecognizedAs(input: ProfitInput, n: Normalize.Normalized, t: Terms)
    requires ComputeTerms(input, n) == Ok(t) && Normalize.NormalizeAndValidate(input) == Normalize.Accepted(n)
    ensures OrderRecognition.IsSo(input.order, input.shipments, t.recognition)
  {
    hide *;
    TermsOpened(input, n, t);
    OrderLegLaws.CanonicalOrder(input, n);
    OrderRecognition.RecognizedAsItIs(n.order, n.shipments, t.recognition);
    SameReading(input.order, n.shipments, input.shipments, t.recognition);
  }

  /** What may come of an order. */
  ghost predicate Outcome(input: ProfitInput, p: OrderProfit) {
    && p.orderId == input.order.id && p.storeId == input.store.storeId
    && if HasDefect(input) then p.RejectedOrder? && forall d :: d in p.diagnostics <==> GateLaws.Defect(input, d)
       else if input.localDate.None? then p.RejectedOrder? && p.diagnostics == [Diagnostic(InvalidTimezone, OfOrder)]
       else if p.ComputedOrder? then Headed(input, p.report)
       else |p.diagnostics| == 1 && p.diagnostics[0].subject == OfOrder
  }

  /**
   * What comes of an order. With a defect it is rejected, under its own ids, for exactly its defects;
   * without a local date for its time zone; and otherwise it is reported, or rejected with one remark
   * on the order.
   */
  lemma OutcomeInWords(input: ProfitInput)
    ensures Outcome(input, Compute(input))
  {
    hide Normalize.NormalizeAndValidate, ComputeTerms, ComputeLines, TotalsOf, Sorting.Sort, Diagnostics.NotAfter,
      GateLaws.Defect, ConfidenceOf, AllDiagnostics, OrderRecognition.IsSo;
    GateLaws.AcceptedIffSound(input);
    var verdict := Normalize.NormalizeAndValidate(input);
    if verdict.Rejected? {
      Sorting.SortPermutes(Diagnostics.NotAfter, verdict.fatal);
      Sequences.SameLength(Diagnostics.SortDiagnostics(verdict.fatal), verdict.fatal);
    } else if ComputeReport(input, verdict.normalized).Ok? {
      RecognizedAs(input, verdict.normalized, ComputeTerms(input, verdict.normalized).value);
    }
  }

  // ----------------------------------------------------------------- the remarks

  /** A line's cost is missing or only a guess. */
  ghost predicate CostSaid(input: ProfitInput, d: Diagnostic) {
    exists i :: i in input.items && d.subject == OfLine(i.id)
      && ((d.code == CostMissing && HasNoCost(i, input.costs)) || (d.code == CostEstimated && HasGuessedCost(i, input.costs)))
  }

  ghost predicate RevenueSaid(input: ProfitInput, recognition: Recognition, d: Diagnostic) {
    RevenueRemark(input.order, input.items, recognition, d)
  }

  ghost predicate BackSaid(input: ProfitInput, recognition: Recognition, d: Diagnostic) {
    RestockLaws.BackRemark(recognition, input.order.fulfillmentState, input.shipments, input.reversals,
        Revenue.ItemIds(input.items), d)
  }

  ghost predicate GatewaySaid(input: ProfitInput, d: Diagnostic) {
    exists at, used, fees ::
      && ChargeLaws.ChargedByLeg(input.feeRuleSet.gateway, input.order.payments, input.store.vatRegistered, at, used, fees)
      && ChargeLaws.GatewayRemark(input.order, input.feeRuleSet.gateway, at, used, d)
  }

  ghost predicate CashSaid(input: ProfitInput, d: Diagnostic) {
    exists carriers, legs, posts ::
      && CashLaws.CarrierList(input.shipments, carriers)
      && CashLaws.PostedByLeg(input.feeRuleSet.cod, carriers, input.store.vatRegistered, input.order.payments,
          |input.order.payments|, legs, posts)
      && CashLaws.CashRemark(input.feeRuleSet.cod, CashLaws.Flat(posts), d)
  }

  /** Said of the legs that went one way, taken in some order, or of there being none. */
  ghost predicate FreightSaid(input: ProfitInput, shipments: seq<Shipment>, direction: Direction, d: Diagnostic) {
    exists at, legs, costings ::
      && ParcelLaws.LegsAt(shipments, direction, at, legs)
      && ParcelLaws.LegsCosted(input.order, input.feeRuleSet.shippingFallback, direction, legs, costings)
      && if legs == [] then
           exists c :: ParcelLaws.EstimateOnly(input.order, input.feeRuleSet.shippingFallback, direction, c) && d in c.diagnostics
         else ParcelLaws.RemarkedLegs(input.order, legs, costings, d)
  }

  lemma FreightSays(input: ProfitInput, shipments: seq<Shipment>, direction: Direction, d: Diagnostic)
    requires Shipping.ComputeShippingCost(input.order, shipments, input.feeRuleSet.shippingFallback, direction).Ok?
    requires d in Shipping.ComputeShippingCost(input.order, shipments, input.feeRuleSet.shippingFallback,
        direction).value.diagnostics
    ensures FreightSaid(input, shipments, direction, d)
  {
    hide Shipping.ComputeShippingCost, ParcelLaws.LegsAt, ParcelLaws.LegsCosted, ParcelLaws.ParcelsOf,
      ParcelLaws.EstimateOnly, Sum, ParcelLaws.RemarkedLegs, Shipping.ParcelCosts;
    var at, legs, costings := ParcelLaws.ShippingIsItsLegs(input.order, shipments, input.feeRuleSet.shippingFallback, direction);
    assert ParcelLaws.LegsCosted(input.order, input.feeRuleSet.shippingFallback, direction, legs, costings);
  }

  lemma GatewaySaysIt(input: ProfitInput, d: Diagnostic)
    requires Gateway.ComputeGatewayFees(input.order, input.feeRuleSet.gateway, input.store.vatRegistered).Ok?
    requires d in Gateway.ComputeGatewayFees(input.order, input.feeRuleSet.gateway, input.store.vatRegistered).value.diagnostics
    ensures GatewaySaid(input, d)
  {
    hide Gateway.ComputeGatewayFees, ChargeLaws.ChargedByLeg, ChargeLaws.GatewayBasis, Sum, ChargeLaws.GatewayRemark;
    var at, used, fees := ChargeLaws.GatewayIsItsLegs(input.order, input.feeRuleSet.gateway, input.store.vatRegistered);
  }

  lemma CashSaysIt(input: ProfitInput, shipments: seq<Shipment>, d: Diagnostic)
    requires multiset(shipments) == multiset(input.shipments)
    requires Cod.ComputeCodCost(input.order, shipments, input.feeRuleSet.cod, input.store.vatRegistered).Ok?
    requires d in Cod.ComputeCodCost(input.order, shipments, input.feeRuleSet.cod, input.store.vatRegistered).value.diagnostics
    ensures CashSaid(input, d)
  {
    hide Cod.ComputeCodCost, CashLaws.PostedByLeg, Sum, CashLaws.CashRemark, CashLaws.Flat;
    var carriers, legs, posts := CashLaws.CashIsItsLegs(input.order, shipments, input.feeRuleSet.cod, input.store.vatRegistered);
    Sequences.SameLength(shipments, input.shipments);
    forall c ensures CashLaws.Travelled(shipments, c) <==> CashLaws.Travelled(input.shipments, c) {}
    hide CashLaws.Travelled;
    assert CashLaws.CarrierList(input.shipments, carriers);
  }

  lemma CostsSay(input: ProfitInput, n: Normalize.Normalized, t: Terms, d: Diagnostic)
    requires TermsFrom(input, n, t) && n == Normalize.Canonical(input)
        && Normalize.NormalizeAndValidate(input) == Normalize.Accepted(n)
    ensures d in t.cogs.diagnostics <==> CostSaid(input, d)
  {
    hide Revenue.ComputeRevenue, Shipping.ComputeShippingCost, Gateway.ComputeGatewayFees, Cod.ComputeCodCost,
      Reversals.ComputeReversalImpact, LedgerFor, Cogs.CostLines, Money.AddMinor, Uncosted, CostGuessed, HasNoCost,
      HasGuessedCost, Sorting.Sort, Normalize.IndexUpTo, Normalize.NormalizeAndValidate, GateLaws.SameCostKey;
    Sorting.SortPermutes(Normalize.ByLineId, input.items);
    Sequences.SameLength(n.items, input.items);
    NoSharedCostKey(input);
    CostsInWords(n.items, n.costs, |n.items|, d);
    forall i: Item ensures Uncosted(i, n.costs) <==> HasNoCost(i, input.costs)
      ensures CostGuessed(i, n.costs) <==> HasGuessedCost(i, input.costs)
    {
      ItemCosts(input.costs, i);
    }
    assert forall k :: 0 <= k < |n.items| ==> n.items[k] in n.items;
    if CostSaid(input, d) {
      var i :| i in n.items && CostRemark(i, n.costs, d);
      var k :| 0 <= k < |n.items| && n.items[k] == i;
      assert CostRemark(n.items[k], n.costs, d);
    }
  }

  lemma DoubtingForgetsOrder(r: Reversal, xs: seq<string>, ys: seq<string>, code: Code)
    requires forall id :: id in xs <==> id in ys
    ensures TakeBackLaws.Doubts(r, xs, code) <==> TakeBackLaws.Doubts(r, ys, code)
  {
    hide TakeBackLaws.Claimed;
  }

  lemma BackForgetsOrder(input: ProfitInput, n: Normalize.Normalized, recognition: Recognition, d: Diagnostic)
    requires n == Normalize.Canonical(input)
    ensures RestockLaws.BackRemark(recognition, n.order.fulfillmentState, n.shipments, n.reversals, Revenue.ItemIds(n.items), d)
      <==> BackSaid(input, recognition, d)
  {
    hide Sorting.Sort, Normalize.IndexUpTo, TakeBackLaws.Doubts, RestockLaws.NeverLeft, Revenue.ItemIds,
      RestockLaws.CameBack;
    Sorting.SortPermutes(Normalize.ByReversalId, input.reversals);
    Sorting.SortPermutes(Normalize.ByShipmentId, input.shipments);
    Sequences.SameLength(n.reversals, input.reversals);
    RestockLaws.SameShipments(n.shipments, input.shipments);
    SameItemIds(input, n);
    var xs, ys := Revenue.ItemIds(n.items), Revenue.ItemIds(input.items);
    forall r: Reversal ensures TakeBackLaws.Doubts(r, xs, d.code)
        <==> TakeBackLaws.Doubts(r, ys, d.code) { DoubtingForgetsOrder(r, xs, ys, d.code); }
    DoubtedBySome(n.reversals, input.reversals, xs, ys, d);
  }

  lemma DoubtedBySome(rs: seq<Reversal>, qs: seq<Reversal>, xs: seq<string>, ys: seq<string>, d: Diagnostic)
    requires (forall r :: r in rs <==> r in qs) && forall r :: TakeBackLaws.Doubts(r, xs, d.code) <==> TakeBackLaws.Doubts(r, ys, d.code)
    ensures TakeBackLaws.Doubted(rs, xs, |rs|, d) <==> TakeBackLaws.Doubted(qs, ys, |qs|, d)
  {
    hide TakeBackLaws.Doubts;
    assert forall k :: 0 <= k < |rs| ==> rs[k] in qs;
    assert forall k :: 0 <= k < |qs| ==> qs[k] in rs;
  }

  lemma RevenueSaysIt(input: ProfitInput, n: Normalize.Normalized, t: Terms, d: Diagnostic)
    requires TermsFrom(input, n, t) && n == Normalize.Canonical(input)
    ensures d in t.revenue.diagnostics <==> RevenueSaid(input, t.recognition, d)
  {
    hide Shipping.ComputeShippingCost, Gateway.ComputeGatewayFees, Cod.ComputeCodCost,
      Reversals.ComputeReversalImpact, LedgerFor, Cogs.ComputeCogs, Revenue.ComputeRevenue, Normalize.Canonical,
      Reconciles, Discounted, ReportLaws.SumOn;
    SameReconciling(input, n);
    RevenueInWords(n.order, n.items, t.recognition, d);
  }

  /** Some term says it, and so it is. */
  ghost predicate IsSaid(input: ProfitInput, recognition: Recognition, d: Diagnostic) {
    || RevenueSaid(input, recognition, d) || CostSaid(input, d) || GatewaySaid(input, d) || CashSaid(input, d)
        || BackSaid(input, recognition, d)
    || exists shipments, direction :: multiset(shipments) == multiset(input.shipments)
        && FreightSaid(input, shipments, direction, d)
  }

  lemma RemarksBehind(input: ProfitInput, n: Normalize.Normalized, t: Terms, report: Report, d: Diagnostic)
    requires Behind(input, n, t, report) && TermsFrom(input, n, t) && t.recognition == report.recognition
    requires Normalize.NormalizeAndValidate(input) == Normalize.Accepted(n) && n == Normalize.Canonical(input)
    ensures d in report.diagnostics ==> IsSaid(input, report.recognition, d)
    ensures RevenueSaid(input, report.recognition, d) || CostSaid(input, d) || BackSaid(input, report.recognition, d)
        ==> d in report.diagnostics
  {
    hide Behind, Normalize.NormalizeAndValidate, Normalize.Canonical, Revenue.ComputeRevenue,
      Shipping.ComputeShippingCost, Gateway.ComputeGatewayFees, Cod.ComputeCodCost, Reversals.ComputeReversalImpact,
      LedgerFor, Cogs.ComputeCogs, RevenueSaid, CostSaid, GatewaySaid, CashSaid, BackSaid, FreightSaid,
      RestockLaws.BackRemark, Distinct;
    CanonicalItems(input, n);
    OrderLegLaws.CanonicalOrder(input, n);
    OrderLegLaws.RemarksAreTheTerms(input, n, t, report, d);
    RevenueSaysIt(input, n, t, d);
    CostsSay(input, n, t, d);
    RestockLaws.ReversalSaysSo(input, n, t, d);
    BackForgetsOrder(input, n, t.recognition, d);
    if d in t.outbound.diagnostics { FreightSays(input, n.shipments, Outbound, d); }
    if d in t.returned.diagnostics { FreightSays(input, n.shipments, Return, d); }
    if d in t.gateway.diagnostics { GatewaySaysIt(input, d); }
    if d in t.cod.diagnostics { CashSaysIt(input, n.shipments, d); }
  }

  /**
   * A report makes nothing up and keeps nothing back: whatever it remarks on is so, and what is so of
   * revenue, costs and returns it remarks on, as it does of legs and fees (`OrderLegLaws`).
   */
  lemma RemarksAreSo(input: ProfitInput, report: Report, d: Diagnostic)
    requires Reports(input, report)
    ensures d in report.diagnostics ==> IsSaid(input, report.recognition, d)
    ensures RevenueSaid(input, report.recognition, d) || CostSaid(input, d) || BackSaid(input, report.recognition, d)
        ==> d in report.diagnostics
  {
    hide *;
    var n, t := Opened(input, report);
    BehindOpens(input, n, t, report);
    BehindIsCanonical(input, n, t, report);
    RemarksBehind(input, n, t, report, d);
  }
}
