/** Whole orders: what every figure of a report goes back to, leg by leg and line by line. */
module OrderLegLaws {
  import opened Prelude
  import opened Sums
  import opened Domain
  import opened Shipping
  import opened AllocateLines
  import opened AllocateLinesLaws
  import opened LineShareLaws
  import opened Profit
  import opened ProfitLaws
  import opened ReturnLaws
  import opened Splits
  import CashLaws
  import ChargeLaws
  import Cogs
  import Diagnostics
  import Fee
  import Money
  import Normalize
  import ParcelLaws
  import Revenue
  import Sequences
  import Sorting
  import Gateway
  import Cod = CashOnDelivery
  import Reversals

  // ------------------------------------------------------------ line by line

  /** The parcels of the live legs that went this way. */
  ghost predicate ParcelsSent(input: ProfitInput, shipments: seq<Shipment>, direction: Direction, parcels: seq<Parcel>) {
    exists at, legs, costings ::
      && ParcelLaws.LegsAt(shipments, direction, at, legs)
      && ParcelLaws.LegsCosted(input.order, input.feeRuleSet.shippingFallback, direction, legs, costings)
      && parcels == ParcelLaws.ParcelsOf(legs, costings)
  }

  lemma Sent(input: ProfitInput, shipments: seq<Shipment>, direction: Direction)
    requires ComputeShippingCost(input.order, shipments, input.feeRuleSet.shippingFallback, direction).Ok?
    ensures ParcelsSent(input, shipments, direction,
      ComputeShippingCost(input.order, shipments, input.feeRuleSet.shippingFallback, direction).value.value.parcels)
  {
    hide ComputeShippingCost, ParcelLaws.LegsAt, ParcelLaws.LegsCosted, ParcelLaws.ParcelsOf;
    var at, legs, costings := ParcelLaws.ShippingIsItsLegs(input.order, shipments, input.feeRuleSet.shippingFallback, direction);
    assert ParcelLaws.LegsCosted(input.order, input.feeRuleSet.shippingFallback, direction, legs, costings);
  }

  lemma ColumnsAlong(out: seq<ProfitLine>, lines: seq<Revenue.LineRevenue>, cogs: seq<Cogs.LineCogs>,
        reversals: seq<Reversals.LineReversal>, s: Spreads, items: seq<Item>)
    requires |out| == |lines| == |cogs| == |reversals| && Describe(lines, items)
    requires forall i :: 0 <= i < |out| ==> Carries(out[i], lines[i], cogs[i], reversals[i], s)
    ensures var ids := Revenue.ItemIds(items);
      && Column(ShippingRevenueOf, out) == Along(s.shippingRevenue, ids)
          && Column(CodFeeRevenueOf, out) == Along(s.codFeeRevenue, ids)
      && Column(OutboundOf, out) == Along(s.outbound, ids) && Column(ReturnedOf, out) == Along(s.returned, ids)
      && Column(GatewayOf, out) == Along(s.gateway, ids) && Column(CodOf, out) == Along(s.cod, ids)
      && Column(ReversedRevenueOf, out) == Reversals.Revenues(reversals)
      && forall i :: 0 <= i < |out| ==> out[i].itemId == items[i].id
  {
    hide Column, Along;
    SpreadColumns(out, lines, cogs, reversals, s);
    SameIds(lines, items);
    InputColumns(out, lines, cogs, reversals, s);
  }

  lemma LinesBehindShare(items: seq<Item>, lines: seq<Revenue.LineRevenue>, cogs: seq<Cogs.LineCogs>,
        reversals: seq<Reversals.LineReversal>, amounts: Amounts, s: Spreads, out: seq<ProfitLine>)
    requires |out| == |lines| == |cogs| == |reversals| && Describe(lines, items) && lines != []
    requires forall i :: 0 <= i < |out| ==> Carries(out[i], lines[i], cogs[i], reversals[i], s)
    requires forall i :: 0 <= i < |lines| ==> reversals[i].itemId == lines[i].itemId
    requires AllSpreads(lines, reversals, amounts, WeightTable(items)) == Ok(s)
    requires SumOf(OutboundOf, out) == amounts.outboundCost && SumOf(ReturnedOf, out) == amounts.returnCost
    ensures LinesShare(items, amounts.outboundParcels, amounts.returnParcels, out)
  {
    hide Carries, Describe, AllSpreads, IsSplit, SharesFreight, SharesReturn, Column, Along, WeightTable, Sum;
    assert |lines| == |items| by { DescribesEach(lines, items); }
    ColumnsAlong(out, lines, cogs, reversals, s, items);
    SpreadsShare(items, lines, reversals, amounts, s);
    var ids, totals := Revenue.ItemIds(items), Revenue.LineTotals(items);
    SumIsTotal(amounts.shippingRevenue, ids, totals, Column(ShippingRevenueOf, out));
    SumIsTotal(amounts.codFeeRevenue, ids, totals, Column(CodFeeRevenueOf, out));
    SumIsTotal(amounts.gatewayCost, ids, totals, Column(GatewayOf, out));
    SumIsTotal(amounts.codCost, ids, totals, Column(CodOf, out));
  }

  lemma DescribesEach(lines: seq<Revenue.LineRevenue>, items: seq<Item>)
    requires Describe(lines, items)
    ensures |lines| == |items|
  {
  }

  lemma CanonicalOrder(input: ProfitInput, n: Normalize.Normalized)
    requires Normalize.NormalizeAndValidate(input) == Normalize.Accepted(n)
    ensures n.order == input.order && multiset(n.items) == multiset(input.items)
        && multiset(n.shipments) == multiset(input.shipments)
    ensures multiset(n.reversals) == multiset(input.reversals)
  {
    hide Normalize.Fatals, Normalize.IndexUpTo, Sorting.Sort;
    Sorting.SortPermutes(Normalize.ByLineId, input.items);
    Sorting.SortPermutes(Normalize.ByShipmentId, input.shipments);
    Sorting.SortPermutes(Normalize.ByReversalId, input.reversals);
  }

  lemma CountedAmounts(t: Terms, shippingRevenue: int, codFeeRevenue: int, totals: Totals)
    requires !t.recognition.Excluded? && totals.costs == CostsOf(t)
    ensures var a := AmountsOf(t, shippingRevenue, codFeeRevenue);
      && a.outboundParcels == t.outbound.value.parcels && a.returnParcels == t.returned.value.parcels
      && a.outboundCost == totals.costs.outbound && a.returnCost == totals.costs.returned
  {
  }

  lemma TotalsCosts(t: Terms, lines: seq<ProfitLine>, totals: Totals)
    requires TotalsOf(t, lines) == Ok(totals)
    ensures totals.costs == CostsOf(t)
  {
    hide ContributionMargin, MarginBpsOf, Money.AddMinor, CostsOf;
  }

  /**
   * Line by line: what the order charged for shipping and cash fees, and what gateway and couriers cost
   * for the money, is split over the lines by their items' totals; freight goes to the lines of each
   * parcel; and return freight to the lines that came back. Every share is the one largest remainder
   * gives, and there is no other (`Splits.OneSplit`).
   */
  lemma LinesShareTheOrder(input: ProfitInput, report: Report)
    returns (items: seq<Item>, shipments: seq<Shipment>, outbound: seq<Parcel>, returned: seq<Parcel>)
    requires Reports(input, report) && !report.recognition.Excluded? && input.items != []
    ensures multiset(items) == multiset(input.items) && multiset(shipments) == multiset(input.shipments)
    ensures ParcelsSent(input, shipments, Outbound, outbound) && ParcelsSent(input, shipments, Return, returned)
    ensures LinesShare(items, outbound, returned, report.lines)
  {
    hide *;
    var n, t := Opened(input, report);
    BehindOpens(input, n, t, report);
    CanonicalOrder(input, n);
    Shares(input, n, t, report);
    items, shipments, outbound, returned := n.items, n.shipments, t.outbound.value.parcels, t.returned.value.parcels;
  }

  lemma Shares(input: ProfitInput, n: Normalize.Normalized, t: Terms, report: Report)
    requires Behind(input, n, t, report) && TermsFrom(input, n, t)
        && Normalize.NormalizeAndValidate(input) == Normalize.Accepted(n)
    requires t.recognition == report.recognition && Reports(input, report) && !report.recognition.Excluded?
        && input.items != [] && n.order == input.order
    ensures ParcelsSent(input, n.shipments, Outbound, t.outbound.value.parcels)
    ensures ParcelsSent(input, n.shipments, Return, t.returned.value.parcels)
    ensures LinesShare(n.items, t.outbound.value.parcels, t.returned.value.parcels, report.lines)
  {
    hide ComputeTerms, ComputeLines, TotalsOf, Carries, AllSpreads, Normalize.NormalizeAndValidate,
      Normalize.Canonical, ConfidenceOf, Diagnostics.SortDiagnostics, AllDiagnostics, WeightTable, LinesShare,
      AmountsOf, CostsOf, Compute, Revenue.ComputeRevenue, Cogs.ComputeCogs, ComputeShippingCost,
      Gateway.ComputeGatewayFees, Cod.ComputeCodCost, Reversals.ComputeReversalImpact, LedgerFor, ParcelsSent, SumOf,
      Sequences.Map, Column;
    CanonicalItems(input, n);
    Sent(input, n.shipments, Outbound);
    Sent(input, n.shipments, Return);
    var s := LinesAre(input, n, t, report);
    RevenueOf(input, n, t);
    TermsAlign(input, n, t);
    ExactTie(input, report);
    TotalsCosts(t, report.lines, report.totals);
    var r := t.revenue.value;
    var amounts := AmountsOf(t, r.shipping - r.shippingDiscount, r.codFee - r.codFeeDiscount);
    CountedAmounts(t, r.shipping - r.shippingDiscount, r.codFee - r.codFeeDiscount, report.totals);
    LinesBehindShare(n.items, r.lines, t.cogs.value.lines, t.reversal.value.lines, amounts, s, report.lines);
  }

  // ----------------------------------------------------------------- the remarks

  /** A report remarks on what its terms do, and on nothing else. */
  lemma RemarksAreTheTerms(input: ProfitInput, n: Normalize.Normalized, t: Terms, report: Report, d: Diagnostic)
    requires Behind(input, n, t, report)
    ensures d in report.diagnostics <==>
      || d in t.revenue.diagnostics || d in t.cogs.diagnostics || d in t.outbound.diagnostics || d in t.returned.diagnostics
      || d in t.gateway.diagnostics || d in t.cod.diagnostics || d in t.reversal.diagnostics
  {
    hide Diagnostics.NotAfter, Sorting.Sort, ComputeTerms, ComputeLines, TotalsOf, Normalize.NormalizeAndValidate,
      Normalize.Canonical, ConfidenceOf;
    var all := AllDiagnostics(t);
    Sorting.SortPermutes(Diagnostics.NotAfter, all);
    Sequences.SameLength(report.diagnostics, all);
  }

  lemma EachSays(input: ProfitInput, n: Normalize.Normalized, t: Terms, report: Report)
    requires Behind(input, n, t, report)
    ensures forall d :: (d in t.outbound.diagnostics || d in t.returned.diagnostics
        || d in t.gateway.diagnostics || d in t.cod.diagnostics) ==> d in report.diagnostics
  {
    hide Behind;
    forall d: Diagnostic
      ensures (d in t.outbound.diagnostics || d in t.returned.diagnostics
        || d in t.gateway.diagnostics || d in t.cod.diagnostics) ==> d in report.diagnostics
    {
      RemarksAreTheTerms(input, n, t, report, d);
    }
  }

  // --------------------------------------------------------------- term by term

  /** What the report shows of a counted term. */
  lemma ShownTerms(t: Terms, lines: seq<ProfitLine>, totals: Totals, noItems: bool, noReversals: bool)
    requires TotalsOf(t, lines) == Ok(totals) && !t.recognition.Excluded?
    ensures totals.gatewayExVat == t.gateway.value.exVat && totals.gatewayVat == t.gateway.value.vat
        && totals.costs.gateway == t.gateway.value.cost
    ensures totals.codExVat == t.cod.value.exVat && totals.codVat == t.cod.value.vat && totals.costs.cod == t.cod.value.cost
    ensures totals.costs.outbound == t.outbound.value.cost && totals.costs.returned == t.returned.value.cost
    ensures var c := ConfidenceOf(t, noItems, noReversals);
      && c.gateway == t.gateway.value.basis && c.cod == t.cod.value.basis && c.outbound == t.outbound.value.basis
      && c.returned == t.returned.value.basis
  {
    hide ContributionMargin, MarginBpsOf, Money.AddMinor, AllDiagnostics;
  }

  /** The gateway figures are those of the legs. */
  ghost predicate GatewayShown(order: Order, rules: seq<GatewayRule>, registered: bool, report: Report,
        at: seq<nat>, used: seq<nat>,
        fees: seq<Fee.AppliedFee>)
  {
    && ChargeLaws.ChargedByLeg(rules, order.payments, registered, at, used, fees)
    && report.totals.gatewayExVat == Sum(ChargeLaws.Nets(fees)) && report.totals.gatewayVat == Sum(ChargeLaws.Taxes(fees))
    && report.totals.costs.gateway == Sum(ChargeLaws.Losses(fees))
    && ChargeLaws.GatewayBasis(order, rules, at, used, report.confidence.gateway)
    && forall d :: ChargeLaws.GatewayRemark(order, rules, at, used, d) ==> d in report.diagnostics
  }

  /** So are the cash-on-delivery figures. */
  ghost predicate CashShown(order: Order, shipments: seq<Shipment>, rules: seq<CodRule>, registered: bool, report: Report,
        carriers: seq<string>, legs: seq<nat>, posts: seq<seq<CashLaws.Post>>)
  {
    && CashLaws.CarrierList(shipments, carriers)
    && CashLaws.PostedByLeg(rules, carriers, registered, order.payments, |order.payments|, legs, posts)
    && var all := CashLaws.Flat(posts);
      && report.totals.codExVat == Sum(CashLaws.Nets(all)) && report.totals.codVat == Sum(CashLaws.Taxes(all))
      && report.totals.costs.cod == Sum(CashLaws.Losses(all))
      && report.confidence.cod == (if CashLaws.NoCash(order.payments) then NoTerm
                                   else if CashLaws.AnyUnserved(rules, all) then Missing
                                   else if CashLaws.AnyGuess(rules, all) then Estimated else Actual)
      && forall d :: CashLaws.CashRemark(rules, all, d) ==> d in report.diagnostics
  }

  /** A shipping figure is that of the live legs that went this way. */
  ghost predicate ShippingShown(order: Order, shipments: seq<Shipment>, rules: seq<ShippingRule>, direction: Direction,
        cost: int, basis: TermBasis, diagnostics: seq<Diagnostic>, at: seq<nat>, legs: seq<Shipment>,
            costings: seq<ParcelLaws.Costing>)
  {
    && ParcelLaws.LegsAt(shipments, direction, at, legs) && ParcelLaws.LegsCosted(order, rules, direction, legs, costings)
    && if legs == [] then
         exists c :: ParcelLaws.EstimateOnly(order, rules, direction, c) && c.value.cost == cost && c.value.basis == basis
           && forall d :: d in c.diagnostics ==> d in diagnostics
       else
         && cost == Sum(ParcelCosts(ParcelLaws.ParcelsOf(legs, costings)))
         && basis == (if ParcelLaws.AnyMissing(costings) then Missing else if ParcelLaws.AnyEstimated(costings)
             then Estimated else Actual)
         && forall d :: ParcelLaws.RemarkedLegs(order, legs, costings, d) ==> d in diagnostics
  }

  lemma ShippingLegs(order: Order, shipments: seq<Shipment>, rules: seq<ShippingRule>, direction: Direction, ds: seq<Diagnostic>)
    returns (at: seq<nat>, legs: seq<Shipment>, costings: seq<ParcelLaws.Costing>)
    requires ComputeShippingCost(order, shipments, rules, direction).Ok?
    requires forall d :: d in ComputeShippingCost(order, shipments, rules, direction).value.diagnostics ==> d in ds
    ensures var leg := ComputeShippingCost(order, shipments, rules, direction).value.value;
      ShippingShown(order, shipments, rules, direction, leg.cost, leg.basis, ds, at, legs, costings)
  {
    hide ParcelLaws.RemarkedLegs, ComputeShippingCost, ParcelLaws.LegsAt, ParcelLaws.LegsCosted,
      ParcelLaws.ParcelsOf, ParcelLaws.EstimateOnly, ParcelLaws.AnyMissing, ParcelLaws.AnyEstimated, Sum,
      ParcelCosts;
    at, legs, costings := ParcelLaws.ShippingIsItsLegs(order, shipments, rules, direction);
  }

  /** Every leg that takes a gateway fee is in the report's gateway figures, at the fee of the right row of the card, and nothing else is. */
  lemma OrderGateway(input: ProfitInput, report: Report) returns (at: seq<nat>, used: seq<nat>, fees: seq<Fee.AppliedFee>)
    requires Reports(input, report) && !report.recognition.Excluded?
    ensures GatewayShown(input.order, input.feeRuleSet.gateway, input.store.vatRegistered, report, at, used, fees)
  {
    hide *;
    var n, t := Opened(input, report);
    BehindOpens(input, n, t, report);
    CanonicalOrder(input, n);
    at, used, fees := GatewayBehind(input, n, t, report);
  }

  lemma GatewayBehind(input: ProfitInput, n: Normalize.Normalized, t: Terms, report: Report)
    returns (at: seq<nat>, used: seq<nat>, fees: seq<Fee.AppliedFee>)
    requires Behind(input, n, t, report) && TermsFrom(input, n, t) && n.order == input.order && !t.recognition.Excluded?
    ensures GatewayShown(input.order, input.feeRuleSet.gateway, input.store.vatRegistered, report, at, used, fees)
  {
    hide Gateway.ComputeGatewayFees, ChargeLaws.ChargedByLeg, ChargeLaws.GatewayBasis, Sum, ComputeTerms,
      ComputeLines, TotalsOf, ConfidenceOf, Normalize.NormalizeAndValidate, Normalize.Canonical,
      Diagnostics.SortDiagnostics, AllDiagnostics, ComputeShippingCost, Cod.ComputeCodCost,
      Reversals.ComputeReversalImpact, Revenue.ComputeRevenue, Cogs.ComputeCogs, LedgerFor, ChargeLaws.Nets,
      ChargeLaws.Taxes, ChargeLaws.Losses, ChargeLaws.GatewayRemark;
    ShownTerms(t, report.lines, report.totals, n.items == [], n.reversals == []);
    EachSays(input, n, t, report);
    at, used, fees := ChargeLaws.GatewayIsItsLegs(input.order, input.feeRuleSet.gateway, input.store.vatRegistered);
  }

  /** The same of cash on delivery, leg by leg and carrier by carrier. */
  lemma OrderCash(input: ProfitInput, report: Report)
    returns (shipments: seq<Shipment>, carriers: seq<string>, legs: seq<nat>, posts: seq<seq<CashLaws.Post>>)
    requires Reports(input, report) && !report.recognition.Excluded?
    ensures multiset(shipments) == multiset(input.shipments)
    ensures CashShown(input.order, shipments, input.feeRuleSet.cod, input.store.vatRegistered, report, carriers, legs, posts)
  {
    hide *;
    var n, t := Opened(input, report);
    BehindOpens(input, n, t, report);
    CanonicalOrder(input, n);
    shipments := n.shipments;
    carriers, legs, posts := CashBehind(input, n, t, report);
  }

  lemma CashBehind(input: ProfitInput, n: Normalize.Normalized, t: Terms, report: Report)
    returns (carriers: seq<string>, legs: seq<nat>, posts: seq<seq<CashLaws.Post>>)
    requires Behind(input, n, t, report) && TermsFrom(input, n, t) && n.order == input.order && !t.recognition.Excluded?
    ensures CashShown(input.order, n.shipments, input.feeRuleSet.cod, input.store.vatRegistered, report, carriers, legs, posts)
  {
    hide Gateway.ComputeGatewayFees, CashLaws.PostedByLeg, CashLaws.CarrierList, Sum, ComputeTerms, ComputeLines,
      TotalsOf, ConfidenceOf, Normalize.NormalizeAndValidate, Normalize.Canonical, Diagnostics.SortDiagnostics,
      AllDiagnostics, ComputeShippingCost, Cod.ComputeCodCost, Reversals.ComputeReversalImpact,
      Revenue.ComputeRevenue, Cogs.ComputeCogs, LedgerFor, CashLaws.Nets, CashLaws.Taxes, CashLaws.Losses,
      CashLaws.Flat, CashLaws.CashRemark, CashLaws.AnyUnserved, CashLaws.AnyGuess, CashLaws.NoCash;
    ShownTerms(t, report.lines, report.totals, n.items == [], n.reversals == []);
    EachSays(input, n, t, report);
    carriers, legs, posts := CashLaws.CashIsItsLegs(input.order, n.shipments, input.feeRuleSet.cod, input.store.vatRegistered);
  }

  /** And of freight, out and back. */
  lemma OrderFreight(input: ProfitInput, report: Report, direction: Direction)
    returns (shipments: seq<Shipment>, at: seq<nat>, legs: seq<Shipment>, costings: seq<ParcelLaws.Costing>)
    requires Reports(input, report) && !report.recognition.Excluded?
    ensures multiset(shipments) == multiset(input.shipments)
    ensures ShippingShown(input.order, shipments, input.feeRuleSet.shippingFallback, direction,
      if direction == Outbound then report.totals.costs.outbound else report.totals.costs.returned,
      if direction == Outbound then report.confidence.outbound
          else report.confidence.returned, report.diagnostics, at, legs, costings)
  {
    hide *;
    var n, t := Opened(input, report);
    BehindOpens(input, n, t, report);
    CanonicalOrder(input, n);
    shipments := n.shipments;
    at, legs, costings := FreightBehind(input, n, t, report, direction);
  }

  lemma FreightBehind(input: ProfitInput, n: Normalize.Normalized, t: Terms, report: Report, direction: Direction)
    returns (at: seq<nat>, legs: seq<Shipment>, costings: seq<ParcelLaws.Costing>)
    requires Behind(input, n, t, report) && TermsFrom(input, n, t) && n.order == input.order && !t.recognition.Excluded?
    ensures ShippingShown(input.order, n.shipments, input.feeRuleSet.shippingFallback, direction,
      if direction == Outbound then report.totals.costs.outbound else report.totals.costs.returned,
      if direction == Outbound then report.confidence.outbound
          else report.confidence.returned, report.diagnostics, at, legs, costings)
  {
    hide Gateway.ComputeGatewayFees, ShippingShown, Sum, ComputeTerms, ComputeLines, TotalsOf, ConfidenceOf,
      Normalize.NormalizeAndValidate, Normalize.Canonical, Diagnostics.SortDiagnostics, AllDiagnostics,
      ComputeShippingCost, Cod.ComputeCodCost, Reversals.ComputeReversalImpact, Revenue.ComputeRevenue,
      Cogs.ComputeCogs, LedgerFor;
    ShownTerms(t, report.lines, report.totals, n.items == [], n.reversals == []);
    EachSays(input, n, t, report);
    at, legs, costings := ShippingLegs(input.order, n.shipments, input.feeRuleSet.shippingFallback, direction,
        report.diagnostics);
  }
}
