/** What a report says about its order, figure by figure and line by line. */
module ReportLaws {
  import opened Prelude
  import opened Sequences
  import opened Sums
  import opened Money
  import opened Domain
  import opened Cogs
  import opened Diagnostics
  import opened AllocateLines
  import opened AllocateLinesLaws
  import opened Profit
  import opened ProfitLaws
  import opened ReturnLaws
  import Normalize
  import Sorting
  import Revenue
  import Gateway
  import Shipping
  import Cod = CashOnDelivery
  import Reversals

  // ----------------------------------------------------------------- revenue

  predicate Unreflected(d: Discount) { !d.reflected }

  function DiscountAmounts(ds: seq<Discount>): (r: seq<int>) ensures |r| == |ds| { Map((d: Discount) => d.amountExVat, ds) }

  function OnTarget(target: DiscountTarget): Discount -> bool { (d: Discount) => d.target == target && !d.reflected }

  function SumOn(target: DiscountTarget, ds: seq<Discount>): int { Sum(DiscountAmounts(Filter(OnTarget(target), ds))) }

  function SumUnreflected(ds: seq<Discount>): int { Sum(DiscountAmounts(Filter(Unreflected, ds))) }

  lemma FilterCons(p: Discount -> bool, ds: seq<Discount>)
    requires ds != []
    ensures Sum(DiscountAmounts(Filter(p, ds)))
        == (if p(ds[0]) then ds[0].amountExVat else 0) + Sum(DiscountAmounts(Filter(p, ds[1..])))
  {
    var rest := Filter(p, ds[1..]);
    if p(ds[0]) {
      assert DiscountAmounts([ds[0]] + rest) == [ds[0].amountExVat] + DiscountAmounts(rest);
    } else {
      assert [] + rest == rest;
    }
  }

  /** Discounts by target add up to all unreflected discounts. */
  lemma {:induction false} TargetsAddUp(ds: seq<Discount>)
    ensures SumOn(OnItems, ds) + SumOn(OnShipping, ds) + SumOn(OnCodFee, ds) == SumUnreflected(ds)
  {
    if ds != [] {
      TargetsAddUp(ds[1..]);
      FilterCons(OnTarget(OnItems), ds);
      FilterCons(OnTarget(OnShipping), ds);
      FilterCons(OnTarget(OnCodFee), ds);
      FilterCons(Unreflected, ds);
      hide Filter, Sum, DiscountAmounts;
      assert ds[0].target == OnItems || ds[0].target == OnShipping || ds[0].target == OnCodFee;
    }
  }

  lemma UnreflectedIs(order: Order, target: DiscountTarget)
    ensures Revenue.Unreflected(order, target).Ok? ==> Revenue.Unreflected(order, target).value == SumOn(target, order.discounts)
  {
    hide AddMinor, Sum;
    var p := (d: Discount) => d.target == target && !d.reflected;
    SameFilter(p, OnTarget(target), order.discounts);
    AddMinorIsSum(Map((d: Discount) => d.amountExVat, Filter(p, order.discounts)));
    assert Map((d: Discount) => d.amountExVat, Filter(p, order.discounts))
        == DiscountAmounts(Filter(OnTarget(target), order.discounts));
  }

  lemma {:induction false} SameFilter(p: Discount -> bool, q: Discount -> bool, ds: seq<Discount>)
    requires forall d :: p(d) == q(d)
    ensures Filter(p, ds) == Filter(q, ds)
  {
    if ds != [] { SameFilter(p, q, ds[1..]); }
  }

  /** The revenue figures of a recognized order are what it charged and discounted; any other order has none. */
  ghost predicate ChargedFigures(totals: Totals, order: Order, items: seq<Item>, recognized: bool) {
    if recognized then
      && totals.items == Sum(Revenue.LineTotals(items)) && totals.shipping == order.shippingChargedExVat
      && totals.codFee == order.codFeeChargedExVat && totals.vatCollected == order.vatAmount
      && totals.orderDiscount == SumUnreflected(order.discounts)
    else
      totals.items == totals.shipping == totals.codFee == totals.vatCollected == totals.orderDiscount == totals.revenue == 0
  }

  lemma RevenueFigures(order: Order, items: seq<Item>, recognition: Recognition)
    requires Revenue.ComputeRevenue(order, items, recognition).Ok?
    ensures var r := Revenue.ComputeRevenue(order, items, recognition).value.value;
      if recognition.Recognized? then
        && r.items == Sum(Revenue.LineTotals(items)) && r.shipping == order.shippingChargedExVat
            && r.codFee == order.codFeeChargedExVat
        && r.vatCollected == order.vatAmount && r.orderDiscount == SumUnreflected(order.discounts)
      else r.items == r.shipping == r.codFee == r.vatCollected == r.orderDiscount == r.total == 0
  {
    hide AddMinor, Sum, Revenue.Unreflected, Revenue.ComputeLineRevenue, Revenue.LineTotals, SumOn, SumUnreflected,
      Revenue.RevenueDiagnostics;
    AddMinorIsSum(Revenue.LineTotals(items));
    UnreflectedIs(order, OnItems);
    UnreflectedIs(order, OnShipping);
    UnreflectedIs(order, OnCodFee);
    TargetsAddUp(order.discounts);
    Add3(SumOn(OnItems, order.discounts), SumOn(OnShipping, order.discounts), SumOn(OnCodFee, order.discounts));
  }

  lemma FiguresBehind(input: ProfitInput, n: Normalize.Normalized, t: Terms, report: Report)
    requires Behind(input, n, t, report) && TermsFrom(input, n, t)
    ensures ChargedFigures(report.totals, input.order, input.items, report.recognition.Recognized?)
    ensures report.totals.coveredRevenue == Sum(CoveredRevenues(report.lines))
  {
    hide ComputeTerms, Normalize.NormalizeAndValidate, ComputeLines, ConfidenceOf, SortDiagnostics, AllDiagnostics,
      ContributionMargin, AddMinor, MarginBpsOf, Revenue.ComputeRevenue, ComputeCogs, Shipping.ComputeShippingCost,
      Gateway.ComputeGatewayFees, Cod.ComputeCodCost, Reversals.ComputeReversalImpact, LedgerFor, Sum,
      Revenue.LineTotals, SumUnreflected, CoveredRevenues, Sorting.Sort, Normalize.IndexUpTo;
    RevenueFigures(n.order, n.items, t.recognition);
    CanonicalSums(input, n);
    AddMinorIsSum(CoveredRevenues(report.lines));
  }

  /** The report's revenue is what the order charged, and its covered revenue is what its lines cover. */
  lemma FiguresAreTheOrders(input: ProfitInput, report: Report)
    requires Reports(input, report)
    ensures ChargedFigures(report.totals, input.order, input.items, report.recognition.Recognized?)
    ensures report.totals.coveredRevenue == Sum(CoveredRevenues(report.lines))
  {
    hide *;
    var n, t := Opened(input, report);
    BehindOpens(input, n, t, report);
    FiguresBehind(input, n, t, report);
  }

  // ------------------------------------------------------------------- lines

  /** How a cost line reads off the resolved cost of its item. */
  ghost predicate ReadsCost(line: LineCogs, item: Item, costs: CostIndex) {
    match CostOf(item, costs)
    case None => line == LineCogs(item.id, 0, 0, NoSource, None, false)
    case Some(c) => line == LineCogs(item.id, c.unitCost, c.unitCost * item.quantity, c.source, Some(c.historyId),
        IsExact(c.source))
  }

  lemma CostLineReads(c: Costed, item: Item, costs: CostIndex)
    requires CostLine(c, item, costs).Ok?
    ensures var d := CostLine(c, item, costs).value;
      |d.lines| == |c.lines| + 1 && d.lines[..|c.lines|] == c.lines && ReadsCost(d.lines[|c.lines|], item, costs)
  {
    hide CostOf;
  }

  lemma {:induction false} CostLinesRead(items: seq<Item>, costs: CostIndex, n: nat)
    requires n <= |items| && CostLines(items, costs, n).Ok?
    ensures var lines := CostLines(items, costs, n).value.lines;
      |lines| == n && forall i :: 0 <= i < n ==> ReadsCost(lines[i], items[i], costs)
  {
    hide CostLine, ReadsCost;
    if n > 0 {
      CostLinesRead(items, costs, n - 1);
      var before := CostLines(items, costs, n - 1).value;
      CostLineReads(before, items[n-1], costs);
      var lines := CostLines(items, costs, n).value.lines;
      forall i | 0 <= i < n ensures ReadsCost(lines[i], items[i], costs) {
        if i < n - 1 { assert lines[i] == lines[..n-1][i]; }
      }
    }
  }

  lemma {:induction false} LinesAreOf(lines: seq<Revenue.LineRevenue>, l: Lookups, s: Spreads, n: nat)
    requires n <= |lines| && LinesUpTo(lines, l, s, n).Ok?
    ensures var out := LinesUpTo(lines, l, s, n).value;
      |out| == n && forall i :: 0 <= i < n ==> LineOf(lines[i], l, s) == Ok(out[i])
  {
    hide LineOf;
    if n > 0 { LinesAreOf(lines, l, s, n - 1); }
  }

  /** A line names its item's product, variant, SKU and quantity, and its cost row's cost, source and id. */
  ghost predicate Describes(l: ProfitLine, item: Item, costs: CostIndex) {
    && l.itemId == item.id && l.productId == item.productId && l.variantId == item.variantId && l.sku == item.sku
        && l.quantity == item.quantity
    && match CostOf(item, costs)
       case None => l.unitCost == 0 && l.cogs == 0 && l.costSource == NoSource && l.historyId == None && l.coveredRevenue == 0
       case Some(c) =>
         && l.unitCost == c.unitCost && l.cogs == c.unitCost * item.quantity && l.costSource == c.source
             && l.historyId == Some(c.historyId)
         && l.coveredRevenue == if IsExact(c.source) then l.net else 0
  }

  lemma LineDescribes(out: ProfitLine, line: Revenue.LineRevenue, l: Lookups, s: Spreads, item: Item, cogs: LineCogs,
        costs: CostIndex)
    requires LineOf(line, l, s) == Ok(out) && line.itemId == item.id && ReadsCost(cogs, item, costs)
    requires item.id in l.items && l.items[item.id] == item && item.id in l.cogs && l.cogs[item.id] == cogs
    ensures Describes(out, item, costs)
  {
    hide Margin, CostOf;
  }

  lemma ItemLookup(items: seq<Item>, cogs: seq<LineCogs>, reversals: seq<Reversals.LineReversal>, i: nat)
    requires i < |items| && Distinct(Revenue.ItemIds(items)) && Cogs.Aligned(items, cogs)
    ensures var l := LookupsOf(items, cogs, reversals);
      items[i].id in l.items && l.items[items[i].id] == items[i] && items[i].id in l.cogs && l.cogs[items[i].id] == cogs[i]
  {
    assert CogsIds(cogs) == Revenue.ItemIds(items);
    TableLookup(Revenue.ItemIds(items), items, i);
    TableLookup(CogsIds(cogs), cogs, i);
  }

  lemma DescribedBehind(input: ProfitInput, n: Normalize.Normalized, t: Terms, report: Report)
    requires Behind(input, n, t, report) && TermsFrom(input, n, t) && !t.recognition.Excluded? && n.items != []
    ensures |report.lines| == |n.items| && forall i :: 0 <= i < |n.items| ==> Describes(report.lines[i], n.items[i], n.costs)
  {
    hide ComputeTerms, Normalize.NormalizeAndValidate, Normalize.Canonical, ConfidenceOf, SortDiagnostics,
      AllDiagnostics, TotalsOf, AddMinor, Revenue.ComputeRevenue, Shipping.ComputeShippingCost,
      Gateway.ComputeGatewayFees, Cod.ComputeCodCost, CostLines, CostOf, LineOf, LinesUpTo,
      Reversals.ComputeReversalImpact, LedgerFor, AllSpreads, LookupsOf, WeightTable, Describes, ReadsCost, Distinct,
      Revenue.ItemIds, Revenue.Nets, Sum, LineCosts, Revenue.ZeroLines;
    CanonicalItems(input, n);
    RevenueOf(input, n, t);
    CogsTies(n.items, n.costs);
    CostLinesRead(n.items, n.costs, |n.items|);
    var r, cogs, reversals := t.revenue.value, t.cogs.value.lines, t.reversal.value.lines;
    var s := AllSpreads(r.lines, reversals,
        AmountsOf(t, r.shipping - r.shippingDiscount, r.codFee - r.codFeeDiscount), WeightTable(n.items)).value;
    var l := LookupsOf(n.items, cogs, reversals);
    LinesAreOf(r.lines, l, s, |r.lines|);
    forall i | 0 <= i < |n.items| ensures Describes(report.lines[i], n.items[i], n.costs) {
      ItemLookup(n.items, cogs, reversals, i);
      LineDescribes(report.lines[i], r.lines[i], l, s, n.items[i], cogs[i], n.costs);
    }
  }

  /** Each reported line describes one of the order's items, with the cost resolved for it. */
  lemma LinesDescribeTheirItems(input: ProfitInput, report: Report, l: ProfitLine) returns (item: Item)
    requires Reports(input, report) && l in report.lines
    ensures item in input.items && Describes(l, item, Normalize.IndexUpTo(input.costs, |input.costs|))
  {
    hide *;
    var n, t := Opened(input, report);
    BehindOpens(input, n, t, report);
    ExactTie(input, report);
    item := DescribedItem(input, n, t, report, l);
  }

  lemma DescribedItem(input: ProfitInput, n: Normalize.Normalized, t: Terms, report: Report,
        l: ProfitLine) returns (item: Item)
    requires Behind(input, n, t, report) && TermsFrom(input, n, t) && !t.recognition.Excluded? && input.items != []
        && l in report.lines
    ensures item in input.items && Describes(l, item, Normalize.IndexUpTo(input.costs, |input.costs|))
  {
    hide ComputeTerms, TermsFrom, ComputeLines, TotalsOf, Normalize.NormalizeAndValidate, ConfidenceOf,
      SortDiagnostics, AllDiagnostics, Describes, Normalize.IndexUpTo, Sorting.Sort;
    CanonicalItems(input, n);
    DescribedBehind(input, n, t, report);
    var i :| 0 <= i < |report.lines| && report.lines[i] == l;
    item := n.items[i];
    assert item in n.items;
  }

  lemma MarginsBehind(input: ProfitInput, n: Normalize.Normalized, t: Terms, report: Report)
    requires Behind(input, n, t, report) && TermsFrom(input, n, t) && !report.recognition.Excluded? && n.items != []
    ensures forall l :: l in report.lines ==> MarginFormula(l)
  {
    hide ComputeTerms, TermsFrom, ComputeLines, TotalsOf, Carries, AllSpreads, Normalize.NormalizeAndValidate,
      Normalize.Canonical, ConfidenceOf, SortDiagnostics, AllDiagnostics, MarginFormula;
    var s := LinesAre(input, n, t, report);
    InputColumns(report.lines, t.revenue.value.lines, t.cogs.value.lines, t.reversal.value.lines, s);
  }

  /** Every reported line's margin is its own revenue and impact less its own five costs. */
  lemma LineMarginsAddUp(input: ProfitInput, report: Report)
    requires Reports(input, report)
    ensures forall l :: l in report.lines ==> MarginFormula(l)
  {
    hide *;
    var n, t := Opened(input, report);
    BehindOpens(input, n, t, report);
    ExactTie(input, report);
    if report.lines != [] {
      ItemsBehind(input, n, t, report);
      MarginsBehind(input, n, t, report);
    }
  }

  lemma ItemsBehind(input: ProfitInput, n: Normalize.Normalized, t: Terms, report: Report)
    requires Behind(input, n, t, report) && input.items != []
    ensures n.items != []
  {
    hide ComputeTerms, TermsFrom, ComputeLines, TotalsOf, Normalize.NormalizeAndValidate, Normalize.Canonical,
      ConfidenceOf, SortDiagnostics, AllDiagnostics;
    CanonicalItems(input, n);
  }
}
