/**
 * Orders whose items and refunds alone decide them: digital, nothing shipped, discounted or charged
 * on top. Whenever their figures are in range they compute, so the theorems about computed orders
 * speak of orders there are, refunds included.
 */
module BareOrders {
  import opened Prelude
  import opened Sums
  import opened Money
  import opened Domain
  import opened Allocation
  import opened Allocator
  import opened AllocateLines
  import opened AllocateLinesLaws
  import opened Profit
  import opened ProfitLaws
  import Cogs
  import Normalize
  import Sequences
  import OrderRecognition
  import Revenue
  import ReturnLaws
  import Gateway
  import Shipping
  import Cod = CashOnDelivery
  import Reversals

  ghost predicate Bare(order: Order) {
    && order.lifecycle.Open? && !order.isTest && order.fulfillmentState.NotApplicable? && order.fulfillmentMethod.Digital?
    && (order.paymentState.Unpaid? || order.paymentState.Refunded?)
    && order.discounts == [] && order.payments == []
    && order.shippingChargedExVat == order.codFeeChargedExVat == order.vatAmount == 0 && InRange(order.subtotalExVat)
  }

  /** The items are worth something in range, all together. */
  ghost predicate Priced(items: seq<Item>) {
    && items != [] && (forall i :: 0 <= i < |items| ==> items[i].lineTotalExVat >= 0)
    && InRange(Sum(Revenue.LineTotals(items)))
  }

  ghost predicate NoRules(rules: FeeRuleSet) { rules.gateway == [] && rules.cod == [] && rules.shippingFallback == [] }

  // ----------------------------------------------------------------- revenue

  function BareLines(items: seq<Item>): (r: seq<Revenue.LineRevenue>)
    ensures |r| == |items|
    ensures forall i :: 0 <= i < |items| ==> r[i] == Revenue.LineRevenue(items[i].id, items[i].lineTotalExVat, 0, items[i].lineTotalExVat)
  {
    Sequences.Map((i: Item) => Revenue.LineRevenue(i.id, i.lineTotalExVat, 0, i.lineTotalExVat), items)
  }

  lemma AllocateZero(buckets: seq<Bucket>)
    requires buckets != [] && Distinct(Keys(buckets))
    ensures Allocate(0, buckets).Ok? && forall k :: Get(Allocate(0, buckets).value, k) == 0
  {
    hide Allocate;
    AllocateSucceeds(0, buckets);
    forall k ensures Get(Allocate(0, buckets).value, k) == 0 { ReturnLaws.AllocateNothing(buckets, k); }
  }

  lemma {:induction false} BareDiscounts(items: seq<Item>, allocation: map<string, int>, n: nat)
    requires n <= |items| && forall k :: Get(allocation, k) == 0
    requires forall i :: 0 <= i < |items| ==> InRange(items[i].lineTotalExVat)
    ensures Revenue.DiscountedLines(items, allocation, n) == Ok(BareLines(items)[..n])
  {
    hide Get;
    if n > 0 {
      BareDiscounts(items, allocation, n - 1);
      assert BareLines(items)[..n] == BareLines(items)[..n-1] + [BareLines(items)[n-1]];
    }
  }

  lemma BareLineRevenue(items: seq<Item>)
    requires Priced(items) && Distinct(Revenue.ItemIds(items))
    ensures Revenue.ComputeLineRevenue(items, 0) == Ok(BareLines(items))
  {
    hide Allocate, Get, Revenue.DiscountedLines;
    SumNonNegative(Revenue.LineTotals(items));
    Revenue.BucketKeys(items);
    AllocateZero(Revenue.ItemBuckets(items));
    BareDiscounts(items, Allocate(0, Revenue.ItemBuckets(items)).value, |items|);
    assert BareLines(items)[..|items|] == BareLines(items);
  }

  lemma NothingUnreflected(order: Order, target: DiscountTarget)
    requires order.discounts == []
    ensures Revenue.Unreflected(order, target) == Ok(0)
  {
  }

  /** Revenue of so much on the items, and nothing else. */
  ghost predicate OnItemsAlone(r: Revenue.OrderRevenue, items: seq<Item>) {
    && r.lines == BareLines(items) && r.items == r.total == Sum(Revenue.LineTotals(items))
    && r.shipping == r.shippingDiscount == r.codFee == r.codFeeDiscount == r.orderDiscount == 0
  }

  ghost predicate Reconciled(r: Computed<Revenue.OrderRevenue>) { r.value.reconciles && r.diagnostics == [] }

  lemma BareRevenue(order: Order, items: seq<Item>)
    requires Bare(order) && Priced(items) && Distinct(Revenue.ItemIds(items))
    ensures var r := Revenue.ComputeRevenue(order, items, Recognized);
      && r.Ok? && OnItemsAlone(r.value.value, items)
      && (order.subtotalExVat == Sum(Revenue.LineTotals(items)) == order.totalIncVat ==> Reconciled(r.value))
  {
    hide AddMinor, Revenue.ComputeLineRevenue;
    var gross := Sum(Revenue.LineTotals(items));
    AddMinorSucceeds(Revenue.LineTotals(items));
    NothingUnreflected(order, OnItems);
    NothingUnreflected(order, OnShipping);
    NothingUnreflected(order, OnCodFee);
    SumOf3(0, 0, 0);
    AddMinorFits([0, 0, 0]);
    SumOf5(order.subtotalExVat, 0, 0, 0, 0);
    AddMinorFits([order.subtotalExVat, 0, 0, 0, 0]);
    SumOf4(gross, 0, 0, 0);
    SumNonNegative(Revenue.LineTotals(items));
    AddMinorFits([gross, 0, 0, 0]);
    BareLineRevenue(items);
  }

  // ------------------------------------------------------------------- terms

  lemma NoShipping(order: Order, direction: Direction)
    requires !order.fulfillmentMethod.ByCarrier?
    ensures Shipping.ComputeShippingCost(order, [], [], direction) == Ok(Computed(Shipping.ShippingLeg(0, NoTerm, []), []))
  {
  }

  lemma NoFees(order: Order, registered: bool)
    requires order.payments == [] && !order.paymentState.Paid?
    ensures Gateway.ComputeGatewayFees(order, [], registered) == Ok(Computed(Gateway.GatewayFees(0, 0, 0, NoTerm), []))
    ensures Cod.ComputeCodCost(order, [], [], registered) == Ok(Computed(Cod.CodCost(0, 0, 0, NoTerm), []))
  {
  }

  /** What a bare order is made of, given its cost of goods and its returns. */
  ghost predicate BareTerms(t: Terms, items: seq<Item>, cogs: Computed<Cogs.OrderCogs>,
        reversal: Computed<Reversals.ReversalImpact>) {
    && t.recognition.Recognized? && OnItemsAlone(t.revenue.value, items) && t.cogs == cogs && t.reversal == reversal
    && t.outbound == t.returned == Computed(Shipping.ShippingLeg(0, NoTerm, []), [])
    && t.gateway == Computed(Gateway.GatewayFees(0, 0, 0, NoTerm), []) && t.cod == Computed(Cod.CodCost(0, 0, 0, NoTerm), [])
  }

  ghost predicate BareInput(input: ProfitInput, n: Normalize.Normalized) {
    && n.order == input.order && Bare(n.order) && NoRules(input.feeRuleSet) && n.shipments == []
    && Priced(n.items) && Distinct(Revenue.ItemIds(n.items))
  }

  /** The ledger a bare order's refunds are applied against. */
  ghost function BareLedger(items: seq<Item>, cogs: Cogs.OrderCogs): Reversals.Ledger {
    Reversals.LedgerOf(BareLines(items), cogs.lines, QuantityTable(items), WeightTable(items))
  }

  lemma BareTermsCompute(input: ProfitInput, n: Normalize.Normalized, cogs: Computed<Cogs.OrderCogs>,
        reversal: Computed<Reversals.ReversalImpact>) returns (t: Terms)
    requires BareInput(input, n) && Cogs.ComputeCogs(n.items, n.costs) == Ok(cogs)
    requires Reversals.ComputeReversalImpact(n.reversals, BareLines(n.items), BareLedger(n.items, cogs.value),
        Recognized, [], false) == Ok(reversal)
    ensures ComputeTerms(input, n) == Ok(t) && BareTerms(t, n.items, cogs, reversal)
    ensures n.order.subtotalExVat == Sum(Revenue.LineTotals(n.items)) == n.order.totalIncVat ==> Reconciled(t.revenue)
  {
    hide Revenue.ComputeRevenue, Cogs.ComputeCogs, Reversals.ComputeReversalImpact, Shipping.ComputeShippingCost,
      Gateway.ComputeGatewayFees, Cod.ComputeCodCost, Reversals.LedgerOf, QuantityTable, WeightTable, Priced,
      BareLines, Sum;
    assert OrderRecognition.ComputeRecognition(n.order, []) == Recognized;
    BareRevenue(n.order, n.items);
    NoShipping(n.order, Outbound);
    NoShipping(n.order, Return);
    NoFees(n.order, input.store.vatRegistered);
    t := ComputeTerms(input, n).value;
  }

  // ------------------------------------------------------------------- lines

  /** One line's own figures, and its margin on the way, are in range. */
  ghost predicate Fits(net: int, impact: int, cogs: int) {
    InRange(net) && InRange(impact) && InRange(cogs) && InRange(net + impact) && InRange(net + impact - cogs)
  }

  lemma BareMargin(net: int, impact: int, cogs: int)
    requires Fits(net, impact, cogs)
    ensures Margin(net, 0, 0, impact, cogs, 0, 0, 0, 0) == Ok(net + impact - cogs)
    ensures ContributionMargin(net, impact, Costs(cogs, 0, 0, 0, 0)) == Ok(net + impact - cogs)
  {
    hide AddMinor;
    SumOf4(net, 0, 0, impact);
    AddMinorFits([net, 0, 0, impact]);
    SumOf5(cogs, 0, 0, 0, 0);
    AddMinorFits([cogs, 0, 0, 0, 0]);
    SumOf2(net, impact);
    AddMinorFits([net, impact]);
  }

  ghost predicate NothingSpread(s: Spreads) {
    forall k :: Get(s.shippingRevenue, k) == Get(s.codFeeRevenue, k) == Get(s.outbound, k) == Get(s.returned, k)
                == Get(s.gateway, k) == Get(s.cod, k) == 0
  }

  lemma BareSpreads(lines: seq<Revenue.LineRevenue>, reversals: seq<Reversals.LineReversal>, weights: map<string, int>)
    requires lines != [] && Distinct(LineIds(lines))
    ensures var r := AllSpreads(lines, reversals, Amounts(0, 0, [], [], 0, 0, 0, 0), weights); r.Ok? && NothingSpread(r.value)
  {
    hide Allocate, Get, ReturnedRevenue;
    var buckets, returned := LineBuckets(lines, weights), ReturnedBuckets(lines, reversals);
    assert Keys(buckets) == LineIds(lines) && Keys(returned) == LineIds(lines);
    AllocateZero(buckets);
    AllocateZero(returned);
  }

  lemma BareLine(line: Revenue.LineRevenue, cogs: Cogs.LineCogs, reversal: Reversals.LineReversal, l: Lookups, s: Spreads)
    requires NothingSpread(s) && Fits(line.net, reversal.impact, cogs.cogs)
    requires line.itemId in l.cogs && l.cogs[line.itemId] == cogs && line.itemId in l.reversals
        && l.reversals[line.itemId] == reversal
    ensures var r := LineOf(line, l, s);
      && r.Ok? && r.value.restocked == reversal.restocked && r.value.cogs == cogs.cogs
      && (r.value.coveredRevenue == 0 || r.value.coveredRevenue == line.net)
  {
    hide Margin, Get;
    BareMargin(line.net, reversal.impact, cogs.cogs);
  }

  /** The reported lines hold what came back, and cover no more revenue than they have. */
  ghost predicate BareReported(out: seq<ProfitLine>, lines: seq<Revenue.LineRevenue>,
        reversals: seq<Reversals.LineReversal>, n: nat)
    requires n <= |lines| == |reversals|
  {
    |out| == n && forall i :: 0 <= i < n ==>
      out[i].restocked == reversals[i].restocked && (out[i].coveredRevenue == 0 || out[i].coveredRevenue == lines[i].net)
  }

  ghost predicate LinesFit(lines: seq<Revenue.LineRevenue>, cogs: seq<Cogs.LineCogs>, reversals: seq<Reversals.LineReversal>)
    requires |lines| == |cogs| == |reversals|
  {
    forall i :: 0 <= i < |lines| ==> Fits(lines[i].net, reversals[i].impact, cogs[i].cogs)
  }

  lemma {:induction false} BareLinesUpTo(lines: seq<Revenue.LineRevenue>, cogs: seq<Cogs.LineCogs>,
        reversals: seq<Reversals.LineReversal>,
        l: Lookups, s: Spreads, n: nat)
    requires n <= |lines| && NothingSpread(s) && SameLines(lines, cogs, reversals) && LinesFit(lines, cogs, reversals)
    requires l.cogs == Sequences.TableOf(CogsIds(cogs), cogs)
        && l.reversals == Sequences.TableOf(AllocateLines.ReversalIds(reversals), reversals)
    ensures LinesUpTo(lines, l, s, n).Ok? && BareReported(LinesUpTo(lines, l, s, n).value, lines, reversals, n)
  {
    hide LineOf, NothingSpread, Fits, Sequences.TableOf;
    if n > 0 {
      BareLinesUpTo(lines, cogs, reversals, l, s, n - 1);
      assert CogsIds(cogs) == LineIds(lines) && AllocateLines.ReversalIds(reversals) == LineIds(lines);
      Sequences.TableLookup(LineIds(lines), cogs, n - 1);
      Sequences.TableLookup(LineIds(lines), reversals, n - 1);
      BareLine(lines[n-1], cogs[n-1], reversals[n-1], l, s);
    }
  }

  lemma BareComputeLines(items: seq<Item>, t: Terms, cogs: Computed<Cogs.OrderCogs>,
        reversal: Computed<Reversals.ReversalImpact>)
    requires BareTerms(t, items, cogs, reversal) && items != []
    requires SameLines(BareLines(items), cogs.value.lines, reversal.value.lines)
    requires LinesFit(BareLines(items), cogs.value.lines, reversal.value.lines)
    ensures var r := ComputeLines(items, t);
      r.Ok? && BareReported(r.value, BareLines(items), reversal.value.lines, |items|)
  {
    hide LinesUpTo, AllSpreads, WeightTable, Sequences.TableOf, Fits;
    var lines := BareLines(items);
    BareSpreads(lines, reversal.value.lines, WeightTable(items));
    var s := AllSpreads(lines, reversal.value.lines, Amounts(0, 0, [], [], 0, 0, 0, 0), WeightTable(items)).value;
    BareLinesUpTo(lines, cogs.value.lines, reversal.value.lines,
        LookupsOf(items, cogs.value.lines, reversal.value.lines), s, |lines|);
  }

  // ------------------------------------------------------------------ totals

  lemma CoveredFits(items: seq<Item>, lines: seq<ProfitLine>, reversals: seq<Reversals.LineReversal>)
    requires Priced(items) && |reversals| == |items| && BareReported(lines, BareLines(items), reversals, |items|)
    ensures AddMinor(CoveredRevenues(lines)).Ok?
  {
    var covered := CoveredRevenues(lines);
    assert forall i :: 0 <= i < |lines| ==> covered[i] == lines[i].coveredRevenue;
    SumMonotone(covered, Revenue.LineTotals(items));
    SumNonNegative(covered);
    AddMinorSucceeds(covered);
  }

  lemma BareTotals(items: seq<Item>, t: Terms, cogs: Computed<Cogs.OrderCogs>,
        reversal: Computed<Reversals.ReversalImpact>, lines: seq<ProfitLine>)
    requires BareTerms(t, items, cogs, reversal) && AddMinor(CoveredRevenues(lines)).Ok?
    requires Fits(Sum(Revenue.LineTotals(items)), reversal.value.impact, cogs.value.cogs)
    ensures var r := TotalsOf(t, lines);
      && r.Ok? && r.value.revenue == Sum(Revenue.LineTotals(items))
      && r.value.restocked == reversal.value.restocked && r.value.costs.cogs == cogs.value.cogs
      && r.value.margin == Sum(Revenue.LineTotals(items)) + reversal.value.impact - cogs.value.cogs
  {
    hide AddMinor, ContributionMargin, MarginBpsOf, CoveredRevenues;
    var gross := Sum(Revenue.LineTotals(items));
    BareMargin(gross, reversal.value.impact, cogs.value.cogs);
    RateIsRounded(gross + reversal.value.impact - cogs.value.cogs, gross);
  }

  /** What came of an accepted bare order, its cost of goods and its returns computed. */
  ghost predicate BareRun(input: ProfitInput, n: Normalize.Normalized, cogs: Computed<Cogs.OrderCogs>,
        reversal: Computed<Reversals.ReversalImpact>) {
    && Normalize.NormalizeAndValidate(input) == Normalize.Accepted(n) && input.localDate.Some? && BareInput(input, n)
    && Cogs.ComputeCogs(n.items, n.costs) == Ok(cogs)
    && Reversals.ComputeReversalImpact(n.reversals, BareLines(n.items), BareLedger(n.items, cogs.value), Recognized,
        [], false) == Ok(reversal)
  }

  lemma BareAligns(input: ProfitInput, n: Normalize.Normalized, cogs: Computed<Cogs.OrderCogs>,
        reversal: Computed<Reversals.ReversalImpact>, t: Terms)
    requires BareRun(input, n, cogs, reversal) && ComputeTerms(input, n) == Ok(t) && BareTerms(t, n.items, cogs, reversal)
    ensures SameLines(BareLines(n.items), cogs.value.lines, reversal.value.lines)
  {
    hide Normalize.NormalizeAndValidate, ComputeTerms, TermsFrom, BareInput, BareLines, Cogs.ComputeCogs,
      Reversals.ComputeReversalImpact, BareLedger, SameLines;
    TermsOpened(input, n, t);
    TermsAlign(input, n, t);
  }

  /** Every figure of the order, line by line and all together, is in range. */
  ghost predicate RunFits(items: seq<Item>, cogs: Cogs.OrderCogs, reversal: Reversals.ReversalImpact) {
    && |items| == |cogs.lines| == |reversal.lines| && LinesFit(BareLines(items), cogs.lines, reversal.lines)
    && Fits(Sum(Revenue.LineTotals(items)), reversal.impact, cogs.cogs)
  }

  /** An accepted bare order whose figures are in range computes, and reports line by line what its refunds brought back. */
  lemma BareOrdersCompute(input: ProfitInput, n: Normalize.Normalized, cogs: Computed<Cogs.OrderCogs>,
        reversal: Computed<Reversals.ReversalImpact>) returns (report: Report)
    requires BareRun(input, n, cogs, reversal) && RunFits(n.items, cogs.value, reversal.value)
    ensures Reports(input, report) && report.recognition.Recognized?
    ensures report.totals.revenue == Sum(Revenue.LineTotals(n.items)) && report.totals.costs.cogs == cogs.value.cogs
    ensures report.totals.restocked == reversal.value.restocked
    ensures report.totals.margin == report.totals.revenue + reversal.value.impact - cogs.value.cogs
    ensures |report.lines| == |reversal.value.lines| == |n.items|
    ensures forall i :: 0 <= i < |report.lines| ==> report.lines[i].restocked == reversal.value.lines[i].restocked
  {
    hide ComputeTerms, ComputeLines, TotalsOf, Normalize.NormalizeAndValidate, ConfidenceOf, Cogs.ComputeCogs,
      Reversals.ComputeReversalImpact, BareLedger, BareLines, Bare, NoRules, Sum, LinesFit, Fits, SameLines,
      BareTerms, Priced;
    var t := BareTermsCompute(input, n, cogs, reversal);
    BareAligns(input, n, cogs, reversal, t);
    assert n.items != [] by { PricedIsNotEmpty(n.items); }
    BareComputeLines(n.items, t, cogs, reversal);
    var lines := ComputeLines(n.items, t).value;
    CoveredFits(n.items, lines, reversal.value.lines);
    BareTotals(n.items, t, cogs, reversal, lines);
    BareIsRecognized(t, n.items, cogs, reversal);
    report := ReportOf(input, input.localDate.value, n, t, lines, TotalsOf(t, lines).value);
  }

  lemma PricedIsNotEmpty(items: seq<Item>)
    requires Priced(items)
    ensures items != []
  {
  }

  lemma BareIsRecognized(t: Terms, items: seq<Item>, cogs: Computed<Cogs.OrderCogs>,
        reversal: Computed<Reversals.ReversalImpact>)
    requires BareTerms(t, items, cogs, reversal)
    ensures t.recognition.Recognized?
  {
  }
}
