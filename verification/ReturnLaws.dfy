/** What goods and money coming back can do to a line, and why a cost-only order never shows a profit. */
module ReturnLaws {
  import opened Prelude
  import opened Sums
  import opened Money
  import opened Domain
  import opened Allocation
  import opened Allocator
  import opened CappedSpread
  import opened CappedSpreadLaws
  import opened Cogs
  import opened Doubles
  import opened AllocateLines
  import opened AllocateLinesLaws
  import opened Diagnostics
  import opened TermLaws
  import opened Profit
  import opened ProfitLaws
  import Fee
  import Normalize
  import NormalizeLaws
  import Sequences
  import Sorting
  import Revenue
  import Gateway
  import Shipping
  import Cod = CashOnDelivery
  import Reversals
  import ReversalLaws
  import Rules

  // ---------------------------------------------------- spreads are not negative

  ghost predicate NonNegative(m: map<string, int>) { forall k :: k in m ==> m[k] >= 0 }

  lemma AllocateNonNegative(total: int, buckets: seq<Bucket>)
    requires total >= 0 && Allocate(total, buckets).Ok?
    ensures NonNegative(Allocate(total, buckets).value)
  {
    hide Allocate;
    var m := Allocate(total, buckets).value;
    forall k | k in m ensures m[k] >= 0 { AllocateSigns(total, buckets, k); }
  }

  lemma AllocateNothing(buckets: seq<Bucket>, k: string)
    requires Allocate(0, buckets).Ok?
    ensures Get(Allocate(0, buckets).value, k) == 0
  {
    hide Allocate;
    if k in Allocate(0, buckets).value { AllocateSigns(0, buckets, k); }
  }

  lemma {:induction false} AddCheckedNonNegative(out: map<string, int>, buckets: seq<Bucket>,
        shares: map<string, int>, n: nat)
    requires n <= |buckets| && NonNegative(out) && NonNegative(shares) && AddChecked(out, buckets, shares, n).Ok?
    ensures NonNegative(AddChecked(out, buckets, shares, n).value)
  {
    if n > 0 { AddCheckedNonNegative(out, buckets, shares, n - 1); }
  }

  lemma {:induction false} PerParcelNonNegative(parcels: seq<Shipping.Parcel>, lines: seq<Revenue.LineRevenue>,
        weights: map<string, int>, n: nat)
    requires n <= |parcels| && forall i :: 0 <= i < |parcels| ==> parcels[i].cost >= 0
    requires PerParcel(parcels, lines, weights, n).Ok? && PerParcel(parcels, lines, weights, n).value.Some?
    ensures NonNegative(PerParcel(parcels, lines, weights, n).value.value)
  {
    hide InParcel, Allocate, AddChecked, LineBuckets, NonNegative, Reversals.ZeroTally;
    if n == 0 {
      ZeroIsNonNegative(lines);
    } else {
      PerParcelNonNegative(parcels, lines, weights, n - 1);
      var out := PerParcel(parcels, lines, weights, n - 1).value.value;
      var buckets := LineBuckets(InParcel(lines, parcels[n-1]), weights);
      AllocateNonNegative(parcels[n-1].cost, buckets);
      AddCheckedNonNegative(out, buckets, Allocate(parcels[n-1].cost, buckets).value, |buckets|);
    }
  }

  lemma ZeroIsNonNegative(lines: seq<Revenue.LineRevenue>)
    ensures NonNegative(Reversals.ZeroTally(lines))
  {
  }

  lemma ParcelsNonNegativeSpread(parcels: seq<Shipping.Parcel>, total: int, lines: seq<Revenue.LineRevenue>,
        weights: map<string, int>)
    requires total >= 0 && forall i :: 0 <= i < |parcels| ==> parcels[i].cost >= 0
    requires SpreadParcels(parcels, total, lines, weights).Ok?
    ensures NonNegative(SpreadParcels(parcels, total, lines, weights).value)
  {
    hide PerParcel, Allocate, LineBuckets, NonNegative;
    if Allocate(total, LineBuckets(lines, weights)).Ok? { AllocateNonNegative(total, LineBuckets(lines, weights)); }
    if AllMapped(parcels) && PerParcel(parcels, lines, weights, |parcels|).value.Some? {
      PerParcelNonNegative(parcels, lines, weights, |parcels|);
    }
  }

  ghost predicate CostsCount(a: Amounts) {
    && a.outboundCost >= 0 && a.returnCost >= 0 && a.gatewayCost >= 0 && a.codCost >= 0
    && (forall i :: 0 <= i < |a.outboundParcels| ==> a.outboundParcels[i].cost >= 0)
    && (forall i :: 0 <= i < |a.returnParcels| ==> a.returnParcels[i].cost >= 0)
  }

  lemma SpreadsNonNegative(lines: seq<Revenue.LineRevenue>, reversals: seq<Reversals.LineReversal>, a: Amounts,
        weights: map<string, int>)
    requires CostsCount(a) && AllSpreads(lines, reversals, a, weights).Ok?
    ensures var s := AllSpreads(lines, reversals, a, weights).value;
      NonNegative(s.outbound) && NonNegative(s.returned) && NonNegative(s.gateway) && NonNegative(s.cod)
  {
    hide Allocate, SpreadParcels, LineBuckets, ReturnedBuckets, NonNegative;
    ParcelsNonNegativeSpread(a.outboundParcels, a.outboundCost, lines, weights);
    if AnyReturned(ReturnedBuckets(lines, reversals)) {
      AllocateNonNegative(a.returnCost, ReturnedBuckets(lines, reversals));
    } else {
      ParcelsNonNegativeSpread(a.returnParcels, a.returnCost, lines, weights);
    }
    AllocateNonNegative(a.gatewayCost, LineBuckets(lines, weights));
    AllocateNonNegative(a.codCost, LineBuckets(lines, weights));
  }

  // ------------------------------------------------------------ bounded returns

  /** No cost recorded for the order is negative. */
  ghost predicate UnitCostsCount(input: ProfitInput) { forall c :: c in input.costs ==> c.unitCost >= 0 }

  lemma CostsFromRows(input: ProfitInput, n: Normalize.Normalized)
    requires n == Normalize.Canonical(input) && UnitCostsCount(input)
    ensures CostsAreNonNegative(n.costs)
  {
    hide Normalize.IndexUpTo, Sorting.Sort;
    NormalizeLaws.IndexIndexes(input.costs, |input.costs|);
    NormalizeLaws.Whole(input.costs);
  }

  /** The ledger the reversals are applied against holds each line's own cost and quantity. */
  lemma LedgerAt(items: seq<Item>, revenue: Revenue.OrderRevenue, cogs: OrderCogs, i: nat)
    requires i < |items| && Distinct(Revenue.ItemIds(items)) && Revenue.Aligned(items, revenue.lines)
        && Cogs.Aligned(items, cogs.lines)
    ensures var ledger, id := LedgerFor(items, revenue, cogs), items[i].id;
      LineCost(ledger.costs, id) == cogs.lines[i].cogs && Get(ledger.quantities, id) == items[i].quantity
  {
    var f := (l: LineCogs) => l.itemId;
    assert Sequences.Map(f, cogs.lines) == Revenue.ItemIds(items);
    Sequences.TableLookup(Revenue.ItemIds(items), cogs.lines, i);
    Sequences.TableLookup(Revenue.ItemIds(items), Quantities(items), i);
  }

  /** One line's reversal, bounded by what the line ordered and cost. */
  ghost predicate BoundedReturn(r: Reversals.LineReversal, item: Item, cogs: LineCogs, recognized: bool) {
    && r.itemId == item.id && r.impact == r.restocked - r.revenue && (!recognized ==> r.revenue == 0)
    && r.quantity <= item.quantity && (cogs.cogs >= 0 ==> 0 <= r.restocked <= cogs.cogs)
  }

  lemma ReturnsBounded(input: ProfitInput, n: Normalize.Normalized, t: Terms, i: nat)
    requires Normalize.NormalizeAndValidate(input) == Normalize.Accepted(n) && TermsFrom(input, n, t) && i < |n.items|
    ensures |t.reversal.value.lines| == |t.cogs.value.lines| == |n.items|
    ensures BoundedReturn(t.reversal.value.lines[i], n.items[i], t.cogs.value.lines[i], t.recognition.Recognized?)
  {
    hide Normalize.NormalizeAndValidate, AddMinor, Sum, LineCosts, Revenue.Nets, Revenue.ZeroLines, Distinct,
      CostLines, Revenue.ComputeRevenue, Shipping.ComputeShippingCost, Gateway.ComputeGatewayFees,
      Cod.ComputeCodCost, Reversals.ComputeReversalImpact, LedgerFor, Get, LineCost, Revenue.ItemIds;
    CanonicalItems(input, n);
    RevenueOf(input, n, t);
    CogsTies(n.items, n.costs);
    ImpactTies(input, n, t);
    LedgerAt(n.items, t.revenue.value, t.cogs.value, i);
    assert n.items[i] in n.items;
  }

  /** The reported lines stand where the items do, and draw on the order's spreads. */
  lemma LinesAre(input: ProfitInput, n: Normalize.Normalized, t: Terms, report: Report) returns (s: Spreads)
    requires Behind(input, n, t, report) && TermsFrom(input, n, t) && !report.recognition.Excluded? && n.items != []
    ensures |report.lines| == |n.items| == |t.revenue.value.lines| == |t.cogs.value.lines| == |t.reversal.value.lines|
    ensures forall i :: 0 <= i < |n.items| ==>
      Carries(report.lines[i], t.revenue.value.lines[i], t.cogs.value.lines[i], t.reversal.value.lines[i], s)
    ensures var r := t.revenue.value;
      AllSpreads(r.lines, t.reversal.value.lines,
          AmountsOf(t, r.shipping - r.shippingDiscount, r.codFee - r.codFeeDiscount), WeightTable(n.items)) == Ok(s)
  {
    hide ComputeTerms, Sum, LineCosts, Carries, AllSpreads, LinesUpTo, LookupsOf, WeightTable, AmountsOf, SameLines,
      TermsFrom, Normalize.NormalizeAndValidate, Normalize.Canonical, ConfidenceOf, SortDiagnostics, AllDiagnostics,
      TotalsOf;
    TermsAlign(input, n, t);
    CanonicalItems(input, n);
    SameLengths(t.revenue.value.lines, t.cogs.value.lines, t.reversal.value.lines);
    var r := t.revenue.value;
    s := AllSpreads(r.lines, t.reversal.value.lines,
        AmountsOf(t, r.shipping - r.shippingDiscount, r.codFee - r.codFeeDiscount), WeightTable(n.items)).value;
    LinesCarry(n.items, r.lines, t.cogs.value.lines, t.reversal.value.lines, s, |r.lines|);
  }

  /** A reported line never takes back more units than were ordered, nor more cost than its goods had. */
  ghost predicate BoundedLine(l: ProfitLine, ordered: int) {
    l.reversedQuantity <= ordered && (l.cogs >= 0 ==> 0 <= l.restocked <= l.cogs)
  }

  /** For any list of reversals, every line of every computed order returns no more than it had. */
  lemma ReturnsNeverExceedTheLine(input: ProfitInput, report: Report, i: nat) returns (item: Item)
    requires Reports(input, report) && !report.recognition.Excluded? && i < |input.items|
    ensures |report.lines| == |input.items| && item in input.items && item.id == report.lines[i].itemId
    ensures BoundedLine(report.lines[i], item.quantity)
    ensures UnitCostsCount(input) ==> 0 <= report.lines[i].restocked <= report.lines[i].cogs
  {
    hide Reports, ComputeTerms, TermsFrom, ComputeLines, TotalsOf, Carries, AllSpreads,
      Normalize.NormalizeAndValidate, Normalize.Canonical, ConfidenceOf, SortDiagnostics, AllDiagnostics;
    var n, t := Opened(input, report);
    TermsOpened(input, n, t);
    CanonicalItems(input, n);
    var s := LinesAre(input, n, t, report);
    ReturnsBounded(input, n, t, i);
    RevenueOf(input, n, t);
    CarriedReturn(report.lines[i], t.revenue.value.lines[i], t.cogs.value.lines[i], t.reversal.value.lines[i], s);
    item := n.items[i];
    assert item in n.items;
    if UnitCostsCount(input) {
      CostsFromRows(input, n);
      LineCostCounts(input, n, t, i);
    }
  }

  lemma CarriedReturn(out: ProfitLine, line: Revenue.LineRevenue, cogs: LineCogs, r: Reversals.LineReversal, s: Spreads)
    requires Carries(out, line, cogs, r, s)
    ensures out.itemId == line.itemId && out.reversedQuantity == r.quantity && out.restocked == r.restocked
        && out.cogs == cogs.cogs
  {
  }

  lemma LineCostCounts(input: ProfitInput, n: Normalize.Normalized, t: Terms, i: nat)
    requires Normalize.NormalizeAndValidate(input) == Normalize.Accepted(n) && TermsFrom(input, n, t)
        && CostsAreNonNegative(n.costs)
    requires i < |n.items| == |t.cogs.value.lines|
    ensures t.cogs.value.lines[i].cogs >= 0
  {
    hide Normalize.NormalizeAndValidate, ComputeCogs, Revenue.ComputeRevenue, Shipping.ComputeShippingCost,
      Gateway.ComputeGatewayFees, Cod.ComputeCodCost, Reversals.ComputeReversalImpact, LedgerFor,
      CostsAreNonNegative;
    CanonicalItems(input, n);
    CogsNonNegative(n.items, n.costs);
  }

  // -------------------------------------------------- no profit without revenue

  /** What the merchant recorded is not negative; the gate checks the rules but not these. */
  ghost predicate NothingNegative(input: ProfitInput) {
    && UnitCostsCount(input) && PaymentsCount(input)
    && (forall s :: s in input.shipments && s.carrierCost.Some? ==> s.carrierCost.value >= 0)
  }

  ghost predicate PaymentsCount(input: ProfitInput) { forall p :: p in input.order.payments ==> p.amountGross >= 0 }

  lemma RulesAreValid(input: ProfitInput)
    requires Normalize.NormalizeAndValidate(input).Accepted?
    ensures ValidGateway(input.feeRuleSet.gateway) && ValidCod(input.feeRuleSet.cod)
        && ValidFallback(input.feeRuleSet.shippingFallback)
  {
    hide Normalize.NormalizeAndValidate, NormalizeLaws.GoodItems, NormalizeLaws.GoodReversals,
      NormalizeLaws.GoodShipments, NormalizeLaws.GoodCosts, NormalizeLaws.GoodHeader, Fee.FormulaIsValid,
      Rules.GatewayKeys, Rules.CodKeys, Rules.ShippingKeys;
    NormalizeLaws.AcceptedIffAcceptable(input);
    var rules := input.feeRuleSet;
    var f, g := (r: GatewayRule) => r.formula, (r: CodRule) => r.formula;
    assert Normalize.Formulas(rules) == Sequences.Map(f, rules.gateway) + Sequences.Map(g, rules.cod);
    forall r | r in rules.gateway ensures Fee.FormulaIsValid(r.formula) {
      var i :| 0 <= i < |rules.gateway| && rules.gateway[i] == r;
      assert Normalize.Formulas(rules)[i] == r.formula;
    }
    forall r | r in rules.cod ensures Fee.FormulaIsValid(r.formula) {
      var i :| 0 <= i < |rules.cod| && rules.cod[i] == r;
      assert Normalize.Formulas(rules)[|rules.gateway| + i] == r.formula;
    }
  }

  lemma CanonicalShipments(input: ProfitInput, n: Normalize.Normalized)
    requires n == Normalize.Canonical(input)
    ensures n.order == input.order && forall s :: s in n.shipments ==> s in input.shipments
    ensures multiset(n.shipments) == multiset(input.shipments)
  {
    hide Sorting.Sort, Normalize.IndexUpTo;
    Sorting.SortPermutes(Normalize.ByShipmentId, input.shipments);
    Sequences.SameLength(n.shipments, input.shipments);
  }

  lemma TermsCount(input: ProfitInput, n: Normalize.Normalized, t: Terms, shippingRevenue: int, codFeeRevenue: int)
    requires Normalize.NormalizeAndValidate(input) == Normalize.Accepted(n) && n == Normalize.Canonical(input)
        && TermsFrom(input, n, t)
    requires NothingNegative(input)
    ensures CostsCount(AmountsOf(t, shippingRevenue, codFeeRevenue))
  {
    hide Normalize.NormalizeAndValidate, Normalize.Canonical, Revenue.ComputeRevenue, ComputeCogs,
      Shipping.ComputeShippingCost, Gateway.ComputeGatewayFees, Cod.ComputeCodCost, Reversals.ComputeReversalImpact,
      LedgerFor, ValidGateway, ValidCod, ValidFallback;
    RulesAreValid(input);
    CanonicalShipments(input, n);
    var rules := input.feeRuleSet;
    ShippingIsNonNegative(n.order, n.shipments, rules.shippingFallback, Outbound);
    ShippingIsNonNegative(n.order, n.shipments, rules.shippingFallback, Return);
    GatewayIsSound(n.order, rules.gateway, input.store.vatRegistered, true);
    CodIsSound(n.order, n.shipments, rules.cod, input.store.vatRegistered, true);
  }

  lemma LineLoses(out: ProfitLine, line: Revenue.LineRevenue, item: Item, cogs: LineCogs, r: Reversals.LineReversal,
        s: Spreads)
    requires Carries(out, line, cogs, r, s) && BoundedReturn(r, item, cogs, false)
    requires line.net == 0 && cogs.cogs >= 0
    requires Get(s.shippingRevenue, line.itemId) == 0 && Get(s.codFeeRevenue, line.itemId) == 0
    requires NonNegative(s.outbound) && NonNegative(s.returned) && NonNegative(s.gateway) && NonNegative(s.cod)
    ensures out.margin <= 0
  {
  }

  lemma RevenueSpreadsAreZero(lines: seq<Revenue.LineRevenue>, reversals: seq<Reversals.LineReversal>, a: Amounts,
        weights: map<string, int>, id: string)
    requires AllSpreads(lines, reversals, a, weights).Ok? && a.shippingRevenue == 0 && a.codFeeRevenue == 0
    ensures var s := AllSpreads(lines, reversals, a, weights).value;
    Get(s.shippingRevenue, id) == 0 && Get(s.codFeeRevenue, id) == 0
  {
    hide Allocate, SpreadParcels, SpreadReturn, LineBuckets, Get;
    AllocateNothing(LineBuckets(lines, weights), id);
  }

  lemma LineNeverProfits(input: ProfitInput, n: Normalize.Normalized, t: Terms, report: Report, i: nat)
    requires Behind(input, n, t, report) && TermsFrom(input, n, t) && report.recognition.CostOnly? && NothingNegative(input)
    requires i < |n.items| == |report.lines|
    ensures report.lines[i].margin <= 0
  {
    hide ComputeTerms, TermsFrom, ComputeLines, TotalsOf, Carries, AllSpreads, Normalize.NormalizeAndValidate,
      Normalize.Canonical, ConfidenceOf, SortDiagnostics, AllDiagnostics, BoundedReturn, CostsCount, NonNegative,
      WeightTable, Get, CostsAreNonNegative;
    var s := LinesAre(input, n, t, report);
    RevenueOf(input, n, t);
    CostsFromRows(input, n);
    LineCostCounts(input, n, t, i);
    ReturnsBounded(input, n, t, i);
    TermsCount(input, n, t, 0, 0);
    var lines, reversals := t.revenue.value.lines, t.reversal.value.lines;
    SpreadsNonNegative(lines, reversals, AmountsOf(t, 0, 0), WeightTable(n.items));
    RevenueSpreadsAreZero(lines, reversals, AmountsOf(t, 0, 0), WeightTable(n.items), lines[i].itemId);
    LineLoses(report.lines[i], lines[i], n.items[i], t.cogs.value.lines[i], reversals[i], s);
  }

  function Spent(c: Costs): int { c.cogs + c.outbound + c.returned + c.gateway + c.cod }

  /**
   * No profit without revenue: an order whose costs count and whose revenue does not makes no profit
   * where unit costs and payments are not negative and the recorded charges of its live legs add up
   * to at least zero. Where no single charge is negative, none of its lines makes one either.
   */
  lemma NoProfitWithoutRevenue(input: ProfitInput, report: Report)
    requires Reports(input, report) && report.recognition.CostOnly?
    ensures report.totals.revenue == 0
    ensures UnitCostsCount(input) && PaymentsCount(input) && LiveCharges(input.shipments) >= 0 ==> report.totals.margin <= 0
    ensures NothingNegative(input) ==> report.totals.margin <= 0 && forall l :: l in report.lines ==> l.margin <= 0
  {
    hide *;
    var n, t := Opened(input, report);
    BehindOpens(input, n, t, report);
    BehindTies(input, n, t, report);
    ExactTie(input, report);
    CostOnlyFacts(input, n, t, report);
    NothingReversed(input, n, t, report);
    MarginIsRecovered(report.totals);
    if NothingNegative(input) { NothingIsMore(input); }
    if UnitCostsCount(input) && PaymentsCount(input) {
      ReturnsNeverExceedTheOrder(input, report);
      CostsCoverCharges(input, n, t, report);
      LossIsSpent(report.totals, LiveCharges(input.shipments));
    }
    if NothingNegative(input) {
      forall i | 0 <= i < |report.lines| ensures report.lines[i].margin <= 0 { LineNeverProfits(input, n, t, report, i); }
    }
  }

  lemma NothingIsMore(input: ProfitInput)
    requires NothingNegative(input)
    ensures UnitCostsCount(input) && PaymentsCount(input) && LiveCharges(input.shipments) >= 0
  {
    hide Charged;
    ChargesCount(input.shipments, Outbound);
    ChargesCount(input.shipments, Return);
  }

  lemma LossIsSpent(totals: Totals, charges: int)
    requires totals.margin == totals.restocked - Spent(totals.costs) && totals.restocked <= totals.costs.cogs
    requires totals.costs.outbound + totals.costs.returned >= charges && totals.costs.gateway >= 0 && totals.costs.cod >= 0
    ensures totals.margin <= -charges
  {
  }

  /** What was spent on couriers is at least what they recorded, and no fee is negative. */
  lemma CostsCoverCharges(input: ProfitInput, n: Normalize.Normalized, t: Terms, report: Report)
    requires Behind(input, n, t, report) && TermsFrom(input, n, t) && !report.recognition.Excluded? && PaymentsCount(input)
    ensures var c := report.totals.costs; c.outbound + c.returned >= LiveCharges(input.shipments) && c.gateway >= 0 && c.cod >= 0
  {
    hide ComputeTerms, ComputeLines, Normalize.NormalizeAndValidate, Normalize.Canonical, ConfidenceOf,
      SortDiagnostics, AllDiagnostics, ContributionMargin, AddMinor, MarginBpsOf, Revenue.ComputeRevenue,
      ComputeCogs, Shipping.ComputeShippingCost, Gateway.ComputeGatewayFees, Cod.ComputeCodCost,
      Reversals.ComputeReversalImpact, LedgerFor, ValidGateway, ValidCod, ValidFallback, Charged;
    RulesAreValid(input);
    CanonicalShipments(input, n);
    var rules := input.feeRuleSet;
    ShippingCovers(n.order, n.shipments, rules.shippingFallback, Outbound);
    ShippingCovers(n.order, n.shipments, rules.shippingFallback, Return);
    ChargedForgetsOrder(n.shipments, input.shipments, Outbound);
    ChargedForgetsOrder(n.shipments, input.shipments, Return);
    GatewayIsSound(n.order, rules.gateway, input.store.vatRegistered, true);
    CodIsSound(n.order, n.shipments, rules.cod, input.store.vatRegistered, true);
  }

  lemma MarginIsRecovered(totals: Totals)
    requires TotalsFormula(totals) && totals.revenue == totals.reversedRevenue == 0
    ensures totals.margin == totals.restocked - Spent(totals.costs)
  {
  }

  /** Revenue that never counted is not taken back. */
  lemma NothingReversed(input: ProfitInput, n: Normalize.Normalized, t: Terms, report: Report)
    requires Behind(input, n, t, report) && TermsFrom(input, n, t) && report.recognition.CostOnly?
    ensures report.totals.reversedRevenue == 0
  {
    hide ComputeTerms, TermsFrom, ComputeLines, AddMinor, MarginBpsOf, ContributionMargin,
      Normalize.NormalizeAndValidate, Normalize.Canonical, ConfidenceOf, SortDiagnostics, AllDiagnostics, LedgerFor,
      Reversals.Impacts, Reversals.Restocks;
    ImpactTies(input, n, t);
    SumOfConstant(Reversals.Revenues(t.reversal.value.lines), 0);
  }

  lemma BehindOpens(input: ProfitInput, n: Normalize.Normalized, t: Terms, report: Report)
    requires Behind(input, n, t, report)
    ensures TermsFrom(input, n, t) && Normalize.NormalizeAndValidate(input) == Normalize.Accepted(n)
        && t.recognition == report.recognition
  {
    hide TermsFrom, ComputeTerms, Normalize.NormalizeAndValidate, Normalize.Canonical, ComputeLines, TotalsOf,
      ConfidenceOf, SortDiagnostics, AllDiagnostics;
    TermsOpened(input, n, t);
  }

  lemma CostOnlyFacts(input: ProfitInput, n: Normalize.Normalized, t: Terms, report: Report)
    requires Behind(input, n, t, report) && TermsFrom(input, n, t) && report.recognition.CostOnly?
    ensures report.totals.revenue == 0 && |n.items| == |input.items| && !report.recognition.Excluded?
  {
    hide ComputeTerms, TermsFrom, Normalize.NormalizeAndValidate, Normalize.Canonical, ComputeLines, ConfidenceOf,
      SortDiagnostics, AllDiagnostics, ContributionMargin, AddMinor, MarginBpsOf;
    RevenueOf(input, n, t);
    CanonicalItems(input, n);
  }

  // ------------------------------------------------------------- a full refund

  lemma LedgerWeights(items: seq<Item>, revenue: Revenue.OrderRevenue, cogs: OrderCogs)
    requires Distinct(Revenue.ItemIds(items)) && Revenue.Aligned(items, revenue.lines) && Cogs.Aligned(items, cogs.lines)
    ensures var ledger := LedgerFor(items, revenue, cogs);
      && Reversals.BucketWeights(ledger.buckets) == Revenue.LineTotals(items)
      && CostsAlong(ledger.costs, Keys(ledger.buckets)) == LineCosts(cogs.lines)
      && Keys(ledger.buckets) == Revenue.ItemIds(items)
      && ledger.cogsLines == cogs.lines
  {
    hide Sequences.TableOf, Get, LineCost, Distinct;
    var ledger := LedgerFor(items, revenue, cogs);
    assert Keys(ledger.buckets) == Revenue.ItemIds(items);
    forall i | 0 <= i < |items|
      ensures Reversals.BucketWeights(ledger.buckets)[i] == items[i].lineTotalExVat
      ensures CostsAlong(ledger.costs, Keys(ledger.buckets))[i] == cogs.lines[i].cogs
    {
      LedgerAt(items, revenue, cogs, i);
      WeightAt(items, i);
    }
  }

  lemma WeightAt(items: seq<Item>, i: nat)
    requires Distinct(Revenue.ItemIds(items)) && i < |items|
    ensures Get(WeightTable(items), items[i].id) == items[i].lineTotalExVat
  {
    Sequences.TableLookup(Revenue.ItemIds(items), Revenue.LineTotals(items), i);
  }

  /** One refund of the whole item revenue, without line detail, whose goods can be sold again. */
  ghost predicate FullRefund(input: ProfitInput) {
    && |input.reversals| == 1 && input.reversals[0].lines.None? && Reversals.RecoversCogs(input.reversals[0].restockOutcome)
    && input.reversals[0].amountExVat == Sum(Revenue.LineTotals(input.items)) > 0
  }

  lemma CanonicalSums(input: ProfitInput, n: Normalize.Normalized)
    requires n == Normalize.Canonical(input)
    ensures Sum(Revenue.LineTotals(n.items)) == Sum(Revenue.LineTotals(input.items))
    ensures |input.reversals| == 1 ==> n.reversals == input.reversals
  {
    hide Normalize.IndexUpTo, Normalize.ByLineId, Normalize.ByReversalId, Normalize.ByShipmentId, Sorting.Sort;
    var f := (i: Item) => i.lineTotalExVat;
    Sorting.SortPermutes(Normalize.ByLineId, input.items);
    Sequences.MapPermutes(f, n.items, input.items);
    assert Revenue.LineTotals(n.items) == Sequences.Map(f, n.items)
        && Revenue.LineTotals(input.items) == Sequences.Map(f, input.items);
    SumForgetsOrder(Revenue.LineTotals(n.items), Revenue.LineTotals(input.items));
    Sorting.SortPermutes(Normalize.ByReversalId, input.reversals);
    if |input.reversals| == 1 {
      Sequences.SameLength(n.reversals, input.reversals);
      assert n.reversals[0] in n.reversals;
    }
  }

  /** Each line's goods are back at their whole cost. */
  ghost predicate CostsBack(reversals: seq<Reversals.LineReversal>, cogs: seq<LineCogs>)
    requires |reversals| == |cogs|
  {
    forall i :: 0 <= i < |cogs| ==> reversals[i].restocked == cogs[i].cogs
  }

  lemma LedgerMatches(input: ProfitInput, n: Normalize.Normalized, t: Terms, ledger: Reversals.Ledger)
    requires Normalize.NormalizeAndValidate(input) == Normalize.Accepted(n) && TermsFrom(input, n, t)
    requires ledger == LedgerFor(n.items, t.revenue.value, t.cogs.value) && CostsAreNonNegative(n.costs)
    ensures ReversalLaws.CostsMatch(ledger) && ReversalLaws.FullCost(ledger) == t.cogs.value.cogs
    ensures ReversalLaws.LedgerFits(ledger, t.revenue.value.lines) && |t.revenue.value.lines| == |t.cogs.value.lines| == |n.items|
    ensures Reversals.BucketWeights(ledger.buckets) == Revenue.LineTotals(n.items)
    ensures forall i :: 0 <= i < |n.items| ==> LineCost(ledger.costs, t.revenue.value.lines[i].itemId) == t.cogs.value.lines[i].cogs
  {
    hide Normalize.NormalizeAndValidate, AddMinor, Sum, LineCosts, Revenue.Nets, Revenue.ZeroLines, Distinct,
      CostLines, Revenue.ComputeRevenue, Shipping.ComputeShippingCost, Gateway.ComputeGatewayFees,
      Cod.ComputeCodCost, Reversals.ComputeReversalImpact, LedgerFor, LineCost, CostsAreNonNegative,
      Reversals.BucketWeights, CostsAlong, Keys, Revenue.ItemIds, Revenue.LineTotals, Get;
    CanonicalItems(input, n);
    RevenueOf(input, n, t);
    CogsTies(n.items, n.costs);
    LedgerWeights(n.items, t.revenue.value, t.cogs.value);
    LedgerIsFit(input, n, t, ledger);
    forall i | 0 <= i < |n.items|
      ensures LineCost(ledger.costs, t.revenue.value.lines[i].itemId) == t.cogs.value.lines[i].cogs
    {
      LedgerAt(n.items, t.revenue.value, t.cogs.value, i);
    }
  }

  lemma RefundOfTerms(input: ProfitInput, n: Normalize.Normalized, t: Terms)
    requires Normalize.NormalizeAndValidate(input) == Normalize.Accepted(n) && n == Normalize.Canonical(input)
        && TermsFrom(input, n, t)
    requires FullRefund(input) && UnitCostsCount(input) && t.recognition.Recognized?
    ensures |t.reversal.value.lines| == |t.cogs.value.lines| == |n.items|
    ensures CostsBack(t.reversal.value.lines, t.cogs.value.lines) <==> RefundCovers(input, t.cogs.value.cogs)
    ensures t.cogs.value.cogs * input.reversals[0].amountExVat <= MAX_SAFE ==> RefundCovers(input, t.cogs.value.cogs)
  {
    hide Normalize.NormalizeAndValidate, Normalize.Canonical, AddMinor, Sum, LineCosts, Revenue.ComputeRevenue,
      ComputeCogs, Shipping.ComputeShippingCost, Gateway.ComputeGatewayFees, Cod.ComputeCodCost,
      Reversals.ComputeReversalImpact, LedgerFor, LineCost, ReversalLaws.CostsMatch, ReversalLaws.LedgerFits,
      ReversalLaws.FullCost, Revenue.LineTotals, Reversals.BucketWeights, CostsAreNonNegative,
      Reversals.RecoversCogs, Prorate;
    var ledger, refund := LedgerFor(n.items, t.revenue.value, t.cogs.value), input.reversals[0];
    CanonicalSums(input, n);
    CostsFromRows(input, n);
    LedgerMatches(input, n, t, ledger);
    assert [refund] == n.reversals;
    var dispatched := Dispatched(n.order.fulfillmentState);
    ReversalLaws.FullRefundReturnsEverything(refund, t.revenue.value.lines, ledger, t.recognition, n.shipments, dispatched);
    ReversalLaws.FullCostCounts(ledger);
    ReversalLaws.WholeShare(t.cogs.value.cogs, refund.amountExVat);
  }

  /** Prorating the goods' whole cost by the whole revenue, in doubles, does not come out short of it. */
  ghost predicate RefundCovers(input: ProfitInput, cogs: int)
    requires FullRefund(input)
  {
    var amount := input.reversals[0].amountExVat;
    Prorate(cogs, amount, amount) >= cogs
  }

  lemma LedgerFitsLines(input: ProfitInput, n: Normalize.Normalized, t: Terms)
    requires Normalize.NormalizeAndValidate(input) == Normalize.Accepted(n) && TermsFrom(input, n, t)
    ensures ReversalLaws.LedgerFits(LedgerFor(n.items, t.revenue.value, t.cogs.value), t.revenue.value.lines)
    ensures |t.revenue.value.lines| == |n.items|
  {
    hide Normalize.NormalizeAndValidate, AddMinor, Sum, LineCosts, Revenue.Nets, Revenue.ZeroLines, Distinct,
      CostLines, Revenue.ComputeRevenue, Shipping.ComputeShippingCost, Gateway.ComputeGatewayFees,
      Cod.ComputeCodCost, Reversals.ComputeReversalImpact, LedgerFor, LineCost, Reversals.BucketWeights, CostsAlong;
    CanonicalItems(input, n);
    RevenueOf(input, n, t);
    CogsTies(n.items, n.costs);
    LedgerWeights(n.items, t.revenue.value, t.cogs.value);
  }

  lemma RefundsForgetOrder(input: ProfitInput, n: Normalize.Normalized)
    requires n == Normalize.Canonical(input)
    ensures Sum(ReversalLaws.Refunds(n.reversals)) == Sum(ReversalLaws.Refunds(input.reversals))
  {
    hide Normalize.IndexUpTo, Normalize.ByLineId, Normalize.ByReversalId, Normalize.ByShipmentId, Sorting.Sort,
      ReversalLaws.Refunded;
    var f := (r: Reversal) => ReversalLaws.Refunded(r);
    Sorting.SortPermutes(Normalize.ByReversalId, input.reversals);
    Sequences.MapPermutes(f, n.reversals, input.reversals);
    assert ReversalLaws.Refunds(n.reversals) == Sequences.Map(f, n.reversals);
    assert ReversalLaws.Refunds(input.reversals) == Sequences.Map(f, input.reversals);
    SumForgetsOrder(ReversalLaws.Refunds(n.reversals), ReversalLaws.Refunds(input.reversals));
  }

  /** On a recognized order with items, the revenue reversed is exactly what all reversals took back, whatever lines they named. */
  lemma RefundsAreConserved(input: ProfitInput, report: Report)
    requires Reports(input, report) && report.recognition.Recognized? && input.items != []
    ensures report.totals.reversedRevenue == Sum(ReversalLaws.Refunds(input.reversals))
    ensures SumOf(ReversedRevenueOf, report.lines) == Sum(ReversalLaws.Refunds(input.reversals))
  {
    hide *;
    var n, t := Opened(input, report);
    BehindOpens(input, n, t, report);
    ExactTie(input, report);
    ConservedBehind(input, n, t, report);
  }

  lemma ConservedBehind(input: ProfitInput, n: Normalize.Normalized, t: Terms, report: Report)
    requires Behind(input, n, t, report) && TermsFrom(input, n, t) && t.recognition.Recognized? && input.items != []
    requires LinesTieToTotals(report.lines, report.totals)
    ensures report.totals.reversedRevenue == Sum(ReversalLaws.Refunds(input.reversals))
    ensures SumOf(ReversedRevenueOf, report.lines) == report.totals.reversedRevenue
  {
    hide ComputeTerms, ComputeLines, Normalize.NormalizeAndValidate, Normalize.Canonical, ConfidenceOf,
      SortDiagnostics, AllDiagnostics, ContributionMargin, AddMinor, MarginBpsOf, Revenue.ComputeRevenue,
      ComputeCogs, Shipping.ComputeShippingCost, Gateway.ComputeGatewayFees, Cod.ComputeCodCost,
      Reversals.ComputeReversalImpact, LedgerFor, Sum, SumOf, ReversalLaws.Refunds, ReversalLaws.LedgerFits,
      Reversals.Revenues;
    CanonicalItems(input, n);
    LedgerFitsLines(input, n, t);
    RefundsForgetOrder(input, n);
    ReversalLaws.RefundConservation(n.reversals, t.revenue.value.lines,
        LedgerFor(n.items, t.revenue.value, t.cogs.value), n.shipments,
                                    Dispatched(n.order.fulfillmentState));
  }

  lemma LedgerIsFit(input: ProfitInput, n: Normalize.Normalized, t: Terms, ledger: Reversals.Ledger)
    requires Normalize.NormalizeAndValidate(input) == Normalize.Accepted(n) && TermsFrom(input, n, t)
    requires ledger == LedgerFor(n.items, t.revenue.value, t.cogs.value) && CostsAreNonNegative(n.costs)
    ensures |ledger.buckets| == |n.items| == |t.revenue.value.lines| && ReversalLaws.LedgerFits(ledger, t.revenue.value.lines)
    ensures forall k :: 0 <= k < |ledger.buckets| ==> LineCost(ledger.costs, ledger.buckets[k].key) >= 0
  {
    hide Normalize.NormalizeAndValidate, AddMinor, Sum, LineCosts, Revenue.Nets, Revenue.ZeroLines, Distinct,
      CostLines, Revenue.ComputeRevenue, Shipping.ComputeShippingCost, Gateway.ComputeGatewayFees,
      Cod.ComputeCodCost, Reversals.ComputeReversalImpact, LedgerFor, LineCost, CostsAreNonNegative,
      Reversals.BucketWeights, CostsAlong;
    CanonicalItems(input, n);
    RevenueOf(input, n, t);
    CogsTies(n.items, n.costs);
    LedgerWeights(n.items, t.revenue.value, t.cogs.value);
    assert |Keys(ledger.buckets)| == |Revenue.ItemIds(n.items)|;
    forall k | 0 <= k < |ledger.buckets| ensures LineCost(ledger.costs, ledger.buckets[k].key) >= 0 {
      LedgerAt(n.items, t.revenue.value, t.cogs.value, k);
      LineCostCounts(input, n, t, k);
      assert Keys(ledger.buckets)[k] == n.items[k].id;
    }
  }

  /** In whole numbers: what rounding the product lost, scaled like the quotient, is at most half of the refund. */
  lemma RefundCoversIff(input: ProfitInput, cogs: int)
    requires FullRefund(input) && 0 <= cogs <= MAX_MINOR
    ensures var amount := input.reversals[0].amountExVat;
      RefundCovers(input, cogs) <==> cogs == 0 || 2 * (Scale(cogs, amount) * RoundedOff(cogs, amount)) <= amount
  {
    hide Sum, Scale, RoundedOff, Prorate;
    var amount := input.reversals[0].amountExVat;
    if cogs == 0 { ReversalLaws.WholeShare(0, amount); } else { WholeProrationIff(cogs, amount); }
  }

  /**
   * A whole, saleable refund of a recognized order gives every line back exactly what its goods
   * cost, and the order all of it, if and only if prorating that cost in doubles does not fall
   * short; it cannot while cost times refund is a safe integer.
   */
  lemma FullRefundReturnsEveryCost(input: ProfitInput, report: Report)
    requires Reports(input, report) && report.recognition.Recognized? && FullRefund(input) && UnitCostsCount(input)
    ensures EveryCostBack(report.lines) <==> RefundCovers(input, report.totals.costs.cogs)
    ensures report.totals.restocked == report.totals.costs.cogs <==> RefundCovers(input, report.totals.costs.cogs)
    ensures report.totals.costs.cogs * input.reversals[0].amountExVat <= MAX_SAFE
        ==> RefundCovers(input, report.totals.costs.cogs)
  {
    hide *;
    var n, t := Opened(input, report);
    BehindOpens(input, n, t, report);
    ExactTie(input, report);
    RefundedLines(input, n, t, report);
    RestocksAreCosts(report.lines, report.totals);
  }

  ghost predicate EveryCostBack(lines: seq<ProfitLine>) {
    forall i :: 0 <= i < |lines| ==> lines[i].restocked == lines[i].cogs
  }

  lemma RestocksAreCosts(lines: seq<ProfitLine>, totals: Totals)
    requires LinesTieToTotals(lines, totals) && forall i :: 0 <= i < |lines| ==> lines[i].restocked <= lines[i].cogs
    ensures totals.restocked <= totals.costs.cogs
    ensures totals.restocked == totals.costs.cogs <==> EveryCostBack(lines)
  {
    var restocks, costs := Column(RestockedOf, lines), Column(CogsOf, lines);
    TightSum(restocks, costs);
    assert EveryCostBack(lines) ==> restocks == costs;
    assert forall i :: 0 <= i < |lines| ==> restocks[i] == lines[i].restocked && costs[i] == lines[i].cogs;
  }

  lemma RefundedLines(input: ProfitInput, n: Normalize.Normalized, t: Terms, report: Report)
    requires Behind(input, n, t, report) && TermsFrom(input, n, t) && t.recognition == report.recognition
    requires report.recognition.Recognized? && FullRefund(input) && UnitCostsCount(input)
    ensures forall i :: 0 <= i < |report.lines| ==> report.lines[i].restocked <= report.lines[i].cogs
    ensures EveryCostBack(report.lines) <==> RefundCovers(input, report.totals.costs.cogs)
    ensures report.totals.costs.cogs * input.reversals[0].amountExVat <= MAX_SAFE
        ==> RefundCovers(input, report.totals.costs.cogs)
    ensures input.items != [] && !report.recognition.Excluded?
  {
    hide ComputeTerms, TermsFrom, ComputeLines, TotalsOf, Carries, AllSpreads, Normalize.NormalizeAndValidate,
      Normalize.Canonical, ConfidenceOf, SortDiagnostics, AllDiagnostics, RefundCovers, BoundedReturn, FullRefund;
    CanonicalItems(input, n);
    assert input.items != [] by { NoItemsNoTotal(input); }
    var s := LinesAre(input, n, t, report);
    RefundOfTerms(input, n, t);
    CostsFromRows(input, n);
    forall i | 0 <= i < |report.lines|
      ensures report.lines[i].restocked == t.reversal.value.lines[i].restocked <= report.lines[i].cogs
          == t.cogs.value.lines[i].cogs
    {
      ReturnsBounded(input, n, t, i);
      BoundedBack(t.reversal.value.lines[i], n.items[i], t.cogs.value.lines[i], true);
      LineCostCounts(input, n, t, i);
      CarriedReturn(report.lines[i], t.revenue.value.lines[i], t.cogs.value.lines[i], t.reversal.value.lines[i], s);
    }
    CogsTotal(input, n, t, report);
  }

  lemma BoundedBack(r: Reversals.LineReversal, item: Item, cogs: LineCogs, recognized: bool)
    requires BoundedReturn(r, item, cogs, recognized)
    ensures cogs.cogs >= 0 ==> 0 <= r.restocked <= cogs.cogs
  {
  }

  lemma CogsTotal(input: ProfitInput, n: Normalize.Normalized, t: Terms, report: Report)
    requires Behind(input, n, t, report) && TermsFrom(input, n, t) && !report.recognition.Excluded?
        && t.recognition == report.recognition
    ensures report.totals.costs.cogs == t.cogs.value.cogs
  {
    hide ComputeTerms, TermsFrom, ComputeLines, Normalize.NormalizeAndValidate, Normalize.Canonical, ConfidenceOf,
      SortDiagnostics, AllDiagnostics, AddMinor, ContributionMargin, MarginBpsOf;
  }

  /** However the order is recognized and whatever came back: the order as a whole recovers no more than its goods cost. */
  lemma ReturnsNeverExceedTheOrder(input: ProfitInput, report: Report)
    requires Reports(input, report) && UnitCostsCount(input)
    ensures 0 <= report.totals.restocked <= report.totals.costs.cogs
  {
    hide *;
    var n, t := Opened(input, report);
    BehindOpens(input, n, t, report);
    ExactTie(input, report);
    if !report.recognition.Excluded? && input.items != [] {
      forall i | 0 <= i < |report.lines| ensures 0 <= report.lines[i].restocked <= report.lines[i].cogs {
        var item := ReturnsNeverExceedTheLine(input, report, i);
      }
      RestocksAreCosts(report.lines, report.totals);
      RestocksCount(report.lines, report.totals);
    } else {
      NothingRecovered(input, n, t, report);
    }
  }

  lemma RestocksCount(lines: seq<ProfitLine>, totals: Totals)
    requires LinesTieToTotals(lines, totals) && forall i :: 0 <= i < |lines| ==> lines[i].restocked >= 0
    ensures totals.restocked >= 0
  {
    SumNonNegative(Column(RestockedOf, lines));
  }

  lemma NothingRecovered(input: ProfitInput, n: Normalize.Normalized, t: Terms, report: Report)
    requires Behind(input, n, t, report) && TermsFrom(input, n, t) && t.recognition == report.recognition
    requires report.recognition.Excluded? || input.items == []
    ensures report.totals.restocked == report.totals.costs.cogs == 0
  {
    hide ComputeTerms, TermsFrom, ComputeLines, AddMinor, MarginBpsOf, ContributionMargin,
      Normalize.NormalizeAndValidate, Normalize.Canonical, ConfidenceOf, SortDiagnostics, AllDiagnostics,
      ReversalLaws.LineWellFormed, LedgerFor, Reversals.Impacts, Reversals.Revenues;
    RevenueOf(input, n, t);
    ImpactTies(input, n, t);
    TermsAlign(input, n, t);
    CanonicalItems(input, n);
    if input.items == [] {
      assert Sum(Reversals.Restocks(t.reversal.value.lines)) == 0;
      assert Sum(LineCosts(t.cogs.value.lines)) == 0;
    }
  }

  lemma NoItemsNoTotal(input: ProfitInput)
    requires FullRefund(input)
    ensures input.items != []
  {
    assert Revenue.LineTotals([]) == [];
  }
}
