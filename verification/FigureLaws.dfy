/** Where the figures and the trust of a report come from: revenue, cost of goods, confidence and outcome. */
module FigureLaws {
  import opened Prelude
  import opened Sums
  import opened Money
  import opened Domain
  import opened Allocation
  import opened Splits
  import opened Cogs
  import opened Revenue
  import opened ReportLaws
  import GateLaws
  import LineShareLaws
  import Normalize
  import NormalizeLaws

  // -------------------------------------------------------------------- revenue

  /** The order's own figures agree: its lines with its subtotal, and that with its total. */
  ghost predicate Reconciles(order: Order, items: seq<Item>) {
    && order.subtotalExVat == Sum(LineTotals(items))
    && order.totalIncVat
       == order.subtotalExVat - SumUnreflected(order.discounts) + order.shippingChargedExVat + order.codFeeChargedExVat + order.vatAmount
  }

  /** A line's revenue is its item's total less its part of the item discounts not yet in it, split by those totals. */
  ghost predicate Discounted(items: seq<Item>, discount: int, lines: seq<LineRevenue>) {
    && |lines| == |items|
    && (forall i :: 0 <= i < |items| ==>
          lines[i].itemId == items[i].id && lines[i].gross == items[i].lineTotalExVat
              && lines[i].net == lines[i].gross - lines[i].discount)
    && (items != [] ==> IsSplit(discount, ItemIds(items), LineTotals(items), Discounts(lines)))
  }

  function Discounts(lines: seq<LineRevenue>): (r: seq<int>)
    ensures |r| == |lines| && forall i :: 0 <= i < |r| ==> r[i] == lines[i].discount
  {
    seq(|lines|, i requires 0 <= i < |lines| => lines[i].discount)
  }

  lemma {:induction false} DiscountedGross(items: seq<Item>, allocation: map<string, int>, n: nat)
    requires n <= |items| && DiscountedLines(items, allocation, n).Ok?
    ensures var lines := DiscountedLines(items, allocation, n).value;
      |lines| == n && forall i :: 0 <= i < n ==> lines[i].gross == items[i].lineTotalExVat
  {
    if n > 0 { DiscountedGross(items, allocation, n - 1); }
  }

  lemma LinesAreDiscounted(items: seq<Item>, discount: int)
    requires ComputeLineRevenue(items, discount).Ok?
    ensures Discounted(items, discount, ComputeLineRevenue(items, discount).value)
  {
    hide Allocate, IsSplit, Distinct, DiscountedLines;
    if items != [] {
      var buckets := ItemBuckets(items);
      var allocation, lines := Allocate(discount, buckets).value, ComputeLineRevenue(items, discount).value;
      LineShareLaws.AllocationSplits(discount, buckets);
      BucketKeys(items);
      DiscountedLinesFacts(items, allocation, |items|);
      DiscountedGross(items, allocation, |items|);
      assert WeightsOf(buckets) == LineTotals(items);
      assert Discounts(lines) == Along(allocation, ItemIds(items));
    }
  }

  /** What is remarked on an order's revenue. */
  ghost predicate RevenueRemark(order: Order, items: seq<Item>, recognition: Recognition, d: Diagnostic) {
    d.subject == OfOrder && match d.code
      case TotalsDoNotReconcile => !Reconciles(order, items)
      case OrderHasNoItems => items == []
      case RecognitionCostOnly => recognition.CostOnly?
      case OrderExcluded => recognition.Excluded?
      case _ => false
  }

  lemma RemarksOnRevenue(reconciles: bool, items: seq<Item>, order: Order, recognition: Recognition, d: Diagnostic)
    requires reconciles <==> Reconciles(order, items)
    ensures d in RevenueDiagnostics(reconciles, items == [], recognition) <==> RevenueRemark(order, items, recognition, d)
  {
    hide Reconciles;
  }

  /**
   * The whole revenue term: whether the order's figures agree, what was taken off shipping and cash
   * fees, what each line earned, and what is remarked on it.
   */
  lemma RevenueInWords(order: Order, items: seq<Item>, recognition: Recognition, d: Diagnostic)
    requires ComputeRevenue(order, items, recognition).Ok?
    ensures var c := ComputeRevenue(order, items, recognition).value; var r := c.value;
      && (r.reconciles <==> Reconciles(order, items))
      && (d in c.diagnostics <==> RevenueRemark(order, items, recognition, d))
      && (if recognition == Recognized then
            && r.shippingDiscount == SumOn(OnShipping, order.discounts) && r.codFeeDiscount == SumOn(OnCodFee, order.discounts)
            && Discounted(items, SumOn(OnItems, order.discounts), r.lines)
          else
            && r.shippingDiscount == r.codFeeDiscount == 0 && |r.lines| == |items|
            && forall i :: 0 <= i < |items| ==> r.lines[i] == LineRevenue(items[i].id, 0, 0, 0))
  {
    hide AddMinor, Sum, Revenue.Unreflected, ComputeLineRevenue, LineTotals, SumOn, SumUnreflected,
      RevenueDiagnostics, Discounted, RevenueRemark;
    AddMinorIsSum(LineTotals(items));
    UnreflectedIs(order, OnItems);
    UnreflectedIs(order, OnShipping);
    UnreflectedIs(order, OnCodFee);
    TargetsAddUp(order.discounts);
    Add3(SumOn(OnItems, order.discounts), SumOn(OnShipping, order.discounts), SumOn(OnCodFee, order.discounts));
    Add5(order.subtotalExVat, 0 - SumUnreflected(order.discounts), order.shippingChargedExVat,
        order.codFeeChargedExVat, order.vatAmount);
    var r := ComputeRevenue(order, items, recognition).value.value;
    RemarksOnRevenue(r.reconciles, items, order, recognition, d);
    if recognition.Recognized? { LinesAreDiscounted(items, SumOn(OnItems, order.discounts)); }
  }

  // -------------------------------------------------------------- cost of goods

  /** A source that knows what the goods cost. */
  ghost predicate Knows(source: CostSource) { source == MerchantManual || source == MerchantBulkImport || source == PlatformCost }

  /** No row gives the item's cost. */
  ghost predicate Uncosted(item: Item, costs: CostIndex) { CostOf(item, costs) == None }

  /** The row that gives it only guesses. */
  ghost predicate CostGuessed(item: Item, costs: CostIndex) {
    CostOf(item, costs).Some? && !Knows(CostOf(item, costs).value.source)
  }

  ghost predicate CostRemark(item: Item, costs: CostIndex, d: Diagnostic) {
    && d.subject == OfLine(item.id)
    && ((d.code == CostMissing && Uncosted(item, costs)) || (d.code == CostEstimated && CostGuessed(item, costs)))
  }

  lemma CostLineInWords(c: Costed, item: Item, costs: CostIndex, d: Diagnostic)
    requires CostLine(c, item, costs).Ok?
    ensures var e := CostLine(c, item, costs).value;
      && (e.anyMissing <==> c.anyMissing || Uncosted(item, costs))
          && (e.anyEstimated <==> c.anyEstimated || CostGuessed(item, costs))
      && (d in e.diagnostics <==> d in c.diagnostics || CostRemark(item, costs, d))
  {
    hide CostOf;
  }

  lemma {:induction false} CostsInWords(items: seq<Item>, costs: CostIndex, n: nat, d: Diagnostic)
    requires n <= |items| && CostLines(items, costs, n).Ok?
    ensures var c := CostLines(items, costs, n).value;
      && (c.anyMissing <==> exists i :: 0 <= i < n && Uncosted(items[i], costs))
      && (c.anyEstimated <==> exists i :: 0 <= i < n && CostGuessed(items[i], costs))
      && (d in c.diagnostics <==> exists i :: 0 <= i < n && CostRemark(items[i], costs, d))
  {
    hide CostLine, Uncosted, CostGuessed, CostRemark;
    if n > 0 {
      CostsInWords(items, costs, n - 1, d);
      CostLineInWords(CostLines(items, costs, n - 1).value, items[n-1], costs, d);
    }
  }

  /** The row is for the item's product and variant, as both are written. */
  ghost predicate RowFor(c: ResolvedCost, item: Item) {
    c.productId + "|" + GateLaws.Written(c.variantId) == item.productId + "|" + GateLaws.Written(item.variantId)
  }

  ghost predicate RowForSku(c: ResolvedCost, item: Item) {
    GateLaws.Written(item.sku) != "" && GateLaws.Written(c.sku) == GateLaws.Written(item.sku)
  }

  /** The row costs the item: it is for the product, or for the SKU where none is for the product. */
  ghost predicate CostedBy(costs: seq<ResolvedCost>, item: Item, c: ResolvedCost) {
    c in costs && (RowFor(c, item) || (RowForSku(c, item) && forall x :: x in costs ==> !RowFor(x, item)))
  }

  lemma CostOfInWords(costs: seq<ResolvedCost>, item: Item)
    ensures match CostOf(item, Normalize.IndexUpTo(costs, |costs|))
      case Some(c) => CostedBy(costs, item, c)
      case None => forall c :: c in costs ==> !RowFor(c, item) && !RowForSku(c, item)
  {
    hide CostOf, Normalize.IndexUpTo;
    NormalizeLaws.CostIsTheRightRow(costs, item);
    assert forall c :: NormalizeLaws.CostsProduct(c, item) <==> RowFor(c, item);
    assert forall c :: NormalizeLaws.CostsSku(c, item) <==> RowForSku(c, item);
  }
}
