/**
 * Concrete orders: items of one product with a recorded cost, and refunds. The plainest of them,
 * one item and no refund, computes for every price and cost.
 */
module PlainOrders {
  import opened Prelude
  import opened Sums
  import opened Money
  import opened Domain
  import opened Confidence
  import opened AllocateLines
  import opened Profit
  import opened ProfitLaws
  import opened BareOrders
  import Cogs
  import Instants
  import Normalize
  import NormalizeLaws
  import Sequences
  import Sorting
  import Revenue
  import Rules
  import Reversals

  function TheOrder(subtotal: int, refunded: bool, placedAt: string): Order {
    Order("order", placedAt, Open, if refunded then Refunded else Unpaid, NotApplicable, false, Digital, None, "SAR",
          subtotal, 0, 0, 0, subtotal, [], [])
  }

  /** One unit of the product, sold for so much. */
  function TheItem(id: string, price: int): Item { Item(id, "order", id, "product", None, None, 1, price, price, 0, price) }

  function TheCost(cost: int): ResolvedCost { ResolvedCost("product", None, None, cost, MerchantManual, "history") }

  function Input(items: seq<Item>, reversals: seq<Reversal>, subtotal: int, cost: int, placedAt: string): ProfitInput {
    ProfitInput(Store("store", "SAR", "Asia/Riyadh", true), TheOrder(subtotal, reversals != [], placedAt), items, [],
        reversals, [TheCost(cost)],
                FeeRuleSet("rules", "SAR", [], [], []), Some("2024-01-01"))
  }

  // ---------------------------------------------------------------- the gate

  function TheIndex(cost: int): Cogs.CostIndex {
    Cogs.CostIndex(map[Cogs.ProductKey("product", None) := TheCost(cost)], map[])
  }

  lemma InputHeader(items: seq<Item>, reversals: seq<Reversal>, subtotal: int, cost: int, placedAt: string)
    requires InRange(subtotal) && Instants.IsInstant(placedAt)
    ensures NormalizeLaws.GoodHeader(Input(items, reversals, subtotal, cost, placedAt))
  {
    hide Instants.IsInstant;
    var input := Input(items, reversals, subtotal, cost, placedAt);
    assert forall v :: v in Normalize.OrderMoney(input.order) ==> v == subtotal || v == 0;
  }

  lemma InputCosts(cost: int)
    requires InRange(cost)
    ensures NormalizeLaws.GoodCosts([TheCost(cost)])
  {
    hide Cogs.ProductKey;
    var costs := [TheCost(cost)];
    NormalizeLaws.FilterOne(Normalize.HasSku, TheCost(cost));
    assert NormalizeLaws.Skus(costs) == [];
    assert |NormalizeLaws.Keyed(costs)| == 1;
  }

  /** What the gate asks of such an order, and what it makes of it. */
  lemma InputForm(items: seq<Item>, reversals: seq<Reversal>, subtotal: int, cost: int,
        placedAt: string) returns (n: Normalize.Normalized)
    requires InRange(subtotal) && InRange(cost) && Instants.IsInstant(placedAt)
    requires var order := TheOrder(subtotal, reversals != [], placedAt);
      NormalizeLaws.GoodItems(order, items) && NormalizeLaws.GoodReversals(order, reversals)
    ensures Normalize.NormalizeAndValidate(Input(items, reversals, subtotal, cost, placedAt)) == Normalize.Accepted(n)
    ensures n == Normalize.Normalized(TheOrder(subtotal, reversals != [], placedAt), Sorting.Sort(Normalize.ByLineId, items), [],
                                      Sorting.Sort(Normalize.ByReversalId, reversals), TheIndex(cost))
  {
    hide Normalize.Fatals, NormalizeLaws.GoodHeader, NormalizeLaws.GoodCosts, NormalizeLaws.GoodItems,
      NormalizeLaws.GoodReversals, Rules.GatewayKeys, Rules.CodKeys, Rules.ShippingKeys, Instants.IsInstant,
      Normalize.ByLineId, Normalize.ByReversalId, Cogs.ProductKey;
    var input := Input(items, reversals, subtotal, cost, placedAt);
    InputHeader(items, reversals, subtotal, cost, placedAt);
    InputCosts(cost);
    assert Normalize.Formulas(input.feeRuleSet) == [];
    NormalizeLaws.AcceptedIffAcceptable(input);
    assert Normalize.IndexUpTo(input.costs, 0) == Cogs.CostIndex(map[], map[]);
    assert Normalize.IndexUpTo(input.costs, 1) == TheIndex(cost);
    n := Normalize.Canonical(input);
  }

  lemma SortedOne<T>(leq: (T, T) -> bool, x: T)
    ensures Sorting.Sort(leq, [x]) == [x]
  {
    assert [x][1..] == [];
    assert Sorting.Sort(leq, []) == [];
  }

  lemma SortedTwo<T>(leq: (T, T) -> bool, x: T, y: T)
    requires leq(x, y)
    ensures Sorting.Sort(leq, [x, y]) == [x, y]
  {
    assert [x, y][1..] == [y];
    SortedOne(leq, y);
  }

  // --------------------------------------------------------------- the goods

  /** Every item is one unit of the product. */
  ghost predicate OneUnitEach(items: seq<Item>) {
    forall i :: 0 <= i < |items| ==> items[i] == TheItem(items[i].id, items[i].lineTotalExVat)
  }

  function CostsOfUnits(items: seq<Item>, cost: int): (r: seq<Cogs.LineCogs>)
    ensures |r| == |items|
    ensures forall i :: 0 <= i < |items| ==> r[i] == Cogs.LineCogs(items[i].id, cost, cost, MerchantManual, Some("history"), true)
  {
    Sequences.Map((i: Item) => Cogs.LineCogs(i.id, cost, cost, MerchantManual, Some("history"), true), items)
  }

  lemma {:induction false} UnitLines(items: seq<Item>, cost: int, n: nat)
    requires n <= |items| && OneUnitEach(items) && InRange(cost)
    ensures Cogs.CostLines(items, TheIndex(cost), n) == Ok(Cogs.Costed(CostsOfUnits(items, cost)[..n], false, false, []))
  {
    hide Cogs.ProductKey;
    if n > 0 {
      UnitLines(items, cost, n - 1);
      assert CostsOfUnits(items, cost)[..n] == CostsOfUnits(items, cost)[..n-1] + [CostsOfUnits(items, cost)[n-1]];
    }
  }

  lemma UnitCogs(items: seq<Item>, cost: int)
    requires OneUnitEach(items) && |items| <= 9 && InRange(cost) && InRange(cost * |items|)
    ensures Cogs.ComputeCogs(items, TheIndex(cost))
      == Ok(Computed(Cogs.OrderCogs(CostsOfUnits(items, cost), cost * |items|, false, false), []))
  {
    hide AddMinor, Cogs.CostLines, Cogs.ProductKey, CostsOfUnits;
    UnitLines(items, cost, |items|);
    var lines := CostsOfUnits(items, cost);
    assert lines[..|items|] == lines;
    SumOfConstant(Cogs.LineCosts(lines), cost);
    AddMinorFits(Cogs.LineCosts(lines));
  }

  /** The order up to its refunds: accepted as it stands, bare, and its goods costed. */
  lemma InputRun(items: seq<Item>, reversals: seq<Reversal>, subtotal: int, cost: int, placedAt: string)
    returns (n: Normalize.Normalized, cogs: Computed<Cogs.OrderCogs>)
    requires InRange(subtotal) && InRange(cost) && InRange(cost * |items|) && Instants.IsInstant(placedAt) && |items| <= 9
    requires var order := TheOrder(subtotal, reversals != [], placedAt);
      NormalizeLaws.GoodItems(order, items) && NormalizeLaws.GoodReversals(order, reversals)
    requires Sorting.Sort(Normalize.ByLineId, items) == items && Sorting.Sort(Normalize.ByReversalId, reversals) == reversals
    requires OneUnitEach(items) && Priced(items)
    ensures var input := Input(items, reversals, subtotal, cost, placedAt);
      Normalize.NormalizeAndValidate(input) == Normalize.Accepted(n) && BareInput(input, n)
    ensures n == Normalize.Normalized(TheOrder(subtotal, reversals != [], placedAt), items, [], reversals, TheIndex(cost))
    ensures cogs == Computed(Cogs.OrderCogs(CostsOfUnits(items, cost), cost * |items|, false, false), [])
    ensures Cogs.ComputeCogs(n.items, n.costs) == Ok(cogs)
  {
    hide Instants.IsInstant, Normalize.NormalizeAndValidate, Normalize.ByLineId, Normalize.ByReversalId,
      Sorting.Sort, Cogs.ComputeCogs, Priced, NormalizeLaws.GoodReversals, TheIndex, OneUnitEach, CostsOfUnits;
    n := InputForm(items, reversals, subtotal, cost, placedAt);
    UnitCogs(items, cost);
    cogs := Cogs.ComputeCogs(n.items, n.costs).value;
    assert Revenue.ItemIds(items) == Normalize.ItemIds(items);
  }

  // ------------------------------------------------------------ no refund

  ghost predicate Ranges(price: int, cost: int) { 0 <= price <= MAX_MINOR && 0 <= cost <= MAX_MINOR }

  function Plain(price: int, cost: int, placedAt: string): ProfitInput {
    Input([TheItem("item", price)], [], price, cost, placedAt)
  }

  function Untouched(): Computed<Reversals.ReversalImpact> {
    Computed(Reversals.ReversalImpact([Reversals.LineReversal("item", 0, 0, 0, 0)], 0, 0, 0, false, false), [])
  }

  lemma OneItem(price: int)
    requires 0 <= price <= MAX_MINOR
    ensures var items := [TheItem("item", price)];
      Priced(items) && OneUnitEach(items) && Sum(Revenue.LineTotals(items)) == price
          && Sorting.Sort(Normalize.ByLineId, items) == items
  {
    var items := [TheItem("item", price)];
    SortedOne(Normalize.ByLineId, items[0]);
    assert Revenue.LineTotals(items) == [price] && [price][1..] == [];
    assert Sum([price]) == price + Sum([]);
  }

  lemma PlainRun(price: int, cost: int, placedAt: string) returns (n: Normalize.Normalized, cogs: Computed<Cogs.OrderCogs>)
    requires Ranges(price, cost) && Instants.IsInstant(placedAt)
    ensures BareRun(Plain(price, cost, placedAt), n, cogs, Untouched()) && n.items == [TheItem("item", price)]
        && n.reversals == []
    ensures n.order.subtotalExVat == n.order.totalIncVat == price
    ensures cogs == Computed(Cogs.OrderCogs(CostsOfUnits(n.items, cost), cost, false, false), [])
    ensures Sum(Revenue.LineTotals(n.items)) == price
  {
    hide Instants.IsInstant, Normalize.NormalizeAndValidate, Normalize.ByLineId, Cogs.ComputeCogs,
      Reversals.LedgerOf, QuantityTable, WeightTable, BareInput, CostsOfUnits, Priced, OneUnitEach, Sum;
    var items := [TheItem("item", price)];
    OneItem(price);
    assert Sorting.Sort(Normalize.ByReversalId, []) == [];
    n, cogs := InputRun(items, [], price, cost, placedAt);
    assert Reversals.UntouchedLines(BareLines(items)) == Untouched().value.lines;
  }

  lemma PlainFits(price: int, cost: int, items: seq<Item>)
    requires Ranges(price, cost) && items == [TheItem("item", price)] && Sum(Revenue.LineTotals(items)) == price
    ensures RunFits(items, Cogs.OrderCogs(CostsOfUnits(items, cost), cost, false, false), Untouched().value)
  {
    hide Sum;
  }

  lemma PlainConfidence(t: Terms, items: seq<Item>, cost: int)
    requires BareTerms(t, items, Computed(Cogs.OrderCogs(CostsOfUnits(items, cost), cost, false, false), []), Untouched())
    requires Reconciled(t.revenue)
    ensures ConfidenceOf(t, false, true).level.Exact?
  {
    hide DeriveConfidence, OnItemsAlone, CostsOfUnits;
    LevelsPartition(TermBasesOf(t, false, true), AllDiagnostics(t));
  }

  /**
   * Every plain order computes: its margin is its price less its cost, to the unit, and it is
   * badged exact. So the theorems about computed orders speak of orders there are.
   */
  lemma PlainOrdersCompute(price: int, cost: int, placedAt: string) returns (report: Report)
    requires Ranges(price, cost) && Instants.IsInstant(placedAt)
    ensures Reports(Plain(price, cost, placedAt), report)
    ensures report.recognition.Recognized? && report.totals.revenue == price && report.totals.margin == price - cost
    ensures report.confidence.level.Exact?
  {
    hide *;
    var n, cogs := PlainRun(price, cost, placedAt);
    PlainFits(price, cost, n.items);
    report := BareOrdersCompute(Plain(price, cost, placedAt), n, cogs, Untouched());
    PlainBadge(price, cost, placedAt, n, report);
    UntouchedIsNothing();
  }

  lemma UntouchedIsNothing()
    ensures Untouched().value.impact == 0
  {
  }

  lemma PlainBadge(price: int, cost: int, placedAt: string, n: Normalize.Normalized, report: Report)
    requires var cogs := Computed(Cogs.OrderCogs(CostsOfUnits(n.items, cost), cost, false, false), []);
      BareRun(Plain(price, cost, placedAt), n, cogs, Untouched()) && Reports(Plain(price, cost, placedAt), report)
    requires n.order.subtotalExVat == n.order.totalIncVat == price == Sum(Revenue.LineTotals(n.items))
    requires n.items != [] && n.reversals == []
    ensures report.confidence.level.Exact?
  {
    hide BareInput, Normalize.NormalizeAndValidate, Normalize.Canonical, ComputeTerms, Cogs.ComputeCogs,
      Reversals.ComputeReversalImpact, BareLines, BareLedger, ConfidenceOf, Sum, ComputeLines, TotalsOf,
      CostsOfUnits, Untouched, BareTerms, Reports, Input, Reconciled;
    var input, cogs := Plain(price, cost, placedAt),
        Computed(Cogs.OrderCogs(CostsOfUnits(n.items, cost), cost, false, false), []);
    var m, t := Opened(input, report);
    assert m == n;
    var u := BareTermsCompute(input, n, cogs, Untouched());
    PlainConfidence(t, n.items, cost);
  }
}
