/** Two accepted orders whose refunds return less than their goods cost. */
module ShortReturns {
  import opened Prelude
  import opened Sums
  import opened Money
  import opened Domain
  import opened Allocation
  import opened Allocator
  import opened CappedSpread
  import opened CappedSpreadLaws
  import opened Doubles
  import opened AllocateLines
  import opened Profit
  import opened Reversals
  import opened BareOrders
  import opened PlainOrders
  import Cogs
  import Instants
  import Normalize
  import NormalizeLaws
  import Revenue
  import ReturnLaws
  import ReversalLaws
  import Sequences
  import Sorting

  // ---------------------------------------------------- from tallies to figures

  /** Figures small enough that nine of them stay in range. */
  ghost predicate Small(v: int) { 0 <= v <= 90_000_000_000 }

  lemma SmallFinalLine(line: Revenue.LineRevenue, t: Tallies, ledger: Ledger)
    requires Small(Get(t.revenue, line.itemId)) && Small(LineCost(ledger.costs, line.itemId))
    ensures FinalLine(line, t, ledger, true).Ok?
        && ReversalLaws.Reports(FinalLine(line, t, ledger, true).value, line, t, ledger, true)
  {
    hide AddMinor;
    var revenue := Get(t.revenue, line.itemId);
    var back := Max(0, Min(Get(t.restocked, line.itemId), LineCost(ledger.costs, line.itemId)));
    SumOf2(-revenue, back);
    AddMinorFits([-revenue, back]);
    ReversalLaws.FinalLineReports(line, t, ledger, true);
  }

  lemma {:induction false} SmallFinalLines(lines: seq<Revenue.LineRevenue>, t: Tallies, ledger: Ledger, n: nat)
    requires n <= |lines|
    requires forall i :: 0 <= i < |lines| ==> Small(Get(t.revenue, lines[i].itemId)) && Small(LineCost(ledger.costs, lines[i].itemId))
    ensures var r := FinalLines(lines, t, ledger, true, n);
      r.Ok? && |r.value| == n && forall i :: 0 <= i < n ==> ReversalLaws.Reports(r.value[i], lines[i], t, ledger, true)
  {
    hide FinalLine, ReversalLaws.Reports, Small, Get, LineCost;
    if n > 0 {
      SmallFinalLines(lines, t, ledger, n - 1);
      SmallFinalLine(lines[n-1], t, ledger);
    }
  }

  lemma SmallSums(lines: seq<LineReversal>, isAllocated: bool)
    requires |lines| <= 9 && forall i :: 0 <= i < |lines| ==>
      Small(lines[i].revenue) && Small(lines[i].restocked) && lines[i].impact == lines[i].restocked - lines[i].revenue
    ensures var r := Summed(lines, isAllocated, false);
      && r.Ok? && r.value.lines == lines && r.value.restocked == Sum(Restocks(lines))
      && InRange(r.value.impact) && r.value.impact == Sum(Restocks(lines)) - Sum(Revenues(lines))
  {
    hide AddMinor, Sum;
    SumWithin(Revenues(lines), 90_000_000_000);
    SumWithin(Restocks(lines), 90_000_000_000);
    SumWithin(Impacts(lines), 90_000_000_000);
    AddMinorFits(Revenues(lines));
    AddMinorFits(Restocks(lines));
    AddMinorFits(Impacts(lines));
    ReversalLaws.ImpactsSum(lines);
  }

  /** Small tallies become an impact, line by line. */
  lemma SmallImpact(reversals: seq<Reversal>, items: seq<Item>, ledger: Ledger,
        t: Tallies) returns (c: Computed<ReversalImpact>)
    requires reversals != [] && |items| <= 9
    requires ApplyReversals(NoTallies(BareLines(items)), reversals, ledger, |reversals|) == Ok(t)
    requires forall i :: 0 <= i < |items| ==> Small(Get(t.revenue, items[i].id)) && Small(LineCost(ledger.costs, items[i].id))
    ensures ComputeReversalImpact(reversals, BareLines(items), ledger, Recognized, [], false) == Ok(c)
    ensures |c.value.lines| == |items| && c.value.restocked == Sum(Restocks(c.value.lines)) && InRange(c.value.impact)
    ensures c.value.impact == c.value.restocked - Sum(Revenues(c.value.lines))
    ensures forall i :: 0 <= i < |items| ==> ReversalLaws.Reports(c.value.lines[i], BareLines(items)[i], t, ledger, true)
  {
    hide ApplyReversals, NoTallies, FinalLines, Summed, Sum;
    var revenueLines := BareLines(items);
    SmallFinalLines(revenueLines, t, ledger, |items|);
    var lines := FinalLines(revenueLines, t, ledger, true, |items|).value;
    forall i | 0 <= i < |lines| ensures Small(lines[i].revenue) && Small(lines[i].restocked)
        && lines[i].impact == lines[i].restocked - lines[i].revenue {
      assert ReversalLaws.Reports(lines[i], revenueLines[i], t, ledger, true);
    }
    SmallSums(lines, t.isAllocated);
    c := ComputeReversalImpact(reversals, revenueLines, ledger, Recognized, [], false).value;
  }

  // ------------------------------------------------------------- the ledger

  function UnitLedger(items: seq<Item>, cost: int): Ledger {
    LedgerOf(BareLines(items), CostsOfUnits(items, cost), QuantityTable(items), WeightTable(items))
  }

  /** The ledger of such an order: each item weighs its total and returns one unit at the product's cost. */
  lemma UnitLedgerHolds(items: seq<Item>, cost: int)
    requires Distinct(Revenue.ItemIds(items)) && OneUnitEach(items)
    ensures var ledger := UnitLedger(items, cost);
      && Keys(ledger.buckets) == Revenue.ItemIds(items) && BucketWeights(ledger.buckets) == Revenue.LineTotals(items)
      && |ledger.buckets| == |items| && ledger.cogsLines == CostsOfUnits(items, cost)
      && (forall i :: 0 <= i < |items| ==> ledger.buckets[i] == Bucket(items[i].id, items[i].lineTotalExVat))
      && (forall i :: 0 <= i < |items| ==>
            && LineCost(ledger.costs, items[i].id) == UnitCost(ledger, items[i].id) == cost
                && Get(ledger.quantities, items[i].id) == 1)
  {
    hide WeightTable, Get;
    var ledger := UnitLedger(items, cost);
    var revenue := Revenue.OrderRevenue(BareLines(items), 0, 0, 0, 0, 0, 0, 0, 0, true);
    var cogs := Cogs.OrderCogs(CostsOfUnits(items, cost), 0, false, false);
    ReturnLaws.LedgerWeights(items, revenue, cogs);
    forall i | 0 <= i < |items|
      ensures ledger.buckets[i] == Bucket(items[i].id, items[i].lineTotalExVat)
      ensures LineCost(ledger.costs, items[i].id) == UnitCost(ledger, items[i].id) == cost
          && Get(ledger.quantities, items[i].id) == 1
    {
      ReturnLaws.LedgerAt(items, revenue, cogs, i);
      ReturnLaws.WeightAt(items, i);
      UnitCostAt(items, cost, i);
    }
  }

  lemma UnitCostAt(items: seq<Item>, cost: int, i: nat)
    requires i < |items| && Distinct(Revenue.ItemIds(items))
    ensures UnitCost(UnitLedger(items, cost), items[i].id) == cost
  {
    hide QuantityTable, WeightTable;
    var lines := CostsOfUnits(items, cost);
    assert Sequences.Map((l: Cogs.LineCogs) => l.itemId, lines) == Revenue.ItemIds(items);
    Sequences.TableLookup(Revenue.ItemIds(items), lines, i);
  }

  lemma TotalOfOne(m: map<string, int>, id: string)
    ensures Total(m, [id]) == Get(m, id)
  {
    assert Along(m, [id]) == [Get(m, id)];
    assert Sum([Get(m, id)]) == Get(m, id) + Sum([]);
  }

  // --------------------------------------------------------- a whole refund

  const PRICE := 97_554_855
  const COST := 95_433_703

  function WholeRefund(): Reversal { Reversal("refund", "order", PRICE, 0, 0, 0, None, RestockedSellable) }

  lemma OneSpread(buckets: seq<Bucket>, into: map<string, int>)
    requires buckets == [Bucket("item", PRICE)] && Get(into, "item") == 0
    ensures Spread(PRICE, buckets, into).Ok? && Get(Spread(PRICE, buckets, into).value, "item") == PRICE
  {
    hide Allocate, Spread, Get, Total;
    assert Keys(buckets) == ["item"];
    AllocateSucceeds(PRICE, buckets);
    SpreadSucceeds(PRICE, buckets, into);
    SpreadConserves(PRICE, buckets, into);
    TotalOfOne(into, "item");
    TotalOfOne(Spread(PRICE, buckets, into).value, "item");
  }

  lemma SpreadSucceeds(total: int, buckets: seq<Bucket>, into: map<string, int>)
    requires Allocate(total, buckets).Ok?
    ensures Spread(total, buckets, into).Ok?
  {
    hide Allocate, AddUpTo;
  }

  lemma OneRestock(ledger: Ledger, restocked: map<string, int>)
    requires ledger == UnitLedger([TheItem("item", PRICE)], COST) && forall id :: Get(restocked, id) == 0
    ensures var r := RestockLump(restocked, WholeRefund(), ledger); r.Ok? && Get(r.value, "item") == COST - 1
  {
    hide AddMinor, SpreadCapped, Get, LineCost, Prorate, UnitLedger, Sum, Total;
    var items := [TheItem("item", PRICE)];
    OneItem(PRICE);
    UnitLedgerHolds(items, COST);
    assert Keys(ledger.buckets) == ["item"];
    SumOfConstant(Cogs.LineCosts(ledger.cogsLines), COST);
    AddMinorFits(Cogs.LineCosts(ledger.cogsLines));
    AddMinorFits(BucketWeights(ledger.buckets));
    ProratedShort();
    SumOfConstant(CostsAlong(ledger.costs, ["item"]), COST);
    FreshPlaces(COST - 1, ledger.buckets, restocked, ledger.costs);
    TotalOfOne(SpreadCapped(COST - 1, ledger.buckets, restocked, ledger.costs).value, "item");
  }

  lemma WholeRefundTallies() returns (t: Tallies)
    ensures var items := [TheItem("item", PRICE)];
      && ApplyReversals(NoTallies(BareLines(items)), [WholeRefund()], UnitLedger(items, COST), 1) == Ok(t)
      && Get(t.revenue, "item") == PRICE && Get(t.restocked, "item") == COST - 1
  {
    hide AddMinor, Spread, SpreadCapped, Get, LineCost, Prorate, UnitLedger, Sum;
    var items := [TheItem("item", PRICE)];
    var ledger, start, refund := UnitLedger(items, COST), NoTallies(BareLines(items)), WholeRefund();
    OneItem(PRICE);
    UnitLedgerHolds(items, COST);
    assert Revenue.ItemIds(items) == ["item"];
    SumOf3(0, 0, 0);
    AddMinorFits([0, 0, 0]);
    SumOf2(PRICE, 0);
    AddMinorFits([PRICE, 0]);
    ReversalLaws.ZeroTallyFacts(BareLines(items), ["item"]);
    OneSpread(ledger.buckets, start.revenue);
    OneRestock(ledger, start.restocked);
    assert ApplyReversals(start, [refund], ledger, 0) == Ok(start);
    t := ApplyReversals(start, [refund], ledger, 1).value;
  }

  lemma WholeRefundIsGood(placedAt: string)
    ensures var order := TheOrder(PRICE, true, placedAt);
      NormalizeLaws.GoodItems(order, [TheItem("item", PRICE)]) && NormalizeLaws.GoodReversals(order, [WholeRefund()])
  {
  }

  lemma WholeRefundRun(placedAt: string)
    returns (n: Normalize.Normalized, cogs: Computed<Cogs.OrderCogs>, c: Computed<ReversalImpact>)
    requires Instants.IsInstant(placedAt)
    ensures BareRun(Input([TheItem("item", PRICE)], [WholeRefund()], PRICE, COST, placedAt), n, cogs, c)
    ensures RunFits(n.items, cogs.value, c.value)
    ensures cogs.value.cogs == COST && c.value.restocked == COST - 1
  {
    hide Instants.IsInstant, Normalize.NormalizeAndValidate, Normalize.ByLineId, Normalize.ByReversalId,
      Cogs.ComputeCogs, ComputeReversalImpact, LedgerOf, QuantityTable, WeightTable, BareInput, Priced, OneUnitEach,
      Get, LineCost, ApplyReversals, NoTallies, NormalizeLaws.GoodItems, NormalizeLaws.GoodReversals, WholeRefund;
    var items := [TheItem("item", PRICE)];
    OneItem(PRICE);
    WholeRefundIsGood(placedAt);
    SortedOne(Normalize.ByReversalId, WholeRefund());
    n, cogs := InputRun(items, [WholeRefund()], PRICE, COST, placedAt);
    UnitLedgerHolds(items, COST);
    var t := WholeRefundTallies();
    c := SmallImpact([WholeRefund()], items, UnitLedger(items, COST), t);
    assert ReversalLaws.Reports(c.value.lines[0], BareLines(items)[0], t, UnitLedger(items, COST), true);
    assert Restocks(c.value.lines) == [COST - 1] && Revenues(c.value.lines) == [PRICE];
    assert Sum([COST - 1]) == COST - 1 + Sum([]) && Sum([PRICE]) == PRICE + Sum([]);
  }

  /**
   * A whole, saleable refund that comes up one unit short: the product of cost and refund is past
   * the exact integers, and prorating it in doubles loses a unit.
   */
  lemma WholeRefundShort(placedAt: string) returns (report: Report)
    requires Instants.IsInstant(placedAt)
    ensures var input := Input([TheItem("item", PRICE)], [WholeRefund()], PRICE, COST, placedAt);
      ProfitLaws.Reports(input, report) && ReturnLaws.FullRefund(input) && ReturnLaws.UnitCostsCount(input)
    ensures report.totals.costs.cogs == COST && report.totals.restocked == COST - 1
    ensures COST * PRICE > MAX_SAFE
  {
    hide Instants.IsInstant, Normalize.NormalizeAndValidate, BareRun, RunFits, ProfitLaws.Reports;
    var n, cogs, c := WholeRefundRun(placedAt);
    OneItem(PRICE);
    report := BareOrdersCompute(Input([TheItem("item", PRICE)], [WholeRefund()], PRICE, COST, placedAt), n, cogs, c);
  }

  // ------------------------------------------------------- a dropped credit

  function TwoItems(): seq<Item> { [TheItem("a", 4), TheItem("b", 0)] }

  /** The first unit comes back, worth nothing. */
  function UnitBack(): Reversal {
    Reversal("r1", "order", 0, 0, 0, 0, Some([ReversalLine("a", 1, 0, RestockedSellable)]), RestockedSellable)
  }

  /** Then one unit of money, said to be for goods back on the shelf. */
  function LumpBack(): Reversal { Reversal("r2", "order", 1, 0, 0, 0, None, RestockedSellable) }

  lemma TwoItemsHold()
    ensures var items := TwoItems();
      && Priced(items) && OneUnitEach(items) && Sum(Revenue.LineTotals(items)) == 4
      && Sorting.Sort(Normalize.ByLineId, items) == items && Distinct(Revenue.ItemIds(items))
          && Revenue.ItemIds(items) == ["a", "b"]
      && Sorting.Sort(Normalize.ByReversalId, [UnitBack(), LumpBack()]) == [UnitBack(), LumpBack()]
  {
    var items := TwoItems();
    assert "a"[0] < "b"[0];
    SortedTwo(Normalize.ByLineId, items[0], items[1]);
    assert "r1"[1..] == "1" && "r2"[1..] == "2";
    SortedTwo(Normalize.ByReversalId, UnitBack(), LumpBack());
    assert Revenue.LineTotals(items) == [4, 0];
    SumOf2(4, 0);
    assert Revenue.ItemIds(items) == ["a", "b"];
    assert "a" != "b" by { assert "a"[0] != "b"[0]; }
  }

  lemma TwoAreGood(placedAt: string)
    ensures var order := TheOrder(4, true, placedAt);
      NormalizeLaws.GoodItems(order, TwoItems()) && NormalizeLaws.GoodReversals(order, [UnitBack(), LumpBack()])
  {
    TwoItemsHold();
    assert Normalize.ItemIds(TwoItems()) == ["a", "b"] && Normalize.LineIds(TwoItems()) == ["a", "b"];
    assert Normalize.ReversalIds([UnitBack(), LumpBack()]) == ["r1", "r2"] && "r1"[1] != "r2"[1];
  }

  lemma UnitLine(w: LineWork, ledger: Ledger)
    requires w.tallies.revenue == w.tallies.quantity == w.tallies.restocked == map["a" := 0, "b" := 0] && w.unmatched == 0
    requires Get(ledger.quantities, "a") == 1 && UnitCost(ledger, "a") == 10
    ensures var lines := UnitBack().lines.value;
      var v := ApplyLines(w, lines, UnitBack(), ledger, 1);
      v.unmatched == 0 && v.tallies.revenue == map["a" := 0, "b" := 0] && v.tallies.restocked == map["a" := 10, "b" := 0]
  {
    var lines := UnitBack().lines.value;
    assert ApplyLines(w, lines, UnitBack(), ledger, 0) == w;
  }

  lemma NoAmounts()
    ensures OrderLevel(UnitBack()) == Ok(0) && AddMinor(Reversals.Amounts(UnitBack().lines.value)) == Ok(0)
  {
    SumOf3(0, 0, 0);
    AddMinorFits([0, 0, 0]);
    var amounts := Reversals.Amounts(UnitBack().lines.value);
    assert amounts == [0] && Sum([0]) == 0 + Sum([]);
    AddMinorFits(amounts);
  }

  /** The tallies between the two refunds: the first line has all its cost back, the second none. */
  lemma AfterUnitBack(ledger: Ledger) returns (t: Tallies)
    requires Get(ledger.quantities, "a") == 1 && UnitCost(ledger, "a") == 10
    ensures ApplyReversal(NoTallies(BareLines(TwoItems())), UnitBack(), ledger) == Ok(t)
    ensures t.revenue == map["a" := 0, "b" := 0] && t.restocked == map["a" := 10, "b" := 0]
  {
    hide AddMinor, ApplyLines, Get, UnitCost, OrderLevel, Reversals.Amounts;
    var start := NoTallies(BareLines(TwoItems()));
    NoAmounts();
    assert ZeroTally(BareLines(TwoItems())) == map["a" := 0, "b" := 0];
    UnitLine(LineWork(start, 0), ledger);
    assert start.(isAllocated := start.isAllocated, diagnostics := start.diagnostics + []) == start;
    t := ApplyReversal(start, UnitBack(), ledger).value;
  }

  /** What the second refund meets: two lines of weights 4 and 0, each costing 10. */
  ghost predicate TwoBuckets(ledger: Ledger) {
    && ledger.buckets == [Bucket("a", 4), Bucket("b", 0)] && Keys(ledger.buckets) == ["a", "b"]
    && LineCost(ledger.costs, "a") == LineCost(ledger.costs, "b") == 10
    && Cogs.LineCosts(ledger.cogsLines) == [10, 10] && BucketWeights(ledger.buckets) == [4, 0]
  }

  lemma TwoBucketsHold()
    ensures var ledger := UnitLedger(TwoItems(), 10);
      TwoBuckets(ledger) && Get(ledger.quantities, "a") == 1 && UnitCost(ledger, "a") == 10
  {
    hide UnitLedger, LineCost, UnitCost, Get;
    var items, ledger := TwoItems(), UnitLedger(TwoItems(), 10);
    TwoItemsHold();
    UnitLedgerHolds(items, 10);
    assert items[0].id == "a" && items[1].id == "b";
    assert Cogs.LineCosts(CostsOfUnits(items, 10)) == [10, 10];
    assert Revenue.LineTotals(items) == [4, 0];
  }

  /** All of an amount goes to the line that weighs something. */
  lemma WeightTakesAll(amount: int, ledger: Ledger)
    requires TwoBuckets(ledger) && 0 < amount <= MAX_MINOR
    ensures var r := Allocate(amount, ledger.buckets); r.Ok? && Get(r.value, "a") == amount && Get(r.value, "b") == 0
  {
    var buckets := ledger.buckets;
    AllocateSucceeds(amount, buckets);
    AllocateHolds(amount, buckets);
    SharesContract(amount, buckets);
    hide Allocate, Keys;
    assert buckets[0].weight > 0 && buckets[1].weight <= 0;
    assert buckets[1].key in Allocate(amount, buckets).value;
    SumOf2(Get(Allocate(amount, buckets).value, "a"), Get(Allocate(amount, buckets).value, "b"));
    assert Along(Allocate(amount, buckets).value, ["a", "b"])
        == [Get(Allocate(amount, buckets).value, "a"), Get(Allocate(amount, buckets).value, "b")];
  }

  lemma BothOpen(ledger: Ledger)
    requires TwoBuckets(ledger)
    ensures OpenLines(ledger.buckets, ledger.costs) == ledger.buckets
  {
    var a, b, p := Bucket("a", 4), Bucket("b", 0), HasCost(ledger.costs);
    assert Sequences.Filter(p, []) == [];
    assert [b][1..] == [] && [a, b][1..] == [b];
    assert Sequences.Filter(p, [b]) == [b] + Sequences.Filter(p, [b][1..]);
    assert Sequences.Filter(p, [a, b]) == [a] + Sequences.Filter(p, [a, b][1..]);
  }

  lemma TotalOfTwo(m: map<string, int>)
    ensures Total(m, ["a", "b"]) == Get(m, "a") + Get(m, "b")
  {
    assert Along(m, ["a", "b"]) == [Get(m, "a"), Get(m, "b")];
    SumOf2(Get(m, "a"), Get(m, "b"));
  }

  /** The line that is offered the credit is full, and the one with room is offered nothing. */
  lemma ShareMisses(ledger: Ledger, restocked: map<string, int>)
    requires TwoBuckets(ledger) && restocked == map["a" := 10, "b" := 0]
    ensures !Lands(5, ledger.buckets, restocked, ledger.costs) && Room(ledger.costs, restocked, ledger.buckets) == 10
  {
    hide Allocate, LineCost;
    WeightTakesAll(5, ledger);
    assert Rooms(ledger.costs, restocked, ledger.buckets) == [0, 10];
    SumOf2(0, 10);
  }

  lemma ShareDropped(ledger: Ledger, restocked: map<string, int>)
    requires TwoBuckets(ledger) && restocked == map["a" := 10, "b" := 0]
    ensures var r := RestockLump(restocked, LumpBack(), ledger); r.Ok? && Get(r.value, "a") == 10 && Get(r.value, "b") == 0
    ensures Prorate(20, 1, 4) == 5
  {
    hide AddMinor, SpreadCapped, LineCost, Prorate, Sum, Total, OpenLines, Lands, Room, Cogs.LineCosts,
      BucketWeights;
    SumOf2(10, 10);
    AddMinorFits([10, 10]);
    SumOf2(4, 0);
    AddMinorFits([4, 0]);
    ProrateIsFloor(20, 1, 4);
    BothOpen(ledger);
    ShareMisses(ledger, restocked);
    SpreadCappedPlaces(5, ledger.buckets, restocked, ledger.costs);
    var after := SpreadCapped(5, ledger.buckets, restocked, ledger.costs).value;
    TotalOfTwo(after);
    TotalOfTwo(restocked);
    assert Get(restocked, "a") <= Get(after, "a") && Get(restocked, "b") <= Get(after, "b");
  }

  lemma UnitSpread(ledger: Ledger, revenue: map<string, int>)
    requires TwoBuckets(ledger) && revenue == map["a" := 0, "b" := 0]
    ensures var r := Spread(1, ledger.buckets, revenue); r.Ok? && Get(r.value, "a") == 1 && Get(r.value, "b") == 0
  {
    hide Allocate, LineCost;
    WeightTakesAll(1, ledger);
    var shares := Allocate(1, ledger.buckets).value;
    assert AddUpTo(revenue, ledger.buckets, shares, 0) == revenue;
    assert AddUpTo(revenue, ledger.buckets, shares, 1) == revenue["a" := 1];
  }

  lemma AfterLumpBack(t: Tallies, ledger: Ledger) returns (u: Tallies)
    requires TwoBuckets(ledger) && t.revenue == map["a" := 0, "b" := 0] && t.restocked == map["a" := 10, "b" := 0]
    ensures ApplyReversal(t, LumpBack(), ledger) == Ok(u)
    ensures Get(u.revenue, "a") == 1 && Get(u.revenue, "b") == 0 && Get(u.restocked, "a") == 10 && Get(u.restocked, "b") == 0
  {
    hide AddMinor, Spread, RestockLump, TwoBuckets;
    SumOf3(0, 0, 0);
    AddMinorFits([0, 0, 0]);
    SumOf2(1, 0);
    AddMinorFits([1, 0]);
    UnitSpread(ledger, t.revenue);
    ShareDropped(ledger, t.restocked);
    u := ApplyReversal(t, LumpBack(), ledger).value;
  }

  lemma TwoRefunds(ledger: Ledger) returns (u: Tallies)
    requires ledger == UnitLedger(TwoItems(), 10)
    ensures ApplyReversals(NoTallies(BareLines(TwoItems())), [UnitBack(), LumpBack()], ledger, 2) == Ok(u)
    ensures Get(u.revenue, "a") == 1 && Get(u.revenue, "b") == 0 && Get(u.restocked, "a") == 10 && Get(u.restocked, "b") == 0
  {
    hide ApplyReversal, NoTallies, UnitLedger, TwoBuckets, Get, UnitCost, BareLines;
    TwoBucketsHold();
    var start, reversals := NoTallies(BareLines(TwoItems())), [UnitBack(), LumpBack()];
    var t := AfterUnitBack(ledger);
    u := AfterLumpBack(t, ledger);
    assert ApplyReversals(start, reversals, ledger, 0) == Ok(start);
    assert ApplyReversals(start, reversals, ledger, 1) == Ok(t);
  }

  lemma TwoRefundsRun(placedAt: string) returns (n: Normalize.Normalized, cogs: Computed<Cogs.OrderCogs>,
        c: Computed<ReversalImpact>)
    requires Instants.IsInstant(placedAt)
    ensures BareRun(Input(TwoItems(), [UnitBack(), LumpBack()], 4, 10, placedAt), n, cogs, c)
    ensures RunFits(n.items, cogs.value, c.value)
    ensures n.items == TwoItems() && cogs.value.cogs == 20
    ensures |c.value.lines| == 2 && c.value.lines[0].restocked == 10 && c.value.lines[1].restocked == 0 && c.value.restocked == 10
  {
    hide Instants.IsInstant, Normalize.NormalizeAndValidate, Normalize.ByLineId, Normalize.ByReversalId,
      Cogs.ComputeCogs, ComputeReversalImpact, LedgerOf, QuantityTable, WeightTable, BareInput, Priced, OneUnitEach,
      Get, LineCost, ApplyReversals, NoTallies, NormalizeLaws.GoodItems, NormalizeLaws.GoodReversals, Sorting.Sort,
      UnitBack, LumpBack;
    var items, reversals, ledger := TwoItems(), [UnitBack(), LumpBack()], UnitLedger(TwoItems(), 10);
    TwoItemsHold();
    TwoAreGood(placedAt);
    n, cogs := InputRun(items, reversals, 4, 10, placedAt);
    TwoBucketsHold();
    var u := TwoRefunds(ledger);
    c := SmallImpact(reversals, items, ledger, u);
    TwoLinesReport(c.value, u, ledger);
    TwoFit(items, c.value);
  }

  lemma TwoLinesReport(impact: ReversalImpact, u: Tallies, ledger: Ledger)
    requires |impact.lines| == 2 && LineCost(ledger.costs, "a") == LineCost(ledger.costs, "b") == 10
    requires impact.restocked == Sum(Restocks(impact.lines)) && impact.impact == impact.restocked - Sum(Revenues(impact.lines))
    requires forall i :: 0 <= i < 2 ==> ReversalLaws.Reports(impact.lines[i], BareLines(TwoItems())[i], u, ledger, true)
    requires Get(u.revenue, "a") == 1 && Get(u.revenue, "b") == 0 && Get(u.restocked, "a") == 10 && Get(u.restocked, "b") == 0
    ensures impact.lines[0].restocked == 10 && impact.lines[1].restocked == 0 && impact.restocked == 10
    ensures impact.lines[0].impact == 9 && impact.lines[1].impact == 0 && impact.impact == 9
  {
    hide LineCost, Get, Sum;
    assert ReversalLaws.Reports(impact.lines[0], BareLines(TwoItems())[0], u, ledger, true);
    assert ReversalLaws.Reports(impact.lines[1], BareLines(TwoItems())[1], u, ledger, true);
    assert Restocks(impact.lines) == [10, 0] && Revenues(impact.lines) == [1, 0];
    SumOf2(10, 0);
    SumOf2(1, 0);
  }

  lemma TwoFit(items: seq<Item>, impact: ReversalImpact)
    requires items == TwoItems() && |impact.lines| == 2 && impact.impact == 9 && impact.lines[0].impact == 9
        && impact.lines[1].impact == 0
    ensures RunFits(items, Cogs.OrderCogs(CostsOfUnits(items, 10), 20, false, false), impact)
  {
    TwoItemsHold();
  }

  /**
   * A credit that is dropped: the first refund brings one unit of the line worth 4 back, the second,
   * a unit of money without line detail, prorates to a cost of 5. All of it is offered to that
   * line, which is full; nothing comes back on the other, though 10 would fit.
   */
  lemma DroppedCredit(placedAt: string) returns (report: Report)
    requires Instants.IsInstant(placedAt)
    ensures ProfitLaws.Reports(Input(TwoItems(), [UnitBack(), LumpBack()], 4, 10, placedAt), report)
    ensures |report.lines| == 2 && report.lines[0].restocked == 10 && report.lines[1].restocked == 0
    ensures report.totals.restocked == 10 && report.totals.costs.cogs == 20 && Prorate(20, 1, 4) == 5
  {
    hide Instants.IsInstant, Normalize.NormalizeAndValidate, BareRun, RunFits, ProfitLaws.Reports, TwoItems, Prorate;
    var n, cogs, c := TwoRefundsRun(placedAt);
    report := BareOrdersCompute(Input(TwoItems(), [UnitBack(), LumpBack()], 4, 10, placedAt), n, cogs, c);
    ProrateIsFloor(20, 1, 4);
  }
}
