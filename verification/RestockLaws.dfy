/** Whole orders: which goods and how much money come back on each line, and why. */
module RestockLaws {
  import opened Prelude
  import opened Sums
  import opened Domain
  import opened AllocateLines
  import opened AllocateLinesLaws
  import opened Profit
  import opened ProfitLaws
  import opened ReturnLaws
  import opened StockBackLaws
  import opened TakeBackLaws
  import Allocation
  import CappedSpread
  import Cogs
  import Diagnostics
  import Money
  import Normalize
  import OrderLegLaws
  import Revenue
  import ReversalLaws
  import Reversals
  import Sequences
  import Shipping
  import Sorting
  import Text
  import Gateway
  import Cod = CashOnDelivery

  // ------------------------------------------------- nothing but what was sellable

  /** A line that did not come back fit for sale puts nothing on the shelf. */
  lemma LineLeavesShelf(w: Reversals.LineWork, line: ReversalLine, r: Reversal, ledger: Reversals.Ledger)
    requires line.restockOutcome != RestockedSellable
    ensures Reversals.ApplyLine(w, line, r, ledger).tallies.restocked == w.tallies.restocked
  {
    hide Reversals.CostOfUnits;
  }

  /** Nor does a reversal without line detail. */
  lemma LumpLeavesShelf(t: Reversals.Tallies, r: Reversal, ledger: Reversals.Ledger)
    requires r.lines.None? && r.restockOutcome != RestockedSellable && Reversals.ApplyReversal(t, r, ledger).Ok?
    ensures Reversals.ApplyReversal(t, r, ledger).value.restocked == t.restocked
  {
    hide Money.AddMinor, CappedSpread.Spread, Reversals.RestockLump, Reversals.OrderLevel;
  }

  // ------------------------------------------------------------------ the ledger

  /** What there is to know of each line, from its item and the report. */
  function StockOf(items: seq<Item>, lines: seq<ProfitLine>): (r: seq<Stock>)
    requires |items| == |lines|
    ensures |r| == |items|
    ensures forall i :: 0 <= i < |r| ==>
      r[i] == Stock(items[i].id, items[i].quantity, lines[i].unitCost, lines[i].cogs, items[i].lineTotalExVat)
  {
    seq(|items|, i requires 0 <= i < |items| => Stock(items[i].id, items[i].quantity, lines[i].unitCost,
        lines[i].cogs, items[i].lineTotalExVat))
  }

  ghost predicate CostedAs(cogs: seq<Cogs.LineCogs>, stock: seq<Stock>) {
    |cogs| == |stock| && forall i :: 0 <= i < |stock| ==> cogs[i].unitCost == stock[i].unitCost && cogs[i].cogs == stock[i].cost
  }

  ghost predicate StockedAs(items: seq<Item>, stock: seq<Stock>) {
    && |items| == |stock|
    && forall i :: 0 <= i < |stock| ==>
      stock[i].id == items[i].id && stock[i].ordered == items[i].quantity >= 0 && stock[i].total == items[i].lineTotalExVat
  }

  lemma LedgerUnits(items: seq<Item>, revenue: Revenue.OrderRevenue, cogs: Cogs.OrderCogs, i: nat)
    requires i < |items| && Distinct(Revenue.ItemIds(items)) && Cogs.Aligned(items, cogs.lines)
    ensures Reversals.UnitCost(LedgerFor(items, revenue, cogs), items[i].id) == cogs.lines[i].unitCost
  {
    var f := (l: Cogs.LineCogs) => l.itemId;
    assert Sequences.Map(f, cogs.lines) == Revenue.ItemIds(items);
    Sequences.TableLookup(Revenue.ItemIds(items), cogs.lines, i);
  }

  lemma LedgerHolds(items: seq<Item>, revenue: Revenue.OrderRevenue, cogs: Cogs.OrderCogs, stock: seq<Stock>)
    requires items != [] && Distinct(Revenue.ItemIds(items)) && Revenue.Aligned(items, revenue.lines)
        && Cogs.Aligned(items, cogs.lines)
    requires StockedAs(items, stock) && CostedAs(cogs.lines, stock)
    ensures Holds(LedgerFor(items, revenue, cogs), stock)
    ensures Weighs(LedgerFor(items, revenue, cogs), Ids(stock), StockBackLaws.LineTotals(stock))
        && Ids(stock) == Revenue.ItemIds(items)
  {
    hide LedgerFor, Revenue.Aligned, Cogs.Aligned, Distinct, Reversals.UnitCost, CappedSpread.LineCost, Get, Sum;
    var ledger := LedgerFor(items, revenue, cogs);
    LedgerWeights(items, revenue, cogs);
    SameWeights(ledger.buckets);
    assert Ids(stock) == Revenue.ItemIds(items) && StockBackLaws.LineTotals(stock) == Revenue.LineTotals(items);
    assert StockBackLaws.Costs(stock) == Cogs.LineCosts(cogs.lines);
    forall i | 0 <= i < |stock| ensures HoldsLine(ledger, stock[i]) {
      LedgerAt(items, revenue, cogs, i);
      LedgerUnits(items, revenue, cogs, i);
    }
  }

  // --------------------------------------------------------------- the branches

  /** A return leg says the goods are back. */
  ghost predicate CameBack(shipments: seq<Shipment>) {
    exists s :: s in shipments && s.direction == Return && (s.status == ReturnedToOrigin || s.status == DeliveredParcel)
  }

  /** The goods never left: nothing was sent, and the order was called off or never paid. */
  ghost predicate NeverLeft(recognition: Recognition, state: FulfillmentState) {
    && (state == Unfulfilled || state == NotApplicable)
    && (recognition == CostOnly(CancelledAfterCapture) || recognition == CostOnly(CancelledAfterDispatch)
        || recognition == CostOnly(PaymentNotSettled))
  }

  /** What comes back on a line: units, the cost of those fit for sale, and the money taken off. */
  datatype Back = Back(units: int, goods: int, money: int)

  function Worked(lines: seq<Reversals.LineReversal>): (r: seq<Back>)
    ensures |r| == |lines| && forall i :: 0 <= i < |r| ==> r[i] == Back(lines[i].quantity, lines[i].restocked, lines[i].revenue)
  {
    seq(|lines|, i requires 0 <= i < |lines| => Back(lines[i].quantity, lines[i].restocked, lines[i].revenue))
  }

  function Reported(lines: seq<ProfitLine>): (r: seq<Back>)
    ensures |r| == |lines|
    ensures forall i :: 0 <= i < |r| ==> r[i] == Back(lines[i].reversedQuantity, lines[i].restocked, lines[i].reversedRevenue)
  {
    seq(|lines|, i requires 0 <= i < |lines| => Back(lines[i].reversedQuantity, lines[i].restocked, lines[i].reversedRevenue))
  }

  function Moneys(backs: seq<Back>): (r: seq<int>)
    ensures |r| == |backs| && forall i :: 0 <= i < |r| ==> r[i] == backs[i].money
  {
    seq(|backs|, i requires 0 <= i < |backs| => backs[i].money)
  }

  /** Every line has all its goods back, and their cost. */
  ghost predicate AllBack(stock: seq<Stock>, backs: seq<Back>) {
    |backs| == |stock| && forall i :: 0 <= i < |backs| ==> backs[i] == Back(stock[i].ordered, stock[i].cost, 0)
  }

  ghost predicate NothingBack(backs: seq<Back>) { forall i :: 0 <= i < |backs| ==> backs[i] == Back(0, 0, 0) }

  /** What the reversals bring back, line by line: money only where revenue counts. */
  ghost predicate BroughtBack(reversals: seq<Reversal>, recognized: bool, stock: seq<Stock>, takes: seq<seq<int>>,
        tallies: seq<seq<int>>, backs: seq<Back>)
  {
    && |backs| == |stock| && PutBack(reversals, |reversals|, stock, tallies) && |tallies[|reversals|]| == |stock|
    && (if recognized then TakenBack(reversals, Ids(stock), StockBackLaws.LineTotals(stock), takes, Moneys(backs))
        else forall i :: 0 <= i < |backs| ==> backs[i].money == 0)
    && (forall i :: 0 <= i < |backs| ==> backs[i].units == Counted(stock[i].ordered, UnitsClaimed(reversals, stock[i].id, |reversals|)))
    && (forall i :: 0 <= i < |backs| ==>
          backs[i].goods == Max(0, if tallies[|reversals|][i] < stock[i].cost then tallies[|reversals|][i] else stock[i].cost))
  }

  lemma CreditedAllBack(revenueLines: seq<Revenue.LineRevenue>, ledger: Reversals.Ledger, stock: seq<Stock>)
    requires Holds(ledger, stock) && |revenueLines| == |stock| && forall i :: 0 <= i < |stock| ==> revenueLines[i].itemId == stock[i].id
    ensures AllBack(stock, Worked(Reversals.CreditedLines(revenueLines, ledger)))
  {
    hide Get, CappedSpread.LineCost;
    forall i | 0 <= i < |stock| ensures HoldsLine(ledger, stock[i]) { BucketHolds(ledger, stock, i); }
  }

  /** The early answers of the computation. */
  lemma Recovered(reversals: seq<Reversal>, revenueLines: seq<Revenue.LineRevenue>, ledger: Reversals.Ledger,
        recognition: Recognition, shipments: seq<Shipment>, order: Order, stock: seq<Stock>)
    requires Holds(ledger, stock) && |revenueLines| == |stock| && forall i :: 0 <= i < |stock| ==> revenueLines[i].itemId == stock[i].id
    requires Reversals.ComputeReversalImpact(reversals, revenueLines, ledger, recognition, shipments,
        Dispatched(order.fulfillmentState)).Ok?
    ensures var c := Reversals.ComputeReversalImpact(reversals, revenueLines, ledger, recognition, shipments,
        Dispatched(order.fulfillmentState)).value;
      && (NeverLeft(recognition, order.fulfillmentState) || (recognition == CostOnly(RtoUncollected) && CameBack(shipments)) ==>
            AllBack(stock, Worked(c.value.lines)))
      && (recognition == CostOnly(RtoUncollected) && !CameBack(shipments) ==> NothingBack(Worked(c.value.lines)))
  {
    hide Holds, Reversals.Summed, Reversals.ApplyReversals, Reversals.FinalLines, Reversals.CreditedLines, AllBack,
      Reversals.NoTallies;
    CreditedAllBack(revenueLines, ledger, stock);
    if Reversals.Summed(Reversals.CreditedLines(revenueLines, ledger), false, true).Ok? {
      ReversalLaws.SummedFacts(Reversals.CreditedLines(revenueLines, ledger), false, true);
    }
    assert CameBack(shipments) <==> Reversals.RtoGoodsRecovered(shipments) by { hide *; SameReturn(shipments); }
  }

  lemma SameReturn(shipments: seq<Shipment>)
    ensures CameBack(shipments) <==> Reversals.RtoGoodsRecovered(shipments)
  {
  }

  ghost predicate Answered(recognition: Recognition, state: FulfillmentState) {
    NeverLeft(recognition, state) || recognition == CostOnly(RtoUncollected)
  }

  lemma FinalBack(lines: seq<Reversals.LineReversal>, revenueLines: seq<Revenue.LineRevenue>, t: Reversals.Tallies,
        ledger: Reversals.Ledger, recognized: bool, reversals: seq<Reversal>, stock: seq<Stock>, takes: seq<seq<int>>,
            tallies: seq<seq<int>>)
    requires Holds(ledger, stock) && |lines| == |revenueLines| == |stock|
    requires forall i :: 0 <= i < |stock| ==> revenueLines[i].itemId == stock[i].id
    requires forall i :: 0 <= i < |lines| ==> ReversalLaws.Reports(lines[i], revenueLines[i], t, ledger, recognized)
    requires PutBack(reversals, |reversals|, stock, tallies) && tallies[|reversals|] == Along(t.restocked, Ids(stock))
    requires Counts(t, stock, ClaimedBy(reversals, stock, |reversals|))
    requires TakenBack(reversals, Ids(stock), StockBackLaws.LineTotals(stock), takes, Along(t.revenue, Ids(stock)))
    ensures BroughtBack(reversals, recognized, stock, takes, tallies, Worked(lines))
  {
    hide PutBack, TakenBack, Get, CappedSpread.LineCost, Holds, UnitsClaimed;
    forall i | 0 <= i < |stock| ensures HoldsLine(ledger, stock[i])
        && Ids(stock)[i] == stock[i].id { BucketHolds(ledger, stock, i); }
    if recognized { assert Moneys(Worked(lines)) == Along(t.revenue, Ids(stock)); }
  }

  lemma StartsEmpty(revenueLines: seq<Revenue.LineRevenue>, reversals: seq<Reversal>, stock: seq<Stock>)
    requires |revenueLines| == |stock| && forall i :: 0 <= i < |stock| ==> revenueLines[i].itemId == stock[i].id && stock[i].ordered >= 0
    ensures var t := Reversals.NoTallies(revenueLines);
      && Counts(t, stock, ClaimedBy(reversals, stock, 0)) && ReversalLaws.Covers(t.revenue, Ids(stock))
      && (forall id :: Get(t.revenue, id) == 0 && Get(t.restocked, id) == 0) && t.diagnostics == [] && !t.isAllocated
  {
    ReversalLaws.ZeroTallyFacts(revenueLines, Ids(stock));
  }

  lemma OrderedUnits(ledger: Reversals.Ledger, stock: seq<Stock>)
    requires Holds(ledger, stock)
    ensures forall i :: 0 <= i < |stock| ==> stock[i].ordered >= 0
  {
  }

  /** The reversals at work. */
  lemma AppliedBack(reversals: seq<Reversal>, revenueLines: seq<Revenue.LineRevenue>, ledger: Reversals.Ledger,
        recognized: bool, stock: seq<Stock>) returns (takes: seq<seq<int>>, tallies: seq<seq<int>>)
    requires Holds(ledger, stock) && |revenueLines| == |stock| && forall i :: 0 <= i < |stock| ==> revenueLines[i].itemId == stock[i].id
    requires Weighs(ledger, Ids(stock), StockBackLaws.LineTotals(stock))
    requires Reversals.ApplyReversals(Reversals.NoTallies(revenueLines), reversals, ledger, |reversals|).Ok?
    requires var t := Reversals.ApplyReversals(Reversals.NoTallies(revenueLines), reversals, ledger, |reversals|).value;
      Reversals.FinalLines(revenueLines, t, ledger, recognized, |revenueLines|).Ok?
    ensures var t := Reversals.ApplyReversals(Reversals.NoTallies(revenueLines), reversals, ledger, |reversals|).value;
      BroughtBack(reversals, recognized, stock, takes, tallies,
                  Worked(Reversals.FinalLines(revenueLines, t, ledger, recognized, |revenueLines|).value))
  {
    hide Reversals.ApplyReversals, Reversals.FinalLines, Reversals.NoTallies, Holds, Weighs, PutBack, TakenBack,
      BroughtBack, Counts, Get, ReversalLaws.Covers, ReversalLaws.Reports, Distinct;
    var n, ids, start := |reversals|, Ids(stock), Reversals.NoTallies(revenueLines);
    OrderedUnits(ledger, stock);
    StartsEmpty(revenueLines, reversals, stock);
    WeighedKeys(ledger, ids, StockBackLaws.LineTotals(stock));
    takes := ReversalsTake(start, reversals, ledger, n, ids, StockBackLaws.LineTotals(stock));
    tallies := ReversalsPutBack(start, reversals, ledger, n, stock);
    var t := Reversals.ApplyReversals(start, reversals, ledger, n).value;
    ReversalLaws.FinalLinesReport(revenueLines, t, ledger, recognized, |revenueLines|);
    assert reversals[..n] == reversals;
    FinalBack(Reversals.FinalLines(revenueLines, t, ledger, recognized, |revenueLines|).value, revenueLines, t,
        ledger, recognized, reversals,
              stock, takes, tallies);
  }

  lemma NothingApplied(revenueLines: seq<Revenue.LineRevenue>, recognized: bool, stock: seq<Stock>)
    requires |revenueLines| == |stock| && forall i :: 0 <= i < |stock| ==> revenueLines[i].itemId == stock[i].id && stock[i].ordered >= 0
    ensures BroughtBack([], recognized, stock, [], [seq(|stock|, _ => 0)], Worked(Reversals.UntouchedLines(revenueLines)))
  {
    NothingTaken(Ids(stock), StockBackLaws.LineTotals(stock), Moneys(Worked(Reversals.UntouchedLines(revenueLines))));
  }

  /** Where nothing answers for the whole order, the reversals do. */
  lemma ComputedBack(reversals: seq<Reversal>, revenueLines: seq<Revenue.LineRevenue>, ledger: Reversals.Ledger,
        recognition: Recognition, shipments: seq<Shipment>, order: Order, stock: seq<Stock>)
    returns (takes: seq<seq<int>>, tallies: seq<seq<int>>)
    requires Holds(ledger, stock) && |revenueLines| == |stock| && forall i :: 0 <= i < |stock| ==> revenueLines[i].itemId == stock[i].id
    requires Weighs(ledger, Ids(stock), StockBackLaws.LineTotals(stock)) && !Answered(recognition, order.fulfillmentState)
    requires Reversals.ComputeReversalImpact(reversals, revenueLines, ledger, recognition, shipments,
        Dispatched(order.fulfillmentState)).Ok?
    ensures var c := Reversals.ComputeReversalImpact(reversals, revenueLines, ledger, recognition, shipments,
        Dispatched(order.fulfillmentState)).value;
      BroughtBack(reversals, recognition.Recognized?, stock, takes, tallies, Worked(c.value.lines))
  {
    hide Holds, Weighs, Reversals.Summed, Reversals.ApplyReversals, Reversals.FinalLines, Reversals.NoTallies,
      Reversals.CreditedLines, BroughtBack, Reversals.UntouchedLines;
    OrderedUnits(ledger, stock);
    if reversals == [] {
      NothingApplied(revenueLines, recognition.Recognized?, stock);
      takes, tallies := [], [seq(|stock|, _ => 0)];
    } else {
      takes, tallies := AppliedBack(reversals, revenueLines, ledger, recognition.Recognized?, stock);
      var t := Reversals.ApplyReversals(Reversals.NoTallies(revenueLines), reversals, ledger, |reversals|).value;
      var lines := Reversals.FinalLines(revenueLines, t, ledger, recognition.Recognized?, |revenueLines|).value;
      ReversalLaws.SummedFacts(lines, t.isAllocated, false);
    }
  }

  // --------------------------------------------------------------- whole orders

  /** What comes back on the lines of an order, and why. */
  ghost predicate ComesBack(recognition: Recognition, state: FulfillmentState, shipments: seq<Shipment>, reversals: seq<Reversal>,
        stock: seq<Stock>, takes: seq<seq<int>>, tallies: seq<seq<int>>, backs: seq<Back>)
  {
    if NeverLeft(recognition, state) then AllBack(stock, backs)
    else if recognition == CostOnly(RtoUncollected) then if CameBack(shipments) then AllBack(stock, backs) else NothingBack(backs)
    else BroughtBack(reversals, recognition == Recognized, stock, takes, tallies, backs)
  }

  /** What is remarked on it. */
  ghost predicate BackRemark(recognition: Recognition, state: FulfillmentState, shipments: seq<Shipment>,
        reversals: seq<Reversal>,
        ids: seq<string>, d: Diagnostic)
  {
    if NeverLeft(recognition, state) then false
    else if recognition == CostOnly(RtoUncollected) then !CameBack(shipments) && d == Diagnostic(RestockUnconfirmed, OfOrder)
    else Doubted(reversals, ids, |reversals|, d)
  }

  /** All goods count as back without a reversal saying so. */
  ghost predicate Inferred(recognition: Recognition, state: FulfillmentState, shipments: seq<Shipment>) {
    NeverLeft(recognition, state) || (recognition == CostOnly(RtoUncollected) && CameBack(shipments))
  }

  /** Some money the reversals took off a line was split rather than named. */
  ghost predicate SplitsMoney(recognition: Recognition, state: FulfillmentState, reversals: seq<Reversal>, ids: seq<string>) {
    !Answered(recognition, state) && AnyAllocates(reversals, ids, |reversals|)
  }

  lemma BackOf(input: ProfitInput, n: Normalize.Normalized, t: Terms, stock: seq<Stock>)
    returns (takes: seq<seq<int>>, tallies: seq<seq<int>>)
    requires TermsFrom(input, n, t) && n.items != [] && Distinct(Revenue.ItemIds(n.items))
    requires StockedAs(n.items, stock) && CostedAs(t.cogs.value.lines, stock)
    ensures ComesBack(t.recognition, n.order.fulfillmentState, n.shipments, n.reversals, stock, takes, tallies,
        Worked(t.reversal.value.lines))
  {
    hide Reversals.ComputeReversalImpact, LedgerFor, Holds, Weighs, BroughtBack, AllBack, CostedAs,
      Revenue.ComputeRevenue, Cogs.ComputeCogs, Shipping.ComputeShippingCost, Gateway.ComputeGatewayFees,
      Cod.ComputeCodCost, CameBack, Distinct, Revenue.Aligned, Cogs.Aligned;
    RevenueOf(input, n, t);
    Cogs.CogsTies(n.items, n.costs);
    var lines, ledger := t.revenue.value.lines, LedgerFor(n.items, t.revenue.value, t.cogs.value);
    LedgerHolds(n.items, t.revenue.value, t.cogs.value, stock);
    LinesAlign(n.items, lines);
    Recovered(n.reversals, lines, ledger, t.recognition, n.shipments, n.order, stock);
    takes, tallies := [], [];
    if !Answered(t.recognition, n.order.fulfillmentState) {
      takes, tallies := ComputedBack(n.reversals, lines, ledger, t.recognition, n.shipments, n.order, stock);
    }
  }

  lemma UntouchedStart(items: seq<Item>, revenue: Revenue.OrderRevenue, cogs: Cogs.OrderCogs)
    requires Revenue.Aligned(items, revenue.lines) && Cogs.Aligned(items, cogs.lines) && Distinct(Revenue.ItemIds(items))
    ensures Allocation.Keys(LedgerFor(items, revenue, cogs).buckets) == Revenue.ItemIds(items)
    ensures var t := Reversals.NoTallies(revenue.lines);
      ReversalLaws.Covers(t.revenue, Revenue.ItemIds(items)) && t.diagnostics == [] && !t.isAllocated
  {
    LedgerWeights(items, revenue, cogs);
    ReversalLaws.ZeroTallyFacts(revenue.lines, Revenue.ItemIds(items));
  }

  /** What the reversal term says of itself, on any order. */
  lemma ReversalInWords(reversals: seq<Reversal>, revenueLines: seq<Revenue.LineRevenue>, ledger: Reversals.Ledger,
        recognition: Recognition, shipments: seq<Shipment>, order: Order, ids: seq<string>, d: Diagnostic)
    requires Reversals.ComputeReversalImpact(reversals, revenueLines, ledger, recognition, shipments,
        Dispatched(order.fulfillmentState)).Ok?
    requires Allocation.Keys(ledger.buckets) == ids && ReversalLaws.Covers(Reversals.NoTallies(revenueLines).revenue, ids)
    ensures var c := Reversals.ComputeReversalImpact(reversals, revenueLines, ledger, recognition, shipments,
        Dispatched(order.fulfillmentState)).value;
      && (d in c.diagnostics <==> BackRemark(recognition, order.fulfillmentState, shipments, reversals, ids, d))
      && (c.value.inferredRestock <==> Inferred(recognition, order.fulfillmentState, shipments))
      && (c.value.isAllocated <==> SplitsMoney(recognition, order.fulfillmentState, reversals, ids))
  {
    hide Reversals.Summed, Reversals.ApplyReversals, Reversals.FinalLines, Reversals.CreditedLines,
      Reversals.UntouchedLines, CameBack, ReversalLaws.Covers, Allocates, Doubts, Allocation.Keys,
      Reversals.RtoGoodsRecovered;
    SameReturn(shipments);
    var start, n := Reversals.NoTallies(revenueLines), |reversals|;
    if Reversals.Summed(Reversals.CreditedLines(revenueLines, ledger), false, true).Ok? {
      ReversalLaws.SummedFacts(Reversals.CreditedLines(revenueLines, ledger), false, true);
    }
    if !Answered(recognition, order.fulfillmentState) && reversals != [] {
      ReversalsNote(start, reversals, ledger, n, ids, d);
      var t := Reversals.ApplyReversals(start, reversals, ledger, n).value;
      var lines := Reversals.FinalLines(revenueLines, t, ledger, recognition.Recognized?, |revenueLines|).value;
      ReversalLaws.SummedFacts(lines, t.isAllocated, false);
    }
  }

  lemma ReversalSaysSo(input: ProfitInput, n: Normalize.Normalized, t: Terms, d: Diagnostic)
    requires TermsFrom(input, n, t) && Distinct(Revenue.ItemIds(n.items))
    ensures d in t.reversal.diagnostics <==>
      BackRemark(t.recognition, n.order.fulfillmentState, n.shipments, n.reversals, Revenue.ItemIds(n.items), d)
    ensures t.reversal.value.inferredRestock <==> Inferred(t.recognition, n.order.fulfillmentState, n.shipments)
    ensures t.reversal.value.isAllocated
        <==> SplitsMoney(t.recognition, n.order.fulfillmentState, n.reversals, Revenue.ItemIds(n.items))
  {
    hide Reversals.ComputeReversalImpact, LedgerFor, Revenue.ComputeRevenue, Cogs.ComputeCogs,
      Shipping.ComputeShippingCost, Gateway.ComputeGatewayFees, Cod.ComputeCodCost, Distinct, Revenue.Aligned,
      Cogs.Aligned, BackRemark, SplitsMoney, Inferred, Reversals.NoTallies, Revenue.ItemIds;
    RevenueOf(input, n, t);
    Cogs.CogsTies(n.items, n.costs);
    UntouchedStart(n.items, t.revenue.value, t.cogs.value);
    ReversalInWords(n.reversals, t.revenue.value.lines, LedgerFor(n.items, t.revenue.value, t.cogs.value),
        t.recognition, n.shipments, n.order,
                    Revenue.ItemIds(n.items), d);
  }

  lemma LinesAlign(items: seq<Item>, lines: seq<Revenue.LineRevenue>)
    requires Revenue.Aligned(items, lines)
    ensures |lines| == |items| && forall i :: 0 <= i < |items| ==> lines[i].itemId == items[i].id
  {
  }

  lemma Back3(out: seq<ProfitLine>, lines: seq<Revenue.LineRevenue>, cogs: seq<Cogs.LineCogs>,
        reversals: seq<Reversals.LineReversal>, s: Spreads, items: seq<Item>)
    requires |out| == |lines| == |cogs| == |reversals| == |items|
    requires forall i :: 0 <= i < |out| ==> Carries(out[i], lines[i], cogs[i], reversals[i], s)
    requires forall i :: 0 <= i < |items| ==> lines[i].itemId == items[i].id && items[i].quantity >= 0
    ensures Reported(out) == Worked(reversals) && CostedAs(cogs, StockOf(items, out)) && StockedAs(items, StockOf(items, out))
    ensures forall i :: 0 <= i < |out| ==> out[i].itemId == items[i].id
  {
  }

  lemma SameShipments(xs: seq<Shipment>, ys: seq<Shipment>)
    requires multiset(xs) == multiset(ys)
    ensures CameBack(xs) <==> CameBack(ys)
  {
    Sequences.SameLength(xs, ys);
  }

  /** The reversals are taken in the order of their ids. */
  ghost predicate ById(reversals: seq<Reversal>) {
    forall i, j :: 0 <= i < j < |reversals| ==> !Text.Lt(reversals[j].id, reversals[i].id)
  }

  lemma ReversalsSorted(input: ProfitInput, n: Normalize.Normalized)
    requires Normalize.NormalizeAndValidate(input) == Normalize.Accepted(n)
    ensures ById(n.reversals)
  {
    hide Normalize.Fatals, Normalize.IndexUpTo, Sorting.Sort;
    Text.Order();
    Sorting.SortSorts(Normalize.ByReversalId, input.reversals);
  }

  /** What comes back on the reported lines. */
  ghost predicate LinesBack(items: seq<Item>, lines: seq<ProfitLine>, recognition: Recognition, state: FulfillmentState,
        shipments: seq<Shipment>, reversals: seq<Reversal>, takes: seq<seq<int>>, tallies: seq<seq<int>>)
  {
    && |lines| == |items| && (forall i :: 0 <= i < |items| ==> lines[i].itemId == items[i].id)
    && ComesBack(recognition, state, shipments, reversals, StockOf(items, lines), takes, tallies, Reported(lines))
  }

  lemma BackBehind(input: ProfitInput, n: Normalize.Normalized, t: Terms, report: Report, d: Diagnostic)
    returns (takes: seq<seq<int>>, tallies: seq<seq<int>>)
    requires Behind(input, n, t, report) && TermsFrom(input, n, t)
        && Normalize.NormalizeAndValidate(input) == Normalize.Accepted(n)
    requires t.recognition == report.recognition && !report.recognition.Excluded? && n.items != []
    ensures LinesBack(n.items, report.lines, report.recognition, n.order.fulfillmentState, n.shipments,
        n.reversals, takes, tallies)
    ensures BackRemark(report.recognition, n.order.fulfillmentState, n.shipments, n.reversals, Revenue.ItemIds(n.items), d)
      ==> d in report.diagnostics
  {
    hide ComputeTerms, ComputeLines, TotalsOf, Carries, AllSpreads, Normalize.NormalizeAndValidate,
      Normalize.Canonical, ConfidenceOf, Diagnostics.SortDiagnostics, AllDiagnostics, WeightTable, AmountsOf,
      TermsFrom, ComesBack, BackRemark, Distinct, CostedAs, StockedAs, Behind, Worked, Reported, Revenue.Aligned;
    CanonicalItems(input, n);
    RevenueOf(input, n, t);
    LinesAlign(n.items, t.revenue.value.lines);
    var s := LinesAre(input, n, t, report);
    forall i | 0 <= i < |n.items| ensures n.items[i].quantity >= 0 { assert n.items[i] in n.items; }
    Back3(report.lines, t.revenue.value.lines, t.cogs.value.lines, t.reversal.value.lines, s, n.items);
    var stock := StockOf(n.items, report.lines);
    takes, tallies := BackOf(input, n, t, stock);
    ReversalSaysSo(input, n, t, d);
    OrderLegLaws.RemarksAreTheTerms(input, n, t, report, d);
    assert Ids(stock) == Revenue.ItemIds(n.items);
  }

  /**
   * Line by line, what comes back. An order called off before it left, and one returned to origin
   * whose return leg says the goods are back, has all its goods back at cost; one returned to origin
   * without such a leg has nothing back and says so. On any other order the reversals decide, in the
   * order of their ids: the money each names or, split by the items' totals, takes as a whole; the
   * units claimed, no more than were ordered; and the cost of those that can be sold again.
   */
  lemma WhatComesBack(input: ProfitInput, report: Report)
    returns (items: seq<Item>, reversals: seq<Reversal>, takes: seq<seq<int>>, tallies: seq<seq<int>>)
    requires Reports(input, report) && !report.recognition.Excluded? && input.items != []
    ensures multiset(items) == multiset(input.items) && multiset(reversals) == multiset(input.reversals) && ById(reversals)
    ensures LinesBack(items, report.lines, report.recognition, input.order.fulfillmentState, input.shipments,
        reversals, takes, tallies)
    ensures report.recognition == CostOnly(RtoUncollected) && !CameBack(input.shipments) ==>
      Diagnostic(RestockUnconfirmed, OfOrder) in report.diagnostics
  {
    hide *;
    var n, t := Opened(input, report);
    BehindOpens(input, n, t, report);
    OrderLegLaws.CanonicalOrder(input, n);
    ReversalsSorted(input, n);
    SameShipments(n.shipments, input.shipments);
    Sequences.SameLength(n.items, input.items);
    items, reversals := n.items, n.reversals;
    takes, tallies := BackBehind(input, n, t, report, Diagnostic(RestockUnconfirmed, OfOrder));
    SameBack(items, report.lines, report.recognition, input.order.fulfillmentState, n.shipments, input.shipments,
        reversals, takes, tallies);
  }

  lemma SameBack(items: seq<Item>, lines: seq<ProfitLine>, recognition: Recognition, state: FulfillmentState,
        xs: seq<Shipment>, ys: seq<Shipment>, reversals: seq<Reversal>, takes: seq<seq<int>>, tallies: seq<seq<int>>)
    requires CameBack(xs) <==> CameBack(ys)
    ensures LinesBack(items, lines, recognition, state, xs, reversals, takes, tallies)
      <==> LinesBack(items, lines, recognition, state, ys, reversals, takes, tallies)
    ensures recognition == CostOnly(RtoUncollected) && !CameBack(ys) ==>
      BackRemark(recognition, state, xs, reversals, Revenue.ItemIds(items), Diagnostic(RestockUnconfirmed, OfOrder))
  {
    hide AllBack, NothingBack, BroughtBack, CameBack;
  }

  // ---------------------------------------------------------------- in particular

  ghost predicate LineIsWhole(l: ProfitLine, items: seq<Item>) {
    l.restocked == l.cogs && l.reversedRevenue == 0
    && exists item :: item in items && item.id == l.itemId && l.reversedQuantity == item.quantity
  }

  ghost predicate LineIsEmpty(l: ProfitLine) { l.restocked == 0 && l.reversedQuantity == 0 && l.reversedRevenue == 0 }

  lemma WholeLines(items: seq<Item>, all: seq<Item>, lines: seq<ProfitLine>)
    requires |lines| == |items| && multiset(items) == multiset(all)
    requires forall i :: 0 <= i < |items| ==> lines[i].itemId == items[i].id
    ensures AllBack(StockOf(items, lines), Reported(lines)) ==> forall l :: l in lines ==> LineIsWhole(l, all)
    ensures NothingBack(Reported(lines)) ==> forall l :: l in lines ==> LineIsEmpty(l)
  {
    Sequences.SameLength(items, all);
    if AllBack(StockOf(items, lines), Reported(lines)) {
      forall l | l in lines ensures LineIsWhole(l, all) {
        var i :| 0 <= i < |lines| && lines[i] == l;
        assert Reported(lines)[i] == Back(items[i].quantity, lines[i].cogs, 0);
        assert items[i] in items;
      }
    }
    if NothingBack(Reported(lines)) {
      forall l | l in lines ensures LineIsEmpty(l) {
        var i :| 0 <= i < |lines| && lines[i] == l;
        assert Reported(lines)[i] == Back(0, 0, 0);
      }
    }
  }

  /** Of an order returned to origin uncollected, all goods are back at cost exactly where a return leg says so. */
  lemma OriginReturns(input: ProfitInput, report: Report)
    requires Reports(input, report) && report.recognition == CostOnly(RtoUncollected) && input.items != []
    ensures CameBack(input.shipments) ==> forall l :: l in report.lines ==> LineIsWhole(l, input.items)
    ensures !CameBack(input.shipments) ==>
      (forall l :: l in report.lines ==> LineIsEmpty(l)) && Diagnostic(RestockUnconfirmed, OfOrder) in report.diagnostics
  {
    hide Reports, StockOf, Reported, CameBack, AllBack, NothingBack, LineIsWhole, LineIsEmpty, BroughtBack;
    var items, reversals, takes, tallies := WhatComesBack(input, report);
    WholeLines(items, input.items, report.lines);
  }

  /** An order that never left has all its goods, whatever was refunded on it. */
  lemma NeverLeftComesBack(input: ProfitInput, report: Report)
    requires Reports(input, report) && NeverLeft(report.recognition, input.order.fulfillmentState) && input.items != []
    ensures forall l :: l in report.lines ==> LineIsWhole(l, input.items)
  {
    hide Reports, StockOf, Reported, CameBack, AllBack, NothingBack, LineIsWhole, BroughtBack;
    var items, reversals, takes, tallies := WhatComesBack(input, report);
    WholeLines(items, input.items, report.lines);
  }

  /** Nothing came back that can be sold again. */
  ghost predicate NothingSellable(reversals: seq<Reversal>) {
    forall r :: r in reversals ==>
      if r.lines.Some? then forall l :: l in r.lines.value ==> l.restockOutcome != RestockedSellable
      else r.restockOutcome != RestockedSellable
  }

  lemma {:induction false} NothingSaved(lines: seq<ReversalLine>, id: string, ordered: int, before: nat, n: nat)
    requires n <= |lines| && forall l :: l in lines ==> l.restockOutcome != RestockedSellable
    ensures UnitsSaved(lines, id, ordered, before, n) == 0
  {
    if n > 0 {
      NothingSaved(lines, id, ordered, before, n - 1);
      assert lines[n-1] in lines;
    }
  }

  lemma {:induction false} ShelfStaysEmpty(reversals: seq<Reversal>, stock: seq<Stock>, tallies: seq<seq<int>>, n: nat)
    requires NothingSellable(reversals) && n <= |reversals| && PutBack(reversals, |reversals|, stock, tallies)
    ensures |tallies[n]| == |stock| && forall i :: 0 <= i < |stock| ==> tallies[n][i] == 0
  {
    if n > 0 {
      ShelfStaysEmpty(reversals, stock, tallies, n - 1);
      hide LumpSaves, PutBack, UnitsSaved;
      SavesAt(reversals, stock, tallies, n - 1);
      var r := reversals[n-1];
      assert r in reversals;
      if r.lines.Some? {
        forall i | 0 <= i < |stock| ensures tallies[n][i] == 0 {
          NothingSaved(r.lines.value, stock[i].id, stock[i].ordered, ClaimedBy(reversals, stock, n - 1)[i], |r.lines.value|);
          assert stock[i].unitCost * 0 == 0;
        }
      } else {
        LumpLeaves(r, stock, tallies[n-1], tallies[n]);
      }
    }
  }

  lemma SavesAt(reversals: seq<Reversal>, stock: seq<Stock>, tallies: seq<seq<int>>, k: nat)
    requires k < |reversals| && PutBack(reversals, |reversals|, stock, tallies)
    ensures Saves(reversals[k], stock, ClaimedBy(reversals, stock, k), tallies[k], tallies[k+1])
  {
  }

  lemma LumpLeaves(r: Reversal, stock: seq<Stock>, held: seq<int>, now: seq<int>)
    requires r.restockOutcome != RestockedSellable && LumpSaves(r, stock, held, now)
    ensures now == held
  {
  }

  /** Goods that are damaged, missing or not yet seen give nothing back: without a saleable outcome no line has any. */
  lemma OnlySellableGoodsCount(input: ProfitInput, report: Report)
    requires Reports(input, report) && !report.recognition.Excluded? && input.items != [] && NothingSellable(input.reversals)
    requires !NeverLeft(report.recognition, input.order.fulfillmentState) && report.recognition != CostOnly(RtoUncollected)
    ensures forall l :: l in report.lines ==> l.restocked == 0
  {
    hide Reports, StockOf, CameBack, AllBack, NothingBack, PutBack, TakenBack, UnitsClaimed, NeverLeft;
    var items, reversals, takes, tallies := WhatComesBack(input, report);
    Sequences.SameLength(reversals, input.reversals);
    ShelfStaysEmpty(reversals, StockOf(items, report.lines), tallies, |reversals|);
    forall l | l in report.lines ensures l.restocked == 0 {
      var i :| 0 <= i < |report.lines| && report.lines[i] == l;
      assert Reported(report.lines)[i].goods == l.restocked;
    }
  }
}
