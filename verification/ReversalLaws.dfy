/** No refunded money is lost, and no more goods come back than went out. */
module ReversalLaws {
  import opened Prelude
  import opened Sequences
  import opened Sums
  import opened Arith
  import opened Money
  import opened Domain
  import opened Allocation
  import opened CappedSpread
  import opened CappedSpreadLaws
  import opened Cogs
  import opened Doubles
  import opened Revenue
  import opened Reversals

  // ------------------------------------------------------------ conservation

  /** The tallies hold exactly the order's own lines. */
  ghost predicate Covers(m: map<string, int>, ids: seq<string>) {
    forall id :: id in m <==> id in ids
  }

  /** What a reversal takes back: the larger of its own item amount and its lines', plus what belongs to no line. */
  function Refunded(reversal: Reversal): int {
    (match reversal.lines
     case Some(lines) => Max(reversal.amountExVat, Sum(Amounts(lines)))
     case None => reversal.amountExVat)
    + reversal.shippingRefundExVat + reversal.codFeeRefundExVat + reversal.adjustmentExVat
  }

  function Refunds(reversals: seq<Reversal>): (r: seq<int>)
    ensures |r| == |reversals|
    ensures forall i :: 0 <= i < |reversals| ==> r[i] == Refunded(reversals[i])
  {
    Map((r: Reversal) => Refunded(r), reversals)
  }

  lemma ApplyLineConserves(w: LineWork, line: ReversalLine, reversal: Reversal, ledger: Ledger, ids: seq<string>)
    requires Distinct(ids) && Covers(w.tallies.revenue, ids)
    ensures var v := ApplyLine(w, line, reversal, ledger);
      && Covers(v.tallies.revenue, ids)
      && Total(v.tallies.revenue, ids) + v.unmatched == Total(w.tallies.revenue, ids) + w.unmatched + line.amountExVat
  {
    TotalBump(w.tallies.revenue, ids, line.itemId, line.amountExVat);
  }

  lemma {:induction false} ApplyLinesConserve(w: LineWork, lines: seq<ReversalLine>, reversal: Reversal,
        ledger: Ledger, n: nat, ids: seq<string>)
    requires n <= |lines| && Distinct(ids) && Covers(w.tallies.revenue, ids)
    ensures var v := ApplyLines(w, lines, reversal, ledger, n);
      && Covers(v.tallies.revenue, ids)
      && Total(v.tallies.revenue, ids) + v.unmatched == Total(w.tallies.revenue, ids) + w.unmatched + Sum(Amounts(lines)[..n])
  {
    hide ApplyLine, Total, Covers;
    if n > 0 {
      ApplyLinesConserve(w, lines, reversal, ledger, n - 1, ids);
      ApplyLineConserves(ApplyLines(w, lines, reversal, ledger, n - 1), lines[n-1], reversal, ledger, ids);
      SumTake(Amounts(lines), n - 1);
    }
  }

  lemma {:induction false} AddUpToCovers(into: map<string, int>, buckets: seq<Bucket>, shares: map<string, int>,
        n: nat, ids: seq<string>)
    requires n <= |buckets| && Covers(into, ids) && forall i :: 0 <= i < |buckets| ==> buckets[i].key in ids
    ensures Covers(AddUpTo(into, buckets, shares, n), ids)
  {
    if n > 0 { AddUpToCovers(into, buckets, shares, n - 1, ids); }
  }

  lemma SpreadCovers(total: int, buckets: seq<Bucket>, into: map<string, int>)
    requires Spread(total, buckets, into).Ok? && Covers(into, Keys(buckets))
    ensures Covers(Spread(total, buckets, into).value, Keys(buckets))
  {
    hide Allocate;
    if total != 0 && buckets != [] {
      var ids := Keys(buckets);
      forall i | 0 <= i < |buckets| ensures buckets[i].key in ids { assert ids[i] == buckets[i].key; }
      AddUpToCovers(into, buckets, Allocate(total, buckets).value, |buckets|, ids);
    }
  }

  lemma SpreadCheckedConserves(amount: int, buckets: seq<Bucket>, into: map<string, int>)
    requires SpreadChecked(amount, buckets, into).Ok? && Covers(into, Keys(buckets))
    requires buckets != [] && Distinct(Keys(buckets))
    ensures var after := SpreadChecked(amount, buckets, into).value;
      Covers(after, Keys(buckets)) && Total(after, Keys(buckets)) == Total(into, Keys(buckets)) + amount
  {
    hide Spread, Total, Covers, Keys;
    if amount != 0 {
      SpreadConserves(amount, buckets, into);
      SpreadCovers(amount, buckets, into);
    }
  }

  lemma DetailedConserves(t: Tallies, reversal: Reversal, lines: seq<ReversalLine>, orderLevel: int, ledger: Ledger)
    requires ApplyDetailed(t, reversal, lines, orderLevel, ledger).Ok? && Covers(t.revenue, Keys(ledger.buckets))
    requires ledger.buckets != [] && Distinct(Keys(ledger.buckets))
    ensures var after := ApplyDetailed(t, reversal, lines, orderLevel, ledger).value;
      && Covers(after.revenue, Keys(ledger.buckets))
      && Total(after.revenue, Keys(ledger.buckets))
         == Total(t.revenue, Keys(ledger.buckets)) + Max(reversal.amountExVat, Sum(Amounts(lines))) + orderLevel
  {
    hide AddMinor, Spread, SpreadChecked, ApplyLines, Covers, Total, Keys;
    var ids := Keys(ledger.buckets);
    AddMinorIsSum(Amounts(lines));
    var claimed := Sum(Amounts(lines));
    var mismatch := claimed != reversal.amountExVat;
    var start := t.(isAllocated := t.isAllocated || mismatch,
                    diagnostics := t.diagnostics + NoteIf(mismatch, ReversalTotalMismatch, reversal));
    var w := LineWork(start, Max(0, reversal.amountExVat - claimed));
    var v := ApplyLines(w, lines, reversal, ledger, |lines|);
    ApplyLinesConserve(w, lines, reversal, ledger, |lines|, ids);
    assert Amounts(lines)[..|lines|] == Amounts(lines);
    SpreadCheckedConserves(v.unmatched, ledger.buckets, v.tallies.revenue);
    var spread := SpreadChecked(v.unmatched, ledger.buckets, v.tallies.revenue).value;
    SpreadConserves(orderLevel, ledger.buckets, spread);
    SpreadCovers(orderLevel, ledger.buckets, spread);
  }

  lemma LumpConserves(t: Tallies, reversal: Reversal, orderLevel: int, ledger: Ledger)
    requires ApplyLump(t, reversal, orderLevel, ledger).Ok? && Covers(t.revenue, Keys(ledger.buckets))
    requires ledger.buckets != [] && Distinct(Keys(ledger.buckets))
    ensures var after := ApplyLump(t, reversal, orderLevel, ledger).value;
      && Covers(after.revenue, Keys(ledger.buckets))
      && Total(after.revenue, Keys(ledger.buckets)) == Total(t.revenue, Keys(ledger.buckets)) + reversal.amountExVat + orderLevel
  {
    hide AddMinor, Spread, RestockLump, Covers, Total, Keys;
    var total := reversal.amountExVat + orderLevel;
    Add2(reversal.amountExVat, orderLevel);
    SpreadConserves(total, ledger.buckets, t.revenue);
    SpreadCovers(total, ledger.buckets, t.revenue);
  }

  lemma ReversalConserves(t: Tallies, reversal: Reversal, ledger: Ledger)
    requires ApplyReversal(t, reversal, ledger).Ok? && Covers(t.revenue, Keys(ledger.buckets))
    requires ledger.buckets != [] && Distinct(Keys(ledger.buckets))
    ensures var after := ApplyReversal(t, reversal, ledger).value;
      && Covers(after.revenue, Keys(ledger.buckets))
      && Total(after.revenue, Keys(ledger.buckets)) == Total(t.revenue, Keys(ledger.buckets)) + Refunded(reversal)
  {
    hide AddMinor, ApplyDetailed, ApplyLump, Covers, Total, Keys, Amounts;
    var orderLevel := OrderLevel(reversal).value;
    Add3(reversal.shippingRefundExVat, reversal.codFeeRefundExVat, reversal.adjustmentExVat);
    match reversal.lines {
      case Some(lines) => DetailedConserves(t, reversal, lines, orderLevel, ledger);
      case None => LumpConserves(t, reversal, orderLevel, ledger);
    }
  }

  lemma {:induction false} ReversalsConserve(t: Tallies, reversals: seq<Reversal>, ledger: Ledger, n: nat)
    requires n <= |reversals| && ApplyReversals(t, reversals, ledger, n).Ok? && Covers(t.revenue, Keys(ledger.buckets))
    requires ledger.buckets != [] && Distinct(Keys(ledger.buckets))
    ensures var after := ApplyReversals(t, reversals, ledger, n).value;
      && Covers(after.revenue, Keys(ledger.buckets))
      && Total(after.revenue, Keys(ledger.buckets)) == Total(t.revenue, Keys(ledger.buckets)) + Sum(Refunds(reversals)[..n])
  {
    hide ApplyReversal, Covers, Total, Keys, Refunded;
    if n > 0 {
      ReversalsConserve(t, reversals, ledger, n - 1);
      ReversalConserves(ApplyReversals(t, reversals, ledger, n - 1).value, reversals[n-1], ledger);
      SumTake(Refunds(reversals), n - 1);
    }
  }

  // ---------------------------------------------------------- the final lines

  /** What one reported line holds, given the tallies. */
  ghost predicate Reports(out: LineReversal, line: LineRevenue, t: Tallies, ledger: Ledger, recognized: bool) {
    && out.itemId == line.itemId
    && out.revenue == (if recognized then Get(t.revenue, line.itemId) else 0)
    && out.restocked == Max(0, Min(Get(t.restocked, line.itemId), LineCost(ledger.costs, line.itemId)))
    && out.quantity == Min(Get(t.quantity, line.itemId), Get(ledger.quantities, line.itemId))
    && out.impact == out.restocked - out.revenue
  }

  lemma FinalLineReports(line: LineRevenue, t: Tallies, ledger: Ledger, recognized: bool)
    requires FinalLine(line, t, ledger, recognized).Ok?
    ensures Reports(FinalLine(line, t, ledger, recognized).value, line, t, ledger, recognized)
  {
    hide AddMinor;
    var out := FinalLine(line, t, ledger, recognized).value;
    Add2(-out.revenue, out.restocked);
  }

  lemma {:induction false} FinalLinesReport(lines: seq<LineRevenue>, t: Tallies, ledger: Ledger, recognized: bool, n: nat)
    requires n <= |lines| && FinalLines(lines, t, ledger, recognized, n).Ok?
    ensures var out := FinalLines(lines, t, ledger, recognized, n).value;
      |out| == n && forall i :: 0 <= i < n ==> Reports(out[i], lines[i], t, ledger, recognized)
  {
    hide FinalLine, Reports;
    if n > 0 {
      FinalLinesReport(lines, t, ledger, recognized, n - 1);
      FinalLineReports(lines[n-1], t, ledger, recognized);
    }
  }

  lemma SummedFacts(lines: seq<LineReversal>, isAllocated: bool, inferred: bool)
    requires Summed(lines, isAllocated, inferred).Ok?
    ensures var r := Summed(lines, isAllocated, inferred).value;
      && r.lines == lines && r.isAllocated == isAllocated && r.inferredRestock == inferred
      && r.revenue == Sum(Revenues(lines)) && r.restocked == Sum(Restocks(lines)) && r.impact == Sum(Impacts(lines))
  {
    hide AddMinor;
    AddMinorIsSum(Revenues(lines));
    AddMinorIsSum(Restocks(lines));
    AddMinorIsSum(Impacts(lines));
  }

  lemma ZeroTallyFacts(lines: seq<LineRevenue>, ids: seq<string>)
    requires |ids| == |lines| && forall i :: 0 <= i < |ids| ==> ids[i] == lines[i].itemId
    ensures Covers(ZeroTally(lines), ids) && Total(ZeroTally(lines), ids) == 0
    ensures forall id :: Get(ZeroTally(lines), id) == 0
  {
    SumOfConstant(Along(ZeroTally(lines), ids), 0);
  }

  /** The ids of the ledger's buckets are the ids of the lines, in order. */
  ghost predicate LedgerFits(ledger: Ledger, revenueLines: seq<LineRevenue>) {
    var ids := Keys(ledger.buckets);
    |ids| == |revenueLines| && (forall i :: 0 <= i < |ids| ==> ids[i] == revenueLines[i].itemId) && Distinct(ids)
  }

  /**
   * On a recognized order with lines, the reversed revenue of the lines is exactly what the
   * reversals took back, whether or not they named lines, and whatever lines they named.
   */
  lemma RefundConservation(reversals: seq<Reversal>, revenueLines: seq<LineRevenue>, ledger: Ledger,
        shipments: seq<Shipment>, dispatched: bool)
    requires revenueLines != [] && LedgerFits(ledger, revenueLines)
    requires ComputeReversalImpact(reversals, revenueLines, ledger, Recognized, shipments, dispatched).Ok?
    ensures var impact := ComputeReversalImpact(reversals, revenueLines, ledger, Recognized, shipments, dispatched).value.value;
      && Sum(Revenues(impact.lines)) == Sum(Refunds(reversals))
      && impact.revenue == Sum(Refunds(reversals))
  {
    hide Summed, ApplyReversals, FinalLines, Keys, Refunds, Covers, Along, ZeroTally, Distinct;
    var ids := Keys(ledger.buckets);
    var start := NoTallies(revenueLines);
    ZeroTallyFacts(revenueLines, ids);
    if reversals == [] {
      SumOfConstant(Revenues(UntouchedLines(revenueLines)), 0);
      assert Sum(Refunds([])) == 0;
    } else {
      var t := ApplyReversals(start, reversals, ledger, |reversals|).value;
      var lines := FinalLines(revenueLines, t, ledger, true, |revenueLines|).value;
      ReversalsConserve(start, reversals, ledger, |reversals|);
      FinalLinesReport(revenueLines, t, ledger, true, |revenueLines|);
      SummedFacts(lines, t.isAllocated, false);
      assert Refunds(reversals)[..|reversals|] == Refunds(reversals);
      assert Revenues(lines) == Along(t.revenue, ids);
    }
  }

  // ------------------------------------------------------- what can come back

  lemma {:induction false} ApplyLinesBoundQuantity(w: LineWork, lines: seq<ReversalLine>, reversal: Reversal,
        ledger: Ledger, n: nat, id: string)
    requires n <= |lines| && 0 <= Get(w.tallies.quantity, id) <= Max(0, Get(ledger.quantities, id))
    ensures var v := ApplyLines(w, lines, reversal, ledger, n);
      Get(w.tallies.quantity, id) <= Get(v.tallies.quantity, id) <= Max(0, Get(ledger.quantities, id))
  {
    if n > 0 { ApplyLinesBoundQuantity(w, lines, reversal, ledger, n - 1, id); }
  }

  /** However many reversals claim a line, the units credited to it never exceed those ordered. */
  lemma {:induction false} ReversalsBoundQuantity(t: Tallies, reversals: seq<Reversal>, ledger: Ledger, n: nat, id: string)
    requires n <= |reversals| && ApplyReversals(t, reversals, ledger, n).Ok?
    requires 0 <= Get(t.quantity, id) <= Max(0, Get(ledger.quantities, id))
    ensures var after := ApplyReversals(t, reversals, ledger, n).value;
      Get(t.quantity, id) <= Get(after.quantity, id) <= Max(0, Get(ledger.quantities, id))
  {
    hide ApplyReversal;
    if n > 0 {
      ReversalsBoundQuantity(t, reversals, ledger, n - 1, id);
      ReversalBoundsQuantity(ApplyReversals(t, reversals, ledger, n - 1).value, reversals[n-1], ledger, id);
    }
  }

  lemma ReversalBoundsQuantity(t: Tallies, reversal: Reversal, ledger: Ledger, id: string)
    requires ApplyReversal(t, reversal, ledger).Ok?
    requires 0 <= Get(t.quantity, id) <= Max(0, Get(ledger.quantities, id))
    ensures var after := ApplyReversal(t, reversal, ledger).value;
      Get(t.quantity, id) <= Get(after.quantity, id) <= Max(0, Get(ledger.quantities, id))
  {
    hide AddMinor, ApplyLines, Spread, SpreadChecked, RestockLump, OrderLevel, Amounts, Get;
    if reversal.lines.Some? {
      var lines := reversal.lines.value;
      var claimed := AddMinor(Amounts(lines)).value;
      var mismatch := claimed != reversal.amountExVat;
      var start := t.(isAllocated := t.isAllocated || mismatch,
                      diagnostics := t.diagnostics + NoteIf(mismatch, ReversalTotalMismatch, reversal));
      ApplyLinesBoundQuantity(LineWork(start, Max(0, reversal.amountExVat - claimed)), lines, reversal, ledger, |lines|, id);
    }
  }

  /** However the order is recognized, lines carry their own impact and the totals are their sums. */
  ghost predicate WellFormed(impact: ReversalImpact, revenueLines: seq<LineRevenue>, ledger: Ledger, recognized: bool) {
    && |impact.lines| == |revenueLines|
    && (forall i :: 0 <= i < |revenueLines| ==> LineWellFormed(impact.lines[i], revenueLines[i], ledger, recognized))
    && impact.revenue == Sum(Revenues(impact.lines))
    && impact.restocked == Sum(Restocks(impact.lines))
    && impact.impact == Sum(Impacts(impact.lines)) == impact.restocked - impact.revenue
  }

  /** A line returns no more units than were ordered and no more cost than its goods had. */
  ghost predicate LineWellFormed(out: LineReversal, line: LineRevenue, ledger: Ledger, recognized: bool) {
    && out.itemId == line.itemId
    && out.impact == out.restocked - out.revenue
    && (!recognized ==> out.revenue == 0)
    && (LineCost(ledger.costs, line.itemId) >= 0 ==> 0 <= out.restocked <= LineCost(ledger.costs, line.itemId))
    && (Get(ledger.quantities, line.itemId) >= 0 ==> out.quantity <= Get(ledger.quantities, line.itemId))
  }

  lemma ImpactsSum(lines: seq<LineReversal>)
    requires forall i :: 0 <= i < |lines| ==> lines[i].impact == lines[i].restocked - lines[i].revenue
    ensures Sum(Impacts(lines)) == Sum(Restocks(lines)) - Sum(Revenues(lines))
  {
    SumLinear(Impacts(lines), 1, Restocks(lines), -1, Revenues(lines));
  }

  lemma SummedIsWellFormed(lines: seq<LineReversal>, isAllocated: bool, inferred: bool,
        revenueLines: seq<LineRevenue>, ledger: Ledger, recognized: bool)
    requires Summed(lines, isAllocated, inferred).Ok? && |lines| == |revenueLines|
    requires forall i :: 0 <= i < |revenueLines| ==> LineWellFormed(lines[i], revenueLines[i], ledger, recognized)
    ensures WellFormed(Summed(lines, isAllocated, inferred).value, revenueLines, ledger, recognized)
  {
    SummedFacts(lines, isAllocated, inferred);
    ImpactsSum(lines);
  }

  lemma ZeroSums(revenueLines: seq<LineRevenue>)
    ensures var lines := UntouchedLines(revenueLines);
      Sum(Revenues(lines)) == 0 && Sum(Restocks(lines)) == 0 && Sum(Impacts(lines)) == 0
  {
    var lines := UntouchedLines(revenueLines);
    SumOfConstant(Revenues(lines), 0);
    SumOfConstant(Restocks(lines), 0);
    SumOfConstant(Impacts(lines), 0);
  }

  /** For any list of reversals: the lines are bounded by what was ordered, and the totals tie. */
  lemma ReturnsAreBounded(reversals: seq<Reversal>, revenueLines: seq<LineRevenue>, ledger: Ledger,
        recognition: Recognition, shipments: seq<Shipment>, dispatched: bool)
    requires ComputeReversalImpact(reversals, revenueLines, ledger, recognition, shipments, dispatched).Ok?
    ensures WellFormed(
      ComputeReversalImpact(reversals, revenueLines, ledger, recognition, shipments, dispatched).value.value,
      revenueLines, ledger, recognition.Recognized?)
  {
    hide Summed, ApplyReversals, FinalLines, RtoGoodsRecovered, UndispatchedRecovery, NoTallies, Sum, Revenues,
      Restocks, Impacts;
    var recognized := recognition.Recognized?;
    ZeroSums(revenueLines);
    if UndispatchedRecovery(recognition, dispatched)
        || (recognition == CostOnly(RtoUncollected) && RtoGoodsRecovered(shipments)) {
      SummedIsWellFormed(CreditedLines(revenueLines, ledger), false, true, revenueLines, ledger, recognized);
    } else if recognition != CostOnly(RtoUncollected) && reversals != [] {
      var t := ApplyReversals(NoTallies(revenueLines), reversals, ledger, |reversals|).value;
      var lines := FinalLines(revenueLines, t, ledger, recognized, |revenueLines|).value;
      FinalLinesReport(revenueLines, t, ledger, recognized, |revenueLines|);
      SummedIsWellFormed(lines, t.isAllocated, false, revenueLines, ledger, recognized);
    }
  }

  // ------------------------------------------------------------ whole refunds

  /** The whole cost of an order's goods. */
  function FullCost(ledger: Ledger): int { Sum(LineCosts(ledger.cogsLines)) }

  /** The ledger's cost lines are its buckets' and none is negative. */
  ghost predicate CostsMatch(ledger: Ledger) {
    && Distinct(Keys(ledger.buckets))
    && (forall i :: 0 <= i < |ledger.buckets| ==> LineCost(ledger.costs, ledger.buckets[i].key) >= 0)
    && FullCost(ledger) == Sum(CostsAlong(ledger.costs, Keys(ledger.buckets)))
  }

  /** Every line has its whole cost back. */
  ghost predicate AllBack(restocked: map<string, int>, ledger: Ledger) {
    forall k :: 0 <= k < |ledger.buckets|
        ==> Get(restocked, ledger.buckets[k].key) == LineCost(ledger.costs, ledger.buckets[k].key)
  }

  ghost predicate WithinCosts(restocked: map<string, int>, ledger: Ledger) {
    forall k :: 0 <= k < |ledger.buckets|
        ==> 0 <= Get(restocked, ledger.buckets[k].key) <= LineCost(ledger.costs, ledger.buckets[k].key)
  }

  lemma FullCostCounts(ledger: Ledger)
    requires CostsMatch(ledger)
    ensures FullCost(ledger) >= 0
  {
    SumNonNegative(CostsAlong(ledger.costs, Keys(ledger.buckets)));
  }

  /** Prorated by the whole revenue the cost is not negative, and while the product is exact it is the cost itself. */
  lemma WholeShare(full: nat, gross: nat)
    requires gross > 0
    ensures Prorate(full, gross, gross) >= 0
    ensures full * gross <= MAX_SAFE ==> Prorate(full, gross, gross) == full
  {
    if full * gross <= MAX_SAFE {
      ProrateIsFloor(full, gross, gross);
      QuotientIsUnique(full * gross, gross, full);
    }
  }

  /** A lump refund of the whole item revenue credits every line its whole cost exactly when the prorated share is not short of it. */
  lemma WholeRestock(restocked: map<string, int>, reversal: Reversal, ledger: Ledger)
    requires RestockLump(restocked, reversal, ledger).Ok? && CostsMatch(ledger)
    requires forall id :: Get(restocked, id) == 0
    requires reversal.amountExVat == Sum(BucketWeights(ledger.buckets)) > 0
    ensures var after := RestockLump(restocked, reversal, ledger).value;
      && (AllBack(after, ledger) <==> Prorate(FullCost(ledger), reversal.amountExVat, reversal.amountExVat) >= FullCost(ledger))
      && WithinCosts(after, ledger)
  {
    hide AddMinor, SpreadCapped, Keys, Get, LineCost, BucketWeights, LineCosts, Sum, Prorate;
    AddMinorIsSum(BucketWeights(ledger.buckets));
    AddMinorIsSum(LineCosts(ledger.cogsLines));
    FullCostCounts(ledger);
    var share := Prorate(FullCost(ledger), reversal.amountExVat, reversal.amountExVat);
    WholeShare(FullCost(ledger), reversal.amountExVat);
    WholeReturn(share, ledger.buckets, restocked, ledger.costs);
  }

  /** What a whole refund comes to, line by line. */
  ghost predicate AllReturned(lines: seq<LineReversal>, revenueLines: seq<LineRevenue>, ledger: Ledger)
    requires |lines| == |revenueLines|
  {
    forall k :: 0 <= k < |lines| ==> lines[k].restocked == LineCost(ledger.costs, revenueLines[k].itemId)
  }

  lemma ReportedBack(lines: seq<LineReversal>, revenueLines: seq<LineRevenue>, t: Tallies, ledger: Ledger, recognized: bool)
    requires |lines| == |revenueLines| && LedgerFits(ledger, revenueLines) && CostsMatch(ledger)
    requires forall i :: 0 <= i < |lines| ==> Reports(lines[i], revenueLines[i], t, ledger, recognized)
    requires WithinCosts(t.restocked, ledger)
    ensures AllReturned(lines, revenueLines, ledger) <==> AllBack(t.restocked, ledger)
  {
    hide Keys, Distinct, FullCost, CostsAlong, LineCost, Get;
    var ids := Keys(ledger.buckets);
    forall k | 0 <= k < |lines|
      ensures ledger.buckets[k].key == revenueLines[k].itemId
      ensures lines[k].restocked == Get(t.restocked, ledger.buckets[k].key)
    {
      KeyAt(ledger.buckets, k);
      assert ids[k] == revenueLines[k].itemId;
      assert Reports(lines[k], revenueLines[k], t, ledger, recognized);
    }
    assert |ledger.buckets| == |lines|;
  }

  lemma KeyAt(buckets: seq<Bucket>, k: nat)
    requires k < |buckets|
    ensures Keys(buckets)[k] == buckets[k].key
  {
  }

  /** The reversal is the only one, of the whole item revenue, without line detail, with the goods back sellable. */
  ghost predicate WholeRefund(reversal: Reversal, ledger: Ledger) {
    && reversal.lines.None? && RecoversCogs(reversal.restockOutcome)
    && reversal.amountExVat == Sum(BucketWeights(ledger.buckets)) > 0
  }

  /**
   * One refund without line detail, of the whole item revenue, with the goods back sellable: every
   * line gets back exactly what its goods cost if and only if prorating the whole cost by the whole
   * revenue, in doubles, does not come out short; it never does while their product is exact.
   */
  lemma FullRefundReturnsEverything(reversal: Reversal, revenueLines: seq<LineRevenue>, ledger: Ledger,
        recognition: Recognition, shipments: seq<Shipment>, dispatched: bool)
    requires WholeRefund(reversal, ledger)
    requires !UndispatchedRecovery(recognition, dispatched) && recognition != CostOnly(RtoUncollected)
    requires ComputeReversalImpact([reversal], revenueLines, ledger, recognition, shipments, dispatched).Ok?
    requires LedgerFits(ledger, revenueLines) && CostsMatch(ledger)
    ensures var lines := ComputeReversalImpact([reversal], revenueLines, ledger, recognition, shipments,
        dispatched).value.value.lines;
      && |lines| == |revenueLines|
      && (AllReturned(lines, revenueLines, ledger)
          <==> Prorate(FullCost(ledger), reversal.amountExVat, reversal.amountExVat) >= FullCost(ledger))
      && (FullCost(ledger) * reversal.amountExVat <= MAX_SAFE ==> AllReturned(lines, revenueLines, ledger))
  {
    hide Summed, FinalLines, Spread, AddMinor, RestockLump, OrderLevel, Sum, LineCosts, BucketWeights, CostsAlong,
      UntouchedLines, LedgerFits, CostsMatch, AllReturned, Prorate, FullCost, RecoversCogs;
    var start := NoTallies(revenueLines);
    var orderLevel := OrderLevel(reversal).value;
    assert ApplyReversals(start, [reversal], ledger, 1) == ApplyReversal(start, reversal, ledger);
    var t := ApplyReversals(start, [reversal], ledger, 1).value;
    WholeRestock(start.restocked, reversal, ledger);
    var lines := FinalLines(revenueLines, t, ledger, recognition.Recognized?, |revenueLines|).value;
    FinalLinesReport(revenueLines, t, ledger, recognition.Recognized?, |revenueLines|);
    SummedFacts(lines, t.isAllocated, false);
    ReportedBack(lines, revenueLines, t, ledger, recognition.Recognized?);
    FullCostCounts(ledger);
    WholeShare(FullCost(ledger), reversal.amountExVat);
  }

  /** What a lump refund with saleable goods placed on the lines, against the share it had to place. */
  ghost predicate PlacesShare(before: map<string, int>, after: map<string, int>, reversal: Reversal, ledger: Ledger)
    requires reversal.amountExVat > 0 && Sum(BucketWeights(ledger.buckets)) > 0
  {
    var share := Prorate(FullCost(ledger), reversal.amountExVat, Sum(BucketWeights(ledger.buckets)));
    Total(after, Keys(ledger.buckets)) - Total(before, Keys(ledger.buckets))
      == Max(0, Min(share, Room(ledger.costs, before, OpenLines(ledger.buckets, ledger.costs))))
  }

  /** The first allocation of the share reaches a line that can still take goods back. */
  ghost predicate ShareLands(before: map<string, int>, reversal: Reversal, ledger: Ledger)
    requires reversal.amountExVat > 0 && Sum(BucketWeights(ledger.buckets)) > 0
  {
    var share := Prorate(FullCost(ledger), reversal.amountExVat, Sum(BucketWeights(ledger.buckets)));
    var open := OpenLines(ledger.buckets, ledger.costs);
    share <= 0 || Room(ledger.costs, before, open) == 0 || Lands(share, open, before, ledger.costs)
  }

  /**
   * Among other reversals, a refund without line detail whose goods can be sold again credits the
   * smaller of its share and what the lines can still take exactly when there is nothing to credit,
   * no room, or its first allocation reaches a line with room; otherwise it credits nothing at all.
   */
  lemma LumpReversalPlaces(t: Tallies, reversal: Reversal, ledger: Ledger)
    requires reversal.lines.None? && RecoversCogs(reversal.restockOutcome) && ApplyReversal(t, reversal, ledger).Ok?
    requires reversal.amountExVat > 0 && Sum(BucketWeights(ledger.buckets)) > 0 && Distinct(Keys(ledger.buckets))
    ensures var after := ApplyReversal(t, reversal, ledger).value.restocked;
      && (PlacesShare(t.restocked, after, reversal, ledger) <==> ShareLands(t.restocked, reversal, ledger))
      && (!ShareLands(t.restocked, reversal, ledger)
          ==> Total(after, Keys(ledger.buckets)) == Total(t.restocked, Keys(ledger.buckets)))
  {
    hide AddMinor, SpreadCapped, Spread, OrderLevel, Keys, Get, LineCosts, Sum, Prorate, Room, OpenLines, Total,
      Lands, BucketWeights, StaysWithin;
    AddMinorIsSum(BucketWeights(ledger.buckets));
    AddMinorIsSum(LineCosts(ledger.cogsLines));
    var share := Prorate(FullCost(ledger), reversal.amountExVat, Sum(BucketWeights(ledger.buckets)));
    SpreadCappedPlaces(share, ledger.buckets, t.restocked, ledger.costs);
  }

  // ----------------------------------------------------------------- honesty

  /** Unless the result is flagged as allocated, the only doubt reported is an unconfirmed restock. */
  ghost predicate Honest(isAllocated: bool, diagnostics: seq<Diagnostic>) {
    isAllocated || forall i :: 0 <= i < |diagnostics| ==> diagnostics[i].code.RestockUnconfirmed?
  }

  lemma {:induction false} ApplyLinesHonest(w: LineWork, lines: seq<ReversalLine>, reversal: Reversal, ledger: Ledger,
        n: nat)
    requires n <= |lines| && Honest(w.tallies.isAllocated, w.tallies.diagnostics)
    ensures var v := ApplyLines(w, lines, reversal, ledger, n); Honest(v.tallies.isAllocated, v.tallies.diagnostics)
  {
    if n > 0 { ApplyLinesHonest(w, lines, reversal, ledger, n - 1); }
  }

  lemma ReversalHonest(t: Tallies, reversal: Reversal, ledger: Ledger)
    requires ApplyReversal(t, reversal, ledger).Ok? && Honest(t.isAllocated, t.diagnostics)
    ensures var after := ApplyReversal(t, reversal, ledger).value; Honest(after.isAllocated, after.diagnostics)
  {
    hide AddMinor, ApplyLines, Spread, SpreadChecked, RestockLump, OrderLevel, Amounts;
    if reversal.lines.Some? {
      var lines := reversal.lines.value;
      var claimed := AddMinor(Amounts(lines)).value;
      var mismatch := claimed != reversal.amountExVat;
      var start := t.(isAllocated := t.isAllocated || mismatch,
                      diagnostics := t.diagnostics + NoteIf(mismatch, ReversalTotalMismatch, reversal));
      ApplyLinesHonest(LineWork(start, Max(0, reversal.amountExVat - claimed)), lines, reversal, ledger, |lines|);
    }
  }

  lemma {:induction false} ReversalsHonest(t: Tallies, reversals: seq<Reversal>, ledger: Ledger, n: nat)
    requires n <= |reversals| && ApplyReversals(t, reversals, ledger, n).Ok? && Honest(t.isAllocated, t.diagnostics)
    ensures var after := ApplyReversals(t, reversals, ledger, n).value; Honest(after.isAllocated, after.diagnostics)
  {
    hide ApplyReversal, Honest;
    if n > 0 {
      ReversalsHonest(t, reversals, ledger, n - 1);
      ReversalHonest(ApplyReversals(t, reversals, ledger, n - 1).value, reversals[n-1], ledger);
    }
  }

  /** The whole computation is honest about what it allocated rather than was told. */
  lemma ImpactHonest(reversals: seq<Reversal>, revenueLines: seq<LineRevenue>, ledger: Ledger,
        recognition: Recognition, shipments: seq<Shipment>, dispatched: bool)
    requires ComputeReversalImpact(reversals, revenueLines, ledger, recognition, shipments, dispatched).Ok?
    ensures var c := ComputeReversalImpact(reversals, revenueLines, ledger, recognition, shipments, dispatched).value;
      && Honest(c.value.isAllocated, c.diagnostics)
      && (reversals == [] ==> !c.value.isAllocated)
  {
    hide AddMinor, ApplyReversals, FinalLines, RtoGoodsRecovered, CreditedLines, UntouchedLines;
    var start := NoTallies(revenueLines);
    if !UndispatchedRecovery(recognition, dispatched) && recognition != CostOnly(RtoUncollected) && reversals != [] {
      ReversalsHonest(start, reversals, ledger, |reversals|);
    }
  }
}
