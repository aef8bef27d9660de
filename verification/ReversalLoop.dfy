/** The reversal engine as it runs: three tallies updated reversal by reversal, line by line. */
module ReversalLoop {
  import opened Prelude
  import opened Sums
  import opened Money
  import opened Domain
  import opened Doubles
  import opened CappedSpread
  import opened Cogs
  import opened Revenue
  import opened Reversals

  /** Line detail: each line's money and goods go to its own tallies, the rest becomes the residual. */
  method ApplyLinesLoop(t: Tallies, residual: int, lines: seq<ReversalLine>, reversal: Reversal, ledger: Ledger)
    returns (r: LineWork)
    ensures r == ApplyLines(LineWork(t, residual), lines, reversal, ledger, |lines|)
  {
    hide CostOfUnits, Get, Creditable, UnknownRestock, RecoversCogs;
    var reversedRevenue, reversedQty, restocked := t.revenue, t.quantity, t.restocked;
    var isAllocated, diagnostics, unmatched := t.isAllocated, t.diagnostics, residual;
    for i := 0 to |lines|
      invariant LineWork(Tallies(reversedRevenue, reversedQty, restocked, isAllocated, diagnostics), unmatched)
             == ApplyLines(LineWork(t, residual), lines, reversal, ledger, i)
    {
      var line := lines[i];
      if line.itemId !in reversedRevenue {
        diagnostics := diagnostics + [Note(ReversalLineUnmatched, reversal)];
        unmatched := unmatched + line.amountExVat;
        isAllocated := true;
        continue;
      }
      reversedRevenue := reversedRevenue[line.itemId := Get(reversedRevenue, line.itemId) + line.amountExVat];
      var ordered := Get(ledger.quantities, line.itemId);
      var already := Get(reversedQty, line.itemId);
      var creditable := Creditable(ordered, already, line.quantity);
      reversedQty := reversedQty[line.itemId := already + creditable];
      if UnknownRestock(line.restockOutcome) {
        diagnostics := diagnostics + [Note(RestockUnconfirmed, reversal)];
      }
      if RecoversCogs(line.restockOutcome) {
        restocked := restocked[line.itemId := Get(restocked, line.itemId) + CostOfUnits(ledger, line.itemId, creditable)];
      }
    }
    return LineWork(Tallies(reversedRevenue, reversedQty, restocked, isAllocated, diagnostics), unmatched);
  }

  method ApplyDetailedLoop(t: Tallies, reversal: Reversal, lines: seq<ReversalLine>, orderLevel: int, ledger: Ledger)
    returns (r: Result<Tallies>)
    ensures r == ApplyDetailed(t, reversal, lines, orderLevel, ledger)
  {
    hide AddMinor, Spread, ApplyLines;
    var claimed := AddMinorLoop(Amounts(lines));
    if claimed.Err? { return Err(claimed.error); }
    var start := t;
    if claimed.value != reversal.amountExVat {
      start := start.(diagnostics := start.diagnostics + [Note(ReversalTotalMismatch, reversal)], isAllocated := true);
    }
    assert NoteIf(false, ReversalTotalMismatch, reversal) == [];
    assert t.diagnostics + [] == t.diagnostics;
    var w := ApplyLinesLoop(start, Max(0, reversal.amountExVat - claimed.value), lines, reversal, ledger);
    var reversedRevenue := w.tallies.revenue;
    if w.unmatched != 0 {
      var checked := ToMinor(w.unmatched);
      if checked.Err? { return Err(checked.error); }
      var spread := SpreadLoop(checked.value, ledger.buckets, reversedRevenue);
      if spread.Err? { return Err(spread.error); }
      reversedRevenue := spread.value;
    }
    var diagnostics := w.tallies.diagnostics;
    var spread := SpreadLoop(orderLevel, ledger.buckets, reversedRevenue);
    if spread.Err? { return Err(spread.error); }
    if orderLevel != 0 { diagnostics := diagnostics + [Note(ReversalLinesAllocated, reversal)]; }
    assert w.tallies.diagnostics + [] == w.tallies.diagnostics;
    return Ok(w.tallies.(revenue := spread.value, isAllocated := w.tallies.isAllocated
        || orderLevel != 0, diagnostics := diagnostics));
  }

  method RestockLumpLoop(restocked: map<string, int>, reversal: Reversal,
        ledger: Ledger) returns (r: Result<map<string, int>>)
    ensures r == RestockLump(restocked, reversal, ledger)
  {
    hide AddMinor, SpreadCapped, Prorate;
    var itemsGross := AddMinorLoop(BucketWeights(ledger.buckets));
    if itemsGross.Err? { return Err(itemsGross.error); }
    if reversal.amountExVat <= 0 || itemsGross.value <= 0 { return Ok(restocked); }
    var fullCogs := AddMinorLoop(LineCosts(ledger.cogsLines));
    if fullCogs.Err? { return Err(fullCogs.error); }
    var share := ToMinor(Prorate(fullCogs.value, reversal.amountExVat, itemsGross.value));
    if share.Err? { return Err(share.error); }
    r := SpreadCappedLoop(share.value, ledger.buckets, restocked, ledger.costs);
  }

  method ApplyReversalLoop(t: Tallies, reversal: Reversal, ledger: Ledger) returns (r: Result<Tallies>)
    ensures r == ApplyReversal(t, reversal, ledger)
  {
    hide AddMinor, Spread, ApplyDetailed, RestockLump;
    var orderLevel := AddMinorLoop([reversal.shippingRefundExVat, reversal.codFeeRefundExVat, reversal.adjustmentExVat]);
    if orderLevel.Err? { return Err(orderLevel.error); }
    if reversal.lines.Some? {
      r := ApplyDetailedLoop(t, reversal, reversal.lines.value, orderLevel.value, ledger);
      return;
    }
    var total := AddMinorLoop([reversal.amountExVat, orderLevel.value]);
    if total.Err? { return Err(total.error); }
    var revenue := SpreadLoop(total.value, ledger.buckets, t.revenue);
    if revenue.Err? { return Err(revenue.error); }
    var restocked := t.restocked;
    if RecoversCogs(reversal.restockOutcome) {
      var credited := RestockLumpLoop(restocked, reversal, ledger);
      if credited.Err? { return Err(credited.error); }
      restocked := credited.value;
    }
    return Ok(Tallies(revenue.value, t.quantity, restocked, true,
      t.diagnostics + [Note(ReversalLinesAllocated, reversal)] + NoteIf(UnknownRestock(reversal.restockOutcome),
          RestockUnconfirmed, reversal)));
  }

  lemma {:induction false} ApplyReversalsFails(t: Tallies, reversals: seq<Reversal>, ledger: Ledger, i: nat, n: nat)
    requires i <= n <= |reversals| && ApplyReversals(t, reversals, ledger, i).Err?
    ensures ApplyReversals(t, reversals, ledger, n) == ApplyReversals(t, reversals, ledger, i)
  {
    hide ApplyReversal;
    if i < n { ApplyReversalsFails(t, reversals, ledger, i, n - 1); }
  }

  lemma {:induction false} FinalLinesFails(lines: seq<LineRevenue>, t: Tallies, ledger: Ledger, recognized: bool,
        i: nat, n: nat)
    requires i <= n <= |lines| && FinalLines(lines, t, ledger, recognized, i).Err?
    ensures FinalLines(lines, t, ledger, recognized, n) == FinalLines(lines, t, ledger, recognized, i)
  {
    hide FinalLine;
    if i < n { FinalLinesFails(lines, t, ledger, recognized, i, n - 1); }
  }

  method FinalLinesLoop(lines: seq<LineRevenue>, t: Tallies, ledger: Ledger, recognized: bool)
    returns (r: Result<seq<LineReversal>>)
    ensures r == FinalLines(lines, t, ledger, recognized, |lines|)
  {
    hide FinalLine;
    var out: seq<LineReversal> := [];
    for i := 0 to |lines|
      invariant FinalLines(lines, t, ledger, recognized, i) == Ok(out)
    {
      var line := FinalLine(lines[i], t, ledger, recognized);
      if line.Err? {
        FinalLinesFails(lines, t, ledger, recognized, i + 1, |lines|);
        return Err(line.error);
      }
      out := out + [line.value];
    }
    return Ok(out);
  }

  method ApplyReversalsLoop(start: Tallies, reversals: seq<Reversal>, ledger: Ledger) returns (r: Result<Tallies>)
    ensures r == ApplyReversals(start, reversals, ledger, |reversals|)
  {
    hide ApplyReversal;
    var t := start;
    for i := 0 to |reversals|
      invariant ApplyReversals(start, reversals, ledger, i) == Ok(t)
    {
      var next := ApplyReversalLoop(t, reversals[i], ledger);
      if next.Err? {
        ApplyReversalsFails(start, reversals, ledger, i + 1, |reversals|);
        return next;
      }
      t := next.value;
    }
    return Ok(t);
  }

  method ComputeReversalImpactLoop(
    reversals: seq<Reversal>, revenueLines: seq<LineRevenue>, ledger: Ledger,
    recognition: Recognition, shipments: seq<Shipment>, dispatched: bool)
    returns (r: Result<Computed<ReversalImpact>>)
    ensures r == ComputeReversalImpact(reversals, revenueLines, ledger, recognition, shipments, dispatched)
  {
    hide Summed, ApplyReversals, FinalLines;
    if UndispatchedRecovery(recognition, dispatched) {
      var credited := Summed(CreditedLines(revenueLines, ledger), false, true);
      if credited.Err? { return Err(credited.error); }
      return Ok(Computed(credited.value, []));
    }
    if recognition == CostOnly(RtoUncollected) {
      if !RtoGoodsRecovered(shipments) {
        return Ok(Computed(ReversalImpact(UntouchedLines(revenueLines), 0, 0, 0, false, false), [OnOrder(RestockUnconfirmed)]));
      }
      var credited := Summed(CreditedLines(revenueLines, ledger), false, true);
      if credited.Err? { return Err(credited.error); }
      return Ok(Computed(credited.value, []));
    }
    if reversals == [] {
      return Ok(Computed(ReversalImpact(UntouchedLines(revenueLines), 0, 0, 0, false, false), []));
    }
    var t := ApplyReversalsLoop(NoTallies(revenueLines), reversals, ledger);
    if t.Err? { return Err(t.error); }
    var lines := FinalLinesLoop(revenueLines, t.value, ledger, recognition.Recognized?);
    if lines.Err? { return Err(lines.error); }
    var impact := Summed(lines.value, t.value.isAllocated, false);
    if impact.Err? { return Err(impact.error); }
    return Ok(Computed(impact.value, t.value.diagnostics));
  }
}
