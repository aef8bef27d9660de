/** What refunds and returns take off each line, and which goods they bring back into stock. */
module Reversals {
  import opened Prelude
  import opened Sequences
  import opened Sums
  import opened Money
  import opened Domain
  import opened Doubles
  import opened Allocation
  import opened CappedSpread
  import opened Cogs
  import opened Revenue

  datatype LineReversal = LineReversal(itemId: string, quantity: int, revenue: int, restocked: int, impact: int)

  datatype ReversalImpact = ReversalImpact(
    lines: seq<LineReversal>, revenue: int, restocked: int, impact: int, isAllocated: bool, inferredRestock: bool)

  /** What every reversal is applied against: the lines as buckets, their costs, and what was ordered. */
  datatype Ledger = Ledger(buckets: seq<Bucket>, costs: map<string, LineCogs>, quantities: map<string, int>,
      cogsLines: seq<LineCogs>)

  /** The running totals by line, and what has been reported so far. */
  datatype Tallies = Tallies(
    revenue: map<string, int>, quantity: map<string, int>, restocked: map<string, int>,
    isAllocated: bool, diagnostics: seq<Diagnostic>)

  predicate RecoversCogs(outcome: RestockOutcome) { outcome.RestockedSellable? }

  predicate UnknownRestock(outcome: RestockOutcome) { outcome.PendingReceipt? || outcome.RestockUnknown? }

  function Note(code: Code, reversal: Reversal): Diagnostic { Diagnostic(code, OfReversal(reversal.id)) }

  function NoteIf(condition: bool, code: Code, reversal: Reversal): seq<Diagnostic> {
    if condition then [Note(code, reversal)] else []
  }

  // ------------------------------------------------------------ line detail

  datatype LineWork = LineWork(tallies: Tallies, unmatched: int)

  function UnitCost(ledger: Ledger, id: string): int {
    if id in ledger.costs then ledger.costs[id].unitCost else 0
  }

  /** What n units of a line cost. */
  function CostOfUnits(ledger: Ledger, id: string, n: int): int { UnitCost(ledger, id) * n }

  /** The units of a line still returnable, of those a reversal line claims. */
  function Creditable(ordered: int, already: int, claimed: int): int {
    Max(0, Min(claimed, ordered - already))
  }

  function ApplyLine(w: LineWork, line: ReversalLine, reversal: Reversal, ledger: Ledger): LineWork {
    var t, id := w.tallies, line.itemId;
    if id !in t.revenue then
      LineWork(t.(isAllocated := true, diagnostics := t.diagnostics + [Note(ReversalLineUnmatched, reversal)]),
               w.unmatched + line.amountExVat)
    else
      var already := Get(t.quantity, id);
      var creditable := Creditable(Get(ledger.quantities, id), already, line.quantity);
      LineWork(Tallies(
          t.revenue[id := Get(t.revenue, id) + line.amountExVat],
          t.quantity[id := already + creditable],
          if RecoversCogs(line.restockOutcome) then t.restocked[id := Get(t.restocked, id) + CostOfUnits(ledger, id, creditable)]
          else t.restocked,
          t.isAllocated,
          t.diagnostics + NoteIf(UnknownRestock(line.restockOutcome), RestockUnconfirmed, reversal)),
        w.unmatched)
  }

  function ApplyLines(w: LineWork, lines: seq<ReversalLine>, reversal: Reversal, ledger: Ledger, n: nat): LineWork
    requires n <= |lines|
  {
    if n == 0 then w else ApplyLine(ApplyLines(w, lines, reversal, ledger, n - 1), lines[n-1], reversal, ledger)
  }

  function Amounts(lines: seq<ReversalLine>): (r: seq<int>)
    ensures |r| == |lines|
    ensures forall i :: 0 <= i < |lines| ==> r[i] == lines[i].amountExVat
  {
    Map((l: ReversalLine) => l.amountExVat, lines)
  }

  function SpreadChecked(amount: int, buckets: seq<Bucket>, into: map<string, int>): Result<map<string, int>> {
    if amount == 0 then Ok(into)
    else
      var checked :- ToMinor(amount);
      Spread(checked, buckets, into)
  }

  function ApplyDetailed(t: Tallies, reversal: Reversal, lines: seq<ReversalLine>, orderLevel: int,
        ledger: Ledger): Result<Tallies> {
    var claimed :- AddMinor(Amounts(lines));
    var mismatch := claimed != reversal.amountExVat;
    var start := t.(isAllocated := t.isAllocated || mismatch,
                    diagnostics := t.diagnostics + NoteIf(mismatch, ReversalTotalMismatch, reversal));
    var w := ApplyLines(LineWork(start, Max(0, reversal.amountExVat - claimed)), lines, reversal, ledger, |lines|);
    var spread :- SpreadChecked(w.unmatched, ledger.buckets, w.tallies.revenue);
    var revenue :- Spread(orderLevel, ledger.buckets, spread);
    Ok(w.tallies.(revenue := revenue, isAllocated := w.tallies.isAllocated || orderLevel != 0,
                  diagnostics := w.tallies.diagnostics + NoteIf(orderLevel != 0, ReversalLinesAllocated, reversal)))
  }

  // --------------------------------------------------------- no line detail

  function BucketWeights(buckets: seq<Bucket>): (r: seq<int>)
    ensures |r| == |buckets|
    ensures forall i :: 0 <= i < |buckets| ==> r[i] == buckets[i].weight
  {
    Map((b: Bucket) => b.weight, buckets)
  }

  /** The goods that come back with a lump refund: the full cost, prorated in doubles by the item revenue reversed. */
  function RestockLump(restocked: map<string, int>, reversal: Reversal, ledger: Ledger): Result<map<string, int>> {
    var itemsGross :- AddMinor(BucketWeights(ledger.buckets));
    if reversal.amountExVat > 0 && itemsGross > 0 then
      var fullCogs :- AddMinor(LineCosts(ledger.cogsLines));
      var share :- ToMinor(Prorate(fullCogs, reversal.amountExVat, itemsGross));
      SpreadCapped(share, ledger.buckets, restocked, ledger.costs)
    else Ok(restocked)
  }

  function ApplyLump(t: Tallies, reversal: Reversal, orderLevel: int, ledger: Ledger): Result<Tallies> {
    var total :- AddMinor([reversal.amountExVat, orderLevel]);
    var revenue :- Spread(total, ledger.buckets, t.revenue);
    var restocked :- if RecoversCogs(reversal.restockOutcome) then RestockLump(t.restocked, reversal, ledger)
        else Ok(t.restocked);
    Ok(Tallies(revenue, t.quantity, restocked, true,
               t.diagnostics + [Note(ReversalLinesAllocated, reversal)]
               + NoteIf(UnknownRestock(reversal.restockOutcome), RestockUnconfirmed, reversal)))
  }

  // ------------------------------------------------------------- all of them

  function OrderLevel(reversal: Reversal): Result<int> {
    AddMinor([reversal.shippingRefundExVat, reversal.codFeeRefundExVat, reversal.adjustmentExVat])
  }

  function ApplyReversal(t: Tallies, reversal: Reversal, ledger: Ledger): Result<Tallies> {
    var orderLevel :- OrderLevel(reversal);
    match reversal.lines
    case Some(lines) => ApplyDetailed(t, reversal, lines, orderLevel, ledger)
    case None => ApplyLump(t, reversal, orderLevel, ledger)
  }

  function ApplyReversals(t: Tallies, reversals: seq<Reversal>, ledger: Ledger, n: nat): Result<Tallies>
    requires n <= |reversals|
  {
    if n == 0 then Ok(t)
    else
      var before :- ApplyReversals(t, reversals, ledger, n - 1);
      ApplyReversal(before, reversals[n-1], ledger)
  }

  // ------------------------------------------------------------- the outcome

  function FinalLine(line: LineRevenue, t: Tallies, ledger: Ledger, recognized: bool): Result<LineReversal> {
    var id := line.itemId;
    var revenue :- if recognized then ToMinor(Get(t.revenue, id)) else Ok(0);
    var cogsBack :- ToMinor(Max(0, Min(Get(t.restocked, id), LineCost(ledger.costs, id))));
    var minusRevenue :- NegateMinor(revenue);
    var impact :- AddMinor([minusRevenue, cogsBack]);
    Ok(LineReversal(id, Min(Get(t.quantity, id), Get(ledger.quantities, id)), revenue, cogsBack, impact))
  }

  function FinalLines(lines: seq<LineRevenue>, t: Tallies, ledger: Ledger, recognized: bool,
        n: nat): Result<seq<LineReversal>>
    requires n <= |lines|
  {
    if n == 0 then Ok([])
    else
      var before :- FinalLines(lines, t, ledger, recognized, n - 1);
      var line :- FinalLine(lines[n-1], t, ledger, recognized);
      Ok(before + [line])
  }

  function Revenues(lines: seq<LineReversal>): (r: seq<int>)
    ensures |r| == |lines|
    ensures forall i :: 0 <= i < |lines| ==> r[i] == lines[i].revenue
  {
    Map((l: LineReversal) => l.revenue, lines)
  }

  function Restocks(lines: seq<LineReversal>): (r: seq<int>)
    ensures |r| == |lines|
    ensures forall i :: 0 <= i < |lines| ==> r[i] == lines[i].restocked
  {
    Map((l: LineReversal) => l.restocked, lines)
  }

  function Impacts(lines: seq<LineReversal>): (r: seq<int>)
    ensures |r| == |lines|
    ensures forall i :: 0 <= i < |lines| ==> r[i] == lines[i].impact
  {
    Map((l: LineReversal) => l.impact, lines)
  }

  function Summed(lines: seq<LineReversal>, isAllocated: bool, inferred: bool): Result<ReversalImpact> {
    var revenue :- AddMinor(Revenues(lines));
    var restocked :- AddMinor(Restocks(lines));
    var impact :- AddMinor(Impacts(lines));
    Ok(ReversalImpact(lines, revenue, restocked, impact, isAllocated, inferred))
  }

  function UntouchedLines(lines: seq<LineRevenue>): (r: seq<LineReversal>)
    ensures |r| == |lines|
    ensures forall i :: 0 <= i < |lines| ==> r[i] == LineReversal(lines[i].itemId, 0, 0, 0, 0)
  {
    Map((l: LineRevenue) => LineReversal(l.itemId, 0, 0, 0, 0), lines)
  }

  /** Everything came back: each line returns what it cost. */
  function CreditedLines(lines: seq<LineRevenue>, ledger: Ledger): (r: seq<LineReversal>)
    ensures |r| == |lines|
    ensures forall i :: 0 <= i < |lines| ==>
      var id := lines[i].itemId;
      r[i] == LineReversal(id, Get(ledger.quantities, id), 0, LineCost(ledger.costs, id), LineCost(ledger.costs, id))
  {
    Map((l: LineRevenue) => LineReversal(l.itemId, Get(ledger.quantities, l.itemId), 0,
                                         LineCost(ledger.costs, l.itemId), LineCost(ledger.costs, l.itemId)), lines)
  }

  predicate RtoGoodsRecovered(shipments: seq<Shipment>) {
    exists s :: s in shipments && s.direction.Return? && (s.status.ReturnedToOrigin? || s.status.DeliveredParcel?)
  }

  /** Nothing left the warehouse, so nothing was consumed. */
  predicate UndispatchedRecovery(recognition: Recognition, dispatched: bool) {
    && recognition.CostOnly? && !dispatched
    && (recognition.reason.CancelledAfterCapture? || recognition.reason.CancelledAfterDispatch?
        || recognition.reason.PaymentNotSettled?)
  }

  function LedgerOf(revenueLines: seq<LineRevenue>, cogsLines: seq<LineCogs>, quantities: map<string, int>,
        weights: map<string, int>): Ledger {
    Ledger(Map((l: LineRevenue) => Bucket(l.itemId, Get(weights, l.itemId)), revenueLines),
           TableOf(Map((l: LineCogs) => l.itemId, cogsLines), cogsLines), quantities, cogsLines)
  }

  function ZeroTally(lines: seq<LineRevenue>): map<string, int> {
    map i | 0 <= i < |lines| :: lines[i].itemId := 0
  }

  function NoTallies(lines: seq<LineRevenue>): Tallies {
    Tallies(ZeroTally(lines), ZeroTally(lines), ZeroTally(lines), false, [])
  }

  function ComputeReversalImpact(
    reversals: seq<Reversal>, revenueLines: seq<LineRevenue>, ledger: Ledger,
    recognition: Recognition, shipments: seq<Shipment>, dispatched: bool): Result<Computed<ReversalImpact>>
  {
    if UndispatchedRecovery(recognition, dispatched) then
      var impact :- Summed(CreditedLines(revenueLines, ledger), false, true);
      Ok(Computed(impact, []))
    else if recognition == CostOnly(RtoUncollected) then
      if !RtoGoodsRecovered(shipments) then
        Ok(Computed(ReversalImpact(UntouchedLines(revenueLines), 0, 0, 0, false, false), [OnOrder(RestockUnconfirmed)]))
      else
        var impact :- Summed(CreditedLines(revenueLines, ledger), false, true);
        Ok(Computed(impact, []))
    else if reversals == [] then
      Ok(Computed(ReversalImpact(UntouchedLines(revenueLines), 0, 0, 0, false, false), []))
    else
      var t :- ApplyReversals(NoTallies(revenueLines), reversals, ledger, |reversals|);
      var lines :- FinalLines(revenueLines, t, ledger, recognition.Recognized?, |revenueLines|);
      var impact :- Summed(lines, t.isAllocated, false);
      Ok(Computed(impact, t.diagnostics))
  }
}
