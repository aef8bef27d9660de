/**
 * What reversals take off each single line: the money they name, a split of the money they do not,
 * the units they claim, and the goods that can be sold again.
 */
module TakeBackLaws {
  import opened Prelude
  import opened Sums
  import opened Money
  import opened Domain
  import opened Allocation
  import opened Allocator
  import opened Splits
  import opened CappedSpread
  import opened Reversals
  import opened ReversalLaws
  import opened LineShareLaws

  /** The ledger weighs the lines by those totals. */
  ghost predicate Weighs(ledger: Ledger, ids: seq<string>, totals: seq<int>) {
    ids != [] && Distinct(ids) && Keys(ledger.buckets) == ids && WeightsOf(ledger.buckets) == totals
  }

  // --------------------------------------------------------------- the money

  /** What the first n lines of a reversal take off the line with that id. */
  function NamedFor(lines: seq<ReversalLine>, id: string, n: nat): int
    requires n <= |lines|
  {
    if n == 0 then 0 else NamedFor(lines, id, n - 1) + if lines[n-1].itemId == id then lines[n-1].amountExVat else 0
  }

  /** What the first n lines take off lines the order does not have. */
  function NamedElsewhere(lines: seq<ReversalLine>, ids: seq<string>, n: nat): int
    requires n <= |lines|
  {
    if n == 0 then 0 else NamedElsewhere(lines, ids, n - 1) + if lines[n-1].itemId in ids then 0 else lines[n-1].amountExVat
  }

  /** What belongs to no line. */
  function Extras(r: Reversal): int { r.shippingRefundExVat + r.codFeeRefundExVat + r.adjustmentExVat }

  /** What the lines add up to. */
  function Claimed(lines: seq<ReversalLine>): int {
    if lines == [] then 0 else Claimed(lines[..|lines|-1]) + lines[|lines|-1].amountExVat
  }

  /** What the reversal reverses beyond what its lines claim, and what they claim of lines the order does not have. */
  function Residue(r: Reversal, lines: seq<ReversalLine>, ids: seq<string>): int {
    (if r.amountExVat > Claimed(lines) then r.amountExVat - Claimed(lines) else 0) + NamedElsewhere(lines, ids, |lines|)
  }

  ghost predicate TakesByLine(r: Reversal, lines: seq<ReversalLine>, ids: seq<string>, totals: seq<int>, take: seq<int>,
        residue: seq<int>, extra: seq<int>)
  {
    && |take| == |ids|
    && IsSplit(Residue(r, lines, ids), ids, totals, residue) && IsSplit(Extras(r), ids, totals, extra)
    && forall i :: 0 <= i < |ids| ==> take[i] == NamedFor(lines, ids[i], |lines|) + residue[i] + extra[i]
  }

  /**
   * What one reversal takes off each line. With line detail: what its lines name, and a split by the
   * items' totals of the rest; without: a split of all of it.
   */
  ghost predicate Takes(r: Reversal, ids: seq<string>, totals: seq<int>, take: seq<int>) {
    match r.lines
    case Some(lines) => exists residue, extra :: TakesByLine(r, lines, ids, totals, take, residue, extra)
    case None => IsSplit(r.amountExVat + Extras(r), ids, totals, take)
  }

  lemma NothingSplits(ids: seq<string>, totals: seq<int>, zeros: seq<int>)
    requires ids != [] && |ids| == |totals| == |zeros| && forall i :: 0 <= i < |zeros| ==> zeros[i] == 0
    ensures IsSplit(0, ids, totals, zeros)
  {
    hide Positive, Whole, Part;
    SumOfConstant(zeros, 0);
    PositiveSign(totals);
    forall i | 0 <= i < |ids| ensures Excess(0, totals, 0, i) == 0 { NothingIsExact(totals, i); }
  }

  lemma NothingIsExact(totals: seq<int>, i: nat)
    requires i < |totals|
    ensures Excess(0, totals, 0, i) == 0
  {
    assert 0 * Whole(totals) == 0 && 0 * Part(totals, i) == 0;
  }

  /** A spread raises every line by its share of the split. */
  lemma SpreadTakes(total: int, ledger: Ledger, ids: seq<string>, totals: seq<int>,
        into: map<string, int>) returns (split: seq<int>)
    requires Weighs(ledger, ids, totals) && Spread(total, ledger.buckets, into).Ok?
    ensures IsSplit(total, ids, totals, split)
    ensures forall i :: 0 <= i < |ids| ==> Get(Spread(total, ledger.buckets, into).value, ids[i]) == Get(into, ids[i]) + split[i]
  {
    hide Allocate, IsSplit, Distinct, Keys, WeightsOf, Get;
    if total == 0 {
      split := seq(|ids|, _ => 0);
      NothingSplits(ids, totals, split);
    } else {
      var shares := Allocate(total, ledger.buckets).value;
      AllocationSplits(total, ledger.buckets);
      AllocateHolds(total, ledger.buckets);
      split := Along(shares, ids);
      forall i | 0 <= i < |ids|
        ensures Get(AddUpTo(into, ledger.buckets, shares, |ledger.buckets|), ids[i]) == Get(into, ids[i]) + split[i]
      {
        AddedAll(into, ledger.buckets, shares, ids[i]);
      }
    }
  }

  lemma {:induction false} LinesName(w: LineWork, lines: seq<ReversalLine>, reversal: Reversal, ledger: Ledger,
        n: nat, ids: seq<string>)
    requires n <= |lines| && Covers(w.tallies.revenue, ids)
    ensures var v := ApplyLines(w, lines, reversal, ledger, n);
      && Covers(v.tallies.revenue, ids) && v.unmatched == w.unmatched + NamedElsewhere(lines, ids, n)
      && forall id :: id in ids ==> Get(v.tallies.revenue, id) == Get(w.tallies.revenue, id) + NamedFor(lines, id, n)
  {
    hide Creditable, CostOfUnits, RecoversCogs, UnknownRestock;
    if n > 0 { LinesName(w, lines, reversal, ledger, n - 1, ids); }
  }

  lemma {:induction false} ClaimedIsSum(lines: seq<ReversalLine>)
    ensures Sum(Reversals.Amounts(lines)) == Claimed(lines)
  {
    if lines != [] {
      var n := |lines| - 1;
      ClaimedIsSum(lines[..n]);
      assert Reversals.Amounts(lines) == Reversals.Amounts(lines[..n]) + [lines[n].amountExVat];
      SumSnoc(Reversals.Amounts(lines[..n]), lines[n].amountExVat);
    }
  }

  /** The line work of a reversal with detail. */
  function WorkOf(t: Tallies, r: Reversal, lines: seq<ReversalLine>): LineWork {
    var mismatch := Claimed(lines) != r.amountExVat;
    LineWork(t.(isAllocated := t.isAllocated
        || mismatch, diagnostics := t.diagnostics + NoteIf(mismatch, ReversalTotalMismatch, r)),
             Max(0, r.amountExVat - Claimed(lines)))
  }

  lemma DetailedSteps(t: Tallies, r: Reversal, lines: seq<ReversalLine>, orderLevel: int, ledger: Ledger)
    requires ApplyDetailed(t, r, lines, orderLevel, ledger).Ok?
    ensures var v := ApplyLines(WorkOf(t, r, lines), lines, r, ledger, |lines|);
      && SpreadChecked(v.unmatched, ledger.buckets, v.tallies.revenue).Ok?
      && var spread := SpreadChecked(v.unmatched, ledger.buckets, v.tallies.revenue).value;
        && Spread(orderLevel, ledger.buckets, spread).Ok?
        && ApplyDetailed(t, r, lines, orderLevel, ledger).value
          == v.tallies.(revenue := Spread(orderLevel, ledger.buckets, spread).value,
                        isAllocated := v.tallies.isAllocated || orderLevel != 0,
                        diagnostics := v.tallies.diagnostics + NoteIf(orderLevel != 0, ReversalLinesAllocated, r))
  {
    hide AddMinor, ApplyLines, Spread, SpreadChecked, NoteIf, Sum, Claimed;
    AddMinorIsSum(Reversals.Amounts(lines));
    ClaimedIsSum(lines);
  }

  lemma CheckedTakes(amount: int, ledger: Ledger, ids: seq<string>, totals: seq<int>,
        into: map<string, int>) returns (split: seq<int>)
    requires Weighs(ledger, ids, totals) && SpreadChecked(amount, ledger.buckets, into).Ok?
    ensures IsSplit(amount, ids, totals, split)
    ensures forall i :: 0 <= i < |ids| ==> Get(SpreadChecked(amount, ledger.buckets, into).value, ids[i]) == Get(into, ids[i]) + split[i]
  {
    hide IsSplit, Spread, Weighs, Get;
    if amount == 0 {
      split := seq(|ids|, _ => 0);
      WeighedLengths(ledger, ids, totals);
      NothingSplits(ids, totals, split);
    } else {
      split := SpreadTakes(amount, ledger, ids, totals, into);
    }
  }

  lemma WeighedLengths(ledger: Ledger, ids: seq<string>, totals: seq<int>)
    requires Weighs(ledger, ids, totals)
    ensures ids != [] && |ids| == |totals|
  {
  }

  lemma ExtrasAreOrderLevel(r: Reversal)
    requires OrderLevel(r).Ok?
    ensures OrderLevel(r).value == Extras(r)
  {
    hide AddMinor;
    Add3(r.shippingRefundExVat, r.codFeeRefundExVat, r.adjustmentExVat);
  }

  lemma ReversalTakes(t: Tallies, r: Reversal, ledger: Ledger, ids: seq<string>, totals: seq<int>) returns (take: seq<int>)
    requires Weighs(ledger, ids, totals) && Covers(t.revenue, ids) && ApplyReversal(t, r, ledger).Ok?
    ensures Takes(r, ids, totals, take) && |take| == |ids|
    ensures forall i :: 0 <= i < |ids| ==> Get(ApplyReversal(t, r, ledger).value.revenue, ids[i]) == Get(t.revenue, ids[i]) + take[i]
  {
    hide AddMinor, ApplyLines, Spread, SpreadChecked, IsSplit, Weighs, Covers, NoteIf, Get, RestockLump, OrderLevel,
      NamedFor, NamedElsewhere, Claimed;
    ExtrasAreOrderLevel(r);
    match r.lines {
      case Some(lines) =>
        DetailedSteps(t, r, lines, Extras(r), ledger);
        var w := WorkOf(t, r, lines);
        var v := ApplyLines(w, lines, r, ledger, |lines|);
        LinesName(w, lines, r, ledger, |lines|, ids);
        var residue := CheckedTakes(v.unmatched, ledger, ids, totals, v.tallies.revenue);
        var spread := SpreadChecked(v.unmatched, ledger.buckets, v.tallies.revenue).value;
        var extra := SpreadTakes(Extras(r), ledger, ids, totals, spread);
        SplitLengths(Residue(r, lines, ids), ids, totals, residue);
        SplitLengths(Extras(r), ids, totals, extra);
        take := seq(|ids|, i requires 0 <= i < |ids| => NamedFor(lines, ids[i], |lines|) + residue[i] + extra[i]);
        assert TakesByLine(r, lines, ids, totals, take, residue, extra);
      case None =>
        Add2(r.amountExVat, Extras(r));
        take := SpreadTakes(r.amountExVat + Extras(r), ledger, ids, totals, t.revenue);
        SplitLengths(r.amountExVat + Extras(r), ids, totals, take);
    }
  }

  lemma SplitLengths(total: int, ids: seq<string>, totals: seq<int>, split: seq<int>)
    requires IsSplit(total, ids, totals, split)
    ensures |split| == |ids|
  {
  }

  /** Line by line, the tally is what each reversal takes. */
  ghost predicate TakenBack(reversals: seq<Reversal>, ids: seq<string>, totals: seq<int>, takes: seq<seq<int>>,
        column: seq<int>) {
    && |takes| == |reversals| && |column| == |ids|
    && (forall r :: 0 <= r < |reversals| ==> |takes[r]| == |ids| && Takes(reversals[r], ids, totals, takes[r]))
    && (forall i :: 0 <= i < |ids| ==> column[i] == Sum(PartsOf(takes, i)))
  }

  lemma TakesGrow(reversals: seq<Reversal>, ids: seq<string>, totals: seq<int>, takes: seq<seq<int>>, column: seq<int>,
        r: Reversal, take: seq<int>, after: seq<int>)
    requires TakenBack(reversals, ids, totals, takes, column) && Takes(r, ids, totals, take) && |take| == |ids|
    requires |after| == |ids| && forall i :: 0 <= i < |ids| ==> after[i] == column[i] + take[i]
    ensures TakenBack(reversals + [r], ids, totals, takes + [take], after)
  {
    hide Takes;
    forall i | 0 <= i < |ids| ensures after[i] == Sum(PartsOf(takes + [take], i)) { PartsJoin(takes, take, i); }
  }

  lemma {:induction false} ReversalsTake(t: Tallies, reversals: seq<Reversal>, ledger: Ledger, n: nat,
        ids: seq<string>, totals: seq<int>)
    returns (takes: seq<seq<int>>)
    requires Weighs(ledger, ids, totals) && Covers(t.revenue, ids) && forall id :: id in ids ==> Get(t.revenue, id) == 0
    requires n <= |reversals| && ApplyReversals(t, reversals, ledger, n).Ok?
    ensures Covers(ApplyReversals(t, reversals, ledger, n).value.revenue, ids)
    ensures TakenBack(reversals[..n], ids, totals, takes, Along(ApplyReversals(t, reversals, ledger, n).value.revenue, ids))
  {
    hide ApplyReversal, Covers, Takes, Weighs, TakenBack, Get;
    if n == 0 {
      takes := [];
      NothingTaken(ids, totals, Along(t.revenue, ids));
    } else {
      var before := ReversalsTake(t, reversals, ledger, n - 1, ids, totals);
      var mid := ApplyReversals(t, reversals, ledger, n - 1).value;
      var take := ReversalTakes(mid, reversals[n-1], ledger, ids, totals);
      WeighedKeys(ledger, ids, totals);
      ReversalConserves(mid, reversals[n-1], ledger);
      TakesGrow(reversals[..n-1], ids, totals, before, Along(mid.revenue, ids), reversals[n-1], take,
                Along(ApplyReversals(t, reversals, ledger, n).value.revenue, ids));
      takes := before + [take];
      assert reversals[..n] == reversals[..n-1] + [reversals[n-1]];
    }
  }

  lemma NothingTaken(ids: seq<string>, totals: seq<int>, column: seq<int>)
    requires |column| == |ids| && forall i :: 0 <= i < |ids| ==> column[i] == 0
    ensures TakenBack([], ids, totals, [], column)
  {
  }

  lemma WeighedKeys(ledger: Ledger, ids: seq<string>, totals: seq<int>)
    requires Weighs(ledger, ids, totals)
    ensures Keys(ledger.buckets) == ids && ledger.buckets != [] && Distinct(Keys(ledger.buckets))
  {
  }

  // ----------------------------------------------------------------- the remarks

  /** Nobody knows yet whether the goods can be sold again. */
  ghost predicate Unknown(outcome: RestockOutcome) { outcome == PendingReceipt || outcome == RestockUnknown }

  ghost predicate NamesStranger(lines: seq<ReversalLine>, ids: seq<string>, n: nat)
    requires n <= |lines|
  {
    exists k :: 0 <= k < n && lines[k].itemId !in ids
  }

  ghost predicate LeavesOpen(lines: seq<ReversalLine>, ids: seq<string>, n: nat)
    requires n <= |lines|
  {
    exists k :: 0 <= k < n && lines[k].itemId in ids && Unknown(lines[k].restockOutcome)
  }

  /** What is remarked on a reversal. */
  ghost predicate Doubts(r: Reversal, ids: seq<string>, code: Code) {
    match r.lines
    case Some(lines) => (match code
      case ReversalTotalMismatch => Claimed(lines) != r.amountExVat
      case ReversalLineUnmatched => NamesStranger(lines, ids, |lines|)
      case RestockUnconfirmed => LeavesOpen(lines, ids, |lines|)
      case ReversalLinesAllocated => Extras(r) != 0
      case _ => false)
    case None => code == ReversalLinesAllocated || (code == RestockUnconfirmed && Unknown(r.restockOutcome))
  }

  /** Some of what a reversal takes off a line is the model's own arithmetic. */
  ghost predicate Allocates(r: Reversal, ids: seq<string>) {
    Doubts(r, ids, ReversalTotalMismatch) || Doubts(r, ids, ReversalLineUnmatched) || Doubts(r, ids, ReversalLinesAllocated)
  }

  ghost predicate Notes(after: seq<Diagnostic>, before: seq<Diagnostic>, r: Reversal, mismatch: bool, stranger: bool, open: bool,
        shared: bool)
  {
    forall d: Diagnostic :: d in after <==> d in before || (d.subject == OfReversal(r.id) && match d.code
      case ReversalTotalMismatch => mismatch
      case ReversalLineUnmatched => stranger
      case RestockUnconfirmed => open
      case ReversalLinesAllocated => shared
      case _ => false)
  }

  lemma LineNotes(w: LineWork, line: ReversalLine, r: Reversal, ledger: Ledger, ids: seq<string>)
    requires Covers(w.tallies.revenue, ids)
    ensures var v := ApplyLine(w, line, r, ledger).tallies;
      && (v.isAllocated <==> w.tallies.isAllocated || line.itemId !in ids)
      && Notes(v.diagnostics, w.tallies.diagnostics, r, false, line.itemId !in ids,
               line.itemId in ids && Unknown(line.restockOutcome), false)
  {
    hide Creditable, CostOfUnits;
  }

  lemma {:induction false} LinesNote(w: LineWork, lines: seq<ReversalLine>, r: Reversal, ledger: Ledger, n: nat, ids: seq<string>)
    requires n <= |lines| && Covers(w.tallies.revenue, ids)
    ensures var v := ApplyLines(w, lines, r, ledger, n).tallies;
      && (v.isAllocated <==> w.tallies.isAllocated || NamesStranger(lines, ids, n))
      && Notes(v.diagnostics, w.tallies.diagnostics, r, false, NamesStranger(lines, ids, n), LeavesOpen(lines, ids, n), false)
  {
    hide ApplyLine, Covers, Unknown;
    if n > 0 {
      LinesNote(w, lines, r, ledger, n - 1, ids);
      LinesName(w, lines, r, ledger, n - 1, ids);
      LineNotes(ApplyLines(w, lines, r, ledger, n - 1), lines[n-1], r, ledger, ids);
    }
  }

  lemma InNote(ds: seq<Diagnostic>, condition: bool, code: Code, r: Reversal, d: Diagnostic)
    ensures d in ds + NoteIf(condition, code, r) <==> d in ds || (condition && d == Diagnostic(code, OfReversal(r.id)))
  {
  }

  lemma DetailNotes(t: Tallies, r: Reversal, lines: seq<ReversalLine>, ledger: Ledger, ids: seq<string>, d: Diagnostic)
    requires Covers(t.revenue, ids) && r.lines == Some(lines) && ApplyDetailed(t, r, lines, Extras(r), ledger).Ok?
    ensures var after := ApplyDetailed(t, r, lines, Extras(r), ledger).value;
      && (after.isAllocated <==> t.isAllocated || Allocates(r, ids))
      && (d in after.diagnostics <==> d in t.diagnostics || (d.subject == OfReversal(r.id) && Doubts(r, ids, d.code)))
  {
    hide ApplyDetailed, ApplyLines, Spread, SpreadChecked, Covers, Claimed, NamesStranger, LeavesOpen, NoteIf;
    DetailedSteps(t, r, lines, Extras(r), ledger);
    var w := WorkOf(t, r, lines);
    LinesNote(w, lines, r, ledger, |lines|, ids);
    var v := ApplyLines(w, lines, r, ledger, |lines|).tallies;
    InNote(t.diagnostics, Claimed(lines) != r.amountExVat, ReversalTotalMismatch, r, d);
    InNote(v.diagnostics, Extras(r) != 0, ReversalLinesAllocated, r, d);
  }

  lemma LumpNotes(t: Tallies, r: Reversal, ledger: Ledger, ids: seq<string>, d: Diagnostic)
    requires r.lines.None? && ApplyLump(t, r, Extras(r), ledger).Ok?
    ensures var after := ApplyLump(t, r, Extras(r), ledger).value;
      && after.isAllocated && Allocates(r, ids)
      && (d in after.diagnostics <==> d in t.diagnostics || (d.subject == OfReversal(r.id) && Doubts(r, ids, d.code)))
  {
    hide AddMinor, Spread, RestockLump, NoteIf;
    InNote(t.diagnostics + [Note(ReversalLinesAllocated, r)], UnknownRestock(r.restockOutcome), RestockUnconfirmed, r, d);
  }

  lemma ReversalNotes(t: Tallies, r: Reversal, ledger: Ledger, ids: seq<string>, d: Diagnostic)
    requires Covers(t.revenue, ids) && ApplyReversal(t, r, ledger).Ok?
    ensures var after := ApplyReversal(t, r, ledger).value;
      && (after.isAllocated <==> t.isAllocated || Allocates(r, ids))
      && (d in after.diagnostics <==> d in t.diagnostics || (d.subject == OfReversal(r.id) && Doubts(r, ids, d.code)))
  {
    hide ApplyDetailed, ApplyLump, Covers, Allocates, Doubts, OrderLevel, Extras;
    ExtrasAreOrderLevel(r);
    if r.lines.Some? { DetailNotes(t, r, r.lines.value, ledger, ids, d); } else { LumpNotes(t, r, ledger, ids, d); }
  }

  /** A remark of some reversal. */
  ghost predicate Doubted(reversals: seq<Reversal>, ids: seq<string>, n: nat, d: Diagnostic)
    requires n <= |reversals|
  {
    exists k :: 0 <= k < n && d.subject == OfReversal(reversals[k].id) && Doubts(reversals[k], ids, d.code)
  }

  ghost predicate AnyAllocates(reversals: seq<Reversal>, ids: seq<string>, n: nat)
    requires n <= |reversals|
  {
    exists k :: 0 <= k < n && Allocates(reversals[k], ids)
  }

  /** Reversals are tallied under the order's own lines only. */
  lemma ReversalCovers(t: Tallies, r: Reversal, ledger: Ledger, ids: seq<string>)
    requires Covers(t.revenue, ids) && Keys(ledger.buckets) == ids && ApplyReversal(t, r, ledger).Ok?
    ensures Covers(ApplyReversal(t, r, ledger).value.revenue, ids)
  {
    hide AddMinor, ApplyLines, Spread, Covers, Keys, RestockLump, OrderLevel, Claimed, NamedFor, NamedElsewhere;
    if r.lines.Some? {
      var lines := r.lines.value;
      DetailedSteps(t, r, lines, OrderLevel(r).value, ledger);
      LinesName(WorkOf(t, r, lines), lines, r, ledger, |lines|, ids);
      var v := ApplyLines(WorkOf(t, r, lines), lines, r, ledger, |lines|);
      if v.unmatched != 0 { SpreadCovers(v.unmatched, ledger.buckets, v.tallies.revenue); }
      SpreadCovers(OrderLevel(r).value, ledger.buckets, SpreadChecked(v.unmatched, ledger.buckets, v.tallies.revenue).value);
    } else {
      SpreadCovers(AddMinor([r.amountExVat, OrderLevel(r).value]).value, ledger.buckets, t.revenue);
    }
  }

  lemma {:induction false} ReversalsNote(t: Tallies, reversals: seq<Reversal>, ledger: Ledger, n: nat, ids: seq<string>,
        d: Diagnostic)
    requires Covers(t.revenue, ids) && Keys(ledger.buckets) == ids && t.diagnostics == [] && !t.isAllocated
    requires n <= |reversals| && ApplyReversals(t, reversals, ledger, n).Ok?
    ensures var after := ApplyReversals(t, reversals, ledger, n).value;
      && Covers(after.revenue, ids) && (after.isAllocated <==> AnyAllocates(reversals, ids, n))
      && (d in after.diagnostics <==> Doubted(reversals, ids, n, d))
  {
    hide ApplyReversal, Covers, Doubts, Allocates, Keys;
    if n > 0 {
      ReversalsNote(t, reversals, ledger, n - 1, ids, d);
      var mid := ApplyReversals(t, reversals, ledger, n - 1).value;
      ReversalNotes(mid, reversals[n-1], ledger, ids, d);
      ReversalCovers(mid, reversals[n-1], ledger, ids);
    }
  }
}
