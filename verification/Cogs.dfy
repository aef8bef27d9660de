/** The cost of goods line by line: unit cost from the row of the product, or of the SKU, times quantity. */
module Cogs {
  import opened Prelude
  import opened Sequences
  import opened Sums
  import Arith
  import opened Money
  import opened Domain

  datatype CostIndex = CostIndex(byProductKey: map<string, ResolvedCost>, bySku: map<string, ResolvedCost>)

  datatype LineCogs = LineCogs(itemId: string, unitCost: int, cogs: int, source: CostSource,
      historyId: Option<string>, covered: bool)

  datatype OrderCogs = OrderCogs(lines: seq<LineCogs>, cogs: int, anyMissing: bool, anyEstimated: bool)

  function ProductKey(productId: string, variantId: Option<string>): string {
    productId + "|" + variantId.GetOr("")
  }

  function CostOf(item: Item, costs: CostIndex): Option<ResolvedCost> {
    var key := ProductKey(item.productId, item.variantId);
    if key in costs.byProductKey then Some(costs.byProductKey[key])
    else if item.sku.Some? && item.sku.value != "" && item.sku.value in costs.bySku then Some(costs.bySku[item.sku.value])
    else None
  }

  datatype Costed = Costed(lines: seq<LineCogs>, anyMissing: bool, anyEstimated: bool, diagnostics: seq<Diagnostic>)

  function CostLine(c: Costed, item: Item, costs: CostIndex): Result<Costed> {
    match CostOf(item, costs)
    case None =>
      Ok(Costed(c.lines + [LineCogs(item.id, 0, 0, NoSource, None, false)], true, c.anyEstimated,
                c.diagnostics + [Diagnostic(CostMissing, OfLine(item.id))]))
    case Some(cost) =>
      var exact := IsExact(cost.source);
      var cogs :- ToMinor(cost.unitCost * item.quantity);
      Ok(Costed(c.lines + [LineCogs(item.id, cost.unitCost, cogs, cost.source, Some(cost.historyId), exact)],
                c.anyMissing, c.anyEstimated || !exact,
                if exact then c.diagnostics else c.diagnostics + [Diagnostic(CostEstimated, OfLine(item.id))]))
  }

  function CostLines(items: seq<Item>, costs: CostIndex, n: nat): Result<Costed>
    requires n <= |items|
  {
    if n == 0 then Ok(Costed([], false, false, []))
    else
      var before :- CostLines(items, costs, n - 1);
      CostLine(before, items[n-1], costs)
  }

  function LineCosts(lines: seq<LineCogs>): (r: seq<int>)
    ensures |r| == |lines|
    ensures forall i :: 0 <= i < |lines| ==> r[i] == lines[i].cogs
  {
    Map((l: LineCogs) => l.cogs, lines)
  }

  function ComputeCogs(items: seq<Item>, costs: CostIndex): Result<Computed<OrderCogs>> {
    var c :- CostLines(items, costs, |items|);
    var total :- AddMinor(LineCosts(c.lines));
    Ok(Computed(OrderCogs(c.lines, total, c.anyMissing, c.anyEstimated), c.diagnostics))
  }

  method ComputeCogsLoop(items: seq<Item>, costs: CostIndex) returns (r: Result<Computed<OrderCogs>>)
    ensures r == ComputeCogs(items, costs)
  {
    var lines: seq<LineCogs>, anyMissing, anyEstimated := [], false, false;
    var diagnostics: seq<Diagnostic> := [];
    for i := 0 to |items|
      invariant CostLines(items, costs, i) == Ok(Costed(lines, anyMissing, anyEstimated, diagnostics))
    {
      var item := items[i];
      var resolved := CostOf(item, costs);
      if resolved.None? {
        anyMissing := true;
        diagnostics := diagnostics + [Diagnostic(CostMissing, OfLine(item.id))];
        lines := lines + [LineCogs(item.id, 0, 0, NoSource, None, false)];
        continue;
      }
      var exact := IsExact(resolved.value.source);
      if !exact {
        anyEstimated := true;
        diagnostics := diagnostics + [Diagnostic(CostEstimated, OfLine(item.id))];
      }
      var cogs := ToMinor(resolved.value.unitCost * item.quantity);
      if cogs.Err? {
        CostLinesFails(items, costs, i + 1, |items|);
        return Err(cogs.error);
      }
      lines := lines + [LineCogs(item.id, resolved.value.unitCost, cogs.value, resolved.value.source,
                                 Some(resolved.value.historyId), exact)];
    }
    var total := AddMinorLoop(LineCosts(lines));
    if total.Err? { return Err(total.error); }
    return Ok(Computed(OrderCogs(lines, total.value, anyMissing, anyEstimated), diagnostics));
  }

  lemma {:induction false} CostLinesFails(items: seq<Item>, costs: CostIndex, i: nat, n: nat)
    requires i <= n <= |items| && CostLines(items, costs, i).Err?
    ensures CostLines(items, costs, n) == CostLines(items, costs, i)
  {
    if i < n { CostLinesFails(items, costs, i, n - 1); }
  }

  // -------------------------------------------------------------------- laws

  ghost predicate Aligned(items: seq<Item>, lines: seq<LineCogs>) {
    |lines| == |items| && forall i :: 0 <= i < |items| ==> lines[i].itemId == items[i].id
  }

  ghost predicate CostsAreNonNegative(costs: CostIndex) {
    && (forall k :: k in costs.byProductKey ==> costs.byProductKey[k].unitCost >= 0)
    && (forall k :: k in costs.bySku ==> costs.bySku[k].unitCost >= 0)
  }

  /** What the cost line of one item holds. */
  ghost predicate CostsItem(line: LineCogs, item: Item, costs: CostIndex) {
    && line.itemId == item.id && line.cogs == line.unitCost * item.quantity && InRange(line.cogs)
    && (CostsAreNonNegative(costs) ==> line.unitCost >= 0)
  }

  lemma CostLineFacts(c: Costed, item: Item, costs: CostIndex)
    requires CostLine(c, item, costs).Ok?
    ensures var d := CostLine(c, item, costs).value;
      && |d.lines| == |c.lines| + 1 && d.lines[..|c.lines|] == c.lines
      && CostsItem(d.lines[|c.lines|], item, costs)
      && (d.anyMissing || d.anyEstimated || (d.diagnostics == c.diagnostics && !c.anyMissing && !c.anyEstimated))
  {
  }

  /** The cost lines follow the items, and whatever is missing or estimated is flagged. */
  lemma {:induction false} CostLinesFacts(items: seq<Item>, costs: CostIndex, n: nat)
    requires n <= |items| && CostLines(items, costs, n).Ok?
    ensures var c := CostLines(items, costs, n).value;
      && |c.lines| == n
      && (forall i :: 0 <= i < n ==> CostsItem(c.lines[i], items[i], costs))
      && (c.anyMissing || c.anyEstimated || c.diagnostics == [])
  {
    if n > 0 {
      CostLinesFacts(items, costs, n - 1);
      var before := CostLines(items, costs, n - 1).value;
      CostLineFacts(before, items[n-1], costs);
      var lines := CostLines(items, costs, n).value.lines;
      hide *;
      forall i | 0 <= i < n ensures CostsItem(lines[i], items[i], costs) {
        if i < n - 1 { assert lines[i] == lines[..n-1][i]; }
      }
    }
  }

  /** The order's cost of goods is the sum of its lines'. */
  lemma CogsTies(items: seq<Item>, costs: CostIndex)
    requires ComputeCogs(items, costs).Ok?
    ensures var c := ComputeCogs(items, costs).value.value;
      Aligned(items, c.lines) && c.cogs == Sum(LineCosts(c.lines))
  {
    CostLinesFacts(items, costs, |items|);
    AddMinorIsSum(LineCosts(CostLines(items, costs, |items|).value.lines));
  }

  /** With recorded costs and quantities non-negative, no line's cost of goods is negative. */
  lemma CogsNonNegative(items: seq<Item>, costs: CostIndex)
    requires ComputeCogs(items, costs).Ok? && CostsAreNonNegative(costs)
    requires forall i :: 0 <= i < |items| ==> items[i].quantity >= 0
    ensures var c := ComputeCogs(items, costs).value.value;
      Aligned(items, c.lines) && forall i :: 0 <= i < |items| ==> c.lines[i].cogs >= 0
  {
    CostLinesFacts(items, costs, |items|);
    var lines := ComputeCogs(items, costs).value.value.lines;
    forall i | 0 <= i < |items| ensures lines[i].cogs >= 0 {
      Arith.ProductSign(lines[i].unitCost, items[i].quantity);
    }
  }
}
