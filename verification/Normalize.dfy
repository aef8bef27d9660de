/** The gate in front of the engine: what it rejects, and the canonical form of what it accepts. */
module Normalize {
  import opened Sequences
  import opened Sorting
  import opened Money
  import opened Domain
  import opened Fee
  import opened Cogs
  import opened Rules
  import opened Instants
  import Text

  datatype Normalized = Normalized(order: Order, items: seq<Item>, shipments: seq<Shipment>,
      reversals: seq<Reversal>, costs: CostIndex)

  const CURRENCY_CODES: set<string> := {"SAR", "AED", "KWD", "BHD", "USD"}

  function Flag(condition: bool, d: Diagnostic): seq<Diagnostic> { if condition then [d] else [] }

  /** One flag per value outside the money range. */
  function MoneyFlags(values: seq<int>, d: Diagnostic, n: nat): seq<Diagnostic>
    requires n <= |values|
  {
    if n == 0 then [] else MoneyFlags(values, d, n - 1) + Flag(!InRange(values[n-1]), d)
  }

  /** One flag per key that already occurred. */
  function RepeatFlags(keys: seq<string>, d: Diagnostic, n: nat): seq<Diagnostic>
    requires n <= |keys|
  {
    if n == 0 then [] else RepeatFlags(keys, d, n - 1) + Flag(keys[n-1] in keys[..n-1], d)
  }

  // ---------------------------------------------------------------- the rules

  function Formulas(rules: FeeRuleSet): seq<FeeFormula> {
    Map((r: GatewayRule) => r.formula, rules.gateway) + Map((r: CodRule) => r.formula, rules.cod)
  }

  function FormulaFlags(formulas: seq<FeeFormula>, n: nat): seq<Diagnostic>
    requires n <= |formulas|
  {
    if n == 0 then [] else FormulaFlags(formulas, n - 1) + Flag(!FormulaIsValid(formulas[n-1]), OnOrder(FeeRuleInvalid))
  }

  function ShippingCostFlags(rules: seq<ShippingRule>, n: nat): seq<Diagnostic>
    requires n <= |rules|
  {
    if n == 0 then []
    else ShippingCostFlags(rules, n - 1) + Flag(!InRange(rules[n-1].cost) || rules[n-1].cost < 0, OnOrder(FeeRuleInvalid))
  }

  function RuleFatals(rules: FeeRuleSet): seq<Diagnostic> {
    FormulaFlags(Formulas(rules), |Formulas(rules)|)
    + ShippingCostFlags(rules.shippingFallback, |rules.shippingFallback|)
    + RepeatFlags(GatewayKeys(rules.gateway), OnOrder(DuplicateRuleKey), |rules.gateway|)
    + RepeatFlags(CodKeys(rules.cod), OnOrder(DuplicateRuleKey), |rules.cod|)
    + RepeatFlags(ShippingKeys(rules.shippingFallback), OnOrder(DuplicateRuleKey), |rules.shippingFallback|)
  }

  // ---------------------------------------------------------------- the order

  function HeaderFatals(input: ProfitInput): seq<Diagnostic> {
    Flag(input.store.currency !in CURRENCY_CODES, OnOrder(MalformedInput))
    + Flag(input.order.currency != input.store.currency, OnOrder(CurrencyMismatch))
    + Flag(input.feeRuleSet.currency != input.store.currency, OnOrder(CurrencyMismatch))
    + Flag(input.store.timezone == "", OnOrder(InvalidTimezone))
    + Flag(!IsInstant(input.order.placedAt), OnOrder(MalformedTimestamp))
  }

  function OrderMoney(o: Order): (r: seq<int>)
    ensures |r| == 5
  {
    [o.subtotalExVat, o.vatAmount, o.shippingChargedExVat, o.codFeeChargedExVat, o.totalIncVat]
  }

  function ItemIds(items: seq<Item>): (r: seq<string>) ensures |r| == |items| { Map((i: Item) => i.id, items) }
  function LineIds(items: seq<Item>): (r: seq<string>) ensures |r| == |items| { Map((i: Item) => i.platformLineId, items) }
  function ShipmentIds(xs: seq<Shipment>): (r: seq<string>) ensures |r| == |xs| { Map((s: Shipment) => s.id, xs) }
  function ReversalIds(xs: seq<Reversal>): (r: seq<string>) ensures |r| == |xs| { Map((x: Reversal) => x.id, xs) }

  function QuantityFlags(quantity: int, subject: Subject): seq<Diagnostic> {
    if !Safe(quantity) then [Diagnostic(NonIntegerQuantity, subject)]
    else Flag(quantity < 0, Diagnostic(NegativeQuantity, subject))
  }

  function ItemMoney(i: Item): (r: seq<int>)
    ensures |r| == 4
  {
    [i.unitPriceExVat, i.grossLineExVat, i.lineDiscountExVat, i.lineTotalExVat]
  }

  function ItemFlags(order: Order, item: Item, idSeen: bool, lineSeen: bool): seq<Diagnostic> {
    var subject := OfLine(item.id);
    Flag(item.orderId != order.id, Diagnostic(ItemOrderIdMismatch, subject))
    + Flag(idSeen, Diagnostic(DuplicateItemId, subject))
    + Flag(lineSeen, Diagnostic(DuplicateItemId, subject))
    + QuantityFlags(item.quantity, subject)
    + MoneyFlags(ItemMoney(item), Diagnostic(NonIntegerMinorUnits, subject), 4)
  }

  function ItemFatals(order: Order, items: seq<Item>, n: nat): seq<Diagnostic>
    requires n <= |items|
  {
    if n == 0 then []
    else
      ItemFatals(order, items, n - 1)
      + ItemFlags(order, items[n-1], ItemIds(items)[n-1] in ItemIds(items)[..n-1], LineIds(items)[n-1] in LineIds(items)[..n-1])
  }

  function ReversalLineFlags(lines: seq<ReversalLine>, subject: Subject, n: nat): seq<Diagnostic>
    requires n <= |lines|
  {
    if n == 0 then []
    else
      ReversalLineFlags(lines, subject, n - 1)
      + QuantityFlags(lines[n-1].quantity, subject)
      + Flag(!InRange(lines[n-1].amountExVat), Diagnostic(NonIntegerMinorUnits, subject))
  }

  function LinesOf(r: Reversal): seq<ReversalLine> { r.lines.GetOr([]) }

  function ReversalFlags(order: Order, r: Reversal, seen: bool): seq<Diagnostic> {
    var subject := OfReversal(r.id);
    Flag(seen, Diagnostic(DuplicateItemId, subject))
    + Flag(r.orderId != order.id, Diagnostic(ReversalOrderIdMismatch, subject))
    + ReversalLineFlags(LinesOf(r), subject, |LinesOf(r)|)
  }

  function ReversalFatals(order: Order, reversals: seq<Reversal>, n: nat): seq<Diagnostic>
    requires n <= |reversals|
  {
    if n == 0 then []
    else
      ReversalFatals(order, reversals, n - 1)
      + ReversalFlags(order, reversals[n-1], ReversalIds(reversals)[n-1] in ReversalIds(reversals)[..n-1])
  }

  function ShipmentFlags(s: Shipment, seen: bool): seq<Diagnostic> {
    Flag(seen, Diagnostic(DuplicateItemId, OfShipment(s.id)))
    + Flag(s.carrierCost.Some? && !InRange(s.carrierCost.value), Diagnostic(NonIntegerMinorUnits, OfShipment(s.id)))
  }

  function ShipmentFatals(shipments: seq<Shipment>, n: nat): seq<Diagnostic>
    requires n <= |shipments|
  {
    if n == 0 then []
    else
      ShipmentFatals(shipments, n - 1)
      + ShipmentFlags(shipments[n-1], ShipmentIds(shipments)[n-1] in ShipmentIds(shipments)[..n-1])
  }

  // ---------------------------------------------------------------- the costs

  function CostKey(c: ResolvedCost): string { ProductKey(c.productId, c.variantId) }

  predicate HasSku(c: ResolvedCost) { c.sku.Some? && c.sku.value != "" }

  function SkuOf(c: ResolvedCost): string { c.sku.GetOr("") }

  /** The two indexes after the first n cost rows. */
  function IndexUpTo(costs: seq<ResolvedCost>, n: nat): CostIndex
    requires n <= |costs|
  {
    if n == 0 then CostIndex(map[], map[])
    else
      var before, c := IndexUpTo(costs, n - 1), costs[n-1];
      CostIndex(before.byProductKey[CostKey(c) := c], if HasSku(c) then before.bySku[SkuOf(c) := c] else before.bySku)
  }

  function CostFlags(before: CostIndex, c: ResolvedCost): seq<Diagnostic> {
    Flag(!InRange(c.unitCost), OnOrder(NonIntegerMinorUnits))
    + Flag(CostKey(c) in before.byProductKey, OnOrder(DuplicateCostKey))
    + Flag(HasSku(c) && SkuOf(c) in before.bySku, OnOrder(DuplicateCostKey))
  }

  function CostFatals(costs: seq<ResolvedCost>, n: nat): seq<Diagnostic>
    requires n <= |costs|
  {
    if n == 0 then [] else CostFatals(costs, n - 1) + CostFlags(IndexUpTo(costs, n - 1), costs[n-1])
  }

  // ------------------------------------------------------------------ verdict

  function Fatals(input: ProfitInput): seq<Diagnostic> {
    HeaderFatals(input)
    + RuleFatals(input.feeRuleSet)
    + MoneyFlags(OrderMoney(input.order), OnOrder(NonIntegerMinorUnits), 5)
    + ItemFatals(input.order, input.items, |input.items|)
    + ReversalFatals(input.order, input.reversals, |input.reversals|)
    + ShipmentFatals(input.shipments, |input.shipments|)
    + CostFatals(input.costs, |input.costs|)
  }

  predicate ByLineId(a: Item, b: Item) { !Text.Lt(b.platformLineId, a.platformLineId) }
  predicate ByShipmentId(a: Shipment, b: Shipment) { !Text.Lt(b.id, a.id) }
  predicate ByReversalId(a: Reversal, b: Reversal) { !Text.Lt(b.id, a.id) }

  function Canonical(input: ProfitInput): Normalized {
    Normalized(input.order, Sort(ByLineId, input.items), Sort(ByShipmentId, input.shipments),
               Sort(ByReversalId, input.reversals), IndexUpTo(input.costs, |input.costs|))
  }

  datatype Verdict = Accepted(normalized: Normalized) | Rejected(fatal: seq<Diagnostic>)

  function NormalizeAndValidate(input: ProfitInput): Verdict {
    if Fatals(input) != [] then Rejected(Fatals(input)) else Accepted(Canonical(input))
  }

  // --------------------------------------------------------------- the loops

  method RepeatFlagsLoop(keys: seq<string>, d: Diagnostic) returns (fatal: seq<Diagnostic>)
    ensures fatal == RepeatFlags(keys, d, |keys|)
  {
    fatal := [];
    var seen: set<string> := {};
    for i := 0 to |keys|
      invariant fatal == RepeatFlags(keys, d, i)
      invariant forall k :: k in seen <==> k in keys[..i]
    {
      assert keys[..i+1] == keys[..i] + [keys[i]];
      if keys[i] in seen { fatal := fatal + [d]; }
      seen := seen + {keys[i]};
    }
  }

  method ValidateFeeRuleSet(rules: FeeRuleSet) returns (fatal: seq<Diagnostic>)
    ensures fatal == RuleFatals(rules)
  {
    hide GatewayKey, CodKey, ShippingKey, RepeatFlags, FormulaIsValid;
    var formulas := Formulas(rules);
    fatal := [];
    for i := 0 to |formulas|
      invariant fatal == FormulaFlags(formulas, i)
    {
      if !FormulaIsValid(formulas[i]) { fatal := fatal + [OnOrder(FeeRuleInvalid)]; }
    }
    var shipping: seq<Diagnostic> := [];
    for i := 0 to |rules.shippingFallback|
      invariant shipping == ShippingCostFlags(rules.shippingFallback, i)
    {
      var cost := rules.shippingFallback[i].cost;
      if !InRange(cost) || cost < 0 { shipping := shipping + [OnOrder(FeeRuleInvalid)]; }
    }
    var gateway := RepeatFlagsLoop(GatewayKeys(rules.gateway), OnOrder(DuplicateRuleKey));
    var cod := RepeatFlagsLoop(CodKeys(rules.cod), OnOrder(DuplicateRuleKey));
    var fallback := RepeatFlagsLoop(ShippingKeys(rules.shippingFallback), OnOrder(DuplicateRuleKey));
    fatal := fatal + shipping + gateway + cod + fallback;
  }

  method ValidateItems(order: Order, items: seq<Item>) returns (fatal: seq<Diagnostic>)
    ensures fatal == ItemFatals(order, items, |items|)
  {
    hide ItemFlags, ItemIds, LineIds;
    fatal := [];
    var itemIds: set<string>, lineIds: set<string> := {}, {};
    ghost var ids, lines := ItemIds(items), LineIds(items);
    for i := 0 to |items|
      invariant fatal == ItemFatals(order, items, i)
      invariant forall k :: k in itemIds <==> k in ids[..i]
      invariant forall k :: k in lineIds <==> k in lines[..i]
    {
      IdsAt(items, i);
      assert ids[..i+1] == ids[..i] + [ids[i]] && lines[..i+1] == lines[..i] + [lines[i]];
      fatal := fatal + ItemFlags(order, items[i], items[i].id in itemIds, items[i].platformLineId in lineIds);
      itemIds := itemIds + {items[i].id};
      lineIds := lineIds + {items[i].platformLineId};
    }
  }

  lemma IdsAt(items: seq<Item>, i: nat)
    requires i < |items|
    ensures ItemIds(items)[i] == items[i].id && LineIds(items)[i] == items[i].platformLineId
  {
  }

  method ValidateReversals(order: Order, reversals: seq<Reversal>) returns (fatal: seq<Diagnostic>)
    ensures fatal == ReversalFatals(order, reversals, |reversals|)
  {
    hide ReversalFlags;
    fatal := [];
    var reversalIds: set<string> := {};
    ghost var ids := ReversalIds(reversals);
    for i := 0 to |reversals|
      invariant fatal == ReversalFatals(order, reversals, i)
      invariant forall k :: k in reversalIds <==> k in ids[..i]
    {
      assert ids[i] == reversals[i].id;
      assert ids[..i+1] == ids[..i] + [ids[i]];
      fatal := fatal + ReversalFlags(order, reversals[i], reversals[i].id in reversalIds);
      reversalIds := reversalIds + {reversals[i].id};
    }
  }

  method ValidateShipments(shipments: seq<Shipment>) returns (fatal: seq<Diagnostic>)
    ensures fatal == ShipmentFatals(shipments, |shipments|)
  {
    hide ShipmentFlags;
    fatal := [];
    var shipmentIds: set<string> := {};
    ghost var ids := ShipmentIds(shipments);
    for i := 0 to |shipments|
      invariant fatal == ShipmentFatals(shipments, i)
      invariant forall k :: k in shipmentIds <==> k in ids[..i]
    {
      assert ids[i] == shipments[i].id;
      assert ids[..i+1] == ids[..i] + [ids[i]];
      fatal := fatal + ShipmentFlags(shipments[i], shipments[i].id in shipmentIds);
      shipmentIds := shipmentIds + {shipments[i].id};
    }
  }

  method ValidateCosts(costs: seq<ResolvedCost>) returns (fatal: seq<Diagnostic>, index: CostIndex)
    ensures fatal == CostFatals(costs, |costs|) && index == IndexUpTo(costs, |costs|)
  {
    hide CostKey, SkuOf;
    fatal := [];
    var byProductKey: map<string, ResolvedCost>, bySku: map<string, ResolvedCost> := map[], map[];
    for i := 0 to |costs|
      invariant fatal == CostFatals(costs, i)
      invariant CostIndex(byProductKey, bySku) == IndexUpTo(costs, i)
    {
      var cost := costs[i];
      fatal := fatal + CostFlags(CostIndex(byProductKey, bySku), cost);
      byProductKey := byProductKey[CostKey(cost) := cost];
      if HasSku(cost) { bySku := bySku[SkuOf(cost) := cost]; }
    }
    index := CostIndex(byProductKey, bySku);
  }

  method NormalizeAndValidateLoop(input: ProfitInput) returns (v: Verdict)
    ensures v == NormalizeAndValidate(input)
  {
    hide HeaderFatals, RuleFatals, MoneyFlags, ItemFatals, ReversalFatals, ShipmentFatals, CostFatals, IndexUpTo,
      Sort;
    var fatal := HeaderFatals(input);
    var rules := ValidateFeeRuleSet(input.feeRuleSet);
    fatal := fatal + rules + MoneyFlags(OrderMoney(input.order), OnOrder(NonIntegerMinorUnits), 5);
    var items := ValidateItems(input.order, input.items);
    var reversals := ValidateReversals(input.order, input.reversals);
    var shipments := ValidateShipments(input.shipments);
    var costs, index := ValidateCosts(input.costs);
    fatal := fatal + items + reversals + shipments + costs;
    if fatal != [] { return Rejected(fatal); }
    return Accepted(Normalized(input.order, Sort(ByLineId, input.items), Sort(ByShipmentId, input.shipments),
                               Sort(ByReversalId, input.reversals), index));
  }
}
