/** What the gate says of a rejected order: every fatal diagnostic stands for its own defect, and every defect has one. */
module GateLaws {
  import opened Prelude
  import opened Money
  import opened Domain
  import opened Fee
  import opened Normalize
  import Instants
  import Rules

  // ------------------------------------------------------------------ the rules

  /** A formula outside what the card may hold. */
  ghost predicate BadFormula(f: FeeFormula) {
    || f.percentBps < 0 || f.percentBps > 9_007_199_254_740_991 || f.feeVatBps < 0 || f.feeVatBps > 10_000
    || f.fixed < 0 || f.fixed > 900_719_925_474
    || (f.minFee.Some? && (f.minFee.value < 0 || f.minFee.value > 900_719_925_474))
    || (f.maxFee.Some? && (f.maxFee.value < 0 || f.maxFee.value > 900_719_925_474))
    || (f.minFee.Some? && f.maxFee.Some? && f.minFee.value > f.maxFee.value)
  }

  ghost predicate NotMoney(v: int) { v < -900_719_925_474 || v > 900_719_925_474 }

  ghost predicate InvalidRule(rules: FeeRuleSet) {
    || (exists r :: r in rules.gateway && BadFormula(r.formula)) || (exists r :: r in rules.cod && BadFormula(r.formula))
    || (exists r :: r in rules.shippingFallback && (r.cost < 0 || NotMoney(r.cost)))
  }

  /** What a column that says nothing is written as. */
  function Written(text: Option<string>): string { if text.Some? then text.value else "" }

  ghost predicate GatewayAlike(a: GatewayRule, b: GatewayRule) {
    a.instrument == b.instrument && a.scheme == b.scheme && Written(a.provider) == Written(b.provider)
  }

  function RateText(r: ShippingRule): string {
    Written(r.countryCode) + "|" + Written(r.region) + "|" + Written(r.carrier) + "|"
    + (match r.direction case ForOutbound => "outbound" case ForReturn => "return" case ForAny => "any")
  }

  /** Two rows of one table that say the same of which legs they are for. */
  ghost predicate RepeatedRule(rules: FeeRuleSet) {
    || (exists i, j :: 0 <= i < j < |rules.gateway| && GatewayAlike(rules.gateway[i], rules.gateway[j]))
    || (exists i, j :: 0 <= i < j < |rules.cod| && Written(rules.cod[i].carrier) == Written(rules.cod[j].carrier))
    || (exists i, j :: 0 <= i < j < |rules.shippingFallback| && RateText(rules.shippingFallback[i]) == RateText(rules.shippingFallback[j]))
  }

  lemma InFlag(condition: bool, e: Diagnostic, d: Diagnostic)
    ensures d in Flag(condition, e) <==> condition && d == e
  {
  }

  /** Some key occurs twice. */
  ghost predicate Repeats(keys: seq<string>, n: nat)
    requires n <= |keys|
  {
    exists i, j :: 0 <= i < j < n && keys[i] == keys[j]
  }

  lemma {:induction false} RepeatsFlagged(keys: seq<string>, e: Diagnostic, n: nat, d: Diagnostic)
    requires n <= |keys|
    ensures d in RepeatFlags(keys, e, n) <==> d == e && Repeats(keys, n)
  {
    if n > 0 {
      RepeatsFlagged(keys, e, n - 1, d);
      InFlag(keys[n-1] in keys[..n-1], e, d);
      if keys[n-1] in keys[..n-1] {
        var i :| 0 <= i < n - 1 && keys[i] == keys[n-1];
        assert Repeats(keys, n);
      }
    }
  }

  lemma {:induction false} FormulasFlagged(formulas: seq<FeeFormula>, n: nat, d: Diagnostic)
    requires n <= |formulas|
    ensures d in FormulaFlags(formulas, n) <==> d == OnOrder(FeeRuleInvalid) && exists i :: 0 <= i < n && BadFormula(formulas[i])
  {
    if n > 0 {
      FormulasFlagged(formulas, n - 1, d);
      assert FormulaIsValid(formulas[n-1]) <==> !BadFormula(formulas[n-1]);
    }
  }

  lemma {:induction false} RatesFlagged(rules: seq<ShippingRule>, n: nat, d: Diagnostic)
    requires n <= |rules|
    ensures d in ShippingCostFlags(rules, n) <==>
      d == OnOrder(FeeRuleInvalid) && exists i :: 0 <= i < n && (rules[i].cost < 0 || NotMoney(rules[i].cost))
  {
    if n > 0 { RatesFlagged(rules, n - 1, d); }
  }

  lemma BarComesNoSooner(a: string, b: string, x: string, y: string)
    requires '|' !in b && a + "|" + x == b + "|" + y
    ensures |b| <= |a|
  {
    assert (a + "|" + x)[|a|] == '|';
  }

  /** Text before the first bar is read off unambiguously. */
  lemma BeforeBar(a: string, b: string, x: string, y: string)
    requires '|' !in a && '|' !in b && a + "|" + x == b + "|" + y
    ensures a == b && x == y
  {
    BarComesNoSooner(a, b, x, y);
    BarComesNoSooner(b, a, y, x);
    var s := a + "|" + x;
    assert a == s[..|a|] == b;
    assert x == s[|a|+1..] == y;
  }

  lemma InstrumentNames(a: Option<Instrument>, b: Option<Instrument>)
    ensures var x, y := if a.Some? then Rules.InstrumentName(a.value) else "", if b.Some?
        then Rules.InstrumentName(b.value) else "";
      '|' !in x && (x == y <==> a == b)
  {
    var x, y := if a.Some? then Rules.InstrumentName(a.value) else "", if b.Some? then Rules.InstrumentName(b.value) else "";
    assert x == y && |x| > 1 ==> x[0] == y[0] && x[1] == y[1];
  }

  lemma SchemeNames(a: Option<Scheme>, b: Option<Scheme>)
    ensures var x, y := if a.Some? then Rules.SchemeName(a.value) else "", if b.Some? then Rules.SchemeName(b.value) else "";
      '|' !in x && (x == y <==> a == b)
  {
    var x, y := if a.Some? then Rules.SchemeName(a.value) else "", if b.Some? then Rules.SchemeName(b.value) else "";
    assert x == y && |x| > 1 ==> x[0] == y[0] && x[1] == y[1];
  }

  lemma GatewayKeysTell(a: GatewayRule, b: GatewayRule)
    ensures Rules.GatewayKey(a) == Rules.GatewayKey(b) <==> GatewayAlike(a, b)
  {
    hide Rules.InstrumentName, Rules.SchemeName;
    var i, j := if a.instrument.Some? then Rules.InstrumentName(a.instrument.value) else "", if b.instrument.Some?
        then Rules.InstrumentName(b.instrument.value) else "";
    var s, t := if a.scheme.Some? then Rules.SchemeName(a.scheme.value) else "", if b.scheme.Some?
        then Rules.SchemeName(b.scheme.value) else "";
    var p, q := Written(a.provider), Written(b.provider);
    InstrumentNames(a.instrument, b.instrument);
    InstrumentNames(b.instrument, a.instrument);
    SchemeNames(a.scheme, b.scheme);
    SchemeNames(b.scheme, a.scheme);
    Grouped(i, s, p);
    Grouped(j, t, q);
    assert Rules.GatewayKey(a) == i + "|" + (s + "|" + p) && Rules.GatewayKey(b) == j + "|" + (t + "|" + q);
    if Rules.GatewayKey(a) == Rules.GatewayKey(b) {
      BeforeBar(i, j, s + "|" + p, t + "|" + q);
      BeforeBar(s, t, p, q);
    }
  }

  lemma Grouped(i: string, s: string, p: string)
    ensures i + "|" + s + "|" + p == i + "|" + (s + "|" + p)
  {
  }

  lemma RateTexts(r: ShippingRule)
    ensures Rules.ShippingKey(r) == RateText(r)
  {
  }

  lemma FormulasOfBoth(rules: FeeRuleSet)
    ensures (exists i :: 0 <= i < |Formulas(rules)| && BadFormula(Formulas(rules)[i])) <==>
      (exists r :: r in rules.gateway && BadFormula(r.formula)) || (exists r :: r in rules.cod && BadFormula(r.formula))
  {
    hide BadFormula;
    var formulas, n := Formulas(rules), |rules.gateway|;
    if i :| 0 <= i < |formulas| && BadFormula(formulas[i]) {
      if i < n { assert rules.gateway[i] in rules.gateway; } else { assert rules.cod[i-n] in rules.cod; }
    }
    if r :| r in rules.gateway && BadFormula(r.formula) {
      var i :| 0 <= i < n && rules.gateway[i] == r;
      assert BadFormula(formulas[i]);
    }
    if r :| r in rules.cod && BadFormula(r.formula) {
      var i :| 0 <= i < |rules.cod| && rules.cod[i] == r;
      assert BadFormula(formulas[n + i]);
    }
  }

  lemma RulesFlagged(rules: FeeRuleSet, d: Diagnostic)
    ensures d in RuleFatals(rules) <==>
      (d == OnOrder(FeeRuleInvalid) && InvalidRule(rules)) || (d == OnOrder(DuplicateRuleKey) && RepeatedRule(rules))
  {
    hide FormulaFlags, ShippingCostFlags, RepeatFlags, BadFormula, NotMoney, GatewayAlike, RateText,
      Rules.GatewayKey, Rules.ShippingKey, Formulas;
    FormulasFlagged(Formulas(rules), |Formulas(rules)|, d);
    FormulasOfBoth(rules);
    RatesFlagged(rules.shippingFallback, |rules.shippingFallback|, d);
    RepeatsFlagged(Rules.GatewayKeys(rules.gateway), OnOrder(DuplicateRuleKey), |rules.gateway|, d);
    RepeatsFlagged(Rules.CodKeys(rules.cod), OnOrder(DuplicateRuleKey), |rules.cod|, d);
    RepeatsFlagged(Rules.ShippingKeys(rules.shippingFallback), OnOrder(DuplicateRuleKey), |rules.shippingFallback|, d);
    RepeatedTexts(rules);
    InvalidRates(rules);
  }

  lemma InvalidRates(rules: FeeRuleSet)
    ensures (exists i :: 0 <= i < |rules.shippingFallback| && (rules.shippingFallback[i].cost < 0 || NotMoney(rules.shippingFallback[i].cost)))
      <==> exists r :: r in rules.shippingFallback && (r.cost < 0 || NotMoney(r.cost))
  {
  }

  lemma RepeatedTexts(rules: FeeRuleSet)
    ensures RepeatedRule(rules) <==>
      || Repeats(Rules.GatewayKeys(rules.gateway), |rules.gateway|) || Repeats(Rules.CodKeys(rules.cod), |rules.cod|)
      || Repeats(Rules.ShippingKeys(rules.shippingFallback), |rules.shippingFallback|)
  {
    hide Rules.GatewayKey, GatewayAlike, Rules.ShippingKey, RateText;
    forall i, j | 0 <= i < j < |rules.gateway|
      ensures Rules.GatewayKeys(rules.gateway)[i] == Rules.GatewayKeys(rules.gateway)[j]
          <==> GatewayAlike(rules.gateway[i], rules.gateway[j])
    {
      GatewayKeysTell(rules.gateway[i], rules.gateway[j]);
    }
    forall i | 0 <= i < |rules.shippingFallback|
      ensures Rules.ShippingKeys(rules.shippingFallback)[i] == RateText(rules.shippingFallback[i])
    {
      RateTexts(rules.shippingFallback[i]);
    }
    forall i | 0 <= i < |rules.cod| ensures Rules.CodKeys(rules.cod)[i] == Written(rules.cod[i].carrier) {}
  }

  // ------------------------------------------------------------------ the order

  ghost predicate BadMoney(o: Order) {
    NotMoney(o.subtotalExVat) || NotMoney(o.vatAmount) || NotMoney(o.shippingChargedExVat)
        || NotMoney(o.codFeeChargedExVat) || NotMoney(o.totalIncVat)
  }

  lemma {:induction false} MoneyFlagged(values: seq<int>, e: Diagnostic, n: nat, d: Diagnostic)
    requires n <= |values|
    ensures d in MoneyFlags(values, e, n) <==> d == e && exists i :: 0 <= i < n && NotMoney(values[i])
  {
    if n > 0 { MoneyFlagged(values, e, n - 1, d); }
  }

  lemma HeaderFlagged(input: ProfitInput, d: Diagnostic)
    ensures d in HeaderFatals(input) <==> d.subject == OfOrder && match d.code
      case MalformedInput => input.store.currency !in {"SAR", "AED", "KWD", "BHD", "USD"}
      case CurrencyMismatch => input.order.currency != input.store.currency || input.feeRuleSet.currency != input.store.currency
      case InvalidTimezone => input.store.timezone == ""
      case MalformedTimestamp => !Instants.IsInstant(input.order.placedAt)
      case _ => false
  {
    hide Instants.IsInstant;
  }

  lemma OrderMoneyFlagged(o: Order, d: Diagnostic)
    ensures d in MoneyFlags(OrderMoney(o), OnOrder(NonIntegerMinorUnits), 5)
        <==> d == OnOrder(NonIntegerMinorUnits) && BadMoney(o)
  {
    hide NotMoney;
    MoneyFlagged(OrderMoney(o), OnOrder(NonIntegerMinorUnits), 5, d);
    var m := OrderMoney(o);
    assert m[0] == o.subtotalExVat && m[1] == o.vatAmount && m[2] == o.shippingChargedExVat
        && m[3] == o.codFeeChargedExVat && m[4] == o.totalIncVat;
  }

  // ------------------------------------------------------------------ the items

  ghost predicate Unsafe(quantity: int) { quantity < -9_007_199_254_740_991 || quantity > 9_007_199_254_740_991 }

  /** An item before the n-th has the same id or the same line. */
  ghost predicate SeenBefore(items: seq<Item>, n: nat)
    requires n < |items|
  {
    exists i :: 0 <= i < n && (items[i].id == items[n].id || items[i].platformLineId == items[n].platformLineId)
  }

  /** What is wrong with the n-th item. */
  ghost predicate ItemDefect(order: Order, items: seq<Item>, n: nat, code: Code)
    requires n < |items|
  {
    match code
    case ItemOrderIdMismatch => items[n].orderId != order.id
    case DuplicateItemId => SeenBefore(items, n)
    case NonIntegerQuantity => Unsafe(items[n].quantity)
    case NegativeQuantity => !Unsafe(items[n].quantity) && items[n].quantity < 0
    case NonIntegerMinorUnits => NotMoney(items[n].unitPriceExVat) || NotMoney(items[n].grossLineExVat)
                                 || NotMoney(items[n].lineDiscountExVat) || NotMoney(items[n].lineTotalExVat)
    case _ => false
  }

  lemma QuantityFlagged(quantity: int, subject: Subject, d: Diagnostic)
    ensures d in QuantityFlags(quantity, subject) <==>
      && d.subject == subject
      && ((d.code == NonIntegerQuantity && Unsafe(quantity)) || (d.code == NegativeQuantity && !Unsafe(quantity) && quantity < 0))
  {
  }

  lemma ItemMoneyFlagged(i: Item, subject: Subject, d: Diagnostic)
    ensures d in MoneyFlags(ItemMoney(i), Diagnostic(NonIntegerMinorUnits, subject), 4) <==>
      && d == Diagnostic(NonIntegerMinorUnits, subject)
      && (NotMoney(i.unitPriceExVat) || NotMoney(i.grossLineExVat) || NotMoney(i.lineDiscountExVat) || NotMoney(i.lineTotalExVat))
  {
    hide NotMoney;
    var m := ItemMoney(i);
    MoneyFlagged(m, Diagnostic(NonIntegerMinorUnits, subject), 4, d);
    assert m[0] == i.unitPriceExVat && m[1] == i.grossLineExVat && m[2] == i.lineDiscountExVat && m[3] == i.lineTotalExVat;
  }

  lemma ItemFlagged(order: Order, items: seq<Item>, n: nat, d: Diagnostic)
    requires n < |items|
    ensures d in ItemFlags(order, items[n], ItemIds(items)[n] in ItemIds(items)[..n],
        LineIds(items)[n] in LineIds(items)[..n]) <==>
      d.subject == OfLine(items[n].id) && ItemDefect(order, items, n, d.code)
  {
    hide MoneyFlags, NotMoney, Flag, QuantityFlags, ItemMoney, ItemIds, LineIds, Unsafe, SeenBefore;
    var subject := OfLine(items[n].id);
    InFlag(items[n].orderId != order.id, Diagnostic(ItemOrderIdMismatch, subject), d);
    InFlag(ItemIds(items)[n] in ItemIds(items)[..n], Diagnostic(DuplicateItemId, subject), d);
    InFlag(LineIds(items)[n] in LineIds(items)[..n], Diagnostic(DuplicateItemId, subject), d);
    QuantityFlagged(items[n].quantity, subject, d);
    ItemMoneyFlagged(items[n], subject, d);
    SeenKeys(items, n);
  }

  lemma SeenKeys(items: seq<Item>, n: nat)
    requires n < |items|
    ensures SeenBefore(items, n) <==> ItemIds(items)[n] in ItemIds(items)[..n] || LineIds(items)[n] in LineIds(items)[..n]
  {
    var ids, lines := ItemIds(items), LineIds(items);
    assert forall i :: 0 <= i < |items| ==> ids[i] == items[i].id && lines[i] == items[i].platformLineId;
    if ids[n] in ids[..n] {
      var i :| 0 <= i < n && ids[..n][i] == ids[n];
      assert items[i].id == items[n].id;
    }
    if lines[n] in lines[..n] {
      var i :| 0 <= i < n && lines[..n][i] == lines[n];
      assert items[i].platformLineId == items[n].platformLineId;
    }
    if SeenBefore(items, n) {
      var i :| 0 <= i < n && (items[i].id == items[n].id || items[i].platformLineId == items[n].platformLineId);
      assert ids[..n][i] == ids[i] && lines[..n][i] == lines[i];
    }
  }

  ghost predicate ItemsDefect(order: Order, items: seq<Item>, n: nat, d: Diagnostic)
    requires n <= |items|
  {
    exists k :: 0 <= k < n && d.subject == OfLine(items[k].id) && ItemDefect(order, items, k, d.code)
  }

  lemma {:induction false} ItemsFlagged(order: Order, items: seq<Item>, n: nat, d: Diagnostic)
    requires n <= |items|
    ensures d in ItemFatals(order, items, n) <==> ItemsDefect(order, items, n, d)
  {
    hide ItemFlags, ItemDefect;
    if n > 0 {
      ItemsFlagged(order, items, n - 1, d);
      ItemFlagged(order, items, n - 1, d);
    }
  }

  // -------------------------------------------------------------- the reversals

  ghost predicate SeenId(ids: seq<string>, n: nat)
    requires n < |ids|
  {
    exists i :: 0 <= i < n && ids[i] == ids[n]
  }

  lemma SeenIsRepeat(ids: seq<string>, n: nat)
    requires n < |ids|
    ensures ids[n] in ids[..n] <==> SeenId(ids, n)
  {
    if SeenId(ids, n) {
      var i :| 0 <= i < n && ids[i] == ids[n];
      assert ids[..n][i] == ids[n];
    }
  }

  /** What is wrong with a line of a reversal. */
  ghost predicate ReversalLineDefect(l: ReversalLine, code: Code) {
    match code
    case NonIntegerQuantity => Unsafe(l.quantity)
    case NegativeQuantity => !Unsafe(l.quantity) && l.quantity < 0
    case NonIntegerMinorUnits => NotMoney(l.amountExVat)
    case _ => false
  }

  lemma {:induction false} ReversalLinesFlagged(lines: seq<ReversalLine>, subject: Subject, n: nat, d: Diagnostic)
    requires n <= |lines|
    ensures d in ReversalLineFlags(lines, subject, n) <==>
      d.subject == subject && exists k :: 0 <= k < n && ReversalLineDefect(lines[k], d.code)
  {
    if n > 0 {
      ReversalLinesFlagged(lines, subject, n - 1, d);
      LineFlagged(lines[n-1], subject, d);
      hide QuantityFlags, Flag, ReversalLineDefect;
    }
  }

  lemma LineFlagged(l: ReversalLine, subject: Subject, d: Diagnostic)
    ensures (d in QuantityFlags(l.quantity, subject)
        || d in Flag(!InRange(l.amountExVat), Diagnostic(NonIntegerMinorUnits, subject)))
      <==> (d.subject == subject && ReversalLineDefect(l, d.code))
  {
  }

  /** What is wrong with the n-th reversal. */
  ghost predicate ReversalDefect(order: Order, reversals: seq<Reversal>, n: nat, code: Code)
    requires n < |reversals|
  {
    || (code == DuplicateItemId && exists i :: 0 <= i < n && reversals[i].id == reversals[n].id)
    || (code == ReversalOrderIdMismatch && reversals[n].orderId != order.id)
    || (reversals[n].lines.Some? && exists l :: l in reversals[n].lines.value && ReversalLineDefect(l, code))
  }

  ghost predicate ReversalsDefect(order: Order, reversals: seq<Reversal>, n: nat, d: Diagnostic)
    requires n <= |reversals|
  {
    exists k :: 0 <= k < n && d.subject == OfReversal(reversals[k].id) && ReversalDefect(order, reversals, k, d.code)
  }

  lemma ReversalFlagged(order: Order, reversals: seq<Reversal>, n: nat, d: Diagnostic)
    requires n < |reversals|
    ensures d in ReversalFlags(order, reversals[n], ReversalIds(reversals)[n] in ReversalIds(reversals)[..n]) <==>
      d.subject == OfReversal(reversals[n].id) && ReversalDefect(order, reversals, n, d.code)
  {
    hide ReversalLineFlags, ReversalLineDefect;
    var r, subject, ids := reversals[n], OfReversal(reversals[n].id), ReversalIds(reversals);
    ReversalLinesFlagged(LinesOf(r), subject, |LinesOf(r)|, d);
    SeenIsRepeat(ids, n);
    assert forall i :: 0 <= i < |ids| ==> ids[i] == reversals[i].id;
    assert SeenId(ids, n) <==> exists i :: 0 <= i < n && reversals[i].id == reversals[n].id;
    InFlag(ids[n] in ids[..n], Diagnostic(DuplicateItemId, subject), d);
    InFlag(r.orderId != order.id, Diagnostic(ReversalOrderIdMismatch, subject), d);
  }

  lemma {:induction false} ReversalsFlagged(order: Order, reversals: seq<Reversal>, n: nat, d: Diagnostic)
    requires n <= |reversals|
    ensures d in ReversalFatals(order, reversals, n) <==> ReversalsDefect(order, reversals, n, d)
  {
    hide ReversalFlags, ReversalDefect;
    if n > 0 {
      ReversalsFlagged(order, reversals, n - 1, d);
      ReversalFlagged(order, reversals, n - 1, d);
    }
  }

  // -------------------------------------------------------- shipments and costs

  ghost predicate ShipmentDefect(shipments: seq<Shipment>, n: nat, code: Code)
    requires n < |shipments|
  {
    || (code == DuplicateItemId && exists i :: 0 <= i < n && shipments[i].id == shipments[n].id)
    || (code == NonIntegerMinorUnits && shipments[n].carrierCost.Some? && NotMoney(shipments[n].carrierCost.value))
  }

  ghost predicate ShipmentsDefect(shipments: seq<Shipment>, n: nat, d: Diagnostic)
    requires n <= |shipments|
  {
    exists k :: 0 <= k < n && d.subject == OfShipment(shipments[k].id) && ShipmentDefect(shipments, k, d.code)
  }

  lemma ShipmentFlagged(shipments: seq<Shipment>, n: nat, d: Diagnostic)
    requires n < |shipments|
    ensures d in ShipmentFlags(shipments[n], ShipmentIds(shipments)[n] in ShipmentIds(shipments)[..n]) <==>
      d.subject == OfShipment(shipments[n].id) && ShipmentDefect(shipments, n, d.code)
  {
    var s, ids := shipments[n], ShipmentIds(shipments);
    SeenIsRepeat(ids, n);
    assert forall i :: 0 <= i < |ids| ==> ids[i] == shipments[i].id;
    assert SeenId(ids, n) <==> exists i :: 0 <= i < n && shipments[i].id == shipments[n].id;
  }

  lemma {:induction false} ShipmentsFlagged(shipments: seq<Shipment>, n: nat, d: Diagnostic)
    requires n <= |shipments|
    ensures d in ShipmentFatals(shipments, n) <==> ShipmentsDefect(shipments, n, d)
  {
    hide ShipmentFlags, ShipmentDefect;
    if n > 0 {
      ShipmentsFlagged(shipments, n - 1, d);
      ShipmentFlagged(shipments, n - 1, d);
    }
  }

  /** How the product a cost row is for is written. */
  function ProductText(c: ResolvedCost): string { c.productId + "|" + Written(c.variantId) }

  ghost predicate SameCostKey(a: ResolvedCost, b: ResolvedCost) {
    ProductText(a) == ProductText(b) || (Written(a.sku) != "" && Written(a.sku) == Written(b.sku))
  }

  ghost predicate CostsDefect(costs: seq<ResolvedCost>, n: nat, d: Diagnostic)
    requires n <= |costs|
  {
    && d.subject == OfOrder
    && match d.code
       case NonIntegerMinorUnits => exists k :: 0 <= k < n && NotMoney(costs[k].unitCost)
       case DuplicateCostKey => exists i, j :: 0 <= i < j < n && SameCostKey(costs[i], costs[j])
       case _ => false
  }

  lemma {:induction false} IndexedBefore(costs: seq<ResolvedCost>, n: nat, c: ResolvedCost)
    requires n <= |costs|
    ensures CostKey(c) in IndexUpTo(costs, n).byProductKey <==> exists i :: 0 <= i < n && ProductText(costs[i]) == ProductText(c)
    ensures HasSku(c) && SkuOf(c) in IndexUpTo(costs, n).bySku <==>
      exists i :: 0 <= i < n && Written(costs[i].sku) != "" && Written(costs[i].sku) == Written(c.sku)
  {
    hide ProductText;
    assert forall x: ResolvedCost :: CostKey(x) == ProductText(x) by { CostTexts(); }
    assert forall x: ResolvedCost :: HasSku(x) <==> Written(x.sku) != "";
    assert forall x: ResolvedCost :: SkuOf(x) == Written(x.sku);
    hide CostKey, HasSku, SkuOf, Written;
    if n > 0 {
      IndexedBefore(costs, n - 1, c);
      var before := IndexUpTo(costs, n - 1);
    }
  }

  lemma CostTexts()
    ensures forall x: ResolvedCost :: CostKey(x) == ProductText(x)
  {
  }

  lemma {:induction false} CostsFlagged(costs: seq<ResolvedCost>, n: nat, d: Diagnostic)
    requires n <= |costs|
    ensures d in CostFatals(costs, n) <==> CostsDefect(costs, n, d)
  {
    hide IndexUpTo, CostKey, HasSku, SkuOf, ProductText, Written, NotMoney, CostFlags;
    if n > 0 {
      CostsFlagged(costs, n - 1, d);
      CostFlagged(costs, n - 1, d);
    }
  }

  lemma CostFlagged(costs: seq<ResolvedCost>, n: nat, d: Diagnostic)
    requires n < |costs|
    ensures d in CostFlags(IndexUpTo(costs, n), costs[n]) <==> d.subject == OfOrder && match d.code
      case NonIntegerMinorUnits => NotMoney(costs[n].unitCost)
      case DuplicateCostKey => exists i :: 0 <= i < n && SameCostKey(costs[i], costs[n])
      case _ => false
  {
    hide IndexUpTo, CostKey, HasSku, SkuOf, ProductText, Written;
    IndexedBefore(costs, n, costs[n]);
  }

  // -------------------------------------------------------------------- the gate

  /** The input has the defect the diagnostic names. */
  ghost predicate Defect(input: ProfitInput, d: Diagnostic) {
    match d.subject
    case OfOrder => (match d.code
      case MalformedInput => input.store.currency !in {"SAR", "AED", "KWD", "BHD", "USD"}
      case CurrencyMismatch => input.order.currency != input.store.currency || input.feeRuleSet.currency != input.store.currency
      case InvalidTimezone => input.store.timezone == ""
      case MalformedTimestamp => !Instants.IsInstant(input.order.placedAt)
      case FeeRuleInvalid => InvalidRule(input.feeRuleSet)
      case DuplicateRuleKey => RepeatedRule(input.feeRuleSet)
      case NonIntegerMinorUnits => BadMoney(input.order) || CostsDefect(input.costs, |input.costs|, d)
      case DuplicateCostKey => CostsDefect(input.costs, |input.costs|, d)
      case _ => false)
    case OfLine(_) => ItemsDefect(input.order, input.items, |input.items|, d)
    case OfReversal(_) => ReversalsDefect(input.order, input.reversals, |input.reversals|, d)
    case OfShipment(_) => ShipmentsDefect(input.shipments, |input.shipments|, d)
    case OfPayment(_) => false
  }

  /** A rejected order is told each of its defects under the right subject, and of no defect it does not have. */
  lemma FatalsAreTheDefects(input: ProfitInput, d: Diagnostic)
    ensures d in Fatals(input) <==> Defect(input, d)
  {
    hide HeaderFatals, RuleFatals, MoneyFlags, ItemFatals, ReversalFatals, ShipmentFatals, CostFatals, InvalidRule,
      RepeatedRule, BadMoney, ItemDefect, ReversalDefect, ShipmentDefect, SameCostKey, NotMoney, Instants.IsInstant;
    HeaderFlagged(input, d);
    RulesFlagged(input.feeRuleSet, d);
    OrderMoneyFlagged(input.order, d);
    ItemsFlagged(input.order, input.items, |input.items|, d);
    ReversalsFlagged(input.order, input.reversals, |input.reversals|, d);
    ShipmentsFlagged(input.shipments, |input.shipments|, d);
    CostsFlagged(input.costs, |input.costs|, d);
  }

  /** The gate accepts exactly what has no defect. */
  lemma AcceptedIffSound(input: ProfitInput)
    ensures NormalizeAndValidate(input).Accepted? <==> forall d :: !Defect(input, d)
    ensures NormalizeAndValidate(input).Rejected? ==> forall d :: d in NormalizeAndValidate(input).fatal <==> Defect(input, d)
  {
    hide Fatals, Defect, Canonical;
    forall d ensures d in Fatals(input) <==> Defect(input, d) { FatalsAreTheDefects(input, d); }
    if Fatals(input) != [] { assert Fatals(input)[0] in Fatals(input); }
  }
}
