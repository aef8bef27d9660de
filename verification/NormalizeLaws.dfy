/** What acceptance means, and that neither it nor the canonical form depends on order of arrival. */
module NormalizeLaws {
  import opened Prelude
  import opened Sequences
  import opened Sorting
  import opened Money
  import opened Domain
  import opened Fee
  import opened Cogs
  import opened Rules
  import opened Instants
  import opened Normalize
  import Text

  // ----------------------------------------------------------------- acceptance

  ghost predicate GoodRules(rules: FeeRuleSet) {
    && (forall f :: f in Formulas(rules) ==> FormulaIsValid(f))
    && (forall r :: r in rules.shippingFallback ==> 0 <= r.cost <= MAX_MINOR)
    && Distinct(GatewayKeys(rules.gateway)) && Distinct(CodKeys(rules.cod)) && Distinct(ShippingKeys(rules.shippingFallback))
  }

  ghost predicate GoodQuantity(q: int) { 0 <= q <= MAX_SAFE }

  ghost predicate GoodItem(order: Order, i: Item) {
    && i.orderId == order.id && GoodQuantity(i.quantity)
    && InRange(i.unitPriceExVat) && InRange(i.grossLineExVat) && InRange(i.lineDiscountExVat) && InRange(i.lineTotalExVat)
  }

  ghost predicate GoodReversal(order: Order, r: Reversal) {
    r.orderId == order.id && forall l :: l in LinesOf(r) ==> GoodQuantity(l.quantity) && InRange(l.amountExVat)
  }

  ghost predicate GoodShipment(s: Shipment) { s.carrierCost.Some? ==> InRange(s.carrierCost.value) }

  ghost predicate GoodHeader(input: ProfitInput) {
    && input.store.currency in CURRENCY_CODES
    && input.order.currency == input.store.currency == input.feeRuleSet.currency
    && input.store.timezone != "" && IsInstant(input.order.placedAt)
    && (forall v :: v in OrderMoney(input.order) ==> InRange(v))
  }

  ghost predicate GoodItems(order: Order, items: seq<Item>) {
    && (forall i :: i in items ==> GoodItem(order, i))
    && Distinct(ItemIds(items)) && Distinct(LineIds(items))
  }

  ghost predicate GoodReversals(order: Order, reversals: seq<Reversal>) {
    (forall r :: r in reversals ==> GoodReversal(order, r)) && Distinct(ReversalIds(reversals))
  }

  ghost predicate GoodShipments(shipments: seq<Shipment>) {
    (forall s :: s in shipments ==> GoodShipment(s)) && Distinct(ShipmentIds(shipments))
  }

  function Keyed(costs: seq<ResolvedCost>): (r: seq<string>) ensures |r| == |costs| { Map(CostKey, costs) }

  function Skus(costs: seq<ResolvedCost>): seq<string> { Map(SkuOf, Filter(HasSku, costs)) }

  ghost predicate GoodCosts(costs: seq<ResolvedCost>) {
    (forall c :: c in costs ==> InRange(c.unitCost)) && Distinct(Keyed(costs)) && Distinct(Skus(costs))
  }

  /** What an input must satisfy, in terms a caller could check. */
  ghost predicate Acceptable(input: ProfitInput) {
    && GoodHeader(input) && GoodRules(input.feeRuleSet) && GoodItems(input.order, input.items)
    && GoodReversals(input.order, input.reversals) && GoodShipments(input.shipments) && GoodCosts(input.costs)
  }

  lemma DistinctSnoc<T>(xs: seq<T>, x: T)
    ensures Distinct(xs + [x]) <==> Distinct(xs) && x !in xs
  {
    var ys := xs + [x];
    if Distinct(ys) {
      forall i, j | 0 <= i < j < |xs| ensures xs[i] != xs[j] { assert ys[i] != ys[j]; }
      forall i | 0 <= i < |xs| ensures xs[i] != x { assert ys[i] != ys[|xs|]; }
    }
  }

  lemma TakeSnoc<T>(xs: seq<T>, n: nat)
    requires n < |xs|
    ensures xs[..n+1] == xs[..n] + [xs[n]]
    ensures forall x :: x in xs[..n+1] <==> x in xs[..n] || x == xs[n]
  {
  }

  lemma {:induction false} MoneyFlagsEmpty(values: seq<int>, d: Diagnostic, n: nat)
    requires n <= |values|
    ensures MoneyFlags(values, d, n) == [] <==> forall v :: v in values[..n] ==> InRange(v)
  {
    if n > 0 {
      MoneyFlagsEmpty(values, d, n - 1);
      TakeSnoc(values, n - 1);
    }
  }

  lemma {:induction false} RepeatFlagsEmpty(keys: seq<string>, d: Diagnostic, n: nat)
    requires n <= |keys|
    ensures RepeatFlags(keys, d, n) == [] <==> Distinct(keys[..n])
  {
    if n > 0 {
      RepeatFlagsEmpty(keys, d, n - 1);
      TakeSnoc(keys, n - 1);
      DistinctSnoc(keys[..n-1], keys[n-1]);
    }
  }

  lemma {:induction false} FormulaFlagsEmpty(formulas: seq<FeeFormula>, n: nat)
    requires n <= |formulas|
    ensures FormulaFlags(formulas, n) == [] <==> forall f :: f in formulas[..n] ==> FormulaIsValid(f)
  {
    hide FormulaIsValid;
    if n > 0 {
      FormulaFlagsEmpty(formulas, n - 1);
      TakeSnoc(formulas, n - 1);
    }
  }

  lemma {:induction false} ShippingCostFlagsEmpty(rules: seq<ShippingRule>, n: nat)
    requires n <= |rules|
    ensures ShippingCostFlags(rules, n) == [] <==> forall r :: r in rules[..n] ==> 0 <= r.cost <= MAX_MINOR
  {
    if n > 0 {
      ShippingCostFlagsEmpty(rules, n - 1);
      TakeSnoc(rules, n - 1);
    }
  }

  lemma ConcatEmpty(a: seq<Diagnostic>, b: seq<Diagnostic>)
    ensures a + b == [] <==> a == [] && b == []
  {
    assert |a + b| == |a| + |b|;
  }

  lemma Whole<T>(xs: seq<T>)
    ensures xs[..|xs|] == xs
  {
  }

  lemma RuleFatalsEmpty(rules: FeeRuleSet)
    ensures RuleFatals(rules) == [] <==> GoodRules(rules)
  {
    hide FormulaFlags, ShippingCostFlags, RepeatFlags, GatewayKeys, CodKeys, ShippingKeys, Formulas, FormulaIsValid,
      Distinct;
    FormulaFlagsEmpty(Formulas(rules), |Formulas(rules)|);
    ShippingCostFlagsEmpty(rules.shippingFallback, |rules.shippingFallback|);
    RepeatFlagsEmpty(GatewayKeys(rules.gateway), OnOrder(DuplicateRuleKey), |rules.gateway|);
    RepeatFlagsEmpty(CodKeys(rules.cod), OnOrder(DuplicateRuleKey), |rules.cod|);
    RepeatFlagsEmpty(ShippingKeys(rules.shippingFallback), OnOrder(DuplicateRuleKey), |rules.shippingFallback|);
    Whole(Formulas(rules));
    Whole(rules.shippingFallback);
    Whole(GatewayKeys(rules.gateway));
    Whole(CodKeys(rules.cod));
    Whole(ShippingKeys(rules.shippingFallback));
  }

  lemma ItemFlagsEmpty(order: Order, item: Item, idSeen: bool, lineSeen: bool)
    ensures ItemFlags(order, item, idSeen, lineSeen) == [] <==> GoodItem(order, item) && !idSeen && !lineSeen
  {
    hide MoneyFlags;
    var d := Diagnostic(NonIntegerMinorUnits, OfLine(item.id));
    MoneyFlagsEmpty(ItemMoney(item), d, 4);
    Whole(ItemMoney(item));
    assert forall v :: v in ItemMoney(item) <==> v == item.unitPriceExVat || v == item.grossLineExVat || v == item.lineDiscountExVat || v == item.lineTotalExVat;
  }

  lemma {:induction false} ItemFatalsEmpty(order: Order, items: seq<Item>, n: nat)
    requires n <= |items|
    ensures ItemFatals(order, items, n) == [] <==>
      (forall i :: i in items[..n] ==> GoodItem(order, i)) && Distinct(ItemIds(items)[..n]) && Distinct(LineIds(items)[..n])
  {
    hide ItemFlags, GoodItem, ItemIds, LineIds, Distinct;
    if n == 0 {
      NoneDistinct(ItemIds(items));
      NoneDistinct(LineIds(items));
    } else {
      ItemFatalsEmpty(order, items, n - 1);
      TakeSnoc(items, n - 1);
      TakeSnoc(ItemIds(items), n - 1);
      TakeSnoc(LineIds(items), n - 1);
      DistinctSnoc(ItemIds(items)[..n-1], ItemIds(items)[n-1]);
      DistinctSnoc(LineIds(items)[..n-1], LineIds(items)[n-1]);
      ItemFlagsEmpty(order, items[n-1], ItemIds(items)[n-1] in ItemIds(items)[..n-1],
          LineIds(items)[n-1] in LineIds(items)[..n-1]);
      ConcatEmpty(ItemFatals(order, items, n - 1),
        ItemFlags(order, items[n-1], ItemIds(items)[n-1] in ItemIds(items)[..n-1], LineIds(items)[n-1] in LineIds(items)[..n-1]));
    }
  }

  lemma NoneDistinct<T>(xs: seq<T>)
    ensures Distinct(xs[..0])
  {
  }

  lemma {:induction false} ReversalLineFlagsEmpty(lines: seq<ReversalLine>, subject: Subject, n: nat)
    requires n <= |lines|
    ensures ReversalLineFlags(lines, subject, n) == [] <==>
      forall l :: l in lines[..n] ==> GoodQuantity(l.quantity) && InRange(l.amountExVat)
  {
    if n > 0 {
      ReversalLineFlagsEmpty(lines, subject, n - 1);
      TakeSnoc(lines, n - 1);
    }
  }

  lemma ReversalFlagsEmpty(order: Order, r: Reversal, seen: bool)
    ensures ReversalFlags(order, r, seen) == [] <==> GoodReversal(order, r) && !seen
  {
    hide ReversalLineFlags, LinesOf, GoodQuantity;
    ReversalLineFlagsEmpty(LinesOf(r), OfReversal(r.id), |LinesOf(r)|);
    Whole(LinesOf(r));
  }

  lemma {:induction false} ReversalFatalsEmpty(order: Order, reversals: seq<Reversal>, n: nat)
    requires n <= |reversals|
    ensures ReversalFatals(order, reversals, n) == [] <==>
      (forall r :: r in reversals[..n] ==> GoodReversal(order, r)) && Distinct(ReversalIds(reversals)[..n])
  {
    hide ReversalFlags, GoodReversal, ReversalIds, Distinct;
    if n == 0 {
      NoneDistinct(ReversalIds(reversals));
    } else {
      var ids := ReversalIds(reversals);
      ReversalFatalsEmpty(order, reversals, n - 1);
      TakeSnoc(reversals, n - 1);
      TakeSnoc(ids, n - 1);
      DistinctSnoc(ids[..n-1], ids[n-1]);
      ReversalFlagsEmpty(order, reversals[n-1], ids[n-1] in ids[..n-1]);
      ConcatEmpty(ReversalFatals(order, reversals, n - 1), ReversalFlags(order, reversals[n-1], ids[n-1] in ids[..n-1]));
    }
  }

  lemma ShipmentFlagsEmpty(s: Shipment, seen: bool)
    ensures ShipmentFlags(s, seen) == [] <==> GoodShipment(s) && !seen
  {
  }

  lemma {:induction false} ShipmentFatalsEmpty(shipments: seq<Shipment>, n: nat)
    requires n <= |shipments|
    ensures ShipmentFatals(shipments, n) == [] <==>
      (forall s :: s in shipments[..n] ==> GoodShipment(s)) && Distinct(ShipmentIds(shipments)[..n])
  {
    hide ShipmentFlags, GoodShipment, ShipmentIds, Distinct;
    if n == 0 {
      NoneDistinct(ShipmentIds(shipments));
    } else {
      var ids := ShipmentIds(shipments);
      ShipmentFatalsEmpty(shipments, n - 1);
      TakeSnoc(shipments, n - 1);
      TakeSnoc(ids, n - 1);
      DistinctSnoc(ids[..n-1], ids[n-1]);
      ShipmentFlagsEmpty(shipments[n-1], ids[n-1] in ids[..n-1]);
      ConcatEmpty(ShipmentFatals(shipments, n - 1), ShipmentFlags(shipments[n-1], ids[n-1] in ids[..n-1]));
    }
  }

  // ---------------------------------------------------------------- cost index

  /** Every entry is a cost row under its own key, and every row's key is there. */
  ghost predicate Indexes(index: CostIndex, costs: seq<ResolvedCost>) {
    && (forall k :: k in index.byProductKey ==> index.byProductKey[k] in costs && CostKey(index.byProductKey[k]) == k)
    && (forall c :: c in costs ==> CostKey(c) in index.byProductKey)
    && (forall k :: k in index.bySku ==> index.bySku[k] in costs && HasSku(index.bySku[k]) && SkuOf(index.bySku[k]) == k)
    && (forall c :: c in costs && HasSku(c) ==> SkuOf(c) in index.bySku)
  }

  lemma {:induction false} IndexIndexes(costs: seq<ResolvedCost>, n: nat)
    requires n <= |costs|
    ensures Indexes(IndexUpTo(costs, n), costs[..n])
  {
    hide CostKey, SkuOf, HasSku;
    if n > 0 {
      IndexIndexes(costs, n - 1);
      TakeSnoc(costs, n - 1);
    }
  }

  lemma {:induction false} SkusSnoc(costs: seq<ResolvedCost>, n: nat)
    requires n < |costs|
    ensures Skus(costs[..n+1]) == Skus(costs[..n]) + (if HasSku(costs[n]) then [SkuOf(costs[n])] else [])
  {
    TakeSnoc(costs, n);
    FilterConcat(HasSku, costs[..n], [costs[n]]);
    FilterOne(HasSku, costs[n]);
  }

  lemma {:induction false} FilterConcat<T>(p: T -> bool, xs: seq<T>, ys: seq<T>)
    ensures Filter(p, xs + ys) == Filter(p, xs) + Filter(p, ys)
  {
    if xs == [] {
      assert xs + ys == ys;
    } else {
      FilterConcat(p, xs[1..], ys);
      assert (xs + ys)[1..] == xs[1..] + ys && (xs + ys)[0] == xs[0];
      var head := if p(xs[0]) then [xs[0]] else [];
      assert head + (Filter(p, xs[1..]) + Filter(p, ys)) == (head + Filter(p, xs[1..])) + Filter(p, ys);
    }
  }

  lemma KeyIn(costs: seq<ResolvedCost>, k: string)
    ensures k in Keyed(costs) <==> exists c :: c in costs && CostKey(c) == k
    ensures k in Skus(costs) <==> exists c :: c in costs && HasSku(c) && SkuOf(c) == k
  {
    hide CostKey, SkuOf, HasSku;
    InMap(CostKey, costs, k);
    InMap(SkuOf, Filter(HasSku, costs), k);
  }

  lemma InMap(f: ResolvedCost -> string, xs: seq<ResolvedCost>, k: string)
    ensures k in Map(f, xs) <==> exists x :: x in xs && f(x) == k
  {
    if k in Map(f, xs) {
      var i :| 0 <= i < |Map(f, xs)| && Map(f, xs)[i] == k;
      assert xs[i] in xs;
    }
    if x :| x in xs && f(x) == k {
      var i :| 0 <= i < |xs| && xs[i] == x;
      assert Map(f, xs)[i] == k;
    }
  }

  lemma CostFlagsEmpty(costs: seq<ResolvedCost>, n: nat)
    requires n < |costs|
    ensures CostFlags(IndexUpTo(costs, n), costs[n]) == [] <==>
      InRange(costs[n].unitCost) && CostKey(costs[n]) !in Keyed(costs[..n])
          && (HasSku(costs[n]) ==> SkuOf(costs[n]) !in Skus(costs[..n]))
  {
    hide CostKey, SkuOf, HasSku, Keyed, Skus;
    IndexIndexes(costs, n);
    KeyIn(costs[..n], CostKey(costs[n]));
    KeyIn(costs[..n], SkuOf(costs[n]));
  }

  lemma {:induction false} CostFatalsEmpty(costs: seq<ResolvedCost>, n: nat)
    requires n <= |costs|
    ensures CostFatals(costs, n) == [] <==> GoodCosts(costs[..n])
  {
    hide CostKey, SkuOf, HasSku, CostFlags, Keyed, Skus, IndexUpTo, GoodCosts;
    if n == 0 {
      NoCosts(costs);
    } else {
      CostFatalsEmpty(costs, n - 1);
      GoodCostsSnoc(costs, n - 1);
      CostFlagsEmpty(costs, n - 1);
      ConcatEmpty(CostFatals(costs, n - 1), CostFlags(IndexUpTo(costs, n - 1), costs[n-1]));
    }
  }

  lemma GoodCostsSnoc(costs: seq<ResolvedCost>, n: nat)
    requires n < |costs|
    ensures GoodCosts(costs[..n+1]) <==>
      GoodCosts(costs[..n]) && InRange(costs[n].unitCost) && CostKey(costs[n]) !in Keyed(costs[..n])
      && (HasSku(costs[n]) ==> SkuOf(costs[n]) !in Skus(costs[..n]))
  {
    hide CostKey, SkuOf, HasSku, Distinct, Skus;
    TakeSnoc(costs, n);
    SkusSnoc(costs, n);
    assert Keyed(costs[..n+1]) == Keyed(costs[..n]) + [CostKey(costs[n])];
    DistinctSnoc(Keyed(costs[..n]), CostKey(costs[n]));
    DistinctSnoc(Skus(costs[..n]), SkuOf(costs[n]));
    assert Skus(costs[..n]) + [] == Skus(costs[..n]);
  }

  lemma NoCosts(costs: seq<ResolvedCost>)
    ensures GoodCosts(costs[..0])
  {
  }

  /** An input is rejected exactly when it is not acceptable. */
  lemma AcceptedIffAcceptable(input: ProfitInput)
    ensures NormalizeAndValidate(input).Accepted? <==> Acceptable(input)
  {
    hide RuleFatals, MoneyFlags, ItemFatals, ReversalFatals, ShipmentFatals, CostFatals, Canonical, IsInstant,
      GoodRules, GoodItem, GoodReversal, GoodShipment, GoodCosts, ItemIds, LineIds, ReversalIds, ShipmentIds,
      OrderMoney, Distinct;
    RuleFatalsEmpty(input.feeRuleSet);
    MoneyFlagsEmpty(OrderMoney(input.order), OnOrder(NonIntegerMinorUnits), 5);
    ItemFatalsEmpty(input.order, input.items, |input.items|);
    ReversalFatalsEmpty(input.order, input.reversals, |input.reversals|);
    ShipmentFatalsEmpty(input.shipments, |input.shipments|);
    CostFatalsEmpty(input.costs, |input.costs|);
    Whole(OrderMoney(input.order));
    Whole(input.items);
    Whole(ItemIds(input.items));
    Whole(LineIds(input.items));
    Whole(input.reversals);
    Whole(ReversalIds(input.reversals));
    Whole(input.shipments);
    Whole(ShipmentIds(input.shipments));
    Whole(input.costs);
  }

  // ----------------------------------------------------------- order of arrival

  /** The same facts, arriving in another order. */
  ghost predicate SameContent(a: ProfitInput, b: ProfitInput) {
    && a.store == b.store && a.order == b.order && a.feeRuleSet == b.feeRuleSet && a.localDate == b.localDate
    && multiset(a.items) == multiset(b.items) && multiset(a.shipments) == multiset(b.shipments)
    && multiset(a.reversals) == multiset(b.reversals) && multiset(a.costs) == multiset(b.costs)
  }

  lemma KeysPermute<T>(f: T -> string, xs: seq<T>, ys: seq<T>)
    requires multiset(xs) == multiset(ys)
    ensures Distinct(Map(f, xs)) <==> Distinct(Map(f, ys))
  {
    MapPermutes(f, xs, ys);
    DistinctForgetsOrder(Map(f, xs), Map(f, ys));
  }

  lemma {:induction false} FilterPermutes<T>(p: T -> bool, xs: seq<T>, ys: seq<T>)
    requires multiset(xs) == multiset(ys)
    ensures multiset(Filter(p, xs)) == multiset(Filter(p, ys))
  {
    if xs == [] {
      assert |multiset(ys)| == 0;
    } else {
      assert xs[0] in multiset(ys);
      var i :| 0 <= i < |ys| && ys[i] == xs[0];
      RemoveOne(xs, ys, i);
      FilterPermutes(p, xs[1..], ys[..i] + ys[i+1..]);
      FilterWithout(p, ys, i);
      FilterWithout(p, xs, 0);
      assert xs[..0] + xs[1..] == xs[1..];
    }
  }

  lemma FilterOne<T>(p: T -> bool, x: T)
    ensures Filter(p, [x]) == if p(x) then [x] else []
  {
    assert [x][1..] == [];
  }

  lemma FilterWithout<T>(p: T -> bool, ys: seq<T>, i: nat)
    requires i < |ys|
    ensures multiset(Filter(p, ys))
        == (if p(ys[i]) then multiset{ys[i]} else multiset{}) + multiset(Filter(p, ys[..i] + ys[i+1..]))
  {
    hide Filter;
    var before, here, after := ys[..i], [ys[i]], ys[i+1..];
    FilterConcat(p, before, here + after);
    FilterConcat(p, here, after);
    FilterConcat(p, before, after);
    FilterOne(p, ys[i]);
    assert ys == before + (here + after);
    PiecesMove(Filter(p, before), Filter(p, here), Filter(p, after));
  }

  lemma PiecesMove<T>(a: seq<T>, b: seq<T>, c: seq<T>)
    ensures multiset(a + (b + c)) == multiset(b) + multiset(a + c)
  {
  }

  lemma GoodCostsForgetOrder(a: seq<ResolvedCost>, b: seq<ResolvedCost>)
    requires multiset(a) == multiset(b)
    ensures GoodCosts(a) <==> GoodCosts(b)
  {
    hide CostKey, SkuOf, HasSku, Distinct;
    SameLength(a, b);
    KeysPermute(CostKey, a, b);
    FilterPermutes(HasSku, a, b);
    KeysPermute(SkuOf, Filter(HasSku, a), Filter(HasSku, b));
  }

  lemma GoodItemsForgetOrder(order: Order, a: seq<Item>, b: seq<Item>)
    requires multiset(a) == multiset(b)
    ensures GoodItems(order, a) <==> GoodItems(order, b)
  {
    hide GoodItem, Distinct;
    SameLength(a, b);
    var f, g := (i: Item) => i.id, (i: Item) => i.platformLineId;
    KeysPermute(f, a, b);
    KeysPermute(g, a, b);
    assert ItemIds(a) == Map(f, a) && ItemIds(b) == Map(f, b) && LineIds(a) == Map(g, a) && LineIds(b) == Map(g, b);
  }

  lemma GoodReversalsForgetOrder(order: Order, a: seq<Reversal>, b: seq<Reversal>)
    requires multiset(a) == multiset(b)
    ensures GoodReversals(order, a) <==> GoodReversals(order, b)
  {
    hide GoodReversal, Distinct;
    SameLength(a, b);
    var f := (r: Reversal) => r.id;
    KeysPermute(f, a, b);
    assert ReversalIds(a) == Map(f, a) && ReversalIds(b) == Map(f, b);
  }

  lemma GoodShipmentsForgetOrder(a: seq<Shipment>, b: seq<Shipment>)
    requires multiset(a) == multiset(b)
    ensures GoodShipments(a) <==> GoodShipments(b)
  {
    hide GoodShipment, Distinct;
    SameLength(a, b);
    var f := (s: Shipment) => s.id;
    KeysPermute(f, a, b);
    assert ShipmentIds(a) == Map(f, a) && ShipmentIds(b) == Map(f, b);
  }

  /** A cost row for exactly this product and variant. */
  ghost predicate CostsProduct(c: ResolvedCost, item: Item) { CostKey(c) == ProductKey(item.productId, item.variantId) }

  ghost predicate CostsSku(c: ResolvedCost, item: Item) {
    HasSku(c) && item.sku.Some? && item.sku.value != "" && SkuOf(c) == item.sku.value
  }

  /** An item's cost comes from its product's row; from its SKU's row only when no row names the product; otherwise from nowhere. */
  lemma CostIsTheRightRow(costs: seq<ResolvedCost>, item: Item)
    ensures var found := CostOf(item, IndexUpTo(costs, |costs|));
      && (found.Some? ==> found.value in costs)
      && (found.Some? && (exists c :: c in costs && CostsProduct(c, item)) ==> CostsProduct(found.value, item))
      && (found.Some? && !(exists c :: c in costs && CostsProduct(c, item)) ==> CostsSku(found.value, item))
      && (found.None? <==> forall c :: c in costs ==> !CostsProduct(c, item) && !CostsSku(c, item))
  {
    hide IndexUpTo, CostKey, ProductKey;
    IndexIndexes(costs, |costs|);
    Whole(costs);
    var found := CostOf(item, IndexUpTo(costs, |costs|));
    if found.Some? && CostsProduct(found.value, item) { assert exists c :: c in costs && CostsProduct(c, item); }
  }

  /** Whether an input is accepted does not depend on the order anything arrives in. */
  lemma AcceptanceForgetsOrder(a: ProfitInput, b: ProfitInput)
    requires SameContent(a, b)
    ensures Acceptable(a) <==> Acceptable(b)
  {
    hide GoodItems, GoodReversals, GoodShipments, GoodCosts, GoodRules;
    GoodItemsForgetOrder(a.order, a.items, b.items);
    GoodReversalsForgetOrder(a.order, a.reversals, b.reversals);
    GoodShipmentsForgetOrder(a.shipments, b.shipments);
    GoodCostsForgetOrder(a.costs, b.costs);
  }

  lemma SameCost(costs: seq<ResolvedCost>, c: ResolvedCost, d: ResolvedCost)
    requires GoodCosts(costs) && c in costs && d in costs
    ensures CostKey(c) == CostKey(d) ==> c == d
    ensures HasSku(c) && HasSku(d) && SkuOf(c) == SkuOf(d) ==> c == d
  {
    hide CostKey, SkuOf, HasSku;
    if CostKey(c) == CostKey(d) { DistinctPositions(costs, CostKey, c, d); }
    if HasSku(c) && HasSku(d) && SkuOf(c) == SkuOf(d) { DistinctPositions(Filter(HasSku, costs), SkuOf, c, d); }
  }

  lemma SameIndexes(a: seq<ResolvedCost>, b: seq<ResolvedCost>, i: CostIndex, j: CostIndex)
    requires GoodCosts(a) && Indexes(i, a) && Indexes(j, b) && forall c :: c in a <==> c in b
    ensures i == j
  {
    hide CostKey, SkuOf, HasSku, GoodCosts;
    forall k | k in i.byProductKey ensures k in j.byProductKey && i.byProductKey[k] == j.byProductKey[k] {
      SameCost(a, i.byProductKey[k], j.byProductKey[k]);
    }
    forall k | k in j.byProductKey ensures k in i.byProductKey { assert CostKey(j.byProductKey[k]) in i.byProductKey; }
    forall k | k in i.bySku ensures k in j.bySku && i.bySku[k] == j.bySku[k] {
      assert SkuOf(i.bySku[k]) in j.bySku;
      SameCost(a, i.bySku[k], j.bySku[k]);
    }
    forall k | k in j.bySku ensures k in i.bySku { assert SkuOf(j.bySku[k]) in i.bySku; }
    assert i.byProductKey == j.byProductKey && i.bySku == j.bySku;
  }

  lemma IndexForgetsOrder(a: seq<ResolvedCost>, b: seq<ResolvedCost>)
    requires multiset(a) == multiset(b) && GoodCosts(a)
    ensures IndexUpTo(a, |a|) == IndexUpTo(b, |b|)
  {
    hide IndexUpTo, GoodCosts, Indexes;
    SameLength(a, b);
    IndexIndexes(a, |a|);
    IndexIndexes(b, |b|);
    Whole(a);
    Whole(b);
    SameIndexes(a, b, IndexUpTo(a, |a|), IndexUpTo(b, |b|));
  }

  lemma ByLineIdFacts(items: seq<Item>)
    ensures TotalPreorder(ByLineId)
    ensures Distinct(LineIds(items)) ==> TiesAreEqual(ByLineId, items)
  {
    Text.Order();
    if Distinct(LineIds(items)) {
      forall a, b | a in items && b in items && ByLineId(a, b) && ByLineId(b, a) ensures a == b {
        var i :| 0 <= i < |items| && items[i] == a;
        var j :| 0 <= j < |items| && items[j] == b;
        assert LineIds(items)[i] == LineIds(items)[j];
      }
    }
  }

  lemma ByReversalIdFacts(xs: seq<Reversal>)
    ensures TotalPreorder(ByReversalId)
    ensures Distinct(ReversalIds(xs)) ==> TiesAreEqual(ByReversalId, xs)
  {
    Text.Order();
    if Distinct(ReversalIds(xs)) {
      forall a, b | a in xs && b in xs && ByReversalId(a, b) && ByReversalId(b, a) ensures a == b {
        var i :| 0 <= i < |xs| && xs[i] == a;
        var j :| 0 <= j < |xs| && xs[j] == b;
        assert ReversalIds(xs)[i] == ReversalIds(xs)[j];
      }
    }
  }

  lemma ByShipmentIdFacts(xs: seq<Shipment>)
    ensures TotalPreorder(ByShipmentId)
    ensures Distinct(ShipmentIds(xs)) ==> TiesAreEqual(ByShipmentId, xs)
  {
    Text.Order();
    if Distinct(ShipmentIds(xs)) {
      forall a, b | a in xs && b in xs && ByShipmentId(a, b) && ByShipmentId(b, a) ensures a == b {
        var i :| 0 <= i < |xs| && xs[i] == a;
        var j :| 0 <= j < |xs| && xs[j] == b;
        assert ShipmentIds(xs)[i] == ShipmentIds(xs)[j];
      }
    }
  }

  /** The canonical form of an acceptable input is the same whatever order its facts arrived in. */
  lemma CanonicalForgetsOrder(a: ProfitInput, b: ProfitInput)
    requires SameContent(a, b) && Acceptable(a)
    ensures Canonical(a) == Canonical(b)
  {
    hide ByLineId, ByShipmentId, ByReversalId, Sort, IndexUpTo, GoodCosts, GoodHeader, GoodRules, LineIds,
      ShipmentIds, ReversalIds, TiesAreEqual, TotalPreorder, Distinct;
    ByLineIdFacts(a.items);
    ByShipmentIdFacts(a.shipments);
    ByReversalIdFacts(a.reversals);
    SortForgetsOrder(ByLineId, a.items, b.items);
    SortForgetsOrder(ByShipmentId, a.shipments, b.shipments);
    SortForgetsOrder(ByReversalId, a.reversals, b.reversals);
    IndexForgetsOrder(a.costs, b.costs);
  }

  /** Acceptance and canonical form together: only the wording of a rejection can depend on order. */
  lemma NormalizationForgetsOrder(a: ProfitInput, b: ProfitInput)
    requires SameContent(a, b)
    ensures NormalizeAndValidate(a).Accepted? <==> NormalizeAndValidate(b).Accepted?
    ensures NormalizeAndValidate(a).Accepted? ==> NormalizeAndValidate(a) == NormalizeAndValidate(b)
  {
    hide Acceptable, Fatals, Canonical, SameContent;
    AcceptedIffAcceptable(a);
    AcceptedIffAcceptable(b);
    AcceptanceForgetsOrder(a, b);
    if Acceptable(a) { CanonicalForgetsOrder(a, b); }
  }
}
