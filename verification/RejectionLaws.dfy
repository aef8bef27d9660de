/** What a rejection says, and exactly when it depends on the order an order's facts arrived in. */
module RejectionLaws {
  import opened Prelude
  import opened Sequences
  import opened Sums
  import opened Money
  import opened Domain
  import opened Cogs
  import opened Diagnostics
  import opened Normalize
  import opened NormalizeLaws
  import Profit
  import ProfitLaws
  import Sorting

  // ------------------------------------------------------- adding up remarks

  /** What the first n elements contribute, each on its own. */
  ghost function Gather<T>(f: T -> multiset<Diagnostic>, xs: seq<T>, n: nat): multiset<Diagnostic>
    requires n <= |xs|
  {
    if n == 0 then multiset{} else Gather(f, xs, n - 1) + f(xs[n-1])
  }

  lemma {:induction false} GatherCounts<T>(f: T -> multiset<Diagnostic>, xs: seq<T>, n: nat, d: Diagnostic)
    requires n <= |xs|
    ensures Gather(f, xs, n)[d] == Sum(Map((x: T) => f(x)[d], xs)[..n])
  {
    if n > 0 {
      GatherCounts(f, xs, n - 1, d);
      SumTake(Map((x: T) => f(x)[d], xs), n - 1);
    }
  }

  lemma GatherForgetsOrder<T>(f: T -> multiset<Diagnostic>, xs: seq<T>, ys: seq<T>)
    requires multiset(xs) == multiset(ys)
    ensures Gather(f, xs, |xs|) == Gather(f, ys, |ys|)
  {
    forall d ensures Gather(f, xs, |xs|)[d] == Gather(f, ys, |ys|)[d] {
      var g := (x: T) => f(x)[d];
      GatherCounts(f, xs, |xs|, d);
      GatherCounts(f, ys, |ys|, d);
      Whole(Map(g, xs));
      Whole(Map(g, ys));
      MapPermutes(g, xs, ys);
      SumForgetsOrder(Map(g, xs), Map(g, ys));
    }
  }

  /** An element of the same key stands before position i. */
  ghost predicate SeenBefore<T>(key: T -> Option<string>, xs: seq<T>, i: nat)
    requires i < |xs|
  {
    key(xs[i]).Some? && exists j :: 0 <= j < i && key(xs[j]) == key(xs[i])
  }

  ghost function Tag<T>(tag: T -> Diagnostic, x: T, there: bool): multiset<Diagnostic> {
    if there then multiset{tag(x)} else multiset{}
  }

  /** The tags of the first n elements whose key stands before them. */
  ghost function Repeats<T>(key: T -> Option<string>, tag: T -> Diagnostic, xs: seq<T>, n: nat): multiset<Diagnostic>
    requires n <= |xs|
  {
    if n == 0 then multiset{} else Repeats(key, tag, xs, n - 1) + Tag(tag, xs[n-1], SeenBefore(key, xs, n - 1))
  }

  /** The tags of those whose key does not. */
  ghost function Firsts<T>(key: T -> Option<string>, tag: T -> Diagnostic, xs: seq<T>, n: nat): multiset<Diagnostic>
    requires n <= |xs|
  {
    if n == 0 then multiset{}
    else Firsts(key, tag, xs, n - 1) + Tag(tag, xs[n-1], key(xs[n-1]).Some? && !SeenBefore(key, xs, n - 1))
  }

  ghost function Tags<T>(key: T -> Option<string>, tag: T -> Diagnostic): T -> multiset<Diagnostic> {
    (x: T) => Tag(tag, x, key(x).Some?)
  }

  /** Every tag is that of a first or of a repeat. */
  lemma {:induction false} RepeatsAndFirsts<T>(key: T -> Option<string>, tag: T -> Diagnostic, xs: seq<T>, n: nat)
    requires n <= |xs|
    ensures Repeats(key, tag, xs, n) + Firsts(key, tag, xs, n) == Gather(Tags(key, tag), xs, n)
  {
    if n > 0 { RepeatsAndFirsts(key, tag, xs, n - 1); }
  }

  /** The keys among the first n elements whose tag is d. */
  ghost function KeysTagged<T>(key: T -> Option<string>, tagOf: string -> Diagnostic, xs: seq<T>, n: nat,
        d: Diagnostic): set<string>
    requires n <= |xs|
  {
    set i | 0 <= i < n && key(xs[i]).Some? && tagOf(key(xs[i]).value) == d :: key(xs[i]).value
  }

  /** One more element adds its key, which is new unless it was seen before. */
  lemma KeysTaggedStep<T>(key: T -> Option<string>, tagOf: string -> Diagnostic, xs: seq<T>, n: nat, d: Diagnostic)
    requires 0 < n <= |xs|
    ensures var before, k := KeysTagged(key, tagOf, xs, n - 1, d), key(xs[n-1]);
      if k.Some? && tagOf(k.value) == d
      then KeysTagged(key, tagOf, xs, n, d) == before + {k.value} && (k.value in before <==> SeenBefore(key, xs, n - 1))
      else KeysTagged(key, tagOf, xs, n, d) == before
  {
    var before, after, k := KeysTagged(key, tagOf, xs, n - 1, d), KeysTagged(key, tagOf, xs, n, d), key(xs[n-1]);
    if k.Some? && tagOf(k.value) == d {
      assert after == before + {k.value};
      if SeenBefore(key, xs, n - 1) {
        var j :| 0 <= j < n - 1 && key(xs[j]) == k;
        assert key(xs[j]).value in before;
      }
    } else {
      assert after == before;
    }
  }

  /** With tags that go by key, the firsts are one tag for each key. */
  lemma {:induction false} FirstsCount<T>(key: T -> Option<string>, tag: T -> Diagnostic, tagOf: string -> Diagnostic,
        xs: seq<T>, n: nat, d: Diagnostic)
    requires n <= |xs| && forall i :: 0 <= i < |xs| && key(xs[i]).Some? ==> tag(xs[i]) == tagOf(key(xs[i]).value)
    ensures Firsts(key, tag, xs, n)[d] == |KeysTagged(key, tagOf, xs, n, d)|
  {
    hide SeenBefore, KeysTagged, Tag;
    if n == 0 {
      NoneTagged(key, tagOf, xs, d);
    } else {
      FirstsCount(key, tag, tagOf, xs, n - 1, d);
      KeysTaggedStep(key, tagOf, xs, n, d);
      TagCounts(tag, xs[n-1], key(xs[n-1]).Some? && !SeenBefore(key, xs, n - 1), d);
      hide Firsts;
      if key(xs[n-1]).Some? { Grown(KeysTagged(key, tagOf, xs, n - 1, d), key(xs[n-1]).value); }
    }
  }

  lemma TagCounts<T>(tag: T -> Diagnostic, x: T, there: bool, d: Diagnostic)
    ensures Tag(tag, x, there)[d] == if there && tag(x) == d then 1 else 0
  {
  }

  lemma Grown(keys: set<string>, k: string)
    ensures |keys + {k}| == |keys| + if k in keys then 0 else 1
  {
    if k in keys { assert keys + {k} == keys; }
  }

  lemma NoneTagged<T>(key: T -> Option<string>, tagOf: string -> Diagnostic, xs: seq<T>, d: Diagnostic)
    ensures KeysTagged(key, tagOf, xs, 0, d) == {}
  {
  }

  lemma KeysTaggedForgetOrder<T>(key: T -> Option<string>, tagOf: string -> Diagnostic, xs: seq<T>, ys: seq<T>,
        d: Diagnostic)
    requires multiset(xs) == multiset(ys)
    ensures KeysTagged(key, tagOf, xs, |xs|, d) == KeysTagged(key, tagOf, ys, |ys|, d)
  {
    TaggedIn(key, tagOf, xs, ys, d);
    TaggedIn(key, tagOf, ys, xs, d);
  }

  lemma TaggedIn<T>(key: T -> Option<string>, tagOf: string -> Diagnostic, xs: seq<T>, ys: seq<T>, d: Diagnostic)
    requires multiset(xs) == multiset(ys)
    ensures KeysTagged(key, tagOf, xs, |xs|, d) <= KeysTagged(key, tagOf, ys, |ys|, d)
  {
    forall k | k in KeysTagged(key, tagOf, xs, |xs|, d) ensures k in KeysTagged(key, tagOf, ys, |ys|, d) {
      var i :| 0 <= i < |xs| && key(xs[i]).Some? && tagOf(key(xs[i]).value) == d && key(xs[i]).value == k;
      assert xs[i] in multiset(ys);
      var j :| 0 <= j < |ys| && ys[j] == xs[i];
    }
  }

  lemma FirstsForgetOrder<T>(key: T -> Option<string>, tag: T -> Diagnostic, tagOf: string -> Diagnostic, xs: seq<T>,
        ys: seq<T>)
    requires multiset(xs) == multiset(ys) && forall x :: x in xs && key(x).Some? ==> tag(x) == tagOf(key(x).value)
    ensures Firsts(key, tag, xs, |xs|) == Firsts(key, tag, ys, |ys|)
  {
    hide Firsts, KeysTagged;
    forall y | y in ys ensures y in xs { assert y in multiset(ys); }
    forall d ensures Firsts(key, tag, xs, |xs|)[d] == Firsts(key, tag, ys, |ys|)[d] {
      FirstsCount(key, tag, tagOf, xs, |xs|, d);
      FirstsCount(key, tag, tagOf, ys, |ys|, d);
      KeysTaggedForgetOrder(key, tagOf, xs, ys, d);
    }
  }

  /** With tags that go by key, the order is no matter to what is repeated. */
  lemma RepeatsForgetOrder<T>(key: T -> Option<string>, tag: T -> Diagnostic, tagOf: string -> Diagnostic, xs: seq<T>,
        ys: seq<T>)
    requires multiset(xs) == multiset(ys) && forall x :: x in xs && key(x).Some? ==> tag(x) == tagOf(key(x).value)
    ensures Repeats(key, tag, xs, |xs|) == Repeats(key, tag, ys, |ys|)
  {
    hide Firsts, Repeats, Gather, Tags;
    FirstsForgetOrder(key, tag, tagOf, xs, ys);
    GatherForgetsOrder(Tags(key, tag), xs, ys);
    RepeatsAndFirsts(key, tag, xs, |xs|);
    RepeatsAndFirsts(key, tag, ys, |ys|);
    Cancelled(Firsts(key, tag, xs, |xs|), Repeats(key, tag, xs, |xs|), Repeats(key, tag, ys, |ys|));
  }

  lemma Cancelled(common: multiset<Diagnostic>, r: multiset<Diagnostic>, t: multiset<Diagnostic>)
    ensures common + r == common + t <==> r == t
    ensures common + r == r + common && common + t == t + common
  {
    assert r == common + r - common && t == common + t - common;
  }

  // ---------------------------------------------------- what each list raises

  function LineDuplicate(i: Item): Diagnostic { Diagnostic(DuplicateItemId, OfLine(i.id)) }
  function ById(i: Item): Option<string> { Some(i.id) }
  function ByLine(i: Item): Option<string> { Some(i.platformLineId) }

  /** What is wrong with an item on its own. */
  ghost function ItemAlone(order: Order): Item -> multiset<Diagnostic> {
    (i: Item) => multiset(ItemFlags(order, i, false, false))
  }

  lemma ItemFlagsAre(order: Order, i: Item, idSeen: bool, lineSeen: bool)
    ensures multiset(ItemFlags(order, i, idSeen, lineSeen))
      == multiset(ItemFlags(order, i, false, false)) + Tag(LineDuplicate, i, idSeen) + Tag(LineDuplicate, i, lineSeen)
  {
    hide MoneyFlags, QuantityFlags;
    var s := OfLine(i.id);
    var m, q := Flag(i.orderId != order.id, Diagnostic(ItemOrderIdMismatch, s)), QuantityFlags(i.quantity, s);
    var v := MoneyFlags(ItemMoney(i), Diagnostic(NonIntegerMinorUnits, s), 4);
    assert ItemFlags(order, i, idSeen, lineSeen) == m + Flag(idSeen, LineDuplicate(i)) + Flag(lineSeen, LineDuplicate(i)) + q + v;
    assert ItemFlags(order, i, false, false) == m + [] + [] + q + v;
  }

  lemma SeenIsIn<T>(f: T -> string, key: T -> Option<string>, xs: seq<T>, i: nat)
    requires i < |xs| && forall x :: key(x) == Some(f(x))
    ensures Map(f, xs)[i] in Map(f, xs)[..i] <==> SeenBefore(key, xs, i)
  {
    var keys := Map(f, xs);
    if keys[i] in keys[..i] {
      var j :| 0 <= j < i && keys[j] == keys[i];
      assert key(xs[j]) == key(xs[i]);
    }
    if SeenBefore(key, xs, i) {
      var j :| 0 <= j < i && key(xs[j]) == key(xs[i]);
      assert keys[..i][j] == keys[i];
    }
  }

  lemma Regrouped(g: multiset<Diagnostic>, r: multiset<Diagnostic>, t: multiset<Diagnostic>, a: multiset<Diagnostic>,
        b: multiset<Diagnostic>, c: multiset<Diagnostic>)
    ensures (g + r + t) + (a + b + c) == (g + a) + (r + b) + (t + c)
  {
  }

  lemma ItemStep(order: Order, items: seq<Item>, n: nat)
    requires 0 < n <= |items|
    ensures ItemFatals(order, items, n)
      == ItemFatals(order, items, n - 1) + ItemFlags(order, items[n-1], SeenBefore(ById, items, n - 1),
          SeenBefore(ByLine, items, n - 1))
  {
    hide ItemFlags, SeenBefore;
    var f, g := (i: Item) => i.id, (i: Item) => i.platformLineId;
    assert ItemIds(items) == Map(f, items) && LineIds(items) == Map(g, items);
    SeenIsIn(f, ById, items, n - 1);
    SeenIsIn(g, ByLine, items, n - 1);
  }

  lemma {:induction false} ItemFatalsAre(order: Order, items: seq<Item>, n: nat)
    requires n <= |items|
    ensures multiset(ItemFatals(order, items, n))
      == Gather(ItemAlone(order), items, n) + Repeats(ById, LineDuplicate, items, n) + Repeats(ByLine, LineDuplicate, items, n)
  {
    hide ItemFlags, SeenBefore, Tag;
    if n > 0 {
      ItemFatalsAre(order, items, n - 1);
      ItemStep(order, items, n);
      var i, seen, lineSeen := items[n-1], SeenBefore(ById, items, n - 1), SeenBefore(ByLine, items, n - 1);
      ItemFlagsAre(order, i, seen, lineSeen);
      hide ItemFatals;
      Regrouped(Gather(ItemAlone(order), items, n - 1), Repeats(ById, LineDuplicate, items, n - 1),
          Repeats(ByLine, LineDuplicate, items, n - 1),
                ItemAlone(order)(i), Tag(LineDuplicate, i, seen), Tag(LineDuplicate, i, lineSeen));
    }
  }

  function ReversalDuplicate(r: Reversal): Diagnostic { Diagnostic(DuplicateItemId, OfReversal(r.id)) }
  function ByReversal(r: Reversal): Option<string> { Some(r.id) }

  ghost function ReversalAlone(order: Order): Reversal -> multiset<Diagnostic> {
    (r: Reversal) => multiset(ReversalFlags(order, r, false))
  }

  lemma ReversalStep(order: Order, reversals: seq<Reversal>, n: nat)
    requires 0 < n <= |reversals|
    ensures ReversalFatals(order, reversals, n)
      == ReversalFatals(order, reversals, n - 1) + ReversalFlags(order, reversals[n-1], SeenBefore(ByReversal, reversals, n - 1))
  {
    hide ReversalFlags, SeenBefore;
    var f := (r: Reversal) => r.id;
    assert ReversalIds(reversals) == Map(f, reversals);
    SeenIsIn(f, ByReversal, reversals, n - 1);
  }

  lemma ReversalFlagsAre(order: Order, r: Reversal, seen: bool)
    ensures multiset(ReversalFlags(order, r, seen)) == multiset(ReversalFlags(order, r, false)) + Tag(ReversalDuplicate, r, seen)
  {
    hide ReversalLineFlags, LinesOf;
    var mismatch := Flag(r.orderId != order.id, Diagnostic(ReversalOrderIdMismatch, OfReversal(r.id)));
    var lines := ReversalLineFlags(LinesOf(r), OfReversal(r.id), |LinesOf(r)|);
    assert ReversalFlags(order, r, seen) == Flag(seen, ReversalDuplicate(r)) + (mismatch + lines);
    assert ReversalFlags(order, r, false) == mismatch + lines;
  }

  lemma {:induction false} ReversalFatalsAre(order: Order, reversals: seq<Reversal>, n: nat)
    requires n <= |reversals|
    ensures multiset(ReversalFatals(order, reversals, n))
      == Gather(ReversalAlone(order), reversals, n) + Repeats(ByReversal, ReversalDuplicate, reversals, n)
  {
    hide ReversalFlags, SeenBefore, Tag;
    if n > 0 {
      ReversalFatalsAre(order, reversals, n - 1);
      ReversalStep(order, reversals, n);
      var r, seen := reversals[n-1], SeenBefore(ByReversal, reversals, n - 1);
      ReversalFlagsAre(order, r, seen);
      hide ReversalFatals;
      Regrouped(Gather(ReversalAlone(order), reversals, n - 1),
          Repeats(ByReversal, ReversalDuplicate, reversals, n - 1), multiset{},
                ReversalAlone(order)(r), Tag(ReversalDuplicate, r, seen), multiset{});
    }
  }

  function ShipmentDuplicate(s: Shipment): Diagnostic { Diagnostic(DuplicateItemId, OfShipment(s.id)) }
  function ByShipment(s: Shipment): Option<string> { Some(s.id) }

  ghost function ShipmentAlone(): Shipment -> multiset<Diagnostic> {
    (s: Shipment) => multiset(ShipmentFlags(s, false))
  }

  lemma ShipmentStep(shipments: seq<Shipment>, n: nat)
    requires 0 < n <= |shipments|
    ensures ShipmentFatals(shipments, n)
        == ShipmentFatals(shipments, n - 1) + ShipmentFlags(shipments[n-1], SeenBefore(ByShipment, shipments, n - 1))
  {
    hide ShipmentFlags, SeenBefore;
    var f := (s: Shipment) => s.id;
    assert ShipmentIds(shipments) == Map(f, shipments);
    SeenIsIn(f, ByShipment, shipments, n - 1);
  }

  lemma ShipmentFlagsAre(s: Shipment, seen: bool)
    ensures multiset(ShipmentFlags(s, seen)) == multiset(ShipmentFlags(s, false)) + Tag(ShipmentDuplicate, s, seen)
  {
    assert ShipmentFlags(s, seen) == Flag(seen, ShipmentDuplicate(s)) + ShipmentFlags(s, false);
  }

  lemma {:induction false} ShipmentFatalsAre(shipments: seq<Shipment>, n: nat)
    requires n <= |shipments|
    ensures multiset(ShipmentFatals(shipments, n))
        == Gather(ShipmentAlone(), shipments, n) + Repeats(ByShipment, ShipmentDuplicate, shipments, n)
  {
    hide ShipmentFlags, SeenBefore, Tag;
    if n > 0 {
      ShipmentFatalsAre(shipments, n - 1);
      ShipmentStep(shipments, n);
      var s, seen := shipments[n-1], SeenBefore(ByShipment, shipments, n - 1);
      ShipmentFlagsAre(s, seen);
      hide ShipmentFatals;
      Regrouped(Gather(ShipmentAlone(), shipments, n - 1), Repeats(ByShipment, ShipmentDuplicate, shipments, n - 1), multiset{},
                ShipmentAlone()(s), Tag(ShipmentDuplicate, s, seen), multiset{});
    }
  }

  function CostDuplicate(c: ResolvedCost): Diagnostic { OnOrder(DuplicateCostKey) }
  function ByProduct(c: ResolvedCost): Option<string> { Some(CostKey(c)) }
  function BySku(c: ResolvedCost): Option<string> { if HasSku(c) then Some(SkuOf(c)) else None }

  ghost function CostAlone(): ResolvedCost -> multiset<Diagnostic> {
    (c: ResolvedCost) => multiset(Flag(!InRange(c.unitCost), OnOrder(NonIntegerMinorUnits)))
  }

  /** The product index holds exactly the keys of the rows before. */
  lemma IndexedIsSeen(costs: seq<ResolvedCost>, n: nat)
    requires n < |costs|
    ensures CostKey(costs[n]) in IndexUpTo(costs, n).byProductKey <==> SeenBefore(ByProduct, costs, n)
  {
    hide CostKey, SkuOf, HasSku, IndexUpTo;
    IndexIndexes(costs, n);
    var index := IndexUpTo(costs, n);
    forall j | 0 <= j < n ensures costs[j] in costs[..n] { assert costs[..n][j] == costs[j]; }
    if CostKey(costs[n]) in index.byProductKey {
      var j :| 0 <= j < n && costs[..n][j] == index.byProductKey[CostKey(costs[n])];
      assert ByProduct(costs[j]) == ByProduct(costs[n]);
    }
  }

  lemma SkuIsSeen(costs: seq<ResolvedCost>, n: nat)
    requires n < |costs|
    ensures HasSku(costs[n]) && SkuOf(costs[n]) in IndexUpTo(costs, n).bySku <==> SeenBefore(BySku, costs, n)
  {
    hide CostKey, SkuOf, HasSku, IndexUpTo;
    IndexIndexes(costs, n);
    var index := IndexUpTo(costs, n);
    forall j | 0 <= j < n ensures costs[j] in costs[..n] { assert costs[..n][j] == costs[j]; }
    if HasSku(costs[n]) && SkuOf(costs[n]) in index.bySku {
      var j :| 0 <= j < n && costs[..n][j] == index.bySku[SkuOf(costs[n])];
      assert BySku(costs[j]) == BySku(costs[n]);
    }
  }

  lemma CostFlagsAre(before: CostIndex, c: ResolvedCost)
    ensures multiset(CostFlags(before, c))
      == CostAlone()(c) + Tag(CostDuplicate, c, CostKey(c) in before.byProductKey) + Tag(CostDuplicate, c, HasSku(c)
          && SkuOf(c) in before.bySku)
  {
    hide CostKey, SkuOf, HasSku;
  }

  lemma CostStep(costs: seq<ResolvedCost>, n: nat)
    requires 0 < n <= |costs|
    ensures var c := costs[n-1];
      multiset(CostFatals(costs, n)) == multiset(CostFatals(costs, n - 1))
        + (CostAlone()(c) + Tag(CostDuplicate, c, SeenBefore(ByProduct, costs, n - 1)) + Tag(CostDuplicate, c,
            SeenBefore(BySku, costs, n - 1)))
  {
    hide IndexUpTo, CostKey, SkuOf, HasSku, SeenBefore, CostFlags, CostAlone, Tag;
    IndexedIsSeen(costs, n - 1);
    SkuIsSeen(costs, n - 1);
    CostFlagsAre(IndexUpTo(costs, n - 1), costs[n-1]);
  }

  lemma {:induction false} CostFatalsAre(costs: seq<ResolvedCost>, n: nat)
    requires n <= |costs|
    ensures multiset(CostFatals(costs, n))
      == Gather(CostAlone(), costs, n) + Repeats(ByProduct, CostDuplicate, costs, n) + Repeats(BySku, CostDuplicate, costs, n)
  {
    hide IndexUpTo, CostFlags, SeenBefore, Tag;
    if n > 0 {
      CostFatalsAre(costs, n - 1);
      CostStep(costs, n);
      var c := costs[n-1];
      hide CostFatals;
      Regrouped(Gather(CostAlone(), costs, n - 1), Repeats(ByProduct, CostDuplicate, costs, n - 1),
          Repeats(BySku, CostDuplicate, costs, n - 1),
                CostAlone()(c), Tag(CostDuplicate, c, SeenBefore(ByProduct, costs, n - 1)),
                    Tag(CostDuplicate, c, SeenBefore(BySku, costs, n - 1)));
    }
  }

  // ------------------------------------------------------------ all the lists

  /** Everything but what the items raise. */
  function OtherFatals(input: ProfitInput): seq<Diagnostic> {
    HeaderFatals(input) + RuleFatals(input.feeRuleSet) + MoneyFlags(OrderMoney(input.order), OnOrder(NonIntegerMinorUnits), 5)
    + ReversalFatals(input.order, input.reversals, |input.reversals|)
    + ShipmentFatals(input.shipments, |input.shipments|)
    + CostFatals(input.costs, |input.costs|)
  }

  lemma FatalsSplit(input: ProfitInput)
    ensures multiset(Fatals(input))
        == multiset(OtherFatals(input)) + multiset(ItemFatals(input.order, input.items, |input.items|))
  {
    hide HeaderFatals, RuleFatals, MoneyFlags, OrderMoney, ItemFatals, ReversalFatals, ShipmentFatals, CostFatals;
  }

  lemma ReversalsForgetOrder(order: Order, xs: seq<Reversal>, ys: seq<Reversal>)
    requires multiset(xs) == multiset(ys)
    ensures multiset(ReversalFatals(order, xs, |xs|)) == multiset(ReversalFatals(order, ys, |ys|))
  {
    hide ReversalFatals, ReversalAlone, Repeats, Gather;
    ReversalFatalsAre(order, xs, |xs|);
    ReversalFatalsAre(order, ys, |ys|);
    GatherForgetsOrder(ReversalAlone(order), xs, ys);
    RepeatsForgetOrder(ByReversal, ReversalDuplicate, (k: string) => Diagnostic(DuplicateItemId, OfReversal(k)), xs, ys);
  }

  lemma ShipmentsForgetOrder(xs: seq<Shipment>, ys: seq<Shipment>)
    requires multiset(xs) == multiset(ys)
    ensures multiset(ShipmentFatals(xs, |xs|)) == multiset(ShipmentFatals(ys, |ys|))
  {
    hide ShipmentFatals, ShipmentAlone, Repeats, Gather;
    ShipmentFatalsAre(xs, |xs|);
    ShipmentFatalsAre(ys, |ys|);
    GatherForgetsOrder(ShipmentAlone(), xs, ys);
    RepeatsForgetOrder(ByShipment, ShipmentDuplicate, (k: string) => Diagnostic(DuplicateItemId, OfShipment(k)), xs, ys);
  }

  lemma OthersForgetOrder(a: ProfitInput, b: ProfitInput)
    requires SameContent(a, b)
    ensures multiset(OtherFatals(a)) == multiset(OtherFatals(b))
  {
    hide RuleFatals, MoneyFlags, OrderMoney, ReversalFatals, ShipmentFatals, CostFatals, Flag;
    ReversalsForgetOrder(a.order, a.reversals, b.reversals);
    ShipmentsForgetOrder(a.shipments, b.shipments);
    CostsForgetOrder(a.costs, b.costs);
    assert HeaderFatals(a) == HeaderFatals(b);
  }

  lemma CostsForgetOrder(xs: seq<ResolvedCost>, ys: seq<ResolvedCost>)
    requires multiset(xs) == multiset(ys)
    ensures multiset(CostFatals(xs, |xs|)) == multiset(CostFatals(ys, |ys|))
  {
    hide CostFatals, CostAlone, Repeats, Gather;
    CostFatalsAre(xs, |xs|);
    CostFatalsAre(ys, |ys|);
    GatherForgetsOrder(CostAlone(), xs, ys);
    RepeatsForgetOrder(ByProduct, CostDuplicate, (k: string) => OnOrder(DuplicateCostKey), xs, ys);
    RepeatsForgetOrder(BySku, CostDuplicate, (k: string) => OnOrder(DuplicateCostKey), xs, ys);
  }

  /** Items that share a platform line share an id. */
  ghost predicate LinesNameOneItem(items: seq<Item>) {
    forall x, y :: x in items && y in items && x.platformLineId == y.platformLineId ==> x.id == y.id
  }

  /** The id of the items on a line. */
  ghost function NamedBy(items: seq<Item>, line: string): string {
    if x :| x in items && x.platformLineId == line then x.id else ""
  }

  lemma ItemsForgetOrder(order: Order, xs: seq<Item>, ys: seq<Item>)
    requires multiset(xs) == multiset(ys) && LinesNameOneItem(xs)
    ensures multiset(ItemFatals(order, xs, |xs|)) == multiset(ItemFatals(order, ys, |ys|))
  {
    hide ItemFatals, ItemAlone, Repeats, Gather;
    ItemFatalsAre(order, xs, |xs|);
    ItemFatalsAre(order, ys, |ys|);
    GatherForgetsOrder(ItemAlone(order), xs, ys);
    RepeatsForgetOrder(ById, LineDuplicate, (k: string) => Diagnostic(DuplicateItemId, OfLine(k)), xs, ys);
    RepeatsForgetOrder(ByLine, LineDuplicate, (k: string) => Diagnostic(DuplicateItemId, OfLine(NamedBy(xs, k))), xs, ys);
  }

  // ------------------------------------------------------------ when it shows

  /** From the third element on, swapping the first two of one key changes nothing that is seen before. */
  lemma SwapSeen(x: Item, y: Item, rest: seq<Item>, i: nat, key: Item -> Option<string>)
    requires 2 <= i < |rest| + 2
    ensures var xs, ys := [x, y] + rest, [y, x] + rest; SeenBefore(key, xs, i) <==> SeenBefore(key, ys, i)
  {
    var xs, ys := [x, y] + rest, [y, x] + rest;
    assert xs[i] == ys[i] && xs[0] == ys[1] && xs[1] == ys[0];
    if SeenBefore(key, xs, i) {
      var j :| 0 <= j < i && key(xs[j]) == key(xs[i]);
      assert key(ys[if j == 0 then 1 else if j == 1 then 0 else j]) == key(ys[i]);
    }
    if SeenBefore(key, ys, i) {
      var j :| 0 <= j < i && key(ys[j]) == key(ys[i]);
      assert key(xs[if j == 0 then 1 else if j == 1 then 0 else j]) == key(xs[i]);
    }
  }

  lemma StillEqual(r: multiset<Diagnostic>, a: multiset<Diagnostic>, t: multiset<Diagnostic>, b: multiset<Diagnostic>,
        more: multiset<Diagnostic>)
    requires r + a == t + b
    ensures (r + more) + a == (t + more) + b
  {
    assert (r + more) + a == (r + a) + more && (t + more) + b == (t + b) + more;
  }

  lemma {:induction false} SwapShows(x: Item, y: Item, rest: seq<Item>, n: nat)
    requires 2 <= n <= |rest| + 2 && x.platformLineId == y.platformLineId
    ensures var xs, ys := [x, y] + rest, [y, x] + rest;
      Repeats(ByLine, LineDuplicate, xs, n) + multiset{LineDuplicate(x)}
          == Repeats(ByLine, LineDuplicate, ys, n) + multiset{LineDuplicate(y)}
  {
    hide SeenBefore, Tag, LineDuplicate;
    var xs, ys := [x, y] + rest, [y, x] + rest;
    if n == 2 {
      FirstRepeat(xs);
      FirstRepeat(ys);
    } else {
      SwapShows(x, y, rest, n - 1);
      SwapSeen(x, y, rest, n - 1, ByLine);
      assert xs[n-1] == ys[n-1];
      var more := Tag(LineDuplicate, xs[n-1], SeenBefore(ByLine, xs, n - 1));
      StillEqual(Repeats(ByLine, LineDuplicate, xs, n - 1), multiset{LineDuplicate(x)},
                 Repeats(ByLine, LineDuplicate, ys, n - 1), multiset{LineDuplicate(y)}, more);
    }
  }

  lemma FirstRepeat(xs: seq<Item>)
    requires |xs| >= 2 && xs[0].platformLineId == xs[1].platformLineId
    ensures Repeats(ByLine, LineDuplicate, xs, 2) == multiset{LineDuplicate(xs[1])}
  {
    assert !SeenBefore(ByLine, xs, 0);
    assert ByLine(xs[0]) == ByLine(xs[1]) && SeenBefore(ByLine, xs, 1);
    assert Repeats(ByLine, LineDuplicate, xs, 1) == Repeats(ByLine, LineDuplicate, xs, 0) + Tag(LineDuplicate, xs[0], false);
  }

  lemma TakenOut(items: seq<Item>, x: Item) returns (rest: seq<Item>)
    requires x in items
    ensures multiset(items) == multiset{x} + multiset(rest)
  {
    var i :| 0 <= i < |items| && items[i] == x;
    rest := items[..i] + items[i+1..];
    Extract(items, i);
  }

  lemma MovedToFront(items: seq<Item>, x: Item, y: Item) returns (rest: seq<Item>)
    requires x in items && y in items && x != y
    ensures multiset([x, y] + rest) == multiset(items) == multiset([y, x] + rest)
  {
    var without := TakenOut(items, x);
    assert y in multiset(items) && y !in multiset{x};
    assert y in multiset(without);
    rest := TakenOut(without, y);
  }

  lemma ItemsShowOrder(order: Order, x: Item, y: Item, rest: seq<Item>)
    requires x.platformLineId == y.platformLineId && x.id != y.id
    ensures var xs, ys := [x, y] + rest, [y, x] + rest;
      multiset(ItemFatals(order, xs, |xs|)) != multiset(ItemFatals(order, ys, |ys|)) && ItemFatals(order, xs, |xs|) != []
  {
    hide ItemFatals, ItemAlone, Repeats, Gather;
    var xs, ys := [x, y] + rest, [y, x] + rest;
    assert multiset(xs) == multiset(ys);
    ItemFatalsAre(order, xs, |xs|);
    ItemFatalsAre(order, ys, |ys|);
    GatherForgetsOrder(ItemAlone(order), xs, ys);
    RepeatsForgetOrder(ById, LineDuplicate, (k: string) => Diagnostic(DuplicateItemId, OfLine(k)), xs, ys);
    SwapShows(x, y, rest, |rest| + 2);
    OneMore(Gather(ItemAlone(order), xs, |xs|) + Repeats(ById, LineDuplicate, xs, |xs|), Repeats(ByLine, LineDuplicate, xs, |xs|),
            Repeats(ByLine, LineDuplicate, ys, |ys|), LineDuplicate(x), LineDuplicate(y));
  }

  lemma OneMore(common: multiset<Diagnostic>, r: multiset<Diagnostic>, t: multiset<Diagnostic>, a: Diagnostic, b: Diagnostic)
    requires a != b && r + multiset{a} == t + multiset{b}
    ensures common + r != common + t && r != multiset{}
  {
    assert (r + multiset{a})[b] == r[b] && (t + multiset{b})[b] == t[b] + 1;
    assert (common + r)[b] == common[b] + r[b] && (common + t)[b] == common[b] + t[b];
  }

  // ------------------------------------------------------------- the outcome

  lemma SortIsOfTheSame(ds: seq<Diagnostic>, es: seq<Diagnostic>)
    ensures SortDiagnostics(ds) == SortDiagnostics(es) <==> multiset(ds) == multiset(es)
  {
    hide NotAfter;
    Sorting.SortPermutes(NotAfter, ds);
    Sorting.SortPermutes(NotAfter, es);
    if multiset(ds) == multiset(es) { SortedReportForgetsOrder(ds, es); }
  }

  lemma RejectedOutcome(a: ProfitInput)
    requires Fatals(a) != []
    ensures Profit.Compute(a) == Profit.RejectedOrder(a.order.id, a.store.storeId, SortDiagnostics(Fatals(a)))
  {
    hide Fatals, SortDiagnostics;
  }

  /** Two rejections of the same facts read the same exactly when the items raised the same. */
  lemma RejectionsAgree(a: ProfitInput, b: ProfitInput)
    requires SameContent(a, b) && Fatals(a) != [] && Fatals(b) != []
    ensures Profit.Compute(a) == Profit.Compute(b)
      <==> multiset(ItemFatals(a.order, a.items, |a.items|)) == multiset(ItemFatals(b.order, b.items, |b.items|))
  {
    hide Fatals, OtherFatals, ItemFatals, SortDiagnostics, Profit.Compute;
    RejectedOutcome(a);
    RejectedOutcome(b);
    FatalsSplit(a);
    FatalsSplit(b);
    OthersForgetOrder(a, b);
    SortIsOfTheSame(Fatals(a), Fatals(b));
    Cancelled(multiset(OtherFatals(a)), multiset(ItemFatals(a.order, a.items, |a.items|)),
        multiset(ItemFatals(b.order, b.items, |b.items|)));
  }

  /** A platform line under two ids is rejected in more than one way, by the order of arrival. */
  lemma TwoRejections(a: ProfitInput, x: Item, y: Item) returns (b: ProfitInput, c: ProfitInput)
    requires x in a.items && y in a.items && x.platformLineId == y.platformLineId && x.id != y.id
    ensures SameContent(a, b) && SameContent(a, c) && Profit.Compute(b) != Profit.Compute(c)
  {
    hide Fatals, OtherFatals, ItemFatals, Profit.Compute;
    var rest := MovedToFront(a.items, x, y);
    b, c := a.(items := [x, y] + rest), a.(items := [y, x] + rest);
    ItemsShowOrder(a.order, x, y, rest);
    ItemsShowOrder(a.order, y, x, rest);
    FatalsSplit(b);
    FatalsSplit(c);
    RejectionsAgree(b, c);
  }

  /**
   * Whatever becomes of an order, computed or rejected, the same facts come to the same outcome in
   * every order of arrival if and only if items that share a platform line share an id.
   */
  lemma OutcomeForgetsOrderIff(a: ProfitInput)
    ensures (forall b :: SameContent(a, b) ==> Profit.Compute(b) == Profit.Compute(a)) <==> LinesNameOneItem(a.items)
  {
    hide Profit.Compute, SameContent, LinesNameOneItem, Acceptable;
    if LinesNameOneItem(a.items) {
      forall b | SameContent(a, b) ensures Profit.Compute(b) == Profit.Compute(a) { SameOutcome(a, b); }
    } else {
      var x, y := TwoIds(a.items);
      var b, c := TwoRejections(a, x, y);
    }
  }

  lemma TwoIds(items: seq<Item>) returns (x: Item, y: Item)
    requires !LinesNameOneItem(items)
    ensures x in items && y in items && x.platformLineId == y.platformLineId && x.id != y.id
  {
    x, y :| x in items && y in items && x.platformLineId == y.platformLineId && x.id != y.id;
  }

  lemma SameOutcome(a: ProfitInput, b: ProfitInput)
    requires SameContent(a, b) && LinesNameOneItem(a.items)
    ensures Profit.Compute(b) == Profit.Compute(a)
  {
    hide Profit.Compute, LinesNameOneItem, Acceptable, Fatals, ItemFatals;
    ProfitLaws.ReingestionInvariance(a, b);
    AcceptanceForgetsOrder(a, b);
    AcceptedIffAcceptable(a);
    AcceptedIffAcceptable(b);
    if !Acceptable(a) {
      ItemsForgetOrder(a.order, a.items, b.items);
      RejectionsAgree(a, b);
    }
  }
}
