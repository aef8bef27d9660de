/** Revenue without VAT: line totals, what was charged on top, and discounts not yet reflected. */
module Revenue {
  import opened Prelude
  import opened Sequences
  import opened Sums
  import opened Money
  import opened Domain
  import opened Allocation
  import opened Allocator

  datatype LineRevenue = LineRevenue(itemId: string, gross: int, discount: int, net: int)

  datatype OrderRevenue = OrderRevenue(
    lines: seq<LineRevenue>, items: int, shipping: int, codFee: int, orderDiscount: int, total: int,
    vatCollected: int, shippingDiscount: int, codFeeDiscount: int, reconciles: bool)

  function Unreflected(order: Order, target: DiscountTarget): Result<int> {
    AddMinor(Map((d: Discount) => d.amountExVat, Filter((d: Discount) => d.target == target && !d.reflected, order.discounts)))
  }

  function ItemIds(items: seq<Item>): (r: seq<string>)
    ensures |r| == |items|
    ensures forall i :: 0 <= i < |items| ==> r[i] == items[i].id
  {
    Map((i: Item) => i.id, items)
  }

  function LineTotals(items: seq<Item>): (r: seq<int>)
    ensures |r| == |items|
    ensures forall i :: 0 <= i < |items| ==> r[i] == items[i].lineTotalExVat
  {
    Map((i: Item) => i.lineTotalExVat, items)
  }

  function ItemBuckets(items: seq<Item>): (r: seq<Bucket>)
    ensures |r| == |items|
    ensures forall i :: 0 <= i < |items| ==> r[i] == Bucket(items[i].id, items[i].lineTotalExVat)
  {
    Map((i: Item) => Bucket(i.id, i.lineTotalExVat), items)
  }

  function DiscountedLine(item: Item, allocation: map<string, int>): Result<LineRevenue> {
    var share := Get(allocation, item.id);
    var net :- SubMinor(item.lineTotalExVat, share);
    Ok(LineRevenue(item.id, item.lineTotalExVat, share, net))
  }

  function DiscountedLines(items: seq<Item>, allocation: map<string, int>, n: nat): Result<seq<LineRevenue>>
    requires n <= |items|
  {
    if n == 0 then Ok([])
    else
      var before :- DiscountedLines(items, allocation, n - 1);
      var line :- DiscountedLine(items[n-1], allocation);
      Ok(before + [line])
  }

  /** Spreads the item discount over the lines by line total. */
  function ComputeLineRevenue(items: seq<Item>, itemDiscount: int): Result<seq<LineRevenue>> {
    if items == [] then Ok([])
    else
      var allocation :- Allocate(itemDiscount, ItemBuckets(items));
      DiscountedLines(items, allocation, |items|)
  }

  function ZeroLines(items: seq<Item>): (r: seq<LineRevenue>)
    ensures |r| == |items|
    ensures forall i :: 0 <= i < |items| ==> r[i] == LineRevenue(items[i].id, 0, 0, 0)
  {
    Map((i: Item) => LineRevenue(i.id, 0, 0, 0), items)
  }

  function RevenueDiagnostics(reconciles: bool, empty: bool, recognition: Recognition): seq<Diagnostic> {
    (if reconciles then [] else [OnOrder(TotalsDoNotReconcile)])
    + (if empty then [OnOrder(OrderHasNoItems)] else [])
    + (match recognition
       case Recognized => []
       case CostOnly(_) => [OnOrder(RecognitionCostOnly)]
       case Excluded(_) => [OnOrder(OrderExcluded)])
  }

  function ComputeRevenue(order: Order, items: seq<Item>, recognition: Recognition): Result<Computed<OrderRevenue>> {
    var itemsGross :- AddMinor(LineTotals(items));
    var itemDiscount :- Unreflected(order, OnItems);
    var shippingDiscount :- Unreflected(order, OnShipping);
    var codDiscount :- Unreflected(order, OnCodFee);
    var orderDiscount :- AddMinor([itemDiscount, shippingDiscount, codDiscount]);
    var minusDiscount :- ToMinor(-orderDiscount);
    var expected :- AddMinor([order.subtotalExVat, minusDiscount, order.shippingChargedExVat,
        order.codFeeChargedExVat, order.vatAmount]);
    var reconciles := expected == order.totalIncVat && order.subtotalExVat == itemsGross;
    var diagnostics := RevenueDiagnostics(reconciles, items == [], recognition);
    if !recognition.Recognized? then
      Ok(Computed(OrderRevenue(ZeroLines(items), 0, 0, 0, 0, 0, 0, 0, 0, reconciles), diagnostics))
    else
      var total :- AddMinor([itemsGross, order.shippingChargedExVat, order.codFeeChargedExVat, minusDiscount]);
      var lines :- ComputeLineRevenue(items, itemDiscount);
      Ok(Computed(OrderRevenue(lines, itemsGross, order.shippingChargedExVat, order.codFeeChargedExVat, orderDiscount,
                               total, order.vatAmount, shippingDiscount, codDiscount, reconciles), diagnostics))
  }

  // -------------------------------------------------------------------- laws

  function Nets(lines: seq<LineRevenue>): (r: seq<int>)
    ensures |r| == |lines|
    ensures forall i :: 0 <= i < |lines| ==> r[i] == lines[i].net
  {
    Map((l: LineRevenue) => l.net, lines)
  }

  ghost predicate Aligned(items: seq<Item>, lines: seq<LineRevenue>) {
    |lines| == |items| && forall i :: 0 <= i < |items| ==> lines[i].itemId == items[i].id
  }

  lemma {:induction false} DiscountedLinesFacts(items: seq<Item>, allocation: map<string, int>, n: nat)
    requires n <= |items| && DiscountedLines(items, allocation, n).Ok?
    ensures var lines := DiscountedLines(items, allocation, n).value;
      |lines| == n && forall i :: 0 <= i < n ==>
        && lines[i].itemId == items[i].id && lines[i].discount == Get(allocation, items[i].id)
        && lines[i].net == items[i].lineTotalExVat - lines[i].discount
  {
    if n > 0 { DiscountedLinesFacts(items, allocation, n - 1); }
  }

  lemma BucketKeys(items: seq<Item>)
    ensures Keys(ItemBuckets(items)) == ItemIds(items)
  {
  }

  /** Spreading an item discount leaves the lines' nets summing to gross less the discount. */
  lemma LineRevenueTies(items: seq<Item>, itemDiscount: int)
    requires items != [] && ComputeLineRevenue(items, itemDiscount).Ok?
    ensures var lines := ComputeLineRevenue(items, itemDiscount).value;
      Aligned(items, lines) && Sum(Nets(lines)) == Sum(LineTotals(items)) - itemDiscount
  {
    var allocation := Allocate(itemDiscount, ItemBuckets(items)).value;
    var lines := ComputeLineRevenue(items, itemDiscount).value;
    AllocateHolds(itemDiscount, ItemBuckets(items));
    BucketKeys(items);
    DiscountedLinesFacts(items, allocation, |items|);
    SumLinear(Nets(lines), 1, LineTotals(items), -1, Along(allocation, ItemIds(items)));
  }

  /** The order's revenue is its lines' nets plus the net shipping and cash-fee revenue, however it is recognized. */
  lemma RevenueTies(order: Order, items: seq<Item>, recognition: Recognition)
    requires ComputeRevenue(order, items, recognition).Ok?
    ensures var r := ComputeRevenue(order, items, recognition).value.value;
      && Aligned(items, r.lines)
      && (items != [] ==> r.total == Sum(Nets(r.lines)) + (r.shipping - r.shippingDiscount) + (r.codFee - r.codFeeDiscount))
      && r.total == r.items + r.shipping + r.codFee - r.orderDiscount
  {
    if recognition.Recognized? {
      RecognizedRevenueTies(order, items, recognition);
    } else {
      SumOfConstant(Nets(ZeroLines(items)), 0);
    }
  }

  lemma RecognizedRevenueTies(order: Order, items: seq<Item>, recognition: Recognition)
    requires recognition.Recognized? && ComputeRevenue(order, items, recognition).Ok?
    ensures var r := ComputeRevenue(order, items, recognition).value.value;
      && Aligned(items, r.lines)
      && (items != [] ==> r.total == Sum(Nets(r.lines)) + (r.shipping - r.shippingDiscount) + (r.codFee - r.codFeeDiscount))
      && r.total == r.items + r.shipping + r.codFee - r.orderDiscount
  {
    hide AddMinor, Sum, Map, Filter;
    var r := ComputeRevenue(order, items, recognition).value.value;
    var itemDiscount := Unreflected(order, OnItems).value;
    AddMinorIsSum(LineTotals(items));
    if items != [] { LineRevenueTies(items, itemDiscount); }
    Add3(itemDiscount, r.shippingDiscount, r.codFeeDiscount);
    Add4(r.items, order.shippingChargedExVat, order.codFeeChargedExVat, -r.orderDiscount);
  }
}
