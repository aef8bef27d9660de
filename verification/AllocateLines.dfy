/** The per-line breakdown: each figure of the order is spread over its lines in one allocation, so each column adds up. */
module AllocateLines {
  import opened Prelude
  import opened Sequences
  import opened Sums
  import opened Money
  import opened Domain
  import opened Allocation
  import opened Allocator
  import opened Cogs
  import opened Revenue
  import opened Reversals
  import opened Shipping

  datatype Amounts = Amounts(
    shippingRevenue: int, codFeeRevenue: int, outboundParcels: seq<Parcel>, returnParcels: seq<Parcel>,
    outboundCost: int, returnCost: int, gatewayCost: int, codCost: int)

  datatype ProfitLine = ProfitLine(
    itemId: string, productId: string, variantId: Option<string>, sku: Option<string>, quantity: int,
    discount: int, net: int, shippingRevenue: int, codFeeRevenue: int,
    unitCost: int, cogs: int, costSource: CostSource, historyId: Option<string>,
    outbound: int, returned: int, gateway: int, cod: int,
    reversedQuantity: int, reversedRevenue: int, restocked: int, impact: int,
    margin: int, coveredRevenue: int)

  /** Every line weighs its item's own total, which a cost-only order does not zero. */
  function WeightTable(items: seq<Item>): map<string, int> { TableOf(ItemIds(items), LineTotals(items)) }

  function LineBuckets(lines: seq<LineRevenue>, weights: map<string, int>): (r: seq<Bucket>)
    ensures |r| == |lines|
    ensures forall i :: 0 <= i < |lines| ==> r[i] == Bucket(lines[i].itemId, Get(weights, lines[i].itemId))
  {
    Map((l: LineRevenue) => Bucket(l.itemId, Get(weights, l.itemId)), lines)
  }

  // ----------------------------------------------------------------- parcels

  function AddChecked(out: map<string, int>, buckets: seq<Bucket>, shares: map<string, int>,
        n: nat): Result<map<string, int>>
    requires n <= |buckets|
  {
    if n == 0 then Ok(out)
    else
      var before :- AddChecked(out, buckets, shares, n - 1);
      var amount :- ToMinor(Get(before, buckets[n-1].key) + Get(shares, buckets[n-1].key));
      Ok(before[buckets[n-1].key := amount])
  }

  function InParcel(lines: seq<LineRevenue>, parcel: Parcel): seq<LineRevenue> {
    Filter((l: LineRevenue) => l.itemId in parcel.lineIds, lines)
  }

  /** The first n parcels, each spread over its own lines; None from the first parcel that has none of the order's. */
  function PerParcel(parcels: seq<Parcel>, lines: seq<LineRevenue>, weights: map<string, int>,
        n: nat): Result<Option<map<string, int>>>
    requires n <= |parcels|
  {
    if n == 0 then Ok(Some(ZeroTally(lines)))
    else
      var before :- PerParcel(parcels, lines, weights, n - 1);
      match before
      case None => Ok(None)
      case Some(out) =>
        var inParcel := InParcel(lines, parcels[n-1]);
        if inParcel == [] then Ok(None)
        else
          var shares :- Allocate(parcels[n-1].cost, LineBuckets(inParcel, weights));
          var added :- AddChecked(out, LineBuckets(inParcel, weights), shares, |inParcel|);
          Ok(Some(added))
  }

  predicate AllMapped(parcels: seq<Parcel>) {
    parcels != [] && forall i :: 0 <= i < |parcels| ==> parcels[i].lineIds != []
  }

  function SpreadParcels(parcels: seq<Parcel>, total: int, lines: seq<LineRevenue>,
        weights: map<string, int>): Result<map<string, int>> {
    if !AllMapped(parcels) then Allocate(total, LineBuckets(lines, weights))
    else
      var mapped :- PerParcel(parcels, lines, weights, |parcels|);
      match mapped
      case None => Allocate(total, LineBuckets(lines, weights))
      case Some(out) => Ok(out)
  }

  // ---------------------------------------------------------- return shipping

  function ReturnedRevenue(reversals: seq<LineReversal>, id: string): int {
    if reversals == [] then 0
    else if reversals[0].itemId == id then reversals[0].revenue
    else ReturnedRevenue(reversals[1..], id)
  }

  function ReturnedBuckets(lines: seq<LineRevenue>, reversals: seq<LineReversal>): (r: seq<Bucket>)
    ensures |r| == |lines|
    ensures forall i :: 0 <= i < |lines| ==> r[i] == Bucket(lines[i].itemId, ReturnedRevenue(reversals, lines[i].itemId))
  {
    Map((l: LineRevenue) => Bucket(l.itemId, ReturnedRevenue(reversals, l.itemId)), lines)
  }

  predicate AnyReturned(buckets: seq<Bucket>) {
    exists i :: 0 <= i < |buckets| && buckets[i].weight > 0
  }

  /** On the lines that came back, or on the parcels when nothing was reversed. */
  function SpreadReturn(amounts: Amounts, lines: seq<LineRevenue>, reversals: seq<LineReversal>,
        weights: map<string, int>): Result<map<string, int>> {
    var returned := ReturnedBuckets(lines, reversals);
    if AnyReturned(returned) then Allocate(amounts.returnCost, returned)
    else SpreadParcels(amounts.returnParcels, amounts.returnCost, lines, weights)
  }

  // ------------------------------------------------------------------- lines

  /** The six allocations every line draws its share from. */
  datatype Spreads = Spreads(
    shippingRevenue: map<string, int>, codFeeRevenue: map<string, int>, outbound: map<string, int>,
    returned: map<string, int>, gateway: map<string, int>, cod: map<string, int>)

  function AllSpreads(lines: seq<LineRevenue>, reversals: seq<LineReversal>, amounts: Amounts,
        weights: map<string, int>): Result<Spreads> {
    var buckets := LineBuckets(lines, weights);
    var shippingRevenue :- Allocate(amounts.shippingRevenue, buckets);
    var codFeeRevenue :- Allocate(amounts.codFeeRevenue, buckets);
    var outbound :- SpreadParcels(amounts.outboundParcels, amounts.outboundCost, lines, weights);
    var returned :- SpreadReturn(amounts, lines, reversals, weights);
    var gateway :- Allocate(amounts.gatewayCost, buckets);
    var cod :- Allocate(amounts.codCost, buckets);
    Ok(Spreads(shippingRevenue, codFeeRevenue, outbound, returned, gateway, cod))
  }

  datatype Lookups = Lookups(items: map<string, Item>, cogs: map<string, LineCogs>, reversals: map<string, LineReversal>)

  function LookupsOf(items: seq<Item>, cogs: seq<LineCogs>, reversals: seq<LineReversal>): Lookups {
    Lookups(TableOf(ItemIds(items), items),
            TableOf(CogsIds(cogs), cogs),
            TableOf(ReversalIds(reversals), reversals))
  }

  function CogsIds(cogs: seq<LineCogs>): (r: seq<string>)
    ensures |r| == |cogs|
    ensures forall i :: 0 <= i < |cogs| ==> r[i] == cogs[i].itemId
  {
    Map((c: LineCogs) => c.itemId, cogs)
  }

  function ReversalIds(reversals: seq<LineReversal>): (r: seq<string>)
    ensures |r| == |reversals|
    ensures forall i :: 0 <= i < |reversals| ==> r[i] == reversals[i].itemId
  {
    Map((l: LineReversal) => l.itemId, reversals)
  }

  /** The margin of a line from its nine terms. */
  function Margin(net: int, shippingRevenue: int, codFeeRevenue: int, impact: int, cogs: int, outbound: int,
        returned: int, gateway: int, cod: int): Result<int> {
    var earned :- AddMinor([net, shippingRevenue, codFeeRevenue, impact]);
    var spent :- AddMinor([cogs, outbound, returned, gateway, cod]);
    SubMinor(earned, spent)
  }

  function LineOf(line: LineRevenue, l: Lookups, s: Spreads): Result<ProfitLine> {
    var id := line.itemId;
    var item := if id in l.items then Some(l.items[id]) else None;
    var cogs := if id in l.cogs then l.cogs[id] else LineCogs(id, 0, 0, NoSource, None, false);
    var reversal := if id in l.reversals then l.reversals[id] else LineReversal(id, 0, 0, 0, 0);
    var margin :- Margin(line.net, Get(s.shippingRevenue, id), Get(s.codFeeRevenue, id), reversal.impact,
                         cogs.cogs, Get(s.outbound, id), Get(s.returned, id), Get(s.gateway, id), Get(s.cod, id));
    Ok(ProfitLine(
      id, if item.Some? then item.value.productId else "", if item.Some? then item.value.variantId else None,
      if item.Some? then item.value.sku else None, if item.Some? then item.value.quantity else 0,
      line.discount, line.net, Get(s.shippingRevenue, id), Get(s.codFeeRevenue, id),
      cogs.unitCost, cogs.cogs, cogs.source, cogs.historyId,
      Get(s.outbound, id), Get(s.returned, id), Get(s.gateway, id), Get(s.cod, id),
      reversal.quantity, reversal.revenue, reversal.restocked, reversal.impact,
      margin, if cogs.covered then line.net else 0))
  }

  function LinesUpTo(lines: seq<LineRevenue>, l: Lookups, s: Spreads, n: nat): Result<seq<ProfitLine>>
    requires n <= |lines|
  {
    if n == 0 then Ok([])
    else
      var before :- LinesUpTo(lines, l, s, n - 1);
      var line :- LineOf(lines[n-1], l, s);
      Ok(before + [line])
  }

  function AllocateOrderCostsToLines(items: seq<Item>, lines: seq<LineRevenue>, cogs: seq<LineCogs>,
        reversals: seq<LineReversal>, amounts: Amounts): Result<seq<ProfitLine>> {
    if lines == [] then Ok([])
    else
      var spreads :- AllSpreads(lines, reversals, amounts, WeightTable(items));
      LinesUpTo(lines, LookupsOf(items, cogs, reversals), spreads, |lines|)
  }

  // --------------------------------------------------------------- the loops

  method AddCheckedLoop(start: map<string, int>, buckets: seq<Bucket>,
        shares: map<string, int>) returns (r: Result<map<string, int>>)
    ensures r == AddChecked(start, buckets, shares, |buckets|)
  {
    var out := start;
    for i := 0 to |buckets|
      invariant AddChecked(start, buckets, shares, i) == Ok(out)
    {
      var amount := ToMinor(Get(out, buckets[i].key) + Get(shares, buckets[i].key));
      if amount.Err? {
        AddCheckedFails(start, buckets, shares, i + 1, |buckets|);
        return Err(amount.error);
      }
      out := out[buckets[i].key := amount.value];
    }
    return Ok(out);
  }

  lemma {:induction false} AddCheckedFails(out: map<string, int>, buckets: seq<Bucket>, shares: map<string, int>,
        i: nat, n: nat)
    requires i <= n <= |buckets| && AddChecked(out, buckets, shares, i).Err?
    ensures AddChecked(out, buckets, shares, n) == AddChecked(out, buckets, shares, i)
  {
    if i < n { AddCheckedFails(out, buckets, shares, i, n - 1); }
  }

  /** Once a parcel has stopped the walk, with an error or by falling back, later parcels change nothing. */
  lemma {:induction false} PerParcelStops(parcels: seq<Parcel>, lines: seq<LineRevenue>, weights: map<string, int>,
        i: nat, n: nat)
    requires i <= n <= |parcels|
    requires PerParcel(parcels, lines, weights, i).Err? || PerParcel(parcels, lines, weights, i).value.None?
    ensures PerParcel(parcels, lines, weights, n) == PerParcel(parcels, lines, weights, i)
  {
    hide InParcel, Allocate, AddChecked, LineBuckets;
    if i < n { PerParcelStops(parcels, lines, weights, i, n - 1); }
  }

  method SpreadParcelsLoop(parcels: seq<Parcel>, total: int, lines: seq<LineRevenue>, weights: map<string, int>)
    returns (r: Result<map<string, int>>)
    ensures r == SpreadParcels(parcels, total, lines, weights)
  {
    hide InParcel, Allocate, AddChecked, LineBuckets;
    if !AllMapped(parcels) {
      r := AllocateMinor(total, LineBuckets(lines, weights));
      return;
    }
    var out := ZeroTally(lines);
    for i := 0 to |parcels|
      invariant PerParcel(parcels, lines, weights, i) == Ok(Some(out))
    {
      var inParcel := InParcel(lines, parcels[i]);
      if inParcel == [] {
        PerParcelStops(parcels, lines, weights, i + 1, |parcels|);
        r := AllocateMinor(total, LineBuckets(lines, weights));
        return;
      }
      var shares := AllocateMinor(parcels[i].cost, LineBuckets(inParcel, weights));
      if shares.Err? {
        PerParcelStops(parcels, lines, weights, i + 1, |parcels|);
        return shares;
      }
      var added := AddCheckedLoop(out, LineBuckets(inParcel, weights), shares.value);
      if added.Err? {
        PerParcelStops(parcels, lines, weights, i + 1, |parcels|);
        return added;
      }
      out := added.value;
    }
    return Ok(out);
  }

  method SpreadReturnLoop(amounts: Amounts, lines: seq<LineRevenue>, reversals: seq<LineReversal>, weights: map<string, int>)
    returns (r: Result<map<string, int>>)
    ensures r == SpreadReturn(amounts, lines, reversals, weights)
  {
    hide ReturnedBuckets, Allocate, SpreadParcels;
    var returned := ReturnedBuckets(lines, reversals);
    if AnyReturned(returned) {
      r := AllocateMinor(amounts.returnCost, returned);
    } else {
      r := SpreadParcelsLoop(amounts.returnParcels, amounts.returnCost, lines, weights);
    }
  }

  method AllSpreadsLoop(lines: seq<LineRevenue>, reversals: seq<LineReversal>, amounts: Amounts, weights: map<string, int>)
    returns (r: Result<Spreads>)
    ensures r == AllSpreads(lines, reversals, amounts, weights)
  {
    hide LineBuckets, Allocate, SpreadParcels, SpreadReturn;
    var buckets := LineBuckets(lines, weights);
    var shippingRevenue := AllocateMinor(amounts.shippingRevenue, buckets);
    if shippingRevenue.Err? { return Err(shippingRevenue.error); }
    var codFeeRevenue := AllocateMinor(amounts.codFeeRevenue, buckets);
    if codFeeRevenue.Err? { return Err(codFeeRevenue.error); }
    var outbound := SpreadParcelsLoop(amounts.outboundParcels, amounts.outboundCost, lines, weights);
    if outbound.Err? { return Err(outbound.error); }
    var returned := SpreadReturnLoop(amounts, lines, reversals, weights);
    if returned.Err? { return Err(returned.error); }
    var gateway := AllocateMinor(amounts.gatewayCost, buckets);
    if gateway.Err? { return Err(gateway.error); }
    var cod := AllocateMinor(amounts.codCost, buckets);
    if cod.Err? { return Err(cod.error); }
    return Ok(Spreads(shippingRevenue.value, codFeeRevenue.value, outbound.value, returned.value, gateway.value, cod.value));
  }

  lemma {:induction false} LinesFail(lines: seq<LineRevenue>, l: Lookups, s: Spreads, i: nat, n: nat)
    requires i <= n <= |lines| && LinesUpTo(lines, l, s, i).Err?
    ensures LinesUpTo(lines, l, s, n) == LinesUpTo(lines, l, s, i)
  {
    hide LineOf;
    if i < n { LinesFail(lines, l, s, i, n - 1); }
  }

  method AllocateOrderCostsToLinesLoop(items: seq<Item>, lines: seq<LineRevenue>, cogs: seq<LineCogs>,
        reversals: seq<LineReversal>, amounts: Amounts)
    returns (r: Result<seq<ProfitLine>>)
    ensures r == AllocateOrderCostsToLines(items, lines, cogs, reversals, amounts)
  {
    hide LineOf, AllSpreads, LookupsOf, WeightTable;
    if lines == [] { return Ok([]); }
    var spreads := AllSpreadsLoop(lines, reversals, amounts, WeightTable(items));
    if spreads.Err? { return Err(spreads.error); }
    var lookups := LookupsOf(items, cogs, reversals);
    var out: seq<ProfitLine> := [];
    for i := 0 to |lines|
      invariant LinesUpTo(lines, lookups, spreads.value, i) == Ok(out)
    {
      var line := LineOf(lines[i], lookups, spreads.value);
      if line.Err? {
        LinesFail(lines, lookups, spreads.value, i + 1, |lines|);
        return Err(line.error);
      }
      out := out + [line.value];
    }
    return Ok(out);
  }
}
