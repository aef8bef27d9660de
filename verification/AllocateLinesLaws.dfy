/** The per-line breakdown sums back to the order, column by column. */
module AllocateLinesLaws {
  import opened Prelude
  import opened Sequences
  import opened Sums
  import opened Money
  import opened Domain
  import opened Allocation
  import opened Allocator
  import opened CappedSpread
  import opened Cogs
  import opened Revenue
  import opened Reversals
  import opened Shipping
  import opened AllocateLines

  function LineIds(lines: seq<LineRevenue>): (r: seq<string>)
    ensures |r| == |lines|
    ensures forall i :: 0 <= i < |lines| ==> r[i] == lines[i].itemId
  {
    Map((l: LineRevenue) => l.itemId, lines)
  }

  lemma LineBucketKeys(lines: seq<LineRevenue>, weights: map<string, int>)
    ensures Keys(LineBuckets(lines, weights)) == LineIds(lines)
  {
  }

  lemma ReturnedBucketKeys(lines: seq<LineRevenue>, reversals: seq<LineReversal>)
    ensures Keys(ReturnedBuckets(lines, reversals)) == LineIds(lines)
  {
  }

  // ----------------------------------------------------------------- parcels

  lemma {:induction false} AddCheckedAdds(out: map<string, int>, buckets: seq<Bucket>, shares: map<string, int>, n: nat)
    requires n <= |buckets| && AddChecked(out, buckets, shares, n).Ok?
    ensures AddChecked(out, buckets, shares, n).value == AddUpTo(out, buckets, shares, n)
  {
    if n > 0 { AddCheckedAdds(out, buckets, shares, n - 1); }
  }

  lemma InParcelKeys(lines: seq<LineRevenue>, parcel: Parcel, weights: map<string, int>)
    ensures var buckets := LineBuckets(InParcel(lines, parcel), weights);
      forall i :: 0 <= i < |buckets| ==> buckets[i].key in LineIds(lines)
  {
    var inParcel := InParcel(lines, parcel);
    forall i | 0 <= i < |inParcel| ensures inParcel[i].itemId in LineIds(lines) {
      assert inParcel[i] in inParcel;
      var j :| 0 <= j < |lines| && lines[j] == inParcel[i];
      assert LineIds(lines)[j] == inParcel[i].itemId;
    }
  }

  /** Spreading one parcel moves the tally by its whole cost. */
  lemma ParcelAdds(out: map<string, int>, lines: seq<LineRevenue>, parcel: Parcel, weights: map<string, int>)
    requires Distinct(LineIds(lines))
    requires var buckets := LineBuckets(InParcel(lines, parcel), weights);
      && buckets != [] && Allocate(parcel.cost, buckets).Ok?
      && AddChecked(out, buckets, Allocate(parcel.cost, buckets).value, |buckets|).Ok?
    ensures var buckets := LineBuckets(InParcel(lines, parcel), weights);
      Total(AddChecked(out, buckets, Allocate(parcel.cost, buckets).value, |buckets|).value, LineIds(lines))
        == Total(out, LineIds(lines)) + parcel.cost
  {
    hide Allocate, InParcel, AddChecked, Total;
    var buckets := LineBuckets(InParcel(lines, parcel), weights);
    var shares := Allocate(parcel.cost, buckets).value;
    AddCheckedAdds(out, buckets, shares, |buckets|);
    InParcelKeys(lines, parcel, weights);
    AddUpToTotal(out, buckets, shares, |buckets|, LineIds(lines));
    AllocateHolds(parcel.cost, buckets);
    SharesAreTotal(buckets, shares);
  }

  lemma SharesAreTotal(buckets: seq<Bucket>, shares: map<string, int>)
    ensures SharesUpTo(buckets, shares, |buckets|) == Total(shares, Keys(buckets))
  {
    assert Keys(buckets)[..|buckets|] == Keys(buckets);
  }

  lemma {:induction false} PerParcelTotal(parcels: seq<Parcel>, lines: seq<LineRevenue>, weights: map<string, int>, n: nat)
    requires n <= |parcels| && Distinct(LineIds(lines))
    requires PerParcel(parcels, lines, weights, n).Ok? && PerParcel(parcels, lines, weights, n).value.Some?
    ensures Total(PerParcel(parcels, lines, weights, n).value.value, LineIds(lines)) == Sum(ParcelCosts(parcels)[..n])
  {
    hide InParcel, Allocate, AddChecked, Total, ZeroTally;
    if n == 0 {
      ZeroTotal(lines);
    } else {
      PerParcelTotal(parcels, lines, weights, n - 1);
      var out := PerParcel(parcels, lines, weights, n - 1).value.value;
      ParcelAdds(out, lines, parcels[n-1], weights);
      SumTake(ParcelCosts(parcels), n - 1);
    }
  }

  lemma ZeroTotal(lines: seq<LineRevenue>)
    ensures Total(ZeroTally(lines), LineIds(lines)) == 0
  {
    SumOfConstant(Along(ZeroTally(lines), LineIds(lines)), 0);
  }

  lemma SpreadTotal(total: int, lines: seq<LineRevenue>, weights: map<string, int>)
    requires Allocate(total, LineBuckets(lines, weights)).Ok?
    ensures Total(Allocate(total, LineBuckets(lines, weights)).value, LineIds(lines)) == total
  {
    AllocateHolds(total, LineBuckets(lines, weights));
    LineBucketKeys(lines, weights);
  }

  /** Through every path, freight spread over the lines sums to what the parcels cost. */
  lemma SpreadParcelsTies(parcels: seq<Parcel>, total: int, lines: seq<LineRevenue>, weights: map<string, int>)
    requires SpreadParcels(parcels, total, lines, weights).Ok? && Distinct(LineIds(lines))
    requires parcels != [] ==> total == Sum(ParcelCosts(parcels))
    ensures Total(SpreadParcels(parcels, total, lines, weights).value, LineIds(lines)) == total
  {
    hide Allocate, PerParcel, LineBuckets, Total, Sum;
    if Allocate(total, LineBuckets(lines, weights)).Ok? { SpreadTotal(total, lines, weights); }
    if AllMapped(parcels) && PerParcel(parcels, lines, weights, |parcels|).value.Some? {
      PerParcelTotal(parcels, lines, weights, |parcels|);
      assert ParcelCosts(parcels)[..|parcels|] == ParcelCosts(parcels);
    }
  }

  lemma SpreadReturnTies(amounts: Amounts, lines: seq<LineRevenue>, reversals: seq<LineReversal>, weights: map<string, int>)
    requires SpreadReturn(amounts, lines, reversals, weights).Ok? && Distinct(LineIds(lines))
    requires amounts.returnParcels != [] ==> amounts.returnCost == Sum(ParcelCosts(amounts.returnParcels))
    ensures Total(SpreadReturn(amounts, lines, reversals, weights).value, LineIds(lines)) == amounts.returnCost
  {
    hide Allocate, SpreadParcels, Total, Sum, ReturnedBuckets;
    var returned := ReturnedBuckets(lines, reversals);
    if AnyReturned(returned) {
      AllocateHolds(amounts.returnCost, returned);
      ReturnedBucketKeys(lines, reversals);
    } else {
      SpreadParcelsTies(amounts.returnParcels, amounts.returnCost, lines, weights);
    }
  }

  /** What each of the six allocations sums to. */
  ghost predicate SpreadsTie(s: Spreads, amounts: Amounts, ids: seq<string>) {
    && Total(s.shippingRevenue, ids) == amounts.shippingRevenue
    && Total(s.codFeeRevenue, ids) == amounts.codFeeRevenue
    && Total(s.outbound, ids) == amounts.outboundCost
    && Total(s.returned, ids) == amounts.returnCost
    && Total(s.gateway, ids) == amounts.gatewayCost
    && Total(s.cod, ids) == amounts.codCost
  }

  lemma AllSpreadsTie(lines: seq<LineRevenue>, reversals: seq<LineReversal>, amounts: Amounts, weights: map<string, int>)
    requires AllSpreads(lines, reversals, amounts, weights).Ok? && Distinct(LineIds(lines))
    requires amounts.outboundParcels != [] ==> amounts.outboundCost == Sum(ParcelCosts(amounts.outboundParcels))
    requires amounts.returnParcels != [] ==> amounts.returnCost == Sum(ParcelCosts(amounts.returnParcels))
    ensures SpreadsTie(AllSpreads(lines, reversals, amounts, weights).value, amounts, LineIds(lines))
  {
    hide Allocate, SpreadParcels, SpreadReturn, LineBuckets, Total, Sum;
    SpreadTotal(amounts.shippingRevenue, lines, weights);
    SpreadTotal(amounts.codFeeRevenue, lines, weights);
    SpreadParcelsTies(amounts.outboundParcels, amounts.outboundCost, lines, weights);
    SpreadReturnTies(amounts, lines, reversals, weights);
    SpreadTotal(amounts.gatewayCost, lines, weights);
    SpreadTotal(amounts.codCost, lines, weights);
  }

  // ------------------------------------------------------------------- lines

  /** The inputs describe the same lines, in the same order, with no line twice. */
  ghost predicate SameLines(lines: seq<LineRevenue>, cogs: seq<LineCogs>, reversals: seq<LineReversal>) {
    && |lines| == |cogs| == |reversals| && Distinct(LineIds(lines))
    && (forall i :: 0 <= i < |lines| ==> cogs[i].itemId == reversals[i].itemId == lines[i].itemId)
  }

  /** What a reported line carries, given where its inputs stand. */
  ghost predicate Carries(out: ProfitLine, line: LineRevenue, cogs: LineCogs, reversal: LineReversal, s: Spreads) {
    && out.itemId == line.itemId && out.net == line.net && out.discount == line.discount
    && out.shippingRevenue == Get(s.shippingRevenue, line.itemId) && out.codFeeRevenue == Get(s.codFeeRevenue, line.itemId)
    && out.cogs == cogs.cogs && out.unitCost == cogs.unitCost
    && out.outbound == Get(s.outbound, line.itemId) && out.returned == Get(s.returned, line.itemId)
    && out.gateway == Get(s.gateway, line.itemId) && out.cod == Get(s.cod, line.itemId)
    && out.reversedRevenue == reversal.revenue && out.restocked == reversal.restocked && out.impact == reversal.impact
    && out.reversedQuantity == reversal.quantity
    && out.margin == out.net + out.shippingRevenue + out.codFeeRevenue + out.impact
                     - out.cogs - out.outbound - out.returned - out.gateway - out.cod
  }

  lemma MarginAdds(net: int, shippingRevenue: int, codFeeRevenue: int, impact: int, cogs: int, outbound: int,
        returned: int, gateway: int, cod: int)
    requires Margin(net, shippingRevenue, codFeeRevenue, impact, cogs, outbound, returned, gateway, cod).Ok?
    ensures Margin(net, shippingRevenue, codFeeRevenue, impact, cogs, outbound, returned, gateway, cod).value
         == net + shippingRevenue + codFeeRevenue + impact - cogs - outbound - returned - gateway - cod
  {
    hide AddMinor;
    Add4(net, shippingRevenue, codFeeRevenue, impact);
    Add5(cogs, outbound, returned, gateway, cod);
  }

  lemma LookupsAt(items: seq<Item>, lines: seq<LineRevenue>, cogs: seq<LineCogs>, reversals: seq<LineReversal>, i: nat)
    requires SameLines(lines, cogs, reversals) && i < |lines|
    ensures var l, id := LookupsOf(items, cogs, reversals), lines[i].itemId;
      id in l.cogs && l.cogs[id] == cogs[i] && id in l.reversals && l.reversals[id] == reversals[i]
  {
    assert CogsIds(cogs) == LineIds(lines);
    assert ReversalIds(reversals) == LineIds(lines);
    TableLookup(CogsIds(cogs), cogs, i);
    TableLookup(ReversalIds(reversals), reversals, i);
  }

  lemma LineCarries(items: seq<Item>, lines: seq<LineRevenue>, cogs: seq<LineCogs>, reversals: seq<LineReversal>,
        s: Spreads, i: nat)
    requires SameLines(lines, cogs, reversals) && i < |lines|
    requires LineOf(lines[i], LookupsOf(items, cogs, reversals), s).Ok?
    ensures Carries(LineOf(lines[i], LookupsOf(items, cogs, reversals), s).value, lines[i], cogs[i], reversals[i], s)
  {
    hide Margin, LookupsOf;
    LookupsAt(items, lines, cogs, reversals, i);
    var id := lines[i].itemId;
    MarginAdds(lines[i].net, Get(s.shippingRevenue, id), Get(s.codFeeRevenue, id), reversals[i].impact,
               cogs[i].cogs, Get(s.outbound, id), Get(s.returned, id), Get(s.gateway, id), Get(s.cod, id));
  }

  lemma {:induction false} LinesCarry(items: seq<Item>, lines: seq<LineRevenue>, cogs: seq<LineCogs>,
        reversals: seq<LineReversal>, s: Spreads, n: nat)
    requires SameLines(lines, cogs, reversals) && n <= |lines|
    requires LinesUpTo(lines, LookupsOf(items, cogs, reversals), s, n).Ok?
    ensures var out := LinesUpTo(lines, LookupsOf(items, cogs, reversals), s, n).value;
      |out| == n && forall i :: 0 <= i < n ==> Carries(out[i], lines[i], cogs[i], reversals[i], s)
  {
    hide LineOf, LookupsOf, Carries, SameLines;
    if n > 0 {
      LinesCarry(items, lines, cogs, reversals, s, n - 1);
      assert n - 1 < |lines| && |cogs| == |lines| == |reversals| by { SameLengths(lines, cogs, reversals); }
      LineCarries(items, lines, cogs, reversals, s, n - 1);
    }
  }

  lemma SameLengths(lines: seq<LineRevenue>, cogs: seq<LineCogs>, reversals: seq<LineReversal>)
    requires SameLines(lines, cogs, reversals)
    ensures |lines| == |cogs| == |reversals|
  {
  }

  // ----------------------------------------------------------------- columns

  function Column(f: ProfitLine -> int, lines: seq<ProfitLine>): (r: seq<int>)
    ensures |r| == |lines|
    ensures forall i :: 0 <= i < |lines| ==> r[i] == f(lines[i])
  {
    Map(f, lines)
  }

  function MarginOf(l: ProfitLine): int { l.margin }
  function NetOf(l: ProfitLine): int { l.net }
  function ShippingRevenueOf(l: ProfitLine): int { l.shippingRevenue }
  function CodFeeRevenueOf(l: ProfitLine): int { l.codFeeRevenue }
  function CogsOf(l: ProfitLine): int { l.cogs }
  function OutboundOf(l: ProfitLine): int { l.outbound }
  function ReturnedOf(l: ProfitLine): int { l.returned }
  function GatewayOf(l: ProfitLine): int { l.gateway }
  function CodOf(l: ProfitLine): int { l.cod }
  function ImpactOf(l: ProfitLine): int { l.impact }
  function RestockedOf(l: ProfitLine): int { l.restocked }
  function ReversedRevenueOf(l: ProfitLine): int { l.reversedRevenue }

  function SumOf(f: ProfitLine -> int, lines: seq<ProfitLine>): int { Sum(Column(f, lines)) }

  lemma {:induction false} MarginsAddUp(lines: seq<ProfitLine>)
    requires forall i :: 0 <= i < |lines| ==> MarginFormula(lines[i])
    ensures SumOf(MarginOf, lines) == SumOf(NetOf, lines) + SumOf(ShippingRevenueOf, lines) + SumOf(CodFeeRevenueOf, lines)
      + SumOf(ImpactOf, lines) - SumOf(CogsOf, lines) - SumOf(OutboundOf, lines) - SumOf(ReturnedOf, lines)
      - SumOf(GatewayOf, lines) - SumOf(CodOf, lines)
  {
    if lines != [] {
      MarginsAddUp(lines[1..]);
      ColumnStep(MarginOf, lines);
      ColumnStep(NetOf, lines);
      ColumnStep(ShippingRevenueOf, lines);
      ColumnStep(CodFeeRevenueOf, lines);
      ColumnStep(ImpactOf, lines);
      ColumnStep(CogsOf, lines);
      ColumnStep(OutboundOf, lines);
      ColumnStep(ReturnedOf, lines);
      ColumnStep(GatewayOf, lines);
      ColumnStep(CodOf, lines);
      assert MarginFormula(lines[0]);
    }
  }

  ghost predicate MarginFormula(l: ProfitLine) {
    l.margin == l.net + l.shippingRevenue + l.codFeeRevenue + l.impact - l.cogs - l.outbound - l.returned - l.gateway - l.cod
  }

  lemma ColumnStep(f: ProfitLine -> int, lines: seq<ProfitLine>)
    requires lines != []
    ensures SumOf(f, lines) == f(lines[0]) + SumOf(f, lines[1..])
  {
    assert Column(f, lines)[1..] == Column(f, lines[1..]);
  }

  /** The columns of the breakdown: each sums to the order-level figure it was spread from. */
  ghost predicate ColumnsTie(out: seq<ProfitLine>, lines: seq<LineRevenue>, cogs: seq<LineCogs>,
        reversals: seq<LineReversal>, amounts: Amounts) {
    && SumOf(NetOf, out) == Sum(Nets(lines))
    && SumOf(ShippingRevenueOf, out) == amounts.shippingRevenue
    && SumOf(CodFeeRevenueOf, out) == amounts.codFeeRevenue
    && SumOf(CogsOf, out) == Sum(LineCosts(cogs))
    && SumOf(OutboundOf, out) == amounts.outboundCost
    && SumOf(ReturnedOf, out) == amounts.returnCost
    && SumOf(GatewayOf, out) == amounts.gatewayCost
    && SumOf(CodOf, out) == amounts.codCost
    && SumOf(ImpactOf, out) == Sum(Impacts(reversals))
    && SumOf(RestockedOf, out) == Sum(Restocks(reversals))
    && SumOf(ReversedRevenueOf, out) == Sum(Revenues(reversals))
    && SumOf(MarginOf, out) == SumOf(NetOf, out) + amounts.shippingRevenue + amounts.codFeeRevenue + SumOf(ImpactOf, out)
        - SumOf(CogsOf, out) - amounts.outboundCost - amounts.returnCost - amounts.gatewayCost - amounts.codCost
  }

  /** A column read off the inputs. */
  lemma InputColumns(out: seq<ProfitLine>, lines: seq<LineRevenue>, cogs: seq<LineCogs>, reversals: seq<LineReversal>,
        s: Spreads)
    requires |out| == |lines| == |cogs| == |reversals|
    requires forall i :: 0 <= i < |out| ==> Carries(out[i], lines[i], cogs[i], reversals[i], s)
    ensures Column(NetOf, out) == Nets(lines)
    ensures Column(CogsOf, out) == LineCosts(cogs)
    ensures Column(ImpactOf, out) == Impacts(reversals)
    ensures Column(RestockedOf, out) == Restocks(reversals)
    ensures Column(ReversedRevenueOf, out) == Revenues(reversals)
    ensures forall i :: 0 <= i < |out| ==> MarginFormula(out[i])
  {
  }

  lemma SpreadColumns(out: seq<ProfitLine>, lines: seq<LineRevenue>, cogs: seq<LineCogs>,
        reversals: seq<LineReversal>, s: Spreads)
    requires |out| == |lines| == |cogs| == |reversals|
    requires forall i :: 0 <= i < |out| ==> Carries(out[i], lines[i], cogs[i], reversals[i], s)
    ensures Column(ShippingRevenueOf, out) == Along(s.shippingRevenue, LineIds(lines))
    ensures Column(CodFeeRevenueOf, out) == Along(s.codFeeRevenue, LineIds(lines))
    ensures Column(OutboundOf, out) == Along(s.outbound, LineIds(lines))
    ensures Column(ReturnedOf, out) == Along(s.returned, LineIds(lines))
    ensures Column(GatewayOf, out) == Along(s.gateway, LineIds(lines))
    ensures Column(CodOf, out) == Along(s.cod, LineIds(lines))
  {
  }

  /** Every column of the breakdown sums exactly to what was spread. */
  lemma LinesTie(items: seq<Item>, lines: seq<LineRevenue>, cogs: seq<LineCogs>, reversals: seq<LineReversal>,
        amounts: Amounts)
    requires lines != [] && SameLines(lines, cogs, reversals)
    requires AllocateOrderCostsToLines(items, lines, cogs, reversals, amounts).Ok?
    requires amounts.outboundParcels != [] ==> amounts.outboundCost == Sum(ParcelCosts(amounts.outboundParcels))
    requires amounts.returnParcels != [] ==> amounts.returnCost == Sum(ParcelCosts(amounts.returnParcels))
    ensures var out := AllocateOrderCostsToLines(items, lines, cogs, reversals, amounts).value;
      ColumnsTie(out, lines, cogs, reversals, amounts) && |out| == |lines|
  {
    hide AllSpreads, LinesUpTo, LookupsOf, WeightTable, Carries, Sum, Along, Column, LineIds;
    var s := AllSpreads(lines, reversals, amounts, WeightTable(items)).value;
    var out := AllocateOrderCostsToLines(items, lines, cogs, reversals, amounts).value;
    AllSpreadsTie(lines, reversals, amounts, WeightTable(items));
    LinesCarry(items, lines, cogs, reversals, s, |lines|);
    InputColumns(out, lines, cogs, reversals, s);
    SpreadColumns(out, lines, cogs, reversals, s);
    MarginsAddUp(out);
  }
}
