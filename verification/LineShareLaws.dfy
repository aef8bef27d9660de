/** What each single line carries of the order's figures: its share by the items' totals, its parcels, its returns. */
module LineShareLaws {
  import opened Prelude
  import opened Sequences
  import opened Sums
  import opened Domain
  import opened Allocation
  import opened Allocator
  import opened Splits
  import opened CappedSpread
  import opened Revenue
  import opened Shipping
  import opened AllocateLines
  import opened AllocateLinesLaws
  import Reversals

  /** The lines describe the items, one for one. */
  ghost predicate Describe(lines: seq<LineRevenue>, items: seq<Item>) {
    && |lines| == |items| && Distinct(ItemIds(items))
    && forall i :: 0 <= i < |lines| ==> lines[i].itemId == items[i].id
  }

  lemma WeightsRead(lines: seq<LineRevenue>, items: seq<Item>, i: nat)
    requires Describe(lines, items) && i < |items|
    ensures Get(WeightTable(items), lines[i].itemId) == items[i].lineTotalExVat
  {
    TableLookup(ItemIds(items), LineTotals(items), i);
  }

  lemma SameIds(lines: seq<LineRevenue>, items: seq<Item>)
    requires Describe(lines, items)
    ensures LineIds(lines) == ItemIds(items)
  {
  }

  /** An allocation, read off along its own keys, is the split. */
  lemma AllocationSplits(total: int, buckets: seq<Bucket>)
    requires Allocate(total, buckets).Ok? && buckets != []
    ensures IsSplit(total, Keys(buckets), WeightsOf(buckets), Along(Allocate(total, buckets).value, Keys(buckets)))
  {
    hide Allocate, IsSplit, Shares, Distinct;
    AllocateHolds(total, buckets);
    SharesSplit(total, buckets);
    var m := Allocate(total, buckets).value;
    forall i | 0 <= i < |buckets| ensures Along(m, Keys(buckets))[i]
        == Shares(total, buckets)[i] { assert Keys(buckets)[i] == buckets[i].key; }
    assert Along(m, Keys(buckets)) == Shares(total, buckets);
  }

  lemma SpreadSplits(total: int, lines: seq<LineRevenue>, items: seq<Item>)
    requires Describe(lines, items) && lines != [] && Allocate(total, LineBuckets(lines, WeightTable(items))).Ok?
    ensures IsSplit(total, ItemIds(items), LineTotals(items),
        Along(Allocate(total, LineBuckets(lines, WeightTable(items))).value, ItemIds(items)))
  {
    hide Allocate, IsSplit, Distinct, WeightTable;
    var buckets := LineBuckets(lines, WeightTable(items));
    AllocationSplits(total, buckets);
    LineBucketKeys(lines, WeightTable(items));
    SameIds(lines, items);
    forall i | 0 <= i < |items| ensures WeightsOf(buckets)[i] == LineTotals(items)[i] { WeightsRead(lines, items, i); }
    assert WeightsOf(buckets) == LineTotals(items);
  }

  // ----------------------------------------------------------------- parcels

  /** The positions of the lines a parcel holds, in order. */
  ghost predicate HeldAt(parcel: Parcel, ids: seq<string>, at: seq<nat>) {
    && (forall k :: 0 <= k < |at| ==> at[k] < |ids| && ids[at[k]] in parcel.lineIds)
    && (forall j, k :: 0 <= j < k < |at| ==> at[j] < at[k])
    && (forall i :: 0 <= i < |ids| && ids[i] in parcel.lineIds ==> i in at)
  }

  function Taken<T>(xs: seq<T>, at: seq<nat>): (r: seq<T>)
    requires forall k :: 0 <= k < |at| ==> at[k] < |xs|
    ensures |r| == |at| && forall k :: 0 <= k < |at| ==> r[k] == xs[at[k]]
  {
    seq(|at|, k requires 0 <= k < |at| => xs[at[k]])
  }

  /** The parcel's cost, split over the lines it holds by their totals; the other lines have no part in it. */
  ghost predicate SharesParcel(parcel: Parcel, ids: seq<string>, totals: seq<int>, part: seq<int>) {
    && |ids| == |totals| == |part|
    && (exists at :: HeldAt(parcel, ids, at) && IsSplit(parcel.cost, Taken(ids, at), Taken(totals, at), Taken(part, at)))
    && (forall i :: 0 <= i < |ids| && ids[i] !in parcel.lineIds ==> part[i] == 0)
  }

  /** The lines of a parcel, where they stand, and the buckets its cost is split over. */
  lemma HeldBuckets(parcel: Parcel, lines: seq<LineRevenue>, items: seq<Item>) returns (at: seq<nat>)
    requires Describe(lines, items)
    ensures HeldAt(parcel, ItemIds(items), at)
    ensures var buckets := LineBuckets(InParcel(lines, parcel), WeightTable(items));
      Keys(buckets) == Taken(ItemIds(items), at) && WeightsOf(buckets) == Taken(LineTotals(items), at)
  {
    hide Distinct, WeightTable, Filter, Picks, Get;
    var held := (l: LineRevenue) => l.itemId in parcel.lineIds;
    assert InParcel(lines, parcel) == Filter(held, lines);
    at := FilterPicks(held, lines);
    var buckets := LineBuckets(InParcel(lines, parcel), WeightTable(items));
    PicksHold(at, held, lines, InParcel(lines, parcel), parcel, items);
    LineBucketKeys(InParcel(lines, parcel), WeightTable(items));
    forall k | 0 <= k < |at| ensures WeightsOf(buckets)[k] == LineTotals(items)[at[k]] { WeightsRead(lines, items, at[k]); }
  }

  lemma HeldShares(parcel: Parcel, ids: seq<string>, totals: seq<int>, at: seq<nat>, buckets: seq<Bucket>)
    requires |ids| == |totals| && HeldAt(parcel, ids, at) && buckets != [] && Allocate(parcel.cost, buckets).Ok?
    requires Keys(buckets) == Taken(ids, at) && WeightsOf(buckets) == Taken(totals, at)
    ensures SharesParcel(parcel, ids, totals, Along(Allocate(parcel.cost, buckets).value, ids))
  {
    hide Allocate, IsSplit, Distinct, Keys, WeightsOf;
    var shares := Allocate(parcel.cost, buckets).value;
    AllocationSplits(parcel.cost, buckets);
    AllocateHolds(parcel.cost, buckets);
    assert Along(shares, Keys(buckets)) == Taken(Along(shares, ids), at);
    forall i | 0 <= i < |ids| && ids[i] !in parcel.lineIds ensures Along(shares, ids)[i] == 0 {
      assert ids[i] !in Taken(ids, at);
    }
  }

  lemma ParcelSplits(parcel: Parcel, lines: seq<LineRevenue>, items: seq<Item>)
    requires Describe(lines, items) && InParcel(lines, parcel) != []
    requires Allocate(parcel.cost, LineBuckets(InParcel(lines, parcel), WeightTable(items))).Ok?
    ensures SharesParcel(parcel, ItemIds(items), LineTotals(items),
      Along(Allocate(parcel.cost, LineBuckets(InParcel(lines, parcel), WeightTable(items))).value, ItemIds(items)))
  {
    hide *;
    var at := HeldBuckets(parcel, lines, items);
    HeldShares(parcel, ItemIds(items), LineTotals(items), at, LineBuckets(InParcel(lines, parcel), WeightTable(items)));
  }

  lemma PicksHold(at: seq<nat>, held: LineRevenue -> bool, lines: seq<LineRevenue>, found: seq<LineRevenue>, parcel: Parcel,
        items: seq<Item>)
    requires Picks(at, held, lines, found) && Describe(lines, items)
    requires forall l :: held(l) <==> l.itemId in parcel.lineIds
    ensures HeldAt(parcel, ItemIds(items), at) && |at| == |found|
    ensures forall k :: 0 <= k < |at| ==> at[k] < |lines| && found[k] == lines[at[k]]
  {
  }

  /** The parts of the parcels that fall to the i-th line. */
  function PartsOf(parts: seq<seq<int>>, i: nat): (r: seq<int>)
    requires forall p :: 0 <= p < |parts| ==> i < |parts[p]|
    ensures |r| == |parts| && forall p :: 0 <= p < |parts| ==> r[p] == parts[p][i]
  {
    seq(|parts|, p requires 0 <= p < |parts| => parts[p][i])
  }

  /** Each parcel is split over the lines it holds, and a line carries its parts of the parcels. */
  ghost predicate SharesParcels(parcels: seq<Parcel>, ids: seq<string>, totals: seq<int>, parts: seq<seq<int>>,
        column: seq<int>) {
    && |parts| == |parcels| && |column| == |ids|
    && (forall p :: 0 <= p < |parcels| ==> SharesParcel(parcels[p], ids, totals, parts[p]))
    && (forall i :: 0 <= i < |ids| ==> column[i] == Sum(PartsOf(parts, i)))
  }

  lemma {:induction false} AddedAt(into: map<string, int>, buckets: seq<Bucket>, shares: map<string, int>, n: nat, id: string)
    requires n <= |buckets| && Distinct(Keys(buckets))
    ensures Get(AddUpTo(into, buckets, shares, n), id) == Get(into, id) + if id in Keys(buckets)[..n] then Get(shares, id) else 0
  {
    hide Distinct;
    if n > 0 {
      AddedAt(into, buckets, shares, n - 1, id);
      var keys := Keys(buckets);
      assert keys[n-1] == buckets[n-1].key && keys[..n] == keys[..n-1] + [keys[n-1]];
      KeyIsNew(keys, n - 1);
    }
  }

  lemma KeyIsNew(keys: seq<string>, n: nat)
    requires Distinct(keys) && n < |keys|
    ensures keys[n] !in keys[..n]
  {
  }

  /** Adding an allocation raises every line by its share. */
  lemma AllocationAdds(out: map<string, int>, buckets: seq<Bucket>, total: int, id: string)
    requires Allocate(total, buckets).Ok?
    requires AddChecked(out, buckets, Allocate(total, buckets).value, |buckets|).Ok?
    ensures Get(AddChecked(out, buckets, Allocate(total, buckets).value, |buckets|).value, id)
         == Get(out, id) + Get(Allocate(total, buckets).value, id)
  {
    hide *;
    AllocateHolds(total, buckets);
    AddCheckedAdds(out, buckets, Allocate(total, buckets).value, |buckets|);
    AddedAll(out, buckets, Allocate(total, buckets).value, id);
  }

  lemma AddedAll(into: map<string, int>, buckets: seq<Bucket>, shares: map<string, int>, id: string)
    requires Distinct(Keys(buckets)) && forall k :: k in shares <==> k in Keys(buckets)
    ensures Get(AddUpTo(into, buckets, shares, |buckets|), id) == Get(into, id) + Get(shares, id)
  {
    hide Distinct, Keys;
    AddedAt(into, buckets, shares, |buckets|, id);
    assert Keys(buckets)[..|buckets|] == Keys(buckets);
  }

  lemma PartsJoin(parts: seq<seq<int>>, part: seq<int>, i: nat)
    requires (forall p :: 0 <= p < |parts| ==> i < |parts[p]|) && i < |part|
    ensures Sum(PartsOf(parts + [part], i)) == Sum(PartsOf(parts, i)) + part[i]
  {
    assert PartsOf(parts + [part], i) == PartsOf(parts, i) + [part[i]];
    SumSnoc(PartsOf(parts, i), part[i]);
  }

  lemma PartsGrow(parcels: seq<Parcel>, ids: seq<string>, totals: seq<int>, before: seq<seq<int>>, out: seq<int>,
        parcel: Parcel, part: seq<int>, after: seq<int>)
    requires SharesParcels(parcels, ids, totals, before, out) && SharesParcel(parcel, ids, totals, part)
    requires |after| == |ids| && |part| == |ids| && forall i :: 0 <= i < |ids| ==> after[i] == out[i] + part[i]
    ensures SharesParcels(parcels + [parcel], ids, totals, before + [part], after)
  {
    hide SharesParcel;
    var all, parts := parcels + [parcel], before + [part];
    forall p | 0 <= p < |all| ensures SharesParcel(all[p], ids, totals, parts[p]) {
      if p < |parcels| { assert all[p] == parcels[p] && parts[p] == before[p]; }
    }
    forall p | 0 <= p < |all| ensures |parts[p]| == |ids| { PartsAlign(all[p], ids, totals, parts[p]); }
    forall p | 0 <= p < |parcels| ensures |before[p]| == |ids| { PartsAlign(parcels[p], ids, totals, before[p]); }
    forall i | 0 <= i < |ids| ensures after[i] == Sum(PartsOf(parts, i)) { PartsJoin(before, part, i); }
  }

  lemma {:induction false} EachParcelSplits(parcels: seq<Parcel>, lines: seq<LineRevenue>, items: seq<Item>, n: nat)
    returns (parts: seq<seq<int>>)
    requires n <= |parcels| && Describe(lines, items)
    requires PerParcel(parcels, lines, WeightTable(items), n).Ok? && PerParcel(parcels, lines, WeightTable(items), n).value.Some?
    ensures SharesParcels(parcels[..n], ItemIds(items), LineTotals(items), parts,
      Along(PerParcel(parcels, lines, WeightTable(items), n).value.value, ItemIds(items)))
  {
    hide Allocate, Describe, WeightTable, InParcel, AddChecked, SharesParcel, SharesParcels, LineBuckets, Get;
    var ids := ItemIds(items);
    if n == 0 {
      parts := [];
      NothingShared(lines, ids, LineTotals(items));
    } else {
      var before := EachParcelSplits(parcels, lines, items, n - 1);
      var out := PerParcel(parcels, lines, WeightTable(items), n - 1).value.value;
      var parcel := parcels[n-1];
      var buckets := LineBuckets(InParcel(lines, parcel), WeightTable(items));
      var after, shares := PerParcel(parcels, lines, WeightTable(items), n).value.value, Allocate(parcel.cost, buckets).value;
      ParcelSplits(parcel, lines, items);
      forall i | 0 <= i < |ids| ensures Get(after, ids[i]) == Get(out, ids[i]) + Get(shares, ids[i]) {
        AllocationAdds(out, buckets, parcel.cost, ids[i]);
      }
      PartsGrow(parcels[..n-1], ids, LineTotals(items), before, Along(out, ids), parcel, Along(shares, ids), Along(after, ids));
      parts := before + [Along(shares, ids)];
      assert parcels[..n] == parcels[..n-1] + [parcel];
    }
  }

  lemma PartsAlign(parcel: Parcel, ids: seq<string>, totals: seq<int>, part: seq<int>)
    requires SharesParcel(parcel, ids, totals, part)
    ensures |part| == |ids|
  {
  }

  lemma NothingShared(lines: seq<LineRevenue>, ids: seq<string>, totals: seq<int>)
    ensures SharesParcels([], ids, totals, [], Along(Reversals.ZeroTally(lines), ids))
  {
  }

  // ------------------------------------------------------------------- freight

  /** The parcel holds something of the order. */
  ghost predicate HoldsAny(parcel: Parcel, ids: seq<string>) { exists i :: 0 <= i < |ids| && ids[i] in parcel.lineIds }

  /** Every parcel says what it holds of the order. */
  ghost predicate AllPlaced(parcels: seq<Parcel>, ids: seq<string>) {
    parcels != [] && forall p :: 0 <= p < |parcels| ==> HoldsAny(parcels[p], ids)
  }

  /** Freight goes parcel by parcel to the lines in it, or by the lines' totals when any parcel cannot be placed. */
  ghost predicate SharesFreight(parcels: seq<Parcel>, total: int, ids: seq<string>, totals: seq<int>, column: seq<int>) {
    if AllPlaced(parcels, ids) then exists parts :: SharesParcels(parcels, ids, totals, parts, column)
    else IsSplit(total, ids, totals, column)
  }

  lemma {:induction false} PlacedIff(parcels: seq<Parcel>, lines: seq<LineRevenue>, items: seq<Item>, n: nat)
    requires n <= |parcels| && Describe(lines, items) && PerParcel(parcels, lines, WeightTable(items), n).Ok?
    ensures PerParcel(parcels, lines, WeightTable(items), n).value.Some? <==>
      forall p :: 0 <= p < n ==> HoldsAny(parcels[p], ItemIds(items))
  {
    hide Allocate, AddChecked, WeightTable, LineBuckets, Describe, HoldsAny, InParcel;
    if n > 0 {
      PlacedIff(parcels, lines, items, n - 1);
      HoldsSome(parcels[n-1], lines, items);
    }
  }

  lemma HoldsSome(parcel: Parcel, lines: seq<LineRevenue>, items: seq<Item>)
    requires Describe(lines, items)
    ensures InParcel(lines, parcel) != [] <==> HoldsAny(parcel, ItemIds(items))
  {
    hide Distinct;
    var held := InParcel(lines, parcel);
    if held != [] {
      assert held[0] in held;
      var i :| 0 <= i < |lines| && lines[i] == held[0];
      assert ItemIds(items)[i] in parcel.lineIds;
    }
    if i :| 0 <= i < |items| && ItemIds(items)[i] in parcel.lineIds { assert lines[i] in lines; }
  }

  lemma FreightShares(parcels: seq<Parcel>, total: int, lines: seq<LineRevenue>, items: seq<Item>)
    requires Describe(lines, items) && lines != [] && SpreadParcels(parcels, total, lines, WeightTable(items)).Ok?
    ensures SharesFreight(parcels, total, ItemIds(items), LineTotals(items),
      Along(SpreadParcels(parcels, total, lines, WeightTable(items)).value, ItemIds(items)))
  {
    hide Allocate, PerParcel, LineBuckets, Distinct, IsSplit, SharesParcels, Along, WeightTable;
    if AllMapped(parcels) {
      PlacedIff(parcels, lines, items, |parcels|);
      if AllPlaced(parcels, ItemIds(items)) {
        var parts := EachParcelSplits(parcels, lines, items, |parcels|);
        assert parcels[..|parcels|] == parcels;
      } else {
        SpreadSplits(total, lines, items);
      }
    } else {
      NotMapped(parcels, ItemIds(items));
      SpreadSplits(total, lines, items);
    }
  }

  lemma NotMapped(parcels: seq<Parcel>, ids: seq<string>)
    requires !AllMapped(parcels)
    ensures !AllPlaced(parcels, ids)
  {
  }

  // ------------------------------------------------------------------- returns

  /** Return freight goes by what was taken back of each line, or as outbound freight does when nothing was. */
  ghost predicate SharesReturn(parcels: seq<Parcel>, total: int, ids: seq<string>, totals: seq<int>,
        reversed: seq<int>, column: seq<int>) {
    if exists i :: 0 <= i < |reversed| && reversed[i] > 0 then IsSplit(total, ids, reversed, column)
    else SharesFreight(parcels, total, ids, totals, column)
  }

  lemma {:induction false} ReturnedAt(reversals: seq<Reversals.LineReversal>, i: nat)
    requires i < |reversals| && forall j :: 0 <= j < i ==> reversals[j].itemId != reversals[i].itemId
    ensures ReturnedRevenue(reversals, reversals[i].itemId) == reversals[i].revenue
  {
    if i > 0 {
      assert reversals[1..][i-1] == reversals[i];
      ReturnedAt(reversals[1..], i - 1);
    }
  }

  lemma ReturnedRead(lines: seq<LineRevenue>, reversals: seq<Reversals.LineReversal>, items: seq<Item>)
    requires Describe(lines, items) && |reversals| == |lines|
    requires forall i :: 0 <= i < |lines| ==> reversals[i].itemId == lines[i].itemId
    ensures var buckets := ReturnedBuckets(lines, reversals);
      && WeightsOf(buckets) == Reversals.Revenues(reversals) && Keys(buckets) == ItemIds(items)
      && (AnyReturned(buckets) <==> exists i :: 0 <= i < |reversals| && Reversals.Revenues(reversals)[i] > 0)
  {
    var buckets := ReturnedBuckets(lines, reversals);
    forall i | 0 <= i < |lines| ensures buckets[i].weight == reversals[i].revenue {
      forall j | 0 <= j < i ensures reversals[j].itemId != reversals[i].itemId { assert ItemIds(items)[j] != ItemIds(items)[i]; }
      ReturnedAt(reversals, i);
    }
    assert WeightsOf(buckets) == Reversals.Revenues(reversals);
    ReturnedBucketKeys(lines, reversals);
    SameIds(lines, items);
  }

  lemma ReturnShares(amounts: Amounts, lines: seq<LineRevenue>, reversals: seq<Reversals.LineReversal>, items: seq<Item>)
    requires Describe(lines, items) && |reversals| == |lines| && lines != []
    requires forall i :: 0 <= i < |lines| ==> reversals[i].itemId == lines[i].itemId
    requires SpreadReturn(amounts, lines, reversals, WeightTable(items)).Ok?
    ensures SharesReturn(amounts.returnParcels, amounts.returnCost, ItemIds(items), LineTotals(items),
        Reversals.Revenues(reversals),
      Along(SpreadReturn(amounts, lines, reversals, WeightTable(items)).value, ItemIds(items)))
  {
    hide Allocate, SpreadParcels, Distinct, IsSplit, SharesFreight, Along, WeightTable, AnyReturned, ReturnedBuckets,
      Keys, WeightsOf;
    var buckets := ReturnedBuckets(lines, reversals);
    ReturnedRead(lines, reversals, items);
    if AnyReturned(buckets) {
      AllocationSplits(amounts.returnCost, buckets);
    } else {
      FreightShares(amounts.returnParcels, amounts.returnCost, lines, items);
    }
  }

  // --------------------------------------------------------------- whole orders

  /** What every line carries of the order's figures, column by column. */
  ghost predicate LinesShare(items: seq<Item>, outbound: seq<Parcel>, returned: seq<Parcel>, lines: seq<ProfitLine>) {
    var ids, totals := ItemIds(items), LineTotals(items);
    && |lines| == |items| && (forall i :: 0 <= i < |lines| ==> lines[i].itemId == items[i].id)
    && IsSplit(SumOf(ShippingRevenueOf, lines), ids, totals, Column(ShippingRevenueOf, lines))
    && IsSplit(SumOf(CodFeeRevenueOf, lines), ids, totals, Column(CodFeeRevenueOf, lines))
    && IsSplit(SumOf(GatewayOf, lines), ids, totals, Column(GatewayOf, lines))
    && IsSplit(SumOf(CodOf, lines), ids, totals, Column(CodOf, lines))
    && SharesFreight(outbound, SumOf(OutboundOf, lines), ids, totals, Column(OutboundOf, lines))
    && SharesReturn(returned, SumOf(ReturnedOf, lines), ids, totals, Column(ReversedRevenueOf, lines), Column(ReturnedOf, lines))
  }

  lemma SumIsTotal(total: int, ids: seq<string>, weights: seq<int>, column: seq<int>)
    requires IsSplit(total, ids, weights, column)
    ensures Sum(column) == total
  {
  }

  lemma SpreadsShare(items: seq<Item>, lines: seq<LineRevenue>, reversals: seq<Reversals.LineReversal>,
        amounts: Amounts, s: Spreads)
    requires Describe(lines, items) && |reversals| == |lines| && lines != []
    requires forall i :: 0 <= i < |lines| ==> reversals[i].itemId == lines[i].itemId
    requires AllSpreads(lines, reversals, amounts, WeightTable(items)) == Ok(s)
    ensures var ids, totals := ItemIds(items), LineTotals(items);
      && IsSplit(amounts.shippingRevenue, ids, totals, Along(s.shippingRevenue, ids))
      && IsSplit(amounts.codFeeRevenue, ids, totals, Along(s.codFeeRevenue, ids))
      && IsSplit(amounts.gatewayCost, ids, totals, Along(s.gateway, ids))
      && IsSplit(amounts.codCost, ids, totals, Along(s.cod, ids))
      && SharesFreight(amounts.outboundParcels, amounts.outboundCost, ids, totals, Along(s.outbound, ids))
      && SharesReturn(amounts.returnParcels, amounts.returnCost, ids, totals, Reversals.Revenues(reversals),
          Along(s.returned, ids))
  {
    hide Allocate, SpreadParcels, SpreadReturn, Describe, IsSplit, SharesFreight, SharesReturn, Along, WeightTable,
      LineBuckets;
    SpreadSplits(amounts.shippingRevenue, lines, items);
    SpreadSplits(amounts.codFeeRevenue, lines, items);
    SpreadSplits(amounts.gatewayCost, lines, items);
    SpreadSplits(amounts.codCost, lines, items);
    FreightShares(amounts.outboundParcels, amounts.outboundCost, lines, items);
    ReturnShares(amounts, lines, reversals, items);
  }
}
