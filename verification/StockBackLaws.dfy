/** Which units of each line count as returned, and what goods reversals put back on the shelf. */
module StockBackLaws {
  import opened Prelude
  import opened Sequences
  import opened Sums
  import opened Money
  import opened Domain
  import opened Doubles
  import opened Allocation
  import opened Splits
  import opened CappedSpread
  import opened CappedSpreadLaws
  import opened Cogs
  import opened Reversals
  import opened LineShareLaws
  import TakeBackLaws
  import ReversalLaws

  /** What there is to know of a line: units ordered, what one cost, what all did, and the item's total. */
  datatype Stock = Stock(id: string, ordered: int, unitCost: int, cost: int, total: int)

  function Ids(stock: seq<Stock>): (r: seq<string>)
    ensures |r| == |stock| && forall i :: 0 <= i < |r| ==> r[i] == stock[i].id
  {
    seq(|stock|, i requires 0 <= i < |stock| => stock[i].id)
  }

  function LineTotals(stock: seq<Stock>): (r: seq<int>)
    ensures |r| == |stock| && forall i :: 0 <= i < |r| ==> r[i] == stock[i].total
  {
    seq(|stock|, i requires 0 <= i < |stock| => stock[i].total)
  }

  function Costs(stock: seq<Stock>): (r: seq<int>)
    ensures |r| == |stock| && forall i :: 0 <= i < |r| ==> r[i] == stock[i].cost
  {
    seq(|stock|, i requires 0 <= i < |stock| => stock[i].cost)
  }

  /** The ledger holds exactly that. */
  ghost predicate Holds(ledger: Ledger, stock: seq<Stock>) {
    && stock != [] && Distinct(Ids(stock)) && Keys(ledger.buckets) == Ids(stock) && WeightsOf(ledger.buckets) == LineTotals(stock)
    && Sum(LineCosts(ledger.cogsLines)) == Sum(Costs(stock))
    && forall i :: 0 <= i < |stock| ==> HoldsLine(ledger, stock[i])
  }

  ghost predicate HoldsLine(ledger: Ledger, s: Stock) {
    && s.ordered >= 0 && Get(ledger.quantities, s.id) == s.ordered
    && UnitCost(ledger, s.id) == s.unitCost && LineCost(ledger.costs, s.id) == s.cost
  }

  // --------------------------------------------------------------- line by line

  /** Of so many units claimed, no more count than were ordered. */
  function Counted(ordered: int, claimed: int): int { if claimed < ordered then claimed else ordered }

  function UnitsOf(line: ReversalLine, id: string): nat { if line.itemId == id && line.quantity > 0 then line.quantity else 0 }

  /** The units the first n lines claim of the line with that id. */
  function UnitsNamed(lines: seq<ReversalLine>, id: string, n: nat): nat
    requires n <= |lines|
  {
    if n == 0 then 0 else UnitsNamed(lines, id, n - 1) + UnitsOf(lines[n-1], id)
  }

  /** Those of them that count and came back fit for sale; so many had been claimed before. */
  function UnitsSaved(lines: seq<ReversalLine>, id: string, ordered: int, before: nat, n: nat): int
    requires n <= |lines|
  {
    if n == 0 then 0
    else
      var saved, claimed := UnitsSaved(lines, id, ordered, before, n - 1), before + UnitsNamed(lines, id, n - 1);
      if lines[n-1].itemId != id || lines[n-1].restockOutcome != RestockedSellable then saved
      else saved + Counted(ordered, claimed + UnitsOf(lines[n-1], id)) - Counted(ordered, claimed)
  }

  lemma LineSaves(w: LineWork, line: ReversalLine, r: Reversal, ledger: Ledger, s: Stock, claimed: nat)
    requires HoldsLine(ledger, s) && s.id in w.tallies.revenue && Get(w.tallies.quantity, s.id) == Counted(s.ordered, claimed)
    ensures var v := ApplyLine(w, line, r, ledger).tallies;
      var now := claimed + UnitsOf(line, s.id);
      && s.id in v.revenue && Get(v.quantity, s.id) == Counted(s.ordered, now)
      && Get(v.restocked, s.id) == Get(w.tallies.restocked, s.id)
        + if line.itemId == s.id && line.restockOutcome == RestockedSellable
          then s.unitCost * (Counted(s.ordered, now) - Counted(s.ordered, claimed)) else 0
  {
  }

  lemma {:induction false} LinesSave(w: LineWork, lines: seq<ReversalLine>, r: Reversal, ledger: Ledger, s: Stock,
        before: nat, n: nat)
    requires n <= |lines| && HoldsLine(ledger, s) && s.id in w.tallies.revenue
    requires Get(w.tallies.quantity, s.id) == Counted(s.ordered, before)
    ensures var v := ApplyLines(w, lines, r, ledger, n).tallies;
      && s.id in v.revenue && Get(v.quantity, s.id) == Counted(s.ordered, before + UnitsNamed(lines, s.id, n))
      && Get(v.restocked, s.id) == Get(w.tallies.restocked, s.id) + s.unitCost * UnitsSaved(lines, s.id, s.ordered, before, n)
  {
    hide ApplyLine, HoldsLine, Counted;
    if n > 0 {
      LinesSave(w, lines, r, ledger, s, before, n - 1);
      LineSaves(ApplyLines(w, lines, r, ledger, n - 1), lines[n-1], r, ledger, s, before + UnitsNamed(lines, s.id, n - 1));
      var saved := UnitsSaved(lines, s.id, s.ordered, before, n - 1);
      UnitsTimes(s.unitCost, saved, UnitsSaved(lines, s.id, s.ordered, before, n) - saved);
    }
  }

  lemma UnitsTimes(unitCost: int, a: int, b: int)
    ensures unitCost * (a + b) == unitCost * a + unitCost * b
  {
  }

  // ------------------------------------------------------------------ in one lump

  /** The lines that cost something, in order. */
  ghost predicate CostlyAt(stock: seq<Stock>, at: seq<nat>) {
    && (forall k :: 0 <= k < |at| ==> at[k] < |stock| && stock[at[k]].cost > 0)
    && (forall j, k :: 0 <= j < k < |at| ==> at[j] < at[k])
    && (forall i :: 0 <= i < |stock| && stock[i].cost > 0 ==> i in at)
  }

  /** What a line can still take of an offer. */
  function Absorbs(offer: int, cost: int, held: int): int {
    if offer <= 0 || cost <= held then 0 else if offer < cost - held then offer else cost - held
  }

  /** What the costly lines can still take together. */
  function Space(stock: seq<Stock>, held: seq<int>): int
    requires |held| == |stock|
  {
    if stock == [] then 0
    else (if stock[0].cost > 0 && stock[0].cost > held[0] then stock[0].cost - held[0] else 0) + Space(stock[1..], held[1..])
  }

  /** An amount handed to the costly lines by their totals, as far as they can take it, until it is used up or they are full. */
  ghost predicate Filled(amount: int, stock: seq<Stock>, at: seq<nat>, offers: seq<int>, held: seq<int>, now: seq<int>) {
    && |held| == |stock| == |now| && CostlyAt(stock, at) && |offers| == |at|
    && IsSplit(amount, Taken(Ids(stock), at), Taken(LineTotals(stock), at), offers)
    && (forall i :: 0 <= i < |stock| ==> held[i] <= now[i] && (now[i] == held[i] || now[i] <= stock[i].cost))
    && (forall i :: 0 <= i < |stock| && stock[i].cost <= 0 ==> now[i] == held[i])
    && (forall k :: 0 <= k < |at| ==> now[at[k]] >= held[at[k]] + Absorbs(offers[k], stock[at[k]].cost, held[at[k]]))
    && Sum(now) - Sum(held) ==
      if exists k :: 0 <= k < |at| && Absorbs(offers[k], stock[at[k]].cost, held[at[k]]) > 0
      then (if amount < Space(stock, held) then amount else Space(stock, held)) else 0
  }

  /** What a reversal without line detail puts back: of the whole cost the part its amount is of all items' totals, rounded down. */
  ghost predicate LumpSaves(r: Reversal, stock: seq<Stock>, held: seq<int>, now: seq<int>) {
    var gross := Sum(LineTotals(stock));
    if r.restockOutcome != RestockedSellable || r.amountExVat <= 0 || gross <= 0 then now == held
    else
      var share := Prorate(Sum(Costs(stock)), r.amountExVat, gross);
      if share <= 0 || (forall i :: 0 <= i < |stock| ==> stock[i].cost <= 0) then now == held
      else exists at, offers :: Filled(share, stock, at, offers, held, now)
  }

  /** How one reversal moves what has been put back of each line, so many units having been claimed before. */
  ghost predicate Saves(r: Reversal, stock: seq<Stock>, before: seq<nat>, held: seq<int>, now: seq<int>) {
    && |before| == |held| == |now| == |stock|
    && match r.lines
       case Some(lines) =>
         forall i :: 0 <= i < |stock| ==>
           now[i] == held[i] + stock[i].unitCost * UnitsSaved(lines, stock[i].id, stock[i].ordered, before[i], |lines|)
       case None => LumpSaves(r, stock, held, now)
  }

  /** The units claimed of a line by the first n reversals. */
  function UnitsClaimed(reversals: seq<Reversal>, id: string, n: nat): nat
    requires n <= |reversals|
  {
    if n == 0 then 0
    else
      var lines := if reversals[n-1].lines.Some? then reversals[n-1].lines.value else [];
      UnitsClaimed(reversals, id, n - 1) + UnitsNamed(lines, id, |lines|)
  }

  // ---------------------------------------------------------- the lump, as spread

  lemma OpenPlaces(ledger: Ledger, stock: seq<Stock>) returns (at: seq<nat>)
    requires Holds(ledger, stock)
    ensures CostlyAt(stock, at)
    ensures var open := OpenLines(ledger.buckets, ledger.costs);
      && Keys(open) == Taken(Ids(stock), at) && WeightsOf(open) == Taken(LineTotals(stock), at) && DistinctBuckets(open)
  {
    hide Filter, Picks, Distinct, Sum, LineCosts, LineCost;
    var costly, buckets := HasCost(ledger.costs), ledger.buckets;
    at := FilterPicks(costly, buckets);
    forall i | 0 <= i < |stock| ensures costly(buckets[i]) <==> stock[i].cost > 0 { BucketHolds(ledger, stock, i); }
    PicksPlaces(at, costly, buckets, OpenLines(buckets, ledger.costs));
    forall k | 0 <= k < |at| ensures OpenLines(buckets, ledger.costs)[k] == Bucket(Ids(stock)[at[k]], LineTotals(stock)[at[k]]) {
      BucketHolds(ledger, stock, at[k]);
    }
    DistinctKeysBuckets(buckets);
    FilterDistinct(costly, buckets);
  }

  lemma PicksPlaces(at: seq<nat>, p: Bucket -> bool, xs: seq<Bucket>, ys: seq<Bucket>)
    requires Picks(at, p, xs, ys)
    ensures |at| == |ys| && forall k :: 0 <= k < |at| ==> at[k] < |xs| && ys[k] == xs[at[k]] && p(xs[at[k]])
    ensures forall j, k :: 0 <= j < k < |at| ==> at[j] < at[k]
    ensures forall i :: 0 <= i < |xs| && p(xs[i]) ==> i in at
  {
  }

  lemma BucketHolds(ledger: Ledger, stock: seq<Stock>, i: nat)
    requires Holds(ledger, stock) && i < |stock|
    ensures |ledger.buckets| == |stock| && ledger.buckets[i] == Bucket(stock[i].id, stock[i].total)
    ensures HoldsLine(ledger, stock[i])
  {
    hide HoldsLine, Distinct;
    assert Keys(ledger.buckets)[i] == stock[i].id && WeightsOf(ledger.buckets)[i] == stock[i].total;
  }

  lemma {:induction false} SpaceIsRoom(buckets: seq<Bucket>, stock: seq<Stock>, costs: map<string, LineCogs>,
        into: map<string, int>)
    requires |buckets| == |stock|
    requires forall i :: 0 <= i < |stock| ==> buckets[i].key == stock[i].id && LineCost(costs, stock[i].id) == stock[i].cost
    ensures Space(stock, Along(into, Ids(stock))) == Room(costs, into, OpenLines(buckets, costs))
  {
    if stock == [] {
      assert Rooms(costs, into, []) == [];
    } else {
      hide LineCost, Room;
      SpaceIsRoom(buckets[1..], stock[1..], costs, into);
      assert Ids(stock)[1..] == Ids(stock[1..]) && Along(into, Ids(stock))[1..] == Along(into, Ids(stock[1..]));
      FilterStep(HasCost(costs), buckets);
      RoomCons(costs, into, buckets[0], OpenLines(buckets[1..], costs));
    }
  }

  /** What the first round gives stays with the lines. */
  lemma FirstRoundStays(total: int, open: seq<Bucket>, shares: map<string, int>, into: map<string, int>,
        costs: map<string, LineCogs>)
    requires 0 < total <= MAX_MINOR && open != [] && DistinctBuckets(open) && Allocate(total, open) == Ok(shares)
    requires forall i :: 0 <= i < |open| ==> 0 <= Get(shares, open[i].key)
    requires Sum(Along(shares, Keys(open))) == total
    ensures Rounds(total, open, into, costs).Ok?
    ensures var after := Rounds(total, open, into, costs).value;
      forall i :: 0 <= i < |open| ==>
        Get(after, open[i].key) >= Get(into, open[i].key) + Take(costs, into, open[i].key, Get(shares, open[i].key))
  {
    hide Allocate, RoundUpTo, StillOpen, Room, Total, Keys, Along, Take;
    var round := RoundUpTo(open, shares, into, costs, |open|);
    RoundFacts(open, shares, into, costs);
    if round.amount > 0 {
      Turn(total, open, shares, into, costs);
      RoundWithinOffer(open, shares, into, costs);
      StillOpenFacts(open, costs, round.into);
      DistinctKeysBuckets(StillOpen(open, costs, round.into));
      KeysHold(StillOpen(open, costs, round.into));
      RoundsPlaceEverything(total - round.amount, StillOpen(open, costs, round.into), round.into, costs,
          Keys(StillOpen(open, costs, round.into)));
    }
  }

  /** A spread over the costly lines fills them. */
  lemma SpreadFills(share: int, ledger: Ledger, stock: seq<Stock>,
        into: map<string, int>) returns (at: seq<nat>, offers: seq<int>)
    requires Holds(ledger, stock) && 0 < share <= MAX_MINOR && OpenLines(ledger.buckets, ledger.costs) != []
    ensures SpreadCapped(share, ledger.buckets, into, ledger.costs).Ok?
    ensures var after := SpreadCapped(share, ledger.buckets, into, ledger.costs).value;
      Filled(share, stock, at, offers, Along(into, Ids(stock)), Along(after, Ids(stock)))
  {
    hide Allocate, Rounds, Holds, IsSplit, OpenLines, Room, Along, Get, Lands, StaysWithin, CostlyAt, Space, Sum;
    var open, ids := OpenLines(ledger.buckets, ledger.costs), Ids(stock);
    at := OpenPlaces(ledger, stock);
    var shares := CapOffers(share, open);
    AllocationSplits(share, open);
    offers := Along(shares, Keys(open));
    FirstRoundStays(share, open, shares, into, ledger.costs);
    OpenInside(ledger, stock, at);
    OpenOutcome(share, open, into, ledger.costs, ids);
    var after := Rounds(share, open, into, ledger.costs).value;
    FillsLines(ledger, stock, at, open, shares, into, after);
    LandsIff(share, ledger, stock, at, open, shares, into);
    forall k | 0 <= k < |open| ensures Keys(open)[k] == open[k].key && offers[k] == Get(shares, open[k].key) { KeyOf(open, k); }
    StockBuckets(ledger, stock);
    SpaceIsRoom(ledger.buckets, stock, ledger.costs, into);
  }

  lemma CapOffers(share: int, open: seq<Bucket>) returns (shares: map<string, int>)
    requires 0 < share <= MAX_MINOR && open != [] && DistinctBuckets(open)
    ensures Allocate(share, open) == Ok(shares)
    ensures Sum(Along(shares, Keys(open))) == share
    ensures forall i :: 0 <= i < |open| ==> 0 <= Get(shares, open[i].key)
  {
    shares := CappedSpreadLaws.Offers(share, open);
  }

  lemma KeyOf(open: seq<Bucket>, k: nat)
    requires k < |open|
    ensures Keys(open)[k] == open[k].key
  {
  }

  lemma StockBuckets(ledger: Ledger, stock: seq<Stock>)
    requires Holds(ledger, stock)
    ensures |ledger.buckets| == |stock| && Distinct(Ids(stock))
    ensures forall i :: 0 <= i < |stock| ==> ledger.buckets[i].key == stock[i].id && LineCost(ledger.costs, stock[i].id) == stock[i].cost
  {
    forall i | 0 <= i < |stock| ensures ledger.buckets[i].key == stock[i].id
        && LineCost(ledger.costs, stock[i].id) == stock[i].cost {
      BucketHolds(ledger, stock, i);
    }
  }

  lemma OpenInside(ledger: Ledger, stock: seq<Stock>, at: seq<nat>)
    requires Holds(ledger, stock) && CostlyAt(stock, at) && Keys(OpenLines(ledger.buckets, ledger.costs)) == Taken(Ids(stock), at)
    ensures var open := OpenLines(ledger.buckets, ledger.costs);
      && |open| == |at| && Distinct(Ids(stock))
      && forall k :: 0 <= k < |open| ==> at[k] < |stock| && open[k].key == Ids(stock)[at[k]] && open[k].key in Ids(stock)
  {
    hide OpenLines, Distinct, HoldsLine;
    var open := OpenLines(ledger.buckets, ledger.costs);
    forall k | 0 <= k < |open| ensures open[k].key == Ids(stock)[at[k]] { assert Keys(open)[k] == open[k].key; }
  }

  lemma FillsLines(ledger: Ledger, stock: seq<Stock>, at: seq<nat>, open: seq<Bucket>, shares: map<string, int>,
        into: map<string, int>, after: map<string, int>)
    requires Holds(ledger, stock) && CostlyAt(stock, at) && |open| == |at| && StaysWithin(open, ledger.costs, into, after)
    requires forall k :: 0 <= k < |open| ==> at[k] < |stock| && open[k].key == Ids(stock)[at[k]]
    requires forall k :: 0 <= k < |open| ==>
      Get(after, open[k].key) >= Get(into, open[k].key) + Take(ledger.costs, into, open[k].key, Get(shares, open[k].key))
    ensures var held, now := Along(into, Ids(stock)), Along(after, Ids(stock));
      && (forall i :: 0 <= i < |stock| ==> held[i] <= now[i] && (now[i] == held[i] || now[i] <= stock[i].cost))
      && (forall i :: 0 <= i < |stock| && stock[i].cost <= 0 ==> now[i] == held[i])
      && (forall k :: 0 <= k < |at| ==> now[at[k]] >= held[at[k]] + Absorbs(Get(shares, open[k].key),
          stock[at[k]].cost, held[at[k]]))
  {
    hide Get, LineCost, Holds;
    StockBuckets(ledger, stock);
    forall i | 0 <= i < |stock| && stock[i].cost <= 0 ensures Outside(open, Ids(stock)[i]) {
      forall k | 0 <= k < |open| ensures open[k].key != Ids(stock)[i] { IdsDiffer(stock, i, at[k]); }
    }
  }

  lemma IdsDiffer(stock: seq<Stock>, i: nat, j: nat)
    requires Distinct(Ids(stock)) && i < |stock| && j < |stock| && i != j
    ensures Ids(stock)[i] != Ids(stock)[j]
  {
  }

  lemma LandsIff(share: int, ledger: Ledger, stock: seq<Stock>, at: seq<nat>, open: seq<Bucket>, shares: map<string, int>,
        into: map<string, int>)
    requires Holds(ledger, stock) && |open| == |at| && Allocate(share, open) == Ok(shares)
    requires forall k :: 0 <= k < |open| ==> at[k] < |stock| && open[k].key == Ids(stock)[at[k]]
    ensures Lands(share, open, into, ledger.costs) <==>
      exists k :: 0 <= k < |at| && Absorbs(Along(shares, Keys(open))[k], stock[at[k]].cost, Along(into, Ids(stock))[at[k]]) > 0
  {
    hide Get, LineCost, Holds, Allocate;
    StockBuckets(ledger, stock);
    forall k | 0 <= k < |open| ensures Keys(open)[k] == open[k].key {}
    if Lands(share, open, into, ledger.costs) {
      var k :| 0 <= k < |open| && Headroom(ledger.costs, into, open[k].key) > 0 && Get(shares, open[k].key) > 0;
      assert Absorbs(Along(shares, Keys(open))[k], stock[at[k]].cost, Along(into, Ids(stock))[at[k]]) > 0;
    }
  }

  lemma NothingCostly(ledger: Ledger, stock: seq<Stock>)
    requires Holds(ledger, stock)
    ensures OpenLines(ledger.buckets, ledger.costs) == [] <==> forall i :: 0 <= i < |stock| ==> stock[i].cost <= 0
  {
    hide LineCost, Distinct, HoldsLine;
    StockBuckets(ledger, stock);
    var open := OpenLines(ledger.buckets, ledger.costs);
    if open != [] {
      assert open[0] in open;
      var i :| 0 <= i < |ledger.buckets| && ledger.buckets[i] == open[0];
      assert LineCost(ledger.costs, stock[i].id) > 0;
    }
    if i :| 0 <= i < |stock| && stock[i].cost > 0 { assert ledger.buckets[i] in ledger.buckets; }
  }

  lemma SameWeights(buckets: seq<Bucket>)
    ensures BucketWeights(buckets) == WeightsOf(buckets)
  {
  }

  lemma LumpPutsBack(t: Tallies, r: Reversal, ledger: Ledger, stock: seq<Stock>)
    requires Holds(ledger, stock) && r.lines.None? && ApplyReversal(t, r, ledger).Ok?
    ensures LumpSaves(r, stock, Along(t.restocked, Ids(stock)), Along(ApplyReversal(t, r, ledger).value.restocked, Ids(stock)))
    ensures ApplyReversal(t, r, ledger).value.quantity == t.quantity
  {
    hide AddMinor, Spread, SpreadCapped, OrderLevel, Holds, Filled, Prorate, Sum, BucketWeights, LineCosts, Along,
      OpenLines;
    SameWeights(ledger.buckets);
    HeldSums(ledger, stock);
    AddMinorIsSum(BucketWeights(ledger.buckets));
    AddMinorIsSum(LineCosts(ledger.cogsLines));
    var gross := Sum(LineTotals(stock));
    if r.restockOutcome == RestockedSellable && r.amountExVat > 0 && gross > 0 {
      var share := Prorate(Sum(Costs(stock)), r.amountExVat, gross);
      NothingCostly(ledger, stock);
      if share > 0 && OpenLines(ledger.buckets, ledger.costs) != [] {
        var at, offers := SpreadFills(share, ledger, stock, t.restocked);
      } else {
        NothingSpread(share, ledger, t.restocked);
      }
    }
  }

  lemma HeldSums(ledger: Ledger, stock: seq<Stock>)
    requires Holds(ledger, stock)
    ensures WeightsOf(ledger.buckets) == LineTotals(stock) && Sum(LineCosts(ledger.cogsLines)) == Sum(Costs(stock))
  {
  }

  lemma NothingSpread(share: int, ledger: Ledger, into: map<string, int>)
    requires share <= 0 || OpenLines(ledger.buckets, ledger.costs) == []
    ensures SpreadCapped(share, ledger.buckets, into, ledger.costs) == Ok(into)
  {
  }

  /** The units of each line claimed by the first n reversals. */
  function ClaimedBy(reversals: seq<Reversal>, stock: seq<Stock>, n: nat): (r: seq<nat>)
    requires n <= |reversals|
    ensures |r| == |stock| && forall i :: 0 <= i < |r| ==> r[i] == UnitsClaimed(reversals, stock[i].id, n)
  {
    seq(|stock|, i requires 0 <= i < |stock| => UnitsClaimed(reversals, stock[i].id, n))
  }

  /** The tallies hold what so many claims come to. */
  ghost predicate Counts(t: Tallies, stock: seq<Stock>, claimed: seq<nat>) {
    && |claimed| == |stock| && ReversalLaws.Covers(t.revenue, Ids(stock))
    && forall i :: 0 <= i < |stock| ==> Get(t.quantity, stock[i].id) == Counted(stock[i].ordered, claimed[i])
  }

  lemma DetailPutsBack(t: Tallies, r: Reversal, ledger: Ledger, stock: seq<Stock>, claimed: seq<nat>)
    requires Holds(ledger, stock) && r.lines.Some? && ApplyReversal(t, r, ledger).Ok? && Counts(t, stock, claimed)
    ensures var after, lines := ApplyReversal(t, r, ledger).value, r.lines.value;
      && Saves(r, stock, claimed, Along(t.restocked, Ids(stock)), Along(after.restocked, Ids(stock)))
      && forall i :: 0 <= i < |stock| ==>
        Get(after.quantity, stock[i].id) == Counted(stock[i].ordered, claimed[i] + UnitsNamed(lines, stock[i].id, |lines|))
  {
    hide AddMinor, ApplyDetailed, ApplyLines, Spread, SpreadChecked, OrderLevel, Holds, Sum, HoldsLine, Counted,
      UnitsSaved, UnitsNamed, Get;
    var lines := r.lines.value;
    TakeBackLaws.DetailedSteps(t, r, lines, OrderLevel(r).value, ledger);
    var w := TakeBackLaws.WorkOf(t, r, lines);
    forall i | 0 <= i < |stock|
      ensures var v := ApplyLines(w, lines, r, ledger, |lines|).tallies;
        && Get(v.quantity, stock[i].id) == Counted(stock[i].ordered, claimed[i] + UnitsNamed(lines, stock[i].id, |lines|))
        && Get(v.restocked, stock[i].id) == Get(t.restocked, stock[i].id)
          + stock[i].unitCost * UnitsSaved(lines, stock[i].id, stock[i].ordered, claimed[i], |lines|)
    {
      BucketHolds(ledger, stock, i);
      assert Ids(stock)[i] == stock[i].id;
      LinesSave(w, lines, r, ledger, stock[i], claimed[i], |lines|);
    }
  }

  lemma ReversalPutsBack(t: Tallies, reversals: seq<Reversal>, n: nat, ledger: Ledger, stock: seq<Stock>)
    requires n < |reversals| && Holds(ledger, stock) && ApplyReversal(t, reversals[n], ledger).Ok?
    requires Counts(t, stock, ClaimedBy(reversals, stock, n))
    ensures var after := ApplyReversal(t, reversals[n], ledger).value;
      && Saves(reversals[n], stock, ClaimedBy(reversals, stock, n), Along(t.restocked, Ids(stock)),
          Along(after.restocked, Ids(stock)))
      && Counts(after, stock, ClaimedBy(reversals, stock, n + 1))
  {
    hide ApplyReversal, LumpSaves, Counted, UnitsSaved, HoldsLine, ReversalLaws.Covers, Get, Distinct, Sum,
      LineCosts;
    var r, claimed := reversals[n], ClaimedBy(reversals, stock, n);
    HoldsKeys(ledger, stock);
    ReversalLaws.ReversalConserves(t, r, ledger);
    if r.lines.Some? {
      DetailPutsBack(t, r, ledger, stock, claimed);
    } else {
      LumpPutsBack(t, r, ledger, stock);
    }
  }

  lemma HoldsKeys(ledger: Ledger, stock: seq<Stock>)
    requires Holds(ledger, stock)
    ensures Keys(ledger.buckets) == Ids(stock) && ledger.buckets != [] && Distinct(Keys(ledger.buckets))
  {
    assert |Keys(ledger.buckets)| == |ledger.buckets|;
  }

  /** How what has been put back grows, reversal by reversal, from nothing. */
  ghost predicate PutBack(reversals: seq<Reversal>, n: nat, stock: seq<Stock>, tallies: seq<seq<int>>)
    requires n <= |reversals|
  {
    && |tallies| == n + 1 && |tallies[0]| == |stock| && (forall i :: 0 <= i < |stock| ==> tallies[0][i] == 0)
    && forall k :: 0 <= k < n ==> Saves(reversals[k], stock, ClaimedBy(reversals, stock, k), tallies[k], tallies[k+1])
  }

  lemma {:induction false} ReversalsPutBack(t: Tallies, reversals: seq<Reversal>, ledger: Ledger, n: nat, stock: seq<Stock>)
    returns (tallies: seq<seq<int>>)
    requires Holds(ledger, stock) && Counts(t, stock, ClaimedBy(reversals, stock, 0))
    requires forall id :: id in Ids(stock) ==> Get(t.restocked, id) == 0
    requires n <= |reversals| && ApplyReversals(t, reversals, ledger, n).Ok?
    ensures PutBack(reversals, n, stock, tallies)
    ensures var after := ApplyReversals(t, reversals, ledger, n).value;
      tallies[n] == Along(after.restocked, Ids(stock)) && Counts(after, stock, ClaimedBy(reversals, stock, n))
  {
    hide ApplyReversal, Counts, Holds, Saves, Get;
    if n == 0 {
      tallies := [Along(t.restocked, Ids(stock))];
      assert Along(t.restocked, Ids(stock)) == tallies[0];
    } else {
      var before := ReversalsPutBack(t, reversals, ledger, n - 1, stock);
      var mid := ApplyReversals(t, reversals, ledger, n - 1).value;
      ReversalPutsBack(mid, reversals, n - 1, ledger, stock);
      tallies := before + [Along(ApplyReversals(t, reversals, ledger, n).value.restocked, Ids(stock))];
    }
  }
}
