/**
 * Spreading amounts over the lines of an order: freely, and capped by what each line's goods cost.
 * The capped form goes round again with what full lines turned away, over the lines with headroom.
 */
module CappedSpread {
  import opened Prelude
  import opened Sequences
  import opened Sums
  import opened Money
  import opened Allocation
  import opened Allocator
  import opened Cogs

  function LineCost(costs: map<string, LineCogs>, id: string): int {
    if id in costs then costs[id].cogs else 0
  }

  function Headroom(costs: map<string, LineCogs>, into: map<string, int>, id: string): int {
    LineCost(costs, id) - Get(into, id)
  }

  // -------------------------------------------------------------- free spread

  /** The tally after the shares of the first n buckets have been added. */
  function AddUpTo(into: map<string, int>, buckets: seq<Bucket>, shares: map<string, int>, n: nat): map<string, int>
    requires n <= |buckets|
  {
    if n == 0 then into
    else
      var before := AddUpTo(into, buckets, shares, n - 1);
      before[buckets[n-1].key := Get(before, buckets[n-1].key) + Get(shares, buckets[n-1].key)]
  }

  function Spread(total: int, buckets: seq<Bucket>, into: map<string, int>): Result<map<string, int>> {
    if total == 0 || buckets == [] then Ok(into)
    else
      var shares :- Allocate(total, buckets);
      Ok(AddUpTo(into, buckets, shares, |buckets|))
  }

  method SpreadLoop(total: int, buckets: seq<Bucket>, start: map<string, int>) returns (r: Result<map<string, int>>)
    ensures r == Spread(total, buckets, start)
  {
    hide Allocate;
    if total == 0 || |buckets| == 0 { return Ok(start); }
    var shares := AllocateMinor(total, buckets);
    if shares.Err? { return shares; }
    var into := start;
    for i := 0 to |buckets|
      invariant into == AddUpTo(start, buckets, shares.value, i)
    {
      into := into[buckets[i].key := Get(into, buckets[i].key) + Get(shares.value, buckets[i].key)];
    }
    return Ok(into);
  }

  /** What the first n buckets receive from an allocation. */
  function SharesUpTo(buckets: seq<Bucket>, shares: map<string, int>, n: nat): int
    requires n <= |buckets|
  {
    Sum(Along(shares, Keys(buckets)[..n]))
  }

  lemma SharesStep(buckets: seq<Bucket>, shares: map<string, int>, n: nat)
    requires 0 < n <= |buckets|
    ensures SharesUpTo(buckets, shares, n) == SharesUpTo(buckets, shares, n - 1) + Get(shares, buckets[n-1].key)
  {
    var keys := Keys(buckets);
    assert Along(shares, keys[..n]) == Along(shares, keys[..n-1]) + [Get(shares, keys[n-1])];
    SumSnoc(Along(shares, keys[..n-1]), Get(shares, keys[n-1]));
  }

  lemma {:induction false} AddUpToTotal(into: map<string, int>, buckets: seq<Bucket>, shares: map<string, int>,
        n: nat, ids: seq<string>)
    requires n <= |buckets| && Distinct(ids)
    requires forall i :: 0 <= i < |buckets| ==> buckets[i].key in ids
    ensures Total(AddUpTo(into, buckets, shares, n), ids) == Total(into, ids) + SharesUpTo(buckets, shares, n)
  {
    if n > 0 {
      AddUpToTotal(into, buckets, shares, n - 1, ids);
      SharesStep(buckets, shares, n);
      TotalBump(AddUpTo(into, buckets, shares, n - 1), ids, buckets[n-1].key, Get(shares, buckets[n-1].key));
    }
  }

  lemma KeysHold(buckets: seq<Bucket>)
    ensures forall i :: 0 <= i < |buckets| ==> buckets[i].key in Keys(buckets)
  {
    forall i | 0 <= i < |buckets| ensures buckets[i].key in Keys(buckets) { assert Keys(buckets)[i] == buckets[i].key; }
  }

  lemma WholeShares(buckets: seq<Bucket>, shares: map<string, int>)
    ensures SharesUpTo(buckets, shares, |buckets|) == Total(shares, Keys(buckets))
  {
    assert Keys(buckets)[..|buckets|] == Keys(buckets);
  }

  /** A spread amount arrives in full: nothing is lost and nothing is invented. */
  lemma SpreadConserves(total: int, buckets: seq<Bucket>, into: map<string, int>)
    requires Spread(total, buckets, into).Ok? && buckets != [] && Distinct(Keys(buckets))
    ensures Total(Spread(total, buckets, into).value, Keys(buckets)) == Total(into, Keys(buckets)) + total
  {
    hide Allocate, Total, AddUpTo, Keys, Distinct;
    if total != 0 {
      var keys := Keys(buckets);
      var shares := Allocate(total, buckets).value;
      KeysHold(buckets);
      AddUpToTotal(into, buckets, shares, |buckets|, keys);
      AllocateHolds(total, buckets);
      WholeShares(buckets, shares);
    }
  }

  // ------------------------------------------------------------ capped spread

  /** A tally part-way through a round, and how much the round has placed. */
  datatype Absorbed = Absorbed(into: map<string, int>, amount: int)

  function Take(costs: map<string, LineCogs>, into: map<string, int>, id: string, share: int): int {
    Max(0, Min(share, Headroom(costs, into, id)))
  }

  /** One round: each open line takes its share up to its headroom. */
  function RoundUpTo(open: seq<Bucket>, shares: map<string, int>, into: map<string, int>,
        costs: map<string, LineCogs>, n: nat): (r: Absorbed)
    requires n <= |open|
    ensures r.amount >= 0
  {
    if n == 0 then Absorbed(into, 0)
    else
      var before := RoundUpTo(open, shares, into, costs, n - 1);
      var key := open[n-1].key;
      var take := Take(costs, before.into, key, Get(shares, key));
      if take == 0 then before
      else Absorbed(before.into[key := Get(before.into, key) + take], before.amount + take)
  }

  function HasHeadroom(costs: map<string, LineCogs>, into: map<string, int>): Bucket -> bool {
    (b: Bucket) => Headroom(costs, into, b.key) > 0
  }

  function StillOpen(open: seq<Bucket>, costs: map<string, LineCogs>, into: map<string, int>): seq<Bucket> {
    Filter(HasHeadroom(costs, into), open)
  }

  function Rounds(remaining: int, open: seq<Bucket>, into: map<string, int>,
        costs: map<string, LineCogs>): Result<map<string, int>>
    decreases Max(0, remaining)
  {
    if remaining <= 0 || open == [] then Ok(into)
    else
      var amount :- ToMinor(remaining);
      var shares :- Allocate(amount, open);
      var round := RoundUpTo(open, shares, into, costs, |open|);
      if round.amount == 0 then Ok(round.into)
      else Rounds(remaining - round.amount, StillOpen(open, costs, round.into), round.into, costs)
  }

  /** Only lines with a recorded cost can return goods. */
  function HasCost(costs: map<string, LineCogs>): Bucket -> bool {
    (b: Bucket) => LineCost(costs, b.key) > 0
  }

  function OpenLines(buckets: seq<Bucket>, costs: map<string, LineCogs>): seq<Bucket> {
    Filter(HasCost(costs), buckets)
  }

  function SpreadCapped(total: int, buckets: seq<Bucket>, into: map<string, int>,
        costs: map<string, LineCogs>): Result<map<string, int>> {
    Rounds(total, OpenLines(buckets, costs), into, costs)
  }

  /** The loop: `open` and `remaining` shrink until one is exhausted or a round places nothing. */
  method SpreadCappedLoop(total: int, buckets: seq<Bucket>, start: map<string, int>, costs: map<string, LineCogs>)
    returns (r: Result<map<string, int>>)
    ensures r == SpreadCapped(total, buckets, start, costs)
  {
    hide Allocate, Filter, OpenLines, StillOpen;
    var into := start;
    var remaining := total;
    var open := OpenLines(buckets, costs);
    while remaining > 0 && |open| > 0
      invariant SpreadCapped(total, buckets, start, costs) == Rounds(remaining, open, into, costs)
      decreases remaining
    {
      var inRange := ToMinor(remaining);
      if inRange.Err? { return Err(inRange.error); }
      var shares := AllocateMinor(inRange.value, open);
      if shares.Err? { return Err(shares.error); }
      var absorbed;
      into, absorbed := AbsorbRound(open, shares.value, into, costs);
      if absorbed == 0 { return Ok(into); }
      remaining := remaining - absorbed;
      open := StillOpen(open, costs, into);
    }
    return Ok(into);
  }

  method AbsorbRound(open: seq<Bucket>, shares: map<string, int>, start: map<string, int>, costs: map<string, LineCogs>)
    returns (into: map<string, int>, absorbed: int)
    ensures Absorbed(into, absorbed) == RoundUpTo(open, shares, start, costs, |open|)
  {
    into, absorbed := start, 0;
    for i := 0 to |open|
      invariant Absorbed(into, absorbed) == RoundUpTo(open, shares, start, costs, i)
    {
      var id := open[i].key;
      var headroom := LineCost(costs, id) - Get(into, id);
      var take := Max(0, Min(Get(shares, id), headroom));
      if take == 0 { continue; }
      into := into[id := Get(into, id) + take];
      absorbed := absorbed + take;
    }
  }
}
