/** When, and how completely, the capped spread places what it is given. */
module CappedSpreadLaws {
  import opened Prelude
  import opened Sequences
  import opened Sums
  import opened Money
  import opened Allocation
  import opened Allocator
  import opened Cogs
  import opened CappedSpread

  /** What each open line can still absorb. */
  function Rooms(costs: map<string, LineCogs>, into: map<string, int>, open: seq<Bucket>): (r: seq<int>)
    ensures |r| == |open|
    ensures forall i :: 0 <= i < |open| ==> r[i] == Max(0, Headroom(costs, into, open[i].key))
  {
    seq(|open|, i requires 0 <= i < |open| => Max(0, Headroom(costs, into, open[i].key)))
  }

  function Room(costs: map<string, LineCogs>, into: map<string, int>, open: seq<Bucket>): int {
    Sum(Rooms(costs, into, open))
  }

  function Takes(costs: map<string, LineCogs>, into: map<string, int>, open: seq<Bucket>,
        shares: map<string, int>): (r: seq<int>)
    ensures |r| == |open|
    ensures forall i :: 0 <= i < |open| ==> r[i] == Take(costs, into, open[i].key, Get(shares, open[i].key))
  {
    seq(|open|, i requires 0 <= i < |open| => Take(costs, into, open[i].key, Get(shares, open[i].key)))
  }

  ghost predicate DistinctBuckets(open: seq<Bucket>) {
    forall i, j :: 0 <= i < j < |open| ==> open[i].key != open[j].key
  }

  lemma DistinctKeysBuckets(open: seq<Bucket>)
    ensures Distinct(Keys(open)) <==> DistinctBuckets(open)
  {
    if Distinct(Keys(open)) {
      forall i, j | 0 <= i < j < |open| ensures open[i].key != open[j].key { assert Keys(open)[i] != Keys(open)[j]; }
    }
  }

  // ------------------------------------------------------------------- one round

  /** Every open line has gained its take, and every other tally is untouched. */
  ghost predicate RoundDone(costs: map<string, LineCogs>, into: map<string, int>, open: seq<Bucket>,
        shares: map<string, int>, after: map<string, int>) {
    && (forall i :: 0 <= i < |open| ==> Get(after, open[i].key) == Get(into, open[i].key) + Takes(costs, into, open, shares)[i])
    && (forall id :: Outside(open, id) ==> Get(after, id) == Get(into, id))
  }

  ghost predicate Outside(open: seq<Bucket>, id: string) {
    forall i :: 0 <= i < |open| ==> open[i].key != id
  }

  lemma {:induction false} RoundLeaves(open: seq<Bucket>, shares: map<string, int>, into: map<string, int>,
        costs: map<string, LineCogs>, n: nat, id: string)
    requires n <= |open| && forall i :: 0 <= i < n ==> open[i].key != id
    ensures Get(RoundUpTo(open, shares, into, costs, n).into, id) == Get(into, id)
  {
    if n > 0 { RoundLeaves(open, shares, into, costs, n - 1, id); }
  }

  lemma {:induction false} RoundGives(open: seq<Bucket>, shares: map<string, int>, into: map<string, int>,
        costs: map<string, LineCogs>, n: nat, k: nat)
    requires k < n <= |open| && DistinctBuckets(open)
    ensures Get(RoundUpTo(open, shares, into, costs, n).into, open[k].key)
         == Get(into, open[k].key) + Take(costs, into, open[k].key, Get(shares, open[k].key))
  {
    if k < n - 1 {
      RoundGives(open, shares, into, costs, n - 1, k);
    } else {
      RoundLeaves(open, shares, into, costs, k, open[k].key);
    }
  }

  lemma {:induction false} RoundAmount(open: seq<Bucket>, shares: map<string, int>, into: map<string, int>,
        costs: map<string, LineCogs>, n: nat)
    requires n <= |open| && DistinctBuckets(open)
    ensures RoundUpTo(open, shares, into, costs, n).amount == Sum(Takes(costs, into, open, shares)[..n])
  {
    if n > 0 {
      RoundAmount(open, shares, into, costs, n - 1);
      RoundLeaves(open, shares, into, costs, n - 1, open[n-1].key);
      SumTake(Takes(costs, into, open, shares), n - 1);
    }
  }

  lemma RoundFacts(open: seq<Bucket>, shares: map<string, int>, into: map<string, int>, costs: map<string, LineCogs>)
    requires DistinctBuckets(open)
    ensures RoundDone(costs, into, open, shares, RoundUpTo(open, shares, into, costs, |open|).into)
    ensures RoundUpTo(open, shares, into, costs, |open|).amount == Sum(Takes(costs, into, open, shares))
  {
    var after := RoundUpTo(open, shares, into, costs, |open|).into;
    forall i | 0 <= i < |open| ensures Get(after, open[i].key) == Get(into, open[i].key) + Takes(costs, into, open, shares)[i] {
      RoundGives(open, shares, into, costs, |open|, i);
    }
    forall id | Outside(open, id) ensures Get(after, id) == Get(into, id) {
      RoundLeaves(open, shares, into, costs, |open|, id);
    }
    RoundAmount(open, shares, into, costs, |open|);
    assert Takes(costs, into, open, shares)[..|open|] == Takes(costs, into, open, shares);
  }

  /** The round moves the total by exactly what it says it absorbed. */
  lemma {:induction false} RoundTotal(open: seq<Bucket>, shares: map<string, int>, into: map<string, int>,
        costs: map<string, LineCogs>, n: nat, ids: seq<string>)
    requires n <= |open| && Distinct(ids)
    requires forall i :: 0 <= i < |open| ==> open[i].key in ids
    ensures var r := RoundUpTo(open, shares, into, costs, n); Total(r.into, ids) == Total(into, ids) + r.amount
  {
    hide Total, Take, Distinct;
    if n > 0 {
      RoundTotal(open, shares, into, costs, n - 1, ids);
      var before := RoundUpTo(open, shares, into, costs, n - 1).into;
      var key := open[n-1].key;
      TotalBump(before, ids, key, Take(costs, before, key, Get(shares, key)));
    }
  }

  /** The whole round: what is absorbed comes out of the room, line by line. */
  lemma RoundShrinksRoom(open: seq<Bucket>, shares: map<string, int>, into: map<string, int>, costs: map<string, LineCogs>)
    requires DistinctBuckets(open)
    ensures var r := RoundUpTo(open, shares, into, costs, |open|);
      Room(costs, r.into, open) == Room(costs, into, open) - r.amount
  {
    var r := RoundUpTo(open, shares, into, costs, |open|);
    RoundFacts(open, shares, into, costs);
    SumLinear(Rooms(costs, r.into, open), 1, Rooms(costs, into, open), -1, Takes(costs, into, open, shares));
  }

  lemma RoomCons(costs: map<string, LineCogs>, into: map<string, int>, b: Bucket, rest: seq<Bucket>)
    ensures Room(costs, into, [b] + rest) == Max(0, Headroom(costs, into, b.key)) + Room(costs, into, rest)
  {
    assert Rooms(costs, into, [b] + rest)[1..] == Rooms(costs, into, rest);
  }

  /** Lines without headroom contribute no room, so closing them changes nothing. */
  lemma {:induction false} ClosedLinesHaveNoRoom(open: seq<Bucket>, costs: map<string, LineCogs>, into: map<string, int>)
    ensures Room(costs, into, StillOpen(open, costs, into)) == Room(costs, into, open)
  {
    if open != [] {
      ClosedLinesHaveNoRoom(open[1..], costs, into);
      var rest := StillOpen(open[1..], costs, into);
      assert open == [open[0]] + open[1..];
      assert StillOpen(open, costs, into) == if Headroom(costs, into, open[0].key) > 0 then [open[0]] + rest else rest;
      hide Room, StillOpen;
      RoomCons(costs, into, open[0], open[1..]);
      RoomCons(costs, into, open[0], rest);
    }
  }

  lemma {:induction false} FilterDistinct(p: Bucket -> bool, open: seq<Bucket>)
    requires DistinctBuckets(open)
    ensures DistinctBuckets(Filter(p, open)) && |Filter(p, open)| <= |open|
    ensures (exists b :: b in open && !p(b)) ==> |Filter(p, open)| < |open|
  {
    if open != [] {
      FilterDistinct(p, open[1..]);
      var rest := Filter(p, open[1..]);
      forall i | 0 <= i < |rest| ensures rest[i].key != open[0].key {
        assert rest[i] in open[1..];
      }
    }
  }

  lemma {:induction false} SomePositive(xs: seq<int>) returns (i: nat)
    requires Sum(xs) > 0
    ensures i < |xs| && xs[i] > 0
  {
    if xs[0] > 0 { i := 0; } else { i := SomePositive(xs[1..]); i := i + 1; }
  }

  // ---------------------------------------------------------------- all rounds

  ghost predicate AllOpen(open: seq<Bucket>, costs: map<string, LineCogs>, into: map<string, int>) {
    forall i :: 0 <= i < |open| ==> Headroom(costs, into, open[i].key) > 0
  }

  /** What an allocation of a positive amount offers the open lines. */
  lemma Offers(amount: int, open: seq<Bucket>) returns (shares: map<string, int>)
    requires 0 < amount <= MAX_MINOR && open != [] && DistinctBuckets(open)
    ensures Allocate(amount, open) == Ok(shares)
    ensures Sum(Along(shares, Keys(open))) == amount
    ensures forall i :: 0 <= i < |open| ==> 0 <= Get(shares, open[i].key)
  {
    DistinctKeysBuckets(open);
    AllocateSucceeds(amount, open);
    AllocateHolds(amount, open);
    shares := Allocate(amount, open).value;
    SharesContract(amount, open);
  }

  /** What a round takes is never negative and never more than was offered; with headroom it takes what is offered, up to it. */
  lemma TakesBounds(amount: int, open: seq<Bucket>, shares: map<string, int>, into: map<string, int>,
        costs: map<string, LineCogs>)
    requires open != [] && AllOpen(open, costs, into) && amount > 0
    requires Sum(Along(shares, Keys(open))) == amount
    requires forall i :: 0 <= i < |open| ==> 0 <= Get(shares, open[i].key)
    ensures 0 < Sum(Takes(costs, into, open, shares)) <= amount
  {
    var takes, offered := Takes(costs, into, open, shares), Along(shares, Keys(open));
    forall i | 0 <= i < |open| ensures 0 <= takes[i] <= offered[i] { assert Keys(open)[i] == open[i].key; }
    SumMonotone(takes, offered);
    SumNonNegative(takes);
    var k := SomePositive(offered);
    assert takes[k] >= 1 by { assert Keys(open)[k] == open[k].key; }
  }

  /** If every line still has headroom after its take, each took its whole share. */
  lemma NothingCapped(open: seq<Bucket>, shares: map<string, int>, into: map<string, int>, after: map<string, int>,
        costs: map<string, LineCogs>)
    requires RoundDone(costs, into, open, shares, after) && AllOpen(open, costs, after)
    requires forall i :: 0 <= i < |open| ==> 0 <= Get(shares, open[i].key)
    ensures Takes(costs, into, open, shares) == Along(shares, Keys(open))
  {
    var takes, offered := Takes(costs, into, open, shares), Along(shares, Keys(open));
    forall i | 0 <= i < |open| ensures takes[i] == offered[i] {
      assert Keys(open)[i] == open[i].key;
      assert Headroom(costs, after, open[i].key) > 0;
    }
  }

  /** With headroom everywhere a round places something, and closes a line unless it places everything. */
  lemma RoundProgress(amount: int, open: seq<Bucket>, shares: map<string, int>, into: map<string, int>,
        costs: map<string, LineCogs>)
    requires open != [] && DistinctBuckets(open) && AllOpen(open, costs, into) && amount > 0
    requires Sum(Along(shares, Keys(open))) == amount
    requires forall i :: 0 <= i < |open| ==> 0 <= Get(shares, open[i].key)
    ensures var r := RoundUpTo(open, shares, into, costs, |open|);
      && 0 < r.amount <= amount
      && (r.amount == amount || |StillOpen(open, costs, r.into)| < |open|)
  {
    var r := RoundUpTo(open, shares, into, costs, |open|);
    RoundFacts(open, shares, into, costs);
    TakesBounds(amount, open, shares, into, costs);
    FilterDistinct(HasHeadroom(costs, r.into), open);
    if AllOpen(open, costs, r.into) {
      NothingCapped(open, shares, into, r.into, costs);
    } else {
      var i :| 0 <= i < |open| && Headroom(costs, r.into, open[i].key) <= 0;
      assert open[i] in open && !HasHeadroom(costs, r.into)(open[i]);
    }
  }

  lemma StillOpenFacts(open: seq<Bucket>, costs: map<string, LineCogs>, into: map<string, int>)
    requires DistinctBuckets(open)
    ensures var next := StillOpen(open, costs, into);
      && DistinctBuckets(next) && AllOpen(next, costs, into)
      && (forall b :: b in next ==> b in open)
      && Room(costs, into, next) == Room(costs, into, open)
  {
    FilterDistinct(HasHeadroom(costs, into), open);
    ClosedLinesHaveNoRoom(open, costs, into);
    var next := StillOpen(open, costs, into);
    forall i | 0 <= i < |next| ensures Headroom(costs, into, next[i].key) > 0 {
      assert next[i] in next;
    }
  }

  /** How many times the loop body runs. */
  function RoundsTaken(remaining: int, open: seq<Bucket>, into: map<string, int>, costs: map<string, LineCogs>): nat
    decreases Max(0, remaining)
  {
    if remaining <= 0 || open == [] || ToMinor(remaining).Err? || Allocate(remaining, open).Err? then 0
    else
      var round := RoundUpTo(open, Allocate(remaining, open).value, into, costs, |open|);
      if round.amount == 0 then 1
      else 1 + RoundsTaken(remaining - round.amount, StillOpen(open, costs, round.into), round.into, costs)
  }

  /** No line goes down, none goes past its cost, and lines outside `open` keep their tally. */
  ghost predicate StaysWithin(open: seq<Bucket>, costs: map<string, LineCogs>, into: map<string, int>,
        after: map<string, int>) {
    && (forall id :: Get(into, id) <= Get(after, id) <= Max(Get(into, id), LineCost(costs, id)))
    && (forall id :: Outside(open, id) ==> Get(after, id) == Get(into, id))
  }

  lemma RoundStaysWithin(open: seq<Bucket>, shares: map<string, int>, into: map<string, int>, costs: map<string, LineCogs>)
    requires DistinctBuckets(open)
    ensures StaysWithin(open, costs, into, RoundUpTo(open, shares, into, costs, |open|).into)
  {
    RoundFacts(open, shares, into, costs);
    var after := RoundUpTo(open, shares, into, costs, |open|).into;
    forall id ensures Get(into, id) <= Get(after, id) <= Max(Get(into, id), LineCost(costs, id)) {
      if i :| 0 <= i < |open| && open[i].key == id {
        assert Get(after, open[i].key) == Get(into, open[i].key) + Takes(costs, into, open, shares)[i];
      }
    }
  }

  lemma WithinComposes(open: seq<Bucket>, next: seq<Bucket>, costs: map<string, LineCogs>, a: map<string, int>,
        b: map<string, int>, c: map<string, int>)
    requires StaysWithin(open, costs, a, b) && StaysWithin(next, costs, b, c)
    requires forall x :: x in next ==> x in open
    ensures StaysWithin(open, costs, a, c)
  {
    forall id | Outside(open, id) ensures Get(c, id) == Get(a, id) {
      forall i | 0 <= i < |next| ensures next[i].key != id { assert next[i] in open; }
    }
  }

  /** One turn of the loop, when the round places something. */
  lemma Turn(remaining: int, open: seq<Bucket>, shares: map<string, int>, into: map<string, int>,
        costs: map<string, LineCogs>)
    requires 0 < remaining <= MAX_MINOR && open != [] && Allocate(remaining, open) == Ok(shares)
    requires RoundUpTo(open, shares, into, costs, |open|).amount > 0
    ensures var round := RoundUpTo(open, shares, into, costs, |open|);
      var left, next := remaining - round.amount, StillOpen(open, costs, round.into);
      && Rounds(remaining, open, into, costs) == Rounds(left, next, round.into, costs)
      && RoundsTaken(remaining, open, into, costs) == 1 + RoundsTaken(left, next, round.into, costs)
  {
    hide Allocate, RoundUpTo, StillOpen;
  }

  /**
   * With headroom on every open line the loop finishes within one round per open line, places
   * exactly the smaller of what it was given and what fits, and never overfills a line.
   */
  lemma {:induction false} RoundsPlaceEverything(remaining: int, open: seq<Bucket>, into: map<string, int>,
        costs: map<string, LineCogs>, ids: seq<string>)
    requires remaining <= MAX_MINOR && DistinctBuckets(open) && AllOpen(open, costs, into)
    requires Distinct(ids) && forall i :: 0 <= i < |open| ==> open[i].key in ids
    ensures Rounds(remaining, open, into, costs).Ok?
    ensures var after := Rounds(remaining, open, into, costs).value;
      && Total(after, ids) == Total(into, ids) + Max(0, Min(remaining, Room(costs, into, open)))
      && StaysWithin(open, costs, into, after)
    ensures RoundsTaken(remaining, open, into, costs) <= |open|
    decreases if remaining > 0 then remaining else 0
  {
    hide *;
    if remaining <= 0 || open == [] {
      NoRoundsToRun(remaining, open, into, costs);
    } else {
      var shares := Offers(remaining, open);
      var round := RoundUpTo(open, shares, into, costs, |open|);
      var left, next := remaining - round.amount, StillOpen(open, costs, round.into);
      RoundProgress(remaining, open, shares, into, costs);
      Turn(remaining, open, shares, into, costs);
      AfterFirstRound(remaining, open, shares, into, costs, ids);
      StillOpenFacts(open, costs, round.into);
      forall i | 0 <= i < |next| ensures next[i].key in ids { assert next[i] in next; }
      RoundsPlaceEverything(left, next, round.into, costs, ids);
      WithinComposes(open, next, costs, into, round.into, Rounds(left, next, round.into, costs).value);
      RestFits(remaining, round.amount, Room(costs, into, open));
      if left == 0 { NoRoundsLeft(next, round.into, costs); }
    }
  }

  lemma NoRoundsToRun(remaining: int, open: seq<Bucket>, into: map<string, int>, costs: map<string, LineCogs>)
    requires remaining <= 0 || open == []
    ensures Rounds(remaining, open, into, costs) == Ok(into) && RoundsTaken(remaining, open, into, costs) == 0
    ensures Max(0, Min(remaining, Room(costs, into, open))) == 0 && StaysWithin(open, costs, into, into)
  {
    SumNonNegative(Rooms(costs, into, open));
  }

  /** What fits of an amount is what a round took and what fits of the rest. */
  lemma RestFits(amount: int, took: int, room: int)
    requires 0 < took <= amount && took <= room
    ensures Max(0, Min(amount, room)) == took + Max(0, Min(amount - took, room - took))
  {
  }

  lemma NoRoundsLeft(open: seq<Bucket>, into: map<string, int>, costs: map<string, LineCogs>)
    ensures RoundsTaken(0, open, into, costs) == 0
  {
  }

  lemma AfterFirstRound(remaining: int, open: seq<Bucket>, shares: map<string, int>, into: map<string, int>,
        costs: map<string, LineCogs>, ids: seq<string>)
    requires DistinctBuckets(open)
    requires Distinct(ids) && forall i :: 0 <= i < |open| ==> open[i].key in ids
    ensures var round := RoundUpTo(open, shares, into, costs, |open|);
      && Total(round.into, ids) == Total(into, ids) + round.amount
      && Room(costs, round.into, open) == Room(costs, into, open) - round.amount
      && Room(costs, round.into, open) >= 0
      && StaysWithin(open, costs, into, round.into)
  {
    RoundShrinksRoom(open, shares, into, costs);
    RoundTotal(open, shares, into, costs, |open|, ids);
    RoundStaysWithin(open, shares, into, costs);
    SumNonNegative(Rooms(costs, RoundUpTo(open, shares, into, costs, |open|).into, open));
  }

  // --------------------------------------------------------- the whole spread

  /** The first allocation offers something to a line that can still absorb. */
  predicate Lands(total: int, open: seq<Bucket>, into: map<string, int>, costs: map<string, LineCogs>) {
    Allocate(total, open).Ok? &&
    exists i :: 0 <= i < |open| && Headroom(costs, into, open[i].key) > 0 && Get(Allocate(total, open).value, open[i].key) > 0
  }

  lemma {:induction false} SomeTake(xs: seq<int>)
    requires forall i :: 0 <= i < |xs| ==> xs[i] >= 0
    ensures Sum(xs) >= 0
    ensures Sum(xs) > 0 <==> exists i :: 0 <= i < |xs| && xs[i] > 0
  {
    SumNonNegative(xs);
    if Sum(xs) > 0 { var i := SomePositive(xs); }
  }

  lemma TakesLand(open: seq<Bucket>, shares: map<string, int>, into: map<string, int>, costs: map<string, LineCogs>)
    ensures Sum(Takes(costs, into, open, shares)) > 0 <==>
      exists i :: 0 <= i < |open| && Headroom(costs, into, open[i].key) > 0 && Get(shares, open[i].key) > 0
  {
    var takes := Takes(costs, into, open, shares);
    SomeTake(takes);
    if i :| 0 <= i < |open| && Headroom(costs, into, open[i].key) > 0 && Get(shares, open[i].key) > 0 {
      assert takes[i] > 0;
    }
    if i :| 0 <= i < |takes| && takes[i] > 0 {
      assert Headroom(costs, into, open[i].key) > 0 && Get(shares, open[i].key) > 0;
    }
  }

  /** The first round places something exactly when it lands. */
  lemma FirstRound(total: int, open: seq<Bucket>, shares: map<string, int>, into: map<string, int>,
        costs: map<string, LineCogs>)
    requires open != [] && DistinctBuckets(open) && Allocate(total, open) == Ok(shares)
    ensures RoundUpTo(open, shares, into, costs, |open|).amount > 0 <==> Lands(total, open, into, costs)
  {
    hide Allocate, RoundUpTo, RoundDone, Take;
    RoundFacts(open, shares, into, costs);
    TakesLand(open, shares, into, costs);
  }

  /** What a first round that lands leads to. */
  lemma LandedSpread(total: int, open: seq<Bucket>, shares: map<string, int>, into: map<string, int>,
        costs: map<string, LineCogs>, ids: seq<string>)
    requires 0 < total <= MAX_MINOR && open != [] && DistinctBuckets(open) && Allocate(total, open) == Ok(shares)
    requires RoundUpTo(open, shares, into, costs, |open|).amount > 0
    requires forall i :: 0 <= i < |open| ==> 0 <= Get(shares, open[i].key)
    requires Sum(Along(shares, Keys(open))) == total
    requires Distinct(ids) && forall i :: 0 <= i < |open| ==> open[i].key in ids
    ensures Rounds(total, open, into, costs).Ok?
    ensures var after := Rounds(total, open, into, costs).value;
      && Total(after, ids) == Total(into, ids) + Min(total, Room(costs, into, open))
      && StaysWithin(open, costs, into, after)
  {
    hide Rounds, RoundsTaken, RoundUpTo, StillOpen, Allocate, Room, Total, AllOpen, StaysWithin, Keys, Along,
      Headroom;
    var round := RoundUpTo(open, shares, into, costs, |open|);
    var left, next := total - round.amount, StillOpen(open, costs, round.into);
    Turn(total, open, shares, into, costs);
    RoundWithinOffer(open, shares, into, costs);
    AfterFirstRound(total, open, shares, into, costs, ids);
    StillOpenFacts(open, costs, round.into);
    forall i | 0 <= i < |next| ensures next[i].key in ids { assert next[i] in next; }
    RoundsPlaceEverything(left, next, round.into, costs, ids);
    WithinComposes(open, next, costs, into, round.into, Rounds(left, next, round.into, costs).value);
  }

  lemma RoundWithinOffer(open: seq<Bucket>, shares: map<string, int>, into: map<string, int>, costs: map<string, LineCogs>)
    requires DistinctBuckets(open)
    requires forall i :: 0 <= i < |open| ==> 0 <= Get(shares, open[i].key)
    ensures RoundUpTo(open, shares, into, costs, |open|).amount <= Sum(Along(shares, Keys(open)))
  {
    RoundFacts(open, shares, into, costs);
    var takes, offered := Takes(costs, into, open, shares), Along(shares, Keys(open));
    forall i | 0 <= i < |open| ensures takes[i] <= offered[i] { assert Keys(open)[i] == open[i].key; }
    SumMonotone(takes, offered);
  }

  /** A first round that does not land leaves every tally as it was. */
  lemma MissedSpread(total: int, open: seq<Bucket>, shares: map<string, int>, into: map<string, int>,
        costs: map<string, LineCogs>, ids: seq<string>)
    requires 0 < total <= MAX_MINOR && open != [] && DistinctBuckets(open) && Allocate(total, open) == Ok(shares)
    requires RoundUpTo(open, shares, into, costs, |open|).amount == 0
    requires Distinct(ids) && forall i :: 0 <= i < |open| ==> open[i].key in ids
    ensures Rounds(total, open, into, costs).Ok?
    ensures var after := Rounds(total, open, into, costs).value;
      Total(after, ids) == Total(into, ids) && StaysWithin(open, costs, into, after)
  {
    AfterFirstRound(total, open, shares, into, costs, ids);
    hide Allocate, RoundUpTo, StillOpen, Room, Total, StaysWithin;
  }

  /** What became of an amount spread over the open lines. */
  ghost predicate Outcome(total: int, open: seq<Bucket>, into: map<string, int>, costs: map<string, LineCogs>,
        ids: seq<string>, placed: int) {
    && Rounds(total, open, into, costs).Ok?
    && StaysWithin(open, costs, into, Rounds(total, open, into, costs).value)
    && Total(Rounds(total, open, into, costs).value, ids) == Total(into, ids) + placed
  }

  lemma OpenOutcome(total: int, open: seq<Bucket>, into: map<string, int>, costs: map<string, LineCogs>, ids: seq<string>)
    requires 0 < total <= MAX_MINOR && open != [] && DistinctBuckets(open)
    requires Distinct(ids) && forall i :: 0 <= i < |open| ==> open[i].key in ids
    ensures Outcome(total, open, into, costs, ids,
                    if Lands(total, open, into, costs) then Min(total, Room(costs, into, open)) else 0)
  {
    var shares := Offers(total, open);
    FirstRound(total, open, shares, into, costs);
    hide Rounds, Allocate, Room, Total, RoundUpTo, Lands, StaysWithin;
    if RoundUpTo(open, shares, into, costs, |open|).amount > 0 {
      LandedSpread(total, open, shares, into, costs, ids);
    } else {
      MissedSpread(total, open, shares, into, costs, ids);
    }
  }

  /** When the first allocation lands there is room. */
  lemma LandingNeedsRoom(total: int, open: seq<Bucket>, into: map<string, int>, costs: map<string, LineCogs>)
    ensures Room(costs, into, open) >= 0
    ensures Lands(total, open, into, costs) ==> Room(costs, into, open) > 0
  {
    hide Allocate;
    var rooms := Rooms(costs, into, open);
    SumNonNegative(rooms);
    if Lands(total, open, into, costs) {
      var i :| 0 <= i < |open| && Headroom(costs, into, open[i].key) > 0 && Get(Allocate(total, open).value, open[i].key) > 0;
      assert rooms[i] > 0;
    }
  }

  /**
   * The spread places the smaller of the amount and the room left exactly when there is nothing
   * to place, nowhere to place it, or the first allocation reaches a line with headroom; when it
   * does not, the loop gives up having placed nothing. Either way it never overfills a line.
   */
  lemma SpreadCappedPlaces(total: int, buckets: seq<Bucket>, into: map<string, int>, costs: map<string, LineCogs>)
    requires total <= MAX_MINOR && Distinct(Keys(buckets))
    ensures SpreadCapped(total, buckets, into, costs).Ok?
    ensures var open, after := OpenLines(buckets, costs), SpreadCapped(total, buckets, into, costs).value;
      var placed := Total(after, Keys(buckets)) - Total(into, Keys(buckets));
      && (placed == Max(0, Min(total, Room(costs, into, open)))
          <==> total <= 0 || Room(costs, into, open) == 0 || Lands(total, open, into, costs))
      && (total > 0 && !Lands(total, open, into, costs) ==> placed == 0)
      && StaysWithin(open, costs, into, after)
  {
    hide Rounds, Allocate, Room, Total, OpenLines, Lands, StaysWithin, Keys;
    var open, ids := OpenLines(buckets, costs), Keys(buckets);
    OpenKeys(buckets, costs);
    LandingNeedsRoom(total, open, into, costs);
    if total <= 0 || open == [] {
      NothingToPlace(total, open, into, costs);
    } else {
      OpenOutcome(total, open, into, costs, ids);
    }
  }

  lemma NothingToPlace(total: int, open: seq<Bucket>, into: map<string, int>, costs: map<string, LineCogs>)
    requires total <= 0 || open == []
    ensures Rounds(total, open, into, costs) == Ok(into) && StaysWithin(open, costs, into, into)
    ensures open == [] ==> Room(costs, into, open) == 0 && !Lands(total, open, into, costs)
  {
  }

  lemma OpenKeys(buckets: seq<Bucket>, costs: map<string, LineCogs>)
    ensures Distinct(Keys(buckets)) ==> DistinctBuckets(OpenLines(buckets, costs))
    ensures var open := OpenLines(buckets, costs);
      forall i :: 0 <= i < |open| ==> open[i].key in Keys(buckets) && LineCost(costs, open[i].key) > 0
  {
    DistinctKeysBuckets(buckets);
    if Distinct(Keys(buckets)) { FilterDistinct(HasCost(costs), buckets); }
    var open := OpenLines(buckets, costs);
    forall i | 0 <= i < |open| ensures open[i].key in Keys(buckets) && LineCost(costs, open[i].key) > 0 {
      assert open[i] in open;
      var j :| 0 <= j < |buckets| && buckets[j] == open[i];
      assert Keys(buckets)[j] == open[i].key;
    }
  }

  // ------------------------------------------------------------ whole returns

  function CostsAlong(costs: map<string, LineCogs>, ids: seq<string>): (r: seq<int>)
    ensures |r| == |ids|
    ensures forall i :: 0 <= i < |ids| ==> r[i] == LineCost(costs, ids[i])
  {
    seq(|ids|, i requires 0 <= i < |ids| => LineCost(costs, ids[i]))
  }

  /** From empty tallies the room on the open lines is the whole cost of the order's goods. */
  lemma {:induction false} FreshRoom(buckets: seq<Bucket>, into: map<string, int>, costs: map<string, LineCogs>)
    requires forall id :: Get(into, id) == 0
    requires forall i :: 0 <= i < |buckets| ==> LineCost(costs, buckets[i].key) >= 0
    ensures Room(costs, into, OpenLines(buckets, costs)) == Sum(CostsAlong(costs, Keys(buckets)))
  {
    if buckets != [] {
      FreshRoom(buckets[1..], into, costs);
      var rest := OpenLines(buckets[1..], costs);
      assert OpenLines(buckets, costs) == if LineCost(costs, buckets[0].key) > 0 then [buckets[0]] + rest else rest;
      assert CostsAlong(costs, Keys(buckets))[1..] == CostsAlong(costs, Keys(buckets[1..]));
      assert CostsAlong(costs, Keys(buckets))[0] == LineCost(costs, buckets[0].key);
      hide Room, OpenLines, Keys;
      RoomCons(costs, into, buckets[0], rest);
    }
  }

  /** From empty tallies a share is placed up to the cost of all the goods, and no line past its own. */
  lemma FreshPlaces(share: int, buckets: seq<Bucket>, into: map<string, int>, costs: map<string, LineCogs>)
    requires 0 <= share <= MAX_MINOR && Distinct(Keys(buckets))
    requires forall id :: Get(into, id) == 0
    requires forall i :: 0 <= i < |buckets| ==> LineCost(costs, buckets[i].key) >= 0
    ensures SpreadCapped(share, buckets, into, costs).Ok?
    ensures var after := SpreadCapped(share, buckets, into, costs).value;
      && Total(after, Keys(buckets)) == Min(share, Sum(CostsAlong(costs, Keys(buckets))))
      && (forall k :: 0 <= k < |buckets| ==> 0 <= Get(after, buckets[k].key) <= LineCost(costs, buckets[k].key))
  {
    hide Rounds, Room, OpenLines, Allocate, Keys, Sum;
    var ids := Keys(buckets);
    var open := OpenLines(buckets, costs);
    CostsCount(buckets, costs);
    OpenKeys(buckets, costs);
    FreshRoom(buckets, into, costs);
    SumOfConstant(Along(into, ids), 0);
    RoundsPlaceEverything(share, open, into, costs, ids);
  }

  lemma CostsCount(buckets: seq<Bucket>, costs: map<string, LineCogs>)
    requires forall i :: 0 <= i < |buckets| ==> LineCost(costs, buckets[i].key) >= 0
    ensures Sum(CostsAlong(costs, Keys(buckets))) >= 0
  {
    forall i | 0 <= i < |buckets| ensures CostsAlong(costs, Keys(buckets))[i] >= 0 { assert Keys(buckets)[i] == buckets[i].key; }
    SumNonNegative(CostsAlong(costs, Keys(buckets)));
  }

  /**
   * From empty tallies a share credits no line more than its own cost, and every line all of it
   * exactly when the share covers the cost of all the goods.
   */
  lemma WholeReturn(share: int, buckets: seq<Bucket>, into: map<string, int>, costs: map<string, LineCogs>)
    requires 0 <= share <= MAX_MINOR && Distinct(Keys(buckets))
    requires forall id :: Get(into, id) == 0
    requires forall i :: 0 <= i < |buckets| ==> LineCost(costs, buckets[i].key) >= 0
    ensures SpreadCapped(share, buckets, into, costs).Ok?
    ensures var after := SpreadCapped(share, buckets, into, costs).value;
      && (forall k :: 0 <= k < |buckets| ==> 0 <= Get(after, buckets[k].key) <= LineCost(costs, buckets[k].key))
      && ((forall k :: 0 <= k < |buckets| ==> Get(after, buckets[k].key) == LineCost(costs, buckets[k].key))
          <==> share >= Sum(CostsAlong(costs, Keys(buckets))))
  {
    hide SpreadCapped, Sum, Get, LineCost;
    var ids := Keys(buckets);
    FreshPlaces(share, buckets, into, costs);
    var after := SpreadCapped(share, buckets, into, costs).value;
    forall i | 0 <= i < |ids| ensures Along(after, ids)[i] <= CostsAlong(costs, ids)[i] { assert ids[i] == buckets[i].key; }
    AllOrSome(buckets, after, costs);
  }

  /** Tallies within the costs equal them all exactly when they sum to as much. */
  lemma AllOrSome(buckets: seq<Bucket>, after: map<string, int>, costs: map<string, LineCogs>)
    requires var ids := Keys(buckets); forall i :: 0 <= i < |ids| ==> Along(after, ids)[i] <= CostsAlong(costs, ids)[i]
    ensures forall k :: 0 <= k < |buckets| ==> Get(after, buckets[k].key) <= LineCost(costs, buckets[k].key)
    ensures (forall k :: 0 <= k < |buckets| ==> Get(after, buckets[k].key) == LineCost(costs, buckets[k].key))
      <==> Total(after, Keys(buckets)) == Sum(CostsAlong(costs, Keys(buckets)))
  {
    hide Sum, Get, LineCost;
    var ids := Keys(buckets);
    var gained, cost := Along(after, ids), CostsAlong(costs, ids);
    assert forall k :: 0 <= k < |buckets| ==> ids[k] == buckets[k].key;
    forall k | 0 <= k < |buckets| ensures Get(after, buckets[k].key) <= LineCost(costs, buckets[k].key) {
      assert gained[k] <= cost[k];
    }
    if Sum(gained) == Sum(cost) {
      TightSum(gained, cost);
      forall k | 0 <= k < |buckets| ensures Get(after, buckets[k].key) == LineCost(costs, buckets[k].key) {
        assert gained[k] == cost[k];
      }
    }
    if forall k :: 0 <= k < |buckets| ==> Get(after, buckets[k].key) == LineCost(costs, buckets[k].key) {
      forall k | 0 <= k < |ids| ensures gained[k] == cost[k] { assert ids[k] == buckets[k].key; }
      assert gained == cost;
    }
  }
}
