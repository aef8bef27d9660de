/** The allocator's loop, and its contract as callers see it. */
module Allocator {
  import opened Prelude
  import opened Sequences
  import opened Sums
  import opened Arith
  import opened Money
  import opened Sorting
  import opened Allocation
  import opened AllocationLaws

  // ---------------------------------------------------------------- contract

  /** Shares sum to the total, stay under one unit from quota, share its sign, and follow zero weights. */
  lemma SharesContract(total: int, buckets: seq<Bucket>)
    requires buckets != [] && Distinct(Keys(buckets))
    ensures Sum(Shares(total, buckets)) == total
    ensures forall i :: 0 <= i < |buckets| ==> WithinOneUnit(total, buckets, i)
    ensures forall i :: 0 <= i < |buckets| ==> (total >= 0 ==> 0 <= Shares(total, buckets)[i] <= total)
    ensures forall i :: 0 <= i < |buckets| ==> (total <= 0 ==> total <= Shares(total, buckets)[i] <= 0)
    ensures (exists k :: 0 <= k < |buckets| && buckets[k].weight > 0) ==>
      forall i :: 0 <= i < |buckets| && buckets[i].weight <= 0 ==> Shares(total, buckets)[i] == 0
  {
    var m := Abs(total);
    var ps := Portions(m, buckets);
    PortionsSum(m, buckets);
    var sign := if total < 0 then -1 else 1;
    SumLinear(Shares(total, buckets), sign, ps, 0, ps);
    forall i | 0 <= i < |buckets| ensures WithinOneUnit(total, buckets, i) && ps[i] >= 0 {
      QuotaSigned(total, buckets, i);
    }
    SumNonNegative(ps);
    if k :| 0 <= k < |buckets| && buckets[k].weight > 0 {
      forall i | 0 <= i < |buckets| && buckets[i].weight <= 0 ensures Shares(total, buckets)[i] == 0 {
        WeighedIsNotEven(buckets, k);
        PortionQuota(m, buckets, i);
      }
    }
  }

  /** The share times the denominator is less than one denominator away from total times weight. */
  ghost predicate WithinOneUnit(total: int, buckets: seq<Bucket>, i: nat)
    requires i < |buckets|
  {
    Abs(Shares(total, buckets)[i] * Denominator(buckets) - total * Weights(buckets)[i]) < Denominator(buckets)
  }

  lemma QuotaSigned(total: int, buckets: seq<Bucket>, i: nat)
    requires buckets != [] && Distinct(Keys(buckets)) && i < |buckets|
    ensures WithinOneUnit(total, buckets, i) && Portions(Abs(total), buckets)[i] >= 0
  {
    PortionQuota(Abs(total), buckets, i);
    Distribute(0, Portions(Abs(total), buckets)[i], Denominator(buckets));
    Distribute(0, total, Weights(buckets)[i]);
  }

  lemma WeighedIsNotEven(buckets: seq<Bucket>, k: nat)
    requires k < |buckets| && buckets[k].weight > 0
    ensures !Even(buckets)
  {
    SumNonNegative(Raws(buckets));
    assert Raws(buckets)[k] <= Sum(Raws(buckets));
  }

  lemma CostSharesFollowWeights(total: int, buckets: seq<Bucket>, i: nat, j: nat)
    requires Distinct(Keys(buckets)) && i < |buckets| && j < |buckets|
    requires total >= 0 && buckets[i].weight > Max(0, buckets[j].weight)
    ensures Shares(total, buckets)[i] >= Shares(total, buckets)[j]
  {
    ShareIsPortion(total, buckets, i);
    ShareIsPortion(total, buckets, j);
    WeighedIsNotEven(buckets, i);
    WeightAt(buckets, i);
    WeightAt(buckets, j);
    hide *;
    PortionsFollowWeights(total, buckets, i, j);
  }

  /** A strictly larger positive weight never takes the smaller part: no less of a cost, no less of a credit. */
  lemma SharesFollowWeights(total: int, buckets: seq<Bucket>, i: nat, j: nat)
    requires Distinct(Keys(buckets)) && i < |buckets| && j < |buckets|
    requires buckets[i].weight > Max(0, buckets[j].weight)
    ensures total >= 0 ==> Shares(total, buckets)[i] >= Shares(total, buckets)[j]
    ensures total <= 0 ==> Shares(total, buckets)[i] <= Shares(total, buckets)[j]
  {
    hide Shares, Keys, Distinct;
    if total >= 0 { CostSharesFollowWeights(total, buckets, i, j); }
    if total <= 0 {
      CostSharesFollowWeights(-total, buckets, i, j);
      SharesAreOdd(-total, buckets);
    }
  }

  lemma ShareIsPortion(total: int, buckets: seq<Bucket>, i: nat)
    requires i < |buckets|
    ensures total >= 0 ==> Abs(total) == total && Shares(total, buckets)[i] == Portions(total, buckets)[i]
  {
  }

  lemma WeightAt(buckets: seq<Bucket>, i: nat)
    requires i < |buckets|
    ensures !Even(buckets) ==> Weights(buckets)[i] == Max(0, buckets[i].weight)
  {
  }

  /** Negating the total negates every share: a reversal undoes a charge line by line. */
  lemma SharesAreOdd(total: int, buckets: seq<Bucket>)
    ensures |Shares(-total, buckets)| == |Shares(total, buckets)| == |buckets|
    ensures forall i :: 0 <= i < |buckets| && (total != 0 || Distinct(Keys(buckets))) ==>
      Shares(-total, buckets)[i] == -Shares(total, buckets)[i]
  {
    assert Abs(-total) == Abs(total);
    if total == 0 && buckets != [] && Distinct(Keys(buckets)) { SharesContract(0, buckets); }
  }

  /** Among all integer splits of the total, none has a smaller total distance from the exact quotas. */
  lemma SharesAreOptimal(total: int, buckets: seq<Bucket>, xs: seq<int>)
    requires buckets != [] && Distinct(Keys(buckets))
    requires |xs| == |buckets| && Sum(xs) == total
    ensures Deviation(Denominator(buckets), total, Weights(buckets), Shares(total, buckets))
         <= Deviation(Denominator(buckets), total, Weights(buckets), xs)
  {
    SharesArePortions(total, buckets);
    if total >= 0 {
      PortionsAreOptimal(total, buckets, xs);
    } else {
      NegativeSharesAreOptimal(total, buckets, xs);
    }
  }

  lemma NegativeSharesAreOptimal(total: int, buckets: seq<Bucket>, xs: seq<int>)
    requires total < 0 && Splittable(-total, buckets)
    requires |xs| == |buckets| && Sum(xs) == total
    ensures Deviation(Denominator(buckets), total, Weights(buckets), Signed(-1, Portions(-total, buckets)))
         <= Deviation(Denominator(buckets), total, Weights(buckets), xs)
  {
    hide *;
    var flipped := Signed(-1, xs);
    assert Signed(-1, flipped) == xs;
    SumLinear(flipped, -1, xs, 0, xs);
    PortionsAreOptimal(-total, buckets, flipped);
    DeviationIsEven(Denominator(buckets), -total, Weights(buckets), flipped);
    DeviationIsEven(Denominator(buckets), -total, Weights(buckets), Portions(-total, buckets));
  }

  lemma SharesArePortions(total: int, buckets: seq<Bucket>)
    ensures total >= 0 ==> Shares(total, buckets) == Portions(total, buckets)
    ensures total < 0 ==> Shares(total, buckets) == Signed(-1, Portions(-total, buckets))
  {
  }

  lemma DeviationIsEven(d: int, m: int, ws: seq<int>, xs: seq<int>)
    requires |ws| == |xs|
    ensures Deviation(d, -m, ws, Signed(-1, xs)) == Deviation(d, m, ws, xs)
  {
    var l, r := Deviations(d, -m, ws, Signed(-1, xs)), Deviations(d, m, ws, xs);
    forall i | 0 <= i < |xs| ensures l[i] == r[i] {
      Distribute(0, m, ws[i]);
      OppositeProduct(d, xs[i]);
    }
    assert l == r;
  }

  lemma OppositeProduct(d: int, x: int)
    ensures d * (-x) == -(d * x)
  {
  }

  // ------------------------------------------------------------- the interface

  /** Allocation fails on repeated keys, on nothing to allocate to, or on an oversized share; no other way. */
  lemma AllocateFails(total: int, buckets: seq<Bucket>)
    ensures Allocate(total, buckets).Ok? <==>
      if buckets == [] then total == 0
      else Distinct(Keys(buckets)) && forall i :: 0 <= i < |buckets| ==> InRange(Shares(total, buckets)[i])
  {
    if buckets != [] {
      KeysDistinct(buckets);
      if Distinct(Keys(buckets)) {
        forall i | 0 <= i < |buckets|
          ensures Portions(Abs(total), buckets)[i] <= MAX_MINOR <==> InRange(Shares(total, buckets)[i])
        {
          QuotaSigned(total, buckets, i);
        }
      }
    }
  }

  lemma KeysDistinct(buckets: seq<Bucket>)
    ensures Distinct(Keys(buckets)) <==>
      !(exists i, j :: 0 <= i < j < |buckets| && buckets[i].key == buckets[j].key)
  {
    if Distinct(Keys(buckets)) {
      forall i, j | 0 <= i < j < |buckets| ensures buckets[i].key != buckets[j].key {
        assert Keys(buckets)[i] != Keys(buckets)[j];
      }
    }
  }

  /** In range, an amount can always be allocated over distinct keys. */
  lemma AllocateSucceeds(total: int, buckets: seq<Bucket>)
    requires InRange(total) && Distinct(Keys(buckets)) && buckets != []
    ensures Allocate(total, buckets).Ok?
  {
    SharesContract(total, buckets);
    AllocateFails(total, buckets);
  }

  /** What a successful allocation holds: one entry per key, its share, and the exact total. */
  lemma AllocateHolds(total: int, buckets: seq<Bucket>)
    requires Allocate(total, buckets).Ok?
    ensures var m := Allocate(total, buckets).value;
      && Distinct(Keys(buckets))
      && (forall k :: k in m <==> k in Keys(buckets))
      && (forall i :: 0 <= i < |buckets| ==> buckets[i].key in m && m[buckets[i].key] == Shares(total, buckets)[i])
      && Total(m, Keys(buckets)) == total
  {
    AllocateFails(total, buckets);
    var m, keys := Allocate(total, buckets).value, Keys(buckets);
    TableKeys(keys, Shares(total, buckets));
    if buckets != [] {
      forall i | 0 <= i < |buckets| ensures keys[i] in m && m[keys[i]] == Shares(total, buckets)[i] {
        TableLookup(keys, Shares(total, buckets), i);
      }
      SharesContract(total, buckets);
      assert Along(m, keys) == Shares(total, buckets);
    }
  }

  /** The sign of each entry is the sign of the total. */
  lemma AllocateSigns(total: int, buckets: seq<Bucket>, k: string)
    requires Allocate(total, buckets).Ok? && k in Allocate(total, buckets).value
    ensures total >= 0 ==> 0 <= Allocate(total, buckets).value[k] <= total
    ensures total <= 0 ==> total <= Allocate(total, buckets).value[k] <= 0
  {
    AllocateHolds(total, buckets);
    var i :| 0 <= i < |Keys(buckets)| && Keys(buckets)[i] == k;
    SharesContract(total, buckets);
  }

  // --------------------------------------------------------- order of arrival

  lemma AggregatesForgetOrder(buckets: seq<Bucket>, others: seq<Bucket>)
    requires multiset(buckets) == multiset(others)
    ensures Even(buckets) == Even(others) && Denominator(buckets) == Denominator(others)
    ensures Distinct(Keys(buckets)) <==> Distinct(Keys(others))
    ensures (buckets == []) == (others == [])
  {
    SameLength(buckets, others);
    var f := (b: Bucket) => Max(0, b.weight);
    MapPermutes(f, buckets, others);
    assert Raws(buckets) == Map(f, buckets) && Raws(others) == Map(f, others);
    SumForgetsOrder(Raws(buckets), Raws(others));
    var g := (b: Bucket) => b.key;
    MapPermutes(g, buckets, others);
    assert Keys(buckets) == Map(g, buckets) && Keys(others) == Map(g, others);
    DistinctForgetsOrder(Keys(buckets), Keys(others));
  }

  lemma RowsAreMapped(magnitude: int, buckets: seq<Bucket>, even: bool, d: int, f: Bucket -> Row)
    requires buckets != [] && even == Even(buckets) && d == Denominator(buckets) && d > 0
    requires f == ((b: Bucket) => RowOf(magnitude, even, d, b))
    ensures Rows(magnitude, buckets) == Map(f, buckets)
  {
  }

  lemma RowsForgetOrder(magnitude: int, buckets: seq<Bucket>, others: seq<Bucket>)
    requires multiset(buckets) == multiset(others) && buckets != []
    ensures multiset(Rows(magnitude, buckets)) == multiset(Rows(magnitude, others))
  {
    AggregatesForgetOrder(buckets, others);
    DenominatorPositive(buckets);
    var even, d := Even(buckets), Denominator(buckets);
    var f := (b: Bucket) => RowOf(magnitude, even, d, b);
    RowsAreMapped(magnitude, buckets, even, d, f);
    RowsAreMapped(magnitude, others, even, d, f);
    MapPermutes(f, buckets, others);
  }

  lemma FavouredForgetOrder(magnitude: int, buckets: seq<Bucket>, others: seq<Bucket>)
    requires multiset(buckets) == multiset(others) && Splittable(magnitude, buckets)
    ensures Shortfall(magnitude, Rows(magnitude, buckets)) == Shortfall(magnitude, Rows(magnitude, others))
    ensures Ranked(Rows(magnitude, buckets)) == Ranked(Rows(magnitude, others))
  {
    var rows, rows' := Rows(magnitude, buckets), Rows(magnitude, others);
    RowsForgetOrder(magnitude, buckets, others);
    RowsDistinct(magnitude, buckets);
    RankingIsAnOrder();
    assert TiesAreEqual(NotAfter, rows);
    SortForgetsOrder(NotAfter, rows, rows');
    var f := (row: Row) => row.base;
    MapPermutes(f, rows, rows');
    assert Bases(rows) == Map(f, rows) && Bases(rows') == Map(f, rows');
    SumForgetsOrder(Bases(rows), Bases(rows'));
  }

  /** Equal buckets receive equal shares wherever they stand in the list. */
  lemma ShareForgetsPosition(total: int, buckets: seq<Bucket>, others: seq<Bucket>, i: nat, j: nat)
    requires multiset(buckets) == multiset(others) && Distinct(Keys(buckets))
    requires i < |buckets| && j < |others| && buckets[i] == others[j]
    ensures Shares(total, buckets)[i] == Shares(total, others)[j]
  {
    AggregatesForgetOrder(buckets, others);
    FavouredForgetOrder(Abs(total), buckets, others);
    assert Rows(Abs(total), buckets)[i] == Rows(Abs(total), others)[j];
  }

  lemma ShareElsewhere(total: int, buckets: seq<Bucket>, others: seq<Bucket>, i: nat) returns (j: nat)
    requires multiset(buckets) == multiset(others) && Distinct(Keys(buckets)) && i < |buckets|
    ensures j < |others| && others[j] == buckets[i] && Shares(total, others)[j] == Shares(total, buckets)[i]
  {
    SameLength(buckets, others);
    assert buckets[i] in others;
    j :| 0 <= j < |others| && others[j] == buckets[i];
    ShareForgetsPosition(total, buckets, others, i, j);
  }

  lemma SuccessForgetsOrder(total: int, buckets: seq<Bucket>, others: seq<Bucket>)
    requires multiset(buckets) == multiset(others) && Allocate(total, buckets).Ok?
    ensures Allocate(total, others).Ok?
  {
    AggregatesForgetOrder(buckets, others);
    AllocateFails(total, buckets);
    AllocateFails(total, others);
    hide *;
    if others != [] {
      forall j | 0 <= j < |others| ensures InRange(Shares(total, others)[j]) {
        var i := ShareElsewhere(total, others, buckets, j);
      }
    }
  }

  lemma TableElsewhere(total: int, buckets: seq<Bucket>, others: seq<Bucket>, k: string)
    requires multiset(buckets) == multiset(others)
    requires Allocate(total, buckets).Ok? && Allocate(total, others).Ok?
    requires k in Allocate(total, buckets).value
    ensures k in Allocate(total, others).value
    ensures Allocate(total, buckets).value[k] == Allocate(total, others).value[k]
  {
    AllocateHolds(total, buckets);
    AllocateHolds(total, others);
    var i :| 0 <= i < |Keys(buckets)| && Keys(buckets)[i] == k;
    assert buckets[i].key == k;
    hide *;
    var j := ShareElsewhere(total, buckets, others, i);
  }

  /** When an allocation fails, why it fails does not depend on the order either. */
  lemma FailureForgetsOrder(total: int, buckets: seq<Bucket>, others: seq<Bucket>)
    requires multiset(buckets) == multiset(others) && Allocate(total, buckets).Err? && Allocate(total, others).Err?
    ensures Allocate(total, buckets) == Allocate(total, others)
  {
    AggregatesForgetOrder(buckets, others);
    KeysDistinct(buckets);
    KeysDistinct(others);
  }

  /** The allocation is a function of the set of buckets, not of the order they arrive in. */
  lemma AllocateForgetsOrder(total: int, buckets: seq<Bucket>, others: seq<Bucket>)
    requires multiset(buckets) == multiset(others)
    ensures Allocate(total, buckets) == Allocate(total, others)
  {
    hide *;
    if Allocate(total, buckets).Ok? {
      SuccessForgetsOrder(total, buckets, others);
      var m, n := Allocate(total, buckets).value, Allocate(total, others).value;
      forall k ensures k in m ==> k in n && m[k] == n[k] {
        if k in m { TableElsewhere(total, buckets, others, k); }
      }
      forall k ensures k in n ==> k in m {
        if k in n { TableElsewhere(total, others, buckets, k); }
      }
      assert m == n;
    } else {
      if Allocate(total, others).Ok? { SuccessForgetsOrder(total, others, buckets); }
      FailureForgetsOrder(total, buckets, others);
    }
  }

  // ---------------------------------------------------------------- the loop

  /** Splits the total over the buckets, topping up ranked rows one unit at a time. */
  method AllocateMinor(total: int, buckets: seq<Bucket>) returns (r: Result<map<string, int>>)
    ensures r == Allocate(total, buckets)
  {
    KeysDistinct(buckets);
    if |buckets| == 0 {
      return if total != 0 then Err(NoBuckets) else Ok(map[]);
    }
    var repeated := HasRepeatedKey(buckets);
    if repeated { return Err(DuplicateKey); }

    var magnitude := Abs(total);
    var rows := Rows(magnitude, buckets);
    var shortfall := Shortfall(magnitude, rows);
    ShortfallBounds(magnitude, buckets);
    var order := Ranked(rows);
    RankedFacts(rows);

    var extra := TopUp(order, shortfall);
    forall i | 0 <= i < |rows| ensures rows[i].base + Get(extra, rows[i].key) == Portions(magnitude, buckets)[i] {
      AmountAt(magnitude, buckets, extra, i);
    }
    CollectOutcome(total, buckets);
    r := Collect(total, rows, extra, Portions(magnitude, buckets));
  }

  method HasRepeatedKey(buckets: seq<Bucket>) returns (repeated: bool)
    ensures repeated <==> !Distinct(Keys(buckets))
  {
    var seen: set<string> := {};
    var keys := Keys(buckets);
    for i := 0 to |buckets|
      invariant seen == set k | k in keys[..i]
      invariant Distinct(keys[..i])
    {
      assert keys[..i+1] == keys[..i] + [keys[i]];
      if buckets[i].key in seen {
        var j :| 0 <= j < i && keys[j] == keys[i];
        return true;
      }
      seen := seen + {buckets[i].key};
    }
    assert keys[..|buckets|] == keys;
    return false;
  }

  /** Gives one extra unit to each row in turn until the shortfall is used up. */
  method TopUp(order: seq<Row>, shortfall: int) returns (extra: map<string, int>)
    requires 0 <= shortfall <= |order|
    ensures extra.Keys == Favoured(order, shortfall)
    ensures forall k :: k in extra ==> extra[k] == 1
  {
    var left := shortfall;
    extra := map[];
    for i := 0 to |order|
      invariant left == if i <= shortfall then shortfall - i else 0
      invariant extra.Keys == Favoured(order, Min(i, shortfall))
      invariant forall k :: k in extra ==> extra[k] == 1
    {
      if left <= 0 { break; }
      extra := extra[order[i].key := 1];
      left := left - 1;
    }
  }

  lemma RowKeyAt(rows: seq<Row>, i: nat)
    requires i < |rows|
    ensures RowKeys(rows)[i] == rows[i].key
  {
  }

  /** Writes the signed amounts out, refusing one that is not money. */
  method Collect(total: int, rows: seq<Row>, extra: map<string, int>, ghost portions: seq<int>)
    returns (r: Result<map<string, int>>)
    requires |portions| == |rows|
    requires forall i :: 0 <= i < |rows| ==> rows[i].base + Get(extra, rows[i].key) == portions[i]
    ensures r == if exists i :: 0 <= i < |rows| && portions[i] > MAX_MINOR then Err(OutOfRange)
                 else Ok(TableOf(RowKeys(rows), Signed(total, portions)))
  {
    hide RowKeys;
    var out: map<string, int> := map[];
    ghost var keys, shares := RowKeys(rows), Signed(total, portions);
    for i := 0 to |rows|
      invariant out == TableUpTo(keys, shares, i)
      invariant forall k :: 0 <= k < i ==> portions[k] <= MAX_MINOR
    {
      var amount := rows[i].base + Get(extra, rows[i].key);
      RowKeyAt(rows, i);
      if amount > MAX_MINOR {
        assert portions[i] > MAX_MINOR;
        return Err(OutOfRange);
      }
      out := out[rows[i].key := if total < 0 then -amount else amount];
    }
    return Ok(out);
  }

  lemma AmountAt(magnitude: int, buckets: seq<Bucket>, extra: map<string, int>, i: nat)
    requires i < |buckets|
    requires var rows := Rows(magnitude, buckets); extra.Keys == Favoured(Ranked(rows), Shortfall(magnitude, rows))
    requires forall k :: k in extra ==> extra[k] == 1
    ensures var row := Rows(magnitude, buckets)[i]; row.base + Get(extra, row.key) == Portions(magnitude, buckets)[i]
  {
  }

  /** The rows stand under the buckets' keys. */
  lemma RowKeysAreKeys(magnitude: int, buckets: seq<Bucket>)
    requires magnitude >= 0
    ensures RowKeys(Rows(magnitude, buckets)) == Keys(buckets)
  {
    hide Rows;
    var rows := Rows(magnitude, buckets);
    forall i | 0 <= i < |rows| ensures RowKeys(rows)[i] == Keys(buckets)[i] { RowFacts(magnitude, buckets, i); }
  }

  /** With distinct keys an allocation is refused only for a share that is not money. */
  lemma DistinctOutcome(total: int, buckets: seq<Bucket>)
    requires buckets != [] && Distinct(Keys(buckets))
    ensures var portions := Portions(Abs(total), buckets);
      Allocate(total, buckets) ==
        if exists i :: 0 <= i < |buckets| && portions[i] > MAX_MINOR then Err(OutOfRange)
        else Ok(TableOf(Keys(buckets), Shares(total, buckets)))
  {
    hide Portions, Rows, Shares, TableOf, Keys, Distinct;
    KeysDistinct(buckets);
  }

  /** The collected outcome is the specified one. */
  lemma CollectOutcome(total: int, buckets: seq<Bucket>)
    requires buckets != [] && Distinct(Keys(buckets))
    ensures var portions := Portions(Abs(total), buckets);
      Allocate(total, buckets) ==
        if exists i :: 0 <= i < |buckets| && portions[i] > MAX_MINOR then Err(OutOfRange)
        else Ok(TableOf(RowKeys(Rows(Abs(total), buckets)), Signed(total, portions)))
  {
    hide Allocate, Portions, Rows, RowKeys, TableOf, Keys, Distinct;
    DistinctOutcome(total, buckets);
    RowKeysAreKeys(Abs(total), buckets);
  }
}
