/** Largest remainder in words: what the parts of a split satisfy, and that no other parts do. */
module Splits {
  import opened Prelude
  import opened Sums
  import opened Arith
  import opened Allocation
  import AllocationLaws
  import Allocator
  import Text

  /** The positive weights together; the others weigh nothing. */
  function Positive(weights: seq<int>): int {
    if weights == [] then 0 else (if weights[0] > 0 then weights[0] else 0) + Positive(weights[1..])
  }

  /** What the weights are measured against; without a positive one every row weighs the same. */
  function Whole(weights: seq<int>): int { if Positive(weights) == 0 then |weights| else Positive(weights) }

  function Part(weights: seq<int>, i: nat): int
    requires i < |weights|
  {
    if Positive(weights) == 0 then 1 else if weights[i] > 0 then weights[i] else 0
  }

  /** By how much the size of a share is more than its exact part of the total, in units of 1/Whole. */
  function Excess(total: int, weights: seq<int>, share: int, i: nat): int
    requires i < |weights|
  {
    Abs(share) * Whole(weights) - Abs(total) * Part(weights, i)
  }

  /** A row rounded up comes before a row rounded down: larger remainder, else larger weight, else smaller key. */
  ghost predicate UpBeforeDown(total: int, keys: seq<string>, weights: seq<int>, up: int, down: int, i: nat, j: nat)
    requires i < |weights| == |keys| && j < |weights|
  {
    var lost, kept := Whole(weights) - Excess(total, weights, up, i), -Excess(total, weights, down, j);
    lost > kept || (lost == kept && (Part(weights, i) > Part(weights, j) ||
      (Part(weights, i) == Part(weights, j) && Text.Lt(keys[i], keys[j]))))
  }

  /**
   * The shares split the total by the weights: they add up to it, have its sign, each is its exact
   * part rounded up or down, and none is rounded down before one that is rounded up.
   */
  ghost predicate IsSplit(total: int, keys: seq<string>, weights: seq<int>, shares: seq<int>) {
    && |keys| == |weights| == |shares| && Sum(shares) == total
    && (forall i :: 0 <= i < |shares| ==> if total >= 0 then shares[i] >= 0 else shares[i] <= 0)
    && (forall i :: 0 <= i < |shares| ==> -Whole(weights) < Excess(total, weights, shares[i], i) < Whole(weights))
    && (forall i, j :: 0 <= i < |shares| && 0 <= j < |shares| ==>
          Excess(total, weights, shares[i], i) <= 0 || Excess(total, weights, shares[j], j) > 0
          || UpBeforeDown(total, keys, weights, shares[i], shares[j], i, j))
  }

  function WeightsOf(buckets: seq<Bucket>): (r: seq<int>)
    ensures |r| == |buckets| && forall i :: 0 <= i < |buckets| ==> r[i] == buckets[i].weight
  {
    seq(|buckets|, i requires 0 <= i < |buckets| => buckets[i].weight)
  }

  lemma {:induction false} PositiveIsSum(weights: seq<int>, buckets: seq<Bucket>)
    requires |weights| == |buckets| && forall i :: 0 <= i < |buckets| ==> weights[i] == buckets[i].weight
    ensures Positive(weights) == Sum(Raws(buckets))
  {
    if weights != [] {
      PositiveIsSum(weights[1..], buckets[1..]);
      assert Raws(buckets)[1..] == Raws(buckets[1..]);
    }
  }

  lemma SameParts(buckets: seq<Bucket>)
    ensures Whole(WeightsOf(buckets)) == Denominator(buckets)
    ensures forall i :: 0 <= i < |buckets| ==> Part(WeightsOf(buckets), i) == AllocationLaws.Weights(buckets)[i]
  {
    PositiveIsSum(WeightsOf(buckets), buckets);
  }

  /** A share is its row's base, and one more exactly when it is rounded up. */
  lemma ShareRow(total: int, buckets: seq<Bucket>, i: nat) returns (p: nat)
    requires buckets != [] && Distinct(Keys(buckets)) && i < |buckets|
    ensures var rows, weights := Rows(Abs(total), buckets), WeightsOf(buckets);
      var excess := Excess(total, weights, Shares(total, buckets)[i], i);
      && p < |rows| == |Ranked(rows)| && Ranked(rows)[p] == rows[i]
      && rows[i].key == buckets[i].key && rows[i].weight == Part(weights, i)
      && (p < Shortfall(Abs(total), rows) <==> excess > 0)
      && rows[i].remainder == (if excess > 0 then Whole(weights) - excess else -excess)
      && -Whole(weights) < excess < Whole(weights)
  {
    hide Rows, Portions, Ranked, Shortfall, Whole, Part, Denominator, Keys, Distinct;
    var m := Abs(total);
    SameParts(buckets);
    p := AllocationLaws.PortionFacts(m, buckets, i);
    AllocationLaws.RowFacts(m, buckets, i);
    AllocationLaws.PortionQuota(m, buckets, i);
    Allocator.QuotaSigned(total, buckets, i);
    assert Abs(Shares(total, buckets)[i]) == Portions(m, buckets)[i];
    var row := Rows(m, buckets)[i];
    Distribute(row.base, 1, Denominator(buckets));
  }

  /** What allocation hands out is the split by the weights. */
  lemma SharesSplit(total: int, buckets: seq<Bucket>)
    requires buckets != [] && Distinct(Keys(buckets))
    ensures IsSplit(total, Keys(buckets), WeightsOf(buckets), Shares(total, buckets))
  {
    hide Rows, Portions, Ranked, Shortfall, Whole, Part, Excess, Shares, Distinct, WeightsOf;
    var m, rows, weights, shares := Abs(total), Rows(Abs(total), buckets), WeightsOf(buckets), Shares(total, buckets);
    Allocator.SharesContract(total, buckets);
    forall i | 0 <= i < |buckets| ensures -Whole(weights) < Excess(total, weights, shares[i], i) < Whole(weights) {
      var p := ShareRow(total, buckets, i);
    }
    forall i, j | 0 <= i < |shares| && 0 <= j < |shares|
        && Excess(total, weights, shares[i], i) > 0 >= Excess(total, weights, shares[j], j)
      ensures UpBeforeDown(total, Keys(buckets), weights, shares[i], shares[j], i, j)
    {
      var p := ShareRow(total, buckets, i);
      var q := ShareRow(total, buckets, j);
      RankedBefore(rows, p, q);
      KeysDiffer(buckets, i, j);
    }
  }

  lemma RankedBefore(rows: seq<Row>, p: nat, q: nat)
    requires p < q < |Ranked(rows)|
    ensures !Precedes(Ranked(rows)[q], Ranked(rows)[p])
  {
    AllocationLaws.RankedFacts(rows);
    assert NotAfter(Ranked(rows)[p], Ranked(rows)[q]);
  }

  lemma KeysDiffer(buckets: seq<Bucket>, i: nat, j: nat)
    requires Distinct(Keys(buckets)) && i < |buckets| && j < |buckets| && i != j
    ensures buckets[i].key == Keys(buckets)[i] && buckets[j].key == Keys(buckets)[j] && buckets[i].key != buckets[j].key
    ensures Text.Lt(buckets[i].key, buckets[j].key) || Text.Lt(buckets[j].key, buckets[i].key)
  {
    Text.Trichotomy(buckets[i].key, buckets[j].key);
    assert Keys(buckets)[i] != Keys(buckets)[j];
  }

  // ---------------------------------------------------------------- one answer

  lemma {:induction false} PositiveSign(weights: seq<int>)
    ensures Positive(weights) >= 0
    ensures weights != [] ==> Whole(weights) > 0
  {
    if weights != [] { PositiveSign(weights[1..]); }
  }

  /** A row that is up in one split and down in the other is off by a whole unit between them. */
  lemma UpAndDown(total: int, weights: seq<int>, more: int, less: int, i: nat)
    requires i < |weights| && Abs(more) > Abs(less)
    requires Excess(total, weights, more, i) < Whole(weights) && -Whole(weights) < Excess(total, weights, less, i)
    ensures Excess(total, weights, more, i) == Excess(total, weights, less, i) + Whole(weights)
    ensures Excess(total, weights, more, i) > 0 > Excess(total, weights, less, i)
  {
    hide Whole, Part;
    PositiveSign(weights);
    var d := Whole(weights);
    Distribute(Abs(more), Abs(less), d);
    Gap(Abs(more), Abs(less), 1, d);
    if Abs(more) >= Abs(less) + 2 { Gap(Abs(more), Abs(less), 2, d); }
  }

  lemma SomeLarger(xs: seq<int>, ys: seq<int>) returns (i: nat)
    requires |xs| == |ys| && Sum(xs) == Sum(ys) && xs != ys
    ensures i < |xs| && xs[i] > ys[i]
  {
    if forall k :: 0 <= k < |xs| ==> xs[k] <= ys[k] {
      TightSum(xs, ys);
    }
    i :| 0 <= i < |xs| && xs[i] > ys[i];
  }

  /** The words leave nothing open: a total splits over distinct keys in one way only. */
  lemma OneSplit(total: int, keys: seq<string>, weights: seq<int>, xs: seq<int>, ys: seq<int>)
    requires Distinct(keys) && IsSplit(total, keys, weights, xs) && IsSplit(total, keys, weights, ys)
    ensures xs == ys
  {
    if xs != ys {
      var i, j;
      if total >= 0 {
        i := SomeLarger(xs, ys);
        j := SomeLarger(ys, xs);
      } else {
        i := SomeLarger(ys, xs);
        j := SomeLarger(xs, ys);
      }
      hide Excess, Whole, Part, Distinct;
      UpAndDown(total, weights, xs[i], ys[i], i);
      UpAndDown(total, weights, ys[j], xs[j], j);
      Text.Trichotomy(keys[i], keys[j]);
    }
  }
}