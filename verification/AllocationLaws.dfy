/** What largest-remainder allocation promises about its shares. */
module AllocationLaws {
  import opened Prelude
  import opened Sequences
  import opened Sums
  import opened Arith
  import opened Sorting
  import opened Allocation
  import Text

  ghost predicate Splittable(magnitude: int, buckets: seq<Bucket>) {
    magnitude >= 0 && buckets != [] && Distinct(Keys(buckets))
  }

  function Weights(buckets: seq<Bucket>): (r: seq<int>)
    ensures |r| == |buckets|
  {
    var even := Even(buckets);
    Map((b: Bucket) => Weight(even, b), buckets)
  }

  function Remainders(rows: seq<Row>): (r: seq<int>)
    ensures |r| == |rows|
  {
    Map((row: Row) => row.remainder, rows)
  }

  // ------------------------------------------------------------ single rows

  lemma WeightsSum(buckets: seq<Bucket>)
    requires buckets != []
    ensures Sum(Weights(buckets)) == Denominator(buckets) > 0
    ensures forall i :: 0 <= i < |buckets| ==> Weights(buckets)[i] >= 0
  {
    DenominatorPositive(buckets);
    if Even(buckets) {
      SumOfConstant(Weights(buckets), 1);
    } else {
      assert Weights(buckets) == Raws(buckets);
    }
  }

  /** A row's base and remainder are the quotient and remainder of its exact quota. */
  lemma RowFacts(magnitude: int, buckets: seq<Bucket>, i: nat)
    requires magnitude >= 0 && i < |buckets|
    ensures var row, d := Rows(magnitude, buckets)[i], Denominator(buckets);
      && row.key == buckets[i].key == Keys(buckets)[i]
      && row.weight == Weights(buckets)[i]
      && row.base * d + row.remainder == magnitude * row.weight
      && 0 <= row.remainder < d && row.base >= 0 && row.weight >= 0
  {
    WeightsSum(buckets);
    var row := Rows(magnitude, buckets)[i];
    ProductSign(magnitude, row.weight);
    Quotient(magnitude * row.weight, Denominator(buckets));
  }

  lemma RemaindersSum(magnitude: int, buckets: seq<Bucket>)
    requires magnitude >= 0 && buckets != []
    ensures var rows := Rows(magnitude, buckets);
      Sum(Remainders(rows)) == Shortfall(magnitude, rows) * Denominator(buckets)
  {
    var rows, d := Rows(magnitude, buckets), Denominator(buckets);
    WeightsSum(buckets);
    forall i | 0 <= i < |rows|
      ensures Remainders(rows)[i] == magnitude * Weights(buckets)[i] + (-d) * Bases(rows)[i]
    {
      RowFacts(magnitude, buckets, i);
      Distribute(0, d, rows[i].base);
    }
    SumLinear(Remainders(rows), magnitude, Weights(buckets), -d, Bases(rows));
    Distribute(magnitude, Sum(Bases(rows)), d);
    Distribute(0, d, Sum(Bases(rows)));
  }

  /** The top-up loop never runs out of rows. */
  lemma ShortfallBounds(magnitude: int, buckets: seq<Bucket>)
    requires magnitude >= 0 && buckets != []
    ensures 0 <= Shortfall(magnitude, Rows(magnitude, buckets)) < |buckets|
  {
    var rows, d := Rows(magnitude, buckets), Denominator(buckets);
    var s := Shortfall(magnitude, rows);
    WeightsSum(buckets);
    RemaindersSum(magnitude, buckets);
    forall i | 0 <= i < |rows| ensures 0 <= Remainders(rows)[i] <= d - 1 { RowFacts(magnitude, buckets, i); }
    SumNonNegative(Remainders(rows));
    var tops := seq(|rows|, i => d - 1);
    SumOfConstant(tops, d - 1);
    SumMonotone(Remainders(rows), tops);
    if s < 0 { Gap(0, s, 1, d); }
    if s >= |buckets| {
      Gap(s, |buckets|, 0, d);
      Distribute(d, 1, |buckets|);
    }
  }

  // ----------------------------------------------------------------- ranking

  lemma RankingIsAnOrder()
    ensures TotalPreorder(NotAfter)
    ensures forall a, b :: NotAfter(a, b) && NotAfter(b, a) ==> a.key == b.key
  {
    Text.Order();
  }

  lemma RankedFacts(rows: seq<Row>)
    ensures multiset(Ranked(rows)) == multiset(rows)
    ensures |Ranked(rows)| == |rows|
    ensures SortedBy(NotAfter, Ranked(rows))
    ensures forall row :: row in Ranked(rows) <==> row in rows
  {
    RankingIsAnOrder();
    SortPermutes(NotAfter, rows);
    SortSorts(NotAfter, rows);
    SameLength(Ranked(rows), rows);
  }

  ghost predicate DistinctRows(rows: seq<Row>) {
    forall i, j :: 0 <= i < j < |rows| ==> rows[i].key != rows[j].key
  }

  function RowKeys(rows: seq<Row>): (r: seq<string>)
    ensures |r| == |rows|
  {
    Map((row: Row) => row.key, rows)
  }

  lemma RankedKeysDistinct(rows: seq<Row>)
    requires DistinctRows(rows)
    ensures DistinctRows(Ranked(rows))
  {
    RankedFacts(rows);
    MapPermutes((row: Row) => row.key, rows, Ranked(rows));
    assert RowKeys(rows) == Map((row: Row) => row.key, rows);
    assert Distinct(RowKeys(rows));
    KeysPermute(rows, Ranked(rows));
    DistinctForgetsOrder(RowKeys(rows), RowKeys(Ranked(rows)));
    forall i, j | 0 <= i < j < |rows| ensures Ranked(rows)[i].key != Ranked(rows)[j].key {
      assert RowKeys(Ranked(rows))[i] != RowKeys(Ranked(rows))[j];
    }
  }

  lemma KeysPermute(rows: seq<Row>, others: seq<Row>)
    requires multiset(rows) == multiset(others)
    ensures multiset(RowKeys(rows)) == multiset(RowKeys(others))
  {
    var f := (row: Row) => row.key;
    MapPermutes(f, rows, others);
    assert RowKeys(rows) == Map(f, rows) && RowKeys(others) == Map(f, others);
  }

  /** Where row i ends up, and that it is topped up exactly when it ranks within the shortfall. */
  lemma RankOf(rows: seq<Row>, n: int, i: nat) returns (p: nat)
    requires DistinctRows(rows) && i < |rows|
    ensures p < |rows| == |Ranked(rows)| && Ranked(rows)[p] == rows[i]
    ensures rows[i].key in Favoured(Ranked(rows), n) <==> p < n
  {
    RankedFacts(rows);
    RankedKeysDistinct(rows);
    assert rows[i] in Ranked(rows);
    p :| 0 <= p < |Ranked(rows)| && Ranked(rows)[p] == rows[i];
    if rows[i].key in Favoured(Ranked(rows), n) {
      var q :| 0 <= q < |Ranked(rows)| && q < n && Ranked(rows)[q].key == rows[i].key;
      assert p == q;
    }
  }

  // ---------------------------------------------------- how many are topped up

  function Marks(rows: seq<Row>, favoured: set<string>): (r: seq<int>)
    ensures |r| == |rows|
  {
    Map((row: Row) => if row.key in favoured then 1 else 0, rows)
  }

  lemma MarksPermute(rows: seq<Row>, others: seq<Row>, favoured: set<string>)
    requires multiset(rows) == multiset(others)
    ensures Sum(Marks(rows, favoured)) == Sum(Marks(others, favoured))
  {
    var f := (row: Row) => if row.key in favoured then 1 else 0;
    MapPermutes(f, rows, others);
    assert Marks(rows, favoured) == Map(f, rows) && Marks(others, favoured) == Map(f, others);
    SumForgetsOrder(Marks(rows, favoured), Marks(others, favoured));
  }

  lemma {:induction false} SumOfSteps(xs: seq<int>, n: nat)
    requires n <= |xs|
    requires forall i :: 0 <= i < |xs| ==> xs[i] == if i < n then 1 else 0
    ensures Sum(xs) == n
  {
    if xs != [] { SumOfSteps(xs[1..], if n == 0 then 0 else n - 1); }
  }

  lemma FavouredCount(rows: seq<Row>, n: nat)
    requires DistinctRows(rows) && n <= |rows|
    ensures Sum(Marks(rows, Favoured(Ranked(rows), n))) == n
  {
    var ranked := Ranked(rows);
    var favoured := Favoured(ranked, n);
    RankedFacts(rows);
    RankedKeysDistinct(rows);
    forall p | 0 <= p < |ranked| ensures Marks(ranked, favoured)[p] == if p < n then 1 else 0 {
      if ranked[p].key in favoured {
        var q :| 0 <= q < |ranked| && q < n && ranked[q].key == ranked[p].key;
        assert p == q;
      }
    }
    SumOfSteps(Marks(ranked, favoured), n);
    MarksPermute(rows, ranked, favoured);
  }

  // -------------------------------------------------------------- the contract

  lemma RowsDistinct(magnitude: int, buckets: seq<Bucket>)
    requires Splittable(magnitude, buckets)
    ensures DistinctRows(Rows(magnitude, buckets))
  {
    var rows := Rows(magnitude, buckets);
    forall i, j | 0 <= i < j < |rows| ensures rows[i].key != rows[j].key {
      RowFacts(magnitude, buckets, i);
      RowFacts(magnitude, buckets, j);
      assert Keys(buckets)[i] != Keys(buckets)[j];
    }
  }

  /** Each portion is its base, plus one exactly when its row ranks within the shortfall. */
  lemma PortionFacts(magnitude: int, buckets: seq<Bucket>, i: nat) returns (p: nat)
    requires Splittable(magnitude, buckets) && i < |buckets|
    ensures var rows := Rows(magnitude, buckets);
      && p < |rows| == |Ranked(rows)| && Ranked(rows)[p] == rows[i]
      && Portions(magnitude, buckets)[i] == rows[i].base + (if p < Shortfall(magnitude, rows) then 1 else 0)
  {
    RowsDistinct(magnitude, buckets);
    var rows := Rows(magnitude, buckets);
    p := RankOf(rows, Shortfall(magnitude, rows), i);
  }

  lemma PortionsSum(magnitude: int, buckets: seq<Bucket>)
    requires Splittable(magnitude, buckets)
    ensures Sum(Portions(magnitude, buckets)) == magnitude
  {
    var rows := Rows(magnitude, buckets);
    var favoured := Favoured(Ranked(rows), Shortfall(magnitude, rows));
    RowsDistinct(magnitude, buckets);
    ShortfallBounds(magnitude, buckets);
    FavouredCount(rows, Shortfall(magnitude, rows));
    SumAdd(Portions(magnitude, buckets), Bases(rows), Marks(rows, favoured));
  }

  lemma {:induction false} SumOfPrefix(xs: seq<int>, n: nat, top: int)
    requires n <= |xs|
    requires forall i :: 0 <= i < |xs| ==> xs[i] <= if i < n then top else 0
    ensures Sum(xs) <= n * top
  {
    if xs != [] {
      SumOfPrefix(xs[1..], if n == 0 then 0 else n - 1, top);
      Distribute(n, 1, top);
    }
  }

  /** Only rows with a positive remainder are topped up. */
  lemma FavouredHaveRemainder(magnitude: int, buckets: seq<Bucket>, p: nat)
    requires Splittable(magnitude, buckets)
    requires var rows := Rows(magnitude, buckets); p < Shortfall(magnitude, rows) && p < |Ranked(rows)|
    ensures Ranked(Rows(magnitude, buckets))[p].remainder > 0
  {
    var rows, d := Rows(magnitude, buckets), Denominator(buckets);
    var ranked, s := Ranked(rows), Shortfall(magnitude, rows);
    RankedFacts(rows);
    WeightsSum(buckets);
    if ranked[p].remainder <= 0 {
      forall q | 0 <= q < |ranked| ensures Remainders(ranked)[q] <= if q < p then d else 0 {
        var i := RowIndex(rows, ranked[q]);
        RowFacts(magnitude, buckets, i);
        if q > p { assert NotAfter(ranked[p], ranked[q]); }
      }
      SumOfPrefix(Remainders(ranked), p, d);
      RemaindersPermute(rows, ranked);
      RemaindersSum(magnitude, buckets);
      Gap(s, p, 1, d);
      assert false;
    }
  }

  lemma RowIndex(rows: seq<Row>, row: Row) returns (i: nat)
    requires row in Ranked(rows)
    ensures i < |rows| && rows[i] == row
  {
    RankedFacts(rows);
    i :| 0 <= i < |rows| && rows[i] == row;
  }

  lemma RemaindersPermute(rows: seq<Row>, others: seq<Row>)
    requires multiset(rows) == multiset(others)
    ensures Sum(Remainders(rows)) == Sum(Remainders(others))
  {
    var f := (row: Row) => row.remainder;
    MapPermutes(f, rows, others);
    assert Remainders(rows) == Map(f, rows) && Remainders(others) == Map(f, others);
    SumForgetsOrder(Remainders(rows), Remainders(others));
  }

  lemma ZeroWeightRow(magnitude: int, buckets: seq<Bucket>, i: nat)
    requires magnitude >= 0 && i < |buckets| && Weights(buckets)[i] == 0
    ensures var row := Rows(magnitude, buckets)[i]; row.base == 0 && row.remainder == 0
  {
    RowFacts(magnitude, buckets, i);
    var row := Rows(magnitude, buckets)[i];
    if row.base > 0 { Gap(row.base, 0, 1, Denominator(buckets)); }
  }

  /** A portion lies strictly within one unit of its exact quota and is never negative. */
  lemma PortionQuota(magnitude: int, buckets: seq<Bucket>, i: nat)
    requires Splittable(magnitude, buckets) && i < |buckets|
    ensures var d, x := Denominator(buckets), Portions(magnitude, buckets)[i];
      Abs(x * d - magnitude * Weights(buckets)[i]) < d && 0 <= x
    ensures Weights(buckets)[i] == 0 ==> Portions(magnitude, buckets)[i] == 0
  {
    var p := PortionFacts(magnitude, buckets, i);
    RowFacts(magnitude, buckets, i);
    Distribute(Rows(magnitude, buckets)[i].base, 1, Denominator(buckets));
    if p < Shortfall(magnitude, Rows(magnitude, buckets)) { FavouredHaveRemainder(magnitude, buckets, p); }
    if Weights(buckets)[i] == 0 { ZeroWeightRow(magnitude, buckets, i); }
  }

  lemma RankOrder(rows: seq<Row>, p: nat, q: nat)
    requires p <= q < |Ranked(rows)|
    ensures Ranked(rows)[p].remainder >= Ranked(rows)[q].remainder
  {
    RankedFacts(rows);
    if p < q { assert NotAfter(Ranked(rows)[p], Ranked(rows)[q]); }
  }

  /** A strictly larger weight never gets the smaller portion. */
  lemma PortionsFollowWeights(magnitude: int, buckets: seq<Bucket>, i: nat, j: nat)
    requires Splittable(magnitude, buckets) && i < |buckets| && j < |buckets|
    requires Weights(buckets)[i] > Weights(buckets)[j]
    ensures Portions(magnitude, buckets)[i] >= Portions(magnitude, buckets)[j]
  {
    var p := PortionFacts(magnitude, buckets, i);
    var q := PortionFacts(magnitude, buckets, j);
    RowFacts(magnitude, buckets, i);
    RowFacts(magnitude, buckets, j);
    var rows, d := Rows(magnitude, buckets), Denominator(buckets);
    LargerWeightLargerRow(magnitude, d, rows[i], rows[j]);
    if q <= p { RankOrder(rows, q, p); } else { RankOrder(rows, p, q); }
    if magnitude == 0 { NothingToSplit(buckets); }
  }

  lemma LargerWeightLargerRow(magnitude: int, d: int, a: Row, b: Row)
    requires magnitude >= 0 && a.weight > b.weight
    requires 0 <= a.remainder < d && a.base * d + a.remainder == magnitude * a.weight
    requires 0 <= b.remainder < d && b.base * d + b.remainder == magnitude * b.weight
    ensures a.base > b.base || (a.base == b.base && (a.remainder > b.remainder || magnitude == 0))
  {
    Gap(a.weight, b.weight, 1, magnitude);
    if a.base < b.base { Gap(b.base, a.base, 1, d); }
  }

  lemma NothingToSplit(buckets: seq<Bucket>)
    requires buckets != []
    ensures Shortfall(0, Rows(0, buckets)) == 0
  {
    forall i | 0 <= i < |buckets| ensures Bases(Rows(0, buckets))[i] == 0 {
      RowFacts(0, buckets, i);
      var row := Rows(0, buckets)[i];
      if row.base > 0 { Gap(row.base, 0, 1, Denominator(buckets)); }
    }
    SumOfConstant(Bases(Rows(0, buckets)), 0);
  }

  // -------------------------------------------------------------- optimality

  /** Total absolute distance of a split xs from the exact proportional split, times the denominator. */
  function Deviations(denominator: int, magnitude: int, weights: seq<int>, xs: seq<int>): (r: seq<int>)
    requires |weights| == |xs|
    ensures |r| == |xs|
    ensures forall i :: 0 <= i < |r| ==> r[i] == Abs(denominator * xs[i] - magnitude * weights[i])
  {
    seq(|xs|, i requires 0 <= i < |xs| => Abs(denominator * xs[i] - magnitude * weights[i]))
  }

  function Deviation(denominator: int, magnitude: int, weights: seq<int>, xs: seq<int>): int
    requires |weights| == |xs|
  {
    Sum(Deviations(denominator, magnitude, weights, xs))
  }

  /** The slope argument once the products are named. */
  lemma SlopeCore(d: int, r: int, t: int, e: int, y: int, dy: int, ty: int)
    requires (e == 0 && r <= t) || (e == 1 && r >= t)
    requires 0 <= r < d && 0 <= t <= d
    requires y >= 1 ==> dy >= d && ty >= t
    requires y <= 0 ==> dy <= ty <= 0
    ensures Abs(dy - r) >= Abs(d * e - r) + (dy - 2 * ty) - (d - 2 * t) * e
  {
  }

  /**
   * Moving a row from its portion a to any other value x costs at least the slope d - 2*t per
   * unit, when t separates the remainders that were topped up from those that were not.
   */
  lemma SlopeBound(d: int, base: int, r: int, t: int, a: int, x: int)
    requires 0 <= r < d && 0 <= t <= d
    requires (a == base && r <= t) || (a == base + 1 && r >= t)
    ensures Abs(d * x - (base * d + r)) >= Abs(d * a - (base * d + r)) + (d - 2 * t) * (x - a)
  {
    var y, e := x - base, a - base;
    if y >= 1 {
      ProductGrows(1, y, d);
      ProductGrows(1, y, t);
    } else {
      ProductGrows(y, 0, d - t);
      ProductGrows(y, 0, t);
      Distribute(d, t, y);
    }
    SlopeCore(d, r, t, e, y, d * y, t * y);
    Distribute(x, base, d);
    Distribute(a, base, d);
    SlopeOf(d, t, y, e);
  }

  lemma SlopeOf(d: int, t: int, y: int, e: int)
    ensures (d - 2 * t) * (y - e) == (d * y - 2 * (t * y)) - (d - 2 * t) * e
  {
  }

  /** t separates the remainders of topped-up rows from the others. */
  ghost predicate Separates(t: int, row: Row, portion: int) {
    (portion == row.base && row.remainder <= t) || (portion == row.base + 1 && row.remainder >= t)
  }

  /** The remainder of the last topped-up row separates. */
  lemma Threshold(magnitude: int, buckets: seq<Bucket>) returns (t: int)
    requires Splittable(magnitude, buckets)
    ensures 0 <= t <= Denominator(buckets)
    ensures forall i :: 0 <= i < |buckets| ==>
      Separates(t, Rows(magnitude, buckets)[i], Portions(magnitude, buckets)[i])
  {
    var rows, d := Rows(magnitude, buckets), Denominator(buckets);
    var s := Shortfall(magnitude, rows);
    ShortfallBounds(magnitude, buckets);
    RankedFacts(rows);
    WeightsSum(buckets);
    t := d;
    if s > 0 {
      var k := RowIndex(rows, Ranked(rows)[s-1]);
      RowFacts(magnitude, buckets, k);
      t := Ranked(rows)[s-1].remainder;
    }
    forall i | 0 <= i < |buckets| ensures Separates(t, rows[i], Portions(magnitude, buckets)[i]) {
      ThresholdAt(magnitude, buckets, t, i);
    }
  }

  lemma ThresholdAt(magnitude: int, buckets: seq<Bucket>, t: int, i: nat)
    requires Splittable(magnitude, buckets) && i < |buckets|
    requires var rows := Rows(magnitude, buckets);
      var s := Shortfall(magnitude, rows);
      0 <= s < |Ranked(rows)| && t == if s == 0 then Denominator(buckets) else Ranked(rows)[s-1].remainder
    ensures Separates(t, Rows(magnitude, buckets)[i], Portions(magnitude, buckets)[i])
  {
    var rows := Rows(magnitude, buckets);
    var s := Shortfall(magnitude, rows);
    var p := PortionFacts(magnitude, buckets, i);
    RowFacts(magnitude, buckets, i);
    if p < s { RankOrder(rows, p, s - 1); } else if s > 0 { RankOrder(rows, s - 1, p); }
  }

  function Differences(xs: seq<int>, ys: seq<int>): (r: seq<int>)
    requires |xs| == |ys|
    ensures |r| == |xs|
    ensures forall i :: 0 <= i < |r| ==> r[i] == xs[i] - ys[i]
  {
    seq(|xs|, i requires 0 <= i < |xs| => xs[i] - ys[i])
  }

  /** What moving position i away from its portion costs, in the terms the sums are taken over. */
  lemma DeviationAt(magnitude: int, buckets: seq<Bucket>, xs: seq<int>, t: int, i: nat)
    requires Splittable(magnitude, buckets) && |xs| == |buckets| && i < |buckets| && 0 <= t <= Denominator(buckets)
    requires Separates(t, Rows(magnitude, buckets)[i], Portions(magnitude, buckets)[i])
    ensures var d, ws, chosen := Denominator(buckets), Weights(buckets), Portions(magnitude, buckets);
      Deviations(d, magnitude, ws, xs)[i]
        >= Deviations(d, magnitude, ws, chosen)[i] + (d - 2 * t) * Differences(xs, chosen)[i]
  {
    RowFacts(magnitude, buckets, i);
    var row := Rows(magnitude, buckets)[i];
    SlopeBound(Denominator(buckets), row.base, row.remainder, t, Portions(magnitude, buckets)[i], xs[i]);
  }

  lemma SlopeSum(slope: int, a: int, b: int)
    ensures slope * (a + b) == slope * a + slope * b
    ensures slope * 0 == 0
  {
  }

  /** One more position: its own bound joins the bound on the prefix. */
  lemma SlopeStep(lo: seq<int>, hi: seq<int>, moves: seq<int>, slope: int, n: nat)
    requires |lo| == |hi| == |moves| && n < |lo|
    requires hi[n] >= lo[n] + slope * moves[n]
    requires Sum(hi[..n]) >= Sum(lo[..n]) + slope * Sum(moves[..n])
    ensures Sum(hi[..n+1]) >= Sum(lo[..n+1]) + slope * Sum(moves[..n+1])
  {
    SumTake(lo, n);
    SumTake(hi, n);
    SumTake(moves, n);
    SlopeSum(slope, Sum(moves[..n]), moves[n]);
  }

  lemma EmptySlices(lo: seq<int>, hi: seq<int>, moves: seq<int>, slope: int)
    ensures Sum(hi[..0]) >= Sum(lo[..0]) + slope * Sum(moves[..0])
  {
    SlopeSum(slope, 0, 0);
  }

  lemma {:induction false} DeviationPrefix(magnitude: int, buckets: seq<Bucket>, xs: seq<int>, t: int, n: nat)
    requires Splittable(magnitude, buckets) && |xs| == |buckets| && n <= |buckets| && 0 <= t <= Denominator(buckets)
    requires forall i :: 0 <= i < |buckets| ==>
      Separates(t, Rows(magnitude, buckets)[i], Portions(magnitude, buckets)[i])
    ensures var d, ws, chosen := Denominator(buckets), Weights(buckets), Portions(magnitude, buckets);
      Sum(Deviations(d, magnitude, ws, xs)[..n])
        >= Sum(Deviations(d, magnitude, ws, chosen)[..n]) + (d - 2 * t) * Sum(Differences(xs, chosen)[..n])
  {
    hide *;
    var d, ws, chosen := Denominator(buckets), Weights(buckets), Portions(magnitude, buckets);
    if n == 0 {
      EmptySlices(Deviations(d, magnitude, ws, chosen), Deviations(d, magnitude, ws, xs), Differences(xs, chosen), d - 2 * t);
    } else {
      DeviationPrefix(magnitude, buckets, xs, t, n - 1);
      DeviationAt(magnitude, buckets, xs, t, n - 1);
      SlopeStep(Deviations(d, magnitude, ws, chosen), Deviations(d, magnitude, ws, xs), Differences(xs, chosen),
          d - 2 * t, n - 1);
    }
  }

  lemma DeviationIsSum(d: int, m: int, ws: seq<int>, xs: seq<int>)
    requires |ws| == |xs|
    ensures Deviation(d, m, ws, xs) == Sum(Deviations(d, m, ws, xs))
  {
  }

  /** No integer split with the same sum is closer to the exact proportional split. */
  lemma PortionsAreOptimal(magnitude: int, buckets: seq<Bucket>, xs: seq<int>)
    requires Splittable(magnitude, buckets)
    requires |xs| == |buckets| && Sum(xs) == magnitude
    ensures Deviation(Denominator(buckets), magnitude, Weights(buckets), Portions(magnitude, buckets))
         <= Deviation(Denominator(buckets), magnitude, Weights(buckets), xs)
  {
    hide *;
    var d, ws, chosen := Denominator(buckets), Weights(buckets), Portions(magnitude, buckets);
    DeviationIsSum(d, magnitude, ws, chosen);
    DeviationIsSum(d, magnitude, ws, xs);
    var t := Threshold(magnitude, buckets);
    DeviationPrefix(magnitude, buckets, xs, t, |xs|);
    PortionsSum(magnitude, buckets);
    SumLinear(Differences(xs, chosen), 1, xs, -1, chosen);
    WholeSlices(Deviations(d, magnitude, ws, chosen), Deviations(d, magnitude, ws, xs), Differences(xs, chosen), d - 2 * t);
  }

  lemma WholeSlices(lo: seq<int>, hi: seq<int>, moves: seq<int>, slope: int)
    requires |lo| == |hi| == |moves| && Sum(moves) == 0
    requires Sum(hi[..|hi|]) >= Sum(lo[..|lo|]) + slope * Sum(moves[..|moves|])
    ensures Sum(lo) <= Sum(hi)
  {
    assert hi[..|hi|] == hi && lo[..|lo|] == lo && moves[..|moves|] == moves;
    SlopeSum(slope, 0, 0);
  }
}
