/**
 * Largest-remainder allocation: an integer total split over weighted buckets.
 * `Allocate` is the specification, `AllocateMinor` the loop that meets it.
 */
module Allocation {
  import opened Prelude
  import opened Sequences
  import opened Sums
  import opened Money
  import opened Sorting
  import Text

  datatype Bucket = Bucket(key: string, weight: int)

  datatype Row = Row(key: string, base: int, remainder: int, weight: int)

  function Keys(buckets: seq<Bucket>): (r: seq<string>)
    ensures |r| == |buckets|
  {
    Map((b: Bucket) => b.key, buckets)
  }

  /** Negative weights count as zero. */
  function Raws(buckets: seq<Bucket>): (r: seq<int>)
    ensures |r| == |buckets|
  {
    Map((b: Bucket) => Max(0, b.weight), buckets)
  }

  /** With no positive weight there is nothing to be proportional to, so every bucket weighs one. */
  function Even(buckets: seq<Bucket>): bool { Sum(Raws(buckets)) == 0 }

  function Denominator(buckets: seq<Bucket>): int {
    if Even(buckets) then |buckets| else Sum(Raws(buckets))
  }

  function Weight(even: bool, b: Bucket): int { if even then 1 else Max(0, b.weight) }

  function RowOf(magnitude: int, even: bool, denominator: int, b: Bucket): Row
    requires denominator > 0
  {
    var numerator := magnitude * Weight(even, b);
    var base := numerator / denominator;
    Row(b.key, base, numerator - base * denominator, Weight(even, b))
  }

  lemma DenominatorPositive(buckets: seq<Bucket>)
    requires buckets != []
    ensures Denominator(buckets) > 0
  {
    SumNonNegative(Raws(buckets));
  }

  function Rows(magnitude: int, buckets: seq<Bucket>): (rows: seq<Row>)
    ensures |rows| == |buckets|
  {
    if buckets == [] then []
    else
      DenominatorPositive(buckets);
      var even, denominator := Even(buckets), Denominator(buckets);
      Map((b: Bucket) => RowOf(magnitude, even, denominator, b), buckets)
  }

  /** Larger remainder first, then larger weight, then smaller key. */
  predicate Precedes(a: Row, b: Row) {
    if a.remainder != b.remainder then a.remainder > b.remainder
    else if a.weight != b.weight then a.weight > b.weight
    else Text.Lt(a.key, b.key)
  }

  predicate NotAfter(a: Row, b: Row) { !Precedes(b, a) }

  function Ranked(rows: seq<Row>): seq<Row> { Sort(NotAfter, rows) }

  function Bases(rows: seq<Row>): (r: seq<int>)
    ensures |r| == |rows|
  {
    Map((row: Row) => row.base, rows)
  }

  function Shortfall(magnitude: int, rows: seq<Row>): int {
    magnitude - Sum(Bases(rows))
  }

  /** The keys of the first n ranked rows: the ones that receive a unit of the shortfall. */
  function Favoured(ranked: seq<Row>, n: int): set<string> {
    set i | 0 <= i < |ranked| && i < n :: ranked[i].key
  }

  function Portion(row: Row, favoured: set<string>): int {
    row.base + if row.key in favoured then 1 else 0
  }

  /** The unsigned shares, bucket by bucket. */
  function Portions(magnitude: int, buckets: seq<Bucket>): (r: seq<int>)
    ensures |r| == |buckets|
  {
    var rows := Rows(magnitude, buckets);
    var favoured := Favoured(Ranked(rows), Shortfall(magnitude, rows));
    Map((row: Row) => Portion(row, favoured), rows)
  }

  function Signed(total: int, portions: seq<int>): (r: seq<int>)
    ensures |r| == |portions|
    ensures forall i :: 0 <= i < |r| ==> r[i] == if total < 0 then -portions[i] else portions[i]
  {
    Map((p: int) => if total < 0 then -p else p, portions)
  }

  /** The share of the total each bucket receives, bucket by bucket. */
  function Shares(total: int, buckets: seq<Bucket>): (r: seq<int>)
    ensures |r| == |buckets|
  {
    Signed(total, Portions(Abs(total), buckets))
  }

  function Allocate(total: int, buckets: seq<Bucket>): Result<map<string, int>> {
    if buckets == [] then
      if total != 0 then Err(NoBuckets) else Ok(map[])
    else if exists i, j :: 0 <= i < j < |buckets| && buckets[i].key == buckets[j].key then Err(DuplicateKey)
    else if exists i :: 0 <= i < |buckets| && Portions(Abs(total), buckets)[i] > MAX_MINOR then Err(OutOfRange)
    else Ok(TableOf(Keys(buckets), Shares(total, buckets)))
  }
}
