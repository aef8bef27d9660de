/** Sums over sequences and over tallies keyed by line id. */
module Sums {
  import opened Prelude
  import opened Sequences

  function Sum(xs: seq<int>): int {
    if xs == [] then 0 else xs[0] + Sum(xs[1..])
  }

  lemma {:induction false} SumConcat(xs: seq<int>, ys: seq<int>)
    ensures Sum(xs + ys) == Sum(xs) + Sum(ys)
  {
    if xs == [] {
      assert xs + ys == ys;
    } else {
      SumConcat(xs[1..], ys);
      assert (xs + ys)[1..] == xs[1..] + ys;
    }
  }

  lemma SumSnoc(xs: seq<int>, x: int)
    ensures Sum(xs + [x]) == Sum(xs) + x
  {
    SumConcat(xs, [x]);
  }

  /** The sum up to and including position i, one step at a time. */
  lemma SumTake(xs: seq<int>, i: nat)
    requires i < |xs|
    ensures Sum(xs[..i+1]) == Sum(xs[..i]) + xs[i]
  {
    assert xs[..i+1] == xs[..i] + [xs[i]];
    SumSnoc(xs[..i], xs[i]);
  }

  /** a*xs + b*ys, position by position, sums to a*Sum(xs) + b*Sum(ys). */
  lemma {:induction false} SumLinear(zs: seq<int>, a: int, xs: seq<int>, b: int, ys: seq<int>)
    requires |xs| == |ys| == |zs|
    requires forall i :: 0 <= i < |zs| ==> zs[i] == a * xs[i] + b * ys[i]
    ensures Sum(zs) == a * Sum(xs) + b * Sum(ys)
  {
    if zs != [] {
      SumLinear(zs[1..], a, xs[1..], b, ys[1..]);
      assert a * (xs[0] + Sum(xs[1..])) == a * xs[0] + a * Sum(xs[1..]);
      assert b * (ys[0] + Sum(ys[1..])) == b * ys[0] + b * Sum(ys[1..]);
    }
  }

  lemma SumAdd(zs: seq<int>, xs: seq<int>, ys: seq<int>)
    requires |xs| == |ys| == |zs|
    requires forall i :: 0 <= i < |zs| ==> zs[i] == xs[i] + ys[i]
    ensures Sum(zs) == Sum(xs) + Sum(ys)
  {
    SumLinear(zs, 1, xs, 1, ys);
  }

  lemma {:induction false} SumMonotone(xs: seq<int>, ys: seq<int>)
    requires |xs| == |ys|
    requires forall i :: 0 <= i < |xs| ==> xs[i] <= ys[i]
    ensures Sum(xs) <= Sum(ys)
  {
    if xs != [] { SumMonotone(xs[1..], ys[1..]); }
  }

  /** No larger place by place, two sequences sum to as much exactly when they are the same. */
  lemma {:induction false} TightSum(xs: seq<int>, ys: seq<int>)
    requires |xs| == |ys| && forall i :: 0 <= i < |xs| ==> xs[i] <= ys[i]
    ensures Sum(xs) <= Sum(ys)
    ensures Sum(xs) == Sum(ys) <==> xs == ys
  {
    if xs != [] {
      TightSum(xs[1..], ys[1..]);
      assert xs == [xs[0]] + xs[1..] && ys == [ys[0]] + ys[1..];
    }
  }

  lemma {:induction false} SumOfConstant(xs: seq<int>, c: int)
    requires forall i :: 0 <= i < |xs| ==> xs[i] == c
    ensures Sum(xs) == c * |xs|
  {
    if xs != [] {
      SumOfConstant(xs[1..], c);
      assert c * |xs| == c + c * |xs[1..]|;
    }
  }

  lemma {:induction false} SumWithin(xs: seq<int>, bound: int)
    requires forall i :: 0 <= i < |xs| ==> -bound <= xs[i] <= bound
    ensures -(bound * |xs|) <= Sum(xs) <= bound * |xs|
  {
    if xs != [] {
      SumWithin(xs[1..], bound);
      assert bound * |xs| == bound + bound * |xs[1..]|;
    }
  }

  lemma {:induction false} SumNonNegative(xs: seq<int>)
    requires forall i :: 0 <= i < |xs| ==> xs[i] >= 0
    ensures Sum(xs) >= 0
    ensures forall i :: 0 <= i < |xs| ==> xs[i] <= Sum(xs)
  {
    if xs != [] {
      SumNonNegative(xs[1..]);
      forall i | 0 <= i < |xs| ensures xs[i] <= Sum(xs) {
        if i > 0 { assert xs[1..][i-1] <= Sum(xs[1..]); }
      }
    }
  }

  lemma {:induction false} SumForgetsOrder(xs: seq<int>, ys: seq<int>)
    requires multiset(xs) == multiset(ys)
    ensures Sum(xs) == Sum(ys)
  {
    if xs == [] {
      assert |multiset(ys)| == 0;
    } else {
      assert xs[0] in multiset(ys);
      var i :| 0 <= i < |ys| && ys[i] == xs[0];
      RemoveOne(xs, ys, i);
      SumForgetsOrder(xs[1..], ys[..i] + ys[i+1..]);
      SumRemove(ys, i);
    }
  }

  lemma SumRemove(ys: seq<int>, i: nat)
    requires i < |ys|
    ensures Sum(ys) == ys[i] + Sum(ys[..i] + ys[i+1..])
  {
    assert ys == ys[..i] + ([ys[i]] + ys[i+1..]);
    SumConcat(ys[..i], [ys[i]] + ys[i+1..]);
    SumConcat(ys[..i], ys[i+1..]);
  }

  lemma SumOf2(a: int, b: int)
    ensures Sum([a, b]) == a + b
  {
    assert [a, b][1..] == [b] && [b][1..] == [];
    assert Sum([b]) == b + Sum([]);
  }

  lemma SumOf3(a: int, b: int, c: int)
    ensures Sum([a, b, c]) == a + b + c
  {
    assert [a, b, c][1..] == [b, c];
    SumOf2(b, c);
  }

  lemma SumOf4(a: int, b: int, c: int, d: int)
    ensures Sum([a, b, c, d]) == a + b + c + d
  {
    assert [a, b, c, d][1..] == [b, c, d];
    SumOf3(b, c, d);
  }

  lemma SumOf5(a: int, b: int, c: int, d: int, e: int)
    ensures Sum([a, b, c, d, e]) == a + b + c + d + e
  {
    assert [a, b, c, d, e][1..] == [b, c, d, e];
    SumOf4(b, c, d, e);
  }

  // ---------------------------------------------------------------- tallies

  /** What a tally holds under an id, which is zero until something is put there. */
  function Get(m: map<string, int>, id: string): int {
    if id in m then m[id] else 0
  }

  /** A tally read off along a list of ids. */
  function Along(m: map<string, int>, ids: seq<string>): (r: seq<int>)
    ensures |r| == |ids|
    ensures forall i :: 0 <= i < |ids| ==> r[i] == Get(m, ids[i])
  {
    seq(|ids|, i requires 0 <= i < |ids| => Get(m, ids[i]))
  }

  function Total(m: map<string, int>, ids: seq<string>): int {
    Sum(Along(m, ids))
  }

  lemma TotalSplit(m: map<string, int>, ids: seq<string>)
    requires ids != []
    ensures Total(m, ids) == Get(m, ids[0]) + Total(m, ids[1..])
  {
    assert Along(m, ids)[1..] == Along(m, ids[1..]);
  }

  /** Adding at one id that occurs exactly once in the list moves the total by that much. */
  lemma {:induction false} TotalBump(m: map<string, int>, ids: seq<string>, id: string, delta: int)
    requires Distinct(ids)
    ensures Total(m[id := Get(m, id) + delta], ids) == Total(m, ids) + (if id in ids then delta else 0)
  {
    var n := m[id := Get(m, id) + delta];
    if ids != [] {
      TotalSplit(m, ids);
      TotalSplit(n, ids);
      TotalBump(m, ids[1..], id, delta);
      assert id in ids <==> id == ids[0] || id in ids[1..];
      assert id == ids[0] ==> id !in ids[1..];
    }
  }
}
