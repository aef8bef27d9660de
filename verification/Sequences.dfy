/** Mapping and filtering sequences, and building tables keyed by text. */
module Sequences {
  import opened Prelude

  function Map<T, U>(f: T -> U, xs: seq<T>): (r: seq<U>)
    ensures |r| == |xs|
    ensures forall i :: 0 <= i < |xs| ==> r[i] == f(xs[i])
  {
    if xs == [] then [] else [f(xs[0])] + Map(f, xs[1..])
  }

  function Filter<T>(p: T -> bool, xs: seq<T>): (r: seq<T>)
    ensures forall x :: x in r ==> x in xs && p(x)
    ensures forall x :: x in xs && p(x) ==> x in r
  {
    if xs == [] then [] else (if p(xs[0]) then [xs[0]] else []) + Filter(p, xs[1..])
  }

  /** Positions that pick the accepted elements of a list, in its order. */
  ghost predicate Picks<T>(at: seq<nat>, p: T -> bool, xs: seq<T>, ys: seq<T>) {
    && |at| == |ys|
    && (forall k :: 0 <= k < |at| ==> at[k] < |xs| && xs[at[k]] == ys[k] && p(ys[k]))
    && (forall j, k :: 0 <= j < k < |at| ==> at[j] < at[k])
    && (forall i :: 0 <= i < |xs| && p(xs[i]) ==> i in at)
  }

  function Shifted(at: seq<nat>): (r: seq<nat>)
    ensures |r| == |at| && forall k :: 0 <= k < |at| ==> r[k] == at[k] + 1
  {
    seq(|at|, k requires 0 <= k < |at| => at[k] + 1)
  }

  lemma PicksLater<T>(at: seq<nat>, p: T -> bool, xs: seq<T>, ys: seq<T>)
    requires xs != [] && !p(xs[0]) && Picks(at, p, xs[1..], ys)
    ensures Picks(Shifted(at), p, xs, ys)
  {
    var r := Shifted(at);
    forall i | 0 <= i < |xs| && p(xs[i]) ensures i in r {
      assert xs[1..][i-1] == xs[i] && i - 1 in at;
      var k :| 0 <= k < |at| && at[k] == i - 1;
      assert r[k] == i;
    }
  }

  lemma PicksHead<T>(at: seq<nat>, p: T -> bool, xs: seq<T>, ys: seq<T>, now: seq<nat>, zs: seq<T>)
    requires xs != [] && p(xs[0]) && Picks(at, p, xs[1..], ys)
    requires |now| == |at| + 1 && now[0] == 0 && forall k :: 0 < k < |now| ==> now[k] == at[k-1] + 1
    requires |zs| == |ys| + 1 && zs[0] == xs[0] && forall k :: 0 < k < |zs| ==> zs[k] == ys[k-1]
    ensures Picks(now, p, xs, zs)
  {
    forall i | 0 <= i < |xs| && p(xs[i]) ensures i in now {
      if i == 0 {
        assert now[0] == 0;
      } else {
        assert xs[1..][i-1] == xs[i] && i - 1 in at;
        var k :| 0 <= k < |at| && at[k] == i - 1;
        assert now[k+1] == i;
      }
    }
  }

  lemma Prepended<T>(x: T, ys: seq<T>)
    ensures var zs := [x] + ys; |zs| == |ys| + 1 && zs[0] == x && forall k :: 0 < k < |zs| ==> zs[k] == ys[k-1]
  {
  }

  lemma FilterStep<T>(p: T -> bool, xs: seq<T>)
    requires xs != []
    ensures Filter(p, xs) == if p(xs[0]) then [xs[0]] + Filter(p, xs[1..]) else Filter(p, xs[1..])
  {
    assert [] + Filter(p, xs[1..]) == Filter(p, xs[1..]);
  }

  /** Where the kept elements stood: filtering keeps every accepted element, once and in order. */
  lemma {:induction false} FilterPicks<T>(p: T -> bool, xs: seq<T>) returns (at: seq<nat>)
    ensures Picks(at, p, xs, Filter(p, xs))
  {
    if xs == [] {
      at := [];
    } else {
      hide Picks, Filter;
      var later := FilterPicks(p, xs[1..]);
      FilterStep(p, xs);
      if p(xs[0]) {
        at := [0] + Shifted(later);
        Prepended(0, Shifted(later));
        Prepended(xs[0], Filter(p, xs[1..]));
        PicksHead(later, p, xs, Filter(p, xs[1..]), at, Filter(p, xs));
      } else {
        PicksLater(later, p, xs, Filter(p, xs[1..]));
        at := Shifted(later);
      }
    }
  }

  lemma Extract<T>(ys: seq<T>, i: nat)
    requires i < |ys|
    ensures multiset(ys) == multiset{ys[i]} + multiset(ys[..i] + ys[i+1..])
  {
    assert ys == ys[..i] + [ys[i]] + ys[i+1..];
  }

  /** Permutations stay permutations when one occurrence of the first element goes from each. */
  lemma RemoveOne<T>(xs: seq<T>, ys: seq<T>, i: nat)
    requires multiset(xs) == multiset(ys) && xs != [] && i < |ys| && ys[i] == xs[0]
    ensures multiset(xs[1..]) == multiset(ys[..i] + ys[i+1..])
  {
    Extract(xs, 0);
    Extract(ys, i);
    assert xs[..0] + xs[1..] == xs[1..];
    var one := multiset{xs[0]};
    assert multiset(xs[1..]) == multiset(xs) - one;
    assert multiset(ys[..i] + ys[i+1..]) == multiset(ys) - one;
  }

  lemma RemoveHead<T>(xs: seq<T>, ys: seq<T>)
    requires multiset(xs) == multiset(ys) && xs != [] && ys != [] && ys[0] == xs[0]
    ensures multiset(xs[1..]) == multiset(ys[1..])
  {
    RemoveOne(xs, ys, 0);
    assert ys[..0] + ys[1..] == ys[1..];
  }

  lemma MapWithout<T, U>(f: T -> U, ys: seq<T>, i: nat)
    requires i < |ys|
    ensures multiset(Map(f, ys)) == multiset{f(ys[i])} + multiset(Map(f, ys[..i] + ys[i+1..]))
  {
    var m := Map(f, ys);
    Extract(m, i);
    var rest := ys[..i] + ys[i+1..];
    var l, r := m[..i] + m[i+1..], Map(f, rest);
    assert |l| == |r|;
    forall k | 0 <= k < |l| ensures l[k] == r[k] {
      assert rest[k] == if k < i then ys[k] else ys[k+1];
    }
    assert l == r;
  }

  /** Mapping a permutation gives a permutation. */
  lemma {:induction false} MapPermutes<T, U>(f: T -> U, xs: seq<T>, ys: seq<T>)
    requires multiset(xs) == multiset(ys)
    ensures multiset(Map(f, xs)) == multiset(Map(f, ys))
  {
    if xs == [] {
      assert |multiset(ys)| == 0;
    } else {
      assert xs[0] in multiset(ys);
      var i :| 0 <= i < |ys| && ys[i] == xs[0];
      RemoveOne(xs, ys, i);
      MapPermutes(f, xs[1..], ys[..i] + ys[i+1..]);
      MapWithout(f, ys, i);
      MapWithout(f, xs, 0);
      assert xs[..0] + xs[1..] == xs[1..];
    }
  }

  lemma {:induction false} SameLength<T>(xs: seq<T>, ys: seq<T>)
    requires multiset(xs) == multiset(ys)
    ensures |xs| == |ys|
    ensures forall x :: x in xs <==> x in ys
  {
    assert |multiset(xs)| == |multiset(ys)|;
    assert forall x :: x in xs <==> x in multiset(xs);
    assert forall x :: x in ys <==> x in multiset(ys);
  }

  lemma {:induction false} DistinctIsMultiplicityOne<T>(xs: seq<T>)
    ensures Distinct(xs) <==> forall x :: x in xs ==> multiset(xs)[x] == 1
  {
    if xs != [] {
      DistinctIsMultiplicityOne(xs[1..]);
      assert xs == [xs[0]] + xs[1..];
      var m := multiset(xs[1..]);
      assert multiset(xs) == multiset{xs[0]} + m;
      if Distinct(xs) {
        assert Distinct(xs[1..]);
        assert xs[0] !in xs[1..];
      }
      if forall x :: x in xs ==> multiset(xs)[x] == 1 {
        assert multiset(xs)[xs[0]] == 1 + m[xs[0]];
        assert xs[0] !in m;
        assert xs[0] !in xs[1..];
        forall x | x in xs[1..] ensures m[x] == 1 { assert multiset(xs)[x] == m[x]; }
      }
    }
  }

  /** Whether keys repeat does not depend on their order. */
  lemma DistinctForgetsOrder<T>(xs: seq<T>, ys: seq<T>)
    requires multiset(xs) == multiset(ys)
    ensures Distinct(xs) <==> Distinct(ys)
  {
    SameLength(xs, ys);
    DistinctIsMultiplicityOne(xs);
    DistinctIsMultiplicityOne(ys);
  }

  /** The table after the first n entries are written; a repeated key keeps its last value. */
  function TableUpTo<V>(keys: seq<string>, values: seq<V>, n: nat): (m: map<string, V>)
    requires |keys| == |values| && n <= |keys|
  {
    if n == 0 then map[] else TableUpTo(keys, values, n - 1)[keys[n-1] := values[n-1]]
  }

  function TableOf<V>(keys: seq<string>, values: seq<V>): (m: map<string, V>)
    requires |keys| == |values|
  {
    TableUpTo(keys, values, |keys|)
  }

  lemma {:induction false} TableUpToKeys<V>(keys: seq<string>, values: seq<V>, n: nat)
    requires |keys| == |values| && n <= |keys|
    ensures forall i :: 0 <= i < n ==> keys[i] in TableUpTo(keys, values, n)
    ensures forall k :: k in TableUpTo(keys, values, n) ==> k in keys
  {
    if n > 0 { TableUpToKeys(keys, values, n - 1); }
  }

  lemma TableKeys<V>(keys: seq<string>, values: seq<V>)
    requires |keys| == |values|
    ensures forall k :: k in TableOf(keys, values) <==> k in keys
  {
    TableUpToKeys(keys, values, |keys|);
  }

  lemma {:induction false} TableUpToLookup<V>(keys: seq<string>, values: seq<V>, n: nat, i: nat)
    requires |keys| == |values| && Distinct(keys) && i < n <= |keys|
    ensures keys[i] in TableUpTo(keys, values, n) && TableUpTo(keys, values, n)[keys[i]] == values[i]
  {
    if i < n - 1 { TableUpToLookup(keys, values, n - 1, i); }
  }

  lemma TableLookup<V>(keys: seq<string>, values: seq<V>, i: nat)
    requires |keys| == |values| && Distinct(keys) && i < |keys|
    ensures keys[i] in TableOf(keys, values) && TableOf(keys, values)[keys[i]] == values[i]
  {
    TableUpToLookup(keys, values, |keys|, i);
  }
}
