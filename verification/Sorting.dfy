/** A stable sort by a total preorder, and why its result depends only on what is sorted. */
module Sorting {
  import opened Sequences

  ghost predicate TotalPreorder<T(!new)>(leq: (T, T) -> bool) {
    && (forall a, b :: leq(a, b) || leq(b, a))
    && (forall a, b, c :: leq(a, b) && leq(b, c) ==> leq(a, c))
  }

  ghost predicate SortedBy<T>(leq: (T, T) -> bool, xs: seq<T>) {
    forall i, j :: 0 <= i < j < |xs| ==> leq(xs[i], xs[j])
  }

  function Insert<T>(leq: (T, T) -> bool, x: T, xs: seq<T>): (r: seq<T>) {
    if xs == [] || leq(x, xs[0]) then [x] + xs else [xs[0]] + Insert(leq, x, xs[1..])
  }

  /** Insertion from the right: equal elements keep the order they arrived in. */
  function Sort<T>(leq: (T, T) -> bool, xs: seq<T>): (r: seq<T>) {
    if xs == [] then [] else Insert(leq, xs[0], Sort(leq, xs[1..]))
  }

  lemma {:induction false} InsertPermutes<T>(leq: (T, T) -> bool, x: T, xs: seq<T>)
    ensures multiset(Insert(leq, x, xs)) == multiset{x} + multiset(xs)
  {
    if xs != [] && !leq(x, xs[0]) {
      InsertPermutes(leq, x, xs[1..]);
      assert xs == [xs[0]] + xs[1..];
    }
  }

  lemma {:induction false} SortPermutes<T>(leq: (T, T) -> bool, xs: seq<T>)
    ensures multiset(Sort(leq, xs)) == multiset(xs)
    ensures |Sort(leq, xs)| == |xs|
  {
    if xs != [] {
      SortPermutes(leq, xs[1..]);
      InsertPermutes(leq, xs[0], Sort(leq, xs[1..]));
      assert xs == [xs[0]] + xs[1..];
    }
    assert |multiset(Sort(leq, xs))| == |multiset(xs)|;
  }

  lemma {:induction false} InsertSorts<T(!new)>(leq: (T, T) -> bool, x: T, xs: seq<T>)
    requires TotalPreorder(leq) && SortedBy(leq, xs)
    ensures SortedBy(leq, Insert(leq, x, xs))
  {
    if xs == [] {
    } else if leq(x, xs[0]) {
      var r := Insert(leq, x, xs);
      forall i, j | 0 <= i < j < |r| ensures leq(r[i], r[j]) {
        if i == 0 && j > 1 { assert leq(xs[0], xs[j-1]); }
      }
    } else {
      var tail := Insert(leq, x, xs[1..]);
      InsertSorts(leq, x, xs[1..]);
      InsertPermutes(leq, x, xs[1..]);
      forall k | 0 <= k < |tail| ensures leq(xs[0], tail[k]) {
        assert tail[k] in multiset(tail);
        assert tail[k] == x || tail[k] in xs[1..];
      }
    }
  }

  lemma {:induction false} SortSorts<T(!new)>(leq: (T, T) -> bool, xs: seq<T>)
    requires TotalPreorder(leq)
    ensures SortedBy(leq, Sort(leq, xs))
  {
    if xs != [] {
      SortSorts(leq, xs[1..]);
      InsertSorts(leq, xs[0], Sort(leq, xs[1..]));
    }
  }

  /** Elements that tie in the order are the same element. */
  ghost predicate TiesAreEqual<T>(leq: (T, T) -> bool, xs: seq<T>) {
    forall a, b :: a in xs && b in xs && leq(a, b) && leq(b, a) ==> a == b
  }

  lemma {:induction false} SortedIsUnique<T(!new)>(leq: (T, T) -> bool, xs: seq<T>, ys: seq<T>)
    requires TotalPreorder(leq) && SortedBy(leq, xs) && SortedBy(leq, ys)
    requires multiset(xs) == multiset(ys)
    requires TiesAreEqual(leq, xs)
    ensures xs == ys
  {
    SameLength(xs, ys);
    if xs != [] {
      SameHead(leq, xs, ys);
      RemoveHead(xs, ys);
      SortedIsUnique(leq, xs[1..], ys[1..]);
      assert xs == [xs[0]] + xs[1..] && ys == [ys[0]] + ys[1..];
    }
  }

  lemma SameHead<T(!new)>(leq: (T, T) -> bool, xs: seq<T>, ys: seq<T>)
    requires TotalPreorder(leq) && SortedBy(leq, xs) && SortedBy(leq, ys)
    requires xs != [] && ys != [] && xs[0] in ys && ys[0] in xs
    requires TiesAreEqual(leq, xs)
    ensures xs[0] == ys[0]
  {
    assert leq(xs[0], xs[0]) && leq(ys[0], ys[0]);
  }

  /** Sorting forgets the order of arrival whenever ties are equal. */
  lemma SortForgetsOrder<T(!new)>(leq: (T, T) -> bool, xs: seq<T>, ys: seq<T>)
    requires TotalPreorder(leq)
    requires multiset(xs) == multiset(ys)
    requires TiesAreEqual(leq, xs)
    ensures Sort(leq, xs) == Sort(leq, ys)
  {
    SortPermutes(leq, xs);
    SortPermutes(leq, ys);
    SortSorts(leq, xs);
    SortSorts(leq, ys);
    forall a | a in Sort(leq, xs) ensures a in xs { assert a in multiset(Sort(leq, xs)); }
    SortedIsUnique(leq, Sort(leq, xs), Sort(leq, ys));
  }
}
