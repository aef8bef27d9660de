/** Picking the first candidate of the highest score, as every rule lookup does. */
module Choice {
  import opened Prelude
  import opened Sequences

  function PickUpTo<T>(xs: seq<T>, ok: T -> bool, score: T -> int, n: nat): Option<T>
    requires n <= |xs|
  {
    if n == 0 then None
    else
      var best := PickUpTo(xs, ok, score, n - 1);
      if ok(xs[n-1]) && (best.None? || score(xs[n-1]) > score(best.value)) then Some(xs[n-1]) else best
  }

  function Pick<T>(xs: seq<T>, ok: T -> bool, score: T -> int): Option<T> {
    PickUpTo(xs, ok, score, |xs|)
  }

  lemma {:induction false} PickUpToIsBest<T>(xs: seq<T>, ok: T -> bool, score: T -> int, n: nat)
    requires n <= |xs|
    ensures var r := PickUpTo(xs, ok, score, n);
      && (r.None? <==> forall i :: 0 <= i < n ==> !ok(xs[i]))
      && (r.Some? ==> ok(r.value) && r.value in xs && forall i :: 0 <= i < n && ok(xs[i]) ==> score(xs[i]) <= score(r.value))
  {
    if n > 0 { PickUpToIsBest(xs, ok, score, n - 1); }
  }

  /** The pick is a best acceptable candidate, and there is one unless nothing is acceptable. */
  lemma PickIsBest<T>(xs: seq<T>, ok: T -> bool, score: T -> int)
    ensures var r := Pick(xs, ok, score);
      && (r.None? <==> forall x :: x in xs ==> !ok(x))
      && (r.Some? ==> ok(r.value) && r.value in xs && forall x :: x in xs && ok(x) ==> score(x) <= score(r.value))
  {
    PickUpToIsBest(xs, ok, score, |xs|);
  }

  /** Where the pick stood: no acceptable candidate scores higher, and none before it as high. */
  lemma {:induction false} PickPlace<T>(xs: seq<T>, ok: T -> bool, score: T -> int, n: nat) returns (i: nat)
    requires n <= |xs| && PickUpTo(xs, ok, score, n).Some?
    ensures i < n && xs[i] == PickUpTo(xs, ok, score, n).value && ok(xs[i])
    ensures forall j :: 0 <= j < n && ok(xs[j]) ==> score(xs[j]) <= score(xs[i])
    ensures forall j :: 0 <= j < i && ok(xs[j]) ==> score(xs[j]) < score(xs[i])
  {
    PickUpToIsBest(xs, ok, score, n - 1);
    var before := PickUpTo(xs, ok, score, n - 1);
    if before == PickUpTo(xs, ok, score, n) { i := PickPlace(xs, ok, score, n - 1); } else { i := n - 1; }
  }

  /** Acceptable candidates that tie in score are the same candidate. */
  ghost predicate NoTies<T>(xs: seq<T>, ok: T -> bool, score: T -> int) {
    forall x, y :: x in xs && y in xs && ok(x) && ok(y) && score(x) == score(y) ==> x == y
  }

  /** Without ties the pick does not depend on the order of the list. */
  lemma PickForgetsOrder<T>(xs: seq<T>, ys: seq<T>, ok: T -> bool, score: T -> int)
    requires multiset(xs) == multiset(ys) && NoTies(xs, ok, score)
    ensures Pick(xs, ok, score) == Pick(ys, ok, score)
  {
    SameLength(xs, ys);
    PickIsBest(xs, ok, score);
    PickIsBest(ys, ok, score);
  }
}
