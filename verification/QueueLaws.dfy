/** What holds of the ingestion queue over every run, whatever the workers do and whenever they die. */
module QueueLaws {
  import opened Prelude
  import opened Sequences
  import opened Sorting
  import opened Arith
  import opened Queue

  /** The table after the first n calls, by any workers, in any interleaving; a crash is a call never made. */
  function Run(rows: seq<Row>, ops: seq<Op>, policy: RetryPolicy, n: nat): seq<Row>
    requires n <= |ops|
  {
    if n == 0 then rows else Apply(Run(rows, ops, policy, n - 1), ops[n-1], policy)
  }

  /** One row per event, locked exactly while in flight, attempts within the limit: in every reachable state. */
  lemma {:induction false} RunKeepsSound(rows: seq<Row>, ops: seq<Op>, policy: RetryPolicy, n: nat)
    requires n <= |ops| && Sound(rows, policy)
    ensures Sound(Run(rows, ops, policy, n), policy)
  {
    hide Sound, Apply;
    if n > 0 {
      RunKeepsSound(rows, ops, policy, n - 1);
      StepKeepsSound(Run(rows, ops, policy, n - 1), ops[n-1], policy);
    }
  }

  lemma EmptyIsSound(policy: RetryPolicy)
    ensures Sound([], policy)
  {
  }

  // ------------------------------------------------------ attempts count claims

  predicate Requeues(r: Row, op: Op) { op.Requeue? && r.id == op.id && r.status.Failed? }

  predicate RequeuesId(rows: seq<Row>, op: Op, id: string) {
    exists i :: 0 <= i < |rows| && rows[i].id == id && Requeues(rows[i], op)
  }

  /** How often the row was claimed since it was last put back from the dead letters, in a run from the empty table. */
  function ClaimsSinceRequeue(ops: seq<Op>, policy: RetryPolicy, n: nat, id: string): nat
    requires n <= |ops|
  {
    if n == 0 then 0
    else
      var before := Run([], ops, policy, n - 1);
      if RequeuesId(before, ops[n-1], id) then 0
      else ClaimsSinceRequeue(ops, policy, n - 1, id) + if id in Chosen(before, ops[n-1]) then 1 else 0
  }

  lemma RowAttempts(r: Row, op: Op, chosen: set<string>, policy: RetryPolicy)
    requires op.Claim? || chosen == {}
    ensures RowAfter(r, op, chosen, policy).id == r.id
    ensures RowAfter(r, op, chosen, policy).attempts ==
      if Requeues(r, op) then 0 else r.attempts + if r.id in chosen then 1 else 0
  {
    hide BackoffMs;
  }

  /** The ids a claim takes are ids of rows in the table. */
  lemma ChosenAreTaken(rows: seq<Row>, op: Op, id: string)
    requires id in Chosen(rows, op)
    ensures IdTaken(rows, id)
  {
    hide Due, Selected;
    var r :| r in Selected(rows, op.limit, op.now, op.skip) && r.id == id;
    SelectedAreDue(rows, op.limit, op.now, op.skip, r);
  }

  /** The attempts column of every row is exactly the number of claims since its last requeue. */
  ghost predicate Counted(rows: seq<Row>, ops: seq<Op>, policy: RetryPolicy, n: nat)
    requires n <= |ops|
  {
    && (forall i :: 0 <= i < |rows| ==> rows[i].attempts == ClaimsSinceRequeue(ops, policy, n, rows[i].id))
    && (forall id :: !IdTaken(rows, id) ==> ClaimsSinceRequeue(ops, policy, n, id) == 0)
  }

  lemma {:induction false} AttemptsCountClaims(ops: seq<Op>, policy: RetryPolicy, n: nat)
    requires n <= |ops|
    ensures Counted(Run([], ops, policy, n), ops, policy, n)
  {
    hide Apply, Sound, Counted;
    if n > 0 {
      AttemptsCountClaims(ops, policy, n - 1);
      EmptyIsSound(policy);
      RunKeepsSound([], ops, policy, n - 1);
      StepCounts(ops, policy, n - 1, Run([], ops, policy, n - 1));
    } else {
      NothingCounted(ops, policy);
    }
  }

  lemma NothingCounted(ops: seq<Op>, policy: RetryPolicy)
    ensures Counted([], ops, policy, 0)
  {
  }

  lemma RequeueOfRow(rows: seq<Row>, op: Op, policy: RetryPolicy, i: nat)
    requires Sound(rows, policy) && i < |rows|
    ensures RequeuesId(rows, op, rows[i].id) <==> Requeues(rows[i], op)
  {
    hide SoundRow, Requeues;
  }

  lemma StepCounts(ops: seq<Op>, policy: RetryPolicy, n: nat, rows: seq<Row>)
    requires n < |ops| && rows == Run([], ops, policy, n) && Sound(rows, policy) && Counted(rows, ops, policy, n)
    ensures Counted(Apply(rows, ops[n], policy), ops, policy, n + 1)
  {
    hide Sound, RowAfter, Run, Chosen, Requeues, Known, RequeuesId;
    var op := ops[n];
    var after := Apply(rows, op, policy);
    forall i | 0 <= i < |rows|
      ensures after[i].id == rows[i].id && after[i].attempts == ClaimsSinceRequeue(ops, policy, n + 1, rows[i].id)
    {
      RequeueOfRow(rows, op, policy, i);
      RowCounts(rows, op, policy, i);
    }
    forall id | !IdTaken(rows, id) ensures ClaimsSinceRequeue(ops, policy, n + 1, id) == 0 {
      UnknownIdCounts(rows, op, id);
    }
    forall id | IdTaken(rows, id) ensures IdTaken(after, id) {
      var i :| 0 <= i < |rows| && rows[i].id == id;
      assert after[i].id == id;
    }
  }

  lemma RowCounts(rows: seq<Row>, op: Op, policy: RetryPolicy, i: nat)
    requires i < |rows|
    ensures var after := Apply(rows, op, policy);
      i < |after| && after[i].id == rows[i].id
      && after[i].attempts == (if Requeues(rows[i], op) then 0
          else rows[i].attempts + if rows[i].id in Chosen(rows, op) then 1 else 0)
  {
    hide RowAfter, Requeues, Selected, Known, IdTaken;
    RowAttempts(rows[i], op, Chosen(rows, op), policy);
    if op.Enqueue? { EnqueueRequeuesNothing(rows[i], op); }
  }

  lemma EnqueueRequeuesNothing(r: Row, op: Op)
    requires op.Enqueue?
    ensures !Requeues(r, op)
  {
  }

  lemma UnknownIdCounts(rows: seq<Row>, op: Op, id: string)
    requires !IdTaken(rows, id)
    ensures id !in Chosen(rows, op) && !RequeuesId(rows, op, id)
  {
    hide Chosen, Requeues;
    if id in Chosen(rows, op) { ChosenAreTaken(rows, op, id); }
  }

  /** The retry bound: in every run, no row is claimed more than the policy's limit between two requeues. */
  lemma ClaimsAreBounded(ops: seq<Op>, policy: RetryPolicy, n: nat, id: string)
    requires n <= |ops|
    ensures ClaimsSinceRequeue(ops, policy, n, id) <= Cap(policy)
  {
    hide Run, ClaimsSinceRequeue, SoundRow;
    var rows := Run([], ops, policy, n);
    EmptyIsSound(policy);
    RunKeepsSound([], ops, policy, n);
    AttemptsCountClaims(ops, policy, n);
    if IdTaken(rows, id) {
      var i :| 0 <= i < |rows| && rows[i].id == id;
      SoundAttempts(rows[i], policy);
    }
  }

  lemma SoundAttempts(r: Row, policy: RetryPolicy)
    requires SoundRow(r, policy)
    ensures 0 <= r.attempts <= Cap(policy)
  {
  }

  // ------------------------------------------------------ claims in all of a run

  /** Attempts still to spare, over the first n rows. */
  function SpareUpTo(rows: seq<Row>, policy: RetryPolicy, n: nat): int
    requires n <= |rows|
  {
    if n == 0 then 0 else SpareUpTo(rows, policy, n - 1) + Cap(policy) - rows[n-1].attempts
  }

  function Spare(rows: seq<Row>, policy: RetryPolicy): int { SpareUpTo(rows, policy, |rows|) }

  function ClaimedUpTo(rows: seq<Row>, chosen: set<string>, n: nat): nat
    requires n <= |rows|
  {
    if n == 0 then 0 else ClaimedUpTo(rows, chosen, n - 1) + if rows[n-1].id in chosen then 1 else 0
  }

  function RequeuedUpTo(rows: seq<Row>, op: Op, n: nat): nat
    requires n <= |rows|
  {
    if n == 0 then 0 else RequeuedUpTo(rows, op, n - 1) + if Requeues(rows[n-1], op) then 1 else 0
  }

  /** How many rows a step claims. */
  function Claims(rows: seq<Row>, op: Op): nat { ClaimedUpTo(rows, Chosen(rows, op), |rows|) }

  /** How many rows a step gives fresh attempts: a new event, or a dead letter put back. */
  function Refills(rows: seq<Row>, op: Op): nat {
    (if op.Enqueue? && Inserts(rows, op.event) then 1 else 0) + RequeuedUpTo(rows, op, |rows|)
  }

  lemma {:induction false} SpareStep(rows: seq<Row>, op: Op, policy: RetryPolicy, n: nat)
    requires n <= |rows| && Sound(rows, policy)
    ensures |Apply(rows, op, policy)| >= |rows|
    ensures SpareUpTo(Apply(rows, op, policy), policy, n) + ClaimedUpTo(rows, Chosen(rows, op), n)
         <= SpareUpTo(rows, policy, n) + Cap(policy) * RequeuedUpTo(rows, op, n)
  {
    hide Chosen, RowAfter, Inserts, Requeues, Sound, Cap, EachAfter, Apply;
    ApplyGrows(rows, op, policy);
    if n > 0 {
      SpareStep(rows, op, policy, n - 1);
      RowCounts(rows, op, policy, n - 1);
      RowIsSound(rows, policy, n - 1);
      var before := RequeuedUpTo(rows, op, n - 1);
      Distribute(before, 1, Cap(policy));
      if Requeues(rows[n-1], op) { RequeueClaimsNothing(rows[n-1], op, rows); }
    }
  }

  lemma ApplyGrows(rows: seq<Row>, op: Op, policy: RetryPolicy)
    ensures |Apply(rows, op, policy)| >= |rows|
  {
  }

  lemma RowIsSound(rows: seq<Row>, policy: RetryPolicy, i: nat)
    requires Sound(rows, policy) && i < |rows|
    ensures 0 <= rows[i].attempts <= Cap(policy)
  {
  }

  lemma RequeueClaimsNothing(r: Row, op: Op, rows: seq<Row>)
    requires Requeues(r, op)
    ensures Chosen(rows, op) == {}
  {
  }

  lemma {:induction false} SpareOfPrefix(rows: seq<Row>, more: seq<Row>, policy: RetryPolicy, n: nat)
    requires n <= |rows|
    ensures SpareUpTo(rows + more, policy, n) == SpareUpTo(rows, policy, n)
  {
    hide Cap;
    if n > 0 { SpareOfPrefix(rows, more, policy, n - 1); }
  }

  /** Each step pays for its claims from the attempts to spare, which only new events and requeues refill. */
  lemma StepPays(rows: seq<Row>, op: Op, policy: RetryPolicy)
    requires Sound(rows, policy)
    ensures Spare(Apply(rows, op, policy), policy) + Claims(rows, op) <= Spare(rows, policy) + Cap(policy) * Refills(rows, op)
  {
    hide Chosen, RowAfter, Inserts, Requeues, Sound, Cap, SpareUpTo, ClaimedUpTo, RequeuedUpTo, EachAfter;
    SpareStep(rows, op, policy, |rows|);
    if op.Enqueue? {
      EnqueuePays(rows, op, policy);
    } else {
      assert |Apply(rows, op, policy)| == |rows|;
    }
  }

  lemma {:induction false} NothingRequeued(rows: seq<Row>, op: Op, n: nat)
    requires n <= |rows| && op.Enqueue?
    ensures RequeuedUpTo(rows, op, n) == 0
  {
    if n > 0 { NothingRequeued(rows, op, n - 1); }
  }

  lemma {:induction false} NothingClaimed(rows: seq<Row>, n: nat)
    requires n <= |rows|
    ensures ClaimedUpTo(rows, {}, n) == 0
  {
    if n > 0 { NothingClaimed(rows, n - 1); }
  }

  lemma EnqueuePays(rows: seq<Row>, op: Op, policy: RetryPolicy)
    requires op.Enqueue?
    ensures Spare(Apply(rows, op, policy), policy) + Claims(rows, op) <= Spare(rows, policy) + Cap(policy) * Refills(rows, op)
  {
    hide Inserts, Cap, ClaimedUpTo, RequeuedUpTo;
    NothingRequeued(rows, op, |rows|);
    NothingClaimed(rows, |rows|);
    if Inserts(rows, op.event) {
      var added := [NewRow(op.event)];
      SpareOfPrefix(rows, added, policy, |rows|);
      assert SpareUpTo(rows + added, policy, |rows| + 1)
          == SpareUpTo(rows + added, policy, |rows|) + Cap(policy) - (rows + added)[|rows|].attempts;
    }
  }

  function TotalClaims(rows: seq<Row>, ops: seq<Op>, policy: RetryPolicy, n: nat): nat
    requires n <= |ops|
  {
    if n == 0 then 0 else TotalClaims(rows, ops, policy, n - 1) + Claims(Run(rows, ops, policy, n - 1), ops[n-1])
  }

  function TotalRefills(rows: seq<Row>, ops: seq<Op>, policy: RetryPolicy, n: nat): nat
    requires n <= |ops|
  {
    if n == 0 then 0 else TotalRefills(rows, ops, policy, n - 1) + Refills(Run(rows, ops, policy, n - 1), ops[n-1])
  }

  lemma {:induction false} SpareIsNonNegative(rows: seq<Row>, policy: RetryPolicy, n: nat)
    requires n <= |rows| && Sound(rows, policy)
    ensures SpareUpTo(rows, policy, n) >= 0
  {
    hide SoundRow, Cap;
    if n > 0 {
      SpareIsNonNegative(rows, policy, n - 1);
      SoundAttempts(rows[n-1], policy);
    }
  }

  lemma {:induction false} RunPays(rows: seq<Row>, ops: seq<Op>, policy: RetryPolicy, n: nat)
    requires n <= |ops| && Sound(rows, policy)
    ensures Spare(Run(rows, ops, policy, n), policy) + TotalClaims(rows, ops, policy, n)
         <= Spare(rows, policy) + Cap(policy) * TotalRefills(rows, ops, policy, n)
  {
    hide Apply, Sound, Cap, Spare, Claims, Refills;
    if n > 0 {
      RunPays(rows, ops, policy, n - 1);
      RunKeepsSound(rows, ops, policy, n - 1);
      var before := Run(rows, ops, policy, n - 1);
      StepPays(before, ops[n-1], policy);
      Distribute(TotalRefills(rows, ops, policy, n - 1), Refills(before, ops[n-1]), Cap(policy));
    }
  }

  /**
   * Work is finite: however workers claim, crash and retry, a run makes no more claims than its new
   * events and requeues times the attempt limit; without any, no more than the table had to spare.
   */
  lemma WorkIsFinite(rows: seq<Row>, ops: seq<Op>, policy: RetryPolicy)
    requires Sound(rows, policy)
    ensures TotalClaims(rows, ops, policy, |ops|) <= Spare(rows, policy) + Cap(policy) * TotalRefills(rows, ops, policy, |ops|)
    ensures rows == [] ==> TotalClaims(rows, ops, policy, |ops|) <= Cap(policy) * TotalRefills(rows, ops, policy, |ops|)
  {
    hide Sound, Cap, Run, TotalClaims, TotalRefills;
    RunPays(rows, ops, policy, |ops|);
    RunKeepsSound(rows, ops, policy, |ops|);
    var after := Run(rows, ops, policy, |ops|);
    SpareIsNonNegative(after, policy, |after|);
  }

  // -------------------------------------------------------- who may touch a row

  /** The calls that can change a row as it stands. */
  predicate Touches(op: Op, r: Row) {
    match op
    case Enqueue(_) => false
    case Claim(_, now, skip) => Due(r, now, skip)
    case MarkProcessed(id, _) => r.id == id
    case MarkSkipped(id, _, _) => r.id == id
    case MarkFailed(id, _, _) => r.id == id
    case ReapStale(staleAfterMs, now) => Stale(r, staleAfterMs, now)
    case Requeue(id, _) => r.id == id && r.status.Failed?
  }

  lemma StepLeavesAlone(rows: seq<Row>, op: Op, policy: RetryPolicy, i: nat)
    requires Sound(rows, policy) && i < |rows| && !Touches(op, rows[i])
    ensures i < |Apply(rows, op, policy)| && Apply(rows, op, policy)[i] == rows[i]
  {
    hide SoundRow, Selected, Known, IdTaken, Release, Due, Stale;
    if op.Claim? && rows[i].id in Chosen(rows, op) { ChosenArePending(rows, op, policy, i); }
  }

  /**
   * A row no call touches stays as it is through any run. So a row in flight is claimed by nobody else
   * while its worker's lock is fresh, a waiting retry is not claimed before its time, and a finished
   * row stays finished unless somebody marks it again.
   */
  lemma {:induction false} UntouchedStays(rows: seq<Row>, ops: seq<Op>, policy: RetryPolicy, n: nat, i: nat)
    requires n <= |ops| && Sound(rows, policy) && i < |rows|
    requires forall k :: 0 <= k < n ==> !Touches(ops[k], rows[i])
    ensures i < |Run(rows, ops, policy, n)| && Run(rows, ops, policy, n)[i] == rows[i]
  {
    hide Apply, Sound, Touches;
    if n > 0 {
      UntouchedStays(rows, ops, policy, n - 1, i);
      RunKeepsSound(rows, ops, policy, n - 1);
      StepLeavesAlone(Run(rows, ops, policy, n - 1), ops[n-1], policy, i);
    }
  }

  /** A row in flight whose lock has not gone stale is in nobody else's batch. */
  lemma NoDoubleClaim(rows: seq<Row>, op: Op, policy: RetryPolicy, i: nat)
    requires Sound(rows, policy) && i < |rows| && op.Claim?
    ensures rows[i].id in Chosen(rows, op) ==> Due(rows[i], op.now, op.skip)
    ensures rows[i].status.Processing? ==> rows[i].id !in Chosen(rows, op)
  {
    hide Sound, Selected, SoundRow;
    if rows[i].id in Chosen(rows, op) { ChosenArePending(rows, op, policy, i); }
  }

  /** A finished row is reopened by exactly two calls: a failure or a skip reported after it was finished. */
  lemma FinishedStaysIff(rows: seq<Row>, op: Op, policy: RetryPolicy, i: nat)
    requires Sound(rows, policy) && i < |rows| && rows[i].status.Processed?
    ensures i < |Apply(rows, op, policy)|
    ensures Apply(rows, op, policy)[i].status.Processed? <==>
      !((op.MarkFailed? || op.MarkSkipped?) && op.id == rows[i].id)
  {
    hide Sound, Selected, SoundRow, BackoffMs, Known, IdTaken;
    if op.Claim? { NoDoubleClaim(rows, op, policy, i); }
  }

  lemma OneDue(r: Row, limit: int, now: int, skip: set<string>)
    requires Due(r, now, skip) && limit >= 1
    ensures Chosen([r], Op.Claim(limit, now, skip)) == {r.id}
  {
    var ok := (r: Row) => Due(r, now, skip);
    assert [r][1..] == [];
    assert Filter(ok, [r]) == [r];
    assert Sort(OldestFirst, [r]) == Insert(OldestFirst, r, []) == [r];
    assert DueRows([r], now, skip) == [r];
    assert Selected([r], limit, now, skip) == [r];
  }

  function Late(): NewEvent { NewEvent("row", "store", "event", "order.created", "order.created", "", 0) }

  /**
   * Terminal states are not final: a worker whose row was reaped, claimed again and processed by
   * another can still report its failure, and the processed row is due once more.
   */
  lemma LateFailureReopens()
    ensures var policy := RetryPolicy(10_000, 3_600_000, 8);
      var ops := [Enqueue(Late()), Claim(1, 0, {}), ReapStale(60_000, 70_000), Claim(1, 80_000, {}),
                  MarkProcessed("row", 81_000), MarkFailed("row", "timed out", 82_000)];
      && |Run([], ops, policy, 5)| == 1 && Run([], ops, policy, 5)[0].status.Processed?
      && |Run([], ops, policy, 6)| == 1 && Due(Run([], ops, policy, 6)[0], 102_000, {})
  {
    hide Selected, Filter, Sort;
    var policy := RetryPolicy(10_000, 3_600_000, 8);
    var ops := [Enqueue(Late()), Claim(1, 0, {}), ReapStale(60_000, 70_000), Claim(1, 80_000, {}),
                MarkProcessed("row", 81_000), MarkFailed("row", "timed out", 82_000)];
    assert Run([], ops, policy, 0) == [];
    var r1 := NewRow(Late());
    assert Run([], ops, policy, 1) == [r1];
    OneDue(r1, 1, 0, {});
    var r2 := ClaimRow(r1, 0);
    assert Run([], ops, policy, 2) == [r2];
    assert Pow2(0) == 1 && Pow2(1) == 2;
    var r3 := Release(r2, policy, 70_000, ABANDONED, RECLAIMED);
    assert Run([], ops, policy, 3) == [r3];
    assert r3.nextAttemptAt == 80_000;
    OneDue(r3, 1, 80_000, {});
    var r4 := ClaimRow(r3, 80_000);
    assert Run([], ops, policy, 4) == [r4];
    var r5 := r4.(status := Processed, processedAt := Some(81_000), lockedAt := None, lastError := None);
    assert Run([], ops, policy, 5) == [r5];
    var r6 := Release(r5, policy, 82_000, "timed out", "timed out");
    assert Run([], ops, policy, 6) == [r6];
  }

  // ------------------------------------------------------------- oldest due first

  lemma OldestFirstIsAnOrder()
    ensures TotalPreorder(OldestFirst)
  {
  }

  lemma DueRowsHold(rows: seq<Row>, now: int, skip: set<string>)
    ensures forall r :: r in DueRows(rows, now, skip) <==> r in rows && Due(r, now, skip)
    ensures SortedBy(OldestFirst, DueRows(rows, now, skip))
  {
    hide OldestFirst, Due, Sort;
    var due := Filter((r: Row) => Due(r, now, skip), rows);
    OldestFirstIsAnOrder();
    SortSorts(OldestFirst, due);
    SortPermutes(OldestFirst, due);
    SameLength(DueRows(rows, now, skip), due);
  }

  /** A row a claim may take: pending, due by now, and not held by another transaction. */
  ghost predicate Ready(r: Row, now: int, skip: set<string>) {
    r.status.Pending? && r.nextAttemptAt <= now && r.id !in skip
  }

  /** A claim takes the oldest due rows, as many as it may: nothing due is passed over for something younger. */
  lemma ClaimTakesOldest(rows: seq<Row>, limit: int, now: int, skip: set<string>)
    ensures var chosen := Selected(rows, limit, now, skip);
      && (forall r :: r in chosen ==> r in rows && Ready(r, now, skip))
      && |chosen| <= Max(0, limit)
      && (|chosen| < limit ==> forall r :: r in rows && Ready(r, now, skip) ==> r in chosen)
      && (forall a, b :: a in chosen && b in rows && Ready(b, now, skip) && b !in chosen ==>
            a.nextAttemptAt < b.nextAttemptAt || (a.nextAttemptAt == b.nextAttemptAt && a.receivedAt <= b.receivedAt))
  {
    hide DueRows;
    DueRowsHold(rows, now, skip);
    assert forall r :: r in DueRows(rows, now, skip) <==> r in rows && Ready(r, now, skip);
    var sorted, chosen := DueRows(rows, now, skip), Selected(rows, limit, now, skip);
    forall r | r in chosen ensures r in sorted {
      var i :| 0 <= i < |chosen| && chosen[i] == r;
      assert sorted[i] == r;
    }
    forall k | 0 <= k < |chosen| ensures sorted[k] in chosen { assert chosen[k] == sorted[k]; }
    forall a, b | a in chosen && b in sorted && b !in chosen ensures OldestFirst(a, b) {
      var i :| 0 <= i < |chosen| && chosen[i] == a;
      var j :| 0 <= j < |sorted| && sorted[j] == b;
      assert sorted[i] == a;
    }
  }

  // ------------------------------------------------------------------- backoff

  /** Delays never shrink with attempts, never pass the ceiling, and start at the base delay. */
  lemma BackoffGrows(attempts: int, more: int, policy: RetryPolicy)
    requires attempts <= more && policy.baseDelayMs >= 0
    ensures BackoffMs(attempts, policy) <= BackoffMs(more, policy) <= policy.maxDelayMs
    ensures attempts <= 1 ==> BackoffMs(attempts, policy) == Min(policy.baseDelayMs, policy.maxDelayMs)
  {
    var m, n := Min(Max(0, attempts - 1), 40), Min(Max(0, more - 1), 40);
    Pow2Grows(m, n);
    ProductGrows(Pow2(m), Pow2(n), policy.baseDelayMs);
  }

  /** Until the exponent is clamped, each further failure waits twice as long, up to the ceiling. */
  lemma BackoffDoubles(attempts: int, policy: RetryPolicy)
    requires 1 <= attempts <= 40 && policy.baseDelayMs >= 0 && policy.maxDelayMs >= 0
    ensures BackoffMs(attempts + 1, policy) == Min(2 * BackoffMs(attempts, policy), policy.maxDelayMs)
  {
    Pow2Grows(attempts - 1, attempts);
    TwiceProduct(policy.baseDelayMs, Pow2(attempts - 1));
    ProductSign(policy.baseDelayMs, Pow2(attempts - 1));
  }
}
