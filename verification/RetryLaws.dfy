/** What the queue's calls write, and how long a delivery rests between them over every run. */
module RetryLaws {
  import opened Prelude
  import opened Queue
  import opened QueueLaws

  // ------------------------------------------------------------ what is written

  /** The row no longer counts as being worked on, or asked about, by anyone. */
  ghost predicate Finished(was: Row, r: Row, status: Status, why: Option<string>, now: int) {
    r == Row(was.id, was.storeId, was.platformEventId, was.eventType, was.rawEventType, was.rawPayload, was.receivedAt,
             status, was.attempts, was.nextAttemptAt, None, Some(now), why)
  }

  /** The row is as it was, but for its place in the schedule. */
  ghost predicate Rescheduled(was: Row, r: Row, status: Status, attempts: int, dueAt: int, lockedAt: Option<int>,
        processedAt: Option<int>, why: Option<string>)
  {
    r == Row(was.id, was.storeId, was.platformEventId, was.eventType, was.rawEventType, was.rawPayload, was.receivedAt,
             status, attempts, dueAt, lockedAt, processedAt, why)
  }

  /** Finishing, skipping, failing and putting back write their row, by its id, and no other. */
  lemma MarksWrite(rows: seq<Row>, op: Op, policy: RetryPolicy, i: nat)
    requires i < |rows| && !op.Enqueue? && !op.Claim? && !op.ReapStale?
    ensures i < |Apply(rows, op, policy)|
    ensures var was, r := rows[i], Apply(rows, op, policy)[i];
      if was.id != op.id then r == was
      else if op.MarkProcessed? then Finished(was, r, Processed, None, op.now)
      else if op.MarkSkipped? then Finished(was, r, Skipped, Some(op.reason), op.now)
      else if op.Requeue? then
        if was.status.Failed? then Rescheduled(was, r, Pending, 0, op.now, None, None, was.lastError) else r == was
      else if was.attempts < policy.maxAttempts then
        Rescheduled(was, r, Pending, was.attempts, op.now + RetryDelay(was.attempts, policy), None,
            was.processedAt, Some(op.error))
      else Rescheduled(was, r, Failed, was.attempts, op.now, None, was.processedAt, Some(op.error))
  {
    hide BackoffMs, RetryDelay;
    DelayIsBackoff(rows[i].attempts, policy);
  }

  /** A worker's lease has run out. */
  ghost predicate Expired(r: Row, staleAfterMs: int, now: int) {
    r.status.Processing? && r.lockedAt.Some? && r.lockedAt.value + staleAfterMs < now
  }

  /** The reaper takes exactly the rows whose lease has run out, and schedules or gives up each as a failure would. */
  lemma ReapingWrites(rows: seq<Row>, staleAfterMs: int, now: int, policy: RetryPolicy, i: nat)
    requires i < |rows|
    ensures var after := Apply(rows, Op.ReapStale(staleAfterMs, now), policy);
      i < |after| && var was, r := rows[i], after[i];
        if !Expired(was, staleAfterMs, now) then r == was
        else if was.attempts < policy.maxAttempts then
          Rescheduled(was, r, Pending, was.attempts, now + RetryDelay(was.attempts, policy), None, was.processedAt,
                      Some("reclaimed after a worker stopped reporting"))
        else Rescheduled(was, r, Failed, was.attempts, now, None, was.processedAt,
                         Some("abandoned by a worker after exhausting its attempts"))
  {
    hide BackoffMs, RetryDelay;
    DelayIsBackoff(rows[i].attempts, policy);
  }

  /** A claimed row is locked at the moment of the claim and has one more attempt behind it; the others stay. */
  lemma ClaimWrites(rows: seq<Row>, limit: int, now: int, skip: set<string>, policy: RetryPolicy, i: nat)
    requires Sound(rows, policy) && i < |rows|
    ensures var after := Apply(rows, Op.Claim(limit, now, skip), policy);
      i < |after| && var was, r := rows[i], after[i];
        if was in Selected(rows, limit, now, skip) then
          && was.status.Pending? && was.nextAttemptAt <= now && was.id !in skip
          && Rescheduled(was, r, Processing, was.attempts + 1, was.nextAttemptAt, Some(now), was.processedAt, was.lastError)
        else r == was
  {
    hide SoundRow, Selected;
    var op := Op.Claim(limit, now, skip);
    if rows[i].id in Chosen(rows, op) { ChosenArePending(rows, op, policy, i); }
  }

  /** A delivery enters once per store and platform event, pending from the moment it was received. */
  lemma EnqueueWrites(rows: seq<Row>, e: NewEvent, policy: RetryPolicy)
    ensures Apply(rows, Op.Enqueue(e), policy) ==
      if exists r :: r in rows && ((r.storeId == e.storeId && r.platformEventId == e.platformEventId) || r.id == e.id) then rows
      else rows + [Row(e.id, e.storeId, e.platformEventId, e.eventType, e.rawEventType, e.rawPayload, e.receivedAt,
                       Pending, 0, e.receivedAt, None, None, None)]
  {
    if r :| r in rows && ((r.storeId == e.storeId && r.platformEventId == e.platformEventId) || r.id == e.id) {
      var i :| 0 <= i < |rows| && rows[i] == r;
      assert SameEvent(rows[i], e) || rows[i].id == e.id;
    }
    if !Inserts(rows, e) {
      var i :| 0 <= i < |rows| && (SameEvent(rows[i], e) || rows[i].id == e.id);
      assert rows[i] in rows;
    }
  }

  // --------------------------------------------------------------- over every run

  ghost predicate Marks(op: Op, id: string) {
    (op.MarkProcessed? || op.MarkSkipped? || op.MarkFailed?) && op.id == id
  }

  /** The call gives the row back for another attempt: its own worker reports a failure, or its lease has run out. */
  ghost predicate GivesBack(op: Op, r: Row, policy: RetryPolicy) {
    && r.attempts < policy.maxAttempts
    && ((op.MarkFailed? && op.id == r.id) || (op.ReapStale? && Expired(r, op.staleAfterMs, op.now)))
  }

  lemma GivenBack(rows: seq<Row>, op: Op, policy: RetryPolicy, i: nat)
    requires i < |rows| && GivesBack(op, rows[i], policy)
    ensures i < |Apply(rows, op, policy)|
    ensures var r := Apply(rows, op, policy)[i];
      r.id == rows[i].id && r.status.Pending? && r.nextAttemptAt == op.now + RetryDelay(rows[i].attempts, policy)
  {
    hide RetryDelay, Apply;
    if op.MarkFailed? { MarksWrite(rows, op, policy, i); } else { ReapingWrites(rows, op.staleAfterMs, op.now, policy, i); }
  }

  lemma RestsWhilePending(rows: seq<Row>, op: Op, policy: RetryPolicy, i: nat)
    requires i < |rows| && rows[i].status.Pending? && !Marks(op, rows[i].id) && rows[i].id !in Chosen(rows, op)
    ensures i < |Apply(rows, op, policy)| && Apply(rows, op, policy)[i] == rows[i]
  {
    hide Selected, BackoffMs, Chosen, Inserts;
  }

  lemma {:induction false} Rests(rows: seq<Row>, ops: seq<Op>, policy: RetryPolicy, m: nat, n: nat, i: nat)
    requires m <= n <= |ops| && i < |Run(rows, ops, policy, m)| && Run(rows, ops, policy, m)[i].status.Pending?
    requires var id := Run(rows, ops, policy, m)[i].id;
      forall k :: m <= k < n ==> !Marks(ops[k], id) && id !in Chosen(Run(rows, ops, policy, k), ops[k])
    ensures i < |Run(rows, ops, policy, n)| && Run(rows, ops, policy, n)[i] == Run(rows, ops, policy, m)[i]
  {
    hide Apply, Chosen, Marks;
    if m < n {
      Rests(rows, ops, policy, m, n - 1, i);
      RestsWhilePending(Run(rows, ops, policy, n - 1), ops[n-1], policy, i);
    }
  }

  /**
   * However calls interleave: once a row has been given back for a retry, the next claim that takes it
   * comes no sooner than its delay after that, unless somebody marks the row in between.
   */
  lemma RetriesWaitTheirDelay(rows: seq<Row>, ops: seq<Op>, policy: RetryPolicy, m: nat, n: nat, i: nat)
    requires Sound(rows, policy) && m < n < |ops| && i < |Run(rows, ops, policy, m)|
    requires GivesBack(ops[m], Run(rows, ops, policy, m)[i], policy)
    requires var id := Run(rows, ops, policy, m)[i].id;
      && (forall k :: m < k < n ==> !Marks(ops[k], id) && id !in Chosen(Run(rows, ops, policy, k), ops[k]))
      && ops[n].Claim? && id in Chosen(Run(rows, ops, policy, n), ops[n])
    ensures ops[n].now >= ops[m].now + RetryDelay(Run(rows, ops, policy, m)[i].attempts, policy)
  {
    hide Sound, Apply, Chosen, Marks, RetryDelay, GivesBack, Selected;
    var before := Run(rows, ops, policy, m);
    GivenBack(before, ops[m], policy, i);
    assert Run(rows, ops, policy, m + 1) == Apply(before, ops[m], policy);
    Rests(rows, ops, policy, m + 1, n, i);
    RunKeepsSound(rows, ops, policy, n);
    ChosenArePending(Run(rows, ops, policy, n), ops[n], policy, i);
  }

  lemma WorksUndisturbed(rows: seq<Row>, op: Op, policy: RetryPolicy, i: nat)
    requires Sound(rows, policy) && i < |rows| && rows[i].status.Processing? && !Marks(op, rows[i].id)
    requires op.ReapStale? ==> !Expired(rows[i], op.staleAfterMs, op.now)
    ensures i < |Apply(rows, op, policy)| && Apply(rows, op, policy)[i] == rows[i]
  {
    hide SoundRow, Selected, BackoffMs, Chosen, Inserts;
    if op.Claim? { NoDoubleClaim(rows, op, policy, i); }
  }

  lemma {:induction false} StaysLocked(rows: seq<Row>, ops: seq<Op>, policy: RetryPolicy, m: nat, n: nat, i: nat)
    requires Sound(rows, policy) && m <= n <= |ops|
    requires i < |Run(rows, ops, policy, m)| && Run(rows, ops, policy, m)[i].status.Processing?
    requires var r := Run(rows, ops, policy, m)[i];
      forall k :: m <= k < n ==> !Marks(ops[k], r.id) && (ops[k].ReapStale? ==> !Expired(r, ops[k].staleAfterMs, ops[k].now))
    ensures i < |Run(rows, ops, policy, n)| && Run(rows, ops, policy, n)[i] == Run(rows, ops, policy, m)[i]
  {
    hide Apply, Marks, Sound, Expired;
    if m < n {
      StaysLocked(rows, ops, policy, m, n - 1, i);
      RunKeepsSound(rows, ops, policy, n - 1);
      WorksUndisturbed(Run(rows, ops, policy, n - 1), ops[n-1], policy, i);
    }
  }

  /**
   * A claimed row belongs to the worker that claimed it, unchanged, through any calls of others, until
   * somebody marks it or the reaper runs with a lease that the moment of the claim has outlasted.
   */
  lemma ClaimsHoldTheirLease(rows: seq<Row>, ops: seq<Op>, policy: RetryPolicy, m: nat, n: nat, i: nat)
    requires Sound(rows, policy) && m < n <= |ops| && i < |Run(rows, ops, policy, m)| && ops[m].Claim?
    requires var r := Run(rows, ops, policy, m)[i];
      && r.id in Chosen(Run(rows, ops, policy, m), ops[m])
      && forall k :: m < k < n ==> !Marks(ops[k], r.id) && (ops[k].ReapStale? ==> ops[k].now <= ops[m].now + ops[k].staleAfterMs)
    ensures i < |Run(rows, ops, policy, n)|
    ensures var was := Run(rows, ops, policy, m)[i];
      Rescheduled(was, Run(rows, ops, policy, n)[i], Processing, was.attempts + 1, was.nextAttemptAt, Some(ops[m].now),
                  was.processedAt, was.lastError)
  {
    hide Sound, Apply, Marks, Selected;
    var before := Run(rows, ops, policy, m);
    RunKeepsSound(rows, ops, policy, m);
    ChosenArePending(before, ops[m], policy, i);
    ClaimWrites(before, ops[m].limit, ops[m].now, ops[m].skip, policy, i);
    assert Run(rows, ops, policy, m + 1) == Apply(before, ops[m], policy);
    StaysLocked(rows, ops, policy, m + 1, n, i);
  }
}
