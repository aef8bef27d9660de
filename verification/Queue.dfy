/**
 * The ingestion queue: a table of webhook deliveries that several workers claim, finish, fail and
 * recover. Each repository call is one atomic step on the rows.
 */
module Queue {
  import opened Prelude
  import opened Arith
  import opened Sequences
  import opened Sorting

  datatype Status = Pending | Processing | Processed | Failed | Skipped

  datatype Row = Row(
    id: string, storeId: string, platformEventId: string, eventType: string, rawEventType: string, rawPayload: string,
    receivedAt: int, status: Status, attempts: int, nextAttemptAt: int,
    lockedAt: Option<int>, processedAt: Option<int>, lastError: Option<string>)

  datatype NewEvent = NewEvent(
    id: string, storeId: string, platformEventId: string, eventType: string, rawEventType: string,
        rawPayload: string, receivedAt: int)

  datatype RetryPolicy = RetryPolicy(baseDelayMs: int, maxDelayMs: int, maxAttempts: int)

  /** One repository call; `skip` names the rows other transactions hold at that moment. */
  datatype Op =
    | Enqueue(event: NewEvent)
    | Claim(limit: int, now: int, skip: set<string>)
    | MarkProcessed(id: string, now: int)
    | MarkSkipped(id: string, reason: string, now: int)
    | MarkFailed(id: string, error: string, now: int)
    | ReapStale(staleAfterMs: int, now: int)
    | Requeue(id: string, now: int)

  /** The delay before retrying; `attempts` includes the one that just failed. */
  function BackoffMs(attempts: int, policy: RetryPolicy): int {
    Min(policy.baseDelayMs * Pow2(Min(Max(0, attempts - 1), 40)), policy.maxDelayMs)
  }

  /** A delay doubled a number of times. */
  function Doubled(ms: int, times: nat): int { if times == 0 then ms else 2 * Doubled(ms, times - 1) }

  /**
   * How long a retry has to wait: the base delay once the first attempt has failed, twice as long for
   * each failure since, forty doublings at most, and never longer than the ceiling.
   */
  function RetryDelay(attempts: int, policy: RetryPolicy): int {
    var wait := Doubled(policy.baseDelayMs, if attempts <= 1 then 0 else if attempts <= 41 then attempts - 1 else 40);
    if wait > policy.maxDelayMs then policy.maxDelayMs else wait
  }

  lemma {:induction false} DoubledIsPower(ms: int, times: nat)
    ensures Doubled(ms, times) == ms * Pow2(times)
  {
    if times > 0 {
      DoubledIsPower(ms, times - 1);
      TwiceProduct(ms, Pow2(times - 1));
    }
  }

  lemma TwiceProduct(a: int, p: int)
    ensures a * (2 * p) == 2 * (a * p)
  {
  }

  lemma DelayIsBackoff(attempts: int, policy: RetryPolicy)
    ensures BackoffMs(attempts, policy) == RetryDelay(attempts, policy)
  {
    DoubledIsPower(policy.baseDelayMs, Min(Max(0, attempts - 1), 40));
  }

  // ------------------------------------------------------------ one row, one step

  function NewRow(e: NewEvent): Row {
    Row(e.id, e.storeId, e.platformEventId, e.eventType, e.rawEventType, e.rawPayload,
        e.receivedAt, Pending, 0, e.receivedAt, None, None, None)
  }

  predicate SameEvent(r: Row, e: NewEvent) { r.storeId == e.storeId && r.platformEventId == e.platformEventId }

  predicate Known(rows: seq<Row>, e: NewEvent) { exists i :: 0 <= i < |rows| && SameEvent(rows[i], e) }

  predicate IdTaken(rows: seq<Row>, id: string) { exists i :: 0 <= i < |rows| && rows[i].id == id }

  predicate Exhausted(r: Row, policy: RetryPolicy) { r.attempts >= policy.maxAttempts }

  /** A failed attempt, by its own worker or by the reaper: dead-lettered or scheduled for a retry. */
  function Release(r: Row, policy: RetryPolicy, now: int, deadError: string, retryError: string): Row {
    if Exhausted(r, policy) then r.(status := Failed, lockedAt := None, lastError := Some(deadError), nextAttemptAt := now)
    else r.(status := Pending, lockedAt := None, lastError := Some(retryError),
        nextAttemptAt := now + BackoffMs(r.attempts, policy))
  }

  predicate Stale(r: Row, staleAfterMs: int, now: int) {
    r.status.Processing? && r.lockedAt.Some? && r.lockedAt.value < now - staleAfterMs
  }

  const ABANDONED := "abandoned by a worker after exhausting its attempts"
  const RECLAIMED := "reclaimed after a worker stopped reporting"

  function ClaimRow(r: Row, now: int): Row {
    r.(status := Processing, attempts := r.attempts + 1, lockedAt := Some(now))
  }

  /** What a step makes of one row; `chosen` are the ids a claim selected. */
  function RowAfter(r: Row, op: Op, chosen: set<string>, policy: RetryPolicy): Row {
    match op
    case Enqueue(_) => r
    case Claim(_, now, _) => if r.id in chosen then ClaimRow(r, now) else r
    case MarkProcessed(id, now) =>
      if r.id == id then r.(status := Processed, processedAt := Some(now), lockedAt := None, lastError := None) else r
    case MarkSkipped(id, reason, now) =>
      if r.id == id then r.(status := Skipped, processedAt := Some(now), lockedAt := None, lastError := Some(reason)) else r
    case MarkFailed(id, error, now) => if r.id == id then Release(r, policy, now, error, error) else r
    case ReapStale(staleAfterMs, now) =>
      if Stale(r, staleAfterMs, now) then Release(r, policy, now, ABANDONED, RECLAIMED) else r
    case Requeue(id, now) =>
      if r.id == id && r.status.Failed? then
        r.(status := Pending, attempts := 0, lockedAt := None, nextAttemptAt := now, processedAt := None)
      else r
  }

  // ------------------------------------------------------- the whole table, one step

  predicate Due(r: Row, now: int, skip: set<string>) {
    r.status.Pending? && r.nextAttemptAt <= now && r.id !in skip
  }

  predicate OldestFirst(a: Row, b: Row) {
    a.nextAttemptAt < b.nextAttemptAt || (a.nextAttemptAt == b.nextAttemptAt && a.receivedAt <= b.receivedAt)
  }

  function DueRows(rows: seq<Row>, now: int, skip: set<string>): seq<Row> {
    Sort(OldestFirst, Filter((r: Row) => Due(r, now, skip), rows))
  }

  function Selected(rows: seq<Row>, limit: int, now: int, skip: set<string>): seq<Row> {
    var due := DueRows(rows, now, skip);
    due[..Max(0, Min(limit, |due|))]
  }

  function Ids(rows: seq<Row>): set<string> { set r | r in rows :: r.id }

  function Chosen(rows: seq<Row>, op: Op): set<string> {
    if op.Claim? then Ids(Selected(rows, op.limit, op.now, op.skip)) else {}
  }

  function EachAfter(rows: seq<Row>, op: Op, policy: RetryPolicy): (r: seq<Row>)
    ensures |r| == |rows|
    ensures forall i :: 0 <= i < |rows| ==> r[i] == RowAfter(rows[i], op, Chosen(rows, op), policy)
  {
    var chosen := Chosen(rows, op);
    seq(|rows|, i requires 0 <= i < |rows| => RowAfter(rows[i], op, chosen, policy))
  }

  /** An insert succeeds unless the event is known; a fresh event under a taken id is refused by the primary key. */
  predicate Inserts(rows: seq<Row>, e: NewEvent) { !Known(rows, e) && !IdTaken(rows, e.id) }

  /** The table after a step. */
  function Apply(rows: seq<Row>, op: Op, policy: RetryPolicy): seq<Row> {
    if op.Enqueue? then (if Inserts(rows, op.event) then rows + [NewRow(op.event)] else rows)
    else EachAfter(rows, op, policy)
  }

  // --------------------------------------------------------------- the invariant

  function Cap(policy: RetryPolicy): int { Max(1, policy.maxAttempts) }

  ghost predicate SoundRow(r: Row, policy: RetryPolicy) {
    && (r.status.Processing? <==> r.lockedAt.Some?)
    && 0 <= r.attempts <= Cap(policy)
    && (r.status.Pending? ==> r.attempts < Cap(policy))
    && (r.status.Failed? ==> r.attempts >= policy.maxAttempts)
  }

  /** One row per id and per (store, event); in flight exactly when locked; claimable only with attempts to spare. */
  ghost predicate Sound(rows: seq<Row>, policy: RetryPolicy) {
    && (forall i :: 0 <= i < |rows| ==> SoundRow(rows[i], policy))
    && (forall i, j :: 0 <= i < j < |rows| ==> rows[i].id != rows[j].id)
    && (forall i, j :: 0 <= i < j < |rows| ==>
          !(rows[i].storeId == rows[j].storeId && rows[i].platformEventId == rows[j].platformEventId))
  }

  lemma StepKeepsRow(r: Row, op: Op, chosen: set<string>, policy: RetryPolicy)
    requires SoundRow(r, policy) && (op.Claim? && r.id in chosen ==> r.status.Pending?)
    ensures var q := RowAfter(r, op, chosen, policy);
      SoundRow(q, policy) && q.id == r.id && q.storeId == r.storeId && q.platformEventId == r.platformEventId
  {
    hide BackoffMs;
  }

  lemma SelectedAreDue(rows: seq<Row>, limit: int, now: int, skip: set<string>, r: Row)
    requires r in Selected(rows, limit, now, skip)
    ensures r in rows && Due(r, now, skip)
  {
    var ok := (r: Row) => Due(r, now, skip);
    var due := Filter(ok, rows);
    SortPermutes(OldestFirst, due);
    SameLength(Sort(OldestFirst, due), due);
    assert r in DueRows(rows, now, skip);
  }

  /** Only a due row is claimed, given that ids are unique. */
  lemma ChosenArePending(rows: seq<Row>, op: Op, policy: RetryPolicy, i: nat)
    requires Sound(rows, policy) && i < |rows| && op.Claim? && rows[i].id in Chosen(rows, op)
    ensures Due(rows[i], op.now, op.skip) && rows[i] in Selected(rows, op.limit, op.now, op.skip)
  {
    hide Selected, Due, SoundRow;
    var r :| r in Selected(rows, op.limit, op.now, op.skip) && r.id == rows[i].id;
    SelectedAreDue(rows, op.limit, op.now, op.skip, r);
    var j :| 0 <= j < |rows| && rows[j] == r;
    assert i == j;
  }

  /** Every step keeps the invariant. */
  lemma StepKeepsSound(rows: seq<Row>, op: Op, policy: RetryPolicy)
    requires Sound(rows, policy)
    ensures Sound(Apply(rows, op, policy), policy)
  {
    hide SoundRow, RowAfter, Chosen, Due;
    if op.Enqueue? {
      FreshRowIsSound(op.event, policy);
    } else {
      var after := EachAfter(rows, op, policy);
      forall i | 0 <= i < |rows|
        ensures SoundRow(after[i], policy) && after[i].id == rows[i].id
        ensures after[i].storeId == rows[i].storeId && after[i].platformEventId == rows[i].platformEventId
      {
        if op.Claim? && rows[i].id in Chosen(rows, op) {
          ChosenArePending(rows, op, policy, i);
          DueIsPending(rows[i], op.now, op.skip);
        }
        StepKeepsRow(rows[i], op, Chosen(rows, op), policy);
      }
    }
  }

  lemma DueIsPending(r: Row, now: int, skip: set<string>)
    requires Due(r, now, skip)
    ensures r.status.Pending?
  {
  }

  lemma FreshRowIsSound(e: NewEvent, policy: RetryPolicy)
    ensures SoundRow(NewRow(e), policy)
  {
  }

  // -------------------------------------------------------- who waits, how long

  /** The row waits out its delay from that moment on, held by nobody. */
  ghost predicate Waits(was: Row, r: Row, now: int, policy: RetryPolicy) {
    r.status.Pending? && r.lockedAt.None? && r.nextAttemptAt == now + RetryDelay(was.attempts, policy)
  }

  /** What the reaper makes of a row: a lease that has run out is given up, for good once the attempts are used up. */
  ghost predicate Reaped(was: Row, r: Row, staleAfterMs: int, now: int, policy: RetryPolicy) {
    if was.status.Processing? && was.lockedAt.Some? && was.lockedAt.value + staleAfterMs < now then
      if was.attempts < policy.maxAttempts then Waits(was, r, now, policy) else r.status.Failed? && r.lockedAt.None?
    else r == was
  }

  lemma FailureWaits(rows: seq<Row>, id: string, error: string, now: int, policy: RetryPolicy)
    ensures var after := Apply(rows, Op.MarkFailed(id, error, now), policy);
      |after| == |rows| && forall k :: 0 <= k < |rows| && rows[k].id == id && rows[k].attempts < policy.maxAttempts ==>
        Waits(rows[k], after[k], now, policy)
  {
    hide BackoffMs, RetryDelay;
    forall k | 0 <= k < |rows| ensures BackoffMs(rows[k].attempts, policy) == RetryDelay(rows[k].attempts, policy) {
      DelayIsBackoff(rows[k].attempts, policy);
    }
  }

  lemma ReapingWaits(rows: seq<Row>, staleAfterMs: int, now: int, policy: RetryPolicy)
    ensures var after := Apply(rows, Op.ReapStale(staleAfterMs, now), policy);
      |after| == |rows| && forall k :: 0 <= k < |rows| ==> Reaped(rows[k], after[k], staleAfterMs, now, policy)
  {
    hide BackoffMs, RetryDelay;
    forall k | 0 <= k < |rows| ensures BackoffMs(rows[k].attempts, policy) == RetryDelay(rows[k].attempts, policy) {
      DelayIsBackoff(rows[k].attempts, policy);
    }
  }

  // -------------------------------------------------------------- the repository

  datatype Outcome = Retrying | DeadLettered

  /** Rows where a condition holds are rewritten, the others stay, as one statement. */
  function Update(rows: seq<Row>, where: Row -> bool, rewrite: Row -> Row): (r: seq<Row>)
    ensures |r| == |rows|
    ensures forall i :: 0 <= i < |rows| ==> r[i] == if where(rows[i]) then rewrite(rows[i]) else rows[i]
  {
    seq(|rows|, i requires 0 <= i < |rows| => if where(rows[i]) then rewrite(rows[i]) else rows[i])
  }

  function CountUpTo(rows: seq<Row>, status: Status, n: nat): nat
    requires n <= |rows|
  {
    if n == 0 then 0 else CountUpTo(rows, status, n - 1) + if rows[n-1].status == status then 1 else 0
  }

  function StaleRows(rows: seq<Row>, staleAfterMs: int, now: int): seq<Row> {
    Filter((r: Row) => Stale(r, staleAfterMs, now), rows)
  }

  function DeadIds(rows: seq<Row>, policy: RetryPolicy, staleAfterMs: int, now: int): set<string> {
    Ids(Filter((r: Row) => Exhausted(r, policy), StaleRows(rows, staleAfterMs, now)))
  }

  lemma DeadIdsAreDead(rows: seq<Row>, policy: RetryPolicy, staleAfterMs: int, now: int, k: nat)
    requires Sound(rows, policy) && k < |rows|
    ensures rows[k].id in DeadIds(rows, policy, staleAfterMs, now)
        <==> Stale(rows[k], staleAfterMs, now) && Exhausted(rows[k], policy)
  {
    hide SoundRow, Stale, Exhausted;
    var dead := Filter((r: Row) => Exhausted(r, policy), StaleRows(rows, staleAfterMs, now));
    if rows[k].id in Ids(dead) {
      var r :| r in dead && r.id == rows[k].id;
      var j :| 0 <= j < |rows| && rows[j] == r;
      assert j == k;
    }
    if Stale(rows[k], staleAfterMs, now) && Exhausted(rows[k], policy) { assert rows[k] in dead; }
  }

  lemma TakeOne<T>(xs: seq<T>, i: nat)
    requires i < |xs|
    ensures forall x :: x in xs[..i+1] <==> x in xs[..i] || x == xs[i]
  {
    assert xs[..i+1] == xs[..i] + [xs[i]];
  }

  function RetryRows(rows: seq<Row>, policy: RetryPolicy, staleAfterMs: int, now: int): seq<Row> {
    Filter((r: Row) => !Exhausted(r, policy), StaleRows(rows, staleAfterMs, now))
  }

  /** Reschedules the listed rows, one update at a time. */
  method ReleaseEach(before: seq<Row>, start: seq<Row>, retry: seq<Row>, policy: RetryPolicy,
        now: int) returns (table: seq<Row>)
    requires |start| == |before| && forall i, j :: 0 <= i < j < |before| ==> before[i].id != before[j].id
    requires forall r :: r in retry ==> r in before && !Exhausted(r, policy)
    requires forall k :: 0 <= k < |before| ==> start[k].id == before[k].id && (before[k] in retry ==> start[k] == before[k])
    ensures |table| == |before|
    ensures forall k :: 0 <= k < |before| ==>
      table[k] == if before[k] in retry then Release(before[k], policy, now, ABANDONED, RECLAIMED) else start[k]
  {
    hide BackoffMs;
    table := start;
    for i := 0 to |retry|
      invariant |table| == |before|
      invariant forall k :: 0 <= k < |before| ==>
        table[k] == if before[k] in retry[..i] then Release(before[k], policy, now, ABANDONED, RECLAIMED) else start[k]
    {
      var row := retry[i];
      TakeOne(retry, i);
      assert row in retry;
      ghost var j :| 0 <= j < |before| && before[j] == row;
      assert forall k :: 0 <= k < |before| && table[k].id == row.id ==> k == j;
      var next := now + BackoffMs(row.attempts, policy);
      table := Update(table, (r: Row) => r.id == row.id,
        (r: Row) => r.(status := Pending, lockedAt := None, lastError := Some(RECLAIMED), nextAttemptAt := next));
    }
    assert retry[..|retry|] == retry;
  }

  class WebhookEventRepository {
    var rows: seq<Row>
    const policy: RetryPolicy

    ghost predicate Valid() reads this { Sound(rows, policy) }

    constructor (policy: RetryPolicy)
      ensures Valid() && rows == [] && this.policy == policy
    {
      rows := [];
      this.policy := policy;
    }

    /** Absent when the primary key refuses the row; otherwise whether the delivery was a duplicate. */
    method Enqueue(event: NewEvent) returns (duplicate: Option<bool>)
      requires Valid()
      modifies this
      ensures Valid() && rows == Apply(old(rows), Op.Enqueue(event), policy)
      ensures duplicate == (if Known(old(rows), event) then Some(true) else if IdTaken(old(rows), event.id)
          then None else Some(false))
    {
      StepKeepsSound(rows, Op.Enqueue(event), policy);
      if Known(rows, event) { return Some(true); }
      if IdTaken(rows, event.id) { return None; }
      rows := rows + [NewRow(event)];
      return Some(false);
    }

    /** Locks a batch of the oldest due rows, no larger than the limit, and returns them as locked. */
    method Claim(limit: int, now: int, skip: set<string>) returns (claimed: seq<Row>)
      requires Valid()
      modifies this
      ensures Valid() && rows == Apply(old(rows), Op.Claim(limit, now, skip), policy)
      ensures claimed == Filter((r: Row) => r.id in Chosen(old(rows), Op.Claim(limit, now, skip)), rows)
    {
      hide Sound, DueRows, Filter, ClaimRow;
      StepKeepsSound(rows, Op.Claim(limit, now, skip), policy);
      var due := if limit <= 0 then [] else Selected(rows, limit, now, skip);
      var ids := Ids(due);
      assert ids == Chosen(rows, Op.Claim(limit, now, skip)) by {
        if limit <= 0 { assert Selected(rows, limit, now, skip) == []; }
      }
      var after := Update(rows, (r: Row) => r.id in ids, (r: Row) => ClaimRow(r, now));
      assert after == EachAfter(rows, Op.Claim(limit, now, skip), policy);
      rows := after;
      claimed := Filter((r: Row) => r.id in ids, rows);
    }

    method MarkProcessed(id: string, now: int)
      requires Valid()
      modifies this
      ensures Valid() && rows == Apply(old(rows), Op.MarkProcessed(id, now), policy)
    {
      hide Sound;
      StepKeepsSound(rows, Op.MarkProcessed(id, now), policy);
      var after := Update(rows, (r: Row) => r.id == id,
        (r: Row) => r.(status := Processed, processedAt := Some(now), lockedAt := None, lastError := None));
      assert after == EachAfter(rows, Op.MarkProcessed(id, now), policy);
      rows := after;
    }

    method MarkSkipped(id: string, reason: string, now: int)
      requires Valid()
      modifies this
      ensures Valid() && rows == Apply(old(rows), Op.MarkSkipped(id, reason, now), policy)
    {
      hide Sound;
      StepKeepsSound(rows, Op.MarkSkipped(id, reason, now), policy);
      var after := Update(rows, (r: Row) => r.id == id,
        (r: Row) => r.(status := Skipped, processedAt := Some(now), lockedAt := None, lastError := Some(reason)));
      assert after == EachAfter(rows, Op.MarkSkipped(id, reason, now), policy);
      rows := after;
    }

    method FindRow(id: string) returns (found: Option<Row>)
      requires Valid()
      ensures found.None? <==> !IdTaken(rows, id)
      ensures found.Some? ==> found.value in rows && found.value.id == id
    {
      for i := 0 to |rows|
        invariant forall k :: 0 <= k < i ==> rows[k].id != id
      {
        if rows[i].id == id { return Some(rows[i]); }
      }
      return None;
    }

    /** Reads the attempt count, then writes without looking at the status again. */
    method MarkFailed(id: string, error: string, now: int) returns (outcome: Outcome)
      requires Valid()
      modifies this
      ensures Valid() && rows == Apply(old(rows), Op.MarkFailed(id, error, now), policy)
      ensures forall k :: 0 <= k < |rows| && old(rows)[k].id == id && old(rows)[k].attempts < policy.maxAttempts ==>
        Waits(old(rows)[k], rows[k], now, policy)
      ensures outcome.Retrying? <==> exists r :: r in old(rows) && r.id == id && !Exhausted(r, policy)
    {
      hide SoundRow, BackoffMs, Waits;
      StepKeepsSound(rows, Op.MarkFailed(id, error, now), policy);
      FailureWaits(rows, id, error, now, policy);
      var found := FindRow(id);
      if found.None? {
        assert rows == EachAfter(rows, Op.MarkFailed(id, error, now), policy);
        return DeadLettered;
      }
      var row := found.value;
      var exhausted := row.attempts >= policy.maxAttempts;
      var status, next := if exhausted then Failed else Pending, if exhausted then now else now + BackoffMs(row.attempts, policy);
      assert forall i :: 0 <= i < |rows| && rows[i].id == id ==> rows[i] == row;
      var after := Update(rows, (r: Row) => r.id == id,
        (r: Row) => r.(status := status, lockedAt := None, lastError := Some(error), nextAttemptAt := next));
      assert after == EachAfter(rows, Op.MarkFailed(id, error, now), policy);
      rows := after;
      return if exhausted then DeadLettered else Retrying;
    }

    /** Takes rows back from workers past their lease: the exhausted ones fail in one statement, the others go back one by one. */
    method ReapStale(staleAfterMs: int, now: int) returns (reaped: nat)
      requires Valid()
      modifies this
      ensures Valid() && rows == Apply(old(rows), Op.ReapStale(staleAfterMs, now), policy)
      ensures forall k :: 0 <= k < |rows| ==> Reaped(old(rows)[k], rows[k], staleAfterMs, now, policy)
      ensures reaped == |StaleRows(old(rows), staleAfterMs, now)|
    {
      hide SoundRow, BackoffMs, DeadIds, Exhausted, Stale, Reaped;
      ghost var op, before := Op.ReapStale(staleAfterMs, now), rows;
      StepKeepsSound(rows, op, policy);
      ReapingWaits(rows, staleAfterMs, now, policy);
      var stale := StaleRows(rows, staleAfterMs, now);
      var dead := DeadIds(rows, policy, staleAfterMs, now);
      var retry := RetryRows(rows, policy, staleAfterMs, now);
      var buried := Update(rows, (r: Row) => r.id in dead,
        (r: Row) => r.(status := Failed, lockedAt := None, lastError := Some(ABANDONED), nextAttemptAt := now));
      forall k | 0 <= k < |rows|
        ensures rows[k].id in dead <==> Stale(rows[k], staleAfterMs, now) && Exhausted(rows[k], policy)
        ensures rows[k] in retry <==> Stale(rows[k], staleAfterMs, now) && !Exhausted(rows[k], policy)
      {
        DeadIdsAreDead(rows, policy, staleAfterMs, now, k);
      }
      var table := ReleaseEach(rows, buried, retry, policy, now);
      assert table == EachAfter(before, op, policy);
      rows := table;
      reaped := |stale|;
    }

    /** Puts a dead letter back, and only a dead letter. */
    method Requeue(id: string, now: int) returns (requeued: bool)
      requires Valid()
      modifies this
      ensures Valid() && rows == Apply(old(rows), Op.Requeue(id, now), policy)
      ensures requeued <==> exists r :: r in old(rows) && r.id == id && r.status.Failed?
    {
      hide Sound;
      StepKeepsSound(rows, Op.Requeue(id, now), policy);
      requeued := exists r :: r in rows && r.id == id && r.status.Failed?;
      var after := Update(rows, (r: Row) => r.id == id && r.status.Failed?,
        (r: Row) => r.(status := Pending, attempts := 0, lockedAt := None, nextAttemptAt := now, processedAt := None));
      assert after == EachAfter(rows, Op.Requeue(id, now), policy);
      rows := after;
    }

    /** Queue depth by status. */
    method CountByStatus() returns (counts: map<Status, nat>)
      ensures forall s :: s in counts && counts[s] == CountUpTo(rows, s, |rows|)
    {
      counts := map[Pending := 0, Processing := 0, Processed := 0, Failed := 0, Skipped := 0];
      forall s: Status ensures s in counts && counts[s] == 0 {
        match s
        case Pending => case Processing => case Processed => case Failed => case Skipped =>
      }
      for i := 0 to |rows|
        invariant forall s :: s in counts && counts[s] == CountUpTo(rows, s, i)
      {
        counts := counts[rows[i].status := counts[rows[i].status] + 1];
      }
    }
  }
}
