/**
 * Cost history: windows that are closed and opened but never rewritten, read as of a moment.
 * Instants are milliseconds; rows starting at the same instant are read in order of their ids.
 */
module CostHistory {
  import opened Prelude
  import opened Sequences
  import opened Sorting
  import opened Domain
  import opened Cogs
  import Text

  datatype Row = Row(
    id: string, storeId: string, productId: string, variantId: Option<string>, sku: Option<string>,
    unitCost: int, source: CostSource, effectiveFrom: int, effectiveTo: Option<int>, note: Option<string>)

  datatype Entry = Entry(
    id: string, storeId: string, productId: string, variantId: Option<string>, sku: Option<string>,
    unitCost: int, source: CostSource, effectiveFrom: int, note: Option<string>)

  datatype KeyRef = KeyRef(productId: string, variantId: Option<string>, sku: Option<string>)

  // ---------------------------------------------------------------- recording

  predicate OfKey(r: Row, e: Entry) {
    r.storeId == e.storeId && r.productId == e.productId && r.variantId == e.variantId
  }

  predicate SameKey(r: Row, s: Row) {
    r.storeId == s.storeId && r.productId == s.productId && r.variantId == s.variantId
  }

  predicate IsOpen(r: Row, e: Entry) { OfKey(r, e) && r.effectiveTo.None? }

  function Opened(e: Entry): Row {
    Row(e.id, e.storeId, e.productId, e.variantId, e.sku, e.unitCost, e.source, e.effectiveFrom, None, e.note)
  }

  /** A correction closes the window it replaces, at its own start. */
  function CloseFor(e: Entry): Row -> Row {
    (r: Row) => if IsOpen(r, e) then r.(effectiveTo := Some(e.effectiveFrom)) else r
  }

  /** The start of the first open window of the entry's key, among the first n rows. */
  function OpenFrom(rows: seq<Row>, e: Entry, n: nat): Option<int>
    requires n <= |rows|
  {
    if n == 0 then None
    else
      var before := OpenFrom(rows, e, n - 1);
      if before.Some? then before else if IsOpen(rows[n-1], e) then Some(rows[n-1].effectiveFrom) else None
  }

  /** Backdated carries the start of the open window; Refused is what the table's constraints reject. */
  datatype Outcome = Recorded | Backdated(openFrom: int) | Refused

  predicate IdTaken(rows: seq<Row>, id: string) { exists i :: 0 <= i < |rows| && rows[i].id == id }

  function OutcomeOf(rows: seq<Row>, e: Entry): Outcome {
    var openFrom := OpenFrom(rows, e, |rows|);
    if openFrom.Some? && openFrom.value >= e.effectiveFrom then Backdated(openFrom.value)
    else if IdTaken(rows, e.id) || e.unitCost < 0 then Refused
    else Recorded
  }

  function Extended(rows: seq<Row>, e: Entry): (r: seq<Row>)
    ensures |r| == |rows| + 1 && r[|rows|] == Opened(e)
    ensures forall i :: 0 <= i < |rows| ==> r[i] == CloseFor(e)(rows[i])
  {
    Map(CloseFor(e), rows) + [Opened(e)]
  }

  function AfterRecord(rows: seq<Row>, e: Entry): seq<Row> {
    if OutcomeOf(rows, e).Recorded? then Extended(rows, e) else rows
  }

  // ---------------------------------------------------------------- resolving

  predicate InWindow(r: Row, at: int) {
    r.effectiveFrom <= at && (r.effectiveTo.None? || r.effectiveTo.value > at)
  }

  function Applies(storeId: string, at: int): Row -> bool {
    (r: Row) => r.storeId == storeId && InWindow(r, at)
  }

  predicate NewestFirst(a: Row, b: Row) {
    a.effectiveFrom > b.effectiveFrom || (a.effectiveFrom == b.effectiveFrom && !Text.Lt(b.id, a.id))
  }

  function Current(rows: seq<Row>, storeId: string, at: int): seq<Row> {
    Sort(NewestFirst, Filter(Applies(storeId, at), rows))
  }

  function RowKey(r: Row): string { ProductKey(r.productId, r.variantId) }

  predicate HasSku(r: Row) { r.sku.Some? && r.sku.value != "" }

  function KeyIs(key: string): Row -> bool { (r: Row) => RowKey(r) == key }

  function SkuIs(sku: string): Row -> bool { (r: Row) => HasSku(r) && r.sku.value == sku }

  function First(rows: seq<Row>, p: Row -> bool): Option<Row> {
    if rows == [] then None else if p(rows[0]) then Some(rows[0]) else First(rows[1..], p)
  }

  function OrElse(a: Option<Row>, b: Option<Row>): Option<Row> { if a.Some? then a else b }

  /** The exact key, else the product-level row, else the SKU. */
  function Lookup(current: seq<Row>, wanted: KeyRef): Option<Row> {
    OrElse(First(current, KeyIs(ProductKey(wanted.productId, wanted.variantId))),
      OrElse(First(current, KeyIs(ProductKey(wanted.productId, None))),
        if wanted.sku.None? then None else First(current, SkuIs(wanted.sku.value))))
  }

  function Resolved(row: Row, wanted: KeyRef): ResolvedCost {
    ResolvedCost(wanted.productId, wanted.variantId, wanted.sku, row.unitCost, row.source, row.id)
  }

  /** What the first n wanted keys resolve to; a key without a cost is left out. */
  function ResolveUpTo(current: seq<Row>, keys: seq<KeyRef>, n: nat): seq<ResolvedCost>
    requires n <= |keys|
  {
    if n == 0 then []
    else
      var row := Lookup(current, keys[n-1]);
      ResolveUpTo(current, keys, n - 1) + if row.Some? then [Resolved(row.value, keys[n-1])] else []
  }

  function Resolution(rows: seq<Row>, storeId: string, keys: seq<KeyRef>, at: int): seq<ResolvedCost> {
    ResolveUpTo(Current(rows, storeId, at), keys, |keys|)
  }

  // ------------------------------------------------------------ the invariant

  /** Some later row of the same key starts exactly where this one ends. */
  ghost predicate HasNext(rows: seq<Row>, i: nat)
    requires i < |rows|
  {
    exists j :: i < j < |rows| && SameKey(rows[i], rows[j]) && rows[i].effectiveTo == Some(rows[j].effectiveFrom)
  }

  /** A closed window is not inverted, and the next one of its key starts where it ends. */
  ghost predicate Linked(rows: seq<Row>, i: nat)
    requires i < |rows|
  {
    rows[i].effectiveTo.Some? ==> rows[i].effectiveFrom < rows[i].effectiveTo.value && HasNext(rows, i)
  }

  /** Of two windows of one key, the earlier ends before the later starts. */
  ghost predicate Follows(r: Row, s: Row) {
    SameKey(r, s) ==> r.effectiveTo.Some? && r.effectiveTo.value <= s.effectiveFrom
  }

  /** The windows of each key follow one another without gap or overlap, and the last one is open. */
  ghost predicate Chained(rows: seq<Row>) {
    && (forall i :: 0 <= i < |rows| ==> Linked(rows, i))
    && (forall i, j :: 0 <= i < j < |rows| ==> Follows(rows[i], rows[j]))
  }

  ghost predicate UniqueIds(rows: seq<Row>) { forall i, j :: 0 <= i < j < |rows| ==> rows[i].id != rows[j].id }

  ghost predicate Sound(rows: seq<Row>) {
    Chained(rows) && UniqueIds(rows) && forall i :: 0 <= i < |rows| ==> rows[i].unitCost >= 0
  }

  lemma {:induction false} OpenFromFinds(rows: seq<Row>, e: Entry, n: nat, i: nat)
    requires Chained(rows) && i < n <= |rows| && IsOpen(rows[i], e)
    ensures OpenFrom(rows, e, n) == Some(rows[i].effectiveFrom)
  {
    if n - 1 > i {
      OpenFromFinds(rows, e, n - 1, i);
    } else {
      NoneOpenBefore(rows, e, i, i);
    }
  }

  lemma {:induction false} NoneOpenBefore(rows: seq<Row>, e: Entry, n: nat, i: nat)
    requires Chained(rows) && n <= i < |rows| && IsOpen(rows[i], e)
    ensures OpenFrom(rows, e, n) == None
  {
    if n > 0 {
      NoneOpenBefore(rows, e, n - 1, i);
      assert SameKey(rows[n-1], rows[i]) || !OfKey(rows[n-1], e);
    }
  }

  lemma ClosingIsEarlier(rows: seq<Row>, e: Entry)
    requires Chained(rows) && OutcomeOf(rows, e).Recorded?
    ensures forall i :: 0 <= i < |rows| && IsOpen(rows[i], e) ==> rows[i].effectiveFrom < e.effectiveFrom
  {
    hide Chained, IsOpen;
    forall i | 0 <= i < |rows| && IsOpen(rows[i], e) ensures rows[i].effectiveFrom < e.effectiveFrom {
      OpenFromFinds(rows, e, |rows|, i);
    }
  }

  lemma ClosedFacts(r: Row, e: Entry)
    ensures var q := CloseFor(e)(r);
      && q.id == r.id && q.unitCost == r.unitCost && q.effectiveFrom == r.effectiveFrom && SameKey(q, r)
      && q.effectiveTo == (if IsOpen(r, e) then Some(e.effectiveFrom) else r.effectiveTo)
  {
  }

  lemma NextStays(rows: seq<Row>, e: Entry, i: nat)
    requires i < |rows| && rows[i].effectiveTo.Some? && HasNext(rows, i)
    ensures HasNext(Extended(rows, e), i)
  {
    hide Extended;
    var after := Extended(rows, e);
    var j :| i < j < |rows| && SameKey(rows[i], rows[j]) && rows[i].effectiveTo == Some(rows[j].effectiveFrom);
    assert after[i] == CloseFor(e)(rows[i]) && after[j] == CloseFor(e)(rows[j]);
    ClosedFacts(rows[i], e);
    ClosedFacts(rows[j], e);
    assert SameKey(after[i], after[j]);
  }

  lemma NextIsNew(rows: seq<Row>, e: Entry, i: nat)
    requires i < |rows| && IsOpen(rows[i], e)
    ensures HasNext(Extended(rows, e), i)
  {
    hide Extended;
    var after := Extended(rows, e);
    assert after[i] == CloseFor(e)(rows[i]) && after[|rows|] == Opened(e);
    assert SameKey(after[i], after[|rows|]) && after[i].effectiveTo == Some(after[|rows|].effectiveFrom);
  }

  /** The whole chain of a key lies before any instant its open window starts before. */
  lemma {:induction false} KeyEndsBy(rows: seq<Row>, i: nat, e: Entry)
    requires Chained(rows) && i < |rows| && OfKey(rows[i], e)
    requires forall j :: 0 <= j < |rows| && IsOpen(rows[j], e) ==> rows[j].effectiveFrom < e.effectiveFrom
    ensures rows[i].effectiveFrom < e.effectiveFrom
    ensures rows[i].effectiveTo.Some? ==> rows[i].effectiveTo.value < e.effectiveFrom
    decreases |rows| - i
  {
    hide Follows;
    if rows[i].effectiveTo.Some? {
      assert Linked(rows, i);
      var j :| i < j < |rows| && SameKey(rows[i], rows[j]) && rows[i].effectiveTo == Some(rows[j].effectiveFrom);
      KeyEndsBy(rows, j, e);
    }
  }

  lemma StaysLinked(rows: seq<Row>, e: Entry, i: nat)
    requires i < |rows| && Linked(rows, i) && (IsOpen(rows[i], e) ==> rows[i].effectiveFrom < e.effectiveFrom)
    ensures Linked(Extended(rows, e), i)
  {
    hide Extended, HasNext;
    ClosedFacts(rows[i], e);
    if rows[i].effectiveTo.Some? {
      NextStays(rows, e, i);
    } else if IsOpen(rows[i], e) {
      NextIsNew(rows, e, i);
    }
  }

  lemma StaysBehind(rows: seq<Row>, e: Entry, i: nat)
    requires Chained(rows) && i < |rows|
    requires forall j :: 0 <= j < |rows| && IsOpen(rows[j], e) ==> rows[j].effectiveFrom < e.effectiveFrom
    ensures Follows(CloseFor(e)(rows[i]), Opened(e))
  {
    hide Chained;
    ClosedFacts(rows[i], e);
    if OfKey(rows[i], e) { KeyEndsBy(rows, i, e); }
  }

  lemma StaysInOrder(r: Row, s: Row, e: Entry)
    requires Follows(r, s)
    ensures Follows(CloseFor(e)(r), CloseFor(e)(s))
  {
  }

  lemma RecordKeepsChained(rows: seq<Row>, e: Entry)
    requires Chained(rows) && forall i :: 0 <= i < |rows| && IsOpen(rows[i], e) ==> rows[i].effectiveFrom < e.effectiveFrom
    ensures Chained(Extended(rows, e))
  {
    hide Extended, Linked, Follows, IsOpen, CloseFor, Opened;
    var after, n := Extended(rows, e), |rows|;
    forall i | 0 <= i < |after| ensures Linked(after, i) {
      if i < n { StaysLinked(rows, e, i); } else { LastIsLinked(rows, e); }
    }
    forall i, j | 0 <= i < j < |after| ensures Follows(after[i], after[j]) {
      if j < n { StaysInOrder(rows[i], rows[j], e); } else { StaysBehind(rows, e, i); }
    }
  }

  lemma LastIsLinked(rows: seq<Row>, e: Entry)
    ensures Linked(Extended(rows, e), |rows|)
  {
    hide Extended;
  }

  /** Recording keeps every chain contiguous, disjoint, strictly ordered, and open at its end only. */
  lemma RecordKeepsSound(rows: seq<Row>, e: Entry)
    requires Sound(rows)
    ensures Sound(AfterRecord(rows, e))
  {
    hide Extended, Chained, OpenFrom, CloseFor;
    if OutcomeOf(rows, e).Recorded? {
      ClosingIsEarlier(rows, e);
      RecordKeepsChained(rows, e);
      forall i | 0 <= i < |rows|
        ensures CloseFor(e)(rows[i]).id == rows[i].id && CloseFor(e)(rows[i]).unitCost == rows[i].unitCost
      {
        ClosedFacts(rows[i], e);
      }
    }
  }

  // ------------------------------------------------------------ the repository

  /** What the two first-write-wins maps hold after a walk over the rows. */
  ghost predicate FirstWins(m: map<string, Row>, rows: seq<Row>, test: string -> Row -> bool) {
    forall k :: (if k in m then First(rows, test(k)) == Some(m[k]) else First(rows, test(k)) == None)
  }

  lemma {:induction false} FirstSnoc(rows: seq<Row>, r: Row, p: Row -> bool)
    ensures First(rows + [r], p) == OrElse(First(rows, p), if p(r) then Some(r) else None)
  {
    if rows == [] {
      assert [r][1..] == [];
    } else {
      assert (rows + [r])[1..] == rows[1..] + [r];
      FirstSnoc(rows[1..], r, p);
    }
  }

  class CostHistoryRepository {
    var rows: seq<Row>

    ghost predicate Valid() reads this { Sound(rows) }

    constructor ()
      ensures Valid() && rows == []
    {
      rows := [];
    }

    method FindOpen(e: Entry) returns (openFrom: Option<int>)
      ensures openFrom == OpenFrom(rows, e, |rows|)
    {
      openFrom := None;
      for i := 0 to |rows|
        invariant openFrom == OpenFrom(rows, e, i)
      {
        if openFrom.None? && IsOpen(rows[i], e) { openFrom := Some(rows[i].effectiveFrom); }
      }
    }

    /** Closes whatever was open for the key and opens the new window, or changes nothing. */
    method Record(e: Entry) returns (outcome: Outcome)
      requires Valid()
      modifies this
      ensures Valid() && rows == AfterRecord(old(rows), e)
      ensures outcome == OutcomeOf(old(rows), e)
    {
      hide Sound;
      RecordKeepsSound(rows, e);
      var openFrom := FindOpen(e);
      if openFrom.Some? && openFrom.value >= e.effectiveFrom { return Backdated(openFrom.value); }
      if IdTaken(rows, e.id) || e.unitCost < 0 { return Refused; }
      rows := Map(CloseFor(e), rows);
      rows := rows + [Opened(e)];
      return Recorded;
    }

    method ResolveAsOf(storeId: string, keys: seq<KeyRef>, at: int) returns (resolved: seq<ResolvedCost>)
      ensures resolved == Resolution(rows, storeId, keys, at)
    {
      hide First, RowKey, HasSku, Sort, Filter, ProductKey;
      if |keys| == 0 { return []; }
      var current := Current(rows, storeId, at);
      var byProductKey, bySku := IndexCurrent(current);
      resolved := [];
      for i := 0 to |keys|
        invariant resolved == ResolveUpTo(current, keys, i)
      {
        var wanted := keys[i];
        var key, productLevel := ProductKey(wanted.productId, wanted.variantId), ProductKey(wanted.productId, None);
        if key in byProductKey {
          resolved := resolved + [Resolved(byProductKey[key], wanted)];
        } else if productLevel in byProductKey {
          resolved := resolved + [Resolved(byProductKey[productLevel], wanted)];
        } else if wanted.sku.Some? && wanted.sku.value in bySku {
          resolved := resolved + [Resolved(bySku[wanted.sku.value], wanted)];
        }
      }
    }

    /** Builds both maps in one pass; a key that is already taken keeps the row that took it. */
    method IndexCurrent(current: seq<Row>) returns (byProductKey: map<string, Row>, bySku: map<string, Row>)
      ensures FirstWins(byProductKey, current, KeyIs)
      ensures FirstWins(bySku, current, SkuIs)
    {
      hide First, RowKey, HasSku;
      byProductKey, bySku := map[], map[];
      FirstOfNone();
      for i := 0 to |current|
        invariant FirstWins(byProductKey, current[..i], KeyIs)
        invariant FirstWins(bySku, current[..i], SkuIs)
      {
        var row := current[i];
        assert current[..i+1] == current[..i] + [row];
        forall k ensures First(current[..i+1], KeyIs(k))
            == OrElse(First(current[..i], KeyIs(k)), if KeyIs(k)(row) then Some(row) else None) {
          FirstSnoc(current[..i], row, KeyIs(k));
        }
        forall k ensures First(current[..i+1], SkuIs(k))
            == OrElse(First(current[..i], SkuIs(k)), if SkuIs(k)(row) then Some(row) else None) {
          FirstSnoc(current[..i], row, SkuIs(k));
        }
        if RowKey(row) !in byProductKey { byProductKey := byProductKey[RowKey(row) := row]; }
        if HasSku(row) {
          SkuPresent(row);
          if row.sku.value !in bySku { bySku := bySku[row.sku.value := row]; }
        }
      }
      assert current[..|current|] == current;
    }
  }

  lemma SkuPresent(r: Row)
    requires HasSku(r)
    ensures r.sku.Some?
  {
  }

  lemma FirstOfNone()
    ensures forall p :: First([], p) == None
  {
  }
}
