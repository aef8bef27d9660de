/** A correction today cannot change an answer about the past, and does change the present. */
module CostHistoryLaws {
  import opened Prelude
  import opened Sequences
  import opened Sorting
  import opened Domain
  import opened Cogs
  import opened CostHistory
  import Text

  // ------------------------------------------- rewriting what an answer ignores

  lemma {:induction false} FilterOfMap(p: Row -> bool, f: Row -> Row, xs: seq<Row>)
    requires forall x :: x in xs ==> p(f(x)) == p(x)
    ensures Filter(p, Map(f, xs)) == Map(f, Filter(p, xs))
  {
    if xs != [] {
      FilterOfMap(p, f, xs[1..]);
      assert Map(f, xs)[1..] == Map(f, xs[1..]);
      MapOfCons(f, xs[0], Filter(p, xs[1..]));
    }
  }

  lemma MapOfCons(f: Row -> Row, x: Row, xs: seq<Row>)
    ensures Map(f, [x] + xs) == [f(x)] + Map(f, xs)
    ensures [x] + xs != [] && ([x] + xs)[1..] == xs
  {
  }

  lemma {:induction false} InsertOfMap(f: Row -> Row, x: Row, xs: seq<Row>)
    requires forall a, b :: NewestFirst(f(a), f(b)) == NewestFirst(a, b)
    ensures Insert(NewestFirst, f(x), Map(f, xs)) == Map(f, Insert(NewestFirst, x, xs))
  {
    hide NewestFirst;
    if xs == [] {
    } else if NewestFirst(x, xs[0]) {
      MapOfCons(f, x, xs);
    } else {
      assert Map(f, xs)[1..] == Map(f, xs[1..]);
      InsertOfMap(f, x, xs[1..]);
      MapOfCons(f, xs[0], Insert(NewestFirst, x, xs[1..]));
    }
  }

  lemma {:induction false} SortOfMap(f: Row -> Row, xs: seq<Row>)
    requires forall a, b :: NewestFirst(f(a), f(b)) == NewestFirst(a, b)
    ensures Sort(NewestFirst, Map(f, xs)) == Map(f, Sort(NewestFirst, xs))
  {
    hide NewestFirst;
    if xs != [] {
      assert Map(f, xs)[1..] == Map(f, xs[1..]);
      SortOfMap(f, xs[1..]);
      InsertOfMap(f, xs[0], Sort(NewestFirst, xs[1..]));
    }
  }

  lemma {:induction false} FirstOfMap(f: Row -> Row, xs: seq<Row>, p: Row -> bool)
    requires forall x :: p(f(x)) == p(x)
    ensures First(Map(f, xs), p) == (if First(xs, p).Some? then Some(f(First(xs, p).value)) else None)
  {
    if xs != [] {
      assert Map(f, xs)[1..] == Map(f, xs[1..]);
      FirstOfMap(f, xs[1..], p);
    }
  }

  /** Closing a window changes nothing a lookup reads but the end of the window. */
  lemma ClosingIsInvisible(e: Entry)
    ensures forall a, b :: NewestFirst(CloseFor(e)(a), CloseFor(e)(b)) == NewestFirst(a, b)
    ensures forall k, x :: KeyIs(k)(CloseFor(e)(x)) == KeyIs(k)(x)
    ensures forall k, x :: SkuIs(k)(CloseFor(e)(x)) == SkuIs(k)(x)
    ensures forall x, w :: Resolved(CloseFor(e)(x), w) == Resolved(x, w)
  {
    hide ProductKey;
  }

  /** Before the new window starts, the same rows are in their windows. */
  lemma WindowsBefore(e: Entry, storeId: string, at: int, x: Row)
    requires at < e.effectiveFrom
    ensures Applies(storeId, at)(CloseFor(e)(x)) == Applies(storeId, at)(x)
    ensures !Applies(storeId, at)(Opened(e))
  {
  }

  lemma {:induction false} FilterSnoc(p: Row -> bool, xs: seq<Row>, x: Row)
    requires !p(x)
    ensures Filter(p, xs + [x]) == Filter(p, xs)
  {
    if xs == [] {
      assert [x][1..] == [];
    } else {
      assert (xs + [x])[1..] == xs[1..] + [x];
      FilterSnoc(p, xs[1..], x);
    }
  }

  lemma CurrentBefore(rows: seq<Row>, e: Entry, storeId: string, at: int)
    requires at < e.effectiveFrom
    ensures Current(Extended(rows, e), storeId, at) == Map(CloseFor(e), Current(rows, storeId, at))
  {
    hide CloseFor, Opened, Applies, NewestFirst, KeyIs, SkuIs, Resolved;
    var p, f := Applies(storeId, at), CloseFor(e);
    ClosingIsInvisible(e);
    forall x | x in rows ensures p(f(x)) == p(x) { WindowsBefore(e, storeId, at, x); }
    WindowsBefore(e, storeId, at, Opened(e));
    FilterSnoc(p, Map(f, rows), Opened(e));
    FilterOfMap(p, f, rows);
    SortOfMap(f, Filter(p, rows));
  }

  lemma LookupOfMap(current: seq<Row>, e: Entry, wanted: KeyRef)
    ensures var row, moved := Lookup(current, wanted), Lookup(Map(CloseFor(e), current), wanted);
      moved == (if row.Some? then Some(CloseFor(e)(row.value)) else None)
  {
    hide CloseFor, KeyIs, SkuIs, NewestFirst, First, ProductKey, Resolved;
    ClosingIsInvisible(e);
    FirstOfMap(CloseFor(e), current, KeyIs(ProductKey(wanted.productId, wanted.variantId)));
    FirstOfMap(CloseFor(e), current, KeyIs(ProductKey(wanted.productId, None)));
    if wanted.sku.Some? { FirstOfMap(CloseFor(e), current, SkuIs(wanted.sku.value)); }
  }

  lemma {:induction false} ResolveOfMap(current: seq<Row>, e: Entry, keys: seq<KeyRef>, n: nat)
    requires n <= |keys|
    ensures ResolveUpTo(Map(CloseFor(e), current), keys, n) == ResolveUpTo(current, keys, n)
  {
    hide CloseFor, Lookup, Resolved, KeyIs, SkuIs, NewestFirst;
    if n > 0 {
      ResolveOfMap(current, e, keys, n - 1);
      LookupOfMap(current, e, keys[n-1]);
      ClosingIsInvisible(e);
    }
  }

  /** Whatever is recorded as of an instant, every answer about an earlier instant is the same, for every list of keys. */
  lemma PastCannotChange(rows: seq<Row>, e: Entry, storeId: string, keys: seq<KeyRef>, at: int)
    requires at < e.effectiveFrom
    ensures Resolution(AfterRecord(rows, e), storeId, keys, at) == Resolution(rows, storeId, keys, at)
  {
    hide Extended, OutcomeOf, Current, ResolveUpTo, CloseFor;
    CurrentBefore(rows, e, storeId, at);
    ResolveOfMap(Current(rows, storeId, at), e, keys, |keys|);
  }

  function RecordAll(rows: seq<Row>, entries: seq<Entry>, n: nat): seq<Row>
    requires n <= |entries|
  {
    if n == 0 then rows else AfterRecord(RecordAll(rows, entries, n - 1), entries[n-1])
  }

  /** Over any run of recordings effective after an instant, answers about that instant never change and chains stay sound. */
  lemma {:induction false} PastNeverChanges(rows: seq<Row>, entries: seq<Entry>, n: nat, storeId: string,
        keys: seq<KeyRef>, at: int)
    requires n <= |entries| && Sound(rows)
    requires forall k :: 0 <= k < n ==> at < entries[k].effectiveFrom
    ensures Resolution(RecordAll(rows, entries, n), storeId, keys, at) == Resolution(rows, storeId, keys, at)
    ensures Sound(RecordAll(rows, entries, n))
  {
    hide AfterRecord, Resolution, Sound;
    if n > 0 {
      PastNeverChanges(rows, entries, n - 1, storeId, keys, at);
      var before := RecordAll(rows, entries, n - 1);
      RecordKeepsSound(before, entries[n-1]);
      PastCannotChange(before, entries[n-1], storeId, keys, at);
    }
  }

  // ------------------------------------------------------ exactly one window

  /** No two windows of one key hold the same instant. */
  lemma AtMostOneWindow(rows: seq<Row>, i: nat, j: nat, at: int)
    requires Chained(rows) && i < |rows| && j < |rows| && SameKey(rows[i], rows[j])
    ensures InWindow(rows[i], at) && InWindow(rows[j], at) ==> i == j
  {
    if i < j {
      assert Follows(rows[i], rows[j]);
    } else if j < i {
      assert Follows(rows[j], rows[i]);
    }
  }

  /** From a key's first window on, every instant is in one of its windows. */
  lemma {:induction false} NoGaps(rows: seq<Row>, i: nat, at: int) returns (j: nat)
    requires Chained(rows) && i < |rows| && rows[i].effectiveFrom <= at
    ensures j < |rows| && SameKey(rows[i], rows[j]) && InWindow(rows[j], at)
    decreases |rows| - i
  {
    if InWindow(rows[i], at) {
      j := i;
    } else {
      assert Linked(rows, i);
      var next :| i < next < |rows| && SameKey(rows[i], rows[next]) && rows[i].effectiveTo == Some(rows[next].effectiveFrom);
      j := NoGaps(rows, next, at);
    }
  }

  lemma {:induction false} FirstIsThere(rows: seq<Row>, p: Row -> bool)
    ensures First(rows, p).Some? ==> First(rows, p).value in rows && p(First(rows, p).value)
    ensures First(rows, p).None? ==> forall r :: r in rows ==> !p(r)
  {
    if rows != [] {
      FirstIsThere(rows[1..], p);
    }
  }

  lemma CurrentHolds(rows: seq<Row>, storeId: string, at: int)
    ensures forall r :: r in Current(rows, storeId, at) <==> r in rows && r.storeId == storeId && InWindow(r, at)
  {
    hide NewestFirst, InWindow;
    var found := Filter(Applies(storeId, at), rows);
    SortPermutes(NewestFirst, found);
    SameLength(Sort(NewestFirst, found), found);
  }

  lemma NewestFirstOrders()
    ensures TotalPreorder(NewestFirst)
  {
    Text.Order();
  }

  lemma CurrentIsSorted(rows: seq<Row>, storeId: string, at: int)
    ensures SortedBy(NewestFirst, Current(rows, storeId, at))
  {
    NewestFirstOrders();
    SortSorts(NewestFirst, Filter(Applies(storeId, at), rows));
  }

  /** In a sorted list, what is found first comes before everything else that would do. */
  lemma {:induction false} FirstComesFirst(rows: seq<Row>, p: Row -> bool)
    requires SortedBy(NewestFirst, rows) && First(rows, p).Some?
    ensures forall r :: r in rows && p(r) ==> NewestFirst(First(rows, p).value, r)
  {
    if p(rows[0]) {
      Text.Irreflexive(rows[0].id);
      forall r | r in rows && p(r) ensures NewestFirst(rows[0], r) {
        var i :| 0 <= i < |rows| && rows[i] == r;
      }
    } else {
      FirstComesFirst(rows[1..], p);
    }
  }

  /** Of the store's rows current at the instant, none that writes the row's key text sorts before it. */
  ghost predicate Unbeaten(rows: seq<Row>, storeId: string, at: int, row: Row) {
    forall r :: r in rows && r.storeId == storeId && InWindow(r, at) && RowKey(r) == RowKey(row) ==> NewestFirst(row, r)
  }

  /**
   * The window of a wanted product that holds the instant is what its key resolves to if and only
   * if no current row of the store with the same key text sorts before it. Rows of the product
   * itself never do: only another product that writes the same text can.
   */
  lemma ResolvesToTheWindow(rows: seq<Row>, storeId: string, wanted: KeyRef, at: int, i: nat)
    requires Sound(rows) && i < |rows| && InWindow(rows[i], at)
    requires rows[i].storeId == storeId && rows[i].productId == wanted.productId && rows[i].variantId == wanted.variantId
    ensures Lookup(Current(rows, storeId, at), wanted) == Some(rows[i]) <==> Unbeaten(rows, storeId, at, rows[i])
    ensures forall j :: 0 <= j < |rows| && SameKey(rows[i], rows[j]) && InWindow(rows[j], at) ==> j == i
  {
    hide Current, InWindow, ProductKey, First, Chained, NewestFirst;
    var p := KeyIs(ProductKey(wanted.productId, wanted.variantId));
    var current := Current(rows, storeId, at);
    CurrentHolds(rows, storeId, at);
    CurrentIsSorted(rows, storeId, at);
    FirstIsThere(current, p);
    assert rows[i] in current && p(rows[i]);
    FirstComesFirst(current, p);
    var found := First(current, p).value;
    if Unbeaten(rows, storeId, at, rows[i]) { EachFirst(rows, rows[i], found); }
    forall j | 0 <= j < |rows| && SameKey(rows[i], rows[j]) && InWindow(rows[j], at) ensures j == i {
      AtMostOneWindow(rows, i, j, at);
    }
  }

  /** Rows that each sort before the other are the same row. */
  lemma EachFirst(rows: seq<Row>, a: Row, b: Row)
    requires UniqueIds(rows) && a in rows && b in rows && NewestFirst(a, b) && NewestFirst(b, a)
    ensures a == b
  {
    Text.Trichotomy(a.id, b.id);
  }

  /** Once recorded, a cost is what its key resolves to from its start on, if and only if no other product's row beats it to the key text. */
  lemma PresentIsNew(rows: seq<Row>, e: Entry, sku: Option<string>, at: int)
    requires Sound(rows) && OutcomeOf(rows, e).Recorded? && e.effectiveFrom <= at
    ensures Resolution(AfterRecord(rows, e), e.storeId, [KeyRef(e.productId, e.variantId, sku)], at)
         == [ResolvedCost(e.productId, e.variantId, sku, e.unitCost, e.source, e.id)]
      <==> Unbeaten(AfterRecord(rows, e), e.storeId, at, Opened(e))
  {
    hide Extended, OutcomeOf, Current, Sound, Unbeaten, Lookup;
    var after, wanted := AfterRecord(rows, e), KeyRef(e.productId, e.variantId, sku);
    RecordKeepsSound(rows, e);
    assert after[|rows|] == Opened(e);
    ResolvesToTheWindow(after, e.storeId, wanted, at, |rows|);
    var current := Current(after, e.storeId, at);
    assert ResolveUpTo(current, [wanted], 0) == [];
    assert ResolveUpTo(current, [wanted], 1) == if Lookup(current, wanted).Some?
        then [Resolved(Lookup(current, wanted).value, wanted)] else [];
    LookupIsARow(after, e.storeId, at, wanted);
    OneOfId(after, |rows|);
  }

  lemma LookupIsARow(rows: seq<Row>, storeId: string, at: int, wanted: KeyRef)
    ensures var r := Lookup(Current(rows, storeId, at), wanted); r.Some? ==> r.value in rows
  {
    hide Current, InWindow, ProductKey, First, NewestFirst, KeyIs, SkuIs;
    var current := Current(rows, storeId, at);
    CurrentHolds(rows, storeId, at);
    FirstIsThere(current, KeyIs(ProductKey(wanted.productId, wanted.variantId)));
    FirstIsThere(current, KeyIs(ProductKey(wanted.productId, None)));
    if wanted.sku.Some? { FirstIsThere(current, SkuIs(wanted.sku.value)); }
  }

  lemma OneOfId(rows: seq<Row>, i: nat)
    requires Sound(rows) && i < |rows|
    ensures forall r :: r in rows && r.id == rows[i].id ==> r == rows[i]
  {
    hide Chained;
  }

  // -------------------------------------------------------- which row answers

  /** The rows a question about the store and the instant may be answered with. */
  ghost predicate InForce(rows: seq<Row>, storeId: string, at: int, r: Row) {
    r in rows && r.storeId == storeId && r.effectiveFrom <= at && (r.effectiveTo.Some? ==> at < r.effectiveTo.value)
  }

  /** Rows whose product and variant are written as the given ones are; no variant is written as nothing. */
  ghost function Writing(productId: string, variantId: Option<string>): Row -> bool {
    (r: Row) => r.productId + "|" + (if r.variantId.Some? then r.variantId.value else "")
             == productId + "|" + (if variantId.Some? then variantId.value else "")
  }

  ghost function Stocked(sku: Option<string>): Row -> bool {
    (r: Row) => sku.Some? && sku.value != "" && r.sku == sku
  }

  ghost predicate Offers(rows: seq<Row>, storeId: string, at: int, has: Row -> bool) {
    exists r :: InForce(rows, storeId, at, r) && has(r)
  }

  /** Of the rows in force that have the property, r started last and, of those that started with it, has the first id. */
  ghost predicate Newest(rows: seq<Row>, storeId: string, at: int, has: Row -> bool, r: Row) {
    && InForce(rows, storeId, at, r) && has(r)
    && (forall s :: InForce(rows, storeId, at, s) && has(s) ==>
          s.effectiveFrom < r.effectiveFrom || (s.effectiveFrom == r.effectiveFrom && (s.id == r.id || Text.Lt(r.id, s.id))))
  }

  ghost predicate AnsweredBy(rows: seq<Row>, storeId: string, at: int, wanted: KeyRef, has: Row -> bool,
        c: Option<ResolvedCost>) {
    exists r :: Newest(rows, storeId, at, has, r)
      && c == Some(ResolvedCost(wanted.productId, wanted.variantId, wanted.sku, r.unitCost, r.source, r.id))
  }

  /** The product with its variant answers first, then the product without one, then the non-empty SKU, else nothing. */
  ghost predicate Answers(rows: seq<Row>, storeId: string, at: int, wanted: KeyRef, c: Option<ResolvedCost>) {
    var exact, product, sku := Writing(wanted.productId, wanted.variantId), Writing(wanted.productId, None), Stocked(wanted.sku);
    if Offers(rows, storeId, at, exact) then AnsweredBy(rows, storeId, at, wanted, exact, c)
    else if Offers(rows, storeId, at, product) then AnsweredBy(rows, storeId, at, wanted, product, c)
    else if Offers(rows, storeId, at, sku) then AnsweredBy(rows, storeId, at, wanted, sku, c)
    else c.None?
  }

  /** What the first row of the current ones is, in terms of the table. */
  lemma FirstIsNewest(rows: seq<Row>, storeId: string, at: int, p: Row -> bool, has: Row -> bool)
    requires forall r :: p(r) <==> has(r)
    ensures var first := First(Current(rows, storeId, at), p);
      && (first.Some? <==> Offers(rows, storeId, at, has))
      && (first.Some? ==> Newest(rows, storeId, at, has, first.value))
  {
    hide Current, First;
    var current := Current(rows, storeId, at);
    CurrentHolds(rows, storeId, at);
    assert forall r :: r in current <==> InForce(rows, storeId, at, r);
    FirstIsThere(current, p);
    if First(current, p).Some? {
      CurrentIsSorted(rows, storeId, at);
      FirstComesFirst(current, p);
      Text.Order();
    }
  }

  lemma LookupAnswers(rows: seq<Row>, storeId: string, at: int, wanted: KeyRef)
    ensures var row := Lookup(Current(rows, storeId, at), wanted);
      Answers(rows, storeId, at, wanted, if row.Some? then Some(Resolved(row.value, wanted)) else None)
  {
    hide Current, First, Newest, Offers;
    FirstIsNewest(rows, storeId, at, KeyIs(ProductKey(wanted.productId, wanted.variantId)),
        Writing(wanted.productId, wanted.variantId));
    FirstIsNewest(rows, storeId, at, KeyIs(ProductKey(wanted.productId, None)), Writing(wanted.productId, None));
    if wanted.sku.Some? {
      FirstIsNewest(rows, storeId, at, SkuIs(wanted.sku.value), Stocked(wanted.sku));
    } else {
      NothingStocked(rows, storeId, at);
    }
  }

  lemma NothingStocked(rows: seq<Row>, storeId: string, at: int)
    ensures !Offers(rows, storeId, at, Stocked(None))
  {
  }

  /** The answers that are there, in order. */
  function Present(answers: seq<Option<ResolvedCost>>): seq<ResolvedCost> {
    if answers == [] then []
    else Present(answers[..|answers|-1]) + (if answers[|answers|-1].Some? then [answers[|answers|-1].value] else [])
  }

  lemma {:induction false} EachKeyAnswered(rows: seq<Row>, storeId: string, keys: seq<KeyRef>, at: int, n: nat)
    returns (answers: seq<Option<ResolvedCost>>)
    requires n <= |keys|
    ensures ResolveUpTo(Current(rows, storeId, at), keys, n) == Present(answers)
    ensures |answers| == n && forall k :: 0 <= k < n ==> Answers(rows, storeId, at, keys[k], answers[k])
  {
    hide Current, Lookup, Answers;
    if n == 0 {
      answers := [];
    } else {
      var before := EachKeyAnswered(rows, storeId, keys, at, n - 1);
      LookupAnswers(rows, storeId, at, keys[n-1]);
      var row := Lookup(Current(rows, storeId, at), keys[n-1]);
      answers := before + [if row.Some? then Some(Resolved(row.value, keys[n-1])) else None];
      assert answers[..n-1] == before;
    }
  }

  /**
   * Every wanted key is answered in its turn: by the newest row of its product and variant; where
   * there is none, of the product without a variant; where there is none of either, of its SKU; and
   * it is left out otherwise.
   */
  lemma ResolvesByTiers(rows: seq<Row>, storeId: string, keys: seq<KeyRef>, at: int)
    returns (answers: seq<Option<ResolvedCost>>)
    ensures Resolution(rows, storeId, keys, at) == Present(answers)
    ensures |answers| == |keys| && forall k :: 0 <= k < |keys| ==> Answers(rows, storeId, at, keys[k], answers[k])
  {
    answers := EachKeyAnswered(rows, storeId, keys, at, |keys|);
  }

  /** In a sound table the question has one answer. */
  lemma OneAnswer(rows: seq<Row>, storeId: string, at: int, wanted: KeyRef, c: Option<ResolvedCost>, d: Option<ResolvedCost>)
    requires Sound(rows) && Answers(rows, storeId, at, wanted, c) && Answers(rows, storeId, at, wanted, d)
    ensures c == d
  {
    hide Offers, Chained;
    forall has, r, s | Newest(rows, storeId, at, has, r) && Newest(rows, storeId, at, has, s) ensures r == s {
      Text.Trichotomy(r.id, s.id);
      assert r in rows && s in rows;
    }
  }

  // ------------------------------------------------ two products, one key text

  function PlainName(): Entry { Entry("1", "store", "a|b", None, None, 10, MerchantManual, 0, None) }

  function BarInVariant(): Entry { Entry("2", "store", "a", Some("b|"), None, 20, MerchantManual, 1, None) }

  lemma SameText()
    ensures ProductKey("a|b", None) == ProductKey("a", Some("b|")) == "a|b|"
    ensures RowKey(Opened(PlainName())) == RowKey(Opened(BarInVariant())) == "a|b|"
  {
    assert "a|b" + "|" == "a|b|" && "a|b|" + "" == "a|b|";
    assert "a" + "|" == "a|" && "a|" + "b|" == "a|b|";
  }

  lemma TwoWindows()
    ensures RecordAll([], [PlainName(), BarInVariant()], 2) == [Opened(PlainName()), Opened(BarInVariant())]
    ensures Sound([Opened(PlainName()), Opened(BarInVariant())])
    ensures OutcomeOf([], PlainName()).Recorded? && OutcomeOf([Opened(PlainName())], BarInVariant()).Recorded?
  {
    var x, y, entries := PlainName(), BarInVariant(), [PlainName(), BarInVariant()];
    assert RecordAll([], entries, 0) == [];
    assert OpenFrom([], x, 0).None? && AfterRecord([], x) == [Opened(x)];
    assert RecordAll([], entries, 1) == [Opened(x)];
    assert OpenFrom([Opened(x)], y, 0).None? && OpenFrom([Opened(x)], y, 1).None?;
    assert "1"[0] != "2"[0];
    assert !IdTaken([Opened(x)], y.id);
    assert Extended([Opened(x)], y)[0] == Opened(x);
    assert AfterRecord([Opened(x)], y) == [Opened(x), Opened(y)];
    RecordKeepsSound([], x);
    RecordKeepsSound([Opened(x)], y);
  }

  /**
   * Two products whose keys are written alike: product "a|b" costs 10 and variant "b|" of product
   * "a" costs 20, both windows are open, and asking for the first answers with the second.
   */
  lemma KeyTextsCollide()
    ensures var rows := RecordAll([], [PlainName(), BarInVariant()], 2);
      && Sound(rows) && !SameKey(rows[0], rows[1]) && InWindow(rows[0], 1) && !Unbeaten(rows, "store", 1, rows[0])
      && Resolution(rows, "store", [KeyRef("a|b", None, None)], 1) == [ResolvedCost("a|b", None, None, 20, MerchantManual, "2")]
  {
    hide ProductKey, Sound, RecordAll, RowKey, Current;
    var rows, wanted := [Opened(PlainName()), Opened(BarInVariant())], KeyRef("a|b", None, None);
    TwoWindows();
    SameText();
    assert rows[1] in rows && !NewestFirst(rows[0], rows[1]);
    NewestOfTwo(rows, wanted);
    var current := Current(rows, "store", 1);
    assert ResolveUpTo(current, [wanted], 0) == [];
    assert ResolveUpTo(current, [wanted], 1) == [Resolved(rows[1], wanted)];
  }

  lemma NewestOfTwo(rows: seq<Row>, wanted: KeyRef)
    requires rows == [Opened(PlainName()), Opened(BarInVariant())] && wanted == KeyRef("a|b", None, None)
    ensures Lookup(Current(rows, "store", 1), wanted) == Some(rows[1])
  {
    hide ProductKey, Sort;
    SameText();
    var current, p := Current(rows, "store", 1), KeyIs("a|b|");
    CurrentHolds(rows, "store", 1);
    CurrentIsSorted(rows, "store", 1);
    FirstIsThere(current, p);
    assert rows[1] in rows && rows[1] in current && p(rows[1]);
    FirstComesFirst(current, p);
    assert First(current, p).value in rows;
  }

  /** A correction is refused as backdated exactly when the key has an open window that does not start before it. */
  lemma BackdatedIff(rows: seq<Row>, e: Entry)
    requires Sound(rows)
    ensures OutcomeOf(rows, e).Backdated? <==> exists r :: r in rows && IsOpen(r, e) && r.effectiveFrom >= e.effectiveFrom
    ensures OutcomeOf(rows, e).Backdated? ==> AfterRecord(rows, e) == rows
  {
    hide IsOpen, Chained;
    if r :| r in rows && IsOpen(r, e) && r.effectiveFrom >= e.effectiveFrom {
      var i :| 0 <= i < |rows| && rows[i] == r;
      OpenFromFinds(rows, e, |rows|, i);
    }
    OpenFromIsOpen(rows, e, |rows|);
  }

  /** The window a recording of the entry closes. */
  ghost predicate Ongoing(r: Row, e: Entry) {
    r.storeId == e.storeId && r.productId == e.productId && r.variantId == e.variantId && r.effectiveTo == None
  }

  ghost predicate NotBefore(rows: seq<Row>, e: Entry) {
    exists r :: r in rows && Ongoing(r, e) && r.effectiveFrom >= e.effectiveFrom
  }

  ghost predicate Taken(rows: seq<Row>, e: Entry) { exists r :: r in rows && r.id == e.id }

  /**
   * A recording writes exactly when the key's open window starts before it, the id is new and the cost
   * is not negative. It then ends that window at its own start, leaves every other row as it was, and
   * appends what it was given as an open window.
   */
  lemma RecordWrites(rows: seq<Row>, e: Entry)
    requires Sound(rows)
    ensures OutcomeOf(rows, e).Recorded? <==> !NotBefore(rows, e) && !Taken(rows, e) && e.unitCost >= 0
    ensures !OutcomeOf(rows, e).Recorded? ==> AfterRecord(rows, e) == rows
    ensures OutcomeOf(rows, e).Recorded? ==> var after := AfterRecord(rows, e);
      && |after| == |rows| + 1
      && after[|rows|] == Row(e.id, e.storeId, e.productId, e.variantId, e.sku, e.unitCost, e.source,
          e.effectiveFrom, None, e.note)
      && forall i :: 0 <= i < |rows| ==>
        after[i] == if Ongoing(rows[i], e) then rows[i].(effectiveTo := Some(e.effectiveFrom)) else rows[i]
  {
    hide OpenFrom, Chained;
    BackdatedIff(rows, e);
    assert forall r :: IsOpen(r, e) <==> Ongoing(r, e);
    assert IdTaken(rows, e.id) <==> Taken(rows, e) by {
      if IdTaken(rows, e.id) {
        var i :| 0 <= i < |rows| && rows[i].id == e.id;
        assert rows[i] in rows;
      }
    }
  }

  lemma {:induction false} OpenFromIsOpen(rows: seq<Row>, e: Entry, n: nat)
    requires n <= |rows|
    ensures OpenFrom(rows, e, n).Some? ==> exists r :: r in rows && IsOpen(r, e) && r.effectiveFrom == OpenFrom(rows, e, n).value
  {
    hide IsOpen;
    if n > 0 {
      OpenFromIsOpen(rows, e, n - 1);
      assert rows[n-1] in rows;
    }
  }
}
