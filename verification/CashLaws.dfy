/**
 * The cash-on-delivery term leg by leg and carrier by carrier: how the cash is split, which row of
 * the card prices each part and at what fee, and what is remarked on.
 */
module CashLaws {
  import opened Prelude
  import opened Sequences
  import opened Sums
  import opened Money
  import opened Domain
  import opened Choice
  import opened Sorting
  import opened Fee
  import opened Allocation
  import opened Splits
  import Allocator
  import TermLaws
  import Text
  import Cod = CashOnDelivery

  // --------------------------------------------------------------- the carriers

  /** Carried a parcel that travelled towards the customer. */
  ghost predicate Travelled(shipments: seq<Shipment>, carrier: string) {
    exists s :: s in shipments && s.direction == Outbound && s.status != CancelledLabel && s.carrier == carrier
  }

  lemma {:induction false} DedupeOnce(xs: seq<string>)
    ensures Distinct(Cod.Dedupe(xs)) && forall x :: x in Cod.Dedupe(xs) <==> x in xs
  {
    if xs != [] {
      DedupeOnce(xs[..|xs|-1]);
      assert xs == xs[..|xs|-1] + [xs[|xs|-1]];
    }
  }

  /** The carriers of the live outbound legs, with repeats. */
  function CarrierNames(shipments: seq<Shipment>): seq<string> {
    Map((s: Shipment) => s.carrier, Filter((s: Shipment) => s.direction.Outbound? && Live(s.status), shipments))
  }

  lemma NamesTravelled(shipments: seq<Shipment>, c: string)
    ensures c in CarrierNames(shipments) <==> Travelled(shipments, c)
  {
    var live, names := Filter((s: Shipment) => s.direction.Outbound? && Live(s.status), shipments), CarrierNames(shipments);
    if c in names {
      var i :| 0 <= i < |names| && names[i] == c;
      assert live[i] in live;
    }
    if s :| s in shipments && s.direction == Outbound && s.status != CancelledLabel && s.carrier == c {
      var i :| 0 <= i < |live| && live[i] == s;
      assert names[i] == c;
    }
  }

  /** The carriers that travelled, each once and in text order. */
  lemma CarriersTravelled(shipments: seq<Shipment>)
    ensures var carriers := Cod.Carriers(shipments);
      && (forall c :: c in carriers <==> Travelled(shipments, c))
      && (forall i, j :: 0 <= i < j < |carriers| ==> Text.Lt(carriers[i], carriers[j]))
  {
    hide Sort, Cod.Dedupe, Travelled, Text.Lt;
    var names, carriers := CarrierNames(shipments), Cod.Carriers(shipments);
    var once := Cod.Dedupe(names);
    assert carriers == Sort(Cod.TextNotAfter, once);
    hide Cod.Carriers, CarrierNames;
    DedupeOnce(names);
    Text.Order();
    SortPermutes(Cod.TextNotAfter, once);
    SortSorts(Cod.TextNotAfter, once);
    SameLength(carriers, once);
    DistinctForgetsOrder(carriers, once);
    forall c ensures c in carriers <==> Travelled(shipments, c) { NamesTravelled(shipments, c); }
    forall i, j | 0 <= i < j < |carriers| ensures Text.Lt(carriers[i], carriers[j]) {
      assert Cod.TextNotAfter(carriers[i], carriers[j]) && carriers[i] != carriers[j];
    }
  }

  // ------------------------------------------------------------------ the posts

  /** A part of a cash leg, the row of the card it is priced by, if any, and its fee. */
  datatype Post = Post(leg: nat, amount: int, row: Option<nat>, fee: AppliedFee)

  /** A carrier's own row first, else a general one; the first of each; none only if none serves the carrier. */
  ghost predicate RightRow(rules: seq<CodRule>, carrier: Option<string>, row: Option<nat>) {
    if row.None? then forall r :: r in rules ==> r.carrier.Some? && r.carrier != carrier
    else
      && row.value < |rules|
      && (rules[row.value].carrier == None || rules[row.value].carrier == carrier)
      && (forall j :: 0 <= j < |rules| && rules[j].carrier.Some? && rules[j].carrier == carrier ==>
            rules[row.value].carrier.Some? && row.value <= j)
      && (forall j :: 0 <= j < |rules| && rules[j].carrier.None? ==> rules[row.value].carrier.Some? || row.value <= j)
  }

  ghost predicate PricedPost(rules: seq<CodRule>, carrier: Option<string>, registered: bool, post: Post) {
    && RightRow(rules, carrier, post.row)
    && if post.row.None? then post.fee == AppliedFee(0, 0, 0)
       else IsFee(post.amount, rules[post.row.value].formula, registered, post.fee)
  }

  function Zeros(n: nat): seq<int> { seq(n, _ => 0) }

  function Amounts(posts: seq<Post>): seq<int> { seq(|posts|, b requires 0 <= b < |posts| => posts[b].amount) }

  /** The cash of a leg in parts: all of it, or as even a split as there is between the carriers, in their order. */
  ghost predicate InParts(gross: int, carriers: seq<string>, posts: seq<Post>) {
    if |carriers| > 1 then |posts| == |carriers| && IsSplit(gross, carriers, Zeros(|carriers|), Amounts(posts))
    else |posts| == 1 && posts[0].amount == gross
  }

  /** Whose part it is; nobody's on an order without a carrier. */
  function CarrierAt(carriers: seq<string>, b: nat): Option<string> { if b < |carriers| then Some(carriers[b]) else None }

  /** One leg's parts, each priced for its carrier. */
  ghost predicate LegPosted(rules: seq<CodRule>, carriers: seq<string>, registered: bool, payments: seq<Payment>, i: nat,
        posts: seq<Post>)
    requires i < |payments|
  {
    && InParts(payments[i].amountGross, carriers, posts)
    && forall b :: 0 <= b < |posts| ==>
      && posts[b].leg == i
      && PricedPost(rules, CarrierAt(carriers, b), registered, posts[b])
  }

  lemma RowIsRight(rules: seq<CodRule>, carrier: Option<string>) returns (row: Option<nat>)
    ensures RightRow(rules, carrier, row)
    ensures row.None? <==> Cod.RuleFor(rules, carrier).None?
    ensures row.Some? ==> Cod.RuleFor(rules, carrier) == Some(rules[row.value])
  {
    PickIsBest(rules, Cod.Serves(carrier), Cod.CarrierScore);
    if Cod.RuleFor(rules, carrier).None? {
      row := None;
      assert forall r :: r in rules ==> !Cod.Serves(carrier)(r);
    } else {
      var i := PickPlace(rules, Cod.Serves(carrier), Cod.CarrierScore, |rules|);
      row := Some(i);
      forall j | 0 <= j < |rules| && Cod.Serves(carrier)(rules[j])
        ensures Cod.CarrierScore(rules[j]) <= Cod.CarrierScore(rules[i])
            && (j < i ==> Cod.CarrierScore(rules[j]) < Cod.CarrierScore(rules[i]))
      {
      }
    }
  }

  /** Where the row's rates come from; nothing when no row prices the part. */
  function SourceOf(rules: seq<CodRule>, post: Post): Option<FeeSource> {
    if post.row.Some? && post.row.value < |rules| then Some(rules[post.row.value].formula.source) else None
  }

  function ChargeOf(rules: seq<CodRule>, post: Post): Cod.Charge {
    var source := SourceOf(rules, post);
    Cod.Charge(post.fee, if source.None? then Missing else BasisOf(source.value))
  }

  function RemarkOf(rules: seq<CodRule>, post: Post): seq<Diagnostic> {
    var source := SourceOf(rules, post);
    if source.None? then [Diagnostic(CodFeeRuleMissing, OfPayment(post.leg))]
    else if source.value.DefaultTable? then [Diagnostic(FeeRuleDefaultUsed, OfPayment(post.leg))] else []
  }

  function ChargesOf(rules: seq<CodRule>, posts: seq<Post>): (r: seq<Cod.Charge>)
    ensures |r| == |posts| && forall b :: 0 <= b < |posts| ==> r[b] == ChargeOf(rules, posts[b])
  {
    seq(|posts|, b requires 0 <= b < |posts| => ChargeOf(rules, posts[b]))
  }

  function RemarksOf(rules: seq<CodRule>, posts: seq<Post>): seq<Diagnostic> {
    if posts == [] then [] else RemarksOf(rules, posts[..|posts|-1]) + RemarkOf(rules, posts[|posts|-1])
  }

  lemma PortionIsPost(c: Cod.Charged, rules: seq<CodRule>, carriers: seq<string>, portion: Cod.Portion, index: nat,
        registered: bool) returns (post: Post)
    requires Cod.ChargePortion(c, rules, carriers, portion, index, registered).Ok?
    ensures post.leg == index && post.amount == portion.amount
    ensures PricedPost(rules, if carriers == [] then None else Some(portion.carrier), registered, post)
    ensures Cod.ChargePortion(c, rules, carriers, portion, index, registered).value
         == Cod.Charged(c.applied + [ChargeOf(rules, post)], c.diagnostics + RemarkOf(rules, post))
  {
    hide ApplyFee, Cod.RuleFor, IsFee;
    var carrier := if carriers == [] then None else Some(portion.carrier);
    var row := RowIsRight(rules, carrier);
    var after := Cod.ChargePortion(c, rules, carriers, portion, index, registered).value;
    var fee := after.applied[|c.applied|].fee;
    post := Post(index, portion.amount, row, fee);
    if row.Some? { FeeIsTheCards(portion.amount, rules[row.value].formula, registered); }
  }

  lemma PostJoins(rules: seq<CodRule>, before: seq<Post>, post: Post)
    ensures ChargesOf(rules, before + [post]) == ChargesOf(rules, before) + [ChargeOf(rules, post)]
    ensures RemarksOf(rules, before + [post]) == RemarksOf(rules, before) + RemarkOf(rules, post)
  {
    hide RemarkOf, ChargeOf;
    var posts := before + [post];
    assert posts[..|posts|-1] == before;
  }

  lemma Regroup<T>(a: seq<T>, b: seq<T>, c: seq<T>)
    ensures (a + b) + c == a + (b + c)
  {
  }

  lemma LastApart<T>(xs: seq<T>)
    requires xs != []
    ensures xs == xs[..|xs|-1] + [xs[|xs|-1]]
  {
  }

  lemma {:induction false} ListsJoin(rules: seq<CodRule>, before: seq<Post>, more: seq<Post>)
    ensures ChargesOf(rules, before + more) == ChargesOf(rules, before) + ChargesOf(rules, more)
    ensures RemarksOf(rules, before + more) == RemarksOf(rules, before) + RemarksOf(rules, more)
    decreases |more|
  {
    if more == [] {
      assert before + more == before;
    } else {
      hide ChargesOf, RemarksOf, RemarkOf, ChargeOf;
      var init, last := more[..|more|-1], more[|more|-1];
      ListsJoin(rules, before, init);
      LastApart(more);
      Regroup(before, init, [last]);
      PostJoins(rules, before + init, last);
      PostJoins(rules, init, last);
      Regroup(ChargesOf(rules, before), ChargesOf(rules, init), [ChargeOf(rules, last)]);
      Regroup(RemarksOf(rules, before), RemarksOf(rules, init), RemarkOf(rules, last));
    }
  }

  /** The portions of a leg become its posts, one each and in order. */
  lemma {:induction false} PortionsArePosts(c: Cod.Charged, rules: seq<CodRule>, carriers: seq<string>,
        portions: seq<Cod.Portion>, index: nat, registered: bool, n: nat) returns (posts: seq<Post>)
    requires n <= |portions| && Cod.ChargePortions(c, rules, carriers, portions, index, registered, n).Ok?
    ensures |posts| == n && forall b :: 0 <= b < n ==> posts[b].leg == index && posts[b].amount == portions[b].amount
    ensures forall b :: 0 <= b < n ==> PricedPost(rules, if carriers == [] then None
        else Some(portions[b].carrier), registered, posts[b])
    ensures Cod.ChargePortions(c, rules, carriers, portions, index, registered, n).value
         == Cod.Charged(c.applied + ChargesOf(rules, posts), c.diagnostics + RemarksOf(rules, posts))
  {
    hide Cod.ChargePortion, PricedPost, ChargesOf, RemarkOf, ChargeOf;
    if n == 0 {
      posts := [];
    } else {
      var before := PortionsArePosts(c, rules, carriers, portions, index, registered, n - 1);
      var mid := Cod.ChargePortions(c, rules, carriers, portions, index, registered, n - 1).value;
      var post := PortionIsPost(mid, rules, carriers, portions[n-1], index, registered);
      posts := before + [post];
      PostJoins(rules, before, post);
      assert (c.applied + ChargesOf(rules, before)) + [ChargeOf(rules, post)] == c.applied + ChargesOf(rules, posts);
    }
  }

  lemma EvenSplit(gross: int, carriers: seq<string>)
    requires |carriers| > 1 && Cod.PortionsOf(gross, carriers).Ok?
    ensures var portions := Cod.PortionsOf(gross, carriers).value;
      && |portions| == |carriers| && (forall b :: 0 <= b < |carriers| ==> portions[b].carrier == carriers[b])
      && IsSplit(gross, carriers, Zeros(|carriers|), TermLaws.PortionAmounts(portions))
  {
    hide Allocate, IsSplit, Distinct;
    var buckets := Cod.EvenBuckets(carriers);
    Allocator.AllocateHolds(gross, buckets);
    TermLaws.EvenKeys(carriers);
    SharesSplit(gross, buckets);
    assert WeightsOf(buckets) == Zeros(|carriers|);
    var portions, shares := Cod.PortionsOf(gross, carriers).value, Allocate(gross, buckets).value;
    forall b | 0 <= b < |carriers| ensures portions[b].amount
        == Shares(gross, buckets)[b] { assert buckets[b].key == carriers[b]; }
    assert TermLaws.PortionAmounts(portions) == Shares(gross, buckets);
  }

  lemma LegIsPosts(c: Cod.Charged, rules: seq<CodRule>, carriers: seq<string>, payments: seq<Payment>, index: nat,
        registered: bool) returns (posts: seq<Post>)
    requires index < |payments| && Cod.IsCashLeg(payments[index])
    requires Cod.ChargeLeg(c, rules, carriers, payments[index], index, registered).Ok?
    ensures LegPosted(rules, carriers, registered, payments, index, posts)
    ensures Cod.ChargeLeg(c, rules, carriers, payments[index], index, registered).value
         == Cod.Charged(c.applied + ChargesOf(rules, posts), c.diagnostics + RemarksOf(rules, posts))
  {
    hide Cod.ChargePortions, PricedPost, IsSplit, ChargesOf, RemarksOf, Allocate;
    var gross := payments[index].amountGross;
    var portions := Cod.PortionsOf(gross, carriers).value;
    posts := PortionsArePosts(c, rules, carriers, portions, index, registered, |portions|);
    if |carriers| > 1 {
      EvenSplit(gross, carriers);
      assert Amounts(posts) == TermLaws.PortionAmounts(portions);
    }
  }

  /** The lists one after the other. */
  function Flat(lists: seq<seq<Post>>): seq<Post> {
    if lists == [] then [] else Flat(lists[..|lists|-1]) + lists[|lists|-1]
  }

  ghost predicate IsCash(p: Payment) { p.instrument == Cod && p.state == LegCaptured }

  /** The a-th list holds the parts of the leg at legs[a]; the legs are those captured in cash, in order. */
  ghost predicate PostedByLeg(rules: seq<CodRule>, carriers: seq<string>, registered: bool, payments: seq<Payment>, n: nat,
        legs: seq<nat>, posts: seq<seq<Post>>)
    requires n <= |payments|
  {
    && |legs| == |posts|
    && (forall a :: 0 <= a < |legs| ==>
          legs[a] < n && IsCash(payments[legs[a]]) && LegPosted(rules, carriers, registered, payments, legs[a], posts[a]))
    && (forall a, b :: 0 <= a < b < |legs| ==> legs[a] < legs[b])
    && (forall i :: 0 <= i < n && IsCash(payments[i]) ==> i in legs)
  }

  lemma LegJoins(rules: seq<CodRule>, carriers: seq<string>, registered: bool, payments: seq<Payment>, n: nat,
        legs: seq<nat>, posts: seq<seq<Post>>, more: seq<Post>)
    requires n < |payments| && PostedByLeg(rules, carriers, registered, payments, n, legs, posts)
    requires IsCash(payments[n]) && LegPosted(rules, carriers, registered, payments, n, more)
    ensures PostedByLeg(rules, carriers, registered, payments, n + 1, legs + [n], posts + [more])
  {
    hide LegPosted, IsCash;
    var now := legs + [n];
    forall i | 0 <= i < n + 1 && IsCash(payments[i]) ensures i in now {
      assert now[|legs|] == n && forall a :: 0 <= a < |legs| ==> now[a] == legs[a];
    }
  }

  lemma FlatJoins(rules: seq<CodRule>, lists: seq<seq<Post>>, more: seq<Post>)
    ensures ChargesOf(rules, Flat(lists + [more])) == ChargesOf(rules, Flat(lists)) + ChargesOf(rules, more)
    ensures RemarksOf(rules, Flat(lists + [more])) == RemarksOf(rules, Flat(lists)) + RemarksOf(rules, more)
  {
    var all := lists + [more];
    assert all[..|all|-1] == lists;
    hide ChargesOf, RemarksOf;
    ListsJoin(rules, Flat(lists), more);
  }

  lemma LegsStay(rules: seq<CodRule>, carriers: seq<string>, registered: bool, payments: seq<Payment>, n: nat,
        legs: seq<nat>, posts: seq<seq<Post>>)
    requires n < |payments| && PostedByLeg(rules, carriers, registered, payments, n, legs, posts) && !IsCash(payments[n])
    ensures PostedByLeg(rules, carriers, registered, payments, n + 1, legs, posts)
  {
    hide LegPosted, IsCash;
  }

  lemma {:induction false} LegsArePosts(rules: seq<CodRule>, carriers: seq<string>, payments: seq<Payment>, registered: bool,
        n: nat) returns (legs: seq<nat>, posts: seq<seq<Post>>)
    requires n <= |payments| && Cod.ChargeLegs(rules, carriers, payments, registered, n).Ok?
    ensures PostedByLeg(rules, carriers, registered, payments, n, legs, posts)
    ensures Cod.ChargeLegs(rules, carriers, payments, registered, n).value
         == Cod.Charged(ChargesOf(rules, Flat(posts)), RemarksOf(rules, Flat(posts)))
  {
    hide Cod.ChargeLeg, PostedByLeg, LegPosted, ChargesOf, RemarksOf, Flat;
    if n == 0 {
      legs, posts := [], [];
      NothingPosted(rules, carriers, registered, payments);
    } else {
      legs, posts := LegsArePosts(rules, carriers, payments, registered, n - 1);
      var before := Cod.ChargeLegs(rules, carriers, payments, registered, n - 1).value;
      if Cod.IsCashLeg(payments[n-1]) {
        var more := LegIsPosts(before, rules, carriers, payments, n - 1, registered);
        LegJoins(rules, carriers, registered, payments, n - 1, legs, posts, more);
        FlatJoins(rules, posts, more);
        legs, posts := legs + [n - 1], posts + [more];
      } else {
        OtherLeg(before, rules, carriers, payments[n-1], n - 1, registered);
        LegsStay(rules, carriers, registered, payments, n - 1, legs, posts);
      }
    }
  }

  lemma NothingPosted(rules: seq<CodRule>, carriers: seq<string>, registered: bool, payments: seq<Payment>)
    ensures PostedByLeg(rules, carriers, registered, payments, 0, [], [])
    ensures ChargesOf(rules, Flat([])) == [] && RemarksOf(rules, Flat([])) == []
  {
  }

  lemma OtherLeg(c: Cod.Charged, rules: seq<CodRule>, carriers: seq<string>, payment: Payment, index: nat, registered: bool)
    requires !Cod.IsCashLeg(payment)
    ensures Cod.ChargeLeg(c, rules, carriers, payment, index, registered) == Ok(c)
  {
  }

  // ------------------------------------------------------------------- the term

  function Nets(posts: seq<Post>): seq<int> { seq(|posts|, k requires 0 <= k < |posts| => posts[k].fee.exVat) }
  function Taxes(posts: seq<Post>): seq<int> { seq(|posts|, k requires 0 <= k < |posts| => posts[k].fee.vat) }
  function Losses(posts: seq<Post>): seq<int> { seq(|posts|, k requires 0 <= k < |posts| => posts[k].fee.cost) }

  lemma SameSums(rules: seq<CodRule>, posts: seq<Post>)
    ensures var cs := ChargesOf(rules, posts);
      Cod.ExVats(cs) == Nets(posts) && Cod.Vats(cs) == Taxes(posts) && Cod.Costs(cs) == Losses(posts)
  {
  }

  ghost predicate AnyUnserved(rules: seq<CodRule>, posts: seq<Post>) {
    exists k :: 0 <= k < |posts| && SourceOf(rules, posts[k]) == None
  }

  ghost predicate AnyGuess(rules: seq<CodRule>, posts: seq<Post>) {
    exists k :: 0 <= k < |posts| && SourceOf(rules, posts[k]) != Some(GatewayStatement)
  }

  lemma BasisInWords(rules: seq<CodRule>, posts: seq<Post>)
    ensures Cod.WorstBasis(ChargesOf(rules, posts)) ==
      if AnyUnserved(rules, posts) then Missing else if AnyGuess(rules, posts) then Estimated else Actual
  {
    hide SourceOf;
    var cs := ChargesOf(rules, posts);
    if AnyUnserved(rules, posts) {
      var k :| 0 <= k < |posts| && SourceOf(rules, posts[k]) == None;
      assert cs[k].basis.Missing?;
    } else if AnyGuess(rules, posts) {
      var k :| 0 <= k < |posts| && SourceOf(rules, posts[k]) != Some(GatewayStatement);
      assert cs[k].basis.Estimated?;
    }
  }

  /** The remark is on a part's leg: no row serves the carrier, or the row is from the table of defaults. */
  ghost predicate Remarks(rules: seq<CodRule>, post: Post, d: Diagnostic) {
    d.subject == OfPayment(post.leg)
    && ((d.code == CodFeeRuleMissing && SourceOf(rules, post) == None)
        || (d.code == FeeRuleDefaultUsed && SourceOf(rules, post) == Some(DefaultTable)))
  }

  ghost predicate CashRemark(rules: seq<CodRule>, posts: seq<Post>, d: Diagnostic) {
    exists k :: 0 <= k < |posts| && Remarks(rules, posts[k], d)
  }

  lemma RemarkInWords(rules: seq<CodRule>, post: Post, d: Diagnostic)
    ensures d in RemarkOf(rules, post) <==> Remarks(rules, post, d)
  {
  }

  lemma {:induction false} RemarksInWords(rules: seq<CodRule>, posts: seq<Post>, d: Diagnostic)
    ensures d in RemarksOf(rules, posts) <==> CashRemark(rules, posts, d)
  {
    hide RemarkOf, Remarks;
    if posts != [] {
      var k := |posts| - 1;
      var before := posts[..k];
      RemarksInWords(rules, before, d);
      RemarkInWords(rules, posts[k], d);
      if CashRemark(rules, before, d) {
        var j :| 0 <= j < k && Remarks(rules, before[j], d);
        assert Remarks(rules, posts[j], d);
      }
      if CashRemark(rules, posts, d) {
        var j :| 0 <= j < |posts| && Remarks(rules, posts[j], d);
        if j < k { assert Remarks(rules, before[j], d); }
      }
    }
  }

  /** Nothing was captured in cash. */
  ghost predicate NoCash(payments: seq<Payment>) { forall p :: p in payments ==> !IsCash(p) }

  lemma SameLegs()
    ensures forall p :: IsCash(p) <==> Cod.IsCashLeg(p)
  {
  }

  lemma CashTerm(order: Order, shipments: seq<Shipment>, rules: seq<CodRule>, registered: bool)
    requires Cod.ComputeCodCost(order, shipments, rules, registered).Ok?
    ensures var c, carriers := Cod.ComputeCodCost(order, shipments, rules, registered).value, Cod.Carriers(shipments);
      var walk := Cod.ChargeLegs(rules, carriers, order.payments, registered, |order.payments|);
      if NoCash(order.payments) then c == Computed(Cod.CodCost(0, 0, 0, NoTerm), [])
      else
        && walk.Ok? && c.diagnostics == walk.value.diagnostics && c.value.basis == Cod.WorstBasis(walk.value.applied)
        && c.value.exVat == Sum(Cod.ExVats(walk.value.applied)) && c.value.vat == Sum(Cod.Vats(walk.value.applied))
        && c.value.cost == Sum(Cod.Costs(walk.value.applied))
  {
    hide Cod.ChargeLegs, Cod.Carriers, AddMinor, Sum, IsCash, Cod.IsCashLeg, Cod.WorstBasis;
    SameLegs();
    if !NoCash(order.payments) {
      var p :| p in order.payments && IsCash(p);
      var applied := Cod.ChargeLegs(rules, Cod.Carriers(shipments), order.payments, registered, |order.payments|).value.applied;
      AddMinorIsSum(Cod.ExVats(applied));
      AddMinorIsSum(Cod.Vats(applied));
      AddMinorIsSum(Cod.Costs(applied));
    }
  }

  /** The carriers are those that travelled, in text order. */
  ghost predicate CarrierList(shipments: seq<Shipment>, carriers: seq<string>) {
    && (forall c :: c in carriers <==> Travelled(shipments, c))
    && (forall i, j :: 0 <= i < j < |carriers| ==> Text.Lt(carriers[i], carriers[j]))
  }

  /**
   * The whole cash-on-delivery term: each leg captured in cash is split between the carriers that
   * travelled, each part is charged by the row that is right for its carrier and at that row's fee,
   * or at nothing where no row serves it; the totals are the sums of those fees; the basis says
   * whether anything is missing or guessed; and nothing is remarked but what is so.
   */
  lemma CashIsItsLegs(order: Order, shipments: seq<Shipment>, rules: seq<CodRule>, registered: bool)
    returns (carriers: seq<string>, legs: seq<nat>, posts: seq<seq<Post>>)
    requires Cod.ComputeCodCost(order, shipments, rules, registered).Ok?
    ensures CarrierList(shipments, carriers)
    ensures PostedByLeg(rules, carriers, registered, order.payments, |order.payments|, legs, posts)
    ensures var c, all := Cod.ComputeCodCost(order, shipments, rules, registered).value, Flat(posts);
      && c.value.exVat == Sum(Nets(all)) && c.value.vat == Sum(Taxes(all)) && c.value.cost == Sum(Losses(all))
      && c.value.basis == (if NoCash(order.payments) then NoTerm
                           else if AnyUnserved(rules, all) then Missing else if AnyGuess(rules, all) then Estimated else Actual)
      && forall d :: d in c.diagnostics <==> CashRemark(rules, all, d)
  {
    hide Cod.ComputeCodCost, Cod.ChargeLegs, Cod.Carriers, Sum, LegPosted, ChargesOf, RemarksOf, Cod.WorstBasis,
      CashRemark, Flat, Nets, Taxes, Losses, IsCash, AnyUnserved, AnyGuess, Travelled;
    carriers := Cod.Carriers(shipments);
    CarriersTravelled(shipments);
    CashTerm(order, shipments, rules, registered);
    if NoCash(order.payments) {
      legs, posts := [], [];
      NothingPaid(rules);
    } else {
      legs, posts := LegsArePosts(rules, carriers, order.payments, registered, |order.payments|);
      var all := Flat(posts);
      SameSums(rules, all);
      BasisInWords(rules, all);
      forall d: Diagnostic ensures d in RemarksOf(rules, all) <==> CashRemark(rules, all, d) { RemarksInWords(rules, all, d); }
    }
  }

  lemma NothingPaid(rules: seq<CodRule>)
    ensures Flat([]) == [] && Sum(Nets([])) == 0 && Sum(Taxes([])) == 0 && Sum(Losses([])) == 0
    ensures forall d :: !CashRemark(rules, [], d)
  {
  }
}
