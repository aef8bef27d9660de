/** What survives webhooks arriving late, twice, in any order, and mixed with reconciliations. */
module SubscriptionLaws {
  import opened Prelude
  import opened Plans
  import opened Subscriptions
  import opened BillingHandler

  // ------------------------------------------------------------ the event fold

  /** The row after the first n deliveries to a store that had none. */
  function Fold(storeId: string, changes: seq<Change>, n: nat): Option<Subscription>
    requires n <= |changes|
  {
    if n == 0 then None else Deliver(storeId, Fold(storeId, changes, n - 1), changes[n-1])
  }

  /** A delivery among the first n that no other of them is newer than, with nothing as new before it. */
  ghost predicate FirstNewest(changes: seq<Change>, n: nat, i: nat)
    requires n <= |changes|
  {
    && i < n
    && (forall j :: 0 <= j < n ==> changes[j].occurredAt <= changes[i].occurredAt)
    && (forall j :: 0 <= j < i ==> changes[j].occurredAt < changes[i].occurredAt)
  }

  lemma DeliverFacts(storeId: string, current: Subscription, change: Change)
    ensures var row := Deliver(storeId, Some(current), change);
      && row.Some?
      && (IsStale(current, change.occurredAt) ==> row.value == current)
      && (!IsStale(current, change.occurredAt)
          ==> row.value.status == change.status && row.value.lastEventAt == Some(change.occurredAt))
  {
    hide DeferUntilPeriodEnd;
  }

  /** Whatever order events arrive in, the row ends with the status and time of the newest. */
  lemma {:induction false} NewestEventDecides(storeId: string, changes: seq<Change>, n: nat) returns (i: nat)
    requires 0 < n <= |changes|
    ensures FirstNewest(changes, n, i)
    ensures var row := Fold(storeId, changes, n);
      row.Some? && row.value.status == changes[i].status && row.value.lastEventAt == Some(changes[i].occurredAt)
  {
    hide ApplyChange;
    if n == 1 {
      i := 0;
      assert Fold(storeId, changes, 0) == None;
    } else {
      i := NewestEventDecides(storeId, changes, n - 1);
      var before := Fold(storeId, changes, n - 1).value;
      DeliverFacts(storeId, before, changes[n-1]);
      if !IsStale(before, changes[n-1].occurredAt) { i := n - 1; }
    }
  }

  /** No two different events carry the same occurrence time. */
  ghost predicate DistinctTimes(changes: seq<Change>) {
    forall i, j :: 0 <= i < |changes| && 0 <= j < |changes| && changes[i].occurredAt == changes[j].occurredAt
        ==> changes[i] == changes[j]
  }

  /** Two deliveries of the same events, in any order and with any repeats, agree on status and last event. */
  lemma FoldForgetsOrder(storeId: string, xs: seq<Change>, ys: seq<Change>)
    requires xs != [] && DistinctTimes(xs) && forall c :: c in xs <==> c in ys
    ensures var a, b := Fold(storeId, xs, |xs|), Fold(storeId, ys, |ys|);
      a.Some? && b.Some? && a.value.status == b.value.status && a.value.lastEventAt == b.value.lastEventAt
  {
    hide Deliver;
    assert xs[0] in ys;
    var i := NewestEventDecides(storeId, xs, |xs|);
    var j := NewestEventDecides(storeId, ys, |ys|);
    assert xs[i] in ys && ys[j] in xs;
    var k :| 0 <= k < |xs| && xs[k] == ys[j];
    var l :| 0 <= l < |ys| && ys[l] == xs[i];
    assert xs[k].occurredAt <= xs[i].occurredAt && ys[l].occurredAt <= ys[j].occurredAt;
  }

  // -------------------------------------------------------- what was paid for

  /** The row after the first n deliveries, from a row the store already had. */
  function FoldFrom(row: Subscription, changes: seq<Change>, n: nat): Subscription
    requires n <= |changes|
  {
    if n == 0 then row
    else
      var before := FoldFrom(row, changes, n - 1);
      match ApplyChange(before, changes[n-1])
      case Stale => before
      case Applied(next) => next
  }

  /** A change as the handler builds it: its plan, when it names one, is a plan this build knows. */
  ghost predicate NamesKnownPlan(c: Change) { c.planCode.Some? ==> IsPlanCode(c.planCode.value) }

  ghost predicate NoLoss(from: string, to: string) {
    IsPlanCode(from) && IsPlanCode(to) && !IsDowngrade(PlanOf(from).value, PlanOf(to).value)
  }

  lemma HandlerNamesKnownPlans(facts: Facts, occurredAt: int)
    ensures NamesKnownPlan(ToChange(facts, occurredAt))
  {
    hide PlanOf;
  }

  lemma NoLossChains(a: string, b: string, c: string)
    ensures IsPlanCode(a) ==> NoLoss(a, a)
    ensures NoLoss(a, b) && NoLoss(b, c) ==> NoLoss(a, c)
  {
    hide IsDowngrade, PlanOf;
    if IsPlanCode(a) { NotDowngradeIsAPreorder(PlanOf(a).value, PlanOf(a).value, PlanOf(a).value); }
    if NoLoss(a, b) && NoLoss(b, c) { NotDowngradeIsAPreorder(PlanOf(a).value, PlanOf(b).value, PlanOf(c).value); }
  }

  /** An applied event takes something away exactly when it names a lesser plan and does not occur before the paid period's end. */
  lemma StepTakesAwayIff(row: Subscription, change: Change)
    requires IsPlanCode(row.planCode) && NamesKnownPlan(change) && ApplyChange(row, change).Applied?
    ensures NoLoss(row.planCode, ApplyChange(row, change).next.planCode) <==>
      !(&& change.planCode.Some? && IsDowngrade(PlanOf(row.planCode).value, PlanOf(change.planCode.value).value)
        && change.occurredAt >= row.currentPeriodEnd)
  {
    hide IsDowngrade, PlanOf;
    NoLossChains(row.planCode, row.planCode, row.planCode);
  }

  /** The change names a plan that allows less than the given one. */
  ghost predicate NamesLesser(code: string, change: Change)
    requires IsPlanCode(code) && NamesKnownPlan(change)
  {
    change.planCode.Some? && IsDowngrade(PlanOf(code).value, PlanOf(change.planCode.value).value)
  }

  /**
   * After an applied event the plan in force allows less exactly when the event names a lesser plan
   * and either it or the moment asked about does not lie before the period end the row had.
   */
  lemma InForceTakesAwayIff(row: Subscription, change: Change, now: int)
    requires IsPlanCode(row.planCode) && NamesKnownPlan(change) && ApplyChange(row, change).Applied?
    ensures NoLoss(row.planCode, EffectivePlanCode(ApplyChange(row, change).next, now)) <==>
      !(NamesLesser(row.planCode, change) && (change.occurredAt >= row.currentPeriodEnd || now >= row.currentPeriodEnd))
  {
    hide IsDowngrade, PlanOf;
    NoLossChains(row.planCode, row.planCode, row.planCode);
  }

  /** The row after the first n events the handler was given for a store that had one. */
  function Handled(row: Subscription, events: seq<BillingEvent>, n: nat): Subscription
    requires n <= |events|
  {
    if n == 0 then row else AfterEvent(row.storeId, Some(Handled(row, events, n - 1)), events[n-1]).value
  }

  /** The k-th event was neither unknown nor stale. */
  ghost predicate Took(row: Subscription, events: seq<BillingEvent>, k: nat)
    requires k < |events|
  {
    !events[k].eventType.UnknownEvent? && !IsStale(Handled(row, events, k), events[k].occurredAt)
  }

  /** Every event that was applied occurred before the end of the period the row then held. */
  ghost predicate InPaidTime(row: Subscription, events: seq<BillingEvent>, n: nat)
    requires n <= |events|
  {
    forall k :: 0 <= k < n && Took(row, events, k) ==> events[k].occurredAt < Handled(row, events, k).currentPeriodEnd
  }

  lemma HandledStep(row: Subscription, events: seq<BillingEvent>, n: nat)
    requires 0 < n <= |events|
    ensures var before, change := Handled(row, events, n - 1), ToChange(events[n-1].facts, events[n-1].occurredAt);
      Handled(row, events, n) ==
        if Took(row, events, n - 1) then ApplyChange(before, change).next else before
    ensures var before, change := Handled(row, events, n - 1), ToChange(events[n-1].facts, events[n-1].occurredAt);
      change.occurredAt == events[n-1].occurredAt && (Took(row, events, n - 1) ==> ApplyChange(before, change).Applied?)
  {
    hide DeferUntilPeriodEnd;
  }

  /** Whatever the handler is given, as long as it is in paid time, the active plan only climbs. */
  lemma {:induction false} ActivePlanOnlyClimbs(row: Subscription, events: seq<BillingEvent>, n: nat)
    requires n <= |events| && IsPlanCode(row.planCode) && InPaidTime(row, events, n)
    ensures NoLoss(row.planCode, Handled(row, events, n).planCode)
  {
    hide ApplyChange, AfterEvent, NoLoss, PlanOf, IsPlanCode, NamesKnownPlan, ToChange, IsStale;
    if n == 0 {
      NoLossChains(row.planCode, row.planCode, row.planCode);
    } else {
      ActivePlanOnlyClimbs(row, events, n - 1);
      var before := Handled(row, events, n - 1);
      NoLossNames(row.planCode, before.planCode);
      HandledStep(row, events, n);
      if Took(row, events, n - 1) {
        var change := ToChange(events[n-1].facts, events[n-1].occurredAt);
        HandlerNamesKnownPlans(events[n-1].facts, events[n-1].occurredAt);
        StepTakesAwayIff(before, change);
        NoLossChains(row.planCode, before.planCode, ApplyChange(before, change).next.planCode);
      }
    }
  }

  lemma NoLossNames(a: string, b: string)
    requires NoLoss(a, b)
    ensures IsPlanCode(a) && IsPlanCode(b)
  {
  }

  /** Nothing that is pending takes effect by the given moment. */
  ghost predicate NothingDue(s: Subscription, now: int) {
    s.pendingPlanEffectiveAt.Some? ==> now < s.pendingPlanEffectiveAt.value
  }

  lemma {:induction false} DeferralsWait(row: Subscription, events: seq<BillingEvent>, n: nat, now: int)
    requires n <= |events| && NothingDue(row, now)
    requires forall k :: 0 <= k < n ==> now < Handled(row, events, k).currentPeriodEnd
    ensures NothingDue(Handled(row, events, n), now)
  {
    hide DeferUntilPeriodEnd, AfterEvent, ToChange, Took;
    if n > 0 {
      DeferralsWait(row, events, n - 1, now);
      HandledStep(row, events, n);
    }
  }

  /**
   * The tier paid for is kept: over any run of the handler whose applied events, and the moment
   * asked about, lie before every period end the row came to hold, the plan in force allows all
   * that the first one did.
   */
  lemma PaidTierIsKept(row: Subscription, events: seq<BillingEvent>, now: int)
    requires IsPlanCode(row.planCode) && NothingDue(row, now) && InPaidTime(row, events, |events|)
    requires forall k :: 0 <= k < |events| ==> now < Handled(row, events, k).currentPeriodEnd
    ensures NoLoss(row.planCode, EffectivePlanCode(Handled(row, events, |events|), now))
  {
    hide Handled, NoLoss, IsPlanCode, InPaidTime;
    ActivePlanOnlyClimbs(row, events, |events|);
    DeferralsWait(row, events, |events|, now);
  }

  // ------------------------------------------------- when the tier can be lost

  /** Nothing that is sold allows less. */
  ghost predicate NoLesserPlan(code: string)
    requires IsPlanCode(code)
  {
    forall p :: IsPlanCode(p) ==> !IsDowngrade(PlanOf(code).value, PlanOf(p).value)
  }

  /** An event that names a plan and says nothing else. */
  function Naming(code: string, at: int): BillingEvent {
    BillingEvent(SubscriptionUpdated, at, Facts(Active, Some(code), None, None, None, None))
  }

  /** The tier is in force after one more event. */
  ghost predicate KeptBy(tier: string, row: Subscription, event: BillingEvent, now: int) {
    NoLoss(tier, EffectivePlanCode(Handled(row, [event], 1), now))
  }

  lemma OneHandled(row: Subscription, event: BillingEvent)
    ensures var change := ToChange(event.facts, event.occurredAt);
      Handled(row, [event], 1) ==
        if event.eventType.UnknownEvent? || IsStale(row, event.occurredAt) then row else ApplyChange(row, change).next
    ensures ToChange(event.facts, event.occurredAt).occurredAt == event.occurredAt
  {
    hide ApplyChange, ToChange, AfterEvent;
    assert Handled(row, [event], 0) == row;
    HandledStep(row, [event], 1);
  }

  lemma NotDueKeeps(tier: string, row: Subscription, now: int)
    requires NoLoss(tier, row.planCode) && NothingDue(row, now)
    ensures NoLoss(tier, EffectivePlanCode(row, now))
  {
  }

  /** Before the row's period end one more event takes nothing away, and later only a lesser plan could. */
  lemma OneMoreKeeps(tier: string, row: Subscription, event: BillingEvent, now: int)
    requires NoLoss(tier, row.planCode) && NothingDue(row, now) && event.occurredAt <= now
    requires now < row.currentPeriodEnd || NoLesserPlan(tier) || IsStale(row, now)
    ensures KeptBy(tier, row, event, now)
  {
    hide NoLoss, ApplyChange, NoLesserPlan, PlanOf, IsDowngrade, EffectivePlanCode, ToChange, NamesKnownPlan;
    OneHandled(row, event);
    NotDueKeeps(tier, row, now);
    if !event.eventType.UnknownEvent? && !IsStale(row, event.occurredAt) {
      var change := ToChange(event.facts, event.occurredAt);
      HandlerNamesKnownPlans(event.facts, event.occurredAt);
      NoLossNames(tier, row.planCode);
      AppliedLastEvent(row, change);
      if now < row.currentPeriodEnd {
        InForceTakesAwayIff(row, change, now);
        NoLossChains(tier, row.planCode, EffectivePlanCode(ApplyChange(row, change).next, now));
      } else {
        AllPlansKeep(tier, row, change, now);
      }
    }
  }

  lemma AllPlansKeep(tier: string, row: Subscription, change: Change, now: int)
    requires NoLoss(tier, row.planCode) && NamesKnownPlan(change) && NoLesserPlan(tier) && ApplyChange(row, change).Applied?
    ensures NoLoss(tier, EffectivePlanCode(ApplyChange(row, change).next, now))
  {
    hide PlanOf, IsDowngrade;
  }

  /** A lesser plan named at a moment that is not before the period end is in force at once. */
  lemma NamedTakesAway(tier: string, lesser: string, row: Subscription, now: int)
    requires NoLoss(tier, row.planCode) && IsPlanCode(lesser) && !NoLoss(tier, lesser)
    requires now >= row.currentPeriodEnd && !IsStale(row, now)
    ensures EffectivePlanCode(Handled(row, [Naming(lesser, now)], 1), now) == lesser
  {
    hide PlanOf, IsDowngrade;
    OneHandled(row, Naming(lesser, now));
  }

  /**
   * From any row the handler has reached, nothing that occurs by the given moment can take the tier
   * away at that moment by one more event if and only if the moment lies before the period end the
   * row holds now, or nothing sold allows less, or the row has already seen an event as late.
   */
  lemma TierIsSafeIff(first: Subscription, events: seq<BillingEvent>, n: nat, now: int)
    requires n <= |events| && NoLoss(first.planCode, Handled(first, events, n).planCode)
        && NothingDue(Handled(first, events, n), now)
    ensures var row := Handled(first, events, n);
      (forall event: BillingEvent :: event.occurredAt <= now ==> KeptBy(first.planCode, row, event, now))
      <==> now < row.currentPeriodEnd || NoLesserPlan(first.planCode) || IsStale(row, now)
  {
    hide NoLoss, Handled, IsStale, PlanOf, IsDowngrade, EffectivePlanCode, IsPlanCode, NoLesserPlan, NothingDue;
    var tier, row := first.planCode, Handled(first, events, n);
    NoLossNames(tier, row.planCode);
    if now < row.currentPeriodEnd || NoLesserPlan(tier) || IsStale(row, now) {
      forall event: BillingEvent | event.occurredAt <= now
          ensures KeptBy(tier, row, event, now) { OneMoreKeeps(tier, row, event, now); }
    } else {
      var lesser := Lesser(tier);
      NamedTakesAway(tier, lesser, row, now);
      assert Naming(lesser, now).occurredAt <= now && !KeptBy(tier, row, Naming(lesser, now), now);
    }
  }

  lemma Lesser(tier: string) returns (lesser: string)
    requires IsPlanCode(tier) && !NoLesserPlan(tier)
    ensures IsPlanCode(lesser) && !NoLoss(tier, lesser)
  {
    hide PlanOf, IsDowngrade;
    lesser :| IsPlanCode(lesser) && IsDowngrade(PlanOf(tier).value, PlanOf(lesser).value);
  }

  /** Every event of the list occurs by the given moment. */
  ghost predicate AllBy(events: seq<BillingEvent>, now: int) { forall k :: 0 <= k < |events| ==> events[k].occurredAt <= now }

  /** The tier is in force after every further run of events. */
  ghost predicate KeptOverRuns(tier: string, row: Subscription, now: int) {
    forall events :: AllBy(events, now) ==> NoLoss(tier, EffectivePlanCode(Handled(row, events, |events|), now))
  }

  /** A row that no event by the given moment can move. */
  lemma {:induction false} StaleStays(row: Subscription, events: seq<BillingEvent>, n: nat, now: int)
    requires n <= |events| && AllBy(events, now) && IsStale(row, now)
    ensures Handled(row, events, n) == row
  {
    hide ApplyChange, ToChange, AfterEvent;
    if n > 0 {
      StaleStays(row, events, n - 1, now);
      HandledStep(row, events, n);
    }
  }

  /** What is in force, or will be, is sold. */
  ghost predicate Sells(tier: string, row: Subscription, now: int) {
    NoLoss(tier, row.planCode) && (NothingDue(row, now) || (row.pendingPlanCode.Some? ==> IsPlanCode(row.pendingPlanCode.value)))
  }

  lemma {:induction false} AnyPlanWillDo(tier: string, row: Subscription, events: seq<BillingEvent>, n: nat, now: int)
    requires n <= |events| && IsPlanCode(tier) && NoLesserPlan(tier) && Sells(tier, row, now)
    ensures Sells(tier, Handled(row, events, n), now) && NoLoss(tier, EffectivePlanCode(Handled(row, events, n), now))
  {
    hide PlanOf, IsDowngrade, AfterEvent, ToChange;
    if n > 0 {
      AnyPlanWillDo(tier, row, events, n - 1, now);
      HandledStep(row, events, n);
      HandlerNamesKnownPlans(events[n-1].facts, events[n-1].occurredAt);
    }
  }

  /** When only an event at the given moment itself can still be taken, at most one is. */
  lemma {:induction false} OnlyOneIsTaken(tier: string, row: Subscription, events: seq<BillingEvent>, n: nat, now: int)
    requires n <= |events| && AllBy(events, now) && NoLoss(tier, row.planCode) && NothingDue(row, now)
    requires now < row.currentPeriodEnd && row.lastEventAt == Some(now - 1)
    ensures var after := Handled(row, events, n);
      after == row || (IsStale(after, now) && NoLoss(tier, EffectivePlanCode(after, now)))
  {
    hide NoLoss, ApplyChange, ToChange, AfterEvent, EffectivePlanCode, KeptBy;
    if n > 0 {
      OnlyOneIsTaken(tier, row, events, n - 1, now);
      HandledStep(row, events, n);
      var before, event := Handled(row, events, n - 1), events[n-1];
      if Took(row, events, n - 1) && before == row {
        OneMoreKeeps(tier, row, event, now);
        KeptOpened(tier, row, event, now);
        OneHandled(row, event);
        AppliedLastEvent(row, ToChange(event.facts, event.occurredAt));
      }
    }
  }

  lemma KeptOpened(tier: string, row: Subscription, event: BillingEvent, now: int)
    requires KeptBy(tier, row, event, now)
    ensures NoLoss(tier, EffectivePlanCode(Handled(row, [event], 1), now))
  {
  }

  /** One event brings the period end forward, the next names the lesser plan. */
  lemma TwoTakeAway(tier: string, lesser: string, row: Subscription, now: int) returns (events: seq<BillingEvent>)
    requires NoLoss(tier, row.planCode) && IsPlanCode(lesser) && !NoLoss(tier, lesser) && !IsStale(row, now - 1)
    ensures AllBy(events, now) && EffectivePlanCode(Handled(row, events, |events|), now) == lesser
  {
    hide PlanOf, IsDowngrade;
    var sooner := BillingEvent(SubscriptionUpdated, now - 1, Facts(Active, None, None, None, None, Some(now)));
    events := [sooner, Naming(lesser, now)];
    assert Handled(row, events, 0) == row;
    HandledStep(row, events, 1);
    HandledStep(row, events, 2);
  }

  /**
   * Over whole runs: no further events that occur by the given moment, however many, take the tier
   * away at that moment if and only if nothing sold allows less, or the row has already seen an event
   * as late, or the moment lies before the row's period end and leaves time for one event only.
   */
  lemma TierIsSafeOverRunsIff(tier: string, row: Subscription, now: int)
    requires NoLoss(tier, row.planCode) && NothingDue(row, now)
    ensures KeptOverRuns(tier, row, now)
      <==> NoLesserPlan(tier) || IsStale(row, now) || (now < row.currentPeriodEnd && row.lastEventAt == Some(now - 1))
  {
    hide NoLoss, Handled, PlanOf, IsDowngrade, EffectivePlanCode, IsPlanCode, NoLesserPlan, NothingDue, AllBy;
    NoLossNames(tier, row.planCode);
    NotDueKeeps(tier, row, now);
    if NoLesserPlan(tier) {
      forall events | AllBy(events, now) ensures NoLoss(tier, EffectivePlanCode(Handled(row, events, |events|), now)) {
        AnyPlanWillDo(tier, row, events, |events|, now);
      }
    } else if IsStale(row, now) {
      forall events | AllBy(events, now) ensures NoLoss(tier, EffectivePlanCode(Handled(row, events, |events|), now)) {
        StaleStays(row, events, |events|, now);
      }
    } else if now < row.currentPeriodEnd && row.lastEventAt == Some(now - 1) {
      forall events | AllBy(events, now) ensures NoLoss(tier, EffectivePlanCode(Handled(row, events, |events|), now)) {
        OnlyOneIsTaken(tier, row, events, |events|, now);
      }
    } else {
      TierCanBeLost(tier, row, now);
    }
  }

  lemma TierCanBeLost(tier: string, row: Subscription, now: int)
    requires NoLoss(tier, row.planCode) && IsPlanCode(tier) && !NoLesserPlan(tier) && !IsStale(row, now)
    requires now >= row.currentPeriodEnd || row.lastEventAt != Some(now - 1)
    ensures !KeptOverRuns(tier, row, now)
  {
    hide NoLoss, Handled, PlanOf, IsDowngrade, EffectivePlanCode, IsPlanCode, NoLesserPlan;
    var lesser := Lesser(tier);
    if now >= row.currentPeriodEnd {
      NamedTakesAway(tier, lesser, row, now);
      var events := [Naming(lesser, now)];
      assert AllBy(events, now) && !NoLoss(tier, EffectivePlanCode(Handled(row, events, |events|), now));
    } else {
      var events := TwoTakeAway(tier, lesser, row, now);
      assert AllBy(events, now) && !NoLoss(tier, EffectivePlanCode(Handled(row, events, |events|), now));
    }
  }

  // ------------------------------------------------------ a shortened period

  function PaidToHundred(): Subscription {
    Subscription("store", "scale", None, Active, None, 0, 100, None, None, None, None)
  }

  function Shortens(): BillingEvent {
    BillingEvent(SubscriptionUpdated, 10, Facts(Active, None, None, None, None, Some(20)))
  }

  function Lowers(): BillingEvent { Naming("starter", 30) }

  /**
   * An event may bring the period end forward. Then a lesser plan named after the new end is in
   * force at once, though the period that was paid for has not ended.
   */
  lemma ShortenedPeriodLosesTheTier()
    ensures var row, events := PaidToHundred(), [Shortens(), Lowers()];
      && Took(row, events, 0) && Took(row, events, 1) && events[1].occurredAt < row.currentPeriodEnd
      && EffectivePlanCode(Handled(row, events, 2), 30) == "starter" && !NoLoss(row.planCode, "starter")
  {
    hide IsDowngrade;
    var row, events := PaidToHundred(), [Shortens(), Lowers()];
    StarterIsLess();
    assert Handled(row, events, 0) == row;
    assert Handled(row, events, 1) == row.(currentPeriodEnd := 20, lastEventAt := Some(10));
    assert Handled(row, events, 2).planCode == "starter";
  }

  function LowersInTime(): BillingEvent { Naming("starter", 15) }

  /**
   * Nor does it help that a lesser plan is named before the end: it is deferred to the end that was
   * brought forward, so at 30 it is in force, though every event occurred in paid time.
   */
  lemma DeferredToAShorterEnd()
    ensures var row, events := PaidToHundred(), [Shortens(), LowersInTime()];
      && Took(row, events, 0) && Took(row, events, 1) && InPaidTime(row, events, 2)
      && NoLoss(row.planCode, Handled(row, events, 2).planCode)
      && EffectivePlanCode(Handled(row, events, 2), 30) == "starter" && !NoLoss(row.planCode, "starter")
          && 30 < row.currentPeriodEnd
  {
    hide IsDowngrade;
    var row, events := PaidToHundred(), [Shortens(), LowersInTime()];
    StarterIsLess();
    NoLossChains("scale", "scale", "scale");
    assert Handled(row, events, 0) == row;
    assert Handled(row, events, 1) == row.(currentPeriodEnd := 20, lastEventAt := Some(10));
    var after := Handled(row, events, 2);
    assert after.planCode == "scale" && after.pendingPlanCode == Some("starter") && after.pendingPlanEffectiveAt == Some(20);
  }

  lemma StarterIsLess()
    ensures !NoLoss("scale", "starter")
  {
    DowngradeLosesSomething(PlanOf("scale").value, PlanOf("starter").value);
  }

  /** A deferred downgrade is in force from the end of the paid period on, and not a moment before. */
  lemma DeferredTakesEffect(row: Subscription, change: Change, now: int)
    requires ApplyChange(row, change).Applied? && DeferUntilPeriodEnd(row, change)
    ensures EffectivePlanCode(ApplyChange(row, change).next, now) ==
      if now >= row.currentPeriodEnd then change.planCode.value else row.planCode
  {
    hide PlanOf, IsDowngrade;
  }

  // ------------------------------------------------------------ reconciliation

  datatype Step = Webhook(change: Change) | Pass(truth: Change, at: int)

  function StepFrom(row: Subscription, step: Step): Subscription {
    match step
    case Webhook(change) => (match ApplyChange(row, change) case Stale => row case Applied(next) => next)
    case Pass(truth, at) => (match Reconcile(row, truth, at) case Unchanged => row case Corrected(next) => next)
  }

  function RunFrom(row: Subscription, steps: seq<Step>, n: nat): Subscription
    requires n <= |steps|
  {
    if n == 0 then row else StepFrom(RunFrom(row, steps, n - 1), steps[n-1])
  }

  /** Only the webhooks of a run. */
  function Webhooks(steps: seq<Step>, n: nat): seq<Change>
    requires n <= |steps|
  {
    if n == 0 then [] else Webhooks(steps, n - 1) + if steps[n-1].Webhook? then [steps[n-1].change] else []
  }

  lemma StepLastEvent(row: Subscription, step: Step)
    ensures StepFrom(row, step).lastEventAt ==
      if step.Webhook? && !IsStale(row, step.change.occurredAt) then Some(step.change.occurredAt) else row.lastEventAt
  {
    hide DeferUntilPeriodEnd, DiffersFrom;
  }

  lemma {:induction false} FoldFromSnoc(row: Subscription, changes: seq<Change>, c: Change, n: nat)
    requires n <= |changes|
    ensures FoldFrom(row, changes + [c], n) == FoldFrom(row, changes, n)
  {
    hide ApplyChange;
    if n > 0 {
      FoldFromSnoc(row, changes, c, n - 1);
      assert (changes + [c])[n-1] == changes[n-1];
    }
  }

  /** The ordering guard after any mix is the guard of the same run without the reconciliations. */
  lemma {:induction false} ReconcilingKeepsTheGuard(row: Subscription, steps: seq<Step>, n: nat)
    requires n <= |steps|
    ensures RunFrom(row, steps, n).lastEventAt == FoldFrom(row, Webhooks(steps, n), |Webhooks(steps, n)|).lastEventAt
  {
    hide ApplyChange, StepFrom;
    if n > 0 {
      ReconcilingKeepsTheGuard(row, steps, n - 1);
      var before, webhooks := RunFrom(row, steps, n - 1), Webhooks(steps, n - 1);
      StepLastEvent(before, steps[n-1]);
      if steps[n-1].Webhook? {
        var c := steps[n-1].change;
        FoldFromSnoc(row, webhooks, c, |webhooks|);
        AppliedLastEvent(FoldFrom(row, webhooks, |webhooks|), c);
        assert (webhooks + [c])[|webhooks|] == c;
      } else {
        assert webhooks + [] == webhooks;
      }
    }
  }

  lemma AppliedLastEvent(row: Subscription, c: Change)
    ensures ApplyChange(row, c).Stale? <==> IsStale(row, c.occurredAt)
    ensures ApplyChange(row, c).Applied? ==> ApplyChange(row, c).next.lastEventAt == Some(c.occurredAt)
  {
    hide DeferUntilPeriodEnd;
  }

  /** In any mix of passes and webhooks, which events are stale is as if the passes had never run. */
  lemma ReconcilingSilencesNothing(row: Subscription, steps: seq<Step>, occurredAt: int)
    ensures var webhooks := Webhooks(steps, |steps|);
      IsStale(RunFrom(row, steps, |steps|), occurredAt) <==> IsStale(FoldFrom(row, webhooks, |webhooks|), occurredAt)
  {
    hide RunFrom, FoldFrom, Webhooks;
    ReconcilingKeepsTheGuard(row, steps, |steps|);
  }

  lemma {:induction false} StaleAfterRun(row: Subscription, steps: seq<Step>, n: nat, occurredAt: int)
    requires n <= |steps|
    ensures IsStale(RunFrom(row, steps, n), occurredAt) <==>
      IsStale(row, occurredAt) || exists k :: 0 <= k < n && steps[k].Webhook? && occurredAt <= steps[k].change.occurredAt
  {
    hide StepFrom;
    if n > 0 {
      StaleAfterRun(row, steps, n - 1, occurredAt);
      StepLastEvent(RunFrom(row, steps, n - 1), steps[n-1]);
      if steps[n-1].Webhook? { StaleAfterRun(row, steps, n - 1, steps[n-1].change.occurredAt); }
    }
  }

  /** After a pass the row agrees with the platform, a second pass finds nothing, and no webhook guard or pending plan moved. */
  lemma ReconcileSettles(row: Subscription, truth: Change, at: int, again: int)
    ensures var after := StepFrom(row, Pass(truth, at));
      && !DiffersFrom(after, truth)
      && Reconcile(after, truth, again).Unchanged?
      && after.lastEventAt == row.lastEventAt
      && after.pendingPlanCode == row.pendingPlanCode && after.pendingPlanEffectiveAt == row.pendingPlanEffectiveAt
  {
  }
}
