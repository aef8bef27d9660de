/** What a billing event writes: the row a first one seeds, and what a later one says, keeps, defers and clears. */
module BillingLaws {
  import opened Prelude
  import opened Plans
  import opened Subscriptions
  import opened BillingHandler

  /** A plan the shop sells. */
  ghost predicate Sold(code: string) {
    code in {"starter", "growth", "scale", "ads", "starter_annual", "growth_annual", "scale_annual", "ads_annual"}
  }

  /** What each plan allows: its orders a year, if they are counted, and whether it has more than the core. */
  ghost function OrdersAYear(code: string): Option<int> {
    if code == "starter" || code == "starter_annual" then Some(3_600)
    else if code == "growth" || code == "growth_annual" then Some(18_000)
    else None
  }

  ghost predicate HasReports(code: string) { code == "ads" || code == "ads_annual" }

  /** The second plan allows less than the first. */
  ghost predicate Lesser(from: string, to: string) {
    || (HasReports(from) && !HasReports(to))
    || (OrdersAYear(to).Some? && (OrdersAYear(from).None? || OrdersAYear(to).value < OrdersAYear(from).value))
  }

  lemma PlanTable(code: string)
    ensures IsPlanCode(code) <==> Sold(code)
    ensures Sold(code) ==> var plan := PlanOf(code).value;
      && plan.features == (if HasReports(code) then {Core, Attribution, Ltv, ReportsFeature} else {Core})
      && MonthlyCapOf(plan) == match OrdersAYear(code) case None => None case Some(n) => Some(n as real / 12.0)
  {
  }

  /** A downgrade, on the plans as sold, is a move to a lesser one. */
  lemma DowngradesAreLesser(from: string, to: string)
    requires Sold(from) && Sold(to)
    ensures IsDowngrade(PlanOf(from).value, PlanOf(to).value) <==> Lesser(from, to)
  {
    hide PlanOf;
    PlanTable(from);
    PlanTable(to);
    var a, b := PlanOf(from).value, PlanOf(to).value;
    assert Ltv in {Core, Attribution, Ltv, ReportsFeature} && Ltv !in {Core};
    assert (exists f :: f in a.features && f !in b.features) <==> HasReports(from) && !HasReports(to);
  }

  /** The plan an event names, if the shop sells it. */
  ghost function NamedPlan(facts: Facts): Option<string> {
    if facts.planCode.Some? && Sold(facts.planCode.value) then facts.planCode else None
  }

  function Or<T>(said: Option<T>, kept: Option<T>): Option<T> { if said.Some? then said else kept }

  function OrKept<T>(said: Option<T>, kept: T): T { if said.Some? then said.value else kept }

  /** The row of a store's first event: what it says, the trial plan where it names none, and thirty days where it ends no period. */
  ghost predicate Seeded(storeId: string, event: BillingEvent, row: Subscription) {
    var f, start := event.facts, OrKept(event.facts.currentPeriodStart, event.occurredAt);
    row == Subscription(storeId, OrKept(NamedPlan(f), "growth"), f.platformPlanId, f.status, f.trialEndsAt, start,
                        OrKept(f.currentPeriodEnd, start + 2_592_000_000), Some(event.occurredAt), None, None, None)
  }

  /** A lesser plan, named before the period on the row is over, waits for its end; any other event clears what waits. */
  ghost predicate Waits(row: Subscription, event: BillingEvent) {
    var plan := NamedPlan(event.facts);
    plan.Some? && plan.value != row.planCode && Sold(row.planCode) && Lesser(row.planCode, plan.value)
        && event.occurredAt < row.currentPeriodEnd
  }

  /** The row after a later event: what it says is set, what it does not is kept, and so are store and reconciliation. */
  ghost predicate Updated(row: Subscription, event: BillingEvent, next: Subscription) {
    var f, plan := event.facts, NamedPlan(event.facts);
    next == Subscription(
      row.storeId, if Waits(row, event) then row.planCode
          else OrKept(plan, row.planCode), Or(f.platformPlanId, row.platformPlanId), f.status,
      Or(f.trialEndsAt, row.trialEndsAt), OrKept(f.currentPeriodStart, row.currentPeriodStart),
          OrKept(f.currentPeriodEnd, row.currentPeriodEnd),
      Some(event.occurredAt), row.lastReconciledAt, if Waits(row, event) then plan else None,
      if Waits(row, event) then Some(row.currentPeriodEnd) else None)
  }

  lemma ChangeSays(event: BillingEvent)
    ensures var c := ToChange(event.facts, event.occurredAt);
      && c.status == event.facts.status && c.planCode == NamedPlan(event.facts) && c.platformPlanId == event.facts.platformPlanId
      && c.trialEndsAt == event.facts.trialEndsAt && c.currentPeriodStart == event.facts.currentPeriodStart
      && c.currentPeriodEnd == event.facts.currentPeriodEnd && c.occurredAt == event.occurredAt
  {
    hide PlanOf, Sold;
    if event.facts.planCode.Some? { PlanTable(event.facts.planCode.value); }
  }

  lemma DeferralWaits(row: Subscription, event: BillingEvent)
    ensures DeferUntilPeriodEnd(row, ToChange(event.facts, event.occurredAt)) <==> Waits(row, event)
  {
    hide PlanOf, Sold, IsDowngrade, ToChange, Lesser;
    ChangeSays(event);
    var plan := NamedPlan(event.facts);
    PlanTable(row.planCode);
    if plan.Some? {
      PlanTable(plan.value);
      if Sold(row.planCode) { DowngradesAreLesser(row.planCode, plan.value); }
    }
  }

  /**
   * What the handler does with an event. One nobody knows is ignored; a store's first is its row; one
   * no newer than the last applied changes nothing; and any other sets what it says.
   */
  lemma HandlingWrites(storeId: string, row: Option<Subscription>, event: BillingEvent)
    ensures var result, after := ResultOf(storeId, row, event), AfterEvent(storeId, row, event);
      if event.eventType == UnknownEvent then result == Ignored && after == row
      else if row.None? then after.Some? && Seeded(storeId, event, after.value) && result == AppliedTo(after.value)
      else if row.value.lastEventAt.Some? && event.occurredAt <= row.value.lastEventAt.value
          then result == DroppedStale && after == row
      else after.Some? && Updated(row.value, event, after.value) && result == AppliedTo(after.value)
  {
    hide ToChange, DeferUntilPeriodEnd, Waits, NamedPlan;
    ChangeSays(event);
    if row.Some? { DeferralWaits(row.value, event); }
  }

  /** The row already says all that the platform does. */
  ghost predicate Agrees(row: Subscription, truth: Change) {
    && row.status == truth.status && OrKept(truth.planCode, row.planCode) == row.planCode
    && Or(truth.platformPlanId, row.platformPlanId) == row.platformPlanId
        && Or(truth.trialEndsAt, row.trialEndsAt) == row.trialEndsAt
    && OrKept(truth.currentPeriodStart, row.currentPeriodStart) == row.currentPeriodStart
    && OrKept(truth.currentPeriodEnd, row.currentPeriodEnd) == row.currentPeriodEnd
  }

  /** Reconciling takes over what the platform says, whenever it was said, and leaves the rest of the row as it is. */
  lemma ReconcilingWrites(row: Subscription, truth: Change, at: int)
    ensures Reconcile(row, truth, at).Unchanged? <==> Agrees(row, truth)
    ensures !Agrees(row, truth) ==> Reconcile(row, truth, at).next == Subscription(
      row.storeId, OrKept(truth.planCode, row.planCode), Or(truth.platformPlanId, row.platformPlanId), truth.status,
      Or(truth.trialEndsAt, row.trialEndsAt), OrKept(truth.currentPeriodStart, row.currentPeriodStart),
      OrKept(truth.currentPeriodEnd, row.currentPeriodEnd), row.lastEventAt, Some(at), row.pendingPlanCode,
          row.pendingPlanEffectiveAt)
  {
  }
}
