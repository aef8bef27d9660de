/** The local subscription row, and the two ways it changes: webhooks and reconciliation. Instants are milliseconds. */
module Subscriptions {
  import opened Prelude
  import opened Plans

  datatype Status = Trialing | Active | PastDue | Canceled | Expired

  datatype Subscription = Subscription(
    storeId: string, planCode: string, platformPlanId: Option<string>, status: Status, trialEndsAt: Option<int>,
    currentPeriodStart: int, currentPeriodEnd: int, lastEventAt: Option<int>, lastReconciledAt: Option<int>,
    pendingPlanCode: Option<string>, pendingPlanEffectiveAt: Option<int>)

  /** What a notice says; an absent field means it did not say. */
  datatype Change = Change(
    status: Status, planCode: Option<string>, platformPlanId: Option<string>, trialEndsAt: Option<int>,
    currentPeriodStart: Option<int>, currentPeriodEnd: Option<int>, occurredAt: int)

  const MONTH_MS := 30 * 86_400_000

  function SeedSubscription(storeId: string, change: Change): Subscription {
    var start := change.currentPeriodStart.GetOr(change.occurredAt);
    Subscription(storeId, change.planCode.GetOr(TRIAL_PLAN), change.platformPlanId, change.status, change.trialEndsAt,
                 start, change.currentPeriodEnd.GetOr(start + MONTH_MS), Some(change.occurredAt), None, None, None)
  }

  predicate IsStale(current: Subscription, occurredAt: int) {
    current.lastEventAt.Some? && occurredAt <= current.lastEventAt.value
  }

  /** A downgrade between known plans, announced before the period already paid for has ended. */
  predicate DeferUntilPeriodEnd(current: Subscription, change: Change) {
    if change.planCode.None? || change.planCode.value == current.planCode then false
    else
      var from, to := PlanOf(current.planCode), PlanOf(change.planCode.value);
      if from.None? || to.None? then false
      else IsDowngrade(from.value, to.value) && change.occurredAt < current.currentPeriodEnd
  }

  datatype ApplyOutcome = Applied(next: Subscription) | Stale

  function ApplyChange(current: Subscription, change: Change): ApplyOutcome {
    if IsStale(current, change.occurredAt) then Stale
    else
      var defer := DeferUntilPeriodEnd(current, change);
      Applied(current.(
        status := change.status,
        planCode := if defer then current.planCode else change.planCode.GetOr(current.planCode),
        pendingPlanCode := if defer then change.planCode else None,
        pendingPlanEffectiveAt := if defer then Some(current.currentPeriodEnd) else None,
        platformPlanId := if change.platformPlanId.Some? then change.platformPlanId else current.platformPlanId,
        trialEndsAt := if change.trialEndsAt.Some? then change.trialEndsAt else current.trialEndsAt,
        currentPeriodStart := change.currentPeriodStart.GetOr(current.currentPeriodStart),
        currentPeriodEnd := change.currentPeriodEnd.GetOr(current.currentPeriodEnd),
        lastEventAt := Some(change.occurredAt)))
  }

  function EffectivePlanCode(s: Subscription, now: int): string {
    if s.pendingPlanCode.None? || s.pendingPlanEffectiveAt.None? then s.planCode
    else if now >= s.pendingPlanEffectiveAt.value then s.pendingPlanCode.value
    else s.planCode
  }

  predicate DiffersFrom(current: Subscription, truth: Change) {
    || current.status != truth.status
    || (truth.planCode.Some? && current.planCode != truth.planCode.value)
    || (truth.platformPlanId.Some? && current.platformPlanId != truth.platformPlanId)
    || (truth.currentPeriodStart.Some? && current.currentPeriodStart != truth.currentPeriodStart.value)
    || (truth.currentPeriodEnd.Some? && current.currentPeriodEnd != truth.currentPeriodEnd.value)
    || (truth.trialEndsAt.Some? && current.trialEndsAt != truth.trialEndsAt)
  }

  datatype ReconcileOutcome = Corrected(next: Subscription) | Unchanged

  /** The platform's current answer wins, without the ordering guard and without touching it. */
  function Reconcile(current: Subscription, truth: Change, at: int): ReconcileOutcome {
    if !DiffersFrom(current, truth) then Unchanged
    else
      Corrected(current.(
        status := truth.status,
        planCode := truth.planCode.GetOr(current.planCode),
        platformPlanId := if truth.platformPlanId.Some? then truth.platformPlanId else current.platformPlanId,
        trialEndsAt := if truth.trialEndsAt.Some? then truth.trialEndsAt else current.trialEndsAt,
        currentPeriodStart := truth.currentPeriodStart.GetOr(current.currentPeriodStart),
        currentPeriodEnd := truth.currentPeriodEnd.GetOr(current.currentPeriodEnd),
        lastReconciledAt := Some(at)))
  }
}
