/** The webhook handler: reads the store's row, seeds or applies, saves, and counts. */
module BillingHandler {
  import opened Prelude
  import opened Plans
  import opened Subscriptions

  datatype EventType =
    | TrialStarted | TrialEnded | SubscriptionStarted | SubscriptionRenewed | SubscriptionUpdated
    | SubscriptionPastDue | SubscriptionCancelled | SubscriptionExpired | AppUninstalled | UnknownEvent

  datatype Facts = Facts(
    status: Status, planCode: Option<string>, platformPlanId: Option<string>, trialEndsAt: Option<int>,
    currentPeriodStart: Option<int>, currentPeriodEnd: Option<int>)

  datatype BillingEvent = BillingEvent(eventType: EventType, occurredAt: int, facts: Facts)

  datatype HandleResult = AppliedTo(subscription: Subscription) | DroppedStale | Ignored

  /** A plan code nobody knows counts as not said. */
  function ToChange(facts: Facts, occurredAt: int): Change {
    Change(facts.status, if facts.planCode.Some? && IsPlanCode(facts.planCode.value) then facts.planCode else None,
           facts.platformPlanId, facts.trialEndsAt, facts.currentPeriodStart, facts.currentPeriodEnd, occurredAt)
  }

  /** The row a change leaves behind: a first one is seeded from it, a stale one is dropped. */
  function Deliver(storeId: string, row: Option<Subscription>, change: Change): Option<Subscription> {
    match row
    case None => Some(SeedSubscription(storeId, change))
    case Some(current) =>
      match ApplyChange(current, change)
      case Stale => row
      case Applied(next) => Some(next)
  }

  function RowOf(rows: map<string, Subscription>, storeId: string): Option<Subscription> {
    if storeId in rows then Some(rows[storeId]) else None
  }

  function ResultOf(storeId: string, row: Option<Subscription>, event: BillingEvent): HandleResult {
    if event.eventType.UnknownEvent? then Ignored
    else
      var change := ToChange(event.facts, event.occurredAt);
      if row.Some? && IsStale(row.value, event.occurredAt) then DroppedStale
      else AppliedTo(Deliver(storeId, row, change).value)
  }

  /** The row an event leaves behind: one nobody knows leaves it alone. */
  function AfterEvent(storeId: string, row: Option<Subscription>, event: BillingEvent): Option<Subscription> {
    if event.eventType.UnknownEvent? then row else Deliver(storeId, row, ToChange(event.facts, event.occurredAt))
  }

  class BillingEventHandler {
    var subscriptions: map<string, Subscription>
    var received: nat
    var processed: nat
    var droppedStale: nat

    /** Every event received is applied, dropped as stale, or ignored, and no row is under a wrong store. */
    ghost predicate Valid() reads this {
      processed + droppedStale <= received && forall id :: id in subscriptions ==> subscriptions[id].storeId == id
    }

    constructor ()
      ensures Valid() && subscriptions == map[] && received == processed == droppedStale == 0
    {
      subscriptions, received, processed, droppedStale := map[], 0, 0, 0;
    }

    method Handle(storeId: string, event: BillingEvent) returns (result: HandleResult)
      requires Valid()
      modifies this
      ensures Valid()
      ensures result == ResultOf(storeId, RowOf(old(subscriptions), storeId), event)
      ensures RowOf(subscriptions, storeId) == AfterEvent(storeId, RowOf(old(subscriptions), storeId), event)
      ensures forall id :: id != storeId ==> RowOf(subscriptions, id) == RowOf(old(subscriptions), id)
      ensures received == old(received) + 1
      ensures processed == old(processed) + if result.AppliedTo? then 1 else 0
      ensures droppedStale == old(droppedStale) + if result.DroppedStale? then 1 else 0
    {
      received := received + 1;
      if event.eventType.UnknownEvent? { return Ignored; }
      var change := ToChange(event.facts, event.occurredAt);
      if storeId !in subscriptions {
        var seeded := SeedSubscription(storeId, change);
        subscriptions := subscriptions[storeId := seeded];
        processed := processed + 1;
        return AppliedTo(seeded);
      }
      var outcome := ApplyChange(subscriptions[storeId], change);
      if outcome.Stale? {
        droppedStale := droppedStale + 1;
        return DroppedStale;
      }
      subscriptions := subscriptions[storeId := outcome.next];
      processed := processed + 1;
      return AppliedTo(outcome.next);
    }
  }
}
