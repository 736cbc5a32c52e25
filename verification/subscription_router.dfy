/**
 * The subscription router: a user's subscriptions, the active one, and
 * the two mutations, subscribing to a plan and cancelling.
 */
module SubscriptionRouter {
  import opened Wrappers
  import opened Table
  import opened Clock
  import opened Billing

  /** How many months one billing period of the interval spans. */
  function IntervalMonths(i: Interval): (n: nat)
    ensures n > 0
  {
    match i
    case Monthly => 1
    case Quarterly => 3
    case Yearly => 12
  }

  /** The end date a new subscription gets: one billing period after its start. */
  function EndDate(start: Time, i: Interval): (r: Time)
    ensures r > start
  {
    AddMonths(start, IntervalMonths(i))
  }

  /** A quarter is three consecutive months and a year twelve. */
  lemma EndDateByInterval(t: Time)
    ensures EndDate(t, Monthly) == AddMonths(t, 1)
    ensures EndDate(t, Quarterly) == AddMonths(t, 3)
    ensures EndDate(t, Yearly) == AddMonths(t, 12)
    ensures EndDate(t, Quarterly) == EndDate(EndDate(EndDate(t, Monthly), Monthly), Monthly)
    ensures EndDate(t, Yearly) == EndDate(EndDate(EndDate(EndDate(t, Quarterly), Quarterly), Quarterly), Quarterly)
  {
  }

  /** `mySubscriptions`: every subscription of the caller, and no other. */
  function MySubscriptions(s: Store, user: UserId): (r: map<Id, Subscription>)
    ensures forall k :: k in r <==> k in s.subscriptions && s.subscriptions[k].userId == user
    ensures forall k :: k in r ==> r[k] == s.subscriptions[k]
  {
    Select(s.subscriptions, (x: Subscription) => x.userId == user)
  }

  /** `byId`: the subscription with that id if the caller owns it. */
  function ById(s: Store, user: UserId, id: Id): (r: Option<Subscription>)
    ensures r.Some? <==> id in s.subscriptions && s.subscriptions[id].userId == user
    ensures r.Some? ==> r.value == s.subscriptions[id]
  {
    if id in s.subscriptions && s.subscriptions[id].userId == user then Some(s.subscriptions[id]) else None
  }

  /** Looking one subscription up by id agrees with the caller's list of subscriptions. */
  lemma ByIdAgreesWithMySubscriptions(s: Store, user: UserId, id: Id)
    ensures ById(s, user, id).Some? <==> id in MySubscriptions(s, user)
    ensures ById(s, user, id).Some? ==> ById(s, user, id).value == MySubscriptions(s, user)[id]
  {
  }

  /** The caller's live active subscription, if any: the query both `myActiveSubscription` and `create` run. */
  function FindLiveActive(s: Store, user: UserId, now: Time): (r: Option<Id>)
    ensures r.Some? ==> r.value in s.subscriptions && s.subscriptions[r.value].userId == user
    ensures r.Some? ==> LiveActive(s.subscriptions[r.value], now)
    ensures r.None? <==> forall k :: k in s.subscriptions && s.subscriptions[k].userId == user ==> !LiveActive(s.subscriptions[k], now)
  {
    FindFirst(s.subscriptions, (x: Subscription) => x.userId == user && LiveActive(x, now))
  }

  /**
   * `myActiveSubscription`: a subscription of the caller with status
   * `active` whose end date is absent or still ahead; none when there is none.
   */
  function MyActiveSubscription(s: Store, user: UserId, now: Time): (r: Option<(Id, Subscription)>)
    ensures r.Some? ==>
      && r.value.0 in s.subscriptions
      && s.subscriptions[r.value.0] == r.value.1
      && r.value.1.userId == user
      && r.value.1.status == SubscriptionStatus.Active
      && (r.value.1.endDate.None? || r.value.1.endDate.value > now)
    ensures r.None? <==> !exists k :: k in s.subscriptions && s.subscriptions[k].userId == user && LiveActive(s.subscriptions[k], now)
  {
    match FindLiveActive(s, user, now)
    case None => None
    case Some(k) => Some((k, s.subscriptions[k]))
  }

  /**
   * `create`: refuses while the caller has a live active subscription, then
   * refuses an unknown or inactive plan; otherwise records a new pending
   * subscription starting now and ending one billing period later.
   */
  function Create(s: Store, user: UserId, planId: Id, now: Time): (r: Reply<(Id, Subscription)>)
    ensures r.result == Err(ActiveSubscriptionExists) <==>
      exists k :: k in s.subscriptions && s.subscriptions[k].userId == user && LiveActive(s.subscriptions[k], now)
    ensures r.result == Err(InvalidOrInactivePlan) <==>
      && (forall k :: k in s.subscriptions && s.subscriptions[k].userId == user ==> !LiveActive(s.subscriptions[k], now))
      && (planId !in s.plans || !s.plans[planId].isActive)
    ensures r.result.Ok? <==>
      && (forall k :: k in s.subscriptions && s.subscriptions[k].userId == user ==> !LiveActive(s.subscriptions[k], now))
      && planId in s.plans && s.plans[planId].isActive
    ensures r.result.Err? ==> r.store == s
    ensures r.result.Ok? ==>
      var (id, sub) := r.result.value;
      && id !in s.subscriptions
      && r.store == s.(subscriptions := s.subscriptions[id := sub])
      && planId in s.plans
      && sub == Subscription(user, planId, SubscriptionStatus.Pending, now, Some(EndDate(now, s.plans[planId].interval)), None)
  {
    if FindLiveActive(s, user, now).Some? then
      Reply(Err(ActiveSubscriptionExists), s)
    else if planId !in s.plans || !s.plans[planId].isActive then
      Reply(Err(InvalidOrInactivePlan), s)
    else
      var id := Fresh(s.subscriptions);
      var sub := Subscription(user, planId, SubscriptionStatus.Pending, now, Some(EndDate(now, s.plans[planId].interval)), None);
      Reply(Ok((id, sub)), s.(subscriptions := s.subscriptions[id := sub]))
  }

  /**
   * `cancel`: refuses a subscription the caller does not own and one already
   * cancelled; otherwise marks it cancelled now, whatever its status was.
   */
  function Cancel(s: Store, user: UserId, id: Id, now: Time): (r: Reply<(Id, Subscription)>)
    ensures r.result == Err(SubscriptionNotFound) <==> !(id in s.subscriptions && s.subscriptions[id].userId == user)
    ensures r.result == Err(AlreadyCancelled) <==>
      id in s.subscriptions && s.subscriptions[id].userId == user && s.subscriptions[id].status == SubscriptionStatus.Cancelled
    ensures r.result.Ok? <==>
      id in s.subscriptions && s.subscriptions[id].userId == user && s.subscriptions[id].status != SubscriptionStatus.Cancelled
    ensures r.result.Err? ==> r.store == s
    ensures r.result.Ok? ==>
      && id in s.subscriptions
      && s.subscriptions[id].status != SubscriptionStatus.Cancelled
      && r.result.value == (id, s.subscriptions[id].(status := SubscriptionStatus.Cancelled, cancelledAt := Some(now)))
      && r.store == s.(subscriptions := s.subscriptions[id := r.result.value.1])
  {
    if id !in s.subscriptions || s.subscriptions[id].userId != user then
      Reply(Err(SubscriptionNotFound), s)
    else if s.subscriptions[id].status == SubscriptionStatus.Cancelled then
      Reply(Err(AlreadyCancelled), s)
    else
      var sub := s.subscriptions[id].(status := SubscriptionStatus.Cancelled, cancelledAt := Some(now));
      Reply(Ok((id, sub)), s.(subscriptions := s.subscriptions[id := sub]))
  }
}
