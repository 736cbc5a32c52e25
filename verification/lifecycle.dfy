/**
 * Properties that relate several handlers: how a request changes what a
 * later request sees, and which consistency rules the handlers keep.
 */
module Lifecycle {
  import opened Wrappers
  import opened Table
  import opened Clock
  import opened Billing
  import PlanRouter
  import SubscriptionRouter
  import PixPaymentRouter

  /** Referential integrity the database's foreign keys keep: payments point at subscriptions, subscriptions at plans. */
  predicate WellFormed(s: Store) {
    && (forall k :: k in s.payments ==> s.payments[k].subscriptionId in s.subscriptions)
    && (forall k :: k in s.subscriptions ==> s.subscriptions[k].planId in s.plans)
  }

  /** The design rule for subscriptions: a user has at most one live active subscription. */
  predicate AtMostOneLiveActive(s: Store, user: UserId, now: Time) {
    forall j, k ::
      j in s.subscriptions && k in s.subscriptions
      && s.subscriptions[j].userId == user && s.subscriptions[k].userId == user
      && LiveActive(s.subscriptions[j], now) && LiveActive(s.subscriptions[k], now)
      ==> j == k
  }

  /** A plan that has been deactivated can no longer be subscribed to. */
  lemma DeactivateBlocksSubscribing(s: Store, planId: Id, user: UserId, now: Time)
    requires planId in s.plans
    ensures
      var r := SubscriptionRouter.Create(PlanRouter.Deactivate(s, planId).store, user, planId, now);
      && r.result.Err?
      && (SubscriptionRouter.MyActiveSubscription(s, user, now).None? ==> r.result == Err(InvalidOrInactivePlan))
  {
  }

  /** A second cancellation fails and keeps the first cancellation's timestamp. */
  lemma CancelTwice(s: Store, user: UserId, id: Id, now: Time, later: Time)
    requires SubscriptionRouter.Cancel(s, user, id, now).result.Ok?
    ensures
      var s1 := SubscriptionRouter.Cancel(s, user, id, now).store;
      && s1.subscriptions[id].cancelledAt == Some(now)
      && SubscriptionRouter.Cancel(s1, user, id, later) == Reply(Err(AlreadyCancelled), s1)
  {
  }

  /**
   * Opening a payment twice, the second time before the first one returned
   * expires, returns the same payment and changes nothing the second time.
   */
  lemma PixCreateIdempotent(s: Store, user: UserId, subscriptionId: Id, amount: string, amount2: string, now: Time, now2: Time)
    requires PixPaymentRouter.Create(s, user, subscriptionId, amount, now).result.Ok?
    requires now <= now2 < PixPaymentRouter.Create(s, user, subscriptionId, amount, now).result.value.1.expiresAt
    ensures
      var r1 := PixPaymentRouter.Create(s, user, subscriptionId, amount, now);
      PixPaymentRouter.Create(r1.store, user, subscriptionId, amount2, now2) == Reply(r1.result, r1.store)
  {
    var r1 := PixPaymentRouter.Create(s, user, subscriptionId, amount, now);
    var s1 := r1.store;
    var (id1, p1) := r1.result.value;
    var existing := PixPaymentRouter.FindOpenPayment(s, subscriptionId, now);
    assert s1.subscriptions == s.subscriptions;
    assert id1 in s1.payments && s1.payments[id1] == p1;
    assert OpenPayment(p1, subscriptionId, now2);
    forall k | k in s1.payments && OpenPayment(s1.payments[k], subscriptionId, now2)
      ensures id1 <= k
    {
      if k != id1 {
        assert k in s.payments && s1.payments[k] == s.payments[k];
        assert OpenPayment(s.payments[k], subscriptionId, now);
        assert existing.Some?;
      }
    }
    var found := PixPaymentRouter.FindOpenPayment(s1, subscriptionId, now2);
    assert found == Some(id1);
  }

  /** A second confirmation of a confirmed payment fails and changes nothing. */
  lemma ConfirmTwice(s: Store, user: UserId, id: Id, txn: string, txn2: string, now: Time, later: Time)
    requires PixPaymentRouter.ConfirmPayment(s, user, id, txn, now).result.Ok?
    ensures
      var s1 := PixPaymentRouter.ConfirmPayment(s, user, id, txn, now).store;
      PixPaymentRouter.ConfirmPayment(s1, user, id, txn2, later) == Reply(Err(AlreadyConfirmed), s1)
  {
  }

  /** Confirming an open payment of one's own is the provider's `paid` update with the generated transaction id. */
  lemma ConfirmIsPaidUpdate(s: Store, user: UserId, id: Id, txn: string, now: Time)
    requires id in s.payments && s.payments[id].userId == user
    requires s.payments[id].status != PaymentStatus.Paid && now <= s.payments[id].expiresAt
    ensures PixPaymentRouter.ConfirmPayment(s, user, id, txn, now)
         == PixPaymentRouter.UpdateStatus(s, id, PaymentStatus.Paid, Some(txn), now)
  {
  }

  /** The plan mutations keep the store's references intact. */
  lemma PlanMutationsPreserveWellFormed(s: Store, id: Id, patch: PlanRouter.PlanPatch)
    requires WellFormed(s)
    ensures WellFormed(PlanRouter.Update(s, id, patch).store)
    ensures WellFormed(PlanRouter.Deactivate(s, id).store)
  {
  }

  /** Subscribing keeps the store's references intact: the plan exists and the new row is unreferenced. */
  lemma SubscriptionCreatePreservesWellFormed(s: Store, user: UserId, planId: Id, now: Time)
    requires WellFormed(s)
    ensures WellFormed(SubscriptionRouter.Create(s, user, planId, now).store)
  {
  }

  /** Cancelling keeps the store's references intact. */
  lemma CancelPreservesWellFormed(s: Store, user: UserId, id: Id, now: Time)
    requires WellFormed(s)
    ensures WellFormed(SubscriptionRouter.Cancel(s, user, id, now).store)
  {
  }

  /** Opening a payment keeps the store's references intact: it is only opened for an existing subscription. */
  lemma PixCreatePreservesWellFormed(s: Store, user: UserId, subscriptionId: Id, amount: string, now: Time)
    requires WellFormed(s)
    ensures WellFormed(PixPaymentRouter.Create(s, user, subscriptionId, amount, now).store)
  {
  }

  /** The provider's status update keeps the store's references intact. */
  lemma UpdateStatusPreservesWellFormed(s: Store, id: Id, status: PaymentStatus, txn: Option<string>, now: Time)
    requires WellFormed(s)
    ensures WellFormed(PixPaymentRouter.UpdateStatus(s, id, status, txn, now).store)
  {
  }

  /** The direct confirmation keeps the store's references intact. */
  lemma ConfirmPreservesWellFormed(s: Store, user: UserId, id: Id, txn: string, now: Time)
    requires WellFormed(s)
    ensures WellFormed(PixPaymentRouter.ConfirmPayment(s, user, id, txn, now).store)
  {
  }

  /** In a well-formed store the provider's `paid` update always activates the payment's subscription, whatever its status was. */
  lemma PaidUpdateActivates(s: Store, id: Id, txn: Option<string>, now: Time)
    requires WellFormed(s) && id in s.payments
    ensures
      var r := PixPaymentRouter.UpdateStatus(s, id, PaymentStatus.Paid, txn, now);
      && r.result.Ok?
      && r.store.subscriptions[s.payments[id].subscriptionId].status == SubscriptionStatus.Active
  {
  }

  /** A successful subscription leaves the caller with no live active subscription, so at most one. */
  lemma CreateKeepsSingleActive(s: Store, user: UserId, planId: Id, now: Time)
    requires SubscriptionRouter.Create(s, user, planId, now).result.Ok?
    ensures SubscriptionRouter.MyActiveSubscription(SubscriptionRouter.Create(s, user, planId, now).store, user, now).None?
    ensures AtMostOneLiveActive(SubscriptionRouter.Create(s, user, planId, now).store, user, now)
  {
  }

  /** Cancelling never creates a second live active subscription. */
  lemma CancelKeepsSingleActive(s: Store, user: UserId, other: UserId, id: Id, now: Time, later: Time)
    requires AtMostOneLiveActive(s, other, later)
    ensures AtMostOneLiveActive(SubscriptionRouter.Cancel(s, user, id, now).store, other, later)
  {
  }

  /**
   * Subscribing to an active plan, opening a payment and confirming it
   * before it expires leaves the new subscription as the caller's active one.
   */
  lemma SubscribeAndPay(s: Store, user: UserId, planId: Id, amount: string, txn: string, now: Time, paidAt: Time)
    requires WellFormed(s)
    requires planId in s.plans && s.plans[planId].isActive
    requires SubscriptionRouter.MyActiveSubscription(s, user, now).None?
    requires now <= paidAt <= now + PixPaymentRouter.PaymentWindowMinutes * MinuteMs
    ensures
      var r1 := SubscriptionRouter.Create(s, user, planId, now);
      && r1.result.Ok?
      && var sid := r1.result.value.0;
      var r2 := PixPaymentRouter.Create(r1.store, user, sid, amount, now);
      && r2.result.Ok?
      && var r3 := PixPaymentRouter.ConfirmPayment(r2.store, user, r2.result.value.0, txn, paidAt);
      && r3.result.Ok?
      && SubscriptionRouter.MyActiveSubscription(r3.store, user, paidAt).Some?
      && SubscriptionRouter.MyActiveSubscription(r3.store, user, paidAt).value.0 == sid
  {
  }

  /** Creating a subscription adds exactly it to the caller's list. */
  lemma CreateExtendsMySubscriptions(s: Store, user: UserId, planId: Id, now: Time)
    requires SubscriptionRouter.Create(s, user, planId, now).result.Ok?
    ensures
      var r := SubscriptionRouter.Create(s, user, planId, now);
      SubscriptionRouter.MySubscriptions(r.store, user)
        == SubscriptionRouter.MySubscriptions(s, user)[r.result.value.0 := r.result.value.1]
  {
  }

  /** A user paying for a subscription: opening a payment for it and confirming that payment at once. */
  function PayFor(s: Store, user: UserId, sid: Id, amount: string, txn: string, now: Time): Reply<(Id, PixPayment)> {
    var opening := PixPaymentRouter.Create(s, user, sid, amount, now);
    if opening.result.Err? then opening
    else PixPaymentRouter.ConfirmPayment(opening.store, user, opening.result.value.0, txn, now)
  }

  /** Paying at once for a subscription that has no payment yet activates exactly that subscription. */
  lemma OpenAndConfirm(s: Store, user: UserId, sid: Id, amount: string, txn: string, now: Time)
    requires WellFormed(s)
    requires sid in s.subscriptions && s.subscriptions[sid].userId == user
    requires forall k :: k in s.payments ==> s.payments[k].subscriptionId != sid
    ensures
      var r := PayFor(s, user, sid, amount, txn, now);
      && r.result.Ok?
      && r.store.plans == s.plans
      && r.store.subscriptions == s.subscriptions[sid := s.subscriptions[sid].(status := SubscriptionStatus.Active)]
      && WellFormed(r.store)
      && forall k :: k in r.store.payments ==>
           || (k in s.payments && r.store.payments[k].subscriptionId == s.payments[k].subscriptionId)
           || r.store.payments[k].subscriptionId == sid
  {
  }

  /** While neither is active yet, a user can subscribe twice: two distinct pending rows, no payment for either. */
  lemma SubscribeTwice(s: Store, user: UserId, planId: Id, now: Time)
    requires WellFormed(s)
    requires planId in s.plans && s.plans[planId].isActive
    requires SubscriptionRouter.MyActiveSubscription(s, user, now).None?
    ensures
      var a := SubscriptionRouter.Create(s, user, planId, now);
      && a.result.Ok?
      && var b := SubscriptionRouter.Create(a.store, user, planId, now);
      && b.result.Ok?
      && var (sa, sb) := (a.result.value.0, b.result.value.0);
      && sa != sb
      && WellFormed(b.store)
      && sa in b.store.subscriptions && sb in b.store.subscriptions
      && b.store.subscriptions[sa] == a.result.value.1
      && b.store.subscriptions[sb] == b.result.value.1
      && forall k :: k in b.store.payments ==> b.store.payments[k].subscriptionId != sa && b.store.payments[k].subscriptionId != sb
  {
  }

  /**
   * The rule of one live active subscription per user is not kept: a user
   * may subscribe twice while neither subscription is active yet, and paying
   * for both activates both, because payment activates unconditionally.
   */
  lemma PayingTwoPendingBreaksSingleActive(s: Store, user: UserId, planId: Id, amount: string, txn: string, now: Time)
    requires WellFormed(s)
    requires planId in s.plans && s.plans[planId].isActive
    requires SubscriptionRouter.MyActiveSubscription(s, user, now).None?
    ensures
      var a := SubscriptionRouter.Create(s, user, planId, now);
      var b := SubscriptionRouter.Create(a.store, user, planId, now);
      var pa := PayFor(b.store, user, a.result.value.0, amount, txn, now);
      var pb := PayFor(pa.store, user, b.result.value.0, amount, txn, now);
      && a.result.Ok? && b.result.Ok? && pa.result.Ok? && pb.result.Ok?
      && !AtMostOneLiveActive(pb.store, user, now)
  {
    SubscribeTwice(s, user, planId, now);
    var a := SubscriptionRouter.Create(s, user, planId, now);
    var b := SubscriptionRouter.Create(a.store, user, planId, now);
    var (sa, sb) := (a.result.value.0, b.result.value.0);
    OpenAndConfirm(b.store, user, sa, amount, txn, now);
    var pa := PayFor(b.store, user, sa, amount, txn, now);
    OpenAndConfirm(pa.store, user, sb, amount, txn, now);
    var pb := PayFor(pa.store, user, sb, amount, txn, now);
    assert pb.store.subscriptions[sa] == a.result.value.1.(status := SubscriptionStatus.Active);
    assert pb.store.subscriptions[sb] == b.result.value.1.(status := SubscriptionStatus.Active);
  }
}
