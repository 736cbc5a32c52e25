/**
 * The PIX payment router: opening a payment for a subscription, the
 * provider-style status update, the direct confirmation, and the queries.
 * Both ways of marking a payment paid activate its subscription.
 */
module PixPaymentRouter {
  import opened Wrappers
  import opened Table
  import opened Clock
  import opened Billing
  import opened PixPayload

  /** How long a new payment stays payable. */
  const PaymentWindowMinutes: nat := 30

  /** `myPayments`: every payment of the caller, and no other. */
  function MyPayments(s: Store, user: UserId): (r: map<Id, PixPayment>)
    ensures forall k :: k in r <==> k in s.payments && s.payments[k].userId == user
    ensures forall k :: k in r ==> r[k] == s.payments[k]
  {
    Select(s.payments, (p: PixPayment) => p.userId == user)
  }

  /** `byId`: the payment with that id if the caller owns it. */
  function ById(s: Store, user: UserId, id: Id): (r: Option<PixPayment>)
    ensures r.Some? <==> id in s.payments && s.payments[id].userId == user
    ensures r.Some? ==> r.value == s.payments[id]
  {
    if id in s.payments && s.payments[id].userId == user then Some(s.payments[id]) else None
  }

  /** Looking one payment up by id agrees with the caller's list of payments. */
  lemma ByIdAgreesWithMyPayments(s: Store, user: UserId, id: Id)
    ensures ById(s, user, id).Some? <==> id in MyPayments(s, user)
    ensures ById(s, user, id).Some? ==> ById(s, user, id).value == MyPayments(s, user)[id]
  {
  }

  /** `pendingForSubscription`: a pending, unexpired payment of the caller for that subscription. */
  function PendingForSubscription(s: Store, user: UserId, subscriptionId: Id, now: Time): (r: Option<(Id, PixPayment)>)
    ensures r.Some? ==>
      && r.value.0 in s.payments
      && s.payments[r.value.0] == r.value.1
      && r.value.1.userId == user
      && r.value.1.subscriptionId == subscriptionId
      && r.value.1.status == PaymentStatus.Pending
      && r.value.1.expiresAt > now
    ensures r.None? <==> forall k :: k in s.payments && s.payments[k].userId == user ==> !OpenPayment(s.payments[k], subscriptionId, now)
  {
    match FindFirst(s.payments, (p: PixPayment) => p.userId == user && OpenPayment(p, subscriptionId, now))
    case None => None
    case Some(k) => Some((k, s.payments[k]))
  }

  /** The payment `create` reuses: a pending, unexpired one for the subscription, whoever owns it. */
  function FindOpenPayment(s: Store, subscriptionId: Id, now: Time): (r: Option<Id>)
    ensures r.Some? ==> r.value in s.payments && OpenPayment(s.payments[r.value], subscriptionId, now)
    ensures r.Some? ==> forall k :: k in s.payments && OpenPayment(s.payments[k], subscriptionId, now) ==> r.value <= k
    ensures r.None? <==> forall k :: k in s.payments ==> !OpenPayment(s.payments[k], subscriptionId, now)
  {
    FindFirst(s.payments, (p: PixPayment) => OpenPayment(p, subscriptionId, now))
  }

  /** The row `create` inserts: pending, payable for thirty minutes, with the mock PIX instructions. */
  function NewPayment(user: UserId, subscriptionId: Id, amount: string, now: Time): PixPayment {
    PixPayment(
      subscriptionId, user, amount, PaymentStatus.Pending, AddMinutes(now, PaymentWindowMinutes),
      PixKey, QrCode(user, amount), CopyPaste(user, amount), None, None)
  }

  /**
   * `create`: refuses a subscription the caller does not own; hands back an
   * open payment for the subscription when one exists, changing nothing;
   * otherwise records a new pending payment.
   */
  function Create(s: Store, user: UserId, subscriptionId: Id, amount: string, now: Time): (r: Reply<(Id, PixPayment)>)
    ensures r.result.Err? <==> !(subscriptionId in s.subscriptions && s.subscriptions[subscriptionId].userId == user)
    ensures r.result.Err? ==> r.result.error == SubscriptionNotFound && r.store == s
    ensures r.result.Ok? && (exists k :: k in s.payments && OpenPayment(s.payments[k], subscriptionId, now)) ==>
      && r.store == s
      && r.result.value.0 in s.payments
      && s.payments[r.result.value.0] == r.result.value.1
      && OpenPayment(r.result.value.1, subscriptionId, now)
    ensures r.result.Ok? && (forall k :: k in s.payments ==> !OpenPayment(s.payments[k], subscriptionId, now)) ==>
      var (id, p) := r.result.value;
      && id !in s.payments
      && r.store == s.(payments := s.payments[id := p])
      && p.subscriptionId == subscriptionId
      && p.userId == user
      && p.amount == amount
      && p.status == PaymentStatus.Pending
      && p.expiresAt == now + 30 * 60_000
      && p.pixKey == PixKey
      && p.pixQrCode == QrCode(user, amount)
      && p.pixCopyPaste == p.pixQrCode + "ABCD"
      && p.transactionId.None?
      && p.paidAt.None?
  {
    if subscriptionId !in s.subscriptions || s.subscriptions[subscriptionId].userId != user then
      Reply(Err(SubscriptionNotFound), s)
    else
      match FindOpenPayment(s, subscriptionId, now)
      case Some(k) =>
        Reply(Ok((k, s.payments[k])), s)
      case None =>
        var id := Fresh(s.payments);
        var p := NewPayment(user, subscriptionId, amount, now);
        Reply(Ok((id, p)), s.(payments := s.payments[id := p]))
  }

  /**
   * A payment `create` records for a subscription with no open payment is
   * what `pendingForSubscription` then reports, until it expires.
   */
  lemma CreatedPaymentIsPending(s: Store, user: UserId, subscriptionId: Id, amount: string, now: Time, later: Time)
    requires forall k :: k in s.payments ==> !OpenPayment(s.payments[k], subscriptionId, now)
    requires Create(s, user, subscriptionId, amount, now).result.Ok?
    requires now <= later < AddMinutes(now, PaymentWindowMinutes)
    ensures
      var r := Create(s, user, subscriptionId, amount, now);
      PendingForSubscription(r.store, user, subscriptionId, later) == Some(r.result.value)
  {
  }

  /**
   * A payment `pendingForSubscription` reports to the owner of the
   * subscription is one `create` would hand back instead of opening another.
   */
  lemma PendingIsReused(s: Store, user: UserId, subscriptionId: Id, amount: string, now: Time)
    requires subscriptionId in s.subscriptions && s.subscriptions[subscriptionId].userId == user
    requires PendingForSubscription(s, user, subscriptionId, now).Some?
    ensures
      var r := Create(s, user, subscriptionId, amount, now);
      && r.result.Ok?
      && r.store == s
  {
  }

  /**
   * The second write of both paid paths: set the owning subscription to
   * `active`, whatever its status. The database rejects a missing row, and
   * the payment write before it stays.
   */
  function ActivateOwner(s: Store, subscriptionId: Id, value: (Id, PixPayment)): (r: Reply<(Id, PixPayment)>)
    ensures r.result.Ok? <==> subscriptionId in s.subscriptions
    ensures r.result.Ok? ==> r.result.value == value
    ensures r.result.Err? ==> r.result.error == RecordNotFound && r.store == s
    ensures r.result.Ok? ==>
      && r.store.plans == s.plans
      && r.store.payments == s.payments
      && r.store.subscriptions.Keys == s.subscriptions.Keys
      && r.store.subscriptions[subscriptionId].status == SubscriptionStatus.Active
      && r.store.subscriptions[subscriptionId].(status := SubscriptionStatus.Pending)
         == s.subscriptions[subscriptionId].(status := SubscriptionStatus.Pending)
      && forall k :: k in s.subscriptions && k != subscriptionId ==> r.store.subscriptions[k] == s.subscriptions[k]
  {
    if subscriptionId in s.subscriptions then
      var sub := s.subscriptions[subscriptionId].(status := SubscriptionStatus.Active);
      Reply(Ok(value), s.(subscriptions := s.subscriptions[subscriptionId := sub]))
    else
      Reply(Err(RecordNotFound), s)
  }

  /**
   * `updateStatus`, the webhook stand-in: refuses an unknown payment; sets
   * the status and, when one is given, the transaction id; stamps `paidAt`
   * only for `paid`. A `paid` update then activates the subscription.
   */
  function UpdateStatus(s: Store, id: Id, status: PaymentStatus, transactionId: Option<string>, now: Time): (r: Reply<(Id, PixPayment)>)
    ensures r.result == Err(PaymentNotFound) <==> id !in s.payments
    ensures id !in s.payments ==> r.store == s
    ensures r.store.plans == s.plans
    ensures r.store.payments.Keys == s.payments.Keys
    ensures forall k :: k in s.payments && k != id ==> r.store.payments[k] == s.payments[k]
    ensures id in s.payments ==>
      var before := s.payments[id];
      var after := r.store.payments[id];
      && after.status == status
      && after.transactionId == (if transactionId.Some? then transactionId else before.transactionId)
      && (status == PaymentStatus.Paid ==> after.paidAt == Some(now))
      && (status != PaymentStatus.Paid ==> after.paidAt == before.paidAt)
      && after.(status := before.status, transactionId := before.transactionId, paidAt := before.paidAt) == before
    ensures r.result.Ok? ==> r.result.value == (id, r.store.payments[id])
    ensures status != PaymentStatus.Paid ==> r.store.subscriptions == s.subscriptions
    ensures id in s.payments && status != PaymentStatus.Paid ==> r.result.Ok?
    ensures id in s.payments && status == PaymentStatus.Paid ==>
      var owner := s.payments[id].subscriptionId;
      if owner in s.subscriptions then
        && r.result.Ok?
        && r.store.subscriptions == s.subscriptions[owner := s.subscriptions[owner].(status := SubscriptionStatus.Active)]
      else
        r.result == Err(RecordNotFound) && r.store.subscriptions == s.subscriptions
  {
    if id !in s.payments then
      Reply(Err(PaymentNotFound), s)
    else
      var before := s.payments[id];
      var after := before.(
        status := status,
        transactionId := if transactionId.Some? then transactionId else before.transactionId,
        paidAt := if status == PaymentStatus.Paid then Some(now) else before.paidAt);
      var written := s.(payments := s.payments[id := after]);
      if status == PaymentStatus.Paid then
        ActivateOwner(written, before.subscriptionId, (id, after))
      else
        Reply(Ok((id, after)), written)
  }

  /**
   * `confirmPayment`, the direct confirmation: refuses a payment the caller
   * does not own and one already paid; a payment past its expiry is marked
   * expired and refused; otherwise the payment is paid now under the given
   * transaction id and the subscription is activated.
   */
  function ConfirmPayment(s: Store, user: UserId, id: Id, transactionId: string, now: Time): (r: Reply<(Id, PixPayment)>)
    ensures r.result == Err(PaymentNotFound) <==> !(id in s.payments && s.payments[id].userId == user)
    ensures r.result == Err(AlreadyConfirmed) <==>
      id in s.payments && s.payments[id].userId == user && s.payments[id].status == PaymentStatus.Paid
    ensures r.result == Err(PaymentExpired) <==>
      && id in s.payments && s.payments[id].userId == user
      && s.payments[id].status != PaymentStatus.Paid
      && s.payments[id].expiresAt < now
    ensures r.result == Err(PaymentNotFound) || r.result == Err(AlreadyConfirmed) ==> r.store == s
    ensures r.result == Err(PaymentExpired) ==>
      r.store == s.(payments := s.payments[id := s.payments[id].(status := PaymentStatus.Expired)])
    ensures r.store.plans == s.plans
    ensures
      && id in s.payments && s.payments[id].userId == user
      && s.payments[id].status != PaymentStatus.Paid
      && now <= s.payments[id].expiresAt
      ==>
      var before := s.payments[id];
      var after := before.(status := PaymentStatus.Paid, paidAt := Some(now), transactionId := Some(transactionId));
      && r.store.payments == s.payments[id := after]
      && (before.subscriptionId in s.subscriptions ==>
            && r.result == Ok((id, after))
            && r.store.subscriptions == s.subscriptions[before.subscriptionId := s.subscriptions[before.subscriptionId].(status := SubscriptionStatus.Active)])
      && (before.subscriptionId !in s.subscriptions ==>
            r.result == Err(RecordNotFound) && r.store.subscriptions == s.subscriptions)
  {
    if id !in s.payments || s.payments[id].userId != user then
      Reply(Err(PaymentNotFound), s)
    else if s.payments[id].status == PaymentStatus.Paid then
      Reply(Err(AlreadyConfirmed), s)
    else if s.payments[id].expiresAt < now then
      Reply(Err(PaymentExpired), s.(payments := s.payments[id := s.payments[id].(status := PaymentStatus.Expired)]))
    else
      var before := s.payments[id];
      var after := before.(status := PaymentStatus.Paid, paidAt := Some(now), transactionId := Some(transactionId));
      ActivateOwner(s.(payments := s.payments[id := after]), before.subscriptionId, (id, after))
  }
}
