/**
 * The billing records (plans, subscriptions, PIX payments), the store that
 * holds them, and the errors the billing routers throw.
 */
module Billing {
  import opened Wrappers
  import opened Table
  import opened Clock

  /** The authenticated caller's id, as the session supplies it. */
  type UserId = string

  /** A plan price, in cents; the database keeps it as a decimal and sorts by its value. */
  type Cents = nat

  datatype Interval = Monthly | Quarterly | Yearly

  datatype Plan = Plan(
    name: string,
    description: Option<string>,
    price: Cents,
    interval: Interval,
    features: seq<string>,
    isActive: bool)

  datatype SubscriptionStatus = Pending | Active | Cancelled | Expired

  datatype Subscription = Subscription(
    userId: UserId,
    planId: Id,
    status: SubscriptionStatus,
    startDate: Time,
    endDate: Option<Time>,
    cancelledAt: Option<Time>)

  datatype PaymentStatus = Pending | Paid | Expired | Cancelled

  datatype PixPayment = PixPayment(
    subscriptionId: Id,
    userId: UserId,
    amount: string,
    status: PaymentStatus,
    expiresAt: Time,
    pixKey: string,
    pixQrCode: string,
    pixCopyPaste: string,
    transactionId: Option<string>,
    paidAt: Option<Time>)

  /** The three tables the routers read and write. */
  datatype Store = Store(
    plans: map<Id, Plan>,
    subscriptions: map<Id, Subscription>,
    payments: map<Id, PixPayment>)

  /** The errors the handlers throw, one per message in the routers. */
  datatype Error =
    | ActiveSubscriptionExists   // "User already has an active subscription"
    | InvalidOrInactivePlan      // "Invalid or inactive subscription plan"
    | SubscriptionNotFound       // "Subscription not found"
    | AlreadyCancelled           // "Subscription is already cancelled"
    | PaymentNotFound            // "Payment not found"
    | AlreadyConfirmed           // "Payment already confirmed"
    | PaymentExpired             // "Payment expired"
    | RecordNotFound             // the database's own error when `update` finds no row

  /** What a mutation hands back, together with the store as it leaves it. */
  datatype Reply<T> = Reply(result: Result<T, Error>, store: Store)

  /**
   * The filter every "active subscription" query uses: status `active` and
   * either no end date or an end date strictly after now.
   */
  predicate LiveActive(s: Subscription, now: Time) {
    s.status == SubscriptionStatus.Active && (s.endDate.None? || s.endDate.value > now)
  }

  /** The filter of the "pending payment" queries: status `pending` and not yet past its expiry. */
  predicate OpenPayment(p: PixPayment, subscriptionId: Id, now: Time) {
    p.subscriptionId == subscriptionId && p.status == PaymentStatus.Pending && p.expiresAt > now
  }
}
