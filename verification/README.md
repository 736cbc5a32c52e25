# Billing lifecycle of the subscription API, in Dafny

This project models the billing rules of the API routers: subscription plans, user
subscriptions and PIX payments, and the handlers that move them between statuses.

- The database is a `Store` of three maps from record id to record: `plans`, `subscriptions` and `payments`.
- Each handler is a pure function from (store, caller id, input, current time) to a `Reply`.
  A `Reply` is the handler's result (a value, or the error it throws) together with the store as the handler leaves it.
- The caller id is the authenticated user the session check supplies.
- Time is a natural number of milliseconds, passed in as `now`.

Modules, one per source file or concern:

- `Wrappers`: `Option` and `Result`.
- `Table`: identifiers, fresh-id allocation and the `findFirst`/`findMany` queries.
  `findFirst` picks the least matching id. The contracts of `Table.FindFirst` and `PixPaymentRouter.FindOpenPayment` state that choice; the other first-match queries promise only a matching row.
  The database itself leaves the choice among several matching rows open.
- `Clock`: time, and minute and month arithmetic.
- `Billing`: the records, the store, the errors and the "live active subscription" and "open payment" filters.
- `PlanRouter`: `packages/api/src/router/subscription-plan.ts`.
- `SubscriptionRouter`: `packages/api/src/router/subscription.ts`.
- `PixPayload`: the mock PIX strings a new payment carries.
- `PixPaymentRouter`: `packages/api/src/router/pix-payment.ts`, including the 30-minute payment window.
- `Lifecycle`: properties that span several handlers.

Four behaviours of the code are worth knowing. Each item says what one might expect and then what the code does; the model follows the code:

- One might expect separate errors for a missing plan and an inactive plan. Subscription `create` throws one error, "Invalid or inactive subscription plan", for both.
- One might expect a payment to move only from `pending` to a final status. The `updateStatus` handler itself does not restrict the status it writes.
  Which statuses can reach it depends on its input schema, which is not part of this model.
- One might expect only a `pending` payment to be payable. `confirmPayment` also pays a payment whose status is `expired` or `cancelled`, as long as its `expiresAt` is not yet past.
- One might expect a user to have at most one live active subscription. The code does not keep this rule, even without concurrency.
  A user may subscribe twice while both subscriptions are still pending, since `create` only looks for an *active* one.
  Paying for both then activates both. `Lifecycle.PayingTwoPendingBreaksSingleActive` proves this for every well-formed store in which the plan is active and the user has no live active subscription.
  Guarding activation is left as an open design question, so the model keeps the unconditional activation.

## Model

| member | source | states |
|---|---|---|
| `PlanRouter.All` | packages/api/src/router/subscription-plan.ts:16-20 | lists every active plan exactly once (an entry is listed iff `byId` finds that plan), with no duplicates, in ascending price order |
| `PlanRouter.InsertByPrice` | packages/api/src/router/subscription-plan.ts:19 | inserting into a price-sorted listing keeps it sorted, adds exactly the new entry and keeps the listing free of duplicates |
| `PlanRouter.ById` | packages/api/src/router/subscription-plan.ts:23-29 | finds a plan iff its id exists and it is active; an inactive plan is not returned even though its row exists |
| `PlanRouter.Update` | packages/api/src/router/subscription-plan.ts:47-56 | an unknown id fails with the database's not-found error and changes nothing; otherwise each supplied field is written, each absent field keeps its value, and no other plan, subscription or payment changes |
| `PlanRouter.Deactivate` | packages/api/src/router/subscription-plan.ts:58-66 | an unknown id fails and changes nothing; otherwise only `isActive` of that plan becomes false and every other field and record is unchanged |
| `PlanRouter.DeactivateIdempotent` | packages/api/src/router/subscription-plan.ts:62-65 | deactivating twice leaves the same store as deactivating once |
| `PlanRouter.DeactivateIsUpdate` | packages/api/src/router/subscription-plan.ts:47-66 | deactivation is exactly the update that supplies only `isActive = false` |
| `PlanRouter.DeactivateHidesPlan` | packages/api/src/router/subscription-plan.ts:58-66 | after deactivation the plan row still exists but the public lookup returns none |
| `SubscriptionRouter.EndDate` | packages/api/src/router/subscription.ts:95-108 | a new subscription's end date is strictly after its start date |
| `SubscriptionRouter.EndDateByInterval` | packages/api/src/router/subscription.ts:97-108 | monthly adds one month, quarterly three and yearly twelve; under the fixed-month abstraction, a quarter also equals three monthly periods in a row and a year four quarterly periods |
| `SubscriptionRouter.MySubscriptions` | packages/api/src/router/subscription.ts:18-31 | returns exactly the caller's subscriptions, unchanged |
| `SubscriptionRouter.ById` | packages/api/src/router/subscription.ts:49-65 | returns the subscription iff it exists and the caller owns it |
| `SubscriptionRouter.ByIdAgreesWithMySubscriptions` | packages/api/src/router/subscription.ts:18-65 | looking a subscription up by id finds it iff it is in the caller's list, and finds the same row |
| `SubscriptionRouter.FindLiveActive` | packages/api/src/router/subscription.ts:74-80 | finds a subscription of the caller that is active with no end date or a later one; finds none iff there is none |
| `SubscriptionRouter.MyActiveSubscription` | packages/api/src/router/subscription.ts:34-46 | any record returned is the caller's, has status `active` and has no end date or an end date after now; none is returned iff no such record exists |
| `SubscriptionRouter.Create` | packages/api/src/router/subscription.ts:68-125 | fails with "already active" iff the caller has a live active subscription; otherwise fails with "invalid plan" iff the plan is missing or inactive; succeeds iff neither holds; both failures leave the store unchanged; success adds exactly one fresh pending row with the caller, the plan, start = now, end = one plan interval later and no cancellation time, and changes nothing else |
| `SubscriptionRouter.Cancel` | packages/api/src/router/subscription.ts:128-155 | fails with not-found iff the subscription is missing or not the caller's, and with "already cancelled" iff it is cancelled; succeeds iff the caller owns it and it is not cancelled, so from `pending`, `active` or `expired`; failures change nothing; on success it becomes `cancelled` with `cancelledAt = now`, and nothing else changes |
| `PixPayload.QrCode` | packages/api/src/router/pix-payment.ts:119 | the QR payload is the fixed header, then the user id, then the fixed amount fields, then the amount, then the fixed trailer |
| `PixPayload.CopyPaste` | packages/api/src/router/pix-payment.ts:120 | the copy-paste payload, written as its own template, equals the QR payload followed by `ABCD` |
| `PixPayload.ParseQr` | packages/api/src/router/pix-payment.ts:119 | whatever it reads back is a user id of the requested length and an amount whose QR payload is exactly the input |
| `PixPayload.ParseQrRoundTrip` | packages/api/src/router/pix-payment.ts:119 | every QR payload a payment is created with reads back as its user id and amount |
| `PixPaymentRouter.MyPayments` | packages/api/src/router/pix-payment.ts:17-30 | returns exactly the caller's payments, unchanged |
| `PixPaymentRouter.ById` | packages/api/src/router/pix-payment.ts:33-50 | returns the payment iff it exists and the caller owns it |
| `PixPaymentRouter.ByIdAgreesWithMyPayments` | packages/api/src/router/pix-payment.ts:17-50 | looking a payment up by id finds it iff it is in the caller's list, and finds the same row |
| `PixPaymentRouter.PendingForSubscription` | packages/api/src/router/pix-payment.ts:53-72 | any payment returned is the caller's, is for that subscription, is `pending` and expires after now; none is returned iff no such payment exists |
| `PixPaymentRouter.FindOpenPayment` | packages/api/src/router/pix-payment.ts:93-99 | finds a pending, unexpired payment for the subscription, whoever owns it; finds none iff there is none |
| `PixPaymentRouter.Create` | packages/api/src/router/pix-payment.ts:75-132 | fails iff the subscription is not the caller's, and then creates nothing; with an open payment for the subscription it returns that payment and leaves the store unchanged; otherwise it adds exactly one fresh payment: pending, the given amount, the caller, `expiresAt = now + 30 min`, the fixed PIX key, the QR payload, copy-paste = QR + `ABCD`, no transaction id and no `paidAt` |
| `PixPaymentRouter.CreatedPaymentIsPending` | packages/api/src/router/pix-payment.ts:53-132 | a payment `create` opens for a subscription with no open payment is exactly what `pendingForSubscription` reports at any time before it expires |
| `PixPaymentRouter.PendingIsReused` | packages/api/src/router/pix-payment.ts:53-107 | when `pendingForSubscription` reports a payment to the subscription's owner, `create` for that subscription succeeds without changing the store |
| `PixPaymentRouter.ActivateOwner` | packages/api/src/router/pix-payment.ts:158-164 | sets the owning subscription to `active` whatever its status, changing no other field or record; a missing subscription fails and the earlier payment write stays |
| `PixPaymentRouter.UpdateStatus` | packages/api/src/router/pix-payment.ts:135-167 | fails with not-found iff the payment is unknown, changing nothing; otherwise sets the status and the given transaction id; sets `paidAt = now` if the status is `paid` and keeps the old `paidAt` otherwise; with `paid` it activates the owning subscription even when cancelled; with any other status no subscription changes |
| `PixPaymentRouter.ConfirmPayment` | packages/api/src/router/pix-payment.ts:171-216 | fails with not-found iff the payment is not the caller's; with "already confirmed" iff it is `paid`, with no change in either case; with "expired" iff it is unpaid and `expiresAt < now`, after marking it `expired` and touching no subscription; otherwise pays it at `now` under the transaction id and activates the owning subscription |
| `Lifecycle.DeactivateBlocksSubscribing` | packages/api/src/router/subscription.ts:87-93 | after a plan is deactivated, subscribing to it fails, with "invalid plan" when the caller has no active subscription |
| `Lifecycle.CancelTwice` | packages/api/src/router/subscription.ts:144-154 | a second cancel fails with "already cancelled", changes nothing and keeps the first `cancelledAt` |
| `Lifecycle.PixCreateIdempotent` | packages/api/src/router/pix-payment.ts:93-103 | creating a payment again, before the returned payment expires, returns the same payment and changes nothing, whatever amount is given |
| `Lifecycle.ConfirmTwice` | packages/api/src/router/pix-payment.ts:188-190 | confirming a confirmed payment fails with "already confirmed" and changes nothing |
| `Lifecycle.ConfirmIsPaidUpdate` | packages/api/src/router/pix-payment.ts:200-213 | confirming an own unpaid, unexpired payment has exactly the effect of the provider's `paid` update with that transaction id |
| `Lifecycle.PlanMutationsPreserveWellFormed` | packages/api/src/router/subscription-plan.ts:47-66 | plan update and deactivation keep every payment pointing at a subscription and every subscription pointing at a plan |
| `Lifecycle.SubscriptionCreatePreservesWellFormed` | packages/api/src/router/subscription.ts:87-124 | subscribing keeps the store's references intact |
| `Lifecycle.CancelPreservesWellFormed` | packages/api/src/router/subscription.ts:148-154 | cancelling keeps the store's references intact |
| `Lifecycle.PixCreatePreservesWellFormed` | packages/api/src/router/pix-payment.ts:81-116 | a payment is only created for an existing subscription |
| `Lifecycle.UpdateStatusPreservesWellFormed` | packages/api/src/router/pix-payment.ts:149-164 | the status update keeps the store's references intact |
| `Lifecycle.ConfirmPreservesWellFormed` | packages/api/src/router/pix-payment.ts:192-213 | the confirmation keeps the store's references intact |
| `Lifecycle.PaidUpdateActivates` | packages/api/src/router/pix-payment.ts:158-164 | in a well-formed store a `paid` update always succeeds and leaves the owning subscription `active`, whatever its prior status |
| `Lifecycle.CreateKeepsSingleActive` | packages/api/src/router/subscription.ts:73-84 | after a successful subscribe the caller has no live active subscription, so at most one |
| `Lifecycle.CancelKeepsSingleActive` | packages/api/src/router/subscription.ts:148-154 | cancelling never breaks "at most one live active subscription" for any user at any time |
| `Lifecycle.CreateExtendsMySubscriptions` | packages/api/src/router/subscription.ts:111-124 | subscribing adds exactly the new row to the caller's list of subscriptions |
| `Lifecycle.SubscribeAndPay` | packages/api/src/router/pix-payment.ts:200-213 | subscribing to an active plan, opening a payment and confirming it within 30 minutes makes the new subscription the caller's active one |
| `Lifecycle.OpenAndConfirm` | packages/api/src/router/pix-payment.ts:107-116 | opening and at once confirming a first payment for a subscription activates exactly that subscription and keeps the store well-formed |
| `Lifecycle.SubscribeTwice` | packages/api/src/router/subscription.ts:74-84 | a user with no active subscription can subscribe twice in a row, getting two distinct pending rows |
| `Lifecycle.PayingTwoPendingBreaksSingleActive` | packages/api/src/router/pix-payment.ts:209-213 | paying for both of those subscriptions succeeds and leaves the user with two live active subscriptions |

## Left out

- Plan `create`: the database default for `isActive` is not part of this model, so the new row's flag is unknown.
- Several handlers return rows with related records joined. The model returns only the row itself. The joins are:
  - subscription `byId`, `mySubscriptions`, `myActiveSubscription` and `create`: the plan, and for the first two the payments;
  - payment `myPayments`, `byId`, `pendingForSubscription` and `create`: the subscription and its plan.
- `mySubscriptions` takes just five payments, newest first. The model does not do this.
- `mySubscriptions` and `myPayments` order rows by creation time, newest first. The model returns the rows as a map, because records carry no creation time.
- `SubscriptionRouter.MySubscriptions`: does not state the newest-first order, for the reason above.
- `PixPaymentRouter.MyPayments`: does not state the newest-first order, for the reason above.
- Calendar arithmetic is not modelled. A month is a fixed positive span. JavaScript `setMonth` day overflow (31 January plus one month) is not modelled. A year is twelve of the model's fixed months. `setFullYear(+1)` equals a 12-month `setMonth`, so the only gap is the fixed month length.
- `SubscriptionRouter.EndDateByInterval`: its chaining clauses (three months in a row make a quarter, four quarters a year) hold only for fixed-length months. With calendar months, three `setMonth(+1)` steps from 31 January can land later than one `setMonth(+3)`.
- One `now` stands for every clock read of a request. The source reads the clock more than once in `create` (packages/api/src/router/subscription.ts:78 and :96) in payment `create` (packages/api/src/router/pix-payment.ts:97 and :107) and in `confirmPayment` (packages/api/src/router/pix-payment.ts:192, :204 and :205). So `confirmPayment`'s contract gives `paidAt <= expiresAt`, which the source does not guarantee when the clock moves between reads.
- `confirmPayment` builds its transaction id `TXN-<milliseconds>` from the clock. The model takes it as an opaque string parameter.
- Record ids are UUIDs from the database. The model uses naturals and allocates one past the greatest existing id.
- Input validators (UUID ids, decimal amounts, allowed status values, which plan fields an update may carry) are not visible. Every plan field is optional in an update, and any status is accepted.
- A missing `transactionId` in `updateStatus` keeps the stored value, as the database ignores undefined fields.
- Prices are whole cents, used only for ordering. Amounts are opaque strings.
- Concurrency is not modelled. Each request is atomic, so the check-then-write races in both `create` handlers are out of scope.
- Authentication, the timing middleware, router composition, pages and the seed script are not modelled. The caller id stands in for the session check.
- `Lifecycle.PixCreateIdempotent`: relies on the first-match query choosing the same row each time (least id). If several open payments exist, the database may pick a different one.
