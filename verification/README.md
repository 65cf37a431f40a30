# Akabbo ledgers, verified

Akabbo keeps event contributions (people, pledges, payments) and sells SMS and AI credits to the organisers. This
project models its money-bearing protocols in Dafny and proves what they keep over every run:

| file | models |
|---|---|
| `CreditLedger.dfy` | the append-only credit ledger: rows with a unique key, pooled balances, reserve / commit / refund |
| `ReserveRace.dfy` | reserves whose balance read and debit are two steps, racing with each other |
| `SmsCampaigns.dfy` | SMS dispatch and processing: tenant transactions that may abort around credit rows that do not |
| `SmsAccounts.dfy` | what a campaign costs: credits spent, lost to aborted dispatches, or given back for a sent message |
| `SmsDelivery.dfy` | campaigns as the outbox drain delivers them: dispatch, outbox row, batch and processing together |
| `SmsService.dfy` | the dispatch and processing loops run alone |
| `SmsRefinement.dfy` | those loops as uninterrupted runs of the concurrent machine |
| `PaymentWebhook.dfy` | webhooks and reconciliations of one invoice, whose status is read outside the granting transaction |
| `OutboxDrain.dfy` | any number of drain workers: claim, handle, re-open, crash |
| `RateLimiter.dfy` | the public surface's fixed-window limiter and its sweep |
| `ContributionLedger.dfy` | pledges, payments, corrections, cancellation, links, merges and keyed retries of one event |
| `LedgerLaws.dfy` | what each call accepts, refuses and writes, and what every run leaves behind |
| `AuditTrail.dfy` | the ledger rebuilt from its audit trail |
| `LedgerServices.dfy` | the same calls as the services write them, row by row with rollback |
| `Reports.dfy` | event totals, the per-person rollup and the report's nested loops |
| `ReportLaws.dfy` | how the reported figures move with each call |
| `AssistantTurn.dfy` | one AI turn: reserve, the bounded tool loop, commit or refund |
| `AiTurns.dfy` | many AI turns on one ledger, any of whose processes may die |
| `Invitations.dfy` | seat-limited team invitations |
| `InvitationRace.dfy` | acceptances whose read and write are two steps |
| `SeatRace.dfy` | creations whose two seat counts and insertion are three steps |
| `Amounts.dfy` | the amount printer and parser |
| `Prelude.dfy` | options and sums over tables |

Each protocol is a state machine (`Next`, `Run`) whose properties are lemmas over every run, that is, every
interleaving of the steps it separates; a row says so where runs are serial. Each service is a class whose methods are
proved to perform the machine's transitions.

## Modelling choices

- UUID primary keys are a row's position in creation order, except for SMS messages, AI turns and reserve keys, whose
  UUIDs are drawn before the row is committed; those are strings required to be fresh. Idempotency-key templates are
  constructors (`Sms`, `CommitOf`, `RefundOf`, ...), since their textual prefixes all differ.
- A `runInEvent` callback is one atomic step of the contribution ledger. Statements on separate connections are
  separate steps in the credit, SMS, webhook and outbox machines. A worker's uncommitted writes are its buffer.
- Any failure of a transaction other than the unique key it is about (a lost connection, another invoice already
  holding the gateway's transaction id) is a `Crash` or `Abort` step, possible at any time.
- Permission, event-status and entitlement gates are passed before a call. Money and counts are non-negative on entry.
  Billing accounts, owners and seat limits are fixed during a run.
- What model, tools, SMS provider and gateway answer is an arbitrary input. The clock is a parameter.

## Where the code does less than its comments say

The model follows the code; each point has an exact condition or a run.

- Reserving AI credits up front is said to close the overdraft window (`libs/billing/src/billing.service.ts:530-537`).
  The balance read and the append are still two steps: k racing reserves of c credits can take a pool to
  -(k - 1) * c, and no further (`OverdraftBound`, `OverdraftBoundIsReached`).
- A blast is said never to queue what it cannot pay for, and a failed SMS never to cost. A dispatch that aborts has
  spent its credits on messages that do not exist, and nothing gives them back (`AbortedDispatchLosesCredit`,
  `OrphanIsLostForGood`); a campaign costs exactly what it sends if and only if none of its dispatches aborts after a
  debit (`CalmCampaignSpendsWhatItSends`). A batch that aborts after a refund lets a message be sent for nothing
  (`AbortedRefundGivesFreeRide`); `SentAreChargedIff` gives the exact condition, to be checked before processing, and
  `AbortLeavesRefundedIff` says which aborts break it. Overlapping batches would do the same (`OverlapGivesFreeRide`),
  but the drain, through which alone campaigns are processed, rules them out (`SmsDelivery.NoOverlap`); so a campaign
  whose workers never abort costs what it sends (`DeliveredCampaignCostsWhatItSends`).
- A campaign whose outbox row a crash loses keeps its QUEUED messages, and their charge, for good
  (`CrashStrandsCampaign`).
- The credit of an AI turn is said always to be refunded when the turn does not complete
  (`libs/ai/src/agent/assistant.service.ts:222-223`). A turn whose process dies after the reserve keeps it
  (`TurnCostsIff`, `DeadTurnIsNeverRefunded`).
- Credits bought as an event pack carry no account, so spending them can drive a sibling event of the same owner
  below zero; `SiblingSafety` gives the exact condition for one spend, `PackedPoolOverdraftBound` the bound for all runs.
- A failed webhook that read the status before a payment was applied overwrites PAID with FAILED, and nothing brings
  PAID back (`PaidIsFinalIff`, `FailedAfterGrantIsStuck`).
- A crashed outbox batch is said to run again (`libs/ledger/src/outbox-drain.service.ts:22-23`). Claimed rows are
  already PROCESSED and are lost for good (`CrashLosesExactlyItsBatch`).
- A direct contribution is said to be immediately FULFILLED; a zero one is PLEDGED (`DirectIsFulfilledIff`).
- The default report order is said to be descending and is ascending (`DefaultOrderIsAscending`).
- A pledge-with-payment carries an idempotency key but does not look it up first: repeating one is harmless if and only
  if it carried both a payment and a key, and then it is refused instead of returning the original
  (`PledgeWithPaymentRetryIff`). Its one caller passes no key (`libs/ai/src/tool-executor.service.ts:436-444`).
- An invitation's use count is read outside the accepting transaction, which writes back a count and a status computed
  from that read. A token admits at most its uses if and only if its acceptances come one at a time
  (`TokenAdmitsAtMostItsUsesIff`), its count is right if and only if no write was stale (`CountIsExactIff`), and an
  acceptance in flight can undo a revocation (`RevokedIsFinalIff`).
- The seat check counts the members, later the pending invitations, and the invitation is inserted later still. An
  acceptance between the two counts is missed by both. With k creations at once and j members joining between one's
  counts the limit can be passed, by at most k - 1 + j; it holds if and only if creations come one at a time and nobody
  joins between the counts (`SeatRaceBound`, `SeatRaceBoundIsReached`, `WithinLimitIff`).
- The limiter admits up to 2 * 240 - 1 requests in one window's length (`IntervalBound`, `IntervalBoundIsReached`).

## Model

| member | source | states |
|---|---|---|
| CreditLedger.AppendMovesOwnBalance | libs/billing/src/billing.service.ts:445-470 | under any non-empty scope a fresh key moves that scope's own balance by exactly the amount; a repeated key or the empty scope never moves it |
| CreditLedger.AppendKeepsKeysUnique | libs/billing/src/billing.service.ts:559-584 | keys stay unique, no row is ever removed, and the key is taken afterwards |
| CreditLedger.AppendKeepsStamped | libs/billing/src/billing.service.ts:452-461 | the exact condition under which a write keeps every row of an owner's events stamped with the owner's account |
| CreditLedger.EventBalanceSplits | libs/access/src/entitlement.service.ts:282-310 | an event's balance is its owner's pooled balance plus the event's own unstamped credits |
| CreditLedger.StampedPoolsAgree | libs/access/src/entitlement.service.ts:169-191 | with stamped rows an account and all its events read one balance |
| CreditLedger.SiblingSafety | libs/access/src/entitlement.service.ts:282-300 | spending one event's balance leaves a sibling at or above zero iff the event holds no more unstamped credits than the sibling |
| CreditLedger.EventPackOverdrawsSibling | libs/billing/src/billing.service.ts:293-304 | a run in which spending an event pack drives a sibling event below zero |
| CreditLedger.OwnedByIff | libs/access/src/entitlement.service.ts:253-277 | an event's account is its owner's oldest one, and none only if the owner has none |
| CreditLedger.BalanceReads | libs/access/src/entitlement.service.ts:279-300 | the balance of a scope is the sum of exactly the rows of the event or of its owner's oldest account |
| CreditLedger.BillingService.ReadBalance | libs/access/src/entitlement.service.ts:292-300 | under an event the sum over its own rows and its owner's oldest account's, without one over the caller's account's, 0 with neither |
| CreditLedger.BillingService.AppendRow | libs/billing/src/billing.service.ts:445-470 | one row as given, carrying the caller's account or that of the event's owner's oldest account, unless the key is taken; keys stay unique |
| CreditLedger.BillingService.ReserveCredits | libs/billing/src/billing.service.ts:422-431 | hard stop exactly when the event's and its owner's oldest account's rows sum to less than the count, never overdraws when run alone, and exactly when the balance it reports is the true one |
| CreditLedger.BillingService.CommitReserve | libs/billing/src/billing.service.ts:433-435 | a marker row that moves no balance |
| CreditLedger.BillingService.RefundReserve | libs/billing/src/billing.service.ts:437-439 | the refund row under the reserve's refund key |
| ReserveRace.NextKeepsCovered | libs/billing/src/billing.service.ts:427-430 | the invariant behind the bound: credits still to be debited from the pool exceed its balance by at most (k - 1) * c |
| ReserveRace.OverdraftBound | libs/billing/src/billing.service.ts:422-439 | in every interleaving with at most k reserves of at most c credits on the pool between read and append, among grants past the service and reserves on other pools, the balance never falls below -(k - 1) * c |
| ReserveRace.SerialReservesNeverOverdraw | libs/billing/src/billing.service.ts:422-431 | one reserver at a time never overdraws |
| ReserveRace.PackedPoolOverdraftBound | libs/access/src/entitlement.service.ts:282-310 | when no event of the owner holds more than u credits of its own, racing reserves leave the account at or above -(k - 1) * c - u and each event at or above that plus its own credits |
| ReserveRace.AccountPoolOverdraftBound | libs/access/src/entitlement.service.ts:239-251 | with stamped rows, the bound for reserves racing on any mix of an owner's events and account, among those of other owners, all the owner's scopes keeping one balance |
| ReserveRace.OverdraftBoundIsReached | libs/billing/src/billing.service.ts:538-547 | for every k and c a run that meets the bound's hypotheses reaches exactly -(k - 1) * c |
| ReserveRace.NeverOverdrawsIff | libs/billing/src/billing.service.ts:427-430 | no such run overdraws iff reserves come one at a time or are of no credits |
| ReserveRace.UninterruptedIsSerial | libs/billing/src/billing.service.ts:422-431 | a balance check followed at once by its debit is the serial reserve |
| SmsCampaigns.NextKeepsInv | libs/comms/src/sms.service.ts:106-258 | every step of dispatch and processing, aborts included, keeps the invariant tying messages to reserve, commit and refund rows |
| SmsCampaigns.EveryChargeIsZeroOrOne | libs/comms/src/sms.service.ts:213-242 | in every run each reserve key costs 0 or 1 credit, SENT messages have their COMMIT row and FAILED ones their REFUND row |
| SmsAccounts.CampaignAccounts | libs/comms/src/sms.service.ts:106-258 | in every run the ids charged for a campaign are its SENT and QUEUED messages without the free rides, plus debits of running dispatches, plus those of aborted ones |
| SmsAccounts.CalmCampaignSpendsWhatItSends | libs/comms/src/sms.service.ts:106-258 | with no worker abort or overlap on the campaign, what it has spent is its SENT plus still QUEUED messages iff no dispatch of it aborted after a debit |
| SmsAccounts.OrphanIsLostForGood | libs/comms/src/sms.service.ts:131-149 | the credit of an aborted dispatch is never given back and never buys a message, in any continuation |
| SmsAccounts.AbortedDispatchLosesCredit | libs/comms/src/sms.service.ts:118-149 | a run that spends a credit and queues nothing |
| SmsAccounts.SentAreChargedIff | libs/comms/src/sms.service.ts:191-242 | with nobody on a campaign, every calm continuation charges all it marks SENT iff no QUEUED message has been refunded |
| SmsAccounts.AbortLeavesRefundedIff | libs/comms/src/sms.service.ts:213-242 | aborting a campaign's one worker leaves a refunded QUEUED message iff it had failed one |
| SmsAccounts.AbortedRefundGivesFreeRide | libs/comms/src/sms.service.ts:231-240 | a refund that outlives its aborted batch lets the redelivery send for nothing |
| SmsAccounts.OverlapGivesFreeRide | libs/comms/src/sms.service.ts:191-242 | two overlapping deliveries, which processing alone does not prevent, would send a message for nothing without any abort |
| SmsDelivery.NextKeepsInv | libs/comms/src/sms.service.ts:164-168 | one outbox row and one dispatch per campaign, and a worker only on the campaign at the head of its batch, at every step |
| SmsDelivery.NoOverlap | libs/ledger/src/outbox-drain.service.ts:50-72 | in every run through the drain no campaign is processed by two workers at once |
| SmsDelivery.ProjectionIsCalm | apps/worker/src/outbox-handlers.registrar.ts:29-34 | every run through the drain is a run of the messages and credits, and a calm one unless a worker on the campaign aborts |
| SmsDelivery.DeliveredCampaignCostsWhatItSends | libs/comms/src/sms.service.ts:106-258 | a campaign whose dispatch has committed and whose workers never abort has spent exactly its SENT and still QUEUED messages |
| SmsDelivery.CrashStrandsCampaign | libs/ledger/src/outbox-drain.service.ts:59-64 | a crash with a campaign's row in the batch freezes its messages and their charges in every continuation |
| SmsDelivery.EveryRowHasItsCampaign | libs/comms/src/sms.service.ts:164-168 | in every run exactly the outbox rows of the campaign topic belong to a campaign |
| SmsDelivery.FailReopens | libs/ledger/src/outbox-drain.service.ts:80-90 | a worker failing at a campaign's row leaves its messages as they were and re-opens the row with one attempt more |
| SmsDelivery.FinishSettles | libs/ledger/src/outbox-drain.service.ts:76-80 | a worker that has settled its messages commits them and leaves the row processed |
| SmsSending.SmsService.PreviewReminders | libs/comms/src/sms.service.ts:57-74 | affordable is the smaller of recipients and balance |
| SmsSending.SmsService.SendCampaign | libs/comms/src/sms.service.ts:106-184 | queues exactly the first recipients the balance covers, in order, one credit each; agrees with the preview iff the balance is not negative |
| SmsSending.SmsService.ProcessCampaign | libs/comms/src/sms.service.ts:191-258 | settles exactly the QUEUED messages: the k-th is SENT with its COMMIT row iff the provider's k-th answer is there and positive, otherwise FAILED with its REFUND row; counts both; gives back one credit per rejection; a redelivery changes nothing |
| SmsSending.BatchSettles | libs/comms/src/sms.service.ts:216-242 | after j messages the k-th of them is SENT iff its answer is there and positive, else FAILED, and everything else is untouched |
| SmsSending.FreshBatchRefunds | libs/comms/src/sms.service.ts:238-240 | a batch refunds exactly one credit per message without a positive answer when none was refunded before |
| SmsRefinement.UninterruptedDispatchIsSend | libs/comms/src/sms.service.ts:106-184 | a dispatch nothing interrupts is the service's: the same reserve rows, and exactly the first recipients the balance covers queued |
| SmsRefinement.UninterruptedWorkerIsProcess | libs/comms/src/sms.service.ts:191-258 | a worker nothing interrupts is the service's processing: the same credit rows and, message by message, the same statuses |
| PaymentWebhook.GrantedAtMostOnce | libs/billing/src/billing.service.ts:237-319 | in every interleaving the plan's credits and account or event grant are written at most once, together, and a PAID invoice has them |
| PaymentWebhook.GrantedOnceFinished | libs/billing/src/billing.service.ts:256-318 | once one succeeded delivery has finished the credits and the account or event grant are there exactly once, on rows of the invoice's event or else of its account, whatever follows for the invoice |
| PaymentWebhook.GrantMovesPools | libs/billing/src/billing.service.ts:293-316 | a grant adds the plan's SMS and AI credits to every pool of the invoice's event, or of its account when it has no event, and to no other |
| PaymentWebhook.OnceIffCredits | libs/billing/src/billing.service.ts:283-316 | an account invoice is never granted twice in any run iff its plan carries credits |
| PaymentWebhook.CatalogInvoicesGrantedOnce | libs/config/src/plan-catalog.config.ts:29-151 | every plan of the catalog carries credits, so its invoices are granted at most once |
| PaymentWebhook.PaidIsFinalIff | libs/billing/src/billing.service.ts:246-254 | PAID survives every continuation iff no failed webhook is between its read and its write |
| PaymentWebhook.FailedAfterGrantIsStuck | libs/billing/src/billing.service.ts:353-372 | an invoice overwritten with FAILED after its grant is never PAID again |
| PaymentWebhook.FailureOverwritesPayment | libs/billing/src/billing.service.ts:238-254 | a run that ends FAILED with the credits granted |
| PaymentWebhook.InvoiceBilling.ApplyPaymentWebhook | libs/billing/src/billing.service.ts:237-319 | an uninterrupted webhook is the protocol's two steps; when it applies, does nothing, or throws and rolls back; applied, it moves exactly the buyer's pools by the plan's credits |
| PaymentWebhook.InvoiceBilling.ReconcileInvoice | libs/billing/src/billing.service.ts:353-372 | refuses a PAID invoice and otherwise is a succeeded webhook, moving the buyer's pools alike |
| OutboxDrain.Claimable | libs/ledger/src/outbox-drain.service.ts:50-66 | the oldest pending unlocked rows, at most the batch size, none skipped |
| OutboxDrain.HandleSettles | libs/ledger/src/outbox-drain.service.ts:68-91 | a claimed row of a registered topic is re-opened with one attempt more iff its handler failed, and logged as handled iff it succeeded; other rows stay |
| OutboxDrain.DrainIs | libs/ledger/src/outbox-drain.service.ts:47-93 | a drain leaves exactly the claimed rows of registered topics whose handler failed open again, and counts those whose handler succeeded |
| OutboxDrain.LogTellsSuccess | libs/ledger/src/outbox-drain.service.ts:76-80 | in every run a row is logged as handled iff a worker holding it called its handler and that succeeded |
| OutboxDrain.NextKeepsInv | libs/ledger/src/outbox-drain.service.ts:47-93 | conservation at every step: each row is accounted for exactly once, and attempts counts its re-openings |
| OutboxDrain.NoRowTwice | libs/ledger/src/outbox-drain.service.ts:47-93 | in every run no row is in two live batches, none is handled successfully twice, and attempts equals re-opened failures |
| OutboxDrain.EveryRowInOnePlace | libs/ledger/src/outbox-drain.service.ts:68-91 | in every run each enqueued row is pending, held, handled, on a topic without handler or lost, and never two of these |
| OutboxDrain.CrashFreeRunsLoseNothing | libs/ledger/src/outbox-drain.service.ts:69-90 | without crashes nothing is lost |
| OutboxDrain.CrashLosesExactlyItsBatch | libs/ledger/src/outbox-drain.service.ts:59-64 | a crash loses exactly its batch's unsettled rows, for good, and moves no other row |
| OutboxDrain.OutboxDrainService.DrainOnce | libs/ledger/src/outbox-drain.service.ts:47-93 | an uninterrupted drain is the claim and the settling steps in order; it returns the number of claimed rows of registered topics whose handler succeeded, re-opens those whose handler failed, and skips only topics without one |
| OutboxDrain.RegisteredRowsAreHandledOrLost | libs/ledger/src/outbox-drain.service.ts:42-91 | from a registration on, a row of a registered topic is finished with iff a worker's call of its handler succeeded, a crash lost it, or it was passed over before its topic was registered |
| OutboxDrain.CrashFreeRowsAreHandled | libs/ledger/src/outbox-drain.service.ts:68-91 | in crash-free runs such a row is finished with iff some call of its handler has succeeded |
| OutboxDrain.OnlyUnregisteredSkipped | libs/ledger/src/outbox-drain.service.ts:70-75 | from any state on, every row newly skipped is of a topic without a handler |
| RateLimiter.SweepingIsInvisible | apps/api/src/public/public-rate-limit.guard.ts:24-48 | with a non-decreasing clock the sweeping guard decides every request as one that never sweeps |
| RateLimiter.MapStaysBounded | apps/api/src/public/public-rate-limit.guard.ts:42-48 | after every clocked run, between openings too, the map has fewer than 10,000 entries or only IPs seen in the minute up to the last opening |
| RateLimiter.IntervalBound | apps/api/src/public/public-rate-limit.guard.ts:20-40 | any interval of one window's length lets at most 2 * 240 - 1 requests of an IP through |
| RateLimiter.WindowBound | apps/api/src/public/public-rate-limit.guard.ts:29-39 | every window the guard opens lets at most 240 requests through |
| RateLimiter.IntervalBoundIsReached | apps/api/src/public/public-rate-limit.guard.ts:20-40 | a request sequence reaches the interval bound |
| RateLimiter.NextCounts | apps/api/src/public/public-rate-limit.guard.ts:20-48 | a request opens a 60-second window unless one is open, counts, and is let through iff it opens one or is among the first 240; other entries go only when expired, at 10,000 entries |
| RateLimiter.PublicRateLimitGuard.CanActivate | apps/api/src/public/public-rate-limit.guard.ts:24-40 | the decision and the new map as NextCounts spells them out, rejected requests counted too |
| RateLimiter.PublicRateLimitGuard.Sweep | apps/api/src/public/public-rate-limit.guard.ts:43-48 | deletes exactly the expired entries, once the map is large |
| ContributionLedger.StepKeepsInv | libs/ledger/src/fulfillment.service.ts:96-107 | every call keeps references, unique links and derived statuses |
| ContributionLedger.StoredStatusIsDerived | libs/ledger/src/pledge-status.ts:8-17 | in every reachable ledger the stored status is CANCELLED, PLEDGED, PARTIALLY_FULFILLED or FULFILLED exactly as the pledge was cancelled, or nothing, some or all of its commitment is paid |
| ContributionLedger.CancelledIsFinal | libs/ledger/src/pledge.service.ts:274-310 | CANCELLED is never left |
| ContributionLedger.DirectIsFulfilledIff | libs/ledger/src/fulfillment.service.ts:162-255 | a direct contribution is FULFILLED iff its value is positive |
| ContributionLedger.OnlyLoweringOverpays | libs/ledger/src/fulfillment.service.ts:496-524 | only a correction lowering the committed value makes payments exceed it |
| ContributionLedger.NeverOverpaidUnlessLowered | libs/ledger/src/pledge.service.ts:152-200 | over every run without such a lowering a pledge is never overpaid |
| ContributionLedger.OverpaidPledges | libs/ledger/src/fulfillment.service.ts:356-385 | when a correction overpays; an overpaid pledge accepts no payment; an accepted payment correction ends it |
| ContributionLedger.RetriesAreInvisible | libs/ledger/src/fulfillment.service.ts:127-130 | retries of a recorded key inserted anywhere leave ledger, audit and outbox as without them |
| ContributionLedger.RetryReturnsOriginal | libs/ledger/src/fulfillment.service.ts:444-478 | each later call under the key returns the original payment's id and its current value |
| ContributionLedger.PledgeWithPaymentRetryIff | libs/ledger/src/fulfillment.service.ts:270-346 | a recorded pledge-with-payment can be repeated at any later time without changing anything iff it carried a payment and a key; otherwise a repeat adds a second pledge |
| ContributionLedger.KeyedRepeatIsRefused | libs/ledger/src/fulfillment.service.ts:335-345 | such a repeat is refused, whatever happened in between, and does not return the original payment |
| ContributionLedger.MergeIsSafe | libs/ledger/src/person.service.ts:245-307 | links and references hold at every write of a merge; a finished one moves exactly both people's pledges and keeps all money |
| ContributionLedger.MergePrefix | libs/ledger/src/person.service.ts:272-304 | each write of a merge is applied in a state where it trips no constraint |
| ContributionLedger.LinkKeepsInv | libs/ledger/src/person.service.ts:189-235 | linking never gives one account two people |
| LedgerLaws.StatusLaw | libs/ledger/src/pledge-status.ts:8-17 | the same over every run, the cancellation being that of a call rather than of the audit trail |
| LedgerLaws.PayAcceptedIff | libs/ledger/src/fulfillment.service.ts:118-160 | a fresh payment is accepted iff its pledge exists and is not cancelled, no equal one was recorded in ten minutes or it is confirmed, and it fits; then exactly it is recorded; which error otherwise |
| LedgerLaws.DirectAcceptedIff | libs/ledger/src/fulfillment.service.ts:169-255 | a direct contribution needs an existing giver or a new one's name, and leaves a pledge of its value with its one payment |
| LedgerLaws.PledgeWithPaymentAcceptedIff | libs/ledger/src/fulfillment.service.ts:270-346 | accepted iff the person exists, the payment is within the pledge, and a positive one's key is unused |
| LedgerLaws.CorrectPaymentAcceptedIff | libs/ledger/src/fulfillment.service.ts:356-440 | accepted iff the other payments leave room; changes that value and the status it then deserves |
| LedgerLaws.CorrectCommittedAcceptedIff | libs/ledger/src/pledge.service.ts:152-200 | any existing pledge takes any value, below its payments too, and the status it then deserves |
| LedgerLaws.LinkAcceptedIff | libs/ledger/src/person.service.ts:189-235 | accepted iff the person exists, has no other account, and nobody else has this one |
| LedgerLaws.MergeAcceptedIff | libs/ledger/src/person.service.ts:245-307 | accepted iff both people exist, are two, and are not linked to different accounts; records how many pledges moved |
| LedgerLaws.EveryPaymentIsConfirmedOnce | libs/ledger/src/fulfillment.service.ts:600-612 | in every run exactly one confirmation is enqueued per payment, in the order recorded |
| AuditTrail.TrailTellsTheLedger | libs/ledger/src/audit.writer.ts:19-40 | in every run, reading the audit trail in order rebuilds all people, accounts, pledges, cancellations and payments |
| LedgerServices.LedgerStore.FindByIdempotencyKey | libs/ledger/src/fulfillment.service.ts:444-478 | finds the payment under the key, with its current view |
| LedgerServices.LedgerStore.WriteFulfillment | libs/ledger/src/fulfillment.service.ts:527-621 | payment, recomputed status, audit and outbox rows, or a rollback |
| LedgerServices.LedgerStore.RecordFulfillment | libs/ledger/src/fulfillment.service.ts:118-160 | performs the ledger's payment transition, error for error |
| LedgerServices.LedgerStore.RecordDirectContribution | libs/ledger/src/fulfillment.service.ts:169-255 | performs the direct-contribution transition, rolling back the new person and pledge on an error |
| LedgerServices.LedgerStore.RecordPledgeWithPayment | libs/ledger/src/fulfillment.service.ts:270-347 | performs the pledge-with-payment transition |
| LedgerServices.LedgerStore.CorrectValue | libs/ledger/src/fulfillment.service.ts:356-440 | performs the payment correction |
| LedgerServices.LedgerStore.CorrectCommittedValue | libs/ledger/src/pledge.service.ts:152-200 | performs the pledge correction |
| LedgerServices.LedgerStore.CancelPledge | libs/ledger/src/pledge.service.ts:274-310 | performs the cancellation |
| LedgerServices.LedgerStore.LinkPersonToUser | libs/ledger/src/person.service.ts:189-235 | performs the link, error for error |
| LedgerServices.LedgerStore.MergePeople | libs/ledger/src/person.service.ts:245-307 | the tables pass through every state of the ledger's merge, in its order; counts the pledges moved |
| Reports.PeopleAddUpToEvent | libs/ledger/src/ledger-query.service.ts:177-201 | per-person committed adds up to the event's, per-person received plus cancelled pledges' money to all received |
| Reports.EventOutstandingVersusPeople | libs/ledger/src/ledger-query.service.ts:203-209 | event outstanding is at most the people's sum, with the exact condition for equality |
| Reports.OutstandingAgrees | libs/ledger/src/ledger-query.service.ts:142-162 | they are equal when no pledge is overpaid and no cancelled pledge holds money |
| ReportLaws.PayMoves | libs/ledger/src/ledger-query.service.ts:177-201 | an accepted payment adds its value to its pledge's person's and the event's received money, and moves nothing else |
| ReportLaws.DirectMoves | libs/ledger/src/ledger-query.service.ts:177-201 | a direct contribution adds its value to the giver's and the event's committed and received money |
| ReportLaws.PledgeWithPaymentMoves | libs/ledger/src/ledger-query.service.ts:177-201 | adds the commitment and the payment |
| ReportLaws.CorrectPaymentMoves | libs/ledger/src/ledger-query.service.ts:177-201 | moves received money by the difference, the person's only if the pledge is not cancelled |
| ReportLaws.CorrectCommittedMoves | libs/ledger/src/ledger-query.service.ts:177-201 | moves committed money by the difference unless the pledge is cancelled |
| ReportLaws.CancelMoves | libs/ledger/src/ledger-query.service.ts:177-201 | takes the commitment from person and event, and what was paid on it from the person but not from the event |
| ReportLaws.MergeMoves | libs/ledger/src/person.service.ts:272-304 | adds the source's figures to the target's; everybody else's and the event's stay |
| ReportLaws.OtherCallsMoveNothing | libs/ledger/src/ledger-query.service.ts:177-201 | new people, links, retries, repeated cancellations and refused calls move no figure |
| Reports.LoopsEqualJoin | libs/ledger/src/ledger-query.service.ts:193-200 | looping over pledges and their payments gives the joined sum |
| Reports.QueryContributors | libs/ledger/src/report.service.ts:316-378 | one row per person the query found, in its order, with exactly the SQL rollup's figures |
| Reports.Contributors | libs/ledger/src/report.service.ts:316-410 | a permutation of the rows in the status filter's range of received against committed and within the amount bounds, in order of received |
| Reports.RollUp | libs/ledger/src/report.service.ts:358-370 | the nested loops compute a person's committed and received sums |
| Reports.FiltersPartition | libs/ledger/src/report.service.ts:380-390 | the unpaid, partial and complete lists add up to the full list short of those who committed nothing, and all that is due is due from the owing list |
| Reports.DefaultOrderIsAscending | libs/ledger/src/report.service.ts:399-406 | the default sort puts the smallest received first; it loses nothing and keeps ties in the query's order |
| AssistantTurn.NoReportAfterCompleteReport | libs/ai/src/agent/assistant.service.ts:274-342 | for every model and tools no report tool is dispatched after a complete report |
| AssistantTurn.EndsInTime | libs/ai/src/agent/assistant.service.ts:284-376 | at most 6 model calls, and an answer ends the turn exactly at the step that gave it |
| AssistantTurn.OtherToolsAreDispatched | libs/ai/src/agent/assistant.service.ts:318-365 | in a turn that throws nothing every call of a tool that is no report tool is dispatched, in the order asked for, complete report or not |
| AssistantTurn.UntilCompleteAllDispatched | libs/ai/src/agent/assistant.service.ts:318-365 | while no tool gives a complete report every call of a step is dispatched, with its tool's answer |
| AssistantTurn.NothingIsHeldBack | libs/ai/src/agent/assistant.service.ts:274-365 | in a turn that throws nothing and gets no complete report every call is dispatched, in order, report tools too |
| AssistantTurn.ThrowsWhatWasThrown | libs/ai/src/agent/assistant.service.ts:284-365 | a turn that throws, rate limit or not, throws what context, model, metering or a tool threw at its last step |
| AssistantTurn.StagedInOrder | libs/ai/src/agent/assistant.service.ts:342-344 | the staged ids are those the dispatched calls left to confirm, in order, none missing |
| AssistantTurn.AssistantService.RunLoop | libs/ai/src/agent/assistant.service.ts:188-245 | one credit if the model's answer is returned, none on exhaustion, rate limit or error of context, model, metering or tool, when a refund write succeeds; busy only for a rate limit, an error only for another one or a failed write; its ledger rows are a turn's of the many-turn machine |
| AiTurns.TurnCostsIff | libs/billing/src/billing.service.ts:538-584 | in every run of any turns, a turn that is over costs its credit iff it was answered or its process died before the refund |
| AiTurns.DeadTurnIsNeverRefunded | libs/ai/src/agent/assistant.service.ts:200-225 | a turn that died after its reserve stays charged, unanswered, in every continuation |
| AiTurns.DeathCostsCredit | libs/ai/src/agent/assistant.service.ts:200-225 | a run of such a turn |
| AssistantTurn.AssistantService.RunReservedLoop | libs/ai/src/agent/assistant.service.ts:247-377 | the loop with its flag is the recursive walk the guarantees are about |
| Invitations.SeatBound | libs/ledger/src/invitation.service.ts:62-107 | seats exceed the limit (or starting count) by at most the invitations' uses beyond their first, in every serial run |
| Invitations.SingleUseSeatBound | libs/ledger/src/invitation.service.ts:87-91 | in every serial run with single-use invitations seats never exceed the limit or the starting count |
| Invitations.AcceptanceConservesSeatsIff | libs/ledger/src/invitation.service.ts:158-209 | acceptance by a new member conserves seats iff it is the token's last use |
| Invitations.TokenAdmitsAtMostItsUses | libs/ledger/src/invitation.service.ts:169-196 | in every serial run a token with m uses never admits more than m members |
| InvitationRace.CountIsExactIff | libs/ledger/src/invitation.service.ts:139-196 | in every interleaving the stored count is the number admitted iff no acceptance wrote against a count other than the one it had read |
| InvitationRace.SingleUseAdmitsOneIff | libs/ledger/src/invitation.service.ts:169-196 | without stale writes a token admits at most its uses, and a single-use token only then |
| InvitationRace.TokenAdmitsAtMostItsUsesIff | libs/ledger/src/invitation.service.ts:139-209 | no interleaving with at most k acceptances of a usable token at once admits more than its uses iff k is 1 |
| InvitationRace.RevokedIsFinalIff | libs/ledger/src/invitation.service.ts:158-223 | a revoked token stays revoked in every continuation iff no acceptance in flight found it expired, or with uses left for a user not a member yet |
| InvitationRace.UninterruptedIsSerial | libs/ledger/src/invitation.service.ts:139-209 | a read followed at once by its write is the serial acceptance |
| SeatRace.SeatRaceBound | libs/access/src/entitlement.service.ts:193-204 | with at most k creations at once and j members joining between the two counts of one, seats pass the limit by at most k - 1 + j and the uses beyond the first |
| SeatRace.SeatRaceBoundIsReached | libs/access/src/entitlement.service.ts:193-204 | for every k, and j up to 1, a run that meets the bound's hypotheses reaches it |
| SeatRace.WithinLimitIff | libs/ledger/src/invitation.service.ts:87-105 | one seat short of the limit, no interleaving of single-use creations passes it iff they come one at a time and nobody joins between the two counts |
| SeatRace.UninterruptedIsSerial | libs/ledger/src/invitation.service.ts:87-105 | the two counts and the insertion back to back are the serial creation |
| Invitations.TwoUseInvitationPassesLimit | libs/ledger/src/invitation.service.ts:94-105 | one two-use invitation takes an event past its limit |
| Invitations.SeatsAre | libs/access/src/entitlement.service.ts:194-204 | the seats are the active members and the invitations that are PENDING and not expired |
| Invitations.InvitationService.CountSeats | libs/access/src/entitlement.service.ts:194-204 | active members plus live pending invitations |
| Invitations.InvitationService.CreateInvitation | libs/ledger/src/invitation.service.ts:62-107 | refuses an invitee who is an active member, then allows iff one more seat fits the limit, and adds the invitation as given, expiring after its time to live |
| Invitations.InvitationService.AcceptInvitation | libs/ledger/src/invitation.service.ts:139-209 | joins, with the invitation's role, exactly users who are no active member, on a token neither revoked nor expired with uses left; counts the use, ACCEPTED at the last; marks an expired token |
| Invitations.InvitationService.RevokeInvitation | libs/ledger/src/invitation.service.ts:212-223 | revokes whatever state the invitation is in |
| Amounts.RoundTripIff | libs/ai/src/amount.ts:9-36 | parsing the print of an integer gives it back iff it is not negative, up to 2^53 in size |
| Amounts.PrintThenParse | libs/ai/src/amount.ts:9-22 | with any known mark in front and k, m or nothing behind, a print parses to the amount times the factor |
| Amounts.GroupsOfThree | libs/ai/src/amount.ts:30-36 | every group after the first has three digits, the first one to three, and together they are the numeral |
| Amounts.ParseNumeral | libs/ai/src/amount.ts:10-21 | any spelling that cleans to mark, digits, leading zeros included, and suffix parses to their value times the factor |
| Amounts.AcceptedIff | libs/ai/src/amount.ts:10-13 | an input that does not clean to a known mark or none, a number, and k, m or nothing is no amount, and any other is one or, fraction or beyond 2^53, left open |
| Amounts.LetterCaseDoesNotMatter | libs/ai/src/amount.ts:10 | inputs that differ in the case of ASCII letters only parse alike |
| Amounts.SpacingDoesNotMatter | libs/ai/src/amount.ts:10 | a comma or white space anywhere changes nothing; every other character is kept |
| Amounts.PrintIsInjective | libs/ai/src/amount.ts:30-36 | different amounts print differently |

## Left out

- Amounts.ParseNumeral: says nothing about fractions and about products beyond 2^53, which go through rounding double
  arithmetic; the model answers `Inexact` for them. Lower-casing covers ASCII letters.
- Invitations.SeatBound: is about serial runs; what interleaving adds is in `SeatRace` (creations) and
  `InvitationRace` (acceptances), not both at once. Direct `addMember` calls, which check no limit, are not part of the
  runs. Leaving an event is a step of the model although nothing in the repository performs it.
- InvitationRace.RevokedIsFinalIff: is about runs in which no member is deactivated, as nothing in the repository does.
- SmsDelivery.NextKeepsInv: a worker that aborts a campaign and re-opens its row does both in one step.
- InvitationRace.TokenAdmitsAtMostItsUsesIff: the accepting transaction is one step; how Postgres orders two of them on
  one member row is not modelled.
- AssistantTurn.AssistantService.RunLoop: a ledger write either succeeds or fails without a row; a commit row whose
  acknowledgement is lost is not modelled. Replies, report references and telemetry carry no money and are omitted.
- PaymentWebhook.GrantedAtMostOnce: grant periods, the plan an event grant had before, and another invoice of the same
  event replacing the grant are not modelled.
- SmsSending.SmsService.SendCampaign: message texts and their personalisation are not modelled.
- Reports.QueryContributors: how the name and group filters choose people is not modelled, any choice is an input; nor
  are in-kind descriptions, sorting by name, and amounts beyond what a double holds exactly.
- ContributionLedger.MergeIsSafe: files and group memberships that a merge carries along are not modelled.
- Payment kinds, methods, currencies, notes and provenance: they are stored and returned unchanged.
- The contributor limit, plan resolution among grants and the plan cache: finite lookups.
- `deductAiCredit`: nothing in the repository calls it, and it checks no balance.
- `OutboxWriter.enqueue` on a repeated key: outbox keys are fresh.
- Row-level security, roles and permissions, the AI capture path, document extraction, budgets and allocations.
