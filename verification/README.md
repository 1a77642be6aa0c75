# Verified model of the USHSPA notification service

This project models, in Dafny, the parts of the notification service where its guarantees are won or lost, and
proves what those guarantees are, including where they end:

1. **Delivery** (`Tables`, `Delivery`, `DeliverySafety`, `ClaimSafety`, `ClaimHonesty`, `EventStatus`,
   `GiftSafety`, `DeliveryLimits`): queue consumer, message processor, router, idempotency guard, repositories and
   send claim as one transition system over any number of interleaved sessions, crashes, redeliveries and the passing
   of time. `Delivery.Step` is the only definition of
   what can happen; everything is proved for every run of it.
2. **One delivery as the code runs it** (`Routing`): the same classes with their state updated in place, and the
   outcome of a pass related to the tables it started from. `Correspondence` proves that every such pass is a run of
   the transition system, so that the safety theorems are about the code's own passes. `Progress` proves that no
   reachable state of it is a dead end.
3. **Sending** (`Backoff`, `Notification`, `SendService`): claim, retry loop, attempts, status history, dedup keys
   and the voucher handler's fallback from WhatsApp to SMS.
4. **Callbacks** (`Webhook`, `WebhookLaws`): delivery statuses and inbound messages from WhatsApp.
5. **Invoices** (`Money`, `BookingInvoice`, `BookingLaws`, `ShopInvoice`, `ShopLaws`): greedy discount, rounding and reconciliation, in exact
   integers (fils, thousandths of a quantity, thousandths of a fil for products).
6. **Outbound calls and envelopes** (`Gateway`, `Retry`, `EnvelopeModel`, `EnvelopeLaws`).

The modules named `...Laws`, and the laws beside each specification, tell its functions once more by what goes in
and comes out (payload fields, status names, outcome streams), without the functions themselves.

## Assumptions

- Reads are read-committed. An uncommitted row under the same unique key blocks a second insert, which fails if the
  first session commits and proceeds if it rolls back (the constraint is at `app/notifications/domain/models.py:135`).
  Rollback succeeds. Handlers flush and do not commit.
- What a handler does is left open: in `Delivery` any handler may send any keys and then complete or raise; in
  `Routing` the argument `script` stands for it.
- Locks on event rows are not modelled and no visibility timeout is enforced: the model allows more interleavings
  and more redeliveries than the system does.
- At most one acceptance per dedup key needs four things, and `DeliveryLimits.AtMostOnceExactly` shows that it holds
  exactly when all four do: the claim store answers, no database write raises after the provider accepted, an
  acceptance is reported as success, and a claim outlives the longest send. That a suppressed message was really sent
  needs three, and `ClaimHonesty.HonestExactly` shows the same for them: no session dies during a send, no release of
  a claim goes unanswered, and no claim is taken while its answer is lost. `Delivery.Faults` has a switch for each but
  the longest send, for which time is counted in whole ticks; a claim store that does not answer has two, for a claim
  that it did not take and for one that it did.
- A commit that succeeds is known to have succeeded; one whose acknowledgement is lost is a session that dies right
  after it.
- The recipient handler of a gift tries WhatsApp first whenever the phone is known: the same voucher and phone built a
  WhatsApp message before, so they do again. `GiftSafety` states this program as a relation on the session's steps.
- `Routing` requires that all committed processing rows are COMPLETED. `DeliverySafety.OnlyCompletedIsDurable` proves
  that this holds in every reachable state, and every method of `Routing` keeps it.
- Amounts are finite decimals, written as fractions; lemmas that need them non-negative say so.

## What the proofs show about the code

- Only COMPLETED processing rows become durable: the second rollback of a failed pass removes all others. So the
  guard's re-attempt of PENDING and FAILED rows is never entered, and the FAILED status it writes is never kept.
- An event row that says PROCESSED is right, but it need not keep saying so: with two deliveries of one message in
  progress the status can go back to FAILED after all handlers completed, and a message that fails the schema under
  the event's id makes it INVALID. It stays exactly as long as no session on the event has met a failing handler and
  no such message is in the queue.
- At most once is not exactly once: a session that dies between its claim and the provider call leaves the claim
  behind. So does an unanswered release after a failed send, and so does a claim that was taken while its answer timed
  out, since a send without a confirmed claim releases none. The redelivery is told SENT, completes, and the message
  is deleted although nothing was accepted. In the model no fourth way leaves an unjustified claim; a session can also
  be told SENT of a send still in flight that fails later.
- Dedup keys join their fields with colons and do not escape them. Vouchers and addresses are free texts, so that two
  gift messages can share a key; they cannot when the addresses, or the voucher ids, contain no colon.
- A write that raises after the provider accepted makes the recipient handler fall back to SMS although WhatsApp took
  the message.
- A body that is no JSON object, or whose version does not convert, leaves no INVALID row: recording it raises.
- The invoice of a reward charges nothing, but its whole value is sent along as the amount paid.
- Without `total_amount` the booking invoice is reconciled with the pricing's total, but an amount paid of 0 is sent
  along with it.
- A negative NOTIFICATION_MAX_RETRIES leaves a notification PROCESSING without an attempt.
- `failed` overrides READ and a later `delivered` overrides FAILED. `processed_messages` counts duplicates too.
- The per-service and the single line form of a booking invoice agree up to 1 fil for non-negative entry prices. With
  a negative entry they agree exactly when the discount is at most the single line total or the split total plus
  1 fil, whichever is larger, or the negative prices weigh at most 1 fil.
- The docstring of the booking builder speaks of a negative discount line and of a net zero gift voucher invoice
  (`app/invoicing/invoice_helper.py:71-81`); the code reduces unit prices and returns no line, and the model follows
  the code.
- The shop builder adds the whole difference to a unit price, so it reconciles exactly only on a line of quantity 1.
- Adopting a redirect's scheme and host as the new base URL drops a path prefix of the configured one, so that the
  next call goes elsewhere.
- Stage 1 of normalisation always sets a version, so the mapping of `schema_version` in stage 2 has no effect there.
- The event type pattern ends in `$`, which also matches before a final newline: such a text is accepted although the
  comment promises safe characters only.

## Model

| member | source | states |
|---|---|---|
| DeliverySafety.ExclusiveProcessing | app/events/idempotency.py:41-63 | In every reachable state at most one session is between acquiring an (event, handler) pair and the end of its transaction, and none holds a pair that is already durable |
| DeliverySafety.OnlyCompletedIsDurable | app/events/router.py:105-136 | In every reachable state all durable processing rows are COMPLETED, and no session is in the guard's re-attempt of a PENDING or FAILED row |
| DeliverySafety.GuardFailureIsNeverRecorded | app/events/router.py:116-123 | After a handler raised, the rollback and the guard's FAILED update together leave the session with no write at all |
| DeliverySafety.PassIsAllOrNothing | app/events/consumer/message_processor.py:140-153 | No step changes the durable processing and notification tables except a successful end of pass, after which every registered handler is COMPLETED and the event PROCESSED; existing rows are never changed |
| DeliverySafety.DurableRowsStay | app/events/router.py:125-136 | Durable processing rows, notification rows, deletions and queued messages survive every continuation of every run unchanged |
| DeliverySafety.NoMessageLost | app/events/consumer/sqs_consumer.py:139-167 | A message deleted from the queue has a durable COMPLETED row for every handler that the registry lists for its event type, then and in every later state |
| DeliverySafety.OneExecutionCommits | app/notifications/infrastructure/repositories.py:269-306 | All notification rows ever durable for a pair were written by one and the same execution, the one whose processing row is the durable COMPLETED one |
| DeliverySafety.InvStep | app/events/router.py:65-136 | The invariant behind these theorems (overlays disjoint in keys and row ids, all durable rows COMPLETED, rows tagged by their run, per-phase progress) is kept by every step of every session |
| DeliverySafety.NoRetake | app/events/idempotency.py:53-58 | Under the invariant the guard's re-attempt step is never enabled |
| DeliverySafety.CompletedRows | app/notifications/infrastructure/repositories.py:308-317 | Marking the running handler's row COMPLETED by its id completes every row of the session and changes no other row, no key and no id |
| ClaimSafety.AtMostOneAcceptance | app/notifications/application/notification_service.py:81-140 | Without the three faults and with timely settings, over every run two acceptances of one key come from claims at least a claim's lifetime apart |
| ClaimSafety.ClaimOutlivesItsSend | app/notifications/application/notification_service.py:61-79 | A send in flight always still owns its unexpired key, so the unconditional delete removes only its own claim |
| ClaimSafety.AcceptedKeyIsSuppressed | app/notifications/application/notification_service.py:108-125 | After an acceptance, while the claim lives, every session that asks for the key is suppressed with no change of state |
| ClaimSafety.SimpleBoundIsTimely | app/notifications/application/notification_service.py:35 | (M+1) calls and M capped sleeps within a claim's lifetime suffice for a claim to outlive every send |
| ClaimSafety.ClaimStep | app/notifications/application/notification_service.py:61-140 | The timed claim invariant (every send in flight owns its key until after its latest end; an accepted key is claimed until its lifetime is over) is kept by every step |
| DeliveryLimits.AtMostOnceExactly | app/notifications/application/notification_service.py:81-140 | At most one acceptance per key and claim lifetime holds over all runs if and only if the claim store answers, no write fails after an acceptance, acceptances are reported and a claim outlives the longest send |
| DeliveryLimits.UnansweredClaimSendsTwice | app/notifications/application/notification_service.py:69-71 | A run that accepts one key twice at once when the claim store does not answer |
| DeliveryLimits.LostClaimAnswerSendsTwice | app/notifications/application/notification_service.py:61-71 | A run that accepts one key twice when the claim is taken but its answer lost |
| DeliveryLimits.LateWriteFailureSendsTwice | app/notifications/application/notification_service.py:127-132 | A run that accepts one key twice when a database write raises after the acceptance |
| DeliveryLimits.UnseenAcceptanceSendsTwice | app/notifications/application/notification_service.py:134-139 | A run that accepts one key twice when an acceptance is seen as a failure |
| DeliveryLimits.SlowSenderSendsTwice | app/notifications/application/notification_service.py:210-328 | For any settings under which the longest send reaches a claim's lifetime, a run through all retries in which a second session claims and sends the key too |
| DeliveryLimits.CrashedSenderSilencesKey | app/notifications/application/notification_service.py:107-130 | One of the failures that ClaimHonesty.HonestExactly delimits, carried to its end: the claim of a session that died makes the redelivery succeed and the message disappear with nothing accepted |
| ClaimHonesty.HonestExactly | app/notifications/application/notification_service.py:61-139 | Over all runs every claimed key is being sent under that claim or has been accepted, if and only if no session dies during a send, no release goes unanswered and no claim is taken with its answer lost; a claim not taken, late write failures, unseen acceptances and expiring claims do no harm here |
| ClaimHonesty.SuppressedWasSent | app/notifications/application/notification_service.py:108-125 | Then a session that is suppressed and told SENT is told so of a message that was accepted, or that the holder of the claim is sending; with nothing in flight it was accepted |
| ClaimHonesty.HonestSend | app/notifications/application/notification_service.py:61-140 | The invariant behind them is kept by every step of a send |
| ClaimHonesty.ReleaseLost | app/notifications/application/notification_service.py:72-79 | A run in which an unanswered release leaves a claim with nothing accepted and nothing in flight |
| ClaimHonesty.ClaimAnswerLost | app/notifications/application/notification_service.py:61-71 | A run in which a claim taken with its answer lost is never released, with nothing accepted and nothing in flight |
| DeliveryLimits.ProcessedCanTurnFailed | app/events/router.py:125-136 | One of the failures that EventStatus.ProcessedStaysExactly delimits: the event status goes from PROCESSED to FAILED after the message was delivered and deleted |
| EventStatus.ProcessedStaysExactly | app/events/consumer/message_processor.py:99-153 | In any reachable state a PROCESSED event stays PROCESSED in every continuation that posts neither another type nor a new invalid message for it, if and only if no session on it has met a failing handler that it has still to report and no message in the queue fails the schema under its id |
| EventStatus.ProcessedMeansDone | app/notifications/infrastructure/repositories.py:167-181 | In every reachable state an event that is PROCESSED has a durable COMPLETED row for every handler of its type |
| EventStatus.StaysSettled | app/events/consumer/message_processor.py:99-153 | The invariant behind it is kept by every step, those that record an invalid message included |
| EventStatus.FailureIsReported | app/events/router.py:124-133 | From any such state with a session that has met a failing handler, a run that takes the PROCESSED status away |
| EventStatus.InvalidOverwrites | app/events/consumer/message_processor.py:99-118 | From any state with a queued message that fails the schema under an event's id, a run that makes the event INVALID, whatever it was |
| Routing.IdempotencyGuard.Acquire | app/events/idempotency.py:27-63 | COMPLETED, PROCESSING and SKIPPED rows conflict, PENDING and FAILED rows are resumed under their id, no row means a new PROCESSING one; nothing else changes and nothing is committed |
| Tables.DecideLaws | app/events/idempotency.py:41-63 | COMPLETED, PROCESSING and SKIPPED rows conflict, PENDING and FAILED ones are resumed under their id, and only a missing row is created |
| Routing.EventRouter.RunNext | app/events/router.py:75-123 | One handler: skipped, completed with its notifications appended, or raised and rolled back; a clean pass stays clean up to this handler, and a raising one was fresh |
| Routing.EventRouter.RunEach | app/events/router.py:73-123 | The loop keeps the pass on course: without errors all handlers so far are done, with one it is bound to fail |
| Routing.EventRouter.RunAll | app/events/router.py:66-123 | The loop reports errors exactly when some handler that has to run raises; otherwise every handler is COMPLETED with its effects, once and in order |
| Routing.EventRouter.Route | app/events/router.py:29-136 | All or nothing: all handlers COMPLETED with exactly their effects and the event PROCESSED, or committed tables as before except the event FAILED with its retry count increased by one |
| Routing.MessageProcessor.RecordInvalid | app/events/consumer/message_processor.py:65-79 | The message's event row, new or already there, is committed as INVALID with its retry count kept, and nothing else changes |
| Routing.MessageProcessor.ProcessRawMessage | app/events/consumer/message_processor.py:33-153 | Success exactly for a well-formed message none of whose pending handlers raises, with everything committed; on failure processing and notification tables are untouched and the event row shows it: FAILED with one more retry, INVALID with its count kept for a malformed message, nothing for a body that cannot be recorded; no other event is touched |
| Routing.MessageProcessor.ProcessEnvelope | app/events/consumer/message_processor.py:126-153 | A valid message succeeds exactly when no handler that has to run raises, with everything committed and the event PROCESSED; else nothing changes but the event, FAILED with one more retry |
| Routing.FailuresAreCounted | app/notifications/infrastructure/repositories.py:149-165 | Over any history of messages processed one after the other, each leaving the tables as ProcessRawMessage promises, an event's retry count grows by exactly the number of its deliveries that failed on a handler |
| Routing.SqsConsumer.ProcessAndDelete | app/events/consumer/sqs_consumer.py:139-167 | A message is deleted exactly when it was deliverable, has a receipt handle and the queue answers, and then all its handlers are durably COMPLETED |
| Routing.SkippedStep | app/events/router.py:77-88 | Skipping a handler whose row is already there keeps the pass exactly on course and that handler was not fresh |
| Routing.CompletedStep | app/events/router.py:90-104 | A completed handler adds exactly its key and its notifications to the pass |
| Routing.RedeliveryAddsNothing | app/events/router.py:77-88 | On the tables of a successful pass no redelivery of the event can fail or add a notification, whatever its handlers would do |
| Correspondence.PassIsARun | app/events/consumer/message_processor.py:126-153 | From any reachable state, whatever other sessions do as long as none holds a pair of the event, for whatever the handlers do and whichever of their sends the provider accepts: some continuation ends the session with the tables as ProcessRawMessage leaves them and exactly the accepted sends logged; a successful pass has sent its notifications, in order |
| Correspondence.LoopRuns | app/events/router.py:75-123 | The router's handler loop, with its mid-loop rollbacks and with sends that no rollback undoes, is a run of the transition system |
| Correspondence.SeenStep | app/events/router.py:97-98 | Completing a handler in the session's uncommitted rows is completing it in the tables that the session sees |
| Progress.NeverStuck | app/events/consumer/sqs_consumer.py:90-167 | From every reachable state, whatever sessions, sends and claims there are, some continuation takes any given valid message of the queue through every registered handler and deletes it |
| Progress.EndSends | app/notifications/application/notification_service.py:142-330 | Every send in flight, sleeping ones included, can be brought to its end without touching the tables |
| Progress.SessionsCanFail | app/events/consumer/message_processor.py:150-153 | Outside a handler a session can fail at any time, leaving nothing behind and its message in the queue |
| Progress.EventsAreRecorded | app/notifications/infrastructure/repositories.py:62-99 | A valid message records its event as RECEIVED, and leaves one recorded before as it is |
| Backoff.TotalBound | app/notifications/application/notification_service.py:305-310 | All sleeping before attempt n is at most base·(2^n − 2) and at most (n−1)·cap |
| Backoff.TotalUncapped | app/notifications/application/notification_service.py:305-310 | While the cap does not bite the geometric bound is met exactly |
| Backoff.TotalCapped | app/notifications/application/notification_service.py:305-310 | Once every sleep reaches the cap the linear bound is met exactly |
| Notification.UpdateKeepsChain | app/notifications/infrastructure/repositories.py:404-432 | A status update keeps the history a linked chain from nothing to the current status and only appends |
| Notification.ChainFromTrace | app/notifications/infrastructure/repositories.py:417-432 | A chained history is determined by the sequence of statuses |
| Notification.AttemptsMadeUnique | app/notifications/application/notification_service.py:210-328 | The provider outcome stream determines the number of attempts |
| Notification.StopsOnce | app/notifications/application/notification_service.py:210-328 | Outcomes and failing writes determine the number of calls and whether the send raises |
| Notification.TryOnce | app/notifications/application/notification_service.py:213-328 | One round records its outcome and either raises, ends the delivery with its final status, or leaves the loop ready for the next attempt after the right delay |
| Notification.SendImpl | app/notifications/application/notification_service.py:142-330 | For every outcome stream and whichever database writes raise: exactly the calls up to the first end or exception. Without an exception: attempts numbered 1..n recorded as they went, retry count n−1, statuses CREATED, PROCESSING, RETRYING^(n−1), then SENT iff the last attempt was accepted, else FAILED; total sleep follows from n |
| Notification.DeliveryLaws | app/notifications/application/notification_service.py:209-328 | On the outcome stream: n ≤ retries+1 attempts numbered from 1; all but the last failed, retryable and without a message id; the last with the provider's message id iff accepted; SENT iff accepted, FAILED only when retries ran out or it must not be retried; sleeping bounded |
| Notification.TraceLaws | app/notifications/application/notification_service.py:167-318 | The history in order: CREATED, PROCESSING, RETRYING before each attempt but the first, then SENT iff the last attempt was accepted, else FAILED |
| Notification.NoAttemptLaws | app/notifications/application/notification_service.py:210-213 | With a negative number of retries there is no attempt and the notification stays PROCESSING |
| Notification.CallLaws | app/notifications/application/notification_service.py:210-328 | The provider is called again exactly after an exception or a retryable refusal, up to retries+1 times, unless a database write raises; and it is called at all exactly when the message renders and no write raises before |
| SendService.FieldUnique | app/notifications/application/notification_service.py:56-59 | Joined texts with colon-free first fields agree only if the fields and the rests agree |
| SendService.KeysCoincideExactly | app/notifications/application/notification_service.py:48-59 | Keys of colon-free templates are equal if and only if template and channel are, and address and scope are equal or shifted against each other at a colon |
| SendService.KeyIdentifiesSend | app/notifications/application/notification_service.py:48-59 | With colon-free templates, and addresses or scopes without colons, two keys are equal if and only if template, channel, address and scope are |
| SendService.EventsKeepApart | app/notifications/application/notification_service.py:48-59 | Messages of different events never share a key, unless both are about a voucher or a gift |
| SendService.ObjectsShareAKey | app/notifications/application/notification_service.py:36-59 | The same message about a voucher or a gift has one key under every event |
| SendService.ObjectsKeepApart | app/notifications/application/notification_service.py:48-59 | Messages about different vouchers or gifts never share a key |
| SendService.KeysCanCollide | app/notifications/application/notification_service.py:56-59 | For any event ids: gift messages for different vouchers and different addresses that share a key |
| SendService.ClaimStore.Claim | app/notifications/application/notification_service.py:61-71 | Takes a free key, reports a taken one, and gives no answer when the store is not reached or its answer is lost, in which case the key is taken all the same |
| SendService.NotificationService.Send | app/notifications/application/notification_service.py:81-140 | A claimed key: SENT and no provider call. Otherwise SENT exactly when the provider ends up accepting and no write raises, with exactly the calls that outcomes and writes lead to; an exception is passed on. A confirmed claim stays exactly when delivered or when its release got no answer; one taken with its answer lost always stays. Disabled email: CANCELLED, no claim |
| SendService.DeliversExactly | app/notifications/application/notification_service.py:81-330 | A send delivers if and only if it renders and one of its first retries+1 calls is accepted after nothing but exceptions and retryable refusals, with no write raising on the way |
| SendService.LateFailureIsNoDelivery | app/notifications/application/notification_service.py:127-132 | A send that raises counts as not delivered, even when its last call was accepted: its claim is released |
| SendService.TemplatesSeparateKeys | app/notifications/application/notification_service.py:56-59 | Different colon-free templates never share a key |
| SendService.ChannelsHaveTheirOwnKeys | app/events/handlers/voucher/voucher_active.py:935-1012 | The recipient's WhatsApp, SMS and email messages have different keys, whatever the addresses |
| SendService.MarkersAreNotClaims | app/events/handlers/voucher/voucher_active.py:980-991 | The recipient markers never coincide with a send claim, nor with each other |
| SendService.GiftKeyIgnoresEvent | app/notifications/application/notification_service.py:36-55 | The key of a gift message does not depend on the event that announces it |
| SendService.FallbackKeysIgnoreEvent | app/notifications/application/notification_service.py:36-59 | Nor do the keys of the gift's SMS and email |
| SendService.DigitsInOrder | app/events/handlers/voucher/voucher_active.py:988-991 | The markers go by the digits of the phone alone, in order |
| SendService.NotifyPhone | app/events/handlers/voucher/voucher_active.py:920-991 | WhatsApp is called exactly when it is ready and unclaimed, and the SMS provider exactly when WhatsApp reports nothing sent or raises and the SMS can be sent; a delivered WhatsApp message leaves its claim; no foreign key of the claim store changes |
| SendService.NotifyRecipient | app/events/handlers/voucher/voucher_active.py:904-1019 | The same for the whole recipient notification, with the mail provider called independently of what happened on the phone, the markers set, and no key changed but its three claims and two markers |
| SendService.UnreachedFallsBack | app/events/handlers/voucher/voucher_active.py:955-978 | A recipient whom WhatsApp does not reach gets the SMS, unless it has gone out before |
| SendService.ReachedDoesNotFallBack | app/events/handlers/voucher/voucher_active.py:944-956 | One who is reached by the first WhatsApp call, has no phone, or whose SMS has gone out, does not |
| SendService.MailGoesOut | app/events/handlers/voucher/voucher_active.py:993-1012 | A recipient with an email address is written to whatever happens on the phone, unless the mail has gone out before |
| GiftSafety.NoFallbackAfterAcceptance | app/events/handlers/voucher/voucher_active.py:920-980 | Over every run: once a WhatsApp key has been accepted, no recipient handler that begins afterwards in any session asks for the SMS while the claim lives |
| GiftSafety.SmsStaysSilent | app/events/handlers/voucher/voucher_active.py:956-980 | If all recipient handlers begin afterwards, no send for the SMS key is ever in flight and the provider accepts none |
| GiftSafety.GiftIsNotSentTwice | app/events/handlers/voucher/voucher_active.py:920-980 | The same for a gift accepted under one event and announced again under another, in terms of its dedup keys |
| GiftSafety.AcceptedGiftDoesNotFallBack | app/events/handlers/voucher/voucher_active.py:944-980 | In every reachable state after the acceptance, while the claim lives, NotifyRecipient does not fall back to SMS on the keys claimed then |
| Webhook.WebhookService.ProcessStatus | app/notifications/application/whatsapp_webhook_service.py:90-181 | One callback, on the latest attempt with its message id, changes status, history and attempt exactly as its name says, and is counted exactly when known and addressed |
| Webhook.WebhookService.ProcessInbound | app/notifications/application/whatsapp_webhook_service.py:183-231 | Stores a message with id and sender once; duplicates count but change nothing |
| Webhook.WebhookService.ProcessPayload | app/notifications/application/whatsapp_webhook_service.py:35-88 | The nested loops apply and count exactly the flat sequence of statuses and messages that the payload carries, statuses of a change before its messages |
| Webhook.ApplyAppend | app/notifications/application/whatsapp_webhook_service.py:48-80 | Payloads one after the other have the effect of their events in one sequence |
| WebhookLaws.ForeignPayloads | app/notifications/application/whatsapp_webhook_service.py:40-56 | Another kind of account carries nothing, and neither does a change that is not about messages |
| WebhookLaws.ChangeCarries | app/notifications/application/whatsapp_webhook_service.py:58-80 | A change about messages carries its statuses in order and then its messages in order |
| WebhookLaws.EntryCarries | app/notifications/application/whatsapp_webhook_service.py:48-56 | The changes of an entry carry their events one after the other |
| WebhookLaws.PayloadCarries | app/notifications/application/whatsapp_webhook_service.py:48-56 | So do the entries of a payload |
| WebhookLaws.AddressedExactly | app/notifications/application/whatsapp_webhook_service.py:90-114 | A callback reaches a notification exactly by the last attempt with its message id, when that notification is stored |
| WebhookLaws.CountedExactly | app/notifications/application/whatsapp_webhook_service.py:116-181 | It counts as processed exactly when it reaches one and has one of the four names; otherwise nothing changes |
| WebhookLaws.OneLaws | app/notifications/application/whatsapp_webhook_service.py:60-88 | Each processed status and each message with id and sender counts for one |
| WebhookLaws.OneCallback | app/notifications/application/whatsapp_webhook_service.py:116-181 | The whole table of statuses and names, callback by callback |
| WebhookLaws.HistoryAfterOne | app/notifications/application/whatsapp_webhook_service.py:116-181 | A callback leaves exactly one history entry, except a late sent, a delivered after read, and an unknown name, which leave none |
| WebhookLaws.SentAlone | app/notifications/application/whatsapp_webhook_service.py:168-179 | However often `sent` is reported alone, it moves a notification only from CREATED, QUEUED or PROCESSING, to SENT |
| WebhookLaws.WithoutFailed | app/notifications/application/whatsapp_webhook_service.py:116-181 | Without `failed`, the final status is a function of the starting status and the set of names seen |
| WebhookLaws.OrderIrrelevantWithoutFailed | app/notifications/application/whatsapp_webhook_service.py:116-181 | Without `failed`, order and duplicates do not matter |
| WebhookLaws.LastFailureDecides | app/notifications/application/whatsapp_webhook_service.py:138-165 | What follows the last `failed` decides, as if from FAILED |
| WebhookLaws.OrderMattersWithFailed | app/notifications/application/whatsapp_webhook_service.py:116-165 | With `failed` the order matters: it overrides READ, and a later `delivered` overrides it |
| WebhookLaws.ReplayKeepsStatus | app/notifications/application/whatsapp_webhook_service.py:90-181 | Applying any sequence of callbacks twice gives the status of applying it once |
| WebhookLaws.StatusFollowsItsCallbacks | app/notifications/application/whatsapp_webhook_service.py:90-114 | After any payloads a notification's status is its own callbacks applied in order; nothing else touches it |
| WebhookLaws.AttemptFollowsItsCallbacks | app/notifications/application/whatsapp_webhook_service.py:116-165 | After any payloads an attempt is SUCCESS or FAILED by the last delivered, read or failed of its own callbacks, and never to be retried after a failed one; nothing else touches it |
| WebhookLaws.HistoriesStayChained | app/notifications/infrastructure/repositories.py:404-432 | Any payloads keep every history a linked chain that only grows |
| WebhookLaws.AnyMixStaysChained | app/notifications/infrastructure/repositories.py:382-436 | Any mix of new notifications, send-loop updates and callbacks keeps every history a linked chain that only grows |
| WebhookLaws.InboundGrowsUniquely | app/notifications/infrastructure/repositories.py:714-745 | Inbound rows are never rewritten, ids stay unique, every storable message ends up stored |
| WebhookLaws.FirstSeenWins | app/notifications/infrastructure/repositories.py:714-745 | The stored row of an id is that of the first message seen with it |
| WebhookLaws.InboundComesFromMessages | app/notifications/application/whatsapp_webhook_service.py:183-231 | Whatever is stored came from a message with id and sender |
| WebhookLaws.RowLaws | app/notifications/application/whatsapp_webhook_service.py:213-223 | A stored row holds the message's id, sender, type and text and the number it was sent to |
| WebhookLaws.SenderLaws | app/notifications/application/whatsapp_webhook_service.py:67-72 | Its sender name is that of the last contact with the sender's id, and missing without one |
| WebhookLaws.ReplayIsSafe | app/notifications/application/whatsapp_webhook_service.py:35-88 | Replaying any payloads changes no notification status and adds no inbound row |
| Money.HalfEven | app/invoicing/invoice_helper.py:30-40 | Rounds to a nearest integer, ties to the even one |
| Money.HalfEvenUnique | app/invoicing/invoice_helper.py:30-40 | Nearest with ties to even has one result only |
| BookingInvoice.ApplyDiscount | app/invoicing/invoice_helper.py:192-207 | The greedy loop with its early exit equals the closed form: line i loses min(p_i, max(0, D − sum of earlier positive lines)) |
| BookingInvoice.NothingLeft | app/invoicing/invoice_helper.py:206-207 | Once the discount is used up later lines lose nothing: the break changes nothing |
| BookingInvoice.DiscountExact | app/invoicing/invoice_helper.py:192-207 | For non-negative lines the total becomes exactly max(0, total − D) and no line goes negative or grows |
| BookingInvoice.Reconcile | app/invoicing/invoice_helper.py:209-218 | The difference goes to the first line that can absorb it, when the target is positive and within 10 fils; else nothing changes |
| BookingInvoice.ReconcileExactly | app/invoicing/invoice_helper.py:209-218 | After reconciliation the sum is the target if and only if it was before or the difference can be absorbed; otherwise nothing changes; no line goes negative |
| BookingInvoice.BuildGrossLines | app/invoicing/invoice_helper.py:117-187 | Split lines when the entry prices reconcile with the arrangement price, else one line; then add-ons, extra time and fees when positive |
| BookingInvoice.BuildBookingInvoiceLines | app/invoicing/invoice_helper.py:66-220 | The whole builder: the free reward line, no line for a voucher, or the gross lines with their net prices |
| BookingLaws.LinesByKind | app/invoicing/invoice_helper.py:117-187 | By the payload fields with their fallbacks: what the lines of each kind charge together, the services by the entry or as one, add-ons, extra time and fees when positive |
| BookingLaws.LinesInOrder | app/invoicing/invoice_helper.py:117-187 | The lines come in the order of the payload's services, add-ons, extra time and fees, each kind at most once |
| BookingLaws.GrossCharges | app/invoicing/invoice_helper.py:117-187 | Before the discount the lines charge exactly what the payload asks for |
| BookingLaws.InvoiceCharges | app/invoicing/invoice_helper.py:117-220 | By the payload fields: the invoice of a paid booking charges what the discount leaves; a shortfall of up to 10 fils from a positive amount due is always put right, more than 10 fils never |
| BookingLaws.ConsistentBookingIsMet | app/invoicing/invoice_helper.py:117-220 | When the amount due is the charge less the discount, the invoice charges exactly that |
| BookingLaws.RewardShowsItsValue | app/invoicing/invoice_helper.py:97-113 | A reward is one free line for the total, with its fallbacks |
| BookingLaws.FrontFirst | app/invoicing/invoice_helper.py:192-207 | A line loses something to the discount only when all positive lines before it are used up |
| BookingLaws.FirstTakesIt | app/invoicing/invoice_helper.py:209-218 | Only the first line that does not turn negative by the difference is changed by it |
| BookingInvoice.InvoiceSum | app/invoicing/invoice_helper.py:187-220 | End to end, the invoice sums to the target if and only if what remains after the discount equals it or can be reconciled with it; else it sums to what remains; no line is negative |
| BookingInvoice.AmountPaidIsTarget | app/invoicing/triggers.py:201-217 | For every booking the amount paid equals the invoice target if and only if the total is a number of at most three decimals, or it is missing and the pricing's total rounds to nothing |
| BookingInvoice.InvoiceMeetsAmountPaid | app/invoicing/triggers.py:179-217 | For every booking the invoice of the builder's lines charges the amount paid if and only if: for a reward, the total is missing or zero; else, it can be brought to the target and the two agree, or it cannot and what the discount left is the amount paid. A redeemed voucher has no line and no invoice |
| BookingInvoice.NoInvoiceForVouchers | app/invoicing/triggers.py:179-182 | The builder makes no line, and so there is no invoice, exactly for the redemption of a voucher that is no reward |
| BookingInvoice.RewardIsSaidToBePaid | app/invoicing/triggers.py:201-217 | A reward whose invoice charges nothing while 5 KWD are said to be paid |
| BookingInvoice.SplitAgreesWithSingle | app/invoicing/invoice_helper.py:124-152 | Whenever the split is chosen, both forms differ by at most 1 fil after the discount, and each meets a positive target within 10 fils if a line of 10 fils is left to it |
| BookingInvoice.SplitAgreesExactly | app/invoicing/invoice_helper.py:124-207 | Whenever the split is chosen, for entries and discounts of any sign, the two forms differ by at most 1 fil after the discount if and only if the discount is at most the larger of the single total and the split total plus 1, or the negative prices weigh at most 1 fil |
| BookingInvoice.SplitAndSingleMeetTarget | app/invoicing/invoice_helper.py:124-218 | Both forms meet the same target when it is within 9 fils of the single line form and each has a line of 10 fils left |
| BookingInvoice.NegativeEntryBreaksAgreement | app/invoicing/invoice_helper.py:129-133 | A booking with a negative entry that is split, and whose split leaves −2 fils where the single line leaves 0 |
| ShopInvoice.ApplyDiscount | app/invoicing/invoice_helper.py:266-279 | The loop with its early exit reduces each line by what the lines before it left of the discount, rounded back to a unit price |
| ShopInvoice.ShopDiscountBound | app/invoicing/invoice_helper.py:266-279 | At most one line is partly reduced, earlier positive lines are zero, later ones untouched, none is negative, and the total misses max(0, total − D) by at most half a fil times that line's quantity |
| ShopInvoice.Reconcile | app/invoicing/invoice_helper.py:281-289 | The difference goes to the first unit price that can take it; else nothing changes |
| ShopInvoice.AdjustsExactly | app/invoicing/invoice_helper.py:281-289 | An adjustment takes place if and only if the target is positive, the difference small and some unit price can take it |
| ShopInvoice.ShopResidual | app/invoicing/invoice_helper.py:281-289 | For whole quantities, adjusting a line of quantity q leaves exactly (1 − q) times the difference: the target is met if and only if q is 1 |
| ShopInvoice.UnitLineResidual | app/invoicing/invoice_helper.py:281-289 | For any other quantities, an absorbing line of quantity 1 leaves at most half a fil |
| ShopInvoice.ShopInvoiceSum | app/invoicing/invoice_helper.py:266-291 | End to end for whole quantities: the invoice equals the order total if and only if the discounted lines already do or the difference goes to a line of quantity 1 |
| ShopInvoice.BuildShopOrderInvoiceLines | app/invoicing/invoice_helper.py:226-291 | The whole builder: the items' lines or one fallback line, discounted and reconciled |
| ShopLaws.OneItem | app/invoicing/invoice_helper.py:238-255 | An item's line has its unit price, or its price, and its quantity, or one; what is no object has no line |
| ShopLaws.ItemsInOrder | app/invoicing/invoice_helper.py:238-255 | Items become lines in their order |
| ShopLaws.GrossCharges | app/invoicing/invoice_helper.py:235-264 | Before the discount the lines charge price by quantity of every item, or the total when there are none |
| ShopLaws.ConsistentOrderIsMet | app/invoicing/invoice_helper.py:226-291 | An order of single pieces whose amount due is what it asks for less its discount is invoiced for exactly that |
| ShopLaws.UndiscountedOrderIsMet | app/invoicing/invoice_helper.py:226-291 | Without a discount, of any quantities, a consistent order is invoiced for exactly its lines |
| ShopLaws.FirstTakesIt | app/invoicing/invoice_helper.py:281-289 | Only the first unit price that can take the difference is changed by it |
| Gateway.ExchangesBounded | app/integrations/http_client.py:161-199 | From any point at most one exchange per attempt and per redirect left follows, and all before the last were redirects or transient |
| Gateway.GatewayHttpClient.FollowRedirects | app/integrations/http_client.py:173-206 | The redirect loop follows redirects until none is left or the shared budget is used up, every request faithful to the call, the base as taught, and the exchange that decides the run unchanged |
| Gateway.RedirectStep | app/integrations/http_client.py:173-206 | One followed redirect keeps the run faithful: caller's method, headers and body to the target, without parameters, and the base adopted only for a change of scheme or host |
| Gateway.GatewayHttpClient.Attempts | app/integrations/http_client.py:161-256 | The attempt loop makes exactly the exchanges up to the deciding one and sleeps 2^k before repeat k |
| Gateway.GatewayHttpClient.Request | app/integrations/http_client.py:145-278 | For every network behaviour: timeouts and retryable statuses are repeated and redirects followed until N−1 and 3 of them are used up, and nothing else is; at most N+3 requests, outcome by the last exchange alone, sleep exactly 2^k before repeat k, every request faithful to the call, base URL as the redirects taught it |
| Gateway.EndsOnce | app/integrations/http_client.py:161-256 | At most one exchange can be the last by these counts |
| Gateway.LastExchangeEnds | app/integrations/http_client.py:161-256 | The run of the two nested loops is the one that these counts describe |
| Gateway.UrlOfPath | app/integrations/http_client.py:66-69 | The address is base, service and path in this order, with exactly one leading slash of the path |
| Gateway.AdoptionLaws | app/integrations/http_client.py:191-196 | Only a redirect to the same path on another scheme or host changes the base, to that scheme and host |
| Gateway.CallLaws | app/integrations/http_client.py:218-277 | Which result each last exchange gives: a value exactly for a successful response with JSON, a timeout exactly for a timeout, a client error exactly for another status; any status that is neither retryable nor a redirect, and any other exception, ends the run |
| Gateway.AdoptedBaseSkipsRedirect | app/integrations/http_client.py:192-196 | After adopting a redirect's scheme and host the next call goes straight to its target if and only if the base had no path prefix |
| Retry.ExponentialBackoffWithJitter | app/common/retry.py:81-115 | Calls until a value, a non-retryable exception or the last attempt, and hands that call's result on; with no attempts allowed nothing is called and `None` is raised; sleeps follow the policy |
| Retry.StopsOnce | app/common/retry.py:104-115 | The stream of call results determines the number of calls |
| Retry.StopLaws | app/common/retry.py:102-115 | The helper goes on exactly through retryable exceptions, up to the allowed attempts |
| Retry.DelayRange | app/common/retry.py:37-53 | A delay lies between half of the plain one and all of it, and never above the cap |
| Retry.JitterLaws | app/common/retry.py:46-53 | The random number places a jittered delay between half and all of the plain one |
| Retry.PlainLaws | app/common/retry.py:46-49 | The plain delays start with the base and grow by the factor up to the cap |
| Retry.SleepBound | app/common/retry.py:37-53 | All sleeping is at most the geometric series and at most the cap per sleep |
| Retry.SeriesClosed | app/common/retry.py:46-49 | The closed form of that series |
| Retry.SleepExactly | app/common/retry.py:37-53 | Without jitter and below the cap the sleeping is exactly that series |
| EnvelopeModel.RunStage1 | app/events/consumer/message_processor.py:82-95 | The processor's step by step defaults equal the specification of stage 1 |
| EnvelopeModel.RunStage2 | app/events/schemas/envelope.py:77-121 | The envelope's step by step normalisation equals the specification of stage 2 |
| EnvelopeModel.ProducerRoundTrip | app/events/producer/sqs_producer.py:47-66 | A valid envelope dumped by the producer comes back equal through both stages and validation |
| EnvelopeModel.ValidationIsSound | app/events/schemas/envelope.py:36-75 | Whatever validation accepts satisfies the envelope's field rules, with the event type in lower case |
| EnvelopeLaws.ValidationExactly | app/events/schemas/envelope.py:36-75 | Exactly the messages with convertible ids, time and version, and type, source and data as demanded are accepted, and each field of the envelope is the message's, converted |
| EnvelopeLaws.TypesExactly | app/events/schemas/envelope.py:64-75 | The accepted event types: letters, digits, dots, underscores and hyphens, at least one, and perhaps a final newline |
| EnvelopeModel.DataIsConserved | app/events/schemas/envelope.py:102-120 | Exactly what ends up in the data: its own entries untouched, every other root key outside the envelope added, nothing else |
| EnvelopeLaws.DataKeys | app/events/consumer/message_processor.py:82-98 | Key by key: which keys the data ends up with, and from where their values come |
| EnvelopeModel.RootIsKept | app/events/schemas/envelope.py:77-121 | Root entries are kept, except data and a source or event type that counts as absent |
| EnvelopeLaws.ProcessorDefaults | app/events/consumer/message_processor.py:83-88 | A missing id, time or version is filled in with the generated id, the current time and 1 |
| EnvelopeLaws.SchedulerIsTheSource | app/events/consumer/message_processor.py:89-90 | A message without a source comes from the scheduler |
| EnvelopeLaws.SourceFilledIn | app/events/schemas/envelope.py:80-89 | Stage 2 fills in a source exactly when it counts as absent |
| EnvelopeLaws.SourceByName | app/events/schemas/envelope.py:81-89 | The source filled in goes by the words in name and type, booking and payment before user, auth and password |
| EnvelopeLaws.TypeFromName | app/events/schemas/envelope.py:98-102 | A message without an event type gets its event name in lower case with dots turned into underscores |
| EnvelopeModel.NormaliseTwice | app/events/consumer/message_processor.py:82-98 | Normalising twice, even with other generated values, equals normalising once |
| EnvelopeModel.SchemaVersionIsIgnored | app/events/schemas/envelope.py:91-96 | Behind stage 1 a message without a version is version 1 whatever its schema_version; stage 2 alone gives 1 if and only if that value is 1 or no number |
| EnvelopeModel.AcceptedTypeIsSafe | app/events/schemas/envelope.py:64-75 | An accepted event type has safe characters only if and only if it does not end in a newline |
| EnvelopeModel.NewlineSlipsThrough | app/events/schemas/envelope.py:64-75 | A safe event type with a newline appended is still a valid one |

## Left out

- Vendor and network code (boto3, httpx, SMTP, Meta, KWT SMS, Twilio) appears only as outcomes.
- The polling loop, its concurrency limit and shutdown; only what happens to one message is modelled.
- SNS unwrapping of message bodies, and the JSON parser.
- After a database exception the session may refuse further writes until it is rolled back; in `SendService` each send has its own failing writes, whatever the one before met.
- In `Delivery` the placeholder row that a message without an event id leaves behind is not written; `Routing` has it. Messages are never moved to a dead letter queue.
- A claim that the Redis client repeats by itself after a timeout, and then finds taken by its own first try.
- Correspondence.PassIsARun: no time passes within the run, so a key claimed before the pass, or accepted in it, whose claim expires before the pass writes it again is part of `Delivery` only. Retry counts are part of `Routing` only.
- Two sends running in parallel inside one handler: a session of `Delivery` sends one message at a time.
- SQLAlchemy object expiry, flush order and the tie-breaking of `started_at`; attempt rows are ordered by their start.
- Error texts, latencies and provider responses of attempts, and the reasons in status histories.
- The webhook endpoint, its signature check and its commit; the laws are about the state held in the session.
- The trigger's own gates before an invoice is built (payment status, and a voucher given by method or data); they only keep further bookings from having one.
- Invoice builders for vouchers and gift purchases, account ids, line names and the upload to the accounting service.
- Amounts that are no finite decimals, and the 28-digit context of the decimal library.
- The validation library's coercions are an abstract `Codec` that is stable on canonical texts; the text of a JSON object and lower-casing outside ASCII are not modelled; a `schema_version` that is infinite, where the conversion raises, is treated as no number.
- Floating point rounding of delays: `Retry` uses reals, `Backoff` and `Gateway` whole ticks.
- Message composers, templates, handler gating, phone normalisation, settings, logging, masking, statistics, middleware and token checks: easy or library code.
