# Payment gateway: asynchronous jobs, webhooks and refunds

This project is a Dafny model of the backend of a small payment gateway. The model covers how the gateway's records change, not its HTTP API.

- A merchant creates a payment. The gateway saves it as `pending`, announces it by webhook and queues a job.
- A payment worker settles the job as `success` or `failed`.
- A settled payment can be captured once and refunded up to its amount.
- A refund worker marks each refund `processed`.
- Every event is written as a webhook delivery record. A delivery worker posts each record to the merchant's endpoint, signed with a lowercase-hex HMAC. A failed post is retried on a fixed backoff table and given up after the fifth failure. A periodic sweep re-queues the records whose retry time has come. An operator can reset a record and queue it again.
- Queues and metric counters live in Redis. Each queue is a list: producers push on the left and workers pop on the right.
- A response saved under a client idempotency key is kept for 24 hours. A response the service's JSON mapper cannot write is not saved, and the save throws.

## How the model is built

There is one module per Java class of the core, and each module's doc comment names the class it models.

- **Stores are classes over maps and sequences.**
  - The JPA repositories become the `Database` class (`entities.dfy`).
  - Redis becomes the `RedisQueueService` class, which holds lists by key, string values by key and the heartbeat key's expiry (`redis_queue.dfy`).
  - The idempotency table becomes a map inside `IdempotencyService`.
- **Services and workers are classes** that share those objects. Each method's `ensures` gives the whole new state as a function of the old one. The properties are then proved as lemmas about those functions.
- **Each worker's endless `run` loop is modelled as one pass (`RunOnce`).** The counter effect of a pass is proved once, in `WorkerLoop`.
- **Inputs that come from outside are parameters.**
  - The wall clock is one integer `now`, in seconds.
  - The random indices of `IdUtil` are a sequence `draws`.
  - The processing delay draw is an integer, and the payment outcome draw is a real in [0, 1).
  - The fresh UUID of each webhook record is a string parameter.
  - What the merchant's endpoint did with a POST is an input: it answered with a status code and a body, or the call threw.
  - HMAC-SHA256 is an uninterpreted function on which only the hex rendering is built.
- **Where the two disagree, the model follows the code.** These places are:
  - `markFailed` leaves `nextRetryAt` as it was (`Delivery.NotConfiguredKeepsRetryTime`).
  - `attemptDelivery` does not look at the record's status, so a stale job after a given-up delivery attempts it a sixth time (`Delivery.StaleJobAttemptsAgain`). Likewise the refund worker re-processes a refund that is already `processed` (`RefundProcessing.ReprocessesProcessed`). The payment worker does not check the payment's status either, so a stale job re-settles a payment that was already captured or refunded, and a refunded payment goes back to `success` or `failed` (`PaymentProcessing.StaleJobResettles`).
  - A payment becomes `refunded` only when one refund's amount equals the payment's amount; partial refunds that add up to the amount leave it `success` (`RefundProcessing.PartialRefundsKeepStatus`).
  - An empty poll still decrements `metrics:jobs:processing`, because the `finally` block runs after `continue`; an idle worker drives the gauge below zero (`WorkerLoop.IdleDrift`).
  - `getCounter` reads a counter with `Long.parseLong`, which accepts a plus sign and leading zeros; Redis's INCRBY refuses both (`Queue.LeadingZeroRefused`).
  - `IdempotencyService` writes responses with a bare `ObjectMapper` that has no `java.time` module registered (IdempotencyService.java:18), unlike the mappers of `WebhookService` and `RedisQueueService`. Its one caller saves the `createPayment` response, whose `created_at` is an `OffsetDateTime`; Jackson refuses `java.time` values when that module is missing, so as written that save would take the throwing path and cache nothing. The model leaves writability as an input and proves that a failed save caches nothing (`Idempotency.SaveCachesOnlyWritable`).
  - `metrics:jobs:pending` is only ever incremented (by `enqueue`); nothing decrements it when a job is popped.
  - `listForMerchant` asks for page `offset / limit`, which starts at `page * limit`, not at `offset`. A negative offset above `-limit` truncates to page 0 (`Webhooks.PageArithmetic`).
  - A 4xx or 5xx answer reaches `attemptDelivery` as an exception, because the HTTP client throws on those codes; only an answer that arrives (2xx or 3xx) has its code and body recorded (`Delivery.FailedAttempt`).

## Model

| member | source | states |
|---|---|---|
| Ids.Picked | backend/src/main/java/com/gateway/util/IdUtil.java:14 | the characters selected by the draws, one per draw |
| Ids.AlphabetIsAlphanumeric | backend/src/main/java/com/gateway/util/IdUtil.java:7 | the alphabet has exactly 62 characters, all ASCII letters or digits |
| Ids.RandomId | backend/src/main/java/com/gateway/util/IdUtil.java:11-17 | the id starts with the prefix, has length `|prefix| + len` (no characters for `len <= 0`), is exactly the prefix for `len <= 0`, its tail is the drawn characters in order, and every tail character is an ASCII letter or digit |
| Queue.PopOrderPush | backend/src/main/java/com/gateway/queue/RedisQueueService.java:30 | a left push puts the job last in pop order |
| Queue.PopOrderPop | backend/src/main/java/com/gateway/queue/RedisQueueService.java:38 | a right pop returns the first job in pop order and leaves the rest in order |
| Queue.Fifo | backend/src/main/java/com/gateway/queue/RedisQueueService.java:27-39 | pushing jobs one after another appends them in that order to the pop order: each queue is FIFO |
| Queue.QueuedAfterPush | backend/src/main/java/com/gateway/queue/RedisQueueService.java:30 | a push puts the job last in line on its own queue and leaves every other queue's jobs as they were |
| Queue.DigitsRoundTrip | backend/src/main/java/com/gateway/queue/RedisQueueService.java:31 | the decimal rendering of a natural number is a non-empty digit string that reads back as the number, with no leading zero when the number is positive |
| Queue.ParseRendered | backend/src/main/java/com/gateway/queue/RedisQueueService.java:56 | `Long.parseLong` reads a rendered 64-bit counter back as itself |
| Queue.RedisIntParses | backend/src/main/java/com/gateway/queue/RedisQueueService.java:48-57 | every value Redis accepts as an integer for INCRBY, `Long.parseLong` reads as the same number |
| Queue.RedisRendered | backend/src/main/java/com/gateway/queue/RedisQueueService.java:48-51 | Redis reads a rendered 64-bit counter back as itself, so a counter INCRBY wrote can be incremented again |
| Queue.LeadingZeroRefused | backend/src/main/java/com/gateway/queue/RedisQueueService.java:48-57 | the two readers disagree on "007": `getCounter` reads 7, INCRBY refuses it |
| Queue.BumpAdds | backend/src/main/java/com/gateway/queue/RedisQueueService.java:48-51 | an accepted increment adds exactly `delta` to the counter `getCounter` reads; a rejected one (a value that is not a canonical decimal integer, or overflow) changes no key |
| Queue.BumpElsewhere | backend/src/main/java/com/gateway/queue/RedisQueueService.java:48-51 | an increment leaves every other key's stored value alone |
| Queue.HeartbeatWindow | backend/src/main/java/com/gateway/queue/RedisQueueService.java:59-66 | the status is `running` for exactly the 15 seconds after the heartbeat was set (inclusive) |
| Queue.RedisQueueService.constructor | backend/src/main/java/com/gateway/queue/RedisQueueService.java:21-25 | a fresh store has no lists, no values and no heartbeat |
| Queue.RedisQueueService.Enqueue | backend/src/main/java/com/gateway/queue/RedisQueueService.java:27-35 | a writable payload is pushed on the left, becomes last in the queue's pop order, grows the queue by one and adds one to `metrics:jobs:pending`; an unwritable payload changes neither the lists nor the counters |
| Queue.RedisQueueService.BlockingPop | backend/src/main/java/com/gateway/queue/RedisQueueService.java:37-39 | on an empty queue: nothing and no change; otherwise the oldest job, the rest still in order, and the other queues untouched |
| Queue.RedisQueueService.PendingCount | backend/src/main/java/com/gateway/queue/RedisQueueService.java:41-46 | the sum of the three queue lengths, a missing list counting 0 |
| Queue.RedisQueueService.IncrProcessing | backend/src/main/java/com/gateway/queue/RedisQueueService.java:48 | one increment of `metrics:jobs:processing`; the lists and heartbeat are untouched |
| Queue.RedisQueueService.DecrProcessing | backend/src/main/java/com/gateway/queue/RedisQueueService.java:49 | one decrement of `metrics:jobs:processing`; the lists and heartbeat are untouched |
| Queue.RedisQueueService.IncrCompleted | backend/src/main/java/com/gateway/queue/RedisQueueService.java:50 | one increment of `metrics:jobs:completed`; the lists and heartbeat are untouched |
| Queue.RedisQueueService.IncrFailed | backend/src/main/java/com/gateway/queue/RedisQueueService.java:51 | one increment of `metrics:jobs:failed`; the lists and heartbeat are untouched |
| Queue.RedisQueueService.GetCounter | backend/src/main/java/com/gateway/queue/RedisQueueService.java:53-57 | 0 for an absent or non-numeric value, the parsed 64-bit number otherwise |
| Queue.RedisQueueService.SetWorkerHeartbeat | backend/src/main/java/com/gateway/queue/RedisQueueService.java:59-61 | the heartbeat key expires 15 seconds from now; lists and counters untouched |
| Queue.RedisQueueService.GetWorkerStatus | backend/src/main/java/com/gateway/queue/RedisQueueService.java:63-66 | `running` exactly while the heartbeat key is alive, `stopped` otherwise |
| Idempotency.MissOnAbsent | backend/src/main/java/com/gateway/service/IdempotencyService.java:25-26 | a (key, merchant) pair never saved misses and changes nothing |
| Idempotency.LookupEvicts | backend/src/main/java/com/gateway/service/IdempotencyService.java:24-38 | a lookup hits exactly when the entry exists, is not expired and parses; a hit changes nothing, a miss leaves no entry for that key, and no other key is added or removed |
| Idempotency.SaveThenLookup | backend/src/main/java/com/gateway/service/IdempotencyService.java:28-31 | a saved response is returned up to and including its expiry instant (24 h after saving), and after that the lookup misses and deletes it |
| Idempotency.SecondSaveWins | backend/src/main/java/com/gateway/service/IdempotencyService.java:45-51 | a second save for the same key replaces the first, and only the latest response is returned |
| Idempotency.KeysIndependent | backend/src/main/java/com/gateway/service/IdempotencyService.java:25 | saving one (key, merchant) pair does not change what any other pair looks up, including the same key of another merchant |
| Idempotency.IdempotencyService.constructor | backend/src/main/java/com/gateway/service/IdempotencyService.java:20-22 | the table starts empty |
| Idempotency.IdempotencyService.FindCached | backend/src/main/java/com/gateway/service/IdempotencyService.java:24-38 | returns the cached response exactly on a hit, deleting an expired or unreadable entry |
| Idempotency.SaveCachesOnlyWritable | backend/src/main/java/com/gateway/service/IdempotencyService.java:43-54 | a writable response is returned by a lookup at the save's instant; a response the mapper cannot write leaves the table as it was, so a pair with no entry still misses |
| Idempotency.IdempotencyService.Save | backend/src/main/java/com/gateway/service/IdempotencyService.java:40-54 | a writable response is stored with `createdAt = now` and `expiresAt = now + 24 h`, replacing any entry for the pair; a serialization failure is reported and stores nothing |
| Entities.FindRefund | backend/src/main/java/com/gateway/workers/RefundWorker.java:91 | the position of a refund with that id, or none exactly when no row has it |
| Entities.AlreadyRefundedAppend | backend/src/main/java/com/gateway/service/RefundService.java:43-45 | a new refund row adds its amount to its payment's refunded total and nothing to the others |
| Entities.AlreadyRefundedReplace | backend/src/main/java/com/gateway/workers/RefundWorker.java:111-113 | overwriting a row trades the old row's share for the new row's |
| Entities.AlreadyRefundedSave | backend/src/main/java/com/gateway/service/RefundService.java:61 | saving a refund moves each total by the new row's share, less the replaced row's when the id was known |
| WorkerLoop.StepOnce | backend/src/main/java/com/gateway/workers/RefundWorker.java:76 | stepping a counter with room by one is accepted, moves it by one, and can be stepped back |
| WorkerLoop.SameStored | backend/src/main/java/com/gateway/queue/RedisQueueService.java:53-57 | a counter's reading and whether it can be stepped depend only on its stored value |
| WorkerLoop.StartAndEnqueue | backend/src/main/java/com/gateway/workers/RefundWorker.java:76-79 | `incrProcessing` and the job's own enqueue raise `processing` by one and touch no key but `pending` besides |
| WorkerLoop.TallyAndFinish | backend/src/main/java/com/gateway/workers/RefundWorker.java:80-85 | the tally increment and the `finally` decrement add one to the tally, take one from `processing` and touch nothing else |
| WorkerLoop.UpTallyDown | backend/src/main/java/com/gateway/workers/RefundWorker.java:74-85 | a handled job leaves `processing` where it was, adds one to its tally, and changes no key but `pending` besides |
| WorkerLoop.IterationCounters | backend/src/main/java/com/gateway/workers/RefundWorker.java:70-88 | one pass lowers `processing` by one on an empty poll and keeps it otherwise, adds one to `completed` or `failed` for a handled job, and moves `pending` only by the job's own enqueue |
| WorkerLoop.StepStaysRoomy | backend/src/main/java/com/gateway/queue/RedisQueueService.java:49 | a step that stays strictly inside the 64-bit range leaves room for another |
| WorkerLoop.IdleDrift | backend/src/main/java/com/gateway/workers/RefundWorker.java:75 | `k` empty polls lower `processing` by exactly `k`, below zero if need be |
| Webhooks.PayloadEnvelope | backend/src/main/java/com/gateway/service/WebhookService.java:87-99 | the envelope has exactly `event`, `timestamp` and `data`; `event` is the argument, and `data` carries the body under `refund` exactly when the event starts with "refund", otherwise under `payment` |
| Webhooks.EnvelopeDetermines | backend/src/main/java/com/gateway/service/WebhookService.java:87-99 | equal envelopes have the same event, body and time |
| Webhooks.DuePending | backend/src/main/java/com/gateway/service/WebhookService.java:83-85 | exactly the ids of the records that are pending with `nextRetryAt <= now` |
| Webhooks.EnqueueWebhookEffect | backend/src/main/java/com/gateway/service/WebhookService.java:35-58 | a null or blank URL creates no record and queues nothing; otherwise exactly one new record (pending, no attempts, given event, merchant and envelope, due now) and exactly one job for it last in the delivery queue, with every other record and queue unchanged |
| Webhooks.FreshLogDue | backend/src/main/java/com/gateway/service/WebhookService.java:45-48 | a new record is due from its creation time on, not before |
| Webhooks.ResetEffect | backend/src/main/java/com/gateway/service/WebhookService.java:73-75 | a reset record is pending with no attempts and no retry time whatever it was before, keeps its identity, event, payload and last response, and is never due |
| Webhooks.ResetNotSwept | backend/src/main/java/com/gateway/service/WebhookService.java:83-85 | after a reset the due set is the old one without that record |
| Webhooks.JavaDiv | backend/src/main/java/com/gateway/service/WebhookService.java:61 | Java `int` division stays in the `int` range |
| Webhooks.DivBrackets | backend/src/main/java/com/gateway/service/WebhookService.java:61 | an offset lies between its page's first row and the next page's |
| Webhooks.PageForPositiveLimit | backend/src/main/java/com/gateway/service/WebhookService.java:61 | with a positive limit the page is the quotient truncated toward zero, and non-negative exactly when the offset is above `-limit` |
| Webhooks.PageArithmetic | backend/src/main/java/com/gateway/service/WebhookService.java:60-63 | a page is requested exactly when the limit is positive and the offset above `-limit`; for a non-negative offset it starts at the multiple of `limit` at or below the offset; a negative offset gives page 0 |
| Webhooks.WebhookService.constructor | backend/src/main/java/com/gateway/service/WebhookService.java:27-32 | the service works on the given store and queue |
| Webhooks.WebhookService.EnqueueWebhook | backend/src/main/java/com/gateway/service/WebhookService.java:35-58 | the new record and job of `EnqueueWebhookEffect`, one more pending count when a job was pushed, and nothing else changed |
| Webhooks.WebhookService.ResetAndEnqueue | backend/src/main/java/com/gateway/service/WebhookService.java:65-81 | absent record or another merchant's: empty and no change; otherwise the reset record is saved and returned and exactly one job is pushed |
| Webhooks.WebhookService.FindDuePending | backend/src/main/java/com/gateway/service/WebhookService.java:83-85 | the due set of the store |
| Delivery.RetryDelaySeconds | backend/src/main/java/com/gateway/workers/WebhookWorker.java:150-167 | production waits 0, 60, 300, 1800 for attempts 1 to 4 and 7200 otherwise; test waits 0, 5, 10, 15 and 20 |
| Delivery.ScheduleMonotone | backend/src/main/java/com/gateway/workers/WebhookWorker.java:150-167 | both tables are non-negative, non-decreasing from attempt 1 on, and bounded by their last entry |
| Delivery.HexDigitValues | backend/src/main/java/com/gateway/workers/WebhookWorker.java:182 | the sixteen digits are lowercase hex and denote their positions |
| Delivery.HexByteRoundTrip | backend/src/main/java/com/gateway/workers/WebhookWorker.java:182 | a byte renders as two lowercase digits, high first, that denote it |
| Delivery.HexShape | backend/src/main/java/com/gateway/workers/WebhookWorker.java:180-184 | a MAC of `n` bytes renders as `2n` lowercase hex digits |
| Delivery.HexRoundTrip | backend/src/main/java/com/gateway/workers/WebhookWorker.java:180-184 | the rendering reads back as the MAC's bytes |
| Delivery.HexLower | backend/src/main/java/com/gateway/workers/WebhookWorker.java:180-184 | the loop's string is the hex rendering of the bytes |
| Delivery.EveryWriteConsistent | backend/src/main/java/com/gateway/workers/WebhookWorker.java:98-174 | creation, reset, the not-configured path and every attempt leave a record whose status agrees with its attempt count, retry time and response |
| Delivery.SuccessfulAttempt | backend/src/main/java/com/gateway/workers/WebhookWorker.java:110-127 | a 2xx answer: one more attempt made now, success, no retry time, code and body recorded |
| Delivery.FailedAttempt | backend/src/main/java/com/gateway/workers/WebhookWorker.java:119-147 | any other answer or a throw: one more attempt made now; failed with no retry time at five, else pending with retry at `now + retryDelaySeconds(attempts)`; an answer that arrived is recorded and after a throw the old response stays |
| Delivery.FailingEndpoint | backend/src/main/java/com/gateway/workers/WebhookWorker.java:137-147 | from zero attempts, an endpoint that never succeeds keeps the record pending with the scheduled retry for four attempts and gives it up, with no retry time, at exactly the fifth |
| Delivery.GivenUpNotSwept | backend/src/main/java/com/gateway/workers/WebhookWorker.java:89-96 | a failed record is never in the due sweep |
| Delivery.NotConfiguredKeepsRetryTime | backend/src/main/java/com/gateway/workers/WebhookWorker.java:105-108 | the not-configured path gives a failed record with no attempts that keeps its retry time and is still not swept |
| Delivery.StaleJobAttemptsAgain | backend/src/main/java/com/gateway/workers/WebhookWorker.java:98-135 | a job for a record given up after five attempts attempts it again and counts a sixth |
| Delivery.MissingChangesNothing | backend/src/main/java/com/gateway/workers/WebhookWorker.java:99-103 | a missing record or merchant leaves every record as it was |
| Delivery.AttemptWritesOneRecord | backend/src/main/java/com/gateway/workers/WebhookWorker.java:98-135 | an attempt writes only the record it names and adds none |
| Delivery.SweptStep | backend/src/main/java/com/gateway/workers/WebhookWorker.java:92-95 | one more push extends the delivery queue by that record's job and counts one more pending job |
| Delivery.SweepDone | backend/src/main/java/com/gateway/workers/WebhookWorker.java:92-95 | when nothing remains, every due record has been pushed exactly once |
| Delivery.PushedOneMore | backend/src/main/java/com/gateway/workers/WebhookWorker.java:92-95 | pushing one remaining id keeps each due id pushed at most once |
| Delivery.WebhookWorker.constructor | backend/src/main/java/com/gateway/workers/WebhookWorker.java:48-58 | the worker uses the given store, queue and retry table |
| Delivery.WebhookWorker.ComputeHmac | backend/src/main/java/com/gateway/workers/WebhookWorker.java:176-185 | an empty secret throws; otherwise the signature is the lowercase hex of the MAC, twice its length, and reads back as the MAC |
| Delivery.WebhookWorker.AttemptDelivery | backend/src/main/java/com/gateway/workers/WebhookWorker.java:98-135 | the record after the attempt, and the request sent (URL, signature of the stored payload, payload) exactly when the merchant is configured with a key |
| Delivery.WebhookWorker.EnqueueDueRetries | backend/src/main/java/com/gateway/workers/WebhookWorker.java:89-96 | every due record is pushed exactly once, its job behind those already queued, one pending count per push, other queues untouched |
| Delivery.WebhookWorker.RunOnce | backend/src/main/java/com/gateway/workers/WebhookWorker.java:69-87 | heartbeat; idle exactly on an empty queue; otherwise the oldest job is taken, a job without an id fails, one with an id is attempted; counters as one pass |
| Payments.PaymentPayload | backend/src/main/java/com/gateway/service/PaymentService.java:82-97 | the payload has exactly the twelve keys |
| Payments.OptStrInjective | backend/src/main/java/com/gateway/service/PaymentService.java:89 | a nullable string field determines the value |
| Payments.OptNumInjective | backend/src/main/java/com/gateway/service/PaymentService.java:93 | a nullable time field determines the value |
| Payments.PaymentPayloadDetermines | backend/src/main/java/com/gateway/service/PaymentService.java:82-97 | two payments have equal payloads exactly when they differ at most in merchant and card digits |
| Payments.PayloadFieldsAgree | backend/src/main/java/com/gateway/service/PaymentService.java:82-97 | equal payloads agree on every payload field |
| Payments.PayloadTermsAgree | backend/src/main/java/com/gateway/service/PaymentService.java:84-89 | equal payloads agree on id, order, amount, currency, method and VPA |
| Payments.PayloadStateAgree | backend/src/main/java/com/gateway/service/PaymentService.java:90-95 | equal payloads agree on status, capture flag, times and error fields |
| Payments.CaptureAdmitted | backend/src/main/java/com/gateway/service/PaymentService.java:59-70 | a capture is admitted exactly for the caller's own payment in status `success` (any case), not yet captured, with a requested amount within the authorized one; another merchant's payment is reported like a missing one |
| Payments.EqualsIgnoreCaseSymmetric | backend/src/main/java/com/gateway/service/PaymentService.java:65 | case-insensitive equality is symmetric |
| Payments.CaptureOnce | backend/src/main/java/com/gateway/service/PaymentService.java:65-71 | after one admitted capture every later capture is refused as not capturable |
| Payments.NewPaymentNotCapturable | backend/src/main/java/com/gateway/service/PaymentService.java:44 | a freshly created payment cannot be captured |
| Payments.CaptureKeepsTerms | backend/src/main/java/com/gateway/service/PaymentService.java:71-72 | a capture sets the flag and the update time and nothing else |
| Payments.PaymentService.constructor | backend/src/main/java/com/gateway/service/PaymentService.java:24-28 | the service uses the given store, queue and webhook service |
| Payments.PaymentService.CreatePayment | backend/src/main/java/com/gateway/service/PaymentService.java:30-57 | saves a pending payment `pay_` + 16 drawn characters for 50000 INR with no card digits and the request's order, method and VPA; then the `payment.created` and `payment.pending` webhooks, then one job last in the payment queue; returns the payload |
| Payments.PaymentService.CapturePayment | backend/src/main/java/com/gateway/service/PaymentService.java:59-76 | each refused case returns its error and changes nothing; an admitted capture sets the flag and time, emits one `payment.success` webhook and returns the payload |
| Payments.WebhookPushesKeepProcessQueue | backend/src/main/java/com/gateway/service/PaymentService.java:49-50 | the two webhook pushes leave the payment queue as it was |
| PaymentProcessing.PaymentDelayMs | backend/src/main/java/com/gateway/workers/PaymentWorker.java:101 | outside test mode the delay is between 5000 and 10000 ms |
| PaymentProcessing.TestModeIsFixed | backend/src/main/java/com/gateway/workers/PaymentWorker.java:121-124 | in test mode the outcome is the configured one whatever the method and draw |
| PaymentProcessing.OutcomeBands | backend/src/main/java/com/gateway/workers/PaymentWorker.java:125-128 | outside test mode a draw below 0.9 always succeeds, one of 0.95 or more always fails, and in between only non-UPI methods succeed |
| PaymentProcessing.SettleThenCapture | backend/src/main/java/com/gateway/workers/PaymentWorker.java:104-114 | a settled payment is capturable exactly when it succeeded; the error fields are set exactly on failure; nothing else but status and update time changes |
| PaymentProcessing.ProcessJobEffect | backend/src/main/java/com/gateway/workers/PaymentWorker.java:88-119 | a job settles the payment it names exactly when it and its merchant exist and the delay is valid, to `success` or `failed` as the outcome says, and touches no other payment; otherwise no payment changes |
| PaymentProcessing.StaleJobResettles | backend/src/main/java/com/gateway/workers/PaymentWorker.java:88-114 | a job for a payment that is already `refunded` still settles it, taking it out of `refunded` while its capture flag stays |
| PaymentProcessing.PaymentWorker.constructor | backend/src/main/java/com/gateway/workers/PaymentWorker.java:47-55 | the worker uses the given store, queue, webhook service and settings |
| PaymentProcessing.PaymentWorker.ProcessPayment | backend/src/main/java/com/gateway/workers/PaymentWorker.java:88-119 | the payments after the job, with one `payment.success` or `payment.failed` webhook exactly for a settled payment and none otherwise |
| PaymentProcessing.PaymentWorker.RunOnce | backend/src/main/java/com/gateway/workers/PaymentWorker.java:66-86 | heartbeat; idle exactly on an empty queue; otherwise the oldest job is processed and counted as one pass |
| Refunds.RefundPayload | backend/src/main/java/com/gateway/service/RefundService.java:71-81 | the payload has exactly the seven keys |
| Refunds.RefundPayloadDetermines | backend/src/main/java/com/gateway/service/RefundService.java:71-81 | two refunds have equal payloads exactly when they differ at most in merchant |
| Refunds.RefundAdmitted | backend/src/main/java/com/gateway/service/RefundService.java:35-49 | a refund is admitted exactly for the caller's own payment in status `success` (any case) when the refunds so far plus this amount stay within the payment's amount; another merchant's payment is reported like a missing one |
| Refunds.RefundStaysWithinAmount | backend/src/main/java/com/gateway/service/RefundService.java:43-61 | saving an admitted refund under a new id adds its amount to its payment's total, keeps it within the amount and leaves other totals alone |
| Refunds.AdmittedRefundKeepsWithin | backend/src/main/java/com/gateway/service/RefundService.java:43-61 | saving an admitted refund of at least 1 keeps no refund negative and every payment's refunded total within its amount, whether its random id is new or overwrites a saved refund |
| Refunds.FullyRefundedRefusesMore | backend/src/main/java/com/gateway/service/RefundService.java:46-48 | a fully refunded payment refuses every further refund |
| Refunds.RefundService.constructor | backend/src/main/java/com/gateway/service/RefundService.java:26-31 | the service uses the given store, queue and webhook service |
| Refunds.RefundService.CreateRefund | backend/src/main/java/com/gateway/service/RefundService.java:33-69 | each refused case returns its error and changes nothing; an admitted refund is saved pending as `rfnd_` + 16 drawn characters with the amount, reason and ids, one job goes last on the refund queue, then one `refund.created` webhook, and the payload is returned |
| RefundProcessing.RefundDelayMs | backend/src/main/java/com/gateway/workers/RefundWorker.java:108 | outside test mode the delay is between 3000 and 5000 ms |
| RefundProcessing.ProcessJob | backend/src/main/java/com/gateway/workers/RefundWorker.java:90-124 | a processed job names a row of the refund table |
| RefundProcessing.ProcessJobEffect | backend/src/main/java/com/gateway/workers/RefundWorker.java:90-124 | a job is processed exactly when it names a saved refund whose payment and merchant exist and the delay is valid; then it marks only that refund processed, keeps every refunded total, and marks the payment refunded exactly when this refund's amount equals the payment's; a skipped or failed job changes nothing |
| RefundProcessing.ProcessingKeepsWithin | backend/src/main/java/com/gateway/workers/RefundWorker.java:111-120 | processing keeps every refund's amount non-negative and every payment's refunded total within its amount |
| RefundProcessing.PartialRefundsKeepStatus | backend/src/main/java/com/gateway/workers/RefundWorker.java:115-120 | refunds of 20000 and 30000 against a 50000 payment never mark it refunded |
| RefundProcessing.ReprocessesProcessed | backend/src/main/java/com/gateway/workers/RefundWorker.java:90-113 | a second job for a processed refund processes it again with the new time |
| RefundProcessing.FindRefundAfterReplace | backend/src/main/java/com/gateway/workers/RefundWorker.java:113 | overwriting a row with the same id keeps the lookup pointing at it |
| RefundProcessing.RefundWorker.constructor | backend/src/main/java/com/gateway/workers/RefundWorker.java:50-59 | the worker uses the given store, queue, webhook service and settings |
| RefundProcessing.RefundWorker.ProcessRefund | backend/src/main/java/com/gateway/workers/RefundWorker.java:90-124 | the refunds and payments after the job, with one `refund.processed` webhook exactly for a processed refund and none otherwise |
| RefundProcessing.RefundWorker.RunOnce | backend/src/main/java/com/gateway/workers/RefundWorker.java:70-88 | heartbeat; idle exactly on an empty queue; otherwise the oldest job is processed and counted as one pass |

## Left out

- HTTP delivery (`RestTemplate`, its timeouts and error handler) is not modelled; what the endpoint did is an input, and a 4xx/5xx status is an input of `Threw`.
- HMAC-SHA256 itself and the UTF-8 encoding of payload and secret are an uninterpreted function; only the hex rendering is modelled.
- Jackson serialization: a payload is a `Json` value, "fails to parse" is a flag on a cached entry, and whether the idempotency mapper can write a response is an input (`Idempotency.Response`); the string form of the envelope is not modelled.
- Redis and JPA: the stores are in-memory maps and sequences; transactions, flushes, rollback on an exception and the repositories' result order are not modelled (the due sweep's order is left open).
- Concurrency, thread start-up, `Thread.sleep`, `@Scheduled` timing and the blocking timeout of `rightPop`: one pass of a loop is one step and several workers never interleave.
- The separate `now()` calls of one operation are one clock value, in whole seconds.
- Floating point: the outcome draw is a mathematical real compared with 0.9 and 0.95.
- Unicode: `equalsIgnoreCase` and `isBlank` are modelled on ASCII letters and whitespace only, and `getCounter`'s `Long.parseLong` on ASCII digits only (Java also reads other Unicode decimal digits, which Redis never writes).
- Queue.RedisQueueService.IncrProcessing: an increment Redis rejects (a stored value that is not a canonical decimal integer — a plus sign, a leading zero, "-0" or any non-digit — or 64-bit overflow) leaves the value unchanged instead of throwing; the same holds for the other counter methods and `Enqueue`'s pending count.
- 64-bit overflow of amounts and of the refunded sum is not modelled: amounts are unbounded integers.
- `UUID.fromString` and `UUID.randomUUID`: ids are strings; a malformed webhook id is not a separate failure, and the fresh ids are parameters whose uniqueness is not assumed (a save under a known id overwrites).
- The listing query of `listForMerchant` is not modelled; only the page index it computes is.
- Controllers, authentication, the exception handler and DTO validation are not modelled; the validated refund amount (at least 1) is a precondition of `CreateRefund`.
- `findById` lookups simply return the record they find; the payment and refund record classes are datatypes.
