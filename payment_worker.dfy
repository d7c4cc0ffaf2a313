/** The payment worker (`PaymentWorker`): it takes payment jobs off their
    queue, waits a processing delay, settles the payment as a success or a
    failure and announces the result by webhook. The random source and the
    clock are inputs. */
module PaymentProcessing {
  import opened Common
  import opened Queue
  import opened Entities
  import opened Webhooks
  import opened WorkerLoop
  import opened Payments

  /** The worker's configuration: `app.test-mode`,
      `app.test-processing-delay` and `app.test-payment-success`. */
  datatype Settings = Settings(testMode: bool, testDelayMs: int, testPaymentSuccess: bool)

  /** A value of `random.nextDouble()`. */
  type UnitDraw = r: real | 0.0 <= r < 1.0 witness 0.0

  /** A value of `random.nextInt(5001)`. */
  type DelayDraw = n: int | 0 <= n <= 5000

  const UpiSuccessRate: real := 0.9
  const OtherSuccessRate: real := 0.95

  /** The processing delay in milliseconds. */
  function PaymentDelayMs(s: Settings, draw: DelayDraw): (ms: int)
    ensures !s.testMode ==> 5000 <= ms <= 10000
  {
    if s.testMode then s.testDelayMs else 5000 + draw
  }

  /** The share of draws that succeed for a method: UPI (in any case)
      succeeds less often than the other methods. */
  function SuccessRate(paymentMethod: string): real {
    if EqualsIgnoreCase("upi", paymentMethod) then UpiSuccessRate else OtherSuccessRate
  }

  /** `determineOutcome(payment)`. */
  function DetermineOutcome(s: Settings, paymentMethod: string, draw: UnitDraw): bool {
    if s.testMode then s.testPaymentSuccess else draw < SuccessRate(paymentMethod)
  }

  /** In test mode the outcome is the configured one, whatever the draw
      and the method. */
  lemma TestModeIsFixed(s: Settings, m1: string, m2: string, d1: UnitDraw, d2: UnitDraw)
    requires s.testMode
    ensures DetermineOutcome(s, m1, d1) == DetermineOutcome(s, m2, d2) == s.testPaymentSuccess
  {
  }

  /** Outside test mode, a draw below 0.9 always succeeds and a draw of
      0.95 or more always fails; in between, only non-UPI methods
      succeed. A draw that makes UPI succeed makes every method succeed. */
  lemma OutcomeBands(s: Settings, paymentMethod: string, other: string, draw: UnitDraw)
    requires !s.testMode
    ensures draw < UpiSuccessRate ==> DetermineOutcome(s, paymentMethod, draw)
    ensures draw >= OtherSuccessRate ==> !DetermineOutcome(s, paymentMethod, draw)
    ensures UpiSuccessRate <= draw < OtherSuccessRate ==>
      (DetermineOutcome(s, paymentMethod, draw) <==> !EqualsIgnoreCase("upi", paymentMethod))
    ensures EqualsIgnoreCase("upi", paymentMethod) && DetermineOutcome(s, paymentMethod, draw) ==>
      DetermineOutcome(s, other, draw)
  {
  }

  const FailureCode: string := "PMT_FAILED"
  const FailureDescription: string := "Payment authorization failed"

  /** The payment after settlement at time `now`. */
  function Settle(p: Payment, success: bool, now: int): Payment {
    if success then p.(status := StatusSuccess, errorCode := None, errorDescription := None, updatedAt := Some(now))
    else p.(status := StatusFailed, errorCode := Some(FailureCode), errorDescription := Some(FailureDescription),
            updatedAt := Some(now))
  }

  /** The webhook event announcing a settlement. */
  function SettledEvent(success: bool): string {
    if success then "payment.success" else "payment.failed"
  }

  /** Settlement decides capturability: a successful, uncaptured payment
      can be captured up to its amount, a failed one never; the error
      fields are set exactly on failure. */
  lemma SettleThenCapture(payments: map<string, Payment>, p: Payment, success: bool, now: int, amount: Option<int>)
    requires !p.captured && (amount.None? || amount.value <= p.amount)
    ensures var after := payments[p.id := Settle(p, success, now)];
      CaptureCheck(after, p.merchantId, p.id, amount).Ok? <==> success
    ensures Settle(p, success, now).errorCode.Some? <==> !success
    ensures Settle(p, success, now).(status := p.status, errorCode := p.errorCode,
                                     errorDescription := p.errorDescription, updatedAt := p.updatedAt) == p
  {
    if !success {
      assert LowerAscii(Settle(p, success, now).status[0]) != LowerAscii(StatusSuccess[0]);
    }
  }

  /** What `processPayment` does with one job. */
  datatype Outcome =
    | Rejected                                      // an exception: no payment id, or a negative delay
    | Skipped                                       // unknown payment or merchant: logged only
    | Settled(id: string, payment: Payment, merchant: Merchant, success: bool)

  /** One job, given the stores, the configuration, the two random draws and
      the clock after the delay. */
  function ProcessJob(payments: map<string, Payment>, merchants: map<string, Merchant>, job: StoredJob,
                      s: Settings, delayDraw: DelayDraw, draw: UnitDraw, now: int): Outcome
  {
    if PaymentIdField !in job then Rejected
    else
      var id := job[PaymentIdField];
      if id !in payments || payments[id].merchantId !in merchants then Skipped
      else if PaymentDelayMs(s, delayDraw) < 0 then Rejected
      else
        var p := payments[id];
        var success := DetermineOutcome(s, p.paymentMethod, draw);
        Settled(id, Settle(p, success, now), merchants[p.merchantId], success)
  }

  /** The payments after a job. */
  function PaymentsAfter(payments: map<string, Payment>, o: Outcome): map<string, Payment> {
    if o.Settled? then payments[o.id := o.payment] else payments
  }

  /** The pass a job makes of the worker loop. */
  function IterationOf(o: Outcome): Iteration {
    if o.Rejected? then Errored else Completed
  }

  /** Whether the job enqueued a webhook delivery. */
  predicate Announced(o: Outcome) {
    o.Settled? && WillDeliver(o.merchant)
  }

  /** A job settles only the payment it names, only once it had one, and
      sets its status to `success` or `failed` whatever the status was
      before; a job that fails or is skipped leaves every payment as it
      was. */
  lemma ProcessJobEffect(payments: map<string, Payment>, merchants: map<string, Merchant>, job: StoredJob,
                         s: Settings, delayDraw: DelayDraw, draw: UnitDraw, now: int)
    ensures var o := ProcessJob(payments, merchants, job, s, delayDraw, draw, now);
      && (o.Settled? <==> PaymentIdField in job && job[PaymentIdField] in payments
                          && payments[job[PaymentIdField]].merchantId in merchants
                          && PaymentDelayMs(s, delayDraw) >= 0)
      && (o.Settled? ==>
            && o.id == job[PaymentIdField]
            && o.payment == Settle(payments[o.id], o.success, now)
            && o.merchant == merchants[payments[job[PaymentIdField]].merchantId]
            && (o.payment.status == StatusSuccess <==> o.success)
            && (o.payment.status == StatusFailed <==> !o.success)
            && PaymentsAfter(payments, o).Keys == payments.Keys
            && forall other :: other in payments && other != o.id ==>
                 PaymentsAfter(payments, o)[other] == payments[other])
      && (!o.Settled? ==> PaymentsAfter(payments, o) == payments)
  {
  }

  /** `processPayment` does not look at the payment's status: a stale job
      for a payment that was already refunded settles it again, taking it
      out of `refunded` while it stays captured. */
  lemma StaleJobResettles(payments: map<string, Payment>, merchants: map<string, Merchant>, job: StoredJob,
                          s: Settings, delayDraw: DelayDraw, draw: UnitDraw, now: int)
    requires PaymentIdField in job && job[PaymentIdField] in payments
    requires payments[job[PaymentIdField]].merchantId in merchants && PaymentDelayMs(s, delayDraw) >= 0
    requires payments[job[PaymentIdField]].status == StatusRefunded
    ensures var o := ProcessJob(payments, merchants, job, s, delayDraw, draw, now);
      && o.Settled?
      && o.payment.status != StatusRefunded
      && o.payment.captured == payments[job[PaymentIdField]].captured
  {
  }

  class PaymentWorker {
    const db: Database
    const queue: RedisQueueService
    const webhooks: WebhookService
    const settings: Settings

    predicate Wired() {
      webhooks.db == db && webhooks.queue == queue
    }

    constructor (db: Database, queue: RedisQueueService, webhooks: WebhookService, settings: Settings)
      requires webhooks.db == db && webhooks.queue == queue
      ensures this.db == db && this.queue == queue && this.webhooks == webhooks && this.settings == settings
      ensures Wired()
    {
      this.db := db;
      this.queue := queue;
      this.webhooks := webhooks;
      this.settings := settings;
    }

    /** `processPayment(paymentId)`; the job's payment id is looked up
        here. */
    method ProcessPayment(job: StoredJob, delayDraw: DelayDraw, draw: UnitDraw, hook: string, now: int)
      returns (o: Outcome)
      requires Wired()
      modifies db, queue
      ensures o == ProcessJob(old(db.payments), db.merchants, job, settings, delayDraw, draw, now)
      ensures db.payments == PaymentsAfter(old(db.payments), o)
      ensures o.Settled? ==>
        && db.webhookLogs == LogsAfterEnqueue(old(db.webhookLogs), o.merchant, SettledEvent(o.success),
                                              PaymentPayload(o.payment), hook, now)
        && queue.lists == ListsAfterEnqueue(old(queue.lists), o.merchant, hook)
      ensures !o.Settled? ==> db.webhookLogs == old(db.webhookLogs) && queue.lists == old(queue.lists)
      ensures queue.values == Enqueued(old(queue.values), Announced(o))
      ensures db.refunds == old(db.refunds) && db.merchants == old(db.merchants)
      ensures queue.heartbeatExpiresAt == old(queue.heartbeatExpiresAt)
    {
      if PaymentIdField !in job {
        return Rejected;
      }
      var id := job[PaymentIdField];
      if id !in db.payments {
        return Skipped;
      }
      var payment := db.payments[id];
      if payment.merchantId !in db.merchants {
        return Skipped;
      }
      var merchant := db.merchants[payment.merchantId];
      var delay := PaymentDelayMs(settings, delayDraw);
      if delay < 0 {
        return Rejected;
      }
      var success := DetermineOutcome(settings, payment.paymentMethod, draw);
      payment := Settle(payment, success, now);
      db.payments := db.payments[id := payment];
      webhooks.EnqueueWebhook(merchant, SettledEvent(success), PaymentPayload(payment), hook, now);
      o := Settled(id, payment, merchant, success);
    }

    /** One pass of `run`: heartbeat, poll, handle the job, count it. */
    method RunOnce(delayDraw: DelayDraw, draw: UnitDraw, hook: string, now: int) returns (it: Iteration)
      requires Wired()
      modifies db, queue
      ensures queue.heartbeatExpiresAt == Some(now + HeartbeatTtlSeconds)
      ensures it == Idle <==> Queued(old(queue.lists), QueueProcessPayment) == []
      ensures it == Idle ==>
        && queue.lists == old(queue.lists) && queue.values == CountersAfter(old(queue.values), Idle, false)
        && db.payments == old(db.payments) && db.webhookLogs == old(db.webhookLogs)
      ensures it != Idle ==>
        var job := Queued(old(queue.lists), QueueProcessPayment)[0];
        var o := ProcessJob(old(db.payments), db.merchants, job, settings, delayDraw, draw, now);
        && it == IterationOf(o)
        && db.payments == PaymentsAfter(old(db.payments), o)
        && (o.Settled? ==>
              && db.webhookLogs == LogsAfterEnqueue(old(db.webhookLogs), o.merchant, SettledEvent(o.success),
                                                    PaymentPayload(o.payment), hook, now)
              && queue.lists == ListsAfterEnqueue(RightPopRest(old(queue.lists), QueueProcessPayment), o.merchant, hook))
        && (!o.Settled? ==>
              db.webhookLogs == old(db.webhookLogs) && queue.lists == RightPopRest(old(queue.lists), QueueProcessPayment))
        && queue.values == CountersAfter(old(queue.values), it, Announced(o))
      ensures db.refunds == old(db.refunds) && db.merchants == old(db.merchants)
    {
      queue.SetWorkerHeartbeat(now);
      var job := queue.BlockingPop(QueueProcessPayment);
      if job.None? {
        queue.DecrProcessing();
        return Idle;
      }
      queue.IncrProcessing();
      var o := ProcessPayment(job.value, delayDraw, draw, hook, now);
      if o.Rejected? {
        queue.IncrFailed();
        it := Errored;
      } else {
        queue.IncrCompleted();
        it := Completed;
      }
      queue.DecrProcessing();
    }
  }
}
