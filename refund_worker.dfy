/** The refund worker (`RefundWorker`): it takes refund jobs off their
    queue, waits a processing delay, marks the refund processed, marks the
    payment refunded when this one refund covers its whole amount, and
    announces the refund by webhook. The random source and the clock are
    inputs. */
module RefundProcessing {
  import opened Common
  import opened Queue
  import opened Entities
  import opened Webhooks
  import opened WorkerLoop
  import opened Refunds

  /** The worker's configuration: `app.test-mode` and
      `app.test-processing-delay`. */
  datatype Settings = Settings(testMode: bool, testDelayMs: int)

  /** A value of `random.nextInt(2001)`. */
  type DelayDraw = n: int | 0 <= n <= 2000

  /** The processing delay in milliseconds. */
  function RefundDelayMs(s: Settings, draw: DelayDraw): (ms: int)
    ensures !s.testMode ==> 3000 <= ms <= 5000
  {
    if s.testMode then s.testDelayMs else 3000 + draw
  }

  /** The refund after processing at time `now`. */
  function MarkProcessed(r: Refund, now: int): Refund {
    r.(status := StatusProcessed, processedAt := Some(now))
  }

  /** The payment after a refund of its whole amount. */
  function MarkRefunded(p: Payment, now: int): Payment {
    p.(status := StatusRefunded, updatedAt := Some(now))
  }

  /** What `processRefund` does with one job. */
  datatype Outcome =
    | Rejected                                      // an exception: no refund id, or a negative delay
    | Skipped                                       // unknown refund, payment or merchant: logged only
    | Processed(index: nat, refund: Refund, paymentId: string, payment: Payment, fullRefund: bool, merchant: Merchant)

  /** One job, given the stores, the configuration, the random draw and the
      clock after the delay. The merchant looked up is the refund's. */
  function ProcessJob(refunds: seq<Refund>, payments: map<string, Payment>, merchants: map<string, Merchant>,
                      job: StoredJob, s: Settings, draw: DelayDraw, now: int): (o: Outcome)
    ensures o.Processed? ==> o.index < |refunds|
  {
    if RefundIdField !in job then Rejected
    else match FindRefund(refunds, job[RefundIdField])
      case None => Skipped
      case Some(i) =>
        var r := refunds[i];
        if r.paymentId !in payments || r.merchantId !in merchants then Skipped
        else if RefundDelayMs(s, draw) < 0 then Rejected
        else
          var p := payments[r.paymentId];
          var full := r.amount == p.amount;
          Processed(i, MarkProcessed(r, now), r.paymentId, if full then MarkRefunded(p, now) else p, full,
                    merchants[r.merchantId])
  }

  /** The refund table after a job. */
  function RefundsAfter(refunds: seq<Refund>, o: Outcome): seq<Refund> {
    if o.Processed? && o.index < |refunds| then refunds[o.index := o.refund] else refunds
  }

  /** The payments after a job. */
  function PaymentsAfter(payments: map<string, Payment>, o: Outcome): map<string, Payment> {
    if o.Processed? && o.fullRefund then payments[o.paymentId := o.payment] else payments
  }

  function IterationOf(o: Outcome): Iteration {
    if o.Rejected? then Errored else Completed
  }

  predicate Announced(o: Outcome) {
    o.Processed? && WillDeliver(o.merchant)
  }

  /** A job is processed exactly when it names a saved refund whose payment
      and merchant exist and the delay is valid. A processed job marks the
      refund it names and only that one, keeps its amount and payment, and
      so leaves every payment's refunded total as it was. The payment is
      marked refunded exactly when this one refund's amount equals the
      payment's amount, and is untouched otherwise. */
  lemma ProcessJobEffect(refunds: seq<Refund>, payments: map<string, Payment>, merchants: map<string, Merchant>,
                         job: StoredJob, s: Settings, draw: DelayDraw, now: int, anyPayment: string)
    ensures var o := ProcessJob(refunds, payments, merchants, job, s, draw, now);
      && (o.Processed? <==>
            && RefundIdField in job
            && FindRefund(refunds, job[RefundIdField]).Some?
            && refunds[FindRefund(refunds, job[RefundIdField]).value].paymentId in payments
            && refunds[FindRefund(refunds, job[RefundIdField]).value].merchantId in merchants
            && RefundDelayMs(s, draw) >= 0)
      && (o.Processed? ==>
            var old_r := refunds[o.index];
            && o.index == FindRefund(refunds, job[RefundIdField]).value
            && old_r.id == job[RefundIdField]
            && o.refund == MarkProcessed(old_r, now)
            && o.paymentId == old_r.paymentId
            && |RefundsAfter(refunds, o)| == |refunds|
            && RefundsAfter(refunds, o)[o.index] == o.refund
            && (forall k :: 0 <= k < |refunds| && k != o.index ==> RefundsAfter(refunds, o)[k] == refunds[k])
            && AlreadyRefunded(RefundsAfter(refunds, o), anyPayment) == AlreadyRefunded(refunds, anyPayment)
            && (o.fullRefund <==> old_r.amount == payments[old_r.paymentId].amount)
            && (o.fullRefund ==>
                  PaymentsAfter(payments, o) == payments[old_r.paymentId := MarkRefunded(payments[old_r.paymentId], now)])
            && (!o.fullRefund ==> PaymentsAfter(payments, o) == payments))
      && (!o.Processed? ==> RefundsAfter(refunds, o) == refunds && PaymentsAfter(payments, o) == payments)
  {
    var o := ProcessJob(refunds, payments, merchants, job, s, draw, now);
    if o.Processed? {
      AlreadyRefundedReplace(refunds, o.index, o.refund, anyPayment);
    }
  }

  /** Processing a refund keeps every payment's refunded total within its
      amount, and every refund's amount non-negative: the totals do not
      move, and neither do the amounts. */
  lemma ProcessingKeepsWithin(refunds: seq<Refund>, payments: map<string, Payment>, merchants: map<string, Merchant>,
                              job: StoredJob, s: Settings, draw: DelayDraw, now: int)
    requires RefundsWithinAmount(payments, refunds)
    ensures var o := ProcessJob(refunds, payments, merchants, job, s, draw, now);
      RefundsWithinAmount(PaymentsAfter(payments, o), RefundsAfter(refunds, o))
  {
    var o := ProcessJob(refunds, payments, merchants, job, s, draw, now);
    ProcessJobEffect(refunds, payments, merchants, job, s, draw, now, "");
    forall pid | pid in PaymentsAfter(payments, o)
      ensures AlreadyRefunded(RefundsAfter(refunds, o), pid) <= PaymentsAfter(payments, o)[pid].amount
    {
      ProcessJobEffect(refunds, payments, merchants, job, s, draw, now, pid);
    }
  }

  /** Partial refunds never mark the payment refunded, even when together
      they cover its amount: a payment of 50000 refunded as 20000 and then
      30000 keeps its status through both jobs. */
  lemma PartialRefundsKeepStatus(p: Payment, merchants: map<string, Merchant>, s: Settings,
                                 draw: DelayDraw, t1: int, t2: int)
    requires p.amount == 50000 && p.merchantId in merchants && !s.testMode
    ensures var r1 := Refund("rfnd_1", p.id, p.merchantId, 20000, None, StatusPending, 0, None);
      var r2 := Refund("rfnd_2", p.id, p.merchantId, 30000, None, StatusPending, 0, None);
      var payments := map[p.id := p];
      var refunds := [r1, r2];
      var o1 := ProcessJob(refunds, payments, merchants, RefundJob("rfnd_1"), s, draw, t1);
      var o2 := ProcessJob(RefundsAfter(refunds, o1), PaymentsAfter(payments, o1), merchants, RefundJob("rfnd_2"), s, draw, t2);
      && AlreadyRefunded(refunds, p.id) == p.amount
      && o1.Processed? && !o1.fullRefund
      && o2.Processed? && !o2.fullRefund
      && PaymentsAfter(PaymentsAfter(payments, o1), o2)[p.id] == p
  {
    var r1 := Refund("rfnd_1", p.id, p.merchantId, 20000, None, StatusPending, 0, None);
    var r2 := Refund("rfnd_2", p.id, p.merchantId, 30000, None, StatusPending, 0, None);
    var payments := map[p.id := p];
    var refunds := [r1, r2];
    assert refunds[..1] == [r1] && [r1][..0] == [];
    assert AlreadyRefunded([r1], p.id) == 20000;
    assert FindRefund(refunds, "rfnd_1") == Some(0);
    var o1 := ProcessJob(refunds, payments, merchants, RefundJob("rfnd_1"), s, draw, t1);
    assert o1 == Processed(0, MarkProcessed(r1, t1), p.id, p, false, merchants[p.merchantId]);
    var after := RefundsAfter(refunds, o1);
    assert after == [MarkProcessed(r1, t1), r2];
    assert after[1..] == [r2];
    assert FindRefund([r2], "rfnd_2") == Some(0);
    assert FindRefund(after, "rfnd_2") == Some(1);
  }

  /** The worker does not look at the refund's status: a job for a refund
      that was already processed processes it again, with a new time. */
  lemma ReprocessesProcessed(refunds: seq<Refund>, payments: map<string, Payment>, merchants: map<string, Merchant>,
                             job: StoredJob, s: Settings, draw: DelayDraw, t1: int, t2: int)
    requires ProcessJob(refunds, payments, merchants, job, s, draw, t1).Processed?
    ensures var o1 := ProcessJob(refunds, payments, merchants, job, s, draw, t1);
      var o2 := ProcessJob(RefundsAfter(refunds, o1), PaymentsAfter(payments, o1), merchants, job, s, draw, t2);
      o2.Processed? && o2.index == o1.index && o2.refund == MarkProcessed(o1.refund, t2)
  {
    var o1 := ProcessJob(refunds, payments, merchants, job, s, draw, t1);
    var after := RefundsAfter(refunds, o1);
    FindRefundAfterReplace(refunds, o1.index, o1.refund);
  }

  /** Replacing a row by one with the same id leaves `findById` pointing at
      it. */
  lemma {:induction false} FindRefundAfterReplace(table: seq<Refund>, i: nat, r: Refund)
    requires i < |table| && FindRefund(table, table[i].id) == Some(i) && r.id == table[i].id
    ensures FindRefund(table[i := r], r.id) == Some(i)
    decreases |table|
  {
    if i > 0 {
      assert table[i := r][1..] == table[1..][i - 1 := r];
      FindRefundAfterReplace(table[1..], i - 1, r);
    }
  }

  class RefundWorker {
    const db: Database
    const queue: RedisQueueService
    const webhooks: WebhookService
    const settings: Settings

    predicate Wired() {
      webhooks.db == db && webhooks.queue == queue
    }

    constructor (db: Database, queue: RedisQueueService, webhooks: WebhookService, settings: Settings)
      requires webhooks.db == db && webhooks.queue == queue
      ensures this.db == db && this.queue == queue && this.webhooks == webhooks && this.settings == settings
      ensures Wired()
    {
      this.db := db;
      this.queue := queue;
      this.webhooks := webhooks;
      this.settings := settings;
    }

    /** `processRefund(refundId)`; the job's refund id is looked up here. */
    method ProcessRefund(job: StoredJob, draw: DelayDraw, hook: string, now: int) returns (o: Outcome)
      requires Wired()
      modifies db, queue
      ensures o == ProcessJob(old(db.refunds), old(db.payments), db.merchants, job, settings, draw, now)
      ensures db.refunds == RefundsAfter(old(db.refunds), o)
      ensures db.payments == PaymentsAfter(old(db.payments), o)
      ensures o.Processed? ==>
        && db.webhookLogs == LogsAfterEnqueue(old(db.webhookLogs), o.merchant, "refund.processed",
                                              RefundPayload(o.refund), hook, now)
        && queue.lists == ListsAfterEnqueue(old(queue.lists), o.merchant, hook)
      ensures !o.Processed? ==> db.webhookLogs == old(db.webhookLogs) && queue.lists == old(queue.lists)
      ensures queue.values == Enqueued(old(queue.values), Announced(o))
      ensures db.merchants == old(db.merchants)
      ensures queue.heartbeatExpiresAt == old(queue.heartbeatExpiresAt)
    {
      if RefundIdField !in job {
        return Rejected;
      }
      var found := FindRefund(db.refunds, job[RefundIdField]);
      if found.None? {
        return Skipped;
      }
      var i := found.value;
      var refund := db.refunds[i];
      if refund.paymentId !in db.payments || refund.merchantId !in db.merchants {
        return Skipped;
      }
      var delay := RefundDelayMs(settings, draw);
      if delay < 0 {
        return Rejected;
      }
      var paymentId := refund.paymentId;
      refund := MarkProcessed(refund, now);
      db.refunds := db.refunds[i := refund];
      var payment := db.payments[paymentId];
      var full := refund.amount == payment.amount;
      if full {
        payment := MarkRefunded(payment, now);
        db.payments := db.payments[paymentId := payment];
      }
      var merchant := db.merchants[refund.merchantId];
      webhooks.EnqueueWebhook(merchant, "refund.processed", RefundPayload(refund), hook, now);
      o := Processed(i, refund, paymentId, payment, full, merchant);
    }

    /** One pass of `run`: heartbeat, poll, handle the job, count it. */
    method RunOnce(draw: DelayDraw, hook: string, now: int) returns (it: Iteration)
      requires Wired()
      modifies db, queue
      ensures queue.heartbeatExpiresAt == Some(now + HeartbeatTtlSeconds)
      ensures it == Idle <==> Queued(old(queue.lists), QueueProcessRefund) == []
      ensures it == Idle ==>
        && queue.lists == old(queue.lists) && queue.values == CountersAfter(old(queue.values), Idle, false)
        && db.refunds == old(db.refunds) && db.payments == old(db.payments) && db.webhookLogs == old(db.webhookLogs)
      ensures it != Idle ==>
        var job := Queued(old(queue.lists), QueueProcessRefund)[0];
        var o := ProcessJob(old(db.refunds), old(db.payments), db.merchants, job, settings, draw, now);
        && it == IterationOf(o)
        && db.refunds == RefundsAfter(old(db.refunds), o)
        && db.payments == PaymentsAfter(old(db.payments), o)
        && (o.Processed? ==>
              && db.webhookLogs == LogsAfterEnqueue(old(db.webhookLogs), o.merchant, "refund.processed",
                                                    RefundPayload(o.refund), hook, now)
              && queue.lists == ListsAfterEnqueue(RightPopRest(old(queue.lists), QueueProcessRefund), o.merchant, hook))
        && (!o.Processed? ==>
              db.webhookLogs == old(db.webhookLogs) && queue.lists == RightPopRest(old(queue.lists), QueueProcessRefund))
        && queue.values == CountersAfter(old(queue.values), it, Announced(o))
      ensures db.merchants == old(db.merchants)
    {
      queue.SetWorkerHeartbeat(now);
      var job := queue.BlockingPop(QueueProcessRefund);
      if job.None? {
        queue.DecrProcessing();
        return Idle;
      }
      queue.IncrProcessing();
      var o := ProcessRefund(job.value, draw, hook, now);
      if o.Rejected? {
        queue.IncrFailed();
        it := Errored;
      } else {
        queue.IncrCompleted();
        it := Completed;
      }
      queue.DecrProcessing();
    }
  }
}
