/** The payment service (`PaymentService`): creating a payment, which
    saves it as pending, announces it by two webhooks and queues the job
    that settles it; and capturing a settled payment, which sets its
    `captured` flag once. */
module Payments {
  import opened Common
  import opened Queue
  import opened Entities
  import opened Webhooks
  import opened Ids

  /** Every payment is created for this amount and currency, whatever the
      order says. */
  const CreatedAmount: int := 50000
  const CreatedCurrency: string := "INR"

  const PaymentIdPrefix: string := "pay_"
  const RandomIdLength: int := 16

  /** The job field naming the payment to settle. */
  const PaymentIdField: string := "paymentId"

  /** The job `createPayment` queues. */
  function PaymentJob(id: string): StoredJob {
    map[PaymentIdField := id]
  }

  /** The payment `createPayment` saves at time `now`. */
  function NewPayment(id: string, merchantId: string, orderId: string, paymentMethod: string,
                      vpa: Option<string>, now: int): Payment {
    Payment(id, merchantId, orderId, CreatedAmount, CreatedCurrency, paymentMethod, vpa, None,
            StatusPending, None, None, false, now, None)
  }

  /** The keys of a payment payload. */
  const PaymentPayloadKeys: set<string> :=
    {"id", "order_id", "amount", "currency", "method", "vpa", "status", "captured",
     "created_at", "updated_at", "error_code", "error_description"}

  /** `buildPaymentPayload(payment)`: every field but the merchant and the
      card digits. */
  function PaymentPayload(p: Payment): (r: Json)
    ensures r.JObj? && r.fields.Keys == PaymentPayloadKeys
  {
    JObj(map[
      "id" := JStr(p.id),
      "order_id" := JStr(p.orderId),
      "amount" := JNum(p.amount),
      "currency" := JStr(p.currency),
      "method" := JStr(p.paymentMethod),
      "vpa" := OptStr(p.vpa),
      "status" := JStr(p.status),
      "captured" := JBool(p.captured),
      "created_at" := JNum(p.createdAt),
      "updated_at" := OptNum(p.updatedAt),
      "error_code" := OptStr(p.errorCode),
      "error_description" := OptStr(p.errorDescription)])
  }

  lemma OptStrInjective(a: Option<string>, b: Option<string>)
    ensures OptStr(a) == OptStr(b) <==> a == b
  {
  }

  lemma OptNumInjective(a: Option<int>, b: Option<int>)
    ensures OptNum(a) == OptNum(b) <==> a == b
  {
  }

  /** Two payments have the same payload exactly when they differ at most
      in the two fields the payload leaves out. */
  lemma PaymentPayloadDetermines(p: Payment, q: Payment)
    ensures PaymentPayload(p) == PaymentPayload(q) <==> p.(merchantId := q.merchantId, cardLast4 := q.cardLast4) == q
  {
    var same := p.(merchantId := q.merchantId, cardLast4 := q.cardLast4) == q;
    if same {
      assert PaymentPayload(p) == PaymentPayload(q);
    }
    if PaymentPayload(p) == PaymentPayload(q) {
      PayloadFieldsAgree(p, q);
      assert same;
    }
  }

  /** Equal payloads carry equal visible fields. */
  lemma PayloadFieldsAgree(p: Payment, q: Payment)
    requires PaymentPayload(p) == PaymentPayload(q)
    ensures p.id == q.id && p.orderId == q.orderId && p.amount == q.amount && p.currency == q.currency
    ensures p.paymentMethod == q.paymentMethod && p.vpa == q.vpa && p.status == q.status
    ensures p.captured == q.captured && p.createdAt == q.createdAt && p.updatedAt == q.updatedAt
    ensures p.errorCode == q.errorCode && p.errorDescription == q.errorDescription
  {
    var f, g := PaymentPayload(p).fields, PaymentPayload(q).fields;
    PayloadTermsAgree(p, q, f, g);
    PayloadStateAgree(p, q, f, g);
  }

  lemma PayloadTermsAgree(p: Payment, q: Payment, f: map<string, Json>, g: map<string, Json>)
    requires f == PaymentPayload(p).fields && g == PaymentPayload(q).fields && f == g
    ensures p.id == q.id && p.orderId == q.orderId && p.amount == q.amount && p.currency == q.currency
    ensures p.paymentMethod == q.paymentMethod && p.vpa == q.vpa
  {
    assert f["id"] == g["id"] && f["order_id"] == g["order_id"] && f["amount"] == g["amount"];
    assert f["currency"] == g["currency"] && f["method"] == g["method"] && f["vpa"] == g["vpa"];
    OptStrInjective(p.vpa, q.vpa);
  }

  lemma PayloadStateAgree(p: Payment, q: Payment, f: map<string, Json>, g: map<string, Json>)
    requires f == PaymentPayload(p).fields && g == PaymentPayload(q).fields && f == g
    ensures p.status == q.status && p.captured == q.captured && p.createdAt == q.createdAt
    ensures p.updatedAt == q.updatedAt && p.errorCode == q.errorCode && p.errorDescription == q.errorDescription
  {
    assert f["status"] == g["status"] && f["captured"] == g["captured"] && f["created_at"] == g["created_at"];
    assert f["updated_at"] == g["updated_at"] && f["error_code"] == g["error_code"];
    assert f["error_description"] == g["error_description"];
    OptNumInjective(p.updatedAt, q.updatedAt);
    OptStrInjective(p.errorCode, q.errorCode);
    OptStrInjective(p.errorDescription, q.errorDescription);
  }


  // ---------------------------------------------------------------------
  // Capture.

  /** The exceptions `capturePayment` throws. */
  datatype CaptureError =
    | PaymentNotFound     // "Payment not found"
    | NotCapturable       // "Payment not in capturable state"
    | ExceedsAuthorized   // "Capture amount exceeds authorized amount"

  /** The checks of `capturePayment`, in order; `amount` is the optional
      requested amount. */
  function CaptureCheck(payments: map<string, Payment>, merchantId: string, paymentId: string,
                        amount: Option<int>): Result<Payment, CaptureError>
  {
    if paymentId !in payments || payments[paymentId].merchantId != merchantId then Err(PaymentNotFound)
    else
      var p := payments[paymentId];
      if !EqualsIgnoreCase(StatusSuccess, p.status) || p.captured then Err(NotCapturable)
      else if amount.Some? && amount.value > p.amount then Err(ExceedsAuthorized)
      else Ok(p)
  }

  /** The payment after a capture at time `now`: the requested amount is
      only checked, never recorded. */
  function Captured(p: Payment, now: int): Payment {
    p.(captured := true, updatedAt := Some(now))
  }

  /** A capture is admitted exactly for the merchant's own, settled,
      uncaptured payment and a requested amount within the authorized one;
      another merchant's payment is reported as missing. */
  lemma CaptureAdmitted(payments: map<string, Payment>, merchantId: string, paymentId: string, amount: Option<int>)
    ensures CaptureCheck(payments, merchantId, paymentId, amount).Ok? <==>
      && paymentId in payments
      && payments[paymentId].merchantId == merchantId
      && EqualsIgnoreCase(payments[paymentId].status, StatusSuccess)
      && !payments[paymentId].captured
      && (amount.None? || amount.value <= payments[paymentId].amount)
    ensures CaptureCheck(payments, merchantId, paymentId, amount).Ok? ==>
      CaptureCheck(payments, merchantId, paymentId, amount).value == payments[paymentId]
    ensures paymentId in payments && payments[paymentId].merchantId != merchantId ==>
      CaptureCheck(payments, merchantId, paymentId, amount) == CaptureCheck(map[], merchantId, paymentId, amount)
  {
    if paymentId in payments {
      EqualsIgnoreCaseSymmetric(payments[paymentId].status, StatusSuccess);
    }
  }

  lemma EqualsIgnoreCaseSymmetric(a: string, b: string)
    ensures EqualsIgnoreCase(a, b) <==> EqualsIgnoreCase(b, a)
  {
  }

  /** A payment is captured at most once: once a capture went through,
      every later capture of it is refused, whatever amount it asks for. */
  lemma CaptureOnce(payments: map<string, Payment>, merchantId: string, paymentId: string,
                    first: Option<int>, second: Option<int>, now: int)
    requires CaptureCheck(payments, merchantId, paymentId, first).Ok?
    ensures var after := payments[paymentId := Captured(payments[paymentId], now)];
      CaptureCheck(after, merchantId, paymentId, second) == Err(NotCapturable)
  {
  }

  /** A fresh payment is pending, so it cannot be captured before the
      worker settles it. */
  lemma NewPaymentNotCapturable(id: string, merchantId: string, orderId: string, paymentMethod: string,
                                vpa: Option<string>, now: int, payments: map<string, Payment>, amount: Option<int>)
    ensures var after := payments[id := NewPayment(id, merchantId, orderId, paymentMethod, vpa, now)];
      CaptureCheck(after, merchantId, id, amount) == Err(NotCapturable)
  {
    var p := NewPayment(id, merchantId, orderId, paymentMethod, vpa, now);
    assert LowerAscii(p.status[0]) != LowerAscii(StatusSuccess[0]);
  }

  /** A capture changes only the flag and the update time. */
  lemma CaptureKeepsTerms(p: Payment, now: int)
    ensures Captured(p, now).captured && Captured(p, now).updatedAt == Some(now)
    ensures Captured(p, now).(captured := p.captured, updatedAt := p.updatedAt) == p
  {
  }

  class PaymentService {
    const db: Database
    const queue: RedisQueueService
    const webhooks: WebhookService

    /** The webhook service works on the same store and queue. */
    predicate Wired() {
      webhooks.db == db && webhooks.queue == queue
    }

    constructor (db: Database, queue: RedisQueueService, webhooks: WebhookService)
      requires webhooks.db == db && webhooks.queue == queue
      ensures this.db == db && this.queue == queue && this.webhooks == webhooks
      ensures Wired()
    {
      this.db := db;
      this.queue := queue;
      this.webhooks := webhooks;
    }

    /** `createPayment(merchant, req)`: `draws` are the random source's
        indices for the id, `createdHook` and `pendingHook` the random ids
        of the two webhook records, `now` the clock. */
    method CreatePayment(merchant: Merchant, orderId: string, paymentMethod: string, vpa: Option<string>,
                         draws: seq<int>, createdHook: string, pendingHook: string, now: int)
      returns (paymentId: string, response: Json)
      requires Wired()
      requires ValidDraws(draws) && RandomIdLength <= |draws|
      modifies db, queue
      ensures paymentId == PaymentIdPrefix + Picked(draws[..RandomIdLength])
      ensures StartsWith(paymentId, PaymentIdPrefix) && |paymentId| == |PaymentIdPrefix| + RandomIdLength
      ensures db.payments == old(db.payments)[paymentId := NewPayment(paymentId, merchant.id, orderId, paymentMethod, vpa, now)]
      ensures response == PaymentPayload(db.payments[paymentId])
      ensures db.webhookLogs ==
        LogsAfterEnqueue(LogsAfterEnqueue(old(db.webhookLogs), merchant, "payment.created", response, createdHook, now),
                         merchant, "payment.pending", response, pendingHook, now)
      ensures queue.lists ==
        LeftPush(ListsAfterEnqueue(ListsAfterEnqueue(old(queue.lists), merchant, createdHook), merchant, pendingHook),
                 QueueProcessPayment, PaymentJob(paymentId))
      ensures Queued(queue.lists, QueueProcessPayment) == Queued(old(queue.lists), QueueProcessPayment) + [PaymentJob(paymentId)]
      ensures queue.values ==
        Bumped(Enqueued(Enqueued(old(queue.values), WillDeliver(merchant)), WillDeliver(merchant)), PendingKey, 1)
      ensures db.refunds == old(db.refunds) && db.merchants == old(db.merchants)
      ensures queue.heartbeatExpiresAt == old(queue.heartbeatExpiresAt)
    {
      paymentId := RandomId(PaymentIdPrefix, RandomIdLength, draws);
      assert paymentId == PaymentIdPrefix + paymentId[|PaymentIdPrefix|..];
      var payment := NewPayment(paymentId, merchant.id, orderId, paymentMethod, vpa, now);
      db.payments := db.payments[paymentId := payment];
      response := PaymentPayload(payment);
      webhooks.EnqueueWebhook(merchant, "payment.created", response, createdHook, now);
      webhooks.EnqueueWebhook(merchant, "payment.pending", response, pendingHook, now);
      ghost var before := queue.lists;
      var ok := queue.Enqueue(QueueProcessPayment, Fields(PaymentJob(paymentId)));
      QueuedAfterPush(before, QueueProcessPayment, PaymentJob(paymentId));
      WebhookPushesKeepProcessQueue(old(queue.lists), merchant, createdHook, pendingHook);
    }

    /** `capturePayment(merchant, paymentId, req)`: `amount` is the optional
        requested amount, `hook` the random id of the webhook record. */
    method CapturePayment(merchant: Merchant, paymentId: string, amount: Option<int>, hook: string, now: int)
      returns (r: Result<Json, CaptureError>)
      requires Wired()
      modifies db, queue
      ensures CaptureCheck(old(db.payments), merchant.id, paymentId, amount).Err? ==>
        && r == Err(CaptureCheck(old(db.payments), merchant.id, paymentId, amount).error)
        && db.payments == old(db.payments) && db.webhookLogs == old(db.webhookLogs)
        && queue.lists == old(queue.lists) && queue.values == old(queue.values)
      ensures CaptureCheck(old(db.payments), merchant.id, paymentId, amount).Ok? ==>
        && db.payments == old(db.payments)[paymentId := Captured(old(db.payments)[paymentId], now)]
        && r == Ok(PaymentPayload(db.payments[paymentId]))
        && db.webhookLogs == LogsAfterEnqueue(old(db.webhookLogs), merchant, "payment.success", r.value, hook, now)
        && queue.lists == ListsAfterEnqueue(old(queue.lists), merchant, hook)
        && queue.values == Enqueued(old(queue.values), WillDeliver(merchant))
      ensures db.refunds == old(db.refunds) && db.merchants == old(db.merchants)
      ensures queue.heartbeatExpiresAt == old(queue.heartbeatExpiresAt)
    {
      var check := CaptureCheck(db.payments, merchant.id, paymentId, amount);
      if check.Err? {
        return Err(check.error);
      }
      var payment := Captured(check.value, now);
      db.payments := db.payments[paymentId := payment];
      var body := PaymentPayload(payment);
      webhooks.EnqueueWebhook(merchant, "payment.success", body, hook, now);
      r := Ok(body);
    }
  }

  /** The two webhook pushes of `createPayment` leave the settlement queue
      alone. */
  lemma WebhookPushesKeepProcessQueue(lists: map<string, seq<StoredJob>>, m: Merchant, h1: string, h2: string)
    ensures ListOf(ListsAfterEnqueue(ListsAfterEnqueue(lists, m, h1), m, h2), QueueProcessPayment)
      == ListOf(lists, QueueProcessPayment)
  {
  }
}
