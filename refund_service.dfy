/** The refund service (`RefundService`): a refund is admitted for a
    settled payment of the caller while the refunds recorded against it,
    with this one, stay within the payment's amount; it is saved as
    pending, queued for the refund worker and announced by webhook. */
module Refunds {
  import opened Common
  import opened Queue
  import opened Entities
  import opened Webhooks
  import opened Ids

  const RefundIdPrefix: string := "rfnd_"
  const RandomIdLength: int := 16

  /** The job field naming the refund to process. */
  const RefundIdField: string := "refundId"

  /** The job `createRefund` queues. */
  function RefundJob(id: string): StoredJob {
    map[RefundIdField := id]
  }

  /** The exceptions `createRefund` throws. */
  datatype RefundError =
    | PaymentNotFound     // "Payment not found"
    | NotRefundable       // "Payment not in refundable state"
    | ExceedsAvailable    // "Refund amount exceeds available amount"

  /** The checks of `createRefund`, in order, against the payments and the
      refund table. Every refund recorded for the payment counts, whatever
      its status. */
  function RefundCheck(payments: map<string, Payment>, refunds: seq<Refund>, merchantId: string,
                       paymentId: string, amount: int): Result<Payment, RefundError>
  {
    if paymentId !in payments || payments[paymentId].merchantId != merchantId then Err(PaymentNotFound)
    else
      var p := payments[paymentId];
      if !EqualsIgnoreCase(StatusSuccess, p.status) then Err(NotRefundable)
      else if amount > p.amount - AlreadyRefunded(refunds, paymentId) then Err(ExceedsAvailable)
      else Ok(p)
  }

  /** The refund `createRefund` saves at time `now`. */
  function NewRefund(id: string, paymentId: string, merchantId: string, amount: int, reason: Option<string>,
                     now: int): Refund {
    Refund(id, paymentId, merchantId, amount, reason, StatusPending, now, None)
  }

  const RefundPayloadKeys: set<string> :=
    {"id", "payment_id", "amount", "reason", "status", "created_at", "processed_at"}

  /** `refundPayload(refund)`: every field but the merchant. */
  function RefundPayload(r: Refund): (j: Json)
    ensures j.JObj? && j.fields.Keys == RefundPayloadKeys
  {
    JObj(map[
      "id" := JStr(r.id),
      "payment_id" := JStr(r.paymentId),
      "amount" := JNum(r.amount),
      "reason" := OptStr(r.reason),
      "status" := JStr(r.status),
      "created_at" := JNum(r.createdAt),
      "processed_at" := OptNum(r.processedAt)])
  }

  /** Two refunds have the same payload exactly when they differ at most
      in the merchant. */
  lemma RefundPayloadDetermines(r: Refund, s: Refund)
    ensures RefundPayload(r) == RefundPayload(s) <==> r.(merchantId := s.merchantId) == s
  {
    var same := r.(merchantId := s.merchantId) == s;
    if same {
      assert RefundPayload(r) == RefundPayload(s);
    }
    if RefundPayload(r) == RefundPayload(s) {
      var f, g := RefundPayload(r).fields, RefundPayload(s).fields;
      assert f["id"] == g["id"] && f["payment_id"] == g["payment_id"] && f["amount"] == g["amount"];
      assert f["reason"] == g["reason"] && f["status"] == g["status"];
      assert f["created_at"] == g["created_at"] && f["processed_at"] == g["processed_at"];
      assert r.reason == s.reason by {
        match r.reason
        case None =>
        case Some(_) =>
      }
      assert r.processedAt == s.processedAt by {
        match r.processedAt
        case None =>
        case Some(_) =>
      }
      assert same;
    }
  }

  /** A refund is admitted exactly for the merchant's own payment in status
      `success` (in any case) when the amount fits in what is left. */
  lemma RefundAdmitted(payments: map<string, Payment>, refunds: seq<Refund>, merchantId: string,
                       paymentId: string, amount: int)
    ensures RefundCheck(payments, refunds, merchantId, paymentId, amount).Ok? <==>
      && paymentId in payments
      && payments[paymentId].merchantId == merchantId
      && EqualsIgnoreCase(StatusSuccess, payments[paymentId].status)
      && AlreadyRefunded(refunds, paymentId) + amount <= payments[paymentId].amount
    ensures paymentId in payments && payments[paymentId].merchantId != merchantId ==>
      RefundCheck(payments, refunds, merchantId, paymentId, amount) == RefundCheck(map[], refunds, merchantId, paymentId, amount)
  {
  }

  /** Admitting a refund under a new id keeps the payment's refunded total
      within its amount, and adds exactly the refund's amount to it; the
      totals of the other payments do not move. */
  lemma RefundStaysWithinAmount(payments: map<string, Payment>, refunds: seq<Refund>, merchantId: string,
                                paymentId: string, amount: int, r: Refund, other: string)
    requires RefundCheck(payments, refunds, merchantId, paymentId, amount).Ok?
    requires r.paymentId == paymentId && r.amount == amount
    requires FindRefund(refunds, r.id).None?
    ensures AlreadyRefunded(SaveRefund(refunds, r), paymentId) == AlreadyRefunded(refunds, paymentId) + amount
    ensures AlreadyRefunded(SaveRefund(refunds, r), paymentId) <= payments[paymentId].amount
    ensures other != paymentId ==> AlreadyRefunded(SaveRefund(refunds, r), other) == AlreadyRefunded(refunds, other)
  {
    AlreadyRefundedSave(refunds, r, paymentId);
    AlreadyRefundedSave(refunds, r, other);
  }

  /** The store invariant: no refund has a negative amount, and no payment
      has more refunded against it than its amount. */
  predicate RefundsWithinAmount(payments: map<string, Payment>, refunds: seq<Refund>) {
    && (forall k :: 0 <= k < |refunds| ==> refunds[k].amount >= 0)
    && (forall pid :: pid in payments ==> AlreadyRefunded(refunds, pid) <= payments[pid].amount)
  }

  /** Saving an admitted refund (of at least 1, as the request is
      validated) keeps the invariant, whether its random id is new or
      overwrites a refund already saved under it: an overwritten row only
      takes its share away. */
  lemma AdmittedRefundKeepsWithin(payments: map<string, Payment>, refunds: seq<Refund>, merchantId: string,
                                  paymentId: string, amount: int, r: Refund)
    requires RefundsWithinAmount(payments, refunds)
    requires RefundCheck(payments, refunds, merchantId, paymentId, amount).Ok?
    requires r.paymentId == paymentId && r.amount == amount
    requires amount >= 1
    ensures RefundsWithinAmount(payments, SaveRefund(refunds, r))
  {
    var saved := SaveRefund(refunds, r);
    forall k | 0 <= k < |saved|
      ensures saved[k].amount >= 0
    {
      match FindRefund(refunds, r.id)
      case None =>
      case Some(i) =>
    }
    forall pid | pid in payments
      ensures AlreadyRefunded(saved, pid) <= payments[pid].amount
    {
      AlreadyRefundedSave(refunds, r, pid);
      match FindRefund(refunds, r.id)
      case None =>
      case Some(i) => assert Share(refunds[i], pid) >= 0;
    }
  }

  /** Once a payment is fully refunded, every further refund of it is
      refused, however small. */
  lemma FullyRefundedRefusesMore(payments: map<string, Payment>, refunds: seq<Refund>, merchantId: string,
                                 paymentId: string, amount: int)
    requires paymentId in payments && AlreadyRefunded(refunds, paymentId) == payments[paymentId].amount
    requires amount >= 1
    ensures RefundCheck(payments, refunds, merchantId, paymentId, amount).Err?
  {
  }

  class RefundService {
    const db: Database
    const queue: RedisQueueService
    const webhooks: WebhookService

    predicate Wired() {
      webhooks.db == db && webhooks.queue == queue
    }

    constructor (db: Database, queue: RedisQueueService, webhooks: WebhookService)
      requires webhooks.db == db && webhooks.queue == queue
      ensures this.db == db && this.queue == queue && this.webhooks == webhooks
      ensures Wired()
    {
      this.db := db;
      this.queue := queue;
      this.webhooks := webhooks;
    }

    /** `createRefund(merchant, paymentId, req)`: the request's amount is
        at least 1 (it is validated before the call); `draws` are the random
        source's indices for the id, `hook` the random id of the webhook
        record, `now` the clock. */
    method CreateRefund(merchant: Merchant, paymentId: string, amount: int, reason: Option<string>,
                        draws: seq<int>, hook: string, now: int)
      returns (r: Result<Json, RefundError>)
      requires Wired()
      requires amount >= 1
      requires ValidDraws(draws) && RandomIdLength <= |draws|
      modifies db, queue
      ensures RefundCheck(old(db.payments), old(db.refunds), merchant.id, paymentId, amount).Err? ==>
        && r == Err(RefundCheck(old(db.payments), old(db.refunds), merchant.id, paymentId, amount).error)
        && db.refunds == old(db.refunds) && db.webhookLogs == old(db.webhookLogs)
        && queue.lists == old(queue.lists) && queue.values == old(queue.values)
      ensures RefundCheck(old(db.payments), old(db.refunds), merchant.id, paymentId, amount).Ok? ==>
        var id := RefundIdPrefix + Picked(draws[..RandomIdLength]);
        var refund := NewRefund(id, paymentId, merchant.id, amount, reason, now);
        && db.refunds == SaveRefund(old(db.refunds), refund)
        && r == Ok(RefundPayload(refund))
        && queue.lists == ListsAfterEnqueue(LeftPush(old(queue.lists), QueueProcessRefund, RefundJob(id)), merchant, hook)
        && Queued(queue.lists, QueueProcessRefund) == Queued(old(queue.lists), QueueProcessRefund) + [RefundJob(id)]
        && queue.values == Enqueued(Bumped(old(queue.values), PendingKey, 1), WillDeliver(merchant))
        && db.webhookLogs == LogsAfterEnqueue(old(db.webhookLogs), merchant, "refund.created", r.value, hook, now)
      ensures db.payments == old(db.payments) && db.merchants == old(db.merchants)
      ensures queue.heartbeatExpiresAt == old(queue.heartbeatExpiresAt)
    {
      var check := RefundCheck(db.payments, db.refunds, merchant.id, paymentId, amount);
      if check.Err? {
        return Err(check.error);
      }
      var id := RandomId(RefundIdPrefix, RandomIdLength, draws);
      assert id == RefundIdPrefix + id[|RefundIdPrefix|..];
      var refund := NewRefund(id, paymentId, merchant.id, amount, reason, now);
      db.refunds := SaveRefund(db.refunds, refund);
      ghost var before := queue.lists;
      var ok := queue.Enqueue(QueueProcessRefund, Fields(RefundJob(id)));
      QueuedAfterPush(before, QueueProcessRefund, RefundJob(id));
      var body := RefundPayload(refund);
      webhooks.EnqueueWebhook(merchant, "refund.created", body, hook, now);
      r := Ok(body);
    }
  }
}
