/** Creating, resetting, selecting and listing webhook delivery records
    (`WebhookService`). A record is created for a merchant with a usable URL,
    saved as pending and due at once, and a `{webhookId}` job is pushed on
    the delivery queue; an operator reset makes a record pending again and
    pushes a job. */
module Webhooks {
  import opened Common
  import opened Queue
  import opened Entities

  /** The field of a delivery job. */
  const WebhookIdField: string := "webhookId"

  /** The job that asks the delivery worker to attempt record `id`. */
  function DeliveryJob(id: string): StoredJob {
    map[WebhookIdField := id]
  }

  // ---------------------------------------------------------------------
  // The event envelope.

  /** The key under which the envelope carries the event body. */
  function DataKey(event: string): string {
    if StartsWith(event, "refund") then "refund" else "payment"
  }

  /** `payloadEnvelope(event, body)` at time `now` (whole seconds). */
  function PayloadEnvelope(event: string, body: Json, now: int): (r: Json)
    ensures r.JObj? && r.fields.Keys == {"event", "timestamp", "data"}
    ensures r.fields["event"] == JStr(event) && r.fields["timestamp"] == JNum(now)
    ensures r.fields["data"].JObj?
    ensures "refund" in r.fields["data"].fields <==> StartsWith(event, "refund")
    ensures "payment" in r.fields["data"].fields <==> !StartsWith(event, "refund")
    ensures r.fields["data"].fields.Keys <= {"refund", "payment"}
    ensures forall k :: k in r.fields["data"].fields ==> r.fields["data"].fields[k] == body
  {
    JObj(map["event" := JStr(event), "timestamp" := JNum(now), "data" := JObj(map[DataKey(event) := body])])
  }

  /** The envelope loses nothing: event, time and body can be read back. */
  lemma EnvelopeDetermines(e1: string, b1: Json, t1: int, e2: string, b2: Json, t2: int)
    requires PayloadEnvelope(e1, b1, t1) == PayloadEnvelope(e2, b2, t2)
    ensures e1 == e2 && b1 == b2 && t1 == t2
  {
    var d := PayloadEnvelope(e1, b1, t1).fields["data"].fields;
    assert PayloadEnvelope(e1, b1, t1).fields["event"] == JStr(e1);
    assert DataKey(e1) in d;
  }

  // ---------------------------------------------------------------------
  // Creating a record.

  /** `enqueueWebhook` skips a merchant whose URL is null or blank. */
  predicate WillDeliver(m: Merchant) {
    m.webhookUrl.Some? && !IsBlank(m.webhookUrl.value)
  }

  /** The record `enqueueWebhook` saves. */
  function NewLog(id: string, m: Merchant, event: string, body: Json, now: int): WebhookLog {
    WebhookLog(id, m.id, event, PayloadEnvelope(event, body, now), Pending, 0, None, Some(now), None, None, now)
  }

  function LogsAfterEnqueue(logs: map<string, WebhookLog>, m: Merchant, event: string, body: Json, id: string, now: int): map<string, WebhookLog> {
    if WillDeliver(m) then logs[id := NewLog(id, m, event, body, now)] else logs
  }

  function ListsAfterEnqueue(lists: map<string, seq<StoredJob>>, m: Merchant, id: string): map<string, seq<StoredJob>> {
    if WillDeliver(m) then LeftPush(lists, QueueDeliverWebhook, DeliveryJob(id)) else lists
  }

  // ---------------------------------------------------------------------
  // Selecting due records.

  /** `findByStatusAndNextRetryAtLessThanEqual("pending", now)` on one
      record. */
  predicate IsDue(log: WebhookLog, now: int) {
    log.status == Pending && log.nextRetryAt.Some? && log.nextRetryAt.value <= now
  }

  /** The ids of the records `findDuePending(now)` returns. */
  function DuePending(logs: map<string, WebhookLog>, now: int): (due: set<string>)
    ensures due <= logs.Keys
    ensures forall id :: id in logs ==> (id in due <==> IsDue(logs[id], now))
  {
    set id | id in logs && IsDue(logs[id], now)
  }

  /** `enqueueWebhook` for a merchant with a URL saves exactly one new
      pending record with no attempts, due from the moment it was made,
      and puts exactly one job for it behind the jobs already waiting; for a
      merchant without one it changes nothing. */
  lemma EnqueueWebhookEffect(logs: map<string, WebhookLog>, lists: map<string, seq<StoredJob>>,
                             m: Merchant, event: string, body: Json, id: string, now: int)
    ensures !WillDeliver(m) ==>
      LogsAfterEnqueue(logs, m, event, body, id, now) == logs && ListsAfterEnqueue(lists, m, id) == lists
    ensures WillDeliver(m) ==>
      var log := LogsAfterEnqueue(logs, m, event, body, id, now)[id];
      && id in LogsAfterEnqueue(logs, m, event, body, id, now)
      && log.status == Pending && log.attempts == 0 && log.merchantId == m.id && log.event == event
      && log.payload == PayloadEnvelope(event, body, now)
      && IsDue(log, now) && log.lastAttemptAt == None
    ensures WillDeliver(m) ==>
      Queued(ListsAfterEnqueue(lists, m, id), QueueDeliverWebhook) == Queued(lists, QueueDeliverWebhook) + [DeliveryJob(id)]
    ensures forall other :: other != id ==>
      (other in LogsAfterEnqueue(logs, m, event, body, id, now) <==> other in logs)
      && (other in logs ==> LogsAfterEnqueue(logs, m, event, body, id, now)[other] == logs[other])
    ensures forall q :: q != QueueDeliverWebhook ==> Queued(ListsAfterEnqueue(lists, m, id), q) == Queued(lists, q)
  {
    QueuedAfterPush(lists, QueueDeliverWebhook, DeliveryJob(id));
  }

  /** A record can be picked up by the sweep from its creation on, and not
      before. */
  lemma FreshLogDue(id: string, m: Merchant, event: string, body: Json, created: int, now: int)
    ensures IsDue(NewLog(id, m, event, body, created), now) <==> created <= now
  {
  }

  // ---------------------------------------------------------------------
  // Operator reset.

  /** `resetAndEnqueue` finds the record and it belongs to the caller. */
  predicate ResetApplies(logs: map<string, WebhookLog>, id: string, merchantId: string) {
    id in logs && logs[id].merchantId == merchantId
  }

  /** The fields `resetAndEnqueue` overwrites. */
  function Reset(log: WebhookLog): WebhookLog {
    log.(attempts := 0, status := Pending, nextRetryAt := None)
  }

  /** A reset record is pending with no attempts whatever it was before,
      keeps its identity, event, payload and last response, and is not due
      at any time: only the job pushed with the reset will deliver it. */
  lemma ResetEffect(log: WebhookLog, now: int)
    ensures Reset(log).status == Pending && Reset(log).attempts == 0 && Reset(log).nextRetryAt == None
    ensures Reset(log).id == log.id && Reset(log).merchantId == log.merchantId && Reset(log).event == log.event
    ensures Reset(log).payload == log.payload && Reset(log).createdAt == log.createdAt
    ensures Reset(log).lastAttemptAt == log.lastAttemptAt && Reset(log).responseCode == log.responseCode
    ensures Reset(log).responseBody == log.responseBody
    ensures !IsDue(Reset(log), now)
  {
  }

  /** A reset record is never among the due records. */
  lemma ResetNotSwept(logs: map<string, WebhookLog>, id: string, now: int)
    requires id in logs
    ensures id !in DuePending(logs[id := Reset(logs[id])], now)
    ensures DuePending(logs[id := Reset(logs[id])], now) == DuePending(logs, now) - {id}
  {
  }

  // ---------------------------------------------------------------------
  // Paging.

  const MinInt: int := -0x8000_0000
  const MaxInt: int := 0x7FFF_FFFF

  predicate IsInt(x: int) {
    MinInt <= x <= MaxInt
  }

  /** Java's `int` division: truncates toward zero; `MIN_VALUE / -1`
      wraps to `MIN_VALUE`. */
  function JavaDiv(a: int, b: int): (q: int)
    requires IsInt(a) && IsInt(b) && b != 0
    ensures IsInt(q)
  {
    var m := (if a < 0 then -a else a) / (if b < 0 then -b else b);
    var t := if (a < 0) != (b < 0) then -m else m;
    if t > MaxInt then MinInt else t
  }

  /** The exceptions on the way to a page: `ArithmeticException` for a zero
      limit, then `PageRequest.of`'s checks of the page index and of the
      page size. */
  datatype PageError = DivideByZero | NegativePage | SizeBelowOne

  /** The page index `listForMerchant(merchantId, offset, limit)` asks for. */
  function PageIndex(offset: int, limit: int): Result<int, PageError>
    requires IsInt(offset) && IsInt(limit)
  {
    if limit == 0 then Err(DivideByZero)
    else
      var page := JavaDiv(offset, limit);
      if page < 0 then Err(NegativePage)
      else if limit < 1 then Err(SizeBelowOne)
      else Ok(page)
  }

  /** Euclidean division of a non-negative offset by a positive limit
      brackets the offset between consecutive multiples of the limit. */
  lemma DivBrackets(a: int, b: int)
    requires a >= 0 && b >= 1
    ensures 0 <= a / b <= a
    ensures (a / b) * b <= a < (a / b) * b + b
    ensures a / b == 0 <==> a < b
  {
    var q, r := a / b, a % b;
    assert a == q * b + r && 0 <= r < b;
    assert q >= 0;
    if q >= 1 {
      MulAtLeast(q, b);
    }
  }

  /** Helper for `DivBrackets`: a product of positive factors is at least
      each of them. */
  lemma MulAtLeast(q: int, b: int)
    requires q >= 1 && b >= 1
    ensures q * b >= q && q * b >= b
  {
    assert q * b == q + q * (b - 1);
    assert q * (b - 1) >= 0;
  }

  /** With a positive limit the page is the offset's quotient, and a
      negative offset truncates toward zero. */
  lemma PageForPositiveLimit(offset: int, limit: int)
    requires IsInt(offset) && IsInt(limit) && limit >= 1
    ensures offset >= 0 ==> JavaDiv(offset, limit) == offset / limit
    ensures offset < 0 ==> JavaDiv(offset, limit) == -((-offset) / limit)
    ensures JavaDiv(offset, limit) >= 0 <==> offset > -limit
  {
    if offset >= 0 {
      DivBrackets(offset, limit);
    } else {
      DivBrackets(-offset, limit);
    }
  }

  /** A page is served exactly when the limit is positive and the offset
      is above `-limit` (a small negative offset truncates to page 0); the
      page served starts at `page * limit`, the multiple of `limit` at or
      below the offset, so rows between it and the offset are repeated. */
  lemma PageArithmetic(offset: int, limit: int)
    requires IsInt(offset) && IsInt(limit)
    ensures PageIndex(offset, limit).Ok? <==> limit >= 1 && offset > -limit
    ensures PageIndex(offset, limit).Ok? && offset >= 0 ==>
      var p := PageIndex(offset, limit).value;
      p * limit <= offset < p * limit + limit
    ensures PageIndex(offset, limit).Ok? && offset < 0 ==> PageIndex(offset, limit).value == 0
  {
    if limit >= 1 {
      PageForPositiveLimit(offset, limit);
      if offset >= 0 {
        DivBrackets(offset, limit);
      } else if offset > -limit {
        DivBrackets(-offset, limit);
      }
    }
  }

  // ---------------------------------------------------------------------

  class WebhookService {
    const db: Database
    const queue: RedisQueueService

    constructor (db: Database, queue: RedisQueueService)
      ensures this.db == db && this.queue == queue
    {
      this.db := db;
      this.queue := queue;
    }

    /** `enqueueWebhook(merchant, event, body)`; `id` is the fresh random
        UUID and `now` the clock. */
    method EnqueueWebhook(m: Merchant, event: string, body: Json, id: string, now: int)
      modifies db, queue
      ensures db.webhookLogs == LogsAfterEnqueue(old(db.webhookLogs), m, event, body, id, now)
      ensures queue.lists == ListsAfterEnqueue(old(queue.lists), m, id)
      ensures queue.values == Enqueued(old(queue.values), WillDeliver(m))
      ensures db.payments == old(db.payments) && db.refunds == old(db.refunds) && db.merchants == old(db.merchants)
      ensures queue.heartbeatExpiresAt == old(queue.heartbeatExpiresAt)
    {
      if !WillDeliver(m) {
        return;
      }
      db.webhookLogs := db.webhookLogs[id := NewLog(id, m, event, body, now)];
      var ok := queue.Enqueue(QueueDeliverWebhook, Fields(DeliveryJob(id)));
    }

    /** `resetAndEnqueue(webhookId, merchantId)`. */
    method ResetAndEnqueue(id: string, merchantId: string) returns (r: Option<WebhookLog>)
      modifies db, queue
      ensures !ResetApplies(old(db.webhookLogs), id, merchantId) ==>
        r == None && db.webhookLogs == old(db.webhookLogs)
        && queue.lists == old(queue.lists) && queue.values == old(queue.values)
      ensures ResetApplies(old(db.webhookLogs), id, merchantId) ==>
        r == Some(Reset(old(db.webhookLogs)[id]))
        && db.webhookLogs == old(db.webhookLogs)[id := r.value]
        && queue.lists == LeftPush(old(queue.lists), QueueDeliverWebhook, DeliveryJob(id))
        && queue.values == Bumped(old(queue.values), PendingKey, 1)
      ensures db.payments == old(db.payments) && db.refunds == old(db.refunds) && db.merchants == old(db.merchants)
      ensures queue.heartbeatExpiresAt == old(queue.heartbeatExpiresAt)
    {
      if id !in db.webhookLogs {
        return None;
      }
      var log := db.webhookLogs[id];
      if log.merchantId != merchantId {
        return None;
      }
      log := log.(attempts := 0, status := Pending, nextRetryAt := None);
      db.webhookLogs := db.webhookLogs[id := log];
      var ok := queue.Enqueue(QueueDeliverWebhook, Fields(DeliveryJob(id)));
      r := Some(log);
    }

    /** `findDuePending(now)`. The repository's order is not modelled: the
        result is the set of ids. */
    method FindDuePending(now: int) returns (due: set<string>)
      ensures due == DuePending(db.webhookLogs, now)
    {
      due := set id | id in db.webhookLogs && IsDue(db.webhookLogs[id], now);
    }
  }
}
