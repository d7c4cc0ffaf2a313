/** The records the core reads and writes, and the durable store that holds
    them. Each record is a value; the store maps ids to records, except for
    the refunds, which are a table in insertion order because the refund
    service sums over all refunds of a payment. */
module Entities {
  import opened Common

  const StatusPending: string := "pending"
  const StatusSuccess: string := "success"
  const StatusFailed: string := "failed"
  const StatusRefunded: string := "refunded"
  const StatusProcessed: string := "processed"

  /** The merchant fields the core reads. */
  datatype Merchant = Merchant(id: string, webhookUrl: Option<string>, webhookSecret: Option<string>)

  datatype Payment = Payment(
    id: string,
    merchantId: string,
    orderId: string,
    amount: int,
    currency: string,
    paymentMethod: string,
    vpa: Option<string>,
    cardLast4: Option<string>,
    status: string,
    errorCode: Option<string>,
    errorDescription: Option<string>,
    captured: bool,
    createdAt: int,
    updatedAt: Option<int>)

  datatype Refund = Refund(
    id: string,
    paymentId: string,
    merchantId: string,
    amount: int,
    reason: Option<string>,
    status: string,
    createdAt: int,
    processedAt: Option<int>)

  datatype DeliveryStatus = Pending | Success | Failed

  /** A webhook delivery record; `payload` is the envelope captured when the
      event happened. */
  datatype WebhookLog = WebhookLog(
    id: string,
    merchantId: string,
    event: string,
    payload: Json,
    status: DeliveryStatus,
    attempts: nat,
    lastAttemptAt: Option<int>,
    nextRetryAt: Option<int>,
    responseCode: Option<int>,
    responseBody: Option<string>,
    createdAt: int)

  // ---------------------------------------------------------------------
  // The refund table.

  /** The position of the refund with this id (`findById`). */
  function FindRefund(table: seq<Refund>, id: string): (r: Option<nat>)
    ensures r.Some? ==> r.value < |table| && table[r.value].id == id
    ensures r.None? ==> forall i :: 0 <= i < |table| ==> table[i].id != id
  {
    if table == [] then None
    else if table[0].id == id then Some(0)
    else match FindRefund(table[1..], id)
      case None => None
      case Some(i) => Some(i + 1)
  }

  /** `save`: replace the refund with the same id, or add a new row. */
  function SaveRefund(table: seq<Refund>, r: Refund): seq<Refund> {
    match FindRefund(table, r.id)
    case Some(i) => table[i := r]
    case None => table + [r]
  }

  /** What one refund adds to a payment's refunded total. */
  function Share(r: Refund, paymentId: string): int {
    if r.paymentId == paymentId then r.amount else 0
  }

  /** `findByPaymentId(paymentId)` summed over `getAmount`. */
  function AlreadyRefunded(table: seq<Refund>, paymentId: string): int {
    if table == [] then 0
    else AlreadyRefunded(table[..|table| - 1], paymentId) + Share(table[|table| - 1], paymentId)
  }

  /** Adding a row adds its share. */
  lemma AlreadyRefundedAppend(table: seq<Refund>, r: Refund, paymentId: string)
    ensures AlreadyRefunded(table + [r], paymentId) == AlreadyRefunded(table, paymentId) + Share(r, paymentId)
  {
    assert (table + [r])[..|table|] == table;
  }

  /** Replacing a row trades its share for the new row's. */
  lemma {:induction false} AlreadyRefundedReplace(table: seq<Refund>, i: nat, r: Refund, paymentId: string)
    requires i < |table|
    ensures AlreadyRefunded(table[i := r], paymentId)
      == AlreadyRefunded(table, paymentId) - Share(table[i], paymentId) + Share(r, paymentId)
    decreases |table|
  {
    var n := |table|;
    var t' := table[i := r];
    assert t'[..n - 1] == if i == n - 1 then table[..n - 1] else table[..n - 1][i := r];
    if i < n - 1 {
      AlreadyRefundedReplace(table[..n - 1], i, r, paymentId);
    }
  }

  /** Saving a refund moves the total by the difference of the shares:
      a new id adds its share, a known id replaces the old row's. */
  lemma AlreadyRefundedSave(table: seq<Refund>, r: Refund, paymentId: string)
    ensures FindRefund(table, r.id).None? ==>
      AlreadyRefunded(SaveRefund(table, r), paymentId) == AlreadyRefunded(table, paymentId) + Share(r, paymentId)
    ensures FindRefund(table, r.id).Some? ==>
      AlreadyRefunded(SaveRefund(table, r), paymentId)
        == AlreadyRefunded(table, paymentId) - Share(table[FindRefund(table, r.id).value], paymentId) + Share(r, paymentId)
  {
    match FindRefund(table, r.id)
    case None => AlreadyRefundedAppend(table, r, paymentId);
    case Some(i) => AlreadyRefundedReplace(table, i, r, paymentId);
  }

  /** The durable store: the repositories the core uses, as in-memory maps
      keyed by id. */
  class Database {
    var payments: map<string, Payment>
    var refunds: seq<Refund>
    var merchants: map<string, Merchant>
    var webhookLogs: map<string, WebhookLog>

    constructor (merchants: map<string, Merchant>)
      ensures this.merchants == merchants
      ensures payments == map[] && refunds == [] && webhookLogs == map[]
    {
      this.merchants := merchants;
      payments := map[];
      refunds := [];
      webhookLogs := map[];
    }
  }
}
