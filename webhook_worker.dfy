/** The delivery worker (`WebhookWorker`): it takes `{webhookId}` jobs off
    the delivery queue and attempts each record once, moving it to success,
    to a scheduled retry, or after the fifth failure to failed; a periodic
    sweep re-enqueues every pending record whose retry time has come. The
    HTTP call is an input: what the endpoint did with the request. */
module Delivery {
  import opened Common
  import opened Queue
  import opened Entities
  import opened Webhooks
  import opened WorkerLoop

  /** Attempts after which a record is given up. */
  const MaxAttempts: nat := 5

  /** The response body `markFailed` records for a merchant without an
      endpoint. */
  const NotConfigured: string := "Webhook not configured"

  /** The waits, in seconds, before attempts 2 to 5 and beyond, indexed by
      the number of attempts already made minus one. */
  const ProductionSchedule: seq<int> := [0, 60, 300, 1800, 7200]
  const TestSchedule: seq<int> := [0, 5, 10, 15, 20]

  // ---------------------------------------------------------------------
  // Backoff.

  /** `retryDelaySeconds(attempt)`: the table entry for attempts 1 to 4,
      the last entry for every other attempt number. */
  function RetryDelaySeconds(attempt: int, test: bool): (d: int)
    ensures 1 <= attempt <= 5 ==> d == (if test then TestSchedule else ProductionSchedule)[attempt - 1]
    ensures attempt < 1 || attempt > 5 ==> d == (if test then TestSchedule else ProductionSchedule)[4]
  {
    if test then
      match attempt
      case 1 => 0
      case 2 => 5
      case 3 => 10
      case 4 => 15
      case _ => 20
    else
      match attempt
      case 1 => 0
      case 2 => 60
      case 3 => 300
      case 4 => 1800
      case _ => 7200
  }

  /** Both schedules wait longer (or as long) after more attempts. */
  lemma ScheduleMonotone(a: int, b: int, test: bool)
    requires 1 <= a <= b
    ensures 0 <= RetryDelaySeconds(a, test) <= RetryDelaySeconds(b, test)
    ensures RetryDelaySeconds(b, test) <= (if test then 20 else 7200)
  {
  }

  // ---------------------------------------------------------------------
  // Transitions of one record.

  /** What the endpoint did with the POST: answered with a status code and
      an optional body, or the call threw (connection error, timeout, or
      a 4xx/5xx status that the HTTP client reports as an exception). */
  datatype HttpOutcome = Responded(code: int, body: Option<string>) | Threw

  /** The request the worker sends. */
  datatype Request = Request(url: string, signature: string, body: Json)

  /** `scheduleRetry(log, attempts, now)`. */
  function ScheduleRetry(log: WebhookLog, attempts: nat, now: int, test: bool): WebhookLog {
    var l := log.(attempts := attempts, lastAttemptAt := Some(now));
    if attempts >= MaxAttempts then l.(status := Failed, nextRetryAt := None)
    else l.(status := Pending, nextRetryAt := Some(now + RetryDelaySeconds(attempts, test)))
  }

  /** `markFailed(log, attempts, message)`; the retry time is not touched. */
  function MarkFailed(log: WebhookLog, attempts: nat, message: string): WebhookLog {
    log.(status := Failed, attempts := attempts, responseBody := Some(message))
  }

  /** Whether an attempt counts as delivered: the key was accepted and the
      endpoint answered 2xx. */
  predicate Succeeds(secret: string, outcome: HttpOutcome) {
    secret != "" && outcome.Responded? && 200 <= outcome.code < 300
  }

  /** The record after one attempt for a configured merchant. An empty
      secret makes the MAC key invalid, which throws before any request. */
  function Delivered(log: WebhookLog, secret: string, outcome: HttpOutcome, now: int, test: bool): WebhookLog {
    var attempts := log.attempts + 1;
    if secret == "" || outcome.Threw? then ScheduleRetry(log, attempts, now, test)
    else
      var l := log.(attempts := attempts, lastAttemptAt := Some(now),
                    responseCode := Some(outcome.code), responseBody := outcome.body);
      if 200 <= outcome.code < 300 then l.(status := Success, nextRetryAt := None)
      else ScheduleRetry(l, attempts, now, test)
  }

  /** `attemptDelivery` checks for a URL and a secret, not for blankness. */
  predicate Configured(m: Merchant) {
    m.webhookUrl.Some? && m.webhookSecret.Some?
  }

  /** The store after `attemptDelivery(id)`. */
  function AttemptResult(logs: map<string, WebhookLog>, merchants: map<string, Merchant>,
                         id: string, outcome: HttpOutcome, now: int, test: bool): map<string, WebhookLog> {
    if id !in logs || logs[id].merchantId !in merchants then logs
    else
      var log := logs[id];
      var m := merchants[log.merchantId];
      if !Configured(m) then logs[id := MarkFailed(log, 0, NotConfigured)]
      else logs[id := Delivered(log, m.webhookSecret.value, outcome, now, test)]
  }

  // ---------------------------------------------------------------------
  // The signature.

  type byte = x: int | 0 <= x < 256

  const HexDigits: string := ['0', '1', '2', '3', '4', '5', '6', '7', '8', '9', 'a', 'b', 'c', 'd', 'e', 'f']

  /** `String.format("%02x", b)`; a Java byte is rendered through its
      unsigned value, which is what `byte` holds here. */
  function HexByte(b: byte): string {
    [HexDigits[b / 16], HexDigits[b % 16]]
  }

  /** The lowercase hexadecimal rendering of a MAC. */
  function Hex(raw: seq<byte>): string
    decreases |raw|
  {
    if raw == [] then [] else Hex(raw[..|raw| - 1]) + HexByte(raw[|raw| - 1])
  }

  predicate IsLowerHex(c: char) {
    '0' <= c <= '9' || 'a' <= c <= 'f'
  }

  function HexValue(c: char): int {
    if '0' <= c <= '9' then c as int - '0' as int else c as int - 'a' as int + 10
  }

  /** Reading a rendering back: pairs of lowercase digits, high digit first. */
  function Unhex(s: string): Option<seq<byte>>
    decreases |s|
  {
    if s == [] then Some([])
    else if |s| == 1 || !IsLowerHex(s[|s| - 2]) || !IsLowerHex(s[|s| - 1]) then None
    else match Unhex(s[..|s| - 2])
      case None => None
      case Some(prefix) => Some(prefix + [HexValue(s[|s| - 2]) * 16 + HexValue(s[|s| - 1])])
  }

  lemma HexDigitValues()
    ensures |HexDigits| == 16
    ensures forall d :: 0 <= d < 16 ==> IsLowerHex(HexDigits[d]) && HexValue(HexDigits[d]) == d
  {
  }

  /** Every byte becomes two lowercase digits from which it can be read
      back. */
  lemma HexByteRoundTrip(b: byte)
    ensures |HexByte(b)| == 2 && IsLowerHex(HexByte(b)[0]) && IsLowerHex(HexByte(b)[1])
    ensures HexValue(HexByte(b)[0]) * 16 + HexValue(HexByte(b)[1]) == b
  {
    HexDigitValues();
  }

  /** A MAC of `n` bytes renders as `2n` lowercase hexadecimal digits. */
  lemma {:induction false} HexShape(raw: seq<byte>)
    ensures |Hex(raw)| == 2 * |raw|
    ensures forall i :: 0 <= i < |Hex(raw)| ==> IsLowerHex(Hex(raw)[i])
    decreases |raw|
  {
    if raw != [] {
      HexShape(raw[..|raw| - 1]);
      HexByteRoundTrip(raw[|raw| - 1]);
    }
  }

  /** Reading two more lowercase digits appends the byte they spell. */
  lemma UnhexTwoMore(t: string, hi: char, lo: char, prefix: seq<byte>)
    requires IsLowerHex(hi) && IsLowerHex(lo) && Unhex(t) == Some(prefix)
    requires 0 <= HexValue(hi) * 16 + HexValue(lo) < 256
    ensures Unhex(t + [hi, lo]) == Some(prefix + [HexValue(hi) * 16 + HexValue(lo)])
  {
    var s := t + [hi, lo];
    assert s[..|s| - 2] == t;
  }

  /** The rendering determines the MAC: reading it back gives the bytes. */
  lemma {:induction false} HexRoundTrip(raw: seq<byte>)
    ensures Unhex(Hex(raw)) == Some(raw)
    decreases |raw|
  {
    if raw != [] {
      var init, last := raw[..|raw| - 1], raw[|raw| - 1];
      HexRoundTrip(init);
      HexByteRoundTrip(last);
      var h := HexByte(last);
      assert h == [h[0], h[1]];
      UnhexTwoMore(Hex(init), h[0], h[1], init);
      assert init + [last] == raw;
    }
  }

  /** The loop of `computeHmac`: append two digits per byte. */
  method HexLower(raw: seq<byte>) returns (s: string)
    ensures s == Hex(raw)
  {
    s := [];
    var i := 0;
    while i < |raw|
      invariant 0 <= i <= |raw|
      invariant s == Hex(raw[..i])
    {
      assert raw[..i + 1][..i] == raw[..i];
      s := s + HexByte(raw[i]);
      i := i + 1;
    }
    assert raw[..i] == raw;
  }

  // ---------------------------------------------------------------------
  // Properties of the transitions.

  /** What each status of a record guarantees about its other fields. */
  predicate Consistent(log: WebhookLog) {
    && (log.status == Success ==>
          log.nextRetryAt == None && log.attempts >= 1 && log.lastAttemptAt.Some?
          && log.responseCode.Some? && 200 <= log.responseCode.value < 300)
    && (log.status == Pending ==>
          log.attempts < MaxAttempts && (log.attempts > 0 ==> log.lastAttemptAt.Some? && log.nextRetryAt.Some?))
    && (log.status == Failed ==>
          (log.attempts >= MaxAttempts && log.nextRetryAt == None)
          || (log.attempts == 0 && log.responseBody == Some(NotConfigured)))
  }

  /** Every write to a record leaves it consistent, whatever state it was
      in: creation, reset, the not-configured path and an attempt. */
  lemma EveryWriteConsistent(log: WebhookLog, m: Merchant, event: string, body: Json,
                             secret: string, outcome: HttpOutcome, now: int, test: bool)
    ensures Consistent(NewLog(log.id, m, event, body, now))
    ensures Consistent(Reset(log))
    ensures Consistent(MarkFailed(log, 0, NotConfigured))
    ensures Consistent(Delivered(log, secret, outcome, now, test))
  {
  }

  /** A delivered attempt: one more attempt, success, no retry time, and
      the response recorded. */
  lemma SuccessfulAttempt(log: WebhookLog, secret: string, outcome: HttpOutcome, now: int, test: bool)
    requires Succeeds(secret, outcome)
    ensures var l := Delivered(log, secret, outcome, now, test);
      && l.attempts == log.attempts + 1 && l.status == Success && l.nextRetryAt == None
      && l.lastAttemptAt == Some(now)
      && l.responseCode == Some(outcome.code) && l.responseBody == outcome.body
  {
  }

  /** A failed attempt: one more attempt made now; given up at the fifth,
      otherwise pending again after the scheduled wait. Only a response
      that arrived is recorded; after a throw the previous response stays. */
  lemma FailedAttempt(log: WebhookLog, secret: string, outcome: HttpOutcome, now: int, test: bool)
    requires !Succeeds(secret, outcome)
    ensures var l := Delivered(log, secret, outcome, now, test);
      && l.attempts == log.attempts + 1 && l.lastAttemptAt == Some(now)
      && (l.attempts >= MaxAttempts ==> l.status == Failed && l.nextRetryAt == None)
      && (l.attempts < MaxAttempts ==>
            l.status == Pending && l.nextRetryAt == Some(now + RetryDelaySeconds(l.attempts, test)))
      && (secret != "" && outcome.Responded? ==> l.responseCode == Some(outcome.code) && l.responseBody == outcome.body)
      && (secret == "" || outcome.Threw? ==> l.responseCode == log.responseCode && l.responseBody == log.responseBody)
  {
  }

  /** The record after attempts with the given outcomes at the given
      times, one after another. */
  function AttemptAll(log: WebhookLog, secret: string, outcomes: seq<HttpOutcome>, times: seq<int>, test: bool): WebhookLog
    requires |outcomes| == |times|
    decreases |outcomes|
  {
    if outcomes == [] then log
    else
      var n := |outcomes| - 1;
      Delivered(AttemptAll(log, secret, outcomes[..n], times[..n], test), secret, outcomes[n], times[n], test)
  }

  /** From a fresh or reset record, an endpoint that never succeeds leaves
      the record pending for four attempts, each scheduling the next, and
      gives it up at the fifth, with no retry time. */
  lemma {:induction false} FailingEndpoint(log: WebhookLog, secret: string, outcomes: seq<HttpOutcome>, times: seq<int>, test: bool)
    requires log.attempts == 0 && |outcomes| == |times| <= MaxAttempts
    requires forall i :: 0 <= i < |outcomes| ==> !Succeeds(secret, outcomes[i])
    ensures var l := AttemptAll(log, secret, outcomes, times, test);
      && l.attempts == |outcomes|
      && (0 < |outcomes| < MaxAttempts ==>
            l.status == Pending && l.nextRetryAt == Some(times[|times| - 1] + RetryDelaySeconds(|outcomes|, test)))
      && (|outcomes| == MaxAttempts ==> l.status == Failed && l.nextRetryAt == None)
    decreases |outcomes|
  {
    if outcomes != [] {
      var n := |outcomes| - 1;
      FailingEndpoint(log, secret, outcomes[..n], times[..n], test);
      FailedAttempt(AttemptAll(log, secret, outcomes[..n], times[..n], test), secret, outcomes[n], times[n], test);
    }
  }

  /** A record that was given up is never swept again, at any time. */
  lemma GivenUpNotSwept(logs: map<string, WebhookLog>, id: string, now: int)
    requires id in logs && logs[id].status == Failed
    ensures id !in DuePending(logs, now)
  {
  }

  /** The not-configured path keeps the retry time a new record was given,
      so a failed record can carry one; it is not swept all the same. */
  lemma NotConfiguredKeepsRetryTime(id: string, m: Merchant, event: string, body: Json, now: int)
    ensures var l := MarkFailed(NewLog(id, m, event, body, now), 0, NotConfigured);
      l.status == Failed && l.attempts == 0 && l.nextRetryAt == Some(now) && !IsDue(l, now)
  {
  }

  /** `attemptDelivery` does not look at the status: a second job for a
      record that was given up after five attempts sends a sixth request
      and counts a sixth attempt. */
  lemma StaleJobAttemptsAgain(logs: map<string, WebhookLog>, merchants: map<string, Merchant>,
                              id: string, outcome: HttpOutcome, now: int, test: bool)
    requires id in logs && logs[id].status == Failed && logs[id].attempts == MaxAttempts
    requires logs[id].merchantId in merchants && Configured(merchants[logs[id].merchantId])
    ensures id in AttemptResult(logs, merchants, id, outcome, now, test)
    ensures AttemptResult(logs, merchants, id, outcome, now, test)[id].attempts == MaxAttempts + 1
  {
  }

  /** A record or merchant that has gone missing changes nothing. */
  lemma MissingChangesNothing(logs: map<string, WebhookLog>, merchants: map<string, Merchant>,
                              id: string, outcome: HttpOutcome, now: int, test: bool)
    requires id !in logs || logs[id].merchantId !in merchants
    ensures AttemptResult(logs, merchants, id, outcome, now, test) == logs
  {
  }

  /** An attempt writes only the record it was asked for. */
  lemma AttemptWritesOneRecord(logs: map<string, WebhookLog>, merchants: map<string, Merchant>,
                               id: string, outcome: HttpOutcome, now: int, test: bool)
    ensures AttemptResult(logs, merchants, id, outcome, now, test).Keys == logs.Keys
    ensures forall other :: other in logs && other != id ==>
      AttemptResult(logs, merchants, id, outcome, now, test)[other] == logs[other]
  {
  }

  // ---------------------------------------------------------------------
  // The sweep.

  function DeliveryJobs(ids: seq<string>): seq<StoredJob>
    decreases |ids|
  {
    if ids == [] then [] else DeliveryJobs(ids[..|ids| - 1]) + [DeliveryJob(ids[|ids| - 1])]
  }

  /** `n` successful enqueues. */
  function EnqueuedTimes(values: map<string, string>, n: nat): map<string, string>
    decreases n
  {
    if n == 0 then values else Bumped(EnqueuedTimes(values, n - 1), PendingKey, 1)
  }

  /** The queue after a sweep has pushed `ids`, one job each, starting
      from `lists0` and `values0`. */
  ghost predicate Swept(lists0: map<string, seq<StoredJob>>, values0: map<string, string>,
                  lists: map<string, seq<StoredJob>>, values: map<string, string>, ids: seq<string>)
  {
    && Queued(lists, QueueDeliverWebhook) == Queued(lists0, QueueDeliverWebhook) + DeliveryJobs(ids)
    && (forall q :: q != QueueDeliverWebhook ==> ListOf(lists, q) == ListOf(lists0, q))
    && values == EnqueuedTimes(values0, |ids|)
  }

  /** Pushing one more id extends the queue by its job. */
  lemma SweptStep(lists0: map<string, seq<StoredJob>>, values0: map<string, string>,
                  lists: map<string, seq<StoredJob>>, values: map<string, string>, ids: seq<string>, id: string)
    requires Swept(lists0, values0, lists, values, ids)
    ensures Swept(lists0, values0, LeftPush(lists, QueueDeliverWebhook, DeliveryJob(id)),
                  Bumped(values, PendingKey, 1), ids + [id])
  {
    var lists', ids' := LeftPush(lists, QueueDeliverWebhook, DeliveryJob(id)), ids + [id];
    QueuedAfterPush(lists, QueueDeliverWebhook, DeliveryJob(id));
    assert ids'[..|ids|] == ids;
    assert DeliveryJobs(ids') == DeliveryJobs(ids) + [DeliveryJob(id)];
    assert Queued(lists', QueueDeliverWebhook) == Queued(lists0, QueueDeliverWebhook) + DeliveryJobs(ids');
    assert EnqueuedTimes(values0, |ids'|) == Bumped(values, PendingKey, 1);
    forall q | q != QueueDeliverWebhook
      ensures ListOf(lists', q) == ListOf(lists0, q)
    {
      assert ListOf(lists', q) == ListOf(lists, q);
    }
  }

  predicate Distinct(ids: seq<string>) {
    forall i, j :: 0 <= i < j < |ids| ==> ids[i] != ids[j]
  }
  /** The sweep has pushed each id of `due` not in `remaining`, once. */
  ghost predicate Progress(pushed: seq<string>, due: set<string>, remaining: set<string>) {
    && remaining <= due
    && Distinct(pushed)
    && forall x :: x in pushed <==> x in due && x !in remaining
  }

  /** `ids` lists each element of `s` exactly once. */
  ghost predicate ExactlyOnce(ids: seq<string>, s: set<string>) {
    Distinct(ids) && forall x :: x in ids <==> x in s
  }

  /** With nothing remaining, every due id was pushed, once. */
  lemma SweepDone(pushed: seq<string>, due: set<string>)
    requires Progress(pushed, due, {})
    ensures ExactlyOnce(pushed, due)
  {
  }

  /** Pushing one more remaining id keeps the bookkeeping. */
  lemma PushedOneMore(pushed: seq<string>, id: string, due: set<string>, remaining: set<string>)
    requires Progress(pushed, due, remaining) && id in remaining
    ensures Progress(pushed + [id], due, remaining - {id})
  {
  }

  // ---------------------------------------------------------------------

  class WebhookWorker {
    const db: Database
    const queue: RedisQueueService
    /** `app.webhook-retry-intervals-test`. */
    const testIntervals: bool
    /** HMAC-SHA256 of the payload's bytes under the secret's bytes. */
    const hmac: (Json, string) -> seq<byte>

    constructor (db: Database, queue: RedisQueueService, testIntervals: bool, hmac: (Json, string) -> seq<byte>)
      ensures this.db == db && this.queue == queue && this.testIntervals == testIntervals && this.hmac == hmac
    {
      this.db := db;
      this.queue := queue;
      this.testIntervals := testIntervals;
      this.hmac := hmac;
    }

    /** The request `attemptDelivery(id)` sends, if any. */
    function RequestFor(logs: map<string, WebhookLog>, merchants: map<string, Merchant>, id: string): Option<Request> {
      if id !in logs || logs[id].merchantId !in merchants then None
      else
        var log := logs[id];
        var m := merchants[log.merchantId];
        if !Configured(m) || m.webhookSecret.value == "" then None
        else Some(Request(m.webhookUrl.value, Hex(hmac(log.payload, m.webhookSecret.value)), log.payload))
    }

    /** `computeHmac(payload, secret)`; None is the exception an empty key
        raises. */
    method ComputeHmac(payload: Json, secret: string) returns (signature: Option<string>)
      ensures secret == "" <==> signature.None?
      ensures signature.Some? ==> signature.value == Hex(hmac(payload, secret))
      ensures signature.Some? ==> |signature.value| == 2 * |hmac(payload, secret)|
      ensures signature.Some? ==> Unhex(signature.value) == Some(hmac(payload, secret))
    {
      if secret == "" {
        return None;
      }
      var raw := hmac(payload, secret);
      var s := HexLower(raw);
      HexShape(raw);
      HexRoundTrip(raw);
      signature := Some(s);
    }

    /** `attemptDelivery(id)` at time `now`, with the endpoint's answer. */
    method AttemptDelivery(id: string, outcome: HttpOutcome, now: int) returns (sent: Option<Request>)
      modifies db
      ensures db.webhookLogs == AttemptResult(old(db.webhookLogs), db.merchants, id, outcome, now, testIntervals)
      ensures sent == RequestFor(old(db.webhookLogs), db.merchants, id)
      ensures db.payments == old(db.payments) && db.refunds == old(db.refunds) && db.merchants == old(db.merchants)
    {
      if id !in db.webhookLogs {
        return None;
      }
      var log := db.webhookLogs[id];
      if log.merchantId !in db.merchants {
        return None;
      }
      var m := db.merchants[log.merchantId];
      if m.webhookUrl.None? || m.webhookSecret.None? {
        db.webhookLogs := db.webhookLogs[id := MarkFailed(log, 0, NotConfigured)];
        return None;
      }
      var attempts := log.attempts + 1;
      var signature := ComputeHmac(log.payload, m.webhookSecret.value);
      if signature.None? {
        log := ScheduleRetry(log, attempts, now, testIntervals);
        sent := None;
      } else {
        sent := Some(Request(m.webhookUrl.value, signature.value, log.payload));
        match outcome
        case Threw =>
          log := ScheduleRetry(log, attempts, now, testIntervals);
        case Responded(code, body) =>
          log := log.(attempts := attempts, lastAttemptAt := Some(now), responseCode := Some(code), responseBody := body);
          if 200 <= code < 300 {
            log := log.(status := Success, nextRetryAt := None);
          } else {
            log := ScheduleRetry(log, attempts, now, testIntervals);
          }
      }
      assert log == Delivered(db.webhookLogs[id], m.webhookSecret.value, outcome, now, testIntervals);
      db.webhookLogs := db.webhookLogs[id := log];
    }

    /** `enqueueDueRetries` at time `now`: one job per due record, in the
        repository's order, which the model leaves open. */
    method EnqueueDueRetries(now: int) returns (pushed: seq<string>)
      modifies queue
      ensures ExactlyOnce(pushed, DuePending(db.webhookLogs, now))
      ensures Queued(queue.lists, QueueDeliverWebhook) == Queued(old(queue.lists), QueueDeliverWebhook) + DeliveryJobs(pushed)
      ensures forall q :: q != QueueDeliverWebhook ==> ListOf(queue.lists, q) == ListOf(old(queue.lists), q)
      ensures queue.values == EnqueuedTimes(old(queue.values), |pushed|)
      ensures queue.heartbeatExpiresAt == old(queue.heartbeatExpiresAt)
    {
      var due := DuePending(db.webhookLogs, now);
      var remaining := due;
      pushed := [];
      while remaining != {}
        invariant Progress(pushed, due, remaining)
        invariant Swept(old(queue.lists), old(queue.values), queue.lists, queue.values, pushed)
        invariant queue.heartbeatExpiresAt == old(queue.heartbeatExpiresAt)
        decreases remaining
      {
        var id :| id in remaining;
        SweptStep(old(queue.lists), old(queue.values), queue.lists, queue.values, pushed, id);
        PushedOneMore(pushed, id, due, remaining);
        var ok := queue.Enqueue(QueueDeliverWebhook, Fields(DeliveryJob(id)));
        pushed := pushed + [id];
        remaining := remaining - {id};
      }
      SweepDone(pushed, due);
    }

    /** One pass of `run` at time `now`; `outcome` is what the endpoint does
        if a request is sent. */
    method RunOnce(now: int, outcome: HttpOutcome) returns (it: Iteration)
      modifies db, queue
      ensures queue.heartbeatExpiresAt == Some(now + HeartbeatTtlSeconds)
      ensures it == Idle <==> Queued(old(queue.lists), QueueDeliverWebhook) == []
      ensures it == Idle ==> queue.lists == old(queue.lists) && db.webhookLogs == old(db.webhookLogs)
      ensures it != Idle ==>
        var job := Queued(old(queue.lists), QueueDeliverWebhook)[0];
        && queue.lists == RightPopRest(old(queue.lists), QueueDeliverWebhook)
        && (it == Errored <==> WebhookIdField !in job)
        && (it == Errored ==> db.webhookLogs == old(db.webhookLogs))
        && (it == Completed ==>
              db.webhookLogs == AttemptResult(old(db.webhookLogs), db.merchants, job[WebhookIdField], outcome, now, testIntervals))
      ensures queue.values == CountersAfter(old(queue.values), it, false)
      ensures db.payments == old(db.payments) && db.refunds == old(db.refunds) && db.merchants == old(db.merchants)
    {
      queue.SetWorkerHeartbeat(now);
      var job := queue.BlockingPop(QueueDeliverWebhook);
      if job.None? {
        queue.DecrProcessing();
        return Idle;
      }
      queue.IncrProcessing();
      if WebhookIdField !in job.value {
        queue.IncrFailed();
        queue.DecrProcessing();
        return Errored;
      }
      var sent := AttemptDelivery(job.value[WebhookIdField], outcome, now);
      queue.IncrCompleted();
      queue.DecrProcessing();
      it := Completed;
    }
  }
}
