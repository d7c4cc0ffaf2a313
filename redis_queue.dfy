/** The work queue and the metric counters (`RedisQueueService`). Redis is
    modelled as a keyspace of lists (the three job queues), of string values
    (the counters, parsed as decimal numbers on every read and increment) and
    of the heartbeat key with its expiry time. */
module Queue {
  import opened Common

  const QueueProcessPayment: string := "queue:payment.process"
  const QueueDeliverWebhook: string := "queue:webhook.deliver"
  const QueueProcessRefund: string := "queue:refund.process"

  const PendingKey: string := "metrics:jobs:pending"
  const ProcessingKey: string := "metrics:jobs:processing"
  const CompletedKey: string := "metrics:jobs:completed"
  const FailedKey: string := "metrics:jobs:failed"

  /** Lifetime of the `worker:status` heartbeat key. */
  const HeartbeatTtlSeconds: int := 15

  const MinLong: int := -0x8000_0000_0000_0000
  const MaxLong: int := 0x7FFF_FFFF_FFFF_FFFF

  /** A job as it sits in a list: a flat JSON object of string fields. */
  type StoredJob = map<string, string>

  /** What a producer hands to `enqueue`: either fields the serializer can
      write, or a value it rejects. */
  datatype Payload = Fields(fields: map<string, string>) | Unwritable

  // ---------------------------------------------------------------------
  // Lists: LPUSH adds at the left end (index 0), RPOP takes the right end.

  /** The order in which RPOP hands out the elements of a list. */
  function PopOrder(l: seq<StoredJob>): seq<StoredJob> {
    if l == [] then [] else [l[|l| - 1]] + PopOrder(l[..|l| - 1])
  }

  /** LPUSH puts a job behind everything already waiting. */
  lemma {:induction false} PopOrderPush(l: seq<StoredJob>, x: StoredJob)
    ensures PopOrder([x] + l) == PopOrder(l) + [x]
    decreases |l|
  {
    if l == [] {
      assert [x] + l == [x];
      assert PopOrder([x]) == [x] + PopOrder([]);
    } else {
      var l' := [x] + l;
      assert l'[|l'| - 1] == l[|l| - 1];
      assert l'[..|l'| - 1] == [x] + l[..|l| - 1];
      PopOrderPush(l[..|l| - 1], x);
    }
  }

  /** RPOP hands out the head of the pop order and leaves its tail. */
  lemma PopOrderPop(l: seq<StoredJob>)
    requires l != []
    ensures PopOrder(l) != [] && PopOrder(l)[0] == l[|l| - 1]
    ensures PopOrder(l[..|l| - 1]) == PopOrder(l)[1..]
  {
  }

  /** LPUSH of each job of `xs`, in order. */
  function PushAll(l: seq<StoredJob>, xs: seq<StoredJob>): seq<StoredJob>
    decreases |xs|
  {
    if xs == [] then l else PushAll([xs[0]] + l, xs[1..])
  }

  /** FIFO: jobs pushed one after another come out in the order they went
      in, after the jobs that were already waiting. */
  lemma {:induction false} Fifo(l: seq<StoredJob>, xs: seq<StoredJob>)
    ensures PopOrder(PushAll(l, xs)) == PopOrder(l) + xs
    decreases |xs|
  {
    if xs != [] {
      Fifo([xs[0]] + l, xs[1..]);
      PopOrderPush(l, xs[0]);
      assert [xs[0]] + xs[1..] == xs;
    }
  }

  /** A list that does not exist reads as empty. */
  function ListOf(lists: map<string, seq<StoredJob>>, q: string): seq<StoredJob> {
    if q in lists then lists[q] else []
  }

  function LeftPush(lists: map<string, seq<StoredJob>>, q: string, x: StoredJob): map<string, seq<StoredJob>> {
    lists[q := [x] + ListOf(lists, q)]
  }

  /** The jobs of queue `q`, in the order `blockingPop` will return them. */
  function Queued(lists: map<string, seq<StoredJob>>, q: string): seq<StoredJob> {
    PopOrder(ListOf(lists, q))
  }

  /** LPUSH puts the job last in line on its own queue and leaves every
      other queue as it was. */
  lemma QueuedAfterPush(lists: map<string, seq<StoredJob>>, q: string, x: StoredJob)
    ensures Queued(LeftPush(lists, q, x), q) == Queued(lists, q) + [x]
    ensures forall other :: other != q ==> Queued(LeftPush(lists, q, x), other) == Queued(lists, other)
  {
    PopOrderPush(ListOf(lists, q), x);
  }

  /** The lists after RPOP on a non-empty list; Redis deletes a list that
      becomes empty. */
  function RightPopRest(lists: map<string, seq<StoredJob>>, q: string): map<string, seq<StoredJob>>
    requires ListOf(lists, q) != []
  {
    var l := ListOf(lists, q);
    var rest := l[..|l| - 1];
    if rest == [] then lists - {q} else lists[q := rest]
  }

  // ---------------------------------------------------------------------
  // Decimal values, as `Long.parseLong` reads them and Redis writes them.

  predicate AllDigits(s: string) {
    forall i :: 0 <= i < |s| ==> '0' <= s[i] <= '9'
  }

  function DigitsValue(s: string): nat
    requires AllDigits(s)
  {
    if s == [] then 0 else DigitsValue(s[..|s| - 1]) * 10 + (s[|s| - 1] as int - '0' as int)
  }

  /** `Long.parseLong`: an optional sign, at least one digit, and a value in
      the 64-bit range; anything else is a `NumberFormatException`. */
  function ParseLong(s: string): Option<int> {
    if s == [] then None
    else
      var digits := if s[0] == '-' || s[0] == '+' then s[1..] else s;
      if digits == [] || !AllDigits(digits) then None
      else
        var v := if s[0] == '-' then -(DigitsValue(digits) as int) else DigitsValue(digits) as int;
        if MinLong <= v <= MaxLong then Some(v) else None
  }

  /** How Redis reads a stored value for INCRBY and DECRBY (`string2ll`):
      "0", or an optional minus sign, a digit from 1 to 9 and more digits,
      in the 64-bit range. Unlike `Long.parseLong` it refuses a plus sign,
      leading zeros and "-0". */
  function RedisInt(s: string): Option<int> {
    if s == "0" then Some(0)
    else
      var digits := if |s| > 0 && s[0] == '-' then s[1..] else s;
      if digits == [] || !AllDigits(digits) || digits[0] == '0' then None
      else
        var v := if s[0] == '-' then -(DigitsValue(digits) as int) else DigitsValue(digits) as int;
        if MinLong <= v <= MaxLong then Some(v) else None
  }

  /** Every value Redis accepts as an integer `Long.parseLong` reads the
      same way. */
  lemma RedisIntParses(s: string)
    requires RedisInt(s).Some?
    ensures ParseLong(s) == RedisInt(s)
  {
    if s == "0" {
      assert AllDigits(s) && DigitsValue(s) == DigitsValue(s[..0]) * 10 + 0;
    }
  }

  /** A value both readers disagree on: `getCounter` reads "007" as 7, but
      Redis refuses to increment it. */
  lemma LeadingZeroRefused()
    ensures ParseLong("007") == Some(7)
    ensures RedisInt("007") == None
  {
    var s := "007";
    assert AllDigits(s);
    assert s[..2][..1][..0] == [];
    assert DigitsValue(s[..2][..1]) == 0;
    assert s[..2][..1] == s[..1];
    assert DigitsValue(s[..2]) == 0;
    assert DigitsValue(s) == 7;
  }

  function DigitChar(d: int): char
    requires 0 <= d < 10
  {
    ('0' as int + d) as char
  }

  function NatToDigits(n: nat): string
    decreases n
  {
    if n < 10 then [DigitChar(n)] else NatToDigits(n / 10) + [DigitChar(n % 10)]
  }

  /** The decimal rendering of a number, as Redis stores a counter. */
  function LongToString(n: int): string {
    if n < 0 then "-" + NatToDigits(-n) else NatToDigits(n)
  }

  /** The rendering is a non-empty digit string that reads back as the
      number, with no leading zero. */
  lemma {:induction false} DigitsRoundTrip(n: nat)
    ensures NatToDigits(n) != [] && AllDigits(NatToDigits(n))
    ensures DigitsValue(NatToDigits(n)) == n
    ensures n >= 1 ==> NatToDigits(n)[0] != '0'
    decreases n
  {
    if n >= 10 {
      DigitsRoundTrip(n / 10);
      var d := NatToDigits(n / 10);
      var s := d + [DigitChar(n % 10)];
      assert s[..|s| - 1] == d;
      assert DigitsValue(s) == DigitsValue(d) * 10 + n % 10;
      assert s[0] == d[0];
    }
  }

  /** A rendered number parses back to itself. */
  lemma ParseRendered(n: int)
    requires MinLong <= n <= MaxLong
    ensures ParseLong(LongToString(n)) == Some(n)
  {
    if n < 0 {
      DigitsRoundTrip(-n);
      var s := LongToString(n);
      assert s[0] == '-' && s[1..] == NatToDigits(-n);
    } else {
      DigitsRoundTrip(n);
      var s := LongToString(n);
      assert '0' <= s[0] <= '9';
    }
  }

  /** Redis reads a rendered number back as itself: the rendering has no
      plus sign and no leading zero. */
  lemma RedisRendered(n: int)
    requires MinLong <= n <= MaxLong
    ensures RedisInt(LongToString(n)) == Some(n)
  {
    var s := LongToString(n);
    if n < 0 {
      DigitsRoundTrip(-n);
      var d := NatToDigits(-n);
      assert s[0] == '-' && s[1..] == d && d[0] != '0';
      assert s != "0";
    } else if n == 0 {
      assert s == "0";
    } else {
      DigitsRoundTrip(n);
      assert s != "0" by { assert s[0] != '0'; }
    }
  }

  // ---------------------------------------------------------------------
  // Counters.

  function Get(values: map<string, string>, key: string): Option<string> {
    if key in values then Some(values[key]) else None
  }

  /** INCRBY: an absent key counts as 0; a value Redis does not read as an
      integer, or a result outside the 64-bit range, is an error (None). */
  function IncrBy(v: Option<string>, delta: int): Option<string> {
    match v
    case None => if MinLong <= delta <= MaxLong then Some(LongToString(delta)) else None
    case Some(s) =>
      match RedisInt(s)
      case None => None
      case Some(n) => if MinLong <= n + delta <= MaxLong then Some(LongToString(n + delta)) else None
  }

  /** The values after an increment; a rejected increment changes nothing. */
  function Bumped(values: map<string, string>, key: string, delta: int): map<string, string> {
    match IncrBy(Get(values, key), delta)
    case None => values
    case Some(s) => values[key := s]
  }

  /** The values after a producer's `enqueue`, if it made one. */
  function Enqueued(values: map<string, string>, enqueued: bool): map<string, string> {
    if enqueued then Bumped(values, PendingKey, 1) else values
  }

  /** `getCounter`: 0 for an absent or non-numeric value, else the number. */
  function Counter(values: map<string, string>, key: string): int {
    match Get(values, key)
    case None => 0
    case Some(s) =>
      match ParseLong(s)
      case None => 0
      case Some(n) => n
  }

  /** The key holds a number (or nothing) that `delta` keeps in range. */
  predicate CanBump(values: map<string, string>, key: string, delta: int) {
    match Get(values, key)
    case None => MinLong <= delta <= MaxLong
    case Some(s) => RedisInt(s).Some? && MinLong <= RedisInt(s).value + delta <= MaxLong
  }

  /** An accepted increment adds `delta` to the counter and leaves every
      other key alone; a rejected one changes nothing at all. */
  lemma BumpAdds(values: map<string, string>, key: string, delta: int)
    ensures CanBump(values, key, delta) ==> Counter(Bumped(values, key, delta), key) == Counter(values, key) + delta
    ensures !CanBump(values, key, delta) ==> Bumped(values, key, delta) == values
  {
    if CanBump(values, key, delta) {
      if key in values {
        RedisIntParses(values[key]);
      }
      var n := Counter(values, key) + delta;
      assert IncrBy(Get(values, key), delta) == Some(LongToString(n));
      assert Bumped(values, key, delta) == values[key := LongToString(n)];
      ParseRendered(n);
    }
  }

  /** Increments at other keys leave a counter's stored value alone. */
  lemma BumpElsewhere(values: map<string, string>, key: string, delta: int, other: string)
    requires other != key
    ensures Get(Bumped(values, key, delta), other) == Get(values, other)
  {
  }

  // ---------------------------------------------------------------------
  // Heartbeat.

  /** A key set with an expiry time is readable up to and including it. */
  predicate Alive(expiresAt: Option<int>, now: int) {
    expiresAt.Some? && now <= expiresAt.value
  }

  /** The heartbeat is reported running for exactly the lifetime after it
      was last set. */
  lemma HeartbeatWindow(setAt: int, now: int)
    ensures Alive(Some(setAt + HeartbeatTtlSeconds), now) <==> now <= setAt + 15
  {
  }

  class RedisQueueService {
    /** The lists, by key; a list's head (index 0) is its left end. */
    var lists: map<string, seq<StoredJob>>
    /** The string values, by key: the counters. */
    var values: map<string, string>
    /** When the `worker:status` key expires; None if it was never set. */
    var heartbeatExpiresAt: Option<int>

    constructor ()
      ensures lists == map[] && values == map[] && heartbeatExpiresAt == None
    {
      lists := map[];
      values := map[];
      heartbeatExpiresAt := None;
    }

    /** The jobs of a queue, in the order `blockingPop` will return them. */
    ghost function Jobs(q: string): seq<StoredJob>
      reads this
    {
      Queued(lists, q)
    }

    /** LLEN: a missing list has length 0. */
    function Depth(q: string): nat
      reads this
    {
      |ListOf(lists, q)|
    }

    /** `enqueue`: serialize, push on the left, count one more pending job.
        A payload the serializer rejects changes nothing and is reported. */
    method Enqueue(queue: string, payload: Payload) returns (ok: bool)
      modifies this
      ensures ok == payload.Fields?
      ensures ok ==> lists == LeftPush(old(lists), queue, payload.fields)
      ensures ok ==> values == Bumped(old(values), PendingKey, 1)
      ensures ok ==> Jobs(queue) == old(Jobs(queue)) + [payload.fields]
      ensures ok ==> Depth(queue) == old(Depth(queue)) + 1
      ensures !ok ==> lists == old(lists) && values == old(values)
      ensures heartbeatExpiresAt == old(heartbeatExpiresAt)
    {
      if payload.Unwritable? {
        return false;
      }
      QueuedAfterPush(lists, queue, payload.fields);
      lists := LeftPush(lists, queue, payload.fields);
      values := Bumped(values, PendingKey, 1);
      ok := true;
    }

    /** `blockingPop` after its timeout: the oldest job, or None when the
        queue is empty, in which case nothing changes. */
    method BlockingPop(queue: string) returns (job: Option<StoredJob>)
      modifies this
      ensures old(Jobs(queue)) == [] ==> job == None && lists == old(lists)
      ensures old(Jobs(queue)) != [] ==>
        job == Some(old(Jobs(queue))[0]) && Jobs(queue) == old(Jobs(queue))[1..]
        && lists == RightPopRest(old(lists), queue)
      ensures forall other :: other != queue ==> ListOf(lists, other) == ListOf(old(lists), other)
      ensures values == old(values) && heartbeatExpiresAt == old(heartbeatExpiresAt)
    {
      var l := ListOf(lists, queue);
      if l == [] {
        return None;
      }
      PopOrderPop(l);
      job := Some(l[|l| - 1]);
      lists := RightPopRest(lists, queue);
    }

    /** `pendingCount`: the jobs waiting in the three queues. */
    method PendingCount() returns (n: int)
      ensures n == Depth(QueueProcessPayment) + Depth(QueueDeliverWebhook) + Depth(QueueProcessRefund)
    {
      var a := if QueueProcessPayment in lists then |lists[QueueProcessPayment]| else 0;
      var b := if QueueDeliverWebhook in lists then |lists[QueueDeliverWebhook]| else 0;
      var c := if QueueProcessRefund in lists then |lists[QueueProcessRefund]| else 0;
      n := a + b + c;
    }

    method IncrProcessing()
      modifies this
      ensures values == Bumped(old(values), ProcessingKey, 1)
      ensures lists == old(lists) && heartbeatExpiresAt == old(heartbeatExpiresAt)
    {
      values := Bumped(values, ProcessingKey, 1);
    }

    method DecrProcessing()
      modifies this
      ensures values == Bumped(old(values), ProcessingKey, -1)
      ensures lists == old(lists) && heartbeatExpiresAt == old(heartbeatExpiresAt)
    {
      values := Bumped(values, ProcessingKey, -1);
    }

    method IncrCompleted()
      modifies this
      ensures values == Bumped(old(values), CompletedKey, 1)
      ensures lists == old(lists) && heartbeatExpiresAt == old(heartbeatExpiresAt)
    {
      values := Bumped(values, CompletedKey, 1);
    }

    method IncrFailed()
      modifies this
      ensures values == Bumped(old(values), FailedKey, 1)
      ensures lists == old(lists) && heartbeatExpiresAt == old(heartbeatExpiresAt)
    {
      values := Bumped(values, FailedKey, 1);
    }

    /** `getCounter`. */
    method GetCounter(key: string) returns (n: int)
      ensures n == Counter(values, key)
    {
      if key !in values {
        return 0;
      }
      var parsed := ParseLong(values[key]);
      n := if parsed.Some? then parsed.value else 0;
    }

    /** `setWorkerHeartbeat`: (re)set the key with a 15-second lifetime. */
    method SetWorkerHeartbeat(now: int)
      modifies this
      ensures heartbeatExpiresAt == Some(now + HeartbeatTtlSeconds)
      ensures lists == old(lists) && values == old(values)
    {
      heartbeatExpiresAt := Some(now + HeartbeatTtlSeconds);
    }

    /** `getWorkerStatus`. */
    method GetWorkerStatus(now: int) returns (status: string)
      ensures status == if Alive(heartbeatExpiresAt, now) then "running" else "stopped"
    {
      var present := heartbeatExpiresAt.Some? && now <= heartbeatExpiresAt.value;
      status := if present then "running" else "stopped";
    }
  }
}
