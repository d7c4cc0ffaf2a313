/** The counter bookkeeping that the three worker loops share. One pass
    sets the heartbeat, polls its queue, and, when a job arrived, counts it
    as processing, then as completed or failed. The decrement of
    `processing` sits in a `finally` block, which also runs when an empty
    poll leaves the pass early through `continue`. */
module WorkerLoop {
  import opened Common
  import opened Queue

  /** How one pass of a worker loop ended. */
  datatype Iteration = Idle | Completed | Errored

  /** After the job was popped: `incrProcessing`. */
  function Started(values: map<string, string>): map<string, string> {
    Bumped(values, ProcessingKey, 1)
  }

  /** The counter a handled job adds to. */
  function Tally(ok: bool): string {
    if ok then CompletedKey else FailedKey
  }

  /** The end of a pass that handled a job: `incrCompleted` or `incrFailed`,
      then the `finally` block's `decrProcessing`. */
  function Finished(values: map<string, string>, ok: bool): map<string, string> {
    Bumped(Bumped(values, Tally(ok), 1), ProcessingKey, -1)
  }

  /** The counters after one pass; `Idle` is an empty poll, which skips
      the body but still runs the `finally` block. `enqueued` says whether
      the handled job pushed one more job (a webhook) on the way. */
  function CountersAfter(values: map<string, string>, it: Iteration, enqueued: bool): map<string, string> {
    match it
    case Idle => Bumped(values, ProcessingKey, -1)
    case Completed => Finished(Enqueued(Started(values), enqueued), true)
    case Errored => Finished(Enqueued(Started(values), enqueued), false)
  }

  /** A counter holds a number with room for one step up and one step
      down (or is absent). */
  predicate Roomy(values: map<string, string>, key: string) {
    match Get(values, key)
    case None => true
    case Some(s) => RedisInt(s).Some? && MinLong < RedisInt(s).value < MaxLong
  }

  /** All three job counters are roomy. */
  predicate CountersRoomy(values: map<string, string>) {
    Roomy(values, ProcessingKey) && Roomy(values, CompletedKey) && Roomy(values, FailedKey)
  }

  /** Stepping a roomy counter by one is accepted, and the new value can be
      stepped back. */
  lemma StepOnce(values: map<string, string>, key: string, delta: int)
    requires Roomy(values, key) && (delta == 1 || delta == -1)
    ensures CanBump(values, key, delta)
    ensures Counter(Bumped(values, key, delta), key) == Counter(values, key) + delta
    ensures CanBump(Bumped(values, key, delta), key, -delta)
  {
    if key in values {
      RedisIntParses(values[key]);
    }
    BumpAdds(values, key, delta);
    var n := Counter(values, key) + delta;
    RedisRendered(n);
    assert Get(Bumped(values, key, delta), key) == Some(LongToString(n));
  }

  /** The value a counter reads as, and whether another step of `delta`
      would be accepted, depend only on the key's stored value. */
  lemma SameStored(a: map<string, string>, b: map<string, string>, key: string)
    requires Get(a, key) == Get(b, key)
    ensures Counter(a, key) == Counter(b, key)
    ensures Roomy(a, key) == Roomy(b, key)
    ensures forall d :: CanBump(a, key, d) == CanBump(b, key, d)
  {
  }

  /** The first half of a handled pass: `incrProcessing`, then what the
      job enqueued. */
  lemma StartAndEnqueue(values: map<string, string>, enqueued: bool)
    requires Roomy(values, ProcessingKey)
    ensures var m := Enqueued(Started(values), enqueued);
      && Counter(m, ProcessingKey) == Counter(values, ProcessingKey) + 1
      && CanBump(m, ProcessingKey, -1)
      && Get(m, PendingKey) == Get(Enqueued(values, enqueued), PendingKey)
      && forall other :: other != ProcessingKey && other != PendingKey ==> Get(m, other) == Get(values, other)
  {
    var v1 := Started(values);
    StepOnce(values, ProcessingKey, 1);
    BumpElsewhere(values, ProcessingKey, 1, PendingKey);
    if enqueued {
      BumpElsewhere(v1, PendingKey, 1, ProcessingKey);
      BumpElsewhere(values, PendingKey, 1, ProcessingKey);
      SameStored(v1, Enqueued(v1, enqueued), ProcessingKey);
    }
  }

  /** The second half: the tally increment and the `finally` block's
      decrement. */
  lemma TallyAndFinish(m: map<string, string>, tally: string)
    requires tally != ProcessingKey && tally != PendingKey
    requires Roomy(m, tally) && CanBump(m, ProcessingKey, -1)
    ensures var after := Bumped(Bumped(m, tally, 1), ProcessingKey, -1);
      && Counter(after, ProcessingKey) == Counter(m, ProcessingKey) - 1
      && Counter(after, tally) == Counter(m, tally) + 1
      && forall other :: other != ProcessingKey && other != tally ==> Get(after, other) == Get(m, other)
  {
    var v2 := Bumped(m, tally, 1);
    StepOnce(m, tally, 1);
    BumpElsewhere(m, tally, 1, ProcessingKey);
    SameStored(m, v2, ProcessingKey);
    BumpAdds(v2, ProcessingKey, -1);
    BumpElsewhere(v2, ProcessingKey, -1, tally);
    SameStored(v2, Bumped(v2, ProcessingKey, -1), tally);
  }

  /** Counting one job up on `processing`, possibly one up on `pending`,
      one up on `tally` and one down on `processing` leaves `processing`
      where it was, adds one to `tally`, and changes no key but `pending`
      besides. */
  lemma UpTallyDown(values: map<string, string>, tally: string, enqueued: bool)
    requires tally != ProcessingKey && tally != PendingKey
    requires Roomy(values, ProcessingKey) && Roomy(values, tally)
    ensures var after := Finished(Enqueued(Started(values), enqueued), tally == CompletedKey);
      tally == CompletedKey || tally == FailedKey ==>
      && Counter(after, ProcessingKey) == Counter(values, ProcessingKey)
      && Counter(after, tally) == Counter(values, tally) + 1
      && Get(after, PendingKey) == Get(Enqueued(values, enqueued), PendingKey)
      && forall other :: other != ProcessingKey && other != tally && other != PendingKey ==>
           Get(after, other) == Get(values, other)
  {
    var m := Enqueued(Started(values), enqueued);
    StartAndEnqueue(values, enqueued);
    SameStored(values, m, tally);
    TallyAndFinish(m, tally);
  }

  /** One pass moves `processing` by -1 on an empty poll and back to where
      it was otherwise, and adds one to `completed` or to `failed` for a
      handled job; `pending` moves only by what the job enqueued. */
  lemma IterationCounters(values: map<string, string>, it: Iteration, enqueued: bool)
    requires CountersRoomy(values)
    ensures Counter(CountersAfter(values, it, enqueued), ProcessingKey)
      == Counter(values, ProcessingKey) - (if it.Idle? then 1 else 0)
    ensures Counter(CountersAfter(values, it, enqueued), CompletedKey)
      == Counter(values, CompletedKey) + (if it.Completed? then 1 else 0)
    ensures Counter(CountersAfter(values, it, enqueued), FailedKey)
      == Counter(values, FailedKey) + (if it.Errored? then 1 else 0)
    ensures Get(CountersAfter(values, it, enqueued), PendingKey)
      == Get(if it.Idle? then values else Enqueued(values, enqueued), PendingKey)
  {
    match it
    case Idle =>
      StepOnce(values, ProcessingKey, -1);
    case Completed =>
      UpTallyDown(values, CompletedKey, enqueued);
    case Errored =>
      UpTallyDown(values, FailedKey, enqueued);
  }

  /** `k` empty polls in a row. */
  function IdlePolls(values: map<string, string>, k: nat): map<string, string>
    decreases k
  {
    if k == 0 then values else IdlePolls(CountersAfter(values, Idle, false), k - 1)
  }

  /** A step that stays strictly inside the 64-bit range keeps the counter
      roomy. */
  lemma StepStaysRoomy(values: map<string, string>, key: string, delta: int)
    requires Roomy(values, key) && (delta == 1 || delta == -1)
    requires MinLong < Counter(values, key) + delta < MaxLong
    ensures Roomy(Bumped(values, key, delta), key)
    ensures Counter(Bumped(values, key, delta), key) == Counter(values, key) + delta
  {
    if key in values {
      RedisIntParses(values[key]);
    }
    var n := Counter(values, key) + delta;
    assert Bumped(values, key, delta) == values[key := LongToString(n)];
    RedisRendered(n);
    ParseRendered(n);
  }

  /** An idle worker lowers `processing` by one every poll: the gauge
      drifts below zero as long as no job arrives. */
  lemma {:induction false} IdleDrift(values: map<string, string>, k: nat)
    requires Roomy(values, ProcessingKey)
    requires MinLong + k < Counter(values, ProcessingKey)
    ensures Roomy(IdlePolls(values, k), ProcessingKey)
    ensures Counter(IdlePolls(values, k), ProcessingKey) == Counter(values, ProcessingKey) - k
    decreases k
  {
    if k > 0 {
      StepStaysRoomy(values, ProcessingKey, -1);
      IdleDrift(CountersAfter(values, Idle, false), k - 1);
    }
  }
}
