/** The idempotent-response cache (`IdempotencyService`): a store of
    responses keyed by (client key, merchant), each kept for 24 hours from the
    moment it was saved and evicted lazily by the read that finds it expired
    or unreadable. */
module Idempotency {
  import opened Common

  /** Lifetime of a cached response. */
  const TtlSeconds: int := 24 * 60 * 60

  /** The composite primary key. */
  datatype CacheKey = CacheKey(key: string, merchantId: string)

  /** A stored response. `readable` is false when the stored text no longer
      parses as JSON. */
  datatype Entry = Entry(response: Json, readable: bool, createdAt: int, expiresAt: int)

  /** `expiresAt.isBefore(now)`: strictly earlier. */
  predicate Expired(e: Entry, now: int) {
    e.expiresAt < now
  }

  /** A lookup hits exactly when the entry exists, has not expired and
      parses. */
  predicate Hits(entries: map<CacheKey, Entry>, k: CacheKey, now: int) {
    k in entries && !Expired(entries[k], now) && entries[k].readable
  }

  /** What `findCached` returns. */
  function LookupResult(entries: map<CacheKey, Entry>, k: CacheKey, now: int): Option<Json> {
    if Hits(entries, k, now) then Some(entries[k].response) else None
  }

  /** The store after `findCached`: an entry that was present but did not hit
      is deleted. */
  function AfterLookup(entries: map<CacheKey, Entry>, k: CacheKey, now: int): map<CacheKey, Entry> {
    if k in entries && !Hits(entries, k, now) then entries - {k} else entries
  }

  /** The store after `save` at time `now`. */
  function Saved(entries: map<CacheKey, Entry>, k: CacheKey, response: Json, now: int): map<CacheKey, Entry> {
    entries[k := Entry(response, true, now, now + TtlSeconds)]
  }

  /** The object handed to `save`, as this service's own `ObjectMapper`
      sees it: one it can write as JSON, or one whose serialization throws
      (for instance a value of a `java.time` type, for which this mapper
      has no module registered). */
  datatype Response = Serializable(body: Json) | Unserializable

  /** The store after `save`, whichever way serialization went: a response
      the mapper cannot write stores nothing. */
  function AfterSave(entries: map<CacheKey, Entry>, k: CacheKey, response: Response, now: int): map<CacheKey, Entry> {
    match response
    case Serializable(body) => Saved(entries, k, body, now)
    case Unserializable => entries
  }

  /** A key never saved is a miss and nothing changes. */
  lemma MissOnAbsent(entries: map<CacheKey, Entry>, k: CacheKey, now: int)
    requires k !in entries
    ensures LookupResult(entries, k, now) == None && AfterLookup(entries, k, now) == entries
  {
  }

  /** Lookup either hits and changes nothing, or misses and leaves no entry
      behind for that key; other keys are never touched. */
  lemma LookupEvicts(entries: map<CacheKey, Entry>, k: CacheKey, now: int)
    ensures LookupResult(entries, k, now).Some? <==> Hits(entries, k, now)
    ensures LookupResult(entries, k, now).Some? ==> AfterLookup(entries, k, now) == entries
    ensures LookupResult(entries, k, now).None? ==> k !in AfterLookup(entries, k, now)
    ensures forall other :: other != k ==>
      (other in AfterLookup(entries, k, now) <==> other in entries)
  {
  }

  /** A saved response is returned until, and including, its expiry instant;
      after that a lookup misses and deletes it. */
  lemma SaveThenLookup(entries: map<CacheKey, Entry>, k: CacheKey, response: Json, savedAt: int, now: int)
    ensures now <= savedAt + TtlSeconds ==>
      LookupResult(Saved(entries, k, response, savedAt), k, now) == Some(response)
    ensures now > savedAt + TtlSeconds ==>
      LookupResult(Saved(entries, k, response, savedAt), k, now) == None
      && k !in AfterLookup(Saved(entries, k, response, savedAt), k, now)
  {
  }

  /** A second save for the same key replaces the first. */
  lemma SecondSaveWins(entries: map<CacheKey, Entry>, k: CacheKey, first: Json, second: Json, t1: int, t2: int, now: int)
    ensures Saved(Saved(entries, k, first, t1), k, second, t2) == Saved(entries, k, second, t2)
    ensures now <= t2 + TtlSeconds ==>
      LookupResult(Saved(Saved(entries, k, first, t1), k, second, t2), k, now) == Some(second)
  {
  }

  /** Only a response the mapper can write is cached: it is returned by a
      lookup at the same instant, while a failed save leaves the table as it
      was, so a key that had no entry still misses at every later time. */
  lemma SaveCachesOnlyWritable(entries: map<CacheKey, Entry>, k: CacheKey, response: Response, now: int, later: int)
    ensures response.Serializable? ==>
      LookupResult(AfterSave(entries, k, response, now), k, now) == Some(response.body)
    ensures response.Unserializable? ==> AfterSave(entries, k, response, now) == entries
    ensures response.Unserializable? && k !in entries ==>
      LookupResult(AfterSave(entries, k, response, now), k, later) == None
  {
  }

  /** Entries are independent: saving one key does not change what another
      key (the same client key of another merchant, say) looks up. */
  lemma KeysIndependent(entries: map<CacheKey, Entry>, k: CacheKey, other: CacheKey, response: Json, savedAt: int, now: int)
    requires other != k
    ensures LookupResult(Saved(entries, k, response, savedAt), other, now) == LookupResult(entries, other, now)
  {
  }

  class IdempotencyService {
    var entries: map<CacheKey, Entry>

    constructor ()
      ensures entries == map[]
    {
      entries := map[];
    }

    /** `findCached(merchantId, key)` at time `now`. */
    method FindCached(merchantId: string, key: string, now: int) returns (cached: Option<Json>)
      modifies this
      ensures cached == LookupResult(old(entries), CacheKey(key, merchantId), now)
      ensures entries == AfterLookup(old(entries), CacheKey(key, merchantId), now)
    {
      var k := CacheKey(key, merchantId);
      if k !in entries {
        return None;
      }
      var entry := entries[k];
      if entry.expiresAt < now {
        entries := entries - {k};
        return None;
      }
      if !entry.readable {
        entries := entries - {k};
        return None;
      }
      cached := Some(entry.response);
    }

    /** `save(merchantId, key, response)` at time `now`; `ok` is false
        where the source throws "Failed to store idempotency response"
        because the mapper could not write the response. */
    method Save(merchantId: string, key: string, response: Response, now: int) returns (ok: bool)
      modifies this
      ensures ok == response.Serializable?
      ensures entries == AfterSave(old(entries), CacheKey(key, merchantId), response, now)
      ensures ok ==> entries[CacheKey(key, merchantId)].createdAt == now
      ensures ok ==> entries[CacheKey(key, merchantId)].expiresAt == now + TtlSeconds
      ensures !ok ==> entries == old(entries)
    {
      if response.Unserializable? {
        return false;
      }
      entries := entries[CacheKey(key, merchantId) := Entry(response.body, true, now, now + TtlSeconds)];
      ok := true;
    }
  }
}
