/** The in-memory labour-rate cache: entries keyed by lower-cased region and
    job type, each stamped with the time it was stored and expired lazily on
    read once older than the time-to-live. Times are seconds, passed in by the
    caller in place of the wall clock. */
module RateCache {
  import opened Common

  datatype CacheEntry = CacheEntry(labourRate: real, timestamp: real)

  const SecondsPerHour: real := 3600.0
  const DefaultTtlHours: int := 24

  /** `_make_key`: lower-cased region and job type joined by a colon. */
  function MakeKey(region: string, jobType: string): (key: string)
    ensures key == Lower(region) + ":" + Lower(jobType)
    ensures |key| == |region| + 1 + |jobType| && key[|region|] == ':'
  {
    Lower(region) + ":" + Lower(jobType)
  }

  /** What a read of `key` at time `now` finds: the stored rate while the
      entry's age is at most the time-to-live, otherwise nothing. */
  function Lookup(entries: map<string, CacheEntry>, ttl: real, key: string, now: real): (r: Option<real>)
    ensures r.Some? <==> key in entries && now - entries[key].timestamp <= ttl
    ensures r.Some? ==> r.value == entries[key].labourRate
  {
    if key in entries && now - entries[key].timestamp <= ttl then Some(entries[key].labourRate) else None
  }

  class LabourRateCache {
    var entries: map<string, CacheEntry>
    /** The time-to-live in seconds. */
    const ttl: real

    /** `LabourRateCache(ttl_hours)`: empty, with the given time-to-live. */
    constructor(ttlHours: int)
      ensures entries == map[] && ttl == ttlHours as real * SecondsPerHour
    {
      entries := map[];
      ttl := ttlHours as real * SecondsPerHour;
    }

    /** `get`: the rate stored under the key while fresh. A stale entry is
        deleted, and only that entry; a missing key changes nothing. */
    method Get(region: string, jobType: string, now: real) returns (rate: Option<real>)
      modifies this
      ensures rate == Lookup(old(entries), ttl, MakeKey(region, jobType), now)
      ensures var key := MakeKey(region, jobType);
        entries == if key in old(entries) && rate.None? then old(entries) - {key} else old(entries)
    {
      var key := MakeKey(region, jobType);
      if key !in entries {
        return None;
      }
      var entry := entries[key];
      if now - entry.timestamp > ttl {
        entries := entries - {key};
        return None;
      }
      return Some(entry.labourRate);
    }

    /** `set`: store (or overwrite) the rate under the key, stamped `now`. */
    method Set(region: string, jobType: string, labourRate: real, now: real)
      modifies this
      ensures entries == old(entries)[MakeKey(region, jobType) := CacheEntry(labourRate, now)]
    {
      var key := MakeKey(region, jobType);
      entries := entries[key := CacheEntry(labourRate, now)];
    }

    /** `clear`: drop every entry. */
    method Clear()
      modifies this
      ensures entries == map[]
    {
      entries := map[];
    }
  }

  // ---------------------------------------------------------------------------
  // Properties

  /** Keys ignore letter case, so reads and writes do too. */
  lemma KeyIgnoresCase(region: string, jobType: string)
    ensures MakeKey(Upper(region), Upper(jobType)) == MakeKey(region, jobType)
    ensures MakeKey(Lower(region), Lower(jobType)) == MakeKey(region, jobType)
  {
    LowerOfUpper(region);
    LowerOfUpper(jobType);
    LowerIdempotent(region);
    LowerIdempotent(jobType);
  }

  /** Storing then reading at the same moment finds the stored rate (for a
      non-negative time-to-live), and storing leaves every other key's reads
      as they were. */
  lemma LookupAfterStore(entries: map<string, CacheEntry>, ttl: real, key: string,
                         rate: real, storedAt: real, other: string, now: real)
    requires ttl >= 0.0 && other != key
    ensures Lookup(entries[key := CacheEntry(rate, storedAt)], ttl, key, storedAt) == Some(rate)
    ensures Lookup(entries[key := CacheEntry(rate, storedAt)], ttl, other, now) == Lookup(entries, ttl, other, now)
  {
  }

  /** An entry whose age is exactly the time-to-live is still returned; any
      later read misses. */
  lemma ExpiryBoundary(entries: map<string, CacheEntry>, ttl: real, key: string, later: real)
    requires key in entries && later > entries[key].timestamp + ttl
    ensures Lookup(entries, ttl, key, entries[key].timestamp + ttl) == Some(entries[key].labourRate)
    ensures Lookup(entries, ttl, key, later) == None
  {
  }

  /** Once stale, an entry stays stale: a miss at one time is a miss at every
      later time. */
  lemma StaleStaysStale(entries: map<string, CacheEntry>, ttl: real, key: string, t: real, later: real)
    requires t <= later && Lookup(entries, ttl, key, t) == None
    ensures Lookup(entries, ttl, key, later) == None
  {
  }

  /** The process-wide instance: the default time-to-live of one day. */
  method NewDefaultCache() returns (cache: LabourRateCache)
    ensures fresh(cache) && cache.entries == map[] && cache.ttl == 86400.0
  {
    cache := new LabourRateCache(DefaultTtlHours);
  }
}
