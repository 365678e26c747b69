/**
  The benchmark cache of src/hooks/useBenchmarkCache.ts: benchmark texts
  kept in memory, keyed by the normalised project description, and served
  for thirty minutes after they were stored. Nothing evicts an entry; an old
  one is simply no longer served (lazy expiry). The clock is a parameter.
 */
module BenchmarkCaching {
  import opened Common

  /** CACHE_DURATION: thirty minutes, in milliseconds. */
  const CacheDuration: int := 30 * 60 * 1000

  datatype CacheEntry = CacheEntry(data: string, timestamp: int, description: string)

  /** The key both lookup and store use: `description.toLowerCase().trim()`. */
  function Key(description: string): (r: string)
    ensures |r| <= |description|
    ensures r == [] <==> IsBlank(description)
  {
    TrimLowerCommute(description);
    Trim(Lower(description))
  }

  /** What a lookup of `key` at time `now` finds in `entries`. */
  function Lookup(entries: map<string, CacheEntry>, key: string, now: int): (r: Option<string>)
    ensures r.Some? <==> key in entries && now - entries[key].timestamp < CacheDuration
    ensures r.Some? ==> r.value == entries[key].data
  {
    if key in entries && now - entries[key].timestamp < CacheDuration then Some(entries[key].data) else None
  }

  /** The map after `setCachedData(description, data)` at time `now`. */
  function Store(entries: map<string, CacheEntry>, description: string, data: string, now: int): (r: map<string, CacheEntry>)
    ensures Key(description) in r && r[Key(description)] == CacheEntry(data, now, description)
    ensures forall k :: k != Key(description) ==> (k in r <==> k in entries)
    ensures forall k :: k != Key(description) && k in entries ==> r[k] == entries[k]
  {
    entries[Key(description) := CacheEntry(data, now, description)]
  }

  class BenchmarkCache {
    var entries: map<string, CacheEntry>

    constructor ()
      ensures entries == map[]
    {
      entries := map[];
    }

    /** `getCachedData`: a read-only lookup under the normalised key. */
    function GetCachedData(description: string, now: int): (r: Option<string>)
      reads this
      ensures Key(description) !in entries ==> r == None
      ensures Key(description) in entries && now - entries[Key(description)].timestamp >= CacheDuration ==> r == None
      ensures Key(description) in entries && now - entries[Key(description)].timestamp < CacheDuration ==>
                r == Some(entries[Key(description)].data)
    {
      Lookup(entries, Key(description), now)
    }

    /** `setCachedData`: a copy of the map with the entry for the key replaced. */
    method SetCachedData(description: string, data: string, now: int)
      modifies this
      ensures entries == Store(old(entries), description, data, now)
    {
      var key := Key(description);
      var entry := CacheEntry(data, now, description);
      entries := entries[key := entry];
    }

    /** `clearCache`: a fresh empty map. */
    method ClearCache()
      modifies this
      ensures entries == map[]
    {
      entries := map[];
    }
  }

  /**
    Descriptions that differ only in letter case or in surrounding whitespace
    share one cache entry.
   */
  lemma SharedKey(s: string, t: string, w1: string, w2: string)
    requires Lower(s) == Lower(t)
    requires AllWhitespace(w1) && AllWhitespace(w2)
    ensures Key(w1 + s + w2) == Key(t)
  {
    LowerAppend(w1, s);
    LowerAppend(w1 + s, w2);
    assert Lower(w1 + s + w2) == Lower(w1) + Lower(t) + Lower(w2);
    TrimPadded(Lower(w1), Lower(t), Lower(w2));
  }

  /** The key is the trimmed text in lower case, whichever of the two is applied first. */
  lemma KeyIsLowerTrim(s: string)
    ensures Key(s) == Lower(Trim(s))
  {
    TrimLowerCommute(s);
  }

  /**
    Right after a store at time `t`, a lookup of any description with the same
    key finds the stored text exactly while fewer than thirty minutes have passed.
   */
  lemma GetAfterSet(entries: map<string, CacheEntry>, stored: string, asked: string, data: string, t: int, now: int)
    requires Key(asked) == Key(stored)
    ensures Lookup(Store(entries, stored, data, t), Key(asked), now) == (if now - t < CacheDuration then Some(data) else None)
  {
  }

  /** An entry thirty minutes old or older is not served although it is still in the map. */
  lemma ExpiredIsAbsent(entries: map<string, CacheEntry>, key: string, now: int)
    requires key in entries && now - entries[key].timestamp >= CacheDuration
    ensures Lookup(entries, key, now) == None
  {
  }

  /** A store touches only its own key: every other key is looked up as before. */
  lemma SetLeavesOtherKeys(entries: map<string, CacheEntry>, description: string, data: string, t: int, key: string, now: int)
    requires key != Key(description)
    ensures Store(entries, description, data, t)[Key(description)] == CacheEntry(data, t, description)
    ensures key in Store(entries, description, data, t) <==> key in entries
    ensures key in entries ==> Store(entries, description, data, t)[key] == entries[key]
    ensures Lookup(Store(entries, description, data, t), key, now) == Lookup(entries, key, now)
  {
  }

  /** After `clearCache` no description is found, and neither is a never-stored key. */
  lemma ClearedFindsNothing(key: string, now: int)
    ensures Lookup(map[], key, now) == None
  {
  }
}
