/**
 * The traffic ingestor's repository: writes a reading to the relational
 * store, then the serialized reading to the cache under the reading's
 * "latest per location" key, with no expiration. The two writes are not
 * atomic: a cache failure after a successful insert leaves the row.
 *
 * Each backend call takes its outcome as a parameter, and JSON encoding is
 * the parameter `marshal` (None when encoding fails).
 */
module IngestorRepository {
  import opened Models

  const CacheKeyPrefix := "latest_traffic:"

  /** The cache key holding the latest reading of a location. */
  function CacheKey(locationId: string): (key: string)
    ensures |key| == |CacheKeyPrefix| + |locationId|
    ensures key[..|CacheKeyPrefix|] == CacheKeyPrefix
    ensures key[|CacheKeyPrefix|..] == locationId
  {
    CacheKeyPrefix + locationId
  }

  /** Different locations never share a cache key. */
  lemma CacheKeyInjective(a: string, b: string)
    ensures CacheKey(a) == CacheKey(b) <==> a == b
  {
    if CacheKey(a) == CacheKey(b) {
      assert a == CacheKey(a)[|CacheKeyPrefix|..];
    }
  }

  /** An expiration of 0 means the entry lives until it is overwritten. */
  const NoExpiration: int := 0

  datatype CacheEntry = CacheEntry(value: Bytes, expiration: int)

  datatype StoreError = DatabaseFailed | EncodeFailed | CacheFailed

  /** The ingestor's view of the readings table and the cache. */
  class TrafficRepository {
    /** The rows of the readings table, in insertion order. */
    var rows: seq<TrafficData>
    /** The cache, key by key. */
    var cache: map<string, CacheEntry>

    constructor (rows: seq<TrafficData>, cache: map<string, CacheEntry>)
      ensures this.rows == rows && this.cache == cache
    {
      this.rows := rows;
      this.cache := cache;
    }

    /** One insert into the readings table; `ok` is whether the database accepts it. */
    method Create(data: TrafficData, ok: bool) returns (created: bool)
      modifies this`rows
      ensures created == ok
      ensures rows == if ok then old(rows) + [data] else old(rows)
    {
      if ok {
        rows := rows + [data];
      }
      created := ok;
    }

    /** One cache write; `ok` is whether the cache accepts it. */
    method SetCache(key: string, value: Bytes, expiration: int, ok: bool) returns (written: bool)
      modifies this`cache
      ensures written == ok
      ensures cache == if ok then old(cache)[key := CacheEntry(value, expiration)] else old(cache)
    {
      if ok {
        cache := cache[key := CacheEntry(value, expiration)];
      }
      written := ok;
    }

    /**
     * Inserts the reading, then caches its serialization under its
     * location's key. A failed insert returns at once with the cache
     * untouched; a failed encoding or cache write after the insert returns
     * its error and leaves the row in place. On success exactly one cache key
     * is (over)written, with no expiration, and every other key is unchanged.
     */
    method StoreTrafficData(data: TrafficData, dbOk: bool, marshal: TrafficData -> Option<Bytes>, cacheOk: bool)
      returns (err: Option<StoreError>)
      modifies this
      ensures rows == if dbOk then old(rows) + [data] else old(rows)
      ensures !dbOk ==> err == Some(DatabaseFailed) && cache == old(cache)
      ensures dbOk && marshal(data).None? ==> err == Some(EncodeFailed) && cache == old(cache)
      ensures dbOk && marshal(data).Some? && !cacheOk ==> err == Some(CacheFailed) && cache == old(cache)
      ensures err.None? <==> dbOk && marshal(data).Some? && cacheOk
      ensures err.None? ==>
        cache == old(cache)[CacheKey(data.locationId) := CacheEntry(marshal(data).value, NoExpiration)]
      ensures forall k :: k != CacheKey(data.locationId) ==>
        (k in cache <==> k in old(cache)) && (k in cache ==> cache[k] == old(cache)[k])
    {
      var created := Create(data, dbOk);
      if !created {
        return Some(DatabaseFailed);
      }
      var key := CacheKey(data.locationId);
      var val := marshal(data);
      if val.None? {
        return Some(EncodeFailed);
      }
      var written := SetCache(key, val.value, NoExpiration, cacheOk);
      if !written {
        return Some(CacheFailed);
      }
      return None;
    }
  }
}
