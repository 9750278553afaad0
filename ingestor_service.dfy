/**
 * The traffic ingestor's service: store the reading (database, then cache),
 * serialize it and publish it to the log, aborting at the first error and
 * undoing nothing. The reading is stored exactly as received: this path
 * performs no field validation.
 */
module IngestorService {
  import opened Models
  import opened IngestorRepository

  datatype IngestError = StoreFailed(store: StoreError) | MessageEncodeFailed | PublishFailed

  /** The ingestion service, with the repository it stores through and the log it publishes to. */
  class IngestService {
    const repo: TrafficRepository
    /** The payloads appended to the log, in order. */
    var published: seq<Bytes>

    constructor (repo: TrafficRepository)
      ensures this.repo == repo && published == []
    {
      this.repo := repo;
      published := [];
    }

    /** One write of a single message to the log; `ok` is whether the broker accepts it. */
    method WriteMessages(value: Bytes, ok: bool) returns (written: bool)
      modifies this`published
      ensures written == ok
      ensures published == if ok then old(published) + [value] else old(published)
    {
      if ok {
        published := published + [value];
      }
      written := ok;
    }

    /**
     * Store, then publish. A store failure is returned with nothing
     * published; a publish failure is returned with the row and the cache
     * entry left in place; success means both happened, and the published
     * payload is the value cached for the reading's location.
     */
    method ProcessTrafficData(data: TrafficData, dbOk: bool, cacheOk: bool, marshal: TrafficData -> Option<Bytes>, publishOk: bool)
      returns (err: Option<IngestError>)
      modifies this, repo
      ensures repo.rows == if dbOk then old(repo.rows) + [data] else old(repo.rows)
      ensures repo.cache ==
        if dbOk && marshal(data).Some? && cacheOk
        then old(repo.cache)[CacheKey(data.locationId) := CacheEntry(marshal(data).value, NoExpiration)]
        else old(repo.cache)
      ensures !(dbOk && marshal(data).Some? && cacheOk) ==> published == old(published)
      ensures !dbOk ==> err == Some(StoreFailed(DatabaseFailed))
      ensures dbOk && marshal(data).None? ==> err == Some(StoreFailed(EncodeFailed))
      ensures dbOk && marshal(data).Some? && !cacheOk ==> err == Some(StoreFailed(CacheFailed))
      ensures dbOk && marshal(data).Some? && cacheOk ==>
        published == old(published) + (if publishOk then [marshal(data).value] else [])
      ensures dbOk && marshal(data).Some? && cacheOk && !publishOk ==> err == Some(PublishFailed)
      ensures err.None? <==> dbOk && marshal(data).Some? && cacheOk && publishOk
      ensures err != Some(MessageEncodeFailed)
      ensures err.None? ==>
        published[|published| - 1] == repo.cache[CacheKey(data.locationId)].value
    {
      var storeErr := repo.StoreTrafficData(data, dbOk, marshal, cacheOk);
      if storeErr.Some? {
        return Some(StoreFailed(storeErr.value));
      }
      var msg := marshal(data);
      // The repository has just encoded the same reading with the same
      // encoder, so this branch cannot be taken; an encoding failure is
      // reported by the repository, after the insert.
      if msg.None? {
        return Some(MessageEncodeFailed);
      }
      var written := WriteMessages(msg.value, publishOk);
      if !written {
        return Some(PublishFailed);
      }
      return None;
    }
  }
}
