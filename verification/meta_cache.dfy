/** The connection-metadata cache of the MySQL diagnostic processor: a map
    from the driver's connection id to the metadata resolved when that
    connection opened. Insertion is first-writer-wins and nothing is ever
    removed. */
module MetaCache {
  import opened Optional

  /** The C# `long` the driver uses as connection id. */
  newtype Int64 = x: int | -0x8000_0000_0000_0000 <= x < 0x8000_0000_0000_0000

  /** `MySqlMetaInfo`: the raw connection string and the database name and
      server extracted from it. */
  datatype MetaInfo = MetaInfo(connectionString: string, dbName: string, dbServer: string)

  type Cache = map<Int64, MetaInfo>

  const EmptyCache: Cache := map[]

  /** `CacheMySqlMetaInfo`: adds `info` under `key` unless `key` is already
      cached, in which case the cache is left as it is. */
  function CacheMetaInfo(cache: Cache, key: Int64, info: MetaInfo): (r: Cache)
    ensures key in cache ==> r == cache
    ensures key !in cache ==> r.Keys == cache.Keys + {key} && r[key] == info
    ensures forall k :: k in cache ==> k in r && r[k] == cache[k]
  {
    if key in cache then cache else cache[key := info]
  }

  /** `GetMySqlMetaInfo`: the cached entry for `key`, None (null) when
      there is none. */
  function GetMetaInfo(cache: Cache, key: Int64): (r: Option<MetaInfo>)
    ensures r.Some? <==> key in cache
    ensures r.Some? ==> r.value == cache[key]
  {
    if key in cache then Some(cache[key]) else None
  }

  /** A second insertion under the same key is a no-op: the first writer wins. */
  lemma FirstWriterWins(cache: Cache, key: Int64, first: MetaInfo, second: MetaInfo)
    requires key !in cache
    ensures CacheMetaInfo(CacheMetaInfo(cache, key, first), key, second)
            == CacheMetaInfo(cache, key, first)
    ensures GetMetaInfo(CacheMetaInfo(CacheMetaInfo(cache, key, first), key, second), key)
            == Some(first)
  {
  }

  /** Reading an entry after an insertion: the new entry is visible under its
      own key only if the key was free, and every other key reads as before. */
  lemma GetAfterCache(cache: Cache, key: Int64, info: MetaInfo, probe: Int64)
    ensures GetMetaInfo(CacheMetaInfo(cache, key, info), probe)
            == if probe == key && key !in cache then Some(info) else GetMetaInfo(cache, probe)
  {
  }
}
