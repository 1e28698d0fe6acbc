/** The browser-side JSON cache with a time-to-live (lib/clientCache.ts). In a
    browser the entries live in local storage under a prefixed key, serialised;
    elsewhere in a module-level map. The clock reading and the network answer
    are parameters. */
module ClientCache {
  import opened Common

  const PREFIX := "client-json-cache:"
  const DEFAULT_TTL_MS := 300000

  datatype CacheEntry<D> = CacheEntry(ts: int, data: D)

  /** The text stored under a local-storage key: a serialised entry, or text
      that does not parse back into one. A key holding nothing, or the empty
      string, is absent from the map. */
  datatype Raw<D> = Parsable(entry: CacheEntry<D>) | Garbage

  /** The answer of `fetch`: its status and the parsed JSON body. */
  datatype Reply<D> = Reply(status: int, data: D)

  /** What cachedFetchJSON resolves to: the cached data, freshly fetched data,
      or the error it throws on a non-ok status. */
  datatype Outcome<D> = Hit(data: D) | Fetched(data: D) | Threw(status: int)

  /** The local-storage key of a cache key. */
  function StorageKey(key: string): (k: string)
    ensures |k| == |PREFIX| + |key| && k[..|PREFIX|] == PREFIX && k[|PREFIX|..] == key
  {
    PREFIX + key
  }

  /** Distinct cache keys never share a storage key. */
  lemma StorageKeyInjective(k1: string, k2: string)
    requires StorageKey(k1) == StorageKey(k2)
    ensures k1 == k2
  {
    assert k1 == StorageKey(k1)[|PREFIX|..];
  }

  /** readStorage: the entry under a key, or None when there is none or when the
      stored text does not parse. */
  function Read<D>(inBrowser: bool, memory: map<string, CacheEntry<D>>, storage: map<string, Raw<D>>, key: string): (r: Option<CacheEntry<D>>)
    ensures !inBrowser ==> (r.Some? <==> key in memory)
    ensures inBrowser ==> (r.Some? <==> StorageKey(key) in storage && storage[StorageKey(key)].Parsable?)
    ensures !inBrowser && key in memory ==> r == Some(memory[key])
    ensures inBrowser && StorageKey(key) in storage && storage[StorageKey(key)].Parsable? ==>
      r == Some(storage[StorageKey(key)].entry)
  {
    if !inBrowser then
      if key in memory then Some(memory[key]) else None
    else if StorageKey(key) !in storage then None
    else match storage[StorageKey(key)]
      case Parsable(e) => Some(e)
      case Garbage => None
  }

  /** Whether an entry read at time `now` is served from the cache. */
  predicate Fresh<D>(e: CacheEntry<D>, now: int, ttlMs: int) {
    now - e.ts < ttlMs
  }

  /** A written entry is read back unchanged under its key, and every other
      key reads as before. */
  lemma ReadAfterWrite<D>(inBrowser: bool, memory: map<string, CacheEntry<D>>, storage: map<string, Raw<D>>,
                          key: string, e: CacheEntry<D>, other: string)
    ensures !inBrowser ==> Read(inBrowser, memory[key := e], storage, key) == Some(e)
    ensures inBrowser ==> Read(inBrowser, memory, storage[StorageKey(key) := Parsable(e)], key) == Some(e)
    ensures other != key ==>
      && Read(inBrowser, memory[key := e], storage, other) == Read(inBrowser, memory, storage, other)
      && Read(inBrowser, memory, storage[StorageKey(key) := Parsable(e)], other) == Read(inBrowser, memory, storage, other)
  {
    if other != key && StorageKey(other) == StorageKey(key) {
      StorageKeyInjective(other, key);
    }
  }

  /** An invalidated key reads as absent, and every other key reads as before. */
  lemma ReadAfterInvalidate<D>(inBrowser: bool, memory: map<string, CacheEntry<D>>, storage: map<string, Raw<D>>,
                               key: string, other: string)
    ensures Read(inBrowser, memory - {key}, storage - {StorageKey(key)}, key).None?
    ensures other != key ==>
      Read(inBrowser, memory - {key}, storage - {StorageKey(key)}, other) == Read(inBrowser, memory, storage, other)
  {
    if other != key && StorageKey(other) == StorageKey(key) {
      StorageKeyInjective(other, key);
    }
  }

  /** The cache as one page sees it: whether it runs in a browser, the
      in-memory map, and local storage (all of it, including keys that belong
      to other parts of the application). */
  class JsonCache<D> {
    const inBrowser: bool
    var memory: map<string, CacheEntry<D>>
    var storage: map<string, Raw<D>>

    constructor (inBrowser: bool, storage: map<string, Raw<D>>)
      ensures this.inBrowser == inBrowser && this.storage == storage && memory == map[]
    {
      this.inBrowser := inBrowser;
      this.storage := storage;
      memory := map[];
    }

    function ReadStorage(key: string): (r: Option<CacheEntry<D>>)
      reads this
      ensures r == Read(inBrowser, memory, storage, key)
    {
      Read(inBrowser, memory, storage, key)
    }

    /** writeStorage: the entry goes to the in-memory map outside a browser, and
        to local storage, serialised under the prefixed key, in one. */
    method WriteStorage(key: string, entry: CacheEntry<D>)
      modifies this
      ensures !inBrowser ==> memory == old(memory)[key := entry] && storage == old(storage)
      ensures inBrowser ==> storage == old(storage)[StorageKey(key) := Parsable(entry)] && memory == old(memory)
    {
      if !inBrowser {
        memory := memory[key := entry];
        return;
      }
      storage := storage[StorageKey(key) := Parsable(entry)];
    }

    /** invalidateCache: removes the one key from wherever entries live. */
    method InvalidateCache(key: string)
      modifies this
      ensures !inBrowser ==> memory == old(memory) - {key} && storage == old(storage)
      ensures inBrowser ==> storage == old(storage) - {StorageKey(key)} && memory == old(memory)
    {
      if !inBrowser {
        memory := memory - {key};
        return;
      }
      storage := storage - {StorageKey(key)};
    }

    /** cachedFetchJSON: a fresh cached entry is answered without fetching;
        otherwise a non-ok reply throws and writes nothing, and an ok reply is
        stored stamped with the time read before the fetch, and answered. The
        write touches the one map entry or storage slot of `url` and nothing
        else, so every other key reads as before. */
    method CachedFetchJSON(url: string, nowTs: int, reply: Reply<D>, ttlMs: int := DEFAULT_TTL_MS)
      returns (r: Outcome<D>)
      modifies this
      ensures var e := old(ReadStorage(url));
        if e.Some? && Fresh(e.value, nowTs, ttlMs) then
          r == Hit(e.value.data) && memory == old(memory) && storage == old(storage)
        else if !OkStatus(reply.status) then
          r == Threw(reply.status) && memory == old(memory) && storage == old(storage)
        else
          && r == Fetched(reply.data)
          && (!inBrowser ==> memory == old(memory)[url := CacheEntry(nowTs, reply.data)] && storage == old(storage))
          && (inBrowser ==>
                storage == old(storage)[StorageKey(url) := Parsable(CacheEntry(nowTs, reply.data))]
                && memory == old(memory))
          && ReadStorage(url) == Some(CacheEntry(nowTs, reply.data))
          && forall k :: k != url ==> ReadStorage(k) == old(ReadStorage(k))
    {
      var entry := ReadStorage(url);
      if entry.Some? && nowTs - entry.value.ts < ttlMs {
        return Hit(entry.value.data);
      }
      if !OkStatus(reply.status) {
        return Threw(reply.status);
      }
      var e := CacheEntry(nowTs, reply.data);
      forall k | k != url
        ensures Read(inBrowser, if inBrowser then memory else memory[url := e],
                     if inBrowser then storage[StorageKey(url) := Parsable(e)] else storage, k)
             == Read(inBrowser, memory, storage, k)
      {
        ReadAfterWrite(inBrowser, memory, storage, url, e, k);
      }
      ReadAfterWrite(inBrowser, memory, storage, url, e, url);
      WriteStorage(url, e);
      r := Fetched(reply.data);
    }
  }
}
