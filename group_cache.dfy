/**
 * GroupCacheImpl: the three group caches (by id, by name, by UUID), whose
 * evictions are replicated to the other nodes when replication is enabled.
 */
module GroupCache {
  import opened Events
  import opened Coordination
  import opened CacheProcessor

  const BYID_NAME: string := "groups"
  const BYNAME_NAME: string := "groups_byname"
  const BYUUID_NAME: string := "groups_byuuid"

  datatype InternalGroup = InternalGroup(id: int, name: string, uuid: string)

  /** The key object handed to the outgoing cache feed: AccountGroup.Id, AccountGroup.NameKey or AccountGroup.UUID. */
  datatype GroupKey = GroupId(id: int) | GroupNameKey(name: string) | GroupUuidKey(uuid: string)

  /** A replicateEvictionFromCache request to the outgoing cache feed. */
  datatype ReplicatedEviction = ReplicatedEviction(cacheName: string, key: GroupKey)

  /**
   * LoadingCache.get: the cached value if present; otherwise the loader's,
   * stored for next time.  `loaded` is None when the loader fails, which
   * get reports as an empty result and stores nothing.
   */
  function Load<K>(m: map<K, Option<InternalGroup>>, key: K, loaded: Option<Option<InternalGroup>>)
    : (r: (map<K, Option<InternalGroup>>, Option<InternalGroup>))
    ensures key in m ==> r == (m, m[key])
    ensures key !in m && loaded.None? ==> r == (m, None)
    ensures key !in m && loaded.Some? ==> r == (m[key := loaded.value], loaded.value)
  {
    if key in m then (m, m[key])
    else if loaded.None? then (m, None)
    else (m[key := loaded.value], loaded.value)
  }

  /** Once loaded, a key's value is returned again without consulting the loader. */
  lemma LoadedValueIsReused<K>(m: map<K, Option<InternalGroup>>, key: K,
                             first: Option<InternalGroup>, later: Option<Option<InternalGroup>>)
    ensures var (m', v) := Load(m, key, Some(first));
      Load(m', key, later) == (m', v)
  {
  }

  /** After an eviction the next get consults the loader again instead of the evicted value. */
  lemma EvictedKeyIsReloaded<K>(m: map<K, Option<InternalGroup>>, key: K, loaded: Option<InternalGroup>)
    ensures Load(m - {key}, key, Some(loaded)).1 == loaded
  {
  }

  class GroupCacheImpl {
    const coordinator: Coordinator
    const cacheProcessor: IncomingCacheEventProcessor
    /** The three caches as the cache processor sees them. */
    const byIdHandle: CacheHandle
    const byNameHandle: CacheHandle
    const byUuidHandle: CacheHandle
    var byId: map<int, Option<InternalGroup>>
    var byName: map<string, Option<InternalGroup>>
    var byUUID: map<string, Option<InternalGroup>>
    var replicatedEvictions: seq<ReplicatedEviction>

    /** The constructor attaches the caches to replication. */
    constructor (coordinator: Coordinator, cacheProcessor: IncomingCacheEventProcessor,
                 byIdHandle: CacheHandle, byNameHandle: CacheHandle, byUuidHandle: CacheHandle)
      modifies cacheProcessor`caches
      ensures this.coordinator == coordinator && this.cacheProcessor == cacheProcessor
      ensures this.byIdHandle == byIdHandle && this.byNameHandle == byNameHandle && this.byUuidHandle == byUuidHandle
      ensures byId == map[] && byName == map[] && byUUID == map[] && replicatedEvictions == []
      ensures !coordinator.enabled ==> cacheProcessor.caches == old(cacheProcessor.caches)
      ensures coordinator.enabled ==> cacheProcessor.caches == old(cacheProcessor.caches)
        [BYID_NAME := byIdHandle][BYNAME_NAME := byNameHandle][BYUUID_NAME := byUuidHandle]
    {
      this.coordinator := coordinator;
      this.cacheProcessor := cacheProcessor;
      this.byIdHandle := byIdHandle;
      this.byNameHandle := byNameHandle;
      this.byUuidHandle := byUuidHandle;
      byId := map[];
      byName := map[];
      byUUID := map[];
      replicatedEvictions := [];
      new;
      AttachToReplication();
    }

    /** attachToReplication: watches exactly the three caches when replication is enabled, nothing otherwise. */
    method AttachToReplication()
      modifies cacheProcessor`caches
      ensures !coordinator.enabled ==> cacheProcessor.caches == old(cacheProcessor.caches)
      ensures coordinator.enabled ==> cacheProcessor.caches == old(cacheProcessor.caches)
        [BYID_NAME := byIdHandle][BYNAME_NAME := byNameHandle][BYUUID_NAME := byUuidHandle]
    {
      if !coordinator.IsReplicationEnabled() {
        return;
      }
      cacheProcessor.WatchCache(BYID_NAME, byIdHandle);
      cacheProcessor.WatchCache(BYNAME_NAME, byNameHandle);
      cacheProcessor.WatchCache(BYUUID_NAME, byUuidHandle);
    }

    /** replicateEvictionFromCache: forwarded to the outgoing cache feed only when replication is enabled. */
    method ReplicateEvictionFromCache(name: string, key: GroupKey)
      modifies this`replicatedEvictions
      ensures replicatedEvictions == old(replicatedEvictions) + (if coordinator.enabled then [ReplicatedEviction(name, key)] else [])
    {
      if coordinator.IsReplicationEnabled() {
        replicatedEvictions := replicatedEvictions + [ReplicatedEviction(name, key)];
      }
    }

    /** get(AccountGroup.Id): there is no null guard, so a null id reaches the cache and throws. */
    method GetById(groupId: Option<int>, loaded: Option<Option<InternalGroup>>) returns (r: Result<Option<InternalGroup>>)
      modifies this`byId
      ensures groupId.None? ==> r == Err(NullPointer) && byId == old(byId)
      ensures groupId.Some? ==> r.Ok? && (byId, r.value) == Load(old(byId), groupId.value, loaded)
    {
      if groupId.None? {
        return Err(NullPointer);
      }
      var (m, v) := Load(byId, groupId.value, loaded);
      byId := m;
      r := Ok(v);
    }

    /** get(AccountGroup.NameKey): empty for a null name, without touching the cache. */
    method GetByName(name: Option<string>, loaded: Option<Option<InternalGroup>>) returns (r: Option<InternalGroup>)
      modifies this`byName
      ensures name.None? ==> r == None && byName == old(byName)
      ensures name.Some? ==> (byName, r) == Load(old(byName), name.value, loaded)
    {
      if name.None? {
        return None;
      }
      var (m, v) := Load(byName, name.value, loaded);
      byName := m;
      r := v;
    }

    /** get(AccountGroup.UUID): empty for a null UUID, without touching the cache. */
    method GetByUuid(groupUuid: Option<string>, loaded: Option<Option<InternalGroup>>) returns (r: Option<InternalGroup>)
      modifies this`byUUID
      ensures groupUuid.None? ==> r == None && byUUID == old(byUUID)
      ensures groupUuid.Some? ==> (byUUID, r) == Load(old(byUUID), groupUuid.value, loaded)
    {
      if groupUuid.None? {
        return None;
      }
      var (m, v) := Load(byUUID, groupUuid.value, loaded);
      byUUID := m;
      r := v;
    }

    /** evict(AccountGroup.Id): nothing for null; otherwise invalidate, then replicate under "groups". */
    method EvictById(groupId: Option<int>)
      modifies this`byId, this`replicatedEvictions
      ensures groupId.None? ==> byId == old(byId) && replicatedEvictions == old(replicatedEvictions)
      ensures groupId.Some? ==>
        && byId == old(byId) - {groupId.value}
        && replicatedEvictions == old(replicatedEvictions)
             + (if coordinator.enabled then [ReplicatedEviction(BYID_NAME, GroupId(groupId.value))] else [])
    {
      if groupId.Some? {
        byId := byId - {groupId.value};
        ReplicateEvictionFromCache(BYID_NAME, GroupId(groupId.value));
      }
    }

    /** evict(AccountGroup.NameKey): nothing for null; invalidate the name's string, replicate the name key. */
    method EvictByName(groupName: Option<string>)
      modifies this`byName, this`replicatedEvictions
      ensures groupName.None? ==> byName == old(byName) && replicatedEvictions == old(replicatedEvictions)
      ensures groupName.Some? ==>
        && byName == old(byName) - {groupName.value}
        && replicatedEvictions == old(replicatedEvictions)
             + (if coordinator.enabled then [ReplicatedEviction(BYNAME_NAME, GroupNameKey(groupName.value))] else [])
    {
      if groupName.Some? {
        byName := byName - {groupName.value};
        ReplicateEvictionFromCache(BYNAME_NAME, GroupNameKey(groupName.value));
      }
    }

    /** evict(AccountGroup.UUID): the replicating form of EvictByUuid. */
    method EvictByUuidReplicated(groupUuid: Option<string>)
      modifies this`byUUID, this`replicatedEvictions
      ensures groupUuid.None? ==> byUUID == old(byUUID) && replicatedEvictions == old(replicatedEvictions)
      ensures groupUuid.Some? ==>
        && byUUID == old(byUUID) - {groupUuid.value}
        && replicatedEvictions == old(replicatedEvictions)
             + (if coordinator.enabled then [ReplicatedEviction(BYUUID_NAME, GroupUuidKey(groupUuid.value))] else [])
    {
      EvictByUuid(groupUuid, true);
    }

    /** evict(AccountGroup.UUID, shouldReplicate): always invalidates, replicates only when asked to. */
    method EvictByUuid(groupUuid: Option<string>, shouldReplicate: bool)
      modifies this`byUUID, this`replicatedEvictions
      ensures groupUuid.None? ==> byUUID == old(byUUID) && replicatedEvictions == old(replicatedEvictions)
      ensures groupUuid.Some? ==>
        && byUUID == old(byUUID) - {groupUuid.value}
        && replicatedEvictions == old(replicatedEvictions)
             + (if shouldReplicate && coordinator.enabled then [ReplicatedEviction(BYUUID_NAME, GroupUuidKey(groupUuid.value))] else [])
    {
      if groupUuid.Some? {
        byUUID := byUUID - {groupUuid.value};
        if shouldReplicate {
          ReplicateEvictionFromCache(BYUUID_NAME, GroupUuidKey(groupUuid.value));
        }
      }
    }
  }
}
