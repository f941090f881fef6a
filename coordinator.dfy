/**
 * ReplicatedEventsCoordinatorImpl: owns the processor registry (one
 * processor per origin, shared by every coordinator), the outgoing queue,
 * the lifecycle of the workers and the cache-eviction gate.
 */
module Coordination {
  import opened Events

  /** The processors that subscribe for an origin. */
  datatype ProcessorId =
    | IndexProcessor
    | AccountUserIndexProcessor
    | AccountGroupIndexProcessor
    | CacheProcessor
    | ProjectProcessor
    | ProjectIndexProcessor
    | StreamProcessor
    | ProjectsIndexManager
    | OtherProcessor(name: string)

  /** The origin each built-in processor subscribes for on construction. */
  function SubscribedOrigin(p: ProcessorId): Option<Origin>
  {
    match p
    case IndexProcessor => Some(IndexEvent)
    case AccountUserIndexProcessor => Some(AccountUserIndexEvent)
    case AccountGroupIndexProcessor => Some(AccountGroupIndexEvent)
    case CacheProcessor => Some(CacheEvent)
    case ProjectProcessor => Some(DeleteProjectEvent)
    case ProjectIndexProcessor => Some(ProjectsIndexEvent)
    case StreamProcessor => Some(ReplicatedStreamEvent)
    case ProjectsIndexManager => Some(ProjectsIndexEvent)
    case OtherProcessor(_) => None
  }

  /** Map.putIfAbsent: the entry for `o` is added only when there is none. */
  function PutIfAbsent(m: map<Origin, ProcessorId>, o: Origin, p: ProcessorId): (r: map<Origin, ProcessorId>)
    ensures o in r && r[o] == (if o in m then m[o] else p)
    ensures forall k :: k != o ==> (k in r <==> k in m)
    ensures forall k :: k in m ==> k in r && r[k] == m[k]
  {
    if o in m then m else m[o := p]
  }

  /** A later subscriber for the same origin never displaces the first one. */
  lemma FirstSubscriberWins(m: map<Origin, ProcessorId>, o: Origin, first: ProcessorId, later: seq<ProcessorId>)
    requires o !in m
    ensures SubscribeAll(PutIfAbsent(m, o, first), o, later)[o] == first
  {
    if later != [] {
      FirstSubscriberWins(m, o, first, later[..|later| - 1]);
    }
  }

  /** The registry after each of `ps` subscribed in turn for `o`. */
  function SubscribeAll(m: map<Origin, ProcessorId>, o: Origin, ps: seq<ProcessorId>): (r: map<Origin, ProcessorId>)
    ensures r.Keys == m.Keys + (if ps == [] then {} else {o})
  {
    if ps == [] then m else PutIfAbsent(SubscribeAll(m, o, ps[..|ps| - 1]), o, ps[|ps| - 1])
  }

  /** Unsubscribing whatever processor is named removes the origin's entry; subscribing again re-adds. */
  lemma UnsubscribeForgetsSubscriber(m: map<Origin, ProcessorId>, o: Origin, p: ProcessorId, q: ProcessorId)
    ensures PutIfAbsent(PutIfAbsent(m, o, p) - {o}, o, q)[o] == q
    ensures PutIfAbsent(m, o, p) - {o} == m - {o}
  {
  }

  /** The static map from origin to the processor that handles it. */
  class ProcessorRegistry {
    var processors: map<Origin, ProcessorId>

    constructor ()
      ensures processors == map[]
    {
      processors := map[];
    }

    /** subscribeEvent: putIfAbsent. */
    method Subscribe(eventType: Origin, processor: ProcessorId)
      modifies this
      ensures processors == PutIfAbsent(old(processors), eventType, processor)
    {
      processors := PutIfAbsent(processors, eventType, processor);
    }

    /** unsubscribeEvent: removes by origin only; the processor argument plays no part. */
    method Unsubscribe(eventType: Origin, processor: ProcessorId)
      modifies this
      ensures processors == old(processors) - {eventType}
      ensures eventType !in old(processors) ==> processors == old(processors)
    {
      processors := processors - {eventType};
    }

    predicate IsSubscribed(eventType: Origin)
      reads this
    {
      eventType in processors
    }
  }

  /** The directories for replicated events, created in this order on start-up. */
  datatype EventDirectories = EventDirectories(incoming: string, outgoing: string, incomingFailed: string)

  function DirectoryOrder(d: EventDirectories): seq<string>
  {
    [d.incoming, d.outgoing, d.incomingFailed]
  }

  /**
   * The directories created while ensuring each of `order` in turn, and the
   * first one that could neither be found nor created (after which nothing
   * more is attempted).
   */
  function EnsureAll(order: seq<string>, existing: set<string>, creatable: set<string>): (r: (set<string>, Option<string>))
  {
    if order == [] then ({}, None)
    else if order[0] in existing then EnsureAll(order[1..], existing, creatable)
    else if order[0] in creatable then
      var (created, failure) := EnsureAll(order[1..], existing, creatable);
      ({order[0]} + created, failure)
    else ({}, Some(order[0]))
  }

  /** Index of the first directory that neither exists nor can be created, or |order| if there is none. */
  function FirstUncreatable(order: seq<string>, existing: set<string>, creatable: set<string>): (k: nat)
    ensures k <= |order|
    ensures forall i :: 0 <= i < k ==> order[i] in existing || order[i] in creatable
    ensures k < |order| ==> order[k] !in existing && order[k] !in creatable
  {
    if order == [] || (order[0] !in existing && order[0] !in creatable) then 0
    else 1 + FirstUncreatable(order[1..], existing, creatable)
  }

  /**
   * Start-up fails exactly at the first directory that can be neither found
   * nor created; the directories created are the missing ones before it, and
   * none after it.
   */
  lemma {:induction false} EnsureAllStopsAtFirstFailure(order: seq<string>, existing: set<string>, creatable: set<string>)
    ensures var k := FirstUncreatable(order, existing, creatable);
      && EnsureAll(order, existing, creatable).0 == (set x | x in order[..k] && x !in existing)
      && EnsureAll(order, existing, creatable).1 == (if k < |order| then Some(order[k]) else None)
  {
    var k := FirstUncreatable(order, existing, creatable);
    if order != [] && (order[0] in existing || order[0] in creatable) {
      var rest := order[1..];
      EnsureAllStopsAtFirstFailure(rest, existing, creatable);
      assert k == 1 + FirstUncreatable(rest, existing, creatable);
      assert order[..k] == [order[0]] + rest[..k - 1];
      assert (set x | x in order[..k] && x !in existing)
        == (if order[0] in existing then {} else {order[0]}) + (set x | x in rest[..k - 1] && x !in existing);
    }
  }

  /** The vanilla server configuration: the memoryLimit set for each cache section that sets one. */
  type ServerConfig = map<string, int>

  /** getLong("cache", cacheName, "memoryLimit", 4096). */
  function MemoryLimit(config: ServerConfig, cacheName: string): int
  {
    if cacheName in config then config[cacheName] else 4096
  }

  /** A cache is evicted on replication unless a server configuration is present and disables it (memoryLimit 0). */
  function IsCacheToBeEvicted(config: Option<ServerConfig>, cacheName: string): (r: bool)
    ensures !r <==> config.Some? && cacheName in config.value && config.value[cacheName] == 0
    ensures config == None ==> r
  {
    !(config.Some? && MemoryLimit(config.value, cacheName) == 0)
  }

  /** The handle of an injector-provided singleton. */
  datatype Instance = Instance(id: nat)

  /** The replication thread pool. */
  datatype Scheduling = NoScheduling | SchedulingCreated | SchedulingRunning | SchedulingStopped

  /** The outgoing feeds the coordinator creates when replication is enabled. */
  datatype FeedId = IndexFeed | CacheFeed | ProjectFeed | AccountBaseIndexFeed | ProjectIndexFeed

  /** The seven processors an enabled coordinator creates, in construction order. */
  const ALL_PROCESSORS: seq<ProcessorId> := [IndexProcessor, AccountUserIndexProcessor,
    AccountGroupIndexProcessor, CacheProcessor, ProjectProcessor, ProjectIndexProcessor, StreamProcessor]

  /** The five processors that stop() shuts down; the group-index and project-index ones are not among them. */
  const STOPPED_PROCESSORS: seq<ProcessorId> := [CacheProcessor, AccountUserIndexProcessor,
    ProjectProcessor, StreamProcessor, IndexProcessor]

  /** The origins released by stop(). */
  function StoppedOrigins(): (r: set<Origin>)
    ensures AccountGroupIndexEvent !in r && ProjectsIndexEvent !in r
    ensures |r| == 5
  {
    var r := {CacheEvent, AccountUserIndexEvent, DeleteProjectEvent, ReplicatedStreamEvent, IndexEvent};
    assert r == {CacheEvent, AccountUserIndexEvent, DeleteProjectEvent} + {ReplicatedStreamEvent, IndexEvent};
    r
  }

  /** The registry after each processor of `ps` subscribed for its origin. */
  function SubscribeProcessors(m: map<Origin, ProcessorId>, ps: seq<ProcessorId>): map<Origin, ProcessorId>
  {
    if ps == [] then m
    else
      var m' := SubscribeProcessors(m, ps[..|ps| - 1]);
      var p := ps[|ps| - 1];
      if SubscribedOrigin(p).Some? then PutIfAbsent(m', SubscribedOrigin(p).value, p) else m'
  }

  /** One more processor subscribing: the registry grows by that processor's putIfAbsent. */
  lemma {:induction false} SubscribeOneMore(m: map<Origin, ProcessorId>, ps: seq<ProcessorId>, k: nat)
    requires k < |ps| && SubscribedOrigin(ps[k]).Some?
    ensures SubscribeProcessors(m, ps[..k + 1])
            == PutIfAbsent(SubscribeProcessors(m, ps[..k]), SubscribedOrigin(ps[k]).value, ps[k])
  {
    assert ps[..k + 1][..k] == ps[..k];
  }

  /** The registry after the first four processors subscribed into an empty one. */
  lemma FirstFourSubscribed()
    ensures SubscribeProcessors(map[], ALL_PROCESSORS[..4])
            == map[IndexEvent := IndexProcessor, AccountUserIndexEvent := AccountUserIndexProcessor,
                   AccountGroupIndexEvent := AccountGroupIndexProcessor, CacheEvent := CacheProcessor]
  {
    var ps := ALL_PROCESSORS;
    var m0: map<Origin, ProcessorId> := map[];
    assert SubscribeProcessors(m0, ps[..0]) == m0;
    var m1 := m0[IndexEvent := IndexProcessor];
    SubscribeOneMore(m0, ps, 0);
    assert SubscribeProcessors(m0, ps[..1]) == m1;
    var m2 := m1[AccountUserIndexEvent := AccountUserIndexProcessor];
    SubscribeOneMore(m0, ps, 1);
    assert SubscribeProcessors(m0, ps[..2]) == m2;
    var m3 := m2[AccountGroupIndexEvent := AccountGroupIndexProcessor];
    SubscribeOneMore(m0, ps, 2);
    assert SubscribeProcessors(m0, ps[..3]) == m3;
    SubscribeOneMore(m0, ps, 3);
  }

  /** The registry after the first six processors subscribed into an empty one. */
  lemma FirstSixSubscribed()
    ensures SubscribeProcessors(map[], ALL_PROCESSORS[..6])
            == map[IndexEvent := IndexProcessor, AccountUserIndexEvent := AccountUserIndexProcessor,
                   AccountGroupIndexEvent := AccountGroupIndexProcessor, CacheEvent := CacheProcessor,
                   DeleteProjectEvent := ProjectProcessor, ProjectsIndexEvent := ProjectIndexProcessor]
  {
    var m0: map<Origin, ProcessorId> := map[];
    FirstFiveSubscribed();
    SubscribeOneMore(m0, ALL_PROCESSORS, 5);
  }

  /** The registry after the first five processors subscribed into an empty one. */
  lemma FirstFiveSubscribed()
    ensures SubscribeProcessors(map[], ALL_PROCESSORS[..5])
            == map[IndexEvent := IndexProcessor, AccountUserIndexEvent := AccountUserIndexProcessor,
                   AccountGroupIndexEvent := AccountGroupIndexProcessor, CacheEvent := CacheProcessor,
                   DeleteProjectEvent := ProjectProcessor]
  {
    var m0: map<Origin, ProcessorId> := map[];
    FirstFourSubscribed();
    SubscribeOneMore(m0, ALL_PROCESSORS, 4);
  }

  /** The registry after all seven processors subscribed into an empty one: each holds its own origin. */
  lemma AllSevenSubscribed()
    ensures SubscribeProcessors(map[], ALL_PROCESSORS)
            == map[IndexEvent := IndexProcessor, AccountUserIndexEvent := AccountUserIndexProcessor,
                   AccountGroupIndexEvent := AccountGroupIndexProcessor, CacheEvent := CacheProcessor,
                   DeleteProjectEvent := ProjectProcessor, ProjectsIndexEvent := ProjectIndexProcessor,
                   ReplicatedStreamEvent := StreamProcessor]
  {
    var m0: map<Origin, ProcessorId> := map[];
    FirstSixSubscribed();
    SubscribeOneMore(m0, ALL_PROCESSORS, 6);
    assert ALL_PROCESSORS[..7] == ALL_PROCESSORS;
  }

  /**
   * Starting from an empty registry and stopping again leaves only the
   * group-index and project-index processors subscribed.
   */
  lemma StopLeavesGroupAndProjectIndexSubscribed()
    ensures SubscribeProcessors(map[], ALL_PROCESSORS) - StoppedOrigins()
            == map[AccountGroupIndexEvent := AccountGroupIndexProcessor, ProjectsIndexEvent := ProjectIndexProcessor]
  {
    AllSevenSubscribed();
  }

  /** Each processor of ALL_PROCESSORS, as it is constructed, subscribes for its origin. */
  method SubscribeAllProcessors(registry: ProcessorRegistry)
    modifies registry
    ensures registry.processors == SubscribeProcessors(old(registry.processors), ALL_PROCESSORS)
  {
    var i := 0;
    while i < |ALL_PROCESSORS|
      invariant 0 <= i <= |ALL_PROCESSORS|
      invariant registry.processors == SubscribeProcessors(old(registry.processors), ALL_PROCESSORS[..i])
    {
      var p := ALL_PROCESSORS[i];
      registry.Subscribe(SubscribedOrigin(p).value, p);
      assert ALL_PROCESSORS[..i + 1][..i] == ALL_PROCESSORS[..i];
      i := i + 1;
    }
    assert ALL_PROCESSORS[..i] == ALL_PROCESSORS;
  }

  class Coordinator {
    const enabled: bool
    const nodeIdentity: string
    const registry: ProcessorRegistry
    /** The sys-injector's singletons, handed out on the first lazy lookup. */
    const injectorBroker: Instance
    const injectorStreamFeed: Instance

    /** gerritVanillaServerConfig. */
    var serverConfig: Option<ServerConfig>
    /** The outgoing worker's queue (absent, i.e. a null worker, when replication is disabled). */
    var outgoing: seq<EventWrapper>
    var processorsCreated: seq<ProcessorId>
    var feedsCreated: set<FeedId>
    var workersCreated: bool
    var scheduling: Scheduling
    var eventBroker: Option<Instance>
    var streamFeed: Option<Instance>
    /** How many times the sys-injector was asked for an instance. */
    var injectorLookups: nat

    /**
     * The constructor after a successful directory check: a disabled
     * coordinator creates nothing; an enabled one creates the workers, the
     * seven processors (each subscribing for its origin), the five feeds and
     * the scheduling.
     */
    constructor (enabled: bool, nodeIdentity: string, registry: ProcessorRegistry,
                 serverConfig: Option<ServerConfig>, injectorBroker: Instance, injectorStreamFeed: Instance)
      modifies registry
      ensures this.enabled == enabled && this.nodeIdentity == nodeIdentity && this.registry == registry
      ensures this.injectorBroker == injectorBroker && this.injectorStreamFeed == injectorStreamFeed
      ensures this.serverConfig == serverConfig
      ensures outgoing == [] && eventBroker == None && streamFeed == None && injectorLookups == 0
      ensures !enabled ==> processorsCreated == [] && feedsCreated == {} && !workersCreated
                           && scheduling == NoScheduling && registry.processors == old(registry.processors)
      ensures enabled ==> processorsCreated == ALL_PROCESSORS && workersCreated
                          && feedsCreated == {IndexFeed, CacheFeed, ProjectFeed, AccountBaseIndexFeed, ProjectIndexFeed}
                          && scheduling == SchedulingCreated
                          && registry.processors == SubscribeProcessors(old(registry.processors), ALL_PROCESSORS)
    {
      this.enabled := enabled;
      this.nodeIdentity := nodeIdentity;
      this.registry := registry;
      this.injectorBroker := injectorBroker;
      this.injectorStreamFeed := injectorStreamFeed;
      this.serverConfig := serverConfig;
      outgoing := [];
      eventBroker := None;
      streamFeed := None;
      injectorLookups := 0;
      processorsCreated := [];
      feedsCreated := {};
      workersCreated := false;
      scheduling := NoScheduling;
      new;
      if enabled {
        workersCreated := true;
        SubscribeAllProcessors(registry);
        processorsCreated := ALL_PROCESSORS;
        feedsCreated := {IndexFeed, CacheFeed, ProjectFeed, AccountBaseIndexFeed, ProjectIndexFeed};
        scheduling := SchedulingCreated;
      }
    }

    function IsReplicationEnabled(): bool
    {
      enabled
    }

    function GetThisNodeIdentity(): string
    {
      nodeIdentity
    }

    /** setGerritVanillaServerConfig. */
    method SetGerritVanillaServerConfig(config: Option<ServerConfig>)
      modifies this`serverConfig
      ensures serverConfig == config
    {
      serverConfig := config;
    }

    function CacheToBeEvicted(cacheName: string): (r: bool)
      reads this
      ensures r == IsCacheToBeEvicted(serverConfig, cacheName)
    {
      IsCacheToBeEvicted(serverConfig, cacheName)
    }

    /** start: a disabled coordinator does nothing; otherwise the scheduled workers start. */
    method Start()
      modifies this`scheduling
      ensures !enabled ==> scheduling == old(scheduling)
      ensures enabled ==> scheduling == SchedulingRunning
    {
      if !enabled {
        return;
      }
      scheduling := SchedulingRunning;
    }

    /**
     * stop: a disabled coordinator does nothing; otherwise five processors
     * unsubscribe their origins and the scheduling stops.
     */
    method Stop()
      modifies registry, this`scheduling
      ensures !enabled ==> registry.processors == old(registry.processors) && scheduling == old(scheduling)
      ensures enabled ==> registry.processors == old(registry.processors) - StoppedOrigins()
      ensures enabled ==> scheduling == SchedulingStopped
      ensures enabled && AccountGroupIndexEvent in old(registry.processors) ==>
        registry.processors[AccountGroupIndexEvent] == old(registry.processors)[AccountGroupIndexEvent]
    {
      if !enabled {
        return;
      }
      var i := 0;
      while i < |STOPPED_PROCESSORS|
        invariant 0 <= i <= |STOPPED_PROCESSORS|
        invariant registry.processors == old(registry.processors) - set j | 0 <= j < i :: SubscribedOrigin(STOPPED_PROCESSORS[j]).value
      {
        var p := STOPPED_PROCESSORS[i];
        registry.Unsubscribe(SubscribedOrigin(p).value, p);
        i := i + 1;
      }
      assert (set j | 0 <= j < |STOPPED_PROCESSORS| :: SubscribedOrigin(STOPPED_PROCESSORS[j]).value) == StoppedOrigins() by {
        assert SubscribedOrigin(STOPPED_PROCESSORS[0]).value == CacheEvent;
        assert SubscribedOrigin(STOPPED_PROCESSORS[1]).value == AccountUserIndexEvent;
        assert SubscribedOrigin(STOPPED_PROCESSORS[2]).value == DeleteProjectEvent;
        assert SubscribedOrigin(STOPPED_PROCESSORS[3]).value == ReplicatedStreamEvent;
        assert SubscribedOrigin(STOPPED_PROCESSORS[4]).value == IndexEvent;
      }
      scheduling := SchedulingStopped;
    }

    /** queueEventForReplication: appends to the outgoing worker's queue; with no worker (disabled) it throws. */
    method QueueEventForReplication(event: EventWrapper) returns (r: Outcome)
      modifies this`outgoing
      ensures enabled ==> r == Done && outgoing == old(outgoing) + [event]
      ensures !enabled ==> r == Failed(NullPointer) && outgoing == old(outgoing)
    {
      if !enabled {
        return Failed(NullPointer);
      }
      outgoing := outgoing + [event];
      r := Done;
    }

    /** getEventBroker: asks the injector only on the first call, then reuses the instance. */
    method GetEventBroker() returns (b: Instance)
      modifies this`eventBroker, this`injectorLookups
      ensures eventBroker == Some(b)
      ensures old(eventBroker).Some? ==> b == old(eventBroker).value && injectorLookups == old(injectorLookups)
      ensures old(eventBroker).None? ==> b == injectorBroker && injectorLookups == old(injectorLookups) + 1
    {
      if eventBroker.None? {
        eventBroker := Some(injectorBroker);
        injectorLookups := injectorLookups + 1;
      }
      b := eventBroker.value;
    }

    /** getReplicatedOutgoingStreamEventsFeed: the same lazy pattern. */
    method GetReplicatedOutgoingStreamEventsFeed() returns (f: Instance)
      modifies this`streamFeed, this`injectorLookups
      ensures streamFeed == Some(f)
      ensures old(streamFeed).Some? ==> f == old(streamFeed).value && injectorLookups == old(injectorLookups)
      ensures old(streamFeed).None? ==> f == injectorStreamFeed && injectorLookups == old(injectorLookups) + 1
    {
      if streamFeed.None? {
        streamFeed := Some(injectorStreamFeed);
        injectorLookups := injectorLookups + 1;
      }
      f := streamFeed.value;
    }
  }

  /** The part of the file system the coordinator touches: which directories exist, and which mkdirs can create. */
  class FileSystem {
    var directories: set<string>
    const creatable: set<string>

    constructor (directories: set<string>, creatable: set<string>)
      ensures this.directories == directories && this.creatable == creatable
    {
      this.directories := directories;
      this.creatable := creatable;
    }

    /** exists() then mkdirs() for one directory. */
    method EnsureDirectory(dir: string) returns (ok: bool)
      modifies this
      ensures ok == (dir in old(directories) || dir in creatable)
      ensures directories == if ok then old(directories) + {dir} else old(directories)
    {
      if dir in directories {
        return true;
      }
      ok := dir in creatable;
      if ok {
        directories := directories + {dir};
      }
    }
  }

  /** ensureEventsDirectoriesExist: incoming, then outgoing, then incoming-failed; the first failure throws. */
  method EnsureEventsDirectoriesExist(dirs: EventDirectories, fs: FileSystem) returns (r: Outcome)
    modifies fs
    ensures var (created, failure) := EnsureAll(DirectoryOrder(dirs), old(fs.directories), fs.creatable);
      && fs.directories == old(fs.directories) + created
      && (failure == None ==> r == Done)
      && (failure.Some? ==> r == Failed(DirectoryNotCreated(failure.value)))
  {
    ghost var order := DirectoryOrder(dirs);
    assert order[1..] == [dirs.outgoing, dirs.incomingFailed] && order[1..][1..] == [dirs.incomingFailed];
    var ok := fs.EnsureDirectory(dirs.incoming);
    if !ok {
      return Failed(DirectoryNotCreated(dirs.incoming));
    }
    ok := fs.EnsureDirectory(dirs.outgoing);
    if !ok {
      return Failed(DirectoryNotCreated(dirs.outgoing));
    }
    ok := fs.EnsureDirectory(dirs.incomingFailed);
    if !ok {
      assert EnsureAll(order[1..][1..], old(fs.directories), fs.creatable) == ({}, Some(dirs.incomingFailed));
      return Failed(DirectoryNotCreated(dirs.incomingFailed));
    }
    ghost var E, C := old(fs.directories), fs.creatable;
    assert EnsureAll(order[1..][1..][1..], E, C) == ({}, None);
    assert EnsureAll(order[1..][1..], E, C).1 == None;
    assert EnsureAll(order[1..], E, C).1 == None;
    r := Done;
  }

  /**
   * Construction as a whole: an enabled coordinator first ensures its
   * directories, and a failure there aborts construction before any
   * processor subscribes; a disabled one touches no directory.
   */
  method CreateCoordinator(enabled: bool, nodeIdentity: string, dirs: EventDirectories, fs: FileSystem,
                           registry: ProcessorRegistry, serverConfig: Option<ServerConfig>,
                           injectorBroker: Instance, injectorStreamFeed: Instance)
    returns (r: Result<Coordinator>)
    modifies fs, registry
    ensures !enabled ==> fs.directories == old(fs.directories)
    ensures enabled ==> fs.directories == old(fs.directories) + EnsureAll(DirectoryOrder(dirs), old(fs.directories), fs.creatable).0
    ensures r.Err? <==> enabled && EnsureAll(DirectoryOrder(dirs), old(fs.directories), fs.creatable).1.Some?
    ensures r.Err? ==> registry.processors == old(registry.processors)
    ensures r.Ok? ==> fresh(r.value) && r.value.enabled == enabled && r.value.registry == registry
  {
    if enabled {
      var ok := EnsureEventsDirectoriesExist(dirs, fs);
      if ok.Failed? {
        return Err(ok.error);
      }
    }
    var c := new Coordinator(enabled, nodeIdentity, registry, serverConfig, injectorBroker, injectorStreamFeed);
    r := Ok(c);
  }
}
