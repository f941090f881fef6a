/**
 * ReplicatedIncomingCacheEventProcessor: applies a replicated cache event,
 * either evicting (and perhaps reloading) a key of a watched cache or calling
 * a named method on a watched object.  Reflection is modelled by each watched
 * object's table of method signatures.
 */
module CacheProcessor {
  import opened Events
  import opened Coordination

  /** A watched cache. */
  datatype CacheHandle = CacheHandle(id: nat)

  /** A public method of a watched object: its name and its exact parameter class names. */
  datatype Signature = Signature(methodName: string, paramTypes: seq<string>)

  /** A watched object, known by the methods getMethod can find on it. */
  datatype WatchedObject = WatchedObject(methods: set<Signature>)

  /** What the processor did to a watched cache or object. */
  datatype CacheAction =
    | Evicted(cacheName: string, key: Arg)
    | Reloaded(cacheName: string, key: Arg)
    | Invoked(cacheName: string, methodName: string, args: seq<Arg>)

  /** The wrapper after it is marked replicated and stamped with the local node identity. */
  function StampWrapper(w: CacheKeyWrapper, local: string): (r: CacheKeyWrapper)
    ensures r.meta.replicated && r.meta.nodeIdentity == local
    ensures r.cacheName == w.cacheName && r.key == w.key
    ensures r.CacheObjectCall? <==> w.CacheObjectCall?
    ensures r.CacheObjectCall? ==> r.methodName == w.methodName && r.otherArgs == w.otherArgs
  {
    w.(meta := Stamp(w.meta, local))
  }

  /** The index of the first null argument, or |args| if there is none. */
  function FirstNull(args: seq<Option<Arg>>): (k: nat)
    ensures k <= |args|
    ensures forall i :: 0 <= i < k ==> args[i].Some?
    ensures k < |args| ==> args[k].None?
  {
    if args == [] || args[0].None? then 0 else 1 + FirstNull(args[1..])
  }

  /** The values of arguments none of which is null. */
  function Values(args: seq<Option<Arg>>): (vs: seq<Arg>)
    requires forall i :: 0 <= i < |args| ==> args[i].Some?
    ensures |vs| == |args| && forall i :: 0 <= i < |args| ==> vs[i] == args[i].value
  {
    if args == [] then [] else [args[0].value] + Values(args[1..])
  }

  /**
   * The class names of the remaining arguments, gathered into an array of
   * ten slots and then stripped of its empty slots.  A null argument throws
   * NullPointerException on its getClass(), and an eleventh argument throws
   * ArrayIndexOutOfBoundsException, whichever comes first.
   */
  method ArgumentClassTypes(args: seq<Option<Arg>>) returns (r: Result<seq<string>>)
    ensures r.Ok? <==> |args| <= 10 && forall i :: 0 <= i < |args| ==> args[i].Some?
    ensures r.Ok? ==> |r.value| == |args| && forall i :: 0 <= i < |args| ==> r.value[i] == args[i].value.typeName
    ensures r.Err? ==> r.error == if FirstNull(args) < |args| && FirstNull(args) <= 10 then NullPointer else ArrayIndexOutOfBounds
  {
    var classTypes := new Option<string>[10](_ => None);
    var n := 0;
    while n < |args|
      invariant 0 <= n <= |args| && n <= 10
      invariant forall j :: 0 <= j < n ==> args[j].Some?
      invariant forall j :: 0 <= j < n ==> classTypes[j] == Some(args[j].value.typeName)
      invariant forall j :: n <= j < 10 ==> classTypes[j] == None
    {
      if args[n].None? {
        return Err(NullPointer);
      }
      if n >= 10 {
        return Err(ArrayIndexOutOfBounds);
      }
      classTypes[n] := Some(args[n].value.typeName);
      n := n + 1;
    }
    var types: seq<string> := [];
    var i := 0;
    while i < 10
      invariant 0 <= i <= 10
      invariant |types| == if i < |args| then i else |args|
      invariant forall j :: 0 <= j < |types| ==> types[j] == args[j].value.typeName
    {
      if classTypes[i].Some? {
        types := types + [classTypes[i].value];
      }
      i := i + 1;
    }
    r := Ok(types);
  }

  const EVICTION_UNKNOWN_CACHE: string := "CACHE call on replicated eviction could not be made, as cache does not exist. "
  const METHOD_UNKNOWN_CACHE: string := "CACHE call could not be made, as cache does not exist. "
  const METHOD_LOST: string := "CACHE method call has been lost, could not call "

  class IncomingCacheEventProcessor {
    const coordinator: Coordinator
    /** The caches the replicated configuration says to reload after an eviction. */
    const reloadedCaches: set<string>
    var caches: map<string, CacheHandle>
    var cacheObjects: map<string, WatchedObject>
    var actions: seq<CacheAction>
    /** The eviction and reload counts of the replicator metrics, by cache name. */
    var evictionsPerformed: multiset<string>
    var reloadsPerformed: multiset<string>

    /** The constructor subscribes the processor for cache events. */
    constructor (coordinator: Coordinator, reloadedCaches: set<string>)
      modifies coordinator.registry
      ensures this.coordinator == coordinator && this.reloadedCaches == reloadedCaches
      ensures caches == map[] && cacheObjects == map[] && actions == []
      ensures evictionsPerformed == multiset{} && reloadsPerformed == multiset{}
      ensures coordinator.registry.processors == PutIfAbsent(old(coordinator.registry.processors), CacheEvent, CacheProcessor)
    {
      this.coordinator := coordinator;
      this.reloadedCaches := reloadedCaches;
      caches := map[];
      cacheObjects := map[];
      actions := [];
      evictionsPerformed := multiset{};
      reloadsPerformed := multiset{};
      new;
      coordinator.registry.Subscribe(CacheEvent, CacheProcessor);
    }

    /** stop: unsubscribes the origin. */
    method Stop()
      modifies coordinator.registry
      ensures coordinator.registry.processors == old(coordinator.registry.processors) - {CacheEvent}
    {
      coordinator.registry.Unsubscribe(CacheEvent, CacheProcessor);
    }

    /** watchCache: inserts or replaces the entry for the name. */
    method WatchCache(cacheName: string, cache: CacheHandle)
      modifies this`caches
      ensures caches == old(caches)[cacheName := cache]
    {
      caches := caches[cacheName := cache];
    }

    /** watchObject: inserts or replaces the entry for the name. */
    method WatchObject(cacheName: string, obj: WatchedObject)
      modifies this`cacheObjects
      ensures cacheObjects == old(cacheObjects)[cacheName := obj]
    {
      cacheObjects := cacheObjects[cacheName := obj];
    }

    /**
     * What applyReplicatedEvictionFromCache leaves behind, given the actions
     * and metrics before it: an unwatched cache throws and nothing happens;
     * otherwise the key is evicted only when the coordinator says the cache
     * is to be evicted, and reloaded only then and only when the cache is
     * configured for reloading; each metric counts only a call that
     * returned true.
     */
    ghost predicate EvictionApplied(cacheName: string, key: Arg, evictResult: bool, reloadResult: bool, r: Outcome,
                                    actions0: seq<CacheAction>, evictions0: multiset<string>, reloads0: multiset<string>)
      reads this, coordinator
    {
      if cacheName !in caches then
        && r == Failed(UnknownType(EVICTION_UNKNOWN_CACHE + cacheName))
        && actions == actions0 && evictionsPerformed == evictions0 && reloadsPerformed == reloads0
      else
        var evict := coordinator.CacheToBeEvicted(cacheName);
        var reload := evict && cacheName in reloadedCaches;
        && r == Done
        && actions == actions0 + (if evict then [Evicted(cacheName, key)] else [])
                               + (if reload then [Reloaded(cacheName, key)] else [])
        && evictionsPerformed == evictions0 + (if evict && evictResult then multiset{cacheName} else multiset{})
        && reloadsPerformed == reloads0 + (if reload && reloadResult then multiset{cacheName} else multiset{})
    }

    /**
     * What applyMethodCallOnCache leaves behind, given the actions before it:
     * an unwatched object throws; a null argument or an eleventh one throws
     * while the parameter classes are gathered; a method that getMethod
     * cannot find, or one that throws, is an unknown type; otherwise the
     * method is invoked with the key followed by the remaining arguments.
     */
    ghost predicate MethodCallApplied(cacheName: string, key: Arg, otherArgs: Option<seq<Option<Arg>>>, methodName: string,
                                      invocationThrows: bool, r: Outcome, actions0: seq<CacheAction>)
      reads this
    {
      if cacheName !in cacheObjects then
        r == Failed(UnknownType(METHOD_UNKNOWN_CACHE + cacheName)) && actions == actions0
      else
        var remaining := if otherArgs.None? then [] else otherArgs.value;
        var k := FirstNull(remaining);
        if k < |remaining| && k <= 10 then r == Failed(NullPointer) && actions == actions0
        else if |remaining| > 10 then r == Failed(ArrayIndexOutOfBounds) && actions == actions0
        else
          var signature := Signature(methodName, [key.typeName] + seq(|remaining|, i requires 0 <= i < |remaining| => remaining[i].value.typeName));
          if signature !in cacheObjects[cacheName].methods || invocationThrows then
            r == Failed(UnknownType(METHOD_LOST + cacheName + ". " + methodName)) && actions == actions0
          else
            r == Done && actions == actions0 + [Invoked(cacheName, methodName, [key] + Values(remaining))]
    }

    /**
     * processIncomingReplicatedEvent / applyCacheMethodOrEviction: stamp the
     * wrapper, then a method-call wrapper takes only the method path and any
     * other wrapper only the eviction path.  `evictResult`, `reloadResult`
     * and `invocationThrows` are what the cache and the invoked method do.
     */
    method ProcessIncomingReplicatedEvent(w: CacheKeyWrapper, evictResult: bool, reloadResult: bool, invocationThrows: bool)
      returns (r: Outcome, stamped: CacheKeyWrapper)
      modifies this`actions, this`evictionsPerformed, this`reloadsPerformed
      ensures stamped == StampWrapper(w, coordinator.nodeIdentity)
      ensures w.CacheObjectCall? ==> evictionsPerformed == old(evictionsPerformed) && reloadsPerformed == old(reloadsPerformed)
      ensures |old(actions)| <= |actions| && actions[..|old(actions)|] == old(actions)
      ensures w.CacheObjectCall? ==> forall a :: a in actions[|old(actions)|..] ==> a.Invoked?
      ensures w.CacheKey? ==> forall a :: a in actions[|old(actions)|..] ==> !a.Invoked?
      ensures w.CacheObjectCall? ==>
        MethodCallApplied(w.cacheName, w.key, w.otherArgs, w.methodName, invocationThrows, r, old(actions))
      ensures w.CacheKey? ==>
        EvictionApplied(w.cacheName, w.key, evictResult, reloadResult, r,
                        old(actions), old(evictionsPerformed), old(reloadsPerformed))
    {
      stamped := StampWrapper(w, coordinator.GetThisNodeIdentity());
      if stamped.CacheObjectCall? {
        r := ApplyMethodCallOnCache(stamped.cacheName, stamped.key, stamped.otherArgs, stamped.methodName, invocationThrows);
        return;
      }
      r := ApplyReplicatedEvictionFromCache(stamped.cacheName, stamped.key, evictResult, reloadResult);
    }

    /**
     * applyReplicatedEvictionFromCache: an unwatched cache throws and nothing
     * happens; otherwise the key is evicted only when the coordinator says
     * the cache is to be evicted, and reloaded only then and only when the
     * cache is configured for reloading; each metric counts only a call that
     * returned true.
     */
    method ApplyReplicatedEvictionFromCache(cacheName: string, key: Arg, evictResult: bool, reloadResult: bool)
      returns (r: Outcome)
      modifies this`actions, this`evictionsPerformed, this`reloadsPerformed
      ensures EvictionApplied(cacheName, key, evictResult, reloadResult, r,
                              old(actions), old(evictionsPerformed), old(reloadsPerformed))
    {
      var evicted := false;
      var reloaded := false;
      if cacheName !in caches {
        return Failed(UnknownType(EVICTION_UNKNOWN_CACHE + cacheName));
      }
      if coordinator.CacheToBeEvicted(cacheName) {
        actions := actions + [Evicted(cacheName, key)];
        evicted := evictResult;
        if cacheName in reloadedCaches {
          actions := actions + [Reloaded(cacheName, key)];
          reloaded := reloadResult;
        }
      }
      if evicted {
        evictionsPerformed := evictionsPerformed + multiset{cacheName};
      }
      if reloaded {
        reloadsPerformed := reloadsPerformed + multiset{cacheName};
      }
      r := Done;
    }

    /**
     * applyMethodCallOnCache: an unwatched object throws.  Otherwise the
     * method is looked up by its name and by the class names of the key
     * followed by the remaining arguments (none when otherArgs is null or
     * empty) and invoked with the key followed by those arguments; a missing
     * method or a throwing one is reported as an unknown type.
     */
    method ApplyMethodCallOnCache(cacheName: string, key: Arg, otherArgs: Option<seq<Option<Arg>>>, methodName: string,
                                  invocationThrows: bool) returns (r: Outcome)
      modifies this`actions
      ensures MethodCallApplied(cacheName, key, otherArgs, methodName, invocationThrows, r, old(actions))
    {
      if cacheName !in cacheObjects {
        return Failed(UnknownType(METHOD_UNKNOWN_CACHE + cacheName));
      }
      var obj := cacheObjects[cacheName];
      var remaining := if otherArgs.None? then [] else otherArgs.value;
      var paramTypes := [key.typeName];
      if |remaining| > 0 {
        var types := ArgumentClassTypes(remaining);
        if types.Err? {
          return Failed(types.error);
        }
        paramTypes := paramTypes + types.value;
      }
      assert paramTypes == [key.typeName] + seq(|remaining|, i requires 0 <= i < |remaining| => remaining[i].value.typeName);
      if Signature(methodName, paramTypes) !in obj.methods || invocationThrows {
        return Failed(UnknownType(METHOD_LOST + cacheName + ". " + methodName));
      }
      actions := actions + [Invoked(cacheName, methodName, [key] + Values(remaining))];
      r := Done;
    }
  }
}
