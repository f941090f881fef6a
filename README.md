# Replicated-event pipeline of a multi-site Gerrit

This project models the part of a multi-site Gerrit fork that keeps the nodes of a
replication group consistent. It covers how every state-changing occurrence on one node
(a cache eviction, a reindex, a project deletion, a stream event) is wrapped in an
envelope and queued for the other nodes. It also covers how an incoming envelope is applied
on a receiving node without being replicated again. The model is in Dafny and the
properties are proved by the verifier.

The modules follow the Java classes:

- `Events` (events.dfy): the shared vocabulary.
  - envelope origins, payload records and the envelope itself;
  - the stream-event replicated flag;
  - the exceptions, one constructor each;
  - an abstract JSON codec: `Decode` succeeds exactly on an envelope whose class name is the payload's.
- `EventFactory`: the `createReplicated*` factories.
- `OutgoingFeeds` and `StreamFeed`: the outgoing feeds, which append envelopes to the coordinator's outgoing queue.
- `Coordination`: the coordinator. It covers:
  - the shared origin → processor registry, with putIfAbsent subscription and removal by key;
  - enabled and disabled construction, start and stop;
  - the directory check;
  - lazily created singletons;
  - the cache-eviction configuration gate.
- The incoming processors:
  - `CacheProcessor`;
  - `ProjectProcessor`;
  - `GroupIndexProcessor`;
  - `StreamProcessor`;
  - the legacy `ProjectsIndex` manager.
- `StreamListener`: the loop-breaking bridge `ReplicatedStreamEventsApiListener`, as functions that return the action taken.
- `Broker`: the visibility-filtered `EventBroker`.
- `StreamFeedStart`: the wiring of the two stream listeners into the broker.
- `RequestScope`: the request scope and its per-thread context slot.
- `GroupCache`: the three group caches.
- `SetHeadView`: the SetHead REST view.
- `GarbageCollect`: garbage collection.
- `PersistedEvents`: the staging-file writer, as its unit test pins it down.

The central property is that replication never loops. On the originating node, a facade event
is posted to the broker and queued once. On a receiving node, the stream processor marks it
replicated before posting. The outgoing feed then skips it, and the API listener replays it
through its facade exactly once. The replayed facade call does not post it again. This is
proved in:

- `StreamFeedStart.StartedListenersBreakTheLoop`;
- `Broker.ReplicatedStreamEventIsNeverRequeued`;
- `StreamListener.ReplayIsNotReposted`;
- the contract of `StreamProcessor.IncomingStreamEventProcessor.ProcessIncomingReplicatedEvent`.

External behaviour becomes parameters of the operations:

- permission checks (`Check`);
- repository opening;
- cache loaders;
- eviction and reload results;
- JGit link results;
- gc outcomes;
- clocks.

## Model

| member | source | states |
|---|---|---|
| Events.Stamp | java/com/google/gerrit/server/replication/processors/ReplicatedIncomingCacheEventProcessor.java:70-71 | a stamped event is marked replicated and carries the local node identity |
| Events.SetStreamEventReplicated | java/com/google/gerrit/server/restapi/project/SetHead.java:191-199 | after setStreamEventReplicated(r), replicationSuccessful() returns r; class, node, project and details are kept |
| Events.Decode | java/com/google/gerrit/server/replication/GerritEventFactory.java:28-74 | decoding succeeds exactly when the class is on the classpath and names the payload's class; an unknown class is ClassNotFound |
| EventFactory.Wrap | java/com/google/gerrit/server/replication/GerritEventFactory.java:28-74 | every envelope pairs the payload's JSON with its runtime class name and decodes back to the payload |
| EventFactory.CreateReplicatedChangeEvent | java/com/google/gerrit/server/replication/GerritEventFactory.java:28-32 | origin GERRIT_EVENT, the project named by the change info, the event's class name, round trip |
| EventFactory.CreateReplicatedAllProjectsCacheEvent | java/com/google/gerrit/server/replication/GerritEventFactory.java:34-38 | origin CACHE_EVENT and no destination project |
| EventFactory.CreateReplicatedCacheEvent | java/com/google/gerrit/server/replication/GerritEventFactory.java:40-43 | origin CACHE_EVENT and exactly the given project |
| EventFactory.CreateReplicatedIndexEvent | java/com/google/gerrit/server/replication/GerritEventFactory.java:46-49 | origin INDEX_EVENT, destination the index request's project |
| EventFactory.CreateReplicatedDeleteProjectChangeEvent | java/com/google/gerrit/server/replication/GerritEventFactory.java:52-55 | origin DELETE_PROJECT_EVENT, addressed to the deleted project |
| EventFactory.CreateReplicatedDeleteProjectEvent | java/com/google/gerrit/server/replication/GerritEventFactory.java:58-61 | origin DELETE_PROJECT_EVENT, addressed to the wrapper's project name |
| EventFactory.CreateReplicatedDeleteProjectMessageEvent | java/com/google/gerrit/server/replication/GerritEventFactory.java:64-67 | origin DELETE_PROJECT_MESSAGE_EVENT, destination the message's project |
| EventFactory.CreateReplicatedAccountIndexEvent | java/com/google/gerrit/server/replication/GerritEventFactory.java:70-74 | origin and project are the caller's, unchanged; round trip |
| EventFactory.CreateReplicatedStreamEvent | java/com/google/gerrit/server/replication/feeds/ReplicatedOutgoingStreamEventsFeed.java:74-79 | origin REPLICATED_STREAM_EVENT, the event's own project and qualified class name; round trip |
| EventFactory.CreateReplicatedProjectsIndexEvent | java/com/google/gerrit/server/replication/feeds/ReplicatedOutgoingProjectIndexEventsFeed.java:39-46 | origin PROJECTS_INDEX_EVENT and the given project; round trip |
| OutgoingFeeds.AccountBaseIndexEventsFeed.ReplicateReindex | java/com/google/gerrit/server/replication/feeds/ReplicatedOutgoingAccountBaseIndexEventsFeed.java:48-65 | an account id gives one AccountUserIndexEvent and a group UUID one AccountGroupIndexEvent, to All-Users with this node's identity; any other identifier queues nothing and throws |
| OutgoingFeeds.AccountIndexEnvelope | java/com/google/gerrit/server/replication/feeds/ReplicatedOutgoingAccountBaseIndexEventsFeed.java:50-64 | the queued envelope goes to All-Users under the identifier's origin and decodes to the payload naming this node |
| OutgoingFeeds.ProjectIndexEventsFeed.ReplicateReindex | java/com/google/gerrit/server/replication/feeds/ReplicatedOutgoingProjectIndexEventsFeed.java:39-46 | exactly one envelope to All-Projects carrying the project, the delete flag and this node's identity |
| StreamFeed.ToLower | java/com/google/gerrit/server/replication/feeds/ReplicatedOutgoingStreamEventsFeed.java:117-121 | lower-casing keeps the length and maps each character |
| StreamFeed.SkipListMissesFacadeEventsAsWritten | java/com/google/gerrit/server/replication/feeds/ReplicatedOutgoingStreamEventsFeed.java:117-121 | as written, listing "changemerged" does not skip a ChangeMerged event |
| StreamFeed.EventEntrySkipsAllFacadesAsWritten | java/com/google/gerrit/server/replication/feeds/ReplicatedOutgoingStreamEventsFeed.java:117-121 | as written, the entry "event" skips the events of every facade |
| StreamFeed.SkipListMatchesFacade | java/com/google/gerrit/server/replication/feeds/ReplicatedOutgoingStreamEventsFeed.java:104-121 | corrected: a facade's events are skipped iff its lower-cased name is listed |
| StreamFeed.ChangeMergedSkipped | java/com/google/gerrit/server/replication/feeds/ReplicatedOutgoingStreamEventsFeed.java:117-121 | corrected: "changemerged" skips ChangeMerged events |
| StreamFeed.QueuedFor | java/com/google/gerrit/server/replication/feeds/ReplicatedOutgoingStreamEventsFeed.java:74-79 | at most one envelope; one iff replication is enabled and the event is not skipped by the skip check as written (simple class name); it decodes back to the event |
| StreamFeed.QueuedForCorrected | java/com/google/gerrit/server/replication/feeds/ReplicatedOutgoingStreamEventsFeed.java:74-121 | corrected: the same envelope, skipped when the event type's lower-cased name is listed |
| StreamFeed.ChangeMergedQueuedOnlyAsWritten | java/com/google/gerrit/server/replication/feeds/ReplicatedOutgoingStreamEventsFeed.java:117-121 | with "changemerged" listed, the listener as written queues a ChangeMerged event and the corrected one does not |
| StreamFeed.ReplicatedEventIsNotRequeued | java/com/google/gerrit/server/replication/feeds/ReplicatedOutgoingStreamEventsFeed.java:95-98 | an event that arrived by replication is never queued again, under either reading of the skip list |
| StreamFeed.OutgoingStreamEventsFeed.Listener | java/com/google/gerrit/server/replication/feeds/ReplicatedOutgoingStreamEventsFeed.java:74-79 | the queue grows by exactly QueuedFor (the skip check as written); it fails only when an event that check does not skip meets a disabled coordinator |
| StreamFeedStart.Start | java/com/google/gerrit/server/replication/feeds/ReplicatedOutgoingStreamEventsFeed.java:53-58 | registers the feed's listener, then the API listener the coordinator hands out, whose own node is the coordinator's; the broker stays valid |
| StreamFeedStart.StartedListenersQueue | java/com/google/gerrit/server/replication/feeds/ReplicatedOutgoingStreamEventsFeed.java:53-58 | with the two started listeners a post queues exactly what the feed's listener queues |
| StreamFeedStart.StartedListenersReplay | java/com/google/gerrit/server/replication/feeds/ReplicatedOutgoingStreamEventsFeed.java:53-58 | with the two started listeners a post replays exactly what the API listener replays |
| StreamFeedStart.StartedListenersBreakTheLoop | java/com/google/gerrit/server/replication/streamlistener/ReplicatedStreamEventsApiListener.java:251-295 | a local event is queued and never replayed; a replicated one is never queued and is replayed once when it comes from another node |
| StreamListener.PostEventIfLocal | java/com/google/gerrit/server/replication/streamlistener/ReplicatedStreamEventsApiListener.java:170-180 | the event reaches the broker iff it was fired on this node; otherwise nothing happens |
| StreamListener.OnFacadeEvent | java/com/google/gerrit/server/replication/streamlistener/ReplicatedStreamEventsApiListener.java:182-234 | an on&lt;X&gt; handler posts iff the facade is one it implements and the event is local |
| StreamListener.FirstMatch | java/com/google/gerrit/server/replication/streamlistener/ReplicatedStreamEventsApiListener.java:257-293 | the facade found is in the chain and is the event's; none means no facade in the chain matches |
| StreamListener.OnReplicatedStreamEvent | java/com/google/gerrit/server/replication/streamlistener/ReplicatedStreamEventsApiListener.java:251-295 | acts only on a replicated event from another node, and then fires it through its own facade |
| StreamListener.UnchainedEventsAreDropped | java/com/google/gerrit/server/replication/streamlistener/ReplicatedStreamEventsApiListener.java:251-295 | head-updated, plugin and non-facade events are never replayed |
| StreamListener.ReplayIsNotReposted | java/com/google/gerrit/server/replication/streamlistener/ReplicatedStreamEventsApiListener.java:170-180 | a replicated event from another node is replayed through its facade, and that facade's call back into the listener does not post it again |
| StreamListener.LocalEventIsPostedNotReplayed | java/com/google/gerrit/server/replication/streamlistener/ReplicatedStreamEventsApiListener.java:170-180 | on the firing node an event is posted and not replayed |
| Coordination.PutIfAbsent | java/com/google/gerrit/server/replication/coordinators/ReplicatedEventsCoordinatorImpl.java:341-347 | an existing entry is kept; otherwise the new one is added; nothing else changes |
| Coordination.FirstSubscriberWins | java/com/google/gerrit/server/replication/coordinators/ReplicatedEventsCoordinatorImpl.java:341-347 | later subscribers for the same origin never displace the first |
| Coordination.SubscribeAll | java/com/google/gerrit/server/replication/coordinators/ReplicatedEventsCoordinatorImpl.java:341-347 | repeated subscription adds exactly the one origin key |
| Coordination.UnsubscribeForgetsSubscriber | java/com/google/gerrit/server/replication/coordinators/ReplicatedEventsCoordinatorImpl.java:350-356 | unsubscribing by any processor removes the origin, after which a new subscriber wins |
| Coordination.ProcessorRegistry.Subscribe | java/com/google/gerrit/server/replication/coordinators/ReplicatedEventsCoordinatorImpl.java:341-347 | the registry becomes PutIfAbsent of the old one |
| Coordination.ProcessorRegistry.Unsubscribe | java/com/google/gerrit/server/replication/coordinators/ReplicatedEventsCoordinatorImpl.java:350-356 | the origin's entry is removed, whatever processor is named |
| Coordination.FirstUncreatable | java/com/google/gerrit/server/replication/coordinators/ReplicatedEventsCoordinatorImpl.java:461-495 | the index of the first directory that is missing and cannot be made |
| Coordination.EnsureAllStopsAtFirstFailure | java/com/google/gerrit/server/replication/coordinators/ReplicatedEventsCoordinatorImpl.java:461-495 | only the missing directories before the first failure are created, none after it, and the failing one is reported |
| Coordination.IsCacheToBeEvicted | java/com/google/gerrit/server/replication/coordinators/ReplicatedEventsCoordinatorImpl.java:272-274 | false iff a server config exists and the cache's memoryLimit (default 4096) is 0 |
| Coordination.StoppedOrigins | java/com/google/gerrit/server/replication/coordinators/ReplicatedEventsCoordinatorImpl.java:225-234 | five origins, excluding the group-index and project-index ones |
| Coordination.StopLeavesGroupAndProjectIndexSubscribed | java/com/google/gerrit/server/replication/coordinators/ReplicatedEventsCoordinatorImpl.java:221-235 | from an empty registry, construction then stop leaves only the group-index and project-index processors |
| Coordination.AllSevenSubscribed | java/com/google/gerrit/server/replication/coordinators/ReplicatedEventsCoordinatorImpl.java:103-185 | from an empty registry the seven processors hold one origin each |
| Coordination.SubscribeAllProcessors | java/com/google/gerrit/server/replication/coordinators/ReplicatedEventsCoordinatorImpl.java:103-185 | the registry after the processors subscribe in construction order |
| Coordination.Coordinator.constructor | java/com/google/gerrit/server/replication/coordinators/ReplicatedEventsCoordinatorImpl.java:129-149 | disabled: no workers, processors, feeds or directories; enabled: all of them, each processor subscribed |
| Coordination.Coordinator.SetGerritVanillaServerConfig | java/com/google/gerrit/server/replication/coordinators/ReplicatedEventsCoordinatorImpl.java:249-251 | records the server config consulted by the eviction gate |
| Coordination.Coordinator.CacheToBeEvicted | java/com/google/gerrit/server/replication/coordinators/ReplicatedEventsCoordinatorImpl.java:272-274 | the eviction gate applied to the recorded config |
| Coordination.Coordinator.Start | java/com/google/gerrit/server/replication/coordinators/ReplicatedEventsCoordinatorImpl.java:211-218 | disabled: nothing changes; enabled: the scheduling runs |
| Coordination.Coordinator.Stop | java/com/google/gerrit/server/replication/coordinators/ReplicatedEventsCoordinatorImpl.java:221-235 | disabled: nothing; enabled: exactly the five stopped origins leave the registry, the group-index entry stays |
| Coordination.Coordinator.QueueEventForReplication | java/com/google/gerrit/server/replication/coordinators/ReplicatedEventsCoordinatorImpl.java:239-241 | appends exactly the envelope; with no worker (disabled) it throws and queues nothing |
| Coordination.Coordinator.GetEventBroker | java/com/google/gerrit/server/replication/coordinators/ReplicatedEventsCoordinatorImpl.java:198-203 | the injector is asked once; later calls return the same instance |
| Coordination.Coordinator.GetReplicatedOutgoingStreamEventsFeed | java/com/google/gerrit/server/replication/coordinators/ReplicatedEventsCoordinatorImpl.java:430-435 | the same create-once, then reuse behaviour |
| Coordination.FileSystem.EnsureDirectory | java/com/google/gerrit/server/replication/coordinators/ReplicatedEventsCoordinatorImpl.java:463-470 | an existing directory succeeds; otherwise mkdirs succeeds iff the directory can be made |
| Coordination.EnsureEventsDirectoriesExist | java/com/google/gerrit/server/replication/coordinators/ReplicatedEventsCoordinatorImpl.java:461-495 | incoming, outgoing, incoming-failed in that order; the first failure throws and later ones are not tried |
| Coordination.CreateCoordinator | java/com/google/gerrit/server/replication/coordinators/ReplicatedEventsCoordinatorImpl.java:103-185 | a disabled coordinator skips the directory check; an enabled one fails on a directory failure before creating anything |
| CacheProcessor.StampWrapper | java/com/google/gerrit/server/replication/processors/ReplicatedIncomingCacheEventProcessor.java:70-71 | the wrapper is marked replicated with the local node, everything else kept |
| CacheProcessor.FirstNull | java/com/google/gerrit/server/replication/processors/ReplicatedIncomingCacheEventProcessor.java:129-175 | the index of the first null argument |
| CacheProcessor.Values | java/com/google/gerrit/server/replication/processors/ReplicatedIncomingCacheEventProcessor.java:129-175 | the argument values, in order |
| CacheProcessor.ArgumentClassTypes | java/com/google/gerrit/server/replication/processors/ReplicatedIncomingCacheEventProcessor.java:129-175 | the class names of the arguments in order; a null argument throws NullPointer and more than ten arguments overflow the array |
| CacheProcessor.IncomingCacheEventProcessor.constructor | java/com/google/gerrit/server/replication/processors/ReplicatedIncomingCacheEventProcessor.java:45-50 | subscribes for CACHE_EVENT with putIfAbsent |
| CacheProcessor.IncomingCacheEventProcessor.Stop | java/com/google/gerrit/server/replication/processors/ReplicatedIncomingCacheEventProcessor.java:53-55 | unsubscribes CACHE_EVENT |
| CacheProcessor.IncomingCacheEventProcessor.WatchCache | java/com/google/gerrit/server/replication/processors/ReplicatedIncomingCacheEventProcessor.java:185-188 | inserts or replaces exactly the named entry |
| CacheProcessor.IncomingCacheEventProcessor.WatchObject | java/com/google/gerrit/server/replication/processors/ReplicatedIncomingCacheEventProcessor.java:190-192 | inserts or replaces exactly the named entry |
| CacheProcessor.IncomingCacheEventProcessor.ProcessIncomingReplicatedEvent | java/com/google/gerrit/server/replication/processors/ReplicatedIncomingCacheEventProcessor.java:59-83 | the wrapper is stamped first; a method call has exactly the outcome and added action of `MethodCallApplied` (applyMethodCallOnCache on the wrapper's fields) and touches no metric; a key has exactly the outcome, actions and metrics of `EvictionApplied` (applyReplicatedEvictionFromCache on the wrapper's fields) |
| CacheProcessor.IncomingCacheEventProcessor.ApplyReplicatedEvictionFromCache | java/com/google/gerrit/server/replication/processors/ReplicatedIncomingCacheEventProcessor.java:86-115 | an unwatched cache throws and evicts nothing; eviction only when the gate allows; reload only then and only if configured; metrics count true results only |
| CacheProcessor.IncomingCacheEventProcessor.ApplyMethodCallOnCache | java/com/google/gerrit/server/replication/processors/ReplicatedIncomingCacheEventProcessor.java:117-183 | unknown object, unresolvable signature or a throwing call is UnknownType; otherwise the call gets the key first, then the other arguments in order |
| ProjectProcessor.ApplyActionsForDeletingProject | java/com/google/gerrit/server/replication/processors/ReplicatedIncomingProjectEventProcessor.java:125-142 | the cache removal succeeds iff the repository could be opened |
| ProjectProcessor.DeleteProjectOnDisk | java/com/google/gerrit/server/replication/processors/ReplicatedIncomingProjectEventProcessor.java:93 | delete on disk iff the removal succeeded and the project is not preserved |
| ProjectProcessor.PreservedProjectStaysOnDisk | java/com/google/gerrit/server/replication/processors/ReplicatedIncomingProjectEventProcessor.java:93 | a preserved project is never deleted from disk |
| ProjectProcessor.IncomingProjectEventProcessor.constructor | java/com/google/gerrit/server/replication/processors/ReplicatedIncomingProjectEventProcessor.java:38-44 | subscribes for DELETE_PROJECT_EVENT |
| ProjectProcessor.IncomingProjectEventProcessor.Stop | java/com/google/gerrit/server/replication/processors/ReplicatedIncomingProjectEventProcessor.java:47-49 | unsubscribes DELETE_PROJECT_EVENT |
| ProjectProcessor.IncomingProjectEventProcessor.ProcessIncomingReplicatedEvent | java/com/google/gerrit/server/replication/processors/ReplicatedIncomingProjectEventProcessor.java:53-67 | change deletions go to deleteProjectChanges, wrappers to deleteProject, anything else throws UnknownType; a null event throws |
| ProjectProcessor.IncomingProjectEventProcessor.DeleteProject | java/com/google/gerrit/server/replication/processors/ReplicatedIncomingProjectEventProcessor.java:77-97 | stamps the wrapper, then always queues the completion message with taskUuid, the on-disk flag and the project; a null wrapper does nothing |
| ProjectProcessor.IncomingProjectEventProcessor.DeleteProjectChanges | java/com/google/gerrit/server/replication/processors/ReplicatedIncomingProjectEventProcessor.java:105-116 | stamps the event and deletes its changes; a failure is only logged; a null event does nothing |
| GroupIndexProcessor.IncomingAccountGroupIndexEventProcessor.constructor | java/com/google/gerrit/server/replication/processors/ReplicatedIncomingAccountGroupIndexEventProcessor.java:36-41 | subscribes for ACCOUNT_GROUP_INDEX_EVENT |
| GroupIndexProcessor.IncomingAccountGroupIndexEventProcessor.Stop | java/com/google/gerrit/server/replication/processors/ReplicatedIncomingAccountGroupIndexEventProcessor.java:45-47 | unsubscribes it |
| GroupIndexProcessor.IncomingAccountGroupIndexEventProcessor.GetIndexer | java/com/google/gerrit/server/replication/processors/ReplicatedIncomingAccountGroupIndexEventProcessor.java:49-54 | the indexer is looked up once, then reused |
| GroupIndexProcessor.IncomingAccountGroupIndexEventProcessor.ProcessIncomingReplicatedEvent | java/com/google/gerrit/server/replication/processors/ReplicatedIncomingAccountGroupIndexEventProcessor.java:58-71 | a user-index event is a ClassCast; an indexing failure is transient and names the group; otherwise the group is reindexed |
| ProjectsIndex.ReindexAction | java/com/google/gerrit/server/replication/ReplicatedProjectsIndexManager.java:128-145 | delete from the index iff the event says so, for the event's project |
| ProjectsIndex.Publish | java/com/google/gerrit/server/replication/ReplicatedProjectsIndexManager.java:97-118 | only an envelope of the manager's origin is applied; a decoding failure or I/O failure gives false |
| ProjectsIndex.ReplicatedReindexIsAppliedRemotely | java/com/google/gerrit/server/replication/ReplicatedProjectsIndexManager.java:85-118 | a replicated reindex, published on a node subscribed for it, is applied there with the same project and delete flag |
| ProjectsIndex.ProjectsIndexManager.SetIndexer | java/com/google/gerrit/server/replication/ReplicatedProjectsIndexManager.java:28-35 | records the indexer and origin; subscribes only when the origin is not already subscribed |
| ProjectsIndex.ProjectsIndexManager.ReplicateReindex | java/com/google/gerrit/server/replication/ReplicatedProjectsIndexManager.java:85-92 | queues one envelope to All-Projects with the project and the delete flag |
| ProjectsIndex.ProjectsIndexManager.PublishIncomingReplicatedEvents | java/com/google/gerrit/server/replication/ReplicatedProjectsIndexManager.java:97-118 | applies and reports what Publish decides |
| ProjectsIndex.ProjectsIndexManager.ReindexProject | java/com/google/gerrit/server/replication/ReplicatedProjectsIndexManager.java:128-145 | the wrong payload class is a ClassCast; an I/O failure gives false; otherwise the index action is recorded |
| ProjectsIndex.FactoryCreate | java/com/google/gerrit/server/replication/ReplicatedProjectsIndexManager.java:47-53 | null iff replication is disabled |
| ProjectsIndex.FactoryCreateWithIndexer | java/com/google/gerrit/server/replication/ReplicatedProjectsIndexManager.java:61-70 | null iff disabled, without subscribing; otherwise the indexer is set for PROJECTS_INDEX_EVENT |
| StreamProcessor.IncomingStreamEventProcessor.constructor | java/com/google/gerrit/server/replication/processors/ReplicatedIncomingStreamEventProcessor.java:17-24 | subscribes for REPLICATED_STREAM_EVENT |
| StreamProcessor.IncomingStreamEventProcessor.Stop | java/com/google/gerrit/server/replication/processors/ReplicatedIncomingStreamEventProcessor.java:53-55 | unsubscribes it |
| StreamProcessor.IncomingStreamEventProcessor.ProcessIncomingReplicatedEvent | java/com/google/gerrit/server/replication/processors/ReplicatedIncomingStreamEventProcessor.java:32-50 | posts the event marked replicated; nothing is queued, no replay is reposted, and the thread's context is restored |
| Broker.IsVisibleToProject | java/com/google/gerrit/server/events/EventBroker.java:217-229 | visible iff the project state permits reading and the user may access it; a backend failure is "not visible" |
| Broker.IsVisibleToChange | java/com/google/gerrit/server/events/EventBroker.java:231-255 | no change is not visible; otherwise the project state and the read permission; a backend failure propagates |
| Broker.IsVisibleToBranch | java/com/google/gerrit/server/events/EventBroker.java:257-270 | the project state and the ref read permission; a backend failure propagates |
| Broker.IsVisibleToEvent | java/com/google/gerrit/server/events/EventBroker.java:272-295 | ref events by change or branch, project events by project, other events always visible |
| Broker.FirstFailingCheck | java/com/google/gerrit/server/events/EventBroker.java:175-215 | the first listener whose visibility check throws |
| Broker.VisibleDeliveriesAreExactlyVisible | java/com/google/gerrit/server/events/EventBroker.java:175-215 | a scoped listener receives the event iff it is visible to its user |
| Broker.InvisibleListenerIsSkipped | java/com/google/gerrit/server/events/EventBroker.java:175-215 | a listener that cannot see the event never receives it |
| Broker.UnrestrictedDeliveries | java/com/google/gerrit/server/events/EventBroker.java:171-173 | every unrestricted listener receives the event, in order |
| Broker.StreamDeliveries | java/com/google/gerrit/server/events/EventBroker.java:147-169 | every stream listener receives a replicated stream event, unfiltered |
| Broker.ReplicatedStreamEventIsNeverRequeued | java/com/google/gerrit/server/events/EventBroker.java:147-169 | posting an event that arrived by replication queues nothing |
| Broker.ReplaysAreNotReposted | java/com/google/gerrit/server/events/EventBroker.java:147-169 | no replay a post causes is posted again |
| Broker.LocalStreamEventIsNotReplayed | java/com/google/gerrit/server/events/EventBroker.java:147-169 | a local event is never replayed |
| Broker.EventBroker.FireEvent | java/com/google/gerrit/server/events/EventBroker.java:175-215 | scoped listeners up to the first throwing check get the event iff visible; unrestricted listeners follow unless a check threw |
| Broker.EventBroker.FireScoped | java/com/google/gerrit/server/events/EventBroker.java:175-215 | the scoped fan-out stops at the first check that throws |
| Broker.EventBroker.FireUnrestricted | java/com/google/gerrit/server/events/EventBroker.java:171-173 | appends one delivery per unrestricted listener |
| Broker.EventBroker.PostStreamEvent | java/com/google/gerrit/server/events/EventBroker.java:147-169 | delivers to every stream listener; the queue and the replays are those of the listeners |
| Broker.EventBroker.PostToStreamListener | java/com/google/gerrit/server/events/EventBroker.java:167-169 | one stream listener is told the event; a feed listener queues what QueuedFor says, an API listener replays what ReplayBy says |
| Broker.EventBroker.RegisterUnrestrictedEventListener | java/com/google/gerrit/server/events/EventBroker.java:306-308 | appends the listener |
| Broker.EventBroker.RegisterReplicatedStreamEventListener | java/com/google/gerrit/server/events/EventBroker.java:316-318 | appends the listener |
| RequestScope.Memoise | java/com/google/gerrit/server/replication/ReplicatedEventRequestScope.java:57-65 | a present value is returned unchanged; a missing one is created and stored |
| RequestScope.MemoisedOnce | java/com/google/gerrit/server/replication/ReplicatedEventRequestScope.java:57-65 | once stored, later creators are ignored |
| RequestScope.Context.constructor | java/com/google/gerrit/server/replication/ReplicatedEventRequestScope.java:42-46 | the context starts with the database provider for its schema factory |
| RequestScope.Context.Get | java/com/google/gerrit/server/replication/ReplicatedEventRequestScope.java:57-65 | the map and value are Memoise's |
| RequestScope.Context.GetReviewDbProvider | java/com/google/gerrit/server/replication/ReplicatedEventRequestScope.java:53-55 | the provider for the context's schema factory |
| RequestScope.Context.GetUser | java/com/google/gerrit/server/replication/ReplicatedEventRequestScope.java:48-51 | always NotImplemented |
| RequestScope.ReplicatedEventRequestScope.NewContext | java/com/google/gerrit/server/replication/ReplicatedEventRequestScope.java:93-95 | a fresh context with the given factory |
| RequestScope.ReplicatedEventRequestScope.Set | java/com/google/gerrit/server/replication/ReplicatedEventRequestScope.java:97-102 | returns the previous context; the slot and the request context become the new one |
| RequestScope.ReplicatedEventRequestScope.Get | java/com/google/gerrit/server/replication/ReplicatedEventRequestScope.java:104-106 | the current slot |
| RequestScope.ReplicatedEventRequestScope.RequireContext | java/com/google/gerrit/server/replication/ReplicatedEventRequestScope.java:77-83 | OutOfScope "Not in command/request" iff there is no context |
| RequestScope.ReplicatedEventRequestScope.ReopenDb | java/com/google/gerrit/server/replication/ReplicatedEventRequestScope.java:109-114 | with no context it throws; otherwise a fresh context for the same factory replaces it and the old one is returned |
| GroupCache.Load | java/com/google/gerrit/server/account/GroupCacheImpl.java:121-155 | a cached value is returned; otherwise the loaded one is stored; a loader failure gives empty and stores nothing |
| GroupCache.LoadedValueIsReused | java/com/google/gerrit/server/account/GroupCacheImpl.java:121-155 | once loaded, a key's value is returned without consulting the loader |
| GroupCache.EvictedKeyIsReloaded | java/com/google/gerrit/server/account/GroupCacheImpl.java:157-193 | after an eviction the next get loads again |
| GroupCache.GroupCacheImpl.constructor | java/com/google/gerrit/server/account/GroupCacheImpl.java:98-106 | empty caches, attached to replication |
| GroupCache.GroupCacheImpl.AttachToReplication | java/com/google/gerrit/server/account/GroupCacheImpl.java:98-106 | enabled: exactly "groups", "groups_byname" and "groups_byuuid" are watched; disabled: nothing |
| GroupCache.GroupCacheImpl.ReplicateEvictionFromCache | java/com/google/gerrit/server/account/GroupCacheImpl.java:114-118 | forwarded iff replication is enabled |
| GroupCache.GroupCacheImpl.GetById | java/com/google/gerrit/server/account/GroupCacheImpl.java:121-128 | a null id throws; otherwise Load on byId |
| GroupCache.GroupCacheImpl.GetByName | java/com/google/gerrit/server/account/GroupCacheImpl.java:131-141 | a null name is empty and leaves the cache alone; otherwise Load on byName |
| GroupCache.GroupCacheImpl.GetByUuid | java/com/google/gerrit/server/account/GroupCacheImpl.java:144-155 | a null UUID is empty and leaves the cache alone; otherwise Load on byUUID |
| GroupCache.GroupCacheImpl.EvictById | java/com/google/gerrit/server/account/GroupCacheImpl.java:157-164 | null: nothing; otherwise byId loses the id, then "groups" is replicated iff enabled |
| GroupCache.GroupCacheImpl.EvictByName | java/com/google/gerrit/server/account/GroupCacheImpl.java:166-173 | null: nothing; byName loses the name string, then "groups_byname" is replicated with the name key |
| GroupCache.GroupCacheImpl.EvictByUuidReplicated | java/com/google/gerrit/server/account/GroupCacheImpl.java:175-182 | null: nothing; byUUID loses the UUID and "groups_byuuid" is replicated iff enabled |
| GroupCache.GroupCacheImpl.EvictByUuid | java/com/google/gerrit/server/account/GroupCacheImpl.java:184-193 | always invalidates; replicates only when asked to and enabled |
| SetHeadView.FullName | java/com/google/gerrit/server/restapi/project/SetHead.java:81 | the result is under refs/ or is HEAD; such names are kept, others become branches |
| SetHeadView.FullNameIsIdempotent | java/com/google/gerrit/server/restapi/project/SetHead.java:81 | normalising twice is normalising once |
| SetHeadView.FastForwardIsRejected | java/com/google/gerrit/server/restapi/project/SetHead.java:101-117 | only NO_CHANGE, RENAMED, FORCED and NEW are accepted |
| SetHeadView.HeadUpdatedEvent | java/com/google/gerrit/server/restapi/project/SetHead.java:127-134 | the event carries the project, old and new head, this node, and is not yet replicated |
| SetHeadView.ReplicatedHeadEventIsNeitherRequeuedNorReplayed | java/com/google/gerrit/server/restapi/project/SetHead.java:191-199 | once marked replicated the head event is not queued again and not replayed |
| SetHeadView.SetHeadRestView.Fire | java/com/google/gerrit/server/restapi/project/SetHead.java:140-145 | the given event goes to the listeners iff there are any |
| SetHeadView.SetHeadRestView.Apply | java/com/google/gerrit/server/restapi/project/SetHead.java:75-125 | each validation error in order; on success HEAD names the full ref; an event fires only when HEAD moved and listeners exist |
| SetHeadView.SetHeadRestView.FireHeadUpdated | java/com/google/gerrit/server/restapi/project/SetHead.java:127-134 | the event is built with this node's identity only if someone listens |
| GarbageCollect.GcEvent | java/com/google/gerrit/server/git/GarbageCollection.java:119-125 | the event carries the project, the statistics and this node, not yet replicated |
| GarbageCollect.Accepted | java/com/google/gerrit/server/git/GarbageCollection.java:83 | the queue accepts only requested projects not already scheduled |
| GarbageCollect.AcceptedIsExactlyTheUnscheduled | java/com/google/gerrit/server/git/GarbageCollection.java:83-89 | accepted iff requested and not scheduled, each once |
| GarbageCollect.RunErrors | java/com/google/gerrit/server/git/GarbageCollection.java:90-115 | errors only for accepted projects, never GC_ALREADY_SCHEDULED |
| GarbageCollect.RunEvents | java/com/google/gerrit/server/git/GarbageCollection.java:90-115 | at most one event per accepted project |
| GarbageCollect.RunErrorsClassify | java/com/google/gerrit/server/git/GarbageCollection.java:103-111 | a missing repository gives REPOSITORY_NOT_FOUND, any other failure GC_FAILED, both iff |
| GarbageCollect.CollectedProjectsFire | java/com/google/gerrit/server/git/GarbageCollection.java:99-102 | a collected project fires its event; a failed one fires none |
| GarbageCollect.ReplicatedGcEventIsReplayedNotRequeued | java/com/google/gerrit/server/git/GarbageCollection.java:240-248 | a replicated gc event is not queued again and is replayed through its facade on another node |
| GarbageCollect.StripBraces | java/com/google/gerrit/server/git/GarbageCollection.java:137-141 | one enclosing pair is removed only when both braces are there; otherwise the text is kept |
| GarbageCollect.ConfigEntriesAppend | java/com/google/gerrit/server/git/GarbageCollection.java:163-177 | formatting a concatenation of names formats each part in turn |
| GarbageCollect.FormatConfigValues | java/com/google/gerrit/server/git/GarbageCollection.java:163-177 | the loop yields one "section[.subsection].name=value; " entry per name, in order |
| GarbageCollect.AppendEntry | java/com/google/gerrit/server/git/GarbageCollection.java:166-174 | the builder gains exactly one ConfigEntry for the name |
| GarbageCollect.NoSetNeverLoggedAsWritten | java/com/google/gerrit/server/git/GarbageCollection.java:150-157 | as written, "no set" is never logged |
| GarbageCollect.GcConfiguration | java/com/google/gerrit/server/git/GarbageCollection.java:150-157 | corrected: "no set" when no gc setting was found |
| GarbageCollect.GcQueue.AddAll | java/com/google/gerrit/server/git/GarbageCollection.java:83 | returns the accepted projects and schedules exactly them |
| GarbageCollect.GcQueue.GcFinished | java/com/google/gerrit/server/git/GarbageCollection.java:112-114 | the project is no longer scheduled |
| GarbageCollect.GarbageCollection.Run | java/com/google/gerrit/server/git/GarbageCollection.java:80-117 | one distinct GC_ALREADY_SCHEDULED error for each refused project and nothing else, then exactly the errors of the accepted ones; every accepted project is finished and the queue ends as it began |
| GarbageCollect.GarbageCollection.CollectAccepted | java/com/google/gerrit/server/git/GarbageCollection.java:90-115 | errors, events and gcFinished calls are those of the accepted projects, in order |
| GarbageCollect.GarbageCollection.CollectOne | java/com/google/gerrit/server/git/GarbageCollection.java:95-114 | one project: its outcome's error, or its event if collected and someone listens; then gcFinished removes it from the queue |
| GarbageCollect.GarbageCollection.RunConfigured | java/com/google/gerrit/server/git/GarbageCollection.java:76-78 | runs with the configured aggressiveness, with the same errors, finishes and events as Run |
| GarbageCollect.GarbageCollection.FireCollected | java/com/google/gerrit/server/git/GarbageCollection.java:119-125 | the event with this node's identity, only if someone listens |
| GarbageCollect.GarbageCollection.Fire | java/com/google/gerrit/server/git/GarbageCollection.java:196-201 | the given event goes to the listeners iff there are any |
| GarbageCollect.AlreadyScheduledErrors | java/com/google/gerrit/server/git/GarbageCollection.java:84-89 | one GC_ALREADY_SCHEDULED error per distinct refused project |
| PersistedEvents.FinalEventFileName | javatests/com/google/gerrit/server/replication/PersistedEventInformationTest.java:85-105 | the final name contains "events" and ".json", as the test asserts; under the assumed template it starts with "events_" |
| PersistedEvents.TempEventFileName | javatests/com/google/gerrit/server/replication/PersistedEventInformationTest.java:73-74 | the temporary name contains "events" and ".tmp", as the test asserts |
| PersistedEvents.MaxWaitMs | javatests/com/google/gerrit/server/replication/PersistedEventInformationTest.java:153-189 | seconds to milliseconds, non-positive iff the setting is |
| PersistedEvents.ThresholdsAreMonotone | javatests/com/google/gerrit/server/replication/PersistedEventInformationTest.java:192-221 | more events or more time never undo a crossed threshold |
| PersistedEvents.ConfiguredWaits | javatests/com/google/gerrit/server/replication/PersistedEventInformationTest.java:153-189 | -1 is -1000 and always expired; 20 is 20000 and not expired within it |
| PersistedEvents.PersistedEventWriter.constructor | javatests/com/google/gerrit/server/replication/PersistedEventInformationTest.java:62-81 | no events written, the wrapper's project, open stream, the two names |
| PersistedEvents.PersistedEventWriter.WriteEventsToFile | javatests/com/google/gerrit/server/replication/PersistedEventInformationTest.java:214-218 | the event is appended and the count rises by one; a closed stream refuses |
| PersistedEvents.PersistedEventWriter.ExceedsMaxEventsBeforeProposing | javatests/com/google/gerrit/server/replication/PersistedEventInformationTest.java:192-221 | the count exceeds the maximum |
| PersistedEvents.PersistedEventWriter.TimeToWaitBeforeProposingExpired | javatests/com/google/gerrit/server/replication/PersistedEventInformationTest.java:137-189 | a non-positive wait, or more time elapsed than allowed |
| PersistedEvents.PersistedEventWriter.IsReadyToPublish | javatests/com/google/gerrit/server/replication/PersistedEventInformationTest.java:137-221 | either threshold is crossed |
| PersistedEvents.PersistedEventWriter.SetFileReady | javatests/com/google/gerrit/server/replication/PersistedEventInformationTest.java:226-253 | closes the stream only when something was written |
| PersistedEvents.PersistedEventWriter.SetFinalEventFileName | javatests/com/google/gerrit/server/replication/PersistedEventInformationTest.java:114 | sets the final name |
| PersistedEvents.PersistedEventWriter.AtomicRenameTmpFilename | javatests/com/google/gerrit/server/replication/PersistedEventInformationTest.java:108-134 | no final name: nothing changes; otherwise the temporary file is gone and its events, in order, are under the final name |
| PersistedEvents.ThreeWritesExceedMaxOfTwo | javatests/com/google/gerrit/server/replication/PersistedEventInformationTest.java:192-221 | three writes with a maximum of two: count 3, exceeded, closed once ready |
| PersistedEvents.ReadyWithoutEventsStaysOpen | javatests/com/google/gerrit/server/replication/PersistedEventInformationTest.java:226-236 | with no events, setFileReady leaves the stream open |
| PersistedEvents.RenameWithoutFinalName | javatests/com/google/gerrit/server/replication/PersistedEventInformationTest.java:108-120 | a cleared final name: the temporary file stays and the name stays null |
| PersistedEvents.RenamePublishes | javatests/com/google/gerrit/server/replication/PersistedEventInformationTest.java:123-134 | the temporary file is gone and the final file holds the written event |

## Left out

- Serialisation (Gson) is abstract. `Decode` checks only the class name and the classpath, and the JSON is the payload itself. `rebuildOriginal` and the wrapper `toString`/describe messages are not modelled.
- Reflection (`Class.forName`, `getMethod`, `invoke`) is replaced by a watched object's set of method signatures and a flag telling whether the invocation throws.
- Concurrency:
  - `ConcurrentHashMap`, `synchronized`, the worker threads and the scheduling are not modelled.
  - The static `ThreadLocal` context slot is one shared `ThreadSlots` object.
- I/O is modelled through parameters and is otherwise left out:
  - `mkdirs`, file streams and JGit repositories are parameters or small state objects;
  - gc itself is an outcome parameter;
  - logging is not modelled except the gc brace stripping and the configuration text;
  - metrics are not modelled except the eviction and reload counters.
- Permission checks, the project cache, change notes and `PatchSet.isChangeRef` are oracle parameters of the broker.
- Clocks, nano times, hashes and SHA-1 digests are parameters.
- The following are not part of this model. Only the calls the core makes on them are recorded:
  - `Replicator`, modelled by the coordinator and its registry;
  - `ReplicatedOutgoingProjectEventsFeed` and `ReplicatedOutgoingCacheEventsFeed`, whose requests are logs of the messages and evictions they are asked for;
  - `GarbageCollectionQueue`, modelled as a set with addAll and gcFinished;
  - `RefNames`, whose `fullName` is taken as: keep a name under refs/ or HEAD, otherwise prefix refs/heads/;
  - `PersistedEventInformation`, modelled from its unit test.
- The origins of `createReplicatedStreamEvent` and `createReplicatedProjectsIndexEvent` are taken as the origins their processors subscribe for. These two factories are not in GerritEventFactory.java.
- Lower-casing covers ASCII letters only.
- Incoming wrappers are stamped by returning the stamped value rather than mutating a shared object, so aliasing of the wrapper is not captured.
- The broker's NewProjectCreated listeners and `getReviewDbProvider` are not modelled.
- Broker.IsVisibleToChange and Broker.IsVisibleToEvent do not model OrmException. In the source, opening the review database, or `notesFactory.createChecked` failing with anything other than NoSuchChangeException, propagates out of isVisibleTo (EventBroker.java:231-253, 272-289). The model has only the permission-backend failure as an error; a change that cannot be found falls back on the branch check.
- PersistedEvents.FinalEventFileName assumes the template "events_%s_%s_%s_%s.json" for NEXT_EVENTS_FILE, because the file that defines the constant is not part of this model. Only "contains events and .json" comes from the test; the "events_" prefix and the underscores follow from the assumed template.
- PersistedEvents.TempEventFileName assumes "events-<unique>.tmp" for the temporary file, for the same reason. Only "contains events and .tmp" comes from the test.
- The broker's plugin listener context (`runEach`) never throws, so the stream processor's restore-in-finally is an unconditional restore.
- SetHeadView.SetHeadRestView.Apply assumes that an accepted link result leaves HEAD naming the new ref and that a rejected one leaves it unchanged. This is JGit's behaviour, and JGit is not part of this model. An IOException from opening the repository is reported as IOFailure with the project name, because the real message is not modelled.
- PersistedEvents.PersistedEventWriter.WriteEventsToFile does not take the project-name argument, because the test shows no use of it. A write to a closed stream is taken to fail with an I/O error.
- PersistedEvents.PersistedEventWriter.AtomicRenameTmpFilename takes a second rename, when the temporary file is already gone, to fail with an I/O error. The test does not cover that case.
- GarbageCollect.GarbageCollection.Run handles the accepted projects in request order. The source iterates the set that addAll returns, whose order it does not fix; the set of projects handled, and what each one records, is the same.
- GarbageCollect.AlreadyScheduledErrors returns the refused projects in an unspecified order, because the source iterates a hash set.
- The staging writer's readiness uses "count > maximum", as the unit test asserts (three events exceed a maximum of two).
- GroupCache.GroupCacheImpl.EvictByName replicates the name key while the local cache is keyed by the name string, as the source does. Whether the receiving node converts the key happens in a cache wrapper that is not part of this model.

## Findings

| source | as written | input that shows it | evidently intended | confidence | as-written member | corrected member |
|---|---|---|---|---|---|---|
| java/com/google/gerrit/server/replication/feeds/ReplicatedOutgoingStreamEventsFeed.java:117-121 | the skip list is matched against the lower-cased simple class name, which is "event" for every facade event class | skip list {"changemerged"} and a ChangeMerged stream event: it is still queued, while the single entry "event" skips every facade's events | match the event type's name, so that "changemerged" skips ChangeMerged events | medium; not executed | StreamFeed.ChangeMergedQueuedOnlyAsWritten | StreamFeed.QueuedForCorrected |
| java/com/google/gerrit/server/git/GarbageCollection.java:150-157 | "no set" is appended only when the text is empty, but the text always starts with "gc.aggressive=…; " | a repository with no gc settings logs "gc.aggressive=false; " and never "no set" | report "no set" when no gc setting was found | low; not executed | GarbageCollect.NoSetNeverLoggedAsWritten | GarbageCollect.GcConfiguration |

The feed's listener, and the broker that calls it, keep the skip check as written, so that they stay faithful to the code; `StreamFeed.QueuedForCorrected` is the corrected definition, and `StreamFeed.ChangeMergedSkipped` proves the intended behaviour of its skip check.
