/**
 * ReplicatedOutgoingStreamEventsFeed.start: the feed registers its own
 * listener and then the API listener with the broker, and from then on the
 * two together decide what a stream event posted to the broker causes.
 */
module StreamFeedStart {
  import opened Events
  import opened EventFactory
  import opened StreamFeed
  import opened StreamListener
  import opened Broker

  /** The two replicated-stream listeners start() registers, in its order. */
  function StartedListeners(feed: OutgoingStreamEventsFeed, api: ApiListener): seq<StreamListenerEntry>
  {
    [StreamListenerEntry("OutgoingStreamEventsFeedListener", FeedListener(feed)),
     StreamListenerEntry("ReplicatedStreamEventsApiListener", ApiListenerImpl(api))]
  }

  /**
   * start: the feed's listener first, then the API listener, after any
   * already registered.  The coordinator hands out the API listener, which
   * takes this node's identity as its own.
   */
  method Start(feed: OutgoingStreamEventsFeed, broker: EventBroker)
    requires broker.Valid() && feed.coordinator == broker.coordinator
    modifies broker`streamListeners
    ensures broker.streamListeners
            == old(broker.streamListeners) + StartedListeners(feed, ApiListener(broker.coordinator.nodeIdentity))
    ensures broker.Valid()
  {
    broker.RegisterReplicatedStreamEventListener("OutgoingStreamEventsFeedListener", FeedListener(feed));
    var api := ApiListener(feed.coordinator.GetThisNodeIdentity());
    broker.RegisterReplicatedStreamEventListener("ReplicatedStreamEventsApiListener", ApiListenerImpl(api));
  }

  /** What the started listeners queue: the feed's decision, and nothing more. */
  lemma StartedListenersQueue(feed: OutgoingStreamEventsFeed, api: ApiListener, enabled: bool, event: StreamEvent)
    ensures StreamQueued(StartedListeners(feed, api), enabled, event) == QueuedFor(feed.skipList, enabled, event)
  {
    var entries := StartedListeners(feed, api);
    assert entries[..1][..0] == [];
    assert entries[..|entries| - 1] == entries[..1];
    assert StreamQueued(entries[..1], enabled, event) == StreamQueued([], enabled, event) + QueuedFor(feed.skipList, enabled, event);
    assert StreamQueued(entries, enabled, event) == StreamQueued(entries[..1], enabled, event) + [];
  }

  /** What the started listeners replay: the API listener's decision, and nothing more. */
  lemma StartedListenersReplay(feed: OutgoingStreamEventsFeed, api: ApiListener, event: StreamEvent)
    ensures Replays(StartedListeners(feed, api), event) == ReplayBy(api, event)
  {
    var entries := StartedListeners(feed, api);
    assert entries[..1][..0] == [];
    assert entries[..|entries| - 1] == entries[..1];
    assert Replays(entries[..1], event) == Replays([], event) + [];
    assert Replays(entries, event) == Replays(entries[..1], event) + ReplayBy(api, event);
  }

  /**
   * With the started listeners, an event posted on the node that fired it is
   * queued exactly as the feed decides and is not replayed; once it arrives
   * elsewhere marked replicated, it is not queued again, and it is replayed
   * once through its own facade when it came from another node and is in the
   * replay chain.
   */
  lemma StartedListenersBreakTheLoop(feed: OutgoingStreamEventsFeed, api: ApiListener, enabled: bool, event: StreamEvent)
    ensures !ReplicationSuccessful(event) ==>
      && StreamQueued(StartedListeners(feed, api), enabled, event) == QueuedFor(feed.skipList, enabled, event)
      && Replays(StartedListeners(feed, api), event) == []
    ensures var replicated := SetStreamEventReplicated(event, true);
      && StreamQueued(StartedListeners(feed, api), enabled, replicated) == []
      && (event.nodeIdentity != api.localNodeId && event.eventClass.FacadeEvent? && event.eventClass.facade in REPLAY_CHAIN ==>
            Replays(StartedListeners(feed, api), replicated) == [Replay(api, event.eventClass.facade, replicated)])
  {
    var replicated := SetStreamEventReplicated(event, true);
    StartedListenersQueue(feed, api, enabled, event);
    StartedListenersQueue(feed, api, enabled, replicated);
    ReplicatedEventIsNotRequeued(feed.skipList, enabled, replicated);
    StartedListenersReplay(feed, api, event);
    StartedListenersReplay(feed, api, replicated);
  }
}
