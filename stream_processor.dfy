/**
 * ReplicatedIncomingStreamEventProcessor: applies a stream event that arrived
 * from another node by marking it replicated and posting it to the broker
 * under a fresh request context, which is then put back.
 */
module StreamProcessor {
  import opened Events
  import opened Coordination
  import opened StreamListener
  import opened Broker
  import opened RequestScope

  class IncomingStreamEventProcessor {
    const coordinator: Coordinator
    /** The coordinator's event broker, request scope and schema factory. */
    const broker: EventBroker
    const coordinatorScope: ReplicatedEventRequestScope
    const schemaFactory: nat
    /** The processor's own request scope. */
    const scope: ReplicatedEventRequestScope

    /** The constructor subscribes the processor for replicated stream events. */
    constructor (coordinator: Coordinator, broker: EventBroker, coordinatorScope: ReplicatedEventRequestScope,
                 schemaFactory: nat, scope: ReplicatedEventRequestScope)
      modifies coordinator.registry
      ensures this.coordinator == coordinator && this.broker == broker && this.coordinatorScope == coordinatorScope
      ensures this.schemaFactory == schemaFactory && this.scope == scope
      ensures coordinator.registry.processors
              == PutIfAbsent(old(coordinator.registry.processors), ReplicatedStreamEvent, StreamProcessor)
    {
      this.coordinator := coordinator;
      this.broker := broker;
      this.coordinatorScope := coordinatorScope;
      this.schemaFactory := schemaFactory;
      this.scope := scope;
      new;
      coordinator.registry.Subscribe(ReplicatedStreamEvent, StreamProcessor);
    }

    /** stop: unsubscribes the origin. */
    method Stop()
      modifies coordinator.registry
      ensures coordinator.registry.processors == old(coordinator.registry.processors) - {ReplicatedStreamEvent}
    {
      coordinator.registry.Unsubscribe(ReplicatedStreamEvent, StreamProcessor);
    }

    /**
     * processIncomingReplicatedEvent: the event, marked replicated and with
     * its originating node untouched, reaches every stream listener once.  No
     * feed queues it again, every replay it causes is not posted again, and
     * the thread's context is the one it had before.
     */
    method ProcessIncomingReplicatedEvent(event: StreamEvent) returns (replays: seq<Replay>)
      requires broker.Valid()
      requires coordinatorScope.thread == scope.thread
      modifies broker`streamDelivered, broker.coordinator`outgoing, scope.thread
      ensures var posted := SetStreamEventReplicated(event, true);
        && posted.nodeIdentity == event.nodeIdentity && ReplicationSuccessful(posted)
        && broker.streamDelivered == old(broker.streamDelivered) + StreamDeliveries(broker.streamListeners, posted)
        && replays == Replays(broker.streamListeners, posted)
        && (forall r :: r in replays ==> r.event == posted && OnFacadeEvent(r.listener, r.facade, posted) == NoAction)
      ensures broker.coordinator.outgoing == old(broker.coordinator.outgoing)
      ensures scope.thread.current == old(scope.thread.current)
      ensures scope.thread.requestContext == old(scope.thread.current)
    {
      var posted := SetStreamEventReplicated(event, true);
      var ctx := scope.NewContext(schemaFactory);
      var previous := coordinatorScope.Set(ctx);
      replays := broker.PostStreamEvent(posted);
      ReplicatedStreamEventIsNeverRequeued(broker.streamListeners, broker.coordinator.enabled, posted);
      ReplaysAreNotReposted(broker.streamListeners, posted);
      var _ := scope.Set(previous);
    }
  }
}
