/**
 * ReplicatedIncomingAccountGroupIndexEventProcessor: reindexes a group
 * locally, without replicating the reindex again.
 */
module GroupIndexProcessor {
  import opened Events
  import opened Coordination

  const REINDEX_ISSUE: string := "RC AccountUser reindex issue hit while carrying out reindex of "

  class IncomingAccountGroupIndexEventProcessor {
    const coordinator: Coordinator
    /** The group indexer the coordinator hands out. */
    const coordinatorIndexer: Instance
    var indexer: Option<Instance>
    /** How many times the coordinator was asked for the indexer. */
    var indexerLookups: nat
    /** The group UUIDs reindexed through indexNoRepl, in order. */
    var reindexed: seq<string>

    /** The constructor subscribes the processor for account group index events. */
    constructor (coordinator: Coordinator, coordinatorIndexer: Instance)
      modifies coordinator.registry
      ensures this.coordinator == coordinator && this.coordinatorIndexer == coordinatorIndexer
      ensures indexer == None && indexerLookups == 0 && reindexed == []
      ensures coordinator.registry.processors
              == PutIfAbsent(old(coordinator.registry.processors), AccountGroupIndexEvent, AccountGroupIndexProcessor)
    {
      this.coordinator := coordinator;
      this.coordinatorIndexer := coordinatorIndexer;
      indexer := None;
      indexerLookups := 0;
      reindexed := [];
      new;
      coordinator.registry.Subscribe(AccountGroupIndexEvent, AccountGroupIndexProcessor);
    }

    /** stop: unsubscribes the origin. */
    method Stop()
      modifies coordinator.registry
      ensures coordinator.registry.processors == old(coordinator.registry.processors) - {AccountGroupIndexEvent}
    {
      coordinator.registry.Unsubscribe(AccountGroupIndexEvent, AccountGroupIndexProcessor);
    }

    /** getIndexer: fetched from the coordinator on the first call only. */
    method GetIndexer() returns (i: Instance)
      modifies this`indexer, this`indexerLookups
      ensures indexer == Some(i)
      ensures old(indexer).Some? ==> i == old(indexer).value && indexerLookups == old(indexerLookups)
      ensures old(indexer).None? ==> i == coordinatorIndexer && indexerLookups == old(indexerLookups) + 1
    {
      if indexer.None? {
        indexer := Some(coordinatorIndexer);
        indexerLookups := indexerLookups + 1;
      }
      i := indexer.value;
    }

    /**
     * processIncomingReplicatedEvent: the event must be a group index event
     * (the cast fails otherwise); its UUID is reindexed locally, and an I/O
     * failure surfaces as a transient error.
     */
    method ProcessIncomingReplicatedEvent(event: AccountIndexEvent, indexFails: bool) returns (r: Outcome)
      modifies this`indexer, this`indexerLookups, this`reindexed
      ensures event.AccountUserIndex? ==> r == Failed(ClassCast) && reindexed == old(reindexed)
      ensures event.AccountGroupIndex? && indexFails ==>
        r == Failed(Transient(REINDEX_ISSUE + event.groupUuid)) && reindexed == old(reindexed)
      ensures event.AccountGroupIndex? && !indexFails ==> r == Done && reindexed == old(reindexed) + [event.groupUuid]
      ensures event.AccountGroupIndex? ==> indexer.Some? && indexerLookups <= old(indexerLookups) + 1
      ensures old(indexer).Some? ==> indexer == old(indexer) && indexerLookups == old(indexerLookups)
    {
      if event.AccountUserIndex? {
        return Failed(ClassCast);
      }
      var _ := GetIndexer();
      if indexFails {
        return Failed(Transient(REINDEX_ISSUE + event.groupUuid));
      }
      reindexed := reindexed + [event.groupUuid];
      r := Done;
    }
  }
}
