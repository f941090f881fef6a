/**
 * The outgoing index feeds: each call turns a local reindex into exactly one
 * envelope on the coordinator's outgoing queue.
 */
module OutgoingFeeds {
  import opened Events
  import opened EventFactory
  import opened Coordination

  /** The Serializable identifier handed to the account feed. */
  datatype Identifier =
    | AccountId(id: int)
    | GroupUuid(uuid: string)
    | OtherIdentifier(description: string)

  /** ReplicatedOutgoingAccountBaseIndexEventsFeed. */
  class AccountBaseIndexEventsFeed {
    const coordinator: Coordinator

    constructor (coordinator: Coordinator)
      ensures this.coordinator == coordinator
    {
      this.coordinator := coordinator;
    }

    /**
     * replicateReindex: an account id becomes an AccountUserIndexEvent, a group
     * UUID an AccountGroupIndexEvent, both stamped with this node's identity
     * and addressed to All-Users.  Any other identifier leaves the payload and
     * origin null, and the factory's getClass() on the null payload throws, so
     * nothing is queued.
     */
    method ReplicateReindex(identifier: Identifier) returns (r: Outcome)
      modifies coordinator`outgoing
      ensures identifier.OtherIdentifier? ==> r == Failed(NullPointer) && coordinator.outgoing == old(coordinator.outgoing)
      ensures !identifier.OtherIdentifier? ==>
        var base := if identifier.AccountId?
          then AccountUserIndex(identifier.id, EventMeta(coordinator.nodeIdentity, false))
          else AccountGroupIndex(identifier.uuid, EventMeta(coordinator.nodeIdentity, false));
        var w := CreateReplicatedAccountIndexEvent(ALL_USERS, base, ExpectedOrigin(AccountIndexPayload(base)));
        && (coordinator.enabled ==> r == Done && coordinator.outgoing == old(coordinator.outgoing) + [w])
        && (!coordinator.enabled ==> r == Failed(NullPointer) && coordinator.outgoing == old(coordinator.outgoing))
    {
      var base: AccountIndexEvent;
      var originator: Origin;
      match identifier {
        case AccountId(id) =>
          base := AccountUserIndex(id, EventMeta(coordinator.GetThisNodeIdentity(), false));
          originator := AccountUserIndexEvent;
        case GroupUuid(uuid) =>
          base := AccountGroupIndex(uuid, EventMeta(coordinator.GetThisNodeIdentity(), false));
          originator := AccountGroupIndexEvent;
        case OtherIdentifier(_) =>
          return Failed(NullPointer);
      }
      r := coordinator.QueueEventForReplication(CreateReplicatedAccountIndexEvent(ALL_USERS, base, originator));
    }
  }

  /**
   * What the account feed queues for an identifier it accepts: one envelope
   * to All-Users, whose origin is the one its payload kind travels under and
   * whose payload names the identifier and this node.
   */
  lemma AccountIndexEnvelope(identifier: Identifier, nodeIdentity: string)
    requires !identifier.OtherIdentifier?
    ensures var base := if identifier.AccountId?
          then AccountUserIndex(identifier.id, EventMeta(nodeIdentity, false))
          else AccountGroupIndex(identifier.uuid, EventMeta(nodeIdentity, false));
      var w := CreateReplicatedAccountIndexEvent(ALL_USERS, base, ExpectedOrigin(AccountIndexPayload(base)));
      && w.projectName == Some(ALL_USERS)
      && (identifier.AccountId? ==> w.origin == AccountUserIndexEvent)
      && (identifier.GroupUuid? ==> w.origin == AccountGroupIndexEvent)
      && Decode(w, {w.className}) == Ok(AccountIndexPayload(base))
      && base.meta.nodeIdentity == nodeIdentity && !base.meta.replicated
  {
  }

  /** ReplicatedOutgoingProjectIndexEventsFeed. */
  class ProjectIndexEventsFeed {
    const coordinator: Coordinator

    constructor (coordinator: Coordinator)
      ensures this.coordinator == coordinator
    {
      this.coordinator := coordinator;
    }

    /**
     * replicateReindex: one ProjectIndexEvent carrying the project, this node's
     * identity and the delete flag, addressed to All-Projects rather than to
     * the reindexed project.
     */
    method ReplicateReindex(nameKey: string, deleteFromIndex: bool) returns (r: Outcome)
      modifies coordinator`outgoing
      ensures var w := CreateReplicatedProjectsIndexEvent(ALL_PROJECTS,
                ProjectIndexEvent(nameKey, EventMeta(coordinator.nodeIdentity, false), deleteFromIndex));
        && (coordinator.enabled ==> r == Done && coordinator.outgoing == old(coordinator.outgoing) + [w])
        && (!coordinator.enabled ==> r == Failed(NullPointer) && coordinator.outgoing == old(coordinator.outgoing))
    {
      var event := ProjectIndexEvent(nameKey, EventMeta(coordinator.GetThisNodeIdentity(), false), deleteFromIndex);
      r := coordinator.QueueEventForReplication(CreateReplicatedProjectsIndexEvent(ALL_PROJECTS, event));
    }
  }
}
