/**
 * ReplicatedIncomingProjectEventProcessor: applies a replicated project
 * deletion (drop the repository from the cache, then report back whether the
 * project may be deleted on disk) or a deletion of a project's changes.
 */
module ProjectProcessor {
  import opened Events
  import opened Coordination

  /** What opening the repository does: it opens, is not found, or fails with an I/O error. */
  datatype RepositoryOpen = Opened | RepositoryNotFound | RepositoryIOFailure

  /** A request made to the outgoing project events feed: createDeleteProjectMessageEvent. */
  datatype MessageRequest = MessageRequest(taskUuid: string, deleteProjectOnDisk: bool, projectName: string)

  /** applyActionsForDeletingProject: true exactly when the repository opened (and was then closed and uncached). */
  function ApplyActionsForDeletingProject(repository: RepositoryOpen): (removed: bool)
    ensures removed <==> repository == Opened
  {
    match repository
    case Opened => true
    case RepositoryNotFound => false
    case RepositoryIOFailure => false
  }

  /** Whether the project may also be deleted on disk: the cache removal succeeded and it is not to be preserved. */
  function DeleteProjectOnDisk(wrapper: ProjectInfoWrapper, repository: RepositoryOpen): (onDisk: bool)
    ensures onDisk <==> repository == Opened && !wrapper.preserve
  {
    ApplyActionsForDeletingProject(repository) && !wrapper.preserve
  }

  /** A preserved project is never deleted on disk, whatever happened to the cache. */
  lemma PreservedProjectStaysOnDisk(wrapper: ProjectInfoWrapper, repository: RepositoryOpen)
    requires wrapper.preserve
    ensures !DeleteProjectOnDisk(wrapper, repository)
  {
  }

  const UNKNOWN_EVENT: string := "Encountered unknown ReplicatedEvent type "

  class IncomingProjectEventProcessor {
    const coordinator: Coordinator
    /** The projects removed from the repository cache, in order. */
    var uncachedProjects: seq<string>
    /** The requests made to the outgoing project events feed. */
    var messageRequests: seq<MessageRequest>
    /** The change lists handed to the index processor for deletion. */
    var changeDeletions: seq<seq<int>>

    /** The constructor subscribes the processor for delete-project events. */
    constructor (coordinator: Coordinator)
      modifies coordinator.registry
      ensures this.coordinator == coordinator
      ensures uncachedProjects == [] && messageRequests == [] && changeDeletions == []
      ensures coordinator.registry.processors
              == PutIfAbsent(old(coordinator.registry.processors), DeleteProjectEvent, ProjectProcessor)
    {
      this.coordinator := coordinator;
      uncachedProjects := [];
      messageRequests := [];
      changeDeletions := [];
      new;
      coordinator.registry.Subscribe(DeleteProjectEvent, ProjectProcessor);
    }

    /** stop: unsubscribes the origin. */
    method Stop()
      modifies coordinator.registry
      ensures coordinator.registry.processors == old(coordinator.registry.processors) - {DeleteProjectEvent}
    {
      coordinator.registry.Unsubscribe(DeleteProjectEvent, ProjectProcessor);
    }

    /**
     * processIncomingReplicatedEvent: change deletions and project deletions
     * are routed to their handlers; any other event is an unknown type, and a
     * null one throws on its toString().
     */
    method ProcessIncomingReplicatedEvent(event: Option<Payload>, repository: RepositoryOpen, deleteChangesFails: bool)
      returns (r: Outcome)
      modifies this`uncachedProjects, this`messageRequests, this`changeDeletions
      ensures event.None? ==> r == Failed(NullPointer)
      ensures event.Some? && !event.value.DeleteProjectChangePayload? && !event.value.ProjectInfoPayload? ==>
        r == Failed(UnknownType(UNKNOWN_EVENT + ClassName(event.value)))
      ensures event.Some? && (event.value.DeleteProjectChangePayload? || event.value.ProjectInfoPayload?) ==> r == Done
      ensures event.Some? && event.value.ProjectInfoPayload? ==>
        messageRequests == old(messageRequests) + [MessageRequest(event.value.info.taskUuid,
          DeleteProjectOnDisk(event.value.info, repository), event.value.info.projectName)]
      ensures event.Some? && event.value.DeleteProjectChangePayload? ==>
        changeDeletions == old(changeDeletions) + [event.value.deleteChange.changeIds]
        && messageRequests == old(messageRequests)
      ensures !(event.Some? && event.value.ProjectInfoPayload?) ==> uncachedProjects == old(uncachedProjects)
      ensures !(event.Some? && event.value.DeleteProjectChangePayload?) ==> changeDeletions == old(changeDeletions)
      ensures event.None? || !event.value.ProjectInfoPayload? ==> messageRequests == old(messageRequests)
    {
      if event.None? {
        return Failed(NullPointer);
      }
      match event.value {
        case DeleteProjectChangePayload(change) =>
          var _ := DeleteProjectChanges(Some(change), deleteChangesFails);
          r := Done;
        case ProjectInfoPayload(info) =>
          var _ := DeleteProject(Some(info), repository);
          r := Done;
        case _ =>
          r := Failed(UnknownType(UNKNOWN_EVENT + ClassName(event.value)));
      }
    }

    /**
     * deleteProject: nothing for a null wrapper.  Otherwise the wrapper is
     * stamped, the repository dropped from the cache if it opens, and the
     * completion message always requested, deleting on disk only when the
     * cache removal succeeded and the project is not preserved.
     */
    method DeleteProject(wrapper: Option<ProjectInfoWrapper>, repository: RepositoryOpen) returns (stamped: Option<ProjectInfoWrapper>)
      modifies this`uncachedProjects, this`messageRequests
      ensures wrapper.None? ==> stamped == None && uncachedProjects == old(uncachedProjects)
                                && messageRequests == old(messageRequests)
      ensures wrapper.Some? ==>
        var w := wrapper.value;
        && stamped == Some(w.(meta := Stamp(w.meta, coordinator.nodeIdentity)))
        && uncachedProjects == old(uncachedProjects) + (if repository == Opened then [w.projectName] else [])
        && messageRequests == old(messageRequests) + [MessageRequest(w.taskUuid, DeleteProjectOnDisk(w, repository), w.projectName)]
    {
      if wrapper.None? {
        return None;
      }
      var w := wrapper.value;
      w := w.(meta := Stamp(w.meta, coordinator.GetThisNodeIdentity()));
      var removed := ApplyActionsForDeletingProject(repository);
      if removed {
        uncachedProjects := uncachedProjects + [w.projectName];
      }
      var onDisk := removed && !w.preserve;
      messageRequests := messageRequests + [MessageRequest(w.taskUuid, onDisk, w.projectName)];
      stamped := Some(w);
    }

    /**
     * deleteProjectChanges: nothing for a null event; otherwise it is stamped
     * and its changes handed for deletion, an I/O failure there being only
     * logged.
     */
    method DeleteProjectChanges(event: Option<DeleteProjectChange>, deleteChangesFails: bool)
      returns (stamped: Option<DeleteProjectChange>)
      modifies this`changeDeletions
      ensures event.None? ==> stamped == None && changeDeletions == old(changeDeletions)
      ensures event.Some? ==>
        && stamped == Some(event.value.(meta := Stamp(event.value.meta, coordinator.nodeIdentity)))
        && changeDeletions == old(changeDeletions) + [event.value.changeIds]
    {
      if event.None? {
        return None;
      }
      var e := event.value.(meta := Stamp(event.value.meta, coordinator.GetThisNodeIdentity()));
      changeDeletions := changeDeletions + [e.changeIds];
      stamped := Some(e);
    }
  }
}
