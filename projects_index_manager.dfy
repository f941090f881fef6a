/**
 * ReplicatedProjectsIndexManager: replicates project reindexes as events to
 * All-Projects and applies incoming ones locally.  The replicator singleton
 * it talks to is modelled by the coordinator: its registry, queue and node
 * identity.
 */
module ProjectsIndex {
  import opened Events
  import opened EventFactory
  import opened Coordination

  /** A local, non-replicating index operation on a project. */
  datatype IndexAction = IndexNoRepl(project: string) | DeleteIndexNoRepl(project: string)

  /** The local action an incoming project index event calls for. */
  function ReindexAction(e: ProjectIndexEvent): (a: IndexAction)
    ensures a.project == e.projectName
    ensures a.DeleteIndexNoRepl? <==> e.deleteIndex
  {
    if e.deleteIndex then DeleteIndexNoRepl(e.projectName) else IndexNoRepl(e.projectName)
  }

  /**
   * What publishIncomingReplicatedEvents does with an envelope, given the
   * originator the manager was bound to, the loadable classes and whether
   * the index operation throws an I/O error: the action taken, if any, and
   * the result (an uncaught ClassCastException when the class named is not a
   * project index event).
   */
  function Publish(newEvent: Option<EventWrapper>, originator: Option<Origin>, classpath: set<string>, ioFails: bool)
    : (r: (Option<IndexAction>, Result<bool>))
    ensures r.1 == Ok(true) <==> r.0.Some?
    ensures newEvent.None? || originator != Some(newEvent.value.origin) ==> r == (None, Ok(false))
    ensures r.0.Some? ==>
      && Decode(newEvent.value, classpath).Ok?
      && Decode(newEvent.value, classpath).value.ProjectIndexPayload?
      && r.0.value == ReindexAction(Decode(newEvent.value, classpath).value.projectEvent)
  {
    if newEvent.None? || originator != Some(newEvent.value.origin) then (None, Ok(false))
    else match Decode(newEvent.value, classpath)
      case Err(_) => (None, Ok(false))
      case Ok(p) =>
        if !p.ProjectIndexPayload? then (None, Err(ClassCast))
        else if ioFails then (None, Ok(false))
        else (Some(ReindexAction(p.projectEvent)), Ok(true))
  }

  /**
   * The round trip: an envelope built by replicateReindex on one node, for a
   * manager bound to PROJECTS_INDEX_EVENT on another, performs on that node
   * the same local operation on the same project.
   */
  lemma ReplicatedReindexIsAppliedRemotely(nameKey: string, node: string, deleteFromIndex: bool, classpath: set<string>)
    requires ClassName(ProjectIndexPayload(ProjectIndexEvent(nameKey, EventMeta(node, false), deleteFromIndex))) in classpath
    ensures var w := CreateReplicatedProjectsIndexEvent(ALL_PROJECTS, ProjectIndexEvent(nameKey, EventMeta(node, false), deleteFromIndex));
      Publish(Some(w), Some(ProjectsIndexEvent), classpath, false)
        == (Some(if deleteFromIndex then DeleteIndexNoRepl(nameKey) else IndexNoRepl(nameKey)), Ok(true))
  {
    var e := ProjectIndexEvent(nameKey, EventMeta(node, false), deleteFromIndex);
    var w := CreateReplicatedProjectsIndexEvent(ALL_PROJECTS, e);
    assert Decode(w, classpath) == Ok(ProjectIndexPayload(e));
  }

  class ProjectsIndexManager {
    /** The replicator singleton. */
    const replicator: Coordinator
    var indexer: Option<Instance>
    var originator: Option<Origin>
    /** The local index operations performed, in order. */
    var indexed: seq<IndexAction>

    constructor (replicator: Coordinator)
      ensures this.replicator == replicator
      ensures indexer == None && originator == None && indexed == []
    {
      this.replicator := replicator;
      indexer := None;
      originator := None;
      indexed := [];
    }

    /** setIndexer: binds the indexer and the originator, subscribing only if nothing is subscribed for it yet. */
    method SetIndexer(indexer: Instance, event: Origin)
      modifies this`indexer, this`originator, replicator.registry
      ensures this.indexer == Some(indexer) && originator == Some(event)
      ensures event in old(replicator.registry.processors) ==>
        replicator.registry.processors == old(replicator.registry.processors)
      ensures event !in old(replicator.registry.processors) ==>
        replicator.registry.processors == old(replicator.registry.processors)[event := ProjectsIndexManager]
    {
      this.indexer := Some(indexer);
      originator := Some(event);
      if !replicator.registry.IsSubscribed(event) {
        replicator.registry.Subscribe(event, ProjectsIndexManager);
      }
    }

    /**
     * replicateReindex: one event carrying the project, this node's identity
     * and the delete flag, addressed to All-Projects.
     */
    method ReplicateReindex(nameKey: string, deleteFromIndex: bool) returns (r: Outcome)
      modifies replicator`outgoing
      ensures var w := CreateReplicatedProjectsIndexEvent(ALL_PROJECTS,
                ProjectIndexEvent(nameKey, EventMeta(replicator.nodeIdentity, false), deleteFromIndex));
        && (replicator.enabled ==> r == Done && replicator.outgoing == old(replicator.outgoing) + [w])
        && (!replicator.enabled ==> r == Failed(NullPointer) && replicator.outgoing == old(replicator.outgoing))
    {
      var indexEvent := ProjectIndexEvent(nameKey, EventMeta(replicator.GetThisNodeIdentity(), false), deleteFromIndex);
      r := replicator.QueueEventForReplication(CreateReplicatedProjectsIndexEvent(ALL_PROJECTS, indexEvent));
    }

    /**
     * publishIncomingReplicatedEvents: false for a null event, for one of
     * another origin, for an unknown class or unparsable JSON, and when the
     * index operation fails; otherwise the project is deleted from or added
     * to the local index, and the result is true.
     */
    method PublishIncomingReplicatedEvents(newEvent: Option<EventWrapper>, classpath: set<string>, ioFails: bool)
      returns (r: Result<bool>)
      modifies this`indexed
      ensures var (action, result) := Publish(newEvent, originator, classpath, ioFails);
        && r == result
        && indexed == old(indexed) + (if action.Some? then [action.value] else [])
    {
      if newEvent.None? {
        return Ok(false);
      }
      r := Ok(false);
      if Some(newEvent.value.origin) == originator {
        var decoded := Decode(newEvent.value, classpath);
        if decoded.Ok? {
          r := ReindexProject(decoded.value, ioFails);
        }
      }
    }

    /** reindexProject: the cast to a project index event, then the local delete or index operation. */
    method ReindexProject(event: Payload, ioFails: bool) returns (r: Result<bool>)
      modifies this`indexed
      ensures !event.ProjectIndexPayload? ==> r == Err(ClassCast) && indexed == old(indexed)
      ensures event.ProjectIndexPayload? && ioFails ==> r == Ok(false) && indexed == old(indexed)
      ensures event.ProjectIndexPayload? && !ioFails ==>
        r == Ok(true) && indexed == old(indexed) + [ReindexAction(event.projectEvent)]
    {
      if !event.ProjectIndexPayload? {
        return Err(ClassCast);
      }
      if ioFails {
        return Ok(false);
      }
      var indexEvent := event.projectEvent;
      if indexEvent.deleteIndex {
        indexed := indexed + [DeleteIndexNoRepl(indexEvent.projectName)];
      } else {
        indexed := indexed + [IndexNoRepl(indexEvent.projectName)];
      }
      r := Ok(true);
    }
  }

  /** Factory.create: no manager when replication is disabled. */
  method FactoryCreate(replicator: Coordinator) returns (m: ProjectsIndexManager?)
    ensures !replicator.enabled <==> m == null
    ensures m != null ==> fresh(m) && m.replicator == replicator && m.indexer == None && m.originator == None && m.indexed == []
  {
    if !replicator.enabled {
      return null;
    }
    m := new ProjectsIndexManager(replicator);
  }

  /** Factory.create(indexer): the manager of create(), bound to the indexer and to PROJECTS_INDEX_EVENT. */
  method FactoryCreateWithIndexer(replicator: Coordinator, indexer: Instance) returns (m: ProjectsIndexManager?)
    modifies replicator.registry
    ensures !replicator.enabled <==> m == null
    ensures m == null ==> replicator.registry.processors == old(replicator.registry.processors)
    ensures m != null ==>
      && fresh(m) && m.replicator == replicator && m.indexer == Some(indexer)
      && m.originator == Some(ProjectsIndexEvent) && m.indexed == []
      && replicator.registry.processors
         == PutIfAbsent(old(replicator.registry.processors), ProjectsIndexEvent, ProjectsIndexManager)
  {
    m := FactoryCreate(replicator);
    if m == null {
      return null;
    }
    m.SetIndexer(indexer, ProjectsIndexEvent);
  }
}
