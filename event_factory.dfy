/**
 * GerritEventFactory: every outgoing envelope is built here, from a payload,
 * the project it is addressed to (none for an all-projects event) and its
 * origin.  Each factory fixes the origin of its kind of payload.
 */
module EventFactory {
  import opened Events

  /** The origin each kind of payload travels under. */
  function ExpectedOrigin(p: Payload): Origin
  {
    match p
    case ChangeEventPayload(_) => GerritEvent
    case CachePayload(_) => CacheEvent
    case IndexPayload(_) => IndexEvent
    case DeleteProjectChangePayload(_) => DeleteProjectEvent
    case ProjectInfoPayload(_) => DeleteProjectEvent
    case DeleteProjectMessagePayload(_) => DeleteProjectMessageEvent
    case AccountIndexPayload(AccountUserIndex(_, _)) => AccountUserIndexEvent
    case AccountIndexPayload(AccountGroupIndex(_, _)) => AccountGroupIndexEvent
    case ProjectIndexPayload(_) => ProjectsIndexEvent
    case StreamPayload(_) => ReplicatedStreamEvent
  }

  /** new EventWrapper(gson.toJson(p), p.getClass().getName(), project, origin). */
  function Wrap(p: Payload, project: Option<string>, origin: Origin): (w: EventWrapper)
    ensures w.projectName == project && w.origin == origin
    ensures forall classpath :: ClassName(p) in classpath ==> Decode(w, classpath) == Ok(p)
  {
    EventWrapper(Encoded(p), ClassName(p), project, origin)
  }

  /** The project a replicated change event is attached to. */
  datatype ReplicatedChangeEventInfo = ReplicatedChangeEventInfo(projectName: Option<string>)

  function CreateReplicatedChangeEvent(changeEvent: ServerEvent, info: ReplicatedChangeEventInfo): (w: EventWrapper)
    ensures w.origin == GerritEvent == ExpectedOrigin(ChangeEventPayload(changeEvent))
    ensures w.projectName == info.projectName
    ensures w.className == changeEvent.className
    ensures Decode(w, {w.className}) == Ok(ChangeEventPayload(changeEvent))
  {
    Wrap(ChangeEventPayload(changeEvent), info.projectName, GerritEvent)
  }

  /** A cache event for a cache shared by all projects: no destination project. */
  function CreateReplicatedAllProjectsCacheEvent(cacheNameAndKey: CacheKeyWrapper): (w: EventWrapper)
    ensures w.origin == CacheEvent == ExpectedOrigin(CachePayload(cacheNameAndKey))
    ensures w.projectName == None
    ensures Decode(w, {w.className}) == Ok(CachePayload(cacheNameAndKey))
  {
    Wrap(CachePayload(cacheNameAndKey), None, CacheEvent)
  }

  function CreateReplicatedCacheEvent(projectName: string, cacheNameAndKey: CacheKeyWrapper): (w: EventWrapper)
    ensures w.origin == CacheEvent == ExpectedOrigin(CachePayload(cacheNameAndKey))
    ensures w.projectName == Some(projectName)
    ensures Decode(w, {w.className}) == Ok(CachePayload(cacheNameAndKey))
  {
    Wrap(CachePayload(cacheNameAndKey), Some(projectName), CacheEvent)
  }

  function CreateReplicatedIndexEvent(indexToReplicate: IndexToReplicate): (w: EventWrapper)
    ensures w.origin == IndexEvent == ExpectedOrigin(IndexPayload(indexToReplicate))
    ensures w.projectName == Some(indexToReplicate.projectName)
    ensures Decode(w, {w.className}) == Ok(IndexPayload(indexToReplicate))
  {
    Wrap(IndexPayload(indexToReplicate), Some(indexToReplicate.projectName), IndexEvent)
  }

  function CreateReplicatedDeleteProjectChangeEvent(event: DeleteProjectChange): (w: EventWrapper)
    ensures w.origin == DeleteProjectEvent == ExpectedOrigin(DeleteProjectChangePayload(event))
    ensures w.projectName == Some(event.project)
    ensures Decode(w, {w.className}) == Ok(DeleteProjectChangePayload(event))
  {
    Wrap(DeleteProjectChangePayload(event), Some(event.project), DeleteProjectEvent)
  }

  function CreateReplicatedDeleteProjectEvent(info: ProjectInfoWrapper): (w: EventWrapper)
    ensures w.origin == DeleteProjectEvent == ExpectedOrigin(ProjectInfoPayload(info))
    ensures w.projectName == Some(info.projectName)
    ensures Decode(w, {w.className}) == Ok(ProjectInfoPayload(info))
  {
    Wrap(ProjectInfoPayload(info), Some(info.projectName), DeleteProjectEvent)
  }

  function CreateReplicatedDeleteProjectMessageEvent(message: DeleteProjectMessage): (w: EventWrapper)
    ensures w.origin == DeleteProjectMessageEvent == ExpectedOrigin(DeleteProjectMessagePayload(message))
    ensures w.projectName == Some(message.project)
    ensures Decode(w, {w.className}) == Ok(DeleteProjectMessagePayload(message))
  {
    Wrap(DeleteProjectMessagePayload(message), Some(message.project), DeleteProjectMessageEvent)
  }

  /** The caller chooses both the destination and the origin of an account index envelope. */
  function CreateReplicatedAccountIndexEvent(projectName: string, base: AccountIndexEvent, originator: Origin): (w: EventWrapper)
    ensures w.origin == originator && w.projectName == Some(projectName)
    ensures Decode(w, {w.className}) == Ok(AccountIndexPayload(base))
  {
    Wrap(AccountIndexPayload(base), Some(projectName), originator)
  }

  /** A stream event travels to the project it concerns, or to none. */
  function CreateReplicatedStreamEvent(event: StreamEvent): (w: EventWrapper)
    ensures w.origin == ReplicatedStreamEvent == ExpectedOrigin(StreamPayload(event))
    ensures w.projectName == event.projectName
    ensures w.className == QualifiedName(event.eventClass)
    ensures Decode(w, {w.className}) == Ok(StreamPayload(event))
  {
    Wrap(StreamPayload(event), event.projectName, ReplicatedStreamEvent)
  }

  function CreateReplicatedProjectsIndexEvent(projectName: string, event: ProjectIndexEvent): (w: EventWrapper)
    ensures w.origin == ProjectsIndexEvent == ExpectedOrigin(ProjectIndexPayload(event))
    ensures w.projectName == Some(projectName)
    ensures Decode(w, {w.className}) == Ok(ProjectIndexPayload(event))
  {
    Wrap(ProjectIndexPayload(event), Some(projectName), ProjectsIndexEvent)
  }
}
