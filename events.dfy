/**
 * Shared vocabulary of the replicated-event pipeline: the origin tag that
 * routes an envelope to its processor, the payloads that travel between
 * nodes, the envelope itself (EventWrapper) and the stream events that the
 * event facades fire.  Serialisation is not modelled byte by byte: an
 * envelope's JSON either encodes a payload or is malformed.
 */
module Events {

  datatype Option<T> = None | Some(value: T)

  /** The exceptions the pipeline raises or catches, one constructor each. */
  datatype Error =
    | NullPointer
    | ArrayIndexOutOfBounds
    | ClassNotFound(className: string)
    | JsonSyntax
    | ClassCast
    | UnknownType(message: string)      // ReplicatedEventsUnknownTypeException
    | Transient(message: string)        // ReplicatedEventsTransientException
    | BadRequest(message: string)
    | UnprocessableEntity(message: string)
    | ResourceNotFound(message: string)
    | AuthDenied
    | PermissionBackendFailure
    | IOFailure(message: string)
    | OutOfScope(message: string)
    | NotImplemented
    | DirectoryNotCreated(dir: string)

  datatype Result<T> = Ok(value: T) | Err(error: Error)

  /** The outcome of an operation that returns nothing but may throw. */
  datatype Outcome = Done | Failed(error: Error)

  /** EventWrapper.Originator: the kind of an envelope, used to pick its processor. */
  datatype Origin =
    | GerritEvent
    | CacheEvent
    | IndexEvent
    | DeleteProjectEvent
    | DeleteProjectMessageEvent
    | AccountUserIndexEvent
    | AccountGroupIndexEvent
    | ProjectsIndexEvent
    | ReplicatedStreamEvent

  /** Name of the project that holds every project's configuration. */
  const ALL_PROJECTS: string := "All-Projects"
  /** Name of the project that holds the account and group data. */
  const ALL_USERS: string := "All-Users"

  /** The fields every replicated event inherits: who sent it, and whether it arrived by replication. */
  datatype EventMeta = EventMeta(nodeIdentity: string, replicated: bool)

  /** Marks an event as applied from replication on the node `local`. */
  function Stamp(m: EventMeta, local: string): (r: EventMeta)
    ensures r.replicated && r.nodeIdentity == local
  {
    EventMeta(local, true)
  }

  /** An argument of a replicated cache call, with the name of its runtime class. */
  datatype Arg = Arg(typeName: string, value: string)

  /** A cache key to evict, or a named method to call on a watched object. */
  datatype CacheKeyWrapper =
    | CacheKey(cacheName: string, key: Arg, meta: EventMeta)
    | CacheObjectCall(cacheName: string, key: Arg, methodName: string,
                      otherArgs: Option<seq<Option<Arg>>>, meta: EventMeta)

  /** The facades (extension points) whose nested `Event` classes are replicated stream events. */
  datatype Facade =
    | AgreementSignup | AssigneeChanged | ChangeAbandoned | ChangeDeleted
    | ChangeMerged | ChangeRestored | ChangeReverted | CommentAdded
    | GitReferenceUpdated | HashtagsEdited | PrivateStateChanged
    | ReviewerAdded | ReviewerDeleted | RevisionCreated | TopicEdited
    | VoteDeleted | WorkInProgressStateChanged | GarbageCollection
    | SetHead | PluginEvent

  /** Simple name of a facade class. */
  function FacadeName(f: Facade): string
  {
    match f
    case AgreementSignup => "AgreementSignup"
    case AssigneeChanged => "AssigneeChanged"
    case ChangeAbandoned => "ChangeAbandoned"
    case ChangeDeleted => "ChangeDeleted"
    case ChangeMerged => "ChangeMerged"
    case ChangeRestored => "ChangeRestored"
    case ChangeReverted => "ChangeReverted"
    case CommentAdded => "CommentAdded"
    case GitReferenceUpdated => "GitReferenceUpdated"
    case HashtagsEdited => "HashtagsEdited"
    case PrivateStateChanged => "PrivateStateChanged"
    case ReviewerAdded => "ReviewerAdded"
    case ReviewerDeleted => "ReviewerDeleted"
    case RevisionCreated => "RevisionCreated"
    case TopicEdited => "TopicEdited"
    case VoteDeleted => "VoteDeleted"
    case WorkInProgressStateChanged => "WorkInProgressStateChanged"
    case GarbageCollection => "GarbageCollection"
    case SetHead => "SetHead"
    case PluginEvent => "PluginEvent"
  }

  /** Package of a facade class. */
  function FacadePackage(f: Facade): string
  {
    match f
    case GarbageCollection => "com.google.gerrit.server.git."
    case SetHead => "com.google.gerrit.server.restapi.project."
    case _ => "com.google.gerrit.server.extensions.events."
  }

  /**
   * The runtime class of a stream event: the nested `Event` class of a
   * facade, or a class defined elsewhere (a plugin) with its own simple name
   * and possibly the @SkipReplication annotation.
   */
  datatype StreamEventClass =
    | FacadeEvent(facade: Facade)
    | OtherStreamEventClass(qualifiedName: string, simpleName: string, skipReplication: bool)

  /** Class.getName() of a stream event class. */
  function QualifiedName(c: StreamEventClass): string
  {
    match c
    case FacadeEvent(f) => FacadePackage(f) + FacadeName(f) + "$Event"
    case OtherStreamEventClass(q, _, _) => q
  }

  /** Class.getSimpleName() of a stream event class: every facade names its event class `Event`. */
  function SimpleName(c: StreamEventClass): string
  {
    match c
    case FacadeEvent(_) => "Event"
    case OtherStreamEventClass(_, s, _) => s
  }

  /** Whether the class carries @SkipReplication; no facade event class does. */
  function HasSkipReplication(c: StreamEventClass): bool
  {
    match c
    case FacadeEvent(_) => false
    case OtherStreamEventClass(_, _, skip) => skip
  }

  /** Facade-specific content of a stream event, where the model needs it. */
  datatype EventDetails =
    | HeadUpdatedDetails(oldHead: string, newHead: string)
    | GcDetails(statistics: string)
    | OpaqueDetails(text: string)

  /**
   * A ReplicatedStreamEvent: its class, the project it concerns (plugin
   * events have none), the node that fired it, and the flag set once it has
   * been applied from replication.
   */
  datatype StreamEvent = StreamEvent(eventClass: StreamEventClass, projectName: Option<string>,
                                     nodeIdentity: string, replicated: bool, details: EventDetails)

  /** setStreamEventReplicated: the event with its replicated flag set to `flag`. */
  function SetStreamEventReplicated(e: StreamEvent, flag: bool): (r: StreamEvent)
    ensures ReplicationSuccessful(r) == flag
    ensures r.eventClass == e.eventClass && r.nodeIdentity == e.nodeIdentity
    ensures r.projectName == e.projectName && r.details == e.details
  {
    e.(replicated := flag)
  }

  /** replicationSuccessful: the replicated flag. */
  function ReplicationSuccessful(e: StreamEvent): bool
  {
    e.replicated
  }

  /** What a server event (com.google.gerrit.server.events.Event) is about, for visibility. */
  datatype EventScope =
    | RefScoped(project: string, ref: string)
    | ProjectScoped(project: string)
    | Unscoped

  /** A server event, with its runtime class name. */
  datatype ServerEvent = ServerEvent(className: string, scope: EventScope)

  /** ReplicatedIndexEventsWorker.IndexToReplicate: a change to reindex on the other nodes. */
  datatype IndexToReplicate = IndexToReplicate(changeId: int, projectName: string, delete: bool)

  datatype DeleteProjectChange = DeleteProjectChange(project: string, changeIds: seq<int>, meta: EventMeta)

  /** ProjectInfoWrapper: a project deletion request. */
  datatype ProjectInfoWrapper = ProjectInfoWrapper(projectName: string, taskUuid: string,
                                                   preserve: bool, meta: EventMeta)

  /** The completion message that answers a project deletion. */
  datatype DeleteProjectMessage = DeleteProjectMessage(project: string, taskUuid: string,
                                                       deleteOnDisk: bool)

  /** AccountIndexEventBase and its two subclasses. */
  datatype AccountIndexEvent =
    | AccountUserIndex(accountId: int, meta: EventMeta)
    | AccountGroupIndex(groupUuid: string, meta: EventMeta)

  datatype ProjectIndexEvent = ProjectIndexEvent(projectName: string, meta: EventMeta, deleteIndex: bool)

  /** Every object the pipeline serialises into an envelope. */
  datatype Payload =
    | ChangeEventPayload(changeEvent: ServerEvent)
    | CachePayload(cacheWrapper: CacheKeyWrapper)
    | IndexPayload(index: IndexToReplicate)
    | DeleteProjectChangePayload(deleteChange: DeleteProjectChange)
    | ProjectInfoPayload(info: ProjectInfoWrapper)
    | DeleteProjectMessagePayload(message: DeleteProjectMessage)
    | AccountIndexPayload(accountEvent: AccountIndexEvent)
    | ProjectIndexPayload(projectEvent: ProjectIndexEvent)
    | StreamPayload(stream: StreamEvent)

  /** Class.getName() of a payload's runtime class. */
  function ClassName(p: Payload): string
  {
    match p
    case ChangeEventPayload(e) => e.className
    case CachePayload(CacheKey(_, _, _)) =>
      "com.google.gerrit.server.replication.customevents.CacheKeyWrapper"
    case CachePayload(CacheObjectCall(_, _, _, _, _)) =>
      "com.google.gerrit.server.replication.customevents.CacheObjectCallWrapper"
    case IndexPayload(_) =>
      "com.google.gerrit.server.replication.workers.ReplicatedIndexEventsWorker$IndexToReplicate"
    case DeleteProjectChangePayload(_) =>
      "com.google.gerrit.server.replication.customevents.DeleteProjectChangeEvent"
    case ProjectInfoPayload(_) =>
      "com.google.gerrit.server.replication.customevents.ProjectInfoWrapper"
    case DeleteProjectMessagePayload(_) =>
      "com.google.gerrit.server.replication.customevents.DeleteProjectMessageEvent"
    case AccountIndexPayload(AccountUserIndex(_, _)) =>
      "com.google.gerrit.server.replication.customevents.AccountUserIndexEvent"
    case AccountIndexPayload(AccountGroupIndex(_, _)) =>
      "com.google.gerrit.server.replication.customevents.AccountGroupIndexEvent"
    case ProjectIndexPayload(_) =>
      "com.google.gerrit.server.replication.customevents.ProjectIndexEvent"
    case StreamPayload(e) => QualifiedName(e.eventClass)
  }

  /** The serialised form of a payload. */
  datatype Json = Encoded(payload: Payload) | Malformed(text: string)

  /** EventWrapper: serialised payload, its class name, destination project (or none) and origin. */
  datatype EventWrapper = EventWrapper(json: Json, className: string,
                                       projectName: Option<string>, origin: Origin)

  /**
   * Loads the envelope's class by name from `classpath` and parses the JSON
   * as that class: an unknown class and unparsable JSON are the two errors.
   */
  function Decode(w: EventWrapper, classpath: set<string>): (r: Result<Payload>)
    ensures r.Ok? <==> w.className in classpath && w.json.Encoded? && ClassName(w.json.payload) == w.className
    ensures r.Ok? ==> w.json == Encoded(r.value)
    ensures w.className !in classpath ==> r == Err(ClassNotFound(w.className))
  {
    if w.className !in classpath then Err(ClassNotFound(w.className))
    else match w.json
      case Malformed(_) => Err(JsonSyntax)
      case Encoded(p) => if ClassName(p) == w.className then Ok(p) else Err(JsonSyntax)
  }
}
