/**
 * EventBroker: fans server events out to the user-scoped listeners that may
 * see them, then to every unrestricted listener; replicated stream events go
 * to the replicated-stream listeners with no visibility filter at all.
 */
module Broker {
  import opened Events
  import opened EventFactory
  import opened Coordination
  import opened StreamFeed
  import opened StreamListener

  /** The user a scoped listener acts for. */
  datatype User = User(name: string)

  datatype Change = Change(id: int, project: string)

  /** A project cache entry; only whether its state permits reading matters here. */
  datatype ProjectState = ProjectState(statePermitsRead: bool)

  /** The outcome of a permission check: it returns, throws AuthException, or throws PermissionBackendException. */
  datatype Check = Granted | Denied | BackendFailure

  /**
   * What the broker consults: the project cache (an absent entry is a null
   * state), the permission backend's three checks, PatchSet.isChangeRef, and
   * the change notes lookup behind a change ref (None when it throws
   * NoSuchChangeException).
   */
  datatype Backend = Backend(
    projectStates: map<string, ProjectState>,
    projectAccess: (User, string) -> Check,
    changeRead: (User, Change) -> Check,
    refRead: (User, string, string) -> Check,
    isChangeRef: string -> bool,
    changeOfRef: (string, string) -> Option<Change>)

  /** A project whose cached state exists and permits reading. */
  predicate Readable(b: Backend, project: string)
  {
    project in b.projectStates && b.projectStates[project].statePermitsRead
  }

  /** isVisibleTo(project, user): every failure, including a failing backend, means not visible. */
  function IsVisibleToProject(b: Backend, project: string, user: User): (r: bool)
    ensures r <==> Readable(b, project) && b.projectAccess(user, project) == Granted
    ensures b.projectAccess(user, project) == BackendFailure ==> !r
  {
    if !Readable(b, project) then false
    else b.projectAccess(user, project) == Granted
  }

  /** isVisibleTo(change, user): AuthException means not visible, PermissionBackendException propagates. */
  function IsVisibleToChange(b: Backend, change: Option<Change>, user: User): (r: Result<bool>)
    ensures change.None? ==> r == Ok(false)
    ensures r == Ok(true) <==> change.Some? && Readable(b, change.value.project) && b.changeRead(user, change.value) == Granted
    ensures r.Err? <==> change.Some? && Readable(b, change.value.project) && b.changeRead(user, change.value) == BackendFailure
    ensures r.Err? ==> r.error == PermissionBackendFailure
  {
    if change.None? || !Readable(b, change.value.project) then Ok(false)
    else match b.changeRead(user, change.value)
      case Granted => Ok(true)
      case Denied => Ok(false)
      case BackendFailure => Err(PermissionBackendFailure)
  }

  /** isVisibleTo(branch, user): the parent project must be readable, then the ref READ check decides. */
  function IsVisibleToBranch(b: Backend, project: string, ref: string, user: User): (r: Result<bool>)
    ensures r == Ok(true) <==> Readable(b, project) && b.refRead(user, project, ref) == Granted
    ensures r.Err? <==> Readable(b, project) && b.refRead(user, project, ref) == BackendFailure
    ensures r.Err? ==> r.error == PermissionBackendFailure
  {
    if !Readable(b, project) then Ok(false)
    else match b.refRead(user, project, ref)
      case Granted => Ok(true)
      case Denied => Ok(false)
      case BackendFailure => Err(PermissionBackendFailure)
  }

  /**
   * isVisibleTo(event, user): a ref event on a change ref is judged by its
   * change, or by its branch when the change cannot be found; any other ref
   * event by its branch; a project event by its project; anything else is
   * visible.
   */
  function IsVisibleToEvent(b: Backend, event: ServerEvent, user: User): (r: Result<bool>)
    ensures event.scope.Unscoped? ==> r == Ok(true)
    ensures event.scope.ProjectScoped? ==> r == Ok(IsVisibleToProject(b, event.scope.project, user))
    ensures event.scope.RefScoped? ==>
      var (project, ref) := (event.scope.project, event.scope.ref);
      r == if b.isChangeRef(ref) && b.changeOfRef(project, ref).Some?
           then IsVisibleToChange(b, b.changeOfRef(project, ref), user)
           else IsVisibleToBranch(b, project, ref, user)
  {
    match event.scope
    case RefScoped(project, ref) =>
      if b.isChangeRef(ref) && b.changeOfRef(project, ref).Some? then IsVisibleToChange(b, b.changeOfRef(project, ref), user)
      else IsVisibleToBranch(b, project, ref, user)
    case ProjectScoped(project) => Ok(IsVisibleToProject(b, project, user))
    case Unscoped => Ok(true)
  }

  /** What a fireEvent overload is about, which selects its visibility check. */
  datatype Target =
    | ChangeTarget(change: Option<Change>)
    | ProjectTarget(project: string)
    | BranchTarget(branchProject: string, ref: string)
    | EventTarget

  function VisibleTo(b: Backend, target: Target, event: ServerEvent, user: User): (r: Result<bool>)
  {
    match target
    case ChangeTarget(change) => IsVisibleToChange(b, change, user)
    case ProjectTarget(project) => Ok(IsVisibleToProject(b, project, user))
    case BranchTarget(project, ref) => IsVisibleToBranch(b, project, ref, user)
    case EventTarget => IsVisibleToEvent(b, event, user)
  }

  /** A user-scoped listener: its plugin name and the user it reports. */
  datatype ScopedListener = ScopedListener(name: string, user: User)

  /** One listener receiving one event. */
  datatype Delivery = Delivered(listener: string, event: ServerEvent)

  /** The index of the first scoped listener whose visibility check throws, or |ls| when none does. */
  function FirstFailingCheck(b: Backend, target: Target, event: ServerEvent, ls: seq<ScopedListener>): (k: nat)
    ensures k <= |ls|
    ensures forall i :: 0 <= i < k ==> VisibleTo(b, target, event, ls[i].user).Ok?
    ensures k < |ls| ==> VisibleTo(b, target, event, ls[k].user).Err?
  {
    if ls == [] || VisibleTo(b, target, event, ls[0].user).Err? then 0
    else 1 + FirstFailingCheck(b, target, event, ls[1..])
  }

  /** The first failing check is the index before which every check succeeds and at which one throws. */
  lemma {:induction false} FirstFailingCheckIs(b: Backend, target: Target, event: ServerEvent, ls: seq<ScopedListener>, k: nat)
    requires k <= |ls|
    requires forall j :: 0 <= j < k ==> VisibleTo(b, target, event, ls[j].user).Ok?
    requires k < |ls| ==> VisibleTo(b, target, event, ls[k].user).Err?
    ensures FirstFailingCheck(b, target, event, ls) == k
  {
    // FirstFailingCheck's own contract pins the index down.
  }


  /** The deliveries to the listeners of `ls` that may see the event, in order. */
  function VisibleDeliveries(b: Backend, target: Target, event: ServerEvent, ls: seq<ScopedListener>): seq<Delivery>
  {
    if ls == [] then []
    else
      var l := ls[|ls| - 1];
      VisibleDeliveries(b, target, event, ls[..|ls| - 1])
        + (if VisibleTo(b, target, event, l.user) == Ok(true) then [Delivered(l.name, event)] else [])
  }

  /**
   * The scoped listeners told of an event are exactly those whose user may
   * see it: each delivery names such a listener, and each such listener gets
   * one.
   */
  lemma {:induction false} VisibleDeliveriesAreExactlyVisible(b: Backend, target: Target, event: ServerEvent, ls: seq<ScopedListener>)
    ensures |VisibleDeliveries(b, target, event, ls)| <= |ls|
    ensures forall d :: d in VisibleDeliveries(b, target, event, ls) ==>
      (d.event == event && exists l :: l in ls && d.listener == l.name && VisibleTo(b, target, event, l.user) == Ok(true))
    ensures forall l :: l in ls && VisibleTo(b, target, event, l.user) == Ok(true) ==>
      Delivered(l.name, event) in VisibleDeliveries(b, target, event, ls)
  {
    if ls != [] {
      var init := ls[..|ls| - 1];
      VisibleDeliveriesAreExactlyVisible(b, target, event, init);
      assert forall l :: l in init ==> l in ls;
      assert forall l :: l in ls ==> l in init || l == ls[|ls| - 1];
    }
  }

  /** A listener that sees nothing is told nothing. */
  lemma {:induction false} InvisibleListenerIsSkipped(b: Backend, target: Target, event: ServerEvent,
                                                     ls: seq<ScopedListener>, name: string)
    requires forall l :: l in ls && l.name == name ==> VisibleTo(b, target, event, l.user) != Ok(true)
    ensures Delivered(name, event) !in VisibleDeliveries(b, target, event, ls)
  {
    if ls != [] {
      InvisibleListenerIsSkipped(b, target, event, ls[..|ls| - 1], name);
      assert forall l :: l in ls[..|ls| - 1] ==> l in ls;
    }
  }

  /** Every unrestricted listener receives the event, in registration order. */
  function UnrestrictedDeliveries(names: seq<string>, event: ServerEvent): (ds: seq<Delivery>)
    ensures |ds| == |names|
    ensures forall i :: 0 <= i < |names| ==> ds[i] == Delivered(names[i], event)
  {
    if names == [] then [] else [Delivered(names[0], event)] + UnrestrictedDeliveries(names[1..], event)
  }

  /** A replicated-stream listener: the stream feed's listener, the API listener, or one from a plugin. */
  datatype StreamListenerImpl =
    | FeedListener(feed: OutgoingStreamEventsFeed)
    | ApiListenerImpl(api: ApiListener)
    | PluginStreamListener

  datatype StreamListenerEntry = StreamListenerEntry(name: string, impl: StreamListenerImpl)

  datatype StreamDelivery = StreamDelivered(listener: string, event: StreamEvent)

  /** A facade fired again by an API listener for a replicated event. */
  datatype Replay = Replay(listener: ApiListener, facade: Facade, event: StreamEvent)

  /** A replicated stream event reaches every registered stream listener, whoever the users are. */
  function StreamDeliveries(entries: seq<StreamListenerEntry>, event: StreamEvent): (ds: seq<StreamDelivery>)
    ensures |ds| == |entries|
    ensures forall i :: 0 <= i < |entries| ==> ds[i] == StreamDelivered(entries[i].name, event)
  {
    if entries == [] then []
    else StreamDeliveries(entries[..|entries| - 1], event) + [StreamDelivered(entries[|entries| - 1].name, event)]
  }

  /** What the feed listeners among `entries` queue for one event. */
  function StreamQueued(entries: seq<StreamListenerEntry>, enabled: bool, event: StreamEvent): seq<EventWrapper>
  {
    if entries == [] then []
    else
      var last := entries[|entries| - 1];
      StreamQueued(entries[..|entries| - 1], enabled, event)
        + (if last.impl.FeedListener? then QueuedFor(last.impl.feed.skipList, enabled, event) else [])
  }

  /** The facades the API listeners among `entries` fire again for one event. */
  function Replays(entries: seq<StreamListenerEntry>, event: StreamEvent): seq<Replay>
  {
    if entries == [] then []
    else
      var last := entries[|entries| - 1];
      Replays(entries[..|entries| - 1], event)
        + (if last.impl.ApiListenerImpl? then ReplayBy(last.impl.api, event) else [])
  }

  /** The facade one API listener fires again for one event, if any. */
  function ReplayBy(api: ApiListener, event: StreamEvent): seq<Replay>
  {
    var action := OnReplicatedStreamEvent(api, event);
    if action.FireFacade? then [Replay(api, action.facade, event)] else []
  }

  /** An event that arrived by replication is queued by none of the feed listeners. */
  lemma {:induction false} ReplicatedStreamEventIsNeverRequeued(entries: seq<StreamListenerEntry>, enabled: bool, event: StreamEvent)
    requires ReplicationSuccessful(event)
    ensures StreamQueued(entries, enabled, event) == []
  {
    if entries != [] {
      ReplicatedStreamEventIsNeverRequeued(entries[..|entries| - 1], enabled, event);
      var last := entries[|entries| - 1];
      if last.impl.FeedListener? {
        ReplicatedEventIsNotRequeued(last.impl.feed.skipList, enabled, event);
      }
    }
  }

  /**
   * Every replay is of the event itself, through a facade its class belongs
   * to, by a listener on another node, and that listener's own handler for
   * the facade does not post it again.
   */
  lemma {:induction false} ReplaysAreNotReposted(entries: seq<StreamListenerEntry>, event: StreamEvent)
    ensures forall r :: r in Replays(entries, event) ==>
      && r.event == event
      && event.eventClass == FacadeEvent(r.facade)
      && event.nodeIdentity != r.listener.localNodeId
      && OnFacadeEvent(r.listener, r.facade, event) == NoAction
  {
    if entries != [] {
      ReplaysAreNotReposted(entries[..|entries| - 1], event);
      var last := entries[|entries| - 1];
      if last.impl.ApiListenerImpl? && OnReplicatedStreamEvent(last.impl.api, event).FireFacade? {
        ReplayIsNotReposted(last.impl.api, OnReplicatedStreamEvent(last.impl.api, event).facade, event);
      }
    }
  }

  /** An event that did not arrive by replication is never replayed. */
  lemma {:induction false} LocalStreamEventIsNotReplayed(entries: seq<StreamListenerEntry>, event: StreamEvent)
    requires !ReplicationSuccessful(event)
    ensures Replays(entries, event) == []
  {
    if entries != [] {
      LocalStreamEventIsNotReplayed(entries[..|entries| - 1], event);
    }
  }

  class EventBroker {
    const coordinator: Coordinator
    const backend: Backend
    /** The user-scoped listeners, the unrestricted ones and the replicated-stream ones, in registration order. */
    var listeners: seq<ScopedListener>
    var unrestrictedListeners: seq<string>
    var streamListeners: seq<StreamListenerEntry>
    /** Every onEvent call made so far, and every onReplicatedStreamEvent call. */
    var delivered: seq<Delivery>
    var streamDelivered: seq<StreamDelivery>

    constructor (coordinator: Coordinator, backend: Backend, listeners: seq<ScopedListener>, unrestrictedListeners: seq<string>)
      ensures this.coordinator == coordinator && this.backend == backend
      ensures this.listeners == listeners && this.unrestrictedListeners == unrestrictedListeners
      ensures streamListeners == [] && delivered == [] && streamDelivered == []
      ensures Valid()
    {
      this.coordinator := coordinator;
      this.backend := backend;
      this.listeners := listeners;
      this.unrestrictedListeners := unrestrictedListeners;
      streamListeners := [];
      delivered := [];
      streamDelivered := [];
    }

    /** The feed listeners registered here queue onto this broker's coordinator. */
    predicate Valid()
      reads this
    {
      forall e :: e in streamListeners && e.impl.FeedListener? ==> e.impl.feed.coordinator == coordinator
    }

    /**
     * The four fireEvent overloads: each scoped listener in turn is told the
     * event if its user may see the target; the first visibility check that
     * throws aborts the call there; otherwise every unrestricted listener is
     * told afterwards.
     */
    method FireEvent(target: Target, event: ServerEvent) returns (r: Outcome)
      modifies this`delivered
      ensures var k := FirstFailingCheck(backend, target, event, listeners);
        && (k < |listeners| ==>
              && r == Failed(VisibleTo(backend, target, event, listeners[k].user).error)
              && delivered == old(delivered) + VisibleDeliveries(backend, target, event, listeners[..k]))
        && (k == |listeners| ==>
              && r == Done
              && delivered == old(delivered) + VisibleDeliveries(backend, target, event, listeners)
                              + UnrestrictedDeliveries(unrestrictedListeners, event))
    {
      r := FireScoped(target, event);
      assert listeners[..|listeners|] == listeners;
      if r.Done? {
        FireUnrestricted(event);
      }
    }

    /** The loop over the scoped listeners. */
    method FireScoped(target: Target, event: ServerEvent) returns (r: Outcome)
      modifies this`delivered
      ensures var k := FirstFailingCheck(backend, target, event, listeners);
        && (k < |listeners| ==> r == Failed(VisibleTo(backend, target, event, listeners[k].user).error))
        && (k == |listeners| ==> r == Done)
        && delivered == old(delivered) + VisibleDeliveries(backend, target, event, listeners[..k])
    {
      var i := 0;
      while i < |listeners|
        invariant 0 <= i <= |listeners|
        invariant forall j :: 0 <= j < i ==> VisibleTo(backend, target, event, listeners[j].user).Ok?
        invariant delivered == old(delivered) + VisibleDeliveries(backend, target, event, listeners[..i])
      {
        var l := listeners[i];
        var visible := VisibleTo(backend, target, event, l.user);
        if visible.Err? {
          FirstFailingCheckIs(backend, target, event, listeners, i);
          return Failed(visible.error);
        }
        if visible.value {
          delivered := delivered + [Delivered(l.name, event)];
        }
        assert listeners[..i + 1][..i] == listeners[..i];
        i := i + 1;
      }
      assert listeners[..i] == listeners;
      FirstFailingCheckIs(backend, target, event, listeners, i);
      r := Done;
    }

    /** fireEventForUnrestrictedListeners: runEach over the unrestricted listeners. */
    method FireUnrestricted(event: ServerEvent)
      modifies this`delivered
      ensures delivered == old(delivered) + UnrestrictedDeliveries(unrestrictedListeners, event)
    {
      var j := 0;
      while j < |unrestrictedListeners|
        invariant 0 <= j <= |unrestrictedListeners|
        invariant delivered == old(delivered) + UnrestrictedDeliveries(unrestrictedListeners[..j], event)
      {
        assert unrestrictedListeners[..j + 1] == unrestrictedListeners[..j] + [unrestrictedListeners[j]];
        delivered := delivered + [Delivered(unrestrictedListeners[j], event)];
        j := j + 1;
      }
      assert unrestrictedListeners[..j] == unrestrictedListeners;
    }

    /**
     * postEvent(ReplicatedStreamEvent): every replicated-stream listener is
     * called with the event, unfiltered.  The feed listener queues it unless
     * it is to be skipped (its failure on a disabled coordinator is swallowed
     * by runEach); the API listener may replay it through a facade.
     */
    method PostStreamEvent(event: StreamEvent) returns (replays: seq<Replay>)
      requires Valid()
      modifies this`streamDelivered, coordinator`outgoing
      ensures streamDelivered == old(streamDelivered) + StreamDeliveries(streamListeners, event)
      ensures coordinator.outgoing == old(coordinator.outgoing) + StreamQueued(streamListeners, coordinator.enabled, event)
      ensures replays == Replays(streamListeners, event)
    {
      replays := [];
      var i := 0;
      while i < |streamListeners|
        invariant 0 <= i <= |streamListeners|
        invariant streamDelivered == old(streamDelivered) + StreamDeliveries(streamListeners[..i], event)
        invariant coordinator.outgoing == old(coordinator.outgoing) + StreamQueued(streamListeners[..i], coordinator.enabled, event)
        invariant replays == Replays(streamListeners[..i], event)
      {
        var entry := streamListeners[i];
        assert entry in streamListeners;
        var replayed := PostToStreamListener(entry, event);
        replays := replays + replayed;
        assert streamListeners[..i + 1][..i] == streamListeners[..i];
        i := i + 1;
      }
      assert streamListeners[..i] == streamListeners;
    }

    /** One listener of postEvent: it is told the event; a feed listener may queue it, an API listener replay it. */
    method PostToStreamListener(entry: StreamListenerEntry, event: StreamEvent) returns (replays: seq<Replay>)
      requires entry.impl.FeedListener? ==> entry.impl.feed.coordinator == coordinator
      modifies this`streamDelivered, coordinator`outgoing
      ensures streamDelivered == old(streamDelivered) + [StreamDelivered(entry.name, event)]
      ensures coordinator.outgoing == old(coordinator.outgoing)
        + (if entry.impl.FeedListener? then QueuedFor(entry.impl.feed.skipList, coordinator.enabled, event) else [])
      ensures replays == (if entry.impl.ApiListenerImpl? then ReplayBy(entry.impl.api, event) else [])
    {
      streamDelivered := streamDelivered + [StreamDelivered(entry.name, event)];
      replays := [];
      if entry.impl.FeedListener? {
        var _ := entry.impl.feed.Listener(event);
      } else if entry.impl.ApiListenerImpl? {
        replays := ReplayBy(entry.impl.api, event);
      }
    }

    /** registerUnrestrictedEventListener: appended after the existing ones. */
    method RegisterUnrestrictedEventListener(name: string)
      modifies this`unrestrictedListeners
      ensures unrestrictedListeners == old(unrestrictedListeners) + [name]
    {
      unrestrictedListeners := unrestrictedListeners + [name];
    }

    /** registerReplicatedStreamEventListener: appended after the existing ones. */
    method RegisterReplicatedStreamEventListener(name: string, impl: StreamListenerImpl)
      requires Valid()
      requires impl.FeedListener? ==> impl.feed.coordinator == coordinator
      modifies this`streamListeners
      ensures streamListeners == old(streamListeners) + [StreamListenerEntry(name, impl)]
      ensures Valid()
    {
      streamListeners := streamListeners + [StreamListenerEntry(name, impl)];
    }
  }
}
