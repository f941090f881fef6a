/**
 * ReplicatedStreamEventsApiListener: the bridge between the event facades
 * and the broker.  On the node that fired an event it posts the event to the
 * broker (so that it is queued for replication); on a remote node it replays
 * a replicated event through the facade of its type.  Each handler is
 * modelled as the action it takes.
 */
module StreamListener {
  import opened Events

  /** What one listener call does. */
  datatype ListenerAction =
    | PostToBroker(event: StreamEvent)
    | FireFacade(facade: Facade, event: StreamEvent)
    | NoAction

  /** The listener's only state: the node identity read from the coordinator when it is constructed. */
  datatype ApiListener = ApiListener(localNodeId: string)

  /** postEventIfLocal: the event reaches the broker only on the node that fired it. */
  function PostEventIfLocal(l: ApiListener, event: StreamEvent): (a: ListenerAction)
    ensures a == PostToBroker(event) <==> event.nodeIdentity == l.localNodeId
    ensures a != PostToBroker(event) ==> a == NoAction
  {
    if l.localNodeId == event.nodeIdentity then PostToBroker(event) else NoAction
  }

  /** The facades whose listener interface the API listener implements (one on<X> method each). */
  const LISTENED: seq<Facade> := [AgreementSignup, AssigneeChanged, ChangeAbandoned, ChangeDeleted,
    ChangeMerged, ChangeRestored, ChangeReverted, CommentAdded, GitReferenceUpdated, HashtagsEdited,
    PrivateStateChanged, ReviewerAdded, ReviewerDeleted, RevisionCreated, TopicEdited, VoteDeleted,
    WorkInProgressStateChanged, GarbageCollection]

  /**
   * on<X>: what the listener does when facade `f` fires `event` to it.  A
   * facade whose listener interface it does not implement never calls it.
   */
  function OnFacadeEvent(l: ApiListener, f: Facade, event: StreamEvent): (a: ListenerAction)
    ensures a == PostToBroker(event) <==> f in LISTENED && event.nodeIdentity == l.localNodeId
    ensures a != PostToBroker(event) ==> a == NoAction
  {
    if f in LISTENED then PostEventIfLocal(l, event) else NoAction
  }

  /** The instanceof chain of onReplicatedStreamEvent, in the order it is tested. */
  const REPLAY_CHAIN: seq<Facade> := [AgreementSignup, AssigneeChanged, ChangeAbandoned, ChangeDeleted,
    ChangeReverted, ChangeMerged, ChangeRestored, CommentAdded, GitReferenceUpdated, HashtagsEdited,
    PrivateStateChanged, ReviewerAdded, ReviewerDeleted, RevisionCreated, TopicEdited, VoteDeleted,
    WorkInProgressStateChanged, GarbageCollection]

  /** The first facade of `chain` whose Event type the class is an instance of. */
  function FirstMatch(chain: seq<Facade>, c: StreamEventClass): (r: Option<Facade>)
    ensures r.Some? ==> c == FacadeEvent(r.value) && r.value in chain
    ensures r.None? ==> forall f :: f in chain ==> c != FacadeEvent(f)
  {
    if chain == [] then None
    else if c == FacadeEvent(chain[0]) then Some(chain[0])
    else FirstMatch(chain[1..], c)
  }

  /**
   * onReplicatedStreamEvent: nothing unless the event arrived by replication
   * from another node; then it is fired again through the first facade in the
   * chain whose Event type it has, or dropped if there is none.
   */
  function OnReplicatedStreamEvent(l: ApiListener, event: StreamEvent): (a: ListenerAction)
    ensures a != NoAction ==> ReplicationSuccessful(event) && event.nodeIdentity != l.localNodeId
    ensures a != NoAction ==> a.FireFacade? && a.event == event && event.eventClass == FacadeEvent(a.facade)
    ensures a.FireFacade? ==> a.facade in REPLAY_CHAIN
    ensures ReplicationSuccessful(event) && event.nodeIdentity != l.localNodeId
            && event.eventClass.FacadeEvent? && event.eventClass.facade in REPLAY_CHAIN
            ==> a == FireFacade(event.eventClass.facade, event)
  {
    if !ReplicationSuccessful(event) || l.localNodeId == event.nodeIdentity then NoAction
    else match FirstMatch(REPLAY_CHAIN, event.eventClass)
      case Some(f) => FireFacade(f, event)
      case None => NoAction
  }

  /** Head-updated and plugin events, and classes defined outside the facades, are never replayed. */
  lemma {:induction false} UnchainedEventsAreDropped(l: ApiListener, event: StreamEvent)
    requires event.eventClass in {FacadeEvent(SetHead), FacadeEvent(PluginEvent)} || event.eventClass.OtherStreamEventClass?
    ensures OnReplicatedStreamEvent(l, event) == NoAction
  {
    if ReplicationSuccessful(event) && l.localNodeId != event.nodeIdentity {
      assert SetHead !in REPLAY_CHAIN && PluginEvent !in REPLAY_CHAIN;
      var r := FirstMatch(REPLAY_CHAIN, event.eventClass);
      assert r.None?;
    }
  }

  /**
   * Loop breaking on the replaying node: the facade fired by a replay calls
   * the listener's own on<X> handler, which does not post the event again
   * because it came from another node.
   */
  lemma ReplayIsNotReposted(l: ApiListener, f: Facade, event: StreamEvent)
    requires ReplicationSuccessful(event) && event.nodeIdentity != l.localNodeId
    requires event.eventClass == FacadeEvent(f) && f in REPLAY_CHAIN
    ensures OnReplicatedStreamEvent(l, event) == FireFacade(f, event)
    ensures OnFacadeEvent(l, f, event) == NoAction
  {
  }

  /** On the node that fired an event, the listener posts it and never replays it. */
  lemma LocalEventIsPostedNotReplayed(l: ApiListener, f: Facade, event: StreamEvent)
    requires f in LISTENED && event.nodeIdentity == l.localNodeId
    ensures OnFacadeEvent(l, f, event) == PostToBroker(event)
    ensures OnReplicatedStreamEvent(l, event) == NoAction
  {
  }
}
