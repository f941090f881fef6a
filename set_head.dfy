/**
 * SetHead: the REST view that points a project's HEAD at another ref, and
 * the head-updated stream event it fires so that the change is replicated.
 */
module SetHeadView {
  import opened Events
  import opened Coordination
  import opened Broker
  import opened ProjectProcessor
  import opened StreamFeed
  import opened StreamListener

  const HEAD: string := "HEAD"
  const REFS: string := "refs/"
  const REFS_HEADS: string := "refs/heads/"

  predicate StartsWith(s: string, prefix: string)
  {
    |prefix| <= |s| && s[..|prefix|] == prefix
  }

  /** RefNames.fullName: a name already under refs/, and HEAD itself, are kept; any other is a branch. */
  function FullName(ref: string): (r: string)
    ensures StartsWith(r, REFS) || r == HEAD
    ensures StartsWith(ref, REFS) || ref == HEAD ==> r == ref
    ensures !(StartsWith(ref, REFS) || ref == HEAD) ==> r == REFS_HEADS + ref
  {
    if StartsWith(ref, REFS) || ref == HEAD then ref
    else
      assert (REFS_HEADS + ref)[..|REFS|] == REFS;
      REFS_HEADS + ref
  }

  /** Normalising a name twice changes nothing more than normalising it once. */
  lemma FullNameIsIdempotent(ref: string)
    ensures FullName(FullName(ref)) == FullName(ref)
  {
  }

  /** The results of RefUpdate.link, as JGit reports them. */
  datatype LinkResult =
    | NOT_ATTEMPTED | LOCK_FAILURE | NO_CHANGE | NEW | FORCED | FAST_FORWARD | RENAMED
    | REJECTED | REJECTED_CURRENT_BRANCH | IO_FAILURE | REJECTED_MISSING_OBJECT | REJECTED_OTHER_REASON

  /** The result's name, as its toString gives it. */
  function LinkResultName(res: LinkResult): string
  {
    match res
    case NOT_ATTEMPTED => "NOT_ATTEMPTED"
    case LOCK_FAILURE => "LOCK_FAILURE"
    case NO_CHANGE => "NO_CHANGE"
    case NEW => "NEW"
    case FORCED => "FORCED"
    case FAST_FORWARD => "FAST_FORWARD"
    case RENAMED => "RENAMED"
    case REJECTED => "REJECTED"
    case REJECTED_CURRENT_BRANCH => "REJECTED_CURRENT_BRANCH"
    case IO_FAILURE => "IO_FAILURE"
    case REJECTED_MISSING_OBJECT => "REJECTED_MISSING_OBJECT"
    case REJECTED_OTHER_REASON => "REJECTED_OTHER_REASON"
  }

  const REF_REQUIRED: string := "ref required"
  const REF_NOT_FOUND: string := "Ref Not Found: "
  const SETTING_HEAD_FAILED: string := "Setting HEAD failed with "

  /** The switch on the link result: these four let apply carry on, every other result fails it. */
  predicate LinkAccepted(res: LinkResult)
  {
    res == NO_CHANGE || res == RENAMED || res == FORCED || res == NEW
  }

  /** A fast-forward is not among the accepted results, and neither is a rejection. */
  lemma FastForwardIsRejected()
    ensures !LinkAccepted(FAST_FORWARD) && !LinkAccepted(REJECTED) && !LinkAccepted(LOCK_FAILURE)
    ensures forall res: LinkResult :: LinkAccepted(res) ==> res in {NO_CHANGE, RENAMED, FORCED, NEW}
  {
  }

  /** The head-updated stream event: the project, the old and new head, and the node that fired it. */
  function HeadUpdatedEvent(project: string, oldHead: string, newHead: string, nodeIdentity: string): (e: StreamEvent)
    ensures e.eventClass == FacadeEvent(SetHead) && e.projectName == Some(project)
    ensures e.nodeIdentity == nodeIdentity && !ReplicationSuccessful(e)
    ensures e.details == HeadUpdatedDetails(oldHead, newHead)
  {
    StreamEvent(FacadeEvent(SetHead), Some(project), nodeIdentity, false, HeadUpdatedDetails(oldHead, newHead))
  }

  /**
   * Once the head-updated event is marked replicated it is never queued
   * again, and since its facade is not in the replay chain, the receiving
   * node does not replay it either.
   */
  lemma {:induction false} ReplicatedHeadEventIsNeitherRequeuedNorReplayed(
    skipList: set<string>, enabled: bool, l: ApiListener,
    project: string, oldHead: string, newHead: string, nodeIdentity: string)
    ensures var e := SetStreamEventReplicated(HeadUpdatedEvent(project, oldHead, newHead, nodeIdentity), true);
      && QueuedFor(skipList, enabled, e) == []
      && OnReplicatedStreamEvent(l, e) == NoAction
  {
    var e := SetStreamEventReplicated(HeadUpdatedEvent(project, oldHead, newHead, nodeIdentity), true);
    ReplicatedEventIsNotRequeued(skipList, enabled, e);
    UnchainedEventsAreDropped(l, e);
  }

  /** The part of a repository apply touches: its refs and where HEAD points (None when there is no HEAD). */
  class GitRepository {
    const refs: set<string>
    var head: Option<string>

    constructor (refs: set<string>, head: Option<string>)
      ensures this.refs == refs && this.head == head
    {
      this.refs := refs;
      this.head := head;
    }

    /** exactRef(HEAD, ref) contains `ref`. */
    predicate HasRef(ref: string)
      reads this
    {
      ref in refs || (ref == HEAD && head.Some?)
    }
  }

  class SetHeadRestView {
    const coordinator: Coordinator
    /** Whether any head-updated listener is registered. */
    const hasListeners: bool
    /** The events handed to the listeners, in order. */
    var fired: seq<StreamEvent>

    constructor (coordinator: Coordinator, hasListeners: bool)
      ensures this.coordinator == coordinator && this.hasListeners == hasListeners && fired == []
    {
      this.coordinator := coordinator;
      this.hasListeners := hasListeners;
      fired := [];
    }

    /** fire(HeadUpdatedListener.Event): the event as given, to the listeners if there are any. */
    method Fire(event: StreamEvent)
      modifies this`fired
      ensures fired == old(fired) + (if hasListeners then [event] else [])
    {
      if !hasListeners {
        return;
      }
      fired := fired + [event];
    }

    /**
     * apply: `input` is the requested ref (None for a null input or a null
     * ref); `access` the SET_HEAD permission check; `open` the outcome of
     * opening the repository; `link` what RefUpdate.link reports.
     */
    method Apply(project: string, input: Option<string>, access: Check, open: RepositoryOpen,
                 repo: GitRepository, link: LinkResult) returns (r: Result<string>)
      modifies this`fired, repo`head
      ensures (input.None? || input.value == "") <==> r == Err(BadRequest(REF_REQUIRED))
      ensures input.Some? && input.value != "" ==>
        var ref := FullName(input.value);
        && (access == Denied ==> r == Err(AuthDenied))
        && (access == BackendFailure ==> r == Err(PermissionBackendFailure))
        && (access == Granted && open == RepositoryNotFound ==> r == Err(ResourceNotFound(project)))
        && (access == Granted && open == RepositoryIOFailure ==> r == Err(IOFailure(project)))
        && (access == Granted && open == Opened && !old(repo.HasRef(ref)) ==> r == Err(UnprocessableEntity(REF_NOT_FOUND + ref)))
        && (access == Granted && open == Opened && old(repo.HasRef(ref)) && old(repo.head).None? ==> r == Err(NullPointer))
        && (access == Granted && open == Opened && old(repo.HasRef(ref)) && old(repo.head).Some? ==>
              (if old(repo.head) == Some(ref) || LinkAccepted(link) then r == Ok(ref)
               else r == Err(IOFailure(SETTING_HEAD_FAILED + LinkResultName(link)))))
      // On success HEAD names the normalised ref, whether or not it had to move.
      ensures r.Ok? ==> input.Some? && r.value == FullName(input.value) && repo.head == Some(r.value)
      // An update and its event happen together, and only when HEAD moved.
      ensures r.Ok? && old(repo.head) != Some(r.value) ==>
        fired == old(fired) + (if hasListeners
          then [HeadUpdatedEvent(project, old(repo.head).value, r.value, coordinator.nodeIdentity)] else [])
      ensures !(r.Ok? && old(repo.head) != Some(r.value)) ==> fired == old(fired) && repo.head == old(repo.head)
    {
      if input.None? || input.value == "" {
        return Err(BadRequest(REF_REQUIRED));
      }
      var ref := FullName(input.value);
      if access == Denied {
        return Err(AuthDenied);
      } else if access == BackendFailure {
        return Err(PermissionBackendFailure);
      }
      if open == RepositoryNotFound {
        return Err(ResourceNotFound(project));
      } else if open == RepositoryIOFailure {
        return Err(IOFailure(project));
      }
      if !repo.HasRef(ref) {
        return Err(UnprocessableEntity(REF_NOT_FOUND + ref));
      }
      if repo.head.None? {
        return Err(NullPointer);
      }
      var oldHead := repo.head.value;
      var newHead := ref;
      if oldHead != newHead {
        if !LinkAccepted(link) {
          return Err(IOFailure(SETTING_HEAD_FAILED + LinkResultName(link)));
        }
        repo.head := Some(newHead);
        FireHeadUpdated(project, oldHead, newHead);
      }
      r := Ok(ref);
    }

    /** fire(nameKey, oldHead, newHead): builds the event with this node's identity only if someone listens. */
    method FireHeadUpdated(project: string, oldHead: string, newHead: string)
      modifies this`fired
      ensures fired == old(fired)
        + (if hasListeners then [HeadUpdatedEvent(project, oldHead, newHead, coordinator.nodeIdentity)] else [])
    {
      if !hasListeners {
        return;
      }
      var event := HeadUpdatedEvent(project, oldHead, newHead, coordinator.GetThisNodeIdentity());
      fired := fired + [event];
    }
  }
}
