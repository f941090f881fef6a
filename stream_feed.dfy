/**
 * ReplicatedOutgoingStreamEventsFeed: the broker listener that queues every
 * stream event for replication unless the three-step skip predicate says
 * otherwise.
 */
module StreamFeed {
  import opened Events
  import opened EventFactory
  import opened Coordination

  /** String.toLowerCase on the ASCII letters. */
  function ToLower(s: string): (r: string)
    ensures |r| == |s|
    ensures forall i :: 0 <= i < |s| ==> r[i] == LowerChar(s[i])
  {
    seq(|s|, i requires 0 <= i < |s| => LowerChar(s[i]))
  }

  function LowerChar(c: char): char
  {
    if 'A' <= c <= 'Z' then (c as int + 32) as char else c
  }

  /**
   * isEventInSkipList as written: the lower-cased simple name of the event's
   * runtime class.  For every facade event that name is "event".
   */
  predicate IsEventInSkipListAsWritten(skipList: set<string>, event: StreamEvent)
  {
    ToLower(SimpleName(event.eventClass)) in skipList
  }

  /**
   * The name a skip-list entry is meant to match: the facade's name
   * ("ChangeMerged") for a facade event, the class's own simple name
   * otherwise.
   */
  function EventTypeName(c: StreamEventClass): string
  {
    match c
    case FacadeEvent(f) => FacadeName(f)
    case OtherStreamEventClass(_, simpleName, _) => simpleName
  }

  /** isEventInSkipList, matching the event type's name. */
  predicate IsEventInSkipList(skipList: set<string>, event: StreamEvent)
  {
    ToLower(EventTypeName(event.eventClass)) in skipList
  }

  /** The three steps of isReplicatedStreamEventToBeSkipped, given the outcome of the skip-list test. */
  predicate SkipDecision(event: StreamEvent, inSkipList: bool)
  {
    if ReplicationSuccessful(event) then true
    else if HasSkipReplication(event.eventClass) then true
    else inSkipList
  }

  predicate IsReplicatedStreamEventToBeSkippedAsWritten(skipList: set<string>, event: StreamEvent)
  {
    SkipDecision(event, IsEventInSkipListAsWritten(skipList, event))
  }

  predicate IsReplicatedStreamEventToBeSkipped(skipList: set<string>, event: StreamEvent)
  {
    SkipDecision(event, IsEventInSkipList(skipList, event))
  }

  /**
   * As written, listing a facade's name never skips its events: with the
   * documented entry "changemerged", a ChangeMerged event is still queued.
   */
  lemma SkipListMissesFacadeEventsAsWritten()
    ensures var event := StreamEvent(FacadeEvent(ChangeMerged), Some("project"), "node-a", false, OpaqueDetails(""));
      !IsReplicatedStreamEventToBeSkippedAsWritten({"changemerged"}, event)
  {
    assert ToLower("Event") == "event";
  }

  /** As written, the single entry "event" skips the events of every facade at once. */
  lemma {:induction false} EventEntrySkipsAllFacadesAsWritten(f: Facade, event: StreamEvent)
    requires event.eventClass == FacadeEvent(f)
    ensures IsReplicatedStreamEventToBeSkippedAsWritten({"event"}, event)
  {
    assert ToLower("Event") == "event";
  }

  /** Matching the type name, a facade's events are skipped exactly when its lower-cased name is listed. */
  lemma SkipListMatchesFacade(skipList: set<string>, f: Facade, event: StreamEvent)
    requires event.eventClass == FacadeEvent(f) && !ReplicationSuccessful(event)
    ensures IsReplicatedStreamEventToBeSkipped(skipList, event) <==> ToLower(FacadeName(f)) in skipList
  {
  }

  /** Matching the type name, the documented entry "changemerged" skips ChangeMerged events. */
  lemma ChangeMergedSkipped()
    ensures var event := StreamEvent(FacadeEvent(ChangeMerged), Some("project"), "node-a", false, OpaqueDetails(""));
      IsReplicatedStreamEventToBeSkipped({"changemerged"}, event)
  {
    var event := StreamEvent(FacadeEvent(ChangeMerged), Some("project"), "node-a", false, OpaqueDetails(""));
    SkipListMatchesFacade({"changemerged"}, ChangeMerged, event);
    LowerChangeMerged();
  }

  lemma LowerChangeMerged()
    ensures ToLower(FacadeName(ChangeMerged)) == "changemerged"
  {
    var lower := ToLower("ChangeMerged");
    assert lower[0] == 'c';
  }

  /**
   * What the feed's listener queues for one event, given whether the queue
   * has a worker: the skip list is matched as the listener is written, on
   * the lower-cased simple class name.
   */
  function QueuedFor(skipList: set<string>, enabled: bool, event: StreamEvent): (q: seq<EventWrapper>)
    ensures |q| <= 1
    ensures q != [] <==> enabled && !IsReplicatedStreamEventToBeSkippedAsWritten(skipList, event)
    ensures q != [] ==> q[0].origin == ReplicatedStreamEvent && q[0].projectName == event.projectName
                        && Decode(q[0], {q[0].className}) == Ok(StreamPayload(event))
  {
    if !enabled || IsReplicatedStreamEventToBeSkippedAsWritten(skipList, event) then []
    else [CreateReplicatedStreamEvent(event)]
  }

  /** What the listener would queue if the skip list matched the event type's name. */
  function QueuedForCorrected(skipList: set<string>, enabled: bool, event: StreamEvent): (q: seq<EventWrapper>)
    ensures |q| <= 1
    ensures q != [] <==> enabled && !IsReplicatedStreamEventToBeSkipped(skipList, event)
    ensures q != [] ==> q[0].origin == ReplicatedStreamEvent && q[0].projectName == event.projectName
                        && Decode(q[0], {q[0].className}) == Ok(StreamPayload(event))
  {
    if !enabled || IsReplicatedStreamEventToBeSkipped(skipList, event) then []
    else [CreateReplicatedStreamEvent(event)]
  }

  /**
   * The two readings of the skip list differ: with "changemerged" listed, the
   * listener as written queues a ChangeMerged event and the corrected one
   * does not.
   */
  lemma ChangeMergedQueuedOnlyAsWritten()
    ensures var event := StreamEvent(FacadeEvent(ChangeMerged), Some("project"), "node-a", false, OpaqueDetails(""));
      && |QueuedFor({"changemerged"}, true, event)| == 1
      && QueuedForCorrected({"changemerged"}, true, event) == []
  {
    SkipListMissesFacadeEventsAsWritten();
    ChangeMergedSkipped();
  }

  /** An event that arrived by replication is never queued again, under either reading of the skip list. */
  lemma ReplicatedEventIsNotRequeued(skipList: set<string>, enabled: bool, event: StreamEvent)
    requires ReplicationSuccessful(event)
    ensures QueuedFor(skipList, enabled, event) == []
    ensures QueuedForCorrected(skipList, enabled, event) == []
  {
  }

  class OutgoingStreamEventsFeed {
    const coordinator: Coordinator
    /** The configured skip list; its entries are stored lower-cased. */
    const skipList: set<string>

    constructor (coordinator: Coordinator, skipList: set<string>)
      ensures this.coordinator == coordinator && this.skipList == skipList
    {
      this.coordinator := coordinator;
      this.skipList := skipList;
    }

    /** listener: queue one stream envelope for the event unless it is to be skipped. */
    method Listener(event: StreamEvent) returns (r: Outcome)
      modifies coordinator`outgoing
      ensures coordinator.outgoing == old(coordinator.outgoing) + QueuedFor(skipList, coordinator.enabled, event)
      ensures r.Failed? <==> !coordinator.enabled && !IsReplicatedStreamEventToBeSkippedAsWritten(skipList, event)
    {
      r := Done;
      if !IsReplicatedStreamEventToBeSkippedAsWritten(skipList, event) {
        r := coordinator.QueueEventForReplication(CreateReplicatedStreamEvent(event));
      }
    }
  }
}
