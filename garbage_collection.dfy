/**
 * GarbageCollection: runs git gc over a list of projects through the gc
 * queue, collects the per-project errors, and fires a garbage-collected
 * stream event for each project collected.
 */
module GarbageCollect {
  import opened Events
  import opened Coordination
  import opened StreamFeed
  import opened StreamListener

  datatype GcErrorType = GC_ALREADY_SCHEDULED | REPOSITORY_NOT_FOUND | GC_FAILED

  /** GarbageCollectionResult.Error. */
  datatype GcError = GcError(errorType: GcErrorType, projectName: string)

  /** What opening the repository and running gc on it did (the statistics are Properties.toString). */
  datatype GcOutcome = Collected(statistics: string) | RepositoryMissing | GcException

  /** The garbage-collected stream event: the project, its statistics and the node that ran gc. */
  function GcEvent(project: string, statistics: string, nodeIdentity: string): (e: StreamEvent)
    ensures e.eventClass == FacadeEvent(GarbageCollection) && e.projectName == Some(project)
    ensures e.nodeIdentity == nodeIdentity && !ReplicationSuccessful(e) && e.details == GcDetails(statistics)
  {
    StreamEvent(FacadeEvent(GarbageCollection), Some(project), nodeIdentity, false, GcDetails(statistics))
  }

  /**
   * The projects gcQueue.addAll accepts, in order: those not already
   * scheduled, each once.
   */
  function Accepted(scheduled: set<string>, names: seq<string>): (r: seq<string>)
    ensures forall p :: p in r ==> p in names && p !in scheduled
  {
    if names == [] then []
    else
      var prefix := Accepted(scheduled, names[..|names| - 1]);
      var p := names[|names| - 1];
      if p in scheduled || p in prefix then prefix else prefix + [p]
  }

  /** addAll accepts every requested project not already scheduled, and each only once. */
  lemma {:induction false} AcceptedIsExactlyTheUnscheduled(scheduled: set<string>, names: seq<string>)
    ensures forall p :: p in Accepted(scheduled, names) <==> p in names && p !in scheduled
    ensures forall i, j :: 0 <= i < j < |Accepted(scheduled, names)| ==>
              Accepted(scheduled, names)[i] != Accepted(scheduled, names)[j]
  {
    if names != [] {
      var init := names[..|names| - 1];
      AcceptedIsExactlyTheUnscheduled(scheduled, init);
      assert names == init + [names[|names| - 1]];
    }
  }

  /** The queue's scheduled set after gcFinished for each of `names` in turn. */
  function FinishedAll(scheduled: set<string>, names: seq<string>): set<string>
  {
    if names == [] then scheduled else FinishedAll(scheduled, names[..|names| - 1]) - {names[|names| - 1]}
  }

  lemma {:induction false} FinishedAllRemovesThem(scheduled: set<string>, names: seq<string>)
    ensures FinishedAll(scheduled, names) == scheduled - set p | p in names
  {
    if names != [] {
      FinishedAllRemovesThem(scheduled, names[..|names| - 1]);
      assert names == names[..|names| - 1] + [names[|names| - 1]];
    }
  }

  /** One more turn of the gc loop extends each record by that project's share. */
  lemma RunStep(accepted: seq<string>, i: nat, gc: (string, bool) -> GcOutcome, aggressive: bool, nodeIdentity: string,
                scheduled: set<string>)
    requires i < |accepted|
    ensures accepted[..i + 1] == accepted[..i] + [accepted[i]]
    ensures RunErrors(accepted[..i + 1], gc, aggressive)
            == RunErrors(accepted[..i], gc, aggressive) + OutcomeErrors(accepted[i], gc(accepted[i], aggressive))
    ensures RunEvents(accepted[..i + 1], gc, aggressive, nodeIdentity)
            == RunEvents(accepted[..i], gc, aggressive, nodeIdentity) + OutcomeEvents(accepted[i], gc(accepted[i], aggressive), nodeIdentity)
    ensures FinishedAll(scheduled, accepted[..i + 1]) == FinishedAll(scheduled, accepted[..i]) - {accepted[i]}
  {
    assert accepted[..i + 1][..i] == accepted[..i];
  }

  /** The errors the gc loop adds for the accepted projects, in order. */
  function RunErrors(accepted: seq<string>, gc: (string, bool) -> GcOutcome, aggressive: bool): (r: seq<GcError>)
    ensures |r| <= |accepted|
    ensures forall e :: e in r ==> e.errorType != GC_ALREADY_SCHEDULED && e.projectName in accepted
  {
    if accepted == [] then []
    else
      var p := accepted[|accepted| - 1];
      RunErrors(accepted[..|accepted| - 1], gc, aggressive) + OutcomeErrors(p, gc(p, aggressive))
  }

  /** The error one project's gc outcome records: none when it was collected. */
  function OutcomeErrors(p: string, outcome: GcOutcome): seq<GcError>
  {
    match outcome
    case Collected(_) => []
    case RepositoryMissing => [GcError(REPOSITORY_NOT_FOUND, p)]
    case GcException => [GcError(GC_FAILED, p)]
  }

  /** The events the gc loop fires, in order. */
  function RunEvents(accepted: seq<string>, gc: (string, bool) -> GcOutcome, aggressive: bool, nodeIdentity: string)
    : (r: seq<StreamEvent>)
    ensures |r| <= |accepted|
  {
    if accepted == [] then []
    else
      var p := accepted[|accepted| - 1];
      RunEvents(accepted[..|accepted| - 1], gc, aggressive, nodeIdentity) + OutcomeEvents(p, gc(p, aggressive), nodeIdentity)
  }

  /** The event one project's gc outcome fires: only a collected project fires one. */
  function OutcomeEvents(p: string, outcome: GcOutcome, nodeIdentity: string): seq<StreamEvent>
  {
    if outcome.Collected? then [GcEvent(p, outcome.statistics, nodeIdentity)] else []
  }

  /**
   * Each accepted project ends in exactly one of three ways: collected (and
   * no error), repository not found, or gc failed.
   */
  lemma {:induction false} RunErrorsClassify(accepted: seq<string>, gc: (string, bool) -> GcOutcome, aggressive: bool, p: string)
    requires p in accepted
    ensures gc(p, aggressive) == RepositoryMissing <==> GcError(REPOSITORY_NOT_FOUND, p) in RunErrors(accepted, gc, aggressive)
    ensures gc(p, aggressive) == GcException <==> GcError(GC_FAILED, p) in RunErrors(accepted, gc, aggressive)
  {
    var init := accepted[..|accepted| - 1];
    var last := accepted[|accepted| - 1];
    assert accepted == init + [last];
    assert RunErrors(accepted, gc, aggressive) == RunErrors(init, gc, aggressive) + OutcomeErrors(last, gc(last, aggressive));
    if p in init {
      RunErrorsClassify(init, gc, aggressive, p);
    } else {
      assert p == last;
      RunErrorsOnlyFor(init, gc, aggressive, p);
    }
  }

  lemma {:induction false} RunErrorsOnlyFor(accepted: seq<string>, gc: (string, bool) -> GcOutcome, aggressive: bool, p: string)
    requires p !in accepted
    ensures forall e :: e in RunErrors(accepted, gc, aggressive) ==> e.projectName != p
  {
  }

  /** A successful gc fires one event naming the project, its statistics and this node; a failed one fires none. */
  lemma {:induction false} CollectedProjectsFire(accepted: seq<string>, gc: (string, bool) -> GcOutcome, aggressive: bool,
                                                 nodeIdentity: string, p: string)
    requires p in accepted
    ensures gc(p, aggressive).Collected? ==>
      GcEvent(p, gc(p, aggressive).statistics, nodeIdentity) in RunEvents(accepted, gc, aggressive, nodeIdentity)
    ensures !gc(p, aggressive).Collected? ==>
      forall e :: e in RunEvents(accepted, gc, aggressive, nodeIdentity) ==> e.projectName != Some(p)
  {
    if !gc(p, aggressive).Collected? {
      RunEventsFor(accepted, gc, aggressive, nodeIdentity, p);
    } else {
      var init := accepted[..|accepted| - 1];
      if p in init {
        CollectedProjectsFire(init, gc, aggressive, nodeIdentity, p);
      }
    }
  }

  lemma {:induction false} RunEventsFor(accepted: seq<string>, gc: (string, bool) -> GcOutcome, aggressive: bool,
                                        nodeIdentity: string, p: string)
    requires !gc(p, aggressive).Collected?
    ensures forall e :: e in RunEvents(accepted, gc, aggressive, nodeIdentity) ==> e.projectName != Some(p)
  {
    if accepted != [] {
      RunEventsFor(accepted[..|accepted| - 1], gc, aggressive, nodeIdentity, p);
    }
  }

  /**
   * A garbage-collected event, once marked replicated, is not queued again,
   * and a remote node replays it through the garbage-collection facade.
   */
  lemma ReplicatedGcEventIsReplayedNotRequeued(skipList: set<string>, enabled: bool, l: ApiListener,
                                                project: string, statistics: string, nodeIdentity: string)
    requires nodeIdentity != l.localNodeId
    ensures var e := SetStreamEventReplicated(GcEvent(project, statistics, nodeIdentity), true);
      && QueuedFor(skipList, enabled, e) == []
      && OnReplicatedStreamEvent(l, e) == FireFacade(GarbageCollection, e)
  {
  }

  /** logGcInfo's treatment of the statistics: one enclosing pair of braces is dropped when both are there. */
  function StripBraces(s: string): (r: string)
    ensures |s| >= 2 && s[0] == '{' && s[|s| - 1] == '}' ==> s == "{" + r + "}"
    ensures !(|s| >= 1 && s[0] == '{' && s[|s| - 1] == '}') ==> r == s
  {
    if |s| >= 1 && s[0] == '{' && s[|s| - 1] == '}' then
      // A single character cannot be both an opening and a closing brace.
      s[1..|s| - 1]
    else s
  }

  /** One "section[.subsection].name=value; " entry; a missing value prints as "null". */
  function ConfigEntry(section: string, subsection: Option<string>, name: string, value: Option<string>): string
  {
    section + (if subsection.Some? then "." + subsection.value else "") + "." + name + "="
      + (if value.Some? then value.value else "null") + "; "
  }

  /** formatConfigValues, as a specification: the entries of the names, in order. */
  function ConfigEntries(section: string, subsection: Option<string>, names: seq<string>,
                         value: string -> Option<string>): string
  {
    if names == [] then ""
    else ConfigEntries(section, subsection, names[..|names| - 1], value)
         + ConfigEntry(section, subsection, names[|names| - 1], value(names[|names| - 1]))
  }

  /** Formatting a concatenation of names formats each part in turn. */
  lemma {:induction false} ConfigEntriesAppend(section: string, subsection: Option<string>,
                                               a: seq<string>, b: seq<string>, value: string -> Option<string>)
    ensures ConfigEntries(section, subsection, a + b, value)
            == ConfigEntries(section, subsection, a, value) + ConfigEntries(section, subsection, b, value)
  {
    if b == [] {
      assert a + b == a;
    } else {
      var b' := b[..|b| - 1];
      var ab := a + b;
      var last := b[|b| - 1];
      var e := ConfigEntry(section, subsection, last, value(last));
      assert ab[..|ab| - 1] == a + b';
      assert ab[|ab| - 1] == last;
      assert ConfigEntries(section, subsection, ab, value) == ConfigEntries(section, subsection, a + b', value) + e;
      assert ConfigEntries(section, subsection, b, value) == ConfigEntries(section, subsection, b', value) + e;
      ConfigEntriesAppend(section, subsection, a, b', value);
      var x, y := ConfigEntries(section, subsection, a, value), ConfigEntries(section, subsection, b', value);
      assert (x + y) + e == x + (y + e);
    }
  }

  /** formatConfigValues: the StringBuilder loop over the section's names. */
  method FormatConfigValues(section: string, subsection: Option<string>, names: seq<string>,
                            value: string -> Option<string>) returns (s: string)
    ensures s == ConfigEntries(section, subsection, names, value)
  {
    s := "";
    var i := 0;
    while i < |names|
      invariant 0 <= i <= |names|
      invariant s == ConfigEntries(section, subsection, names[..i], value)
    {
      var name := names[i];
      s := AppendEntry(s, section, subsection, name, value(name));
      assert names[..i + 1][..i] == names[..i];
      i := i + 1;
    }
    assert names[..|names|] == names;
  }

  /** One turn of formatConfigValues: the builder receives one entry, piece by piece. */
  method AppendEntry(s: string, section: string, subsection: Option<string>, name: string, value: Option<string>)
    returns (s': string)
    ensures s' == s + ConfigEntry(section, subsection, name, value)
  {
    s' := s + section;
    if subsection.Some? {
      s' := s' + "." + subsection.value;
    }
    s' := s' + ".";
    s' := s' + name + "=" + (if value.Some? then value.value else "null");
    s' := s' + "; ";
  }

  /** The gc configuration line as logGcConfiguration builds it, before the "no set" test. */
  function GcConfigurationText(aggressive: bool, topLevel: string, subsections: seq<string>): string
  {
    "gc.aggressive=" + (if aggressive then "true" else "false") + "; " + topLevel + Concat(subsections)
  }

  function Concat(parts: seq<string>): string
  {
    if parts == [] then "" else Concat(parts[..|parts| - 1]) + parts[|parts| - 1]
  }

  /** logGcConfiguration as written: "no set" only when the text is empty. */
  function GcConfigurationAsWritten(aggressive: bool, topLevel: string, subsections: seq<string>): string
  {
    var b := GcConfigurationText(aggressive, topLevel, subsections);
    if |b| == 0 then "no set" else b
  }

  /**
   * As written, "no set" never appears: the text always starts with the
   * aggressiveness entry, so even a repository with no gc settings at all
   * logs just "gc.aggressive=false; ".
   */
  lemma NoSetNeverLoggedAsWritten(aggressive: bool, topLevel: string, subsections: seq<string>)
    ensures GcConfigurationAsWritten(aggressive, topLevel, subsections)
            == GcConfigurationText(aggressive, topLevel, subsections)
    ensures GcConfigurationAsWritten(false, "", []) == "gc.aggressive=false; "
  {
  }

  /** logGcConfiguration as evidently intended: "no set" is appended when no gc setting was found. */
  function GcConfiguration(aggressive: bool, topLevel: string, subsections: seq<string>): (r: string)
    ensures topLevel + Concat(subsections) == "" ==>
      r == "gc.aggressive=" + (if aggressive then "true" else "false") + "; no set"
    ensures topLevel + Concat(subsections) != "" ==> r == GcConfigurationText(aggressive, topLevel, subsections)
  {
    var b := GcConfigurationText(aggressive, topLevel, subsections);
    if topLevel + Concat(subsections) == "" then b + "no set" else b
  }

  /** GarbageCollectionQueue: the projects scheduled for gc. */
  class GcQueue {
    var scheduled: set<string>

    constructor ()
      ensures scheduled == {}
    {
      scheduled := {};
    }

    /** addAll: schedules the projects not already scheduled and returns them, in request order. */
    method AddAll(names: seq<string>) returns (added: seq<string>)
      modifies this`scheduled
      ensures added == Accepted(old(scheduled), names)
      ensures scheduled == old(scheduled) + (set p | p in added)
    {
      added := [];
      var i := 0;
      while i < |names|
        invariant 0 <= i <= |names|
        invariant added == Accepted(old(scheduled), names[..i])
        invariant scheduled == old(scheduled) + (set p | p in added)
      {
        var p := names[i];
        assert names[..i + 1][..i] == names[..i];
        if p !in scheduled {
          scheduled := scheduled + {p};
          added := added + [p];
        }
        i := i + 1;
      }
      assert names[..|names|] == names;
    }

    /** gcFinished: the project may be scheduled again. */
    method GcFinished(p: string)
      modifies this`scheduled
      ensures scheduled == old(scheduled) - {p}
    {
      scheduled := scheduled - {p};
    }
  }

  class GarbageCollection {
    const coordinator: Coordinator
    const gcQueue: GcQueue
    /** The configured gc.aggressive. */
    const configuredAggressive: bool
    /** Whether any garbage-collector listener is registered. */
    const hasListeners: bool
    /** The events handed to the listeners, in order. */
    var fired: seq<StreamEvent>
    /** The projects passed to gcQueue.gcFinished, in order. */
    var finished: seq<string>

    constructor (coordinator: Coordinator, gcQueue: GcQueue, configuredAggressive: bool, hasListeners: bool)
      ensures this.coordinator == coordinator && this.gcQueue == gcQueue
      ensures this.configuredAggressive == configuredAggressive && this.hasListeners == hasListeners
      ensures fired == [] && finished == []
    {
      this.coordinator := coordinator;
      this.gcQueue := gcQueue;
      this.configuredAggressive := configuredAggressive;
      this.hasListeners := hasListeners;
      fired := [];
      finished := [];
    }

    /**
     * run(projectNames, aggressive, writer): `gc(p, aggressive)` is what
     * opening the repository and running gc on it does.  The result holds a
     * GC_ALREADY_SCHEDULED error for each distinct project the queue turned
     * down, then the errors of the accepted projects in order.
     */
    method Run(projectNames: seq<string>, aggressive: bool, gc: (string, bool) -> GcOutcome)
      returns (errors: seq<GcError>)
      modifies gcQueue`scheduled, this`fired, this`finished
      ensures var accepted := Accepted(old(gcQueue.scheduled), projectNames);
        && |errors| >= |RunErrors(accepted, gc, aggressive)|
        && errors[|errors| - |RunErrors(accepted, gc, aggressive)|..] == RunErrors(accepted, gc, aggressive)
        && finished == old(finished) + accepted
        && fired == old(fired) + (if hasListeners then RunEvents(accepted, gc, aggressive, coordinator.nodeIdentity) else [])
      // Everything before the accepted projects' errors is a distinct GC_ALREADY_SCHEDULED error.
      ensures var n := |errors| - |RunErrors(Accepted(old(gcQueue.scheduled), projectNames), gc, aggressive)|;
        && (forall i :: 0 <= i < n ==> errors[i].errorType == GC_ALREADY_SCHEDULED)
        && (forall i, j :: 0 <= i < j < n ==> errors[i] != errors[j])
      ensures forall p :: GcError(GC_ALREADY_SCHEDULED, p) in errors <==> p in projectNames && p in old(gcQueue.scheduled)
      // Every accepted project is handed back to the queue, so the queue ends as it started.
      ensures gcQueue.scheduled == old(gcQueue.scheduled)
    {
      var accepted := gcQueue.AddAll(projectNames);
      AcceptedIsExactlyTheUnscheduled(old(gcQueue.scheduled), projectNames);
      var skipped := AlreadyScheduledErrors(projectNames, accepted);
      var collected := CollectAccepted(accepted, aggressive, gc);
      FinishedAllRemovesThem(old(gcQueue.scheduled) + (set p | p in accepted), accepted);
      errors := skipped + collected;
      assert errors[|errors| - |collected|..] == collected;
    }

    /**
     * The state after the gc loop has handled accepted[..i], starting from
     * `fired0`, `finished0` and `scheduled0`.
     */
    ghost predicate CollectedUpTo(accepted: seq<string>, i: nat, gc: (string, bool) -> GcOutcome, aggressive: bool,
                                  errors: seq<GcError>, fired0: seq<StreamEvent>, finished0: seq<string>, scheduled0: set<string>)
      reads this, gcQueue
      requires i <= |accepted|
    {
      && errors == RunErrors(accepted[..i], gc, aggressive)
      && finished == finished0 + accepted[..i]
      && fired == fired0 + (if hasListeners then RunEvents(accepted[..i], gc, aggressive, coordinator.nodeIdentity) else [])
      && gcQueue.scheduled == FinishedAll(scheduled0, accepted[..i])
    }

    /** The loop over the accepted projects: gc each, record its error or fire its event, then gcFinished. */
    method CollectAccepted(accepted: seq<string>, aggressive: bool, gc: (string, bool) -> GcOutcome)
      returns (errors: seq<GcError>)
      modifies gcQueue`scheduled, this`fired, this`finished
      ensures errors == RunErrors(accepted, gc, aggressive)
      ensures finished == old(finished) + accepted
      ensures fired == old(fired) + (if hasListeners then RunEvents(accepted, gc, aggressive, coordinator.nodeIdentity) else [])
      ensures gcQueue.scheduled == FinishedAll(old(gcQueue.scheduled), accepted)
    {
      ghost var fired0, finished0, scheduled0 := fired, finished, gcQueue.scheduled;
      errors := [];
      var i := 0;
      while i < |accepted|
        invariant 0 <= i <= |accepted|
        invariant CollectedUpTo(accepted, i, gc, aggressive, errors, fired0, finished0, scheduled0)
      {
        errors := CollectTurn(accepted, i, gc, aggressive, errors, fired0, finished0, scheduled0);
        i := i + 1;
      }
      assert accepted[..|accepted|] == accepted;
    }

    /** One turn of the gc loop: project accepted[i] is collected and handed back to the queue. */
    method CollectTurn(accepted: seq<string>, i: nat, gc: (string, bool) -> GcOutcome, aggressive: bool,
                       errors: seq<GcError>, ghost fired0: seq<StreamEvent>, ghost finished0: seq<string>,
                       ghost scheduled0: set<string>)
      returns (errors': seq<GcError>)
      requires i < |accepted|
      requires CollectedUpTo(accepted, i, gc, aggressive, errors, fired0, finished0, scheduled0)
      modifies gcQueue`scheduled, this`fired, this`finished
      ensures CollectedUpTo(accepted, i + 1, gc, aggressive, errors', fired0, finished0, scheduled0)
    {
      var p := accepted[i];
      var outcome := gc(p, aggressive);
      RunStep(accepted, i, gc, aggressive, coordinator.nodeIdentity, scheduled0);
      var e := CollectOne(p, outcome);
      errors' := errors + e;
    }

    /** One turn of the gc loop, given the project's gc outcome: record its error or fire its event, then gcFinished. */
    method CollectOne(p: string, outcome: GcOutcome) returns (errors: seq<GcError>)
      modifies gcQueue`scheduled, this`fired, this`finished
      ensures errors == OutcomeErrors(p, outcome)
      ensures fired == old(fired) + (if hasListeners then OutcomeEvents(p, outcome, coordinator.nodeIdentity) else [])
      ensures finished == old(finished) + [p]
      ensures gcQueue.scheduled == old(gcQueue.scheduled) - {p}
    {
      errors := [];
      match outcome {
        case Collected(statistics) =>
          FireCollected(p, statistics);
        case RepositoryMissing =>
          errors := [GcError(REPOSITORY_NOT_FOUND, p)];
        case GcException =>
          errors := [GcError(GC_FAILED, p)];
      }
      gcQueue.GcFinished(p);
      finished := finished + [p];
    }

    /** run(projectNames, writer): gc with the configured aggressiveness. */
    method RunConfigured(projectNames: seq<string>, gc: (string, bool) -> GcOutcome) returns (errors: seq<GcError>)
      modifies gcQueue`scheduled, this`fired, this`finished
      ensures var accepted := Accepted(old(gcQueue.scheduled), projectNames);
        && |errors| >= |RunErrors(accepted, gc, configuredAggressive)|
        && errors[|errors| - |RunErrors(accepted, gc, configuredAggressive)|..] == RunErrors(accepted, gc, configuredAggressive)
        && finished == old(finished) + accepted
        && fired == old(fired) + (if hasListeners then RunEvents(accepted, gc, configuredAggressive, coordinator.nodeIdentity) else [])
      // Everything before the accepted projects' errors is a distinct GC_ALREADY_SCHEDULED error.
      ensures var n := |errors| - |RunErrors(Accepted(old(gcQueue.scheduled), projectNames), gc, configuredAggressive)|;
        && (forall i :: 0 <= i < n ==> errors[i].errorType == GC_ALREADY_SCHEDULED)
        && (forall i, j :: 0 <= i < j < n ==> errors[i] != errors[j])
      ensures forall p :: GcError(GC_ALREADY_SCHEDULED, p) in errors <==> p in projectNames && p in old(gcQueue.scheduled)
      ensures gcQueue.scheduled == old(gcQueue.scheduled)
    {
      errors := Run(projectNames, configuredAggressive, gc);
    }

    /** fire(p, statistics): the event with this node's identity, only if someone listens. */
    method FireCollected(project: string, statistics: string)
      modifies this`fired
      ensures fired == old(fired) + (if hasListeners then [GcEvent(project, statistics, coordinator.nodeIdentity)] else [])
    {
      if !hasListeners {
        return;
      }
      var event := GcEvent(project, statistics, coordinator.GetThisNodeIdentity());
      fired := fired + [event];
    }

    /** fire(GarbageCollectorListener.Event): the event as given, to the listeners if there are any. */
    method Fire(event: StreamEvent)
      modifies this`fired
      ensures fired == old(fired) + (if hasListeners then [event] else [])
    {
      if !hasListeners {
        return;
      }
      fired := fired + [event];
    }
  }

  /**
   * The loop over Sets.difference(names, accepted): one GC_ALREADY_SCHEDULED
   * error per distinct project left out.  The set's iteration order is not
   * specified, so the method picks any.
   */
  method AlreadyScheduledErrors(names: seq<string>, accepted: seq<string>) returns (errors: seq<GcError>)
    ensures forall e :: e in errors ==> e.errorType == GC_ALREADY_SCHEDULED
    ensures forall p :: GcError(GC_ALREADY_SCHEDULED, p) in errors <==> p in names && p !in accepted
    ensures forall i, j :: 0 <= i < j < |errors| ==> errors[i] != errors[j]
  {
    var pending := (set p | p in names) - (set p | p in accepted);
    errors := [];
    while pending != {}
      invariant forall e :: e in errors ==> e.errorType == GC_ALREADY_SCHEDULED && e.projectName !in pending
      invariant forall p :: GcError(GC_ALREADY_SCHEDULED, p) in errors || p in pending <==> p in names && p !in accepted
      invariant forall i, j :: 0 <= i < j < |errors| ==> errors[i] != errors[j]
      decreases pending
    {
      var p :| p in pending;
      errors := errors + [GcError(GC_ALREADY_SCHEDULED, p)];
      pending := pending - {p};
    }
  }
}
