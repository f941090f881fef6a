/**
 * PersistedEventInformation: the writer that appends serialised envelopes
 * for one destination to a temporary staging file, decides when the batch is
 * ready, and publishes it by renaming it to its final name.
 */
module PersistedEvents {
  import opened Events

  type Bytes = seq<bv8>

  predicate Contains(s: string, sub: string)
  {
    exists i :: 0 <= i <= |s| && sub <= s[i..]
  }

  lemma ContainsMiddle(a: string, sub: string, b: string)
    ensures Contains(a + sub + b, sub)
  {
    var s := a + sub + b;
    assert s[|a|..] == sub + b;
  }

  /** The "<timestamp>x<hex hash of the nano time>" part of a final name. */
  function EventTimeStr(eventTimestamp: string, eventNanoTimeHex: string): string
  {
    eventTimestamp + "x" + eventNanoTimeHex
  }

  /**
   * NEXT_EVENTS_FILE filled in: the time part, the originating node, the
   * SHA-1 of the destination project and the hex hash of the wrapper.
   */
  function FinalEventFileName(eventTimeStr: string, nodeIdentity: string, projectSha1: string, objectHash: string)
    : (r: string)
    ensures Contains(r, "events") && Contains(r, ".json")
    ensures "events_" <= r
  {
    var middle := eventTimeStr + "_" + nodeIdentity + "_" + projectSha1 + "_" + objectHash;
    ContainsMiddle("", "events", "_" + middle + ".json");
    ContainsMiddle("events_" + middle, ".json", "");
    assert "events_" + middle + ".json" == "" + "events" + ("_" + middle + ".json");
    assert "events_" + middle + ".json" == ("events_" + middle) + ".json" + "";
    "events_" + middle + ".json"
  }

  /** The temporary name the events are appended under before publishing. */
  function TempEventFileName(unique: string): (r: string)
    ensures Contains(r, "events") && Contains(r, ".tmp")
  {
    ContainsMiddle("", "events", "-" + unique + ".tmp");
    ContainsMiddle("events-" + unique, ".tmp", "");
    assert "events-" + unique + ".tmp" == "" + "events" + ("-" + unique + ".tmp");
    assert "events-" + unique + ".tmp" == ("events-" + unique) + ".tmp" + "";
    "events-" + unique + ".tmp"
  }

  /** The configured wait, in seconds, as the milliseconds the writer compares against. */
  function MaxWaitMs(configuredSeconds: int): (ms: int)
    ensures configuredSeconds <= 0 <==> ms <= 0
  {
    configuredSeconds * 1000
  }

  /** The batch has more events than the configured maximum. */
  predicate ExceedsMaxEvents(numEventsWritten: nat, maxEvents: int)
  {
    numEventsWritten > maxEvents
  }

  /** The batch has waited longer than allowed; a non-positive wait has always expired. */
  predicate WaitExpired(maxWaitMs: int, elapsedMs: int)
  {
    maxWaitMs <= 0 || elapsedMs > maxWaitMs
  }

  /**
   * Both thresholds only ever become true: more events never un-exceed the
   * maximum, and more time never un-expires the wait.
   */
  lemma ThresholdsAreMonotone(n: nat, n': nat, maxEvents: int, maxWaitMs: int, t: int, t': int)
    requires n <= n' && t <= t'
    ensures ExceedsMaxEvents(n, maxEvents) ==> ExceedsMaxEvents(n', maxEvents)
    ensures WaitExpired(maxWaitMs, t) ==> WaitExpired(maxWaitMs, t')
  {
  }

  /** A configured wait of -1 is expired at once; one of 20 seconds is not expired during its first 20000 ms. */
  lemma ConfiguredWaits(elapsedMs: int)
    ensures MaxWaitMs(-1) == -1000 && WaitExpired(MaxWaitMs(-1), elapsedMs)
    ensures MaxWaitMs(20) == 20000 && (elapsedMs <= 20000 ==> !WaitExpired(MaxWaitMs(20), elapsedMs))
  {
  }

  class PersistedEventWriter {
    /** The destination project of the wrapper the writer was created for (None for project-less events). */
    const projectName: Option<string>
    const tempName: string
    const maxEvents: int
    const maxWaitMs: int
    const createdAtMs: int
    var finalName: Option<string>
    var numEventsWritten: nat
    var streamClosed: bool
    /** The events appended to the temporary file, in order. */
    var tempContents: seq<Bytes>
    var tempExists: bool
    /** The files published under their final names in the outgoing directory. */
    var published: map<string, seq<Bytes>>

    /** The counter counts exactly the events in the temporary file. */
    predicate Valid()
      reads this
    {
      numEventsWritten == |tempContents|
    }

    constructor (wrapper: EventWrapper, nodeIdentity: string, eventTimestamp: string, eventNanoTimeHex: string,
                 projectSha1: string, objectHash: string, unique: string,
                 maxEvents: int, maxWaitSeconds: int, nowMs: int)
      ensures Valid()
      ensures projectName == wrapper.projectName && numEventsWritten == 0 && tempContents == []
      ensures tempName == TempEventFileName(unique) && tempExists && !streamClosed
      ensures finalName == Some(FinalEventFileName(EventTimeStr(eventTimestamp, eventNanoTimeHex), nodeIdentity, projectSha1, objectHash))
      ensures Contains(tempName, "events") && Contains(tempName, ".tmp")
      ensures Contains(finalName.value, "events") && Contains(finalName.value, ".json")
      ensures this.maxEvents == maxEvents && maxWaitMs == MaxWaitMs(maxWaitSeconds) && createdAtMs == nowMs
      ensures published == map[]
    {
      projectName := wrapper.projectName;
      tempName := TempEventFileName(unique);
      this.maxEvents := maxEvents;
      maxWaitMs := MaxWaitMs(maxWaitSeconds);
      createdAtMs := nowMs;
      finalName := Some(FinalEventFileName(EventTimeStr(eventTimestamp, eventNanoTimeHex), nodeIdentity, projectSha1, objectHash));
      numEventsWritten := 0;
      streamClosed := false;
      tempContents := [];
      tempExists := true;
      published := map[];
    }

    /** writeEventsToFile: one event appended, the counter up by one; a closed stream refuses the write. */
    method WriteEventsToFile(bytes: Bytes) returns (r: Outcome)
      requires Valid()
      modifies this`numEventsWritten, this`tempContents
      ensures Valid()
      ensures streamClosed ==> r == Failed(IOFailure("Stream Closed")) && tempContents == old(tempContents)
      ensures !streamClosed ==> r == Done && tempContents == old(tempContents) + [bytes]
    {
      if streamClosed {
        return Failed(IOFailure("Stream Closed"));
      }
      tempContents := tempContents + [bytes];
      numEventsWritten := numEventsWritten + 1;
      r := Done;
    }

    function ExceedsMaxEventsBeforeProposing(): (r: bool)
      reads this
      ensures r <==> ExceedsMaxEvents(numEventsWritten, maxEvents)
    {
      numEventsWritten > maxEvents
    }

    function TimeToWaitBeforeProposingExpired(nowMs: int): (r: bool)
      reads this
      ensures r <==> WaitExpired(maxWaitMs, nowMs - createdAtMs)
    {
      maxWaitMs <= 0 || nowMs - createdAtMs > maxWaitMs
    }

    /** The batch is ready to publish when either threshold is crossed. */
    function IsReadyToPublish(nowMs: int): (r: bool)
      reads this
      ensures r <==> ExceedsMaxEvents(numEventsWritten, maxEvents) || WaitExpired(maxWaitMs, nowMs - createdAtMs)
    {
      ExceedsMaxEventsBeforeProposing() || TimeToWaitBeforeProposingExpired(nowMs)
    }

    /** setFileReady: closes the stream, but only when something was written. */
    method SetFileReady()
      modifies this`streamClosed
      ensures streamClosed == (old(streamClosed) || numEventsWritten > 0)
    {
      if numEventsWritten == 0 {
        return;
      }
      streamClosed := true;
    }

    method SetFinalEventFileName(name: Option<string>)
      modifies this`finalName
      ensures finalName == name
    {
      finalName := name;
    }

    /**
     * atomicRenameTmpFilename: with no final name nothing happens; otherwise
     * the temporary file disappears and its events, in the order they were
     * written, appear under the final name.
     */
    method AtomicRenameTmpFilename() returns (r: Outcome)
      modifies this`tempExists, this`published
      ensures finalName.None? ==> r == Done && tempExists == old(tempExists) && published == old(published)
      ensures finalName.Some? && !old(tempExists) ==>
        r == Failed(IOFailure(finalName.value)) && !tempExists && published == old(published)
      ensures finalName.Some? && old(tempExists) ==>
        r == Done && !tempExists && published == old(published)[finalName.value := tempContents]
    {
      if finalName.None? {
        return Done;
      }
      if !tempExists {
        return Failed(IOFailure(finalName.value));
      }
      published := published[finalName.value := tempContents];
      tempExists := false;
      r := Done;
    }
  }

  /**
   * Three writes with a maximum of two: the counter reads 3 and the batch
   * exceeds the maximum, while the stream stays open until setFileReady.
   */
  method ThreeWritesExceedMaxOfTwo(wrapper: EventWrapper, bytes1: Bytes, bytes2: Bytes, bytes3: Bytes)
    returns (count: nat, exceeded: bool, closedAfterReady: bool)
    ensures count == 3 && exceeded && closedAfterReady
  {
    var w := new PersistedEventWriter(wrapper, "node-a", "1600000000000", "1f", "sha1", "2a", "1", 2, 5, 0);
    var r1 := w.WriteEventsToFile(bytes1);
    var r2 := w.WriteEventsToFile(bytes2);
    var r3 := w.WriteEventsToFile(bytes3);
    count := w.numEventsWritten;
    exceeded := w.ExceedsMaxEventsBeforeProposing();
    w.SetFileReady();
    closedAfterReady := w.streamClosed;
  }

  /** With nothing written, setFileReady leaves the stream open. */
  method ReadyWithoutEventsStaysOpen(wrapper: EventWrapper) returns (closed: bool, count: nat)
    ensures !closed && count == 0
  {
    var w := new PersistedEventWriter(wrapper, "node-a", "1600000000000", "1f", "sha1", "2a", "1", 2, 5, 0);
    w.SetFileReady();
    closed := w.streamClosed;
    count := w.numEventsWritten;
  }

  /** A rename with the final name cleared leaves the temporary file in place and the name null. */
  method RenameWithoutFinalName(wrapper: EventWrapper) returns (tempStillThere: bool, name: Option<string>, anyPublished: bool)
    ensures tempStillThere && name.None? && !anyPublished
  {
    var w := new PersistedEventWriter(wrapper, "node-a", "1600000000000", "1f", "sha1", "2a", "1", 2, 5, 0);
    w.SetFinalEventFileName(None);
    var r := w.AtomicRenameTmpFilename();
    tempStillThere := w.tempExists;
    name := w.finalName;
    anyPublished := w.published != map[];
  }

  /** A rename with the final name set removes the temporary file and publishes under the final name. */
  method RenamePublishes(wrapper: EventWrapper, bytes: Bytes) returns (tempStillThere: bool, contents: Option<seq<Bytes>>)
    ensures !tempStillThere && contents == Some([bytes])
  {
    var w := new PersistedEventWriter(wrapper, "node-a", "1600000000000", "1f", "sha1", "2a", "1", 2, 5, 0);
    var written := w.WriteEventsToFile(bytes);
    assert w.tempContents == [bytes];
    var r := w.AtomicRenameTmpFilename();
    assert w.finalName.Some?;
    assert w.published[w.finalName.value] == [bytes];
    tempStillThere := w.tempExists;
    contents := if w.finalName.Some? && w.finalName.value in w.published then Some(w.published[w.finalName.value]) else None;
  }
}
