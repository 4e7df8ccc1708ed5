/**
 * Grid-event records and bays as the triggers read them, and the two trigger
 * conditions: a notification on creation of a Tripping or Shutdown entry, and one
 * when an entry's status goes from "OPEN" to "CLOSED".
 */
module Events {
  import opened Wrappers

  /** A point in time, in milliseconds. */
  type Timestamp = int

  /** A stored distance: text, or a number. */
  datatype Distance = DistanceText(text: string) | DistanceNumber(number: int)

  /** A `trippingShutdownEntries` document, reduced to the fields the core reads. */
  datatype EventRecord = EventRecord(
    eventType: string,
    status: Option<string>,
    substationId: string,
    substationName: Option<string>,
    bayId: string,
    flagsCause: Option<string>,
    reasonForNonFeeder: Option<string>,
    shutdownPersonName: Option<string>,
    shutdownPersonDesignation: Option<string>,
    phaseFaults: Option<seq<string>>,
    distance: Option<Distance>,
    hasAutoReclose: Option<bool>,
    startTime: Option<Timestamp>,
    endTime: Option<Timestamp>)

  /** A `bays` document: display name, bay type and the free-text voltage level. */
  datatype Bay = Bay(name: Option<string>, bayType: Option<string>, voltageLevel: Option<string>)

  /** The lifecycle signal passed to the sender: "open" or "closed". */
  datatype Status = Open | Closed

  predicate NotifiedType(eventType: string) {
    eventType == "Tripping" || eventType == "Shutdown"
  }

  /** The creation trigger sends an "open" notification for this document, if any. */
  predicate OpenedTrigger(data: Option<EventRecord>) {
    data.Some? && NotifiedType(data.value.eventType)
  }

  /** The update trigger sends a "closed" notification for this before/after pair. */
  predicate ClosedTrigger(before: Option<EventRecord>, after: Option<EventRecord>) {
    && before.Some? && after.Some?
    && before.value.status == Some("OPEN") && after.value.status == Some("CLOSED")
    && NotifiedType(after.value.eventType)
  }

  /** Neither trigger ever fires for a type other than Tripping or Shutdown (Breakdown included). */
  lemma OnlyTrippingAndShutdownNotify(data: Option<EventRecord>, before: Option<EventRecord>, after: Option<EventRecord>)
    ensures data.Some? && !NotifiedType(data.value.eventType) ==> !OpenedTrigger(data)
    ensures after.Some? && !NotifiedType(after.value.eventType) ==> !ClosedTrigger(before, after)
    ensures ClosedTrigger(before, after) ==>
      before.value.status != after.value.status && OpenedTrigger(after)
  {
  }

  /** Number of "closed" notifications along a sequence of successive versions of one document. */
  function CloseNotifications(h: seq<EventRecord>): nat
    decreases |h|
  {
    if |h| < 2 then 0
    else (if ClosedTrigger(Some(h[0]), Some(h[1])) then 1 else 0) + CloseNotifications(h[1..])
  }

  /** Once a version's status is not "OPEN", no later version's is. */
  ghost predicate NeverReopened(h: seq<EventRecord>) {
    forall i, j :: 0 <= i < j < |h| && h[i].status != Some("OPEN") ==> h[j].status != Some("OPEN")
  }

  lemma {:induction false} NoOpenNoClose(h: seq<EventRecord>)
    requires forall i :: 0 <= i < |h| - 1 ==> h[i].status != Some("OPEN")
    ensures CloseNotifications(h) == 0
    decreases |h|
  {
    if |h| >= 2 {
      NoOpenNoClose(h[1..]);
    }
  }

  /**
   * A document that is never reopened gets at most one "closed" notification, and
   * none at all when its first version is not "OPEN" (e.g. created already closed).
   */
  lemma {:induction false} AtMostOneCloseNotification(h: seq<EventRecord>)
    requires NeverReopened(h)
    ensures CloseNotifications(h) <= 1
    ensures |h| > 0 && h[0].status != Some("OPEN") ==> CloseNotifications(h) == 0
    decreases |h|
  {
    if |h| >= 2 {
      var t := h[1..];
      assert NeverReopened(t) by {
        forall i, j | 0 <= i < j < |t| && t[i].status != Some("OPEN")
          ensures t[j].status != Some("OPEN")
        {
          assert t[i] == h[i + 1] && t[j] == h[j + 1];
        }
      }
      if h[0].status != Some("OPEN") || h[1].status != Some("OPEN") {
        var k := if h[0].status != Some("OPEN") then 0 else 1;
        assert forall i :: 0 <= i < |t| - 1 ==> t[i].status != Some("OPEN") by {
          forall i | 0 <= i < |t| - 1
            ensures t[i].status != Some("OPEN")
          {
            assert t[i] == h[i + 1];
            assert h[k].status != Some("OPEN");
            assert k <= i + 1;
          }
        }
        NoOpenNoClose(t);
      } else {
        AtMostOneCloseNotification(t);
      }
    }
  }
}
