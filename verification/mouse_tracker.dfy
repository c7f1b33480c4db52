/**
 * `MouseTracker`: the start/stop state machine of a recording session.
 *
 * A session is started at most once until it is stopped; starting assigns
 * a fresh session id and registers a global mouse-moved monitor, stopping
 * removes the monitor but keeps the id so that the caller can still fetch
 * the session's points afterwards. The id generator (`UUID()`) and the
 * platform's monitor registration are inputs of `StartTracking`; what the
 * monitor callback does with each event is not part of this model.
 */
module Tracking {
  import opened Wrappers

  /** The handle the platform returns for a registered event monitor. */
  datatype MonitorToken = MonitorToken(handle: nat)

  class MouseTracker {
    var isTracking: bool
    var currentSessionId: Option<string>
    var eventMonitor: Option<MonitorToken>

    /** A monitor is only ever registered while a session is being tracked. */
    ghost predicate Valid()
      reads this
    {
      eventMonitor.Some? ==> isTracking
    }

    /** A new tracker is idle, with no session and no monitor. */
    constructor ()
      ensures !isTracking && currentSessionId == None && eventMonitor == None
      ensures Valid()
    {
      isTracking := false;
      currentSessionId := None;
      eventMonitor := None;
    }

    /**
     * `startTracking()`. While a session is tracked nothing changes;
     * otherwise a session with id `freshId` starts and `monitor` (what the
     * platform returned for the registration, possibly nothing) is kept.
     */
    method StartTracking(freshId: string, monitor: Option<MonitorToken>)
      modifies this
      ensures isTracking
      ensures Valid()
      ensures old(isTracking) ==> currentSessionId == old(currentSessionId) && eventMonitor == old(eventMonitor)
      ensures !old(isTracking) ==> currentSessionId == Some(freshId) && eventMonitor == monitor
    {
      if isTracking {
        return;
      }
      isTracking := true;
      currentSessionId := Some(freshId);
      eventMonitor := monitor;
    }

    /**
     * `stopTracking()`. While idle nothing changes; otherwise tracking ends
     * and the monitor, if any, is removed. The session id is kept either way.
     */
    method StopTracking()
      modifies this
      ensures !isTracking
      ensures currentSessionId == old(currentSessionId)
      ensures old(isTracking) ==> eventMonitor == None
      ensures !old(isTracking) ==> eventMonitor == old(eventMonitor)
      ensures old(Valid()) ==> Valid() && eventMonitor == None
    {
      if !isTracking {
        return;
      }
      isTracking := false;
      if eventMonitor.Some? {
        eventMonitor := None;
      }
    }

    /** `getCurrentSessionId()`: the id of the current or last session; nothing changes. */
    method GetCurrentSessionId() returns (id: Option<string>)
      ensures id == currentSessionId
    {
      id := currentSessionId;
    }

    /** `isCurrentlyTracking()`; nothing changes. */
    method IsCurrentlyTracking() returns (tracking: bool)
      ensures tracking == isTracking
      ensures Valid() && !tracking ==> eventMonitor == None
    {
      tracking := isTracking;
    }
  }

  /**
   * The stop button: stop the session, then fetch its id to load and
   * analyse its points. The id fetched is the one the session started with.
   */
  method StopAndFetchSession(tracker: MouseTracker) returns (sessionId: Option<string>)
    modifies tracker
    ensures sessionId == old(tracker.currentSessionId)
    ensures !tracker.isTracking
    ensures old(tracker.Valid()) ==> tracker.Valid() && tracker.eventMonitor == None
  {
    tracker.StopTracking();
    sessionId := tracker.GetCurrentSessionId();
  }

  /** A whole recording from idle: start with `freshId`, stop, and fetch the id back. */
  method RecordSession(tracker: MouseTracker, freshId: string, monitor: Option<MonitorToken>)
    returns (sessionId: Option<string>)
    modifies tracker
    ensures !old(tracker.isTracking) ==> sessionId == Some(freshId)
    ensures old(tracker.isTracking) ==> sessionId == old(tracker.currentSessionId)
    ensures !tracker.isTracking && tracker.eventMonitor == None && tracker.Valid()
  {
    tracker.StartTracking(freshId, monitor);
    sessionId := StopAndFetchSession(tracker);
  }
}
