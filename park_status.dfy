/**
 * The thread status reported for a thread that is about to park, refined by what it parks on:
 * a monitor's condition object (Object.wait) or a monitor itself (a contended monitorenter).
 */
module ParkStatus {

  /** The thread states the runtime reports. */
  datatype ThreadStatus =
    | New
    | Runnable
    | Sleeping
    | InObjectWait
    | InObjectWaitTimed
    | Parked
    | ParkedTimed
    | BlockedOnMonitorEnter
    | Terminated

  /** What the parking thread has registered as its blocker (LockSupport.getBlocker). */
  datatype Blocker = NoBlocker | ConditionObjectBlocker | MonitorBlocker | OtherBlocker

  predicate IsTimed(s: ThreadStatus)
  {
    s == Sleeping || s == InObjectWaitTimed || s == ParkedTimed
  }

  /** The status to report instead of the new park status `status`. */
  function MaybeAdjustNewParkStatus(blocker: Blocker, status: ThreadStatus): (r: ThreadStatus)
    ensures blocker == ConditionObjectBlocker ==> (r == InObjectWaitTimed || r == InObjectWait)
    ensures blocker == ConditionObjectBlocker ==> (r == InObjectWaitTimed <==> status == ParkedTimed)
    ensures blocker == MonitorBlocker ==> r == BlockedOnMonitorEnter
    ensures blocker != ConditionObjectBlocker && blocker != MonitorBlocker ==> r == status
  {
    if blocker == ConditionObjectBlocker then
      if status == ParkedTimed then InObjectWaitTimed else InObjectWait
    else if blocker == MonitorBlocker then
      BlockedOnMonitorEnter
    else
      status
  }

  /**
   * A park on a condition object keeps whether the park is timed, and a park on a monitor
   * never reports a timed state: a contended monitorenter has no timeout.
   */
  lemma ParkTimednessPreserved(blocker: Blocker, status: ThreadStatus)
    requires status == Parked || status == ParkedTimed
    ensures blocker == ConditionObjectBlocker ==>
      IsTimed(MaybeAdjustNewParkStatus(blocker, status)) == IsTimed(status)
    ensures blocker == MonitorBlocker ==> !IsTimed(MaybeAdjustNewParkStatus(blocker, status))
  {
  }
}
