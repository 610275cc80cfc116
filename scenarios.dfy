/**
 * Callers of the monitor support, proved from its contracts alone: two threads contending for
 * the monitor of a fresh object, and relocking on one thread a monitor prepared on another.
 */
module Scenarios {
  import opened Wrappers
  import opened ObjectLayout
  import opened JavaMonitors
  import opened MonitorSupport

  /** A layout in which every class except the class of class objects has a monitor slot. */
  function SlottedLayout(): (layout: Layout)
    ensures layout.WellFormed()
  {
    Layout((c: ClassRef) => if c == DynamicHubClass then 0 else 8, 21)
  }

  method ContendedEnter(t1: ThreadId, t2: ThreadId, id: nat)
    requires t1 != t2
  {
    var support := new MultiThreadedMonitorSupport(SlottedLayout());
    var obj := Instance(id, "Counter");
    assert RouteOf(support.layout, obj) == SlotRoute;

    var first := support.MonitorEnter(t1, obj, false);
    assert first == Ok(Entered);
    var m := support.MonitorOf(obj);
    var second := support.MonitorEnter(t2, obj, true);
    assert support.MonitorOf(obj) == m;
    assert second == Ok(MustWait);
    var exited := support.MonitorExit(t1, obj, true);
    assert exited.Ok?;
    var third := support.MonitorEnter(t2, obj, true);
    assert third == Ok(Entered);
    assert support.MonitorOf(obj) == m;
  }

  method RelockOnAnotherThread(a: ThreadId, b: ThreadId, hubId: nat)
    requires a != b
  {
    var support := new MultiThreadedMonitorSupport(SlottedLayout());
    var cls := Hub(hubId);
    ClassObjectUsesCompanionSlot(support.layout, hubId);

    var handle := support.PrepareRelockObject(a, cls, false);
    assert handle.Ok?;
    support.DoRelockObject(b, cls, handle.value);
    var onB := support.IsLockedByCurrentThread(b, cls);
    var onA := support.IsLockedByCurrentThread(a, cls);
    assert onB == Ok(true);
    assert onA == Ok(false);
  }

  method NotifyWithoutWaiters(t: ThreadId, id: nat)
  {
    var support := new MultiThreadedMonitorSupport(SlottedLayout());
    var obj := Instance(id, "Queue");
    var before := support.Notify(t, obj, true, false);
    assert before == Err(IllegalMonitorState);
    var entered := support.MonitorEnter(t, obj, false);
    assert entered == Ok(Entered);
    var signalled := support.Notify(t, obj, true, false);
    assert signalled == Ok(NothingToSignal);
    var waited := support.DoWait(t, obj, 0, false);
    assert waited == Ok(AwaitUntimed);
    var again := support.Notify(t, obj, false, false);
    assert again == Ok(Signal);
  }

  /**
   * The in-object route never waits for the map lock: while another thread is inside the map
   * route, a thread can still lock and unlock an object that has a slot.
   */
  method SlotLockWhileMapBusy(t1: ThreadId, t2: ThreadId, id: nat)
    requires t1 != t2
  {
    var support := new MultiThreadedMonitorSupport(SlottedLayout());
    support.additionalMonitorsLock := Some(t2);
    var obj := Instance(id, "java.lang.ref.ReferenceQueue");
    var entered := support.MonitorEnter(t1, obj, false);
    assert entered == Ok(Entered);
    var held := support.IsLockedByCurrentThread(t1, obj);
    assert held == Ok(true);
    var exited := support.MonitorExit(t1, obj, false);
    assert exited.Ok?;
    assert support.additionalMonitorsLock == Some(t2);
  }
}
