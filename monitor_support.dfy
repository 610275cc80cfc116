/**
 * Finding, and on demand creating, the single monitor of an object, and the synchronization
 * operations built on it. A monitor lives either in a slot reserved inside the object (when
 * the object's class has a non-zero monitor offset) or in a secondary identity map guarded by
 * one global lock. Monitors are referred to by identifiers; `monitors` holds the state of
 * every monitor allocated so far.
 */
module MonitorSupport {
  import opened Wrappers
  import opened ObjectLayout
  import opened JavaMonitors

  type MonitorId = nat

  /**
   * IllegalMonitorState is the exception raised to the caller; the other two are fatal VM
   * guarantee failures.
   */
  datatype MonitorError = IllegalMonitorState | RecursiveMapManipulation | ReplacedMonitor

  /** Whether a monitorenter took the monitor or would have to block. */
  datatype EnterOutcome = Entered | MustWait

  /** What a notify does to the condition object of the monitor. */
  datatype NotifyAction = NothingToSignal | Signal | SignalAll

  /** Which await a wait performs on the condition object. */
  datatype WaitAction = AwaitUntimed | AwaitTimed(millis: int)

  /** The state of monitor `id`, where a monitor not allocated in `ms` reads as a new one. */
  function StateOr(ms: map<MonitorId, JavaMonitor>, id: MonitorId): (m: JavaMonitor)
    ensures (forall i :: i in ms ==> ms[i].Valid()) ==> m.Valid()
    ensures id !in ms ==> !m.IsLocked() && !m.hasCondition
  {
    if id in ms then ms[id] else NewMonitor
  }

  /** `after` keeps every monitor of `before`, except possibly `id`, and adds only new ones. */
  ghost predicate ExtendsExcept(before: map<MonitorId, JavaMonitor>, after: map<MonitorId, JavaMonitor>, id: Option<MonitorId>)
  {
    && before.Keys <= after.Keys
    && forall m :: m in after && Some(m) != id ==> after[m] == StateOr(before, m)
  }

  class MultiThreadedMonitorSupport {
    const layout: Layout
    /** The in-object monitor slots; an object that is not a key has a null slot. */
    var slots: map<Obj, MonitorId>
    /** The secondary storage for objects without a slot. */
    var additionalMonitors: map<Obj, MonitorId>
    /** The thread holding the lock that serializes access to `additionalMonitors`, if any. */
    var additionalMonitorsLock: Option<ThreadId>
    var monitors: map<MonitorId, JavaMonitor>
    /** The identifier the next allocated monitor receives. */
    var nextMonitor: MonitorId

    /**
     * Slots are used only by objects whose class has a slot and the map only by the others,
     * so no object is ever served from both; every installed monitor is allocated and belongs
     * to exactly one object.
     */
    ghost predicate Valid()
      reads this
      ensures Valid() ==> forall o :: !(o in slots && o in additionalMonitors)
    {
      && layout.WellFormed()
      && (forall o :: o in slots ==> MonitorOffset(layout, o) != 0 && slots[o] in monitors)
      && (forall o :: o in additionalMonitors ==>
            MonitorOffset(layout, o) == 0 && additionalMonitors[o] in monitors)
      && (forall id :: id in monitors ==> id < nextMonitor && monitors[id].Valid())
      && (forall o1, o2 :: o1 in slots && o2 in slots && o1 != o2 ==> slots[o1] != slots[o2])
      && (forall o1, o2 :: o1 in additionalMonitors && o2 in additionalMonitors && o1 != o2 ==>
            additionalMonitors[o1] != additionalMonitors[o2])
      && (forall o1, o2 :: o1 in slots && o2 in additionalMonitors ==>
            slots[o1] != additionalMonitors[o2])
    }

    /** The monitor currently associated with `o`, found through the one route `o` uses. */
    ghost function MonitorOf(o: Obj): (r: Option<MonitorId>)
      reads this
      ensures Valid() && r.Some? ==> r.value in monitors
    {
      if RouteOf(layout, o) == SlotRoute then Lookup(slots, ReplaceObject(o))
      else Lookup(additionalMonitors, ReplaceObject(o))
    }

    /** The current thread `t` already holds the map lock and `o` would need the map. */
    predicate MapReentry(o: Obj, t: ThreadId)
      reads this
    {
      RouteOf(layout, o) == MapRoute && additionalMonitorsLock == Some(t)
    }

    /** The map lock is free or already held by `t` itself. */
    predicate MapLockAvailable(t: ThreadId)
      reads this
    {
      additionalMonitorsLock.None? || additionalMonitorsLock == Some(t)
    }

    /**
     * A lookup of `o` is a step `t` can take: the in-object route never touches the map lock,
     * and the map route needs it free or already held by `t` itself (a lock held by another
     * thread would make `t` wait).
     */
    predicate LookupEnabled(o: Obj, t: ThreadId)
      reads this
    {
      RouteOf(layout, o) == MapRoute ==> MapLockAvailable(t)
    }

    /**
     * What a lookup of `o` may change: only the entry for `o`'s replacement on `o`'s own route,
     * only from null to a freshly allocated monitor, and only when `create` holds.
     */
    twostate predicate LookupEffect(o: Obj, create: bool)
      reads this
    {
      && additionalMonitorsLock == old(additionalMonitorsLock)
      && old(nextMonitor) <= nextMonitor
      && (RouteOf(layout, o) == SlotRoute ==>
            && additionalMonitors == old(additionalMonitors)
            && slots - {ReplaceObject(o)} == old(slots) - {ReplaceObject(o)})
      && (RouteOf(layout, o) == MapRoute ==>
            && slots == old(slots)
            && additionalMonitors - {ReplaceObject(o)} == old(additionalMonitors) - {ReplaceObject(o)})
      && (old(MonitorOf(o)).Some? || !create ==>
            slots == old(slots) && additionalMonitors == old(additionalMonitors))
      && (old(MonitorOf(o)).None? && MonitorOf(o).Some? ==> MonitorOf(o).value !in old(monitors))
    }

    constructor (layout: Layout)
      requires layout.WellFormed()
      ensures Valid()
      ensures this.layout == layout
      ensures slots == map[] && additionalMonitors == map[] && monitors == map[]
      ensures additionalMonitorsLock == None
    {
      this.layout := layout;
      slots := map[];
      additionalMonitors := map[];
      additionalMonitorsLock := None;
      monitors := map[];
      nextMonitor := 0;
    }

    /** Allocates a new, unowned monitor that no object uses yet. */
    method NewMonitorLock() returns (id: MonitorId)
      requires Valid()
      modifies this`monitors, this`nextMonitor
      ensures Valid()
      ensures id == old(nextMonitor) && id !in old(monitors)
      ensures monitors == old(monitors)[id := NewMonitor] && nextMonitor == id + 1
    {
      id := nextMonitor;
      monitors := monitors[id := NewMonitor];
      nextMonitor := nextMonitor + 1;
    }

    /** Replaces the state of the allocated monitor `id` by `m`. */
    method SetMonitorState(id: MonitorId, m: JavaMonitor)
      requires Valid() && id in monitors && m.Valid()
      modifies this`monitors
      ensures Valid()
      ensures monitors == old(monitors)[id := m]
    {
      monitors := monitors[id := m];
    }

    /** Atomically puts `newMonitor` into `obj`'s slot if the slot is still null. */
    method CompareAndSetSlot(obj: Obj, newMonitor: MonitorId) returns (success: bool)
      requires Valid() && MonitorOffset(layout, obj) != 0 && newMonitor in monitors
      requires newMonitor !in slots.Values && newMonitor !in additionalMonitors.Values
      modifies this`slots
      ensures Valid()
      ensures success <==> obj !in old(slots)
      ensures slots == if success then old(slots)[obj := newMonitor] else old(slots)
    {
      success := obj !in slots;
      if success {
        slots := slots[obj := newMonitor];
      }
    }

    /**
     * The step of another thread that wins the race for `obj`'s slot: it allocates its own
     * monitor and installs it between this thread's read and its compare-and-set.
     */
    method InstallFromOtherThread(obj: Obj)
      requires Valid() && MonitorOffset(layout, obj) != 0 && obj !in slots
      modifies this`slots, this`monitors, this`nextMonitor
      ensures Valid()
      ensures slots == old(slots)[obj := old(nextMonitor)]
      ensures monitors == old(monitors)[old(nextMonitor) := NewMonitor]
      ensures nextMonitor == old(nextMonitor) + 1
    {
      var theirs := NewMonitorLock();
      var installed := CompareAndSetSlot(obj, theirs);
    }

    /**
     * The in-object route. With `lostRace`, another thread fills the slot between the read and
     * the compare-and-set, which then fails.
     */
    method GetOrCreateMonitorFromObject(obj: Obj, create: bool, lostRace: bool) returns (r: Option<MonitorId>)
      requires Valid() && MonitorOffset(layout, obj) != 0
      modifies this`slots, this`monitors, this`nextMonitor
      ensures Valid()
      ensures r == Lookup(slots, obj)
      ensures obj in old(slots) || !create ==> r == Lookup(old(slots), obj) && unchanged(this)
      ensures obj !in old(slots) && create ==>
        && r.Some?
        && slots == old(slots)[obj := r.value]
        && r.value == (if lostRace then old(nextMonitor) + 1 else old(nextMonitor))
        && nextMonitor == old(nextMonitor) + (if lostRace then 2 else 1)
        && monitors == old(monitors)[old(nextMonitor) := NewMonitor][r.value := NewMonitor]
    {
      var existingMonitor := Lookup(slots, obj);
      if existingMonitor.Some? || !create {
        return existingMonitor;
      }
      var newMonitor := NewMonitorLock();
      if lostRace {
        InstallFromOtherThread(obj);
      }
      var success := CompareAndSetSlot(obj, newMonitor);
      if success {
        return Some(newMonitor);
      }
      r := Lookup(slots, obj);
    }

    /**
     * The fallback route: under the map lock, look up `obj` and insert a new monitor when
     * there is none and `create` holds. Entering while the current thread already holds the
     * map lock is a fatal error, and so would be replacing an existing entry.
     */
    method GetOrCreateMonitorFromMap(current: ThreadId, obj: Obj, create: bool)
      returns (r: Result<Option<MonitorId>, MonitorError>)
      requires Valid() && MonitorOffset(layout, obj) == 0 && MapLockAvailable(current)
      modifies this`additionalMonitors, this`additionalMonitorsLock, this`monitors, this`nextMonitor
      ensures Valid()
      ensures additionalMonitorsLock == old(additionalMonitorsLock)
      ensures r.Err? <==> old(additionalMonitorsLock) == Some(current)
      ensures r.Err? ==> r.error == RecursiveMapManipulation && unchanged(this)
      ensures r.Ok? ==> r.value == Lookup(additionalMonitors, obj)
      ensures r.Ok? && (obj in old(additionalMonitors) || !create) ==>
        r.value == Lookup(old(additionalMonitors), obj) && unchanged(this)
      ensures r.Ok? && obj !in old(additionalMonitors) && create ==>
        && r.value == Some(old(nextMonitor))
        && additionalMonitors == old(additionalMonitors)[obj := old(nextMonitor)]
        && monitors == old(monitors)[old(nextMonitor) := NewMonitor]
        && nextMonitor == old(nextMonitor) + 1
    {
      if additionalMonitorsLock == Some(current) {
        return Err(RecursiveMapManipulation);
      }
      additionalMonitorsLock := Some(current);
      var existingMonitor := Lookup(additionalMonitors, obj);
      if existingMonitor.Some? || !create {
        additionalMonitorsLock := None;
        return Ok(existingMonitor);
      }
      var newMonitor := NewMonitorLock();
      var previousEntry := Lookup(additionalMonitors, obj);
      additionalMonitors := additionalMonitors[obj := newMonitor];
      additionalMonitorsLock := None;
      r := if previousEntry.None? then Ok(Some(newMonitor)) else Err(ReplacedMonitor);
    }

    /** The monitor of `unreplacedObject`, created when missing and `create` holds. */
    method GetOrCreateMonitor(current: ThreadId, unreplacedObject: Obj, create: bool, lostRace: bool)
      returns (r: Result<Option<MonitorId>, MonitorError>)
      requires Valid() && LookupEnabled(unreplacedObject, current)
      modifies this
      ensures Valid()
      ensures LookupEffect(unreplacedObject, create)
      ensures ExtendsExcept(old(monitors), monitors, None)
      ensures r.Err? <==> old(MapReentry(unreplacedObject, current))
      ensures r.Err? ==> r.error == RecursiveMapManipulation && unchanged(this)
      ensures !create ==> unchanged(this)
      ensures r.Ok? ==> r.value == MonitorOf(unreplacedObject)
      ensures r.Ok? && !create ==> r.value == old(MonitorOf(unreplacedObject))
      ensures r.Ok? && create ==> r.value.Some?
    {
      var obj := ReplaceObject(unreplacedObject);
      var monitorOffset := MonitorOffset(layout, obj);
      if monitorOffset != 0 {
        var m := GetOrCreateMonitorFromObject(obj, create, lostRace);
        r := Ok(m);
      } else {
        r := GetOrCreateMonitorFromMap(current, obj, create);
      }
    }
  
    /** Enters the monitor of `obj`, creating it on first use. */
    method MonitorEnter(current: ThreadId, obj: Obj, lostRace: bool)
      returns (r: Result<EnterOutcome, MonitorError>)
      requires Valid() && LookupEnabled(obj, current)
      modifies this
      ensures Valid()
      ensures LookupEffect(obj, true)
      ensures r.Err? <==> old(MapReentry(obj, current))
      ensures r.Err? ==> r.error == RecursiveMapManipulation && unchanged(this)
      ensures r.Ok? ==> MonitorOf(obj).Some?
      ensures r.Ok? ==>
        var id := MonitorOf(obj).value;
        var before := StateOr(old(monitors), id);
        && ExtendsExcept(old(monitors), monitors, Some(id))
        && (r.value == Entered <==> before.CanEnter(current))
        && monitors[id] == (if r.value == Entered then before.Enter(current) else before)
    {
      var lockObject := GetOrCreateMonitor(current, obj, true, lostRace);
      if lockObject.Err? {
        return Err(lockObject.error);
      }
      var id := lockObject.value.value;
      if monitors[id].CanEnter(current) {
        SetMonitorState(id, monitors[id].Enter(current));
        r := Ok(Entered);
      } else {
        r := Ok(MustWait);
      }
    }

    /** Exits the monitor of `obj`; only its owner may do so. */
    method MonitorExit(current: ThreadId, obj: Obj, lostRace: bool)
      returns (r: Result<(), MonitorError>)
      requires Valid() && LookupEnabled(obj, current)
      modifies this
      ensures Valid()
      ensures LookupEffect(obj, true)
      ensures old(MapReentry(obj, current)) ==> r == Err(RecursiveMapManipulation) && unchanged(this)
      ensures !old(MapReentry(obj, current)) ==> MonitorOf(obj).Some?
      ensures !old(MapReentry(obj, current)) ==>
        var id := MonitorOf(obj).value;
        var before := StateOr(old(monitors), id);
        && ExtendsExcept(old(monitors), monitors, Some(id))
        && (r.Ok? <==> before.IsHeldBy(current))
        && (r.Err? ==> r.error == IllegalMonitorState)
        && monitors[id] == (if r.Ok? then before.Exit(current) else before)
    {
      var lockObject := GetOrCreateMonitor(current, obj, true, lostRace);
      if lockObject.Err? {
        return Err(lockObject.error);
      }
      var id := lockObject.value.value;
      if monitors[id].IsHeldBy(current) {
        SetMonitorState(id, monitors[id].Exit(current));
        r := Ok(());
      } else {
        r := Err(IllegalMonitorState);
      }
    }

    /**
     * The first phase of relocking after deoptimization: makes sure the monitor exists so that
     * the second phase needs neither to allocate nor to block. It may run on any thread and
     * checks nothing about the current owner.
     */
    method PrepareRelockObject(current: ThreadId, obj: Obj, lostRace: bool)
      returns (r: Result<MonitorId, MonitorError>)
      requires Valid() && LookupEnabled(obj, current)
      modifies this
      ensures Valid()
      ensures LookupEffect(obj, true)
      ensures ExtendsExcept(old(monitors), monitors, None)
      ensures r.Err? <==> old(MapReentry(obj, current))
      ensures r.Err? ==> r.error == RecursiveMapManipulation && unchanged(this)
      ensures r.Ok? ==> MonitorOf(obj) == Some(r.value)
    {
      var lockObject := GetOrCreateMonitor(current, obj, true, lostRace);
      if lockObject.Err? {
        return Err(lockObject.error);
      }
      r := Ok(lockObject.value.value);
    }

    /**
     * The second phase: gives the monitor `lockData` obtained in the first phase back to the
     * committing thread, without looking `obj` up again.
     */
    method DoRelockObject(current: ThreadId, obj: Obj, lockData: MonitorId)
      requires Valid() && lockData in monitors
      modifies this`monitors
      ensures Valid()
      ensures monitors == old(monitors)[lockData := old(monitors)[lockData].Relock(current)]
      ensures monitors[lockData].IsHeldBy(current)
      ensures slots == old(slots) && additionalMonitors == old(additionalMonitors)
      ensures additionalMonitorsLock == old(additionalMonitorsLock)
    {
      SetMonitorState(lockData, monitors[lockData].Relock(current));
    }

    /** Whether the current thread holds the monitor of `obj`; never creates a monitor. */
    method IsLockedByCurrentThread(current: ThreadId, obj: Obj) returns (r: Result<bool, MonitorError>)
      requires Valid() && LookupEnabled(obj, current)
      modifies this
      ensures unchanged(this)
      ensures r.Err? <==> MapReentry(obj, current)
      ensures r.Err? ==> r.error == RecursiveMapManipulation
      ensures r.Ok? ==> (r.value <==> MonitorOf(obj).Some? && monitors[MonitorOf(obj).value].IsHeldBy(current))
    {
      var lockObject := GetOrCreateMonitor(current, obj, false, false);
      if lockObject.Err? {
        return Err(lockObject.error);
      }
      r := Ok(lockObject.value.Some? && monitors[lockObject.value.value].IsHeldBy(current));
    }

    /** Whether any thread holds the monitor of `obj`; never creates a monitor. */
    method IsLockedByAnyThread(current: ThreadId, obj: Obj) returns (r: Result<bool, MonitorError>)
      requires Valid() && LookupEnabled(obj, current)
      modifies this
      ensures unchanged(this)
      ensures r.Err? <==> MapReentry(obj, current)
      ensures r.Err? ==> r.error == RecursiveMapManipulation
      ensures r.Ok? ==> (r.value <==> MonitorOf(obj).Some? && monitors[MonitorOf(obj).value].IsLocked())
    {
      var lockObject := GetOrCreateMonitor(current, obj, false, false);
      if lockObject.Err? {
        return Err(lockObject.error);
      }
      r := Ok(lockObject.value.Some? && monitors[lockObject.value.value].IsLocked());
    }

    /**
     * The monitor of `obj`, created if needed, provided the current thread holds it; otherwise
     * IllegalMonitorState. The monitor is created before the ownership test, so a failing call
     * can still have installed a new, unowned monitor.
     */
    method EnsureLocked(current: ThreadId, obj: Obj, lostRace: bool) returns (r: Result<MonitorId, MonitorError>)
      requires Valid() && LookupEnabled(obj, current)
      modifies this
      ensures Valid()
      ensures LookupEffect(obj, true)
      ensures ExtendsExcept(old(monitors), monitors, None)
      ensures old(MapReentry(obj, current)) ==> r == Err(RecursiveMapManipulation) && unchanged(this)
      ensures !old(MapReentry(obj, current)) ==>
        && MonitorOf(obj).Some?
        && (r.Ok? <==> monitors[MonitorOf(obj).value].IsHeldBy(current))
        && (r.Ok? ==> r.value == MonitorOf(obj).value)
        && (r.Err? ==> r.error == IllegalMonitorState)
    {
      var lockObject := GetOrCreateMonitor(current, obj, true, lostRace);
      if lockObject.Err? {
        return Err(lockObject.error);
      }
      var id := lockObject.value.value;
      if !monitors[id].IsHeldBy(current) {
        return Err(IllegalMonitorState);
      }
      r := Ok(id);
    }

    /**
     * Wakes one or all waiters of `obj`'s monitor, which the current thread must hold. A monitor
     * without a condition object has never been waited on: nothing is signalled and no
     * condition object is created.
     */
    method Notify(current: ThreadId, obj: Obj, notifyAll: bool, lostRace: bool)
      returns (r: Result<NotifyAction, MonitorError>)
      requires Valid() && LookupEnabled(obj, current)
      modifies this
      ensures Valid()
      ensures LookupEffect(obj, true)
      ensures ExtendsExcept(old(monitors), monitors, None)
      ensures old(MapReentry(obj, current)) ==> r == Err(RecursiveMapManipulation) && unchanged(this)
      ensures !old(MapReentry(obj, current)) ==> MonitorOf(obj).Some?
      ensures !old(MapReentry(obj, current)) ==>
        var id := MonitorOf(obj).value;
        && (r.Ok? <==> monitors[id].IsHeldBy(current))
        && (r.Err? ==> r.error == IllegalMonitorState)
        && (r.Ok? ==> (r.value == NothingToSignal <==> !monitors[id].hasCondition))
        && (r.Ok? && monitors[id].hasCondition ==> r.value == if notifyAll then SignalAll else Signal)
    {
      var lock := EnsureLocked(current, obj, lostRace);
      if lock.Err? {
        return Err(lock.error);
      }
      var condition := monitors[lock.value].GetOrCreateCondition(false);
      if condition.hasCondition {
        r := Ok(if notifyAll then SignalAll else Signal);
      } else {
        r := Ok(NothingToSignal);
      }
    }

    /**
     * Starts a wait on `obj`'s monitor, which the current thread must hold: the condition
     * object is obtained, and created if missing, and a timeout of 0 selects the untimed await.
     */
    method DoWait(current: ThreadId, obj: Obj, timeoutMillis: int, lostRace: bool)
      returns (r: Result<WaitAction, MonitorError>)
      requires Valid() && LookupEnabled(obj, current)
      modifies this
      ensures Valid()
      ensures LookupEffect(obj, true)
      ensures old(MapReentry(obj, current)) ==> r == Err(RecursiveMapManipulation) && unchanged(this)
      ensures !old(MapReentry(obj, current)) ==> MonitorOf(obj).Some?
      ensures !old(MapReentry(obj, current)) ==>
        var id := MonitorOf(obj).value;
        var before := StateOr(old(monitors), id);
        && (r.Ok? <==> before.IsHeldBy(current))
        && (r.Err? ==> r.error == IllegalMonitorState && ExtendsExcept(old(monitors), monitors, None))
        && (r.Ok? ==> ExtendsExcept(old(monitors), monitors, Some(id)))
        && (r.Ok? ==> monitors[id] == before.GetOrCreateCondition(true) && monitors[id].hasCondition)
        && (r.Ok? ==> r.value == if timeoutMillis == 0 then AwaitUntimed else AwaitTimed(timeoutMillis))
    {
      var lock := EnsureLocked(current, obj, lostRace);
      if lock.Err? {
        return Err(lock.error);
      }
      var id := lock.value;
      assert monitors[id] == StateOr(old(monitors), id);
      SetMonitorState(id, monitors[id].GetOrCreateCondition(true));
      if timeoutMillis == 0 {
        r := Ok(AwaitUntimed);
      } else {
        r := Ok(AwaitTimed(timeoutMillis));
      }
    }
  }
}
