/**
 * The objects that can be locked, their classes, and the per-class monitor slot offsets
 * that the object layout assigns. A class object (a DynamicHub) is immutable and has no
 * monitor slot; locking it locks its mutable companion object instead.
 */
module ObjectLayout {

  /** A class, as far as monitor placement is concerned. */
  datatype ClassRef = DynamicHubClass | DynamicHubCompanionClass | JavaClass(name: string)

  /**
   * A heap object, identified by its value: a class object, the companion of a class
   * object (one per hub, sharing its id), or an instance of some other class.
   */
  datatype Obj = Hub(hubId: nat) | HubCompanion(hubId: nat) | Instance(id: nat, className: string)

  /** The class of `o`: class objects and companions have their own classes. */
  function ClassOf(o: Obj): (c: ClassRef)
    ensures c == DynamicHubClass <==> o.Hub?
    ensures c == DynamicHubCompanionClass <==> o.HubCompanion?
  {
    match o
    case Hub(_) => DynamicHubClass
    case HubCompanion(_) => DynamicHubCompanionClass
    case Instance(_, name) => JavaClass(name)
  }

  /**
   * The classes that must always get a monitor slot, because they can be synchronized on
   * while the secondary monitor map is being accessed. `javaSpec` is the feature version of
   * the JDK the image is built for.
   */
  function ForceMonitorSlotTypes(javaSpec: nat): (types: set<ClassRef>)
    ensures DynamicHubCompanionClass in types
    ensures JavaClass("java.lang.Object") in types
    ensures JavaClass("java.lang.ref.ReferenceQueue") in types
    ensures JavaClass("java.lang.ref.ReferenceQueue$Lock") in types <==> javaSpec <= 17
    ensures JavaClass("jdk.internal.ref.PhantomCleanable") in types <==> javaSpec >= 11
    ensures DynamicHubClass !in types
  {
    (if javaSpec <= 17 then {JavaClass("java.lang.ref.ReferenceQueue$Lock")} else {})
    + {JavaClass("java.lang.ref.ReferenceQueue"),
       JavaClass("java.io.FileDescriptor"),
       JavaClass("java.lang.Object"),
       JavaClass("com.oracle.svm.core.jdk.SplittableRandomAccessors")}
    + (if javaSpec >= 11 then {JavaClass("jdk.internal.ref.PhantomCleanable")} else {})
    + {DynamicHubCompanionClass}
  }

  /**
   * The layout chosen when the image was built: the monitor slot offset of every class
   * (0 means the class has no slot) and the JDK version it was built for.
   */
  datatype Layout = Layout(offsetOf: ClassRef -> int, javaSpec: nat) {

    /** Every type in the force-slot registry was given a slot. */
    ghost predicate WellFormed() {
      forall c :: c in ForceMonitorSlotTypes(javaSpec) ==> offsetOf(c) != 0
    }
  }

  /** The monitor slot offset of `o`'s class; 0 when it has none. */
  function MonitorOffset(layout: Layout, o: Obj): (offset: int)
    ensures layout.WellFormed() && ClassOf(o) in ForceMonitorSlotTypes(layout.javaSpec) ==> offset != 0
  {
    layout.offsetOf(ClassOf(o))
  }

  /** The object whose monitor is used when `o` is locked. */
  function ReplaceObject(o: Obj): (r: Obj)
    ensures !r.Hub?
    ensures o.Hub? ==> r == HubCompanion(o.hubId)
    ensures !o.Hub? ==> r == o
  {
    if o.Hub? then HubCompanion(o.hubId) else o
  }

  /** Where the monitor of an object lives. */
  datatype Route = SlotRoute | MapRoute

  /** The in-object slot when the replaced object's class has a slot, the fallback map otherwise. */
  function RouteOf(layout: Layout, o: Obj): (r: Route)
    ensures r == SlotRoute <==>
      (if o.Hub? then layout.offsetOf(DynamicHubCompanionClass) else layout.offsetOf(ClassOf(o))) != 0
  {
    if MonitorOffset(layout, ReplaceObject(o)) != 0 then SlotRoute else MapRoute
  }

  /** Replacing twice is replacing once: a companion is never itself replaced. */
  lemma ReplaceObjectIdempotent(o: Obj)
    ensures ReplaceObject(ReplaceObject(o)) == ReplaceObject(o)
  {
  }

  /** Locking a class object always goes through its companion's slot, never the map. */
  lemma ClassObjectUsesCompanionSlot(layout: Layout, hubId: nat)
    requires layout.WellFormed()
    ensures ReplaceObject(Hub(hubId)) == HubCompanion(hubId)
    ensures RouteOf(layout, Hub(hubId)) == SlotRoute
  {
    assert DynamicHubCompanionClass in ForceMonitorSlotTypes(layout.javaSpec);
  }

  /**
   * Up to JDK 17 a ReferenceQueue lock object is never looked up in the fallback map,
   * which is what the assertion at the start of the map lookup demands.
   */
  lemma ReferenceQueueLockNeverUsesMap(layout: Layout, id: nat)
    requires layout.WellFormed() && layout.javaSpec <= 17
    ensures RouteOf(layout, Instance(id, "java.lang.ref.ReferenceQueue$Lock")) == SlotRoute
  {
    assert JavaClass("java.lang.ref.ReferenceQueue$Lock") in ForceMonitorSlotTypes(layout.javaSpec);
  }
}
