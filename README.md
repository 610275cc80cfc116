# Monitor placement and bytecode source lookup, modelled in Dafny

This project models two pieces of a managed runtime.

**Monitor support** (`MultiThreadedMonitorSupport`). This is the code that finds, and on demand creates, the one monitor that belongs to an object. A class object (a `DynamicHub`) is immutable, so locking it locks its companion object instead. The object's class gives a monitor slot offset:
- Non-zero: the monitor lives in a slot inside the object. The slot is filled once, by compare-and-set.
- Zero: the monitor lives in a secondary identity map, `additionalMonitors`. The map is serialized by one global lock. Re-entering the map code while holding that lock is a fatal error, and so is replacing an entry.

Built on this lookup are monitorenter/monitorexit, wait and notify (through a check that the caller holds the monitor), the two ownership queries, and the two-phase relock used by deoptimization. The monitor itself is kept abstract: an owner, a recursion count and whether its condition object exists. It behaves as a reentrant lock.

**Operation node source lookup** (`OperationNode`). A `SourceInfo` is a table of four parallel `int` arrays. `getSourceSection` returns the first entry with a defined start. `getSourceSectionAtBci` returns the entry before the first one whose bci is greater than the query.

Files:
- `wrappers.dfy`: `Option`, `Result` and map lookup.
- `object_layout.dfy`: objects, classes, the layout, `replaceObject`, the route choice and the force-slot registry.
- `park_status.dfy`: `maybeAdjustNewParkStatus`.
- `java_monitor.dfy`: the abstract monitor state.
- `monitor_support.dfy`: the `MultiThreadedMonitorSupport` class.
- `operation_node.dfy`: `SourceInfo`, `OperationNode` and the location node.
- `scenarios.dfy`: callers proved from the contracts alone:
  - two threads contend for a fresh object; one enters and the other must wait until the first exits;
  - relocking on thread B a monitor prepared on thread A leaves it held by B and not A;
  - notify before any wait signals nothing;
  - while another thread holds the map lock, a thread still locks, queries and unlocks an object that has a slot.

How the model represents things:
- Objects are values: `Hub`, its `HubCompanion`, or an `Instance` of a named class.
- Monitors are identifiers, allocated from a counter. Their states are kept in the map `monitors`.
- An object that is not a key of `slots` has a null slot.
- A lost compare-and-set race is the parameter `lostRace`. When it is set, another thread allocates and installs its own monitor between this thread's read of the slot and its compare-and-set.
- The current thread is a parameter. So is the parking thread's blocker.

Behaviours of the code that are easy to miss, which the model follows:
- `ensureLocked` looks the monitor up with creation on before it checks ownership. So a `wait` or `notify` that fails with `IllegalMonitorStateException` can still install a new, unowned monitor. Lock ownership is left unchanged.
- Only `doWait` creates the condition object. `notify` never does, and it is a no-op when none exists.
- `monitorExit` also creates the monitor when it is missing.
- `getSourceSection` does not check the source index of the entry it picks, unlike `getSourceSectionAtBci`.

## Model

| member | source | states |
|---|---|---|
| `ObjectLayout.ReplaceObject` | substratevm/src/com.oracle.svm.core/src/com/oracle/svm/core/monitor/MultiThreadedMonitorSupport.java:369-379 | a class object is replaced by its companion; every other object is returned unchanged; the result is never a class object |
| `ObjectLayout.ReplaceObjectIdempotent` | substratevm/src/com.oracle.svm.core/src/com/oracle/svm/core/monitor/MultiThreadedMonitorSupport.java:369-379 | replacing a replaced object changes nothing |
| `ObjectLayout.MonitorOffset` | substratevm/src/com.oracle.svm.core/src/com/oracle/svm/core/monitor/MultiThreadedMonitorSupport.java:365-367 | the offset of the object's class; with a layout that honours the registry, it is non-zero for every registered class |
| `ObjectLayout.RouteOf` | substratevm/src/com.oracle.svm.core/src/com/oracle/svm/core/monitor/MultiThreadedMonitorSupport.java:365-392 | the slot route is taken exactly when the monitor offset is non-zero, of the companion class for a class object and of the object's own class otherwise |
| `ObjectLayout.ForceMonitorSlotTypes` | substratevm/src/com.oracle.svm.core/src/com/oracle/svm/core/monitor/MultiThreadedMonitorSupport.java:108-175 | the registry always holds the companion class, `Object` and `ReferenceQueue`; it holds `ReferenceQueue$Lock` exactly up to JDK 17 and `PhantomCleanable` exactly from JDK 11; it never holds the class-object class |
| `ObjectLayout.ClassObjectUsesCompanionSlot` | substratevm/src/com.oracle.svm.core/src/com/oracle/svm/core/monitor/MultiThreadedMonitorSupport.java:80-84 | with a layout that honours the registry, locking a class object goes through its companion's slot, never the map |
| `ObjectLayout.ReferenceQueueLockNeverUsesMap` | substratevm/src/com.oracle.svm.core/src/com/oracle/svm/core/monitor/MultiThreadedMonitorSupport.java:409-410 | up to JDK 17 a `ReferenceQueue$Lock` is never looked up in the map, as the assertion at the start of the map route requires |
| `ParkStatus.MaybeAdjustNewParkStatus` | substratevm/src/com.oracle.svm.core/src/com/oracle/svm/core/monitor/MultiThreadedMonitorSupport.java:184-198 | a condition-object blocker gives the timed object wait exactly for a timed park and the untimed object wait otherwise; a monitor blocker gives blocked-on-monitor-enter; any other blocker keeps the status |
| `ParkStatus.ParkTimednessPreserved` | substratevm/src/com.oracle.svm.core/src/com/oracle/svm/core/monitor/MultiThreadedMonitorSupport.java:187-195 | for a park status, a condition blocker keeps whether the park is timed and a monitor blocker never reports a timed state |
| `JavaMonitors.JavaMonitor.Enter` | substratevm/src/com.oracle.svm.core/src/com/oracle/svm/core/monitor/MultiThreadedMonitorSupport.java:244-247 | an entry by a thread that may enter leaves the monitor valid and held by that thread |
| `JavaMonitors.JavaMonitor.Exit` | substratevm/src/com.oracle.svm.core/src/com/oracle/svm/core/monitor/MultiThreadedMonitorSupport.java:280-284 | an exit by the owner keeps the monitor valid; if it is still locked, the exiting thread still owns it |
| `JavaMonitors.JavaMonitor.Relock` | substratevm/src/com.oracle.svm.core/src/com/oracle/svm/core/monitor/MultiThreadedMonitorSupport.java:305-310 | after a relock the committing thread holds the monitor and no other thread does |
| `JavaMonitors.JavaMonitor.GetOrCreateCondition` | substratevm/src/com.oracle.svm.core/src/com/oracle/svm/core/monitor/MultiThreadedMonitorSupport.java:332 | ownership is untouched; the condition exists afterwards exactly when it existed before or was asked for |
| `JavaMonitors.EnterTimes` | substratevm/src/com.oracle.svm.core/src/com/oracle/svm/core/monitor/MultiThreadedMonitorSupport.java:244-247 | k entries by one thread add k to the recursion count and leave that thread the owner |
| `JavaMonitors.ExitTimes` | substratevm/src/com.oracle.svm.core/src/com/oracle/svm/core/monitor/MultiThreadedMonitorSupport.java:280-284 | j exits take j off the recursion count, and the owner keeps the monitor while the count is positive |
| `JavaMonitors.ReentrantRoundTrip` | substratevm/src/com.oracle.svm.core/src/com/oracle/svm/core/monitor/MultiThreadedMonitorSupport.java:242-284 | after k entries, no other thread can enter until all k exits are done, and the k exits restore the monitor exactly |
| `MonitorSupport.MultiThreadedMonitorSupport.Valid` | substratevm/src/com.oracle.svm.core/src/com/oracle/svm/core/monitor/MultiThreadedMonitorSupport.java:95-104 | no object has both a slot monitor and a map monitor; every installed monitor is allocated and belongs to exactly one object |
| `MonitorSupport.MultiThreadedMonitorSupport.constructor` | substratevm/src/com.oracle.svm.core/src/com/oracle/svm/core/monitor/MultiThreadedMonitorSupport.java:181-182 | the map and slots start empty and the map lock starts free |
| `MonitorSupport.MultiThreadedMonitorSupport.NewMonitorLock` | substratevm/src/com.oracle.svm.core/src/com/oracle/svm/core/monitor/MultiThreadedMonitorSupport.java:433-435 | allocates an unowned monitor that no object uses; nothing else changes |
| `MonitorSupport.MultiThreadedMonitorSupport.CompareAndSetSlot` | substratevm/src/com.oracle.svm.core/src/com/oracle/svm/core/monitor/MultiThreadedMonitorSupport.java:399-403 | succeeds exactly when the slot is null, and only then installs the monitor |
| `MonitorSupport.MultiThreadedMonitorSupport.InstallFromOtherThread` | substratevm/src/com.oracle.svm.core/src/com/oracle/svm/core/monitor/MultiThreadedMonitorSupport.java:404-405 | the racing thread fills the null slot with its own new monitor |
| `MonitorSupport.MultiThreadedMonitorSupport.GetOrCreateMonitorFromObject` | substratevm/src/com.oracle.svm.core/src/com/oracle/svm/core/monitor/MultiThreadedMonitorSupport.java:394-406 | a filled slot, or `create` false, returns the slot value and changes nothing; otherwise the slot goes once from null to a new monitor, ours or on a lost race the other thread's; the result always equals the slot afterwards |
| `MonitorSupport.MultiThreadedMonitorSupport.GetOrCreateMonitorFromMap` | substratevm/src/com.oracle.svm.core/src/com/oracle/svm/core/monitor/MultiThreadedMonitorSupport.java:408-431 | holding the map lock already is a fatal error with nothing changed; a found entry, or `create` false, returns the lookup and changes nothing; otherwise exactly one new entry is added for a key that had none, so the replaced-monitor guarantee never fails; the lock is released on every exit |
| `MonitorSupport.MultiThreadedMonitorSupport.GetOrCreateMonitor` | substratevm/src/com.oracle.svm.core/src/com/oracle/svm/core/monitor/MultiThreadedMonitorSupport.java:381-392 | only the entry of the replaced object on its own route can change, only from null to a fresh monitor; without `create` nothing changes at all; the result is the object's monitor afterwards and is present whenever `create` holds |
| `MonitorSupport.MultiThreadedMonitorSupport.MonitorEnter` | substratevm/src/com.oracle.svm.core/src/com/oracle/svm/core/monitor/MultiThreadedMonitorSupport.java:242-247 | the monitor is created if needed; the caller enters it exactly when it is free or already held by the caller, and otherwise must wait with the monitor unchanged |
| `MonitorSupport.MultiThreadedMonitorSupport.MonitorExit` | substratevm/src/com.oracle.svm.core/src/com/oracle/svm/core/monitor/MultiThreadedMonitorSupport.java:279-284 | the monitor is created if needed; the owner exits once; a non-owner gets IllegalMonitorState with the monitor unchanged |
| `MonitorSupport.MultiThreadedMonitorSupport.PrepareRelockObject` | substratevm/src/com.oracle.svm.core/src/com/oracle/svm/core/monitor/MultiThreadedMonitorSupport.java:286-303 | always yields the object's existing or newly created monitor; no monitor state changes |
| `MonitorSupport.MultiThreadedMonitorSupport.DoRelockObject` | substratevm/src/com.oracle.svm.core/src/com/oracle/svm/core/monitor/MultiThreadedMonitorSupport.java:305-310 | relocks only the monitor passed in, for the committing thread; slots, the map and the map lock are untouched |
| `MonitorSupport.MultiThreadedMonitorSupport.IsLockedByCurrentThread` | substratevm/src/com.oracle.svm.core/src/com/oracle/svm/core/monitor/MultiThreadedMonitorSupport.java:312-316 | changes nothing; true exactly when the object has a monitor and the caller holds it |
| `MonitorSupport.MultiThreadedMonitorSupport.IsLockedByAnyThread` | substratevm/src/com.oracle.svm.core/src/com/oracle/svm/core/monitor/MultiThreadedMonitorSupport.java:318-322 | changes nothing; true exactly when the object has a monitor and some thread holds it |
| `MonitorSupport.MultiThreadedMonitorSupport.EnsureLocked` | substratevm/src/com.oracle.svm.core/src/com/oracle/svm/core/monitor/MultiThreadedMonitorSupport.java:356-363 | returns the object's monitor exactly when the caller holds it, and IllegalMonitorState otherwise; no monitor state changes |
| `MonitorSupport.MultiThreadedMonitorSupport.Notify` | substratevm/src/com.oracle.svm.core/src/com/oracle/svm/core/monitor/MultiThreadedMonitorSupport.java:340-354 | IllegalMonitorState exactly when the caller does not hold the monitor; never creates a condition; signals nothing when there is no condition, and one or all waiters otherwise |
| `MonitorSupport.MultiThreadedMonitorSupport.DoWait` | substratevm/src/com.oracle.svm.core/src/com/oracle/svm/core/monitor/MultiThreadedMonitorSupport.java:324-338 | IllegalMonitorState exactly when the caller does not hold the monitor; otherwise the condition exists afterwards, and a timeout of 0 selects the untimed await |
| `OperationNodes.FirstDefinedStart` | truffle/src/com.oracle.truffle.api.operation/src/com/oracle/truffle/api/operation/OperationNode.java:74-80 | the smallest index with a non-negative start, or the length when there is none |
| `OperationNodes.FirstGreaterBci` | truffle/src/com.oracle.truffle.api.operation/src/com/oracle/truffle/api/operation/OperationNode.java:93-99 | the first index whose bci exceeds the query, or the length; every earlier bci is at most the query |
| `OperationNodes.FirstGreaterBciMonotonic` | truffle/src/com.oracle.truffle.api.operation/src/com/oracle/truffle/api/operation/OperationNode.java:93-99 | a larger query never stops the scan earlier |
| `OperationNodes.FirstGreaterBciSorted` | truffle/src/com.oracle.truffle.api.operation/src/com/oracle/truffle/api/operation/OperationNode.java:93-104 | on a sorted bci column, the entries before the stop are exactly those whose bci is at most the query, so the entry used is the last such one |
| `OperationNodes.SourceInfo.constructor` | truffle/src/com.oracle.truffle.api.operation/src/com/oracle/truffle/api/operation/OperationNode.java:124-133 | built only from four arrays of equal length, which it keeps |
| `OperationNodes.SourceInfo.Length` | truffle/src/com.oracle.truffle.api.operation/src/com/oracle/truffle/api/operation/OperationNode.java:135-137 | the common length of all four arrays |
| `OperationNodes.SourceInfo.EntrySection` | truffle/src/com.oracle.truffle.api.operation/src/com/oracle/truffle/api/operation/OperationNode.java:103-115 | an entry gives a section exactly when its source index and start are both non-negative |
| `OperationNodes.OperationNode.constructor` | truffle/src/com.oracle.truffle.api.operation/src/com/oracle/truffle/api/operation/OperationNode.java:21-25 | keeps the given source information, which may be absent, and bytecode node |
| `OperationNodes.OperationNode.HasSourceInfo` | truffle/src/com.oracle.truffle.api.operation/src/com/oracle/truffle/api/operation/OperationNode.java:50-52 | true exactly when source information is present; without it, neither the whole node nor any bytecode index has a source section |
| `OperationNodes.OperationNode.SetSourceInfo` | truffle/src/com.oracle.truffle.api.operation/src/com/oracle/truffle/api/operation/OperationNode.java:50-58 | allowed only while no source information is present; afterwards it is present exactly when a non-null one was given |
| `OperationNodes.OperationNode.ChangeBytecode` | truffle/src/com.oracle.truffle.api.operation/src/com/oracle/truffle/api/operation/OperationNode.java:45-48 | replaces the bytecode node only |
| `OperationNodes.OperationNode.GetSourceSection` | truffle/src/com.oracle.truffle.api.operation/src/com/oracle/truffle/api/operation/OperationNode.java:66-83 | none without source information; otherwise the entry at the smallest index with a defined start, and none exactly when every start is negative |
| `OperationNodes.OperationNode.GetSourceSectionAtBci` | truffle/src/com.oracle.truffle.api.operation/src/com/oracle/truffle/api/operation/OperationNode.java:85-116 | none without source information or when the first bci already exceeds the query; otherwise entry i-1, where i is the first index with a greater bci, and none when that entry's source index or start is negative |
| `OperationNodes.OperationNode.CreateLocationNode` | truffle/src/com.oracle.truffle.api.operation/src/com/oracle/truffle/api/operation/OperationNode.java:140-141 | a new node bound to this operation node and the given bci |
| `OperationNodes.LocationNode.GetSourceSection` | truffle/src/com.oracle.truffle.api.operation/src/com/oracle/truffle/api/operation/OperationNode.java:142-145 | the section at its bci, from the operation node's source information at the time of the call |
| `OperationNodes.LocationNode.GetEncapsulatingSourceSection` | truffle/src/com.oracle.truffle.api.operation/src/com/oracle/truffle/api/operation/OperationNode.java:147-150 | the same section at its bci |

## Left out

- `slowPathMonitorEnter` and `slowPathMonitorExit` (stack yellow-zone handling, the VM-operation check, turning unexpected exceptions into fatal errors) are runtime plumbing and are not modelled.
- Blocking is not modelled. A monitorenter on a monitor owned by another thread returns `MustWait` with the monitor unchanged, instead of parking. A lookup of an object on the map route is a step of the caller only while the map lock is free or held by the caller (`LookupEnabled`); waiting for the map lock while another thread holds it is concurrency. The in-object route never touches the map lock, so a lookup of an object with a slot is allowed whoever holds it.
- The await and signal themselves, wakeups, spurious wakeups and `InterruptedException` are not modelled. `DoWait` and `Notify` report which await or signal would be performed.
- The monitor internals are not part of this model. Enter, exit, relock and the condition object are assumed to behave like a reentrant lock. `Relock` adds one entry for the committing thread.
- `JavaMonitors.JavaMonitor.Relock`: when another thread owns the monitor at relock time, the model gives it to the committing thread with a count of 1. What the real monitor does in that case is not part of this model.
- The weak keys of `additionalMonitors`, with eviction driven by the garbage collector, are not modelled: entries are never removed.
- True parallel atomicity of the compare-and-set is not modelled. `lostRace` stands for the one interleaving that matters: another thread installs between the read and the compare-and-set.
- The registry's reflective static initialiser is not modelled. Only its resulting set, as a function of the JDK version, is. Its `Class.forName` failure path is left out. The layout is assumed to give every registered type a slot (`Layout.WellFormed`).
- Out-of-memory errors during monitor or condition allocation are left out.
- Thread status codes are an enumeration, because their integer values are not part of this model.
- The 32-bit `int` and 64-bit `long` parameters are modelled as unbounded integers. The code only compares them, except for the index `i - 1` with `i >= 1`, so no overflow arises.
- `nodes.ensureSources()` and `Source.createSection` are external. A section is the triple (source index, start, length). An out-of-range source index, or a section outside its source, would raise an error there; that is not modelled.
- `OperationNodes.OperationNode.ChangeBytecode`: `insert(node)` also adopts the new bytecode node as a child in the node tree; the node tree is not part of this model, so only the field update is.
- The other `OperationNode` members (`createFrameDescriptor`, `execute`, `getMetadata`, `setMetadataAccessor`, `isBytecodeInstrumented`, `dump`) only delegate to the bytecode node, whose contents are not part of this model.
- The Java `assert`s in the `SourceInfo` constructor and in `setSourceInfo` are modelled as preconditions.
