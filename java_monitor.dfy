/**
 * The state of one monitor, as the monitor support sees it: the owning thread, how many times
 * the owner has entered it, and whether its wait/notify condition object has been created.
 * The monitor behaves as a reentrant lock.
 */
module JavaMonitors {
  import opened Wrappers

  type ThreadId = nat

  datatype JavaMonitor = JavaMonitor(owner: Option<ThreadId>, recursions: nat, hasCondition: bool) {

    /** A monitor is owned exactly when it has been entered and not yet fully exited. */
    ghost predicate Valid() {
      owner.Some? <==> recursions > 0
    }

    predicate IsHeldBy(t: ThreadId) {
      owner == Some(t)
    }

    predicate IsLocked() {
      owner.Some?
    }

    /** `t` can enter without blocking: the monitor is free or `t` already owns it. */
    predicate CanEnter(t: ThreadId) {
      owner.None? || owner == Some(t)
    }

    /** One more (possibly recursive) entry by `t`. */
    function Enter(t: ThreadId): (m: JavaMonitor)
      requires CanEnter(t)
      ensures m.Valid() && m.IsHeldBy(t)
    {
      JavaMonitor(Some(t), recursions + 1, hasCondition)
    }

    /** One exit by the owner `t`; the last one releases the monitor. */
    function Exit(t: ThreadId): (m: JavaMonitor)
      requires Valid() && IsHeldBy(t)
      ensures m.Valid()
      ensures m.IsLocked() ==> m.IsHeldBy(t)
    {
      if recursions == 1 then JavaMonitor(None, 0, hasCondition)
      else JavaMonitor(owner, recursions - 1, hasCondition)
    }

    /**
     * Re-establishes, during deoptimization, one entry of the monitor by the committing thread
     * `t` without a blocking acquisition.
     */
    function Relock(t: ThreadId): (m: JavaMonitor)
      ensures m.Valid()
      ensures m.IsHeldBy(t)
      ensures forall u :: u != t ==> !m.IsHeldBy(u)
    {
      JavaMonitor(Some(t), (if owner == Some(t) then recursions else 0) + 1, hasCondition)
    }

    /** Obtains the condition object, creating it when `create` holds. */
    function GetOrCreateCondition(create: bool): (m: JavaMonitor)
      ensures m.owner == owner && m.recursions == recursions
      ensures m.hasCondition == (hasCondition || create)
      ensures Valid() ==> m.Valid()
    {
      JavaMonitor(owner, recursions, hasCondition || create)
    }
  }

  /** The state of a freshly allocated monitor. */
  const NewMonitor := JavaMonitor(None, 0, false)

  /** `k` consecutive entries by `t` add `k` to the recursion count. */
  function EnterTimes(m: JavaMonitor, t: ThreadId, k: nat): (r: JavaMonitor)
    requires m.Valid() && m.CanEnter(t)
    ensures r.Valid()
    ensures r.recursions == m.recursions + k
    ensures r.hasCondition == m.hasCondition
    ensures k > 0 ==> r.IsHeldBy(t)
    ensures k == 0 ==> r == m
    decreases k
  {
    if k == 0 then m else EnterTimes(m.Enter(t), t, k - 1)
  }

  /** `j` consecutive exits by `t` take `j` off the count; the owner keeps the monitor until it is 0. */
  function ExitTimes(m: JavaMonitor, t: ThreadId, j: nat): (r: JavaMonitor)
    requires m.Valid() && j <= m.recursions && (j > 0 ==> m.IsHeldBy(t))
    ensures r.Valid()
    ensures r.recursions == m.recursions - j
    ensures r.hasCondition == m.hasCondition
    ensures r.IsLocked() ==> r.owner == m.owner
    decreases j
  {
    if j == 0 then m else ExitTimes(m.Exit(t), t, j - 1)
  }

  /**
   * A thread that enters a monitor `k` times must exit it `k` times before any other thread can
   * enter it, and after the `k` exits the monitor is exactly as it was before the entries.
   */
  lemma ReentrantRoundTrip(m: JavaMonitor, t: ThreadId, u: ThreadId, k: nat, j: nat)
    requires m.Valid() && m.CanEnter(t) && t != u && 0 < k && j <= k
    ensures EnterTimes(m, t, k).recursions == m.recursions + k
    ensures j < k ==> !ExitTimes(EnterTimes(m, t, k), t, j).CanEnter(u)
    ensures ExitTimes(EnterTimes(m, t, k), t, k) == m
  {
  }
}
