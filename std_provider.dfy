/** The hosted provider of src/std.rs, written against the `Impl` interface
    whose restore token is a `bool`: `false` for the outermost acquire and
    `true` for a nested one, the opposite sense of the `u8` token of the
    hosted provider in src/lib.rs. The mutex is a static that needs no
    installation, and the guard slot is a `MaybeUninit`, so releasing the
    outermost acquisition requires the slot to be initialised. */
module StdProvider {
  import opened Base
  import opened Hosted
  import opened Sync
  import Providers

  /** `StdCriticalSection::acquire`: a thread whose flag is set gets `true` and
      nothing changes; otherwise it sets its flag, locks the mutex, writes the
      guard into the slot and gets `false`. */
  function StdAcquire(s: Host, t: ThreadId): (r: (Host, bool))
    requires MayEnter(s, t)
    ensures r.1 <==> t in s.flagged
    ensures r.1 ==> r.0 == s
    ensures !r.1 ==> r.0.holder == Some(t) && r.0.guard == Some(t) && r.0.flagged == s.flagged + {t}
    ensures !r.1 ==> r.0.locks == s.locks + 1 && r.0.unlocks == s.unlocks
    ensures Consistent(s) ==> Consistent(r.0)
  {
    if t in s.flagged then (s, true) else (EnterOuter(s, t), false)
  }

  /** `StdCriticalSection::release`: `true` does nothing; `false` drops the
      guard in its slot, which unlocks the mutex, then clears the flag. */
  function StdRelease(s: Host, t: ThreadId, nested: bool): (r: Host)
    requires nested || s.guard.Some?
    ensures nested ==> r == s
    ensures !nested ==> r.guard == None && r.holder == None && r.flagged == s.flagged - {t}
    ensures !nested ==> r.locks == s.locks && r.unlocks == s.unlocks + 1
    ensures Consistent(s) && t in s.flagged ==> Consistent(r)
  {
    if nested then s else LeaveOuter(s, t)
  }

  /** The two hosted providers make the same transition on acquire, and encode
      it oppositely: `true` from std.rs exactly where lib.rs returns 0. */
  lemma AcquireEncodingsOpposite(s: Host, t: ThreadId)
    requires MayEnter(s, t)
    ensures StdAcquire(s, t).0 == Providers.HostedAcquire(s, t).0
    ensures StdAcquire(s, t).1 <==> Providers.HostedAcquire(s, t).1 == 0
    ensures !StdAcquire(s, t).1 <==> Providers.HostedAcquire(s, t).1 == 1
  {
  }

  /** Releasing with `nested` in std.rs is releasing with 0 (`true`) or
      1 (`false`) in lib.rs. */
  lemma ReleaseEncodingsOpposite(s: Host, t: ThreadId, nested: bool)
    requires nested || s.guard.Some?
    ensures StdRelease(s, t, nested) == Providers.HostedRelease(s, t, if nested then 0 else 1)
  {
  }

  // The std.rs provider is not a case of `Providers.Machine`: that type is the
  // choice among the providers of src/lib.rs, all with a `u8` token, that one
  // build of that version binds. std.rs belongs to the version whose token is
  // a `bool`, so its nesting functions are stated here over `Host` directly;
  // the two encoding lemmas above relate each of its steps to the lib.rs one.

  /** The state after a properly nested acquire/release pair `sec` run by
      thread `t`: a nested pair changes nothing; the outermost pair locks and
      unlocks the mutex once and leaves the flag clear and the slot empty. */
  function SectionState(s: Host, t: ThreadId, sec: Section): (r: Host)
    requires Consistent(s) && MayEnter(s, t)
    ensures r == if t in s.flagged then s else s.(locks := s.locks + 1, unlocks := s.unlocks + 1)
    decreases sec, 1
  {
    var (s1, nested) := StdAcquire(s, t);
    var s2 := BodyState(s1, t, sec.nested);
    if t in s.flagged then
      StdRelease(s2, t, nested)
    else
      EnterLeaveRoundTrip(s, t);
      StdRelease(s2, t, nested)
  }

  /** The state after the pairs `secs`, run in order by a thread already inside. */
  function BodyState(s: Host, t: ThreadId, secs: seq<Section>): (r: Host)
    requires Consistent(s) && t in s.flagged
    ensures r == s
    decreases secs, 0
  {
    if secs == [] then s else BodyState(SectionState(s, t, secs[0]), t, secs[1..])
  }

  /** The statics of src/std.rs and the thread-local flags. */
  class StdCriticalSection {
    const globalMutex: Mutex          // GLOBAL_MUTEX
    var globalGuard: Option<Guard>    // GLOBAL_GUARD: Some when initialised
    var isLocked: set<ThreadId>       // threads whose IS_LOCKED cell holds true

    ghost function State(): Host
      reads this, globalMutex
    {
      Host(globalMutex.holder,
           if globalGuard.Some? then Some(globalGuard.value.owner) else None,
           isLocked, globalMutex.locks, globalMutex.unlocks)
    }

    ghost predicate Valid()
      reads this, globalMutex
    {
      && (globalGuard.Some? ==> globalGuard.value.mutex == globalMutex)
      && Consistent(State())
    }

    /** Program start: a free mutex, an uninitialised slot, every flag clear. */
    constructor ()
      ensures Valid() && State() == Idle && fresh(globalMutex)
    {
      globalMutex := new Mutex();
      globalGuard := None;
      isLocked := {};
    }

    /** `acquire` (src/std.rs:16-34). */
    method Acquire(t: ThreadId) returns (nested: bool)
      requires Valid() && MayEnter(State(), t)
      modifies this, globalMutex
      ensures Valid() && (State(), nested) == StdAcquire(old(State()), t)
    {
      if t in isLocked {
        return true;
      }
      isLocked := isLocked + {t};
      var guard := globalMutex.Lock(t);
      globalGuard := Some(guard);
      nested := false;
    }

    /** `release` (src/std.rs:36-48). */
    method Release(t: ThreadId, nested: bool)
      requires Valid() && t in State().flagged
      modifies this, globalMutex
      ensures Valid() && State() == StdRelease(old(State()), t, nested)
    {
      if !nested {
        globalGuard.value.mutex.Unlock();
        globalGuard := None;
        isLocked := isLocked - {t};
      }
    }
  }
}
