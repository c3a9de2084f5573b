/** The state shared by both hosted (std) reentrant providers, src/lib.rs:156-194
    and src/std.rs, and the two transitions they have in common: becoming and
    ceasing to be the outer holder of the critical section. The providers
    differ only in how they encode the token that tells `release` which of
    the two to do. */
module Hosted {
  import opened Base

  /** Abstract value of the provider's state between calls. */
  datatype Host = Host(
    holder: Option<ThreadId>,   // the thread holding the global mutex
    guard: Option<ThreadId>,    // GLOBAL_GUARD: filled, by the thread that locked, or empty
    flagged: set<ThreadId>,     // the threads whose IS_LOCKED flag is set
    locks: nat,                 // how often the global mutex has been locked
    unlocks: nat)               // how often it has been unlocked

  /** Nobody is in the critical section and the mutex has never been locked. */
  const Idle := Host(None, None, {}, 0, 0)

  /** The invariant that holds between calls: the guard slot is filled exactly
      when the mutex is held, by the holder's guard; the holder is the only
      thread whose flag is set; and the mutex has been locked once more than
      unlocked exactly while it is held. */
  predicate Consistent(s: Host) {
    && s.guard == s.holder
    && s.flagged == (if s.holder.Some? then {s.holder.value} else {})
    && s.locks == s.unlocks + (if s.holder.Some? then 1 else 0)
  }

  /** An acquire by `t` does not have to wait: either `t` is already inside
      (a nested acquire) or nobody holds the mutex. */
  predicate MayEnter(s: Host, t: ThreadId) {
    t in s.flagged || s.holder == None
  }

  /** The outermost acquire: set the flag, lock the mutex, store its guard. */
  function EnterOuter(s: Host, t: ThreadId): (r: Host)
    requires s.holder == None
    ensures r.holder == Some(t) && r.guard == Some(t)
    ensures r.flagged == s.flagged + {t}
    ensures r.locks == s.locks + 1 && r.unlocks == s.unlocks
  {
    Host(Some(t), Some(t), s.flagged + {t}, s.locks + 1, s.unlocks)
  }

  /** The outermost release: drop the stored guard, which unlocks the mutex
      if the slot was filled, and clear the flag. */
  function LeaveOuter(s: Host, t: ThreadId): (r: Host)
    ensures r.guard == None && r.flagged == s.flagged - {t} && r.locks == s.locks
    ensures s.guard.Some? ==> r.holder == None && r.unlocks == s.unlocks + 1
    ensures s.guard.None? ==> r.holder == s.holder && r.unlocks == s.unlocks
  {
    Host(if s.guard.Some? then None else s.holder,
         None,
         s.flagged - {t},
         s.locks,
         if s.guard.Some? then s.unlocks + 1 else s.unlocks)
  }

  /** At most one thread is ever inside the critical section. */
  lemma AtMostOneInside(s: Host, t1: ThreadId, t2: ThreadId)
    requires Consistent(s) && t1 in s.flagged && t2 in s.flagged
    ensures t1 == t2
  {
  }

  /** A thread other than the one inside cannot enter without waiting. */
  lemma OthersMustWait(s: Host, inside: ThreadId, other: ThreadId)
    requires Consistent(s) && inside in s.flagged && other != inside
    ensures !MayEnter(s, other)
  {
  }

  /** Between calls, a thread's flag is set exactly when the guard slot holds
      that thread's guard and the thread holds the mutex. */
  lemma FlagMeansGuardHeld(s: Host, t: ThreadId)
    requires Consistent(s)
    ensures t in s.flagged <==> s.guard == Some(t) && s.holder == Some(t)
  {
  }

  /** After the outermost acquire, `t` alone is inside and holds the mutex. */
  lemma EnterOuterHolds(s: Host, t: ThreadId)
    requires Consistent(s) && s.holder == None
    ensures Consistent(EnterOuter(s, t))
    ensures EnterOuter(s, t).flagged == {t} && EnterOuter(s, t).holder == Some(t)
    ensures EnterOuter(s, t).locks == s.locks + 1 && EnterOuter(s, t).unlocks == s.unlocks
  {
  }

  /** The outermost release by the holder frees the mutex and clears the flags. */
  lemma LeaveOuterFrees(s: Host, t: ThreadId)
    requires Consistent(s) && t in s.flagged
    ensures Consistent(LeaveOuter(s, t))
    ensures LeaveOuter(s, t).flagged == {} && LeaveOuter(s, t).holder == None
    ensures LeaveOuter(s, t).unlocks == s.unlocks + 1
  {
  }

  /** One outermost acquire/release pair leaves the state as it found it,
      except that the mutex has been locked once and unlocked once. */
  lemma EnterLeaveRoundTrip(s: Host, t: ThreadId)
    requires Consistent(s) && s.holder == None
    ensures LeaveOuter(EnterOuter(s, t), t) == s.(locks := s.locks + 1, unlocks := s.unlocks + 1)
  {
  }
}
