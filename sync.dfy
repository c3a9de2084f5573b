/** The part of `std::sync::Mutex<()>` and `MutexGuard` the hosted providers use.
    Blocking is not modelled: `Lock` demands that the mutex be free, which is
    what a caller that does not wait observes. */
module Sync {
  import opened Base

  class Mutex {
    /** The thread that currently holds the mutex, if any. */
    var holder: Option<ThreadId>
    /** How often the mutex has been locked and unlocked since it was created. */
    ghost var locks: nat
    ghost var unlocks: nat

    /** `Mutex::new(())`: a free mutex. */
    constructor ()
      ensures holder == None && locks == 0 && unlocks == 0
    {
      holder := None;
      locks, unlocks := 0, 0;
    }

    /** `lock().unwrap()` on a mutex nobody holds: thread `t` becomes the holder. */
    method Lock(t: ThreadId) returns (g: Guard)
      requires holder == None
      modifies this
      ensures holder == Some(t) && g == Guard(this, t)
      ensures locks == old(locks) + 1 && unlocks == old(unlocks)
    {
      holder := Some(t);
      locks := locks + 1;
      g := Guard(this, t);
    }

    /** Dropping the guard of a held mutex releases it. */
    method Unlock()
      requires holder.Some?
      modifies this
      ensures holder == None
      ensures locks == old(locks) && unlocks == old(unlocks) + 1
    {
      holder := None;
      unlocks := unlocks + 1;
    }
  }

  /** A `MutexGuard<'static, ()>`: proof that `owner` locked `mutex`. */
  datatype Guard = Guard(mutex: Mutex, owner: ThreadId)
}
