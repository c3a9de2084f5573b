/** The four providers of `_critical_section_acquire` / `_critical_section_release`
    in src/lib.rs:109-194, of which the build binds exactly one. All of them
    use a `u8` restore token, modelled as `bv8`.

    - Cortex-M and RISC-V: the token is the interrupt-enable bit read before
      interrupts are disabled; release re-enables iff the token is non-zero.
    - AVR: the token is the whole status register SREG read before `cli`;
      release executes `sei` iff bit 7 (the I flag) of the token is set.
    - Hosted (unix, windows, wasm): a lazily installed global mutex, a slot for
      its guard and a per-thread flag; the token is 1 for the outermost
      acquire and 0 for a nested one. */
module Providers {
  import opened Base
  import opened Hosted
  import opened Sync

  /** The target the build was configured for; it selects the provider. */
  datatype Target = CortexM | Avr | RiscV32 | HostedOs

  /** Bit 7 of the AVR status register: global interrupt enable. */
  const I_FLAG: bv8 := 0x80

  /** Abstract value of the state the bound provider works on. */
  datatype Machine =
    | CortexMRegs(primaskActive: bool)        // PRIMASK "active": interrupts enabled
    | AvrRegs(sreg: bv8)                      // the AVR status register
    | RiscVRegs(mie: bool)                    // mstatus.MIE: machine interrupts enabled
    | Process(lockInstalled: bool, host: Host) // GLOBAL_LOCK installed; the reentrant state

  predicate SameTarget(m: Machine, m': Machine) {
    match m
    case CortexMRegs(_) => m'.CortexMRegs?
    case AvrRegs(_) => m'.AvrRegs?
    case RiscVRegs(_) => m'.RiscVRegs?
    case Process(_, _) => m'.Process?
  }

  /** What holds between calls. Only the hosted provider has an invariant:
      its reentrant state is consistent, and before the lock is installed
      nobody has entered. */
  predicate Sound(m: Machine) {
    m.Process? ==> Consistent(m.host) && (!m.lockInstalled ==> m.host == Idle)
  }

  /** An acquire by `t` would not block. Only the hosted provider can block:
      when another thread holds the mutex. */
  predicate CanAcquire(m: Machine, t: ThreadId) {
    m.Process? ==> MayEnter(m.host, t)
  }

  /** The safety contract of `release`: the critical section is acquired in the
      current thread. Only the hosted provider records that. */
  predicate CanRelease(m: Machine, t: ThreadId) {
    m.Process? ==> t in m.host.flagged
  }

  /** `t` is inside a critical section: interrupts are masked, or, hosted,
      the thread's flag is set. */
  predicate Inside(m: Machine, t: ThreadId) {
    match m
    case CortexMRegs(active) => !active
    case AvrRegs(sreg) => sreg & I_FLAG == 0
    case RiscVRegs(mie) => !mie
    case Process(_, host) => t in host.flagged
  }

  /** Cortex-M (PRIMASK) and RISC-V (mstatus.MIE) acquire: read whether
      interrupts are enabled, disable them, return what was read as 0 or 1. */
  function IrqAcquire(enabled: bool): (r: (bool, bv8))
    ensures !r.0
    ensures r.1 == 0 || r.1 == 1
    ensures r.1 != 0 <==> enabled
  {
    (false, if enabled then 1 else 0)
  }

  /** Cortex-M and RISC-V release: enable interrupts iff the token is non-zero. */
  function IrqRelease(enabled: bool, token: bv8): (r: bool)
    ensures r <==> token != 0 || enabled
  {
    if token != 0 then true else enabled
  }

  /** AVR acquire: read SREG, then `cli`, which clears the I flag and no other bit. */
  function AvrAcquire(sreg: bv8): (r: (bv8, bv8))
    ensures r.1 == sreg
    ensures r.0 & I_FLAG == 0
    ensures r.0 | I_FLAG == sreg | I_FLAG
  {
    (sreg & 0x7F, sreg)
  }

  /** AVR release: `sei` iff the I flag is set in the token. */
  function AvrRelease(sreg: bv8, token: bv8): (r: bv8)
    ensures r & 0x7F == sreg & 0x7F
    ensures r & I_FLAG == I_FLAG <==> token & I_FLAG == I_FLAG || sreg & I_FLAG == I_FLAG
  {
    if token & I_FLAG == I_FLAG then sreg | I_FLAG else sreg
  }

  /** Cortex-M and RISC-V: a release with the token of the acquire before it
      restores the interrupt-enable bit that acquire found. */
  lemma IrqPairRestores(enabled: bool)
    ensures IrqRelease(IrqAcquire(enabled).0, IrqAcquire(enabled).1) == enabled
  {
  }

  /** AVR: a release with the token of the acquire before it restores SREG
      as acquire found it. */
  lemma AvrPairRestores(sreg: bv8)
    ensures AvrRelease(AvrAcquire(sreg).0, AvrAcquire(sreg).1) == sreg
  {
  }

  /** Hosted acquire, once the lock is installed: a thread whose flag is clear
      locks the mutex, stores the guard, sets its flag and gets 1; a thread
      whose flag is set gets 0 and nothing changes. */
  function HostedAcquire(h: Host, t: ThreadId): (r: (Host, bv8))
    requires MayEnter(h, t)
    ensures r.1 == 1 <==> t !in h.flagged
    ensures r.1 == 0 <==> t in h.flagged
    ensures t in h.flagged ==> r.0 == h
    ensures t !in h.flagged ==> r.0.holder == Some(t) && r.0.guard == Some(t) && r.0.flagged == h.flagged + {t}
    ensures t !in h.flagged ==> r.0.locks == h.locks + 1 && r.0.unlocks == h.unlocks
    ensures Consistent(h) ==> Consistent(r.0)
  {
    if !(t in h.flagged) then (EnterOuter(h, t), 1) else (h, 0)
  }

  /** Hosted release: token 1 takes the guard out of its slot, which unlocks
      the mutex, and clears the flag; any other token changes nothing. */
  function HostedRelease(h: Host, t: ThreadId, token: bv8): (r: Host)
    ensures token != 1 ==> r == h
    ensures token == 1 ==> r.guard == None && r.flagged == h.flagged - {t} && r.locks == h.locks
    ensures token == 1 && h.guard.Some? ==> r.holder == None && r.unlocks == h.unlocks + 1
    ensures token == 1 && h.guard.None? ==> r.holder == h.holder && r.unlocks == h.unlocks
    ensures Consistent(h) && t in h.flagged ==> Consistent(r)
  {
    if token == 1 then LeaveOuter(h, t) else h
  }

  /** `_critical_section_acquire` of the bound provider. The hosted one first
      installs the global lock if no earlier call has. */
  function AcquireStep(m: Machine, t: ThreadId): (r: (Machine, bv8))
    requires CanAcquire(m, t)
    ensures SameTarget(m, r.0) && Inside(r.0, t)
    ensures Sound(m) ==> Sound(r.0)
    ensures Sound(m) && Inside(m, t) ==> r.0 == m
    ensures r.0.Process? ==> r.0.lockInstalled
  {
    match m
    case CortexMRegs(active) =>
      var (active', token) := IrqAcquire(active); (CortexMRegs(active'), token)
    case AvrRegs(sreg) =>
      var (sreg', token) := AvrAcquire(sreg); (AvrRegs(sreg'), token)
    case RiscVRegs(mie) =>
      var (mie', token) := IrqAcquire(mie); (RiscVRegs(mie'), token)
    case Process(_, host) =>
      var (host', token) := HostedAcquire(host, t); (Process(true, host'), token)
  }

  /** `_critical_section_release` of the bound provider. */
  function ReleaseStep(m: Machine, t: ThreadId, token: bv8): (r: Machine)
    ensures SameTarget(m, r)
    ensures m.Process? ==> r.lockInstalled == m.lockInstalled
    ensures Sound(m) && CanRelease(m, t) ==> Sound(r)
  {
    match m
    case CortexMRegs(active) => CortexMRegs(IrqRelease(active, token))
    case AvrRegs(sreg) => AvrRegs(AvrRelease(sreg, token))
    case RiscVRegs(mie) => RiscVRegs(IrqRelease(mie, token))
    case Process(installed, host) => Process(installed, HostedRelease(host, t, token))
  }

  /** The state after one outermost acquire/release pair: the same as before
      it, except that the hosted provider's lock is installed and has been
      locked and unlocked once more. */
  function AfterOuterPair(m: Machine): Machine {
    match m
    case Process(_, h) => Process(true, h.(locks := h.locks + 1, unlocks := h.unlocks + 1))
    case _ => m
  }

  /** A nested acquire changes nothing and returns a token with which
      release changes nothing either. */
  lemma NestedPairIsNoOp(m: Machine, t: ThreadId)
    requires Sound(m) && Inside(m, t)
    ensures CanAcquire(m, t)
    ensures AcquireStep(m, t).0 == m
    ensures ReleaseStep(m, t, AcquireStep(m, t).1) == m
  {
  }

  /** An outermost acquire followed by its release restores the interrupt
      state that held before it; hosted, it locks and unlocks the mutex once. */
  lemma OuterPairRestores(m: Machine, t: ThreadId)
    requires Sound(m) && CanAcquire(m, t) && !Inside(m, t)
    ensures CanRelease(AcquireStep(m, t).0, t)
    ensures ReleaseStep(AcquireStep(m, t).0, t, AcquireStep(m, t).1) == AfterOuterPair(m)
  {
    match m
    case CortexMRegs(active) => IrqPairRestores(active);
    case AvrRegs(sreg) => AvrPairRestores(sreg);
    case RiscVRegs(mie) => IrqPairRestores(mie);
    case Process(_, h) =>
      EnterLeaveRoundTrip(h, t);
  }

  /** The state `_critical_section_acquire` and `_critical_section_release`
      work on, for the target fixed at build time: the interrupt-enable bit
      (Cortex-M, RISC-V), SREG (AVR), or the statics `INIT`, `GLOBAL_LOCK`,
      `GLOBAL_GUARD` and the thread-local `IS_LOCKED` flags (hosted). */
  class Platform {
    const target: Target
    var interruptsEnabled: bool
    var sreg: bv8
    var initDone: bool               // INIT has run its closure
    var globalLock: Option<Mutex>    // GLOBAL_LOCK
    var globalGuard: Option<Guard>   // GLOBAL_GUARD
    var isLocked: set<ThreadId>      // threads whose IS_LOCKED cell holds true

    /** The objects besides `this` that the provider may change: the installed mutex. */
    ghost function Repr(): set<object>
      reads this
    {
      if globalLock.Some? then {globalLock.value} else {}
    }

    ghost function HostView(): Host
      reads this, Repr()
    {
      Host(if globalLock.Some? then globalLock.value.holder else None,
           if globalGuard.Some? then Some(globalGuard.value.owner) else None,
           isLocked,
           if globalLock.Some? then globalLock.value.locks else 0,
           if globalLock.Some? then globalLock.value.unlocks else 0)
    }

    ghost function State(): Machine
      reads this, Repr()
    {
      match target
      case CortexM => CortexMRegs(interruptsEnabled)
      case Avr => AvrRegs(sreg)
      case RiscV32 => RiscVRegs(interruptsEnabled)
      case HostedOs => Process(initDone, HostView())
    }

    ghost predicate Valid()
      reads this, Repr()
    {
      && (initDone <==> globalLock.Some?)
      && (globalGuard.Some? ==> globalLock.Some? && globalGuard.value.mutex == globalLock.value)
      && Sound(Process(initDone, HostView()))
    }

    /** The state at start-up: `INIT` not run, no lock, no guard, no flag set. */
    constructor (target: Target, interruptsEnabled: bool, sreg: bv8)
      ensures Valid() && Repr() == {}
      ensures this.target == target && this.interruptsEnabled == interruptsEnabled && this.sreg == sreg
      ensures HostView() == Idle && !initDone
    {
      this.target := target;
      this.interruptsEnabled := interruptsEnabled;
      this.sreg := sreg;
      initDone := false;
      globalLock := None;
      globalGuard := None;
      isLocked := {};
    }

    /** `_critical_section_acquire` (src/lib.rs:110-115, 124-134, 143-148, 167-184). */
    method ProviderAcquire(t: ThreadId) returns (token: bv8)
      requires Valid() && CanAcquire(State(), t)
      modifies this, Repr()
      ensures Valid() && fresh(Repr() - old(Repr()))
      ensures (State(), token) == AcquireStep(old(State()), t)
      ensures old(globalLock).Some? ==> globalLock == old(globalLock)
      ensures target != HostedOs ==> globalLock == old(globalLock)
      ensures target == HostedOs ==> initDone && globalLock.Some?
    {
      match target
      case CortexM =>
        token := if interruptsEnabled then 1 else 0;
        interruptsEnabled := false;
      case RiscV32 =>
        token := if interruptsEnabled then 1 else 0;
        interruptsEnabled := false;
      case Avr =>
        token := sreg;
        sreg := sreg & 0x7F;
      case HostedOs =>
        if !initDone {
          var lock := new Mutex();
          globalLock := Some(lock);
          initDone := true;
        }
        if !(t in isLocked) {
          var guard := globalLock.value.Lock(t);
          globalGuard := Some(guard);
          isLocked := isLocked + {t};
          token := 1;
        } else {
          token := 0;
        }
    }

    /** `_critical_section_release` (src/lib.rs:117-122, 136-141, 150-155, 186-194). */
    method ProviderRelease(t: ThreadId, token: bv8)
      requires Valid() && CanRelease(State(), t)
      modifies this, Repr()
      ensures Valid() && Repr() == old(Repr()) && globalLock == old(globalLock)
      ensures State() == ReleaseStep(old(State()), t, token)
    {
      match target
      case CortexM =>
        if token != 0 { interruptsEnabled := true; }
      case RiscV32 =>
        if token != 0 { interruptsEnabled := true; }
      case Avr =>
        if token & I_FLAG == I_FLAG { sreg := sreg | I_FLAG; }
      case HostedOs =>
        if token == 1 {
          if globalGuard.Some? {
            globalGuard.value.mutex.Unlock();
          }
          globalGuard := None;
          isLocked := isLocked - {t};
        }
    }
  }
}
