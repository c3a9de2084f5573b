# critical-section: the acquire/release state machine in Dafny

This project models the core of the `critical-section` crate: one global
critical section, entered with `acquire` and left with `release`, plus the
scoped `with`. Each build binds one provider. The model covers the providers
in `src/lib.rs` and the hosted provider in `src/std.rs`, each as a state
machine driven by one thread at a time.

- `src/lib.rs` uses a `u8` restore token, modelled as `bv8`. Its providers are:
  - Cortex-M and RISC-V, which save and clear an interrupt-enable bit;
  - AVR, which saves SREG and clears its I flag;
  - the hosted (unix/windows/wasm) provider. On the first call it installs a
    mutex (`INIT`, `GLOBAL_LOCK`). It stores the mutex guard in
    `GLOBAL_GUARD` and keeps a per-thread `IS_LOCKED` flag. The token is 1 for
    the outermost acquire and 0 for a nested one.
- `src/std.rs` is a hosted provider for the `bool` token of the `Impl`
  interface. It has a static mutex and a `MaybeUninit` guard slot. Its
  encoding is the opposite one: `false` for outermost, `true` for nested.

Files and modules:

- `base.dfy` (`Base`): `Option`, `ThreadId`, and `Section`. A `Section` is the
  tree shape of properly nested acquire/release pairs.
- `sync.dfy` (`Sync`): the `Mutex` class and the `Guard` value. The mutex
  keeps ghost counts of how often it was locked and unlocked.
- `hosted.dfy` (`Hosted`): the abstract state `Host` shared by both hosted
  providers, with its invariant `Consistent` and the outermost
  enter/leave transitions.
- `providers.dfy` (`Providers`): the four `src/lib.rs` providers. Each has
  pure step functions over the abstract `Machine`. The class `Platform` holds
  the registers and statics, and its methods are proved against those step
  functions.
- `protocol.dfy` (`Protocol`): `acquire`, `release`, `with`, and the
  nesting functions `SectionState` and `BodyState`.
- `std_provider.dfy` (`StdProvider`): the `src/std.rs` provider, as pure steps
  plus the class `StdCriticalSection`.

Waiting on the mutex is not modelled. An outermost acquire instead requires
the mutex to be free (`MayEnter`, `CanAcquire`). The safety contract of
`src/lib.rs:16-22` becomes two things. First, on the hosted provider,
`release` requires the critical section to be held by the calling thread
(`CanRelease`); the bare-metal releases are modelled for any state, since
their state does not record who holds the critical section. Second,
"properly nested" is the `Section` tree shape.

`with` (src/lib.rs:52-58) has no unwind guard, and both hosted providers
call `lock().unwrap()` (src/lib.rs:176, src/std.rs:30), which panics on a
poisoned mutex; neither path is modelled.

## Model

| member | source | states |
|---|---|---|
| `Sync.Mutex.constructor` | src/lib.rs:170 | `Mutex::new(())` is a free mutex that has never been locked |
| `Sync.Mutex.Lock` | src/lib.rs:176 | locking a free mutex makes the caller its holder, counts one lock, and returns the caller's guard |
| `Sync.Mutex.Unlock` | src/lib.rs:189 | dropping the guard of a held mutex frees it and counts one unlock |
| `Hosted.EnterOuter` | src/std.rs:27-31 | the outermost acquire sets the caller's flag, makes it the mutex holder, stores its guard, and counts one lock |
| `Hosted.LeaveOuter` | src/std.rs:41-46 | the outermost release empties the guard slot, unlocking the mutex (one more unlock) when the slot was filled, and clears the caller's flag |
| `Hosted.AtMostOneInside` | src/lib.rs:174-183 | between calls, at most one thread has its `IS_LOCKED` flag set |
| `Hosted.OthersMustWait` | src/lib.rs:176 | while one thread is inside, any other thread's acquire would have to wait for the mutex |
| `Hosted.FlagMeansGuardHeld` | src/std.rs:7-8 | between calls, a thread's flag is set iff the guard slot holds that thread's guard and the thread holds the mutex |
| `Hosted.EnterOuterHolds` | src/lib.rs:175-179 | the outermost acquire leaves the caller as the only flagged thread, holding the mutex, with one more lock, and keeps the invariant |
| `Hosted.LeaveOuterFrees` | src/lib.rs:187-193 | the outermost release by the holder frees the mutex, clears every flag, counts one unlock, and keeps the invariant |
| `Hosted.EnterLeaveRoundTrip` | src/lib.rs:174-193 | an outermost acquire then release restores the state, except that the lock and unlock counts each grow by one |
| `Providers.IrqAcquire` | src/lib.rs:111-115 | Cortex-M/RISC-V acquire leaves interrupts disabled and returns 0 or 1, non-zero iff interrupts were enabled |
| `Providers.IrqPairRestores` | src/lib.rs:117-122 | a release (enable iff token != 0) with the token of the preceding acquire restores the interrupt-enable bit |
| `Providers.IrqRelease` | src/lib.rs:117-122 | Cortex-M/RISC-V release leaves interrupts enabled iff the token is non-zero or they already were |
| `Providers.AvrAcquire` | src/lib.rs:125-134 | AVR acquire returns the whole SREG and clears the I flag (bit 7) and no other bit |
| `Providers.AvrRelease` | src/lib.rs:136-141 | AVR release sets the I flag iff bit 7 of the token is set (or it was already set) and leaves every other SREG bit alone |
| `Providers.AvrPairRestores` | src/lib.rs:136-141 | a release (`sei` iff token bit 7 is set) with the token of the preceding acquire restores SREG |
| `Providers.HostedAcquire` | src/lib.rs:174-183 | the token is 1 iff the flag was clear, else 0. With the flag set nothing changes. With the flag clear the caller holds the mutex, the guard is stored and the flag set. The invariant is kept |
| `Providers.HostedRelease` | src/lib.rs:187-194 | token 1 empties the guard slot (unlocking the mutex if it was filled) and clears the caller's flag; any other token changes nothing; the invariant is kept when the caller was inside |
| `Providers.AcquireStep` | src/lib.rs:110-184 | whichever provider is bound, acquire leaves the caller inside and keeps the invariant; from inside it changes nothing; hosted, the lock is installed afterwards |
| `Providers.ReleaseStep` | src/lib.rs:117-194 | release keeps the provider and the installed lock, and keeps the invariant when the caller holds the critical section |
| `Providers.NestedPairIsNoOp` | src/lib.rs:13-14 | for a caller already inside, acquire changes nothing and its token makes release change nothing |
| `Providers.OuterPairRestores` | src/lib.rs:110-193 | an outermost acquire then release restores the interrupt state (bare metal); hosted, it installs the lock if needed and locks and unlocks the mutex once |
| `Providers.Platform.constructor` | src/lib.rs:161-165 | at start-up `INIT` has not run, there is no lock and no guard, and no flag is set |
| `Providers.Platform.ProviderAcquire` | src/lib.rs:167-184 | `_critical_section_acquire` of the bound target makes exactly the `AcquireStep` transition and returns its token; a lock installed earlier is never replaced; afterwards a hosted lock exists |
| `Providers.Platform.ProviderRelease` | src/lib.rs:186-194 | `_critical_section_release` of the bound target makes exactly the `ReleaseStep` transition and leaves the lock in place |
| `Protocol.SectionState` | src/lib.rs:13-22 | a properly nested acquire/release pair leaves the state unchanged when opened inside another. As the outermost pair it restores the state: the same interrupt state on bare metal; hosted, one lock and one unlock however deep the nesting |
| `Protocol.BodyState` | src/lib.rs:13-14 | any number of pairs opened one after another by a thread already inside change nothing |
| `Protocol.InterruptStateRestored` | src/lib.rs:110-155 | on Cortex-M, AVR and RISC-V, properly nested pairs restore the interrupt state that held before the outermost acquire |
| `Protocol.HostedOuterSectionLocksOnce` | src/lib.rs:174-193 | hosted, properly nested pairs from outside lock and unlock the mutex exactly once and end with the flag clear and the guard slot empty |
| `Protocol.TurnsState` | src/lib.rs:174-193 | threads that take turns, each running properly nested pairs from outside, always find the critical section free again. Bare metal ends where it began; hosted, the mutex is locked and unlocked exactly once per turn |
| `Protocol.ThreeNestedWithsLockOnce` | src/lib.rs:49-50 | three nested `with` calls on a fresh process install the lock once and lock and unlock the mutex once |
| `Protocol.Acquire` | src/lib.rs:24-30 | `acquire` is the bound provider's acquire step |
| `Protocol.Release` | src/lib.rs:40-45 | `release` is the bound provider's release step with the token unchanged |
| `Protocol.With` | src/lib.rs:52-58 | `with` acquires, runs the closure's nested sections, releases with the token acquire returned, and returns the closure's result. Its state change is that of a properly nested pair |
| `Protocol.RunClosure` | src/lib.rs:55 | the closure's own `with` calls, made from inside, leave the provider state as it was |
| `StdProvider.StdAcquire` | src/std.rs:16-34 | returns `true` iff the flag was already set, and then changes nothing; otherwise the flag is set, the mutex held by the caller, the guard written, and `false` returned; the invariant is kept |
| `StdProvider.StdRelease` | src/std.rs:36-48 | `true` changes nothing. `false`, which requires an initialised slot, drops the guard (unlocking the mutex), leaves the slot uninitialised and clears the flag. The invariant is kept |
| `StdProvider.AcquireEncodingsOpposite` | src/std.rs:16-32 | the std.rs acquire makes the same transition as the lib.rs hosted acquire, with `true` exactly where lib.rs returns 0 and `false` where it returns 1 |
| `StdProvider.ReleaseEncodingsOpposite` | src/std.rs:36-47 | the std.rs release with `true`/`false` is the lib.rs hosted release with 0/1 |
| `StdProvider.SectionState` | src/std.rs:16-48 | properly nested pairs with `bool` tokens change nothing from inside, and from outside lock and unlock the mutex once and leave the flag clear and the slot uninitialised |
| `StdProvider.BodyState` | src/std.rs:18-22 | pairs opened one after another by a thread already inside change nothing |
| `StdProvider.StdCriticalSection.constructor` | src/std.rs:5-10 | at program start the mutex is free, the guard slot uninitialised and every flag clear |
| `StdProvider.StdCriticalSection.Acquire` | src/std.rs:16-34 | `acquire` makes exactly the `StdAcquire` transition and keeps the invariant |
| `StdProvider.StdCriticalSection.Release` | src/std.rs:36-48 | `release` by a thread holding the critical section makes exactly the `StdRelease` transition and keeps the invariant |

## Left out

- Waiting and mutual exclusion between running threads: `Mutex::lock` blocking and `Once::call_once` synchronisation are not modelled. An outermost acquire requires the mutex to be free. Threads act one call at a time.
- Poisoning and panics: `lock().unwrap()` panics on a poisoned mutex, and `with` has no unwind guard, so a panicking closure skips `release`. Neither path is modelled.
- Link-time binding is not modelled: the `extern "Rust"` declarations, `#[no_mangle]`, `custom_impl!`, `set_impl!` and `compile_error!`. The bound provider is the `Platform.target` constant. The `custom-impl` provider (src/lib.rs:62-108) has no behaviour of its own, because its body is supplied by the user.
- Register access is not modelled. `cortex_m::register::primask`, `riscv::register::mstatus` and the AVR inline assembly become a boolean or an SREG byte. On AVR, changes that the closure makes to other SREG bits are not modelled.
- `bare_metal::CriticalSection`, the value handed to the closure, carries no state and is left out. The closure is modelled by the `with` calls it makes and the value it returns. Any other computation inside it is not modelled.
- `thread_local!` and `Cell` are modelled as one boolean per thread: the set of thread ids whose flag is true.
- `Protocol.With`: the closure's result is fixed in advance rather than computed from the critical-section token. Inner `with` calls return `()`.
