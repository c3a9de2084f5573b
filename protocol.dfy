/** The public protocol of src/lib.rs:9-58: `acquire` and `release` forward to
    the provider bound at build time, and `with` brackets a closure between an
    `acquire` and the `release` of the token it returned. Nesting is handled by
    the provider, not here. */
module Protocol {
  import opened Base
  import opened Providers

  /** A closure passed to `with`, as far as the critical section can see it: the
      critical sections it opens itself, in order, and the value it returns. */
  datatype Closure<R> = Closure(sections: seq<Section>, result: R)

  /** The provider state after a properly nested acquire/release pair `sec`
      run by thread `t`: a pair opened inside another one changes nothing, and
      the outermost pair restores what held before it (hosted: with one lock
      and one unlock of the mutex, however deep the nesting). */
  function SectionState(m: Machine, t: ThreadId, sec: Section): (r: Machine)
    requires Sound(m) && CanAcquire(m, t)
    ensures r == if Inside(m, t) then m else AfterOuterPair(m)
    decreases sec, 1
  {
    var (m1, token) := AcquireStep(m, t);
    var m2 := BodyState(m1, t, sec.nested);
    if Inside(m, t) then
      NestedPairIsNoOp(m, t);
      ReleaseStep(m2, t, token)
    else
      OuterPairRestores(m, t);
      ReleaseStep(m2, t, token)
  }

  /** The provider state after the pairs `secs`, run one after the other by a
      thread that is already inside a critical section: unchanged. */
  function BodyState(m: Machine, t: ThreadId, secs: seq<Section>): (r: Machine)
    requires Sound(m) && Inside(m, t)
    ensures r == m
    decreases secs, 0
  {
    if secs == [] then m
    else
      NestedPairIsNoOp(m, t);
      BodyState(SectionState(m, t, secs[0]), t, secs[1..])
  }

  /** Nested pairs restore the interrupt state of a bare-metal target. */
  lemma InterruptStateRestored(m: Machine, t: ThreadId, sec: Section)
    requires !m.Process?
    ensures SectionState(m, t, sec) == m
  {
  }

  /** Hosted, a thread not yet inside locks and unlocks the mutex exactly once
      for any properly nested pairs, and ends with its flag clear and the
      guard slot empty. */
  lemma HostedOuterSectionLocksOnce(installed: bool, h: Hosted.Host, t: ThreadId, sec: Section)
    requires Sound(Process(installed, h)) && !(t in h.flagged) && h.holder == None
    ensures SectionState(Process(installed, h), t, sec).host.locks == h.locks + 1
    ensures SectionState(Process(installed, h), t, sec).host.unlocks == h.unlocks + 1
    ensures SectionState(Process(installed, h), t, sec).host.flagged == {}
    ensures SectionState(Process(installed, h), t, sec).host.guard == None
  {
  }

  /** Nobody holds the hosted provider's mutex; on bare metal, always true. */
  predicate Free(m: Machine) {
    m.Process? ==> m.host.holder == None
  }

  /** Threads taking turns, each running properly nested pairs from outside
      once the previous turn has finished: every turn finds the critical
      section free again, bare metal ends where it began, and the hosted
      mutex is locked and unlocked exactly once per turn. */
  function TurnsState(m: Machine, turns: seq<(ThreadId, Section)>): (r: Machine)
    requires Sound(m) && Free(m)
    ensures Sound(r) && Free(r)
    ensures !m.Process? ==> r == m
    ensures m.Process? ==> r.Process? && r.host == m.host.(locks := m.host.locks + |turns|, unlocks := m.host.unlocks + |turns|)
    decreases |turns|
  {
    if turns == [] then m else TurnsState(SectionState(m, turns[0].0, turns[0].1), turns[1..])
  }

  /** Three nested `with` calls by one thread on a freshly started hosted
      process: one lock installation, one lock and one unlock of the mutex. */
  lemma ThreeNestedWithsLockOnce(t: ThreadId)
    ensures SectionState(Process(false, Hosted.Idle), t, Section([Section([Section([])])]))
         == Process(true, Hosted.Idle.(locks := 1, unlocks := 1))
  {
  }

  /** `acquire` (src/lib.rs:24-30). */
  method Acquire(p: Platform, t: ThreadId) returns (token: bv8)
    requires p.Valid() && CanAcquire(p.State(), t)
    modifies p, p.Repr()
    ensures p.Valid() && fresh(p.Repr() - old(p.Repr()))
    ensures (p.State(), token) == AcquireStep(old(p.State()), t)
    ensures old(p.globalLock).Some? ==> p.globalLock == old(p.globalLock)
    ensures p.target != HostedOs ==> p.globalLock == old(p.globalLock)
  {
    token := p.ProviderAcquire(t);
  }

  /** `release` (src/lib.rs:40-45). */
  method Release(p: Platform, t: ThreadId, token: bv8)
    requires p.Valid() && CanRelease(p.State(), t)
    modifies p, p.Repr()
    ensures p.Valid() && p.Repr() == old(p.Repr()) && p.globalLock == old(p.globalLock)
    ensures p.State() == ReleaseStep(old(p.State()), t, token)
  {
    p.ProviderRelease(t, token);
  }

  /** `with` (src/lib.rs:52-58): acquire, run the closure, release with the
      token acquire returned, return the closure's result. */
  method With<R>(p: Platform, t: ThreadId, f: Closure<R>) returns (r: R)
    requires p.Valid() && CanAcquire(p.State(), t)
    modifies p, p.Repr()
    ensures p.Valid() && fresh(p.Repr() - old(p.Repr()))
    ensures p.State() == SectionState(old(p.State()), t, Section(f.sections))
    ensures old(p.globalLock).Some? ==> p.globalLock == old(p.globalLock)
    ensures p.target != HostedOs ==> p.globalLock == old(p.globalLock)
    ensures r == f.result
    decreases f.sections, 1
  {
    var token := Acquire(p, t);
    RunClosure(p, t, f.sections);
    r := f.result;
    Release(p, t, token);
  }

  /** The closure's body: the `with` calls it makes, one after the other, by a
      thread that is inside the critical section. */
  method RunClosure(p: Platform, t: ThreadId, sections: seq<Section>)
    requires p.Valid() && Inside(p.State(), t)
    modifies p, p.Repr()
    ensures p.Valid() && p.State() == old(p.State()) && p.globalLock == old(p.globalLock)
    decreases sections, 0
  {
    for i := 0 to |sections|
      invariant p.Valid() && p.State() == old(p.State()) && p.globalLock == old(p.globalLock)
    {
      var _ := With(p, t, Closure(sections[i].nested, ()));
    }
  }
}
