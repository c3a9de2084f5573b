/** Shared vocabulary of the critical-section model. */
module Base {

  /** An optional value, as Rust's `Option`. */
  datatype Option<+T> = None | Some(value: T)

  /** Identifies a thread of execution; `thread_local!` state is kept per `ThreadId`. */
  type ThreadId = nat

  /** The shape of a properly nested acquire/release pair on one thread: the
      pair's `acquire`, then the pairs opened inside it, in order, then its
      `release` with the token the `acquire` returned. Improper nesting such as
      `a = acquire(); b = acquire(); release(a); release(b)` has no such shape. */
  datatype Section = Section(nested: seq<Section>)
}
