/** Failure-compatible wrappers shared by every module. */
module Basics {

  datatype Option<+T> = None | Some(value: T)

  /**
   * The outcome of running a piece of the host runtime. `Crashed` means that the
   * process stopped inside the call: whatever reached the disk or the host before
   * that point stays, and nothing after it happens. `:-` propagates a crash.
   */
  datatype Run<+T> = Finished(value: T) | Crashed {
    predicate IsFailure() {
      Crashed?
    }

    function PropagateFailure<U>(): Run<U>
      requires Crashed?
    {
      Crashed
    }

    function Extract(): T
      requires Finished?
    {
      value
    }
  }

  const MAX_INT64: int := 0x7fff_ffff_ffff_ffff
  const MIN_INT64: int := -0x8000_0000_0000_0000

  type Int64 = n: int | MIN_INT64 <= n <= MAX_INT64

  /** The source's `n + 1` on an int64, which wraps around. */
  function Increment(n: Int64): Int64 {
    if n == MAX_INT64 then MIN_INT64 else n + 1
  }

  /** Always true. As a trigger it keeps an invariant folded until a proof asks for it. */
  predicate Look(k: int) {
    true
  }
}
