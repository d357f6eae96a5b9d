/** `qptr_apply_or` / `qptr_apply`: applying a function through a guarded (`QPointer`) pointer.
  * A pointer is an `Option`: `None` is a null (or already destroyed) object. A side-effecting
  * `func` is modelled as a state transformer. */
module Helpers {
  import opened Common

  /** The three-argument `qptr_apply_or`: `func(ptr)`, or the supplied default on a null
    * pointer. The two-argument form is this one with the result type's value-initialised
    * default (`0`, `false`, an empty string, a null pointer) as `dflt`. */
  function ApplyOr<T, R>(ptr: Option<T>, func: T -> R, dflt: R): (r: R)
    ensures ptr.Some? ==> r == func(ptr.value)
    ensures ptr.None? ==> r == dflt
  {
    if ptr.Some? then func(ptr.value) else dflt
  }

  /** `qptr_apply`: runs `func` on the pointee iff the guarded pointer is non-null. */
  function Apply<T, S>(ptr: Option<T>, func: (T, S) -> S, state: S): (r: S)
    ensures ptr.Some? ==> r == func(ptr.value, state)
    ensures ptr.None? ==> r == state
  {
    if ptr.Some? then func(ptr.value, state) else state
  }

  /** On a null pointer the result of either helper does not depend on `func`. */
  lemma NullIgnoresFunc<T, R, S>(f: T -> R, g: T -> R, dflt: R, h: (T, S) -> S, k: (T, S) -> S, s: S)
    ensures ApplyOr(None, f, dflt) == ApplyOr(None, g, dflt) == dflt
    ensures Apply(None, h, s) == Apply(None, k, s) == s
  {
  }

  /** `qptr_apply` is `qptr_apply_or` with the unchanged state as default. */
  lemma ApplyIsApplyOr<T, S>(ptr: Option<T>, func: (T, S) -> S, state: S)
    ensures Apply(ptr, func, state) == ApplyOr(ptr, (p: T) => func(p, state), state)
  {
  }
}
