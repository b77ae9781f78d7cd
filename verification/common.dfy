/** Values shared by the modules of the model. */
module Common {

  /** A value that may be missing: JavaScript's `null` / `undefined` where the source tests for it. */
  datatype Option<+T> = None | Some(value: T)

  /** `suffix` is a (not necessarily proper) suffix of `s`. */
  predicate IsSuffix<T(==)>(suffix: seq<T>, s: seq<T>)
  {
    |suffix| <= |s| && suffix == s[|s| - |suffix|..]
  }
}
