/** Absent values and abrupt completion. */
module Optional {

  /** A value that may be missing: `null`/`undefined` in the source. */
  datatype Option<T> = None | Some(value: T)

  /** How an evaluation ends: with a value, or by throwing a TypeError
      (the only exception the modelled code can raise on its own). */
  datatype Completion<T> = Normal(value: T) | TypeError
}
