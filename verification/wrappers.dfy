/** Small failure-carrying datatypes shared by the other modules. */
module Wrappers {

  /** A value that may be absent: Kotlin's nullable types. */
  datatype Option<+T> = None | Some(value: T)

  /** How a JVM call ended: normally with a value, or by an exception nobody caught. */
  datatype Completion<+T> = Normal(value: T) | Thrown
}
