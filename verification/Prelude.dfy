/** Shared result types, the fate of a fallible call, and byte strings. */
module Prelude {
  datatype Option<+T> = None | Some(value: T)

  datatype Result<+T, +E> = Ok(value: T) | Err(error: E) {
    function GetOr(default: T): T {
      if Ok? then value else default
    }
  }

  /** What becomes of one fallible call: it may fail before or after taking effect. */
  datatype Fault = NoFault | FaultBefore | FaultAfter

  newtype byte = x: int | 0 <= x < 256

  type Bytes = seq<byte>
}
