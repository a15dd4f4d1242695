/** Failure-carrying values and the fixed-width integer types shared by the
    whole model. */
module Wrappers {

  /** An optional value: a protobuf sub-message that may be absent, an I/O
      step that may have produced nothing, an error that may be nil. */
  datatype Option<+T> = None | Some(value: T)
  {
    /** The carried value, or `default` when there is none. */
    function GetOr(default: T): T
    {
      match this
      case Some(v) => v
      case None => default
    }
  }

  /** The text of a Go `error`; the errors met here never render as "". */
  type ErrorText = s: string | s != "" witness "error"

  /** `errors.Wrap(e, context)`: the context, a colon, then the cause. */
  function Wrap(context: string, e: ErrorText): ErrorText
  {
    context + ": " + e
  }

  /** A value or the error Go would have returned instead. */
  datatype Result<+T> = Ok(value: T) | Err(error: ErrorText)

  type byte = x: int | 0 <= x < 0x100
  type uint16 = x: int | 0 <= x < 0x1_0000
  type uint32 = x: int | 0 <= x < 0x1_0000_0000

  /** `uint16(x)` in Go: keep the low 16 bits. */
  function ToUint16(x: uint32): (r: uint16)
    ensures x < 0x1_0000 ==> r == x
    ensures (x - r) % 0x1_0000 == 0
  {
    x % 0x1_0000
  }
}
