/** Result wrappers shared by the modules of this model. */
module Common {

  /** A value that may be absent (an unset optional, a missing map entry). */
  datatype Option<+T> = None | Some(value: T)

  /** The repository's `Status`: OK, or an error carrying its message. */
  datatype Status = Ok | Error(message: string)

  /** Unsigned 32-bit integers, the width of an agent session id. */
  type uint32 = x: int | 0 <= x < 0x1_0000_0000

  /** Signed 64-bit integers, the width of node ids and limits in the query planner. */
  type int64 = x: int | -0x8000_0000_0000_0000 <= x < 0x8000_0000_0000_0000
}
