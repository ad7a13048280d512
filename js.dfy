/**
 * The JavaScript values and exceptions that cross the boundary between the
 * `USB` wrapper class and the native `UsbDevice` addon.
 */
module Js {

  type byte = x: int | 0 <= x < 0x100

  /** The kinds of argument the addon and its wrapper distinguish. */
  datatype Value =
    | Buffer(bytes: seq<byte>)
    | Uint8Array(bytes: seq<byte>)
    | Function(id: nat)
    | Number(n: int)
    | Null
    | Undefined
    | OtherValue

  /** A thrown JavaScript exception: `Error` or `TypeError`, with its message. */
  datatype Exception = Error(message: string) | TypeError(message: string)

  /**
   * What a call does from the caller's point of view: it returns a value,
   * throws an exception, or takes the whole process down (`std::terminate`).
   */
  datatype Outcome<+T> = Returned(value: T) | Threw(exception: Exception) | ProcessAborted
}
