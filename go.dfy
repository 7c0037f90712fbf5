/** The few Go values the bridge code relies on: fixed-width integers,
    pointers and `(value, error)` results. */
module Go {

  /** Go's `int64`. `C.longlong` converts to it unchanged, and Go's `int` has
      the same width on the 64-bit targets the bridge is built for. */
  newtype int64 = x: int | -0x8000_0000_0000_0000 <= x < 0x8000_0000_0000_0000

  /** A Go pointer `*T`: either `nil` or the address of a `T`. Only the value
      it points to is modelled, not the address. */
  datatype Ptr<T> = Nil | Ref(target: T)

  /** The text `err.Error()` of a non-nil error. The errors of `encoding/json`
      and the bridge's own validation messages are never empty. */
  type ErrorText = s: string | s != "" witness "error"

  /** A Go `(value, err)` pair: `Err` when `err != nil`. */
  datatype Result<T> = Ok(value: T) | Err(error: ErrorText)
}
