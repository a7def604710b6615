/** Option and Result, the two failure-carrying wrappers the model uses for Go's `(value, error)` returns. */
module Wrappers {
  datatype Option<+T> = None | Some(value: T)

  datatype Result<+T, +E> = Ok(value: T) | Err(error: E)
}

/** The error values the remote-file layer can hand back to its callers. */
module Errors {
  datatype Error =
    | NotFound          // the remote path does not exist
    | Transport         // an opaque failure of the transfer session
    | EndOfFile         // io.EOF
    | OutOfRange        // ErrOutOfRange: a seek target outside [0, size]
    | Invalid           // os.ErrInvalid: an unrecognised whence
    | Syntax            // *json.SyntaxError
    | UnexpectedEnd     // io.ErrUnexpectedEOF: input ends inside a JSON value
    | NotStringPointer  // errNotStringPointer: a text Scan target that is not a *string
    | OpenFailed        // the file could not be reopened by name
}

/** Go's fixed-width integers, with the wrap-around of their arithmetic written out. */
module GoInt {
  const MinInt64: int := -0x8000_0000_0000_0000
  const MaxInt64: int := 0x7fff_ffff_ffff_ffff
  const TwoTo64: int := 0x1_0000_0000_0000_0000

  type int64 = x: int | MinInt64 <= x <= MaxInt64
  type uint64 = x: int | 0 <= x < TwoTo64

  /**
   * Go's `a + b` on two int64 values: two's-complement wrap-around.  The one
   * int64 congruent to the mathematical sum modulo 2^64, hence the sum itself
   * whenever it fits.
   */
  function AddInt64(a: int64, b: int64): (r: int64)
    ensures (r - (a + b)) % TwoTo64 == 0
    ensures MinInt64 <= a + b <= MaxInt64 ==> r == a + b
  {
    var s := a + b;
    if s > MaxInt64 then s - TwoTo64 else if s < MinInt64 then s + TwoTo64 else s
  }

  /** Go's conversion `uint64(x)` of an int64: a negative value becomes a huge one. */
  function ToUint64(x: int64): (r: uint64)
    ensures x >= 0 ==> r == x
    ensures x < 0 ==> r > MaxInt64 && r - TwoTo64 == x
  {
    if x >= 0 then x else x + TwoTo64
  }

  function Min(a: int, b: int): int { if a <= b then a else b }
}
