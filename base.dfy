/** Shared vocabulary of the toolkit: fixed-width units, optional values, results
    and the rectangle every layout combinator works on. */
module Base {

  /** The `u16` unit of distance. */
  type U16 = x: int | 0 <= x < 0x1_0000

  /** A `u32` counter. */
  type U32 = x: int | 0 <= x < 0x1_0000_0000

  const U16_LIMIT: int := 0x1_0000

  datatype Option<T> = None | Some(value: T)

  /** Why a debug build of the program stops. */
  datatype PanicReason =
    | Overflow      // an addition left the range of its unsigned type
    | Underflow     // a subtraction went below zero
    | Unreachable   // `unreachable!()`
    | Explicit      // a bare `panic!()`
    | OutOfBounds   // an index past the end of an array
    | Unwrap        // `unwrap()` on a missing value
    | AlreadyBorrowed // `borrow_mut()` on a `RefCell` that is still borrowed

  /** Errors a render, a handle or an engine step can end with. */
  datatype Error =
    | NoSpace(area: Area, minW: int, minH: int)   // the offered area is smaller than required
    | Panic(reason: PanicReason)                  // the debug build panics
    | Io                                          // the output sink refused a write
    | Disconnected                                 // the input channel has no sender left
    | WindowClosed                                // a host window was closed

  datatype Result<T> = Ok(value: T) | Err(error: Error)

  /** A rectangle on the screen in (X, Y, W, H) form, from the top left. */
  datatype Area = Area(x: U16, y: U16, w: U16, h: U16)

  /** A measured size (W, H). */
  datatype Size = Size(w: U16, h: U16)

  const ZeroSize: Size := Size(0, 0)

  /** The direction a stack lays out its children: X (left to right), Y (top to
      bottom) or Z (back to front). */
  datatype Axis = X | Y | Z

  /** `n as u16`: keeps the low 16 bits. */
  function Truncate(n: nat): (r: U16)
    ensures n < U16_LIMIT ==> r == n
    ensures r <= n
    ensures (n - r) % U16_LIMIT == 0
  {
    n % U16_LIMIT
  }

  /** `a.saturating_sub(b)` on unsigned values. */
  function SatSub(a: nat, b: nat): (r: nat)
    ensures r <= a
    ensures r == 0 || r + b == a
    ensures a >= b ==> r + b == a
  {
    if a >= b then a - b else 0
  }

  /** `a + b` on `u16` in a debug build: a sum past the range panics. */
  function AddU16(a: U16, b: U16): (r: Result<U16>)
    ensures r.Ok? <==> a + b < U16_LIMIT
    ensures r.Ok? ==> r.value == a + b
    ensures r.Err? ==> r.error == Panic(Overflow)
  {
    if a + b < U16_LIMIT then Ok(a + b) else Err(Panic(Overflow))
  }

  function Max(a: int, b: int): (r: int)
    ensures r >= a && r >= b && (r == a || r == b)
  {
    if a >= b then a else b
  }

  function Min(a: int, b: int): (r: int)
    ensures r <= a && r <= b && (r == a || r == b)
  {
    if a <= b then a else b
  }

  /** Writing in three pieces is writing their concatenation. */
  lemma Associative<T>(a: seq<T>, b: seq<T>, c: seq<T>)
    ensures a + b + c == a + (b + c)
  {
  }
}
