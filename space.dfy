/** Area and point values: accessors, the two rectangle views (tuple and array),
    `Point::nth`, and the minimum-size gate every layout combinator calls first. */
module Space {
  import opened Base

  /** `Area<U>` of the generic layout primitives: (X, Y, W, H) over any unit. */
  datatype Rect<U> = Rect(x: U, y: U, w: U, h: U) {
    /** `size()`: the extent (W, H). */
    function Size(): (U, U) { (w, h) }
  }

  /** `Unit::NIL`, the zero every integer unit type (`i32`, `u16`, `u32`) declares. */
  const NIL: int := 0

  /** The `Rect` view of a 4-tuple: fields 0..3 are x, y, w, h. */
  function FromTuple<U>(t: (U, U, U, U)): Rect<U>
  {
    Rect(t.0, t.1, t.2, t.3)
  }

  /** The `Rect` view of a `[U; 4]`: indices 0..3 are x, y, w, h. */
  function FromArray<U>(a: seq<U>): Rect<U>
    requires |a| == 4
  {
    Rect(a[0], a[1], a[2], a[3])
  }

  /** A tuple and an array holding the same four values describe the same rectangle,
      and `size()` is the last two of them. */
  lemma TupleArrayAgree<U>(t: (U, U, U, U))
    ensures FromTuple(t) == FromArray([t.0, t.1, t.2, t.3])
    ensures FromTuple(t).x == t.0 && FromTuple(t).y == t.1
    ensures FromTuple(t).Size() == (t.2, t.3)
  {
  }

  /** `Point::nth` on a pair: 0 and 1 pick a field, anything else panics. */
  function NthPair<U>(p: (U, U), n: nat): (r: Result<U>)
    ensures r.Ok? <==> n < 2
    ensures n == 0 ==> r == Ok(p.0)
    ensures n == 1 ==> r == Ok(p.1)
    ensures r.Err? ==> r.error == Panic(Explicit)
  {
    match n
    case 0 => Ok(p.0)
    case 1 => Ok(p.1)
    case _ => Err(Panic(Explicit))
  }

  /** `Point::nth` on `[U; 2]`: plain indexing, which panics past the end. */
  function NthArray<U>(a: seq<U>, n: nat): (r: Result<U>)
    requires |a| == 2
    ensures r.Ok? <==> n < 2
    ensures r.Ok? ==> r.value == a[n]
  {
    if n < |a| then Ok(a[n]) else Err(Panic(OutOfBounds))
  }

  /** `x()` and `y()` of a point are `nth(0)` and `nth(1)`. */
  function PointX<U>(p: (U, U)): (r: U)
    ensures NthPair(p, 0) == Ok(r)
  {
    p.0
  }

  function PointY<U>(p: (U, U)): (r: U)
    ensures NthPair(p, 1) == Ok(r)
  {
    p.1
  }

  /** Both point views give the same coordinate wherever either succeeds. */
  lemma NthViewsAgree<U>(p: (U, U), n: nat)
    ensures NthPair(p, n).Ok? == NthArray([p.0, p.1], n).Ok?
    ensures n < 2 ==> NthPair(p, n) == NthArray([p.0, p.1], n)
  {
  }

  /** `expect_min` (and `Area::min`): the area itself when both extents reach the
      minimum, otherwise a "no space" error naming the area and the minimum. */
  function ExpectMin(a: Area, minW: int, minH: int): (r: Result<Area>)
    ensures r == Ok(a) <==> a.w >= minW && a.h >= minH
    ensures r.Err? <==> a.w < minW || a.h < minH
    ensures r.Err? ==> r.error == NoSpace(a, minW, minH)
  {
    if a.w < minW || a.h < minH then Err(NoSpace(a, minW, minH)) else Ok(a)
  }

  /** One dimension that is too short is enough for the error, whatever the other. */
  lemma ExpectMinShortSide(a: Area, minW: int, minH: int)
    ensures a.w < minW ==> ExpectMin(a, minW, minH).Err?
    ensures a.h < minH ==> ExpectMin(a, minW, minH).Err?
  {
  }

  /** The gate is a pure check: passing its result through it again changes nothing,
      and a smaller minimum never turns a success into a failure. */
  lemma ExpectMinIdempotent(a: Area, minW: int, minH: int, w2: int, h2: int)
    ensures ExpectMin(a, minW, minH).Ok? ==> ExpectMin(ExpectMin(a, minW, minH).value, minW, minH) == ExpectMin(a, minW, minH)
    ensures ExpectMin(a, minW, minH).Ok? && w2 <= minW && h2 <= minH ==> ExpectMin(a, w2, h2).Ok?
  {
  }
}
