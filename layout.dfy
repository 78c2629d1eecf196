/** The value-passing layout engine: a widget renders itself into an area handed to it
    by value, writes text at positions inside it, and reports the size it used or a
    "no space" error. Output is a log of placements in write order. */
module Layout {
  import opened Base
  import opened Space
  import F = Focus
  import C = Collect

  /** Text printed at a screen position (a cursor move followed by a print). */
  datatype Placement = Placement(x: U16, y: U16, text: string)

  /** What a render leaves behind: the placements it wrote, even when it failed
      part-way, and its size or its error. */
  datatype Rendered = Rendered(out: seq<Placement>, res: Result<Size>)

  /** The size argument of `Fix`, `Min` and `Max`: a width, a height, or both. */
  datatype Bound = OnX(n: U16) | OnY(n: U16) | OnXY(w: U16, h: U16)

  datatype Align = TopLeft | Top | TopRight | Left | Center | Right | BottomLeft | Bottom | BottomRight

  datatype KeyCode = Enter | Char(c: char) | OtherKey

  /** An input event: a key (only its code matters here) or anything else. */
  datatype Event = Key(code: KeyCode) | OtherEvent

  /** The widgets of the value-passing engine. */
  datatype Widget =
    | Nothing                                       // `()`
    | Square(n: U16)                                // a `Unit`: an n×n spacer
    | Spacer(w: U16, h: U16)                        // `(Unit, Unit)`
    | Optional(inner: Option<Widget>)               // `Option<W>`
    | Text(s: string)                               // `&str` and `String`
    | Offset(dx: U16, dy: U16, child: Widget)
    | Fixed(bound: Bound, child: Widget)            // `Fix`
    | AtLeast(bound: Bound, child: Widget)          // `Min`
    | AtMost(bound: Bound, child: Widget)           // `Max`
    | Stacked(axis: Axis, items: seq<C.Collected<Widget>>)
    | Aligned(align: Align, child: Widget)
    | Boxed(child: Widget)                          // `Box<dyn Widget>`
    | Borrowed(child: Widget)                       // `&W`
    | Styled(child: Widget, shown: string)          // `Styled` and `StyledBoxed`; `shown` is the styled text
    | StyledContent(content: string)
    | Link(action: Result<bool>, child: Widget)     // `action` is what the callback returns
    | FocusStack(axis: Axis, items: seq<C.Collected<Widget>>, state: F.FocusState)

  /** `Fix::constrain`: the tagged extents become the bound; the origin stays. */
  function FixArea(b: Bound, a: Area): (r: Area)
    ensures r.x == a.x && r.y == a.y
    ensures r.w == (match b case OnX(n) => n case OnY(_) => a.w case OnXY(w, _) => w)
    ensures r.h == (match b case OnX(_) => a.h case OnY(n) => n case OnXY(_, h) => h)
  {
    match b
    case OnX(n) => Area(a.x, a.y, n, a.h)
    case OnY(n) => Area(a.x, a.y, a.w, n)
    case OnXY(w, h) => Area(a.x, a.y, w, h)
  }

  /** `Min::constrain`: each tagged extent is raised to at least the bound. */
  function MinArea(b: Bound, a: Area): (r: Area)
    ensures r.x == a.x && r.y == a.y && r.w >= a.w && r.h >= a.h
    ensures r.w >= FixArea(b, a).w && r.h >= FixArea(b, a).h
    ensures (r.w == a.w || r.w == FixArea(b, a).w) && (r.h == a.h || r.h == FixArea(b, a).h)
  {
    match b
    case OnX(n) => Area(a.x, a.y, Max(a.w, n), a.h)
    case OnY(n) => Area(a.x, a.y, a.w, Max(a.h, n))
    case OnXY(w, h) => Area(a.x, a.y, Max(a.w, w), Max(a.h, h))
  }

  /** `Max::constrain`: each tagged extent is lowered to at most the bound. */
  function MaxArea(b: Bound, a: Area): (r: Area)
    ensures r.x == a.x && r.y == a.y && r.w <= a.w && r.h <= a.h
    ensures r.w <= FixArea(b, a).w && r.h <= FixArea(b, a).h
    ensures (r.w == a.w || r.w == FixArea(b, a).w) && (r.h == a.h || r.h == FixArea(b, a).h)
  {
    match b
    case OnX(n) => Area(a.x, a.y, Min(a.w, n), a.h)
    case OnY(n) => Area(a.x, a.y, a.w, Min(a.h, n))
    case OnXY(w, h) => Area(a.x, a.y, Min(a.w, w), Min(a.h, h))
  }

  /** Raising to at least a bound and then lowering to at most the same bound pins
      the tagged extents to it, which is what `Fix` does; both clamps are idempotent. */
  lemma ClampsMeetAtFix(b: Bound, a: Area)
    ensures MaxArea(b, MinArea(b, a)) == FixArea(b, a)
    ensures MinArea(b, MaxArea(b, a)) == FixArea(b, a)
    ensures MinArea(b, MinArea(b, a)) == MinArea(b, a)
    ensures MaxArea(b, MaxArea(b, a)) == MaxArea(b, a)
  {
  }

  /** What `Fix` reports: the bound on a fixed axis, the child's extent on the other. */
  function FixSize(b: Bound, s: Size): (r: Size)
    ensures r.w == FixArea(b, Area(0, 0, s.w, s.h)).w
    ensures r.h == FixArea(b, Area(0, 0, s.w, s.h)).h
  {
    match b
    case OnX(n) => Size(n, s.h)
    case OnY(n) => Size(s.w, n)
    case OnXY(w, h) => Size(w, h)
  }

  /** The area `Offset(dx, dy, _)` hands its child: the origin moves by an addition
      that panics when it leaves `u16`, and the extent shrinks with saturation. */
  function OffsetArea(a: Area, dx: U16, dy: U16): (r: Result<Area>)
    ensures r.Ok? <==> a.x + dx < U16_LIMIT && a.y + dy < U16_LIMIT
    ensures r.Ok? ==> r.value == Area(a.x + dx, a.y + dy, SatSub(a.w, dx), SatSub(a.h, dy))
    ensures r.Err? ==> r.error == Panic(Overflow)
  {
    match AddU16(a.x, dx)
    case Err(e) => Err(e)
    case Ok(x) =>
      match AddU16(a.y, dy)
      case Err(e) => Err(e)
      case Ok(y) => Ok(Area(x, y, SatSub(a.w, dx), SatSub(a.h, dy)))
  }

  /** `&str`/`String`: needs `len` columns and one row; prints at the top left and
      reports `(len, 1)`, or fails with "no space" and prints nothing. */
  function RenderText(s: string, a: Area): (r: Rendered)
    ensures r.res.Ok? <==> a.w >= Truncate(|s|) && a.h >= 1
    ensures r.res.Ok? ==> r == Rendered([Placement(a.x, a.y, s)], Ok(Size(Truncate(|s|), 1)))
    ensures r.res.Err? ==> r == Rendered([], Err(NoSpace(a, Truncate(|s|), 1)))
  {
    var size := Size(Truncate(|s|), 1);
    match ExpectMin(a, size.w, size.h)
    case Err(e) => Rendered([], Err(e))
    case Ok(_) => Rendered([Placement(a.x, a.y, s)], Ok(size))
  }

  const Empty: Rendered := Rendered([], Ok(ZeroSize))

  /** The minimum area a stack demands before rendering anything: one cell per
      child (as a `u16`) along X or Y and one across; a single cell for Z. */
  function StackGate(axis: Axis, count: nat): (r: Size)
    ensures axis.Z? ==> r == Size(1, 1)
    ensures axis.X? ==> r.w == Truncate(count) && r.h == 1
    ensures axis.Y? ==> r.w == 1 && r.h == Truncate(count)
  {
    match axis
    case X => Size(Truncate(count), 1)
    case Y => Size(1, Truncate(count))
    case Z => Size(1, 1)
  }

  /** Every placement starts at or right of and at or below the corner of `a`. */
  predicate NotBefore(out: seq<Placement>, a: Area)
  {
    forall i :: 0 <= i < |out| ==> out[i].x >= a.x && out[i].y >= a.y
  }

  /** `render` of the value-passing `Widget`. It fails only for want of space or on a
      `u16` overflow; `RenderStaysInside` shows where it places text. */
  function Render(w: Widget, a: Area): (r: Rendered)
    ensures r.res.Err? ==> r.res.error.NoSpace? || r.res.error == Panic(Overflow)
    decreases w, 1, 0
  {
    match w
    case Nothing => Empty
    case Square(n) => Rendered([], Ok(Size(n, n)))
    case Spacer(sw, sh) => Rendered([], Ok(Size(sw, sh)))
    case Optional(inner) => if inner.Some? then Render(inner.value, a) else Empty
    case Text(s) => RenderText(s, a)
    case Offset(dx, dy, child) =>
      (match OffsetArea(a, dx, dy)
       case Err(e) => Rendered([], Err(e))
       case Ok(inner) => Render(child, inner))
    case Fixed(b, child) =>
      var r := Render(child, FixArea(b, a));
      if r.res.Err? then r else Rendered(r.out, Ok(FixSize(b, r.res.value)))
    case AtLeast(b, child) => Render(child, MinArea(b, a))
    case AtMost(b, child) => Render(child, MaxArea(b, a))
    case Stacked(axis, items) =>
      var gate := StackGate(axis, |items|);
      (match ExpectMin(a, gate.w, gate.h)
       case Err(e) => Rendered([], Err(e))
       case Ok(_) => StackFrom(w, a, 0, 0, 0, []))
    case Aligned(_, child) => Render(child, a)
    case Boxed(child) => Render(child, a)
    case Borrowed(child) => Render(child, a)
    case Styled(child, shown) =>
      var r := Render(child, a);
      if r.res.Err? then Rendered([], r.res)
      else
        (match ExpectMin(a, r.res.value.w, r.res.value.h)
         case Err(e) => Rendered([], Err(e))
         case Ok(_) => Rendered([Placement(a.x, a.y, shown)], r.res))
    case StyledContent(content) =>
      (match ExpectMin(a, Truncate(|content|), 1)
       case Err(e) => Rendered([], Err(e))
       case Ok(_) => Rendered([Placement(a.x, a.y, content)], Ok(Size(1, 1))))
    case Link(_, child) => Render(child, a)
    case FocusStack(_, items, state) =>
      if state.selected.Some? && state.selected.value < |items| then RenderItem(w, state.selected.value, a)
      else Empty
  }

  /** `Layout::render`: `None` renders as `(0, 0)`, `Box` and `Ref` as their widget. */
  function RenderItem(w: Widget, j: nat, a: Area): (r: Rendered)
    requires w.Stacked? || w.FocusStack?
    requires j < |w.items|
    ensures w.items[j].Nil? ==> r == Empty
    ensures r.res.Err? ==> r.res.error.NoSpace? || r.res.error == Panic(Overflow)
    decreases w, 0, 0
  {
    var item := w.items[j];
    if item.Nil? then Empty else Render(item.item, a)
  }

  /** The position in declaration order of the `k`-th child a stack renders: Z goes
      back to front, so it starts from the last child. */
  function Visit(axis: Axis, n: nat, k: nat): (j: nat)
    requires k < n
    ensures j < n
  {
    if axis.Z? then n - 1 - k else k
  }

  /** The loop of `Stacked::render` from child `k` on, with the running extents
      `x`, `y` and the placements written so far. What was written stays written. */
  function StackFrom(w: Widget, a: Area, k: nat, x: U16, y: U16, out: seq<Placement>): (r: Rendered)
    requires w.Stacked? && k <= |w.items|
    ensures out <= r.out
    ensures r.res.Err? ==> r.res.error.NoSpace? || r.res.error == Panic(Overflow)
    decreases w, 0, |w.items| - k
  {
    if k == |w.items| then Rendered(out, Ok(Size(x, y)))
    else
      var j := Visit(w.axis, |w.items|, k);
      match w.axis
      case X =>
        (match OffsetArea(a, x, 0)
         case Err(e) => Rendered(out, Err(e))
         case Ok(inner) =>
           var r := RenderItem(w, j, inner);
           if r.res.Err? then Rendered(out + r.out, r.res)
           else
             match AddU16(x, r.res.value.w)
             case Err(e) => Rendered(out + r.out, Err(e))
             case Ok(nx) => StackFrom(w, a, k + 1, nx, Max(y, r.res.value.h), out + r.out))
      case Y =>
        (match OffsetArea(a, 0, y)
         case Err(e) => Rendered(out, Err(e))
         case Ok(inner) =>
           var r := RenderItem(w, j, inner);
           if r.res.Err? then Rendered(out + r.out, r.res)
           else
             match AddU16(y, r.res.value.h)
             case Err(e) => Rendered(out + r.out, Err(e))
             case Ok(ny) => StackFrom(w, a, k + 1, Max(x, r.res.value.w), ny, out + r.out))
      case Z =>
        var r := RenderItem(w, j, a);
        if r.res.Err? then Rendered(out + r.out, r.res)
        else StackFrom(w, a, k + 1, Max(x, r.res.value.w), Max(y, r.res.value.h), out + r.out)
  }

  /** No widget writes left of or above the area it is given: offsets and stacks
      only move right and down, and bounds only change the extent. */
  lemma RenderStaysInside(w: Widget, a: Area)
    ensures NotBefore(Render(w, a).out, a)
    decreases w, 1, 0
  {
    match w
    case Optional(inner) =>
      if inner.Some? {
        RenderStaysInside(inner.value, a);
      }
    case Offset(dx, dy, child) =>
      if OffsetArea(a, dx, dy).Ok? {
        RenderStaysInside(child, OffsetArea(a, dx, dy).value);
      }
    case Fixed(b, child) => RenderStaysInside(child, FixArea(b, a));
    case AtLeast(b, child) => RenderStaysInside(child, MinArea(b, a));
    case AtMost(b, child) => RenderStaysInside(child, MaxArea(b, a));
    case Stacked(axis, items) =>
      var gate := StackGate(axis, |items|);
      if ExpectMin(a, gate.w, gate.h).Ok? {
        StackStaysInside(w, a, 0, 0, 0, []);
      }
    case Aligned(_, child) => RenderStaysInside(child, a);
    case Boxed(child) => RenderStaysInside(child, a);
    case Borrowed(child) => RenderStaysInside(child, a);
    case Styled(child, shown) =>
    case Link(_, child) => RenderStaysInside(child, a);
    case FocusStack(_, items, state) =>
      if state.selected.Some? && state.selected.value < |items| {
        ItemStaysInside(w, state.selected.value, a);
      }
    case _ =>
  }

  lemma ItemStaysInside(w: Widget, j: nat, a: Area)
    requires w.Stacked? || w.FocusStack?
    requires j < |w.items|
    ensures NotBefore(RenderItem(w, j, a).out, a)
    decreases w, 0, 0
  {
    if !w.items[j].Nil? {
      RenderStaysInside(w.items[j].item, a);
    }
  }

  /** The stack loop keeps every placement right of and below the stack's area. */
  lemma {:induction false} StackStaysInside(w: Widget, a: Area, k: nat, x: U16, y: U16, out: seq<Placement>)
    requires w.Stacked? && k <= |w.items| && NotBefore(out, a)
    ensures NotBefore(StackFrom(w, a, k, x, y, out).out, a)
    decreases w, 0, |w.items| - k
  {
    if k < |w.items| {
      var j := Visit(w.axis, |w.items|, k);
      var inner := if w.axis.X? then OffsetArea(a, x, 0) else if w.axis.Y? then OffsetArea(a, 0, y) else Ok(a);
      if inner.Ok? {
        var c := RenderItem(w, j, inner.value);
        ItemStaysInside(w, j, inner.value);
        assert NotBefore(out + c.out, a);
        if c.res.Ok? {
          if w.axis.Z? {
            StackStaysInside(w, a, k + 1, Max(x, c.res.value.w), Max(y, c.res.value.h), out + c.out);
          } else if w.axis.X? && x + c.res.value.w < U16_LIMIT {
            StackStaysInside(w, a, k + 1, x + c.res.value.w, Max(y, c.res.value.h), out + c.out);
          } else if w.axis.Y? && y + c.res.value.h < U16_LIMIT {
            StackStaysInside(w, a, k + 1, Max(x, c.res.value.w), y + c.res.value.h, out + c.out);
          }
        }
      }
    }
  }

  /** `Stacked::render`, the loop with its mutable `x`/`y` accumulators: proved to
      compute `Render` of the stack. */
  method RenderStacked(axis: Axis, items: seq<C.Collected<Widget>>, a: Area) returns (out: seq<Placement>, res: Result<Size>)
    ensures Rendered(out, res) == Render(Stacked(axis, items), a)
  {
    ghost var w := Stacked(axis, items);
    var gate := StackGate(axis, |items|);
    var fits := ExpectMin(a, gate.w, gate.h);
    if fits.Err? {
      return [], Err(fits.error);
    }
    var x: U16, y: U16 := 0, 0;
    out := [];
    var k := 0;
    while k < |items|
      invariant 0 <= k <= |items|
      invariant Render(w, a) == StackFrom(w, a, k, x, y, out)
    {
      var j := if axis.Z? then |items| - 1 - k else k;
      var inner := a;
      if axis.X? || axis.Y? {
        var moved := if axis.X? then OffsetArea(a, x, 0) else OffsetArea(a, 0, y);
        if moved.Err? {
          return out, Err(moved.error);
        }
        inner := moved.value;
      }
      var r := if items[j].Nil? then Empty else Render(items[j].item, inner);
      assert r == RenderItem(w, j, inner);
      out := out + r.out;
      if r.res.Err? {
        return out, r.res;
      }
      var size := r.res.value;
      if axis.X? {
        var sum := AddU16(x, size.w);
        if sum.Err? {
          return out, Err(sum.error);
        }
        x, y := sum.value, Max(y, size.h);
      } else if axis.Y? {
        var sum := AddU16(y, size.h);
        if sum.Err? {
          return out, Err(sum.error);
        }
        x, y := Max(x, size.w), sum.value;
      } else {
        x, y := Max(x, size.w), Max(y, size.h);
      }
      k := k + 1;
    }
    res := Ok(Size(x, y));
  }

  /** Whether `match_key!` fires for Enter or Space: only the key code is compared,
      so exactly two events activate. */
  predicate Activates(e: Event)
    ensures Activates(e) <==> e == Key(Enter) || e == Key(Char(' '))
  {
    e.Key? && (e.code == Enter || e.code == Char(' '))
  }

  /** `handle`: `Fix`, `Min`, `Max` and `Box` forward the event, a reference panics,
      `Link` answers with its action on Enter or Space, and everything else uses the
      default, which declines the event. */
  function Handle(w: Widget, e: Event): (r: Result<bool>)
    ensures w.Borrowed? ==> r == Err(Panic(Unreachable))
    ensures w.Link? ==> r == (if Activates(e) then w.action else Ok(false))
    ensures (w.Nothing? || w.Square? || w.Spacer? || w.Optional? || w.Text? || w.Offset? ||
             w.Stacked? || w.Aligned? || w.Styled? || w.StyledContent? || w.FocusStack?) ==> r == Ok(false)
    decreases w
  {
    match w
    case Fixed(_, child) => Handle(child, e)
    case AtLeast(_, child) => Handle(child, e)
    case AtMost(_, child) => Handle(child, e)
    case Boxed(child) => Handle(child, e)
    case Borrowed(_) => Err(Panic(Unreachable))
    case Link(action, _) => if Activates(e) then action else Ok(false)
    case _ => Ok(false)
  }

  /** A key other than Enter or Space, or a non-key event, never reaches a link's
      action: the answer is `false` whatever the action would return, and an action
      error surfaces only on an activating key. */
  lemma LinkIgnoresOtherEvents(action: Result<bool>, other: Result<bool>, child: Widget, e: Event)
    ensures !Activates(e) ==> Handle(Link(action, child), e) == Handle(Link(other, child), e) == Ok(false)
    ensures Activates(e) ==> Handle(Link(action, child), e) == action
    ensures Handle(Link(action, child), e).Err? ==> Activates(e) && action.Err?
  {
  }

  /** Boxing forwards both render and handle; a reference forwards render only. */
  lemma ForwardingWrappers(w: Widget, a: Area, e: Event)
    ensures Render(Boxed(w), a) == Render(Borrowed(w), a) == Render(w, a)
    ensures Handle(Boxed(w), e) == Handle(w, e)
    ensures Handle(Borrowed(w), e).Err?
    ensures Render(Aligned(Center, w), a) == Render(w, a)
    ensures Render(Optional(Some(w)), a) == Render(w, a)
  {
  }

  /** `Offset(0, 0, _)` changes nothing, and nested offsets add up, as long as the
      combined offset is itself a `u16`. */
  lemma OffsetsCompose(dx1: U16, dy1: U16, dx2: U16, dy2: U16, w: Widget, a: Area)
    requires dx1 + dx2 < U16_LIMIT && dy1 + dy2 < U16_LIMIT
    ensures Render(Offset(0, 0, w), a) == Render(w, a)
    ensures Render(Offset(dx1, dy1, Offset(dx2, dy2, w)), a) == Render(Offset(dx1 + dx2, dy1 + dy2, w), a)
  {
    assert OffsetArea(a, 0, 0) == Ok(a);
    var outer := OffsetArea(a, dx1, dy1);
    if outer.Ok? {
      assert OffsetArea(outer.value, dx2, dy2) == OffsetArea(a, dx1 + dx2, dy1 + dy2);
    }
  }

  /** `Fix` reports the bound on a fixed axis and the child's measurement on the other;
      its child's placements and errors pass through. */
  lemma FixReportsBound(b: Bound, w: Widget, a: Area)
    ensures Render(Fixed(b, w), a).out == Render(w, FixArea(b, a)).out
    ensures Render(w, FixArea(b, a)).res.Ok? ==>
      Render(Fixed(b, w), a).res == Ok(FixSize(b, Render(w, FixArea(b, a)).res.value))
    ensures Render(w, FixArea(b, a)).res.Err? ==> Render(Fixed(b, w), a).res == Render(w, FixArea(b, a)).res
  {
    var r := Render(w, FixArea(b, a));
    assert Render(Fixed(b, w), a) == if r.res.Err? then r else Rendered(r.out, Ok(FixSize(b, r.res.value)));
  }

  /** `Min` and `Max` report their child's result unchanged, on the area they bound. */
  lemma BoundsPassThrough(b: Bound, w: Widget, a: Area)
    ensures Render(AtLeast(b, w), a) == Render(w, MinArea(b, a))
    ensures Render(AtMost(b, w), a) == Render(w, MaxArea(b, a))
  {
  }

  /** `Styled` draws only its styled text, at the top left, and reports the wrapped
      widget's measured size; whatever the wrapped widget printed is discarded. */
  lemma StyledReportsChildSize(w: Widget, shown: string, a: Area)
    ensures Render(Styled(w, shown), a).res.Ok? ==>
      Render(w, a).res.Ok? &&
      Render(Styled(w, shown), a) == Rendered([Placement(a.x, a.y, shown)], Render(w, a).res)
    ensures Render(Styled(w, shown), a).res.Err? ==> Render(Styled(w, shown), a).out == []
  {
  }

  /** `StyledContent` demands room for its whole text but always reports `(1, 1)`. */
  lemma StyledContentReportsOneCell(content: string, a: Area)
    requires |content| < U16_LIMIT
    ensures Render(StyledContent(content), a).res.Ok? <==> a.w >= |content| && a.h >= 1
    ensures Render(StyledContent(content), a).res.Ok? ==> Render(StyledContent(content), a).res.value == Size(1, 1)
  {
  }

  /** A stack whose area is below its gate fails before rendering any child. */
  lemma StackGateFailsEarly(axis: Axis, items: seq<C.Collected<Widget>>, a: Area)
    requires a.w < StackGate(axis, |items|).w || a.h < StackGate(axis, |items|).h
    ensures Render(Stacked(axis, items), a) == Rendered([], Err(NoSpace(a, StackGate(axis, |items|).w, StackGate(axis, |items|).h)))
  {
  }

  /** `t` is what `s` ends with. */
  predicate EndsWith<T(==)>(s: seq<T>, t: seq<T>)
  {
    |t| <= |s| && s[|s| - |t|..] == t
  }

  /** Child `j` of the stack, rendered on `inner`, failed with the stack's error and
      was the last thing to write. */
  predicate ChildFailed(w: Widget, j: nat, inner: Area, r: Rendered)
    requires w.Stacked? && j < |w.items|
  {
    RenderItem(w, j, inner).res.Err? && RenderItem(w, j, inner).res == r.res && EndsWith(r.out, RenderItem(w, j, inner).out)
  }

  /** The stack loop stops at the first error: it is either the loop's own `u16`
      overflow, or the error of one of the children still to visit, whose output is
      the last written. */
  lemma {:induction false} StackAborts(w: Widget, a: Area, k: nat, x: U16, y: U16, out: seq<Placement>)
    requires w.Stacked? && k <= |w.items|
    ensures var r := StackFrom(w, a, k, x, y, out);
            r.res.Err? ==> r.res == Err(Panic(Overflow)) ||
                           exists m, inner :: k <= m < |w.items| && ChildFailed(w, Visit(w.axis, |w.items|, m), inner, r)
    decreases |w.items| - k
  {
    if k < |w.items| {
      var j := Visit(w.axis, |w.items|, k);
      var inner := if w.axis.X? then OffsetArea(a, x, 0) else if w.axis.Y? then OffsetArea(a, 0, y) else Ok(a);
      if inner.Ok? {
        var c := RenderItem(w, j, inner.value);
        var r := StackFrom(w, a, k, x, y, out);
        if c.res.Err? {
          assert r == Rendered(out + c.out, c.res);
          assert (out + c.out)[|out|..] == c.out;
          assert ChildFailed(w, j, inner.value, r);
        } else if w.axis.Z? {
          StackAborts(w, a, k + 1, Max(x, c.res.value.w), Max(y, c.res.value.h), out + c.out);
        } else if w.axis.X? && x + c.res.value.w < U16_LIMIT {
          StackAborts(w, a, k + 1, x + c.res.value.w, Max(y, c.res.value.h), out + c.out);
        } else if w.axis.Y? && y + c.res.value.h < U16_LIMIT {
          StackAborts(w, a, k + 1, Max(x, c.res.value.w), y + c.res.value.h, out + c.out);
        }
      }
    }
  }

  /** A stack fails only at its gate (with no output), on its own `u16` overflow, or
      with the error of a child that wrote last: a child's error ends the stack. */
  lemma StackErrors(axis: Axis, items: seq<C.Collected<Widget>>, a: Area)
    ensures var r := Render(Stacked(axis, items), a);
            r.res.Err? ==> (r.out == [] && r.res.error.NoSpace?) || r.res == Err(Panic(Overflow)) ||
                           exists j, inner :: 0 <= j < |items| && ChildFailed(Stacked(axis, items), j, inner, r)
  {
    var w := Stacked(axis, items);
    var r := Render(w, a);
    var gate := StackGate(axis, |items|);
    if ExpectMin(a, gate.w, gate.h).Ok? {
      StackAborts(w, a, 0, 0, 0, []);
      if r.res.Err? && r.res != Err(Panic(Overflow)) {
        var m, inner :| 0 <= m < |items| && ChildFailed(w, Visit(axis, |items|, m), inner, r);
        assert ChildFailed(w, Visit(axis, |items|, m), inner, r);
      }
    }
  }

  /** `FocusStack` renders only its selected child, and `(0, 0)` with no output when
      nothing is selected or the index is stale. */
  lemma FocusStackRendersSelection(axis: Axis, items: seq<C.Collected<Widget>>, state: F.FocusState, a: Area)
    ensures state.selected.Some? && state.selected.value < |items| && items[state.selected.value].Present() ==>
      Render(FocusStack(axis, items, state), a) == Render(items[state.selected.value].item, a)
    ensures !(state.selected.Some? && state.selected.value < |items|) ==>
      Render(FocusStack(axis, items, state), a) == Empty
  {
  }

  // ---- Stacks of labels -------------------------------------------------------

  /** Labels collected as owned widgets. */
  function Labels(ss: seq<string>): seq<C.Collected<Widget>>
  {
    seq(|ss|, k requires 0 <= k < |ss| => C.Boxed(Text(ss[k])))
  }

  /** Total length of the labels. */
  function SumLen(ss: seq<string>): nat
  {
    if ss == [] then 0 else SumLen(ss[..|ss| - 1]) + |ss[|ss| - 1]|
  }

  lemma {:induction false} SumLenPrefix(ss: seq<string>, k: nat)
    requires k <= |ss|
    ensures SumLen(ss[..k]) <= SumLen(ss)
    ensures k < |ss| ==> SumLen(ss[..k]) + |ss[k]| <= SumLen(ss)
    decreases |ss|
  {
    if k < |ss| {
      var init := ss[..|ss| - 1];
      assert ss[..|ss|] == ss;
      if k < |init| {
        SumLenPrefix(init, k);
        assert init[..k] == ss[..k];
        assert init[k] == ss[k];
      } else {
        assert init == ss[..k];
      }
    } else {
      assert ss[..k] == ss;
    }
  }

  /** Labels laid out left to right from (x, y): each starts where the previous ended. */
  function Row(ss: seq<string>, x: nat, y: U16): seq<Placement>
    requires x + SumLen(ss) < U16_LIMIT
  {
    if ss == [] then []
    else
      var init := ss[..|ss| - 1];
      Row(init, x, y) + [Placement(x + SumLen(init), y, ss[|ss| - 1])]
  }

  /** The longest label. */
  function MaxLen(ss: seq<string>): (r: nat)
    ensures forall k :: 0 <= k < |ss| ==> |ss[k]| <= r
    ensures ss == [] ==> r == 0
  {
    if ss == [] then 0 else Max(MaxLen(ss[..|ss| - 1]), |ss[|ss| - 1]|)
  }

  /** One turn of the X loop over labels: label `k` goes at column `x` of the top row. */
  lemma StackXOne(ss: seq<string>, a: Area, k: nat, x: U16, y: U16, out: seq<Placement>)
    requires k < |ss| && a.h >= 1 && x + |ss[k]| <= a.w && a.x + x + |ss[k]| < U16_LIMIT
    ensures StackFrom(Stacked(X, Labels(ss)), a, k, x, y, out)
         == StackFrom(Stacked(X, Labels(ss)), a, k + 1, x + |ss[k]|, Max(y, 1), out + [Placement(a.x + x, a.y, ss[k])])
  {
    var w := Stacked(X, Labels(ss));
    var inner := Area(a.x + x, a.y, a.w - x, a.h);
    assert w.items[k] == C.Boxed(Text(ss[k]));
    assert Visit(X, |w.items|, k) == k;
    assert OffsetArea(a, x, 0) == Ok(inner);
    assert RenderItem(w, k, inner) == Rendered([Placement(a.x + x, a.y, ss[k])], Ok(Size(|ss[k]|, 1)));
  }

  lemma {:induction false} StackXStep(ss: seq<string>, a: Area, k: nat, x: U16, y: U16, out: seq<Placement>)
    requires k <= |ss| && a.h >= 1 && SumLen(ss) <= a.w && a.x + SumLen(ss) < U16_LIMIT
    requires SumLen(ss[..k]) <= SumLen(ss)
    requires x == SumLen(ss[..k]) && y == (if k == 0 then 0 else 1) && out == Row(ss[..k], a.x, a.y)
    ensures StackFrom(Stacked(X, Labels(ss)), a, k, x, y, out)
         == Rendered(Row(ss, a.x, a.y), Ok(Size(SumLen(ss), if ss == [] then 0 else 1)))
    decreases |ss| - k
  {
    if k == |ss| {
      assert ss[..k] == ss;
    } else {
      StackXTurn(ss, a, k);
      var x', y', out' := x + |ss[k]|, Max(y, 1), out + [Placement(a.x + x, a.y, ss[k])];
      StackXOne(ss, a, k, x, y, out);
      StackXStep(ss, a, k + 1, x', y', out');
    }
  }

  /** One more label on X: the running width grows by its length and its placement
      follows the earlier ones. */
  lemma StackXTurn(ss: seq<string>, a: Area, k: nat)
    requires k < |ss| && a.x + SumLen(ss) < U16_LIMIT
    ensures SumLen(ss[..k + 1]) == SumLen(ss[..k]) + |ss[k]| <= SumLen(ss)
    ensures Row(ss[..k + 1], a.x, a.y) == Row(ss[..k], a.x, a.y) + [Placement(a.x + SumLen(ss[..k]), a.y, ss[k])]
  {
    SumLenPrefix(ss, k);
    SumLenPrefix(ss, k + 1);
    assert ss[..k + 1][..k] == ss[..k] && ss[..k + 1][k] == ss[k];
  }

  /** `Stacked` on X: label `k` is printed at the sum of the earlier widths, all on the
      top row, and the stack reports `(sum of widths, 1)`. */
  lemma StackXLabels(ss: seq<string>, a: Area)
    requires |ss| < U16_LIMIT && |ss| <= a.w && a.h >= 1
    requires SumLen(ss) <= a.w && a.x + SumLen(ss) < U16_LIMIT
    ensures Render(Stacked(X, Labels(ss)), a) == Rendered(Row(ss, a.x, a.y), Ok(Size(SumLen(ss), if ss == [] then 0 else 1)))
  {
    assert ss[..0] == [] && SumLen([]) == 0;
    SumLenPrefix(ss, 0);
    StackXStep(ss, a, 0, 0, 0, []);
  }

  lemma {:induction false} MaxLenPrefix(ss: seq<string>, k: nat)
    requires k <= |ss|
    ensures MaxLen(ss[..k]) <= MaxLen(ss)
  {
    assert |ss[..k]| == k;
    forall i | 0 <= i < k ensures |ss[..k][i]| <= MaxLen(ss) {
      assert ss[..k][i] == ss[i];
    }
    MaxLenBound(ss[..k], MaxLen(ss));
  }

  lemma {:induction false} MaxLenBound(ss: seq<string>, m: nat)
    requires forall i :: 0 <= i < |ss| ==> |ss[i]| <= m
    ensures MaxLen(ss) <= m
    decreases |ss|
  {
    if ss != [] {
      MaxLenBound(ss[..|ss| - 1], m);
    }
  }

  /** Labels laid out top to bottom from (x, y): one per row. */
  function Column(ss: seq<string>, x: U16, y: nat): (r: seq<Placement>)
    requires y + |ss| <= U16_LIMIT
    ensures |r| == |ss|
    ensures forall k :: 0 <= k < |ss| ==> r[k] == Placement(x, y + k, ss[k])
  {
    if ss == [] then [] else Column(ss[..|ss| - 1], x, y) + [Placement(x, y + |ss| - 1, ss[|ss| - 1])]
  }

  /** One turn of the Y loop over labels: label `k` goes `k` rows below the top. */
  lemma StackYOne(ss: seq<string>, a: Area, k: nat, x: U16, out: seq<Placement>)
    requires k < |ss| && k < a.h && |ss[k]| <= a.w && a.y + k + 1 < U16_LIMIT
    ensures StackFrom(Stacked(Y, Labels(ss)), a, k, x, k, out)
         == StackFrom(Stacked(Y, Labels(ss)), a, k + 1, Max(x, |ss[k]|), k + 1, out + [Placement(a.x, a.y + k, ss[k])])
  {
    var w := Stacked(Y, Labels(ss));
    var inner := Area(a.x, a.y + k, a.w, a.h - k);
    assert w.items[k] == C.Boxed(Text(ss[k]));
    assert Visit(Y, |w.items|, k) == k;
    assert OffsetArea(a, 0, k) == Ok(inner);
    assert RenderItem(w, k, inner) == Rendered([Placement(a.x, a.y + k, ss[k])], Ok(Size(|ss[k]|, 1)));
  }

  lemma {:induction false} StackYStep(ss: seq<string>, a: Area, k: nat, x: U16, out: seq<Placement>)
    requires k <= |ss| && |ss| <= a.h && a.y + |ss| < U16_LIMIT && MaxLen(ss) <= a.w
    requires x == MaxLen(ss[..k]) && out == Column(ss[..k], a.x, a.y)
    ensures StackFrom(Stacked(Y, Labels(ss)), a, k, x, k, out)
         == Rendered(Column(ss, a.x, a.y), Ok(Size(MaxLen(ss), |ss|)))
    decreases |ss| - k
  {
    if k == |ss| {
      assert ss[..k] == ss;
    } else {
      MaxLenPrefix(ss, k + 1);
      assert ss[..k + 1][..k] == ss[..k] && ss[..k + 1][k] == ss[k];
      var out' := out + [Placement(a.x, a.y + k, ss[k])];
      assert Column(ss[..k + 1], a.x, a.y) == out';
      StackYOne(ss, a, k, x, out);
      StackYStep(ss, a, k + 1, Max(x, |ss[k]|), out');
    }
  }

  /** `Stacked` on Y: label `k` is printed `k` rows below the top, whatever the
      labels before it did, and the stack reports `(longest label, count)`. */
  lemma StackYLabels(ss: seq<string>, a: Area)
    requires a.w >= 1 && |ss| <= a.h && a.y + |ss| < U16_LIMIT && MaxLen(ss) <= a.w
    ensures Render(Stacked(Y, Labels(ss)), a) == Rendered(Column(ss, a.x, a.y), Ok(Size(MaxLen(ss), |ss|)))
  {
    assert |ss| < U16_LIMIT;
    if ss != [] {
      assert |ss[0]| <= MaxLen(ss);
    }
    assert ss[..0] == [] && MaxLen([]) == 0;
    StackYStep(ss, a, 0, 0, []);
  }

  /** Labels all printed at the same origin, last declared first. */
  function Pile(ss: seq<string>, x: U16, y: U16): (r: seq<Placement>)
    ensures |r| == |ss|
    ensures forall k :: 0 <= k < |ss| ==> r[k] == Placement(x, y, ss[|ss| - 1 - k])
  {
    if ss == [] then [] else [Placement(x, y, ss[|ss| - 1])] + Pile(ss[..|ss| - 1], x, y)
  }

  /** One turn of the Z loop over labels: the `k`-th from the back goes at the origin. */
  lemma StackZOne(ss: seq<string>, a: Area, k: nat, x: U16, y: U16, out: seq<Placement>)
    requires k < |ss| && a.h >= 1 && |ss[|ss| - 1 - k]| <= a.w
    ensures StackFrom(Stacked(Z, Labels(ss)), a, k, x, y, out)
         == StackFrom(Stacked(Z, Labels(ss)), a, k + 1, Max(x, |ss[|ss| - 1 - k]|), Max(y, 1), out + [Placement(a.x, a.y, ss[|ss| - 1 - k])])
  {
    var w := Stacked(Z, Labels(ss));
    var j := |ss| - 1 - k;
    assert w.items[j] == C.Boxed(Text(ss[j]));
    assert Visit(Z, |w.items|, k) == j;
    assert RenderItem(w, j, a) == Rendered([Placement(a.x, a.y, ss[j])], Ok(Size(|ss[j]|, 1)));
  }

  lemma {:induction false} StackZStep(ss: seq<string>, a: Area, k: nat, x: U16, y: U16, out: seq<Placement>)
    requires k <= |ss| && a.h >= 1 && MaxLen(ss) <= a.w
    requires x == MaxLen(ss[|ss| - k..]) && y == (if k == 0 then 0 else 1) && out == Pile(ss[|ss| - k..], a.x, a.y)
    ensures StackFrom(Stacked(Z, Labels(ss)), a, k, x, y, out)
         == Rendered(Pile(ss, a.x, a.y), Ok(Size(MaxLen(ss), if ss == [] then 0 else 1)))
    decreases |ss| - k
  {
    var n := |ss|;
    if k == n {
      assert ss[n - k..] == ss;
    } else {
      var j := n - 1 - k;
      var tail := ss[n - k..];
      var tail' := ss[n - (k + 1)..];
      assert tail' == [ss[j]] + tail;
      MaxLenCons(ss[j], tail);
      SuffixMaxLen(ss, n - (k + 1));
      PileCons(ss[j], tail, a.x, a.y);
      StackZOne(ss, a, k, x, y, out);
      StackZStep(ss, a, k + 1, Max(x, |ss[j]|), 1, out + [Placement(a.x, a.y, ss[j])]);
    }
  }

  lemma PileCons(s: string, ss: seq<string>, x: U16, y: U16)
    ensures Pile([s] + ss, x, y) == Pile(ss, x, y) + [Placement(x, y, s)]
  {
    var l, r := Pile([s] + ss, x, y), Pile(ss, x, y) + [Placement(x, y, s)];
    assert |l| == |r|;
    forall i | 0 <= i < |l| ensures l[i] == r[i] {
      if i < |ss| {
        assert ([s] + ss)[|ss| - i] == ss[|ss| - 1 - i];
      }
    }
  }

  lemma SuffixMaxLen(ss: seq<string>, i: nat)
    requires i <= |ss|
    ensures MaxLen(ss[i..]) <= MaxLen(ss)
  {
    forall k | 0 <= k < |ss[i..]| ensures |ss[i..][k]| <= MaxLen(ss) {
      assert ss[i..][k] == ss[i + k];
    }
    MaxLenBound(ss[i..], MaxLen(ss));
  }

  lemma {:induction false} MaxLenCons(s: string, ss: seq<string>)
    ensures MaxLen([s] + ss) == Max(MaxLen(ss), |s|)
    decreases |ss|
  {
    if ss != [] {
      var init := ss[..|ss| - 1];
      assert ([s] + ss)[..|ss|] == [s] + init;
      MaxLenCons(s, init);
    } else {
      assert [s] + ss == [s];
      assert ([s] + ss)[..0] == [];
    }
  }

  /** `Stacked` on Z: every label is printed at the area's origin, last declared
      first, and the stack reports `(longest label, 1)`. */
  lemma StackZLabels(ss: seq<string>, a: Area)
    requires a.w >= 1 && a.h >= 1 && MaxLen(ss) <= a.w
    ensures Render(Stacked(Z, Labels(ss)), a) == Rendered(Pile(ss, a.x, a.y), Ok(Size(MaxLen(ss), if ss == [] then 0 else 1)))
  {
    assert ss[|ss|..] == [] && MaxLen([]) == 0;
    StackZStep(ss, a, 0, 0, 0, []);
  }

  // ---- Building stacks --------------------------------------------------------

  /** `Stacked::x`/`y`/`z`: the children are what the closure collected, in call
      order, each wrapped by its kind (`Widget::collect`). */
  function StackedOf(axis: Axis, calls: seq<C.Arg<Widget>>): (r: Widget)
    ensures r.Stacked? && r.axis == axis && |r.items| == |calls|
    ensures forall k :: 0 <= k < |calls| ==>
      r.items[k].Present() && r.items[k].item == calls[k].w &&
      (r.items[k].Ref? <==> calls[k].Borrowed? || calls[k].BorrowedMut?)
  {
    Stacked(axis, C.WrapAll(C.ByKind, calls))
  }

  /** `FocusStack::new`/`x`/`y`/`z`: a stack that starts unfocused with nothing selected,
      so it renders as `(0, 0)` until something is selected. */
  function FocusStackOf(axis: Axis, calls: seq<C.Arg<Widget>>): (r: Widget)
    ensures r.FocusStack? && r.axis == axis && r.state == F.Unfocused
    ensures r.items == StackedOf(axis, calls).items
    ensures forall a :: Render(r, a) == Empty
  {
    FocusStack(axis, C.WrapAll(C.ByKind, calls), F.Unfocused)
  }
}
