/** The context-state layout engine of the terminal back end: widgets render into
    the engine itself, reading and rewriting its `area` field, and queue terminal
    commands on its output. Nothing restores the area after a child has rendered,
    so every later sibling starts from whatever area the previous one left. */
module Tui {
  import opened Base
  import opened Space
  import C = Collect
  import L = Layout

  datatype Color = Red

  /** A terminal command queued on the engine's output. */
  datatype Command =
    | EnterAlternateScreen
    | LeaveAlternateScreen
    | Hide
    | Show
    | ResetColor
    | ClearAll
    | Foreground(color: Color)
    | MoveTo(x: U16, y: U16)
    | Print(text: string)

  const SetupCommands: seq<Command> := [EnterAlternateScreen, Hide]
  const CleanupCommands: seq<Command> := [ResetColor, Show, LeaveAlternateScreen]
  const ClearCommands: seq<Command> := [ResetColor, ClearAll, Hide]

  /** The widgets of the context-state engine. */
  datatype Widget =
    | Label(s: string)                                    // `&str` and `String`
    | Fixed(bound: L.Bound, child: Widget)
    | Maximum(bound: L.Bound, child: Widget)              // `Max`: extent := max(extent, bound)
    | Minimum(bound: L.Bound, child: Widget)              // `Min`: extent := min(extent, bound)
    | Offset(dx: U16, dy: U16, child: Widget)
    | Stack(axis: Axis, items: seq<C.Collected<Widget>>)  // `Columns` (X), `Rows` (Y), `Layers` (Z), `Stacked`
    | Border(child: Widget)

  /** What a render leaves behind: the engine's area afterwards, the commands it
      queued, and its result. */
  datatype Drawn = Drawn(area: Area, out: seq<Command>, res: Result<Option<Size>>)

  predicate IsProxy(w: Widget)
  {
    w.Fixed? || w.Maximum? || w.Minimum? || w.Offset?
  }

  /** `Proxy::get`: the wrapped child of `Fixed`, `Max`, `Min` and `Offset`. */
  function Get(w: Widget): (r: Widget)
    requires IsProxy(w)
    ensures r < w
  {
    match w
    case Fixed(_, child) => child
    case Maximum(_, child) => child
    case Minimum(_, child) => child
    case Offset(_, _, child) => child
  }

  /** The area a proxy writes into the engine before rendering its child. `Max`
      raises and `Min` lowers the tagged extents, the reverse of the value-passing
      engine's `Min` and `Max`; `Offset` moves the origin (panicking past `u16`)
      and shrinks the extent with saturation. */
  function ProxyArea(w: Widget, a: Area): (r: Result<Area>)
    requires IsProxy(w)
    ensures !w.Offset? ==> r.Ok? && r.value.x == a.x && r.value.y == a.y
    ensures w.Fixed? ==> r == Ok(L.FixArea(w.bound, a))
    ensures w.Maximum? ==> r.value.w >= a.w && r.value.h >= a.h
    ensures w.Minimum? ==> r.value.w <= a.w && r.value.h <= a.h
    ensures w.Maximum? && w.bound.OnX? ==> r.value == Area(a.x, a.y, Max(a.w, w.bound.n), a.h)
    ensures w.Minimum? && w.bound.OnX? ==> r.value == Area(a.x, a.y, Min(a.w, w.bound.n), a.h)
    ensures w.Offset? ==> (r.Ok? <==> a.x + w.dx < U16_LIMIT && a.y + w.dy < U16_LIMIT)
    ensures w.Offset? && r.Ok? ==> r.value == Area(a.x + w.dx, a.y + w.dy, SatSub(a.w, w.dx), SatSub(a.h, w.dy))
  {
    match w
    case Fixed(b, _) => Ok(L.FixArea(b, a))
    case Maximum(b, _) => Ok(L.MinArea(b, a))
    case Minimum(b, _) => Ok(L.MaxArea(b, a))
    case Offset(dx, dy, _) => L.OffsetArea(a, dx, dy)
  }

  /** The area `Border` hands its child: one cell in from every side. The glyph
      drawing before it computes `x+1`, `w-2`, `x+w`, `y+1` and `y+h` in that order
      and the final assignment `h-2`, so the first of them to leave `u16` decides
      whether the debug build stops on an overflow or an underflow. */
  function BorderArea(a: Area): (r: Result<Area>)
    requires a.w > 0 && a.h > 0
    ensures r.Ok? <==> 2 <= a.w && 2 <= a.h && a.x + a.w < U16_LIMIT && a.y + a.h < U16_LIMIT
    ensures r.Ok? ==> r.value == Area(a.x + 1, a.y + 1, a.w - 2, a.h - 2)
    ensures r.Ok? ==> r.value.x + r.value.w + 1 == a.x + a.w && r.value.y + r.value.h + 1 == a.y + a.h
    ensures r.Err? ==> r.error == Panic(Overflow) || r.error == Panic(Underflow)
    ensures a.w == 1 && a.x + 1 < U16_LIMIT ==> r == Err(Panic(Underflow))
    ensures a.h == 1 && 2 <= a.w && a.x + a.w < U16_LIMIT && a.y + 1 < U16_LIMIT ==> r == Err(Panic(Underflow))
  {
    if a.x + 1 >= U16_LIMIT then Err(Panic(Overflow))
    else if a.w < 2 then Err(Panic(Underflow))
    else if a.x + a.w >= U16_LIMIT then Err(Panic(Overflow))
    else if a.y + 1 >= U16_LIMIT || a.y + a.h >= U16_LIMIT then Err(Panic(Overflow))
    else if a.h < 2 then Err(Panic(Underflow))
    else Ok(Area(a.x + 1, a.y + 1, a.w - 2, a.h - 2))
  }

  /** `unwrap_or([0, 0])` on a child's measurement. */
  function UnwrapOr(s: Option<Size>): Size
  {
    if s.Some? then s.value else ZeroSize
  }

  /** The area a stack writes into the engine before its next child: `Offset` by the
      running width (X) or height (Y) of the CURRENT area, nothing for layers. */
  function StepArea(axis: Axis, a: Area, x: U16, y: U16): (r: Result<Area>)
    ensures r.Ok? ==> r.value.x >= a.x && r.value.y >= a.y
    ensures axis.Z? ==> r == Ok(a)
    ensures axis.X? ==> (r.Ok? <==> a.x + x < U16_LIMIT) && (r.Ok? ==> r.value == Area(a.x + x, a.y, SatSub(a.w, x), a.h))
    ensures axis.Y? ==> (r.Ok? <==> a.y + y < U16_LIMIT) && (r.Ok? ==> r.value == Area(a.x, a.y + y, a.w, SatSub(a.h, y)))
    ensures r.Err? ==> r.error == Panic(Overflow)
  {
    match axis
    case X => L.OffsetArea(a, x, 0)
    case Y => L.OffsetArea(a, 0, y)
    case Z => Ok(a)
  }

  /** The accumulators after a child of size `s`: a sum along the stack's axis, which
      panics when it leaves `u16`, and a maximum across it. */
  function Accumulate(axis: Axis, x: U16, y: U16, s: Size): (r: Result<(U16, U16)>)
    ensures r.Ok? ==> r.value.0 >= x && r.value.1 >= y
    ensures r.Err? <==> (axis.X? && x + s.w >= U16_LIMIT) || (axis.Y? && y + s.h >= U16_LIMIT)
    ensures r.Err? ==> r.error == Panic(Overflow)
    ensures axis.X? && r.Ok? ==> r.value == (x + s.w, Max(y, s.h))
    ensures axis.Y? && r.Ok? ==> r.value == (Max(x, s.w), y + s.h)
    ensures axis.Z? ==> r == Ok((Max(x, s.w), Max(y, s.h)))
  {
    match axis
    case X => (match AddU16(x, s.w) case Err(e) => Err(e) case Ok(nx) => Ok((nx, Max(y, s.h))))
    case Y => (match AddU16(y, s.h) case Err(e) => Err(e) case Ok(ny) => Ok((Max(x, s.w), ny)))
    case Z => Ok((Max(x, s.w), Max(y, s.h)))
  }

  /** Every cursor move in `out` from position `n` on goes to or right of and to or
      below the corner of `a`. */
  predicate NotBeforeFrom(out: seq<Command>, n: nat, a: Area)
  {
    forall i :: n <= i < |out| && out[i].MoveTo? ==> out[i].x >= a.x && out[i].y >= a.y
  }

  predicate NotBefore(out: seq<Command>, a: Area)
  {
    NotBeforeFrom(out, 0, a)
  }

  /** `render` of a widget on an engine whose area is `a`. The area only ever moves
      right and down (`DrawingStaysInside` adds that no cursor move goes left of or
      above where it started). */
  function Drawing(w: Widget, a: Area): (r: Drawn)
    ensures r.area.x >= a.x && r.area.y >= a.y
    decreases w, 1, 0
  {
    match w
    case Label(s) => Drawn(a, [MoveTo(a.x, a.y), Print(s)], Ok(Some(Size(Truncate(|s|), 1))))
    case Stack(axis, items) =>
      var gate := L.StackGate(axis, |items|);
      (match ExpectMin(a, gate.w, gate.h)
       case Err(e) => Drawn(a, [], Err(e))
       case Ok(_) => DrawingFrom(w, a, 0, 0, 0, []))
    case Border(child) =>
      if a.w == 0 || a.h == 0 then Drawn(a, [], Ok(None))
      else
        (match BorderArea(a)
         case Err(e) => Drawn(a, [], Err(e))
         case Ok(inner) => Drawing(child, inner))
    case _ =>
      match ProxyArea(w, a)
      case Err(e) => Drawn(a, [], Err(e))
      case Ok(inner) => Drawing(Get(w), inner)
  }

  /** A stack's child: `None` measures nothing and leaves the engine alone. */
  function DrawingItem(w: Widget, j: nat, a: Area): (r: Drawn)
    requires w.Stack? && j < |w.items|
    ensures r.area.x >= a.x && r.area.y >= a.y
    decreases w, 0, 0
  {
    var item := w.items[j];
    if item.Nil? then Drawn(a, [], Ok(None)) else Drawing(item.item, a)
  }

  /** The loop of a stack from child `k` on: `a` is the engine's area as the previous
      child left it, `x`/`y` the accumulators, `out` the commands queued so far. */
  function DrawingFrom(w: Widget, a: Area, k: nat, x: U16, y: U16, out: seq<Command>): (r: Drawn)
    requires w.Stack? && k <= |w.items|
    ensures out <= r.out
    ensures r.area.x >= a.x && r.area.y >= a.y
    decreases w, 0, |w.items| - k
  {
    if k == |w.items| then Drawn(a, out, Ok(Some(Size(x, y))))
    else
      match StepArea(w.axis, a, x, y)
      case Err(e) => Drawn(a, out, Err(e))
      case Ok(inner) =>
        var d := DrawingItem(w, L.Visit(w.axis, |w.items|, k), inner);
        if d.res.Err? then Drawn(d.area, out + d.out, d.res)
        else
          match Accumulate(w.axis, x, y, UnwrapOr(d.res.value))
          case Err(e) => Drawn(d.area, out + d.out, Err(e))
          case Ok(next) => DrawingFrom(w, d.area, k + 1, next.0, next.1, out + d.out)
  }

  /** No cursor move of a widget's drawing goes left of or above the area it was
      given. */
  lemma DrawingStaysInside(w: Widget, a: Area)
    ensures NotBefore(Drawing(w, a).out, a)
    decreases w, 1, 0
  {
    match w
    case Label(s) =>
    case Stack(axis, items) =>
      var gate := L.StackGate(axis, |items|);
      if ExpectMin(a, gate.w, gate.h).Ok? {
        FromStaysInside(w, a, 0, 0, 0, []);
      }
    case Border(child) =>
      if a.w != 0 && a.h != 0 && BorderArea(a).Ok? {
        DrawingStaysInside(child, BorderArea(a).value);
      }
    case _ =>
      if ProxyArea(w, a).Ok? {
        DrawingStaysInside(Get(w), ProxyArea(w, a).value);
      }
  }

  lemma ItemStaysInside(w: Widget, j: nat, a: Area)
    requires w.Stack? && j < |w.items|
    ensures NotBefore(DrawingItem(w, j, a).out, a)
    decreases w, 0, 0
  {
    if !w.items[j].Nil? {
      DrawingStaysInside(w.items[j].item, a);
    }
  }

  /** The stack loop's own commands, after the `|out|` already queued, stay right of
      and below the area it starts from. */
  lemma {:induction false} FromStaysInside(w: Widget, a: Area, k: nat, x: U16, y: U16, out: seq<Command>)
    requires w.Stack? && k <= |w.items|
    ensures NotBeforeFrom(DrawingFrom(w, a, k, x, y, out).out, |out|, a)
    decreases w, 0, |w.items| - k
  {
    if k < |w.items| {
      var step := StepArea(w.axis, a, x, y);
      if step.Ok? {
        var j := L.Visit(w.axis, |w.items|, k);
        var d := DrawingItem(w, j, step.value);
        ItemStaysInside(w, j, step.value);
        if d.res.Ok? {
          var next := Accumulate(w.axis, x, y, UnwrapOr(d.res.value));
          if next.Ok? {
            FromStaysInside(w, d.area, k + 1, next.value.0, next.value.1, out + d.out);
          }
        }
      }
    }
  }

  // ---- What the engine shows ---------------------------------------------------

  function Digit(d: nat): (c: char)
    requires d < 10
  {
    "0123456789"[d]
  }

  /** A number in decimal, as `{}` formats it. */
  function NatText(n: nat): (r: string)
    ensures |r| >= 1
  {
    if n < 10 then [Digit(n)] else NatText(n / 10) + [Digit(n % 10)]
  }

  /** An area as `{:?}` formats a `[u16; 4]`. */
  function AreaText(a: Area): string
  {
    "[" + NatText(a.x) + ", " + NatText(a.y) + ", " + NatText(a.w) + ", " + NatText(a.h) + "]"
  }

  /** The message of a render error, as `{error}` formats it. */
  function ErrorText(e: Error): (r: string)
    ensures |r| > 0
    ensures e.NoSpace? ==> |r| > 10 && r[..10] == "no space ("
  {
    match e
    case NoSpace(a, w, h) =>
      "no space (" + AreaText(a) + " < " + NatText(if w < 0 then 0 else w) + "x" + NatText(if h < 0 then 0 else h) + ")"
    case Io => "i/o error"
    case Disconnected => "disconnected"
    case WindowClosed => "window closed"
    case Panic(_) => "panic"
  }

  /** One `render` of the engine on a `screen`-sized terminal: the commands it queues
      and its result. The area is reset to the whole screen first, whatever earlier
      renders left in it; an error of the widget is shown in red at the top left and
      swallowed, while a panic stops the program. */
  function Frame(w: Widget, screen: Size): (seq<Command>, Result<()>)
  {
    var d := Drawing(w, Area(0, 0, screen.w, screen.h));
    if d.res.Err? && d.res.error.Panic? then (ClearCommands + d.out, Err(d.res.error))
    else if d.res.Err? then
      (ClearCommands + d.out + ClearCommands + [Foreground(Red), MoveTo(0, 0), Print(ErrorText(d.res.error))], Ok(()))
    else (ClearCommands + d.out, Ok(()))
  }

  /** What a frame shows: the widget's drawing after the clear commands; a widget error
      shown in red at the top left and swallowed; a panic as the frame's result. */
  lemma FrameShows(w: Widget, screen: Size)
    ensures |Frame(w, screen).0| >= |ClearCommands| && Frame(w, screen).0[..|ClearCommands|] == ClearCommands
    ensures var d, f := Drawing(w, Area(0, 0, screen.w, screen.h)), Frame(w, screen);
            f.1.Err? <==> d.res.Err? && d.res.error.Panic?
    ensures var d, f := Drawing(w, Area(0, 0, screen.w, screen.h)), Frame(w, screen);
            f.1.Err? ==> f.1.error == d.res.error
    ensures var d, f := Drawing(w, Area(0, 0, screen.w, screen.h)), Frame(w, screen);
            d.res.Ok? ==> f == (ClearCommands + d.out, Ok(()))
    ensures var d, f := Drawing(w, Area(0, 0, screen.w, screen.h)), Frame(w, screen);
            d.res.Err? && !d.res.error.Panic? ==>
              f.1 == Ok(()) && f.0[|f.0| - 3..] == [Foreground(Red), MoveTo(0, 0), Print(ErrorText(d.res.error))]
  {
  }

  /** What the application does with the event in hand: whether it calls `exit()` on
      the engine, and what its `handle` returns. */
  datatype Reaction = Reaction(exit: bool, res: Result<bool>)

  /** The state the main loop threads from round to round: every command queued so
      far, the last result, the events still queued, the exit flag, the event in
      hand, the area the last render left, the application's own state, and how many
      renders have read the terminal size. */
  datatype Looped<S> = Looped(out: seq<Command>, res: Result<()>, left: seq<L.Event>, exited: bool,
                              event: Option<L.Event>, area: Area, app: S, renders: nat)

  /** One round of the main loop from state `s`. The application is rendered as
      `view` shows its state, on the terminal size read at this render; then the next
      event comes off the channel and the application reacts, which may change its
      state. A frame that panics ends the round before the channel is read; a
      closed, empty channel is an error; `exit()` queues the cleanup and raises the
      flag. */
  function Turn<S>(view: S -> Widget, screen: nat -> Size, respond: (S, L.Event) -> (S, Reaction), s: Looped<S>): (r: Looped<S>)
    ensures s.out + Frame(view(s.app), screen(s.renders)).0 <= r.out
    ensures r.renders == s.renders + 1
    ensures r.res.Ok? ==> s.left != [] && r.left == s.left[1..] && r.event == Some(s.left[0])
                          && r.app == respond(s.app, s.left[0]).0
    ensures r.res.Ok? && !r.exited ==> r.out == s.out + Frame(view(s.app), screen(s.renders)).0
  {
    var size := screen(s.renders);
    var frame := Frame(view(s.app), size);
    var area := Drawing(view(s.app), Area(0, 0, size.w, size.h)).area;
    if frame.1.Err? then s.(out := s.out + frame.0, res := frame.1, area := area, renders := s.renders + 1)
    else if s.left == [] then s.(out := s.out + frame.0, res := Err(Disconnected), area := area, renders := s.renders + 1)
    else
      var reacted := respond(s.app, s.left[0]);
      Looped(s.out + frame.0 + (if reacted.1.exit then CleanupCommands else []),
             if reacted.1.res.Err? then Err(reacted.1.res.error) else Ok(()),
             s.left[1..], s.exited || reacted.1.exit, Some(s.left[0]), area, reacted.0, s.renders + 1)
  }

  /** The main loop after `setup`, from state `s`: rounds follow each other while
      they succeed with the flag down. */
  function Rounds<S>(view: S -> Widget, screen: nat -> Size, respond: (S, L.Event) -> (S, Reaction), s: Looped<S>): Looped<S>
    decreases |s.left|
  {
    var t := Turn(view, screen, respond, s);
    if t.res.Err? || t.exited then t else Rounds(view, screen, respond, t)
  }

  /** The application's state after it has reacted to `events` in turn. */
  function Replay<S>(respond: (S, L.Event) -> (S, Reaction), app: S, events: seq<L.Event>): S
    decreases |events|
  {
    if events == [] then app else Replay(respond, respond(app, events[0]).0, events[1..])
  }

  /** Rendered before each of `events` and once after the last, from render `k` on,
      the application never panics, and its reactions neither fail nor exit. */
  predicate Quiet<S>(view: S -> Widget, screen: nat -> Size, respond: (S, L.Event) -> (S, Reaction),
                     app: S, events: seq<L.Event>, k: nat)
    decreases |events|
  {
    Frame(view(app), screen(k)).1.Ok?
    && (events != [] ==>
          var reacted := respond(app, events[0]);
          !reacted.1.exit && reacted.1.res.Ok? && Quiet(view, screen, respond, reacted.0, events[1..], k + 1))
  }

  /** The frames of the application's successive states while it reacts to `events`:
      one before each event and one after the last, from render `k` on. */
  function Shown<S>(view: S -> Widget, screen: nat -> Size, respond: (S, L.Event) -> (S, Reaction),
                    app: S, events: seq<L.Event>, k: nat): seq<Command>
    decreases |events|
  {
    Frame(view(app), screen(k)).0
    + (if events == [] then [] else Shown(view, screen, respond, respond(app, events[0]).0, events[1..], k + 1))
  }

  /** `n` copies of the same frame. */
  function Frames(frame: seq<Command>, n: nat): (r: seq<Command>)
    ensures |r| == |frame| * n
  {
    if n == 0 then [] else frame + Frames(frame, n - 1)
  }

  /** The loop only ever appends: what was queued before it stays at the front,
      followed by at least one frame. */
  lemma {:induction false} RoundsAppend<S>(view: S -> Widget, screen: nat -> Size, respond: (S, L.Event) -> (S, Reaction), s: Looped<S>)
    ensures s.out + Frame(view(s.app), screen(s.renders)).0 <= Rounds(view, screen, respond, s).out
    decreases |s.left|
  {
    var t := Turn(view, screen, respond, s);
    if !(t.res.Err? || t.exited) {
      RoundsAppend(view, screen, respond, t);
    }
  }

  /** The loop returns `Ok` only once the flag is up. */
  lemma {:induction false} RoundsOkExited<S>(view: S -> Widget, screen: nat -> Size, respond: (S, L.Event) -> (S, Reaction), s: Looped<S>)
    ensures Rounds(view, screen, respond, s).res.Ok? ==> Rounds(view, screen, respond, s).exited
    decreases |s.left|
  {
    var t := Turn(view, screen, respond, s);
    if !(t.res.Err? || t.exited) {
      RoundsOkExited(view, screen, respond, t);
    }
  }

  /** With the flag already up the loop makes exactly one round. */
  lemma RoundsExitedOnce<S>(view: S -> Widget, screen: nat -> Size, respond: (S, L.Event) -> (S, Reaction), s: Looped<S>)
    requires s.exited && s.left != []
    requires Frame(view(s.app), screen(s.renders)).1.Ok? && respond(s.app, s.left[0]).1.res.Ok?
    ensures var size, reacted := screen(s.renders), respond(s.app, s.left[0]);
            Rounds(view, screen, respond, s)
              == Looped(s.out + Frame(view(s.app), size).0 + (if reacted.1.exit then CleanupCommands else []),
                        Ok(()), s.left[1..], true, Some(s.left[0]),
                        Drawing(view(s.app), Area(0, 0, size.w, size.h)).area, reacted.0, s.renders + 1)
  {
  }

  /** With the flag down and an application that never panics, fails or exits, the
      loop shows the frames of its successive states, one per queued event and one
      more, then stops on the closed channel with every event consumed, the last one
      in hand, and the application in the state its reactions led to. */
  lemma {:induction false} RoundsUntilDisconnected<S>(view: S -> Widget, screen: nat -> Size,
                                                      respond: (S, L.Event) -> (S, Reaction), s: Looped<S>)
    requires !s.exited && Quiet(view, screen, respond, s.app, s.left, s.renders)
    ensures var r := Rounds(view, screen, respond, s);
            r.out == s.out + Shown(view, screen, respond, s.app, s.left, s.renders)
            && r.res == Err(Disconnected) && r.left == [] && !r.exited
            && r.event == (if s.left == [] then s.event else Some(s.left[|s.left| - 1]))
            && r.app == Replay(respond, s.app, s.left) && r.renders == s.renders + |s.left| + 1
    decreases |s.left|
  {
    var frame := Frame(view(s.app), screen(s.renders)).0;
    if s.left == [] {
      assert frame + [] == frame;
    } else {
      var t := Turn(view, screen, respond, s);
      RoundsUntilDisconnected(view, screen, respond, t);
      Associative(s.out, frame, Shown(view, screen, respond, t.app, t.left, t.renders));
      if t.left != [] {
        assert t.left[|t.left| - 1] == s.left[|s.left| - 1];
      }
    }
  }

  /** An application whose reactions leave its state as it is, on a terminal that
      keeps its size, shows the same frame every round. */
  lemma {:induction false} ShownStill<S>(view: S -> Widget, screen: nat -> Size, respond: (S, L.Event) -> (S, Reaction),
                                         app: S, events: seq<L.Event>, k: nat)
    requires forall e :: respond(app, e).0 == app
    requires forall n :: screen(n) == screen(k)
    ensures Shown(view, screen, respond, app, events, k) == Frames(Frame(view(app), screen(k)).0, |events| + 1)
    decreases |events|
  {
    var frame := Frame(view(app), screen(k)).0;
    if events == [] {
      assert frame + [] == frame;
    } else {
      ShownStill(view, screen, respond, app, events[1..], k + 1);
      assert Frame(view(app), screen(k + 1)).0 == frame;
    }
  }

  /** The engine of a terminal session. Input events arrive on a channel, modelled as
      the queue `input`; queued commands accumulate in `output`. */
  class Engine {
    var area: Area
    var output: seq<Command>
    var event: Option<L.Event>
    var exited: bool
    var input: seq<L.Event>

    /** `harness()`: an engine with an empty screen area, no event, not exited, and
        the events a test sends it. */
    constructor Harness(pending: seq<L.Event>)
      ensures area == Area(0, 0, 0, 0) && output == [] && event == None && !exited
      ensures input == pending
    {
      area := Area(0, 0, 0, 0);
      output := [];
      event := None;
      exited := false;
      input := pending;
    }

    /** `exited()`: the exit flag. */
    function Exited(): (r: bool)
      reads this
      ensures r <==> exited
    {
      exited
    }

    /** `setup()`: enter the alternate screen and hide the cursor. */
    method Setup()
      modifies this
      ensures output == old(output) + SetupCommands
      ensures area == old(area) && event == old(event) && exited == old(exited) && input == old(input)
    {
      output := output + SetupCommands;
    }

    /** `cleanup()`: restore colours and cursor and leave the alternate screen. */
    method Cleanup()
      modifies this
      ensures output == old(output) + CleanupCommands
      ensures area == old(area) && event == old(event) && exited == old(exited) && input == old(input)
    {
      output := output + CleanupCommands;
    }

    /** `exit()`: raise the flag, then clean up. */
    method Exit()
      modifies this
      ensures exited
      ensures output == old(output) + CleanupCommands
      ensures area == old(area) && event == old(event) && input == old(input)
    {
      exited := true;
      Cleanup();
    }

    /** `clear()`. */
    method Clear()
      modifies this
      ensures output == old(output) + ClearCommands
      ensures area == old(area) && event == old(event) && exited == old(exited) && input == old(input)
    {
      output := output + ClearCommands;
    }

    /** `put(x, y, text)`: move the cursor, then print. */
    method Put(x: U16, y: U16, text: string)
      modifies this
      ensures output == old(output) + [MoveTo(x, y), Print(text)]
      ensures area == old(area) && event == old(event) && exited == old(exited) && input == old(input)
    {
      output := output + [MoveTo(x, y), Print(text)];
    }

    /** `write_error(msg)`: clear the screen and print the message in red at the
        top left. */
    method WriteError(msg: string)
      modifies this
      ensures output == old(output) + ClearCommands + [Foreground(Red), MoveTo(0, 0), Print(msg)]
      ensures area == old(area) && event == old(event) && exited == old(exited) && input == old(input)
    {
      Clear();
      output := output + [Foreground(Red)];
      Put(0, 0, msg);
    }

    /** `area(f)`: replace the area with `f` of it; nothing else changes. */
    method SetArea(alter: Area -> Area)
      modifies this
      ensures area == alter(old(area))
      ensures output == old(output) && event == old(event) && exited == old(exited) && input == old(input)
    {
      area := alter(area);
    }

    /** A widget's `render` on this engine, proved against `Drawing`: the area it
        leaves, the commands it queues and its result. */
    method Draw(w: Widget) returns (r: Result<Option<Size>>)
      modifies this
      ensures area == Drawing(w, old(area)).area
      ensures output == old(output) + Drawing(w, old(area)).out
      ensures r == Drawing(w, old(area)).res
      ensures event == old(event) && exited == old(exited) && input == old(input)
      decreases w
    {
      match w
      case Label(s) =>
        Put(area.x, area.y, s);
        r := Ok(Some(Size(Truncate(|s|), 1)));
      case Border(child) =>
        if area.w == 0 || area.h == 0 {
          return Ok(None);
        }
        var inner := BorderArea(area);
        if inner.Err? {
          return Err(inner.error);
        }
        area := inner.value;
        r := Draw(child);
      case Stack(axis, items) =>
        r := DrawStack(w);
      case Offset(dx, dy, child) =>
        var moved := L.OffsetArea(area, dx, dy);
        if moved.Err? {
          return Err(moved.error);
        }
        area := moved.value;
        r := Draw(child);
      case _ =>
        area := ProxyArea(w, area).value;
        r := Draw(Get(w));
    }

    /** `Rows`, `Columns`, `Layers` and `Stacked`: the size gate, then the loop over
        the children with its running `x`/`y`. */
    method DrawStack(w: Widget) returns (r: Result<Option<Size>>)
      requires w.Stack?
      modifies this
      ensures area == Drawing(w, old(area)).area
      ensures output == old(output) + Drawing(w, old(area)).out
      ensures r == Drawing(w, old(area)).res
      ensures event == old(event) && exited == old(exited) && input == old(input)
      decreases w, 0
    {
      var items := w.items;
      var gate := L.StackGate(w.axis, |items|);
      if area.w < gate.w || area.h < gate.h {
        return Err(NoSpace(area, gate.w, gate.h));
      }
      ghost var start := output;
      ghost var written: seq<Command> := [];
      var x: U16, y: U16 := 0, 0;
      var k := 0;
      while k < |items|
        invariant 0 <= k <= |items|
        invariant output == start + written
        invariant Drawing(w, old(area)) == DrawingFrom(w, area, k, x, y, written)
        invariant start == old(output)
        invariant event == old(event) && exited == old(exited) && input == old(input)
        decreases |items| - k
      {
        var moved := StepArea(w.axis, area, x, y);
        if moved.Err? {
          return Err(moved.error);
        }
        area := moved.value;
        var j := L.Visit(w.axis, |items|, k);
        ghost var d := DrawingItem(w, j, moved.value);
        var measured: Option<Size> := None;
        if !items[j].Nil? {
          var sub := Draw(items[j].item);
          Associative(start, written, d.out);
          written := written + d.out;
          if sub.Err? {
            return sub;
          }
          measured := sub.value;
        } else {
          assert written + d.out == written;
        }
        var next := Accumulate(w.axis, x, y, UnwrapOr(measured));
        if next.Err? {
          return Err(next.error);
        }
        x, y := next.value.0, next.value.1;
        k := k + 1;
      }
      r := Ok(Some(Size(x, y)));
    }

    /** `render(widget)`: clear, reset the area to the whole `screen`, render, show an
        error instead of returning it, flush. Proved against `Frame`. */
    method Render(w: Widget, screen: Size) returns (r: Result<()>)
      modifies this
      ensures output == old(output) + Frame(w, screen).0
      ensures r == Frame(w, screen).1
      ensures area == Drawing(w, Area(0, 0, screen.w, screen.h)).area
      ensures event == old(event) && exited == old(exited) && input == old(input)
    {
      Clear();
      area := Area(0, 0, screen.w, screen.h);
      ghost var d := Drawing(w, area);
      ghost var start := old(output);
      var drawn := Draw(w);
      Associative(start, ClearCommands, d.out);
      if drawn.Err? {
        if drawn.error.Panic? {
          return Err(drawn.error);
        }
        ghost var shown := ClearCommands + [Foreground(Red), MoveTo(0, 0), Print(ErrorText(d.res.error))];
        WriteError(ErrorText(drawn.error));
        Associative(start, ClearCommands + d.out, shown);
        Associative(start + ClearCommands, d.out, shown);
        Associative(ClearCommands, d.out, shown);
      }
      r := Ok(());
    }

    /** `handle(widget)`: store the next event from the channel, then let the
        application react to it with its state as it stands; it may call `exit()`,
        change its state, or fail. With no event left the channel is closed. */
    method Handle<S>(app: S, respond: (S, L.Event) -> (S, Reaction)) returns (r: Result<()>, next: S)
      modifies this
      ensures old(input) == [] ==> r == Err(Disconnected) && next == app && event == old(event) && input == old(input)
                                   && output == old(output) && exited == old(exited)
      ensures old(input) != [] ==>
                var reacted := respond(app, old(input)[0]);
                event == Some(old(input)[0]) && input == old(input)[1..] && next == reacted.0
                && exited == (old(exited) || reacted.1.exit)
                && output == old(output) + (if reacted.1.exit then CleanupCommands else [])
                && r == (if reacted.1.res.Err? then Err(reacted.1.res.error) else Ok(()))
      ensures area == old(area)
    {
      next := app;
      if input == [] {
        return Err(Disconnected), next;
      }
      event := Some(input[0]);
      input := input[1..];
      var reacted := respond(app, event.value);
      next := reacted.0;
      if reacted.1.exit {
        Exit();
      }
      if reacted.1.res.Err? {
        return Err(reacted.1.res.error), next;
      }
      r := Ok(());
    }

    /** The main loop: set up once, then render and handle until the exit flag is
        up after a handle; an error ends the loop and is returned. The application
        starts in state `app`; the terminal size is read at every render. Proved
        against `Rounds` from the state after `setup`. */
    method Run<S>(view: S -> Widget, screen: nat -> Size, respond: (S, L.Event) -> (S, Reaction), app: S) returns (r: Result<()>)
      modifies this
      ensures var l := Rounds(view, screen, respond, Looped(old(output) + SetupCommands, Ok(()), old(input), old(exited), old(event), old(area), app, 0));
              output == l.out && r == l.res && input == l.left && exited == l.exited && event == l.event && area == l.area
      ensures old(output) + SetupCommands + Frame(view(app), screen(0)).0 <= output
      ensures r.Ok? ==> exited
      ensures old(exited) && old(input) != [] && Frame(view(app), screen(0)).1.Ok? && respond(app, old(input)[0]).1.res.Ok? ==>
                r == Ok(()) && event == Some(old(input)[0])
                && output == old(output) + SetupCommands + Frame(view(app), screen(0)).0
                             + (if respond(app, old(input)[0]).1.exit then CleanupCommands else [])
    {
      ghost var start := Looped(output + SetupCommands, Ok(()), input, exited, event, area, app, 0);
      RoundsAppend(view, screen, respond, start);
      RoundsOkExited(view, screen, respond, start);
      if exited && input != [] && Frame(view(app), screen(0)).1.Ok? && respond(app, input[0]).1.res.Ok? {
        RoundsExitedOnce(view, screen, respond, start);
      }
      Setup();
      var last, renders;
      r, last, renders := Loop(view, screen, respond, app);
    }

    /** The render / handle rounds of the main loop, after `setup`: exactly `Rounds`.
        It also gives back the application's last state and the number of renders. */
    method Loop<S>(view: S -> Widget, screen: nat -> Size, respond: (S, L.Event) -> (S, Reaction), app: S)
      returns (r: Result<()>, last: S, renders: nat)
      modifies this
      ensures Looped(output, r, input, exited, event, area, last, renders)
           == Rounds(view, screen, respond, Looped(old(output), Ok(()), old(input), old(exited), old(event), old(area), app, 0))
    {
      last, renders := app, 0;
      ghost var whole := Rounds(view, screen, respond, Looped(output, Ok(()), input, exited, event, area, last, renders));
      while true
        invariant Rounds(view, screen, respond, Looped(output, Ok(()), input, exited, event, area, last, renders)) == whole
        decreases |input|
      {
        r, last := Round(view, screen, respond, last, renders);
        renders := renders + 1;
        if r.Err? || exited {
          return;
        }
      }
    }

    /** One render, on the terminal size read as render `k`, and one handle: exactly
        `Turn`. */
    method Round<S>(view: S -> Widget, screen: nat -> Size, respond: (S, L.Event) -> (S, Reaction), app: S, k: nat)
      returns (r: Result<()>, next: S)
      modifies this
      ensures Looped(output, r, input, exited, event, area, next, k + 1)
           == Turn(view, screen, respond, Looped(old(output), Ok(()), old(input), old(exited), old(event), old(area), app, k))
    {
      next := app;
      r := Render(view(app), screen(k));
      if r.Err? {
        return;
      }
      r, next := Handle(app, respond);
    }
  }

  // ---- Properties of the context-state engine ----------------------------------

  /** A label prints at the engine's origin and reports its length whatever the
      area: there is no space check, where the value-passing engine refuses text
      wider than the area. */
  lemma LabelIgnoresSpace(s: string, a: Area)
    ensures Drawing(Label(s), a) == Drawn(a, [MoveTo(a.x, a.y), Print(s)], Ok(Some(Size(Truncate(|s|), 1))))
    ensures a.w < Truncate(|s|) ==> L.Render(L.Text(s), a).res.Err? && Drawing(Label(s), a).res.Ok?
  {
  }

  /** `Fixed` reports its child's measurement, not the fixed size, and the value-
      passing engine's `Fix` reports the bound on the fixed axis instead. */
  lemma FixedReportsChild(n: U16, s: string, a: Area)
    requires n != Truncate(|s|) && a.h >= 1 && a.w >= n && n >= Truncate(|s|)
    ensures Drawing(Fixed(L.OnX(n), Label(s)), a).res == Ok(Some(Size(Truncate(|s|), 1)))
    ensures L.Render(L.Fixed(L.OnX(n), L.Text(s)), a).res == Ok(Size(n, 1))
  {
    assert L.FixArea(L.OnX(n), a) == Area(a.x, a.y, n, a.h);
  }

  /** `Max` and `Min` write the same areas as the value-passing `Min` and `Max`
      constrain to: the two engines swap the names. */
  lemma ClampsSwapped(b: L.Bound, child: Widget, a: Area)
    ensures ProxyArea(Maximum(b, child), a) == Ok(L.MinArea(b, a))
    ensures ProxyArea(Minimum(b, child), a) == Ok(L.MaxArea(b, a))
    ensures Drawing(Maximum(b, child), a) == Drawing(child, L.MinArea(b, a))
    ensures Drawing(Minimum(b, child), a) == Drawing(child, L.MaxArea(b, a))
  {
  }

  /** Every proxy renders its `get()` child and returns the child's result; the
      area the child leaves is the area the engine keeps. */
  lemma ProxiesForward(w: Widget, a: Area)
    requires IsProxy(w) && ProxyArea(w, a).Ok?
    ensures Drawing(w, a).res == Drawing(Get(w), ProxyArea(w, a).value).res
    ensures Drawing(w, a).area == Drawing(Get(w), ProxyArea(w, a).value).area
    ensures Drawing(w, a).out == Drawing(Get(w), ProxyArea(w, a).value).out
  {
  }

  /** The area is not restored: after an offset label the engine's area is the
      shifted one, so a following sibling starts there. */
  lemma OffsetNotRestored(dx: U16, dy: U16, s: string, a: Area)
    requires a.x + dx < U16_LIMIT && a.y + dy < U16_LIMIT
    ensures Drawing(Offset(dx, dy, Label(s)), a).area == Area(a.x + dx, a.y + dy, SatSub(a.w, dx), SatSub(a.h, dy))
    ensures dx > 0 || dy > 0 ==> Drawing(Offset(dx, dy, Label(s)), a).area != a
  {
  }

  /** A border on an area with no width or no height draws nothing and does not
      render its child; otherwise the child renders one cell in from every edge. */
  lemma BorderFrame(child: Widget, a: Area)
    ensures a.w == 0 || a.h == 0 ==> Drawing(Border(child), a) == Drawn(a, [], Ok(None))
    ensures a.w >= 2 && a.h >= 2 && a.x + a.w < U16_LIMIT && a.y + a.h < U16_LIMIT ==>
              Drawing(Border(child), a) == Drawing(child, Area(a.x + 1, a.y + 1, a.w - 2, a.h - 2))
  {
    if a.w == 0 || a.h == 0 {
      BorderEmpty(child, a);
    } else if a.w >= 2 && a.h >= 2 && a.x + a.w < U16_LIMIT && a.y + a.h < U16_LIMIT {
      var inner := Area(a.x + 1, a.y + 1, a.w - 2, a.h - 2);
      assert BorderArea(a) == Ok(inner);
      BorderInside(child, a);
    }
  }

  lemma BorderEmpty(child: Widget, a: Area)
    requires a.w == 0 || a.h == 0
    ensures Drawing(Border(child), a) == Drawn(a, [], Ok(None))
  {
  }

  lemma BorderInside(child: Widget, a: Area)
    requires a.w >= 2 && a.h >= 2 && a.x + a.w < U16_LIMIT && a.y + a.h < U16_LIMIT
    ensures BorderArea(a).Ok? && Drawing(Border(child), a) == Drawing(child, BorderArea(a).value)
  {
  }

  /** A border one cell wide cannot draw its frame: the debug build stops on `w-2`. */
  lemma BorderTooNarrow(child: Widget, a: Area)
    requires a.w == 1 && a.h >= 1 && a.x + 1 < U16_LIMIT
    ensures Drawing(Border(child), a) == Drawn(a, [], Err(Panic(Underflow)))
  {
    assert BorderArea(a) == Err(Panic(Underflow));
  }

  /** A stack that does not get its minimum area fails before any child renders. */
  lemma StackGateFailsEarly(axis: Axis, items: seq<C.Collected<Widget>>, a: Area)
    requires a.w < L.StackGate(axis, |items|).w || a.h < L.StackGate(axis, |items|).h
    ensures Drawing(Stack(axis, items), a) == Drawn(a, [], Err(NoSpace(a, L.StackGate(axis, |items|).w, L.StackGate(axis, |items|).h)))
  {
  }

  // ---- Rows of labels: the offsets compound --------------------------------------

  /** Labels collected as owned widgets. */
  function Labels(ss: seq<string>): seq<C.Collected<Widget>>
  {
    seq(|ss|, k requires 0 <= k < |ss| => C.Boxed(Label(ss[k])))
  }

  /** 0 + 1 + ... + (k - 1): how far down the engine's area has moved before row `k`. */
  function Stair(k: nat): (r: nat)
    ensures k > 0 ==> r >= k - 1
  {
    if k == 0 then 0 else Stair(k - 1) + (k - 1)
  }

  lemma {:induction false} StairGrows(i: nat, j: nat)
    requires i <= j
    ensures Stair(i) <= Stair(j)
    decreases j - i
  {
    if i < j {
      StairGrows(i, j - 1);
    }
  }

  /** The height left in the area before row `k`: each row's offset is subtracted,
      with saturation, from what the rows before it left. */
  function Shrunk(h: U16, k: nat): (r: U16)
    ensures r <= h
  {
    if k == 0 then h else SatSub(Shrunk(h, k - 1), k - 1)
  }

  /** The commands of labels where `Rows` actually puts them: label `i` at row
      `y + Stair(i + 1)`. */
  function Stairs(ss: seq<string>, x: U16, y: U16): seq<Command>
    requires y + Stair(|ss|) < U16_LIMIT
  {
    if ss == [] then []
    else Stairs(ss[..|ss| - 1], x, y) + [MoveTo(x, y + Stair(|ss|)), Print(ss[|ss| - 1])]
  }

  /** One turn of the `Rows` loop over labels: the area moves down by the running
      height from where it is, the label prints at the new top, and the height grows
      by one. */
  lemma RowsOneStep(ss: seq<string>, here: Area, k: nat, x: U16, out: seq<Command>)
    requires k < |ss| < U16_LIMIT && |ss[k]| < U16_LIMIT && here.y + k < U16_LIMIT
    ensures DrawingFrom(Stack(Y, Labels(ss)), here, k, x, k, out)
         == DrawingFrom(Stack(Y, Labels(ss)), Area(here.x, here.y + k, here.w, SatSub(here.h, k)), k + 1,
                        Max(x, |ss[k]|), k + 1, out + [MoveTo(here.x, here.y + k), Print(ss[k])])
  {
    var w := Stack(Y, Labels(ss));
    var moved := Area(here.x, here.y + k, here.w, SatSub(here.h, k));
    assert w.items[k] == C.Boxed(Label(ss[k]));
    assert L.Visit(Y, |w.items|, k) == k;
    assert StepArea(Y, here, x, k) == Ok(moved);
    var d := Drawn(moved, [MoveTo(here.x, here.y + k), Print(ss[k])], Ok(Some(Size(|ss[k]|, 1))));
    assert DrawingItem(w, k, moved) == d;
    assert Accumulate(Y, x, k, UnwrapOr(d.res.value)) == Ok((Max(x, |ss[k]|), k + 1));
  }

  /** Appending one label to the prefix appends its commands, one step further down. */
  lemma StairsStep(ss: seq<string>, k: nat, x: U16, y: U16)
    requires k < |ss| && y + Stair(k + 1) < U16_LIMIT
    ensures Stairs(ss[..k + 1], x, y) == Stairs(ss[..k], x, y) + [MoveTo(x, y + Stair(k + 1)), Print(ss[k])]
  {
    assert ss[..k + 1][..k] == ss[..k];
  }

  /** The loop from row `k` on, started where the rows before it left the engine: the
      area moved down by `Stair(k)`, the widest of the first `k` labels, and their
      commands. */
  lemma {:induction false} RowsDriftStep(ss: seq<string>, a: Area, k: nat, here: Area, x: U16, out: seq<Command>)
    requires k <= |ss| && |ss| < U16_LIMIT && L.MaxLen(ss) < U16_LIMIT
    requires a.y + Stair(|ss|) < U16_LIMIT && Stair(k) <= Stair(|ss|)
    requires here == Area(a.x, a.y + Stair(k), a.w, Shrunk(a.h, k))
    requires x == L.MaxLen(ss[..k]) && out == Stairs(ss[..k], a.x, a.y)
    ensures DrawingFrom(Stack(Y, Labels(ss)), here, k, x, k, out)
         == Drawn(Area(a.x, a.y + Stair(|ss|), a.w, Shrunk(a.h, |ss|)), Stairs(ss, a.x, a.y),
                  Ok(Some(Size(L.MaxLen(ss), |ss|))))
    decreases |ss| - k
  {
    if k == |ss| {
      assert ss[..k] == ss;
    } else {
      StairGrows(k + 1, |ss|);
      L.MaxLenPrefix(ss, k + 1);
      assert ss[..k + 1][..k] == ss[..k] && ss[..k + 1][k] == ss[k];
      StairsStep(ss, k, a.x, a.y);
      var here' := Area(here.x, here.y + k, here.w, SatSub(here.h, k));
      var x' := Max(x, |ss[k]|);
      var out' := out + [MoveTo(here.x, here.y + k), Print(ss[k])];
      RowsOneStep(ss, here, k, x, out);
      RowsDriftStep(ss, a, k + 1, here', x', out');
    }
  }

  /** `Rows` as written: each label is offset by the running height from the area the
      previous label left, so the offsets add up and label `i` lands on row
      `y + 0 + 1 + ... + i` instead of `y + i`. The engine keeps the last shifted area. */
  lemma RowsDrift(ss: seq<string>, a: Area)
    requires a.w >= 1 && |ss| <= a.h && L.MaxLen(ss) < U16_LIMIT && a.y + Stair(|ss|) < U16_LIMIT
    ensures Drawing(Stack(Y, Labels(ss)), a)
         == Drawn(Area(a.x, a.y + Stair(|ss|), a.w, Shrunk(a.h, |ss|)), Stairs(ss, a.x, a.y),
                  Ok(Some(Size(L.MaxLen(ss), |ss|))))
  {
    var w := Stack(Y, Labels(ss));
    assert ss[..0] == [] && Stairs([], a.x, a.y) == [] && L.MaxLen([]) == 0;
    assert Area(a.x, a.y + Stair(0), a.w, Shrunk(a.h, 0)) == a;
    assert ExpectMin(a, 1, |ss|) == Ok(a);
    assert Drawing(w, a) == DrawingFrom(w, a, 0, 0, 0, []);
    StairGrows(0, |ss|);
    RowsDriftStep(ss, a, 0, a, 0, []);
  }

  /** Three one-row labels in a 10×10 area at the origin land on rows 0, 1 and 3;
      the value-passing stack puts them on rows 0, 1 and 2. */
  lemma RowsDriftExample()
    ensures Drawing(Stack(Y, Labels(["a", "b", "c"])), Area(0, 0, 10, 10)).out
         == [MoveTo(0, 0), Print("a"), MoveTo(0, 1), Print("b"), MoveTo(0, 3), Print("c")]
    ensures L.Render(L.Stacked(Y, L.Labels(["a", "b", "c"])), Area(0, 0, 10, 10)).out
         == [L.Placement(0, 0, "a"), L.Placement(0, 1, "b"), L.Placement(0, 2, "c")]
  {
    ThreeRowsDrift();
    ThreeRowsStacked();
  }

  /** The widest of the three labels "a", "b", "c" is one cell. */
  lemma ThreeLabelsWidth()
    ensures L.MaxLen(["a", "b", "c"]) == 1
  {
    var ss := ["a", "b", "c"];
    assert ss[..2][..1] == ["a"] && ss[..2] == ["a", "b"];
  }

  lemma ThreeRowsDrift()
    ensures Drawing(Stack(Y, Labels(["a", "b", "c"])), Area(0, 0, 10, 10)).out
         == [MoveTo(0, 0), Print("a"), MoveTo(0, 1), Print("b"), MoveTo(0, 3), Print("c")]
  {
    var ss := ["a", "b", "c"];
    ThreeLabelsWidth();
    assert Stair(1) == 0 && Stair(2) == 1 && Stair(3) == 3;
    RowsDrift(ss, Area(0, 0, 10, 10));
    assert ss[..2] == ["a", "b"] && ss[..2][..1] == ["a"];
    assert Stairs(["a"], 0, 0) == [MoveTo(0, 0), Print("a")];
    assert Stairs(["a", "b"], 0, 0) == [MoveTo(0, 0), Print("a"), MoveTo(0, 1), Print("b")];
  }

  lemma ThreeRowsStacked()
    ensures L.Render(L.Stacked(Y, L.Labels(["a", "b", "c"])), Area(0, 0, 10, 10)).out
         == [L.Placement(0, 0, "a"), L.Placement(0, 1, "b"), L.Placement(0, 2, "c")]
  {
    var ss := ["a", "b", "c"];
    ThreeLabelsWidth();
    L.StackYLabels(ss, Area(0, 0, 10, 10));
    assert L.Column(ss, 0, 0) == [L.Placement(0, 0, "a"), L.Placement(0, 1, "b"), L.Placement(0, 2, "c")];
  }

  // ---- Columns of labels: the offsets compound as well -----------------------------

  /** How far right the engine's area has moved once the labels `ss` are drawn in
      `Columns`: each label's offset, the running width before it, is added to the
      area the previous label left. */
  function Lead(ss: seq<string>): nat
  {
    if ss == [] then 0 else Lead(ss[..|ss| - 1]) + L.SumLen(ss[..|ss| - 1])
  }

  lemma {:induction false} LeadPrefix(ss: seq<string>, k: nat)
    requires k <= |ss|
    ensures Lead(ss[..k]) <= Lead(ss)
    decreases |ss| - k
  {
    if k == |ss| {
      assert ss[..k] == ss;
    } else {
      LeadPrefix(ss, k + 1);
      var p := ss[..k + 1];
      assert p[..|p| - 1] == ss[..k];
      assert Lead(p) == Lead(ss[..k]) + L.SumLen(ss[..k]);
    }
  }

  /** The commands of labels where `Columns` actually puts them: label `i` at column
      `x + Lead(ss[..i + 1])`. */
  function Strides(ss: seq<string>, x: U16, y: U16): seq<Command>
    requires x + Lead(ss) < U16_LIMIT
  {
    if ss == [] then []
    else Strides(ss[..|ss| - 1], x, y) + [MoveTo(x + Lead(ss), y), Print(ss[|ss| - 1])]
  }

  /** One turn of the `Columns` loop over labels: the area moves right by the running
      width from where it is, and the label prints at its new left edge. */
  lemma ColumnsOneStep(ss: seq<string>, here: Area, k: nat, x: U16, y: U16, out: seq<Command>)
    requires k < |ss| && here.x + x < U16_LIMIT && x + |ss[k]| < U16_LIMIT
    ensures DrawingFrom(Stack(X, Labels(ss)), here, k, x, y, out)
         == DrawingFrom(Stack(X, Labels(ss)), Area(here.x + x, here.y, SatSub(here.w, x), here.h), k + 1,
                        x + |ss[k]|, Max(y, 1), out + [MoveTo(here.x + x, here.y), Print(ss[k])])
  {
    var w := Stack(X, Labels(ss));
    var moved := Area(here.x + x, here.y, SatSub(here.w, x), here.h);
    assert w.items[k] == C.Boxed(Label(ss[k]));
    assert L.Visit(X, |w.items|, k) == k;
    assert StepArea(X, here, x, y) == Ok(moved);
    var d := Drawn(moved, [MoveTo(here.x + x, here.y), Print(ss[k])], Ok(Some(Size(|ss[k]|, 1))));
    assert DrawingItem(w, k, moved) == d;
    assert Accumulate(X, x, y, UnwrapOr(d.res.value)) == Ok((x + |ss[k]|, Max(y, 1)));
  }

  /** The first `k + 1` labels in `Columns`: the prefix's lead and running width, one
      label further on. */
  lemma ColumnsPrefixStep(ss: seq<string>, k: nat)
    requires k < |ss|
    ensures Lead(ss[..k + 1]) == Lead(ss[..k]) + L.SumLen(ss[..k])
    ensures L.SumLen(ss[..k + 1]) == L.SumLen(ss[..k]) + |ss[k]|
  {
    var p := ss[..k + 1];
    assert p[..|p| - 1] == ss[..k] && p[|p| - 1] == ss[k];
  }

  /** One more label appends its commands at the prefix's lead. */
  lemma StridesStep(ss: seq<string>, x: U16, y: U16, k: nat)
    requires k < |ss| && x + Lead(ss[..k + 1]) < U16_LIMIT && x + Lead(ss[..k]) < U16_LIMIT
    ensures Strides(ss[..k + 1], x, y) == Strides(ss[..k], x, y) + [MoveTo(x + Lead(ss[..k + 1]), y), Print(ss[k])]
  {
    var p := ss[..k + 1];
    assert p[..|p| - 1] == ss[..k] && p[|p| - 1] == ss[k];
  }

  /** Shrinking a width twice is shrinking it by the sum. */
  lemma SatSubTwice(w: nat, p: nat, q: nat)
    ensures SatSub(SatSub(w, p), q) == SatSub(w, p + q)
  {
  }

  /** Where one more label leaves the loop's area and running width: the prefix of
      `k + 1` labels. */
  lemma ColumnsDriftTurn(ss: seq<string>, a: Area, k: nat, here: Area, x: U16)
    requires k < |ss| && L.SumLen(ss) < U16_LIMIT && a.x + Lead(ss) < U16_LIMIT && a.x + Lead(ss[..k]) < U16_LIMIT
    requires here == Area(a.x + Lead(ss[..k]), a.y, SatSub(a.w, Lead(ss[..k])), a.h)
    requires x == L.SumLen(ss[..k])
    ensures here.x + x == a.x + Lead(ss[..k + 1]) < U16_LIMIT
    ensures x + |ss[k]| == L.SumLen(ss[..k + 1]) < U16_LIMIT
    ensures Area(here.x + x, here.y, SatSub(here.w, x), here.h)
         == Area(a.x + Lead(ss[..k + 1]), a.y, SatSub(a.w, Lead(ss[..k + 1])), a.h)
  {
    LeadPrefix(ss, k + 1);
    L.SumLenPrefix(ss, k + 1);
    ColumnsPrefixStep(ss, k);
    SatSubTwice(a.w, Lead(ss[..k]), x);
  }

  /** The loop from column `k` on, started where the labels before it left the
      engine: the area moved right by `Lead(ss[..k])`, the running width, and their
      commands. */
  lemma {:induction false} ColumnsDriftStep(ss: seq<string>, a: Area, k: nat, here: Area, x: U16, y: U16, out: seq<Command>)
    requires k <= |ss| && L.SumLen(ss) < U16_LIMIT && a.x + Lead(ss) < U16_LIMIT && a.x + Lead(ss[..k]) < U16_LIMIT
    requires here == Area(a.x + Lead(ss[..k]), a.y, SatSub(a.w, Lead(ss[..k])), a.h)
    requires x == L.SumLen(ss[..k]) && y == (if k == 0 then 0 else 1) && out == Strides(ss[..k], a.x, a.y)
    ensures DrawingFrom(Stack(X, Labels(ss)), here, k, x, y, out)
         == Drawn(Area(a.x + Lead(ss), a.y, SatSub(a.w, Lead(ss)), a.h), Strides(ss, a.x, a.y),
                  Ok(Some(Size(L.SumLen(ss), if ss == [] then 0 else 1))))
    decreases |ss| - k
  {
    if k == |ss| {
      assert ss[..k] == ss;
    } else {
      ColumnsDriftTurn(ss, a, k, here, x);
      StridesStep(ss, a.x, a.y, k);
      var here', x', y', out' := Area(here.x + x, here.y, SatSub(here.w, x), here.h), x + |ss[k]|, Max(y, 1),
                                 out + [MoveTo(here.x + x, here.y), Print(ss[k])];
      ColumnsOneStep(ss, here, k, x, y, out);
      ColumnsDriftStep(ss, a, k + 1, here', x', y', out');
    }
  }

  /** `Columns` as written: each label is offset by the running width from the area
      the previous label left, so label `i` lands at column `x + Lead(ss[..i + 1])`
      instead of `x` plus the widths before it. The engine keeps the last shifted area. */
  lemma ColumnsDrift(ss: seq<string>, a: Area)
    requires |ss| <= a.w && a.h >= 1 && L.SumLen(ss) < U16_LIMIT && a.x + Lead(ss) < U16_LIMIT
    ensures Drawing(Stack(X, Labels(ss)), a)
         == Drawn(Area(a.x + Lead(ss), a.y, SatSub(a.w, Lead(ss)), a.h), Strides(ss, a.x, a.y),
                  Ok(Some(Size(L.SumLen(ss), if ss == [] then 0 else 1))))
  {
    var w := Stack(X, Labels(ss));
    assert ss[..0] == [] && Strides([], a.x, a.y) == [] && L.SumLen([]) == 0 && Lead([]) == 0;
    assert Area(a.x + 0, a.y, SatSub(a.w, 0), a.h) == a;
    assert ExpectMin(a, |ss|, 1) == Ok(a);
    assert Drawing(w, a) == DrawingFrom(w, a, 0, 0, 0, []);
    LeadPrefix(ss, 0);
    L.SumLenPrefix(ss, 0);
    ColumnsDriftStep(ss, a, 0, a, 0, 0, []);
  }

  /** Labels "ab", "cd" and "ef" in a 20-wide row at the origin print at columns 0, 2
      and 6; the value-passing stack puts them at columns 0, 2 and 4. */
  lemma ColumnsDriftExample()
    ensures Drawing(Stack(X, Labels(["ab", "cd", "ef"])), Area(0, 0, 20, 1)).out
         == [MoveTo(0, 0), Print("ab"), MoveTo(2, 0), Print("cd"), MoveTo(6, 0), Print("ef")]
    ensures L.Render(L.Stacked(X, L.Labels(["ab", "cd", "ef"])), Area(0, 0, 20, 1)).out
         == [L.Placement(0, 0, "ab"), L.Placement(2, 0, "cd"), L.Placement(4, 0, "ef")]
  {
    var ss := ["ab", "cd", "ef"];
    assert ss[..2] == ["ab", "cd"] && ss[..2][..1] == ["ab"] && ss[..1] == ["ab"];
    assert L.SumLen(["ab"]) == 2 && L.SumLen(["ab", "cd"]) == 4 && L.SumLen(ss) == 6;
    assert Lead(["ab"]) == 0 && Lead(["ab", "cd"]) == 2 && Lead(ss) == 6;
    ColumnsDrift(ss, Area(0, 0, 20, 1));
    assert Strides(["ab"], 0, 0) == [MoveTo(0, 0), Print("ab")];
    assert Strides(["ab", "cd"], 0, 0) == [MoveTo(0, 0), Print("ab"), MoveTo(2, 0), Print("cd")];
    L.StackXLabels(ss, Area(0, 0, 20, 1));
    assert L.Row(["ab"], 0, 0) == [L.Placement(0, 0, "ab")];
    assert L.Row(["ab", "cd"], 0, 0) == [L.Placement(0, 0, "ab"), L.Placement(2, 0, "cd")];
  }

  // ---- Layers of labels: no offset, back to front --------------------------------

  /** Labels all printed at one origin, last declared first. */
  function Layered(ss: seq<string>, x: U16, y: U16): (r: seq<Command>)
    ensures |r| == 2 * |ss|
    ensures ss != [] ==> r[..2] == [MoveTo(x, y), Print(ss[|ss| - 1])]
  {
    if ss == [] then [] else [MoveTo(x, y), Print(ss[|ss| - 1])] + Layered(ss[..|ss| - 1], x, y)
  }

  lemma {:induction false} LayeredCons(s: string, ss: seq<string>, x: U16, y: U16)
    ensures Layered([s] + ss, x, y) == Layered(ss, x, y) + [MoveTo(x, y), Print(s)]
    decreases |ss|
  {
    if ss == [] {
      assert [s] + ss == [s] && [s][..0] == [];
    } else {
      var init := ss[..|ss| - 1];
      assert ([s] + ss)[..|ss|] == [s] + init;
      LayeredCons(s, init, x, y);
    }
  }

  /** One turn of the `Layers` loop over labels: the `k`-th label from the back
      prints at the area's origin, which does not move. */
  lemma LayersOneStep(ss: seq<string>, a: Area, k: nat, x: U16, y: U16, out: seq<Command>)
    requires k < |ss| && |ss[|ss| - 1 - k]| < U16_LIMIT
    ensures DrawingFrom(Stack(Z, Labels(ss)), a, k, x, y, out)
         == DrawingFrom(Stack(Z, Labels(ss)), a, k + 1, Max(x, |ss[|ss| - 1 - k]|), Max(y, 1),
                        out + [MoveTo(a.x, a.y), Print(ss[|ss| - 1 - k])])
  {
    var w := Stack(Z, Labels(ss));
    var j := |ss| - 1 - k;
    assert w.items[j] == C.Boxed(Label(ss[j]));
    assert L.Visit(Z, |w.items|, k) == j;
    var d := Drawn(a, [MoveTo(a.x, a.y), Print(ss[j])], Ok(Some(Size(|ss[j]|, 1))));
    assert DrawingItem(w, j, a) == d;
  }

  lemma {:induction false} LayersStep(ss: seq<string>, a: Area, k: nat, x: U16, y: U16, out: seq<Command>)
    requires k <= |ss| && L.MaxLen(ss) < U16_LIMIT
    requires x == L.MaxLen(ss[|ss| - k..]) && y == (if k == 0 then 0 else 1) && out == Layered(ss[|ss| - k..], a.x, a.y)
    ensures DrawingFrom(Stack(Z, Labels(ss)), a, k, x, y, out)
         == Drawn(a, Layered(ss, a.x, a.y), Ok(Some(Size(L.MaxLen(ss), if ss == [] then 0 else 1))))
    decreases |ss| - k
  {
    var n := |ss|;
    if k == n {
      assert ss[n - k..] == ss;
    } else {
      LayersTurn(ss, k, a.x, a.y);
      var x', y', out' := Max(x, |ss[|ss| - 1 - k]|), Max(y, 1), out + [MoveTo(a.x, a.y), Print(ss[|ss| - 1 - k])];
      LayersOneStep(ss, a, k, x, y, out);
      LayersStep(ss, a, k + 1, x', y', out');
    }
  }

  /** One more label from the back: the longest label and the layered commands of the
      longer suffix. */
  lemma LayersTurn(ss: seq<string>, k: nat, x: U16, y: U16)
    requires k < |ss|
    ensures |ss[|ss| - 1 - k]| <= L.MaxLen(ss)
    ensures L.MaxLen(ss[|ss| - (k + 1)..]) == Max(L.MaxLen(ss[|ss| - k..]), |ss[|ss| - 1 - k]|)
    ensures Layered(ss[|ss| - (k + 1)..], x, y) == Layered(ss[|ss| - k..], x, y) + [MoveTo(x, y), Print(ss[|ss| - 1 - k])]
  {
    var n := |ss|;
    var j := n - 1 - k;
    var tail := ss[n - k..];
    assert ss[n - (k + 1)..] == [ss[j]] + tail;
    L.MaxLenCons(ss[j], tail);
    LayeredCons(ss[j], tail, x, y);
  }

  /** `Layers`: every label prints at the area's origin, last declared first, the
      area is left as it was, and the stack reports `(longest label, 1)`. */
  lemma LayersLabels(ss: seq<string>, a: Area)
    requires a.w >= 1 && a.h >= 1 && L.MaxLen(ss) < U16_LIMIT
    ensures Drawing(Stack(Z, Labels(ss)), a)
         == Drawn(a, Layered(ss, a.x, a.y), Ok(Some(Size(L.MaxLen(ss), if ss == [] then 0 else 1))))
  {
    var w := Stack(Z, Labels(ss));
    assert ss[|ss|..] == [] && L.MaxLen([]) == 0;
    assert ExpectMin(a, 1, 1) == Ok(a);
    assert Drawing(w, a) == DrawingFrom(w, a, 0, 0, 0, []);
    LayersStep(ss, a, 0, 0, 0, []);
  }

  // ---- A child's error ends a stack ------------------------------------------------

  /** Child `j` of the stack, drawn on `inner`, failed with the stack's error, was the
      last thing to queue commands, and left the engine's area where it is. */
  predicate ItemFailed(w: Widget, j: nat, inner: Area, r: Drawn)
    requires w.Stack? && j < |w.items|
  {
    var d := DrawingItem(w, j, inner);
    d.res.Err? && d.res == r.res && d.area == r.area && L.EndsWith(r.out, d.out)
  }

  /** The stack loop stops at the first error: either its own `u16` overflow, or the
      error of one of the children still to visit, whose commands are the last queued. */
  lemma {:induction false} StackAborts(w: Widget, a: Area, k: nat, x: U16, y: U16, out: seq<Command>)
    requires w.Stack? && k <= |w.items|
    ensures var r := DrawingFrom(w, a, k, x, y, out);
            r.res.Err? ==> r.res == Err(Panic(Overflow)) ||
                           exists m, inner :: k <= m < |w.items| && ItemFailed(w, L.Visit(w.axis, |w.items|, m), inner, r)
    decreases |w.items| - k
  {
    if k < |w.items| {
      var step := StepArea(w.axis, a, x, y);
      if step.Ok? {
        var j := L.Visit(w.axis, |w.items|, k);
        var d := DrawingItem(w, j, step.value);
        var r := DrawingFrom(w, a, k, x, y, out);
        if d.res.Err? {
          assert r == Drawn(d.area, out + d.out, d.res);
          assert (out + d.out)[|out|..] == d.out;
          assert ItemFailed(w, j, step.value, r);
        } else {
          var next := Accumulate(w.axis, x, y, UnwrapOr(d.res.value));
          if next.Ok? {
            StackAborts(w, d.area, k + 1, next.value.0, next.value.1, out + d.out);
          }
        }
      }
    }
  }

  /** A stack fails only at its gate (with no output), on its own `u16` overflow, or
      with the error of a child that queued the last commands. */
  lemma StackErrors(axis: Axis, items: seq<C.Collected<Widget>>, a: Area)
    ensures var r := Drawing(Stack(axis, items), a);
            r.res.Err? ==> (r.out == [] && r.res.error.NoSpace?) || r.res == Err(Panic(Overflow)) ||
                           exists j, inner :: 0 <= j < |items| && ItemFailed(Stack(axis, items), j, inner, r)
  {
    var w := Stack(axis, items);
    var r := Drawing(w, a);
    var gate := L.StackGate(axis, |items|);
    if ExpectMin(a, gate.w, gate.h).Ok? {
      StackAborts(w, a, 0, 0, 0, []);
      if r.res.Err? && r.res != Err(Panic(Overflow)) {
        var m, inner :| 0 <= m < |items| && ItemFailed(w, L.Visit(axis, |items|, m), inner, r);
        assert ItemFailed(w, L.Visit(axis, |items|, m), inner, r);
      }
    }
  }

  // ---- The engine end to end ------------------------------------------------------

  /** The key events of the text "newline\n". */
  function Keys(s: string): (r: seq<L.Event>)
    ensures |r| == |s|
    ensures forall i :: 0 <= i < |s| ==> r[i] == L.Key(L.Char(s[i]))
  {
    if s == [] then [] else Keys(s[..|s| - 1]) + [L.Key(L.Char(s[|s| - 1]))]
  }

  /** A screen of any size renders a label at the top left after clearing. */
  lemma LabelFrame(s: string, screen: Size)
    ensures Frame(Label(s), screen) == (ClearCommands + [MoveTo(0, 0), Print(s)], Ok(()))
  {
  }

  /** The harness scenario: exit first, then run the label "just a label" with a few
      keys queued. The output holds the cleanup of `exit`, the setup of the run, one
      cleared frame and the label at the top left, and nothing after it. */
  method JustALabel(screen: Size) returns (e: Engine, r: Result<()>)
    ensures r == Ok(())
    ensures e.output == CleanupCommands + SetupCommands + ClearCommands + [MoveTo(0, 0), Print("just a label")]
  {
    e := new Engine.Harness(Keys("newline\n"));
    e.Exit();
    LabelFrame("just a label", screen);
    r := e.Run((w: Widget) => w, (_: nat) => screen, (w: Widget, _: L.Event) => (w, Reaction(false, Ok(false))),
               Label("just a label"));
  }
}
