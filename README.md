# thatsit, modelled in Dafny

thatsit is a small terminal widget toolkit written in Rust. Its repository holds several
successive designs of the same ideas side by side, and they disagree with each other. This
project models each design as written:

- **Focus lists** (`focus.dfy`). A list of items with a "has focus" flag and an optional
  selected index, navigated with wrap-around.
- **Scrolling** (`scroll.dfy`). The offset rule that brings an index into view.
- **Areas and points** (`space.dfy`). The rectangle and point views, and the minimum-size
  gate.
- **The value-passing layout engine** (`layout.dfy`). Widgets render into an area handed to
  them by value. They report the size they used, or a "no space" error, and leave a log of
  text placements.
- **Collections** (`collect.dfy`, `groups.dfy`). The builders that gather children in call
  order: `Collect`, `Collector`, `Stacked`, `FocusStack`, `Rows`, `Columns` and `Layers`.
- **The tab strip** (`tabs.dfy`). Which labels appear, which one is highlighted, and how the
  strip, the spacer and the page are arranged.
- **The context-state terminal engine** (`tui.dfy`). Widgets read and rewrite the engine's
  mutable `area` and never restore it. The engine queues terminal commands, and runs the
  setup / render / handle / exit cycle.
- **The question-and-answer engine** (`repl.dfy`). It has an input and an output buffer.
- **The windowed engine** (`winit.dfy`). This covers the generic main loop, the running
  flag, the key-rollover counter, the dispatch of window events and the removal of closing
  windows. The dispatch is modelled twice: as written, where removing a window panics on a
  `RefCell` that is still borrowed, and as intended, where the window is removed.

`base.dfy` holds the shared vocabulary.
- `u16` and `u32` are integer subset types. Debug-build panics are modelled as the error
  `Panic(reason)`.
- `a + b` on `u16` is `AddU16`, `saturating_sub` is `SatSub`, and `n as u16` is
  `Truncate`.

Objects whose fields the source updates in place are classes with `modifies` clauses:
- `FocusList`, `FocusStack`, `ScrollState`;
- the collectors and groups;
- the three engines.

Each class method is proved against a specification function of the old state.

## Model

The table has a row for each member that models the source or states a property of it. Helper definitions that only name a concept the contracts are written in have no row of their own. These are `Base.Associative`, `Layout.NotBefore`, `Layout.SumLen`, `Layout.Labels`, `Tui.Labels`, `Tui.Stairs`, `Tui.Strides`, `Tui.Lead`, `Tui.IsProxy`, `Tui.UnwrapOr`, `Tui.ItemFailed`, `Tui.Digit`, `Tui.AreaText`, `Tui.Frame`, `Tui.Rounds`, `Tui.Replay`, `Tui.Quiet`, `Tui.Shown`, `Tui.Frames`, `Repl.Skip`, `Repl.Consumed`, `Focus.RemainderUnique` and `Focus.MultipleAtLeast`. The rows that use them name them.

| member | source | states |
|---|---|---|
| Base.Truncate | src/widgets/tui.rs:26 | `n as u16` keeps `n` when it fits, never grows, and differs from `n` by a multiple of 2^16 |
| Base.SatSub | src/widgets/offset.rs:27-28 | saturating subtraction never exceeds `a`, is exact when `a >= b`, and is otherwise 0 |
| Base.AddU16 | src/widgets/offset.rs:25-26 | a `u16` sum succeeds exactly when it fits, and otherwise panics with an overflow |
| Base.Max | src/widgets/max.rs:19-27 | the larger of two values is one of them and bounds both |
| Base.Min | src/widgets/min.rs:19-27 | the smaller of two values is one of them and is bounded by both |
| Space.TupleArrayAgree | src/layouts/mod.rs:86-114 | a tuple and an array with the same four values describe the same rectangle; `size()` is (w, h) |
| Space.NthPair | src/layouts/mod.rs:58-62 | `nth` on a pair picks field 0 or 1 and panics on any other index |
| Space.NthArray | src/layouts/mod.rs:54-56 | `nth` on `[U; 2]` indexes the array and panics past its end |
| Space.PointX | src/layouts/mod.rs:64-67 | `x()` is `nth(0)`, which always succeeds |
| Space.PointY | src/layouts/mod.rs:68-71 | `y()` is `nth(1)`, which always succeeds |
| Space.NthViewsAgree | src/layouts/mod.rs:54-71 | the pair and array views of a point agree wherever either succeeds |
| Space.ExpectMin | src/widgets/space.rs:28-39 | the gate returns the same area exactly when both extents reach the minimum, and otherwise a "no space" error naming the area and the minimum |
| Space.ExpectMinShortSide | src/widgets/space.rs:31 | one dimension that is too short is enough for the error, whatever the other |
| Space.ExpectMinIdempotent | src/widgets/space.rs:28-39 | passing the gate twice gives the same result; a smaller minimum never turns a success into a failure |
| Focus.Selection | src/layouts/focus.rs:96-104 | `select(i)` succeeds exactly when `i < len`, and then sets only the selection to `i`; a failure leaves the state unchanged |
| Focus.NextSelection | src/layouts/focus.rs:107-113 | `select_next`: from nothing it selects 0, failing on an empty list; it steps forward with wrap-around to 0; with a selection on an empty list `len()-1` underflows and panics |
| Focus.PrevSelection | src/layouts/focus.rs:116-122 | `select_prev`: from nothing it selects 0, not the last item; from 0 it wraps to `len-1`, underflowing on an empty list; from any `i` with `0 < i <= len` it selects `i-1` and succeeds |
| Focus.TransitionsKeepInRange | src/layouts/focus.rs:96-122 | from a selection that names an item, none of the selecting transitions leaves a stale index |
| Focus.EmptyListNavigation | src/layouts/focus.rs:96-122 | on an empty list `select(0)` fails; with no selection `select_next` and `select_prev` fail without panicking |
| Focus.PrevUndoesNext | src/layouts/focus.rs:107-122 | `select_prev` undoes `select_next` on a selection that names an item |
| Focus.ModOfSmall | src/layouts/focus.rs:107-113 | an index below `n` is its own remainder modulo `n` |
| Focus.Wrap | src/layouts/focus.rs:107-113 | the index reached after `m` steps around a ring of `n` items names one of the `n` items |
| Focus.WrapIsMod | src/layouts/focus.rs:107-113 | that index is exactly `m % n` |
| Focus.WrapStep | src/layouts/focus.rs:107-113 | one more step around the ring is one wrap-around step from the reduced index |
| Focus.NextTimesLandsOn | src/layouts/focus.rs:107-113 | `k` successful `select_next` calls from index `i` land on `Wrap(i + k, len)`, which `WrapIsMod` shows is `(i + k) % len`, and keep the focus flag |
| Focus.WrapShift | src/layouts/focus.rs:107-113 | reducing before or after adding more steps reaches the same index |
| Focus.NextCycle | src/layouts/focus.rs:107-113 | `len` forward steps from a valid selection return to the start |
| Focus.FocusList.Default | src/layouts/focus.rs:144-147 | `default()` has no items, is unfocused and has nothing selected |
| Focus.FocusList.New | src/layouts/focus.rs:149-152 | `new(items)` takes the items with the default state |
| Focus.FocusList.Get | src/layouts/focus.rs:32-37 | `get()` is the selected item when the selection names one, and nothing when nothing is selected or the index is stale |
| Focus.FocusList.Push | src/layouts/focus.rs:56-58 | `push` appends at the end and leaves the focus flag and the selection unchanged |
| Focus.FocusList.Replace | src/layouts/focus.rs:61-64 | `replace` installs the new items and clears the selection; the focus flag is untouched |
| Focus.FocusList.Focus | src/layouts/focus.rs:73-77 | `focus()` raises the flag, returns true and touches nothing else |
| Focus.FocusList.Unfocus | src/layouts/focus.rs:79-83 | `unfocus()` lowers the flag, returns true and touches nothing else |
| Focus.FocusList.Unselect | src/layouts/focus.rs:90-94 | `unselect()` clears the selection, returns true and keeps the items and the flag |
| Focus.FocusList.Select | src/layouts/focus.rs:96-104 | `select(i)` succeeds exactly when `i` names an item, and then selects it; otherwise nothing changes |
| Focus.FocusList.SelectNext | src/layouts/focus.rs:107-113 | `select_next()` performs `NextSelection` on the list's state; a panic leaves the state as it was |
| Focus.FocusList.SelectPrev | src/layouts/focus.rs:116-122 | `select_prev()` performs `PrevSelection` on the list's state |
| Focus.ThreeStepsScenario | focus.rs:66-90 | on three items, `select(1)` followed by three `select_next()` calls comes back to index 1, and `get()` yields "b" |
| Focus.SelectThenGet | focus.rs:38-43 | `select(i)` followed by `get()` yields the item at `i` when `i` exists; otherwise the selection stays as it was, so `get()` yields whatever was selected before |
| Focus.FocusList.Len | src/layouts/focus.rs:22-24 | `len()` is the number of items; an index `get()` resolves is below it, and an empty list resolves none |
| Scroll.ScrollTarget | scroll.rs:15-27 | scrolling up sets the offset to the index; a visible index keeps the offset; scrolling down moves just far enough, capped at `total`; with `size > 0` and no cap the index ends up visible |
| Scroll.ScrollIdempotent | scroll.rs:15-27 | with `size > 0`, scrolling to the same index twice gives the same offset as once |
| Scroll.ScrollState.Default | scroll.rs:3 | the default state is all zero |
| Scroll.ScrollState.To | scroll.rs:15-27 | `to(index)` sets the offset to `ScrollTarget` and never changes `size` or `total` |
| Collect.Accepts | src/collect.rs:40-56 | `into_collected` and the default `collect` take every argument; `collect_into` has no impl for an owned value or a `&mut` reference |
| Collect.Wrap | src/output.rs:11-46 | a collector call keeps the widget, never produces `None`, boxes owned values and turns only references into `Ref` |
| Collect.WrapAll | src/output.rs:95-99 | a closure's calls give one item each, in call order |
| Collect.WrapAllAppend | src/collect.rs:13-17 | running two closures in turn collects their items in sequence |
| Collect.Debug | src/widgets/layout.rs:10-18 | the `Debug` text of `Box`, `Ref` and `None` under each of the three formats |
| Collect.DebugNamesVariant | src/widgets/layout.rs:10-18 | two values print the same exactly when they are the same variant |
| Collect.Render | src/output.rs:83-91 | `None` renders as `Ok(None)`; `Box` and `Ref` give the wrapped widget's result, errors included |
| Collect.BoxAndRefRenderAlike | src/collect.rs:75-83 | owned and borrowed copies of a widget render alike, and an item's error reaches the caller unchanged |
| Collect.RenderOption | src/output.rs:51-58 | `Option::None` renders as `Ok(None)` and `Some` as its content |
| Collect.Collector.Empty | src/output.rs:95-97 | a fresh collector holds no items |
| Collect.Collector.Add | src/output.rs:101-104 | `add` pushes one item at the end and returns the same collector |
| Collect.Collector.Call | src/output.rs:119-123 | one call appends exactly the wrapped argument and keeps the earlier items |
| Collect.CollectItems | src/output.rs:95-99 | `collect_items` runs the closure once on an empty collector and holds its items in call order |
| Groups.StackOf | src/layouts/stacked.rs:23-35 | `x`/`y`/`z` set the axis and keep one wrapped item per collector call, in call order |
| Groups.StackOfAppend | src/layouts/_scratch.rs:19-31 | splitting the closure in two splits the stack's items in two, in the same order |
| Groups.FocusStack.New | src/layouts/_scratch.rs:67-70 | `FocusStack::new(stack)` keeps the stack's children and starts unfocused with nothing selected |
| Groups.FocusStack.Of | src/layouts/_scratch.rs:71-80 | `FocusStack::x`/`y`/`z` collect the children, then start unfocused with nothing selected |
| Groups.FocusStack.Select | src/layouts/_scratch.rs:82-95 | `select` on a focus stack is bounded by its number of children |
| Groups.Group.New | src/layouts/rows.rs:8-11 | `Rows::new()` (also `Columns::new()` and `Layers::new()`) has no items |
| Groups.Group.Add | src/layouts/rows.rs:15-19 | `add` appends exactly one wrapped item at the end, keeps the earlier items and returns the same group |
| Groups.BuildGroup | src/layouts/columns.rs:16-20 | chained `add` calls on a fresh group leave the wrapped arguments in call order |
| Layout.FixArea | layout.rs:126-141 | `Fix::constrain` sets the tagged extents to the bound and keeps the origin and the other extent |
| Layout.MinArea | layout.rs:162-171 | `Min::constrain` raises each tagged extent to at least the bound and keeps the origin |
| Layout.MaxArea | layout.rs:189-198 | `Max::constrain` lowers each tagged extent to at most the bound and keeps the origin |
| Layout.ClampsMeetAtFix | layout.rs:126-198 | raising to a bound and then lowering to it (or the other way round) gives `Fix`; each clamp is idempotent |
| Layout.FixSize | layout.rs:143-151 | `Fix` reports the bound on a fixed axis and the child's extent on the other |
| Layout.OffsetArea | layout.rs:53-57 | `Offset` moves the origin, panicking when it leaves `u16`, and shrinks the extent with saturation |
| Layout.Render | widget.rs:76-190 | rendering fails only for want of space or on a `u16` overflow; `RenderStaysInside`, `RenderText`, `FixReportsBound`, `BoundsPassThrough`, `RenderStacked`, `StackXLabels`, `StackYLabels`, `StackZLabels` and `StackErrors` state where it places text and what it reports |
| Layout.RenderItem | layout.rs:101-109 | a `None` item renders nothing and reports `(0, 0)`; a boxed or referenced widget fails only as `Render` does |
| Layout.RenderText | widget.rs:114-129 | text succeeds exactly when the area has `len` columns and a row; it then prints at the top left and reports `(len, 1)`, and otherwise fails with "no space" and prints nothing |
| Layout.StackGate | layout.rs:229-253 | the minimum area a stack demands: one cell per child along X or Y, a single cell for Z |
| Layout.Visit | layout.rs:246-250 | the `k`-th child a stack visits exists; Z visits back to front |
| Layout.StackFrom | layout.rs:225-256 | the stack loop from child `k` on keeps every placement written before it |
| Layout.RenderStaysInside | widget.rs:76-190 | no widget places text left of or above the area it is given |
| Layout.ItemStaysInside | widget.rs:76-90 | neither does a collected child |
| Layout.StackStaysInside | layout.rs:225-256 | the stack loop keeps every placement right of and below the stack's area |
| Layout.StackAborts | layout.rs:225-256 | the stack loop stops at the first error: its own `u16` overflow, or the error of a child it visits, whose placements are the last written |
| Layout.StackErrors | layout.rs:225-256 | a stack fails only at its gate (placing nothing), on a `u16` overflow, or with the error of one of its children, the earlier children's placements kept |
| Layout.RenderStacked | layout.rs:225-256 | the `Stacked::render` loop with its `x`/`y` accumulators computes exactly `Render` of the stack: placements, size and error |
| Layout.Activates | widget.rs:182-184 | exactly Enter and Space activate a link; `match_key!` compares only the key code |
| Layout.Handle | widget.rs:76-90 | a reference panics on `handle`; `Link` answers with its action on Enter or Space; the leaves decline the event |
| Layout.LinkIgnoresOtherEvents | widget.rs:180-186 | a key other than Enter or Space, or a non-key event, returns false without the action; an action error surfaces only on an activating key |
| Layout.ForwardingWrappers | widget.rs:76-111 | `Box` forwards render and handle; a reference forwards render only; `Aligned` and `Some` render as their child |
| Layout.OffsetsCompose | layout.rs:53-57 | `Offset(0, 0, _)` changes nothing, and nested offsets add up |
| Layout.FixReportsBound | layout.rs:143-151 | `Fix` prints what its child prints on the fixed area, reports the bound on the fixed axis and the child's measurement on the other, and passes the child's error on |
| Layout.BoundsPassThrough | layout.rs:173-203 | `Min` and `Max` render their child on the clamped area and report its result unchanged |
| Layout.StyledReportsChildSize | widget.rs:138-158 | `Styled` prints only its styled text at the top left and reports the wrapped widget's size; a failure prints nothing |
| Layout.StyledContentReportsOneCell | widget.rs:160-166 | `StyledContent` needs room for its whole text but always reports `(1, 1)` |
| Layout.StackGateFailsEarly | layout.rs:230-247 | a stack below its minimum area fails before rendering any child |
| Layout.FocusStackRendersSelection | focus.rs:159-167 | `FocusStack` renders only its selected child, and `(0, 0)` with no output when nothing is selected or the index is stale |
| Layout.SumLenPrefix | layout.rs:233-234 | the running width before child `k` plus its width never exceeds the total |
| Layout.MaxLen | layout.rs:235 | the longest label bounds every label's length |
| Layout.StackXStep | layout.rs:230-237 | after `k` labels on X the running width is the sum of their lengths and they sit side by side on the top row |
| Layout.StackXTurn | layout.rs:232-235 | one more label on X adds its length to the running width and its placement after the earlier ones |
| Layout.StackXLabels | layout.rs:230-237 | on X, label `k` prints at the sum of the earlier widths, and the stack reports `(sum of widths, 1)` |
| Layout.MaxLenPrefix | layout.rs:235 | the longest of the first `k` labels is no longer than the longest of all |
| Layout.MaxLenBound | layout.rs:235 | a bound on every label's length bounds the longest |
| Layout.Column | layout.rs:238-245 | labels laid out top to bottom, one per row, in order |
| Layout.StackYStep | layout.rs:238-245 | after `k` labels on Y the running height is `k` and label `i` sits on row `y + i` |
| Layout.StackYLabels | layout.rs:238-245 | on Y, label `k` prints `k` rows below the top, and the stack reports `(longest label, count)` |
| Layout.Pile | layout.rs:246-253 | labels printed at one origin, last declared first |
| Layout.StackZStep | layout.rs:246-253 | after `k` children on Z, the last `k` labels are printed back to front at the origin |
| Layout.PileCons | layout.rs:248 | adding a label in front adds its placement at the end of the pile |
| Layout.SuffixMaxLen | layout.rs:250 | the longest label of a suffix is no longer than the longest of all |
| Layout.MaxLenCons | layout.rs:250 | the longest label of `[s] + ss` is the larger of `|s|` and the longest of `ss` |
| Layout.StackZLabels | layout.rs:246-253 | on Z, every label prints at the origin, last declared first, and the stack reports `(longest label, 1)` |
| Layout.StackedOf | layout.rs:213-222 | `Stacked::x`/`y`/`z` set the axis and keep the collected children in call order, each wrapped by its kind |
| Layout.FocusStackOf | focus.rs:137-150 | `FocusStack::x`/`y`/`z` start unfocused with nothing selected, so they render as `(0, 0)` |
| Tabs.Get | src/layouts/tabs.rs:23-25 | `get()` gives the focused page exactly when the focus names a page |
| Tabs.LastShown | src/layouts/tabs.rs:46-48 | the last label shown is the first index from `skip` on that reaches `size`, or the final page |
| Tabs.Strip | src/layouts/tabs.rs:38-48 | the strip holds pages `skip` to `LastShown` in page order, each highlighted exactly when it is the focus |
| Tabs.OnlyFocusHighlighted | src/layouts/tabs.rs:41-45 | at most one label is highlighted, and it is the focused page's |
| Tabs.AddTabs | src/layouts/tabs.rs:33-51 | the `add_tabs` loop with its early `break` appends exactly `Strip` to the container |
| Tabs.TabsGroup | src/layouts/tabs.rs:53-66 | no strip without a side; columns for Left and Right, rows for Top and Bottom |
| Tabs.Layout | src/layouts/tabs.rs:68-88 | just the page without a side; otherwise strip, gap and page for Left and Top, reversed for Right and Bottom; the gap exists only with a selected page |
| Tabs.OppositeSidesMirror | src/layouts/tabs.rs:79-86 | moving the strip to the opposite side reverses the arrangement |
| Tui.Get | src/widgets/fixed.rs:29-36 | `get()` of a proxy is its wrapped child |
| Tui.ProxyArea | src/widgets/tui.rs:30-81 | `Fixed` sets the tagged extents; `Max` raises them with `max` and `Min` lowers them with `min`; `Offset` moves the origin, panicking past `u16`, and shrinks the extent with saturation |
| Tui.BorderArea | src/widgets/tui.rs:186-227 | the inner area is one cell in from every side; it fails exactly when an extent is below 2 or an edge leaves `u16`, with the panic the first failing operation raises |
| Tui.StepArea | src/widgets/crossterm.rs:99-121 | before each child, `Columns` offsets the current area by the running width and `Rows` by the running height, panicking past `u16`; `Layers` leaves it; the area never moves left or up |
| Tui.Accumulate | src/widgets/crossterm.rs:99-121 | the running extents add along the stack's axis, panicking past `u16`, and take the maximum across it; they never decrease |
| Tui.Drawing | src/widgets/crossterm.rs:33-126 | a widget's render moves the engine's area only right and down |
| Tui.DrawingItem | src/output.rs:83-91 | a stack's child moves the area only right and down; `None` leaves it |
| Tui.DrawingFrom | src/widgets/tui.rs:83-123 | the stack loop from child `k` on keeps the commands queued before it and moves the area only right and down |
| Tui.DrawingStaysInside | src/widgets/crossterm.rs:33-126 | no cursor move of a widget's render goes left of or above the area it starts from |
| Tui.ItemStaysInside | src/output.rs:83-91 | neither does a collected child's |
| Tui.FromStaysInside | src/widgets/tui.rs:83-123 | the stack loop's own commands stay right of and below the area it starts from |
| Tui.NatText | src/engines/tui.rs:83-85 | a number's decimal text is never empty |
| Tui.ErrorText | src/widgets/tui.rs:125-133 | an error's message is never empty, and a "no space" error reads `no space (` followed by the area |
| Tui.FrameShows | src/engines/tui.rs:79-89 | one render starts by clearing and draws from the whole screen; a widget error is shown in red at the top left and swallowed, while a panic is the result |
| Tui.Turn | src/engines/tui.rs:73-89 | one round renders the application's current state on the size read at that render and queues the frame after everything queued before; it succeeds only by taking the next event off the queue into the hand, after which the application is in the state its reaction gives, and it then queues nothing beyond the frame unless the application exits |
| Tui.RoundsAppend | src/engines/winit.rs:46-54 | the main loop only appends: what was queued before stays in front, followed by at least the frame of the starting state |
| Tui.RoundsOkExited | src/engines/winit.rs:46-54 | the main loop ends with `Ok` only once the exit flag is up |
| Tui.RoundsExitedOnce | src/engines/winit.rs:46-54 | with the flag already up the main loop makes exactly one round: one frame on the first size, one event, the cleanup if the application exits again, and the application left in the state its reaction gives |
| Tui.RoundsUntilDisconnected | src/engines/tui.rs:73-77 | with the flag down and an application that neither panics, fails nor exits, the loop shows the frame of each successive state of the application (one per queued event and one more), then fails on the closed channel with every event consumed, the last one in hand, the application in the state its reactions led to, and one render per frame |
| Tui.ShownStill | src/engines/tui.rs:79-89 | an application whose reactions leave its state unchanged, on a terminal that keeps its size, shows the same frame every round |
| Tui.Engine.Harness | src/engines/tui.rs:182-187 | `harness()` starts with area `[0,0,0,0]`, no output, no event, not exited, and the events sent to it |
| Tui.Engine.Exited | src/engines/tui.rs:91-93 | `exited()` reports the flag |
| Tui.Engine.Setup | src/engines/tui.rs:68-71 | `setup()` enters the alternate screen and hides the cursor; nothing else changes |
| Tui.Engine.Cleanup | src/engines/tui.rs:98-102 | `cleanup()` resets colours, shows the cursor and leaves the alternate screen |
| Tui.Engine.Exit | src/engines/tui.rs:104-108 | `exit()` raises the flag and then cleans up |
| Tui.Engine.Clear | src/engines/tui.rs:111-114 | `clear()` queues reset colour, clear all and hide cursor |
| Tui.Engine.Put | src/engines/tui.rs:117-120 | `put(x, y, text)` moves the cursor and then prints |
| Tui.Engine.WriteError | src/engines/tui.rs:134-138 | `write_error(msg)` clears, turns the colour red and prints the message at the top left |
| Tui.Engine.SetArea | src/engines/tui.rs:140-143 | `area(f)` replaces the area with `f` of it, and nothing else changes |
| Tui.Engine.Draw | src/widgets/crossterm.rs:33-126 | a widget's render on the engine leaves exactly the area, the queued commands and the result of `Drawing` |
| Tui.Engine.DrawStack | src/widgets/tui.rs:83-123 | the `Rows`/`Columns`/`Layers` loop, which offsets each child from the area the previous one left, computes exactly `Drawing` of the stack; `RowsDrift`, `ColumnsDrift`, `LayersLabels` and `StackErrors` say what that is |
| Tui.Engine.Render | src/engines/tui.rs:79-89 | `render(widget)` queues exactly `Frame` of the widget, returns its result, and leaves the area the widget left |
| Tui.Engine.Handle | src/engines/tui.rs:73-77 | `handle` stores the next event before the application reacts with its current state; the new state, the exit and a failure are the reaction's; with no event left it fails and changes nothing |
| Tui.Engine.Run | src/engines/tui.rs:220-234 | `run` sets up once and then leaves the engine exactly in the state `Rounds` computes from there, with the application starting in its given state and the size read at every render: the setup commands and a first frame come first, a successful run ends with the flag up, and with the flag already up (as in the harness test) exactly one frame and one handle follow the setup |
| Tui.Engine.Loop | src/engines/winit.rs:46-54 | the `loop` of render, handle and the `exited()` check leaves the output, result, queue, flag, event and area exactly as `Rounds` computes them, and returns the application's last state and the number of renders |
| Tui.Engine.Round | src/engines/tui.rs:73-89 | one `render` of the current state and then one `handle` leave the engine and the application exactly as `Turn` computes, with the area the widget left |
| Tui.LabelIgnoresSpace | src/widgets/tui.rs:22-28 | a label prints at the origin and reports its length whatever the area, where the value-passing text fails on a narrow area |
| Tui.FixedReportsChild | src/widgets/tui.rs:30-38 | `Fixed` reports the child's size, where the value-passing `Fix` reports the bound |
| Tui.ClampsSwapped | src/widgets/tui.rs:40-70 | `Max` and `Min` write the areas the value-passing `Min` and `Max` constrain to |
| Tui.ProxiesForward | src/widgets/fixed.rs:20-26 | every proxy renders its `get()` child on the area it writes, and the engine keeps the area the child leaves |
| Tui.OffsetNotRestored | src/widgets/tui.rs:72-81 | after an offset label the engine's area stays shifted |
| Tui.BorderFrame | src/widgets/tui.rs:181-185 | a border on an area with no width or height draws nothing; otherwise the child renders one cell in from every edge |
| Tui.BorderEmpty | src/widgets/tui.rs:181-183 | a border on an area with no width or height draws nothing and reports nothing |
| Tui.BorderInside | src/widgets/tui.rs:184-227 | a border with room for its frame renders its child on `BorderArea` |
| Tui.BorderTooNarrow | src/widgets/tui.rs:196 | a border one cell wide panics on `w - 2` |
| Tui.StackGateFailsEarly | src/widgets/crossterm.rs:128-139 | a stack below its minimum area fails before any child renders |
| Tui.Stair | src/widgets/tui.rs:88-90 | the compounded offset before row `k` is at least `k - 1` |
| Tui.StairGrows | src/widgets/tui.rs:88-90 | the compounded offset never decreases from row to row |
| Tui.Shrunk | src/widgets/tui.rs:88-90 | the height left before row `k` is at most the starting height |
| Tui.RowsOneStep | src/widgets/tui.rs:83-95 | one turn of the `Rows` loop moves the area down by the running height, prints the label at the new top and adds one row |
| Tui.RowsDriftStep | src/widgets/tui.rs:83-95 | after `k` labels the area has moved down by `0 + 1 + ... + (k - 1)` rows |
| Tui.RowsDrift | src/widgets/tui.rs:83-95 | label `i` lands on row `y + 0 + 1 + ... + i`, not `y + i`, and the engine keeps the last shifted area |
| Tui.RowsDriftExample | src/widgets/crossterm.rs:107-114 | three one-row labels in a 10x10 area print on rows 0, 1 and 3; the value-passing stack prints them on rows 0, 1 and 2 |
| Tui.ThreeLabelsWidth | src/widgets/tui.rs:90 | the widest of the labels "a", "b", "c" is one cell |
| Tui.ThreeRowsDrift | src/widgets/tui.rs:83-95 | `Rows` of "a", "b", "c" at the origin prints on rows 0, 1 and 3 |
| Tui.ThreeRowsStacked | layout.rs:238-245 | the value-passing stack of the same labels prints on rows 0, 1 and 2 |
| Tui.ColumnsPrefixStep | src/widgets/tui.rs:97-109 | one more label adds the running width to the lead and its own length to the running width |
| Tui.StridesStep | src/widgets/tui.rs:97-109 | one more label appends its commands at the lead of the longer prefix |
| Tui.LeadPrefix | src/widgets/tui.rs:97-109 | the lead of a prefix is no more than the lead of all the labels |
| Tui.SatSubTwice | src/widgets/crossterm.rs:89-90 | shrinking a width twice is shrinking it by the sum |
| Tui.ColumnsOneStep | src/widgets/tui.rs:97-109 | one turn of the `Columns` loop moves the area right by the running width and prints the label at its new left edge |
| Tui.ColumnsDriftTurn | src/widgets/tui.rs:97-109 | after one more label the area and the running width are those of the longer prefix |
| Tui.ColumnsDriftStep | src/widgets/tui.rs:97-109 | after `k` labels the area has moved right by `Lead` of them, the running width is their total length, and their commands are queued |
| Tui.ColumnsDrift | src/widgets/tui.rs:97-109 | label `i` lands at column `x + Lead(first i + 1 labels)`, not `x` plus the earlier widths; the engine keeps the last shifted area and the stack reports `(sum of widths, 1)` |
| Tui.ColumnsDriftExample | src/widgets/crossterm.rs:99-105 | labels "ab", "cd", "ef" print at columns 0, 2 and 6; the value-passing stack prints them at 0, 2 and 4 |
| Tui.Layered | src/widgets/tui.rs:110-123 | labels printed at one origin, last declared first: two commands per label |
| Tui.LayeredCons | src/widgets/tui.rs:116 | adding a label in front adds its commands at the end |
| Tui.LayersOneStep | src/widgets/tui.rs:110-123 | one turn of the `Layers` loop prints the next label from the back at the unchanged origin |
| Tui.LayersTurn | src/widgets/tui.rs:116-119 | one more label from the back raises the longest label to its length and adds its commands at the end |
| Tui.LayersStep | src/widgets/tui.rs:110-123 | after `k` labels from the back, the running extents are their longest label and one row |
| Tui.LayersLabels | src/widgets/tui.rs:110-123 | `Layers` prints every label at the origin, last declared first, leaves the area as it was and reports `(longest label, 1)` |
| Tui.StackAborts | src/widgets/tui.rs:83-123 | the stack loop stops at the first error: its own `u16` overflow, or the error of a child it visits, whose commands are the last queued and whose area the engine keeps |
| Tui.StackErrors | src/widgets/tui.rs:83-123 | a stack fails only at its gate (with no output), on a `u16` overflow, or with the error of one of its children, the earlier children's commands kept |
| Tui.Keys | src/engines/tui.rs:224-227 | the key events of a text, one per character, in order |
| Tui.LabelFrame | src/engines/tui.rs:79-89 | a frame of a label is the clear commands followed by the label at the top left |
| Tui.JustALabel | src/engines/tui.rs:220-234 | exit first, then run "just a label": the output is the cleanup, the setup, one cleared frame and the label at the top left |
| Repl.NextLine | src/engines/repl.rs:40-45 | the next line is a prefix of the input through the first newline, or all of it; it is empty exactly at the end of the input |
| Repl.Repeat | src/engines/repl.rs:18-22 | `n` rounds of the same label write `n` copies of it |
| Repl.Engine.Harness | src/engines/repl.rs:59-66 | `harness(input)` has the given input, empty output, and is not exited |
| Repl.Engine.Exited | src/engines/repl.rs:27-29 | `exited()` returns the public flag |
| Repl.Engine.Write | src/engines/repl.rs:33-36 | `write` appends exactly the data, or fails and appends nothing |
| Repl.Engine.ReadLine | src/engines/repl.rs:40-45 | `read_line` takes exactly the next line off the input |
| Repl.Engine.RenderLabel | src/widgets/repl.rs:10-15 | a label appends its text and reports `[len, 1]`; a failed write is passed on with no size |
| Repl.Engine.Render | src/engines/repl.rs:18-22 | `render` renders the widget once and passes its error on |
| Repl.Engine.Handle | src/engines/repl.rs:23-26 | `handle` consumes exactly one input line and does not consult the widget |
| Repl.Engine.Run | src/engines/repl.rs:15-29 | with the flag up, one round writes the label once, reads one line and stops; with it down the label is written once per round and one line is read per round; a failing sink fails the first round with nothing written or read |
| Repl.Engine.Round | src/engines/repl.rs:18-26 | one `render` and one `handle`: the label is written and one line is read, or the sink fails and nothing changes |
| Repl.JustALabel | src/engines/repl.rs:77-84 | with the flag preset, running "just a label" on "newline\n" leaves exactly "just a label" in the output |
| Repl.LinesRebuildInput | src/engines/repl.rs:40-45 | reading line after line until the input ends gives back the whole input; no line is empty and each but the last ends with its newline |
| Repl.SkipIsRest | src/engines/repl.rs:40-45 | the input left after `read_line` is everything after the line it returned |
| Repl.ConsumedDropsLines | src/engines/repl.rs:40-45 | after `n` reads the input holds exactly the lines from the `n`-th on, and nothing once every line is read |
| Winit.OnKeyboard | src/engines/winit.rs:279-296 | a press adds one key and panics past `u32`; a release takes one off but stays at zero; the event carries the new count |
| Winit.OnWindow | src/engines/winit.rs:240-247 | a close request or a destruction marks the window as closing; the key count is untouched |
| Winit.PressThenRelease | src/engines/winit.rs:285-291 | a press followed by a release restores the count; a release at zero stays at zero |
| Winit.Touched | src/engines/winit.rs:202-223 | after an event a window is closing exactly when it was or the event closes it; only a key press past `u32` panics |
| Winit.Dispatch | src/engines/winit.rs:196-238 | as intended: an unknown id returns false and changes nothing; before setup a known id panics; a window left closing is removed and the call returns true; other windows are untouched |
| Winit.DispatchAsWritten | src/engines/winit.rs:196-238 | as written: a window left closing makes `window_del` panic on the map that the `match` still borrows; the call never returns true |
| Winit.DispatchAsWrittenDiffers | src/engines/winit.rs:197-227 | the two agree on every event that does not close its window; where the intended call removes a window, the code as written panics and keeps it |
| Winit.CloseRequestPanics | src/engines/winit.rs:197-227 | a close request for a known window after setup: removed with `true` as intended, `already borrowed` as written |
| Winit.HandleEvents | src/engines/winit.rs:155-185 | `handle`'s pass over the delivered events only removes windows, and once set up its only panic is the rollover overflow |
| Winit.Closing | src/engines/winit.rs:174-178 | `handle` succeeds exactly when the last answer was false, turns a true answer into `WindowClosed`, and passes a panic on |
| Winit.HandleEventsSnoc | src/engines/winit.rs:168-170 | one more event replaces the `closed` flag with that event's answer, whatever it was before |
| Winit.LaterEventHidesClose | src/engines/winit.rs:168-178 | a close followed by an event for an unknown window removes the window, yet `handle` succeeds |
| Winit.NoWindowIgnoresEvents | src/engines/winit.rs:229-231 | with no window every event is ignored and `handle` succeeds |
| Winit.Loop | src/engines/winit.rs:46-56 | the loop from round `k` starts with that round's render, never sets up again, and only removes windows |
| Winit.Engine.New | src/engines/winit.rs:82-118 | a fresh engine is running, not set up, and has no windows |
| Winit.Engine.Exited | src/engines/winit.rs:128-130 | `exited()` is `!running` |
| Winit.Engine.Exit | src/engines/winit.rs:124-126 | `exit()` only clears `running` |
| Winit.Engine.SetUp | src/engines/winit.rs:120-122 | `setup()` records the start time and changes nothing else |
| Winit.Engine.WindowAdd | src/engines/winit.rs:191-194 | `window_add` registers the window under its id and changes nothing else |
| Winit.Engine.WindowEvent | src/engines/winit.rs:196-238 | `window_event` with the intended removal computes exactly `Dispatch`: the window map and the answer |
| Winit.Engine.Handle | src/engines/winit.rs:155-185 | `handle` computes exactly `HandleEvents` and `Closing` of the delivered events |
| Winit.Engine.Run | src/engines/winit.rs:42-57 | `run` sets up once, then takes exactly the steps, the outcome, the windows and the running flag of `Loop`; it returns `Ok` only with the flag down, and still runs only with the flag up |
| Winit.Engine.Cycle | src/engines/winit.rs:49-54 | one pass of the loop body renders, then handles, and either stops with the steps, outcome, windows and flag of `Loop`, or continues with `Loop` from the next round |
| Winit.LoopAlternates | src/engines/winit.rs:49-50 | every round renders and then handles, in order |
| Winit.SetupOnceFirst | src/engines/winit.rs:46-47 | setup comes exactly once, first |
| Winit.LoopRunsUntilHalt | src/engines/winit.rs:48-54 | while the flag is up and the rounds are quiet, every round renders and handles |
| Winit.NoWindowRunsOn | src/engines/winit.rs:132-153 | with no window the application is never rendered and cannot exit, so the loop runs every round it is given |
| Winit.ExitedRunsOnce | src/engines/winit.rs:51-53 | with the flag already down the body runs exactly once |
| Winit.ErrorsAbort | src/engines/winit.rs:49-55 | an error ends the loop and is its result: a render error, `WindowClosed` or the rollover panic; a success comes only after a round that exits or with the flag down |
| Winit.LoopFlag | src/engines/winit.rs:48-54 | the loop ends with `Ok` only after lowering the flag, leaves the flag as it was when the rounds run out, and never raises it |

## Left out

- Terminal I/O is reduced to a log of terminal commands; the bytes of the escape sequences are not modelled. This covers crossterm, raw mode, the alternate screen, the panic hook, flushing and `set_colors`.
- The terminal's size is read from the operating system at every render. The model takes it as a parameter: a size for one render, and a function `screen` from the render's number to the size for the main loop.
- The application of the terminal engine is a state `S` of the caller's choosing, with two functions: `view` gives the widget a state renders as, and `respond` gives the state and the reaction (exit, error, or success) after an event. Its own code is not modelled.
- The input thread and its `mpsc` channel become a queue of events. An empty queue is a disconnected channel. A blocking `recv` that waits for a sender is not modelled.
- The exit flag is a plain boolean; the atomic's memory ordering and its sharing between threads are not modelled.
- `Border` glyphs, themes and colours are left out. Only the zero-size guard, the order of the arithmetic that can panic, and the inner area it assigns are kept.
- Window, surface and EGL handling, float scale factors and positions, and the mouse, touch and resize effects of the windowed engine are left out. They are foreign-library calls and floating point.
- The windowed engine's application is abstracted as a script of rounds. Each round gives the application's render result, whether it called `exit()` while rendering, and the window events the event loop delivers. `handle` itself is modelled: it dispatches those events.
- Winit.Engine.Run: the loop is looked at up to a `bound` on the number of rounds. A loop that has not stopped by then is reported as still running, since the source loops until the process is stopped.
- Winit.Loop: the application's render is called once per window in the source; the model treats the rounds with at least one window alike, whatever their number.
- The start time and frame timing are a parameter (`now`).
- `window_del` and the panic it causes inside `window_event` are described under Findings. The rest of the model uses the intended removal.
- Tui.FrameShows: the message shown for an error other than "no space" is a fixed text, since the operating system supplies those messages.
- ErrorText: the gate of `Stacked` in `src/widgets/crossterm.rs:133` prints the stack's own `Debug` text where the other gates print the area. The model prints the area for every gate, since the `Debug` text of boxed widgets is not modelled.
- Text length is the number of characters. Rust's `len()` counts UTF-8 bytes, so a label with multi-byte characters measures longer in the source.
- `read_line` never fails: invalid UTF-8 and a failing reader are not modelled.
- Repl.Engine.Run: the loop takes a `fuel` bound on the number of rounds. With the flag down, the source loops until the process is stopped, and the model stops after `fuel` rounds.
- The generic main loop of the terminal and question-and-answer engines is not in any of the modelled files. It is modelled on the loop of `src/engines/winit.rs:42-57`: setup, then render and handle until `exited()`.
- The `[10, 10]` placeholder renders of `src/widgets/crossterm.rs:19-31` are constant stubs and are not modelled.
- `Collect`: ownership and lifetimes are not modelled. A `Box<dyn Output>` passed to a collector is boxed once, whether the source boxes it again or keeps the box; both render alike.
- `Collect`: `collected()` of the value-passing `Widget` is taken to wrap by kind. Owned values become `Box` and references become `Ref`.
- The float `Unit` and the `Vec<[f32; 4]>` results of the windowed engine are left out.
- Scroll.ScrollState.To: `offset + size` is unbounded. The source adds `usize` values, which could overflow only beyond any realistic list.
- The non-compiling test bodies and the example applications are not modelled.
- `src/layouts/tabs.rs` does not compile as written. Only its index and ordering rules are modelled, not the widgets it builds.

## Findings

| source | as written | input that shows it | evidently intended | confidence | as-written member | corrected member |
|---|---|---|---|---|---|---|
| src/widgets/tui.rs:83-95 | `Rows` offsets each item by the running height from the area the previous item left, so the offsets compound | three one-row labels in the area `[0, 0, 10, 10]` print on rows 0, 1 and 3 | the `k`-th row is printed `k` rows below the top (rows 0, 1 and 2), as the value-passing stack does | not executed | Tui.RowsDrift | Layout.StackYLabels |
| src/widgets/tui.rs:97-109 | `Columns` offsets each item by the running width from the area the previous item left, so the offsets compound | labels "ab", "cd", "ef" in the area `[0, 0, 20, 1]` print at columns 0, 2 and 6 | each label starts right after the previous one (columns 0, 2 and 4), as the value-passing stack does | not executed | Tui.ColumnsDrift | Layout.StackXLabels |
| src/engines/winit.rs:197-226 | the `Ref` from `self.windows.borrow()` in the `match` scrutinee lives to the end of the `match`, so `window_del`'s `borrow_mut` panics | a close request for a known window after `setup` | the closing window is removed and `window_event` returns true | not executed | Winit.DispatchAsWritten | Winit.Engine.WindowEvent |
