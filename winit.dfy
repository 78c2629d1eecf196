/** The windowed engine: the generic main loop every engine runs, the running flag
    behind `exit`/`exited`, the per-window key-rollover counter and the rule that
    removes a window once it is closing. */
module Winit {
  import opened Base

  /** What the main loop does, in order: set up once, then render and handle round
      after round. */
  datatype Step = Setup | Render(round: nat) | Handle(round: nat)

  datatype KeyState = Pressed | Released

  datatype WindowEvent =
    | CloseRequested
    | Destroyed
    | Resized
    | Focused
    | ScaleFactorChanged
    | KeyboardInput(state: KeyState)
    | CursorMoved
    | MouseWheel
    | MouseInput
    | Touch
    | OtherWindowEvent

  /** The per-window state the modelled rules use. */
  datatype HostWindow = HostWindow(closing: bool, rollover: U32)

  /** `on_keyboard`: a press adds one to the number of keys held (a `u32` addition
      that panics past its range), a release takes one off but stays at zero; the
      keyboard event carries the new count. */
  function OnKeyboard(w: HostWindow, state: KeyState): (r: Result<(HostWindow, U32)>)
    ensures r.Ok? ==> r.value.0 == w.(rollover := r.value.1)
    ensures state == Pressed ==> (r.Ok? <==> w.rollover + 1 < 0x1_0000_0000)
    ensures state == Pressed && r.Ok? ==> r.value.1 == w.rollover + 1
    ensures state == Released ==> r.Ok? && r.value.1 == SatSub(w.rollover, 1)
    ensures r.Err? ==> r.error == Panic(Overflow)
  {
    match state
    case Pressed =>
      if w.rollover + 1 < 0x1_0000_0000 then Ok((w.(rollover := w.rollover + 1), w.rollover + 1))
      else Err(Panic(Overflow))
    case Released =>
      var count := if w.rollover >= 1 then w.rollover - 1 else 0;
      Ok((w.(rollover := count), count))
  }

  /** `on_window`: a close request or a destruction marks the window as closing;
      the other window events leave the modelled state alone. */
  function OnWindow(w: HostWindow, e: WindowEvent): (r: HostWindow)
    ensures r.rollover == w.rollover
    ensures r.closing <==> w.closing || e.CloseRequested? || e.Destroyed?
  {
    if e.CloseRequested? || e.Destroyed? then w.(closing := true) else w
  }

  /** A press followed by a release leaves the count where it was; a release with
      no key held keeps it at zero. */
  lemma PressThenRelease(w: HostWindow)
    requires w.rollover + 1 < 0x1_0000_0000
    ensures OnKeyboard(OnKeyboard(w, Pressed).value.0, Released) == Ok((w, w.rollover))
    ensures OnKeyboard(w.(rollover := 0), Released) == Ok((w.(rollover := 0), 0))
  {
  }

  /** A window event as the event loop delivers it, with the id of its window. */
  type Delivered = (nat, WindowEvent)

  /** The window after `on_window` or `on_keyboard`; the rollover overflow panics
      before anything is stored. */
  function Touched(w: HostWindow, e: WindowEvent): (r: Result<HostWindow>)
    ensures r.Ok? ==> (r.value.closing <==> w.closing || e.CloseRequested? || e.Destroyed?)
    ensures r.Err? <==> e.KeyboardInput? && e.state == Pressed && w.rollover + 1 >= 0x1_0000_0000
    ensures r.Err? ==> r.error == Panic(Overflow)
  {
    if e.KeyboardInput? then
      (match OnKeyboard(w, e.state)
       case Err(x) => Err(x)
       case Ok(p) => Ok(p.0))
    else Ok(OnWindow(w, e))
  }

  /** `window_event(id, event)` as evidently intended: an unknown window is ignored;
      for a known one the start time is needed (unwrapping it panics before `setup`),
      the event is dispatched, and a window left closing is removed, which the call
      reports with `true`. Other windows are untouched. */
  function Dispatch(ws: map<nat, HostWindow>, started: bool, id: nat, e: WindowEvent): (r: (map<nat, HostWindow>, Result<bool>))
    ensures id !in ws ==> r == (ws, Ok(false))
    ensures id in ws && !started ==> r == (ws, Err(Panic(Unwrap)))
    ensures r.1 == Ok(true) <==> id in ws && started && id !in r.0
    ensures r.1 == Ok(true) ==> r.0 == ws - {id}
    ensures id in ws && started && (e.CloseRequested? || e.Destroyed?) ==> r == (ws - {id}, Ok(true))
    ensures r.1 == Ok(false) && id in ws ==> id in r.0 && !r.0[id].closing
    ensures r.1.Err? ==> r.0 == ws
    ensures started && r.1.Err? ==> r.1.error == Panic(Overflow)
    ensures r.0.Keys <= ws.Keys
    ensures forall other :: other != id && other in ws ==> other in r.0 && r.0[other] == ws[other]
  {
    if id !in ws then (ws, Ok(false))
    else if !started then (ws, Err(Panic(Unwrap)))
    else
      match Touched(ws[id], e)
      case Err(x) => (ws, Err(x))
      case Ok(w) => if w.closing then (ws - {id}, Ok(true)) else (ws[id := w], Ok(false))
  }

  /** `window_event` as written: the `Ref` that `self.windows.borrow()` hands to the
      `match` lives until the end of the `match`, so `window_del`'s `borrow_mut` on the
      same map panics for every window left closing. The window keeps its updated
      state, and the call never answers `true`. */
  function DispatchAsWritten(ws: map<nat, HostWindow>, started: bool, id: nat, e: WindowEvent): (r: (map<nat, HostWindow>, Result<bool>))
    ensures r.1 != Ok(true)
    ensures id in ws && started && Touched(ws[id], e).Ok? && Touched(ws[id], e).value.closing ==>
              r == (ws[id := Touched(ws[id], e).value], Err(Panic(AlreadyBorrowed)))
    ensures r.0.Keys == ws.Keys
  {
    if id !in ws then (ws, Ok(false))
    else if !started then (ws, Err(Panic(Unwrap)))
    else
      match Touched(ws[id], e)
      case Err(x) => (ws, Err(x))
      case Ok(w) => if w.closing then (ws[id := w], Err(Panic(AlreadyBorrowed))) else (ws[id := w], Ok(false))
  }

  /** The two agree on every event that does not close its window; on one that does,
      the code as written panics where the removal was meant. */
  lemma DispatchAsWrittenDiffers(ws: map<nat, HostWindow>, started: bool, id: nat, e: WindowEvent)
    ensures Dispatch(ws, started, id, e).1 != Ok(true) ==> DispatchAsWritten(ws, started, id, e) == Dispatch(ws, started, id, e)
    ensures Dispatch(ws, started, id, e).1 == Ok(true) ==>
              DispatchAsWritten(ws, started, id, e).1 == Err(Panic(AlreadyBorrowed)) && id in DispatchAsWritten(ws, started, id, e).0
  {
    if id in ws && started && Touched(ws[id], e).Ok? {
      var w := Touched(ws[id], e).value;
      if !w.closing {
        assert Dispatch(ws, started, id, e) == (ws[id := w], Ok(false));
      }
    }
  }

  /** A close request for window 7 after `setup`: the intended call removes the
      window and answers `true`; the code as written panics with `already borrowed`. */
  lemma CloseRequestPanics()
    ensures Dispatch(map[7 := HostWindow(false, 0)], true, 7, CloseRequested) == (map[], Ok(true))
    ensures DispatchAsWritten(map[7 := HostWindow(false, 0)], true, 7, CloseRequested).1 == Err(Panic(AlreadyBorrowed))
  {
    var ws := map[7 := HostWindow(false, 0)];
    assert ws - {7} == map[];
    assert Touched(ws[7], CloseRequested) == Ok(HostWindow(true, 0));
  }

  /** `handle`'s pass over the delivered events: each goes through `Dispatch`, the
      `closed` flag takes the answer of the latest one (an assignment, not an `or`),
      and a panic stops the pass. */
  function HandleEvents(ws: map<nat, HostWindow>, started: bool, events: seq<Delivered>, closed: bool): (r: (map<nat, HostWindow>, Result<bool>))
    ensures r.0.Keys <= ws.Keys
    ensures started && r.1.Err? ==> r.1.error == Panic(Overflow)
    ensures events == [] ==> r == (ws, Ok(closed))
    decreases |events|
  {
    if events == [] then (ws, Ok(closed))
    else
      var d := Dispatch(ws, started, events[0].0, events[0].1);
      if d.1.Err? then (d.0, Err(d.1.error)) else HandleEvents(d.0, started, events[1..], d.1.value)
  }

  /** The result of `handle`: a panic as it is, `WindowClosed` when the last event
      closed its window, success otherwise. */
  function Closing(h: Result<bool>): (r: Result<()>)
    ensures r.Ok? <==> h == Ok(false)
    ensures h == Ok(true) ==> r == Err(WindowClosed)
    ensures h.Err? ==> r == Err(h.error)
  {
    match h
    case Err(e) => Err(e)
    case Ok(closed) => if closed then Err(WindowClosed) else Ok(())
  }

  /** One more event at the end: the pass so far, then that event's dispatch, whose
      answer replaces whatever `closed` was. */
  lemma {:induction false} HandleEventsSnoc(ws: map<nat, HostWindow>, started: bool, events: seq<Delivered>, closed: bool, last: Delivered)
    ensures var h := HandleEvents(ws, started, events, closed);
            HandleEvents(ws, started, events + [last], closed)
              == if h.1.Err? then h else Dispatch(h.0, started, last.0, last.1)
    decreases |events|
  {
    if events == [] {
      assert [] + [last] == [last];
      assert [last][1..] == [];
      var d := Dispatch(ws, started, last.0, last.1);
      if d.1.Ok? {
        assert HandleEvents(d.0, started, [], d.1.value) == d;
      }
    } else {
      var d := Dispatch(ws, started, events[0].0, events[0].1);
      assert (events + [last])[0] == events[0];
      assert (events + [last])[1..] == events[1..] + [last];
      if d.1.Ok? {
        HandleEventsSnoc(d.0, started, events[1..], d.1.value, last);
      }
    }
  }

  /** A close followed by an event for a window the engine does not know: the
      window is gone but `handle` reports success, since the later event reset
      `closed`. */
  lemma LaterEventHidesClose(ws: map<nat, HostWindow>, id: nat, other: nat)
    requires id in ws && other !in ws
    ensures HandleEvents(ws, true, [(id, CloseRequested), (other, Focused)], false) == (ws - {id}, Ok(false))
    ensures Closing(HandleEvents(ws, true, [(id, CloseRequested), (other, Focused)], false).1) == Ok(())
  {
    var events: seq<Delivered> := [(id, CloseRequested), (other, Focused)];
    assert events[1..] == [(other, Focused)] && events[1..][1..] == [];
    assert other != id;
  }

  /** With no window, every event is for an unknown one: nothing changes and `handle`
      succeeds. */
  lemma {:induction false} NoWindowIgnoresEvents(started: bool, events: seq<Delivered>, closed: bool)
    ensures HandleEvents(map[], started, events, closed) == (map[], Ok(if events == [] then closed else false))
    decreases |events|
  {
    if events != [] {
      NoWindowIgnoresEvents(started, events[1..], false);
    }
  }

  /** What one round brings from outside the engine: the result of the application's
      render and whether it called `exit()` from there (both only happen when a
      window exists, since `render` calls the application once per window), and the
      window events the event loop delivers while `handle` pumps it. */
  datatype Round = Round(render: Result<()>, exits: bool, events: seq<Delivered>)

  /** How far the loop got within the rounds looked at. */
  datatype Outcome = Returned(result: Result<()>) | StillRunning

  /** The loop from round `k` up to round `bound`, with the running flag and the
      windows as they stand: the steps taken, how it ended, the windows left, and
      the running flag left, which is what `exited()` reports afterwards. An `exit()`
      from the render lowers the flag even when the round then fails. */
  function Loop(script: nat -> Round, k: nat, running: bool, ws: map<nat, HostWindow>, bound: nat): (r: (seq<Step>, Outcome, map<nat, HostWindow>, bool))
    requires k <= bound
    ensures k == bound ==> r == ([], StillRunning, ws, running)
    ensures k < bound ==> |r.0| >= 1 && r.0[0] == Render(k) && !r.0[|r.0| - 1].Setup?
    ensures r.2.Keys <= ws.Keys
    decreases bound - k
  {
    if k == bound then ([], StillRunning, ws, running)
    else
      var round := script(k);
      var drawn := ws != map[];
      var flag := running && !(drawn && round.exits);
      if drawn && round.render.Err? then ([Render(k)], Returned(Err(round.render.error)), ws, flag)
      else
        var h := HandleEvents(ws, true, round.events, false);
        var handled := Closing(h.1);
        if handled.Err? then ([Render(k), Handle(k)], Returned(handled), h.0, flag)
        else if !flag then ([Render(k), Handle(k)], Returned(Ok(())), h.0, flag)
        else
          var rest := Loop(script, k + 1, running, h.0, bound);
          ([Render(k), Handle(k)] + rest.0, rest.1, rest.2, rest.3)
  }

  /** The flag `Loop` leaves: down after an `Ok(())` exit, unchanged when the rounds ran
      out, and never raised. */
  lemma {:induction false} LoopFlag(script: nat -> Round, k: nat, running: bool, ws: map<nat, HostWindow>, bound: nat)
    requires k <= bound
    ensures var r := Loop(script, k, running, ws, bound);
            (r.1 == Returned(Ok(())) ==> !r.3) && (r.1 == StillRunning ==> r.3 == running) && (r.3 ==> running)
    decreases bound - k
  {
    if k < bound {
      var h := HandleEvents(ws, true, script(k).events, false);
      LoopFlag(script, k + 1, running, h.0, bound);
    }
  }

  class Engine {
    var running: bool
    /** When `setup` ran; window events need it. */
    var started: Option<nat>
    var windows: map<nat, HostWindow>

    /** `init`: running, not set up, no windows. */
    constructor New()
      ensures running && started == None && windows == map[]
    {
      running := true;
      started := None;
      windows := map[];
    }

    /** `exited()`: the engine has exited once `running` is down. */
    function Exited(): (r: bool)
      reads this
      ensures r <==> !running
    {
      !running
    }

    /** `exit()`: only lowers `running`. */
    method Exit()
      modifies this
      ensures !running && started == old(started) && windows == old(windows)
    {
      running := false;
    }

    /** `setup()`: record the start time. */
    method SetUp(now: nat)
      modifies this
      ensures started == Some(now) && running == old(running) && windows == old(windows)
    {
      started := Some(now);
    }

    /** `window_add(window)`: registers a window under its id. */
    method WindowAdd(id: nat, w: HostWindow)
      modifies this
      ensures windows == old(windows)[id := w]
      ensures running == old(running) && started == old(started)
    {
      windows := windows[id := w];
    }

    /** `window_event(id, event)`, with the closing window removed as intended:
        proved against `Dispatch`. */
    method WindowEvent(id: nat, e: WindowEvent) returns (r: Result<bool>)
      modifies this
      ensures (windows, r) == Dispatch(old(windows), old(started).Some?, id, e)
      ensures running == old(running) && started == old(started)
    {
      if id !in windows {
        return Ok(false);
      }
      if started.None? {
        return Err(Panic(Unwrap));
      }
      var w := windows[id];
      if e.KeyboardInput? {
        var pressed := OnKeyboard(w, e.state);
        if pressed.Err? {
          return Err(pressed.error);
        }
        w := pressed.value.0;
      } else {
        w := OnWindow(w, e);
      }
      if w.closing {
        windows := windows - {id};
        return Ok(true);
      }
      windows := windows[id := w];
      r := Ok(false);
    }

    /** `handle()`: every delivered event goes through `window_event`, `closed` keeps
        the latest answer, and a closed window ends the call with `WindowClosed`.
        Proved against `HandleEvents`. */
    method Handle(events: seq<Delivered>) returns (r: Result<()>)
      modifies this
      ensures windows == HandleEvents(old(windows), old(started).Some?, events, false).0
      ensures r == Closing(HandleEvents(old(windows), old(started).Some?, events, false).1)
      ensures running == old(running) && started == old(started)
    {
      var closed := false;
      var i := 0;
      while i < |events|
        invariant i <= |events|
        invariant running == old(running) && started == old(started)
        invariant HandleEvents(windows, started.Some?, events[i..], closed) == HandleEvents(old(windows), old(started).Some?, events, false)
      {
        assert events[i..][0] == events[i] && events[i..][1..] == events[i + 1..];
        var d := WindowEvent(events[i].0, events[i].1);
        if d.Err? {
          return Err(d.error);
        }
        closed := d.value;
        i := i + 1;
      }
      assert events[i..] == [];
      r := if closed then Err(WindowClosed) else Ok(());
    }

    /** `Engine::run`: set up, then render and handle until `exited()` holds after a
        handle; a render or handle error ends the loop and is returned. Looked at up
        to round `bound`, and proved against `Loop`, which the lemmas below describe. */
    method Run(script: nat -> Round, bound: nat, now: nat) returns (steps: seq<Step>, r: Outcome)
      modifies this
      ensures steps == [Setup] + Loop(script, 0, old(running), old(windows), bound).0
      ensures r == Loop(script, 0, old(running), old(windows), bound).1
      ensures windows == Loop(script, 0, old(running), old(windows), bound).2
      ensures running == Loop(script, 0, old(running), old(windows), bound).3
      ensures r == Returned(Ok(())) ==> Exited()
      ensures bound > 0 && r == StillRunning ==> !Exited()
      ensures started == Some(now)
    {
      LoopFlag(script, 0, running, windows, bound);
      ghost var whole := Loop(script, 0, running, windows, bound);
      SetUp(now);
      steps := [Setup];
      var k := 0;
      while k < bound
        invariant k <= bound && started == Some(now)
        invariant k > 0 ==> running
        invariant k == 0 ==> running == old(running) && windows == old(windows)
        invariant var l := Loop(script, k, running, windows, bound);
                  steps + l.0 == [Setup] + whole.0 && l.1 == whole.1 && l.2 == whole.2 && l.3 == whole.3
        decreases bound - k
      {
        var done, taken, out := Cycle(script, k, bound);
        if done {
          return steps + taken, out;
        }
        Associative(steps, taken, Loop(script, k + 1, running, windows, bound).0);
        steps := steps + taken;
        k := k + 1;
      }
      r := StillRunning;
    }

    /** One pass of the loop body of `Engine::run` at round `k`: render, then handle.
        Either the loop stops here (`done`), after the steps and with the outcome `Loop`
        gives from round `k`, or the round took a render and a handle with the engine
        still running, and `Loop` goes on from round `k + 1` in the new state. */
    method Cycle(script: nat -> Round, k: nat, bound: nat) returns (done: bool, taken: seq<Step>, r: Outcome)
      requires k < bound && started.Some?
      modifies this
      ensures var l := Loop(script, k, old(running), old(windows), bound);
              done ==> taken == l.0 && r == l.1 && windows == l.2 && running == l.3
      ensures var l := Loop(script, k, old(running), old(windows), bound);
              var next := Loop(script, k + 1, running, windows, bound);
              !done ==> running && taken == [Render(k), Step.Handle(k)] && l == (taken + next.0, next.1, next.2, next.3)
      ensures started == old(started)
    {
      var round := script(k);
      var drawn := windows != map[];
      if drawn {
        if round.exits {
          Exit();
        }
        if round.render.Err? {
          return true, [Render(k)], Returned(Err(round.render.error));
        }
      }
      var handled := Handle(round.events);
      if handled.Err? {
        return true, [Render(k), Step.Handle(k)], Returned(handled);
      }
      if Exited() {
        return true, [Render(k), Step.Handle(k)], Returned(Ok(()));
      }
      return false, [Render(k), Step.Handle(k)], StillRunning;
    }
  }

  /** Every round renders and then handles: from round `k`, step `i` is the render of
      round `k + i/2` when `i` is even and its handle when `i` is odd. So no setup
      happens inside the loop, and a handle never comes before its render. */
  lemma {:induction false} LoopAlternates(script: nat -> Round, k: nat, running: bool, ws: map<nat, HostWindow>, bound: nat)
    requires k <= bound
    ensures forall i :: 0 <= i < |Loop(script, k, running, ws, bound).0| ==>
              Loop(script, k, running, ws, bound).0[i] == (if i % 2 == 0 then Render(k + i / 2) else Handle(k + i / 2))
    decreases bound - k
  {
    if k < bound {
      var round := script(k);
      var drawn := ws != map[];
      var h := HandleEvents(ws, true, round.events, false);
      if !(drawn && round.render.Err?) && Closing(h.1).Ok? && running && !(drawn && round.exits) {
        LoopAlternates(script, k + 1, running, h.0, bound);
        var rest := Loop(script, k + 1, running, h.0, bound).0;
        var steps := Loop(script, k, running, ws, bound).0;
        assert steps == [Render(k), Handle(k)] + rest;
        forall i | 2 <= i < |steps|
          ensures steps[i] == (if i % 2 == 0 then Render(k + i / 2) else Handle(k + i / 2))
        {
          var j := i - 2;
          assert steps[i] == rest[j];
          assert rest[j] == (if j % 2 == 0 then Render(k + 1 + j / 2) else Handle(k + 1 + j / 2));
          assert j % 2 == i % 2 && k + 1 + j / 2 == k + i / 2;
        }
      }
    }
  }

  /** Set up comes exactly once, first. */
  lemma SetupOnceFirst(script: nat -> Round, running: bool, ws: map<nat, HostWindow>, bound: nat)
    ensures var steps := [Setup] + Loop(script, 0, running, ws, bound).0;
            steps[0] == Setup && forall i :: 1 <= i < |steps| ==> steps[i] != Setup
  {
    LoopAlternates(script, 0, running, ws, bound);
    var steps := [Setup] + Loop(script, 0, running, ws, bound).0;
    forall i | 1 <= i < |steps|
      ensures steps[i] != Setup
    {
      assert steps[i] == Loop(script, 0, running, ws, bound).0[i - 1];
    }
  }

  /** A round with nothing to report: the render succeeds without `exit()` and no
      event arrives. */
  predicate Quiet(r: Round)
  {
    r.render.Ok? && !r.exits && r.events == []
  }

  /** The loop keeps going while the flag is up and the rounds are quiet: with
      rounds `k` to `m - 1` all quiet, every one of them renders and handles, and
      round `m` starts. */
  lemma {:induction false} LoopRunsUntilHalt(script: nat -> Round, k: nat, m: nat, ws: map<nat, HostWindow>, bound: nat)
    requires k <= m < bound
    requires forall i :: k <= i < m ==> Quiet(script(i))
    ensures |Loop(script, k, true, ws, bound).0| > 2 * (m - k)
    decreases m - k
  {
    if k < m {
      assert HandleEvents(ws, true, script(k).events, false) == (ws, Ok(false));
      LoopRunsUntilHalt(script, k + 1, m, ws, bound);
    }
  }

  /** Without a window the application is never rendered, so it never gets to call
      `exit()`, and every event is for an unknown window: the loop runs every round
      it is given. */
  lemma {:induction false} NoWindowRunsOn(script: nat -> Round, k: nat, bound: nat)
    requires k <= bound
    ensures Loop(script, k, true, map[], bound).1 == StillRunning
    ensures |Loop(script, k, true, map[], bound).0| == 2 * (bound - k)
    decreases bound - k
  {
    if k < bound {
      NoWindowIgnoresEvents(true, script(k).events, false);
      NoWindowRunsOn(script, k + 1, bound);
    }
  }

  /** With the flag already down, the body runs exactly once: one render and one
      handle, then the loop ends with success unless one of them failed. */
  lemma ExitedRunsOnce(script: nat -> Round, k: nat, ws: map<nat, HostWindow>, bound: nat)
    requires k < bound
    ensures Loop(script, k, false, ws, bound).1.Returned?
    ensures |Loop(script, k, false, ws, bound).0| <= 2
    ensures (ws == map[] || script(k).render.Ok?) && Closing(HandleEvents(ws, true, script(k).events, false).1).Ok? ==>
              Loop(script, k, false, ws, bound) == ([Render(k), Handle(k)], Returned(Ok(())), HandleEvents(ws, true, script(k).events, false).0, false)
  {
  }

  /** An error ends the loop at once and is the loop's result: it is the render
      error of the last round the loop took, or, from its handle, `WindowClosed` or
      the rollover overflow (the only panic left once `setup` has run). A success
      comes after a handle, once the flag is down. */
  lemma {:induction false} ErrorsAbort(script: nat -> Round, k: nat, running: bool, ws: map<nat, HostWindow>, bound: nat)
    requires k < bound
    ensures var r := Loop(script, k, running, ws, bound);
            var n := r.0[|r.0| - 1].round;
            r.1.Returned? && r.1.result.Err? ==>
              ((r.0[|r.0| - 1] == Render(n) && script(n).render == r.1.result)
               || (r.0[|r.0| - 1] == Handle(n) && (r.1.result == Err(WindowClosed) || r.1.result == Err(Panic(Overflow)))))
    ensures var r := Loop(script, k, running, ws, bound);
            var n := r.0[|r.0| - 1].round;
            r.1 == Returned(Ok(())) ==> r.0[|r.0| - 1] == Handle(n) && (script(n).exits || !running)
    decreases bound - k
  {
    var round := script(k);
    var drawn := ws != map[];
    var h := HandleEvents(ws, true, round.events, false);
    var whole := Loop(script, k, running, ws, bound);
    if drawn && round.render.Err? {
      assert whole.0 == [Render(k)] && whole.1 == Returned(round.render);
    } else if Closing(h.1).Err? {
      assert whole.0 == [Render(k), Handle(k)] && whole.1 == Returned(Closing(h.1));
    } else if !running || (drawn && round.exits) {
      assert whole.0 == [Render(k), Handle(k)] && whole.1 == Returned(Ok(()));
    } else if k + 1 < bound {
      ErrorsAbort(script, k + 1, running, h.0, bound);
      var rest := Loop(script, k + 1, running, h.0, bound);
      assert whole.0 == [Render(k), Handle(k)] + rest.0 && whole.1 == rest.1;
      assert whole.0[|whole.0| - 1] == rest.0[|rest.0| - 1];
    } else {
      assert whole.1 == StillRunning;
    }
  }
}
