/** The Focus API: a list of items with a "has focus" flag and an optional selected
    index, navigated by `select`, `select_next` and `select_prev`.

    The trait's default methods are the same in both versions of the toolkit that
    define them, so their behaviour is stated once, as transitions over the item
    count and the focus state, and `FocusList` implements them in place. */
module Focus {
  import opened Base

  /** `FocusState(has_focus, selected)`. */
  datatype FocusState = FocusState(focused: bool, selected: Option<nat>)

  /** `FocusState::default()`: unfocused, nothing selected. */
  const Unfocused: FocusState := FocusState(false, None)

  /** The selection, if any, names an existing item. The trait's own methods keep
      this; the public `state` field and `items_mut` let callers break it. */
  predicate InRange(n: nat, s: FocusState)
  {
    s.selected.Some? ==> s.selected.value < n
  }

  /** `select(index)` over `n` items: succeeds exactly when the index exists, and
      then only the selection changes; on failure nothing changes. */
  function Selection(n: nat, s: FocusState, index: nat): (r: (bool, FocusState))
    ensures r.0 <==> index < n
    ensures r.0 ==> r.1 == FocusState(s.focused, Some(index)) && InRange(n, r.1)
    ensures !r.0 ==> r.1 == s
  {
    if index < n then (true, s.(selected := Some(index))) else (false, s)
  }

  /** `select_next()`. With a selection it computes `len() - 1`, which underflows
      (a panic) when the list is empty; otherwise it steps forward with wrap-around,
      and with no selection it selects index 0. */
  function NextSelection(n: nat, s: FocusState): (r: Result<(bool, FocusState)>)
    ensures r.Err? <==> s.selected.Some? && n == 0
    ensures r.Err? ==> r.error == Panic(Underflow)
    ensures s.selected.None? ==> r == Ok(Selection(n, s, 0))
    ensures s.selected.Some? && s.selected.value < n ==>
      r == Ok((true, s.(selected := Some((s.selected.value + 1) % n))))
    ensures s.selected.Some? && 0 < n <= s.selected.value ==>
      r == Ok((true, s.(selected := Some(0))))
  {
    match s.selected
    case None => Ok(Selection(n, s, 0))
    case Some(index) =>
      if n == 0 then Err(Panic(Underflow))
      else Ok(Selection(n, s, if index >= n - 1 then 0 else index + 1))
  }

  /** `select_prev()`. With no selection it selects index 0 (not the last item);
      from 0 it wraps to `len() - 1`, which underflows when the list is empty;
      otherwise it selects `index - 1`, which fails when that index is stale too. */
  function PrevSelection(n: nat, s: FocusState): (r: Result<(bool, FocusState)>)
    ensures r.Err? <==> s.selected == Some(0) && n == 0
    ensures r.Err? ==> r.error == Panic(Underflow)
    ensures s.selected.None? ==> r == Ok(Selection(n, s, 0))
    ensures s.selected.Some? && s.selected.value < n ==>
      r == Ok((true, s.(selected := Some((s.selected.value + n - 1) % n))))
    ensures s.selected.Some? && 0 < s.selected.value <= n ==> r == Ok((true, s.(selected := Some(s.selected.value - 1))))
    ensures s.selected.Some? && s.selected.value > n ==> r == Ok((false, s))
  {
    match s.selected
    case None => Ok(Selection(n, s, 0))
    case Some(index) =>
      if index == 0 then
        if n == 0 then Err(Panic(Underflow)) else Ok(Selection(n, s, n - 1))
      else Ok(Selection(n, s, index - 1))
  }

  /** None of the selecting transitions ever leaves a stale index behind. */
  lemma TransitionsKeepInRange(n: nat, s: FocusState, index: nat)
    requires InRange(n, s)
    ensures InRange(n, Selection(n, s, index).1)
    ensures NextSelection(n, s).Ok? && InRange(n, NextSelection(n, s).value.1)
    ensures PrevSelection(n, s).Ok? && InRange(n, PrevSelection(n, s).value.1)
  {
  }

  /** On an empty list nothing can be selected: `select(0)` fails, and with no
      selection `select_next`/`select_prev` fail cleanly instead of panicking. */
  lemma EmptyListNavigation(s: FocusState, index: nat)
    requires s.selected.None?
    ensures Selection(0, s, index) == (false, s)
    ensures NextSelection(0, s) == Ok((false, s))
    ensures PrevSelection(0, s) == Ok((false, s))
  {
  }

  /** `select_prev` undoes `select_next` on a selection that names an item. */
  lemma PrevUndoesNext(n: nat, s: FocusState)
    requires s.selected.Some? && s.selected.value < n
    ensures NextSelection(n, s).Ok?
    ensures PrevSelection(n, NextSelection(n, s).value.1) == Ok((true, s))
  {
    var i := s.selected.value;
    var j := (i + 1) % n;
    if i + 1 < n {
      assert j == i + 1;
      assert (j + n - 1) % n == i by { ModOfSmall(i, n); }
    } else {
      assert j == 0;
      assert (j + n - 1) % n == i by { ModOfSmall(n - 1, n); }
    }
  }

  lemma ModOfSmall(a: nat, n: nat)
    requires a < n
    ensures (a + n) % n == a && a % n == a
  {
  }

  /** `m` reduced into `0..n` by repeated subtraction, the index reached after
      counting `m` steps around a ring of `n` items. */
  function Wrap(m: nat, n: nat): (r: nat)
    requires n > 0
    ensures r < n
    decreases m
  {
    if m < n then m else Wrap(m - n, n)
  }

  /** The ring index is the remainder: `Wrap(m, n) == m % n`. */
  lemma {:induction false} WrapIsMod(m: nat, n: nat)
    requires n > 0
    ensures Wrap(m, n) == m % n
    decreases m
  {
    if m >= n {
      WrapIsMod(m - n, n);
      var q, r := (m - n) / n, (m - n) % n;
      assert m - n == q * n + r;
      assert m == (q + 1) * n + r;
      RemainderUnique(m, n, q + 1, r);
    } else {
      RemainderUnique(m, n, 0, m);
    }
  }

  /** A number written as `q * n + r` with `r` below `n` has remainder `r`. */
  lemma RemainderUnique(m: nat, n: nat, q: nat, r: nat)
    requires n > 0 && r < n && m == q * n + r
    ensures m % n == r
  {
    var q', r' := m / n, m % n;
    assert m == q' * n + r';
    if q' < q {
      assert q * n == q' * n + (q - q') * n;
      MultipleAtLeast(q - q', n);
    } else if q < q' {
      assert q' * n == q * n + (q' - q) * n;
      MultipleAtLeast(q' - q, n);
    }
  }

  lemma {:induction false} MultipleAtLeast(d: nat, n: nat)
    requires d >= 1
    ensures d * n >= n
    decreases d
  {
    if d > 1 {
      MultipleAtLeast(d - 1, n);
      assert d * n == (d - 1) * n + n;
    }
  }

  /** One more step around the ring is one wrap-around step from the reduced index. */
  lemma {:induction false} WrapStep(m: nat, n: nat)
    requires n > 0
    ensures Wrap(m + 1, n) == (Wrap(m, n) + 1) % n
    decreases m
  {
    if m >= n {
      WrapStep(m - n, n);
      assert m + 1 - n == (m - n) + 1;
    } else if m + 1 == n {
      assert Wrap(m + 1, n) == Wrap(0, n) == 0;
    }
  }

  /** The state after `k` successful `select_next` calls on a non-empty list. */
  function NextTimes(n: nat, s: FocusState, k: nat): (r: FocusState)
    requires n > 0
    decreases k
  {
    if k == 0 then s else NextTimes(n, NextSelection(n, s).value.1, k - 1)
  }

  /** `k` forward steps from index `i` land on `i + k` around the ring of `n`
      items; the focus flag is kept. */
  lemma {:induction false} NextTimesLandsOn(n: nat, s: FocusState, k: nat)
    requires n > 0 && s.selected.Some? && s.selected.value < n
    ensures NextTimes(n, s, k) == s.(selected := Some(Wrap(s.selected.value + k, n)))
    decreases k
  {
    var i := s.selected.value;
    if k == 0 {
      assert Wrap(i, n) == i;
    } else {
      var t := NextSelection(n, s).value.1;
      WrapStep(i, n);
      assert t == s.(selected := Some(Wrap(i + 1, n)));
      NextTimesLandsOn(n, t, k - 1);
      assert NextTimes(n, t, k - 1) == s.(selected := Some(Wrap(Wrap(i + 1, n) + (k - 1), n)));
      WrapShift(i + 1, k - 1, n);
    }
  }

  /** Reducing before or after adding more steps reaches the same index. */
  lemma {:induction false} WrapShift(m: nat, k: nat, n: nat)
    requires n > 0
    ensures Wrap(Wrap(m, n) + k, n) == Wrap(m + k, n)
    decreases m
  {
    if m >= n {
      WrapShift(m - n, k, n);
      assert Wrap(m + k, n) == Wrap(m - n + k, n);
    }
  }

  /** Wrap-around closes the cycle: `len()` forward steps return to the start. */
  lemma NextCycle(n: nat, s: FocusState)
    requires n > 0 && s.selected.Some? && s.selected.value < n
    ensures NextTimes(n, s, n) == s
  {
    var i := s.selected.value;
    NextTimesLandsOn(n, s, n);
    assert Wrap(i + n, n) == Wrap(i, n) == i;
  }

  /** A list of sequentially selectable items. */
  class FocusList<T> {
    var items: seq<T>
    var state: FocusState

    /** `FocusList::default()`: no items, unfocused, nothing selected. */
    constructor Default()
      ensures items == [] && state == Unfocused
    {
      items := [];
      state := Unfocused;
    }

    /** `FocusList::new(items)`: takes the items, with the default state. */
    constructor New(items: seq<T>)
      ensures this.items == items && state == Unfocused
    {
      this.items := items;
      state := Unfocused;
    }

    /** `len()`: the number of items; an index that `get()` resolves is below it. */
    function Len(): (r: nat)
      reads this
      ensures r == |items|
      ensures Get().Some? ==> state.selected.value < r
      ensures r == 0 ==> Get() == None
    {
      |items|
    }

    /** `get()`: the selected item, or nothing when no index is selected or the
        index no longer names an item. */
    function Get(): (r: Option<T>)
      reads this
      ensures r.Some? <==> state.selected.Some? && state.selected.value < |items|
      ensures r.Some? ==> r.value == items[state.selected.value]
    {
      match state.selected
      case Some(i) => if i < |items| then Some(items[i]) else None
      case None => None
    }

    /** `push(item)`: appends; the focus state is untouched. */
    method Push(item: T)
      modifies this
      ensures items == old(items) + [item]
      ensures state == old(state)
      ensures InRange(|old(items)|, old(state)) ==> InRange(|items|, state)
    {
      items := items + [item];
    }

    /** `replace(items)`: installs the new items and clears the selection. */
    method Replace(newItems: seq<T>)
      modifies this
      ensures items == newItems
      ensures state == FocusState(old(state).focused, None)
    {
      items := newItems;
      state := state.(selected := None);
    }

    method Focus() returns (ok: bool)
      modifies this
      ensures ok && items == old(items)
      ensures state == old(state).(focused := true)
    {
      state := state.(focused := true);
      ok := true;
    }

    method Unfocus() returns (ok: bool)
      modifies this
      ensures ok && items == old(items)
      ensures state == old(state).(focused := false)
    {
      state := state.(focused := false);
      ok := true;
    }

    method Unselect() returns (ok: bool)
      modifies this
      ensures ok && items == old(items)
      ensures state == old(state).(selected := None)
    {
      state := state.(selected := None);
      ok := true;
    }

    /** `select(index)`: proved against `Selection`. */
    method Select(index: nat) returns (ok: bool)
      modifies this
      ensures items == old(items)
      ensures (ok, state) == Selection(|items|, old(state), index)
    {
      if index < |items| {
        ok := Unselect();
        state := state.(selected := Some(index));
        ok := true;
      } else {
        ok := false;
      }
    }

    /** `select_next()`: proved against `NextSelection`; the panic leaves the
        state as it was. */
    method SelectNext() returns (r: Result<bool>)
      modifies this
      ensures items == old(items)
      ensures NextSelection(|items|, old(state)).Ok? ==>
        r == Ok(NextSelection(|items|, old(state)).value.0) && state == NextSelection(|items|, old(state)).value.1
      ensures NextSelection(|items|, old(state)).Err? ==> r == Err(Panic(Underflow)) && state == old(state)
    {
      match state.selected {
        case Some(index) =>
          if |items| == 0 {
            r := Err(Panic(Underflow));
            return;
          }
          var ok := Select(if index >= |items| - 1 then 0 else index + 1);
          r := Ok(ok);
        case None =>
          var ok := Select(0);
          r := Ok(ok);
      }
    }

    /** `select_prev()`: proved against `PrevSelection`. */
    method SelectPrev() returns (r: Result<bool>)
      modifies this
      ensures items == old(items)
      ensures PrevSelection(|items|, old(state)).Ok? ==>
        r == Ok(PrevSelection(|items|, old(state)).value.0) && state == PrevSelection(|items|, old(state)).value.1
      ensures PrevSelection(|items|, old(state)).Err? ==> r == Err(Panic(Underflow)) && state == old(state)
    {
      match state.selected {
        case Some(index) =>
          if index == 0 {
            if |items| == 0 {
              r := Err(Panic(Underflow));
              return;
            }
            var ok := Select(|items| - 1);
            r := Ok(ok);
          } else {
            var ok := Select(index - 1);
            r := Ok(ok);
          }
        case None =>
          var ok := Select(0);
          r := Ok(ok);
      }
    }
  }

  /** `FocusList::new(["a", "b", "c"])`, then `select(1)` and three `select_next()`
      calls: the selection is back on index 1, and `get()` yields "b". */
  method ThreeStepsScenario() returns (selected: Option<nat>, item: Option<string>)
    ensures selected == Some(1) && item == Some("b")
  {
    var list := new FocusList<string>.New(["a", "b", "c"]);
    var ok := list.Select(1);
    var r := list.SelectNext();
    r := list.SelectNext();
    r := list.SelectNext();
    selected := list.state.selected;
    item := list.Get();
  }

  /** `select(i)` followed by `get()` yields the item at `i`, when `i` exists. */
  method SelectThenGet<T>(list: FocusList<T>, i: nat) returns (item: Option<T>)
    modifies list
    ensures i < |old(list.items)| ==> item == Some(old(list.items)[i])
    ensures i >= |old(list.items)| ==> list.state == old(list.state)
  {
    var ok := list.Select(i);
    item := list.Get();
  }
}
