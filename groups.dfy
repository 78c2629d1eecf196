/** Builders that gather children in call order: the generic `Stacked` of the
    context-passing versions, `FocusStack`, and the `Rows`/`Columns`/`Layers` groups. */
module Groups {
  import opened Base
  import F = Focus
  import C = Collect

  /** `Stacked(axis, items)` over any widget type. */
  datatype Stack<W> = Stack(axis: Axis, items: seq<C.Collected<W>>)

  /** `Stacked::x`/`y`/`z`: the stack holds one item per collector call, in call
      order, each the wrapped argument. */
  function StackOf<W>(axis: Axis, calls: seq<C.Arg<W>>): (r: Stack<W>)
    ensures r.axis == axis && |r.items| == |calls|
    ensures forall k :: 0 <= k < |calls| ==> r.items[k].Present() && r.items[k].item == calls[k].w
  {
    Stack(axis, C.WrapAll(C.ByKind, calls))
  }

  /** Splitting the closure in two splits the stack in two, in the same order. */
  lemma StackOfAppend<W>(axis: Axis, a: seq<C.Arg<W>>, b: seq<C.Arg<W>>)
    ensures StackOf(axis, a + b).items == StackOf(axis, a).items + StackOf(axis, b).items
  {
    C.WrapAllAppend(C.ByKind, a, b);
  }

  /** A stack that also keeps a focus state; its `Focus` methods work on the stack's
      children and its own state. */
  class FocusStack<W> {
    const axis: Axis
    const list: F.FocusList<C.Collected<W>>

    /** `FocusStack::new(stack)`: the stack's children, unfocused, nothing selected. */
    constructor New(stack: Stack<W>)
      ensures axis == stack.axis
      ensures fresh(list) && list.items == stack.items && list.state == F.Unfocused
    {
      axis := stack.axis;
      list := new F.FocusList.New(stack.items);
    }

    /** `FocusStack::x`/`y`/`z`: collect the children, then start unfocused. */
    constructor Of(axis: Axis, calls: seq<C.Arg<W>>)
      ensures this.axis == axis
      ensures fresh(list) && list.items == StackOf(axis, calls).items && list.state == F.Unfocused
    {
      this.axis := axis;
      list := new F.FocusList.New(StackOf(axis, calls).items);
    }

    /** `select(index)`: bounded by the number of children. */
    method Select(index: nat) returns (ok: bool)
      modifies list
      ensures list.items == old(list.items)
      ensures ok <==> index < |list.items|
      ensures (ok, list.state) == F.Selection(|list.items|, old(list.state), index)
    {
      ok := list.Select(index);
    }
  }

  /** Which way a group lays out its children. */
  datatype Direction = Rows | Columns | Layers

  /** `Rows`, `Columns` and `Layers`: a vector of collected items, built by `add`. */
  class Group<W> {
    const direction: Direction
    var items: seq<C.Collected<W>>

    /** `Rows::new()`, `Columns::new()`, `Layers::new()`: no items. */
    constructor New(direction: Direction)
      ensures this.direction == direction && items == []
    {
      this.direction := direction;
      items := [];
    }

    /** `add(widget)`: appends exactly the collected widget at the end, keeps the
        earlier items, and returns the same group for chaining. */
    method Add(a: C.Arg<W>) returns (self: Group<W>)
      modifies this
      ensures self == this
      ensures items == old(items) + [C.Wrap(C.ByKind, a)]
    {
      items := items + [C.Wrap(C.ByKind, a)];
      self := this;
    }
  }

  /** Chained `add` calls on a fresh group leave the arguments' wrappings in call order. */
  method BuildGroup<W>(direction: Direction, calls: seq<C.Arg<W>>) returns (g: Group<W>)
    ensures fresh(g) && g.direction == direction
    ensures g.items == C.WrapAll(C.ByKind, calls)
  {
    g := new Group.New(direction);
    var i := 0;
    while i < |calls|
      invariant 0 <= i <= |calls|
      invariant fresh(g) && g.direction == direction
      invariant g.items == C.WrapAll(C.ByKind, calls[..i])
    {
      assert calls[..i + 1][..i] == calls[..i];
      g := g.Add(calls[i]);
      i := i + 1;
    }
    assert calls[..i] == calls;
  }
}
