/** Ordered collections of widgets, built by calling a collector once per child.

    Three versions of the builder exist side by side. They differ only in how an
    argument is wrapped: by its kind (`into_collected`, and `collect` of the
    value-passing `Widget`), through `Collectible` (which has no impl for owned
    values and boxes a box again), or always boxed. */
module Collect {
  import opened Base

  /** `Collected` (and `Layout`): an owned item, a borrowed item, or nothing. */
  datatype Collected<W> = Boxed(item: W) | Ref(item: W) | Nil {
    predicate Present() { !Nil? }
  }

  /** How a widget is handed to a collector. */
  datatype Arg<W> =
    | Owned(w: W)          // a value, moved in
    | Borrowed(w: W)       // `&V`
    | BorrowedMut(w: W)    // `&mut V`
    | BoxedDyn(w: W)       // `Box<dyn Output>`

  /** The three wrapping rules. */
  datatype Wrapping =
    | ByKind        // `into_collected` (owned and boxed as `Box`, references as `Ref`)
    | Collectible   // `collect_into`: only `&V` and `Box<dyn Output>` are accepted
    | AlwaysBox     // the default `Collectible::collect`: every argument is boxed

  /** The argument types each rule has an implementation for: `into_collected` and
      the default `collect` take anything, while `collect_into` refuses an owned value
      and a `&mut` reference. */
  predicate Accepts<W>(rule: Wrapping, a: Arg<W>)
    ensures !rule.Collectible? ==> Accepts(rule, a)
    ensures rule.Collectible? && (a.Owned? || a.BorrowedMut?) ==> !Accepts(rule, a)
  {
    rule.Collectible? ==> a.Borrowed? || a.BoxedDyn?
  }

  /** What one call of the collector appends. Every rule keeps the widget itself
      and never produces `Nil`; only references become `Ref`, and a rule that
      always boxes never does. */
  function Wrap<W>(rule: Wrapping, a: Arg<W>): (r: Collected<W>)
    requires Accepts(rule, a)
    ensures r.Present() && r.item == a.w
    ensures rule.ByKind? ==> (r.Ref? <==> a.Borrowed? || a.BorrowedMut?)
    ensures rule.Collectible? ==> (r.Ref? <==> a.Borrowed?)
    ensures rule.AlwaysBox? ==> r.Boxed?
  {
    match rule
    case AlwaysBox => Boxed(a.w)
    case _ =>
      match a
      case Borrowed(w) => Ref(w)
      case BorrowedMut(w) => Ref(w)
      case Owned(w) => Boxed(w)
      case BoxedDyn(w) => Boxed(w)
  }

  predicate AcceptsAll<W>(rule: Wrapping, calls: seq<Arg<W>>)
  {
    forall i :: 0 <= i < |calls| ==> Accepts(rule, calls[i])
  }

  /** The items a closure that makes the calls `calls` leaves in a fresh collector:
      one per call, in call order. */
  function WrapAll<W>(rule: Wrapping, calls: seq<Arg<W>>): (r: seq<Collected<W>>)
    requires AcceptsAll(rule, calls)
    ensures |r| == |calls|
    ensures forall i :: 0 <= i < |calls| ==> r[i] == Wrap(rule, calls[i])
  {
    if calls == [] then []
    else WrapAll(rule, calls[..|calls| - 1]) + [Wrap(rule, calls[|calls| - 1])]
  }

  /** Running two closures one after the other collects their items in sequence. */
  lemma {:induction false} WrapAllAppend<W>(rule: Wrapping, a: seq<Arg<W>>, b: seq<Arg<W>>)
    requires AcceptsAll(rule, a) && AcceptsAll(rule, b)
    ensures AcceptsAll(rule, a + b)
    ensures WrapAll(rule, a + b) == WrapAll(rule, a) + WrapAll(rule, b)
  {
    assert AcceptsAll(rule, a + b) by {
      forall i | 0 <= i < |a + b|
        ensures Accepts(rule, (a + b)[i])
      {
        if i < |a| { assert (a + b)[i] == a[i]; } else { assert (a + b)[i] == b[i - |a|]; }
      }
    }
    var l, r := WrapAll(rule, a + b), WrapAll(rule, a) + WrapAll(rule, b);
    assert |l| == |r|;
    forall i | 0 <= i < |l|
      ensures l[i] == r[i]
    {
      if i < |a| { assert (a + b)[i] == a[i]; } else { assert (a + b)[i] == b[i - |a|]; }
    }
  }

  /** Each rule's `Debug` text. */
  datatype DebugStyle =
    | CollectedNil     // "Collected(Box)", "Collected(Ref)", "Collected(Nil.)"
    | CollectedX       // "Collected(Box)", "Collected(Ref)", "Collected(.x.)"
    | LayoutX          // "Layout(Box)", "Layout(Ref)", "Layout(.x.)"

  function Debug<W>(c: Collected<W>, style: DebugStyle): (r: string)
    ensures |r| > 2 && r[|r| - 1] == ')'
  {
    var head := if style.LayoutX? then "Layout(" else "Collected(";
    var tag := match c
      case Boxed(_) => "Box"
      case Ref(_) => "Ref"
      case Nil => if style.CollectedNil? then "Nil." else ".x.";
    head + tag + ")"
  }

  /** The `Debug` text names the variant and nothing else: two values print the same
      exactly when they are the same variant. */
  lemma DebugNamesVariant<W>(a: Collected<W>, b: Collected<W>, style: DebugStyle)
    ensures Debug(a, style) == Debug(b, style) <==>
      (a.Boxed? && b.Boxed?) || (a.Ref? && b.Ref?) || (a.Nil? && b.Nil?)
  {
    var head := if style.LayoutX? then "Layout(" else "Collected(";
    if Debug(a, style) == Debug(b, style) {
      var i := |head|;
      assert Debug(a, style)[i] == Debug(b, style)[i];
      assert Debug(a, style)[i + 1] == Debug(b, style)[i + 1];
    }
  }

  /** `Collected::render` (and `Layout::render` of the context-passing version):
      nothing renders as no size; an item renders as itself, errors included. */
  function Render<W, U>(c: Collected<W>, render: W -> Result<Option<U>>): (r: Result<Option<U>>)
    ensures c.Nil? ==> r == Ok(None)
    ensures c.Present() ==> r == render(c.item)
  {
    match c
    case Nil => Ok(None)
    case Boxed(item) => render(item)
    case Ref(item) => render(item)
  }

  /** Owned and borrowed copies of a widget render alike, and an item's error
      reaches the caller unchanged. */
  lemma BoxAndRefRenderAlike<W, U>(w: W, render: W -> Result<Option<U>>)
    ensures Render(Boxed(w), render) == Render(Ref(w), render) == render(w)
    ensures render(w).Err? ==> Render(Boxed(w), render) == Err(render(w).error)
  {
  }

  /** `Option<V>` as a widget: nothing renders as no size, `Some` as its content. */
  function RenderOption<W, U>(o: Option<W>, render: W -> Result<Option<U>>): (r: Result<Option<U>>)
    ensures o.None? ==> r == Ok(None)
    ensures o.Some? ==> r == render(o.value)
  {
    match o
    case None => Ok(None)
    case Some(w) => render(w)
  }

  /** A collector: the vector of items a closure adds to, in order. */
  class Collector<W> {
    var items: seq<Collected<W>>

    constructor Empty()
      ensures items == []
    {
      items := [];
    }

    /** `add`: pushes one item at the end and hands back the same collector. */
    method Add(c: Collected<W>) returns (self: Collector<W>)
      modifies this
      ensures self == this
      ensures items == old(items) + [c]
    {
      items := items + [c];
      self := this;
    }

    /** Calling the collector with an argument (`call_mut`): wraps it under the
        given rule and appends exactly that one item; earlier items stay. */
    method Call(rule: Wrapping, a: Arg<W>)
      requires Accepts(rule, a)
      modifies this
      ensures items == old(items) + [Wrap(rule, a)]
    {
      var self := Add(Wrap(rule, a));
    }
  }

  /** `collect_items` / `collect`: runs the closure, given as the calls it makes,
      once on an empty collector, and returns the collector. */
  method CollectItems<W>(rule: Wrapping, calls: seq<Arg<W>>) returns (c: Collector<W>)
    requires AcceptsAll(rule, calls)
    ensures fresh(c)
    ensures c.items == WrapAll(rule, calls)
  {
    c := new Collector.Empty();
    var i := 0;
    while i < |calls|
      invariant 0 <= i <= |calls|
      invariant c.items == WrapAll(rule, calls[..i])
    {
      assert calls[..i + 1][..i] == calls[..i];
      c.Call(rule, calls[i]);
      i := i + 1;
    }
    assert calls[..i] == calls;
  }
}
