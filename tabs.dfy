/** A tabbed container: a strip of page labels on one side of the selected page.
    Only which labels appear, which one is highlighted, and in which order the strip,
    a spacer and the page are arranged are modelled here. */
module Tabs {
  import opened Base
  import G = Groups

  datatype TabSide = Top | Right | Bottom | Left

  /** `Tabbed { side, focus, pages, range: (skip, size) }`; a page is its label and
      its content. */
  datatype Tabbed<T> = Tabbed(side: Option<TabSide>, focus: Option<nat>, pages: seq<(string, T)>, skip: nat, size: nat)

  /** `get()`: the content of the focused page, if the focus names a page. */
  function Get<T>(t: Tabbed<T>): (r: Option<T>)
    ensures r.Some? <==> t.focus.Some? && t.focus.value < |t.pages|
    ensures r.Some? ==> r.value == t.pages[t.focus.value].1
  {
    if t.focus.Some? && t.focus.value < |t.pages| then Some(t.pages[t.focus.value].1) else None
  }

  /** A label in the strip, highlighted or plain. */
  datatype Tab = Tab(index: nat, text: string, highlighted: bool)

  function TabAt<T>(t: Tabbed<T>, i: nat): Tab
    requires i < |t.pages|
  {
    Tab(i, t.pages[i].0, t.focus == Some(i))
  }

  /** The last index the strip shows: the first index from `skip` on that reaches
      `size`, or the final page when none does. `size` is an index bound, not a count. */
  function LastShown<T>(t: Tabbed<T>): (last: nat)
    requires t.skip < |t.pages|
    ensures t.skip <= last < |t.pages|
    ensures last >= t.size || last == |t.pages| - 1
    ensures last == t.skip || last <= t.size
  {
    Min(Max(t.skip, t.size), |t.pages| - 1)
  }

  /** The labels `add_tabs` emits: pages `skip` to `LastShown` in page order, each
      highlighted exactly when its index is the focus; nothing when `skip` is past
      the last page. */
  function Strip<T>(t: Tabbed<T>): (r: seq<Tab>)
    ensures t.skip >= |t.pages| ==> r == []
    ensures t.skip < |t.pages| ==> |r| == LastShown(t) - t.skip + 1
    ensures forall k :: 0 <= k < |r| ==>
      t.skip + k < |t.pages| && r[k] == TabAt(t, t.skip + k)
  {
    if t.skip >= |t.pages| then []
    else seq(LastShown(t) - t.skip + 1, k requires 0 <= k < LastShown(t) - t.skip + 1 => TabAt(t, t.skip + k))
  }

  /** At most one label is highlighted, and it is the focused page's. */
  lemma OnlyFocusHighlighted<T>(t: Tabbed<T>, k: nat, l: nat)
    requires k < |Strip(t)| && l < |Strip(t)|
    ensures Strip(t)[k].highlighted <==> t.focus == Some(t.skip + k)
    ensures Strip(t)[k].highlighted && Strip(t)[l].highlighted ==> k == l
  {
  }

  /** `add_tabs`: the loop over `pages.iter().enumerate().skip(skip)` that adds each
      label to the container and stops after the first index that reaches `size`. */
  method AddTabs<T>(t: Tabbed<T>, container: seq<Tab>) returns (r: seq<Tab>)
    ensures r == container + Strip(t)
  {
    r := container;
    var index := t.skip;
    while index < |t.pages|
      invariant t.skip <= index
      invariant index <= |t.pages| || index == t.skip
      invariant t.skip < |t.pages| ==> index <= LastShown(t) + 1
      invariant index == t.skip || index <= t.size
      invariant t.skip < |t.pages| ==> r == container + Strip(t)[..index - t.skip]
      invariant t.skip >= |t.pages| ==> r == container
      decreases |t.pages| - index
    {
      r := r + [TabAt(t, index)];
      if index >= t.size {
        assert index == LastShown(t);
        break;
      }
      index := index + 1;
    }
    if t.skip < |t.pages| {
      assert index - t.skip == |Strip(t)| || index == LastShown(t);
      assert Strip(t)[..|Strip(t)|] == Strip(t);
    }
  }

  /** `tabs()`: no strip without a side; a column of labels for Left/Right and a row
      for Top/Bottom. */
  function TabsGroup<T>(t: Tabbed<T>): (r: Option<(G.Direction, seq<Tab>)>)
    ensures r.None? <==> t.side.None?
    ensures r.Some? ==> r.value.1 == Strip(t)
    ensures r.Some? ==> (r.value.0 == G.Columns <==> t.side.value in {Left, Right})
    ensures r.Some? ==> (r.value.0 == G.Rows <==> t.side.value in {Top, Bottom})
  {
    match t.side
    case None => None
    case Some(Left) => Some((G.Columns, Strip(t)))
    case Some(Right) => Some((G.Columns, Strip(t)))
    case Some(Top) => Some((G.Rows, Strip(t)))
    case Some(Bottom) => Some((G.Rows, Strip(t)))
  }

  /** One slot of the arranged layout. */
  datatype Slot<T> =
    | TabStrip(strip: Option<(G.Direction, seq<Tab>)>)
    | Gap(cells: Option<U16>)        // `page.map(|_| 1u16)`
    | Page(page: Option<T>)

  datatype Arrangement<T> = PageOnly(page: Option<T>) | Arranged(direction: G.Direction, slots: seq<Slot<T>>)

  /** `layout()`: just the page without a side; otherwise strip, a one-cell gap and the
      page, strip first on the Left and Top, last on the Right and Bottom. The gap is
      there only when a page is selected. */
  function Layout<T>(t: Tabbed<T>): (r: Arrangement<T>)
    ensures t.side.None? <==> r.PageOnly?
    ensures r.PageOnly? ==> r.page == Get(t)
    ensures r.Arranged? ==> |r.slots| == 3 && r.slots[1] == Gap(if Get(t).Some? then Some(1) else None)
    ensures r.Arranged? ==> r.direction == TabsGroup(t).value.0
    ensures r.Arranged? && t.side.value in {Left, Top} ==>
      r.slots[0] == TabStrip(TabsGroup(t)) && r.slots[2] == Page(Get(t))
    ensures r.Arranged? && t.side.value in {Right, Bottom} ==>
      r.slots[0] == Page(Get(t)) && r.slots[2] == TabStrip(TabsGroup(t))
  {
    var page := Get(t);
    var gap := Gap(if page.Some? then Some(1) else None);
    match t.side
    case None => PageOnly(page)
    case Some(side) =>
      match side
      case Left => Arranged(G.Columns, [TabStrip(TabsGroup(t)), gap, Page(page)])
      case Top => Arranged(G.Rows, [TabStrip(TabsGroup(t)), gap, Page(page)])
      case Right => Arranged(G.Columns, [Page(page), gap, TabStrip(TabsGroup(t))])
      case Bottom => Arranged(G.Rows, [Page(page), gap, TabStrip(TabsGroup(t))])
  }

  /** Moving the strip to the opposite side of the same direction mirrors the
      arrangement: the slots come in reverse order. */
  lemma OppositeSidesMirror<T>(t: Tabbed<T>)
    requires t.side == Some(Left) || t.side == Some(Top)
    ensures var o := t.(side := Some(if t.side == Some(Left) then Right else Bottom));
      Layout(o).direction == Layout(t).direction &&
      Layout(o).slots == [Layout(t).slots[2], Layout(t).slots[1], Layout(t).slots[0]]
  {
    var o := t.(side := Some(if t.side == Some(Left) then Right else Bottom));
    assert Strip(o) == Strip(t);
  }
}
