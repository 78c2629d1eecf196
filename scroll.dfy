/** The scroll state of a scrollable list: `size` visible rows, the first of them at
    `offset`, out of `total` items. */
module Scroll {
  import opened Base

  /** The offset `to(index)` settles on: scroll up to the index when it is above the
      window, down just far enough (but never past `total`) when it is below, and
      stay put when it is already visible. */
  function ScrollTarget(size: nat, offset: nat, total: nat, index: nat): (r: nat)
    ensures offset <= index < offset + size ==> r == offset
    ensures index < offset ==> r == index
    ensures index >= offset + size ==> r == Min(index + 1 - size, total)
    ensures (r <= index < r + size) <==> size > 0 && (index < offset + size || index < total + size)
    ensures offset <= total ==> r <= total
  {
    if index < offset then index
    else if index >= offset + size then Min(index + 1 - size, total)
    else offset
  }

  /** Scrolling to the same index a second time does nothing more. */
  lemma ScrollIdempotent(size: nat, offset: nat, total: nat, index: nat)
    requires size > 0
    ensures ScrollTarget(size, ScrollTarget(size, offset, total, index), total, index)
         == ScrollTarget(size, offset, total, index)
  {
  }

  class ScrollState {
    var size: nat
    var offset: nat
    var total: nat

    /** `ScrollState::default()`: everything zero. */
    constructor Default()
      ensures size == 0 && offset == 0 && total == 0
    {
      size, offset, total := 0, 0, 0;
    }

    /** `to(index)`: proved against `ScrollTarget`; `size` and `total` are untouched. */
    method To(index: nat)
      modifies this
      ensures offset == ScrollTarget(old(size), old(offset), old(total), index)
      ensures size == old(size) && total == old(total)
    {
      if index < offset {
        var diff := offset - index;
        offset := Max(offset - diff, 0);
      } else if index >= offset + size {
        var diff := index - (offset + size) + 1;
        offset := Min(offset + diff, total);
      }
    }
  }
}
