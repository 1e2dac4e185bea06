/** The layout helpers: each keeps a cursor and, on `add`, moves the widget to
    the cursor and advances the cursor past it. */
module Layout {
  import opened Common
  import opened Widgets

  /** The cursor after placing a widget: advanced by the explicit extent when it
      is truthy (given and non-zero), else by the widget's own attribute when it
      has one, plus the spacing; otherwise left where it was. */
  function Advance(cursor: int, explicit: Option<int>, attr: Option<int>, spacing: int): (next: int)
    ensures explicit.Some? && explicit.value != 0 ==> next == cursor + explicit.value + spacing
    ensures (explicit.None? || explicit.value == 0) && attr.Some? ==> next == cursor + attr.value + spacing
    ensures (explicit.None? || explicit.value == 0) && attr.None? ==> next == cursor
  {
    if explicit.Some? && explicit.value != 0 then cursor + explicit.value + spacing
    else if attr.Some? then cursor + attr.value + spacing
    else cursor
  }

  /** An explicit extent of 0 is falsy: it is ignored, as if none were given. */
  lemma ZeroExtentIgnored(cursor: int, attr: Option<int>, spacing: int)
    ensures Advance(cursor, Some(0), attr, spacing) == Advance(cursor, None, attr, spacing)
  {
  }

  /** With non-negative spacing, a widget placed at the cursor with a
      non-negative extent ends before the next widget starts: consecutive
      widgets never overlap, and the cursor never moves back. */
  lemma PlacementsDoNotOverlap(cursor: int, explicit: Option<int>, attr: Option<int>, spacing: int)
    requires spacing >= 0
    requires (explicit.Some? && explicit.value > 0) || ((explicit.None? || explicit.value == 0) && attr.Some? && attr.value >= 0)
    ensures var extent := if explicit.Some? && explicit.value != 0 then explicit.value else attr.value;
      cursor + extent <= Advance(cursor, explicit, attr, spacing)
    ensures cursor <= Advance(cursor, explicit, attr, spacing)
  {
  }

  /** A text or donut chart added without an explicit extent does not move the
      cursor, so the next widget lands at the same place. */
  lemma ExtentlessWidgetStays(cursor: int, k: Kind, spacing: int)
    requires k.TextKind? || k.DonutKind?
    ensures Advance(cursor, None, WidthAttr(k), spacing) == cursor
    ensures Advance(cursor, None, HeightAttr(k), spacing) == cursor
  {
  }

  class HorizontalLayout {
    const x: int
    const y: int
    const spacing: int
    var currentX: int

    /** `HorizontalLayout(x, y, spacing)`: the cursor starts at `x`. */
    constructor (x: int, y: int, spacing: int)
      ensures this.x == x && this.y == y && this.spacing == spacing && currentX == x
    {
      this.x := x;
      this.y := y;
      this.spacing := spacing;
      currentX := x;
    }

    /** `add(widget, width)`: puts the widget at the cursor on the layout's row
        and returns it. */
    method Add(w: Widget, width: Option<int>) returns (r: Widget)
      modifies this, w
      ensures r == w && w.x == old(currentX) && w.y == y
      ensures currentX == Advance(old(currentX), width, WidthAttr(w.kind), spacing)
    {
      w.x := currentX;
      w.y := y;
      if width.Some? && width.value != 0 {
        currentX := currentX + width.value + spacing;
      } else if WidthAttr(w.kind).Some? {
        currentX := currentX + WidthAttr(w.kind).value + spacing;
      }
      return w;
    }
  }

  class VerticalLayout {
    const x: int
    const y: int
    const spacing: int
    var currentY: int

    /** `VerticalLayout(x, y, spacing)`: the cursor starts at `y`. */
    constructor (x: int, y: int, spacing: int)
      ensures this.x == x && this.y == y && this.spacing == spacing && currentY == y
    {
      this.x := x;
      this.y := y;
      this.spacing := spacing;
      currentY := y;
    }

    /** `add(widget, height)`: puts the widget at the cursor in the layout's
        column and returns it. */
    method Add(w: Widget, height: Option<int>) returns (r: Widget)
      modifies this, w
      ensures r == w && w.x == x && w.y == old(currentY)
      ensures currentY == Advance(old(currentY), height, HeightAttr(w.kind), spacing)
    {
      w.x := x;
      w.y := currentY;
      if height.Some? && height.value != 0 {
        currentY := currentY + height.value + spacing;
      } else if HeightAttr(w.kind).Some? {
        currentY := currentY + HeightAttr(w.kind).value + spacing;
      }
      return w;
    }
  }
}
