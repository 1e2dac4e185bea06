/** The widget base class: a position the layouts may overwrite, and the
    widget-specific settings fixed at construction. `draw` dispatches on the kind. */
module Widgets {
  import opened Common
  import opened Fonts
  import opened Surface
  import opened SimpleWidgets
  import opened Donut

  /** The kinds of widget the canvas can draw. */
  datatype Kind =
    | TextKind(text: Text)
    | BoxKind(box: Box)
    | StatusBoxKind(status: StatusBox)
    | NotchBarKind(notches: NotchBar)
    | ProgressBarKind(bar: ProgressBar)
    | LineKind(line: Line)
    | GraphKind(graph: SimpleGraph)
    | DonutKind(donut: DonutChart)

  /** `getattr(widget, 'width')` when the widget has such an attribute. For a
      line this is its stroke width; texts and donut charts have none. */
  function WidthAttr(k: Kind): (w: Option<int>)
    ensures w.None? <==> k.TextKind? || k.DonutKind?
  {
    match k
    case TextKind(_) => None
    case BoxKind(b) => Some(b.width)
    case StatusBoxKind(b) => Some(b.width)
    case NotchBarKind(b) => Some(b.width)
    case ProgressBarKind(b) => Some(b.width)
    case LineKind(l) => Some(l.width)
    case GraphKind(g) => Some(g.width)
    case DonutKind(_) => None
  }

  /** `getattr(widget, 'height')` when the widget has such an attribute. */
  function HeightAttr(k: Kind): (h: Option<int>)
    ensures h.None? <==> k.TextKind? || k.LineKind? || k.DonutKind?
  {
    match k
    case TextKind(_) => None
    case BoxKind(b) => Some(b.height)
    case StatusBoxKind(b) => Some(b.height)
    case NotchBarKind(b) => Some(b.height)
    case ProgressBarKind(b) => Some(b.height)
    case LineKind(_) => None
    case GraphKind(g) => Some(g.height)
    case DonutKind(_) => None
  }

  /** The calls a widget of kind `k` at `(x, y)` makes, or the error it raises. */
  function KindCommands(k: Kind, x: int, y: int, fonts: Registry): (r: Outcome<seq<Command>>)
    requires "small" in fonts && "medium" in fonts
    ensures r.Raised? <==> k.NotchBarKind? && k.notches.numNotches == 0
  {
    match k
    case TextKind(t) => Returned([TextCommand(x, y, t, fonts)])
    case BoxKind(b) => Returned([BoxCommand(x, y, b)])
    case StatusBoxKind(b) => Returned(StatusBoxCommands(x, y, b, fonts))
    case NotchBarKind(b) => NotchBarCommands(x, y, b)
    case ProgressBarKind(p) => Returned(ProgressBarCommands(x, y, p, fonts))
    case LineKind(l) => Returned([LineCommand(x, y, l)])
    case GraphKind(g) => Returned(GraphCommands(x, y, g))
    case DonutKind(c) => Returned(DonutCommands(c, x, y, fonts))
  }

  class Widget {
    var x: int
    var y: int
    const kind: Kind

    constructor (x: int, y: int, kind: Kind)
      ensures this.x == x && this.y == y && this.kind == kind
    {
      this.x := x;
      this.y := y;
      this.kind := kind;
    }

    /** `widget.draw(draw, image, fonts)`. Only the donut chart writes pixels
        directly (its pattern passes); everything else is recorded. */
    method Draw(s: Surface, fonts: Registry, covers: Rasterizer) returns (raised: Option<PyError>)
      requires "small" in fonts && "medium" in fonts
      modifies s, s.image
      ensures KindCommands(kind, x, y, fonts).Returned? ==>
        raised == None && s.log == old(s.log) + KindCommands(kind, x, y, fonts).value
      ensures KindCommands(kind, x, y, fonts).Raised? ==>
        raised == Some(KindCommands(kind, x, y, fonts).error) && s.log == old(s.log)
      ensures !kind.DonutKind? || kind.donut.data == [] || Sum(kind.donut.data) == 0.0 ==> unchanged(s.image)
      ensures kind.DonutKind? && kind.donut.data != [] && Sum(kind.donut.data) != 0.0 ==>
        forall px, py | 0 <= px < s.image.Length0 && 0 <= py < s.image.Length1 ::
          s.image[px, py] == if Stippled(kind.donut, x, y, covers, Sum(kind.donut.data), |kind.donut.data|, px, py)
                             then Ink else old(s.image[px, py])
    {
      raised := None;
      match kind
      case TextKind(t) => DrawText(s, x, y, t, fonts);
      case BoxKind(b) => DrawBox(s, x, y, b);
      case StatusBoxKind(b) => DrawStatusBox(s, x, y, b, fonts);
      case NotchBarKind(b) => raised := DrawNotchBar(s, x, y, b);
      case ProgressBarKind(p) => DrawProgressBar(s, x, y, p, fonts);
      case LineKind(l) => DrawLine(s, x, y, l);
      case GraphKind(g) => DrawSimpleGraph(s, x, y, g);
      case DonutKind(c) => DrawDonut(s, x, y, c, fonts, covers);
    }
  }
}
