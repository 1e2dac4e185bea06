/** The drawing surface every widget draws on: Pillow's `ImageDraw` over the
    canvas's 1-bit image. Shapes and text are recorded as commands, in call
    order; the pixel writes the model computes itself (clearing and the
    pattern points) go straight into the pixel array. */
module Surface {
  import opened Common
  import opened Fonts

  /** An axis-aligned box `(x0, y0, x1, y1)` as passed to Pillow. */
  datatype Bounds = Bounds(x0: int, y0: int, x1: int, y1: int)

  /** Where a text is drawn: a point, or a point given in polar form around a
      centre (radius and angle in degrees, Pillow's clockwise convention) and
      then moved `dy` pixels down. */
  datatype Pos = At(x: real, y: real) | Polar(cx: int, cy: int, radius: real, angle: real, dy: int)

  /** The six textures the pattern engine can synthesise. */
  datatype PatternKind = Horizontal | Vertical | Diagonal1 | Diagonal2 | Dots | Crosshatch

  /** One call on the drawing surface. */
  datatype Command =
    | Rectangle(bounds: Bounds, fill: Option<int>, outline: Option<int>, width: int)
    | PieSlice(bounds: Bounds, start: real, end: real, fill: Option<int>, outline: Option<int>, width: int)
    | Ellipse(bounds: Bounds, fill: Option<int>, outline: Option<int>, width: int)
    | TextAt(at: Pos, text: string, font: Font, color: int, anchor: Option<string>)
      /** a rectangle filled with `color` over the bounding box `textbbox` reports for a text */
    | TextBoxFill(at: Pos, text: string, font: Font, anchor: Option<string>, color: int)
    | Polyline(points: seq<(int, int)>, color: int, width: int)
      /** a pass of the pattern engine, whose points are written into the pixels */
    | Stipple(kind: PatternKind, bounds: Bounds, spacing: int)

  /** A shape the external rasteriser can fill. */
  datatype Shape = PieShape(bounds: Bounds, start: real, end: real) | EllipseShape(bounds: Bounds)

  /** The external rasteriser, seen from outside: whether filling a shape covers pixel `(x, y)`. */
  type Rasterizer = (Shape, int, int) -> bool

  /** Ink and paper in a 1-bit image. */
  const Ink := 0
  const Paper := 255

  class Surface {
    /** The calls made so far, oldest first. */
    var log: seq<Command>
    /** The pixels, indexed `image[x, y]`. */
    const image: array2<int>

    /** `Image.new('1', (width, height), 255)` and a fresh `ImageDraw` on it. */
    constructor (width: nat, height: nat)
      ensures fresh(image) && image.Length0 == width && image.Length1 == height
      ensures log == []
      ensures forall x, y | 0 <= x < width && 0 <= y < height :: image[x, y] == Paper
    {
      log := [];
      image := new int[width, height]((x, y) => Paper);
    }

    /** Records one call. */
    method Emit(c: Command)
      modifies this
      ensures log == old(log) + [c]
    {
      log := log + [c];
    }

    /** Records several calls, in order. */
    method EmitAll(cs: seq<Command>)
      modifies this
      ensures log == old(log) + cs
    {
      log := log + cs;
    }

    /** `rectangle((0, 0, width, height), fill=color)`: the box covers the whole image. */
    method Fill(color: int)
      modifies this, image
      ensures log == old(log) + [Rectangle(Bounds(0, 0, image.Length0, image.Length1), Some(color), None, 1)]
      ensures forall x, y | 0 <= x < image.Length0 && 0 <= y < image.Length1 :: image[x, y] == color
    {
      log := log + [Rectangle(Bounds(0, 0, image.Length0, image.Length1), Some(color), None, 1)];
      forall x, y | 0 <= x < image.Length0 && 0 <= y < image.Length1 {
        image[x, y] := color;
      }
    }
  }

  /** `draw.point((x, y), fill=0)`: inks one pixel; a point outside the image is dropped. */
  method Plot(image: array2<int>, x: int, y: int)
    modifies image
    ensures forall px, py | 0 <= px < image.Length0 && 0 <= py < image.Length1 ::
      image[px, py] == if px == x && py == y then Ink else old(image[px, py])
  {
    if 0 <= x < image.Length0 && 0 <= y < image.Length1 {
      image[x, y] := Ink;
    }
  }
}
