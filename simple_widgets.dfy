/** The simple widgets: each one's drawing as the list of calls it makes on the
    surface, the arithmetic behind it, and the draw methods. */
module SimpleWidgets {
  import opened Common
  import opened PyNum
  import opened Fonts
  import opened Surface

  datatype Text = Text(text: string, fontSize: string, font: Option<string>, fill: int, anchor: Option<string>)
  datatype Box = Box(width: int, height: int, fill: int, outline: int, outlineWidth: int)
  datatype StatusBox = StatusBox(width: int, height: int, text: string, isActive: bool, fontSize: string)
  datatype NotchBar = NotchBar(width: int, height: int, level: real, numNotches: int, spacing: int)
  datatype ProgressBar = ProgressBar(width: int, height: int, progress: real, showPercentage: bool, fontSize: string)
  datatype Line = Line(x2: int, y2: int, fill: int, width: int)
  datatype SimpleGraph = SimpleGraph(width: int, height: int, data: seq<real>, minVal: real, maxVal: real)

  function Min(a: int, b: int): int { if a <= b then a else b }
  function Max(a: int, b: int): int { if a >= b then a else b }

  // ---------------------------------------------------------------- Text and Box

  /** Pillow is given the anchor only when it is truthy. */
  function AnchorArg(anchor: Option<string>): Option<string>
  {
    if Truthy(anchor) then anchor else None
  }

  /** The one call `Text.draw` makes: the text at `(x, y)` in its resolved font. */
  function TextCommand(x: int, y: int, t: Text, fonts: Registry): Command
  {
    TextAt(At(x as real, y as real), t.text, TextFont(fonts, t.font, t.fontSize), t.fill, AnchorArg(t.anchor))
  }

  /** `Text.draw`. */
  method DrawText(s: Surface, x: int, y: int, t: Text, fonts: Registry)
    modifies s
    ensures s.log == old(s.log) + [TextCommand(x, y, t, fonts)]
  {
    var font := TextFont(fonts, t.font, t.fontSize);
    s.Emit(TextAt(At(x as real, y as real), t.text, font, t.fill, AnchorArg(t.anchor)));
  }

  /** The one call `Box.draw` makes: a rectangle from `(x, y)` to `(x + width, y + height)`. */
  function BoxCommand(x: int, y: int, b: Box): Command
  {
    Rectangle(Bounds(x, y, x + b.width, y + b.height), Some(b.fill), Some(b.outline), b.outlineWidth)
  }

  /** `Box.draw`. */
  method DrawBox(s: Surface, x: int, y: int, b: Box)
    modifies s
    ensures s.log == old(s.log) + [BoxCommand(x, y, b)]
  {
    s.Emit(Rectangle(Bounds(x, y, x + b.width, y + b.height), Some(b.fill), Some(b.outline), b.outlineWidth));
  }

  /** The one call `Line.draw` makes: a segment from `(x, y)` to `(x2, y2)`. */
  function LineCommand(x: int, y: int, l: Line): Command
  {
    Polyline([(x, y), (l.x2, l.y2)], l.fill, l.width)
  }

  /** `Line.draw`. */
  method DrawLine(s: Surface, x: int, y: int, l: Line)
    modifies s
    ensures s.log == old(s.log) + [LineCommand(x, y, l)]
  {
    s.Emit(Polyline([(x, y), (l.x2, l.y2)], l.fill, l.width));
  }

  // ---------------------------------------------------------------- StatusBox

  /** The calls `StatusBox.draw` makes: outer box, inner box (black when active),
      centred label whose colour is always the complement of the inner fill. */
  function StatusBoxCommands(x: int, y: int, b: StatusBox, fonts: Registry): (cs: seq<Command>)
    requires "medium" in fonts
    ensures |cs| == 3 && cs[1].Rectangle? && cs[2].TextAt?
    ensures cs[0] == Rectangle(Bounds(x, y, x + b.width, y + b.height), Some(Paper), Some(Ink), 1)
    ensures cs[1].bounds == Bounds(x + 2, y + 2, x + b.width - 2, y + b.height - 2) && cs[1].outline == Some(Ink)
    ensures cs[1].fill == Some(if b.isActive then Ink else Paper)
    ensures cs[2].text == b.text && cs[2].font == SizeFont(fonts, b.fontSize, "medium") && cs[2].anchor == Some("mm")
    ensures cs[2].at == At(x as real + b.width as real / 2.0, y as real + b.height as real / 2.0 + 1.0)
    ensures cs[2].color == Paper - cs[1].fill.value
  {
    var textFill := if b.isActive then Paper else Ink;
    [ Rectangle(Bounds(x, y, x + b.width, y + b.height), Some(Paper), Some(Ink), 1),
      Rectangle(Bounds(x + 2, y + 2, x + b.width - 2, y + b.height - 2), Some(if b.isActive then Ink else Paper), Some(Ink), 1),
      TextAt(At(x as real + b.width as real / 2.0, y as real + b.height as real / 2.0 + 1.0),
             b.text, SizeFont(fonts, b.fontSize, "medium"), textFill, Some("mm")) ]
  }

  /** Toggling `is_active` inverts the inner fill and the label colour together
      and changes nothing else. */
  lemma StatusBoxToggle(x: int, y: int, b: StatusBox, fonts: Registry)
    requires "medium" in fonts
    ensures var on := StatusBoxCommands(x, y, b.(isActive := true), fonts);
            var off := StatusBoxCommands(x, y, b.(isActive := false), fonts);
            && on[0] == off[0]
            && on[1].bounds == off[1].bounds && on[1].outline == off[1].outline
            && on[1].fill == Some(Ink) && off[1].fill == Some(Paper)
            && on[2].at == off[2].at && on[2].text == off[2].text && on[2].font == off[2].font
            && on[2].color == Paper && off[2].color == Ink
  {
  }

  /** `StatusBox.draw`. */
  method DrawStatusBox(s: Surface, x: int, y: int, b: StatusBox, fonts: Registry)
    requires "medium" in fonts
    modifies s
    ensures s.log == old(s.log) + StatusBoxCommands(x, y, b, fonts)
  {
    s.EmitAll(StatusBoxCommands(x, y, b, fonts));
  }

  // ---------------------------------------------------------------- NotchBar

  /** `min(n, max(0, round(level * n / 100)))`. */
  function FilledNotches(level: real, n: int): (k: int)
    ensures n >= 0 ==> 0 <= k <= n
    ensures n >= 0 && 0 <= RoundHalfEven(level * n as real / 100.0) <= n ==> k == RoundHalfEven(level * n as real / 100.0)
  {
    Min(n, Max(0, RoundHalfEven(level * n as real / 100.0)))
  }

  /** The height of one notch: `(height - spacing * (n - 1)) // n`. */
  function NotchHeight(b: NotchBar): int
    requires b.numNotches != 0
  {
    FloorDiv(b.height - b.spacing * (b.numNotches - 1), b.numNotches)
  }

  /** The bottom edge of notch `i`, counting from the bottom of the bar. */
  function NotchBottom(y: int, b: NotchBar, nh: int, i: int): int
  {
    y + b.height - i * (nh + b.spacing)
  }

  /** The calls for notch `i`: its outline, and its inner fill when it is on. */
  function NotchCommands(x: int, y: int, b: NotchBar, nh: int, filled: int, i: int): seq<Command>
  {
    var bottom := NotchBottom(y, b, nh, i);
    var top := bottom - nh;
    [Rectangle(Bounds(x, top, x + b.width, bottom), Some(Paper), Some(Ink), 1)]
    + if i < filled then [Rectangle(Bounds(x + 2, top + 2, x + b.width - 2, bottom - 2), Some(Ink), None, 1)] else []
  }

  /** The calls for notches `0 .. k-1`, in drawing order. */
  function NotchesUpTo(x: int, y: int, b: NotchBar, nh: int, filled: int, k: int): seq<Command>
    decreases k
  {
    if k <= 0 then [] else NotchesUpTo(x, y, b, nh, filled, k - 1) + NotchCommands(x, y, b, nh, filled, k - 1)
  }

  /** The calls `NotchBar.draw` makes, or the `ZeroDivisionError` it raises when
      `num_notches` is 0. */
  function NotchBarCommands(x: int, y: int, b: NotchBar): (r: Outcome<seq<Command>>)
    ensures r.Raised? <==> b.numNotches == 0
    ensures r.Raised? ==> r.error == ZeroDivisionError
  {
    if b.numNotches == 0 then Raised(ZeroDivisionError)
    else Returned(NotchesUpTo(x, y, b, NotchHeight(b), FilledNotches(b.level, b.numNotches), b.numNotches))
  }

  /** The number of black-filled rectangles among some calls. */
  function InkFills(cs: seq<Command>): nat
  {
    if cs == [] then 0
    else (if cs[0].Rectangle? && cs[0].fill == Some(Ink) then 1 else 0) + InkFills(cs[1..])
  }

  lemma {:induction false} InkFillsAppend(a: seq<Command>, b: seq<Command>)
    ensures InkFills(a + b) == InkFills(a) + InkFills(b)
  {
    if a == [] {
      assert a + b == b;
    } else {
      assert (a + b)[0] == a[0];
      assert (a + b)[1..] == a[1..] + b;
      InkFillsAppend(a[1..], b);
    }
  }

  /** Exactly `min(k, filled)` of the first `k` notches are filled: notch `i` is
      filled iff `i < filled`. */
  lemma {:induction false} NotchesFilledCount(x: int, y: int, b: NotchBar, nh: int, filled: int, k: int)
    requires 0 <= filled && 0 <= k
    ensures InkFills(NotchesUpTo(x, y, b, nh, filled, k)) == Min(k, filled)
    decreases k
  {
    if k > 0 {
      NotchesFilledCount(x, y, b, nh, filled, k - 1);
      var c := NotchCommands(x, y, b, nh, filled, k - 1);
      InkFillsAppend(NotchesUpTo(x, y, b, nh, filled, k - 1), c);
      var bottom := NotchBottom(y, b, nh, k - 1);
      var outline := Rectangle(Bounds(x, bottom - nh, x + b.width, bottom), Some(Paper), Some(Ink), 1);
      assert InkFills([outline]) == 0;
      if k - 1 < filled {
        var inner := Rectangle(Bounds(x + 2, bottom - nh + 2, x + b.width - 2, bottom - 2), Some(Ink), None, 1);
        assert c == [outline] + [inner];
        assert InkFills([inner]) == 1;
        InkFillsAppend([outline], [inner]);
      } else {
        assert c == [outline];
      }
    }
  }

  /** A drawn bar shows exactly `FilledNotches(level, n)` filled notches. */
  lemma NotchBarFilledCount(x: int, y: int, b: NotchBar)
    requires b.numNotches > 0
    ensures NotchBarCommands(x, y, b).Returned?
    ensures InkFills(NotchBarCommands(x, y, b).value) == FilledNotches(b.level, b.numNotches)
  {
    NotchesFilledCount(x, y, b, NotchHeight(b), FilledNotches(b.level, b.numNotches), b.numNotches);
  }

  /** The worked examples of the level rounding: 60% of 5 notches is 3, 50% of 5
      is 2.5 which rounds to the even 2, and the ends of the scale give 0 and n. */
  lemma FilledNotchesExamples(n: int)
    requires n >= 0
    ensures FilledNotches(60.0, 5) == 3
    ensures FilledNotches(50.0, 5) == 2
    ensures FilledNotches(0.0, n) == 0
    ensures FilledNotches(100.0, n) == n
  {
    RoundHalfEvenOfInt(3);
    RoundHalfEvenOfInt(0);
    RoundHalfEvenOfInt(n);
    assert 100.0 * n as real / 100.0 == n as real;
    var r := RoundHalfEven(2.5);
    assert r == 2 || r == 3;
  }

  /** More level never lights fewer notches. */
  lemma FilledNotchesMonotone(l1: real, l2: real, n: int)
    requires 0 <= n && l1 <= l2
    ensures FilledNotches(l1, n) <= FilledNotches(l2, n)
  {
    assert l1 * n as real <= l2 * n as real;
    RoundHalfEvenMonotone(l1 * n as real / 100.0, l2 * n as real / 100.0);
  }

  /** Stacking: with at least one notch, a non-negative notch height and spacing,
      every notch lies within `[y, y + height]`, the lowest one sits on the
      bottom edge, and consecutive notches are exactly `spacing` apart. */
  lemma NotchLayout(y: int, b: NotchBar, i: int)
    requires b.numNotches > 0 && b.spacing >= 0 && NotchHeight(b) >= 0
    requires 0 <= i < b.numNotches
    ensures var nh := NotchHeight(b);
      && y <= NotchBottom(y, b, nh, i) - nh <= NotchBottom(y, b, nh, i) <= y + b.height
      && NotchBottom(y, b, nh, 0) == y + b.height
      && (i + 1 < b.numNotches ==> NotchBottom(y, b, nh, i + 1) == NotchBottom(y, b, nh, i) - nh - b.spacing)
  {
    var n, nh, sp := b.numNotches, NotchHeight(b), b.spacing;
    assert nh * n <= b.height - sp * (n - 1);
    assert 0 <= i * (nh + sp) <= (n - 1) * (nh + sp) by {
      MulLeMono(i, n - 1, nh + sp);
    }
    assert (n - 1) * (nh + sp) + nh == nh * n + sp * (n - 1);
    assert (i + 1) * (nh + sp) == i * (nh + sp) + nh + sp;
  }

  lemma MulLeMono(a: int, b: int, c: int)
    requires 0 <= a <= b && 0 <= c
    ensures 0 <= a * c <= b * c
  {
  }

  /** `NotchBar.draw`. */
  method DrawNotchBar(s: Surface, x: int, y: int, b: NotchBar) returns (raised: Option<PyError>)
    modifies s
    ensures NotchBarCommands(x, y, b).Raised? ==> raised == Some(ZeroDivisionError) && s.log == old(s.log)
    ensures NotchBarCommands(x, y, b).Returned? ==> raised == None && s.log == old(s.log) + NotchBarCommands(x, y, b).value
  {
    var filled := FilledNotches(b.level, b.numNotches);
    if b.numNotches == 0 {
      return Some(ZeroDivisionError);
    }
    var nh := NotchHeight(b);
    var i := 0;
    while i < b.numNotches
      invariant 0 <= i && (b.numNotches >= 0 ==> i <= b.numNotches) && (b.numNotches < 0 ==> i == 0)
      invariant s.log == old(s.log) + NotchesUpTo(x, y, b, nh, filled, i)
    {
      var bottom := y + b.height - i * (nh + b.spacing);
      var top := bottom - nh;
      ghost var before := s.log;
      s.Emit(Rectangle(Bounds(x, top, x + b.width, bottom), Some(Paper), Some(Ink), 1));
      if i < filled {
        s.Emit(Rectangle(Bounds(x + 2, top + 2, x + b.width - 2, bottom - 2), Some(Ink), None, 1));
      }
      assert s.log == before + NotchCommands(x, y, b, nh, filled, i);
      i := i + 1;
    }
    return None;
  }

  // ---------------------------------------------------------------- ProgressBar

  /** `ProgressBar.__init__`: progress is clamped to `[0, 100]`. */
  function MakeProgressBar(width: int, height: int, progress: real, showPercentage: bool, fontSize: string): (p: ProgressBar)
    ensures 0.0 <= p.progress <= 100.0
    ensures 0.0 <= progress <= 100.0 ==> p.progress == progress
    ensures progress < 0.0 ==> p.progress == 0.0
    ensures progress > 100.0 ==> p.progress == 100.0
    ensures p.width == width && p.height == height && p.showPercentage == showPercentage && p.fontSize == fontSize
  {
    var upper := if progress <= 100.0 then progress else 100.0;
    ProgressBar(width, height, if upper >= 0.0 then upper else 0.0, showPercentage, fontSize)
  }

  /** Out-of-range progress behaves as the nearest end of the scale. */
  lemma ProgressClampExamples(width: int, height: int, show: bool, fontSize: string)
    ensures MakeProgressBar(width, height, -10.0, show, fontSize) == MakeProgressBar(width, height, 0.0, show, fontSize)
    ensures MakeProgressBar(width, height, 150.0, show, fontSize) == MakeProgressBar(width, height, 100.0, show, fontSize)
  {
  }

  /** `int((width - 4) * progress / 100)`. */
  function FillWidth(width: int, progress: real): (w: int)
    ensures 0.0 <= (width - 4) as real * progress ==>
      0 <= w && w as real <= (width - 4) as real * progress / 100.0 < w as real + 1.0
  {
    Trunc((width - 4) as real * progress / 100.0)
  }

  /** The inner bar never leaves the track: it is 0 at 0%, the full inner width
      `width - 4` at 100%, and grows with the progress in between. */
  lemma FillWidthBounds(width: int, progress: real)
    requires width >= 4 && 0.0 <= progress <= 100.0
    ensures 0 <= FillWidth(width, progress) <= width - 4
    ensures progress == 0.0 ==> FillWidth(width, progress) == 0
    ensures progress == 100.0 ==> FillWidth(width, progress) == width - 4
  {
    var w := (width - 4) as real;
    RealMulMono(progress, 100.0, w);
    var p := w * progress;
    assert 0.0 <= p <= 100.0 * w;
    var v := p / 100.0;
    assert v * 100.0 == p;
    assert 0.0 <= v <= w;
    var t := FillWidth(width, progress);
    assert t as real <= v;
    if progress == 100.0 {
      assert v == w;
    }
  }

  lemma FillWidthMonotone(width: int, p1: real, p2: real)
    requires width >= 4 && 0.0 <= p1 <= p2
    ensures FillWidth(width, p1) <= FillWidth(width, p2)
  {
    var w := (width - 4) as real;
    RealMulMono(p1, p2, w);
    var a, b := w * p1 / 100.0, w * p2 / 100.0;
    assert 0.0 <= a <= b;
    var t1, t2 := Trunc(a), Trunc(b);
    assert FillWidth(width, p1) == t1 && FillWidth(width, p2) == t2;
    assert t1 as real <= a && b < t2 as real + 1.0;
    assert t1 as real < t2 as real + 1.0;
  }

  /** The label: `f"{int(progress)}%"`. */
  function ProgressLabel(progress: real): string
  {
    IntToString(Trunc(progress)) + "%"
  }

  /** The label of a clamped progress is the decimal of its whole part followed by `%`. */
  lemma ProgressLabelReadsBack(p: ProgressBar)
    requires 0.0 <= p.progress <= 100.0
    ensures var l := ProgressLabel(p.progress);
      && |l| >= 2 && l[|l| - 1] == '%'
      && Canonical(l[..|l| - 1])
      && DecimalValue(l[..|l| - 1]) == p.progress.Floor
  {
    var n := Trunc(p.progress);
    assert n >= 0;
    var l := ProgressLabel(p.progress);
    assert l[..|l| - 1] == NatToString(n);
    DecimalRoundTrip(n);
  }

  /** The calls `ProgressBar.draw` makes: the outlined track, the inner bar when
      its width is positive, and a label on a white backing box. */
  function ProgressBarCommands(x: int, y: int, p: ProgressBar, fonts: Registry): (cs: seq<Command>)
    requires "small" in fonts
    ensures |cs| == 1 + (if FillWidth(p.width, p.progress) > 0 then 1 else 0) + (if p.showPercentage then 2 else 0)
    ensures cs[0] == Rectangle(Bounds(x, y, x + p.width, y + p.height), Some(Paper), Some(Ink), 1)
    ensures FillWidth(p.width, p.progress) > 0 ==>
      cs[1] == Rectangle(Bounds(x + 2, y + 2, x + 2 + FillWidth(p.width, p.progress), y + p.height - 2), Some(Ink), None, 1)
    ensures p.showPercentage ==>
      && cs[|cs| - 2].TextBoxFill? && cs[|cs| - 2].color == Paper && cs[|cs| - 2].text == ProgressLabel(p.progress)
      && cs[|cs| - 1].TextAt? && cs[|cs| - 1].color == Ink && cs[|cs| - 1].text == ProgressLabel(p.progress)
      && cs[|cs| - 1].at == cs[|cs| - 2].at && cs[|cs| - 1].font == SizeFont(fonts, p.fontSize, "small")
      && cs[|cs| - 1].at == At(x as real + p.width as real / 2.0, y as real + p.height as real / 2.0)
      && cs[|cs| - 2].font == cs[|cs| - 1].font
      && cs[|cs| - 2].anchor == Some("mm") && cs[|cs| - 1].anchor == Some("mm")
  {
    var fw := FillWidth(p.width, p.progress);
    var track := [Rectangle(Bounds(x, y, x + p.width, y + p.height), Some(Paper), Some(Ink), 1)];
    var bar := if fw > 0 then [Rectangle(Bounds(x + 2, y + 2, x + 2 + fw, y + p.height - 2), Some(Ink), None, 1)] else [];
    var at := At(x as real + p.width as real / 2.0, y as real + p.height as real / 2.0);
    var font := SizeFont(fonts, p.fontSize, "small");
    var caption := if p.showPercentage then
                   [TextBoxFill(at, ProgressLabel(p.progress), font, Some("mm"), Paper),
                    TextAt(at, ProgressLabel(p.progress), font, Ink, Some("mm"))]
                 else [];
    track + bar + caption
  }

  /** At 0% no inner bar is drawn; at 100% it spans the whole inside of the track. */
  lemma ProgressBarEnds(x: int, y: int, p: ProgressBar, fonts: Registry)
    requires "small" in fonts && p.width > 4
    ensures p.progress == 0.0 ==> |ProgressBarCommands(x, y, p, fonts)| == 1 + (if p.showPercentage then 2 else 0)
    ensures p.progress == 100.0 ==> ProgressBarCommands(x, y, p, fonts)[1].bounds == Bounds(x + 2, y + 2, x + p.width - 2, y + p.height - 2)
  {
    if p.progress == 0.0 || p.progress == 100.0 {
      FillWidthBounds(p.width, p.progress);
    }
  }

  /** `ProgressBar.draw`. */
  method DrawProgressBar(s: Surface, x: int, y: int, p: ProgressBar, fonts: Registry)
    requires "small" in fonts
    modifies s
    ensures s.log == old(s.log) + ProgressBarCommands(x, y, p, fonts)
  {
    s.EmitAll(ProgressBarCommands(x, y, p, fonts));
  }

  // ---------------------------------------------------------------- SimpleGraph

  function MinOf(data: seq<real>): (m: real)
    requires |data| > 0
    ensures m in data && forall i | 0 <= i < |data| :: m <= data[i]
  {
    if |data| == 1 then data[0]
    else var rest := MinOf(data[1..]); if data[0] <= rest then data[0] else rest
  }

  function MaxOf(data: seq<real>): (m: real)
    requires |data| > 0
    ensures m in data && forall i | 0 <= i < |data| :: data[i] <= m
  {
    if |data| == 1 then data[0]
    else var rest := MaxOf(data[1..]); if data[0] >= rest then data[0] else rest
  }

  /** `SimpleGraph.__init__`: a missing bound is the data's own minimum / maximum,
      or 0 / 100 for empty data. */
  function MakeSimpleGraph(width: int, height: int, data: seq<real>, minVal: Option<real>, maxVal: Option<real>): (g: SimpleGraph)
    ensures g.width == width && g.height == height && g.data == data
    ensures minVal.Some? ==> g.minVal == minVal.value
    ensures maxVal.Some? ==> g.maxVal == maxVal.value
    ensures minVal.None? && data == [] ==> g.minVal == 0.0
    ensures maxVal.None? && data == [] ==> g.maxVal == 100.0
    ensures minVal.None? && data != [] ==> forall i | 0 <= i < |data| :: g.minVal <= data[i]
    ensures maxVal.None? && data != [] ==> forall i | 0 <= i < |data| :: data[i] <= g.maxVal
    ensures minVal.None? && data != [] ==> g.minVal in data
    ensures maxVal.None? && data != [] ==> g.maxVal in data
  {
    SimpleGraph(width, height, data,
      if minVal.Some? then minVal.value else if data != [] then MinOf(data) else 0.0,
      if maxVal.Some? then maxVal.value else if data != [] then MaxOf(data) else 100.0)
  }

  /** The `i`-th vertex of the polyline. */
  function GraphPoint(x: int, y: int, g: SimpleGraph, i: int): (int, int)
    requires |g.data| >= 2 && g.maxVal != g.minVal && 0 <= i < |g.data|
  {
    var step := (g.width - 4) as real / (|g.data| - 1) as real;
    var normalized := (g.data[i] - g.minVal) / (g.maxVal - g.minVal);
    (x + 2 + Trunc(i as real * step), y + g.height - 2 - Trunc(normalized * (g.height - 4) as real))
  }

  /** The polyline's vertices, one per value, in the order of the data. */
  function GraphPoints(x: int, y: int, g: SimpleGraph): (ps: seq<(int, int)>)
    requires |g.data| >= 2 && g.maxVal != g.minVal
    ensures |ps| == |g.data|
  {
    seq(|g.data|, i requires 0 <= i < |g.data| => GraphPoint(x, y, g, i))
  }

  /** The calls `SimpleGraph.draw` makes: nothing for fewer than two values; the
      border; then, unless the value range is empty, the polyline. */
  function GraphCommands(x: int, y: int, g: SimpleGraph): (cs: seq<Command>)
    ensures |cs| == if |g.data| < 2 then 0 else if g.maxVal == g.minVal then 1 else 2
    ensures cs != [] ==> cs[0] == Rectangle(Bounds(x, y, x + g.width, y + g.height), Some(Paper), Some(Ink), 1)
    ensures |cs| == 2 ==> cs[1] == Polyline(GraphPoints(x, y, g), Ink, 2)
  {
    if |g.data| < 2 then []
    else
      [Rectangle(Bounds(x, y, x + g.width, y + g.height), Some(Paper), Some(Ink), 1)]
      + if g.maxVal == g.minVal then [] else [Polyline(GraphPoints(x, y, g), Ink, 2)]
  }

  /** Fewer than two values draw nothing; a zero value range draws only the border. */
  lemma GraphDegenerate(x: int, y: int, g: SimpleGraph)
    ensures |g.data| < 2 ==> GraphCommands(x, y, g) == []
    ensures |g.data| >= 2 && g.maxVal == g.minVal ==> |GraphCommands(x, y, g)| == 1 && GraphCommands(x, y, g)[0].Rectangle?
  {
  }

  /** Every vertex of a value within `[min, max]` lies inside the inner rectangle
      `[x + 2, x + width - 2] x [y + 2, y + height - 2]`; the first vertex is on its
      left edge and the last on its right edge. */
  lemma GraphPointInside(x: int, y: int, g: SimpleGraph, i: int)
    requires |g.data| >= 2 && g.minVal < g.maxVal && g.width >= 4 && g.height >= 4
    requires 0 <= i < |g.data| && g.minVal <= g.data[i] <= g.maxVal
    ensures x + 2 <= GraphPoint(x, y, g, i).0 <= x + g.width - 2
    ensures y + 2 <= GraphPoint(x, y, g, i).1 <= y + g.height - 2
    ensures i == 0 ==> GraphPoint(x, y, g, i).0 == x + 2
    ensures i == |g.data| - 1 ==> GraphPoint(x, y, g, i).0 == x + g.width - 2
  {
    var n, w, h := |g.data| - 1, g.width - 4, g.height - 4;
    var cx := Trunc(i as real * (w as real / n as real));
    var cy := Trunc((g.data[i] - g.minVal) / (g.maxVal - g.minVal) * h as real);
    assert GraphPoint(x, y, g, i).0 == x + 2 + cx;
    assert GraphPoint(x, y, g, i).1 == y + g.height - 2 - cy;
    GraphColumn(n, i, w);
    GraphRow(g.data[i], g.minVal, g.maxVal, h);
  }

  /** The `i`-th of `n + 1` evenly spaced columns across `w` pixels lies in `[0, w]`,
      with the first at 0 and the last at `w`. */
  lemma GraphColumn(n: int, i: int, w: int)
    requires n >= 1 && 0 <= i <= n && w >= 0
    ensures 0 <= Trunc(i as real * (w as real / n as real)) <= w
    ensures i == 0 ==> Trunc(i as real * (w as real / n as real)) == 0
    ensures i == n ==> Trunc(i as real * (w as real / n as real)) == w
  {
    var step := w as real / n as real;
    assert n as real * step == w as real;
    assert 0.0 <= step;
    RealMulMono(i as real, n as real, step);
    var p := i as real * step;
    assert 0.0 <= p <= w as real;
    if i == n {
      assert p == w as real;
    }
  }

  /** A value in `[lo, hi]`, scaled to `h` pixels, lies in `[0, h]`. */
  lemma GraphRow(v: real, lo: real, hi: real, h: int)
    requires lo <= v <= hi && lo < hi && h >= 0
    ensures 0 <= Trunc((v - lo) / (hi - lo) * h as real) <= h
  {
    var normalized := (v - lo) / (hi - lo);
    RealDivUnit(v - lo, hi - lo);
    var r := h as real;
    RealScaleBelow(r, normalized);
    var p := normalized * r;
    assert p == r * normalized;
    assert 0.0 <= p <= r;
    var t := Trunc(p);
    assert t as real <= r;
  }

  lemma RealDivUnit(a: real, b: real)
    requires 0.0 <= a <= b && 0.0 < b
    ensures 0.0 <= a / b <= 1.0
  {
    var q := a / b;
    assert q * b == a;
  }

  /** With the range taken from the data itself, the whole polyline stays inside
      the inner rectangle. */
  lemma AutoRangeGraphInside(x: int, y: int, width: int, height: int, data: seq<real>, i: int)
    requires width >= 4 && height >= 4 && |data| >= 2 && 0 <= i < |data|
    requires MinOf(data) != MaxOf(data)
    ensures var g := MakeSimpleGraph(width, height, data, None, None);
      && x + 2 <= GraphPoint(x, y, g, i).0 <= x + width - 2
      && y + 2 <= GraphPoint(x, y, g, i).1 <= y + height - 2
  {
    var g := MakeSimpleGraph(width, height, data, None, None);
    assert g.minVal <= data[0] <= g.maxVal;
    GraphPointInside(x, y, g, i);
  }

  /** One more vertex, computed as `SimpleGraph.draw` computes it, extends the polyline's prefix. */
  lemma GraphPointsExtend(x: int, y: int, g: SimpleGraph, i: int, px: int, py: int)
    requires |g.data| >= 2 && g.maxVal != g.minVal && 0 <= i < |g.data|
    requires px == x + 2 + Trunc(i as real * ((g.width - 4) as real / (|g.data| - 1) as real))
    requires py == y + g.height - 2 - Trunc((g.data[i] - g.minVal) / (g.maxVal - g.minVal) * (g.height - 4) as real)
    ensures GraphPoints(x, y, g)[..i + 1] == GraphPoints(x, y, g)[..i] + [(px, py)]
  {
    assert px == GraphPoint(x, y, g, i).0;
    assert py == GraphPoint(x, y, g, i).1;
    assert GraphPoints(x, y, g)[i] == (px, py);
  }

  /** `SimpleGraph.draw`: the points are collected one by one, then joined. */
  method DrawSimpleGraph(s: Surface, x: int, y: int, g: SimpleGraph)
    modifies s
    ensures s.log == old(s.log) + GraphCommands(x, y, g)
  {
    if |g.data| < 2 {
      return;
    }
    var border := Rectangle(Bounds(x, y, x + g.width, y + g.height), Some(Paper), Some(Ink), 1);
    s.Emit(border);
    var range := g.maxVal - g.minVal;
    if range == 0.0 {
      assert GraphCommands(x, y, g) == [border];
      return;
    }
    var points: seq<(int, int)> := [];
    var step := (g.width - 4) as real / (|g.data| - 1) as real;
    var i := 0;
    while i < |g.data|
      invariant 0 <= i <= |g.data|
      invariant points == GraphPoints(x, y, g)[..i]
      invariant s.log == old(s.log) + [border]
    {
      var px := x + 2 + Trunc(i as real * step);
      var normalized := (g.data[i] - g.minVal) / range;
      var py := y + g.height - 2 - Trunc(normalized * (g.height - 4) as real);
      GraphPointsExtend(x, y, g, i, px, py);
      points := points + [(px, py)];
      i := i + 1;
    }
    assert points == GraphPoints(x, y, g);
    if |points| >= 2 {
      s.Emit(Polyline(points, Ink, 2));
    }
    assert GraphCommands(x, y, g) == [border, Polyline(points, Ink, 2)];
  }
}
