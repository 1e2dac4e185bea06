/** The donut chart: sectors laid out by accumulating angles from the top,
    filled solid or textured by the pattern engine, labelled outside the ring,
    with a white hole in the middle. */
module Donut {
  import opened Common
  import opened PyNum
  import opened Fonts
  import opened Surface
  import opened Patterns

  datatype DonutChart = DonutChart(
    diameter: nat, data: seq<real>, labels: seq<string>, holeRatio: real,
    showLabels: bool, fontSize: string, usePatterns: bool)

  /** `[f"Seg {i+1}" for i in range(n)]`: label `i` is `Seg `, then the canonical
      decimal digits of `i + 1`. */
  function DefaultLabels(n: nat): (ls: seq<string>)
    ensures |ls| == n
    ensures forall i | 0 <= i < n ::
      && |ls[i]| > 4 && ls[i][..4] == "Seg "
      && Canonical(ls[i][4..]) && DecimalValue(ls[i][4..]) == i + 1
  {
    var ls := seq(n, i requires 0 <= i < n => "Seg " + IntToString(i + 1));
    forall i | 0 <= i < n
      ensures |ls[i]| > 4 && ls[i][..4] == "Seg " && Canonical(ls[i][4..]) && DecimalValue(ls[i][4..]) == i + 1
    {
      NumberedReadsBack("Seg ", i + 1);
    }
    ls
  }

  /** `prefix` followed by `str(k)` splits back into `prefix` and the canonical digits of `k`. */
  lemma NumberedReadsBack(prefix: string, k: nat)
    ensures var t := prefix + IntToString(k);
      && |t| > |prefix| && t[..|prefix|] == prefix
      && Canonical(t[|prefix|..]) && DecimalValue(t[|prefix|..]) == k
  {
    DecimalRoundTrip(k);
    var t := prefix + IntToString(k);
    assert t[..|prefix|] == prefix;
    assert t[|prefix|..] == NatToString(k);
  }

  /** `DonutChart.__init__`: missing or empty labels become `Seg 1`, `Seg 2`, ...
      and the hole ratio is clamped to `[0, 1]`. */
  function MakeDonutChart(diameter: nat, data: seq<real>, labels: Option<seq<string>>, holeRatio: real,
                          showLabels: bool, fontSize: string, usePatterns: bool): (c: DonutChart)
    ensures c.diameter == diameter && c.data == data && c.showLabels == showLabels
    ensures c.fontSize == fontSize && c.usePatterns == usePatterns
    ensures 0.0 <= c.holeRatio <= 1.0
    ensures 0.0 <= holeRatio <= 1.0 ==> c.holeRatio == holeRatio
    ensures holeRatio < 0.0 ==> c.holeRatio == 0.0
    ensures holeRatio > 1.0 ==> c.holeRatio == 1.0
    ensures labels.Some? && labels.value != [] ==> c.labels == labels.value
    ensures labels.None? || labels.value == [] ==>
      |c.labels| == |data| && forall i | 0 <= i < |data| :: c.labels[i] == "Seg " + IntToString(i + 1)
  {
    var upper := if holeRatio <= 1.0 then holeRatio else 1.0;
    DonutChart(diameter, data,
      if labels.Some? && labels.value != [] then labels.value else DefaultLabels(|data|),
      if upper >= 0.0 then upper else 0.0, showLabels, fontSize, usePatterns)
  }

  // ---------------------------------------------------------------- angles

  /** `sum(data)`, added left to right. */
  function Sum(data: seq<real>): real
  {
    if data == [] then 0.0 else Sum(data[..|data| - 1]) + data[|data| - 1]
  }

  /** The sweep of sector `i`: `360 * value / total` degrees. */
  function Sweep(data: seq<real>, total: real, i: int): real
    requires total != 0.0 && 0 <= i < |data|
  {
    360.0 * data[i] / total
  }

  /** The start angle of sector `i` as the drawing loop computes it: `-90`
      (the top), then each sector's end is the next one's start. */
  function StartAngle(data: seq<real>, total: real, i: int): real
    requires total != 0.0 && 0 <= i <= |data|
  {
    if i == 0 then -90.0 else StartAngle(data, total, i - 1) + Sweep(data, total, i - 1)
  }

  lemma SumShare(a: real, b: real, t: real)
    requires t != 0.0
    ensures 360.0 * a / t + 360.0 * b / t == 360.0 * (a + b) / t
  {
  }

  /** The accumulated angle is the share of the running total:
      sector `i` starts at `-90 + 360 * sum(data[:i]) / total`. */
  lemma {:induction false} StartAngleClosedForm(data: seq<real>, total: real, i: int)
    requires total != 0.0 && 0 <= i <= |data|
    ensures StartAngle(data, total, i) == -90.0 + 360.0 * Sum(data[..i]) / total
  {
    if i > 0 {
      StartAngleClosedForm(data, total, i - 1);
      assert data[..i][..i - 1] == data[..i - 1];
      SumShare(Sum(data[..i - 1]), data[i - 1], total);
    }
  }

  /** The sectors close the circle: the last one ends at `270`, a full turn
      after the first one starts. */
  lemma FullTurn(data: seq<real>)
    requires Sum(data) != 0.0
    ensures StartAngle(data, Sum(data), |data|) == 270.0
  {
    StartAngleClosedForm(data, Sum(data), |data|);
    assert data[..|data|] == data;
    assert 360.0 * Sum(data) / Sum(data) == 360.0;
  }

  /** Four equal values start at the top, right, bottom and left. */
  lemma EqualQuarters(v: real)
    requires v != 0.0
    ensures Sum([v, v, v, v]) == 4.0 * v
    ensures StartAngle([v, v, v, v], Sum([v, v, v, v]), 1) == 0.0
    ensures StartAngle([v, v, v, v], Sum([v, v, v, v]), 2) == 90.0
    ensures StartAngle([v, v, v, v], Sum([v, v, v, v]), 3) == 180.0
  {
    var d := [v, v, v, v];
    assert [v][..0] == [];
    assert Sum([v]) == v;
    assert [v, v][..1] == [v];
    assert Sum([v, v]) == 2.0 * v;
    assert [v, v, v][..2] == [v, v];
    assert Sum([v, v, v]) == 3.0 * v;
    assert d[..3] == [v, v, v];
    assert Sum(d) == 4.0 * v;
    assert 360.0 * v / (4.0 * v) == 90.0;
  }

  /** With non-negative values and a positive total, the sectors advance
      clockwise and never leave the turn `[-90, 270]`. */
  lemma {:induction false} StartAngleWithinTurn(data: seq<real>, i: int)
    requires Sum(data) > 0.0 && 0 <= i <= |data|
    requires forall k | 0 <= k < |data| :: data[k] >= 0.0
    ensures -90.0 <= StartAngle(data, Sum(data), i) <= 270.0
    ensures i < |data| ==> StartAngle(data, Sum(data), i) <= StartAngle(data, Sum(data), i + 1)
  {
    var t := Sum(data);
    StartAngleClosedForm(data, t, i);
    SumPrefixBounds(data, i);
    ShareWithinTurn(Sum(data[..i]), t);
    if i < |data| {
      DivMono(0.0, 360.0 * data[i], t);
      assert StartAngle(data, t, i + 1) == StartAngle(data, t, i) + Sweep(data, t, i);
    }
  }

  /** A part `p` of a positive whole `t` is between none and all of a turn. */
  lemma ShareWithinTurn(p: real, t: real)
    requires 0.0 <= p <= t && t > 0.0
    ensures 0.0 <= 360.0 * p / t <= 360.0
  {
    DivMono(0.0, 360.0 * p, t);
    DivMono(360.0 * p, 360.0 * t, t);
    var u := 360.0 * t;
    assert (u / t) * t == u;
    assert u / t == 360.0;
  }

  lemma DivMono(a: real, b: real, t: real)
    requires a <= b && t > 0.0
    ensures a / t <= b / t
  {
    assert (b / t - a / t) * t == b - a;
  }

  /** A prefix of non-negative values sums to between 0 and the whole. */
  lemma {:induction false} SumPrefixBounds(data: seq<real>, i: int)
    requires 0 <= i <= |data|
    requires forall k | 0 <= k < |data| :: data[k] >= 0.0
    ensures 0.0 <= Sum(data[..i]) <= Sum(data)
    decreases |data| - i
  {
    if i < |data| {
      SumPrefixBounds(data, i + 1);
      assert data[..i + 1][..i] == data[..i];
      SumNonNegative(data[..i]);
    } else {
      assert data[..i] == data;
      SumNonNegative(data);
    }
  }

  lemma {:induction false} SumNonNegative(data: seq<real>)
    requires forall k | 0 <= k < |data| :: data[k] >= 0.0
    ensures Sum(data) >= 0.0
  {
    if data != [] {
      SumNonNegative(data[..|data| - 1]);
    }
  }

  // ---------------------------------------------------------------- styling

  /** The pattern of sector `i`: the six textures in turn, from horizontal lines
      to crosshatch. */
  function PatternFor(i: nat): (k: PatternKind)
    ensures i % 6 == 0 ==> k == Horizontal
    ensures i % 6 == 5 ==> k == Crosshatch
  {
    [Horizontal, Vertical, Diagonal1, Diagonal2, Dots, Crosshatch][i % 6]
  }

  /** Patterns repeat every six sectors, and neighbouring sectors never share one. */
  lemma PatternCycle(i: nat)
    ensures PatternFor(i + 6) == PatternFor(i)
    ensures PatternFor(i) != PatternFor(i + 1)
  {
    assert (i + 6) % 6 == i % 6;
    assert (i + 1) % 6 == if i % 6 == 5 then 0 else i % 6 + 1;
  }

  /** Without patterns, even sectors are black and odd ones white. */
  function SolidFill(i: nat): (f: int)
    ensures f == Ink || f == Paper
    ensures f == Ink <==> i % 2 == 0
  {
    if i % 2 == 0 then Ink else Paper
  }

  /** Solid fills alternate between neighbours. */
  lemma SolidFillAlternates(i: nat)
    ensures SolidFill(i) != SolidFill(i + 1)
    ensures SolidFill(0) == Ink
  {
    assert (i + 1) % 2 == 1 - i % 2;
  }

  /** The text anchor for a label at angle `mid`: a two-letter Pillow anchor that
      centres the label along one axis (`m`) and pins it by an edge along the other. */
  function Anchor(mid: real): (a: string)
    ensures |a| == 2 && (a[0] == 'm') != (a[1] == 'm')
  {
    if -45.0 < mid <= 45.0 then "lm"
    else if 45.0 < mid <= 135.0 then "mt"
    else if mid > 135.0 || mid <= -135.0 then "rm"
    else "mb"
  }

  /** Labels on the right are left-anchored, below the ring top-anchored, on the
      left right-anchored and above the ring bottom-anchored. */
  lemma AnchorRegions(mid: real)
    ensures Anchor(mid) == "lm" <==> -45.0 < mid <= 45.0
    ensures Anchor(mid) == "mt" <==> 45.0 < mid <= 135.0
    ensures Anchor(mid) == "rm" <==> mid > 135.0 || mid <= -135.0
    ensures Anchor(mid) == "mb" <==> -135.0 < mid <= -45.0
  {
  }

  /** The label of sector `i`; sectors without a label get `Seg<i+1>` (no space). */
  function LabelText(c: DonutChart, i: nat): (t: string)
    ensures i < |c.labels| ==> t == c.labels[i]
    ensures i >= |c.labels| ==> (
      && |t| > 3 && t[..3] == "Seg"
      && Canonical(t[3..]) && DecimalValue(t[3..]) == i + 1)
  {
    if i < |c.labels| then c.labels[i]
    else
      NumberedReadsBack("Seg", i + 1);
      "Seg" + IntToString(i + 1)
  }

  /** `f"{value / total * 100:.0f}%"`: the rounded percentage, signed like the share, then `%`;
      a non-negative share reads back as its percentage rounded half to even. */
  function PercentText(value: real, total: real): (t: string)
    requires total != 0.0
    ensures |t| >= 2 && t[|t| - 1] == '%'
    ensures t[0] == '-' <==> value / total < 0.0
    ensures value / total >= 0.0 ==> (
      && Canonical(t[..|t| - 1])
      && DecimalValue(t[..|t| - 1]) == RoundHalfEven(value / total * 100.0))
  {
    var f := FormatFixed0(value / total * 100.0);
    WithSuffix(f, f + "%");
    f + "%"
  }

  /** Dropping the last character of `f + "%"` gives `f` back. */
  lemma WithSuffix(f: string, t: string)
    requires t == f + "%"
    ensures t[|t| - 1] == '%' && t[..|t| - 1] == f
  {
  }

  // ---------------------------------------------------------------- geometry

  /** The chart's box: centre `(x, y)`, radius `diameter // 2`. */
  function ChartBounds(c: DonutChart, x: int, y: int): Bounds
  {
    var r := c.diameter / 2;
    Bounds(x - r, y - r, x + r, y + r)
  }

  /** `int(radius * hole_ratio)`. */
  function HoleRadius(c: DonutChart): (h: int)
    ensures 0.0 <= c.holeRatio ==> 0 <= h && h as real <= (c.diameter / 2) as real * c.holeRatio < h as real + 1.0
  {
    ProductNonNegative((c.diameter / 2) as real, c.holeRatio);
    Trunc((c.diameter / 2) as real * c.holeRatio)
  }

  /** A clamped hole ratio gives a hole no larger than the ring: none at ratio 0,
      the whole disc at ratio 1. */
  lemma HoleRadiusBounds(c: DonutChart)
    requires 0.0 <= c.holeRatio <= 1.0
    ensures 0 <= HoleRadius(c) <= c.diameter / 2
    ensures c.holeRatio == 0.0 ==> HoleRadius(c) == 0
    ensures c.holeRatio == 1.0 ==> HoleRadius(c) == c.diameter / 2
  {
    TruncScaleBelow(c.diameter / 2, c.holeRatio);
  }

  /** The hole, drawn last over the sectors when its radius is positive. */
  function HoleCommands(c: DonutChart, x: int, y: int): seq<Command>
  {
    var hr := HoleRadius(c);
    if hr > 0 then [Ellipse(Bounds(x - hr, y - hr, x + hr, y + hr), Some(Paper), Some(Ink), 2)] else []
  }

  /** Where the hole sits in a sector's stencil: centred on `diameter // 2 + 10`. */
  function MaskHole(c: DonutChart): Shape
  {
    var hr := HoleRadius(c);
    var centre := c.diameter / 2 + Offset;
    EllipseShape(Bounds(centre - hr, centre - hr, centre + hr, centre + hr))
  }

  /** Where a sector sits in its stencil. */
  function MaskPie(c: DonutChart, start: real, end: real): Shape
  {
    PieShape(Bounds(Offset, Offset, c.diameter + Offset, c.diameter + Offset), start, end)
  }

  /** The stencil of a sector: `diameter + 20` pixels square, ink where the
      rasteriser fills the pie slice, paper again where it fills the hole. */
  function SectorMask(c: DonutChart, covers: Rasterizer, start: real, end: real): (m: Mask)
    ensures m.width == c.diameter + 20 && m.height == c.diameter + 20
    ensures forall mx, my :: m.ink(mx, my) ==> covers(MaskPie(c, start, end), mx, my)
    ensures forall mx, my :: m.ink(mx, my) ==> !(HoleRadius(c) > 0 && covers(MaskHole(c), mx, my))
    ensures forall mx, my :: covers(MaskPie(c, start, end), mx, my) && !(HoleRadius(c) > 0 && covers(MaskHole(c), mx, my)) ==> m.ink(mx, my)
  {
    var hr := HoleRadius(c);
    Mask(c.diameter + 20, c.diameter + 20,
      (mx: int, my: int) => covers(MaskPie(c, start, end), mx, my) && !(hr > 0 && covers(MaskHole(c), mx, my)))
  }

  // ---------------------------------------------------------------- drawing

  /** The two label lines of sector `i`, when labels are on and the sector spans
      more than 3 degrees: the name 6 pixels above and the percentage 6 below the
      point at 1.3 radii along the sector's middle angle. */
  function LabelCommands(c: DonutChart, x: int, y: int, fonts: Registry, total: real, i: nat): (cs: seq<Command>)
    requires total != 0.0 && i < |c.data|
    requires "small" in fonts || !c.showLabels
    ensures cs != [] <==> c.showLabels && Sweep(c.data, total, i) > 3.0
    ensures cs != [] ==> |cs| == 2 && cs[0].TextAt? && cs[1].TextAt? && cs[0].anchor == cs[1].anchor
    ensures cs != [] ==> cs[0].text == LabelText(c, i) && cs[1].text == PercentText(c.data[i], total)
    ensures cs != [] ==> cs[0].anchor == Some(Anchor((StartAngle(c.data, total, i) + StartAngle(c.data, total, i + 1)) / 2.0))
    ensures cs != [] ==>
      && cs[0].font == SizeFont(fonts, c.fontSize, "small") && cs[1].font == cs[0].font
      && cs[0].color == Ink && cs[1].color == Ink
    ensures cs != [] ==>
      var mid := (StartAngle(c.data, total, i) + StartAngle(c.data, total, i + 1)) / 2.0;
      && cs[0].at == Polar(x, y, (c.diameter / 2) as real * 1.3, mid, -6)
      && cs[1].at == Polar(x, y, (c.diameter / 2) as real * 1.3, mid, 6)
  {
    if c.showLabels && Sweep(c.data, total, i) > 3.0 then
      var mid := (StartAngle(c.data, total, i) + StartAngle(c.data, total, i + 1)) / 2.0;
      var radius := (c.diameter / 2) as real * 1.3;
      var font := SizeFont(fonts, c.fontSize, "small");
      [ TextAt(Polar(x, y, radius, mid, -6), LabelText(c, i), font, Ink, Some(Anchor(mid))),
        TextAt(Polar(x, y, radius, mid, 6), PercentText(c.data[i], total), font, Ink, Some(Anchor(mid))) ]
    else []
  }

  /** The two label calls of a sector whose label is drawn, spelled out. */
  lemma LabelCommandsShown(c: DonutChart, x: int, y: int, fonts: Registry, total: real, i: nat, start: real, end: real)
    requires total != 0.0 && i < |c.data|
    requires "small" in fonts && c.showLabels && Sweep(c.data, total, i) > 3.0
    requires start == StartAngle(c.data, total, i) && end == StartAngle(c.data, total, i + 1)
    ensures
      var mid := (start + end) / 2.0;
      var radius := (c.diameter / 2) as real * 1.3;
      var font := SizeFont(fonts, c.fontSize, "small");
      LabelCommands(c, x, y, fonts, total, i)
      == [ TextAt(Polar(x, y, radius, mid, -6), LabelText(c, i), font, Ink, Some(Anchor(mid))),
           TextAt(Polar(x, y, radius, mid, 6), PercentText(c.data[i], total), font, Ink, Some(Anchor(mid))) ]
  {
  }

  /** The calls for sector `i`: a white pie slice followed by a pattern pass, or
      a solid pie slice; then its label. */
  function SectorCommands(c: DonutChart, x: int, y: int, fonts: Registry, total: real, i: nat): seq<Command>
    requires total != 0.0 && i < |c.data|
    requires "small" in fonts || !c.showLabels
  {
    var start, end := StartAngle(c.data, total, i), StartAngle(c.data, total, i + 1);
    var bbox := ChartBounds(c, x, y);
    (if c.usePatterns then [PieSlice(bbox, start, end, Some(Paper), Some(Ink), 2), Stipple(PatternFor(i), bbox, 3)]
     else [PieSlice(bbox, start, end, Some(SolidFill(i)), Some(Ink), 2)])
    + LabelCommands(c, x, y, fonts, total, i)
  }

  /** The calls for sectors `0 .. k-1`, in order: at least one per sector. */
  function SectorsUpTo(c: DonutChart, x: int, y: int, fonts: Registry, total: real, k: nat): (cs: seq<Command>)
    requires total != 0.0 && k <= |c.data|
    requires "small" in fonts || !c.showLabels
    ensures |cs| >= k
  {
    if k == 0 then [] else SectorsUpTo(c, x, y, fonts, total, k - 1) + SectorCommands(c, x, y, fonts, total, k - 1)
  }

  /** The calls `DonutChart.draw` makes: nothing for empty data or a zero total,
      otherwise every sector in order and then the hole. */
  function DonutCommands(c: DonutChart, x: int, y: int, fonts: Registry): (cs: seq<Command>)
    requires "small" in fonts || !c.showLabels
    ensures cs == [] <==> c.data == [] || Sum(c.data) == 0.0
    ensures cs != [] ==> |cs| >= |c.data|
  {
    if c.data == [] || Sum(c.data) == 0.0 then []
    else SectorsUpTo(c, x, y, fonts, Sum(c.data), |c.data|) + HoleCommands(c, x, y)
  }

  /** The angle spans of the pie slices among some calls, in order. */
  function Pies(cs: seq<Command>): seq<(real, real)>
  {
    if cs == [] then []
    else
      var last := cs[|cs| - 1];
      Pies(cs[..|cs| - 1]) + if last.PieSlice? then [(last.start, last.end)] else []
  }

  lemma {:induction false} PiesAppend(a: seq<Command>, b: seq<Command>)
    ensures Pies(a + b) == Pies(a) + Pies(b)
    decreases |b|
  {
    if b == [] {
      assert a + b == a;
    } else {
      var init := b[..|b| - 1];
      assert (a + b)[..|a + b| - 1] == a + init;
      assert (a + b)[|a + b| - 1] == b[|b| - 1];
      PiesAppend(a, init);
    }
  }

  /** The label lines are texts, not pie slices. */
  lemma LabelsHaveNoPies(c: DonutChart, x: int, y: int, fonts: Registry, total: real, i: nat)
    requires total != 0.0 && i < |c.data|
    requires "small" in fonts || !c.showLabels
    ensures Pies(LabelCommands(c, x, y, fonts, total, i)) == []
  {
    var labels := LabelCommands(c, x, y, fonts, total, i);
    if labels != [] {
      TextsHaveNoPies(labels[0], labels[1]);
      assert labels == [labels[0], labels[1]];
    }
  }

  lemma TextsHaveNoPies(a: Command, b: Command)
    requires a.TextAt? && b.TextAt?
    ensures Pies([a, b]) == []
  {
    assert [a, b][..1] == [a] && [a][..0] == [];
    assert Pies([a]) == Pies([]) + [];
    assert Pies([a, b]) == Pies([a]) + [];
  }

  /** Each sector contributes exactly one pie slice, spanning its own angles. */
  lemma SectorPie(c: DonutChart, x: int, y: int, fonts: Registry, total: real, i: nat)
    requires total != 0.0 && i < |c.data|
    requires "small" in fonts || !c.showLabels
    ensures Pies(SectorCommands(c, x, y, fonts, total, i)) == [(StartAngle(c.data, total, i), StartAngle(c.data, total, i + 1))]
  {
    var start, end := StartAngle(c.data, total, i), StartAngle(c.data, total, i + 1);
    var bbox := ChartBounds(c, x, y);
    var pie := PieSlice(bbox, start, end, Some(if c.usePatterns then Paper else SolidFill(i)), Some(Ink), 2);
    var shape := if c.usePatterns then [pie, Stipple(PatternFor(i), bbox, 3)] else [pie];
    var labels := LabelCommands(c, x, y, fonts, total, i);
    assert SectorCommands(c, x, y, fonts, total, i) == shape + labels;
    PiesAppend(shape, labels);
    LabelsHaveNoPies(c, x, y, fonts, total, i);
    assert [pie][..0] == [];
    if c.usePatterns {
      assert shape[..1] == [pie];
    }
  }

  /** The spans of sectors `0 .. k-1`: `(start_j, start_(j+1))` each. */
  function Spans(data: seq<real>, total: real, k: nat): seq<(real, real)>
    requires total != 0.0 && k <= |data|
  {
    if k == 0 then [] else Spans(data, total, k - 1) + [(StartAngle(data, total, k - 1), StartAngle(data, total, k))]
  }

  lemma {:induction false} SpansAt(data: seq<real>, total: real, k: nat, j: nat)
    requires total != 0.0 && k <= |data| && j < k
    ensures |Spans(data, total, k)| == k
    ensures Spans(data, total, k)[j] == (StartAngle(data, total, j), StartAngle(data, total, j + 1))
  {
    if j < k - 1 {
      SpansAt(data, total, k - 1, j);
    } else if k > 1 {
      SpansAt(data, total, k - 1, 0);
    }
  }

  /** The pie slices of the first `k` sectors, read back from the calls. */
  lemma {:induction false} SectorsPies(c: DonutChart, x: int, y: int, fonts: Registry, total: real, k: nat)
    requires total != 0.0 && k <= |c.data|
    requires "small" in fonts || !c.showLabels
    ensures Pies(SectorsUpTo(c, x, y, fonts, total, k)) == Spans(c.data, total, k)
  {
    if k > 0 {
      SectorsPies(c, x, y, fonts, total, k - 1);
      SectorsPiesStep(c, x, y, fonts, total, k);
    }
  }

  lemma SectorsPiesStep(c: DonutChart, x: int, y: int, fonts: Registry, total: real, k: nat)
    requires total != 0.0 && 0 < k <= |c.data|
    requires "small" in fonts || !c.showLabels
    requires Pies(SectorsUpTo(c, x, y, fonts, total, k - 1)) == Spans(c.data, total, k - 1)
    ensures Pies(SectorsUpTo(c, x, y, fonts, total, k)) == Spans(c.data, total, k)
  {
    var before, sector := SectorsUpTo(c, x, y, fonts, total, k - 1), SectorCommands(c, x, y, fonts, total, k - 1);
    var span := (StartAngle(c.data, total, k - 1), StartAngle(c.data, total, k));
    SectorPie(c, x, y, fonts, total, k - 1);
    PiesStep(before, sector, Spans(c.data, total, k - 1), span);
    assert SectorsUpTo(c, x, y, fonts, total, k) == before + sector;
    assert Spans(c.data, total, k) == Spans(c.data, total, k - 1) + [span];
  }

  lemma PiesStep(before: seq<Command>, sector: seq<Command>, spans: seq<(real, real)>, span: (real, real))
    requires Pies(before) == spans && Pies(sector) == [span]
    ensures Pies(before + sector) == spans + [span]
  {
    PiesAppend(before, sector);
  }

  /** The drawn chart tiles the circle: one pie slice per value, the first
      starting at the top (-90), each starting where the previous one ended,
      and the last ending a full turn later (270). No pie slice is drawn for
      empty data or a zero total. */
  lemma DonutPiesTileCircle(c: DonutChart, x: int, y: int, fonts: Registry)
    requires "small" in fonts || !c.showLabels
    ensures c.data == [] || Sum(c.data) == 0.0 ==> Pies(DonutCommands(c, x, y, fonts)) == []
    ensures c.data != [] && Sum(c.data) != 0.0 ==>
      var ps := Pies(DonutCommands(c, x, y, fonts));
      && |ps| == |c.data|
      && ps[0].0 == -90.0
      && ps[|ps| - 1].1 == 270.0
      && forall j | 0 <= j < |ps| - 1 :: ps[j].1 == ps[j + 1].0
  {
    if c.data != [] && Sum(c.data) != 0.0 {
      var total := Sum(c.data);
      var n := |c.data|;
      var sectors := SectorsUpTo(c, x, y, fonts, total, n);
      PiesAppend(sectors, HoleCommands(c, x, y));
      assert Pies(HoleCommands(c, x, y)) == [] by {
        if HoleRadius(c) > 0 {
          assert HoleCommands(c, x, y)[..0] == [];
        }
      }
      SectorsPies(c, x, y, fonts, total, n);
      var ps := Pies(DonutCommands(c, x, y, fonts));
      assert ps == Spans(c.data, total, n);
      SpansAt(c.data, total, n, 0);
      SpansAt(c.data, total, n, n - 1);
      FullTurn(c.data);
      forall j | 0 <= j < n - 1
        ensures ps[j].1 == ps[j + 1].0
      {
        SpansAt(c.data, total, n, j);
        SpansAt(c.data, total, n, j + 1);
      }
    }
  }

  /** Labels: a chart built without labels names every sector `Seg <n>`; when
      fewer labels than values are given, the sectors past them fall back to
      `Seg<n>`, without the space. */
  lemma LabelSpellings(diameter: nat, data: seq<real>, labels: Option<seq<string>>, holeRatio: real,
                       showLabels: bool, fontSize: string, usePatterns: bool, i: nat)
    requires i < |data|
    ensures var c := MakeDonutChart(diameter, data, labels, holeRatio, showLabels, fontSize, usePatterns);
      && (labels.None? || labels.value == [] ==> LabelText(c, i) == "Seg " + IntToString(i + 1))
      && (labels.Some? && labels.value != [] && i < |labels.value| ==> LabelText(c, i) == labels.value[i])
      && (labels.Some? && labels.value != [] && i >= |labels.value| ==> LabelText(c, i) == "Seg" + IntToString(i + 1))
  {
  }

  /** Whether the pattern pass of sector `i` inks pixel `(px, py)`. */
  predicate SectorStippled(c: DonutChart, x: int, y: int, covers: Rasterizer, total: real, i: nat, px: int, py: int)
    requires total != 0.0 && i < |c.data|
  {
    && c.usePatterns
    && Hit(PatternFor(i), ChartBounds(c, x, y), 3,
           SectorMask(c, covers, StartAngle(c.data, total, i), StartAngle(c.data, total, i + 1)), px, py)
  }

  /** Whether the pattern passes of the first `k` sectors ink pixel `(px, py)`. */
  predicate Stippled(c: DonutChart, x: int, y: int, covers: Rasterizer, total: real, k: nat, px: int, py: int)
    requires total != 0.0 && k <= |c.data|
  {
    && k > 0
    && (Stippled(c, x, y, covers, total, k - 1, px, py) || SectorStippled(c, x, y, covers, total, k - 1, px, py))
  }

  /** Every stippled pixel lies in the chart's box, in the stencil of some sector
      it belongs to, outside the hole; without patterns nothing is stippled. */
  lemma {:induction false} StippleInsideSectors(c: DonutChart, x: int, y: int, covers: Rasterizer, total: real, k: nat, px: int, py: int)
    requires total != 0.0 && k <= |c.data|
    requires Stippled(c, x, y, covers, total, k, px, py)
    ensures c.usePatterns
    ensures var b := ChartBounds(c, x, y); b.x0 <= px < b.x1 && b.y0 <= py < b.y1
    ensures var b := ChartBounds(c, x, y);
      !(HoleRadius(c) > 0 && covers(MaskHole(c), px - b.x0 + Offset, py - b.y0 + Offset))
    ensures var b := ChartBounds(c, x, y);
      exists j | 0 <= j < k ::
        covers(MaskPie(c, StartAngle(c.data, total, j), StartAngle(c.data, total, j + 1)), px - b.x0 + Offset, py - b.y0 + Offset)
  {
    if Stippled(c, x, y, covers, total, k - 1, px, py) {
      StippleInsideSectors(c, x, y, covers, total, k - 1, px, py);
    } else {
      var b := ChartBounds(c, x, y);
      var j := k - 1;
      var m := SectorMask(c, covers, StartAngle(c.data, total, j), StartAngle(c.data, total, j + 1));
      assert SectorStippled(c, x, y, covers, total, j, px, py);
      assert m.ink(px - b.x0 + Offset, py - b.y0 + Offset);
    }
  }

  /** Conversely, a pixel of the chart box on the stride of sector `j`'s pattern,
      whose stencil position the rasteriser puts in that sector's pie and not in a
      positive hole, is stippled once all sectors are drawn. */
  lemma StippledWhenCovered(c: DonutChart, x: int, y: int, covers: Rasterizer, total: real, j: nat, px: int, py: int)
    requires total != 0.0 && j < |c.data| && c.usePatterns
    requires var b := ChartBounds(c, x, y);
      && b.x0 <= px < b.x1 && b.y0 <= py < b.y1
      && OnStride(PatternFor(j), b, 3, px, py)
      && covers(MaskPie(c, StartAngle(c.data, total, j), StartAngle(c.data, total, j + 1)), px - b.x0 + Offset, py - b.y0 + Offset)
      && !(HoleRadius(c) > 0 && covers(MaskHole(c), px - b.x0 + Offset, py - b.y0 + Offset))
    ensures Stippled(c, x, y, covers, total, |c.data|, px, py)
  {
    var b := ChartBounds(c, x, y);
    var m := SectorMask(c, covers, StartAngle(c.data, total, j), StartAngle(c.data, total, j + 1));
    assert InMask(m, px - b.x0 + Offset, py - b.y0 + Offset);
    assert SectorStippled(c, x, y, covers, total, j, px, py);
    StippledFrom(c, x, y, covers, total, j, |c.data|, px, py);
  }

  /** Once sector `j` stipples a pixel, every later prefix of sectors does too. */
  lemma {:induction false} StippledFrom(c: DonutChart, x: int, y: int, covers: Rasterizer, total: real, j: nat, k: nat, px: int, py: int)
    requires total != 0.0 && j < k <= |c.data|
    requires SectorStippled(c, x, y, covers, total, j, px, py)
    ensures Stippled(c, x, y, covers, total, k, px, py)
    decreases k
  {
    if k > j + 1 {
      StippledFrom(c, x, y, covers, total, j, k - 1, px, py);
    }
  }

  /** The shape half of one iteration of the drawing loop: the pie slice of
      sector `i` and, with patterns on, its pattern pass. */
  method DrawSectorShape(s: Surface, x: int, y: int, c: DonutChart, covers: Rasterizer, total: real, i: nat, start: real, end: real)
    requires total != 0.0 && i < |c.data|
    requires start == StartAngle(c.data, total, i) && end == StartAngle(c.data, total, i + 1)
    modifies s, s.image
    ensures s.log == old(s.log) +
      if c.usePatterns then [PieSlice(ChartBounds(c, x, y), start, end, Some(Paper), Some(Ink), 2), Stipple(PatternFor(i), ChartBounds(c, x, y), 3)]
      else [PieSlice(ChartBounds(c, x, y), start, end, Some(SolidFill(i)), Some(Ink), 2)]
    ensures forall px, py | 0 <= px < s.image.Length0 && 0 <= py < s.image.Length1 ::
      s.image[px, py] == if SectorStippled(c, x, y, covers, total, i, px, py) then Ink else old(s.image[px, py])
  {
    var radius := c.diameter / 2;
    var bbox := Bounds(x - radius, y - radius, x + radius, y + radius);
    if c.usePatterns {
      s.Emit(PieSlice(bbox, start, end, Some(Paper), Some(Ink), 2));
      ApplyPattern(s.image, PatternFor(i), bbox, 3, SectorMask(c, covers, start, end));
      s.Emit(Stipple(PatternFor(i), bbox, 3));
    } else {
      s.Emit(PieSlice(bbox, start, end, Some(SolidFill(i)), Some(Ink), 2));
    }
  }

  /** The two `draw.text` calls of a sector's label, centred on angle `mid`. */
  method DrawLabelPair(s: Surface, x: int, y: int, c: DonutChart, fonts: Registry, total: real, i: nat, mid: real)
    requires total != 0.0 && i < |c.data| && "small" in fonts
    modifies s
    ensures
      var radius := (c.diameter / 2) as real * 1.3;
      var font := SizeFont(fonts, c.fontSize, "small");
      s.log == old(s.log)
        + [ TextAt(Polar(x, y, radius, mid, -6), LabelText(c, i), font, Ink, Some(Anchor(mid))),
            TextAt(Polar(x, y, radius, mid, 6), PercentText(c.data[i], total), font, Ink, Some(Anchor(mid))) ]
  {
    var labelRadius := (c.diameter / 2) as real * 1.3;
    var font := SizeFont(fonts, c.fontSize, "small");
    var anchor := Anchor(mid);
    var name := TextAt(Polar(x, y, labelRadius, mid, -6), LabelText(c, i), font, Ink, Some(anchor));
    var share := TextAt(Polar(x, y, labelRadius, mid, 6), PercentText(c.data[i], total), font, Ink, Some(anchor));
    s.EmitAll([name, share]);
  }

  /** The label half of one iteration of the drawing loop. */
  method DrawSectorLabel(s: Surface, x: int, y: int, c: DonutChart, fonts: Registry, total: real, i: nat, start: real, end: real)
    requires total != 0.0 && i < |c.data|
    requires start == StartAngle(c.data, total, i) && end == StartAngle(c.data, total, i + 1)
    requires "small" in fonts || !c.showLabels
    modifies s
    ensures s.log == old(s.log) + LabelCommands(c, x, y, fonts, total, i)
  {
    if c.showLabels && Sweep(c.data, total, i) > 3.0 {
      var mid := (start + end) / 2.0;
      DrawLabelPair(s, x, y, c, fonts, total, i, mid);
      LabelCommandsShown(c, x, y, fonts, total, i, start, end);
    } else {
      assert LabelCommands(c, x, y, fonts, total, i) == [];
    }
  }

  /** One iteration of the drawing loop: sector `i` from `start`, which returns
      where the next sector starts. */
  method DrawSector(s: Surface, x: int, y: int, c: DonutChart, fonts: Registry, covers: Rasterizer, total: real, i: nat, start: real)
    returns (end: real)
    requires total != 0.0 && i < |c.data|
    requires start == StartAngle(c.data, total, i)
    requires "small" in fonts || !c.showLabels
    modifies s, s.image
    ensures end == StartAngle(c.data, total, i + 1)
    ensures s.log == old(s.log) + SectorCommands(c, x, y, fonts, total, i)
    ensures forall px, py | 0 <= px < s.image.Length0 && 0 <= py < s.image.Length1 ::
      s.image[px, py] == if SectorStippled(c, x, y, covers, total, i, px, py) then Ink else old(s.image[px, py])
  {
    end := start + 360.0 * c.data[i] / total;
    var bbox := ChartBounds(c, x, y);
    ghost var shape := if c.usePatterns then [PieSlice(bbox, start, end, Some(Paper), Some(Ink), 2), Stipple(PatternFor(i), bbox, 3)]
                       else [PieSlice(bbox, start, end, Some(SolidFill(i)), Some(Ink), 2)];
    DrawSectorShape(s, x, y, c, covers, total, i, start, end);
    DrawSectorLabel(s, x, y, c, fonts, total, i, start, end);
    AppendAssociates(old(s.log), shape, LabelCommands(c, x, y, fonts, total, i));
  }

  /** The end of `DonutChart.draw`: the hole, when its radius is positive. */
  method DrawHole(s: Surface, x: int, y: int, c: DonutChart)
    modifies s
    ensures s.log == old(s.log) + HoleCommands(c, x, y)
  {
    var holeRadius := Trunc((c.diameter / 2) as real * c.holeRatio);
    assert holeRadius == HoleRadius(c);
    if holeRadius > 0 {
      s.Emit(Ellipse(Bounds(x - holeRadius, y - holeRadius, x + holeRadius, y + holeRadius), Some(Paper), Some(Ink), 2));
    }
  }

  /** The sector loop of `DonutChart.draw`: each sector starts where the previous
      one ended, the first at the top (-90 degrees). */
  method DrawSectors(s: Surface, x: int, y: int, c: DonutChart, fonts: Registry, covers: Rasterizer, total: real)
    requires total != 0.0
    requires "small" in fonts || !c.showLabels
    modifies s, s.image
    ensures s.log == old(s.log) + SectorsUpTo(c, x, y, fonts, total, |c.data|)
    ensures forall px, py | 0 <= px < s.image.Length0 && 0 <= py < s.image.Length1 ::
      s.image[px, py] == if Stippled(c, x, y, covers, total, |c.data|, px, py) then Ink else old(s.image[px, py])
  {
    var start := -90.0;
    var i := 0;
    while i < |c.data|
      invariant 0 <= i <= |c.data|
      invariant start == StartAngle(c.data, total, i)
      invariant s.log == old(s.log) + SectorsUpTo(c, x, y, fonts, total, i)
      invariant forall px, py | 0 <= px < s.image.Length0 && 0 <= py < s.image.Length1 ::
        s.image[px, py] == if Stippled(c, x, y, covers, total, i, px, py) then Ink else old(s.image[px, py])
    {
      ghost var drawn := SectorsUpTo(c, x, y, fonts, total, i);
      start := DrawSector(s, x, y, c, fonts, covers, total, i, start);
      AppendAssociates(old(s.log), drawn, SectorCommands(c, x, y, fonts, total, i));
      i := i + 1;
    }
  }

  /** Appending two runs of calls one after the other appends their concatenation. */
  lemma AppendAssociates(log: seq<Command>, a: seq<Command>, b: seq<Command>)
    ensures log + a + b == log + (a + b)
  {
  }

  /** `DonutChart.draw`. */
  method DrawDonut(s: Surface, x: int, y: int, c: DonutChart, fonts: Registry, covers: Rasterizer)
    requires "small" in fonts || !c.showLabels
    modifies s, s.image
    ensures s.log == old(s.log) + DonutCommands(c, x, y, fonts)
    ensures c.data != [] && Sum(c.data) != 0.0 ==>
      forall px, py | 0 <= px < s.image.Length0 && 0 <= py < s.image.Length1 ::
        s.image[px, py] == if Stippled(c, x, y, covers, Sum(c.data), |c.data|, px, py) then Ink else old(s.image[px, py])
    ensures c.data == [] || Sum(c.data) == 0.0 ==> unchanged(s.image)
  {
    if c.data == [] {
      return;
    }
    var total := Sum(c.data);
    if total == 0.0 {
      return;
    }
    DrawSectors(s, x, y, c, fonts, covers, total);
    DrawHole(s, x, y, c);
  }
}
