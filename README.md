# E-ink widget library, modelled in Dafny

This project models `eink_widgets.py`, a small widget library for 1-bit
e-paper displays built on Pillow. It covers:

- the canvas (`EinkCanvas`): a white image, a font table filled
  all-or-nothing from `Font.ttc`, custom fonts and font families, `clear`, and
  `add_widget`, which returns the canvas itself;
- the widgets `Text`, `Box`, `StatusBox`, `NotchBar`, `ProgressBar`, `Line`,
  `SimpleGraph` and `DonutChart`, each modelled by the exact sequence of Pillow
  calls its `draw` makes;
- the donut chart's pattern engine (`_apply_pattern`), modelled as nested loops
  that write ink into the pixel array;
- `HorizontalLayout` and `VerticalLayout`, cursors that overwrite a widget's
  position.

Modules, one per component:

| module | file | content |
|---|---|---|
| `Common` | common.dfy | `Option`, Python's `ZeroDivisionError` as an `Outcome`, truthiness of an optional string |
| `PyNum` | pynum.dfy | Python's `int()` on floats, `round()` (half to even), `//`, `str()` of integers, `f"{r:.0f}"` |
| `Fonts` | fonts.dfy | the font table and its fallbacks; font loading is an oracle `(path, size) -> bool` |
| `Surface` | surface.dfy | the drawing surface: a log of Pillow calls plus the `image[x, y]` pixel array |
| `Patterns` | patterns.dfy | `_apply_pattern` once the sector stencil exists |
| `SimpleWidgets` | simple_widgets.dfy | Text, Box, StatusBox, NotchBar, ProgressBar, Line, SimpleGraph |
| `Donut` | donut.dfy | `DonutChart`: angles, styles, labels, stencils, the drawing loop |
| `Widgets` | widgets.dfy | the `Widget` class (mutable `x`, `y`) and `draw` dispatch |
| `Canvas` | canvas.dfy | the `EinkCanvas` class |
| `Layout` | layout.dfy | the two layout classes |

How the model represents the source:

- **Drawing.** Every Pillow call a widget makes is appended, in call order, to
  `Surface.log` as a `Command`. The only pixels the model computes itself are
  the ones `clear` and `_apply_pattern` write: `clear` fills the whole
  `image`, and each pattern pass inks pixels one by one. A pattern pass is
  also logged as a `Stipple` command, so the log keeps its place between the
  pie slice before it and the label after it.
- **Stencils.** `_apply_pattern` draws a pie slice and a hole into a mask of
  size `diameter + 20`. Rasterising those shapes is Pillow's job. The model
  takes the rasteriser as a parameter `covers(shape, x, y)` and builds the
  mask from it (`Donut.SectorMask`). The scanning, striding, offset and bounds
  logic of the pattern engine is modelled in full.
- **Numbers.** Levels, progress values, chart data
  and angles are `real`, so the 360° tiling of the donut is exact. Python's
  truncating `int()`, half-to-even `round()` and floor `//` are written out.
- **Errors.** `NotchBar` with `num_notches == 0` raises `ZeroDivisionError`
  (line 249). The model returns this as `Raised(ZeroDivisionError)`, and
  `add_widget` passes it on.
- **Font-table invariant.** The four default names are always present
  (`Canvas.EinkCanvas.Valid`), so the `fonts['medium']` and `fonts['small']`
  lookups of the widgets cannot fail.

Behaviour worth knowing, each proved below:

- `SimpleGraph` draws its border before it returns on a zero value range. A
  graph whose values are all equal therefore draws an empty box, not nothing.
- The donut chart names unlabelled sectors `Seg 1`, `Seg 2`, ... in its
  constructor (line 412). When the caller gives fewer labels than values, the
  sectors past the list fall back to `Seg3`, with no space (line 569).
- A layout advances by a `Line`'s `width` attribute, which is its stroke
  width. Texts and donut charts have no width or height, so without an
  explicit extent they leave the cursor where it was.

## Model

| member | source | states |
|---|---|---|
| `Fonts.DefaultFonts` | eink_widgets.py:34-51 | the table holds exactly small/medium/large/xlarge: all TrueType at 14/18/24/48 when every load succeeds, all built-in as soon as one fails |
| `Fonts.WithFont` | eink_widgets.py:53-70 | registering adds exactly `name`; it binds the loaded font, or on failure the current `medium` font (built-in if none); other keys keep their fonts |
| `Fonts.DefaultFamily` | eink_widgets.py:72-91 | with default sizes a family adds exactly `p_small`, `p_medium`, `p_large`, `p_xlarge` at 14/18/24/48, each bound to the loaded font or the `medium` font; every other key is unchanged |
| `Fonts.FamilyKeepsMedium` | eink_widgets.py:86-91 | registering a family of any sizes never rebinds `medium` |
| `Fonts.FamilyNameInjective` | eink_widgets.py:90 | two suffixes under one prefix give the same name only when they are equal |
| `Fonts.FamilyNameIsNotMedium` | eink_widgets.py:90 | no family name is `medium` |
| `Fonts.TextFontIsFallbackChain` | eink_widgets.py:142-145 | a text's font is the first registered of: its own font name (when truthy), its size name, `medium`; else the built-in font |
| `Fonts.SizeFont` | eink_widgets.py:215 | `fonts.get(size, fonts[fallback])` gives exactly the size's font when the size is registered, otherwise the fallback's |
| `Fonts.TextFont` | eink_widgets.py:142-145 | the font is the built-in one or a registered one; a truthy registered `font` name wins; the size's font is passed over only for such a name |
| `Canvas.EinkCanvas.constructor` | eink_widgets.py:18-32 | a white image of the canvas size, an empty call log, `picdir` defaulting to `pic` beside the module, the default table loaded from `picdir/Font.ttc` |
| `Canvas.EinkCanvas.AddCustomFont` | eink_widgets.py:53-70 | the table becomes `WithFont` of the old one; the default names stay registered |
| `Canvas.EinkCanvas.AddFontFamily` | eink_widgets.py:72-91 | the loop registers `prefix_suffix` for each size in order, the four defaults when `sizes` is `None` |
| `Canvas.EinkCanvas.Clear` | eink_widgets.py:93-95 | every pixel becomes `color` |
| `Canvas.EinkCanvas.AddWidget` | eink_widgets.py:101-104 | draws the widget with the canvas's fonts and returns the canvas itself, or the error the widget raised; a donut with data and a nonzero total inks exactly its stippled pixels, and every other widget leaves the image unchanged |
| `Widgets.Widget.constructor` | eink_widgets.py:110-112 | a widget starts at the given `(x, y)` |
| `Widgets.Widget.Draw` | eink_widgets.py:101-104 | dispatches to the widget's drawing; the log grows by exactly its calls, and the image changes only by the donut's pattern passes |
| `Widgets.WidthAttr` | eink_widgets.py:684-685 | every widget has a `width` attribute except texts and donut charts |
| `Widgets.HeightAttr` | eink_widgets.py:704-705 | every widget has a `height` attribute except texts, lines and donut charts |
| `Widgets.KindCommands` | eink_widgets.py:101-104 | drawing raises exactly for a notch bar with zero notches |
| `SimpleWidgets.DrawText` | eink_widgets.py:140-150 | one text call at `(x, y)` with the resolved font; the anchor is passed only when truthy |
| `SimpleWidgets.DrawBox` | eink_widgets.py:172-178 | one rectangle `(x, y, x + width, y + height)` with the box's fill, outline and outline width |
| `SimpleWidgets.DrawLine` | eink_widgets.py:619-620 | one segment from `(x, y)` to `(x2, y2)` |
| `SimpleWidgets.StatusBoxCommands` | eink_widgets.py:200-218 | white outer box over `(x, y, x + width, y + height)`, inner box inset by 2 and black exactly when active, then the text at the centre in the size's font, anchored `mm`, always in the complement of the inner fill |
| `SimpleWidgets.StatusBoxToggle` | eink_widgets.py:207-218 | toggling `is_active` inverts the inner fill and the label colour together and changes nothing else |
| `SimpleWidgets.DrawStatusBox` | eink_widgets.py:200-218 | the log grows by the three status-box calls |
| `SimpleWidgets.FilledNotches` | eink_widgets.py:243-244 | the filled count lies in `[0, n]` and equals `round(level * n / 100)` whenever that is in range |
| `SimpleWidgets.FilledNotchesExamples` | eink_widgets.py:243-244 | 60% of 5 notches fills 3, 50% of 5 fills 2 (half to even), 0% fills none, 100% fills all |
| `SimpleWidgets.FilledNotchesMonotone` | eink_widgets.py:243-244 | a higher level never fills fewer notches |
| `SimpleWidgets.NotchesFilledCount` | eink_widgets.py:252-267 | the first `k` notches contain exactly `min(k, filled)` black fills |
| `SimpleWidgets.NotchBarFilledCount` | eink_widgets.py:241-267 | a drawn bar shows exactly `FilledNotches(level, n)` black notches |
| `SimpleWidgets.NotchLayout` | eink_widgets.py:247-254 | with n > 0, a non-negative notch height and spacing, every notch lies in `[y, y + height]`, the first sits on the bottom edge, and neighbours are exactly `spacing` apart |
| `SimpleWidgets.NotchBarCommands` | eink_widgets.py:241-267 | drawing raises, with `ZeroDivisionError`, exactly when `num_notches` is 0 |
| `SimpleWidgets.DrawNotchBar` | eink_widgets.py:241-267 | `ZeroDivisionError` with nothing drawn when `num_notches == 0`; otherwise the loop draws every notch from the bottom up |
| `SimpleWidgets.MakeProgressBar` | eink_widgets.py:285 | the stored progress is the input clamped to `[0, 100]` |
| `SimpleWidgets.ProgressClampExamples` | eink_widgets.py:285 | -10 behaves as 0 and 150 as 100 |
| `SimpleWidgets.FillWidth` | eink_widgets.py:297 | for a non-negative product, the bar width is `(width - 4) * progress / 100` truncated: non-negative, at most that value and within one of it |
| `SimpleWidgets.FillWidthBounds` | eink_widgets.py:297 | the inner bar width lies in `[0, width - 4]`: 0 at 0%, `width - 4` at 100% |
| `SimpleWidgets.FillWidthMonotone` | eink_widgets.py:297 | more progress never gives a narrower bar |
| `SimpleWidgets.ProgressLabelReadsBack` | eink_widgets.py:306 | the label is the canonical decimal digits of the progress's whole part, followed by `%` |
| `SimpleWidgets.ProgressBarCommands` | eink_widgets.py:289-315 | the white outlined track; a black inner bar `(x + 2, y + 2, x + 2 + fill, y + height - 2)` exactly when the fill width is positive; when shown, a white box behind the label and the label in black, both at the bar's centre, anchored `mm`, in the size's font |
| `SimpleWidgets.ProgressBarEnds` | eink_widgets.py:297-303 | no inner bar at 0%; at 100% it fills the inside of the track |
| `SimpleWidgets.DrawProgressBar` | eink_widgets.py:289-315 | the log grows by the progress-bar calls |
| `SimpleWidgets.MakeSimpleGraph` | eink_widgets.py:638-639 | an explicit bound is kept; a missing bound is 0 / 100 for empty data, else a value bounding all of the data |
| `SimpleWidgets.GraphDegenerate` | eink_widgets.py:642-653 | fewer than two values draw nothing; a zero range draws only the border |
| `SimpleWidgets.GraphPointInside` | eink_widgets.py:656-664 | every vertex of an in-range value lies in the inner rectangle; the first is on its left edge and the last on its right edge |
| `SimpleWidgets.AutoRangeGraphInside` | eink_widgets.py:638-664 | with automatic bounds the whole polyline stays in the inner rectangle |
| `SimpleWidgets.GraphPoints` | eink_widgets.py:656-664 | one vertex per value |
| `SimpleWidgets.GraphCommands` | eink_widgets.py:641-668 | no call for fewer than two values, only the white border for a zero range, otherwise the border and then one black polyline of width 2 through exactly the vertices `GraphPoints` |
| `SimpleWidgets.DrawSimpleGraph` | eink_widgets.py:641-668 | the loop collects exactly the vertices `GraphPoints`; the log grows by the graph calls |
| `Patterns.ApplyPattern` | eink_widgets.py:445-515 | exactly the pixels `Hit` selects become ink; every other pixel keeps its value |
| `Patterns.Hit` | eink_widgets.py:446-515 | a pixel a pass inks lies inside the box and its stencil pixel is set |
| `Patterns.CombinedPatterns` | eink_widgets.py:490-515 | `dots` inks where both the row and the column pass would; `crosshatch` inks where either would |
| `Patterns.InkRow` | eink_widgets.py:449-454 | one row of the horizontal pass |
| `Patterns.InkRows` | eink_widgets.py:446-454 | the horizontal pass inks exactly the masked pixels on rows `y1 + k * spacing` inside the box |
| `Patterns.InkColumn` | eink_widgets.py:459-464 | one column of the vertical pass |
| `Patterns.InkColumns` | eink_widgets.py:456-464 | the vertical pass inks exactly the masked pixels on columns `x1 + k * spacing` inside the box |
| `Patterns.InkRisingDiagonal` | eink_widgets.py:469-476 | one `/` diagonal `y = x - i`, clipped to the box |
| `Patterns.InkRisingDiagonals` | eink_widgets.py:466-476 | the `/` pass inks exactly the masked pixels in the box with `x - y` on the stride from `x1 - y2` |
| `Patterns.InkFallingDiagonal` | eink_widgets.py:481-488 | one `\` diagonal `y = i - x`, clipped to the box |
| `Patterns.InkFallingDiagonals` | eink_widgets.py:478-488 | the `\` pass inks exactly the masked pixels in the box with `x + y` on the stride from `x1 + y1` |
| `Patterns.InkDotColumn` | eink_widgets.py:493-498 | one column of dots |
| `Patterns.InkDots` | eink_widgets.py:490-498 | the dots pass inks exactly the masked grid points of the stride |
| `Surface.Surface.constructor` | eink_widgets.py:27-28 | a fresh all-white image of the given size and an empty call log |
| `Surface.Surface.Fill` | eink_widgets.py:93-95 | every pixel takes the colour; the rectangle call is logged |
| `Surface.Plot` | eink_widgets.py:454 | a point call changes exactly one pixel, to ink, and only inside the image |
| `Donut.DefaultLabels` | eink_widgets.py:412 | one label per value; label `i` is `Seg ` followed by the canonical digits of `i + 1` |
| `Donut.MakeDonutChart` | eink_widgets.py:397-416 | hole ratio clamped to `[0, 1]`; missing or empty labels replaced by the defaults, given labels kept |
| `Donut.StartAngleClosedForm` | eink_widgets.py:536-544 | the accumulated start of sector `i` is `-90 + 360 * sum(data[:i]) / total` |
| `Donut.FullTurn` | eink_widgets.py:536-588 | the last sector ends at 270, a full turn after the first starts |
| `Donut.EqualQuarters` | eink_widgets.py:536-588 | four equal values start at -90, 0, 90 and 180 |
| `Donut.StartAngleWithinTurn` | eink_widgets.py:536-588 | with non-negative values the sectors advance clockwise within `[-90, 270]` |
| `Donut.PatternFor` | eink_widgets.py:551 | sector 0 of every six gets `horizontal`, sector 5 gets `crosshatch` |
| `Donut.PatternCycle` | eink_widgets.py:551 | patterns repeat every six sectors and neighbours never share one |
| `Donut.SolidFill` | eink_widgets.py:555 | a solid sector is black or white, black exactly for even indices |
| `Donut.SolidFillAlternates` | eink_widgets.py:555 | solid fills alternate black and white, starting with black |
| `Donut.Anchor` | eink_widgets.py:573-580 | an anchor is two letters, exactly one of which is `m` |
| `Donut.AnchorRegions` | eink_widgets.py:573-580 | the anchor is `lm`, `mt`, `rm`, `mb` exactly for mid-angles in (-45, 45], (45, 135], beyond ±135, and (-135, -45] |
| `Donut.LabelText` | eink_widgets.py:569 | a sector with a label uses it; past the list the name is `Seg` followed by the canonical digits of `i + 1` |
| `Donut.LabelSpellings` | eink_widgets.py:412 | default labels read `Seg <n>`; given labels are used; sectors past a short list fall back to `Seg<n>` |
| `PyNum.FormatFixed0` | eink_widgets.py:586 | `f"{r:.0f}"` is the canonical digits (no leading zero, never empty) of `round(r)` for `r >= 0`, and `-` followed by the canonical digits of `round(-r)` for `r < 0` |
| `Donut.PercentText` | eink_widgets.py:586 | ends in `%`, starts with `-` exactly when the share is negative, and a non-negative share reads back as the canonical digits of its percentage rounded half to even |
| `Donut.HoleRadius` | eink_widgets.py:591 | for a non-negative ratio, the hole radius is `radius * hole_ratio` truncated: non-negative, at most that value and within one of it |
| `Donut.HoleRadiusBounds` | eink_widgets.py:591 | a clamped ratio gives a hole radius in `[0, radius]`: none at 0, the whole disc at 1 |
| `Donut.SectorMask` | eink_widgets.py:420-443 | the stencil is `diameter + 20` square and is ink exactly where the rasteriser fills the sector's pie and not a positive hole |
| `Donut.LabelCommands` | eink_widgets.py:559-586 | a label pair is emitted exactly when labels are on and the sweep exceeds 3°: the name then the percentage, in black, in the size's font (fallback `small`), at ∓6 px from the point 1.3 radii out on the mid-angle, both anchored by that mid-angle |
| `Donut.DonutPiesTileCircle` | eink_widgets.py:517-588 | no pie slice for empty data or a zero total; otherwise one per value, the first from -90, each starting where the previous ended, the last ending at 270 |
| `Donut.StippleInsideSectors` | eink_widgets.py:418-515 | every stippled pixel needs patterns on, lies in the chart box and in some sector's pie, and lies outside the hole |
| `Donut.StippledWhenCovered` | eink_widgets.py:418-515 | conversely, a chart-box pixel on the stride of sector `j`'s pattern whose stencil position lies in that sector's pie and not in a positive hole is stippled once all sectors are drawn |
| `Donut.DrawSectorShape` | eink_widgets.py:546-556 | a white pie slice and its pattern pass, or a solid pie slice; only the pattern's pixels change |
| `Donut.DrawLabelPair` | eink_widgets.py:562-585 | the log grows by the name then the percentage, in black, in the size's font (fallback `small`), at ∓6 px from the point 1.3 radii out on the given mid-angle, both anchored by it |
| `Donut.DrawSectorLabel` | eink_widgets.py:559-586 | the log grows by the sector's label pair, if any |
| `Donut.DrawSector` | eink_widgets.py:546-586 | one loop iteration: the log grows by exactly the sector's calls, and only the pixels its pattern pass inks change |
| `Donut.DrawSectors` | eink_widgets.py:536-588 | the loop draws every sector in order; the image changes exactly at the pixels some sector's pattern pass inks |
| `Donut.DrawHole` | eink_widgets.py:590-599 | the white hole ellipse is drawn exactly when its radius is positive |
| `Donut.DonutCommands` | eink_widgets.py:517-599 | no call at all exactly for empty data or a zero total; otherwise at least one call per value |
| `Donut.DrawDonut` | eink_widgets.py:517-599 | the loop draws every sector in order and then the hole; the image changes exactly at the stippled pixels; nothing at all happens for empty data or a zero total |
| `Layout.ZeroExtentIgnored` | eink_widgets.py:684-687 | an explicit extent of 0 is falsy and acts as if none were given |
| `Layout.PlacementsDoNotOverlap` | eink_widgets.py:680-689 | with non-negative spacing and extent, a placed widget ends before the cursor, which never moves back |
| `Layout.ExtentlessWidgetStays` | eink_widgets.py:680-708 | a text or donut chart added without an extent leaves the cursor in place |
| `Layout.HorizontalLayout.constructor` | eink_widgets.py:674-678 | the cursor starts at `x` |
| `Layout.HorizontalLayout.Add` | eink_widgets.py:680-689 | the widget moves to `(current_x, y)` and is returned; the cursor advances by the truthy explicit width, else the widget's width, plus spacing, else stays |
| `Layout.VerticalLayout.constructor` | eink_widgets.py:694-698 | the cursor starts at `y` |
| `Layout.VerticalLayout.Add` | eink_widgets.py:700-708 | the widget moves to `(x, current_y)` and is returned; the cursor advances by the truthy explicit height, else the widget's height, plus spacing, else stays |
| `PyNum.Trunc` | eink_widgets.py:297 | `int()` of a float truncates toward zero |
| `PyNum.RoundHalfEven` | eink_widgets.py:243 | `round()` is within one half of its argument, and ties go to the even integer |
| `PyNum.FloorDiv` | eink_widgets.py:249 | `//` is floor division for either sign of divisor |
| `PyNum.DecimalRoundTrip` | eink_widgets.py:306 | `str()` of a natural number reads back as that number |

## Left out

- `SVGIcon` and `SVG`: cairosvg rasterisation, alpha compositing, resizing and reading files are foreign library calls and I/O.
- Pillow's rasterisation of rectangles, pie slices, ellipses, lines and text: these are recorded as calls, not turned into pixels. Only `clear` and the pattern points are written to the image. The image therefore does not show the white pie slice a pattern is drawn over.
- `textbbox`: the white box behind a progress label is recorded as a `TextBoxFill` call over the text's bounding box, whose size is not computed.
- The pie and hole stencils: the rasteriser that fills them is a parameter (`covers`), not computed.
- Label positions: the model records the polar position (centre, 1.3 × radius, middle angle, ±6 px) instead of computing it with `math.cos` and `math.sin`.
- Floating point: reals stand in for Python floats, so rounding of angles, steps and shares is exact, not IEEE.
- Font loading (`ImageFont.truetype`, `load_default`): an oracle saying whether a file loads at a size. The `print` of a failed load is not modelled.
- `Widgets.Widget.Draw`: the widget kinds are a closed set, one per subclass. A bare `Widget`, whose `draw` raises `NotImplementedError` (lines 114-116), and user-defined subclasses are not modelled.
- Keyword-argument defaults: every constructor takes all of its arguments explicitly. The defaults not modelled are `clear(color=255)`; Text `font_size='medium'`, `fill=0`; Box `fill=255`, `outline=0`, `outline_width=1`; NotchBar `num_notches=5`, `spacing=3`; ProgressBar `show_percentage=True`, `font_size='small'`; DonutChart `hole_ratio=0.5`, `show_labels=True`, `font_size='small'`, `use_patterns=True`; both layouts `spacing=10`.
- `SimpleWidgets.DrawBox`: `fill` and `outline` are always colours. The `None` that Pillow accepts for either is not modelled.
- `Patterns.ApplyPattern`: coordinates are integers, so the `int()` truncations of the bounding box in `_apply_pattern` (lines 448-488) are identities. A widget placed at a non-integer position is not modelled.
- `get_image`: plain access to `Canvas.EinkCanvas.surface.image`.
- `Donut.DonutChart`: the diameter is a natural number. Pillow refuses a negative mask size, which is not modelled.
- `add_font_family`: `sizes` is a list of `(suffix, size)` pairs in the dict's iteration order.
- The demo scripts (`esempio_widgets.py`, `quick_example.py`) drive display hardware. `download_lato_font.py` downloads and unpacks a font over the network. Neither is part of this model.
