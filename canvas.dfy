/** `EinkCanvas`: a 1-bit image, the surface drawing on it and the font table. */
module Canvas {
  import opened Common
  import opened Fonts
  import opened Surface
  import opened Widgets
  import opened Donut

  class EinkCanvas {
    const width: nat
    const height: nat
    /** The directory `Font.ttc` is read from. */
    const picdir: string
    var fonts: Registry
    const surface: Surface

    /** The four default names are always registered, so the `fonts['medium']`
        and `fonts['small']` lookups of the widgets never fail; the image has
        the canvas's size. */
    predicate Valid()
      reads this
    {
      && DefaultNames <= fonts.Keys
      && surface.image.Length0 == width && surface.image.Length1 == height
    }

    /** `EinkCanvas(width, height, picdir)`: a white image; `picdir` defaults to
        the `pic` directory beside the module (`moduleDir`), and the default
        fonts are loaded from `Font.ttc` in it. */
    constructor (width: nat, height: nat, picdir: Option<string>, moduleDir: string, loads: Loader)
      ensures Valid()
      ensures this.width == width && this.height == height
      ensures this.picdir == if Truthy(picdir) then picdir.value else Join(moduleDir, "pic")
      ensures fonts == DefaultFonts(Join(this.picdir, "Font.ttc"), loads)
      ensures fresh(surface) && fresh(surface.image) && surface.log == []
      ensures surface.image.Length0 == width && surface.image.Length1 == height
      ensures forall px, py | 0 <= px < width && 0 <= py < height :: surface.image[px, py] == Paper
    {
      this.width := width;
      this.height := height;
      var dir := if Truthy(picdir) then picdir.value else Join(moduleDir, "pic");
      this.picdir := dir;
      surface := new Surface(width, height);
      fonts := DefaultFonts(Join(dir, "Font.ttc"), loads);
    }

    /** `add_custom_font(name, font_path, size)`: registers the loaded font, or
        on failure the current `medium` font, under `name`. */
    method AddCustomFont(name: string, path: string, size: int, loads: Loader)
      modifies this
      ensures fonts == WithFont(old(fonts), name, path, size, loads)
      ensures old(Valid()) ==> Valid()
    {
      if loads(path, size) {
        fonts := fonts[name := TrueType(path, size)];
      } else {
        fonts := fonts[name := if "medium" in fonts then fonts["medium"] else BuiltIn];
      }
    }

    /** `add_font_family(prefix, font_path, sizes)`: registers `prefix_suffix`
        for each entry of `sizes` in order (the four default sizes when `sizes` is `None`). */
    method AddFontFamily(prefix: string, path: string, sizes: Option<seq<(string, int)>>, loads: Loader)
      modifies this
      ensures fonts == FamilyFonts(old(fonts), prefix, path, if sizes.Some? then sizes.value else DefaultSizes, loads)
      ensures old(Valid()) ==> Valid()
    {
      var entries := if sizes.Some? then sizes.value else DefaultSizes;
      var i := 0;
      while i < |entries|
        invariant 0 <= i <= |entries|
        invariant fonts == FamilyFonts(old(fonts), prefix, path, entries[..i], loads)
        invariant old(fonts).Keys <= fonts.Keys
      {
        assert entries[..i + 1][..i] == entries[..i];
        AddCustomFont(FamilyName(prefix, entries[i].0), path, entries[i].1, loads);
        i := i + 1;
      }
      assert entries[..i] == entries;
    }

    /** `clear(color)`: fills the whole image with `color`. */
    method Clear(color: int)
      requires Valid()
      modifies surface, surface.image
      ensures surface.log == old(surface.log) + [Rectangle(Bounds(0, 0, width, height), Some(color), None, 1)]
      ensures forall px, py | 0 <= px < width && 0 <= py < height :: surface.image[px, py] == color
    {
      surface.Fill(color);
    }

    /** `add_widget(widget)`: draws the widget with the canvas's fonts and returns
        the canvas itself, so that calls can be chained; an error raised while
        drawing propagates. */
    method AddWidget(w: Widget, covers: Rasterizer) returns (r: Outcome<EinkCanvas>)
      requires Valid()
      modifies surface, surface.image
      ensures KindCommands(w.kind, w.x, w.y, fonts).Returned? ==>
        r == Returned(this) && surface.log == old(surface.log) + KindCommands(w.kind, w.x, w.y, fonts).value
      ensures KindCommands(w.kind, w.x, w.y, fonts).Raised? ==>
        r == Raised(KindCommands(w.kind, w.x, w.y, fonts).error) && surface.log == old(surface.log)
      ensures !w.kind.DonutKind? || w.kind.donut.data == [] || Sum(w.kind.donut.data) == 0.0 ==> unchanged(surface.image)
      ensures w.kind.DonutKind? && w.kind.donut.data != [] && Sum(w.kind.donut.data) != 0.0 ==>
        forall px, py | 0 <= px < width && 0 <= py < height ::
          surface.image[px, py] == if Stippled(w.kind.donut, w.x, w.y, covers, Sum(w.kind.donut.data), |w.kind.donut.data|, px, py)
                                   then Ink else old(surface.image[px, py])
    {
      assert "small" in DefaultNames && "medium" in DefaultNames;
      var raised := w.Draw(surface, fonts, covers);
      if raised.Some? {
        return Raised(raised.value);
      }
      return Returned(this);
    }
  }
}
