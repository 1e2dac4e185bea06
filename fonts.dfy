/** The canvas's font table: symbolic names mapped to loaded fonts, with the
    fallbacks that make a failed load or a missing name harmless. */
module Fonts {
  import opened Common

  /** A loaded font: a TrueType file at a point size, or Pillow's built-in bitmap font. */
  datatype Font = TrueType(path: string, size: int) | BuiltIn

  type Registry = map<string, Font>

  /** The font loader, seen from outside: whether loading `path` at `size` succeeds. */
  type Loader = (string, int) -> bool

  /** The four symbolic sizes every canvas starts with, in the order the source lists them. */
  const DefaultSizes: seq<(string, int)> := [("small", 14), ("medium", 18), ("large", 24), ("xlarge", 48)]

  const DefaultNames: set<string> := {"small", "medium", "large", "xlarge"}

  /** `os.path.join(dir, name)` for a relative `name`. */
  function Join(dir: string, name: string): string
  {
    if dir == [] then name
    else if dir[|dir| - 1] == '/' then dir + name
    else dir + "/" + name
  }

  /** Whether all four default sizes of one file load: the `try` block succeeds only then. */
  predicate AllDefaultsLoad(path: string, loads: Loader)
  {
    forall i | 0 <= i < |DefaultSizes| :: loads(path, DefaultSizes[i].1)
  }

  /** The table `_load_fonts` builds from `Font.ttc`: all four sizes from the file,
      or, if any load fails, the built-in font under all four names. */
  function DefaultFonts(path: string, loads: Loader): (m: Registry)
    ensures m.Keys == DefaultNames
    ensures forall i | 0 <= i < |DefaultSizes| ::
      m[DefaultSizes[i].0] == if AllDefaultsLoad(path, loads) then TrueType(path, DefaultSizes[i].1) else BuiltIn
  {
    if AllDefaultsLoad(path, loads) then
      assert loads(path, DefaultSizes[0].1) && loads(path, DefaultSizes[1].1);
      assert loads(path, DefaultSizes[2].1) && loads(path, DefaultSizes[3].1);
      map["small" := TrueType(path, 14), "medium" := TrueType(path, 18),
          "large" := TrueType(path, 24), "xlarge" := TrueType(path, 48)]
    else
      map["small" := BuiltIn, "medium" := BuiltIn, "large" := BuiltIn, "xlarge" := BuiltIn]
  }

  /** What a failed registration binds a name to: the current `medium` font, else the built-in one. */
  function MediumOrBuiltIn(fonts: Registry): Font
  {
    if "medium" in fonts then fonts["medium"] else BuiltIn
  }

  /** The table after `add_custom_font(name, path, size)`. */
  function WithFont(fonts: Registry, name: string, path: string, size: int, loads: Loader): (m: Registry)
    ensures m.Keys == fonts.Keys + {name}
    ensures forall k | k in fonts && k != name :: m[k] == fonts[k]
    ensures loads(path, size) ==> m[name] == TrueType(path, size)
    ensures !loads(path, size) ==> m[name] == MediumOrBuiltIn(fonts)
  {
    fonts[name := if loads(path, size) then TrueType(path, size) else MediumOrBuiltIn(fonts)]
  }

  /** The name `add_font_family` registers for one suffix. */
  function FamilyName(prefix: string, suffix: string): string
  {
    prefix + "_" + suffix
  }

  /** The table after registering `sizes[..]` in order under `prefix`. */
  function FamilyFonts(fonts: Registry, prefix: string, path: string, sizes: seq<(string, int)>, loads: Loader): Registry
    decreases |sizes|
  {
    if sizes == [] then fonts
    else
      var last := sizes[|sizes| - 1];
      WithFont(FamilyFonts(fonts, prefix, path, sizes[..|sizes| - 1], loads), FamilyName(prefix, last.0), path, last.1, loads)
  }

  /** A family name always contains `_`, so a family never rebinds `medium`. */
  lemma FamilyNameIsNotMedium(prefix: string, suffix: string)
    ensures FamilyName(prefix, suffix) != "medium"
  {
    var n := FamilyName(prefix, suffix);
    assert n[|prefix|] == '_';
  }

  /** Two family names under one prefix are equal only when their suffixes are. */
  lemma FamilyNameInjective(prefix: string, a: string, b: string)
    requires FamilyName(prefix, a) == FamilyName(prefix, b)
    ensures a == b
  {
    assert a == FamilyName(prefix, a)[|prefix| + 1..];
    assert b == FamilyName(prefix, b)[|prefix| + 1..];
  }

  /** Registering a family keeps `medium` bound to the font it had before. */
  lemma {:induction false} FamilyKeepsMedium(fonts: Registry, prefix: string, path: string, sizes: seq<(string, int)>, loads: Loader)
    requires "medium" in fonts
    ensures var m := FamilyFonts(fonts, prefix, path, sizes, loads);
      "medium" in m && m["medium"] == fonts["medium"]
    decreases |sizes|
  {
    if sizes != [] {
      FamilyKeepsMedium(fonts, prefix, path, sizes[..|sizes| - 1], loads);
      FamilyNameIsNotMedium(prefix, sizes[|sizes| - 1].0);
    }
  }

  /** The names `add_font_family(prefix, path)` registers with the default sizes. */
  function DefaultFamilyNames(prefix: string): set<string>
  {
    {FamilyName(prefix, "small"), FamilyName(prefix, "medium"), FamilyName(prefix, "large"), FamilyName(prefix, "xlarge")}
  }

  /** What one family member is bound to: the file at `size`, or the table's `medium` font. */
  function FamilyEntry(fonts: Registry, path: string, size: int, loads: Loader): Font
    requires "medium" in fonts
  {
    if loads(path, size) then TrueType(path, size) else fonts["medium"]
  }

  /** `add_font_family(prefix, path)` with the default sizes adds exactly the keys
      `prefix_small`, `prefix_medium`, `prefix_large` and `prefix_xlarge`, loaded at
      14/18/24/48 or, where a load fails, bound to the `medium` font of the table;
      every other key keeps its font. */
  lemma DefaultFamily(fonts: Registry, prefix: string, path: string, loads: Loader)
    requires "medium" in fonts
    ensures var m := FamilyFonts(fonts, prefix, path, DefaultSizes, loads);
      && m.Keys == fonts.Keys + DefaultFamilyNames(prefix)
      && m[FamilyName(prefix, "small")] == FamilyEntry(fonts, path, 14, loads)
      && m[FamilyName(prefix, "medium")] == FamilyEntry(fonts, path, 18, loads)
      && m[FamilyName(prefix, "large")] == FamilyEntry(fonts, path, 24, loads)
      && m[FamilyName(prefix, "xlarge")] == FamilyEntry(fonts, path, 48, loads)
      && (forall k | k in fonts && k !in DefaultFamilyNames(prefix) :: m[k] == fonts[k])
  {
    var n0, n1, n2, n3 := FamilyName(prefix, "small"), FamilyName(prefix, "medium"),
                          FamilyName(prefix, "large"), FamilyName(prefix, "xlarge");
    if n0 == n1 { FamilyNameInjective(prefix, "small", "medium"); }
    if n0 == n2 { FamilyNameInjective(prefix, "small", "large"); }
    if n0 == n3 { FamilyNameInjective(prefix, "small", "xlarge"); }
    if n1 == n2 { FamilyNameInjective(prefix, "medium", "large"); }
    if n1 == n3 { FamilyNameInjective(prefix, "medium", "xlarge"); }
    if n2 == n3 { FamilyNameInjective(prefix, "large", "xlarge"); }
    DefaultFamilyUnfolds(fonts, prefix, path, loads);
  }

  /** The default family as four successive bindings, each to its own entry. */
  lemma DefaultFamilyUnfolds(fonts: Registry, prefix: string, path: string, loads: Loader)
    requires "medium" in fonts
    ensures FamilyFonts(fonts, prefix, path, DefaultSizes, loads)
      == fonts[FamilyName(prefix, "small") := FamilyEntry(fonts, path, 14, loads)]
              [FamilyName(prefix, "medium") := FamilyEntry(fonts, path, 18, loads)]
              [FamilyName(prefix, "large") := FamilyEntry(fonts, path, 24, loads)]
              [FamilyName(prefix, "xlarge") := FamilyEntry(fonts, path, 48, loads)]
  {
    assert DefaultSizes[..3][..2][..1][..0] == [];
    FamilyStep(fonts, prefix, path, DefaultSizes[..1], loads);
    FamilyStep(fonts, prefix, path, DefaultSizes[..2], loads);
    FamilyStep(fonts, prefix, path, DefaultSizes[..3], loads);
    FamilyStep(fonts, prefix, path, DefaultSizes, loads);
  }

  /** Registering one more size binds its name to the entry computed from the original table. */
  lemma FamilyStep(fonts: Registry, prefix: string, path: string, sizes: seq<(string, int)>, loads: Loader)
    requires "medium" in fonts && sizes != []
    ensures var last := sizes[|sizes| - 1];
      FamilyFonts(fonts, prefix, path, sizes, loads)
        == FamilyFonts(fonts, prefix, path, sizes[..|sizes| - 1], loads)[FamilyName(prefix, last.0) := FamilyEntry(fonts, path, last.1, loads)]
  {
    FamilyKeepsMedium(fonts, prefix, path, sizes[..|sizes| - 1], loads);
  }

  /** The first of `keys` the table holds, else the built-in font: the reference
      meaning of a chain of `dict.get` fallbacks. */
  function FirstPresent(fonts: Registry, keys: seq<string>): (f: Font)
    ensures (forall i | 0 <= i < |keys| :: keys[i] !in fonts) ==> f == BuiltIn
    ensures forall i | 0 <= i < |keys| && keys[i] in fonts ::
      (forall j | 0 <= j < i :: keys[j] !in fonts) ==> f == fonts[keys[i]]
  {
    if keys == [] then BuiltIn
    else if keys[0] in fonts then fonts[keys[0]]
    else FirstPresent(fonts, keys[1..])
  }

  /** The font a `Text` widget draws with: its own `font` name when that is set and
      registered, else `fonts.get(font_size, fonts.get('medium', load_default()))`. */
  function TextFont(fonts: Registry, font: Option<string>, fontSize: string): (f: Font)
    ensures f == BuiltIn || f in fonts.Values
    ensures Truthy(font) && font.value in fonts ==> f == fonts[font.value]
    ensures fontSize in fonts && fonts[fontSize] != f ==> Truthy(font) && font.value in fonts
  {
    if Truthy(font) && font.value in fonts then fonts[font.value]
    else if fontSize in fonts then fonts[fontSize]
    else MediumOrBuiltIn(fonts)
  }

  /** The candidate names a `Text` widget tries, in order. */
  function TextFontChain(font: Option<string>, fontSize: string): seq<string>
  {
    (if Truthy(font) then [font.value] else []) + [fontSize, "medium"]
  }

  /** The last two links of the chain: the size name, then `medium`, then the built-in font. */
  lemma SizeThenMedium(fonts: Registry, fontSize: string)
    ensures FirstPresent(fonts, [fontSize, "medium"]) == if fontSize in fonts then fonts[fontSize] else MediumOrBuiltIn(fonts)
  {
    var chain := [fontSize, "medium"];
    assert chain[1..] == ["medium"] && ["medium"][1..] == [];
    assert FirstPresent(fonts, ["medium"]) == MediumOrBuiltIn(fonts);
  }

  /** Text font resolution is exactly the ordered fallback chain: explicit name,
      then size bucket, then `medium`, then the built-in font. */
  lemma TextFontIsFallbackChain(fonts: Registry, font: Option<string>, fontSize: string)
    ensures TextFont(fonts, font, fontSize) == FirstPresent(fonts, TextFontChain(font, fontSize))
  {
    var chain := TextFontChain(font, fontSize);
    SizeThenMedium(fonts, fontSize);
    if Truthy(font) {
      assert chain == [font.value, fontSize, "medium"];
      assert chain[1..] == [fontSize, "medium"];
      if font.value in fonts {
        assert FirstPresent(fonts, chain) == fonts[font.value];
      } else {
        assert FirstPresent(fonts, chain) == FirstPresent(fonts, chain[1..]);
      }
    } else {
      assert chain == [fontSize, "medium"];
    }
  }

  /** `fonts.get(size, fonts[fallback])`; the fallback is looked up first, so it must exist. */
  function SizeFont(fonts: Registry, size: string, fallback: string): (f: Font)
    requires fallback in fonts
    ensures size in fonts ==> f == fonts[size]
    ensures size !in fonts ==> f == fonts[fallback]
  {
    if size in fonts then fonts[size] else fonts[fallback]
  }
}
