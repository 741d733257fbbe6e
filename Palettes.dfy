/**
 * The palette tables of the logo builder and the lookup that turns a palette
 * name into a gradient (Logo.ts). The colouring itself belongs to the
 * gradient-string library and is represented only by the gradient chosen.
 */
module Palettes {
  import opened Wrappers

  /** The palette used when none is named, and the colours of every fallback. */
  const DefaultPalette: string := "sunset"

  /** The keys of PRESET_GRADIENTS, in declaration order; their colours are the library's. */
  const PresetKeys: seq<string> := [
    "cristal", "teen", "mind", "morning", "vice", "passion", "fruit",
    "instagram", "atlas", "retro", "summer", "pastel", "rainbow"
  ]

  /** The keys of CUSTOM_GRADIENTS, in declaration order (Object.keys keeps that order). */
  const CustomKeys: seq<string> := [
    "sunset", "ocean", "fire", "forest", "gold", "copper",
    "blue", "mint", "aqua", "ice", "dawn",
    "lava", "volcano", "coral", "cherry",
    "cyberpunk", "neon", "aurora", "lavender", "emerald",
    "matrix", "nebula"
  ]

  /** The values of CUSTOM_GRADIENTS: CustomColours[i] are the colour stops of CustomKeys[i]. */
  const CustomColours: seq<seq<string>> := [
    ["#ff9966", "#ff5e62", "#ffa34e"],
    ["#667eea", "#764ba2"],
    ["#ff0844", "#ffb199"],
    ["#134e5e", "#71b280"],
    ["#f7971e", "#ffd200"],
    ["#b87333", "#d4af37", "#cd7f32"],
    ["#4ea8ff", "#7f88ff"],
    ["#00d2ff", "#3a7bd5"],
    ["#00ffff", "#00ced1", "#20b2aa"],
    ["#e0ffff", "#b0e0e6", "#87ceeb"],
    ["#00c6ff", "#0072ff"],
    ["#ff4500", "#ffa500", "#ff0000"],
    ["#8b0000", "#ff4500", "#ffd700"],
    ["#ff9a9e", "#fecfef"],
    ["#ff1493", "#ff69b4", "#ff85c1"],
    ["#ff00ff", "#00ffff", "#ff00ff"],
    ["#39ff14", "#7fff00", "#adff2f"],
    ["#00ff87", "#60efff", "#a78bfa"],
    ["#e6e6fa", "#dda0dd", "#ba55d3"],
    ["#50c878", "#2ecc71", "#00d084"],
    ["#00ff41", "#008f11"],
    ["#654ea3", "#eaafc8"]
  ]

  /** PALETTE_NAMES: the custom names followed by the preset names. */
  const PaletteNames: seq<string> := CustomKeys + PresetKeys

  /** Where a palette name's gradient comes from. */
  datatype PaletteSource = Preset(name: string) | Custom(name: string) | DefaultCustom

  /** The gradient function addGradient applies: a library preset, or one built from colour stops. */
  datatype Gradient = PresetGradient(name: string) | Stops(colours: seq<string>)

  /** The position of the first occurrence of `name` in `names`. */
  function IndexOf(names: seq<string>, name: string): (i: nat)
    requires name in names
    ensures i < |names| && names[i] == name
    ensures forall j :: 0 <= j < i ==> names[j] != name
  {
    if names[0] == name then 0 else 1 + IndexOf(names[1..], name)
  }

  /** CUSTOM_GRADIENTS[name]: the colour stops stored under a custom key. */
  function CustomStops(name: string): seq<string>
    requires name in CustomKeys
  {
    CustomColours[IndexOf(CustomKeys, name)]
  }

  /** The palette lookup of addGradient: the preset table first, then the custom table, else the default. */
  function ResolvePalette(name: string): (r: PaletteSource)
    ensures r.Preset? <==> name in PresetKeys
    ensures r.Custom? <==> name !in PresetKeys && name in CustomKeys
    ensures r.DefaultCustom? <==> name !in PaletteNames
    ensures !r.DefaultCustom? ==> r.name == name
  {
    if name in PresetKeys then Preset(name)
    else if name in CustomKeys then Custom(name)
    else DefaultCustom
  }

  /** The gradient a resolved palette stands for; the fallback takes the default palette's stops. */
  function GradientOf(src: PaletteSource): Gradient {
    match src
    case Preset(n) => PresetGradient(n)
    // ResolvePalette builds Custom(n) only for n in CustomKeys; the empty stops keep the function total
    case Custom(n) => if n in CustomKeys then Stops(CustomStops(n)) else Stops([])
    case DefaultCustom => Stops(CustomStops(DefaultPalette))
  }

  /** The gradient addGradient applies for a given palette name. */
  function GradientFor(name: string): Gradient {
    GradientOf(ResolvePalette(name))
  }

  /** PALETTE_NAMES lists exactly the keys of both tables, custom keys first. */
  lemma PaletteNamesCoverTables()
    ensures |PaletteNames| == |CustomKeys| + |PresetKeys| == 35
    ensures PaletteNames[..|CustomKeys|] == CustomKeys && PaletteNames[|CustomKeys|..] == PresetKeys
    ensures forall n :: n in PaletteNames <==> n in CustomKeys || n in PresetKeys
  {
  }

  /** No palette name is listed twice, so no custom palette is shadowed by a preset. */
  lemma PaletteNamesDistinct()
    ensures forall i, j :: 0 <= i < j < |PaletteNames| ==> PaletteNames[i] != PaletteNames[j]
  {
  }

  /** No palette name is empty or starts with a dash, so none can be mistaken for an option. */
  lemma PaletteNamesAreNotOptions()
    ensures forall n :: n in PaletteNames ==> n != [] && n[0] != '-'
  {
  }

  /** Every custom palette resolves to its own colour stops: the preset-first order hides none of them. */
  lemma CustomPalettesKeepTheirColours(i: nat)
    requires i < |CustomKeys|
    ensures ResolvePalette(CustomKeys[i]) == Custom(CustomKeys[i])
    ensures GradientFor(CustomKeys[i]) == Stops(CustomColours[i])
  {
    PaletteNamesDistinct();
    var n := CustomKeys[i];
    assert PaletteNames[i] == n;
    assert n !in PresetKeys by {
      forall j | 0 <= j < |PresetKeys| ensures PresetKeys[j] != n {
        assert PaletteNames[|CustomKeys| + j] == PresetKeys[j];
      }
    }
    var k := IndexOf(CustomKeys, n);
    assert PaletteNames[k] == PaletteNames[i];
  }

  /** A preset name always resolves to the library preset of that name. */
  lemma PresetsResolveFirst(name: string)
    requires name in PresetKeys
    ensures GradientFor(name) == PresetGradient(name)
  {
  }

  /** A name resolves to a table entry exactly when it is one of PALETTE_NAMES. */
  lemma ResolvedExactlyForPaletteNames(name: string)
    ensures ResolvePalette(name) != DefaultCustom <==> name in PaletteNames
  {
  }

  /** Any name outside PALETTE_NAMES gets the colours of the default palette "sunset". */
  lemma UnknownNamesFallBackToSunset(name: string)
    requires name !in PaletteNames
    ensures GradientFor(name) == GradientFor(DefaultPalette) == Stops(["#ff9966", "#ff5e62", "#ffa34e"])
  {
    CustomPalettesKeepTheirColours(0);
  }

  // ---------------------------------------------------------------------------
  // The lookup as written: JavaScript's `in` also sees inherited properties.
  // ---------------------------------------------------------------------------

  /** The properties every plain object inherits from Object.prototype (section 20.1.3 of ECMA-262, with Annex B). */
  const InheritedKeys: seq<string> := [
    "constructor", "hasOwnProperty", "isPrototypeOf", "propertyIsEnumerable",
    "toLocaleString", "toString", "valueOf", "__proto__",
    "__defineGetter__", "__defineSetter__", "__lookupGetter__", "__lookupSetter__"
  ]

  /** `name in table` for an object literal whose own keys are `ownKeys`. */
  predicate InObjectLiteral(name: string, ownKeys: seq<string>) {
    name in ownKeys || name in InheritedKeys
  }

  /**
   * The lookup exactly as addGradient performs it. None stands for the case where
   * `PRESET_GRADIENTS[palette]` is an inherited member instead of a gradient, so
   * that `gradientFunc.multiline` is not a function and the call throws a TypeError.
   */
  function ResolvePaletteAsWritten(name: string): (r: Option<PaletteSource>)
    ensures r.None? <==> name in InheritedKeys && name !in PresetKeys
    ensures name !in InheritedKeys ==> r == Some(ResolvePalette(name))
  {
    if InObjectLiteral(name, PresetKeys) then
      if name in PresetKeys then Some(Preset(name)) else None
    else if InObjectLiteral(name, CustomKeys) then Some(Custom(name))
    else Some(DefaultCustom)
  }

  /** "toString" is outside PALETTE_NAMES, yet the lookup as written throws instead of falling back. */
  lemma AsWrittenThrowsOnInheritedName()
    ensures "toString" !in PaletteNames
    ensures ResolvePaletteAsWritten("toString") == None
    ensures GradientFor("toString") == GradientFor(DefaultPalette)
  {
    UnknownNamesFallBackToSunset("toString");
  }

  /** Off the inherited names, and in particular on every palette name, both lookups agree. */
  lemma AsWrittenAgreesOffPrototype(name: string)
    requires name !in InheritedKeys || name in PaletteNames
    ensures ResolvePaletteAsWritten(name) == Some(ResolvePalette(name))
  {
  }
}
