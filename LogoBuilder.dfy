/**
 * The fluent logo builder of Logo.ts: one mutable field, `text`, that setText
 * and addFontStyle overwrite, and the gradient step that reads it.
 *
 * The figlet renderer is a pure function handed to the builder when it is
 * created; the gradient-string colouring is represented by the value it
 * would colour and the gradient it would use.
 */
module LogoBuilder {
  import opened Wrappers
  import opened Palettes

  /** Font and width addFontStyle uses when called without arguments. */
  const DefaultFont: string := "ANSI Shadow"
  const DefaultTextWidth: nat := 100

  /** figlet.textSync(text, { font, width, ... }): glyph rendering, not modelled. */
  type Renderer = (string, string, nat) -> string

  /** The errors the builder throws. */
  datatype LogoError = EmptyText | NoTextSet {
    function Message(): string {
      match this
      case EmptyText => "Text cannot be empty"
      case NoTextSet => "No text set. Call setText() or addFontStyle() first."
    }
  }

  /** What `gradientFunc.multiline(text)` returns: `text` coloured line by line with `gradient`. */
  datatype Coloured = Coloured(gradient: Gradient, text: string)

  // ---------------------------------------------------------------------------
  // String.prototype.trim
  // ---------------------------------------------------------------------------

  /** WhiteSpace and LineTerminator code points (sections 12.2 and 12.3 of ECMA-262), which trim removes. */
  predicate IsJsWhitespace(c: char) {
    c == '\t' || c == '\n' || c == '\U{000B}' || c == '\U{000C}' || c == '\r' || c == ' '
    || c == '\U{00A0}' || c == '\U{1680}' || ('\U{2000}' <= c <= '\U{200A}')
    || c == '\U{2028}' || c == '\U{2029}' || c == '\U{202F}' || c == '\U{205F}'
    || c == '\U{3000}' || c == '\U{FEFF}'
  }

  /** `s` with its leading whitespace removed. */
  function TrimStart(s: string): (r: string)
    ensures |r| <= |s| && r == s[|s| - |r|..]
    ensures forall i :: 0 <= i < |s| - |r| ==> IsJsWhitespace(s[i])
    ensures r == [] || !IsJsWhitespace(r[0])
  {
    if s != [] && IsJsWhitespace(s[0]) then TrimStart(s[1..]) else s
  }

  /** `s` with its trailing whitespace removed. */
  function TrimEnd(s: string): (r: string)
    ensures |r| <= |s| && r == s[..|r|]
    ensures forall i :: |r| <= i < |s| ==> IsJsWhitespace(s[i])
    ensures r == [] || !IsJsWhitespace(r[|r| - 1])
  {
    if s != [] && IsJsWhitespace(s[|s| - 1]) then TrimEnd(s[..|s| - 1]) else s
  }

  /** String.prototype.trim: whitespace removed at both ends. */
  function Trim(s: string): string {
    TrimEnd(TrimStart(s))
  }

  /**
   * The guard of setText, `!text || text.trim().length === 0`: it holds
   * exactly when every character of the text is whitespace.
   */
  predicate IsBlank(t: string): (b: bool)
    ensures b <==> forall i :: 0 <= i < |t| ==> IsJsWhitespace(t[i])
  {
    var s := TrimStart(t);
    assert s != [] ==> !IsJsWhitespace(t[|t| - |s|]) && TrimEnd(s) != [];
    t == "" || |Trim(t)| == 0
  }

  // ---------------------------------------------------------------------------
  // The builder
  // ---------------------------------------------------------------------------

  class Logo {
    /** The text built so far: the plain text, or its rendering once styled. */
    var text: string
    /** The glyph renderer addFontStyle applies. */
    const render: Renderer

    /** A new builder holds no text. */
    constructor (render: Renderer)
      ensures text == "" && this.render == render
    {
      text := "";
      this.render := render;
    }

    /** Replaces the text; blank input throws and leaves the builder as it was. */
    method SetText(t: string) returns (r: Result<Logo, LogoError>)
      modifies this
      ensures IsBlank(t) ==> r == Failure(EmptyText) && text == old(text)
      ensures !IsBlank(t) ==> r == Success(this) && text == t && GetText() == t
    {
      if t == "" || |Trim(t)| == 0 {
        return Failure(EmptyText);
      }
      text := t;
      return Success(this);
    }

    /** The current text. */
    function GetText(): (t: string)
      reads this
      ensures t == text
    {
      text
    }

    /** Replaces the text by its rendering in `font` at `width` columns. */
    method AddFontStyle(font: string := DefaultFont, width: nat := DefaultTextWidth) returns (self: Logo)
      modifies this
      ensures self == this && text == render(old(text), font, width)
    {
      text := render(text, font, width);
      return this;
    }

    /** Colours the current text with the palette's gradient; an empty text throws. */
    function AddGradient(palette: string): (r: Result<Coloured, LogoError>)
      reads this
      ensures r.Failure? <==> text == ""
      ensures r.Failure? ==> r.error == NoTextSet
      ensures r.Success? ==> r.value.text == text && r.value.gradient == GradientFor(palette)
    {
      if text == "" then Failure(NoTextSet)
      else Success(Coloured(GradientOf(ResolvePalette(palette)), text))
    }

    /** addGradient with one of PALETTE_NAMES picked by `randomIndex` (Math.random in the source). */
    function AddRandomGradient(randomIndex: nat): (r: Result<Coloured, LogoError>)
      requires randomIndex < |PaletteNames|
      reads this
      ensures r == AddGradient(PaletteNames[randomIndex])
      ensures ResolvePalette(PaletteNames[randomIndex]) != DefaultCustom
    {
      AddGradient(PaletteNames[randomIndex])
    }

    /** The lookup used here is the corrected one: an inherited name such as "toString" gets the default colours. */
    lemma CorrectedLookupOnInheritedName()
      requires text != ""
      ensures AddGradient("toString") == Success(Coloured(Stops(["#ff9966", "#ff5e62", "#ffa34e"]), text))
      ensures ResolvePaletteAsWritten("toString") == None
    {
      AsWrittenThrowsOnInheritedName();
    }

    /** The fluent alternative to addGradient, "sunset" by default. */
    function Build(palette: string := DefaultPalette): (r: Result<Coloured, LogoError>)
      reads this
      ensures r == AddGradient(palette)
    {
      AddGradient(palette)
    }

    /** setText, then addFontStyle with the defaults, then addGradient. */
    method CreateLogo(t: string, palette: string := DefaultPalette) returns (r: Result<Coloured, LogoError>)
      modifies this
      ensures IsBlank(t) ==> r == Failure(EmptyText) && text == old(text)
      ensures !IsBlank(t) ==> text == render(t, DefaultFont, DefaultTextWidth) && r == AddGradient(palette)
    {
      var chained := SetText(t);
      if chained.Failure? {
        return Failure(chained.error);
      }
      var styled := AddFontStyle();
      r := AddGradient(palette);
    }

    /** createLogo with one of PALETTE_NAMES picked by `randomIndex` (Math.random in the source). */
    method CreateRandomLogo(t: string, randomIndex: nat) returns (r: Result<Coloured, LogoError>)
      requires randomIndex < |PaletteNames|
      modifies this
      ensures IsBlank(t) ==> r == Failure(EmptyText) && text == old(text)
      ensures !IsBlank(t) ==> text == render(t, DefaultFont, DefaultTextWidth) && r == AddGradient(PaletteNames[randomIndex])
    {
      var randomPalette := PaletteNames[randomIndex];
      var chained := SetText(t);
      if chained.Failure? {
        return Failure(chained.error);
      }
      var styled := AddFontStyle();
      r := AddGradient(randomPalette);
    }
  }
}
