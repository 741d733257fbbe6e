/**
 * The command line of cli-ascii-logo (cli.ts): how the argument vector is
 * resolved into showing help, listing the palettes, an error, or a logo to
 * draw, and how a logo request is handed to the builder.
 *
 * Printing and process.exit are represented by the returned outcome.
 */
module Cli {
  import opened Wrappers
  import opened Palettes
  import opened LogoBuilder

  /** The three errors of the argument scan and the text check. */
  datatype CliError = MissingPaletteName | UnknownPalette(name: string) | NoText {
    /** The message printed after "Error: ". */
    function Message(): string {
      match this
      case MissingPaletteName => "--palette requires a palette name"
      case UnknownPalette(_) => "Unknown palette \"" + name + "\". Use --list to see available palettes."
      case NoText => "No text provided"
    }
  }

  /** What the arguments ask for: help, the palette list, an error, or a logo. */
  datatype Outcome =
    | Help
    | List
    | Fail(error: CliError)
    | Generate(text: string, palette: Option<string>, random: bool)

  predicate IsHelpFlag(arg: string) { arg == "-h" || arg == "--help" }
  predicate IsListFlag(arg: string) { arg == "-l" || arg == "--list" }
  predicate IsPaletteFlag(arg: string) { arg == "-p" || arg == "--palette" }
  predicate IsRandomFlag(arg: string) { arg == "-r" || arg == "--random" }

  /** `arg.startsWith("-")`. */
  predicate StartsWithDash(arg: string) { |arg| > 0 && arg[0] == '-' }

  // ---------------------------------------------------------------------------
  // The text: words joined with single spaces
  // ---------------------------------------------------------------------------

  /** One step of the text accumulation: a space first only when the text is not empty. */
  function AppendWord(text: string, arg: string): string {
    text + (if text != "" then " " else "") + arg
  }

  /** The words separated by single spaces. */
  function Join(words: seq<string>): string {
    if words == [] then ""
    else if |words| == 1 then words[0]
    else words[0] + " " + Join(words[1..])
  }

  /** The words from the first non-empty one on. */
  function DropLeadingEmpty(words: seq<string>): (r: seq<string>)
    ensures r == [] || r[0] != ""
    ensures |r| <= |words| && (r != [] ==> r[0] == words[|words| - |r|])
    ensures forall i :: 0 <= i < |words| - |r| ==> words[i] == ""
  {
    if words == [] then []
    else if words[0] == "" then DropLeadingEmpty(words[1..])
    else words
  }

  /** What DropLeadingEmpty keeps is a suffix of the words: nothing is reordered or altered. */
  lemma {:induction false} DropLeadingEmptyIsSuffix(words: seq<string>)
    ensures DropLeadingEmpty(words) == words[|words| - |DropLeadingEmpty(words)|..]
    decreases |words|
  {
    if words != [] && words[0] == "" {
      DropLeadingEmptyIsSuffix(words[1..]);
      assert words[1..][|words[1..]| - |DropLeadingEmpty(words[1..])|..] == words[|words| - |DropLeadingEmpty(words)|..];
    }
  }

  /**
   * The text the scan builds from its words: empty words before the first
   * non-empty one leave no trace, all later ones are joined with spaces.
   */
  function Text(words: seq<string>): string {
    Join(DropLeadingEmpty(words))
  }

  lemma {:induction false} JoinSnoc(words: seq<string>, w: string)
    ensures Join(words + [w]) == if words == [] then w else Join(words) + " " + w
    decreases |words|
  {
    if |words| > 1 {
      assert (words + [w])[1..] == words[1..] + [w];
      JoinSnoc(words[1..], w);
    } else if |words| == 1 {
      assert words + [w] == [words[0], w];
    }
  }

  lemma {:induction false} DropLeadingEmptySnoc(words: seq<string>, w: string)
    ensures DropLeadingEmpty(words + [w]) ==
      if DropLeadingEmpty(words) != [] then DropLeadingEmpty(words) + [w]
      else if w == "" then [] else [w]
    decreases |words|
  {
    if words == [] {
      assert [] + [w] == [w];
    } else {
      assert (words + [w])[1..] == words[1..] + [w];
      if words[0] == "" {
        DropLeadingEmptySnoc(words[1..], w);
      }
    }
  }

  lemma {:induction false} JoinStartsWithFirst(words: seq<string>)
    requires words != []
    ensures |Join(words)| >= |words[0]|
  {
  }

  /** Appending a word to the text is what AppendWord does, step by step. */
  lemma {:induction false} TextSnoc(words: seq<string>, w: string)
    ensures Text(words + [w]) == AppendWord(Text(words), w)
  {
    DropLeadingEmptySnoc(words, w);
    if DropLeadingEmpty(words) == [] {
      TextSnocAfterNothing(words, w);
    } else {
      TextSnocAfterWord(words, w);
    }
  }

  lemma {:induction false} TextSnocAfterNothing(words: seq<string>, w: string)
    requires DropLeadingEmpty(words) == []
    requires DropLeadingEmpty(words + [w]) == if w == "" then [] else [w]
    ensures Text(words + [w]) == AppendWord(Text(words), w)
  {
    assert Text(words) == "";
    assert AppendWord("", w) == w;
  }

  lemma {:induction false} TextSnocAfterWord(words: seq<string>, w: string)
    requires DropLeadingEmpty(words) != []
    requires DropLeadingEmpty(words + [w]) == DropLeadingEmpty(words) + [w]
    ensures Text(words + [w]) == AppendWord(Text(words), w)
  {
    var d := DropLeadingEmpty(words);
    JoinSnoc(d, w);
    JoinStartsWithFirst(d);
    assert Text(words) == Join(d) != "";
  }

  /** The text is empty exactly when every word is empty. */
  lemma {:induction false} TextEmptyIffWordsEmpty(words: seq<string>)
    ensures Text(words) == "" <==> forall i :: 0 <= i < |words| ==> words[i] == ""
  {
    var d := DropLeadingEmpty(words);
    if d != [] {
      JoinStartsWithFirst(d);
      assert words[|words| - |d|] == d[0];
    }
  }

  // ---------------------------------------------------------------------------
  // The argument scan as a reference definition
  // ---------------------------------------------------------------------------

  /** What a stretch of the arguments contributes: its words, its last palette, and whether it asks for a random one. */
  datatype Flags = Flags(words: seq<string>, palette: Option<string>, random: bool)

  const NoFlags: Flags := Flags([], None, false)

  /** What `earlier` and then `later` contribute together; a later palette overrides. */
  function Then(earlier: Flags, later: Flags): Flags {
    Flags(earlier.words + later.words,
          if later.palette.Some? then later.palette else earlier.palette,
          earlier.random || later.random)
  }

  /** `earlier` in front of the outcome of scanning what follows it; an error stands. */
  function Prepend(earlier: Flags, rest: Result<Flags, CliError>): Result<Flags, CliError> {
    match rest
    case Failure(e) => Failure(e)
    case Success(later) => Success(Then(earlier, later))
  }

  /**
   * The parse loop of cli.ts: a palette option takes the next argument as its
   * value and must name a known palette, a random option is noted, any other
   * argument that does not start with a dash is a word, and every other
   * option is ignored. The first bad palette option decides the error.
   */
  function Scan(args: seq<string>): Result<Flags, CliError>
    decreases |args|
  {
    if args == [] then Success(NoFlags)
    else if IsPaletteFlag(args[0]) then
      if |args| == 1 || args[1] == "" then Failure(MissingPaletteName)
      else if args[1] !in PaletteNames then Failure(UnknownPalette(args[1]))
      else Prepend(Flags([], Some(args[1]), false), Scan(args[2..]))
    else if IsRandomFlag(args[0]) then Prepend(Flags([], None, true), Scan(args[1..]))
    else if !StartsWithDash(args[0]) then Prepend(Flags([args[0]], None, false), Scan(args[1..]))
    else Scan(args[1..])
  }

  /** What the command line resolves to: help first, then the list, then the scan, then the text check. */
  function Resolve(args: seq<string>): Outcome {
    if |args| == 0 || "-h" in args || "--help" in args then Help
    else if "-l" in args || "--list" in args then List
    else match Scan(args)
      case Failure(e) => Fail(e)
      case Success(f) => if Text(f.words) == "" then Fail(NoText) else Generate(Text(f.words), f.palette, f.random)
  }

  lemma {:induction false} PrependNothing(rest: Result<Flags, CliError>)
    ensures Prepend(NoFlags, rest) == rest
  {
    if rest.Success? {
      assert [] + rest.value.words == rest.value.words;
    }
  }

  lemma {:induction false} PrependThen(f: Flags, g: Flags, rest: Result<Flags, CliError>)
    ensures Prepend(f, Prepend(g, rest)) == Prepend(Then(f, g), rest)
  {
    if rest.Success? {
      assert f.words + (g.words + rest.value.words) == (f.words + g.words) + rest.value.words;
    }
  }

  /** One step of the scan at the front of `rest`: what it contributes and how far it moves. */
  lemma {:induction false} ScanStep(rest: seq<string>) returns (g: Flags, k: nat)
    requires rest != []
    requires IsPaletteFlag(rest[0]) ==> |rest| >= 2 && rest[1] != "" && rest[1] in PaletteNames
    ensures 1 <= k <= |rest| && Scan(rest) == Prepend(g, Scan(rest[k..]))
    ensures IsPaletteFlag(rest[0]) ==> k == 2 && g == Flags([], Some(rest[1]), false)
    ensures !IsPaletteFlag(rest[0]) && IsRandomFlag(rest[0]) ==> k == 1 && g == Flags([], None, true)
    ensures !IsPaletteFlag(rest[0]) && !IsRandomFlag(rest[0]) && !StartsWithDash(rest[0]) ==>
      k == 1 && g == Flags([rest[0]], None, false)
    ensures !IsPaletteFlag(rest[0]) && !IsRandomFlag(rest[0]) && StartsWithDash(rest[0]) ==> k == 1 && g == NoFlags
  {
    if IsPaletteFlag(rest[0]) {
      g, k := Flags([], Some(rest[1]), false), 2;
    } else if IsRandomFlag(rest[0]) {
      g, k := Flags([], None, true), 1;
    } else if !StartsWithDash(rest[0]) {
      g, k := Flags([rest[0]], None, false), 1;
    } else {
      g, k := NoFlags, 1;
      PrependNothing(Scan(rest[1..]));
    }
  }

  /** The invariant of the parse loop carried across one step. */
  lemma {:induction false} Advance(args: seq<string>, i: nat, k: nat, f: Flags, g: Flags)
    requires i + k <= |args|
    requires Scan(args) == Prepend(f, Scan(args[i..]))
    requires Scan(args[i..]) == Prepend(g, Scan(args[i..][k..]))
    ensures Scan(args) == Prepend(Then(f, g), Scan(args[i + k..]))
  {
    assert args[i..][k..] == args[i + k..];
    PrependThen(f, g, Scan(args[i + k..]));
  }

  // ---------------------------------------------------------------------------
  // main, lines 37-85: the resolution as the source performs it
  // ---------------------------------------------------------------------------

  /** The argument handling of main: help and list checks, then one left-to-right pass with early exits. */
  method ParseArgs(args: seq<string>) returns (o: Outcome)
    ensures o == Resolve(args)
  {
    if |args| == 0 || "-h" in args || "--help" in args {
      return Help;
    }
    if "-l" in args || "--list" in args {
      return List;
    }
    var text := "";
    var palette: Option<string> := None;
    var useRandom := false;
    ghost var words: seq<string> := [];
    var i := 0;
    assert args[i..] == args;
    PrependNothing(Scan(args));
    while i < |args|
      invariant 0 <= i <= |args|
      invariant text == Text(words)
      invariant Scan(args) == Prepend(Flags(words, palette, useRandom), Scan(args[i..]))
    {
      var arg := args[i];
      ghost var before := Flags(words, palette, useRandom);
      assert args[i..][0] == arg;
      if arg == "-p" || arg == "--palette" {
        if i + 1 == |args| || args[i + 1] == "" {
          assert Scan(args[i..]) == Failure(MissingPaletteName);
          return Fail(MissingPaletteName);
        }
        var nextArg := args[i + 1];
        assert args[i..][1] == nextArg;
        if nextArg !in PaletteNames {
          assert Scan(args[i..]) == Failure(UnknownPalette(nextArg));
          return Fail(UnknownPalette(nextArg));
        }
        var g, k := ScanStep(args[i..]);
        Advance(args, i, k, before, g);
        assert words + [] == words;
        palette := Some(nextArg);
        i := i + 1;  // the value is consumed
      } else if arg == "-r" || arg == "--random" {
        var g, k := ScanStep(args[i..]);
        Advance(args, i, k, before, g);
        assert words + [] == words;
        useRandom := true;
      } else if !StartsWithDash(arg) {
        var g, k := ScanStep(args[i..]);
        Advance(args, i, k, before, g);
        TextSnoc(words, arg);
        text := AppendWord(text, arg);
        words := words + [arg];
      } else {
        var g, k := ScanStep(args[i..]);
        Advance(args, i, k, before, g);
        assert words + [] == words;
      }
      i := i + 1;
    }
    assert words + [] == words;
    if text == "" {
      return Fail(NoText);
    }
    return Generate(text, palette, useRandom);
  }

  // ---------------------------------------------------------------------------
  // The scan characterised argument by argument
  // ---------------------------------------------------------------------------

  /** The palette option at position k has no value, or one that names no palette. */
  predicate Offending(args: seq<string>, k: int) {
    0 <= k < |args| && IsPaletteFlag(args[k])
    && (k + 1 == |args| || args[k + 1] == "" || args[k + 1] !in PaletteNames)
  }

  /** The error a bad palette option at position k reports. */
  function OffenceAt(args: seq<string>, k: int): CliError
    requires Offending(args, k)
  {
    if k + 1 == |args| || args[k + 1] == "" then MissingPaletteName else UnknownPalette(args[k + 1])
  }

  /**
   * The words of the text: the arguments that do not start with a dash and do
   * not directly follow a palette option; `afterPaletteFlag` says whether the
   * argument before `args` was one.
   */
  function FreeWords(args: seq<string>, afterPaletteFlag: bool): seq<string>
    decreases |args|
  {
    if args == [] then []
    else (if !afterPaletteFlag && !StartsWithDash(args[0]) then [args[0]] else [])
         + FreeWords(args[1..], IsPaletteFlag(args[0]))
  }

  /** The argument after the last palette option that has one. */
  function LastPalette(args: seq<string>): Option<string>
    decreases |args|
  {
    if |args| < 2 then None
    else match LastPalette(args[1..])
      case Some(p) => Some(p)
      case None => if IsPaletteFlag(args[0]) then Some(args[1]) else None
  }

  /** Some argument asks for a random palette. */
  predicate RandomRequested(args: seq<string>) {
    "-r" in args || "--random" in args
  }

  lemma {:induction false} OffendingShift(args: seq<string>, d: nat, j: nat)
    requires d <= |args|
    ensures Offending(args[d..], j) <==> Offending(args, j + d)
  {
    if 0 <= j < |args| - d {
      assert args[d..][j] == args[j + d];
      if j + 1 < |args| - d {
        assert args[d..][j + 1] == args[j + d + 1];
      }
    }
  }

  /** A well-formed palette option consumes a palette name, which is never itself an option. */
  lemma {:induction false} ValueIsAName(args: seq<string>)
    requires |args| > 0 && IsPaletteFlag(args[0]) && !Offending(args, 0)
    ensures |args| >= 2 && args[1] in PaletteNames && !StartsWithDash(args[1])
    ensures !IsPaletteFlag(args[1]) && !IsRandomFlag(args[1]) && !Offending(args, 1)
  {
    PaletteNamesAreNotOptions();
  }

  /** The scan stops with the error of the first bad palette option, whatever follows it. */
  lemma {:induction false} ScanFailsAtFirstOffender(args: seq<string>, k: nat)
    requires Offending(args, k)
    requires forall j :: 0 <= j < k ==> !Offending(args, j)
    ensures Scan(args) == Failure(OffenceAt(args, k))
    decreases k
  {
    if k > 0 {
      var d := if IsPaletteFlag(args[0]) then 2 else 1;
      assert !Offending(args, 0);
      if d == 2 {
        ValueIsAName(args);
      }
      assert k >= d;
      forall j: nat | j < k - d ensures !Offending(args[d..], j) {
        OffendingShift(args, d, j);
      }
      OffendingShift(args, d, k - d);
      ScanFailsAtFirstOffender(args[d..], k - d);
      assert OffenceAt(args[d..], k - d) == OffenceAt(args, k) by {
        if k + 1 < |args| {
          assert args[d..][k - d + 1] == args[k + 1];
        }
      }
    }
  }

  /** One argument that is not a palette option: what it adds to the characterisations. */
  lemma {:induction false} StepOne(args: seq<string>)
    requires |args| > 0 && !IsPaletteFlag(args[0])
    ensures FreeWords(args, false) == (if !StartsWithDash(args[0]) then [args[0]] else []) + FreeWords(args[1..], false)
    ensures LastPalette(args) == LastPalette(args[1..])
    ensures RandomRequested(args) == (IsRandomFlag(args[0]) || RandomRequested(args[1..]))
  {
    assert args == [args[0]] + args[1..];
  }

  /** A palette option with its value, a name that is no option: what the pair adds. */
  lemma {:induction false} StepTwo(args: seq<string>)
    requires |args| >= 2 && IsPaletteFlag(args[0]) && !IsPaletteFlag(args[1]) && !StartsWithDash(args[1])
    ensures FreeWords(args, false) == FreeWords(args[2..], false)
    ensures LastPalette(args) == if LastPalette(args[2..]).Some? then LastPalette(args[2..]) else Some(args[1])
    ensures RandomRequested(args) == RandomRequested(args[2..])
  {
    var tail := args[1..];
    assert tail[1..] == args[2..];
    assert FreeWords(tail, true) == FreeWords(args[2..], false);
    assert LastPalette(tail) == LastPalette(args[2..]);
    assert args == [args[0], args[1]] + args[2..];
  }

  /** Without a bad palette option the scan gathers the free words, the last palette and the random request. */
  lemma {:induction false} ScanSucceedsWithoutOffender(args: seq<string>)
    requires forall k :: !Offending(args, k)
    ensures Scan(args) == Success(Flags(FreeWords(args, false), LastPalette(args), RandomRequested(args)))
    decreases |args|
  {
    if args != [] {
      if IsPaletteFlag(args[0]) {
        assert !Offending(args, 0);
        ValueIsAName(args);
        StepTwo(args);
      } else {
        StepOne(args);
      }
      var g, d := ScanStep(args);
      forall j: nat ensures !Offending(args[d..], j) {
        OffendingShift(args, d, j);
      }
      ScanSucceedsWithoutOffender(args[d..]);
      assert [] + FreeWords(args[d..], false) == FreeWords(args[d..], false);
    } else {
      assert FreeWords(args, false) == [];
    }
  }

  /** Position k holds a palette option that has a value, and no later one does. */
  predicate IsLastPaletteFlag(args: seq<string>, k: int) {
    0 <= k < |args| - 1 && IsPaletteFlag(args[k])
    && forall j :: k < j < |args| - 1 ==> !IsPaletteFlag(args[j])
  }

  /** LastPalette is the value of the last palette option that has one, and None when there is none. */
  lemma {:induction false} LastPaletteIsLastOption(args: seq<string>)
    ensures LastPalette(args).None? <==> forall k :: 0 <= k < |args| - 1 ==> !IsPaletteFlag(args[k])
    ensures LastPalette(args).Some? ==>
      exists k :: IsLastPaletteFlag(args, k) && args[k + 1] == LastPalette(args).value
    decreases |args|
  {
    if |args| >= 2 {
      var tail := args[1..];
      LastPaletteIsLastOption(tail);
      if LastPalette(tail).Some? {
        var p := LastPalette(tail).value;
        var k :| IsLastPaletteFlag(tail, k) && tail[k + 1] == p;
        assert tail[k] == args[k + 1] && tail[k + 1] == args[k + 2];
        forall j | k + 1 < j < |args| - 1 ensures !IsPaletteFlag(args[j]) {
          assert tail[j - 1] == args[j];
        }
        assert IsLastPaletteFlag(args, k + 1);
      } else {
        forall k | 1 <= k < |args| - 1 ensures !IsPaletteFlag(args[k]) {
          assert tail[k - 1] == args[k];
        }
        if IsPaletteFlag(args[0]) {
          assert IsLastPaletteFlag(args, 0);
        }
      }
    }
  }

  // ---------------------------------------------------------------------------
  // The precedence of the rules
  // ---------------------------------------------------------------------------

  /** No argument, or any help option anywhere, shows the help and nothing else. */
  lemma {:induction false} HelpComesFirst(args: seq<string>)
    ensures Resolve(args) == Help <==> |args| == 0 || exists i :: 0 <= i < |args| && IsHelpFlag(args[i])
  {
  }

  /** Otherwise any list option lists the palettes, before the scan can fail. */
  lemma {:induction false} ListComesSecond(args: seq<string>)
    requires |args| > 0 && forall i :: 0 <= i < |args| ==> !IsHelpFlag(args[i])
    ensures Resolve(args) == List <==> exists i :: 0 <= i < |args| && IsListFlag(args[i])
  {
    if exists i :: 0 <= i < |args| && IsListFlag(args[i]) {
      var i :| 0 <= i < |args| && IsListFlag(args[i]);
      assert args[i] in args;
    }
  }

  /** Without help or list options, the first bad palette option decides the error. */
  lemma {:induction false} ResolveFailsAtFirstOffender(args: seq<string>, k: nat)
    requires forall i :: 0 <= i < |args| ==> !IsHelpFlag(args[i]) && !IsListFlag(args[i])
    requires Offending(args, k) && forall j :: 0 <= j < k ==> !Offending(args, j)
    ensures Resolve(args) == Fail(OffenceAt(args, k))
  {
    ScanFailsAtFirstOffender(args, k);
  }

  /**
   * Without help, list or bad palette options, the free words form the text
   * (an error when it is empty), the last palette option names the palette,
   * and any random option asks for the random path.
   */
  lemma {:induction false} ResolveWithoutOffender(args: seq<string>)
    requires |args| > 0
    requires forall i :: 0 <= i < |args| ==> !IsHelpFlag(args[i]) && !IsListFlag(args[i])
    requires forall k :: !Offending(args, k)
    ensures var text := Text(FreeWords(args, false));
      Resolve(args) == if text == "" then Fail(NoText) else Generate(text, LastPalette(args), RandomRequested(args))
  {
    ScanSucceedsWithoutOffender(args);
  }

  /** A logo request always has text, and any palette it names is one of PALETTE_NAMES. */
  lemma {:induction false} GenerateIsWellFormed(args: seq<string>)
    requires Resolve(args).Generate?
    ensures Resolve(args).text != ""
    ensures Resolve(args).palette.Some? ==> Resolve(args).palette.value in PaletteNames
  {
    if Scan(args).Success? && Scan(args).value.palette.Some? {
      ScanPaletteIsKnown(args);
    }
  }

  lemma {:induction false} ScanPaletteIsKnown(args: seq<string>)
    requires Scan(args).Success? && Scan(args).value.palette.Some?
    ensures Scan(args).value.palette.value in PaletteNames
    decreases |args|
  {
    if args != [] {
      if IsPaletteFlag(args[0]) {
        if Scan(args[2..]).value.palette.Some? {
          ScanPaletteIsKnown(args[2..]);
        }
      } else if IsRandomFlag(args[0]) || !StartsWithDash(args[0]) {
        ScanPaletteIsKnown(args[1..]);
      } else {
        ScanPaletteIsKnown(args[1..]);
      }
    }
  }

  // ---------------------------------------------------------------------------
  // Outcomes the integration tests of the command line expect
  // ---------------------------------------------------------------------------

  lemma {:induction false} HelpAndListOutcomes()
    ensures Resolve([]) == Help
    ensures Resolve(["--help"]) == Help && Resolve(["-h"]) == Help
    ensures Resolve(["--list"]) == List
    ensures Resolve(["Hello", "--list", "--palette"]) == List
  {
  }

  lemma {:induction false} WordOutcomes()
    ensures Resolve(["Test"]) == Generate("Test", None, false)
    ensures Resolve(["Hello", "World"]) == Generate("Hello World", None, false)
    ensures Resolve(["Random", "--random"]) == Generate("Random", None, true)
  {
    OneWordOutcome("Test");
    TwoWordsOutcome("Hello", "World");
    assert "Hello" + " " + "World" == "Hello World";
    RandomOutcome("Random", "--random");
  }

  /** A plain word is the whole text; no palette is named. */
  lemma {:induction false} OneWordOutcome(w: string)
    requires w != "" && !StartsWithDash(w)
    ensures Resolve([w]) == Generate(w, None, false)
  {
    var args := [w];
    var g, k := ScanStep(args);
    assert args[1..] == [];
    assert [w] + [] == [w];
    assert Scan(args) == Success(Flags([w], None, false));
    assert !IsHelpFlag(w) && !IsListFlag(w);
    assert "-h" !in args && "--help" !in args && "-l" !in args && "--list" !in args;
  }

  /** Two plain words are joined with one space. */
  lemma {:induction false} TwoWordsOutcome(w1: string, w2: string)
    requires w1 != "" && !StartsWithDash(w1) && w2 != "" && !StartsWithDash(w2)
    ensures Resolve([w1, w2]) == Generate(w1 + " " + w2, None, false)
  {
    var args := [w1, w2];
    assert args[1..] == [w2] && args[1..][1..] == [];
    var g2, k2 := ScanStep(args[1..]);
    assert [w2] + [] == [w2];
    var g1, k1 := ScanStep(args);
    assert [w1] + [w2] == args;
    assert Scan(args) == Success(Flags(args, None, false));
    assert DropLeadingEmpty(args) == args;
    assert Join(args) == w1 + " " + Join([w2]);
    assert !IsHelpFlag(w1) && !IsListFlag(w1) && !IsHelpFlag(w2) && !IsListFlag(w2);
    assert "-h" !in args && "--help" !in args && "-l" !in args && "--list" !in args;
  }

  /** A word followed by a random option asks for the random path. */
  lemma {:induction false} RandomOutcome(w: string, flag: string)
    requires w != "" && !StartsWithDash(w) && IsRandomFlag(flag)
    ensures Resolve([w, flag]) == Generate(w, None, true)
  {
    var args := [w, flag];
    assert args[1..] == [flag] && args[1..][1..] == [];
    var g2, k2 := ScanStep(args[1..]);
    var none: seq<string> := [];
    assert none + none == none;
    var g1, k1 := ScanStep(args);
    assert [w] + [] == [w];
    assert Scan(args) == Success(Flags([w], None, true));
    assert !IsHelpFlag(w) && !IsListFlag(w);
    assert "-h" !in args && "--help" !in args && "-l" !in args && "--list" !in args;
  }

  lemma {:induction false} PaletteOutcomes()
    ensures Resolve(["Hello", "--palette", "sunset"]) == Generate("Hello", Some("sunset"), false)
    ensures Resolve(["World", "-p", "ocean"]) == Generate("World", Some("ocean"), false)
  {
    PaletteValueOutcome("Hello", "--palette", "sunset");
    PaletteValueOutcome("World", "-p", "ocean");
  }

  /** A word followed by a palette option naming a known palette. */
  lemma {:induction false} PaletteValueOutcome(w: string, flag: string, name: string)
    requires w != "" && !StartsWithDash(w) && !IsHelpFlag(w) && !IsListFlag(w)
    requires IsPaletteFlag(flag) && name in PaletteNames
    ensures Resolve([w, flag, name]) == Generate(w, Some(name), false)
  {
    PaletteNamesAreNotOptions();
    var args := [w, flag, name];
    var pair := [flag, name];
    assert args[1..] == pair && pair[2..] == [];
    var g, k := ScanStep(pair);
    var none: seq<string> := [];
    assert none + none == none;
    assert Scan(pair) == Success(Flags([], Some(name), false));
    var g', k' := ScanStep(args);
    assert Scan(args) == Success(Flags([w] + [], Some(name), false));
    assert [w] + [] == [w];
    assert !IsHelpFlag(name) && !IsListFlag(name);
    assert "-h" !in args && "--help" !in args && "-l" !in args && "--list" !in args;
  }

  lemma {:induction false} ErrorOutcomes()
    ensures Resolve(["Test", "--palette"]) == Fail(MissingPaletteName)
    ensures Resolve(["Test", "--palette", "nonexistent"]) == Fail(UnknownPalette("nonexistent"))
    ensures Resolve(["--palette", "sunset"]) == Fail(NoText)
  {
    MissingValueOutcome("Test", "--palette");
    assert "nonexistent" !in PaletteNames by { PaletteNamesCoverTables(); }
    UnknownValueOutcome("Test", "--palette", "nonexistent");
    assert PaletteNames[0] == "sunset";
    NoTextOutcome("--palette", "sunset");
  }

  /** Any argument that is no help, list or palette option, followed by a palette option with nothing after it. */
  lemma {:induction false} MissingValueOutcome(w: string, flag: string)
    requires !IsHelpFlag(w) && !IsListFlag(w) && !IsPaletteFlag(w) && IsPaletteFlag(flag)
    ensures Resolve([w, flag]) == Fail(MissingPaletteName)
  {
    ResolveFailsAtFirstOffender([w, flag], 1);
  }

  /** Any argument that is no help, list or palette option, then a palette option followed by a non-empty name outside PALETTE_NAMES. */
  lemma {:induction false} UnknownValueOutcome(w: string, flag: string, name: string)
    requires !IsHelpFlag(w) && !IsListFlag(w) && !IsPaletteFlag(w) && IsPaletteFlag(flag)
    requires name != "" && !IsHelpFlag(name) && !IsListFlag(name) && name !in PaletteNames
    ensures Resolve([w, flag, name]) == Fail(UnknownPalette(name))
  {
    ResolveFailsAtFirstOffender([w, flag, name], 1);
  }

  /** A palette option with a known name and no word leaves no text. */
  lemma {:induction false} NoTextOutcome(flag: string, name: string)
    requires IsPaletteFlag(flag) && name in PaletteNames
    ensures Resolve([flag, name]) == Fail(NoText)
  {
    PaletteNamesAreNotOptions();
    var args := [flag, name];
    assert args[2..] == [];
    var g, k := ScanStep(args);
    var none: seq<string> := [];
    assert none + none == none;
    assert Scan(args) == Success(Flags([], Some(name), false));
    assert Text([]) == "";
    assert "-h" !in args && "--help" !in args && "-l" !in args && "--list" !in args;
  }

  // ---------------------------------------------------------------------------
  // main, lines 87-100: handing the request to the builder
  // ---------------------------------------------------------------------------

  /** What the process shows before it exits. */
  datatype Exit =
    | ShowHelp
    | ShowPalettes
    | Error(message: string, withHelp: bool)
    | Print(logo: Coloured)
  {
    /** The exit status: 1 after an error, 0 otherwise. */
    function Code(): int {
      if Error? then 1 else 0
    }
  }

  /**
   * main: resolve the arguments, then draw the logo with the builder, either
   * with the palette at `randomIndex` or with the named or default one.
   */
  method Execute(args: seq<string>, logo: Logo, randomIndex: nat) returns (exit: Exit)
    requires randomIndex < |PaletteNames|
    modifies logo
    ensures match Resolve(args)
      case Help => exit == ShowHelp && logo.text == old(logo.text)
      case List => exit == ShowPalettes
      case Fail(e) => exit == Error(e.Message(), e == NoText) && logo.text == old(logo.text)
      case Generate(text, palette, random) =>
        var name := if random then PaletteNames[randomIndex] else palette.GetOr(DefaultPalette);
        if IsBlank(text) then exit == Error(EmptyText.Message(), false) && logo.text == old(logo.text)
        else (logo.text == logo.render(text, DefaultFont, DefaultTextWidth)
          && exit == if logo.text == "" then Error(NoTextSet.Message(), false) else Print(Coloured(GradientFor(name), logo.text)))
  {
    var outcome := ParseArgs(args);
    match outcome
    case Help =>
      exit := ShowHelp;
    case List =>
      exit := ShowPalettes;
    case Fail(e) =>
      exit := Error(e.Message(), e == NoText);
    case Generate(text, palette, random) =>
      var result: Result<Coloured, LogoError>;
      if random {
        result := logo.CreateRandomLogo(text, randomIndex);
      } else {
        result := logo.CreateLogo(text, palette.GetOr(DefaultPalette));
      }
      match result
      case Success(c) =>
        exit := Print(c);
      case Failure(e) =>
        exit := Error(e.Message(), false);
  }
}
