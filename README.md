# cli-ascii-logo, modelled in Dafny

cli-ascii-logo draws a word as large ASCII-art letters (figlet) and colours the result with a
gradient (gradient-string). This project models its two pieces of logic:

- **The command line** (`cli.ts`, `main`). It resolves the argument vector into one of these outcomes:
  help, the palette list, one of three errors, or a logo request
  (text, optional palette, random flag). The request is then handed to the builder.
- **The logo builder** (`Logo.ts`): the palette tables `PRESET_GRADIENTS`, `CUSTOM_GRADIENTS` and
  `PALETTE_NAMES`, and the `Logo` class. The class has one mutable field, `text`, and these steps:
  - the `setText` guard;
  - the `addFontStyle` update;
  - the `addGradient` lookup: preset table, then custom table, then the "sunset" colours;
  - `build`, `createLogo` and `createRandomLogo`.

Files:

- `Wrappers.dfy`: `Option` and `Result`.
- `Palettes.dfy`: the tables, the palette lookup, and the lookup as JavaScript's `in` actually performs it.
- `LogoBuilder.dfy`: `String.prototype.trim` and the class `Logo`.
- `Cli.dfy`: the argument resolution. Its parts:
  - `Scan`, a recursive reference definition of the parse loop;
  - `ParseArgs`, the loop itself, proved equal to `Resolve`;
  - characterisations of `Scan` one argument at a time;
  - the precedence lemmas;
  - the outcomes the integration tests expect;
  - `Execute`, which hands the request to the builder.

The figlet renderer is an opaque function value (`Logo.render`) fixed when the builder is created.
A coloured logo is represented by the pair (gradient chosen, text coloured). `Math.random()` is
replaced by an index parameter `randomIndex < |PaletteNames|`. Printing and `process.exit` are
represented by the returned `Outcome` and `Exit` values.

`Logo.test.ts:181-247` and `test-slide.ts:6-14` call a `display` method with fade-in, slide-in and
typing animations. `Logo.ts` defines no such method, so it is not modelled.

## Model

| member | source | states |
|---|---|---|
| Cli.ParseArgs | cli.ts:37-85 | The left-to-right pass with its early exits equals the reference resolution `Resolve`: help, then list, then the first palette error, then the empty-text error, else a logo request |
| Cli.ScanStep | cli.ts:55-78 | One loop iteration: a palette option with a good value contributes that palette and moves two places, a random option sets the flag, a non-dash argument adds a word, any other option moves on with nothing |
| Cli.TextSnoc | cli.ts:76 | Adding a word by `text += (text ? " " : "") + arg` is the same as joining, with single spaces, all words from the first non-empty one |
| Cli.TextEmptyIffWordsEmpty | cli.ts:74-81 | The accumulated text is empty exactly when every collected word is empty |
| Cli.DropLeadingEmpty | cli.ts:76 | The words kept start with a non-empty word (or none are kept), and everything dropped in front is empty |
| Cli.DropLeadingEmptyIsSuffix | cli.ts:76 | The words kept are exactly a suffix of the collected words, in order and unaltered |
| Cli.ScanFailsAtFirstOffender | cli.ts:55-69 | When position k holds the first palette option with no value, an empty value or an unknown name, the scan reports that option's error, whatever comes later |
| Cli.ScanSucceedsWithoutOffender | cli.ts:55-78 | Without a bad palette option the scan collects exactly the non-dash arguments that are not palette values, the value of the last palette option, and whether any random option occurs |
| Cli.LastPaletteIsLastOption | cli.ts:70-71 | The palette chosen is absent exactly when no palette option has a following argument; otherwise it is the argument after the last such option |
| Cli.ValueIsAName | cli.ts:64-71 | A consumed palette value is a palette name, so it is never itself an option, a word or a second palette option |
| Cli.HelpComesFirst | cli.ts:39-42 | The outcome is help exactly when there are no arguments or some argument is `-h` or `--help` |
| Cli.ListComesSecond | cli.ts:45-48 | Without help options, the outcome is the list exactly when some argument is `-l` or `--list`, so a dangling `--palette` elsewhere causes no error |
| Cli.ResolveFailsAtFirstOffender | cli.ts:39-69 | Without help or list options, the first bad palette option decides the error |
| Cli.ResolveWithoutOffender | cli.ts:39-85 | Without help, list or bad palette options: the error "No text provided" when the collected words give no text, otherwise a request with that text, the last palette and the random flag |
| Cli.GenerateIsWellFormed | cli.ts:64-85 | A logo request always has non-empty text, and any palette it names is one of PALETTE_NAMES |
| Cli.ScanPaletteIsKnown | cli.ts:64-70 | The palette the scan keeps is always one of PALETTE_NAMES |
| Cli.HelpAndListOutcomes | cli.ts:39-48 | No arguments, `--help` and `-h` give help and `--list` gives the list, as cli.test.ts:22-98 expects; by the list rule's precedence, `Hello --list --palette` also gives the list |
| Cli.WordOutcomes | cli.test.ts:100-169 | `Test`, `Hello World` and `Random --random` give logo requests with texts "Test", "Hello World" and "Random", the last one on the random path |
| Cli.OneWordOutcome | cli.ts:74-77 | A single plain word is the whole text of a request with no palette |
| Cli.TwoWordsOutcome | cli.ts:74-77 | Two plain words give a request whose text is the two words with one space between them |
| Cli.RandomOutcome | cli.ts:72-73 | A word followed by a random option gives a request on the random path |
| Cli.PaletteOutcomes | cli.test.ts:115-141 | `Hello --palette sunset` and `World -p ocean` give requests with those palettes |
| Cli.PaletteValueOutcome | cli.ts:58-71 | A word followed by a palette option and a known name gives a request with that palette, and the name is not part of the text |
| Cli.ErrorOutcomes | cli.test.ts:171-232 | `Test --palette`, `Test --palette nonexistent` and `--palette sunset` give the missing-name, unknown-palette and no-text errors |
| Cli.MissingValueOutcome | cli.ts:58-63 | Any argument that is no help, list or palette option, then a palette option at the end, gives "--palette requires a palette name" |
| Cli.UnknownValueOutcome | cli.ts:64-69 | Any argument that is no help, list or palette option, then a palette option followed by a non-empty name outside PALETTE_NAMES (even one starting with a dash), gives the unknown-palette error for that name |
| Cli.NoTextOutcome | cli.ts:70-85 | A palette option with its value and no word gives "No text provided" |
| Cli.Execute | cli.ts:37-100 | Help and list exit 0, and help leaves the builder's text as it was; the scan and text errors print their message (the no-text error also prints the help). A request runs createRandomLogo with the index given, or createLogo with the named or default palette. A blank text becomes "Text cannot be empty"; otherwise the rendered text is coloured with the chosen palette's gradient |
| LogoBuilder.TrimStart | Logo.ts:85 | The leading part of `trim`: what it removes is whitespace and what it keeps starts with a non-whitespace character |
| LogoBuilder.TrimEnd | Logo.ts:85 | The trailing part of `trim`: what it removes is whitespace and what it keeps ends with a non-whitespace character |
| LogoBuilder.IsBlank | Logo.ts:84-87 | The guard of setText (an empty text, or one that trims to nothing) holds exactly when every character of the text is JavaScript whitespace (the empty text included) |
| LogoBuilder.Logo.GetText | Logo.ts:92-94 | getText returns the text the builder holds, and reads the builder without changing it |
| LogoBuilder.Logo.constructor | Logo.ts:68-69 | A new builder holds the empty text |
| LogoBuilder.Logo.SetText | Logo.ts:84-94 | Blank or whitespace-only text gives "Text cannot be empty" and leaves the text unchanged; otherwise the text becomes exactly the argument, getText returns it, and the same builder is returned |
| LogoBuilder.Logo.AddFontStyle | Logo.ts:96-108 | The text becomes its rendering in the given font (default "ANSI Shadow") and width (default 100); the same builder is returned |
| LogoBuilder.Logo.AddGradient | Logo.ts:116-132 | Fails with "No text set. Call setText() or addFontStyle() first." exactly when the text is empty; otherwise it colours the current text with the gradient the corrected palette lookup `Palettes.ResolvePalette` chooses (see Findings). It reads the builder and does not change it |
| LogoBuilder.Logo.CorrectedLookupOnInheritedName | Logo.ts:116-131 | On a non-empty text, addGradient("toString") succeeds with the "sunset" stops, where the lookup as written throws |
| LogoBuilder.Logo.AddRandomGradient | Logo.ts:110-114 | addGradient with the palette name at the random index, which always resolves to a table entry |
| LogoBuilder.Logo.Build | Logo.ts:134-140 | The same as addGradient, with "sunset" as the default palette; it does not change the text |
| LogoBuilder.Logo.CreateLogo | Logo.ts:71-76 | Blank text fails before any styling and leaves the builder unchanged; otherwise the text becomes the default rendering of the argument and the result is addGradient of the palette (default "sunset") |
| LogoBuilder.Logo.CreateRandomLogo | Logo.ts:78-82 | As createLogo, with the palette name at the random index |
| Palettes.ResolvePalette | Logo.ts:121-129 | The corrected lookup: a preset exactly for preset keys, a custom palette exactly for custom keys that are not preset keys, and the default exactly for names outside PALETTE_NAMES; a found entry carries the name looked up |
| Palettes.ResolvePaletteAsWritten | Logo.ts:123-131 | The lookup with JavaScript's `in`: it throws exactly on the Object.prototype names that are not preset keys, and agrees with the corrected lookup on every other name |
| Palettes.IndexOf | Logo.ts:24-56 | The position of the first entry with the given key in a table |
| Palettes.PaletteNamesCoverTables | Logo.ts:58-61 | PALETTE_NAMES holds 35 names: the 22 custom keys in order, then the 13 preset keys, and a name is in it exactly when it is a key of either table |
| Palettes.PaletteNamesDistinct | Logo.ts:8-61 | No name appears twice in PALETTE_NAMES, so no preset shadows a custom palette |
| Palettes.PaletteNamesAreNotOptions | Logo.ts:58-61 | No palette name is empty or starts with a dash |
| Palettes.CustomPalettesKeepTheirColours | Logo.ts:24-126 | Every custom key resolves to the custom table and gets its own colour stops |
| Palettes.PresetsResolveFirst | Logo.ts:123-124 | A preset key resolves to the library preset of the same name |
| Palettes.ResolvedExactlyForPaletteNames | Logo.ts:58-129 | The lookup finds a table entry exactly for the names in PALETTE_NAMES |
| Palettes.UnknownNamesFallBackToSunset | Logo.ts:121-129 | Any other name gets the "sunset" stops #ff9966, #ff5e62, #ffa34e |
| Palettes.AsWrittenThrowsOnInheritedName | Logo.ts:123-131 | The lookup as written throws on "toString", a name outside PALETTE_NAMES that the intended lookup sends to "sunset" |
| Palettes.AsWrittenAgreesOffPrototype | Logo.ts:123-131 | On any name that is not an Object.prototype member, and on every palette name, the lookup as written equals the intended one |

## Left out

- figlet rendering (Logo.ts:100-106) is a foreign library. It is the opaque function `Logo.render`; the horizontal/vertical layout and `whitespaceBreak` options are fixed and not arguments of it.
- gradient-string colouring (Logo.ts:9-21, 126-131) is a foreign library emitting ANSI escapes. A result is the gradient chosen plus the text it colours; preset gradients are named, not given colours.
- `Math.random` (Logo.ts:79, 111) is floating point and nondeterministic. It becomes the index parameter `randomIndex`, within the length of PALETTE_NAMES.
- `showHelp` and `listPalettes` (cli.ts:7-35) are console output. Help and list are outcomes, so the loop in listPalettes is not modelled. That loop calls createLogo on the shared builder once per palette name. It leaves the builder holding the rendering of the last name. With an arbitrary renderer, one of those calls could also throw uncaught, so the list outcome's exit status 0 assumes the renderer never returns an empty text for a palette name.
- `console.log`, `console.error` and `process.exit` (cli.ts:41, 47, 61-62, 65-68, 82-84, 96-99) are I/O. They are the returned `Outcome` and `Exit` values, with `Exit.Code` the exit status.
- `process.argv.slice(2)` (cli.ts:5) is the `args` parameter. The default-exported builder instance (Logo.ts:150) is the `logo` parameter of `Cli.Execute`.
- LogoBuilder.IsBlank: `trim` is modelled on Unicode code points, not UTF-16 code units; the JavaScript whitespace set is the same.
- Cli.Execute: an exception thrown by figlet itself (an unknown font) is not modelled; the renderer is total.
- The animation renderer (`display`, fade-in, slide-in, typing) is not in the source files; Logo.test.ts:181-247 and test-slide.ts:6-14 call a method that Logo.ts does not define.
- index.js, index.d.ts and example.ts re-export or demonstrate the builder and hold no logic.

## Findings

| source | as written | input that shows it | evidently intended | confidence | as-written member | corrected member |
|---|---|---|---|---|---|---|
| Logo.ts:123-131 | `palette in PRESET_GRADIENTS` is also true for names inherited from Object.prototype, so `gradientFunc` becomes a built-in method and `gradientFunc.multiline(...)` throws a TypeError | `logo.addGradient("toString")` after `setText("Hi")` | every name outside the tables falls back to the "sunset" colours, as the final `else` says | not executed | Palettes.AsWrittenThrowsOnInheritedName | Palettes.UnknownNamesFallBackToSunset |

The command line cannot reach this case: it accepts only names in PALETTE_NAMES (cli.ts:64), and
`Palettes.AsWrittenAgreesOffPrototype` shows both lookups agree on those. The builder's own
callers can reach it. The rest of the model uses the corrected lookup `Palettes.ResolvePalette`.
