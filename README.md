# LogStu: formatting and level gating, in Dafny

LogStu is a small Swift logging library. A `Logger` drops any call whose severity is below
its `minLevel`, and drops every call while it is disabled. Otherwise it renders the call at
once through its `Formatter` and hands the text to a serial queue that prints it.

A `Formatter` is a template with `%@` placeholders plus an ordered list of `Component`s:
- each component yields one string;
- the strings replace the placeholders in order;
- a log line gets its terminator appended, but a benchmark line does not.

A `Theme` gives each `Level` a `Style`, which is an optional colour and an emoji prefix.
The styled level name is wrapped in a colour escape when the style has a colour. The
library ships eight preset themes and three preset formatters.

This project models that pipeline and proves its properties:

| file | module | what it holds |
|---|---|---|
| `Wrappers.dfy` | `Wrappers` | `Option` |
| `Text.dfy` | `Text` | the standard-library pieces the source relies on: `joined(separator:)`, `String(Int)` and its read-back, `uppercased()` |
| `LoggingLevel.dfy` | `Levels` | `Level`, its raw values, the order used for gating, and `description` |
| `StringExtension.dfy` | `StringExtension` | `withColor`, `lastPathComponent` and `stringByDeletingPathExtension` |
| `Theme.dfy` | `Theming` | `Style`, `Theme`, `style(for:)`, `description`, both initialisers, and `formatHex` with its hex scanner |
| `Themes.dfy` | `Themes` | the eight preset themes |
| `Formatter.dfy` | `Formatting` | the `%@` substitution, the component slots, and the log and benchmark renderers |
| `Formatters.dfy` | `Formatters` | the `default`, `minimal` and `detailed` layouts and the lines they produce |
| `Logger.dfy` | `Logging` | the classes `Formatter` and `Logger`, with their mutable fields and the output queue |

Two behaviours of the code worth noting:
- `Formatter.init` (Source/Formatting/Formatter.swift:63-66) does not check the component count against the template's placeholders. With a mismatch, `String(format:)` simply misbehaves. The model therefore makes a matching count (`Formatting.WellFormed`) a precondition of rendering.
- The back-reference is `weak var logger: Logger!` (Source/Formatting/Formatter.swift:40). It is dereferenced only when a `.level` component is rendered (Source/Formatting/Formatter.swift:209 and :229), so a nil logger traps there and nowhere else. The model asks for a logger only for layouts that contain `.level` (`Logging.Logger.CanRender`). The plain level name appears only when the logger's theme has no style for the level.

Two more points about the model:
- The theme a formatter renders with is the one of the logger its back-reference designates. Every logger built with the default arguments shares the single `Formatters.default` instance. The last such logger therefore styles the lines of all of them (`Logging.SharedFormatterUsesLastTheme`).
- Integers are unbounded in Dafny. `formatHex` is modelled on `UInt32` values: the scanner saturates at `UInt32.max`. Its masks and shifts are written as division and remainder, which agree with them on non-negative values.

## Model

| member | source | states |
|---|---|---|
| Levels.RawValue | Source/LoggingLevel.swift:8-10 | each level's raw value is its position in the declaration `trace, debug, info, warning, error` |
| Levels.RawValuesFollowDeclaration | Source/LoggingLevel.swift:8-10 | the i-th declared case has raw value i |
| Levels.EveryLevelDeclared | Source/LoggingLevel.swift:10 | the five cases are all the levels there are |
| Levels.EqualIsIdentity | Source/LoggingLevel.swift:20-22 | `==` on raw values holds exactly for the same level |
| Levels.LessIsDeclarationOrder | Source/LoggingLevel.swift:24-26 | `<` on raw values holds exactly when the first case is declared before the second |
| Levels.AllLevelsAscending | Source/LoggingLevel.swift:24-26 | trace < debug < info < warning < error |
| Levels.LessIsStrictTotalOrder | Source/LoggingLevel.swift:18-26 | `<` is irreflexive, transitive, asymmetric and total on distinct levels |
| Levels.AtLeastIsRawOrder | Source/LoggingLevel.swift:18-26 | `l >= m`, the comparison the logger gates on, holds iff raw(l) >= raw(m), i.e. l == m or m < l |
| Levels.NameValues | Source/LoggingLevel.swift:12-14 | `description` is "TRACE", "DEBUG", "INFO", "WARNING", "ERROR" |
| Levels.NameInjective | Source/LoggingLevel.swift:12-14 | distinct levels have distinct descriptions |
| Text.Upper | Source/LoggingLevel.swift:13 | `uppercased()` keeps the length and upper-cases each letter in place |
| Text.NatToDecimal | Source/Formatting/Theme.swift:116 | `String(n)` is a non-empty run of digits with no leading zero |
| Text.DecimalRoundTrip | Source/Formatting/Theme.swift:116 | reading back `String(n)` gives n |
| Text.ByteDecimalWidth | Source/Formatting/Theme.swift:116 | a colour channel prints with one to three digits |
| Text.IntToString | Source/Formatting/Formatter.swift:93-95 | `String(line)` is a non-empty numeral, minus sign only in front |
| Text.IntRoundTrip | Source/Formatting/Formatter.swift:93-95 | reading back `String(i)` gives i, negatives included |
| StringExtension.WithColor | Source/Extensions/String+Extension.swift:26-28 | the coloured text is 8 characters longer than the text plus the colour |
| StringExtension.UncolorWithColor | Source/Extensions/String+Extension.swift:26-28 | stripping the escape frame from `s.withColor(c)` returns s, for any s including "" |
| StringExtension.WithColorUncolor | Source/Extensions/String+Extension.swift:26-28 | a text that strips cleanly is exactly the escape frame around what it strips to |
| StringExtension.WithColorInjective | Source/Extensions/String+Extension.swift:26-28 | two texts coloured alike are equal only if the texts are equal |
| StringExtension.LastPathComponent | Source/Extensions/String+Extension.swift:12-15 | non-empty for a non-empty path; no '/' unless it is the root "/" |
| StringExtension.LastPathComponentIsWholeComponent | Source/Extensions/String+Extension.swift:12-15 | unless it is the root, the last component is a suffix of the path without its trailing separators, and a '/' or the start of the path comes right before it |
| StringExtension.DeletingPathExtension | Source/Extensions/String+Extension.swift:17-20 | a prefix of the path, non-empty for a non-empty path |
| StringExtension.DeletingPathExtensionRemovesExtension | Source/Extensions/String+Extension.swift:17-20 | whatever is removed from the path without its trailing separators is one extension: a '.' then text with no '/' and no '.', and that '.' never starts the last component, so a dot-file such as "d/.b" keeps its name |
| StringExtension.DeletingPathExtensionRemovesPresentExtension | Source/Extensions/String+Extension.swift:17-20 | conversely, a '.' in the last component that is not its first character always makes the result shorter than the path without its trailing separators |
| StringExtension.LastPathComponentOfFile | Source/Extensions/String+Extension.swift:12-15 | the last component of "dir/name" is "name" |
| StringExtension.DeletingPathExtensionOfName | Source/Extensions/String+Extension.swift:17-20 | deleting the extension of "name.ext" gives "name" |
| Theming.NewStyle | Source/Formatting/Theme.swift:26-34 | the colour is stored unchanged (nil included); emoji e is stored as e + " ", no emoji as "" |
| Theming.StyleFor | Source/Formatting/Theme.swift:45-47 | `style(for:)` is present exactly for the levels the theme has, with that level's style |
| Theming.StyleForComplete | Source/Formatting/Theme.swift:45-47 | on a theme with all five levels, `style(for:)` never returns nil |
| Theming.FromStyles | Source/Formatting/Theme.swift:91-99 | the five-style initialiser covers all levels and returns for each level the style passed for it |
| Theming.FromHexColors | Source/Formatting/Theme.swift:72-81 | the deprecated initialiser covers all levels, each with no emoji and the `formatHex` form of its colour |
| Theming.Styled | Source/Formatting/Theme.swift:52-56 | emoji + text, and the same wrapped in the colour's escape frame exactly when the style has a colour |
| Theming.SortedKeys | Source/Formatting/Theme.swift:51 | `keys.sorted()` holds exactly the keys, in strictly ascending level order |
| Theming.FilterKeepsAll | Source/Formatting/Theme.swift:51 | sorting the keys of a theme that covers every level loses none |
| Theming.SortedKeysOfComplete | Source/Formatting/Theme.swift:51 | the sorted keys of a complete theme are trace, debug, info, warning, error |
| Theming.DescriptionOfComplete | Source/Formatting/Theme.swift:50-60 | `description` is the five styled level names, trace to error, joined by single spaces |
| Theming.SkipHashes | Source/Formatting/Theme.swift:109 | the scanner skips every leading '#' and nothing else |
| Theming.HexRun | Source/Formatting/Theme.swift:110 | the scanner reads the longest run of hex digits |
| Theming.ScanHexInt32 | Source/Formatting/Theme.swift:106-110 | the scanned value fits in a `UInt32`; its value for "#RRGGBB" input is stated by `ScanHexOfColorText` |
| Theming.Channels | Source/Formatting/Theme.swift:112-114 | red, green and blue are bytes, and together they are the low 24 bits of the value |
| Theming.FormatHex | Source/Formatting/Theme.swift:105-117 | the result is three decimals and two commas: 5 to 11 characters; its value for "#RRGGBB" input is stated by `FormatHexOfColorText` |
| Theming.ScanHexOfHexColor | Source/Formatting/Theme.swift:106-110 | scanning "#RRGGBB" yields RR·65536 + GG·256 + BB |
| Theming.ChannelsOfBytes | Source/Formatting/Theme.swift:112-114 | the masks and shifts take that value back to (RR, GG, BB) |
| Theming.FormatHexOfHexColor | Source/Formatting/Theme.swift:105-117 | `formatHex("#RRGGBB")` is the three channels in decimal, joined by "," |
| Theming.ScanHexOfColorText | Source/Formatting/Theme.swift:106-110 | the scanner reads any "#RRGGBB", upper- or lower-case digits, as RR·65536 + GG·256 + BB |
| Theming.FormatHexOfColorText | Source/Formatting/Theme.swift:105-117 | `formatHex` of any "#RRGGBB", upper- or lower-case, is its three digit pairs in decimal, joined by "," |
| Themes.PresetsComplete | Source/Formatting/Themes.swift:10-56 | every preset has a style for all five levels |
| Themes.ColorPresetStyles | Source/Formatting/Themes.swift:10-50 | in the seven colour presets every level has an empty emoji and a raw "#RRGGBB" colour, not passed through `formatHex` |
| Themes.DefaultStyles | Source/Formatting/Themes.swift:10-14 | the same for `default` |
| Themes.DuskStyles | Source/Formatting/Themes.swift:16-20 | the same for `dusk` |
| Themes.MidnightStyles | Source/Formatting/Themes.swift:22-26 | the same for `midnight` |
| Themes.TomorrowStyles | Source/Formatting/Themes.swift:28-32 | the same for `tomorrow` |
| Themes.TomorrowNightStyles | Source/Formatting/Themes.swift:34-38 | the same for `tomorrowNight` |
| Themes.TomorrowNightEightiesStyles | Source/Formatting/Themes.swift:40-44 | the same for `tomorrowNightEighties` |
| Themes.TomorrowNightBrightStyles | Source/Formatting/Themes.swift:46-50 | the same for `tomorrowNightBright` |
| Themes.EmojiHeartsStyles | Source/Formatting/Themes.swift:52-56 | `emojiHearts` has no colour on any level, and each emoji is a non-blank prefix followed by one space |
| Themes.DefaultColors | Source/Formatting/Themes.swift:11-14 | in `default`, error is "#FF0000" and debug is "#0000FF" |
| Themes.DefaultErrorDecodesToRed | Source/Formatting/Themes.swift:14 | `formatHex` of the `default` error colour is "255,0,0" |
| Formatting.Segments | Source/Formatting/Formatter.swift:107 | a template has one more literal piece than placeholders, and no piece holds a '%' |
| Formatting.Substitute | Source/Formatting/Formatter.swift:107 | `String(format:arguments:)` restricted to `%@` templates whose placeholder count matches the arguments; what it produces is stated by `SubstituteInterleaves` and `SubstituteIdentity` |
| Formatting.SubstituteInterleaves | Source/Formatting/Formatter.swift:107 | `String(format:arguments:)` on a `%@` template puts the i-th argument at the i-th placeholder, between the literal pieces, in order |
| Formatting.SubstituteIdentity | Source/Formatting/Formatter.swift:107 | substituting "%@" for every placeholder gives the template back |
| Formatting.TemplateSegments | Source/Formatting/Formatter.swift:107 | a template built from literal pieces splits back into exactly those pieces |
| Formatting.SegmentsTemplate | Source/Formatting/Formatter.swift:107 | every valid template is rebuilt from its pieces |
| Formatting.FileSlot | Source/Formatting/Formatter.swift:175-187 | both flags set: the path unchanged; `fullPath` false: no '/' (unless root); `fileExtension` false: a prefix of the path or of its last component |
| Formatting.FileSlotOfSourcePath | Source/Formatting/Formatter.swift:175-187 | for "dir/name.ext" the four flag settings give the path, "name.ext", "name" and "dir/name" |
| Formatting.LocationSlot | Source/Formatting/Formatter.swift:195-200 | `format(file:line:)`: the file's last component, ':' and the line; stated by `LocationRoundTrip` |
| Formatting.LocationRoundTrip | Source/Formatting/Formatter.swift:195-200 | the location starts with the file's last component and a ':', and the numeral after the last ':' reads back as the line |
| Formatting.LevelSlot | Source/Formatting/Formatter.swift:206-220 | `format(level:)`: the styled level name, or the plain name when the theme has no style for the level; stated by `LevelSlotOfStyle` and `DescriptionShowsLevelSlots` |
| Formatting.LevelSlotOfStyle | Source/Formatting/Formatter.swift:206-220 | under a style with colour c and emoji e, the level slot is "e NAME" wrapped with `withColor(c)` |
| Formatting.DescriptionShowsLevelSlots | Source/Formatting/Formatter.swift:206-220 | a complete theme's description is the five level slots, trace to error, joined by spaces |
| Formatting.MeasureSlot | Source/Formatting/Formatter.swift:226-242 | the measure label is never empty and has no trailing space when there is no description |
| Formatting.MeasureSlotUsesDebugStyle | Source/Formatting/Formatter.swift:226-242 | only the debug style matters; "MEASURE" is styled with it; a description follows after one space |
| Formatting.Arguments | Source/Formatting/Formatter.swift:84-105 | `components.map`: one string per component |
| Formatting.FormatLog | Source/Formatting/Formatter.swift:81-108 | the log renderer; its line is stated by `FormatLogPositional`, `LogAndBenchmarkAgreeElsewhere` and `ThemeUnusedWithoutLevel` |
| Formatting.FormatLogPositional | Source/Formatting/Formatter.swift:81-108 | a log line is the template pieces with the component strings in order, then the terminator; the level slot is the styled level and the message slot the items joined by the separator |
| Formatting.FormatBenchmark | Source/Formatting/Formatter.swift:122-149 | the benchmark renderer; its line is stated by `FormatBenchmarkPositional` and `LogAndBenchmarkAgreeElsewhere` |
| Formatting.FormatBenchmarkPositional | Source/Formatting/Formatter.swift:122-149 | a benchmark line is substituted the same way with no terminator; its level slot is the measure label and its message slot the timing text |
| Formatting.LogAndBenchmarkAgreeElsewhere | Source/Formatting/Formatter.swift:84-146 | the renderers agree on every component except `.level` and `.message` (`.function`, `.line`, `.column` do not depend on level or items); without those two, a log line is the benchmark line plus the terminator |
| Formatting.ThemeUnusedWithoutLevel | Source/Formatting/Formatter.swift:84-146 | only the `.level` component reads the logger's theme: without one, both renderers give the same line under every theme |
| Formatters.DefaultWellFormed | Source/Formatting/Formatters.swift:10-15 | `default` has 4 placeholders and 4 components |
| Formatters.MinimalWellFormed | Source/Formatting/Formatters.swift:16-20 | `minimal` has 3 placeholders and 3 components |
| Formatters.DetailedWellFormed | Source/Formatting/Formatters.swift:21-28 | `detailed` has 6 placeholders and 6 components |
| Formatters.PresetsEndWithLevelAndMessage | Source/Formatting/Formatters.swift:10-28 | in every preset the last two components are `.level` then `.message` |
| Formatters.PresetDates | Source/Formatting/Formatters.swift:11-23 | `default` and `detailed` start with the same date pattern; `detailed` uses the bare file name |
| Formatters.DefaultLogLine | Source/Formatting/Formatters.swift:10-15 | a `default` line is "[date] file.ext:line LEVEL: message" + terminator |
| Formatters.MinimalLogLine | Source/Formatting/Formatters.swift:16-20 | a `minimal` line is "file.ext:line LEVEL: message" + terminator |
| Formatters.DetailedLogLine | Source/Formatting/Formatters.swift:21-28 | a `detailed` line is "[date] name.function:line LEVEL: message" + terminator |
| Formatters.DefaultBenchmarkLine | Source/Formatting/Formatters.swift:10-15 | a `default` benchmark line is "[date] file.ext:line MEASURE…: Time: …", with no terminator |
| Logging.Formatter.constructor | Source/Formatting/Formatter.swift:63-66 | a new formatter keeps its template and components and has no logger yet |
| Logging.Logger.constructor | Source/Logger.swift:46-52 | a new logger is enabled, keeps its arguments, prints nothing yet, and its formatter now points back at it |
| Logging.Logger.WithDefaults | Source/Logger.swift:46-52 | the default arguments: the shared `default` formatter, `emojiHearts` and `.trace` |
| Logging.Logger.SetFormatter | Source/Logger.swift:16-18 | assigning a formatter points it back at this logger |
| Logging.Logger.Log | Source/Logger.swift:140-159 | a call that fails the gate changes nothing; otherwise exactly one line is appended: the formatter's rendering with the theme of its logger, which is needed only when the layout has a `.level` component |
| Logging.Logger.Trace | Source/Logger.swift:64-67 | `log` at `.trace`, other arguments passed through |
| Logging.Logger.Debug | Source/Logger.swift:79-82 | `log` at `.debug` |
| Logging.Logger.Info | Source/Logger.swift:94-97 | `log` at `.info` |
| Logging.Logger.Warning | Source/Logger.swift:109-112 | `log` at `.warning` |
| Logging.Logger.Error | Source/Logger.swift:124-127 | `log` at `.error` |
| Logging.Logger.Measure | Source/Logger.swift:171-190 | gated as a debug call; when gated the block never runs and nothing is printed; otherwise the block runs `iterations` times and the benchmark line plus "\n" is appended |
| Logging.Logger.Passes | Source/Logger.swift:142-144 | the guard of `log` (and, at `.debug`, of `measure`, Source/Logger.swift:173-175); stated by `GateIsThreshold` |
| Logging.GateIsThreshold | Source/Logger.swift:142-144 | the gate is enabled && raw(level) >= raw(minLevel): disabled drops everything, any more severe level also passes, `.trace` passes all |
| Logging.Logger.Colors | Source/Logger.swift:32-34 | `colors`, the theme's description; stated by `ColorsShowLevels` |
| Logging.ColorsShowLevels | Source/Logger.swift:32-34 | `colors` lists the five styled level names in ascending order |
| Logging.GatedCallsKeepOrder | Source/Logger.swift:142-158 | at `minLevel` warning an info call is dropped and the following error and warning lines are printed in call order |
| Logging.SharedFormatterUsesLastTheme | Source/Logger.swift:51 | with a formatter shared by two loggers, the first logger's line is styled with the second logger's theme |
| Logging.MeasureBelowMinLevel | Source/Logger.swift:173-175 | a measurement below `minLevel` runs no block and prints nothing |
| Logging.MeasureAtDefaultLevel | Source/Logger.swift:177-189 | a measurement at `.trace` runs the block `iterations` times and prints one benchmark line ending in "\n" |

## Left out

- Date rendering: `DateFormatter` is a foreign API. The date slot is a `Timestamp` parameter, a function from the date pattern to its text. The write of `dateFormatter.dateFormat` that each date slot makes is not kept, because only later `DateFormatter` calls would observe it.
- Floating-point formatting: `format(average:)` and `format(relativeStandardDeviation:)` print with "%.3f". The model takes their texts as the `Timing` input, and `TimingText` adds the "%" and the surrounding words. `format(durations:)` and `format(standardDeviation:)` are never called and are not modelled.
- The benchmark statistics: the duration measurements, the mean and the deviation formula need clocks and floating point. `Measure` takes the printed statistics as input and counts block runs in the ghost field `blockRuns`. Its description is passed through unchanged, as the benchmark does.
- `DispatchQueue.async` and `print`: the serial queue becomes the `output` sequence, appended in call order. Concurrent callers and the actual write are not modelled.
- `Formatter.description` and `Logger.format`: these depend on `String(describing:)` reflection of enum cases. `Logger.colors` is modelled.
- `Any` items and `block` closures: items arrive already converted to strings. A `.block` component holds the value its closure returns (`Option`), and that value is part of the formatter's layout. The model therefore fixes each block's text for the formatter's lifetime. The source calls `block()` at every rendering, so two lines can show different values, and the closure can have side effects. Neither is modelled.
- Default arguments of the entry points: `Logging.Logger.Trace`, `Debug`, `Info`, `Warning` and `Error` take `separator` and `terminator` as explicit parameters. The source defaults them to " " and "\n". `Logging.Logger.Measure` takes `description` and `iterations` explicitly, where the source defaults them to nil and 10. A caller relying on the defaults passes those values.
- `String(format:)` with directives other than `%@`, or with a count mismatch: the model accepts only `%@` templates whose placeholder count matches the component count (`WellFormed`).
- The nil case of the weak `logger` back-reference: the source traps when it renders a `.level` component with a nil logger. The model requires a logger for such layouts only; other layouts render without one, and `Formatting.ThemeUnusedWithoutLevel` shows the theme then plays no part. A logger released while its formatter lives on is not modelled, because the model has no deallocation.
- `lastPathComponent` and `deletingPathExtension` follow `NSString` for plain "/"-separated paths: trailing separators, the root "/" and dot-files are covered. Tilde expansion, "." and ".." components, the collapsing of repeated '/' inside a path (Foundation turns "a//b.c" into "a/b", the model into "a//b") and the exact behaviour for a component that is only dots are not modelled.
- `uppercased()` is modelled for ASCII letters only, which is all the level names use.
- The `emojiHearts` emoji in the source are UTF-8 heart characters whose bytes were decoded as Mac Roman text. The model uses the hearts themselves: U+1F49A, U+1F5A4, U+1F499, U+1F49B, and U+2764 U+FE0F.
