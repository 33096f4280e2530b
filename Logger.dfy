/**
 * The logger and the formatter object it owns. They reference each other (the formatter
 * keeps a weak reference to the logger whose theme it renders with), so both classes
 * live in this one module.
 *
 * The serial queue that prints each rendered line is modelled by `output`: every
 * accepted call appends its text, in call order. The benchmark's block is not run
 * here; `blockRuns` counts the runs the benchmark would make.
 */
module Logging {
  import opened Wrappers
  import Levels
  import opened Theming
  import opened Formatting
  import Formatters
  import Themes

  /** `Formatter`: a fixed layout and the (weak) back-reference to the logger that uses it. */
  class Formatter {
    const layout: Layout
    var logger: Logger?

    constructor (layout: Layout)
      ensures this.layout == layout && logger == null
    {
      this.layout := layout;
      logger := null;
    }
  }

  /** `Logger`. */
  class Logger {
    var enabled: bool
    var formatter: Formatter
    var theme: Theme
    var minLevel: Levels.Level
    /** The lines handed to the serial queue, oldest first. */
    var output: seq<string>
    /** How many times measured blocks have been run. */
    ghost var blockRuns: nat

    /** `init(formatter:theme:minLevel:)`: enabled, and the formatter now renders for this logger. */
    constructor (formatter: Formatter, theme: Theme, minLevel: Levels.Level)
      modifies formatter
      ensures enabled
      ensures this.formatter == formatter && this.theme == theme && this.minLevel == minLevel
      ensures output == [] && blockRuns == 0
      ensures formatter.logger == this
    {
      enabled := true;
      this.formatter := formatter;
      this.theme := theme;
      this.minLevel := minLevel;
      output := [];
      blockRuns := 0;
      new;
      formatter.logger := this;
    }

    /** `init()` with its defaults: the shared `Formatters.default`, the `emojiHearts` theme and `.trace`. */
    constructor WithDefaults(shared: Formatter)
      requires shared.layout == Formatters.Default
      modifies shared
      ensures enabled && formatter == shared && theme == Themes.EmojiHearts && minLevel == Levels.Trace
      ensures output == [] && blockRuns == 0
      ensures shared.logger == this
    {
      enabled := true;
      formatter := shared;
      theme := Themes.EmojiHearts;
      minLevel := Levels.Trace;
      output := [];
      blockRuns := 0;
      new;
      shared.logger := this;
    }

    /** Assigning `formatter`: its `didSet` points the new formatter back at this logger. */
    method SetFormatter(f: Formatter)
      modifies this`formatter, f`logger
      ensures formatter == f && f.logger == this
    {
      formatter := f;
      f.logger := this;
    }

    /** The guard of `log` and `measure`: enabled, and the level at least `minLevel`. */
    predicate Passes(level: Levels.Level)
      reads this
    {
      enabled && Levels.AtLeast(level, minLevel)
    }

    /** `colors`: the description of the logger's theme. */
    function Colors(): string
      reads this
    {
      Description(theme)
    }

    /**
     * The theme the formatter renders with: that of the logger its back-reference designates.
     * Without a logger no theme is consulted (`ThemeUnusedWithoutLevel`), so the empty one stands in.
     */
    function RenderTheme(): Theme
      reads this, formatter, formatter.logger
    {
      if formatter.logger != null then formatter.logger.theme else Theme(map[])
    }

    /** What rendering needs: a well-formed layout, and a logger wherever a `.level` slot dereferences it. */
    predicate CanRender()
      reads this, formatter
    {
      WellFormed(formatter.layout) && (Level in formatter.layout.components ==> formatter.logger != null)
    }

    /**
     * `log`: below `minLevel` or while disabled nothing happens; otherwise the call is
     * rendered at once and one line is appended.
     */
    method Log(level: Levels.Level, items: seq<string>, separator: string, terminator: string,
               site: CallSite, date: Timestamp)
      requires Passes(level) ==> CanRender()
      modifies this`output
      ensures Passes(level) ==>
                output == old(output) + [FormatLog(formatter.layout, RenderTheme(), level, items, separator, terminator, site, date)]
      ensures !Passes(level) ==> output == old(output)
    {
      if !(enabled && Levels.AtLeast(level, minLevel)) {
        return;
      }
      var result := FormatLog(formatter.layout, RenderTheme(), level, items, separator, terminator, site, date);
      output := output + [result];
    }

    /** `trace(...)`. */
    method Trace(items: seq<string>, separator: string, terminator: string, site: CallSite, date: Timestamp)
      requires Passes(Levels.Trace) ==> CanRender()
      modifies this`output
      ensures Passes(Levels.Trace) ==>
                output == old(output) + [FormatLog(formatter.layout, RenderTheme(), Levels.Trace, items, separator, terminator, site, date)]
      ensures !Passes(Levels.Trace) ==> output == old(output)
    {
      Log(Levels.Trace, items, separator, terminator, site, date);
    }

    /** `debug(...)`. */
    method Debug(items: seq<string>, separator: string, terminator: string, site: CallSite, date: Timestamp)
      requires Passes(Levels.Debug) ==> CanRender()
      modifies this`output
      ensures Passes(Levels.Debug) ==>
                output == old(output) + [FormatLog(formatter.layout, RenderTheme(), Levels.Debug, items, separator, terminator, site, date)]
      ensures !Passes(Levels.Debug) ==> output == old(output)
    {
      Log(Levels.Debug, items, separator, terminator, site, date);
    }

    /** `info(...)`. */
    method Info(items: seq<string>, separator: string, terminator: string, site: CallSite, date: Timestamp)
      requires Passes(Levels.Info) ==> CanRender()
      modifies this`output
      ensures Passes(Levels.Info) ==>
                output == old(output) + [FormatLog(formatter.layout, RenderTheme(), Levels.Info, items, separator, terminator, site, date)]
      ensures !Passes(Levels.Info) ==> output == old(output)
    {
      Log(Levels.Info, items, separator, terminator, site, date);
    }

    /** `warning(...)`. */
    method Warning(items: seq<string>, separator: string, terminator: string, site: CallSite, date: Timestamp)
      requires Passes(Levels.Warning) ==> CanRender()
      modifies this`output
      ensures Passes(Levels.Warning) ==>
                output == old(output) + [FormatLog(formatter.layout, RenderTheme(), Levels.Warning, items, separator, terminator, site, date)]
      ensures !Passes(Levels.Warning) ==> output == old(output)
    {
      Log(Levels.Warning, items, separator, terminator, site, date);
    }

    /** `error(...)`. */
    method Error(items: seq<string>, separator: string, terminator: string, site: CallSite, date: Timestamp)
      requires Passes(Levels.Error) ==> CanRender()
      modifies this`output
      ensures Passes(Levels.Error) ==>
                output == old(output) + [FormatLog(formatter.layout, RenderTheme(), Levels.Error, items, separator, terminator, site, date)]
      ensures !Passes(Levels.Error) ==> output == old(output)
    {
      Log(Levels.Error, items, separator, terminator, site, date);
    }

    /**
     * `measure`: gated like a debug-level call. When it passes, the block runs `iterations`
     * times (the benchmark's precondition asks for at least one), the benchmark line is
     * rendered and appended with the "\n" that `print` adds.
     */
    method Measure(description: Option<string>, iterations: int, timing: Timing, site: CallSite, date: Timestamp)
      requires Passes(Levels.Debug) ==> iterations >= 1 && CanRender()
      modifies this`output, this`blockRuns
      ensures Passes(Levels.Debug) ==>
                blockRuns == old(blockRuns) + iterations
                && output == old(output) + [FormatBenchmark(formatter.layout, RenderTheme(), description, timing, site, date) + "\n"]
      ensures !Passes(Levels.Debug) ==> blockRuns == old(blockRuns) && output == old(output)
    {
      if !(enabled && Levels.AtLeast(Levels.Debug, minLevel)) {
        return;
      }
      var i := 0;
      while i < iterations
        invariant 0 <= i <= iterations
        invariant blockRuns == old(blockRuns) + i
        invariant output == old(output)
      {
        blockRuns := blockRuns + 1;
        i := i + 1;
      }
      var result := FormatBenchmark(formatter.layout, RenderTheme(), description, timing, site, date);
      output := output + [result + "\n"];
    }
  }

  /**
   * The gate is a threshold on the raw values: a disabled logger drops every level, an
   * enabled one keeps exactly the levels at or above `minLevel`, so whatever passes, every
   * more severe level passes too; at the default `.trace` everything passes.
   */
  lemma GateIsThreshold(lg: Logger, level: Levels.Level, more: Levels.Level)
    ensures lg.Passes(level) <==> lg.enabled && Levels.RawValue(level) >= Levels.RawValue(lg.minLevel)
    ensures lg.Passes(level) && Levels.AtLeast(more, level) ==> lg.Passes(more)
    ensures !lg.enabled ==> !lg.Passes(level)
    ensures lg.enabled && lg.minLevel == Levels.Trace ==> lg.Passes(level)
  {
    Levels.AtLeastIsRawOrder(level, lg.minLevel);
    Levels.AtLeastIsRawOrder(more, level);
    Levels.AtLeastIsRawOrder(more, lg.minLevel);
    Levels.AtLeastIsRawOrder(level, Levels.Trace);
  }

  /** `colors` of a logger whose theme styles every level lists the five styled level names in ascending order. */
  lemma ColorsShowLevels(lg: Logger)
    requires Complete(lg.theme)
    ensures lg.Colors()
            == LevelSlot(Levels.Trace, lg.theme) + " " + LevelSlot(Levels.Debug, lg.theme) + " "
               + LevelSlot(Levels.Info, lg.theme) + " " + LevelSlot(Levels.Warning, lg.theme) + " "
               + LevelSlot(Levels.Error, lg.theme)
  {
    DescriptionShowsLevelSlots(lg.theme);
  }

  /**
   * With `minLevel` at warning, an info call is dropped and the error and warning calls
   * that follow appear in call order, each rendered with the logger's own theme.
   */
  method GatedCallsKeepOrder(layout: Layout, theme: Theme, items: seq<string>, site: CallSite, date: Timestamp)
    returns (printed: seq<string>)
    requires WellFormed(layout)
    ensures printed
            == [FormatLog(layout, theme, Levels.Error, items, " ", "\n", site, date),
                FormatLog(layout, theme, Levels.Warning, items, " ", "\n", site, date)]
  {
    var f := new Formatter(layout);
    var lg := new Logger(f, theme, Levels.Warning);
    GateIsThreshold(lg, Levels.Info, Levels.Info);
    GateIsThreshold(lg, Levels.Error, Levels.Error);
    GateIsThreshold(lg, Levels.Warning, Levels.Warning);
    lg.Info(items, " ", "\n", site, date);
    lg.Error(items, " ", "\n", site, date);
    lg.Warning(items, " ", "\n", site, date);
    printed := lg.output;
  }

  /**
   * Two loggers sharing one formatter (as every logger built with the default formatter
   * does): the formatter's back-reference designates the logger made last, so the first
   * logger's lines are styled with the second logger's theme.
   */
  method SharedFormatterUsesLastTheme(layout: Layout, first: Theme, second: Theme, level: Levels.Level,
                                      items: seq<string>, site: CallSite, date: Timestamp)
    returns (printed: seq<string>)
    requires WellFormed(layout)
    ensures printed == [FormatLog(layout, second, level, items, " ", "\n", site, date)]
  {
    var shared := new Formatter(layout);
    var a := new Logger(shared, first, Levels.Trace);
    var b := new Logger(shared, second, Levels.Trace);
    GateIsThreshold(a, level, level);
    a.Log(level, items, " ", "\n", site, date);
    printed := a.output;
  }

  /** A measurement below `minLevel` runs no block and prints nothing. */
  method MeasureBelowMinLevel(layout: Layout, theme: Theme, description: Option<string>, timing: Timing,
                              site: CallSite, date: Timestamp)
    returns (printed: seq<string>, ghost runs: nat)
    ensures printed == [] && runs == 0
  {
    var f := new Formatter(layout);
    var lg := new Logger(f, theme, Levels.Info);
    GateIsThreshold(lg, Levels.Debug, Levels.Debug);
    lg.Measure(description, 10, timing, site, date);
    printed := lg.output;
    runs := lg.blockRuns;
  }

  /** A measurement at the default level runs the block `iterations` times and prints one line ending in "\n". */
  method MeasureAtDefaultLevel(layout: Layout, theme: Theme, description: Option<string>, iterations: int,
                               timing: Timing, site: CallSite, date: Timestamp)
    returns (printed: seq<string>, ghost runs: nat)
    requires WellFormed(layout) && iterations >= 1
    ensures printed == [FormatBenchmark(layout, theme, description, timing, site, date) + "\n"]
    ensures runs == iterations
  {
    var f := new Formatter(layout);
    var lg := new Logger(f, theme, Levels.Trace);
    GateIsThreshold(lg, Levels.Debug, Levels.Debug);
    lg.Measure(description, iterations, timing, site, date);
    printed := lg.output;
    runs := lg.blockRuns;
  }
}
