/**
 * The formatter's rendering: each component of the layout yields one string, and the
 * strings replace the template's "%@" placeholders in order. A log line gets its
 * terminator appended; a benchmark line does not.
 *
 * The source reads the theme through the formatter's back-reference to its logger;
 * here the theme is a parameter, and the Logging module passes the one the
 * back-reference designates.
 */
module Formatting {
  import opened Wrappers
  import Levels
  import Text
  import StringExtension
  import opened Theming

  /** `Formatter.Component`: one slot of the template. */
  datatype Component =
    | Date(pattern: string)
    | File(fullPath: bool, fileExtension: bool)
    | Function
    | Line
    | Column
    | Level
    | Message
    | Location
    /** The value the component's closure returns when it is called during rendering. */
    | Block(value: Option<string>)

  /** A formatter's `format` string and `components`, fixed once the formatter is made. */
  datatype Layout = Layout(template: string, components: seq<Component>)

  /** Where the logging call was made (`#file`, `#line`, `#column`, `#function`). */
  datatype CallSite = CallSite(file: string, line: int, column: int, functionName: string)

  /** The moment of the call, as the date formatter renders it for a given date pattern. */
  type Timestamp = string -> string

  /** A benchmark's average time and relative standard deviation, each already printed with "%.3f". */
  datatype Timing = Timing(average: string, relativeStandardDeviation: string)

  // ---- Templates: String(format:arguments:) restricted to "%@" ----

  /** Every '%' in the template starts a "%@" placeholder. */
  predicate ValidTemplate(t: string)
    decreases |t|
  {
    if t == [] then true
    else if t[0] == '%' then |t| >= 2 && t[1] == '@' && ValidTemplate(t[2..])
    else ValidTemplate(t[1..])
  }

  /** The number of "%@" placeholders. */
  function Placeholders(t: string): nat
    decreases |t|
  {
    if t == [] then 0
    else if |t| >= 2 && t[0] == '%' && t[1] == '@' then 1 + Placeholders(t[2..])
    else Placeholders(t[1..])
  }

  /** A layout the source can render: as many components as placeholders. */
  predicate WellFormed(layout: Layout)
  {
    ValidTemplate(layout.template) && Placeholders(layout.template) == |layout.components|
  }

  /** `String(format: t, arguments: args)`: the i-th placeholder becomes the i-th argument. */
  function Substitute(t: string, args: seq<string>): string
    requires ValidTemplate(t) && Placeholders(t) == |args|
    decreases |t|
  {
    if t == [] then ""
    else if t[0] == '%' then args[0] + Substitute(t[2..], args[1..])
    else [t[0]] + Substitute(t[1..], args)
  }

  /** The literal text between the placeholders: one piece more than there are placeholders. */
  function Segments(t: string): (r: seq<string>)
    requires ValidTemplate(t)
    ensures |r| == Placeholders(t) + 1
    ensures forall i :: 0 <= i < |r| ==> '%' !in r[i]
    decreases |t|
  {
    if t == [] then [""]
    else if t[0] == '%' then [""] + Segments(t[2..])
    else
      var rest := Segments(t[1..]);
      [[t[0]] + rest[0]] + rest[1..]
  }

  /** segs[0] + args[0] + segs[1] + args[1] + ... + segs[n]. */
  function Interleave(segs: seq<string>, args: seq<string>): string
    requires |segs| == |args| + 1
    decreases |args|
  {
    if args == [] then segs[0] else segs[0] + (args[0] + Interleave(segs[1..], args[1..]))
  }

  /** Substitution is positional: the template's literal pieces with the arguments between them, in order. */
  lemma {:induction false} SubstituteInterleaves(t: string, args: seq<string>)
    requires ValidTemplate(t) && Placeholders(t) == |args|
    ensures Substitute(t, args) == Interleave(Segments(t), args)
    decreases |t|
  {
    if t == [] {
    } else if t[0] == '%' {
      SubstituteInterleaves(t[2..], args[1..]);
      assert ([""] + Segments(t[2..]))[1..] == Segments(t[2..]);
    } else {
      SubstituteInterleaves(t[1..], args);
      var rest := Segments(t[1..]);
      var segs := [[t[0]] + rest[0]] + rest[1..];
      assert segs[1..] == rest[1..];
      if args != [] {
        assert Interleave(rest, args) == rest[0] + args[0] + Interleave(rest[1..], args[1..]);
      }
    }
  }

  /** Substituting "%@" for every placeholder gives the template back. */
  lemma {:induction false} SubstituteIdentity(t: string)
    requires ValidTemplate(t)
    ensures Substitute(t, seq(Placeholders(t), _ => "%@")) == t
    decreases |t|
  {
    if t == [] {
    } else if t[0] == '%' {
      SubstituteIdentity(t[2..]);
      Placeholder(t);
    } else {
      SubstituteIdentity(t[1..]);
      assert t == [t[0]] + t[1..];
    }
  }

  /** A template opening with a placeholder is "%@" and the rest, with one placeholder more. */
  lemma Placeholder(t: string)
    requires ValidTemplate(t) && t != [] && t[0] == '%'
    ensures t == "%@" + t[2..]
    ensures Placeholders(t) >= 1 && seq(Placeholders(t), _ => "%@")[1..] == seq(Placeholders(t) - 1, _ => "%@")
    ensures Placeholders(t) - 1 == Placeholders(t[2..])
  {
  }

  /** The template with the given literal pieces and a placeholder between each two. */
  function Template(segs: seq<string>): string
    requires |segs| >= 1
    decreases |segs|
  {
    if |segs| == 1 then segs[0] else segs[0] + "%@" + Template(segs[1..])
  }

  /** Literal text without '%' keeps a template valid and adds no placeholder. */
  lemma {:induction false} LiteralTextPlaceholders(s: string, t: string)
    requires '%' !in s && ValidTemplate(t)
    ensures ValidTemplate(s + t) && Placeholders(s + t) == Placeholders(t)
    decreases |s|
  {
    if s == [] {
      assert s + t == t;
    } else {
      assert (s + t)[0] == s[0] && (s + t)[1..] == s[1..] + t;
      LiteralTextPlaceholders(s[1..], t);
    }
  }

  /** Literal text without '%' joins the first literal piece of the template after it. */
  lemma {:induction false} LiteralText(s: string, t: string)
    requires '%' !in s && ValidTemplate(t)
    ensures ValidTemplate(s + t) && Placeholders(s + t) == Placeholders(t)
    ensures Segments(s + t) == [s + Segments(t)[0]] + Segments(t)[1..]
    decreases |s|
  {
    LiteralTextPlaceholders(s, t);
    if s == [] {
      assert s + t == t;
      SegmentsSplit(t);
    } else {
      var u := s[1..] + t;
      LiteralText(s[1..], t);
      HeadThenRest(s, t);
      LiteralChar(s[0], u);
      HeadThenRest(s, Segments(t)[0]);
    }
  }

  lemma HeadThenRest(s: string, x: string)
    requires s != []
    ensures [s[0]] + (s[1..] + x) == s + x
  {
    assert s == [s[0]] + s[1..];
  }

  /** One literal character before a template joins its first piece. */
  lemma LiteralChar(c: char, u: string)
    requires c != '%' && ValidTemplate(u)
    ensures ValidTemplate([c] + u) && Placeholders([c] + u) == Placeholders(u)
    ensures Segments([c] + u) == [[c] + Segments(u)[0]] + Segments(u)[1..]
  {
    assert ([c] + u)[0] == c && ([c] + u)[1..] == u;
  }

  lemma SegmentsSplit(t: string)
    requires ValidTemplate(t)
    ensures Segments(t) == ["" + Segments(t)[0]] + Segments(t)[1..]
  {
    var r := Segments(t);
    assert "" + r[0] == r[0];
  }

  /** A template built from literal pieces has exactly those pieces, one placeholder fewer than pieces. */
  lemma {:induction false} TemplateSegments(segs: seq<string>)
    requires |segs| >= 1 && forall i :: 0 <= i < |segs| ==> '%' !in segs[i]
    ensures ValidTemplate(Template(segs))
    ensures Placeholders(Template(segs)) == |segs| - 1
    ensures Segments(Template(segs)) == segs
    decreases |segs|
  {
    if |segs| == 1 {
      LiteralText(segs[0], "");
      assert segs[0] + "" == segs[0];
    } else {
      var rest := Template(segs[1..]);
      TemplateSegments(segs[1..]);
      var t := "%@" + rest;
      assert t[2..] == rest;
      LiteralText(segs[0], t);
      assert segs[0] + "%@" + rest == segs[0] + t;
      assert Segments(t) == [""] + segs[1..];
      assert segs[0] + "" == segs[0];
      assert segs == [segs[0]] + segs[1..];
    }
  }

  /** Conversely, every valid template is rebuilt from its literal pieces. */
  lemma {:induction false} SegmentsTemplate(t: string)
    requires ValidTemplate(t)
    ensures Template(Segments(t)) == t
    decreases |t|
  {
    if t == [] {
    } else if t[0] == '%' {
      SegmentsTemplate(t[2..]);
      RebuildAfterPlaceholder(t);
    } else {
      SegmentsTemplate(t[1..]);
      RebuildAfterLiteral(t);
    }
  }

  lemma RebuildAfterPlaceholder(t: string)
    requires ValidTemplate(t) && t != [] && t[0] == '%'
    requires Template(Segments(t[2..])) == t[2..]
    ensures Template(Segments(t)) == t
  {
    var segs := Segments(t);
    assert segs[1..] == Segments(t[2..]);
    assert t == "" + "%@" + t[2..];
  }

  lemma RebuildAfterLiteral(t: string)
    requires ValidTemplate(t) && t != [] && t[0] != '%'
    requires Template(Segments(t[1..])) == t[1..]
    ensures Template(Segments(t)) == t
  {
    assert t == [t[0]] + t[1..];
    LiteralChar(t[0], t[1..]);
    TemplateFirstChar(t[0], Segments(t[1..]));
  }

  /** A character put before the first literal piece comes out before the whole template. */
  lemma TemplateFirstChar(c: char, segs: seq<string>)
    requires |segs| >= 1
    ensures Template([[c] + segs[0]] + segs[1..]) == [c] + Template(segs)
  {
    var longer := [[c] + segs[0]] + segs[1..];
    assert longer[0] == [c] + segs[0] && longer[1..] == segs[1..];
    if |segs| > 1 {
      var rest := Template(segs[1..]);
      assert Template(longer) == [c] + segs[0] + "%@" + rest;
      assert Template(segs) == segs[0] + "%@" + rest;
      Regroup([c], segs[0], "%@", rest);
    }
  }

  lemma Regroup(x: string, a: string, m: string, b: string)
    ensures x + a + m + b == x + (a + m + b)
  {
  }

  // ---- The slots ----

  /** `format(file:fullPath:fileExtension:)`: the path, cut to its last component and/or stripped of its extension. */
  function FileSlot(file: string, fullPath: bool, fileExtension: bool): (r: string)
    ensures fullPath && fileExtension ==> r == file
    ensures !fileExtension ==> r <= (if fullPath then file else StringExtension.LastPathComponent(file))
    ensures !fullPath ==> '/' !in r || r == "/"
  {
    var f := if fullPath then file else StringExtension.LastPathComponent(file);
    if fileExtension then f else StringExtension.DeletingPathExtension(f)
  }

  /** The four settings of the file slot on a source path "dir/name.ext". */
  lemma FileSlotOfSourcePath(dir: string, name: string, ext: string)
    requires name != [] && '/' !in name && '.' !in name
    requires '/' !in ext && '.' !in ext
    ensures FileSlot(dir + "/" + name + "." + ext, true, true) == dir + "/" + name + "." + ext
    ensures FileSlot(dir + "/" + name + "." + ext, false, true) == name + "." + ext
    ensures FileSlot(dir + "/" + name + "." + ext, false, false) == name
    ensures FileSlot(dir + "/" + name + "." + ext, true, false) == dir + "/" + name
  {
    var base := name + "." + ext;
    assert dir + "/" + name + "." + ext == dir + "/" + base;
    assert '/' !in base by {
      forall j | 0 <= j < |base| ensures base[j] != '/' {
        if j < |name| { assert base[j] == name[j]; }
        else if j > |name| { assert base[j] == ext[j - |name| - 1]; }
      }
    }
    StringExtension.LastPathComponentOfFile(dir, base);
    StringExtension.DeletingPathExtensionOfName(name, ext);
    DeletingExtensionOfPath(dir, name, ext);
  }

  /** Deleting the extension of "dir/name.ext" keeps the directory. */
  lemma DeletingExtensionOfPath(dir: string, name: string, ext: string)
    requires name != [] && '/' !in name && '.' !in name
    requires '/' !in ext && '.' !in ext
    ensures StringExtension.DeletingPathExtension(dir + "/" + name + "." + ext) == dir + "/" + name
  {
    var p := dir + "/" + name + "." + ext;
    var n := |dir| + 1;
    var last := p[n..];
    assert last == name + "." + ext;
    forall j | 0 <= j < |last|
      ensures last[j] != '/'
      ensures j > |name| ==> last[j] != '.'
    {
      if j < |name| { assert last[j] == name[j]; }
      else if j > |name| { assert last[j] == ext[j - |name| - 1]; }
    }
    forall j | n <= j < |p| ensures p[j] != '/' {
      assert p[j] == last[j - n];
    }
    StringExtension.LastIndexOfIs(p, '/', |dir|);
    StringExtension.LastIndexOfIs(last, '.', |name|);
    StringExtension.DeletingPathExtensionAt(p, n, |name|);
    assert p[..n + |name|] == dir + "/" + name;
  }

  /** `format(file:line:)`: the file name with its extension, ':' and the line number. */
  function LocationSlot(file: string, line: int): string
  {
    Text.Join([FileSlot(file, false, true), Text.IntToString(line)], ":")
  }

  /** Reads the line number back from a location: the numeral after the last ':'. */
  function LocationLine(loc: string): Option<int>
  {
    var tail := loc[StringExtension.LastIndexOf(loc, ':') + 1..];
    if Text.IsNumeral(tail) then Some(Text.ParseInt(tail)) else None
  }

  /** A location starts with the file's last path component and ends with its line number. */
  lemma LocationRoundTrip(file: string, line: int)
    ensures var loc := LocationSlot(file, line);
            var name := StringExtension.LastPathComponent(file);
            |name| < |loc| && loc[..|name|] == name && loc[|name|] == ':'
    ensures LocationLine(LocationSlot(file, line)) == Some(line)
  {
    var name := StringExtension.LastPathComponent(file);
    var num := Text.IntToString(line);
    var loc := LocationSlot(file, line);
    assert [name, num][1..] == [num];
    assert Text.Join([num], ":") == num;
    assert FileSlot(file, false, true) == name;
    assert loc == name + ":" + num;
    assert loc[..|name|] == name;
    forall j | |name| < j < |loc| ensures loc[j] != ':' {
      assert loc[j] == num[j - |name| - 1];
    }
    StringExtension.LastIndexOfIs(loc, ':', |name|);
    assert loc[|name| + 1..] == num;
    Text.IntRoundTrip(line);
  }

  /** `format(level:)`: the level's name as the theme styles that level, or the plain name when it has no style. */
  function LevelSlot(level: Levels.Level, theme: Theme): string
  {
    match StyleFor(theme, level)
    case None => Levels.Name(level)
    case Some(style) => Styled(style, Levels.Name(level))
  }

  /** A level rendered with colour c and emoji e is "e NAME" inside the escape for c. */
  lemma LevelSlotOfStyle(level: Levels.Level, theme: Theme, color: string, emoji: string)
    requires StyleFor(theme, level) == Some(NewStyle(Some(color), Some(emoji)))
    ensures LevelSlot(level, theme) == StringExtension.WithColor(emoji + " " + Levels.Name(level), color)
  {
    assert emoji + " " + Levels.Name(level) == NewStyle(Some(color), Some(emoji)).emoji + Levels.Name(level);
  }

  /** The theme's description shows the five level slots in ascending order. */
  lemma DescriptionShowsLevelSlots(theme: Theme)
    requires Complete(theme)
    ensures Description(theme)
            == LevelSlot(Levels.Trace, theme) + " " + LevelSlot(Levels.Debug, theme) + " "
               + LevelSlot(Levels.Info, theme) + " " + LevelSlot(Levels.Warning, theme) + " "
               + LevelSlot(Levels.Error, theme)
  {
    DescriptionOfComplete(theme);
  }

  /**
   * `format(description:)`, the level slot of a benchmark line: "MEASURE" styled as the
   * theme styles the debug level, then a space and the description when there is one.
   */
  function MeasureSlot(description: Option<string>, theme: Theme): (r: string)
    ensures r != []
    ensures description.None? ==> r[|r| - 1] != ' '
  {
    var tag :=
      (match StyleFor(theme, Levels.Debug)
       case None => "MEASURE"
       case Some(style) => Styled(style, "MEASURE"));
    assert tag != [] && tag[|tag| - 1] != ' ' by {
      if StyleFor(theme, Levels.Debug).Some? && StyleFor(theme, Levels.Debug).value.color.Some? {
        var style := StyleFor(theme, Levels.Debug).value;
        assert tag[|tag| - 1] == StringExtension.ColorClosing[2];
      }
    }
    if description.Some? then tag + " " + description.value else tag
  }

  /** Only the debug style matters to the measure tag, and the description follows it after one space. */
  lemma MeasureSlotUsesDebugStyle(description: Option<string>, t1: Theme, t2: Theme)
    requires StyleFor(t1, Levels.Debug) == StyleFor(t2, Levels.Debug)
    ensures MeasureSlot(description, t1) == MeasureSlot(description, t2)
    ensures description.Some? ==> MeasureSlot(description, t1) == MeasureSlot(None, t1) + " " + description.value
    ensures StyleFor(t1, Levels.Debug).Some? ==> MeasureSlot(None, t1) == Styled(StyleFor(t1, Levels.Debug).value, "MEASURE")
  {
  }

  /** `format(average:relativeStandardDeviation:)`. */
  function TimingText(timing: Timing): string
  {
    "Time: " + timing.average + " sec (" + timing.relativeStandardDeviation + "% STDEV)"
  }

  // ---- The two renderers ----

  /**
   * The string one component yields. The two renderers differ only in what the
   * `.level` and `.message` components yield.
   */
  function Argument(c: Component, site: CallSite, date: Timestamp, levelText: string, messageText: string): string
  {
    match c
    case Date(pattern) => date(pattern)
    case File(fullPath, fileExtension) => FileSlot(site.file, fullPath, fileExtension)
    case Function => site.functionName
    case Line => Text.IntToString(site.line)
    case Column => Text.IntToString(site.column)
    case Level => levelText
    case Message => messageText
    case Location => LocationSlot(site.file, site.line)
    case Block(value) => if value.Some? then value.value else ""
  }

  /** `components.map(slot)`: exactly one string per component, in component order. */
  function Arguments(cs: seq<Component>, slot: Component -> string): (r: seq<string>)
    ensures |r| == |cs|
  {
    seq(|cs|, i requires 0 <= i < |cs| => slot(cs[i]))
  }

  /** Every occurrence of component `c` gets the string the closure gives `c`. */
  lemma ArgumentsWhere(cs: seq<Component>, slot: Component -> string, c: Component, v: string)
    requires slot(c) == v
    ensures forall i :: 0 <= i < |cs| && cs[i] == c ==> Arguments(cs, slot)[i] == v
  {
  }

  /**
   * The closure both renderers map over the components; they differ only in what the
   * `.level` and `.message` components yield.
   */
  function Slot(site: CallSite, date: Timestamp, levelText: string, messageText: string): Component -> string
  {
    c => Argument(c, site, date, levelText, messageText)
  }

  /** What the closure yields for each component other than `.file` and `.location`. */
  lemma SlotValues(site: CallSite, date: Timestamp, levelText: string, messageText: string, pattern: string)
    ensures var slot := Slot(site, date, levelText, messageText);
            slot(Date(pattern)) == date(pattern) && slot(Function) == site.functionName
            && slot(Line) == Text.IntToString(site.line) && slot(Column) == Text.IntToString(site.column)
            && slot(Level) == levelText && slot(Message) == messageText
  {
  }

  lemma SlotOfFile(site: CallSite, date: Timestamp, levelText: string, messageText: string, fullPath: bool, fileExtension: bool)
    ensures Slot(site, date, levelText, messageText)(File(fullPath, fileExtension)) == FileSlot(site.file, fullPath, fileExtension)
  {
  }

  lemma SlotOfLocation(site: CallSite, date: Timestamp, levelText: string, messageText: string)
    ensures Slot(site, date, levelText, messageText)(Location) == LocationSlot(site.file, site.line)
  {
  }

  // Mapping over a layout's components, whatever the closure.

  lemma ArgumentsOfThree(c0: Component, c1: Component, c2: Component, slot: Component -> string)
    ensures Arguments([c0, c1, c2], slot) == [slot(c0), slot(c1), slot(c2)]
  {
  }

  lemma ArgumentsOfFour(c0: Component, c1: Component, c2: Component, c3: Component, slot: Component -> string)
    ensures Arguments([c0, c1, c2, c3], slot) == [slot(c0), slot(c1), slot(c2), slot(c3)]
  {
  }

  lemma ArgumentsOfSix(c0: Component, c1: Component, c2: Component, c3: Component, c4: Component, c5: Component,
                       slot: Component -> string)
    ensures Arguments([c0, c1, c2, c3, c4, c5], slot) == [slot(c0), slot(c1), slot(c2), slot(c3), slot(c4), slot(c5)]
  {
  }

  /** The log renderer's arguments: the styled level and the joined items. */
  function LogArguments(cs: seq<Component>, theme: Theme, level: Levels.Level, items: seq<string>,
                        separator: string, site: CallSite, date: Timestamp): seq<string>
  {
    Arguments(cs, Slot(site, date, LevelSlot(level, theme), Text.Join(items, separator)))
  }

  /** The benchmark renderer's arguments: the measure tag and the timing text. */
  function BenchmarkArguments(cs: seq<Component>, theme: Theme, description: Option<string>, timing: Timing,
                              site: CallSite, date: Timestamp): seq<string>
  {
    Arguments(cs, Slot(site, date, MeasureSlot(description, theme), TimingText(timing)))
  }

  /** `format(level:items:separator:terminator:file:line:column:function:date:)`. */
  function FormatLog(layout: Layout, theme: Theme, level: Levels.Level, items: seq<string>, separator: string,
                     terminator: string, site: CallSite, date: Timestamp): string
    requires WellFormed(layout)
  {
    Substitute(layout.template, LogArguments(layout.components, theme, level, items, separator, site, date)) + terminator
  }

  /** `format(description:average:relativeStandardDeviation:file:line:column:function:date:)`. */
  function FormatBenchmark(layout: Layout, theme: Theme, description: Option<string>, timing: Timing,
                           site: CallSite, date: Timestamp): string
    requires WellFormed(layout)
  {
    Substitute(layout.template, BenchmarkArguments(layout.components, theme, description, timing, site, date))
  }

  /**
   * A log line is the template's literal pieces with the component strings between them,
   * in order, followed by the terminator; the `.level` slot shows the styled level, the
   * `.message` slot the items joined by the separator.
   */
  lemma FormatLogPositional(layout: Layout, theme: Theme, level: Levels.Level, items: seq<string>,
                            separator: string, terminator: string, site: CallSite, date: Timestamp)
    requires WellFormed(layout)
    ensures var args := LogArguments(layout.components, theme, level, items, separator, site, date);
            FormatLog(layout, theme, level, items, separator, terminator, site, date)
            == Interleave(Segments(layout.template), args) + terminator
    ensures forall i :: 0 <= i < |layout.components| && layout.components[i] == Level ==>
              LogArguments(layout.components, theme, level, items, separator, site, date)[i] == LevelSlot(level, theme)
    ensures forall i :: 0 <= i < |layout.components| && layout.components[i] == Message ==>
              LogArguments(layout.components, theme, level, items, separator, site, date)[i] == Text.Join(items, separator)
  {
    var levelText, messageText := LevelSlot(level, theme), Text.Join(items, separator);
    var slot := Slot(site, date, levelText, messageText);
    SlotValues(site, date, levelText, messageText, "");
    ArgumentsWhere(layout.components, slot, Level, levelText);
    ArgumentsWhere(layout.components, slot, Message, messageText);
    SubstituteInterleaves(layout.template, Arguments(layout.components, slot));
  }

  /**
   * A benchmark line is substituted the same way and gets no terminator; its `.level`
   * slot is the measure tag and its `.message` slot the timing text.
   */
  lemma FormatBenchmarkPositional(layout: Layout, theme: Theme, description: Option<string>, timing: Timing,
                                  site: CallSite, date: Timestamp)
    requires WellFormed(layout)
    ensures var args := BenchmarkArguments(layout.components, theme, description, timing, site, date);
            FormatBenchmark(layout, theme, description, timing, site, date) == Interleave(Segments(layout.template), args)
    ensures forall i :: 0 <= i < |layout.components| && layout.components[i] == Level ==>
              BenchmarkArguments(layout.components, theme, description, timing, site, date)[i] == MeasureSlot(description, theme)
    ensures forall i :: 0 <= i < |layout.components| && layout.components[i] == Message ==>
              BenchmarkArguments(layout.components, theme, description, timing, site, date)[i] == TimingText(timing)
  {
    var levelText, messageText := MeasureSlot(description, theme), TimingText(timing);
    var slot := Slot(site, date, levelText, messageText);
    SlotValues(site, date, levelText, messageText, "");
    ArgumentsWhere(layout.components, slot, Level, levelText);
    ArgumentsWhere(layout.components, slot, Message, messageText);
    SubstituteInterleaves(layout.template, Arguments(layout.components, slot));
  }

  /**
   * The two renderers agree on every component other than `.level` and `.message`; so for
   * a layout without those two, a log line is the benchmark line plus the terminator.
   */
  lemma LogAndBenchmarkAgreeElsewhere(layout: Layout, theme: Theme, level: Levels.Level, items: seq<string>,
                                      separator: string, terminator: string, description: Option<string>,
                                      timing: Timing, site: CallSite, date: Timestamp)
    requires WellFormed(layout)
    ensures forall i :: 0 <= i < |layout.components| && layout.components[i] != Level && layout.components[i] != Message ==>
              LogArguments(layout.components, theme, level, items, separator, site, date)[i]
              == BenchmarkArguments(layout.components, theme, description, timing, site, date)[i]
    ensures (forall i :: 0 <= i < |layout.components| ==> layout.components[i] != Level && layout.components[i] != Message) ==>
              FormatLog(layout, theme, level, items, separator, terminator, site, date)
              == FormatBenchmark(layout, theme, description, timing, site, date) + terminator
  {
    var la := LogArguments(layout.components, theme, level, items, separator, site, date);
    var ba := BenchmarkArguments(layout.components, theme, description, timing, site, date);
    if forall i :: 0 <= i < |layout.components| ==> layout.components[i] != Level && layout.components[i] != Message {
      assert la == ba;
    }
  }

  /** Two closures that agree on every component of `cs` map `cs` to the same strings. */
  lemma ArgumentsAgree(cs: seq<Component>, s1: Component -> string, s2: Component -> string)
    requires forall i :: 0 <= i < |cs| ==> s1(cs[i]) == s2(cs[i])
    ensures Arguments(cs, s1) == Arguments(cs, s2)
  {
  }

  /** Every component other than `.level` yields the same string whatever the level text. */
  lemma SlotIgnoresLevelText(site: CallSite, date: Timestamp, l1: string, l2: string, messageText: string, c: Component)
    requires c != Level
    ensures Slot(site, date, l1, messageText)(c) == Slot(site, date, l2, messageText)(c)
  {
  }

  /** For components without `.level`, the arguments do not depend on the level text. */
  lemma ArgumentsIgnoreLevelText(cs: seq<Component>, site: CallSite, date: Timestamp, l1: string, l2: string,
                                 messageText: string)
    requires Level !in cs
    ensures Arguments(cs, Slot(site, date, l1, messageText)) == Arguments(cs, Slot(site, date, l2, messageText))
  {
    forall i | 0 <= i < |cs|
      ensures Slot(site, date, l1, messageText)(cs[i]) == Slot(site, date, l2, messageText)(cs[i])
    {
      assert cs[i] in cs;
      SlotIgnoresLevelText(site, date, l1, l2, messageText, cs[i]);
    }
    ArgumentsAgree(cs, Slot(site, date, l1, messageText), Slot(site, date, l2, messageText));
  }

  /**
   * Only the `.level` component consults the theme: for a layout without one, a log line
   * and a benchmark line come out the same under every theme.
   */
  lemma ThemeUnusedWithoutLevel(layout: Layout, t1: Theme, t2: Theme, level: Levels.Level, items: seq<string>,
                                separator: string, terminator: string, description: Option<string>,
                                timing: Timing, site: CallSite, date: Timestamp)
    requires WellFormed(layout) && Level !in layout.components
    ensures FormatLog(layout, t1, level, items, separator, terminator, site, date)
            == FormatLog(layout, t2, level, items, separator, terminator, site, date)
    ensures FormatBenchmark(layout, t1, description, timing, site, date)
            == FormatBenchmark(layout, t2, description, timing, site, date)
  {
    var message := Text.Join(items, separator);
    ArgumentsIgnoreLevelText(layout.components, site, date, LevelSlot(level, t1), LevelSlot(level, t2), message);
    ArgumentsIgnoreLevelText(layout.components, site, date, MeasureSlot(description, t1), MeasureSlot(description, t2),
                             TimingText(timing));
  }
}
