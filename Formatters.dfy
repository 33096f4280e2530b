/** The preset layouts of `Formatters`: literal templates and their components. */
module Formatters {
  import Text
  import opened Formatting
  import Levels
  import opened Theming
  import opened Wrappers

  /** The date pattern shared by the `default` and `detailed` presets. */
  const DatePattern := "yyyy-MM-dd HH:mm:ss.SSS"

  /** `Formatters.default`. */
  const Default := Layout("[%@] %@ %@: %@", [Date(DatePattern), Location, Level, Message])

  /** `Formatters.minimal`. */
  const Minimal := Layout("%@ %@: %@", [Location, Level, Message])

  /** `Formatters.detailed`: the file slot is the bare file name. */
  const Detailed := Layout("[%@] %@.%@:%@ %@: %@", [Date(DatePattern), File(false, false), Function, Line, Level, Message])

  const Presets := [Default, Minimal, Detailed]

  /** The literal pieces of each preset's template. */
  const DefaultSegments := ["[", "] ", " ", ": ", ""]
  const MinimalSegments := ["", " ", ": ", ""]
  const DetailedSegments := ["[", "] ", ".", ":", " ", ": ", ""]

  /** Each preset template is its literal pieces with a placeholder between each two. */
  lemma DefaultTemplate()
    ensures Default.template == Template(DefaultSegments)
  {
  }

  lemma MinimalTemplate()
    ensures Minimal.template == Template(MinimalSegments)
  {
  }

  lemma DetailedTemplate()
    ensures Detailed.template == Template(DetailedSegments)
  {
    assert Template([" ", ": ", ""]) == " %@: %@";
    assert Template([".", ":", " ", ": ", ""]) == ".%@:%@ %@: %@";
    assert DetailedSegments[2..] == [".", ":", " ", ": ", ""];
  }

  /** `default` has four placeholders and four components. */
  lemma DefaultWellFormed()
    ensures WellFormed(Default) && Placeholders(Default.template) == |Default.components| == 4
    ensures Segments(Default.template) == DefaultSegments
  {
    DefaultTemplate();
    TemplateSegments(DefaultSegments);
  }

  /** `minimal` has three placeholders and three components. */
  lemma MinimalWellFormed()
    ensures WellFormed(Minimal) && Placeholders(Minimal.template) == |Minimal.components| == 3
    ensures Segments(Minimal.template) == MinimalSegments
  {
    MinimalTemplate();
    TemplateSegments(MinimalSegments);
  }

  /** `detailed` has six placeholders and six components. */
  lemma DetailedWellFormed()
    ensures WellFormed(Detailed) && Placeholders(Detailed.template) == |Detailed.components| == 6
    ensures Segments(Detailed.template) == DetailedSegments
  {
    DetailedTemplate();
    TemplateSegments(DetailedSegments);
  }

  /** In every preset the last two components are the level and then the message. */
  lemma PresetsEndWithLevelAndMessage(i: nat)
    requires i < |Presets|
    ensures var cs := Presets[i].components;
            |cs| >= 2 && cs[|cs| - 2] == Level && cs[|cs| - 1] == Message
  {
  }

  /** `default` and `detailed` start with the same date component; `detailed` shows the bare file name. */
  lemma PresetDates()
    ensures Default.components[0] == Detailed.components[0] == Date(DatePattern)
    ensures Detailed.components[1] == File(false, false)
  {
  }

  // Interleaving a fixed number of pieces, stated for arbitrary pieces so that the
  // preset lemmas below never unfold `Interleave` on literal sequences.

  lemma InterleaveThree(segs: seq<string>, args: seq<string>)
    requires |segs| == 4 && |args| == 3
    ensures Interleave(segs, args) == segs[0] + (args[0] + (segs[1] + (args[1] + (segs[2] + (args[2] + segs[3])))))
    ensures segs[3] == "" ==> Interleave(segs, args) == segs[0] + (args[0] + (segs[1] + (args[1] + (segs[2] + args[2]))))
  {
    assert segs[3] == "" ==> args[2] + segs[3] == args[2];
    assert Interleave(segs[3..], args[3..]) == segs[3];
    assert Interleave(segs[2..], args[2..]) == segs[2] + (args[2] + segs[3]);
  }

  lemma InterleaveFour(segs: seq<string>, args: seq<string>)
    requires |segs| == 5 && |args| == 4
    ensures Interleave(segs, args)
            == segs[0] + (args[0] + (segs[1] + (args[1] + (segs[2] + (args[2] + (segs[3] + (args[3] + segs[4])))))))
    ensures segs[4] == "" ==>
              Interleave(segs, args) == segs[0] + (args[0] + (segs[1] + (args[1] + (segs[2] + (args[2] + (segs[3] + args[3]))))))
  {
    InterleaveThree(segs[1..], args[1..]);
  }

  lemma InterleaveSix(segs: seq<string>, args: seq<string>)
    requires |segs| == 7 && |args| == 6
    ensures Interleave(segs, args)
            == segs[0] + (args[0] + (segs[1] + (args[1] + (segs[2] + (args[2] + (segs[3] + (args[3]
               + (segs[4] + (args[4] + (segs[5] + (args[5] + segs[6])))))))))))
    ensures segs[6] == "" ==>
              Interleave(segs, args) == segs[0] + (args[0] + (segs[1] + (args[1] + (segs[2] + (args[2] + (segs[3] + (args[3]
                + (segs[4] + (args[4] + (segs[5] + args[5]))))))))))
  {
    InterleaveFour(segs[2..], args[2..]);
    assert Interleave(segs[1..], args[1..]) == segs[1] + (args[1] + Interleave(segs[2..], args[2..]));
  }

  // The rendered lines below are written right-nested, the way substitution builds them.

  /** A `default` log line: "[date] file.ext:line LEVEL: message" and the terminator. */
  lemma DefaultLogLine(theme: Theme, level: Levels.Level, items: seq<string>, separator: string,
                       terminator: string, site: CallSite, date: Timestamp)
    ensures WellFormed(Default)
            && FormatLog(Default, theme, level, items, separator, terminator, site, date)
               == "[" + (date(DatePattern) + ("] " + (LocationSlot(site.file, site.line) + (" " + (LevelSlot(level, theme)
                  + (": " + Text.Join(items, separator))))))) + terminator
  {
    DefaultWellFormed();
    var args := [date(DatePattern), LocationSlot(site.file, site.line), LevelSlot(level, theme), Text.Join(items, separator)];
    ArgumentsOfFour(Date(DatePattern), Location, Level, Message, Slot(site, date, args[2], args[3]));
    SlotValues(site, date, args[2], args[3], DatePattern);
    SlotOfLocation(site, date, args[2], args[3]);
    FormatLogPositional(Default, theme, level, items, separator, terminator, site, date);
    InterleaveFour(DefaultSegments, args);
  }

  /** A `minimal` log line: "file.ext:line LEVEL: message" and the terminator. */
  lemma MinimalLogLine(theme: Theme, level: Levels.Level, items: seq<string>, separator: string,
                       terminator: string, site: CallSite, date: Timestamp)
    ensures WellFormed(Minimal)
            && FormatLog(Minimal, theme, level, items, separator, terminator, site, date)
               == LocationSlot(site.file, site.line) + (" " + (LevelSlot(level, theme)
                  + (": " + Text.Join(items, separator)))) + terminator
  {
    MinimalWellFormed();
    var args := [LocationSlot(site.file, site.line), LevelSlot(level, theme), Text.Join(items, separator)];
    ArgumentsOfThree(Location, Level, Message, Slot(site, date, args[1], args[2]));
    SlotValues(site, date, args[1], args[2], DatePattern);
    SlotOfLocation(site, date, args[1], args[2]);
    FormatLogPositional(Minimal, theme, level, items, separator, terminator, site, date);
    InterleaveThree(MinimalSegments, args);
    assert "" + (args[0] + (" " + (args[1] + (": " + args[2])))) == args[0] + (" " + (args[1] + (": " + args[2])));
  }

  /**
   * A `detailed` log line: "[date] name.function:line LEVEL: message" and the terminator,
   * where name is the file's last path component without its extension.
   */
  lemma DetailedLogLine(theme: Theme, level: Levels.Level, items: seq<string>, separator: string,
                        terminator: string, site: CallSite, date: Timestamp)
    ensures WellFormed(Detailed)
            && FormatLog(Detailed, theme, level, items, separator, terminator, site, date)
               == "[" + (date(DatePattern) + ("] " + (FileSlot(site.file, false, false) + ("." + (site.functionName
                  + (":" + (Text.IntToString(site.line) + (" " + (LevelSlot(level, theme)
                  + (": " + Text.Join(items, separator))))))))))) + terminator
  {
    DetailedWellFormed();
    var args := [date(DatePattern), FileSlot(site.file, false, false), site.functionName, Text.IntToString(site.line),
                 LevelSlot(level, theme), Text.Join(items, separator)];
    ArgumentsOfSix(Date(DatePattern), File(false, false), Function, Line, Level, Message, Slot(site, date, args[4], args[5]));
    SlotValues(site, date, args[4], args[5], DatePattern);
    SlotOfFile(site, date, args[4], args[5], false, false);
    FormatLogPositional(Detailed, theme, level, items, separator, terminator, site, date);
    InterleaveSix(DetailedSegments, args);
  }

  /** A `default` benchmark line: "[date] file.ext:line MEASURE ...: Time: ..." with no terminator. */
  lemma DefaultBenchmarkLine(theme: Theme, description: Option<string>, timing: Timing, site: CallSite, date: Timestamp)
    ensures WellFormed(Default)
            && FormatBenchmark(Default, theme, description, timing, site, date)
               == "[" + (date(DatePattern) + ("] " + (LocationSlot(site.file, site.line) + (" " + (MeasureSlot(description, theme)
                  + (": " + TimingText(timing)))))))
  {
    DefaultWellFormed();
    var args := [date(DatePattern), LocationSlot(site.file, site.line), MeasureSlot(description, theme), TimingText(timing)];
    ArgumentsOfFour(Date(DatePattern), Location, Level, Message, Slot(site, date, args[2], args[3]));
    SlotValues(site, date, args[2], args[3], DatePattern);
    SlotOfLocation(site, date, args[2], args[3]);
    FormatBenchmarkPositional(Default, theme, description, timing, site, date);
    InterleaveFour(DefaultSegments, args);
  }
}
