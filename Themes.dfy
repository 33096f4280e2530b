/**
 * `Themes`: the preset themes. Seven of them colour each level with a "#RRGGBB"
 * string; `emojiHearts` gives each level a heart emoji and no colour.
 */
module Themes {
  import opened Wrappers
  import opened Levels
  import opened Theming
  import Text

  /** `Theme.Style(color: hex)`. */
  function Colored(hex: string): Style
  {
    NewStyle(Some(hex), None)
  }

  /** `Theme.Style(emoji: e)`. */
  function Emoji(e: string): Style
  {
    NewStyle(None, Some(e))
  }

  const Default: Theme :=
    FromStyles(Colored("#C8C8C8"), Colored("#0000FF"), Colored("#00FF00"), Colored("#FFFB00"), Colored("#FF0000"))
  const Dusk: Theme :=
    FromStyles(Colored("#FFFFFF"), Colored("#526EDA"), Colored("#93C96A"), Colored("#D28F5A"), Colored("#E44347"))
  const Midnight: Theme :=
    FromStyles(Colored("#FFFFFF"), Colored("#527EFF"), Colored("#08FA95"), Colored("#EB905A"), Colored("#FF4647"))
  const Tomorrow: Theme :=
    FromStyles(Colored("#4D4D4C"), Colored("#4271AE"), Colored("#718C00"), Colored("#EAB700"), Colored("#C82829"))
  const TomorrowNight: Theme :=
    FromStyles(Colored("#C5C8C6"), Colored("#81A2BE"), Colored("#B5BD68"), Colored("#F0C674"), Colored("#CC6666"))
  const TomorrowNightEighties: Theme :=
    FromStyles(Colored("#CCCCCC"), Colored("#6699CC"), Colored("#99CC99"), Colored("#FFCC66"), Colored("#F2777A"))
  const TomorrowNightBright: Theme :=
    FromStyles(Colored("#EAEAEA"), Colored("#7AA6DA"), Colored("#B9CA4A"), Colored("#E7C547"), Colored("#D54E53"))
  /** Green, black, blue, yellow and red hearts. */
  const EmojiHearts: Theme :=
    FromStyles(Emoji("\U{1F49A}"), Emoji("\U{1F5A4}"), Emoji("\U{1F499}"), Emoji("\U{1F49B}"), Emoji("\U{2764}\U{FE0F}"))

  /** The seven colour presets, `default` to `tomorrowNightBright`. */
  const ColorPresets: seq<Theme> :=
    [Default, Dusk, Midnight, Tomorrow, TomorrowNight, TomorrowNightEighties, TomorrowNightBright]

  /** Every preset has a style for every level. */
  lemma PresetsComplete(p: Theme)
    requires p in ColorPresets + [EmojiHearts]
    ensures Complete(p)
  {
  }

  /** The styles a colour preset gives a level: raw "#RRGGBB" colour, empty emoji. */
  predicate RawHexStyle(s: Option<Style>)
  {
    s.Some? && s.value.emoji == "" && s.value.color.Some? && IsHexColor(s.value.color.value)
  }

  /** A theme built from five raw "#RRGGBB" colours. */
  lemma ColoredThemeStyles(trace: string, debug: string, info: string, warning: string, error: string, l: Level)
    requires IsHexColor(trace) && IsHexColor(debug) && IsHexColor(info)
    requires IsHexColor(warning) && IsHexColor(error)
    ensures RawHexStyle(StyleFor(FromStyles(Colored(trace), Colored(debug), Colored(info), Colored(warning), Colored(error)), l))
  {
    match l
    case Trace =>
    case Debug =>
    case Info =>
    case Warning =>
    case Error =>
  }

  lemma DefaultStyles(l: Level)
    ensures RawHexStyle(StyleFor(Default, l))
  {
    ColoredThemeStyles("#C8C8C8", "#0000FF", "#00FF00", "#FFFB00", "#FF0000", l);
  }

  lemma DuskStyles(l: Level)
    ensures RawHexStyle(StyleFor(Dusk, l))
  {
    ColoredThemeStyles("#FFFFFF", "#526EDA", "#93C96A", "#D28F5A", "#E44347", l);
  }

  lemma MidnightStyles(l: Level)
    ensures RawHexStyle(StyleFor(Midnight, l))
  {
    ColoredThemeStyles("#FFFFFF", "#527EFF", "#08FA95", "#EB905A", "#FF4647", l);
  }

  lemma TomorrowStyles(l: Level)
    ensures RawHexStyle(StyleFor(Tomorrow, l))
  {
    ColoredThemeStyles("#4D4D4C", "#4271AE", "#718C00", "#EAB700", "#C82829", l);
  }

  lemma TomorrowNightStyles(l: Level)
    ensures RawHexStyle(StyleFor(TomorrowNight, l))
  {
    ColoredThemeStyles("#C5C8C6", "#81A2BE", "#B5BD68", "#F0C674", "#CC6666", l);
  }

  lemma TomorrowNightEightiesStyles(l: Level)
    ensures RawHexStyle(StyleFor(TomorrowNightEighties, l))
  {
    ColoredThemeStyles("#CCCCCC", "#6699CC", "#99CC99", "#FFCC66", "#F2777A", l);
  }

  lemma TomorrowNightBrightStyles(l: Level)
    ensures RawHexStyle(StyleFor(TomorrowNightBright, l))
  {
    ColoredThemeStyles("#EAEAEA", "#7AA6DA", "#B9CA4A", "#E7C547", "#D54E53", l);
  }

  /**
   * In the colour presets no level has an emoji, and each colour is kept as the raw
   * "#RRGGBB" string (it is not passed through formatHex, whose results hold no '#').
   */
  lemma ColorPresetStyles(i: nat, l: Level)
    requires i < |ColorPresets|
    ensures RawHexStyle(StyleFor(ColorPresets[i], l))
  {
    if i == 0 {
      DefaultStyles(l);
    } else if i == 1 {
      DuskStyles(l);
    } else if i == 2 {
      MidnightStyles(l);
    } else if i == 3 {
      TomorrowStyles(l);
    } else if i == 4 {
      TomorrowNightStyles(l);
    } else if i == 5 {
      TomorrowNightEightiesStyles(l);
    } else {
      TomorrowNightBrightStyles(l);
    }
  }

  /** `emojiHearts` has no colours, and every emoji carries the trailing space. */
  lemma EmojiHeartsStyles(l: Level)
    ensures StyleFor(EmojiHearts, l).Some?
    ensures StyleFor(EmojiHearts, l).value.color.None?
    ensures var e := StyleFor(EmojiHearts, l).value.emoji; |e| >= 2 && e[|e| - 1] == ' ' && e[0] != ' '
  {
    match l
    case Trace =>
    case Debug =>
    case Info =>
    case Warning =>
    case Error =>
  }

  /** In `default`, errors are red and debug messages blue. */
  lemma DefaultColors()
    ensures StyleFor(Default, Error).value.color == Some("#FF0000")
    ensures StyleFor(Default, Debug).value.color == Some("#0000FF")
  {
  }

  /**
   * "#FF0000" is full red. Here and in the two lemmas below the channel values come in
   * as parameters pinned by the precondition: stated on the literals, the verifier tries
   * to evaluate the scanner and the decimal printer on constants and runs out of resources.
   */
  lemma RedHexColor(red: nat, zero: nat)
    requires red == 255 && zero == 0
    ensures HexColor(red, zero, zero) == "#FF0000"
  {
    assert HexByte(red) == "FF" && HexByte(zero) == "00";
  }

  /** 255 prints as "255" and 0 as "0". */
  lemma RedDecimals(red: nat, zero: nat)
    requires red == 255 && zero == 0
    ensures Text.NatToDecimal(red) + "," + Text.NatToDecimal(zero) + "," + Text.NatToDecimal(zero) == "255,0,0"
  {
    assert Text.NatToDecimal(red / 10) == "25" by {
      assert Text.NatToDecimal(red / 10 / 10) == "2";
    }
    assert Text.NatToDecimal(red) == "255";
    assert Text.NatToDecimal(zero) == "0";
  }

  /**
   * formatHex on full red. The channels come in as parameters so that the verifier
   * reasons through FormatHexOfHexColor instead of unfolding formatHex on a literal.
   */
  lemma FormatHexOfRed(red: nat, zero: nat)
    requires red == 255 && zero == 0
    ensures FormatHex(HexColor(red, zero, zero)) == "255,0,0"
  {
    FormatHexOfHexColor(red, zero, zero);
    RedDecimals(red, zero);
  }

  /** Through formatHex, the default error colour is the triple 255,0,0. */
  lemma DefaultErrorDecodesToRed()
    ensures FormatHex(StyleFor(Default, Error).value.color.value) == "255,0,0"
  {
    RedHexColor(255, 0);
    FormatHexOfRed(255, 0);
  }
}
