/**
 * `Theme`: a style (optional colour, emoji prefix) for each level, the theme's
 * textual description, and the deprecated hex-colour initialiser with `formatHex`.
 */
module Theming {
  import opened Wrappers
  import opened Levels
  import Text
  import StringExtension

  /** `Theme.Style`: the colour is kept as given; the emoji, when given, gets a trailing space. */
  datatype Style = Style(color: Option<string>, emoji: string)

  /** `Style.init(color:emoji:)`. */
  function NewStyle(color: Option<string>, emoji: Option<string>): (s: Style)
    ensures s.color == color
    ensures emoji.None? ==> s.emoji == ""
    ensures emoji.Some? ==> |s.emoji| == |emoji.value| + 1 && s.emoji[..|emoji.value|] == emoji.value
                            && s.emoji[|emoji.value|] == ' '
  {
    Style(color, if emoji.Some? then emoji.value + " " else "")
  }

  /** A theme holds the dictionary `styles`, fixed once the theme is built. */
  datatype Theme = Theme(styles: map<Level, Style>)

  /** Every level has a style. */
  predicate Complete(t: Theme)
  {
    forall l: Level :: l in t.styles
  }

  /** A map with an entry for each of the five cases is complete. */
  lemma CompleteByCases(t: Theme)
    requires Trace in t.styles && Debug in t.styles && Info in t.styles
    requires Warning in t.styles && Error in t.styles
    ensures Complete(t)
  {
    forall l: Level ensures l in t.styles {
      match l
      case Trace =>
      case Debug =>
      case Info =>
      case Warning =>
      case Error =>
    }
  }

  /** `style(for:)`: the dictionary lookup, `nil` when the level has no entry. */
  function StyleFor(t: Theme, l: Level): (r: Option<Style>)
    ensures r.Some? <==> l in t.styles
    ensures r.Some? ==> r.value == t.styles[l]
  {
    if l in t.styles then Some(t.styles[l]) else None
  }

  /** A complete theme never answers `nil`. */
  lemma StyleForComplete(t: Theme, l: Level)
    requires Complete(t)
    ensures StyleFor(t, l).Some?
  {
  }

  /** `init(trace:debug:info:warning:error:)` with five styles. */
  function FromStyles(trace: Style, debug: Style, info: Style, warning: Style, error: Style): (t: Theme)
    ensures Complete(t)
    ensures StyleFor(t, Trace) == Some(trace) && StyleFor(t, Debug) == Some(debug)
    ensures StyleFor(t, Info) == Some(info) && StyleFor(t, Warning) == Some(warning)
    ensures StyleFor(t, Error) == Some(error)
  {
    var t := Theme(map[Trace := trace, Debug := debug, Info := info, Warning := warning, Error := error]);
    CompleteByCases(t);
    t
  }

  /**
   * The deprecated `init(trace:debug:info:warning:error:)` with five colour strings:
   * each colour goes through `formatHex`, and no level gets an emoji.
   */
  function FromHexColors(trace: string, debug: string, info: string, warning: string, error: string): (t: Theme)
    ensures Complete(t)
    ensures StyleFor(t, Trace) == Some(Style(Some(FormatHex(trace)), ""))
    ensures StyleFor(t, Debug) == Some(Style(Some(FormatHex(debug)), ""))
    ensures StyleFor(t, Info) == Some(Style(Some(FormatHex(info)), ""))
    ensures StyleFor(t, Warning) == Some(Style(Some(FormatHex(warning)), ""))
    ensures StyleFor(t, Error) == Some(Style(Some(FormatHex(error)), ""))
  {
    FromStyles(NewStyle(Some(FormatHex(trace)), None), NewStyle(Some(FormatHex(debug)), None),
               NewStyle(Some(FormatHex(info)), None), NewStyle(Some(FormatHex(warning)), None),
               NewStyle(Some(FormatHex(error)), None))
  }

  /**
   * A text as a style shows it: the emoji prefix, then the text, wrapped in the colour
   * escape exactly when the style has a colour.
   */
  function Styled(style: Style, text: string): (r: string)
    ensures style.color.None? ==> r == style.emoji + text
    ensures style.color.Some? ==> StringExtension.Uncolor(r, style.color.value) == Some(style.emoji + text)
  {
    var plain := style.emoji + text;
    if style.color.Some? then
      StringExtension.UncolorWithColor(plain, style.color.value);
      StringExtension.WithColor(plain, style.color.value)
    else plain
  }

  // ---- description ----

  /** The levels of `ls` that are keys, in the order of `ls`. */
  function FilterLevels(ls: seq<Level>, keys: set<Level>): (r: seq<Level>)
    requires forall i, j :: 0 <= i < j < |ls| ==> Less(ls[i], ls[j])
    ensures forall l :: l in r <==> l in ls && l in keys
    ensures forall i, j :: 0 <= i < j < |r| ==> Less(r[i], r[j])
    ensures |r| <= |ls|
    decreases |ls|
  {
    if ls == [] then []
    else
      var rest := FilterLevels(ls[1..], keys);
      assert forall k :: 0 <= k < |ls[1..]| ==> Less(ls[0], ls[1..][k]) by {
        forall k | 0 <= k < |ls[1..]| ensures Less(ls[0], ls[1..][k]) {
          assert ls[1..][k] == ls[k + 1];
        }
      }
      assert forall k :: 0 <= k < |rest| ==> Less(ls[0], rest[k]) by {
        forall k | 0 <= k < |rest| ensures Less(ls[0], rest[k]) {
          assert rest[k] in ls[1..];
        }
      }
      if ls[0] in keys then [ls[0]] + rest else rest
  }

  /** `styles.keys.sorted()`: the keys in ascending level order. */
  function SortedKeys(keys: set<Level>): (r: seq<Level>)
    ensures forall l :: l in r <==> l in keys
    ensures forall i, j :: 0 <= i < j < |r| ==> Less(r[i], r[j])
  {
    EveryLevelDeclared();
    AllLevelsAscending();
    FilterLevels(AllLevels, keys)
  }

  /** One entry of the description: the level's name as its style shows it. */
  function Label(t: Theme, l: Level): string
    requires l in t.styles
  {
    Styled(t.styles[l], Name(l))
  }

  /** The labels of the given levels, in their order. */
  function Labels(t: Theme, ls: seq<Level>): (r: seq<string>)
    requires forall l :: l in ls ==> l in t.styles
    ensures |r| == |ls|
    decreases |ls|
  {
    if ls == [] then [] else [Label(t, ls[0])] + Labels(t, ls[1..])
  }

  /** `description`: the labels of the levels in ascending order, joined by single spaces. */
  function Description(t: Theme): string
  {
    Text.Join(Labels(t, SortedKeys(t.styles.Keys)), " ")
  }

  lemma {:induction false} FilterKeepsAll(ls: seq<Level>, keys: set<Level>)
    requires forall i, j :: 0 <= i < j < |ls| ==> Less(ls[i], ls[j])
    requires forall l :: l in ls ==> l in keys
    ensures FilterLevels(ls, keys) == ls
    decreases |ls|
  {
    if ls != [] {
      FilterKeepsAll(ls[1..], keys);
    }
  }

  /** Sorting the keys of a complete theme gives the five levels in declaration order. */
  lemma SortedKeysOfComplete(t: Theme)
    requires Complete(t)
    ensures SortedKeys(t.styles.Keys) == AllLevels
  {
    AllLevelsAscending();
    assert forall l :: l in AllLevels ==> l in t.styles.Keys;
    FilterKeepsAll(AllLevels, t.styles.Keys);
  }

  /** A complete theme lists all five levels, trace first and error last. */
  lemma DescriptionOfComplete(t: Theme)
    requires Complete(t)
    ensures Description(t) == Label(t, Trace) + " " + Label(t, Debug) + " " + Label(t, Info) + " "
                              + Label(t, Warning) + " " + Label(t, Error)
  {
    SortedKeysOfComplete(t);
    LabelsOfAllLevels(t);
    Text.JoinFive(Label(t, Trace), Label(t, Debug), Label(t, Info), Label(t, Warning), Label(t, Error), " ");
  }

  lemma LabelsOfAllLevels(t: Theme)
    requires Trace in t.styles && Debug in t.styles && Info in t.styles
    requires Warning in t.styles && Error in t.styles
    ensures Labels(t, AllLevels) == [Label(t, Trace), Label(t, Debug), Label(t, Info), Label(t, Warning), Label(t, Error)]
  {
    var ls := AllLevels;
    assert ls[1..] == [Debug, Info, Warning, Error];
    assert ls[1..][1..] == [Info, Warning, Error];
    assert ls[1..][1..][1..] == [Warning, Error];
    assert ls[1..][1..][1..][1..] == [Error];
    assert ls[1..][1..][1..][1..][1..] == [];
  }

  // ---- formatHex: Foundation's Scanner, then masks and shifts ----

  predicate IsHexDigit(c: char)
  {
    '0' <= c <= '9' || 'a' <= c <= 'f' || 'A' <= c <= 'F'
  }

  function HexDigitValue(c: char): (d: nat)
    requires IsHexDigit(c)
    ensures d < 16
  {
    if '0' <= c <= '9' then (c as int - '0' as int) as nat
    else if 'a' <= c <= 'f' then (c as int - 'a' as int + 10) as nat
    else (c as int - 'A' as int + 10) as nat
  }

  predicate AllHexDigits(s: string)
  {
    forall i :: 0 <= i < |s| ==> IsHexDigit(s[i])
  }

  /** The scanner skips the characters it was told to skip, here '#'. */
  function SkipHashes(s: string): (r: string)
    ensures r == [] || r[0] != '#'
    ensures |r| <= |s| && r == s[|s| - |r|..]
    ensures forall k :: 0 <= k < |s| - |r| ==> s[k] == '#'
    decreases |s|
  {
    if s != [] && s[0] == '#' then SkipHashes(s[1..]) else s
  }

  /** `scanHexInt32` accepts an optional "0x" or "0X" before the digits. */
  function SkipHexPrefix(s: string): string
  {
    if |s| >= 3 && s[0] == '0' && (s[1] == 'x' || s[1] == 'X') && IsHexDigit(s[2]) then s[2..] else s
  }

  /** The longest run of hexadecimal digits at the start of `s`. */
  function HexRun(s: string): (r: string)
    ensures r <= s && AllHexDigits(r)
    ensures |r| < |s| ==> !IsHexDigit(s[|r|])
    decreases |s|
  {
    if s != [] && IsHexDigit(s[0]) then [s[0]] + HexRun(s[1..]) else []
  }

  /** The number a string of hexadecimal digits denotes. */
  function HexValue(ds: string): nat
    requires AllHexDigits(ds)
    decreases |ds|
  {
    if ds == [] then 0 else HexValue(ds[..|ds| - 1]) * 16 + HexDigitValue(ds[|ds| - 1])
  }

  const UInt32Max: nat := 0xFFFF_FFFF

  /**
   * `scanHexInt32` into a `UInt32` that starts at 0: no digits leave 0, and a value
   * that does not fit saturates at `UInt32.max`.
   */
  function ScanHexInt32(s: string): (v: nat)
    ensures v <= UInt32Max
  {
    var full := HexValue(HexRun(SkipHexPrefix(SkipHashes(s))));
    if full > UInt32Max then UInt32Max else full
  }

  /** Splitting a number into its low three bytes. */
  lemma ByteDecomposition(v: nat)
    ensures (v / 0x1_0000) % 0x100 * 0x1_0000 + (v / 0x100) % 0x100 * 0x100 + v % 0x100 == v % 0x100_0000
  {
    var low, q1 := v % 0x100, v / 0x100;
    var mid, q2 := q1 % 0x100, q1 / 0x100;
    var high, q3 := q2 % 0x100, q2 / 0x100;
    assert v == q1 * 0x100 + low;
    assert q1 == q2 * 0x100 + mid;
    assert q2 == q3 * 0x100 + high;
    assert q2 == v / 0x1_0000;
    assert v == q3 * 0x100_0000 + (high * 0x1_0000 + mid * 0x100 + low);
    assert 0 <= high * 0x1_0000 + mid * 0x100 + low < 0x100_0000;
  }

  /**
   * `(hex & 0xFF0000) >> 16`, `(hex & 0xFF00) >> 8` and `hex & 0xFF` on a `UInt32`,
   * written with division and remainder (equal for non-negative values).
   */
  function Channels(v: nat): (c: (nat, nat, nat))
    requires v <= UInt32Max
    ensures c.0 < 256 && c.1 < 256 && c.2 < 256
    ensures c.0 * 0x1_0000 + c.1 * 0x100 + c.2 == v % 0x100_0000
  {
    ByteDecomposition(v);
    ((v / 0x1_0000) % 0x100, (v / 0x100) % 0x100, v % 0x100)
  }

  /** `formatHex`: the red, green and blue bytes in decimal, separated by ",". */
  function FormatHex(hex: string): (r: string)
    ensures 5 <= |r| <= 11
  {
    var c := Channels(ScanHexInt32(hex));
    Text.ByteDecimalWidth(c.0);
    Text.ByteDecimalWidth(c.1);
    Text.ByteDecimalWidth(c.2);
    Text.NatToDecimal(c.0) + "," + Text.NatToDecimal(c.1) + "," + Text.NatToDecimal(c.2)
  }

  // ---- "#RRGGBB" colours and what formatHex makes of them ----

  function HexChar(d: nat): (c: char)
    requires d < 16
    ensures IsHexDigit(c) && HexDigitValue(c) == d
  {
    "0123456789ABCDEF"[d]
  }

  /** A byte as two upper-case hexadecimal digits. */
  function HexByte(n: nat): (r: string)
    requires n < 256
    ensures |r| == 2 && AllHexDigits(r)
  {
    [HexChar(n / 16), HexChar(n % 16)]
  }

  /** The colour "#RRGGBB" with the given channels. */
  function HexColor(red: nat, green: nat, blue: nat): (r: string)
    requires red < 256 && green < 256 && blue < 256
    ensures |r| == 7 && r[0] == '#' && AllHexDigits(r[1..])
  {
    "#" + HexByte(red) + HexByte(green) + HexByte(blue)
  }

  /** "#RRGGBB" as the presets write it: '#' and six hexadecimal digits. */
  predicate IsHexColor(s: string)
  {
    |s| == 7 && s[0] == '#' && AllHexDigits(s[1..])
  }

  lemma {:induction false} HexRunOfHexDigits(s: string)
    requires AllHexDigits(s)
    ensures HexRun(s) == s
    decreases |s|
  {
    if s != [] {
      HexRunOfHexDigits(s[1..]);
    }
  }

  lemma HexValueAppendByte(ds: string, n: nat)
    requires AllHexDigits(ds) && n < 256
    ensures AllHexDigits(ds + HexByte(n))
    ensures HexValue(ds + HexByte(n)) == HexValue(ds) * 256 + n
  {
    var s := ds + HexByte(n);
    assert s[..|s| - 1] == ds + [HexChar(n / 16)];
    assert (ds + [HexChar(n / 16)])[..|ds|] == ds;
  }

  /** The number 0xRRGGBB. */
  function Rgb(red: nat, green: nat, blue: nat): nat
  {
    red * 0x1_0000 + green * 0x100 + blue
  }

  lemma ChannelsOfBytes(red: nat, green: nat, blue: nat)
    requires red < 256 && green < 256 && blue < 256
    ensures Rgb(red, green, blue) <= UInt32Max
    ensures Channels(Rgb(red, green, blue)) == (red, green, blue)
  {
    var v := Rgb(red, green, blue);
    // the decomposition of a number below 2^24 into three bytes is unique
    assert v == (red * 0x100 + green) * 0x100 + blue;
    assert v / 0x100 == red * 0x100 + green && v % 0x100 == blue;
    assert (red * 0x100 + green) / 0x100 == red && (red * 0x100 + green) % 0x100 == green;
    assert v / 0x1_0000 == red;
  }

  /** The scanner reads "#RRGGBB" as the number 0xRRGGBB. */
  lemma ScanHexOfHexColor(red: nat, green: nat, blue: nat)
    requires red < 256 && green < 256 && blue < 256
    ensures ScanHexInt32(HexColor(red, green, blue)) == Rgb(red, green, blue)
  {
    var digits := HexByte(red) + HexByte(green) + HexByte(blue);
    var s := HexColor(red, green, blue);
    assert s == "#" + digits;
    assert s[1..] == digits;
    assert SkipHashes(s) == digits;
    assert SkipHexPrefix(digits) == digits;
    HexRunOfHexDigits(digits);
    HexValueAppendByte([], red);
    assert [] + HexByte(red) == HexByte(red);
    HexValueAppendByte(HexByte(red), green);
    HexValueAppendByte(HexByte(red) + HexByte(green), blue);
    assert HexValue(digits) == red * 0x1_0000 + green * 0x100 + blue;
  }

  /** formatHex decodes "#RRGGBB" into the three channels, in decimal. */
  lemma FormatHexOfHexColor(red: nat, green: nat, blue: nat)
    requires red < 256 && green < 256 && blue < 256
    ensures FormatHex(HexColor(red, green, blue))
            == Text.NatToDecimal(red) + "," + Text.NatToDecimal(green) + "," + Text.NatToDecimal(blue)
  {
    ScanHexOfHexColor(red, green, blue);
    ChannelsOfBytes(red, green, blue);
    FormatHexOfChannels(HexColor(red, green, blue), red, green, blue);
  }

  /** The byte the two hexadecimal digits at `i` and `i + 1` denote, either case. */
  function HexPair(s: string, i: nat): (b: nat)
    requires i + 1 < |s| && IsHexDigit(s[i]) && IsHexDigit(s[i + 1])
    ensures b < 256
  {
    HexDigitValue(s[i]) * 16 + HexDigitValue(s[i + 1])
  }

  lemma HexValueAppendPair(ds: string, a: char, b: char)
    requires AllHexDigits(ds) && IsHexDigit(a) && IsHexDigit(b)
    ensures AllHexDigits(ds + [a, b])
    ensures HexValue(ds + [a, b]) == HexValue(ds) * 256 + HexDigitValue(a) * 16 + HexDigitValue(b)
  {
    var s := ds + [a, b];
    assert s[..|s| - 1] == ds + [a];
    assert (ds + [a])[..|ds|] == ds;
  }

  /** The scanner reads any "#RRGGBB", upper- or lower-case, as the number 0xRRGGBB. */
  lemma ScanHexOfColorText(s: string)
    requires IsHexColor(s)
    ensures ScanHexInt32(s) == Rgb(HexPair(s, 1), HexPair(s, 3), HexPair(s, 5))
  {
    var digits := s[1..];
    ColorTextDigits(s);
    SixDigitsValue(digits);
    assert HexPair(digits, 0) == HexPair(s, 1) && HexPair(digits, 2) == HexPair(s, 3) && HexPair(digits, 4) == HexPair(s, 5);
    ChannelsOfBytes(HexPair(s, 1), HexPair(s, 3), HexPair(s, 5));
  }

  /** Of "#RRGGBB" the scanner skips the '#' and reads all six digits. */
  lemma ColorTextDigits(s: string)
    requires IsHexColor(s)
    ensures HexRun(SkipHexPrefix(SkipHashes(s))) == s[1..]
  {
    SkipHashesOfColorText(s);
    SkipHexPrefixOfDigits(s[1..]);
    HexRunOfHexDigits(s[1..]);
  }

  lemma SkipHashesOfColorText(s: string)
    requires IsHexColor(s)
    ensures SkipHashes(s) == s[1..]
  {
    var digits := s[1..];
    assert IsHexDigit(digits[0]);
    assert SkipHashes(s) == SkipHashes(digits);
  }

  /** No "0x" prefix can start a run of hexadecimal digits, since 'x' is not one. */
  lemma SkipHexPrefixOfDigits(d: string)
    requires |d| >= 2 && IsHexDigit(d[1])
    ensures SkipHexPrefix(d) == d
  {
  }

  lemma SixDigitsValue(d: string)
    requires |d| == 6 && AllHexDigits(d)
    ensures HexValue(d) == Rgb(HexPair(d, 0), HexPair(d, 2), HexPair(d, 4))
  {
    var p1 := [d[0], d[1]];
    var p2 := p1 + [d[2], d[3]];
    assert d == p2 + [d[4], d[5]];
    HexValueAppendPair([], d[0], d[1]);
    assert [] + [d[0], d[1]] == p1;
    HexValueAppendPair(p1, d[2], d[3]);
    HexValueAppendPair(p2, d[4], d[5]);
  }

  /** formatHex decodes any "#RRGGBB" into its three channels, in decimal. */
  lemma FormatHexOfColorText(s: string)
    requires IsHexColor(s)
    ensures FormatHex(s) == Text.NatToDecimal(HexPair(s, 1)) + "," + Text.NatToDecimal(HexPair(s, 3))
                            + "," + Text.NatToDecimal(HexPair(s, 5))
  {
    ScanHexOfColorText(s);
    ChannelsOfBytes(HexPair(s, 1), HexPair(s, 3), HexPair(s, 5));
    FormatHexOfChannels(s, HexPair(s, 1), HexPair(s, 3), HexPair(s, 5));
  }

  lemma FormatHexOfChannels(hex: string, red: nat, green: nat, blue: nat)
    requires Channels(ScanHexInt32(hex)) == (red, green, blue)
    ensures FormatHex(hex) == Text.NatToDecimal(red) + "," + Text.NatToDecimal(green) + "," + Text.NatToDecimal(blue)
  {
  }
}
