/**
 * The `String` extension: the colour escape wrapper and the two `NSString` path
 * operations the formatter uses on call-site file paths.
 */
module StringExtension {
  import opened Wrappers

  /** The escape character `\u{001b}`. */
  const Esc: char := '\U{1B}'

  /** What `withColor` puts before the text. */
  function ColorOpening(color: string): string
  {
    [Esc] + "[fg" + color + ";"
  }

  /** What `withColor` puts after the text. */
  const ColorClosing: string := [Esc] + "[;"

  /** `s.withColor(color)`: the text framed by the colour escape pair. */
  function WithColor(s: string, color: string): (r: string)
    ensures |r| == |s| + |color| + 8
  {
    ColorOpening(color) + s + ColorClosing
  }

  /** Partner of `WithColor`: takes the frame for `color` off again, if it is there. */
  function Uncolor(t: string, color: string): (r: Option<string>)
    ensures r.Some? ==> |r.value| + |color| + 8 == |t|
  {
    var open := ColorOpening(color);
    if |t| >= |open| + |ColorClosing| && t[..|open|] == open && t[|t| - |ColorClosing|..] == ColorClosing
    then Some(t[|open|..|t| - |ColorClosing|])
    else None
  }

  /** The text survives colouring unchanged: removing the frame gives it back. */
  lemma UncolorWithColor(s: string, color: string)
    ensures Uncolor(WithColor(s, color), color) == Some(s)
  {
    var t := WithColor(s, color);
    var open := ColorOpening(color);
    assert t[..|open|] == open;
    assert t[|t| - |ColorClosing|..] == ColorClosing;
    assert t[|open|..|t| - |ColorClosing|] == s;
  }

  /** Every string the frame can be taken off was made by `WithColor`. */
  lemma WithColorUncolor(t: string, color: string)
    requires Uncolor(t, color).Some?
    ensures WithColor(Uncolor(t, color).value, color) == t
  {
    var open := ColorOpening(color);
    var s := Uncolor(t, color).value;
    assert t == t[..|open|] + t[|open|..|t| - |ColorClosing|] + t[|t| - |ColorClosing|..];
  }

  /** Different texts stay different once coloured. */
  lemma WithColorInjective(s: string, s': string, color: string)
    requires WithColor(s, color) == WithColor(s', color)
    ensures s == s'
  {
    UncolorWithColor(s, color);
    UncolorWithColor(s', color);
  }

  // ---- Paths ----

  /** The index of the last occurrence of `c` in `s`, or -1. */
  function LastIndexOf(s: string, c: char): (k: int)
    ensures -1 <= k < |s|
    ensures k >= 0 ==> s[k] == c
    ensures forall j :: k < j < |s| ==> s[j] != c
    decreases |s|
  {
    if s == [] then -1
    else if s[|s| - 1] == c then |s| - 1
    else LastIndexOf(s[..|s| - 1], c)
  }

  /** `s` without its trailing path separators. */
  function TrimTrailingSlashes(s: string): (r: string)
    ensures r <= s
    ensures r == [] || r[|r| - 1] != '/'
    ensures forall j :: |r| <= j < |s| ==> s[j] == '/'
    decreases |s|
  {
    if s != [] && s[|s| - 1] == '/' then TrimTrailingSlashes(s[..|s| - 1]) else s
  }

  /**
   * `lastPathComponent` (Foundation's NSString): trailing separators are ignored,
   * the root path "/" stays "/", and otherwise the text after the last '/' is returned.
   */
  function LastPathComponent(path: string): (r: string)
    ensures path != [] ==> r != []
    ensures '/' !in r || r == "/"
  {
    if path == [] then ""
    else
      var t := TrimTrailingSlashes(path);
      if t == [] then "/" else t[LastIndexOf(t, '/') + 1..]
  }

  /**
   * `deletingPathExtension` (Foundation's NSString): trailing separators are dropped,
   * the root path stays "/", and the last '.' of the last component and everything
   * after it are removed, unless that '.' starts the component.
   */
  function DeletingPathExtension(path: string): (r: string)
    ensures r <= path
    ensures path != [] ==> r != []
  {
    if path == [] then ""
    else
      var t := TrimTrailingSlashes(path);
      if t == [] then "/" else StripExtension(t)
  }

  /** A path without trailing separators, less the extension of its last component. */
  function StripExtension(t: string): (r: string)
    ensures r <= t
  {
    var start := LastIndexOf(t, '/') + 1;
    var dot := LastIndexOf(t[start..], '.');
    if dot > 0 then t[..start + dot] else t
  }

  /**
   * The last component is a suffix of the path once trailing separators are dropped, and
   * it is the whole component: what comes before it, if anything, is a '/'.
   */
  lemma LastPathComponentIsWholeComponent(path: string)
    ensures var r := LastPathComponent(path);
            var t := TrimTrailingSlashes(path);
            r != "/" ==> |r| <= |t| && t[|t| - |r|..] == r && (|r| < |t| ==> t[|t| - |r| - 1] == '/')
  {
    if path != [] && TrimTrailingSlashes(path) != [] {
      var t := TrimTrailingSlashes(path);
      SuffixAfter(t, LastIndexOf(t, '/') + 1);
    }
  }

  /** The text from `start` on, where `start` is 0 or just after a '/', is a suffix of `t` preceded by that '/'. */
  lemma SuffixAfter(t: string, start: nat)
    requires start <= |t| && (start > 0 ==> t[start - 1] == '/')
    ensures |t[start..]| <= |t|
    ensures t[|t| - |t[start..]|..] == t[start..]
    ensures |t[start..]| < |t| ==> t[|t| - |t[start..]| - 1] == '/'
  {
    assert |t| - |t[start..]| == start;
  }

  /**
   * A '.' at `dot` of the last component `t[start..]`, with no later '.', starts a tail
   * of `t` holding neither a '/' nor another '.'; when it is not the component's first
   * character, what precedes it is not a '/'.
   */
  lemma ComponentExtension(t: string, start: nat, dot: nat)
    requires start + dot < |t|
    requires forall j :: start <= j < |t| ==> t[j] != '/'
    requires t[start..][dot] == '.'
    requires forall j :: dot < j < |t| - start ==> t[start..][j] != '.'
    ensures t[start + dot] == '.'
    ensures '/' !in t[start + dot..] && '.' !in t[start + dot + 1..]
    ensures dot > 0 ==> t[start + dot - 1] != '/'
  {
    var u, v, w := t[start..], t[start + dot..], t[start + dot + 1..];
    assert forall j :: 0 <= j < |u| ==> u[j] == t[start + j];
    assert forall j :: 0 <= j < |v| ==> v[j] == t[start + dot + j];
    assert forall j :: 0 <= j < |w| ==> w[j] == t[start + dot + 1 + j];
  }

  lemma StripExtensionRemovesExtension(t: string)
    ensures var r := StripExtension(t);
            |r| < |t| ==> t[|r|] == '.' && '/' !in t[|r|..] && '.' !in t[|r| + 1..]
    ensures var r := StripExtension(t);
            |r| < |t| ==> |r| > 0 && t[|r| - 1] != '/'
  {
    var start := LastIndexOf(t, '/') + 1;
    var dot := LastIndexOf(t[start..], '.');
    if dot > 0 {
      ComponentExtension(t, start, dot);
    }
  }

  /**
   * Only an extension goes: a '.' followed by a text with no '/' and no '.', and never a
   * '.' that starts the last component, so a dot-file keeps its name.
   */
  lemma DeletingPathExtensionRemovesExtension(path: string)
    ensures var r := DeletingPathExtension(path);
            var t := TrimTrailingSlashes(path);
            |r| < |t| ==> t[|r|] == '.' && '/' !in t[|r|..] && '.' !in t[|r| + 1..]
    ensures var r := DeletingPathExtension(path);
            var t := TrimTrailingSlashes(path);
            |r| < |t| ==> |r| > 0 && t[|r| - 1] != '/'
  {
    if path != [] && TrimTrailingSlashes(path) != [] {
      StripExtensionRemovesExtension(TrimTrailingSlashes(path));
    }
  }

  /**
   * Conversely, an extension is always removed: a '.' in the last component that is not
   * its first character makes the result shorter than the path without its trailing separators.
   */
  lemma DeletingPathExtensionRemovesPresentExtension(path: string, j: nat)
    requires var t := TrimTrailingSlashes(path);
             0 < j < |t| && t[j] == '.' && t[j - 1] != '/' && forall i :: j <= i < |t| ==> t[i] != '/'
    ensures |DeletingPathExtension(path)| < |TrimTrailingSlashes(path)|
  {
    StripExtensionShortens(TrimTrailingSlashes(path), j);
  }

  lemma StripExtensionShortens(t: string, j: nat)
    requires 0 < j < |t| && t[j] == '.' && t[j - 1] != '/'
    requires forall i :: j <= i < |t| ==> t[i] != '/'
    ensures |StripExtension(t)| < |t|
  {
    var start := LastIndexOf(t, '/') + 1;
    assert start < j;
    var u := t[start..];
    assert u[j - start] == '.';
    assert LastIndexOf(u, '.') >= j - start;
  }

  /** A `#file` path "dir/name" has last component "name", whatever the directory. */
  lemma LastPathComponentOfFile(dir: string, name: string)
    requires name != [] && '/' !in name
    ensures LastPathComponent(dir + "/" + name) == name
  {
    var p := dir + "/" + name;
    assert p[|p| - 1] == name[|name| - 1];
    assert TrimTrailingSlashes(p) == p;
    var k := LastIndexOf(p, '/');
    assert p[|dir|] == '/';
    assert p[|dir| + 1..] == name;
  }

  /** `LastIndexOf` is pinned down by its contract. */
  lemma LastIndexOfIs(s: string, c: char, k: int)
    requires -1 <= k < |s| && (k >= 0 ==> s[k] == c)
    requires forall j :: k < j < |s| ==> s[j] != c
    ensures LastIndexOf(s, c) == k
  {
  }

  /** `DeletingPathExtension` of a path without trailing separators, once the last '/' and the last '.' after it are known. */
  lemma DeletingPathExtensionAt(t: string, start: nat, dot: int)
    requires t != [] && t[|t| - 1] != '/'
    requires LastIndexOf(t, '/') + 1 == start
    requires LastIndexOf(t[start..], '.') == dot
    ensures DeletingPathExtension(t) == if dot > 0 then t[..start + dot] else t
  {
    TrimmedIsFixed(t);
  }

  /** A path that does not end in a separator has none to trim. */
  lemma TrimmedIsFixed(t: string)
    requires t == [] || t[|t| - 1] != '/'
    ensures TrimTrailingSlashes(t) == t
  {
  }

  /** The extension of "name.ext" is "ext": deleting it leaves "name". */
  lemma DeletingPathExtensionOfName(name: string, ext: string)
    requires name != [] && '/' !in name && '.' !in name
    requires '/' !in ext && '.' !in ext
    ensures DeletingPathExtension(name + "." + ext) == name
  {
    var p := name + "." + ext;
    forall j | 0 <= j < |p|
      ensures p[j] != '/'
      ensures j > |name| ==> p[j] != '.'
    {
      if j < |name| { assert p[j] == name[j]; }
      else if j > |name| { assert p[j] == ext[j - |name| - 1]; }
    }
    assert TrimTrailingSlashes(p) == p;
    LastIndexOfIs(p, '/', -1);
    assert p[0..] == p;
    LastIndexOfIs(p, '.', |name|);
    assert p[..|name|] == name;
  }
}
