/** The string rewrites of the application logger (`utils/logging.py`): the
    record factory that swaps level names for emoji and derives the `child`
    field, the centring factory, and the names of child loggers. Handlers,
    levels, filters and the formatter's layout are not modelled. */
module LogFormat {

  /** Level names and their emoji. */
  const LevelEmojis: map<string, string> :=
    map["DEBUG" := "\U{1F41E}", "INFO" := "\U{1F4E2}", "WARNING" := "\U{1F440}",
        "ERROR" := "\U{2757}", "CRITICAL" := "\U{1F4A5}"]

  /** Logger names and their emoji. */
  const NameEmojis: map<string, string> := map["APP" := "\U{1F310}", "DB" := "\U{1F5C4}\U{FE0F}"]

  /** The application logger's name. */
  const Root: string := "APP"

  /** The width the centring factory pads level names to. */
  const LevelWidth: int := 7

  /** `s.removeprefix(p)`. */
  function RemovePrefix(s: string, p: string): (r: string)
    ensures p <= s ==> p + r == s
    ensures !(p <= s) ==> r == s
  {
    if p <= s then s[|p|..] else s
  }

  /** `logger.getChild(suffix)` on the application logger. */
  function GetChild(suffix: string): string {
    Root + "." + suffix
  }

  /** The `child` field the emoji factory sets: the name without one leading
      "APP.", or "" when that leaves "APP". */
  function Child(name: string): (child: string)
    ensures child == "" <==> name in {"", "APP", "APP.", "APP.APP"}
    ensures child != "" && "APP." <= name ==> name == "APP." + child
    ensures child != "" && !("APP." <= name) ==> child == name
  {
    var rest := RemovePrefix(name, Root + ".");
    assert "APP." <= "APP.APP" && "APP.APP"[4..] == "APP";
    assert "APP." <= "APP." && "APP."[4..] == "";
    if rest == Root then
      assert "APP." <= name ==> name == "APP." + "APP" == "APP.APP";
      ""
    else
      assert rest == "" && "APP." <= name ==> name == "APP.";
      rest
  }

  /** A child logger's records carry the suffix it was created with, except
      for the one child also called "APP". */
  lemma ChildOfGetChild(suffix: string)
    ensures Child(GetChild(suffix)) == if suffix == Root then "" else suffix
  {
    assert GetChild(suffix) == "APP." + suffix;
    assert RemovePrefix(GetChild(suffix), "APP.") == suffix;
  }

  /** `get_module_logger(module_name)`. */
  function ModuleLoggerName(moduleName: string): (name: string)
    ensures moduleName != Root ==> Child(name) == moduleName
  {
    ChildOfGetChild(moduleName);
    GetChild(moduleName)
  }

  /** `s[n:]` for n >= 0: empty once n passes the end. */
  function Drop(s: string, n: nat): (r: string)
    ensures n <= |s| ==> s == s[..n] + r
    ensures n >= |s| ==> r == ""
  {
    if n <= |s| then s[n..] else ""
  }

  /** `get_lib_logger(lib_name)`: the path below the project's "src/" in
      brackets; `rootLength` is the length of that directory prefix. */
  function LibLoggerName(libName: string, rootLength: nat): (name: string)
    ensures Child(name) == "[" + Drop(libName, rootLength) + "]"
  {
    assert ("[" + Drop(libName, rootLength) + "]")[0] == '[';
    ChildOfGetChild("[" + Drop(libName, rootLength) + "]");
    GetChild("[" + Drop(libName, rootLength) + "]")
  }

  /** `get_ad_processing_logger(stage_emoji)`. */
  function AdProcessingLoggerName(stage: string): (name: string)
    ensures Child(name) == "[\U{1F4F2}\U{1F916}" + stage + "]"
  {
    ChildOfGetChild("[\U{1F4F2}\U{1F916}" + stage + "]");
    GetChild("[\U{1F4F2}\U{1F916}" + stage + "]")
  }

  /** `str.isspace` for one character. */
  predicate IsSpace(c: char) {
    c in {'\t', '\n', '\U{0B}', '\U{0C}', '\r', '\U{1C}', '\U{1D}', '\U{1E}', '\U{1F}', ' ',
          '\U{85}', '\U{A0}', '\U{1680}', '\U{2000}', '\U{2001}', '\U{2002}', '\U{2003}',
          '\U{2004}', '\U{2005}', '\U{2006}', '\U{2007}', '\U{2008}', '\U{2009}', '\U{200A}',
          '\U{2028}', '\U{2029}', '\U{202F}', '\U{205F}', '\U{3000}'}
  }

  /** `s.lstrip()`. */
  function StripLeft(s: string): (r: string)
    ensures |r| <= |s| && r == s[|s| - |r|..]
    ensures forall i :: 0 <= i < |s| - |r| ==> IsSpace(s[i])
    ensures r == [] || !IsSpace(r[0])
    decreases |s|
  {
    if s != [] && IsSpace(s[0]) then StripLeft(s[1..]) else s
  }

  /** `s.rstrip()`. */
  function StripRight(s: string): (r: string)
    ensures |r| <= |s| && r == s[..|r|]
    ensures forall i :: |r| <= i < |s| ==> IsSpace(s[i])
    ensures r == [] || !IsSpace(r[|r| - 1])
    decreases |s|
  {
    if s != [] && IsSpace(s[|s| - 1]) then StripRight(s[..|s| - 1]) else s
  }

  /** `s.strip()`. */
  function Strip(s: string): string {
    StripRight(StripLeft(s))
  }

  function Spaces(n: nat): (r: string)
    ensures |r| == n && forall i :: 0 <= i < n ==> r[i] == ' '
  {
    seq(n, _ => ' ')
  }

  /** How many of the `width - |s|` pad characters `s.center(width)` puts on
      the left: half, plus the odd one when both the margin and the width
      are odd. */
  function CenterLeft(length: nat, width: int): (left: nat)
    requires length < width
    ensures var margin := width - length;
      && left <= margin
      && -1 <= left - (margin - left) <= 1
      && (width % 2 == 1 ==> left >= margin - left)
  {
    var margin := width - length;
    margin / 2 + (if margin % 2 == 1 && width % 2 == 1 then 1 else 0)
  }

  /** `s.center(width, " ")`. */
  function Center(s: string, width: int): (r: string)
    ensures |s| >= width ==> r == s
    ensures |s| < width ==> |r| == width
    ensures |s| < width ==>
              var left := CenterLeft(|s|, width);
              && r[left..left + |s|] == s
              && forall i :: (0 <= i < left || left + |s| <= i < |r|) ==> r[i] == ' '
  {
    if |s| >= width then s
    else
      var left := CenterLeft(|s|, width);
      var r := Spaces(left) + s + Spaces(width - |s| - left);
      assert r[left..left + |s|] == s;
      r
  }

  /** `old_factory` followed by the rewrites of `emoji_record_factory`. */
  datatype Record = Record(name: string, levelname: string, child: string)

  /** The level name the emoji factory shows. */
  function EmojiLevelname(levelname: string): (shown: string)
    ensures Strip(levelname) in LevelEmojis ==> shown == LevelEmojis[Strip(levelname)]
    ensures Strip(levelname) !in LevelEmojis ==> shown == levelname
  {
    var key := Strip(levelname);
    if key in LevelEmojis then LevelEmojis[key] else levelname
  }

  /** `emoji_record_factory`: the record's name becomes the application's
      emoji whatever logger made it, because the lookup key is the constant
      "APP". */
  function EmojiRecord(name: string, levelname: string): (r: Record)
    ensures r.name == "\U{1F310}"
    ensures r.child == Child(name)
    ensures r.levelname == EmojiLevelname(levelname)
    ensures r.child == "" <==> name in {"", "APP", "APP.", "APP.APP"}
    ensures r.levelname == levelname || r.levelname in LevelEmojis.Values
  {
    var globe := NameEmojis[Root];
    assert globe == "\U{1F310}";
    var shown := EmojiLevelname(levelname);
    assert Strip(levelname) in LevelEmojis ==> shown in LevelEmojis.Values;
    var child := Child(name);
    assert child == "" <==> name in {"", "APP", "APP.", "APP.APP"};
    Record(globe, shown, child)
  }

  /** `record_factory`: the level name centred in seven characters. */
  function CenteredLevelname(levelname: string): (r: string)
    ensures |r| == if |levelname| >= LevelWidth then |levelname| else LevelWidth
  {
    Center(levelname, LevelWidth)
  }

  /** Leading spaces do not change what `lstrip` returns. */
  lemma {:induction false} StripLeftAppend(t: string, u: string)
    ensures StripLeft(t + u) == if StripLeft(t) == [] then StripLeft(u) else StripLeft(t) + u
    decreases |t|
  {
    if t == [] {
      assert t + u == u;
    } else {
      assert (t + u)[0] == t[0];
      assert (t + u)[1..] == t[1..] + u;
      if IsSpace(t[0]) {
        StripLeftAppend(t[1..], u);
      }
    }
  }

  lemma {:induction false} StripRightSpaces(t: string, b: nat)
    ensures StripRight(t + Spaces(b)) == StripRight(t)
    decreases b
  {
    if b > 0 {
      var s := t + Spaces(b);
      assert s[|s| - 1] == ' ';
      assert s[..|s| - 1] == t + Spaces(b - 1);
      StripRightSpaces(t, b - 1);
    } else {
      assert t + Spaces(b) == t;
    }
  }

  /** Centring pads with spaces only, so stripping afterwards sees the same text. */
  lemma StripCenter(s: string, width: int)
    ensures Strip(Center(s, width)) == Strip(s)
  {
    if |s| < width {
      var left := CenterLeft(|s|, width);
      var right := width - |s| - left;
      var c := Center(s, width);
      assert c == Spaces(left) + (s + Spaces(right));
      assert StripLeft(Spaces(left)) == [];
      StripLeftAppend(Spaces(left), s + Spaces(right));
      StripLeftAppend(s, Spaces(right));
      assert StripLeft(Spaces(right)) == [];
      if StripLeft(s) != [] {
        StripRightSpaces(StripLeft(s), right);
      }
    }
  }

  /** Were the centring factory installed under the emoji factory, the padded
      level names would still find their emoji, since the lookup strips them. */
  lemma CenteredLevelGetsEmoji(level: string)
    requires level in LevelEmojis
    ensures EmojiLevelname(CenteredLevelname(level)) == LevelEmojis[level]
  {
    StripCenter(level, LevelWidth);
    LevelNamesTrimmed(level);
  }

  lemma LevelNamesTrimmed(level: string)
    requires level in LevelEmojis
    ensures Strip(level) == level
  {
    assert level == "DEBUG" || level == "INFO" || level == "WARNING" || level == "ERROR" || level == "CRITICAL";
    StripTrimmed(level);
  }

  /** Text with no space at either end is its own strip. */
  lemma StripTrimmed(s: string)
    requires s == [] || (!IsSpace(s[0]) && !IsSpace(s[|s| - 1]))
    ensures Strip(s) == s
  {
  }

  /** The record an ad-processing logger makes for an INFO message: the
      globe and the megaphone for the first bracket of the line, and the
      stage bracket as its child field. */
  lemma AdProcessingInfoRecord(stage: string)
    ensures EmojiRecord(AdProcessingLoggerName(stage), "INFO")
            == Record("\U{1F310}", "\U{1F4E2}", "[\U{1F4F2}\U{1F916}" + stage + "]")
  {
    LevelNamesTrimmed("INFO");
  }
}
