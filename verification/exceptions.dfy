/** The program's exception classes, the configuration-path helpers and the
    way a `ConfigError` renders itself (src/waifu/exceptions.py). */
module Exceptions {
  import opened Text
  import opened PyValues

  /** A `pathlib.Path`: an anchor such as "/" or "C:\" followed by components. */
  datatype Path = Path(anchor: string, parts: seq<string>)

  /** `p / name` for a single path component. */
  function Child(p: Path, name: string): Path {
    Path(p.anchor, p.parts + [name])
  }

  /** `str(p)` with the platform's separator. */
  function Render(p: Path, sep: string): string {
    p.anchor + Join(sep, p.parts)
  }

  /** `get_user_config_path()`: the config file under the user's home directory. */
  function UserConfigPath(home: Path): (r: Path)
    ensures r.anchor == home.anchor
    ensures |r.parts| == |home.parts| + 3 && r.parts[..|home.parts|] == home.parts
    ensures r.parts[|home.parts|..] == [".config", "waifu-roller", "config.yaml"]
  {
    Child(Child(Child(home, ".config"), "waifu-roller"), "config.yaml")
  }

  const TipPrefix := "[TIP] Your configuration file is located at this path: "

  /** The file's place under home: `.config/waifu-roller/config.yaml`. */
  function ConfigFile(sep: string): string {
    ".config" + sep + "waifu-roller" + sep + "config.yaml"
  }

  /** `str()` of the config path: home's own rendering, one separator when home
      has components, then the config file's place. */
  lemma RenderUserConfigPath(home: Path, sep: string)
    ensures |home.parts| == 0 ==> Render(UserConfigPath(home), sep) == home.anchor + ConfigFile(sep)
    ensures |home.parts| > 0 ==>
      Render(UserConfigPath(home), sep) == home.anchor + (Join(sep, home.parts) + (sep + ConfigFile(sep)))
  {
    var tail := [".config", "waifu-roller", "config.yaml"];
    assert UserConfigPath(home).parts == home.parts + tail;
    assert Join(sep, tail) == ConfigFile(sep) by {
      JoinThree(sep, ".config", "waifu-roller", "config.yaml");
    }
    if |home.parts| == 0 {
      assert home.parts + tail == tail;
    } else {
      JoinAppend(sep, home.parts, tail);
    }
  }

  /** The tip's text, stated on its pieces. */
  lemma TipShape(home: Path, sep: string)
    ensures StartsWith(TipPrefix + Render(UserConfigPath(home), sep), TipPrefix + home.anchor)
    ensures |home.parts| > 0 ==> EndsWith(TipPrefix + Render(UserConfigPath(home), sep), sep + ConfigFile(sep))
    ensures |home.parts| == 0 ==> TipPrefix + Render(UserConfigPath(home), sep) == TipPrefix + (home.anchor + ConfigFile(sep))
  {
    RenderUserConfigPath(home, sep);
    var rest := if |home.parts| == 0 then ConfigFile(sep) else Join(sep, home.parts) + (sep + ConfigFile(sep));
    assert TipPrefix + Render(UserConfigPath(home), sep) == (TipPrefix + home.anchor) + rest;
    PrefixOfConcat(TipPrefix + home.anchor, rest);
    if |home.parts| > 0 {
      assert TipPrefix + Render(UserConfigPath(home), sep)
        == (TipPrefix + home.anchor + Join(sep, home.parts)) + (sep + ConfigFile(sep));
      SuffixOfConcat(TipPrefix + home.anchor + Join(sep, home.parts), sep + ConfigFile(sep));
    }
  }

  /** `get_config_path_tip()` */
  function ConfigPathTip(home: Path, sep: string): (r: string)
    ensures StartsWith(r, TipPrefix + home.anchor)
    ensures |home.parts| > 0 ==> EndsWith(r, sep + ConfigFile(sep))
    ensures |home.parts| == 0 ==> r == TipPrefix + (home.anchor + ConfigFile(sep))
  {
    TipShape(home, sep);
    TipPrefix + Render(UserConfigPath(home), sep)
  }

  /** The tip for a home directory of two components. */
  lemma TwoPartHomeTip(anchor: string, a: string, b: string, sep: string)
    ensures ConfigPathTip(Path(anchor, [a, b]), sep) ==
      TipPrefix + anchor + a + sep + b + sep + ".config" + sep + "waifu-roller" + sep + "config.yaml"
  {
    RenderUserConfigPath(Path(anchor, [a, b]), sep);
    JoinTwo(sep, a, b);
    var x := TipPrefix + anchor + a + sep + b + sep;
    assert x + ConfigFile(sep) == x + ".config" + sep + "waifu-roller" + sep + "config.yaml";
  }

  /** The Windows example of `get_user_config_path`'s docstring:
      C:\\Users\\USERNAME\\.config\\waifu-roller\\config.yaml */
  lemma WindowsTip()
    ensures ConfigPathTip(Path("C:\\", ["Users", "USERNAME"]), "\\") ==
      TipPrefix + "C:\\" + "Users" + "\\" + "USERNAME" + "\\" + ".config" + "\\" + "waifu-roller" + "\\" + "config.yaml"
  {
    TwoPartHomeTip("C:\\", "Users", "USERNAME", "\\");
  }

  /** What a configuration problem is about. The first four are rendered
      exactly by `ProblemMessage`; the bad-value messages embed Python's
      `repr` of an arbitrary value, so the model keeps the key and the value. */
  datatype FormatProblem =
    | MissingOption(key: string)            // config.py and src/parser.py
    | MissingDefaultsOption(key: string)    // src/waifu/parser.py
    | WrongType(key: string, expected: PyType, got: PyType)
    | BadOptionValue(key: string, value: PyValue)     // src/parser.py
    | BadDefaultsValue(key: string, value: PyValue)   // src/waifu/parser.py

  function ProblemMessage(p: FormatProblem): string
    requires p.MissingOption? || p.MissingDefaultsOption? || p.WrongType?
  {
    match p
    case MissingOption(k) => "Missing option " + Quote(k) + " in configuration file"
    case MissingDefaultsOption(k) => "Missing defaults option " + Quote(k) + " in configuration file"
    case WrongType(k, e, g) =>
      "Option " + Quote(k) + " should be type " + TypeName(e) + ", got " + TypeName(g) + " instead"
  }

  /** Every exception value the modelled code can raise. */
  datatype Error =
    | ConfigFileError(raised: seq<string>)
    | ConfigFormatError(problem: FormatProblem)
    | DiscordNotOpenError(candidates: seq<string>)
    | CommandError(message: string)
    | DiscordNotFoundError(message: string)
    | OSNotSupportedError(message: string)
    | KeyError(key: string)
    | TypeError(offending: PyType)
    | ValueError(message: string)

  /** The classes of those exceptions, with Python's built-in ones. */
  datatype ExceptionClass =
    | ExceptionBase
    | RollerErrorClass
    | ConfigErrorClass
    | ConfigFileErrorClass
    | ConfigFormatErrorClass
    | DiscordNotOpenErrorClass
    | CommandErrorClass
    | DiscordNotFoundErrorClass
    | OSNotSupportedErrorClass
    | LookupErrorClass
    | KeyErrorClass
    | TypeErrorClass
    | ValueErrorClass

  /** The direct base class of each class (`ExceptionBase` has none in this model). */
  function Base(c: ExceptionClass): ExceptionClass {
    match c
    case ExceptionBase => ExceptionBase
    case RollerErrorClass => ExceptionBase
    case ConfigErrorClass => RollerErrorClass
    case ConfigFileErrorClass => ConfigErrorClass
    case ConfigFormatErrorClass => ConfigErrorClass
    case DiscordNotOpenErrorClass => RollerErrorClass
    case CommandErrorClass => RollerErrorClass
    case DiscordNotFoundErrorClass => ExceptionBase
    case OSNotSupportedErrorClass => ExceptionBase
    case LookupErrorClass => ExceptionBase
    case KeyErrorClass => LookupErrorClass
    case TypeErrorClass => ExceptionBase
    case ValueErrorClass => ExceptionBase
  }

  function Depth(c: ExceptionClass): nat {
    match c
    case ExceptionBase => 0
    case RollerErrorClass => 1
    case LookupErrorClass => 1
    case ConfigErrorClass => 2
    case ConfigFileErrorClass => 3
    case ConfigFormatErrorClass => 3
    case KeyErrorClass => 2
    case DiscordNotOpenErrorClass => 2
    case CommandErrorClass => 2
    case _ => 1
  }

  /** `issubclass(c, ancestor)` */
  predicate IsSubclassOf(c: ExceptionClass, ancestor: ExceptionClass)
    decreases Depth(c)
  {
    c == ancestor || (c != ExceptionBase && IsSubclassOf(Base(c), ancestor))
  }

  /** The class an exception value is an instance of. */
  function ClassOf(e: Error): (c: ExceptionClass)
    ensures IsSubclassOf(c, RollerErrorClass) <==>
      e.ConfigFileError? || e.ConfigFormatError? || e.DiscordNotOpenError? || e.CommandError?
    ensures IsSubclassOf(c, ConfigErrorClass) <==> e.ConfigFileError? || e.ConfigFormatError?
    ensures IsSubclassOf(c, ExceptionBase)
  {
    match e
    case ConfigFileError(_) => ConfigFileErrorClass
    case ConfigFormatError(_) => ConfigFormatErrorClass
    case DiscordNotOpenError(_) => DiscordNotOpenErrorClass
    case CommandError(_) => CommandErrorClass
    case DiscordNotFoundError(_) => DiscordNotFoundErrorClass
    case OSNotSupportedError(_) => OSNotSupportedErrorClass
    case KeyError(_) => KeyErrorClass
    case TypeError(_) => TypeErrorClass
    case ValueError(_) => ValueErrorClass
  }

  /** `ConfigError.__init__`: the arguments given at the raise, then "" and the tip. */
  function ConfigErrorArgs(raised: seq<string>, home: Path, sep: string): (r: seq<string>)
    ensures |r| == |raised| + 2 && r[..|raised|] == raised
    ensures r[|raised|] == "" && r[|raised| + 1] == ConfigPathTip(home, sep)
  {
    raised + ["", ConfigPathTip(home, sep)]
  }

  /** `ConfigError.__str__`: the arguments joined by newlines. The raised
      messages are followed by a blank line and the tip; a bare raise shows
      only the tip after an empty first line. */
  function ConfigErrorText(raised: seq<string>, home: Path, sep: string): (r: string)
    ensures |raised| >= 1 ==> r == Join("\n", raised) + "\n\n" + ConfigPathTip(home, sep)
    ensures |raised| == 1 ==> r == raised[0] + "\n\n" + ConfigPathTip(home, sep)
    ensures |raised| == 0 ==> r == "\n" + ConfigPathTip(home, sep)
  {
    ErrorTextShape("\n", raised, ConfigPathTip(home, sep));
    assert "\n" + "\n" == "\n\n";
    Join("\n", ConfigErrorArgs(raised, home, sep))
  }

  /** Messages, a blank part and the tip, joined by `sep`. */
  lemma ErrorTextShape(sep: string, raised: seq<string>, tip: string)
    ensures |raised| >= 1 ==> Join(sep, raised + ["", tip]) == Join(sep, raised) + (sep + sep) + tip
    ensures |raised| == 1 ==> Join(sep, raised + ["", tip]) == raised[0] + (sep + sep) + tip
    ensures |raised| == 0 ==> Join(sep, raised + ["", tip]) == sep + tip
  {
    JoinBlankThen(sep, raised, tip);
    if |raised| > 0 {
      var j := Join(sep, raised);
      assert j + sep + sep + tip == j + (sep + sep) + tip;
    }
  }
}
