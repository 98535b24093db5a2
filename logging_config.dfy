/**
 * The logging setup of base_django_app/logging_config.py: the filter that drops static and media
 * requests and records a shortened file name, the colouring formatter, the extra `DEBUGV` level and
 * the rotating file handlers. `logging.Formatter.format` is the `rendered` text handed to the
 * formatter, and the colour codes `termcolor` produces are the fields of a `Palette`.
 */
module LoggingConfig {
  import opened Wrappers
  import opened Strings

  // ---------------------------------------------------------------------------------------------
  // Levels

  const NotSet: int := 0
  const Debug: int := 10
  const Info: int := 20
  const Warning: int := 30
  const Error: int := 40
  const Critical: int := 50
  /** `CustomLogger.DEBUG_LEVELV_NUM`. */
  const DebugVLevel: int := 60

  /**
   * `Logger.isEnabledFor(level)`: a disabled logger and a level at or below the manager's
   * `disable` emit nothing; otherwise the level must reach the effective level.
   */
  predicate Enabled(disabled: bool, managerDisable: int, effectiveLevel: int, level: int) {
    !disabled && managerDisable < level && level >= effectiveLevel
  }

  /** A logger that emits at some level emits at every higher level. */
  lemma EnabledUpward(disabled: bool, managerDisable: int, effectiveLevel: int, level: int, higher: int)
    requires Enabled(disabled, managerDisable, effectiveLevel, level) && level <= higher
    ensures Enabled(disabled, managerDisable, effectiveLevel, higher)
  {
  }

  /** `DEBUGV` sits above `CRITICAL`: a logger that emits critical records emits `debugv` ones. */
  lemma DebugVAboveCritical(disabled: bool, managerDisable: int, effectiveLevel: int)
    requires Enabled(disabled, managerDisable, effectiveLevel, Critical)
    ensures Enabled(disabled, managerDisable, effectiveLevel, DebugVLevel)
  {
    EnabledUpward(disabled, managerDisable, effectiveLevel, Critical, DebugVLevel);
  }

  /** A `CustomLogger`, with the records it has handed on to its handlers. */
  class CustomLogger {
    var disabled: bool
    var managerDisable: int
    var effectiveLevel: int
    var emitted: seq<(int, string)>

    /**
     * `CustomLogger(name, level)`: `getEffectiveLevel` is the logger's own level unless that is
     * `NOTSET`, in which case it is `inherited`, the level the walk up the hierarchy finds (`NOTSET`
     * when no ancestor has one). `logging.disable` is global state, given as `disableLevel`.
     */
    constructor (level: int, inherited: int, disableLevel: int)
      ensures !disabled && managerDisable == disableLevel && emitted == []
      ensures effectiveLevel == if level != NotSet then level else inherited
    {
      disabled := false;
      managerDisable := disableLevel;
      effectiveLevel := if level != NotSet then level else inherited;
      emitted := [];
    }

    predicate IsEnabledFor(level: int)
      reads this
    {
      Enabled(disabled, managerDisable, effectiveLevel, level)
    }

    /** `debugv`: logs at level 60 exactly when the logger is enabled for it. */
    method DebugV(msg: string)
      modifies this
      ensures emitted == old(emitted) + (if old(IsEnabledFor(DebugVLevel)) then [(DebugVLevel, msg)] else [])
      ensures disabled == old(disabled) && managerDisable == old(managerDisable)
      ensures effectiveLevel == old(effectiveLevel)
    {
      if IsEnabledFor(DebugVLevel) {
        emitted := emitted + [(DebugVLevel, msg)];
      }
    }
  }

  // ---------------------------------------------------------------------------------------------
  // The record filter

  const StaticRequest: string := "GET /static"
  const MediaRequest: string := "GET /media"
  const ProdStaticRequest: string := "GET /prod_static"

  /**
   * `skip_static_or_media_requests` on the record's message: false, dropping the record, exactly
   * when one of the three request prefixes occurs somewhere in it.
   */
  function SkipStaticOrMediaRequests(message: string): (keep: bool)
    ensures !keep <==> exists i: nat ::
      || OccursAt(message, StaticRequest, i)
      || OccursAt(message, MediaRequest, i)
      || OccursAt(message, ProdStaticRequest, i)
  {
    ContainsIff(message, StaticRequest);
    ContainsIff(message, MediaRequest);
    ContainsIff(message, ProdStaticRequest);
    !(Contains(message, StaticRequest) || Contains(message, MediaRequest) || Contains(message, ProdStaticRequest))
  }

  /** A request line for a static file is dropped wherever it stands in the message. */
  lemma StaticRequestDropped(before: string, path: string)
    ensures !SkipStaticOrMediaRequests(before + StaticRequest + path)
  {
    var m := before + StaticRequest + path;
    assert m[|before|..|before| + |StaticRequest|] == StaticRequest;
    assert OccursAt(m, StaticRequest, |before|);
  }

  /** The number of trailing path parts `AppFilter.filter` keeps. */
  const MaxLen: nat := 3

  /**
   * `short_filename`: a path with fewer than three `/`-separated parts is kept whole, a longer one
   * is cut to its last three parts. Either way it is a suffix of the path.
   */
  function ShortFilename(pathname: string): (r: string)
    ensures IsSuffix(r, pathname)
    ensures |Split(pathname, '/')| < MaxLen ==> r == pathname
    ensures |Split(pathname, '/')| >= MaxLen ==> Split(r, '/') == LastOf(Split(pathname, '/'), MaxLen)
  {
    var parts := Split(pathname, '/');
    if |parts| < MaxLen then pathname
    else
      var tail := LastOf(parts, MaxLen);
      SplitTail(pathname, '/', 3);
      Join(tail, ['/'])
  }

  /** `parts[-n:]` for `n` no more than the number of parts. */
  function LastOf(parts: seq<string>, n: nat): seq<string>
    requires n <= |parts|
  {
    parts[|parts| - n..]
  }

  /** The two branches `ShortFilename` takes. */
  lemma ShortFilenameCases(pathname: string)
    ensures var parts := Split(pathname, '/');
      ShortFilename(pathname) == if |parts| < MaxLen then pathname else Join(LastOf(parts, MaxLen), ['/'])
  {
  }

  /** The attributes of a `LogRecord` the filter and the formatter use. */
  class LogRecord {
    var pathname: string
    var message: string
    var levelname: string
    /** Absent until a filter sets it. */
    var shortFilename: Option<string>

    constructor (pathname: string, message: string, levelname: string)
      ensures this.pathname == pathname && this.message == message && this.levelname == levelname
      ensures shortFilename == None
    {
      this.pathname := pathname;
      this.message := message;
      this.levelname := levelname;
      shortFilename := None;
    }
  }

  /** `AppFilter`: a `CallbackFilter` whose callback judges the record's message. */
  class AppFilter {
    const callback: string -> bool

    constructor (callback: string -> bool)
      ensures this.callback == callback
    {
      this.callback := callback;
    }

    /**
     * `filter`: sets `short_filename`, then answers `CallbackFilter.filter`, which is 1 when the
     * callback accepts the record and 0 otherwise.
     */
    method Filter(record: LogRecord) returns (verdict: int)
      modifies record
      ensures record.shortFilename == Some(ShortFilename(old(record.pathname)))
      ensures record.pathname == old(record.pathname) && record.message == old(record.message)
      ensures record.levelname == old(record.levelname)
      ensures verdict == if callback(record.message) then 1 else 0
    {
      var pathname := record.pathname;
      var shortFilenameSplit := Split(pathname, '/');
      var shortFilename;
      if |shortFilenameSplit| < MaxLen {
        shortFilename := pathname;
      } else {
        shortFilename := Join(LastOf(shortFilenameSplit, MaxLen), "/");
      }
      ShortFilenameCases(pathname);
      record.shortFilename := Some(shortFilename);
      verdict := if callback(record.message) then 1 else 0;
    }
  }

  /** The filter of the `LOGGING` configuration keeps exactly the records that are not static requests. */
  method ConfiguredFilter(record: LogRecord) returns (verdict: int)
    modifies record
    ensures record.shortFilename == Some(ShortFilename(old(record.pathname)))
    ensures verdict == if SkipStaticOrMediaRequests(old(record.message)) then 1 else 0
  {
    var filter := new AppFilter(SkipStaticOrMediaRequests);
    verdict := filter.Filter(record);
  }

  // ---------------------------------------------------------------------------------------------
  // The formatter

  const Endc: string := "\U{1B}[0m"
  /** `ColorConsole.BOLD`, the one colour the formatter takes from the base class. */
  const Bold: string := "\U{1B}[1m"

  /** The codes `ColorConsole2` takes from `termcolor`, each cut before the reset code. */
  datatype Palette = Palette(
    header: string, okBlue: string, okGreen: string, debug: string, warning: string,
    error: string, critical: string, bold: string, underline: string)

  /** `ColorConsole2.LOG_COLORS`. */
  function LogColors(p: Palette): map<string, seq<string>> {
    map[
      "header" := [p.header], "info" := [p.okGreen], "debug" := [p.debug], "warning" := [p.warning],
      "debugv" := [p.debug], "error" := [p.error], "exception" := [p.error],
      "critical" := [p.critical, p.bold, p.underline], "level 60" := [p.debug], "ending" := [Endc]]
  }

  /** The colour put before the message body: the level's codes, stripped, then bold. */
  function MessagePrefix(levelname: string, p: Palette): string {
    var colors := LogColors(p);
    var key := Lower(levelname);
    Strip(Join(if key in colors then colors[key] else [p.okBlue], "")) + Bold
  }

  /** `LOG_COLORS.get("ending", ...)`, joined. */
  function MessageSuffix(p: Palette): (r: string)
    ensures r == Endc
  {
    var colors := LogColors(p);
    Join(if "ending" in colors then colors["ending"] else [Endc], "")
  }

  /**
   * `get_formatted`: the text before the first `#` becomes the coloured header, everything after it
   * (later `#`s included) the coloured body. Without a `#` the unpacking raises `ValueError`.
   */
  function GetFormatted(msg: string, levelname: string, p: Palette): (r: Result<string>)
    ensures r.Err? <==> '#' !in msg
    ensures r.Ok? ==> exists header, body ::
      && '#' !in header && msg == header + "#" + body
      && r.value == p.header + header + Endc + ":" + MessagePrefix(levelname, p) + body + Endc
  {
    match SplitOnce(msg, '#')
    case None => Err("ValueError")
    case Some((header, body)) =>
      var headerFormatted := p.header + header + Endc;
      var msgFormatted := MessagePrefix(levelname, p) + body + MessageSuffix(p);
      assert msg == header + "#" + body;
      assert headerFormatted + ":" + msgFormatted
        == p.header + header + Endc + ":" + MessagePrefix(levelname, p) + body + Endc;
      Ok(headerFormatted + ":" + msgFormatted)
  }

  /** The header ends at the first `#` and the body keeps every later `#`. */
  lemma FormattedParts(header: string, body: string, levelname: string, p: Palette)
    requires '#' !in header
    ensures GetFormatted(header + "#" + body, levelname, p)
      == Ok(p.header + header + Endc + ":" + MessagePrefix(levelname, p) + body + Endc)
  {
    IndexOfAfter(header, '#', body);
    var msg := header + "#" + body;
    assert msg == header + ['#'] + body;
    assert msg[..|header|] == header && msg[|header| + 1..] == body;
    assert SplitOnce(msg, '#') == Some((header, body));
    var prefix := MessagePrefix(levelname, p);
    assert (p.header + header + Endc) + ":" + (prefix + body + MessageSuffix(p))
      == p.header + header + Endc + ":" + prefix + body + Endc;
  }

  /** A level name the colour table does not know (matched lower-cased) gets the blue prefix. */
  lemma UnknownLevelIsBlue(levelname: string, p: Palette)
    requires Lower(levelname) !in LogColors(p)
    ensures MessagePrefix(levelname, p) == Strip(p.okBlue) + Bold
  {
    assert Join([p.okBlue], "") == p.okBlue;
  }

  /** `INFO` records get the green prefix. */
  lemma InfoIsGreen(p: Palette)
    ensures MessagePrefix("INFO", p) == Strip(p.okGreen) + Bold
  {
    assert Lower("INFO") == "info" by {
      assert Lower("INFO") == [LowerChar('I')] + Lower("NFO");
      assert Lower("NFO") == [LowerChar('N')] + Lower("FO");
      assert Lower("FO") == [LowerChar('F')] + Lower("O");
      assert Lower("O") == [LowerChar('O')] + Lower("");
    }
    assert Join([p.okGreen], "") == p.okGreen;
  }

  /** `CustomFormatter`: `fmt` is `self._style._fmt`. */
  class CustomFormatter {
    var fmt: string
    const palette: Palette

    constructor (fmt: string, palette: Palette)
      ensures this.fmt == fmt && this.palette == palette
    {
      this.fmt := fmt;
      this.palette := palette;
    }

    /**
     * `format`: colours the text the base formatter rendered for the record, and leaves the
     * template as it found it, also when `get_formatted` raises.
     */
    method Format(rendered: string, levelname: string) returns (r: Result<string>)
      modifies this
      ensures fmt == old(fmt)
      ensures r == GetFormatted(rendered, levelname, palette)
    {
      var formatOrig := fmt;
      r := GetFormatted(rendered, levelname, palette);
      if r.Err? {
        return;
      }
      fmt := formatOrig;
    }
  }

  // ---------------------------------------------------------------------------------------------
  // Handlers

  /** One entry of `LOGGING["handlers"]`; `level` and `filename` are None where it sets none. */
  datatype Handler = Handler(
    kind: string, level: Option<int>, filename: Option<string>, formatter: string,
    filters: seq<string>, backupCount: Option<nat>, maxBytes: Option<nat>)

  const BackupCount: nat := 10
  const MaxBytes: nat := 1024 * 1024 * 15

  function RotatingFileHandler(filename: string): Handler {
    Handler("logging.handlers.RotatingFileHandler", Some(Info), Some(filename), "custom", ["app_filter"],
      Some(BackupCount), Some(MaxBytes))
  }

  /**
   * `LOGGING["handlers"]` for the two log file names: both file handlers rotate at 15 MiB, keep ten
   * backups and log from INFO up; all three handlers go through the custom formatter and the filter.
   */
  function Handlers(logFileName: string, internalLogFileName: string): (hs: map<string, Handler>)
    ensures hs.Keys == {"file", "console", "internal_handler"}
    ensures forall name :: name in hs ==> hs[name].formatter == "custom" && hs[name].filters == ["app_filter"]
    ensures hs["file"].filename == Some(logFileName) && hs["internal_handler"].filename == Some(internalLogFileName)
    ensures forall name :: name in hs && name != "console" ==>
      && hs[name].level == Some(Info)
      && hs[name].backupCount == Some(10)
      && hs[name].maxBytes == Some(15728640)
  {
    map[
      "file" := RotatingFileHandler(logFileName),
      "console" := Handler("logging.StreamHandler", None, None, "custom", ["app_filter"], None, None),
      "internal_handler" := RotatingFileHandler(internalLogFileName)]
  }
}
