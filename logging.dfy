/** The level-gated logger of bmcweb (`crow::vlog` and the `BMCWEB_LOG_*`
    entry points): a call at a severity passes the configured threshold or
    does nothing; a passing call writes one line
    `<priority>[file:line] message` to standard output.

    The pure part (`FileName`, `Prefix`, `LegacyPrefix`, `Emission`) says what
    one call does; the class `Logger` holds the state the source mutates (the
    function-local static threshold and the standard output stream) and its
    method `Vlog` builds the line step by step as the source does. */
module Logging {
  import opened Lookup
  import opened Decimal
  import opened LogLevels

  /** Which of the two compile-time branches of `vlog` is built: `Modern`
      (GCC newer than 12, `std::format`) or `Legacy` (GCC 12 and older,
      `snprintf` for the prefix and {fmt} for the message). */
  datatype Toolchain = Modern | Legacy

  /** What formatting the caller's template with its arguments gave: the
      text, or a `format_error` thrown by the formatting library. */
  datatype FormatOutcome = Formatted(text: string) | FormatError

  /** What one call to `vlog` does: nothing, end the process (an exception
      escaping the `noexcept` routine calls `std::terminate`), or write one
      line. */
  datatype Effect = Suppressed | Aborted | Emitted(line: string)

  /** The text logged in place of a message that failed to format. */
  const FailedToFormat: string := "Failed to format"

  /** `sizeof(prefix)`: the stack buffer of the legacy branch. */
  const PrefixBufferSize: nat := 256

  /** The last path component of a source file path: the text after the last
      '/'. `substr(rfind('/'))` keeps the '/' and everything after it, and
      `remove_prefix(1)` drops the '/'. Without a '/', `rfind` gives `npos`
      and `substr(npos)` throws `std::out_of_range`: `None`. */
  function FileName(path: string): (r: Option<string>)
    ensures r.None? <==> '/' !in path
    ensures r.Some? ==>
      var name := r.value;
      |name| < |path| && '/' !in name &&
      path[|path| - |name| - 1] == '/' && path[|path| - |name|..] == name
  {
    match LastIndexOf(path, '/')
    case None => None
    case Some(k) =>
      var tail := path[k..];
      Some(if tail != [] then tail[1..] else tail)
  }

  /** The file name is determined by the path: whenever a path is a
      directory part, a '/' and a text without '/', that text is what
      `FileName` gives. */
  lemma FileNameOfJoin(dir: string, name: string)
    requires '/' !in name
    ensures FileName(dir + "/" + name) == Some(name)
  {
    var path := dir + "/" + name;
    assert path[|dir|] == '/';
    assert path[|path| - |name|..] == name;
  }

  /** A path that ends in '/' has an empty file name. */
  lemma FileNameOfDirectory(path: string)
    requires |path| > 0 && path[|path| - 1] == '/'
    ensures FileName(path) == Some([])
  {
    assert path == path[..|path| - 1] + "/" + [];
    FileNameOfJoin(path[..|path| - 1], []);
  }

  /** `"/a/b/c.ext"` gives `"c.ext"`; a path with no '/' aborts the call. */
  lemma FileNameExamples()
    ensures FileName("/a/b/c.ext") == Some("c.ext")
    ensures FileName("c.ext") == None
  {
    assert "/a/b/c.ext" == "/a/b" + "/" + "c.ext";
    FileNameOfJoin("/a/b", "c.ext");
  }

  /** The location prefix `<priority>[file:line] ` exactly as
      `std::format("<{}>[{}:{}] ", ...)` renders it, and as `snprintf` would
      write it into an unbounded buffer. */
  function Prefix(level: LogLevel, name: string, line: uint32): string {
    "<" + Text(ToSystemdLevel(level) as nat) + ">[" + name + ":" + Text(line as nat) + "] "
  }

  /** The value `snprintf` returns for the prefix: the length of the full
      text, or a negative value when that length does not fit in an `int`. */
  function SnprintfReturn(full: string): int {
    if |full| <= INT_MAX then |full| else -1
  }

  function Min(a: int, b: int): int {
    if a <= b then a else b
  }

  /** The part of the prefix the legacy branch appends: when `snprintf`
      returns `n > 0`, the first `min(n, 255)` characters it wrote into the
      256-byte buffer; otherwise nothing. */
  function LegacyPrefix(full: string): (s: string)
    ensures |s| <= PrefixBufferSize - 1
    ensures s <= full
    ensures 0 < |full| < PrefixBufferSize ==> s == full
    ensures 0 < |full| <= INT_MAX ==> |s| == Min(|full|, PrefixBufferSize - 1)
  {
    var n := SnprintfReturn(full);
    if n > 0 then full[..Min(n, PrefixBufferSize - 1)] else ""
  }

  /** The text that follows the prefix. */
  function Body(message: FormatOutcome): string {
    match message
    case Formatted(text) => text
    case FormatError => FailedToFormat
  }

  /** The text `vlog` builds in `logLocation` before the message: the whole
      prefix on the modern branch, what `snprintf` left in the buffer on the
      legacy one. */
  function Head(toolchain: Toolchain, level: LogLevel, name: string, line: uint32): string {
    var full := Prefix(level, name, line);
    if toolchain == Modern then full else LegacyPrefix(full)
  }

  /** A complete log line: the head, the message or its placeholder, and the
      newline. */
  function Line(head: string, message: FormatOutcome): string {
    head + Body(message) + "\n"
  }

  /** What `vlog<level>` does under `threshold` when called from line `line`
      of the file at `path`, with `message` the outcome of formatting. */
  function Emission(toolchain: Toolchain, threshold: LogLevel, level: LogLevel,
                    path: string, line: uint32, message: FormatOutcome): Effect
  {
    if Below(threshold, level) then Suppressed
    else
      match FileName(path)
      case None => Aborted
      case Some(name) => Emitted(Line(Head(toolchain, level, name, line), message))
  }

  /** A line ends in the one newline appended after the message, and the
      message (or its placeholder) sits right after the head. */
  lemma LineShape(head: string, message: FormatOutcome)
    ensures var l := Line(head, message);
      |l| == |head| + |Body(message)| + 1 && l[|l| - 1] == '\n' &&
      l[..|head|] == head && l[|head|..|l| - 1] == Body(message)
  {
    var l := Line(head, message);
    assert l[..|head|] == head;
    assert l[|head|..|l| - 1] == Body(message);
  }

  /** A call does nothing exactly when the threshold is below its severity,
      and otherwise aborts exactly when the path has no '/'. */
  lemma EmissionGate(toolchain: Toolchain, threshold: LogLevel, level: LogLevel,
                     path: string, line: uint32, message: FormatOutcome)
    ensures Emission(toolchain, threshold, level, path, line, message).Suppressed?
      <==> Below(threshold, level)
    ensures Emission(toolchain, threshold, level, path, line, message).Aborted?
      <==> !Below(threshold, level) && '/' !in path
  {
  }

  /** A call that writes, writes one line that ends in a newline, with the
      message or its placeholder just before it. */
  lemma EmittedLineEnds(toolchain: Toolchain, threshold: LogLevel, level: LogLevel,
                        path: string, line: uint32, message: FormatOutcome)
    requires Emission(toolchain, threshold, level, path, line, message).Emitted?
    ensures var l := Emission(toolchain, threshold, level, path, line, message).line;
      |l| > |Body(message)| && l[|l| - 1] == '\n' &&
      l[|l| - 1 - |Body(message)|..|l| - 1] == Body(message)
  {
    var name := FileName(path).value;
    LineShape(Head(toolchain, level, name, line), message);
  }

  /** The priority is always a single digit. */
  lemma PriorityIsOneDigit(level: LogLevel)
    ensures Text(ToSystemdLevel(level) as nat) == [DigitChar(ToSystemdLevel(level) as nat)]
  {
  }

  /** With a message that formats, the line is
      `"<" + digit(priority) + ">[" + name + ":" + decimal(line) + "] " + text + "\n"`. */
  lemma FormattedLine(threshold: LogLevel, level: LogLevel, dir: string, name: string,
                      line: uint32, text: string)
    requires !Below(threshold, level) && '/' !in name
    ensures Emission(Modern, threshold, level, dir + "/" + name, line, Formatted(text))
      == Emitted("<" + [DigitChar(ToSystemdLevel(level) as nat)] + ">[" + name + ":"
                 + Text(line as nat) + "] " + text + "\n")
    ensures Parse(Text(line as nat)) == line as nat
  {
    FileNameOfJoin(dir, name);
    PriorityIsOneDigit(level);
    ParseText(line as nat);
  }

  /** A message that fails to format still yields one line: the same prefix
      followed by `Failed to format` and the newline; no part of the message
      appears, and the line is the same whatever the formatting failure. */
  lemma FailedLine(toolchain: Toolchain, threshold: LogLevel, level: LogLevel,
                   path: string, line: uint32, text: string)
    requires !Below(threshold, level) && '/' in path
    ensures
      var ok := Emission(toolchain, threshold, level, path, line, Formatted(text));
      var failed := Emission(toolchain, threshold, level, path, line, FormatError);
      ok.Emitted? && failed.Emitted? &&
      failed.line == ok.line[..|ok.line| - 1 - |text|] + "Failed to format\n"
  {
    var head := Head(toolchain, level, FileName(path).value, line);
    LineShape(head, Formatted(text));
  }

  /** For a file name of at most 238 characters the full prefix fits the
      256-byte buffer, and the legacy branch writes the same line as the
      modern one. */
  lemma LegacyAgreesWithModern(threshold: LogLevel, level: LogLevel, path: string,
                               line: uint32, message: FormatOutcome)
    requires FileName(path).Some? ==> |FileName(path).value| <= 238
    ensures Emission(Legacy, threshold, level, path, line, message)
      == Emission(Modern, threshold, level, path, line, message)
  {
    if FileName(path).Some? {
      Uint32TextLength(line);
      PriorityIsOneDigit(level);
    }
  }

  /** A call that writes under one threshold writes the same line under every
      higher threshold. */
  lemma GateMonotoneInThreshold(toolchain: Toolchain, low: LogLevel, high: LogLevel,
                                level: LogLevel, path: string, line: uint32,
                                message: FormatOutcome)
    requires !Below(high, low)
    requires !Emission(toolchain, low, level, path, line, message).Suppressed?
    ensures Emission(toolchain, high, level, path, line, message)
      == Emission(toolchain, low, level, path, line, message)
  {
  }

  /** A threshold that lets a severity through lets every more severe one
      through. */
  lemma GateMonotoneInLevel(toolchain: Toolchain, threshold: LogLevel, level: LogLevel,
                            moreSevere: LogLevel, path: string, line: uint32,
                            message: FormatOutcome)
    requires !Below(level, moreSevere)
    requires !Emission(toolchain, threshold, level, path, line, message).Suppressed?
    ensures !Emission(toolchain, threshold, moreSevere, path, line, message).Suppressed?
  {
  }

  /** The severities of the five entry points. */
  predicate IsEntryLevel(level: LogLevel) {
    level in {Critical, Error, Warning, Info, Debug}
  }

  /** `Disabled` silences every entry point and `Enabled` silences none. */
  lemma DisabledAndEnabled(toolchain: Toolchain, level: LogLevel, path: string,
                           line: uint32, message: FormatOutcome)
    requires IsEntryLevel(level)
    ensures Emission(toolchain, Disabled, level, path, line, message) == Suppressed
    ensures !Emission(toolchain, Enabled, level, path, line, message).Suppressed?
  {
  }

  /** Under threshold `Info`, an error logged from line 42 of
      `/src/server.cpp` with the message `request failed: 404` writes
      `<3>[server.cpp:42] request failed: 404` and a newline; under threshold
      `Warning` a debug message writes nothing. */
  lemma ServerScenario()
    ensures Emission(Modern, Info, Error, "/src/server.cpp", 42, Formatted("request failed: 404"))
      == Emitted("<3>[server.cpp:42] request failed: 404\n")
    ensures Emission(Modern, Warning, Debug, "/src/server.cpp", 42, Formatted("x=1"))
      == Suppressed
  {
    var head, text := "<3>[server.cpp:42] ", "request failed: 404";
    assert head + text + "\n" == "<3>[server.cpp:42] request failed: 404\n";
    ServerLocation();
    assert Line(head, Formatted(text)) == head + text + "\n";
    assert Emission(Modern, Info, Error, "/src/server.cpp", 42, Formatted(text))
      == Emitted(Line(head, Formatted(text)));
  }

  /** The location part of that scenario's line. */
  lemma ServerLocation()
    ensures FileName("/src/server.cpp") == Some("server.cpp")
    ensures Head(Modern, Error, "server.cpp", 42) == "<3>[server.cpp:42] "
  {
    assert "/src/server.cpp" == "/src" + "/" + "server.cpp";
    FileNameOfJoin("/src", "server.cpp");
    ServerPrefix();
  }

  lemma ServerPrefix()
    ensures Prefix(Error, "server.cpp", 42) == "<3>[server.cpp:42] "
  {
    var p := ToSystemdLevel(Error);
    assert Text(p as nat) == "3";
    assert Text(42) == "42" by {
      assert Text(4) == "4";
    }
    assert "<" + "3" + ">[" + "server.cpp" + ":" + "42" + "] " == "<3>[server.cpp:42] ";
  }

  /** The body of the `std::formatter<void*>` specialisation, which exists
      only on the modern branch: `std::to_string` of the pointer's bit
      pattern as a `size_t`, a decimal numeral that reads back as the
      address. Which formatter a logged pointer argument reaches is not
      part of this model. */
  function PointerText(address: uint64): (s: string)
    ensures Canonical(s)
    ensures Parse(s) == address as nat
    ensures |s| <= 20
  {
    ParseText(address as nat);
    Pow10Add(10, 10);
    assert Pow10(10) == 10_000_000_000;
    TextLength(address as nat, 20);
    Text(address as nat)
  }

  /** The process-wide state the logger touches. */
  class Logger {
    /** `BMCWEB_LOGGING_LEVEL`, the configured threshold name. */
    const configuredName: string
    /** The compiler branch of `vlog` this build uses. */
    const toolchain: Toolchain
    /** Whether the function-local static of `getBmcwebCurrentLoggingLevel`
        has been initialised. */
    var levelInitialised: bool
    /** That static, once initialised. */
    var level: LogLevel
    /** Everything written to standard output. */
    var stdout: string
    /** Whether `std::terminate` has ended the process. */
    var terminated: bool

    /** The value `getBmcwebCurrentLoggingLevel()` returns when called now. */
    function Threshold(): LogLevel
      reads this
    {
      if levelInitialised then level else GetLogLevelFromName(configuredName)
    }

    /** What the state is after a call whose effect is `e`, given the output
        before the call. */
    ghost predicate Performed(e: Effect, before: string)
      reads this
    {
      match e
      case Suppressed => stdout == before && !terminated
      case Aborted => stdout == before && terminated
      case Emitted(text) => stdout == before + text && !terminated
    }

    /** Process start: nothing written, threshold not yet read. */
    constructor (configuredName: string, toolchain: Toolchain)
      ensures this.configuredName == configuredName && this.toolchain == toolchain
      ensures !levelInitialised && stdout == [] && !terminated
      ensures Threshold() == GetLogLevelFromName(configuredName)
    {
      this.configuredName := configuredName;
      this.toolchain := toolchain;
      levelInitialised := false;
      level := Disabled;
      stdout := [];
      terminated := false;
    }

    /** `getBmcwebCurrentLoggingLevel()` read: the first call initialises the
        static from the configured name; every call returns the static. */
    method CurrentLevel() returns (t: LogLevel)
      modifies this`levelInitialised, this`level
      ensures levelInitialised && level == t
      ensures t == old(Threshold())
      ensures !old(levelInitialised) ==> t == GetLogLevelFromName(configuredName)
    {
      if !levelInitialised {
        level := GetLogLevelFromName(configuredName);
        levelInitialised := true;
      }
      t := level;
    }

    /** `getBmcwebCurrentLoggingLevel() = t`: an assignment through the
        returned reference (which initialises the static first). */
    method SetLevel(t: LogLevel)
      modifies this`levelInitialised, this`level
      ensures levelInitialised && Threshold() == t
    {
      var _ := CurrentLevel();
      level := t;
    }

    /** `crow::vlog<level>`: read the threshold; stop if it is below `level`;
        cut the path to its file name; build the prefix, append the message
        or `Failed to format`, append a newline and write the line. */
    method Vlog(level: LogLevel, path: string, line: uint32, message: FormatOutcome)
      requires !terminated
      modifies this`levelInitialised, this`level, this`stdout, this`terminated
      ensures levelInitialised && Threshold() == old(Threshold())
      ensures Performed(Emission(toolchain, old(Threshold()), level, path, line, message), old(stdout))
    {
      var threshold := CurrentLevel();
      if Below(threshold, level) {
        return;
      }
      var name := FileName(path);
      if name.None? {
        terminated := true;
        return;
      }
      var full := Prefix(level, name.value, line);
      var logLocation := "";
      if toolchain == Modern {
        logLocation := full;
      } else {
        var n := SnprintfReturn(full);
        if n > 0 {
          logLocation := logLocation + full[..Min(n, PrefixBufferSize - 1)];
        }
      }
      assert logLocation == Head(toolchain, level, name.value, line);
      match message {
        case Formatted(text) => logLocation := logLocation + text;
        case FormatError => logLocation := logLocation + FailedToFormat;
      }
      logLocation := logLocation + "\n";
      assert logLocation == Line(Head(toolchain, level, name.value, line), message);
      stdout := stdout + logLocation;
    }

    /** `BMCWEB_LOG_CRITICAL`. */
    method LogCritical(path: string, line: uint32, message: FormatOutcome)
      requires !terminated
      modifies this`levelInitialised, this`level, this`stdout, this`terminated
      ensures levelInitialised && Threshold() == old(Threshold())
      ensures Performed(Emission(toolchain, old(Threshold()), Critical, path, line, message), old(stdout))
    {
      Vlog(Critical, path, line, message);
    }

    /** `BMCWEB_LOG_ERROR`. */
    method LogError(path: string, line: uint32, message: FormatOutcome)
      requires !terminated
      modifies this`levelInitialised, this`level, this`stdout, this`terminated
      ensures levelInitialised && Threshold() == old(Threshold())
      ensures Performed(Emission(toolchain, old(Threshold()), Error, path, line, message), old(stdout))
    {
      Vlog(Error, path, line, message);
    }

    /** `BMCWEB_LOG_WARNING`. */
    method LogWarning(path: string, line: uint32, message: FormatOutcome)
      requires !terminated
      modifies this`levelInitialised, this`level, this`stdout, this`terminated
      ensures levelInitialised && Threshold() == old(Threshold())
      ensures Performed(Emission(toolchain, old(Threshold()), Warning, path, line, message), old(stdout))
    {
      Vlog(Warning, path, line, message);
    }

    /** `BMCWEB_LOG_INFO`. */
    method LogInfo(path: string, line: uint32, message: FormatOutcome)
      requires !terminated
      modifies this`levelInitialised, this`level, this`stdout, this`terminated
      ensures levelInitialised && Threshold() == old(Threshold())
      ensures Performed(Emission(toolchain, old(Threshold()), Info, path, line, message), old(stdout))
    {
      Vlog(Info, path, line, message);
    }

    /** `BMCWEB_LOG_DEBUG`. */
    method LogDebug(path: string, line: uint32, message: FormatOutcome)
      requires !terminated
      modifies this`levelInitialised, this`level, this`stdout, this`terminated
      ensures levelInitialised && Threshold() == old(Threshold())
      ensures Performed(Emission(toolchain, old(Threshold()), Debug, path, line, message), old(stdout))
    {
      Vlog(Debug, path, line, message);
    }
  }

  /** A client: a service configured at `INFO` logs an error, which is
      written, and a debug message, which is not. */
  method ServerClient() {
    var log := new Logger("INFO", Modern);
    NameRoundTrip(Info);
    assert LevelName(Info) == "INFO";
    assert log.Threshold() == Info;
    ServerScenario();
    ghost var expected := "<3>[server.cpp:42] request failed: 404\n";
    log.LogError("/src/server.cpp", 42, Formatted("request failed: 404"));
    assert log.stdout == [] + expected;
    assert Emission(Modern, Info, Debug, "/src/server.cpp", 43, Formatted("x=1")) == Suppressed;
    log.LogDebug("/src/server.cpp", 43, Formatted("x=1"));
    assert log.stdout == expected;
  }
}
