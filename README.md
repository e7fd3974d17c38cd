# bmcweb level-gated logger, modelled in Dafny

This project models the logging façade of bmcweb (`http/logging.hpp`, namespace
`crow`). It covers the severity enumeration `LogLevel` and the
`toSystemdLevel` table, which maps a severity to a syslog priority on the
severity scale of section 6.2.1 of RFC 5424. It covers the name table behind
`getLogLevelFromName` and the lazily initialised threshold of
`getBmcwebCurrentLoggingLevel`. It covers the emission routine `vlog` on both
of its compiler branches and the five `BMCWEB_LOG_*` entry points. It also
covers the body of the modern branch's `std::formatter<void*>`
specialisation, which renders a pointer as a decimal numeral.

Files, one module each:

- `lookup.dfy` (`Lookup`): `Option`, plus first-match and last-match search.
  These stand in for `std::ranges::find` / `find_if` and `string_view::rfind`.
- `decimal.dfy` (`Decimal`): decimal numerals of unsigned integers
  (`std::to_string`, `{}` and `%u` of an unsigned value). It proves that
  `Text` and `Parse` are inverse to each other.
- `log_level.dfy` (`LogLevels`): the enumeration, its order, the priority
  table and the name table.
- `logging.dfy` (`Logging`): the pure part is the file-name slice, the
  prefix, the legacy buffer truncation and `Emission`, which says what one
  call does. The class `Logger` holds the state the source mutates: the
  function-local static threshold, standard output, and whether the process
  has been terminated. Its method `Vlog` builds `logLocation` step by step
  and is proved against `Emission`.

Three behaviours of the code that the model keeps as written:

- A path without '/' ends the process. `filename.substr(filename.rfind('/'))`
  with `npos` throws `std::out_of_range` inside the `noexcept` `vlog`, so the
  process ends in `std::terminate`. The model has an `Aborted` effect and a
  `terminated` flag for this case. The gate is checked first, so a suppressed
  call never aborts.
- The priority in the prefix is written between literal angle brackets:
  `<3>[server.cpp:42] ...`.
- The threshold is returned by non-const reference, so it can be assigned
  after start-up. `Logger.SetLevel` models that assignment.

## Model

| member | source | states |
|---|---|---|
| `Lookup.IndexOf` | http/logging.hpp:90-98 | the result is absent exactly when the element is absent; otherwise it is the index of the first equal element |
| `Lookup.FindFirstKey` | http/logging.hpp:72-75 | the result is absent exactly when no pair has the key as its first component; otherwise it is the index of the first such pair |
| `Lookup.LastIndexOf` | http/logging.hpp:137-138 | the result is absent exactly when the character is absent; otherwise it is the index of the last occurrence |
| `Decimal.Text` | http/logging.hpp:32-35 | the rendered numeral is non-empty, all digits, and has no leading zero |
| `Decimal.ParseText` | http/logging.hpp:32-35 | reading a rendered numeral back as decimal gives the original number |
| `Decimal.TextParse` | http/logging.hpp:32-35 | every canonical numeral is the rendering of the number it denotes, so rendering is a bijection onto canonical numerals |
| `Decimal.TextLength` | http/logging.hpp:164-168 | a number below 10^k (k >= 1) renders in at most k digits |
| `Decimal.Uint32TextLength` | http/logging.hpp:166-168 | an `unsigned` line number renders in at most ten digits |
| `LogLevels.Ordinal` | http/logging.hpp:46-55 | each severity has the numeric value of its position, `Disabled` = 0 through `Enabled` = 6 |
| `LogLevels.FromOrdinal` | http/logging.hpp:95 | the cast from an index 0..6 to a severity inverts `Ordinal` |
| `LogLevels.BelowIsStrictTotalOrder` | http/logging.hpp:46-55 | `<` on severities is a strict total order with `Disabled` least and `Enabled` greatest |
| `LogLevels.ToSystemdLevel` | http/logging.hpp:57-84 | the priority is always 2, 3, 4 or 6: 2 iff Critical, 3 iff Error, 4 iff Warning, 6 iff Info, Debug, Disabled or Enabled |
| `LogLevels.SystemdLevelTable` | http/logging.hpp:59-83 | Critical 2, Error 3, Warning 4, Info 6, Debug 6; the `find_if` search finds no entry for Disabled or Enabled, which fall to the default |
| `LogLevels.GetLogLevelFromName` | http/logging.hpp:87-98 | a text outside the table gives `Disabled`; a text in the table gives the severity whose name it is |
| `LogLevels.LevelNamesDistinct` | http/logging.hpp:87-88 | the seven names are pairwise distinct |
| `LogLevels.NameRoundTrip` | http/logging.hpp:87-98 | the name at index i resolves to the severity with value i, for all seven severities |
| `LogLevels.NameLookupExact` | http/logging.hpp:90-98 | a text resolves to a severity other than `Disabled` if and only if it is exactly that severity's name |
| `Logging.FileName` | http/logging.hpp:137-142 | no result exactly when the path has no '/'; otherwise the result is the suffix after the last '/', contains no '/', and is preceded by a '/' in the path |
| `Logging.FileNameOfJoin` | http/logging.hpp:137-142 | for any directory part and any '/'-free name, the name is what the slice gives back for `dir + "/" + name` |
| `Logging.FileNameOfDirectory` | http/logging.hpp:139-142 | a path ending in '/' gives the empty file name |
| `Logging.FileNameExamples` | http/logging.hpp:137-142 | `/a/b/c.ext` gives `c.ext`; `c.ext` has no '/' and aborts |
| `Logging.LegacyPrefix` | http/logging.hpp:164-173 | the appended prefix is a prefix of the full text and at most 255 characters (one character per byte); it is the full text when that fits the buffer; it is `min(n, 255)` characters when `snprintf` returns n > 0 |
| `Logging.LineShape` | http/logging.hpp:152-160 | a line is the head, then the message or its placeholder, then exactly one trailing newline |
| `Logging.EmissionGate` | http/logging.hpp:132-138 | a call is suppressed if and only if `threshold < level`; an unsuppressed call aborts if and only if the path has no '/' |
| `Logging.EmittedLineEnds` | http/logging.hpp:154-160 | a written line ends in '\n' and the message or its placeholder comes right before it |
| `Logging.PriorityIsOneDigit` | http/logging.hpp:136 | the priority renders as a single digit |
| `Logging.FormattedLine` | http/logging.hpp:152-155 | on the modern branch, a message that formats gives `"<" + digit + ">[" + name + ":" + decimal(line) + "] " + text + "\n"`, and the line number reads back from its decimal |
| `Logging.FailedLine` | http/logging.hpp:157-160 | a message that fails to format gives the same prefix followed by `Failed to format\n`, with no part of the message text |
| `Logging.LegacyAgreesWithModern` | http/logging.hpp:164-182 | for file names of at most 238 characters (one character per byte) the legacy branch writes the same line as the modern one |
| `Logging.GateMonotoneInThreshold` | http/logging.hpp:132 | a call that is not suppressed under a threshold has the same effect under every higher threshold |
| `Logging.GateMonotoneInLevel` | http/logging.hpp:132 | a threshold that lets a severity through lets every more severe severity through |
| `Logging.DisabledAndEnabled` | http/logging.hpp:46-55 | `Disabled` suppresses all five entry severities and `Enabled` suppresses none |
| `Logging.ServerScenario` | http/logging.hpp:128-190 | under `Info`, an error from `/src/server.cpp` line 42 writes `<3>[server.cpp:42] request failed: 404\n`; under `Warning`, a debug call writes nothing |
| `Logging.PointerText` | http/logging.hpp:32-35 | the body of the modern-branch `formatter<void*>` renders a pointer as a canonical decimal numeral of at most 20 digits that reads back as its bit pattern |
| `Logging.Logger.constructor` | http/logging.hpp:101-105 | at process start nothing is written, the static is uninitialised, and the threshold it will take is the configured name's severity |
| `Logging.Logger.CurrentLevel` | http/logging.hpp:101-105 | the first read initialises the static from `getLogLevelFromName(BMCWEB_LOGGING_LEVEL)`; every read returns the static and leaves it unchanged |
| `Logging.Logger.SetLevel` | http/logging.hpp:101-105 | assigning through the returned reference sets the threshold every later call sees |
| `Logging.Logger.Vlog` | http/logging.hpp:128-190 | the threshold is unchanged; standard output and termination follow `Emission`: nothing when suppressed, termination without output when the path has no '/', otherwise exactly the line appended |
| `Logging.Logger.LogCritical` | http/logging.hpp:194-205 | `vlog` at `Critical` |
| `Logging.Logger.LogError` | http/logging.hpp:207-218 | `vlog` at `Error` |
| `Logging.Logger.LogWarning` | http/logging.hpp:220-231 | `vlog` at `Warning` |
| `Logging.Logger.LogInfo` | http/logging.hpp:233-244 | `vlog` at `Info` |
| `Logging.Logger.LogDebug` | http/logging.hpp:246-257 | `vlog` at `Debug` |

## Left out

- `include/boost_formatters.hpp` is not part of this model. Its formatters only forward to Boost accessors (`what()`, `data()`/`size()`, `buffer()`) that are not available here.
- Formatting the caller's template is not modelled. `std::format`, `fmt::vformat` and the compile-time check of `std::format_string` are a foreign library. Their outcome is an input: the formatted text or a `format_error`.
- Exceptions other than `format_error` are not modelled. An exception such as `std::bad_alloc` escapes the `noexcept` `vlog` and terminates the process.
- Logging.Head: on the modern branch, the prefix `std::format` is taken never to throw. Its arguments are an `int`, a `string_view` and an unsigned line, and its template is a constant. If it did throw, the line would be `Failed to format` with no prefix.
- Logging.LegacyPrefix: the `int` cast of the file-name length for `%.*s` is not modelled for names of 2^31 characters or more.
- `fwrite` and `fflush` become an append to the `stdout` field. Their error returns are ignored, as in the source.
- Capturing `std::source_location::current()` and the deduction guides are not modelled: the entry points take the path and line number as parameters.
- Concurrency is not modelled: neither the thread-safe initialisation of the static nor concurrent writes to standard output.
- `logPtr` is not modelled: its `static_assert` and `bit_cast` are compile-time type checks.
- Logging.PointerText: the model does not show that a logged pointer reaches this formatter. `logPtr` returns `const void*`, and the formatting library may render such an argument with its own formatter. The legacy branch has no such specialisation at all.
- Logging.LegacyPrefix: lengths are counted in characters, where `snprintf` and the 256-byte buffer count bytes. This is exact only for ASCII file names. A name with multi-byte UTF-8 characters can be cut at a smaller character count, possibly inside a character.
- Logging.LegacyAgreesWithModern: the 238 bound is in characters, and holds as stated only for ASCII file names, for the same reason.
