/** The severity enumeration of the bmcweb logger and its two fixed tables:
    severity to syslog priority, and configuration name to severity. */
module LogLevels {
  import opened Lookup

  /** `crow::LogLevel`, in declaration order: `Disabled` is 0 and `Enabled`
      is 6. A smaller value is more severe. */
  datatype LogLevel = Disabled | Critical | Error | Warning | Info | Debug | Enabled

  /** Every severity, indexed by its numeric value. */
  const Levels: seq<LogLevel> := [Disabled, Critical, Error, Warning, Info, Debug, Enabled]

  /** The numeric value of a severity (`static_cast<int>` of the enum). */
  function Ordinal(l: LogLevel): (n: nat)
    ensures n < |Levels| && Levels[n] == l
  {
    match l
    case Disabled => 0
    case Critical => 1
    case Error => 2
    case Warning => 3
    case Info => 4
    case Debug => 5
    case Enabled => 6
  }

  /** `static_cast<LogLevel>(n)` for an index into the severity table. */
  function FromOrdinal(n: nat): (l: LogLevel)
    requires n < |Levels|
    ensures Ordinal(l) == n
  {
    Levels[n]
  }

  /** `a < b` on `crow::LogLevel`: the comparison of the underlying values. */
  predicate Below(a: LogLevel, b: LogLevel) {
    Ordinal(a) < Ordinal(b)
  }

  /** The numeric values are exactly 0 to 6, one per severity, so `Below` is
      a strict total order with `Disabled` least and `Enabled` greatest. */
  lemma BelowIsStrictTotalOrder(a: LogLevel, b: LogLevel, c: LogLevel)
    ensures !Below(a, a)
    ensures a != b ==> Below(a, b) != Below(b, a)
    ensures Below(a, b) && Below(b, c) ==> Below(a, c)
    ensures a == Disabled || Below(Disabled, a)
    ensures a == Enabled || Below(a, Enabled)
  {
  }

  /** The table inside `toSystemdLevel`: severities paired with priorities on
      the syslog severity scale of section 6.2.1 of RFC 5424 (2 critical,
      3 error, 4 warning, 6 informational). `Debug` shares the informational
      code on purpose: the journal of the deployment keeps nothing below it. */
  const SystemdMapping: seq<(LogLevel, int)> :=
    [(Critical, 2), (Error, 3), (Warning, 4), (Info, 6), (Debug, 6)]

  /** Priority used when a severity has no entry in the table. */
  const DefaultPriority: int := 6

  /** `toSystemdLevel`: the priority of the first table entry whose severity
      is `level` (`std::ranges::find_if`), or the default when none is. */
  function ToSystemdLevel(level: LogLevel): (p: int)
    ensures p in {2, 3, 4, 6}
    ensures level == Critical <==> p == 2
    ensures level == Error <==> p == 3
    ensures level == Warning <==> p == 4
    ensures level == Info || level == Debug || level == Disabled || level == Enabled <==> p == 6
  {
    match FindFirstKey(SystemdMapping, level)
    case None =>
      assert level == Levels[Ordinal(level)];
      DefaultPriority
    case Some(i) => SystemdMapping[i].1
  }

  /** The priorities of the table entries, and the default for the two
      severities the table leaves out. */
  lemma SystemdLevelTable()
    ensures ToSystemdLevel(Critical) == 2
    ensures ToSystemdLevel(Error) == 3
    ensures ToSystemdLevel(Warning) == 4
    ensures ToSystemdLevel(Info) == 6
    ensures ToSystemdLevel(Debug) == 6
    ensures FindFirstKey(SystemdMapping, Disabled).None?
    ensures FindFirstKey(SystemdMapping, Enabled).None?
  {
  }

  /** `mapLogLevelFromName`: the configuration name of each severity, at the
      index of its numeric value. */
  const LevelNames: seq<string> :=
    ["DISABLED", "CRITICAL", "ERROR", "WARNING", "INFO", "DEBUG", "ENABLED"]

  /** The configuration name of a severity. */
  function LevelName(l: LogLevel): string {
    LevelNames[Ordinal(l)]
  }

  /** `getLogLevelFromName`: the severity whose name is `name` (an exact,
      case-sensitive match), or `Disabled` for any other text. */
  function GetLogLevelFromName(name: string): (l: LogLevel)
    ensures name !in LevelNames ==> l == Disabled
    ensures name in LevelNames ==> LevelName(l) == name
  {
    match IndexOf(LevelNames, name)
    case None => Disabled
    case Some(i) => FromOrdinal(i)
  }

  /** No two severities share a name. */
  lemma LevelNamesDistinct()
    ensures forall j, k :: 0 <= j < k < |LevelNames| ==> LevelNames[j] != LevelNames[k]
  {
    forall j, k | 0 <= j < k < |LevelNames|
      ensures LevelNames[j] != LevelNames[k]
    {
      var a, b := LevelNames[j], LevelNames[k];
      assert |a| != |b| || a[0] != b[0];
    }
  }

  /** Looking up the name at index `i` of the table gives the severity whose
      value is `i`: the name of every severity leads back to it. */
  lemma NameRoundTrip(l: LogLevel)
    ensures GetLogLevelFromName(LevelName(l)) == l
  {
    LevelNamesDistinct();
    IndexOfDistinct(LevelNames, Ordinal(l));
  }

  /** Name lookup is total and fails closed: a text resolves to a severity
      other than `Disabled` exactly when it is the name of that severity. */
  lemma NameLookupExact(name: string, l: LogLevel)
    requires l != Disabled
    ensures GetLogLevelFromName(name) == l <==> name == LevelName(l)
  {
    if name == LevelName(l) {
      NameRoundTrip(l);
    }
  }
}
