/** The logger's severity levels: normalising and validating the
    configured level, and the per-method gate lists. */
module Levels {
  import opened Values

  /** The accepted configured levels, as listed in the source. */
  const LogLevels: seq<string> := ["ERROR", "WARN", "WARNING", "INFO", "DEBUG"]

  /** `toUpperCase` on one character: ASCII letters, plus the two
      lower-case letters outside ASCII whose upper case is an ASCII letter
      (dotless i and long s). */
  function UpperChar(c: char): char
  {
    if 'a' <= c <= 'z' then (c as int - 32) as char
    else if c == '\U{0131}' then 'I'
    else if c == '\U{017F}' then 'S'
    else c
  }

  function ToUpper(s: string): string
  {
    seq(|s|, i requires 0 <= i < |s| => UpperChar(s[i]))
  }

  /** The level argument after the default parameter and the string check:
      a missing level is 'INFO', a string is upper-cased, anything else
      becomes the empty string. */
  function NormalizeLevel(arg: Value): string
  {
    match arg
    case Undef => "INFO"
    case Str(s) => ToUpper(s)
    case _ => ""
  }

  /** Construction-time validation: the normalised level, or the message
      of the error thrown. */
  function CheckLevel(arg: Value): (r: Result<string, string>)
    ensures r.Ok? <==> NormalizeLevel(arg) in LogLevels
    ensures r.Ok? ==> r.value == NormalizeLevel(arg) && r.value in LogLevels
    ensures r.Err? ==> r.error == "Invalid log level '" + NormalizeLevel(arg) + "'"
  {
    var level := NormalizeLevel(arg);
    if level in LogLevels then Ok(level)
    else Err("Invalid log level '" + level + "'")
  }

  lemma UpperCharIdempotent(c: char)
    ensures UpperChar(UpperChar(c)) == UpperChar(c)
  {
  }

  /** Upper-casing twice is upper-casing once. */
  lemma ToUpperIdempotent(s: string)
    ensures ToUpper(ToUpper(s)) == ToUpper(s)
  {
    forall i | 0 <= i < |s| ensures ToUpper(ToUpper(s))[i] == ToUpper(s)[i] {
      UpperCharIdempotent(s[i]);
    }
  }

  /** The configured level is case-insensitive: a string is accepted or
      rejected, and gates, exactly as its upper-case form does. */
  lemma CheckLevelCaseInsensitive(s: string)
    ensures CheckLevel(Str(s)) == CheckLevel(Str(ToUpper(s)))
  {
    ToUpperIdempotent(s);
  }

  /** A level that is neither a string nor missing is rejected with the
      empty level in the message. */
  lemma NonStringLevelRejected(arg: Value)
    requires !arg.Str? && !arg.Undef?
    ensures CheckLevel(arg) == Err("Invalid log level ''")
  {
    assert "Invalid log level '" + "" + "'" == "Invalid log level ''";
  }

  lemma CheckLevelExamples()
    ensures CheckLevel(Str("UNKNOWN")) == Err("Invalid log level 'UNKNOWN'")
    ensures CheckLevel(Str("info")) == Ok("INFO")
    ensures CheckLevel(Undef) == Ok("INFO")
  {
    assert ToUpper("info") == "INFO";
    assert ToUpper("UNKNOWN") == "UNKNOWN";
    assert "Invalid log level '" + "UNKNOWN" + "'" == "Invalid log level 'UNKNOWN'";
  }

  /** The severity of a logging call; WARN and WARNING are one severity. */
  datatype Severity = Debug | Info | Warning | Error

  /** The intended order DEBUG < INFO < WARN = WARNING < ERROR. */
  function Rank(s: Severity): nat
  {
    match s
    case Debug => 0
    case Info => 1
    case Warning => 2
    case Error => 3
  }

  function SeverityOf(level: string): Severity
    requires level in LogLevels
  {
    if level == "DEBUG" then Debug
    else if level == "INFO" then Info
    else if level == "WARN" || level == "WARNING" then Warning
    else Error
  }

  /** The `level` field a call at this severity writes. */
  function Name(s: Severity): string
  {
    match s
    case Debug => "debug"
    case Info => "info"
    case Warning => "warning"
    case Error => "error"
  }

  /** The configured levels under which each public method prints, as
      hard-coded in that method. */
  function GateList(s: Severity): seq<string>
  {
    match s
    case Debug => ["DEBUG"]
    case Info => ["DEBUG", "INFO"]
    case Warning => ["DEBUG", "INFO", "WARN", "WARNING"]
    case Error => ["DEBUG", "INFO", "WARN", "WARNING", "ERROR"]
  }

  /** The four hard-coded lists are one monotonic rule: a call prints iff
      its severity is at least the configured one. */
  function Admits(s: Severity, level: string): (b: bool)
    requires level in LogLevels
    ensures b <==> Rank(s) >= Rank(SeverityOf(level))
  {
    level in GateList(s)
  }

  /** The gate table, method by method. */
  lemma GateTable(level: string)
    requires level in LogLevels
    ensures Admits(Debug, level) <==> level == "DEBUG"
    ensures Admits(Info, level) <==> level == "DEBUG" || level == "INFO"
    ensures Admits(Warning, level) <==> level != "ERROR"
    ensures Admits(Error, level)
  {
  }

  /** A louder call passes whenever a quieter one does, and a more verbose
      configuration lets through everything a quieter one does. */
  lemma AdmitsMonotone(s: Severity, t: Severity, level: string, level': string)
    requires level in LogLevels && level' in LogLevels
    requires Rank(s) <= Rank(t) && Rank(SeverityOf(level')) <= Rank(SeverityOf(level))
    ensures Admits(s, level) ==> Admits(t, level')
  {
  }
}
