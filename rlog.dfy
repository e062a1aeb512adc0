/**
 * The level and threshold engine of the rlog logger: the seven levels and
 * their name tables, the three settings that `init` derives from the
 * environment, the admission rules of `basicLog` and `Trace`/`Tracef`, and
 * the line that is handed to the standard `log` package.
 *
 * The environment values, the caller frame found by stack introspection and
 * `fmt.Sprintf` are inputs; the final write is not modelled, the emitted line
 * is returned instead (`None` when the message is suppressed).
 */
module Rlog {
  import opened Wrappers
  import opened Strconv

  // The known log levels, in ascending severity.
  const LevelTrace: int := 0
  const LevelDebug: int := 1
  const LevelInfo: int := 2
  const LevelWarn: int := 3
  const LevelErr: int := 4
  const LevelCrit: int := 5
  const LevelNone: int := 6

  /** The name printed for each level. */
  const LevelStrings: map<int, string> := map[
    LevelTrace := "TRACE",
    LevelDebug := "DEBUG",
    LevelInfo := "INFO",
    LevelWarn := "WARN",
    LevelErr := "ERROR",
    LevelCrit := "CRITICAL",
    LevelNone := "NONE"
  ]

  /** The level each name selects when it is read from the environment. */
  const LevelNumbers: map<string, int> := map[
    "TRACE" := LevelTrace,
    "DEBUG" := LevelDebug,
    "INFO" := LevelInfo,
    "WARN" := LevelWarn,
    "ERROR" := LevelErr,
    "CRITICAL" := LevelCrit,
    "NONE" := LevelNone
  ]

  /** The two tables are inverse bijections between 0..6 and the seven names. */
  lemma LevelTablesInverse()
    ensures forall l :: l in LevelStrings <==> LevelTrace <= l <= LevelNone
    ensures forall l :: l in LevelStrings ==>
      LevelStrings[l] in LevelNumbers && LevelNumbers[LevelStrings[l]] == l
    ensures forall name :: name in LevelNumbers ==>
      LevelNumbers[name] in LevelStrings && LevelStrings[LevelNumbers[name]] == name
  {
  }

  lemma LevelNamesUpper(level: int)
    requires level in LevelStrings
    ensures IsUpper(LevelStrings[level])
  {
  }

  /** `levelStrings[level]`, which is "" for a level outside the table, as a Go map read is. */
  function LevelName(level: int): (name: string)
    ensures level in LevelStrings ==> name in LevelNumbers && LevelNumbers[name] == level
    ensures level !in LevelStrings ==> name == ""
  {
    LevelTablesInverse();
    if level in LevelStrings then LevelStrings[level] else ""
  }

  /**
   * The log level that init leaves when the RLOG_LOG_LEVEL value is `env` and the
   * setting held `current`: a known name other than TRACE selects its level, and
   * everything else leaves the setting alone.
   */
  function ConfiguredLogLevel(env: string, current: int): (r: int)
    ensures env in LevelNumbers && env != "TRACE" ==> LevelName(r) == env
    ensures env !in LevelNumbers || env == "TRACE" ==> r == current
    ensures LevelDebug <= current <= LevelNone ==> LevelDebug <= r <= LevelNone
  {
    if env in LevelNumbers then
      var levelVal := LevelNumbers[env];
      if levelVal != LevelTrace then levelVal else current
    else
      current
  }

  /** The caller-info flag init leaves: set by a valid boolean spelling, untouched otherwise. */
  function ConfiguredCallerInfo(env: string, current: bool): (r: bool)
    ensures r <==> env in {"1", "t", "T", "TRUE", "true", "True"}
                   || (current && env !in {"0", "f", "F", "FALSE", "false", "False"})
  {
    var parsed := ParseBool(env);
    if parsed.Some? then parsed.value else current
  }

  /**
   * The trace level init leaves: a non-empty value that parses as an integer of
   * at least -1 is taken, anything else leaves the setting alone.
   */
  function ConfiguredTraceLevel(env: string, current: int): (r: int)
    ensures Atoi(env).Some? && Atoi(env).value >= -1 ==> r == Atoi(env).value
    ensures r != current ==> Atoi(env) == Some(r) && r >= -1
    ensures current >= -1 ==> r >= -1
  {
    if env != "" then
      var parsed := Atoi(env);
      if parsed.Some? && parsed.value >= -1 then parsed.value else current
    else
      current
  }

  /** Where a log call came from: what `runtime.Caller` and `FuncForPC` report. */
  datatype Frame = Frame(file: string, line: int, funcName: string)

  /** `fmt.Sprintln` over operands already rendered in their default form. */
  function Sprintln(args: seq<string>): (s: string)
    ensures |s| > 0 && s[|s| - 1] == '\n'
    ensures |args| == 1 ==> s == args[0] + "\n"
    ensures args != [] ==> |args[0]| < |s| && s[..|args[0]|] == args[0]
  {
    if args == [] then "\n"
    else if |args| == 1 then args[0] + "\n"
    else args[0] + " " + Sprintln(args[1..])
  }

  /** The message body: printf-style when a format is given, println-style otherwise. */
  function MessageBody(format: string, args: seq<string>, sprintf: (string, seq<string>) -> string): (s: string)
    ensures format == "" ==> s == Sprintln(args)
    ensures format != "" ==> s == sprintf(format, args)
  {
    if format != "" then sprintf(format, args) else Sprintln(args)
  }

  /** The "(n)" that follows the level name of a trace message. */
  function TracePrefix(traceLevel: int): (s: string)
    ensures |s| >= 3 && s[0] == '(' && s[|s| - 1] == ')' && s[1..|s| - 1] == Itoa(traceLevel)
    ensures MinInt <= traceLevel <= MaxInt ==> Atoi(s[1..|s| - 1]) == Some(traceLevel)
  {
    var s := "(" + Itoa(traceLevel) + ")";
    assert s[1..|s| - 1] == Itoa(traceLevel);
    assert MinInt <= traceLevel <= MaxInt ==> Atoi(Itoa(traceLevel)) == Some(traceLevel) by {
      if MinInt <= traceLevel <= MaxInt { AtoiItoa(traceLevel); }
    }
    s
  }

  /**
   * The formatter handed on by the plain variants. With their empty format
   * string the body is println-style, so it is never consulted.
   */
  const Unformatted: (string, seq<string>) -> string := (format, args) => ""

  /** The head of a line for a level that adds no suffix: its name, the empty prefix addition and ": ". */
  lemma LevelHead(level: int, name: string)
    requires level in LevelStrings && LevelStrings[level] == name
    ensures LevelName(level) + "" + ": " == name + ": "
  {
  }

  /** The head of a trace line: the level name TRACE and the depth in parentheses. */
  lemma TraceHead(level: int)
    ensures LevelName(LevelTrace) + TracePrefix(level) + ": " == "TRACE(" + Itoa(level) + "): "
  {
    assert LevelName(LevelTrace) == "TRACE";
  }

  /** The longest prefix of `s` made of upper-case ASCII letters. */
  function LeadingName(s: string): (r: string)
    ensures |r| <= |s| && r == s[..|r|]
  {
    if s != [] && 'A' <= s[0] <= 'Z' then [s[0]] + LeadingName(s[1..]) else ""
  }

  predicate IsUpper(s: string) { forall i :: 0 <= i < |s| ==> 'A' <= s[i] <= 'Z' }

  lemma {:induction false} LeadingNameOf(name: string, rest: string)
    requires IsUpper(name)
    requires rest == "" || !('A' <= rest[0] <= 'Z')
    ensures LeadingName(name + rest) == name
  {
    if name != "" {
      assert (name + rest)[1..] == name[1..] + rest;
      LeadingNameOf(name[1..], rest);
    }
  }

  /** The three settings globals of rlog.go. */
  class Settings {
    var traceLevel: int
    var logLevel: int
    var getCallerInfo: bool

    /** The settings never select TRACE or an unknown level, and tracing is off or a depth. */
    ghost predicate Valid()
      reads this
    {
      LevelDebug <= logLevel <= LevelNone && traceLevel >= -1
    }

    /** The defaults: no tracing, INFO or higher, no caller info. */
    constructor ()
      ensures Valid()
      ensures traceLevel == -1 && logLevel == LevelInfo && !getCallerInfo
    {
      traceLevel := -1;
      logLevel := LevelInfo;
      getCallerInfo := false;
    }

    /** `init`: evaluate the three environment values, silently keeping defaults on bad input. */
    method Init(logLevelEnv: string, callerInfoEnv: string, traceLevelEnv: string)
      requires Valid()
      modifies this
      ensures Valid()
      ensures logLevel == ConfiguredLogLevel(logLevelEnv, old(logLevel))
      ensures getCallerInfo == ConfiguredCallerInfo(callerInfoEnv, old(getCallerInfo))
      ensures traceLevel == ConfiguredTraceLevel(traceLevelEnv, old(traceLevel))
    {
      if logLevelEnv in LevelNumbers {
        var levelVal := LevelNumbers[logLevelEnv];
        if levelVal != LevelTrace {
          logLevel := levelVal;
        }
      }

      var getCallerInfoVal := ParseBool(callerInfoEnv);
      if getCallerInfoVal.Some? {
        getCallerInfo := getCallerInfoVal.value;
      }

      if traceLevelEnv != "" {
        var traceLevelVal := Atoi(traceLevelEnv);
        if traceLevelVal.Some? {
          if traceLevelVal.value >= -1 {
            traceLevel := traceLevelVal.value;
          }
        }
      }
    }

    /** The admission test at the head of `basicLog`: TRACE always passes. */
    predicate Admits(level: int)
      reads this
      ensures level == LevelTrace ==> Admits(level)
      ensures level >= logLevel ==> Admits(level)
      ensures LevelTrace < level < logLevel ==> !Admits(level)
    {
      !(level < logLevel && level != LevelTrace)
    }

    /** The caller decoration: present only when enabled and the caller is known. */
    function CallerInfo(caller: Option<Frame>): (s: string)
      reads this
      ensures !getCallerInfo || caller.None? ==> s == ""
      ensures getCallerInfo && caller.Some? ==> |s| >= 5 && s[0] == '[' && s[|s| - 2..] == "] "
    {
      if getCallerInfo && caller.Some? then
        "[" + caller.value.file + ":" + Itoa(caller.value.line) + " (" + caller.value.funcName + ")] "
      else
        ""
    }

    /**
     * `basicLog`: the line written for a message, or None when the level is
     * filtered out.
     */
    function BasicLog(level: int, format: string, prefixAddition: string, args: seq<string>,
                      sprintf: (string, seq<string>) -> string, caller: Option<Frame>): (r: Option<string>)
      reads this
      ensures r.Some? <==> level == LevelTrace || logLevel <= level
      ensures r.Some? ==> r.value == LevelName(level) + prefixAddition + ": "
                                     + CallerInfo(caller) + MessageBody(format, args, sprintf)
    {
      if !Admits(level) then None
      else Some(LevelName(level) + prefixAddition + ": " + CallerInfo(caller) + MessageBody(format, args, sprintf))
    }

    /** `Trace`: forwarded to `basicLog` only for a depth in 0..traceLevel. */
    function Trace(level: int, args: seq<string>, caller: Option<Frame>): (r: Option<string>)
      reads this
      ensures r.Some? <==> 0 <= level <= traceLevel
      ensures r.Some? ==> r.value == "TRACE(" + Itoa(level) + "): " + CallerInfo(caller) + Sprintln(args)
    {
      if level <= traceLevel && level >= 0 then
        TraceHead(level);
        BasicLog(LevelTrace, "", TracePrefix(level), args, Unformatted, caller)
      else None
    }

    /** `Tracef`: as `Trace`, with a format string. */
    function Tracef(level: int, format: string, args: seq<string>, sprintf: (string, seq<string>) -> string,
                    caller: Option<Frame>): (r: Option<string>)
      reads this
      ensures r.Some? <==> 0 <= level <= traceLevel
      ensures r.Some? ==> r.value == "TRACE(" + Itoa(level) + "): " + CallerInfo(caller)
                                     + MessageBody(format, args, sprintf)
    {
      if level <= traceLevel && level >= 0 then
        TraceHead(level);
        BasicLog(LevelTrace, format, TracePrefix(level), args, sprintf, caller)
      else None
    }

    function Debug(args: seq<string>, caller: Option<Frame>): (r: Option<string>)
      reads this
      ensures r.Some? <==> logLevel <= LevelDebug
      ensures r.Some? ==> r.value == "DEBUG: " + CallerInfo(caller) + Sprintln(args)
    {
      LevelHead(LevelDebug, "DEBUG");
      BasicLog(LevelDebug, "", "", args, Unformatted, caller)
    }

    function Debugf(format: string, args: seq<string>, sprintf: (string, seq<string>) -> string,
                    caller: Option<Frame>): (r: Option<string>)
      reads this
      ensures r.Some? <==> logLevel <= LevelDebug
      ensures r.Some? ==> r.value == "DEBUG: " + CallerInfo(caller) + MessageBody(format, args, sprintf)
    {
      LevelHead(LevelDebug, "DEBUG");
      BasicLog(LevelDebug, format, "", args, sprintf, caller)
    }

    function Info(args: seq<string>, caller: Option<Frame>): (r: Option<string>)
      reads this
      ensures r.Some? <==> logLevel <= LevelInfo
      ensures r.Some? ==> r.value == "INFO: " + CallerInfo(caller) + Sprintln(args)
    {
      LevelHead(LevelInfo, "INFO");
      BasicLog(LevelInfo, "", "", args, Unformatted, caller)
    }

    function Infof(format: string, args: seq<string>, sprintf: (string, seq<string>) -> string,
                   caller: Option<Frame>): (r: Option<string>)
      reads this
      ensures r.Some? <==> logLevel <= LevelInfo
      ensures r.Some? ==> r.value == "INFO: " + CallerInfo(caller) + MessageBody(format, args, sprintf)
    {
      LevelHead(LevelInfo, "INFO");
      BasicLog(LevelInfo, format, "", args, sprintf, caller)
    }

    function Warn(args: seq<string>, caller: Option<Frame>): (r: Option<string>)
      reads this
      ensures r.Some? <==> logLevel <= LevelWarn
      ensures r.Some? ==> r.value == "WARN: " + CallerInfo(caller) + Sprintln(args)
    {
      LevelHead(LevelWarn, "WARN");
      BasicLog(LevelWarn, "", "", args, Unformatted, caller)
    }

    function Warnf(format: string, args: seq<string>, sprintf: (string, seq<string>) -> string,
                   caller: Option<Frame>): (r: Option<string>)
      reads this
      ensures r.Some? <==> logLevel <= LevelWarn
      ensures r.Some? ==> r.value == "WARN: " + CallerInfo(caller) + MessageBody(format, args, sprintf)
    {
      LevelHead(LevelWarn, "WARN");
      BasicLog(LevelWarn, format, "", args, sprintf, caller)
    }

    function Error(args: seq<string>, caller: Option<Frame>): (r: Option<string>)
      reads this
      ensures r.Some? <==> logLevel <= LevelErr
      ensures r.Some? ==> r.value == "ERROR: " + CallerInfo(caller) + Sprintln(args)
    {
      LevelHead(LevelErr, "ERROR");
      BasicLog(LevelErr, "", "", args, Unformatted, caller)
    }

    function Errorf(format: string, args: seq<string>, sprintf: (string, seq<string>) -> string,
                    caller: Option<Frame>): (r: Option<string>)
      reads this
      ensures r.Some? <==> logLevel <= LevelErr
      ensures r.Some? ==> r.value == "ERROR: " + CallerInfo(caller) + MessageBody(format, args, sprintf)
    {
      LevelHead(LevelErr, "ERROR");
      BasicLog(LevelErr, format, "", args, sprintf, caller)
    }

    function Critical(args: seq<string>, caller: Option<Frame>): (r: Option<string>)
      reads this
      ensures r.Some? <==> logLevel <= LevelCrit
      ensures r.Some? ==> r.value == "CRITICAL: " + CallerInfo(caller) + Sprintln(args)
    {
      LevelHead(LevelCrit, "CRITICAL");
      BasicLog(LevelCrit, "", "", args, Unformatted, caller)
    }

    function Criticalf(format: string, args: seq<string>, sprintf: (string, seq<string>) -> string,
                       caller: Option<Frame>): (r: Option<string>)
      reads this
      ensures r.Some? <==> logLevel <= LevelCrit
      ensures r.Some? ==> r.value == "CRITICAL: " + CallerInfo(caller) + MessageBody(format, args, sprintf)
    {
      LevelHead(LevelCrit, "CRITICAL");
      BasicLog(LevelCrit, format, "", args, sprintf, caller)
    }
  }

  /** Package initialisation: the variable defaults, then `init` over the environment. */
  method Startup(logLevelEnv: string, callerInfoEnv: string, traceLevelEnv: string) returns (s: Settings)
    ensures fresh(s) && s.Valid()
    ensures s.logLevel == ConfiguredLogLevel(logLevelEnv, LevelInfo)
    ensures s.getCallerInfo == ConfiguredCallerInfo(callerInfoEnv, false)
    ensures s.traceLevel == ConfiguredTraceLevel(traceLevelEnv, -1)
  {
    s := new Settings();
    s.Init(logLevelEnv, callerInfoEnv, traceLevelEnv);
  }

  /** Each plain variant is its formatted variant given the empty format string. */
  lemma PlainIsEmptyFormat(s: Settings, level: int, args: seq<string>,
                           sprintf: (string, seq<string>) -> string, caller: Option<Frame>)
    ensures s.Tracef(level, "", args, sprintf, caller) == s.Trace(level, args, caller)
    ensures s.Debugf("", args, sprintf, caller) == s.Debug(args, caller)
    ensures s.Infof("", args, sprintf, caller) == s.Info(args, caller)
    ensures s.Warnf("", args, sprintf, caller) == s.Warn(args, caller)
    ensures s.Errorf("", args, sprintf, caller) == s.Error(args, caller)
    ensures s.Criticalf("", args, sprintf, caller) == s.Critical(args, caller)
  {
  }

  /** "yes" is not a spelling ParseBool accepts, so it leaves caller info off. */
  lemma YesLeavesCallerInfoOff()
    ensures !ConfiguredCallerInfo("yes", false)
  {
  }

  /** A message passes the level filter iff its level is at least the configured one. */
  lemma AdmissionIsThreshold(s: Settings, level: int)
    requires s.Valid() && LevelDebug <= level <= LevelCrit
    ensures s.Admits(level) <==> level >= s.logLevel
  {
  }

  /** If a level passes, every more severe level passes too. */
  lemma AdmissionMonotone(s: Settings, level: int, severer: int)
    requires level <= severer && level != LevelTrace && s.Admits(level)
    ensures s.Admits(severer)
  {
  }

  /** With NONE configured, no Debug..Critical message is written. */
  lemma NoneSilencesLevels(s: Settings, level: int, format: string, prefixAddition: string, args: seq<string>,
                           sprintf: (string, seq<string>) -> string, caller: Option<Frame>)
    requires s.logLevel == LevelNone && LevelDebug <= level <= LevelCrit
    ensures s.BasicLog(level, format, prefixAddition, args, sprintf, caller).None?
  {
  }

  /** With the default trace level -1, and for any negative depth, no trace message is written. */
  lemma DisabledTraceSilent(s: Settings, level: int, args: seq<string>, caller: Option<Frame>)
    requires s.traceLevel == -1 || level < 0
    ensures s.Trace(level, args, caller).None?
  {
  }

  /** Any level of the table read back from an emitted line, at its start, names the message's level. */
  lemma EmittedLineNamesLevel(s: Settings, level: int, format: string, prefixAddition: string, args: seq<string>,
                              sprintf: (string, seq<string>) -> string, caller: Option<Frame>)
    requires LevelTrace <= level <= LevelNone
    requires prefixAddition == "" || prefixAddition[0] == '('
    requires s.BasicLog(level, format, prefixAddition, args, sprintf, caller).Some?
    ensures var line := s.BasicLog(level, format, prefixAddition, args, sprintf, caller).value;
            LeadingName(line) in LevelNumbers && LevelNumbers[LeadingName(line)] == level
  {
    NameReadsBack(level, prefixAddition, s.CallerInfo(caller), MessageBody(format, args, sprintf));
  }

  /** The upper-case run at the start of a line, when the name is followed by '(' or ':', is the level name. */
  lemma NameReadsBack(level: int, prefixAddition: string, callerInfo: string, msg: string)
    requires LevelTrace <= level <= LevelNone
    requires prefixAddition == "" || prefixAddition[0] == '('
    ensures var line := LevelName(level) + prefixAddition + ": " + callerInfo + msg;
            LeadingName(line) in LevelNumbers && LevelNumbers[LeadingName(line)] == level
  {
    var name := LevelName(level);
    var rest := prefixAddition + ": " + callerInfo + msg;
    assert name + prefixAddition + ": " + callerInfo + msg == name + rest;
    assert rest[0] == '(' || rest[0] == ':' by {
      if prefixAddition == "" { assert rest[0] == ": "[0]; }
      else { assert rest[0] == prefixAddition[0]; }
    }
    LevelNamesUpper(level);
    LeadingNameOf(name, rest);
    LevelTablesInverse();
  }

  /** The depth printed in a trace line reads back, through `Atoi`, as the depth passed. */
  lemma TraceLineCarriesDepth(s: Settings, level: int, args: seq<string>, caller: Option<Frame>)
    requires level <= MaxInt
    requires s.Trace(level, args, caller).Some?
    ensures var line := s.Trace(level, args, caller).value;
            var n := |Itoa(level)|;
            line[..6] == "TRACE(" && line[6 + n] == ')' && Atoi(line[6..6 + n]) == Some(level)
  {
    DepthReadsBack(level, s.CallerInfo(caller), Sprintln(args));
  }

  lemma DepthReadsBack(level: int, callerInfo: string, msg: string)
    requires MinInt <= level <= MaxInt
    ensures var line := "TRACE(" + Itoa(level) + "): " + callerInfo + msg;
            var n := |Itoa(level)|;
            line[..6] == "TRACE(" && line[6 + n] == ')' && Atoi(line[6..6 + n]) == Some(level)
  {
    var line := "TRACE(" + Itoa(level) + "): " + callerInfo + msg;
    var n := |Itoa(level)|;
    assert line[6..6 + n] == Itoa(level);
    AtoiItoa(level);
  }
}
