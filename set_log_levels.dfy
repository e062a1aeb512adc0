/**
 * The configuration-file rewrite of the set-log-levels example program:
 * `setGlobalLogConf` checks a level name against its own copy of the level
 * table, overrides every RLOG_LOG_LEVEL and RLOG_TRACE_LEVEL line with a
 * canonical `KEY = value` line and appends the entries that are missing.
 * The file read, the file write and the reload call around it are not
 * modelled: the rewrite works on the file's lines.
 */
module SetLogLevels {
  import opened Wrappers
  import opened Strconv
  import Rlog

  // The example's copy of the levels, numbered in the opposite direction from rlog's.
  const LevelNone: int := 0
  const LevelCrit: int := 1
  const LevelErr: int := 2
  const LevelWarn: int := 3
  const LevelInfo: int := 4
  const LevelDebug: int := 5
  const LevelTrace: int := 6

  const LevelStrings: map<int, string> := map[
    LevelTrace := "TRACE",
    LevelDebug := "DEBUG",
    LevelInfo := "INFO",
    LevelWarn := "WARN",
    LevelErr := "ERROR",
    LevelCrit := "CRITICAL",
    LevelNone := "NONE"
  ]

  const LevelNumbers: map<string, int> := map[
    "TRACE" := LevelTrace,
    "DEBUG" := LevelDebug,
    "INFO" := LevelInfo,
    "WARN" := LevelWarn,
    "ERROR" := LevelErr,
    "CRITICAL" := LevelCrit,
    "NONE" := LevelNone
  ]

  /**
   * The copied table knows the same seven names as rlog's, gives each the same
   * string back, and numbers them in reverse.
   */
  lemma TablesAgreeWithRlog()
    ensures LevelNumbers.Keys == Rlog.LevelNumbers.Keys
    ensures forall name :: name in LevelNumbers ==> LevelNumbers[name] == 6 - Rlog.LevelNumbers[name]
    ensures forall name :: name in LevelNumbers ==>
      LevelNumbers[name] in LevelStrings && LevelStrings[LevelNumbers[name]] == name
    ensures forall l :: l in LevelStrings <==> LevelNone <= l <= LevelTrace
    ensures forall l :: l in LevelStrings ==>
      LevelStrings[l] in LevelNumbers && LevelNumbers[LevelStrings[l]] == l
  {
  }

  const LogKey: string := "RLOG_LOG_LEVEL"
  const TraceKey: string := "RLOG_TRACE_LEVEL"
  const InvalidLevel: string := "invalid value for level, must be valid rlog log level"

  predicate OccursAt(s: string, sub: string, i: int)
  {
    0 <= i && i + |sub| <= |s| && s[i..i + |sub|] == sub
  }

  /** `strings.Contains`: `sub` occurs somewhere in `s`. */
  predicate Contains(s: string, sub: string)
  {
    exists i :: 0 <= i <= |s| - |sub| && OccursAt(s, sub, i)
  }

  /**
   * A sanity check of `Contains` against Go's `strings.Contains`: the empty
   * string occurs in every string, and so does every prefix. The rewrite does
   * not rely on it.
   */
  lemma ContainsPrefix(s: string, sub: string)
    requires |sub| <= |s| && s[..|sub|] == sub
    ensures Contains(s, sub) && Contains(s, [])
  {
    assert OccursAt(s, sub, 0);
    assert OccursAt(s, [], 0);
  }

  function LogEntry(level: string): string { LogKey + " = " + level }

  function TraceEntry(trace: int): string { TraceKey + " = " + Itoa(trace) }

  /** What the loop body leaves at one position; a line with both keys gets the log-level entry. */
  function RewriteLine(line: string, level: string, trace: int): (r: string)
    ensures Contains(line, LogKey) ==> r == LogEntry(level)
    ensures TraceOnly(line) ==> r == TraceEntry(trace)
    ensures !Contains(line, LogKey) && !Contains(line, TraceKey) ==> r == line
  {
    if Contains(line, LogKey) then LogEntry(level)
    else if Contains(line, TraceKey) then TraceEntry(trace)
    else line
  }

  function RewriteLines(lines: seq<string>, level: string, trace: int): (r: seq<string>)
    ensures |r| == |lines| && forall i :: 0 <= i < |lines| ==> r[i] == RewriteLine(lines[i], level, trace)
  {
    seq(|lines|, i requires 0 <= i < |lines| => RewriteLine(lines[i], level, trace))
  }

  /** Overriding keeps each line's kind: a log-level line stays one, a trace-only line stays one. */
  lemma RewriteKeepsKind(line: string, level: string, trace: int)
    ensures Contains(RewriteLine(line, level, trace), LogKey) <==> Contains(line, LogKey)
    ensures TraceOnly(RewriteLine(line, level, trace)) <==> TraceOnly(line)
  {
    EntriesRecognised(level, trace);
  }

  /** So the overridden lines have a log-level entry, or a trace entry, exactly when the original lines did. */
  lemma RewriteKeepsEntries(lines: seq<string>, level: string, trace: int)
    ensures HasLogEntry(RewriteLines(lines, level, trace)) <==> HasLogEntry(lines)
    ensures HasTraceEntry(RewriteLines(lines, level, trace)) <==> HasTraceEntry(lines)
  {
    var r := RewriteLines(lines, level, trace);
    forall i | 0 <= i < |lines|
      ensures (Contains(r[i], LogKey) <==> Contains(lines[i], LogKey)) && (TraceOnly(r[i]) <==> TraceOnly(lines[i]))
    {
      RewriteKeepsKind(lines[i], level, trace);
    }
  }

  /** The loop sets hasLogLevelEntry: some line mentions RLOG_LOG_LEVEL. */
  predicate HasLogEntry(lines: seq<string>)
  {
    exists i :: 0 <= i < |lines| && Contains(lines[i], LogKey)
  }

  /** The loop sets hasTraceLevelEntry: some line mentions RLOG_TRACE_LEVEL and not RLOG_LOG_LEVEL. */
  predicate HasTraceEntry(lines: seq<string>)
  {
    exists i :: 0 <= i < |lines| && TraceOnly(lines[i])
  }

  predicate TraceOnly(line: string)
  {
    !Contains(line, LogKey) && Contains(line, TraceKey)
  }

  function MissingEntries(lines: seq<string>, level: string, trace: int): seq<string>
  {
    (if HasLogEntry(lines) then [] else [LogEntry(level)])
    + (if HasTraceEntry(lines) then [] else [TraceEntry(trace)])
  }

  /** The lines `setGlobalLogConf` writes back for a valid level. */
  function UpdatedConf(lines: seq<string>, level: string, trace: int): (r: seq<string>)
    ensures |r| == |lines| + (if HasLogEntry(lines) then 0 else 1) + (if HasTraceEntry(lines) then 0 else 1)
    ensures forall i :: 0 <= i < |lines| && Contains(lines[i], LogKey) ==> r[i] == LogEntry(level)
    ensures forall i :: 0 <= i < |lines| && TraceOnly(lines[i]) ==> r[i] == TraceEntry(trace)
    ensures forall i :: 0 <= i < |lines| && !Contains(lines[i], LogKey) && !Contains(lines[i], TraceKey) ==>
      r[i] == lines[i]
    ensures !HasLogEntry(lines) ==> r[|lines|] == LogEntry(level)
    ensures !HasTraceEntry(lines) ==> r[|r| - 1] == TraceEntry(trace)
    ensures HasLogEntry(r) && HasTraceEntry(r)
  {
    UpdatedHasBothEntries(lines, level, trace);
    RewriteLines(lines, level, trace) + MissingEntries(lines, level, trace)
  }

  /** After the rewrite both entries are present, whether they were overridden or appended. */
  lemma UpdatedHasBothEntries(lines: seq<string>, level: string, trace: int)
    ensures var r := RewriteLines(lines, level, trace) + MissingEntries(lines, level, trace);
            HasLogEntry(r) && HasTraceEntry(r)
  {
    var r := RewriteLines(lines, level, trace) + MissingEntries(lines, level, trace);
    EntriesRecognised(level, trace);
    if HasLogEntry(lines) {
      var i :| 0 <= i < |lines| && Contains(lines[i], LogKey);
      assert Contains(r[i], LogKey);
    } else {
      assert Contains(r[|lines|], LogKey);
    }
    if HasTraceEntry(lines) {
      var i :| 0 <= i < |lines| && TraceOnly(lines[i]);
      assert TraceOnly(r[i]);
    } else {
      assert TraceOnly(r[|r| - 1]);
    }
  }

  /** The canonical log-level line is a log-level line; the canonical trace line is a trace-only line. */
  lemma EntriesRecognised(level: string, trace: int)
    ensures Contains(LogEntry(level), LogKey)
    ensures TraceOnly(TraceEntry(trace))
  {
    assert OccursAt(LogEntry(level), LogKey, 0);
    assert OccursAt(TraceEntry(trace), TraceKey, 0);
    TraceEntryLacksLogKey(trace);
  }

  lemma TraceEntryLacksLogKey(trace: int)
    ensures !Contains(TraceEntry(trace), LogKey)
  {
    var s := TraceEntry(trace);
    var head := TraceKey + " = ";
    assert |head| == 19;
    forall i | 0 <= i <= |s| - |LogKey|
      ensures !OccursAt(s, LogKey, i)
    {
      if i == 0 {
        assert s[5] == head[5] == 'T';
        assert s[i..i + |LogKey|][5] != LogKey[5];
      } else if i < 19 - |LogKey| + 1 {
        assert s[i] == head[i] != 'R';
        assert s[i..i + |LogKey|][0] != LogKey[0];
      } else if i <= 19 {
        var k := 19 - i;
        assert s[19] == Itoa(trace)[0];
        assert s[i..i + |LogKey|][k] != LogKey[k];
      } else {
        assert s[i] == Itoa(trace)[i - 19];
        assert s[i..i + |LogKey|][0] != LogKey[0];
      }
    }
  }

  /** Rewriting a line that has already been rewritten changes nothing. */
  lemma RewriteLineIdempotent(line: string, level: string, trace: int)
    ensures RewriteLine(RewriteLine(line, level, trace), level, trace) == RewriteLine(line, level, trace)
  {
    EntriesRecognised(level, trace);
  }

  /** Running the rewrite on its own output gives the same lines: both entries are then present. */
  lemma UpdatedConfIdempotent(lines: seq<string>, level: string, trace: int)
    ensures UpdatedConf(UpdatedConf(lines, level, trace), level, trace) == UpdatedConf(lines, level, trace)
  {
    var once := UpdatedConf(lines, level, trace);
    EntriesRecognised(level, trace);
    forall i | 0 <= i < |once|
      ensures RewriteLine(once[i], level, trace) == once[i]
    {
      if i < |lines| {
        RewriteLineIdempotent(lines[i], level, trace);
        assert once[i] == RewriteLine(lines[i], level, trace);
      }
    }
    assert RewriteLines(once, level, trace) == once;
  }

  /**
   * The values the rewrite writes are taken unchanged when read back as rlog's
   * settings: a written level other than TRACE becomes the log level, and a
   * written trace level of at least -1 becomes the trace level.
   */
  lemma EntryValuesAccepted(level: string, trace: int, currentLevel: int, currentTrace: int)
    requires level in LevelNumbers && level != "TRACE"
    requires -1 <= trace <= MaxInt
    ensures Rlog.LevelName(Rlog.ConfiguredLogLevel(level, currentLevel)) == level
    ensures Rlog.ConfiguredTraceLevel(Itoa(trace), currentTrace) == trace
  {
    TablesAgreeWithRlog();
    AtoiItoa(trace);
  }

  /**
   * The expectation of the example's `main`: with the trace level set from the
   * written value, a depth-3 trace message is printed iff that value is at least 3.
   */
  lemma TraceThreeShownIff(s: Rlog.Settings, trace: int, args: seq<string>, caller: Option<Rlog.Frame>)
    requires MinInt <= trace <= MaxInt
    requires s.traceLevel == Rlog.ConfiguredTraceLevel(Itoa(trace), -1)
    ensures s.Trace(3, args, caller).Some? <==> trace >= 3
  {
    AtoiItoa(trace);
  }

  /**
   * `setGlobalLogConf` over the lines of the configuration file: an unknown
   * level is refused and nothing is rewritten; otherwise every key line is
   * overridden in place and missing entries are appended.
   */
  method SetGlobalLogConf(lines: seq<string>, level: string, trace: int) returns (r: Result<seq<string>>)
    ensures level !in LevelNumbers <==> r == Err(InvalidLevel)
    ensures level in LevelNumbers <==> r == Ok(UpdatedConf(lines, level, trace))
  {
    if level in LevelNumbers {
      var out := lines;
      var hasLogLevelEntry := false;
      var hasTraceLevelEntry := false;

      for i := 0 to |lines|
        invariant |out| == |lines|
        invariant forall k :: 0 <= k < i ==> out[k] == RewriteLine(lines[k], level, trace)
        invariant forall k :: i <= k < |lines| ==> out[k] == lines[k]
        invariant hasLogLevelEntry <==> exists k :: 0 <= k < i && Contains(lines[k], LogKey)
        invariant hasTraceLevelEntry <==> exists k :: 0 <= k < i && TraceOnly(lines[k])
      {
        var line := out[i];
        if Contains(line, LogKey) {
          out := out[i := LogEntry(level)];
          hasLogLevelEntry := true;
          continue;
        }

        if Contains(line, TraceKey) {
          out := out[i := TraceEntry(trace)];
          hasTraceLevelEntry := true;
        }
      }
      assert out == RewriteLines(lines, level, trace);
      assert hasLogLevelEntry == HasLogEntry(lines);
      assert hasTraceLevelEntry == HasTraceEntry(lines);
      ghost var missing := MissingEntries(lines, level, trace);

      if !hasLogLevelEntry {
        out := out + [LogEntry(level)];
      }
      if !hasTraceLevelEntry {
        out := out + [TraceEntry(trace)];
      }
      assert out == RewriteLines(lines, level, trace) + missing;
      return Ok(out);
    }

    return Err(InvalidLevel);
  }
}
