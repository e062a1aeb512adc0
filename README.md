# rlog: levels, thresholds and the config-file rewrite, in Dafny

This project models the core of the rlog Go logging package and proves properties of that model.

rlog is configured from three environment variables:
- `RLOG_LOG_LEVEL` names a minimum severity;
- `RLOG_TRACE_LEVEL` gives a maximum trace depth, where -1 means no tracing;
- `RLOG_CALLER_INFO` is a boolean that adds caller information to each line.

The model covers:

- **Levels** (`Rlog`): the seven level constants, TRACE=0 through NONE=6, and the two translation tables.
- **Settings** (`Rlog.Settings`): a class with the three package globals.
  - Its constructor gives the defaults.
  - `Init` is the package's `init`. It sets each global step by step from the three environment strings. A value that is unknown or malformed is silently ignored.
- **Admission and line assembly** (`Rlog.Settings.BasicLog`, `Trace`, `Tracef` and the per-level wrappers). These are pure functions over the settings.
  - Each returns the line handed to `log.Printf`: `LEVEL[(n)]: [callerinfo ]message`.
  - Each returns `None` when the message is suppressed.
- **Go's `strconv`** (`Strconv`): `Atoi`, `Itoa` and `ParseBool`, as the logger uses them. Go's `int` is taken to be 64 bits. `Atoi` returns `None` where Go returns an error, including a value out of range.
- **The config rewrite** (`SetLogLevels`): `setGlobalLogConf` from the example program, working on the file's lines.
  - It checks the level name against the example's own copy of the table. That copy numbers the levels in reverse: NONE=0 through TRACE=6.
  - Every line that mentions `RLOG_LOG_LEVEL` is overwritten with the canonical log-level entry.
  - Every other line that mentions `RLOG_TRACE_LEVEL` is overwritten with the canonical trace entry.
  - A missing entry is appended.
  - The method is a loop over the lines, proved against the specification function `UpdatedConf`.

Inputs that the model takes as parameters:
- The environment values.
- The frame that `runtime.Caller(2)` reports: `None` models its failure.
- `fmt.Sprintf`: a function parameter.
- The message operands, as strings already rendered by `%v`.

`fmt.Sprintln` over those strings is modelled: operands are joined by single spaces and a newline is appended.

The code is followed where the prose around it says otherwise:

- The comment at rlog.go:52 says that "yes" enables caller info. The code uses `strconv.ParseBool`, which accepts only `1 t T TRUE true True` and `0 f F FALSE false False`. So in the model, "yes" leaves the flag unchanged, as in the code.
- The comment at rlog.go:46-47 says every trace message with a level at most RLOG_TRACE_LEVEL is printed. The code at rlog.go:201 also requires the depth to be at least 0, so negative depths are never printed. The model follows the code.
- `rlog_test.go` and `doc.go` describe features this `rlog.go` does not have:
  - the `Initialize` call and the `rlogConfig` record (rlog_test.go:34-50, rlog_test.go:103);
  - per-file filter patterns such as `rlog_test.go=WARN` (rlog_test.go:222);
  - level names padded to nine columns, as in `"DEBUG    : Test Debug"` (rlog_test.go:112);
  - time formats, log streams and log files (rlog_test.go:45-47, rlog_test.go:178);
  - the `RLOG_LOG_NOTIME` and `RLOG_LOG_FILE` variables (doc.go:43-52).

  None of these are modelled. Only what `rlog.go` and `examples/setLogLevels.go` contain is modelled.
- `setGlobalLogConf` accepts "TRACE", because its table has that key. rlog's `init` ignores TRACE as a log level.

## Model

| member | source | states |
|---|---|---|
| `Rlog.LevelTablesInverse` | rlog.go:87-117 | levelStrings is defined exactly on 0..6; the two tables are mutually inverse |
| `Rlog.ConfiguredLogLevel` | rlog.go:135-144 | a known name other than TRACE becomes the level whose name it is; any other value (unknown name, TRACE) leaves the setting unchanged; it stays within DEBUG..NONE |
| `Rlog.ConfiguredCallerInfo` | rlog.go:146-150 | the flag is true iff the value is one of the six true spellings, or the flag was already true and the value is not one of the six false spellings |
| `Rlog.ConfiguredTraceLevel` | rlog.go:152-160 | an integer of at least -1 that parses is taken; the setting otherwise stays as it was; it stays at least -1 |
| `Rlog.Settings.constructor` | rlog.go:122-124 | defaults: trace level -1, log level INFO, no caller info |
| `Rlog.Settings.Init` | rlog.go:128-161 | each global is the configured value of its environment string applied to its old value; the invariant (log level in DEBUG..NONE, trace level at least -1) is preserved |
| `Rlog.Startup` | rlog.go:119-161 | the defaults followed by init give the three configured values applied to the defaults, and the invariant |
| `Rlog.Settings.CallerInfo` | rlog.go:175-182 | empty when caller info is off or the caller is unknown; otherwise a non-empty bracketed `[...] ` segment |
| `Rlog.LevelName` | rlog.go:191 | a table level's name maps back to that level through levelNumbers; any other level reads as "" (Go's zero value) |
| `Rlog.TracePrefix` | rlog.go:202 | the trace suffix is `(`, the decimal depth, `)`; the text between the parentheses parses back to the depth |
| `Rlog.YesLeavesCallerInfoOff` | rlog.go:147-150 | "yes" does not switch caller info on, because ParseBool rejects it |
| `Rlog.Sprintln` | rlog.go:189 | the println-style body begins with the first operand and ends in a newline; a single operand gives that operand followed by a newline |
| `Rlog.Settings.Admits` | rlog.go:171-173 | TRACE is always admitted; a level at or above the configured one is admitted; a non-trace level below it is not |
| `Rlog.PlainIsEmptyFormat` | rlog.go:200-267 | each plain variant (Trace, Debug, Info, Warn, Error, Critical) gives the same line as its formatted variant with an empty format string |
| `Rlog.Settings.BasicLog` | rlog.go:167-193 | a line is produced iff the level is TRACE or at least the configured level; the line is level name, prefix addition, ": ", caller info and message |
| `Rlog.Settings.Trace` | rlog.go:200-205 | a line is produced iff 0 <= depth <= trace level; it reads `TRACE(<depth>): ` then caller info and the println-style body |
| `Rlog.Settings.Tracef` | rlog.go:208-213 | as Trace, with the formatted body |
| `Rlog.Settings.Debug` | rlog.go:216-218 | emitted iff the log level is at most DEBUG, as `DEBUG: ` + caller info + println body |
| `Rlog.Settings.Debugf` | rlog.go:221-223 | emitted iff the log level is at most DEBUG, as `DEBUG: ` + caller info + formatted body |
| `Rlog.Settings.Info` | rlog.go:226-228 | emitted iff the log level is at most INFO, with the `INFO: ` tag and println body |
| `Rlog.Settings.Infof` | rlog.go:232-234 | emitted iff the log level is at most INFO, with the `INFO: ` tag and formatted body |
| `Rlog.Settings.Warn` | rlog.go:237-239 | emitted iff the log level is at most WARN, with the `WARN: ` tag and println body |
| `Rlog.Settings.Warnf` | rlog.go:243-245 | emitted iff the log level is at most WARN, with the `WARN: ` tag and formatted body |
| `Rlog.Settings.Error` | rlog.go:248-250 | emitted iff the log level is at most ERROR, with the `ERROR: ` tag and println body |
| `Rlog.Settings.Errorf` | rlog.go:254-256 | emitted iff the log level is at most ERROR, with the `ERROR: ` tag and formatted body |
| `Rlog.Settings.Critical` | rlog.go:259-261 | emitted iff the log level is at most CRITICAL, with the `CRITICAL: ` tag and println body |
| `Rlog.Settings.Criticalf` | rlog.go:265-267 | emitted iff the log level is at most CRITICAL, with the `CRITICAL: ` tag and formatted body |
| `Rlog.AdmissionIsThreshold` | rlog.go:171-173 | a DEBUG..CRITICAL message passes the filter iff its level is at least the configured one |
| `Rlog.AdmissionMonotone` | rlog.go:37-41 | if a non-trace level passes, every more severe level passes |
| `Rlog.NoneSilencesLevels` | rlog.go:39-41 | with NONE configured, no DEBUG..CRITICAL line is produced |
| `Rlog.DisabledTraceSilent` | rlog.go:46-51 | with trace level -1, or for a negative depth, no trace line is produced |
| `Rlog.NameReadsBack` | rlog.go:191-192 | the upper-case run at the start of an assembled line is the level's name, which maps back to the level |
| `Rlog.EmittedLineNamesLevel` | rlog.go:191-192 | every emitted line starts with a name that levelNumbers maps to the message's level |
| `Rlog.TraceLineCarriesDepth` | rlog.go:202-203 | an emitted trace line starts `TRACE(`, and the digits up to `)` parse back to the depth |
| `Strconv.Atoi` | rlog.go:155 | a parsed trace level always fits a 64-bit int and comes from a value starting with a digit or sign |
| `Strconv.ParseBool` | rlog.go:148 | true for exactly the six true spellings, false for exactly the six false spellings, error otherwise |
| `Strconv.Itoa` | examples/setLogLevels.go:104 | the decimal text is non-empty and made of digits and '-' |
| `Strconv.AtoiItoa` | examples/setLogLevels.go:104 | the decimal text written for a trace level parses back to that level |
| `Strconv.ItoaInjective` | rlog.go:202 | distinct depths print as distinct decimal text |
| `SetLogLevels.TablesAgreeWithRlog` | examples/setLogLevels.go:18-48 | the copied table has the same seven names as rlog's and numbers them as 6 minus rlog's number; its levelStrings is defined on exactly 0..6 and its two tables are inverse in both directions |
| `SetLogLevels.ContainsPrefix` | examples/setLogLevels.go:97 | a sanity check that the model of strings.Contains agrees with Go's: it holds of every prefix and of the empty string (it says nothing about the rewrite itself) |
| `SetLogLevels.RewriteLine` | examples/setLogLevels.go:96-107 | a line with the log key becomes the log entry, even if it also has the trace key (the `continue`); a trace-only line becomes the trace entry; a line with neither key is unchanged |
| `SetLogLevels.RewriteKeepsKind` | examples/setLogLevels.go:96-107 | overriding a line keeps whether it has the log key and whether it is trace-only |
| `SetLogLevels.RewriteKeepsEntries` | examples/setLogLevels.go:93-107 | the overridden lines have a log-level entry, or a trace entry, exactly when the original lines did |
| `SetLogLevels.EntriesRecognised` | examples/setLogLevels.go:97-106 | the canonical log-level entry mentions RLOG_LOG_LEVEL; the canonical trace entry mentions RLOG_TRACE_LEVEL and not RLOG_LOG_LEVEL |
| `SetLogLevels.TraceEntryLacksLogKey` | examples/setLogLevels.go:104 | no canonical trace entry contains RLOG_LOG_LEVEL, whatever the number |
| `SetLogLevels.UpdatedConf` | examples/setLogLevels.go:92-115 | log-key lines become the log entry; trace-only lines become the trace entry; other lines stay in place unchanged; the length grows by the number of missing entries; the log entry is appended first and the trace entry last; afterwards both entries exist |
| `SetLogLevels.UpdatedHasBothEntries` | examples/setLogLevels.go:109-115 | after overriding and appending, both a log-level line and a trace-only line are present |
| `SetLogLevels.RewriteLineIdempotent` | examples/setLogLevels.go:96-107 | overriding a line that was already overridden gives the same line |
| `SetLogLevels.UpdatedConfIdempotent` | examples/setLogLevels.go:92-115 | rewriting the output again with the same arguments gives the same lines |
| `SetLogLevels.EntryValuesAccepted` | examples/setLogLevels.go:134-139 | were the written value strings given to init as the environment values, they would be taken unchanged: a level other than TRACE by name, a trace level of at least -1 through Atoi |
| `SetLogLevels.TraceThreeShownIff` | examples/setLogLevels.go:136-139 | with the trace level set from a written value, a depth-3 trace message is printed iff that value is at least 3, for every 64-bit written value, including those below -1 that rlog ignores (so after trace 1 it is silent, after trace 3 it is printed) |
| `SetLogLevels.SetGlobalLogConf` | examples/setLogLevels.go:79-132 | an unknown level gives the invalid-level error and no lines; a known one gives exactly the UpdatedConf lines |

## Left out

- Environment lookup (`os.Getenv`): the three values are parameters of `Init`.
- Stack introspection (`runtime.Caller`, `FuncForPC`): the caller frame is a parameter, and `None` models `runtime.Caller` failing. The model does not capture that the frame is looked up only when caller info is enabled.
- `fmt.Sprintf` and the `%v` rendering of arbitrary operands: these are foreign formatting. `Sprintf` is a function parameter, and the operands are strings rendered already.
- The output itself: `log.Printf`, the standard logger's timestamp prefix, and its appending of a missing trailing newline. The model returns the composed line instead of writing it.
- Concurrency: the globals are written once at package initialisation, and the model does not address concurrent readers.
- `Strconv.Atoi`: Go's error values are not modelled, and neither is the clamped value that Go returns beside a range error. Both are collapsed into `None`, because `init` only asks whether the error is nil.
- In the rewrite, the file read and write around the loop are not modelled:
  - `ioutil.ReadFile`, `strings.Split`, `strings.Join` and `ioutil.WriteFile`;
  - the two I/O error messages;
  - the call to `rlog.SetConfFile`, which `rlog.go` does not define.

  The rewrite works on the file's lines directly.
- The HTTP handler `LogConfHandler`: this is web framework plumbing.
- SetLogLevels.EntryValuesAccepted and SetLogLevels.TraceThreeShownIff: they feed the bare written values to rlog's `init` as environment values. The example reaches rlog through `rlog.SetConfFile` and a reload of the written file. Neither exists in `rlog.go`, and nothing in it reads `/tmp/rlog.conf`. So the model does not connect the written `KEY = value` lines to rlog's settings.
- The example's `main`: its calls in sequence are not modelled. Its expectation about `Trace(3)` is stated in `SetLogLevels.TraceThreeShownIff`.
- `examples/example.go` and `doc.go`: they contain no logic of their own.
