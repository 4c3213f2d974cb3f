# desmod tracing core, modelled in Dafny

This project models the probe-activation and filtering logic of desmod's
tracing layer (`desmod/tracer.py`). A simulation component asks the trace
manager to probe a target under a dotted scope name. The manager asks each
tracer, the log tracer then the VCD tracer, for a callback, and attaches
the callbacks it collects to the probe.

- `ScopeFilter`: the include/exclude pattern filter every tracer applies.
  Patterns are abstracted to `MatchAll` (`.*`) and literal prefixes, which
  gives the start-anchored semantics of `re.match`.
- `LogTracer`: the severity table, the time-unit string, level-aware scope
  filtering, `get_log_function`, `activate_probe`, the probe callback and
  the error record `__exit__` writes. The log output is the sequence of
  lines printed to it. Each line is a record of the format string and its
  fields, because rendering is opaque here.
- `VcdTracer`: `activate_probe`. It covers the variable type chosen from a
  hint or the target's shape, the forwarded `size`/`init`/`ident` hints,
  the default initial value, the register-method dispatch and the
  parent/leaf split of the scope. Its callback appends one change. The VCD
  writer is an abstract registry of variables and changes.
- `TraceManager`: construction in the order log, VCD, and `auto_probe`.
  A call to `probe.attach` is recorded as an `Attachment`.
- `Decimal`: Python's `str()` of an integer, for the scaled time unit.
- `Values`, `Wrappers`: Python values, simulation targets, exceptions,
  `Option` and `Result`. An exception the code raises is a `Failure`.
- `Scenarios`: four end-to-end scenarios proved on concrete configurations.

Targets form a closed datatype: `Container(level)`, `Resource(users)`,
`Store(items)` and `Other`. A level is an int or a float. The code's float
test is only a type test.

The model follows the code on these points:
- a `Resource` with no current users starts at `'z'`, whatever its capacity;
- a scaled time unit is rendered `(10us)`, with no space;
- the VCD tracer's hint key is `vcd`;
- an explicit variable type other than integer, real or event fails with an
  `AttributeError` (see Findings).

## Model

| member | source | states |
|---|---|---|
| ScopeFilter.FromConfig | desmod/tracer.py:25-31 | a tracer is enabled exactly when `enable` is set to true; the include patterns default to `['.*']` and the exclude patterns to `[]`; configured patterns are used as given |
| ScopeFilter.AnyMatches | desmod/tracer.py:35-36 | the result is true exactly when some pattern of the list matches the scope at its start |
| ScopeFilter.IsScopeEnabled | desmod/tracer.py:33-36 | a scope is accepted iff the tracer is enabled, some include pattern matches and no exclude pattern matches |
| ScopeFilter.DisabledAcceptsNothing | desmod/tracer.py:25-36 | a tracer whose `enable` key is absent or false accepts no scope, whatever its patterns |
| ScopeFilter.DefaultsAcceptEverything | desmod/tracer.py:28-31 | an enabled tracer with the default patterns (`['.*']`, `[]`) accepts every scope |
| ScopeFilter.MatchExtends | desmod/tracer.py:35-36 | a match-all or literal-prefix pattern that matches a scope also matches every scope that extends it |
| ScopeFilter.ExcludeWins | desmod/tracer.py:36 | one matching exclude pattern rejects the scope whatever the include patterns say |
| Decimal.ParseNatToString | desmod/tracer.py:77 | reading back the decimal digits of a number gives the number |
| Decimal.IntToString | desmod/tracer.py:77 | `str(n)` starts with a minus sign exactly for negative `n`, has no leading zero (0 renders as `0`), and its digits read back to the magnitude of `n` |
| LogTracer.RanksFollowSeverityOrder | desmod/tracer.py:59-65 | the table ranks ERROR, WARNING, INFO, PROBE, DEBUG as 1 to 5 in that order and has no other entries |
| LogTracer.TsUnit | desmod/tracer.py:73-77 | a factor of 1 gives the unit unchanged; any other factor gives `(`, the decimal factor, the unit and `)`, with no space added |
| LogTracer.TsUnitRoundTrip | desmod/tracer.py:73-77 | for non-negative factors and letter units, the timescale can be read back from the time-unit string |
| LogTracer.Rank | desmod/tracer.py:59-65 | a level has a rank exactly when it is one of the five names of the severity table, and the rank is the table's entry |
| LogTracer.Open | desmod/tracer.py:67-77 | the maximum level is the rank of `sim.log.level` (default INFO), and an unknown level raises KeyError; the format is `sim.log.format` (default: the default format); the time unit is derived from the timescale |
| LogTracer.New | desmod/tracer.py:21-31 | the filter comes from the configuration; an enabled tracer holds exactly the settings `open` derives, a disabled one holds none; construction fails exactly when the tracer is enabled and `open` fails, with `open`'s error; the output starts empty |
| LogTracer.IsScopeEnabledAsWritten | desmod/tracer.py:96-98 | with no level it is the scope filter (false on a disabled tracer); an unknown named level raises KeyError(level), checked first; a known level raises AttributeError on a disabled tracer, and otherwise is compared with the maximum level |
| LogTracer.IsScopeEnabled | desmod/tracer.py:96-98 | with no level it is the scope filter; with a known level it accepts iff rank(level) <= max level and the scope filter accepts; an unknown level raises KeyError |
| LogTracer.AsWrittenAgreesWhenEnabled | desmod/tracer.py:96-98 | on an enabled tracer, the code as written and the corrected filter give the same answer for every scope and level |
| LogTracer.AsWrittenFailsWhenDisabled | desmod/tracer.py:96-98 | on a disabled tracer, any known level makes the code as written raise AttributeError, while the corrected filter says false |
| LogTracer.MoreSevereAlsoEnabled | desmod/tracer.py:96-98 | if a scope is enabled at some level, it is enabled at every more severe level |
| LogTracer.GetLogFunction | desmod/tracer.py:100-114 | (corrected filter) it returns the writing function exactly when the scope is enabled at that level, otherwise the no-op; an unknown level raises KeyError(level); the template binds the level, scope, time unit and format |
| LogTracer.CallLogFunction | desmod/tracer.py:107-112 | the no-op writes nothing; a bound function writes exactly one line with its format, time unit, scope and level, the current time, the message and the extra arguments |
| LogTracer.ActivateProbe | desmod/tracer.py:116-132 | (corrected filter) the probe level defaults to PROBE and the value format to `{value}`; a callback is returned exactly when the scope is enabled at that level, otherwise None; an unknown probe level raises KeyError(level); its template binds the scope, level, the tracer's format and time unit |
| LogTracer.FireProbe | desmod/tracer.py:127-130 | each call of the probe callback appends exactly one line: the template's format, time unit, scope and level, the current time, the value in the probe's value format, and no extra arguments |
| LogTracer.DefaultProbeDeclined | desmod/tracer.py:69-70 | under the default maximum level INFO, a probe that names no level is declined, whatever the scope |
| LogTracer.Exit | desmod/tracer.py:85-93 | when an exception is in flight, an enabled tracer appends exactly one line: the tracer's format and time unit, ERROR level, scope `Exception`, the last traceback line as message, then the traceback; otherwise nothing is written |
| VcdTracer.New | desmod/tracer.py:21-31 | the filter comes from the configuration; an enabled tracer fails with KeyError exactly when `sim.vcd.dump_file` is absent; the registry starts empty |
| VcdTracer.VarType | desmod/tracer.py:154-165 | an explicit `var_type` hint wins; otherwise a container gives `real` for a float level and `integer` for any other level; a resource or store gives `integer`; any other target raises a ValueError naming the scope |
| VcdTracer.Forwarded | desmod/tracer.py:167-169 | the keyword arguments are exactly the hints among `size`, `init` and `ident`, with their values |
| VcdTracer.Dispatch | desmod/tracer.py:171-179 | integer, real and event select their own register method; any other type selects `register_var` and adds itself as `var_type` |
| VcdTracer.DispatchAsWritten | desmod/tracer.py:171-179 | as written, every type other than integer, real and event raises AttributeError for `vcd_register_var` |
| VcdTracer.DefaultInit | desmod/tracer.py:181-187 | the default initial value is a container's level, a resource's user count (`'z'` with no users) or a store's item count, and none for any other target |
| VcdTracer.WithDefaultInit | desmod/tracer.py:181-187 | an `init` hint is kept unchanged; otherwise the target's default initial value is added when it has one |
| VcdTracer.LastDot | desmod/tracer.py:189 | it finds the last dot of the scope, and finds none exactly when the scope has no dot |
| VcdTracer.SplitScope | desmod/tracer.py:189 | parent + "." + leaf is the scope and the leaf has no dot; a dotless scope raises ValueError |
| VcdTracer.SplitJoin | desmod/tracer.py:189 | splitting parent + "." + leaf, for a dotless leaf, gives back parent and leaf |
| VcdTracer.ActivateProbe | desmod/tracer.py:151-195 | a disabled tracer fails the assertion; an enabled one fails exactly when the type cannot be inferred or the scope has no dot; otherwise it registers exactly one variable with the required split, keyword arguments, initial value and register method, and returns a callback for it |
| VcdTracer.ActivateProbeAsWritten | desmod/tracer.py:151-195 | a disabled tracer fails the assertion first; an enabled one raises AttributeError exactly for an explicit type other than integer, real or event; any success is the same as the corrected activation |
| VcdTracer.AsWrittenAgreesOnKnownTypes | desmod/tracer.py:171-179 | with no type hint, or a hint of integer, real or event, the code as written and the corrected activation agree |
| VcdTracer.AsWrittenFailsOnOtherTypes | desmod/tracer.py:171-179 | with any other explicit type, the code as written always raises AttributeError; the corrected activation registers through `register_var` exactly when the scope has a dot |
| VcdTracer.FireProbe | desmod/tracer.py:192-193 | each call of the callback appends exactly one change (variable, now, value) and registers nothing |
| VcdTracer.ContainerTypeFollowsLevel | desmod/tracer.py:156-160 | without a type hint, a container registers as real when its level is a float and as integer otherwise |
| TraceManager.New | desmod/tracer.py:200-204 | the log tracer is built first, and its failure aborts construction with its error; then the VCD tracer is built, and its failure aborts construction too; the manager holds exactly the tracers their constructors give, and no attachments |
| TraceManager.AutoProbe | desmod/tracer.py:212-220 | (corrected VCD activation) a tracer is activated only when its name is a hint key and it accepts the scope, so a disabled VCD tracer never reaches its assertion; it fails exactly when a consulted tracer's activation raises, and with that activation's error, the log's first; activation writes no log line; the VCD tracer's state becomes exactly what its activation gives, one new variable, exactly when it is consulted; one attachment is made exactly when a callback was collected, with the log callback before the VCD callback |
| TraceManager.DisabledTracersUntouched | desmod/tracer.py:212-215 | when both tracers are disabled, `auto_probe` changes nothing, whatever the hints |
| Scenarios.InfoTracerFiltersDebug | desmod/tracer.py:96-114 | a tracer at level INFO turns a DEBUG call at `sim.net` into a no-op, and writes exactly one line for an INFO call |
| Scenarios.ContainerProbe | desmod/tracer.py:151-195 | a container of int level 3 registers one integer variable `sim`/`tank` initialised to 3; a change to 5 at time 10 records exactly that one transition |
| Scenarios.ExcludedLogOnlyProbe | desmod/tracer.py:212-220 | a probe hinted only for the log, at a scope the log excludes, attaches nothing and changes nothing |
| Scenarios.ExceptionRecord | desmod/tracer.py:85-93 | an exception on an enabled log tracer writes exactly one ERROR line under scope `Exception` |

## Findings

| source | as written | input that shows it | evidently intended | confidence | as-written member | corrected member |
|---|---|---|---|---|---|---|
| desmod/tracer.py:178 | the fallback reads `self.vcd_register_var`, which the tracer does not have | `auto_probe('top.sig', target, vcd={'var_type': 'wire'})` on an enabled VCD tracer raises AttributeError | `self.vcd.register_var`, which registers the variable with `var_type='wire'` | high; not executed | VcdTracer.ActivateProbeAsWritten | VcdTracer.ActivateProbe |
| desmod/tracer.py:96-98 | with a level given, the code reads `self.max_level`, which only `open()` sets, so a disabled log tracer raises | `get_log_function('top', 'INFO')` on a log tracer with `sim.log.enable` unset raises AttributeError | a disabled tracer accepts no scope, so the no-op function is returned | high; not executed | LogTracer.IsScopeEnabledAsWritten | LogTracer.IsScopeEnabled |

`LogTracer.AsWrittenFailsWhenDisabled` and `VcdTracer.AsWrittenFailsOnOtherTypes` exhibit the two discrepancies. The rest of the model uses the corrected members.

## Left out

- File handling: opening and closing the log file, the standard-error fallback (`sim.log.file`), creating the VCD dump file and `check_values`, and the `ExitStack` plumbing behind `close` and `__exit__`. These are I/O lifecycles; the outputs are modelled as sequences. Only the absence of `sim.vcd.dump_file` is modelled, as the KeyError it raises.
- Spawning the GTKWave viewer (`sim.gtkw.live`). This is external process I/O. The `KeyError` `open` raises when `sim.gtkw.live` is set and `sim.gtkw.file` is absent is not modelled either.
- `VCDWriter` internals: value checking, time ordering, duplicate-variable checks and the VCD text format. Registering and changing are appends to an abstract registry.
- The regular-expression engine and `re.compile` errors. Patterns are the abstract `MatchAll` and literal prefixes.
- `partial_format`, `str.format` and `print` rendering, including `{ts:.3f}`. A log line is the record of its format string and fields.
- `traceback.format_exception`. A traceback is given as its frame lines and final line.
- `probe.attach` internals. An attachment is recorded, and the callbacks are not invoked by the model.
- Timescale factors that are floats. The factor is an integer.
- Hint values for `log` or `vcd` that are not dictionaries. Every hint entry is a map.
- The abstract `Tracer.open` and `Tracer.activate_probe`, which only raise NotImplementedError.
- `desmod/workspacesync/s3.py`, which is network upload through a thread pool and is not part of this model.
- LogTracer.TsUnitRoundTrip: covers only non-negative factors and units without digits or parentheses, because other units can make the rendered string ambiguous.
