/** The log tracer (tracer.py, `LogTracer`): severity filtering on top of
    scope filtering, the time-unit string, two-stage line templates, probe
    callbacks that write one line per value, and the error record written
    when the simulation ends with an exception. The output file is modelled
    as the sequence of lines printed to it. */
module LogTracer {
  import opened Wrappers
  import opened Values
  import opened Decimal
  import ScopeFilter

  /** The severity table `LogTracer.levels`: a smaller rank is more severe. */
  const Levels: map<string, int> :=
    map["ERROR" := 1, "WARNING" := 2, "INFO" := 3, "PROBE" := 4, "DEBUG" := 5]

  /** `LogTracer.default_format`. */
  const DefaultFormat: string := "{level} {ts:.3f} {ts_unit}: {scope}: {message}"

  /** The maximum level used when `sim.log.level` is absent. */
  const DefaultMaxLevel: string := "INFO"

  /** The level and value format a probe gets when its hints name none. */
  const DefaultProbeLevel: Value := StrV("PROBE")
  const DefaultValueFormat: Value := StrV("{value}")

  /** `self.levels[level]`: the rank of a level, `None` when the lookup
      would raise `KeyError`. */
  function Rank(level: Value): (r: Option<int>)
    ensures r.Some? <==> level.StrV? && level.s in Levels
    ensures r.Some? ==> r.value == Levels[level.s]
  {
    if level.StrV? && level.s in Levels then Some(Levels[level.s]) else None
  }

  /** The five level names, from most to least severe. */
  const SeverityOrder: seq<string> := ["ERROR", "WARNING", "INFO", "PROBE", "DEBUG"]

  /** The rank table numbers the levels 1 to 5 in order of decreasing
      severity, and has no other entries. */
  lemma RanksFollowSeverityOrder()
    ensures forall i :: 0 <= i < |SeverityOrder| ==> Rank(StrV(SeverityOrder[i])) == Some(i + 1)
    ensures forall name :: name in Levels <==> name in SeverityOrder
  {
  }

  /** `env.timescale`: a magnitude and a unit, e.g. `(1, 'us')`. */
  datatype Timescale = Timescale(factor: int, unit: string)

  /** The `ts_unit` string `open` derives from the timescale: the unit alone
      for a factor of 1, otherwise `(<factor><unit>)` with no space. */
  function TsUnit(ts: Timescale): (r: string)
    ensures ts.factor == 1 ==> r == ts.unit
    ensures ts.factor != 1 ==> |r| >= 2 && r[0] == '(' && r[|r| - 1] == ')'
    ensures ts.factor != 1 ==> r[1..|r| - 1] == IntToString(ts.factor) + ts.unit
    ensures (forall i :: 0 <= i < |ts.unit| ==> ts.unit[i] != ' ') ==>
              forall i :: 0 <= i < |r| ==> r[i] != ' '
  {
    if ts.factor == 1 then ts.unit
    else
      var r := "(" + IntToString(ts.factor) + ts.unit + ")";
      assert r[1..|r| - 1] == IntToString(ts.factor) + ts.unit;
      r
  }

  /** Recovers a timescale from a time-unit string: the partner of `TsUnit`. */
  function ParseTsUnit(s: string): Timescale {
    if |s| >= 2 && s[0] == '(' && s[|s| - 1] == ')' && DigitRun(s[1..|s| - 1]) > 0 then
      var inner := s[1..|s| - 1];
      var k := DigitRun(inner);
      Timescale(ParseNat(inner[..k]), inner[k..])
    else
      Timescale(1, s)
  }

  /** A unit made of letters such as `us` or `ns`. */
  predicate PlainUnit(unit: string) {
    forall i :: 0 <= i < |unit| ==> !IsDigit(unit[i]) && unit[i] != '('
  }

  /** The time-unit string determines the timescale it was rendered from. */
  lemma TsUnitRoundTrip(ts: Timescale)
    requires ts.factor >= 0 && PlainUnit(ts.unit)
    ensures ParseTsUnit(TsUnit(ts)) == ts
  {
    var r := TsUnit(ts);
    if ts.factor != 1 {
      var d := IntToString(ts.factor);
      var inner := r[1..|r| - 1];
      assert inner == d + ts.unit;
      DigitRunOfDigits(d, ts.unit);
      assert inner[..|d|] == d;
      assert inner[|d|..] == ts.unit;
    } else if |r| >= 2 {
      assert r[0] == ts.unit[0];
    }
  }

  /** What `open` derives from configuration. */
  datatype Settings = Settings(maxLevel: int, format: string, tsUnit: string)

  /** The log tracer's configuration: its filter keys and `sim.log.level`,
      `sim.log.format`; `None` stands for an absent key. */
  datatype Config = Config(filter: ScopeFilter.FilterConfig, level: Option<string>, format: Option<string>)

  /** A log tracer and the lines written to its output so far. `settings`
      exists exactly when the tracer is enabled, since only `open` sets it. */
  datatype Tracer = Tracer(filter: ScopeFilter.Filter, settings: Option<Settings>, out: seq<LogLine>)

  predicate Valid(t: Tracer) {
    t.filter.enabled <==> t.settings.Some?
  }

  /** `LogTracer.open`, less the choice of output stream. */
  function Open(cfg: Config, ts: Timescale): (r: Result<Settings, Error>)
    ensures r.Failure? <==> cfg.level.GetOr(DefaultMaxLevel) !in Levels
    ensures r.Failure? ==> r.error == KeyError(StrV(cfg.level.GetOr(DefaultMaxLevel)))
    ensures r.Success? ==> r.value.maxLevel == Levels[cfg.level.GetOr(DefaultMaxLevel)]
    ensures r.Success? ==> r.value.format == cfg.format.GetOr(DefaultFormat)
    ensures r.Success? ==> r.value.tsUnit == TsUnit(ts)
  {
    var level := cfg.level.GetOr(DefaultMaxLevel);
    if level !in Levels then Failure(KeyError(StrV(level)))
    else Success(Settings(Levels[level], cfg.format.GetOr(DefaultFormat), TsUnit(ts)))
  }

  /** `LogTracer(env)`: `open` runs only for an enabled tracer. */
  function New(cfg: Config, ts: Timescale): (r: Result<Tracer, Error>)
    ensures r.Success? ==> Valid(r.value) && r.value.out == []
    ensures r.Success? ==> r.value.filter == ScopeFilter.FromConfig(cfg.filter)
    ensures r.Success? && r.value.filter.enabled ==> Open(cfg, ts) == Success(r.value.settings.value)
    ensures r.Failure? <==> ScopeFilter.FromConfig(cfg.filter).enabled && Open(cfg, ts).Failure?
    ensures r.Failure? ==> r == Failure(Open(cfg, ts).error)
  {
    var filter := ScopeFilter.FromConfig(cfg.filter);
    if filter.enabled then
      var settings :- Open(cfg, ts);
      Success(Tracer(filter, Some(settings), []))
    else
      Success(Tracer(filter, None, []))
  }

  /** `LogTracer.is_scope_enabled(scope, level)` as written: for a disabled
      tracer a named level reads `self.max_level`, which only `open` sets. */
  function IsScopeEnabledAsWritten(t: Tracer, scope: string, level: Value): (r: Result<bool, Error>)
    ensures r.Failure? <==> level != NoneV && (Rank(level).None? || t.settings.None?)
    ensures level == NoneV ==> r == Success(ScopeFilter.IsScopeEnabled(t.filter, scope))
    ensures level != NoneV && Rank(level).None? ==> r == Failure(KeyError(level))
    ensures level != NoneV && Rank(level).Some? && t.settings.None? ==> r == Failure(AttributeError("max_level"))
  {
    if level == NoneV then Success(ScopeFilter.IsScopeEnabled(t.filter, scope))
    else if Rank(level).None? then Failure(KeyError(level))
    else if t.settings.None? then Failure(AttributeError("max_level"))
    else Success(Rank(level).value <= t.settings.value.maxLevel &&
                 ScopeFilter.IsScopeEnabled(t.filter, scope))
  }

  /** `LogTracer.is_scope_enabled(scope, level)`, with a disabled tracer
      declining every level instead of failing on the unset maximum. */
  function IsScopeEnabled(t: Tracer, scope: string, level: Value): (r: Result<bool, Error>)
    requires Valid(t)
    ensures r.Failure? <==> level != NoneV && Rank(level).None?
    ensures r.Failure? ==> r.error == KeyError(level)
    ensures r.Success? ==>
              (r.value <==> ScopeFilter.Accepts(t.filter, scope) &&
                            (level == NoneV || Rank(level).value <= t.settings.value.maxLevel))
  {
    if level == NoneV then Success(ScopeFilter.IsScopeEnabled(t.filter, scope))
    else if Rank(level).None? then Failure(KeyError(level))
    else Success(t.settings.Some? && Rank(level).value <= t.settings.value.maxLevel &&
                 ScopeFilter.IsScopeEnabled(t.filter, scope))
  }

  /** The two agree on every enabled tracer. */
  lemma AsWrittenAgreesWhenEnabled(t: Tracer, scope: string, level: Value)
    requires Valid(t) && t.filter.enabled
    ensures IsScopeEnabledAsWritten(t, scope, level) == IsScopeEnabled(t, scope, level)
  {
  }

  /** On a disabled tracer any known level makes the code as written raise,
      where a disabled tracer is meant to accept nothing. */
  lemma AsWrittenFailsWhenDisabled(t: Tracer, scope: string, level: Value)
    requires Valid(t) && !t.filter.enabled && Rank(level).Some?
    ensures IsScopeEnabledAsWritten(t, scope, level) == Failure(AttributeError("max_level"))
    ensures IsScopeEnabled(t, scope, level) == Success(false)
  {
  }

  /** Severity filtering is monotone: a scope open at some level is open at
      every more severe level. */
  lemma MoreSevereAlsoEnabled(t: Tracer, scope: string, a: Value, b: Value)
    requires Valid(t) && Rank(a).Some? && Rank(b).Some? && Rank(a).value <= Rank(b).value
    requires IsScopeEnabled(t, scope, b) == Success(true)
    ensures IsScopeEnabled(t, scope, a) == Success(true)
  {
  }

  /** The message part of a line: a log call's message, or a probe value
      rendered through the probe's value format (`value_fmt.format(value=…)`). */
  datatype Message = Text(text: Value) | Formatted(valueFmt: Value, value: Value)

  /** One `print` to the log output: the format string with its five
      fields, then any further positional values printed after it. */
  datatype LogLine = LogLine(
    format: string, level: Value, ts: Num, tsUnit: string, scope: string,
    message: Message, extra: seq<Value>)

  /** A format string with level, time unit and scope bound (the result of
      `partial_format`); time and message are bound per line. */
  datatype Template = Template(format: string, level: Value, tsUnit: string, scope: string)

  function Bind(t: Tracer, scope: string, level: Value): Template
    requires t.settings.Some?
  {
    Template(t.settings.value.format, level, t.settings.value.tsUnit, scope)
  }

  function Render(tpl: Template, now: Num, message: Message, extra: seq<Value>): LogLine {
    LogLine(tpl.format, tpl.level, now, tpl.tsUnit, tpl.scope, message, extra)
  }

  /** Appends one line to the output. */
  function Write(t: Tracer, line: LogLine): (r: Tracer)
    ensures r.filter == t.filter && r.settings == t.settings
    ensures |r.out| == |t.out| + 1 && r.out[..|t.out|] == t.out && r.out[|t.out|] == line
  {
    t.(out := t.out + [line])
  }

  /** The function `get_log_function` returns: a no-op, or one that writes
      a line through its bound template. */
  datatype LogFunction = NoOp | Emit(template: Template)

  /** `LogTracer.get_log_function(scope, level)`. */
  function GetLogFunction(t: Tracer, scope: string, level: Value): (r: Result<LogFunction, Error>)
    requires Valid(t)
    ensures r.Failure? <==> IsScopeEnabled(t, scope, level).Failure?
    ensures r.Failure? ==> r.error == KeyError(level)
    ensures r.Success? ==> (r.value.Emit? <==> IsScopeEnabled(t, scope, level) == Success(true))
    ensures r.Success? && r.value.Emit? ==>
              r.value.template.level == level && r.value.template.scope == scope &&
              r.value.template.tsUnit == t.settings.value.tsUnit &&
              r.value.template.format == t.settings.value.format
  {
    var enabled :- IsScopeEnabled(t, scope, level);
    if enabled then Success(Emit(Bind(t, scope, level))) else Success(NoOp)
  }

  /** Calling a log function with `message, *args` at time `now`. */
  function CallLogFunction(t: Tracer, f: LogFunction, now: Num, message: Value, args: seq<Value>): (r: Tracer)
    ensures r.filter == t.filter && r.settings == t.settings
    ensures f.NoOp? ==> r.out == t.out
    ensures f.Emit? ==> |r.out| == |t.out| + 1 && r.out[..|t.out|] == t.out
    ensures f.Emit? ==>
              var line := r.out[|t.out|];
              line.format == f.template.format && line.tsUnit == f.template.tsUnit &&
              line.level == f.template.level && line.scope == f.template.scope &&
              line.ts == now && line.message == Text(message) && line.extra == args
  {
    match f
    case NoOp => t
    case Emit(tpl) => Write(t, Render(tpl, now, Text(message), args))
  }

  /** The closure `activate_probe` returns. */
  datatype ProbeCallback = ProbeCallback(template: Template, valueFmt: Value)

  /** The level a probe asks for: its `log` hint's `level`, default PROBE. */
  function ProbeLevel(hints: Hints): Value {
    Get(EntryFor(hints, "log"), "level", DefaultProbeLevel)
  }

  /** `LogTracer.activate_probe`: declines (`None`) when the scope is not
      enabled at the probe's level. The target plays no part. */
  function ActivateProbe(t: Tracer, scope: string, hints: Hints): (r: Result<Option<ProbeCallback>, Error>)
    requires Valid(t)
    ensures r.Failure? <==> IsScopeEnabled(t, scope, ProbeLevel(hints)).Failure?
    ensures r.Failure? ==> r.error == KeyError(ProbeLevel(hints))
    ensures r.Success? ==> (r.value.Some? <==> IsScopeEnabled(t, scope, ProbeLevel(hints)) == Success(true))
    ensures r.Success? && r.value.Some? ==>
              r.value.value.template.scope == scope &&
              r.value.value.template.level == ProbeLevel(hints) &&
              r.value.value.template.format == t.settings.value.format &&
              r.value.value.template.tsUnit == t.settings.value.tsUnit &&
              r.value.value.valueFmt == Get(EntryFor(hints, "log"), "value_fmt", DefaultValueFormat)
  {
    var logHints := EntryFor(hints, "log");
    var level := Get(logHints, "level", DefaultProbeLevel);
    var enabled :- IsScopeEnabled(t, scope, level);
    if !enabled then Success(None)
    else
      var valueFmt := Get(logHints, "value_fmt", DefaultValueFormat);
      Success(Some(ProbeCallback(Bind(t, scope, level), valueFmt)))
  }

  /** Invoking a probe callback with a value writes exactly one line. */
  function FireProbe(t: Tracer, cb: ProbeCallback, now: Num, value: Value): (r: Tracer)
    ensures r.filter == t.filter && r.settings == t.settings
    ensures |r.out| == |t.out| + 1 && r.out[..|t.out|] == t.out
    ensures r.out[|t.out|].scope == cb.template.scope && r.out[|t.out|].level == cb.template.level
    ensures r.out[|t.out|].ts == now && r.out[|t.out|].message == Formatted(cb.valueFmt, value)
    ensures r.out[|t.out|].format == cb.template.format && r.out[|t.out|].tsUnit == cb.template.tsUnit
    ensures r.out[|t.out|].extra == []
  {
    Write(t, Render(cb.template, now, Formatted(cb.valueFmt, value), []))
  }

  /** With the default maximum level INFO, a probe that names no level
      (so runs at PROBE) is declined, whatever the scope. */
  lemma DefaultProbeDeclined(cfg: Config, ts: Timescale, scope: string, hints: Hints)
    requires cfg.level.None? && New(cfg, ts).Success?
    requires ProbeLevel(hints) == DefaultProbeLevel
    ensures ActivateProbe(New(cfg, ts).value, scope, hints) == Success(None)
  {
    var t := New(cfg, ts).value;
    if t.filter.enabled {
      assert t.settings.value.maxLevel == 3;
    }
  }

  /** The traceback `traceback.format_exception` returns: frame lines and a
      final line naming the exception. */
  datatype Traceback = Traceback(frames: seq<string>, last: string)

  function StrValues(lines: seq<string>): (vs: seq<Value>)
    ensures |vs| == |lines|
    ensures forall i :: 0 <= i < |lines| ==> vs[i] == StrV(lines[i])
  {
    if |lines| == 0 then [] else [StrV(lines[0])] + StrValues(lines[1..])
  }

  /** `LogTracer.__exit__` before the close: with an exception in flight an
      enabled tracer writes one ERROR record under scope `Exception` whose
      message is the last traceback line, followed by the whole traceback. */
  function Exit(t: Tracer, exc: Option<Traceback>, now: Num): (r: Tracer)
    requires Valid(t)
    ensures r.filter == t.filter && r.settings == t.settings
    ensures |r.out| == |t.out| + (if exc.Some? && t.filter.enabled then 1 else 0)
    ensures r.out[..|t.out|] == t.out
    ensures |r.out| > |t.out| ==>
              var line := r.out[|t.out|];
              line.format == t.settings.value.format && line.tsUnit == t.settings.value.tsUnit &&
              line.level == StrV("ERROR") && line.scope == "Exception" && line.ts == now &&
              line.message == Text(StrV(exc.value.last)) &&
              line.extra == [StrV("\n")] + StrValues(exc.value.frames + [exc.value.last])
  {
    if exc.Some? && t.filter.enabled then
      var tb := exc.value;
      Write(t, Render(Bind(t, "Exception", StrV("ERROR")), now, Text(StrV(tb.last)),
                      [StrV("\n")] + StrValues(tb.frames + [tb.last])))
    else t
  }
}
