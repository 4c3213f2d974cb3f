/** End-to-end behaviour of the tracers on concrete configurations. */
module Scenarios {
  import opened Wrappers
  import opened Values
  import ScopeFilter
  import LogTracer
  import VcdTracer
  import TraceManager

  const Enabled: ScopeFilter.FilterConfig := ScopeFilter.FilterConfig(Some(true), None, None)

  /** A log tracer at level INFO with the default format drops a DEBUG call
      at `sim.net` and writes exactly one line for an INFO call. */
  lemma InfoTracerFiltersDebug(ts: LogTracer.Timescale, message: Value)
    ensures LogTracer.New(LogTracer.Config(Enabled, Some("INFO"), None), ts).Success?
    ensures var t := LogTracer.New(LogTracer.Config(Enabled, Some("INFO"), None), ts).value;
            var debug := LogTracer.GetLogFunction(t, "sim.net", StrV("DEBUG"));
            var info := LogTracer.GetLogFunction(t, "sim.net", StrV("INFO"));
            && debug == Success(LogTracer.NoOp)
            && LogTracer.CallLogFunction(t, debug.value, IntN(0), message, []).out == []
            && info.Success? && info.value.Emit?
            && var out := LogTracer.CallLogFunction(t, info.value, IntN(0), message, []).out;
               |out| == 1 && out[0].scope == "sim.net" && out[0].message == LogTracer.Text(message)
  {
    var t := LogTracer.New(LogTracer.Config(Enabled, Some("INFO"), None), ts).value;
    ScopeFilter.DefaultsAcceptEverything("sim.net");
    assert t.settings.value.maxLevel == 3;
  }

  /** Probing a container of int level 3 registers one integer variable
      initialised to 3; a change to 5 at time 10 records one transition. */
  lemma ContainerProbe(hints: Hints)
    requires hints == map["vcd" := map[]]
    ensures VcdTracer.New(VcdTracer.Config(Enabled, Some("dump.vcd"))).Success?
    ensures var t := VcdTracer.New(VcdTracer.Config(Enabled, Some("dump.vcd"))).value;
            var r := VcdTracer.ActivateProbe(t, "sim.tank", Container(IntN(3)), hints);
            && r.Success?
            && var (t', cb) := r.value;
               && t'.vars == [VcdTracer.Var(VcdTracer.RegisterInt, "sim", "tank", map["init" := IntV(3)])]
               && VcdTracer.FireProbe(t', cb, IntN(10), IntV(5)).changes == [VcdTracer.Change(0, IntN(10), IntV(5))]
  {
    var vcdHints: HintEntry := map[];
    assert VcdTracer.VarType(vcdHints, "sim.tank", Container(IntN(3))) == Success(StrV("integer"));
    assert VcdTracer.Forwarded(vcdHints) == map[];
    assert VcdTracer.WithDefaultInit(map[], Container(IntN(3))) == map["init" := IntV(3)];
    VcdTracer.SplitJoin("sim", "tank");
    assert "sim" + "." + "tank" == "sim.tank";
  }

  /** A probe hinted only for the log, at a scope the log tracer excludes,
      collects no callback and attaches nothing. */
  lemma ExcludedLogOnlyProbe(m: TraceManager.Manager, target: Target)
    requires LogTracer.Valid(m.log)
    requires m.log.filter == ScopeFilter.Filter(true, [ScopeFilter.MatchAll], [ScopeFilter.Prefix("sim.")])
    ensures TraceManager.AutoProbe(m, "sim.net", target, map["log" := map[]]) == Success(m)
  {
    assert ScopeFilter.Matches(m.log.filter.excludes[0], "sim.net");
  }

  /** An exception at the end of a run with the log tracer enabled writes
      exactly one ERROR line. */
  lemma ExceptionRecord(ts: LogTracer.Timescale, tb: LogTracer.Traceback, now: Num)
    ensures LogTracer.New(LogTracer.Config(Enabled, None, None), ts).Success?
    ensures var t := LogTracer.New(LogTracer.Config(Enabled, None, None), ts).value;
            var out := LogTracer.Exit(t, Some(tb), now).out;
            |out| == 1 && out[0].level == StrV("ERROR") && out[0].scope == "Exception"
  {
  }
}
