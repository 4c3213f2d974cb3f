/** The trace manager (tracer.py, `TraceManager`): the fixed tracers, log
    then VCD, and `auto_probe`, which asks each tracer named in the hints
    and enabled for the scope for a callback and attaches the callbacks it
    collects. The attachment is recorded rather than performed. */
module TraceManager {
  import opened Wrappers
  import opened Values
  import ScopeFilter
  import LogTracer
  import VcdTracer

  /** A callback collected from one of the tracers. */
  datatype Callback = LogProbe(log: LogTracer.ProbeCallback) | VcdProbe(vcd: VcdTracer.ProbeCallback)

  /** One `probe.attach(scope, target, callbacks, **hints)`. */
  datatype Attachment = Attachment(scope: string, target: Target, callbacks: seq<Callback>, hints: Hints)

  /** The manager: its tracers in the order `self.tracers` lists them, and
      the attachments made so far. */
  datatype Manager = Manager(log: LogTracer.Tracer, vcd: VcdTracer.Tracer, attached: seq<Attachment>)

  /** The tracers' names, which are also their hint keys, in order. */
  const LogName: string := "log"
  const VcdName: string := "vcd"

  /** `TraceManager(env)`: the log tracer is built first; if it fails, no
      VCD tracer is built. */
  function New(logCfg: LogTracer.Config, vcdCfg: VcdTracer.Config, ts: LogTracer.Timescale): (r: Result<Manager, Error>)
    ensures r.Failure? <==> LogTracer.New(logCfg, ts).Failure? || VcdTracer.New(vcdCfg).Failure?
    ensures LogTracer.New(logCfg, ts).Failure? ==> r == Failure(LogTracer.New(logCfg, ts).error)
    ensures LogTracer.New(logCfg, ts).Success? && VcdTracer.New(vcdCfg).Failure? ==>
              r == Failure(VcdTracer.New(vcdCfg).error)
    ensures r.Success? ==> r.value.log == LogTracer.New(logCfg, ts).value && LogTracer.Valid(r.value.log)
    ensures r.Success? ==> r.value.vcd == VcdTracer.New(vcdCfg).value
    ensures r.Success? ==> r.value.attached == []
  {
    var log :- LogTracer.New(logCfg, ts);
    var vcd :- VcdTracer.New(vcdCfg);
    Success(Manager(log, vcd, []))
  }

  /** `auto_probe` consults the log tracer: named in the hints and enabled
      for the scope (with no level given). */
  predicate LogConsulted(m: Manager, scope: string, hints: Hints) {
    LogName in hints && ScopeFilter.Accepts(m.log.filter, scope)
  }

  /** `auto_probe` consults the VCD tracer. */
  predicate VcdConsulted(m: Manager, scope: string, hints: Hints) {
    VcdName in hints && ScopeFilter.Accepts(m.vcd.filter, scope)
  }

  /** The log tracer is consulted and provides a callback. */
  predicate LogProvides(m: Manager, scope: string, hints: Hints)
    requires LogTracer.Valid(m.log)
  {
    LogConsulted(m, scope, hints) &&
    var r := LogTracer.ActivateProbe(m.log, scope, hints);
    r.Success? && r.value.Some?
  }

  /** The log tracer is consulted and its activation raises. */
  predicate LogFails(m: Manager, scope: string, hints: Hints)
    requires LogTracer.Valid(m.log)
  {
    LogConsulted(m, scope, hints) && LogTracer.ActivateProbe(m.log, scope, hints).Failure?
  }

  /** The log tracer's part of the loop: the callbacks it contributes. */
  function LogStep(log: LogTracer.Tracer, scope: string, hints: Hints): Result<seq<Callback>, Error>
    requires LogTracer.Valid(log)
  {
    if LogName in hints && LogTracer.IsScopeEnabled(log, scope, NoneV) == Success(true) then
      var cb :- LogTracer.ActivateProbe(log, scope, hints);
      if cb.Some? then Success([LogProbe(cb.value)]) else Success([])
    else Success([])
  }

  /** The VCD tracer's part of the loop: its new state and its callbacks. */
  function VcdStep(vcd: VcdTracer.Tracer, scope: string, target: Target, hints: Hints): Result<(VcdTracer.Tracer, seq<Callback>), Error> {
    if VcdName in hints && ScopeFilter.IsScopeEnabled(vcd.filter, scope) then
      var (vcd', cb) :- VcdTracer.ActivateProbe(vcd, scope, target, hints);
      Success((vcd', [VcdProbe(cb)]))
    else Success((vcd, []))
  }

  /** `TraceManager.auto_probe(scope, target, **hints)`. */
  function AutoProbe(m: Manager, scope: string, target: Target, hints: Hints): (r: Result<Manager, Error>)
    requires LogTracer.Valid(m.log)
    // A scope no tracer takes leaves everything as it was.
    ensures !LogConsulted(m, scope, hints) && !VcdConsulted(m, scope, hints) ==> r == Success(m)
    // An error comes from a consulted tracer's activation, the log's first,
    // and never from the disabled-tracer assertion.
    ensures r.Failure? <==> LogFails(m, scope, hints) ||
                            (VcdConsulted(m, scope, hints) &&
                             VcdTracer.ActivationFails(EntryFor(hints, VcdName), scope, target))
    ensures LogFails(m, scope, hints) ==>
              r == Failure(LogTracer.ActivateProbe(m.log, scope, hints).error)
    ensures r.Failure? && !LogFails(m, scope, hints) ==>
              r == Failure(VcdTracer.ActivateProbe(m.vcd, scope, target, hints).error)
    ensures r.Failure? ==> r.error != AssertionError
    // Activation writes nothing to the log and registers one VCD variable
    // exactly when the VCD tracer is consulted.
    ensures r.Success? ==> r.value.log == m.log
    ensures r.Success? && !VcdConsulted(m, scope, hints) ==> r.value.vcd == m.vcd
    ensures r.Success? && VcdConsulted(m, scope, hints) ==>
              r.value.vcd == VcdTracer.ActivateProbe(m.vcd, scope, target, hints).value.0 &&
              |r.value.vcd.vars| == |m.vcd.vars| + 1 && r.value.vcd.vars[..|m.vcd.vars|] == m.vcd.vars &&
              r.value.vcd.changes == m.vcd.changes
    // At most one attachment, made exactly when some callback was collected.
    ensures r.Success? ==>
              |r.value.attached| == |m.attached| + (if LogProvides(m, scope, hints) || VcdConsulted(m, scope, hints) then 1 else 0) &&
              r.value.attached[..|m.attached|] == m.attached
    // The attachment carries the log callback first, then the VCD callback.
    ensures r.Success? && |r.value.attached| > |m.attached| ==>
              var a := r.value.attached[|m.attached|];
              a.scope == scope && a.target == target && a.hints == hints &&
              |a.callbacks| == (if LogProvides(m, scope, hints) then 1 else 0) + (if VcdConsulted(m, scope, hints) then 1 else 0) &&
              (LogProvides(m, scope, hints) ==>
                 a.callbacks[0] == LogProbe(LogTracer.ActivateProbe(m.log, scope, hints).value.value)) &&
              (VcdConsulted(m, scope, hints) ==>
                 a.callbacks[|a.callbacks| - 1] == VcdProbe(VcdTracer.ProbeCallback(|m.vcd.vars|)))
  {
    var logCbs :- LogStep(m.log, scope, hints);
    var (vcd', vcdCbs) :- VcdStep(m.vcd, scope, target, hints);
    var callbacks := logCbs + vcdCbs;
    if |callbacks| > 0 then
      Success(Manager(m.log, vcd', m.attached + [Attachment(scope, target, callbacks, hints)]))
    else
      Success(Manager(m.log, vcd', m.attached))
  }

  /** A disabled tracer is never activated, whatever the hints. */
  lemma DisabledTracersUntouched(m: Manager, scope: string, target: Target, hints: Hints)
    requires LogTracer.Valid(m.log)
    requires !m.log.filter.enabled && !m.vcd.filter.enabled
    ensures AutoProbe(m, scope, target, hints) == Success(m)
  {
  }
}
