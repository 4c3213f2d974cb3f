/** The VCD tracer (tracer.py, `VCDTracer.activate_probe`): choosing a
    variable type and initial value for a probed target, registering one
    variable under the scope's parent and leaf names, and recording one
    timestamped change per callback call. The VCD writer is modelled as a
    registry of the variables registered and the changes recorded. */
module VcdTracer {
  import opened Wrappers
  import opened Values
  import ScopeFilter

  /** The writer method a registration goes through. */
  datatype RegisterMethod = RegisterInt | RegisterReal | RegisterEvent | RegisterVar

  /** One registered variable: the method used, the parent scope, the leaf
      name and the keyword arguments passed to it. */
  datatype Var = Var(register: RegisterMethod, parent: string, name: string, kwargs: map<string, Value>)

  /** One `vcd.change(var, timestamp, value)`; `id` indexes the registry. */
  datatype Change = Change(id: nat, time: Num, value: Value)

  /** A VCD tracer and its writer's registry. */
  datatype Tracer = Tracer(filter: ScopeFilter.Filter, vars: seq<Var>, changes: seq<Change>)

  /** The VCD tracer's configuration: its filter keys and the required
      `sim.vcd.dump_file`; `None` stands for an absent key. */
  datatype Config = Config(filter: ScopeFilter.FilterConfig, dumpFile: Option<string>)

  /** The `KeyError` `open` raises when `sim.vcd.dump_file` is absent. */
  const MissingDumpFile: Error := KeyError(StrV("sim.vcd.dump_file"))

  /** `VCDTracer(env)`: an enabled tracer opens its writer, which needs the
      dump file key; the registry starts empty. */
  function New(cfg: Config): (r: Result<Tracer, Error>)
    ensures r.Failure? <==> ScopeFilter.FromConfig(cfg.filter).enabled && cfg.dumpFile.None?
    ensures r.Failure? ==> r.error == MissingDumpFile
    ensures r.Success? ==> r.value.vars == [] && r.value.changes == []
    ensures r.Success? ==> r.value.filter == ScopeFilter.FromConfig(cfg.filter)
  {
    var filter := ScopeFilter.FromConfig(cfg.filter);
    if filter.enabled && cfg.dumpFile.None? then Failure(MissingDumpFile)
    else Success(Tracer(filter, [], []))
  }

  /** The only hint keys passed through to the writer. */
  const ForwardedKeys: set<string> := {"size", "init", "ident"}

  /** The message of the `ValueError` raised for a target of unknown shape. */
  function InferenceMessage(scope: string): string {
    "Could not infer VCD var_type for " + scope
  }

  /** The `ValueError` raised when a scope without a dot is unpacked into
      parent and leaf. */
  const UnpackError: Error := ValueError("not enough values to unpack (expected 2, got 1)")

  /** The explicit `var_type` hint, `NoneV` when there is none. */
  function HintedVarType(vcdHints: HintEntry): Value {
    Get(vcdHints, "var_type", NoneV)
  }

  /** The variable type: an explicit hint wins; otherwise it is inferred
      from the target's shape, and a target of unknown shape is an error. */
  function VarType(vcdHints: HintEntry, scope: string, target: Target): (r: Result<Value, Error>)
    ensures HintedVarType(vcdHints) != NoneV ==> r == Success(HintedVarType(vcdHints))
    ensures HintedVarType(vcdHints) == NoneV ==>
              match target
              case Container(level) => r == Success(if level.RealN? then StrV("real") else StrV("integer"))
              case Resource(_) => r == Success(StrV("integer"))
              case Store(_) => r == Success(StrV("integer"))
              case Other => r == Failure(ValueError(InferenceMessage(scope)))
  {
    var hinted := HintedVarType(vcdHints);
    if hinted != NoneV then Success(hinted)
    else
      match target
      case Container(level) => Success(if level.RealN? then StrV("real") else StrV("integer"))
      case Resource(_) => Success(StrV("integer"))
      case Store(_) => Success(StrV("integer"))
      case Other => Failure(ValueError(InferenceMessage(scope)))
  }

  /** The hints forwarded as keyword arguments: `size`, `init`, `ident`. */
  function Forwarded(vcdHints: HintEntry): (kw: map<string, Value>)
    ensures kw.Keys == vcdHints.Keys * ForwardedKeys
    ensures forall k :: k in kw ==> kw[k] == vcdHints[k]
  {
    map k | k in vcdHints && k in ForwardedKeys :: vcdHints[k]
  }

  /** The register method for a variable type, with the keyword arguments
      it receives: `register_var` also receives the type itself. */
  function Dispatch(varType: Value, kwargs: map<string, Value>): (r: (RegisterMethod, map<string, Value>))
    ensures r.0 == RegisterVar <==> varType !in {StrV("integer"), StrV("real"), StrV("event")}
    ensures r.0 == RegisterInt <==> varType == StrV("integer")
    ensures r.0 == RegisterReal <==> varType == StrV("real")
    ensures r.0 == RegisterEvent <==> varType == StrV("event")
    ensures r.0 != RegisterVar ==> r.1 == kwargs
    ensures r.0 == RegisterVar ==> r.1 == kwargs["var_type" := varType]
  {
    if varType == StrV("integer") then (RegisterInt, kwargs)
    else if varType == StrV("real") then (RegisterReal, kwargs)
    else if varType == StrV("event") then (RegisterEvent, kwargs)
    else (RegisterVar, kwargs["var_type" := varType])
  }

  /** The dispatch as written: the fallback reads `self.vcd_register_var`,
      an attribute the tracer does not have. */
  function DispatchAsWritten(varType: Value): (r: Result<RegisterMethod, Error>)
    ensures r.Failure? <==> varType !in {StrV("integer"), StrV("real"), StrV("event")}
    ensures r.Failure? ==> r.error == AttributeError("vcd_register_var")
    ensures r.Success? ==> r.value == Dispatch(varType, map[]).0
  {
    if varType == StrV("integer") then Success(RegisterInt)
    else if varType == StrV("real") then Success(RegisterReal)
    else if varType == StrV("event") then Success(RegisterEvent)
    else Failure(AttributeError("vcd_register_var"))
  }

  /** The initial value read off the target when no `init` hint is given:
      a container's level, a resource's user count (`'z'` with no users), a
      store's item count; nothing for other targets. */
  function DefaultInit(target: Target): (r: Option<Value>)
    ensures r.None? <==> target.Other?
    ensures target.Container? ==> r == Some(FromNum(target.level))
    ensures target.Resource? ==> r == Some(if target.users > 0 then IntV(target.users) else StrV("z"))
    ensures target.Store? ==> r == Some(IntV(target.items))
  {
    match target
    case Container(level) => Some(FromNum(level))
    case Resource(users) => Some(if users > 0 then IntV(users) else StrV("z"))
    case Store(items) => Some(IntV(items))
    case Other => None
  }

  function WithDefaultInit(kwargs: map<string, Value>, target: Target): (r: map<string, Value>)
    ensures "init" in kwargs ==> r == kwargs
    ensures "init" !in kwargs && target.Other? ==> r == kwargs
    ensures "init" !in kwargs && !target.Other? ==> r == kwargs["init" := DefaultInit(target).value]
  {
    if "init" in kwargs then kwargs
    else
      match DefaultInit(target)
      case Some(v) => kwargs["init" := v]
      case None => kwargs
  }

  /** The position of the last dot of `s`, if any. */
  function LastDot(s: string): (r: Option<nat>)
    ensures r.None? <==> '.' !in s
    ensures r.Some? ==> r.value < |s| && s[r.value] == '.'
    ensures r.Some? ==> forall j :: r.value < j < |s| ==> s[j] != '.'
  {
    if |s| == 0 then None
    else if s[|s| - 1] == '.' then Some(|s| - 1)
    else
      var r := LastDot(s[..|s| - 1]);
      assert s == s[..|s| - 1] + [s[|s| - 1]];
      r
  }

  /** `parent_scope, name = scope.rsplit('.', 1)`. */
  function SplitScope(scope: string): (r: Result<(string, string), Error>)
    ensures r.Failure? <==> '.' !in scope
    ensures r.Failure? ==> r.error == UnpackError
    ensures r.Success? ==> r.value.0 + "." + r.value.1 == scope
    ensures r.Success? ==> '.' !in r.value.1
  {
    match LastDot(scope)
    case None => Failure(UnpackError)
    case Some(i) =>
      var parent := scope[..i];
      var leaf := scope[i + 1..];
      assert parent + "." + leaf == scope;
      assert forall j :: 0 <= j < |leaf| ==> leaf[j] == scope[i + 1 + j];
      Success((parent, leaf))
  }

  /** Joining a parent and a dotless leaf and splitting again gives them back. */
  lemma SplitJoin(parent: string, leaf: string)
    requires '.' !in leaf
    ensures SplitScope(parent + "." + leaf) == Success((parent, leaf))
  {
    var scope := parent + "." + leaf;
    assert scope[|parent|] == '.';
    assert forall j :: |parent| < j < |scope| ==> scope[j] == leaf[j - |parent| - 1];
    var i := LastDot(scope).value;
    assert i == |parent|;
    assert scope[..i] == parent;
    assert scope[i + 1..] == leaf;
  }

  /** The closure `activate_probe` returns: it holds the registered variable. */
  datatype ProbeCallback = ProbeCallback(id: nat)

  /** The variable an activation of a probe with these hints on this target
      must register under `scope`: stated independently of how the
      activation computes it. */
  predicate RegisteredAs(v: Var, scope: string, target: Target, vcdHints: HintEntry) {
    && v.parent + "." + v.name == scope
    && '.' !in v.name
    && v.kwargs.Keys <= ForwardedKeys + {"var_type"}
    && (forall k :: k in {"size", "ident"} ==>
          (k in v.kwargs <==> k in vcdHints) && (k in vcdHints ==> v.kwargs[k] == vcdHints[k]))
    && ("init" in v.kwargs <==> "init" in vcdHints || !target.Other?)
    && ("init" in vcdHints ==> v.kwargs["init"] == vcdHints["init"])
    && ("init" !in vcdHints && !target.Other? ==> v.kwargs["init"] == DefaultInit(target).value)
    && ("var_type" in v.kwargs <==> v.register == RegisterVar)
    && (v.register == RegisterVar ==> v.kwargs["var_type"] == HintedVarType(vcdHints))
    && (HintedVarType(vcdHints) != NoneV ==>
          v.register == Dispatch(HintedVarType(vcdHints), map[]).0)
    && (HintedVarType(vcdHints) == NoneV ==>
          v.register == (if target.Container? && target.level.RealN? then RegisterReal else RegisterInt))
  }

  /** Whether an activation on an enabled tracer fails. */
  predicate ActivationFails(vcdHints: HintEntry, scope: string, target: Target) {
    (HintedVarType(vcdHints) == NoneV && target.Other?) || '.' !in scope
  }

  /** `VCDTracer.activate_probe`, with the fallback dispatch calling the
      writer's `register_var`. Registers exactly one variable. */
  function ActivateProbe(t: Tracer, scope: string, target: Target, hints: Hints): (r: Result<(Tracer, ProbeCallback), Error>)
    ensures !t.filter.enabled ==> r == Failure(AssertionError)
    ensures t.filter.enabled ==> (r.Failure? <==> ActivationFails(EntryFor(hints, "vcd"), scope, target))
    ensures t.filter.enabled && HintedVarType(EntryFor(hints, "vcd")) == NoneV && target.Other? ==>
              r == Failure(ValueError(InferenceMessage(scope)))
    ensures r.Failure? && r.error != AssertionError ==> r.error.ValueError?
    ensures r.Success? ==>
              var (t', cb) := r.value;
              t'.filter == t.filter && t'.changes == t.changes &&
              |t'.vars| == |t.vars| + 1 && t'.vars[..|t.vars|] == t.vars &&
              cb.id == |t.vars| &&
              RegisteredAs(t'.vars[cb.id], scope, target, EntryFor(hints, "vcd"))
  {
    if !t.filter.enabled then Failure(AssertionError)
    else
      var vcdHints := EntryFor(hints, "vcd");
      var varType :- VarType(vcdHints, scope, target);
      var (register, kwargs) := Dispatch(varType, Forwarded(vcdHints));
      var kwargs' := WithDefaultInit(kwargs, target);
      var names :- SplitScope(scope);
      var v := Var(register, names.0, names.1, kwargs');
      Success((t.(vars := t.vars + [v]), ProbeCallback(|t.vars|)))
  }

  /** `VCDTracer.activate_probe` as written: any variable type other than
      integer, real and event fails on the missing `vcd_register_var`,
      after type inference and before the scope is split. */
  function ActivateProbeAsWritten(t: Tracer, scope: string, target: Target, hints: Hints): (r: Result<(Tracer, ProbeCallback), Error>)
    ensures !t.filter.enabled ==> r == Failure(AssertionError)
    ensures r.Success? ==> r == ActivateProbe(t, scope, target, hints)
    ensures r == Failure(AttributeError("vcd_register_var")) <==>
              t.filter.enabled &&
              HintedVarType(EntryFor(hints, "vcd")) !in {NoneV, StrV("integer"), StrV("real"), StrV("event")}
  {
    if !t.filter.enabled then Failure(AssertionError)
    else
      var varType :- VarType(EntryFor(hints, "vcd"), scope, target);
      var _ :- DispatchAsWritten(varType);
      ActivateProbe(t, scope, target, hints)
  }

  /** The code as written and the corrected dispatch agree unless the
      variable type is explicit and not one of integer, real and event. */
  lemma AsWrittenAgreesOnKnownTypes(t: Tracer, scope: string, target: Target, hints: Hints)
    requires HintedVarType(EntryFor(hints, "vcd")) in {NoneV, StrV("integer"), StrV("real"), StrV("event")}
    ensures ActivateProbeAsWritten(t, scope, target, hints) == ActivateProbe(t, scope, target, hints)
  {
  }

  /** Any other explicit type makes the code as written fail whatever the
      scope, while the corrected activation registers it via `register_var`
      exactly when the scope has a dot. */
  lemma AsWrittenFailsOnOtherTypes(t: Tracer, scope: string, target: Target, hints: Hints)
    requires t.filter.enabled
    requires HintedVarType(EntryFor(hints, "vcd")) !in {NoneV, StrV("integer"), StrV("real"), StrV("event")}
    ensures ActivateProbeAsWritten(t, scope, target, hints) == Failure(AttributeError("vcd_register_var"))
    ensures ActivateProbe(t, scope, target, hints).Success? <==> '.' in scope
    ensures ActivateProbe(t, scope, target, hints).Success? ==>
              var (t', cb) := ActivateProbe(t, scope, target, hints).value;
              t'.vars[cb.id].register == RegisterVar &&
              t'.vars[cb.id].kwargs["var_type"] == HintedVarType(EntryFor(hints, "vcd"))
  {
  }

  /** The callback: each call records exactly one change of its variable. */
  function FireProbe(t: Tracer, cb: ProbeCallback, now: Num, value: Value): (r: Tracer)
    ensures r.filter == t.filter && r.vars == t.vars
    ensures |r.changes| == |t.changes| + 1 && r.changes[..|t.changes|] == t.changes
    ensures r.changes[|t.changes|] == Change(cb.id, now, value)
  {
    t.(changes := t.changes + [Change(cb.id, now, value)])
  }

  /** Without a type hint a container's type follows its level: `real` for
      a float level, `integer` for an int level. */
  lemma ContainerTypeFollowsLevel(t: Tracer, scope: string, level: Num, hints: Hints)
    requires t.filter.enabled && '.' in scope
    requires HintedVarType(EntryFor(hints, "vcd")) == NoneV
    ensures ActivateProbe(t, scope, Container(level), hints).Success?
    ensures var (t', cb) := ActivateProbe(t, scope, Container(level), hints).value;
            t'.vars[cb.id].register == (if level.RealN? then RegisterReal else RegisterInt)
  {
  }
}
