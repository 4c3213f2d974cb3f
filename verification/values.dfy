/** The Python values that flow through the tracers: hint values, probe
    values, VCD initial values, simulation targets and the exceptions the
    tracers raise. */
module Values {

  /** A simulation number: simpy levels and `env.now` are ints or floats.
      Only the distinction matters here; no float arithmetic is modelled. */
  datatype Num = IntN(i: int) | RealN(r: real)

  /** A value a call site may put into a hint dictionary or pass to a probe. */
  datatype Value = NoneV | IntV(i: int) | RealV(r: real) | StrV(s: string)

  /** A number as a value: an int stays an int, a float stays a float. */
  function FromNum(n: Num): Value
  {
    match n
    case IntN(i) => IntV(i)
    case RealN(r) => RealV(r)
  }

  /** The probed simulation object, closed over the shapes the VCD tracer
      distinguishes: a `simpy.Container` (its level), a `simpy.Resource`
      (its number of current users), a `simpy.Store` (its number of items)
      and anything else. */
  datatype Target = Container(level: Num) | Resource(users: nat) | Store(items: nat) | Other

  /** The exceptions the modelled code raises. */
  datatype Error =
    | KeyError(key: Value)
    | ValueError(message: string)
    | AttributeError(attribute: string)
    | AssertionError

  /** The options one tracer reads from its own hint entry (`hints['log']`). */
  type HintEntry = map<string, Value>

  /** The `**hints` keyword arguments of `auto_probe`: tracer name to entry. */
  type Hints = map<string, HintEntry>

  /** `hints.get(name, {})` */
  function EntryFor(hints: Hints, name: string): HintEntry
  {
    if name in hints then hints[name] else map[]
  }

  /** `entry.get(key, default)` */
  function Get(entry: HintEntry, key: string, default: Value): Value
  {
    if key in entry then entry[key] else default
  }
}
