/** Scope filtering shared by every tracer: a tracer accepts a dotted scope
    name when it is enabled, some include pattern matches the scope and no
    exclude pattern does (tracer.py, `Tracer.__init__` and
    `Tracer.is_scope_enabled`). */
module ScopeFilter {
  import opened Wrappers

  /** A compiled pattern, abstracted from Python's `re`. `re.match` anchors
      a pattern at the start of the scope and does not require it to reach
      the end, so a pattern is modelled by the scopes it accepts as a
      prefix: `.*` accepts everything, a literal accepts every scope that
      begins with it. */
  datatype Pattern = MatchAll | Prefix(text: string)

  predicate Matches(p: Pattern, scope: string) {
    match p
    case MatchAll => true
    case Prefix(text) => text <= scope
  }

  /** Some pattern of `pats` matches `scope`: the meaning of `any(r.match(scope) for r in pats)`. */
  predicate SomeMatch(pats: seq<Pattern>, scope: string) {
    exists i :: 0 <= i < |pats| && Matches(pats[i], scope)
  }

  /** A tracer's filter. The patterns are only consulted when `enabled`. */
  datatype Filter = Filter(enabled: bool, includes: seq<Pattern>, excludes: seq<Pattern>)

  /** The reference meaning of a filter. */
  predicate Accepts(f: Filter, scope: string) {
    f.enabled && SomeMatch(f.includes, scope) && !SomeMatch(f.excludes, scope)
  }

  /** The configuration keys `sim.<name>.enable`, `.include_pat` and
      `.exclude_pat`; `None` stands for a key that is absent. */
  datatype FilterConfig = FilterConfig(
    enable: Option<bool>,
    includePat: Option<seq<Pattern>>,
    excludePat: Option<seq<Pattern>>)

  /** The default include patterns, `['.*']`. */
  const DefaultInclude: seq<Pattern> := [MatchAll]

  /** The default exclude patterns, `[]`. */
  const DefaultExclude: seq<Pattern> := []

  /** A tracer's filter as `Tracer.__init__` builds it from configuration:
      disabled unless `enable` is set; absent pattern lists take defaults. */
  function FromConfig(cfg: FilterConfig): (f: Filter)
    ensures f.enabled <==> cfg.enable == Some(true)
    ensures cfg.includePat.Some? ==> f.includes == cfg.includePat.value
    ensures cfg.includePat.None? ==> f.includes == [MatchAll]
    ensures cfg.excludePat.Some? ==> f.excludes == cfg.excludePat.value
    ensures cfg.excludePat.None? ==> f.excludes == []
  {
    Filter(cfg.enable.GetOr(false),
           cfg.includePat.GetOr(DefaultInclude),
           cfg.excludePat.GetOr(DefaultExclude))
  }

  /** Whether some pattern of `pats` matches, checked one pattern at a time. */
  function AnyMatches(pats: seq<Pattern>, scope: string): (r: bool)
    ensures r <==> SomeMatch(pats, scope)
  {
    if |pats| == 0 then false
    else Matches(pats[0], scope) || AnyMatches(pats[1..], scope)
  }

  /** `Tracer.is_scope_enabled`: enabled, included, and not excluded. */
  function IsScopeEnabled(f: Filter, scope: string): (r: bool)
    ensures r <==> Accepts(f, scope)
    ensures r ==> f.enabled
  {
    f.enabled && AnyMatches(f.includes, scope) && !AnyMatches(f.excludes, scope)
  }

  /** A disabled tracer accepts no scope, whatever its patterns. */
  lemma DisabledAcceptsNothing(cfg: FilterConfig, scope: string)
    requires cfg.enable != Some(true)
    ensures !IsScopeEnabled(FromConfig(cfg), scope)
  {
  }

  /** An enabled tracer left with the default patterns accepts every scope. */
  lemma DefaultsAcceptEverything(scope: string)
    ensures IsScopeEnabled(FromConfig(FilterConfig(Some(true), None, None)), scope)
  {
    assert Matches(DefaultInclude[0], scope);
  }

  /** Matching is anchored at the start only: a pattern that matches a scope
      matches every scope nested below it. */
  lemma MatchExtends(p: Pattern, scope: string, suffix: string)
    requires Matches(p, scope)
    ensures Matches(p, scope + suffix)
  {
    if p.Prefix? {
      assert (scope + suffix)[..|p.text|] == scope[..|p.text|];
    }
  }

  /** An exclude pattern vetoes a scope whatever the include patterns say. */
  lemma ExcludeWins(f: Filter, scope: string, j: nat)
    requires j < |f.excludes| && Matches(f.excludes[j], scope)
    ensures !IsScopeEnabled(f, scope)
  {
  }
}
