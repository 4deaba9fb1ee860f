/** The per-call caching policy: `DEFAULT_META` overridden by the
    middleware's `globalOptions`, overridden by the action's `meta`
    (src/index.js:6-10, 39-43), with `enabled` and `ttl` either constants or
    functions of the store state (src/index.js:50, 55). */
module Policy {
  import opened Wrappers
  import opened Values

  /** A policy field that is either a constant or a function of `getState`. */
  datatype Dyn<T> = Static(value: T) | FromState(read: AppState -> T)

  /** `typeof d === 'function' ? d(getState) : d`. */
  function Eval<T>(d: Dyn<T>, state: AppState): T
  {
    match d
    case Static(v) => v
    case FromState(read) => read(state)
  }

  /** `isEqual(key, args)`: the caller-supplied equivalence on argument lists. */
  type Equality = (Args, Args) -> bool

  /** Stand-in for `lodash/isEqual`: structural equality. */
  function DeepEqual(a: Args, b: Args): bool
  {
    a == b
  }

  /** The policy keys an options object may set; `None` is an absent key. */
  datatype Meta = Meta(ttl: Option<Dyn<int>>, enabled: Option<Dyn<bool>>, isEqual: Option<Equality>)

  /** A fully resolved policy. */
  datatype Settings = Settings(ttl: Dyn<int>, enabled: Dyn<bool>, isEqual: Equality)

  /** `DEFAULT_META`: ttl 0, enabled, deep equality. */
  function Defaults(): Settings
  {
    Settings(Static(0), Static(true), DeepEqual)
  }

  /** The meta object with no keys, `{}`. */
  function NoKeys(): Meta
  {
    Meta(None, None, None)
  }

  /** `x || {}` for an optional options object (`None` stands for a falsy one). */
  function OrEmpty(m: Option<Meta>): Meta
  {
    if m.Some? then m.value else NoKeys()
  }

  /** `{ ...base, ...over }`: every key `over` sets replaces `base`'s. */
  function Spread(base: Settings, over: Meta): Settings
  {
    Settings(
      if over.ttl.Some? then over.ttl.value else base.ttl,
      if over.enabled.Some? then over.enabled.value else base.enabled,
      if over.isEqual.Some? then over.isEqual.value else base.isEqual)
  }

  /** `{ ...DEFAULT_META, ...(globalOptions || {}), ...(meta || {}) }`. */
  function Resolve(globalOptions: Option<Meta>, meta: Option<Meta>): Settings
  {
    Spread(Spread(Defaults(), OrEmpty(globalOptions)), OrEmpty(meta))
  }

  /** Spreading `{}` changes nothing. */
  lemma SpreadNoKeys(base: Settings)
    ensures Spread(base, NoKeys()) == base
  {
  }

  /** Field-wise precedence: a key of the action's `meta` wins; otherwise a key
      of `globalOptions`; otherwise the default. */
  lemma ResolvePrecedence(globalOptions: Option<Meta>, meta: Option<Meta>)
    ensures var s := Resolve(globalOptions, meta);
      var g, m := OrEmpty(globalOptions), OrEmpty(meta);
      && s.ttl == (if m.ttl.Some? then m.ttl.value
                   else if g.ttl.Some? then g.ttl.value else Static(0))
      && s.enabled == (if m.enabled.Some? then m.enabled.value
                       else if g.enabled.Some? then g.enabled.value else Static(true))
      && s.isEqual == (if m.isEqual.Some? then m.isEqual.value
                       else if g.isEqual.Some? then g.isEqual.value else DeepEqual)
  {
  }

  /** With no options anywhere, nothing is stored (ttl 0), caching is on,
      and keys are compared structurally. */
  lemma ResolveDefaults()
    ensures var s := Resolve(None, None);
      && (forall st :: Eval(s.ttl, st) == 0)
      && (forall st :: Eval(s.enabled, st))
      && (forall a, b :: s.isEqual(a, b) <==> a == b)
  {
  }
}
