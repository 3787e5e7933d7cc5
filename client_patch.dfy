/** The module-level plumbing of patch.py that carries logic: the
    `with_modules` memoisation of resolved modules and pin, the
    `traced__handle` server span, and the `__datadog_patch` markers that keep
    `patch()` from wrapping twice. */
module ClientPatch {
  import opened Tracing
  import opened Settings

  /** A module object in `sys.modules`, by identity. */
  type ModuleRef = nat

  /** `[sys.modules[mod] for mod in mods]`; None where a name is missing
      (the `KeyError` the wrapper catches). */
  function ResolveModules(mods: seq<string>, sysModules: map<string, ModuleRef>): (r: Option<seq<ModuleRef>>)
    ensures r.Some? <==> forall i :: 0 <= i < |mods| ==> mods[i] in sysModules
    ensures r.Some? ==> |r.value| == |mods| && forall i :: 0 <= i < |mods| ==> r.value[i] == sysModules[mods[i]]
    decreases |mods|
  {
    if mods == [] then Some([])
    else if mods[0] !in sysModules then None
    else
      match ResolveModules(mods[1..], sysModules)
      case None => None
      case Some(rest) => Some([sysModules[mods[0]]] + rest)
  }

  /** The `__dd_cached` attribute: the resolved modules and the pin. */
  datatype Cached = Cached(mods: seq<ModuleRef>, pin: Pin)

  /** Where one call through the wrapper goes: straight to the wrapped
      function, or to the traced function with modules and pin. */
  datatype Dispatch = CallWrapped | CallTraced(mods: seq<ModuleRef>, pin: Pin)

  /** The environment of one call: `sys.modules`, and what `Pin._find`
      returns for the resolved modules and the instance. */
  datatype Env = Env(sysModules: map<string, ModuleRef>, found: Option<Pin>)

  /** One call of the `with_modules` wrapper: the cache afterwards and the
      dispatch. A cached pair is reused without looking at the environment;
      otherwise the call is traced, and the pair cached, only when every
      module is loaded and an enabled pin is found. */
  function CacheStep(cache: Option<Cached>, mods: seq<string>, env: Env): (r: (Option<Cached>, Dispatch))
    ensures cache.Some? ==> r == (cache, CallTraced(cache.value.mods, cache.value.pin))
    ensures cache.None? ==>
      (r.1.CallTraced? <==> ResolveModules(mods, env.sysModules).Some? && env.found.Some? && env.found.value.enabled)
    ensures cache.None? && r.1.CallTraced? ==>
      && r.0 == Some(Cached(r.1.mods, r.1.pin)) && Some(r.1.mods) == ResolveModules(mods, env.sysModules)
      && Some(r.1.pin) == env.found
    ensures cache.None? && r.1.CallWrapped? ==> r.0.None?
  {
    if cache.Some? then (cache, CallTraced(cache.value.mods, cache.value.pin))
    else
      match ResolveModules(mods, env.sysModules)
      case None => (None, CallWrapped)
      case Some(resolved) =>
        match env.found
        case Some(pin) =>
          if pin.enabled then (Some(Cached(resolved, pin)), CallTraced(resolved, pin)) else (None, CallWrapped)
        case None => (None, CallWrapped)
  }

  /** The dispatches of a series of calls through one wrapper. A call goes
      untraced only while nothing is cached, and then only because its own
      environment lacks a module or an enabled pin; untraced calls all come
      before the first traced one. */
  function Dispatches(cache: Option<Cached>, mods: seq<string>, envs: seq<Env>): (ds: seq<Dispatch>)
    ensures |ds| == |envs|
    ensures forall k :: 0 <= k < |ds| && ds[k].CallWrapped? ==>
      && cache.None?
      && !(ResolveModules(mods, envs[k].sysModules).Some? && envs[k].found.Some? && envs[k].found.value.enabled)
    ensures forall i, k :: 0 <= i <= k < |ds| && ds[k].CallWrapped? ==> ds[i].CallWrapped?
    decreases |envs|
  {
    if envs == [] then []
    else
      var (next, d) := CacheStep(cache, mods, envs[0]);
      [d] + Dispatches(next, mods, envs[1..])
  }

  /** Once a call has been traced, every later call is traced with the same
      modules and pin, whatever `sys.modules` holds and whether the pin found
      then is still enabled. */
  lemma {:induction false} TracedDispatchIsSticky(cache: Option<Cached>, mods: seq<string>, envs: seq<Env>, i: nat, j: nat)
    requires i <= j < |envs|
    requires Dispatches(cache, mods, envs)[i].CallTraced?
    ensures Dispatches(cache, mods, envs)[j] == Dispatches(cache, mods, envs)[i]
    decreases |envs|
  {
    var (next, d) := CacheStep(cache, mods, envs[0]);
    if i == 0 {
      if j > 0 {
        assert next == Some(Cached(d.mods, d.pin));
        CachedDispatchesAll(next.value, mods, envs[1..], j - 1);
      }
    } else {
      TracedDispatchIsSticky(next, mods, envs[1..], i - 1, j - 1);
    }
  }

  /** With a cached pair, every call dispatches to it. */
  lemma {:induction false} CachedDispatchesAll(c: Cached, mods: seq<string>, envs: seq<Env>, k: nat)
    requires k < |envs|
    ensures Dispatches(Some(c), mods, envs)[k] == CallTraced(c.mods, c.pin)
    decreases |envs|
  {
    if k > 0 {
      CachedDispatchesAll(c, mods, envs[1..], k - 1);
    }
  }

  /** The function decorated by `with_modules`, which holds the cache. */
  class TracedFunction {
    const mods: seq<string>
    var cached: Option<Cached>

    constructor (mods: seq<string>)
      ensures this.mods == mods && cached == None
    {
      this.mods := mods;
      cached := None;
    }

    method Wrapper(env: Env) returns (d: Dispatch)
      modifies this
      ensures (cached, d) == CacheStep(old(cached), mods, env)
    {
      if cached.Some? {
        return CallTraced(cached.value.mods, cached.value.pin);
      }
      var resolved := ResolveModules(mods, env.sysModules);
      if resolved.None? {
        return CallWrapped;
      }
      if env.found.None? || !env.found.value.enabled {
        return CallWrapped;
      }
      cached := Some(Cached(resolved.value, env.found.value));
      d := CallTraced(resolved.value, env.found.value);
    }
  }

  const HANDLE_SPAN_NAME := "aiohttp.request"

  /** The span `traced__handle` opens around `Application._handle`: measured,
      with the sample rate when analytics applies, and finished when the
      wrapped call returns or raises (`raised`). */
  function HandleSpan(config: IntegrationConfig, globalAnalytics: bool, ambient: Context,
                      spanId: nat, freshTraceId: nat, raised: Option<Exception>): (r: SpanRecord)
    ensures MEASURED_KEY in r.tags && r.finishCount == 1
    ensures ANALYTICS_SAMPLE_RATE_KEY in r.tags <==> AnalyticsApplies(globalAnalytics, config.analyticsEnabled)
    ensures ANALYTICS_SAMPLE_RATE_KEY in r.tags ==> r.tags[ANALYTICS_SAMPLE_RATE_KEY] == SampleRate(config.analyticsSampleRate)
    ensures r.error == 1 <==> raised.Some?
  {
    var begun := Started(HANDLE_SPAN_NAME, ambient, spanId, freshTraceId);
    var tagged := begun.(tags := RequestSpanTags(globalAnalytics, config.analyticsEnabled, config.analyticsSampleRate));
    var done := match raised
      case Some(e) => WithException(tagged, e)
      case None => tagged;
    FinishedIf(done, true)
  }

  /** `traced__handle` behind its `with_modules("aiohttp", "aiohttp.web_app")`
      wrapper: a dispatch to the wrapped `_handle` opens no span. */
  method TracedHandle(handle: TracedFunction, env: Env, globalAnalytics: bool, ambient: Context,
                      spanId: nat, freshTraceId: nat, raised: Option<Exception>) returns (span: Option<Span>)
    modifies handle
    ensures var (c, d) := CacheStep(old(handle.cached), handle.mods, env);
      && handle.cached == c
      && (d.CallWrapped? ==> span.None?)
      && (d.CallTraced? ==>
            span.Some? && fresh(span.value)
            && span.value.Record() == HandleSpan(d.pin.config, globalAnalytics, ambient, spanId, freshTraceId, raised))
  {
    var d := handle.Wrapper(env);
    if d.CallWrapped? {
      return None;
    }
    var cfg := d.pin.config;
    var s := new Span.Start(HANDLE_SPAN_NAME, d.pin.service, WEB_TYPE, ambient, spanId, freshTraceId);
    s.SetTag(MEASURED_KEY, NoneValue);
    if AnalyticsApplies(globalAnalytics, cfg.analyticsEnabled) {
      s.SetTag(ANALYTICS_SAMPLE_RATE_KEY, SampleRate(cfg.analyticsSampleRate));
    }
    if raised.Some? {
      s.SetExcInfo(raised.value);
    }
    s.Finish();
    span := Some(s);
  }

  // ---------------------------------------------------------------------
  // `patch()` and its `__datadog_patch` markers.

  /** The markers on the `aiohttp` and `aiohttp_jinja2` modules and how many
      layers of wrapping each carries. */
  datatype PatchState = PatchState(
    aiohttpMarked: bool, aiohttpLayers: nat,
    jinja2Present: bool, jinja2Marked: bool, jinja2Layers: nat)

  /** `patch_aiohttp_jinja2`: wraps `render_template` unless marked. */
  function Jinja2Patched(s: PatchState): (r: PatchState)
    ensures r.jinja2Marked && r.jinja2Layers == s.jinja2Layers + (if s.jinja2Marked then 0 else 1)
    ensures r.(jinja2Marked := s.jinja2Marked, jinja2Layers := s.jinja2Layers) == s
  {
    if !s.jinja2Marked then s.(jinja2Marked := true, jinja2Layers := s.jinja2Layers + 1) else s
  }

  /** `patch_aiohttp` behind the aiohttp marker. */
  function AiohttpPatched(s: PatchState): (r: PatchState)
    ensures r.aiohttpMarked && r.aiohttpLayers == s.aiohttpLayers + (if s.aiohttpMarked then 0 else 1)
    ensures r.(aiohttpMarked := s.aiohttpMarked, aiohttpLayers := s.aiohttpLayers) == s
  {
    if !s.aiohttpMarked then s.(aiohttpMarked := true, aiohttpLayers := s.aiohttpLayers + 1) else s
  }

  /** `patch()` as written: it sets the jinja2 marker and then calls
      `patch_aiohttp_jinja2`, which finds the marker set and does nothing. */
  function PatchAsWritten(s: PatchState): (r: PatchState)
    ensures r.aiohttpMarked && r.aiohttpLayers == s.aiohttpLayers + (if s.aiohttpMarked then 0 else 1)
    ensures r.jinja2Layers == s.jinja2Layers
    ensures r.jinja2Marked == (s.jinja2Marked || s.jinja2Present)
  {
    var a := AiohttpPatched(s);
    if a.jinja2Present && !a.jinja2Marked then Jinja2Patched(a.(jinja2Marked := true)) else a
  }

  /** On a fresh `aiohttp_jinja2`, the code as written marks the module
      without wrapping `render_template`; the intended `patch()` wraps it
      once. */
  lemma PatchAsWrittenNeverWrapsJinja2(s: PatchState)
    requires s.jinja2Present && !s.jinja2Marked
    ensures PatchAsWritten(s).jinja2Marked && PatchAsWritten(s).jinja2Layers == s.jinja2Layers
    ensures Patched(s).jinja2Marked && Patched(s).jinja2Layers == s.jinja2Layers + 1
  {
  }

  /** `patch()` as intended: `patch_aiohttp_jinja2` alone checks and sets
      the jinja2 marker. */
  function Patched(s: PatchState): (r: PatchState)
    ensures r.aiohttpMarked && r.aiohttpLayers == s.aiohttpLayers + (if s.aiohttpMarked then 0 else 1)
    ensures r.jinja2Present == s.jinja2Present
    ensures s.jinja2Present ==> r.jinja2Marked && r.jinja2Layers == s.jinja2Layers + (if s.jinja2Marked then 0 else 1)
    ensures !s.jinja2Present ==> r.jinja2Marked == s.jinja2Marked && r.jinja2Layers == s.jinja2Layers
  {
    var a := AiohttpPatched(s);
    if a.jinja2Present then Jinja2Patched(a) else a
  }

  /** Patching twice is patching once. */
  lemma PatchIdempotent(s: PatchState)
    ensures Patched(Patched(s)) == Patched(s)
  {
  }

  /** From unpatched modules, any number of `patch()` calls leaves exactly
      one layer of wrapping on each module present. */
  lemma {:induction false} RepeatedPatchOneLayer(s: PatchState, n: nat)
    requires !s.aiohttpMarked && s.aiohttpLayers == 0 && !s.jinja2Marked && s.jinja2Layers == 0
    requires n >= 1
    ensures PatchTimes(s, n).aiohttpLayers == 1
    ensures PatchTimes(s, n).jinja2Layers == if s.jinja2Present then 1 else 0
    decreases n
  {
    if n > 1 {
      RepeatedPatchOneLayer(s, n - 1);
      PatchIdempotent(PatchTimes(s, n - 2));
    }
  }

  function PatchTimes(s: PatchState, n: nat): PatchState
    decreases n
  {
    if n == 0 then s else Patched(PatchTimes(s, n - 1))
  }

  /** The two modules' patch markers and wrapping layers. */
  class Modules {
    var aiohttpMarked: bool
    var aiohttpLayers: nat
    const jinja2Present: bool
    var jinja2Marked: bool
    var jinja2Layers: nat

    function State(): PatchState
      reads this
    {
      PatchState(aiohttpMarked, aiohttpLayers, jinja2Present, jinja2Marked, jinja2Layers)
    }

    constructor (jinja2Present: bool)
      ensures State() == PatchState(false, 0, jinja2Present, false, 0)
    {
      aiohttpMarked := false;
      aiohttpLayers := 0;
      this.jinja2Present := jinja2Present;
      jinja2Marked := false;
      jinja2Layers := 0;
    }

    method PatchJinja2()
      modifies this
      ensures State() == Jinja2Patched(old(State()))
    {
      if !jinja2Marked {
        jinja2Marked := true;
        jinja2Layers := jinja2Layers + 1;
      }
    }

    method Patch()
      modifies this
      ensures State() == Patched(old(State()))
    {
      if !aiohttpMarked {
        aiohttpMarked := true;
        aiohttpLayers := aiohttpLayers + 1;
      }
      if jinja2Present {
        PatchJinja2();
      }
    }
  }
}
