/** The server side of the integration in middlewares.py: the request
    middleware that opens the `aiohttp.request` span, the `on_prepare`
    signal that names and finishes it, and `trace_app`, which installs both.

    In the repository this implementation is quoted out: it sits inside a
    triple-quoted string (middlewares.py:22-164), and the `trace_app` that
    is actually defined does nothing (middlewares.py:167-168). The model
    follows the quoted text as the intended behaviour; `TraceAppStub` is the
    live definition. */
module ServerMiddleware {
  import opened Text
  import opened Tracing
  import opened Settings

  // Keys of the application and request mappings.
  const CONFIG_KEY := "datadog_trace"
  const REQUEST_CONTEXT_KEY := "datadog_context"
  const REQUEST_CONFIG_KEY := "__datadog_trace_config"
  const REQUEST_SPAN_KEY := "__datadog_request_span"

  const REQUEST_SPAN_NAME := "aiohttp.request"

  /** Python's `KeyError` for a missing mapping key. */
  function KeyError(key: string): Exception {
    Exception("KeyError", key)
  }

  /** The `app[CONFIG_KEY]` dictionary. `traceQueryString` is Unset when the
      dictionary has no `trace_query_string` entry (and `trace_app` never
      writes one). */
  datatype AppConfig = AppConfig(
    service: string,
    distributedTracing: bool,
    analyticsEnabled: TriBool,
    sampleRate: Option<Value>,
    traceQueryString: TriBool)

  // ---------------------------------------------------------------------
  // `on_prepare`: naming and finishing the request span.

  /** A `get_info()` entry that is present and non-empty (Python truthiness). */
  predicate Truthy(info: map<string, string>, key: string) {
    key in info && info[key] != ""
  }

  /** The part of the resource taken from the route: path, else formatter,
      else prefix, else the status. */
  function RouteResource(info: map<string, string>, status: nat): (part: string)
    ensures part != ""
    ensures part in info.Values || part == NatToDecimal(status)
  {
    if Truthy(info, "path") then info["path"]
    else if Truthy(info, "formatter") then info["formatter"]
    else if Truthy(info, "prefix") then info["prefix"]
    else NatToDecimal(status)
  }

  /** The resource `on_prepare` gives the request span. `route` is the
      route resource's `get_info()`, None when the route has no resource. */
  function ResourceName(httpMethod: string, status: nat, route: Option<map<string, string>>): (name: string)
    ensures route.None? ==> name == NatToDecimal(status)
    ensures route.Some? ==>
      && |name| > |httpMethod| + 1
      && name[..|httpMethod|] == httpMethod && name[|httpMethod|] == ' '
      && name[|httpMethod| + 1..] == RouteResource(route.value, status)
  {
    match route
    case None => NatToDecimal(status)
    case Some(info) => httpMethod + " " + RouteResource(info, status)
  }

  /** The priority of the resource name's sources. */
  lemma ResourcePriority(httpMethod: string, status: nat, info: map<string, string>)
    ensures Truthy(info, "path") ==> ResourceName(httpMethod, status, Some(info)) == httpMethod + " " + info["path"]
    ensures !Truthy(info, "path") && Truthy(info, "formatter") ==>
      ResourceName(httpMethod, status, Some(info)) == httpMethod + " " + info["formatter"]
    ensures !Truthy(info, "path") && !Truthy(info, "formatter") && Truthy(info, "prefix") ==>
      ResourceName(httpMethod, status, Some(info)) == httpMethod + " " + info["prefix"]
    ensures !Truthy(info, "path") && !Truthy(info, "formatter") && !Truthy(info, "prefix") ==>
      ResourceName(httpMethod, status, Some(info)) == httpMethod + " " + NatToDecimal(status)
  {
  }

  /** A dynamic route answered with 404, and a request matched to no
      resource. */
  lemma ResourceNameExamples()
    ensures ResourceName("GET", 404, Some(map["formatter" := "/users/{id}", "pattern" := "^/users/(?P<id>[^{}/]+)$"]))
            == "GET /users/{id}"
    ensures ResourceName("GET", 404, Some(map["path" := "", "prefix" := "/static"])) == "GET /static"
    ensures ResourceName("POST", 503, None) == "503"
  {
    assert NatToDecimal(503) == NatToDecimal(50) + [DigitChar(3)];
    assert NatToDecimal(50) == NatToDecimal(5) + [DigitChar(0)];
  }

  /** A resource named after the bare status is all digits and reads back
      as that status. */
  lemma {:induction false} BareStatusResourceReadsBack(httpMethod: string, status: nat)
    ensures AllDigits(ResourceName(httpMethod, status, None))
    ensures DecimalToNat(ResourceName(httpMethod, status, None)) == status
  {
    DecimalRoundTrip(status);
  }

  /** Bare-status resources of different statuses differ. */
  lemma {:induction false} BareStatusResourceInjective(m1: string, s1: nat, m2: string, s2: nat)
    ensures ResourceName(m1, s1, None) == ResourceName(m2, s2, None) <==> s1 == s2
  {
    DecimalInjective(s1, s2);
  }

  /** A routed resource always has the method and a space in front, so it is
      never taken for a bare status, whatever the two statuses. */
  lemma {:induction false} RoutedResourceNeverBareStatus(m1: string, s1: nat, info: map<string, string>, m2: string, s2: nat)
    ensures ResourceName(m1, s1, Some(info)) != ResourceName(m2, s2, None)
  {
    var routed := ResourceName(m1, s1, Some(info));
    var bare := ResourceName(m2, s2, None);
    assert routed[|m1|] == ' ';
    if |bare| > |m1| {
      assert IsDigit(bare[|m1|]);
    }
  }

  /** The per-request `trace_query_string`, falling back to the global
      setting only when it is None. */
  function TraceQueryString(perRequest: TriBool, globalSetting: bool): (on: bool)
    ensures perRequest == Yes ==> on
    ensures perRequest == No ==> !on
    ensures perRequest == Unset ==> (on <==> globalSetting)
  {
    perRequest == Yes || (perRequest == Unset && globalSetting)
  }

  /** `on_prepare` on a request that holds a span: the span afterwards, and
      the `KeyError` raised when the request holds no configuration. Error
      flag, resource and the method, status and URL tags are set before the
      configuration is looked up, so they survive the exception; the
      query-string tag and the finish do not happen. */
  function Prepared(span: SpanRecord, httpMethod: string, url: Url, route: Option<map<string, string>>,
                    status: nat, config: Option<AppConfig>, globalTraceQueryString: bool): (r: (SpanRecord, Result<()>))
    ensures r.0.resource == ResourceName(httpMethod, status, route)
    ensures r.0.error == if 500 <= status < 600 then 1 else span.error
    ensures METHOD_TAG in r.0.tags && r.0.tags[METHOD_TAG] == Str(httpMethod)
    ensures STATUS_CODE_TAG in r.0.tags && r.0.tags[STATUS_CODE_TAG] == Int(status)
    ensures URL_TAG in r.0.tags && r.0.tags[URL_TAG] == Link(url.(query := ""))
    ensures forall k :: k in span.tags && k !in {METHOD_TAG, STATUS_CODE_TAG, URL_TAG, QUERY_STRING_TAG} ==>
      k in r.0.tags && r.0.tags[k] == span.tags[k]
    ensures r.0.tags.Keys <= span.tags.Keys + {METHOD_TAG, STATUS_CODE_TAG, URL_TAG, QUERY_STRING_TAG}
    ensures r.0.(tags := span.tags, error := span.error, resource := span.resource, finishCount := span.finishCount) == span
    ensures config.None? ==>
      && r.1 == Err(KeyError(REQUEST_CONFIG_KEY)) && r.0.finishCount == span.finishCount
      && (QUERY_STRING_TAG in r.0.tags <==> QUERY_STRING_TAG in span.tags)
    ensures config.Some? ==> r.1 == Ok(()) && r.0.finishCount == span.finishCount + 1
    ensures config.Some? && TraceQueryString(config.value.traceQueryString, globalTraceQueryString) ==>
      QUERY_STRING_TAG in r.0.tags && r.0.tags[QUERY_STRING_TAG] == Str(url.query)
    ensures config.Some? && !TraceQueryString(config.value.traceQueryString, globalTraceQueryString) ==>
      (QUERY_STRING_TAG in r.0.tags <==> QUERY_STRING_TAG in span.tags)
  {
    var flagged := if 500 <= status < 600 then span.(error := 1) else span;
    var named := flagged.(resource := ResourceName(httpMethod, status, route));
    var tagged := Tagged(Tagged(Tagged(named, METHOD_TAG, Str(httpMethod)), STATUS_CODE_TAG, Int(status)),
                         URL_TAG, Link(url.(query := "")));
    match config
    case None => (tagged, Err(KeyError(REQUEST_CONFIG_KEY)))
    case Some(c) =>
      var withQuery :=
        if TraceQueryString(c.traceQueryString, globalTraceQueryString) then Tagged(tagged, QUERY_STRING_TAG, Str(url.query))
        else tagged;
      (FinishedIf(withQuery, true), Ok(()))
  }

  /** The URL tag `on_prepare` sets never depends on the query string. */
  lemma PreparedUrlIgnoresQuery(span: SpanRecord, httpMethod: string, url: Url, query: string, route: Option<map<string, string>>,
                                status: nat, config: Option<AppConfig>, globalTraceQueryString: bool)
    ensures Prepared(span, httpMethod, url.(query := query), route, status, config, globalTraceQueryString).0.tags[URL_TAG]
         == Prepared(span, httpMethod, url, route, status, config, globalTraceQueryString).0.tags[URL_TAG]
  {
  }

  // ---------------------------------------------------------------------
  // The tracer's active context and `trace_middleware_2x`.

  /** The context the middleware leaves active: with distributed tracing,
      the extracted one when it names a trace and an empty one otherwise;
      without, whatever was active. */
  function NextActive(active: Context, distributedTracing: bool, extracted: Context): (next: Context)
    ensures !distributedTracing ==> next == active
    ensures distributedTracing ==> next.traceId == extracted.traceId
    ensures distributedTracing && extracted.traceId != 0 ==> next == extracted
    ensures distributedTracing && extracted.traceId == 0 ==> next == EmptyContext
  {
    if !distributedTracing then active
    else if extracted.traceId != 0 then extracted
    else EmptyContext
  }

  /** With distributed tracing a request without propagated ids starts a new
      trace: the trace of an earlier request on the same context is never
      inherited. */
  lemma NoInheritedTrace(active: Context, extracted: Context, spanId: nat, freshTraceId: nat)
    requires extracted.traceId == 0
    ensures var r := Started(REQUEST_SPAN_NAME, NextActive(active, true, extracted), spanId, freshTraceId);
      r.traceId == freshTraceId && r.parentId == 0
  {
  }

  /** The request span as the middleware leaves it: a child of the active
      context, measured, with the sample rate when analytics applies, with
      the exception when the handler raised, and not finished (that is
      `on_prepare`'s job). */
  function RequestSpan(config: AppConfig, globalAnalytics: bool, active: Context,
                       spanId: nat, freshTraceId: nat, raised: Option<Exception>): (r: SpanRecord)
    ensures r.finishCount == 0 && r.resource == REQUEST_SPAN_NAME
    ensures r.traceId == (if active.traceId != 0 then active.traceId else freshTraceId)
    ensures r.spanId == spanId && r.parentId == (if active.traceId != 0 then active.spanId else 0)
    ensures MEASURED_KEY in r.tags
    ensures ANALYTICS_SAMPLE_RATE_KEY in r.tags <==> AnalyticsApplies(globalAnalytics, config.analyticsEnabled)
    ensures ANALYTICS_SAMPLE_RATE_KEY in r.tags ==> r.tags[ANALYTICS_SAMPLE_RATE_KEY] == SampleRate(config.sampleRate)
    ensures r.error == 1 <==> raised.Some?
  {
    var begun := Started(REQUEST_SPAN_NAME, active, spanId, freshTraceId);
    var tagged := begun.(tags := RequestSpanTags(globalAnalytics, config.analyticsEnabled, config.sampleRate));
    match raised
    case Some(e) => WithException(tagged, e)
    case None => tagged
  }

  /** A request that went through the middleware and then `on_prepare`, with
      its configuration in place, ends with its span finished exactly once,
      still measured and named after the route. */
  lemma {:induction false} RequestSpanFinishedOnce(config: AppConfig, globalAnalytics: bool, active: Context,
                                                   spanId: nat, freshTraceId: nat, raised: Option<Exception>,
                                                   httpMethod: string, url: Url, route: Option<map<string, string>>,
                                                   status: nat, globalTraceQueryString: bool)
    ensures var s := RequestSpan(config, globalAnalytics, active, spanId, freshTraceId, raised);
      var (p, outcome) := Prepared(s, httpMethod, url, route, status, Some(config), globalTraceQueryString);
      && outcome == Ok(()) && p.finishCount == 1
      && MEASURED_KEY in p.tags && p.resource == ResourceName(httpMethod, status, route)
      && (p.error == 1 <==> raised.Some? || 500 <= status < 600)
  {
    var s := RequestSpan(config, globalAnalytics, active, spanId, freshTraceId, raised);
    assert MEASURED_KEY != METHOD_TAG && MEASURED_KEY != STATUS_CODE_TAG && MEASURED_KEY != URL_TAG && MEASURED_KEY != QUERY_STRING_TAG;
    assert MEASURED_KEY in s.tags;
  }

  /** The tracer as the server integration uses it: its active context and
      whether it has been configured with the asynchronous context
      provider. */
  class Tracer {
    var active: Context
    var asyncContext: bool

    constructor (active: Context)
      ensures this.active == active && !asyncContext
    {
      this.active := active;
      asyncContext := false;
    }

    method Activate(ctx: Context)
      modifies this
      ensures active == ctx && asyncContext == old(asyncContext)
    {
      active := ctx;
    }
  }

  /** An incoming request: the parts the integration reads, and the three
      entries the middleware stores in it. */
  class Request {
    const httpMethod: string
    const url: Url
    /** `match_info.route.resource.get_info()`, None without a resource. */
    const route: Option<map<string, string>>
    var spanEntry: Option<Span>
    var contextEntry: Option<Context>
    var configEntry: Option<AppConfig>

    constructor (httpMethod: string, url: Url, route: Option<map<string, string>>)
      ensures this.httpMethod == httpMethod && this.url == url && this.route == route
      ensures spanEntry.None? && contextEntry.None? && configEntry.None?
    {
      this.httpMethod := httpMethod;
      this.url := url;
      this.route := route;
      spanEntry := None;
      contextEntry := None;
      configEntry := None;
    }
  }

  /** The spans reachable from a request's span entry. */
  function SpanOf(entry: Option<Span>): set<Span> {
    if entry.Some? then {entry.value} else {}
  }

  /** `on_prepare(request, response)` for a response with status `status`. */
  method OnPrepare(request: Request, status: nat, globalTraceQueryString: bool) returns (r: Result<()>)
    modifies SpanOf(request.spanEntry)
    ensures request.spanEntry.None? ==> r == Ok(())
    ensures request.spanEntry.Some? ==>
      (request.spanEntry.value.Record(), r)
        == Prepared(old(request.spanEntry.value.Record()), request.httpMethod, request.url, request.route,
                    status, request.configEntry, globalTraceQueryString)
  {
    if request.spanEntry.None? {
      return Ok(());
    }
    var span := request.spanEntry.value;
    if 500 <= status < 600 {
      span.SetError(1);
    }
    span.SetResource(ResourceName(request.httpMethod, status, request.route));
    span.SetTag(METHOD_TAG, Str(request.httpMethod));
    span.SetTag(STATUS_CODE_TAG, Int(status));
    span.SetTag(URL_TAG, Link(request.url.(query := "")));
    if request.configEntry.None? {
      return Err(KeyError(REQUEST_CONFIG_KEY));
    }
    if TraceQueryString(request.configEntry.value.traceQueryString, globalTraceQueryString) {
      span.SetTag(QUERY_STRING_TAG, Str(request.url.query));
    }
    span.Finish();
    r := Ok(());
  }

  /** `trace_middleware_2x(request, handler, app)`. `config` is
      `app[CONFIG_KEY]` (None when the application was never traced),
      `extracted` what the propagator reads from the request headers, and
      `raised` the exception the handler raised, if any. The handler's
      response itself passes through untouched and is not modelled. */
  method TraceMiddleware(request: Request, config: Option<AppConfig>, tracer: Tracer, extracted: Context,
                         globalAnalytics: bool, spanId: nat, freshTraceId: nat, raised: Option<Exception>)
    returns (r: Result<()>, span: Option<Span>)
    modifies request, tracer
    ensures config.None? ==>
      r == Err(KeyError(CONFIG_KEY)) && span.None?
      && tracer.active == old(tracer.active) && request.spanEntry == old(request.spanEntry)
      && request.contextEntry == old(request.contextEntry) && request.configEntry == old(request.configEntry)
    ensures config.Some? ==>
      && span.Some? && fresh(span.value)
      && tracer.active == NextActive(old(tracer.active), config.value.distributedTracing, extracted)
      && span.value.service == config.value.service && span.value.spanType == WEB_TYPE
      && span.value.Record() == RequestSpan(config.value, globalAnalytics, tracer.active, spanId, freshTraceId, raised)
      && request.spanEntry == span && request.contextEntry == Some(span.value.SpanContext())
      && request.configEntry == config
      && r == (if raised.Some? then Err(raised.value) else Ok(()))
    ensures tracer.asyncContext == old(tracer.asyncContext)
  {
    if config.None? {
      return Err(KeyError(CONFIG_KEY)), None;
    }
    var cfg := config.value;
    if cfg.distributedTracing {
      if extracted.traceId != 0 {
        tracer.Activate(extracted);
      } else {
        tracer.Activate(EmptyContext);
      }
    }
    var s := new Span.Start(REQUEST_SPAN_NAME, cfg.service, WEB_TYPE, tracer.active, spanId, freshTraceId);
    s.SetTag(MEASURED_KEY, NoneValue);
    if AnalyticsApplies(globalAnalytics, cfg.analyticsEnabled) {
      s.SetTag(ANALYTICS_SAMPLE_RATE_KEY, SampleRate(cfg.sampleRate));
    }
    request.contextEntry := Some(s.SpanContext());
    request.spanEntry := Some(s);
    request.configEntry := config;
    span := Some(s);
    if raised.Some? {
      s.SetExcInfo(raised.value);
      return Err(raised.value), span;
    }
    r := Ok(());
  }

  // ---------------------------------------------------------------------
  // `trace_app`.

  /** What an application's middleware list and response-prepare signal
      hold: the integration's two hooks, or someone else's. */
  datatype Hook = TraceMiddlewareHook | OnPrepareHook | OtherHook(name: string)

  /** An application as `trace_app` sees it: its `__datadog_trace` marker,
      its `CONFIG_KEY` entry, its middlewares and its `on_response_prepare`
      signal. */
  datatype AppState = AppState(
    marked: bool,
    config: Option<AppConfig>,
    middlewares: seq<Hook>,
    onResponsePrepare: seq<Hook>)

  /** `config._get_service(default=service)`: the globally configured
      service name wins over the default. */
  function ServiceName(globalService: Option<string>, default: string): (name: string)
    ensures globalService.Some? ==> name == globalService.value
    ensures globalService.None? ==> name == default
  {
    if globalService.Some? then globalService.value else default
  }

  /** The configuration `trace_app` stores: no analytics setting of its own,
      sample rate 1.0, and no `trace_query_string` entry. */
  function InstalledConfig(service: string, distributedTracing: bool): (c: AppConfig)
    ensures c.service == service && c.distributedTracing == distributedTracing && c.sampleRate == Some(Real(1.0))
    ensures AnalyticsApplies(true, c.analyticsEnabled) && !AnalyticsApplies(false, c.analyticsEnabled)
    ensures TraceQueryString(c.traceQueryString, true) && !TraceQueryString(c.traceQueryString, false)
  {
    AppConfig(service, distributedTracing, Unset, Some(Real(1.0)), Unset)
  }

  /** `trace_app` on an application: an unmarked one is marked, configured,
      and gets the middleware first and `on_prepare` last; a marked one is
      left as it is. */
  function TracedApp(s: AppState, service: string, distributedTracing: bool): (r: AppState)
    ensures s.marked ==> r == s
    ensures r.marked
    ensures !s.marked ==>
      && r.config == Some(InstalledConfig(service, distributedTracing))
      && |r.middlewares| == |s.middlewares| + 1
      && r.middlewares[0] == TraceMiddlewareHook && r.middlewares[1..] == s.middlewares
      && |r.onResponsePrepare| == |s.onResponsePrepare| + 1
      && r.onResponsePrepare[..|s.onResponsePrepare|] == s.onResponsePrepare
      && r.onResponsePrepare[|s.onResponsePrepare|] == OnPrepareHook
  {
    if s.marked then s
    else AppState(true, Some(InstalledConfig(service, distributedTracing)),
                  [TraceMiddlewareHook] + s.middlewares, s.onResponsePrepare + [OnPrepareHook])
  }

  /** Tracing an application twice is tracing it once, even with other
      arguments the second time. */
  lemma TracedAppIdempotent(s: AppState, service1: string, dt1: bool, service2: string, dt2: bool)
    ensures TracedApp(TracedApp(s, service1, dt1), service2, dt2) == TracedApp(s, service1, dt1)
  {
  }

  /** `trace_app` called once per argument pair, in order. */
  function TracedAppAll(s: AppState, calls: seq<(string, bool)>): AppState
    decreases |calls|
  {
    if calls == [] then s else TracedAppAll(TracedApp(s, calls[0].0, calls[0].1), calls[1..])
  }

  /** However often an unmarked application is traced, it carries exactly
      one more copy of each hook than before, and the configuration of the
      first call. */
  lemma {:induction false} TracedAppAllInstallsOnce(s: AppState, calls: seq<(string, bool)>)
    requires !s.marked && |calls| >= 1
    ensures var r := TracedAppAll(s, calls);
      && multiset(r.middlewares)[TraceMiddlewareHook] == multiset(s.middlewares)[TraceMiddlewareHook] + 1
      && multiset(r.onResponsePrepare)[OnPrepareHook] == multiset(s.onResponsePrepare)[OnPrepareHook] + 1
      && r.config == Some(InstalledConfig(calls[0].0, calls[0].1))
  {
    var once := TracedApp(s, calls[0].0, calls[0].1);
    MarkedAppUnchanged(once, calls[1..]);
    assert once.middlewares == [TraceMiddlewareHook] + s.middlewares;
    assert once.onResponsePrepare == s.onResponsePrepare + [OnPrepareHook];
  }

  /** A marked application is left alone by any number of calls. */
  lemma {:induction false} MarkedAppUnchanged(s: AppState, calls: seq<(string, bool)>)
    requires s.marked
    ensures TracedAppAll(s, calls) == s
    decreases |calls|
  {
    if calls != [] {
      MarkedAppUnchanged(TracedApp(s, calls[0].0, calls[0].1), calls[1..]);
    }
  }

  /** An application, with the parts `trace_app` changes. */
  class App {
    var marked: bool
    var config: Option<AppConfig>
    var middlewares: seq<Hook>
    var onResponsePrepare: seq<Hook>

    function State(): AppState
      reads this
    {
      AppState(marked, config, middlewares, onResponsePrepare)
    }

    constructor (middlewares: seq<Hook>, onResponsePrepare: seq<Hook>)
      ensures State() == AppState(false, None, middlewares, onResponsePrepare)
    {
      marked := false;
      config := None;
      this.middlewares := middlewares;
      this.onResponsePrepare := onResponsePrepare;
    }
  }

  /** `trace_app(app, tracer, service)` as the quoted text has it; the
      tracer is switched to the asynchronous context provider only when the
      application was not yet marked. */
  method TraceApp(app: App, tracer: Tracer, globalService: Option<string>, service: string, distributedTracing: bool)
    modifies app, tracer
    ensures app.State() == TracedApp(old(app.State()), ServiceName(globalService, service), distributedTracing)
    ensures tracer.asyncContext == (old(tracer.asyncContext) || !old(app.marked))
    ensures tracer.active == old(tracer.active)
  {
    if app.marked {
      return;
    }
    app.marked := true;
    app.config := Some(InstalledConfig(ServiceName(globalService, service), distributedTracing));
    tracer.asyncContext := true;
    app.middlewares := [TraceMiddlewareHook] + app.middlewares;
    app.onResponsePrepare := app.onResponsePrepare + [OnPrepareHook];
  }

  /** The `trace_app` the module actually defines: it does nothing. */
  method TraceAppStub(app: App, tracer: Tracer, service: string)
    ensures app.State() == old(app.State()) && tracer.asyncContext == old(tracer.asyncContext)
  {
  }
}
