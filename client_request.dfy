/** The outbound request interceptor of patch.py: resolving the method and
    URL of a `ClientSession` call, injecting propagation headers, and the
    `_WrappedRequestContext` proxy that finishes the client span once the
    request completes, by bare await or as an async context manager. */
module ClientRequest {
  import opened Tracing
  import opened Settings
  import opened ClientTags

  /** The method name the generic `ClientSession.request` entry passes. */
  const REQUEST := "REQUEST"

  const REQUEST_SPAN_NAME := "ClientSession.request"

  /** What `propagator.inject` raises on a header value it cannot assign into. */
  const NotAssignable := Exception("TypeError", "object does not support item assignment")

  /** `kwargs.get(key, default)` once `default` has been evaluated. */
  function Lookup(kwargs: map<string, Value>, key: string, default: Value): Value {
    if key in kwargs then kwargs[key] else default
  }

  /** The method and the URL argument of a client call. */
  datatype Target = Target(httpMethod: Value, url: Value)

  /** Argument resolution as written: `kwargs.get("url", args[1])` evaluates
      `args[1]` before it looks at kwargs, so a call that passes the URL (or
      the method) by keyword raises `IndexError` inside the wrapper. */
  function ResolveTargetAsWritten(verb: string, args: seq<Value>, kwargs: map<string, Value>): (r: Result<Target>)
    ensures r.Err? <==> |args| < (if verb == REQUEST then 2 else 1)
    ensures r.Err? ==> r.error == IndexOutOfRange
  {
    if verb == REQUEST then
      if |args| < 2 then Err(IndexOutOfRange)
      else Ok(Target(Lookup(kwargs, "method", args[0]), Lookup(kwargs, "url", args[1])))
    else if |args| < 1 then Err(IndexOutOfRange)
    else Ok(Target(Str(verb), Lookup(kwargs, "url", args[0])))
  }

  /** Argument resolution as intended: a keyword argument wins, and the
      positional one is consulted only when the keyword is absent. The
      generic entry takes `(method, url)`, a verb entry takes `(url)`. */
  function ResolveTarget(verb: string, args: seq<Value>, kwargs: map<string, Value>): (r: Result<Target>)
    ensures r.Ok? <==>
      if verb == REQUEST then ("method" in kwargs || |args| >= 1) && ("url" in kwargs || |args| >= 2)
      else "url" in kwargs || |args| >= 1
    ensures r.Ok? && verb != REQUEST ==> r.value.httpMethod == Str(verb)
    ensures r.Ok? && "url" in kwargs ==> r.value.url == kwargs["url"]
    ensures r.Ok? && verb == REQUEST && "method" in kwargs ==> r.value.httpMethod == kwargs["method"]
    ensures r.Ok? && "url" !in kwargs ==> r.value.url == args[if verb == REQUEST then 1 else 0]
    ensures r.Ok? && verb == REQUEST && "method" !in kwargs ==> r.value.httpMethod == args[0]
    ensures r.Err? ==> r.error == IndexOutOfRange
  {
    if verb == REQUEST then
      if !("method" in kwargs || |args| >= 1) || !("url" in kwargs || |args| >= 2) then Err(IndexOutOfRange)
      else
        var m := if "method" in kwargs then kwargs["method"] else args[0];
        var url := if "url" in kwargs then kwargs["url"] else args[1];
        Ok(Target(m, url))
    else if !("url" in kwargs || |args| >= 1) then Err(IndexOutOfRange)
    else Ok(Target(Str(verb), if "url" in kwargs then kwargs["url"] else args[0]))
  }

  /** The correction changes nothing where the code as written succeeds. */
  lemma ResolveTargetExtendsAsWritten(verb: string, args: seq<Value>, kwargs: map<string, Value>)
    ensures ResolveTargetAsWritten(verb, args, kwargs).Ok? ==>
      ResolveTarget(verb, args, kwargs) == ResolveTargetAsWritten(verb, args, kwargs)
  {
  }

  /** `session.request("GET", url="http://example.com/")`: the code as
      written raises `IndexError` on `args[1]`; the intended resolution takes
      the method from `args[0]` and the URL from the keyword. */
  lemma KeywordUrlRejectedAsWritten()
    ensures ResolveTargetAsWritten(REQUEST, [Str("GET")], map["url" := Str("http://example.com/")]) == Err(IndexOutOfRange)
    ensures ResolveTarget(REQUEST, [Str("GET")], map["url" := Str("http://example.com/")])
      == Ok(Target(Str("GET"), Str("http://example.com/")))
  {
  }

  /** `kwargs.get('headers', {})`, with an explicit None replaced by `{}`. */
  function BaseHeaders(kwargs: map<string, Value>): (h: Value)
    ensures h != NoneValue
    ensures "headers" !in kwargs || kwargs["headers"] == NoneValue ==> h == Dict(map[])
    ensures "headers" in kwargs && kwargs["headers"] != NoneValue ==> h == kwargs["headers"]
  {
    var h := Lookup(kwargs, "headers", Dict(map[]));
    if h == NoneValue then Dict(map[]) else h
  }

  /** The keyword arguments after `propagator.inject(span.context, headers)`
      and `kwargs["headers"] = headers`. A headers value that is not a
      mapping cannot receive the injected entries. */
  function InjectHeaders(kwargs: map<string, Value>, ctx: Context, inject: (Context, map<string, string>) -> map<string, string>)
    : (r: Result<map<string, Value>>)
    ensures r.Ok? <==> !("headers" in kwargs) || kwargs["headers"].Dict? || kwargs["headers"] == NoneValue
    ensures r.Err? ==> r.error == NotAssignable
    ensures r.Ok? ==> r.value.Keys == kwargs.Keys + {"headers"}
    ensures r.Ok? ==> forall k :: k in kwargs && k != "headers" ==> r.value[k] == kwargs[k]
    ensures r.Ok? && ("headers" !in kwargs || kwargs["headers"] == NoneValue) ==>
      r.value["headers"] == Dict(inject(ctx, map[]))
    ensures r.Ok? && "headers" in kwargs && kwargs["headers"].Dict? ==>
      r.value["headers"] == Dict(inject(ctx, kwargs["headers"].entries))
  {
    var headers := BaseHeaders(kwargs);
    if headers.Dict? then Ok(kwargs["headers" := Dict(inject(ctx, headers.entries))]) else Err(NotAssignable)
  }

  /** What `_create_wrapped_request` decides to do. */
  datatype Plan =
    | CallThrough
    | Traced(httpMethod: Value, url: Url, kwargs: map<string, Value>)

  /** The decision of `_create_wrapped_request`, with the span's context
      `ctx` given: tracing is bypassed when the tracer is disabled or the
      skip policy matches; otherwise the call is traced, with headers
      injected when distributed tracing is on. yarl's `URL(...)` is `toUrl`
      and `should_skip_request` is `skip`. */
  function PlanRequest(
    tracerEnabled: bool, verb: string, args: seq<Value>, kwargs: map<string, Value>,
    toUrl: Value -> Url, skip: Url -> bool, distributed: bool, ctx: Context,
    inject: (Context, map<string, string>) -> map<string, string>): (r: Result<Plan>)
    ensures !tracerEnabled ==> r == Ok(CallThrough)
    ensures r.Err? <==>
      tracerEnabled &&
      (ResolveTarget(verb, args, kwargs).Err? ||
       (!skip(toUrl(ResolveTarget(verb, args, kwargs).value.url)) && distributed && InjectHeaders(kwargs, ctx, inject).Err?))
    ensures r.Err? && ResolveTarget(verb, args, kwargs).Err? ==> r.error == ResolveTarget(verb, args, kwargs).error
    ensures r.Err? && ResolveTarget(verb, args, kwargs).Ok? ==> r.error == NotAssignable
    ensures tracerEnabled ==>
      (r == Ok(CallThrough) <==> ResolveTarget(verb, args, kwargs).Ok? && skip(toUrl(ResolveTarget(verb, args, kwargs).value.url)))
    ensures r.Ok? && r.value.Traced? ==>
      ResolveTarget(verb, args, kwargs).Ok? &&
      var t := ResolveTarget(verb, args, kwargs).value;
      && r.value.httpMethod == t.httpMethod && r.value.url == toUrl(t.url) && !skip(r.value.url)
      && (distributed ==> Ok(r.value.kwargs) == InjectHeaders(kwargs, ctx, inject))
      && (!distributed ==> r.value.kwargs == kwargs)
  {
    if !tracerEnabled then Ok(CallThrough)
    else match ResolveTarget(verb, args, kwargs)
      case Err(e) => Err(e)
      case Ok(t) =>
        var url := toUrl(t.url);
        if skip(url) then Ok(CallThrough)
        else if !distributed then Ok(Traced(t.httpMethod, url, kwargs))
        else match InjectHeaders(kwargs, ctx, inject)
          case Err(e) => Err(e)
          case Ok(kw) => Ok(Traced(t.httpMethod, url, kw))
  }

  /** With distributed tracing on, every traced call carries a headers
      mapping that went through `inject` with the client span's context. */
  lemma TracedCallCarriesInjectedHeaders(
    verb: string, args: seq<Value>, kwargs: map<string, Value>,
    toUrl: Value -> Url, skip: Url -> bool, ctx: Context,
    inject: (Context, map<string, string>) -> map<string, string>)
    requires PlanRequest(true, verb, args, kwargs, toUrl, skip, true, ctx, inject).Ok?
    requires PlanRequest(true, verb, args, kwargs, toUrl, skip, true, ctx, inject).value.Traced?
    ensures var kw := PlanRequest(true, verb, args, kwargs, toUrl, skip, true, ctx, inject).value.kwargs;
      "headers" in kw && exists base :: kw["headers"] == Dict(inject(ctx, base))
  {
    var kw := PlanRequest(true, verb, args, kwargs, toUrl, skip, true, ctx, inject).value.kwargs;
    var base := if "headers" in kwargs && kwargs["headers"].Dict? then kwargs["headers"].entries else map[];
    assert kw["headers"] == Dict(inject(ctx, base));
  }

  // ---------------------------------------------------------------------
  // The `_WrappedRequestContext` proxy.

  /** What awaiting the wrapped request (or its `__aenter__`) produces. */
  datatype Outcome = Response(status: nat, headers: map<string, string>) | Raised(exc: Exception)

  /** What the wrapped `__aexit__` produces. */
  datatype ExitOutcome = ExitReturned(v: Value) | ExitRaised(exc: Exception)

  /** The ways a caller drives the proxy: `await` (or `yield from`, which
      goes through `__iter__` to the same code), `__aenter__`, `__aexit__`. */
  datatype ProxyEvent = BareAwait(outcome: Outcome) | Enter(outcome: Outcome) | Exit(exitOutcome: ExitOutcome)

  datatype ProxyState = ProxyState(haveContext: bool, span: SpanRecord)

  /** The body of `_handle_response` before its `finally`: on a response,
      the configured header tags, the status tag and the error flag; on an
      exception, the exception's details. */
  function Completed(span: SpanRecord, o: Outcome, traceHeaders: seq<string>): (r: SpanRecord)
    ensures r.(tags := span.tags, error := span.error) == span
    ensures o.Response? ==> STATUS_CODE_TAG in r.tags && r.tags[STATUS_CODE_TAG] == Int(o.status)
    ensures o.Response? ==> (r.error == 1 <==> 500 <= o.status) && (r.error == 0 <==> o.status < 500)
    ensures o.Response? ==> r.tags.Keys == span.tags.Keys + (set h | h in traceHeaders && h in o.headers) + {STATUS_CODE_TAG}
    ensures o.Response? ==> forall h :: h in traceHeaders && h in o.headers && h != STATUS_CODE_TAG ==>
      r.tags[h] == Str(o.headers[h])
    ensures o.Response? ==> forall k :: k in span.tags && k != STATUS_CODE_TAG && !(k in traceHeaders && k in o.headers) ==>
      r.tags[k] == span.tags[k]
    ensures o.Raised? ==> r.error == 1 && r.tags.Keys == span.tags.Keys + {ERROR_TYPE_TAG, ERROR_MSG_TAG}
    ensures o.Raised? ==> r.tags[ERROR_TYPE_TAG] == Str(o.exc.kind) && r.tags[ERROR_MSG_TAG] == Str(o.exc.message)
    ensures o.Raised? ==> forall k :: k in span.tags && k != ERROR_TYPE_TAG && k != ERROR_MSG_TAG ==>
      r.tags[k] == span.tags[k]
  {
    match o
    case Response(status, headers) =>
      var withHeaders := if |traceHeaders| > 0 then span.tags + HeaderTags(traceHeaders, headers) else span.tags;
      span.(tags := withHeaders[STATUS_CODE_TAG := Int(status)], error := if 500 <= status then 1 else 0)
    case Raised(e) => WithException(span, e)
  }

  /** The `finally` of `_handle_response` finishes unless the proxy was
      entered as a context manager and the trace-context flag defers it. */
  predicate FinishesInHandler(haveContext: bool, traceContext: bool) {
    !haveContext || !traceContext
  }

  /** The `finally` of `__aexit__`, read with the same trace-context flag. */
  predicate FinishesOnExit(haveContext: bool, traceContext: bool) {
    haveContext && traceContext
  }

  /** One event: an await or an enter completes the request in the handler,
      an exit only decides whether to finish. */
  function Step(s: ProxyState, e: ProxyEvent, config: IntegrationConfig): (r: ProxyState)
    ensures r.haveContext == (s.haveContext || e.Enter?)
    ensures r.span.finishCount == s.span.finishCount +
      (if e.Exit? then (if FinishesOnExit(s.haveContext, config.traceContext) then 1 else 0)
       else (if FinishesInHandler(r.haveContext, config.traceContext) then 1 else 0))
    ensures r.span.traceId == s.span.traceId && r.span.parentId == s.span.parentId && r.span.spanId == s.span.spanId
    ensures e.Exit? ==> r.span.(finishCount := s.span.finishCount) == s.span
  {
    match e
    case BareAwait(o) =>
      ProxyState(s.haveContext,
        FinishedIf(Completed(s.span, o, config.traceHeaders), FinishesInHandler(s.haveContext, config.traceContext)))
    case Enter(o) =>
      ProxyState(true, FinishedIf(Completed(s.span, o, config.traceHeaders), FinishesInHandler(true, config.traceContext)))
    case Exit(_) =>
      ProxyState(s.haveContext, FinishedIf(s.span, FinishesOnExit(s.haveContext, config.traceContext)))
  }

  /** The state after a sequence of events; no event changes the span's ids,
      and once entered the proxy stays entered. */
  function Run(s: ProxyState, events: seq<ProxyEvent>, config: IntegrationConfig): (r: ProxyState)
    ensures r.span.traceId == s.span.traceId && r.span.parentId == s.span.parentId && r.span.spanId == s.span.spanId
    ensures s.haveContext ==> r.haveContext
    decreases |events|
  {
    if events == [] then s else Run(Step(s, events[0], config), events[1..], config)
  }

  /** How many of `events` reach a `finish()` call, counted from the flag
      alone: a handler finishes unless deferred, an exit finishes only a
      deferred span. */
  function Triggers(haveContext: bool, events: seq<ProxyEvent>, traceContext: bool): nat
    decreases |events|
  {
    if events == [] then 0
    else
      var entered := haveContext || events[0].Enter?;
      var here :=
        if events[0].Exit? then FinishesOnExit(haveContext, traceContext)
        else FinishesInHandler(entered, traceContext);
      (if here then 1 else 0) + Triggers(entered, events[1..], traceContext)
  }

  /** Every `finish()` the proxy performs is one of the triggers, and the
      proxy counts as entered exactly when some event was an enter. */
  lemma {:induction false} RunFinishCount(s: ProxyState, events: seq<ProxyEvent>, config: IntegrationConfig)
    ensures Run(s, events, config).span.finishCount == s.span.finishCount + Triggers(s.haveContext, events, config.traceContext)
    ensures Run(s, events, config).haveContext == (s.haveContext || exists i :: 0 <= i < |events| && events[i].Enter?)
    decreases |events|
  {
    if events != [] {
      var t := Step(s, events[0], config);
      RunFinishCount(t, events[1..], config);
      assert forall i :: 0 < i < |events| ==> events[i] == events[1..][i - 1];
      if !s.haveContext && !events[0].Enter? && exists i :: 0 <= i < |events| && events[i].Enter? {
        var i :| 0 <= i < |events| && events[i].Enter?;
        assert events[1..][i - 1].Enter?;
      }
    }
  }

  /** A bare await finishes the span exactly once, whatever the flag and
      whether the request succeeded or raised. */
  lemma BareAwaitFinishesOnce(s: ProxyState, o: Outcome, config: IntegrationConfig)
    requires !s.haveContext
    ensures Run(s, [BareAwait(o)], config).span.finishCount == s.span.finishCount + 1
  {
    RunFinishCount(s, [BareAwait(o)], config);
  }

  /** `async with` around a request that succeeds: the span finishes exactly
      once over enter and exit; in the handler when the trace-context flag
      is off, on exit when it is on. (When the request raises, `__aexit__`
      never runs; see `FailedScopedEnterLeavesSpanOpen`.) */
  lemma ScopedUseFinishesOnce(s: ProxyState, o: Outcome, x: ExitOutcome, config: IntegrationConfig)
    requires !s.haveContext
    ensures o.Response? ==> Run(s, [Enter(o), Exit(x)], config).span.finishCount == s.span.finishCount + 1
    ensures Run(s, [Enter(o)], config).span.finishCount == s.span.finishCount + (if config.traceContext then 0 else 1)
  {
    RunFinishCount(s, [Enter(o), Exit(x)], config);
    RunFinishCount(s, [Enter(o)], config);
    assert [Enter(o), Exit(x)][1..] == [Exit(x)];
    assert [Exit(x)][1..] == [];
    assert [Enter(o)][1..] == [];
  }

  /** `async with` around a request that raises: Python does not call
      `__aexit__` when `__aenter__` raises, so with the trace-context flag on
      the span is tagged with the error and never finished. */
  lemma FailedScopedEnterLeavesSpanOpen(s: ProxyState, e: Exception, config: IntegrationConfig)
    requires !s.haveContext && config.traceContext
    ensures Run(s, [Enter(Raised(e))], config).span.finishCount == s.span.finishCount
    ensures Run(s, [Enter(Raised(e))], config).span.error == 1
  {
    RunFinishCount(s, [Enter(Raised(e))], config);
    assert [Enter(Raised(e))][1..] == [];
  }

  /** Nothing guards a second `__aexit__`: with the flag on it finishes the
      span again. */
  lemma RepeatedExitFinishesAgain(s: ProxyState, o: Outcome, x: ExitOutcome, config: IntegrationConfig)
    requires !s.haveContext && config.traceContext
    ensures Run(s, [Enter(o), Exit(x), Exit(x)], config).span.finishCount == s.span.finishCount + 2
  {
    RunFinishCount(s, [Enter(o), Exit(x), Exit(x)], config);
    assert [Enter(o), Exit(x), Exit(x)][1..] == [Exit(x), Exit(x)];
    assert [Exit(x), Exit(x)][1..] == [Exit(x)];
    assert [Exit(x)][1..] == [];
    assert Triggers(true, [Exit(x)], true) == 1;
    assert Triggers(true, [Exit(x), Exit(x)], true) == 2;
  }

  /** `__aexit__` as written: its `finally` reads `self._self_trace_context`,
      which nothing assigns; the proxy forwards the read to the wrapped
      object, which raises `AttributeError`. The span is never finished there. */
  function ExitAsWritten(s: ProxyState, x: ExitOutcome): (r: (ProxyState, ExitOutcome))
    ensures r.0 == s
    ensures s.haveContext ==> r.1.ExitRaised? && r.1.exc.kind == "AttributeError"
    ensures !s.haveContext ==> r.1 == x
  {
    if s.haveContext then (s, ExitRaised(MissingAttribute("_self_trace_context"))) else (s, x)
  }

  /** With the trace-context flag on, `async with` as written never finishes
      the span and turns every exit into an `AttributeError`. */
  lemma ScopedUseAsWrittenLeavesSpanOpen(s: ProxyState, o: Outcome, x: ExitOutcome, config: IntegrationConfig)
    requires !s.haveContext && config.traceContext
    ensures var (end, result) := ExitAsWritten(Step(s, Enter(o), config), x);
      end.span.finishCount == s.span.finishCount && result == ExitRaised(MissingAttribute("_self_trace_context"))
  {
  }

  class RequestContext {
    const span: Span
    const config: IntegrationConfig
    var haveContext: bool

    function State(): ProxyState
      reads this, span
    {
      ProxyState(haveContext, span.Record())
    }

    constructor (span: Span, config: IntegrationConfig)
      ensures this.span == span && this.config == config && !haveContext
    {
      this.span := span;
      this.config := config;
      haveContext := false;
    }

    /** `_handle_response`: tags the completed request and, in its
        `finally`, finishes the span unless finishing is deferred. An
        exception is returned unchanged, standing for its re-raise. */
    method HandleResponse(o: Outcome) returns (r: Outcome)
      modifies span
      ensures r == o
      ensures span.Record() ==
        FinishedIf(Completed(old(span.Record()), o, config.traceHeaders), FinishesInHandler(haveContext, config.traceContext))
    {
      match o {
        case Response(status, headers) =>
          if |config.traceHeaders| > 0 {
            span.SetTags(HeaderTags(config.traceHeaders, headers));
          }
          span.SetTag(STATUS_CODE_TAG, Int(status));
          span.SetError(if 500 <= status then 1 else 0);
        case Raised(e) =>
          span.SetExcInfo(e);
      }
      if !haveContext || !config.traceContext {
        span.Finish();
      }
      r := o;
    }

    /** `__await__` / `__iter__` */
    method Await(o: Outcome) returns (r: Outcome)
      modifies span
      ensures r == o
      ensures State() == Step(old(State()), BareAwait(o), config)
    {
      r := HandleResponse(o);
    }

    method AEnter(o: Outcome) returns (r: Outcome)
      modifies this, span
      ensures r == o
      ensures State() == Step(old(State()), Enter(o), config)
    {
      haveContext := true;
      r := HandleResponse(o);
    }

    /** `__aexit__`, reading the trace-context flag from the configuration
        as `_handle_response` does. */
    method AExit(x: ExitOutcome) returns (r: ExitOutcome)
      modifies span
      ensures r == x
      ensures State() == Step(old(State()), Exit(x), config)
    {
      if haveContext && config.traceContext {
        span.Finish();
      }
      r := x;
    }
  }

  /** What the wrapper hands back: the plain call's result, or the proxy
      around it. `args` and `kwargs` are what the wrapped call received. */
  datatype Call =
    | Direct(args: seq<Value>, kwargs: map<string, Value>)
    | Proxied(args: seq<Value>, kwargs: map<string, Value>, proxy: RequestContext)

  /** `_create_wrapped_request`. The span starts under the ambient context
      `ambient`, with the ids the tracer hands out (`spanId`, `freshTraceId`). */
  method CreateWrappedRequest(
    verb: string, pin: Pin, args: seq<Value>, kwargs: map<string, Value>,
    toUrl: Value -> Url, skip: Url -> bool,
    inject: (Context, map<string, string>) -> map<string, string>,
    ambient: Context, spanId: nat, freshTraceId: nat) returns (r: Result<Call>)
    ensures
      var started := Started(REQUEST_SPAN_NAME, ambient, spanId, freshTraceId);
      match PlanRequest(pin.enabled, verb, args, kwargs, toUrl, skip, pin.config.distributedTracing,
                        Context(started.traceId, spanId), inject)
      case Err(e) => r == Err(e)
      case Ok(CallThrough) => r == Ok(Direct(args, kwargs))
      case Ok(Traced(m, url, kw)) =>
        && r.Ok? && r.value.Proxied? && r.value.args == args && r.value.kwargs == kw
        && fresh(r.value.proxy) && fresh(r.value.proxy.span)
        && r.value.proxy.config == pin.config
        && r.value.proxy.State() == ProxyState(false, Tagged(RequestTagged(started, url), METHOD_TAG, m))
  {
    if !pin.enabled {
      return Ok(Direct(args, kwargs));
    }
    var target := ResolveTarget(verb, args, kwargs);
    if target.Err? {
      return Err(target.error);
    }
    var url := toUrl(target.value.url);
    if skip(url) {
      return Ok(Direct(args, kwargs));
    }
    var span := new Span.Start(REQUEST_SPAN_NAME, pin.service, HTTP_TYPE, ambient, spanId, freshTraceId);
    var kw := kwargs;
    if pin.config.distributedTracing {
      var headers := Lookup(kwargs, "headers", Dict(map[]));
      if headers == NoneValue {
        headers := Dict(map[]);
      }
      if !headers.Dict? {
        return Err(NotAssignable);
      }
      kw := kw["headers" := Dict(inject(span.SpanContext(), headers.entries))];
    }
    SetRequestTags(span, url);
    span.SetTag(METHOD_TAG, target.value.httpMethod);
    var proxy := new RequestContext(span, pin.config);
    r := Ok(Proxied(args, kw, proxy));
  }
}
