# aiohttp tracing integration — a Dafny model

This project models the aiohttp integration of the Datadog Python tracer
(`ddtrace/contrib/aiohttp`). It covers two parts:

- **The client side (`patch.py`).** `ClientSession` calls are intercepted in
  three steps. The method and URL are resolved from the call's arguments.
  Propagation headers are injected. The request is wrapped in
  `_WrappedRequestContext`, which tags the response and finishes the
  `ClientSession.request` span. That happens on a bare `await`, or in an
  `async with` block on enter or on exit, depending on the `trace_context`
  flag.
- **The response proxy (`_WrappedResponseClass`).** It captures the ids of the
  current span when the response is built. It re-parents the span of a later
  `read` to those ids. It also traces `start`.
- **The rest of `patch.py`.** The `http.url` tag rendering
  (`_set_request_tags`). The `with_modules` cache behind `traced__handle`,
  with its analytics rule. The `__datadog_patch` markers of `patch()`.
- **The server side (`middlewares.py`).** `trace_middleware_2x` opens the
  `aiohttp.request` span. It selects the active context from propagated
  headers and stores the span, its context and the configuration in the
  request. `on_prepare` names the span after the route, flags 5xx responses,
  tags method, status, URL and query string, and finishes the span.
  `trace_app` installs both, once per application. In the repository this
  whole implementation sits inside a triple-quoted string
  (`middlewares.py:22-164`). The `trace_app` that is actually defined does
  nothing (`middlewares.py:167-168`). The model follows the quoted text as
  the intended behaviour, and models the live stub separately as
  `ServerMiddleware.TraceAppStub`.

The files are:

- **`text.dfy`**: decimal rendering of ports and statuses.
- **`tracing.dfy`**: the tracer's contexts, URLs, tag values, and a `Span`
  class whose `Record()` is its state as a value.
- **`settings.dfy`**: integration configuration and the analytics rule.
- **`client_tags.dfy`**, **`client_request.dfy`**, **`client_response.dfy`**
  and **`client_patch.dfy`**: `patch.py`.
- **`server_middleware.dfy`**: `middlewares.py`.

Objects whose fields the source updates are classes:

- the span;
- the request-context proxy;
- the response proxy;
- the `with_modules` cache;
- the patched modules;
- the tracer's active context;
- the server request;
- the application.

Each class's methods are proved equal to a pure transition function on a
value of its state, and the properties are proved as lemmas about those
functions.

The code does not close every span exactly once, and the model keeps the
places where it does not:

- **As written, no exit finishes the span; corrected, a second exit
  finishes it again.** As written, the exit handler reads
  `self._self_trace_context` (patch.py:225), which nothing assigns, so every
  `__aexit__` after an enter raises `AttributeError` before `finish()`
  (`ScopedUseAsWrittenLeavesSpanOpen`). Under the corrected exit handler
  (`AExit`), nothing guards a second `__aexit__` or a second `__aenter__`
  (patch.py:205-206, 225-226), and a second `__aexit__` calls `finish()`
  again (`RepeatedExitFinishesAgain`). The model's `finishCount` counts calls
  to `finish()`; whether the tracer ignores a repeated call is not modelled.
- **A failed `async with` leaves the span open when `trace_context` is on.**
  When the request raises inside `__aenter__`, `_handle_response` tags the
  error and skips the finish (patch.py:201-206). Python does not call
  `__aexit__` after a failed `__aenter__`, so nothing finishes the span
  (`FailedScopedEnterLeavesSpanOpen`).
- **A headers value that is not a mapping leaves the span open.** The span
  is started (patch.py:249) before `propagator.inject` writes into the
  headers (patch.py:255). A value it cannot write into, such as a list of
  header pairs, which aiohttp accepts, raises with the span never finished.
  `CreateWrappedRequest` returns the error and drops the started span.
- **`on_prepare` can raise.** It reads `request[REQUEST_CONFIG_KEY]`
  (middlewares.py:124) after it has already tagged the span. A request that
  holds a span but no configuration raises `KeyError`, and the span is left
  unfinished (`Prepared`).
- **The deferred finish happens in the request proxy's own `__aexit__`.**
  With `trace_context` on, the client span is finished by the request
  proxy's `__aexit__` (patch.py:221-226). The response object's
  `__aexit__` (patch.py:175-177) only passes through.

## Model

Rows marked "(corrected reading)" state the behaviour of the corrected
definitions listed under "## Findings" (the keyword-first argument
resolution, the exit handler and `start` reading the integration
configuration, and a `patch()` that checks and sets each marker once);
the members modelling the code as written are named there.

| member | source | states |
|---|---|---|
| Text.NatToDecimal | ddtrace/contrib/aiohttp/patch.py:82 | the decimal text of a number is non-empty, all digits, has no leading zero, and is one character exactly for numbers below 10 |
| Tracing.Started | ddtrace/contrib/aiohttp/patch.py:249 | a new span has its own span id, no tags, no error and no finish, and the name as resource. It joins the parent's trace, as a child of the parent's span, when the parent has a trace; otherwise it starts the fresh trace with no parent |
| Settings.AnalyticsApplies | ddtrace/contrib/aiohttp/patch.py:299 | an explicit True/False on the integration decides analytics; only an unset value defers to the global switch (the same rule as middlewares.py:59) |
| Settings.SampleRate | ddtrace/contrib/aiohttp/patch.py:300 | the sample rate is the configured value, or True when none is configured |
| Settings.RequestSpanTags | ddtrace/contrib/aiohttp/patch.py:296-300 | a request span always gets the measured key, and gets the sample-rate key exactly when analytics applies, with the configured rate; no other keys |
| ClientTags.PortPart | ddtrace/contrib/aiohttp/patch.py:79-82 | the port part is empty exactly for (http, 80) and (https, 443), and otherwise starts with `:` |
| ClientTags.UrlTag | ddtrace/contrib/aiohttp/patch.py:84 | the URL tag starts with scheme, `://` and host, and ends with the path |
| ClientTags.UrlTagShape | ddtrace/contrib/aiohttp/patch.py:79-84 | the URL tag is scheme, `://`, host, then `:port` unless the port is the scheme's default, then the path |
| ClientTags.UrlTagIgnoresQuery | ddtrace/contrib/aiohttp/patch.py:84 | the query string never reaches the URL tag |
| ClientTags.PortPartInjective | ddtrace/contrib/aiohttp/patch.py:79-82 | for one scheme, two ports render the same port part if and only if they are equal |
| ClientTags.UrlTagDeterminesPort | ddtrace/contrib/aiohttp/patch.py:79-84 | for the same scheme, host and path, two URL tags are equal if and only if the ports are |
| ClientTags.RequestTagged | ddtrace/contrib/aiohttp/patch.py:78-87 | tagging adds exactly the URL tag with the rendered URL, sets the resource to the path, and changes nothing else |
| ClientTags.SetRequestTags | ddtrace/contrib/aiohttp/patch.py:78-87 | the span afterwards is `RequestTagged` of the span before |
| ClientTags.HeaderTags | ddtrace/contrib/aiohttp/patch.py:193-195 | the header tags are exactly the configured names the response carries, each with the response's value |
| ClientRequest.ResolveTargetAsWritten | ddtrace/contrib/aiohttp/patch.py:236-240 | as written, resolution raises `IndexError` exactly when there are fewer positional arguments than the entry's signature has, whatever the keywords |
| ClientRequest.ResolveTarget | ddtrace/contrib/aiohttp/patch.py:236-240 | (corrected reading) the keyword `method`/`url` wins over the positional one; without the keyword, the URL is `args[1]` for the generic entry and `args[0]` for a verb entry, and the generic entry's method is `args[0]`; verb entries use the verb; resolution fails with `IndexError` only when neither keyword nor position supplies a value |
| ClientRequest.ResolveTargetExtendsAsWritten | ddtrace/contrib/aiohttp/patch.py:236-240 | wherever the code as written resolves, the corrected resolution gives the same result |
| ClientRequest.KeywordUrlRejectedAsWritten | ddtrace/contrib/aiohttp/patch.py:237-238 | `request("GET", url=...)` raises `IndexError` as written, and resolves to GET and that URL as intended |
| ClientRequest.InjectHeaders | ddtrace/contrib/aiohttp/patch.py:251-256 | absent or None headers become a fresh mapping, a mapping is passed through `inject` with the span's context, the result is stored under `headers`, and the other keywords are untouched; a non-mapping fails |
| ClientRequest.PlanRequest | ddtrace/contrib/aiohttp/patch.py:230-256 | (corrected reading) a disabled tracer or a skipped URL calls straight through with no span. The result is an error exactly when the tracer is on and either the target does not resolve, or the URL is not skipped, distributed tracing is on and the headers cannot take the injection. Otherwise the call is traced with the resolved method and URL, and with the injected headers exactly when distributed tracing is on |
| ClientRequest.BaseHeaders | ddtrace/contrib/aiohttp/patch.py:252-254 | the headers to inject into are the caller's headers, or an empty mapping when they are absent or None; never None |
| ClientRequest.TracedCallCarriesInjectedHeaders | ddtrace/contrib/aiohttp/patch.py:251-256 | (corrected reading) with distributed tracing, every traced call carries a headers mapping produced by `inject` with the span's context |
| ClientRequest.Completed | ddtrace/contrib/aiohttp/patch.py:189-203 | a response sets the status tag and the configured header tags it carries, sets error to 1 iff status >= 500 and to 0 otherwise, and keeps every other tag. An exception sets error 1 and the type and message tags, and keeps every other tag |
| ClientRequest.Step | ddtrace/contrib/aiohttp/patch.py:187-227 | (corrected reading) an await or an enter finishes the span unless entered with `trace_context` on, and an exit finishes it only then; an enter marks the proxy entered; an exit changes nothing but the finish count; ids never change |
| ClientRequest.Run | ddtrace/contrib/aiohttp/patch.py:187-227 | (corrected reading) over any sequence of events the span's ids never change, and an entered proxy stays entered |
| ClientRequest.RunFinishCount | ddtrace/contrib/aiohttp/patch.py:187-226 | (corrected reading) over any sequence of awaits, enters and exits, the span is finished once per trigger (a handler unless deferred, an exit only when deferred), and its ids never change |
| ClientRequest.BareAwaitFinishesOnce | ddtrace/contrib/aiohttp/patch.py:204-214 | a bare await finishes the span exactly once, on success or error, whatever the flag |
| ClientRequest.ScopedUseFinishesOnce | ddtrace/contrib/aiohttp/patch.py:204-226 | (corrected reading) an `async with` around a request that succeeds finishes the span exactly once: in the handler with `trace_context` off, on exit with it on; an enter alone finishes it exactly when the flag is off |
| ClientRequest.FailedScopedEnterLeavesSpanOpen | ddtrace/contrib/aiohttp/patch.py:201-206 | with `trace_context` on, an `async with` whose request raises leaves the span flagged as an error and never finished |
| ClientRequest.RepeatedExitFinishesAgain | ddtrace/contrib/aiohttp/patch.py:221-226 | (corrected reading) with `trace_context` on, a second exit finishes the span a second time |
| ClientRequest.ExitAsWritten | ddtrace/contrib/aiohttp/patch.py:221-227 | as written, an exit after enter never finishes the span and raises `AttributeError` |
| ClientRequest.ScopedUseAsWrittenLeavesSpanOpen | ddtrace/contrib/aiohttp/patch.py:216-226 | as written, with `trace_context` on, `async with` leaves the span unfinished and its exit raises `AttributeError` |
| ClientRequest.RequestContext.constructor | ddtrace/contrib/aiohttp/patch.py:181-185 | the proxy holds the span and configuration and starts without a context |
| ClientRequest.RequestContext.HandleResponse | ddtrace/contrib/aiohttp/patch.py:187-206 | the span becomes `Completed`, finished unless entered with `trace_context` on; the outcome passes through |
| ClientRequest.RequestContext.Await | ddtrace/contrib/aiohttp/patch.py:209-214 | the proxy's state takes one bare-await step |
| ClientRequest.RequestContext.AEnter | ddtrace/contrib/aiohttp/patch.py:216-219 | the proxy records the context and takes one enter step |
| ClientRequest.RequestContext.AExit | ddtrace/contrib/aiohttp/patch.py:221-227 | (corrected reading) the span is finished exactly when the proxy was entered and `trace_context` is on; the exit's result passes through |
| ClientRequest.CreateWrappedRequest | ddtrace/contrib/aiohttp/patch.py:230-262 | (corrected reading) the wrapper does what `PlanRequest` decides: a direct call, an error, or a fresh proxy around a fresh span tagged with URL and method under the ambient context |
| ClientResponse.Anchor | ddtrace/contrib/aiohttp/patch.py:121-128 | the anchor is the current span's ids when there is one, else the call context's |
| ClientResponse.Reparented | ddtrace/contrib/aiohttp/patch.py:158-162 | each non-zero anchor id replaces the span's trace or parent id; nothing else changes |
| ClientResponse.ReadSpan | ddtrace/contrib/aiohttp/patch.py:152-169 | a read span is re-parented to the anchor, finished once, carries the URL tag and path resource, and carries status and `Length` equal to the body's length on success, or the error on failure |
| ClientResponse.ReadIgnoresAmbientContext | ddtrace/contrib/aiohttp/patch.py:155-162 | with both anchor ids set, the read span is the same whatever context the reading task has |
| ClientResponse.StartAsWritten | ddtrace/contrib/aiohttp/patch.py:130-150 | as written, a successful start raises exactly when response headers are configured for tagging |
| ClientResponse.StartSpan | ddtrace/contrib/aiohttp/patch.py:130-150 | (corrected reading) a start span has the ids `tracer.trace()` gives it under the ambient context, is finished once, and carries the URL tag of line 137 (unless a configured response header of that name overrides it). On success its tag keys are exactly URL, status, method and the configured headers the response carries, with their values; on failure exactly URL, error type and error message, with error 1 |
| ClientResponse.StartAsWrittenRaises | ddtrace/contrib/aiohttp/patch.py:141-144 | with one configured header, as written the caller gets `AttributeError`; as intended it gets the response and the header is tagged |
| ClientResponse.StartAgreesWithoutTraceHeaders | ddtrace/contrib/aiohttp/patch.py:141-150 | without configured headers the written and intended `start` agree |
| ClientResponse.ResponseProxy.constructor | ddtrace/contrib/aiohttp/patch.py:116-128 | the proxy captures the anchor at construction; the status is None until `start` |
| ClientResponse.ResponseProxy.Read | ddtrace/contrib/aiohttp/patch.py:152-169 | `read` returns the body unchanged and produces `ReadSpan` |
| ClientResponse.ResponseProxy.Start | ddtrace/contrib/aiohttp/patch.py:130-150 | (corrected reading) `start` returns the outcome, produces `StartSpan`, and records the status on success |
| ClientPatch.ResolveModules | ddtrace/contrib/aiohttp/patch.py:32-34 | modules resolve exactly when every name is loaded, each to its module |
| ClientPatch.CacheStep | ddtrace/contrib/aiohttp/patch.py:27-40 | a cached pair is reused without looking further; otherwise a call is traced, and cached, exactly when all modules are loaded and an enabled pin is found |
| ClientPatch.Dispatches | ddtrace/contrib/aiohttp/patch.py:28-40 | a call goes untraced only while nothing is cached, and only when its own environment lacks a module or an enabled pin; every untraced call comes before every traced one |
| ClientPatch.TracedDispatchIsSticky | ddtrace/contrib/aiohttp/patch.py:28-40 | once a call is traced, every later call is traced with the same modules and pin, even if the pin has since been disabled |
| ClientPatch.CachedDispatchesAll | ddtrace/contrib/aiohttp/patch.py:28-29 | with a cached pair, every call goes to it |
| ClientPatch.TracedFunction.Wrapper | ddtrace/contrib/aiohttp/patch.py:27-40 | the wrapper's cache and dispatch follow `CacheStep` |
| ClientPatch.HandleSpan | ddtrace/contrib/aiohttp/patch.py:293-301 | the `_handle` span is measured, finished once, has the sample rate exactly when analytics applies, and is an error exactly when the call to `_handle` raises |
| ClientPatch.TracedHandle | ddtrace/contrib/aiohttp/patch.py:293-301 | an uncached or disabled dispatch opens no span; a traced one opens `HandleSpan` |
| ClientPatch.AiohttpPatched | ddtrace/contrib/aiohttp/patch.py:339-341 | an unmarked aiohttp is marked and wrapped once; a marked one is unchanged; the jinja2 fields are untouched |
| ClientPatch.Jinja2Patched | ddtrace/contrib/aiohttp/patch.py:327-332 | an unmarked `aiohttp_jinja2` is marked and wrapped once; a marked one is unchanged; the aiohttp fields are untouched |
| ClientPatch.PatchAsWritten | ddtrace/contrib/aiohttp/patch.py:335-350 | as written, `patch()` marks aiohttp and wraps it once, and marks a present `aiohttp_jinja2` without ever wrapping it |
| ClientPatch.PatchAsWrittenNeverWrapsJinja2 | ddtrace/contrib/aiohttp/patch.py:328-350 | on a fresh `aiohttp_jinja2`, as written no wrapper is added; as intended one is |
| ClientPatch.Patched | ddtrace/contrib/aiohttp/patch.py:327-350 | (corrected reading) `patch()` marks each present module and adds a wrapping layer only to modules not already marked |
| ClientPatch.PatchIdempotent | ddtrace/contrib/aiohttp/patch.py:339-350 | (corrected reading) patching twice is patching once |
| ClientPatch.RepeatedPatchOneLayer | ddtrace/contrib/aiohttp/patch.py:339-350 | (corrected reading) any number of `patch()` calls leaves exactly one layer of wrapping on each present module |
| ClientPatch.Modules.PatchJinja2 | ddtrace/contrib/aiohttp/patch.py:327-332 | `patch_aiohttp_jinja2` wraps and marks an unmarked module, and leaves a marked one alone |
| ClientPatch.Modules.Patch | ddtrace/contrib/aiohttp/patch.py:335-350 | (corrected reading) the modules' markers and layers follow `Patched` |
| ServerMiddleware.RouteResource | ddtrace/contrib/aiohttp/middlewares.py:105-112 | the route's part of the resource is never empty, and is one of the route's `get_info()` values or the status |
| ServerMiddleware.ResourceName | ddtrace/contrib/aiohttp/middlewares.py:100-115 | without a route resource the name is the status in decimal; with one it is the method, a space, then the route's part |
| ServerMiddleware.ResourcePriority | ddtrace/contrib/aiohttp/middlewares.py:103-115 | a routed resource is the method, a space, then the first non-empty of path, formatter and prefix, else the status |
| ServerMiddleware.ResourceNameExamples | ddtrace/contrib/aiohttp/middlewares.py:100-115 | a dynamic route gives `GET /users/{id}`, an empty path falls to the prefix, and no resource gives the bare status `503` |
| ServerMiddleware.BareStatusResourceReadsBack | ddtrace/contrib/aiohttp/middlewares.py:101 | without a route the resource is all digits and reads back as the status |
| ServerMiddleware.BareStatusResourceInjective | ddtrace/contrib/aiohttp/middlewares.py:101 | without a route, two resources are equal if and only if the statuses are |
| ServerMiddleware.RoutedResourceNeverBareStatus | ddtrace/contrib/aiohttp/middlewares.py:101-115 | a routed resource never equals a bare-status resource |
| ServerMiddleware.TraceQueryString | ddtrace/contrib/aiohttp/middlewares.py:124-127 | an explicit True/False on the request configuration decides query-string capture; only None defers to the global setting |
| ServerMiddleware.Prepared | ddtrace/contrib/aiohttp/middlewares.py:90-129 | `on_prepare` sets the route resource, error 1 for 5xx (else untouched), method, status and query-free URL tags, the query-string tag exactly when the per-request or fallback setting asks, and finishes once; without a configuration it raises `KeyError` unfinished |
| ServerMiddleware.PreparedUrlIgnoresQuery | ddtrace/contrib/aiohttp/middlewares.py:123 | the URL tag `on_prepare` sets never depends on the query string |
| ServerMiddleware.NextActive | ddtrace/contrib/aiohttp/middlewares.py:43-51 | with distributed tracing the active context becomes the extracted one when it names a trace, else an empty one; without it, nothing changes |
| ServerMiddleware.NoInheritedTrace | ddtrace/contrib/aiohttp/middlewares.py:43-54 | with distributed tracing and no propagated trace, the request span starts a fresh trace with no parent, never the previous request's trace |
| ServerMiddleware.RequestSpan | ddtrace/contrib/aiohttp/middlewares.py:54-72 | the request span has the given span id and joins the active trace under the active span, or starts the fresh trace with no parent when nothing is active; it is measured, has the sample rate exactly when analytics applies, is an error exactly when the handler raised, and is not finished |
| ServerMiddleware.RequestSpanFinishedOnce | ddtrace/contrib/aiohttp/middlewares.py:54-129 | middleware followed by `on_prepare` finishes the request span exactly once, measured and named after the route, as an error iff the handler raised or the status is 5xx |
| ServerMiddleware.Tracer.Activate | ddtrace/contrib/aiohttp/middlewares.py:47-51 | activating a context makes it the tracer's active one |
| ServerMiddleware.OnPrepare | ddtrace/contrib/aiohttp/middlewares.py:90-129 | without a stored span nothing changes and nothing is raised; with one, the span and the outcome follow `Prepared` |
| ServerMiddleware.TraceMiddleware | ddtrace/contrib/aiohttp/middlewares.py:33-72 | an untraced app raises `KeyError` before any change; otherwise the active context follows `NextActive`, a fresh `RequestSpan` is started and stored with its context and the configuration, and a handler exception is re-raised |
| ServerMiddleware.ServiceName | ddtrace/contrib/aiohttp/middlewares.py:151 | the globally configured service name wins over the default |
| ServerMiddleware.InstalledConfig | ddtrace/contrib/aiohttp/middlewares.py:149-155 | the installed configuration has the given service and distributed-tracing flag and sample rate 1.0, and leaves analytics and query-string capture to the global switches |
| ServerMiddleware.TracedApp | ddtrace/contrib/aiohttp/middlewares.py:143-163 | an unmarked app is marked, configured, gets the middleware first and `on_prepare` last; a marked app is left as it is |
| ServerMiddleware.TracedAppIdempotent | ddtrace/contrib/aiohttp/middlewares.py:143-146 | tracing an app twice is tracing it once, whatever the second call's arguments |
| ServerMiddleware.TracedAppAllInstallsOnce | ddtrace/contrib/aiohttp/middlewares.py:143-163 | however often an unmarked app is traced, it gains exactly one middleware and one `on_prepare`, configured by the first call |
| ServerMiddleware.MarkedAppUnchanged | ddtrace/contrib/aiohttp/middlewares.py:144-145 | any number of calls leave a marked app unchanged |
| ServerMiddleware.TraceApp | ddtrace/contrib/aiohttp/middlewares.py:133-163 | the app afterwards is `TracedApp` of the app before, and the tracer is switched to the async context provider only for an unmarked app |
| ServerMiddleware.TraceAppStub | ddtrace/contrib/aiohttp/middlewares.py:167-168 | the live `trace_app` changes neither the app nor the tracer |

## Left out

- **Connector spans (`_WrappedConnectorClass`, patch.py:90-112).** They follow
  the same open-tag-finish pattern as `start`. They are not modelled.
- **Wiring done by `_wrap_clientsession_init`, `_create_wrapped_response`
  and `_get_url_obj` (patch.py:69-75, 265-285).** This is wrapt proxy
  installation and yarl/1.x URL lookup; the model starts from the wrapped
  objects.
- **`_trace_render_template` (patch.py:45-66).** It is never installed (see
  Findings), and it is a thin jinja2 environment lookup.
- **`unpatch` (patch.py:353-367).** It is wrapt unwrapping.
- **`patch_aiohttp` and `patch_aiohttp_web_app` (patch.py:304-324).** They
  attach pins and install wrappers. Only their markers and the number of
  wrapping layers are modelled.
- **`trace_middleware_1x` and the middleware selection (middlewares.py:75-87).**
  The first is a `functools.partial` adapter for old aiohttp versions.
- **yarl's `URL(...)` and `should_skip_request`.** They become the function
  parameters `toUrl` and `skip`. A URL is taken as given fields.
- **`HTTPPropagator.inject` and `extract`.** They are a function parameter and
  an input context respectively. The wire format is not modelled.
- **The tracer's span creation.** The new span's ids are parameters. Start
  and finish timestamps, sampling, export, the tracer making the new span
  current, and `Pin.tracer` are not modelled. `Pin.enabled` stands for both
  `pin.tracer.enabled` and `pin.enabled()`.
- **Awaiting and task scheduling.** Each await is a sequential method call
  whose outcome (response, body or exception) is a parameter. Task-local
  context is an explicit `ambient` context.
- **The `error.stack` tag that `set_traceback` and `set_exc_info` add.** Only
  the error flag, type and message are kept.
- **The analytics sample rate.** It is an opaque tag value.
- **The handler's response in `trace_middleware_2x`.** It passes through
  untouched and is not modelled.
- ClientTags.HeaderTags: header names are matched exactly. aiohttp's
  response headers match them case-insensitively.
- ClientRequest.InjectHeaders: returns a new keyword map. The code injects
  into the caller's own headers dictionary in place, and that aliasing is
  not modelled.
- ClientPatch.HandleSpan: `Application._handle` is a coroutine function,
  so `wrapped(*args, **kwargs)` returns a coroutine and the `with` block
  closes the span before the handler runs. The model's `raised` is an
  exception from that call, not from the handler.
- ServerMiddleware.TraceMiddleware: takes its tracer as a parameter. That
  it is the tracer `trace_app` stored under `"tracer"` (middlewares.py:150,
  38) is not modelled, since `AppConfig` has no tracer entry.
- ServerMiddleware.TraceMiddleware: every handler exception is treated as an
  `Exception`. A `BaseException` that is not one (task cancellation on newer
  Pythons) would propagate without the error tags.
- ServerMiddleware.OnPrepare: `trace_query_string` is modelled as True, False
  or absent/None. Other values and their Python truthiness are not
  modelled.

## Findings

| source | as written | input that shows it | evidently intended | confidence | as-written member | corrected member |
|---|---|---|---|---|---|---|
| ddtrace/contrib/aiohttp/patch.py:237-240 | `kwargs.get("url", args[1])` evaluates `args[1]` before looking at the keyword, so a URL or method passed by keyword raises `IndexError` | `session.request("GET", url="http://example.com/")` (lemma `KeywordUrlRejectedAsWritten`) | the keyword wins and the positional argument is read only when the keyword is absent | high; not executed | ClientRequest.ResolveTargetAsWritten | ClientRequest.ResolveTarget |
| ddtrace/contrib/aiohttp/patch.py:225 | `__aexit__` reads `self._self_trace_context`, which nothing assigns. The proxy forwards the read to the wrapped context manager, which raises `AttributeError` | `async with session.get(url)` with `trace_context` on: the span is never finished and the exit raises (lemma `ScopedUseAsWrittenLeavesSpanOpen`) | read `pin._config["trace_context"]`, as line 205 does | medium (relies on the wrapped object lacking that attribute); not executed | ClientRequest.ExitAsWritten | ClientRequest.RequestContext.AExit |
| ddtrace/contrib/aiohttp/patch.py:143 | `start` iterates `self._self_trace_headers`, which nothing assigns, so it raises `AttributeError` after the wrapped `start` succeeded | a response `start` with `trace_headers = ["X-Request-Id"]` (lemma `StartAsWrittenRaises`) | iterate `pin._config["trace_headers"]`, as lines 192-195 do | medium (relies on the wrapped object lacking that attribute); not executed | ClientResponse.StartAsWritten | ClientResponse.StartSpan |
| ddtrace/contrib/aiohttp/patch.py:348-350 | `patch()` sets the `aiohttp_jinja2` marker, then calls `patch_aiohttp_jinja2`, which checks the same marker (line 328) and returns | `patch()` with `aiohttp_jinja2` importable and unpatched (lemma `PatchAsWrittenNeverWrapsJinja2`) | one check-and-set, so `render_template` is wrapped once | high; not executed | ClientPatch.PatchAsWritten | ClientPatch.Patched |
