/** The `_WrappedResponseClass` proxy of patch.py: it captures the trace
    and span ids in force when the response object is built, and re-parents
    the span of a later `read` to them, since the body may be read from
    another task after the request's own span context is gone. */
module ClientResponse {
  import opened Tracing
  import opened Settings
  import opened ClientTags

  /** The ids captured at construction: those of the current span when
      there is one, otherwise those of the call context. */
  function Anchor(currentSpan: Option<Context>, callContext: Context): (anchor: Context)
    ensures currentSpan.Some? ==> anchor == currentSpan.value
    ensures currentSpan.None? ==> anchor == callContext
  {
    match currentSpan
    case Some(ids) => ids
    case None => callContext
  }

  /** What the wrapped `read()` produces: the body, or an exception. */
  datatype ReadOutcome = Body(data: seq<bv8>) | ReadRaised(exc: Exception)

  /** What the wrapped `start()` produces: the started response (its status,
      method and headers), or an exception. */
  datatype StartOutcome =
    | StartedResponse(status: nat, httpMethod: string, headers: map<string, string>)
    | StartRaised(exc: Exception)

  /** The span `read` opens under the ambient context, after the anchor's
      non-zero ids have replaced its own. */
  function Reparented(begun: SpanRecord, anchor: Context): (r: SpanRecord)
    ensures r.traceId == (if anchor.traceId != 0 then anchor.traceId else begun.traceId)
    ensures r.parentId == (if anchor.spanId != 0 then anchor.spanId else begun.parentId)
    ensures r.(traceId := begun.traceId, parentId := begun.parentId) == begun
  {
    var withTrace := if anchor.traceId != 0 then begun.(traceId := anchor.traceId) else begun;
    if anchor.spanId != 0 then withTrace.(parentId := anchor.spanId) else withTrace
  }

  /** The finished span of one `read`: re-parented to the anchor, tagged
      with the URL, and on success with the status and the body's length;
      on an exception with the exception's details. */
  function ReadSpan(name: string, anchor: Context, url: Url, status: Value,
                    ambient: Context, spanId: nat, freshTraceId: nat, o: ReadOutcome): (r: SpanRecord)
    ensures r.traceId == (if anchor.traceId != 0 then anchor.traceId else Started(name, ambient, spanId, freshTraceId).traceId)
    ensures r.parentId == (if anchor.spanId != 0 then anchor.spanId else Started(name, ambient, spanId, freshTraceId).parentId)
    ensures r.spanId == spanId && r.finishCount == 1 && r.resource == url.path
    ensures URL_TAG in r.tags && r.tags[URL_TAG] == Str(UrlTag(url))
    ensures o.Body? ==> r.error == 0 && r.tags.Keys == {URL_TAG, STATUS_CODE_TAG, LENGTH_TAG}
    ensures o.Body? ==> r.tags[LENGTH_TAG] == Int(|o.data|) && r.tags[STATUS_CODE_TAG] == status
    ensures o.ReadRaised? ==> r.error == 1 && LENGTH_TAG !in r.tags && STATUS_CODE_TAG !in r.tags
  {
    var begun := RequestTagged(Reparented(Started(name, ambient, spanId, freshTraceId), anchor), url);
    var done := match o
      case Body(data) => Tagged(Tagged(begun, STATUS_CODE_TAG, status), LENGTH_TAG, Int(|data|))
      case ReadRaised(e) => WithException(begun, e);
    FinishedIf(done, true)
  }

  /** A read under an anchor with both ids set lands in the anchored trace,
      under the anchored span, whatever context the reading task has. */
  lemma ReadIgnoresAmbientContext(name: string, anchor: Context, url: Url, status: Value,
                                  a1: Context, a2: Context, spanId: nat, fresh1: nat, fresh2: nat, o: ReadOutcome)
    requires anchor.traceId != 0 && anchor.spanId != 0
    ensures var r1 := ReadSpan(name, anchor, url, status, a1, spanId, fresh1, o);
            var r2 := ReadSpan(name, anchor, url, status, a2, spanId, fresh2, o);
            r1 == r2 && r1.traceId == anchor.traceId && r1.parentId == anchor.spanId
  {
  }

  /** `start` as written: with response headers configured for tagging it
      iterates `self._self_trace_headers`, which nothing assigns, so it
      raises `AttributeError` after the wrapped `start` has succeeded. */
  function StartAsWritten(name: string, url: Url, config: IntegrationConfig,
                          ambient: Context, spanId: nat, freshTraceId: nat, o: StartOutcome): (r: (StartOutcome, SpanRecord))
    ensures r.1.finishCount == 1
    ensures o.StartRaised? ==> r.0 == o && r.1.error == 1
    ensures o.StartedResponse? ==> (r.0.StartRaised? <==> |config.traceHeaders| > 0)
    ensures r.0.StartRaised? ==> r.1.error == 1
  {
    var begun := RequestTagged(Started(name, ambient, spanId, freshTraceId), url);
    match o
    case StartRaised(e) => (o, FinishedIf(WithException(begun, e), true))
    case StartedResponse(status, m, _) =>
      if |config.traceHeaders| > 0 then
        var e := MissingAttribute("_self_trace_headers");
        (StartRaised(e), FinishedIf(WithException(begun, e), true))
      else
        (o, FinishedIf(Tagged(Tagged(begun, STATUS_CODE_TAG, Int(status)), METHOD_TAG, Str(m)), true))
  }

  /** `start` as intended: the configured header names are looked up in the
      started response, then the status and method are tagged. */
  function StartSpan(name: string, url: Url, config: IntegrationConfig,
                     ambient: Context, spanId: nat, freshTraceId: nat, o: StartOutcome): (r: (StartOutcome, SpanRecord))
    ensures r.0 == o
    ensures r.1.finishCount == 1 && r.1.resource == url.path
    ensures o.StartedResponse? ==> r.1.error == 0
    ensures o.StartedResponse? ==>
      && STATUS_CODE_TAG in r.1.tags && r.1.tags[STATUS_CODE_TAG] == Int(o.status)
      && METHOD_TAG in r.1.tags && r.1.tags[METHOD_TAG] == Str(o.httpMethod)
    ensures o.StartedResponse? ==> forall h :: h in config.traceHeaders && h in o.headers && h != STATUS_CODE_TAG && h != METHOD_TAG ==>
      h in r.1.tags && r.1.tags[h] == Str(o.headers[h])
    ensures o.StartRaised? ==> r.1.error == 1
    ensures r.1.(tags := map[], error := 0, finishCount := 0, resource := name) == Started(name, ambient, spanId, freshTraceId)
    ensures o.StartRaised? || !(URL_TAG in config.traceHeaders && URL_TAG in o.headers) ==>
      URL_TAG in r.1.tags && r.1.tags[URL_TAG] == Str(UrlTag(url))
    ensures o.StartedResponse? ==>
      r.1.tags.Keys == {URL_TAG, STATUS_CODE_TAG, METHOD_TAG} + (set h | h in config.traceHeaders && h in o.headers)
    ensures o.StartRaised? ==>
      && r.1.tags.Keys == {URL_TAG, ERROR_TYPE_TAG, ERROR_MSG_TAG}
      && r.1.tags[ERROR_TYPE_TAG] == Str(o.exc.kind) && r.1.tags[ERROR_MSG_TAG] == Str(o.exc.message)
  {
    var begun := RequestTagged(Started(name, ambient, spanId, freshTraceId), url);
    match o
    case StartRaised(e) => (o, FinishedIf(WithException(begun, e), true))
    case StartedResponse(status, m, headers) =>
      var withHeaders :=
        if |config.traceHeaders| > 0 then begun.(tags := begun.tags + HeaderTags(config.traceHeaders, headers)) else begun;
      (o, FinishedIf(Tagged(Tagged(withHeaders, STATUS_CODE_TAG, Int(status)), METHOD_TAG, Str(m)), true))
  }

  /** A successful start with one configured header: as written the caller
      gets `AttributeError`; as intended it gets the response, and the
      header is tagged. */
  lemma StartAsWrittenRaises(name: string, url: Url, config: IntegrationConfig,
                             ambient: Context, spanId: nat, freshTraceId: nat)
    requires config.traceHeaders == ["X-Request-Id"]
    ensures var o := StartedResponse(200, "GET", map["X-Request-Id" := "abc"]);
      && StartAsWritten(name, url, config, ambient, spanId, freshTraceId, o).0 == StartRaised(MissingAttribute("_self_trace_headers"))
      && StartSpan(name, url, config, ambient, spanId, freshTraceId, o).0 == o
      && StartSpan(name, url, config, ambient, spanId, freshTraceId, o).1.tags["X-Request-Id"] == Str("abc")
  {
  }

  /** Without configured headers the two readings of `start` agree. */
  lemma StartAgreesWithoutTraceHeaders(name: string, url: Url, config: IntegrationConfig,
                                       ambient: Context, spanId: nat, freshTraceId: nat, o: StartOutcome)
    requires config.traceHeaders == []
    ensures StartAsWritten(name, url, config, ambient, spanId, freshTraceId, o) == StartSpan(name, url, config, ambient, spanId, freshTraceId, o)
  {
  }

  class ResponseProxy {
    /** The wrapped response's class name; the proxy reports it as its own. */
    const className: string
    const url: Url
    const pin: Pin
    const anchor: Context
    /** The wrapped response's `status`: None until `start` has run. */
    var status: Value

    constructor (className: string, url: Url, pin: Pin, currentSpan: Option<Context>, callContext: Context)
      ensures this.className == className && this.url == url && this.pin == pin
      ensures anchor == Anchor(currentSpan, callContext) && status == NoneValue
    {
      this.className := className;
      this.url := url;
      this.pin := pin;
      if currentSpan.Some? {
        anchor := currentSpan.value;
      } else {
        anchor := callContext;
      }
      status := NoneValue;
    }

    /** `read`, with the ambient context of the reading task and the ids the
        tracer hands out. */
    method Read(o: ReadOutcome, ambient: Context, spanId: nat, freshTraceId: nat) returns (r: ReadOutcome, span: Span)
      ensures r == o && fresh(span)
      ensures span.Record() == ReadSpan(className + ".read", anchor, url, status, ambient, spanId, freshTraceId, o)
    {
      span := new Span.Start(className + ".read", pin.service, HTTP_TYPE, ambient, spanId, freshTraceId);
      if anchor.traceId != 0 {
        span.SetTraceId(anchor.traceId);
      }
      if anchor.spanId != 0 {
        span.SetParentId(anchor.spanId);
      }
      SetRequestTags(span, url);
      match o {
        case Body(data) =>
          span.SetTag(STATUS_CODE_TAG, status);
          span.SetTag(LENGTH_TAG, Int(|data|));
        case ReadRaised(e) =>
          span.SetExcInfo(e);
      }
      span.Finish();
      r := o;
    }

    /** `start`, reading the header names from the pin's configuration. */
    method Start(o: StartOutcome, ambient: Context, spanId: nat, freshTraceId: nat) returns (r: StartOutcome, span: Span)
      modifies this
      ensures fresh(span)
      ensures (r, span.Record()) == StartSpan(className + ".start", url, pin.config, ambient, spanId, freshTraceId, o)
      ensures status == if o.StartedResponse? then Int(o.status) else old(status)
    {
      span := new Span.Start(className + ".start", pin.service, HTTP_TYPE, ambient, spanId, freshTraceId);
      SetRequestTags(span, url);
      match o {
        case StartRaised(e) =>
          span.SetExcInfo(e);
        case StartedResponse(st, m, headers) =>
          status := Int(st);
          if |pin.config.traceHeaders| > 0 {
            span.SetTags(HeaderTags(pin.config.traceHeaders, headers));
          }
          span.SetTag(STATUS_CODE_TAG, status);
          span.SetTag(METHOD_TAG, Str(m));
      }
      span.Finish();
      r := o;
    }
  }
}
