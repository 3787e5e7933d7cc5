/** The parts of the tracer that the aiohttp integration touches: trace
    contexts, URLs taken apart, tag values, exceptions, and the span object
    that the integration tags and finishes in place. Span creation, sampling
    and export belong to the tracer and are not modelled; a span here is a
    plain record of its tags, error flag, resource, ids and a count of the
    calls to `finish()`. */
module Tracing {

  datatype Option<T> = None | Some(value: T)

  /** An exception as the integration sees it: its class name and message. */
  datatype Exception = Exception(kind: string, message: string)

  datatype Result<T> = Ok(value: T) | Err(error: Exception)

  /** Python's `IndexError` for `args[i]` past the end of a tuple. */
  const IndexOutOfRange := Exception("IndexError", "tuple index out of range")

  /** The `AttributeError` raised when reading an attribute never assigned. */
  function MissingAttribute(name: string): Exception {
    Exception("AttributeError", name)
  }

  /** A URL as yarl exposes it; `port` is None when yarl knows no port. */
  datatype Url = Url(scheme: string, host: string, port: Option<nat>, path: string, query: string)

  /** Values that flow through call arguments and span tags. A float such as
      the analytics sample rate is carried as a `real`. */
  datatype Value =
    | Str(s: string)
    | Int(i: int)
    | Bool(b: bool)
    | Real(r: real)
    | Link(url: Url)
    | Dict(entries: map<string, string>)
    | NoneValue

  /** A trace context; an id of 0 stands for "no id" (Python's None or 0). */
  datatype Context = Context(traceId: nat, spanId: nat)

  const EmptyContext := Context(0, 0)

  // Tag names used by the integration.
  const URL_TAG := "http.url"
  const METHOD_TAG := "http.method"
  const STATUS_CODE_TAG := "http.status_code"
  const QUERY_STRING_TAG := "http.query.string"
  const LENGTH_TAG := "Length"
  const MEASURED_KEY := "_dd.measured"
  const ANALYTICS_SAMPLE_RATE_KEY := "_dd1.sr.eausr"
  const ERROR_TYPE_TAG := "error.type"
  const ERROR_MSG_TAG := "error.msg"

  // Span types.
  const HTTP_TYPE := "http"
  const WEB_TYPE := "web"

  /** The mutable part of a span, as a value. */
  datatype SpanRecord = SpanRecord(
    tags: map<string, Value>,
    error: int,
    resource: string,
    traceId: nat,
    spanId: nat,
    parentId: nat,
    finishCount: nat)

  /** The record of a span the tracer has just started as a child of
      `parent`; a parent without a trace id starts a new trace, whose id the
      tracer draws (`freshTraceId`). The resource defaults to the name. */
  function Started(name: string, parent: Context, spanId: nat, freshTraceId: nat): (r: SpanRecord)
    ensures r.tags == map[] && r.error == 0 && r.finishCount == 0
    ensures r.traceId == if parent.traceId != 0 then parent.traceId else freshTraceId
    ensures r.spanId == spanId && r.parentId == if parent.traceId != 0 then parent.spanId else 0
    ensures r.resource == name
  {
    if parent.traceId != 0 then SpanRecord(map[], 0, name, parent.traceId, spanId, parent.spanId, 0)
    else SpanRecord(map[], 0, name, freshTraceId, spanId, 0, 0)
  }

  function Tagged(r: SpanRecord, key: string, v: Value): SpanRecord {
    r.(tags := r.tags[key := v])
  }

  /** `set_exc_info`: the error flag and the exception's type and message. */
  function WithException(r: SpanRecord, e: Exception): SpanRecord {
    r.(error := 1, tags := r.tags[ERROR_TYPE_TAG := Str(e.kind)][ERROR_MSG_TAG := Str(e.message)])
  }

  function FinishedIf(r: SpanRecord, finish: bool): SpanRecord {
    if finish then r.(finishCount := r.finishCount + 1) else r
  }

  class Span {
    const name: string
    const service: string
    const spanType: string
    const spanId: nat
    var traceId: nat
    var parentId: nat
    var tags: map<string, Value>
    var error: int
    var resource: string
    var finishCount: nat

    function Record(): SpanRecord
      reads this
    {
      SpanRecord(tags, error, resource, traceId, spanId, parentId, finishCount)
    }

    /** `span.context`: the ids a child of this span inherits. */
    function SpanContext(): Context
      reads this
    {
      Context(traceId, spanId)
    }

    /** `tracer.trace(name, service=..., span_type=...)` under `parent`. */
    constructor Start(name: string, service: string, spanType: string, parent: Context, spanId: nat, freshTraceId: nat)
      ensures this.name == name && this.service == service && this.spanType == spanType
      ensures Record() == Started(name, parent, spanId, freshTraceId)
    {
      this.name := name;
      this.service := service;
      this.spanType := spanType;
      this.spanId := spanId;
      if parent.traceId != 0 {
        traceId := parent.traceId;
        parentId := parent.spanId;
      } else {
        traceId := freshTraceId;
        parentId := 0;
      }
      tags := map[];
      error := 0;
      resource := name;
      finishCount := 0;
    }

    method SetTag(key: string, v: Value)
      modifies this
      ensures Record() == Tagged(old(Record()), key, v)
    {
      tags := tags[key := v];
    }

    /** `set_tags`: later entries of `m` win over existing tags. */
    method SetTags(m: map<string, Value>)
      modifies this
      ensures Record() == old(Record()).(tags := old(tags) + m)
    {
      tags := tags + m;
    }

    method SetError(e: int)
      modifies this
      ensures Record() == old(Record()).(error := e)
    {
      error := e;
    }

    method SetResource(res: string)
      modifies this
      ensures Record() == old(Record()).(resource := res)
    {
      resource := res;
    }

    method SetTraceId(id: nat)
      modifies this
      ensures Record() == old(Record()).(traceId := id)
    {
      traceId := id;
    }

    method SetParentId(id: nat)
      modifies this
      ensures Record() == old(Record()).(parentId := id)
    {
      parentId := id;
    }

    method SetExcInfo(e: Exception)
      modifies this
      ensures Record() == WithException(old(Record()), e)
    {
      error := 1;
      tags := tags[ERROR_TYPE_TAG := Str(e.kind)][ERROR_MSG_TAG := Str(e.message)];
    }

    method Finish()
      modifies this
      ensures Record() == FinishedIf(old(Record()), true)
    {
      finishCount := finishCount + 1;
    }
  }
}
