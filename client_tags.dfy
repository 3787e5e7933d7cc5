/** How the client integration renders a request URL into the `http.url`
    tag and copies configured response headers into tags
    (`_set_request_tags` and the header dict comprehensions of patch.py). */
module ClientTags {
  import opened Text
  import opened Tracing

  /** The scheme's implicit port, which the URL tag leaves out. */
  predicate IsDefaultPort(scheme: string, port: Option<nat>) {
    (scheme == "http" && port == Some(80)) || (scheme == "https" && port == Some(443))
  }

  /** `'{}'.format(url.port)`: a missing port prints as `None`. */
  function PortText(port: Option<nat>): string {
    match port
    case None => "None"
    case Some(p) => NatToDecimal(p)
  }

  function PortPart(scheme: string, port: Option<nat>): (part: string)
    ensures part == "" <==> IsDefaultPort(scheme, port)
    ensures part != "" ==> part[0] == ':'
  {
    if IsDefaultPort(scheme, port) then "" else ":" + PortText(port)
  }

  /** The `http.url` tag: scheme, host, port part and path; the query is
      never part of it. */
  function UrlTag(url: Url): (tag: string)
    ensures |tag| >= |url.scheme| + 3 + |url.host| + |url.path|
    ensures tag[..|url.scheme| + 3 + |url.host|] == url.scheme + "://" + url.host
    ensures tag[|tag| - |url.path|..] == url.path
  {
    url.scheme + "://" + url.host + PortPart(url.scheme, url.port) + url.path
  }

  /** The port part is empty exactly for (http, 80) and (https, 443), and is
      otherwise `:` followed by the port. */
  lemma UrlTagShape(url: Url)
    ensures IsDefaultPort(url.scheme, url.port) ==> UrlTag(url) == url.scheme + "://" + url.host + url.path
    ensures !IsDefaultPort(url.scheme, url.port) ==>
      UrlTag(url) == url.scheme + "://" + url.host + ":" + PortText(url.port) + url.path
  {
  }

  /** The query string never reaches the tag. */
  lemma UrlTagIgnoresQuery(url: Url, query: string)
    ensures UrlTag(url.(query := query)) == UrlTag(url)
  {
  }

  /** For one scheme, distinct ports always render distinct port parts. */
  lemma PortPartInjective(scheme: string, p: Option<nat>, q: Option<nat>)
    ensures PortPart(scheme, p) == PortPart(scheme, q) <==> p == q
  {
    if PortPart(scheme, p) == PortPart(scheme, q) && !IsDefaultPort(scheme, p) {
      assert PortText(p) == PortPart(scheme, p)[1..] == PortPart(scheme, q)[1..] == PortText(q);
      if p.Some? && q.Some? {
        DecimalInjective(p.value, q.value);
      }
    }
  }

  /** Requests to the same scheme, host and path are told apart in the
      `http.url` tag exactly by their ports. */
  lemma UrlTagDeterminesPort(u: Url, v: Url)
    requires u.scheme == v.scheme && u.host == v.host && u.path == v.path
    ensures UrlTag(u) == UrlTag(v) <==> u.port == v.port
  {
    var head := u.scheme + "://" + u.host;
    var pu, pv := PortPart(u.scheme, u.port), PortPart(v.scheme, v.port);
    if UrlTag(u) == UrlTag(v) {
      assert UrlTag(u) == head + pu + u.path;
      assert UrlTag(v) == head + pv + u.path;
      assert |pu| == |pv|;
      assert pu == UrlTag(u)[|head|..|head| + |pu|];
      assert pv == UrlTag(v)[|head|..|head| + |pv|];
      PortPartInjective(u.scheme, u.port, v.port);
    }
  }

  /** The span after `_set_request_tags(span, url)`. */
  function RequestTagged(r: SpanRecord, url: Url): (s: SpanRecord)
    ensures s.tags.Keys == r.tags.Keys + {URL_TAG}
    ensures s.tags[URL_TAG] == Str(UrlTag(url)) && s.resource == url.path
    ensures forall k :: k in r.tags && k != URL_TAG ==> s.tags[k] == r.tags[k]
    ensures s.(tags := r.tags, resource := r.resource) == r
  {
    r.(tags := r.tags[URL_TAG := Str(UrlTag(url))], resource := url.path)
  }

  method SetRequestTags(span: Span, url: Url)
    modifies span
    ensures span.Record() == RequestTagged(old(span.Record()), url)
  {
    span.SetTag(URL_TAG, Str(UrlTag(url)));
    span.SetResource(url.path);
  }

  /** `{hdr: headers[hdr] for hdr in names if hdr in headers}`: exactly the
      configured names that the response carries, with their values. */
  function HeaderTags(names: seq<string>, headers: map<string, string>): (tags: map<string, Value>)
    ensures forall h :: h in tags <==> h in names && h in headers
    ensures forall h :: h in tags ==> tags[h] == Str(headers[h])
  {
    map h | h in names && h in headers :: Str(headers[h])
  }
}
