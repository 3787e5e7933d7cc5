/** Integration settings and the analytics rule that both the client patch
    (`traced__handle`) and the server middleware apply. */
module Settings {
  import opened Tracing

  /** A Python setting that may be True, False or None. */
  datatype TriBool = Unset | Yes | No

  /** The per-integration configuration the pin carries (`pin._config`).
      `analyticsSampleRate` is None when the key is absent. */
  datatype IntegrationConfig = IntegrationConfig(
    service: string,
    distributedTracing: bool,
    analyticsEnabled: TriBool,
    analyticsSampleRate: Option<Value>,
    traceHeaders: seq<string>,
    traceContext: bool)

  /** A pin: service, whether its tracer is enabled, and its configuration. */
  datatype Pin = Pin(service: string, enabled: bool, config: IntegrationConfig)

  /** `(config.analytics_enabled and x is not False) or x is True`: an
      explicit setting on the integration decides; only an unset one defers
      to the global switch. */
  function AnalyticsApplies(globalEnabled: bool, integration: TriBool): (applies: bool)
    ensures integration == Yes ==> applies
    ensures integration == No ==> !applies
    ensures integration == Unset ==> (applies <==> globalEnabled)
  {
    (globalEnabled && integration != No) || integration == Yes
  }

  /** `cfg.get("analytics_sample_rate", True)` */
  function SampleRate(configured: Option<Value>): (v: Value)
    ensures configured.None? ==> v == Bool(true)
    ensures configured.Some? ==> v == configured.value
  {
    match configured
    case Some(r) => r
    case None => Bool(true)
  }

  /** The tags a freshly started request span receives: the measured marker
      (set with no value) and, when analytics applies, the sample rate. */
  function RequestSpanTags(globalAnalytics: bool, analytics: TriBool, rate: Option<Value>): (tags: map<string, Value>)
    ensures MEASURED_KEY in tags
    ensures ANALYTICS_SAMPLE_RATE_KEY in tags <==> AnalyticsApplies(globalAnalytics, analytics)
    ensures ANALYTICS_SAMPLE_RATE_KEY in tags ==> tags[ANALYTICS_SAMPLE_RATE_KEY] == SampleRate(rate)
    ensures tags.Keys <= {MEASURED_KEY, ANALYTICS_SAMPLE_RATE_KEY}
  {
    var measured := map[MEASURED_KEY := NoneValue];
    if AnalyticsApplies(globalAnalytics, analytics) then measured[ANALYTICS_SAMPLE_RATE_KEY := SampleRate(rate)]
    else measured
  }
}
