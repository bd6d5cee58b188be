/** The HTTP APIs of the three observability backends, as the agent sees
    them: each request is a typed record of its query parameters, each
    response body a typed record of the fields the agent reads (None when
    the JSON lacks the key). The backends themselves are one oracle per
    endpoint; a Failure is an exception raised by the HTTP client or by
    `resp.json()`. Timestamps are integer seconds. */
module HttpApi {
  import opened Common

  // ---- Loki ----

  /** One `[ts, line]` pair of a stream's `values`. */
  datatype LokiValue = LokiValue(ts: string, line: string)

  /** One element of `data.result`: the stream's labels and its values. */
  datatype LokiStream = LokiStream(stream: Option<map<string, string>>, values: Option<seq<LokiValue>>)

  datatype LokiData = LokiData(result: Option<seq<LokiStream>>)

  datatype LokiBody = LokiBody(data: Option<LokiData>)

  /** The parameters of GET /loki/api/v1/query_range. */
  datatype LokiRangeRequest = LokiRangeRequest(query: string, start: int, end: int, limit: int)

  // ---- Prometheus ----

  datatype PromData = PromData(resultType: Option<string>, result: Option<Json>, alerts: Option<seq<Json>>)

  datatype PromBody = PromBody(status: Option<string>, error: Option<Json>, data: Option<PromData>)

  /** The parameters of GET /api/v1/query; `time` is absent when not given. */
  datatype PromInstantRequest = PromInstantRequest(query: string, time: Option<int>)

  /** The parameters of GET /api/v1/query_range. */
  datatype PromRangeRequest = PromRangeRequest(query: string, start: int, end: int, step: string)

  // ---- Tempo ----

  /** The parameters of GET /api/search; `tags` is absent when not given. */
  datatype TempoSearchRequest = TempoSearchRequest(start: int, end: int, limit: int, tags: Option<string>)

  datatype TempoSearchBody = TempoSearchBody(traces: Option<seq<Json>>)

  /** One `{key, value}` of a span's attributes. */
  datatype Attribute = Attribute(key: string, value: Option<Json>)

  /** A span as the trace API returns it; the nanosecond timestamps are
      already read as integers. */
  datatype RawSpan = RawSpan(
    name: Option<Json>,
    kind: Option<Json>,
    status: Option<Json>,
    startTimeUnixNano: Option<int>,
    endTimeUnixNano: Option<int>,
    attributes: Option<seq<Attribute>>)

  datatype ScopeSpans = ScopeSpans(spans: Option<seq<RawSpan>>)

  /** A batch lists its spans under `scopeSpans` or, in older exports, under
      `instrumentationLibrarySpans`. */
  datatype Batch = Batch(scopeSpans: Option<seq<ScopeSpans>>, instrumentationLibrarySpans: Option<seq<ScopeSpans>>)

  datatype TraceBody = TraceBody(batches: Option<seq<Batch>>)

  /** GET /api/traces/{id}: the status code and, for a 200, the body. */
  datatype TraceResponse = TraceResponse(statusCode: int, body: TraceBody)

  /** One oracle per endpoint the agent calls. */
  datatype Http = Http(
    promQuery: PromInstantRequest -> Result<PromBody>,
    promQueryRange: PromRangeRequest -> Result<PromBody>,
    promAlerts: Result<PromBody>,
    lokiQueryRange: LokiRangeRequest -> Result<LokiBody>,
    lokiQuery: string -> Result<LokiBody>,
    tempoSearch: TempoSearchRequest -> Result<TempoSearchBody>,
    tempoTrace: string -> Result<TraceResponse>)

  /** `body.get("data", {}).get("result", [])` for Loki. */
  function LokiResult(body: LokiBody): seq<LokiStream> {
    if body.data.Some? then body.data.value.result.GetOr([]) else []
  }
}
