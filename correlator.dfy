/** Cross-signal correlation (agent/enrichment/correlator.py): around the
    time an alert started, a snapshot of six PromQL instant queries, the
    error logs from Loki and the traces from Tempo, summarised. Every one
    of the three lookups swallows its own failure and yields an empty
    result instead. Timestamps are integer seconds. */
module Correlator {
  import opened Common
  import opened HttpApi
  import Loki

  /** The window on either side of the alert time, in minutes, that the
      three lookups use by default. */
  const DefaultWindowMinutes: int := 15

  const ErrorLogQuery: string := "{service_name=\"sre-playground\"} |= \"error\" | json"

  const ErrorLogLimit: int := 50

  const ErrorTraceLimit: int := 20

  /** How many error streams and traces the summary keeps as samples. */
  const SampleSize: int := 5

  const DefaultQueries: seq<string> := [
    "sum(rate(app_errors_total[5m])) by (error_type)",
    "sum(rate(http_requests_total[5m])) by (status_code)",
    "histogram_quantile(0.95, sum(rate(http_request_duration_seconds_bucket[5m])) by (le))",
    "cpu_spike_total",
    "app_memory_usage_bytes",
    "active_simulations"
  ]

  datatype Correlation = Correlation(
    alertName: string,
    alertTime: int,
    metrics: map<string, Json>,
    errorLogsCount: nat,
    errorLogsSample: seq<LokiStream>,
    tracesFound: nat,
    tracesSample: seq<Json>)

  /** The value one metric query contributes: `data.result` of the
      response, or an empty list when the key is absent or the call fails. */
  function SnapshotValue(http: Http, q: string, center: int): Json {
    var resp := http.promQuery(PromInstantRequest(q, Some(center)));
    if resp.Failure? || resp.value.data.None? then JArr([])
    else resp.value.data.value.result.GetOr(JArr([]))
  }

  /** The snapshot the loop builds: one entry per distinct query, each one
      the value of that query at the center time. */
  function Snapshot(http: Http, queries: seq<string>, center: int): (m: map<string, Json>)
    ensures m.Keys == set q | q in queries
    ensures forall q :: q in m ==> m[q] == SnapshotValue(http, q, center)
  {
    if queries == [] then map[]
    else
      var q := queries[|queries| - 1];
      var init := queries[..|queries| - 1];
      assert queries == init + [q];
      Snapshot(http, init, center)[q := SnapshotValue(http, q, center)]
  }

  /** `get_metrics_snapshot`: the window argument is accepted and unused. */
  method MetricsSnapshot(http: Http, queries: seq<string>, center: int, windowMinutes: int)
    returns (results: map<string, Json>)
    ensures results == Snapshot(http, queries, center)
  {
    results := map[];
    for i := 0 to |queries|
      invariant results == Snapshot(http, queries[..i], center)
    {
      var resp := http.promQuery(PromInstantRequest(queries[i], Some(center)));
      var data: Json;
      if resp.Failure? {
        data := JArr([]);
      } else {
        data := if resp.value.data.Some? then resp.value.data.value.result.GetOr(JArr([])) else JArr([]);
      }
      assert data == SnapshotValue(http, queries[i], center);
      assert queries[..i + 1][..i] == queries[..i] && queries[..i + 1][i] == queries[i];
      results := results[queries[i] := data];
    }
    assert queries[..|queries|] == queries;
  }

  /** The lookup window: `window` minutes before the center to a third of
      that (rounded down) after it. */
  function ErrorWindow(center: int, windowMinutes: int): (w: (int, int))
    ensures center - w.0 == windowMinutes * 60
    ensures w.1 - center == (windowMinutes / 3) * 60
    ensures windowMinutes >= 0 ==> w.0 <= center <= w.1
  {
    (center - windowMinutes * 60, center + (windowMinutes / 3) * 60)
  }

  /** `get_recent_errors`: the streams of error-level log lines in the window. */
  function RecentErrors(http: Http, center: int, windowMinutes: int): seq<LokiStream> {
    var w := ErrorWindow(center, windowMinutes);
    var resp := http.lokiQueryRange(LokiRangeRequest(ErrorLogQuery, w.0, w.1, ErrorLogLimit));
    if resp.Failure? then [] else LokiResult(resp.value)
  }

  /** `get_error_traces`: the traces Tempo finds in the window, searched
      without tags. */
  function ErrorTraces(http: Http, center: int, windowMinutes: int): seq<Json> {
    var w := ErrorWindow(center, windowMinutes);
    var resp := http.tempoSearch(TempoSearchRequest(w.0, w.1, ErrorTraceLimit, None));
    if resp.Failure? then [] else resp.value.traces.GetOr([])
  }

  /** `correlate`: the summary of the three lookups at the default window.
      The error count is over all values of all streams, not only the
      sampled ones (`sum(len(r.get("values", [])) for r in errors)`). */
  function Correlate(http: Http, alertName: string, alertTime: int): (c: Correlation)
    ensures c.alertName == alertName && c.alertTime == alertTime
    ensures c.metrics.Keys == set q | q in DefaultQueries
    ensures forall q :: q in c.metrics ==> c.metrics[q] == SnapshotValue(http, q, alertTime)
    ensures var errors := RecentErrors(http, alertTime, DefaultWindowMinutes);
      && c.errorLogsCount == Loki.TotalValues(errors)
      && c.errorLogsSample <= errors && |c.errorLogsSample| == Min(SampleSize, |errors|)
    ensures var traces := ErrorTraces(http, alertTime, DefaultWindowMinutes);
      && c.tracesFound == |traces|
      && c.tracesSample <= traces && |c.tracesSample| == Min(SampleSize, |traces|)
  {
    var metrics := Snapshot(http, DefaultQueries, alertTime);
    var errors := RecentErrors(http, alertTime, DefaultWindowMinutes);
    var traces := ErrorTraces(http, alertTime, DefaultWindowMinutes);
    Correlation(alertName, alertTime, metrics, Loki.TotalValues(errors),
                Take(errors, SampleSize), |traces|, Take(traces, SampleSize))
  }

  /** With every backend down the correlation still succeeds: each metric
      is an empty list and no error log or trace is found. */
  lemma CorrelateWithBackendsDown(http: Http, alertName: string, alertTime: int)
    requires forall req :: http.promQuery(req).Failure?
    requires forall req :: http.lokiQueryRange(req).Failure?
    requires forall req :: http.tempoSearch(req).Failure?
    ensures var c := Correlate(http, alertName, alertTime);
      && (forall q :: q in DefaultQueries ==> q in c.metrics && c.metrics[q] == JArr([]))
      && c.errorLogsCount == 0 && c.errorLogsSample == []
      && c.tracesFound == 0 && c.tracesSample == []
  {
  }
}
