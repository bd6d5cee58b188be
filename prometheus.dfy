/** The Prometheus client (agent/investigation/tools/prometheus.py): instant
    and range PromQL queries and the list of firing alerts. A response whose
    status is not "success" becomes an error record; a successful one must
    carry `data.resultType` and `data.result`, and indexing a missing key
    raises KeyError. The clock is the `now` parameter. */
module Prometheus {
  import opened Common
  import opened Config
  import opened HttpApi

  /** The record both queries return: an error record has `error` set and
      an empty `result`; a success record has the result type set. */
  datatype QueryResult = QueryResult(query: string, status: string, error: Option<Json>,
                                     resultType: Option<string>, result: Json)

  /** The step a range query uses when none is given. */
  const DefaultStep: string := "15s"

  /** The shared reading of a query response. */
  function ResultOf(promql: string, body: PromBody): (r: Result<QueryResult>)
    ensures body.status != Some("success") ==>
              r == Success(QueryResult(promql, "error", Some(body.error.GetOr(JNull)), None, JArr([])))
    ensures body.status == Some("success") ==>
              (r.Success? <==> body.data.Some? && body.data.value.resultType.Some? && body.data.value.result.Some?)
    ensures body.status == Some("success") && r.Success? ==>
              r.value == QueryResult(promql, "success", None, body.data.value.resultType,
                                     body.data.value.result.value)
  {
    if body.status != Some("success") then
      Success(QueryResult(promql, "error", Some(body.error.GetOr(JNull)), None, JArr([])))
    else if body.data.None? then Failure("KeyError: 'data'")
    else if body.data.value.resultType.None? then Failure("KeyError: 'resultType'")
    else if body.data.value.result.None? then Failure("KeyError: 'result'")
    else Success(QueryResult(promql, "success", None, body.data.value.resultType, body.data.value.result.value))
  }

  /** `instant_query`: the evaluation time is sent only when one is given. */
  function InstantQuery(http: Http, promql: string, time: Option<int>): (r: Result<QueryResult>)
    ensures var resp := http.promQuery(PromInstantRequest(promql, time));
      && (resp.Failure? ==> r.Failure?)
      && (resp.Success? ==> r == ResultOf(promql, resp.value))
  {
    var body :- http.promQuery(PromInstantRequest(promql, time));
    ResultOf(promql, body)
  }

  /** The request of `range_query`: a missing start is `query_lookback_minutes`
      before `now`, a missing end is `now`. */
  function RangeRequest(promql: string, start: Option<int>, end: Option<int>, step: string, now: int)
    : (req: PromRangeRequest)
    ensures req.query == promql && req.step == step
    ensures req.start == (if start.Some? then start.value else now - QueryLookbackMinutes * 60)
    ensures req.end == (if end.Some? then end.value else now)
  {
    PromRangeRequest(promql, start.GetOr(now - QueryLookbackMinutes * 60), end.GetOr(now), step)
  }

  /** `range_query`. */
  function RangeQuery(http: Http, promql: string, start: Option<int>, end: Option<int>, step: string, now: int)
    : (r: Result<QueryResult>)
    ensures var resp := http.promQueryRange(RangeRequest(promql, start, end, step, now));
      && (resp.Failure? ==> r.Failure?)
      && (resp.Success? ==> r == ResultOf(promql, resp.value))
  {
    var body :- http.promQueryRange(RangeRequest(promql, start, end, step, now));
    ResultOf(promql, body)
  }

  /** `get_alerts`: `data.alerts` of the response, or an empty list. */
  function GetAlerts(http: Http): (r: Result<seq<Json>>)
    ensures r.Failure? <==> http.promAlerts.Failure?
    ensures r.Success? && http.promAlerts.value.data.None? ==> r.value == []
    ensures r.Success? && http.promAlerts.value.data.Some? ==> r.value == http.promAlerts.value.data.value.alerts.GetOr([])
  {
    var body :- http.promAlerts;
    Success(if body.data.Some? then body.data.value.alerts.GetOr([]) else [])
  }
}
