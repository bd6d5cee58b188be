/** The investigation executor (agent/investigation/executor.py): every
    planned query of every hypothesis still open is run against its backend
    over a window around the alert time, and each outcome becomes one
    evidence record tagged with the hypothesis it tests. A backend failure
    becomes an error record; nothing raises out of the executor. */
module Executor {
  import opened Common
  import opened Config
  import opened HttpApi
  import opened HypothesisModels
  import Prometheus
  import Loki
  import Tempo

  /** What a backend returned. */
  datatype ToolResult =
    | PromEvidence(prom: Prometheus.QueryResult)
    | LokiEvidence(loki: Loki.RangeResult)
    | TempoEvidence(tempo: Tempo.SearchResult)

  /** One evidence dict: the keys a record lacks are None. */
  datatype EvidenceRecord = EvidenceRecord(
    tool: string,
    query: Option<string>,
    purpose: Option<string>,
    result: Option<ToolResult>,
    error: Option<string>,
    hypothesisId: Option<string>)

  /** The default result limit of a Loki range query. */
  const LokiDefaultLimit: int := 100

  /** The default result limit of a Tempo search. */
  const TempoDefaultLimit: int := 20

  /** The window every query covers: from `query_lookback_minutes` before
      the alert to `query_lookahead_minutes` after it. */
  function QueryWindow(alertTime: int): (w: (int, int))
    ensures w.0 == alertTime - 30 * 60 && w.1 == alertTime + 10 * 60
    ensures w.0 < alertTime < w.1
  {
    (alertTime - QueryLookbackMinutes * 60, alertTime + QueryLookaheadMinutes * 60)
  }

  predicate KnownTool(tool: string) {
    tool == "prometheus" || tool == "loki" || tool == "tempo"
  }

  /** The backend call for a known tool, over the query window; Tempo is
      searched with the query text as its tags. The outcome is the backend's,
      its failure text included. */
  function RunTool(http: Http, q: InvestigationQuery, alertTime: int, now: int): (r: Result<ToolResult>)
    requires KnownTool(q.tool)
    ensures var w := QueryWindow(alertTime);
      var b := Prometheus.RangeQuery(http, q.query, Some(w.0), Some(w.1), Prometheus.DefaultStep, now);
      q.tool == "prometheus" ==>
        && (r.Success? <==> b.Success?)
        && (r.Success? ==> r.value == PromEvidence(b.value))
        && (r.Failure? ==> r.error == b.error)
    ensures var w := QueryWindow(alertTime);
      var b := Loki.QueryRangeSpec(http, q.query, Some(w.0), Some(w.1), LokiDefaultLimit, now);
      q.tool == "loki" ==>
        && (r.Success? <==> b.Success?)
        && (r.Success? ==> r.value == LokiEvidence(b.value))
        && (r.Failure? ==> r.error == b.error)
    ensures var w := QueryWindow(alertTime);
      var b := Tempo.Search(http, q.query, Some(w.0), Some(w.1), TempoDefaultLimit, now);
      q.tool == "tempo" ==>
        && (r.Success? <==> b.Success?)
        && (r.Success? ==> r.value == TempoEvidence(b.value))
        && (r.Failure? ==> r.error == b.error)
  {
    var w := QueryWindow(alertTime);
    if q.tool == "prometheus" then
      var r :- Prometheus.RangeQuery(http, q.query, Some(w.0), Some(w.1), Prometheus.DefaultStep, now);
      Success(PromEvidence(r))
    else if q.tool == "loki" then
      var r :- Loki.QueryRangeSpec(http, q.query, Some(w.0), Some(w.1), LokiDefaultLimit, now);
      Success(LokiEvidence(r))
    else
      var r :- Tempo.Search(http, q.query, Some(w.0), Some(w.1), TempoDefaultLimit, now);
      Success(TempoEvidence(r))
  }

  /** `execute_query`: an unknown tool yields a record with only the tool
      and the error; a known one yields the query, its purpose and either
      the backend's result or the error it raised. */
  function ExecuteQuery(http: Http, q: InvestigationQuery, alertTime: int, now: int): (e: EvidenceRecord)
    ensures e.tool == q.tool && e.hypothesisId.None?
    ensures !KnownTool(q.tool) ==> e == EvidenceRecord(q.tool, None, None, None, Some("Unknown tool: " + q.tool), None)
    ensures KnownTool(q.tool) ==>
              && e.query == Some(q.query) && e.purpose == Some(q.purpose)
              && (e.result.Some? <==> e.error.None?)
    ensures KnownTool(q.tool) && RunTool(http, q, alertTime, now).Success? ==>
              e.result == Some(RunTool(http, q, alertTime, now).value) && e.error.None?
    ensures KnownTool(q.tool) && RunTool(http, q, alertTime, now).Failure? ==>
              e.result.None? && e.error == Some(RunTool(http, q, alertTime, now).error)
    ensures e.result.Some? ==>
              && (e.result.value.PromEvidence? <==> q.tool == "prometheus")
              && (e.result.value.LokiEvidence? <==> q.tool == "loki")
              && (e.result.value.TempoEvidence? <==> q.tool == "tempo")
  {
    if !KnownTool(q.tool) then
      EvidenceRecord(q.tool, None, None, None, Some("Unknown tool: " + q.tool), None)
    else
      var r := RunTool(http, q, alertTime, now);
      if r.Failure? then EvidenceRecord(q.tool, Some(q.query), Some(q.purpose), None, Some(r.error), None)
      else EvidenceRecord(q.tool, Some(q.query), Some(q.purpose), Some(r.value), None, None)
  }

  /** The evidence of one hypothesis: one record per planned query, in plan
      order, each tagged with the hypothesis id. */
  function HypothesisEvidence(http: Http, h: Hypothesis, alertTime: int, now: int): (r: seq<EvidenceRecord>)
    ensures |r| == |h.queries|
    ensures forall i :: 0 <= i < |r| ==>
              r[i] == ExecuteQuery(http, h.queries[i], alertTime, now).(hypothesisId := Some(h.id))
  {
    Map((q: InvestigationQuery) => ExecuteQuery(http, q, alertTime, now).(hypothesisId := Some(h.id)), h.queries)
  }

  /** `execute_hypothesis_queries`: the loop tags each record as it goes. */
  method ExecuteHypothesisQueries(http: Http, h: Hypothesis, alertTime: int, now: int)
    returns (evidence: seq<EvidenceRecord>)
    ensures evidence == HypothesisEvidence(http, h, alertTime, now)
  {
    evidence := [];
    for i := 0 to |h.queries|
      invariant |evidence| == i
      invariant forall k :: 0 <= k < i ==> evidence[k] == HypothesisEvidence(http, h, alertTime, now)[k]
    {
      var result := ExecuteQuery(http, h.queries[i], alertTime, now);
      result := result.(hypothesisId := Some(h.id));
      evidence := evidence + [result];
    }
  }

  /** A hypothesis whose status value is "pending" or "investigating". */
  predicate Open(h: Hypothesis) {
    h.status.Value() == "pending" || h.status.Value() == "investigating"
  }

  /** The evidence of all open hypotheses, in hypothesis order. */
  function AllEvidence(http: Http, hs: seq<Hypothesis>, alertTime: int, now: int): seq<EvidenceRecord> {
    if hs == [] then []
    else
      var last := hs[|hs| - 1];
      AllEvidence(http, hs[..|hs| - 1], alertTime, now)
        + (if Open(last) then HypothesisEvidence(http, last, alertTime, now) else [])
  }

  /** `execute_all`. */
  method ExecuteAll(http: Http, hs: seq<Hypothesis>, alertTime: int, now: int)
    returns (allEvidence: seq<EvidenceRecord>)
    ensures allEvidence == AllEvidence(http, hs, alertTime, now)
  {
    allEvidence := [];
    for i := 0 to |hs|
      invariant allEvidence == AllEvidence(http, hs[..i], alertTime, now)
    {
      assert hs[..i + 1][..i] == hs[..i];
      if hs[i].status.Value() == "pending" || hs[i].status.Value() == "investigating" {
        var results := ExecuteHypothesisQueries(http, hs[i], alertTime, now);
        allEvidence := allEvidence + results;
      }
    }
    assert hs[..|hs|] == hs;
  }

  /** The number of planned queries over the open hypotheses. */
  function OpenQueryCount(hs: seq<Hypothesis>): nat {
    if hs == [] then 0
    else OpenQueryCount(hs[..|hs| - 1]) + (if Open(hs[|hs| - 1]) then |hs[|hs| - 1].queries| else 0)
  }

  /** There is one record per planned query of an open hypothesis, and
      every record belongs to an open hypothesis of the list. */
  lemma {:induction false} AllEvidenceFromOpen(http: Http, hs: seq<Hypothesis>, alertTime: int, now: int)
    ensures |AllEvidence(http, hs, alertTime, now)| == OpenQueryCount(hs)
    ensures forall e :: e in AllEvidence(http, hs, alertTime, now) ==>
              exists i :: 0 <= i < |hs| && Open(hs[i]) && e.hypothesisId == Some(hs[i].id)
  {
    if hs != [] {
      var init, last := hs[..|hs| - 1], hs[|hs| - 1];
      AllEvidenceFromOpen(http, init, alertTime, now);
      forall e | e in AllEvidence(http, hs, alertTime, now)
        ensures exists i :: 0 <= i < |hs| && Open(hs[i]) && e.hypothesisId == Some(hs[i].id)
      {
        if e in AllEvidence(http, init, alertTime, now) {
          var i :| 0 <= i < |init| && Open(init[i]) && e.hypothesisId == Some(init[i].id);
          assert hs[i] == init[i];
        } else {
          assert Open(last) && e in HypothesisEvidence(http, last, alertTime, now);
          assert e.hypothesisId == Some(hs[|hs| - 1].id);
        }
      }
    }
  }

  /** Confirmed, rejected and inconclusive hypotheses contribute no evidence. */
  lemma {:induction false} ClosedContributeNothing(http: Http, hs: seq<Hypothesis>, alertTime: int, now: int)
    requires forall i :: 0 <= i < |hs| ==> !Open(hs[i])
    ensures AllEvidence(http, hs, alertTime, now) == []
  {
    if hs != [] {
      var init := hs[..|hs| - 1];
      assert forall i :: 0 <= i < |init| ==> init[i] == hs[i];
      ClosedContributeNothing(http, init, alertTime, now);
      assert !Open(hs[|hs| - 1]);
    }
  }
}
