/** The Loki client (agent/investigation/tools/loki.py): a LogQL range query
    flattens every stream's `[ts, line]` values into log lines carrying the
    stream's labels, reports how many streams and lines there were, and
    returns at most `limit` of the lines. The clock is the `now` parameter. */
module Loki {
  import opened Common
  import opened Config
  import opened HttpApi

  /** One entry of `lines`: a stream value with its stream's labels. */
  datatype LogLine = LogLine(timestamp: string, line: string, labels: map<string, string>)

  datatype RangeResult = RangeResult(query: string, status: string, streams: nat, totalLines: nat, lines: seq<LogLine>)

  datatype InstantResult = InstantResult(query: string, status: string, result: seq<LokiStream>)

  /** The request of `query_range`: a missing start is `query_lookback_minutes`
      before `now`, a missing end is `now`. */
  function RangeRequest(logql: string, start: Option<int>, end: Option<int>, limit: int, now: int)
    : (req: LokiRangeRequest)
    ensures req.query == logql && req.limit == limit
    ensures start.None? ==> req.start == now - QueryLookbackMinutes * 60
    ensures end.None? ==> req.end == now
    ensures start.Some? ==> req.start == start.value
    ensures end.Some? ==> req.end == end.value
  {
    LokiRangeRequest(logql, start.GetOr(now - QueryLookbackMinutes * 60), end.GetOr(now), limit)
  }

  function StreamValues(s: LokiStream): seq<LokiValue> {
    s.values.GetOr([])
  }

  function StreamLabels(s: LokiStream): map<string, string> {
    s.stream.GetOr(map[])
  }

  /** The log lines of one stream, in value order. */
  function StreamLines(s: LokiStream): seq<LogLine> {
    Map((v: LokiValue) => LogLine(v.ts, v.line, StreamLabels(s)), StreamValues(s))
  }

  /** The lines of all streams, stream after stream. */
  function Lines(streams: seq<LokiStream>): seq<LogLine> {
    Flatten(Map(StreamLines, streams))
  }

  /** The number of values over all streams. */
  function TotalValues(streams: seq<LokiStream>): nat {
    if streams == [] then 0 else |StreamValues(streams[0])| + TotalValues(streams[1..])
  }

  /** The summary `query_range` builds from a response body: the stream
      count, the count of every value, and the first `limit` lines (a
      negative limit drops that many from the end, as a Python slice does). */
  function RangeResultOf(logql: string, limit: int, body: LokiBody): (r: RangeResult)
    ensures r.query == logql && r.status == "success"
    ensures r.streams == |LokiResult(body)|
    ensures r.totalLines == TotalValues(LokiResult(body))
    ensures r.lines <= Lines(LokiResult(body))
    ensures limit >= 0 ==> |r.lines| == Min(limit, r.totalLines)
    ensures limit < 0 ==> |r.lines| == Max(0, r.totalLines + limit)
  {
    var lines := Lines(LokiResult(body));
    LinesCount(LokiResult(body));
    RangeResult(logql, "success", |LokiResult(body)|, |lines|, Take(lines, limit))
  }

  /** `query_range`: the request fails or the body is summarised. */
  function QueryRangeSpec(http: Http, logql: string, start: Option<int>, end: Option<int>, limit: int, now: int)
    : (r: Result<RangeResult>)
    ensures var resp := http.lokiQueryRange(RangeRequest(logql, start, end, limit, now));
      && (r.Failure? <==> resp.Failure?)
      && (r.Success? ==>
            && r.value.query == logql && r.value.status == "success"
            && r.value.streams == |LokiResult(resp.value)|
            && r.value.totalLines == TotalValues(LokiResult(resp.value))
            && r.value.lines <= Lines(LokiResult(resp.value))
            && (limit >= 0 ==> |r.value.lines| == Min(limit, r.value.totalLines))
            && (limit >= 0 ==> |r.value.lines| <= limit))
  {
    var resp := http.lokiQueryRange(RangeRequest(logql, start, end, limit, now));
    if resp.Failure? then Failure(resp.error)
    else Success(RangeResultOf(logql, limit, resp.value))
  }

  /** There is one line per stream value. */
  lemma {:induction false} LinesCount(streams: seq<LokiStream>)
    ensures |Lines(streams)| == TotalValues(streams)
  {
    if streams != [] {
      LinesCount(streams[1..]);
      LinesCons(streams);
    }
  }

  /** The lines of a non-empty list of streams: the first stream's, then the rest's. */
  lemma LinesCons(streams: seq<LokiStream>)
    requires streams != []
    ensures Lines(streams) == StreamLines(streams[0]) + Lines(streams[1..])
  {
    assert Map(StreamLines, streams)[1..] == Map(StreamLines, streams[1..]);
  }

  /** Every line comes from some value of some stream and carries that
      stream's labels. */
  lemma {:induction false} LinesProvenance(streams: seq<LokiStream>, l: LogLine)
    requires l in Lines(streams)
    ensures exists i, k :: 0 <= i < |streams| && 0 <= k < |StreamValues(streams[i])|
              && l == LogLine(StreamValues(streams[i])[k].ts, StreamValues(streams[i])[k].line, StreamLabels(streams[i]))
  {
    LinesCons(streams);
    if l in StreamLines(streams[0]) {
      var k :| 0 <= k < |StreamLines(streams[0])| && StreamLines(streams[0])[k] == l;
      assert 0 <= 0 < |streams| && 0 <= k < |StreamValues(streams[0])|;
    } else {
      LinesProvenance(streams[1..], l);
      var i, k :| 0 <= i < |streams[1..]| && 0 <= k < |StreamValues(streams[1..][i])|
                  && l == LogLine(StreamValues(streams[1..][i])[k].ts, StreamValues(streams[1..][i])[k].line,
                                  StreamLabels(streams[1..][i]));
      assert streams[1..][i] == streams[i + 1];
    }
  }

  /** `query_range` as written: the nested loops append each value of each
      stream, and the result is the summary of what they collected. */
  method QueryRange(http: Http, logql: string, start: Option<int>, end: Option<int>, limit: int, now: int)
    returns (r: Result<RangeResult>)
    ensures r == QueryRangeSpec(http, logql, start, end, limit, now)
  {
    var resp := http.lokiQueryRange(RangeRequest(logql, start, end, limit, now));
    if resp.Failure? {
      return Failure(resp.error);
    }
    var streams := LokiResult(resp.value);
    var logLines: seq<LogLine> := [];
    for i := 0 to |streams|
      invariant logLines == Lines(streams[..i])
    {
      var values := StreamValues(streams[i]);
      var labels := StreamLabels(streams[i]);
      for j := 0 to |values|
        invariant logLines == Lines(streams[..i]) + StreamLines(streams[i])[..j]
      {
        logLines := logLines + [LogLine(values[j].ts, values[j].line, labels)];
        assert StreamLines(streams[i])[..j + 1] == StreamLines(streams[i])[..j] + [StreamLines(streams[i])[j]];
      }
      FlattenSnoc(StreamLines, streams[..i], streams[i]);
      assert streams[..i + 1] == streams[..i] + [streams[i]];
    }
    assert streams[..|streams|] == streams;
    r := Success(RangeResult(logql, "success", |streams|, |logLines|, Take(logLines, limit)));
  }

  /** `query_instant`: the raw `data.result` of the response, or an empty list. */
  function QueryInstant(http: Http, logql: string): (r: Result<InstantResult>)
    ensures r.Failure? <==> http.lokiQuery(logql).Failure?
    ensures r.Success? ==> r.value == InstantResult(logql, "success", LokiResult(http.lokiQuery(logql).value))
  {
    var resp :- http.lokiQuery(logql);
    Success(InstantResult(logql, "success", LokiResult(resp)))
  }
}
