/** The Tempo client (agent/investigation/tools/tempo.py): a trace search
    over a time window, and the retrieval of one trace as a flat list of
    span summaries. The clock is the `now` parameter. */
module Tempo {
  import opened Common
  import opened Config
  import opened HttpApi

  datatype SearchResult = SearchResult(status: string, tracesFound: nat, traces: seq<Json>)

  /** The summary of one span: a missing name or kind is `null`, a missing
      status `{}`, a missing timestamp 0. */
  datatype SpanSummary = SpanSummary(name: Json, kind: Json, status: Json, durationNs: int, attributes: map<string, Json>)

  datatype TraceResult =
    | TraceNotFound(traceId: string)
    | TraceFound(traceId: string, status: string, spanCount: nat, spans: seq<SpanSummary>)

  /** The request of `search`: the window defaults like the other clients'
      and the `tags` parameter is sent only when the tags are non-empty. */
  function SearchRequest(tags: string, start: Option<int>, end: Option<int>, limit: int, now: int)
    : (req: TempoSearchRequest)
    ensures req.tags.Some? <==> tags != []
    ensures req.tags.Some? ==> req.tags.value == tags
    ensures req.start == start.GetOr(now - QueryLookbackMinutes * 60) && req.end == end.GetOr(now)
    ensures req.limit == limit
  {
    TempoSearchRequest(start.GetOr(now - QueryLookbackMinutes * 60), end.GetOr(now), limit,
                       if tags != [] then Some(tags) else None)
  }

  /** `search`: the traces of the response (none when the key is absent)
      and how many there are. */
  function Search(http: Http, tags: string, start: Option<int>, end: Option<int>, limit: int, now: int)
    : (r: Result<SearchResult>)
    ensures var resp := http.tempoSearch(SearchRequest(tags, start, end, limit, now));
      && (r.Failure? <==> resp.Failure?)
      && (r.Success? ==> r.value.status == "success" && r.value.traces == resp.value.traces.GetOr([])
                         && r.value.tracesFound == |r.value.traces|)
  {
    var resp :- http.tempoSearch(SearchRequest(tags, start, end, limit, now));
    var traces := resp.traces.GetOr([]);
    Success(SearchResult("success", |traces|, traces))
  }

  /** The last attribute with key `k`, if any. */
  function LastWithKey(attrs: seq<Attribute>, k: string): Option<Attribute> {
    if attrs == [] then None
    else if attrs[|attrs| - 1].key == k then Some(attrs[|attrs| - 1])
    else LastWithKey(attrs[..|attrs| - 1], k)
  }

  /** `{a["key"]: a.get("value", {}) for a in attrs}`: a key repeated in the
      list keeps the value of its last occurrence. */
  function AttributeMap(attrs: seq<Attribute>): (m: map<string, Json>)
    ensures forall k :: k in m <==> LastWithKey(attrs, k).Some?
    ensures forall k :: k in m ==> m[k] == LastWithKey(attrs, k).value.value.GetOr(JObj(map[]))
  {
    if attrs == [] then map[]
    else
      var a := attrs[|attrs| - 1];
      AttributeMap(attrs[..|attrs| - 1])[a.key := a.value.GetOr(JObj(map[]))]
  }

  /** An attribute whose key occurs nowhere later in the list supplies that
      key's value. */
  lemma {:induction false} AttributeMapLastWins(attrs: seq<Attribute>, i: nat)
    requires i < |attrs|
    requires forall j :: i < j < |attrs| ==> attrs[j].key != attrs[i].key
    ensures attrs[i].key in AttributeMap(attrs)
    ensures AttributeMap(attrs)[attrs[i].key] == attrs[i].value.GetOr(JObj(map[]))
  {
    if i < |attrs| - 1 {
      var init := attrs[..|attrs| - 1];
      assert forall j :: i < j < |init| ==> init[j] == attrs[j];
      AttributeMapLastWins(init, i);
      assert init[i] == attrs[i];
    }
  }

  /** One span's summary: name, kind and status are passed through when
      present and defaulted otherwise, the duration is the end minus the
      start, each 0 when absent, and each attribute key takes the value of
      its last occurrence. */
  function Summarize(span: RawSpan): (r: SpanSummary)
    ensures r.durationNs == span.endTimeUnixNano.GetOr(0) - span.startTimeUnixNano.GetOr(0)
    ensures span.status.None? ==> r.status == JObj(map[])
    ensures span.status.Some? ==> r.status == span.status.value
    ensures span.name.None? ==> r.name == JNull
    ensures span.name.Some? ==> r.name == span.name.value
    ensures span.kind.None? ==> r.kind == JNull
    ensures span.kind.Some? ==> r.kind == span.kind.value
    ensures forall k :: k in r.attributes <==> LastWithKey(span.attributes.GetOr([]), k).Some?
    ensures forall k :: k in r.attributes ==>
              r.attributes[k] == LastWithKey(span.attributes.GetOr([]), k).value.value.GetOr(JObj(map[]))
  {
    SpanSummary(span.name.GetOr(JNull), span.kind.GetOr(JNull), span.status.GetOr(JObj(map[])),
                span.endTimeUnixNano.GetOr(0) - span.startTimeUnixNano.GetOr(0),
                AttributeMap(span.attributes.GetOr([])))
  }

  /** `batch.get("scopeSpans", batch.get("instrumentationLibrarySpans", []))`:
      the legacy key is read only when `scopeSpans` is absent. */
  function BatchScopes(b: Batch): (r: seq<ScopeSpans>)
    ensures b.scopeSpans.Some? ==> r == b.scopeSpans.value
    ensures b.scopeSpans.None? ==> r == b.instrumentationLibrarySpans.GetOr([])
  {
    if b.scopeSpans.Some? then b.scopeSpans.value else b.instrumentationLibrarySpans.GetOr([])
  }

  function ScopeSpanSummaries(s: ScopeSpans): seq<SpanSummary> {
    Map(Summarize, s.spans.GetOr([]))
  }

  /** The summaries of a list of scopes, scope after scope. */
  function ScopesSpans(scopes: seq<ScopeSpans>): seq<SpanSummary> {
    Flatten(Map(ScopeSpanSummaries, scopes))
  }

  function BatchSpans(b: Batch): seq<SpanSummary> {
    ScopesSpans(BatchScopes(b))
  }

  /** The summaries of every span of every scope of every batch, in order. */
  function TraceSpans(batches: seq<Batch>): seq<SpanSummary> {
    Flatten(Map(BatchSpans, batches))
  }

  /** The number of raw spans under a list of batches. */
  function SpanTotal(batches: seq<Batch>): nat {
    if batches == [] then 0 else ScopesTotal(BatchScopes(batches[0])) + SpanTotal(batches[1..])
  }

  function ScopesTotal(scopes: seq<ScopeSpans>): nat {
    if scopes == [] then 0 else |scopes[0].spans.GetOr([])| + ScopesTotal(scopes[1..])
  }

  /** `get_trace`: a status other than 200 means the trace was not found. */
  function GetTraceSpec(http: Http, traceId: string): (r: Result<TraceResult>)
    ensures r.Failure? <==> http.tempoTrace(traceId).Failure?
    ensures r.Success? ==> (r.value.TraceNotFound? <==> http.tempoTrace(traceId).value.statusCode != 200)
    ensures r.Success? && r.value.TraceFound? ==>
              var batches := http.tempoTrace(traceId).value.body.batches.GetOr([]);
              && r.value.traceId == traceId && r.value.status == "success"
              && r.value.spanCount == |r.value.spans| == SpanTotal(batches)
  {
    var resp :- http.tempoTrace(traceId);
    if resp.statusCode != 200 then Success(TraceNotFound(traceId))
    else
      var spans := TraceSpans(resp.body.batches.GetOr([]));
      TraceSpansCount(resp.body.batches.GetOr([]));
      Success(TraceFound(traceId, "success", |spans|, spans))
  }

  lemma {:induction false} ScopesSpansCount(scopes: seq<ScopeSpans>)
    ensures |ScopesSpans(scopes)| == ScopesTotal(scopes)
  {
    if scopes != [] {
      assert Map(ScopeSpanSummaries, scopes)[1..] == Map(ScopeSpanSummaries, scopes[1..]);
      ScopesSpansCount(scopes[1..]);
    }
  }

  /** There is one summary per raw span. */
  lemma {:induction false} TraceSpansCount(batches: seq<Batch>)
    ensures |TraceSpans(batches)| == SpanTotal(batches)
  {
    if batches != [] {
      assert Map(BatchSpans, batches)[1..] == Map(BatchSpans, batches[1..]);
      ScopesSpansCount(BatchScopes(batches[0]));
      TraceSpansCount(batches[1..]);
    }
  }

  /** Every summary of a list of scopes is the summary of one of their
      spans. */
  lemma {:induction false} ScopesSpansProvenance(scopes: seq<ScopeSpans>, x: SpanSummary)
    requires x in ScopesSpans(scopes)
    ensures exists c, k :: 0 <= c < |scopes| && 0 <= k < |scopes[c].spans.GetOr([])|
              && x == Summarize(scopes[c].spans.GetOr([])[k])
  {
    assert scopes != [];
    var head := ScopeSpanSummaries(scopes[0]);
    assert Map(ScopeSpanSummaries, scopes)[1..] == Map(ScopeSpanSummaries, scopes[1..]);
    if x in head {
      var k :| 0 <= k < |head| && head[k] == x;
      assert 0 <= 0 < |scopes| && 0 <= k < |scopes[0].spans.GetOr([])|;
    } else {
      ScopesSpansProvenance(scopes[1..], x);
      var c, k :| 0 <= c < |scopes[1..]| && 0 <= k < |scopes[1..][c].spans.GetOr([])|
                  && x == Summarize(scopes[1..][c].spans.GetOr([])[k]);
      assert scopes[1..][c] == scopes[c + 1];
    }
  }

  /** Every span `get_trace` reports is the summary of a span of some scope
      of some batch of the response. */
  lemma {:induction false} TraceSpansProvenance(batches: seq<Batch>, x: SpanSummary)
    requires x in TraceSpans(batches)
    ensures exists b, c, k :: 0 <= b < |batches| && 0 <= c < |BatchScopes(batches[b])|
              && 0 <= k < |BatchScopes(batches[b])[c].spans.GetOr([])|
              && x == Summarize(BatchScopes(batches[b])[c].spans.GetOr([])[k])
  {
    assert batches != [];
    var head := BatchSpans(batches[0]);
    assert Map(BatchSpans, batches)[1..] == Map(BatchSpans, batches[1..]);
    if x in head {
      ScopesSpansProvenance(BatchScopes(batches[0]), x);
      var c, k :| 0 <= c < |BatchScopes(batches[0])| && 0 <= k < |BatchScopes(batches[0])[c].spans.GetOr([])|
                  && x == Summarize(BatchScopes(batches[0])[c].spans.GetOr([])[k]);
      assert 0 <= 0 < |batches|;
    } else {
      TraceSpansProvenance(batches[1..], x);
      var b, c, k :| 0 <= b < |batches[1..]| && 0 <= c < |BatchScopes(batches[1..][b])|
                     && 0 <= k < |BatchScopes(batches[1..][b])[c].spans.GetOr([])|
                     && x == Summarize(BatchScopes(batches[1..][b])[c].spans.GetOr([])[k]);
      assert batches[1..][b] == batches[b + 1];
    }
  }

  /** The innermost loop of `get_trace`: one summary per span of a scope. */
  method AppendSpans(acc: seq<SpanSummary>, raw: seq<RawSpan>) returns (out: seq<SpanSummary>)
    ensures out == acc + Map(Summarize, raw)
  {
    out := acc;
    for k := 0 to |raw|
      invariant out == acc + Map(Summarize, raw[..k])
    {
      out := out + [Summarize(raw[k])];
      MapAppend(Summarize, raw[..k], raw[k]);
      assert raw[..k + 1] == raw[..k] + [raw[k]];
    }
    assert raw[..|raw|] == raw;
  }

  /** The middle loop of `get_trace`: the spans of each scope of a batch. */
  method AppendScopes(acc: seq<SpanSummary>, scopes: seq<ScopeSpans>) returns (out: seq<SpanSummary>)
    ensures out == acc + ScopesSpans(scopes)
  {
    out := acc;
    for j := 0 to |scopes|
      invariant out == acc + ScopesSpans(scopes[..j])
    {
      out := AppendSpans(out, scopes[j].spans.GetOr([]));
      FlattenSnoc(ScopeSpanSummaries, scopes[..j], scopes[j]);
      assert scopes[..j + 1] == scopes[..j] + [scopes[j]];
    }
    assert scopes[..|scopes|] == scopes;
  }

  /** `get_trace` as written: the outer loop runs over the batches. */
  method GetTrace(http: Http, traceId: string) returns (r: Result<TraceResult>)
    ensures r == GetTraceSpec(http, traceId)
  {
    var resp := http.tempoTrace(traceId);
    if resp.Failure? {
      return Failure(resp.error);
    }
    if resp.value.statusCode != 200 {
      return Success(TraceNotFound(traceId));
    }
    var batches := resp.value.body.batches.GetOr([]);
    var spans: seq<SpanSummary> := [];
    for i := 0 to |batches|
      invariant spans == TraceSpans(batches[..i])
    {
      spans := AppendScopes(spans, BatchScopes(batches[i]));
      FlattenSnoc(BatchSpans, batches[..i], batches[i]);
      assert batches[..i + 1] == batches[..i] + [batches[i]];
    }
    assert batches[..|batches|] == batches;
    r := Success(TraceFound(traceId, "success", |spans|, spans));
  }
}
