/** Mapping raw Alertmanager alerts onto NormalizedAlert
    (agent/ingestion/normalizer.py). The clock and `strptime` are parameters:
    `now` is the current time and `strptime(raw, fmt)` the parsed instant, or
    None when `raw` does not match `fmt`. */
module Normalizer {
  import opened Common
  import opened IngestionModels

  const SeverityMap: map<string, AlertSeverity> :=
    map["critical" := Critical, "warning" := Warning, "info" := Info]

  /** `labels.get(key, default)`. */
  function LabelOr(m: map<string, string>, key: string, default: string): string {
    if key in m then m[key] else default
  }

  /** The severity of an alert: its lower-cased "severity" label looked up in
      the severity map, WARNING when absent or unknown. */
  function SeverityOf(labels: map<string, string>): AlertSeverity {
    var key := Lower(LabelOr(labels, "severity", "warning"));
    if key in SeverityMap then SeverityMap[key] else Warning
  }

  lemma SeverityRule(labels: map<string, string>)
    ensures SeverityOf(labels) == Critical <==> Lower(LabelOr(labels, "severity", "warning")) == "critical"
    ensures SeverityOf(labels) == Info <==> Lower(LabelOr(labels, "severity", "warning")) == "info"
    ensures "severity" !in labels ==> SeverityOf(labels) == Warning
  {
    SeverityKeysDistinct();
    if "severity" !in labels {
      LowerWarning();
    }
  }

  /** The default label is already lower case. */
  lemma LowerWarning()
    ensures Lower("warning") == "warning"
  {
    assert "warning" == ['w', 'a', 'r', 'n', 'i', 'n', 'g'];
  }

  /** The keys of the severity map are three different strings. */
  lemma SeverityKeysDistinct()
    ensures "critical" != "warning" && "critical" != "info" && "warning" != "info"
  {
    assert "critical"[0] == 'c' && "warning"[0] == 'w' && "info"[0] == 'i';
  }

  /** The three layouts tried, in this order: with fractional seconds and a
      literal Z, with whole seconds and a literal Z, and with a numeric offset. */
  datatype TimeFormat = FractionalZulu | Zulu | NumericOffset

  const TimestampFormats: seq<TimeFormat> := [FractionalZulu, Zulu, NumericOffset]

  /** Alertmanager's "zero time", sent for an alert without an end. */
  const ZeroTime: string := "0001-01-01T00:00:00Z"

  /** The result of the first format in `formats` that parses `raw`. */
  function FirstMatch(raw: string, formats: seq<TimeFormat>,
                      strptime: (string, TimeFormat) -> Option<int>): (r: Option<int>)
    ensures r.None? <==> forall i :: 0 <= i < |formats| ==> strptime(raw, formats[i]).None?
    ensures r.Some? ==> exists i :: 0 <= i < |formats| && strptime(raw, formats[i]) == r
                          && forall j :: 0 <= j < i ==> strptime(raw, formats[j]).None?
  {
    if formats == [] then None
    else if strptime(raw, formats[0]).Some? then strptime(raw, formats[0])
    else
      var rest := FirstMatch(raw, formats[1..], strptime);
      assert forall i :: 1 <= i < |formats| ==> formats[i] == formats[1..][i - 1];
      rest
  }

  /** `_parse_ts`: the current time for an empty or zero timestamp or one no
      format accepts, otherwise the first successful parse. */
  function ParseTs(raw: string, now: int, strptime: (string, TimeFormat) -> Option<int>): int {
    if raw == "" || raw == ZeroTime then now
    else FirstMatch(raw, TimestampFormats, strptime).GetOr(now)
  }

  lemma ParseTsRule(raw: string, now: int, strptime: (string, TimeFormat) -> Option<int>)
    ensures raw == "" || raw == ZeroTime ==> ParseTs(raw, now, strptime) == now
    ensures (forall f :: strptime(raw, f).None?) ==> ParseTs(raw, now, strptime) == now
    ensures raw != "" && raw != ZeroTime && strptime(raw, FractionalZulu).Some? ==>
              ParseTs(raw, now, strptime) == strptime(raw, FractionalZulu).value
    ensures raw != "" && raw != ZeroTime && strptime(raw, FractionalZulu).None?
              && strptime(raw, Zulu).Some? ==>
              ParseTs(raw, now, strptime) == strptime(raw, Zulu).value
    ensures raw != "" && raw != ZeroTime && strptime(raw, FractionalZulu).None?
              && strptime(raw, Zulu).None? && strptime(raw, NumericOffset).Some? ==>
              ParseTs(raw, now, strptime) == strptime(raw, NumericOffset).value
  {
    if raw != "" && raw != ZeroTime && strptime(raw, FractionalZulu).None? {
      assert TimestampFormats[1..] == [Zulu, NumericOffset];
      assert FirstMatch(raw, TimestampFormats, strptime)
          == FirstMatch(raw, [Zulu, NumericOffset], strptime);
      if strptime(raw, Zulu).None? {
        assert [Zulu, NumericOffset][1..] == [NumericOffset];
        assert FirstMatch(raw, [Zulu, NumericOffset], strptime)
            == FirstMatch(raw, [NumericOffset], strptime);
      }
    }
  }

  /** `_parse_ts` as the source writes it: the formats are tried in order
      and the first that parses wins. */
  method ParseTimestamp(raw: string, now: int, strptime: (string, TimeFormat) -> Option<int>) returns (t: int)
    ensures t == ParseTs(raw, now, strptime)
  {
    if raw == "" || raw == ZeroTime {
      return now;
    }
    for i := 0 to |TimestampFormats|
      invariant forall j :: 0 <= j < i ==> strptime(raw, TimestampFormats[j]).None?
    {
      var parsed := strptime(raw, TimestampFormats[i]);
      if parsed.Some? {
        return parsed.value;
      }
    }
    return now;
  }

  /** `normalize_raw_alert`, with `id` the value of the id factory. */
  function NormalizeRawAlert(raw: RawAlert, id: string, now: int,
                             strptime: (string, TimeFormat) -> Option<int>): NormalizedAlert {
    NormalizedAlert(
      id,
      LabelOr(raw.labels, "alertname", "unknown"),
      SeverityOf(raw.labels),
      if raw.status == "firing" then Firing else Resolved,
      "alertmanager",
      LabelOr(raw.annotations, "summary", ""),
      LabelOr(raw.annotations, "description", ""),
      raw.labels,
      ParseTs(raw.startsAt, now, strptime),
      if raw.endsAt != "" then Some(ParseTs(raw.endsAt, now, strptime)) else None,
      raw.generatorUrl,
      raw.fingerprint,
      Some(raw))
  }

  lemma NormalizeRawAlertFields(raw: RawAlert, id: string, now: int,
                                strptime: (string, TimeFormat) -> Option<int>)
    ensures var a := NormalizeRawAlert(raw, id, now, strptime);
      && (a.status == Firing <==> raw.status == "firing")
      && (a.status == Resolved <==> raw.status != "firing")
      && ("alertname" in raw.labels ==> a.name == raw.labels["alertname"])
      && ("alertname" !in raw.labels ==> a.name == "unknown")
      && a.severity == SeverityOf(raw.labels)
      && (a.endsAt.None? <==> raw.endsAt == "")
      && (raw.endsAt != "" ==> a.endsAt == Some(ParseTs(raw.endsAt, now, strptime)))
      && ("summary" in raw.annotations ==> a.summary == raw.annotations["summary"])
      && ("summary" !in raw.annotations ==> a.summary == "")
      && ("description" in raw.annotations ==> a.description == raw.annotations["description"])
      && ("description" !in raw.annotations ==> a.description == "")
      && a.id == id && a.raw == Some(raw)
      && a.labels == raw.labels && a.fingerprint == raw.fingerprint
      && a.generatorUrl == raw.generatorUrl && a.source == "alertmanager"
      && a.startsAt == ParseTs(raw.startsAt, now, strptime)
  {
  }

  /** The normalization applied to the i-th raw alert of a payload, `idFor(i)`
      being the id generated for it. */
  function NormalizeAt(idFor: nat -> string, now: int, strptime: (string, TimeFormat) -> Option<int>)
    : (RawAlert, nat) -> NormalizedAlert
  {
    (raw: RawAlert, i: nat) => NormalizeRawAlert(raw, idFor(i), now, strptime)
  }

  /** What a loop that appends `f(xs[i], i)` for each of the first `n`
      elements not failing leaves behind. */
  function KeepMap<A, B>(xs: seq<A>, n: nat, f: (A, nat) -> B, fails: A -> bool): seq<B>
    requires n <= |xs|
  {
    if n == 0 then []
    else KeepMap(xs, n - 1, f, fails) + (if fails(xs[n - 1]) then [] else [f(xs[n - 1], n - 1)])
  }

  /** The positions, among the first `n`, that did not fail. */
  function KeptIndices<A>(xs: seq<A>, n: nat, fails: A -> bool): seq<nat>
    requires n <= |xs|
  {
    if n == 0 then []
    else KeptIndices(xs, n - 1, fails) + (if fails(xs[n - 1]) then [] else [n - 1])
  }

  /** The kept positions are increasing, below `n`, exactly the ones that did
      not fail. */
  lemma {:induction false} KeptIndicesShape<A>(xs: seq<A>, n: nat, fails: A -> bool)
    requires n <= |xs|
    ensures var kept := KeptIndices(xs, n, fails);
      && |kept| <= n
      && (forall k :: 0 <= k < |kept| ==> kept[k] < n && !fails(xs[kept[k]]))
      && (forall k, l :: 0 <= k < l < |kept| ==> kept[k] < kept[l])
      && (forall i :: 0 <= i < n && !fails(xs[i]) ==> i in kept)
  {
    if n > 0 {
      KeptIndicesShape(xs, n - 1, fails);
    }
  }

  /** The output holds exactly the images of the non-failing elements, in
      input order: the k-th output comes from the k-th kept position. */
  lemma {:induction false} KeepMapIsKept<A, B>(xs: seq<A>, n: nat, f: (A, nat) -> B, fails: A -> bool)
    requires n <= |xs|
    ensures var out := KeepMap(xs, n, f, fails);
            var kept := KeptIndices(xs, n, fails);
      && |out| == |kept|
      && forall k :: 0 <= k < |kept| ==> kept[k] < |xs| && out[k] == f(xs[kept[k]], kept[k])
  {
    if n > 0 {
      KeepMapIsKept(xs, n - 1, f, fails);
      KeptIndicesShape(xs, n - 1, fails);
      var out0, kept0 := KeepMap(xs, n - 1, f, fails), KeptIndices(xs, n - 1, fails);
      var out, kept := KeepMap(xs, n, f, fails), KeptIndices(xs, n, fails);
      if !fails(xs[n - 1]) {
        assert out == out0 + [f(xs[n - 1], n - 1)] && kept == kept0 + [n - 1];
        forall k | 0 <= k < |kept|
          ensures kept[k] < |xs| && out[k] == f(xs[kept[k]], kept[k])
        {
          if k < |kept0| {
            assert out[k] == out0[k] && kept[k] == kept0[k];
          }
        }
      }
    }
  }

  /** With no failure, every position is kept. */
  lemma {:induction false} NoFailuresKeepsAll<A>(xs: seq<A>, n: nat, fails: A -> bool)
    requires n <= |xs|
    requires forall x :: x in xs ==> !fails(x)
    ensures KeptIndices(xs, n, fails) == seq(n, i => i)
  {
    if n > 0 {
      NoFailuresKeepsAll(xs, n - 1, fails);
      assert xs[n - 1] in xs;
    }
  }

  /** `normalize_payload`: one NormalizedAlert per raw alert that normalized
      without raising, in order; failures are skipped. `fails(raw)` says that
      building the NormalizedAlert raised. */
  method NormalizePayload(payload: AlertmanagerPayload, idFor: nat -> string, now: int,
                          strptime: (string, TimeFormat) -> Option<int>,
                          fails: RawAlert -> bool) returns (alerts: seq<NormalizedAlert>)
    ensures alerts == KeepMap(payload.alerts, |payload.alerts|, NormalizeAt(idFor, now, strptime), fails)
    ensures |alerts| <= |payload.alerts|
    ensures (forall r :: r in payload.alerts ==> !fails(r)) ==>
              |alerts| == |payload.alerts|
              && forall i :: 0 <= i < |alerts| ==>
                   alerts[i] == NormalizeRawAlert(payload.alerts[i], idFor(i), now, strptime)
  {
    var norm := NormalizeAt(idFor, now, strptime);
    alerts := [];
    for i := 0 to |payload.alerts|
      invariant alerts == KeepMap(payload.alerts, i, norm, fails)
    {
      var raw := payload.alerts[i];
      if !fails(raw) {
        alerts := alerts + [norm(raw, i)];
      }
    }
    KeepMapIsKept(payload.alerts, |payload.alerts|, norm, fails);
    KeptIndicesShape(payload.alerts, |payload.alerts|, fails);
    if forall r :: r in payload.alerts ==> !fails(r) {
      NoFailuresKeepsAll(payload.alerts, |payload.alerts|, fails);
    }
  }
}
