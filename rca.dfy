/** The RCA report (agent/reporting/rca.py): the LLM's reply to the whole
    investigation state is fence-stripped and decoded into a JSON object, and
    the facts the agent knows are stamped onto it key by key, overwriting
    whatever the LLM wrote under those keys. The LLM is a function from the
    state to its reply; `decode` stands for `json.loads`. */
module Rca {
  import opened Common
  import opened HypothesisModels
  import opened LlmText
  import opened State

  /** The keys the agent stamps onto every report. */
  const StampedKeys: set<string> := {
    "investigation_id", "alert_name", "severity", "status", "confidence", "iterations",
    "hypotheses_evaluated", "hypotheses_confirmed", "hypotheses_rejected"
  }

  /** The hypotheses with status `st`, in order. */
  function WithStatus(hs: seq<Hypothesis>, st: HypothesisStatus): (r: seq<Hypothesis>)
    ensures |r| <= |hs|
    ensures forall h :: h in r ==> h in hs && h.status == st
    ensures forall i :: 0 <= i < |hs| && hs[i].status == st ==> hs[i] in r
  {
    if hs == [] then []
    else
      var rest := WithStatus(hs[1..], st);
      assert forall i :: 1 <= i < |hs| ==> hs[i] == hs[1..][i - 1];
      (if hs[0].status == st then [hs[0]] else []) + rest
  }

  /** The filter is non-empty exactly when some hypothesis has the status. */
  lemma WithStatusNonEmpty(hs: seq<Hypothesis>, st: HypothesisStatus)
    ensures |WithStatus(hs, st)| > 0 <==> exists i :: 0 <= i < |hs| && hs[i].status == st
  {
    var r := WithStatus(hs, st);
    if |r| > 0 {
      assert r[0] in r;
      var i :| 0 <= i < |hs| && hs[i] == r[0];
    }
  }

  /** The titles of a confirmed and a rejected list never come from the
      same hypothesis, and together they cover no more than the list. */
  lemma {:induction false} ConfirmedRejectedDisjoint(hs: seq<Hypothesis>)
    ensures forall h :: h in WithStatus(hs, Confirmed) ==> h !in WithStatus(hs, Rejected)
    ensures |WithStatus(hs, Confirmed)| + |WithStatus(hs, Rejected)| <= |hs|
  {
    if hs != [] {
      ConfirmedRejectedDisjoint(hs[1..]);
    }
  }

  /** A list of titles as a JSON array. */
  function TitleList(hs: seq<Hypothesis>): Json {
    JArr(Map((h: Hypothesis) => JStr(h.title), hs))
  }

  /** The JSON object the LLM wrote: the reply is fence-stripped and decoded,
      and anything but an object makes the first key assignment raise
      TypeError. */
  function ReportFields(s: InvestigationState, llm: InvestigationState -> string, decode: string -> Result<Json>)
    : (r: Result<map<string, Json>>)
    ensures r.Success? <==>
              && StripFences(llm(s)).Success?
              && decode(StripFences(llm(s)).value).Success?
              && decode(StripFences(llm(s)).value).value.JObj?
  {
    var raw :- StripFences(llm(s));
    var doc :- decode(raw);
    if doc.JObj? then Success(doc.fields) else Failure("TypeError: report is not a JSON object")
  }

  /** The report after the stamping, one key after the other; each key is
      written with the state's fact, or its default when the state lacks it. */
  function StampOnto(fields: map<string, Json>, s: InvestigationState): map<string, Json> {
    var hs := s.hypotheses.GetOr([]);
    fields
      ["investigation_id" := JStr(if s.alert.Some? then s.alert.value.id else "unknown")]
      ["alert_name" := JStr(if s.alert.Some? then s.alert.value.name else "unknown")]
      ["severity" := JStr(if s.alert.Some? then s.alert.value.severity.Value() else "unknown")]
      ["status" := JStr(s.status.GetOr("resolved"))]
      ["confidence" := JReal(s.confidence.GetOr(0.0))]
      ["iterations" := JInt(s.iteration.GetOr(0))]
      ["hypotheses_evaluated" := JInt(|hs|)]
      ["hypotheses_confirmed" := TitleList(WithStatus(hs, Confirmed))]
      ["hypotheses_rejected" := TitleList(WithStatus(hs, Rejected))]
  }

  /** `generate_rca_report`: the LLM's object with the stamps written over
      it; a report without a title makes the final log line raise KeyError. */
  method GenerateRcaReport(s: InvestigationState, llm: InvestigationState -> string, decode: string -> Result<Json>)
    returns (r: Result<map<string, Json>>)
    ensures r.Success? <==> ReportFields(s, llm, decode).Success? && "title" in ReportFields(s, llm, decode).value
    ensures r.Success? ==> r.value == StampOnto(ReportFields(s, llm, decode).value, s)
  {
    var fields := ReportFields(s, llm, decode);
    if fields.Failure? {
      return Failure(fields.error);
    }
    var report := fields.value;
    var hypotheses := s.hypotheses.GetOr([]);
    report := report["investigation_id" := JStr(if s.alert.Some? then s.alert.value.id else "unknown")];
    report := report["alert_name" := JStr(if s.alert.Some? then s.alert.value.name else "unknown")];
    report := report["severity" := JStr(if s.alert.Some? then s.alert.value.severity.Value() else "unknown")];
    report := report["status" := JStr(s.status.GetOr("resolved"))];
    report := report["confidence" := JReal(s.confidence.GetOr(0.0))];
    report := report["iterations" := JInt(s.iteration.GetOr(0))];
    report := report["hypotheses_evaluated" := JInt(|hypotheses|)];
    report := report["hypotheses_confirmed" := TitleList(WithStatus(hypotheses, Confirmed))];
    report := report["hypotheses_rejected" := TitleList(WithStatus(hypotheses, Rejected))];
    assert report == StampOnto(fields.value, s);
    StampedKeysOnly(fields.value, s);
    TitleNotStamped();
    if "title" !in report {
      return Failure("KeyError: 'title'");
    }
    r := Success(report);
  }

  /** The stamped report has every key of the LLM's object plus the stamped
      ones, and an LLM value survives only under a key the agent does not
      stamp. */
  lemma StampedKeysOnly(fields: map<string, Json>, s: InvestigationState)
    ensures StampOnto(fields, s).Keys == fields.Keys + StampedKeys
    ensures forall k :: k in fields && k !in StampedKeys ==> StampOnto(fields, s)[k] == fields[k]
  {
  }

  /** The agent never stamps a title: it comes from the LLM or not at all. */
  lemma TitleNotStamped()
    ensures "title" !in StampedKeys
  {
    assert "title"[0] == 't';
  }

  /** The stamped keys hold the alert's identity and the state's status,
      whatever the LLM wrote there. */
  lemma StampedAlertFacts(fields: map<string, Json>, s: InvestigationState)
    ensures var report := StampOnto(fields, s);
      && report["investigation_id"] == JStr(if s.alert.Some? then s.alert.value.id else "unknown")
      && report["alert_name"] == JStr(if s.alert.Some? then s.alert.value.name else "unknown")
      && report["severity"] == JStr(if s.alert.Some? then s.alert.value.severity.Value() else "unknown")
      && report["status"] == JStr(s.status.GetOr("resolved"))
  {
  }

  /** The stamped keys hold the progress of the investigation, whatever the
      LLM wrote there. */
  lemma StampedProgress(fields: map<string, Json>, s: InvestigationState)
    ensures var report, hs := StampOnto(fields, s), s.hypotheses.GetOr([]);
      && report["confidence"] == JReal(s.confidence.GetOr(0.0))
      && report["iterations"] == JInt(s.iteration.GetOr(0))
      && report["hypotheses_evaluated"] == JInt(|hs|)
      && report["hypotheses_confirmed"] == TitleList(WithStatus(hs, Confirmed))
      && report["hypotheses_rejected"] == TitleList(WithStatus(hs, Rejected))
  {
  }
}
