/** The service entry point (agent/main.py): the choice of chat model, the
    initial state of an investigation, and the investigation run that
    swallows every failure and hands the report to the artifact store. */
module Service {
  import opened Common
  import opened Config
  import opened IngestionModels
  import opened State
  import opened Graph

  /** The chat model `_build_llm` constructs; keys and endpoints are left
      to the client libraries. */
  datatype ChatModel =
    | ChatAnthropic(model: string, temperature: real, maxTokens: nat)
    | ChatOpenAI(model: string, temperature: real)

  const LlmModel: string := "gpt-4o"
  const LlmTemperature: real := 0.1
  const AnthropicMaxTokens: nat := 4096

  /** `_build_llm`: "anthropic" and "openai" select their client, any other
      provider name is refused. */
  function BuildLlm(provider: string): (r: Result<ChatModel>)
    ensures provider == "anthropic" <==> r.Success? && r.value.ChatAnthropic?
    ensures provider == "openai" <==> r.Success? && r.value.ChatOpenAI?
    ensures r.Failure? <==> provider != "anthropic" && provider != "openai"
    ensures r.Failure? ==> r.error == "Unsupported LLM provider: " + provider
    ensures r.Success? ==> r.value.model == LlmModel && r.value.temperature == LlmTemperature
  {
    if provider == "anthropic" then Success(ChatAnthropic(LlmModel, LlmTemperature, AnthropicMaxTokens))
    else if provider == "openai" then Success(ChatOpenAI(LlmModel, LlmTemperature))
    else Failure("Unsupported LLM provider: " + provider)
  }

  /** The configured default provider is a supported one. */
  lemma DefaultProviderSupported()
    ensures BuildLlm(DefaultLlmProvider).Success?
  {
  }

  /** The state an investigation starts from: the alert, no evidence, no
      iterations yet, the configured bound, no root cause, zero confidence. */
  function InitialState(alert: NormalizedAlert, maxIterations: int): (s: InvestigationState)
    ensures s.alert == Some(alert) && s.evidence == [] && s.hypotheses.None? && s.rcaReport.None?
    ensures s.iteration == Some(0) && s.maxIterations == Some(maxIterations)
    ensures s.rootCauseFound == Some(false) && s.confidence == Some(0.0) && s.status == Some("investigating")
    ensures ShouldContinue(s) == if maxIterations > 0 then ToInvestigate else ToEscalate
  {
    InvestigationState(
      alert := Some(alert), context := None, runbookContext := None, pastIncidents := None,
      correlation := None, problemFrame := None, hypotheses := None, evidence := [],
      iteration := Some(0), maxIterations := Some(maxIterations), rootCauseFound := Some(false),
      confidence := Some(0.0), rcaReport := None, status := Some("investigating"), error := None)
  }

  /** With the default bound of 6, the graph investigates at most six
      times, and a report or escalation always has a report whose stamped
      status is "investigating". */
  method InvestigateWithDefaults(alert: NormalizedAlert, deps: Deps) returns (r: Result<InvestigationState>)
    ensures r.Success? ==>
              && r.value.iteration.Some? && 1 <= r.value.iteration.value <= MaxInvestigationIterations
              && (r.value.status == Some("escalated") ==> r.value.iteration == Some(MaxInvestigationIterations))
              && r.value.rcaReport.Some?
              && "status" in r.value.rcaReport.value
              && r.value.rcaReport.value["status"] == JStr("investigating")
  {
    r := Run(InitialState(alert, MaxInvestigationIterations), deps);
  }

  /** The artifact store as far as the run sees it: the reports saved, and
      the incidents fed back to the knowledge store. */
  class ArtifactStore {
    var saved: seq<map<string, Json>>
    var incidents: seq<map<string, Json>>
    const hasKnowledge: bool

    constructor (hasKnowledge: bool)
      ensures saved == [] && incidents == [] && this.hasKnowledge == hasKnowledge
    {
      saved := [];
      incidents := [];
      this.hasKnowledge := hasKnowledge;
    }

    /** `save_report`: one more report on disk. */
    method SaveReport(report: map<string, Json>)
      modifies this`saved
      ensures saved == old(saved) + [report]
    {
      saved := saved + [report];
    }

    /** `feed_back_to_knowledge`: only a report whose status is "resolved"
        is stored, and only when there is a knowledge store. */
    method FeedBack(report: map<string, Json>)
      modifies this`incidents
      ensures ReportResolved(report) && hasKnowledge ==> incidents == old(incidents) + [report]
      ensures !(ReportResolved(report) && hasKnowledge) ==> incidents == old(incidents)
    {
      if "status" !in report || report["status"] != JStr("resolved") {
        return;
      }
      if !hasKnowledge {
        return;
      }
      incidents := incidents + [report];
    }
  }

  /** `report.get("status") == "resolved"`. */
  predicate ReportResolved(report: map<string, Json>) {
    "status" in report && report["status"] == JStr("resolved")
  }

  /** `_run_investigation`: the run from the initial state; any failure is
      swallowed and leaves the store alone; on completion the report, `{}`
      when absent, is saved and fed back when there is a store. The fed-back
      gate cannot pass: the report's stamped status is the state's
      "investigating", so no incident ever reaches the knowledge store. */
  method RunInvestigation(alert: NormalizedAlert, deps: Deps, artifacts: ArtifactStore?)
    returns (completed: bool, report: map<string, Json>)
    modifies artifacts
    ensures !completed ==> report == map[]
    ensures artifacts != null && completed ==> artifacts.saved == old(artifacts.saved) + [report]
    ensures artifacts != null && !completed ==> artifacts.saved == old(artifacts.saved)
    ensures artifacts != null ==> artifacts.incidents == old(artifacts.incidents)
    ensures completed ==> !ReportResolved(report)
  {
    var result := Run(InitialState(alert, MaxInvestigationIterations), deps);
    if result.Failure? {
      return false, map[];
    }
    report := result.value.rcaReport.GetOr(map[]);
    if artifacts != null {
      artifacts.SaveReport(report);
      artifacts.FeedBack(report);
    }
    completed := true;
  }

  /** The report as evidently intended: the run's report stamped with the
      status the run ended in, instead of the one it had while the report
      was written. */
  function FinalReport(s: InvestigationState): (report: map<string, Json>)
    requires s.status.Some?
    ensures "status" in report && report["status"] == JStr(s.status.value)
    ensures forall k :: k in s.rcaReport.GetOr(map[]) && k != "status" ==>
              k in report && report[k] == s.rcaReport.GetOr(map[])[k]
  {
    s.rcaReport.GetOr(map[])["status" := JStr(s.status.value)]
  }

  /** `_run_investigation` with the report stamped with the final status:
      then exactly the investigations that found a root cause are fed back
      to the knowledge store, when there is one. */
  method RunInvestigationIntended(alert: NormalizedAlert, deps: Deps, artifacts: ArtifactStore?)
    returns (completed: bool, rootCauseFound: bool, report: map<string, Json>)
    modifies artifacts
    ensures !completed ==> report == map[] && !rootCauseFound
    ensures completed ==> (ReportResolved(report) <==> rootCauseFound)
    ensures artifacts != null && completed ==> artifacts.saved == old(artifacts.saved) + [report]
    ensures artifacts != null && !completed ==> artifacts.saved == old(artifacts.saved)
    ensures artifacts != null && rootCauseFound && artifacts.hasKnowledge ==>
              artifacts.incidents == old(artifacts.incidents) + [report]
    ensures artifacts != null && !(rootCauseFound && artifacts.hasKnowledge) ==>
              artifacts.incidents == old(artifacts.incidents)
  {
    var result := Run(InitialState(alert, MaxInvestigationIterations), deps);
    if result.Failure? {
      return false, false, map[];
    }
    rootCauseFound := result.value.rootCauseFound == Some(true);
    report := FinalReport(result.value);
    assert JStr("escalated") != JStr("resolved") by {
      assert "escalated"[0] != "resolved"[0];
    }
    assert ReportResolved(report) <==> rootCauseFound;
    if artifacts != null {
      artifacts.SaveReport(report);
      artifacts.FeedBack(report);
    }
    completed := true;
  }
}
