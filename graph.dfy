/** The investigation workflow (agent/investigation/graph.py): the nodes
    enrich → frame → hypothesize run once each, then investigate → analyze
    repeats until the routing rule sends the run to report or escalate,
    which end it. Each node returns a partial update that is merged into the
    state; a node that raises (a missing key, a failing LLM stage) ends the
    whole run with that failure. The LLM stages are oracles. */
module Graph {
  import opened Common
  import opened Config
  import opened HypothesisModels
  import opened HttpApi
  import opened ContextBuilder
  import opened Executor
  import opened Generator
  import opened Ranker
  import opened State
  import opened Rca

  /** The LLM stages. `frameProblem` is the problem framer, whose result is
      an opaque JSON value here; the other stages are the replies the LLM
      gives, and the decoders their JSON parsing. */
  datatype Llm = Llm(
    frameProblem: Context -> Result<Json>,
    hypothesesReply: (Json, Context) -> string,
    rerankReply: (seq<Hypothesis>, seq<EvidenceRecord>) -> string,
    reportReply: InvestigationState -> string,
    decodeHypotheses: string -> Result<seq<HypothesisDraft>>,
    decodeReport: string -> Result<Json>)

  /** Everything the graph's nodes call out to; `percent` is the `:.0%`
      formatting of the escalation reason. */
  datatype Deps = Deps(llm: Llm, knowledge: Option<Knowledge>, http: Http, now: int, percent: real -> string)

  datatype Route = ToReport | ToInvestigate | ToEscalate

  /** The iteration bound of a state: `max_iterations`, 6 when absent. */
  function MaxIter(s: InvestigationState): int {
    s.maxIterations.GetOr(MaxInvestigationIterations)
  }

  /** `should_continue`: a root cause ends the run with a report whatever
      the iteration; otherwise reaching the bound escalates, and anything
      else investigates again. */
  function ShouldContinue(s: InvestigationState): (r: Route)
    ensures s.rootCauseFound == Some(true) ==> r == ToReport
    ensures s.rootCauseFound != Some(true) && s.iteration.GetOr(0) >= MaxIter(s) ==> r == ToEscalate
    ensures s.rootCauseFound != Some(true) && s.iteration.GetOr(0) < MaxIter(s) ==> r == ToInvestigate
  {
    if s.rootCauseFound == Some(true) then ToReport
    else if s.iteration.GetOr(0) >= MaxIter(s) then ToEscalate
    else ToInvestigate
  }

  /** `enrich_context`: the context bundle and its parts, status
      "investigating" and iteration 0; a failing knowledge search fails the
      node. */
  function EnrichContext(s: InvestigationState, knowledge: Option<Knowledge>, http: Http): (u: Result<Update>)
    ensures u.Success? <==> s.alert.Some? && Build(s.alert.value, knowledge, http).Success?
    ensures s.alert.Some? && knowledge.None? ==> u.Success?
    ensures u.Success? ==>
              var ctx := Build(s.alert.value, knowledge, http).value;
              u.value == NoUpdate.(context := Some(ctx), runbookContext := Some(ctx.runbookContext),
                                   pastIncidents := Some(ctx.pastIncidents), correlation := Some(ctx.correlation),
                                   status := Some("investigating"), iteration := Some(0))
  {
    if s.alert.None? then Failure("KeyError: 'alert'")
    else
      var ctx :- Build(s.alert.value, knowledge, http);
      Success(NoUpdate.(context := Some(ctx), runbookContext := Some(ctx.runbookContext),
                        pastIncidents := Some(ctx.pastIncidents), correlation := Some(ctx.correlation),
                        status := Some("investigating"), iteration := Some(0)))
  }

  /** `frame`: the problem frame of the context. */
  function Frame(s: InvestigationState, llm: Llm): (u: Result<Update>)
    ensures s.context.None? ==> u.Failure?
    ensures s.context.Some? ==> (u.Success? <==> llm.frameProblem(s.context.value).Success?)
    ensures u.Success? ==> u.value == NoUpdate.(problemFrame := Some(llm.frameProblem(s.context.value).value))
  {
    if s.context.None? then Failure("KeyError: 'context'")
    else
      var pf :- llm.frameProblem(s.context.value);
      Success(NoUpdate.(problemFrame := Some(pf)))
  }

  /** `hypothesize`: the generated hypotheses, every one validated and the
      list sorted by descending likelihood. */
  function Hypothesize(s: InvestigationState, llm: Llm): (u: Result<Update>)
    ensures u.Success? <==>
              && s.problemFrame.Some? && s.context.Some?
              && GenerateHypotheses(s.problemFrame.value, s.context.value, llm.hypothesesReply,
                                    llm.decodeHypotheses).Success?
    ensures u.Success? ==>
              var hs := GenerateHypotheses(s.problemFrame.value, s.context.value, llm.hypothesesReply, llm.decodeHypotheses);
              && hs.Success? && SortedDesc(hs.value)
              && u.value == NoUpdate.(hypotheses := Some(hs.value))
  {
    if s.problemFrame.None? then Failure("KeyError: 'problem_frame'")
    else if s.context.None? then Failure("KeyError: 'context'")
    else
      var hs :- GenerateHypotheses(s.problemFrame.value, s.context.value, llm.hypothesesReply, llm.decodeHypotheses);
      Success(NoUpdate.(hypotheses := Some(hs)))
  }

  /** `investigate`: the executor's evidence for the open hypotheses, and
      the iteration counter one higher than before. */
  function Investigate(s: InvestigationState, http: Http, now: int): (u: Result<Update>)
    ensures u.Success? <==> s.alert.Some? && s.hypotheses.Some?
    ensures u.Success? ==>
              u.value == NoUpdate.(evidence := Some(AllEvidence(http, s.hypotheses.value, s.alert.value.startsAt, now)),
                                   iteration := Some(s.iteration.GetOr(0) + 1))
  {
    if s.alert.None? then Failure("KeyError: 'alert'")
    else if s.hypotheses.None? then Failure("KeyError: 'hypotheses'")
    else
      var evidence := AllEvidence(http, s.hypotheses.value, s.alert.value.startsAt, now);
      Success(NoUpdate.(evidence := Some(evidence), iteration := Some(s.iteration.GetOr(0) + 1)))
  }

  /** `max(updated, key=likelihood).likelihood`, or 0.0 for no hypotheses. */
  function BestLikelihood(hs: seq<Hypothesis>): (c: real)
    ensures hs == [] ==> c == 0.0
    ensures forall i :: 0 <= i < |hs| ==> hs[i].likelihood <= c
    ensures hs != [] ==> exists i :: 0 <= i < |hs| && hs[i].likelihood == c
  {
    if hs == [] then 0.0
    else if |hs| == 1 then hs[0].likelihood
    else
      var rest := BestLikelihood(hs[1..]);
      assert forall i :: 1 <= i < |hs| ==> hs[i] == hs[1..][i - 1];
      if hs[0].likelihood >= rest then hs[0].likelihood
      else
        var i :| 0 <= i < |hs[1..]| && hs[1..][i].likelihood == rest;
        assert hs[i + 1].likelihood == rest;
        rest
  }

  /** Re-ranked hypotheses are sorted, so the confidence is the likelihood
      of the first one. */
  lemma BestOfSorted(hs: seq<Hypothesis>)
    requires SortedDesc(hs) && hs != []
    ensures BestLikelihood(hs) == hs[0].likelihood
  {
    var i :| 0 <= i < |hs| && hs[i].likelihood == BestLikelihood(hs);
    assert hs[0].likelihood >= hs[i].likelihood || i == 0;
  }

  /** `analyze`: the re-ranked hypotheses; a root cause is found exactly
      when one of them is confirmed, and the confidence is the highest
      likelihood among them. */
  function Analyze(s: InvestigationState, llm: Llm): (u: Result<Update>)
    ensures u.Success? <==>
              s.hypotheses.Some? && RerankHypotheses(s.hypotheses.value, s.evidence, llm.rerankReply,
                                                     llm.decodeHypotheses).Success?
    ensures u.Success? ==>
              var updated := RerankHypotheses(s.hypotheses.value, s.evidence, llm.rerankReply, llm.decodeHypotheses);
              && updated.Success?
              && u.value == NoUpdate.(
                   hypotheses := Some(updated.value),
                   rootCauseFound := Some(exists i :: 0 <= i < |updated.value| && updated.value[i].status == Confirmed),
                   confidence := Some(BestLikelihood(updated.value)))
  {
    if s.hypotheses.None? then Failure("KeyError: 'hypotheses'")
    else
      var updated :- RerankHypotheses(s.hypotheses.value, s.evidence, llm.rerankReply, llm.decodeHypotheses);
      var confirmed := WithStatus(updated, Confirmed);
      WithStatusNonEmpty(updated, Confirmed);
      Success(NoUpdate.(hypotheses := Some(updated), rootCauseFound := Some(|confirmed| > 0),
                        confidence := Some(BestLikelihood(updated))))
  }

  /** `report`: the report, and status "resolved". */
  function ReportUpdate(rca: map<string, Json>): Update {
    NoUpdate.(rcaReport := Some(rca), status := Some("resolved"))
  }

  /** The part of the escalation reason before the iteration count. */
  function ReasonPrefix(s: InvestigationState, percent: real -> string): string {
    "Confidence " + percent(s.confidence.GetOr(0.0)) + " below threshold after "
  }

  /** The reason an escalation gives: the confidence (0 when absent) and the
      iteration count, which can be read back from the text. */
  function EscalationReason(s: InvestigationState, percent: real -> string): (r: string)
    ensures StartsWith(r, ReasonPrefix(s, percent))
    ensures |ReasonPrefix(s, percent)| < |r| - |" iterations"|
    ensures r[|r| - |" iterations"|..] == " iterations"
    ensures var count := r[|ReasonPrefix(s, percent)|..|r| - |" iterations"|];
      IsIntText(count) && IntValue(count) == s.iteration.GetOr(0)
  {
    var prefix, count := ReasonPrefix(s, percent), IntToString(s.iteration.GetOr(0));
    var r := prefix + count + " iterations";
    assert r[|prefix|..|r| - |" iterations"|] == count;
    assert r[|r| - |" iterations"|..] == " iterations";
    r
  }

  /** `escalate`: the report marked as escalated with its reason, and
      status "escalated". */
  function EscalateUpdate(s: InvestigationState, rca: map<string, Json>, percent: real -> string): (u: Update)
    ensures u.status == Some("escalated") && u.rcaReport.Some?
    ensures "escalated" in u.rcaReport.value && u.rcaReport.value["escalated"] == JBool(true)
    ensures "escalation_reason" in u.rcaReport.value
    ensures u.rcaReport.value["escalation_reason"] == JStr(EscalationReason(s, percent))
    ensures forall k :: k in rca && k != "escalated" && k != "escalation_reason" ==>
              k in u.rcaReport.value && u.rcaReport.value[k] == rca[k]
  {
    var report := rca["escalated" := JBool(true)]["escalation_reason" := JStr(EscalationReason(s, percent))];
    NoUpdate.(rcaReport := Some(report), status := Some("escalated"))
  }

  /** `report`: the RCA report of the state as it stands, so its stamped
      status is the state's own. */
  method Report(s: InvestigationState, llm: Llm) returns (u: Result<Update>)
    ensures u.Success? <==>
              ReportFields(s, llm.reportReply, llm.decodeReport).Success?
              && "title" in ReportFields(s, llm.reportReply, llm.decodeReport).value
    ensures u.Success? ==>
              && u.value == ReportUpdate(StampOnto(ReportFields(s, llm.reportReply, llm.decodeReport).value, s))
              && "title" in u.value.rcaReport.value && "status" in u.value.rcaReport.value
              && u.value.rcaReport.value["status"] == JStr(s.status.GetOr("resolved"))
  {
    var rca := GenerateRcaReport(s, llm.reportReply, llm.decodeReport);
    if rca.Failure? {
      return Failure(rca.error);
    }
    StampedKeysOnly(ReportFields(s, llm.reportReply, llm.decodeReport).value, s);
    StampedAlertFacts(ReportFields(s, llm.reportReply, llm.decodeReport).value, s);
    u := Success(ReportUpdate(rca.value));
  }

  /** `escalate`: the RCA report of the state as it stands, marked as
      escalated. */
  method Escalate(s: InvestigationState, llm: Llm, percent: real -> string) returns (u: Result<Update>)
    ensures u.Success? <==>
              ReportFields(s, llm.reportReply, llm.decodeReport).Success?
              && "title" in ReportFields(s, llm.reportReply, llm.decodeReport).value
    ensures u.Success? ==>
              && u.value == EscalateUpdate(s, StampOnto(ReportFields(s, llm.reportReply, llm.decodeReport).value, s), percent)
              && "title" in u.value.rcaReport.value && "status" in u.value.rcaReport.value
              && u.value.rcaReport.value["status"] == JStr(s.status.GetOr("resolved"))
  {
    var rca := GenerateRcaReport(s, llm.reportReply, llm.decodeReport);
    if rca.Failure? {
      return Failure(rca.error);
    }
    StampedKeysOnly(ReportFields(s, llm.reportReply, llm.decodeReport).value, s);
    StampedAlertFacts(ReportFields(s, llm.reportReply, llm.decodeReport).value, s);
    u := Success(EscalateUpdate(s, rca.value, percent));
  }

  /** The node a finished run ends in: `report` when a root cause was
      found, `escalate` otherwise; either leaves the counters and the
      evidence alone and stores a report stamped with the current status. */
  method Conclude(s: InvestigationState, deps: Deps) returns (r: Result<InvestigationState>)
    requires ShouldContinue(s) != ToInvestigate
    ensures var fields := ReportFields(s, deps.llm.reportReply, deps.llm.decodeReport);
      r.Success? <==> fields.Success? && "title" in fields.value
    ensures var fields := ReportFields(s, deps.llm.reportReply, deps.llm.decodeReport);
      r.Success? ==>
        && (s.rootCauseFound == Some(true) ==> r.value == Apply(s, ReportUpdate(StampOnto(fields.value, s))))
        && (s.rootCauseFound != Some(true) ==>
              r.value == Apply(s, EscalateUpdate(s, StampOnto(fields.value, s), deps.percent)))
    ensures r.Success? ==>
              && r.value.iteration == s.iteration && r.value.maxIterations == s.maxIterations
              && r.value.evidence == s.evidence && r.value.rootCauseFound == s.rootCauseFound
              && r.value.confidence == s.confidence
              && (s.rootCauseFound == Some(true) ==> r.value.status == Some("resolved"))
              && (s.rootCauseFound != Some(true) ==> r.value.status == Some("escalated"))
              && r.value.rcaReport.Some?
              && (s.rootCauseFound != Some(true) ==>
                    && "escalated" in r.value.rcaReport.value
                    && r.value.rcaReport.value["escalated"] == JBool(true)
                    && "escalation_reason" in r.value.rcaReport.value
                    && r.value.rcaReport.value["escalation_reason"] == JStr(EscalationReason(s, deps.percent)))
              && "title" in r.value.rcaReport.value && "status" in r.value.rcaReport.value
              && r.value.rcaReport.value["status"] == JStr(s.status.GetOr("resolved"))
  {
    var u: Result<Update>;
    if ShouldContinue(s) == ToReport {
      u := Report(s, deps.llm);
    } else {
      u := Escalate(s, deps.llm, deps.percent);
    }
    if u.Failure? {
      return Failure(u.error);
    }
    r := Success(Apply(s, u.value));
  }

  /** The three nodes that run once, in order. */
  method Prelude(init: InvestigationState, deps: Deps) returns (r: Result<InvestigationState>)
    ensures init.alert.None? ==> r.Failure?
    ensures r.Success? ==>
              && r.value.iteration == Some(0) && r.value.status == Some("investigating")
              && r.value.evidence == init.evidence && r.value.maxIterations == init.maxIterations
              && r.value.alert == init.alert && r.value.hypotheses.Some?
  {
    var u := EnrichContext(init, deps.knowledge, deps.http);
    if u.Failure? {
      return Failure(u.error);
    }
    var s := Apply(init, u.value);
    u := Frame(s, deps.llm);
    if u.Failure? {
      return Failure(u.error);
    }
    s := Apply(s, u.value);
    u := Hypothesize(s, deps.llm);
    if u.Failure? {
      return Failure(u.error);
    }
    s := Apply(s, u.value);
    r := Success(s);
  }

  /** One investigate → analyze cycle. */
  method Cycle(s: InvestigationState, deps: Deps) returns (r: Result<InvestigationState>)
    requires s.iteration.Some?
    ensures r.Success? ==>
              && r.value.iteration == Some(s.iteration.value + 1)
              && r.value.maxIterations == s.maxIterations
              && r.value.rootCauseFound.Some?
              && s.evidence <= r.value.evidence
              && r.value.alert == s.alert && r.value.status == s.status
  {
    var u := Investigate(s, deps.http, deps.now);
    if u.Failure? {
      return Failure(u.error);
    }
    var t := Apply(s, u.value);
    assert t.iteration == Some(s.iteration.value + 1);
    assert t.maxIterations == s.maxIterations && t.alert == s.alert && t.status == s.status;
    u := Analyze(t, deps.llm);
    if u.Failure? {
      return Failure(u.error);
    }
    assert u.value.iteration.None? && u.value.maxIterations.None? && u.value.alert.None? && u.value.status.None?;
    r := Success(Apply(t, u.value));
  }

  /** The compiled graph's run: after the prelude the cycle repeats while
      the routing says so. The run stops after at most max(1, bound)
      cycles, ends resolved exactly when a root cause was found, and
      escalates only once the bound is reached. */
  method Run(init: InvestigationState, deps: Deps) returns (r: Result<InvestigationState>)
    ensures init.alert.None? ==> r.Failure?
    ensures r.Success? ==>
              && r.value.iteration.Some?
              && 1 <= r.value.iteration.value <= Max(1, MaxIter(init))
              && (r.value.status == Some("resolved") || r.value.status == Some("escalated"))
              && (r.value.status == Some("resolved") <==> r.value.rootCauseFound == Some(true))
              && (r.value.status == Some("escalated") ==> r.value.iteration.value >= MaxIter(init))
              && r.value.rcaReport.Some?
              && init.evidence <= r.value.evidence
    ensures r.Success? ==>
              && "title" in r.value.rcaReport.value
              && "status" in r.value.rcaReport.value
              && r.value.rcaReport.value["status"] == JStr("investigating")
    ensures r.Success? && r.value.status == Some("escalated") ==>
              && "escalated" in r.value.rcaReport.value
              && r.value.rcaReport.value["escalated"] == JBool(true)
              && "escalation_reason" in r.value.rcaReport.value
              && r.value.rcaReport.value["escalation_reason"] == JStr(EscalationReason(r.value, deps.percent))
  {
    var p := Prelude(init, deps);
    if p.Failure? {
      return Failure(p.error);
    }
    var s := p.value;
    while true
      invariant s.iteration.Some? && 0 <= s.iteration.value < Max(1, MaxIter(init))
      invariant s.maxIterations == init.maxIterations
      invariant init.evidence <= s.evidence
      invariant s.status == Some("investigating")
      decreases Max(1, MaxIter(init)) - s.iteration.value
    {
      var c := Cycle(s, deps);
      if c.Failure? {
        return Failure(c.error);
      }
      s := c.value;
      if ShouldContinue(s) != ToInvestigate {
        r := Conclude(s, deps);
        return;
      }
    }
  }
}
