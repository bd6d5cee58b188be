/** The state that flows through the investigation graph
    (agent/investigation/state.py). Every key may be absent (None), except
    `evidence`: it is the one channel with a reducer, `_merge_lists`, so it
    starts empty and every update is appended to it. Every other key of an
    update replaces the old value. */
module State {
  import opened Common
  import opened IngestionModels
  import opened HypothesisModels
  import opened Correlator
  import opened ContextBuilder
  import opened Executor

  datatype InvestigationState = InvestigationState(
    alert: Option<NormalizedAlert>,
    context: Option<Context>,
    runbookContext: Option<seq<string>>,
    pastIncidents: Option<seq<string>>,
    correlation: Option<Correlation>,
    problemFrame: Option<Json>,
    hypotheses: Option<seq<Hypothesis>>,
    evidence: seq<EvidenceRecord>,
    iteration: Option<int>,
    maxIterations: Option<int>,
    rootCauseFound: Option<bool>,
    confidence: Option<real>,
    rcaReport: Option<map<string, Json>>,
    status: Option<string>,
    error: Option<string>)

  /** The partial dict a node returns: None for every key it leaves out. */
  datatype Update = Update(
    alert: Option<NormalizedAlert>,
    context: Option<Context>,
    runbookContext: Option<seq<string>>,
    pastIncidents: Option<seq<string>>,
    correlation: Option<Correlation>,
    problemFrame: Option<Json>,
    hypotheses: Option<seq<Hypothesis>>,
    evidence: Option<seq<EvidenceRecord>>,
    iteration: Option<int>,
    maxIterations: Option<int>,
    rootCauseFound: Option<bool>,
    confidence: Option<real>,
    rcaReport: Option<map<string, Json>>,
    status: Option<string>,
    error: Option<string>)

  /** The update that sets nothing. */
  const NoUpdate: Update := Update(None, None, None, None, None, None, None, None, None, None, None, None, None, None, None)

  /** `_merge_lists`: the old list followed by the new one. */
  function MergeLists<T>(left: seq<T>, right: seq<T>): (r: seq<T>)
    ensures |r| == |left| + |right|
    ensures r[..|left|] == left && r[|left|..] == right
  {
    left + right
  }

  /** Merging with the empty list changes nothing, and merging is associative. */
  lemma MergeListsMonoid<T>(a: seq<T>, b: seq<T>, c: seq<T>)
    ensures MergeLists(a, []) == a && MergeLists([], a) == a
    ensures MergeLists(MergeLists(a, b), c) == MergeLists(a, MergeLists(b, c))
  {
  }

  /** A key without a reducer: the update's value when it has one. */
  function Overwrite<T>(prev: Option<T>, next: Option<T>): Option<T> {
    if next.Some? then next else prev
  }

  /** The state after a node's update. */
  function Apply(s: InvestigationState, u: Update): (r: InvestigationState)
    ensures r.evidence == MergeLists(s.evidence, u.evidence.GetOr([]))
    ensures u.iteration.Some? ==> r.iteration == u.iteration
    ensures u.iteration.None? ==> r.iteration == s.iteration
    ensures u.status.Some? ==> r.status == u.status
    ensures u.status.None? ==> r.status == s.status
  {
    InvestigationState(
      Overwrite(s.alert, u.alert),
      Overwrite(s.context, u.context),
      Overwrite(s.runbookContext, u.runbookContext),
      Overwrite(s.pastIncidents, u.pastIncidents),
      Overwrite(s.correlation, u.correlation),
      Overwrite(s.problemFrame, u.problemFrame),
      Overwrite(s.hypotheses, u.hypotheses),
      MergeLists(s.evidence, u.evidence.GetOr([])),
      Overwrite(s.iteration, u.iteration),
      Overwrite(s.maxIterations, u.maxIterations),
      Overwrite(s.rootCauseFound, u.rootCauseFound),
      Overwrite(s.confidence, u.confidence),
      Overwrite(s.rcaReport, u.rcaReport),
      Overwrite(s.status, u.status),
      Overwrite(s.error, u.error))
  }

  /** Evidence only accumulates: whatever the updates, the evidence before
      them is a prefix of the evidence after, and the evidence an update
      brings is at the end. */
  lemma {:induction false} EvidenceAccumulates(s: InvestigationState, us: seq<Update>)
    ensures s.evidence <= ApplyAll(s, us).evidence
    ensures |ApplyAll(s, us).evidence| == |s.evidence| + EvidenceCount(us)
  {
    if us != [] {
      var init := us[..|us| - 1];
      EvidenceAccumulates(s, init);
    }
  }

  /** A run of updates, applied in order. */
  function ApplyAll(s: InvestigationState, us: seq<Update>): InvestigationState {
    if us == [] then s else Apply(ApplyAll(s, us[..|us| - 1]), us[|us| - 1])
  }

  /** The number of records a run of updates brings. */
  function EvidenceCount(us: seq<Update>): nat {
    if us == [] then 0 else EvidenceCount(us[..|us| - 1]) + |us[|us| - 1].evidence.GetOr([])|
  }

  /** An update that leaves out every key leaves the state as it is. */
  lemma ApplyNothing(s: InvestigationState)
    ensures Apply(s, NoUpdate) == s
  {
  }

  /** Applying the same update twice is applying it once, except that its
      evidence is appended twice: only the reducer key accumulates. */
  lemma ApplyTwice(s: InvestigationState, u: Update)
    ensures Apply(Apply(s, u), u).(evidence := []) == Apply(s, u).(evidence := [])
    ensures Apply(Apply(s, u), u).evidence == s.evidence + u.evidence.GetOr([]) + u.evidence.GetOr([])
  {
  }
}
