/** Hypotheses and their test plans (agent/hypothesis/models.py). A
    likelihood is a real number in [0, 1]; the LLM's JSON is first decoded
    into a draft, whose optional fields are absent when the JSON omits them,
    and validation turns a draft into a Hypothesis. */
module HypothesisModels {
  import opened Common

  datatype HypothesisStatus = Pending | Investigating | Confirmed | Rejected | Inconclusive {
    function Value(): string {
      match this
      case Pending => "pending"
      case Investigating => "investigating"
      case Confirmed => "confirmed"
      case Rejected => "rejected"
      case Inconclusive => "inconclusive"
    }
  }

  /** The enum member whose value is `s`, if any. */
  function StatusOf(s: string): (r: Option<HypothesisStatus>)
    ensures r.Some? ==> r.value.Value() == s
    ensures r.None? ==> forall st: HypothesisStatus :: st.Value() != s
  {
    if s == "pending" then Some(Pending)
    else if s == "investigating" then Some(Investigating)
    else if s == "confirmed" then Some(Confirmed)
    else if s == "rejected" then Some(Rejected)
    else if s == "inconclusive" then Some(Inconclusive)
    else None
  }

  /** A planned query: which backend, the query text, and why. */
  datatype InvestigationQuery = InvestigationQuery(tool: string, query: string, purpose: string)

  type Likelihood = r: real | 0.0 <= r <= 1.0

  datatype Hypothesis = Hypothesis(
    id: string,
    title: string,
    description: string,
    likelihood: Likelihood,
    status: HypothesisStatus,
    supportingEvidence: seq<string>,
    contradictingEvidence: seq<string>,
    queries: seq<InvestigationQuery>,
    verdict: string)

  /** A Hypothesis built from its required fields; the others take their
      declared defaults. */
  function NewHypothesis(id: string, title: string, description: string, likelihood: Likelihood): (h: Hypothesis)
    ensures h.id == id && h.title == title && h.description == description && h.likelihood == likelihood
    ensures h.status == Pending && h.verdict == ""
    ensures h.supportingEvidence == [] && h.contradictingEvidence == [] && h.queries == []
  {
    Hypothesis(id, title, description, likelihood, Pending, [], [], [], "")
  }

  /** One element of the LLM's JSON array, decoded but not validated: the
      required fields are present (decoding fails otherwise), the optional
      ones are None when absent. */
  datatype HypothesisDraft = HypothesisDraft(
    id: string,
    title: string,
    description: string,
    likelihood: real,
    status: Option<string>,
    supportingEvidence: Option<seq<string>>,
    contradictingEvidence: Option<seq<string>>,
    queries: Option<seq<InvestigationQuery>>,
    verdict: Option<string>)

  /** `Hypothesis.model_validate`: the likelihood must lie in [0, 1] and the
      status, when given, must be one of the five values; absent fields take
      their defaults. */
  function Validate(d: HypothesisDraft): (r: Result<Hypothesis>)
    ensures r.Success? <==>
              0.0 <= d.likelihood <= 1.0 && (d.status.Some? ==> StatusOf(d.status.value).Some?)
    ensures r.Success? ==>
              && r.value.id == d.id && r.value.title == d.title && r.value.description == d.description
              && r.value.likelihood == d.likelihood
              && (d.status.None? ==> r.value.status == Pending)
              && (d.status.Some? ==> r.value.status.Value() == d.status.value)
              && r.value.supportingEvidence == d.supportingEvidence.GetOr([])
              && r.value.contradictingEvidence == d.contradictingEvidence.GetOr([])
              && r.value.queries == d.queries.GetOr([])
              && r.value.verdict == d.verdict.GetOr("")
  {
    if !(0.0 <= d.likelihood <= 1.0) then Failure("likelihood: Input should be between 0 and 1")
    else
      var status := if d.status.None? then Some(Pending) else StatusOf(d.status.value);
      if status.None? then Failure("status: Input should be a valid HypothesisStatus")
      else Success(Hypothesis(d.id, d.title, d.description, d.likelihood, status.value,
                              d.supportingEvidence.GetOr([]), d.contradictingEvidence.GetOr([]),
                              d.queries.GetOr([]), d.verdict.GetOr("")))
  }

  /** `[Hypothesis.model_validate(h) for h in parsed]`: the first invalid
      element makes the whole comprehension raise. */
  function ValidateAll(ds: seq<HypothesisDraft>): (r: Result<seq<Hypothesis>>)
    ensures r.Success? <==> forall i :: 0 <= i < |ds| ==> Validate(ds[i]).Success?
    ensures r.Success? ==> |r.value| == |ds| && forall i :: 0 <= i < |ds| ==> Validate(ds[i]) == Success(r.value[i])
  {
    if ds == [] then Success([])
    else
      var h := Validate(ds[0]);
      if h.Failure? then Failure(h.error)
      else
        var rest := ValidateAll(ds[1..]);
        assert forall i :: 1 <= i < |ds| ==> ds[i] == ds[1..][i - 1];
        if rest.Failure? then Failure(rest.error) else Success([h.value] + rest.value)
  }
}
