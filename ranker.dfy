/** Re-ranking after new evidence (agent/hypothesis/ranker.py): the LLM's
    reply to the current hypotheses and the evidence goes through the same
    post-processing as generation; the evidence records are opaque here. Which hypotheses are confirmed is only
    logged. */
module Ranker {
  import opened Common
  import opened HypothesisModels
  import opened LlmText
  import opened Generator

  /** `rerank_hypotheses`. The result is whatever the reply describes: its
      length follows the decoded array, not the hypotheses passed in. */
  function RerankHypotheses<E>(hypotheses: seq<Hypothesis>, evidence: seq<E>,
                               llm: (seq<Hypothesis>, seq<E>) -> string,
                            decode: string -> Result<seq<HypothesisDraft>>): (r: Result<seq<Hypothesis>>)
    ensures var reply := StripFences(llm(hypotheses, evidence));
      r.Success? ==>
        && reply.Success? && decode(reply.value).Success?
        && var hs := ValidateAll(decode(reply.value).value);
        && hs.Success? && SortedDesc(r.value)
        && |r.value| == |decode(reply.value).value|
        && multiset(r.value) == multiset(hs.value)
        && forall v :: WithLikelihood(r.value, v) == WithLikelihood(hs.value, v)
    ensures var reply := StripFences(llm(hypotheses, evidence));
      (reply.Success? && decode(reply.value).Success? && ValidateAll(decode(reply.value).value).Success?)
      ==> r.Success?
  {
    RankedFromReply(llm(hypotheses, evidence), decode)
  }

  /** A reply describing fewer hypotheses than were sent is accepted as is:
      here the hypotheses sent are dropped altogether. */
  lemma RerankMayChangeCount<E>(hypotheses: seq<Hypothesis>, evidence: seq<E>)
    ensures RerankHypotheses(hypotheses, evidence, (h, e) => "[]", raw => Success([])) == Success([])
  {
    assert "[]"[0] == '[';
    StripKeeps("[]");
    assert !StartsWith("[]", Fence);
  }

  /** Whatever the LLM replies and however it decodes, one decoded element
      with a likelihood outside [0, 1] or an unknown status makes the
      re-ranking fail: `model_validate` raises and nothing is returned. */
  lemma RerankRejectsInvalid<E>(hypotheses: seq<Hypothesis>, evidence: seq<E>,
                                llm: (seq<Hypothesis>, seq<E>) -> string,
                                decode: string -> Result<seq<HypothesisDraft>>)
    ensures var reply := StripFences(llm(hypotheses, evidence));
      (&& reply.Success? && decode(reply.value).Success?
       && exists i :: 0 <= i < |decode(reply.value).value| && Validate(decode(reply.value).value[i]).Failure?)
      ==> RerankHypotheses(hypotheses, evidence, llm, decode).Failure?
    ensures var reply := StripFences(llm(hypotheses, evidence));
      (&& reply.Success? && decode(reply.value).Success?
       && exists i :: 0 <= i < |decode(reply.value).value| && !(0.0 <= decode(reply.value).value[i].likelihood <= 1.0))
      ==> RerankHypotheses(hypotheses, evidence, llm, decode).Failure?
  {
  }
}
