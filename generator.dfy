/** Hypothesis generation (agent/hypothesis/generator.py) and the
    post-processing it shares with re-ranking: the LLM's reply is stripped
    of its code fence, decoded into drafts, every draft is validated, and the
    hypotheses are sorted by descending likelihood with a stable sort. The
    LLM is a function from its inputs to the reply text; `decode` stands for
    `json.loads` followed by reading each element's fields, and fails on
    malformed JSON or a missing required field. */
module Generator {
  import opened Common
  import opened HypothesisModels
  import opened LlmText

  /** Non-increasing likelihood from left to right. */
  predicate SortedDesc(s: seq<Hypothesis>) {
    forall i, j :: 0 <= i < j < |s| ==> s[i].likelihood >= s[j].likelihood
  }

  /** The elements whose likelihood is exactly `v`, in order. */
  function WithLikelihood(s: seq<Hypothesis>, v: real): (r: seq<Hypothesis>)
    ensures forall h :: h in r ==> h in s && h.likelihood == v
  {
    if s == [] then []
    else (if s[0].likelihood == v then [s[0]] else []) + WithLikelihood(s[1..], v)
  }

  /** Places `x` after every element of `t` whose likelihood is at least
      its own. */
  function InsertDesc(x: Hypothesis, t: seq<Hypothesis>): seq<Hypothesis> {
    if t == [] then [x]
    else if t[0].likelihood >= x.likelihood then [t[0]] + InsertDesc(x, t[1..])
    else [x] + t
  }

  /** `list.sort(key=lambda h: h.likelihood, reverse=True)`: each element in
      turn is inserted behind the earlier ones of at least its likelihood. */
  function SortByLikelihood(s: seq<Hypothesis>): seq<Hypothesis> {
    if s == [] then [] else InsertDesc(s[|s| - 1], SortByLikelihood(s[..|s| - 1]))
  }

  /** Inserting adds exactly `x`. */
  lemma {:induction false} InsertDescElems(x: Hypothesis, t: seq<Hypothesis>)
    ensures multiset(InsertDesc(x, t)) == multiset(t) + multiset{x}
    ensures |InsertDesc(x, t)| == |t| + 1
  {
    if t != [] {
      assert t == [t[0]] + t[1..];
      if t[0].likelihood >= x.likelihood {
        InsertDescElems(x, t[1..]);
      }
    }
  }

  /** The tail of a sorted sequence is sorted and bounded by its head. */
  lemma SortedTail(t: seq<Hypothesis>)
    requires SortedDesc(t) && t != []
    ensures SortedDesc(t[1..])
    ensures forall y :: y in t ==> t[0].likelihood >= y.likelihood
  {
    forall i, j | 0 <= i < j < |t[1..]| ensures t[1..][i].likelihood >= t[1..][j].likelihood {
      assert t[1..][i] == t[i + 1] && t[1..][j] == t[j + 1];
    }
  }

  /** A head at least as likely as every element of a sorted tail keeps it
      sorted. */
  lemma SortedCons(h: Hypothesis, r: seq<Hypothesis>)
    requires SortedDesc(r) && forall y :: y in r ==> h.likelihood >= y.likelihood
    ensures SortedDesc([h] + r)
  {
    forall i, j | 0 <= i < j < |r| + 1 ensures ([h] + r)[i].likelihood >= ([h] + r)[j].likelihood {
      if i == 0 {
        assert ([h] + r)[j] == r[j - 1] && r[j - 1] in r;
      } else {
        assert ([h] + r)[i] == r[i - 1] && ([h] + r)[j] == r[j - 1];
      }
    }
  }

  lemma {:induction false} InsertDescSorted(x: Hypothesis, t: seq<Hypothesis>)
    requires SortedDesc(t)
    ensures SortedDesc(InsertDesc(x, t))
  {
    if t != [] {
      SortedTail(t);
      if t[0].likelihood >= x.likelihood {
        InsertDescSorted(x, t[1..]);
        InsertDescElems(x, t[1..]);
        var r := InsertDesc(x, t[1..]);
        forall y | y in r ensures t[0].likelihood >= y.likelihood {
          assert y in multiset(r);
          assert y == x || y in multiset(t[1..]);
        }
        SortedCons(t[0], r);
      } else {
        SortedCons(x, t);
      }
    }
  }

  /** The filter splits over a concatenation. */
  lemma {:induction false} WithLikelihoodAppend(a: seq<Hypothesis>, b: seq<Hypothesis>, v: real)
    ensures WithLikelihood(a + b, v) == WithLikelihood(a, v) + WithLikelihood(b, v)
  {
    if a == [] {
      assert a + b == b;
    } else {
      assert (a + b)[0] == a[0] && (a + b)[1..] == a[1..] + b;
      WithLikelihoodAppend(a[1..], b, v);
    }
  }

  /** The filter on a sequence with a known head. */
  lemma WithLikelihoodCons(h: Hypothesis, r: seq<Hypothesis>, v: real)
    ensures WithLikelihood([h] + r, v) == (if h.likelihood == v then [h] else []) + WithLikelihood(r, v)
  {
    assert ([h] + r)[0] == h && ([h] + r)[1..] == r;
  }

  /** The inductive step of `InsertDescStable` when `x` goes behind the head. */
  lemma InsertBehindHead(x: Hypothesis, t: seq<Hypothesis>, v: real)
    requires t != [] && t[0].likelihood >= x.likelihood
    requires WithLikelihood(InsertDesc(x, t[1..]), v)
             == WithLikelihood(t[1..], v) + (if x.likelihood == v then [x] else [])
    ensures WithLikelihood(InsertDesc(x, t), v)
            == WithLikelihood(t, v) + (if x.likelihood == v then [x] else [])
  {
    assert InsertDesc(x, t) == [t[0]] + InsertDesc(x, t[1..]);
    WithLikelihoodCons(t[0], InsertDesc(x, t[1..]), v);
    assert t == [t[0]] + t[1..];
    WithLikelihoodCons(t[0], t[1..], v);
  }

  /** `InsertDescStable` when `x` goes in front of the head. */
  lemma InsertBeforeHead(x: Hypothesis, t: seq<Hypothesis>, v: real)
    requires t != [] && t[0].likelihood < x.likelihood
    requires x.likelihood == v ==> WithLikelihood(t, v) == []
    ensures WithLikelihood(InsertDesc(x, t), v)
            == WithLikelihood(t, v) + (if x.likelihood == v then [x] else [])
  {
    assert InsertDesc(x, t) == [x] + t;
    WithLikelihoodCons(x, t, v);
  }

  /** Inserting into a sorted sequence puts `x` behind every element of its
      own likelihood. */
  lemma {:induction false} InsertDescStable(x: Hypothesis, t: seq<Hypothesis>, v: real)
    requires SortedDesc(t)
    ensures WithLikelihood(InsertDesc(x, t), v)
            == WithLikelihood(t, v) + (if x.likelihood == v then [x] else [])
  {
    if t != [] {
      if t[0].likelihood >= x.likelihood {
        SortedTail(t);
        InsertDescStable(x, t[1..], v);
        InsertBehindHead(x, t, v);
      } else {
        // every element of t is below x's likelihood
        if x.likelihood == v {
          NoneWithLikelihood(t, v);
        }
        InsertBeforeHead(x, t, v);
      }
    }
  }

  /** A sorted sequence whose head is below `v` has no element of likelihood `v`. */
  lemma {:induction false} NoneWithLikelihood(t: seq<Hypothesis>, v: real)
    requires SortedDesc(t) && t != [] && t[0].likelihood < v
    ensures WithLikelihood(t, v) == []
  {
    if |t| > 1 {
      SortedTail(t);
      assert t[1] == t[1..][0];
      NoneWithLikelihood(t[1..], v);
    }
  }

  /** The sort yields a sorted permutation of its input. */
  lemma {:induction false} SortSortedPermutation(s: seq<Hypothesis>)
    ensures SortedDesc(SortByLikelihood(s))
    ensures multiset(SortByLikelihood(s)) == multiset(s)
    ensures |SortByLikelihood(s)| == |s|
  {
    if s != [] {
      var init, x := s[..|s| - 1], s[|s| - 1];
      SortSortedPermutation(init);
      var t := SortByLikelihood(init);
      assert SortByLikelihood(s) == InsertDesc(x, t);
      InsertDescSorted(x, t);
      InsertDescElems(x, t);
      SnocSplit(s);
    }
  }

  /** The sort keeps the input order among hypotheses of likelihood `v`. */
  lemma {:induction false} SortStable(s: seq<Hypothesis>, v: real)
    ensures WithLikelihood(SortByLikelihood(s), v) == WithLikelihood(s, v)
  {
    if s != [] {
      var init, x := s[..|s| - 1], s[|s| - 1];
      var t := SortByLikelihood(init);
      var e := if x.likelihood == v then [x] else [];
      SortSortedPermutation(init);
      calc {
        WithLikelihood(SortByLikelihood(s), v);
        WithLikelihood(InsertDesc(x, t), v);
        { InsertDescStable(x, t, v); }
        WithLikelihood(t, v) + e;
        { SortStable(init, v); }
        WithLikelihood(init, v) + e;
        { WithLikelihoodCons(x, [], v); assert [x] + [] == [x]; }
        WithLikelihood(init, v) + WithLikelihood([x], v);
        { WithLikelihoodAppend(init, [x], v); }
        WithLikelihood(init + [x], v);
        { SnocSplit(s); }
        WithLikelihood(s, v);
      }
    }
  }

  /** The sort yields a sorted permutation of its input that keeps the
      input order among hypotheses of equal likelihood. */
  lemma SortByLikelihoodCorrect(s: seq<Hypothesis>)
    ensures SortedDesc(SortByLikelihood(s))
    ensures multiset(SortByLikelihood(s)) == multiset(s)
    ensures |SortByLikelihood(s)| == |s|
    ensures forall v :: WithLikelihood(SortByLikelihood(s), v) == WithLikelihood(s, v)
  {
    SortSortedPermutation(s);
    forall v ensures WithLikelihood(SortByLikelihood(s), v) == WithLikelihood(s, v) {
      SortStable(s, v);
    }
  }

  /** The post-processing of a reply: fence strip, decoding, validation of
      every element, then the stable sort. */
  function RankedFromReply(reply: string, decode: string -> Result<seq<HypothesisDraft>>)
    : (r: Result<seq<Hypothesis>>)
    ensures r.Success? <==>
              && StripFences(reply).Success?
              && decode(StripFences(reply).value).Success?
              && ValidateAll(decode(StripFences(reply).value).value).Success?
    ensures r.Success? ==>
              var hs := ValidateAll(decode(StripFences(reply).value).value).value;
              && SortedDesc(r.value)
              && multiset(r.value) == multiset(hs)
              && |r.value| == |decode(StripFences(reply).value).value|
              && forall v :: WithLikelihood(r.value, v) == WithLikelihood(hs, v)
  {
    var raw :- StripFences(reply);
    var drafts :- decode(raw);
    var hs :- ValidateAll(drafts);
    SortByLikelihoodCorrect(hs);
    Success(SortByLikelihood(hs))
  }

  /** `generate_hypotheses`: the reply of the LLM to the problem frame and
      the context, post-processed; the frame and the context are opaque
      here. Nothing bounds the number of hypotheses: there is one per element
      of the decoded array. */
  function GenerateHypotheses<F, C>(frame: F, context: C, llm: (F, C) -> string,
                              decode: string -> Result<seq<HypothesisDraft>>): (r: Result<seq<Hypothesis>>)
    ensures var reply := StripFences(llm(frame, context));
      r.Success? <==>
        && reply.Success? && decode(reply.value).Success?
        && ValidateAll(decode(reply.value).value).Success?
    ensures var reply := StripFences(llm(frame, context));
      r.Success? ==>
        var hs := ValidateAll(decode(reply.value).value).value;
        && SortedDesc(r.value)
        && |r.value| == |decode(reply.value).value|
        && multiset(r.value) == multiset(hs)
        && forall v :: WithLikelihood(r.value, v) == WithLikelihood(hs, v)
    ensures StripFences(llm(frame, context)).Failure? ==> r.Failure?
  {
    RankedFromReply(llm(frame, context), decode)
  }
}
