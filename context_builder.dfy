/** The enrichment context of an investigation (agent/enrichment/context.py):
    the alert, the text of the runbook chunks and past incidents the
    knowledge store finds for it, and the live-signal correlation around
    its start time. The knowledge store is optional; its searches are
    oracles returning ranked hits, or the error the vector store's query
    raised, which the builder lets propagate. */
module ContextBuilder {
  import opened Common
  import opened IngestionModels
  import opened HttpApi
  import opened Correlator

  /** One search hit of the vector store. */
  datatype KnowledgeHit = KnowledgeHit(content: string, metadata: Json)

  datatype Knowledge = Knowledge(
    searchRunbooks: string -> Result<seq<KnowledgeHit>>,
    searchIncidents: string -> Result<seq<KnowledgeHit>>)

  datatype Context = Context(
    alert: NormalizedAlert,
    runbookContext: seq<string>,
    pastIncidents: seq<string>,
    correlation: Correlation)

  /** The text searched for: name, summary and description, separated by
      single spaces. */
  function SearchQuery(alert: NormalizedAlert): (q: string)
    ensures |q| == |alert.name| + |alert.summary| + |alert.description| + 2
    ensures q[..|alert.name|] == alert.name && q[|alert.name|] == ' '
    ensures q[|alert.name| + 1..|alert.name| + 1 + |alert.summary|] == alert.summary
    ensures q[|alert.name| + 1 + |alert.summary|] == ' '
    ensures q[|q| - |alert.description|..] == alert.description
  {
    alert.name + " " + alert.summary + " " + alert.description
  }

  function Contents(hits: seq<KnowledgeHit>): seq<string> {
    Map((h: KnowledgeHit) => h.content, hits)
  }

  /** `build`: without a knowledge store both lists are empty; with one,
      each holds the content of every hit, in rank order, and an error of
      either search (runbooks first) is the error of the whole build. The
      correlation never fails. */
  function Build(alert: NormalizedAlert, knowledge: Option<Knowledge>, http: Http): (c: Result<Context>)
    ensures knowledge.None? ==> c.Success? && c.value.runbookContext == [] && c.value.pastIncidents == []
    ensures knowledge.Some? ==>
              var runbooks := knowledge.value.searchRunbooks(SearchQuery(alert));
              var incidents := knowledge.value.searchIncidents(SearchQuery(alert));
              && (c.Success? <==> runbooks.Success? && incidents.Success?)
              && (runbooks.Failure? ==> c.error == runbooks.error)
              && (runbooks.Success? && incidents.Failure? ==> c.error == incidents.error)
              && (c.Success? ==>
                    && |c.value.runbookContext| == |runbooks.value|
                    && (forall i :: 0 <= i < |runbooks.value| ==> c.value.runbookContext[i] == runbooks.value[i].content)
                    && |c.value.pastIncidents| == |incidents.value|
                    && (forall i :: 0 <= i < |incidents.value| ==> c.value.pastIncidents[i] == incidents.value[i].content))
    ensures c.Success? ==> c.value.alert == alert && c.value.correlation == Correlate(http, alert.name, alert.startsAt)
  {
    var query := SearchQuery(alert);
    var runbooks :- if knowledge.Some? then knowledge.value.searchRunbooks(query) else Success([]);
    var incidents :- if knowledge.Some? then knowledge.value.searchIncidents(query) else Success([]);
    Success(Context(alert, Contents(runbooks), Contents(incidents), Correlate(http, alert.name, alert.startsAt)))
  }
}
