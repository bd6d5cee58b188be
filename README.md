# SRE agent — a Dafny model of its core

This project models the core of the SRE agent, an alert-investigation service. It covers five parts:

- **Intake.** Alertmanager webhooks are normalized. Firing alerts are deduplicated on a per-key marker that expires after 300 s, and enqueued on a Redis stream.
- **Worker.** The worker consumes the stream through a consumer group. It has at most 3 investigations running at once, and it acknowledges every dispatched entry whatever the outcome.
- **Investigation graph.** The graph runs `enrich → frame → hypothesize → (investigate → analyze)* → report | escalate`. Its state merges the `evidence` list by concatenation and overwrites every other key.
- **Executor.** The executor runs every planned query of every open hypothesis against Prometheus, Loki or Tempo. A failure becomes an error record.
- **Deterministic shaping.** This is the code around the opaque calls:
  - stripping code fences and sorting by likelihood;
  - stamping facts onto the RCA report;
  - flattening Loki streams and Tempo spans;
  - mapping Prometheus status;
  - summarising the correlation.

The outside world is a set of parameters:

- the LLM replies;
- JSON and pydantic decoding;
- the HTTP responses of the three backends (the datatype `HttpApi.Http` holds one function per endpoint);
- `strptime`;
- uuid hex strings;
- the clock, as an integer `now` in seconds.

Redis is a class, `RedisStore.Redis`. It holds:

- a marker map from key to expiry;
- the stream as a sequence of entries;
- the consumer group's cursor;
- the ack log.

**Imperative code.** When the source works step by step, the model does too. Examples: the worker's poll loop, the producer's set-if-absent followed by XADD, the receiver's loop, Loki's stream flattening, Tempo's span flattening, the executor's loops and the graph's run. These become methods with loops. Most are proved equal to a specification function, or state their whole effect on the store. The exceptions are the worker's scheduler (`HandleEvent`, `PollLoop`) and the graph's run (`Graph.Run`). Their contracts state the invariant they keep and the facts listed below, not their whole effect.

**Pure code.** Comprehensions and conditional dict construction become functions.

## What the model proves

**The investigation loop terminates.** `Graph.Run` always terminates. A run that completes has run the investigate/analyze cycle between 1 and max(1, `max_iterations`) times; a run can also fail before any cycle, for instance without an alert. `max_iterations` defaults to 6.

**How the run ends.**
- It ends "resolved" exactly when a root cause is confirmed.
- It ends "escalated" only once the iteration count has reached the bound.
- The evidence the run started with is a prefix of the evidence it ends with.

**A consequence of `rca.py:72`.** The report's stamped status is always the state's "investigating". The reason:
- `rca.py:72` copies the state's current status.
- The report and escalate nodes set the new status only after the report is built.

So `ArtifactStore.feed_back_to_knowledge`, which only accepts "resolved" reports, never stores an incident. `Service.RunInvestigation` proves this. This is very likely a defect; it is recorded under "## Findings". `Service.RunInvestigationIntended` stamps the final status instead, and proves that exactly the runs that found a root cause are then fed back.

**Worker.**
- Every entry delivered since the worker started is in exactly one place: acknowledged, a pending job, or set aside as undecodable. So no entry is acknowledged twice.
- The semaphore counter always equals the bound minus the jobs holding a slot.

**Webhook.**
- Every firing alert's id goes into `enqueued` or into `deduplicated`.
- An alert is enqueued exactly when its key had no live marker and no earlier alert of the same request with that key was enqueued.

## Model

| member | source | states |
|---|---|---|
| IngestionModels.NewRawAlert | agent/ingestion/models.py:23-32 | a raw alert carries the given status and labels; annotations default to {} and the other string fields to "" |
| IngestionModels.DefaultPayload | agent/ingestion/models.py:35-46 | an Alertmanager payload defaults to version "4", status "firing", no alerts and empty labels, annotations and strings |
| IngestionModels.GeneratedId | agent/ingestion/models.py:52 | the default alert id is a 12-character lower-case hex string taken from the front of a uuid's hex form |
| IngestionModels.NewNormalizedAlert | agent/ingestion/models.py:49-64 | a normalized alert defaults to source "alertmanager", empty summary, description, generator URL and fingerprint, no labels, no end time |
| Normalizer.SeverityRule | agent/ingestion/normalizer.py:37-40 | the severity is critical or info exactly when the lower-cased `severity` label says so, and warning for any other value and for a missing label |
| Normalizer.FirstMatch | agent/ingestion/normalizer.py:28-32 | the first format, in order, that parses the text; none exactly when no format parses it |
| Normalizer.ParseTsRule | agent/ingestion/normalizer.py:25-33 | an empty or zero timestamp, or one no format accepts, gives `now`; otherwise the first of the three formats that parses wins |
| Normalizer.ParseTimestamp | agent/ingestion/normalizer.py:25-33 | the loop over the formats computes exactly the rule above |
| Normalizer.NormalizeRawAlertFields | agent/ingestion/normalizer.py:36-50 | name from `alertname` or "unknown"; firing exactly when the status is "firing" verbatim; summary and description are the annotations when present and "" otherwise; labels, fingerprint, generator URL, the id and the raw alert are kept; the start time is the parsed `startsAt`; an end time, the parsed `endsAt`, exactly when `endsAt` is non-empty |
| Normalizer.KeptIndicesShape | agent/ingestion/normalizer.py:55-60 | the positions the loop keeps are increasing, in range, and exactly those whose normalization did not raise |
| Normalizer.KeepMapIsKept | agent/ingestion/normalizer.py:55-60 | the k-th normalized alert is the normalization of the k-th kept raw alert |
| Normalizer.NoFailuresKeepsAll | agent/ingestion/normalizer.py:55-60 | when nothing raises, every position is kept |
| Normalizer.NormalizePayload | agent/ingestion/normalizer.py:53-61 | one alert per raw alert that normalized without raising, in input order, never more than the input; with no failures, exactly one per raw alert |
| Producer.DedupKey | agent/queue/producer.py:22 | the key is the prefix plus the fingerprint, or plus the name when the fingerprint is empty |
| Producer.DedupKeyGrouping | agent/queue/producer.py:22 | alerts with the same non-empty fingerprint share a key; without fingerprints, keys agree exactly when the names do |
| Producer.EnqueueAlert | agent/queue/producer.py:15-41 | with a live marker: deduplicated, nothing changes; otherwise the marker is set to expire after the window, then one entry holding the alert's JSON is appended under the next id, which is returned and becomes the last id; if the append raises, the marker stays, no entry is added and the last id is unchanged; if the SET raises, nothing changes |
| Producer.EnqueueTwiceWithinWindow | agent/queue/producer.py:23-34 | two alerts with one key inside the window, the key being new: exactly one entry is appended and the second call is deduplicated |
| Producer.EnqueueAfterExpiry | agent/queue/producer.py:23-41 | once the window has passed, the same key is accepted again |
| RedisStore.IncreasingIdsDistinct | agent/queue/worker.py:59-64 | stream ids increase, so the ids delivered from any slice are distinct |
| RedisStore.DeliveredGrows | agent/queue/worker.py:59-64 | delivering one more entry appends exactly its id to the delivered ids |
| RedisStore.MarkerLifetime | agent/queue/producer.py:23-27 | a marker set at `now` with expiry `ttl` is live exactly before `now + ttl`, and other keys are untouched |
| RedisStore.Redis.constructor | agent/queue/redis_client.py:16-24 | the model's store starts empty and Valid: no group, no markers, no entries, no acknowledgements. The server behind `get_redis` keeps its data between runs, so the producer and worker contracts assume only Valid() of the store they are given |
| RedisStore.Redis.SetNxEx | agent/queue/producer.py:23-27 | SET NX EX succeeds exactly when no live marker exists, and then sets the expiry |
| RedisStore.Redis.XAdd | agent/queue/producer.py:36-38 | XADD appends one entry with the next id |
| RedisStore.Redis.XGroupCreate | agent/queue/worker.py:30 | creating the group succeeds exactly when it did not exist and the server is reachable; any error (BUSYGROUP or another) leaves the store as it was |
| RedisStore.Redis.XReadGroup | agent/queue/worker.py:59-64 | without the group the read raises; otherwise it delivers the next undelivered entry, or nothing when all were delivered |
| RedisStore.Redis.XAck | agent/queue/worker.py:73 | XACK records one acknowledgement |
| Receiver.FiringOf | agent/ingestion/receiver.py:21 | the firing alerts, and only they, in input order |
| Receiver.FiringOfAppend | agent/ingestion/receiver.py:21 | the firing filter distributes over concatenation, so it keeps input order |
| Receiver.SelectedAppend | agent/ingestion/receiver.py:27-32 | one more decision adds the alert to exactly the list it selects |
| Receiver.SelectedPartition | agent/ingestion/receiver.py:25-32 | the enqueued and deduplicated lists together have one entry per decided alert |
| Receiver.OfferStep | agent/ingestion/receiver.py:27-32 | offering the next firing alert keeps the dedup decision rule and the marker bookkeeping |
| Receiver.StreamStep | agent/ingestion/receiver.py:27-30 | an enqueued alert appends exactly its entry to the stream; a deduplicated one appends nothing |
| Receiver.OfferFiring | agent/ingestion/receiver.py:25-32 | each firing alert's id lands in exactly one list, in order, according to the dedup rule; the stream gains exactly the enqueued alerts' entries; afterwards the live markers are the earlier ones plus the enqueued keys; a raising SET stops the loop with the markers as they were, and a raising append stops it with that alert's marker live as well; either way the exception's text is returned |
| Receiver.AlertmanagerWebhook | agent/ingestion/receiver.py:17-39 | `received` counts the normalized alerts, `firing` the firing ones, enqueued plus deduplicated equals firing; the stream follows the dedup rule, and the live markers are the earlier ones plus the enqueued keys (plus the failing alert's key when its append raises, but not when its SET raises); the failure carries that call's exception text |
| Receiver.ManualTrigger | agent/ingestion/receiver.py:42-51 | succeeds exactly when XADD returns: the alert is appended under the next id without consulting or setting any marker, and the response names its id, name and entry; when XADD raises, the stream and the last id are unchanged |
| Worker.DeliverStep | agent/queue/worker.py:59-70 | a delivered entry is held in hand |
| Worker.AckStep | agent/queue/worker.py:71-74 | acknowledging the entry in hand keeps every delivered id in exactly one place |
| Worker.SetAsideStep | agent/queue/worker.py:76-85 | an entry whose payload fails validation is set aside, never acknowledged |
| Worker.DispatchStep | agent/queue/worker.py:76-79 | a dispatched entry becomes a job |
| Worker.RemoveJobIds | agent/queue/worker.py:106-108 | removing a finished job removes exactly its id |
| Worker.FinishStep | agent/queue/worker.py:106-108 | acknowledging a finished job keeps the accounting exact |
| Worker.InvestigationWorker.constructor | agent/queue/worker.py:21-25 | a new worker is stopped, has no task, no jobs and all 3 slots free |
| Worker.InvestigationWorker.AckedAtMostOnce | agent/queue/worker.py:73-108 | no entry delivered to the worker is acknowledged twice |
| Worker.InvestigationWorker.NeverAckedWhileHeld | agent/queue/worker.py:73-108 | an entry set aside as undecodable, or held by a running job, has not been acknowledged |
| Worker.InvestigationWorker.Start | agent/queue/worker.py:27-36 | every creation error is swallowed: the worker is running with a poll task in all cases, and the group exists afterwards exactly when it existed before or the creation reached the server |
| Worker.InvestigationWorker.Stop | agent/queue/worker.py:43-50 | the worker is no longer running, and a poll task, if any, is cancelled |
| Worker.InvestigationWorker.Dispatch | agent/queue/worker.py:76-89 | the job is added; it takes a free slot if there is one, and waits otherwise |
| Worker.InvestigationWorker.AckEmpty | agent/queue/worker.py:71-74 | an entry with a missing or empty payload is acknowledged at once |
| Worker.InvestigationWorker.SetAside | agent/queue/worker.py:76-85 | an undecodable entry is neither dispatched nor acknowledged, and the loop backs off |
| Worker.InvestigationWorker.NoteBackoff | agent/queue/worker.py:83-85 | the generic handler backs off and keeps the worker's invariant |
| Worker.InvestigationWorker.HandleEntry | agent/queue/worker.py:69-79 | an entry is either acknowledged (empty payload), dispatched (valid payload) or left unacknowledged with a back-off (invalid payload) |
| Worker.InvestigationWorker.ReadNext | agent/queue/worker.py:59-66 | the read delivers at most one entry and advances the cursor by exactly that many |
| Worker.InvestigationWorker.PollOnce | agent/queue/worker.py:57-85 | one pass: a failed read backs off, an empty read changes nothing, a delivered entry is handled as above |
| Worker.InvestigationWorker.FinishInvestigation | agent/queue/worker.py:87-108 | a finished investigation acknowledges its entry on every outcome, and its slot passes to the first waiting job |
| Worker.InvestigationWorker.SlotBound | agent/queue/worker.py:23-89 | at most 3 investigations hold a slot, and none waits while a slot is free |
| Worker.InvestigationWorker.HandleEvent | agent/queue/worker.py:43-108 | one scheduler turn keeps the invariant; only `stop` clears the running flag; at most one entry is read |
| Worker.InvestigationWorker.PollEvent | agent/queue/worker.py:57-85 | a pass of the loop reads at most one entry, and without a group it changes neither the cursor, the acks nor the jobs |
| Worker.InvestigationWorker.FinishEvent | agent/queue/worker.py:87-108 | the end of a slot-holding task acknowledges exactly its entry and removes its job; any other index changes nothing |
| Worker.InvestigationWorker.PollLoop | agent/queue/worker.py:53-85 | the loop runs only while running, stops early only after `stop`, and reads at most one entry per pass |
| HypothesisModels.StatusOf | agent/hypothesis/models.py:10-15 | a status value names exactly one of the five statuses |
| HypothesisModels.NewHypothesis | agent/hypothesis/models.py:26-37 | a hypothesis defaults to pending, no evidence, no queries and an empty verdict |
| HypothesisModels.Validate | agent/hypothesis/models.py:26-37 | validation succeeds exactly when the likelihood is within [0, 1] and the status, when given, is one of the five values; it keeps every field, and absent ones take their defaults |
| HypothesisModels.ValidateAll | agent/hypothesis/generator.py:67 | the list validates exactly when every element does, element by element |
| LlmText.TrimStart | agent/reporting/rca.py:60 | the leading whitespace is removed, and only it |
| LlmText.TrimEnd | agent/reporting/rca.py:60 | the trailing whitespace is removed, and only it |
| LlmText.Strip | agent/reporting/rca.py:60 | `strip` gives a slice of the input with no whitespace at either end |
| LlmText.StripKeeps | agent/reporting/rca.py:60 | text with no surrounding whitespace is unchanged by `strip` |
| LlmText.StripIdempotent | agent/reporting/rca.py:60 | stripping twice is stripping once |
| LlmText.FindChar | agent/reporting/rca.py:62 | the first occurrence of the newline that `split("\n", 1)` cuts at |
| LlmText.FindLast | agent/reporting/rca.py:62 | the last occurrence of the fence that `rsplit("```", 1)` cuts at |
| LlmText.FindLastBelow | agent/reporting/rca.py:62 | the last occurrence at or below a bound |
| LlmText.StripFences | agent/reporting/rca.py:60-62 | unfenced text is only stripped; fenced text loses its first line and everything from the last fence on; fenced text without a newline raises |
| LlmText.Unfence | agent/reporting/rca.py:61-62 | on stripped text: unfenced text is kept; fenced text without a newline raises; otherwise the result is no longer than the input |
| LlmText.FindCharAfter | agent/reporting/rca.py:62 | the first newline after a newline-free prefix is at the prefix's end |
| LlmText.FindLastAtEnd | agent/reporting/rca.py:62 | a trailing fence is the last one |
| LlmText.FenceRoundTrip | agent/reporting/rca.py:60-62 | wrapping a body in a fence with a tag line and stripping the fences gives the body back |
| LlmText.FencedShape | agent/reporting/rca.py:60-62 | a fenced reply splits into its tag line and its body |
| LlmText.UnfencedOnlyStripped | agent/reporting/rca.py:60-62 | a bare JSON object is only stripped |
| LlmText.StripKeepsFirst | agent/reporting/rca.py:60 | stripping keeps a non-space first character first |
| Generator.WithLikelihood | agent/hypothesis/generator.py:68 | the hypotheses of one likelihood, in order (used to state stability) |
| Generator.InsertDescElems | agent/hypothesis/generator.py:68 | insertion adds exactly one element |
| Generator.SortedTail | agent/hypothesis/generator.py:68 | the tail of a descending list is descending and bounded by its head |
| Generator.SortedCons | agent/hypothesis/generator.py:68 | a head no smaller than the rest keeps the list descending |
| Generator.InsertDescSorted | agent/hypothesis/generator.py:68 | insertion keeps the list descending |
| Generator.WithLikelihoodAppend | agent/hypothesis/generator.py:68 | the tie filter distributes over concatenation |
| Generator.InsertDescStable | agent/hypothesis/generator.py:68 | insertion puts the element after the earlier ones of equal likelihood |
| Generator.NoneWithLikelihood | agent/hypothesis/generator.py:68 | a descending list whose head is below a likelihood has no element with it |
| Generator.SortSortedPermutation | agent/hypothesis/generator.py:68 | the sort by descending likelihood is non-increasing and a permutation of its input with the same length |
| Generator.SortStable | agent/hypothesis/generator.py:68 | the sort keeps the input order among hypotheses of equal likelihood |
| Generator.SortByLikelihoodCorrect | agent/hypothesis/generator.py:68 | the sort by descending likelihood is non-increasing, a permutation of its input with the same length, and stable: ties keep input order |
| Generator.RankedFromReply | agent/hypothesis/generator.py:62-68 | the reply is fence-stripped, decoded and validated, and the result is the sorted list of the validated hypotheses; each step's failure fails the whole |
| Generator.GenerateHypotheses | agent/hypothesis/generator.py:44-71 | succeeds exactly when the reply's fences strip, it decodes and every element validates; the hypotheses are then a permutation of the validated ones, sorted by descending likelihood and stable among equal likelihoods, one per decoded element |
| Ranker.RerankHypotheses | agent/hypothesis/ranker.py:28-55 | the re-ranked list is the reply's hypotheses, validated and sorted by descending likelihood |
| Ranker.RerankMayChangeCount | agent/hypothesis/ranker.py:48-49 | the re-ranked list need not have as many hypotheses as the input |
| Ranker.RerankRejectsInvalid | agent/hypothesis/ranker.py:48 | for every reply and decoder: one decoded hypothesis with a likelihood outside [0, 1], or any other that fails validation, makes the re-ranking raise |
| HttpApi.LokiResult | agent/investigation/tools/loki.py:45 | `data.result`, or [] when either key is absent |
| Loki.RangeRequest | agent/investigation/tools/loki.py:33-42 | a missing start defaults to 30 minutes before `now`, a missing end to `now`; query and limit are sent as given |
| Loki.QueryRangeSpec | agent/investigation/tools/loki.py:25-57 | status "success", `streams` is the number of result streams, `total_lines` counts every value before truncation, and `lines` is a prefix of the flattened lines of length min(limit, total) |
| Loki.RangeResultOf | agent/investigation/tools/loki.py:45-57 | status "success", the stream count, `total_lines` counting every value, and `lines` a prefix of the flattened lines of length min(limit, total) (a negative limit drops from the end) |
| Loki.LinesCount | agent/investigation/tools/loki.py:47-55 | the flattened lines number exactly the values across all streams |
| Loki.LinesCons | agent/investigation/tools/loki.py:47-49 | flattening goes stream by stream |
| Loki.LinesProvenance | agent/investigation/tools/loki.py:47-49 | every flattened line is one (ts, line) value of some stream, carrying that stream's labels |
| Loki.QueryRange | agent/investigation/tools/loki.py:25-57 | the nested loop computes exactly the specification above |
| Loki.QueryInstant | agent/investigation/tools/loki.py:59-67 | status "success" and `data.result`, or [] when absent |
| Tempo.SearchRequest | agent/investigation/tools/tempo.py:33-43 | the window defaults to [now − 30 min, now]; a `tags` parameter is sent exactly when the tags are non-empty |
| Tempo.Search | agent/investigation/tools/tempo.py:25-53 | `traces_found` is the length of `traces`, which defaults to [] |
| Tempo.AttributeMap | agent/investigation/tools/tempo.py:72-75 | the attribute map has exactly the keys present, each sent to the value of its last occurrence, {} when the value is absent |
| Tempo.AttributeMapLastWins | agent/investigation/tools/tempo.py:72-75 | a later duplicate key overwrites an earlier one |
| Tempo.Summarize | agent/investigation/tools/tempo.py:67-76 | a span's duration is its end minus its start, each 0 when absent; name, kind and status are passed through when present, and default to null, null and {}; the attributes have exactly the keys present, each with the value of its last occurrence ({} when it has none) |
| Tempo.BatchScopes | agent/investigation/tools/tempo.py:65 | `scopeSpans`, falling back to `instrumentationLibrarySpans` only when it is absent |
| Tempo.TraceSpansProvenance | agent/investigation/tools/tempo.py:62-76 | every span `get_trace` reports is the summary of a span of some scope of some batch of the response |
| Tempo.GetTraceSpec | agent/investigation/tools/tempo.py:55-83 | a non-200 response gives not-found; otherwise `span_count` is the number of spans, flattened batch by scope by span in order |
| Tempo.ScopesSpansCount | agent/investigation/tools/tempo.py:65-66 | the spans of a batch number exactly the spans of its scopes |
| Tempo.TraceSpansCount | agent/investigation/tools/tempo.py:64-81 | the flattened spans number exactly the spans across all batches |
| Tempo.AppendSpans | agent/investigation/tools/tempo.py:66-76 | the innermost loop appends one summary per span, in order |
| Tempo.AppendScopes | agent/investigation/tools/tempo.py:65-76 | the middle loop appends the spans of every scope, in order |
| Tempo.GetTrace | agent/investigation/tools/tempo.py:55-83 | the triple loop computes exactly the specification above |
| Prometheus.ResultOf | agent/investigation/tools/prometheus.py:34-43 | any status but "success" gives status "error", the body's error and an empty result; otherwise the result type and result are copied from `data`, and a missing key raises |
| Prometheus.InstantQuery | agent/investigation/tools/prometheus.py:25-43 | a `time` parameter is sent only when a time is given, and the body is shaped as above |
| Prometheus.RangeRequest | agent/investigation/tools/prometheus.py:53-62 | the window defaults to [now − 30 min, now], with the given step |
| Prometheus.RangeQuery | agent/investigation/tools/prometheus.py:45-74 | the range body is shaped as above |
| Prometheus.GetAlerts | agent/investigation/tools/prometheus.py:76-80 | `data.alerts`, or [] when absent |
| Correlator.Snapshot | agent/enrichment/correlator.py:29-42 | one key per query, each holding the query's `data.result`, or [] when the query failed |
| Correlator.MetricsSnapshot | agent/enrichment/correlator.py:25-42 | the loop computes the snapshot above, at the centre instant only; the window argument is unused |
| Correlator.ErrorWindow | agent/enrichment/correlator.py:46-47 | the window is centre − w minutes to centre + (w // 3) minutes |
| Correlator.Correlate | agent/enrichment/correlator.py:84-109 | the metrics of the six default queries; `error_logs_count` sums the values over the error streams; the samples are the first min(5, n) streams and traces; `traces_found` counts the traces |
| Correlator.CorrelateWithBackendsDown | agent/enrichment/correlator.py:39-82 | with every backend failing, the summary is empty lists and zero counts rather than an error |
| ContextBuilder.SearchQuery | agent/enrichment/context.py:22 | the search text is the name, a space, the summary, a space and the description |
| ContextBuilder.Build | agent/enrichment/context.py:21-44 | without a knowledge store both lists are empty; with one, they hold the hits' contents in rank order, and the build fails exactly when a search raises, with the first search's error; the correlation is the correlator's result for the alert's name and start time |
| Executor.QueryWindow | agent/investigation/executor.py:34-35 | every query covers 30 minutes before to 10 minutes after the alert |
| Executor.ExecuteQuery | agent/investigation/executor.py:30-60 | an unknown tool gives a record with only the tool and "Unknown tool: …"; a known one gives query and purpose, and the result of the backend call when it succeeds, its error text when it raises |
| Executor.RunTool | agent/investigation/executor.py:37-43 | each known tool calls its own backend over the query window (Tempo with the query text as tags), and the outcome is that backend's, its error text included |
| Executor.HypothesisEvidence | agent/investigation/executor.py:66-70 | one record per planned query, in plan order, each tagged with the hypothesis id |
| Executor.ExecuteHypothesisQueries | agent/investigation/executor.py:62-77 | the loop computes exactly those records |
| Executor.ExecuteAll | agent/investigation/executor.py:79-88 | the loop concatenates the evidence of the open hypotheses in order |
| Executor.AllEvidenceFromOpen | agent/investigation/executor.py:83-88 | one record per planned query of a pending or investigating hypothesis, each from such a hypothesis |
| Executor.ClosedContributeNothing | agent/investigation/executor.py:85 | confirmed, rejected and inconclusive hypotheses yield no evidence |
| State.MergeLists | agent/investigation/state.py:12-13 | the merged list has the sum of the lengths, the left list as prefix and the right as suffix |
| State.MergeListsMonoid | agent/investigation/state.py:12-13 | merging with [] is the identity, and merging is associative |
| State.Apply | agent/investigation/state.py:16-44 | an update appends its evidence and replaces each key it sets |
| State.EvidenceAccumulates | agent/investigation/state.py:33 | over any run of updates, earlier evidence stays a prefix and the count grows by exactly the records brought |
| State.ApplyNothing | agent/investigation/state.py:16-44 | an empty update leaves the state as it is |
| State.ApplyTwice | agent/investigation/state.py:33 | applying an update twice equals applying it once, except that its evidence is appended twice |
| Rca.WithStatus | agent/reporting/rca.py:76-85 | the hypotheses of one status, and all of them |
| Rca.WithStatusNonEmpty | agent/investigation/graph.py:61-67 | the filter is non-empty exactly when some hypothesis has the status |
| Rca.ConfirmedRejectedDisjoint | agent/reporting/rca.py:76-85 | the confirmed and rejected lists share no hypothesis and together are no longer than the list |
| Rca.ReportFields | agent/reporting/rca.py:60-64 | the report succeeds exactly when the fence strip succeeds, the JSON decodes, and the decoded value is an object |
| Rca.GenerateRcaReport | agent/reporting/rca.py:37-88 | the key-by-key stamping yields the stamped report; a report without "title" raises at the final log line |
| Rca.StampedKeysOnly | agent/reporting/rca.py:66-85 | the report has the LLM's keys plus the nine stamped ones, and an LLM value survives only under an unstamped key |
| Rca.StampedAlertFacts | agent/reporting/rca.py:66-72 | the alert's id, name and severity value ("unknown" without an alert) and the state's status (default "resolved") overwrite the LLM's |
| Rca.StampedProgress | agent/reporting/rca.py:73-85 | confidence (default 0.0), iterations (default 0), the hypothesis count and the confirmed and rejected titles overwrite the LLM's |
| Rca.TitleNotStamped | agent/reporting/rca.py:66-87 | "title" is not among the stamped keys, so the final log line reads the LLM's own title or raises |
| Graph.ShouldContinue | agent/investigation/graph.py:91-100 | a root cause routes to report whatever the iteration; otherwise iteration ≥ max_iterations (default 6) escalates; anything else investigates |
| Graph.EnrichContext | agent/investigation/graph.py:32-42 | succeeds exactly when there is an alert and the context builds (always without a knowledge store); sets the context and its parts, status "investigating" and iteration 0 |
| Graph.Frame | agent/investigation/graph.py:44-46 | the problem frame of the context; raises without a context or when framing fails |
| Graph.Hypothesize | agent/investigation/graph.py:48-50 | succeeds exactly when there are a frame and a context and the generation succeeds; the update is then the generated hypotheses, sorted by descending likelihood |
| Graph.Investigate | agent/investigation/graph.py:52-56 | succeeds exactly when there are an alert and hypotheses; the executor's evidence, and iteration one more than before |
| Graph.BestLikelihood | agent/investigation/graph.py:62-63 | the maximum likelihood, attained by some hypothesis, or 0.0 for none |
| Graph.BestOfSorted | agent/investigation/graph.py:62-63 | for the sorted re-ranked list the confidence is its first likelihood |
| Graph.Analyze | agent/investigation/graph.py:58-69 | succeeds exactly when there are hypotheses and the re-ranking succeeds; the update holds only the re-ranked hypotheses, root cause found exactly when one is confirmed, and the confidence as the best likelihood; every other key is left alone |
| Graph.EscalateUpdate | agent/investigation/graph.py:82-87 | the report gains `escalated = true` and a reason citing the confidence and the iteration count, keeps every other key, and the status becomes "escalated" |
| Graph.EscalationReason | agent/investigation/graph.py:83-86 | the reason starts with the confidence text, ends with " iterations", and the text between reads back as the iteration count |
| Common.IntToString | agent/investigation/graph.py:85 | `str(i)` is decimal text that `int` reads back as `i` |
| Graph.Report | agent/investigation/graph.py:71-73 | the stamped report of the current state, whose status is the state's own, and status "resolved" |
| Graph.Escalate | agent/investigation/graph.py:75-87 | the stamped report of the current state, marked as escalated |
| Graph.Conclude | agent/investigation/graph.py:120-127 | succeeds exactly when the LLM's report decodes to an object with a title; the new state is then the old one with `report`'s update (the stamped report, status "resolved") after a root cause, and with `escalate`'s update otherwise; the final node keeps iteration, confidence and evidence; it is `report` with status "resolved" after a root cause, and `escalate` with status "escalated", `escalated = true` and the escalation reason otherwise; the report has a title and the state's stamped status |
| Graph.Prelude | agent/investigation/graph.py:114-117 | enrich, frame and hypothesize run once, in order; afterwards iteration 0 and status "investigating" |
| Graph.Cycle | agent/investigation/graph.py:117-118 | one investigate → analyze cycle raises the iteration by exactly 1, only appends evidence, and decides the root-cause flag |
| Graph.Run | agent/investigation/graph.py:104-127 | the run ends after 1 to max(1, max_iterations) cycles, "resolved" exactly when a root cause was found, "escalated" only at the bound and then with `escalated = true` and a reason citing the final confidence and iteration count, always with a report whose stamped status is "investigating", and with the initial evidence kept as a prefix |
| Service.BuildLlm | agent/main.py:42-59 | "anthropic" and "openai" select their client with the configured model and temperature; any other provider raises "Unsupported LLM provider: …" |
| Service.DefaultProviderSupported | agent/config.py:10 | the default provider is supported |
| Service.InvestigateWithDefaults | agent/main.py:117-127 | from the initial state, at most 6 cycles, and an escalation happens exactly at the sixth |
| Service.InitialState | agent/main.py:117-125 | the alert, no evidence, iteration 0, the given bound, no root cause, confidence 0.0, status "investigating"; it routes to investigate exactly when the bound is positive |
| Service.ArtifactStore.SaveReport | agent/main.py:131 | a saved report is appended to the saved reports |
| Service.ArtifactStore.FeedBack | agent/reporting/artifacts.py:35-49 | only a report with status "resolved" is stored, and only when there is a knowledge store |
| Service.RunInvestigation | agent/main.py:112-142 | a failure is swallowed and leaves the store as it was; on completion the report is saved when there is a store; no incident is ever fed back, because the stamped status is never "resolved" |
| Service.FinalReport | agent/reporting/rca.py:72 | the intended report: the run's report with its status overwritten by the status the run ended in |
| Service.RunInvestigationIntended | agent/main.py:112-142 | with the report stamped with the final status, a run that found a root cause has a resolved report and is fed back when there is a knowledge store, and no other run is |

## Left out

- Asynchrony. `asyncio` tasks, `wait_for` timeouts, `gather` and cancellation are modelled only through their outcomes (`Worker.RunOutcome`, the `Stop` event). The worker is a sequential scheduler over events, not concurrent code.
- The LangGraph recursion limit. The graph library stops a run after 25 supersteps. A run of n cycles takes 3 + 2n + 1 supersteps: enrich, frame and hypothesize, two per cycle, then the final node. So the default bound of six cycles fits, but a run that reaches 11 cycles, possible only when `max_iterations` is 11 or more, raises `GraphRecursionError` in the source where the model completes it. The library's own limit is not modelled.
- Prompt text, LLM invocation, `json.loads` and pydantic parsing. These are parameters: each LLM stage is a function from its inputs to a reply, and each decoder may fail. Of pydantic validation, only the likelihood bound, the status values and the field defaults are modelled.
- The problem framer (agent/framing/) is not part of this model. It is the oracle `Graph.Llm.frameProblem`, and its result is an opaque JSON value.
- The knowledge store (agent/enrichment/knowledge.py) is not part of this model. It is a pair of search oracles, each of which may raise. Artifact persistence (file names, JSON dumping, the incident summary text) is also left out: `Service.ArtifactStore` keeps only the sequences of saved and fed-back reports.
- Time. `datetime.now`, `strptime` matching, `isoformat` and `timestamp()` are left out. Time is integer seconds passed as `now`, strptime is an oracle per format, and `alert_time` in the correlation is the integer start time.
- Floating point. Likelihood and confidence are reals. The `:.0%` formatting in the escalation reason is the parameter `Graph.Deps.percent`. Log lines are left out.
- Hypothesis sorting. `list.sort(reverse=True)` is a pure stable insertion sort on sequences, not an in-place sort.
- HTTP bodies. They are typed records with an `Option` per key that may be missing, so a body of the wrong JSON shape is not modelled. The Tempo attribute `key` is assumed present, and `int()` of the nanosecond timestamps is the identity on the integers.
- Redis. Stream ids are consecutive integers. Whether the producer's SET NX EX and XADD, and `manual_trigger`'s XADD, raise is a boolean parameter of each call. An XREADGROUP error while the group exists is not modelled separately: it takes the same back-off path (worker.py:83-85) as the missing group, which `PollOnce` models. The connection pool, `redis_client.get_redis` and the stream's blocking read timeout are not modelled. The worker's consumer name is a constant.
- `Correlator.MetricsSnapshot`: the unused `window_minutes` argument is kept but ignored, as in the source.
- `Graph.Run`: says nothing about which oracle failed when a run raises. It proves only that a run without an alert fails.
- Service wiring. The FastAPI app, the lifespan start-up, the `/health` route and the `register_investigation_callback` import are not modelled. That name is imported from receiver.py, which does not define it.
- `agent/reporting/models.py`. Its `RCAReport` is never built on these paths: the report is a JSON object map.
- Start: an `XGROUP CREATE` error other than BUSYGROUP is modelled as the parameter `reachable`.
- AckEmpty: XACK never fails in the model, although the call at worker.py:73 can raise. The exception would reach the loop's handler and leave the entry unacknowledged; the accounting does not represent that case.
- FinishInvestigation: XACK never fails in the model, although the call at worker.py:107 can raise, inside the task's `finally`. The entry would stay unacknowledged while its slot is released; the accounting does not represent that case.
- `Common.Lower` lower-cases ASCII letters only, whereas Python's `str.lower` is Unicode-wide. The severity keys are not affected: the one non-ASCII character that lower-cases to an ASCII letter is U+212A, the Kelvin sign, which becomes 'k', and no key contains 'k'.
- The app/ playground (chaos routes and telemetry) is not the agent and is not modelled.

## Findings

| source | as written | input that shows it | evidently intended | confidence | as-written member | corrected member |
|---|---|---|---|---|---|---|
| agent/reporting/rca.py:72 | the report copies the state's status at the moment the report is written. The report and escalate nodes set "resolved" or "escalated" only afterwards (graph.py:73, graph.py:87), so every report says "investigating", and `feed_back_to_knowledge` (artifacts.py:37) stores nothing | any alert whose first investigate/analyze cycle confirms a hypothesis: the run ends "resolved", but its report's `status` is "investigating" and no incident is stored | the report carries the status the run ended in, so resolved investigations are fed back to the knowledge store | medium; not executed | Service.RunInvestigation | Service.RunInvestigationIntended |
