/** The tuning knobs and Redis names the agent is configured with, at their
    default values (agent/config.py, agent/queue/redis_client.py). */
module Config {
  const DedupWindowSeconds: int := 300
  const MaxConcurrentInvestigations: nat := 3
  const InvestigationTimeoutSeconds: int := 600
  const MaxInvestigationIterations: int := 6
  const QueryLookbackMinutes: int := 30
  const QueryLookaheadMinutes: int := 10
  const DefaultLlmProvider: string := "openai"

  const StreamKey: string := "sre:alerts"
  const ConsumerGroup: string := "sre-investigators"
  const DedupPrefix: string := "sre:dedup:"
  const ConsumerName: string := "worker-1"
}
