/** The alert records of the ingestion boundary (agent/ingestion/models.py):
    the raw Alertmanager webhook shapes and the canonical NormalizedAlert.
    Timestamps are integer seconds since the epoch. */
module IngestionModels {
  import opened Common

  datatype AlertSeverity = Critical | Warning | Info {
    /** The enum's string value. */
    function Value(): string {
      match this
      case Critical => "critical"
      case Warning => "warning"
      case Info => "info"
    }
  }

  datatype AlertStatus = Firing | Resolved {
    function Value(): string {
      match this
      case Firing => "firing"
      case Resolved => "resolved"
    }
  }

  /** One alert of an Alertmanager webhook; `startsAt`/`endsAt` are the raw
      timestamp strings. */
  datatype RawAlert = RawAlert(
    status: string,
    labels: map<string, string>,
    annotations: map<string, string>,
    startsAt: string,
    endsAt: string,
    generatorUrl: string,
    fingerprint: string)

  /** A RawAlert built from its two required fields; every other field takes
      its declared default. */
  function NewRawAlert(status: string, labels: map<string, string>): (r: RawAlert)
    ensures r.status == status && r.labels == labels
    ensures r.annotations == map[]
    ensures r.startsAt == "" && r.endsAt == "" && r.generatorUrl == "" && r.fingerprint == ""
  {
    RawAlert(status, labels, map[], "", "", "", "")
  }

  datatype AlertmanagerPayload = AlertmanagerPayload(
    version: string,
    groupKey: string,
    status: string,
    receiver: string,
    groupLabels: map<string, string>,
    commonLabels: map<string, string>,
    commonAnnotations: map<string, string>,
    externalUrl: string,
    alerts: seq<RawAlert>)

  /** The payload that an empty webhook body validates to. */
  function DefaultPayload(): (p: AlertmanagerPayload)
    ensures p.alerts == [] && p.status == "firing" && p.version == "4"
    ensures p.groupKey == "" && p.receiver == "" && p.externalUrl == ""
    ensures p.groupLabels == map[] && p.commonLabels == map[] && p.commonAnnotations == map[]
  {
    AlertmanagerPayload("4", "", "firing", "", map[], map[], map[], "", [])
  }

  datatype NormalizedAlert = NormalizedAlert(
    id: string,
    name: string,
    severity: AlertSeverity,
    status: AlertStatus,
    source: string,
    summary: string,
    description: string,
    labels: map<string, string>,
    startsAt: int,
    endsAt: Option<int>,
    generatorUrl: string,
    fingerprint: string,
    raw: Option<RawAlert>)

  predicate IsHexDigit(c: char) {
    '0' <= c <= '9' || 'a' <= c <= 'f'
  }

  /** The shape of a generated alert id: twelve lower-case hex digits. */
  predicate IsGeneratedId(s: string) {
    |s| == 12 && forall i :: 0 <= i < |s| ==> IsHexDigit(s[i])
  }

  /** The id factory `uuid4().hex[:12]`, given the 32-digit hex form of the
      random UUID. */
  function GeneratedId(uuidHex: string): (id: string)
    requires |uuidHex| == 32 && forall i :: 0 <= i < |uuidHex| ==> IsHexDigit(uuidHex[i])
    ensures IsGeneratedId(id)
    ensures id <= uuidHex
  {
    uuidHex[..12]
  }

  /** A NormalizedAlert built from its required fields; `id` and `startsAt`
      are what the default factories produced. */
  function NewNormalizedAlert(id: string, name: string, severity: AlertSeverity,
                              status: AlertStatus, startsAt: int): (a: NormalizedAlert)
    ensures a.id == id && a.name == name && a.severity == severity && a.status == status
    ensures a.startsAt == startsAt
    ensures a.source == "alertmanager"
    ensures a.summary == "" && a.description == "" && a.generatorUrl == "" && a.fingerprint == ""
    ensures a.labels == map[] && a.endsAt == None && a.raw == None
  {
    NormalizedAlert(id, name, severity, status, "alertmanager", "", "", map[], startsAt,
                    None, "", "", None)
  }
}
