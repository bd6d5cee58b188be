/** Deduplicating intake (agent/queue/producer.py): an alert is appended to
    the stream only when no live dedup marker exists for its key, and the
    marker is set first, with the dedup window as its time-to-live. */
module Producer {
  import opened Common
  import opened Config
  import opened IngestionModels
  import opened RedisStore

  /** The dedup key: the prefix followed by the fingerprint, or by the alert
      name when the fingerprint is empty. */
  function DedupKey(alert: NormalizedAlert): (key: string)
    ensures alert.fingerprint != "" ==> key == DedupPrefix + alert.fingerprint
    ensures alert.fingerprint == "" ==> key == DedupPrefix + alert.name
  {
    DedupPrefix + (if alert.fingerprint != "" then alert.fingerprint else alert.name)
  }

  /** Two alerts with the same non-empty fingerprint share a key whatever
      their names; without fingerprints, alerts are grouped by name. */
  lemma DedupKeyGrouping(a: NormalizedAlert, b: NormalizedAlert)
    ensures a.fingerprint != "" && a.fingerprint == b.fingerprint ==> DedupKey(a) == DedupKey(b)
    ensures a.fingerprint == "" && b.fingerprint == "" ==> (DedupKey(a) == DedupKey(b) <==> a.name == b.name)
  {
    if a.fingerprint == "" && b.fingerprint == "" && DedupKey(a) == DedupKey(b) {
      assert a.name == DedupKey(a)[|DedupPrefix|..];
    }
  }

  /** What `enqueue_alert` returns: the new entry's id, None for a duplicate,
      or the exception raised by the SET or by the XADD. */
  datatype EnqueueOutcome =
    | Enqueued(msgId: nat)
    | Deduplicated
    | SetRaised(error: string)
    | AppendRaised(error: string)

  const SetError := "ConnectionError while setting " + DedupPrefix
  const AppendError := "ConnectionError while appending to " + StreamKey

  /** `enqueue_alert`. `alertJson` is the alert's JSON serialization;
      `setOk` says whether the SET NX EX call returns, and `appendOk` whether
      XADD does. A raising call propagates to the caller. */
  method EnqueueAlert(r: Redis, alert: NormalizedAlert, alertJson: string, now: int,
                      setOk: bool, appendOk: bool)
    returns (res: EnqueueOutcome)
    requires r.Valid()
    modifies r`markers, r`stream, r`lastId
    ensures r.Valid()
    ensures !setOk ==>
              && res == SetRaised(SetError) && r.markers == old(r.markers)
              && r.stream == old(r.stream) && r.lastId == old(r.lastId)
    ensures var key := DedupKey(alert);
      && (setOk && Live(old(r.markers), key, now) ==>
            && res == Deduplicated && r.markers == old(r.markers)
            && r.stream == old(r.stream) && r.lastId == old(r.lastId))
      && (setOk && !Live(old(r.markers), key, now) ==>
            r.markers == old(r.markers)[key := now + DedupWindowSeconds])
      && (setOk && !Live(old(r.markers), key, now) && appendOk ==>
            res.Enqueued? && res.msgId == old(r.lastId) + 1 && r.lastId == res.msgId
            && r.stream == old(r.stream) + [StreamEntry(res.msgId, alertJson)])
      && (setOk && !Live(old(r.markers), key, now) && !appendOk ==>
            res == AppendRaised(AppendError) && r.stream == old(r.stream) && r.lastId == old(r.lastId))
  {
    if !setOk {
      return SetRaised(SetError);
    }
    var key := DedupKey(alert);
    var isNew := r.SetNxEx(key, now, DedupWindowSeconds);
    if !isNew {
      return Deduplicated;
    }
    if !appendOk {
      return AppendRaised(AppendError);
    }
    var id := r.XAdd(alertJson);
    res := Enqueued(id);
  }

  /** Two alerts with the same key inside the window, the key being new at
      the first: the first is appended and the second dropped. */
  method EnqueueTwiceWithinWindow(r: Redis, a: NormalizedAlert, b: NormalizedAlert,
                                  aJson: string, bJson: string, t1: int, t2: int)
    returns (first: EnqueueOutcome, second: EnqueueOutcome)
    requires r.Valid()
    requires DedupKey(a) == DedupKey(b) && t1 <= t2 < t1 + DedupWindowSeconds
    modifies r`markers, r`stream, r`lastId
    ensures r.Valid()
    ensures !Live(old(r.markers), DedupKey(a), t1) ==>
              && first.Enqueued? && second == Deduplicated
              && r.stream == old(r.stream) + [StreamEntry(first.msgId, aJson)]
  {
    first := EnqueueAlert(r, a, aJson, t1, true, true);
    MarkerLifetime(old(r.markers), DedupKey(a), t1, DedupWindowSeconds, t2);
    second := EnqueueAlert(r, b, bJson, t2, true, true);
  }

  /** Once the window of a marker set by the first call has passed, the same
      key is accepted again. */
  method EnqueueAfterExpiry(r: Redis, a: NormalizedAlert, b: NormalizedAlert,
                            aJson: string, bJson: string, t1: int, t2: int)
    returns (first: EnqueueOutcome, second: EnqueueOutcome)
    requires r.Valid()
    requires DedupKey(a) == DedupKey(b) && t2 >= t1 + DedupWindowSeconds
    modifies r`markers, r`stream, r`lastId
    ensures r.Valid()
    ensures !Live(old(r.markers), DedupKey(a), t1) ==> first.Enqueued? && second.Enqueued?
  {
    first := EnqueueAlert(r, a, aJson, t1, true, true);
    MarkerLifetime(old(r.markers), DedupKey(a), t1, DedupWindowSeconds, t2);
    second := EnqueueAlert(r, b, bJson, t2, true, true);
  }
}
