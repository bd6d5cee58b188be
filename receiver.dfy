/** The webhook endpoints (agent/ingestion/receiver.py): the Alertmanager
    webhook normalizes the payload, keeps the firing alerts and offers each
    to the deduplicating producer; the manual trigger appends to the stream
    directly. */
module Receiver {
  import opened Common
  import opened Config
  import opened IngestionModels
  import opened Normalizer
  import opened RedisStore
  import opened Producer

  /** The alerts whose status value is "firing", in order. */
  function FiringOf(alerts: seq<NormalizedAlert>): (f: seq<NormalizedAlert>)
    ensures |f| <= |alerts|
    ensures forall a :: a in f ==> a in alerts && a.status == Firing
    ensures forall a :: a in alerts && a.status == Firing ==> a in f
  {
    if alerts == [] then []
    else (if alerts[0].status.Value() == "firing" then [alerts[0]] else []) + FiringOf(alerts[1..])
  }

  /** Filtering splits over concatenation, so the firing alerts keep their
      relative order. */
  lemma {:induction false} FiringOfAppend(a: seq<NormalizedAlert>, b: seq<NormalizedAlert>)
    ensures FiringOf(a + b) == FiringOf(a) + FiringOf(b)
  {
    if a == [] {
      assert a + b == b;
    } else {
      var t := a[1..];
      var e := if a[0].status.Value() == "firing" then [a[0]] else [];
      assert (a + b)[0] == a[0] && (a + b)[1..] == t + b;
      FiringOfAppend(t, b);
      ConcatAssoc(e, FiringOf(t), FiringOf(b));
    }
  }

  /** The alerts at the positions whose flag equals `b`, among the first
      `|flags|`. */
  function Selected(alerts: seq<NormalizedAlert>, flags: seq<bool>, b: bool): seq<NormalizedAlert>
    requires |flags| <= |alerts|
  {
    if flags == [] then []
    else Selected(alerts, flags[..|flags| - 1], b)
         + (if flags[|flags| - 1] == b then [alerts[|flags| - 1]] else [])
  }

  lemma SelectedAppend(alerts: seq<NormalizedAlert>, flags: seq<bool>, x: bool, b: bool)
    requires |flags| < |alerts|
    ensures Selected(alerts, flags + [x], b)
            == Selected(alerts, flags, b) + (if x == b then [alerts[|flags|]] else [])
  {
    assert (flags + [x])[..|flags|] == flags;
  }

  /** Every processed alert lands in exactly one of the two lists. */
  lemma {:induction false} SelectedPartition(alerts: seq<NormalizedAlert>, flags: seq<bool>)
    requires |flags| <= |alerts|
    ensures |Selected(alerts, flags, true)| + |Selected(alerts, flags, false)| == |flags|
  {
    if flags != [] {
      SelectedPartition(alerts, flags[..|flags| - 1]);
    }
  }

  /** The dedup keys of the alerts accepted among the first `|flags|`. */
  function AcceptedKeys(alerts: seq<NormalizedAlert>, flags: seq<bool>): set<string>
    requires |flags| <= |alerts|
  {
    if flags == [] then {}
    else AcceptedKeys(alerts, flags[..|flags| - 1])
         + (if flags[|flags| - 1] then {DedupKey(alerts[|flags| - 1])} else {})
  }

  function AlertId(a: NormalizedAlert): string {
    a.id
  }

  function EntryJson(e: StreamEntry): string {
    e.alertJson
  }

  /** The decision rule, for the first `|accepted|` firing alerts: an alert
      was enqueued exactly when its key had no live marker in `m0` and no
      earlier enqueued alert had that key. */
  ghost predicate DecidedByRule(f: seq<NormalizedAlert>, accepted: seq<bool>, m0: map<string, int>, now: int)
    requires |accepted| <= |f|
  {
    forall j :: 0 <= j < |accepted| ==>
      (accepted[j] <==> !Live(m0, DedupKey(f[j]), now) && DedupKey(f[j]) !in AcceptedKeys(f, accepted[..j]))
  }

  /** The live markers are those of `m0` plus the keys enqueued so far. */
  ghost predicate MarkersTrack(f: seq<NormalizedAlert>, accepted: seq<bool>, m0: map<string, int>,
                               markers: map<string, int>, now: int)
    requires |accepted| <= |f|
  {
    forall k :: Live(markers, k, now) <==> Live(m0, k, now) || k in AcceptedKeys(f, accepted)
  }

  /** The stream is `s0` followed by the serializations of the enqueued
      alerts, in order. */
  ghost predicate StreamTracks(f: seq<NormalizedAlert>, accepted: seq<bool>, s0: seq<StreamEntry>,
                               stream: seq<StreamEntry>, serialize: NormalizedAlert -> string)
    requires |accepted| <= |f|
  {
    && |s0| <= |stream| && stream[..|s0|] == s0
    && Map(EntryJson, stream[|s0|..]) == Map(serialize, Selected(f, accepted, true))
  }

  /** Offering the next alert to the producer keeps the decision rule and the
      marker bookkeeping: it is dropped when its key is live and accepted,
      with a fresh marker, otherwise. */
  lemma OfferStep(f: seq<NormalizedAlert>, accepted: seq<bool>, m0: map<string, int>,
                  markers: map<string, int>, now: int)
    requires |accepted| < |f|
    requires DecidedByRule(f, accepted, m0, now) && MarkersTrack(f, accepted, m0, markers, now)
    ensures var key := DedupKey(f[|accepted|]);
      && (Live(markers, key, now) ==>
            DecidedByRule(f, accepted + [false], m0, now) && MarkersTrack(f, accepted + [false], m0, markers, now))
      && (!Live(markers, key, now) ==>
            && DecidedByRule(f, accepted + [true], m0, now)
            && MarkersTrack(f, accepted + [true], m0, markers[key := now + DedupWindowSeconds], now))
  {
    var key := DedupKey(f[|accepted|]);
    if Live(markers, key, now) {
      KeysAppend(f, accepted, false);
      DecidedStep(f, accepted, m0, now, false);
    } else {
      KeysAppend(f, accepted, true);
      DecidedStep(f, accepted, m0, now, true);
      var m1 := markers[key := now + DedupWindowSeconds];
      forall k ensures Live(m1, k, now) <==> Live(m0, k, now) || k in AcceptedKeys(f, accepted + [true]) {
        if k != key {
          assert Live(m1, k, now) == Live(markers, k, now);
        }
      }
    }
  }

  /** Offering one more alert adds its key exactly when it is accepted. */
  lemma KeysAppend(f: seq<NormalizedAlert>, accepted: seq<bool>, x: bool)
    requires |accepted| < |f|
    ensures AcceptedKeys(f, accepted + [x])
            == AcceptedKeys(f, accepted) + (if x then {DedupKey(f[|accepted|])} else {})
  {
    assert (accepted + [x])[..|accepted|] == accepted;
  }

  /** A decision taken by the rule extends the decided prefix. */
  lemma DecidedStep(f: seq<NormalizedAlert>, accepted: seq<bool>, m0: map<string, int>, now: int, x: bool)
    requires |accepted| < |f|
    requires DecidedByRule(f, accepted, m0, now)
    requires x <==> !Live(m0, DedupKey(f[|accepted|]), now) && DedupKey(f[|accepted|]) !in AcceptedKeys(f, accepted)
    ensures DecidedByRule(f, accepted + [x], m0, now)
  {
    var a := accepted + [x];
    assert a[..|accepted|] == accepted;
    forall j | 0 <= j < |accepted| ensures a[..j] == accepted[..j] && a[j] == accepted[j] { }
  }

  /** Appending the entry for an enqueued alert keeps the stream's
      bookkeeping; a dropped alert leaves it unchanged. */
  lemma StreamStep(f: seq<NormalizedAlert>, accepted: seq<bool>, s0: seq<StreamEntry>,
                   stream: seq<StreamEntry>, serialize: NormalizedAlert -> string, id: nat)
    requires |accepted| < |f|
    requires StreamTracks(f, accepted, s0, stream, serialize)
    ensures StreamTracks(f, accepted + [false], s0, stream, serialize)
    ensures StreamTracks(f, accepted + [true], s0,
                         stream + [StreamEntry(id, serialize(f[|accepted|]))], serialize)
  {
    var e := StreamEntry(id, serialize(f[|accepted|]));
    SelectedAppend(f, accepted, false, true);
    SelectedAppend(f, accepted, true, true);
    assert (stream + [e])[..|s0|] == s0;
    assert (stream + [e])[|s0|..] == stream[|s0|..] + [e];
    MapAppend(EntryJson, stream[|s0|..], e);
    MapAppend(serialize, Selected(f, accepted, true), f[|accepted|]);
  }

  /** One offer, enqueued (`flag`) or dropped, keeps all the bookkeeping of
      the webhook loop. */
  lemma OfferBookkeeping(f: seq<NormalizedAlert>, accepted: seq<bool>, m0: map<string, int>,
                         m: map<string, int>, markers: map<string, int>, s0: seq<StreamEntry>,
                         stream: seq<StreamEntry>, stream': seq<StreamEntry>,
                         serialize: NormalizedAlert -> string, now: int, flag: bool, id: nat)
    requires |accepted| < |f|
    requires DecidedByRule(f, accepted, m0, now) && MarkersTrack(f, accepted, m0, m, now)
    requires StreamTracks(f, accepted, s0, stream, serialize)
    requires var key := DedupKey(f[|accepted|]);
      && flag == !Live(m, key, now)
      && (flag ==> markers == m[key := now + DedupWindowSeconds]
                   && stream' == stream + [StreamEntry(id, serialize(f[|accepted|]))])
      && (!flag ==> markers == m && stream' == stream)
    ensures DecidedByRule(f, accepted + [flag], m0, now)
    ensures MarkersTrack(f, accepted + [flag], m0, markers, now)
    ensures StreamTracks(f, accepted + [flag], s0, stream', serialize)
    ensures Selected(f, accepted + [flag], true)
            == Selected(f, accepted, true) + (if flag then [f[|accepted|]] else [])
    ensures Selected(f, accepted + [flag], false)
            == Selected(f, accepted, false) + (if flag then [] else [f[|accepted|]])
  {
    OfferStep(f, accepted, m0, m, now);
    StreamStep(f, accepted, s0, stream, serialize, id);
    SelectedAppend(f, accepted, flag, true);
    SelectedAppend(f, accepted, flag, false);
  }

  datatype WebhookResponse = WebhookResponse(received: nat, firing: nat,
                                             enqueued: seq<string>, deduplicated: seq<string>)

  /** The loop of `alertmanager_webhook`: offers every firing alert to the
      producer, in order, collecting the enqueued and the deduplicated ids;
      `ok` is false when the SET or the append for an alert raised, which
      ends the loop with that exception's text in `error`. */
  method OfferFiring(r: Redis, firing: seq<NormalizedAlert>, now: int,
                     serialize: NormalizedAlert -> string, setOk: nat -> bool, appendOk: nat -> bool)
    returns (ok: bool, error: string, enqueued: seq<string>, deduplicated: seq<string>,
             ghost accepted: seq<bool>)
    requires r.Valid()
    modifies r`markers, r`stream, r`lastId
    ensures r.Valid()
    ensures |accepted| <= |firing|
    ensures DecidedByRule(firing, accepted, old(r.markers), now)
    ensures StreamTracks(firing, accepted, old(r.stream), r.stream, serialize)
    ensures ok ==> |accepted| == |firing| && MarkersTrack(firing, accepted, old(r.markers), r.markers, now)
    ensures enqueued == Map(AlertId, Selected(firing, accepted, true))
    ensures deduplicated == Map(AlertId, Selected(firing, accepted, false))
    ensures !ok ==> |accepted| < |firing|
    ensures !ok && !setOk(|accepted|) ==>
              error == SetError && MarkersTrack(firing, accepted, old(r.markers), r.markers, now)
    ensures !ok && setOk(|accepted|) ==>
              && error == AppendError && !appendOk(|accepted|)
              && !Live(old(r.markers), DedupKey(firing[|accepted|]), now)
              && DedupKey(firing[|accepted|]) !in AcceptedKeys(firing, accepted)
              && Live(r.markers, DedupKey(firing[|accepted|]), now)
              && MarkersTrack(firing, accepted + [true], old(r.markers), r.markers, now)
  {
    error, enqueued, deduplicated, accepted := "", [], [], [];
    ghost var m0 := r.markers;
    ghost var s0 := r.stream;
    var i := 0;
    while i < |firing|
      invariant r.Valid()
      invariant 0 <= i <= |firing| && |accepted| == i
      invariant DecidedByRule(firing, accepted, m0, now)
      invariant MarkersTrack(firing, accepted, m0, r.markers, now)
      invariant StreamTracks(firing, accepted, s0, r.stream, serialize)
      invariant enqueued == Map(AlertId, Selected(firing, accepted, true))
      invariant deduplicated == Map(AlertId, Selected(firing, accepted, false))
    {
      var alert := firing[i];
      ghost var m, st, id := r.markers, r.stream, r.lastId + 1;
      var outcome := EnqueueAlert(r, alert, serialize(alert), now, setOk(i), appendOk(i));
      if outcome.SetRaised? {
        return false, outcome.error, enqueued, deduplicated, accepted;
      }
      if outcome.AppendRaised? {
        MarkerLifetime(m, DedupKey(alert), now, DedupWindowSeconds, now);
        OfferStep(firing, accepted, m0, m, now);
        return false, outcome.error, enqueued, deduplicated, accepted;
      }
      ghost var flag := outcome.Enqueued?;
      OfferBookkeeping(firing, accepted, m0, m, r.markers, s0, st, r.stream, serialize, now, flag, id);
      if outcome.Enqueued? {
        MapAppend(AlertId, Selected(firing, accepted, true), alert);
        enqueued := enqueued + [alert.id];
      } else {
        MapAppend(AlertId, Selected(firing, accepted, false), alert);
        deduplicated := deduplicated + [alert.id];
      }
      accepted := accepted + [flag];
      i := i + 1;
    }
    ok := true;
  }

  /** `alertmanager_webhook` at time `now`. The normalizer's oracles are as in
      NormalizePayload; `serialize` is the alert's JSON form, and `setOk(i)`
      and `appendOk(i)` say whether the SET and the XADD return for the i-th
      firing alert (when one raises, so does the endpoint). `accepted[j]` records whether the j-th
      firing alert was enqueued: exactly when no live marker existed for its
      key before the request and no earlier alert of the same request with
      that key was enqueued. */
  method AlertmanagerWebhook(r: Redis, payload: AlertmanagerPayload, idFor: nat -> string, now: int,
                             strptime: (string, TimeFormat) -> Option<int>, fails: RawAlert -> bool,
                             serialize: NormalizedAlert -> string, setOk: nat -> bool,
                             appendOk: nat -> bool)
    returns (res: Result<WebhookResponse>, ghost accepted: seq<bool>)
    requires r.Valid()
    modifies r`markers, r`stream, r`lastId
    ensures r.Valid()
    ensures var alerts := KeepMap(payload.alerts, |payload.alerts|, NormalizeAt(idFor, now, strptime), fails);
            var f := FiringOf(alerts);
      && |accepted| <= |f|
      && DecidedByRule(f, accepted, old(r.markers), now)
      && StreamTracks(f, accepted, old(r.stream), r.stream, serialize)
      && (res.Success? ==>
            && |accepted| == |f|
            && MarkersTrack(f, accepted, old(r.markers), r.markers, now)
            && res.value == WebhookResponse(|alerts|, |f|, Map(AlertId, Selected(f, accepted, true)),
                                            Map(AlertId, Selected(f, accepted, false)))
            && |res.value.enqueued| + |res.value.deduplicated| == res.value.firing
            && res.value.firing <= res.value.received)
      && (res.Failure? ==> |accepted| < |f|)
      && (res.Failure? && !setOk(|accepted|) ==>
            res.error == SetError && MarkersTrack(f, accepted, old(r.markers), r.markers, now))
      && (res.Failure? && setOk(|accepted|) ==>
            && res.error == AppendError && !appendOk(|accepted|)
            && !Live(old(r.markers), DedupKey(f[|accepted|]), now)
            && DedupKey(f[|accepted|]) !in AcceptedKeys(f, accepted)
            && Live(r.markers, DedupKey(f[|accepted|]), now)
            && MarkersTrack(f, accepted + [true], old(r.markers), r.markers, now))
  {
    var alerts := NormalizePayload(payload, idFor, now, strptime, fails);
    var firing := FiringOf(alerts);
    var ok, error, enqueued, deduplicated;
    ok, error, enqueued, deduplicated, accepted := OfferFiring(r, firing, now, serialize, setOk, appendOk);
    if !ok {
      return Failure(error), accepted;
    }
    SelectedPartition(firing, accepted);
    res := Success(WebhookResponse(|alerts|, |firing|, enqueued, deduplicated));
  }

  datatype ManualResponse = ManualResponse(investigationEnqueued: string, alertName: string, streamMsg: nat)

  /** `manual_trigger`: appends the alert without consulting or setting any
      dedup marker; `appendOk` says whether XADD returns, and when it raises,
      so does the endpoint, leaving the stream as it was. */
  method ManualTrigger(r: Redis, alert: NormalizedAlert, serialize: NormalizedAlert -> string,
                       appendOk: bool)
    returns (resp: Result<ManualResponse>)
    requires r.Valid()
    modifies r`stream, r`lastId
    ensures r.Valid()
    ensures resp.Success? <==> appendOk
    ensures resp.Success? ==>
              && r.stream == old(r.stream) + [StreamEntry(resp.value.streamMsg, serialize(alert))]
              && resp.value.streamMsg == old(r.lastId) + 1
              && resp.value.investigationEnqueued == alert.id && resp.value.alertName == alert.name
    ensures resp.Failure? ==>
              resp.error == AppendError && r.stream == old(r.stream) && r.lastId == old(r.lastId)
  {
    if !appendOk {
      return Failure(AppendError);
    }
    var msgId := r.XAdd(serialize(alert));
    resp := Success(ManualResponse(alert.id, alert.name, msgId));
  }
}
