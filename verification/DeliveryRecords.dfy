// What the statements of webhook delivery leave in the tables, with every column written out.
module DeliveryRecords {
  import opened Domain
  import opened Router
  import opened Retry
  import opened DeliveryDb
  import opened DeliveryMachine

  // ---------- Recording one request ----------

  // Any 2xx answer.
  predicate Delivered(r: SendResult) {
    r.httpStatus.Some? && 200 <= r.httpStatus.value < 300
  }

  // A timeout, an answer that asks to come back, a failing server, or no answer at all from
  // a target that was not refused.
  predicate Retryable(r: SendResult) {
    match r.httpStatus
    case Some(code) => code == 408 || code == 425 || code == 429 || code >= 500
    case None => r.errorCode != "target_not_public" && r.errorCode != "invalid_url"
  }

  // How a delivery that has been sent for the n-th time looks, given what the sender reported.
  predicate Records(cfg: Config, d: Delivery, d': Delivery, n: nat, at: Time, r: SendResult, permille: int) {
    && d'.id == d.id && d'.eventId == d.eventId && d'.scope == d.scope && d'.createdAt == d.createdAt
    && (d'.status == DeliverySucceeded <==> Delivered(r))
    && (d'.status == DeliveryRetry <==> Retryable(r) && n < cfg.maxAttempts)
    && (d'.status == DeliveryFailed <==> !Delivered(r) && !(Retryable(r) && n < cfg.maxAttempts))
    && d'.attemptCount == n && d'.lastAttemptAt == Some(at)
    && d'.deliveredAt == (if Delivered(r) then Some(at) else None)
    && d'.nextAttemptAt == (if Retryable(r) && n < cfg.maxAttempts then at + Backoff(n) * permille / 1000 else at)
    && d'.httpStatus == r.httpStatus && d'.errorCode == r.errorCode
    && d'.lockedBy == "" && d'.lockedUntil == None
  }

  // The latency that is kept: the reported one, or the time between start and end, in whole
  // milliseconds and never below zero.
  predicate KeepsLatency(ms: nat, reported: int, elapsed: int) {
    var latency := if reported <= 0 then elapsed else reported;
    ms == if latency < 0 then 0 else latency / 1_000_000
  }

  // The completed request is the delivery's next history row, and nothing else has changed.
  predicate Completes(cfg: Config, t: Table, t': Table, job: Job, startedAt: Time, at: Time, r: SendResult, permille: int,
      attemptId: string)
  {
    var id, n := job.deliveryId, job.attemptCount + 1;
    && id in t.deliveries && id in t'.deliveries && (id, n) !in t.history && (id, n) in t'.history
    && Records(cfg, t.deliveries[id], t'.deliveries[id], n, at, r, permille)
    && var sent := t'.history[(id, n)];
       && sent.id == attemptId && sent.startedAt == startedAt && sent.completedAt == at
       && sent.httpStatus == r.httpStatus && sent.errorCode == r.errorCode
       && KeepsLatency(sent.latencyMs, r.latency, at - startedAt)
       && t' == t.(deliveries := t.deliveries[id := t'.deliveries[id]], history := t.history[(id, n) := sent])
  }

  // Whatever the sender reports, the transaction records just that while the worker holds the
  // delivery, and otherwise changes nothing.
  lemma CompletionRecords(cfg: Config, t: Table, worker: string, job: Job, startedAt: Time, at: Time, r: SendResult,
      permille: int, attemptId: string)
    ensures var id, n := job.deliveryId, job.attemptCount + 1;
            match Complete(t, worker, CompletionOf(cfg, job, startedAt, at, r, permille, attemptId))
            case Some(t') =>
              && id in t.deliveries && t.deliveries[id].lockedBy == worker
              && Completes(cfg, t, t', job, startedAt, at, r, permille, attemptId)
            case None => id !in t.deliveries || t.deliveries[id].lockedBy != worker || (id, n) in t.history
  {
  }

  // ---------- Claiming ----------

  // A delivery that a worker whose clock has read `now` may claim.
  predicate MayBeClaimed(t: Table, d: Delivery, now: Time) {
    && (d.status == DeliveryPending || d.status == DeliveryRetry)
    && d.nextAttemptAt <= now
    && (d.lockedUntil.None? || d.lockedUntil.value < now)
    && d.scope in t.endpoints && t.endpoints[d.scope].enabled
  }

  predicate ClaimedBefore(a: Delivery, b: Delivery) {
    || a.nextAttemptAt < b.nextAttemptAt
    || (a.nextAttemptAt == b.nextAttemptAt
        && (a.createdAt < b.createdAt || (a.createdAt == b.createdAt && IdLess(a.id, b.id))))
  }

  // These deliveries are taken: they may be claimed, they are at most `limit`, and one that
  // may be claimed is left out only for `limit` that come before it.
  ghost predicate TakesFirst(t: Table, now: Time, limit: nat, ids: seq<string>) {
    && (forall i, j :: 0 <= i < j < |ids| ==> ids[i] != ids[j])
    && (forall i :: 0 <= i < |ids| ==> ids[i] in t.deliveries && MayBeClaimed(t, t.deliveries[ids[i]], now))
    && |ids| <= limit
    && (forall id :: id in t.deliveries && MayBeClaimed(t, t.deliveries[id], now) && id !in ids ==>
          |ids| == limit && forall i :: 0 <= i < |ids| ==> ClaimedBefore(t.deliveries[ids[i]], t.deliveries[id]))
  }

  // The taken deliveries are locked, and nothing else has changed.
  ghost predicate Locks(t: Table, t': Table, ids: seq<string>, worker: string, until: Time) {
    && t' == t.(deliveries := t'.deliveries) && t'.deliveries.Keys == t.deliveries.Keys
    && forall id :: id in t.deliveries ==>
         t'.deliveries[id] ==
         if id in ids then t.deliveries[id].(lockedBy := worker, lockedUntil := Some(until)) else t.deliveries[id]
  }

  // Each job carries its delivery's event and count, and the URL and secret of the endpoint
  // of its delivery's scope.
  predicate Carries(t: Table, ids: seq<string>, jobs: seq<Job>) {
    && |jobs| == |ids|
    && forall i :: 0 <= i < |ids| ==>
         && ids[i] in t.deliveries && t.deliveries[ids[i]].scope in t.endpoints
         && jobs[i].deliveryId == ids[i] && jobs[i].eventId == t.deliveries[ids[i]].eventId
         && jobs[i].attemptCount == t.deliveries[ids[i]].attemptCount
         && jobs[i].url == t.endpoints[t.deliveries[ids[i]].scope].url
         && jobs[i].secret == t.endpoints[t.deliveries[ids[i]].scope].secret
  }

  // ---------- Materializing ----------

  // An event that a delivery may be made for.
  ghost predicate MayBeDelivered(t: Table, e: Event) {
    && e.scope in t.endpoints && t.endpoints[e.scope].enabled && e.createdAt >= t.endpoints[e.scope].activeSince
    && forall id :: id in t.deliveries ==> t.deliveries[id].eventId != e.id
  }

  predicate MadeBefore(a: Event, b: Event) {
    a.createdAt < b.createdAt || (a.createdAt == b.createdAt && IdLess(a.id, b.id))
  }

  ghost predicate MakesFirst(t: Table, limit: nat, events: set<string>) {
    && (forall e :: e in events ==> e in t.events && MayBeDelivered(t, t.events[e]))
    && |events| <= limit
    && (forall e :: e in t.events && MayBeDelivered(t, t.events[e]) && e !in events ==>
          |events| == limit && forall c :: c in events ==> MadeBefore(t.events[c], t.events[e]))
  }

  // A pending delivery that is due at once.
  predicate IsNew(d: Delivery, e: Event, now: Time) {
    && d.id == "whd_" + e.id && d.eventId == e.id && d.scope == e.scope && d.status == DeliveryPending
    && d.attemptCount == 0 && d.nextAttemptAt == now && d.createdAt == now
    && d.lockedBy == "" && d.lockedUntil == None && d.lastAttemptAt == None && d.deliveredAt == None
    && d.httpStatus == None && d.errorCode == ""
  }

  // There is a new delivery for each of these events, and nothing else has changed.
  ghost predicate Makes(t: Table, t': Table, events: set<string>, now: Time) {
    && t' == t.(deliveries := t'.deliveries)
    && (forall id :: id in t.deliveries ==> id in t'.deliveries && t'.deliveries[id] == t.deliveries[id])
    && (forall e :: e in events ==> e in t.events && "whd_" + e in t'.deliveries && IsNew(t'.deliveries["whd_" + e], t.events[e], now))
    && (forall id :: id in t'.deliveries && id !in t.deliveries ==> exists e :: e in events && id == "whd_" + e)
  }
}
