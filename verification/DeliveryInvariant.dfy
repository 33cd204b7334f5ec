// What holds in every reachable state of the delivery machine, whatever the workers do.
module DeliveryInvariant {
  import opened Domain
  import opened Retry
  import opened DeliveryDb
  import opened DeliveryMachine

  // ---------- Rows ----------

  // The attempts of a delivery are numbered exactly 1 to its count.
  ghost predicate Numbered(t: Table, id: string)
    requires id in t.deliveries
  {
    forall n: nat :: (id, n) in t.history <==> 1 <= n <= t.deliveries[id].attemptCount
  }

  // A wait between two attempts respects the backoff.
  predicate Waits(sequence: nat, from: Time, until: Time) {
    900 * (Backoff(sequence) / 1000) <= until - from <= 1100 * (Backoff(sequence) / 1000)
  }

  predicate RowOk(max: nat, d: Delivery) {
    && (d.lockedBy == "" <==> d.lockedUntil == None)
    && (d.lockedBy != "" ==> Unfinished(d.status))
    && (Unfinished(d.status) ==> d.attemptCount < max)
    && d.attemptCount <= max
    && (d.status == DeliveryPending <==> d.attemptCount == 0)
    && (d.lastAttemptAt.Some? <==> d.attemptCount > 0)
    && (d.deliveredAt.Some? <==> d.status == DeliverySucceeded)
    && (d.status == DeliveryRetry ==> d.lastAttemptAt.Some? && Waits(d.attemptCount, d.lastAttemptAt.value, d.nextAttemptAt))
  }

  ghost predicate DeliveryOk(max: nat, t: Table, id: string)
    requires id in t.deliveries
  {
    var d := t.deliveries[id];
    && d.id == id && id == DeliveryId(d.eventId)
    && d.eventId in t.events && t.events[d.eventId].scope == d.scope
    && d.scope in t.endpoints
    && RowOk(max, d)
    && Numbered(t, id)
  }

  ghost predicate TableOk(max: nat, t: Table) {
    && (forall id :: id in t.deliveries ==> DeliveryOk(max, t, id))
    && (forall id, n :: (id, n) in t.history ==> id in t.deliveries)
  }

  // ---------- Workers ----------

  // A job carries the count of its delivery for as long as the worker's claim stands.
  predicate JobOk(max: nat, t: Table, worker: string, job: Job) {
    && job.deliveryId in t.deliveries
    && var d := t.deliveries[job.deliveryId];
       && job.attemptCount < max
       && job.attemptCount <= d.attemptCount
       && (d.lockedBy == worker ==> job.attemptCount == d.attemptCount)
  }

  predicate CompletionOk(max: nat, t: Table, worker: string, c: Completion) {
    && c.deliveryId in t.deliveries
    && var d := t.deliveries[c.deliveryId];
       && 1 <= c.sequence <= max && c.sequence <= d.attemptCount + 1
       && (d.lockedBy == worker ==> c.sequence == d.attemptCount + 1)
       && c.status != DeliveryPending
       && (c.status == DeliveryRetry ==> c.sequence < max && Waits(c.sequence, c.completedAt, c.nextAttemptAt))
       && (c.deliveredAt.Some? <==> c.status == DeliverySucceeded)
  }

  predicate JobsOk(max: nat, t: Table, worker: string, jobs: seq<Job>) {
    && (forall i :: 0 <= i < |jobs| ==> JobOk(max, t, worker, jobs[i]))
    && (forall i, j :: 0 <= i < j < |jobs| ==> jobs[i].deliveryId != jobs[j].deliveryId)
  }

  predicate Without(jobs: seq<Job>, id: string) {
    forall i :: 0 <= i < |jobs| ==> jobs[i].deliveryId != id
  }

  predicate WorkerOk(max: nat, t: Table, clock: Time, id: string, w: Worker) {
    && id != ""
    && match w
       case Idle => true
       case Materializing(now) => now <= clock
       case Claiming(now) => now <= clock
       case Processing(jobs) => JobsOk(max, t, id, jobs)
       case Sending(job, startedAt, rest) =>
         JobOk(max, t, id, job) && JobsOk(max, t, id, rest) && Without(rest, job.deliveryId) && startedAt <= clock
       case Completing(c, rest) => CompletionOk(max, t, id, c) && JobsOk(max, t, id, rest) && Without(rest, c.deliveryId)
  }

  // ---------- Events and endpoints ----------

  ghost predicate EventsOk(t: Table, stamps: map<string, Stamp>) {
    && (forall id :: id in stamps ==> stamps[id].event.id == id)
    && (forall id :: id in t.events ==> id in stamps && t.events[id] == stamps[id].event)
  }

  predicate StampsOk(clock: Time, stamps: map<string, Stamp>) {
    forall id :: id in stamps ==> stamps[id].event.createdAt <= clock
  }

  ghost predicate WorkersOk(max: nat, t: Table, clock: Time, workers: map<string, Worker>) {
    forall id :: id in workers ==> WorkerOk(max, t, clock, id, workers[id])
  }

  ghost predicate Inv(cfg: Config, s: Sys) {
    && cfg.maxAttempts > 0
    && TableOk(cfg.maxAttempts, s.table)
    && EventsOk(s.table, s.stamps)
    && StampsOk(s.clock, s.stamps)
    && WorkersOk(cfg.maxAttempts, s.table, s.clock, s.workers)
  }

  // ---------- Statements keep the rows in order ----------

  lemma MaterializedKeeps(max: nat, t: Table, now: Time, chosen: set<string>)
    requires max > 0 && TableOk(max, t) && chosen <= Candidates(t)
    requires forall id :: id in t.events ==> t.events[id].id == id
    ensures TableOk(max, Materialized(t, now, chosen))
    ensures var t' := Materialized(t, now, chosen);
            forall id :: id in t.deliveries ==> id in t'.deliveries && t'.deliveries[id] == t.deliveries[id]
  {
    var t' := Materialized(t, now, chosen);
    forall e | e in chosen ensures DeliveryId(e)[4..] == e && DeliveryId(e) !in t.deliveries {
      if DeliveryId(e) in t.deliveries {
        assert DeliveryOk(max, t, DeliveryId(e));
        DeliveryIdInjective(e, t.deliveries[DeliveryId(e)].eventId);
      }
    }
    forall id | id in t'.deliveries ensures DeliveryOk(max, t', id) {
      if id in t.deliveries { assert DeliveryOk(max, t, id); }
    }
  }

  lemma ClaimedKeeps(max: nat, t: Table, until: Time, worker: string, chosen: set<string>, now: Time)
    requires TableOk(max, t) && chosen <= Due(t, now) && worker != ""
    ensures TableOk(max, Claimed(t, until, worker, chosen))
  {
    var t' := Claimed(t, until, worker, chosen);
    forall id | id in t'.deliveries ensures DeliveryOk(max, t', id) {
      assert DeliveryOk(max, t, id);
    }
  }

  lemma CompleteKeeps(max: nat, t: Table, worker: string, c: Completion)
    requires TableOk(max, t) && worker != "" && CompletionOk(max, t, worker, c)
    requires Complete(t, worker, c).Some?
    ensures TableOk(max, Complete(t, worker, c).value)
  {
    var t' := Complete(t, worker, c).value;
    forall id | id in t'.deliveries ensures DeliveryOk(max, t', id) {
      assert DeliveryOk(max, t, id);
    }
  }

  // ---------- What other workers see ----------

  // A change of the deliveries that takes no claim from this worker silently.
  ghost predicate Respects(t: Table, t': Table, worker: string) {
    forall id :: id in t.deliveries ==>
      && id in t'.deliveries
      && t.deliveries[id].attemptCount <= t'.deliveries[id].attemptCount
      && (t'.deliveries[id].lockedBy == worker ==>
            t.deliveries[id].lockedBy == worker && t'.deliveries[id].attemptCount == t.deliveries[id].attemptCount)
  }

  lemma WorkerKept(max: nat, t: Table, t': Table, clock: Time, clock': Time, id: string, w: Worker)
    requires WorkerOk(max, t, clock, id, w) && Respects(t, t', id) && clock <= clock'
    ensures WorkerOk(max, t', clock', id, w)
  {
  }

  lemma OthersKept(max: nat, s: Sys, t': Table, id: string, w': Worker)
    requires WorkersOk(max, s.table, s.clock, s.workers)
    requires forall v :: v in s.workers && v != id ==> Respects(s.table, t', v)
    requires WorkerOk(max, t', s.clock, id, w')
    ensures WorkersOk(max, t', s.clock, s.workers[id := w'])
  {
    hide WorkerOk, Respects;
    forall v | v in s.workers && v != id ensures WorkerOk(max, t', s.clock, v, s.workers[v]) {
      WorkerKept(max, s.table, t', s.clock, s.clock, v, s.workers[v]);
    }
  }
}
