// What the workers leave in the tables in every run, column by column, whatever other
// workers and the merchants do between their steps.
module DeliveryOutcomes {
  import opened Domain
  import opened Router
  import opened Retry
  import opened DeliveryDb
  import opened DeliveryMachine
  import opened DeliveryInvariant
  import opened DeliverySafety
  import opened DeliveryTheorems
  import opened DeliveryRecords

  // Action i is a step of this worker.
  predicate Steps(h: History, i: nat, worker: string, c: Choice) {
    |h.states| == |h.actions| + 1 && i < |h.actions| && h.actions[i] == Run(worker, c) && worker in h.states[i].workers
  }

  // Action j is the next step of the worker after action i.
  ghost predicate Follows(h: History, i: nat, j: nat, worker: string, c: Choice) {
    && i < j && Steps(h, j, worker, c)
    && forall n :: i < n < j ==> !(h.actions[n].Run? && h.actions[n].worker == worker)
  }

  lemma StepTo(cfg: Config, h: History, i: nat, worker: string, c: Choice)
    requires IsRun(cfg, h) && Steps(h, i, worker, c)
    ensures var s, s' := h.states[i], h.states[i + 1];
            && worker in s'.workers && (s'.table, s'.workers[worker]) == Step(cfg, s.table, s.clock, worker, s.workers[worker], c)
            && Permitted(cfg, s.table, s.workers[worker], c)
  {
    hide Step, Permitted;
  }

  lemma {:induction false} WorkerWaits(cfg: Config, h: History, i: nat, j: nat, worker: string)
    requires IsRun(cfg, h) && i <= j <= |h.actions| && worker in h.states[i].workers
    requires forall n :: i <= n < j ==> !(h.actions[n].Run? && h.actions[n].worker == worker)
    ensures worker in h.states[j].workers && h.states[j].workers[worker] == h.states[i].workers[worker]
  {
    hide Step, Permitted, Reset;
    if i < j { WorkerWaits(cfg, h, i, j - 1, worker); }
  }

  // ---------- What the sender reports ----------

  // At action i the sender reports to this worker.
  predicate ReportedAt(h: History, i: nat, worker: string, r: SendResult, permille: int, attemptId: string) {
    Steps(h, i, worker, Answer(r, permille, attemptId)) && h.states[i].workers[worker].Sending?
  }

  // In any run, what the sender has reported is recorded, in the delivery and its history,
  // exactly when the worker still holds the delivery; otherwise nothing changes.
  lemma ReportIsRecorded(cfg: Config, h: History, i: nat, j: nat, worker: string, r: SendResult, permille: int, attemptId: string)
    requires IsRun(cfg, h) && ReportedAt(h, i, worker, r, permille, attemptId) && Follows(h, i, j, worker, Commit)
    ensures var Sending(job, startedAt, rest) := h.states[i].workers[worker];
            var t, t' := h.states[j].table, h.states[j + 1].table;
            && job.deliveryId in t.deliveries && worker in h.states[j + 1].workers
            && (if t.deliveries[job.deliveryId].lockedBy == worker then
                  && t.deliveries[job.deliveryId].attemptCount == job.attemptCount
                  && Completes(cfg, t, t', job, startedAt, h.states[i].clock, r, permille, attemptId)
                  && h.states[j + 1].workers[worker] == Processing(rest)
                else t' == t && h.states[j + 1].workers[worker] == Idle)
  {
    hide CompletionOf, Complete, Completes, Inv;
    var Sending(job, startedAt, rest) := h.states[i].workers[worker];
    var c := CompletionOf(cfg, job, startedAt, h.states[i].clock, r, permille, attemptId);
    StepTo(cfg, h, i, worker, Answer(r, permille, attemptId));
    WorkerWaits(cfg, h, i + 1, j, worker);
    StepTo(cfg, h, j, worker, Commit);
    CompletesIffClaimed(cfg, h, j, worker, c, rest);
    CompletionRecords(cfg, h.states[j].table, worker, job, startedAt, h.states[i].clock, r, permille, attemptId);
    NamesJob(cfg, job, startedAt, h.states[i].clock, r, permille, attemptId);
  }

  lemma NamesJob(cfg: Config, job: Job, startedAt: Time, at: Time, r: SendResult, permille: int, attemptId: string)
    ensures var c := CompletionOf(cfg, job, startedAt, at, r, permille, attemptId);
            c.deliveryId == job.deliveryId && c.sequence == job.attemptCount + 1
  {
  }

  // ---------- What a claim takes ----------

  lemma ClaimIsFirst(t: Table, now: Time, limit: nat, ids: seq<string>)
    requires Distinct(ids) && FirstDue(t, now, limit, ToSet(ids))
    ensures TakesFirst(t, now, limit, ids)
  {
    DistinctCount(ids);
    forall i | 0 <= i < |ids| ensures ids[i] in Due(t, now) { assert ids[i] in ToSet(ids); }
    forall id | id in t.deliveries && MayBeClaimed(t, t.deliveries[id], now) && id !in ids
      ensures |ids| == limit && forall i :: 0 <= i < |ids| ==> ClaimedBefore(t.deliveries[ids[i]], t.deliveries[id])
    {
      assert id in Due(t, now) && id !in ToSet(ids);
      forall i | 0 <= i < |ids| ensures ClaimedBefore(t.deliveries[ids[i]], t.deliveries[id]) {
        assert ids[i] in ToSet(ids);
        assert DueBefore(t.deliveries[ids[i]], t.deliveries[id]);
      }
      Leaves(ToSet(ids), Due(t, now), id);
    }
    Within(ToSet(ids), Due(t, now));
  }

  lemma Within<T>(a: set<T>, b: set<T>)
    requires a <= b
    ensures |a| <= |b|
  {
    assert |b| == |a| + |b - a|;
  }

  lemma Leaves<T>(a: set<T>, b: set<T>, x: T)
    requires a <= b && x in b && x !in a
    ensures |a| < |b|
  {
    Within(a + {x}, b);
  }

  // In any run a claim takes the first deliveries that may be claimed, locks them, and its
  // jobs carry what their rows and their endpoints say.
  lemma ClaimTakesFirst(cfg: Config, h: History, k: nat, worker: string, ids: seq<string>)
    requires IsRun(cfg, h) && Steps(h, k, worker, Take(ids)) && h.states[k].workers[worker].Claiming?
    ensures var t, t', now := h.states[k].table, h.states[k + 1].table, h.states[k].workers[worker].now;
            && TakesFirst(t, now, cfg.batchSize, ids)
            && Locks(t, t', ids, worker, now + cfg.lease)
            && worker in h.states[k + 1].workers && h.states[k + 1].workers[worker].Processing?
            && Carries(t, ids, h.states[k + 1].workers[worker].jobs)
  {
    hide Inv, FirstDue, TakesFirst, Locks, Carries, TableOk;
    var s, now := h.states[k], h.states[k].workers[worker].now;
    StepTo(cfg, h, k, worker, Take(ids));
    RunSafe(cfg, h, k);
    ClaimIsFirst(s.table, now, cfg.batchSize, ids);
    TakenAreThere(s.table, now, cfg.batchSize, ids);
    ClaimLocks(s.table, ids, worker, now + cfg.lease);
    JobsCarry(s.table, ids);
  }

  lemma TakenAreThere(t: Table, now: Time, limit: nat, ids: seq<string>)
    requires TakesFirst(t, now, limit, ids)
    ensures Takable(t, ids)
  {
  }

  lemma ClaimLocks(t: Table, ids: seq<string>, worker: string, until: Time)
    ensures Locks(t, Claimed(t, until, worker, ToSet(ids)), ids, worker, until)
  {
  }

  lemma JobsCarry(t: Table, ids: seq<string>)
    requires Takable(t, ids)
    ensures Carries(t, ids, JobsOf(t, ids))
  {
  }

  // ---------- What is materialized ----------

  lemma MaterializedAreFirst(t: Table, limit: nat, events: set<string>)
    requires FirstCandidates(t, limit, events)
    ensures MakesFirst(t, limit, events)
  {
    forall e | e in t.events && MayBeDelivered(t, t.events[e]) && e !in events
      ensures |events| == limit && forall c :: c in events ==> MadeBefore(t.events[c], t.events[e])
    {
      assert e in Candidates(t);
      Leaves(events, Candidates(t), e);
    }
    Within(events, Candidates(t));
  }

  lemma MaterializedMakes(t: Table, events: set<string>, now: Time)
    requires events <= t.events.Keys && forall e :: e in t.events ==> t.events[e].id == e
    requires forall e :: e in events ==> DeliveryId(e) !in t.deliveries
    ensures DeliveryRecords.Makes(t, Materialized(t, now, events), events, now)
  {
    var t' := Materialized(t, now, events);
    forall e | e in events
      ensures "whd_" + e in t'.deliveries && IsNew(t'.deliveries["whd_" + e], t.events[e], now)
    {
      assert DeliveryId(e)[4..] == e;
      assert DeliveryId(e) in (set k | k in events :: DeliveryId(k));
    }
  }

  // In any run a worker makes deliveries for the first events that may be delivered, all of
  // them pending and due at once.
  lemma MaterializeMakesFirst(cfg: Config, h: History, k: nat, worker: string, events: set<string>)
    requires IsRun(cfg, h) && Steps(h, k, worker, Materialize(events)) && h.states[k].workers[worker].Materializing?
    ensures var t, t', now := h.states[k].table, h.states[k + 1].table, h.states[k].workers[worker].now;
            MakesFirst(t, cfg.batchSize * 4, events) && DeliveryRecords.Makes(t, t', events, now)
  {
    hide FirstCandidates, Materialized, DeliveryRecords.Makes;
    var s := h.states[k];
    StepTo(cfg, h, k, worker, Materialize(events));
    RunSafe(cfg, h, k);
    MaterializedAreFirst(s.table, cfg.batchSize * 4, events);
    forall e | e in events ensures DeliveryId(e) !in s.table.deliveries {
      assert s.table.events[e].id == e;
      if DeliveryId(e) in s.table.deliveries {
        assert DeliveryOk(cfg.maxAttempts, s.table, DeliveryId(e));
        DeliveryIdInjective(e, s.table.deliveries[DeliveryId(e)].eventId);
      }
    }
    MaterializedMakes(s.table, events, s.workers[worker].now);
  }

  // ---------- A whole round ----------

  // In any run a round materializes and claims with the one reading of the clock that it began with.
  lemma RoundUsesOneReading(cfg: Config, h: History, b: nat, i: nat, k: nat, worker: string, events: set<string>, ids: seq<string>)
    requires IsRun(cfg, h) && Steps(h, b, worker, Begin) && h.states[b].workers[worker].Idle?
    requires Follows(h, b, i, worker, Materialize(events)) && Follows(h, i, k, worker, Take(ids))
    ensures var now := h.states[b].clock;
            && MakesFirst(h.states[i].table, cfg.batchSize * 4, events)
            && DeliveryRecords.Makes(h.states[i].table, h.states[i + 1].table, events, now)
            && TakesFirst(h.states[k].table, now, cfg.batchSize, ids)
            && Locks(h.states[k].table, h.states[k + 1].table, ids, worker, now + cfg.lease)
            && worker in h.states[k + 1].workers && h.states[k + 1].workers[worker].Processing?
            && Carries(h.states[k].table, ids, h.states[k + 1].workers[worker].jobs)
  {
    hide FirstCandidates, Materialized, FirstDue, Claimed, MakesFirst, DeliveryRecords.Makes, TakesFirst, Locks, Carries;
    StepTo(cfg, h, b, worker, Begin);
    WorkerWaits(cfg, h, b + 1, i, worker);
    StepTo(cfg, h, i, worker, Materialize(events));
    CandidatesAreStored(h.states[i].table, cfg.batchSize * 4, events);
    WorkerWaits(cfg, h, i + 1, k, worker);
    MaterializeMakesFirst(cfg, h, i, worker, events);
    ClaimTakesFirst(cfg, h, k, worker, ids);
  }

  lemma CandidatesAreStored(t: Table, limit: nat, events: set<string>)
    requires FirstCandidates(t, limit, events)
    ensures events <= t.events.Keys
  {
  }

  // In any run the jobs of a claim are sent one by one, first come first served, and each is
  // recorded with the times at which it was sent and answered.
  lemma JobIsSent(cfg: Config, h: History, s: nat, i: nat, j: nat, worker: string, r: SendResult, permille: int, attemptId: string)
    requires IsRun(cfg, h) && Steps(h, s, worker, Start)
    requires h.states[s].workers[worker].Processing? && h.states[s].workers[worker].jobs != []
    requires Follows(h, s, i, worker, Answer(r, permille, attemptId)) && Follows(h, i, j, worker, Commit)
    ensures var jobs := h.states[s].workers[worker].jobs;
            var job, t, t' := jobs[0], h.states[j].table, h.states[j + 1].table;
            && job.deliveryId in t.deliveries && worker in h.states[j + 1].workers
            && (if t.deliveries[job.deliveryId].lockedBy == worker then
                  && Completes(cfg, t, t', job, h.states[s].clock, h.states[i].clock, r, permille, attemptId)
                  && h.states[j + 1].workers[worker] == Processing(jobs[1..])
                else t' == t && h.states[j + 1].workers[worker] == Idle)
  {
    hide CompletionOf, Complete, Completes;
    StepTo(cfg, h, s, worker, Start);
    WorkerWaits(cfg, h, s + 1, i, worker);
    ReportIsRecorded(cfg, h, i, j, worker, r, permille, attemptId);
  }
}
