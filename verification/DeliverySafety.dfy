// The delivery invariant holds in every state of every run.
module DeliverySafety {
  import opened Domain
  import opened Retry
  import opened DeliveryDb
  import opened DeliveryMachine
  import opened DeliveryInvariant

  // What a change of the table alone has to keep.
  ghost predicate TableMoves(cfg: Config, s: Sys, t': Table) {
    && TableOk(cfg.maxAttempts, t')
    && t'.events == s.table.events && t'.endpoints == s.table.endpoints
  }

  lemma RunInstalls(cfg: Config, s: Sys, id: string, t': Table, w': Worker)
    requires Inv(cfg, s) && id in s.workers && TableMoves(cfg, s, t')
    requires forall v :: v in s.workers && v != id ==> Respects(s.table, t', v)
    requires WorkerOk(cfg.maxAttempts, t', s.clock, id, w')
    ensures Inv(cfg, s.(table := t', workers := s.workers[id := w']))
  {
    hide WorkerOk, Respects, TableOk;
    OthersKept(cfg.maxAttempts, s, t', id, w');
  }

  // A step that only moves the worker.
  lemma MoveSafe(cfg: Config, s: Sys, id: string, w': Worker)
    requires Inv(cfg, s) && id in s.workers && WorkerOk(cfg.maxAttempts, s.table, s.clock, id, w')
    ensures Inv(cfg, s.(workers := s.workers[id := w']))
  {
    RunInstalls(cfg, s, id, s.table, w');
    assert s.(table := s.table, workers := s.workers[id := w']) == s.(workers := s.workers[id := w']);
  }

  lemma MaterializeSafe(cfg: Config, s: Sys, id: string, now: Time, events: set<string>)
    requires Inv(cfg, s) && id in s.workers && s.workers[id] == Materializing(now)
    requires events <= Candidates(s.table)
    ensures Inv(cfg, s.(table := Materialized(s.table, now, events), workers := s.workers[id := Claiming(now)]))
  {
    hide TableOk;
    assert WorkerOk(cfg.maxAttempts, s.table, s.clock, id, s.workers[id]);
    MaterializedKeeps(cfg.maxAttempts, s.table, now, events);
    RunInstalls(cfg, s, id, Materialized(s.table, now, events), Claiming(now));
  }

  lemma TakenJobs(max: nat, t: Table, now: Time, until: Time, worker: string, ids: seq<string>)
    requires TableOk(max, t) && ToSet(ids) <= Due(t, now) && Distinct(ids)
    ensures Takable(t, ids)
    ensures JobsOk(max, Claimed(t, until, worker, ToSet(ids)), worker, JobsOf(t, ids))
  {
    forall i | 0 <= i < |ids| ensures ids[i] in Due(t, now) { assert ids[i] in ToSet(ids); }
    forall i | 0 <= i < |ids| ensures ids[i] in t.deliveries && DeliveryOk(max, t, ids[i]) {}
  }

  lemma ClaimRespects(max: nat, t: Table, until: Time, worker: string, chosen: set<string>, v: string)
    requires v != worker
    ensures Respects(t, Claimed(t, until, worker, chosen), v)
  {
  }

  lemma TakeSafe(cfg: Config, s: Sys, id: string, now: Time, ids: seq<string>)
    requires Inv(cfg, s) && id in s.workers && s.workers[id] == Claiming(now)
    requires ToSet(ids) <= Due(s.table, now) && Distinct(ids)
    ensures Takable(s.table, ids)
    ensures Inv(cfg, s.(table := Claimed(s.table, now + cfg.lease, id, ToSet(ids)),
                        workers := s.workers[id := Processing(JobsOf(s.table, ids))]))
  {
    hide TableOk, Respects;
    assert WorkerOk(cfg.maxAttempts, s.table, s.clock, id, s.workers[id]);
    var t' := Claimed(s.table, now + cfg.lease, id, ToSet(ids));
    TakenJobs(cfg.maxAttempts, s.table, now, now + cfg.lease, id, ids);
    ClaimedKeeps(cfg.maxAttempts, s.table, now + cfg.lease, id, ToSet(ids), now);
    forall v | v in s.workers && v != id ensures Respects(s.table, t', v) {
      ClaimRespects(cfg.maxAttempts, s.table, now + cfg.lease, id, ToSet(ids), v);
    }
    RunInstalls(cfg, s, id, t', Processing(JobsOf(s.table, ids)));
  }

  lemma StartSafe(cfg: Config, s: Sys, id: string, jobs: seq<Job>)
    requires Inv(cfg, s) && id in s.workers && s.workers[id] == Processing(jobs)
    ensures Inv(cfg, s.(workers := s.workers[id := if jobs == [] then Idle else Sending(jobs[0], s.clock, jobs[1..])]))
  {
    assert WorkerOk(cfg.maxAttempts, s.table, s.clock, id, s.workers[id]);
    MoveSafe(cfg, s, id, if jobs == [] then Idle else Sending(jobs[0], s.clock, jobs[1..]));
  }

  // What a worker records fits the claim it works under.
  lemma CompletionFits(cfg: Config, t: Table, id: string, job: Job, startedAt: Time, clock: Time, r: SendResult,
      permille: int, attemptId: string)
    requires JobOk(cfg.maxAttempts, t, id, job) && 900 <= permille <= 1100
    ensures CompletionOk(cfg.maxAttempts, t, id, CompletionOf(cfg, job, startedAt, clock, r, permille, attemptId))
  {
    hide Jittered, Backoff;
    BackoffWhole(job.attemptCount + 1);
    BackoffPositive(job.attemptCount + 1);
    JitterBounds(Backoff(job.attemptCount + 1), permille);
  }

  lemma AnswerSafe(cfg: Config, s: Sys, id: string, job: Job, startedAt: Time, rest: seq<Job>, r: SendResult,
      permille: int, attemptId: string)
    requires Inv(cfg, s) && id in s.workers && s.workers[id] == Sending(job, startedAt, rest) && 900 <= permille <= 1100
    ensures Inv(cfg, s.(workers := s.workers[id :=
                  Completing(CompletionOf(cfg, job, startedAt, s.clock, r, permille, attemptId), rest)]))
  {
    hide CompletionOf, TableOk;
    assert WorkerOk(cfg.maxAttempts, s.table, s.clock, id, s.workers[id]);
    var c := CompletionOf(cfg, job, startedAt, s.clock, r, permille, attemptId);
    CompletionFits(cfg, s.table, id, job, startedAt, s.clock, r, permille, attemptId);
    assert c.deliveryId == job.deliveryId by { CompletionNames(cfg, job, startedAt, s.clock, r, permille, attemptId); }
    MoveSafe(cfg, s, id, Completing(c, rest));
  }

  lemma CompletionNames(cfg: Config, job: Job, startedAt: Time, clock: Time, r: SendResult, permille: int,
      attemptId: string)
    ensures CompletionOf(cfg, job, startedAt, clock, r, permille, attemptId).deliveryId == job.deliveryId
  {
  }

  lemma CommitRespects(max: nat, t: Table, worker: string, c: Completion, v: string)
    requires v != "" && v != worker && CompletionOk(max, t, worker, c) && Complete(t, worker, c).Some?
    ensures Respects(t, Complete(t, worker, c).value, v)
  {
  }

  lemma CommitSafe(cfg: Config, s: Sys, id: string, c: Completion, rest: seq<Job>)
    requires Inv(cfg, s) && id in s.workers && s.workers[id] == Completing(c, rest) && Complete(s.table, id, c).Some?
    ensures Inv(cfg, s.(table := Complete(s.table, id, c).value, workers := s.workers[id := Processing(rest)]))
  {
    hide TableOk, Respects, CompletionOk;
    var t' := Complete(s.table, id, c).value;
    assert WorkerOk(cfg.maxAttempts, s.table, s.clock, id, s.workers[id]);
    CompleteKeeps(cfg.maxAttempts, s.table, id, c);
    forall v | v in s.workers && v != id ensures Respects(s.table, t', v) {
      assert WorkerOk(cfg.maxAttempts, s.table, s.clock, v, s.workers[v]);
      CommitRespects(cfg.maxAttempts, s.table, id, c, v);
    }
    RestKept(cfg.maxAttempts, s.table, id, c, rest);
    RunInstalls(cfg, s, id, t', Processing(rest));
  }

  lemma RestKept(max: nat, t: Table, worker: string, c: Completion, rest: seq<Job>)
    requires JobsOk(max, t, worker, rest) && Without(rest, c.deliveryId) && Complete(t, worker, c).Some?
    ensures JobsOk(max, Complete(t, worker, c).value, worker, rest)
  {
  }

  lemma StepSafe(cfg: Config, s: Sys, id: string, c: Choice)
    requires Inv(cfg, s) && CanDo(cfg, s, Run(id, c))
    ensures Inv(cfg, Apply(cfg, s, Run(id, c)))
  {
    hide Inv, WorkerOk, Materialized, Claimed, Complete, JobsOf, CompletionOf, Candidates, Due, EventBefore, DueBefore, Distinct;
    var w := s.workers[id];
    IdleSafe(cfg, s, id);
    MoveSafe(cfg, s, id, Idle);
    match w
    case Idle => MoveSafe(cfg, s, id, Materializing(s.clock));
    case Materializing(now) => if c.Materialize? { MaterializeSafe(cfg, s, id, now, c.events); }
    case Claiming(now) => if c.Take? { TakeSafe(cfg, s, id, now, c.ids); }
    case Processing(jobs) => StartSafe(cfg, s, id, jobs);
    case Sending(job, startedAt, rest) =>
      if c.Answer? { AnswerSafe(cfg, s, id, job, startedAt, rest, c.result, c.permille, c.attemptId); }
    case Completing(completion, rest) => if Complete(s.table, id, completion).Some? { CommitSafe(cfg, s, id, completion, rest); }
  }

  lemma IdleSafe(cfg: Config, s: Sys, id: string)
    requires Inv(cfg, s) && id in s.workers
    ensures WorkerOk(cfg.maxAttempts, s.table, s.clock, id, Idle)
    ensures WorkerOk(cfg.maxAttempts, s.table, s.clock, id, Materializing(s.clock))
  {
    assert WorkerOk(cfg.maxAttempts, s.table, s.clock, id, s.workers[id]);
  }

  // ---------- Everything around the workers ----------

  lemma WorldMoves(cfg: Config, s: Sys, s': Sys)
    requires Inv(cfg, s) && s'.workers == s.workers && s'.clock >= s.clock
    requires s'.table.deliveries == s.table.deliveries && s'.table.history == s.table.history
    requires s.table.endpoints.Keys <= s'.table.endpoints.Keys
    requires forall id :: id in s.table.events ==> id in s'.table.events && s'.table.events[id] == s.table.events[id]
    requires EventsOk(s'.table, s'.stamps) && StampsOk(s'.clock, s'.stamps)
    ensures Inv(cfg, s')
  {
    forall id | id in s'.table.deliveries ensures DeliveryOk(cfg.maxAttempts, s'.table, id) {
      assert DeliveryOk(cfg.maxAttempts, s.table, id);
    }
    forall id | id in s.workers ensures WorkerOk(cfg.maxAttempts, s'.table, s'.clock, id, s.workers[id]) {
      WorkerKept(cfg.maxAttempts, s.table, s'.table, s.clock, s'.clock, id, s.workers[id]);
    }
  }

  lemma ApplySafe(cfg: Config, s: Sys, a: Action)
    requires Inv(cfg, s) && CanDo(cfg, s, a)
    ensures Inv(cfg, Apply(cfg, s, a))
  {
    hide TableOk, WorkersOk, Step;
    match a
    case Run(id, c) => StepSafe(cfg, s, id, c);
    case _ => WorldMoves(cfg, s, Apply(cfg, s, a));
  }

  lemma InitialSafe(cfg: Config, s: Sys)
    requires Initial(cfg, s)
    ensures Inv(cfg, s)
  {
  }

  lemma {:induction false} RunSafe(cfg: Config, h: History, k: nat)
    requires IsRun(cfg, h) && k < |h.states|
    ensures Inv(cfg, h.states[k])
  {
    hide Inv, Apply, CanDo, Initial;
    if k == 0 {
      InitialSafe(cfg, h.states[0]);
    } else {
      RunSafe(cfg, h, k - 1);
      ApplySafe(cfg, h.states[k - 1], h.actions[k - 1]);
    }
  }
}
