// What merchant webhook delivery promises, for every run of any number of workers.
module DeliveryTheorems {
  import opened Domain
  import opened Retry
  import opened DeliveryDb
  import opened DeliveryMachine
  import opened DeliveryInvariant
  import opened DeliverySafety

  // ---------- The ledger of attempts ----------

  // The attempts recorded for a delivery are numbered exactly from 1 to its count, and
  // there are never more than `maxAttempts` of them.
  lemma AttemptsAreNumbered(cfg: Config, h: History, k: nat, id: string)
    requires IsRun(cfg, h) && k < |h.states| && id in h.states[k].table.deliveries
    ensures var t := h.states[k].table;
            && (forall n: nat :: (id, n) in t.history <==> 1 <= n <= t.deliveries[id].attemptCount)
            && t.deliveries[id].attemptCount <= cfg.maxAttempts
  {
    hide Apply, CanDo;
    RunSafe(cfg, h, k);
    assert DeliveryOk(cfg.maxAttempts, h.states[k].table, id);
  }

  // A locked delivery is unfinished, an unfinished one has attempts left, and the time of
  // delivery is set exactly on success.
  lemma StatusAgrees(cfg: Config, h: History, k: nat, id: string)
    requires IsRun(cfg, h) && k < |h.states| && id in h.states[k].table.deliveries
    ensures var d := h.states[k].table.deliveries[id];
            && (d.lockedBy != "" <==> d.lockedUntil.Some?)
            && (d.lockedBy != "" ==> Unfinished(d.status))
            && (Unfinished(d.status) ==> d.attemptCount < cfg.maxAttempts)
            && (d.status == DeliveryPending <==> d.attemptCount == 0)
            && (d.deliveredAt.Some? <==> d.status == DeliverySucceeded)
  {
    hide Apply, CanDo;
    RunSafe(cfg, h, k);
    assert DeliveryOk(cfg.maxAttempts, h.states[k].table, id);
  }

  // A worker that wants to complete a delivery succeeds exactly while the claim on it is its
  // own, and then it records the next attempt.
  lemma CompletesIffClaimed(cfg: Config, h: History, k: nat, worker: string, c: Completion, rest: seq<Job>)
    requires IsRun(cfg, h) && k < |h.states| && worker in h.states[k].workers
    requires h.states[k].workers[worker] == Completing(c, rest)
    ensures var t := h.states[k].table;
            && c.deliveryId in t.deliveries
            && (Complete(t, worker, c).Some? <==> t.deliveries[c.deliveryId].lockedBy == worker)
            && (t.deliveries[c.deliveryId].lockedBy == worker ==> c.sequence == t.deliveries[c.deliveryId].attemptCount + 1)
  {
    hide Apply, CanDo;
    RunSafe(cfg, h, k);
    var s := h.states[k];
    assert WorkerOk(cfg.maxAttempts, s.table, s.clock, worker, s.workers[worker]);
    assert DeliveryOk(cfg.maxAttempts, s.table, c.deliveryId);
  }

  // ---------- One action and one delivery ----------

  // Action k is a claim of the delivery by this worker, at the time it has read.
  predicate ClaimsAt(h: History, k: nat, worker: string, id: string, now: Time)
    requires k < |h.actions| && k < |h.states|
  {
    var a, s := h.actions[k], h.states[k];
    && a.Run? && a.worker == worker && worker in s.workers && s.workers[worker] == Claiming(now)
    && a.choice.Take? && id in a.choice.ids
  }

  // Action k completes an attempt of the delivery.
  predicate CompletesAt(h: History, k: nat, worker: string, id: string)
    requires k < |h.actions| && k < |h.states|
  {
    var a, s := h.actions[k], h.states[k];
    && a.Run? && a.worker == worker && worker in s.workers && s.workers[worker].Completing? && a.choice.Commit?
    && s.workers[worker].completion.deliveryId == id
    && Complete(s.table, worker, s.workers[worker].completion).Some?
  }

  // How one step of a worker changes one delivery that exists.
  ghost predicate Touched(cfg: Config, s: Sys, worker: string, c: Choice, id: string, d': Delivery)
    requires id in s.table.deliveries
  {
    var d := s.table.deliveries[id];
    && worker in s.workers
    && match s.workers[worker]
       case Claiming(now) =>
         if c.Take? && id in c.ids then IsDue(s.table, d, now) && d' == d.(lockedBy := worker, lockedUntil := Some(now + cfg.lease))
         else d' == d
       case Completing(done, _) =>
         if c.Commit? && done.deliveryId == id && Complete(s.table, worker, done).Some?
         then d.lockedBy == worker && d' == Finished(d, done)
         else d' == d
       case _ => d' == d
  }

  lemma MaterializeTouches(cfg: Config, s: Sys, now: Time, events: set<string>, id: string)
    requires Inv(cfg, s) && events <= Candidates(s.table) && id in s.table.deliveries
    ensures var t' := Materialized(s.table, now, events);
            id in t'.deliveries && t'.deliveries[id] == s.table.deliveries[id]
  {
    hide TableOk, StampsOk, WorkersOk;
    MaterializedKeeps(cfg.maxAttempts, s.table, now, events);
  }

  lemma TakeTouches(cfg: Config, s: Sys, now: Time, worker: string, ids: seq<string>, id: string)
    requires Inv(cfg, s) && Distinct(ids) && ToSet(ids) <= Due(s.table, now) && id in s.table.deliveries
    ensures Takable(s.table, ids)
    ensures var d, t' := s.table.deliveries[id], Claimed(s.table, now + cfg.lease, worker, ToSet(ids));
            && id in t'.deliveries
            && (if id in ids then
                  IsDue(s.table, d, now) && t'.deliveries[id] == d.(lockedBy := worker, lockedUntil := Some(now + cfg.lease))
                else t'.deliveries[id] == d)
  {
    hide TableOk, StampsOk, WorkersOk;
    TakenJobs(cfg.maxAttempts, s.table, now, now + cfg.lease, worker, ids);
    ClaimTouches(s.table, now, now + cfg.lease, worker, ids, id);
  }

  lemma RunTouches(cfg: Config, s: Sys, worker: string, c: Choice, id: string)
    requires Inv(cfg, s) && CanDo(cfg, s, Run(worker, c)) && id in s.table.deliveries
    ensures id in Apply(cfg, s, Run(worker, c)).table.deliveries
    ensures Touched(cfg, s, worker, c, id, Apply(cfg, s, Run(worker, c)).table.deliveries[id])
  {
    hide Inv, Materialized, Claimed, Complete, Finished, IsDue, CompletionOf, JobsOf, Takable, Distinct, EventBefore, DueBefore;
    match s.workers[worker]
    case Materializing(now) => if c.Materialize? { MaterializeTouches(cfg, s, now, c.events, id); }
    case Claiming(now) => if c.Take? { TakeTouches(cfg, s, now, worker, c.ids, id); }
    case Completing(done, _) => if Complete(s.table, worker, done).Some? { CompleteTouches(s.table, worker, done, id); }
    case _ =>
  }

  lemma ClaimTouches(t: Table, now: Time, until: Time, worker: string, ids: seq<string>, id: string)
    requires id in t.deliveries && ToSet(ids) <= Due(t, now)
    ensures var d, d' := t.deliveries[id], Claimed(t, until, worker, ToSet(ids)).deliveries[id];
            if id in ids then IsDue(t, d, now) && d' == d.(lockedBy := worker, lockedUntil := Some(until)) else d' == d
  {
    if id in ids {
      var i :| 0 <= i < |ids| && ids[i] == id;
      assert ids[i] in ToSet(ids);
    }
  }

  lemma CompleteTouches(t: Table, worker: string, c: Completion, id: string)
    requires id in t.deliveries && Complete(t, worker, c).Some?
    ensures var d, t' := t.deliveries[id], Complete(t, worker, c).value;
            && id in t'.deliveries
            && (if c.deliveryId == id then d.lockedBy == worker && t'.deliveries[id] == Finished(d, c) else t'.deliveries[id] == d)
  {
  }

  // Action k neither claims nor completes this delivery.
  ghost predicate Untouched(h: History, k: nat, id: string)
    requires k < |h.actions| && k < |h.states|
  {
    && (forall worker, now :: !ClaimsAt(h, k, worker, id, now))
    && (forall worker :: !CompletesAt(h, k, worker, id))
  }

  lemma ActionTouches(cfg: Config, h: History, k: nat, id: string)
    requires IsRun(cfg, h) && k < |h.actions| && id in h.states[k].table.deliveries
    ensures id in h.states[k + 1].table.deliveries
    ensures if h.actions[k].Run?
            then Touched(cfg, h.states[k], h.actions[k].worker, h.actions[k].choice, id, h.states[k + 1].table.deliveries[id])
            else h.states[k + 1].table.deliveries[id] == h.states[k].table.deliveries[id]
  {
    hide Inv, Touched, Step, Enabled;
    RunSafe(cfg, h, k);
    var s, a := h.states[k], h.actions[k];
    if a.Run? { RunTouches(cfg, s, a.worker, a.choice, id); }
  }

  lemma ClaimSets(cfg: Config, h: History, k: nat, worker: string, id: string, now: Time)
    requires IsRun(cfg, h) && k < |h.actions| && ClaimsAt(h, k, worker, id, now)
    ensures id in h.states[k].table.deliveries && id in h.states[k + 1].table.deliveries
    ensures var d := h.states[k].table.deliveries[id];
            && IsDue(h.states[k].table, d, now) && now <= h.states[k].clock
            && h.states[k + 1].table.deliveries[id] == d.(lockedBy := worker, lockedUntil := Some(now + cfg.lease))
  {
    hide Apply, IsDue, TableOk, EventBefore, DueBefore;
    var s, ids := h.states[k], h.actions[k].choice.ids;
    RunSafe(cfg, h, k);
    assert WorkerOk(cfg.maxAttempts, s.table, s.clock, worker, s.workers[worker]);
    var i :| 0 <= i < |ids| && ids[i] == id;
    assert id in ToSet(ids);
    assert CanDo(cfg, s, h.actions[k]);
    ActionTouches(cfg, h, k, id);
  }

  lemma CompletionSets(cfg: Config, h: History, k: nat, worker: string, id: string)
    requires IsRun(cfg, h) && k < |h.actions| && CompletesAt(h, k, worker, id)
    ensures id in h.states[k].table.deliveries && id in h.states[k + 1].table.deliveries
    ensures var d, c := h.states[k].table.deliveries[id], h.states[k].workers[worker].completion;
            && d.lockedBy == worker && c.sequence == d.attemptCount + 1
            && h.states[k + 1].table.deliveries[id] == Finished(d, c)
  {
    hide Apply, CanDo, TableOk, Inv;
    var s := h.states[k];
    CompletesIffClaimed(cfg, h, k, worker, s.workers[worker].completion, s.workers[worker].rest);
    ActionTouches(cfg, h, k, id);
  }

  lemma UntouchedStays(cfg: Config, h: History, k: nat, id: string)
    requires IsRun(cfg, h) && k < |h.actions| && id in h.states[k].table.deliveries && Untouched(h, k, id)
    ensures id in h.states[k + 1].table.deliveries
    ensures h.states[k + 1].table.deliveries[id] == h.states[k].table.deliveries[id]
  {
    hide Apply, CanDo;
    ActionTouches(cfg, h, k, id);
    var s, a := h.states[k], h.actions[k];
    if a.Run? {
      match s.workers[a.worker]
      case Claiming(now) => assert !ClaimsAt(h, k, a.worker, id, now);
      case Completing(_, _) => assert !CompletesAt(h, k, a.worker, id);
      case _ =>
    }
  }

  lemma NewRow(cfg: Config, t: Table, clock: Time, worker: string, w: Worker, c: Choice, id: string)
    requires id !in t.deliveries && id in Step(cfg, t, clock, worker, w, c).0.deliveries
    ensures var d := Step(cfg, t, clock, worker, w, c).0.deliveries[id]; d.lockedBy == "" && d.attemptCount == 0
  {
    hide CompletionOf, JobsOf;
  }

  lemma NewIsFresh(cfg: Config, h: History, k: nat, id: string)
    requires IsRun(cfg, h) && k < |h.actions|
    requires id !in h.states[k].table.deliveries && id in h.states[k + 1].table.deliveries
    ensures var d := h.states[k + 1].table.deliveries[id]; d.lockedBy == "" && d.attemptCount == 0
  {
    hide CanDo, Step;
    var s, a := h.states[k], h.actions[k];
    if a.Run? && a.worker in s.workers { NewRow(cfg, s.table, s.clock, a.worker, s.workers[a.worker], a.choice, id); }
  }

  // ---------- Finished deliveries ----------

  lemma FinishedStays(cfg: Config, h: History, k: nat, id: string)
    requires IsRun(cfg, h) && k < |h.actions| && id in h.states[k].table.deliveries
    requires !Unfinished(h.states[k].table.deliveries[id].status)
    ensures id in h.states[k + 1].table.deliveries && h.states[k + 1].table.deliveries[id] == h.states[k].table.deliveries[id]
  {
    hide Apply, CanDo;
    StatusAgrees(cfg, h, k, id);
    forall worker, now ensures !ClaimsAt(h, k, worker, id, now) {
      if ClaimsAt(h, k, worker, id, now) { ClaimSets(cfg, h, k, worker, id, now); }
    }
    forall worker ensures !CompletesAt(h, k, worker, id) {
      if CompletesAt(h, k, worker, id) {
        CompletionSets(cfg, h, k, worker, id);
        NamedWorkers(cfg, h, k, worker);
      }
    }
    UntouchedStays(cfg, h, k, id);
  }

  lemma NamedWorkers(cfg: Config, h: History, k: nat, worker: string)
    requires IsRun(cfg, h) && k < |h.states| && worker in h.states[k].workers
    ensures worker != ""
  {
    hide Apply, CanDo;
    RunSafe(cfg, h, k);
    assert WorkerOk(cfg.maxAttempts, h.states[k].table, h.states[k].clock, worker, h.states[k].workers[worker]);
  }

  // A succeeded or failed delivery never changes again.
  lemma {:induction false} FinishedForever(cfg: Config, h: History, i: nat, j: nat, id: string)
    requires IsRun(cfg, h) && i <= j < |h.states| && id in h.states[i].table.deliveries
    requires !Unfinished(h.states[i].table.deliveries[id].status)
    ensures id in h.states[j].table.deliveries && h.states[j].table.deliveries[id] == h.states[i].table.deliveries[id]
  {
    hide Apply, CanDo;
    if i < j {
      FinishedForever(cfg, h, i, j - 1, id);
      FinishedStays(cfg, h, j - 1, id);
    }
  }

  // ---------- Claims ----------

  // The claim at action j still stands at state k.
  ghost predicate Stands(cfg: Config, h: History, j: nat, k: nat, worker: string, id: string, now: Time)
    requires j < k < |h.states| && |h.states| == |h.actions| + 1
  {
    && ClaimsAt(h, j, worker, id, now)
    && id in h.states[j].table.deliveries && id in h.states[k].table.deliveries
    && h.states[k].table.deliveries[id]
       == h.states[j].table.deliveries[id].(lockedBy := worker, lockedUntil := Some(now + cfg.lease))
    && forall i :: j < i < k ==> Untouched(h, i, id)
  }

  ghost predicate HasClaim(cfg: Config, h: History, k: nat, worker: string, id: string)
    requires k < |h.states| && |h.states| == |h.actions| + 1
  {
    exists j, now :: 0 <= j < k && Stands(cfg, h, j, k, worker, id, now)
  }

  // A lock is always that of a claim after which nobody has claimed or completed the delivery.
  lemma {:induction false} LockHasClaim(cfg: Config, h: History, k: nat, id: string)
    requires IsRun(cfg, h) && k < |h.states| && id in h.states[k].table.deliveries
    requires h.states[k].table.deliveries[id].lockedBy != ""
    ensures HasClaim(cfg, h, k, h.states[k].table.deliveries[id].lockedBy, id)
  {
    hide Apply, CanDo, Stands;
    if k == 0 {
      InitiallyEmpty(cfg, h);
    } else if id !in h.states[k - 1].table.deliveries {
      NewIsFresh(cfg, h, k - 1, id);
    } else {
      LockStep(cfg, h, k - 1, id);
      var before := h.states[k - 1].table.deliveries[id].lockedBy;
      if Untouched(h, k - 1, id) && before != "" {
        LockHasClaim(cfg, h, k - 1, id);
        var j, now :| 0 <= j < k - 1 && Stands(cfg, h, j, k - 1, before, id, now);
        StandsOn(cfg, h, j, k - 1, before, id, now);
      }
    }
  }

  lemma InitiallyEmpty(cfg: Config, h: History)
    requires IsRun(cfg, h)
    ensures h.states[0].table.deliveries == map[]
  {
  }

  lemma StandsOn(cfg: Config, h: History, j: nat, k: nat, worker: string, id: string, now: Time)
    requires IsRun(cfg, h) && j < k < |h.actions| && Stands(cfg, h, j, k, worker, id, now) && Untouched(h, k, id)
    ensures Stands(cfg, h, j, k + 1, worker, id, now)
  {
    hide Apply, CanDo, Untouched, ClaimsAt;
    UntouchedStays(cfg, h, k, id);
  }

  // After a step that touches the delivery it is either unlocked or freshly claimed.
  lemma LockStep(cfg: Config, h: History, k: nat, id: string)
    requires IsRun(cfg, h) && k < |h.actions| && id in h.states[k].table.deliveries
    ensures id in h.states[k + 1].table.deliveries
    ensures var before, after := h.states[k].table.deliveries[id].lockedBy, h.states[k + 1].table.deliveries[id].lockedBy;
            || (Untouched(h, k, id) && after == before)
            || after == ""
            || HasClaim(cfg, h, k + 1, after, id)
  {
    hide Apply, CanDo;
    if Untouched(h, k, id) {
      UntouchedStays(cfg, h, k, id);
    } else if worker, now :| ClaimsAt(h, k, worker, id, now) {
      ClaimSets(cfg, h, k, worker, id, now);
      assert Stands(cfg, h, k, k + 1, worker, id, now);
    } else {
      var worker :| CompletesAt(h, k, worker, id);
      CompletionSets(cfg, h, k, worker, id);
    }
  }

  // A completion is recorded only by the worker whose claim is the last one on the
  // delivery, and it carries the count that this worker read at that claim.
  lemma CompletionIsCurrent(cfg: Config, h: History, k: nat, worker: string, id: string)
    requires IsRun(cfg, h) && k < |h.actions| && CompletesAt(h, k, worker, id)
    ensures exists j, now ::
              && 0 <= j < k && ClaimsAt(h, j, worker, id, now)
              && id in h.states[j].table.deliveries
              && h.states[k].workers[worker].completion.sequence == h.states[j].table.deliveries[id].attemptCount + 1
              && forall i :: j < i < k ==> Untouched(h, i, id)
  {
    hide Apply, CanDo, Complete;
    CompletionSets(cfg, h, k, worker, id);
    NamedWorkers(cfg, h, k, worker);
    LockHasClaim(cfg, h, k, id);
    var j, now :| 0 <= j < k && Stands(cfg, h, j, k, worker, id, now);
    assert ClaimsAt(h, j, worker, id, now);
  }

  predicate CompletedAt(h: History, k: nat, id: string)
    requires k < |h.actions| && k < |h.states|
  {
    h.actions[k].Run? && CompletesAt(h, k, h.actions[k].worker, id)
  }

  // How many of the first k actions complete an attempt of the delivery.
  function Completions(h: History, id: string, k: nat): nat
    requires k <= |h.actions| && k <= |h.states|
  {
    if k == 0 then 0 else Completions(h, id, k - 1) + if CompletedAt(h, k - 1, id) then 1 else 0
  }

  // The count of a delivery is the number of completions that have been committed for it.
  lemma {:induction false} CompletionsAreCounted(cfg: Config, h: History, k: nat, id: string)
    requires IsRun(cfg, h) && k <= |h.actions|
    ensures Completions(h, id, k) == if id in h.states[k].table.deliveries then h.states[k].table.deliveries[id].attemptCount else 0
  {
    hide Apply, CanDo, CompletesAt;
    if k == 0 {
      InitiallyEmpty(cfg, h);
    } else {
      CompletionsAreCounted(cfg, h, k - 1, id);
      CompletionCounts(cfg, h, k - 1, id);
    }
  }

  lemma CompletionCounts(cfg: Config, h: History, k: nat, id: string)
    requires IsRun(cfg, h) && k < |h.actions|
    ensures CompletedAt(h, k, id) ==> id in h.states[k].table.deliveries && id in h.states[k + 1].table.deliveries
    ensures id in h.states[k].table.deliveries ==>
              && id in h.states[k + 1].table.deliveries
              && h.states[k + 1].table.deliveries[id].attemptCount
                 == h.states[k].table.deliveries[id].attemptCount + (if CompletedAt(h, k, id) then 1 else 0)
    ensures id !in h.states[k].table.deliveries && id in h.states[k + 1].table.deliveries ==>
              h.states[k + 1].table.deliveries[id].attemptCount == 0
  {
    hide Apply, CanDo, Complete;
    var worker := if h.actions[k].Run? then h.actions[k].worker else "";
    if CompletedAt(h, k, id) {
      CompletionSets(cfg, h, k, worker, id);
    } else if id in h.states[k].table.deliveries {
      if now :| ClaimsAt(h, k, worker, id, now) { ClaimSets(cfg, h, k, worker, id, now); } else { UntouchedStays(cfg, h, k, id); }
    } else if id in h.states[k + 1].table.deliveries {
      NewIsFresh(cfg, h, k, id);
    }
  }

  ghost predicate Uncompleted(h: History, i: nat, j: nat, id: string)
    requires j <= |h.actions| && j <= |h.states|
  {
    forall k, worker :: i < k < j ==> !CompletesAt(h, k, worker, id)
  }

  // While no completion intervenes, the lock outlasts the claim's lease.
  lemma {:induction false} LeaseHolds(cfg: Config, h: History, i: nat, j: nat, worker: string, id: string, now: Time)
    requires IsRun(cfg, h) && i < j < |h.states| && ClaimsAt(h, i, worker, id, now) && Uncompleted(h, i, j, id)
    ensures id in h.states[j].table.deliveries
    ensures var until := h.states[j].table.deliveries[id].lockedUntil; until.Some? && until.value >= now + cfg.lease
  {
    hide Apply, CanDo, CompletesAt;
    if i + 1 == j {
      ClaimSets(cfg, h, i, worker, id, now);
    } else {
      var k := j - 1;
      LeaseHolds(cfg, h, i, k, worker, id, now);
      if x, at :| ClaimsAt(h, k, x, id, at) {
        ClaimSets(cfg, h, k, x, id, at);
      } else {
        UntouchedStays(cfg, h, k, id);
      }
    }
  }

  // No delivery is claimed a second time, by any worker, before the lease of an earlier
  // uncompleted claim has run out.
  lemma LeaseExclusion(cfg: Config, h: History, i: nat, j: nat, worker: string, other: string, id: string, now: Time,
      at: Time)
    requires IsRun(cfg, h) && i < j < |h.actions|
    requires ClaimsAt(h, i, worker, id, now) && ClaimsAt(h, j, other, id, at) && Uncompleted(h, i, j, id)
    ensures now + cfg.lease < at <= h.states[j].clock
  {
    hide Apply, CanDo, ClaimsAt, CompletesAt;
    LeaseHolds(cfg, h, i, j, worker, id, now);
    ClaimSets(cfg, h, j, other, id, at);
  }

  // A retry is claimed only after the backoff of its last attempt, jitter included.
  lemma RetryWaits(cfg: Config, h: History, k: nat, worker: string, id: string, now: Time)
    requires IsRun(cfg, h) && k < |h.actions| && ClaimsAt(h, k, worker, id, now)
    ensures id in h.states[k].table.deliveries
    ensures var d := h.states[k].table.deliveries[id];
            d.attemptCount > 0 ==>
              && d.status == DeliveryRetry && d.lastAttemptAt.Some?
              && h.states[k].clock >= d.lastAttemptAt.value + 900 * (Backoff(d.attemptCount) / 1000)
  {
    hide Apply, CanDo, Backoff;
    ClaimSets(cfg, h, k, worker, id, now);
    RunSafe(cfg, h, k);
    assert DeliveryOk(cfg.maxAttempts, h.states[k].table, id);
  }

  // ---------- Events ----------

  // Each event has at most one delivery, to the endpoint of its own scope.
  lemma OneDeliveryPerEvent(cfg: Config, h: History, k: nat, a: string, b: string)
    requires IsRun(cfg, h) && k < |h.states|
    requires a in h.states[k].table.deliveries && b in h.states[k].table.deliveries
    requires h.states[k].table.deliveries[a].eventId == h.states[k].table.deliveries[b].eventId
    ensures a == b
    ensures var t := h.states[k].table;
            var d := t.deliveries[a];
            d.eventId in t.events && t.events[d.eventId].scope == d.scope && d.scope in t.endpoints
  {
    hide Apply, CanDo;
    RunSafe(cfg, h, k);
    assert DeliveryOk(cfg.maxAttempts, h.states[k].table, a) && DeliveryOk(cfg.maxAttempts, h.states[k].table, b);
  }

  // Rotating the URL or the secret of an enabled endpoint keeps its identity and activation;
  // setting a disabled one activates it at the time that the call has read, and a new one is
  // created then. Nothing else changes.
  lemma RotationKeepsActivation(cfg: Config, s: Sys, scope: Scope, id: string, url: string, secret: string, now: Time)
    ensures var t, t' := s.table, Apply(cfg, s, SetEndpoint(scope, id, url, secret, now)).table;
            && scope in t'.endpoints && t'.endpoints[scope].enabled
            && t'.endpoints[scope].url == url && t'.endpoints[scope].secret == secret
            && (if scope in t.endpoints then
                  && t'.endpoints[scope].id == t.endpoints[scope].id
                  && t'.endpoints[scope].createdAt == t.endpoints[scope].createdAt
                  && t'.endpoints[scope].activeSince
                     == (if t.endpoints[scope].enabled then t.endpoints[scope].activeSince else now)
                else
                  && t'.endpoints[scope].id == id
                  && t'.endpoints[scope].createdAt == now && t'.endpoints[scope].activeSince == now)
            && t' == t.(endpoints := t.endpoints[scope := t'.endpoints[scope]])
  {
  }

  // Disabling an endpoint only switches it off.
  lemma DisableSwitchesOff(cfg: Config, s: Sys, scope: Scope)
    ensures var t, t' := s.table, Apply(cfg, s, DisableEndpoint(scope)).table;
            if scope in t.endpoints then t' == t.(endpoints := t.endpoints[scope := t.endpoints[scope].(enabled := false)])
            else t' == t
  {
  }

  // Action n switches the endpoint of this event on, after the event was stamped, with a
  // time read no later than the event's own.
  predicate RevivesAt(h: History, n: nat, id: string)
    requires n < |h.actions| && n < |h.states|
  {
    && id in h.states[n].stamps && h.actions[n].SetEndpoint?
    && var e := h.states[n].stamps[id].event;
       h.actions[n].scope == e.scope && !Enabled(h.states[n].table, e.scope) && h.actions[n].now <= e.createdAt
  }

  ghost predicate StaysOn(h: History, n: nat, k: nat, scope: Scope)
    requires k < |h.states|
  {
    forall m :: n < m <= k ==> Enabled(h.states[m].table, scope)
  }

  // Action n switches the endpoint on, and up to state k nothing switches it off.
  ghost predicate Activates(h: History, n: nat, k: nat, scope: Scope)
    requires k < |h.states| == |h.actions| + 1
  {
    && n < k && h.actions[n].SetEndpoint? && h.actions[n].scope == scope
    && !Enabled(h.states[n].table, scope) && StaysOn(h, n, k, scope)
  }

  lemma ActivationStep(cfg: Config, s: Sys, a: Action, scope: Scope)
    requires Enabled(Apply(cfg, s, a).table, scope)
    ensures var since := Apply(cfg, s, a).table.endpoints[scope].activeSince;
            if Enabled(s.table, scope) then since == s.table.endpoints[scope].activeSince
            else a.SetEndpoint? && a.scope == scope && since == a.now
  {
  }

  // An enabled endpoint has been active since the time that the call read which switched it on.
  lemma {:induction false} EnabledSince(cfg: Config, h: History, k: nat, scope: Scope) returns (n: nat)
    requires IsRun(cfg, h) && k < |h.states| && Enabled(h.states[k].table, scope)
    ensures Activates(h, n, k, scope) && h.states[k].table.endpoints[scope].activeSince == h.actions[n].now
  {
    hide Apply, CanDo;
    if k > 0 {
      ActivationStep(cfg, h.states[k - 1], h.actions[k - 1], scope);
      n := k - 1;
      if Enabled(h.states[k - 1].table, scope) {
        n := EnabledSince(cfg, h, k - 1, scope);
        assert StaysOn(h, n, k, scope);
      }
    }
  }

  // What switched the endpoint on came after every event that it was off for.
  lemma {:induction false} ActivatedAfter(cfg: Config, h: History, n: nat, k: nat, id: string)
    requires IsRun(cfg, h) && k < |h.states| && id in h.states[k].stamps && h.states[k].stamps[id].off
    requires Activates(h, n, k, h.states[k].stamps[id].event.scope)
    ensures id in h.states[n].stamps && h.states[n].stamps[id] == h.states[k].stamps[id]
  {
    hide Apply, CanDo;
    var scope := h.states[k].stamps[id].event.scope;
    assert Enabled(h.states[k].table, scope);
    OffAndOn(cfg, h, k - 1, id);
    if n < k - 1 {
      assert StaysOn(h, n, k - 1, scope);
      ActivatedAfter(cfg, h, n, k - 1, id);
    }
  }

  lemma OffAndOn(cfg: Config, h: History, k: nat, id: string)
    requires IsRun(cfg, h) && k < |h.actions| && id in h.states[k + 1].stamps && h.states[k + 1].stamps[id].off
    requires Enabled(h.states[k + 1].table, h.states[k + 1].stamps[id].event.scope)
    ensures id in h.states[k].stamps && h.states[k].stamps[id] == h.states[k + 1].stamps[id]
  {
    hide Step;
  }

  // An event stamped while its endpoint was off can be materialized exactly when what has
  // switched the endpoint on since then had read the clock no later than the stamp.
  lemma OffEventIsCandidate(cfg: Config, h: History, k: nat, id: string)
    requires IsRun(cfg, h) && k < |h.states| && id in h.states[k].table.events
    requires id in h.states[k].stamps && h.states[k].stamps[id].off
    ensures var t := h.states[k].table;
            var e := t.events[id];
            IsCandidate(t, e) <==>
              && DeliveryId(id) !in t.deliveries
              && exists n :: 0 <= n < k && RevivesAt(h, n, id) && StaysOn(h, n, k, e.scope)
  {
    hide Apply, CanDo, StaysOn;
    EventsAreStamped(cfg, h, k, id);
    OneDeliveryId(cfg, h, k, id);
    var t := h.states[k].table;
    var scope := t.events[id].scope;
    if Enabled(t, scope) {
      var n := EnabledSince(cfg, h, k, scope);
      ActivatedAfter(cfg, h, n, k, id);
      assert RevivesAt(h, n, id) <==> h.actions[n].now <= t.events[id].createdAt;
      forall m | 0 <= m < k && RevivesAt(h, m, id) && StaysOn(h, m, k, scope) ensures m == n {
        StampStays(cfg, h, m, k, id);
        OneActivation(h, m, n, k, scope);
      }
    } else {
      forall m | 0 <= m < k && StaysOn(h, m, k, scope) ensures false { OnAtEnd(h, m, k, scope); }
    }
  }

  lemma OnAtEnd(h: History, n: nat, k: nat, scope: Scope)
    requires n < k < |h.states| && StaysOn(h, n, k, scope)
    ensures Enabled(h.states[k].table, scope)
  {
  }

  lemma OneActivation(h: History, m: nat, n: nat, k: nat, scope: Scope)
    requires k < |h.states| == |h.actions| + 1 && Activates(h, m, k, scope) && Activates(h, n, k, scope)
    ensures m == n
  {
  }

  lemma {:induction false} StampStays(cfg: Config, h: History, j: nat, k: nat, id: string)
    requires IsRun(cfg, h) && j <= k < |h.states| && id in h.states[j].stamps
    ensures id in h.states[k].stamps && h.states[k].stamps[id] == h.states[j].stamps[id]
  {
    hide Apply, CanDo;
    if j < k {
      StampStays(cfg, h, j, k - 1, id);
      StampKept(cfg, h.states[k - 1], h.actions[k - 1], id);
    }
  }

  lemma StampKept(cfg: Config, s: Sys, a: Action, id: string)
    requires CanDo(cfg, s, a) && id in s.stamps
    ensures id in Apply(cfg, s, a).stamps && Apply(cfg, s, a).stamps[id] == s.stamps[id]
  {
    hide Step;
  }

  lemma OneDeliveryId(cfg: Config, h: History, k: nat, id: string)
    requires IsRun(cfg, h) && k < |h.states|
    ensures var t := h.states[k].table;
            (forall d :: d in t.deliveries ==> t.deliveries[d].eventId != id) <==> DeliveryId(id) !in t.deliveries
  {
    hide Apply, CanDo;
    RunSafe(cfg, h, k);
    var t := h.states[k].table;
    forall d | d in t.deliveries && t.deliveries[d].eventId == id ensures d == DeliveryId(id) {
      assert DeliveryOk(cfg.maxAttempts, t, d);
    }
    if DeliveryId(id) in t.deliveries {
      assert DeliveryOk(cfg.maxAttempts, t, DeliveryId(id));
      DeliveryIdInjective(id, t.deliveries[DeliveryId(id)].eventId);
    }
  }

  // A call that reads the clock where it switches the endpoint on needs the very instant of the stamp.
  lemma FreshReadingNeedsTie(cfg: Config, h: History, n: nat, id: string)
    requires IsRun(cfg, h) && n < |h.actions| && RevivesAt(h, n, id) && h.actions[n].now == h.states[n].clock
    ensures h.actions[n].now == h.states[n].stamps[id].event.createdAt
  {
    hide Apply, CanDo;
    RunSafe(cfg, h, n);
  }

  // A delivery appears only for an event that its endpoint, enabled, has been active for.
  lemma NewIsCandidate(cfg: Config, h: History, k: nat, d: string)
    requires IsRun(cfg, h) && k < |h.actions|
    requires d !in h.states[k].table.deliveries && d in h.states[k + 1].table.deliveries
    ensures var t := h.states[k].table;
            exists e :: e in t.events && d == DeliveryId(e) && IsCandidate(t, t.events[e])
  {
    hide IsRun, CompletionOf, JobsOf, EventBefore, DueBefore, IsCandidate;
    RunIs(cfg, h, k);
    var s, a := h.states[k], h.actions[k];
    var w := s.workers[a.worker];
    assert w.Materializing? && a.choice.Materialize?;
    var e :| e in a.choice.events && d == DeliveryId(e);
    assert e in Candidates(s.table);
  }

  lemma RunIs(cfg: Config, h: History, k: nat)
    requires IsRun(cfg, h) && k < |h.actions|
    ensures |h.states| == |h.actions| + 1
    ensures CanDo(cfg, h.states[k], h.actions[k]) && h.states[k + 1] == Apply(cfg, h.states[k], h.actions[k])
  {
    hide CanDo, Apply;
  }

  lemma StampBefore(cfg: Config, h: History, k: nat, id: string)
    requires IsRun(cfg, h) && k < |h.actions| && id in h.states[k + 1].stamps
    ensures if id in h.states[k].stamps then h.states[k].stamps[id] == h.states[k + 1].stamps[id]
            else h.states[k + 1].table == h.states[k].table
  {
    hide Step;
  }

  lemma Unstamped(cfg: Config, h: History, k: nat, id: string)
    requires IsRun(cfg, h) && k < |h.states| && id !in h.states[k].stamps
    ensures DeliveryId(id) !in h.states[k].table.deliveries
  {
    hide Apply, CanDo;
    RunSafe(cfg, h, k);
    var t := h.states[k].table;
    if DeliveryId(id) in t.deliveries {
      assert DeliveryOk(cfg.maxAttempts, t, DeliveryId(id));
      DeliveryIdInjective(id, t.deliveries[DeliveryId(id)].eventId);
    }
  }

  // An event that was stamped while its endpoint was off is never delivered, unless a call
  // switches the endpoint on with a time read no later than the stamp.
  lemma {:induction false} OffEventNeverDelivered(cfg: Config, h: History, k: nat, id: string)
    requires IsRun(cfg, h) && k < |h.states| && id in h.states[k].stamps && h.states[k].stamps[id].off
    requires forall n :: 0 <= n < k ==> !RevivesAt(h, n, id)
    ensures DeliveryId(id) !in h.states[k].table.deliveries
  {
    hide Apply, CanDo, IsCandidate, RevivesAt;
    if k == 0 {
      InitiallyEmpty(cfg, h);
    } else {
      StampBefore(cfg, h, k - 1, id);
      if id in h.states[k - 1].stamps {
        OffEventNeverDelivered(cfg, h, k - 1, id);
      } else {
        Unstamped(cfg, h, k - 1, id);
      }
      if DeliveryId(id) in h.states[k].table.deliveries {
        NewIsCandidate(cfg, h, k - 1, DeliveryId(id));
        var t := h.states[k - 1].table;
        var e :| e in t.events && DeliveryId(id) == DeliveryId(e) && IsCandidate(t, t.events[e]);
        DeliveryIdInjective(id, e);
        EventsAreStamped(cfg, h, k - 1, id);
        OffEventIsCandidate(cfg, h, k - 1, id);
      }
    }
  }

  lemma EventsAreStamped(cfg: Config, h: History, k: nat, id: string)
    requires IsRun(cfg, h) && k < |h.states| && id in h.states[k].table.events
    ensures id in h.states[k].stamps && h.states[k].table.events[id] == h.states[k].stamps[id].event
    ensures h.states[k].table.events[id].id == id
  {
    hide Apply, CanDo;
    RunSafe(cfg, h, k);
  }

  // It does happen: an event that is stamped between SetEndpoint's reading of the clock and
  // its write, or at the very instant of the reading, is delivered.
  lemma EarlyReadingDelivers(cfg: Config, scope: Scope, read: Time, stamped: Time)
    requires cfg.maxAttempts > 0 && cfg.lease > 0 && cfg.batchSize > 0 && read <= stamped
    ensures exists h :: IsRun(cfg, h) && |h.states| == 6
                     && "e" in h.states[5].stamps && h.states[5].stamps["e"].off
                     && h.states[5].stamps["e"].event.createdAt == stamped
                     && (forall n :: 0 <= n < 5 && h.actions[n].SetEndpoint? ==> h.actions[n].now == read)
                     && DeliveryId("e") in h.states[5].table.deliveries
  {
    hide Apply, CanDo, IsRun, Materialized;
    var e := Event("e", scope, stamped);
    var actions := [StampEvent("e", scope), WriteEvent("e"), SetEndpoint(scope, "whe", "url", "secret", read),
                    Run("w", Begin), Run("w", Materialize({"e"}))];
    var s0, s2 := Fresh(stamped), Written(e);
    var s3 := Activated(e, read);
    var s1 := s2.(table := s0.table);
    var s4 := s3.(workers := map["w" := Materializing(stamped)]);
    var s5 := s4.(table := Materialized(s4.table, stamped, {"e"}), workers := map["w" := Claiming(stamped)]);
    EventIsWritten(cfg, e);
    EndpointIsSet(cfg, e, read);
    EventIsMaterialized(cfg, e, read);
    FiveSteps(cfg, [s0, s1, s2, s3, s4, s5], actions);
    var h := History([s0, s1, s2, s3, s4, s5], actions);
    assert IsRun(cfg, h);
  }

  lemma FiveSteps(cfg: Config, states: seq<Sys>, actions: seq<Action>)
    requires |states| == 6 && |actions| == 5 && Initial(cfg, states[0])
    requires CanDo(cfg, states[0], actions[0]) && Apply(cfg, states[0], actions[0]) == states[1]
    requires CanDo(cfg, states[1], actions[1]) && Apply(cfg, states[1], actions[1]) == states[2]
    requires CanDo(cfg, states[2], actions[2]) && Apply(cfg, states[2], actions[2]) == states[3]
    requires CanDo(cfg, states[3], actions[3]) && Apply(cfg, states[3], actions[3]) == states[4]
    requires CanDo(cfg, states[4], actions[4]) && Apply(cfg, states[4], actions[4]) == states[5]
    ensures IsRun(cfg, History(states, actions))
  {
    hide CanDo, Apply, Initial;
  }

  function Fresh(clock: Time): Sys {
    Sys(clock, Table(map[], map[], map[], map[]), map[], map["w" := Idle])
  }

  // The event has been stamped and written while its endpoint did not exist.
  function Written(e: Event): Sys {
    var s := Fresh(e.createdAt);
    s.(table := s.table.(events := map[e.id := e]), stamps := map[e.id := Stamp(e, true)])
  }

  // Then its endpoint has been set, with a time that was read before.
  function Activated(e: Event, read: Time): Sys {
    var s := Written(e);
    s.(table := s.table.(endpoints := map[e.scope := Endpoint("whe", "url", "secret", true, read, read)]))
  }

  lemma EventIsWritten(cfg: Config, e: Event)
    ensures var s0, s2 := Fresh(e.createdAt), Written(e);
            var s1 := s2.(table := s0.table);
            && CanDo(cfg, s0, StampEvent(e.id, e.scope)) && Apply(cfg, s0, StampEvent(e.id, e.scope)) == s1
            && CanDo(cfg, s1, WriteEvent(e.id)) && Apply(cfg, s1, WriteEvent(e.id)) == s2
  {
  }

  lemma EndpointIsSet(cfg: Config, e: Event, read: Time)
    requires read <= e.createdAt
    ensures var a := SetEndpoint(e.scope, "whe", "url", "secret", read);
            CanDo(cfg, Written(e), a) && Apply(cfg, Written(e), a) == Activated(e, read)
  {
  }

  lemma EventIsMaterialized(cfg: Config, e: Event, read: Time)
    requires read <= e.createdAt && cfg.batchSize > 0
    ensures var s3 := Activated(e, read);
            var s4 := s3.(workers := map["w" := Materializing(s3.clock)]);
            var t5 := Materialized(s4.table, s3.clock, {e.id});
            && CanDo(cfg, s3, Run("w", Begin)) && Apply(cfg, s3, Run("w", Begin)) == s4
            && CanDo(cfg, s4, Run("w", Materialize({e.id})))
            && Apply(cfg, s4, Run("w", Materialize({e.id}))) == s4.(table := t5, workers := map["w" := Claiming(s3.clock)])
            && DeliveryId(e.id) in t5.deliveries
  {
    hide FirstCandidates, Materialized, CompletionOf, JobsOf, Claimed, Complete, FirstDue;
    var t := Activated(e, read).table;
    OnlyCandidate(t, e, cfg.batchSize * 4);
    ChosenIsDelivered(t, e.createdAt, e.id);
  }

  lemma OnlyCandidate(t: Table, e: Event, limit: nat)
    requires t.events == map[e.id := e] && t.deliveries == map[] && limit > 0 && Enabled(t, e.scope)
    requires e.createdAt >= t.endpoints[e.scope].activeSince
    ensures FirstCandidates(t, limit, {e.id})
  {
    hide EventBefore;
    assert Candidates(t) == {e.id} by { assert IsCandidate(t, t.events[e.id]); }
    assert |{e.id}| == 1;
  }

  lemma ChosenIsDelivered(t: Table, now: Time, event: string)
    requires event in t.events
    ensures DeliveryId(event) in Materialized(t, now, {event}).deliveries
  {
    var chosen := {event};
    assert event in chosen;
    assert DeliveryId(event) in (set k | k in chosen :: DeliveryId(k));
  }

  // SetEndpoint reads the endpoint and writes it in two calls. If a disable comes between
  // them, the endpoint is on again with its old activation, as if it had never been off:
  // every event of the interval becomes a candidate.
  lemma SplitSetEndpointRevives(t: Table, scope: Scope, id: string, url: string, secret: string, now: Time, e: Event)
    requires Enabled(t, scope) && e.scope == scope && e.createdAt >= t.endpoints[scope].activeSince
    requires forall d :: d in t.deliveries ==> t.deliveries[d].eventId != e.id
    ensures var read := EndpointAt(t, scope);
            var off := Disable(t, scope).value;
            var on := Upsert(off, scope, Drafted(read, id, url, secret, now));
            && !Enabled(off, scope) && !IsCandidate(off, e)
            && on.endpoints[scope].activeSince == t.endpoints[scope].activeSince && IsCandidate(on, e)
            && (now > e.createdAt ==> !IsCandidate(Reset(off, scope, id, url, secret, now), e))
  {
  }
}
