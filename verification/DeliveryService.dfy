// The delivery service over its tables, as the code is written. `RunOnce` is one worker of
// `DeliveryMachine` running on its own: its script follows the code, and it repeats what the
// outside has answered. A step of the machine that reads the clock takes one reply of the
// outside.
module DeliveryService {
  import opened Domain
  import opened Outside
  import opened Router
  import opened Retry
  import opened DeliveryDb
  import opened DeliveryMachine
  import opened DeliveryRecords
  import opened DeliveryStore
  import opened DeliveryTrace

  // Any 2xx answer is a success. A request that timed out, came too early or too often, or
  // met a failing server is tried again, as is one without an answer, unless its target was
  // refused. Every other answer is final.
  method ClassifyDelivery(r: SendResult) returns (status: DeliveryStatus)
    ensures status == DeliverySucceeded <==> r.httpStatus.Some? && 200 <= r.httpStatus.value < 300
    ensures status == DeliveryRetry <==>
              match r.httpStatus
              case Some(code) => code in {408, 425, 429} || code >= 500
              case None => r.errorCode !in {"target_not_public", "invalid_url"}
    ensures status != DeliveryPending
    ensures status == Classify(r)
  {
    if r.httpStatus.Some? {
      var code := r.httpStatus.value;
      if code >= 200 && code < 300 {
        return DeliverySucceeded;
      }
      if code == 408 || code == 425 || code == 429 || code >= 500 {
        return DeliveryRetry;
      }
      return DeliveryFailed;
    }
    match r.errorCode {
      case "target_not_public" => return DeliveryFailed;
      case "invalid_url" => return DeliveryFailed;
      case _ => return DeliveryRetry;
    }
  }

  // How many attempts a script tries to record.
  function Commits(script: seq<Moment>): nat {
    if script == [] then 0
    else Commits(script[..|script| - 1]) + if script[|script| - 1].choice.Commit? then 1 else 0
  }

  lemma {:induction false} CommitsAppend(first: seq<Moment>, second: seq<Moment>)
    ensures Commits(first + second) == Commits(first) + Commits(second)
    decreases |second|
  {
    if second == [] {
      assert first + second == first;
    } else {
      var n := |second| - 1;
      CommitsAppend(first, second[..n]);
      assert (first + second)[..|first| + n] == first + second[..n];
    }
  }

  class Service {
    const store: Store
    const outside: Oracle<Answers>
    const workerId: string
    const cfg: Config

    // Unset options fall back to 25 deliveries, 30 seconds and 12 attempts.
    constructor (store: Store, outside: Oracle<Answers>, workerId: string, batchSize: int, lease: int, maxAttempts: int)
      ensures this.store == store && this.outside == outside && this.workerId == workerId
      ensures cfg == Config(if maxAttempts <= 0 then 12 else maxAttempts, if batchSize <= 0 then 25 else batchSize,
                            if lease <= 0 then 30 * SECOND else lease)
      ensures cfg.maxAttempts > 0 && cfg.batchSize > 0 && cfg.lease > 0
    {
      this.store := store;
      this.outside := outside;
      this.workerId := workerId;
      this.cfg := Config(if maxAttempts <= 0 then 12 else maxAttempts, if batchSize <= 0 then 25 else batchSize,
                         if lease <= 0 then 30 * SECOND else lease);
    }

    // A draft is refused exactly for a bad workspace, URL or secret, or when the secret
    // cannot be encrypted; then nothing changes.
    method SetEndpoint(scope: Scope, url: string, validUrl: bool, secret: seq<bv8>) returns (saved: Option<Endpoint>)
      modifies store, outside
      ensures var a := outside.answers(old(outside.asked));
              if scope.workspace == "" || !validUrl || |secret| < 32 || a.ciphertext.None? then
                saved == None && store.Contents() == old(store.Contents())
              else
                && store.Contents() == Reset(old(store.Contents()), scope, a.id, url, a.ciphertext.value, a.now)
                && saved == EndpointAt(store.Contents(), scope)
    {
      if scope.workspace == "" || !validUrl || |secret| < 32 {
        return None;
      }
      var given := outside.Ask();
      if given.ciphertext.None? {
        return None;
      }
      var endpoint := Endpoint(given.id, url, given.ciphertext.value, true, given.now, given.now);
      var existing := store.GetWebhookEndpoint(scope);
      if existing.Some? {
        endpoint := endpoint.(id := existing.value.id, createdAt := existing.value.createdAt);
        if existing.value.enabled {
          endpoint := endpoint.(activeSince := existing.value.activeSince);
        }
      }
      var row := store.UpsertWebhookEndpoint(scope, endpoint);
      return Some(row);
    }

    method DisableEndpoint(scope: Scope) returns (found: bool)
      modifies store
      ensures match Disable(old(store.Contents()), scope)
              case Some(t) => found && store.Contents() == t
              case None => !found && store.Contents() == old(store.Contents())
    {
      found := store.DisableWebhookEndpoint(scope);
    }

    // Since answer number `from` and table t, with the clock last read as `clock`, the worker
    // has made the steps of the script from w, and stands at w'.
    ghost predicate Did(from: nat, clock: Time, t: Table, w: Worker, script: seq<Moment>, w': Worker)
      reads store, outside
    {
      && Keyed(store.Contents())
      && Follows(cfg, outside.answers, from, clock, t, workerId, w, script, store.Contents(), w', outside.asked)
    }

    // Materialize, claim, and work through the jobs until one cannot be recorded. All jobs
    // that were taken are recorded exactly when the call succeeds.
    method RunOnce() returns (processed: nat, ok: bool, ghost script: seq<Moment>)
      requires Keyed(store.Contents()) && cfg.batchSize > 0
      modifies store, outside
      ensures Did(old(outside.asked), outside.answers(old(outside.asked)).now, old(store.Contents()), Idle, script, Idle)
      ensures |script| > 3 && script[0].choice == Begin && script[1].choice.Materialize? && script[2].choice.Take?
      ensures forall i :: 0 < i < |script| ==> script[i].choice != Begin
      ensures if ok then processed == |script[2].choice.ids| else processed < |script[2].choice.ids|
      ensures Commits(script) == if ok then processed else processed + 1
    {
      hide Step, Follows, Materialized, Claimed, FirstCandidates, FirstDue, Keyed, Fitting, Commits, Completes;
      var jobs: seq<Job>;
      jobs, script := ClaimJobs();
      ghost var n0, clock, t0 := old(outside.asked), outside.answers(old(outside.asked)).now, old(store.Contents());
      processed, ok := 0, true;
      while processed < |jobs|
        invariant |script| > 2 && script[0].choice == Begin && script[1].choice.Materialize? && script[2].choice.Take?
        invariant processed <= |jobs| == |script[2].choice.ids|
        invariant forall i :: 0 < i < |script| ==> script[i].choice != Begin
        invariant Commits(script) == processed
        invariant Did(n0, clock, t0, Idle, script, Processing(jobs[processed..]))
      {
        ghost var t, n, rest, more := store.Contents(), outside.asked, jobs[processed + 1..], [];
        assert jobs[processed..] == [jobs[processed]] + rest;
        ok, more := ProcessJob(jobs[processed], rest, LastReading(clock, script));
        FollowsAppend(cfg, outside.answers, n0, clock, t0, workerId, Idle, script, t, Processing([jobs[processed]] + rest), n,
                      more, store.Contents(), if ok then Processing(rest) else Idle, outside.asked);
        CommitsAppend(script, more);
        script := script + more;
        if !ok {
          return;
        }
        processed := processed + 1;
      }
      ghost var t := store.Contents();
      ghost var end := Moment(LastReading(clock, script), Start);
      assert jobs[processed..] == [];
      Ends(cfg, t, workerId, LastReading(clock, script), outside.answers(outside.asked));
      Onward(cfg, outside.answers, n0, clock, t0, workerId, Idle, script, t, Processing([]), outside.asked, end, t, Idle);
      OneMore(script, end);
      script := script + [end];
    }

    // The two statements that come before the jobs.
    method ClaimJobs() returns (jobs: seq<Job>, ghost script: seq<Moment>)
      requires Keyed(store.Contents()) && cfg.batchSize > 0
      modifies store, outside
      ensures Did(old(outside.asked), outside.answers(old(outside.asked)).now, old(store.Contents()), Idle, script, Processing(jobs))
      ensures |script| == 3 && script[0].choice == Begin && script[1].choice.Materialize? && script[2].choice.Take?
      ensures |jobs| == |script[2].choice.ids| && Commits(script) == 0
    {
      hide Step, Follows, Materialized, Claimed, FirstCandidates, FirstDue, Keyed;
      ghost var n0, t0 := outside.asked, store.Contents();
      var given := outside.Ask();
      var now := given.now;
      NoStep(cfg, outside.answers, n0, now, t0, workerId, Idle);
      BeginStepIs(cfg, t0, workerId, now);
      Onward(cfg, outside.answers, n0, now, t0, workerId, Idle, [], t0, Idle, n0, Moment(now, Begin), t0, Materializing(now));
      script := [] + [Moment(now, Begin)];
      var inserted, chosen := store.MaterializePendingDeliveries(now, cfg.batchSize * 4);
      ghost var t1 := store.Contents();
      MaterializeStepIs(cfg, t0, workerId, now, now, chosen);
      Onward(cfg, outside.answers, n0, now, t0, workerId, Idle, script, t0, Materializing(now), n0 + 1,
             Moment(now, Materialize(chosen)), t1, Claiming(now));
      script := script + [Moment(now, Materialize(chosen))];
      ghost var taken;
      jobs, taken := store.ClaimDueDeliveries(now, now + cfg.lease, workerId, cfg.batchSize);
      TakeStepIs(cfg, t1, workerId, now, now, taken);
      Onward(cfg, outside.answers, n0, now, t0, workerId, Idle, script, t1, Claiming(now), n0 + 1,
             Moment(now, Take(taken)), store.Contents(), Processing(jobs));
      script := script + [Moment(now, Take(taken))];
      CommitsOfThree(Moment(now, Begin), Moment(now, Materialize(chosen)), Moment(now, Take(taken)));
    }

    // What is recorded about one request, and when it is tried again.
    method CompletionFor(job: Job, startedAt: Time, given: Answers) returns (completion: Completion)
      ensures completion == CompletionOf(cfg, job, startedAt, given.now, Reported(given), Permille(given), given.id)
    {
      var sequence := job.attemptCount + 1;
      var result := SendResult(None, "", 0);
      if !given.decrypted {
        result := result.(errorCode := "secret_decryption_failed");
      } else if !given.configured {
        result := result.(errorCode := "sender_not_configured");
      } else {
        result := given.result;
      }
      var completedAt := given.now;
      var latency := if result.latency <= 0 then completedAt - startedAt else result.latency;
      var status := ClassifyDelivery(result);
      var deliveredAt: Option<Time> := None;
      var nextAttemptAt := completedAt;
      if status == DeliverySucceeded {
        deliveredAt := Some(completedAt);
      } else if status == DeliveryRetry {
        if sequence >= cfg.maxAttempts {
          status := DeliveryFailed;
        } else {
          var delay := RetryDelay(sequence, given.hash);
          nextAttemptAt := completedAt + delay as int;
        }
      }
      completion := Completion(job.deliveryId, given.id, sequence, status, startedAt, completedAt, result.httpStatus,
                               latency, result.errorCode, nextAttemptAt, deliveredAt);
    }

    // Send one job and record the attempt. Without the secret or a sender nothing is sent, and
    // that is what is recorded.
    method ProcessJob(job: Job, ghost rest: seq<Job>, ghost clock: Time) returns (ok: bool, ghost script: seq<Moment>)
      requires Keyed(store.Contents())
      modifies store, outside
      ensures Did(old(outside.asked), clock, old(store.Contents()), Processing([job] + rest), script,
                  if ok then Processing(rest) else Idle)
      ensures |script| == 3 && script[0].choice == Start && script[1].choice.Answer? && script[2].choice == Commit
      ensures Commits(script) == 1
      ensures var starts, ends := outside.answers(old(outside.asked)), outside.answers(old(outside.asked) + 1);
              var report := if !ends.decrypted then SendResult(None, "secret_decryption_failed", 0)
                            else if !ends.configured then SendResult(None, "sender_not_configured", 0)
                            else ends.result;
              if ok then
                && job.deliveryId in old(store.deliveries) && old(store.deliveries)[job.deliveryId].lockedBy == workerId
                && Completes(cfg, old(store.Contents()), store.Contents(), job, starts.now, ends.now, report,
                             900 + (ends.hash as int) % 201, ends.id)
              else
                && store.Contents() == old(store.Contents())
                && (|| job.deliveryId !in store.deliveries || store.deliveries[job.deliveryId].lockedBy != workerId
                    || (job.deliveryId, job.attemptCount + 1) in store.history)
    {
      hide Step, Follows, Keyed, Complete, CompletionOf, Completes;
      ghost var n0, t := outside.asked, store.Contents();
      ghost var w0 := Processing([job] + rest);
      NoStep(cfg, outside.answers, n0, clock, t, workerId, w0);
      var given := outside.Ask();
      var startedAt := given.now;
      StartStepIs(cfg, t, workerId, [job] + rest, startedAt);
      assert ([job] + rest)[1..] == rest;
      Onward(cfg, outside.answers, n0, clock, t, workerId, w0, [], t, w0, n0, Moment(startedAt, Start),
             t, Sending(job, startedAt, rest));
      script := [] + [Moment(startedAt, Start)];

      given := outside.Ask();
      var completedAt := given.now;
      var completion := CompletionFor(job, startedAt, given);
      var result := Reported(given);
      AnswerStepIs(cfg, t, workerId, job, startedAt, rest, completedAt, result, Permille(given), given.id);
      ghost var answer := Moment(completedAt, Answer(result, Permille(given), given.id));
      Onward(cfg, outside.answers, n0, clock, t, workerId, w0, script, t, Sending(job, startedAt, rest), n0 + 1, answer,
             t, Completing(completion, rest));
      script := script + [answer];

      CompleteKeyed(t, workerId, completion);
      CompletionRecords(cfg, t, workerId, job, startedAt, completedAt, result, Permille(given), given.id);
      ok := store.CompleteDelivery(workerId, completion);
      CommitStepIs(cfg, t, workerId, completion, rest, completedAt);
      Onward(cfg, outside.answers, n0, clock, t, workerId, w0, script, t, Completing(completion, rest), n0 + 2,
             Moment(completedAt, Commit), store.Contents(), if ok then Processing(rest) else Idle);
      script := script + [Moment(completedAt, Commit)];
      CommitsOfThree(Moment(startedAt, Start), answer, Moment(completedAt, Commit));
    }
  }

  lemma Ends(cfg: Config, t: Table, id: string, clock: Time, a: Answers)
    ensures Fitting(cfg, t, Processing([]), clock, a, Moment(clock, Start))
    ensures Step(cfg, t, clock, id, Processing([]), Start) == (t, Idle)
  {
  }

  lemma CommitsOfThree(a: Moment, b: Moment, c: Moment)
    ensures Commits([] + [a] + [b] + [c]) == Commits([a]) + Commits([b]) + Commits([c])
    ensures forall m: Moment :: Commits([m]) == if m.choice.Commit? then 1 else 0
  {
    forall m: Moment ensures Commits([m]) == if m.choice.Commit? then 1 else 0 { OneMore([], m); assert [] + [m] == [m]; }
    OneMore([] + [a] + [b], c);
    OneMore([] + [a], b);
    OneMore([], a);
  }

  lemma OneMore(script: seq<Moment>, m: Moment)
    ensures Commits(script + [m]) == Commits(script) + if m.choice.Commit? then 1 else 0
  {
    assert (script + [m])[..|script|] == script;
  }

  lemma CompleteKeyed(t: Table, worker: string, c: Completion)
    requires Keyed(t)
    ensures Complete(t, worker, c).Some? ==> Keyed(Complete(t, worker, c).value)
  {
  }
}
