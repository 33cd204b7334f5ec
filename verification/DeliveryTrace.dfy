// What one call of a worker does, step by step: the choices that it makes when it follows
// the code, and the result of each of its steps.
module DeliveryTrace {
  import opened Domain
  import opened Retry
  import opened DeliveryDb
  import opened DeliveryMachine

  // What the outside answers when it is asked: the time, an identifier, the cipher's text,
  // whether a secret can be decrypted and a sender is there, what the sender reports, and
  // the digest that the jitter is taken from.
  datatype Answers = Answers(
    now: Time,
    id: string,
    ciphertext: Option<string>,
    decrypted: bool,
    configured: bool,
    result: SendResult,
    hash: bv16)

  // What is recorded as the sender's report.
  function Reported(a: Answers): SendResult {
    if !a.decrypted then SendResult(None, "secret_decryption_failed", 0)
    else if !a.configured then SendResult(None, "sender_not_configured", 0)
    else a.result
  }

  function Permille(a: Answers): int {
    900 + (a.hash as int) % 201
  }

  // A step of a worker, and its last reading of the clock.
  datatype Moment = Moment(clock: Time, choice: Choice)

  function Drive(cfg: Config, t: Table, id: string, w: Worker, script: seq<Moment>): (Table, Worker)
    decreases |script|
  {
    if script == [] then (t, w)
    else
      var (t', w') := Drive(cfg, t, id, w, script[..|script| - 1]);
      var last := script[|script| - 1];
      Step(cfg, t', last.clock, id, w', last.choice)
  }

  predicate Asks(w: Worker) {
    w.Idle? || (w.Processing? && w.jobs != []) || w.Sending?
  }

  function LastReading(clock: Time, script: seq<Moment>): Time {
    if script == [] then clock else script[|script| - 1].clock
  }

  // The step that the code makes where the worker stands: it never gives up, its
  // statements take the rows that they describe, and it repeats what the outside has answered.
  ghost predicate Fitting(cfg: Config, t: Table, w: Worker, clock: Time, a: Answers, m: Moment) {
    match w
    case Idle => m == Moment(a.now, Begin)
    case Materializing(_) =>
      m.clock == clock && m.choice.Materialize? && FirstCandidates(t, cfg.batchSize * 4, m.choice.events)
    case Claiming(now) =>
      && m.clock == clock && m.choice.Take? && Distinct(m.choice.ids)
      && FirstDue(t, now, cfg.batchSize, ToSet(m.choice.ids)) && Takable(t, m.choice.ids)
    case Processing(jobs) => m == Moment(if jobs == [] then clock else a.now, Start)
    case Sending(_, _, _) => m == Moment(a.now, Answer(Reported(a), Permille(a), a.id))
    case Completing(_, _) => m == Moment(clock, Commit)
  }

  // A call that follows the code goes from (t, w), with the clock last read as `clock` and
  // the outside about to give its answer number `from`, to (t', w'), with answer number `to` to come.
  ghost predicate Follows(cfg: Config, answers: nat -> Answers, from: nat, clock: Time, t: Table, id: string, w: Worker,
      script: seq<Moment>, t': Table, w': Worker, to: nat)
    decreases |script|
  {
    if script == [] then t' == t && w' == w && to == from
    else
      var before, m := script[..|script| - 1], script[|script| - 1];
      var (t1, w1) := Drive(cfg, t, id, w, before);
      var n := if Asks(w1) then to - 1 else to;
      && n >= 0 && Follows(cfg, answers, from, clock, t, id, w, before, t1, w1, n)
      && Fitting(cfg, t1, w1, LastReading(clock, before), answers(n), m)
      && Step(cfg, t1, m.clock, id, w1, m.choice) == (t', w')
  }

  lemma {:induction false} FollowsDrive(cfg: Config, answers: nat -> Answers, from: nat, clock: Time, t: Table, id: string,
      w: Worker, script: seq<Moment>, t': Table, w': Worker, to: nat)
    requires Follows(cfg, answers, from, clock, t, id, w, script, t', w', to)
    ensures Drive(cfg, t, id, w, script) == (t', w')
  {
    hide Step, Fitting;
  }

  lemma NoStep(cfg: Config, answers: nat -> Answers, from: nat, clock: Time, t: Table, id: string, w: Worker)
    ensures Follows(cfg, answers, from, clock, t, id, w, [], t, w, from)
  {
  }

  // One more step.
  lemma Onward(cfg: Config, answers: nat -> Answers, from: nat, clock: Time, t: Table, id: string, w: Worker,
      script: seq<Moment>, t1: Table, w1: Worker, n: nat, m: Moment, t2: Table, w2: Worker)
    requires Follows(cfg, answers, from, clock, t, id, w, script, t1, w1, n)
    requires Fitting(cfg, t1, w1, LastReading(clock, script), answers(n), m)
    requires Step(cfg, t1, m.clock, id, w1, m.choice) == (t2, w2)
    ensures Follows(cfg, answers, from, clock, t, id, w, script + [m], t2, w2, if Asks(w1) then n + 1 else n)
  {
    hide Step, Fitting;
    FollowsDrive(cfg, answers, from, clock, t, id, w, script, t1, w1, n);
    assert (script + [m])[..|script|] == script;
  }

  // One part of a call after another.
  lemma {:induction false} FollowsAppend(cfg: Config, answers: nat -> Answers, from: nat, clock: Time, t: Table, id: string,
      w: Worker, first: seq<Moment>, t1: Table, w1: Worker, n: nat, second: seq<Moment>, t2: Table, w2: Worker, to: nat)
    requires Follows(cfg, answers, from, clock, t, id, w, first, t1, w1, n)
    requires Follows(cfg, answers, n, LastReading(clock, first), t1, id, w1, second, t2, w2, to)
    ensures Follows(cfg, answers, from, clock, t, id, w, first + second, t2, w2, to)
    decreases |second|
  {
    hide Step, Fitting;
    if second == [] {
      assert first + second == first;
    } else {
      var k := |second| - 1;
      var (t', w') := Drive(cfg, t1, id, w1, second[..k]);
      var m := if Asks(w') then to - 1 else to;
      FollowsAppend(cfg, answers, from, clock, t, id, w, first, t1, w1, n, second[..k], t', w', m);
      assert LastReading(clock, first + second[..k]) == LastReading(LastReading(clock, first), second[..k]);
      Onward(cfg, answers, from, clock, t, id, w, first + second[..k], t', w', m, second[k], t2, w2);
      assert first + second[..k] + [second[k]] == first + second;
    }
  }

  // ---------- The steps of a worker ----------

  lemma BeginStepIs(cfg: Config, t: Table, id: string, now: Time)
    ensures Step(cfg, t, now, id, Idle, Begin) == (t, Materializing(now))
  {
  }

  lemma MaterializeStepIs(cfg: Config, t: Table, id: string, now: Time, clock: Time, chosen: set<string>)
    requires FirstCandidates(t, cfg.batchSize * 4, chosen)
    ensures chosen <= t.events.Keys
    ensures Step(cfg, t, clock, id, Materializing(now), Materialize(chosen)) == (Materialized(t, now, chosen), Claiming(now))
  {
  }

  lemma TakeStepIs(cfg: Config, t: Table, id: string, now: Time, clock: Time, ids: seq<string>)
    requires Takable(t, ids)
    ensures Step(cfg, t, clock, id, Claiming(now), Take(ids))
         == (Claimed(t, now + cfg.lease, id, ToSet(ids)), Processing(JobsOf(t, ids)))
  {
  }

  lemma StartStepIs(cfg: Config, t: Table, id: string, jobs: seq<Job>, clock: Time)
    ensures Step(cfg, t, clock, id, Processing(jobs), Start) == (t, if jobs == [] then Idle else Sending(jobs[0], clock, jobs[1..]))
  {
  }

  lemma AnswerStepIs(cfg: Config, t: Table, id: string, job: Job, startedAt: Time, rest: seq<Job>, clock: Time,
                     r: SendResult, permille: int, attemptId: string)
    ensures Step(cfg, t, clock, id, Sending(job, startedAt, rest), Answer(r, permille, attemptId))
         == (t, Completing(CompletionOf(cfg, job, startedAt, clock, r, permille, attemptId), rest))
  {
  }

  lemma CommitStepIs(cfg: Config, t: Table, id: string, c: Completion, rest: seq<Job>, clock: Time)
    ensures Step(cfg, t, clock, id, Completing(c, rest), Commit)
         == match Complete(t, id, c)
            case Some(t') => (t', Processing(rest))
            case None => (t, Idle)
  {
  }
}
