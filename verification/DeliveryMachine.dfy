// Merchant webhook delivery as a state machine: any number of workers, each in one
// `RunOnce` at a time, beside merchants that set and disable endpoints and payments that
// write events. A worker may be slow between any two steps, and may give up at any step.
module DeliveryMachine {
  import opened Domain
  import opened Retry
  import opened DeliveryDb

  datatype Config = Config(maxAttempts: nat, batchSize: nat, lease: int)

  // What a sender reports about one request.
  datatype SendResult = SendResult(httpStatus: Option<int>, errorCode: string, latency: int)

  // How a result is to be treated.
  function Classify(r: SendResult): DeliveryStatus {
    match r.httpStatus
    case Some(status) =>
      if 200 <= status < 300 then DeliverySucceeded
      else if status == 408 || status == 425 || status == 429 || status >= 500 then DeliveryRetry
      else DeliveryFailed
    case None =>
      if r.errorCode == "target_not_public" || r.errorCode == "invalid_url" then DeliveryFailed else DeliveryRetry
  }

  // What a worker records about a request; `permille` is the jitter of a retry.
  function CompletionOf(cfg: Config, job: Job, startedAt: Time, completedAt: Time, r: SendResult, permille: int,
                        attemptId: string): Completion
  {
    var sequence := job.attemptCount + 1;
    var class' := Classify(r);
    var status := if class' == DeliveryRetry && sequence >= cfg.maxAttempts then DeliveryFailed else class';
    Completion(
      job.deliveryId, attemptId, sequence, status, startedAt, completedAt, r.httpStatus,
      if r.latency <= 0 then completedAt - startedAt else r.latency,
      r.errorCode,
      if status == DeliveryRetry then completedAt + Jittered(Backoff(sequence), permille) else completedAt,
      if status == DeliverySucceeded then Some(completedAt) else None)
  }

  // Where a worker stands: what it does next.
  datatype Worker =
    | Idle
    | Materializing(now: Time)
    | Claiming(now: Time)
    | Processing(jobs: seq<Job>)
    | Sending(job: Job, startedAt: Time, rest: seq<Job>)
    | Completing(completion: Completion, rest: seq<Job>)

  datatype Choice =
    | Begin
    | Materialize(events: set<string>)
    | Take(ids: seq<string>)
    | Start
    | Answer(result: SendResult, permille: int, attemptId: string)
    | Commit
    | GiveUp

  function JobsOf(t: Table, ids: seq<string>): (jobs: seq<Job>)
    requires forall i :: 0 <= i < |ids| ==> ids[i] in t.deliveries && t.deliveries[ids[i]].scope in t.endpoints
    ensures |jobs| == |ids|
    ensures forall i :: 0 <= i < |jobs| ==> jobs[i] == JobOf(t, ids[i])
  {
    seq(|ids|, i requires 0 <= i < |ids| => JobOf(t, ids[i]))
  }

  predicate Takable(t: Table, ids: seq<string>) {
    forall i :: 0 <= i < |ids| ==> ids[i] in t.deliveries && t.deliveries[ids[i]].scope in t.endpoints
  }

  predicate Distinct(ids: seq<string>) {
    forall i, j :: 0 <= i < j < |ids| ==> ids[i] != ids[j]
  }

  function ToSet(ids: seq<string>): set<string> {
    set i | 0 <= i < |ids| :: ids[i]
  }

  lemma {:induction false} DistinctCount(ids: seq<string>)
    requires Distinct(ids)
    ensures |ToSet(ids)| == |ids|
  {
    if ids != [] {
      var n := |ids| - 1;
      DistinctCount(ids[..n]);
      assert ToSet(ids) == ToSet(ids[..n]) + {ids[n]};
    }
  }

  // The step of worker `id`, with the clock at `clock`. `GiveUp`, and any choice that does
  // not fit, ends its call.
  function Step(cfg: Config, t: Table, clock: Time, id: string, w: Worker, c: Choice): (Table, Worker) {
    match w
    case Idle => (t, if c.Begin? then Materializing(clock) else Idle)
    case Materializing(now) =>
      if c.Materialize? && c.events <= t.events.Keys then (Materialized(t, now, c.events), Claiming(now)) else (t, Idle)
    case Claiming(now) =>
      if c.Take? && Takable(t, c.ids) then (Claimed(t, now + cfg.lease, id, ToSet(c.ids)), Processing(JobsOf(t, c.ids)))
      else (t, Idle)
    case Processing(jobs) => (t, if c.Start? && jobs != [] then Sending(jobs[0], clock, jobs[1..]) else Idle)
    case Sending(job, startedAt, rest) =>
      (t, if c.Answer? then Completing(CompletionOf(cfg, job, startedAt, clock, c.result, c.permille, c.attemptId), rest) else Idle)
    case Completing(completion, rest) =>
      if c.Commit? && Complete(t, id, completion).Some? then (Complete(t, id, completion).value, Processing(rest)) else (t, Idle)
  }

  // An event that a payment has stamped; `off` records that its endpoint was not enabled then.
  datatype Stamp = Stamp(event: Event, off: bool)

  datatype Sys = Sys(clock: Time, table: Table, stamps: map<string, Stamp>, workers: map<string, Worker>)

  datatype Action =
    | Tick(now: Time)
    | StampEvent(id: string, scope: Scope)
    | WriteEvent(id: string)
    | SetEndpoint(scope: Scope, id: string, url: string, secret: string, now: Time)
    | DisableEndpoint(scope: Scope)
    | Run(worker: string, choice: Choice)

  // A statement takes the rows its SQL describes, and the jitter is between 900 and 1100 permille.
  ghost predicate Permitted(cfg: Config, t: Table, w: Worker, c: Choice) {
    match w
    case Materializing(now) => c.Materialize? ==> FirstCandidates(t, cfg.batchSize * 4, c.events)
    case Claiming(now) => c.Take? ==> Distinct(c.ids) && FirstDue(t, now, cfg.batchSize, ToSet(c.ids))
    case Sending(_, _, _) => c.Answer? ==> 900 <= c.permille <= 1100
    case _ => true
  }

  // Time does not go back, and identifiers are fresh. SetEndpoint has read the clock some
  // time before it reads and writes the endpoint.
  ghost predicate CanDo(cfg: Config, s: Sys, a: Action) {
    match a
    case Tick(now) => now >= s.clock
    case StampEvent(id, scope) => id !in s.stamps
    case WriteEvent(id) => id in s.stamps
    case SetEndpoint(_, _, _, _, now) => now <= s.clock
    case DisableEndpoint(_) => true
    case Run(id, c) => id in s.workers && Permitted(cfg, s.table, s.workers[id], c)
  }

  function Apply(cfg: Config, s: Sys, a: Action): Sys {
    match a
    case Tick(now) => s.(clock := now)
    case StampEvent(id, scope) =>
      s.(stamps := s.stamps[id := Stamp(Event(id, scope, s.clock), !Enabled(s.table, scope))])
    case WriteEvent(id) =>
      if id !in s.stamps then s else s.(table := s.table.(events := s.table.events[id := s.stamps[id].event]))
    case SetEndpoint(scope, id, url, secret, now) => s.(table := Reset(s.table, scope, id, url, secret, now))
    case DisableEndpoint(scope) =>
      (match Disable(s.table, scope)
       case Some(t) => s.(table := t)
       case None => s)
    case Run(id, c) =>
      if id !in s.workers then s
      else
        var (t, w) := Step(cfg, s.table, s.clock, id, s.workers[id], c);
        s.(table := t, workers := s.workers[id := w])
  }

  // Workers have distinct identifiers, none of them empty.
  ghost predicate Initial(cfg: Config, s: Sys) {
    && cfg.maxAttempts > 0 && cfg.lease > 0
    && s.table == Table(map[], map[], map[], map[]) && s.stamps == map[]
    && forall id :: id in s.workers ==> id != "" && s.workers[id] == Idle
  }

  datatype History = History(states: seq<Sys>, actions: seq<Action>)

  ghost predicate IsRun(cfg: Config, h: History) {
    && |h.states| == |h.actions| + 1
    && Initial(cfg, h.states[0])
    && forall i :: 0 <= i < |h.actions| ==>
         CanDo(cfg, h.states[i], h.actions[i]) && h.states[i + 1] == Apply(cfg, h.states[i], h.actions[i])
  }
}
