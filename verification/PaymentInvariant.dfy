// What holds in every reachable state of the orchestration machine.
module PaymentInvariant {
  import opened Domain
  import opened Router
  import opened PaymentDb
  import opened PaymentMachine

  // ---------- One payment ----------

  ghost predicate AllSafe(attempts: seq<Attempt>) {
    forall i :: 0 <= i < |attempts| ==> attempts[i].status == FailedSafe
  }

  // Attempt i is the (i+1)st; only the last one may be anything but safely failed, and
  // a safe failure is backed by the connector's answer.
  ghost predicate AttemptOk(c: Case, i: nat, w: World, providers: Providers)
    requires i < |c.attempts|
  {
    var a := c.attempts[i];
    && a.id != "" && a.id in w.home && w.home[a.id] == (c.intent.id, i)
    && a.intentId == c.intent.id
    && a.sequence == i + 1
    && (a.status == FailedSafe ==> a.id in w.disproved)
    && (i < |c.attempts| - 1 ==> a.status == FailedSafe)
    && Known(providers, c.intent.workspace, a.connectionId, c.intent.fingerprint.environment)
  }

  ghost predicate DistinctConnections(attempts: seq<Attempt>) {
    forall i, j :: 0 <= i < j < |attempts| ==> attempts[i].connectionId != attempts[j].connectionId
  }

  ghost predicate NamesEligible(d: Decision) {
    exists k :: 0 <= k < |d.candidates| && d.candidates[k].connectionId == d.selected && d.candidates[k].eligible
  }

  ghost predicate DecisionOk(c: Case, i: nat)
    requires i < |c.attempts| && i < |c.decisions|
  {
    && c.decisions[i].intentId == c.intent.id
    && c.decisions[i].attemptId == c.attempts[i].id
    && c.decisions[i].selected == c.attempts[i].connectionId
    && NamesEligible(c.decisions[i])
  }

  ghost predicate LedgerOk(max: nat, c: Case, w: World, providers: Providers) {
    && |c.attempts| <= max
    && |c.decisions| == |c.attempts|
    && (forall i :: 0 <= i < |c.attempts| ==> AttemptOk(c, i, w, providers))
    && (forall i :: 0 <= i < |c.attempts| ==> DecisionOk(c, i))
    && DistinctConnections(c.attempts)
  }

  ghost predicate Unpaid(c: Case) {
    !c.intent.recovered && c.intent.recoveredAmount == 0 && c.intent.paidAt == None && c.recoveries == []
  }

  // The presented attempt is the last one, it succeeded, its Pix is the intent's, and no
  // failure is left on the intent.
  ghost predicate Presented(c: Case) {
    && |c.attempts| > 0
    && var last := c.attempts[|c.attempts| - 1];
       last.status == Succeeded && c.intent.presented == last.id && c.intent.pix == last.pix && c.intent.failureCode == ""
  }

  ghost predicate RecoveryOk(c: Case) {
    && c.intent.recovered == (|c.attempts| > 1)
    && c.intent.recoveredAmount == (if c.intent.recovered then c.intent.amount else 0)
    && (if |c.attempts| > 1 then
          && |c.recoveries| == 1
          && c.recoveries[0].intentId == c.intent.id
          && c.recoveries[0].failedAttempt == c.attempts[0].id
          && c.recoveries[0].failureReason == c.attempts[0].failureCode
          && c.recoveries[0].successfulAttempt == c.attempts[|c.attempts| - 1].id
          && c.recoveries[0].amount == c.intent.amount
        else c.recoveries == [])
  }

  ghost predicate StatusOk(c: Case) {
    match c.intent.status
    case Created => c.attempts == [] && c.intent.presented == "" && Unpaid(c)
    case Routing => c.intent.presented == "" && Unpaid(c)
    case Failed => c.intent.presented == "" && Unpaid(c)
    case Reconciling =>
      && c.intent.presented == "" && Unpaid(c)
      && |c.attempts| > 0 && c.intent.active == c.attempts[|c.attempts| - 1].id
    case AwaitingPayment => Presented(c) && Unpaid(c)
    case Paid => Presented(c) && RecoveryOk(c) && c.intent.paidAt.Some?
  }

  ghost predicate CaseOk(max: nat, p: string, c: Case, w: World, providers: Providers) {
    && p != "" && c.intent.id == p
    && c.intent.workspace == c.intent.fingerprint.workspace
    && c.intent.amount == c.intent.fingerprint.amount
    && LedgerOk(max, c, w, providers)
    && StatusOk(c)
  }

  // ---------- One thread ----------

  // The payment that a creating or reconciling thread is working on alone.
  function Holds(l: Local): Option<string> {
    if l.Working? then Some(l.intent.id) else None
  }

  predicate Answers(req: Request, intent: Intent) {
    intent.workspace == req.content.workspace && intent.idempotencyKey == req.idempotencyKey
    && intent.fingerprint == req.content
  }

  predicate OriginOk(o: Origin, intent: Intent) {
    match o
    case ByCreate(req) => Answers(req, intent)
    case ByReconcile(env) => intent.fingerprint.environment == env
  }

  ghost predicate SnapshotOk(connections: seq<Connection>, workspace: string, providers: Providers) {
    forall i :: 0 <= i < |connections| ==> Known(providers, workspace, connections[i].id, connections[i].environment)
  }

  ghost predicate PlanOk(plan: Plan, intent: Intent, providers: Providers) {
    && AllSafe(plan.attempts)
    && plan.excluded == ConnectionIds(plan.attempts)
    && SnapshotOk(plan.connections, intent.workspace, providers)
  }

  // The attempt in progress is the last stored one.
  ghost predicate DispatchOk(plan: Plan, attempt: Attempt, c: Case, providers: Providers) {
    PlanOk(plan, c.intent, providers) && c.attempts == plan.attempts + [attempt] && c.intent.status == Routing
  }

  predicate LastIs(c: Case, attempt: Attempt) {
    |c.attempts| > 0 && c.attempts[|c.attempts| - 1] == attempt
  }

  ghost predicate VerdictOk(v: Verdict, o: Origin, c: Case) {
    && (c.intent.status == Routing || (c.intent.status == Reconciling && o.ByReconcile?))
    && (match v
        case Present(a) => LastIs(c, a) && a.status == Succeeded
        case Hold(_) => c.intent.status == Routing && |c.attempts| > 0
                     && c.attempts[|c.attempts| - 1].id == c.intent.active && !AllSafe(c.attempts)
        case GiveUp(_, _) => true)
  }

  ghost predicate QueryOk(o: Origin, a: Attempt, c: Case) {
    o.ByReconcile? && c.intent.status == Reconciling && LastIs(c, a) && a.status == Unknown
  }

  // What the private copies of a thread say about the stored rows it works on.
  ghost predicate StageOk(stage: Stage, o: Origin, c: Case, w: World, providers: Providers) {
    match stage
    case Admit => c.intent.status == Created && o.ByCreate?
    case ReadConnections => c.intent.status == Routing && AllSafe(c.attempts)
    case ReadAttempts(connections, _) =>
      c.intent.status == Routing && AllSafe(c.attempts) && SnapshotOk(connections, c.intent.workspace, providers)
    case Loop(plan) => PlanOk(plan, c.intent, providers) && c.attempts == plan.attempts && c.intent.status == Routing
    case Activate(plan, a) => DispatchOk(plan, a, c, providers) && a.status == AttemptCreated
    case Prepare(plan, a) => DispatchOk(plan, a, c, providers) && a.status == AttemptCreated && c.intent.active == a.id
    case Send(plan, a) => DispatchOk(plan, a, c, providers) && a.status == Requesting && c.intent.active == a.id
    case Await(plan, a) =>
      DispatchOk(plan, a, c, providers) && a.status == Requesting && c.intent.active == a.id && a.id in w.requested
    case Record(plan, a, outcome) =>
      && DispatchOk(plan, a, c, providers) && a.status == Requesting && c.intent.active == a.id
      && (outcome.CreateFailedSafe? ==> a.id in w.disproved)
    case Finish(verdict) => VerdictOk(verdict, o, c)
    case FindActive => o.ByReconcile? && c.intent.status == Reconciling
    case Locate(a) => QueryOk(o, a, c)
    case Query(a) => QueryOk(o, a, c)
    case Settle(a, answer) => QueryOk(o, a, c) && (answer.NotCreated? ==> a.id in w.disproved)
    case Reopen => o.ByReconcile? && c.intent.status == Reconciling && AllSafe(c.attempts)
  }

  // The thread's copy of the intent is the stored one.
  ghost predicate HoldOk(o: Origin, intent: Intent, stage: Stage, c: Case, w: World, providers: Providers) {
    c.intent == intent && OriginOk(o, intent) && StageOk(stage, o, c, w, providers)
  }

  // A webhook thread's copy of the intent was read while payment was awaited.
  function Awaited(intent: Intent): Intent {
    intent.(status := AwaitingPayment, paidAt := None, recovered := false, recoveredAmount := 0)
  }

  ghost predicate AwaitedOk(intent: Intent, c: Case) {
    (c.intent.status == AwaitingPayment || c.intent.status == Paid) && Awaited(c.intent) == Awaited(intent)
  }

  ghost predicate CommitOk(intent: Intent, recovery: Option<Recovery>, events: seq<MerchantEvent>, c: Case) {
    && AwaitedOk(intent, c)
    && intent.status == Paid && intent.paidAt.Some?
    && RecoveryOk(c.(intent := intent, recoveries := if recovery.Some? then [recovery.value] else []))
    && exists id, id2, now :: events == EventsFor(intent, id, id2, now)
  }

  ghost predicate HookOk(db: Db, stage: HookStage) {
    match stage
    case ReadPresented(intent) =>
      intent.id in db.cases && intent == Awaited(intent) && AwaitedOk(intent, db.cases[intent.id])
    case ReadHistory(intent, a) =>
      && intent.id in db.cases && intent == Awaited(intent) && AwaitedOk(intent, db.cases[intent.id])
      && LastIs(db.cases[intent.id], a)
    case Commit(intent, recovery, events) =>
      intent.id in db.cases && CommitOk(intent, recovery, events, db.cases[intent.id])
    case _ => true
  }

  predicate Bound(db: Db, req: Request, intent: Intent) {
    var key := JoinKey(req.content.workspace, req.idempotencyKey);
    && Answers(req, intent)
    && key in db.idempotency && db.idempotency[key] == IdempotencyRecord(intent.id, req.content)
  }

  ghost predicate ThreadOk(db: Db, w: World, l: Local) {
    match l
    case Working(o, intent, stage) =>
      intent.id in db.cases && HoldOk(o, intent, stage, db.cases[intent.id], w, db.providers)
    case Hook(_, stage) => HookOk(db, stage)
    case Done(ByCreate(req), intent, _) => Bound(db, req, intent)
    case _ => true
  }

  // ---------- The system ----------

  ghost predicate CasesOk(max: nat, db: Db, w: World) {
    forall p :: p in db.cases ==> CaseOk(max, p, db.cases[p], w, db.providers)
  }

  ghost predicate HomeOk(db: Db, w: World) {
    forall id :: id in w.home ==> AttemptAt(db, id, w.home[id].0, w.home[id].1)
  }

  ghost predicate ChargesOk(w: World) {
    && w.live !! w.disproved
    && w.live <= w.requested
    && w.requested <= w.home.Keys
  }

  ghost predicate IdempotencyOk(db: Db) {
    && (forall key :: key in db.idempotency ==>
          && db.idempotency[key].paymentId in db.cases
          && var intent := db.cases[db.idempotency[key].paymentId].intent;
             JoinKey(intent.workspace, intent.idempotencyKey) == key
             && intent.fingerprint == db.idempotency[key].fingerprint)
    && (forall p :: p in db.cases ==>
          && var key := JoinKey(db.cases[p].intent.workspace, db.cases[p].intent.idempotencyKey);
             key in db.idempotency && db.idempotency[key].paymentId == p)
  }

  function Count(events: seq<MerchantEvent>, key: EventKey): nat {
    if events == [] then 0
    else Count(events[..|events| - 1], key) + if events[|events| - 1].key == key then 1 else 0
  }

  predicate Emitted(db: Db, key: EventKey) {
    && key.intentId in db.cases
    && var intent := db.cases[key.intentId].intent;
       intent.status == Paid && (key.kind == PaymentRecovered ==> intent.recovered)
  }

  // What an event of a workspace says agrees with its payment.
  predicate EventTrue(db: Db, workspace: string, e: MerchantEvent) {
    && Emitted(db, e.key)
    && var intent := db.cases[e.key.intentId].intent;
       && intent.workspace == workspace && e.workspace == workspace
       && e.recovered == intent.recovered && e.recoveredAmount == intent.recoveredAmount
  }

  ghost predicate EventsTrue(db: Db) {
    forall workspace: string, i: nat :: i < |Events(db, workspace)| ==> EventTrue(db, workspace, Events(db, workspace)[i])
  }

  // Every event that is due is there exactly once, and no other.
  ghost predicate CountsOk(db: Db) {
    && (forall key :: key in db.outboxKeys <==> Emitted(db, key))
    && (forall workspace: string, key: EventKey :: Count(Events(db, workspace), key) ==
          if Emitted(db, key) && db.cases[key.intentId].intent.workspace == workspace then 1 else 0)
  }

  ghost predicate OutboxOk(db: Db) {
    CountsOk(db) && EventsTrue(db)
  }

  ghost predicate ProvidersOk(db: Db) {
    && UniqueConnections(db.providers)
    && forall w, i :: w in db.providers && 0 <= i < |db.providers[w]| ==> db.providers[w][i].workspace == w
  }

  ghost predicate ThreadsOk(db: Db, w: World, threads: map<nat, Local>) {
    forall t :: t in threads ==> ThreadOk(db, w, threads[t])
  }

  ghost predicate Exclusive(threads: map<nat, Local>) {
    forall t, u :: t in threads && u in threads && t != u && Holds(threads[t]).Some? ==>
      Holds(threads[t]) != Holds(threads[u])
  }

  ghost predicate Inv(cfg: Config, s: Sys) {
    && CasesOk(cfg.maxAttempts, s.db, s.world)
    && HomeOk(s.db, s.world)
    && ChargesOk(s.world)
    && IdempotencyOk(s.db)
    && OutboxOk(s.db)
    && ProvidersOk(s.db)
    && ThreadsOk(s.db, s.world, s.threads)
    && Exclusive(s.threads)
  }

  // ---------- Status changes ----------

  predicate LegalStatus(from: PaymentStatus, to: PaymentStatus) {
    || from == to
    || (from == Created && to == Routing)
    || (from == Routing && to in {Reconciling, AwaitingPayment, Failed})
    || (from == Reconciling && to in {Routing, AwaitingPayment, Failed})
    || (from == AwaitingPayment && to == Paid)
  }

  // How many status changes may still follow.
  ghost function Rank(max: nat, c: Case): int {
    match c.intent.status
    case Created => 2 * max + 2
    case Routing => 2 * (max - if AllSafe(c.attempts) then |c.attempts| else |c.attempts| - 1) + 1
    case Reconciling => 2 * (max - |c.attempts|) + 2
    case AwaitingPayment => 1
    case Paid => 0
    case Failed => 0
  }

  // How one case may change in one step.
  ghost predicate CaseMoves(max: nat, c: Case, c': Case) {
    && c'.intent.id == c.intent.id && c'.intent.workspace == c.intent.workspace
    && c'.intent.idempotencyKey == c.intent.idempotencyKey && c'.intent.fingerprint == c.intent.fingerprint
    && |c.attempts| <= |c'.attempts|
    && (forall i :: 0 <= i < |c.attempts| ==> c'.attempts[i].id == c.attempts[i].id)
    && (c.intent.status in {AwaitingPayment, Paid, Failed} ==> c'.attempts == c.attempts && c'.decisions == c.decisions)
    && LegalStatus(c.intent.status, c'.intent.status)
    && 0 <= Rank(max, c')
    && Rank(max, c') + (if c.intent.status != c'.intent.status then 1 else 0) <= Rank(max, c)
  }
}
