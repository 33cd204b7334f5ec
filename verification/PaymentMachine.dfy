// The orchestration service as a state machine. Every thread is one call of
// `CreatePayment`, `ReconcilePayment` or `ProcessProviderWebhook`; each of its steps is
// one repository or provider call together with the local computation before it. A
// thread holds private copies of the rows it has read, and may stop after any step.
module PaymentMachine {
  import opened Domain
  import opened Router
  import opened PaymentDb

  datatype Config = Config(maxAttempts: nat, catalog: Option<map<string, set<string>>>)

  // Which call is routing. Both know the environment to route in.
  datatype Origin = ByCreate(req: Request) | ByReconcile(env: Environment)

  function EnvironmentOf(o: Origin): Environment {
    match o
    case ByCreate(req) => req.content.environment
    case ByReconcile(env) => env
  }

  // What the dispatch loop has read and tried so far.
  datatype Plan = Plan(
    connections: seq<Connection>,
    health: Health,
    attempts: seq<Attempt>,
    excluded: set<string>)

  // How a call leaves the intent behind.
  datatype Verdict = Present(attempt: Attempt) | Hold(code: string) | GiveUp(code: string, error: Option<Error>)

  // The error that is returned beside the intent.
  function FailureOf(v: Verdict): Option<Error> {
    if v.GiveUp? then v.error else None
  }

  // Where a thread that works on a payment stands: the call it is about to make.
  datatype Stage =
    | Admit                                    // CreatePayment: save the status routing
    | ReadConnections                          // executeRouting: list connections
    | ReadAttempts(connections: seq<Connection>, health: Health)
    | Loop(plan: Plan)                         // select, and add an attempt
    | Activate(plan: Plan, attempt: Attempt)   // save the active attempt
    | Prepare(plan: Plan, attempt: Attempt)    // resolve the adapter, save the attempt
    | Send(plan: Plan, attempt: Attempt)       // send the request
    | Await(plan: Plan, attempt: Attempt)      // the request is in flight
    | Record(plan: Plan, attempt: Attempt, outcome: CreateOutcome)
    | Finish(verdict: Verdict)                 // save the intent and return
    | FindActive                               // ReconcilePayment: get the active attempt
    | Locate(attempt: Attempt)                 // find its connection and adapter
    | Query(attempt: Attempt)                  // the question is in flight
    | Settle(attempt: Attempt, answer: ReconcileOutcome)
    | Reopen                                   // save the status routing

  // A provider notification as its connector parses it.
  datatype Notice = Notice(connectionId: string, externalId: string, eventType: string, paymentId: string)

  // ProcessProviderWebhook, with MarkPaidWithOutbox inside.
  datatype HookStage =
    | Receive
    | FindCharge
    | ReadIntent(payment: string, attemptId: string)
    | ReadPresented(intent: Intent)
    | ReadHistory(intent: Intent, attempt: Attempt)
    | Commit(intent: Intent, recovery: Option<Recovery>, events: seq<MerchantEvent>)
    | Processed(intent: Intent)

  datatype Local =
    | CreateStart(req: Request)
    | CreateReread(req: Request)
    | ReconcileStart(payment: string, env: Environment)
    | Working(origin: Origin, intent: Intent, stage: Stage)
    | Hook(notice: Notice, hook: HookStage)
    | Done(origin: Origin, intent: Intent, failure: Option<Error>)
    | HookDone(intent: Intent)
    | Stopped(error: Option<Error>)

  // What the world decides at a step: whether the call goes through, what it answers,
  // which identifiers and times are handed out, where a lookup finds its row.
  datatype Choice =
    | Halt
    | Go
    | Fresh(id: string, id2: string, id3: string, now: Time)
    | Reread
    | Snapshot(health: Health)
    | Resolve(resolved: bool, saved: bool)
    | Answer(outcome: CreateOutcome)
    | Verified(answer: ReconcileOutcome)
    | Found(payment: string, index: nat)
    | Missing

  // ---------- The rows each call writes ----------

  function Admitted(intent: Intent): Intent {
    intent.(status := Routing)
  }

  function NewAttempt(id: string, intent: Intent, number: nat, connection: string): Attempt {
    Attempt(id, intent.id, connection, number, AttemptCreated, "", "", "", None)
  }

  function Recorded(attempt: Attempt, outcome: CreateOutcome): Attempt {
    var responded := attempt.(providerPaymentId := outcome.paymentId, failureCode := outcome.code);
    match outcome
    case CreateSucceeded(_, pix, _) => responded.(status := Succeeded, pix := pix)
    case CreateFailedSafe(_, _) => responded.(status := FailedSafe)
    case CreateUnknown(_, _) => responded.(status := Unknown, reconciliation := "required")
    case CreateFailedTerminal(_, _) => responded.(status := FailedTerminal)
  }

  function Reconciled(attempt: Attempt, answer: ReconcileOutcome): Attempt {
    match answer
    case NotCreated(code) => attempt.(status := FailedSafe, reconciliation := "not_created", failureCode := code)
    case ChargeExists(id, pix) =>
      attempt.(status := Succeeded, reconciliation := "created", providerPaymentId := id, pix := pix, failureCode := "")
    case Terminal(code) => attempt.(status := FailedTerminal, reconciliation := "terminal", failureCode := code)
    case StillUnknown => attempt.(reconciliation := "still_unknown")
  }

  function Concluded(intent: Intent, verdict: Verdict): Intent {
    match verdict
    case Present(attempt) =>
      intent.(status := AwaitingPayment, presented := attempt.id, pix := attempt.pix, failureCode := "")
    case Hold(code) => intent.(status := Reconciling, failureCode := code)
    case GiveUp(code, _) => intent.(status := Failed, failureCode := code)
  }

  function Reopened(intent: Intent): Intent {
    intent.(status := Routing, failureCode := "")
  }

  // The first safely failed attempt before the paid one, as the scan finds it.
  function FirstSafeBefore(attempts: seq<Attempt>, sequence: nat): Option<Attempt> {
    if attempts == [] then None
    else if attempts[0].sequence < sequence && attempts[0].status == FailedSafe then Some(attempts[0])
    else FirstSafeBefore(attempts[1..], sequence)
  }

  function RecoveryFor(intent: Intent, attempts: seq<Attempt>, paid: Attempt, id: string, now: Time): Option<Recovery> {
    match FirstSafeBefore(attempts, paid.sequence)
    case None => None
    case Some(failed) =>
      Some(Recovery(id, intent.id, failed.id, paid.id, failed.failureCode, intent.amount, now))
  }

  function PaidIntent(intent: Intent, recovered: bool, now: Time): Intent {
    var paid := intent.(status := Paid, paidAt := Some(now));
    if recovered then paid.(recovered := true, recoveredAmount := intent.amount) else paid
  }

  function EventFor(intent: Intent, kind: EventKind, id: string, now: Time): MerchantEvent {
    MerchantEvent(id, intent.workspace, EventKey(kind, intent.id), intent.recovered, intent.recoveredAmount, now)
  }

  function EventsFor(intent: Intent, id: string, id2: string, now: Time): seq<MerchantEvent> {
    [EventFor(intent, PaymentPaid, id, now)]
    + if intent.recovered then [EventFor(intent, PaymentRecovered, id2, now)] else []
  }

  // ---------- One step of one thread ----------

  function ContextOf(cfg: Config, origin: Origin, plan: Plan): Context {
    Context(EnvironmentOf(origin), plan.excluded, cfg.catalog, PIX_CREATE, plan.health)
  }

  function ConnectionIds(attempts: seq<Attempt>): set<string> {
    set a | a in attempts :: a.connectionId
  }

  function AttemptsOf(db: Db, payment: string): seq<Attempt> {
    if payment in db.cases then db.cases[payment].attempts else []
  }

  predicate HasConnection(connections: seq<Connection>, id: string) {
    exists i :: 0 <= i < |connections| && connections[i].id == id
  }

  function Fail(e: Error): Local {
    Stopped(Some(e))
  }

  function WithPayment(db: Db, intent: Intent, next: Local): (Db, Local) {
    match SavePayment(db, intent)
    case Ok(db') => (db', next)
    case Err(e) => (db, Fail(e))
  }

  function WithAttempt(db: Db, attempt: Attempt, next: Local): (Db, Local) {
    match SaveAttempt(db, attempt)
    case Ok(db') => (db', next)
    case Err(e) => (db, Fail(e))
  }

  // The second read of a create whose insert met an existing row.
  function Reading(db: Db, req: Request): Local {
    var key := JoinKey(req.content.workspace, req.idempotencyKey);
    if key !in db.idempotency || db.idempotency[key].paymentId !in db.cases then Fail(NotFound)
    else if db.idempotency[key].fingerprint != req.content then Fail(IdempotencyConflict)
    else Done(ByCreate(req), db.cases[db.idempotency[key].paymentId].intent, None)
  }

  function CreateStep(db: Db, req: Request, id: string): (Db, Local) {
    var (db', r) := GetOrCreate(db, NewIntent(id, req));
    match r
    case Err(e) => (db', Fail(e))
    case Ok((intent, created)) =>
      (db', if created then Working(ByCreate(req), intent, Admit) else Done(ByCreate(req), intent, None))
  }

  function SelectStep(cfg: Config, db: Db, o: Origin, intent: Intent, plan: Plan, id: string, id2: string): (Db,
      Local) {
    if |plan.attempts| >= cfg.maxAttempts then
      (db, Working(o, intent, Finish(GiveUp("fallback_budget_exhausted", None))))
    else
      var route := Selection(plan.connections, ContextOf(cfg, o, plan));
      match route.selected
      case None => (db, Working(o, intent, Finish(GiveUp("no_eligible_provider", Some(NoEligibleProvider)))))
      case Some(conn) =>
        var attempt := NewAttempt(id, intent, |plan.attempts| + 1, conn.id);
        match AddAttempt(db, attempt, Decision(id2, intent.id, id, conn.id, route.candidates))
        case Ok(db') => (db', Working(o, intent, Activate(plan, attempt)))
        case Err(e) => (db, Fail(e))
  }

  function PrepareStep(db: Db, o: Origin, intent: Intent, plan: Plan, attempt: Attempt, resolved: bool,
      saved: bool): (Db, Local) {
    if resolved then
      var requesting := attempt.(status := Requesting);
      WithAttempt(db, requesting, Working(o, intent, Send(plan, requesting)))
    else
      var next := Working(o, intent, Finish(GiveUp("adapter_not_registered", Some(Unresolved))));
      if !saved then (db, next)
      else
        // An error of this save is ignored.
        (WithAttempt(db, attempt.(status := FailedTerminal, failureCode := "adapter_not_registered"), next).0, next)
  }

  // The plan after an attempt that failed safely.
  function Tried(plan: Plan, attempt: Attempt): Plan {
    plan.(attempts := plan.attempts + [attempt], excluded := plan.excluded + {attempt.connectionId})
  }

  function AfterCreate(plan: Plan, attempt: Attempt, outcome: CreateOutcome): Stage {
    var recorded := Recorded(attempt, outcome);
    match outcome
    case CreateSucceeded(_, _, _) => Finish(Present(recorded))
    case CreateFailedSafe(_, _) => Loop(Tried(plan, recorded))
    case CreateUnknown(_, code) => Finish(Hold(code))
    case CreateFailedTerminal(_, code) => Finish(GiveUp(code, None))
  }

  function AfterReconcile(o: Origin, intent: Intent, attempt: Attempt, answer: ReconcileOutcome): Local {
    match answer
    case NotCreated(_) => Working(o, intent, Reopen)
    case ChargeExists(_, _) => Working(o, intent, Finish(Present(Reconciled(attempt, answer))))
    case Terminal(code) => Working(o, intent, Finish(GiveUp(code, None)))
    case StillUnknown => Done(o, intent, None)
  }

  function WorkStep(cfg: Config, db: Db, o: Origin, intent: Intent, stage: Stage, c: Choice): (Db, Local) {
    match (stage, c)
    case (Admit, Go) => WithPayment(db, Admitted(intent), Working(o, Admitted(intent), ReadConnections))
    case (ReadConnections, Snapshot(health)) =>
      (db, Working(o, intent, ReadAttempts(Connections(db, intent.workspace), health)))
    case (ReadAttempts(connections, health), Go) =>
      var attempts := AttemptsOf(db, intent.id);
      (db, Working(o, intent, Loop(Plan(connections, health, attempts, ConnectionIds(attempts)))))
    case (Loop(plan), Fresh(id, id2, _, _)) => SelectStep(cfg, db, o, intent, plan, id, id2)
    case (Activate(plan, attempt), Go) =>
      var active := intent.(active := attempt.id);
      WithPayment(db, active, Working(o, active, Prepare(plan, attempt)))
    case (Prepare(plan, attempt), Resolve(resolved, saved)) => PrepareStep(db, o, intent, plan, attempt, resolved, saved)
    case (Send(plan, attempt), Go) => (db, Working(o, intent, Await(plan, attempt)))
    case (Await(plan, attempt), Answer(outcome)) => (db, Working(o, intent, Record(plan, attempt, outcome)))
    case (Record(plan, attempt, outcome), Go) =>
      WithAttempt(db, Recorded(attempt, outcome), Working(o, intent, AfterCreate(plan, attempt, outcome)))
    case (Finish(verdict), Go) => WithPayment(db, Concluded(intent, verdict), Done(o, Concluded(intent, verdict), FailureOf(verdict)))
    case (FindActive, Found(p, i)) =>
      if !AttemptAt(db, intent.active, p, i) then (db, Stopped(None))
      else if db.cases[p].attempts[i].status != Unknown then (db, Fail(InvalidTransition))
      else (db, Working(o, intent, Locate(db.cases[p].attempts[i])))
    case (FindActive, Missing) => (db, Fail(NotFound))
    case (Locate(attempt), Resolve(resolved, _)) =>
      if !HasConnection(Connections(db, intent.workspace), attempt.connectionId) then (db, Fail(NotFound))
      else if !resolved then (db, Fail(Unresolved))
      else (db, Working(o, intent, Query(attempt)))
    case (Query(attempt), Verified(answer)) => (db, Working(o, intent, Settle(attempt, answer)))
    case (Settle(attempt, answer), Go) =>
      WithAttempt(db, Reconciled(attempt, answer), AfterReconcile(o, intent, attempt, answer))
    case (Reopen, Go) => WithPayment(db, Reopened(intent), Working(o, Reopened(intent), ReadConnections))
    case (_, _) => (db, Stopped(None))
  }

  function ReconcileStep(db: Db, payment: string, env: Environment): Local {
    if payment !in db.cases then Fail(NotFound)
    else if db.cases[payment].intent.status != Reconciling then Fail(InvalidTransition)
    else Working(ByReconcile(env), db.cases[payment].intent, FindActive)
  }

  function ReceiveStep(db: Db, notice: Notice, id: string, now: Time): (Db, Local) {
    if notice.externalId == "" || notice.paymentId == "" || notice.eventType != "payment.paid" then
      (db, Fail(Unresolved))
    else
      (RecordProviderEvent(db, ProviderEvent(id, notice.connectionId, notice.externalId, notice.paymentId, now, None)).0,
       Hook(notice, FindCharge))
  }

  function ReadIntentStep(db: Db, notice: Notice, payment: string, attemptId: string): Local {
    if payment !in db.cases then Fail(NotFound)
    else
      var intent := db.cases[payment].intent;
      if intent.status == Paid then Hook(notice, Processed(intent))
      else if intent.status != AwaitingPayment || intent.presented != attemptId then Fail(InvalidTransition)
      else Hook(notice, ReadPresented(intent))
  }

  function ReadHistoryStep(db: Db, notice: Notice, intent: Intent, attempt: Attempt, c: Choice): Local
    requires c.Fresh?
  {
    var recovery := RecoveryFor(intent, AttemptsOf(db, intent.id), attempt, c.id, c.now);
    var paid := PaidIntent(intent, recovery.Some?, c.now);
    Hook(notice, Commit(paid, recovery, EventsFor(paid, c.id2, c.id3, c.now)))
  }

  function HookStep(db: Db, notice: Notice, stage: HookStage, c: Choice): (Db, Local) {
    match (stage, c)
    case (Receive, Fresh(id, _, _, now)) => ReceiveStep(db, notice, id, now)
    case (FindCharge, Found(p, i)) =>
      if ChargedAt(db, notice.connectionId, notice.paymentId, p, i) then
        (db, Hook(notice, ReadIntent(db.cases[p].attempts[i].intentId, db.cases[p].attempts[i].id)))
      else (db, Stopped(None))
    case (FindCharge, Missing) => (db, Fail(NotFound))
    case (ReadIntent(payment, attemptId), Go) => (db, ReadIntentStep(db, notice, payment, attemptId))
    case (ReadPresented(intent), Found(p, i)) =>
      if !AttemptAt(db, intent.presented, p, i) then (db, Stopped(None))
      else if db.cases[p].attempts[i].status != Succeeded then (db, Fail(InvalidTransition))
      else (db, Hook(notice, ReadHistory(intent, db.cases[p].attempts[i])))
    case (ReadPresented(_), Missing) => (db, Fail(NotFound))
    case (ReadHistory(intent, attempt), Fresh(_, _, _, _)) => (db, ReadHistoryStep(db, notice, intent, attempt, c))
    case (Commit(intent, recovery, events), Go) =>
      (match MarkPaid(db, intent, recovery, events)
       case Ok(db') => (db', Hook(notice, Processed(intent)))
       case Err(e) => (db, Fail(e)))
    case (Processed(intent), Fresh(_, _, _, now)) =>
      (match MarkProcessed(db, notice.connectionId, notice.externalId, now)
       case Ok(db') => (db', HookDone(intent))
       case Err(e) => (db, Fail(e)))
    case (_, _) => (db, Stopped(None))
  }

  // The step of a thread in `l` when the world chooses `c`. `Halt`, and any choice that
  // does not fit, stops the thread without touching the store.
  function Step(cfg: Config, db: Db, l: Local, c: Choice): (Db, Local) {
    match l
    case CreateStart(req) =>
      if c.Fresh? then CreateStep(db, req, c.id) else (db, if c.Reread? then CreateReread(req) else Stopped(None))
    case CreateReread(req) => (db, if c.Go? then Reading(db, req) else Stopped(None))
    case ReconcileStart(payment, env) => (db, if c.Go? then ReconcileStep(db, payment, env) else Stopped(None))
    case Working(o, intent, stage) => WorkStep(cfg, db, o, intent, stage, c)
    case Hook(notice, stage) => HookStep(db, notice, stage, c)
    case _ => (db, l)
  }

  // One thread running with nobody else around.
  function Drive(cfg: Config, db: Db, l: Local, choices: seq<Choice>): (Db, Local)
    decreases |choices|
  {
    if choices == [] then (db, l)
    else
      var (db', l') := Drive(cfg, db, l, choices[..|choices| - 1]);
      Step(cfg, db', l', choices[|choices| - 1])
  }

  lemma Begin(cfg: Config, db: Db, l: Local, c: Choice, to: (Db, Local))
    requires Step(cfg, db, l, c) == to
    ensures Drive(cfg, db, l, [c]) == to
  {
    hide Step;
    assert [c][..0] == [];
  }

  lemma Extend(cfg: Config, db: Db, l: Local, choices: seq<Choice>, at: (Db, Local), c: Choice, to: (Db, Local))
    requires Drive(cfg, db, l, choices) == at && Step(cfg, at.0, at.1, c) == to
    ensures Drive(cfg, db, l, choices + [c]) == to
  {
    hide Step;
    assert (choices + [c])[..|choices|] == choices;
  }

  lemma {:induction false} DriveAppend(cfg: Config, db: Db, l: Local, first: seq<Choice>, second: seq<Choice>)
    ensures var (db', l') := Drive(cfg, db, l, first);
            Drive(cfg, db, l, first + second) == Drive(cfg, db', l', second)
    decreases |second|
  {
    hide Step;
    if second == [] {
      assert first + second == first;
    } else {
      var n := |second| - 1;
      DriveAppend(cfg, db, l, first, second[..n]);
      assert (first + second)[..|first| + n] == first + second[..n];
    }
  }

  // ---------- The whole system ----------

  // What is known about the providers. `home` says where each identifier was used;
  // a charge may be live for any attempt that was requested, until the connector
  // has answered that there is none.
  datatype World = World(
    home: map<string, (string, nat)>,
    requested: set<string>,
    disproved: set<string>,
    live: set<string>)

  datatype Sys = Sys(db: Db, world: World, threads: map<nat, Local>)

  function WorldAfter(cfg: Config, db: Db, w: World, l: Local, c: Choice): World {
    if !l.Working? then w
    else
      match (l.stage, c)
      case (Loop(plan), Fresh(id, _, _, _)) =>
        var l' := Step(cfg, db, l, c).1;
        if l'.Working? && l'.stage.Activate? then w.(home := w.home[id := (l.intent.id, |plan.attempts|)]) else w
      case (Send(_, attempt), Go) => w.(requested := w.requested + {attempt.id})
      case (Await(_, attempt), Answer(CreateFailedSafe(_, _))) => w.(disproved := w.disproved + {attempt.id})
      case (Query(attempt), Verified(NotCreated(_))) => w.(disproved := w.disproved + {attempt.id})
      case (_, _) => w
  }

  // Identifiers are fresh, lookups find what is there, `Reread` follows an insert that
  // met an existing row, ReconcilePayment is given the payment's own environment, and a
  // connector that denies a charge is right.
  ghost predicate Allowed(db: Db, w: World, l: Local, c: Choice) {
    match l
    case CreateStart(req) =>
      && (c.Fresh? ==> c.id != "" && c.id !in db.cases)
      && (c.Reread? ==> JoinKey(req.content.workspace, req.idempotencyKey) in db.idempotency)
    case ReconcileStart(payment, env) =>
      payment in db.cases ==> db.cases[payment].intent.fingerprint.environment == env
    case Working(_, intent, stage) =>
      (match (stage, c)
       case (Loop(_), Fresh(id, _, _, _)) => id != ""
       case (Await(_, attempt), Answer(CreateFailedSafe(_, _))) => attempt.id !in w.live
       case (Query(attempt), Verified(NotCreated(_))) => attempt.id !in w.live
       case (FindActive, Found(p, i)) => AttemptAt(db, intent.active, p, i)
       case (FindActive, Missing) => !AttemptExists(db, intent.active)
       case (_, _) => true)
    case Hook(notice, stage) =>
      (match (stage, c)
       case (FindCharge, Found(p, i)) => ChargedAt(db, notice.connectionId, notice.paymentId, p, i)
       case (FindCharge, Missing) => forall p, i :: !ChargedAt(db, notice.connectionId, notice.paymentId, p, i)
       case (ReadPresented(intent), Found(p, i)) => AttemptAt(db, intent.presented, p, i)
       case (ReadPresented(intent), Missing) => !AttemptExists(db, intent.presented)
       case (_, _) => true)
    case _ => true
  }

  datatype Action =
    | Spawn(thread: nat, start: Local)
    | Run(thread: nat, choice: Choice)
    | Reconfigure(providers: Providers)
    | Charge(attempt: string)

  // Any call may begin at any time.
  predicate MayStart(l: Local) {
    match l
    case CreateStart(_) => true
    case Hook(_, stage) => stage == Receive
    case ReconcileStart(_, _) => true
    case _ => false
  }

  // Between reading a payment as reconciling and saving it again.
  predicate InWindow(l: Local, payment: string) {
    match l
    case Working(ByReconcile(_), intent, stage) =>
      intent.id == payment
      && (stage.FindActive? || stage.Locate? || stage.Query? || stage.Settle? || stage.Reopen? || stage.Finish?)
    case _ => false
  }

  // A ReconcilePayment that reads its payment as reconciling does so while no other one is
  // between its own reading and its first save of the payment.
  ghost predicate Undisturbed(sys: Sys, t: nat, c: Choice)
    requires t in sys.threads
  {
    match sys.threads[t]
    case ReconcileStart(payment, _) =>
      c.Go? && payment in sys.db.cases && sys.db.cases[payment].intent.status == Reconciling ==>
        forall u :: u in sys.threads && u != t ==> !InWindow(sys.threads[u], payment)
    case _ => true
  }

  ghost predicate Known(providers: Providers, workspace: string, id: string, env: Environment) {
    workspace in providers
    && exists i :: 0 <= i < |providers[workspace]|
                && providers[workspace][i].id == id && providers[workspace][i].environment == env
  }

  ghost predicate UniqueConnections(providers: Providers) {
    forall w1, i1, w2, i2 ::
      && w1 in providers && 0 <= i1 < |providers[w1]|
      && w2 in providers && 0 <= i2 < |providers[w2]|
      && providers[w1][i1].id == providers[w2][i2].id
      ==> w1 == w2 && i1 == i2
  }

  // Connections may be added, switched on and off, and change circuit, but keep their
  // workspace and environment.
  ghost predicate Evolves(old': Providers, new': Providers) {
    && UniqueConnections(new')
    && (forall w, i :: w in old' && 0 <= i < |old'[w]| ==> Known(new', w, old'[w][i].id, old'[w][i].environment))
    && (forall w, i :: w in new' && 0 <= i < |new'[w]| ==> new'[w][i].workspace == w)
  }

  ghost predicate Enabled(sys: Sys, a: Action) {
    match a
    case Spawn(t, l) => t !in sys.threads && MayStart(l)
    case Run(t, c) => t in sys.threads && Allowed(sys.db, sys.world, sys.threads[t], c) && Undisturbed(sys, t, c)
    case Reconfigure(providers) => Evolves(sys.db.providers, providers)
    case Charge(id) => id in sys.world.requested && id !in sys.world.disproved
  }

  function Apply(cfg: Config, sys: Sys, a: Action): Sys {
    match a
    case Spawn(t, l) => sys.(threads := sys.threads[t := l])
    case Run(t, c) =>
      if t !in sys.threads then sys
      else
        var l := sys.threads[t];
        var (db', l') := Step(cfg, sys.db, l, c);
        Sys(db', WorldAfter(cfg, sys.db, sys.world, l, c), sys.threads[t := l'])
    case Reconfigure(providers) => sys.(db := sys.db.(providers := providers))
    case Charge(id) => sys.(world := sys.world.(live := sys.world.live + {id}))
  }

  const INITIAL: Sys := Sys(EMPTY, World(map[], {}, {}, {}), map[])

  // A run: the states it goes through, and the action between each two of them.
  datatype History = History(states: seq<Sys>, actions: seq<Action>)

  ghost predicate IsRun(cfg: Config, h: History) {
    && |h.states| == |h.actions| + 1
    && h.states[0] == INITIAL
    && forall i :: 0 <= i < |h.actions| ==>
         Enabled(h.states[i], h.actions[i]) && h.states[i + 1] == Apply(cfg, h.states[i], h.actions[i])
  }
}
