// How a call gets as far as the connector, in every run: what a create finds under its key,
// which connection a routing call chooses and what it writes down about it, and when a
// reconciliation asks at all.
module PaymentDispatch {
  import opened Domain
  import opened Router
  import opened PaymentDb
  import opened PaymentMachine
  import opened PaymentInvariant
  import opened PaymentSteps
  import opened PaymentSafety
  import opened PaymentOutcomes
  import PaymentTrace

  // ---------- Creating ----------

  // The stored payment of this very request.
  predicate IsOf(intent: Intent, req: Request) {
    intent.workspace == req.content.workspace && intent.idempotencyKey == req.idempotencyKey && intent.fingerprint == req.content
  }

  // A create under a new key stores the request's payment; a repeat of the request returns
  // the stored payment and changes nothing; another request under the key is refused.
  lemma KeyDecides(cfg: Config, h: History, k: nat, req: Request, c: Choice)
    requires IsRun(cfg, h) && k < |h.states| && c.Fresh? && c.id !in h.states[k].db.cases
    ensures var db, key := h.states[k].db, JoinKey(req.content.workspace, req.idempotencyKey);
            var (db', l') := Step(cfg, db, CreateStart(req), c);
            if key !in db.idempotency then
              var row := Intent(c.id, req.content.workspace, req.idempotencyKey, req.content, req.content.amount, Created, "", "",
                                None, false, 0, "", None);
              && db' == db.(cases := db.cases[c.id := Case(row, [], [], [])],
                            idempotency := db.idempotency[key := IdempotencyRecord(c.id, req.content)])
              && l' == Working(ByCreate(req), row, Admit)
            else
              && db' == db && db.idempotency[key].paymentId in db.cases
              && var stored := db.cases[db.idempotency[key].paymentId].intent;
                 if stored.fingerprint == req.content then IsOf(stored, req) && l' == Done(ByCreate(req), stored, None)
                 else l' == Stopped(Some(IdempotencyConflict))
    ensures var db, key := h.states[k].db, JoinKey(req.content.workspace, req.idempotencyKey);
            key in db.idempotency ==>
              Step(cfg, db, CreateReread(req), Go) == Step(cfg, db, CreateStart(req), c)
  {
    hide Apply, Enabled, CaseOk, OutboxOk, ThreadsOk;
    RunSafe(cfg, h, k);
    var db, key := h.states[k].db, JoinKey(req.content.workspace, req.idempotencyKey);
    if key in db.idempotency && db.idempotency[key].fingerprint == req.content {
      CasesNamed(cfg.maxAttempts, db, h.states[k].world);
      Rebinds(db, req);
    }
  }

  // A payment that has just been created is then saved as routing, and otherwise as it was.
  lemma AdmissionIsSaved(cfg: Config, h: History, i: nat, t: nat)
    requires IsRun(cfg, h) && Makes(h, i, t, Go) && h.states[i].threads[t].Working? && h.states[i].threads[t].stage.Admit?
    ensures var l := h.states[i].threads[t];
            var intent := l.intent.(status := Routing);
            && l.intent.id in h.states[i].db.cases && h.states[i].db.cases[l.intent.id].intent == l.intent
            && OnlyRecordChanges(h.states[i].db, h.states[i + 1].db, l.intent.id, intent)
            && t in h.states[i + 1].threads && h.states[i + 1].threads[t] == Working(l.origin, intent, ReadConnections)
  {
    hide Step, CaseOk, StageOk;
    var l := h.states[i].threads[t];
    Standing(cfg, h, i, t);
    StepTo(cfg, h, i, t, Go);
    PaymentTrace.AdmitStepIs(cfg, h.states[i].db, l.origin, l.intent);
  }

  // ---------- Choosing a connection ----------

  function UsedConnections(attempts: seq<Attempt>): set<string> {
    set a | a in attempts :: a.connectionId
  }

  // What a choice for payment p depends on: the requested environment, the connections that
  // its stored attempts have used, the catalog, and the health that was read.
  function ChoiceContext(cfg: Config, c: Case, health: Health): Context {
    Context(c.intent.fingerprint.environment, UsedConnections(c.attempts), cfg.catalog, "pix.create", health)
  }

  // The dispatch loop begins with the workspace's connections as they are stored when the
  // health has been read, and with the stored attempts.
  lemma LoopBegins(cfg: Config, h: History, i: nat, j: nat, t: nat, health: Health)
    requires IsRun(cfg, h) && Makes(h, i, t, Snapshot(health)) && GoesOn(h, i, j, t)
    requires h.states[i].threads[t].Working? && h.states[i].threads[t].stage.ReadConnections?
    ensures var l, db := h.states[i].threads[t], h.states[i].db;
            var p, ws := l.intent.id, l.intent.workspace;
            && h.states[i + 1].db == db && h.states[j + 1].db == h.states[j].db
            && p in h.states[j].db.cases && t in h.states[j + 1].threads
            && var attempts := h.states[j].db.cases[p].attempts;
               h.states[j + 1].threads[t] == Working(l.origin, l.intent, Loop(Plan(
                 if ws in db.providers then db.providers[ws] else [], health, attempts, UsedConnections(attempts))))
  {
    hide Step, CaseOk, StageOk, Inv;
    var l := h.states[i].threads[t];
    StepTo(cfg, h, i, t, Snapshot(health));
    PaymentTrace.ConnectionsStepIs(cfg, h.states[i].db, l.origin, l.intent, health);
    RestsStill(cfg, h, i + 1, j, t);
    StepTo(cfg, h, j, t, Go);
    PaymentTrace.AttemptsStepIs(cfg, h.states[j].db, l.origin, l.intent, Connections(h.states[i].db, l.intent.workspace), health);
  }

  // At action i the thread looks for a connection among these.
  predicate ChoosesAt(h: History, i: nat, t: nat, c: Choice) {
    Makes(h, i, t, c) && c.Fresh? && h.states[i].threads[t].Working? && h.states[i].threads[t].stage.Loop?
  }

  ghost predicate Choosable(connections: seq<Connection>, ctx: Context) {
    exists conn :: conn in connections && Qualifies(conn, ctx)
  }

  // A new attempt on the first choice, with the decision that explains it.
  ghost predicate Chosen(db: Db, db': Db, p: string, connections: seq<Connection>, ctx: Context, id: string, id2: string)
    requires p in db.cases
  {
    exists conn, rows ::
      && IsFirstChoice(Some(conn), connections, ctx) && RowsAreTrue(rows, connections, ctx)
      && var c := db.cases[p];
         db' == db.(cases := db.cases[p := c.(
           attempts := c.attempts + [Attempt(id, p, conn.id, |c.attempts| + 1, AttemptCreated, "", "", "", None)],
           decisions := c.decisions + [Decision(id2, p, id, conn.id, rows)])])
  }

  lemma LoopStands(cfg: Config, h: History, i: nat, t: nat)
    requires IsRun(cfg, h) && i < |h.states| && t in h.states[i].threads
    requires h.states[i].threads[t].Working? && h.states[i].threads[t].stage.Loop?
    ensures var l := h.states[i].threads[t];
            var p, plan := l.intent.id, l.stage.plan;
            && p in h.states[i].db.cases && h.states[i].db.cases[p].intent == l.intent
            && h.states[i].db.cases[p].attempts == plan.attempts
            && ContextOf(cfg, l.origin, plan) == ChoiceContext(cfg, h.states[i].db.cases[p], plan.health)
  {
    hide CaseOk, SnapshotOk;
    Standing(cfg, h, i, t);
  }

  // While the budget lasts and some connection may be asked, the loop adds an attempt on the
  // first choice and its decision; otherwise it changes nothing.
  lemma AttemptIsChosen(cfg: Config, h: History, i: nat, t: nat, c: Choice)
    requires IsRun(cfg, h) && ChoosesAt(h, i, t, c)
    ensures var db, db', l := h.states[i].db, h.states[i + 1].db, h.states[i].threads[t];
            var p, plan := l.intent.id, l.stage.plan;
            && p in db.cases && t in h.states[i + 1].threads
            && var ctx := ChoiceContext(cfg, db.cases[p], plan.health);
               if |db.cases[p].attempts| < cfg.maxAttempts && Choosable(plan.connections, ctx) then
                 if AttemptExists(db, c.id) then db' == db && h.states[i + 1].threads[t] == Stopped(Some(InvalidTransition))
                 else
                   && Chosen(db, db', p, plan.connections, ctx, c.id, c.id2)
                   && p in db'.cases && db'.cases[p].attempts != []
                   && Works(h.states[i + 1].threads[t], p, Activate(plan, Last(db', p)))
               else db' == db
  {
    hide Step, Selection, AttemptExists, IsFirstChoice, RowsAreTrue, CaseOk, Inv, ChoiceContext, ContextOf;
    var l, db := h.states[i].threads[t], h.states[i].db;
    var plan := l.stage.plan;
    LoopStands(cfg, h, i, t);
    StepTo(cfg, h, i, t, c);
    PaymentTrace.SelectStepIs(cfg, db, l.origin, l.intent, plan, c);
    var ctx := ContextOf(cfg, l.origin, plan);
    var route := Selection(plan.connections, ctx);
    SelectionIsFirstChoice(plan.connections, ctx);
    CandidatesAreTrue(plan.connections, ctx);
    ChoiceExists(plan.connections, ctx, route.selected);
    if route.selected.Some? && |plan.attempts| < cfg.maxAttempts && !AttemptExists(db, c.id) {
      assert Chosen(db, h.states[i + 1].db, l.intent.id, plan.connections, ctx, c.id, c.id2);
    }
  }

  lemma ChoiceExists(connections: seq<Connection>, ctx: Context, choice: Option<Connection>)
    requires IsFirstChoice(choice, connections, ctx)
    ensures choice.Some? <==> Choosable(connections, ctx)
  {
  }

  // A routing call without budget, or without a connection that may be asked, fails the payment.
  lemma RoutingFails(cfg: Config, h: History, i: nat, j: nat, t: nat, c: Choice)
    requires IsRun(cfg, h) && ChoosesAt(h, i, t, c) && GoesOn(h, i, j, t)
    requires var l, db := h.states[i].threads[t], h.states[i].db;
             l.intent.id in db.cases ==>
               || |db.cases[l.intent.id].attempts| >= cfg.maxAttempts
               || !Choosable(l.stage.plan.connections, ChoiceContext(cfg, db.cases[l.intent.id], l.stage.plan.health))
    ensures var l, db := h.states[i].threads[t], h.states[i].db;
            var p := l.intent.id;
            && p in db.cases
            && var spent := |db.cases[p].attempts| >= cfg.maxAttempts;
               var intent := db.cases[p].intent.(
                 status := Failed, failureCode := if spent then "fallback_budget_exhausted" else "no_eligible_provider");
               && OnlyRecordChanges(h.states[j].db, h.states[j + 1].db, p, intent)
               && t in h.states[j + 1].threads
               && Returns(h.states[j + 1].threads[t], intent, if spent then None else Some(NoEligibleProvider))
  {
    hide Step, Selection, AttemptExists, IsFirstChoice, CaseOk, Inv, ChoiceContext, ContextOf, Qualifies;
    var l, db := h.states[i].threads[t], h.states[i].db;
    var plan := l.stage.plan;
    LoopStands(cfg, h, i, t);
    StepTo(cfg, h, i, t, c);
    PaymentTrace.SelectStepIs(cfg, db, l.origin, l.intent, plan, c);
    var ctx := ContextOf(cfg, l.origin, plan);
    SelectionIsFirstChoice(plan.connections, ctx);
    ChoiceExists(plan.connections, ctx, Selection(plan.connections, ctx).selected);
    RestsStill(cfg, h, i + 1, j, t);
    RecordIsSaved(cfg, h, j, t, h.states[j].threads[t].stage.verdict);
  }

  // ---------- Before the request ----------

  lemma ActiveIsSaved(cfg: Config, h: History, i: nat, t: nat)
    requires IsRun(cfg, h) && Makes(h, i, t, Go) && h.states[i].threads[t].Working? && h.states[i].threads[t].stage.Activate?
    ensures var l, db := h.states[i].threads[t], h.states[i].db;
            && l.intent.id in db.cases && db.cases[l.intent.id].intent == l.intent && db.cases[l.intent.id].attempts != []
            && var a := Last(db, l.intent.id);
               var intent := l.intent.(active := a.id);
               && OnlyRecordChanges(db, h.states[i + 1].db, l.intent.id, intent)
               && t in h.states[i + 1].threads && h.states[i + 1].threads[t] == Working(l.origin, intent, Prepare(l.stage.plan, a))
  {
    hide Step, CaseOk, PlanOk;
    var l := h.states[i].threads[t];
    Standing(cfg, h, i, t);
    StepTo(cfg, h, i, t, Go);
    PaymentTrace.ActivateStepIs(cfg, h.states[i].db, l.origin, l.intent, l.stage.plan, l.stage.attempt);
  }

  predicate PreparesAt(h: History, i: nat, t: nat, resolved: bool, saved: bool) {
    Makes(h, i, t, Resolve(resolved, saved)) && h.states[i].threads[t].Working? && h.states[i].threads[t].stage.Prepare?
  }

  // With an adapter the attempt is marked as requesting before the request is sent; without
  // one it has failed terminally, unless that cannot be saved.
  lemma AdapterDecides(cfg: Config, h: History, i: nat, t: nat, resolved: bool, saved: bool)
    requires IsRun(cfg, h) && PreparesAt(h, i, t, resolved, saved)
    ensures var l, db, db' := h.states[i].threads[t], h.states[i].db, h.states[i + 1].db;
            var p := l.intent.id;
            && p in db.cases && db.cases[p].attempts != [] && t in h.states[i + 1].threads
            && (if resolved then
                  && OnlyLastChanges(db, db', p) && Last(db', p) == Last(db, p).(status := Requesting)
                  && Works(h.states[i + 1].threads[t], p, Send(l.stage.plan, Last(db', p)))
                else if saved then
                  && OnlyLastChanges(db, db', p)
                  && Last(db', p) == Last(db, p).(status := FailedTerminal, failureCode := "adapter_not_registered")
                else db' == db)
  {
    hide Step, WorkStep, CaseOk, PlanOk, OnlyLastChanges, Inv;
    var l, db := h.states[i].threads[t], h.states[i].db;
    Standing(cfg, h, i, t);
    StepTo(cfg, h, i, t, Resolve(resolved, saved));
    LastBelongs(cfg.maxAttempts, l.intent.id, db.cases[l.intent.id], h.states[i].world, db.providers);
    PaymentTrace.PrepareStepIs(cfg, db, l.origin, l.intent, l.stage.plan, l.stage.attempt, resolved, saved);
    var a := l.stage.attempt;
    SavedOnly(cfg.maxAttempts, l.intent.id, db, h.states[i].world, a.(status := Requesting));
    SavedOnly(cfg.maxAttempts, l.intent.id, db, h.states[i].world,
              a.(status := FailedTerminal, failureCode := "adapter_not_registered"));
  }

  // Without an adapter the payment fails, and the call returns the adapter's error.
  lemma NoAdapterFails(cfg: Config, h: History, i: nat, j: nat, t: nat, saved: bool)
    requires IsRun(cfg, h) && PreparesAt(h, i, t, false, saved) && GoesOn(h, i, j, t)
    ensures var l := h.states[i].threads[t];
            var intent := l.intent.(status := Failed, failureCode := "adapter_not_registered");
            && OnlyRecordChanges(h.states[j].db, h.states[j + 1].db, l.intent.id, intent)
            && t in h.states[j + 1].threads && Returns(h.states[j + 1].threads[t], intent, Some(Unresolved))
  {
    hide Step, WorkStep, CaseOk, Inv;
    var l := h.states[i].threads[t];
    StepTo(cfg, h, i, t, Resolve(false, saved));
    PaymentTrace.PrepareStepIs(cfg, h.states[i].db, l.origin, l.intent, l.stage.plan, l.stage.attempt, false, saved);
    RestsStill(cfg, h, i + 1, j, t);
    RecordIsSaved(cfg, h, j, t, h.states[j].threads[t].stage.verdict);
  }

  // ---------- When a reconciliation asks ----------

  // ReconcilePayment asks the connector exactly about the unknown last attempt of a payment
  // that is reconciling, when that attempt's connection is still there and has an adapter;
  // otherwise it says why not. Until then it changes nothing.
  lemma ReconcileAsks(cfg: Config, h: History, k: nat, p: string, env: Environment, resolved: bool)
    requires IsRun(cfg, h) && k < |h.states|
    ensures var db, start := h.states[k].db, ReconcileStart(p, env);
            if p !in db.cases then Drive(cfg, db, start, [Go]) == (db, Stopped(Some(NotFound)))
            else if db.cases[p].intent.status != Reconciling then Drive(cfg, db, start, [Go]) == (db, Stopped(Some(InvalidTransition)))
            else
              && db.cases[p].attempts != []
              && var intent, a, n := db.cases[p].intent, Last(db, p), |db.cases[p].attempts| - 1;
                 var connections := if intent.workspace in db.providers then db.providers[intent.workspace] else [];
                 && intent.active == a.id
                 && Drive(cfg, db, start, [Go] + [Found(p, n)] + [Resolve(resolved, true)])
                    == (db, if a.status != Unknown then Stopped(Some(InvalidTransition))
                            else if forall i :: 0 <= i < |connections| ==> connections[i].id != a.connectionId then
                              Stopped(Some(NotFound))
                            else if !resolved then Stopped(Some(Unresolved))
                            else Working(ByReconcile(env), intent, Query(a)))
  {
    hide Step, Inv, CaseOk;
    RunSafe(cfg, h, k);
    var db, start := h.states[k].db, ReconcileStart(p, env);
    PaymentTrace.ReconcileStepIs(cfg, db, p, env);
    Begin(cfg, db, start, Go, (db, ReconcileStep(db, p, env)));
    if p in db.cases && db.cases[p].intent.status == Reconciling {
      ReconcilingHasActive(cfg, h.states[k], p);
      var intent, a, n, o := db.cases[p].intent, Last(db, p), |db.cases[p].attempts| - 1, ByReconcile(env);
      var l := if a.status != Unknown then Stopped(Some(InvalidTransition)) else Working(o, intent, Locate(a));
      PaymentTrace.FoundStepIs(cfg, db, o, intent, p, n);
      Extend(cfg, db, start, [Go], (db, Working(o, intent, FindActive)), Found(p, n), (db, l));
      PaymentTrace.LocateStepIs(cfg, db, o, intent, a, resolved);
      StoppedStays(cfg, db, l, Resolve(resolved, true));
      Extend(cfg, db, start, [Go] + [Found(p, n)], (db, l), Resolve(resolved, true), Step(cfg, db, l, Resolve(resolved, true)));
    }
  }

  lemma StoppedStays(cfg: Config, db: Db, l: Local, c: Choice)
    ensures l.Stopped? ==> Step(cfg, db, l, c) == (db, l)
  {
  }

  lemma ReconcilingHasActive(cfg: Config, s: Sys, p: string)
    requires Inv(cfg, s) && p in s.db.cases && s.db.cases[p].intent.status == Reconciling
    ensures s.db.cases[p].attempts != [] && s.db.cases[p].intent.active == Last(s.db, p).id
  {
    assert CaseOk(cfg.maxAttempts, p, s.db.cases[p], s.world, s.db.providers);
  }
}
