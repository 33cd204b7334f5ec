// Each step of a thread that works on a payment alone keeps that payment's invariant.
module PaymentSteps {
  import opened Domain
  import opened Router
  import opened PaymentDb
  import opened PaymentMachine
  import opened PaymentInvariant
  import PaymentTrace

  ghost predicate Grows(w: World, w': World) {
    && (forall id :: id in w.home ==> id in w'.home && w'.home[id] == w.home[id])
    && w.requested <= w'.requested
    && w.disproved <= w'.disproved
    && w.live == w'.live
  }

  ghost predicate Homed(p: string, w: World, c': Case, w': World) {
    forall id :: id in w'.home && id !in w.home ==>
      w'.home[id].0 == p && w'.home[id].1 < |c'.attempts| && c'.attempts[w'.home[id].1].id == id
  }

  // Where a thread that held payment p stands after its step.
  ghost predicate AfterOk(o: Origin, l': Local, p: string, c': Case, w': World, providers: Providers) {
    match l'
    case Working(o', intent, stage) => o' == o && intent.id == p && HoldOk(o, intent, stage, c', w', providers)
    case Done(o', intent, _) => o' == o && (o.ByCreate? ==> intent.id == p && Answers(o.req, intent))
    case Stopped(_) => true
    case _ => false
  }

  // A step by the holder of p changes p alone, within its invariant.
  ghost predicate StepGood(max: nat, p: string, db: Db, w: World, o: Origin, db': Db, w': World, l': Local) {
    && p in db.cases && p in db'.cases
    && var c, c' := db.cases[p], db'.cases[p];
       && db' == db.(cases := db.cases[p := c'])
       && CaseOk(max, p, c', w', db.providers)
       && CaseMoves(max, c, c')
       && c'.intent.status != Paid
       && Grows(w, w') && ChargesOk(w') && Homed(p, w, c', w')
       && AfterOk(o, l', p, c', w', db.providers)
  }

  ghost predicate Good(cfg: Config, db: Db, w: World, o: Origin, intent: Intent, stage: Stage, c: Choice) {
    var (db', l') := WorkStep(cfg, db, o, intent, stage, c);
    StepGood(cfg.maxAttempts, intent.id, db, w, o, db', WorldAfter(cfg, db, w, Working(o, intent, stage), c), l')
  }

  // The part of the invariant that a holder of a payment needs.
  ghost predicate Before(cfg: Config, db: Db, w: World, o: Origin, intent: Intent, stage: Stage) {
    && intent.id in db.cases
    && CaseOk(cfg.maxAttempts, intent.id, db.cases[intent.id], w, db.providers)
    && HoldOk(o, intent, stage, db.cases[intent.id], w, db.providers)
    && ChargesOk(w)
    && HomeOk(db, w)
    && ProvidersOk(db)
  }

  lemma DistinctIds(max: nat, c: Case, w: World, providers: Providers, i: nat, j: nat)
    requires LedgerOk(max, c, w, providers) && i < |c.attempts| && j < |c.attempts|
    requires c.attempts[i].id == c.attempts[j].id
    ensures i == j
  {
    assert AttemptOk(c, i, w, providers) && AttemptOk(c, j, w, providers);
  }

  function Saved(c: Case, a: Attempt): Case
    requires |c.attempts| > 0
  {
    c.(attempts := c.attempts[..|c.attempts| - 1] + [a])
  }

  // Saving the attempt in progress replaces the last one.
  lemma SaveLast(max: nat, p: string, db: Db, w: World, a: Attempt)
    requires p in db.cases && CaseOk(max, p, db.cases[p], w, db.providers)
    requires |db.cases[p].attempts| > 0
    requires var last := db.cases[p].attempts[|db.cases[p].attempts| - 1]; a.id == last.id && a.intentId == p
    ensures SaveAttempt(db, a) == Ok(db.(cases := db.cases[p := Saved(db.cases[p], a)]))
  {
    var c := db.cases[p];
    forall i | 0 <= i < |c.attempts| && c.attempts[i].id == a.id ensures i == |c.attempts| - 1 {
      DistinctIds(max, c, w, db.providers, i, |c.attempts| - 1);
    }
    assert Replace(c.attempts, a) == c.attempts[..|c.attempts| - 1] + [a];
  }

  // Replacing the last attempt keeps the ledger when its identity stays and a safe
  // failure has been established.
  lemma SavedLedger(max: nat, c: Case, w: World, providers: Providers, a: Attempt)
    requires LedgerOk(max, c, w, providers) && |c.attempts| > 0
    requires var last := c.attempts[|c.attempts| - 1];
             a.id == last.id && a.intentId == last.intentId && a.connectionId == last.connectionId && a.sequence == last.sequence
    requires a.status == FailedSafe ==> a.id in w.disproved
    ensures LedgerOk(max, Saved(c, a), w, providers)
    ensures a.status == FailedSafe <==> AllSafe(Saved(c, a).attempts)
  {
    var c' := Saved(c, a);
    var n := |c.attempts|;
    forall i | 0 <= i < n ensures AttemptOk(c', i, w, providers) && DecisionOk(c', i) {
      assert AttemptOk(c, i, w, providers) && DecisionOk(c, i);
    }
    assert forall i :: 0 <= i < n ==> c'.attempts[i].connectionId == c.attempts[i].connectionId;
    assert c'.attempts[n - 1].status == a.status;
    forall i | 0 <= i < n - 1 ensures c'.attempts[i].status == FailedSafe { assert AttemptOk(c, i, w, providers); }
  }

  lemma LastOpen(max: nat, c: Case, w: World, providers: Providers)
    requires LedgerOk(max, c, w, providers) && |c.attempts| > 0
    ensures AllSafe(c.attempts) <==> c.attempts[|c.attempts| - 1].status == FailedSafe
  {
    forall i | 0 <= i < |c.attempts| - 1 ensures c.attempts[i].status == FailedSafe { assert AttemptOk(c, i, w, providers); }
  }

  // The ledger does not depend on the rest of the intent, and knowledge only grows.
  lemma SameLedger(max: nat, c: Case, c': Case, w: World, w': World, providers: Providers)
    requires LedgerOk(max, c, w, providers) && Grows(w, w')
    requires c'.attempts == c.attempts && c'.decisions == c.decisions
    requires c'.intent.id == c.intent.id && c'.intent.workspace == c.intent.workspace
    requires c'.intent.fingerprint == c.intent.fingerprint
    ensures LedgerOk(max, c', w', providers)
  {
    forall i | 0 <= i < |c.attempts| ensures AttemptOk(c', i, w', providers) && DecisionOk(c', i) {
      assert AttemptOk(c, i, w, providers) && DecisionOk(c, i);
    }
  }

  function Put(db: Db, p: string, c: Case): Db {
    db.(cases := db.cases[p := c])
  }

  // A step that replaces the case.
  lemma MoveGood(max: nat, p: string, db: Db, w: World, o: Origin, c': Case, w': World, l': Local)
    requires p in db.cases
    requires CaseOk(max, p, c', w', db.providers) && c'.intent.status != Paid
    requires CaseMoves(max, db.cases[p], c')
    requires Grows(w, w') && Homed(p, w, c', w') && ChargesOk(w')
    requires AfterOk(o, l', p, c', w', db.providers)
    ensures StepGood(max, p, db, w, o, Put(db, p, c'), w', l')
  {
  }

  lemma StandsStill(max: nat, p: string, c: Case, w: World, providers: Providers)
    requires CaseOk(max, p, c, w, providers)
    ensures CaseMoves(max, c, c)
  {
  }

  // A step that leaves the store alone.
  lemma StayGood(max: nat, p: string, db: Db, w: World, o: Origin, w': World, l': Local)
    requires p in db.cases && CaseOk(max, p, db.cases[p], w, db.providers) && db.cases[p].intent.status != Paid
    requires Grows(w, w') && w'.home == w.home && ChargesOk(w')
    requires AfterOk(o, l', p, db.cases[p], w', db.providers)
    ensures StepGood(max, p, db, w, o, db, w', l')
  {
    assert Put(db, p, db.cases[p]) == db;
    SameLedger(max, db.cases[p], db.cases[p], w, w', db.providers);
    StandsStill(max, p, db.cases[p], w, db.providers);
    MoveGood(max, p, db, w, o, db.cases[p], w', l');
  }

  // Saving another version of the intent.
  lemma IntentGood(max: nat, p: string, db: Db, w: World, o: Origin, intent: Intent, l': Local)
    requires p in db.cases && CaseOk(max, p, db.cases[p], w, db.providers) && ChargesOk(w)
    requires var c := db.cases[p];
             && intent.id == p && intent.workspace == c.intent.workspace && intent.amount == c.intent.amount
             && intent.idempotencyKey == c.intent.idempotencyKey && intent.fingerprint == c.intent.fingerprint
             && intent.status != Paid
             && StatusOk(c.(intent := intent)) && CaseMoves(max, c, c.(intent := intent))
             && AfterOk(o, l', p, c.(intent := intent), w, db.providers)
    ensures StepGood(max, p, db, w, o, Put(db, p, db.cases[p].(intent := intent)), w, l')
  {
    var c' := db.cases[p].(intent := intent);
    SameLedger(max, db.cases[p], c', w, w, db.providers);
    MoveGood(max, p, db, w, o, c', w, l');
  }

  lemma AdmitStep(cfg: Config, db: Db, w: World, o: Origin, intent: Intent)
    requires Before(cfg, db, w, o, intent, Admit)
    ensures Good(cfg, db, w, o, intent, Admit, Go)
  {
    var intent' := Admitted(intent);
    IntentGood(cfg.maxAttempts, intent.id, db, w, o, intent', Working(o, intent', ReadConnections));
  }

  lemma ConnectionsStep(cfg: Config, db: Db, w: World, o: Origin, intent: Intent, health: Health)
    requires Before(cfg, db, w, o, intent, ReadConnections)
    ensures Good(cfg, db, w, o, intent, ReadConnections, Snapshot(health))
  {
    StayGood(cfg.maxAttempts, intent.id, db, w, o, w,
             Working(o, intent, ReadAttempts(Connections(db, intent.workspace), health)));
  }

  lemma AttemptsStep(cfg: Config, db: Db, w: World, o: Origin, intent: Intent, connections: seq<Connection>,
      health: Health)
    requires Before(cfg, db, w, o, intent, ReadAttempts(connections, health))
    ensures Good(cfg, db, w, o, intent, ReadAttempts(connections, health), Go)
  {
    var attempts := db.cases[intent.id].attempts;
    StayGood(cfg.maxAttempts, intent.id, db, w, o, w,
             Working(o, intent, Loop(Plan(connections, health, attempts, ConnectionIds(attempts)))));
  }

  // The connection that is selected is new to the payment, and in its workspace and environment.
  lemma SelectedFits(cfg: Config, db: Db, w: World, o: Origin, intent: Intent, plan: Plan)
    requires Before(cfg, db, w, o, intent, Loop(plan))
    ensures var route := Selection(plan.connections, ContextOf(cfg, o, plan));
            route.selected.Some? ==>
              && route.selected.value.id !in ConnectionIds(db.cases[intent.id].attempts)
              && Known(db.providers, intent.workspace, route.selected.value.id, intent.fingerprint.environment)
              && exists k :: 0 <= k < |route.candidates|
                          && route.candidates[k].connectionId == route.selected.value.id && route.candidates[k].eligible
  {
    var route := Selection(plan.connections, ContextOf(cfg, o, plan));
    SelectionSound(plan.connections, ContextOf(cfg, o, plan));
    if route.selected.Some? {
      var i :| 0 <= i < |plan.connections| && plan.connections[i] == route.selected.value;
      assert Known(db.providers, intent.workspace, plan.connections[i].id, plan.connections[i].environment);
    }
  }

  // Adding an attempt on a new, known connection keeps the ledger.
  lemma AppendLedger(max: nat, c: Case, w: World, w': World, providers: Providers, a: Attempt, d: Decision)
    requires LedgerOk(max, c, w, providers) && |c.attempts| < max && AllSafe(c.attempts)
    requires a.id != "" && a.id !in w.home && w' == w.(home := w.home[a.id := (c.intent.id, |c.attempts|)])
    requires a.intentId == c.intent.id && a.sequence == |c.attempts| + 1 && a.status == AttemptCreated
    requires a.connectionId !in ConnectionIds(c.attempts)
    requires Known(providers, c.intent.workspace, a.connectionId, c.intent.fingerprint.environment)
    requires d.intentId == c.intent.id && d.attemptId == a.id && d.selected == a.connectionId && NamesEligible(d)
    ensures LedgerOk(max, c.(attempts := c.attempts + [a], decisions := c.decisions + [d]), w', providers)
  {
    var n := |c.attempts|;
    var c' := c.(attempts := c.attempts + [a], decisions := c.decisions + [d]);
    forall i | 0 <= i < n + 1 ensures AttemptOk(c', i, w', providers) && DecisionOk(c', i) {
      if i < n { assert AttemptOk(c, i, w, providers) && DecisionOk(c, i); }
    }
    forall i, j | 0 <= i < j < n + 1 ensures c'.attempts[i].connectionId != c'.attempts[j].connectionId {
      assert c.attempts[i] in c.attempts;
    }
  }

  lemma LoopStep(cfg: Config, db: Db, w: World, o: Origin, intent: Intent, plan: Plan, id: string, id2: string,
      id3: string, now: Time)
    requires Before(cfg, db, w, o, intent, Loop(plan))
    requires id != ""
    ensures Good(cfg, db, w, o, intent, Loop(plan), Fresh(id, id2, id3, now))
  {
    hide StepGood, CaseOk, CaseMoves, Selection, AttemptExists;
    var route := Selection(plan.connections, ContextOf(cfg, o, plan));
    if |plan.attempts| >= cfg.maxAttempts {
      StayGood(cfg.maxAttempts, intent.id, db, w, o, w, Working(o, intent, Finish(GiveUp("fallback_budget_exhausted", None))));
    } else if route.selected.None? {
      StayGood(cfg.maxAttempts, intent.id, db, w, o, w,
               Working(o, intent, Finish(GiveUp("no_eligible_provider", Some(NoEligibleProvider)))));
    } else if AttemptExists(db, id) {
      StayGood(cfg.maxAttempts, intent.id, db, w, o, w, Fail(InvalidTransition));
    } else {
      SelectedFits(cfg, db, w, o, intent, plan);
      AddStep(cfg, db, w, o, intent, plan, id, id2, id3, now);
    }
  }

  lemma HomedExists(db: Db, w: World, id: string)
    requires HomeOk(db, w) && id in w.home
    ensures AttemptExists(db, id)
  {
    assert AttemptAt(db, id, w.home[id].0, w.home[id].1);
  }

  lemma AddStep(cfg: Config, db: Db, w: World, o: Origin, intent: Intent, plan: Plan, id: string, id2: string,
      id3: string, now: Time)
    requires Before(cfg, db, w, o, intent, Loop(plan))
    requires id != "" && !AttemptExists(db, id)
    requires |plan.attempts| < cfg.maxAttempts
    requires var route := Selection(plan.connections, ContextOf(cfg, o, plan));
             && route.selected.Some?
             && route.selected.value.id !in ConnectionIds(db.cases[intent.id].attempts)
             && Known(db.providers, intent.workspace, route.selected.value.id, intent.fingerprint.environment)
             && exists k :: 0 <= k < |route.candidates|
                         && route.candidates[k].connectionId == route.selected.value.id && route.candidates[k].eligible
    ensures Good(cfg, db, w, o, intent, Loop(plan), Fresh(id, id2, id3, now))
  {
    hide StepGood, LedgerOk, Selection;
    var route := Selection(plan.connections, ContextOf(cfg, o, plan));
    var c := db.cases[intent.id];
    var a := NewAttempt(id, intent, |plan.attempts| + 1, route.selected.value.id);
    var d := Decision(id2, intent.id, id, a.connectionId, route.candidates);
    var w' := w.(home := w.home[id := (intent.id, |plan.attempts|)]);
    var c' := c.(attempts := c.attempts + [a], decisions := c.decisions + [d]);
    if id in w.home { HomedExists(db, w, id); }
    AppendLedger(cfg.maxAttempts, c, w, w', db.providers, a, d);
    assert !AllSafe(c'.attempts) by { assert c'.attempts[|c.attempts|].status == AttemptCreated; }
    MoveGood(cfg.maxAttempts, intent.id, db, w, o, c', w', Working(o, intent, Activate(plan, a)));
    assert WorkStep(cfg, db, o, intent, Loop(plan), Fresh(id, id2, id3, now))
        == (Put(db, intent.id, c'), Working(o, intent, Activate(plan, a)));
  }

  lemma ActivateStep(cfg: Config, db: Db, w: World, o: Origin, intent: Intent, plan: Plan, a: Attempt)
    requires Before(cfg, db, w, o, intent, Activate(plan, a))
    ensures Good(cfg, db, w, o, intent, Activate(plan, a), Go)
  {
    var intent' := intent.(active := a.id);
    LastOpen(cfg.maxAttempts, db.cases[intent.id], w, db.providers);
    IntentGood(cfg.maxAttempts, intent.id, db, w, o, intent', Working(o, intent', Prepare(plan, a)));
  }

  // An attempt that may take the place of the last one.
  ghost predicate Replaces(a: Attempt, c: Case, w: World) {
    && |c.attempts| > 0
    && var last := c.attempts[|c.attempts| - 1];
       && last.status != FailedSafe
       && a.id == last.id && a.intentId == last.intentId && a.connectionId == last.connectionId && a.sequence == last.sequence
       && (a.status == FailedSafe ==> a.id in w.disproved)
  }

  lemma SavedCase(max: nat, p: string, c: Case, w: World, providers: Providers, a: Attempt)
    requires CaseOk(max, p, c, w, providers) && Replaces(a, c, w)
    requires c.intent.status == Routing || c.intent.status == Reconciling
    ensures CaseOk(max, p, Saved(c, a), w, providers)
    ensures CaseMoves(max, c, Saved(c, a))
    ensures AllSafe(Saved(c, a).attempts) <==> a.status == FailedSafe
    ensures a.intentId == p
  {
    assert AttemptOk(c, |c.attempts| - 1, w, providers);
    LastOpen(max, c, w, providers);
    SavedLedger(max, c, w, providers, a);
  }

  // Saving the attempt in progress with another status, while the intent stays.
  lemma SaveGood(max: nat, p: string, db: Db, w: World, o: Origin, a: Attempt, l': Local)
    requires p in db.cases && CaseOk(max, p, db.cases[p], w, db.providers) && ChargesOk(w)
    requires Replaces(a, db.cases[p], w)
    requires db.cases[p].intent.status == Routing || db.cases[p].intent.status == Reconciling
    requires AllSafe(Saved(db.cases[p], a).attempts) == (a.status == FailedSafe) ==>
               AfterOk(o, l', p, Saved(db.cases[p], a), w, db.providers)
    ensures SaveAttempt(db, a) == Ok(Put(db, p, Saved(db.cases[p], a)))
    ensures StepGood(max, p, db, w, o, Put(db, p, Saved(db.cases[p], a)), w, l')
  {
    SavedCase(max, p, db.cases[p], w, db.providers, a);
    SaveLast(max, p, db, w, a);
    MoveGood(max, p, db, w, o, Saved(db.cases[p], a), w, l');
  }

  // Only selecting, sending and the connectors' answers change what is known about the providers.
  lemma WorldStays(cfg: Config, db: Db, w: World, o: Origin, intent: Intent, stage: Stage, c: Choice)
    requires !stage.Loop? && !stage.Send? && !stage.Await? && !stage.Query?
    ensures WorldAfter(cfg, db, w, Working(o, intent, stage), c) == w
  {
  }

  lemma WorldAnswered(cfg: Config, db: Db, w: World, o: Origin, intent: Intent, plan: Plan, a: Attempt, outcome: CreateOutcome)
    ensures WorldAfter(cfg, db, w, Working(o, intent, Await(plan, a)), Answer(outcome))
         == if outcome.CreateFailedSafe? then w.(disproved := w.disproved + {a.id}) else w
  {
  }

  lemma PrepareStepGood(cfg: Config, db: Db, w: World, o: Origin, intent: Intent, plan: Plan, a: Attempt,
      resolved: bool, saved: bool)
    requires Before(cfg, db, w, o, intent, Prepare(plan, a))
    ensures Good(cfg, db, w, o, intent, Prepare(plan, a), Resolve(resolved, saved))
  {
    hide StepGood, CaseOk, CaseMoves, Known, Step, WorkStep, WorldAfter;
    PaymentTrace.PrepareStepIs(cfg, db, o, intent, plan, a, resolved, saved);
    WorldStays(cfg, db, w, o, intent, Prepare(plan, a), Resolve(resolved, saved));
    var max, p := cfg.maxAttempts, intent.id;
    if resolved {
      var a' := a.(status := Requesting);
      assert Saved(db.cases[p], a').attempts == plan.attempts + [a'];
      SaveGood(max, p, db, w, o, a', Working(o, intent, Send(plan, a')));
    } else {
      var next := Working(o, intent, Finish(GiveUp("adapter_not_registered", Some(Unresolved))));
      if saved {
        SaveGood(max, p, db, w, o, a.(status := FailedTerminal, failureCode := "adapter_not_registered"), next);
      } else {
        StayGood(max, p, db, w, o, w, next);
      }
    }
  }

  lemma SendStep(cfg: Config, db: Db, w: World, o: Origin, intent: Intent, plan: Plan, a: Attempt)
    requires Before(cfg, db, w, o, intent, Send(plan, a))
    ensures Good(cfg, db, w, o, intent, Send(plan, a), Go)
  {
    hide StepGood, CaseMoves;
    assert AttemptOk(db.cases[intent.id], |plan.attempts|, w, db.providers);
    StayGood(cfg.maxAttempts, intent.id, db, w, o, w.(requested := w.requested + {a.id}), Working(o, intent, Await(plan, a)));
  }

  lemma AnswerStep(cfg: Config, db: Db, w: World, o: Origin, intent: Intent, plan: Plan, a: Attempt,
      outcome: CreateOutcome)
    requires Before(cfg, db, w, o, intent, Await(plan, a))
    requires outcome.CreateFailedSafe? ==> a.id !in w.live
    ensures Good(cfg, db, w, o, intent, Await(plan, a), Answer(outcome))
  {
    hide StepGood, CaseOk, CaseMoves, Known, Step, WorkStep, WorldAfter;
    PaymentTrace.SendStepsAre(cfg, db, o, intent, plan, a, outcome);
    WorldAnswered(cfg, db, w, o, intent, plan, a, outcome);
    var w' := if outcome.CreateFailedSafe? then w.(disproved := w.disproved + {a.id}) else w;
    StayGood(cfg.maxAttempts, intent.id, db, w, o, w', Working(o, intent, Record(plan, a, outcome)));
  }

  // Where the answer leads fits what has been recorded.
  lemma RecordLeads(cfg: Config, db: Db, w: World, o: Origin, intent: Intent, plan: Plan, a: Attempt,
      outcome: CreateOutcome)
    requires Before(cfg, db, w, o, intent, Record(plan, a, outcome))
    ensures var a', c := Recorded(a, outcome), db.cases[intent.id];
            && |c.attempts| > 0
            && (AllSafe(Saved(c, a').attempts) == (a'.status == FailedSafe) ==>
                  AfterOk(o, Working(o, intent, AfterCreate(plan, a, outcome)), intent.id, Saved(c, a'), w, db.providers))
  {
    hide CaseOk, Known, ChargesOk, HomeOk, ProvidersOk;
    var a' := Recorded(a, outcome);
    assert Saved(db.cases[intent.id], a').attempts == plan.attempts + [a'];
    assert ConnectionIds(plan.attempts + [a']) == ConnectionIds(plan.attempts) + {a'.connectionId};
  }

  lemma RecordStep(cfg: Config, db: Db, w: World, o: Origin, intent: Intent, plan: Plan, a: Attempt,
      outcome: CreateOutcome)
    requires Before(cfg, db, w, o, intent, Record(plan, a, outcome))
    ensures Good(cfg, db, w, o, intent, Record(plan, a, outcome), Go)
  {
    hide StepGood, CaseOk, CaseMoves, Known, Step, WorkStep, WorldAfter, AfterOk, AfterCreate;
    PaymentTrace.RecordStepIs(cfg, db, o, intent, plan, a, outcome);
    WorldStays(cfg, db, w, o, intent, Record(plan, a, outcome), Go);
    RecordLeads(cfg, db, w, o, intent, plan, a, outcome);
    SaveGood(cfg.maxAttempts, intent.id, db, w, o, Recorded(a, outcome), Working(o, intent, AfterCreate(plan, a, outcome)));
  }

  lemma ConcludedMoves(max: nat, p: string, c: Case, w: World, providers: Providers, o: Origin, v: Verdict)
    requires CaseOk(max, p, c, w, providers) && VerdictOk(v, o, c)
    ensures var c' := c.(intent := Concluded(c.intent, v)); StatusOk(c') && CaseMoves(max, c, c')
  {
    if |c.attempts| > 0 { LastOpen(max, c, w, providers); }
  }

  lemma FinishStep(cfg: Config, db: Db, w: World, o: Origin, intent: Intent, v: Verdict)
    requires Before(cfg, db, w, o, intent, Finish(v))
    ensures Good(cfg, db, w, o, intent, Finish(v), Go)
  {
    hide StepGood, CaseMoves, StatusOk, LedgerOk, VerdictOk;
    ConcludedMoves(cfg.maxAttempts, intent.id, db.cases[intent.id], w, db.providers, o, v);
    IntentGood(cfg.maxAttempts, intent.id, db, w, o, Concluded(intent, v), Done(o, Concluded(intent, v), FailureOf(v)));
  }

  // ---------- Reconciling ----------

  lemma FoundActive(max: nat, p: string, db: Db, w: World, id: string, q: string, i: nat)
    requires p in db.cases && CaseOk(max, p, db.cases[p], w, db.providers) && |db.cases[p].attempts| > 0
    requires id == db.cases[p].attempts[|db.cases[p].attempts| - 1].id
    requires q in db.cases && CaseOk(max, q, db.cases[q], w, db.providers)
    requires AttemptAt(db, id, q, i)
    ensures q == p && i == |db.cases[p].attempts| - 1
  {
    assert AttemptOk(db.cases[p], |db.cases[p].attempts| - 1, w, db.providers);
    assert AttemptOk(db.cases[q], i, w, db.providers);
  }

  lemma FindStep(cfg: Config, db: Db, w: World, o: Origin, intent: Intent, q: string, i: nat)
    requires Before(cfg, db, w, o, intent, FindActive)
    requires q in db.cases && CaseOk(cfg.maxAttempts, q, db.cases[q], w, db.providers) && AttemptAt(db, intent.active, q, i)
    ensures Good(cfg, db, w, o, intent, FindActive, Found(q, i))
  {
    FoundActive(cfg.maxAttempts, intent.id, db, w, intent.active, q, i);
    StayGood(cfg.maxAttempts, intent.id, db, w, o, w, WorkStep(cfg, db, o, intent, FindActive, Found(q, i)).1);
  }

  lemma LocateStep(cfg: Config, db: Db, w: World, o: Origin, intent: Intent, a: Attempt, resolved: bool, saved: bool)
    requires Before(cfg, db, w, o, intent, Locate(a))
    ensures Good(cfg, db, w, o, intent, Locate(a), Resolve(resolved, saved))
  {
    StayGood(cfg.maxAttempts, intent.id, db, w, o, w, WorkStep(cfg, db, o, intent, Locate(a), Resolve(resolved, saved)).1);
  }

  lemma QueryStep(cfg: Config, db: Db, w: World, o: Origin, intent: Intent, a: Attempt, answer: ReconcileOutcome)
    requires Before(cfg, db, w, o, intent, Query(a))
    requires answer.NotCreated? ==> a.id !in w.live
    ensures Good(cfg, db, w, o, intent, Query(a), Verified(answer))
  {
    hide StepGood, CaseOk, CaseMoves, Known;
    var w' := if answer.NotCreated? then w.(disproved := w.disproved + {a.id}) else w;
    StayGood(cfg.maxAttempts, intent.id, db, w, o, w', Working(o, intent, Settle(a, answer)));
    assert WorldAfter(cfg, db, w, Working(o, intent, Query(a)), Verified(answer)) == w';
  }

  // Where the answer leads fits what has been recorded.
  lemma SettleLeads(cfg: Config, db: Db, w: World, o: Origin, intent: Intent, a: Attempt, answer: ReconcileOutcome)
    requires Before(cfg, db, w, o, intent, Settle(a, answer))
    ensures var a', c := Reconciled(a, answer), db.cases[intent.id];
            && |c.attempts| > 0
            && (AllSafe(Saved(c, a').attempts) == (a'.status == FailedSafe) ==>
                  AfterOk(o, AfterReconcile(o, intent, a, answer), intent.id, Saved(c, a'), w, db.providers))
  {
    hide CaseOk, Known, ChargesOk, HomeOk, ProvidersOk;
  }

  lemma SettleStep(cfg: Config, db: Db, w: World, o: Origin, intent: Intent, a: Attempt, answer: ReconcileOutcome)
    requires Before(cfg, db, w, o, intent, Settle(a, answer))
    ensures Good(cfg, db, w, o, intent, Settle(a, answer), Go)
  {
    hide StepGood, CaseOk, CaseMoves, Known, Step, WorkStep, WorldAfter, AfterOk, AfterReconcile;
    PaymentTrace.SettleStepIs(cfg, db, o, intent, a, answer);
    WorldStays(cfg, db, w, o, intent, Settle(a, answer), Go);
    SettleLeads(cfg, db, w, o, intent, a, answer);
    SaveGood(cfg.maxAttempts, intent.id, db, w, o, Reconciled(a, answer), AfterReconcile(o, intent, a, answer));
  }

  lemma ReopenStep(cfg: Config, db: Db, w: World, o: Origin, intent: Intent)
    requires Before(cfg, db, w, o, intent, Reopen)
    ensures Good(cfg, db, w, o, intent, Reopen, Go)
  {
    IntentGood(cfg.maxAttempts, intent.id, db, w, o, Reopened(intent), Working(o, Reopened(intent), ReadConnections));
  }

  // ---------- Any step ----------

  predicate Fits(stage: Stage, c: Choice) {
    match stage
    case ReadConnections => c.Snapshot?
    case Loop(_) => c.Fresh?
    case Prepare(_, _) => c.Resolve?
    case Await(_, _) => c.Answer?
    case FindActive => c.Found?
    case Locate(_) => c.Resolve?
    case Query(_) => c.Verified?
    case _ => c.Go?
  }

  // Every other choice stops the thread and changes nothing.
  lemma Misfit(cfg: Config, db: Db, w: World, o: Origin, intent: Intent, stage: Stage, c: Choice)
    requires !Fits(stage, c)
    ensures WorkStep(cfg, db, o, intent, stage, c).0 == db && WorkStep(cfg, db, o, intent, stage, c).1.Stopped?
    ensures WorldAfter(cfg, db, w, Working(o, intent, stage), c) == w
  {
  }

  lemma MisfitGood(cfg: Config, db: Db, w: World, o: Origin, intent: Intent, stage: Stage, c: Choice)
    requires Before(cfg, db, w, o, intent, stage) && !Fits(stage, c)
    ensures Good(cfg, db, w, o, intent, stage, c)
  {
    hide StepGood, CaseOk, WorkStep, WorldAfter;
    Misfit(cfg, db, w, o, intent, stage, c);
    StayGood(cfg.maxAttempts, intent.id, db, w, o, w, WorkStep(cfg, db, o, intent, stage, c).1);
  }

  lemma WorkingStep(cfg: Config, db: Db, w: World, o: Origin, intent: Intent, stage: Stage, c: Choice)
    requires Before(cfg, db, w, o, intent, stage) && Allowed(db, w, Working(o, intent, stage), c)
    requires c.Found? && c.payment in db.cases ==> CaseOk(cfg.maxAttempts, c.payment, db.cases[c.payment], w, db.providers)
    ensures Good(cfg, db, w, o, intent, stage, c)
  {
    hide Good, Before, CaseOk;
    if !Fits(stage, c) {
      MisfitGood(cfg, db, w, o, intent, stage, c);
    } else {
      match stage
      case Admit => AdmitStep(cfg, db, w, o, intent);
      case ReadConnections => ConnectionsStep(cfg, db, w, o, intent, c.health);
      case ReadAttempts(connections, health) => AttemptsStep(cfg, db, w, o, intent, connections, health);
      case Loop(plan) => LoopStep(cfg, db, w, o, intent, plan, c.id, c.id2, c.id3, c.now);
      case Activate(plan, a) => ActivateStep(cfg, db, w, o, intent, plan, a);
      case Prepare(plan, a) => PrepareStepGood(cfg, db, w, o, intent, plan, a, c.resolved, c.saved);
      case Send(plan, a) => SendStep(cfg, db, w, o, intent, plan, a);
      case Await(plan, a) => AnswerStep(cfg, db, w, o, intent, plan, a, c.outcome);
      case Record(plan, a, outcome) => RecordStep(cfg, db, w, o, intent, plan, a, outcome);
      case Finish(v) => FinishStep(cfg, db, w, o, intent, v);
      case FindActive => FindStep(cfg, db, w, o, intent, c.payment, c.index);
      case Locate(a) => LocateStep(cfg, db, w, o, intent, a, c.resolved, c.saved);
      case Query(a) => QueryStep(cfg, db, w, o, intent, a, c.answer);
      case Settle(a, answer) => SettleStep(cfg, db, w, o, intent, a, answer);
      case Reopen => ReopenStep(cfg, db, w, o, intent);
    }
  }
}
