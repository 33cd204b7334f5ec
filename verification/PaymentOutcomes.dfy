// What the calls leave in the store, answer by answer, in every run: the rows are written
// out, whatever other threads do between the steps of a call.
module PaymentOutcomes {
  import opened Domain
  import opened Router
  import opened PaymentDb
  import opened PaymentMachine
  import opened PaymentInvariant
  import opened PaymentSteps
  import opened PaymentSafety
  import PaymentTrace

  // ---------- Steps of one thread among others ----------

  // Action i is a step of thread t.
  predicate Makes(h: History, i: nat, t: nat, c: Choice) {
    |h.states| == |h.actions| + 1 && i < |h.actions| && h.actions[i] == Run(t, c) && t in h.states[i].threads
  }

  // Thread t makes no step from state i to state j.
  ghost predicate Rests(h: History, i: nat, j: nat, t: nat)
    requires j <= |h.actions|
  {
    forall n :: i <= n < j ==> !(h.actions[n].Run? && h.actions[n].thread == t)
  }

  // Action j is the next step of thread t after action i, and the call goes through.
  ghost predicate GoesOn(h: History, i: nat, j: nat, t: nat) {
    i < j && Makes(h, j, t, Go) && Rests(h, i + 1, j, t)
  }

  // Thread t works on payment p with this stage ahead.
  predicate Works(l: Local, p: string, stage: Stage) {
    l.Working? && l.intent.id == p && l.stage == stage
  }

  lemma StepTo(cfg: Config, h: History, i: nat, t: nat, c: Choice)
    requires IsRun(cfg, h) && Makes(h, i, t, c)
    ensures var s, s' := h.states[i], h.states[i + 1];
            && t in s'.threads && (s'.db, s'.threads[t]) == Step(cfg, s.db, s.threads[t], c)
            && Allowed(s.db, s.world, s.threads[t], c)
  {
    hide Step, Allowed;
  }

  lemma Standing(cfg: Config, h: History, i: nat, t: nat)
    requires IsRun(cfg, h) && i < |h.states| && t in h.states[i].threads && h.states[i].threads[t].Working?
    ensures var s := h.states[i];
            var l := s.threads[t];
            && Before(cfg, s.db, s.world, l.origin, l.intent, l.stage)
            && s.db.cases[l.intent.id].intent == l.intent
  {
    hide Apply, Enabled, CaseOk, StageOk;
    RunSafe(cfg, h, i);
    assert ThreadOk(h.states[i].db, h.states[i].world, h.states[i].threads[t]);
  }

  // What other threads do leaves the payment that a thread works on as it is.
  lemma OthersKeepIt(cfg: Config, s: Sys, a: Action, t: nat)
    requires Inv(cfg, s) && Enabled(s, a) && t in s.threads && s.threads[t].Working?
    requires !(a.Run? && a.thread == t)
    ensures var s', p := Apply(cfg, s, a), s.threads[t].intent.id;
            && t in s'.threads && s'.threads[t] == s.threads[t]
            && p in s.db.cases && p in s'.db.cases && s'.db.cases[p] == s.db.cases[p]
  {
    hide CaseOk, OutboxOk, IdempotencyOk, HomeOk, WorkStep, HookStep, StageOk, HookOk, CreateStep, Good;
    var p := s.threads[t].intent.id;
    assert ThreadOk(s.db, s.world, s.threads[t]);
    if a.Run? {
      var u := a.thread;
      var l := s.threads[u];
      assert ThreadOk(s.db, s.world, l);
      if l.Working? {
        assert Holds(l) != Holds(s.threads[t]);
        WorkingStep(cfg, s.db, s.world, l.origin, l.intent, l.stage, a.choice);
        OwnCaseOnly(cfg, s.db, s.world, l.origin, l.intent, l.stage, a.choice);
      } else if l.Hook? {
        HookKeeps(cfg, s, u, a.choice, p, t);
      } else if l.CreateStart? {
        CreateKeeps(cfg, s.db, s.world, l.req, a.choice, p);
      }
    }
  }

  lemma OwnCaseOnly(cfg: Config, db: Db, w: World, o: Origin, intent: Intent, stage: Stage, c: Choice)
    requires Good(cfg, db, w, o, intent, stage, c)
    ensures var db' := WorkStep(cfg, db, o, intent, stage, c).0;
            intent.id in db.cases && intent.id in db'.cases && db'.cases == db.cases[intent.id := db'.cases[intent.id]]
  {
    hide WorkStep, CaseOk, CaseMoves, AfterOk;
  }

  lemma CreateKeeps(cfg: Config, db: Db, w: World, req: Request, c: Choice, p: string)
    requires Allowed(db, w, CreateStart(req), c) && p in db.cases
    ensures var db' := Step(cfg, db, CreateStart(req), c).0; p in db'.cases && db'.cases[p] == db.cases[p]
  {
  }

  lemma HookKeeps(cfg: Config, s: Sys, u: nat, c: Choice, p: string, t: nat)
    requires Inv(cfg, s) && u in s.threads && s.threads[u].Hook?
    requires t in s.threads && s.threads[t].Working? && s.threads[t].intent.id == p
    ensures var db' := HookStep(s.db, s.threads[u].notice, s.threads[u].hook, c).0;
            p in s.db.cases && p in db'.cases && db'.cases[p] == s.db.cases[p]
  {
    hide CaseOk, OutboxOk, IdempotencyOk, HomeOk, StageOk, CommitOk, Publish;
    var Hook(notice, stage) := s.threads[u];
    assert ThreadOk(s.db, s.world, s.threads[t]);
    if stage.Commit? {
      CommitReady(cfg, s, u);
      CommitMovesOn(s.db, stage.intent, stage.recovery, stage.events);
      var l := s.threads[t];
      HeldIsOpen(l.origin, l.intent, l.stage, s.db.cases[p], s.world, s.db.providers);
      MarkPaidIs(s.db, stage.intent, stage.recovery, stage.events);
      PublishKeeps(Put(s.db, stage.intent.id, PaidCase(s.db.cases[stage.intent.id], stage.intent, stage.recovery)), stage.events);
    } else {
      HookMoves(s.db, notice, stage, c);
    }
  }

  // While a thread rests, so does the payment it works on.
  lemma {:induction false} RestsStill(cfg: Config, h: History, i: nat, j: nat, t: nat)
    requires IsRun(cfg, h) && i <= j <= |h.actions| && Rests(h, i, j, t)
    requires t in h.states[i].threads && h.states[i].threads[t].Working?
    ensures var p := h.states[i].threads[t].intent.id;
            && t in h.states[j].threads && h.states[j].threads[t] == h.states[i].threads[t]
            && p in h.states[i].db.cases && p in h.states[j].db.cases && h.states[j].db.cases[p] == h.states[i].db.cases[p]
  {
    hide Apply, Enabled, Inv;
    if i < j {
      RestsStill(cfg, h, i, j - 1, t);
      RunSafe(cfg, h, j - 1);
      OthersKeepIt(cfg, h.states[j - 1], h.actions[j - 1], t);
    } else {
      Standing(cfg, h, i, t);
    }
  }

  // ---------- What one write changes ----------

  function Last(db: Db, p: string): Attempt
    requires p in db.cases && |db.cases[p].attempts| > 0
  {
    db.cases[p].attempts[|db.cases[p].attempts| - 1]
  }

  // Between db and db' only the last attempt of payment p has changed.
  predicate OnlyLastChanges(db: Db, db': Db, p: string) {
    && p in db.cases && p in db'.cases && |db.cases[p].attempts| > 0
    && var old', new' := db.cases[p].attempts, db'.cases[p].attempts;
       && |new'| == |old'| && new'[..|old'| - 1] == old'[..|old'| - 1]
       && db' == db.(cases := db.cases[p := db.cases[p].(attempts := new')])
  }

  // Between db and db' only the record of payment p itself has changed, and it is now this one.
  predicate OnlyRecordChanges(db: Db, db': Db, p: string, intent: Intent) {
    p in db.cases && db' == db.(cases := db.cases[p := db.cases[p].(intent := intent)])
  }

  // A thread that has just been refused, or has ended with this record and error.
  predicate Returns(l: Local, intent: Intent, error: Option<Error>) {
    l.Done? && l.intent == intent && l.failure == error
  }

  lemma SavedOnly(max: nat, p: string, db: Db, w: World, a: Attempt)
    requires p in db.cases && CaseOk(max, p, db.cases[p], w, db.providers) && |db.cases[p].attempts| > 0
    requires a.id == Last(db, p).id && a.intentId == p
    ensures SaveAttempt(db, a) == Ok(Put(db, p, Saved(db.cases[p], a)))
    ensures OnlyLastChanges(db, Put(db, p, Saved(db.cases[p], a)), p) && Last(Put(db, p, Saved(db.cases[p], a)), p) == a
  {
    SaveLast(max, p, db, w, a);
  }

  // The thread saves its record at action j.
  lemma RecordIsSaved(cfg: Config, h: History, j: nat, t: nat, v: Verdict)
    requires IsRun(cfg, h) && Makes(h, j, t, Go) && h.states[j].threads[t].Working?
    requires h.states[j].threads[t].stage == Finish(v)
    ensures var l := h.states[j].threads[t];
            var intent := Concluded(l.intent, v);
            && l.intent.id in h.states[j].db.cases && h.states[j].db.cases[l.intent.id].intent == l.intent
            && OnlyRecordChanges(h.states[j].db, h.states[j + 1].db, l.intent.id, intent)
            && t in h.states[j + 1].threads && h.states[j + 1].threads[t] == Done(l.origin, intent, FailureOf(v))
  {
    hide Step, CaseOk, StageOk, Concluded;
    var l := h.states[j].threads[t];
    Standing(cfg, h, j, t);
    StepTo(cfg, h, j, t, Go);
    PaymentTrace.FinishStepIs(cfg, h.states[j].db, l.origin, l.intent, v);
    ConcludedKeeps(l.intent, v);
  }

  lemma ConcludedKeeps(intent: Intent, v: Verdict)
    ensures Concluded(intent, v).id == intent.id
  {
  }

  // ---------- The connector's answer to a request ----------

  // What an attempt keeps of the answer.
  predicate KeepsAnswer(a: Attempt, outcome: CreateOutcome, a': Attempt) {
    && a'.id == a.id && a'.intentId == a.intentId && a'.connectionId == a.connectionId && a'.sequence == a.sequence
    && a'.providerPaymentId == outcome.paymentId && a'.failureCode == outcome.code
    && match outcome
       case CreateSucceeded(_, pix, _) => a'.status == Succeeded && a'.pix == pix && a'.reconciliation == a.reconciliation
       case CreateFailedSafe(_, _) => a'.status == FailedSafe && a'.pix == a.pix && a'.reconciliation == a.reconciliation
       case CreateUnknown(_, _) => a'.status == Unknown && a'.pix == a.pix && a'.reconciliation == "required"
       case CreateFailedTerminal(_, _) => a'.status == FailedTerminal && a'.pix == a.pix && a'.reconciliation == a.reconciliation
  }

  // At action i a request of thread t is answered.
  predicate AnsweredAt(h: History, i: nat, t: nat, outcome: CreateOutcome) {
    Makes(h, i, t, Answer(outcome)) && h.states[i].threads[t].Working? && h.states[i].threads[t].stage.Await?
  }

  // The thread is in the dispatch loop, and its plan is as before but for the new attempts.
  predicate BackInLoop(l: Local, plan: Plan, db: Db, p: string) {
    && p in db.cases && Works(l, p, Loop(plan.(attempts := db.cases[p].attempts,
                                              excluded := set a | a in db.cases[p].attempts :: a.connectionId)))
  }

  lemma AnswerLeads(cfg: Config, h: History, i: nat, j: nat, t: nat, outcome: CreateOutcome)
    requires IsRun(cfg, h) && AnsweredAt(h, i, t, outcome) && GoesOn(h, i, j, t)
    ensures var l := h.states[i].threads[t];
            var p, plan, a := l.intent.id, l.stage.plan, l.stage.attempt;
            && t in h.states[j].threads && h.states[j].threads[t] == Working(l.origin, l.intent, Record(plan, a, outcome))
            && p in h.states[j].db.cases && |h.states[j].db.cases[p].attempts| > 0
            && h.states[j].db.cases[p].intent == l.intent && l.intent.status == Routing
            && h.states[j].db.cases[p].attempts == plan.attempts + [a] && a.intentId == p
            && plan.excluded == ConnectionIds(plan.attempts)
            && CaseOk(cfg.maxAttempts, p, h.states[j].db.cases[p], h.states[j].world, h.states[j].db.providers)
  {
    hide Step, WorkStep, CaseOk, Inv, Known;
    var l := h.states[i].threads[t];
    StepTo(cfg, h, i, t, Answer(outcome));
    PaymentTrace.SendStepsAre(cfg, h.states[i].db, l.origin, l.intent, l.stage.plan, l.stage.attempt, outcome);
    RestsStill(cfg, h, i + 1, j, t);
    Standing(cfg, h, j, t);
    LastBelongs(cfg.maxAttempts, l.intent.id, h.states[j].db.cases[l.intent.id], h.states[j].world, h.states[j].db.providers);
  }

  lemma LastBelongs(max: nat, p: string, c: Case, w: World, providers: Providers)
    requires CaseOk(max, p, c, w, providers) && |c.attempts| > 0
    ensures c.attempts[|c.attempts| - 1].intentId == p
  {
    assert AttemptOk(c, |c.attempts| - 1, w, providers);
  }

  lemma AnswerWrites(cfg: Config, h: History, i: nat, j: nat, t: nat, outcome: CreateOutcome)
    requires IsRun(cfg, h) && AnsweredAt(h, i, t, outcome) && GoesOn(h, i, j, t)
    ensures var l, db, db' := h.states[i].threads[t], h.states[j].db, h.states[j + 1].db;
            var p, plan, a := l.intent.id, l.stage.plan, l.stage.attempt;
            && p in db.cases && |db.cases[p].attempts| > 0 && Last(db, p) == a && db.cases[p].intent == l.intent
            && OnlyLastChanges(db, db', p) && Last(db', p) == Recorded(a, outcome)
            && t in h.states[j + 1].threads
            && h.states[j + 1].threads[t] == Working(l.origin, l.intent, AfterCreate(plan, a, outcome))
  {
    hide Step, CaseOk, OnlyLastChanges, Inv, AfterCreate;
    var l := h.states[i].threads[t];
    var db, db' := h.states[j].db, h.states[j + 1].db;
    AnswerLeads(cfg, h, i, j, t, outcome);
    StepTo(cfg, h, j, t, Go);
    PaymentTrace.RecordStepIs(cfg, db, l.origin, l.intent, l.stage.plan, l.stage.attempt, outcome);
    SavedOnly(cfg.maxAttempts, l.intent.id, db, h.states[j].world, Recorded(l.stage.attempt, outcome));
  }

  // The attempt keeps the answer, and nothing else changes; after a safe failure the thread
  // is back in the loop, having excluded the connection.
  lemma AnswerIsStored(cfg: Config, h: History, i: nat, j: nat, t: nat, outcome: CreateOutcome)
    requires IsRun(cfg, h) && AnsweredAt(h, i, t, outcome) && GoesOn(h, i, j, t)
    ensures var p, db, db' := h.states[i].threads[t].intent.id, h.states[j].db, h.states[j + 1].db;
            && OnlyLastChanges(db, db', p) && KeepsAnswer(Last(db, p), outcome, Last(db', p))
            && db.cases[p].intent.status == Routing
            && (outcome.CreateFailedSafe? ==>
                  t in h.states[j + 1].threads
                  && BackInLoop(h.states[j + 1].threads[t], h.states[i].threads[t].stage.plan, db', p))
  {
    hide Step, CaseOk, Inv;
    var l := h.states[i].threads[t];
    var p, plan, a' := l.intent.id, l.stage.plan, Recorded(l.stage.attempt, outcome);
    AnswerLeads(cfg, h, i, j, t, outcome);
    AnswerWrites(cfg, h, i, j, t, outcome);
    assert h.states[j + 1].db.cases[p].attempts == plan.attempts + [a'];
    assert ConnectionIds(plan.attempts + [a']) == ConnectionIds(plan.attempts) + {a'.connectionId};
  }

  // What the payment's record shows of the answer, once it is saved.
  predicate ShowsAnswer(intent: Intent, outcome: CreateOutcome, attemptId: string, intent': Intent) {
    match outcome
    case CreateSucceeded(_, pix, _) =>
      intent' == intent.(status := AwaitingPayment, presented := attemptId, pix := pix, failureCode := "")
    case CreateUnknown(_, code) => intent' == intent.(status := Reconciling, failureCode := code)
    case CreateFailedTerminal(_, code) => intent' == intent.(status := Failed, failureCode := code)
    case CreateFailedSafe(_, _) => intent' == intent
  }

  // Attempt and payment after an answered request that ends the call, in any run: success is
  // presented, an unknown outcome is held for reconciliation, a terminal one fails the payment.
  lemma AnswerIsConcluded(cfg: Config, h: History, i: nat, j: nat, k: nat, t: nat, outcome: CreateOutcome)
    requires IsRun(cfg, h) && AnsweredAt(h, i, t, outcome) && GoesOn(h, i, j, t) && GoesOn(h, j, k, t)
    requires !outcome.CreateFailedSafe?
    ensures var p := h.states[i].threads[t].intent.id;
            var before, after := h.states[j].db, h.states[k + 1].db;
            && p in before.cases && p in after.cases && |before.cases[p].attempts| == |after.cases[p].attempts| > 0
            && KeepsAnswer(Last(before, p), outcome, Last(after, p))
            && ShowsAnswer(before.cases[p].intent, outcome, Last(after, p).id, after.cases[p].intent)
            && OnlyRecordChanges(h.states[k].db, after, p, after.cases[p].intent)
            && t in h.states[k + 1].threads && Returns(h.states[k + 1].threads[t], after.cases[p].intent, None)
  {
    hide Step, CaseOk, Inv;
    var l := h.states[i].threads[t];
    AnswerWrites(cfg, h, i, j, t, outcome);
    RestsStill(cfg, h, j + 1, k, t);
    RecordIsSaved(cfg, h, k, t, h.states[k].threads[t].stage.verdict);
  }

  // ---------- The connector's verdict on an unknown attempt ----------

  predicate KeepsVerdict(a: Attempt, answer: ReconcileOutcome, a': Attempt) {
    match answer
    case NotCreated(code) => a' == a.(status := FailedSafe, reconciliation := "not_created", failureCode := code)
    case ChargeExists(id, pix) =>
      a' == a.(status := Succeeded, reconciliation := "created", providerPaymentId := id, pix := pix, failureCode := "")
    case Terminal(code) => a' == a.(status := FailedTerminal, reconciliation := "terminal", failureCode := code)
    case StillUnknown => a' == a.(reconciliation := "still_unknown")
  }

  // At action i the question of thread t is answered.
  predicate VerifiedAt(h: History, i: nat, t: nat, answer: ReconcileOutcome) {
    Makes(h, i, t, Verified(answer)) && h.states[i].threads[t].Working? && h.states[i].threads[t].stage.Query?
  }

  // A ReconcilePayment on its own gets as far as looking for the connection of the last attempt.
  ghost predicate Accepts(cfg: Config, db: Db, p: string, env: Environment)
    requires p in db.cases && |db.cases[p].attempts| > 0
  {
    Drive(cfg, db, ReconcileStart(p, env), [Go] + [Found(p, |db.cases[p].attempts| - 1)])
    == (db, Working(ByReconcile(env), db.cases[p].intent, Locate(Last(db, p))))
  }

  lemma VerdictLeads(cfg: Config, h: History, i: nat, j: nat, t: nat, answer: ReconcileOutcome)
    requires IsRun(cfg, h) && VerifiedAt(h, i, t, answer) && GoesOn(h, i, j, t)
    ensures var l := h.states[i].threads[t];
            var p, a := l.intent.id, l.stage.attempt;
            && t in h.states[j].threads && h.states[j].threads[t] == Working(l.origin, l.intent, Settle(a, answer))
            && p in h.states[j].db.cases && |h.states[j].db.cases[p].attempts| > 0
            && h.states[j].db.cases[p].intent == l.intent && l.intent.status == Reconciling
            && Last(h.states[j].db, p) == a && a.status == Unknown && a.id == l.intent.active && a.intentId == p
            && CaseOk(cfg.maxAttempts, p, h.states[j].db.cases[p], h.states[j].world, h.states[j].db.providers)
  {
    hide Step, WorkStep, LedgerOk, Inv, Known;
    var l := h.states[i].threads[t];
    StepTo(cfg, h, i, t, Verified(answer));
    PaymentTrace.QueryStepIs(cfg, h.states[i].db, l.origin, l.intent, l.stage.attempt, answer);
    RestsStill(cfg, h, i + 1, j, t);
    Standing(cfg, h, j, t);
    LastBelongs(cfg.maxAttempts, l.intent.id, h.states[j].db.cases[l.intent.id], h.states[j].world, h.states[j].db.providers);
  }

  lemma VerdictWrites(cfg: Config, h: History, i: nat, j: nat, t: nat, answer: ReconcileOutcome)
    requires IsRun(cfg, h) && VerifiedAt(h, i, t, answer) && GoesOn(h, i, j, t)
    ensures var l, db, db' := h.states[i].threads[t], h.states[j].db, h.states[j + 1].db;
            var p, a := l.intent.id, l.stage.attempt;
            && p in db.cases && |db.cases[p].attempts| > 0 && Last(db, p) == a && db.cases[p].intent == l.intent
            && l.intent.status == Reconciling && a.status == Unknown && a.id == l.intent.active
            && OnlyLastChanges(db, db', p) && Last(db', p) == Reconciled(a, answer)
            && t in h.states[j + 1].threads && h.states[j + 1].threads[t] == AfterReconcile(l.origin, l.intent, a, answer)
  {
    hide Step, CaseOk, OnlyLastChanges, Inv, AfterReconcile;
    var l := h.states[i].threads[t];
    var db, db' := h.states[j].db, h.states[j + 1].db;
    VerdictLeads(cfg, h, i, j, t, answer);
    StepTo(cfg, h, j, t, Go);
    PaymentTrace.SettleStepIs(cfg, db, l.origin, l.intent, l.stage.attempt, answer);
    SavedOnly(cfg.maxAttempts, l.intent.id, db, h.states[j].world, Reconciled(l.stage.attempt, answer));
  }

  // The attempt keeps the verdict, and nothing else changes; when it is still unknown, the
  // payment's record stays as it is, the call returns it, and the next ReconcilePayment is accepted.
  lemma VerdictIsStored(cfg: Config, h: History, i: nat, j: nat, t: nat, answer: ReconcileOutcome)
    requires IsRun(cfg, h) && VerifiedAt(h, i, t, answer) && GoesOn(h, i, j, t)
    ensures var p, db, db' := h.states[i].threads[t].intent.id, h.states[j].db, h.states[j + 1].db;
            && OnlyLastChanges(db, db', p) && Last(db, p).status == Unknown && KeepsVerdict(Last(db, p), answer, Last(db', p))
            && p in h.states[i].db.cases && db.cases[p].intent == h.states[i].db.cases[p].intent
            && db.cases[p].intent.status == Reconciling
            && (answer.StillUnknown? ==>
                  && t in h.states[j + 1].threads && Returns(h.states[j + 1].threads[t], db'.cases[p].intent, None)
                  && Last(db', p).status == Unknown
                  && forall env :: Accepts(cfg, db', p, env))
  {
    hide Step, CaseOk, Inv, Accepts, LedgerOk, StageOk;
    var p, db' := h.states[i].threads[t].intent.id, h.states[j + 1].db;
    Standing(cfg, h, i, t);
    VerdictWrites(cfg, h, i, j, t, answer);
    if answer.StillUnknown? {
      forall env ensures Accepts(cfg, db', p, env) { UnknownIsAccepted(cfg, db', p, env); }
    }
  }

  lemma UnknownIsAccepted(cfg: Config, db: Db, p: string, env: Environment)
    requires p in db.cases && |db.cases[p].attempts| > 0
    requires db.cases[p].intent.status == Reconciling && db.cases[p].intent.active == Last(db, p).id && Last(db, p).status == Unknown
    ensures Accepts(cfg, db, p, env)
  {
    hide Step;
    var intent, n := db.cases[p].intent, |db.cases[p].attempts| - 1;
    PaymentTrace.ReconcileStepIs(cfg, db, p, env);
    Begin(cfg, db, ReconcileStart(p, env), Go, (db, Working(ByReconcile(env), intent, FindActive)));
    PaymentTrace.FoundStepIs(cfg, db, ByReconcile(env), intent, p, n);
    Extend(cfg, db, ReconcileStart(p, env), [Go], (db, Working(ByReconcile(env), intent, FindActive)), Found(p, n),
           (db, Working(ByReconcile(env), intent, Locate(Last(db, p)))));
  }

  predicate ShowsVerdict(intent: Intent, answer: ReconcileOutcome, attemptId: string, intent': Intent) {
    match answer
    case NotCreated(_) => intent' == intent.(status := Routing, failureCode := "")
    case ChargeExists(_, pix) =>
      intent' == intent.(status := AwaitingPayment, presented := attemptId, pix := pix, failureCode := "")
    case Terminal(code) => intent' == intent.(status := Failed, failureCode := code)
    case StillUnknown => intent' == intent
  }

  // Attempt and payment after a verdict that settles the attempt, in any run: a charge that
  // exists is presented, a terminal answer fails the payment, and without a charge it is
  // routed again.
  lemma VerdictIsConcluded(cfg: Config, h: History, i: nat, j: nat, k: nat, t: nat, answer: ReconcileOutcome)
    requires IsRun(cfg, h) && VerifiedAt(h, i, t, answer) && GoesOn(h, i, j, t) && GoesOn(h, j, k, t)
    requires !answer.StillUnknown?
    ensures var p := h.states[i].threads[t].intent.id;
            var before, after := h.states[j].db, h.states[k + 1].db;
            && p in before.cases && p in after.cases && |before.cases[p].attempts| == |after.cases[p].attempts| > 0
            && KeepsVerdict(Last(before, p), answer, Last(after, p))
            && ShowsVerdict(before.cases[p].intent, answer, Last(after, p).id, after.cases[p].intent)
            && OnlyRecordChanges(h.states[k].db, after, p, after.cases[p].intent)
            && t in h.states[k + 1].threads
            && (if answer.NotCreated? then Works(h.states[k + 1].threads[t], p, ReadConnections)
                else Returns(h.states[k + 1].threads[t], after.cases[p].intent, None))
  {
    hide Step, CaseOk, Inv;
    var l := h.states[i].threads[t];
    VerdictWrites(cfg, h, i, j, t, answer);
    RestsStill(cfg, h, j + 1, k, t);
    if answer.NotCreated? {
      RoutingIsSaved(cfg, h, k, t);
    } else {
      RecordIsSaved(cfg, h, k, t, h.states[k].threads[t].stage.verdict);
    }
  }

  // The thread saves at action k that it routes again.
  lemma RoutingIsSaved(cfg: Config, h: History, k: nat, t: nat)
    requires IsRun(cfg, h) && Makes(h, k, t, Go) && h.states[k].threads[t].Working? && h.states[k].threads[t].stage.Reopen?
    ensures var l := h.states[k].threads[t];
            var intent := l.intent.(status := Routing, failureCode := "");
            && l.intent.id in h.states[k].db.cases && h.states[k].db.cases[l.intent.id].intent == l.intent
            && OnlyRecordChanges(h.states[k].db, h.states[k + 1].db, l.intent.id, intent)
            && t in h.states[k + 1].threads && h.states[k + 1].threads[t] == Working(l.origin, intent, ReadConnections)
  {
    hide Step, CaseOk, StageOk;
    var l := h.states[k].threads[t];
    Standing(cfg, h, k, t);
    StepTo(cfg, h, k, t, Go);
    PaymentTrace.ReopenStepIs(cfg, h.states[k].db, l.origin, l.intent);
  }
}
