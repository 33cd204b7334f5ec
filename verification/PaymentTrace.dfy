// What one call does, step by step: the choices that a call makes when it follows the
// code, and the result of each step of its thread.
module PaymentTrace {
  import opened Domain
  import opened Router
  import opened PaymentDb
  import opened PaymentMachine

  // ---------- Calls that follow the code ----------

  // What the outside answers when it is asked: identifiers, the time, the telemetry's
  // health map, whether an adapter is there, and what a connector says.
  datatype Answers = Answers(
    id: string,
    id2: string,
    id3: string,
    now: Time,
    health: Health,
    resolved: bool,
    outcome: CreateOutcome,
    verdict: ReconcileOutcome)

  function FreshFrom(a: Answers): Choice {
    Fresh(a.id, a.id2, a.id3, a.now)
  }

  predicate Asks(c: Choice) {
    c.Fresh? || c.Snapshot? || c.Resolve? || c.Answer? || c.Verified?
  }

  // The choice repeats what the outside has answered.
  predicate Says(c: Choice, a: Answers) {
    match c
    case Fresh(_, _, _, _) => c == FreshFrom(a)
    case Snapshot(health) => health == a.health
    case Resolve(resolved, _) => resolved == a.resolved
    case Answer(outcome) => outcome == a.outcome
    case Verified(verdict) => verdict == a.verdict
    case _ => true
  }

  // The choice is the one that the code makes where the thread stands: it never gives up,
  // and a lookup finds what is there or finds that nothing is.
  ghost predicate Fitting(db: Db, l: Local, c: Choice) {
    match l
    case CreateStart(_) => c.Fresh?
    case ReconcileStart(_, _) => c.Go?
    case Working(_, intent, stage) =>
      (match stage
       case ReadConnections => c.Snapshot?
       case Loop(_) => c.Fresh?
       case Prepare(_, _) => c.Resolve? && c.saved
       case Await(_, _) => c.Answer?
       case FindActive => FindsAttempt(db, intent.active, c)
       case Locate(_) => c.Resolve?
       case Query(_) => c.Verified?
       case _ => c.Go?)
    case Hook(notice, stage) =>
      (match stage
       case FindCharge => FindsCharge(db, notice, c)
       case ReadIntent(_, _) => c.Go?
       case ReadPresented(intent) => FindsAttempt(db, intent.presented, c)
       case Commit(_, _, _) => c.Go?
       case _ => c.Fresh?)
    case _ => false
  }

  predicate FindsAttempt(db: Db, id: string, c: Choice) {
    if c.Found? then AttemptAt(db, id, c.payment, c.index) else c.Missing? && !AttemptExists(db, id)
  }

  ghost predicate FindsCharge(db: Db, notice: Notice, c: Choice) {
    if c.Found? then ChargedAt(db, notice.connectionId, notice.paymentId, c.payment, c.index)
    else c.Missing? && forall p, i :: !ChargedAt(db, notice.connectionId, notice.paymentId, p, i)
  }

  // A call that follows the code goes from (db, l), with the outside about to give its
  // answer number `from`, to (db', l'), with answer number `to` to come.
  ghost predicate Follows(cfg: Config, answers: nat -> Answers, from: nat, db: Db, l: Local, trace: seq<Choice>,
      db': Db, l': Local, to: nat)
    decreases |trace|
  {
    if trace == [] then db' == db && l' == l && to == from
    else
      var before, c := trace[..|trace| - 1], trace[|trace| - 1];
      var (db1, l1) := Drive(cfg, db, l, before);
      var n := if Asks(c) then to - 1 else to;
      && n >= 0 && Follows(cfg, answers, from, db, l, before, db1, l1, n)
      && Fitting(db1, l1, c) && Says(c, answers(n))
      && Step(cfg, db1, l1, c) == (db', l')
  }

  lemma {:induction false} FollowsDrive(cfg: Config, answers: nat -> Answers, from: nat, db: Db, l: Local, trace: seq<Choice>,
      db': Db, l': Local, to: nat)
    requires Follows(cfg, answers, from, db, l, trace, db', l', to)
    ensures Drive(cfg, db, l, trace) == (db', l')
  {
    hide Step, Fitting, Says;
  }

  lemma NoStep(cfg: Config, answers: nat -> Answers, from: nat, db: Db, l: Local)
    ensures Follows(cfg, answers, from, db, l, [], db, l, from)
  {
  }

  // One more step.
  lemma Onward(cfg: Config, answers: nat -> Answers, from: nat, db: Db, l: Local, trace: seq<Choice>,
      db1: Db, l1: Local, n: nat, c: Choice, db2: Db, l2: Local)
    requires Follows(cfg, answers, from, db, l, trace, db1, l1, n)
    requires Fitting(db1, l1, c) && Says(c, answers(n)) && Step(cfg, db1, l1, c) == (db2, l2)
    ensures Follows(cfg, answers, from, db, l, trace + [c], db2, l2, if Asks(c) then n + 1 else n)
  {
    hide Step, Fitting, Says;
    FollowsDrive(cfg, answers, from, db, l, trace, db1, l1, n);
    assert (trace + [c])[..|trace|] == trace;
  }

  // One call after another.
  lemma {:induction false} FollowsAppend(cfg: Config, answers: nat -> Answers, from: nat, db: Db, l: Local, first: seq<Choice>,
      db1: Db, l1: Local, n: nat, second: seq<Choice>, db2: Db, l2: Local, to: nat)
    requires Follows(cfg, answers, from, db, l, first, db1, l1, n)
    requires Follows(cfg, answers, n, db1, l1, second, db2, l2, to)
    ensures Follows(cfg, answers, from, db, l, first + second, db2, l2, to)
    decreases |second|
  {
    hide Step, Fitting, Says;
    if second == [] {
      assert first + second == first;
    } else {
      var k := |second| - 1;
      var c := second[k];
      var (db', l') := Drive(cfg, db1, l1, second[..k]);
      var m := if Asks(c) then to - 1 else to;
      FollowsAppend(cfg, answers, from, db, l, first, db1, l1, n, second[..k], db', l', m);
      Onward(cfg, answers, from, db, l, first + second[..k], db', l', m, c, db2, l2);
      assert first + second[..k] + [c] == first + second;
    }
  }

  // How often the outside is asked.
  function Questions(trace: seq<Choice>): nat
    decreases |trace|
  {
    if trace == [] then 0
    else Questions(trace[..|trace| - 1]) + if Asks(trace[|trace| - 1]) then 1 else 0
  }

  // The call takes the answers of the outside one after another, and goes by them: what it
  // was told about health, adapters, charges and verdicts is what its thread works with.
  lemma {:induction false} AnswersAreTaken(cfg: Config, answers: nat -> Answers, from: nat, db: Db, l: Local, trace: seq<Choice>,
      db': Db, l': Local, to: nat, k: nat)
    requires Follows(cfg, answers, from, db, l, trace, db', l', to)
    ensures to == from + Questions(trace)
    ensures k < |trace| ==>
              var w, c, a := Drive(cfg, db, l, trace[..k]).1, trace[k], answers(from + Questions(trace[..k]));
              && c != Halt && c != Reread
              && (c.Fresh? ==> c == Fresh(a.id, a.id2, a.id3, a.now))
              && (w.Working? ==>
                    && (w.stage.ReadConnections? ==> c == Snapshot(a.health))
                    && (w.stage.Prepare? ==> c == Resolve(a.resolved, true))
                    && (w.stage.Await? ==> c == Answer(a.outcome))
                    && (w.stage.Locate? ==> c.Resolve? && c.resolved == a.resolved)
                    && (w.stage.Query? ==> c == Verified(a.verdict)))
    decreases |trace|
  {
    hide Step;
    if trace != [] {
      var n := |trace| - 1;
      var (db1, l1) := Drive(cfg, db, l, trace[..n]);
      AnswersAreTaken(cfg, answers, from, db, l, trace[..n], db1, l1, if Asks(trace[n]) then to - 1 else to, k);
      if k < n { assert trace[..n][..k] == trace[..k]; }
    }
  }

  // ---------- A call is determined ----------

  predicate Ended(l: Local) {
    l.Done? || l.HookDone? || l.Stopped?
  }

  // Whatever row a lookup finds here, what follows is the same.
  ghost predicate Decided(cfg: Config, db: Db, l: Local) {
    forall c, c' :: Fitting(db, l, c) && Fitting(db, l, c') && !Asks(c) ==> Step(cfg, db, l, c) == Step(cfg, db, l, c')
  }

  lemma OneWay(cfg: Config, db: Db, l: Local, c: Choice, c': Choice, a: Answers)
    requires Fitting(db, l, c) && Fitting(db, l, c') && Says(c, a) && Says(c', a) && Decided(cfg, db, l)
    ensures Step(cfg, db, l, c) == Step(cfg, db, l, c')
  {
    hide Decided, Step;
    assert Asks(c) == Asks(c') && (c == c' || !Asks(c) || (l.Working? && l.stage.Locate?));
    if l.Working? && l.stage.Locate? {
      LocateIgnoresSaved(cfg, db, l, c, c');
    } else if !Asks(c) {
      DecidedSame(cfg, db, l, c, c');
    }
  }

  lemma LocateIgnoresSaved(cfg: Config, db: Db, l: Local, c: Choice, c': Choice)
    requires l.Working? && l.stage.Locate? && c.Resolve? && c'.Resolve? && c.resolved == c'.resolved
    ensures Step(cfg, db, l, c) == Step(cfg, db, l, c')
  {
  }

  lemma DecidedSame(cfg: Config, db: Db, l: Local, c: Choice, c': Choice)
    requires Decided(cfg, db, l) && Fitting(db, l, c) && Fitting(db, l, c') && !Asks(c)
    ensures Step(cfg, db, l, c) == Step(cfg, db, l, c')
  {
    hide Step, Fitting;
  }

  lemma {:induction false} Prefix(cfg: Config, answers: nat -> Answers, from: nat, db: Db, l: Local, trace: seq<Choice>,
      db': Db, l': Local, to: nat, k: nat) returns (n: nat)
    requires Follows(cfg, answers, from, db, l, trace, db', l', to) && k <= |trace|
    ensures var (db1, l1) := Drive(cfg, db, l, trace[..k]); Follows(cfg, answers, from, db, l, trace[..k], db1, l1, n)
    decreases |trace|
  {
    hide Step, Fitting, Says;
    if k == |trace| {
      assert trace[..k] == trace;
      FollowsDrive(cfg, answers, from, db, l, trace, db', l', to);
      n := to;
    } else {
      var before := trace[..|trace| - 1];
      var (db1, l1) := Drive(cfg, db, l, before);
      n := Prefix(cfg, answers, from, db, l, before, db1, l1, if Asks(trace[|trace| - 1]) then to - 1 else to, k);
      assert before[..k] == trace[..k];
    }
  }

  // Two traces that follow the code are the same as far as both go.
  lemma {:induction false} SameSoFar(cfg: Config, answers: nat -> Answers, from: nat, db: Db, l: Local,
      first: seq<Choice>, db1: Db, l1: Local, n1: nat, second: seq<Choice>, db2: Db, l2: Local, n2: nat)
    requires Follows(cfg, answers, from, db, l, first, db1, l1, n1)
    requires Follows(cfg, answers, from, db, l, second, db2, l2, n2)
    requires |first| == |second|
    requires forall k :: 0 <= k < |first| ==> var (db', l') := Drive(cfg, db, l, first[..k]); Decided(cfg, db', l')
    ensures db1 == db2 && l1 == l2 && n1 == n2
    decreases |first|
  {
    hide Step, Fitting, Says, Decided;
    if first != [] {
      var k := |first| - 1;
      var (db', l') := Drive(cfg, db, l, first[..k]);
      var (db'', l'') := Drive(cfg, db, l, second[..k]);
      assert forall j :: 0 <= j < k ==> first[..k][..j] == first[..j];
      SameSoFar(cfg, answers, from, db, l, first[..k], db', l', if Asks(first[k]) then n1 - 1 else n1,
                second[..k], db'', l'', if Asks(second[k]) then n2 - 1 else n2);
      OneWay(cfg, db', l', first[k], second[k], answers(if Asks(first[k]) then n1 - 1 else n1));
      SameAsks(db', l', first[k], second[k]);
    }
  }

  lemma SameAsks(db: Db, l: Local, c: Choice, c': Choice)
    requires Fitting(db, l, c) && Fitting(db, l, c')
    ensures Asks(c) == Asks(c') && !Ended(l)
  {
  }

  // A call that follows the code to its end is determined by the store and the answers of
  // the outside, up to which of several matching rows a lookup finds.
  lemma CallIsDetermined(cfg: Config, answers: nat -> Answers, from: nat, db: Db, l: Local,
      first: seq<Choice>, db1: Db, l1: Local, n1: nat, second: seq<Choice>, db2: Db, l2: Local, n2: nat)
    requires Follows(cfg, answers, from, db, l, first, db1, l1, n1) && Ended(l1)
    requires Follows(cfg, answers, from, db, l, second, db2, l2, n2) && Ended(l2)
    requires forall k :: 0 <= k < |first| ==> var (db', l') := Drive(cfg, db, l, first[..k]); Decided(cfg, db', l')
    ensures db1 == db2 && l1 == l2 && n1 == n2
  {
    hide Step, Fitting, Says, Decided;
    FollowsDrive(cfg, answers, from, db, l, first, db1, l1, n1);
    FollowsDrive(cfg, answers, from, db, l, second, db2, l2, n2);
    assert first[..|first|] == first && second[..|second|] == second;
    if |first| == |second| {
      SameSoFar(cfg, answers, from, db, l, first, db1, l1, n1, second, db2, l2, n2);
    } else {
      var k := if |first| < |second| then |first| else |second|;
      var m1 := Prefix(cfg, answers, from, db, l, first, db1, l1, n1, k);
      var m2 := Prefix(cfg, answers, from, db, l, second, db2, l2, n2, k);
      var (dba, la) := Drive(cfg, db, l, first[..k]);
      var (dbb, lb) := Drive(cfg, db, l, second[..k]);
      assert forall j :: 0 <= j < k ==> first[..k][..j] == first[..j];
      SameSoFar(cfg, answers, from, db, l, first[..k], dba, la, m1, second[..k], dbb, lb, m2);
      if |first| > k { GoesOn(cfg, answers, from, db, l, first, db1, l1, n1, k); }
      if |second| > k { GoesOn(cfg, answers, from, db, l, second, db2, l2, n2, k); }
      assert false;
    }
  }

  // A call that goes on has not ended.
  lemma GoesOn(cfg: Config, answers: nat -> Answers, from: nat, db: Db, l: Local, trace: seq<Choice>,
      db': Db, l': Local, to: nat, k: nat)
    requires Follows(cfg, answers, from, db, l, trace, db', l', to) && k < |trace|
    ensures !Ended(Drive(cfg, db, l, trace[..k]).1)
  {
    hide Step, Fitting, Says;
    var n := Prefix(cfg, answers, from, db, l, trace, db', l', to, k + 1);
    assert trace[..k + 1][..k] == trace[..k];
    var (db1, l1) := Drive(cfg, db, l, trace[..k]);
    SameAsks(db1, l1, trace[k], trace[k]);
  }

  // ---------- The steps of a thread ----------

  lemma CreateStepIs(cfg: Config, db: Db, req: Request, c: Choice)
    requires c.Fresh?
    ensures Step(cfg, db, CreateStart(req), c) == CreateStep(db, req, c.id)
  {
  }

  lemma AdmitStepIs(cfg: Config, db: Db, o: Origin, intent: Intent)
    requires intent.id in db.cases
    ensures Step(cfg, db, Working(o, intent, Admit), Go)
         == (PaymentDb.SavePayment(db, Admitted(intent)).value, Working(o, Admitted(intent), ReadConnections))
  {
  }

  lemma ConnectionsStepIs(cfg: Config, db: Db, o: Origin, intent: Intent, health: Health)
    ensures Step(cfg, db, Working(o, intent, ReadConnections), Snapshot(health))
         == (db, Working(o, intent, ReadAttempts(Connections(db, intent.workspace), health)))
  {
  }

  lemma AttemptsStepIs(cfg: Config, db: Db, o: Origin, intent: Intent, connections: seq<Connection>, health: Health)
    ensures var attempts := AttemptsOf(db, intent.id);
            Step(cfg, db, Working(o, intent, ReadAttempts(connections, health)), Go)
            == (db, Working(o, intent, Loop(Plan(connections, health, attempts, ConnectionIds(attempts)))))
  {
  }

  lemma SelectStepIs(cfg: Config, db: Db, o: Origin, intent: Intent, plan: Plan, c: Choice)
    requires c.Fresh?
    ensures Step(cfg, db, Working(o, intent, Loop(plan)), c) == SelectStep(cfg, db, o, intent, plan, c.id, c.id2)
  {
  }

  lemma ExhaustedStepIs(cfg: Config, db: Db, o: Origin, intent: Intent, plan: Plan, c: Choice)
    requires |plan.attempts| >= cfg.maxAttempts && c.Fresh?
    ensures Step(cfg, db, Working(o, intent, Loop(plan)), c)
         == (db, Working(o, intent, Finish(GiveUp("fallback_budget_exhausted", None))))
  {
  }

  lemma ActivateStepIs(cfg: Config, db: Db, o: Origin, intent: Intent, plan: Plan, a: Attempt)
    requires intent.id in db.cases
    ensures var active := intent.(active := a.id);
            Step(cfg, db, Working(o, intent, Activate(plan, a)), Go)
            == (PaymentDb.SavePayment(db, active).value, Working(o, active, Prepare(plan, a)))
  {
  }

  lemma PrepareStepIs(cfg: Config, db: Db, o: Origin, intent: Intent, plan: Plan, a: Attempt, resolved: bool, saved: bool)
    ensures Step(cfg, db, Working(o, intent, Prepare(plan, a)), Resolve(resolved, saved))
         == WorkStep(cfg, db, o, intent, Prepare(plan, a), Resolve(resolved, saved))
         == PrepareStep(db, o, intent, plan, a, resolved, saved)
  {
  }

  lemma SendStepsAre(cfg: Config, db: Db, o: Origin, intent: Intent, plan: Plan, a: Attempt, outcome: CreateOutcome)
    ensures Step(cfg, db, Working(o, intent, Send(plan, a)), Go) == (db, Working(o, intent, Await(plan, a)))
    ensures Step(cfg, db, Working(o, intent, Await(plan, a)), Answer(outcome))
         == WorkStep(cfg, db, o, intent, Await(plan, a), Answer(outcome))
         == (db, Working(o, intent, Record(plan, a, outcome)))
  {
  }

  lemma RecordStepIs(cfg: Config, db: Db, o: Origin, intent: Intent, plan: Plan, a: Attempt, outcome: CreateOutcome)
    ensures Step(cfg, db, Working(o, intent, Record(plan, a, outcome)), Go)
         == WorkStep(cfg, db, o, intent, Record(plan, a, outcome), Go)
         == WithAttempt(db, Recorded(a, outcome), Working(o, intent, AfterCreate(plan, a, outcome)))
  {
  }

  lemma FinishStepIs(cfg: Config, db: Db, o: Origin, intent: Intent, v: Verdict)
    requires intent.id in db.cases
    ensures Step(cfg, db, Working(o, intent, Finish(v)), Go)
         == (PaymentDb.SavePayment(db, Concluded(intent, v)).value, Done(o, Concluded(intent, v), FailureOf(v)))
  {
  }

  lemma ReconcileStepIs(cfg: Config, db: Db, payment: string, env: Environment)
    ensures Step(cfg, db, ReconcileStart(payment, env), Go) == (db, ReconcileStep(db, payment, env))
  {
  }

  lemma MissingStepIs(cfg: Config, db: Db, o: Origin, intent: Intent)
    ensures Step(cfg, db, Working(o, intent, FindActive), Missing) == (db, Fail(NotFound))
  {
  }

  lemma FoundStepIs(cfg: Config, db: Db, o: Origin, intent: Intent, p: string, i: nat)
    requires AttemptAt(db, intent.active, p, i)
    ensures var a := db.cases[p].attempts[i];
            Step(cfg, db, Working(o, intent, FindActive), Found(p, i))
            == (db, if a.status != Unknown then Fail(InvalidTransition) else Working(o, intent, Locate(a)))
  {
  }

  lemma LocateStepIs(cfg: Config, db: Db, o: Origin, intent: Intent, a: Attempt, resolved: bool)
    ensures Step(cfg, db, Working(o, intent, Locate(a)), Resolve(resolved, true))
         == (db, if !HasConnection(Connections(db, intent.workspace), a.connectionId) then Fail(NotFound)
                 else if !resolved then Fail(Unresolved)
                 else Working(o, intent, Query(a)))
  {
  }

  lemma QueryStepIs(cfg: Config, db: Db, o: Origin, intent: Intent, a: Attempt, answer: ReconcileOutcome)
    ensures Step(cfg, db, Working(o, intent, Query(a)), Verified(answer)) == (db, Working(o, intent, Settle(a, answer)))
  {
  }

  lemma SettleStepIs(cfg: Config, db: Db, o: Origin, intent: Intent, a: Attempt, answer: ReconcileOutcome)
    ensures Step(cfg, db, Working(o, intent, Settle(a, answer)), Go)
         == WorkStep(cfg, db, o, intent, Settle(a, answer), Go)
         == WithAttempt(db, Reconciled(a, answer), AfterReconcile(o, intent, a, answer))
  {
  }

  lemma ReopenStepIs(cfg: Config, db: Db, o: Origin, intent: Intent)
    requires intent.id in db.cases
    ensures Step(cfg, db, Working(o, intent, Reopen), Go)
         == (PaymentDb.SavePayment(db, Reopened(intent)).value, Working(o, Reopened(intent), ReadConnections))
  {
  }

  lemma ReceiveStepIs(cfg: Config, db: Db, notice: Notice, c: Choice)
    requires c.Fresh?
    ensures Step(cfg, db, Hook(notice, Receive), c) == ReceiveStep(db, notice, c.id, c.now)
  {
  }

  lemma ChargeStepIs(cfg: Config, db: Db, notice: Notice, p: string, i: nat)
    requires ChargedAt(db, notice.connectionId, notice.paymentId, p, i)
    ensures var a := db.cases[p].attempts[i];
            Step(cfg, db, Hook(notice, FindCharge), Found(p, i)) == (db, Hook(notice, ReadIntent(a.intentId, a.id)))
  {
  }

  lemma NoChargeStepIs(cfg: Config, db: Db, notice: Notice)
    ensures Step(cfg, db, Hook(notice, FindCharge), Missing) == (db, Fail(NotFound))
  {
  }

  lemma IntentStepIs(cfg: Config, db: Db, notice: Notice, payment: string, attemptId: string)
    ensures Step(cfg, db, Hook(notice, ReadIntent(payment, attemptId)), Go) == (db, ReadIntentStep(db, notice, payment, attemptId))
  {
  }

  lemma PresentedStepIs(cfg: Config, db: Db, notice: Notice, intent: Intent, p: string, i: nat)
    requires AttemptAt(db, intent.presented, p, i)
    ensures var a := db.cases[p].attempts[i];
            Step(cfg, db, Hook(notice, ReadPresented(intent)), Found(p, i))
            == (db, if a.status != Succeeded then Fail(InvalidTransition) else Hook(notice, ReadHistory(intent, a)))
  {
  }

  lemma NotPresentedStepIs(cfg: Config, db: Db, notice: Notice, intent: Intent)
    ensures Step(cfg, db, Hook(notice, ReadPresented(intent)), Missing) == (db, Fail(NotFound))
  {
  }

  lemma HistoryStepIs(cfg: Config, db: Db, notice: Notice, intent: Intent, a: Attempt, c: Choice)
    requires c.Fresh?
    ensures var recovery := RecoveryFor(intent, AttemptsOf(db, intent.id), a, c.id, c.now);
            var intent' := PaidIntent(intent, recovery.Some?, c.now);
            Step(cfg, db, Hook(notice, ReadHistory(intent, a)), c)
            == (db, Hook(notice, Commit(intent', recovery, EventsFor(intent', c.id2, c.id3, c.now))))
  {
  }

  lemma CommitStepIs(cfg: Config, db: Db, notice: Notice, intent: Intent, recovery: Option<Recovery>,
      events: seq<MerchantEvent>)
    ensures Step(cfg, db, Hook(notice, Commit(intent, recovery, events)), Go)
         == HookStep(db, notice, Commit(intent, recovery, events), Go)
         == match MarkPaid(db, intent, recovery, events)
            case Ok(db') => (db', Hook(notice, Processed(intent)))
            case Err(e) => (db, Fail(e))
  {
  }

  lemma ProcessedStepIs(cfg: Config, db: Db, notice: Notice, intent: Intent, c: Choice)
    requires c.Fresh?
    ensures Step(cfg, db, Hook(notice, Processed(intent)), c)
         == match MarkProcessed(db, notice.connectionId, notice.externalId, c.now)
            case Ok(db') => (db', HookDone(intent))
            case Err(e) => (db, Fail(e))
  {
  }
}
