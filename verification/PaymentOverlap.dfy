// Why a ReconcilePayment must not read its payment while another one is between its own
// reading and its first save: nothing in the code prevents it, and two such calls can
// charge a payment twice.
module PaymentOverlap {
  import opened Domain
  import opened Router
  import opened PaymentDb
  import opened PaymentMachine
  import PaymentTrace

  // As in a run, but a reconciler may read its payment at any time.
  ghost predicate LooselyEnabled(s: Sys, a: Action) {
    match a
    case Run(t, c) => t in s.threads && Allowed(s.db, s.world, s.threads[t], c)
    case _ => Enabled(s, a)
  }

  function Play(cfg: Config, s: Sys, actions: seq<Action>): Sys
    decreases |actions|
  {
    if actions == [] then s else Apply(cfg, Play(cfg, s, actions[..|actions| - 1]), actions[|actions| - 1])
  }

  ghost predicate Playable(cfg: Config, s: Sys, actions: seq<Action>)
    decreases |actions|
  {
    || actions == []
    || (var before := actions[..|actions| - 1];
        Playable(cfg, s, before) && LooselyEnabled(Play(cfg, s, before), actions[|actions| - 1]))
  }

  // These actions lead from s to s'.
  ghost predicate Leads(cfg: Config, s: Sys, actions: seq<Action>, s': Sys) {
    Playable(cfg, s, actions) && Play(cfg, s, actions) == s'
  }

  lemma Onward(cfg: Config, s: Sys, actions: seq<Action>, s': Sys, a: Action, s'': Sys)
    requires Leads(cfg, s, actions, s') && LooselyEnabled(s', a) && Apply(cfg, s', a) == s''
    ensures Leads(cfg, s, actions + [a], s'')
  {
    hide Apply, LooselyEnabled;
    assert (actions + [a])[..|actions|] == actions;
  }

  lemma First(cfg: Config, s: Sys, a: Action, s': Sys)
    requires LooselyEnabled(s, a) && Apply(cfg, s, a) == s'
    ensures Leads(cfg, s, [a], s')
  {
    hide Apply, LooselyEnabled;
    assert Leads(cfg, s, [], s);
    Onward(cfg, s, [], s, a, s');
    assert [] + [a] == [a];
  }

  lemma {:induction false} Append(cfg: Config, s: Sys, first: seq<Action>, s': Sys, second: seq<Action>, s'': Sys)
    requires Leads(cfg, s, first, s') && Leads(cfg, s', second, s'')
    ensures Leads(cfg, s, first + second, s'')
    decreases |second|
  {
    hide Apply, LooselyEnabled;
    if second == [] {
      assert first + second == first;
    } else {
      var n := |second| - 1;
      var mid := Play(cfg, s', second[..n]);
      Append(cfg, s, first, s', second[..n], mid);
      Onward(cfg, s, first + second[..n], mid, second[n], s'');
      assert first + second[..n] + [second[n]] == first + second;
    }
  }

  function At(s: Sys, t: nat, db: Db, w: World, l: Local): Sys {
    Sys(db, w, s.threads[t := l])
  }

  // One step of a thread that is free to make it.
  lemma StepLeads(cfg: Config, s: Sys, t: nat, c: Choice, db: Db, w: World, l: Local)
    requires t in s.threads && Allowed(s.db, s.world, s.threads[t], c)
    requires Step(cfg, s.db, s.threads[t], c) == (db, l) && WorldAfter(cfg, s.db, s.world, s.threads[t], c) == w
    ensures Leads(cfg, s, [Run(t, c)], At(s, t, db, w, l))
  {
    hide Step, WorldAfter, Allowed;
    First(cfg, s, Run(t, c), At(s, t, db, w, l));
  }

  function WithCase(db: Db, p: string, c: Case): Db {
    db.(cases := db.cases[p := c])
  }

  // ---------- From the dispatch loop to a request in flight ----------

  function DispatchActions(t: nat, id: string): seq<Action> {
    [Run(t, Fresh(id, "", "", 0))] + [Run(t, Go)] + [Run(t, Resolve(true, true))] + [Run(t, Go)]
  }

  function NewDecision(cfg: Config, o: Origin, intent: Intent, plan: Plan, id: string, conn: Connection): Decision {
    Decision("", intent.id, id, conn.id, Selection(plan.connections, ContextOf(cfg, o, plan)).candidates)
  }

  function Sent(intent: Intent, plan: Plan, id: string, conn: Connection): Attempt {
    NewAttempt(id, intent, |plan.attempts| + 1, conn.id).(status := Requesting)
  }

  // Steps that overwrite each other.
  lemma Overwrites(s: Sys, t: nat, db: Db, w: World, l: Local, db': Db, w': World, l': Local)
    ensures At(At(s, t, db, w, l), t, db', w', l') == At(s, t, db', w', l')
  {
    assert s.threads[t := l][t := l'] == s.threads[t := l'];
  }

  lemma CaseOverwrites(db: Db, p: string, c: Case, c': Case)
    ensures WithCase(WithCase(db, p, c), p, c') == WithCase(db, p, c')
  {
    assert db.cases[p := c][p := c'] == db.cases[p := c'];
  }

  // A step that goes on from where the actions lead.
  lemma Then(cfg: Config, s: Sys, actions: seq<Action>, t: nat, db: Db, w: World, l: Local, c: Choice, db': Db,
      w': World, l': Local)
    requires Leads(cfg, s, actions, At(s, t, db, w, l))
    requires Allowed(db, w, l, c) && Step(cfg, db, l, c) == (db', l') && WorldAfter(cfg, db, w, l, c) == w'
    ensures Leads(cfg, s, actions + [Run(t, c)], At(s, t, db', w', l'))
  {
    hide Step, WorldAfter, Allowed, Leads;
    Overwrites(s, t, db, w, l, db', w', l');
    var at := At(s, t, db, w, l);
    assert Apply(cfg, at, Run(t, c)) == At(at, t, db', w', l');
    Onward(cfg, s, actions, at, Run(t, c), At(s, t, db', w', l'));
  }

  lemma SelectLeads(cfg: Config, db: Db, w: World, o: Origin, intent: Intent, plan: Plan, id: string,
      conn: Connection, c: Case)
    requires intent.id in db.cases && db.cases[intent.id] == c && |plan.attempts| < cfg.maxAttempts
    requires Selection(plan.connections, ContextOf(cfg, o, plan)).selected == Some(conn) && !AttemptExists(db, id)
    ensures var a := NewAttempt(id, intent, |plan.attempts| + 1, conn.id);
            var c1 := c.(attempts := c.attempts + [a], decisions := c.decisions + [NewDecision(cfg, o, intent, plan, id, conn)]);
            var l, choice := Working(o, intent, Loop(plan)), Fresh(id, "", "", 0);
            && Step(cfg, db, l, choice) == (WithCase(db, intent.id, c1), Working(o, intent, Activate(plan, a)))
            && WorldAfter(cfg, db, w, l, choice) == w.(home := w.home[id := (intent.id, |plan.attempts|)])
  {
    hide Selection;
    PaymentTrace.SelectStepIs(cfg, db, o, intent, plan, Fresh(id, "", "", 0));
  }

  lemma Dispatches(cfg: Config, s: Sys, t: nat, o: Origin, intent: Intent, plan: Plan, id: string, conn: Connection,
      c: Case)
    requires t in s.threads && s.threads[t] == Working(o, intent, Loop(plan))
    requires intent.id in s.db.cases && s.db.cases[intent.id] == c && |plan.attempts| < cfg.maxAttempts
    requires Selection(plan.connections, ContextOf(cfg, o, plan)).selected == Some(conn)
    requires id != "" && !AttemptExists(s.db, id) && forall i :: 0 <= i < |c.attempts| ==> c.attempts[i].id != id
    ensures var active, sent := intent.(active := id), Sent(intent, plan, id, conn);
            var c' := Case(active, c.attempts + [sent], c.decisions + [NewDecision(cfg, o, intent, plan, id, conn)], c.recoveries);
            Leads(cfg, s, DispatchActions(t, id),
                  At(s, t, WithCase(s.db, intent.id, c'),
                     s.world.(home := s.world.home[id := (intent.id, |plan.attempts|)], requested := s.world.requested + {id}),
                     Working(o, active, Await(plan, sent))))
  {
    hide Leads, At, Step, WorkStep, Selection, NewDecision, ContextOf;
    var p := intent.id;
    var a := NewAttempt(id, intent, |plan.attempts| + 1, conn.id);
    var active, sent := intent.(active := id), Sent(intent, plan, id, conn);
    var c1 := c.(attempts := c.attempts + [a], decisions := c.decisions + [NewDecision(cfg, o, intent, plan, id, conn)]);
    var c2 := c1.(intent := active);
    var c3 := c2.(attempts := c.attempts + [sent]);
    var db1, db2, db3 := WithCase(s.db, p, c1), WithCase(s.db, p, c2), WithCase(s.db, p, c3);
    var w1 := s.world.(home := s.world.home[id := (p, |plan.attempts|)]);
    var w4 := w1.(requested := w1.requested + {id});
    CaseOverwrites(s.db, p, c1, c2);
    CaseOverwrites(s.db, p, c2, c3);
    SelectLeads(cfg, s.db, s.world, o, intent, plan, id, conn, c);
    StepLeads(cfg, s, t, Fresh(id, "", "", 0), db1, w1, Working(o, intent, Activate(plan, a)));
    PaymentTrace.ActivateStepIs(cfg, db1, o, intent, plan, a);
    Then(cfg, s, [Run(t, Fresh(id, "", "", 0))], t, db1, w1, Working(o, intent, Activate(plan, a)), Go,
         db2, w1, Working(o, active, Prepare(plan, a)));
    PaymentTrace.PrepareStepIs(cfg, db2, o, active, plan, a, true, true);
    assert Replace(c2.attempts, sent) == c.attempts + [sent];
    assert c2.attempts[|c.attempts|].id == sent.id;
    Then(cfg, s, [Run(t, Fresh(id, "", "", 0))] + [Run(t, Go)], t, db2, w1, Working(o, active, Prepare(plan, a)), Resolve(true, true),
         db3, w1, Working(o, active, Send(plan, sent)));
    PaymentTrace.SendStepsAre(cfg, db3, o, active, plan, sent, CreateUnknown("", ""));
    Then(cfg, s, [Run(t, Fresh(id, "", "", 0))] + [Run(t, Go)] + [Run(t, Resolve(true, true))], t,
         db3, w1, Working(o, active, Send(plan, sent)), Go, db3, w4, Working(o, active, Await(plan, sent)));
  }

  // ---------- From the list of connections to the dispatch loop ----------

  function PlanFor(db: Db, intent: Intent): Plan {
    Plan(Connections(db, intent.workspace), map[], AttemptsOf(db, intent.id), ConnectionIds(AttemptsOf(db, intent.id)))
  }

  function SurveyActions(t: nat): seq<Action> {
    [Run(t, Snapshot(map[]))] + [Run(t, Go)]
  }

  lemma Surveys(cfg: Config, s: Sys, t: nat, o: Origin, intent: Intent)
    requires t in s.threads && s.threads[t] == Working(o, intent, ReadConnections)
    ensures Leads(cfg, s, SurveyActions(t), At(s, t, s.db, s.world, Working(o, intent, Loop(PlanFor(s.db, intent)))))
  {
    hide Leads, At, Step, WorkStep;
    var connections := Connections(s.db, intent.workspace);
    var reading := Working(o, intent, ReadAttempts(connections, map[]));
    PaymentTrace.ConnectionsStepIs(cfg, s.db, o, intent, map[]);
    StepLeads(cfg, s, t, Snapshot(map[]), s.db, s.world, reading);
    PaymentTrace.AttemptsStepIs(cfg, s.db, o, intent, connections, map[]);
    Then(cfg, s, [Run(t, Snapshot(map[]))], t, s.db, s.world, reading, Go,
         s.db, s.world, Working(o, intent, Loop(PlanFor(s.db, intent))));
  }

  // ---------- From the list of connections to a request in flight ----------

  function RouteActions(t: nat, id: string): seq<Action> {
    SurveyActions(t) + DispatchActions(t, id)
  }

  lemma Routes(cfg: Config, s: Sys, t: nat, o: Origin, intent: Intent, id: string, conn: Connection, c: Case)
    requires t in s.threads && s.threads[t] == Working(o, intent, ReadConnections)
    requires intent.id in s.db.cases && s.db.cases[intent.id] == c && |c.attempts| < cfg.maxAttempts
    requires var plan := PlanFor(s.db, intent); Selection(plan.connections, ContextOf(cfg, o, plan)).selected == Some(conn)
    requires id != "" && !AttemptExists(s.db, id) && forall i :: 0 <= i < |c.attempts| ==> c.attempts[i].id != id
    ensures var plan := PlanFor(s.db, intent);
            var active, sent := intent.(active := id), Sent(intent, plan, id, conn);
            var c' := Case(active, c.attempts + [sent], c.decisions + [NewDecision(cfg, o, intent, plan, id, conn)], c.recoveries);
            Leads(cfg, s, RouteActions(t, id),
                  At(s, t, WithCase(s.db, intent.id, c'),
                     s.world.(home := s.world.home[id := (intent.id, |c.attempts|)], requested := s.world.requested + {id}),
                     Working(o, active, Await(plan, sent))))
  {
    hide Leads, Selection, NewDecision;
    var plan := PlanFor(s.db, intent);
    var s1 := At(s, t, s.db, s.world, Working(o, intent, Loop(plan)));
    Surveys(cfg, s, t, o, intent);
    Dispatches(cfg, s1, t, o, intent, plan, id, conn, c);
    var active, sent := intent.(active := id), Sent(intent, plan, id, conn);
    var c' := Case(active, c.attempts + [sent], c.decisions + [NewDecision(cfg, o, intent, plan, id, conn)], c.recoveries);
    var w' := s.world.(home := s.world.home[id := (intent.id, |c.attempts|)], requested := s.world.requested + {id});
    var l' := Working(o, active, Await(plan, sent));
    Overwrites(s, t, s.db, s.world, s1.threads[t], WithCase(s.db, intent.id, c'), w', l');
    Append(cfg, s, SurveyActions(t), s1, DispatchActions(t, id), At(s, t, WithCase(s.db, intent.id, c'), w', l'));
  }

  function UnknownActions(t: nat, code: string): seq<Action> {
    [Run(t, Answer(CreateUnknown("", code)))] + [Run(t, Go)] + [Run(t, Go)]
  }

  // The request times out, and the call holds the payment for reconciliation.
  lemma Unknowns(cfg: Config, s: Sys, t: nat, o: Origin, intent: Intent, plan: Plan, sent: Attempt,
      rest: seq<Attempt>, code: string, c: Case)
    requires t in s.threads && s.threads[t] == Working(o, intent, Await(plan, sent))
    requires intent.id in s.db.cases && s.db.cases[intent.id] == c && c.attempts == rest + [sent] && sent.intentId == intent.id
    requires forall i :: 0 <= i < |rest| ==> rest[i].id != sent.id
    ensures var held, a := Concluded(intent, Hold(code)), Recorded(sent, CreateUnknown("", code));
            Leads(cfg, s, UnknownActions(t, code),
                  At(s, t, WithCase(s.db, intent.id, c.(intent := held, attempts := rest + [a])), s.world, Done(o, held, None)))
  {
    hide Leads, At, Step, WorkStep;
    var outcome := CreateUnknown("", code);
    var held, a := Concluded(intent, Hold(code)), Recorded(sent, outcome);
    var c1, c2 := c.(attempts := rest + [a]), c.(intent := held, attempts := rest + [a]);
    var db1, db2 := WithCase(s.db, intent.id, c1), WithCase(s.db, intent.id, c2);
    CaseOverwrites(s.db, intent.id, c1, c2);
    PaymentTrace.SendStepsAre(cfg, s.db, o, intent, plan, sent, outcome);
    StepLeads(cfg, s, t, Answer(outcome), s.db, s.world, Working(o, intent, Record(plan, sent, outcome)));
    PaymentTrace.RecordStepIs(cfg, s.db, o, intent, plan, sent, outcome);
    assert Replace(c.attempts, a) == rest + [a];
    assert c.attempts[|rest|].id == a.id;
    Then(cfg, s, [Run(t, Answer(outcome))], t, s.db, s.world, Working(o, intent, Record(plan, sent, outcome)), Go,
         db1, s.world, Working(o, intent, Finish(Hold(code))));
    PaymentTrace.FinishStepIs(cfg, db1, o, intent, Hold(code));
    Then(cfg, s, [Run(t, Answer(outcome))] + [Run(t, Go)], t, db1, s.world, Working(o, intent, Finish(Hold(code))), Go,
         db2, s.world, Done(o, held, None));
  }

  // ---------- A reconciler that is told there is no charge ----------

  function QuestionActions(t: nat, p: string): seq<Action> {
    [Run(t, Go)] + [Run(t, Found(p, 0))] + [Run(t, Resolve(true, true))] + [Run(t, Verified(NotCreated("")))]
  }

  lemma Questions(cfg: Config, s: Sys, t: nat, p: string, env: Environment, intent: Intent, a: Attempt)
    requires t in s.threads && s.threads[t] == ReconcileStart(p, env)
    requires p in s.db.cases && s.db.cases[p].intent == intent
    requires intent.status == Reconciling && intent.fingerprint.environment == env
    requires s.db.cases[p].attempts == [a] && a.id == intent.active && a.status == Unknown && a.id !in s.world.live
    requires HasConnection(Connections(s.db, intent.workspace), a.connectionId)
    ensures Leads(cfg, s, QuestionActions(t, p),
                  At(s, t, s.db, s.world.(disproved := s.world.disproved + {a.id}),
                     Working(ByReconcile(env), intent, Settle(a, NotCreated("")))))
  {
    hide Leads, At, Step, WorkStep, HasConnection;
    var o, w := ByReconcile(env), s.world;
    var w' := w.(disproved := w.disproved + {a.id});
    PaymentTrace.ReconcileStepIs(cfg, s.db, p, env);
    StepLeads(cfg, s, t, Go, s.db, w, Working(o, intent, FindActive));
    PaymentTrace.FoundStepIs(cfg, s.db, o, intent, p, 0);
    Then(cfg, s, [Run(t, Go)], t, s.db, w, Working(o, intent, FindActive), Found(p, 0), s.db, w, Working(o, intent, Locate(a)));
    PaymentTrace.LocateStepIs(cfg, s.db, o, intent, a, true);
    Then(cfg, s, [Run(t, Go)] + [Run(t, Found(p, 0))], t, s.db, w, Working(o, intent, Locate(a)), Resolve(true, true),
         s.db, w, Working(o, intent, Query(a)));
    PaymentTrace.QueryStepIs(cfg, s.db, o, intent, a, NotCreated(""));
    Then(cfg, s, [Run(t, Go)] + [Run(t, Found(p, 0))] + [Run(t, Resolve(true, true))], t, s.db, w, Working(o, intent, Query(a)),
         Verified(NotCreated("")), s.db, w', Working(o, intent, Settle(a, NotCreated(""))));
  }

  function ResumeActions(t: nat): seq<Action> {
    [Run(t, Go)] + [Run(t, Go)]
  }

  function Safely(a: Attempt): Attempt {
    Reconciled(a, NotCreated(""))
  }

  lemma Resumes(cfg: Config, s: Sys, t: nat, o: Origin, intent: Intent, a: Attempt, c: Case)
    requires t in s.threads && s.threads[t] == Working(o, intent, Settle(a, NotCreated("")))
    requires intent.id in s.db.cases && s.db.cases[intent.id] == c && a.intentId == intent.id
    requires c.attempts != [] && c.attempts[0].id == a.id
    ensures var c' := Case(Reopened(intent), Replace(c.attempts, Safely(a)), c.decisions, c.recoveries);
            Leads(cfg, s, ResumeActions(t),
                  At(s, t, WithCase(s.db, intent.id, c'), s.world, Working(o, Reopened(intent), ReadConnections)))
  {
    hide Leads, At, Step, WorkStep;
    var p := intent.id;
    var c1 := c.(attempts := Replace(c.attempts, Safely(a)));
    var c2 := c1.(intent := Reopened(intent));
    CaseOverwrites(s.db, p, c1, c2);
    PaymentTrace.SettleStepIs(cfg, s.db, o, intent, a, NotCreated(""));
    StepLeads(cfg, s, t, Go, WithCase(s.db, p, c1), s.world, Working(o, intent, Reopen));
    PaymentTrace.ReopenStepIs(cfg, WithCase(s.db, p, c1), o, intent);
    Then(cfg, s, [Run(t, Go)], t, WithCase(s.db, p, c1), s.world, Working(o, intent, Reopen), Go,
         WithCase(s.db, p, c2), s.world, Working(o, Reopened(intent), ReadConnections));
  }

  // ---------- A payment with three connections ----------

  const CONFIG: Config := Config(3, None)
  const CONTENT: Fingerprint := Fingerprint("w", "order", 100, "BRL", map[], Test)
  const REQUEST: Request := Request("k", CONTENT)
  const C1: Connection := Connection("c1", "w", "p", Test, true, true, Closed, None, 1)
  const C2: Connection := Connection("c2", "w", "p", Test, true, true, Closed, None, 2)
  const C3: Connection := Connection("c3", "w", "p", Test, true, true, Closed, None, 3)
  const CONNECTIONS: seq<Connection> := [C1, C2, C3]

  function Choosing(excluded: set<string>): Context {
    Context(Test, excluded, None, PIX_CREATE, map[])
  }

  lemma Chosen()
    ensures Selection(CONNECTIONS, Choosing({})).selected == Some(C1)
    ensures Selection(CONNECTIONS, Choosing({"c1"})).selected == Some(C2)
    ensures Selection(CONNECTIONS, Choosing({"c1", "c2"})).selected == Some(C3)
  {
    hide Selection;
    SelectionIsArgmin(CONNECTIONS, Choosing({}));
    SelectionIsArgmin(CONNECTIONS, Choosing({"c1"}));
    SelectionIsArgmin(CONNECTIONS, Choosing({"c1", "c2"}));
    assert C1 in CONNECTIONS && C2 in CONNECTIONS && C3 in CONNECTIONS;
    assert Eligible(C1, Choosing({})) && Eligible(C2, Choosing({"c1"})) && Eligible(C3, Choosing({"c1", "c2"}));
    assert Better(C1, C2, map[]) && Better(C1, C3, map[]) && Better(C2, C3, map[]);
  }

  const PAYMENT: string := "pi"
  const CREATED: Intent := NewIntent(PAYMENT, REQUEST)
  const HELD: Intent := CREATED.(status := Reconciling, active := "a1", failureCode := "timeout")
  const UNKNOWN: Attempt := Attempt("a1", PAYMENT, "c1", 1, Unknown, "", "timeout", "required", None)

  lemma NotThere(db: Db, id: string)
    requires db.cases.Keys == {PAYMENT}
    requires forall i :: 0 <= i < |db.cases[PAYMENT].attempts| ==> db.cases[PAYMENT].attempts[i].id != id
    ensures !AttemptExists(db, id)
  {
  }

  // Threads from n on have not begun.
  predicate Free(s: Sys, n: nat) {
    forall t :: t in s.threads ==> t < n
  }

  // The payment is being created: its row is there, and thread 0 is about to route it.
  predicate Admitting(s: Sys) {
    && Free(s, 1) && 0 in s.threads
    && s.threads[0] == Working(ByCreate(REQUEST), Admitted(CREATED), ReadConnections)
    && s.db.providers == map["w" := CONNECTIONS]
    && s.db.cases.Keys == {PAYMENT} && s.db.cases[PAYMENT] == Case(Admitted(CREATED), [], [], [])
    && s.world == World(map[], {}, {}, {})
  }

  lemma Creates() returns (actions: seq<Action>, s: Sys)
    ensures Leads(CONFIG, INITIAL, actions, s) && Admitting(s)
  {
    hide Leads, WorkStep, HookStep;
    var providers := map["w" := CONNECTIONS];
    var s1 := INITIAL.(db := EMPTY.(providers := providers));
    var s2 := s1.(threads := map[0 := CreateStart(REQUEST)]);
    First(CONFIG, INITIAL, Reconfigure(providers), s1);
    Onward(CONFIG, INITIAL, [Reconfigure(providers)], s1, Spawn(0, CreateStart(REQUEST)), s2);
    var before := [Reconfigure(providers)] + [Spawn(0, CreateStart(REQUEST))];
    var db3 := CreateStep(s2.db, REQUEST, PAYMENT).0;
    var l3 := Working(ByCreate(REQUEST), CREATED, Admit);
    StepLeads(CONFIG, s2, 0, Fresh(PAYMENT, "", "", 0), db3, s2.world, l3);
    PaymentTrace.AdmitStepIs(CONFIG, db3, ByCreate(REQUEST), CREATED);
    var db4 := PaymentDb.SavePayment(db3, Admitted(CREATED)).value;
    var l4 := Working(ByCreate(REQUEST), Admitted(CREATED), ReadConnections);
    Then(CONFIG, s2, [Run(0, Fresh(PAYMENT, "", "", 0))], 0, db3, s2.world, l3, Go, db4, s2.world, l4);
    s := At(s2, 0, db4, s2.world, l4);
    actions := before + ([Run(0, Fresh(PAYMENT, "", "", 0))] + [Run(0, Go)]);
    Append(CONFIG, INITIAL, before, s2, [Run(0, Fresh(PAYMENT, "", "", 0))] + [Run(0, Go)], s);
  }

  // The first request has an unknown outcome: the payment waits for reconciliation.
  predicate Waiting(s: Sys) {
    && Free(s, 1)
    && s.db.providers == map["w" := CONNECTIONS]
    && s.db.cases.Keys == {PAYMENT} && s.db.cases[PAYMENT].intent == HELD && s.db.cases[PAYMENT].attempts == [UNKNOWN]
    && s.world == World(map["a1" := (PAYMENT, 0)], {"a1"}, {}, {})
  }

  lemma Holds() returns (actions: seq<Action>, s: Sys)
    ensures Leads(CONFIG, INITIAL, actions, s) && Waiting(s)
  {
    hide Leads, Step, WorkStep, Selection, NewDecision;
    var before, s1 := Creates();
    var o, routed, c := ByCreate(REQUEST), Admitted(CREATED), Case(Admitted(CREATED), [], [], []);
    FirstChoice(s1);
    NotThere(s1.db, "a1");
    Routes(CONFIG, s1, 0, o, routed, "a1", C1, c);
    var plan, active := PlanFor(s1.db, routed), routed.(active := "a1");
    var sent := Sent(routed, plan, "a1", C1);
    var c2 := Case(active, [] + [sent], [] + [NewDecision(CONFIG, o, routed, plan, "a1", C1)], []);
    var w2 := s1.world.(home := s1.world.home["a1" := (PAYMENT, 0)], requested := s1.world.requested + {"a1"});
    var s2 := At(s1, 0, WithCase(s1.db, PAYMENT, c2), w2, Working(o, active, Await(plan, sent)));
    Append(CONFIG, INITIAL, before, s1, RouteActions(0, "a1"), s2);
    Unknowns(CONFIG, s2, 0, o, active, plan, sent, [], "timeout", c2);
    s := At(s2, 0, WithCase(s2.db, PAYMENT, c2.(intent := HELD, attempts := [] + [UNKNOWN])), w2, Done(o, HELD, None));
    actions := before + RouteActions(0, "a1") + UnknownActions(0, "timeout");
    Append(CONFIG, INITIAL, before + RouteActions(0, "a1"), s2, UnknownActions(0, "timeout"), s);
    assert [] + [UNKNOWN] == [UNKNOWN];
    assert w2 == World(map["a1" := (PAYMENT, 0)], {"a1"}, {}, {});
  }

  lemma FirstChoice(s: Sys)
    requires Admitting(s)
    ensures var plan := PlanFor(s.db, Admitted(CREATED));
            && plan == Plan(CONNECTIONS, map[], [], {})
            && Selection(plan.connections, ContextOf(CONFIG, ByCreate(REQUEST), plan)).selected == Some(C1)
  {
    hide Selection;
    Chosen();
    assert ContextOf(CONFIG, ByCreate(REQUEST), Plan(CONNECTIONS, map[], [], {})) == Choosing({});
  }

  // ---------- Two reconcilers ----------

  const ASKING: Local := ReconcileStart(PAYMENT, Test)
  const TOLD: Local := Working(ByReconcile(Test), HELD, Settle(UNKNOWN, NotCreated("")))

  // Both have been told that there is no charge, and neither has saved anything yet.
  predicate BothTold(s: Sys) {
    && 1 in s.threads && s.threads[1] == TOLD && 2 in s.threads && s.threads[2] == TOLD
    && s.db.providers == map["w" := CONNECTIONS]
    && s.db.cases.Keys == {PAYMENT} && s.db.cases[PAYMENT].attempts == [UNKNOWN]
    && s.world == World(map["a1" := (PAYMENT, 0)], {"a1"}, {"a1"}, {})
  }

  lemma Tells(s: Sys, t: nat)
    requires t in s.threads && s.threads[t] == ASKING
    requires s.db.providers == map["w" := CONNECTIONS] && s.world.live == {}
    requires PAYMENT in s.db.cases && s.db.cases[PAYMENT].intent == HELD && s.db.cases[PAYMENT].attempts == [UNKNOWN]
    ensures Leads(CONFIG, s, QuestionActions(t, PAYMENT), At(s, t, s.db, s.world.(disproved := s.world.disproved + {"a1"}), TOLD))
  {
    hide Leads;
    assert CONNECTIONS[0].id == "c1";
    Questions(CONFIG, s, t, PAYMENT, Test, HELD, UNKNOWN);
  }

  lemma Overlap(s: Sys) returns (actions: seq<Action>, s': Sys)
    requires Waiting(s)
    ensures Leads(CONFIG, s, actions, s') && BothTold(s')
  {
    hide Leads, Step;
    var s1 := s.(threads := s.threads[1 := ASKING]);
    var s2 := s1.(threads := s1.threads[2 := ASKING]);
    First(CONFIG, s, Spawn(1, ASKING), s1);
    Onward(CONFIG, s, [Spawn(1, ASKING)], s1, Spawn(2, ASKING), s2);
    var spawns := [Spawn(1, ASKING)] + [Spawn(2, ASKING)];
    var w := s.world.(disproved := s.world.disproved + {"a1"});
    var s3 := At(s2, 1, s2.db, w, TOLD);
    Tells(s2, 1);
    Append(CONFIG, s, spawns, s2, QuestionActions(1, PAYMENT), s3);
    var w' := s3.world.(disproved := s3.world.disproved + {"a1"});
    s' := At(s3, 2, s3.db, w', TOLD);
    Tells(s3, 2);
    actions := spawns + QuestionActions(1, PAYMENT) + QuestionActions(2, PAYMENT);
    Append(CONFIG, s, spawns + QuestionActions(1, PAYMENT), s3, QuestionActions(2, PAYMENT), s');
  }

  // A reconciler that goes on routes over whatever attempts it finds.
  lemma Reroutes(s: Sys, t: nat, c: Case, id: string, conn: Connection) returns (actions: seq<Action>, s': Sys)
    requires t in s.threads && s.threads[t] == TOLD && s.db.providers == map["w" := CONNECTIONS]
    requires PAYMENT in s.db.cases && s.db.cases[PAYMENT] == c
    requires 0 < |c.attempts| < 3 && c.attempts[0].id == "a1"
    requires Selection(CONNECTIONS, Choosing(ConnectionIds(Replace(c.attempts, Safely(UNKNOWN))))).selected == Some(conn)
    requires id != "" && s.db.cases.Keys == {PAYMENT} && forall i :: 0 <= i < |c.attempts| ==> c.attempts[i].id != id
    ensures s'.db.cases.Keys == {PAYMENT}
    ensures Leads(CONFIG, s, actions, s')
    ensures s'.db.providers == s.db.providers && PAYMENT in s'.db.cases
    ensures var attempts := s'.db.cases[PAYMENT].attempts;
            && |attempts| == |c.attempts| + 1 && attempts[..|c.attempts|] == Replace(c.attempts, Safely(UNKNOWN))
            && attempts[|c.attempts|].id == id && attempts[|c.attempts|].connectionId == conn.id
    ensures s'.world == s.world.(home := s.world.home[id := (PAYMENT, |c.attempts|)], requested := s.world.requested + {id})
    ensures forall u :: u in s.threads && u != t ==> u in s'.threads && s'.threads[u] == s.threads[u]
  {
    hide Leads, Selection, NewDecision;
    var o, reopened := ByReconcile(Test), Reopened(HELD);
    var c1 := Case(reopened, Replace(c.attempts, Safely(UNKNOWN)), c.decisions, c.recoveries);
    var s1 := At(s, t, WithCase(s.db, PAYMENT, c1), s.world, Working(o, reopened, ReadConnections));
    Resumes(CONFIG, s, t, o, HELD, UNKNOWN, c);
    var plan := PlanFor(s1.db, reopened);
    assert ContextOf(CONFIG, o, plan) == Choosing(ConnectionIds(c1.attempts));
    NotThere(s1.db, id);
    Routes(CONFIG, s1, t, o, reopened, id, conn, c1);
    var active, sent := reopened.(active := id), Sent(reopened, plan, id, conn);
    var c2 := Case(active, c1.attempts + [sent], c1.decisions + [NewDecision(CONFIG, o, reopened, plan, id, conn)], c1.recoveries);
    var w := s1.world.(home := s1.world.home[id := (PAYMENT, |c1.attempts|)], requested := s1.world.requested + {id});
    s' := At(s1, t, WithCase(s1.db, PAYMENT, c2), w, Working(o, active, Await(plan, sent)));
    actions := ResumeActions(t) + RouteActions(t, id);
    Append(CONFIG, s, ResumeActions(t), s1, RouteActions(t, id), s');
  }

  lemma FirstExcluded()
    ensures Replace([UNKNOWN], Safely(UNKNOWN)) == [Safely(UNKNOWN)]
    ensures ConnectionIds([Safely(UNKNOWN)]) == {"c1"}
  {
    assert Safely(UNKNOWN) in [Safely(UNKNOWN)];
  }

  lemma SecondExcluded(attempts: seq<Attempt>)
    requires |attempts| == 2 && attempts[0] == Safely(UNKNOWN) && attempts[1].id == "a2" && attempts[1].connectionId == "c2"
    ensures Replace(attempts, Safely(UNKNOWN)) == attempts && ConnectionIds(attempts) == {"c1", "c2"}
  {
    assert attempts[0] in attempts && attempts[1] in attempts;
  }

  // Both requests are out.
  predicate TwiceRequested(s: Sys) {
    && PAYMENT in s.db.cases && |s.db.cases[PAYMENT].attempts| == 3
    && s.db.cases[PAYMENT].attempts[1].id == "a2" && s.db.cases[PAYMENT].attempts[2].id == "a3"
    && s.world.requested == {"a1", "a2", "a3"} && s.world.disproved == {"a1"}
  }

  lemma BothReroute(s: Sys) returns (actions: seq<Action>, s': Sys)
    requires BothTold(s)
    ensures Leads(CONFIG, s, actions, s') && TwiceRequested(s')
  {
    hide Leads, Selection, ConnectionIds, Replace;
    Chosen();
    FirstExcluded();
    var first, s1 := Reroutes(s, 1, s.db.cases[PAYMENT], "a2", C2);
    var c := s1.db.cases[PAYMENT];
    assert c.attempts[..1] == [Safely(UNKNOWN)];
    assert c.attempts[0] == c.attempts[..1][0];
    SecondExcluded(c.attempts);
    var second;
    second, s' := Reroutes(s1, 2, c, "a3", C3);
    actions := first + second;
    Append(CONFIG, s, first, s1, second, s');
    assert s'.db.cases[PAYMENT].attempts[1] == s'.db.cases[PAYMENT].attempts[..2][1];
  }

  // Two overlapping reconcilers, each rightly told that the first request left no charge,
  // send two further requests, and both may leave a charge for the same payment.
  lemma OverlappingReconcilersDoubleCharge() returns (actions: seq<Action>, s: Sys)
    ensures Playable(CONFIG, INITIAL, actions) && s == Play(CONFIG, INITIAL, actions)
    ensures PAYMENT in s.db.cases && |s.db.cases[PAYMENT].attempts| == 3
    ensures var attempts := s.db.cases[PAYMENT].attempts;
            attempts[1].id != attempts[2].id && attempts[1].id in s.world.live && attempts[2].id in s.world.live
  {
    var first, s1 := Holds();
    var second, s2 := Overlap(s1);
    var third, s3 := BothReroute(s2);
    actions := first + second + third;
    Append(CONFIG, INITIAL, first, s1, second, s2);
    Append(CONFIG, INITIAL, first + second, s2, third, s3);
    var s4 := s3.(world := s3.world.(live := s3.world.live + {"a2"}));
    Onward(CONFIG, INITIAL, actions, s3, Charge("a2"), s4);
    s := s4.(world := s4.world.(live := s4.world.live + {"a3"}));
    Onward(CONFIG, INITIAL, actions + [Charge("a2")], s4, Charge("a3"), s);
    actions := actions + [Charge("a2")] + [Charge("a3")];
  }
}
