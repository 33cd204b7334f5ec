// The orchestration service over the in-memory store, as the code is written. Each call is
// one thread of `PaymentMachine` running on its own: its trace follows the code, its
// lookups are truthful, and it repeats what the outside has answered. A step of the machine
// that may need an identifier, the time or an answer takes one reply of the outside.
module PaymentService {
  import opened Domain
  import opened Outside
  import opened Router
  import opened Sorting
  import opened PaymentDb
  import opened PaymentMachine
  import opened PaymentStore
  import opened PaymentTrace

  // The pair (intent, error) that a call returns.
  datatype Reply = Reply(intent: Option<Intent>, error: Option<Error>)

  // The reply of a call whose thread has ended in l.
  predicate Replies(l: Local, r: Reply) {
    match l
    case Done(_, intent, failure) => r == Reply(Some(intent), failure)
    case HookDone(intent) => r == Reply(Some(intent), None)
    case Stopped(Some(e)) => r == Reply(None, Some(e))
    case _ => false
  }

  class Service {
    const store: Store
    const outside: Oracle<Answers>
    const cfg: Config

    constructor (store: Store, outside: Oracle<Answers>, catalog: Option<map<string, set<string>>>, maxAttempts: int)
      ensures this.store == store && this.outside == outside && cfg.catalog == catalog
      ensures cfg.maxAttempts == if maxAttempts <= 0 then 3 else maxAttempts
    {
      this.store := store;
      this.outside := outside;
      this.cfg := Config(if maxAttempts <= 0 then 3 else maxAttempts, catalog);
    }

    // Since answer number `from` and contents db, where its thread stood at l, the call has
    // made the steps of the trace, and its thread stands at l'.
    ghost predicate Did(from: nat, db: Db, l: Local, trace: seq<Choice>, l': Local)
      reads store, outside
    {
      store.Homed() && Follows(cfg, outside.answers, from, db, l, trace, store.Contents(), l', outside.asked)
    }

    // What a routing call works with: the payment is stored, and its attempts are numbered upwards.
    ghost predicate Routable(payment: string)
      reads store
    {
      store.Homed() && payment in store.Contents().cases && InSequence(AttemptsOf(store.Contents(), payment))
    }

    // The identifier generator is about to give a new identifier.
    method CreatePayment(req: Request) returns (reply: Reply, ghost trace: seq<Choice>, ghost end: Local)
      requires store.Homed() && outside.answers(outside.asked).id !in store.Contents().cases
      modifies store, outside
      ensures Did(old(outside.asked), old(store.Contents()), CreateStart(req), trace, end) && Replies(end, reply)
    {
      hide Follows, Step, Linked, Owned, CaseOf, CasesOf, Store.Contents, Store.Valid, InSequence, Unused;
      ghost var n0, db0, l0 := outside.asked, store.Contents(), CreateStart(req);
      NoStep(cfg, outside.answers, n0, db0, l0);
      var given := outside.Ask();
      store.NewIsUnused(given.id);
      var result := store.GetOrCreatePayment(NewIntent(given.id, req));
      ghost var db1, l1 := store.Contents(), CreateStep(db0, req, given.id).1;
      CreateStepIs(cfg, db0, req, FreshFrom(given));
      Onward(cfg, outside.answers, n0, db0, l0, [], db0, l0, n0, FreshFrom(given), db1, l1);
      trace, end := [] + [FreshFrom(given)], l1;
      if result.Err? {
        return Reply(None, Some(result.error)), trace, end;
      }
      var (stored, created) := result.value;
      if !created {
        return Reply(Some(stored), None), trace, end;
      }
      ghost var n1, more := outside.asked, [];
      NothingInSequence(db1, stored.id);
      reply, more, end := AdmitPayment(stored, req);
      FollowsAppend(cfg, outside.answers, n0, db0, l0, trace, db1, l1, n1, more, store.Contents(), end, outside.asked);
      trace := trace + more;
    }

    // The rest of CreatePayment for a payment that it has just inserted.
    method AdmitPayment(stored: Intent, req: Request) returns (reply: Reply, ghost trace: seq<Choice>, ghost end: Local)
      requires Routable(stored.id)
      modifies store, outside
      ensures Did(old(outside.asked), old(store.Contents()), Working(ByCreate(req), stored, Admit), trace, end)
      ensures Replies(end, reply)
    {
      hide Follows, Step, Linked, Owned, CaseOf, CasesOf, Store.Contents, Store.Valid, InSequence;
      ghost var n0, db0, l0 := outside.asked, store.Contents(), Working(ByCreate(req), stored, Admit);
      NoStep(cfg, outside.answers, n0, db0, l0);
      var admitted := Admitted(stored);
      var _ := store.SavePayment(admitted);
      ghost var db1, l1, more := store.Contents(), Working(ByCreate(req), admitted, ReadConnections), [];
      AdmitStepIs(cfg, db0, ByCreate(req), stored);
      Onward(cfg, outside.answers, n0, db0, l0, [], db0, l0, n0, Go, db1, l1);
      reply, more, end := ExecuteRouting(admitted, req.content.environment, ByCreate(req));
      FollowsAppend(cfg, outside.answers, n0, db0, l0, [] + [Go], db1, l1, n0, more, store.Contents(), end, outside.asked);
      trace := [] + [Go] + more;
    }

    method ExecuteRouting(start: Intent, env: Environment, ghost o: Origin)
      returns (reply: Reply, ghost trace: seq<Choice>, ghost end: Local)
      requires Routable(start.id) && EnvironmentOf(o) == env
      modifies store, outside
      ensures Did(old(outside.asked), old(store.Contents()), Working(o, start, ReadConnections), trace, end)
      ensures Replies(end, reply)
    {
      hide Follows, Step, SelectStep, Concluded, Selection, Sort, InSequence, BySequence, ConnectionIds;
      hide Linked, Owned, CaseOf, CasesOf, Store.Contents, Store.Valid;
      ghost var n0, db0, l0 := outside.asked, store.Contents(), Working(o, start, ReadConnections);
      NoStep(cfg, outside.answers, n0, db0, l0);
      var given := outside.Ask();
      var health := given.health;
      var connections := store.ListProviderConnections(start.workspace);
      ghost var l1 := Working(o, start, ReadAttempts(connections, health));
      ConnectionsStepIs(cfg, db0, o, start, health);
      Onward(cfg, outside.answers, n0, db0, l0, [], db0, l0, n0, Snapshot(health), db0, l1);
      var attempts := store.ListAttempts(start.id);
      SortKeepsSequence(AttemptsOf(db0, start.id));
      var excluded := Excluded(attempts);
      ghost var l2, n2, more := Working(o, start, Loop(Plan(connections, health, attempts, excluded))), outside.asked, [];
      AttemptsStepIs(cfg, db0, o, start, connections, health);
      Onward(cfg, outside.answers, n0, db0, l0, [] + [Snapshot(health)], db0, l1, n2, Go, db0, l2);
      trace := [] + [Snapshot(health)] + [Go];
      reply, more, end := DispatchAll(start, connections, health, attempts, excluded, env, o);
      FollowsAppend(cfg, outside.answers, n0, db0, l0, trace, db0, l2, n2, more, store.Contents(), end, outside.asked);
      trace := trace + more;
    }

    method Excluded(attempts: seq<Attempt>) returns (excluded: set<string>)
      ensures excluded == ConnectionIds(attempts)
    {
      excluded := {};
      for i := 0 to |attempts|
        invariant excluded == ConnectionIds(attempts[..i])
      {
        excluded := excluded + {attempts[i].connectionId};
      }
      assert attempts[..|attempts|] == attempts;
    }

    // The dispatch loop.
    method DispatchAll(start: Intent, connections: seq<Connection>, health: Health, tried: seq<Attempt>, used: set<string>,
        env: Environment, ghost o: Origin) returns (reply: Reply, ghost trace: seq<Choice>, ghost end: Local)
      requires store.Homed() && start.id in store.Contents().cases && EnvironmentOf(o) == env
      modifies store, outside
      ensures Did(old(outside.asked), old(store.Contents()),
                  Working(o, start, Loop(Plan(connections, health, tried, used))), trace, end)
      ensures Replies(end, reply)
    {
      hide Follows, Step, SelectStep, Concluded, Selection, Linked, Owned, CaseOf, CasesOf, Store.Contents, Store.Valid;
      var intent, attempts, excluded := start, tried, used;
      ghost var n0, db0 := outside.asked, store.Contents();
      ghost var l0 := Working(o, intent, Loop(Plan(connections, health, attempts, excluded)));
      NoStep(cfg, outside.answers, n0, db0, l0);
      trace, end := [], l0;
      ghost var more;
      while |attempts| < cfg.maxAttempts
        invariant store.Homed() && intent.id in store.Contents().cases
        invariant end == Working(o, intent, Loop(Plan(connections, health, attempts, excluded)))
        invariant Follows(cfg, outside.answers, n0, db0, l0, trace, store.Contents(), end, outside.asked)
        decreases cfg.maxAttempts - |attempts|
      {
        ghost var db, l, n := store.Contents(), end, outside.asked;
        var route := Select(connections, Context(env, excluded, cfg.catalog, PIX_CREATE, health));
        var attempt: Attempt, ended: bool;
        intent, attempt, ended, reply, more, end :=
          Dispatch(intent, route, |attempts| + 1, o, Plan(connections, health, attempts, excluded));
        FollowsAppend(cfg, outside.answers, n0, db0, l0, trace, db, l, n, more, store.Contents(), end, outside.asked);
        trace := trace + more;
        if ended {
          return;
        }
        excluded := excluded + {attempt.connectionId};
        attempts := attempts + [attempt];
      }
      ghost var db, l, n := store.Contents(), end, outside.asked;
      reply, more, end := Exhaust(intent, o, Plan(connections, health, attempts, excluded));
      FollowsAppend(cfg, outside.answers, n0, db0, l0, trace, db, l, n, more, store.Contents(), end, outside.asked);
      trace := trace + more;
    }

    // The budget of attempts is used up.
    method Exhaust(intent: Intent, ghost o: Origin, ghost plan: Plan)
      returns (reply: Reply, ghost trace: seq<Choice>, ghost end: Local)
      requires store.Homed() && intent.id in store.Contents().cases && |plan.attempts| >= cfg.maxAttempts
      modifies store, outside
      ensures Did(old(outside.asked), old(store.Contents()), Working(o, intent, Loop(plan)), trace, end)
      ensures Replies(end, reply)
    {
      hide Follows, Step, Linked, Owned, CaseOf, CasesOf, Store.Contents, Store.Valid;
      ghost var n0, db0, l0 := outside.asked, store.Contents(), Working(o, intent, Loop(plan));
      NoStep(cfg, outside.answers, n0, db0, l0);
      var verdict := GiveUp("fallback_budget_exhausted", None);
      var given := outside.Ask();
      ghost var l1, n1, c, more := Working(o, intent, Finish(verdict)), outside.asked, FreshFrom(given), [];
      ExhaustedStepIs(cfg, db0, o, intent, plan, c);
      Onward(cfg, outside.answers, n0, db0, l0, [], db0, l0, n0, c, db0, l1);
      reply, more, end := Conclude(intent, verdict, o);
      FollowsAppend(cfg, outside.answers, n0, db0, l0, [] + [c], db0, l1, n1, more, store.Contents(), end, n1);
      trace := [] + [c] + more;
    }

    // The end of a routing call: save the intent and return it.
    method Conclude(intent: Intent, verdict: Verdict, ghost o: Origin)
      returns (reply: Reply, ghost trace: seq<Choice>, ghost end: Local)
      requires store.Homed() && intent.id in store.Contents().cases
      modifies store
      ensures Did(outside.asked, old(store.Contents()), Working(o, intent, Finish(verdict)), trace, end)
      ensures Replies(end, reply) && intent.id in store.Contents().cases
    {
      hide Follows, Step, Linked, Owned, CaseOf, CasesOf, Store.Contents, Store.Valid;
      ghost var n0, db0, l0 := outside.asked, store.Contents(), Working(o, intent, Finish(verdict));
      NoStep(cfg, outside.answers, n0, db0, l0);
      var concluded := Concluded(intent, verdict);
      var _ := store.SavePayment(concluded);
      end := Done(o, concluded, FailureOf(verdict));
      FinishStepIs(cfg, db0, o, intent, verdict);
      Onward(cfg, outside.answers, n0, db0, l0, [], db0, l0, n0, Go, store.Contents(), end);
      trace := [] + [Go];
      reply := Reply(Some(concluded), FailureOf(verdict));
    }

    // One round of the dispatch loop. It ends the call, unless the request failed safely.
    method Dispatch(intent: Intent, route: RouteResult, number: nat, ghost o: Origin, ghost plan: Plan)
      returns (intent': Intent, attempt: Attempt, ended: bool, reply: Reply, ghost trace: seq<Choice>, ghost end: Local)
      requires store.Homed() && intent.id in store.Contents().cases
      requires number == |plan.attempts| + 1 && number <= cfg.maxAttempts
      requires route == Selection(plan.connections, ContextOf(cfg, o, plan))
      modifies store, outside
      ensures Did(old(outside.asked), old(store.Contents()), Working(o, intent, Loop(plan)), trace, end)
      ensures intent'.id == intent.id && intent'.id in store.Contents().cases
      ensures if ended then Replies(end, reply) else end == Working(o, intent', Loop(Tried(plan, attempt)))
    {
      hide Follows, Step, Concluded, Selection, Linked, Owned, CaseOf, CasesOf, Store.Contents, Store.Valid;
      ghost var n0, db0, l0 := outside.asked, store.Contents(), Working(o, intent, Loop(plan));
      NoStep(cfg, outside.answers, n0, db0, l0);
      ghost var more;
      var given := outside.Ask();
      ghost var n1, c := outside.asked, FreshFrom(given);
      SelectStepIs(cfg, db0, o, intent, plan, c);
      trace := [] + [c];
      intent', attempt, ended := intent, NewAttempt("", intent, number, ""), true;
      if route.selected.None? {
        var verdict := GiveUp("no_eligible_provider", Some(NoEligibleProvider));
        ghost var l1 := Working(o, intent, Finish(verdict));
        Onward(cfg, outside.answers, n0, db0, l0, [], db0, l0, n0, c, db0, l1);
        reply, more, end := Conclude(intent, verdict, o);
        FollowsAppend(cfg, outside.answers, n0, db0, l0, trace, db0, l1, n1, more, store.Contents(), end, n1);
        trace := trace + more;
        return;
      }
      var conn := route.selected.value;
      attempt := NewAttempt(given.id, intent, number, conn.id);
      var error := store.AddAttemptWithRoutingDecision(attempt,
                     Decision(given.id2, intent.id, given.id, conn.id, route.candidates));
      ghost var db1 := store.Contents();
      if error.Some? {
        end := Fail(error.value);
        Onward(cfg, outside.answers, n0, db0, l0, [], db0, l0, n0, c, db1, end);
        reply := Reply(None, error);
        return;
      }
      ghost var l1 := Working(o, intent, Activate(plan, attempt));
      Onward(cfg, outside.answers, n0, db0, l0, [], db0, l0, n0, c, db1, l1);
      intent', attempt, ended, reply, more, end := ActivateAttempt(intent, attempt, o, plan);
      FollowsAppend(cfg, outside.answers, n0, db0, l0, trace, db1, l1, n1, more, store.Contents(), end, outside.asked);
      trace := trace + more;
    }

    method ActivateAttempt(intent: Intent, created: Attempt, ghost o: Origin, ghost plan: Plan)
      returns (intent': Intent, attempt: Attempt, ended: bool, reply: Reply, ghost trace: seq<Choice>, ghost end: Local)
      requires store.Homed() && intent.id in store.Contents().cases && created.intentId == intent.id
      requires created.id in store.attempts ==> store.attempts[created.id].intentId == intent.id
      modifies store, outside
      ensures Did(old(outside.asked), old(store.Contents()), Working(o, intent, Activate(plan, created)), trace, end)
      ensures intent'.id == intent.id && intent'.id in store.Contents().cases
      ensures if ended then Replies(end, reply) else end == Working(o, intent', Loop(Tried(plan, attempt)))
    {
      hide Follows, Step, Linked, Owned, CaseOf, CasesOf, Store.Contents, Store.Valid;
      ghost var n0, db0, l0 := outside.asked, store.Contents(), Working(o, intent, Activate(plan, created));
      NoStep(cfg, outside.answers, n0, db0, l0);
      intent' := intent.(active := created.id);
      var _ := store.SavePayment(intent');
      ghost var db1, l1, more := store.Contents(), Working(o, intent', Prepare(plan, created)), [];
      ActivateStepIs(cfg, db0, o, intent, plan, created);
      Onward(cfg, outside.answers, n0, db0, l0, [], db0, l0, n0, Go, db1, l1);
      trace := [] + [Go];
      attempt, ended, reply, more, end := RequestCharge(intent', created, o, plan);
      FollowsAppend(cfg, outside.answers, n0, db0, l0, trace, db1, l1, n0, more, store.Contents(), end, outside.asked);
      trace := trace + more;
    }

    method RequestCharge(intent: Intent, created: Attempt, ghost o: Origin, ghost plan: Plan)
      returns (attempt: Attempt, ended: bool, reply: Reply, ghost trace: seq<Choice>, ghost end: Local)
      requires store.Homed() && intent.id in store.Contents().cases && created.intentId == intent.id
      requires created.id in store.attempts ==> store.attempts[created.id].intentId == intent.id
      modifies store, outside
      ensures Did(old(outside.asked), old(store.Contents()), Working(o, intent, Prepare(plan, created)), trace, end)
      ensures intent.id in store.Contents().cases
      ensures if ended then Replies(end, reply) else end == Working(o, intent, Loop(Tried(plan, attempt)))
    {
      hide Follows, Step, Concluded, SelectStep, Linked, Owned, CaseOf, CasesOf, Store.Contents, Store.Valid;
      ghost var n0, db0, l0 := outside.asked, store.Contents(), Working(o, intent, Prepare(plan, created));
      NoStep(cfg, outside.answers, n0, db0, l0);
      ghost var more;
      var given := outside.Ask();
      ghost var n1, c := outside.asked, Resolve(given.resolved, true);
      PrepareStepIs(cfg, db0, o, intent, plan, created, given.resolved, true);
      attempt, ended, trace := created, true, [] + [c];
      if !given.resolved {
        var verdict := GiveUp("adapter_not_registered", Some(Unresolved));
        attempt := attempt.(status := FailedTerminal, failureCode := "adapter_not_registered");
        var _ := store.SaveAttempt(attempt);
        ghost var db1, l1 := store.Contents(), Working(o, intent, Finish(verdict));
        Onward(cfg, outside.answers, n0, db0, l0, [], db0, l0, n0, c, db1, l1);
        reply, more, end := Conclude(intent, verdict, o);
        FollowsAppend(cfg, outside.answers, n0, db0, l0, trace, db1, l1, n1, more, store.Contents(), end, n1);
        trace := trace + more;
        return;
      }
      attempt := attempt.(status := Requesting);
      var error := store.SaveAttempt(attempt);
      ghost var db1 := store.Contents();
      if error.Some? {
        end := Fail(error.value);
        Onward(cfg, outside.answers, n0, db0, l0, [], db0, l0, n0, c, db1, end);
        reply := Reply(None, error);
        return;
      }
      ghost var l1 := Working(o, intent, Send(plan, attempt));
      Onward(cfg, outside.answers, n0, db0, l0, [], db0, l0, n0, c, db1, l1);
      attempt, ended, reply, more, end := SendRequest(intent, attempt, o, plan);
      FollowsAppend(cfg, outside.answers, n0, db0, l0, trace, db1, l1, n1, more, store.Contents(), end, outside.asked);
      trace := trace + more;
    }

    method SendRequest(intent: Intent, requesting: Attempt, ghost o: Origin, ghost plan: Plan)
      returns (attempt: Attempt, ended: bool, reply: Reply, ghost trace: seq<Choice>, ghost end: Local)
      requires store.Homed() && intent.id in store.Contents().cases && requesting.intentId == intent.id
      requires requesting.id in store.attempts ==> store.attempts[requesting.id].intentId == intent.id
      modifies store, outside
      ensures Did(old(outside.asked), old(store.Contents()), Working(o, intent, Send(plan, requesting)), trace, end)
      ensures intent.id in store.Contents().cases
      ensures if ended then Replies(end, reply) else end == Working(o, intent, Loop(Tried(plan, attempt)))
    {
      hide Follows, Step, Linked, Owned, CaseOf, CasesOf, Store.Contents, Store.Valid;
      ghost var n0, db0, l0 := outside.asked, store.Contents(), Working(o, intent, Send(plan, requesting));
      NoStep(cfg, outside.answers, n0, db0, l0);
      var given := outside.Ask();
      var outcome := given.outcome;
      ghost var n1, more := outside.asked, [];
      ghost var l1, l2 := Working(o, intent, Await(plan, requesting)), Working(o, intent, Record(plan, requesting, outcome));
      SendStepsAre(cfg, db0, o, intent, plan, requesting, outcome);
      Onward(cfg, outside.answers, n0, db0, l0, [], db0, l0, n0, Go, db0, l1);
      Onward(cfg, outside.answers, n0, db0, l0, [] + [Go], db0, l1, n0, Answer(outcome), db0, l2);
      trace := [] + [Go] + [Answer(outcome)];
      attempt, ended, reply, more, end := RecordOutcome(intent, requesting, outcome, o, plan);
      FollowsAppend(cfg, outside.answers, n0, db0, l0, trace, db0, l2, n1, more, store.Contents(), end, n1);
      trace := trace + more;
    }

    // What the dispatch loop does with the connector's answer.
    method RecordOutcome(intent: Intent, requesting: Attempt, outcome: CreateOutcome, ghost o: Origin, ghost plan: Plan)
      returns (attempt: Attempt, ended: bool, reply: Reply, ghost trace: seq<Choice>, ghost end: Local)
      requires store.Homed() && intent.id in store.Contents().cases && requesting.intentId == intent.id
      requires requesting.id in store.attempts ==> store.attempts[requesting.id].intentId == intent.id
      modifies store
      ensures Did(outside.asked, old(store.Contents()), Working(o, intent, Record(plan, requesting, outcome)), trace, end)
      ensures intent.id in store.Contents().cases
      ensures if ended then Replies(end, reply) else end == Working(o, intent, Loop(Tried(plan, attempt)))
    {
      hide Follows, Step, Concluded, Linked, Owned, CaseOf, CasesOf, Store.Contents, Store.Valid, Everywhere;
      ghost var n0, db0, l0 := outside.asked, store.Contents(), Working(o, intent, Record(plan, requesting, outcome));
      NoStep(cfg, outside.answers, n0, db0, l0);
      attempt := requesting.(providerPaymentId := outcome.paymentId, failureCode := outcome.code);
      var verdict: Verdict;
      ended := true;
      match outcome {
        case CreateSucceeded(_, pix, _) =>
          attempt := attempt.(status := Succeeded, pix := pix);
          verdict := Present(attempt);
        case CreateFailedSafe(_, _) =>
          attempt := attempt.(status := FailedSafe);
          verdict, ended := GiveUp("", None), false;
        case CreateUnknown(_, code) =>
          attempt := attempt.(status := Unknown, reconciliation := "required");
          verdict := Hold(code);
        case CreateFailedTerminal(_, code) =>
          attempt := attempt.(status := FailedTerminal);
          verdict := GiveUp(code, None);
      }
      var error := store.SaveAttempt(attempt);
      RecordStepIs(cfg, db0, o, intent, plan, requesting, outcome);
      ghost var db1 := store.Contents();
      trace := [] + [Go];
      if error.Some? {
        end := Fail(error.value);
        Onward(cfg, outside.answers, n0, db0, l0, [], db0, l0, n0, Go, db1, end);
        ended, reply := true, Reply(None, error);
        return;
      }
      end := Working(o, intent, AfterCreate(plan, requesting, outcome));
      Onward(cfg, outside.answers, n0, db0, l0, [], db0, l0, n0, Go, db1, end);
      reply := Reply(None, None);
      if ended {
        ghost var more;
        reply, more, end := Conclude(intent, verdict, o);
        FollowsAppend(cfg, outside.answers, n0, db0, l0, trace, db1, Working(o, intent, Finish(verdict)), n0, more,
                      store.Contents(), end, n0);
        trace := trace + more;
      }
    }

    method ReconcilePayment(payment: string, env: Environment)
      returns (reply: Reply, ghost trace: seq<Choice>, ghost end: Local)
      requires store.Homed() && InSequence(AttemptsOf(store.Contents(), payment))
      modifies store, outside
      ensures Did(old(outside.asked), old(store.Contents()), ReconcileStart(payment, env), trace, end)
      ensures Replies(end, reply)
    {
      hide Follows, Step, Linked, Owned, CaseOf, CasesOf, Store.Contents, Store.Valid, InSequence;
      ghost var n0, db0, l0, o := outside.asked, store.Contents(), ReconcileStart(payment, env), ByReconcile(env);
      NoStep(cfg, outside.answers, n0, db0, l0);
      var got := store.GetPayment(payment);
      end := ReconcileStep(db0, payment, env);
      ReconcileStepIs(cfg, db0, payment, env);
      Onward(cfg, outside.answers, n0, db0, l0, [], db0, l0, n0, Go, db0, end);
      trace := [] + [Go];
      if got.Err? {
        return Reply(None, Some(got.error)), trace, end;
      }
      var intent := got.value;
      if intent.status != Reconciling {
        return Reply(None, Some(InvalidTransition)), trace, end;
      }
      ghost var l1, more := end, [];
      reply, more, end := FindUnknown(intent, env, o);
      FollowsAppend(cfg, outside.answers, n0, db0, l0, trace, db0, l1, n0, more, store.Contents(), end, outside.asked);
      trace := trace + more;
    }

    // ReconcilePayment once it has read its payment as reconciling.
    method FindUnknown(intent: Intent, env: Environment, ghost o: Origin)
      returns (reply: Reply, ghost trace: seq<Choice>, ghost end: Local)
      requires Routable(intent.id) && EnvironmentOf(o) == env
      modifies store, outside
      ensures Did(old(outside.asked), old(store.Contents()), Working(o, intent, FindActive), trace, end)
      ensures Replies(end, reply)
    {
      hide Follows, Step, Linked, Owned, CaseOf, CasesOf, Store.Contents, Store.Valid, InSequence;
      ghost var n0, db0, l0 := outside.asked, store.Contents(), Working(o, intent, FindActive);
      NoStep(cfg, outside.answers, n0, db0, l0);
      var found := store.GetAttempt(intent.active);
      if found.Err? {
        MissingStepIs(cfg, db0, o, intent);
        end := Fail(NotFound);
        Onward(cfg, outside.answers, n0, db0, l0, [], db0, l0, n0, Missing, db0, end);
        return Reply(None, Some(NotFound)), [] + [Missing], end;
      }
      var attempt := found.value;
      ghost var p, i: nat :| AttemptAt(db0, intent.active, p, i) && db0.cases[p].attempts[i] == attempt;
      end := if attempt.status != Unknown then Fail(InvalidTransition) else Working(o, intent, Locate(attempt));
      FoundStepIs(cfg, db0, o, intent, p, i);
      Onward(cfg, outside.answers, n0, db0, l0, [], db0, l0, n0, Found(p, i), db0, end);
      trace := [] + [Found(p, i)];
      if attempt.status != Unknown {
        reply := Reply(None, Some(InvalidTransition));
        return;
      }
      ghost var l1, more := end, [];
      reply, more, end := AskConnector(intent, attempt, env, o);
      FollowsAppend(cfg, outside.answers, n0, db0, l0, trace, db0, l1, n0, more, store.Contents(), end, outside.asked);
      trace := trace + more;
    }

    // Find the connection and the adapter, and ask the connector what became of the charge.
    method AskConnector(intent: Intent, attempt: Attempt, env: Environment, ghost o: Origin)
      returns (reply: Reply, ghost trace: seq<Choice>, ghost end: Local)
      requires Routable(intent.id) && EnvironmentOf(o) == env
      requires attempt.id in store.attempts && store.attempts[attempt.id] == attempt
      modifies store, outside
      ensures Did(old(outside.asked), old(store.Contents()), Working(o, intent, Locate(attempt)), trace, end)
      ensures Replies(end, reply)
    {
      hide Follows, Step, Linked, Owned, CaseOf, CasesOf, Store.Contents, Store.Valid, InSequence;
      ghost var n0, db0, l0 := outside.asked, store.Contents(), Working(o, intent, Locate(attempt));
      NoStep(cfg, outside.answers, n0, db0, l0);
      var connections := store.ListProviderConnections(intent.workspace);
      var located := false;
      for n := 0 to |connections|
        invariant located <==> exists m :: 0 <= m < n && connections[m].id == attempt.connectionId
      {
        if connections[n].id == attempt.connectionId {
          located := true;
          assert connections[n].id == attempt.connectionId;
        }
      }
      var given := outside.Ask();
      ghost var c, n1 := Resolve(given.resolved, true), outside.asked;
      end := if !located then Fail(NotFound) else if !given.resolved then Fail(Unresolved) else Working(o, intent, Query(attempt));
      LocateStepIs(cfg, db0, o, intent, attempt, given.resolved);
      Onward(cfg, outside.answers, n0, db0, l0, [], db0, l0, n0, c, db0, end);
      trace := [] + [c];
      if !located {
        reply := Reply(None, Some(NotFound));
        return;
      }
      if !given.resolved {
        reply := Reply(None, Some(Unresolved));
        return;
      }
      given := outside.Ask();
      var answer := given.verdict;
      ghost var l2, n2, more := Working(o, intent, Settle(attempt, answer)), outside.asked, [];
      QueryStepIs(cfg, db0, o, intent, attempt, answer);
      Onward(cfg, outside.answers, n0, db0, l0, trace, db0, end, n1, Verified(answer), db0, l2);
      trace := trace + [Verified(answer)];
      reply, more, end := SettleAttempt(intent, attempt, answer, env, o);
      FollowsAppend(cfg, outside.answers, n0, db0, l0, trace, db0, l2, n2, more, store.Contents(), end, outside.asked);
      trace := trace + more;
    }

    // What ReconcilePayment does with the connector's answer.
    method SettleAttempt(intent: Intent, unknown: Attempt, answer: ReconcileOutcome, env: Environment, ghost o: Origin)
      returns (reply: Reply, ghost trace: seq<Choice>, ghost end: Local)
      requires Routable(intent.id) && EnvironmentOf(o) == env
      requires unknown.id in store.attempts ==> store.attempts[unknown.id] == unknown
      modifies store, outside
      ensures Did(old(outside.asked), old(store.Contents()), Working(o, intent, Settle(unknown, answer)), trace, end)
      ensures Replies(end, reply)
    {
      hide Follows, Step, Linked, Owned, CaseOf, CasesOf, Store.Contents, Store.Valid;
      ghost var n0, db0, l0 := outside.asked, store.Contents(), Working(o, intent, Settle(unknown, answer));
      NoStep(cfg, outside.answers, n0, db0, l0);
      var attempt := unknown;
      match answer {
        case NotCreated(code) =>
          attempt := attempt.(status := FailedSafe, reconciliation := "not_created", failureCode := code);
        case ChargeExists(id, pix) =>
          attempt := attempt.(status := Succeeded, reconciliation := "created", providerPaymentId := id, pix := pix,
                              failureCode := "");
        case Terminal(code) =>
          attempt := attempt.(status := FailedTerminal, reconciliation := "terminal", failureCode := code);
        case StillUnknown =>
          attempt := attempt.(reconciliation := "still_unknown");
      }
      store.SameRow(attempt.id);
      var error := store.SaveAttempt(attempt);
      SettleStepIs(cfg, db0, o, intent, unknown, answer);
      ghost var db1 := store.Contents();
      trace := [] + [Go];
      if error.Some? {
        end := Fail(error.value);
        Onward(cfg, outside.answers, n0, db0, l0, [], db0, l0, n0, Go, db1, end);
        reply := Reply(None, error);
        return;
      }
      ghost var l1, more := AfterReconcile(o, intent, unknown, answer), [];
      Onward(cfg, outside.answers, n0, db0, l0, [], db0, l0, n0, Go, db1, l1);
      if answer.NotCreated? && attempt.intentId == intent.id {
        ReplaceInSequence(db0.cases[intent.id].attempts, attempt);
      }
      reply, more, end := Resume(intent, unknown, answer, env, o);
      FollowsAppend(cfg, outside.answers, n0, db0, l0, trace, db1, l1, n0, more, store.Contents(), end, outside.asked);
      trace := trace + more;
    }

    // Once the attempt is saved: go on routing, present the charge, or leave the payment as it is.
    method Resume(intent: Intent, unknown: Attempt, answer: ReconcileOutcome, env: Environment, ghost o: Origin)
      returns (reply: Reply, ghost trace: seq<Choice>, ghost end: Local)
      requires store.Homed() && intent.id in store.Contents().cases && EnvironmentOf(o) == env
      requires answer.NotCreated? ==> InSequence(AttemptsOf(store.Contents(), intent.id))
      modifies store, outside
      ensures Did(old(outside.asked), old(store.Contents()), AfterReconcile(o, intent, unknown, answer), trace, end)
      ensures Replies(end, reply)
    {
      hide Follows, Step, Linked, Owned, CaseOf, CasesOf, Store.Contents, Store.Valid, InSequence;
      ghost var n0, db0, l0 := outside.asked, store.Contents(), AfterReconcile(o, intent, unknown, answer);
      NoStep(cfg, outside.answers, n0, db0, l0);
      match answer {
        case NotCreated(_) =>
          var reopened := Reopened(intent);
          var _ := store.SavePayment(reopened);
          ghost var db1, l1, more := store.Contents(), Working(o, reopened, ReadConnections), [];
          ReopenStepIs(cfg, db0, o, intent);
          Onward(cfg, outside.answers, n0, db0, l0, [], db0, l0, n0, Go, db1, l1);
          reply, more, end := ExecuteRouting(reopened, env, o);
          FollowsAppend(cfg, outside.answers, n0, db0, l0, [] + [Go], db1, l1, n0, more, store.Contents(), end, outside.asked);
          trace := [] + [Go] + more;
        case ChargeExists(_, _) =>
          reply, trace, end := Conclude(intent, Present(Reconciled(unknown, answer)), o);
        case Terminal(code) =>
          reply, trace, end := Conclude(intent, GiveUp(code, None), o);
        case StillUnknown =>
          reply, trace, end := Reply(Some(intent), None), [], l0;
      }
    }

    method ProcessProviderWebhook(notice: Notice) returns (reply: Reply, ghost trace: seq<Choice>, ghost end: Local)
      requires store.Homed() && forall p :: InSequence(AttemptsOf(store.Contents(), p))
      modifies store, outside
      ensures Did(old(outside.asked), old(store.Contents()), Hook(notice, Receive), trace, end) && Replies(end, reply)
    {
      hide Follows, Step, Linked, Owned, CaseOf, CasesOf, Store.Contents, Store.Valid, InSequence;
      ghost var n0, db0, l0 := outside.asked, store.Contents(), Hook(notice, Receive);
      NoStep(cfg, outside.answers, n0, db0, l0);
      var given := outside.Ask();
      ghost var n1, c := outside.asked, FreshFrom(given);
      ReceiveStepIs(cfg, db0, notice, c);
      trace := [] + [c];
      if notice.externalId == "" || notice.paymentId == "" || notice.eventType != "payment.paid" {
        end := Fail(Unresolved);
        Onward(cfg, outside.answers, n0, db0, l0, [], db0, l0, n0, c, db0, end);
        reply := Reply(None, Some(Unresolved));
        return;
      }
      var _ := store.RecordProviderEvent(
        ProviderEvent(given.id, notice.connectionId, notice.externalId, notice.paymentId, given.now, None));
      ghost var db1, l1, more := store.Contents(), Hook(notice, FindCharge), [];
      Onward(cfg, outside.answers, n0, db0, l0, [], db0, l0, n0, c, db1, l1);
      forall p ensures InSequence(AttemptsOf(db1, p)) { assert AttemptsOf(db1, p) == AttemptsOf(db0, p); }
      reply, more, end := PayCharged(notice);
      FollowsAppend(cfg, outside.answers, n0, db0, l0, trace, db1, l1, n1, more, store.Contents(), end, outside.asked);
      trace := trace + more;
    }

    // The recorded notification: find the charge, mark the payment paid, mark the event processed.
    method PayCharged(notice: Notice) returns (reply: Reply, ghost trace: seq<Choice>, ghost end: Local)
      requires store.Homed() && forall p :: InSequence(AttemptsOf(store.Contents(), p))
      modifies store, outside
      ensures Did(old(outside.asked), old(store.Contents()), Hook(notice, FindCharge), trace, end) && Replies(end, reply)
    {
      hide Follows, Step, Linked, Owned, CaseOf, CasesOf, Store.Contents, Store.Valid, InSequence;
      ghost var n0, db0, l0, more := outside.asked, store.Contents(), Hook(notice, FindCharge), [];
      NoStep(cfg, outside.answers, n0, db0, l0);
      var charged := store.GetAttemptByProviderPaymentID(notice.connectionId, notice.paymentId);
      if charged.Err? {
        NoChargeStepIs(cfg, db0, notice);
        end := Fail(NotFound);
        Onward(cfg, outside.answers, n0, db0, l0, [], db0, l0, n0, Missing, db0, end);
        return Reply(None, Some(NotFound)), [] + [Missing], end;
      }
      var attempt := charged.value;
      ghost var p, i: nat :| ChargedAt(db0, notice.connectionId, notice.paymentId, p, i) && db0.cases[p].attempts[i] == attempt;
      ghost var l1 := Hook(notice, ReadIntent(attempt.intentId, attempt.id));
      ChargeStepIs(cfg, db0, notice, p, i);
      Onward(cfg, outside.answers, n0, db0, l0, [], db0, l0, n0, Found(p, i), db0, l1);
      trace := [] + [Found(p, i)];
      reply, more, end := MarkPaidWithOutbox(attempt.intentId, attempt.id, notice);
      FollowsAppend(cfg, outside.answers, n0, db0, l0, trace, db0, l1, n0, more, store.Contents(), end, outside.asked);
      trace := trace + more;
      if reply.error.Some? {
        return;
      }
      ghost var db2, l2, n2 := store.Contents(), end, outside.asked;
      reply, more, end := FinishEvent(notice, reply.intent.value);
      FollowsAppend(cfg, outside.answers, n0, db0, l0, trace, db2, l2, n2, more, store.Contents(), end, outside.asked);
      trace := trace + more;
    }

    method FinishEvent(notice: Notice, intent: Intent) returns (reply: Reply, ghost trace: seq<Choice>, ghost end: Local)
      requires store.Homed()
      modifies store, outside
      ensures Did(old(outside.asked), old(store.Contents()), Hook(notice, Processed(intent)), trace, end)
      ensures Replies(end, reply)
    {
      hide Follows, Step, Linked, Owned, CaseOf, CasesOf, Store.Contents, Store.Valid;
      ghost var n0, db0, l0 := outside.asked, store.Contents(), Hook(notice, Processed(intent));
      NoStep(cfg, outside.answers, n0, db0, l0);
      var given := outside.Ask();
      var error := store.MarkProviderEventProcessed(notice.connectionId, notice.externalId, given.now);
      ghost var c := FreshFrom(given);
      ProcessedStepIs(cfg, db0, notice, intent, c);
      end := if error.Some? then Fail(error.value) else HookDone(intent);
      Onward(cfg, outside.answers, n0, db0, l0, [], db0, l0, n0, c, store.Contents(), end);
      trace := [] + [c];
      reply := if error.Some? then Reply(None, error) else Reply(Some(intent), None);
    }

    method MarkPaidWithOutbox(payment: string, attemptId: string, ghost notice: Notice)
      returns (reply: Reply, ghost trace: seq<Choice>, ghost end: Local)
      requires store.Homed() && InSequence(AttemptsOf(store.Contents(), payment))
      modifies store, outside
      ensures Did(old(outside.asked), old(store.Contents()), Hook(notice, ReadIntent(payment, attemptId)), trace, end)
      ensures if reply.error == None then reply.intent.Some? && end == Hook(notice, Processed(reply.intent.value))
              else Replies(end, reply)
    {
      hide Follows, Step, Linked, Owned, CaseOf, CasesOf, Store.Contents, Store.Valid, InSequence;
      ghost var n0, db0, l0 := outside.asked, store.Contents(), Hook(notice, ReadIntent(payment, attemptId));
      NoStep(cfg, outside.answers, n0, db0, l0);
      var got := store.GetPayment(payment);
      end := ReadIntentStep(db0, notice, payment, attemptId);
      IntentStepIs(cfg, db0, notice, payment, attemptId);
      Onward(cfg, outside.answers, n0, db0, l0, [], db0, l0, n0, Go, db0, end);
      trace := [] + [Go];
      if got.Err? {
        return Reply(None, Some(got.error)), trace, end;
      }
      var intent := got.value;
      if intent.status == Paid {
        return Reply(Some(intent), None), trace, end;
      }
      if intent.status != AwaitingPayment || intent.presented != attemptId {
        return Reply(None, Some(InvalidTransition)), trace, end;
      }
      ghost var l1, more := end, [];
      reply, more, end := PayPresented(intent, notice);
      FollowsAppend(cfg, outside.answers, n0, db0, l0, trace, db0, l1, n0, more, store.Contents(), end, outside.asked);
      trace := trace + more;
    }

    // MarkPaidWithOutbox for a payment that awaits exactly this charge.
    method PayPresented(intent: Intent, ghost notice: Notice)
      returns (reply: Reply, ghost trace: seq<Choice>, ghost end: Local)
      requires store.Homed() && InSequence(AttemptsOf(store.Contents(), intent.id))
      modifies store, outside
      ensures Did(old(outside.asked), old(store.Contents()), Hook(notice, ReadPresented(intent)), trace, end)
      ensures if reply.error == None then reply.intent.Some? && end == Hook(notice, Processed(reply.intent.value))
              else Replies(end, reply)
    {
      hide Follows, Step, Linked, Owned, CaseOf, CasesOf, Store.Contents, Store.Valid, InSequence;
      ghost var n0, db0, l0 := outside.asked, store.Contents(), Hook(notice, ReadPresented(intent));
      NoStep(cfg, outside.answers, n0, db0, l0);
      var found := store.GetAttempt(intent.presented);
      if found.Err? {
        NotPresentedStepIs(cfg, db0, notice, intent);
        end := Fail(NotFound);
        Onward(cfg, outside.answers, n0, db0, l0, [], db0, l0, n0, Missing, db0, end);
        return Reply(None, Some(NotFound)), [] + [Missing], end;
      }
      var attempt := found.value;
      ghost var p, i: nat :| AttemptAt(db0, intent.presented, p, i) && db0.cases[p].attempts[i] == attempt;
      end := if attempt.status != Succeeded then Fail(InvalidTransition) else Hook(notice, ReadHistory(intent, attempt));
      PresentedStepIs(cfg, db0, notice, intent, p, i);
      Onward(cfg, outside.answers, n0, db0, l0, [], db0, l0, n0, Found(p, i), db0, end);
      trace := [] + [Found(p, i)];
      if attempt.status != Succeeded {
        reply := Reply(None, Some(InvalidTransition));
        return;
      }
      ghost var l1, more := end, [];
      reply, more, end := SettlePayment(intent, attempt, notice);
      FollowsAppend(cfg, outside.answers, n0, db0, l0, trace, db0, l1, n0, more, store.Contents(), end, outside.asked);
      trace := trace + more;
    }

    method FirstFailure(attempts: seq<Attempt>, sequence: nat) returns (failed: Option<Attempt>)
      ensures failed == FirstSafeBefore(attempts, sequence)
    {
      for n := 0 to |attempts|
        invariant FirstSafeBefore(attempts, sequence) == FirstSafeBefore(attempts[n..], sequence)
      {
        if attempts[n].sequence < sequence && attempts[n].status == FailedSafe {
          return Some(attempts[n]);
        }
      }
      return None;
    }

    // One event says that the payment is paid; a second one, only for a recovered payment,
    // that it was recovered. Each has its own key, and both carry the payment's recovery.
    method PaymentMerchantEvents(intent: Intent, id: string, id2: string, now: Time) returns (events: seq<MerchantEvent>)
      ensures |events| == if intent.recovered then 2 else 1
      ensures forall e :: e in events ==>
                && e.workspace == intent.workspace && e.key.intentId == intent.id && e.createdAt == now
                && e.recovered == intent.recovered && e.recoveredAmount == intent.recoveredAmount
      ensures events[0].key.kind == PaymentPaid && events[0].id == id
      ensures intent.recovered ==> events[1].key.kind == PaymentRecovered && events[1].id == id2
      ensures events == EventsFor(intent, id, id2, now)
    {
      events := [EventFor(intent, PaymentPaid, id, now)];
      if intent.recovered {
        events := events + [EventFor(intent, PaymentRecovered, id2, now)];
      }
    }

    // The rest of MarkPaidWithOutbox: attribute the recovery, build the events, commit.
    method SettlePayment(awaited: Intent, attempt: Attempt, ghost notice: Notice)
      returns (reply: Reply, ghost trace: seq<Choice>, ghost end: Local)
      requires store.Homed() && InSequence(AttemptsOf(store.Contents(), awaited.id))
      modifies store, outside
      ensures Did(old(outside.asked), old(store.Contents()), Hook(notice, ReadHistory(awaited, attempt)), trace, end)
      ensures if reply.error == None then reply.intent.Some? && end == Hook(notice, Processed(reply.intent.value))
              else Replies(end, reply)
    {
      hide Follows, Step, FirstSafeBefore, EventsFor, Sort, InSequence, MarkPaid, Publish;
      hide Linked, Owned, CaseOf, CasesOf, Store.Contents, Store.Valid;
      ghost var n0, db0, l0 := outside.asked, store.Contents(), Hook(notice, ReadHistory(awaited, attempt));
      NoStep(cfg, outside.answers, n0, db0, l0);
      var given := outside.Ask();
      var now := given.now;
      var intent := awaited.(status := Paid, paidAt := Some(now));
      var attempts := store.ListAttempts(intent.id);
      SortKeepsSequence(AttemptsOf(db0, intent.id));
      var failed := FirstFailure(attempts, attempt.sequence);
      var recovery: Option<Recovery> := None;
      if failed.Some? {
        recovery := Some(Recovery(given.id, intent.id, failed.value.id, attempt.id, failed.value.failureCode, intent.amount, now));
        intent := intent.(recovered := true, recoveredAmount := intent.amount);
      }
      var events := PaymentMerchantEvents(intent, given.id2, given.id3, now);
      ghost var l1, c, n1 := Hook(notice, Commit(intent, recovery, events)), FreshFrom(given), outside.asked;
      HistoryStepIs(cfg, db0, notice, awaited, attempt, c);
      Onward(cfg, outside.answers, n0, db0, l0, [], db0, l0, n0, c, db0, l1);
      trace := [] + [c];
      ghost var more;
      reply, more, end := CommitPaid(intent, recovery, events, notice);
      FollowsAppend(cfg, outside.answers, n0, db0, l0, trace, db0, l1, n1, more, store.Contents(), end, n1);
      trace := trace + more;
    }

    method CommitPaid(intent: Intent, recovery: Option<Recovery>, events: seq<MerchantEvent>, ghost notice: Notice)
      returns (reply: Reply, ghost trace: seq<Choice>, ghost end: Local)
      requires store.Homed() && (recovery.Some? ==> recovery.value.intentId == intent.id)
      modifies store
      ensures Did(outside.asked, old(store.Contents()), Hook(notice, Commit(intent, recovery, events)), trace, end)
      ensures if reply.error == None then reply.intent.Some? && end == Hook(notice, Processed(reply.intent.value))
              else Replies(end, reply)
    {
      hide Follows, Step, MarkPaid, Publish, Linked, Owned, CaseOf, CasesOf, Store.Contents, Store.Valid;
      ghost var n0, db0, l0 := outside.asked, store.Contents(), Hook(notice, Commit(intent, recovery, events));
      NoStep(cfg, outside.answers, n0, db0, l0);
      var error := store.MarkPaymentPaidWithEvents(intent, recovery, events);
      CommitStepIs(cfg, db0, notice, intent, recovery, events);
      end := if error.Some? then Fail(error.value) else Hook(notice, Processed(intent));
      Onward(cfg, outside.answers, n0, db0, l0, [], db0, l0, n0, Go, store.Contents(), end);
      trace := [] + [Go];
      reply := if error.Some? then Reply(None, error) else Reply(Some(intent), None);
    }
  }
}
