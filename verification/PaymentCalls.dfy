// Calls of the service are runs of the machine. A call that nobody else interrupts, while
// the providers create charges as they please, extends any run by its own steps: what holds
// in every run holds after the call, and what the next call needs holds too.
module PaymentCalls {
  import opened Domain
  import opened PaymentDb
  import opened PaymentMachine
  import opened PaymentInvariant
  import opened PaymentSafety
  import opened PaymentStore
  import opened PaymentTrace

  // What is assumed about the outside at a step: identifiers are new, ReconcilePayment is
  // given the payment's own environment, and a connector that denies a charge is right.
  ghost predicate Honest(db: Db, w: World, l: Local, c: Choice) {
    match l
    case CreateStart(_) => c.Fresh? ==> c.id != "" && c.id !in db.cases
    case ReconcileStart(payment, env) =>
      payment in db.cases ==> db.cases[payment].intent.fingerprint.environment == env
    case Working(_, _, stage) =>
      (match (stage, c)
       case (Loop(_), Fresh(id, _, _, _)) => id != ""
       case (Await(_, attempt), Answer(CreateFailedSafe(_, _))) => attempt.id !in w.live
       case (Query(attempt), Verified(NotCreated(_))) => attempt.id !in w.live
       case (_, _) => true)
    case _ => true
  }

  // The rest of what the machine allows is what a call that follows the code does.
  lemma FittingIsAllowed(db: Db, w: World, l: Local, c: Choice)
    requires Fitting(db, l, c) && Honest(db, w, l, c)
    ensures Allowed(db, w, l, c)
  {
  }

  // The steps that thread t makes among these actions.
  function Choices(t: nat, actions: seq<Action>): seq<Choice>
    decreases |actions|
  {
    if actions == [] then []
    else
      var before, a := Choices(t, actions[..|actions| - 1]), actions[|actions| - 1];
      if a.Run? && a.thread == t then before + [a.choice] else before
  }

  function After(cfg: Config, s: Sys, actions: seq<Action>): Sys
    decreases |actions|
  {
    if actions == [] then s
    else Apply(cfg, After(cfg, s, actions[..|actions| - 1]), actions[|actions| - 1])
  }

  // From s, thread t and the providers act alone, and the outside keeps what is assumed of it.
  ghost predicate Trusted(cfg: Config, s: Sys, t: nat, actions: seq<Action>)
    decreases |actions|
  {
    || actions == []
    || (var before, a := actions[..|actions| - 1], actions[|actions| - 1];
        var s' := After(cfg, s, before);
        && Trusted(cfg, s, t, before)
        && match a
           case Run(u, c) =>
             u == t && t in s'.threads && Honest(s'.db, s'.world, s'.threads[t], c) && Undisturbed(s', t, c)
           case Charge(_) => Enabled(s', a)
           case _ => false)
  }

  ghost predicate AllEnabled(cfg: Config, s: Sys, actions: seq<Action>)
    decreases |actions|
  {
    || actions == []
    || (var before := actions[..|actions| - 1];
        AllEnabled(cfg, s, before) && Enabled(After(cfg, s, before), actions[|actions| - 1]))
  }

  // A call that follows the code, among trusted actions, makes enabled steps only, and ends
  // with the store and the reply that its contract gives.
  lemma {:induction false} CallSteps(cfg: Config, s: Sys, t: nat, actions: seq<Action>,
      answers: nat -> Answers, from: nat, db': Db, l': Local, to: nat)
    requires t in s.threads && Trusted(cfg, s, t, actions)
    requires Follows(cfg, answers, from, s.db, s.threads[t], Choices(t, actions), db', l', to)
    ensures AllEnabled(cfg, s, actions)
    ensures var s' := After(cfg, s, actions); s'.db == db' && s'.threads == s.threads[t := l']
    decreases |actions|
  {
    hide Step, Fitting, Honest, Says, Allowed, Undisturbed, WorldAfter;
    if actions != [] {
      var before, a := actions[..|actions| - 1], actions[|actions| - 1];
      var trace := Choices(t, actions);
      if a.Run? {
        assert trace[..|trace| - 1] == Choices(t, before);
        var (db1, l1) := Drive(cfg, s.db, s.threads[t], Choices(t, before));
        CallSteps(cfg, s, t, before, answers, from, db1, l1, if Asks(a.choice) then to - 1 else to);
        FittingIsAllowed(db1, After(cfg, s, before).world, l1, a.choice);
      } else {
        CallSteps(cfg, s, t, before, answers, from, db', l', to);
      }
    }
  }

  // A call of the service, begun where the invariant holds, keeps it.
  lemma {:induction false} CallSafe(cfg: Config, s: Sys, t: nat, start: Local, actions: seq<Action>,
      answers: nat -> Answers, from: nat, db': Db, l': Local, to: nat)
    requires Inv(cfg, s) && Enabled(s, Spawn(t, start)) && Trusted(cfg, Apply(cfg, s, Spawn(t, start)), t, actions)
    requires Follows(cfg, answers, from, s.db, start, Choices(t, actions), db', l', to)
    ensures var s' := After(cfg, Apply(cfg, s, Spawn(t, start)), actions);
            Inv(cfg, s') && s'.db == db' && s'.threads == s.threads[t := l']
  {
    hide Inv, Follows, Trusted, MayStart;
    var s0 := Apply(cfg, s, Spawn(t, start));
    ApplySafe(cfg, s, Spawn(t, start));
    CallSteps(cfg, s0, t, actions, answers, from, db', l', to);
    EnabledSafe(cfg, s0, actions);
  }

  lemma {:induction false} EnabledSafe(cfg: Config, s: Sys, actions: seq<Action>)
    requires Inv(cfg, s) && AllEnabled(cfg, s, actions)
    ensures Inv(cfg, After(cfg, s, actions))
    decreases |actions|
  {
    hide Inv, Enabled, Apply;
    if actions != [] {
      EnabledSafe(cfg, s, actions[..|actions| - 1]);
      ApplySafe(cfg, After(cfg, s, actions[..|actions| - 1]), actions[|actions| - 1]);
    }
  }

  function Last(h: History): Sys
    requires h.states != []
  {
    h.states[|h.states| - 1]
  }

  // h' is a run that goes on where h ends.
  ghost predicate Extends(cfg: Config, h: History, h': History) {
    IsRun(cfg, h) && IsRun(cfg, h') && h.states <= h'.states && h.actions <= h'.actions
  }

  lemma {:induction false} EnabledIsRun(cfg: Config, h: History, actions: seq<Action>) returns (h': History)
    requires h.states != [] && IsRun(cfg, h) && AllEnabled(cfg, Last(h), actions)
    ensures Extends(cfg, h, h') && h'.states != [] && Last(h') == After(cfg, Last(h), actions)
    decreases |actions|
  {
    hide Enabled, Apply;
    h' := h;
    if actions != [] {
      var n := |actions| - 1;
      h' := EnabledIsRun(cfg, h, actions[..n]);
      h' := History(h'.states + [Apply(cfg, Last(h'), actions[n])], h'.actions + [actions[n]]);
    }
  }

  // A call of the service after any run is a longer run: what holds in every run holds
  // after it, and while it goes on.
  lemma CallIsRun(cfg: Config, h: History, t: nat, start: Local, actions: seq<Action>,
      answers: nat -> Answers, from: nat, db': Db, l': Local, to: nat) returns (h': History)
    requires h.states != [] && IsRun(cfg, h) && Enabled(Last(h), Spawn(t, start))
    requires Trusted(cfg, Apply(cfg, Last(h), Spawn(t, start)), t, actions)
    requires Follows(cfg, answers, from, Last(h).db, start, Choices(t, actions), db', l', to)
    ensures Extends(cfg, h, h') && h'.states != []
    ensures Last(h').db == db' && Last(h').threads == Last(h).threads[t := l']
  {
    hide IsRun, Follows, Trusted, MayStart;
    var h0 := EnabledIsRun(cfg, h, [Spawn(t, start)]);
    assert [Spawn(t, start)][..0] == [];
    CallSteps(cfg, Last(h0), t, actions, answers, from, db', l', to);
    h' := EnabledIsRun(cfg, h0, actions);
  }

  // In every reachable state the attempts of a payment are numbered upwards, as the service
  // and the store rely on.
  lemma AttemptsInSequence(cfg: Config, h: History, k: nat, p: string)
    requires IsRun(cfg, h) && k < |h.states|
    ensures InSequence(AttemptsOf(h.states[k].db, p))
  {
    hide Apply, Enabled;
    RunSafe(cfg, h, k);
    var s := h.states[k];
    if p in s.db.cases {
      var c := s.db.cases[p];
      assert CaseOk(cfg.maxAttempts, p, c, s.world, s.db.providers);
      forall i | 0 <= i < |c.attempts| ensures c.attempts[i].sequence == i + 1 {
        assert AttemptOk(c, i, s.world, s.db.providers);
      }
    }
  }
}
