// The order in which one routing call asks the providers.
module PaymentFallback {
  import opened Domain
  import opened Router
  import opened PaymentDb
  import opened PaymentMachine

  function Ids(connections: seq<Connection>): (r: seq<string>)
    ensures |r| == |connections|
    ensures forall i :: 0 <= i < |r| ==> r[i] == connections[i].id
  {
    seq(|connections|, i requires 0 <= i < |connections| => connections[i].id)
  }

  // The connections a thread sends requests to, in order. The stores are those it finds at
  // its steps: other threads may have changed anything in between.
  function Asked(cfg: Config, l: Local, stores: seq<Db>, choices: seq<Choice>): seq<string>
    requires |stores| == |choices|
    decreases |choices|
  {
    if choices == [] then []
    else
      (if l.Working? && l.stage.Send? && choices[0].Go? then [l.stage.attempt.connectionId] else [])
      + Asked(cfg, Step(cfg, stores[0], l, choices[0]).1, stores[1..], choices[1..])
  }

  function Arrives(cfg: Config, l: Local, stores: seq<Db>, choices: seq<Choice>): Local
    requires |stores| == |choices|
    decreases |choices|
  {
    if choices == [] then l
    else Arrives(cfg, Step(cfg, stores[0], l, choices[0]).1, stores[1..], choices[1..])
  }

  predicate FailsSafely(c: Choice) {
    (c.Answer? ==> c.outcome.CreateFailedSafe?) && (c.Resolve? ==> c.resolved)
  }

  // Every adapter is there and every request fails safely.
  predicate Failing(choices: seq<Choice>) {
    forall i :: 0 <= i < |choices| ==> FailsSafely(choices[i])
  }

  function Visited(cfg: Config, o: Origin, plan: Plan): seq<string> {
    if |plan.attempts| >= cfg.maxAttempts then []
    else Ids(Visits(plan.connections, ContextOf(cfg, o, plan), cfg.maxAttempts - |plan.attempts|))
  }

  // What a thread in the dispatch loop would still ask if everything failed safely.
  function Upcoming(cfg: Config, l: Local): seq<string> {
    if !l.Working? then []
    else
      match l.stage
      case Loop(plan) => Visited(cfg, l.origin, plan)
      case Activate(plan, a) => [a.connectionId] + Visited(cfg, l.origin, Tried(plan, a))
      case Prepare(plan, a) => [a.connectionId] + Visited(cfg, l.origin, Tried(plan, a))
      case Send(plan, a) => [a.connectionId] + Visited(cfg, l.origin, Tried(plan, a))
      case Await(plan, a) => Visited(cfg, l.origin, Tried(plan, a))
      case Record(plan, a, outcome) =>
        if outcome.CreateFailedSafe? then Visited(cfg, l.origin, Tried(plan, a)) else []
      case _ => []
  }

  // A thread that has entered the dispatch loop, or has left it by ending.
  predicate Dispatching(l: Local) {
    match l
    case Working(_, _, stage) =>
      stage.Loop? || stage.Activate? || stage.Prepare? || stage.Send? || stage.Await? || stage.Record? || stage.Finish?
    case Done(_, _, _) => true
    case Stopped(_) => true
    case _ => false
  }

  // Only the number of attempts and the excluded connections matter.
  lemma VisitedSame(cfg: Config, o: Origin, plan: Plan, plan': Plan)
    requires plan'.connections == plan.connections && plan'.health == plan.health && plan'.excluded == plan.excluded
    requires |plan'.attempts| == |plan.attempts|
    ensures Visited(cfg, o, plan') == Visited(cfg, o, plan)
  {
    assert ContextOf(cfg, o, plan') == ContextOf(cfg, o, plan);
  }

  lemma VisitedHead(cfg: Config, o: Origin, plan: Plan, attempt: Attempt)
    requires |plan.attempts| < cfg.maxAttempts
    ensures var chosen := Selection(plan.connections, ContextOf(cfg, o, plan)).selected;
            Visited(cfg, o, plan) ==
            if chosen.None? then []
            else [chosen.value.id] + Visited(cfg, o, Tried(plan, attempt.(connectionId := chosen.value.id)))
  {
    var ctx := ContextOf(cfg, o, plan);
    var chosen := Selection(plan.connections, ctx).selected;
    if chosen.Some? {
      var plan' := Tried(plan, attempt.(connectionId := chosen.value.id));
      var n := cfg.maxAttempts - |plan.attempts|;
      assert ContextOf(cfg, o, plan') == ctx.(excluded := ctx.excluded + {chosen.value.id});
      var rest := Visits(plan.connections, ContextOf(cfg, o, plan'), n - 1);
      assert Visits(plan.connections, ctx, n) == [chosen.value] + rest;
      assert Ids([chosen.value] + rest) == [chosen.value.id] + Ids(rest);
      if n == 1 { assert rest == []; }
    }
  }

  lemma LoopAsks(cfg: Config, db: Db, l: Local, c: Choice)
    requires l.Working? && l.stage.Loop?
    ensures var l' := Step(cfg, db, l, c).1;
            Dispatching(l') && (l'.Stopped? || Upcoming(cfg, l') == Upcoming(cfg, l))
  {
    hide Visited, Selection;
    if c.Fresh? && |l.stage.plan.attempts| < cfg.maxAttempts {
      var chosen := Selection(l.stage.plan.connections, ContextOf(cfg, l.origin, l.stage.plan)).selected;
      var a := NewAttempt(c.id, l.intent, |l.stage.plan.attempts| + 1, if chosen.Some? then chosen.value.id else "");
      VisitedHead(cfg, l.origin, l.stage.plan, a);
    } else {
      NothingLeft(cfg, l.origin, l.stage.plan);
    }
  }

  lemma NothingLeft(cfg: Config, o: Origin, plan: Plan)
    ensures |plan.attempts| >= cfg.maxAttempts ==> Visited(cfg, o, plan) == []
  {
  }

  // From l to l', the next connection is asked, or none; a failure or an end that is not due
  // to safe failures leaves the rest unasked.
  predicate AsksNext(cfg: Config, l: Local, c: Choice, l': Local) {
    var asked := if l.Working? && l.stage.Send? && c.Go? then [l.stage.attempt.connectionId] else [];
    && Dispatching(l')
    && asked + Upcoming(cfg, l') <= Upcoming(cfg, l)
    && (FailsSafely(c) && !l'.Stopped? ==> asked + Upcoming(cfg, l') == Upcoming(cfg, l))
  }

  lemma PrepareAsks(cfg: Config, db: Db, l: Local, c: Choice)
    requires l.Working? && l.stage.Prepare?
    ensures AsksNext(cfg, l, c, Step(cfg, db, l, c).1)
  {
    hide Visited;
    VisitedSame(cfg, l.origin, Tried(l.stage.plan, l.stage.attempt),
                Tried(l.stage.plan, l.stage.attempt.(status := Requesting)));
  }

  lemma RecordAsks(cfg: Config, db: Db, l: Local, c: Choice)
    requires l.Working? && l.stage.Record?
    ensures AsksNext(cfg, l, c, Step(cfg, db, l, c).1)
  {
    hide Visited;
    VisitedSame(cfg, l.origin, Tried(l.stage.plan, l.stage.attempt),
                Tried(l.stage.plan, Recorded(l.stage.attempt, l.stage.outcome)));
  }

  lemma OtherAsks(cfg: Config, db: Db, l: Local, c: Choice)
    requires Dispatching(l) && (l.Working? ==> !l.stage.Loop? && !l.stage.Prepare? && !l.stage.Record?)
    ensures AsksNext(cfg, l, c, Step(cfg, db, l, c).1)
  {
    hide Visited;
  }

  // Every step of the dispatch loop asks the next connection, or none.
  lemma StepAsks(cfg: Config, db: Db, l: Local, c: Choice)
    requires Dispatching(l)
    ensures AsksNext(cfg, l, c, Step(cfg, db, l, c).1)
  {
    hide Step, Visited;
    if l.Working? && l.stage.Loop? {
      LoopAsks(cfg, db, l, c);
    } else if l.Working? && l.stage.Prepare? {
      PrepareAsks(cfg, db, l, c);
    } else if l.Working? && l.stage.Record? {
      RecordAsks(cfg, db, l, c);
    } else {
      OtherAsks(cfg, db, l, c);
    }
  }

  lemma {:induction false} AsksInOrder(cfg: Config, l: Local, stores: seq<Db>, choices: seq<Choice>)
    requires |stores| == |choices| && Dispatching(l)
    ensures Asked(cfg, l, stores, choices) <= Upcoming(cfg, l)
    ensures Failing(choices) && Arrives(cfg, l, stores, choices).Done? ==> Asked(cfg, l, stores, choices) == Upcoming(cfg, l)
    decreases |choices|
  {
    hide Step, Visited;
    if choices != [] {
      var l' := Step(cfg, stores[0], l, choices[0]).1;
      StepAsks(cfg, stores[0], l, choices[0]);
      AsksInOrder(cfg, l', stores[1..], choices[1..]);
      if Failing(choices) && Arrives(cfg, l, stores, choices).Done? {
        EndedAsksNothing(cfg, l', stores[1..], choices[1..]);
      }
    }
  }

  lemma {:induction false} EndedAsksNothing(cfg: Config, l: Local, stores: seq<Db>, choices: seq<Choice>)
    requires |stores| == |choices|
    ensures l.Stopped? ==> Arrives(cfg, l, stores, choices) == l
    decreases |choices|
  {
    if choices != [] && l.Stopped? {
      EndedAsksNothing(cfg, l, stores[1..], choices[1..]);
    }
  }

  // Whatever the providers answer and whatever other threads do to the store, a routing
  // call asks connections in the order of their ranking, each at most once; when every
  // request fails safely it asks exactly the first `maxAttempts - earlier attempts`
  // eligible connections, or all of them if there are fewer.
  lemma FallbackFollowsRanking(cfg: Config, o: Origin, intent: Intent, plan: Plan, stores: seq<Db>,
      choices: seq<Choice>)
    requires |stores| == |choices| && DistinctIds(plan.connections) && |plan.attempts| <= cfg.maxAttempts
    ensures var l := Working(o, intent, Loop(plan));
            var ranking := Ids(Ranking(plan.connections, ContextOf(cfg, o, plan)));
            var n := cfg.maxAttempts - |plan.attempts|;
            var due := ranking[..if n < |ranking| then n else |ranking|];
            && Asked(cfg, l, stores, choices) <= due
            && (Failing(choices) && Arrives(cfg, l, stores, choices).Done? ==> Asked(cfg, l, stores, choices) == due)
  {
    hide Step, Ranking, Visits, Selection, Asked, Arrives, Failing;
    var l := Working(o, intent, Loop(plan));
    var ctx := ContextOf(cfg, o, plan);
    var n := cfg.maxAttempts - |plan.attempts|;
    AsksInOrder(cfg, l, stores, choices);
    VisitsFollowRanking(plan.connections, ctx, n);
    var ranking := Ranking(plan.connections, ctx);
    var k := if n < |ranking| then n else |ranking|;
    assert Ids(ranking[..k]) == Ids(ranking)[..k];
  }
}
