// The invariant holds in every state of every run.
module PaymentSafety {
  import opened Domain
  import opened Router
  import opened PaymentDb
  import opened PaymentMachine
  import opened PaymentInvariant
  import opened PaymentSteps
  import PaymentTrace

  // ---------- What a change of one payment leaves alone ----------

  lemma CaseGrows(max: nat, p: string, c: Case, w: World, w': World, providers: Providers)
    requires CaseOk(max, p, c, w, providers) && Grows(w, w')
    ensures CaseOk(max, p, c, w', providers)
  {
    SameLedger(max, c, c, w, w', providers);
  }

  lemma StageGrows(stage: Stage, o: Origin, c: Case, w: World, w': World, providers: Providers)
    requires StageOk(stage, o, c, w, providers) && Grows(w, w')
    ensures StageOk(stage, o, c, w', providers)
  {
  }

  // A change of payment p that keeps its identity and does not touch payment status Paid.
  ghost predicate Quiet(p: string, db: Db, db': Db) {
    && p in db.cases && p in db'.cases
    && db' == Put(db, p, db'.cases[p])
    && var i, i' := db.cases[p].intent, db'.cases[p].intent;
       && i'.id == i.id && i'.workspace == i.workspace && i'.idempotencyKey == i.idempotencyKey
       && i'.fingerprint == i.fingerprint
  }

  lemma IdempotencyKept(p: string, db: Db, db': Db)
    requires Quiet(p, db, db') && IdempotencyOk(db)
    ensures IdempotencyOk(db')
  {
  }

  lemma EventsStayTrue(db: Db, db': Db)
    requires EventsTrue(db) && db'.outbox == db.outbox
    requires forall key :: Emitted(db, key) ==>
               && Emitted(db', key)
               && var i, i' := db.cases[key.intentId].intent, db'.cases[key.intentId].intent;
                  i'.workspace == i.workspace && i'.recovered == i.recovered && i'.recoveredAmount == i.recoveredAmount
    ensures EventsTrue(db')
  {
    forall workspace: string, i: nat | i < |Events(db', workspace)| ensures EventTrue(db', workspace, Events(db', workspace)[i]) {
      assert EventTrue(db, workspace, Events(db, workspace)[i]);
    }
  }

  // The same events are due, and the same ones are there.
  lemma CountsStay(db: Db, db': Db)
    requires CountsOk(db) && db'.outbox == db.outbox && db'.outboxKeys == db.outboxKeys
    requires forall key :: Emitted(db', key) == Emitted(db, key)
    requires forall key :: Emitted(db, key) ==>
               && Emitted(db', key)
               && db'.cases[key.intentId].intent.workspace == db.cases[key.intentId].intent.workspace
    ensures CountsOk(db')
  {
    forall workspace: string, key: EventKey
      ensures Count(Events(db', workspace), key) ==
              if Emitted(db', key) && db'.cases[key.intentId].intent.workspace == workspace then 1 else 0
    {
      assert Events(db', workspace) == Events(db, workspace);
      assert Emitted(db', key) == Emitted(db, key);
      assert Count(Events(db, workspace), key) ==
             if Emitted(db, key) && db.cases[key.intentId].intent.workspace == workspace then 1 else 0;
    }
    forall key ensures key in db'.outboxKeys <==> Emitted(db', key) {
      assert Emitted(db', key) == Emitted(db, key);
    }
  }

  lemma OutboxKept(p: string, db: Db, db': Db)
    requires Quiet(p, db, db') && OutboxOk(db)
    requires db.cases[p].intent.status != Paid && db'.cases[p].intent.status != Paid
    ensures OutboxOk(db')
  {
    hide CountsOk, EventsTrue;
    CountsStay(db, db');
    EventsStayTrue(db, db');
  }

  lemma HomeKept(max: nat, p: string, db: Db, db': Db, w: World, w': World)
    requires Quiet(p, db, db') && HomeOk(db, w)
    requires CaseMoves(max, db.cases[p], db'.cases[p])
    requires Grows(w, w') && Homed(p, w, db'.cases[p], w')
    ensures HomeOk(db', w')
  {
    forall id | id in w'.home ensures AttemptAt(db', id, w'.home[id].0, w'.home[id].1) {
      if id in w.home { assert AttemptAt(db, id, w.home[id].0, w.home[id].1); }
    }
  }

  // Other threads do not notice.
  lemma ThreadKept(p: string, db: Db, db': Db, w: World, w': World, l: Local)
    requires Quiet(p, db, db') && Grows(w, w') && ThreadOk(db, w, l)
    requires Holds(l) != Some(p)
    requires db.cases[p].intent.status != AwaitingPayment && db.cases[p].intent.status != Paid
    ensures ThreadOk(db', w', l)
  {
    match l
    case Working(o, intent, stage) => StageGrows(stage, o, db.cases[intent.id], w, w', db.providers);
    case _ =>
  }

  lemma CasesKept(max: nat, p: string, db: Db, db': Db, w: World, w': World)
    requires Quiet(p, db, db') && Grows(w, w') && CasesOk(max, db, w)
    requires CaseOk(max, p, db'.cases[p], w', db.providers)
    ensures CasesOk(max, db', w')
  {
    forall q | q in db'.cases ensures CaseOk(max, q, db'.cases[q], w', db'.providers) {
      if q != p { CaseGrows(max, q, db.cases[q], w, w', db.providers); }
    }
  }

  lemma HolderSafe(cfg: Config, s: Sys, t: nat, c: Choice)
    requires Inv(cfg, s) && t in s.threads && s.threads[t].Working? && Allowed(s.db, s.world, s.threads[t], c)
    ensures Inv(cfg, Apply(cfg, s, Run(t, c)))
  {
    hide StepGood, CaseOk, WorkStep, WorldAfter, OutboxOk;
    var l := s.threads[t];
    var p := l.intent.id;
    assert ThreadOk(s.db, s.world, l);
    WorkingStep(cfg, s.db, s.world, l.origin, l.intent, l.stage, c);
    var s' := Apply(cfg, s, Run(t, c));
    HolderInstalls(cfg, s, t, s'.db, s'.world, s'.threads[t]);
  }

  lemma HeldIsOpen(o: Origin, intent: Intent, stage: Stage, c: Case, w: World, providers: Providers)
    requires HoldOk(o, intent, stage, c, w, providers)
    ensures c.intent.status !in {AwaitingPayment, Paid}
  {
  }

  lemma HolderInstalls(cfg: Config, s: Sys, t: nat, db': Db, w': World, l': Local)
    requires Inv(cfg, s) && t in s.threads && s.threads[t].Working? && ThreadOk(s.db, s.world, s.threads[t])
    requires var l := s.threads[t]; StepGood(cfg.maxAttempts, l.intent.id, s.db, s.world, l.origin, db', w', l')
    ensures Inv(cfg, Sys(db', w', s.threads[t := l']))
  {
    hide LedgerOk, StatusOk, OutboxOk, Rank, HoldOk;
    var l := s.threads[t];
    var p := l.intent.id;
    var db, w := s.db, s.world;
    HeldIsOpen(l.origin, l.intent, l.stage, db.cases[p], w, db.providers);
    CasesKept(cfg.maxAttempts, p, db, db', w, w');
    HomeKept(cfg.maxAttempts, p, db, db', w, w');
    IdempotencyKept(p, db, db');
    OutboxKept(p, db, db');
    HolderThreads(cfg, s, t, db', w', l');
  }

  lemma HolderThreads(cfg: Config, s: Sys, t: nat, db': Db, w': World, l': Local)
    requires t in s.threads && s.threads[t].Working?
    requires ThreadsOk(s.db, s.world, s.threads) && Exclusive(s.threads) && IdempotencyOk(s.db)
    requires var l := s.threads[t];
             StepGood(cfg.maxAttempts, l.intent.id, s.db, s.world, l.origin, db', w', l')
             && s.db.cases[l.intent.id].intent.status !in {AwaitingPayment, Paid}
             && HoldOk(l.origin, l.intent, l.stage, s.db.cases[l.intent.id], s.world, s.db.providers)
    ensures ThreadsOk(db', w', s.threads[t := l']) && Exclusive(s.threads[t := l'])
  {
    hide CaseOk, Rank, StageOk;
    var p := s.threads[t].intent.id;
    var threads' := s.threads[t := l'];
    forall u | u in threads' ensures ThreadOk(db', w', threads'[u]) {
      if u != t {
        assert ThreadOk(s.db, s.world, s.threads[u]);
        assert Holds(s.threads[t]) == Some(p);
        ThreadKept(p, s.db, db', s.world, w', s.threads[u]);
      }
    }
    assert Holds(l') == None || Holds(l') == Holds(s.threads[t]);
  }

  // ---------- Beginning a call ----------

  lemma SpawnSafe(cfg: Config, s: Sys, t: nat, l: Local)
    requires Inv(cfg, s) && t !in s.threads && MayStart(l)
    ensures Inv(cfg, Apply(cfg, s, Spawn(t, l)))
  {
    var s' := Apply(cfg, s, Spawn(t, l));
    forall u | u in s'.threads ensures ThreadOk(s'.db, s'.world, s'.threads[u]) {
      if u != t { assert ThreadOk(s.db, s.world, s.threads[u]); }
    }
  }

  // Whatever payment l' holds, nobody else does.
  ghost predicate Unheld(s: Sys, t: nat, l': Local) {
    l'.Working? ==> forall u :: u in s.threads && u != t ==> Holds(s.threads[u]) != Holds(l')
  }

  // A step that only moves a thread, or touches the provider-event ledger.
  lemma ThreadMoves(cfg: Config, s: Sys, t: nat, db': Db, l': Local)
    requires Inv(cfg, s) && t in s.threads
    requires db' == s.db.(providerEvents := db'.providerEvents)
    requires ThreadOk(s.db, s.world, l')
    requires Unheld(s, t, l')
    ensures Inv(cfg, Sys(db', s.world, s.threads[t := l']))
  {
    hide CaseOk, Known;
    MovedThreads(s, t, db', l');
    SameOutbox(s.db, db');
  }

  lemma MovedThreads(s: Sys, t: nat, db': Db, l': Local)
    requires t in s.threads && ThreadsOk(s.db, s.world, s.threads) && Exclusive(s.threads)
    requires db' == s.db.(providerEvents := db'.providerEvents)
    requires ThreadOk(s.db, s.world, l')
    requires Unheld(s, t, l')
    ensures ThreadsOk(db', s.world, s.threads[t := l']) && Exclusive(s.threads[t := l'])
  {
    var threads' := s.threads[t := l'];
    forall u | u in threads' ensures ThreadOk(db', s.world, threads'[u]) {
      assert u != t ==> ThreadOk(s.db, s.world, s.threads[u]);
      assert ThreadOk(s.db, s.world, threads'[u]);
    }
    forall u, v | u in threads' && v in threads' && u != v && Holds(threads'[u]).Some?
      ensures Holds(threads'[u]) != Holds(threads'[v])
    {
      assert u != t && v != t ==> Holds(s.threads[u]) != Holds(s.threads[v]);
    }
  }

  // ---------- Creating ----------

  lemma CreateSafe(cfg: Config, s: Sys, t: nat, c: Choice)
    requires Inv(cfg, s) && t in s.threads && s.threads[t].CreateStart? && Allowed(s.db, s.world, s.threads[t], c)
    ensures Inv(cfg, Apply(cfg, s, Run(t, c)))
  {
    hide Inv, CreateStep, Step;
    var req := s.threads[t].req;
    CreateIs(cfg, s.db, req, c);
    if !c.Fresh? {
      CreateMoves(cfg, s, t, req, if c.Reread? then CreateReread(req) else Stopped(None));
    } else if JoinKey(req.content.workspace, req.idempotencyKey) in s.db.idempotency {
      CreateTaken(cfg, s, t, req, c.id);
    } else {
      AdmitNew(cfg, s, t, req, c.id);
    }
  }

  lemma CreateIs(cfg: Config, db: Db, req: Request, c: Choice)
    ensures Step(cfg, db, CreateStart(req), c)
         == if c.Fresh? then CreateStep(db, req, c.id) else (db, if c.Reread? then CreateReread(req) else Stopped(None))
  {
  }

  lemma CreateMoves(cfg: Config, s: Sys, t: nat, req: Request, l': Local)
    requires Inv(cfg, s) && t in s.threads && (l' == CreateReread(req) || l'.Stopped?)
    ensures Inv(cfg, Sys(s.db, s.world, s.threads[t := l']))
  {
    hide CaseOk, OutboxOk, IdempotencyOk;
    ThreadMoves(cfg, s, t, s.db, l');
  }

  // The key is taken: the call finds its own payment, or is refused.
  lemma CreateTaken(cfg: Config, s: Sys, t: nat, req: Request, id: string)
    requires Inv(cfg, s) && t in s.threads
    requires JoinKey(req.content.workspace, req.idempotencyKey) in s.db.idempotency
    ensures var (db', l') := CreateStep(s.db, req, id); Inv(cfg, Sys(db', s.world, s.threads[t := l']))
  {
    hide CaseOk, OutboxOk, CreateStep;
    CasesNamed(cfg.maxAttempts, s.db, s.world);
    TakenKeyOk(s.db, s.world, req, id);
    ThreadMoves(cfg, s, t, s.db, CreateStep(s.db, req, id).1);
  }

  lemma TakenKeyOk(db: Db, w: World, req: Request, id: string)
    requires IdempotencyOk(db) && JoinKey(req.content.workspace, req.idempotencyKey) in db.idempotency
    requires forall p :: p in db.cases ==>
               db.cases[p].intent.workspace == db.cases[p].intent.fingerprint.workspace && db.cases[p].intent.id == p
    ensures var (db', l') := CreateStep(db, req, id);
            db' == db && ThreadOk(db, w, l') && (l'.Done? || l'.Stopped?)
  {
    if db.idempotency[JoinKey(req.content.workspace, req.idempotencyKey)].fingerprint == req.content { Rebinds(db, req); }
  }

  // The row found under a request's key answers that very request.
  lemma Rebinds(db: Db, req: Request)
    requires IdempotencyOk(db)
    requires var key := JoinKey(req.content.workspace, req.idempotencyKey);
             key in db.idempotency && db.idempotency[key].fingerprint == req.content
    requires forall p :: p in db.cases ==>
               db.cases[p].intent.workspace == db.cases[p].intent.fingerprint.workspace && db.cases[p].intent.id == p
    ensures var key := JoinKey(req.content.workspace, req.idempotencyKey);
            db.idempotency[key].paymentId in db.cases
            && Bound(db, req, db.cases[db.idempotency[key].paymentId].intent)
  {
    var key := JoinKey(req.content.workspace, req.idempotencyKey);
    var intent := db.cases[db.idempotency[key].paymentId].intent;
    JoinKeyInjective(intent.workspace, intent.idempotencyKey, req.content.workspace, req.idempotencyKey);
  }

  lemma AdmitNew(cfg: Config, s: Sys, t: nat, req: Request, id: string)
    requires Inv(cfg, s) && t in s.threads && id != "" && id !in s.db.cases
    requires s.threads[t] == CreateStart(req)
    requires JoinKey(req.content.workspace, req.idempotencyKey) !in s.db.idempotency
    ensures var (db', l') := CreateStep(s.db, req, id); Inv(cfg, Sys(db', s.world, s.threads[t := l']))
  {
    hide OutboxOk, CaseOk, IdempotencyOk;
    var (db', l') := CreateStep(s.db, req, id);
    assert l' == Working(ByCreate(req), NewIntent(id, req), Admit);
    AdmitCases(cfg.maxAttempts, s.db, db', s.world, req, id);
    AdmitIndexes(s.db, db', req, id);
    AdmitThreads(s, t, db', l');
  }

  lemma AdmitCases(max: nat, db: Db, db': Db, w: World, req: Request, id: string)
    requires CasesOk(max, db, w) && HomeOk(db, w) && id != "" && id !in db.cases
    requires db'.cases == db.cases[id := Case(NewIntent(id, req), [], [], [])] && db'.providers == db.providers
    ensures CasesOk(max, db', w) && HomeOk(db', w)
  {
    forall p | p in db'.cases ensures CaseOk(max, p, db'.cases[p], w, db'.providers) {
      assert p != id ==> CaseOk(max, p, db.cases[p], w, db.providers);
    }
    forall a | a in w.home ensures AttemptAt(db', a, w.home[a].0, w.home[a].1) {
      assert AttemptAt(db, a, w.home[a].0, w.home[a].1);
    }
  }

  lemma AdmitIndexes(db: Db, db': Db, req: Request, id: string)
    requires IdempotencyOk(db) && OutboxOk(db) && id !in db.cases
    requires var key := JoinKey(req.content.workspace, req.idempotencyKey);
             && key !in db.idempotency
             && db' == db.(cases := db.cases[id := Case(NewIntent(id, req), [], [], [])],
                           idempotency := db.idempotency[key := IdempotencyRecord(id, req.content)])
    ensures IdempotencyOk(db') && OutboxOk(db')
  {
    hide CountsOk, EventsTrue;
    CountsStay(db, db');
    EventsStayTrue(db, db');
  }

  lemma AdmitThreads(s: Sys, t: nat, db': Db, l': Local)
    requires ThreadsOk(s.db, s.world, s.threads) && Exclusive(s.threads) && t in s.threads
    requires l'.Working? && l'.origin.ByCreate? && l'.intent.id !in s.db.cases
    requires db'.providers == s.db.providers && ThreadOk(db', s.world, l')
    requires forall p :: p in s.db.cases ==> p in db'.cases && db'.cases[p] == s.db.cases[p]
    requires forall k :: k in s.db.idempotency ==> k in db'.idempotency && db'.idempotency[k] == s.db.idempotency[k]
    ensures ThreadsOk(db', s.world, s.threads[t := l']) && Exclusive(s.threads[t := l'])
  {
    var threads' := s.threads[t := l'];
    forall u | u in threads' ensures ThreadOk(db', s.world, threads'[u]) {
      if u != t { assert ThreadOk(s.db, s.world, s.threads[u]); }
    }
    forall u | u in s.threads ensures Holds(s.threads[u]) != Holds(l') {
      assert ThreadOk(s.db, s.world, s.threads[u]);
    }
  }

  // ---------- Webhooks ----------

  // With every earlier attempt safely failed, the scan finds the first attempt, if there
  // is one before the paid attempt.
  lemma RecoveryFound(max: nat, p: string, c: Case, w: World, providers: Providers, id: string, now: Time)
    requires CaseOk(max, p, c, w, providers) && |c.attempts| > 0
    ensures var last := c.attempts[|c.attempts| - 1];
            var r := RecoveryFor(c.intent, c.attempts, last, id, now);
            if |c.attempts| > 1 then
              r == Some(Recovery(id, p, c.attempts[0].id, last.id, c.attempts[0].failureCode, c.intent.amount, now))
            else r == None
  {
    assert AttemptOk(c, 0, w, providers) && AttemptOk(c, |c.attempts| - 1, w, providers);
    if |c.attempts| == 1 {
      assert FirstSafeBefore(c.attempts[1..], 1) == None;
    }
  }

  lemma HistoryStep(cfg: Config, db: Db, w: World, intent: Intent, a: Attempt, c: Choice, notice: Notice)
    requires HookOk(db, ReadHistory(intent, a)) && c.Fresh?
    requires CaseOk(cfg.maxAttempts, intent.id, db.cases[intent.id], w, db.providers)
    ensures ThreadOk(db, w, ReadHistoryStep(db, notice, intent, a, c))
  {
    var case0 := db.cases[intent.id];
    RecoveryFound(cfg.maxAttempts, intent.id, case0.(intent := case0.intent), w, db.providers, c.id, c.now);
    var recovery := RecoveryFor(intent, case0.attempts, a, c.id, c.now);
    assert recovery == RecoveryFor(case0.intent, case0.attempts, a, c.id, c.now);
    var paid := PaidIntent(intent, recovery.Some?, c.now);
    assert RecoveryOk(case0.(intent := paid, recoveries := if recovery.Some? then [recovery.value] else []));
    assert CommitOk(paid, recovery, EventsFor(paid, c.id2, c.id3, c.now), case0);
  }

  lemma ReadIntentOk(max: nat, db: Db, w: World, notice: Notice, payment: string, attemptId: string)
    requires payment in db.cases ==> CaseOk(max, payment, db.cases[payment], w, db.providers)
    ensures ThreadOk(db, w, ReadIntentStep(db, notice, payment, attemptId))
  {
  }

  lemma ReadPresentedOk(max: nat, db: Db, w: World, notice: Notice, intent: Intent, c: Choice)
    requires HookOk(db, ReadPresented(intent)) && CaseOk(max, intent.id, db.cases[intent.id], w, db.providers)
    requires c.Found? ==> AttemptAt(db, intent.presented, c.payment, c.index)
    requires c.Found? ==> CaseOk(max, c.payment, db.cases[c.payment], w, db.providers)
    ensures ThreadOk(db, w, HookStep(db, notice, ReadPresented(intent), c).1)
  {
    if c.Found? { FoundActive(max, intent.id, db, w, intent.presented, c.payment, c.index); }
  }

  lemma HookReadsOk(cfg: Config, db: Db, w: World, notice: Notice, stage: HookStage, c: Choice)
    requires CasesOk(cfg.maxAttempts, db, w) && HookOk(db, stage) && !stage.Commit?
    requires Allowed(db, w, Hook(notice, stage), c)
    ensures ThreadOk(db, w, HookStep(db, notice, stage, c).1)
  {
    hide CaseOk;
    match stage {
      case ReadIntent(payment, attemptId) => ReadIntentOk(cfg.maxAttempts, db, w, notice, payment, attemptId);
      case ReadPresented(intent) => ReadPresentedOk(cfg.maxAttempts, db, w, notice, intent, c);
      case ReadHistory(intent, a) => if c.Fresh? { HistoryStep(cfg, db, w, intent, a, c, notice); }
      case _ =>
    }
  }

  lemma HookMoves(db: Db, notice: Notice, stage: HookStage, c: Choice)
    requires !stage.Commit?
    ensures var (db', l') := HookStep(db, notice, stage, c);
            db' == db.(providerEvents := db'.providerEvents) && !l'.Working? && !l'.ReconcileStart?
  {
  }

  lemma HookReads(cfg: Config, s: Sys, t: nat, c: Choice)
    requires Inv(cfg, s) && t in s.threads && s.threads[t].Hook? && !s.threads[t].hook.Commit?
    requires Allowed(s.db, s.world, s.threads[t], c)
    ensures Inv(cfg, Apply(cfg, s, Run(t, c)))
  {
    var Hook(notice, stage) := s.threads[t];
    assert ThreadOk(s.db, s.world, s.threads[t]);
    HookReadsOk(cfg, s.db, s.world, notice, stage, c);
    HookMoves(s.db, notice, stage, c);
    ThreadMoves(cfg, s, t, HookStep(s.db, notice, stage, c).0, HookStep(s.db, notice, stage, c).1);
  }

  lemma {:induction false} CountAppend(events: seq<MerchantEvent>, e: MerchantEvent, key: EventKey)
    ensures Count(events + [e], key) == Count(events, key) + if e.key == key then 1 else 0
  {
    assert (events + [e])[..|events|] == events;
  }

  lemma PublishCounts(db: Db, e: MerchantEvent, workspace: string, key: EventKey)
    ensures Count(Events(PublishOne(db, e), workspace), key)
         == Count(Events(db, workspace), key)
            + if e.key !in db.outboxKeys && e.key == key && e.workspace == workspace then 1 else 0
  {
    CountAppend(Events(db, e.workspace), e, key);
  }

  // Publishing the events of a payment: payment.paid, and payment.recovered if it is recovered.
  lemma PublishBoth(db: Db, intent: Intent, id: string, id2: string, now: Time)
    ensures var db' := PublishOne(db, EventFor(intent, PaymentPaid, id, now));
            Publish(db, EventsFor(intent, id, id2, now))
            == if intent.recovered then PublishOne(db', EventFor(intent, PaymentRecovered, id2, now)) else db'
  {
    var paid, recovered := EventFor(intent, PaymentPaid, id, now), EventFor(intent, PaymentRecovered, id2, now);
    var events := EventsFor(intent, id, id2, now);
    var db' := PublishOne(db, paid);
    if intent.recovered {
      assert events[1..] == [recovered];
      assert Publish(db', [recovered]) == Publish(PublishOne(db', recovered), []);
    } else {
      assert events[1..] == [];
    }
  }

  lemma PublishTrue(db: Db, e: MerchantEvent)
    requires EventsTrue(db)
    ensures EventTrue(db, e.workspace, e) ==> EventsTrue(PublishOne(db, e))
  {
    var db' := PublishOne(db, e);
    if EventTrue(db, e.workspace, e) {
      forall workspace: string, i: nat | i < |Events(db', workspace)| ensures EventTrue(db', workspace, Events(db', workspace)[i]) {
        if i < |Events(db, workspace)| { assert EventTrue(db, workspace, Events(db, workspace)[i]); }
      }
    }
  }

  // The events of a payment that has just been paid, or is paid again, are there once.
  lemma CommitOutbox(db: Db, p: string, c': Case, id: string, id2: string, now: Time)
    requires OutboxOk(db) && p in db.cases
    requires var i, i' := db.cases[p].intent, c'.intent;
             && i'.id == p && i'.workspace == i.workspace && i'.status == Paid
             && (i.status == Paid ==> i.recovered == i'.recovered && i.recoveredAmount == i'.recoveredAmount)
    ensures OutboxOk(Publish(Put(db, p, c'), EventsFor(c'.intent, id, id2, now)))
    ensures Publish(Put(db, p, c'), EventsFor(c'.intent, id, id2, now)).cases == db.cases[p := c']
  {
    hide Count, Publish, Events;
    var intent := c'.intent;
    var paid, recovered := EventFor(intent, PaymentPaid, id, now), EventFor(intent, PaymentRecovered, id2, now);
    var db1 := Put(db, p, c');
    var db2 := PublishOne(db1, paid);
    var db3 := if intent.recovered then PublishOne(db2, recovered) else db2;
    PublishBoth(db1, intent, id, id2, now);
    EventsStayTrue(db, db1);
    PublishTrue(db1, paid);
    PublishTrue(db2, recovered);
    forall key: EventKey ensures key in db3.outboxKeys <==> Emitted(db3, key) {
      assert key in db.outboxKeys <==> Emitted(db, key);
    }
    forall workspace: string, key: EventKey
      ensures Count(Events(db3, workspace), key) ==
              if Emitted(db3, key) && db3.cases[key.intentId].intent.workspace == workspace then 1 else 0
    {
      PublishCounts(db1, paid, workspace, key);
      PublishCounts(db2, recovered, workspace, key);
      SameEvents(db, db1, workspace);
      assert Count(Events(db, workspace), key) ==
             if Emitted(db, key) && db.cases[key.intentId].intent.workspace == workspace then 1 else 0;
      assert key in db.outboxKeys <==> Emitted(db, key);
    }
  }

  lemma SameEvents(db: Db, db': Db, workspace: string)
    requires db'.outbox == db.outbox
    ensures Events(db', workspace) == Events(db, workspace)
  {
  }

  function PaidCase(c: Case, intent: Intent, recovery: Option<Recovery>): Case {
    c.(intent := intent,
       recoveries := if recovery.Some? && c.recoveries == [] then [recovery.value] else c.recoveries)
  }

  lemma CommitCase(max: nat, p: string, c: Case, w: World, providers: Providers,
                   intent: Intent, recovery: Option<Recovery>, events: seq<MerchantEvent>)
    requires CaseOk(max, p, c, w, providers) && CommitOk(intent, recovery, events, c)
    ensures CaseOk(max, p, PaidCase(c, intent, recovery), w, providers)
    ensures CaseMoves(max, c, PaidCase(c, intent, recovery))
  {
    SameLedger(max, c, PaidCase(c, intent, recovery), w, w, providers);
  }

  lemma CommitThread(p: string, db: Db, db': Db, w: World, l: Local)
    requires p in db.cases && p in db'.cases && ThreadOk(db, w, l)
    requires db'.cases == db.cases[p := db'.cases[p]] && db'.providers == db.providers && db'.idempotency == db.idempotency
    requires db.cases[p].intent.status in {AwaitingPayment, Paid}
    requires db'.cases[p].intent.status == Paid && Awaited(db'.cases[p].intent) == Awaited(db.cases[p].intent)
    requires db'.cases[p].attempts == db.cases[p].attempts
    ensures ThreadOk(db', w, l)
  {
  }

  function CommittedDb(db: Db, intent: Intent, recovery: Option<Recovery>, events: seq<MerchantEvent>): Db
    requires intent.id in db.cases
  {
    Publish(Put(db, intent.id, PaidCase(db.cases[intent.id], intent, recovery)), events)
  }

  lemma CommitGood(max: nat, db: Db, w: World, intent: Intent, recovery: Option<Recovery>, events: seq<MerchantEvent>)
    requires OutboxOk(db) && intent.id in db.cases && CaseOk(max, intent.id, db.cases[intent.id], w, db.providers)
    requires CommitOk(intent, recovery, events, db.cases[intent.id])
    ensures var db', c' := CommittedDb(db, intent, recovery, events), PaidCase(db.cases[intent.id], intent, recovery);
            && OutboxOk(db')
            && db' == Put(db, intent.id, c').(outbox := db'.outbox, outboxKeys := db'.outboxKeys)
            && CaseOk(max, intent.id, c', w, db.providers)
            && CaseMoves(max, db.cases[intent.id], c')
  {
    var c' := PaidCase(db.cases[intent.id], intent, recovery);
    CommitCase(max, intent.id, db.cases[intent.id], w, db.providers, intent, recovery, events);
    var id, id2, now :| events == EventsFor(intent, id, id2, now);
    CommitOutbox(db, intent.id, c', id, id2, now);
    PublishKeeps(Put(db, intent.id, c'), events);
  }

  lemma MarkPaidIs(db: Db, intent: Intent, recovery: Option<Recovery>, events: seq<MerchantEvent>)
    requires intent.id in db.cases
    ensures MarkPaid(db, intent, recovery, events) == Ok(CommittedDb(db, intent, recovery, events))
  {
  }

  lemma CommitReady(cfg: Config, s: Sys, t: nat)
    requires Inv(cfg, s) && t in s.threads && s.threads[t].Hook? && s.threads[t].hook.Commit?
    ensures var Commit(intent, recovery, events) := s.threads[t].hook;
            && intent.id in s.db.cases
            && CommitOk(intent, recovery, events, s.db.cases[intent.id])
            && CaseOk(cfg.maxAttempts, intent.id, s.db.cases[intent.id], s.world, s.db.providers)
  {
    hide CaseOk, CommitOk, OutboxOk, IdempotencyOk;
    assert ThreadOk(s.db, s.world, s.threads[t]);
  }

  lemma CommitMovesOn(db: Db, intent: Intent, recovery: Option<Recovery>, events: seq<MerchantEvent>)
    requires intent.id in db.cases && CommitOk(intent, recovery, events, db.cases[intent.id])
    ensures db.cases[intent.id].intent.status in {AwaitingPayment, Paid} && intent.status == Paid
    ensures Awaited(intent) == Awaited(db.cases[intent.id].intent)
  {
  }

  lemma CommitSafe(cfg: Config, s: Sys, t: nat)
    requires Inv(cfg, s) && t in s.threads && s.threads[t].Hook? && s.threads[t].hook.Commit?
    ensures Inv(cfg, Apply(cfg, s, Run(t, Go)))
  {
    hide CaseOk, CommitOk, MarkPaid, OutboxOk, CaseMoves, Step, Publish;
    var Hook(notice, Commit(intent, recovery, events)) := s.threads[t];
    CommitReady(cfg, s, t);
    CommitMovesOn(s.db, intent, recovery, events);
    CommitGood(cfg.maxAttempts, s.db, s.world, intent, recovery, events);
    MarkPaidIs(s.db, intent, recovery, events);
    PaymentTrace.CommitStepIs(cfg, s.db, notice, intent, recovery, events);
    CommitInstalls(cfg, s, t, intent.id, CommittedDb(s.db, intent, recovery, events), Hook(notice, Processed(intent)));
  }

  lemma {:induction false} PublishKeeps(db: Db, events: seq<MerchantEvent>)
    ensures var db' := Publish(db, events);
            db' == db.(outbox := db'.outbox, outboxKeys := db'.outboxKeys)
    decreases |events|
  {
    if events != [] { PublishKeeps(PublishOne(db, events[0]), events[1..]); }
  }

  lemma CommitInstalls(cfg: Config, s: Sys, t: nat, p: string, db': Db, l': Local)
    requires Inv(cfg, s) && t in s.threads && p in s.db.cases && p in db'.cases
    requires db' == Put(s.db, p, db'.cases[p]).(outbox := db'.outbox, outboxKeys := db'.outboxKeys) && OutboxOk(db')
    requires CaseOk(cfg.maxAttempts, p, db'.cases[p], s.world, s.db.providers)
    requires CaseMoves(cfg.maxAttempts, s.db.cases[p], db'.cases[p])
    requires s.db.cases[p].intent.status in {AwaitingPayment, Paid}
    requires db'.cases[p].intent.status == Paid && Awaited(db'.cases[p].intent) == Awaited(s.db.cases[p].intent)
    requires db'.cases[p].attempts == s.db.cases[p].attempts
    requires l'.Hook? && l'.hook.Processed?
    ensures Inv(cfg, Sys(db', s.world, s.threads[t := l']))
  {
    var q := Put(s.db, p, db'.cases[p]);
    CasesKept(cfg.maxAttempts, p, s.db, q, s.world, s.world);
    HomeKept(cfg.maxAttempts, p, s.db, q, s.world, s.world);
    IdempotencyKept(p, s.db, q);
    InheritsIndexes(cfg.maxAttempts, q, db', s.world);
    CommitThreads(s, t, p, db', l');
  }

  lemma CommitThreads(s: Sys, t: nat, p: string, db': Db, l': Local)
    requires ThreadsOk(s.db, s.world, s.threads) && Exclusive(s.threads) && t in s.threads
    requires p in s.db.cases && p in db'.cases
    requires db'.cases == s.db.cases[p := db'.cases[p]] && db'.providers == s.db.providers
    requires db'.idempotency == s.db.idempotency
    requires s.db.cases[p].intent.status in {AwaitingPayment, Paid}
    requires db'.cases[p].intent.status == Paid && Awaited(db'.cases[p].intent) == Awaited(s.db.cases[p].intent)
    requires db'.cases[p].attempts == s.db.cases[p].attempts
    requires l'.Hook? && l'.hook.Processed?
    ensures ThreadsOk(db', s.world, s.threads[t := l']) && Exclusive(s.threads[t := l'])
  {
    hide CaseOk;
    forall u | u in s.threads && u != t ensures ThreadOk(db', s.world, s.threads[u]) {
      assert ThreadOk(s.db, s.world, s.threads[u]);
      CommitThread(p, s.db, db', s.world, s.threads[u]);
    }
  }

  lemma InheritsIndexes(max: nat, db: Db, db': Db, w: World)
    requires db' == db.(outbox := db'.outbox, outboxKeys := db'.outboxKeys)
    requires CasesOk(max, db, w) && HomeOk(db, w) && IdempotencyOk(db) && ProvidersOk(db)
    ensures CasesOk(max, db', w) && HomeOk(db', w) && IdempotencyOk(db') && ProvidersOk(db')
  {
    forall id | id in w.home ensures AttemptAt(db', id, w.home[id].0, w.home[id].1) {
      assert AttemptAt(db, id, w.home[id].0, w.home[id].1);
    }
  }

  // ---------- The environment ----------

  lemma KnownKept(old': Providers, new': Providers, workspace: string, id: string, env: Environment)
    requires Evolves(old', new') && Known(old', workspace, id, env)
    ensures Known(new', workspace, id, env)
  {
    var i :| 0 <= i < |old'[workspace]| && old'[workspace][i].id == id && old'[workspace][i].environment == env;
    assert Known(new', workspace, old'[workspace][i].id, old'[workspace][i].environment);
  }

  lemma ReconfiguredCase(max: nat, p: string, c: Case, w: World, old': Providers, new': Providers)
    requires Evolves(old', new') && CaseOk(max, p, c, w, old')
    ensures CaseOk(max, p, c, w, new')
  {
    forall i | 0 <= i < |c.attempts| ensures AttemptOk(c, i, w, new') {
      assert AttemptOk(c, i, w, old');
      KnownKept(old', new', c.intent.workspace, c.attempts[i].connectionId, c.intent.fingerprint.environment);
    }
  }

  lemma SnapshotKept(connections: seq<Connection>, workspace: string, old': Providers, new': Providers)
    requires Evolves(old', new') && SnapshotOk(connections, workspace, old')
    ensures SnapshotOk(connections, workspace, new')
  {
    forall i | 0 <= i < |connections| ensures Known(new', workspace, connections[i].id, connections[i].environment) {
      KnownKept(old', new', workspace, connections[i].id, connections[i].environment);
    }
  }

  lemma ReconfiguredStage(stage: Stage, o: Origin, c: Case, w: World, old': Providers, new': Providers)
    requires Evolves(old', new') && StageOk(stage, o, c, w, old')
    ensures StageOk(stage, o, c, w, new')
  {
    match stage
    case ReadAttempts(connections, _) => SnapshotKept(connections, c.intent.workspace, old', new');
    case Loop(plan) => SnapshotKept(plan.connections, c.intent.workspace, old', new');
    case Activate(plan, _) => SnapshotKept(plan.connections, c.intent.workspace, old', new');
    case Prepare(plan, _) => SnapshotKept(plan.connections, c.intent.workspace, old', new');
    case Send(plan, _) => SnapshotKept(plan.connections, c.intent.workspace, old', new');
    case Await(plan, _) => SnapshotKept(plan.connections, c.intent.workspace, old', new');
    case Record(plan, _, _) => SnapshotKept(plan.connections, c.intent.workspace, old', new');
    case _ =>
  }

  lemma ReconfiguredThread(db: Db, w: World, l: Local, providers: Providers)
    requires ThreadOk(db, w, l) && Evolves(db.providers, providers)
    ensures ThreadOk(db.(providers := providers), w, l)
  {
    match l
    case Working(o, intent, stage) => ReconfiguredStage(stage, o, db.cases[intent.id], w, db.providers, providers);
    case _ =>
  }

  lemma ReconfigureSafe(cfg: Config, s: Sys, providers: Providers)
    requires Inv(cfg, s) && Evolves(s.db.providers, providers)
    ensures Inv(cfg, Apply(cfg, s, Reconfigure(providers)))
  {
    var db, w := s.db, s.world;
    var db' := db.(providers := providers);
    forall p | p in db.cases ensures CaseOk(cfg.maxAttempts, p, db.cases[p], w, providers) {
      ReconfiguredCase(cfg.maxAttempts, p, db.cases[p], w, db.providers, providers);
    }
    forall t | t in s.threads ensures ThreadOk(db', w, s.threads[t]) {
      ReconfiguredThread(db, w, s.threads[t], providers);
    }
    SameOutbox(db, db');
    forall id | id in w.home ensures AttemptAt(db', id, w.home[id].0, w.home[id].1) {
      assert AttemptAt(db, id, w.home[id].0, w.home[id].1);
    }
  }

  lemma SameOutbox(db: Db, db': Db)
    requires db'.cases == db.cases && db'.outbox == db.outbox && db'.outboxKeys == db.outboxKeys && OutboxOk(db)
    ensures OutboxOk(db')
  {
    hide CountsOk, EventsTrue;
    CountsStay(db, db');
    EventsStayTrue(db, db');
  }

  lemma ChargeSafe(cfg: Config, s: Sys, id: string)
    requires Inv(cfg, s) && id in s.world.requested && id !in s.world.disproved
    ensures Inv(cfg, Apply(cfg, s, Charge(id)))
  {
    hide CaseOk, OutboxOk, IdempotencyOk, StageOk, HookOk;
    var w' := s.world.(live := s.world.live + {id});
    ChargedCases(cfg.maxAttempts, s.db, s.world, w');
    forall t | t in s.threads ensures ThreadOk(s.db, w', s.threads[t]) {
      assert ThreadOk(s.db, s.world, s.threads[t]);
      ChargedThread(s.db, s.world, w', s.threads[t]);
    }
  }

  lemma ChargedCase(max: nat, p: string, c: Case, w: World, w': World, providers: Providers)
    requires CaseOk(max, p, c, w, providers) && w' == w.(live := w'.live)
    ensures CaseOk(max, p, c, w', providers)
  {
    forall i | 0 <= i < |c.attempts| ensures AttemptOk(c, i, w', providers) { assert AttemptOk(c, i, w, providers); }
  }

  lemma ChargedCases(max: nat, db: Db, w: World, w': World)
    requires CasesOk(max, db, w) && w' == w.(live := w'.live)
    ensures CasesOk(max, db, w')
  {
    forall p | p in db.cases ensures CaseOk(max, p, db.cases[p], w', db.providers) {
      ChargedCase(max, p, db.cases[p], w, w', db.providers);
    }
  }

  lemma ChargedThread(db: Db, w: World, w': World, l: Local)
    requires ThreadOk(db, w, l) && w' == w.(live := w'.live)
    ensures ThreadOk(db, w', l)
  {
  }

  // ---------- Every run ----------

  lemma ReadingOk(db: Db, w: World, req: Request)
    requires IdempotencyOk(db)
    requires forall p :: p in db.cases ==>
               db.cases[p].intent.workspace == db.cases[p].intent.fingerprint.workspace && db.cases[p].intent.id == p
    ensures ThreadOk(db, w, Reading(db, req)) && !Reading(db, req).Working? && !Reading(db, req).ReconcileStart?
  {
    var key := JoinKey(req.content.workspace, req.idempotencyKey);
    if key in db.idempotency && db.idempotency[key].fingerprint == req.content { Rebinds(db, req); }
  }

  lemma CasesNamed(max: nat, db: Db, w: World)
    requires CasesOk(max, db, w)
    ensures forall p :: p in db.cases ==>
              db.cases[p].intent.workspace == db.cases[p].intent.fingerprint.workspace && db.cases[p].intent.id == p
  {
  }

  lemma RereadSafe(cfg: Config, s: Sys, t: nat, c: Choice)
    requires Inv(cfg, s) && t in s.threads && s.threads[t].CreateReread?
    ensures Inv(cfg, Apply(cfg, s, Run(t, c)))
  {
    hide CaseOk, OutboxOk, IdempotencyOk;
    var req := s.threads[t].req;
    CasesNamed(cfg.maxAttempts, s.db, s.world);
    ReadingOk(s.db, s.world, req);
    ThreadMoves(cfg, s, t, s.db, if c.Go? then Reading(s.db, req) else Stopped(None));
  }

  lemma ReconcileStartOk(max: nat, db: Db, w: World, payment: string, env: Environment)
    requires CasesOk(max, db, w)
    requires payment in db.cases ==> db.cases[payment].intent.fingerprint.environment == env
    ensures var l' := ReconcileStep(db, payment, env);
            && ThreadOk(db, w, l') && !l'.ReconcileStart?
            && (l'.Working? ==> l'.origin.ByReconcile? && l'.intent.id == payment && payment in db.cases
                                && db.cases[payment].intent.status == Reconciling)
  {
    assert payment in db.cases ==> CaseOk(max, payment, db.cases[payment], w, db.providers);
  }

  // Whoever holds a payment that is stored as reconciling is a reconciler that has read it
  // and not yet saved it.
  lemma HolderInWindow(db: Db, w: World, l: Local, payment: string)
    requires ThreadOk(db, w, l) && Holds(l) == Some(payment)
    requires payment in db.cases && db.cases[payment].intent.status == Reconciling
    ensures InWindow(l, payment)
  {
  }

  lemma ReconcileStartSafe(cfg: Config, s: Sys, t: nat, c: Choice)
    requires Inv(cfg, s) && t in s.threads && s.threads[t].ReconcileStart?
    requires Allowed(s.db, s.world, s.threads[t], c) && Undisturbed(s, t, c)
    ensures Inv(cfg, Apply(cfg, s, Run(t, c)))
  {
    hide CaseOk, OutboxOk, IdempotencyOk, InWindow;
    var ReconcileStart(payment, env) := s.threads[t];
    var l' := if c.Go? then ReconcileStep(s.db, payment, env) else Stopped(None);
    ReconcileStartOk(cfg.maxAttempts, s.db, s.world, payment, env);
    if l'.Working? {
      forall u | u in s.threads && u != t ensures Holds(s.threads[u]) != Some(payment) {
        assert ThreadOk(s.db, s.world, s.threads[u]);
        if Holds(s.threads[u]) == Some(payment) { HolderInWindow(s.db, s.world, s.threads[u], payment); }
      }
    }
    ThreadMoves(cfg, s, t, s.db, l');
  }

  lemma EndedSafe(cfg: Config, s: Sys, t: nat, c: Choice)
    requires t in s.threads && (s.threads[t].Done? || s.threads[t].HookDone? || s.threads[t].Stopped?)
    ensures Apply(cfg, s, Run(t, c)) == s
  {
    assert s.threads[t := s.threads[t]] == s.threads;
  }

  lemma MissedCommit(cfg: Config, s: Sys, t: nat, c: Choice)
    requires Inv(cfg, s) && t in s.threads && s.threads[t].Hook? && s.threads[t].hook.Commit? && !c.Go?
    ensures Inv(cfg, Apply(cfg, s, Run(t, c)))
  {
    hide CaseOk, OutboxOk, IdempotencyOk;
    ThreadMoves(cfg, s, t, s.db, Stopped(None));
  }

  lemma ApplySafe(cfg: Config, s: Sys, a: Action)
    requires Inv(cfg, s) && Enabled(s, a)
    ensures Inv(cfg, Apply(cfg, s, a))
  {
    hide Inv, Apply;
    match a
    case Spawn(t, l) => SpawnSafe(cfg, s, t, l);
    case Reconfigure(providers) => ReconfigureSafe(cfg, s, providers);
    case Charge(id) => ChargeSafe(cfg, s, id);
    case Run(t, c) =>
      var l := s.threads[t];
      if l.Working? { HolderSafe(cfg, s, t, c); }
      else if l.CreateStart? { CreateSafe(cfg, s, t, c); }
      else if l.Hook? && !l.hook.Commit? { HookReads(cfg, s, t, c); }
      else if l.Hook? && c.Go? { CommitSafe(cfg, s, t); }
      else if l.Hook? { MissedCommit(cfg, s, t, c); }
      else if l.CreateReread? { RereadSafe(cfg, s, t, c); }
      else if l.ReconcileStart? { ReconcileStartSafe(cfg, s, t, c); }
      else { EndedSafe(cfg, s, t, c); }
  }

  lemma InitialSafe(cfg: Config)
    ensures Inv(cfg, INITIAL)
  {
  }

  lemma {:induction false} RunSafe(cfg: Config, h: History, i: nat)
    requires IsRun(cfg, h) && i < |h.states|
    ensures Inv(cfg, h.states[i])
  {
    hide Inv, Apply, Enabled;
    if i == 0 {
      InitialSafe(cfg);
    } else {
      RunSafe(cfg, h, i - 1);
      ApplySafe(cfg, h.states[i - 1], h.actions[i - 1]);
    }
  }
}
