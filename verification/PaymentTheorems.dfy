// What the orchestration service promises, for every run of any number of interleaved calls.
module PaymentTheorems {
  import opened Domain
  import opened Router
  import opened PaymentDb
  import opened PaymentStore
  import opened PaymentMachine
  import opened PaymentInvariant
  import opened PaymentSteps
  import opened PaymentSafety

  // ---------- Charges ----------

  // At most one attempt of a payment is ever charged: every attempt but the last one is
  // safely failed, and a safe failure has no charge.
  lemma NoDoubleCharge(cfg: Config, h: History, k: nat, p: string, i: nat, j: nat)
    requires IsRun(cfg, h) && k < |h.states| && p in h.states[k].db.cases
    requires i < |h.states[k].db.cases[p].attempts| && j < |h.states[k].db.cases[p].attempts|
    ensures var attempts, live := h.states[k].db.cases[p].attempts, h.states[k].world.live;
            && (attempts[i].id in live && attempts[j].id in live ==> i == j)
            && (i < |attempts| - 1 ==> attempts[i].status == FailedSafe && attempts[i].id !in live)
  {
    hide Apply, Enabled;
    RunSafe(cfg, h, k);
    var s := h.states[k];
    assert CaseOk(cfg.maxAttempts, p, s.db.cases[p], s.world, s.db.providers);
    assert AttemptOk(s.db.cases[p], i, s.world, s.db.providers) && AttemptOk(s.db.cases[p], j, s.world, s.db.providers);
  }

  // Every live charge belongs to the last attempt of exactly one payment.
  lemma ChargeBelongs(cfg: Config, h: History, k: nat, id: string)
    requires IsRun(cfg, h) && k < |h.states| && id in h.states[k].world.live
    ensures exists p, i :: AttemptAt(h.states[k].db, id, p, i) && i == |h.states[k].db.cases[p].attempts| - 1
    ensures forall p, i, q, j :: AttemptAt(h.states[k].db, id, p, i) && AttemptAt(h.states[k].db, id, q, j) ==> p == q && i == j
  {
    RunSafe(cfg, h, k);
    var s := h.states[k];
    var (p, i) := s.world.home[id];
    assert AttemptAt(s.db, id, p, i);
    if i != |s.db.cases[p].attempts| - 1 { NoDoubleCharge(cfg, h, k, p, i, i); }
    forall p, i, q, j | AttemptAt(s.db, id, p, i) && AttemptAt(s.db, id, q, j) ensures p == q && i == j {
      SameAttempt(cfg, s, id, p, i, q, j);
    }
  }

  lemma SameAttempt(cfg: Config, s: Sys, id: string, p: string, i: nat, q: string, j: nat)
    requires CasesOk(cfg.maxAttempts, s.db, s.world)
    requires AttemptAt(s.db, id, p, i) && AttemptAt(s.db, id, q, j)
    ensures p == q && i == j
  {
    assert CaseOk(cfg.maxAttempts, p, s.db.cases[p], s.world, s.db.providers);
    assert CaseOk(cfg.maxAttempts, q, s.db.cases[q], s.world, s.db.providers);
    assert AttemptOk(s.db.cases[p], i, s.world, s.db.providers);
    assert AttemptOk(s.db.cases[q], j, s.world, s.db.providers);
  }

  // ---------- Attempts, decisions, environment ----------

  lemma AttemptLedger(cfg: Config, h: History, k: nat, p: string)
    requires IsRun(cfg, h) && k < |h.states| && p in h.states[k].db.cases
    ensures var c := h.states[k].db.cases[p];
            && |c.attempts| <= cfg.maxAttempts
            && |c.decisions| == |c.attempts|
            && DistinctConnections(c.attempts)
            && forall i :: 0 <= i < |c.attempts| ==>
                 && c.attempts[i].sequence == i + 1
                 && c.attempts[i].intentId == p
                 && Known(h.states[k].db.providers, c.intent.workspace, c.attempts[i].connectionId, c.intent.fingerprint.environment)
                 && c.decisions[i].attemptId == c.attempts[i].id
                 && c.decisions[i].selected == c.attempts[i].connectionId
                 && NamesEligible(c.decisions[i])
  {
    RunSafe(cfg, h, k);
    var s := h.states[k];
    var c := s.db.cases[p];
    assert CaseOk(cfg.maxAttempts, p, c, s.world, s.db.providers);
    forall i | 0 <= i < |c.attempts|
      ensures c.attempts[i].sequence == i + 1 && c.attempts[i].intentId == p
           && Known(s.db.providers, c.intent.workspace, c.attempts[i].connectionId, c.intent.fingerprint.environment)
           && c.decisions[i].attemptId == c.attempts[i].id
           && c.decisions[i].selected == c.attempts[i].connectionId && NamesEligible(c.decisions[i])
    {
      assert AttemptOk(c, i, s.world, s.db.providers) && DecisionOk(c, i);
    }
  }

  // Reading the environment from attempt 1 gives the environment the payment was created in,
  // and nothing else.
  lemma EnvironmentIsRequested(cfg: Config, h: History, k: nat, p: string, env: Environment)
    requires IsRun(cfg, h) && k < |h.states| && p in h.states[k].db.cases
    requires |h.states[k].db.cases[p].attempts| > 0
    ensures EnvironmentRead(h.states[k].db, p, env) <==> env == h.states[k].db.cases[p].intent.fingerprint.environment
  {
    RunSafe(cfg, h, k);
    AttemptLedger(cfg, h, k, p);
    var db := h.states[k].db;
    var c := db.cases[p];
    var ws := c.intent.workspace;
    assert Known(db.providers, ws, c.attempts[0].connectionId, c.intent.fingerprint.environment);
    var n :| 0 <= n < |db.providers[ws]| && db.providers[ws][n].id == c.attempts[0].connectionId
          && db.providers[ws][n].environment == c.intent.fingerprint.environment;
    if EnvironmentRead(db, p, env) {
      var w, i :| w in db.providers && 0 <= i < |db.providers[w]|
               && db.providers[w][i].id == c.attempts[0].connectionId && db.providers[w][i].environment == env;
      assert w == ws && i == n;
    }
  }

  // ---------- Presentation ----------

  // An attempt is presented exactly while payment is awaited or done, and then it is the
  // last one, it succeeded, and the intent shows its Pix and no failure.
  lemma PresentationAgrees(cfg: Config, h: History, k: nat, p: string)
    requires IsRun(cfg, h) && k < |h.states| && p in h.states[k].db.cases
    ensures var c := h.states[k].db.cases[p];
            && (c.intent.presented != "" <==> c.intent.status in {AwaitingPayment, Paid})
            && (c.intent.status == Paid <==> c.intent.paidAt.Some?)
            && (c.intent.presented != "" ==>
                  && |c.attempts| > 0
                  && var last := c.attempts[|c.attempts| - 1];
                     && c.intent.presented == last.id && last.status == Succeeded
                     && c.intent.pix == last.pix && c.intent.failureCode == "")
  {
    RunSafe(cfg, h, k);
    var s := h.states[k];
    var c := s.db.cases[p];
    assert CaseOk(cfg.maxAttempts, p, c, s.world, s.db.providers);
    if |c.attempts| > 0 { assert AttemptOk(c, |c.attempts| - 1, s.world, s.db.providers); }
  }

  // ---------- The outbox ----------

  // A payment is paid exactly when there is exactly one payment.paid event for it, and
  // recovered exactly when it was paid on a later attempt than the first; then there is
  // exactly one payment.recovered event and exactly one recovery row.
  lemma ExactlyOnceOutbox(cfg: Config, h: History, k: nat, p: string)
    requires IsRun(cfg, h) && k < |h.states| && p in h.states[k].db.cases
    ensures var db := h.states[k].db;
            var c := db.cases[p];
            var events := Events(db, c.intent.workspace);
            && Count(events, EventKey(PaymentPaid, p)) == (if c.intent.status == Paid then 1 else 0)
            && Count(events, EventKey(PaymentRecovered, p)) == (if c.intent.recovered then 1 else 0)
            && |c.recoveries| == (if c.intent.recovered then 1 else 0)
            && (c.intent.recovered <==> c.intent.status == Paid && |c.attempts| > 0 && c.attempts[|c.attempts| - 1].sequence > 1)
            && c.intent.recoveredAmount == (if c.intent.recovered then c.intent.amount else 0)
  {
    RunSafe(cfg, h, k);
    var s := h.states[k];
    var c := s.db.cases[p];
    assert CaseOk(cfg.maxAttempts, p, c, s.world, s.db.providers);
    if |c.attempts| > 0 { assert AttemptOk(c, |c.attempts| - 1, s.world, s.db.providers); }
    assert Emitted(s.db, EventKey(PaymentPaid, p)) <==> c.intent.status == Paid;
    assert Emitted(s.db, EventKey(PaymentRecovered, p)) <==> c.intent.recovered;
    assert Count(Events(s.db, c.intent.workspace), EventKey(PaymentPaid, p)) <= 1;
  }

  // Every event that a workspace receives is about a paid payment of that workspace, and
  // says whether and for how much it was recovered as the payment itself does.
  lemma OutboxAgrees(cfg: Config, h: History, k: nat, workspace: string, i: nat)
    requires IsRun(cfg, h) && k < |h.states| && i < |Events(h.states[k].db, workspace)|
    ensures var db := h.states[k].db;
            var e := Events(db, workspace)[i];
            && e.workspace == workspace
            && e.key.intentId in db.cases
            && var intent := db.cases[e.key.intentId].intent;
               && intent.workspace == workspace && intent.status == Paid
               && (e.key.kind == PaymentRecovered ==> intent.recovered)
               && e.recovered == intent.recovered && e.recoveredAmount == intent.recoveredAmount
  {
    hide Apply, Enabled, CasesOk, ThreadsOk;
    RunSafe(cfg, h, k);
    assert EventTrue(h.states[k].db, workspace, Events(h.states[k].db, workspace)[i]);
  }

  // The recovery names the first attempt as failed and the presented one as successful.
  lemma RecoveryAttribution(cfg: Config, h: History, k: nat, p: string)
    requires IsRun(cfg, h) && k < |h.states| && p in h.states[k].db.cases
    requires h.states[k].db.cases[p].intent.recovered
    ensures var c := h.states[k].db.cases[p];
            && |c.attempts| > 1 && |c.recoveries| == 1
            && c.recoveries[0].failedAttempt == c.attempts[0].id && c.attempts[0].status == FailedSafe
            && c.recoveries[0].failureReason == c.attempts[0].failureCode
            && c.recoveries[0].successfulAttempt == c.intent.presented
            && c.recoveries[0].amount == c.intent.amount
  {
    RunSafe(cfg, h, k);
    var s := h.states[k];
    var c := s.db.cases[p];
    assert CaseOk(cfg.maxAttempts, p, c, s.world, s.db.providers);
    assert AttemptOk(c, 0, s.world, s.db.providers);
  }

  // ---------- Status ----------

  // What one action does to the payments: existing ones move legally, new ones are created.
  ghost predicate Advances(max: nat, db: Db, db': Db) {
    && (forall p :: p in db.cases ==> p in db'.cases && CaseMoves(max, db.cases[p], db'.cases[p]))
    && (forall p :: p in db'.cases && p !in db.cases ==> db'.cases[p].intent.status == Created)
    && (forall key :: key in db.idempotency ==> key in db'.idempotency && db'.idempotency[key] == db.idempotency[key])
  }

  // Changing one payment legally.
  lemma OneMoves(max: nat, db: Db, db': Db, w: World, p: string)
    requires CasesOk(max, db, w) && p in db.cases && p in db'.cases
    requires db'.cases == db.cases[p := db'.cases[p]] && db'.idempotency == db.idempotency
    requires CaseMoves(max, db.cases[p], db'.cases[p])
    ensures Advances(max, db, db')
  {
    forall q | q in db.cases && q != p ensures CaseMoves(max, db.cases[q], db.cases[q]) {
      StandsStill(max, q, db.cases[q], w, db.providers);
    }
  }

  lemma WorkMoves(cfg: Config, db: Db, w: World, o: Origin, intent: Intent, stage: Stage, c: Choice)
    requires CasesOk(cfg.maxAttempts, db, w) && intent.id in db.cases && Good(cfg, db, w, o, intent, stage, c)
    ensures Advances(cfg.maxAttempts, db, WorkStep(cfg, db, o, intent, stage, c).0)
  {
    OneMoves(cfg.maxAttempts, db, WorkStep(cfg, db, o, intent, stage, c).0, w, intent.id);
  }

  lemma HolderMoves(cfg: Config, s: Sys, t: nat, c: Choice)
    requires Inv(cfg, s) && t in s.threads && s.threads[t].Working? && Allowed(s.db, s.world, s.threads[t], c)
    ensures Advances(cfg.maxAttempts, s.db, Apply(cfg, s, Run(t, c)).db)
  {
    hide Advances, CaseOk, HomeOk, ChargesOk, IdempotencyOk, OutboxOk, ProvidersOk, WorkStep, HoldOk, Good, WorldAfter;
    var l := s.threads[t];
    assert ThreadOk(s.db, s.world, l);
    WorkingStep(cfg, s.db, s.world, l.origin, l.intent, l.stage, c);
    WorkMoves(cfg, s.db, s.world, l.origin, l.intent, l.stage, c);
  }

  lemma CommitMoves(max: nat, db: Db, w: World, notice: Notice, intent: Intent, recovery: Option<Recovery>,
      events: seq<MerchantEvent>)
    requires CasesOk(max, db, w) && OutboxOk(db) && HookOk(db, Commit(intent, recovery, events))
    ensures Advances(max, db, HookStep(db, notice, Commit(intent, recovery, events), Go).0)
  {
    assert CaseOk(max, intent.id, db.cases[intent.id], w, db.providers);
    CommitGood(max, db, w, intent, recovery, events);
    MarkPaidIs(db, intent, recovery, events);
    OneMoves(max, db, CommittedDb(db, intent, recovery, events), w, intent.id);
  }

  lemma StoreKept(max: nat, db: Db, db': Db, w: World)
    requires CasesOk(max, db, w) && db'.cases == db.cases && db'.idempotency == db.idempotency
    ensures Advances(max, db, db')
  {
    forall p | p in db.cases ensures CaseMoves(max, db.cases[p], db.cases[p]) {
      StandsStill(max, p, db.cases[p], w, db.providers);
    }
  }

  lemma CreateAdvances(max: nat, db: Db, w: World, req: Request, id: string)
    requires CasesOk(max, db, w) && id !in db.cases
    ensures Advances(max, db, CreateStep(db, req, id).0)
  {
    hide CaseMoves, CaseOk, JoinKey;
    forall p | p in db.cases ensures CaseMoves(max, db.cases[p], db.cases[p]) {
      StandsStill(max, p, db.cases[p], w, db.providers);
    }
  }

  lemma HookAdvances(cfg: Config, s: Sys, t: nat, c: Choice)
    requires Inv(cfg, s) && t in s.threads && s.threads[t].Hook?
    ensures Advances(cfg.maxAttempts, s.db, Apply(cfg, s, Run(t, c)).db)
  {
    hide Advances, CaseOk, HomeOk, ChargesOk, IdempotencyOk, OutboxOk, CommitOk, AwaitedOk;
    var Hook(notice, stage) := s.threads[t];
    assert ThreadOk(s.db, s.world, s.threads[t]);
    if stage.Commit? && c.Go? {
      CommitMoves(cfg.maxAttempts, s.db, s.world, notice, stage.intent, stage.recovery, stage.events);
    } else {
      if !stage.Commit? { HookMoves(s.db, notice, stage, c); }
      StoreKept(cfg.maxAttempts, s.db, HookStep(s.db, notice, stage, c).0, s.world);
    }
  }

  lemma ActionAdvances(cfg: Config, s: Sys, a: Action)
    requires Inv(cfg, s) && Enabled(s, a)
    ensures Advances(cfg.maxAttempts, s.db, Apply(cfg, s, a).db)
  {
    hide Advances, CaseOk, WorkStep, HookStep;
    if a.Run? && s.threads[a.thread].Working? {
      HolderMoves(cfg, s, a.thread, a.choice);
    } else if a.Run? && s.threads[a.thread].Hook? {
      HookAdvances(cfg, s, a.thread, a.choice);
    } else if a.Run? && s.threads[a.thread].CreateStart? && a.choice.Fresh? {
      CreateAdvances(cfg.maxAttempts, s.db, s.world, s.threads[a.thread].req, a.choice.id);
    } else {
      StoreKept(cfg.maxAttempts, s.db, Apply(cfg, s, a).db, s.world);
    }
  }

  lemma RunAdvances(cfg: Config, h: History, i: nat)
    requires IsRun(cfg, h) && i < |h.actions|
    ensures Advances(cfg.maxAttempts, h.states[i].db, h.states[i + 1].db)
  {
    RunSafe(cfg, h, i);
    ActionAdvances(cfg, h.states[i], h.actions[i]);
  }

  // Every action moves every payment along the status graph or not at all; in particular
  // paid and failed payments stay so.
  lemma StatusIsLegal(cfg: Config, h: History, i: nat, p: string)
    requires IsRun(cfg, h) && i < |h.actions| && p in h.states[i].db.cases
    ensures p in h.states[i + 1].db.cases
    ensures LegalStatus(h.states[i].db.cases[p].intent.status, h.states[i + 1].db.cases[p].intent.status)
  {
    RunAdvances(cfg, h, i);
  }

  // How often the status of p has changed in the first k actions of a run.
  ghost function StatusChanges(h: History, p: string, k: nat): nat
    requires |h.states| == |h.actions| + 1 && k <= |h.actions|
  {
    if k == 0 then 0
    else
      var s, s' := h.states[k - 1], h.states[k];
      StatusChanges(h, p, k - 1)
      + if p in s.db.cases && p in s'.db.cases && s.db.cases[p].intent.status != s'.db.cases[p].intent.status then 1 else 0
  }

  lemma {:induction false} ChangesArePaidFor(cfg: Config, h: History, p: string, k: nat)
    requires IsRun(cfg, h) && k <= |h.actions|
    ensures if p in h.states[k].db.cases
            then 0 <= Rank(cfg.maxAttempts, h.states[k].db.cases[p])
              && StatusChanges(h, p, k) + Rank(cfg.maxAttempts, h.states[k].db.cases[p]) <= 2 * cfg.maxAttempts + 2
            else StatusChanges(h, p, k) == 0
  {
    if k > 0 {
      ChangesArePaidFor(cfg, h, p, k - 1);
      RunAdvances(cfg, h, k - 1);
    }
  }

  // The status of a payment changes at most 2 * maxAttempts + 2 times in any run.
  lemma StatusChangesBounded(cfg: Config, h: History, p: string)
    requires IsRun(cfg, h)
    ensures StatusChanges(h, p, |h.actions|) <= 2 * cfg.maxAttempts + 2
  {
    ChangesArePaidFor(cfg, h, p, |h.actions|);
  }

  // ---------- Idempotent creation ----------

  // All successful calls under one key answer the same request with the same payment.
  lemma IdempotentCreate(cfg: Config, h: History, k: nat, t: nat, u: nat)
    requires IsRun(cfg, h) && k < |h.states|
    requires t in h.states[k].threads && u in h.states[k].threads
    requires var l, m := h.states[k].threads[t], h.states[k].threads[u];
             && l.Done? && l.origin.ByCreate? && m.Done? && m.origin.ByCreate?
             && l.origin.req.content.workspace == m.origin.req.content.workspace
             && l.origin.req.idempotencyKey == m.origin.req.idempotencyKey
    ensures var l, m := h.states[k].threads[t], h.states[k].threads[u];
            && l.intent.id == m.intent.id
            && l.origin.req.content == m.origin.req.content == l.intent.fingerprint
  {
    RunSafe(cfg, h, k);
    var s := h.states[k];
    assert ThreadOk(s.db, s.world, s.threads[t]) && ThreadOk(s.db, s.world, s.threads[u]);
  }

  // The call at action i is told that it has created the payment under this key.
  ghost predicate Admits(cfg: Config, h: History, i: nat, key: string)
    requires |h.states| == |h.actions| + 1 && i < |h.actions|
  {
    && h.actions[i].Run? && h.actions[i].thread in h.states[i].threads && h.actions[i].thread in h.states[i + 1].threads
    && h.states[i].threads[h.actions[i].thread].CreateStart?
    && h.states[i + 1].threads[h.actions[i].thread].Working?
    && var req := h.states[i].threads[h.actions[i].thread].req; JoinKey(req.content.workspace, req.idempotencyKey) == key
  }

  lemma {:induction false} KeyStays(cfg: Config, h: History, key: string, i: nat, j: nat)
    requires IsRun(cfg, h) && i <= j < |h.states| && key in h.states[i].db.idempotency
    ensures key in h.states[j].db.idempotency
  {
    hide Apply;
    if i < j {
      KeyStays(cfg, h, key, i, j - 1);
      RunAdvances(cfg, h, j - 1);
    }
  }

  // At most one call per key ever goes on to route.
  lemma OneAdmission(cfg: Config, h: History, key: string, i: nat, j: nat)
    requires IsRun(cfg, h) && i < |h.actions| && j < |h.actions|
    requires Admits(cfg, h, i, key) && Admits(cfg, h, j, key)
    ensures i == j
  {
    AdmissionFillsKey(cfg, h, i, key);
    AdmissionFillsKey(cfg, h, j, key);
    if i < j { KeyStays(cfg, h, key, i + 1, j); }
    if j < i { KeyStays(cfg, h, key, j + 1, i); }
  }

  lemma AdmissionFillsKey(cfg: Config, h: History, i: nat, key: string)
    requires IsRun(cfg, h) && i < |h.actions| && Admits(cfg, h, i, key)
    ensures key !in h.states[i].db.idempotency && key in h.states[i + 1].db.idempotency
  {
  }

  // A key that is taken for another request is refused, and nothing changes.
  lemma ConflictRejected(cfg: Config, db: Db, req: Request, c: Choice)
    requires var key := JoinKey(req.content.workspace, req.idempotencyKey);
             key in db.idempotency && db.idempotency[key].fingerprint != req.content
             && db.idempotency[key].paymentId in db.cases
    ensures Step(cfg, db, CreateStart(req), c).0 == db
    ensures c.Fresh? ==> Step(cfg, db, CreateStart(req), c).1 == Stopped(Some(IdempotencyConflict))
    ensures Step(cfg, db, CreateReread(req), Go) == (db, Stopped(Some(IdempotencyConflict)))
  {
  }
}
