// What becomes of provider notifications in every run: which are refused, what the ledger of
// provider events keeps of them, what they answer, and what a commit writes among others.
module PaymentNotices {
  import opened Domain
  import opened PaymentDb
  import opened PaymentMachine
  import opened PaymentInvariant
  import opened PaymentSteps
  import opened PaymentSafety
  import opened PaymentOutcomes
  import opened PaymentWebhooks
  import PaymentTrace

  // ---------- Refused notices ----------

  // A thread with a notice that lacks an identifier or is not about a payment being paid.
  predicate Refused(l: Local, notice: Notice) {
    l == Hook(notice, Receive) || l.Stopped?
  }

  lemma RefusedStep(cfg: Config, db: Db, l: Local, notice: Notice, c: Choice)
    requires Refused(l, notice) && (notice.externalId == "" || notice.paymentId == "" || notice.eventType != "payment.paid")
    ensures var (db', l') := Step(cfg, db, l, c);
            && db' == db && Refused(l', notice)
            && (l.Hook? && c.Fresh? ==> l' == Stopped(Some(Unresolved)))
  {
  }

  lemma {:induction false} RefusedStands(cfg: Config, h: History, i: nat, k: nat, t: nat, notice: Notice)
    requires IsRun(cfg, h) && i <= k < |h.states|
    requires t in h.states[i].threads && h.states[i].threads[t] == Hook(notice, Receive)
    requires notice.externalId == "" || notice.paymentId == "" || notice.eventType != "payment.paid"
    ensures t in h.states[k].threads && Refused(h.states[k].threads[t], notice)
  {
    hide Step, Allowed;
    if i < k {
      RefusedStands(cfg, h, i, k - 1, t, notice);
      var a := h.actions[k - 1];
      if a.Run? && a.thread == t {
        RefusedStep(cfg, h.states[k - 1].db, h.states[k - 1].threads[t], notice, a.choice);
      }
    }
  }

  // In any run, a notice of another type or without its identifiers changes nothing at all,
  // the ledger included, and its call is refused.
  lemma MalformedIsRefused(cfg: Config, h: History, i: nat, k: nat, t: nat, notice: Notice, c: Choice)
    requires IsRun(cfg, h) && i <= k && Makes(h, k, t, c)
    requires t in h.states[i].threads && h.states[i].threads[t] == Hook(notice, Receive)
    requires notice.externalId == "" || notice.paymentId == "" || notice.eventType != "payment.paid"
    ensures h.states[k + 1].db == h.states[k].db
    ensures t in h.states[k + 1].threads && h.states[k + 1].threads[t].Stopped?
    ensures h.states[k].threads[t].Hook? && c.Fresh? ==> h.states[k + 1].threads[t] == Stopped(Some(Unresolved))
  {
    hide Step, Allowed;
    RefusedStands(cfg, h, i, k, t, notice);
    StepTo(cfg, h, k, t, c);
    RefusedStep(cfg, h.states[k].db, h.states[k].threads[t], notice, c);
    RefusedEnds(cfg, h.states[k].db, h.states[k].threads[t], notice, c);
  }

  lemma RefusedEnds(cfg: Config, db: Db, l: Local, notice: Notice, c: Choice)
    requires Refused(l, notice) && (notice.externalId == "" || notice.paymentId == "" || notice.eventType != "payment.paid")
    ensures Step(cfg, db, l, c).1.Stopped?
  {
  }

  // ---------- The ledger ----------

  // An entry may only be marked as processed, and stays marked.
  predicate LedgerGrows(ledger: map<string, ProviderEvent>, ledger': map<string, ProviderEvent>) {
    forall key :: key in ledger ==>
      && key in ledger'
      && ledger'[key] == ledger[key].(processedAt := ledger'[key].processedAt)
      && (ledger[key].processedAt.Some? ==> ledger'[key].processedAt.Some?)
  }

  // What one action may do to the ledger: receive a notice for the first time, or mark one.
  predicate LedgerStep(s: Sys, a: Action, ledger': map<string, ProviderEvent>) {
    || ledger' == s.db.providerEvents
    || (a.Run? && a.thread in s.threads && a.choice.Fresh? && s.threads[a.thread].Hook?
        && var notice, key := s.threads[a.thread].notice,
             JoinKey(s.threads[a.thread].notice.connectionId, s.threads[a.thread].notice.externalId);
           || (s.threads[a.thread].hook.Receive? && key !in s.db.providerEvents
               && notice.externalId != "" && notice.paymentId != "" && notice.eventType == "payment.paid"
               && ledger' == s.db.providerEvents[key :=
                    ProviderEvent(a.choice.id, notice.connectionId, notice.externalId, notice.paymentId, a.choice.now, None)])
           || (s.threads[a.thread].hook.Processed? && key in s.db.providerEvents
               && ledger' == s.db.providerEvents[key := s.db.providerEvents[key].(processedAt := Some(a.choice.now))]))
  }

  // An entry is made when a notice is received for the first time, with what the notice says
  // and the time of reception; afterwards only its processing time may change.
  lemma LedgerIsKept(cfg: Config, h: History, k: nat)
    requires IsRun(cfg, h) && k < |h.actions|
    ensures LedgerStep(h.states[k], h.actions[k], h.states[k + 1].db.providerEvents)
    ensures LedgerGrows(h.states[k].db.providerEvents, h.states[k + 1].db.providerEvents)
  {
    hide WorkStep, Publish, Inv, Allowed, CreateStep, LedgerStep, LedgerGrows, HookStep;
    var s, a := h.states[k], h.actions[k];
    if a.Run? && s.threads[a.thread].Working? {
      Standing(cfg, h, k, a.thread);
      RunSafe(cfg, h, k);
      WorkerKeepsLedger(cfg, s, a.thread, a.choice);
    } else if a.Run? && s.threads[a.thread].Hook? {
      HookWritesLedger(s, a.thread, a.choice);
    } else if a.Run? {
      OtherKeepsLedger(cfg, s.db, s.threads[a.thread], a.choice);
    }
    StepGrows(s, a, h.states[k + 1].db.providerEvents);
  }

  lemma WorkerKeepsLedger(cfg: Config, s: Sys, t: nat, c: Choice)
    requires Inv(cfg, s) && t in s.threads && s.threads[t].Working? && Allowed(s.db, s.world, s.threads[t], c)
    ensures var l, db' := s.threads[t], Step(cfg, s.db, s.threads[t], c).0;
            LedgerStep(s, Run(t, c), db'.providerEvents)
  {
    hide WorkStep, CaseOk, OutboxOk, IdempotencyOk, StageOk, CaseMoves, AfterOk;
    var l := s.threads[t];
    assert ThreadOk(s.db, s.world, l);
    WorkingStep(cfg, s.db, s.world, l.origin, l.intent, l.stage, c);
  }

  lemma HookWritesLedger(s: Sys, t: nat, c: Choice)
    requires t in s.threads && s.threads[t].Hook?
    ensures LedgerStep(s, Run(t, c), HookStep(s.db, s.threads[t].notice, s.threads[t].hook, c).0.providerEvents)
  {
    hide Publish;
    var Hook(notice, stage) := s.threads[t];
    if stage.Commit? && c.Go? && stage.intent.id in s.db.cases {
      MarkPaidIs(s.db, stage.intent, stage.recovery, stage.events);
      PublishKeeps(Put(s.db, stage.intent.id, PaidCase(s.db.cases[stage.intent.id], stage.intent, stage.recovery)), stage.events);
    }
  }

  lemma OtherKeepsLedger(cfg: Config, db: Db, l: Local, c: Choice)
    requires !l.Working? && !l.Hook?
    ensures Step(cfg, db, l, c).0.providerEvents == db.providerEvents
  {
  }

  lemma StepGrows(s: Sys, a: Action, ledger': map<string, ProviderEvent>)
    ensures LedgerStep(s, a, s.db.providerEvents)
    ensures LedgerStep(s, a, ledger') ==> LedgerGrows(s.db.providerEvents, ledger')
  {
  }

  // ---------- What a notice answers ----------

  // The ledger once the notice has been received.
  function WithEntry(db: Db, notice: Notice, received: Choice): Db
    requires received.Fresh?
  {
    var key := JoinKey(notice.connectionId, notice.externalId);
    if key in db.providerEvents then db
    else db.(providerEvents := db.providerEvents[key :=
           ProviderEvent(received.id, notice.connectionId, notice.externalId, notice.paymentId, received.now, None)])
  }

  // A notice whose charge nobody carries is kept in the ledger, and its call says so.
  lemma UnknownChargeReplies(cfg: Config, db: Db, notice: Notice, received: Choice)
    requires WellFormed(notice) && received.Fresh?
    ensures Drive(cfg, db, Hook(notice, Receive), [received] + [Missing]) == (WithEntry(db, notice, received), Stopped(Some(NotFound)))
  {
    hide Step;
    var l, db' := Hook(notice, Receive), WithEntry(db, notice, received);
    PaymentTrace.ReceiveStepIs(cfg, db, notice, received);
    Begin(cfg, db, l, received, (db', Hook(notice, FindCharge)));
    PaymentTrace.NoChargeStepIs(cfg, db', notice);
    Extend(cfg, db, l, [received], (db', Hook(notice, FindCharge)), Missing, (db', Stopped(Some(NotFound))));
  }

  // A notice whose charge a payment carries is answered with the stored payment, and marked,
  // when that payment is already paid; it is refused when the payment does not await it.
  lemma KnownChargeReplies(cfg: Config, h: History, k: nat, notice: Notice, p: string, i: nat, received: Choice, processed: Choice)
    requires IsRun(cfg, h) && k < |h.states| && WellFormed(notice) && received.Fresh? && processed.Fresh?
    requires ChargedAt(h.states[k].db, notice.connectionId, notice.paymentId, p, i)
    ensures var db, a := h.states[k].db, h.states[k].db.cases[p].attempts[i];
            var db', found, intent := WithEntry(db, notice, received), [received] + [Found(p, i)] + [Go], db.cases[p].intent;
            var key := JoinKey(notice.connectionId, notice.externalId);
            && (intent.status == Paid ==>
                  && key in db'.providerEvents
                  && Drive(cfg, db, Hook(notice, Receive), found + [processed])
                     == (db'.(providerEvents := db'.providerEvents[key :=
                                db'.providerEvents[key].(processedAt := Some(processed.now))]),
                         HookDone(intent)))
            && (intent.status != Paid && !(intent.status == AwaitingPayment && intent.presented == a.id) ==>
                  Drive(cfg, db, Hook(notice, Receive), found) == (db', Stopped(Some(InvalidTransition))))
  {
    hide Step, Inv;
    var s, l := h.states[k], Hook(notice, Receive);
    var db', a := WithEntry(s.db, notice, received), s.db.cases[p].attempts[i];
    ChargeIsOwn(cfg, h, k, p, i);
    PaymentTrace.ReceiveStepIs(cfg, s.db, notice, received);
    Begin(cfg, s.db, l, received, (db', Hook(notice, FindCharge)));
    PaymentTrace.ChargeStepIs(cfg, db', notice, p, i);
    Extend(cfg, s.db, l, [received], (db', Hook(notice, FindCharge)), Found(p, i), (db', Hook(notice, ReadIntent(p, a.id))));
    PaymentTrace.IntentStepIs(cfg, db', notice, p, a.id);
    var l' := ReadIntentStep(db', notice, p, a.id);
    Extend(cfg, s.db, l, [received] + [Found(p, i)], (db', Hook(notice, ReadIntent(p, a.id))), Go, (db', l'));
    if s.db.cases[p].intent.status == Paid {
      PaymentTrace.ProcessedStepIs(cfg, db', notice, s.db.cases[p].intent, processed);
      Extend(cfg, s.db, l, [received] + [Found(p, i)] + [Go], (db', l'), processed, Step(cfg, db', l', processed));
    }
  }

  lemma ChargeIsOwn(cfg: Config, h: History, k: nat, p: string, i: nat)
    requires IsRun(cfg, h) && k < |h.states| && p in h.states[k].db.cases && i < |h.states[k].db.cases[p].attempts|
    ensures h.states[k].db.cases[p].attempts[i].intentId == p
  {
    hide Apply, Enabled;
    RunSafe(cfg, h, k);
    var s := h.states[k];
    assert CaseOk(cfg.maxAttempts, p, s.db.cases[p], s.world, s.db.providers);
    assert AttemptOk(s.db.cases[p], i, s.world, s.db.providers);
  }

  // ---------- A commit among other calls ----------

  // At action i the webhook reads the attempts of the payment that it is about to pay.
  predicate PaysAt(h: History, i: nat, t: nat, paid: Choice) {
    Makes(h, i, t, paid) && paid.Fresh? && h.states[i].threads[t].Hook? && h.states[i].threads[t].hook.ReadHistory?
  }

  lemma {:induction false} StandsBy(cfg: Config, h: History, i: nat, j: nat, t: nat)
    requires IsRun(cfg, h) && i <= j <= |h.actions| && Rests(h, i, j, t) && t in h.states[i].threads
    ensures t in h.states[j].threads && h.states[j].threads[t] == h.states[i].threads[t]
  {
    hide Step, Allowed;
    if i < j { StandsBy(cfg, h, i, j - 1, t); }
  }

  // What the webhook is then about to commit.
  lemma CommitStands(cfg: Config, h: History, i: nat, j: nat, t: nat, paid: Choice)
    requires IsRun(cfg, h) && PaysAt(h, i, t, paid) && GoesOn(h, i, j, t)
    ensures var Hook(notice, ReadHistory(read, a)) := h.states[i].threads[t];
            var p, s := read.id, h.states[j];
            && p in s.db.cases && read == Awaited(read) && t in s.threads
            && exists recovery: Option<Recovery> ::
                 && (recovery.Some? ==> recovery.value.id == paid.id && recovery.value.createdAt == paid.now)
                 && var intent := PaidIntent(read, recovery.Some?, paid.now);
                    var events := EventsFor(intent, paid.id2, paid.id3, paid.now);
                    && s.threads[t] == Hook(notice, Commit(intent, recovery, events))
                    && CommitOk(intent, recovery, events, s.db.cases[p])
  {
    hide Step, Inv, CommitOk, EventsFor, CaseOk;
    var Hook(notice, ReadHistory(read, a)) := h.states[i].threads[t];
    RunSafe(cfg, h, i);
    HookStands(cfg, h.states[i], t);
    StepTo(cfg, h, i, t, paid);
    PaymentTrace.HistoryStepIs(cfg, h.states[i].db, notice, read, a, paid);
    StandsBy(cfg, h, i + 1, j, t);
    RunSafe(cfg, h, j);
    CommitReady(cfg, h.states[j], t);
    var recovery := RecoveryFor(read, AttemptsOf(h.states[i].db, read.id), a, paid.id, paid.now);
    assert recovery.Some? ==> recovery.value.id == paid.id && recovery.value.createdAt == paid.now;
  }

  lemma HookStands(cfg: Config, s: Sys, t: nat)
    requires Inv(cfg, s) && t in s.threads && s.threads[t].Hook? && s.threads[t].hook.ReadHistory?
    ensures s.threads[t].hook.intent == Awaited(s.threads[t].hook.intent)
  {
    assert ThreadOk(s.db, s.world, s.threads[t]);
  }

  // A commit in any run: a payment that still awaits it is paid once, as stated; one that
  // another webhook has paid in the meantime only gets a new time of payment. The webhook goes
  // on with the payment as it is then stored.
  lemma CommitIsStored(cfg: Config, h: History, i: nat, j: nat, t: nat, paid: Choice)
    requires IsRun(cfg, h) && PaysAt(h, i, t, paid) && GoesOn(h, i, j, t)
    ensures var p, db, db' := h.states[i].threads[t].hook.intent.id, h.states[j].db, h.states[j + 1].db;
            && p in db.cases && db.cases[p].intent.status in {AwaitingPayment, Paid}
            && (if db.cases[p].intent.status == AwaitingPayment then PaidOnce(db, db', p, paid)
                else OnlyRecordChanges(db, db', p, db.cases[p].intent.(paidAt := Some(paid.now))))
            && p in db'.cases && t in h.states[j + 1].threads
            && h.states[j + 1].threads[t] == Hook(h.states[i].threads[t].notice, Processed(db'.cases[p].intent))
  {
    hide Step, CommitOk, EventsFor, PaidOnce, MarkPaid, CaseOk, IdempotencyOk, OutboxOk;
    var Hook(notice, ReadHistory(read, a)) := h.states[i].threads[t];
    CommitStands(cfg, h, i, j, t, paid);
    var s, p := h.states[j], read.id;
    var recovery: Option<Recovery> :|
      && (recovery.Some? ==> recovery.value.id == paid.id && recovery.value.createdAt == paid.now)
      && var intent := PaidIntent(read, recovery.Some?, paid.now);
         var events := EventsFor(intent, paid.id2, paid.id3, paid.now);
         && s.threads[t] == Hook(notice, Commit(intent, recovery, events))
         && CommitOk(intent, recovery, events, s.db.cases[p]);
    var intent := PaidIntent(read, recovery.Some?, paid.now);
    var events := EventsFor(intent, paid.id2, paid.id3, paid.now);
    RunSafe(cfg, h, j);
    StepTo(cfg, h, j, t, Go);
    PaymentTrace.CommitStepIs(cfg, s.db, notice, intent, recovery, events);
    MarkPaidIs(s.db, intent, recovery, events);
    CommitMovesOn(s.db, intent, recovery, events);
    CommittedIntent(s.db, intent, recovery, events);
    assert CaseOk(cfg.maxAttempts, p, s.db.cases[p], s.world, s.db.providers);
    if s.db.cases[p].intent.status == AwaitingPayment {
      FirstCommit(cfg, s, p, read, recovery, paid);
    } else {
      LaterCommit(cfg, s, p, read, recovery, paid);
    }
  }

  lemma CommittedIntent(db: Db, intent: Intent, recovery: Option<Recovery>, events: seq<MerchantEvent>)
    requires intent.id in db.cases
    ensures var db' := CommittedDb(db, intent, recovery, events); intent.id in db'.cases && db'.cases[intent.id].intent == intent
  {
    hide Publish;
    PublishKeeps(Put(db, intent.id, PaidCase(db.cases[intent.id], intent, recovery)), events);
  }

  lemma FirstCommit(cfg: Config, s: Sys, p: string, read: Intent, recovery: Option<Recovery>, paid: Choice)
    requires CasesOk(cfg.maxAttempts, s.db, s.world) && OutboxOk(s.db) && paid.Fresh? && read.id == p && read == Awaited(read)
    requires p in s.db.cases && CaseOk(cfg.maxAttempts, p, s.db.cases[p], s.world, s.db.providers)
    requires s.db.cases[p].intent.status == AwaitingPayment
    requires recovery.Some? ==> recovery.value.id == paid.id && recovery.value.createdAt == paid.now
    requires var intent := PaidIntent(read, recovery.Some?, paid.now);
             CommitOk(intent, recovery, EventsFor(intent, paid.id2, paid.id3, paid.now), s.db.cases[p])
    ensures var intent := PaidIntent(read, recovery.Some?, paid.now);
            PaidOnce(s.db, CommittedDb(s.db, intent, recovery, EventsFor(intent, paid.id2, paid.id3, paid.now)), p, paid)
  {
    hide OutboxOk, CasesOk, LedgerOk, CommittedDb, PaidOnce, EventsFor;
    var c := s.db.cases[p];
    assert |c.attempts| > 0 && read == c.intent;
    RecoveryFound(cfg.maxAttempts, p, c, s.world, s.db.providers, paid.id, paid.now);
    CommitWrites(cfg, s, p, PaidIntent(read, recovery.Some?, paid.now), recovery, paid);
  }

  lemma LaterCommit(cfg: Config, s: Sys, p: string, read: Intent, recovery: Option<Recovery>, paid: Choice)
    requires OutboxOk(s.db) && paid.Fresh? && read.id == p && read == Awaited(read)
    requires p in s.db.cases && CaseOk(cfg.maxAttempts, p, s.db.cases[p], s.world, s.db.providers)
    requires s.db.cases[p].intent.status == Paid
    requires var intent := PaidIntent(read, recovery.Some?, paid.now);
             CommitOk(intent, recovery, EventsFor(intent, paid.id2, paid.id3, paid.now), s.db.cases[p])
    ensures var intent := PaidIntent(read, recovery.Some?, paid.now);
            OnlyRecordChanges(s.db, CommittedDb(s.db, intent, recovery, EventsFor(intent, paid.id2, paid.id3, paid.now)), p,
                              s.db.cases[p].intent.(paidAt := Some(paid.now)))
  {
    hide EventsFor, LedgerOk, EventsTrue, Publish;
    var c, intent := s.db.cases[p], PaidIntent(read, recovery.Some?, paid.now);
    assert intent == c.intent.(paidAt := Some(paid.now));
    assert PaidCase(c, intent, recovery) == c.(intent := intent);
    assert Emitted(s.db, EventKey(PaymentPaid, p)) && (intent.recovered ==> Emitted(s.db, EventKey(PaymentRecovered, p)));
    PublishBoth(Put(s.db, p, c.(intent := intent)), intent, paid.id2, paid.id3, paid.now);
  }
}
