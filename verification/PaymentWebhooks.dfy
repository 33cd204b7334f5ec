// Provider notifications that arrive early, late and repeatedly.
module PaymentWebhooks {
  import opened Domain
  import opened PaymentDb
  import opened PaymentMachine
  import opened PaymentInvariant
  import opened PaymentSteps
  import opened PaymentSafety
  import opened PaymentTheorems
  import PaymentTrace

  // The notice is about the presented attempt of a payment that awaits it.
  predicate Pays(db: Db, notice: Notice, p: string, i: nat) {
    && ChargedAt(db, notice.connectionId, notice.paymentId, p, i)
    && var a := db.cases[p].attempts[i];
       && a.intentId in db.cases
       && db.cases[a.intentId].intent.status == AwaitingPayment
       && db.cases[a.intentId].intent.presented == a.id
  }

  ghost predicate Payable(db: Db, notice: Notice) {
    exists p, i: nat :: Pays(db, notice, p, i)
  }

  predicate WellFormed(notice: Notice) {
    notice.externalId != "" && notice.paymentId != "" && notice.eventType == "payment.paid"
  }

  // Nothing but the ledger of provider events differs.
  predicate SamePayments(db: Db, db': Db) {
    db' == db.(providerEvents := db'.providerEvents)
  }

  // ---------- Notices that pay nothing ----------

  // An attempt of this payment, with this identifier, carries the notice's charge.
  ghost predicate IsCarried(db: Db, notice: Notice, payment: string, id: string) {
    exists p, i: nat :: ChargedAt(db, notice.connectionId, notice.paymentId, p, i)
                     && db.cases[p].attempts[i].intentId == payment && db.cases[p].attempts[i].id == id
  }

  ghost function Carried(db: Db, notice: Notice): iset<(string, string)> {
    iset payment: string, id: string | IsCarried(db, notice, payment, id) :: (payment, id)
  }

  predicate Awaits(db: Db, payment: string, id: string) {
    payment in db.cases && db.cases[payment].intent.status == AwaitingPayment && db.cases[payment].intent.presented == id
  }

  // No payment awaits any of these attempts.
  ghost predicate NoneAwaited(db: Db, seen: iset<(string, string)>) {
    forall payment: string, id: string :: (payment, id) in seen ==> !Awaits(db, payment, id)
  }

  // How far a notice can get that finds one of these attempts, none of them awaited.
  ghost predicate Harmless(notice: Notice, l: Local, seen: iset<(string, string)>) {
    match l
    case Hook(n, Receive) => n == notice
    case Hook(n, FindCharge) => n == notice
    case Hook(n, ReadIntent(payment, id)) => n == notice && (payment, id) in seen
    case Hook(n, Processed(_)) => n == notice
    case HookDone(_) => true
    case Stopped(_) => true
    case _ => false
  }

  lemma HarmlessStep(cfg: Config, db: Db, notice: Notice, l: Local, c: Choice, seen: iset<(string, string)>)
    requires Harmless(notice, l, seen) && NoneAwaited(db, seen) && Carried(db, notice) <= seen
    ensures var (db', l') := Step(cfg, db, l, c); SamePayments(db, db') && Harmless(notice, l', seen)
  {
    if l.Hook? && l.hook.FindCharge? && c.Found? && ChargedAt(db, notice.connectionId, notice.paymentId, c.payment, c.index) {
      var a := db.cases[c.payment].attempts[c.index];
      assert IsCarried(db, notice, a.intentId, a.id);
      assert (a.intentId, a.id) in Carried(db, notice);
      PaymentTrace.ChargeStepIs(cfg, db, notice, c.payment, c.index);
    }
    if l.Hook? && l.hook.ReadIntent? { assert !Awaits(db, l.hook.payment, l.hook.attemptId); }
  }

  lemma SameCarried(db: Db, db': Db, notice: Notice)
    requires SamePayments(db, db')
    ensures Carried(db', notice) == Carried(db, notice)
    ensures forall seen :: NoneAwaited(db, seen) ==> NoneAwaited(db', seen)
  {
    forall payment: string, id: string ensures IsCarried(db', notice, payment, id) <==> IsCarried(db, notice, payment, id) {
      if IsCarried(db, notice, payment, id) {
        var p, i: nat :| ChargedAt(db, notice.connectionId, notice.paymentId, p, i)
                      && db.cases[p].attempts[i].intentId == payment && db.cases[p].attempts[i].id == id;
        assert ChargedAt(db', notice.connectionId, notice.paymentId, p, i);
      }
      if IsCarried(db', notice, payment, id) {
        var p, i: nat :| ChargedAt(db', notice.connectionId, notice.paymentId, p, i)
                      && db'.cases[p].attempts[i].intentId == payment && db'.cases[p].attempts[i].id == id;
        assert ChargedAt(db, notice.connectionId, notice.paymentId, p, i);
      }
    }
  }

  lemma UnpayableIsUnawaited(db: Db, notice: Notice)
    ensures !Payable(db, notice) <==> NoneAwaited(db, Carried(db, notice))
  {
    if Payable(db, notice) {
      var p, i: nat :| Pays(db, notice, p, i);
      var a := db.cases[p].attempts[i];
      assert IsCarried(db, notice, a.intentId, a.id);
      assert (a.intentId, a.id) in Carried(db, notice) && Awaits(db, a.intentId, a.id);
    }
    if !NoneAwaited(db, Carried(db, notice)) {
      var payment: string, id: string :| (payment, id) in Carried(db, notice) && Awaits(db, payment, id);
      assert IsCarried(db, notice, payment, id);
      var p, i: nat :| ChargedAt(db, notice.connectionId, notice.paymentId, p, i)
                    && db.cases[p].attempts[i].intentId == payment && db.cases[p].attempts[i].id == id;
      assert Pays(db, notice, p, i);
    }
  }

  // A notice that pays nothing, because its charge is unknown, not presented yet or already
  // paid, changes nothing but the ledger when nobody else acts, wherever it is cut off.
  lemma {:induction false} UnpayableChangesNothing(cfg: Config, db: Db, notice: Notice, choices: seq<Choice>)
    requires !Payable(db, notice)
    ensures var (db', l') := Drive(cfg, db, Hook(notice, Receive), choices);
            SamePayments(db, db') && !Payable(db', notice) && Harmless(notice, l', Carried(db, notice))
    decreases |choices|
  {
    hide Step, Payable, Carried, NoneAwaited;
    UnpayableIsUnawaited(db, notice);
    if choices != [] {
      var before, c := choices[..|choices| - 1], choices[|choices| - 1];
      UnpayableChangesNothing(cfg, db, notice, before);
      var (db', l') := Drive(cfg, db, Hook(notice, Receive), before);
      SameCarried(db, db', notice);
      HarmlessStep(cfg, db', notice, l', c, Carried(db, notice));
      var db'' := Step(cfg, db', l', c).0;
      SameCarried(db', db'', notice);
      UnpayableIsUnawaited(db'', notice);
    }
  }

  // The attempts that have carried the notice's charge since state i.
  ghost function CarriedSince(h: History, notice: Notice, i: nat, k: nat): iset<(string, string)>
    requires k < |h.states|
  {
    iset payment: string, id: string |
      exists n :: i <= n <= k && IsCarried(h.states[n].db, notice, payment, id) :: (payment, id)
  }

  lemma CarriedGrows(h: History, notice: Notice, i: nat, k: nat)
    requires i <= k < |h.states|
    ensures Carried(h.states[k].db, notice) <= CarriedSince(h, notice, i, k)
    ensures forall m: nat :: m <= k ==> CarriedSince(h, notice, i, m) <= CarriedSince(h, notice, i, k)
  {
    hide IsCarried;
  }

  lemma HarmlessGrows(notice: Notice, l: Local, seen: iset<(string, string)>, seen': iset<(string, string)>)
    requires Harmless(notice, l, seen) && seen <= seen'
    ensures Harmless(notice, l, seen')
  {
  }

  lemma {:induction false} EarlyNoticeStands(cfg: Config, h: History, notice: Notice, t: nat, i: nat, k: nat)
    requires IsRun(cfg, h) && i <= k < |h.states|
    requires t in h.states[i].threads && h.states[i].threads[t] == Hook(notice, Receive)
    requires forall m :: i <= m < k ==> NoneAwaited(h.states[m].db, CarriedSince(h, notice, i, m))
    ensures t in h.states[k].threads && Harmless(notice, h.states[k].threads[t], CarriedSince(h, notice, i, k))
  {
    hide Step, Carried, CarriedSince, NoneAwaited, Allowed, Harmless;
    if i < k {
      var s, a := h.states[k - 1], h.actions[k - 1];
      EarlyNoticeStands(cfg, h, notice, t, i, k - 1);
      CarriedGrows(h, notice, i, k - 1);
      CarriedGrows(h, notice, i, k);
      if a.Run? && a.thread == t {
        HarmlessStep(cfg, s.db, notice, s.threads[t], a.choice, CarriedSince(h, notice, i, k - 1));
      }
      HarmlessGrows(notice, h.states[k].threads[t], CarriedSince(h, notice, i, k - 1), CarriedSince(h, notice, i, k));
    } else {
      Receives(notice, CarriedSince(h, notice, i, k));
    }
  }

  lemma Receives(notice: Notice, seen: iset<(string, string)>)
    ensures Harmless(notice, Hook(notice, Receive), seen)
  {
  }

  // In any run, a webhook changes nothing but the ledger, however its steps interleave with
  // everything else, as long as no payment awaits an attempt that has carried its charge
  // since it was received.
  lemma EarlyNoticeChangesNothing(cfg: Config, h: History, notice: Notice, t: nat, i: nat, k: nat)
    requires IsRun(cfg, h) && i <= k < |h.actions|
    requires t in h.states[i].threads && h.states[i].threads[t] == Hook(notice, Receive)
    requires forall m :: i <= m <= k ==> NoneAwaited(h.states[m].db, CarriedSince(h, notice, i, m))
    requires h.actions[k].Run? && h.actions[k].thread == t
    ensures SamePayments(h.states[k].db, h.states[k + 1].db)
  {
    hide Step, Carried, CarriedSince, NoneAwaited, Allowed, Harmless;
    EarlyNoticeStands(cfg, h, notice, t, i, k);
    CarriedGrows(h, notice, i, k);
    HarmlessStep(cfg, h.states[k].db, notice, h.states[k].threads[t], h.actions[k].choice, CarriedSince(h, notice, i, k));
  }

  // ---------- Notices that pay ----------

  // What the world decides on the way to success.
  function PayingChoices(p: string, i: nat, received: Choice, paid: Choice, processed: Choice): seq<Choice> {
    [received, Found(p, i), Go, Found(p, i), paid, Go, processed]
  }

  ghost predicate AllowedAlone(cfg: Config, db: Db, w: World, l: Local, choices: seq<Choice>)
    decreases |choices|
  {
    || choices == []
    || (var before, c := choices[..|choices| - 1], choices[|choices| - 1];
        var (db', l') := Drive(cfg, db, l, before);
        AllowedAlone(cfg, db, w, l, before) && Allowed(db', w, l', c))
  }

  // One more step of a thread that runs alone.
  lemma Onward(cfg: Config, db: Db, w: World, l: Local, choices: seq<Choice>, at: (Db, Local), c: Choice, to: (Db,
      Local))
    requires Drive(cfg, db, l, choices) == at && AllowedAlone(cfg, db, w, l, choices)
    requires Allowed(at.0, w, at.1, c) && Step(cfg, at.0, at.1, c) == to
    ensures Drive(cfg, db, l, choices + [c]) == to && AllowedAlone(cfg, db, w, l, choices + [c])
  {
    hide Step, Allowed;
    Extend(cfg, db, l, choices, at, c, to);
    assert (choices + [c])[..|choices|] == choices;
  }

  // The store after payment p has been committed as paid by attempt a.
  function Settled(db: Db, p: string, a: Attempt, paid: Choice): Db
    requires p in db.cases && db.cases[p].intent.id == p && paid.Fresh?
  {
    var intent := db.cases[p].intent;
    var recovery := RecoveryFor(intent, db.cases[p].attempts, a, paid.id, paid.now);
    var intent' := PaidIntent(intent, recovery.Some?, paid.now);
    CommittedDb(db, intent', recovery, EventsFor(intent', paid.id2, paid.id3, paid.now))
  }

  // Attempt i of payment p is presented and can be paid.
  predicate Ready(db: Db, notice: Notice, p: string, i: nat) {
    && WellFormed(notice) && Pays(db, notice, p, i)
    && db.cases[p].intent.id == p
    && db.cases[p].attempts[i].intentId == p
    && AttemptAt(db, db.cases[p].intent.presented, p, i)
    && db.cases[p].attempts[i].status == Succeeded
  }

  lemma PayableIsReady(cfg: Config, s: Sys, notice: Notice, p: string, i: nat)
    requires CasesOk(cfg.maxAttempts, s.db, s.world) && Pays(s.db, notice, p, i) && WellFormed(notice)
    ensures Ready(s.db, notice, p, i) && i == |s.db.cases[p].attempts| - 1
  {
    var c := s.db.cases[p];
    assert CaseOk(cfg.maxAttempts, p, c, s.world, s.db.providers);
    assert AttemptOk(c, i, s.world, s.db.providers);
    FoundActive(cfg.maxAttempts, p, s.db, s.world, c.intent.presented, p, i);
  }

  // The notice is in the ledger, as it was first received.
  predicate Received(db: Db, db': Db, notice: Notice, received: Choice)
    requires received.Fresh?
  {
    var key := JoinKey(notice.connectionId, notice.externalId);
    db'.providerEvents == if key in db.providerEvents then db.providerEvents
      else db.providerEvents[key :=
             ProviderEvent(received.id, notice.connectionId, notice.externalId, notice.paymentId, received.now, None)]
  }

  lemma ReadsPresented(cfg: Config, db: Db, w: World, notice: Notice, p: string, i: nat, received: Choice)
    requires Ready(db, notice, p, i) && received.Fresh?
    ensures var db', l := ReceiveStep(db, notice, received.id, received.now).0, Hook(notice, Receive);
            var choices := [received] + [Found(p, i)] + [Go] + [Found(p, i)];
            && SamePayments(db, db') && Received(db, db', notice, received)
            && Drive(cfg, db, l, choices) == (db', Hook(notice, ReadHistory(db.cases[p].intent, db.cases[p].attempts[i])))
            && AllowedAlone(cfg, db, w, l, choices)
  {
    var l := Hook(notice, Receive);
    var db' := ReceiveStep(db, notice, received.id, received.now).0;
    var a := db.cases[p].attempts[i];
    Onward(cfg, db, w, l, [], (db, l), received, (db', Hook(notice, FindCharge)));
    assert [] + [received] == [received];
    Onward(cfg, db, w, l, [received], (db', Hook(notice, FindCharge)), Found(p, i), (db', Hook(notice, ReadIntent(p, a.id))));
    Onward(cfg, db, w, l, [received] + [Found(p, i)], (db', Hook(notice, ReadIntent(p, a.id))), Go,
           (db', Hook(notice, ReadPresented(db.cases[p].intent))));
    Onward(cfg, db, w, l, [received] + [Found(p, i)] + [Go], (db', Hook(notice, ReadPresented(db.cases[p].intent))), Found(p, i),
           (db', Hook(notice, ReadHistory(db.cases[p].intent, a))));
  }

  // The end of a webhook that pays: the commit, and the mark in the ledger.
  lemma PaysAndFinishes(cfg: Config, db0: Db, w: World, l: Local, before: seq<Choice>, db: Db, notice: Notice,
      p: string,
                        a: Attempt, paid: Choice, processed: Choice)
    requires p in db.cases && db.cases[p].intent.id == p && paid.Fresh? && processed.Fresh?
    requires JoinKey(notice.connectionId, notice.externalId) in db.providerEvents
    requires Drive(cfg, db0, l, before) == (db, Hook(notice, ReadHistory(db.cases[p].intent, a)))
    requires AllowedAlone(cfg, db0, w, l, before)
    ensures var choices := before + [paid] + [Go] + [processed];
            var (db', l') := Drive(cfg, db0, l, choices);
            && SamePayments(Settled(db, p, a, paid), db')
            && db'.providerEvents == db.providerEvents[JoinKey(notice.connectionId, notice.externalId) :=
                 db.providerEvents[JoinKey(notice.connectionId, notice.externalId)].(processedAt := Some(processed.now))]
            && p in db'.cases && l' == HookDone(db'.cases[p].intent)
            && AllowedAlone(cfg, db0, w, l, choices)
  {
    hide CommittedDb, HookStep, RecoveryFor, EventsFor, Drive, AllowedAlone;
    var intent := db.cases[p].intent;
    var recovery := RecoveryFor(intent, db.cases[p].attempts, a, paid.id, paid.now);
    var intent' := PaidIntent(intent, recovery.Some?, paid.now);
    var events := EventsFor(intent', paid.id2, paid.id3, paid.now);
    var db1 := CommittedDb(db, intent', recovery, events);
    CommittedIs(db, intent', recovery, events);
    MarkPaidIs(db, intent', recovery, events);
    PaymentTrace.CommitStepIs(cfg, db, notice, intent', recovery, events);
    PaymentTrace.HistoryStepIs(cfg, db, notice, intent, a, paid);
    PaymentTrace.ProcessedStepIs(cfg, db1, notice, intent', processed);
    Onward(cfg, db0, w, l, before, (db, Hook(notice, ReadHistory(intent, a))), paid,
           (db, Hook(notice, Commit(intent', recovery, events))));
    Onward(cfg, db0, w, l, before + [paid], (db, Hook(notice, Commit(intent', recovery, events))), Go,
           (db1, Hook(notice, Processed(intent'))));
    var db2 := MarkProcessed(db1, notice.connectionId, notice.externalId, processed.now).value;
    Onward(cfg, db0, w, l, before + [paid] + [Go], (db1, Hook(notice, Processed(intent'))), processed, (db2, HookDone(intent')));
  }

  lemma CommittedIs(db: Db, intent: Intent, recovery: Option<Recovery>, events: seq<MerchantEvent>)
    requires intent.id in db.cases
    ensures var db' := CommittedDb(db, intent, recovery, events);
            && db'.cases == db.cases[intent.id := PaidCase(db.cases[intent.id], intent, recovery)]
            && db'.providerEvents == db.providerEvents && db'.idempotency == db.idempotency && db'.providers == db.providers
  {
    PublishKeeps(Put(db, intent.id, PaidCase(db.cases[intent.id], intent, recovery)), events);
  }

  // A paid payment, with its recovery if an earlier attempt had failed. Identifiers and time
  // are those that `paid` hands out.
  predicate PaidAs(c: Case, c': Case, p: string, paid: Choice)
    requires paid.Fresh?
  {
    var n, fallback := |c.attempts|, |c.attempts| > 1;
    && n > 0
    && c'.intent == c.intent.(status := Paid, paidAt := Some(paid.now), recovered := fallback,
                              recoveredAmount := if fallback then c.intent.amount else 0)
    && c'.attempts == c.attempts && c'.decisions == c.decisions
    && c'.recoveries == if fallback then
         [Recovery(paid.id, p, c.attempts[0].id, c.attempts[n - 1].id, c.attempts[0].failureCode, c.intent.amount, paid.now)]
       else []
  }

  // Its events are the last ones of its workspace, and no other workspace has new ones.
  ghost predicate AnnouncedAs(db: Db, db': Db, c: Case, p: string, paid: Choice)
    requires paid.Fresh?
  {
    var ws, fallback := c.intent.workspace, |c.attempts| > 1;
    var amount := if fallback then c.intent.amount else 0;
    && Events(db', ws) == Events(db, ws) + [MerchantEvent(paid.id2, ws, EventKey(PaymentPaid, p), fallback, amount, paid.now)]
         + (if fallback then [MerchantEvent(paid.id3, ws, EventKey(PaymentRecovered, p), fallback, amount, paid.now)] else [])
    && (forall other :: other != ws ==> Events(db', other) == Events(db, other))
    && Count(Events(db', ws), EventKey(PaymentPaid, p)) == 1
    && Count(Events(db', ws), EventKey(PaymentRecovered, p)) == (if fallback then 1 else 0)
  }

  // What a paying notice leaves behind, and no other payment is touched.
  ghost predicate PaidOnce(db: Db, db': Db, p: string, paid: Choice)
    requires p in db.cases && paid.Fresh?
  {
    && p in db'.cases && db'.cases == db.cases[p := db'.cases[p]]
    && PaidAs(db.cases[p], db'.cases[p], p, paid) && AnnouncedAs(db, db', db.cases[p], p, paid)
  }

  lemma PaidOnceSame(a: Db, a': Db, b: Db, b': Db, p: string, paid: Choice)
    requires SamePayments(a, b) && SamePayments(a', b') && paid.Fresh? && p in a.cases && PaidOnce(a, a', p, paid)
    ensures PaidOnce(b, b', p, paid)
  {
    hide PaidAs, AnnouncedAs;
    AnnouncedSame(a, a', b, b', a.cases[p], p, paid);
  }

  lemma AnnouncedSame(a: Db, a': Db, b: Db, b': Db, c: Case, p: string, paid: Choice)
    requires b.outbox == a.outbox && b'.outbox == a'.outbox && paid.Fresh? && AnnouncedAs(a, a', c, p, paid)
    ensures AnnouncedAs(b, b', c, p, paid)
  {
    hide Count;
    forall ws: string ensures Events(b, ws) == Events(a, ws) && Events(b', ws) == Events(a', ws) {}
  }

  // Publishing the events of a payment that has none yet.
  lemma PublishNew(db: Db, intent: Intent, id: string, id2: string, now: Time)
    requires EventKey(PaymentPaid, intent.id) !in db.outboxKeys && EventKey(PaymentRecovered, intent.id) !in db.outboxKeys
    ensures var db', ws, e := Publish(db, EventsFor(intent, id, id2, now)), intent.workspace, intent;
            && Events(db', ws) == Events(db, ws)
                 + [MerchantEvent(id, ws, EventKey(PaymentPaid, e.id), e.recovered, e.recoveredAmount, now)]
                 + (if e.recovered then [MerchantEvent(id2, ws, EventKey(PaymentRecovered, e.id), e.recovered, e.recoveredAmount, now)]
                    else [])
            && forall other :: other != ws ==> Events(db', other) == Events(db, other)
  {
    PublishBoth(db, intent, id, id2, now);
  }

  // Committing a payment that awaits its last attempt.
  lemma CommitWrites(cfg: Config, s: Sys, p: string, intent: Intent, recovery: Option<Recovery>, paid: Choice)
    requires CasesOk(cfg.maxAttempts, s.db, s.world) && OutboxOk(s.db) && paid.Fresh?
    requires p in s.db.cases && s.db.cases[p].intent.status == AwaitingPayment && |s.db.cases[p].attempts| > 0
    requires var c := s.db.cases[p];
             && intent == PaidIntent(c.intent, recovery.Some?, paid.now)
             && recovery == RecoveryFor(c.intent, c.attempts, c.attempts[|c.attempts| - 1], paid.id, paid.now)
    ensures intent.id == p && PaidOnce(s.db, CommittedDb(s.db, intent, recovery, EventsFor(intent, paid.id2, paid.id3, paid.now)), p, paid)
  {
    hide Publish, RecoveryFor, EventsFor, MarkPaid, AnnouncedAs, OutboxOk, LedgerOk, CommittedDb, CommitOk;
    var c, events := s.db.cases[p], EventsFor(intent, paid.id2, paid.id3, paid.now);
    assert CaseOk(cfg.maxAttempts, p, c, s.world, s.db.providers);
    RecoveryFound(cfg.maxAttempts, p, c, s.world, s.db.providers, paid.id, paid.now);
    CommittedIs(s.db, intent, recovery, events);
    CommitAnnounces(cfg, s, p, intent, recovery, paid);
  }

  lemma CommitAnnounces(cfg: Config, s: Sys, p: string, intent: Intent, recovery: Option<Recovery>, paid: Choice)
    requires OutboxOk(s.db) && paid.Fresh?
    requires p in s.db.cases && s.db.cases[p].intent.status == AwaitingPayment && |s.db.cases[p].attempts| > 0
    requires CaseOk(cfg.maxAttempts, p, s.db.cases[p], s.world, s.db.providers)
    requires var c := s.db.cases[p];
             && intent == PaidIntent(c.intent, recovery.Some?, paid.now)
             && recovery == if |c.attempts| > 1 then
                  Some(Recovery(paid.id, p, c.attempts[0].id, c.attempts[|c.attempts| - 1].id, c.attempts[0].failureCode,
                                c.intent.amount, paid.now))
                else None
    ensures AnnouncedAs(s.db, CommittedDb(s.db, intent, recovery, EventsFor(intent, paid.id2, paid.id3, paid.now)),
                        s.db.cases[p], p, paid)
  {
    hide Publish, EventsFor, LedgerOk, CommittedDb, EventsTrue;
    var c, events := s.db.cases[p], EventsFor(intent, paid.id2, paid.id3, paid.now);
    assert CommitOk(intent, recovery, events, c);
    CommitGood(cfg.maxAttempts, s.db, s.world, intent, recovery, events);
    var db' := CommittedDb(s.db, intent, recovery, events);
    assert !Emitted(s.db, EventKey(PaymentPaid, p)) && !Emitted(s.db, EventKey(PaymentRecovered, p));
    CommittedNews(s.db, intent, recovery, paid);
    assert Emitted(db', EventKey(PaymentPaid, p));
    assert Emitted(db', EventKey(PaymentRecovered, p)) <==> |c.attempts| > 1;
  }

  lemma CommittedNews(db: Db, intent: Intent, recovery: Option<Recovery>, paid: Choice)
    requires paid.Fresh? && intent.id in db.cases
    requires EventKey(PaymentPaid, intent.id) !in db.outboxKeys && EventKey(PaymentRecovered, intent.id) !in db.outboxKeys
    ensures var db', ws, e := CommittedDb(db, intent, recovery, EventsFor(intent, paid.id2, paid.id3, paid.now)), intent.workspace, intent;
            && Events(db', ws) == Events(db, ws)
                 + [MerchantEvent(paid.id2, ws, EventKey(PaymentPaid, e.id), e.recovered, e.recoveredAmount, paid.now)]
                 + (if e.recovered then
                      [MerchantEvent(paid.id3, ws, EventKey(PaymentRecovered, e.id), e.recovered, e.recoveredAmount, paid.now)]
                    else [])
            && forall other :: other != ws ==> Events(db', other) == Events(db, other)
  {
    hide Publish, EventsFor;
    PublishNew(Put(db, intent.id, PaidCase(db.cases[intent.id], intent, recovery)), intent, paid.id2, paid.id3, paid.now);
  }

  // The ledger does not matter for what is committed.
  lemma SettledSame(db: Db, db': Db, p: string, a: Attempt, paid: Choice)
    requires SamePayments(db, db') && p in db.cases && db.cases[p].intent.id == p && paid.Fresh?
    ensures SamePayments(Settled(db, p, a, paid), Settled(db', p, a, paid))
  {
    hide RecoveryFor, EventsFor, Publish;
    var recovery := RecoveryFor(db.cases[p].intent, db.cases[p].attempts, a, paid.id, paid.now);
    var intent := PaidIntent(db.cases[p].intent, recovery.Some?, paid.now);
    var events := EventsFor(intent, paid.id2, paid.id3, paid.now);
    var c := PaidCase(db.cases[p], intent, recovery);
    PublishKeeps(Put(db, p, c), events);
    PublishKeeps(Put(db', p, c), events);
    PublishAlike(Put(db, p, c), Put(db', p, c), events);
  }

  lemma {:induction false} PublishAlike(db: Db, db': Db, events: seq<MerchantEvent>)
    requires SamePayments(db, db')
    ensures SamePayments(Publish(db, events), Publish(db', events))
    decreases |events|
  {
    if events != [] { PublishAlike(PublishOne(db, events[0]), PublishOne(db', events[0]), events[1..]); }
  }

  lemma SettledOnce(cfg: Config, s: Sys, p: string, i: nat, paid: Choice)
    requires CasesOk(cfg.maxAttempts, s.db, s.world) && OutboxOk(s.db) && paid.Fresh?
    requires p in s.db.cases && s.db.cases[p].intent.status == AwaitingPayment && i == |s.db.cases[p].attempts| - 1
    ensures s.db.cases[p].intent.id == p
    ensures PaidOnce(s.db, Settled(s.db, p, s.db.cases[p].attempts[i], paid), p, paid)
  {
    hide PaidOnce, RecoveryFor, EventsFor, CommittedDb, OutboxOk, LedgerOk;
    var c := s.db.cases[p];
    assert CaseOk(cfg.maxAttempts, p, c, s.world, s.db.providers);
    var recovery := RecoveryFor(c.intent, c.attempts, c.attempts[i], paid.id, paid.now);
    CommitWrites(cfg, s, p, PaidIntent(c.intent, recovery.Some?, paid.now), recovery, paid);
  }

  // The ledger's entry of the notice: the first reception stays, and it is marked as processed.
  predicate LedgerMarks(db: Db, db': Db, notice: Notice, received: Choice, processed: Choice)
    requires received.Fresh? && processed.Fresh?
  {
    var key := JoinKey(notice.connectionId, notice.externalId);
    db'.providerEvents == db.providerEvents[key :=
      if key in db.providerEvents then db.providerEvents[key].(processedAt := Some(processed.now))
      else ProviderEvent(received.id, notice.connectionId, notice.externalId, notice.paymentId, received.now, Some(processed.now))]
  }

  // A notice about a presented attempt can always be carried through, whether or not it
  // has been received before, and then it has paid the payment exactly once.
  lemma PayableSucceeds(cfg: Config, h: History, k: nat, notice: Notice, p: string, i: nat,
                        received: Choice, paid: Choice, processed: Choice)
    requires IsRun(cfg, h) && k < |h.states|
    requires Pays(h.states[k].db, notice, p, i) && WellFormed(notice)
    requires received.Fresh? && paid.Fresh? && processed.Fresh?
    ensures var s := h.states[k];
            var l, choices := Hook(notice, Receive), PayingChoices(p, i, received, paid, processed);
            var (db', l') := Drive(cfg, s.db, l, choices);
            && AllowedAlone(cfg, s.db, s.world, l, choices)
            && PaidOnce(s.db, db', p, paid) && LedgerMarks(s.db, db', notice, received, processed)
            && l' == HookDone(db'.cases[p].intent)
  {
    hide Drive, AllowedAlone, Apply, CommittedDb, OutboxOk, PaidOnce, CasesOk, Settled;
    RunSafe(cfg, h, k);
    var s := h.states[k];
    var l := Hook(notice, Receive);
    PayableIsReady(cfg, s, notice, p, i);
    ReadsPresented(cfg, s.db, s.world, notice, p, i, received);
    var db := ReceiveStep(s.db, notice, received.id, received.now).0;
    var a := s.db.cases[p].attempts[i];
    var before := [received] + [Found(p, i)] + [Go] + [Found(p, i)];
    PaysAndFinishes(cfg, s.db, s.world, l, before, db, notice, p, a, paid, processed);
    assert PayingChoices(p, i, received, paid, processed) == before + [paid] + [Go] + [processed];
    SettledOnce(cfg, s, p, i, paid);
    SettledSame(s.db, db, p, a, paid);
    PaidOnceSame(s.db, Settled(s.db, p, a, paid), s.db, Drive(cfg, s.db, l, before + [paid] + [Go] + [processed]).0, p, paid);
  }

  // ---------- Replays ----------

  // Deliveries of one notice, one after another; each may be cut off anywhere.
  function Deliveries(cfg: Config, db: Db, notice: Notice, runs: seq<seq<Choice>>): Db
    decreases |runs|
  {
    if runs == [] then db
    else Drive(cfg, Deliveries(cfg, db, notice, runs[..|runs| - 1]), Hook(notice, Receive), runs[|runs| - 1]).0
  }

  lemma {:induction false} DeliveriesChangeNothing(cfg: Config, db: Db, notice: Notice, runs: seq<seq<Choice>>)
    requires !Payable(db, notice)
    ensures SamePayments(db, Deliveries(cfg, db, notice, runs)) && !Payable(Deliveries(cfg, db, notice, runs), notice)
    decreases |runs|
  {
    if runs != [] {
      DeliveriesChangeNothing(cfg, db, notice, runs[..|runs| - 1]);
      UnpayableChangesNothing(cfg, Deliveries(cfg, db, notice, runs[..|runs| - 1]), notice, runs[|runs| - 1]);
    }
  }

  // A provider gives each of its charges on a connection an identifier of its own.
  ghost predicate UniqueCharge(db: Db, notice: Notice) {
    forall p, i, q, j ::
      && ChargedAt(db, notice.connectionId, notice.paymentId, p, i)
      && ChargedAt(db, notice.connectionId, notice.paymentId, q, j)
      ==> p == q && i == j
  }

  lemma PaidIsSpent(db: Db, db': Db, notice: Notice, p: string, i: nat, paid: Choice)
    requires paid.Fresh? && Ready(db, notice, p, i) && UniqueCharge(db, notice) && PaidOnce(db, db', p, paid)
    ensures !Payable(db', notice)
  {
    if Payable(db', notice) {
      var q, j: nat :| Pays(db', notice, q, j);
      assert ChargedAt(db, notice.connectionId, notice.paymentId, q, j);
    }
  }

  // Once a notice has paid its payment, no number of replays changes anything but the ledger.
  lemma ReplaysAfterSuccess(cfg: Config, h: History, k: nat, notice: Notice, p: string, i: nat,
                            received: Choice, paid: Choice, processed: Choice, runs: seq<seq<Choice>>)
    requires IsRun(cfg, h) && k < |h.states|
    requires Pays(h.states[k].db, notice, p, i) && WellFormed(notice) && UniqueCharge(h.states[k].db, notice)
    requires received.Fresh? && paid.Fresh? && processed.Fresh?
    ensures var choices := PayingChoices(p, i, received, paid, processed);
            var db' := Drive(cfg, h.states[k].db, Hook(notice, Receive), choices).0;
            SamePayments(db', Deliveries(cfg, db', notice, runs))
  {
    hide Drive, Apply, PaidOnce;
    var choices := PayingChoices(p, i, received, paid, processed);
    var db' := Drive(cfg, h.states[k].db, Hook(notice, Receive), choices).0;
    PayableSucceeds(cfg, h, k, notice, p, i, received, paid, processed);
    RunSafe(cfg, h, k);
    PayableIsReady(cfg, h.states[k], notice, p, i);
    PaidIsSpent(h.states[k].db, db', notice, p, i, paid);
    DeliveriesChangeNothing(cfg, db', notice, runs);
  }

  // The charge of the notice belongs to a payment that is already paid.
  predicate Spent(db: Db, notice: Notice, p: string, i: nat) {
    && ChargedAt(db, notice.connectionId, notice.paymentId, p, i)
    && db.cases[p].attempts[i].intentId == p
    && db.cases[p].intent.status == Paid
  }

  // Where a replay stands that was received when its payment was already paid.
  predicate Replaying(notice: Notice, p: string, l: Local) {
    match l
    case Hook(n, Receive) => n == notice
    case Hook(n, FindCharge) => n == notice
    case Hook(n, ReadIntent(payment, _)) => n == notice && payment == p
    case Hook(n, Processed(_)) => n == notice
    case HookDone(_) => true
    case Stopped(_) => true
    case _ => false
  }

  lemma ReplayStep(cfg: Config, db: Db, notice: Notice, p: string, i: nat, l: Local, c: Choice)
    requires UniqueCharge(db, notice) && Spent(db, notice, p, i) && Replaying(notice, p, l)
    ensures var (db', l') := Step(cfg, db, l, c); SamePayments(db, db') && Replaying(notice, p, l')
  {
  }

  lemma StaysSpent(cfg: Config, h: History, notice: Notice, p: string, i: nat, k: nat)
    requires IsRun(cfg, h) && k < |h.actions| && Spent(h.states[k].db, notice, p, i)
    ensures Spent(h.states[k + 1].db, notice, p, i)
  {
    hide Apply, Rank;
    RunAdvances(cfg, h, k);
  }

  lemma StaysReplaying(cfg: Config, s: Sys, a: Action, notice: Notice, p: string, i: nat, t: nat)
    requires Enabled(s, a) && UniqueCharge(s.db, notice) && Spent(s.db, notice, p, i)
    requires t in s.threads && Replaying(notice, p, s.threads[t])
    ensures var s' := Apply(cfg, s, a); t in s'.threads && Replaying(notice, p, s'.threads[t])
    ensures a.Run? && a.thread == t ==> SamePayments(s.db, Apply(cfg, s, a).db)
  {
    if a.Run? && a.thread == t { ReplayStep(cfg, s.db, notice, p, i, s.threads[t], a.choice); }
  }

  lemma {:induction false} ReplayStands(cfg: Config, h: History, notice: Notice, p: string, i: nat, t: nat, j: nat,
      k: nat)
    requires IsRun(cfg, h) && j <= k < |h.states|
    requires forall n :: j <= n < |h.states| ==> UniqueCharge(h.states[n].db, notice)
    requires Spent(h.states[j].db, notice, p, i)
    requires t in h.states[j].threads && h.states[j].threads[t] == Hook(notice, Receive)
    ensures Spent(h.states[k].db, notice, p, i)
    ensures t in h.states[k].threads && Replaying(notice, p, h.states[k].threads[t])
  {
    hide Apply, Enabled;
    if j < k {
      ReplayStands(cfg, h, notice, p, i, t, j, k - 1);
      StaysSpent(cfg, h, notice, p, i, k - 1);
      StaysReplaying(cfg, h.states[k - 1], h.actions[k - 1], notice, p, i, t);
    }
  }

  // In any run, a webhook that is received when its payment is already paid changes
  // nothing but the ledger, however its steps interleave with everything else.
  lemma ReplayChangesNothing(cfg: Config, h: History, notice: Notice, p: string, i: nat, t: nat, j: nat, k: nat)
    requires IsRun(cfg, h) && j <= k < |h.actions|
    requires forall n :: j <= n < |h.states| ==> UniqueCharge(h.states[n].db, notice)
    requires Spent(h.states[j].db, notice, p, i)
    requires t in h.states[j].threads && h.states[j].threads[t] == Hook(notice, Receive)
    requires h.actions[k].Run? && h.actions[k].thread == t
    ensures SamePayments(h.states[k].db, h.states[k + 1].db)
  {
    hide Apply, Enabled;
    ReplayStands(cfg, h, notice, p, i, t, j, k);
    StaysReplaying(cfg, h.states[k], h.actions[k], notice, p, i, t);
  }
}
