// The in-memory store: maps that its methods update in place. What it holds is a
// `PaymentDb.Db`, and each method does to it what the function of the same purpose says.
module PaymentStore {
  import opened Domain
  import opened Sorting
  import opened PaymentDb
  import opened PaymentMachine

  // A missing key reads as an empty list.
  function Rows<T>(table: map<string, seq<T>>, key: string): seq<T> {
    if key in table then table[key] else []
  }

  predicate BySequence(a: Attempt, b: Attempt) {
    a.sequence < b.sequence
  }

  predicate InSequence(attempts: seq<Attempt>) {
    forall i, j :: 0 <= i < j < |attempts| ==> attempts[i].sequence < attempts[j].sequence
  }

  lemma SortKeepsSequence(attempts: seq<Attempt>)
    requires InSequence(attempts)
    ensures Sort(attempts, BySequence) == attempts
  {
    SortSorted(attempts, BySequence);
    forall x, y | x in attempts && y in attempts && !BySequence(x, y) && !BySequence(y, x) ensures x == y {
      var i :| 0 <= i < |attempts| && attempts[i] == x;
      var j :| 0 <= j < |attempts| && attempts[j] == y;
    }
    assert TiesAreEqual(attempts, BySequence);
    SortedUnique(attempts, Sort(attempts, BySequence), BySequence);
  }

  lemma NothingInSequence(db: Db, payment: string)
    requires AttemptsOf(db, payment) == []
    ensures InSequence(AttemptsOf(db, payment))
  {
  }

  // Saving an attempt under its own number keeps the numbering.
  lemma ReplaceInSequence(attempts: seq<Attempt>, attempt: Attempt)
    requires InSequence(attempts)
    requires forall i :: 0 <= i < |attempts| && attempts[i].id == attempt.id ==> attempts[i].sequence == attempt.sequence
    ensures InSequence(Replace(attempts, attempt))
  {
  }

  // Some connection of the first attempt's identifier has this environment.
  ghost predicate ReadFrom(attempts: seq<Attempt>, providers: Providers, env: Environment) {
    && |attempts| > 0
    && exists w, i :: w in providers && 0 <= i < |providers[w]|
                   && providers[w][i].id == attempts[0].connectionId && providers[w][i].environment == env
  }

  ghost predicate EnvironmentRead(db: Db, p: string, env: Environment) {
    ReadFrom(AttemptsOf(db, p), db.providers, env)
  }

  predicate Listed(attempts: map<string, Attempt>, ids: seq<string>) {
    forall i :: 0 <= i < |ids| ==> ids[i] in attempts
  }

  function Fetched(attempts: map<string, Attempt>, ids: seq<string>): (r: seq<Attempt>)
    requires Listed(attempts, ids)
    ensures |r| == |ids|
    ensures forall i :: 0 <= i < |ids| ==> r[i] == attempts[ids[i]]
  {
    seq(|ids|, i requires 0 <= i < |ids| => attempts[ids[i]])
  }

  // The tables that describe payments.
  datatype Tables = Tables(
    payments: map<string, Intent>,
    attempts: map<string, Attempt>,
    attemptsByPay: map<string, seq<string>>,
    decisionsByPay: map<string, seq<Decision>>,
    recoveriesByPay: map<string, seq<Recovery>>)

  // Rows are stored under their own identifiers, and every listed attempt is there.
  ghost predicate Linked(t: Tables) {
    && (forall p :: p in t.payments ==> t.payments[p].id == p)
    && (forall p: string :: Listed(t.attempts, Rows(t.attemptsByPay, p)))
    && (forall id :: id in t.attempts ==> t.attempts[id].id == id)
  }

  // Every row belongs to a stored payment, and every attempt is listed under its own. The
  // service keeps it so; the tables alone would also take rows of unknown payments.
  ghost predicate Owned(t: Tables) {
    && t.attemptsByPay.Keys <= t.payments.Keys
    && t.decisionsByPay.Keys <= t.payments.Keys
    && t.recoveriesByPay.Keys <= t.payments.Keys
    && (forall p: string, id :: id in Rows(t.attemptsByPay, p) ==> id in t.attempts && t.attempts[id].intentId == p)
    && (forall id :: id in t.attempts ==> id in Rows(t.attemptsByPay, t.attempts[id].intentId))
  }

  // No row mentions the identifier.
  predicate Unused(t: Tables, p: string) {
    p !in t.payments && Rows(t.attemptsByPay, p) == [] && Rows(t.decisionsByPay, p) == [] && Rows(t.recoveriesByPay, p) == []
  }

  ghost function CaseOf(t: Tables, p: string): Case
    requires Linked(t) && p in t.payments
  {
    Case(t.payments[p], Fetched(t.attempts, Rows(t.attemptsByPay, p)), Rows(t.decisionsByPay, p), Rows(t.recoveriesByPay, p))
  }

  ghost function CasesOf(t: Tables): map<string, Case>
    requires Linked(t)
  {
    map p | p in t.payments :: CaseOf(t, p)
  }

  // ---------- A new attempt ----------

  ghost function Inserted(t: Tables, attempt: Attempt, decision: Decision): Tables {
    var p, q := attempt.intentId, decision.intentId;
    t.(attempts := t.attempts[attempt.id := attempt],
       attemptsByPay := t.attemptsByPay[p := Rows(t.attemptsByPay, p) + [attempt.id]],
       decisionsByPay := t.decisionsByPay[q := Rows(t.decisionsByPay, q) + [decision]])
  }

  lemma InsertedLinked(t: Tables, attempt: Attempt, decision: Decision)
    requires Linked(t)
    ensures Linked(Inserted(t, attempt, decision))
  {
    var t' := Inserted(t, attempt, decision);
    forall p: string ensures Listed(t'.attempts, Rows(t'.attemptsByPay, p)) {
      assert Listed(t.attempts, Rows(t.attemptsByPay, p));
    }
  }

  lemma InsertedOwned(t: Tables, attempt: Attempt, decision: Decision)
    requires Owned(t) && attempt.id !in t.attempts && attempt.intentId in t.payments && decision.intentId in t.payments
    ensures Owned(Inserted(t, attempt, decision))
  {
    var t' := Inserted(t, attempt, decision);
    forall p: string, id | id in Rows(t'.attemptsByPay, p) ensures id in t'.attempts && t'.attempts[id].intentId == p {
      if id != attempt.id { assert id in Rows(t.attemptsByPay, p); }
    }
    forall id | id in t'.attempts ensures id in Rows(t'.attemptsByPay, t'.attempts[id].intentId) {
      if id == attempt.id {
        var ids := t'.attemptsByPay[attempt.intentId];
        assert ids[|ids| - 1] == id;
      } else {
        assert id in Rows(t.attemptsByPay, t.attempts[id].intentId);
      }
    }
  }

  lemma InsertedCase(t: Tables, attempt: Attempt, decision: Decision, q: string)
    requires Linked(t) && attempt.id !in t.attempts && q in t.payments && Linked(Inserted(t, attempt, decision))
    requires decision.intentId == attempt.intentId
    ensures var c := CaseOf(t, q);
            CaseOf(Inserted(t, attempt, decision), q) ==
            if q != attempt.intentId then c
            else c.(attempts := c.attempts + [attempt], decisions := c.decisions + [decision])
  {
    assert Listed(t.attempts, Rows(t.attemptsByPay, q));
    var c, c' := CaseOf(t, q), CaseOf(Inserted(t, attempt, decision), q);
    assert c'.attempts == if q != attempt.intentId then c.attempts else c.attempts + [attempt];
  }

  lemma AttemptInserted(t: Tables, attempt: Attempt, decision: Decision)
    requires Linked(t) && attempt.intentId in t.payments && attempt.id !in t.attempts && decision.intentId == attempt.intentId
    ensures Linked(Inserted(t, attempt, decision))
    ensures var p := attempt.intentId;
            var c := CaseOf(t, p);
            CasesOf(Inserted(t, attempt, decision))
            == CasesOf(t)[p := c.(attempts := c.attempts + [attempt], decisions := c.decisions + [decision])]
  {
    InsertedLinked(t, attempt, decision);
    hide Linked, CaseOf;
    forall q | q in t.payments
      ensures CaseOf(Inserted(t, attempt, decision), q) ==
              if q != attempt.intentId then CaseOf(t, q)
              else CaseOf(t, q).(attempts := CaseOf(t, q).attempts + [attempt], decisions := CaseOf(t, q).decisions + [decision])
    {
      InsertedCase(t, attempt, decision, q);
    }
  }

  // ---------- A saved attempt ----------

  ghost function Updated(t: Tables, attempt: Attempt): Tables {
    t.(attempts := t.attempts[attempt.id := attempt])
  }

  lemma UpdatedLinked(t: Tables, attempt: Attempt)
    requires Linked(t)
    ensures Linked(Updated(t, attempt))
    ensures Owned(t) && attempt.id in t.attempts && t.attempts[attempt.id].intentId == attempt.intentId ==> Owned(Updated(t, attempt))
  {
    var t' := Updated(t, attempt);
    forall p: string ensures Listed(t'.attempts, Rows(t'.attemptsByPay, p)) {
      assert Listed(t.attempts, Rows(t.attemptsByPay, p));
    }
    if Owned(t) && attempt.id in t.attempts && t.attempts[attempt.id].intentId == attempt.intentId {
      forall id | id in t'.attempts ensures id in Rows(t'.attemptsByPay, t'.attempts[id].intentId) {
        assert id in Rows(t.attemptsByPay, t.attempts[id].intentId);
      }
    }
  }

  // Saving an attempt replaces it wherever it is listed.
  lemma UpdatedCase(t: Tables, attempt: Attempt, q: string)
    requires Linked(t) && Linked(Updated(t, attempt)) && q in t.payments
    ensures CaseOf(Updated(t, attempt), q) == CaseOf(t, q).(attempts := Replace(CaseOf(t, q).attempts, attempt))
  {
    assert Listed(t.attempts, Rows(t.attemptsByPay, q));
    assert CaseOf(Updated(t, attempt), q).attempts == Replace(CaseOf(t, q).attempts, attempt);
  }

  ghost function Everywhere(cases: map<string, Case>, attempt: Attempt): map<string, Case> {
    map p | p in cases :: cases[p].(attempts := Replace(cases[p].attempts, attempt))
  }

  lemma AttemptUpdated(t: Tables, attempt: Attempt)
    requires Linked(t)
    ensures Linked(Updated(t, attempt))
    ensures CasesOf(Updated(t, attempt)) == Everywhere(CasesOf(t), attempt)
  {
    UpdatedLinked(t, attempt);
    hide Linked, CaseOf;
    forall q | q in t.payments
      ensures CaseOf(Updated(t, attempt), q) == CaseOf(t, q).(attempts := Replace(CaseOf(t, q).attempts, attempt))
    {
      UpdatedCase(t, attempt, q);
    }
  }

  // An attempt of an owned table is listed under its own payment and nowhere else.
  lemma ListedAtHome(t: Tables, id: string, q: string)
    requires Linked(t) && Owned(t) && q in t.payments
    ensures if id in t.attempts && t.attempts[id].intentId == q
            then exists i :: 0 <= i < |CaseOf(t, q).attempts| && CaseOf(t, q).attempts[i].id == id
            else forall i :: 0 <= i < |CaseOf(t, q).attempts| ==> CaseOf(t, q).attempts[i].id != id
  {
    var ids := Rows(t.attemptsByPay, q);
    assert Listed(t.attempts, ids);
    if id in t.attempts && t.attempts[id].intentId == q {
      assert id in ids;
      var i :| 0 <= i < |ids| && ids[i] == id;
      assert CaseOf(t, q).attempts[i].id == id;
    } else {
      forall i | 0 <= i < |ids| ensures CaseOf(t, q).attempts[i].id != id { assert ids[i] in ids; }
    }
  }

  // So saving it changes its own payment only, as the abstract operation says.
  lemma SavedAtHome(db: Db, t: Tables, attempt: Attempt)
    requires Linked(t) && Owned(t) && db.cases == CasesOf(t)
    requires attempt.id in t.attempts ==> t.attempts[attempt.id].intentId == attempt.intentId
    ensures match SaveAttempt(db, attempt)
            case Ok(db') => attempt.id in t.attempts && db' == db.(cases := Everywhere(db.cases, attempt))
            case Err(e) => attempt.id !in t.attempts && e == NotFound
  {
    hide CaseOf, Linked;
    var p := attempt.intentId;
    if attempt.id in t.attempts { OwnedPayment(t, attempt.id); }
    forall q | q in t.payments && q != p ensures Replace(CaseOf(t, q).attempts, attempt) == CaseOf(t, q).attempts {
      ListedAtHome(t, attempt.id, q);
    }
    if p in t.payments {
      ListedAtHome(t, attempt.id, p);
      assert Everywhere(db.cases, attempt) == db.cases[p := db.cases[p].(attempts := Replace(db.cases[p].attempts, attempt))];
    }
  }

  lemma OwnedPayment(t: Tables, id: string)
    requires Owned(t) && id in t.attempts
    ensures t.attempts[id].intentId in t.payments
  {
    assert id in Rows(t.attemptsByPay, t.attempts[id].intentId);
  }

  // ---------- A saved payment and its recovery ----------

  ghost function Stored(t: Tables, intent: Intent): Tables {
    t.(payments := t.payments[intent.id := intent])
  }

  lemma StoredCase(t: Tables, intent: Intent, q: string)
    requires Linked(t) && Linked(Stored(t, intent))
    ensures q in t.payments ==>
              CaseOf(Stored(t, intent), q) == (if q != intent.id then CaseOf(t, q) else CaseOf(t, q).(intent := intent))
    ensures q == intent.id && Unused(t, q) ==> CaseOf(Stored(t, intent), q) == Case(intent, [], [], [])
  {
  }

  lemma PaymentStored(t: Tables, intent: Intent)
    requires Linked(t)
    ensures Linked(Stored(t, intent))
    ensures Owned(t) ==> Owned(Stored(t, intent))
    ensures intent.id in t.payments ==>
              CasesOf(Stored(t, intent)) == CasesOf(t)[intent.id := CaseOf(t, intent.id).(intent := intent)]
    ensures Unused(t, intent.id) ==> CasesOf(Stored(t, intent)) == CasesOf(t)[intent.id := Case(intent, [], [], [])]
  {
    StoredLinked(t, intent);
    var t' := Stored(t, intent);
    hide CaseOf, Linked, Owned, Unused;
    forall q | q in t.payments
      ensures CaseOf(t', q) == if q != intent.id then CaseOf(t, q) else CaseOf(t, q).(intent := intent)
    {
      StoredCase(t, intent, q);
    }
    StoredCase(t, intent, intent.id);
    if Unused(t, intent.id) { assert intent.id !in t.payments by { UnusedIsNew(t, intent.id); } }
    CasesDiffer(t, t', intent.id);
  }

  // Tables whose cases agree on every payment but one.
  lemma CasesDiffer(t: Tables, t': Tables, p: string)
    requires Linked(t) && Linked(t') && t'.payments.Keys == t.payments.Keys + {p}
    requires forall q | q in t.payments && q != p :: CaseOf(t', q) == CaseOf(t, q)
    ensures CasesOf(t') == CasesOf(t)[p := CaseOf(t', p)]
  {
    hide CaseOf, Linked;
  }

  lemma UnusedIsNew(t: Tables, q: string)
    requires Unused(t, q)
    ensures q !in t.payments
  {
  }

  lemma StoredLinked(t: Tables, intent: Intent)
    requires Linked(t)
    ensures Linked(Stored(t, intent))
    ensures Owned(t) ==> Owned(Stored(t, intent))
  {
  }

  ghost function Recovered(t: Tables, r: Recovery): Tables {
    t.(recoveriesByPay := t.recoveriesByPay[r.intentId := [r]])
  }

  lemma RecoveredCase(t: Tables, r: Recovery, q: string)
    requires Linked(t) && q in t.payments && Linked(Recovered(t, r))
    ensures CaseOf(Recovered(t, r), q) == if q != r.intentId then CaseOf(t, q) else CaseOf(t, q).(recoveries := [r])
  {
  }

  lemma RecoveryStored(t: Tables, r: Recovery)
    requires Linked(t)
    ensures Linked(Recovered(t, r))
    ensures Owned(t) && r.intentId in t.payments ==> Owned(Recovered(t, r))
    ensures r.intentId in t.payments ==>
              CasesOf(Recovered(t, r)) == CasesOf(t)[r.intentId := CaseOf(t, r.intentId).(recoveries := [r])]
  {
    RecoveredLinked(t, r);
    hide CaseOf, Linked, Owned;
    forall q | q in t.payments
      ensures CaseOf(Recovered(t, r), q) == if q != r.intentId then CaseOf(t, q) else CaseOf(t, q).(recoveries := [r])
    {
      RecoveredCase(t, r, q);
    }
  }

  lemma RecoveredLinked(t: Tables, r: Recovery)
    requires Linked(t)
    ensures Linked(Recovered(t, r))
    ensures Owned(t) && r.intentId in t.payments ==> Owned(Recovered(t, r))
  {
  }

  lemma RecoveriesOf(t: Tables, p: string)
    requires Linked(t) && p in t.payments
    ensures CaseOf(t, p).recoveries == Rows(t.recoveriesByPay, p)
  {
  }

  lemma PublishOneSame(db: Db, db': Db, e: MerchantEvent)
    requires db'.outbox == db.outbox && db'.outboxKeys == db.outboxKeys
    ensures PublishOne(db', e).outbox == PublishOne(db, e).outbox && PublishOne(db', e).outboxKeys == PublishOne(db, e).outboxKeys
  {
  }

  // What is published does not depend on the payments.
  lemma {:induction false} PublishSame(db: Db, db': Db, events: seq<MerchantEvent>)
    requires db'.outbox == db.outbox && db'.outboxKeys == db.outboxKeys
    ensures Publish(db', events).outbox == Publish(db, events).outbox
    ensures Publish(db', events).outboxKeys == Publish(db, events).outboxKeys
    decreases |events|
  {
    hide PublishOne;
    if events != [] {
      PublishOneSame(db, db', events[0]);
      PublishSame(PublishOne(db, events[0]), PublishOne(db', events[0]), events[1..]);
    }
  }

  class Store {
    var payments: map<string, Intent>
    var idempotency: map<string, IdempotencyRecord>
    var providers: Providers
    var attempts: map<string, Attempt>
    var attemptsByPay: map<string, seq<string>>
    var decisionsByPay: map<string, seq<Decision>>
    var recoveriesByPay: map<string, seq<Recovery>>
    var providerEvents: map<string, ProviderEvent>
    var merchantEvents: map<string, seq<MerchantEvent>>
    var merchantEventKeys: set<EventKey>

    ghost function Payments(): Tables
      reads this
    {
      Tables(payments, attempts, attemptsByPay, decisionsByPay, recoveriesByPay)
    }

    ghost predicate Valid()
      reads this
    {
      Linked(Payments()) && forall key :: key in idempotency ==> idempotency[key].paymentId in payments
    }

    ghost predicate Homed()
      reads this
    {
      Valid() && Owned(Payments())
    }

    ghost function Contents(): Db
      requires Valid()
      reads this
    {
      Db(CasesOf(Payments()), idempotency, providers, providerEvents, merchantEvents, merchantEventKeys)
    }

    constructor ()
      ensures Homed() && Contents() == EMPTY
    {
      payments, idempotency, providers := map[], map[], map[];
      attempts, attemptsByPay, decisionsByPay, recoveriesByPay := map[], map[], map[], map[];
      providerEvents, merchantEvents, merchantEventKeys := map[], map[], {};
    }

    method AddProviderConnection(conn: Connection)
      requires Valid()
      modifies this`providers
      ensures Valid() && (old(Homed()) ==> Homed())
      ensures Contents() == old(Contents()).(providers :=
                old(providers)[conn.workspace := Connections(old(Contents()), conn.workspace) + [conn]])
    {
      providers := providers[conn.workspace := Rows(providers, conn.workspace) + [conn]];
    }

    // The row of a new payment replaces any payment under its identifier; with a fresh
    // identifier that is an insertion.
    method GetOrCreatePayment(intent: Intent) returns (result: Result<(Intent, bool)>)
      requires Valid()
      modifies this`payments, this`idempotency
      ensures Valid() && (old(Homed()) ==> Homed())
      ensures JoinKey(intent.workspace, intent.idempotencyKey) in old(idempotency) || Unused(old(Payments()), intent.id) ==>
                (Contents(), result) == GetOrCreate(old(Contents()), intent)
      ensures JoinKey(intent.workspace, intent.idempotencyKey) !in old(idempotency) ==>
                && result == Ok((intent, true)) && payments == old(payments)[intent.id := intent]
                && idempotency == old(idempotency)[JoinKey(intent.workspace, intent.idempotencyKey) :=
                                                     IdempotencyRecord(intent.id, intent.fingerprint)]
      ensures JoinKey(intent.workspace, intent.idempotencyKey) in old(idempotency) ==>
                && payments == old(payments) && idempotency == old(idempotency)
                && var record := idempotency[JoinKey(intent.workspace, intent.idempotencyKey)];
                   if record.fingerprint != intent.fingerprint then result == Err(IdempotencyConflict)
                   else record.paymentId in payments && result == Ok((payments[record.paymentId], false))
    {
      hide Owned, Unused;
      var key := JoinKey(intent.workspace, intent.idempotencyKey);
      if key in idempotency {
        var record := idempotency[key];
        if record.fingerprint != intent.fingerprint {
          return Err(IdempotencyConflict);
        }
        return Ok((payments[record.paymentId], false));
      }
      PaymentStored(Payments(), intent);
      payments := payments[intent.id := intent];
      idempotency := idempotency[key := IdempotencyRecord(intent.id, intent.fingerprint)];
      return Ok((intent, true));
    }

    method GetPayment(id: string) returns (result: Result<Intent>)
      requires Valid()
      ensures result == if id in Contents().cases then Ok(Contents().cases[id].intent) else Err(NotFound)
      ensures result.Ok? ==> result.value.id == id
    {
      if id !in payments {
        return Err(NotFound);
      }
      return Ok(payments[id]);
    }

    method SavePayment(intent: Intent) returns (error: Option<Error>)
      requires Valid()
      modifies this`payments
      ensures Valid() && (old(Homed()) ==> Homed())
      ensures match PaymentDb.SavePayment(old(Contents()), intent)
              case Ok(db) => error == None && Contents() == db
              case Err(e) => error == Some(e) && Contents() == old(Contents())
      ensures if intent.id in old(payments) then error == None && payments == old(payments)[intent.id := intent]
              else error == Some(NotFound) && payments == old(payments)
    {
      hide CaseOf;
      if intent.id !in payments {
        return Some(NotFound);
      }
      PaymentStored(Payments(), intent);
      payments := payments[intent.id := intent];
      return None;
    }

    method ListProviderConnections(workspace: string) returns (connections: seq<Connection>)
      requires Valid()
      ensures connections == Connections(Contents(), workspace)
    {
      connections := Rows(providers, workspace);
    }

    // An attempt of an unknown payment is taken as well; only the database's foreign key
    // would refuse it.
    method AddAttemptWithRoutingDecision(attempt: Attempt, decision: Decision) returns (error: Option<Error>)
      requires Valid()
      modifies this`attempts, this`attemptsByPay, this`decisionsByPay
      ensures Valid()
      ensures if attempt.id in old(attempts) then error == Some(InvalidTransition) && Payments() == old(Payments())
              else error == None && Payments() == Inserted(old(Payments()), attempt, decision)
      ensures old(Homed()) && attempt.intentId in old(Contents()).cases && decision.intentId == attempt.intentId ==>
                && Homed()
                && match AddAttempt(old(Contents()), attempt, decision)
                   case Ok(db) => error == None && Contents() == db
                   case Err(e) => error == Some(e) && Contents() == old(Contents())
    {
      hide CaseOf;
      if Homed() { AttemptsAreFound(attempt.id); }
      if attempt.id in attempts {
        return Some(InvalidTransition);
      }
      InsertedLinked(Payments(), attempt, decision);
      if Homed() && attempt.intentId in payments && decision.intentId == attempt.intentId {
        AttemptInserted(Payments(), attempt, decision);
        InsertedOwned(Payments(), attempt, decision);
      }
      var p, q := attempt.intentId, decision.intentId;
      attempts := attempts[attempt.id := attempt];
      attemptsByPay := attemptsByPay[p := Rows(attemptsByPay, p) + [attempt.id]];
      decisionsByPay := decisionsByPay[q := Rows(decisionsByPay, q) + [decision]];
      return None;
    }

    // The attempt is replaced wherever it is listed, whatever payment it names.
    method SaveAttempt(attempt: Attempt) returns (error: Option<Error>)
      requires Valid()
      modifies this`attempts
      ensures Valid()
      ensures attempt.id !in old(attempts) ==> error == Some(NotFound) && attempts == old(attempts)
      ensures attempt.id in old(attempts) ==>
                && error == None && attempts == old(attempts)[attempt.id := attempt]
                && Contents() == old(Contents()).(cases := Everywhere(old(Contents()).cases, attempt))
      ensures old(Homed()) && (attempt.id in old(attempts) ==> old(attempts)[attempt.id].intentId == attempt.intentId) ==>
                && Homed()
                && match PaymentDb.SaveAttempt(old(Contents()), attempt)
                   case Ok(db) => error == None && Contents() == db
                   case Err(e) => error == Some(e) && Contents() == old(Contents())
    {
      hide CaseOf, PaymentDb.SaveAttempt, Everywhere;
      if Homed() && (attempt.id in attempts ==> attempts[attempt.id].intentId == attempt.intentId) {
        SavedAtHome(Contents(), Payments(), attempt);
      }
      if attempt.id !in attempts {
        return Some(NotFound);
      }
      UpdatedLinked(Payments(), attempt);
      AttemptUpdated(Payments(), attempt);
      attempts := attempts[attempt.id := attempt];
      return None;
    }

    method ListAttempts(payment: string) returns (out: seq<Attempt>)
      requires Valid()
      ensures payment in Contents().cases || Homed() ==> out == Sort(AttemptsOf(Contents(), payment), BySequence)
      ensures out == Sort(Fetched(attempts, Rows(attemptsByPay, payment)), BySequence)
    {
      var ids := Rows(attemptsByPay, payment);
      ghost var rows := Fetched(attempts, ids);
      out := [];
      for i := 0 to |ids|
        invariant out == rows[..i]
      {
        out := out + [attempts[ids[i]]];
      }
      assert out == rows;
      if payment in payments || Homed() { assert rows == AttemptsOf(Contents(), payment); }
      out := Sort(out, BySequence);
    }

    lemma NewIsUnused(id: string)
      requires Homed() && id !in Contents().cases
      ensures Unused(Payments(), id)
    {
    }

    // In an owned store, the row under an identifier is what every payment shows under it.
    lemma SameRow(id: string)
      requires Valid()
      ensures forall p, i: nat :: AttemptAt(Contents(), id, p, i) ==>
                id in attempts && Contents().cases[p].attempts[i] == attempts[id]
    {
    }

    lemma AttemptsAreFound(id: string)
      requires Homed()
      ensures id in attempts <==> AttemptExists(Contents(), id)
    {
      if id in attempts {
        var p := attempts[id].intentId;
        OwnedPayment(Payments(), id);
        ListedAtHome(Payments(), id, p);
        var i: nat :| i < |Contents().cases[p].attempts| && Contents().cases[p].attempts[i].id == id;
        assert AttemptAt(Contents(), id, p, i);
      }
    }

    method GetAttempt(id: string) returns (result: Result<Attempt>)
      requires Valid()
      ensures result == if id in attempts then Ok(attempts[id]) else Err(NotFound)
      ensures Homed() ==>
                match result
                case Ok(a) => exists p, i: nat :: AttemptAt(Contents(), id, p, i) && Contents().cases[p].attempts[i] == a
                case Err(_) => !AttemptExists(Contents(), id)
    {
      if Homed() { AttemptsAreFound(id); }
      SameRow(id);
      if id !in attempts {
        return Err(NotFound);
      }
      return Ok(attempts[id]);
    }

    // The attempts are visited in no particular order.
    method GetAttemptByProviderPaymentID(connection: string, providerPayment: string) returns (result: Result<Attempt>)
      requires Valid()
      ensures match result
              case Ok(a) => a.id in attempts && attempts[a.id] == a
                         && a.connectionId == connection && a.providerPaymentId == providerPayment
              case Err(e) => e == NotFound && forall id :: id in attempts ==>
                               attempts[id].connectionId != connection || attempts[id].providerPaymentId != providerPayment
      ensures Homed() ==>
                match result
                case Ok(a) => exists p, i: nat ::
                  ChargedAt(Contents(), connection, providerPayment, p, i) && Contents().cases[p].attempts[i] == a
                case Err(_) => forall p, i: nat :: !ChargedAt(Contents(), connection, providerPayment, p, i)
    {
      var ids := attempts.Keys;
      while ids != {}
        invariant ids <= attempts.Keys
        invariant forall id :: id in attempts && id !in ids ==>
                    attempts[id].connectionId != connection || attempts[id].providerPaymentId != providerPayment
        decreases |ids|
      {
        var id :| id in ids;
        var attempt := attempts[id];
        if attempt.connectionId == connection && attempt.providerPaymentId == providerPayment {
          if Homed() { ChargeIsFound(id); }
          return Ok(attempt);
        }
        ids := ids - {id};
      }
      return Err(NotFound);
    }

    lemma ChargeIsFound(id: string)
      requires Homed() && id in attempts
      ensures exists p, i: nat :: ChargedAt(Contents(), attempts[id].connectionId, attempts[id].providerPaymentId, p, i)
                               && Contents().cases[p].attempts[i] == attempts[id]
    {
      AttemptsAreFound(id);
      SameRow(id);
      var p, i: nat :| p in Contents().cases && i < |Contents().cases[p].attempts| && AttemptAt(Contents(), id, p, i);
      assert ChargedAt(Contents(), attempts[id].connectionId, attempts[id].providerPaymentId, p, i);
    }

    method RecordProviderEvent(event: ProviderEvent) returns (created: bool)
      requires Valid()
      modifies this`providerEvents
      ensures Valid() && (old(Homed()) ==> Homed())
      ensures (Contents(), created) == PaymentDb.RecordProviderEvent(old(Contents()), event)
      ensures created == (JoinKey(event.connectionId, event.externalId) !in old(providerEvents))
      ensures providerEvents == if created then old(providerEvents)[JoinKey(event.connectionId, event.externalId) := event]
                                else old(providerEvents)
    {
      var key := JoinKey(event.connectionId, event.externalId);
      if key in providerEvents {
        return false;
      }
      providerEvents := providerEvents[key := event];
      return true;
    }

    method MarkProviderEventProcessed(connection: string, externalId: string, now: Time) returns (error: Option<Error>)
      requires Valid()
      modifies this`providerEvents
      ensures Valid() && (old(Homed()) ==> Homed())
      ensures match MarkProcessed(old(Contents()), connection, externalId, now)
              case Ok(db) => error == None && Contents() == db
              case Err(e) => error == Some(e) && Contents() == old(Contents())
      ensures var key := JoinKey(connection, externalId);
              if key in old(providerEvents) then
                && error == None
                && providerEvents == old(providerEvents)[key := old(providerEvents)[key].(processedAt := Some(now))]
              else error == Some(NotFound) && providerEvents == old(providerEvents)
    {
      var key := JoinKey(connection, externalId);
      if key !in providerEvents {
        return Some(NotFound);
      }
      providerEvents := providerEvents[key := providerEvents[key].(processedAt := Some(now))];
      return None;
    }

    // A recovery goes to the payment it names; the code passes one of the saved payment.
    method MarkPaymentPaidWithEvents(intent: Intent, recovery: Option<Recovery>, events: seq<MerchantEvent>)
      returns (error: Option<Error>)
      requires Valid()
      modifies this`payments, this`recoveriesByPay, this`merchantEvents, this`merchantEventKeys
      ensures Valid()
      ensures intent.id !in old(payments) ==> error == Some(NotFound) && Contents() == old(Contents())
      ensures intent.id in old(payments) ==>
                && error == None && payments == old(payments)[intent.id := intent]
                && recoveriesByPay == (if recovery.Some? && Rows(old(recoveriesByPay), recovery.value.intentId) == []
                                       then old(recoveriesByPay)[recovery.value.intentId := [recovery.value]]
                                       else old(recoveriesByPay))
                && merchantEvents == Publish(old(Contents()), events).outbox
                && merchantEventKeys == Publish(old(Contents()), events).outboxKeys
      ensures recovery.None? || recovery.value.intentId == intent.id ==>
                && (old(Homed()) ==> Homed())
                && match MarkPaid(old(Contents()), intent, recovery, events)
                   case Ok(db) => error == None && Contents() == db
                   case Err(e) => error == Some(e) && Contents() == old(Contents())
    {
      hide Publish, CaseOf, Owned, Linked;
      ghost var db := Contents();
      if intent.id !in payments {
        return Some(NotFound);
      }
      StorePaid(intent, recovery);
      PublishSame(db, Contents(), events);
      AppendMerchantEvents(events);
      return None;
    }

    method StorePaid(intent: Intent, recovery: Option<Recovery>)
      requires Valid() && intent.id in payments
      modifies this`payments, this`recoveriesByPay
      ensures Valid()
      ensures payments == old(payments)[intent.id := intent]
      ensures recoveriesByPay == if recovery.Some? && Rows(old(recoveriesByPay), recovery.value.intentId) == []
                                 then old(recoveriesByPay)[recovery.value.intentId := [recovery.value]]
                                 else old(recoveriesByPay)
      ensures recovery.None? || recovery.value.intentId == intent.id ==>
                && (old(Homed()) ==> Homed())
                && var c := old(Contents()).cases[intent.id];
                   Contents() == old(Contents()).(cases := old(Contents()).cases[intent.id := c.(
                     intent := intent,
                     recoveries := if recovery.Some? && c.recoveries == [] then [recovery.value] else c.recoveries)])
    {
      hide CaseOf, Owned, Linked;
      ghost var db := Contents();
      ghost var c := db.cases[intent.id];
      assert c.recoveries == Rows(recoveriesByPay, intent.id) by { RecoveriesOf(Payments(), intent.id); }
      PaymentStored(Payments(), intent);
      payments := payments[intent.id := intent];
      if recovery.Some? && Rows(recoveriesByPay, recovery.value.intentId) == [] {
        RecoveryStored(Payments(), recovery.value);
        recoveriesByPay := recoveriesByPay[recovery.value.intentId := [recovery.value]];
      }
    }

    method AppendMerchantEvents(events: seq<MerchantEvent>)
      requires Valid()
      modifies this`merchantEvents, this`merchantEventKeys
      ensures Valid()
      ensures Contents() == Publish(old(Contents()), events)
    {
      for i := 0 to |events|
        invariant Valid()
        invariant Publish(Contents(), events[i..]) == Publish(old(Contents()), events)
      {
        var event := events[i];
        ghost var before := Contents();
        assert events[i..][0] == event && events[i..][1..] == events[i + 1..];
        if event.key in merchantEventKeys {
          continue;
        }
        merchantEventKeys := merchantEventKeys + {event.key};
        merchantEvents := merchantEvents[event.workspace := Rows(merchantEvents, event.workspace) + [event]];
        assert Contents() == PublishOne(before, event);
      }
      assert events[|events|..] == [];
    }

    // The environment of a payment, read from the connection of its first attempt.
    method GetPaymentEnvironment(payment: string) returns (result: Result<Environment>)
      requires Valid()
      ensures var attempts := Fetched(attempts, Rows(attemptsByPay, payment));
              match result
              case Ok(env) => ReadFrom(attempts, providers, env)
              case Err(e) => e == NotFound && forall env :: !ReadFrom(attempts, providers, env)
      ensures payment in Contents().cases || Homed() ==>
                match result
                case Ok(env) => EnvironmentRead(Contents(), payment, env)
                case Err(_) => forall env :: !EnvironmentRead(Contents(), payment, env)
    {
      var ids := Rows(attemptsByPay, payment);
      assert payment in payments || Homed() ==> Fetched(attempts, ids) == AttemptsOf(Contents(), payment);
      if ids == [] {
        return Err(NotFound);
      }
      var attempt := attempts[ids[0]];
      assert Fetched(attempts, ids)[0] == attempt;
      var workspaces := providers.Keys;
      while workspaces != {}
        invariant workspaces <= providers.Keys
        invariant forall w, i :: w in providers && w !in workspaces && 0 <= i < |providers[w]| ==>
                    providers[w][i].id != attempt.connectionId
        decreases |workspaces|
      {
        var w :| w in workspaces;
        for i := 0 to |providers[w]|
          invariant forall j :: 0 <= j < i ==> providers[w][j].id != attempt.connectionId
        {
          if providers[w][i].id == attempt.connectionId {
            return Ok(providers[w][i].environment);
          }
        }
        workspaces := workspaces - {w};
      }
      return Err(NotFound);
    }
  }
}
