// The payment store, one record per payment: what each repository call does to it.
module PaymentDb {
  import opened Domain

  datatype Error = NotFound | IdempotencyConflict | NoEligibleProvider | InvalidTransition | Unresolved

  datatype Result<+T> = Ok(value: T) | Err(error: Error)

  // A payment with everything that hangs off it; attempts are in order of sequence.
  datatype Case = Case(
    intent: Intent,
    attempts: seq<Attempt>,
    decisions: seq<Decision>,
    recoveries: seq<Recovery>)

  datatype IdempotencyRecord = IdempotencyRecord(paymentId: string, fingerprint: Fingerprint)

  datatype Db = Db(
    cases: map<string, Case>,
    idempotency: map<string, IdempotencyRecord>,
    providers: Providers,
    providerEvents: map<string, ProviderEvent>,
    outbox: map<string, seq<MerchantEvent>>,
    outboxKeys: set<EventKey>)

  const EMPTY: Db := Db(map[], map[], map[], map[], map[], {})

  const NUL: char := 0 as char

  // Pairs of strings are used as map keys by joining them with a NUL character.
  function JoinKey(first: string, second: string): string {
    first + [NUL] + second
  }

  function Connections(db: Db, workspace: string): seq<Connection> {
    if workspace in db.providers then db.providers[workspace] else []
  }

  function Events(db: Db, workspace: string): seq<MerchantEvent> {
    if workspace in db.outbox then db.outbox[workspace] else []
  }

  predicate AttemptAt(db: Db, id: string, payment: string, index: nat) {
    payment in db.cases && index < |db.cases[payment].attempts| && db.cases[payment].attempts[index].id == id
  }

  predicate AttemptExists(db: Db, id: string) {
    exists p, i: nat :: p in db.cases && i < |db.cases[p].attempts| && AttemptAt(db, id, p, i)
  }

  predicate ChargedAt(db: Db, connection: string, providerPayment: string, payment: string, index: nat) {
    && payment in db.cases && index < |db.cases[payment].attempts|
    && db.cases[payment].attempts[index].connectionId == connection
    && db.cases[payment].attempts[index].providerPaymentId == providerPayment
  }

  function NewIntent(id: string, req: Request): Intent {
    Intent(id, req.content.workspace, req.idempotencyKey, req.content, req.content.amount,
           Created, "", "", None, false, 0, "", None)
  }

  function GetOrCreate(db: Db, intent: Intent): (Db, Result<(Intent, bool)>) {
    var key := JoinKey(intent.workspace, intent.idempotencyKey);
    if key in db.idempotency then
      var record := db.idempotency[key];
      if record.fingerprint != intent.fingerprint then (db, Err(IdempotencyConflict))
      else if record.paymentId !in db.cases then (db, Err(NotFound))
      else (db, Ok((db.cases[record.paymentId].intent, false)))
    else
      (db.(cases := db.cases[intent.id := Case(intent, [], [], [])],
           idempotency := db.idempotency[key := IdempotencyRecord(intent.id, intent.fingerprint)]),
       Ok((intent, true)))
  }

  function SavePayment(db: Db, intent: Intent): Result<Db> {
    if intent.id !in db.cases then Err(NotFound)
    else Ok(db.(cases := db.cases[intent.id := db.cases[intent.id].(intent := intent)]))
  }

  function AddAttempt(db: Db, attempt: Attempt, decision: Decision): Result<Db> {
    if AttemptExists(db, attempt.id) then Err(InvalidTransition)
    else if attempt.intentId !in db.cases then Err(NotFound)
    else
      var c := db.cases[attempt.intentId];
      Ok(db.(cases := db.cases[attempt.intentId :=
        c.(attempts := c.attempts + [attempt], decisions := c.decisions + [decision])]))
  }

  function Replace(attempts: seq<Attempt>, attempt: Attempt): (r: seq<Attempt>)
    ensures |r| == |attempts|
    ensures forall i :: 0 <= i < |attempts| ==>
              r[i] == if attempts[i].id == attempt.id then attempt else attempts[i]
  {
    seq(|attempts|, i requires 0 <= i < |attempts| =>
      if attempts[i].id == attempt.id then attempt else attempts[i])
  }

  function SaveAttempt(db: Db, attempt: Attempt): Result<Db> {
    if attempt.intentId !in db.cases then Err(NotFound)
    else
      var c := db.cases[attempt.intentId];
      if forall i :: 0 <= i < |c.attempts| ==> c.attempts[i].id != attempt.id then Err(NotFound)
      else Ok(db.(cases := db.cases[attempt.intentId := c.(attempts := Replace(c.attempts, attempt))]))
  }

  // Appends the event unless its key is already there.
  function PublishOne(db: Db, e: MerchantEvent): Db {
    if e.key in db.outboxKeys then db
    else db.(outboxKeys := db.outboxKeys + {e.key},
             outbox := db.outbox[e.workspace := Events(db, e.workspace) + [e]])
  }

  function Publish(db: Db, events: seq<MerchantEvent>): Db
    decreases |events|
  {
    if events == [] then db else Publish(PublishOne(db, events[0]), events[1..])
  }

  function MarkPaid(db: Db, intent: Intent, recovery: Option<Recovery>, events: seq<MerchantEvent>): Result<Db> {
    if intent.id !in db.cases then Err(NotFound)
    else
      var c := db.cases[intent.id];
      var c' := c.(intent := intent,
                   recoveries := if recovery.Some? && c.recoveries == [] then [recovery.value] else c.recoveries);
      Ok(Publish(db.(cases := db.cases[intent.id := c']), events))
  }

  function RecordProviderEvent(db: Db, event: ProviderEvent): (Db, bool) {
    var key := JoinKey(event.connectionId, event.externalId);
    if key in db.providerEvents then (db, false)
    else (db.(providerEvents := db.providerEvents[key := event]), true)
  }

  function MarkProcessed(db: Db, connection: string, externalId: string, now: Time): Result<Db> {
    var key := JoinKey(connection, externalId);
    if key !in db.providerEvents then Err(NotFound)
    else Ok(db.(providerEvents := db.providerEvents[key := db.providerEvents[key].(processedAt := Some(now))]))
  }

  // ---------- The joined key ----------

  predicate NulFree(s: string) {
    forall i :: 0 <= i < |s| ==> s[i] != NUL
  }

  // Keys of one workspace never collide; keys of two NUL-free workspaces never collide.
  lemma JoinKeyInjective(w1: string, k1: string, w2: string, k2: string)
    requires JoinKey(w1, k1) == JoinKey(w2, k2)
    requires w1 == w2 || (NulFree(w1) && NulFree(w2))
    ensures w1 == w2 && k1 == k2
  {
    var j1, j2 := JoinKey(w1, k1), JoinKey(w2, k2);
    assert w1 == j1[..|w1|] && w2 == j2[..|w2|];
    assert forall i :: 0 <= i < |w1| ==> j1[i] == w1[i];
    assert forall i :: 0 <= i < |w2| ==> j2[i] == w2[i];
    if w1 != w2 { FirstNul(j1, |w1|, |w2|); }
    assert k1 == j1[|w1| + 1..] && k2 == j2[|w2| + 1..];
  }

  lemma FirstNul(s: string, m: nat, n: nat)
    requires m < |s| && n < |s| && s[m] == s[n] == NUL
    requires forall i :: 0 <= i < m || 0 <= i < n ==> s[i] != NUL
    ensures m == n
  {
  }

  // A workspace containing a NUL shares each of its keys with a NUL-free workspace.
  lemma {:induction false} JoinKeyCollides(w: string, k: string)
    requires !NulFree(w)
    ensures exists w': string, k': string :: w' != w && NulFree(w') && JoinKey(w', k') == JoinKey(w, k)
  {
    var n := FirstIndex(w);
    var w', k' := w[..n], w[n + 1..] + [NUL] + k;
    assert w == w' + [NUL] + w[n + 1..];
    assert JoinKey(w', k') == JoinKey(w, k);
  }

  function FirstIndex(w: string): (n: nat)
    requires !NulFree(w)
    ensures n < |w| && w[n] == NUL && NulFree(w[..n])
  {
    if w[0] == NUL then 0
    else
      var n := 1 + FirstIndex(w[1..]);
      assert w[..n] == [w[0]] + w[1..][..n - 1];
      n
  }
}
