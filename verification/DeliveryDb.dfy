// The rows of merchant webhook delivery, and what each SQL statement or transaction does
// to them. Endpoints are keyed by their unique (workspace, environment), deliveries by
// identifier, attempts by their unique (delivery, sequence).
module DeliveryDb {
  import opened Domain
  import opened Router

  datatype Scope = Scope(workspace: string, environment: Environment)

  datatype Endpoint = Endpoint(
    id: string,
    url: string,
    secret: string,
    enabled: bool,
    activeSince: Time,
    createdAt: Time)

  // An outbox event, with the environment of its payment.
  datatype Event = Event(id: string, scope: Scope, createdAt: Time)

  datatype DeliveryStatus = DeliveryPending | DeliveryRetry | DeliverySucceeded | DeliveryFailed

  datatype Delivery = Delivery(
    id: string,
    eventId: string,
    scope: Scope,
    status: DeliveryStatus,
    attemptCount: nat,
    nextAttemptAt: Time,
    lockedBy: string,
    lockedUntil: Option<Time>,
    lastAttemptAt: Option<Time>,
    deliveredAt: Option<Time>,
    httpStatus: Option<int>,
    errorCode: string,
    createdAt: Time)

  // A row of the attempt history.
  datatype Sent = Sent(
    id: string,
    startedAt: Time,
    completedAt: Time,
    httpStatus: Option<int>,
    latencyMs: nat,
    errorCode: string)

  datatype Table = Table(
    endpoints: map<Scope, Endpoint>,
    events: map<string, Event>,
    deliveries: map<string, Delivery>,
    history: map<(string, nat), Sent>)

  datatype Job = Job(
    deliveryId: string,
    eventId: string,
    url: string,
    secret: string,
    attemptCount: nat)

  datatype Completion = Completion(
    deliveryId: string,
    attemptId: string,
    sequence: nat,
    status: DeliveryStatus,
    startedAt: Time,
    completedAt: Time,
    httpStatus: Option<int>,
    latency: int,
    errorCode: string,
    nextAttemptAt: Time,
    deliveredAt: Option<Time>)

  function DeliveryId(event: string): string {
    "whd_" + event
  }

  lemma DeliveryIdInjective(a: string, b: string)
    requires DeliveryId(a) == DeliveryId(b)
    ensures a == b
  {
    assert a == DeliveryId(a)[4..] && b == DeliveryId(b)[4..];
  }

  predicate Unfinished(status: DeliveryStatus) {
    status == DeliveryPending || status == DeliveryRetry
  }

  // ---------- Endpoints ----------

  function Upsert(t: Table, scope: Scope, endpoint: Endpoint): Table {
    if scope !in t.endpoints then t.(endpoints := t.endpoints[scope := endpoint])
    else
      var old' := t.endpoints[scope];
      t.(endpoints := t.endpoints[scope := old'.(
        url := endpoint.url, secret := endpoint.secret, enabled := endpoint.enabled,
        activeSince := if old'.enabled then old'.activeSince else endpoint.activeSince)])
  }

  function Disable(t: Table, scope: Scope): Option<Table> {
    if scope !in t.endpoints then None
    else Some(t.(endpoints := t.endpoints[scope := t.endpoints[scope].(enabled := false)]))
  }

  // The row that SetEndpoint builds after it has read the endpoint.
  function Drafted(read: Option<Endpoint>, id: string, url: string, secret: string, now: Time): Endpoint {
    match read
    case None => Endpoint(id, url, secret, true, now, now)
    case Some(e) => Endpoint(e.id, url, secret, true, if e.enabled then e.activeSince else now, e.createdAt)
  }

  function EndpointAt(t: Table, scope: Scope): Option<Endpoint> {
    if scope in t.endpoints then Some(t.endpoints[scope]) else None
  }

  function Reset(t: Table, scope: Scope, id: string, url: string, secret: string, now: Time): Table {
    Upsert(t, scope, Drafted(EndpointAt(t, scope), id, url, secret, now))
  }

  // ---------- Materializing ----------

  predicate Enabled(t: Table, scope: Scope) {
    scope in t.endpoints && t.endpoints[scope].enabled
  }

  predicate IsCandidate(t: Table, event: Event) {
    && Enabled(t, event.scope)
    && event.createdAt >= t.endpoints[event.scope].activeSince
    && forall id :: id in t.deliveries ==> t.deliveries[id].eventId != event.id
  }

  function Candidates(t: Table): set<string> {
    set id | id in t.events && IsCandidate(t, t.events[id])
  }

  predicate EventBefore(a: Event, b: Event) {
    if a.createdAt != b.createdAt then a.createdAt < b.createdAt else IdLess(a.id, b.id)
  }

  function Min(a: nat, b: nat): nat {
    if a < b then a else b
  }

  // The first `limit` candidates by (created_at, id).
  ghost predicate FirstCandidates(t: Table, limit: nat, chosen: set<string>) {
    && chosen <= Candidates(t) && |chosen| == Min(limit, |Candidates(t)|)
    && forall c, r :: c in chosen && r in Candidates(t) - chosen ==> EventBefore(t.events[c], t.events[r])
  }

  function NewDelivery(event: Event, now: Time): Delivery {
    Delivery(DeliveryId(event.id), event.id, event.scope, DeliveryPending, 0, now, "", None, None, None, None, "", now)
  }

  function Inserted(t: Table, now: Time, event: string): Table
    requires event in t.events
  {
    t.(deliveries := t.deliveries[DeliveryId(event) := NewDelivery(t.events[event], now)])
  }

  function Materialized(t: Table, now: Time, chosen: set<string>): Table
    requires chosen <= t.events.Keys
  {
    var created := map id | id in (set e | e in chosen :: DeliveryId(e)) :: NewDelivery(t.events[id[4..]], now);
    t.(deliveries := t.deliveries + created)
  }

  // ---------- Claiming ----------

  predicate IsDue(t: Table, d: Delivery, now: Time) {
    && Unfinished(d.status)
    && d.nextAttemptAt <= now
    && (d.lockedUntil.None? || d.lockedUntil.value < now)
    && Enabled(t, d.scope)
  }

  function Due(t: Table, now: Time): set<string> {
    set id | id in t.deliveries && IsDue(t, t.deliveries[id], now)
  }

  predicate DueBefore(a: Delivery, b: Delivery) {
    if a.nextAttemptAt != b.nextAttemptAt then a.nextAttemptAt < b.nextAttemptAt
    else if a.createdAt != b.createdAt then a.createdAt < b.createdAt
    else IdLess(a.id, b.id)
  }

  // The first `limit` due deliveries by (next_attempt_at, created_at, id).
  ghost predicate FirstDue(t: Table, now: Time, limit: nat, chosen: set<string>) {
    && chosen <= Due(t, now) && |chosen| == Min(limit, |Due(t, now)|)
    && forall c, r :: c in chosen && r in Due(t, now) - chosen ==> DueBefore(t.deliveries[c], t.deliveries[r])
  }

  function Claimed(t: Table, until: Time, worker: string, chosen: set<string>): Table {
    t.(deliveries := map id | id in t.deliveries ::
      if id in chosen then t.deliveries[id].(lockedBy := worker, lockedUntil := Some(until)) else t.deliveries[id])
  }

  function JobOf(t: Table, id: string): Job
    requires id in t.deliveries && t.deliveries[id].scope in t.endpoints
  {
    var d := t.deliveries[id];
    var e := t.endpoints[d.scope];
    Job(id, d.eventId, e.url, e.secret, d.attemptCount)
  }

  // ---------- Completing ----------

  const MILLISECOND: int := 1_000_000

  function Milliseconds(latency: int): nat {
    if latency <= 0 then 0 else latency / MILLISECOND
  }

  function AttemptRow(c: Completion): Sent {
    Sent(c.attemptId, c.startedAt, c.completedAt, c.httpStatus, Milliseconds(c.latency), c.errorCode)
  }

  function Finished(d: Delivery, c: Completion): Delivery {
    d.(status := c.status, attemptCount := c.sequence, nextAttemptAt := c.nextAttemptAt, lockedBy := "",
       lockedUntil := None, lastAttemptAt := Some(c.completedAt), deliveredAt := c.deliveredAt,
       httpStatus := c.httpStatus, errorCode := c.errorCode)
  }

  // The transaction: a second attempt row with the same number, an attempt of an unknown
  // delivery, or an update that matches no row, rolls everything back.
  function Complete(t: Table, worker: string, c: Completion): Option<Table> {
    if (c.deliveryId, c.sequence) in t.history || c.deliveryId !in t.deliveries then None
    else if t.deliveries[c.deliveryId].lockedBy != worker then None
    else
      Some(t.(deliveries := t.deliveries[c.deliveryId := Finished(t.deliveries[c.deliveryId], c)],
              history := t.history[(c.deliveryId, c.sequence) := AttemptRow(c)]))
  }

  // ---------- The choices are determined ----------

  lemma DifferenceHasElement<T>(a: set<T>, b: set<T>)
    requires |a| == |b| && a != b
    ensures exists x :: x in a && x !in b
  {
    assert a <= b ==> |b| == |a| + |b - a|;
    assert a <= b ==> b - a != {};
  }

  lemma EventBeforeAsymmetric(a: Event, b: Event)
    ensures !(EventBefore(a, b) && EventBefore(b, a))
  {
    IdLessTotal(a.id, b.id);
  }

  lemma DueBeforeAsymmetric(a: Delivery, b: Delivery)
    ensures !(DueBefore(a, b) && DueBefore(b, a))
  {
    IdLessTotal(a.id, b.id);
  }

  lemma FirstCandidatesUnique(t: Table, limit: nat, a: set<string>, b: set<string>)
    requires FirstCandidates(t, limit, a) && FirstCandidates(t, limit, b)
    ensures a == b
  {
    if a != b {
      DifferenceHasElement(a, b);
      DifferenceHasElement(b, a);
      var x :| x in a && x !in b;
      var y :| y in b && y !in a;
      EventBeforeAsymmetric(t.events[x], t.events[y]);
    }
  }

  lemma FirstDueUnique(t: Table, now: Time, limit: nat, a: set<string>, b: set<string>)
    requires FirstDue(t, now, limit, a) && FirstDue(t, now, limit, b)
    ensures a == b
  {
    if a != b {
      DifferenceHasElement(a, b);
      DifferenceHasElement(b, a);
      var x :| x in a && x !in b;
      var y :| y in b && y !in a;
      DueBeforeAsymmetric(t.deliveries[x], t.deliveries[y]);
    }
  }
}
