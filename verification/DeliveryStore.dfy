// The delivery tables, with the SQL statements and transactions as methods that change
// rows in place.
module DeliveryStore {
  import opened Domain
  import opened Router
  import opened Sorting
  import opened DeliveryDb
  import opened DeliveryMachine

  // ---------- Ordered rows ----------

  lemma EventOrder()
    ensures RowOrder(EventId, EventBefore)
  {
    IdLessIsStrictTotal();
  }

  lemma DueOrder()
    ensures RowOrder(RowId, DueBefore)
  {
    IdLessIsStrictTotal();
  }

  function EventId(e: Event): string {
    e.id
  }

  function RowId(d: Delivery): string {
    d.id
  }

  function Ids<T>(rows: seq<T>, id: T -> string): (ids: seq<string>)
    ensures |ids| == |rows| && forall i :: 0 <= i < |ids| ==> ids[i] == id(rows[i])
  {
    seq(|rows|, i requires 0 <= i < |rows| => id(rows[i]))
  }

  // An order of rows that tells any two identifiers apart.
  ghost predicate RowOrder<T(!new)>(id: T -> string, before: (T, T) -> bool) {
    StrictWeak(before) && forall a, b :: id(a) != id(b) ==> before(a, b) || before(b, a)
  }

  // Rows of the table, in order.
  ghost predicate RowsOf<T>(table: map<string, T>, rows: seq<T>, id: T -> string, before: (T, T) -> bool) {
    Ascending(rows, before) && forall r :: r in rows ==> id(r) in table && table[id(r)] == r
  }

  // Of rows listed in order, the first `limit` come before all the others.
  lemma FirstOfOrdered(ids: seq<string>, limit: nat, before: (string, string) -> bool)
    requires Distinct(ids)
    requires forall i, j :: 0 <= i < j < |ids| ==> before(ids[i], ids[j])
    ensures var all, taken := ToSet(ids), ids[..Min(limit, |ids|)];
            && Distinct(taken) && ToSet(taken) <= all && |ToSet(taken)| == Min(limit, |all|)
            && forall c, r :: c in ToSet(taken) && r in all - ToSet(taken) ==> before(c, r)
  {
    var taken := ids[..Min(limit, |ids|)];
    DistinctCount(ids);
    DistinctCount(taken);
    forall c, r | c in ToSet(taken) && r in ToSet(ids) - ToSet(taken) ensures before(c, r) {
      var i :| 0 <= i < |taken| && taken[i] == c;
      var j :| 0 <= j < |ids| && ids[j] == r;
      assert j >= |taken| by { assert forall m :: 0 <= m < |taken| ==> taken[m] in ToSet(taken); }
    }
  }

  lemma NoRows<T>(table: map<string, T>, id: T -> string, before: (T, T) -> bool)
    ensures RowsOf(table, [], id, before)
  {
  }

  lemma RowInserted<T(!new)>(table: map<string, T>, rows: seq<T>, id: T -> string, before: (T, T) -> bool, row: T)
    requires RowOrder(id, before) && RowsOf(table, rows, id, before) && id(row) in table && table[id(row)] == row && row !in rows
    ensures RowsOf(table, Insert(row, rows, before), id, before)
    ensures forall r :: r in Insert(row, rows, before) <==> r == row || r in rows
  {
    forall r | r in rows ensures before(r, row) || before(row, r) { assert id(r) == id(row) ==> r == row; }
    InsertAscending(row, rows, before);
    forall r ensures r in Insert(row, rows, before) <==> r == row || r in rows {
      InsertedElements(row, rows, before, r);
    }
  }

  lemma IdsAre<T>(table: map<string, T>, rows: seq<T>, id: T -> string, ids: set<string>)
    requires forall k :: k in ids ==> k in table && id(table[k]) == k
    requires forall r :: r in rows <==> id(r) in ids && table[id(r)] == r
    ensures ToSet(Ids(rows, id)) == ids
  {
    forall k | k in ids ensures k in ToSet(Ids(rows, id)) {
      assert table[k] in rows;
      var i :| 0 <= i < |rows| && rows[i] == table[k];
      assert Ids(rows, id)[i] == k;
    }
    forall i | 0 <= i < |rows| ensures Ids(rows, id)[i] in ids { assert rows[i] in rows; }
  }

  // The first `limit` rows come before all the others.
  lemma FirstRows<T(!new)>(table: map<string, T>, rows: seq<T>, id: T -> string, before: (T, T) -> bool, limit: nat)
    requires RowOrder(id, before) && RowsOf(table, rows, id, before)
    ensures var all, taken := ToSet(Ids(rows, id)), Ids(rows, id)[..Min(limit, |rows|)];
            && Distinct(taken) && ToSet(taken) <= all && |ToSet(taken)| == Min(limit, |all|)
            && forall c, r :: c in ToSet(taken) && r in all - ToSet(taken) ==> c in table && r in table && before(table[c], table[r])
  {
    var ids := Ids(rows, id);
    var first := (c: string, r: string) => c in table && r in table && before(table[c], table[r]);
    forall i, j | 0 <= i < j < |rows| ensures first(ids[i], ids[j]) && ids[i] != ids[j] {
      assert rows[i] in rows && rows[j] in rows;
      assert before(rows[i], rows[j]) && !before(rows[i], rows[i]);
    }
    FirstOfOrdered(ids, limit, first);
    var taken := ids[..Min(limit, |rows|)];
    forall c, r | c in ToSet(taken) && r in ToSet(ids) - ToSet(taken) ensures c in table && r in table && before(table[c], table[r]) {
      assert first(c, r);
    }
  }

  lemma TakenRows<T>(table: map<string, T>, rows: seq<T>, id: T -> string, before: (T, T) -> bool, n: nat)
    requires RowsOf(table, rows, id, before) && n <= |rows|
    ensures Ids(rows[..n], id) == Ids(rows, id)[..n] && RowsOf(table, rows[..n], id, before)
    ensures ToSet(Ids(rows[..n], id)) <= table.Keys && ToSet(Ids(rows[..n], id)) <= ToSet(Ids(rows, id))
  {
    assert forall i :: 0 <= i < |rows| ==> rows[i] in rows;
    assert Ids(rows[..n], id) == Ids(rows, id)[..n];
    forall i | 0 <= i < n ensures Ids(rows[..n], id)[i] in ToSet(Ids(rows, id)) { assert Ids(rows, id)[i] == Ids(rows[..n], id)[i]; }
  }

  lemma MaterializedRow(t: Table, now: Time, chosen: set<string>, d: string)
    requires chosen <= t.events.Keys
    ensures var t' := Materialized(t, now, chosen);
            && (d in t'.deliveries <==> d in t.deliveries || (|d| >= 4 && d[..4] == "whd_" && d[4..] in chosen))
            && (d in t'.deliveries ==>
                  t'.deliveries[d] == (if |d| >= 4 && d[..4] == "whd_" && d[4..] in chosen then NewDelivery(t.events[d[4..]], now)
                                       else t.deliveries[d]))
  {
    if |d| >= 4 && d[..4] == "whd_" { assert DeliveryId(d[4..]) == d; }
    forall e | DeliveryId(e) == d ensures |d| >= 4 && d[..4] == "whd_" && d[4..] == e {}
  }

  lemma MaterializedOneMore(t: Table, now: Time, chosen: set<string>, id: string)
    requires id in t.events && chosen <= t.events.Keys
    ensures Materialized(t, now, chosen + {id}) == Inserted(Materialized(t, now, chosen), now, id)
  {
    hide Materialized;
    MaterializedElse(t, now, chosen);
    MaterializedElse(t, now, chosen + {id});
    var more, one := Materialized(t, now, chosen + {id}), Inserted(Materialized(t, now, chosen), now, id);
    forall d ensures (d in more.deliveries <==> d in one.deliveries)
                  && (d in more.deliveries ==> more.deliveries[d] == one.deliveries[d])
    {
      MaterializedRow(t, now, chosen, d);
      MaterializedRow(t, now, chosen + {id}, d);
      if |d| >= 4 && d[..4] == "whd_" && d[4..] == id { assert DeliveryId(id) == d; }
      assert d == DeliveryId(id) ==> d[..4] == "whd_" && d[4..] == id;
    }
    assert more.deliveries == one.deliveries;
  }

  lemma MaterializedElse(t: Table, now: Time, chosen: set<string>)
    requires chosen <= t.events.Keys
    ensures Materialized(t, now, chosen) == t.(deliveries := Materialized(t, now, chosen).deliveries)
    ensures chosen == {} ==> Materialized(t, now, chosen) == t
  {
  }

  lemma MaterializedKeyed(t: Table, now: Time, chosen: set<string>)
    requires Keyed(t) && chosen <= t.events.Keys
    ensures Keyed(Materialized(t, now, chosen))
  {
    hide Materialized;
    MaterializedElse(t, now, chosen);
    var t' := Materialized(t, now, chosen);
    forall d | d in t'.deliveries ensures t'.deliveries[d].id == d && d == DeliveryId(t'.deliveries[d].eventId) {
      MaterializedRow(t, now, chosen, d);
    }
  }

  lemma ToSetMore(ids: seq<string>, i: nat)
    requires i < |ids|
    ensures ToSet(ids[..i + 1]) == ToSet(ids[..i]) + {ids[i]}
  {
    var more := ids[..i + 1];
    assert forall k :: 0 <= k < i ==> more[k] == ids[..i][k];
    assert more[i] == ids[i];
  }

  lemma FirstOfEvents(t: Table, rows: seq<Event>, limit: nat)
    requires RowsOf(t.events, rows, EventId, EventBefore) && ToSet(Ids(rows, EventId)) == Candidates(t)
    ensures var taken := rows[..Min(limit, |rows|)];
            && FirstCandidates(t, limit, ToSet(Ids(taken, EventId))) && Distinct(Ids(taken, EventId))
            && RowsOf(t.events, taken, EventId, EventBefore) && ToSet(Ids(taken, EventId)) <= t.events.Keys
  {
    hide IsCandidate, EventBefore, RowsOf;
    EventOrder();
    FirstRows(t.events, rows, EventId, EventBefore, limit);
    TakenRows(t.events, rows, EventId, EventBefore, Min(limit, |rows|));
  }

  lemma FirstOfDue(t: Table, now: Time, rows: seq<Delivery>, limit: nat)
    requires RowsOf(t.deliveries, rows, RowId, DueBefore) && ToSet(Ids(rows, RowId)) == Due(t, now)
    ensures var taken := rows[..Min(limit, |rows|)];
            && FirstDue(t, now, limit, ToSet(Ids(taken, RowId))) && Distinct(Ids(taken, RowId))
            && RowsOf(t.deliveries, taken, RowId, DueBefore)
            && forall d :: d in taken ==> d.id in t.deliveries && t.deliveries[d.id] == d && d.scope in t.endpoints
  {
    hide DueBefore, Ascending;
    DueOrder();
    FirstRows(t.deliveries, rows, RowId, DueBefore, limit);
    TakenRows(t.deliveries, rows, RowId, DueBefore, Min(limit, |rows|));
    var taken := rows[..Min(limit, |rows|)];
    forall d | d in taken ensures d.id in Due(t, now) {
      var i :| 0 <= i < |taken| && taken[i] == d;
      assert Ids(taken, RowId)[i] in ToSet(Ids(taken, RowId));
    }
  }

  // Rows are stored under their own identifiers.
  predicate Keyed(t: Table) {
    && (forall id :: id in t.events ==> t.events[id].id == id)
    && (forall id :: id in t.deliveries ==> t.deliveries[id].id == id && id == DeliveryId(t.deliveries[id].eventId))
  }

  lemma ClaimedKeyed(t: Table, until: Time, worker: string, chosen: set<string>)
    requires Keyed(t)
    ensures Keyed(Claimed(t, until, worker, chosen))
  {
  }

  lemma ClaimedNone(t: Table, until: Time, worker: string)
    ensures Claimed(t, until, worker, {}) == t
  {
    assert Claimed(t, until, worker, {}).deliveries == t.deliveries;
  }

  lemma ClaimedOneMore(t: Table, until: Time, worker: string, chosen: set<string>, id: string)
    requires id in t.deliveries
    ensures var one := Claimed(t, until, worker, chosen);
            Claimed(t, until, worker, chosen + {id}) == one.(deliveries := one.deliveries[id :=
              one.deliveries[id].(lockedBy := worker, lockedUntil := Some(until))])
  {
    var one := Claimed(t, until, worker, chosen);
    assert Claimed(t, until, worker, chosen + {id}).deliveries ==
           one.deliveries[id := one.deliveries[id].(lockedBy := worker, lockedUntil := Some(until))];
  }

  predicate IdBefore(a: Delivery, b: Delivery) {
    IdLess(a.id, b.id)
  }

  // The same rows by identifier.
  method ById(rows: seq<Delivery>) returns (sorted: seq<Delivery>)
    requires Ascending(rows, DueBefore)
    requires forall d, e :: d in rows && e in rows && d.id == e.id ==> d == e
    ensures Ascending(Ids(sorted, RowId), IdLess) && Distinct(Ids(sorted, RowId))
    ensures ToSet(Ids(sorted, RowId)) == ToSet(Ids(rows, RowId))
    ensures forall d :: d in sorted <==> d in rows
  {
    hide DueBefore;
    IdLessIsStrictTotal();
    DueOrder();
    sorted := [];
    for i := 0 to |rows|
      invariant Ascending(sorted, IdBefore)
      invariant forall d :: d in sorted <==> d in rows[..i]
    {
      assert rows[i] !in rows[..i] by {
        assert forall k :: 0 <= k < i ==> DueBefore(rows[k], rows[i]);
        assert !DueBefore(rows[i], rows[i]);
      }
      InsertAscending(rows[i], sorted, IdBefore);
      forall d ensures d in Insert(rows[i], sorted, IdBefore) <==> d in rows[..i + 1] {
        InsertedElements(rows[i], sorted, IdBefore, d);
      }
      sorted := Insert(rows[i], sorted, IdBefore);
    }
    SameIds(rows, sorted);
  }

  lemma SameIds(rows: seq<Delivery>, sorted: seq<Delivery>)
    requires forall d :: d in sorted <==> d in rows
    ensures ToSet(Ids(sorted, RowId)) == ToSet(Ids(rows, RowId))
  {
    IdsOfRows(rows);
    IdsOfRows(sorted);
  }

  lemma IdsOfRows(rows: seq<Delivery>)
    ensures ToSet(Ids(rows, RowId)) == set d | d in rows :: d.id
  {
    forall d | d in rows ensures d.id in ToSet(Ids(rows, RowId)) {
      var i :| 0 <= i < |rows| && rows[i] == d;
      assert Ids(rows, RowId)[i] == d.id;
    }
    forall i | 0 <= i < |rows| ensures Ids(rows, RowId)[i] in (set d | d in rows :: d.id) { assert rows[i] in rows; }
  }

  class Store {
    var endpoints: map<Scope, Endpoint>
    var events: map<string, Event>
    var deliveries: map<string, Delivery>
    var history: map<(string, nat), Sent>

    function Contents(): Table
      reads this
    {
      Table(endpoints, events, deliveries, history)
    }

    constructor ()
      ensures Contents() == Table(map[], map[], map[], map[])
    {
      endpoints, events, deliveries, history := map[], map[], map[], map[];
    }

    method UpsertWebhookEndpoint(scope: Scope, endpoint: Endpoint) returns (saved: Endpoint)
      modifies this`endpoints
      ensures Contents() == Upsert(old(Contents()), scope, endpoint)
      ensures endpoints == old(endpoints)[scope := saved]
      ensures saved == if scope !in old(endpoints) then endpoint
                       else var row := old(endpoints)[scope];
                         Endpoint(row.id, endpoint.url, endpoint.secret, endpoint.enabled,
                                  if row.enabled then row.activeSince else endpoint.activeSince, row.createdAt)
      ensures EndpointAt(Contents(), scope) == Some(saved)
    {
      if scope in endpoints {
        var existing := endpoints[scope];
        saved := existing.(url := endpoint.url, secret := endpoint.secret, enabled := endpoint.enabled,
                           activeSince := if existing.enabled then existing.activeSince else endpoint.activeSince);
      } else {
        saved := endpoint;
      }
      endpoints := endpoints[scope := saved];
    }

    method GetWebhookEndpoint(scope: Scope) returns (endpoint: Option<Endpoint>)
      ensures endpoint == EndpointAt(Contents(), scope)
    {
      endpoint := if scope in endpoints then Some(endpoints[scope]) else None;
    }

    method DisableWebhookEndpoint(scope: Scope) returns (found: bool)
      modifies this`endpoints
      ensures found == (scope in old(endpoints))
      ensures endpoints == if found then old(endpoints)[scope := old(endpoints)[scope].(enabled := false)] else old(endpoints)
      ensures match Disable(old(Contents()), scope)
              case Some(t) => found && Contents() == t
              case None => !found && Contents() == old(Contents())
    {
      found := scope in endpoints;
      if found {
        endpoints := endpoints[scope := endpoints[scope].(enabled := false)];
      }
    }

    // The candidates in the order of the statement.
    method OrderedCandidates() returns (rows: seq<Event>)
      requires Keyed(Contents())
      ensures RowsOf(events, rows, EventId, EventBefore) && ToSet(Ids(rows, EventId)) == Candidates(Contents())
    {
      hide IsCandidate, RowsOf, Ascending, EventBefore;
      ghost var t := Contents();
      NoRows(events, EventId, EventBefore);
      EventOrder();
      rows := [];
      var ids := events.Keys;
      while ids != {}
        invariant ids <= events.Keys
        invariant RowsOf(events, rows, EventId, EventBefore)
        invariant forall e :: e in rows <==> e.id in Candidates(t) - ids && t.events[e.id] == e
        decreases |ids|
      {
        var id :| id in ids;
        if IsCandidate(Contents(), events[id]) {
          RowInserted(events, rows, EventId, EventBefore, events[id]);
          rows := Insert(events[id], rows, EventBefore);
        }
        ids := ids - {id};
      }
      IdsAre(events, rows, EventId, Candidates(t));
    }

    method MaterializePendingDeliveries(now: Time, limit: int) returns (inserted: nat, ghost chosen: set<string>)
      requires Keyed(Contents())
      modifies this`deliveries
      ensures limit <= 0 ==> inserted == 0 && Contents() == old(Contents())
      ensures limit > 0 ==>
                && FirstCandidates(old(Contents()), limit, chosen)
                && Contents() == Materialized(old(Contents()), now, chosen)
                && inserted == |chosen|
      ensures Keyed(Contents())
    {
      chosen := {};
      if limit <= 0 {
        return 0, {};
      }
      hide Materialized, FirstCandidates, Candidates, RowsOf, Keyed;
      ghost var t := Contents();
      var rows := OrderedCandidates();
      FirstOfEvents(t, rows, limit);
      rows := rows[..Min(limit, |rows|)];
      InsertDeliveries(rows, now);
      chosen := ToSet(Ids(rows, EventId));
      inserted := |rows|;
      DistinctCount(Ids(rows, EventId));
      MaterializedKeyed(t, now, chosen);
    }

    method InsertDeliveries(rows: seq<Event>, now: Time)
      requires forall i :: 0 <= i < |rows| ==> rows[i].id in events && events[rows[i].id] == rows[i]
      requires ToSet(Ids(rows, EventId)) <= events.Keys
      modifies this`deliveries
      ensures Contents() == Materialized(old(Contents()), now, ToSet(Ids(rows, EventId)))
    {
      hide Materialized, NewDelivery;
      ghost var t, ids := Contents(), Ids(rows, EventId);
      MaterializedElse(t, now, {});
      assert ToSet(ids[..0]) == {};
      for i := 0 to |rows|
        invariant ToSet(ids[..i]) <= t.events.Keys
        invariant Contents() == Materialized(t, now, ToSet(ids[..i]))
      {
        ToSetMore(ids, i);
        MaterializedOneMore(t, now, ToSet(ids[..i]), ids[i]);
        deliveries := deliveries[DeliveryId(rows[i].id) := NewDelivery(rows[i], now)];
      }
      assert ids[..|rows|] == ids;
    }

    // The due deliveries in the order of the statement.
    method OrderedDue(now: Time) returns (rows: seq<Delivery>)
      requires Keyed(Contents())
      ensures RowsOf(deliveries, rows, RowId, DueBefore) && ToSet(Ids(rows, RowId)) == Due(Contents(), now)
    {
      hide IsDue, RowsOf, Ascending, DueBefore;
      ghost var t := Contents();
      NoRows(deliveries, RowId, DueBefore);
      DueOrder();
      rows := [];
      var ids := deliveries.Keys;
      while ids != {}
        invariant ids <= deliveries.Keys
        invariant RowsOf(deliveries, rows, RowId, DueBefore)
        invariant forall d :: d in rows <==> d.id in Due(t, now) - ids && t.deliveries[d.id] == d
        decreases |ids|
      {
        var id :| id in ids;
        if IsDue(Contents(), deliveries[id], now) {
          RowInserted(deliveries, rows, RowId, DueBefore, deliveries[id]);
          rows := Insert(deliveries[id], rows, DueBefore);
        }
        ids := ids - {id};
      }
      IdsAre(deliveries, rows, RowId, Due(t, now));
    }

    // The jobs come back by identifier, with what their rows and endpoints said at the claim.
    method ClaimDueDeliveries(now: Time, until: Time, worker: string, limit: int) returns (jobs: seq<Job>,
        ghost taken: seq<string>)
      requires Keyed(Contents())
      modifies this`deliveries
      ensures limit <= 0 ==> jobs == [] && Contents() == old(Contents())
      ensures limit > 0 ==>
                && Distinct(taken) && FirstDue(old(Contents()), now, limit, ToSet(taken))
                && Takable(old(Contents()), taken) && jobs == JobsOf(old(Contents()), taken)
                && Contents() == Claimed(old(Contents()), until, worker, ToSet(taken))
      ensures limit > 0 ==> Ascending(taken, IdLess)
      ensures Keyed(Contents())
    {
      taken := [];
      if limit <= 0 {
        return [], [];
      }
      hide FirstDue, Due, Claimed, JobsOf, Keyed, DueBefore, IdLess, Ids, Ascending, Distinct;
      ghost var t := Contents();
      var rows := OrderedDue(now);
      FirstOfDue(t, now, rows, limit);
      rows := rows[..Min(limit, |rows|)];
      LockDeliveries(rows, until, worker);
      rows := ById(rows);
      taken := Ids(rows, RowId);
      jobs := JobsFor(rows, t);
      ClaimedKeyed(t, until, worker, ToSet(taken));
    }

    method JobsFor(rows: seq<Delivery>, ghost t: Table) returns (jobs: seq<Job>)
      requires endpoints == t.endpoints
      requires forall d :: d in rows ==> d.id in t.deliveries && t.deliveries[d.id] == d && d.scope in t.endpoints
      ensures Takable(t, Ids(rows, RowId)) && jobs == JobsOf(t, Ids(rows, RowId))
    {
      assert forall i :: 0 <= i < |rows| ==> rows[i] in rows;
      jobs := [];
      for i := 0 to |rows|
        invariant jobs == JobsOf(t, Ids(rows, RowId))[..i]
      {
        var e := endpoints[rows[i].scope];
        jobs := jobs + [Job(rows[i].id, rows[i].eventId, e.url, e.secret, rows[i].attemptCount)];
      }
    }

    method LockDeliveries(rows: seq<Delivery>, until: Time, worker: string)
      requires forall i :: 0 <= i < |rows| ==> rows[i].id in deliveries
      modifies this`deliveries
      ensures Contents() == Claimed(old(Contents()), until, worker, ToSet(Ids(rows, RowId)))
    {
      hide Claimed;
      ghost var t, ids := Contents(), Ids(rows, RowId);
      ClaimedNone(t, until, worker);
      assert ToSet(ids[..0]) == {};
      for i := 0 to |rows|
        invariant deliveries.Keys == t.deliveries.Keys
        invariant Contents() == Claimed(t, until, worker, ToSet(ids[..i]))
      {
        ToSetMore(ids, i);
        ClaimedOneMore(t, until, worker, ToSet(ids[..i]), ids[i]);
        deliveries := deliveries[rows[i].id := deliveries[rows[i].id].(lockedBy := worker, lockedUntil := Some(until))];
      }
      assert ids[..|rows|] == ids;
    }

    // One transaction: the attempt row, then the delivery; without a delivery to update
    // under this lock, the attempt row is rolled back.
    method CompleteDelivery(worker: string, c: Completion) returns (ok: bool)
      modifies this`deliveries, this`history
      ensures match Complete(old(Contents()), worker, c)
              case Some(t) => ok && Contents() == t
              case None => !ok && Contents() == old(Contents())
    {
      var before := history;
      if (c.deliveryId, c.sequence) in history || c.deliveryId !in deliveries {
        return false;
      }
      history := history[(c.deliveryId, c.sequence) := AttemptRow(c)];
      if deliveries[c.deliveryId].lockedBy != worker {
        history := before;
        return false;
      }
      deliveries := deliveries[c.deliveryId := Finished(deliveries[c.deliveryId], c)];
      return true;
    }
  }
}
