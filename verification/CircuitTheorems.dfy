// What the circuit breaker promises over whole runs.
module CircuitTheorems {
  import opened Domain
  import opened Router
  import opened Circuit
  import opened CircuitRuns

  // A circuit that is not closed carries the time it opened; a half-open one has cooled down.
  predicate ConnectionOk(opts: Options, clock: Time, conn: Connection) {
    && (conn.circuit == Closed <==> conn.circuitOpenedAt == None)
    && (conn.circuitOpenedAt.Some? ==> conn.circuitOpenedAt.value <= clock)
    && (conn.circuit == HalfOpen ==> conn.circuitOpenedAt.value + opts.cooldown <= clock)
  }

  predicate InOrder(snapshots: seq<HealthSnapshot>, clock: Time) {
    && (forall i, j :: 0 <= i < j < |snapshots| ==> snapshots[i].observedAt <= snapshots[j].observedAt)
    && (forall i :: 0 <= i < |snapshots| ==> snapshots[i].observedAt <= clock)
  }

  ghost predicate Inv(opts: Options, s: Sys) {
    && (forall id :: id in s.tables.connections ==>
          s.tables.connections[id].id == id && ConnectionOk(opts, s.clock, s.tables.connections[id]))
    && (forall id: string :: InOrder(Snapshots(s.tables, id), s.clock))
  }

  lemma RecentIsLast(snapshots: seq<HealthSnapshot>, clock: Time)
    requires InOrder(snapshots, clock)
    ensures Recent(snapshots) == if snapshots == [] then None else Some(snapshots[|snapshots| - 1])
  {
    if |snapshots| > 1 { RecentIsLast(snapshots[..|snapshots| - 1], clock); }
  }

  // Connection n of the call is this one, and it is in the environment.
  predicate Covers(s: Sys, call: Call, n: nat, id: string) {
    n < |call.ids| && call.ids[n] == id && id in s.tables.connections
    && s.tables.connections[id].environment == call.ctx.environment
  }

  // The call's refresh gets past this connection.
  predicate Moves(s: Sys, call: Call, n: nat, id: string) {
    Covers(s, call, n, id) && n < call.full
  }

  // The call's refresh fails between the snapshot of this connection and its circuit.
  predicate Breaks(s: Sys, call: Call, n: nat, id: string) {
    Covers(s, call, n, id) && n == call.full && call.half
  }

  function Before(s: Sys, call: Call): Tables {
    s.tables.(attempts := call.attempts)
  }

  // The call's refresh touches the connection in one of these ways, or not at all.
  lemma CallRow(opts: Options, s: Sys, call: Call, id: string)
    requires Inv(opts, s) && CanDo(opts, s, Route(call))
    ensures var t, t' := Before(s, call), AfterRefresh(opts, s.tables, call);
            && (forall n: nat :: Moves(s, call, n, id) ==> RefreshedAs(opts, t, t', id, call.now, call.p95[n]))
            && (forall n: nat :: Breaks(s, call, n, id) ==> SnappedOnly(opts, t, t', id, call.now, call.p95[n]))
            && ((forall n: nat :: !Moves(s, call, n, id) && !Breaks(s, call, n, id)) ==> LeftAlone(t, t', id))
  {
    hide RefreshedAs, SnappedOnly, LeftAlone, ConnectionOk, InOrder, Sends, Refreshed;
    var t, t1, t' := Before(s, call), AfterFull(opts, s.tables, call), AfterRefresh(opts, s.tables, call);
    var list, env := RowsAt(s.tables, call.ids), call.ctx.environment;
    FullRow(opts, s, call, id);
    if call.half && list[call.full].environment == env {
      var last := list[call.full];
      FullRow(opts, s, call, last.id);
      SnappedRow(opts, t, t1, last, env, call.now, call.p95[call.full], id);
      forall n: nat | Moves(s, call, n, id) ensures RefreshedAs(opts, t, t', id, call.now, call.p95[n]) {
        KeptShare(opts, t, t1, t', id, call.now, call.p95[n]);
      }
      if forall n: nat :: !Moves(s, call, n, id) && !Breaks(s, call, n, id) {
        assert Covers(s, call, call.full, last.id);
        assert id != last.id;
        AloneTwice(t, t1, t', id);
      }
    }
  }

  // What the finished part of the refresh does to one connection.
  lemma FullRow(opts: Options, s: Sys, call: Call, id: string)
    requires Inv(opts, s) && CanDo(opts, s, Route(call))
    ensures var t, t1 := Before(s, call), AfterFull(opts, s.tables, call);
            && t1.attempts == t.attempts
            && (forall n: nat :: Moves(s, call, n, id) ==> RefreshedAs(opts, t, t1, id, call.now, call.p95[n]))
            && ((forall n: nat :: !Moves(s, call, n, id)) ==> LeftAlone(t, t1, id))
  {
    hide RefreshedAs, LeftAlone, ConnectionOk, InOrder, Sends, Refreshed;
    var t, list := Before(s, call), RowsAt(s.tables, call.ids)[..call.full];
    RefreshedRows(opts, t, list, call.ctx.environment, call.now, call.p95[..call.full], id);
    forall n: nat | Moves(s, call, n, id)
      ensures RefreshedAs(opts, t, AfterFull(opts, s.tables, call), id, call.now, call.p95[n])
    {
      assert list[n].id == id && list[n].environment == call.ctx.environment;
    }
    if forall n: nat :: !Moves(s, call, n, id) {
      forall n | 0 <= n < |list| && list[n].id == id ensures list[n].environment != call.ctx.environment {
        assert !Moves(s, call, n, id);
      }
    }
  }

  // A snapshot alone, after t has become t1.
  lemma SnappedRow(opts: Options, t: Tables, t1: Tables, conn: Connection, env: Environment, now: Time, p95: real, id: string)
    requires conn.environment == env && t1.attempts == t.attempts
    ensures var t' := OnlySnapped(opts, t1, conn, env, now, p95);
            && (id != conn.id ==> LeftAlone(t1, t', id))
            && (LeftAlone(t, t1, conn.id) ==> SnappedOnly(opts, t, t', conn.id, now, p95))
  {
  }

  lemma TurnedOk(opts: Options, clock: Time, conn: Connection, current: HealthSnapshot,
      previous: Option<HealthSnapshot>,
                 attempts: seq<AttemptRow>, now: Time, done: Time)
    requires ConnectionOk(opts, clock, conn) && clock <= now <= done && opts.cooldown > 0
    ensures ConnectionOk(opts, done, Turned(conn, NextCircuit(opts, conn, current, previous, attempts, now)))
  {
  }

  lemma CallSafe(opts: Options, s: Sys, call: Call)
    requires Inv(opts, s) && CanDo(opts, s, Route(call)) && opts.cooldown > 0
    ensures Inv(opts, Apply(opts, s, Route(call)))
  {
    hide CanDo, AfterRefresh, NextCircuit, Snapped, Recent, ConnectionOk, Inv;
    InTime(opts, s, call);
    var t, t' := Before(s, call), AfterRefresh(opts, s.tables, call);
    forall id: string ensures RowOk(opts, s, t', call.done, id) { CallRowSafe(opts, s, call, id); }
    assert Inv(opts, Sys(call.done, t')) by { RowsMakeInv(opts, s, t', call.done); }
  }

  lemma InTime(opts: Options, s: Sys, call: Call)
    requires CanDo(opts, s, Route(call))
    ensures s.clock <= call.now <= call.done && Shaped(s.tables, call)
  {
  }

  ghost predicate RowOk(opts: Options, s: Sys, t': Tables, done: Time, id: string) {
    && InOrder(Snapshots(t', id), done)
    && (id in t'.connections ==> t'.connections[id].id == id && ConnectionOk(opts, done, t'.connections[id]))
  }

  lemma RowsMakeInv(opts: Options, s: Sys, t': Tables, done: Time)
    requires forall id: string :: RowOk(opts, s, t', done, id)
    ensures Inv(opts, Sys(done, t'))
  {
    forall id | id in t'.connections ensures t'.connections[id].id == id && ConnectionOk(opts, done, t'.connections[id]) {
      assert RowOk(opts, s, t', done, id);
    }
    forall id: string ensures InOrder(Snapshots(t', id), done) { assert RowOk(opts, s, t', done, id); }
  }

  lemma CallRowSafe(opts: Options, s: Sys, call: Call, id: string)
    requires Inv(opts, s) && CanDo(opts, s, Route(call)) && opts.cooldown > 0
    ensures RowOk(opts, s, AfterRefresh(opts, s.tables, call), call.done, id)
  {
    hide CanDo, AfterRefresh, ConnectionOk, InOrder, RefreshedAs, SnappedOnly, LeftAlone, Snapped;
    InTime(opts, s, call);
    CallRow(opts, s, call, id);
    var t, t' := Before(s, call), AfterRefresh(opts, s.tables, call);
    if n: nat :| Moves(s, call, n, id) {
      MovedOk(opts, s, t, t', id, call.now, call.done, call.p95[n]);
    } else if n: nat :| Breaks(s, call, n, id) {
      BrokenOk(opts, s, t, t', id, call.now, call.done, call.p95[n]);
    } else {
      AloneOk(opts, s, t, t', call.done, id);
    }
  }

  lemma MovedOk(opts: Options, s: Sys, t: Tables, t': Tables, id: string, now: Time, done: Time, p95: real)
    requires Inv(opts, s) && t == s.tables.(attempts := t.attempts) && s.clock <= now <= done && opts.cooldown > 0
    requires id in t.connections && RefreshedAs(opts, t, t', id, now, p95)
    ensures RowOk(opts, s, t', done, id)
  {
    hide NextCircuit, Tally, Recent, ConnectionOk;
    assert InOrder(Snapshots(s.tables, id), s.clock);
    assert Snapshots(t, id) == Snapshots(s.tables, id);
    TurnedOk(opts, s.clock, t.connections[id], Snapped(opts, t, id, now, p95), Recent(Snapshots(t, id)), t.attempts, now, done);
  }

  lemma BrokenOk(opts: Options, s: Sys, t: Tables, t': Tables, id: string, now: Time, done: Time, p95: real)
    requires Inv(opts, s) && t == s.tables.(attempts := t.attempts) && s.clock <= now <= done
    requires SnappedOnly(opts, t, t', id, now, p95)
    ensures RowOk(opts, s, t', done, id)
  {
    hide Tally, ConnectionOk;
    assert InOrder(Snapshots(s.tables, id), s.clock);
    assert Snapshots(t, id) == Snapshots(s.tables, id);
    if id in t.connections { StaysOk(opts, s.clock, done, t.connections[id]); }
  }

  lemma AloneOk(opts: Options, s: Sys, t: Tables, t': Tables, done: Time, id: string)
    requires Inv(opts, s) && t == s.tables.(attempts := t.attempts) && s.clock <= done && LeftAlone(t, t', id)
    ensures RowOk(opts, s, t', done, id)
  {
    hide ConnectionOk;
    assert InOrder(Snapshots(s.tables, id), s.clock);
    assert Snapshots(t, id) == Snapshots(s.tables, id);
    if id in t.connections { StaysOk(opts, s.clock, done, t.connections[id]); }
  }

  lemma StaysOk(opts: Options, clock: Time, done: Time, conn: Connection)
    requires ConnectionOk(opts, clock, conn) && clock <= done
    ensures ConnectionOk(opts, done, conn)
  {
  }

  lemma ApplySafe(opts: Options, s: Sys, a: Action)
    requires Inv(opts, s) && CanDo(opts, s, a) && opts.cooldown > 0
    ensures Inv(opts, Apply(opts, s, a))
  {
    if a.Route? {
      CallSafe(opts, s, a.call);
    } else {
      forall id: string ensures InOrder(Snapshots(Apply(opts, s, a).tables, id), s.clock) {
        assert InOrder(Snapshots(s.tables, id), s.clock);
      }
    }
  }

  lemma {:induction false} RunSafe(opts: Options, h: History, k: nat)
    requires IsRun(opts, h) && k < |h.states|
    ensures Inv(opts, h.states[k])
  {
    hide CanDo, Apply;
    if k > 0 {
      RunSafe(opts, h, k - 1);
      ApplySafe(opts, h.states[k - 1], h.actions[k - 1]);
    }
  }

  // ---------- Opened times ----------

  // In every state a circuit is open or half-open exactly when it carries an opened time;
  // the branch for a half-open circuit without one is never taken.
  lemma OpenedTimeIsKept(opts: Options, h: History, k: nat, id: string)
    requires IsRun(opts, h) && k < |h.states| && id in h.states[k].tables.connections
    ensures var conn := h.states[k].tables.connections[id];
            && (conn.circuit == Closed <==> conn.circuitOpenedAt == None)
            && (conn.circuit == HalfOpen ==> conn.circuitOpenedAt.value + opts.cooldown <= h.states[k].clock)
  {
    hide CanDo, Apply;
    RunSafe(opts, h, k);
  }

  // ---------- Opening ----------

  // Call k adds a snapshot of this connection.
  predicate SnapsAt(h: History, k: nat, id: string)
    requires k < |h.actions| && k < |h.states|
  {
    h.actions[k].Route?
    && exists n: nat :: n < |h.actions[k].call.ids|
                     && (Moves(h.states[k], h.actions[k].call, n, id) || Breaks(h.states[k], h.actions[k].call, n, id))
  }

  // Call k refreshes this connection to the end, so that its circuit is as the refresh decides.
  predicate MovesAt(h: History, k: nat, id: string)
    requires k < |h.actions| && k < |h.states|
  {
    h.actions[k].Route? && exists n: nat :: n < |h.actions[k].call.ids| && Moves(h.states[k], h.actions[k].call, n, id)
  }

  function CircuitAt(s: Sys, id: string): CircuitState {
    if id in s.tables.connections then s.tables.connections[id].circuit else Closed
  }

  function OpenedAt(s: Sys, id: string): Option<Time> {
    if id in s.tables.connections then s.tables.connections[id].circuitOpenedAt else None
  }

  // The snapshot that call k adds is the last one, taken at its clock reading.
  ghost predicate Adds(h: History, k: nat, id: string)
    requires k < |h.actions| && |h.states| == |h.actions| + 1
  {
    var before, after := Snapshots(h.states[k].tables, id), Snapshots(h.states[k + 1].tables, id);
    && h.actions[k].Route?
    && |after| == |before| + 1 && after[..|before|] == before && after[|before|].observedAt == h.actions[k].call.now
  }

  ghost predicate KeepsCircuit(h: History, k: nat, id: string)
    requires k < |h.actions| && |h.states| == |h.actions| + 1
  {
    CircuitAt(h.states[k + 1], id) == CircuitAt(h.states[k], id) && OpenedAt(h.states[k + 1], id) == OpenedAt(h.states[k], id)
  }

  lemma RefreshAdds(opts: Options, h: History, k: nat, id: string)
    requires IsRun(opts, h) && k < |h.actions|
    ensures if SnapsAt(h, k, id) then Adds(h, k, id)
            else Snapshots(h.states[k + 1].tables, id) == Snapshots(h.states[k].tables, id)
    ensures !MovesAt(h, k, id) ==> KeepsCircuit(h, k, id)
  {
    hide CanDo, AfterRefresh, NextCircuit, Tally, Recent, Inv;
    RunSafe(opts, h, k);
    var s, a := h.states[k], h.actions[k];
    if a.Route? {
      InTime(opts, s, a.call);
      CallRow(opts, s, a.call, id);
    } else {
      ConfigureKeeps(opts, s, a.connections, id);
    }
  }

  lemma ConfigureKeeps(opts: Options, s: Sys, connections: map<string, Connection>, id: string)
    requires CanDo(opts, s, Configure(connections))
    ensures var s' := Apply(opts, s, Configure(connections));
            && Snapshots(s'.tables, id) == Snapshots(s.tables, id)
            && CircuitAt(s', id) == CircuitAt(s, id) && OpenedAt(s', id) == OpenedAt(s, id)
  {
  }

  lemma {:induction false} QuietKeeps(opts: Options, h: History, j: nat, k: nat, id: string)
    requires IsRun(opts, h) && j <= k < |h.states| && forall i :: j <= i < k ==> !SnapsAt(h, i, id)
    ensures Snapshots(h.states[k].tables, id) == Snapshots(h.states[j].tables, id)
  {
    hide CanDo, Apply, SnapsAt, MovesAt;
    if j < k {
      QuietKeeps(opts, h, j, k - 1, id);
      RefreshAdds(opts, h, k - 1, id);
    }
  }

  // Action j adds a snapshot of this connection, and none between j and k does.
  ghost predicate LastSnapped(h: History, j: nat, k: nat, id: string)
    requires j < k < |h.states| && |h.states| == |h.actions| + 1
  {
    SnapsAt(h, j, id) && forall i :: j < i < k ==> !SnapsAt(h, i, id)
  }

  lemma {:induction false} SnapshotHasCall(opts: Options, h: History, k: nat, id: string)
    requires IsRun(opts, h) && k < |h.states| && Snapshots(h.states[k].tables, id) != []
    ensures exists j :: 0 <= j < k && LastSnapped(h, j, k, id)
  {
    hide CanDo, Apply, SnapsAt, MovesAt;
    if k > 0 {
      RefreshAdds(opts, h, k - 1, id);
      if SnapsAt(h, k - 1, id) {
        assert LastSnapped(h, k - 1, k, id);
      } else {
        SnapshotHasCall(opts, h, k - 1, id);
        var j :| 0 <= j < k - 1 && LastSnapped(h, j, k - 1, id);
        assert LastSnapped(h, j, k, id);
      }
    }
  }

  // The snapshot of call k is unhealthy.
  predicate UnhealthyAt(opts: Options, h: History, k: nat, id: string)
    requires k + 1 < |h.states|
  {
    var after := Snapshots(h.states[k + 1].tables, id);
    after != [] && Unhealthy(after[|after| - 1], opts.minimumSamples)
  }

  // Calls j and k find the connection unhealthy one after the other, within the window.
  ghost predicate TwiceUnhealthy(opts: Options, h: History, j: nat, k: nat, id: string)
    requires j < k < |h.actions| && |h.states| == |h.actions| + 1
  {
    && LastSnapped(h, j, k, id) && SnapsAt(h, k, id) && h.actions[j].Route? && h.actions[k].Route?
    && UnhealthyAt(opts, h, j, id) && UnhealthyAt(opts, h, k, id)
    && h.actions[j].call.now >= h.actions[k].call.now - opts.window
  }

  // What a finished refresh decides about a closed circuit, in terms of its last two snapshots.
  lemma ClosedMoves(opts: Options, s: Sys, call: Call, n: nat, id: string)
    requires Inv(opts, s) && CanDo(opts, s, Route(call)) && Moves(s, call, n, id) && CircuitAt(s, id) == Closed
    ensures var before, after := Snapshots(s.tables, id), Snapshots(AfterRefresh(opts, s.tables, call), id);
            var s' := Apply(opts, s, Route(call));
            && after != []
            && (CircuitAt(s', id) == Open <==>
                  && Unhealthy(after[|after| - 1], opts.minimumSamples)
                  && before != [] && before[|before| - 1].observedAt >= call.now - opts.window
                  && Unhealthy(before[|before| - 1], opts.minimumSamples))
            && (CircuitAt(s', id) == Open ==> OpenedAt(s', id) == Some(call.now))
  {
    hide CanDo, AfterRefresh, Tally, Recent, Unhealthy;
    InTime(opts, s, call);
    CallRow(opts, s, call, id);
    assert InOrder(Snapshots(s.tables, id), s.clock);
    RecentIsLast(Snapshots(s.tables, id), s.clock);
    assert Snapshots(Before(s, call), id) == Snapshots(s.tables, id);
  }

  // A closed circuit opens exactly when the current snapshot and the one just before it,
  // taken within the window, are both unhealthy, and the refresh does not fail before it
  // moves the circuit; then it opens at the call's clock reading. The snapshot before may
  // be that of a call whose refresh failed.
  lemma OpensOnTwoUnhealthy(opts: Options, h: History, k: nat, id: string)
    requires IsRun(opts, h) && k < |h.actions| && CircuitAt(h.states[k], id) == Closed
    ensures CircuitAt(h.states[k + 1], id) == Open <==>
              MovesAt(h, k, id) && exists j :: 0 <= j < k && TwiceUnhealthy(opts, h, j, k, id)
    ensures CircuitAt(h.states[k + 1], id) == Open ==>
              h.actions[k].Route? && OpenedAt(h.states[k + 1], id) == Some(h.actions[k].call.now)
  {
    hide CanDo, AfterRefresh, Unhealthy, Inv;
    RunSafe(opts, h, k);
    RefreshAdds(opts, h, k, id);
    if MovesAt(h, k, id) {
      var n: nat :| n < |h.actions[k].call.ids| && Moves(h.states[k], h.actions[k].call, n, id);
      assert SnapsAt(h, k, id);
      ClosedMoves(opts, h.states[k], h.actions[k].call, n, id);
      if Snapshots(h.states[k].tables, id) != [] {
        SnapshotHasCall(opts, h, k, id);
        var j :| 0 <= j < k && LastSnapped(h, j, k, id);
        PreviousIs(opts, h, j, k, id);
        if CircuitAt(h.states[k + 1], id) == Open { assert TwiceUnhealthy(opts, h, j, k, id); }
      }
      forall j | 0 <= j < k && TwiceUnhealthy(opts, h, j, k, id) ensures CircuitAt(h.states[k + 1], id) == Open {
        PreviousIs(opts, h, j, k, id);
      }
    }
  }

  // The last snapshot before call k is that of the call before it that added one.
  lemma PreviousIs(opts: Options, h: History, j: nat, k: nat, id: string)
    requires IsRun(opts, h) && j < k < |h.actions| && LastSnapped(h, j, k, id)
    ensures var before := Snapshots(h.states[k].tables, id);
            && before != [] && before == Snapshots(h.states[j + 1].tables, id)
            && h.actions[j].Route? && before[|before| - 1].observedAt == h.actions[j].call.now
  {
    hide CanDo, Apply, SnapsAt, MovesAt;
    RefreshAdds(opts, h, j, id);
    QuietKeeps(opts, h, j + 1, k, id);
  }

  // ---------- Cooling down and trying again ----------

  // An open circuit turns half-open at the first refresh that gets past it after the
  // cooldown, and keeps its opened time; until then it stays open.
  lemma OpenTurns(opts: Options, h: History, k: nat, id: string)
    requires IsRun(opts, h) && k < |h.actions| && CircuitAt(h.states[k], id) == Open
    ensures OpenedAt(h.states[k], id).Some? && OpenedAt(h.states[k + 1], id) == OpenedAt(h.states[k], id)
    ensures CircuitAt(h.states[k + 1], id) == HalfOpen <==>
              MovesAt(h, k, id) && h.actions[k].call.now >= OpenedAt(h.states[k], id).value + opts.cooldown
    ensures CircuitAt(h.states[k + 1], id) != Closed
  {
    hide CanDo, AfterRefresh, Tally, Recent;
    RunSafe(opts, h, k);
    RefreshAdds(opts, h, k, id);
    if MovesAt(h, k, id) {
      var s, call := h.states[k], h.actions[k].call;
      InTime(opts, s, call);
      CallRow(opts, s, call, id);
      var n: nat :| n < |call.ids| && Moves(s, call, n, id);
      assert RefreshedAs(opts, Before(s, call), AfterRefresh(opts, s.tables, call), id, call.now, call.p95[n]);
    }
  }

  // An attempt on this connection requested since that time, and the last one: by time of
  // request, and then by identifier.
  predicate IsLatest(rows: seq<AttemptRow>, id: string, since: Time, r: AttemptRow) {
    && r in rows && r.connection == id && r.requestedAt.Some? && r.requestedAt.value >= since
    && forall x :: x in rows && x.connection == id && x.requestedAt.Some? && x.requestedAt.value >= since ==>
         || x.requestedAt.value < r.requestedAt.value
         || (x.requestedAt.value == r.requestedAt.value && !IdLess(r.id, x.id))
  }

  predicate LatestHas(rows: seq<AttemptRow>, id: string, since: Time, statuses: set<AttemptStatus>) {
    exists r :: r in rows && IsLatest(rows, id, since, r) && r.status in statuses
  }

  lemma IsLatestIs(rows: seq<AttemptRow>, id: string, since: Time)
    ensures forall r :: r in rows ==> (IsLatest(rows, id, since, r) <==> LatestIs(rows, id, since, r))
  {
  }

  // A half-open circuit turns only in a refresh that gets past it; there it closes exactly
  // when the latest attempt since it opened succeeded, and opens again, at once, exactly
  // when that attempt failed or is unknown.
  lemma HalfOpenTurns(opts: Options, h: History, k: nat, id: string)
    requires IsRun(opts, h) && k < |h.actions| && CircuitAt(h.states[k], id) == HalfOpen
    requires h.actions[k].Route? ==> UniqueRows(h.actions[k].call.attempts)
    ensures OpenedAt(h.states[k], id).Some?
    ensures !MovesAt(h, k, id) ==> KeepsCircuit(h, k, id)
    ensures MovesAt(h, k, id) ==>
              var rows, since := h.actions[k].call.attempts, OpenedAt(h.states[k], id).value;
              && (CircuitAt(h.states[k + 1], id) == Closed <==> LatestHas(rows, id, since, {Succeeded}))
              && (CircuitAt(h.states[k + 1], id) == Open <==> LatestHas(rows, id, since, {FailedSafe, FailedTerminal, Unknown}))
              && (CircuitAt(h.states[k + 1], id) == Open ==> OpenedAt(h.states[k + 1], id) == Some(h.actions[k].call.now))
  {
    hide CanDo, AfterRefresh, Tally, Recent, LatestIs, IsLatest, LatestSince;
    RunSafe(opts, h, k);
    RefreshAdds(opts, h, k, id);
    if MovesAt(h, k, id) {
      var s, call := h.states[k], h.actions[k].call;
      InTime(opts, s, call);
      CallRow(opts, s, call, id);
      var n: nat :| n < |call.ids| && Moves(s, call, n, id);
      assert RefreshedAs(opts, Before(s, call), AfterRefresh(opts, s.tables, call), id, call.now, call.p95[n]);
      var since := OpenedAt(s, id).value;
      LatestSinceFinds(call.attempts, id, since);
      IsLatestIs(call.attempts, id, since);
      LatestIsOnly(call.attempts, id, since);
    }
  }

  lemma LatestIsOnly(rows: seq<AttemptRow>, id: string, since: Time)
    requires UniqueRows(rows)
    ensures forall r :: r in rows && LatestIs(rows, id, since, r) ==> LatestSince(rows, id, since) == Some(r)
    ensures forall r :: LatestSince(rows, id, since) == Some(r) ==> r in rows && LatestIs(rows, id, since, r)
  {
    LatestSinceFinds(rows, id, since);
    forall r | r in rows && LatestIs(rows, id, since, r) ensures LatestSince(rows, id, since) == Some(r) {
      if LatestSince(rows, id, since).Some? { LatestUnique(rows, id, since, r, LatestSince(rows, id, since).value); }
    }
  }

  // ---------- Requests ----------

  lemma {:induction false} VisitsAreSound(connections: seq<Connection>, ctx: Context, n: nat, conn: Connection)
    requires conn in Visits(connections, ctx, n)
    ensures conn in connections && conn.circuit != Open
    decreases n
  {
    SelectionSound(connections, ctx);
    var chosen := Selection(connections, ctx).selected;
    if n > 0 && chosen.Some? && conn != chosen.value {
      VisitsAreSound(connections, ctx.(excluded := ctx.excluded + {chosen.value.id}), n - 1, conn);
    }
  }

  // Since the circuit opened at `since`, it is still open, or the cooldown has passed.
  predicate Cooling(opts: Options, s: Sys, clock: Time, id: string, since: Time) {
    (CircuitAt(s, id) == Open && OpenedAt(s, id) == Some(since)) || clock >= since + opts.cooldown
  }

  lemma OpenMoves(opts: Options, s: Sys, call: Call, id: string, since: Time)
    requires Inv(opts, s) && CanDo(opts, s, Route(call)) && Cooling(opts, s, s.clock, id, since)
    ensures Cooling(opts, Apply(opts, s, Route(call)), call.now, id, since)
  {
    hide CanDo, AfterRefresh, Tally, Recent;
    InTime(opts, s, call);
    CallRow(opts, s, call, id);
  }

  lemma {:induction false} CoolsDown(opts: Options, h: History, i: nat, k: nat, id: string, since: Time)
    requires IsRun(opts, h) && i <= k < |h.states| && Cooling(opts, h.states[i], h.states[i].clock, id, since)
    ensures Cooling(opts, h.states[k], h.states[k].clock, id, since)
  {
    hide CanDo, AfterRefresh, Inv;
    if i < k {
      CoolsDown(opts, h, i, k - 1, id, since);
      RunSafe(opts, h, k - 1);
      var s, a := h.states[k - 1], h.actions[k - 1];
      if a.Route? {
        OpenMoves(opts, s, a.call, id, since);
        InTime(opts, s, a.call);
      } else {
        ConfigureKeeps(opts, s, a.connections, id);
      }
    }
  }

  // After a circuit has opened, no request goes to its connection before the cooldown has
  // passed, in any later call, nor in the very call that opened it.
  lemma NoRequestBeforeCooldown(opts: Options, h: History, i: nat, k: nat, n: nat, id: string, since: Time)
    requires IsRun(opts, h) && i <= k < |h.actions| && h.actions[k].Route?
    requires CircuitAt(h.states[i + 1], id) == Open && OpenedAt(h.states[i + 1], id) == Some(since)
    requires n < |h.actions[k].call.sent| && h.actions[k].call.sent[n].connection == id
    ensures h.actions[k].call.sent[n].at >= since + opts.cooldown
  {
    hide CanDo, AfterRefresh, Inv, Visits;
    var call := h.actions[k].call;
    assert Cooling(opts, h.states[i + 1], h.states[i + 1].clock, id, since);
    RunSafe(opts, h, k);
    InTime(opts, h.states[k], call);
    if i < k {
      CoolsDown(opts, h, i + 1, k, id, since);
      OpenMoves(opts, h.states[k], call, id, since);
    }
    RequestSound(opts, h.states[k], call, n);
  }

  lemma RequestSound(opts: Options, s: Sys, call: Call, n: nat)
    requires Inv(opts, s) && CanDo(opts, s, Route(call)) && n < |call.sent| && opts.cooldown > 0
    ensures call.now <= call.sent[n].at
    ensures CircuitAt(Apply(opts, s, Route(call)), call.sent[n].connection) != Open
  {
    hide AfterRefresh, Visits;
    var t := AfterRefresh(opts, s.tables, call);
    assert Sends(t, call) && Visited(t, call, call.sent[n].connection);
    var conn :| conn in Visits(RowsAt(t, call.ids), call.ctx, call.budget) && conn.id == call.sent[n].connection;
    VisitsAreSound(RowsAt(t, call.ids), call.ctx, call.budget, conn);
    CallSafe(opts, s, call);
  }
}
