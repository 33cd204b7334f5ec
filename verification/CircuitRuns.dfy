// The circuit breaker over whole runs: routing calls one after another, each of which
// refreshes the connections it may use, reads them again, and sends requests in the
// order of selection. A refresh may fail after any of its statements; then nothing is sent.
module CircuitRuns {
  import opened Domain
  import opened Router
  import opened Circuit

  datatype Sending = Sending(connection: string, at: Time)

  // One routing call, from its clock reading `now` to its end `done`: the attempts as they
  // are when it begins, the connections of its workspace, what telemetry measures for
  // each, and the requests it sends. Its refresh goes through the first `full` connections;
  // it fails when these are not all, and if `half`, after it has saved the snapshot of the
  // next connection and before it moves that one's circuit.
  datatype Call = Call(
    now: Time,
    done: Time,
    attempts: seq<AttemptRow>,
    ids: seq<string>,
    p95: seq<real>,
    full: nat,
    half: bool,
    ctx: Context,
    budget: nat,
    sent: seq<Sending>)

  datatype Action = Route(call: Call) | Configure(connections: map<string, Connection>)

  datatype Sys = Sys(clock: Time, tables: Tables)

  function RowsAt(t: Tables, ids: seq<string>): (rows: seq<Connection>)
    requires forall i :: 0 <= i < |ids| ==> ids[i] in t.connections
    ensures |rows| == |ids| && forall i :: 0 <= i < |ids| ==> rows[i] == t.connections[ids[i]]
  {
    seq(|ids|, i requires 0 <= i < |ids| => t.connections[ids[i]])
  }

  predicate Present(t: Tables, ids: seq<string>) {
    forall i :: 0 <= i < |ids| ==> ids[i] in t.connections
  }

  // The call measures all its connections, and stops at one of them if it stops.
  predicate Shaped(t: Tables, call: Call) {
    Present(t, call.ids) && |call.p95| == |call.ids| && call.full <= |call.ids| && (call.half ==> call.full < |call.ids|)
  }

  // What the finished part of the refresh leaves behind.
  function AfterFull(opts: Options, t: Tables, call: Call): Tables
    requires Shaped(t, call)
  {
    Refreshed(opts, t.(attempts := call.attempts), RowsAt(t, call.ids)[..call.full], call.ctx.environment, call.now,
              call.p95[..call.full]).0
  }

  // A snapshot that is saved before the refresh fails.
  function OnlySnapped(opts: Options, t: Tables, conn: Connection, env: Environment, now: Time, p95: real): Tables {
    if conn.environment != env then t
    else t.(snapshots := t.snapshots[conn.id := Snapshots(t, conn.id) + [Snapped(opts, t, conn.id, now, p95)]])
  }

  function AfterRefresh(opts: Options, t: Tables, call: Call): Tables
    requires Shaped(t, call)
  {
    var t' := AfterFull(opts, t, call);
    if call.half then
      OnlySnapped(opts, t', RowsAt(t, call.ids)[call.full], call.ctx.environment, call.now, call.p95[call.full])
    else t'
  }

  function Apply(opts: Options, s: Sys, a: Action): Sys {
    match a
    case Route(call) => if Shaped(s.tables, call) then Sys(call.done, AfterRefresh(opts, s.tables, call)) else s
    case Configure(connections) => s.(tables := s.tables.(connections := connections))
  }

  predicate Distinct(ids: seq<string>) {
    forall i, j :: 0 <= i < j < |ids| ==> ids[i] != ids[j]
  }

  predicate Visited(t: Tables, call: Call, id: string)
    requires Present(t, call.ids)
  {
    exists conn :: conn in Visits(RowsAt(t, call.ids), call.ctx, call.budget) && conn.id == id
  }

  // A request goes to a connection that selection visits, at some time during the call, and
  // only if the refresh has finished.
  ghost predicate Sends(t: Tables, call: Call) {
    && Present(t, call.ids) && (call.sent != [] ==> call.full == |call.ids|)
    && forall i :: 0 <= i < |call.sent| ==>
         call.now <= call.sent[i].at <= call.done && Visited(t, call, call.sent[i].connection)
  }

  // Calls follow one another in time. Between calls connections may be added, with closed
  // circuits, and changed in everything but identity, environment and circuit.
  ghost predicate CanDo(opts: Options, s: Sys, a: Action) {
    match a
    case Route(call) =>
      && s.clock <= call.now <= call.done
      && Shaped(s.tables, call) && Distinct(call.ids)
      && Sends(AfterRefresh(opts, s.tables, call), call)
    case Configure(connections) =>
      && (forall id :: id in connections ==> connections[id].id == id)
      && (forall id :: id in s.tables.connections ==>
            && id in connections
            && connections[id].environment == s.tables.connections[id].environment
            && connections[id].circuit == s.tables.connections[id].circuit
            && connections[id].circuitOpenedAt == s.tables.connections[id].circuitOpenedAt)
      && (forall id :: id in connections && id !in s.tables.connections ==>
            connections[id].circuit == Closed && connections[id].circuitOpenedAt == None)
  }

  ghost predicate Initial(s: Sys) {
    s.tables == Tables(map[], map[], [])
  }

  datatype History = History(states: seq<Sys>, actions: seq<Action>)

  ghost predicate IsRun(opts: Options, h: History) {
    && opts.cooldown > 0 && opts.window > 0
    && |h.states| == |h.actions| + 1
    && Initial(h.states[0])
    && forall i :: 0 <= i < |h.actions| ==>
         CanDo(opts, h.states[i], h.actions[i]) && h.states[i + 1] == Apply(opts, h.states[i], h.actions[i])
  }

  // ---------- One refresh and one connection ----------

  function Turned(conn: Connection, m: Move): Connection {
    if m.Stay? then conn else conn.(circuit := m.state, circuitOpenedAt := m.openedAt)
  }

  // What a refresh does to one connection depends on that connection alone.
  ghost predicate RefreshedAs(opts: Options, t: Tables, t': Tables, id: string, now: Time, p95: real)
    requires id in t.connections
  {
    var current := Snapped(opts, t, id, now, p95);
    && id in t'.connections
    && t'.connections[id] == Turned(t.connections[id],
         NextCircuit(opts, t.connections[id], current, Recent(Snapshots(t, id)), t.attempts, now))
    && Snapshots(t', id) == Snapshots(t, id) + [current]
  }

  // A refresh that fails in between adds the snapshot and leaves the circuit as it is.
  ghost predicate SnappedOnly(opts: Options, t: Tables, t': Tables, id: string, now: Time, p95: real) {
    && (id in t'.connections <==> id in t.connections)
    && (id in t.connections ==> t'.connections[id] == t.connections[id])
    && Snapshots(t', id) == Snapshots(t, id) + [Snapped(opts, t, id, now, p95)]
  }

  ghost predicate LeftAlone(t: Tables, t': Tables, id: string) {
    && (id in t'.connections <==> id in t.connections)
    && (id in t.connections ==> t'.connections[id] == t.connections[id])
    && Snapshots(t', id) == Snapshots(t, id)
  }

  lemma RefreshOneRow(opts: Options, t: Tables, conn: Connection, now: Time, p95: real)
    requires conn.id in t.connections && t.connections[conn.id] == conn
    ensures var (t', ok) := RefreshOne(opts, t, conn, now, p95);
            && ok && t'.attempts == t.attempts
            && RefreshedAs(opts, t, t', conn.id, now, p95)
            && forall id :: id != conn.id ==> LeftAlone(t, t', id)
  {
    hide NextCircuit, Snapped, Recent;
  }

  // The share of connection n in a refresh, if it has one.
  ghost predicate RowDone(opts: Options, t: Tables, t': Tables, list: seq<Connection>, env: Environment, now: Time,
      p95: seq<real>, id: string)
    requires |p95| == |list|
  {
    && (forall n :: 0 <= n < |list| && list[n].id == id && list[n].environment == env ==>
          id in t.connections && RefreshedAs(opts, t, t', id, now, p95[n]))
    && ((forall n :: 0 <= n < |list| && list[n].id == id ==> list[n].environment != env) ==> LeftAlone(t, t', id))
  }

  lemma {:induction false} RefreshedRows(opts: Options, t: Tables, list: seq<Connection>, env: Environment,
      now: Time, p95: seq<real>, id: string)
    requires |p95| == |list|
    requires forall n :: 0 <= n < |list| ==> list[n].id in t.connections && t.connections[list[n].id] == list[n]
    requires forall m, n :: 0 <= m < n < |list| ==> list[m].id != list[n].id
    ensures var (t', ok) := Refreshed(opts, t, list, env, now, p95);
            ok && t'.attempts == t.attempts && RowDone(opts, t, t', list, env, now, p95, id)
    decreases |list|
  {
    hide RefreshOne, RefreshedAs, LeftAlone;
    if list == [] {
      assert LeftAlone(t, t, id) by { Untouched(t, id); }
    } else {
      var n := |list| - 1;
      var last := list[n];
      RefreshedRows(opts, t, list[..n], env, now, p95[..n], id);
      RefreshedRows(opts, t, list[..n], env, now, p95[..n], last.id);
      var t1 := Refreshed(opts, t, list[..n], env, now, p95[..n]).0;
      var t2 := Refreshed(opts, t, list, env, now, p95).0;
      assert LeftAlone(t, t1, last.id);
      SameRow(t, t1, last.id);
      if last.environment == env { RefreshOneRow(opts, t1, last, now, p95[n]); }
      forall m | 0 <= m <= n && list[m].id == id && list[m].environment == env
        ensures id in t.connections && RefreshedAs(opts, t, t2, id, now, p95[m])
      {
        if m == n {
          SameShare(opts, t, t1, t2, id, now, p95[n]);
        } else {
          assert list[..n][m] == list[m] && p95[..n][m] == p95[m];
          if last.environment == env { KeptShare(opts, t, t1, t2, id, now, p95[m]); }
        }
      }
      if forall m :: 0 <= m <= n && list[m].id == id ==> list[m].environment != env {
        assert forall m :: 0 <= m < n && list[..n][m].id == id ==> list[..n][m].environment != env;
        if last.environment == env { AloneTwice(t, t1, t2, id); }
      }
    }
  }

  lemma Untouched(t: Tables, id: string)
    ensures LeftAlone(t, t, id)
  {
  }

  lemma AloneTwice(t: Tables, t1: Tables, t2: Tables, id: string)
    requires LeftAlone(t, t1, id) && LeftAlone(t1, t2, id)
    ensures LeftAlone(t, t2, id)
  {
  }

  lemma SameRow(t: Tables, t1: Tables, id: string)
    requires LeftAlone(t, t1, id) && id in t.connections
    ensures id in t1.connections && t1.connections[id] == t.connections[id]
  {
  }

  // A share computed after others is the share computed alone.
  lemma SameShare(opts: Options, t: Tables, t1: Tables, t2: Tables, id: string, now: Time, p95: real)
    requires id in t.connections && id in t1.connections && LeftAlone(t, t1, id) && t1.attempts == t.attempts
    requires RefreshedAs(opts, t1, t2, id, now, p95)
    ensures RefreshedAs(opts, t, t2, id, now, p95)
  {
  }

  lemma KeptShare(opts: Options, t: Tables, t1: Tables, t2: Tables, id: string, now: Time, p95: real)
    requires id in t.connections && RefreshedAs(opts, t, t1, id, now, p95) && LeftAlone(t1, t2, id)
    ensures RefreshedAs(opts, t, t2, id, now, p95)
  {
  }
}
