// The telemetry tables, with their queries and updates as methods, and the refresh that a
// routing call begins with. The outside answers what the percentile query computes.
module Telemetry {
  import opened Domain
  import opened Outside
  import opened Circuit
  import Retry

  class Store {
    var connections: map<string, Connection>
    var snapshots: map<string, seq<HealthSnapshot>>
    var attempts: seq<AttemptRow>

    function Contents(): Tables
      reads this
    {
      Tables(connections, snapshots, attempts)
    }

    constructor ()
      ensures Contents() == Tables(map[], map[], [])
    {
      connections, snapshots, attempts := map[], map[], [];
    }

    method AggregateProviderHealth(id: string, from: Time, to: Time) returns (counts: Counts)
      ensures counts == Tally(attempts, id, from, to)
    {
      counts := Counts(0, 0, 0, 0);
      for i := 0 to |attempts|
        invariant counts == Tally(attempts[..i], id, from, to)
      {
        assert attempts[..i + 1][..i] == attempts[..i];
        if InWindow(attempts[i], id, from, to) {
          counts := Counted(counts, attempts[i].status);
        }
      }
      assert attempts[..|attempts|] == attempts;
    }

    method SaveProviderHealthSnapshot(id: string, snapshot: HealthSnapshot)
      modifies this`snapshots
      ensures Contents() == old(Contents()).(snapshots := old(snapshots)[id := Snapshots(old(Contents()), id) + [snapshot]])
    {
      snapshots := snapshots[id := (if id in snapshots then snapshots[id] else []) + [snapshot]];
    }

    // The most recent snapshot, if there is one.
    method ListRecentProviderHealthSnapshots(id: string) returns (recent: Option<HealthSnapshot>)
      ensures recent == Recent(Snapshots(Contents(), id))
    {
      var rows := if id in snapshots then snapshots[id] else [];
      recent := None;
      for i := 0 to |rows|
        invariant recent == Recent(rows[..i])
      {
        assert rows[..i + 1][..i] == rows[..i];
        if recent.None? || recent.value.observedAt <= rows[i].observedAt {
          recent := Some(rows[i]);
        }
      }
      assert rows[..|rows|] == rows;
    }

    method LatestProviderAttemptSince(id: string, since: Time) returns (latest: Option<AttemptRow>)
      ensures latest == LatestSince(attempts, id, since)
    {
      latest := None;
      for i := 0 to |attempts|
        invariant latest == LatestSince(attempts[..i], id, since)
      {
        assert attempts[..i + 1][..i] == attempts[..i];
        var row := attempts[i];
        if row.connection == id && row.requestedAt.Some? && row.requestedAt.value >= since {
          if latest.None? || Later(row, latest.value) {
            latest := Some(row);
          }
        }
      }
      assert attempts[..|attempts|] == attempts;
    }

    method UpdateProviderCircuit(id: string, state: CircuitState, openedAt: Option<Time>) returns (found: bool)
      modifies this`connections
      ensures (Contents(), found) == Moved(old(Contents()), id, To(state, openedAt))
      ensures found == (id in old(connections))
      ensures connections == if found then old(connections)[id := old(connections)[id].(circuit := state, circuitOpenedAt := openedAt)]
                             else old(connections)
    {
      found := id in connections;
      if found {
        connections := connections[id := connections[id].(circuit := state, circuitOpenedAt := openedAt)];
      }
    }
  }

  // How many connections of the environment a list has.
  function Covered(list: seq<Connection>, env: Environment): nat {
    if list == [] then 0
    else Covered(list[..|list| - 1], env) + if list[|list| - 1].environment == env then 1 else 0
  }

  // The snapshot that has been saved last.
  predicate IsNewest(snapshot: HealthSnapshot, saved: seq<HealthSnapshot>) {
    saved != [] && snapshot == saved[|saved| - 1]
  }

  // A percentile of response times, or zero without any.
  type Latency = x: real | x >= 0.0

  // The latencies of a refresh: each connection of the environment takes one answer, in turn.
  function Latencies(list: seq<Connection>, env: Environment, answers: nat -> Latency, from: nat): (p95: seq<real>)
    ensures |p95| == |list| && forall i :: 0 <= i < |p95| ==> p95[i] == answers(from + Covered(list[..i], env)) >= 0.0
  {
    seq(|list|, i requires 0 <= i < |list| => answers(from + Covered(list[..i], env)))
  }

  class Service {
    const store: Store
    const outside: Oracle<Latency>
    const opts: Options

    // Unset options fall back to a 15 minute window, a one minute cooldown and 20 samples.
    constructor (store: Store, outside: Oracle<Latency>, window: int, cooldown: int, minimumSamples: int)
      ensures this.store == store && this.outside == outside
      ensures opts == Options(if window <= 0 then 900 * Retry.SECOND else window, if cooldown <= 0 then 60 * Retry.SECOND else cooldown,
                              if minimumSamples <= 0 then 20 else minimumSamples)
    {
      this.store := store;
      this.outside := outside;
      this.opts := Options(if window <= 0 then 900 * Retry.SECOND else window, if cooldown <= 0 then 60 * Retry.SECOND else cooldown,
                           if minimumSamples <= 0 then 20 else minimumSamples);
    }

    // Snapshot every connection of the environment, and turn its circuit.
    method Refresh(list: seq<Connection>, env: Environment, now: Time) returns (health: Health, ok: bool)
      modifies store, outside
      ensures (store.Contents(), ok) == Refreshed(opts, old(store.Contents()), list, env, now,
                                                  Latencies(list, env, outside.answers, old(outside.asked)))
      ensures ok ==> forall id :: id in health <==> exists i :: 0 <= i < |list| && list[i].id == id && list[i].environment == env
      ensures forall id :: id in health ==> IsNewest(health[id], Snapshots(store.Contents(), id))
    {
      hide RefreshOne, Refreshed, Covered;
      ghost var t, p95 := store.Contents(), Latencies(list, env, outside.answers, outside.asked);
      Nothing(opts, t, env, now);
      health, ok := map[], true;
      var i := 0;
      while i < |list| && ok
        invariant i <= |list|
        invariant ok ==> outside.asked == old(outside.asked) + Covered(list[..i], env)
        invariant (store.Contents(), ok) == Refreshed(opts, t, list[..i], env, now, p95[..i])
        invariant ok ==> forall id :: id in health <==> exists k :: 0 <= k < i && list[k].id == id && list[k].environment == env
        invariant forall id :: id in health ==> IsNewest(health[id], Snapshots(store.Contents(), id))
        decreases |list| - i
      {
        var conn := list[i];
        OneMore(opts, t, list, env, now, p95, i);
        assert p95[i] == outside.answers(old(outside.asked) + Covered(list[..i], env));
        if conn.environment == env {
          var snapshot;
          snapshot, ok := RefreshConnection(conn, now);
          health := health[conn.id := snapshot];
        }
        i := i + 1;
      }
      RefreshStops(opts, t, list, env, now, p95, i);
    }

    method RefreshConnection(conn: Connection, now: Time) returns (snapshot: HealthSnapshot, ok: bool)
      modifies store, outside
      ensures outside.asked == old(outside.asked) + 1
      ensures (store.Contents(), ok) == RefreshOne(opts, old(store.Contents()), conn, now, outside.answers(old(outside.asked)))
      ensures store.snapshots == old(store.snapshots)[conn.id := Snapshots(old(store.Contents()), conn.id) + [snapshot]]
    {
      hide NextCircuit;
      var previous := store.ListRecentProviderHealthSnapshots(conn.id);
      var counts := store.AggregateProviderHealth(conn.id, now - opts.window, now);
      var reported := outside.Ask();
      snapshot := Observed(counts, reported, now);
      store.SaveProviderHealthSnapshot(conn.id, snapshot);
      ok := EvaluateCircuit(conn, snapshot, previous, now);
    }

    method EvaluateCircuit(conn: Connection, current: HealthSnapshot, previous: Option<HealthSnapshot>,
        now: Time) returns (ok: bool)
      modifies store`connections
      ensures (store.Contents(), ok) == Moved(old(store.Contents()), conn.id,
                NextCircuit(opts, conn, current, previous, old(store.attempts), now))
    {
      ok := true;
      match conn.circuit {
        case Closed =>
          if Unhealthy(current, opts.minimumSamples) && previous.Some? && previous.value.observedAt >= now - opts.window
             && Unhealthy(previous.value, opts.minimumSamples) {
            ok := store.UpdateProviderCircuit(conn.id, Open, Some(now));
          }
        case Open =>
          if conn.circuitOpenedAt.Some? && now >= conn.circuitOpenedAt.value + opts.cooldown {
            ok := store.UpdateProviderCircuit(conn.id, HalfOpen, conn.circuitOpenedAt);
          }
        case HalfOpen =>
          if conn.circuitOpenedAt.None? {
            ok := store.UpdateProviderCircuit(conn.id, Open, Some(now));
            return;
          }
          var attempt := store.LatestProviderAttemptSince(conn.id, conn.circuitOpenedAt.value);
          if attempt.None? {
            return;
          }
          match attempt.value.status {
            case Succeeded => ok := store.UpdateProviderCircuit(conn.id, Closed, None);
            case FailedSafe => ok := store.UpdateProviderCircuit(conn.id, Open, Some(now));
            case FailedTerminal => ok := store.UpdateProviderCircuit(conn.id, Open, Some(now));
            case Unknown => ok := store.UpdateProviderCircuit(conn.id, Open, Some(now));
            case _ =>
          }
      }
    }
  }

  lemma Nothing(opts: Options, t: Tables, env: Environment, now: Time)
    ensures Refreshed(opts, t, [], env, now, []) == (t, true) && Covered([], env) == 0
  {
  }

  lemma OneMore(opts: Options, t: Tables, list: seq<Connection>, env: Environment, now: Time, p95: seq<real>, i: nat)
    requires |p95| == |list| && i < |list|
    ensures Covered(list[..i + 1], env) == Covered(list[..i], env) + if list[i].environment == env then 1 else 0
    ensures var (t', ok) := Refreshed(opts, t, list[..i], env, now, p95[..i]);
            Refreshed(opts, t, list[..i + 1], env, now, p95[..i + 1])
            == if !ok || list[i].environment != env then (t', ok) else RefreshOne(opts, t', list[i], now, p95[i])
  {
    hide RefreshOne;
    assert list[..i + 1][..i] == list[..i] && p95[..i + 1][..i] == p95[..i];
  }

  // A refresh that has failed stays where it is.
  lemma {:induction false} RefreshStops(opts: Options, t: Tables, list: seq<Connection>, env: Environment, now: Time,
      p95: seq<real>, i: nat)
    requires |p95| == |list| && i <= |list|
    requires i < |list| ==> !Refreshed(opts, t, list[..i], env, now, p95[..i]).1
    ensures Refreshed(opts, t, list, env, now, p95) == Refreshed(opts, t, list[..i], env, now, p95[..i])
    decreases |list|
  {
    hide RefreshOne;
    if i == |list| {
      assert list[..i] == list && p95[..i] == p95;
    } else {
      var n := |list| - 1;
      assert list[..n][..i] == list[..i] && p95[..n][..i] == p95[..i];
      RefreshStops(opts, t, list[..n], env, now, p95[..n], i);
    }
  }
}
