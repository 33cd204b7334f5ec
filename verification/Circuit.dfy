// Provider health and the circuit breaker: the snapshot of a connection, its score, and
// how a routing call moves its circuit. Rates and latency are exact reals.
module Circuit {
  import opened Domain
  import opened Router

  datatype Options = Options(window: int, cooldown: int, minimumSamples: int)

  // What telemetry reads of an attempt.
  datatype AttemptRow = AttemptRow(id: string, connection: string, requestedAt: Option<Time>, status: AttemptStatus)

  datatype Counts = Counts(samples: nat, succeeded: nat, errors: nat, timeouts: nat)

  datatype Tables = Tables(
    connections: map<string, Connection>,
    snapshots: map<string, seq<HealthSnapshot>>,
    attempts: seq<AttemptRow>)

  // ---------- The snapshot ----------

  predicate InWindow(r: AttemptRow, connection: string, from: Time, to: Time) {
    r.connection == connection && r.requestedAt.Some? && from <= r.requestedAt.value < to
  }

  function Counted(c: Counts, status: AttemptStatus): Counts {
    Counts(
      c.samples + 1,
      c.succeeded + (if status == Succeeded then 1 else 0),
      c.errors + (if status == FailedSafe || status == FailedTerminal then 1 else 0),
      c.timeouts + (if status == Unknown then 1 else 0))
  }

  // Each attempt in the window falls into at most one of the three classes.
  function Tally(rows: seq<AttemptRow>, connection: string, from: Time, to: Time): (c: Counts)
    ensures c.succeeded + c.errors + c.timeouts <= c.samples <= |rows|
  {
    if rows == [] then Counts(0, 0, 0, 0)
    else
      var c := Tally(rows[..|rows| - 1], connection, from, to);
      var last := rows[|rows| - 1];
      if InWindow(last, connection, from, to) then Counted(c, last.status) else c
  }

  function Rate(count: nat, samples: nat): real {
    if samples == 0 then 0.0 else count as real / samples as real
  }

  function Clamp01(value: real): real {
    if value < 0.0 then 0.0 else if value > 1.0 then 1.0 else value
  }

  function LatencyScore(p95: real): real {
    1.0 - (if p95 < 2000.0 then p95 else 2000.0) / 2000.0
  }

  function Weighted(success: real, error: real, timeout: real, p95: real): real {
    0.50 * success + 0.20 * (1.0 - error) + 0.15 * (1.0 - timeout) + 0.15 * LatencyScore(p95)
  }

  function ScoreOf(samples: nat, success: real, error: real, timeout: real, p95: real): real {
    if samples < 5 then 0.5 else Clamp01(Weighted(success, error, timeout, p95))
  }

  function Observed(c: Counts, p95: real, now: Time): HealthSnapshot {
    var q, e, t := Rate(c.succeeded, c.samples), Rate(c.errors, c.samples), Rate(c.timeouts, c.samples);
    HealthSnapshot(c.samples, q, e, t, p95, ScoreOf(c.samples, q, e, t, p95), now)
  }

  predicate Unhealthy(s: HealthSnapshot, minimumSamples: int) {
    s.sampleCount >= minimumSamples
    && (s.qrSuccessRate < 0.70 || s.errorRate >= 0.30 || s.timeoutRate >= 0.20)
  }

  // The latest snapshot: by time of observation, then by order of insertion.
  function Recent(snapshots: seq<HealthSnapshot>): (r: Option<HealthSnapshot>)
    ensures r.None? <==> snapshots == []
  {
    if snapshots == [] then None
    else
      var before, last := Recent(snapshots[..|snapshots| - 1]), snapshots[|snapshots| - 1];
      if before.Some? && before.value.observedAt > last.observedAt then before else Some(last)
  }

  predicate Later(a: AttemptRow, b: AttemptRow)
    requires a.requestedAt.Some? && b.requestedAt.Some?
  {
    if a.requestedAt.value != b.requestedAt.value then a.requestedAt.value > b.requestedAt.value else IdLess(b.id, a.id)
  }

  // The latest attempt on a connection requested at or after a time.
  function LatestSince(rows: seq<AttemptRow>, connection: string, since: Time): (r: Option<AttemptRow>)
    ensures r.Some? ==> r.value.requestedAt.Some?
  {
    if rows == [] then None
    else
      var before, last := LatestSince(rows[..|rows| - 1], connection, since), rows[|rows| - 1];
      if last.connection == connection && last.requestedAt.Some? && last.requestedAt.value >= since
         && (before.None? || Later(last, before.value))
      then Some(last) else before
  }

  predicate Matches(r: AttemptRow, connection: string, since: Time) {
    r.connection == connection && r.requestedAt.Some? && r.requestedAt.value >= since
  }

  // r is an attempt on the connection since that time, and none is later.
  predicate LatestIs(rows: seq<AttemptRow>, connection: string, since: Time, r: AttemptRow) {
    && r in rows && Matches(r, connection, since)
    && forall x :: x in rows && Matches(x, connection, since) ==> !Later(x, r)
  }

  lemma LaterTransitive(a: AttemptRow, b: AttemptRow, c: AttemptRow)
    requires a.requestedAt.Some? && b.requestedAt.Some? && c.requestedAt.Some?
    ensures !Later(a, a)
    ensures Later(a, b) && Later(b, c) ==> Later(a, c)
    ensures a.id != b.id ==> Later(a, b) || Later(b, a)
  {
    IdLessIsStrictTotal();
  }

  // The search finds the latest matching attempt, or there is none.
  lemma {:induction false} LatestSinceFinds(rows: seq<AttemptRow>, connection: string, since: Time)
    ensures match LatestSince(rows, connection, since)
            case None => forall x :: x in rows ==> !Matches(x, connection, since)
            case Some(r) => LatestIs(rows, connection, since, r)
  {
    if rows != [] {
      var rest, last := rows[..|rows| - 1], rows[|rows| - 1];
      LatestSinceFinds(rest, connection, since);
      assert rows == rest + [last];
      var before := LatestSince(rest, connection, since);
      if Matches(last, connection, since) {
        LaterTransitive(last, last, last);
        if before.Some? {
          forall x | x in rest && Matches(x, connection, since) && Later(last, before.value) ensures !Later(x, last) {
            LaterTransitive(x, last, before.value);
          }
        }
      }
    }
  }

  predicate UniqueRows(rows: seq<AttemptRow>) {
    forall i, j :: 0 <= i < j < |rows| ==> rows[i].id != rows[j].id
  }

  lemma LatestUnique(rows: seq<AttemptRow>, connection: string, since: Time, a: AttemptRow, b: AttemptRow)
    requires UniqueRows(rows) && LatestIs(rows, connection, since, a) && LatestIs(rows, connection, since, b)
    ensures a == b
  {
    LaterTransitive(a, b, a);
    var i :| 0 <= i < |rows| && rows[i] == a;
    var j :| 0 <= j < |rows| && rows[j] == b;
  }

  // ---------- The circuit ----------

  datatype Move = Stay | To(state: CircuitState, openedAt: Option<Time>)

  function NextCircuit(opts: Options, conn: Connection, current: HealthSnapshot, previous: Option<HealthSnapshot>,
                       attempts: seq<AttemptRow>, now: Time): Move
  {
    match conn.circuit
    case Closed =>
      if Unhealthy(current, opts.minimumSamples) && previous.Some? && previous.value.observedAt >= now - opts.window
         && Unhealthy(previous.value, opts.minimumSamples)
      then To(Open, Some(now)) else Stay
    case Open =>
      if conn.circuitOpenedAt.Some? && now >= conn.circuitOpenedAt.value + opts.cooldown
      then To(HalfOpen, conn.circuitOpenedAt) else Stay
    case HalfOpen =>
      if conn.circuitOpenedAt.None? then To(Open, Some(now))
      else
        match LatestSince(attempts, conn.id, conn.circuitOpenedAt.value)
        case None => Stay
        case Some(a) =>
          if a.status == Succeeded then To(Closed, None)
          else if a.status == FailedSafe || a.status == FailedTerminal || a.status == Unknown then To(Open, Some(now))
          else Stay
  }

  function Snapshots(t: Tables, id: string): seq<HealthSnapshot> {
    if id in t.snapshots then t.snapshots[id] else []
  }

  function Snapped(opts: Options, t: Tables, id: string, now: Time, p95: real): HealthSnapshot {
    Observed(Tally(t.attempts, id, now - opts.window, now), p95, now)
  }

  function Moved(t: Tables, id: string, m: Move): (Tables, bool) {
    if m.Stay? then (t, true)
    else if id !in t.connections then (t, false)
    else (t.(connections := t.connections[id := t.connections[id].(circuit := m.state, circuitOpenedAt := m.openedAt)]), true)
  }

  // What one connection's share of a refresh does; false when its row is gone.
  function RefreshOne(opts: Options, t: Tables, conn: Connection, now: Time, p95: real): (Tables, bool) {
    var current := Snapped(opts, t, conn.id, now, p95);
    var m := NextCircuit(opts, conn, current, Recent(Snapshots(t, conn.id)), t.attempts, now);
    Moved(t.(snapshots := t.snapshots[conn.id := Snapshots(t, conn.id) + [current]]), conn.id, m)
  }

  // A refresh goes through the connections of the environment, and stops at the first failure.
  function Refreshed(opts: Options, t: Tables, list: seq<Connection>, env: Environment, now: Time,
      p95: seq<real>): (Tables, bool)
    requires |p95| == |list|
    decreases |list|
  {
    if list == [] then (t, true)
    else
      var n := |list| - 1;
      var (t', ok) := Refreshed(opts, t, list[..n], env, now, p95[..n]);
      if !ok || list[n].environment != env then (t', ok) else RefreshOne(opts, t', list[n], now, p95[n])
  }

  // ---------- The score ----------

  predicate ValidRates(success: real, error: real, timeout: real) {
    0.0 <= success && 0.0 <= error && 0.0 <= timeout && success + error + timeout <= 1.0
  }

  lemma SharesAdd(a: real, b: real, c: real, n: real)
    requires n > 0.0
    ensures a / n + b / n + c / n == (a + b + c) / n
  {
  }

  lemma ShareBounds(a: real, n: real)
    requires n > 0.0 && 0.0 <= a <= n
    ensures 0.0 <= a / n <= 1.0
  {
  }

  // The rates of a tally are disjoint shares of its samples.
  lemma TallyRates(c: Counts)
    requires c.succeeded + c.errors + c.timeouts <= c.samples
    ensures ValidRates(Rate(c.succeeded, c.samples), Rate(c.errors, c.samples), Rate(c.timeouts, c.samples))
  {
    if c.samples > 0 {
      var n := c.samples as real;
      ShareBounds(c.succeeded as real, n);
      ShareBounds(c.errors as real, n);
      ShareBounds(c.timeouts as real, n);
      SharesAdd(c.succeeded as real, c.errors as real, c.timeouts as real, n);
      ShareBounds((c.succeeded + c.errors + c.timeouts) as real, n);
    }
  }

  // The weighted sum of valid rates needs no clamping.
  lemma WeightedInRange(success: real, error: real, timeout: real, p95: real)
    requires ValidRates(success, error, timeout) && p95 >= 0.0
    ensures 0.0 <= Weighted(success, error, timeout, p95) <= 1.0
    ensures Clamp01(Weighted(success, error, timeout, p95)) == Weighted(success, error, timeout, p95)
  {
    assert 0.0 <= LatencyScore(p95) <= 1.0;
  }

  // A better rate or a lower latency never lowers the score.
  lemma ScoreIsMonotone(samples: nat, q: real, e: real, t: real, p: real, q': real, e': real, t': real, p': real)
    requires samples >= 5
    requires q <= q' && e >= e' && t >= t' && p >= p'
    ensures ScoreOf(samples, q, e, t, p) <= ScoreOf(samples, q', e', t', p')
  {
    assert LatencyScore(p) <= LatencyScore(p');
  }

  // Whatever the attempts, a snapshot's score is between 0 and 1, and it is the plain
  // weighted sum as soon as there are five samples; an unhealthy one scores at most 0.87.
  lemma SnapshotScores(opts: Options, t: Tables, id: string, now: Time, p95: real)
    requires p95 >= 0.0
    ensures var s := Snapped(opts, t, id, now, p95);
            && 0.0 <= s.healthScore <= 1.0
            && s.healthScore == (if s.sampleCount < 5 then 0.5
                                 else Weighted(s.qrSuccessRate, s.errorRate, s.timeoutRate, s.latencyP95))
            && (Unhealthy(s, opts.minimumSamples) ==> s.healthScore <= 0.87)
  {
    hide Rate;
    var c := Tally(t.attempts, id, now - opts.window, now);
    TallyRates(c);
    WeightedInRange(Rate(c.succeeded, c.samples), Rate(c.errors, c.samples), Rate(c.timeouts, c.samples), p95);
    assert LatencyScore(p95) <= 1.0;
  }

  // The bound is tight: eight successes and two unknowns in ten, without latency.
  lemma UnhealthyBoundIsTight(opts: Options, now: Time)
    requires opts.minimumSamples <= 10
    ensures var s := Observed(Counts(10, 8, 0, 2), 0.0, now); Unhealthy(s, opts.minimumSamples) && s.healthScore == 0.87
  {
  }
}
