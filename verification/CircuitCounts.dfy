// Health and the circuit breaker in terms of the attempts themselves: how many were requested
// in the window, and how they stand.
module CircuitCounts {
  import opened Domain
  import opened Router
  import opened Circuit
  import opened CircuitRuns
  import opened CircuitTheorems

  // The attempts on this connection that were requested from `from` on and before `to`.
  function Requested(rows: seq<AttemptRow>, id: string, from: Time, to: Time): set<nat> {
    set i: nat | i < |rows| && rows[i].connection == id && rows[i].requestedAt.Some? && from <= rows[i].requestedAt.value < to
  }

  // Those of them that have one of these statuses, and how many they are.
  function WithStatus(rows: seq<AttemptRow>, id: string, from: Time, to: Time, statuses: set<AttemptStatus>): set<nat> {
    set i | i in Requested(rows, id, from, to) && rows[i].status in statuses
  }

  function CountOf(rows: seq<AttemptRow>, id: string, from: Time, to: Time, statuses: set<AttemptStatus>): nat {
    |WithStatus(rows, id, from, to, statuses)|
  }

  lemma {:induction false} TallyCounts(rows: seq<AttemptRow>, id: string, from: Time, to: Time)
    ensures Tally(rows, id, from, to)
         == Counts(|Requested(rows, id, from, to)|, CountOf(rows, id, from, to, {Succeeded}),
                   CountOf(rows, id, from, to, {FailedSafe, FailedTerminal}), CountOf(rows, id, from, to, {Unknown}))
  {
    if rows != [] {
      var n := |rows| - 1;
      TallyCounts(rows[..n], id, from, to);
      RequestedMore(rows, id, from, to);
      CountMore(rows, id, from, to, {Succeeded});
      CountMore(rows, id, from, to, {FailedSafe, FailedTerminal});
      CountMore(rows, id, from, to, {Unknown});
    }
  }

  lemma RequestedMore(rows: seq<AttemptRow>, id: string, from: Time, to: Time)
    requires rows != []
    ensures var n := |rows| - 1;
            && Requested(rows, id, from, to)
               == Requested(rows[..n], id, from, to) + (if InWindow(rows[n], id, from, to) then {n} else {})
            && |Requested(rows, id, from, to)|
               == |Requested(rows[..n], id, from, to)| + (if InWindow(rows[n], id, from, to) then 1 else 0)
  {
    var n := |rows| - 1;
    assert Requested(rows, id, from, to) == Requested(rows[..n], id, from, to) + (if InWindow(rows[n], id, from, to) then {n} else {});
  }

  lemma CountMore(rows: seq<AttemptRow>, id: string, from: Time, to: Time, statuses: set<AttemptStatus>)
    requires rows != []
    ensures var n := |rows| - 1;
            CountOf(rows, id, from, to, statuses) == CountOf(rows[..n], id, from, to, statuses)
              + (if InWindow(rows[n], id, from, to) && rows[n].status in statuses then 1 else 0)
  {
    hide InWindow, Requested, WithStatus;
    RequestedMore(rows, id, from, to);
    RequestedBounds(rows[..|rows| - 1], id, from, to);
    var n, last := |rows| - 1, rows[|rows| - 1];
    var before, after := WithStatus(rows[..n], id, from, to, statuses), WithStatus(rows, id, from, to, statuses);
    forall i: nat ensures i in after <==> i in before || (i == n && InWindow(last, id, from, to) && last.status in statuses) {
      Member(rows, id, from, to, statuses, i);
      Member(rows[..n], id, from, to, statuses, i);
    }
    Member(rows[..n], id, from, to, statuses, n);
    if InWindow(last, id, from, to) && last.status in statuses {
      assert after == before + {n};
    } else {
      assert after == before;
    }
  }

  lemma Member(rows: seq<AttemptRow>, id: string, from: Time, to: Time, statuses: set<AttemptStatus>, i: nat)
    ensures i in WithStatus(rows, id, from, to, statuses) <==>
              i in Requested(rows, id, from, to) && i < |rows| && rows[i].status in statuses
  {
  }

  lemma RequestedBounds(rows: seq<AttemptRow>, id: string, from: Time, to: Time)
    ensures forall i :: i in Requested(rows, id, from, to) ==> 0 <= i < |rows|
  {
  }

  // ---------- What a snapshot says ----------

  // The snapshot of the window that ends at `now`.
  predicate Summarizes(opts: Options, s: HealthSnapshot, rows: seq<AttemptRow>, id: string, now: Time) {
    var from := now - opts.window;
    var n, succeeded := |Requested(rows, id, from, now)|, CountOf(rows, id, from, now, {Succeeded});
    var failed, unknown := CountOf(rows, id, from, now, {FailedSafe, FailedTerminal}), CountOf(rows, id, from, now, {Unknown});
    && s.sampleCount == n && s.observedAt == now
    && s.qrSuccessRate == (if n == 0 then 0.0 else succeeded as real / n as real)
    && s.errorRate == (if n == 0 then 0.0 else failed as real / n as real)
    && s.timeoutRate == (if n == 0 then 0.0 else unknown as real / n as real)
    && (n < 5 ==> s.healthScore == 0.5)
    && (n >= 5 && s.latencyP95 >= 0.0 ==>
          s.healthScore == 0.50 * s.qrSuccessRate + 0.20 * (1.0 - s.errorRate) + 0.15 * (1.0 - s.timeoutRate)
                         + 0.15 * (if s.latencyP95 >= 2000.0 then 0.0 else 1.0 - s.latencyP95 / 2000.0))
  }

  lemma SnapshotSummarizes(opts: Options, t: Tables, id: string, now: Time, p95: real)
    ensures Snapped(opts, t, id, now, p95).latencyP95 == p95
    ensures Summarizes(opts, Snapped(opts, t, id, now, p95), t.attempts, id, now)
  {
    hide CountOf, Requested, WithStatus, Tally;
    TallyCounts(t.attempts, id, now - opts.window, now);
    var c := Tally(t.attempts, id, now - opts.window, now);
    TallyRates(c);
    if p95 >= 0.0 {
      WeightedInRange(Rate(c.succeeded, c.samples), Rate(c.errors, c.samples), Rate(c.timeouts, c.samples), p95);
    }
  }

  // ---------- What counts as trouble ----------

  // Enough attempts in the window, and fewer than 70 percent of them succeeded, or at least
  // 30 percent failed, or at least 20 percent have an unknown outcome.
  predicate InTrouble(opts: Options, rows: seq<AttemptRow>, id: string, now: Time) {
    var from := now - opts.window;
    var n := |Requested(rows, id, from, now)|;
    && n >= opts.minimumSamples
    && (|| 10 * CountOf(rows, id, from, now, {Succeeded}) < 7 * n
        || 10 * CountOf(rows, id, from, now, {FailedSafe, FailedTerminal}) >= 3 * n
        || 5 * CountOf(rows, id, from, now, {Unknown}) >= n)
  }

  lemma RateBelow(count: nat, n: nat, numerator: nat, denominator: nat)
    requires n > 0 && denominator > 0
    ensures count as real / n as real < numerator as real / denominator as real <==> denominator * count < numerator * n
  {
    var c, m, a, b := count as real, n as real, numerator as real, denominator as real;
    assert c == (c / m) * m;
    assert a == (a / b) * b;
    if c / m < a / b {
      assert (c / m) * m < (a / b) * m;
      assert b * c < b * ((a / b) * m);
      assert b * ((a / b) * m) == a * m;
    } else {
      assert (c / m) * m >= (a / b) * m;
      assert b * c >= b * ((a / b) * m);
      assert b * ((a / b) * m) == a * m;
    }
    assert (denominator * count) as real == b * c && (numerator * n) as real == a * m;
  }

  lemma UnhealthyIsTrouble(opts: Options, t: Tables, id: string, now: Time, p95: real)
    ensures Unhealthy(Snapped(opts, t, id, now, p95), opts.minimumSamples) <==> InTrouble(opts, t.attempts, id, now)
  {
    hide CountOf, Requested, WithStatus;
    var from := now - opts.window;
    SnapshotSummarizes(opts, t, id, now, p95);
    var n := |Requested(t.attempts, id, from, now)|;
    if n > 0 {
      RateBelow(CountOf(t.attempts, id, from, now, {Succeeded}), n, 7, 10);
      RateBelow(CountOf(t.attempts, id, from, now, {FailedSafe, FailedTerminal}), n, 3, 10);
      RateBelow(CountOf(t.attempts, id, from, now, {Unknown}), n, 1, 5);
    } else {
      NothingCounted(t.attempts, id, from, now);
    }
  }

  lemma NothingCounted(rows: seq<AttemptRow>, id: string, from: Time, to: Time)
    ensures Requested(rows, id, from, to) == {} ==> forall statuses :: CountOf(rows, id, from, to, statuses) == 0
  {
    if Requested(rows, id, from, to) == {} {
      forall statuses ensures CountOf(rows, id, from, to, statuses) == 0 {
        assert WithStatus(rows, id, from, to, statuses) == {};
      }
    }
  }

  // ---------- Over runs ----------

  // A call that adds a snapshot of a connection adds the one that its own attempts give.
  lemma SnapshotIsStored(opts: Options, h: History, k: nat, id: string)
    requires IsRun(opts, h) && k < |h.actions| && SnapsAt(h, k, id)
    ensures h.actions[k].Route?
    ensures var before, after := Snapshots(h.states[k].tables, id), Snapshots(h.states[k + 1].tables, id);
            && after != [] && after[..|after| - 1] == before
            && Summarizes(opts, after[|after| - 1], h.actions[k].call.attempts, id, h.actions[k].call.now)
  {
    hide CanDo, AfterRefresh, NextCircuit, Summarizes, Inv, Snapped;
    var p95 := StoredSnapshot(opts, h, k, id);
    SnapshotSummarizes(opts, Before(h.states[k], h.actions[k].call), id, h.actions[k].call.now, p95);
  }

  lemma StoredSnapshot(opts: Options, h: History, k: nat, id: string) returns (p95: real)
    requires IsRun(opts, h) && k < |h.actions| && SnapsAt(h, k, id)
    ensures h.actions[k].Route?
    ensures var s, call := h.states[k], h.actions[k].call;
            Snapshots(h.states[k + 1].tables, id) == Snapshots(s.tables, id) + [Snapped(opts, Before(s, call), id, call.now, p95)]
  {
    hide CanDo, AfterRefresh, NextCircuit, Inv, Snapped;
    RunSafe(opts, h, k);
    var s, call := h.states[k], h.actions[k].call;
    InTime(opts, s, call);
    CallRow(opts, s, call, id);
    var n: nat :| n < |call.ids| && (Moves(s, call, n, id) || Breaks(s, call, n, id));
    p95 := call.p95[n];
    assert Snapshots(Before(s, call), id) == Snapshots(s.tables, id);
  }

  lemma UnhealthyCallIsTrouble(opts: Options, h: History, k: nat, id: string)
    requires IsRun(opts, h) && k < |h.actions| && SnapsAt(h, k, id)
    ensures h.actions[k].Route?
    ensures UnhealthyAt(opts, h, k, id) <==> InTrouble(opts, h.actions[k].call.attempts, id, h.actions[k].call.now)
  {
    hide CanDo, AfterRefresh, Unhealthy, InTrouble, Snapped;
    var p95 := StoredSnapshot(opts, h, k, id);
    UnhealthyIsTrouble(opts, Before(h.states[k], h.actions[k].call), id, h.actions[k].call.now, p95);
  }

  // Calls j and k look at the connection one after the other, within the window, and each
  // finds it in trouble.
  ghost predicate TwiceInTrouble(opts: Options, h: History, j: nat, k: nat, id: string)
    requires j < k < |h.actions| && |h.states| == |h.actions| + 1
  {
    && LastSnapped(h, j, k, id) && h.actions[j].Route? && h.actions[k].Route?
    && h.actions[j].call.now >= h.actions[k].call.now - opts.window
    && InTrouble(opts, h.actions[j].call.attempts, id, h.actions[j].call.now)
    && InTrouble(opts, h.actions[k].call.attempts, id, h.actions[k].call.now)
  }

  // In any run a closed circuit opens exactly in a refresh that gets past its connection,
  // finds it in trouble, and is preceded, within the window, by one that did; then it opens at
  // the call's clock reading.
  lemma OpensInTrouble(opts: Options, h: History, k: nat, id: string)
    requires IsRun(opts, h) && k < |h.actions| && id in h.states[k].tables.connections && id in h.states[k + 1].tables.connections
    requires h.states[k].tables.connections[id].circuit == Closed
    ensures var conn := h.states[k + 1].tables.connections[id];
            && (conn.circuit == Open <==> MovesAt(h, k, id) && exists j :: 0 <= j < k && TwiceInTrouble(opts, h, j, k, id))
            && (conn.circuit == Open ==> h.actions[k].Route? && conn.circuitOpenedAt == Some(h.actions[k].call.now))
            && conn.circuit != HalfOpen
  {
    hide CanDo, AfterRefresh, InTrouble, Apply, UnhealthyAt, LastSnapped;
    OpensOnTwoUnhealthy(opts, h, k, id);
    ClosedNeverHalf(opts, h, k, id);
    if MovesAt(h, k, id) {
      MovesSnaps(h, k, id);
      UnhealthyCallIsTrouble(opts, h, k, id);
      forall j | 0 <= j < k && LastSnapped(h, j, k, id)
        ensures TwiceInTrouble(opts, h, j, k, id) <==> TwiceUnhealthy(opts, h, j, k, id)
      {
        LastSnaps(h, j, k, id);
        UnhealthyCallIsTrouble(opts, h, j, id);
      }
    }
  }

  lemma MovesSnaps(h: History, k: nat, id: string)
    requires k < |h.actions| && k < |h.states| && MovesAt(h, k, id)
    ensures SnapsAt(h, k, id)
  {
  }

  lemma LastSnaps(h: History, j: nat, k: nat, id: string)
    requires j < k < |h.states| == |h.actions| + 1 && LastSnapped(h, j, k, id)
    ensures SnapsAt(h, j, id)
  {
  }

  // A closed circuit does not turn half-open.
  lemma ClosedNeverHalf(opts: Options, h: History, k: nat, id: string)
    requires IsRun(opts, h) && k < |h.actions| && CircuitAt(h.states[k], id) == Closed
    ensures CircuitAt(h.states[k + 1], id) != HalfOpen
  {
    hide CanDo, AfterRefresh, Tally, Recent, Inv, Unhealthy;
    RunSafe(opts, h, k);
    RefreshAdds(opts, h, k, id);
    if MovesAt(h, k, id) {
      var s, call := h.states[k], h.actions[k].call;
      InTime(opts, s, call);
      CallRow(opts, s, call, id);
      var n: nat :| n < |call.ids| && Moves(s, call, n, id);
      assert RefreshedAs(opts, Before(s, call), AfterRefresh(opts, s.tables, call), id, call.now, call.p95[n]);
    }
  }
}
