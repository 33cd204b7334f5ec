// Calls of the delivery service are runs of the machine.
module DeliveryCalls {
  import opened Domain
  import opened DeliveryDb
  import opened DeliveryMachine
  import opened DeliveryInvariant
  import opened DeliverySafety
  import opened DeliveryStore
  import opened DeliveryTrace

  function Last(h: History): Sys
    requires h.states != []
  {
    h.states[|h.states| - 1]
  }

  // h' is a run that goes on where h ends.
  ghost predicate Extends(cfg: Config, h: History, h': History) {
    IsRun(cfg, h) && IsRun(cfg, h') && h.states <= h'.states && h.actions <= h'.actions
  }

  function Continued(cfg: Config, h: History, a: Action): History
    requires h.states != []
  {
    History(h.states + [Apply(cfg, Last(h), a)], h.actions + [a])
  }

  lemma ContinuedIsRun(cfg: Config, h: History, h': History, a: Action)
    requires Extends(cfg, h, h') && h'.states != [] && CanDo(cfg, Last(h'), a)
    ensures Extends(cfg, h, Continued(cfg, h', a))
  {
    hide Apply, CanDo, Initial;
  }

  // The outside's clock does not go back.
  ghost predicate Steady(answers: nat -> Answers) {
    forall n: nat :: answers(n).now <= answers(n + 1).now
  }

  lemma FittingIsPermitted(cfg: Config, t: Table, w: Worker, clock: Time, a: Answers, m: Moment)
    requires Fitting(cfg, t, w, clock, a, m)
    ensures Permitted(cfg, t, w, m.choice) && m.clock == if Asks(w) then a.now else clock
  {
  }

  // A call of the service after any run, with nobody else around and a clock that does not
  // go back, is a longer run: what holds in every run holds after it, and while it goes on.
  // It ends with the table and the worker that the service's contract gives.
  lemma {:induction false} CallIsRun(cfg: Config, h: History, id: string, answers: nat -> Answers, from: nat, clock: Time,
      script: seq<Moment>, t': Table, w': Worker, to: nat) returns (h': History)
    requires h.states != [] && IsRun(cfg, h) && id in Last(h).workers
    requires Steady(answers) && Last(h).clock <= clock <= answers(from).now
    requires Follows(cfg, answers, from, clock, Last(h).table, id, Last(h).workers[id], script, t', w', to)
    ensures Extends(cfg, h, h') && h'.states != []
    ensures Last(h').table == t' && Last(h').workers == Last(h).workers[id := w'] && Last(h').stamps == Last(h).stamps
    ensures Last(h').clock <= LastReading(clock, script) <= answers(to).now
    decreases |script|
  {
    hide IsRun, Step, Permitted, Fitting;
    var s := Last(h);
    h' := h;
    if script == [] {
      assert s.workers[id := w'] == s.workers;
    } else {
      var before, m := script[..|script| - 1], script[|script| - 1];
      var (t1, w1) := Drive(cfg, s.table, id, s.workers[id], before);
      var n := if Asks(w1) then to - 1 else to;
      h' := CallIsRun(cfg, h, id, answers, from, clock, before, t1, w1, n);
      FittingIsPermitted(cfg, t1, w1, LastReading(clock, before), answers(n), m);
      ContinuedIsRun(cfg, h, h', Tick(m.clock));
      h' := Continued(cfg, h', Tick(m.clock));
      ContinuedIsRun(cfg, h, h', Run(id, m.choice));
      h' := Continued(cfg, h', Run(id, m.choice));
    }
  }

  // In every reachable state rows are stored under their own identifiers, as the statements rely on.
  lemma RowsAreKeyed(cfg: Config, h: History, k: nat)
    requires IsRun(cfg, h) && k < |h.states|
    ensures Keyed(h.states[k].table)
  {
    hide Apply, CanDo;
    RunSafe(cfg, h, k);
    var t := h.states[k].table;
    forall id | id in t.deliveries ensures t.deliveries[id].id == id && id == DeliveryId(t.deliveries[id].eventId) {
      assert DeliveryOk(cfg.maxAttempts, t, id);
    }
  }
}
