/** Runs from the empty table that show what the theorems about the monitor warn of: one
transaction, step by step through submit handler, ingest and monitor. */
module Scenarios {
  import opened Storage
  import opened Query
  import opened Priority
  import opened Monitor
  import opened Pipeline
  import opened Lifecycle

  const START := World(map[], Resting, Following, None, [], map[], map[], multiset{})

  /** Some run with these actions ends in this state. */
  ghost predicate At(cfg: Settings, acts: seq<Pipeline.Action>, w: World) {
    exists ws :: EndsIn(cfg, ws, acts, w)
  }

  ghost predicate EndsIn(cfg: Settings, ws: seq<World>, acts: seq<Pipeline.Action>, w: World) {
    Lifecycle.Run(cfg, ws, acts) && ws[|acts|] == w
  }

  lemma Start(cfg: Settings)
    ensures At(cfg, [], START)
  {
    assert EndsIn(cfg, [START], [], START);
  }

  lemma Then(cfg: Settings, acts: seq<Pipeline.Action>, w: World, a: Pipeline.Action)
    returns (acts': seq<Pipeline.Action>, w': World)
    requires At(cfg, acts, w) && Enabled(cfg, w, a)
    ensures acts' == acts + [a] && w' == Apply(cfg, w, a) && At(cfg, acts', w')
  {
    acts', w' := acts + [a], Apply(cfg, w, a);
    var ws :| EndsIn(cfg, ws, acts, w);
    var ws' := ws + [w'];
    forall k | 0 <= k < |acts'| ensures StepAt(cfg, ws', acts', k) {
      if k < |acts| {
        assert StepAt(cfg, ws, acts, k);
        assert ws'[k] == ws[k] && ws'[k + 1] == ws[k + 1] && acts'[k] == acts[k];
      }
    }
    assert EndsIn(cfg, ws', acts', w');
  }

  // ----- A table with one row

  /** The row is the only one, ingest rests, and the monitor is where it says. */
  ghost predicate Sole(w: World, row: Transaction, m: MonitorState) {
    w.table == map[row.id := row] && w.ingest == Resting && w.monitor == m
  }

  lemma WriteOne(row: Transaction, written: Transaction)
    requires Merge(row, written) == written
    ensures WriteBack(map[row.id := row], map[row.id := written]) == map[row.id := written]
  {
  }

  lemma SoleWrite(cfg: Settings, w: World, a: Pipeline.Action, row: Transaction, written: Transaction)
    requires w.table == map[row.id := row] && !a.Create?
    requires Writes(cfg, w, a) == map[row.id := written] && Merge(row, written) == written
    ensures Apply(cfg, w, a).table == map[row.id := written]
  {
    WriteOne(row, written);
    assert NewTable(cfg, w, a) == WriteBack(w.table, Writes(cfg, w, a));
  }

  lemma RetryOne(cfg: Config, row: Transaction, e: Event)
    requires e.RollForward? && row.id !in e.txs && Stale(cfg, e.slot, row)
    ensures RetrySet(cfg, map[row.id := row], e) == map[row.id := RetryRow(row)]
    ensures Aged(cfg, e.slot, map[row.id := row])
  {
  }

  lemma RevertOne(row: Transaction, p: Slot)
    requires row.status == Confirmed && row.slot.Some? && row.slot.value > p
    ensures ToRollback(map[row.id := row], p) == map[row.id := row]
    ensures RevertSet(map[row.id := row], p) == map[row.id := RevertRow(row)]
  {
  }

  lemma SoleQuiet(cfg: Settings, w: World, a: Pipeline.Action)
    requires !a.Create? && Writes(cfg, w, a) == map[]
    ensures Apply(cfg, w, a).table == w.table
  {
    assert WriteBack(w.table, map[]) == w.table;
  }

  const NEW_ROW := Transaction("a", [], Pending, "default", None, 0)

  lemma Born(cfg: Settings) returns (acts: seq<Pipeline.Action>, w: World)
    ensures At(cfg, acts, w) && Sole(w, NEW_ROW, Following) && w.requeued == multiset{} && w.cursor == None
  {
    acts, w := [], START;
    Start(cfg);
    InsertExact(map[], [NEW_ROW]);
    acts, w := Then(cfg, acts, w, Create([NEW_ROW]));
    assert Ids([NEW_ROW]) == {"a"};
    assert [NEW_ROW][0] == NEW_ROW;
    assert w.table == map["a" := NEW_ROW];
  }

  lemma SolePlan(weights: map<Queue, nat>, row: Transaction)
    requires row.status == Pending && weights == map[]
    ensures IsPlan(map[row.id := row], Pending, weights, 1, [Share(row.queue, 1, 1, 1)])
    ensures Limits([Share(row.queue, 1, 1, 1)]) == [Limit(row.queue, 1)]
  {
    var t, s := map[row.id := row], Share(row.queue, 1, 1, 1);
    SoleCount(row);
    assert TotalWeight([s]) == 1 by { assert [s][..0] == []; }
    assert IsQuota(1, 1, 1, 1);
    forall q | Count(t, Pending, q) > 0 ensures exists i :: 0 <= i < |[s]| && [s][i].queue == q {
      assert Matching(t, Pending, q) != {};
      assert [s][0].queue == q;
    }
    assert [s][..0] == [];
  }

  lemma SoleCount(row: Transaction)
    requires row.status == Pending
    ensures Count(map[row.id := row], Pending, row.queue) == 1
  {
    assert Matching(map[row.id := row], Pending, row.queue) == {row.id};
  }

  lemma SoleNext(row: Transaction)
    requires row.status == Pending
    ensures IsNext(map[row.id := row], Pending, [Limit(row.queue, 1)], [row])
  {
    var t, l := map[row.id := row], Limit(row.queue, 1);
    SoleCount(row);
    assert Taken(t, Matching(t, Pending, row.queue), row);
    assert IsOldest(t, Pending, l, [row]);
    assert Flatten([[row]]) == [row] by { assert [[row]][..0] == []; }
    assert IsUnion(t, Pending, [l], [[row]]);
  }

  /** Ingest picks the row up and launches it at `tip`, whatever the monitor is doing. */
  lemma Sends(cfg: Settings, before: seq<Pipeline.Action>, w0: World, row: Transaction, m: MonitorState, tip: Slot)
    returns (acts: seq<Pipeline.Action>, w: World)
    requires cfg.weights == map[] && At(cfg, before, w0) && Sole(w0, row, m) && row.status == Pending
    ensures At(cfg, acts, w) && Sole(w, Ingest.Launch(row, row.raw, tip), m)
    ensures w.baseline == w0.baseline && w.requeued == w0.requeued && w.cursor == w0.cursor
  {
    SolePlan(cfg.weights, row);
    SoleNext(row);
    var shares := [Share(row.queue, 1, 1, 1)];
    w := w0;
    SoleQuiet(cfg, w, Plan(shares, 1));
    acts, w := Then(cfg, before, w, Plan(shares, 1));
    SoleQuiet(cfg, w, Fetch([row]));
    acts, w := Then(cfg, acts, w, Fetch([row]));
    SoleWrite(cfg, w, Launch(row.raw, tip), row, Ingest.Launch(row, row.raw, tip));
    acts, w := Then(cfg, acts, w, Launch(row.raw, tip));
    SoleQuiet(cfg, w, Abandon);
    acts, w := Then(cfg, acts, w, Abandon);
  }

  lemma Delivers(cfg: Settings, before: seq<Pipeline.Action>, w0: World, row: Transaction, e: Event)
    returns (acts: seq<Pipeline.Action>, w: World)
    requires At(cfg, before, w0) && Sole(w0, row, Following)
    ensures At(cfg, acts, w) && Sole(w, row, Received(e)) && w.requeued == multiset{} && w.cursor == w0.cursor
    ensures e.RollForward? ==> w.baseline == Select(w0.table, InFlight)
  {
    SoleQuiet(cfg, w0, Deliver(e));
    acts, w := Then(cfg, before, w0, Deliver(e));
  }

  /** The monitor reads the row in flight and writes its confirmations. */
  lemma Attempts(cfg: Settings, before: seq<Pipeline.Action>, w0: World, row: Transaction, e: Event)
    returns (acts: seq<Pipeline.Action>, w: World)
    requires At(cfg, before, w0) && Sole(w0, row, Received(e)) && e.RollForward? && row.status == InFlight
    ensures before < acts && At(cfg, acts, w)
    ensures Sole(w, if row.id in e.txs then ConfirmRow(row, e.slot) else row, Retrying(e, map[row.id := row]))
    ensures w.baseline == w0.baseline && w.requeued == w0.requeued && w.cursor == w0.cursor
  {
    assert Select(w0.table, InFlight) == map[row.id := row];
    SoleQuiet(cfg, w0, ReadInFlight);
    acts, w := Then(cfg, before, w0, ReadInFlight);
    if row.id in e.txs {
      assert Writes(cfg, w, WriteConfirmed) == map[row.id := ConfirmRow(row, e.slot)];
      SoleWrite(cfg, w, WriteConfirmed, row, ConfirmRow(row, e.slot));
    } else {
      assert Writes(cfg, w, WriteConfirmed) == map[];
      SoleQuiet(cfg, w, WriteConfirmed);
    }
    acts, w := Then(cfg, acts, w, WriteConfirmed);
  }

  /** The row read is stale and outside the block: it goes back to Pending. */
  lemma Requeues(cfg: Settings, before: seq<Pipeline.Action>, w0: World, row: Transaction, e: Event)
    returns (acts: seq<Pipeline.Action>, w: World)
    requires At(cfg, before, w0) && Sole(w0, row, Retrying(e, map[row.id := row])) && e.RollForward?
    requires row.id !in e.txs && Stale(cfg.monitor, e.slot, row)
    ensures before < acts && At(cfg, acts, w) && Sole(w, RetryRow(row), Recording(e))
    ensures w.baseline == w0.baseline && w.requeued == w0.requeued + multiset{row.id} && w.cursor == w0.cursor
  {
    RetryOne(cfg.monitor, row, e);
    SoleWrite(cfg, w0, WriteRetried, row, RetryRow(row));
    assert map[row.id := RetryRow(row)].Keys == {row.id};
    acts, w := Then(cfg, before, w0, WriteRetried);
  }

  lemma Panics(cfg: Settings, before: seq<Pipeline.Action>, w0: World, row: Transaction, now: Transaction, e: Event)
    returns (acts: seq<Pipeline.Action>, w: World)
    requires At(cfg, before, w0) && Sole(w0, now, Retrying(e, map[row.id := row])) && e.RollForward?
    requires Age(cfg.monitor, e.slot, row.slot).None?
    ensures before < acts && At(cfg, acts, w) && Sole(w, now, Halted(e))
    ensures w.baseline == w0.baseline && w.requeued == w0.requeued && w.cursor == w0.cursor
  {
    assert row.id in w0.monitor.rows;
    SoleQuiet(cfg, w0, Panic);
    acts, w := Then(cfg, before, w0, Panic);
  }

  lemma Restarts(cfg: Settings, before: seq<Pipeline.Action>, w0: World, row: Transaction, m: MonitorState)
    returns (acts: seq<Pipeline.Action>, w: World)
    requires At(cfg, before, w0) && Sole(w0, row, m) && !m.Following?
    ensures before < acts && At(cfg, acts, w) && Sole(w, row, Received(m.e))
    ensures w.baseline == w0.baseline && w.requeued == w0.requeued && w.cursor == w0.cursor
  {
    SoleQuiet(cfg, w0, Restart);
    acts, w := Then(cfg, before, w0, Restart);
  }

  // ----- An event that has been applied and is replayed

  /** The row is launched at slot 0 and a block at slot 1 passes it by, which leaves a cursor to
      restart from. */
  lemma PassedBy(cfg: Settings) returns (acts: seq<Pipeline.Action>, w: World)
    requires cfg.weights == map[] && cfg.monitor.retrySlotDiff == 10
    ensures At(cfg, acts, w) && Sole(w, Ingest.Launch(NEW_ROW, [], 0), Following) && w.cursor == Some((1, []))
  {
    var e, launched := RollForward(1, [], []), Ingest.Launch(NEW_ROW, [], 0);
    acts, w := Born(cfg);
    acts, w := Sends(cfg, acts, w, NEW_ROW, Following, 0);
    acts, w := Delivers(cfg, acts, w, launched, e);
    acts, w := Attempts(cfg, acts, w, launched, e);
    acts, w := Completes(cfg, acts, w, launched, launched, e);
  }

  /** A block at slot 100 requeues the row launched at slot 0. */
  lemma Applied(cfg: Settings, e: Event) returns (acts: seq<Pipeline.Action>, w: World)
    requires cfg.weights == map[] && cfg.monitor.retrySlotDiff == 10 && e == RollForward(100, [], [])
    ensures At(cfg, acts, w) && Sole(w, NEW_ROW, Recording(e))
    ensures w.requeued == multiset{"a"} && w.cursor == Some((1, []))
    ensures w.baseline == map["a" := Ingest.Launch(NEW_ROW, [], 0)]
  {
    var launched := Ingest.Launch(NEW_ROW, [], 0);
    acts, w := PassedBy(cfg);
    acts, w := Delivers(cfg, acts, w, launched, e);
    assert w.baseline == map["a" := launched];
    acts, w := Attempts(cfg, acts, w, launched, e);
    acts, w := Requeues(cfg, acts, w, launched, e);
  }

  /** A block at slot 100 requeues the row launched at slot 0.  Before its cursor is written ingest
      launches it again, at slot 101, and the monitor restarts and reads it. */
  lemma AppliedThenReplayed(cfg: Settings, e: Event)
    returns (first: seq<Pipeline.Action>, applied: World, acts: seq<Pipeline.Action>, w: World, row: Transaction)
    requires cfg.weights == map[] && cfg.monitor.retrySlotDiff == 10 && e == RollForward(100, [], [])
    ensures At(cfg, acts, w) && row == Ingest.Launch(NEW_ROW, [], 101)
    ensures Sole(w, row, Retrying(e, map["a" := row])) && w.requeued == multiset{"a"} && w.cursor == Some((1, []))
    // it was applied, and ingest made the row differ from what the event leaves
    ensures first < acts && At(cfg, first, applied) && applied.monitor == Recording(e)
    ensures applied.requeued == multiset{"a"} && "a" in applied.baseline && "a" in applied.table
    ensures applied.table["a"] != EventRow(cfg.monitor, e, applied.baseline["a"])
  {
    acts, w := Applied(cfg, e);
    first, applied := Sends(cfg, acts, w, NEW_ROW, Recording(e), 101);
    row := Ingest.Launch(NEW_ROW, [], 101);
    acts, w := Restarts(cfg, first, applied, row, Recording(e));
    acts, w := Attempts(cfg, acts, w, row, e);
  }

  /** With overflow checks the replay of an event that had been applied halts the monitor. */
  lemma ReplayHalts(cfg: Settings)
    returns (first: seq<Pipeline.Action>, applied: World, acts: seq<Pipeline.Action>, w: World)
    requires cfg.weights == map[] && cfg.monitor == Config(10, true)
    ensures At(cfg, first, applied) && applied.monitor.Recording? && applied.requeued["a"] == 1
    ensures first < acts && At(cfg, acts, w) && w.monitor.Halted? && w.requeued["a"] == 1 && w.cursor == Some((1, []))
  {
    var e := RollForward(100, [], []);
    var row;
    first, applied, acts, w, row := AppliedThenReplayed(cfg, e);
    acts, w := Panics(cfg, acts, w, row, row, e);
  }

  /** Without them it requeues the row a second time. */
  lemma ReplayRequeues(cfg: Settings)
    returns (first: seq<Pipeline.Action>, applied: World, acts: seq<Pipeline.Action>, w: World)
    requires cfg.weights == map[] && cfg.monitor == Config(10, false)
    ensures At(cfg, first, applied) && applied.monitor.Recording? && applied.requeued["a"] == 1
    ensures first < acts && At(cfg, acts, w) && w.monitor.Recording? && w.requeued["a"] == 2 && w.cursor == Some((1, []))
  {
    var e := RollForward(100, [], []);
    var row;
    first, applied, acts, w, row := AppliedThenReplayed(cfg, e);
    acts, w := Requeues(cfg, acts, w, row, e);
  }

  // ----- A rolled-back row

  /** The row is confirmed at slot 5 and rolled back to slot 4. */
  lemma ConfirmedThenRolledBack(cfg: Settings) returns (acts: seq<Pipeline.Action>, w: World)
    requires cfg.weights == map[]
    ensures At(cfg, acts, w) && Sole(w, NEW_ROW.(status := InFlight), Following)
    ensures w.cursor == Some((4, []))
  {
    var e, back, first := RollForward(5, [], ["a"]), Rollback(4, []), Ingest.Launch(NEW_ROW, [], 0);
    acts, w := Born(cfg);
    acts, w := Sends(cfg, acts, w, NEW_ROW, Following, 0);
    acts, w := Delivers(cfg, acts, w, first, e);
    acts, w := Attempts(cfg, acts, w, first, e);
    var confirmed := ConfirmRow(first, 5);
    acts, w := Completes(cfg, acts, w, first, confirmed, e);
    acts, w := Delivers(cfg, acts, w, confirmed, back);
    acts, w := Reverts(cfg, acts, w, confirmed, back);
  }

  /** Nothing to retry: the event ends with its cursor. */
  lemma Completes(cfg: Settings, before: seq<Pipeline.Action>, w0: World, row: Transaction, now: Transaction, e: Event)
    returns (acts: seq<Pipeline.Action>, w: World)
    requires At(cfg, before, w0) && Sole(w0, now, Retrying(e, map[row.id := row])) && e.RollForward?
    requires (row.id in e.txs || !Stale(cfg.monitor, e.slot, row)) && Age(cfg.monitor, e.slot, row.slot).Some?
    ensures At(cfg, acts, w) && Sole(w, now, Following) && w.cursor == Some((e.slot, e.hash))
  {
    assert RetrySet(cfg.monitor, map[row.id := row], e) == map[];
    SoleQuiet(cfg, w0, WriteRetried);
    acts, w := Then(cfg, before, w0, WriteRetried);
    SoleQuiet(cfg, w, SetCursor);
    acts, w := Then(cfg, acts, w, SetCursor);
  }

  lemma Reverts(cfg: Settings, before: seq<Pipeline.Action>, w0: World, row: Transaction, back: Event)
    returns (acts: seq<Pipeline.Action>, w: World)
    requires At(cfg, before, w0) && Sole(w0, row, Received(back)) && back.Rollback?
    requires row.status == Confirmed && row.slot.Some? && row.slot.value > back.slot
    ensures At(cfg, acts, w) && Sole(w, RevertRow(row), Following) && w.cursor == Some((back.slot, back.hash))
  {
    RevertOne(row, back.slot);
    SoleQuiet(cfg, w0, ReadToRollback);
    acts, w := Then(cfg, before, w0, ReadToRollback);
    SoleWrite(cfg, w, WriteReverted, row, RevertRow(row));
    acts, w := Then(cfg, acts, w, WriteReverted);
    SoleQuiet(cfg, w, SetCursor);
    acts, w := Then(cfg, acts, w, SetCursor);
  }

  /** The next block halts the monitor, and so does its replay, in either build. */
  lemma RolledBackHalts(cfg: Settings) returns (acts: seq<Pipeline.Action>, w: World, again: seq<Pipeline.Action>, w': World)
    requires cfg.weights == map[]
    ensures At(cfg, acts, w) && w.monitor.Halted?
    ensures acts < again && At(cfg, again, w') && w'.monitor.Halted? && w'.table == w.table && w'.cursor == w.cursor
    ensures w.cursor == Some((4, []))
  {
    var e, row := RollForward(6, [], []), NEW_ROW.(status := InFlight);
    acts, w := ConfirmedThenRolledBack(cfg);
    acts, w := Delivers(cfg, acts, w, row, e);
    acts, w := Attempts(cfg, acts, w, row, e);
    acts, w := Panics(cfg, acts, w, row, row, e);
    again, w' := Restarts(cfg, acts, w, row, Halted(e));
    again, w' := Attempts(cfg, again, w', row, e);
    again, w' := Panics(cfg, again, w', row, row, e);
  }
}
