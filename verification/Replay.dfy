/** What restarts of the monitor do to an event while ingest goes on.

The rows an event confirms or leaves alone come out as one uninterrupted application leaves
them.  The rows it sends back to Pending are handed to ingest, and when the monitor restarts
before its cursor is written it may meet one of them again, in flight: then it sends it back a
second time, or panics on an event it had already applied. */
module Replay {
  import opened Storage
  import opened Monitor
  import opened Pipeline
  import opened Lifecycle

  /** When only the cursor is left to write, the event has reached every row it concerned on
      arrival, however often the monitor restarted: a row of the block, or one that is not stale,
      is as one uninterrupted application leaves it and was never requeued, and a stale row outside
      the block was requeued at least once. */
  lemma EventReachedEveryRow(cfg: Settings, ws: seq<World>, acts: seq<Action>, i: nat, id: Id)
    requires Run(cfg, ws, acts) && i < |ws| && ws[i].monitor.Recording? && id in ws[i].baseline
    ensures id in ws[i].table
    ensures var e, was := ws[i].monitor.e, ws[i].baseline[id];
            var retry := e.RollForward? && id !in e.txs && Overdue(cfg.monitor, e.slot, was.slot);
            && (!retry ==> ws[i].table[id] == EventRow(cfg.monitor, e, was))
            && (e.RollForward? ==> (retry <==> ws[i].requeued[id] > 0))
  {
    RunKeepsInv(cfg, ws, acts, i);
    assert BaselineRow(cfg, ws[i], id);
    StaleExactly(cfg.monitor, ws[i].monitor.e.slot, ws[i].baseline[id]);
  }

  // ----- Looking back over a run

  predicate NoDeliver(acts: seq<Action>, j: nat, i: nat) {
    forall k :: j < k < i && k < |acts| ==> !acts[k].Deliver?
  }

  lemma CountStep(cfg: Settings, w: World, a: Action, id: Id)
    requires Apply(cfg, w, a).requeued[id] > 0
    ensures !a.Deliver? && (w.requeued[id] > 0 || (a.WriteRetried? && id in Writes(cfg, w, a)))
  {
  }

  /** The write that last requeued the row, for the event that is in progress. */
  lemma {:induction false} RequeuedBy(cfg: Settings, ws: seq<World>, acts: seq<Action>, i: nat, id: Id) returns (j: nat)
    requires Run(cfg, ws, acts) && i < |ws| && ws[i].requeued[id] > 0
    ensures j < i && acts[j].WriteRetried? && id in Writes(cfg, ws[j], acts[j]) && NoDeliver(acts, j, i)
  {
    j := i - 1;
    RunStep(cfg, ws, acts, j);
    CountStep(cfg, ws[j], acts[j], id);
    if !(acts[j].WriteRetried? && id in Writes(cfg, ws[j], acts[j])) {
      j := RequeuedBy(cfg, ws, acts, i - 1, id);
    }
  }

  lemma RunInProgress(cfg: Settings, ws: seq<World>, acts: seq<Action>, i: nat)
    requires Run(cfg, ws, acts) && i < |acts| && !acts[i].Deliver? && !ws[i + 1].monitor.Following?
    ensures !ws[i].monitor.Following? && ws[i + 1].monitor.e == ws[i].monitor.e
  {
    RunStep(cfg, ws, acts, i);
    SameEventAfter(cfg, ws[i], acts[i]);
  }

  /** As long as it is in progress without a new one being delivered, it is the same event. */
  lemma {:induction false} SameEvent(cfg: Settings, ws: seq<World>, acts: seq<Action>, j: nat, i: nat)
    requires Run(cfg, ws, acts) && j < i < |ws| && NoDeliver(acts, j, i) && !ws[i].monitor.Following?
    ensures !ws[j + 1].monitor.Following? && ws[j + 1].monitor.e == ws[i].monitor.e
  {
    if j + 1 < i {
      RunInProgress(cfg, ws, acts, i - 1);
      SameEvent(cfg, ws, acts, j, i - 1);
    }
  }

  /** The delivery of the event in progress. */
  lemma {:induction false} DeliveredBy(cfg: Settings, ws: seq<World>, acts: seq<Action>, i: nat) returns (d: nat)
    requires Run(cfg, ws, acts) && i < |ws| && !ws[i].monitor.Following?
    ensures d < i && acts[d] == Deliver(ws[i].monitor.e) && NoDeliver(acts, d, i)
  {
    d := i - 1;
    RunStep(cfg, ws, acts, d);
    if !acts[d].Deliver? {
      RunInProgress(cfg, ws, acts, d);
      d := DeliveredBy(cfg, ws, acts, d);
    }
  }

  /** The cursor is the point of the last event that was completed. */
  lemma {:induction false} CursorIsLastDone(cfg: Settings, ws: seq<World>, acts: seq<Action>, i: nat) returns (d: nat, j: nat)
    requires Run(cfg, ws, acts) && i < |ws| && ws[i].cursor.Some?
    ensures d < j < i && acts[d].Deliver? && NoDeliver(acts, d, j) && acts[j].SetCursor? && ws[j].monitor.Recording?
    ensures ws[i].cursor == Some((acts[d].event.slot, acts[d].event.hash))
    ensures forall k :: j < k < i ==> !acts[k].SetCursor?
  {
    j := i - 1;
    RunStep(cfg, ws, acts, j);
    if acts[j].SetCursor? {
      d := DeliveredBy(cfg, ws, acts, j);
    } else {
      d, j := CursorIsLastDone(cfg, ws, acts, j);
    }
  }

  lemma DoneStep(cfg: Settings, w: World, a: Action)
    requires Enabled(cfg, w, a) && !a.Deliver? && !a.Restart? && (w.monitor.Recording? || w.monitor.Following?)
    ensures Apply(cfg, w, a).monitor.Recording? || Apply(cfg, w, a).monitor.Following?
  {
  }

  /** Without a restart a monitor that has written its last batch only writes its cursor. */
  lemma {:induction false} DoneUnlessRestarted(cfg: Settings, ws: seq<World>, acts: seq<Action>, j: nat, i: nat)
    requires Run(cfg, ws, acts) && j < i < |ws| && acts[j].WriteRetried? && NoDeliver(acts, j, i)
    requires forall k :: j < k < i ==> !acts[k].Restart?
    ensures ws[i].monitor.Recording? || ws[i].monitor.Following?
  {
    RunStep(cfg, ws, acts, i - 1);
    if j + 1 < i {
      DoneUnlessRestarted(cfg, ws, acts, j, i - 1);
      DoneStep(cfg, ws[i - 1], acts[i - 1]);
    }
  }

  /** Requeued by the event in progress and not launched since. */
  ghost predicate Parked(w: World, id: Id) {
    !w.monitor.Following? && w.requeued[id] > 0 && id in w.table && id in w.cause && w.cause[id] != Launched
  }

  lemma ParkedStep(cfg: Settings, w: World, a: Action, id: Id)
    requires Core(w) && Enabled(cfg, w, a) && !a.Deliver? && Parked(w, id) && !Apply(cfg, w, a).monitor.Following?
    requires !(a.Launch? && id in Writes(cfg, w, a))
    ensures Parked(Apply(cfg, w, a), id)
  {
    Ownership(cfg, w, a, id);
    CauseAfter(cfg, w, a, id);
  }

  lemma ParkedFirst(cfg: Settings, w: World, id: Id)
    requires Core(w) && Enabled(cfg, w, WriteRetried) && id in Writes(cfg, w, WriteRetried)
    ensures Parked(Apply(cfg, w, WriteRetried), id)
  {
    MonitorCopies(cfg, w, WriteRetried, id);
    Ownership(cfg, w, WriteRetried, id);
    CauseAfter(cfg, w, WriteRetried, id);
    CountAfter(cfg, w, id);
  }

  lemma RunParkedStep(cfg: Settings, ws: seq<World>, acts: seq<Action>, i: nat, id: Id)
    requires Run(cfg, ws, acts) && i < |acts| && !acts[i].Deliver? && !ws[i + 1].monitor.Following?
    requires Parked(ws[i], id) && !(acts[i].Launch? && id in Writes(cfg, ws[i], acts[i]))
    ensures Parked(ws[i + 1], id)
  {
    RunStep(cfg, ws, acts, i);
    ParkedStep(cfg, ws[i], acts[i], id);
  }

  lemma RunParkedFirst(cfg: Settings, ws: seq<World>, acts: seq<Action>, j: nat, id: Id)
    requires Run(cfg, ws, acts) && j < |acts| && acts[j].WriteRetried? && id in Writes(cfg, ws[j], acts[j])
    ensures Parked(ws[j + 1], id)
  {
    RunStep(cfg, ws, acts, j);
    ParkedFirst(cfg, ws[j], id);
  }

  /** Without ingest launching it again a requeued row is not in flight. */
  lemma {:induction false} WaitsUnlessLaunched(cfg: Settings, ws: seq<World>, acts: seq<Action>, j: nat, i: nat, id: Id)
    requires Run(cfg, ws, acts) && j < i < |ws| && NoDeliver(acts, j, i) && !ws[i].monitor.Following?
    requires acts[j].WriteRetried? && id in Writes(cfg, ws[j], acts[j])
    requires forall k :: j < k < i ==> !(acts[k].Launch? && id in Writes(cfg, ws[k], acts[k]))
    ensures Parked(ws[i], id)
  {
    if j + 1 < i {
      RunInProgress(cfg, ws, acts, i - 1);
      WaitsUnlessLaunched(cfg, ws, acts, j, i - 1, id);
      RunParkedStep(cfg, ws, acts, i - 1, id);
    } else {
      RunParkedFirst(cfg, ws, acts, j, id);
    }
  }

  // ----- When an event hits a row twice

  /** The rows read make the monitor send this one back to Pending, or panic on it. */
  predicate Hit(cfg: Settings, m: MonitorState, id: Id) {
    && m.Confirming? && m.e.RollForward? && id in m.rows
    && (id in RetrySet(cfg.monitor, m.rows, m.e) || Age(cfg.monitor, m.e.slot, m.rows[id].slot).None?)
  }

  /** The row is in flight again at a slot that is stale for the block or, with overflow checks,
      ahead of it. */
  predicate Relaunched(cfg: Settings, w: World, id: Id) {
    && !w.monitor.Following? && id in w.table && w.table[id].status == InFlight && w.table[id].slot.Some?
    && var since, slot := w.table[id].slot.value, w.monitor.e.slot;
       || since + cfg.monitor.retrySlotDiff < slot
       || (since > slot && (cfg.monitor.checked || since - slot + cfg.monitor.retrySlotDiff < U64))
  }

  /** An event that has requeued a row and reads its rows again has been restarted in between; it
      hits the row again exactly when ingest has launched it since, at a slot that is stale for the
      block or ahead of it. */
  lemma HitAgainExactly(cfg: Settings, ws: seq<World>, acts: seq<Action>, i: nat, id: Id)
    returns (retried: nat, restarted: nat, launched: nat)
    requires Run(cfg, ws, acts) && i < |acts| && acts[i].ReadInFlight? && ws[i].requeued[id] > 0
    ensures Hit(cfg, ws[i + 1].monitor, id) <==> Relaunched(cfg, ws[i], id)
    ensures retried < restarted < i && NoDeliver(acts, retried, i)
    ensures acts[retried].WriteRetried? && id in Writes(cfg, ws[retried], acts[retried]) && acts[restarted].Restart?
    ensures Relaunched(cfg, ws[i], id) ==>
              retried < launched < i && acts[launched].Launch? && id in Writes(cfg, ws[launched], acts[launched])
  {
    RunKeepsInv(cfg, ws, acts, i);
    RunStep(cfg, ws, acts, i);
    HitOnRead(cfg, ws[i], id);
    retried := RequeuedBy(cfg, ws, acts, i, id);
    if forall k :: retried < k < i ==> !acts[k].Restart? {
      DoneUnlessRestarted(cfg, ws, acts, retried, i);
    }
    restarted :| retried < restarted < i && acts[restarted].Restart?;
    launched := 0;
    if Relaunched(cfg, ws[i], id) {
      if forall k :: retried < k < i ==> !(acts[k].Launch? && id in Writes(cfg, ws[k], acts[k])) {
        WaitsUnlessLaunched(cfg, ws, acts, retried, i, id);
      }
      launched :| retried < launched < i && acts[launched].Launch? && id in Writes(cfg, ws[launched], acts[launched]);
    }
  }

  lemma HitOnRead(cfg: Settings, w: World, id: Id)
    requires TableOk(w) && RequeuedOk(w) && Enabled(cfg, w, ReadInFlight) && w.requeued[id] > 0
    ensures Hit(cfg, Apply(cfg, w, ReadInFlight).monitor, id) <==> Relaunched(cfg, w, id)
  {
    assert Fits(w.table[id], w.cause[id]);
    StaleExactly(cfg.monitor, w.monitor.e.slot, w.table[id]);
  }

  /** Requeueing a row twice for one event takes a restart, and the row must have been read in
      flight and stale. */
  lemma RequeuedTwice(cfg: Settings, ws: seq<World>, acts: seq<Action>, i: nat, id: Id) returns (restarted: nat)
    requires Run(cfg, ws, acts) && i < |acts| && acts[i].WriteRetried? && id in Writes(cfg, ws[i], acts[i])
    requires ws[i].requeued[id] > 0
    ensures restarted < i && acts[restarted].Restart?
    ensures !ws[i].monitor.Following? && id in ws[i].table && ws[i].table[id].status == InFlight
    ensures Overdue(cfg.monitor, ws[i].monitor.e.slot, ws[i].table[id].slot)
  {
    var j := RequeuedBy(cfg, ws, acts, i, id);
    RunStep(cfg, ws, acts, i);
    MonitorCopies(cfg, ws[i], acts[i], id);
    StaleExactly(cfg.monitor, ws[i].monitor.e.slot, ws[i].table[id]);
    if forall k :: j < k < i ==> !acts[k].Restart? {
      DoneUnlessRestarted(cfg, ws, acts, j, i);
    }
    restarted :| j < restarted < i && acts[restarted].Restart?;
  }

  // ----- When an event that has been applied panics on its replay

  ghost predicate NoneRolledBack(w: World) {
    forall id :: id in w.table && id in w.cause ==> w.cause[id] != RolledBack
  }

  lemma UnrolledStep(cfg: Settings, w: World, a: Action)
    requires Core(w) && Enabled(cfg, w, a) && !a.WriteReverted? && NoneRolledBack(w)
    ensures NoneRolledBack(Apply(cfg, w, a))
  {
    var w' := Apply(cfg, w, a);
    forall id | id in w'.table && id in w'.cause ensures w'.cause[id] != RolledBack {
      if w'.cause[id] == RolledBack { RolledBackBefore(cfg, w, a, id); }
    }
  }

  lemma RunUnrolledStep(cfg: Settings, ws: seq<World>, acts: seq<Action>, i: nat)
    requires Run(cfg, ws, acts) && i < |acts| && NoneRolledBack(ws[i])
    requires !ws[i].monitor.Following? && ws[i].monitor.e.RollForward?
    ensures NoneRolledBack(ws[i + 1])
  {
    RunStep(cfg, ws, acts, i);
    UnrolledStep(cfg, ws[i], acts[i]);
  }

  lemma RunUnrolledFirst(cfg: Settings, ws: seq<World>, acts: seq<Action>, j: nat)
    requires Run(cfg, ws, acts) && j < |acts| && acts[j].WriteRetried?
    ensures NoneRolledBack(ws[j]) && !ws[j].monitor.Following? && ws[j].monitor.e.RollForward?
    ensures !ws[j + 1].monitor.Following? && ws[j + 1].monitor.e == ws[j].monitor.e
  {
    RunStep(cfg, ws, acts, j);
    forall id | id in ws[j].table && id in ws[j].cause ensures ws[j].cause[id] != RolledBack {
      RolledBackRowsBlock(cfg, ws, acts, j, id);
    }
  }

  lemma {:induction false} StaysUnrolled(cfg: Settings, ws: seq<World>, acts: seq<Action>, j: nat, i: nat)
    requires Run(cfg, ws, acts) && j < i < |ws| && acts[j].WriteRetried?
    requires NoDeliver(acts, j, i) && !ws[i].monitor.Following?
    ensures NoneRolledBack(ws[i]) && ws[i].monitor.e.RollForward?
  {
    RunUnrolledFirst(cfg, ws, acts, j);
    if j + 1 < i {
      RunInProgress(cfg, ws, acts, i - 1);
      StaysUnrolled(cfg, ws, acts, j, i - 1);
    }
    RunUnrolledStep(cfg, ws, acts, i - 1);
  }

  /** An event whose batches were all written, and that is replayed because its cursor was not,
      panics exactly with overflow checks and when some row is in flight at a later slot than the
      block's. */
  lemma ReplayPanicsExactly(cfg: Settings, ws: seq<World>, acts: seq<Action>, j: nat, i: nat)
    requires Run(cfg, ws, acts) && j < i < |acts| && acts[j].WriteRetried? && acts[i].ReadInFlight? && NoDeliver(acts, j, i)
    ensures ws[i].monitor.Received? && ws[i + 1].monitor.Confirming?
    ensures !Aged(cfg.monitor, ws[i].monitor.e.slot, ws[i + 1].monitor.rows) <==>
            cfg.monitor.checked && exists id :: Ahead(ws[i], id)
  {
    PanicsExactly(cfg, ws, acts, i);
    StaysUnrolled(cfg, ws, acts, j, i);
    RunKeepsInv(cfg, ws, acts, i);
    if id :| Ageless(cfg, ws[i], id) { assert Ahead(ws[i], id); }
    if id :| Ahead(ws[i], id) { assert cfg.monitor.checked ==> Ageless(cfg, ws[i], id); }
  }

  predicate Ahead(w: World, id: Id) {
    && !w.monitor.Following? && id in w.table && w.table[id].status == InFlight
    && w.table[id].slot.Some? && w.table[id].slot.value > w.monitor.e.slot
  }
}
