/** What holds over whole runs of the pipeline. */
module Lifecycle {
  import opened Storage
  import opened Query
  import opened Priority
  import opened Monitor
  import opened Pipeline

  // ----- The chain

  lemma ConfirmedAfter(cfg: Settings, w: World, a: Action, id: Id)
    requires Core(w) && Enabled(cfg, w, a) && !a.WriteConfirmed?
    requires id in Apply(cfg, w, a).table && Apply(cfg, w, a).table[id].status == Confirmed
    ensures id in w.table && w.table[id] == Apply(cfg, w, a).table[id]
    ensures id !in Writes(cfg, w, a)
  {
    if id in w.table {
      Ownership(cfg, w, a, id);
      if id in Writes(cfg, w, a) { WrittenFits(cfg, w, a, id); }
    } else {
      CreatedRow(cfg, w, a, id);
    }
  }

  lemma DeliverKeepsChain(cfg: Settings, w: World, a: Action)
    requires Core(w) && ChainOk(w) && Enabled(cfg, w, a) && a.Deliver?
    ensures ChainOk(Apply(cfg, w, a))
  {
    var w', e := Apply(cfg, w, a), a.event;
    Quiet(cfg, w, a);
    if e.Rollback? { KeptBlocks(w.chain, e.slot); }
    forall id | id in w'.table && w'.table[id].status == Confirmed && w'.table[id].slot.Some?
      ensures OnChain(w'.chain, w'.table[id].slot.value, id) || Doomed(w'.monitor, w'.table[id].slot.value)
    {
      var s := w.table[id].slot.value;
      var b :| b in w.chain && b.slot == s && id in b.txs;
      assert e.RollForward? || s <= e.slot ==> b in w'.chain;
    }
  }

  lemma ConfirmKeepsChain(cfg: Settings, w: World, a: Action)
    requires Core(w) && ChainOk(w) && Enabled(cfg, w, a) && a.WriteConfirmed?
    ensures ChainOk(Apply(cfg, w, a))
  {
    var w', e := Apply(cfg, w, a), w.monitor.e;
    forall id | id in w'.table && w'.table[id].status == Confirmed && w'.table[id].slot.Some?
      ensures OnChain(w'.chain, w'.table[id].slot.value, id)
    {
      Ownership(cfg, w, a, id);
      if id in Writes(cfg, w, a) {
        assert Block(e.slot, e.txs) in w'.chain;
      }
    }
  }

  ghost predicate NoneAbove(t: Table, p: Slot) {
    forall id :: id in t && t[id].status == Confirmed ==> t[id].slot.Some? && t[id].slot.value <= p
  }

  lemma RevertedRow(cfg: Settings, w: World, a: Action, id: Id)
    requires Core(w) && Enabled(cfg, w, a) && a.WriteReverted?
    requires id in Apply(cfg, w, a).table && Apply(cfg, w, a).table[id].status == Confirmed
    ensures id in w.table && w.table[id] == Apply(cfg, w, a).table[id]
    ensures w.table[id].slot.Some? && w.table[id].slot.value <= w.monitor.e.slot
  {
    ConfirmedAfter(cfg, w, a, id);
    assert Fits(w.table[id], w.cause[id]);
    assert id !in ToRollback(w.table, w.monitor.e.slot);
  }

  lemma RevertLeavesNone(cfg: Settings, w: World, a: Action)
    requires Core(w) && Enabled(cfg, w, a) && a.WriteReverted?
    ensures NoneAbove(Apply(cfg, w, a).table, w.monitor.e.slot)
  {
    var u := Apply(cfg, w, a).table;
    forall id | id in u && u[id].status == Confirmed ensures u[id].slot.Some? && u[id].slot.value <= w.monitor.e.slot {
      RevertedRow(cfg, w, a, id);
    }
  }

  lemma RevertKeepsChain(cfg: Settings, w: World, a: Action)
    requires Core(w) && ChainOk(w) && Enabled(cfg, w, a) && a.WriteReverted?
    ensures ChainOk(Apply(cfg, w, a))
  {
    var w' := Apply(cfg, w, a);
    forall id | id in w'.table && w'.table[id].status == Confirmed && w'.table[id].slot.Some?
      ensures OnChain(w'.chain, w'.table[id].slot.value, id)
    {
      RevertedRow(cfg, w, a, id);
    }
  }

  lemma OtherStepKeepsChain(cfg: Settings, w: World, a: Action)
    requires Core(w) && ChainOk(w) && Enabled(cfg, w, a)
    requires !a.Deliver? && !a.WriteConfirmed? && !a.WriteReverted?
    ensures ChainOk(Apply(cfg, w, a))
  {
    var w' := Apply(cfg, w, a);
    assert w'.chain == w.chain;
    assert forall s :: Doomed(w.monitor, s) ==> Doomed(w'.monitor, s);
    forall id | id in w'.table && w'.table[id].status == Confirmed ensures id in w.table && w.table[id] == w'.table[id] {
      ConfirmedAfter(cfg, w, a, id);
    }
  }

  lemma KeepsChain(cfg: Settings, w: World, a: Action)
    requires Core(w) && ChainOk(w) && Enabled(cfg, w, a)
    ensures ChainOk(Apply(cfg, w, a))
  {
    if a.Deliver? {
      DeliverKeepsChain(cfg, w, a);
    } else if a.WriteConfirmed? {
      ConfirmKeepsChain(cfg, w, a);
    } else if a.WriteReverted? {
      RevertKeepsChain(cfg, w, a);
    } else {
      OtherStepKeepsChain(cfg, w, a);
    }
  }

  // ----- The rows an event concerned when it arrived

  lemma DeliverSetsBaseline(cfg: Settings, w: World, a: Action)
    requires Core(w) && Enabled(cfg, w, a) && a.Deliver?
    ensures BaselineOk(cfg, Apply(cfg, w, a))
  {
    var w' := Apply(cfg, w, a);
    Quiet(cfg, w, a);
    forall id | id in w'.baseline ensures BaselineRow(cfg, w', id) {
      assert id in w.table && w'.baseline[id] == w.table[id];
    }
  }

  lemma ConfirmKeepsBaseline(cfg: Settings, w: World, id: Id)
    requires Core(w) && Enabled(cfg, w, WriteConfirmed) && id in w.baseline && BaselineRow(cfg, w, id)
    ensures BaselineRow(cfg, Apply(cfg, w, WriteConfirmed), id)
  {
    Ownership(cfg, w, WriteConfirmed, id);
  }

  /** Which rows the retry batch takes, of those the event concerned on arrival. */
  lemma RetryTakes(cfg: Settings, w: World, id: Id)
    requires Core(w) && Enabled(cfg, w, WriteRetried) && id in w.baseline && BaselineRow(cfg, w, id)
    ensures id in Writes(cfg, w, WriteRetried) ==>
              id !in w.monitor.e.txs && Stale(cfg.monitor, w.monitor.e.slot, w.table[id])
    ensures id !in w.monitor.e.txs && Stale(cfg.monitor, w.monitor.e.slot, w.baseline[id]) && w.requeued[id] == 0 ==>
              id in Writes(cfg, w, WriteRetried)
  {
  }

  lemma CountAfter(cfg: Settings, w: World, id: Id)
    ensures Apply(cfg, w, WriteRetried).requeued[id] ==
            w.requeued[id] + if id in Writes(cfg, w, WriteRetried) then 1 else 0
  {
  }

  lemma RetryKeepsBaseline(cfg: Settings, w: World, id: Id)
    requires Core(w) && Enabled(cfg, w, WriteRetried) && id in w.baseline && BaselineRow(cfg, w, id)
    ensures BaselineRow(cfg, Apply(cfg, w, WriteRetried), id)
  {
    RetryTakes(cfg, w, id);
    CountAfter(cfg, w, id);
    Ownership(cfg, w, WriteRetried, id);
    var written := Writes(cfg, w, WriteRetried);
    assert id !in written ==> Apply(cfg, w, WriteRetried).table[id] == w.table[id];
  }

  lemma RevertKeepsBaseline(cfg: Settings, w: World, id: Id)
    requires Core(w) && Enabled(cfg, w, WriteReverted) && id in w.baseline && BaselineRow(cfg, w, id)
    ensures BaselineRow(cfg, Apply(cfg, w, WriteReverted), id)
  {
    Ownership(cfg, w, WriteReverted, id);
    if w.table[id] == w.baseline[id] { assert id in ToRollback(w.table, w.monitor.e.slot); }
  }

  lemma MonitorWriteKeepsBaseline(cfg: Settings, w: World, a: Action, w': World, id: Id)
    requires Core(w) && Enabled(cfg, w, a) && MonitorWrites(a) && w' == Apply(cfg, w, a)
    requires id in w.baseline && BaselineRow(cfg, w, id)
    ensures id in w'.baseline && !w'.monitor.Following? && BaselineRow(cfg, w', id)
  {
    if a.WriteConfirmed? { ConfirmKeepsBaseline(cfg, w, id); }
    else if a.WriteRetried? { RetryKeepsBaseline(cfg, w, id); }
    else { RevertKeepsBaseline(cfg, w, id); }
  }

  lemma OtherStepKeepsBaseline(cfg: Settings, w: World, a: Action, id: Id)
    requires Core(w) && Enabled(cfg, w, a) && !MonitorWrites(a) && !a.Deliver? && !a.SetCursor?
    requires !w.monitor.Following? && id in w.baseline && BaselineRow(cfg, w, id)
    ensures BaselineRow(cfg, Apply(cfg, w, a), id)
  {
    Ownership(cfg, w, a, id);
    if a.ReadInFlight? && w.table[id].status == InFlight { assert id in Select(w.table, InFlight); }
  }

  lemma KeepsBaseline(cfg: Settings, w: World, a: Action)
    requires Core(w) && BaselineOk(cfg, w) && Enabled(cfg, w, a)
    ensures BaselineOk(cfg, Apply(cfg, w, a))
  {
    if a.Deliver? {
      DeliverSetsBaseline(cfg, w, a);
    } else if !a.SetCursor? && !w.monitor.Following? {
      StillInProgress(cfg, w, a);
      forall id | id in w.baseline ensures BaselineRow(cfg, Apply(cfg, w, a), id) {
        if MonitorWrites(a) { MonitorWriteKeepsBaseline(cfg, w, a, Apply(cfg, w, a), id); } else { OtherStepKeepsBaseline(cfg, w, a, id); }
      }
    }
  }

  lemma StillInProgress(cfg: Settings, w: World, a: Action)
    requires Enabled(cfg, w, a) && !a.Deliver? && !a.SetCursor? && !w.monitor.Following?
    ensures !Apply(cfg, w, a).monitor.Following? && Apply(cfg, w, a).baseline == w.baseline
  {
  }

  lemma KeepsRequeued(cfg: Settings, w: World, a: Action)
    requires Core(w) && RequeuedOk(w) && Enabled(cfg, w, a)
    ensures RequeuedOk(Apply(cfg, w, a))
  {
    var w' := Apply(cfg, w, a);
    if !w'.monitor.Following? {
      forall id | w'.requeued[id] > 0 ensures RequeuedSince(w', id) { RequeuedRow(cfg, w, a, id); }
    }
  }

  lemma RequeuedRow(cfg: Settings, w: World, a: Action, id: Id)
    requires Core(w) && RequeuedOk(w) && Enabled(cfg, w, a)
    requires !Apply(cfg, w, a).monitor.Following? && Apply(cfg, w, a).requeued[id] > 0
    ensures RequeuedSince(Apply(cfg, w, a), id)
  {
    if a.WriteRetried? && id in Writes(cfg, w, a) {
      MonitorCopies(cfg, w, a, id);
    } else {
      assert w.requeued[id] > 0;
      SameEventAfter(cfg, w, a);
    }
    Ownership(cfg, w, a, id);
    CauseAfter(cfg, w, a, id);
  }

  lemma SameEventAfter(cfg: Settings, w: World, a: Action)
    requires Enabled(cfg, w, a) && !a.Deliver? && !Apply(cfg, w, a).monitor.Following?
    ensures !w.monitor.Following? && Apply(cfg, w, a).monitor.e == w.monitor.e
  {
  }

  // ----- Runs

  ghost predicate Initial(w: World) {
    w.table == map[] && w.ingest.Resting? && w.monitor.Following? && w.chain == [] && w.cursor.None?
    && w.requeued == multiset{}
  }

  ghost predicate Run(cfg: Settings, ws: seq<World>, acts: seq<Action>) {
    && |ws| == |acts| + 1 && Initial(ws[0])
    && forall i :: 0 <= i < |acts| ==> StepAt(cfg, ws, acts, i)
  }

  ghost predicate StepAt(cfg: Settings, ws: seq<World>, acts: seq<Action>, i: nat)
    requires i < |acts| < |ws|
  {
    Enabled(cfg, ws[i], acts[i]) && ws[i + 1] == Apply(cfg, ws[i], acts[i])
  }

  lemma StepKeepsInv(cfg: Settings, w: World, a: Action)
    requires Inv(cfg, w) && Enabled(cfg, w, a)
    ensures Inv(cfg, Apply(cfg, w, a))
  {
    KeepsTable(cfg, w, a);
    KeepsIngest(cfg, w, a);
    KeepsMonitor(cfg, w, a);
    KeepsChain(cfg, w, a);
    KeepsBaseline(cfg, w, a);
    KeepsRequeued(cfg, w, a);
  }

  lemma {:induction false} RunKeepsInv(cfg: Settings, ws: seq<World>, acts: seq<Action>, i: nat)
    requires Run(cfg, ws, acts) && i < |ws|
    ensures Inv(cfg, ws[i])
  {
    if i > 0 {
      RunKeepsInv(cfg, ws, acts, i - 1);
      assert StepAt(cfg, ws, acts, i - 1);
      StepKeepsInv(cfg, ws[i - 1], acts[i - 1]);
    }
  }

  /** One step of a run, on its own. */
  lemma RunStep(cfg: Settings, ws: seq<World>, acts: seq<Action>, i: nat)
    requires Run(cfg, ws, acts) && i < |acts|
    ensures Core(ws[i]) && Enabled(cfg, ws[i], acts[i]) && ws[i + 1] == Apply(cfg, ws[i], acts[i])
  {
    RunKeepsInv(cfg, ws, acts, i);
    assert StepAt(cfg, ws, acts, i);
  }

  /** `w'` is `w` with the rows `written` replaced, and `w` still has the rows `held`. */
  ghost predicate UpToDateWrite(t: Table, u: Table, held: Table, written: Table) {
    && held.Keys == written.Keys && written.Keys <= t.Keys <= u.Keys
    && (forall id :: id in held ==> t[id] == held[id])
    && (forall id :: id in t ==> u[id] == if id in written then written[id] else t[id])
  }

  /** In every run, whatever a worker writes back was computed from the row that is in the
      table at the moment of the write, and nothing else changes. */
  lemma NoUpdateIsEverLost(cfg: Settings, ws: seq<World>, acts: seq<Action>, i: nat)
    requires Run(cfg, ws, acts) && i < |acts|
    ensures UpToDateWrite(ws[i].table, ws[i + 1].table, Copies(cfg, ws[i], acts[i]), Writes(cfg, ws[i], acts[i]))
  {
    RunStep(cfg, ws, acts, i);
    WritesUpToDate(cfg, ws[i], acts[i]);
  }

  lemma WritesUpToDate(cfg: Settings, w: World, a: Action)
    requires Core(w) && Enabled(cfg, w, a)
    ensures UpToDateWrite(w.table, Apply(cfg, w, a).table, Copies(cfg, w, a), Writes(cfg, w, a))
  {
    NoLostUpdate(cfg, w, a);
    forall id | id in w.table
      ensures id in Apply(cfg, w, a).table
      ensures Apply(cfg, w, a).table[id] == if id in Writes(cfg, w, a) then Writes(cfg, w, a)[id] else w.table[id]
    {
      Ownership(cfg, w, a, id);
    }
  }

  /** Whenever no rollback is waiting to be written, every Confirmed row sits in a block of the
      chain the monitor has followed, at the row's slot. */
  lemma ConfirmedIsOnChain(cfg: Settings, ws: seq<World>, acts: seq<Action>, i: nat)
    requires Run(cfg, ws, acts) && i < |ws|
    ensures forall id :: id in ws[i].table && ws[i].table[id].status == Confirmed ==>
              && ws[i].table[id].slot.Some?
              && (OnChain(ws[i].chain, ws[i].table[id].slot.value, id) || Doomed(ws[i].monitor, ws[i].table[id].slot.value))
  {
    RunKeepsInv(cfg, ws, acts, i);
  }

  /** When a rollback to p has been written no Confirmed row is above p, whatever ingest and
      the submit handler did between its read and its write. */
  lemma RollbackIsComplete(cfg: Settings, ws: seq<World>, acts: seq<Action>, i: nat)
    requires Run(cfg, ws, acts) && i < |acts| && acts[i].WriteReverted?
    ensures ws[i].monitor.Reverting? && NoneAbove(ws[i + 1].table, ws[i].monitor.e.slot)
  {
    RunStep(cfg, ws, acts, i);
    RevertLeavesNone(cfg, ws[i], acts[i]);
  }

  /** A row's status and slot say what happened to it last: it is in flight without a slot
      exactly after a rollback, and Pending and Failed rows never have a slot. */
  lemma StatusTellsCause(cfg: Settings, ws: seq<World>, acts: seq<Action>, i: nat, id: Id)
    requires Run(cfg, ws, acts) && i < |ws| && id in ws[i].table
    ensures id in ws[i].cause && Fits(ws[i].table[id], ws[i].cause[id]) && ws[i].table[id].id == id
    ensures ws[i].table[id].status != Validated
    ensures ws[i].table[id].status == InFlight && ws[i].table[id].slot.None? <==> ws[i].cause[id] == RolledBack
  {
    RunKeepsInv(cfg, ws, acts, i);
  }

  lemma StepConserves(cfg: Settings, w: World, a: Action, id: Id)
    requires Core(w) && Enabled(cfg, w, a) && id in w.table
    ensures var w' := Apply(cfg, w, a);
            && id in w'.table
            && w'.table[id].queue == w.table[id].queue && w'.table[id].createdAt == w.table[id].createdAt
            && (w.table[id].status == Failed ==> w'.table[id] == w.table[id])
  {
    Ownership(cfg, w, a, id);
    if id in Writes(cfg, w, a) { NoLostUpdate(cfg, w, a); }
  }

  /** Rows are never deleted, never change queue or age, and a Failed row never changes. */
  lemma {:induction false} RowsAreConserved(cfg: Settings, ws: seq<World>, acts: seq<Action>, i: nat, j: nat, id: Id)
    requires Run(cfg, ws, acts) && i <= j < |ws| && id in ws[i].table
    ensures id in ws[j].table
    ensures ws[j].table[id].queue == ws[i].table[id].queue && ws[j].table[id].createdAt == ws[i].table[id].createdAt
    ensures ws[i].table[id].status == Failed ==> ws[j].table[id] == ws[i].table[id]
  {
    if i < j {
      RowsAreConserved(cfg, ws, acts, i, j - 1, id);
      RunStep(cfg, ws, acts, j - 1);
      StepConserves(cfg, ws[j - 1], acts[j - 1], id);
    }
  }

  /** In every run, what each step makes of a row, column by column. */
  lemma TransitionExactly(cfg: Settings, ws: seq<World>, acts: seq<Action>, i: nat, id: Id)
    requires Run(cfg, ws, acts) && i < |acts| && id in ws[i].table
    ensures id in ws[i + 1].table
    ensures var row, after, unit := ws[i].table[id], ws[i + 1].table[id], ws[i].ingest;
            match acts[i]
            case Refuse(raw) =>
              && unit.Processing? && unit.unit != []
              && after == (if id == unit.unit[0].id then row.(raw := raw, status := Failed) else row)
              && (id == unit.unit[0].id ==> row == unit.unit[0] && row.status == Pending && row.slot == None)
            case Launch(raw, tip) =>
              && unit.Processing? && unit.unit != []
              && after == (if id == unit.unit[0].id then row.(raw := raw, status := InFlight, slot := Some(tip)) else row)
              && (id == unit.unit[0].id ==> row == unit.unit[0] && row.status == Pending)
            case WriteConfirmed => MonitorTurns(cfg, ws[i], acts[i], id, after)
            case WriteRetried => MonitorTurns(cfg, ws[i], acts[i], id, after)
            case WriteReverted => MonitorTurns(cfg, ws[i], acts[i], id, after)
            case _ => after == row
  {
    RunStep(cfg, ws, acts, i);
    Ownership(cfg, ws[i], acts[i], id);
    if IngestWrites(acts[i]) {
      IngestCopies(cfg, ws[i], acts[i]);
    } else if acts[i] == WriteConfirmed {
      ConfirmTransition(cfg, ws[i], id);
    } else if acts[i] == WriteRetried {
      RetryTransition(cfg, ws[i], id);
    } else if acts[i] == WriteReverted {
      RevertTransition(cfg, ws[i], id);
    }
  }

  /** In every run, rows appear by submission only, all rows of a request or none, as submitted. */
  lemma ArrivalExactly(cfg: Settings, ws: seq<World>, acts: seq<Action>, i: nat, id: Id)
    requires Run(cfg, ws, acts) && i < |acts| && id !in ws[i].table
    ensures id in ws[i + 1].table <==>
            && acts[i].Create? && (exists k :: 0 <= k < |acts[i].txs| && acts[i].txs[k].id == id)
            && Distinct(acts[i].txs) && (forall k :: 0 <= k < |acts[i].txs| ==> acts[i].txs[k].id !in ws[i].table)
    ensures id in ws[i + 1].table ==>
              && (exists k :: 0 <= k < |acts[i].txs| && acts[i].txs[k].id == id)
              && forall k :: 0 <= k < |acts[i].txs| && acts[i].txs[k].id == id ==> ws[i + 1].table[id] == acts[i].txs[k].(slot := None)
  {
    RunStep(cfg, ws, acts, i);
    if acts[i].Create? { InsertExact(ws[i].table, acts[i].txs); }
  }

  /** What a write of the monitor makes of a row: of the rows it has read, those in the block become
      Confirmed at its slot and those launched too long ago Pending; of all rows, those Confirmed above
      the rollback point become InFlight. */
  ghost predicate MonitorTurns(cfg: Settings, w: World, a: Action, id: Id, after: Transaction)
    requires id in w.table
  {
    && !w.monitor.Following?
    && var row, e, read := w.table[id], w.monitor.e, id in MonitorRows(w.monitor);
       match a
       case WriteConfirmed =>
         && e.RollForward? && (read ==> row.status == InFlight)
         && after == if read && id in e.txs then row.(status := Confirmed, slot := Some(e.slot)) else row
       case WriteRetried =>
         && e.RollForward? && (read && id !in e.txs ==> row.status == InFlight)
         && after == if read && id !in e.txs && Overdue(cfg.monitor, e.slot, row.slot) then row.(status := Pending, slot := None) else row
       case WriteReverted =>
         && e.Rollback?
         && after == if row.status == Confirmed && row.slot.Some? && row.slot.value > e.slot
                     then row.(status := InFlight, slot := None) else row
       case _ => true
  }

  lemma ConfirmTransition(cfg: Settings, w: World, id: Id)
    requires Core(w) && Enabled(cfg, w, WriteConfirmed) && id in w.table
    ensures var written := Writes(cfg, w, WriteConfirmed);
            MonitorTurns(cfg, w, WriteConfirmed, id, if id in written then written[id] else w.table[id])
  {
  }

  lemma RetryTransition(cfg: Settings, w: World, id: Id)
    requires Core(w) && Enabled(cfg, w, WriteRetried) && id in w.table
    ensures var written := Writes(cfg, w, WriteRetried);
            MonitorTurns(cfg, w, WriteRetried, id, if id in written then written[id] else w.table[id])
  {
    StaleExactly(cfg.monitor, w.monitor.e.slot, w.table[id]);
  }

  lemma RevertTransition(cfg: Settings, w: World, id: Id)
    requires Core(w) && Enabled(cfg, w, WriteReverted) && id in w.table
    ensures var written := Writes(cfg, w, WriteReverted);
            MonitorTurns(cfg, w, WriteReverted, id, if id in written then written[id] else w.table[id])
  {
  }

  /** The plan whose batch is about to be fetched. */
  lemma {:induction false} PlannedBy(cfg: Settings, ws: seq<World>, acts: seq<Action>, i: nat) returns (p: nat)
    requires Run(cfg, ws, acts) && i < |ws| && ws[i].ingest.Planned?
    ensures p < i && acts[p].Plan? && ws[i].ingest.limits == Limits(acts[p].shares)
    ensures IsPlan(ws[p].table, Pending, cfg.weights, acts[p].cap, acts[p].shares)
  {
    p := i - 1;
    RunStep(cfg, ws, acts, p);
    if !acts[p].Plan? { p := PlannedBy(cfg, ws, acts, p); }
  }

  /** The batch that is fetched, and then worked on, has the size of the plan made before: all its quotas
      but what the cascade left over, whatever happened in between. */
  lemma BatchFollowsPlan(cfg: Settings, ws: seq<World>, acts: seq<Action>, i: nat) returns (p: nat)
    requires Run(cfg, ws, acts) && i < |acts| && acts[i].Fetch?
    ensures p < i && acts[p].Plan? && IsPlan(ws[p].table, Pending, cfg.weights, acts[p].cap, acts[p].shares)
    ensures |acts[i].rows| == SumQuota(acts[p].shares) - Leftover(acts[p].shares)
    ensures ws[i + 1].ingest == Processing(acts[i].rows)
  {
    RunStep(cfg, ws, acts, i);
    p := PlannedBy(cfg, ws, acts, i);
    BatchAsPlanned(cfg, ws, acts, i);
    CascadeConserves(acts[p].shares);
  }

  /** The rows a unit still has to process are the last ones of the batch it fetched. */
  lemma {:induction false} UnitInOrder(cfg: Settings, ws: seq<World>, acts: seq<Action>, i: nat) returns (f: nat, k: nat)
    requires Run(cfg, ws, acts) && i < |ws| && ws[i].ingest.Processing?
    ensures f < i && acts[f].Fetch? && k <= |acts[f].rows| && ws[i].ingest.unit == acts[f].rows[k..]
  {
    f, k := i - 1, 0;
    RunStep(cfg, ws, acts, f);
    if !acts[f].Fetch? {
      var a := acts[i - 1];
      f, k := UnitInOrder(cfg, ws, acts, f);
      if a.Refuse? || a.Skip? || a.Launch? {
        assert acts[f].rows[k..][1..] == acts[f].rows[k + 1..];
        k := k + 1;
      }
    }
  }

  /** A delivered block joins the chain and a delivered rollback leaves of it the blocks up to its point. */
  lemma ChainFollows(cfg: Settings, ws: seq<World>, acts: seq<Action>, i: nat, b: Block)
    requires Run(cfg, ws, acts) && i < |acts|
    ensures b in ws[i + 1].chain <==>
            if !acts[i].Deliver? then b in ws[i].chain
            else match acts[i].event
                 case RollForward(slot, _, txs) => b in ws[i].chain || b == Block(slot, txs)
                 case Rollback(p, _) => b in ws[i].chain && b.slot <= p
  {
    RunStep(cfg, ws, acts, i);
    if acts[i].Deliver? && acts[i].event.Rollback? { KeptBlocks(ws[i].chain, acts[i].event.slot); }
  }

  /** The batch has the size computed from an earlier read, whatever happened in between. */
  lemma BatchAsPlanned(cfg: Settings, ws: seq<World>, acts: seq<Action>, i: nat)
    requires Run(cfg, ws, acts) && i < |acts| && acts[i].Fetch?
    ensures ws[i].ingest.Planned? && |acts[i].rows| == SumLimits(ws[i].ingest.limits)
    ensures forall k :: 0 <= k < |ws[i].ingest.limits| ==>
              |OfQueue(acts[i].rows, ws[i].ingest.limits[k].queue)| == ws[i].ingest.limits[k].limit
  {
    RunStep(cfg, ws, acts, i);
    BatchExact(ws[i].table, Pending, ws[i].ingest.limits, acts[i].rows);
  }

  /** An in-flight row that a rollback took back or, with overflow checks, that was launched at
      a later slot than the block's. */
  ghost predicate Ageless(cfg: Settings, w: World, id: Id) {
    && !w.monitor.Following? && id in w.table && id in w.cause && w.table[id].status == InFlight
    && (w.cause[id] == RolledBack || (cfg.monitor.checked && w.table[id].slot.Some? && w.table[id].slot.value > w.monitor.e.slot))
  }

  /** In every run, the rows a roll-forward has just read make it panic exactly when one of
      them is ageless. */
  lemma PanicsExactly(cfg: Settings, ws: seq<World>, acts: seq<Action>, i: nat)
    requires Run(cfg, ws, acts) && i < |acts| && acts[i].ReadInFlight?
    ensures ws[i].monitor.Received? && ws[i + 1].monitor.Confirming?
    ensures !Aged(cfg.monitor, ws[i].monitor.e.slot, ws[i + 1].monitor.rows) <==> exists id :: Ageless(cfg, ws[i], id)
  {
    RunStep(cfg, ws, acts, i);
    AgelessRead(cfg, ws[i]);
  }

  lemma AgelessRead(cfg: Settings, w: World)
    requires TableOk(w) && !w.monitor.Following?
    ensures !Aged(cfg.monitor, w.monitor.e.slot, Select(w.table, InFlight)) <==> exists id :: Ageless(cfg, w, id)
  {
    var rows, e := Select(w.table, InFlight), w.monitor.e;
    if id :| Ageless(cfg, w, id) {
      assert id in rows && Age(cfg.monitor, e.slot, rows[id].slot).None?;
    } else {
      forall id | id in rows ensures Age(cfg.monitor, e.slot, rows[id].slot).Some? {
        assert !Ageless(cfg, w, id) && Fits(w.table[id], w.cause[id]);
      }
    }
  }

  // ----- Rolled-back rows block the monitor

  /** A roll-forward that has read its rows has read every row a rollback took back. */
  ghost predicate ReadsRolledBack(w: World) {
    w.monitor.Confirming? || w.monitor.Retrying? ==>
      forall id :: id in w.table && id in w.cause && w.cause[id] == RolledBack ==> id in w.monitor.rows
  }

  lemma RolledBackBefore(cfg: Settings, w: World, a: Action, id: Id)
    requires Core(w) && Enabled(cfg, w, a) && !a.WriteReverted?
    requires id in Apply(cfg, w, a).table && id in Apply(cfg, w, a).cause && Apply(cfg, w, a).cause[id] == RolledBack
    ensures id in w.table && w.cause[id] == RolledBack && w.table[id].status == InFlight
  {
    if id in w.table {
      CauseAfter(cfg, w, a, id);
    } else {
      CreatedRow(cfg, w, a, id);
    }
  }

  /** The rows of a roll-forward come from its read and stay as read. */
  lemma RowsAfter(cfg: Settings, w: World, a: Action)
    requires Enabled(cfg, w, a)
    requires Apply(cfg, w, a).monitor.Confirming? || Apply(cfg, w, a).monitor.Retrying?
    ensures !a.WriteReverted?
    ensures || (a.ReadInFlight? && Apply(cfg, w, a).monitor.rows == Select(w.table, InFlight))
            || ((w.monitor.Confirming? || w.monitor.Retrying?) && Apply(cfg, w, a).monitor.rows == w.monitor.rows)
  {
  }

  lemma StepKeepsReads(cfg: Settings, w: World, a: Action)
    requires Core(w) && ReadsRolledBack(w) && Enabled(cfg, w, a)
    ensures ReadsRolledBack(Apply(cfg, w, a))
  {
    var w' := Apply(cfg, w, a);
    if w'.monitor.Confirming? || w'.monitor.Retrying? {
      RowsAfter(cfg, w, a);
      forall id | id in w'.table && id in w'.cause && w'.cause[id] == RolledBack ensures id in w'.monitor.rows {
        RolledBackBefore(cfg, w, a, id);
      }
    }
  }

  lemma {:induction false} RunKeepsReads(cfg: Settings, ws: seq<World>, acts: seq<Action>, i: nat)
    requires Run(cfg, ws, acts) && i < |ws|
    ensures ReadsRolledBack(ws[i])
  {
    if i > 0 {
      RunKeepsReads(cfg, ws, acts, i - 1);
      RunStep(cfg, ws, acts, i - 1);
      StepKeepsReads(cfg, ws[i - 1], acts[i - 1]);
    }
  }

  /** In every run, no roll-forward gets past its confirmations while a row taken back by a
      rollback is still without a block. */
  lemma RolledBackRowsBlock(cfg: Settings, ws: seq<World>, acts: seq<Action>, i: nat, id: Id)
    requires Run(cfg, ws, acts) && i < |acts| && acts[i].WriteRetried?
    requires id in ws[i].table && id in ws[i].cause
    ensures ws[i].cause[id] != RolledBack
  {
    RunStep(cfg, ws, acts, i);
    RunKeepsReads(cfg, ws, acts, i);
    assert Fits(ws[i].table[id], ws[i].cause[id]);
  }

  /** And such a row waits until a block includes it: no other step changes it. */
  lemma RolledBackRowWaits(cfg: Settings, ws: seq<World>, acts: seq<Action>, i: nat, id: Id)
    requires Run(cfg, ws, acts) && i < |acts|
    requires id in ws[i].table && id in ws[i].cause && ws[i].cause[id] == RolledBack
    ensures id in ws[i + 1].table && id in ws[i + 1].cause
    ensures ws[i + 1].table[id] != ws[i].table[id] || ws[i + 1].cause[id] != RolledBack ==>
              && acts[i].WriteConfirmed? && ws[i].monitor.Confirming? && ws[i].monitor.e.RollForward?
              && id in ws[i].monitor.e.txs
              && ws[i + 1].table[id] == ConfirmRow(ws[i].table[id], ws[i].monitor.e.slot)
  {
    var w, a := ws[i], acts[i];
    RunStep(cfg, ws, acts, i);
    Ownership(cfg, w, a, id);
    CauseAfter(cfg, w, a, id);
    if id in Writes(cfg, w, a) { MonitorCopies(cfg, w, a, id); }
  }
}
