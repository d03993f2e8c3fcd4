/** Between restarts the interleaved pipeline does what a pipeline with indivisible chain events
does.

An event takes effect at the moment it reads its rows: the table, with the writes the monitor
still owes already applied, moves exactly as if the whole event happened there and then.  Only
ingest can tell the difference: until they are written it does not see the rows the event sends
back to Pending, and it misses nothing else.  A restart takes back exactly the writes still owed:
those rows are again as they were read, none of them is one that ingest holds a copy of, and
replaying the event leads to the same table. */
module Serial {
  import opened Storage
  import opened Monitor
  import opened Query
  import opened Priority
  import opened Pipeline
  import opened Lifecycle

  /** The rows the monitor has decided on but not written yet. */
  function Owed(cfg: Settings, m: MonitorState): (r: Table) {
    match m
    case Confirming(e, rows) =>
      if !e.RollForward? then map[]
      else if Aged(cfg.monitor, e.slot, rows) then ConfirmSet(rows, e) + RetrySet(cfg.monitor, rows, e)
      else ConfirmSet(rows, e)
    case Retrying(e, rows) =>
      if e.RollForward? && Aged(cfg.monitor, e.slot, rows) then RetrySet(cfg.monitor, rows, e) else map[]
    case Reverting(e, rows) => RevertSet(rows, e.slot)
    case _ => map[]
  }

  function Completed(cfg: Settings, w: World): (t: Table)
    ensures t.Keys == w.table.Keys
  {
    WriteBack(w.table, Owed(cfg, w.monitor))
  }

  /** One step of the pipeline with indivisible events, from table `t` to table `u`. */
  ghost predicate AtomicStep(cfg: Settings, w: World, a: Action, t: Table, u: Table) {
    match a
    case ReadInFlight => w.monitor.Received? && u == Process(cfg.monitor, t, w.monitor.e).table
    case ReadToRollback => w.monitor.Received? && u == Process(cfg.monitor, t, w.monitor.e).table
    case Create(txs) => Some(u) == if Insert(t, txs).Some? then Insert(t, txs) else Some(t)
    case Refuse(raw) => IngestStep(w, t, u, row => Ingest.Reject(row, raw))
    case Launch(raw, tip) => IngestStep(w, t, u, row => Ingest.Launch(row, raw, tip))
    case Plan(shares, cap) => u == t && IsPlan(TakenBack(cfg, w, t), Pending, cfg.weights, cap, shares)
    case Fetch(rows) =>
      && u == t && w.ingest.Planned? && IsNext(TakenBack(cfg, w, t), Pending, w.ingest.limits, rows)
      && forall i :: 0 <= i < |rows| ==> Current(t, rows[i], Pending)
    case Restart =>
      && !w.monitor.Following?
      && u == TakenBack(cfg, w, t)
      && EventTable(cfg.monitor, u, w.monitor.e) == EventTable(cfg.monitor, t, w.monitor.e)
      && (w.ingest.Processing? ==> forall i :: 0 <= i < |w.ingest.unit| ==>
            Current(t, w.ingest.unit[i], Pending) && Current(u, w.ingest.unit[i], Pending))
    case _ => u == t
  }

  /** The rows still owed go back to what they were when they were read. */
  function TakenBack(cfg: Settings, w: World, t: Table): Table {
    t + Restrict(MonitorRows(w.monitor), Owed(cfg, w.monitor).Keys)
  }

  ghost predicate IngestStep(w: World, t: Table, u: Table, f: Transaction -> Transaction) {
    && w.ingest.Processing? && w.ingest.unit != []
    && Current(t, w.ingest.unit[0], Pending)
    && u == WriteRow(t, f(w.ingest.unit[0]))
  }

  /** Rows owed are rows of the table as the monitor knows them, none of them Pending. */
  lemma OwedRow(cfg: Settings, w: World, id: Id)
    requires Core(w) && id in Owed(cfg, w.monitor)
    ensures id in w.table && (w.table[id].status == InFlight || w.table[id].status == Confirmed)
    ensures Merge(w.table[id], Owed(cfg, w.monitor)[id]) == Owed(cfg, w.monitor)[id]
    ensures id in MonitorRows(w.monitor) && MonitorRows(w.monitor)[id] == w.table[id]
  {
  }

  lemma WriteTwice(t: Table, a: Table, b: Table)
    requires a.Keys !! b.Keys
    ensures WriteBack(WriteBack(t, a), b) == WriteBack(t, a + b)
  {
    forall id | id in t ensures WriteBack(WriteBack(t, a), b)[id] == WriteBack(t, a + b)[id] {}
  }

  lemma WriteNothing(t: Table)
    ensures WriteBack(t, map[]) == t
  {
  }

  lemma {:induction false} InsertPastWrites(t: Table, w: Table, txs: seq<Transaction>)
    requires w.Keys <= t.Keys
    ensures Insert(t, txs).Some? <==> Insert(WriteBack(t, w), txs).Some?
    ensures Insert(t, txs).Some? ==> Insert(WriteBack(t, w), txs).value == WriteBack(Insert(t, txs).value, w)
  {
    InsertExact(t, txs);
    InsertExact(WriteBack(t, w), txs);
    if Insertable(t, txs) {
      var u, v := WriteBack(Insert(t, txs).value, w), Insert(WriteBack(t, w), txs).value;
      forall id | id in v ensures v[id] == u[id] {
        if id !in t { var i :| 0 <= i < |txs| && txs[i].id == id; }
      }
    }
  }

  lemma SerialReadInFlight(cfg: Settings, w: World)
    requires Enabled(cfg, w, ReadInFlight)
    ensures Completed(cfg, Apply(cfg, w, ReadInFlight)) == Process(cfg.monitor, w.table, w.monitor.e).table
  {
    var rows, e := Select(w.table, InFlight), w.monitor.e;
    Quiet(cfg, w, ReadInFlight);
    WriteTwice(w.table, ConfirmSet(rows, e), RetrySet(cfg.monitor, rows, e));
  }

  lemma SerialRead(cfg: Settings, w: World, a: Action)
    requires Enabled(cfg, w, a) && (a.ReadInFlight? || a.ReadToRollback?)
    ensures AtomicStep(cfg, w, a, Completed(cfg, w), Completed(cfg, Apply(cfg, w, a)))
  {
    WriteNothing(w.table);
    if a.ReadInFlight? { SerialReadInFlight(cfg, w); } else { Quiet(cfg, w, a); }
  }

  lemma SerialConfirm(cfg: Settings, w: World)
    requires Enabled(cfg, w, WriteConfirmed)
    ensures Completed(cfg, Apply(cfg, w, WriteConfirmed)) == Completed(cfg, w)
  {
    var rows, e := w.monitor.rows, w.monitor.e;
    var t := WriteBack(w.table, ConfirmSet(rows, e));
    assert Apply(cfg, w, WriteConfirmed).table == t && Apply(cfg, w, WriteConfirmed).monitor == Retrying(e, rows);
    WriteNothing(t);
    WriteTwice(w.table, ConfirmSet(rows, e), RetrySet(cfg.monitor, rows, e));
  }

  lemma SerialRetry(cfg: Settings, w: World)
    requires Enabled(cfg, w, WriteRetried)
    ensures Completed(cfg, Apply(cfg, w, WriteRetried)) == Completed(cfg, w)
  {
    var t := WriteBack(w.table, RetrySet(cfg.monitor, w.monitor.rows, w.monitor.e));
    assert Apply(cfg, w, WriteRetried).table == t && Apply(cfg, w, WriteRetried).monitor == Recording(w.monitor.e);
    WriteNothing(t);
  }

  lemma SerialRevert(cfg: Settings, w: World)
    requires Enabled(cfg, w, WriteReverted)
    ensures Completed(cfg, Apply(cfg, w, WriteReverted)) == Completed(cfg, w)
  {
    var t := WriteBack(w.table, RevertSet(w.monitor.rows, w.monitor.e.slot));
    assert Apply(cfg, w, WriteReverted).table == t && Apply(cfg, w, WriteReverted).monitor == Recording(w.monitor.e);
    WriteNothing(t);
  }

  lemma SerialWrite(cfg: Settings, w: World, a: Action)
    requires Enabled(cfg, w, a) && MonitorWrites(a)
    ensures Completed(cfg, Apply(cfg, w, a)) == Completed(cfg, w)
  {
    if a.WriteConfirmed? { SerialConfirm(cfg, w); }
    else if a.WriteRetried? { SerialRetry(cfg, w); }
    else { SerialRevert(cfg, w); }
  }

  lemma SerialCreate(cfg: Settings, w: World, a: Action)
    requires Core(w) && Enabled(cfg, w, a) && a.Create?
    ensures AtomicStep(cfg, w, a, Completed(cfg, w), Completed(cfg, Apply(cfg, w, a)))
  {
    forall id | id in Owed(cfg, w.monitor) ensures id in w.table { OwedRow(cfg, w, id); }
    InsertPastWrites(w.table, Owed(cfg, w.monitor), a.txs);
  }

  lemma SerialIngest(cfg: Settings, w: World, a: Action)
    requires Core(w) && Enabled(cfg, w, a) && IngestWrites(a)
    ensures AtomicStep(cfg, w, a, Completed(cfg, w), Completed(cfg, Apply(cfg, w, a)))
  {
    IngestCopies(cfg, w, a);
    var row, t, u := w.ingest.unit[0], Completed(cfg, w), Completed(cfg, Apply(cfg, w, a));
    if row.id in Owed(cfg, w.monitor) { OwedRow(cfg, w, row.id); }
    assert Current(t, row, Pending);
    assert u == WriteRow(t, Writes(cfg, w, a)[row.id]);
  }

  /** Replaying the event on a row that is still owed gives what is owed. */
  lemma OwedIsEventRow(cfg: Settings, w: World, id: Id)
    requires Core(w) && id in Owed(cfg, w.monitor)
    ensures var e := w.monitor.e;
            EventRow(cfg.monitor, e, Owed(cfg, w.monitor)[id]) == EventRow(cfg.monitor, e, w.table[id])
  {
  }

  lemma ReplayAgrees(cfg: Settings, w: World)
    requires Core(w) && !w.monitor.Following?
    ensures EventTable(cfg.monitor, w.table, w.monitor.e) == EventTable(cfg.monitor, Completed(cfg, w), w.monitor.e)
  {
    var t, e := Completed(cfg, w), w.monitor.e;
    forall id | id in w.table ensures EventRow(cfg.monitor, e, w.table[id]) == EventRow(cfg.monitor, e, t[id]) {
      if id in Owed(cfg, w.monitor) {
        OwedRow(cfg, w, id);
        OwedIsEventRow(cfg, w, id);
      }
    }
  }

  lemma SerialRestart(cfg: Settings, w: World, a: Action)
    requires Core(w) && Enabled(cfg, w, a) && a.Restart?
    ensures AtomicStep(cfg, w, a, Completed(cfg, w), Completed(cfg, Apply(cfg, w, a)))
  {
    Quiet(cfg, w, a);
    WriteNothing(w.table);
    ReplayAgrees(cfg, w);
    RestartTakesBack(cfg, w);
    if w.ingest.Processing? {
      forall i | 0 <= i < |w.ingest.unit| ensures Current(Completed(cfg, w), w.ingest.unit[i], Pending) {
        assert Current(w.table, w.ingest.unit[i], Pending);
        PendingIsCompleted(cfg, w, w.ingest.unit[i].id);
      }
    }
  }

  lemma RestartTakesBack(cfg: Settings, w: World)
    requires Core(w)
    ensures w.table == TakenBack(cfg, w, Completed(cfg, w))
  {
    var u := TakenBack(cfg, w, Completed(cfg, w));
    forall id | id in Owed(cfg, w.monitor) ensures id in w.table && u[id] == w.table[id] { OwedRow(cfg, w, id); }
    forall id | id in u ensures id in w.table && u[id] == w.table[id] {
      if id in Owed(cfg, w.monitor) { OwedRow(cfg, w, id); }
    }
  }

  /** A Pending row is the same with and without the writes owed. */
  lemma PendingIsCompleted(cfg: Settings, w: World, id: Id)
    requires Core(w) && id in w.table && w.table[id].status == Pending
    ensures Completed(cfg, w)[id] == w.table[id]
  {
    if id in Owed(cfg, w.monitor) { OwedRow(cfg, w, id); }
  }

  lemma SerialFetch(cfg: Settings, w: World, a: Action)
    requires Core(w) && Enabled(cfg, w, a) && a.Fetch?
    ensures AtomicStep(cfg, w, a, Completed(cfg, w), Completed(cfg, Apply(cfg, w, a)))
  {
    SerialOther(cfg, w, a);
    RestartTakesBack(cfg, w);
    FetchedRows(w.table, w.ingest.limits, a.rows);
    forall i | 0 <= i < |a.rows| ensures Current(Completed(cfg, w), a.rows[i], Pending) {
      assert Current(w.table, a.rows[i], Pending);
      PendingIsCompleted(cfg, w, a.rows[i].id);
    }
  }

  lemma SerialPlan(cfg: Settings, w: World, a: Action)
    requires Core(w) && Enabled(cfg, w, a) && a.Plan?
    ensures AtomicStep(cfg, w, a, Completed(cfg, w), Completed(cfg, Apply(cfg, w, a)))
  {
    SerialOther(cfg, w, a);
    RestartTakesBack(cfg, w);
  }

  /** The rows the event sends back to Pending and has not written yet. */
  function OwedRetries(cfg: Settings, m: MonitorState): (r: Table) {
    if (m.Confirming? || m.Retrying?) && m.e.RollForward? && Aged(cfg.monitor, m.e.slot, m.rows)
    then RetrySet(cfg.monitor, m.rows, m.e) else map[]
  }

  /** What ingest misses: the Pending rows with the event applied are those of the table and the
      retries still owed, which are in flight in the table. */
  lemma IngestMissesExactly(cfg: Settings, w: World, id: Id)
    requires Core(w)
    ensures id in Completed(cfg, w) && Completed(cfg, w)[id].status == Pending <==>
            (id in w.table && w.table[id].status == Pending) || id in OwedRetries(cfg, w.monitor)
    ensures id in OwedRetries(cfg, w.monitor) ==>
              id in w.table && w.table[id].status == InFlight && Completed(cfg, w)[id] == OwedRetries(cfg, w.monitor)[id]
    ensures id in w.table && w.table[id].status == Pending ==> Completed(cfg, w)[id] == w.table[id]
  {
    if id in Owed(cfg, w.monitor) { OwedRow(cfg, w, id); }
  }

  /** So a count of ingest is the count with the event applied exactly when no retry is owed to that
      queue. */
  lemma CountMissesExactly(cfg: Settings, w: World, q: Queue)
    requires Core(w)
    ensures Count(w.table, Pending, q) == Count(Completed(cfg, w), Pending, q) <==>
            forall id :: id in OwedRetries(cfg, w.monitor) ==> OwedRetries(cfg, w.monitor)[id].queue != q
  {
    var r, t := OwedRetries(cfg, w.monitor), Completed(cfg, w);
    var missed := set id | id in r && r[id].queue == q;
    forall id ensures id in Matching(t, Pending, q) <==> id in Matching(w.table, Pending, q) || id in missed {
      IngestMissesExactly(cfg, w, id);
    }
    assert Matching(t, Pending, q) == Matching(w.table, Pending, q) + missed;
    forall id | id in missed ensures id !in Matching(w.table, Pending, q) { IngestMissesExactly(cfg, w, id); }
    if missed == {} {
      assert forall id :: id in r ==> id !in missed;
    } else {
      var id :| id in missed;
    }
  }

  /** And a plan of ingest is a plan with the event applied exactly when no retry is owed at all. */
  lemma PlanMissesExactly(cfg: Settings, w: World, shares: seq<Share>, cap: nat)
    requires Core(w) && IsPlan(w.table, Pending, cfg.weights, cap, shares)
    ensures IsPlan(Completed(cfg, w), Pending, cfg.weights, cap, shares) <==> OwedRetries(cfg, w.monitor) == map[]
  {
    var r, t := OwedRetries(cfg, w.monitor), Completed(cfg, w);
    if r == map[] {
      forall q ensures Count(w.table, Pending, q) == Count(t, Pending, q) { CountMissesExactly(cfg, w, q); }
      SamePlan(w.table, t, cfg.weights, cap, shares);
    } else {
      var id :| id in r;
      CountMissesExactly(cfg, w, r[id].queue);
      if IsPlan(t, Pending, cfg.weights, cap, shares) { PlanCounts(w.table, t, cfg.weights, cap, shares, r[id].queue); }
    }
  }

  lemma SamePlan(t: Table, u: Table, weights: map<Queue, nat>, cap: nat, shares: seq<Share>)
    requires IsPlan(t, Pending, weights, cap, shares) && forall q :: Count(t, Pending, q) == Count(u, Pending, q)
    ensures IsPlan(u, Pending, weights, cap, shares)
  {
  }

  /** A plan tells the counts of the table it was made for. */
  lemma PlanCounts(t: Table, u: Table, weights: map<Queue, nat>, cap: nat, shares: seq<Share>, q: Queue)
    requires IsPlan(t, Pending, weights, cap, shares) && IsPlan(u, Pending, weights, cap, shares)
    ensures Count(t, Pending, q) == Count(u, Pending, q)
  {
    if i :| 0 <= i < |shares| && shares[i].queue == q { assert shares[i].count == Count(t, Pending, q); }
  }

  lemma SerialOther(cfg: Settings, w: World, a: Action)
    requires Core(w) && Enabled(cfg, w, a) && !MonitorWrites(a) && !IngestWrites(a)
    requires !a.Create? && !a.Restart? && !a.ReadInFlight? && !a.ReadToRollback?
    ensures Completed(cfg, Apply(cfg, w, a)) == Completed(cfg, w)
  {
    Quiet(cfg, w, a);
    assert Owed(cfg, Apply(cfg, w, a).monitor) == Owed(cfg, w.monitor);
  }

  lemma SerialStep(cfg: Settings, w: World, a: Action)
    requires Core(w) && Enabled(cfg, w, a)
    ensures AtomicStep(cfg, w, a, Completed(cfg, w), Completed(cfg, Apply(cfg, w, a)))
  {
    if a.ReadInFlight? || a.ReadToRollback? { SerialRead(cfg, w, a); }
    else if MonitorWrites(a) { SerialWrite(cfg, w, a); }
    else if a.Create? { SerialCreate(cfg, w, a); }
    else if IngestWrites(a) { SerialIngest(cfg, w, a); }
    else if a.Restart? { SerialRestart(cfg, w, a); }
    else if a.Plan? { SerialPlan(cfg, w, a); }
    else if a.Fetch? { SerialFetch(cfg, w, a); }
    else { SerialOther(cfg, w, a); }
  }

  /** Every run of the interleaved pipeline is a run of the one with indivisible events, in which a
      restart takes back the event in progress as far as it is still owed; the two tables are the
      same whenever the monitor owes nothing. */
  lemma EventsAreIndivisible(cfg: Settings, ws: seq<World>, acts: seq<Action>)
    requires Run(cfg, ws, acts)
    ensures forall i :: 0 <= i < |acts| ==>
              AtomicStep(cfg, ws[i], acts[i], Completed(cfg, ws[i]), Completed(cfg, ws[i + 1]))
    ensures forall i :: 0 <= i < |ws| && MonitorRows(ws[i].monitor) == map[] ==> Completed(cfg, ws[i]) == ws[i].table
  {
    forall i | 0 <= i < |acts|
      ensures AtomicStep(cfg, ws[i], acts[i], Completed(cfg, ws[i]), Completed(cfg, ws[i + 1]))
    {
      RunStep(cfg, ws, acts, i);
      SerialStep(cfg, ws[i], acts[i]);
    }
    forall i | 0 <= i < |ws| && MonitorRows(ws[i].monitor) == map[] ensures Completed(cfg, ws[i]) == ws[i].table {
      assert Owed(cfg, ws[i].monitor) == map[];
    }
  }
}
