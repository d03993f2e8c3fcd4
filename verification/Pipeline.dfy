/** The submit handler, the ingest worker and the chain monitor on one table, without row
locks: every storage call is one atomic step and the steps interleave in any order.

Each worker reads rows, works on its copies and later writes them back by id.  What keeps
this correct is an ownership rule nobody enforces: only ingest moves a row out of Pending,
and only the monitor moves a row out of InFlight or Confirmed. */
module Pipeline {
  import opened Storage
  import opened Query
  import opened Priority
  import opened Monitor
  import Ingest

  datatype Settings = Settings(monitor: Monitor.Config, weights: map<Queue, nat>)

  datatype Block = Block(slot: Slot, txs: seq<Id>)

  datatype IngestState =
    | Resting
    | Planned(limits: seq<Limit>)             // counts read, batch not fetched yet
    | Processing(unit: seq<Transaction>)      // copies still to be processed

  datatype MonitorState =
    | Following
    | Received(e: Event)
    | Confirming(e: Event, rows: Table)       // in-flight rows read
    | Retrying(e: Event, rows: Table)         // confirmations written
    | Reverting(e: Event, rows: Table)        // rows to roll back read
    | Recording(e: Event)                     // only the cursor is left to write
    | Halted(e: Event)                        // panicked

  /** The latest transition of a row. */
  datatype Cause = Submitted | Launched | Refused | Included | Requeued | RolledBack

  /** `chain`, `cause`, `baseline` (the rows the current event concerned when it arrived) and
      `requeued` (how often the current event has sent each row back to Pending) are bookkeeping
      that no step reads. */
  datatype World = World(
    table: Table, ingest: IngestState, monitor: MonitorState, cursor: Option<(Slot, Bytes)>,
    chain: seq<Block>, cause: map<Id, Cause>, baseline: Table, requeued: multiset<Id>)

  datatype Action =
    | Create(txs: seq<Transaction>)
    | Plan(shares: seq<Share>, cap: nat)
    | Fetch(rows: seq<Transaction>)
    | Refuse(raw: Bytes)
    | Skip
    | Launch(raw: Bytes, tip: Slot)
    | Abandon
    | Deliver(event: Event)
    | ReadInFlight
    | WriteConfirmed
    | WriteRetried
    | Panic
    | ReadToRollback
    | WriteReverted
    | SetCursor
    | Restart                                 // the monitor comes back and meets the same event

  // ----- The chain as the monitor follows it

  function KeepUpTo(chain: seq<Block>, p: Slot): (r: seq<Block>) {
    if chain == [] then []
    else
      var init := KeepUpTo(chain[..|chain| - 1], p);
      if chain[|chain| - 1].slot <= p then init + [chain[|chain| - 1]] else init
  }

  lemma {:induction false} KeptBlocks(chain: seq<Block>, p: Slot)
    ensures forall b :: b in KeepUpTo(chain, p) <==> b in chain && b.slot <= p
  {
    if chain != [] {
      KeptBlocks(chain[..|chain| - 1], p);
      assert chain == chain[..|chain| - 1] + [chain[|chain| - 1]];
    }
  }

  /** On a chain whose slots increase, where the blocks up to `p` come first, this cuts off the rest. */
  lemma {:induction false} KeepUpToTruncates(chain: seq<Block>, p: Slot, n: nat)
    requires n <= |chain| && forall i :: 0 <= i < |chain| ==> (chain[i].slot <= p <==> i < n)
    ensures KeepUpTo(chain, p) == chain[..n]
  {
    if chain != [] {
      var init := chain[..|chain| - 1];
      KeepUpToTruncates(init, p, Min(n, |init|));
      assert n == |chain| ==> chain[..n] == init + [chain[|chain| - 1]];
      assert n < |chain| ==> chain[..n] == init[..n];
    }
  }

  ghost predicate OnChain(chain: seq<Block>, slot: Slot, id: Id) {
    exists b :: b in chain && b.slot == slot && id in b.txs
  }

  function Follow(chain: seq<Block>, e: Event): seq<Block> {
    match e
    case RollForward(slot, _, txs) => chain + [Block(slot, txs)]
    case Rollback(p, _) => KeepUpTo(chain, p)
  }

  // ----- Steps

  function Mark(cause: map<Id, Cause>, ids: set<Id>, c: Cause): map<Id, Cause> {
    cause + map id | id in ids :: c
  }

  ghost predicate Enabled(cfg: Settings, w: World, a: Action) {
    match a
    case Create(txs) => forall i :: 0 <= i < |txs| ==> txs[i].status == Pending
    case Plan(shares, cap) => w.ingest.Resting? && IsPlan(w.table, Pending, cfg.weights, cap, shares)
    case Fetch(rows) => w.ingest.Planned? && IsNext(w.table, Pending, w.ingest.limits, rows)
    case Refuse(_) => w.ingest.Processing? && w.ingest.unit != []
    case Skip => w.ingest.Processing? && w.ingest.unit != []
    case Launch(_, _) => w.ingest.Processing? && w.ingest.unit != []
    case Abandon => true
    case Deliver(_) => w.monitor.Following?
    case ReadInFlight => w.monitor.Received? && w.monitor.e.RollForward?
    case WriteConfirmed => w.monitor.Confirming? && w.monitor.e.RollForward?
    case WriteRetried =>
      w.monitor.Retrying? && w.monitor.e.RollForward? && Aged(cfg.monitor, w.monitor.e.slot, w.monitor.rows)
    case Panic =>
      w.monitor.Retrying? && w.monitor.e.RollForward? && !Aged(cfg.monitor, w.monitor.e.slot, w.monitor.rows)
    case ReadToRollback => w.monitor.Received? && w.monitor.e.Rollback?
    case WriteReverted => w.monitor.Reverting? && w.monitor.e.Rollback?
    case SetCursor => w.monitor.Recording?
    case Restart => !w.monitor.Following?
  }

  /** The rows a step writes, as they are written. */
  function Writes(cfg: Settings, w: World, a: Action): (r: Table) {
    match a
    case Refuse(raw) =>
      if w.ingest.Processing? && w.ingest.unit != [] then
        map[w.ingest.unit[0].id := Ingest.Reject(w.ingest.unit[0], raw)] else map[]
    case Launch(raw, tip) =>
      if w.ingest.Processing? && w.ingest.unit != [] then
        map[w.ingest.unit[0].id := Ingest.Launch(w.ingest.unit[0], raw, tip)] else map[]
    case WriteConfirmed =>
      if w.monitor.Confirming? && w.monitor.e.RollForward? then ConfirmSet(w.monitor.rows, w.monitor.e) else map[]
    case WriteRetried =>
      if w.monitor.Retrying? && w.monitor.e.RollForward? then
        RetrySet(cfg.monitor, w.monitor.rows, w.monitor.e) else map[]
    case WriteReverted =>
      if w.monitor.Reverting? then RevertSet(w.monitor.rows, w.monitor.e.slot) else map[]
    case _ => map[]
  }

  /** The copies, possibly out of date, that those writes were computed from. */
  function Copies(cfg: Settings, w: World, a: Action): (r: Table) {
    match a
    case Refuse(_) =>
      if w.ingest.Processing? && w.ingest.unit != [] then map[w.ingest.unit[0].id := w.ingest.unit[0]] else map[]
    case Launch(_, _) =>
      if w.ingest.Processing? && w.ingest.unit != [] then map[w.ingest.unit[0].id := w.ingest.unit[0]] else map[]
    case WriteConfirmed => Restrict(MonitorRows(w.monitor), Writes(cfg, w, a).Keys)
    case WriteRetried => Restrict(MonitorRows(w.monitor), Writes(cfg, w, a).Keys)
    case WriteReverted => Restrict(MonitorRows(w.monitor), Writes(cfg, w, a).Keys)
    case _ => map[]
  }

  function MonitorRows(m: MonitorState): Table {
    match m
    case Confirming(_, rows) => rows
    case Retrying(_, rows) => rows
    case Reverting(_, rows) => rows
    case _ => map[]
  }

  function Restrict(m: Table, ids: set<Id>): Table { map id | id in m && id in ids :: m[id] }

  function CauseOf(a: Action): Cause {
    match a
    case Refuse(_) => Refused
    case Launch(_, _) => Launched
    case WriteConfirmed => Included
    case WriteRetried => Requeued
    case WriteReverted => RolledBack
    case _ => Submitted
  }

  function Pcs(w: World, a: Action): (IngestState, MonitorState) {
    match a
    case Plan(shares, _) => (Planned(Limits(shares)), w.monitor)
    case Fetch(rows) => (Processing(rows), w.monitor)
    case Refuse(_) => (Rest(w.ingest), w.monitor)
    case Skip => (Rest(w.ingest), w.monitor)
    case Launch(_, _) => (Rest(w.ingest), w.monitor)
    case Abandon => (Resting, w.monitor)
    case Deliver(e) => (w.ingest, Received(e))
    case ReadInFlight => (w.ingest, if w.monitor.Received? then Confirming(w.monitor.e, Select(w.table, InFlight)) else w.monitor)
    case WriteConfirmed => (w.ingest, if w.monitor.Confirming? then Retrying(w.monitor.e, w.monitor.rows) else w.monitor)
    case WriteRetried => (w.ingest, if w.monitor.Following? then w.monitor else Recording(w.monitor.e))
    case Panic => (w.ingest, if w.monitor.Following? then w.monitor else Halted(w.monitor.e))
    case ReadToRollback =>
      (w.ingest, if w.monitor.Received? then Reverting(w.monitor.e, ToRollback(w.table, w.monitor.e.slot)) else w.monitor)
    case WriteReverted => (w.ingest, if w.monitor.Following? then w.monitor else Recording(w.monitor.e))
    case SetCursor => (w.ingest, Following)
    case Restart => (w.ingest, if w.monitor.Following? then w.monitor else Received(w.monitor.e))
    case Create(_) => (w.ingest, w.monitor)
  }

  function Rest(s: IngestState): IngestState {
    if s.Processing? && s.unit != [] then Processing(s.unit[1..]) else s
  }

  ghost function NewTable(cfg: Settings, w: World, a: Action): Table {
    if !a.Create? then WriteBack(w.table, Writes(cfg, w, a))
    else if Insert(w.table, a.txs).Some? then Insert(w.table, a.txs).value
    else w.table
  }

  ghost function NewCause(cfg: Settings, w: World, a: Action): map<Id, Cause> {
    if !a.Create? then Mark(w.cause, Writes(cfg, w, a).Keys, CauseOf(a))
    else if Insert(w.table, a.txs).Some? then Mark(w.cause, Ids(a.txs), Submitted)
    else w.cause
  }

  ghost function Apply(cfg: Settings, w: World, a: Action): World {
    World(
      NewTable(cfg, w, a), Pcs(w, a).0, Pcs(w, a).1,
      if a.SetCursor? && w.monitor.Recording? then Some((w.monitor.e.slot, w.monitor.e.hash)) else w.cursor,
      if a.Deliver? then Follow(w.chain, a.event) else w.chain,
      NewCause(cfg, w, a),
      if !a.Deliver? then w.baseline
      else if a.event.RollForward? then Select(w.table, InFlight)
      else ToRollback(w.table, a.event.slot),
      if a.Deliver? then multiset{}
      else if a.WriteRetried? then w.requeued + multiset(Writes(cfg, w, a).Keys)
      else w.requeued)
  }

  // ----- What holds in between steps

  /** The status and slot that a row's latest transition left. */
  predicate Fits(row: Transaction, c: Cause) {
    match c
    case Submitted => row.status == Pending && row.slot.None?
    case Requeued => row.status == Pending && row.slot.None?
    case Launched => row.status == InFlight && row.slot.Some?
    case RolledBack => row.status == InFlight && row.slot.None?
    case Included => row.status == Confirmed && row.slot.Some?
    case Refused => row.status == Failed && row.slot.None?
  }

  ghost predicate TableOk(w: World) {
    forall id :: id in w.table ==> w.table[id].id == id && id in w.cause && Fits(w.table[id], w.cause[id])
  }

  /** Ingest's copies are still the rows of the table. */
  ghost predicate IngestOk(w: World) {
    match w.ingest
    case Resting => true
    case Planned(limits) => Backed(w.table, Pending, limits)
    case Processing(unit) => Distinct(unit) && forall i :: 0 <= i < |unit| ==> Current(w.table, unit[i], Pending)
  }

  predicate Current(t: Table, row: Transaction, status: Status) {
    row.id in t && t[row.id] == row && row.status == status
  }

  /** And so are the monitor's, but for the ones it has itself confirmed since. */
  ghost predicate MonitorOk(w: World) {
    match w.monitor
    case Following => true
    case Received(e) => true
    case Confirming(e, rows) =>
      e.RollForward? && forall id :: id in rows ==> rows[id].id == id && Current(w.table, rows[id], InFlight)
    case Retrying(e, rows) =>
      && e.RollForward?
      && forall id :: id in rows ==>
           && rows[id].id == id && rows[id].status == InFlight
           && Current(w.table, if id in e.txs then ConfirmRow(rows[id], e.slot) else rows[id],
                      if id in e.txs then Confirmed else InFlight)
    case Reverting(e, rows) => e.Rollback? && rows == ToRollback(w.table, e.slot)
    case Recording(e) => true
    case Halted(e) => e.RollForward?
  }

  /** The monitor has been told of a rollback below `slot` but has not written it yet. */
  predicate Doomed(m: MonitorState, slot: Slot) {
    (m.Received? || m.Reverting?) && m.e.Rollback? && slot > m.e.slot
  }

  ghost predicate ChainOk(w: World) {
    && (!w.monitor.Following? && w.monitor.e.RollForward? ==> Block(w.monitor.e.slot, w.monitor.e.txs) in w.chain)
    && forall id :: id in w.table && w.table[id].status == Confirmed && w.table[id].slot.Some? ==>
         OnChain(w.chain, w.table[id].slot.value, id) || Doomed(w.monitor, w.table[id].slot.value)
  }

  /** The rows the event concerned when it arrived are as they were, or as the event leaves
      them; once its batch is written they are as the event leaves them.  A stale row outside the
      block is as it was, and among the rows read, until the event has requeued it; afterwards
      ingest may have picked it up again. */
  ghost predicate BaselineOk(cfg: Settings, w: World) {
    !w.monitor.Following? ==> forall id :: id in w.baseline ==> BaselineRow(cfg, w, id)
  }

  ghost predicate BaselineRow(cfg: Settings, w: World, id: Id)
    requires id in w.baseline && !w.monitor.Following?
  {
    var m, e, was := w.monitor, w.monitor.e, w.baseline[id];
    && id in w.table && was.id == id
    && match e {
         case RollForward(slot, _, txs) =>
           && was.status == InFlight
           && (id in txs ==>
                 || w.table[id] == ConfirmRow(was, slot)
                 || (w.table[id] == was && (m.Received? || (m.Confirming? && id in m.rows))))
           && (id !in txs && !Stale(cfg.monitor, slot, was) ==> w.table[id] == was)
           && (id in txs || !Stale(cfg.monitor, slot, was) ==> w.requeued[id] == 0)
           && (id !in txs && Stale(cfg.monitor, slot, was) && w.requeued[id] == 0 ==>
                 && w.table[id] == was && !m.Recording?
                 && (m.Confirming? || m.Retrying? ==> id in m.rows))
         case Rollback(p, _) =>
           && was.status == Confirmed && was.slot.Some? && was.slot.value > p
           && (w.table[id] == RevertRow(was) || (w.table[id] == was && (m.Received? || m.Reverting?)))
       }
  }

  /** While an event is in progress, the rows it has requeued are outside its block and have not
      been touched by anyone but ingest since. */
  ghost predicate RequeuedOk(w: World) {
    !w.monitor.Following? ==> forall id :: w.requeued[id] > 0 ==> RequeuedSince(w, id)
  }

  ghost predicate RequeuedSince(w: World, id: Id)
    requires !w.monitor.Following?
  {
    && w.monitor.e.RollForward? && id !in w.monitor.e.txs && id in w.table && id in w.cause
    && (w.cause[id] == Requeued || w.cause[id] == Launched || w.cause[id] == Refused)
  }

  ghost predicate Inv(cfg: Settings, w: World) {
    TableOk(w) && IngestOk(w) && MonitorOk(w) && ChainOk(w) && BaselineOk(cfg, w) && RequeuedOk(w)
  }

  // ----- Every step keeps it

  predicate IngestWrites(a: Action) { a.Refuse? || a.Launch? }
  predicate MonitorWrites(a: Action) { a.WriteConfirmed? || a.WriteRetried? || a.WriteReverted? }

  ghost predicate Core(w: World) { TableOk(w) && IngestOk(w) && MonitorOk(w) }

  lemma IngestCopies(cfg: Settings, w: World, a: Action)
    requires IngestOk(w) && Enabled(cfg, w, a) && IngestWrites(a)
    ensures w.ingest.Processing? && w.ingest.unit != []
    ensures var row := w.ingest.unit[0];
            && Current(w.table, row, Pending) && Writes(cfg, w, a).Keys == {row.id}
            && Copies(cfg, w, a) == map[row.id := row]
            && Merge(row, Writes(cfg, w, a)[row.id]) == Writes(cfg, w, a)[row.id]
  {
    assert Current(w.table, w.ingest.unit[0], Pending);
  }

  lemma MonitorCopies(cfg: Settings, w: World, a: Action, id: Id)
    requires MonitorOk(w) && TableOk(w) && Enabled(cfg, w, a) && MonitorWrites(a) && id in Writes(cfg, w, a)
    ensures id in w.table && id in Copies(cfg, w, a) && w.table[id] == Copies(cfg, w, a)[id]
    ensures Merge(w.table[id], Writes(cfg, w, a)[id]) == Writes(cfg, w, a)[id]
    ensures w.table[id].status == if a.WriteReverted? then Confirmed else InFlight
  {
  }

  /** No lost update: the copy a step writes back is, but for what the step changes, the row
      that is in the table at that moment. */
  lemma NoLostUpdate(cfg: Settings, w: World, a: Action)
    requires Core(w) && Enabled(cfg, w, a)
    ensures Copies(cfg, w, a).Keys == Writes(cfg, w, a).Keys
    ensures forall id :: id in Copies(cfg, w, a) ==> id in w.table && w.table[id] == Copies(cfg, w, a)[id]
    ensures forall id :: id in Writes(cfg, w, a) ==> Merge(w.table[id], Writes(cfg, w, a)[id]) == Writes(cfg, w, a)[id]
  {
    if IngestWrites(a) {
      IngestCopies(cfg, w, a);
    } else if MonitorWrites(a) {
      forall id | id in Writes(cfg, w, a)
        ensures id in w.table && id in Copies(cfg, w, a) && w.table[id] == Copies(cfg, w, a)[id]
        ensures Merge(w.table[id], Writes(cfg, w, a)[id]) == Writes(cfg, w, a)[id]
      {
        MonitorCopies(cfg, w, a, id);
      }
      assert Copies(cfg, w, a).Keys <= Writes(cfg, w, a).Keys;
    }
  }

  /** Ownership: a step of ingest changes Pending rows only, a step of the monitor InFlight
      and Confirmed rows only, and no other step changes a row. */
  lemma Ownership(cfg: Settings, w: World, a: Action, id: Id)
    requires Core(w) && Enabled(cfg, w, a) && id in w.table
    ensures id in Apply(cfg, w, a).table
    ensures Apply(cfg, w, a).table[id] == if id in Writes(cfg, w, a) then Writes(cfg, w, a)[id] else w.table[id]
    ensures id in Writes(cfg, w, a) ==>
              || (IngestWrites(a) && w.table[id].status == Pending)
              || (MonitorWrites(a) && w.table[id].status == if a.WriteReverted? then Confirmed else InFlight)
  {
    if a.Create? {
      InsertExact(w.table, a.txs);
    } else if id in Writes(cfg, w, a) {
      if IngestWrites(a) { IngestCopies(cfg, w, a); } else { MonitorCopies(cfg, w, a, id); }
    }
  }

  lemma Quiet(cfg: Settings, w: World, a: Action)
    requires !IngestWrites(a) && !MonitorWrites(a) && !a.Create?
    ensures Apply(cfg, w, a).table == w.table
    ensures forall id :: id in w.cause ==> id in Apply(cfg, w, a).cause && Apply(cfg, w, a).cause[id] == w.cause[id]
  {
    assert Writes(cfg, w, a) == map[];
    assert WriteBack(w.table, map[]) == w.table;
  }

  lemma CreatedRow(cfg: Settings, w: World, a: Action, id: Id)
    requires a.Create? && Enabled(cfg, w, a) && id !in w.table && id in Apply(cfg, w, a).table
    ensures var row := Apply(cfg, w, a).table[id];
            && row.id == id && row.status == Pending && row.slot.None?
            && id in Apply(cfg, w, a).cause && Apply(cfg, w, a).cause[id] == Submitted
  {
    InsertExact(w.table, a.txs);
    var i :| 0 <= i < |a.txs| && a.txs[i].id == id;
  }

  lemma WrittenFits(cfg: Settings, w: World, a: Action, id: Id)
    requires Core(w) && Enabled(cfg, w, a) && id in Writes(cfg, w, a)
    ensures Writes(cfg, w, a)[id].id == id && Fits(Writes(cfg, w, a)[id], CauseOf(a))
    ensures id in w.table
  {
    if IngestWrites(a) { IngestCopies(cfg, w, a); } else { MonitorCopies(cfg, w, a, id); }
  }

  lemma CauseAfter(cfg: Settings, w: World, a: Action, id: Id)
    requires id in w.table && id in w.cause
    ensures id in Apply(cfg, w, a).cause
    ensures Apply(cfg, w, a).cause[id] == if id in Writes(cfg, w, a) then CauseOf(a) else w.cause[id]
  {
    if a.Create? { InsertExact(w.table, a.txs); }
  }

  lemma KeepsRow(cfg: Settings, w: World, a: Action, id: Id)
    requires Core(w) && Enabled(cfg, w, a) && id in w.table
    ensures var w' := Apply(cfg, w, a);
            id in w'.table && w'.table[id].id == id && id in w'.cause && Fits(w'.table[id], w'.cause[id])
  {
    Ownership(cfg, w, a, id);
    CauseAfter(cfg, w, a, id);
    if id in Writes(cfg, w, a) { WrittenFits(cfg, w, a, id); }
  }

  lemma KeepsTable(cfg: Settings, w: World, a: Action)
    requires Core(w) && Enabled(cfg, w, a)
    ensures TableOk(Apply(cfg, w, a))
  {
    var w' := Apply(cfg, w, a);
    forall id | id in w'.table
      ensures w'.table[id].id == id && id in w'.cause && Fits(w'.table[id], w'.cause[id])
    {
      if id in w.table { KeepsRow(cfg, w, a, id); } else { CreatedRow(cfg, w, a, id); }
    }
  }

  lemma MatchingGrows(t: Table, u: Table, q: Queue)
    requires forall id :: id in t && t[id].status == Pending ==> id in u && u[id] == t[id]
    ensures Count(t, Pending, q) <= Count(u, Pending, q)
  {
    var a, b := Matching(t, Pending, q), Matching(u, Pending, q);
    assert a <= b;
    assert b == a + (b - a);
  }

  lemma PendingKept(cfg: Settings, w: World, a: Action, id: Id)
    requires Core(w) && Enabled(cfg, w, a) && !IngestWrites(a)
    requires id in w.table && w.table[id].status == Pending
    ensures id in Apply(cfg, w, a).table && Apply(cfg, w, a).table[id] == w.table[id]
  {
    Ownership(cfg, w, a, id);
  }

  lemma KeepsIngestCopies(cfg: Settings, w: World, a: Action)
    requires Core(w) && Enabled(cfg, w, a) && IngestWrites(a)
    ensures IngestOk(Apply(cfg, w, a))
  {
    var w', unit := Apply(cfg, w, a), w.ingest.unit;
    var left := unit[1..];
    IngestCopies(cfg, w, a);
    forall i | 0 <= i < |left| ensures Current(w'.table, left[i], Pending) {
      assert left[i] == unit[i + 1] && Current(w.table, unit[i + 1], Pending);
    }
  }

  lemma KeepsPlan(cfg: Settings, w: World, a: Action)
    requires Core(w) && Enabled(cfg, w, a) && !IngestWrites(a) && w.ingest.Planned?
    ensures Backed(Apply(cfg, w, a).table, Pending, w.ingest.limits)
  {
    forall id | id in w.table && w.table[id].status == Pending
      ensures id in Apply(cfg, w, a).table && Apply(cfg, w, a).table[id] == w.table[id]
    {
      PendingKept(cfg, w, a, id);
    }
    forall q ensures Count(w.table, Pending, q) <= Count(Apply(cfg, w, a).table, Pending, q) {
      MatchingGrows(w.table, Apply(cfg, w, a).table, q);
    }
  }

  lemma KeepsIngest(cfg: Settings, w: World, a: Action)
    requires Core(w) && Enabled(cfg, w, a)
    ensures IngestOk(Apply(cfg, w, a))
  {
    if IngestWrites(a) {
      KeepsIngestCopies(cfg, w, a);
    } else if a.Plan? {
      Quiet(cfg, w, a);
      PlanIsBacked(w.table, Pending, cfg.weights, a.cap, a.shares);
    } else if a.Fetch? {
      Quiet(cfg, w, a);
      FetchedRows(w.table, w.ingest.limits, a.rows);
    } else if w.ingest.Planned? {
      KeepsPlan(cfg, w, a);
    } else if w.ingest.Processing? {
      KeepsUnit(cfg, w, a);
    }
  }

  lemma KeepsUnit(cfg: Settings, w: World, a: Action)
    requires Core(w) && Enabled(cfg, w, a) && !IngestWrites(a) && w.ingest.Processing?
    ensures forall i :: 0 <= i < |w.ingest.unit| ==> Current(Apply(cfg, w, a).table, w.ingest.unit[i], Pending)
  {
    forall i | 0 <= i < |w.ingest.unit| ensures Current(Apply(cfg, w, a).table, w.ingest.unit[i], Pending) {
      assert Current(w.table, w.ingest.unit[i], Pending);
      PendingKept(cfg, w, a, w.ingest.unit[i].id);
    }
  }

  lemma FetchedRows(t: Table, limits: seq<Limit>, rows: seq<Transaction>)
    requires DistinctQueues(limits) && IsNext(t, Pending, limits, rows)
    ensures Distinct(rows) && forall i :: 0 <= i < |rows| ==> Current(t, rows[i], Pending)
  {
    NextMeaning(t, Pending, limits, rows);
    forall i | 0 <= i < |rows| ensures Current(t, rows[i], Pending) { assert rows[i] in rows; }
  }

  /** What the monitor holds copies of, other steps leave alone. */
  lemma OwnedKept(cfg: Settings, w: World, a: Action, id: Id)
    requires Core(w) && Enabled(cfg, w, a) && !MonitorWrites(a)
    requires id in w.table && w.table[id].status != Pending
    ensures id in Apply(cfg, w, a).table && Apply(cfg, w, a).table[id] == w.table[id]
  {
    Ownership(cfg, w, a, id);
  }

  lemma SameToRollback(cfg: Settings, w: World, a: Action, p: Slot)
    requires Core(w) && Enabled(cfg, w, a) && !MonitorWrites(a)
    ensures ToRollback(Apply(cfg, w, a).table, p) == ToRollback(w.table, p)
  {
    var t, u := w.table, Apply(cfg, w, a).table;
    forall id | id in t || id in u
      ensures id in ToRollback(u, p) <==> id in ToRollback(t, p)
      ensures id in ToRollback(u, p) ==> u[id] == t[id]
    {
      if id in t {
        Ownership(cfg, w, a, id);
        if id in Writes(cfg, w, a) { WrittenFits(cfg, w, a, id); }
      } else {
        CreatedRow(cfg, w, a, id);
      }
    }
  }

  /** The monitor's copies stay good on any table that keeps the rows it holds. */
  lemma CopiesCarryOver(w: World, w': World)
    requires MonitorOk(w) && w'.monitor == w.monitor && (w.monitor.Confirming? || w.monitor.Retrying?)
    requires forall id :: id in w.monitor.rows && id in w.table ==> id in w'.table && w'.table[id] == w.table[id]
    ensures MonitorOk(w')
  {
  }

  lemma HeldRow(w: World, id: Id)
    requires MonitorOk(w) && (w.monitor.Confirming? || w.monitor.Retrying?) && id in w.monitor.rows
    ensures id in w.table && w.table[id].status != Pending
  {
  }

  lemma KeepsMonitorCopies(cfg: Settings, w: World, a: Action)
    requires Core(w) && Enabled(cfg, w, a) && !MonitorWrites(a)
    requires w.monitor.Confirming? || w.monitor.Retrying? || w.monitor.Reverting?
    requires Apply(cfg, w, a).monitor == w.monitor
    ensures MonitorOk(Apply(cfg, w, a))
  {
    var w' := Apply(cfg, w, a);
    if w.monitor.Reverting? {
      SameToRollback(cfg, w, a, w.monitor.e.slot);
    } else {
      forall id | id in w.monitor.rows && id in w.table ensures id in w'.table && w'.table[id] == w.table[id] {
        HeldRow(w, id);
        OwnedKept(cfg, w, a, id);
      }
      CopiesCarryOver(w, w');
    }
  }

  lemma ConfirmedCopies(cfg: Settings, w: World, a: Action)
    requires Core(w) && Enabled(cfg, w, a) && a.WriteConfirmed?
    ensures MonitorOk(Apply(cfg, w, a))
  {
    var w' := Apply(cfg, w, a);
    forall id | id in w.monitor.rows
      ensures w'.table[id] ==
              if id in w.monitor.e.txs then ConfirmRow(w.monitor.rows[id], w.monitor.e.slot) else w.monitor.rows[id]
    {
      Ownership(cfg, w, a, id);
    }
  }

  lemma KeepsMonitor(cfg: Settings, w: World, a: Action)
    requires Core(w) && Enabled(cfg, w, a)
    ensures MonitorOk(Apply(cfg, w, a))
  {
    if a.WriteConfirmed? {
      ConfirmedCopies(cfg, w, a);
    } else if a.ReadInFlight? || a.ReadToRollback? {
      Quiet(cfg, w, a);
    } else if !MonitorWrites(a) && Apply(cfg, w, a).monitor == w.monitor
              && (w.monitor.Confirming? || w.monitor.Retrying? || w.monitor.Reverting?) {
      KeepsMonitorCopies(cfg, w, a);
    }
  }
}
