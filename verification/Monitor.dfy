/** The chain monitor: what one chain event does to the `tx` table.

A roll-forward reads the in-flight rows once, writes the confirmed ones, then computes the
age of every row it read and writes the ones to retry.  Computing an age can panic, and by
then the confirmations are already stored. */
module Monitor {
  import opened Storage

  /** `checked` tells whether u64 arithmetic panics on underflow or wraps around. */
  datatype Config = Config(retrySlotDiff: nat, checked: bool)

  datatype Event =
    | RollForward(slot: Slot, hash: Bytes, txs: seq<Id>)
    | Rollback(slot: Slot, hash: Bytes)

  datatype Outcome = Done(table: Table) | Panicked(table: Table)

  const U64: nat := 0x1_0000_0000_0000_0000

  // ----- Write sets

  /** How far `slot` is past the slot of a row; None is a panic. */
  function Age(cfg: Config, slot: Slot, since: Option<Slot>): (age: Option<nat>)
    ensures age.None? <==> since.None? || (cfg.checked && since.value > slot)
  {
    match since
    case None => None
    case Some(s) =>
      if s <= slot then Some(slot - s)
      else if cfg.checked then None
      else Some(slot - s + U64)
  }

  predicate Stale(cfg: Config, slot: Slot, row: Transaction) {
    Age(cfg, slot, row.slot).Some? && Age(cfg, slot, row.slot).value > cfg.retrySlotDiff
  }

  predicate Aged(cfg: Config, slot: Slot, rows: Table) {
    forall id :: id in rows ==> Age(cfg, slot, rows[id].slot).Some?
  }

  function ConfirmRow(row: Transaction, slot: Slot): Transaction {
    row.(status := Confirmed, slot := Some(slot))
  }

  function RetryRow(row: Transaction): Transaction {
    row.(status := Pending, slot := None)
  }

  function RevertRow(row: Transaction): Transaction {
    row.(status := InFlight, slot := None)
  }

  function ConfirmSet(rows: Table, e: Event): (w: Table)
    requires e.RollForward?
  {
    map id | id in rows && id in e.txs :: ConfirmRow(rows[id], e.slot)
  }

  function RetrySet(cfg: Config, rows: Table, e: Event): (w: Table)
    requires e.RollForward?
  {
    map id | id in rows && id !in ConfirmSet(rows, e) && Stale(cfg, e.slot, rows[id]) :: RetryRow(rows[id])
  }

  function RevertSet(rows: Table, slot: Slot): (w: Table) {
    map id | id in rows ::
      if rows[id].slot.Some? && rows[id].slot.value > slot then RevertRow(rows[id])
      else rows[id].(slot := Some(slot))
  }

  // ----- One event on a table nobody else touches

  /** The table after the first `k` storage writes of an event. */
  function Attempt(cfg: Config, t: Table, e: Event, k: nat): (r: Table)
    ensures r.Keys == t.Keys
  {
    if k == 0 then t
    else match e {
      case RollForward(slot, _, _) =>
        var rows := Select(t, InFlight);
        var confirmed := WriteBack(t, ConfirmSet(rows, e));
        if k == 1 || !Aged(cfg, slot, rows) then confirmed
        else WriteBack(confirmed, RetrySet(cfg, rows, e))
      case Rollback(slot, _) => WriteBack(t, RevertSet(ToRollback(t, slot), slot))
    }
  }

  predicate Defined(cfg: Config, t: Table, e: Event) {
    e.RollForward? ==> Aged(cfg, e.slot, Select(t, InFlight))
  }

  /** All writes of an event, or those that precede its panic. */
  function Process(cfg: Config, t: Table, e: Event): (r: Outcome) {
    if Defined(cfg, t, e) then Done(Attempt(cfg, t, e, 2)) else Panicked(Attempt(cfg, t, e, 1))
  }

  // ----- The same event, row by row

  function AdvanceRow(cfg: Config, e: Event, row: Transaction): Transaction
    requires e.RollForward?
  {
    if row.status != InFlight then row
    else if row.id in e.txs then ConfirmRow(row, e.slot)
    else if Stale(cfg, e.slot, row) then RetryRow(row)
    else row
  }

  function EventRow(cfg: Config, e: Event, row: Transaction): (r: Transaction)
    ensures r.id == row.id && r.queue == row.queue && r.createdAt == row.createdAt && r.raw == row.raw
  {
    match e
    case RollForward(_, _, _) => AdvanceRow(cfg, e, row)
    case Rollback(p, _) =>
      if row.status == Confirmed && row.slot.Some? && row.slot.value > p then RevertRow(row) else row
  }

  function EventTable(cfg: Config, t: Table, e: Event): (r: Table)
    ensures r.Keys == t.Keys
  {
    map id | id in t :: EventRow(cfg, e, t[id])
  }

  /** A row is old enough exactly when its slot lies more than the configured distance before the
      block's, or ahead of it by so much less than 2^64 that the wrapped difference is that large. */
  lemma StaleExactly(cfg: Config, slot: Slot, row: Transaction)
    ensures Stale(cfg, slot, row) <==> Overdue(cfg, slot, row.slot)
  {
  }

  predicate Overdue(cfg: Config, slot: Slot, since: Option<Slot>) {
    && since.Some?
    && (|| since.value + cfg.retrySlotDiff < slot
        || (since.value > slot && !cfg.checked && since.value - slot + cfg.retrySlotDiff < U64))
  }

  /** What an event that gets through makes of each row, column by column. */
  lemma EventMeaning(cfg: Config, t: Table, e: Event, id: Id)
    requires Keyed(t) && id in t && Process(cfg, t, e).Done?
    ensures id in Process(cfg, t, e).table
    ensures var row, after := t[id], Process(cfg, t, e).table[id];
            match e
            case RollForward(slot, _, txs) =>
              && (row.status != InFlight ==> after == row)
              && (row.status == InFlight && id in txs ==> after == row.(status := Confirmed, slot := Some(slot)))
              && (row.status == InFlight && id !in txs ==>
                    && row.slot.Some? && (row.slot.value > slot ==> !cfg.checked)
                    && (after == row || after == row.(status := Pending, slot := None))
                    && (row.slot.value <= slot ==> (after.status == Pending <==> slot - row.slot.value > cfg.retrySlotDiff))
                    && (row.slot.value > slot ==>
                          (after.status == Pending <==>
                             0x1_0000_0000_0000_0000 - (row.slot.value - slot) > cfg.retrySlotDiff)))
            case Rollback(p, _) =>
              after == if row.status == Confirmed && row.slot.Some? && row.slot.value > p
                       then row.(status := InFlight, slot := None) else row
  {
    EventExact(cfg, t, e);
    if e.RollForward? && t[id].status == InFlight { assert id in Select(t, InFlight); }
  }

  /** The successive batches of an event equal one simultaneous row-by-row change. */
  lemma EventExact(cfg: Config, t: Table, e: Event)
    requires Keyed(t)
    ensures Defined(cfg, t, e) ==> Process(cfg, t, e) == Done(EventTable(cfg, t, e))
  {
    if Defined(cfg, t, e) {
      var r := Attempt(cfg, t, e, 2);
      if e.RollForward? {
        forall id | id in t ensures r[id] == AdvanceRow(cfg, e, t[id]) {}
      } else {
        forall id | id in t ensures r[id] == EventRow(cfg, e, t[id]) {}
      }
    }
  }

  /** The confirm and retry batches touch different rows, so their order does not matter. */
  lemma BatchesCommute(cfg: Config, t: Table, e: Event)
    requires e.RollForward?
    ensures var rows := Select(t, InFlight);
            var confirm, retry := ConfirmSet(rows, e), RetrySet(cfg, rows, e);
            && confirm.Keys !! retry.Keys
            && WriteBack(WriteBack(t, confirm), retry) == WriteBack(WriteBack(t, retry), confirm)
            && WriteBack(WriteBack(t, confirm), retry) == WriteBack(t, confirm + retry)
  {
    var rows := Select(t, InFlight);
    var confirm, retry := ConfirmSet(rows, e), RetrySet(cfg, rows, e);
    var r := WriteBack(t, confirm + retry);
    forall id | id in t
      ensures WriteBack(WriteBack(t, confirm), retry)[id] == r[id]
      ensures WriteBack(WriteBack(t, retry), confirm)[id] == r[id]
    {}
  }

  /** A roll-forward gets through exactly when every in-flight row carries a slot
      and, with overflow checks, none of them is ahead of the block. */
  lemma DefinedExactly(cfg: Config, t: Table, e: Event)
    ensures Process(cfg, t, e).Panicked? <==>
            && e.RollForward?
            && exists id :: id in t && t[id].status == InFlight
                            && (t[id].slot.None? || (cfg.checked && t[id].slot.value > e.slot))
  {
    if Process(cfg, t, e).Panicked? {
      var rows := Select(t, InFlight);
      var id :| id in rows && Age(cfg, e.slot, rows[id].slot).None?;
      assert id in t && t[id].status == InFlight;
    } else if e.RollForward? {
      var rows := Select(t, InFlight);
      forall id | id in t && t[id].status == InFlight
        ensures t[id].slot.Some? && !(cfg.checked && t[id].slot.value > e.slot)
      {
        assert id in rows && rows[id] == t[id];
      }
    }
  }

  // ----- Crashes

  lemma AttemptRow(cfg: Config, t: Table, e: Event, k: nat, id: Id)
    requires Keyed(t) && Defined(cfg, t, e) && id in t
    ensures var r := Attempt(cfg, t, e, k)[id];
            && r.id == id
            && (r.status == InFlight && e.RollForward? ==> r == t[id])
            && EventRow(cfg, e, r) == EventRow(cfg, e, t[id])
  {
  }

  lemma AttemptLeavesEvent(cfg: Config, t: Table, e: Event, k: nat)
    requires Keyed(t) && Defined(cfg, t, e)
    ensures var r := Attempt(cfg, t, e, k);
            Keyed(r) && Defined(cfg, r, e) && EventTable(cfg, r, e) == EventTable(cfg, t, e)
  {
    var r := Attempt(cfg, t, e, k);
    forall id | id in r
      ensures r[id].id == id
      ensures r[id].status == InFlight && e.RollForward? ==> r[id] == t[id]
      ensures EventRow(cfg, e, r[id]) == EventRow(cfg, e, t[id])
    {
      AttemptRow(cfg, t, e, k, id);
    }
    if e.RollForward? {
      forall id | id in Select(r, InFlight) ensures Age(cfg, e.slot, Select(r, InFlight)[id].slot).Some? {
        assert id in Select(t, InFlight);
      }
    }
  }

  /** The tables of a worker that keeps crashing: attempt i stops after `stops[i]` writes. */
  function Attempts(cfg: Config, t: Table, e: Event, stops: seq<nat>): (r: Table) {
    if stops == [] then t else Attempts(cfg, Attempt(cfg, t, e, stops[0]), e, stops[1..])
  }

  /** However many attempts stop after however many writes, replaying the event ends in the
      table of one uninterrupted run. */
  lemma {:induction false} CrashReplay(cfg: Config, t: Table, e: Event, stops: seq<nat>)
    requires Keyed(t) && Defined(cfg, t, e)
    ensures Process(cfg, Attempts(cfg, t, e, stops), e) == Process(cfg, t, e)
  {
    EventExact(cfg, t, e);
    if stops != [] {
      var u := Attempt(cfg, t, e, stops[0]);
      AttemptLeavesEvent(cfg, t, e, stops[0]);
      CrashReplay(cfg, u, e, stops[1..]);
      EventExact(cfg, u, e);
    }
  }

  /** After a panic the confirmations are stored.  Replaying the block gets through exactly
      when the in-flight rows outside the block have an age; otherwise every further replay
      panics again and changes nothing. */
  lemma PanicReplay(cfg: Config, t: Table, e: Event)
    requires Keyed(t) && Process(cfg, t, e).Panicked?
    ensures var u := Process(cfg, t, e).table;
            && (Process(cfg, u, e).Done? <==>
                forall id :: id in t && t[id].status == InFlight && id !in e.txs ==>
                             Age(cfg, e.slot, t[id].slot).Some?)
            && (Process(cfg, u, e).Panicked? ==> Process(cfg, u, e) == Panicked(u))
  {
    var u := Process(cfg, t, e).table;
    var rows, left := Select(t, InFlight), Select(u, InFlight);
    forall id | id in t
      ensures id in left <==> t[id].status == InFlight && id !in e.txs
      ensures id in left ==> left[id] == t[id]
    {
      assert id in rows <==> t[id].status == InFlight;
    }
    assert ConfirmSet(left, e) == map[];
    assert WriteBack(u, map[]) == u;
  }

  /** Every row a rollback takes back lacks a slot afterwards, so the next roll-forward panics,
      whatever its block, unless the rollback took nothing back. */
  lemma RollForwardAfterRollback(cfg: Config, t: Table, back: Event, e: Event)
    requires Keyed(t) && back.Rollback? && e.RollForward?
    ensures Process(cfg, Process(cfg, t, back).table, e).Done? <==>
            ToRollback(t, back.slot) == map[] && Defined(cfg, t, e)
  {
    EventExact(cfg, t, back);
    var u := Process(cfg, t, back).table;
    if id :| id in ToRollback(t, back.slot) {
      assert u[id].status == InFlight && u[id].slot == None;
      assert id in Select(u, InFlight);
    } else {
      assert ToRollback(t, back.slot) == map[];
      forall id | id in t ensures u[id] == t[id] {
        assert id !in ToRollback(t, back.slot);
      }
      assert u == t;
    }
  }

  /** Without overflow checks a row sent `d` slots ahead of the block counts as 2^64 - d slots
      old: it is sent back to Pending exactly when that exceeds the configured distance. */
  lemma AheadOfBlock(cfg: Config, t: Table, e: Event, id: Id)
    requires Keyed(t) && e.RollForward? && !cfg.checked && Defined(cfg, t, e)
    requires id in t && t[id].status == InFlight && id !in e.txs
    requires t[id].slot.Some? && t[id].slot.value > e.slot
    ensures Process(cfg, t, e).table[id].status == Pending <==> U64 - (t[id].slot.value - e.slot) > cfg.retrySlotDiff
  {
    EventExact(cfg, t, e);
  }

  // ----- The worker

  /** The `filter` and `map` chain over a list of rows: `f` says what becomes of each row. */
  function MapRows(rows: seq<Transaction>, f: Transaction -> Option<Transaction>): (r: seq<Transaction>) {
    if rows == [] then []
    else
      var init := MapRows(rows[..|rows| - 1], f);
      match f(rows[|rows| - 1])
      case None => init
      case Some(tx) => init + [tx]
  }

  function MapTable(m: Table, f: Transaction -> Option<Transaction>): (r: Table) {
    map id | id in m && f(m[id]).Some? :: f(m[id]).value
  }

  ghost predicate KeepsId(f: Transaction -> Option<Transaction>) {
    forall row {:trigger f(row)} :: f(row).Some? ==> f(row).value.id == row.id
  }

  lemma {:induction false} MapRowsMembers(rows: seq<Transaction>, f: Transaction -> Option<Transaction>, tx: Transaction)
    ensures tx in MapRows(rows, f) <==> exists row :: row in rows && f(row) == Some(tx)
  {
    if rows != [] {
      var init, last := rows[..|rows| - 1], rows[|rows| - 1];
      assert rows == init + [last];
      MapRowsMembers(init, f, tx);
    }
  }

  lemma {:induction false} MapRowsDistinct(rows: seq<Transaction>, f: Transaction -> Option<Transaction>)
    requires Distinct(rows) && KeepsId(f)
    ensures Distinct(MapRows(rows, f))
  {
    if rows != [] {
      var init, last := rows[..|rows| - 1], rows[|rows| - 1];
      assert forall i {:trigger init[i]} :: 0 <= i < |init| ==> init[i] == rows[i];
      MapRowsDistinct(init, f);
      var r := MapRows(init, f);
      forall i | 0 <= i < |r| ensures r[i].id != last.id {
        MapRowsMembers(init, f, r[i]);
        var row :| row in init && f(row) == Some(r[i]);
      }
    }
  }

  lemma {:induction false} MapRowsListed(rows: seq<Transaction>, m: Table, f: Transaction -> Option<Transaction>)
    requires Lists(rows, m) && Keyed(m) && KeepsId(f)
    ensures Lists(MapRows(rows, f), MapTable(m, f))
  {
    var r, w := MapRows(rows, f), MapTable(m, f);
    MapRowsDistinct(rows, f);
    forall i | 0 <= i < |r| ensures r[i].id in w && w[r[i].id] == r[i] {
      MapRowsMembers(rows, f, r[i]);
      var row :| row in rows && f(row) == Some(r[i]);
    }
    forall id | id in w ensures w[id] in r {
      MapRowsMembers(rows, f, w[id]);
      assert m[id] in rows;
    }
  }

  function Confirming(e: Event): Transaction -> Option<Transaction>
    requires e.RollForward?
  {
    (row: Transaction) => if row.id in e.txs then Some(ConfirmRow(row, e.slot)) else None
  }

  function Retrying(cfg: Config, confirmed: seq<Transaction>, e: Event): Transaction -> Option<Transaction>
    requires e.RollForward?
  {
    (row: Transaction) =>
      if Stale(cfg, e.slot, row) && forall c :: c in confirmed ==> c.id != row.id then Some(RetryRow(row)) else None
  }

  function Reverting(slot: Slot): Transaction -> Option<Transaction> {
    (row: Transaction) =>
      if row.slot.Some? && row.slot.value > slot then Some(RevertRow(row)) else Some(row.(slot := Some(slot)))
  }

  lemma {:induction false} ConfirmRowsListed(rows: seq<Transaction>, m: Table, e: Event)
    requires e.RollForward? && Lists(rows, m) && Keyed(m)
    ensures Lists(MapRows(rows, Confirming(e)), ConfirmSet(m, e))
  {
    MapRowsListed(rows, m, Confirming(e));
    assert MapTable(m, Confirming(e)) == ConfirmSet(m, e);
  }

  lemma RetryRowsListed(cfg: Config, rows: seq<Transaction>, m: Table, confirmed: seq<Transaction>, e: Event)
    requires e.RollForward? && Lists(rows, m) && Keyed(m)
    requires Lists(confirmed, ConfirmSet(m, e))
    ensures Lists(MapRows(rows, Retrying(cfg, confirmed, e)), RetrySet(cfg, m, e))
  {
    var f := Retrying(cfg, confirmed, e);
    MapRowsListed(rows, m, f);
    forall id | id in m ensures id in ConfirmSet(m, e) <==> exists c :: c in confirmed && c.id == m[id].id {
      if id in ConfirmSet(m, e) { assert ConfirmSet(m, e)[id] in confirmed; }
    }
    assert MapTable(m, f) == RetrySet(cfg, m, e);
  }

  lemma {:induction false} RevertRowsListed(rows: seq<Transaction>, m: Table, slot: Slot)
    requires Lists(rows, m) && Keyed(m)
    ensures Lists(MapRows(rows, Reverting(slot)), RevertSet(m, slot))
  {
    MapRowsListed(rows, m, Reverting(slot));
    assert MapTable(m, Reverting(slot)) == RevertSet(m, slot);
  }

  lemma WriteListed(t: Table, txs: seq<Transaction>, w: Table)
    requires Lists(txs, w) && Keyed(w)
    ensures (if txs == [] then t else WriteAll(t, txs)) == WriteBack(t, w)
  {
    WriteAllIsWriteBack(t, txs, w);
  }

  lemma {:induction false} ConfirmWrite(t: Table, rows: seq<Transaction>, m: Table, e: Event)
    requires e.RollForward? && Lists(rows, m) && Keyed(m)
    ensures var txs := MapRows(rows, Confirming(e));
            (if txs == [] then t else WriteAll(t, txs)) == WriteBack(t, ConfirmSet(m, e))
  {
    ConfirmRowsListed(rows, m, e);
    WriteListed(t, MapRows(rows, Confirming(e)), ConfirmSet(m, e));
  }

  lemma {:induction false} RetryWrite(cfg: Config, t: Table, rows: seq<Transaction>, m: Table, e: Event)
    requires e.RollForward? && Lists(rows, m) && Keyed(m)
    ensures var txs := MapRows(rows, Retrying(cfg, MapRows(rows, Confirming(e)), e));
            (if txs == [] then t else WriteAll(t, txs)) == WriteBack(t, RetrySet(cfg, m, e))
  {
    var confirmed := MapRows(rows, Confirming(e));
    ConfirmRowsListed(rows, m, e);
    RetryRowsListed(cfg, rows, m, confirmed, e);
    WriteListed(t, MapRows(rows, Retrying(cfg, confirmed, e)), RetrySet(cfg, m, e));
  }

  lemma ListedAges(cfg: Config, rows: seq<Transaction>, m: Table, slot: Slot)
    requires Lists(rows, m)
    ensures (forall row :: row in rows ==> Age(cfg, slot, row.slot).Some?) <==> Aged(cfg, slot, m)
  {
    if forall row :: row in rows ==> Age(cfg, slot, row.slot).Some? {
      forall id | id in m ensures Age(cfg, slot, m[id].slot).Some? { assert m[id] in rows; }
    } else {
      var i :| 0 <= i < |rows| && Age(cfg, slot, rows[i].slot).None?;
      assert m[rows[i].id] == rows[i];
    }
  }

  lemma ProcessBlock(cfg: Config, t: Table, e: Event, rows: Table, confirmed: Table)
    requires e.RollForward? && rows == Select(t, InFlight) && confirmed == WriteBack(t, ConfirmSet(rows, e))
    ensures Process(cfg, t, e) ==
            if Aged(cfg, e.slot, rows) then Done(WriteBack(confirmed, RetrySet(cfg, rows, e))) else Panicked(confirmed)
  {
  }

  class Worker {
    const config: Config
    const storage: SqliteTransaction
    var cursor: Option<(Slot, Bytes)>

    constructor (config: Config, storage: SqliteTransaction, cursor: Option<(Slot, Bytes)>)
      ensures this.config == config && this.storage == storage && this.cursor == cursor
    {
      this.config, this.storage, this.cursor := config, storage, cursor;
    }

    /** Runs one event; `ok` is false when computing an age panics. */
    method Execute(unit: Event) returns (ok: bool)
      requires Keyed(storage.table)
      modifies this`cursor, storage
      ensures Process(config, old(storage.table), unit) ==
              (if ok then Done(storage.table) else Panicked(storage.table))
      ensures cursor == if ok then Some((unit.slot, unit.hash)) else old(cursor)
    {
      match unit {
        case RollForward(slot, hash, txs) =>
          ok := RollForward(unit);
          if !ok { return; }
        case Rollback(slot, hash) =>
          var found := storage.FindToRollback(slot);
          var reverted := MapRows(found, Reverting(slot));
          RevertRowsListed(found, ToRollback(storage.table, slot), slot);
          WriteListed(storage.table, reverted, RevertSet(ToRollback(storage.table, slot), slot));
          storage.UpdateBatch(reverted);
          ok := true;
      }
      cursor := Some((unit.slot, unit.hash));
    }

    method RollForward(unit: Event) returns (ok: bool)
      requires unit.RollForward? && Keyed(storage.table)
      modifies storage
      ensures Process(config, old(storage.table), unit) ==
              (if ok then Done(storage.table) else Panicked(storage.table))
    {
      var inflight := storage.Find(InFlight);
      ghost var t := storage.table;
      ghost var rows := Select(t, InFlight);
      ghost var confirmed := WriteBack(t, ConfirmSet(rows, unit));
      ConfirmWrite(t, inflight, rows, unit);
      RetryWrite(config, confirmed, inflight, rows, unit);
      ListedAges(config, inflight, rows, unit.slot);
      ProcessBlock(config, t, unit, rows, confirmed);

      var confirm := MapRows(inflight, Confirming(unit));
      WriteIfAny(confirm);

      ok := forall tx :: tx in inflight ==> Age(config, unit.slot, tx.slot).Some?;
      if !ok { return; }
      var retry := MapRows(inflight, Retrying(config, confirm, unit));
      WriteIfAny(retry);
    }

    /** A batch is only written when there is something in it. */
    method WriteIfAny(txs: seq<Transaction>)
      modifies storage
      ensures storage.table == if txs == [] then old(storage.table) else WriteAll(old(storage.table), txs)
    {
      if txs != [] {
        storage.UpdateBatch(txs);
      }
    }
  }
}
