/** The `tx` table: what one storage call reads or writes.

Rows are kept in a map from their primary key.  Reads that return several rows are
described by the map of the rows they select (the SQL gives no order to them); the
class at the end of the module runs the same calls statement by statement. */
module Storage {

  newtype byte = x: int | 0 <= x < 256
  type Bytes = seq<byte>
  type Id = string
  type Queue = string

  /** Slots below 2^63, where the cast to a signed column is the identity. */
  type Slot = s: nat | s < 0x8000_0000_0000_0000

  datatype Option<+T> = None | Some(value: T)

  datatype Status = Pending | Validated | InFlight | Confirmed | Failed

  datatype Transaction = Transaction(
    id: Id, raw: Bytes, status: Status, queue: Queue, slot: Option<Slot>, createdAt: int)

  type Table = map<Id, Transaction>

  /** Every row is stored under its own id. */
  ghost predicate Keyed(t: Table) {
    forall id :: id in t ==> t[id].id == id
  }

  predicate Distinct(txs: seq<Transaction>) {
    forall i, j :: 0 <= i < j < |txs| ==> txs[i].id != txs[j].id
  }

  /** `txs` lists the rows of `m`, each once, in some order. */
  ghost predicate Lists(txs: seq<Transaction>, m: Table) {
    && Distinct(txs)
    && (forall i :: 0 <= i < |txs| ==> txs[i].id in m && m[txs[i].id] == txs[i])
    && (forall id :: id in m ==> m[id] in txs)
  }

  // ----- Reads

  function Select(t: Table, status: Status): (m: Table)
    ensures m.Keys <= t.Keys
  {
    map id | id in t && t[id].status == status :: t[id]
  }

  function ToRollback(t: Table, slot: Slot): (m: Table)
    ensures m.Keys <= t.Keys
  {
    map id | id in t && t[id].status == Confirmed && t[id].slot.Some? && t[id].slot.value > slot :: t[id]
  }

  /** The ids of the rows of one queue with one status. */
  function Matching(t: Table, status: Status, queue: Queue): (ids: set<Id>) {
    set id | id in t && t[id].status == status && t[id].queue == queue
  }

  function Count(t: Table, status: Status, queue: Queue): (n: nat) {
    |Matching(t, status, queue)|
  }

  /** `SELECT queue, COUNT(*) ... GROUP BY queue`: only queues that have such rows appear. */
  function State(t: Table, status: Status): (counts: map<Queue, nat>)
    ensures forall q :: q in counts <==> Count(t, status, q) > 0
    ensures forall q :: q in counts ==> counts[q] == Count(t, status, q)
  {
    assert forall id :: id in t && t[id].status == status ==> id in Matching(t, status, t[id].queue);
    var m := map q | q in (set id | id in t && t[id].status == status :: t[id].queue) :: Count(t, status, q);
    assert forall q :: Count(t, status, q) > 0 ==> exists id :: id in Matching(t, status, q) by {
      forall q | Count(t, status, q) > 0 ensures exists id :: id in Matching(t, status, q) {
        assert Matching(t, status, q) != {};
      }
    }
    m
  }

  /** A row of the queue that no other row of the queue is younger than. */
  ghost predicate IsLatest(t: Table, queue: Queue, r: Option<Transaction>) {
    match r
    case None => forall id :: id in t ==> t[id].queue != queue
    case Some(tx) =>
      && tx.id in t && t[tx.id] == tx && tx.queue == queue
      && forall id :: id in t && t[id].queue == queue ==> t[id].createdAt <= tx.createdAt
  }

  // ----- Writes

  /** The columns that UPDATE sets. */
  function Merge(row: Transaction, tx: Transaction): (r: Transaction)
    ensures r.id == row.id && r.queue == row.queue && r.createdAt == row.createdAt
  {
    row.(raw := tx.raw, status := tx.status, slot := tx.slot)
  }

  /** One UPDATE by id; an unknown id changes nothing. */
  function WriteRow(t: Table, tx: Transaction): (r: Table)
    ensures r.Keys == t.Keys
  {
    if tx.id in t then t[tx.id := Merge(t[tx.id], tx)] else t
  }

  /** The UPDATEs of a batch, one after the other. */
  function WriteAll(t: Table, txs: seq<Transaction>): (r: Table)
    ensures r.Keys == t.Keys
  {
    if txs == [] then t else WriteRow(WriteAll(t, txs[..|txs| - 1]), txs[|txs| - 1])
  }

  /** All rows of `w` written at once. */
  function WriteBack(t: Table, w: Table): (r: Table)
    ensures r.Keys == t.Keys
  {
    map id | id in t :: if id in w then Merge(t[id], w[id]) else t[id]
  }

  /** A row as INSERT stores it: the slot column is not among the inserted ones. */
  function Fresh(tx: Transaction): (r: Transaction)
    ensures r.slot == None
  {
    tx.(slot := None)
  }

  /** The INSERTs of a batch in one database transaction; a taken key undoes them all. */
  function Insert(t: Table, txs: seq<Transaction>): (r: Option<Table>)
  {
    if txs == [] then Some(t)
    else
      var tx := txs[|txs| - 1];
      match Insert(t, txs[..|txs| - 1])
      case None => None
      case Some(u) => if tx.id in u then None else Some(u[tx.id := Fresh(tx)])
  }

  predicate Insertable(t: Table, txs: seq<Transaction>) {
    Distinct(txs) && forall i :: 0 <= i < |txs| ==> txs[i].id !in t
  }

  ghost function Ids(txs: seq<Transaction>): (ids: set<Id>) {
    set i | 0 <= i < |txs| :: txs[i].id
  }

  lemma SplitLast(t: Table, init: seq<Transaction>, tx: Transaction)
    ensures Ids(init + [tx]) == Ids(init) + {tx.id}
    ensures Insertable(t, init + [tx]) <==> Insertable(t, init) && tx.id !in t && tx.id !in Ids(init)
  {
    var txs := init + [tx];
    assert forall i {:trigger init[i]} :: 0 <= i < |init| ==> init[i] == txs[i];
    assert txs[|init|] == tx;
    forall id | id in Ids(init) + {tx.id} ensures id in Ids(txs) {
      if id in Ids(init) { var i :| 0 <= i < |init| && init[i].id == id; assert txs[i].id == id; }
    }
  }

  /** The batch goes in exactly when its ids are new and distinct, and then all of it does. */
  lemma {:induction false} InsertExact(t: Table, txs: seq<Transaction>)
    ensures Insert(t, txs).Some? <==> Insertable(t, txs)
    ensures Insertable(t, txs) ==>
              var u := Insert(t, txs).value;
              && u.Keys == t.Keys + Ids(txs)
              && (forall id :: id in t ==> u[id] == t[id])
              && (forall i :: 0 <= i < |txs| ==> u[txs[i].id] == Fresh(txs[i]))
  {
    if txs != [] {
      var init, tx := txs[..|txs| - 1], txs[|txs| - 1];
      InsertExact(t, init);
      assert txs == init + [tx];
      SplitLast(t, init, tx);
      if Insertable(t, txs) {
        var u := Insert(t, init).value;
        forall i | 0 <= i < |txs| ensures Insert(t, txs).value[txs[i].id] == Fresh(txs[i]) {
          if i < |init| { assert init[i] == txs[i]; assert init[i].id in Ids(init); }
        }
      }
    }
  }

  /** What a batch of distinct rows does to one row. */
  lemma {:induction false} WriteAllAt(t: Table, txs: seq<Transaction>, i: nat)
    requires Distinct(txs) && i < |txs| && txs[i].id in t
    ensures WriteAll(t, txs)[txs[i].id] == Merge(t[txs[i].id], txs[i])
  {
    var n := |txs| - 1;
    if i < n { WriteAllAt(t, txs[..n], i); } else { WriteAllElsewhere(t, txs[..n], txs[n].id); }
  }

  lemma {:induction false} WriteAllElsewhere(t: Table, txs: seq<Transaction>, id: Id)
    requires id in t && forall i :: 0 <= i < |txs| ==> txs[i].id != id
    ensures WriteAll(t, txs)[id] == t[id]
  {
    if txs != [] { WriteAllElsewhere(t, txs[..|txs| - 1], id); }
  }

  /** A batch of distinct rows may be written in any order, one by one or at once. */
  lemma {:induction false} WriteAllIsWriteBack(t: Table, txs: seq<Transaction>, w: Table)
    requires Lists(txs, w)
    requires Keyed(w)
    ensures WriteAll(t, txs) == WriteBack(t, w)
  {
    forall id | id in t
      ensures WriteAll(t, txs)[id] == WriteBack(t, w)[id]
    {
      if id in w {
        var i :| 0 <= i < |txs| && txs[i] == w[id];
        WriteAllAt(t, txs, i);
      } else {
        WriteAllElsewhere(t, txs, id);
      }
    }
  }

  lemma Listed(txs: seq<Transaction>, m: Table)
    requires Lists(txs, m) && Keyed(m)
    ensures forall tx :: tx in txs <==> tx.id in m && m[tx.id] == tx
  {
  }

  // ----- The calls themselves

  class SqliteTransaction {
    var table: Table

    constructor ()
      ensures table == map[]
    {
      table := map[];
    }

    method Create(txs: seq<Transaction>) returns (ok: bool)
      modifies this
      ensures ok == Insertable(old(table), txs)
      ensures ok ==> Insert(old(table), txs) == Some(table)
      ensures !ok ==> table == old(table)
    {
      var dbTx := table;
      for i := 0 to |txs|
        invariant table == old(table)
        invariant Insert(old(table), txs[..i]) == Some(dbTx)
      {
        assert txs[..i + 1][..i] == txs[..i];
        if txs[i].id in dbTx {
          InsertExact(old(table), txs[..i]);
          return false;
        }
        dbTx := dbTx[txs[i].id := Fresh(txs[i])];
      }
      assert txs[..|txs|] == txs;
      InsertExact(old(table), txs);
      table := dbTx;
      return true;
    }

    method Find(status: Status) returns (txs: seq<Transaction>)
      requires Keyed(table)
      ensures Lists(txs, Select(table, status))
      ensures forall tx :: tx in txs <==> tx.id in table && table[tx.id] == tx && tx.status == status
    {
      txs := ListRows(Select(table, status));
      Listed(txs, Select(table, status));
    }

    method FindToRollback(slot: Slot) returns (txs: seq<Transaction>)
      requires Keyed(table)
      ensures Lists(txs, ToRollback(table, slot))
      ensures forall tx :: tx in txs <==>
                && tx.id in table && table[tx.id] == tx
                && tx.status == Confirmed && tx.slot.Some? && tx.slot.value > slot
    {
      txs := ListRows(ToRollback(table, slot));
      Listed(txs, ToRollback(table, slot));
    }

    method Latest(queue: Queue) returns (r: Option<Transaction>)
      requires Keyed(table)
      ensures IsLatest(table, queue, r)
      ensures r.None? <==> forall id :: id in table ==> table[id].queue != queue
      ensures r.Some? ==> forall id :: id in table && table[id].queue == queue ==> table[id].createdAt <= r.value.createdAt
    {
      r := None;
      var todo := table.Keys;
      while todo != {}
        invariant todo <= table.Keys
        invariant IsLatest(map id | id in table && id !in todo :: table[id], queue, r)
      {
        var id :| id in todo;
        if table[id].queue == queue && (r == None || r.value.createdAt < table[id].createdAt) {
          r := Some(table[id]);
        }
        todo := todo - {id};
      }
      assert (map id | id in table && id !in todo :: table[id]) == table;
    }

    method Update(tx: Transaction)
      modifies this
      ensures table == WriteRow(old(table), tx)
    {
      if tx.id in table {
        table := table[tx.id := table[tx.id].(raw := tx.raw, status := tx.status, slot := tx.slot)];
      }
    }

    method UpdateBatch(txs: seq<Transaction>)
      modifies this
      ensures table == WriteAll(old(table), txs)
    {
      var dbTx := table;
      for i := 0 to |txs|
        invariant table == old(table)
        invariant dbTx == WriteAll(old(table), txs[..i])
      {
        assert txs[..i + 1][..i] == txs[..i];
        dbTx := WriteRow(dbTx, txs[i]);
      }
      assert txs[..|txs|] == txs;
      table := dbTx;
    }
  }

  /** Rows selected by a query, in whatever order they come. */
  method ListRows(m: Table) returns (txs: seq<Transaction>)
    requires Keyed(m)
    ensures Lists(txs, m)
  {
    txs := [];
    var todo := m.Keys;
    while todo != {}
      invariant todo <= m.Keys
      invariant Lists(txs, map id | id in m && id !in todo :: m[id])
    {
      var id :| id in todo;
      ghost var before := map id | id in m && id !in todo :: m[id];
      ghost var listed := txs;
      todo := todo - {id};
      txs := txs + [m[id]];
      ghost var after := map id | id in m && id !in todo :: m[id];
      assert after == before[id := m[id]];
      forall k | k in after ensures after[k] in txs {
        if k == id { assert txs[|listed|] == m[id]; } else { assert before[k] in listed; }
      }
    }
    assert (map id | id in m && id !in todo :: m[id]) == m;
  }
}
