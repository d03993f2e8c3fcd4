/** The ingest worker: what one unit of pending rows does to the table and to the output port. */
module Ingest {
  import opened Storage

  /** Which queues are configured, and whether the server signs for them. */
  type Signing = map<Queue, bool>

  /** The answers of the outside world while one row is processed. */
  datatype Answers = Answers(signed: Option<Bytes>, decodes: bool, valid: bool, evaluates: bool, sends: bool, tip: Option<Slot>)

  datatype Verdict =
    | Aborted                          // the unit stops before anything is sent
    | Stranded(raw: Bytes)             // sent, but the tip cannot be fetched: the unit stops
    | Rejected(raw: Bytes)             // validation or evaluation failed
    | Unsent(raw: Bytes)               // the output port refused the message
    | Sent(raw: Bytes, tip: Slot)

  function Judge(signing: Signing, tx: Transaction, a: Answers): (v: Verdict) {
    if tx.queue !in signing || (signing[tx.queue] && a.signed.None?) then Aborted
    else
      var raw := if signing[tx.queue] then a.signed.value else tx.raw;
      if !a.decodes then Aborted
      else if !a.valid || !a.evaluates then Rejected(raw)
      else if !a.sends then Unsent(raw)
      else if a.tip.None? then Stranded(raw)
      else Sent(raw, a.tip.value)
  }

  function Reject(tx: Transaction, raw: Bytes): Transaction {
    tx.(raw := raw, status := Failed)
  }

  function Launch(tx: Transaction, raw: Bytes, tip: Slot): Transaction {
    tx.(raw := raw, status := InFlight, slot := Some(tip))
  }

  /** The rows written by a unit, in order, and the messages put on the port, in order. */
  datatype Trace = Trace(writes: seq<Transaction>, messages: seq<Bytes>, ok: bool)

  function Extend(r: Trace, tx: Transaction, v: Verdict): Trace {
    match v
    case Aborted => r.(ok := false)
    case Stranded(raw) => r.(messages := r.messages + [raw], ok := false)
    case Rejected(raw) => r.(writes := r.writes + [Reject(tx, raw)])
    case Unsent(_) => r
    case Sent(raw, tip) => r.(writes := r.writes + [Launch(tx, raw, tip)], messages := r.messages + [raw])
  }

  function Work(signing: Signing, unit: seq<Transaction>, answers: seq<Answers>): (r: Trace)
    requires |answers| == |unit|
  {
    if unit == [] then Trace([], [], true)
    else
      var n := |unit| - 1;
      var before := Work(signing, unit[..n], answers[..n]);
      if before.ok then Extend(before, unit[n], Judge(signing, unit[n], answers[n])) else before
  }

  /** The raw bytes of the rows written as in flight. */
  function Launched(writes: seq<Transaction>): (r: seq<Bytes>) {
    if writes == [] then []
    else
      var w := writes[|writes| - 1];
      Launched(writes[..|writes| - 1]) + (if w.status == InFlight then [w.raw] else [])
  }

  /** What is broadcast is what is stored: the messages are the raw bytes of the rows marked
      in flight, in the same order, but for one last message when fetching the tip fails. */
  lemma {:induction false} MessagesAreLaunched(signing: Signing, unit: seq<Transaction>, answers: seq<Answers>)
    requires |answers| == |unit|
    ensures var r := Work(signing, unit, answers);
            && Launched(r.writes) <= r.messages
            && |r.messages| <= |Launched(r.writes)| + 1
            && (r.ok ==> r.messages == Launched(r.writes))
  {
    if unit != [] {
      var n := |unit| - 1;
      MessagesAreLaunched(signing, unit[..n], answers[..n]);
      var before, r := Work(signing, unit[..n], answers[..n]), Work(signing, unit, answers);
      assert |r.writes| > |before.writes| ==> r.writes[..|r.writes| - 1] == before.writes;
    }
  }

  /** What a row becomes: untouched when the unit stopped before it. */
  function RowAfter(signing: Signing, unit: seq<Transaction>, answers: seq<Answers>, i: nat): Transaction
    requires |answers| == |unit| && i < |unit|
  {
    var tx := unit[i];
    if !Work(signing, unit[..i], answers[..i]).ok then tx
    else match Judge(signing, tx, answers[i])
      case Rejected(raw) => Reject(tx, raw)
      case Sent(raw, tip) => Launch(tx, raw, tip)
      case _ => tx
  }

  /** A row whose queue is not configured, that cannot be signed or decoded, or that is sent but
      gets no tip. */
  predicate Stops(signing: Signing, tx: Transaction, a: Answers) {
    || tx.queue !in signing
    || (signing[tx.queue] && a.signed.None?)
    || !a.decodes
    || (a.valid && a.evaluates && a.sends && a.tip.None?)
  }

  function Settle(t: Table, tx: Transaction, v: Verdict): Table {
    match v
    case Rejected(raw) => WriteRow(t, Reject(tx, raw))
    case Sent(raw, tip) => WriteRow(t, Launch(tx, raw, tip))
    case _ => t
  }

  function TableAfter(signing: Signing, t: Table, unit: seq<Transaction>, answers: seq<Answers>): Table
    requires |answers| == |unit|
  {
    WriteAll(t, Work(signing, unit, answers).writes)
  }

  lemma LastRow(signing: Signing, t: Table, unit: seq<Transaction>, answers: seq<Answers>)
    requires |answers| == |unit| && unit != []
    ensures var n := |unit| - 1;
            var u := TableAfter(signing, t, unit[..n], answers[..n]);
            TableAfter(signing, t, unit, answers) ==
            if Work(signing, unit[..n], answers[..n]).ok then Settle(u, unit[n], Judge(signing, unit[n], answers[n])) else u
  {
    var n := |unit| - 1;
    ExtendWrites(t, Work(signing, unit[..n], answers[..n]), unit[n], Judge(signing, unit[n], answers[n]));
  }

  lemma {:induction false} UntouchedRow(signing: Signing, t: Table, unit: seq<Transaction>, answers: seq<Answers>, id: Id)
    requires |answers| == |unit| && id in t && forall i :: 0 <= i < |unit| ==> unit[i].id != id
    ensures id in TableAfter(signing, t, unit, answers) && TableAfter(signing, t, unit, answers)[id] == t[id]
  {
    if unit != [] {
      UntouchedRow(signing, t, unit[..|unit| - 1], answers[..|unit| - 1], id);
      LastRow(signing, t, unit, answers);
    }
  }

  /** Whatever the table holds by now, a row of the unit gets the raw bytes, status and slot of its
      verdict if that writes and stays otherwise.  A copy that still matches the table thus becomes
      what its verdict says; one that does not, as when a unit is executed a second time, overwrites
      what happened in between. */
  lemma {:induction false} UnitEffect(signing: Signing, t: Table, unit: seq<Transaction>, answers: seq<Answers>, i: nat)
    requires |answers| == |unit| && Distinct(unit)
    requires i < |unit| && unit[i].status == Pending && unit[i].id in t
    ensures var id, after := unit[i].id, RowAfter(signing, unit, answers, i);
            && id in TableAfter(signing, t, unit, answers)
            && TableAfter(signing, t, unit, answers)[id] == (if after == unit[i] then t[id] else Merge(t[id], after))
            && (t[id] == unit[i] ==> TableAfter(signing, t, unit, answers)[id] == after)
  {
    var n := |unit| - 1;
    LastRow(signing, t, unit, answers);
    if i < n {
      assert unit[..n][..i] == unit[..i] && answers[..n][..i] == answers[..i] && unit[..n][i] == unit[i];
      UnitEffect(signing, t, unit[..n], answers[..n], i);
      SettledElsewhere(TableAfter(signing, t, unit[..n], answers[..n]), unit[n], Judge(signing, unit[n], answers[n]), unit[i].id);
    } else {
      UntouchedRow(signing, t, unit[..n], answers[..n], unit[n].id);
    }
  }

  lemma SettledElsewhere(t: Table, tx: Transaction, v: Verdict, id: Id)
    requires id in t && id != tx.id
    ensures id in Settle(t, tx, v) && Settle(t, tx, v)[id] == t[id]
  {
  }

  /** A second execution of a unit takes back a confirmation exactly when it reaches the row and
      its verdict writes. */
  lemma ReexecutionLosesConfirmation(signing: Signing, t: Table, unit: seq<Transaction>, answers: seq<Answers>, i: nat)
    requires |answers| == |unit| && Distinct(unit) && i < |unit| && unit[i].status == Pending
    requires unit[i].id in t && t[unit[i].id].status == Confirmed
    ensures var u := TableAfter(signing, t, unit, answers);
            && unit[i].id in u
            && (u[unit[i].id].status != Confirmed <==>
                && (forall j :: 0 <= j < i ==> !Stops(signing, unit[j], answers[j]))
                && !Stops(signing, unit[i], answers[i])
                && (answers[i].valid && answers[i].evaluates ==> answers[i].sends))
  {
    UnitEffect(signing, t, unit, answers, i);
    LaunchedExactly(signing, unit, answers, i);
  }

  /** The unit succeeds exactly when none of its rows stops it. */
  lemma {:induction false} OkExactly(signing: Signing, unit: seq<Transaction>, answers: seq<Answers>)
    requires |answers| == |unit|
    ensures Work(signing, unit, answers).ok <==> forall i :: 0 <= i < |unit| ==> !Stops(signing, unit[i], answers[i])
  {
    if unit != [] {
      var n := |unit| - 1;
      var u, a := unit[..n], answers[..n];
      OkExactly(signing, u, a);
      assert forall i {:trigger u[i]} :: 0 <= i < n ==> u[i] == unit[i] && a[i] == answers[i];
    }
  }

  /** A pending row leaves the unit in flight exactly when the unit reached it, its queue is
      configured, it was signed if it had to be, and every check, the send and the tip went well;
      it leaves Failed exactly when it decoded but a check failed. */
  lemma LaunchedExactly(signing: Signing, unit: seq<Transaction>, answers: seq<Answers>, i: nat)
    requires |answers| == |unit| && i < |unit| && unit[i].status == Pending
    ensures var tx, a := unit[i], answers[i];
            var ready := && (forall j :: 0 <= j < i ==> !Stops(signing, unit[j], answers[j]))
                         && tx.queue in signing && (signing[tx.queue] ==> a.signed.Some?) && a.decodes;
            && (RowAfter(signing, unit, answers, i).status == InFlight <==>
                ready && a.valid && a.evaluates && a.sends && a.tip.Some?)
            && (RowAfter(signing, unit, answers, i).status == Failed <==> ready && !(a.valid && a.evaluates))
  {
    Reached(signing, unit, answers, i);
  }

  /** A row that changes carries the signed bytes when the server signs for its queue and its own bytes
      otherwise, and nothing but its raw bytes, status and slot changes; in flight its slot is the
      tip. */
  lemma UnitBytes(signing: Signing, unit: seq<Transaction>, answers: seq<Answers>, i: nat)
    requires |answers| == |unit| && i < |unit| && unit[i].status == Pending
    ensures var tx, a, after := unit[i], answers[i], RowAfter(signing, unit, answers, i);
            after != tx ==>
              && tx.queue in signing && (signing[tx.queue] ==> a.signed.Some?)
              && var raw := if signing[tx.queue] then a.signed.value else tx.raw;
                 || (a.tip.Some? && after == Transaction(tx.id, raw, InFlight, tx.queue, a.tip, tx.createdAt))
                 || after == Transaction(tx.id, raw, Failed, tx.queue, tx.slot, tx.createdAt)
  {
  }

  /** A row adds one message, with these bytes, exactly when the unit reached it, it was signed if it
      had to be, it decoded, both checks passed and the port took it; otherwise it adds none. */
  lemma MessageExactly(signing: Signing, unit: seq<Transaction>, answers: seq<Answers>, i: nat)
    requires |answers| == |unit| && i < |unit|
    ensures var tx, a := unit[i], answers[i];
            var before, after := Work(signing, unit[..i], answers[..i]).messages, Work(signing, unit[..i + 1], answers[..i + 1]).messages;
            && after <= Work(signing, unit, answers).messages
            && (if && (forall j :: 0 <= j < i ==> !Stops(signing, unit[j], answers[j]))
                   && tx.queue in signing && (signing[tx.queue] ==> a.signed.Some?) && a.decodes && a.valid && a.evaluates && a.sends
                then after == before + [if signing[tx.queue] then a.signed.value else tx.raw]
                else after == before)
  {
    Reached(signing, unit, answers, i);
    RowMessage(signing, unit, answers, i);
    MessagesGrow(signing, unit, answers, i + 1);
  }

  lemma RowMessage(signing: Signing, unit: seq<Transaction>, answers: seq<Answers>, i: nat)
    requires |answers| == |unit| && i < |unit|
    ensures var before, tx, a := Work(signing, unit[..i], answers[..i]), unit[i], answers[i];
            Work(signing, unit[..i + 1], answers[..i + 1]).messages == before.messages +
            if && before.ok && tx.queue in signing && (signing[tx.queue] ==> a.signed.Some?)
               && a.decodes && a.valid && a.evaluates && a.sends
            then [if signing[tx.queue] then a.signed.value else tx.raw] else []
  {
    assert unit[..i + 1][..i] == unit[..i] && answers[..i + 1][..i] == answers[..i];
  }

  /** The unit gets to a row exactly when none before it stops it. */
  lemma Reached(signing: Signing, unit: seq<Transaction>, answers: seq<Answers>, i: nat)
    requires |answers| == |unit| && i < |unit|
    ensures Work(signing, unit[..i], answers[..i]).ok <==> forall j :: 0 <= j < i ==> !Stops(signing, unit[j], answers[j])
  {
    OkExactly(signing, unit[..i], answers[..i]);
    assert forall j :: 0 <= j < i ==> unit[..i][j] == unit[j] && answers[..i][j] == answers[j];
  }

  lemma {:induction false} MessagesGrow(signing: Signing, unit: seq<Transaction>, answers: seq<Answers>, k: nat)
    requires |answers| == |unit| && k <= |unit|
    ensures Work(signing, unit[..k], answers[..k]).messages <= Work(signing, unit, answers).messages
  {
    if k < |unit| {
      var n := |unit| - 1;
      assert unit[..n][..k] == unit[..k] && answers[..n][..k] == answers[..k];
      MessagesGrow(signing, unit[..n], answers[..n], k);
    } else {
      assert unit[..k] == unit && answers[..k] == answers;
    }
  }

  lemma ExtendWrites(t: Table, r: Trace, tx: Transaction, v: Verdict)
    ensures WriteAll(t, Extend(r, tx, v).writes) == Settle(WriteAll(t, r.writes), tx, v)
  {
    var w := Extend(r, tx, v).writes;
    assert |w| > |r.writes| ==> w[..|w| - 1] == r.writes;
  }

  class Worker {
    const signing: Signing
    const storage: SqliteTransaction
    var output: seq<Bytes>

    constructor (signing: Signing, storage: SqliteTransaction)
      ensures this.signing == signing && this.storage == storage && output == []
    {
      this.signing, this.storage, output := signing, storage, [];
    }

    method Execute(unit: seq<Transaction>, answers: seq<Answers>) returns (ok: bool)
      requires |answers| == |unit|
      modifies this, storage
      ensures var r := Work(signing, unit, answers);
              && ok == r.ok
              && storage.table == WriteAll(old(storage.table), r.writes)
              && output == old(output) + r.messages
    {
      ghost var t, o := storage.table, output;
      for i := 0 to |unit|
        invariant Progress(signing, t, o, unit[..i], answers[..i], true, storage.table, output)
      {
        NextRow(signing, t, o, unit, answers, i, storage.table, output);
        ok := ProcessRow(unit[i], answers[i]);
        if !ok {
          Stopped(signing, unit, answers, i + 1);
          return;
        }
      }
      assert unit[..|unit|] == unit && answers[..|unit|] == answers;
      ok := true;
    }

    /** One turn of the loop; false when it returns an error. */
    method ProcessRow(tx: Transaction, a: Answers) returns (ok: bool)
      modifies this, storage
      ensures var v := Judge(signing, tx, a);
              && storage.table == Settle(old(storage.table), tx, v)
              && output == old(output) + Sending(v)
              && ok == (!v.Aborted? && !v.Stranded?)
    {
      if tx.queue !in signing || (signing[tx.queue] && a.signed.None?) {
        return false;
      }
      var raw := if signing[tx.queue] then a.signed.value else tx.raw;
      if !a.decodes {
        return false;
      }
      if !a.valid || !a.evaluates {
        storage.Update(Reject(tx, raw));
        return true;
      }
      if a.sends {
        output := output + [raw];
        if a.tip.None? {
          return false;
        }
        storage.Update(Launch(tx, raw, a.tip.value));
      }
      return true;
    }
  }

  function Sending(v: Verdict): seq<Bytes> { if v.Stranded? || v.Sent? then [v.raw] else [] }

  /** The table and the port, from `t` and `o`, after a unit that ended with `ok`. */
  ghost predicate Progress(
    signing: Signing, t: Table, o: seq<Bytes>, unit: seq<Transaction>, answers: seq<Answers>,
    ok: bool, table: Table, output: seq<Bytes>)
    requires |answers| == |unit|
  {
    var r := Work(signing, unit, answers);
    ok == r.ok && table == WriteAll(t, r.writes) && output == o + r.messages
  }

  /** What one more row adds. */
  lemma NextRow(
    signing: Signing, t: Table, o: seq<Bytes>, unit: seq<Transaction>, answers: seq<Answers>,
    i: nat, table: Table, output: seq<Bytes>)
    requires |answers| == |unit| && i < |unit|
    requires Progress(signing, t, o, unit[..i], answers[..i], true, table, output)
    ensures var v := Judge(signing, unit[i], answers[i]);
            Progress(signing, t, o, unit[..i + 1], answers[..i + 1], !v.Aborted? && !v.Stranded?,
                     Settle(table, unit[i], v), output + Sending(v))
  {
    assert unit[..i + 1][..i] == unit[..i] && answers[..i + 1][..i] == answers[..i];
    ExtendWrites(t, Work(signing, unit[..i], answers[..i]), unit[i], Judge(signing, unit[i], answers[i]));
  }

  lemma {:induction false} Stopped(signing: Signing, unit: seq<Transaction>, answers: seq<Answers>, k: nat)
    requires |answers| == |unit| && k <= |unit|
    requires !Work(signing, unit[..k], answers[..k]).ok
    ensures Work(signing, unit, answers) == Work(signing, unit[..k], answers[..k])
  {
    if k < |unit| {
      var n := |unit| - 1;
      assert unit[..n][..k] == unit[..k] && answers[..n][..k] == answers[..k];
      Stopped(signing, unit[..n], answers[..n], k);
    } else {
      assert unit[..k] == unit && answers[..k] == answers;
    }
  }
}
