/** Batch admission by the submit handler: which transactions of a request are stored, which
references come back and which queues are unlocked. */
module Submit {
  import opened Storage
  import opened Chaining

  const DEFAULT_QUEUE: Queue := "default"

  /** The queues with server signing on or off, and the chained ones. */
  datatype Config = Config(signing: map<Queue, bool>, chained: set<Queue>)

  datatype Item = Item(raw: Bytes, queue: Option<Queue>, lockToken: Option<Token>)

  /** What the handler learns while it looks at one item: the hash if the bytes decode, the
      result of validation and evaluation, the token map at that moment, and the time. */
  datatype Seen = Seen(hash: Option<Id>, valid: bool, state: map<Queue, Token>, now: int)

  datatype Verdict = BadTx | Unfit | BadToken | Fit

  datatype Result = Accepted(refs: seq<Id>) | InvalidTx(index: nat) | InvalidToken | Internal

  /** Items for queues signed by the server are validated later, when they are signed; an
      unknown queue counts as the default one here. */
  predicate ShouldValidate(cfg: Config, item: Item) {
    match item.queue
    case None => true
    case Some(q) =>
      if q in cfg.signing then !cfg.signing[q]
      else if DEFAULT_QUEUE in cfg.signing then !cfg.signing[DEFAULT_QUEUE]
      else true
  }

  predicate NamesChained(cfg: Config, item: Item) { item.queue.Some? && item.queue.value in cfg.chained }

  function Presented(item: Item): Token { if item.lockToken.Some? then item.lockToken.value else "" }

  predicate TokenOk(item: Item, seen: Seen) {
    item.queue.Some? && item.queue.value in seen.state && seen.state[item.queue.value] == Presented(item)
  }

  function Judge(cfg: Config, item: Item, seen: Seen): Verdict {
    if seen.hash.None? then BadTx
    else if ShouldValidate(cfg, item) && !seen.valid then Unfit
    else if NamesChained(cfg, item) && !TokenOk(item, seen) then BadToken
    else Fit
  }

  function Row(item: Item, seen: Seen): Transaction
    requires seen.hash.Some?
  {
    Transaction(seen.hash.value, item.raw, Pending, if item.queue.Some? then item.queue.value else DEFAULT_QUEUE, None, seen.now)
  }

  // ----- The request as a whole

  datatype Admission = Picked(picks: seq<nat>) | Stopped(index: nat)

  function Admit(cfg: Config, items: seq<Item>, seen: seq<Seen>): (r: Admission)
    requires |seen| == |items|
    ensures r.Stopped? ==> r.index < |items|
  {
    if items == [] then Picked([])
    else
      var n := |items| - 1;
      match Admit(cfg, items[..n], seen[..n])
      case Stopped(i) => Stopped(i)
      case Picked(p) =>
        match Judge(cfg, items[n], seen[n])
        case Fit => Picked(p + [n])
        case Unfit => Picked(p)
        case _ => Stopped(n)
  }

  /** An item that does not decode, or that gets as far as the token check and fails it. */
  predicate Stops(cfg: Config, item: Item, seen: Seen) {
    || seen.hash.None?
    || ((ShouldValidate(cfg, item) ==> seen.valid) && NamesChained(cfg, item) && !TokenOk(item, seen))
  }

  /** A request stops at its first item that does not decode or presents a wrong token.  If it
      does not stop, exactly the items that are valid or need no validation yet are picked. */
  lemma {:induction false} AdmitExact(cfg: Config, items: seq<Item>, seen: seq<Seen>, i: nat)
    requires |seen| == |items| && i < |items|
    ensures match Admit(cfg, items, seen)
            case Picked(p) => !Stops(cfg, items[i], seen[i]) && (i in p <==> !ShouldValidate(cfg, items[i]) || seen[i].valid)
            case Stopped(k) => (i < k ==> !Stops(cfg, items[i], seen[i])) && (i == k ==> Stops(cfg, items[i], seen[i]))
  {
    var n := |items| - 1;
    if i < n {
      assert items[..n][i] == items[i] && seen[..n][i] == seen[i];
      AdmitExact(cfg, items[..n], seen[..n], i);
    } else if Admit(cfg, items[..n], seen[..n]).Picked? {
      PicksInOrder(cfg, items[..n], seen[..n]);
    }
  }

  /** An item is skipped exactly when it decodes, fails validation or evaluation, and the server does not
      sign for it: it names no queue, or the queue it names, the default queue if that one is
      unknown, is not configured to be signed. */
  lemma SkippedExactly(cfg: Config, item: Item, seen: Seen)
    ensures Judge(cfg, item, seen) == Unfit <==>
            && seen.hash.Some? && !seen.valid
            && (|| item.queue == None
                || (item.queue.value in cfg.signing && !cfg.signing[item.queue.value])
                || (item.queue.value !in cfg.signing && "default" in cfg.signing && !cfg.signing["default"])
                || (item.queue.value !in cfg.signing && "default" !in cfg.signing))
  {
  }

  /** An item that is stored was decoded and, if it names a chained queue, presented the token in the
      map, no token counting as the empty one; it is stored as it came, Pending, without a slot, under
      its hash, in the queue it names or the default one. */
  lemma StoredExactly(cfg: Config, item: Item, seen: Seen)
    requires Judge(cfg, item, seen) == Fit
    ensures seen.hash.Some?
    ensures item.queue.Some? && item.queue.value in cfg.chained ==>
              && item.queue.value in seen.state
              && seen.state[item.queue.value] == (match item.lockToken case None => "" case Some(token) => token)
    ensures Row(item, seen) ==
            Transaction(seen.hash.value, item.raw, Pending, (match item.queue case None => "default" case Some(q) => q), None, seen.now)
  {
  }

  ghost predicate Decoded(items: seq<Item>, seen: seq<Seen>, picks: seq<nat>) {
    |seen| == |items| && forall k :: 0 <= k < |picks| ==> picks[k] < |items| && seen[picks[k]].hash.Some?
  }

  lemma {:induction false} PicksInOrder(cfg: Config, items: seq<Item>, seen: seq<Seen>)
    requires |seen| == |items| && Admit(cfg, items, seen).Picked?
    ensures var p := Admit(cfg, items, seen).picks;
            Decoded(items, seen, p) && forall k, l :: 0 <= k < l < |p| ==> p[k] < p[l]
  {
    if items != [] {
      var n := |items| - 1;
      PicksInOrder(cfg, items[..n], seen[..n]);
    }
  }

  function Rows(items: seq<Item>, seen: seq<Seen>, picks: seq<nat>): (r: seq<Transaction>)
    requires Decoded(items, seen, picks)
    ensures |r| == |picks| && forall k :: 0 <= k < |r| ==> r[k] == Row(items[picks[k]], seen[picks[k]])
  {
    if picks == [] then []
    else
      var i := picks[|picks| - 1];
      Rows(items, seen, picks[..|picks| - 1]) + [Row(items[i], seen[i])]
  }

  /** The queues to unlock: one signal per stored transaction that names a chained queue. */
  function Signals(cfg: Config, items: seq<Item>, picks: seq<nat>): (r: seq<Queue>)
    requires forall k :: 0 <= k < |picks| ==> picks[k] < |items|
  {
    if picks == [] then []
    else
      var item := items[picks[|picks| - 1]];
      Signals(cfg, items, picks[..|picks| - 1]) + (if NamesChained(cfg, item) then [item.queue.value] else [])
  }

  ghost function Naming(items: seq<Item>, picks: seq<nat>, q: Queue): (ks: set<nat>) {
    set k: nat | k < |picks| && picks[k] < |items| && items[picks[k]].queue == Some(q)
  }

  /** As many unlocks go to a queue as stored transactions name it, and none to a queue that is
      not chained. */
  lemma {:induction false} SignalsPerQueue(cfg: Config, items: seq<Item>, picks: seq<nat>, q: Queue)
    requires forall k :: 0 <= k < |picks| ==> picks[k] < |items|
    ensures multiset(Signals(cfg, items, picks))[q] == if q in cfg.chained then |Naming(items, picks, q)| else 0
  {
    if picks != [] {
      var n := |picks| - 1;
      var init := picks[..n];
      SignalsPerQueue(cfg, items, init, q);
      var named := items[picks[n]].queue == Some(q);
      assert Naming(items, picks, q) == Naming(items, init, q) + (if named then {n} else {});
      assert n !in Naming(items, init, q);
    }
  }

  /** Every stored row of a chained queue had its token checked, exactly unless the default
      queue is chained and a stored transaction names no queue: that one goes to the default
      queue without a check. */
  lemma {:induction false} ChainedRowsChecked(cfg: Config, items: seq<Item>, seen: seq<Seen>)
    requires |seen| == |items| && Admit(cfg, items, seen).Picked?
    ensures var picks := Admit(cfg, items, seen).picks;
            && Decoded(items, seen, picks)
            && ((forall k :: 0 <= k < |picks| && Rows(items, seen, picks)[k].queue in cfg.chained ==>
                   TokenOk(items[picks[k]], seen[picks[k]]))
                <==> !(DEFAULT_QUEUE in cfg.chained && exists k :: 0 <= k < |picks| && items[picks[k]].queue.None?))
  {
    PicksInOrder(cfg, items, seen);
    var picks := Admit(cfg, items, seen).picks;
    forall k | 0 <= k < |picks|
      ensures NamesChained(cfg, items[picks[k]]) ==> TokenOk(items[picks[k]], seen[picks[k]])
    {
      assert picks[k] in picks;
      AdmitExact(cfg, items, seen, picks[k]);
    }
    var rows := Rows(items, seen, picks);
    if DEFAULT_QUEUE in cfg.chained && exists k :: 0 <= k < |picks| && items[picks[k]].queue.None? {
      var k :| 0 <= k < |picks| && items[picks[k]].queue.None?;
      assert rows[k].queue in cfg.chained && !TokenOk(items[picks[k]], seen[picks[k]]);
    }
  }

  /** An accepted request adds its rows, under the ids it returns, and changes nothing else; it
      is accepted exactly when those ids are new and distinct. */
  lemma AcceptedRequest(t: Table, items: seq<Item>, seen: seq<Seen>, picks: seq<nat>)
    requires Decoded(items, seen, picks)
    ensures var rows := Rows(items, seen, picks);
            && (Insert(t, rows).Some? <==> Insertable(t, rows))
            && (Insert(t, rows).Some? ==>
                  var u := Insert(t, rows).value;
                  && u.Keys == t.Keys + Ids(rows)
                  && (forall id :: id in t ==> u[id] == t[id])
                  && (forall k :: 0 <= k < |picks| ==> rows[k].id in u && u[rows[k].id] == rows[k]))
  {
    var rows := Rows(items, seen, picks);
    InsertExact(t, rows);
    assert forall k :: 0 <= k < |rows| ==> rows[k].id in Ids(rows);
  }

  lemma AdmitNext(cfg: Config, items: seq<Item>, seen: seq<Seen>, i: nat)
    requires |seen| == |items| && i < |items| && Admit(cfg, items[..i], seen[..i]).Picked?
    ensures Admit(cfg, items[..i + 1], seen[..i + 1]) ==
            var p := Admit(cfg, items[..i], seen[..i]).picks;
            match Judge(cfg, items[i], seen[i])
            case Fit => Picked(p + [i])
            case Unfit => Picked(p)
            case _ => Stopped(i)
  {
    assert items[..i + 1][..i] == items[..i] && seen[..i + 1][..i] == seen[..i];
  }

  /** The three lists the handler fills as it goes. */
  datatype Batch = Batch(txs: seq<Transaction>, hashes: seq<Id>, chainedQueues: seq<Queue>)

  function Include(cfg: Config, b: Batch, item: Item, tx: Transaction): Batch {
    Batch(b.txs + [tx], b.hashes + [tx.id],
          if NamesChained(cfg, item) then b.chainedQueues + [item.queue.value] else b.chainedQueues)
  }

  function BatchOf(cfg: Config, items: seq<Item>, seen: seq<Seen>, picks: seq<nat>): Batch
    requires Decoded(items, seen, picks)
  {
    if picks == [] then Batch([], [], [])
    else
      var i := picks[|picks| - 1];
      Include(cfg, BatchOf(cfg, items, seen, picks[..|picks| - 1]), items[i], Row(items[i], seen[i]))
  }

  lemma BatchOne(cfg: Config, items: seq<Item>, seen: seq<Seen>, picks: seq<nat>, i: nat)
    requires Decoded(items, seen, picks) && i < |items| && seen[i].hash.Some?
    ensures Decoded(items, seen, picks + [i])
    ensures BatchOf(cfg, items, seen, picks + [i]) ==
            Include(cfg, BatchOf(cfg, items, seen, picks), items[i], Row(items[i], seen[i]))
  {
    assert (picks + [i])[..|picks|] == picks;
  }

  lemma {:induction false} BatchExact(cfg: Config, items: seq<Item>, seen: seq<Seen>, picks: seq<nat>)
    requires Decoded(items, seen, picks)
    ensures var b := BatchOf(cfg, items, seen, picks);
            && b.txs == Rows(items, seen, picks) && b.chainedQueues == Signals(cfg, items, picks)
            && |b.hashes| == |b.txs| && forall k :: 0 <= k < |b.txs| ==> b.hashes[k] == b.txs[k].id
  {
    if picks != [] { BatchExact(cfg, items, seen, picks[..|picks| - 1]); }
  }

  class SubmitService {
    const config: Config
    const storage: SqliteTransaction

    constructor (config: Config, storage: SqliteTransaction)
      ensures this.config == config && this.storage == storage
    {
      this.config, this.storage := config, storage;
    }

    /** `signals` are the queues unlocked, in order.  Nothing is stored and nothing is unlocked
        unless the whole request is accepted. */
    method SubmitTx(items: seq<Item>, seen: seq<Seen>) returns (result: Result, signals: seq<Queue>)
      requires |seen| == |items|
      modifies storage
      ensures match Admit(config, items, seen)
              case Stopped(i) =>
                && result == (if seen[i].hash.None? then InvalidTx(i) else InvalidToken)
                && storage.table == old(storage.table) && signals == []
              case Picked(picks) =>
                Decoded(items, seen, picks) &&
                var rows := Rows(items, seen, picks);
                if Insertable(old(storage.table), rows) then
                  && result.Accepted? && |result.refs| == |picks|
                  && (forall k :: 0 <= k < |picks| ==> result.refs[k] == rows[k].id)
                  && Insert(old(storage.table), rows) == Some(storage.table)
                  && signals == Signals(config, items, picks)
                else result == Internal && storage.table == old(storage.table) && signals == []
    {
      var admission, batch := Collect(items, seen);
      if admission.Stopped? {
        return if seen[admission.index].hash.None? then InvalidTx(admission.index) else InvalidToken, [];
      }
      BatchExact(config, items, seen, admission.picks);
      var ok := storage.Create(batch.txs);
      if !ok {
        return Internal, [];
      }
      return Accepted(batch.hashes), batch.chainedQueues;
    }

    /** The loop over the request, before anything is stored. */
    method Collect(items: seq<Item>, seen: seq<Seen>) returns (admission: Admission, batch: Batch)
      requires |seen| == |items|
      ensures admission == Admit(config, items, seen)
      ensures admission.Picked? ==>
                Decoded(items, seen, admission.picks) && batch == BatchOf(config, items, seen, admission.picks)
    {
      var picks: seq<nat> := [];
      batch := Batch([], [], []);
      for i := 0 to |items|
        invariant Admit(config, items[..i], seen[..i]) == Picked(picks)
        invariant Decoded(items, seen, picks) && batch == BatchOf(config, items, seen, picks)
      {
        AdmitNext(config, items, seen, i);
        var verdict, tx := Consider(items[i], seen[i]);
        if verdict.BadTx? || verdict.BadToken? {
          StopsAt(config, items, seen, i);
          return Stopped(i), batch;
        } else if verdict.Fit? {
          BatchOne(config, items, seen, picks, i);
          picks := picks + [i];
          batch := Include(config, batch, items[i], tx);
        }
      }
      assert items[..|items|] == items && seen[..|items|] == seen;
      admission := Picked(picks);
    }

    /** Decoding, validation and token check of one item, and the row it would become. */
    method Consider(item: Item, s: Seen) returns (v: Verdict, tx: Transaction)
      ensures v == Judge(config, item, s)
      ensures v.Fit? ==> tx == Row(item, s)
    {
      tx := Transaction("", item.raw, Pending, DEFAULT_QUEUE, None, s.now);
      if s.hash.None? {
        return BadTx, tx;
      }
      tx := tx.(id := s.hash.value);
      if ShouldValidate(config, item) && !s.valid {
        return Unfit, tx;
      }
      if item.queue.Some? {
        var queue := item.queue.value;
        if queue in config.chained {
          var token := if item.lockToken.Some? then item.lockToken.value else "";
          if !(queue in s.state && s.state[queue] == token) {
            return BadToken, tx;
          }
        }
        tx := tx.(queue := queue);
      }
      return Fit, tx;
    }
  }

  lemma {:induction false} StopsAt(cfg: Config, items: seq<Item>, seen: seq<Seen>, i: nat)
    requires |seen| == |items| && i < |items|
    requires Admit(cfg, items[..i], seen[..i]).Picked? && Stops(cfg, items[i], seen[i])
    ensures Admit(cfg, items, seen) == Stopped(i)
  {
    var n := |items| - 1;
    if i < n {
      assert items[..n][..i] == items[..i] && seen[..n][..i] == seen[..i];
      StopsAt(cfg, items[..n], seen[..n], i);
    }
  }
}
