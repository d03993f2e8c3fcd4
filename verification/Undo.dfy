/** What the ledger adapter's undo does to chain soundness.

For an undone block the adapter sends a rollback to that block's own slot, and the monitor keeps
slots up to the point it is given, so the rows confirmed in the undone block stay Confirmed. */
module Undo {
  import opened Storage
  import opened Monitor
  import opened Pipeline
  import opened Lifecycle

  /** Every Confirmed row sits in a block of the chain at its slot. */
  ghost predicate Sound(t: Table, chain: seq<Block>) {
    forall id :: id in t && t[id].status == Confirmed ==> t[id].slot.Some? && OnChain(chain, t[id].slot.value, id)
  }

  function UndoEvent(b: Block, hash: Bytes): Event { Rollback(b.slot, hash) }

  ghost predicate AllBelow(chain: seq<Block>, slot: Slot) { forall c :: c in chain ==> c.slot < slot }

  /** Undoing the last block leaves a table that is sound on the chain without it exactly when no
      row was confirmed in that block. */
  lemma UndoExactly(cfg: Config, t: Table, chain: seq<Block>, b: Block, hash: Bytes)
    requires Keyed(t) && Sound(t, chain + [b]) && AllBelow(chain, b.slot)
    ensures Process(cfg, t, UndoEvent(b, hash)).Done?
    ensures Sound(Process(cfg, t, UndoEvent(b, hash)).table, chain) <==>
            forall id :: id in t && t[id].status == Confirmed ==> t[id].slot != Some(b.slot)
  {
    EventExact(cfg, t, UndoEvent(b, hash));
    var u := Process(cfg, t, UndoEvent(b, hash)).table;
    forall id | id in t && t[id].status == Confirmed ensures u[id] == t[id] {
      var c :| c in chain + [b] && c.slot == t[id].slot.value && id in c.txs;
    }
    if forall id :: id in t && t[id].status == Confirmed ==> t[id].slot != Some(b.slot) {
      forall id | id in u && u[id].status == Confirmed ensures u[id].slot.Some? && OnChain(chain, u[id].slot.value, id) {
        var c :| c in chain + [b] && c.slot == t[id].slot.value && id in c.txs;
        assert c in chain;
      }
    } else {
      var id :| id in t && t[id].status == Confirmed && t[id].slot == Some(b.slot);
      assert u[id] == t[id] && !OnChain(chain, b.slot, id);
    }
  }

  /** A rollback to a point below the block, and not below the rest of the chain, is always sound. */
  lemma RollbackBelowIsSound(cfg: Config, t: Table, chain: seq<Block>, b: Block, p: Slot, hash: Bytes)
    requires Keyed(t) && Sound(t, chain + [b]) && p < b.slot
    ensures Process(cfg, t, Rollback(p, hash)).Done? && Sound(Process(cfg, t, Rollback(p, hash)).table, chain)
  {
    EventExact(cfg, t, Rollback(p, hash));
    var u := Process(cfg, t, Rollback(p, hash)).table;
    forall id | id in u && u[id].status == Confirmed ensures u[id].slot.Some? && OnChain(chain, u[id].slot.value, id) {
      var c :| c in chain + [b] && c.slot == t[id].slot.value && id in c.txs;
      assert c in chain;
    }
  }

  /** One row confirmed in the only block, which is then undone. */
  lemma UndoFails(cfg: Config)
    ensures var row := Transaction("a", [], Confirmed, "default", Some(5), 0);
            var t, b := map["a" := row], Block(5, ["a"]);
            && Sound(t, [b]) && Process(cfg, t, UndoEvent(b, [])) == Done(t) && !Sound(t, [])
  {
    var row := Transaction("a", [], Confirmed, "default", Some(5), 0);
    var t, b := map["a" := row], Block(5, ["a"]);
    assert b in [b] && "a" in b.txs;
    EventExact(cfg, t, UndoEvent(b, []));
    assert "a" in t && !OnChain([], 5, "a");
  }

  /** In every run, a table the monitor is not working on is sound on the chain it followed, so
      there the undo of its last block is sound exactly when no row was confirmed in it. */
  lemma UndoInRun(cfg: Settings, ws: seq<World>, acts: seq<Action>, i: nat, chain: seq<Block>, b: Block, hash: Bytes)
    requires Lifecycle.Run(cfg, ws, acts) && i < |ws| && ws[i].monitor.Following?
    requires ws[i].chain == chain + [b] && AllBelow(chain, b.slot)
    ensures Sound(Process(cfg.monitor, ws[i].table, UndoEvent(b, hash)).table, chain) <==>
            forall id :: id in ws[i].table && ws[i].table[id].status == Confirmed ==> ws[i].table[id].slot != Some(b.slot)
  {
    RunKeepsInv(cfg, ws, acts, i);
    UndoExactly(cfg.monitor, ws[i].table, chain, b, hash);
  }
}
