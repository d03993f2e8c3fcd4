/** The mempool a peer connection serves from: a bounded first-in first-out list. */
module Mempool {
  import opened Storage

  type Hash = Bytes

  const CAP: nat := 100

  datatype Tx = Tx(hash: Hash, era: nat, bytes: Bytes)

  /** Era numbers start at 1. */
  type Era = e: nat | 0 < e witness 1

  /** What decoding a transaction yields. */
  datatype Decoded = Decoded(hash: Hash, era: Era)

  type Decoder = Bytes -> Option<Decoded>

  /** The mempool entry of some bytes; the entry's era counts from 0. */
  function FromRaw(decode: Decoder, raw: Bytes): Option<Tx> {
    match decode(raw)
    case None => None
    case Some(d) => Some(Tx(d.hash, d.era - 1, raw))
  }

  /** Every entry carries the hash and the era of its own bytes. */
  ghost predicate Genuine(decode: Decoder, txs: seq<Tx>) {
    forall i :: 0 <= i < |txs| ==> decode(txs[i].bytes) == Some(Decoded(txs[i].hash, txs[i].era + 1))
  }

  /** The position of the first entry with this hash, or the length. */
  function IndexOf(txs: seq<Tx>, hash: Hash): (i: nat)
    ensures i <= |txs|
    ensures i < |txs| ==> txs[i].hash == hash
    ensures forall k :: 0 <= k < i ==> txs[k].hash != hash
  {
    if txs == [] then 0 else if txs[0].hash == hash then 0 else 1 + IndexOf(txs[1..], hash)
  }

  class Mempool {
    var inflight: seq<Tx>
    ghost var received: seq<Tx>       // everything that ever came in
    ghost var acknowledged: nat
    ghost var evicted: nat

    /** What is in flight is what came in, in order, without the oldest ones, of which each was
        acknowledged or pushed out. */
    ghost predicate Valid()
      reads this
    {
      && acknowledged + evicted <= |received|
      && inflight == received[acknowledged + evicted..]
      && |inflight| <= CAP
    }

    constructor ()
      ensures Valid() && received == [] && acknowledged == evicted == 0
    {
      inflight, received, acknowledged, evicted := [], [], 0, 0;
    }

    method Receive(tx: Tx)
      requires Valid()
      modifies this
      ensures Valid() && received == old(received) + [tx] && acknowledged == old(acknowledged)
      ensures evicted == old(evicted) + (if old(|inflight|) == CAP then 1 else 0)
    {
      if |inflight| >= CAP {
        inflight := inflight[1..];
        evicted := evicted + 1;
      }
      inflight := inflight + [tx];
      received := received + [tx];
    }

    method ReceiveRaw(decode: Decoder, cbor: Bytes) returns (r: Option<Tx>)
      requires Valid()
      modifies this
      ensures Valid() && r == FromRaw(decode, cbor) && acknowledged == old(acknowledged)
      ensures r.None? ==> inflight == old(inflight) && received == old(received) && evicted == old(evicted)
      ensures r.Some? ==> received == old(received) + [r.value]
      ensures r.Some? ==> evicted == old(evicted) + (if old(|inflight|) == CAP then 1 else 0)
    {
      r := FromRaw(decode, cbor);
      if r.Some? {
        Receive(r.value);
      }
    }

    /** Draining more than there is panics, before anything is removed. */
    method Acknowledge(count: nat) returns (ok: bool)
      requires Valid()
      modifies this
      ensures Valid() && received == old(received) && evicted == old(evicted)
      ensures ok <==> count <= old(|inflight|)
      ensures acknowledged == if ok then old(acknowledged) + count else old(acknowledged)
    {
      ok := count <= |inflight|;
      if ok {
        inflight := inflight[count..];
        acknowledged := acknowledged + count;
      }
    }

    method FindInflight(hash: Hash) returns (r: Option<Tx>)
      ensures r == if IndexOf(inflight, hash) < |inflight| then Some(inflight[IndexOf(inflight, hash)]) else None
    {
      for i := 0 to |inflight|
        invariant forall k :: 0 <= k < i ==> inflight[k].hash != hash
      {
        if inflight[i].hash == hash {
          return Some(inflight[i]);
        }
      }
      return None;
    }
  }
}
