/** The responder of the transaction submission protocol: it answers the remote side's
requests from the mempool.  The remote side acknowledges ids by count, so both sides must
agree on which ids are outstanding and in which order. */
module Peer {
  import opened Storage
  import opened Mempool

  /** An id as announced: era, hash and the size truncated to 32 bits. */
  datatype TxId = TxId(era: nat, hash: Hash, size: nat)

  datatype Body = Body(era: nat, bytes: Bytes)

  function Announcement(tx: Tx): TxId { TxId(tx.era, tx.hash, |tx.bytes| % 0x1_0000_0000) }

  function Announcements(txs: seq<Tx>): (r: seq<TxId>)
    ensures |r| == |txs| && forall i :: 0 <= i < |txs| ==> r[i] == Announcement(txs[i])
  {
    seq(|txs|, i requires 0 <= i < |txs| => Announcement(txs[i]))
  }

  // ----- Collecting payloads

  /** One outcome of waiting on the input port. */
  datatype Recv = Message(payload: Bytes) | Lagged | Timeout

  datatype Collected = Ready(txs: seq<Bytes>) | PortError | Waiting

  function Messages(feed: seq<Recv>): (r: seq<Bytes>) {
    if feed == [] then []
    else
      var last := feed[|feed| - 1];
      Messages(feed[..|feed| - 1]) + (if last.Message? then [last.payload] else [])
  }

  function MessageAt(feed: seq<Recv>): set<nat> { set k: nat | k < |feed| && feed[k].Message? }

  lemma MessageAtNext(feed: seq<Recv>)
    requires feed != []
    ensures var n := |feed| - 1;
            var init := MessageAt(feed[..n]);
            n !in init && MessageAt(feed) == if feed[n].Message? then init + {n} else init
  {
  }

  lemma {:induction false} MessagesCount(feed: seq<Recv>)
    ensures |Messages(feed)| == |MessageAt(feed)|
  {
    if feed != [] {
      MessageAtNext(feed);
      MessagesCount(feed[..|feed| - 1]);
    }
  }

  lemma {:induction false} MessagePlace(feed: seq<Recv>, i: nat)
    requires i < |feed| && feed[i].Message?
    ensures |Messages(feed[..i])| < |Messages(feed)| && Messages(feed)[|Messages(feed[..i])|] == feed[i].payload
  {
    var n := |feed| - 1;
    if i < n {
      assert feed[..n][..i] == feed[..i];
      MessagePlace(feed[..n], i);
    }
  }

  /** Every message of the feed is listed once, in the order of the feed: message i comes at the
      place given by the number of messages before it. */
  lemma MessagesExact(feed: seq<Recv>, i: nat)
    requires i < |feed|
    ensures |Messages(feed)| == |set k: nat | k < |feed| && feed[k].Message?|
    ensures feed[i].Message? ==>
              |Messages(feed[..i])| < |Messages(feed)| && Messages(feed)[|Messages(feed[..i])|] == feed[i].payload
  {
    MessagesCount(feed);
    if feed[i].Message? { MessagePlace(feed, i); }
  }

  /** The first `n` outcomes give enough: `req` messages, or some and a pause before or after them. */
  predicate ReadyAt(feed: seq<Recv>, req: nat, n: nat)
    requires n <= |feed|
  {
    var got := Messages(feed[..n]);
    |got| == req || (got != [] && exists k :: 0 <= k < n && feed[k].Timeout?)
  }

  /** Nothing has come, a pause was met, and the wait without a time limit ends in an error. */
  predicate FailsAt(feed: seq<Recv>, n: nat)
    requires n <= |feed|
  {
    n >= 2 && feed[n - 2].Timeout? && feed[n - 1].Lagged? && Messages(feed[..n]) == []
  }

  /** Nothing before `n` settles the matter. */
  predicate OpenUntil(feed: seq<Recv>, req: nat, n: nat)
    requires n <= |feed|
  {
    forall k :: 0 <= k < n ==> !ReadyAt(feed, req, k) && !FailsAt(feed, k)
  }

  predicate NoPause(feed: seq<Recv>, n: nat)
    requires n <= |feed|
  {
    forall k :: 0 <= k < n ==> !feed[k].Timeout?
  }

  lemma OneMore(feed: seq<Recv>, n: nat)
    requires n < |feed|
    ensures Messages(feed[..n + 1]) == Messages(feed[..n]) + if feed[n].Message? then [feed[n].payload] else []
  {
    assert feed[..n + 1][..n] == feed[..n];
  }

  /** Nothing yet and a pause just now: that does not settle it. */
  lemma StillOpen(feed: seq<Recv>, req: nat, n: nat)
    requires 0 < n <= |feed| && req > 0 && OpenUntil(feed, req, n) && Messages(feed[..n]) == [] && feed[n - 1].Timeout?
    ensures !ReadyAt(feed, req, n) && !FailsAt(feed, n)
    ensures n < |feed| ==> OpenUntil(feed, req, n + 1)
  {
  }

  /** Takes up to `req` messages off the port, giving up at the first pause once it has one; with none
      it then waits for one without a time limit.  It stops at the first outcome that settles the
      matter, returns every message taken off until then, in order, or an error when that wait ends
      in one, and waits exactly when nothing in the feed settles it. */
  method CollectTransactions(feed: seq<Recv>, req: nat) returns (r: Collected, used: nat)
    ensures used <= |feed| && OpenUntil(feed, req, used)
    ensures match r
            case Ready(txs) => ReadyAt(feed, req, used) && txs == Messages(feed[..used])
            case PortError => FailsAt(feed, used) && !ReadyAt(feed, req, used)
            case Waiting => used == |feed| && !ReadyAt(feed, req, used) && !FailsAt(feed, used)
    ensures r.Ready? ==> |r.txs| <= req && (req > 0 ==> r.txs != [])
    ensures r.Ready? && |r.txs| < req ==> exists i :: 0 <= i < used && feed[i].Timeout?
  {
    var txs: seq<Bytes> := [];
    var remaining := req;
    used := 0;
    while remaining > 0
      invariant used <= |feed| && txs == Messages(feed[..used]) && |txs| + remaining == req
      invariant OpenUntil(feed, req, used) && NoPause(feed, used)
      decreases |feed| - used
    {
      if used == |feed| {
        return Waiting, used;
      }
      OneMore(feed, used);
      var next := feed[used];
      used := used + 1;
      match next {
        case Message(payload) =>
          txs := txs + [payload];
          remaining := remaining - 1;
        case Lagged =>
        case Timeout =>
          if txs == [] {
            r, used := AwaitFirst(feed, req, used);
            return;
          }
          break;
      }
    }
    r := Ready(txs);
  }

  /** The wait after a pause that found nothing. */
  method AwaitFirst(feed: seq<Recv>, req: nat, start: nat) returns (r: Collected, used: nat)
    requires 0 < start <= |feed| && req > 0 && OpenUntil(feed, req, start)
    requires Messages(feed[..start]) == [] && feed[start - 1].Timeout? && NoPause(feed, start - 1)
    ensures used <= |feed| && OpenUntil(feed, req, used)
    ensures match r
            case Ready(txs) => ReadyAt(feed, req, used) && txs == Messages(feed[..used]) && |txs| == 1
            case PortError => FailsAt(feed, used) && !ReadyAt(feed, req, used)
            case Waiting => used == |feed| && !ReadyAt(feed, req, used) && !FailsAt(feed, used)
    ensures r.Ready? ==> exists i :: 0 <= i < used && feed[i].Timeout?
  {
    used := start;
    while used < |feed| && feed[used].Timeout?
      invariant start <= used <= |feed| && Messages(feed[..used]) == [] && feed[used - 1].Timeout?
      invariant OpenUntil(feed, req, used)
    {
      StillOpen(feed, req, used);
      OneMore(feed, used);
      used := used + 1;
    }
    StillOpen(feed, req, used);
    if used == |feed| {
      return Waiting, used;
    }
    OneMore(feed, used);
    used := used + 1;
    assert feed[used - 2].Timeout?;
    if feed[used - 1].Lagged? {
      return PortError, used;
    }
    return Ready([feed[used - 1].payload]), used;
  }

  // ----- The connection

  datatype State = State(inflight: seq<Tx>, received: seq<Tx>, acked: nat, evicted: nat, announced: seq<TxId>, alive: bool)

  datatype Request =
    | TxIds(ack: nat, req: nat, raws: seq<Bytes>)     // with the payloads collected for it
    | Txs(hashes: seq<Hash>)

  const START := State([], [], 0, 0, [], true)

  function Admit(s: State, tx: Tx): State {
    var full := |s.inflight| >= CAP;
    s.(inflight := (if full then s.inflight[1..] else s.inflight) + [tx],
       received := s.received + [tx],
       evicted := if full then s.evicted + 1 else s.evicted)
  }

  /** The payloads that decode, as mempool entries. */
  function Decode(decode: Decoder, raws: seq<Bytes>): (r: seq<Tx>)
    ensures |r| <= |raws|
  {
    if raws == [] then []
    else
      var last := FromRaw(decode, raws[|raws| - 1]);
      Decode(decode, raws[..|raws| - 1]) + (if last.Some? then [last.value] else [])
  }

  function AdmitAll(s: State, txs: seq<Tx>): State {
    if txs == [] then s else Admit(AdmitAll(s, txs[..|txs| - 1]), txs[|txs| - 1])
  }

  function Acknowledged(s: State, ack: nat): State
    requires ack <= |s.inflight|
  {
    s.(inflight := s.inflight[ack..], acked := s.acked + ack)
  }

  function Serve(decode: Decoder, s: State, r: Request): State {
    match r
    case Txs(_) => s
    case TxIds(ack, _, raws) =>
      if ack > |s.inflight| then s.(alive := false)
      else
        var txs := Decode(decode, raws);
        var t := AdmitAll(Acknowledged(s, ack), txs);
        t.(announced := t.announced + Announcements(txs))
  }

  ghost predicate Run(decode: Decoder, ss: seq<State>, rs: seq<Request>) {
    && |ss| == |rs| + 1 && ss[0] == START
    && forall i :: 0 <= i < |rs| ==> Answered(decode, ss[i], rs[i], ss[i + 1])
  }

  ghost predicate Answered(decode: Decoder, s: State, r: Request, s': State) {
    && s.alive && s' == Serve(decode, s, r)
    && (r.TxIds? ==> |r.raws| <= r.req)
  }

  /** The ids the remote side knows of and has not acknowledged. */
  function Outstanding(s: State): seq<TxId> {
    if s.acked <= |s.announced| then s.announced[s.acked..] else []
  }

  /** What is in flight is what came in without the oldest entries. */
  ghost predicate Suffix(s: State) {
    && s.acked + s.evicted <= |s.received|
    && s.inflight == s.received[s.acked + s.evicted..]
    && |s.inflight| <= CAP
  }

  ghost predicate WindowOk(decode: Decoder, s: State) {
    Suffix(s) && s.announced == Announcements(s.received) && Genuine(decode, s.received)
  }

  lemma AdmitOne(s: State, tx: Tx)
    requires Suffix(s)
    ensures Suffix(Admit(s, tx)) && |Admit(s, tx).inflight| == if |s.inflight| < CAP then |s.inflight| + 1 else CAP
  {
    var t := Admit(s, tx);
    assert t.inflight == t.received[t.acked + t.evicted..];
  }

  lemma {:induction false} AdmitAllExact(s: State, txs: seq<Tx>)
    requires Suffix(s)
    ensures var t, n := AdmitAll(s, txs), |s.inflight| + |txs|;
            && Suffix(t) && |t.inflight| == (if n > CAP then CAP else n)
            && t.received == s.received + txs && t.acked == s.acked && t.announced == s.announced && t.alive == s.alive
            && t.evicted == s.evicted + (if n > CAP then n - CAP else 0)
  {
    if txs == [] {
      assert s.received + txs == s.received;
    } else {
      var init, tx := txs[..|txs| - 1], txs[|txs| - 1];
      AdmitAllExact(s, init);
      AdmitOne(AdmitAll(s, init), tx);
      assert txs == init + [tx];
      assert s.received + txs == s.received + init + [tx];
    }
  }

  lemma {:induction false} DecodeGenuine(decode: Decoder, raws: seq<Bytes>)
    ensures Genuine(decode, Decode(decode, raws))
  {
    if raws != [] { DecodeGenuine(decode, raws[..|raws| - 1]); }
  }

  function Decodable(decode: Decoder, raws: seq<Bytes>): set<nat> {
    set k: nat | k < |raws| && decode(raws[k]).Some?
  }

  lemma DecodableNext(decode: Decoder, raws: seq<Bytes>)
    requires raws != []
    ensures var n := |raws| - 1;
            var init := Decodable(decode, raws[..n]);
            n !in init && Decodable(decode, raws) == if decode(raws[n]).Some? then init + {n} else init
  {
  }

  lemma {:induction false} DecodeCount(decode: Decoder, raws: seq<Bytes>)
    ensures |Decode(decode, raws)| == |Decodable(decode, raws)|
  {
    if raws != [] {
      DecodableNext(decode, raws);
      DecodeCount(decode, raws[..|raws| - 1]);
    }
  }

  lemma {:induction false} DecodePlace(decode: Decoder, raws: seq<Bytes>, i: nat)
    requires i < |raws| && decode(raws[i]).Some?
    ensures var place, d := |Decode(decode, raws[..i])|, decode(raws[i]).value;
            place < |Decode(decode, raws)| && Decode(decode, raws)[place] == Tx(d.hash, d.era - 1, raws[i])
  {
    var n := |raws| - 1;
    if i < n {
      assert raws[..n][..i] == raws[..i];
      DecodePlace(decode, raws[..n], i);
    }
  }

  /** The entries are those of the payloads that decode, in order: the one of payload i comes at the
      place given by the entries before it. */
  lemma DecodeExact(decode: Decoder, raws: seq<Bytes>, i: nat)
    requires i < |raws|
    ensures |Decode(decode, raws)| == |set k: nat | k < |raws| && decode(raws[k]).Some?|
    ensures decode(raws[i]).Some? ==>
              var place, d := |Decode(decode, raws[..i])|, decode(raws[i]).value;
              place < |Decode(decode, raws)| && Decode(decode, raws)[place] == Tx(d.hash, d.era - 1, raws[i])
  {
    DecodeCount(decode, raws);
    if decode(raws[i]).Some? { DecodePlace(decode, raws, i); }
  }

  lemma AnnounceBoth(a: seq<Tx>, b: seq<Tx>)
    ensures Announcements(a + b) == Announcements(a) + Announcements(b)
  {
  }

  /** Acknowledged entries leave the window at its old end. */
  lemma AcknowledgeOk(s: State, ack: nat)
    requires Suffix(s) && ack <= |s.inflight|
    ensures Suffix(Acknowledged(s, ack))
  {
    assert s.inflight[ack..] == s.received[s.acked + ack + s.evicted..];
  }

  lemma ServeCounts(decode: Decoder, s: State, r: Request)
    requires Suffix(s) && r.TxIds? && r.ack <= |s.inflight|
    ensures var t, txs := Serve(decode, s, r), Decode(decode, r.raws);
            var n := |s.inflight| - r.ack + |txs|;
            && Suffix(t) && t.evicted == s.evicted + (if n > CAP then n - CAP else 0)
            && t.acked == s.acked + r.ack && t.alive == s.alive
            && t.received == s.received + txs && t.announced == s.announced + Announcements(txs)
  {
    var u := Acknowledged(s, r.ack);
    AcknowledgeOk(s, r.ack);
    AdmitAllExact(u, Decode(decode, r.raws));
    Announces(AdmitAll(u, Decode(decode, r.raws)), Announcements(Decode(decode, r.raws)));
  }

  lemma Announces(s: State, ids: seq<TxId>)
    requires Suffix(s)
    ensures Suffix(s.(announced := s.announced + ids))
  {
  }

  lemma GenuineBoth(decode: Decoder, a: seq<Tx>, b: seq<Tx>)
    requires Genuine(decode, a) && Genuine(decode, b)
    ensures Genuine(decode, a + b)
  {
  }

  /** A request for ids evicts exactly what does not fit beside the entries it leaves. */
  lemma ServeExact(decode: Decoder, s: State, r: Request)
    requires WindowOk(decode, s) && r.TxIds? && r.ack <= |s.inflight|
    ensures WindowOk(decode, Serve(decode, s, r))
    ensures var n := |s.inflight| - r.ack + |Decode(decode, r.raws)|;
            Serve(decode, s, r).evicted == s.evicted + (if n > CAP then n - CAP else 0)
    ensures Serve(decode, s, r).acked == s.acked + r.ack && Serve(decode, s, r).alive == s.alive
    ensures Serve(decode, s, r).received == s.received + Decode(decode, r.raws)
  {
    ServeCounts(decode, s, r);
    DecodeGenuine(decode, r.raws);
    GenuineBoth(decode, s.received, Decode(decode, r.raws));
    AnnounceBoth(s.received, Decode(decode, r.raws));
  }

  lemma {:induction false} RunKeepsWindow(decode: Decoder, ss: seq<State>, rs: seq<Request>, i: nat)
    requires Run(decode, ss, rs) && i < |ss|
    ensures WindowOk(decode, ss[i])
  {
    if i > 0 {
      RunKeepsWindow(decode, ss, rs, i - 1);
      assert Answered(decode, ss[i - 1], rs[i - 1], ss[i]);
      if rs[i - 1].TxIds? && rs[i - 1].ack <= |ss[i - 1].inflight| { ServeExact(decode, ss[i - 1], rs[i - 1]); }
    }
  }

  /** In every run, the k-th id announced carries hash, era and size of bytes that came in: the ones
      the k-th entry serves, with the size cut to 32 bits. */
  lemma AnnouncedExactly(decode: Decoder, ss: seq<State>, rs: seq<Request>, i: nat, k: nat)
    requires Run(decode, ss, rs) && i < |ss| && k < |ss[i].announced|
    ensures k < |ss[i].received|
    ensures var id, bytes := ss[i].announced[k], ss[i].received[k].bytes;
            decode(bytes) == Some(Decoded(id.hash, id.era + 1)) && id.size == |bytes| % 0x1_0000_0000
  {
    RunKeepsWindow(decode, ss, rs, i);
  }

  lemma OutstandingLength(s: State)
    requires Suffix(s) && s.announced == Announcements(s.received)
    ensures |Outstanding(s)| == |s.inflight| + s.evicted
  {
  }

  lemma SameWindow(s: State)
    requires Suffix(s) && s.announced == Announcements(s.received) && s.evicted == 0
    ensures Announcements(s.inflight) == Outstanding(s)
  {
    OutstandingLength(s);
    forall k | 0 <= k < |s.inflight| ensures Announcements(s.inflight)[k] == Outstanding(s)[k] {
      assert s.inflight[k] == s.received[s.acked + k];
    }
  }

  lemma WindowByEviction(decode: Decoder, s: State)
    requires WindowOk(decode, s)
    ensures Announcements(s.inflight) == Outstanding(s) <==> s.evicted == 0
    ensures |Outstanding(s)| == |s.inflight| + s.evicted
  {
    OutstandingLength(s);
    if s.evicted == 0 { SameWindow(s); }
  }

  lemma WindowsByEviction(decode: Decoder, ss: seq<State>, rs: seq<Request>, i: nat)
    requires Run(decode, ss, rs) && i < |ss|
    ensures WindowOk(decode, ss[i])
    ensures Announcements(ss[i].inflight) == Outstanding(ss[i]) <==> ss[i].evicted == 0
    ensures |Outstanding(ss[i])| == |ss[i].inflight| + ss[i].evicted
  {
    RunKeepsWindow(decode, ss, rs, i);
    WindowByEviction(decode, ss[i]);
  }

  /** The ids left outstanding by a request, together with the ones announced in reply to it, fit
      the mempool; the remote side can tell before and after. */
  predicate Fits(decode: Decoder, s: State, r: Request) {
    r.TxIds? ==> |Outstanding(s)| - r.ack + |Decode(decode, r.raws)| <= 100
  }

  lemma EvictedStep(decode: Decoder, s: State, r: Request, s': State)
    requires WindowOk(decode, s) && Answered(decode, s, r, s') && s'.alive
    ensures s'.evicted == 0 <==> s.evicted == 0 && Fits(decode, s, r)
  {
    WindowByEviction(decode, s);
    if r.TxIds? { ServeExact(decode, s, r); }
  }

  /** Nothing has been pushed out exactly when every request so far fitted. */
  lemma {:induction false} NothingEvictedExactly(decode: Decoder, ss: seq<State>, rs: seq<Request>, i: nat)
    requires Run(decode, ss, rs) && i < |ss| && ss[i].alive
    ensures ss[i].evicted == 0 <==> forall k :: 0 <= k < i ==> Fits(decode, ss[k], rs[k])
  {
    if i > 0 {
      assert Answered(decode, ss[i - 1], rs[i - 1], ss[i]);
      RunKeepsWindow(decode, ss, rs, i - 1);
      EvictedStep(decode, ss[i - 1], rs[i - 1], ss[i]);
      NothingEvictedExactly(decode, ss, rs, i - 1);
    }
  }

  /** In every run, both sides see the same window, in the same order, exactly when every request
      so far fitted. */
  lemma WindowsAgreeExactly(decode: Decoder, ss: seq<State>, rs: seq<Request>, i: nat)
    requires Run(decode, ss, rs) && i < |ss| && ss[i].alive
    ensures Announcements(ss[i].inflight) == Outstanding(ss[i]) <==> forall k :: 0 <= k < i ==> Fits(decode, ss[k], rs[k])
  {
    WindowsByEviction(decode, ss, rs, i);
    NothingEvictedExactly(decode, ss, rs, i);
  }

  /** A remote side that acknowledges all it knows of makes the responder panic exactly when some
      earlier request did not fit. */
  lemma AcknowledgeAll(decode: Decoder, ss: seq<State>, rs: seq<Request>, i: nat, r: Request)
    requires Run(decode, ss, rs) && i < |ss| && ss[i].alive
    requires r.TxIds? && r.ack == |Outstanding(ss[i])|
    ensures Serve(decode, ss[i], r).alive <==> forall k :: 0 <= k < i ==> Fits(decode, ss[k], rs[k])
  {
    RunKeepsWindow(decode, ss, rs, i);
    NothingEvictedExactly(decode, ss, rs, i);
    AcknowledgeOutstanding(decode, ss[i], r);
  }

  lemma AcknowledgeOutstanding(decode: Decoder, s: State, r: Request)
    requires WindowOk(decode, s) && s.alive && r.TxIds? && r.ack == |Outstanding(s)|
    ensures Serve(decode, s, r).alive <==> s.evicted == 0
  {
    WindowByEviction(decode, s);
    if r.ack <= |s.inflight| { ServeCounts(decode, s, r); }
  }

  /** The remote side acknowledges only what is outstanding and never has more than 100 ids
      outstanding or asked for. */
  predicate Disciplined(s: State, r: Request) {
    r.TxIds? ==> r.ack <= |Outstanding(s)| && |Outstanding(s)| - r.ack + r.req <= 100
  }

  /** With such a remote side nothing is ever pushed out, the responder never panics and the
      mempool holds exactly the outstanding ids, in order. */
  lemma {:induction false} DisciplinedWindow(decode: Decoder, ss: seq<State>, rs: seq<Request>, i: nat)
    requires Run(decode, ss, rs) && i < |ss|
    requires forall k :: 0 <= k < |rs| ==> Disciplined(ss[k], rs[k])
    ensures ss[i].alive && ss[i].evicted == 0 && Announcements(ss[i].inflight) == Outstanding(ss[i])
  {
    if i > 0 {
      DisciplinedWindow(decode, ss, rs, i - 1);
      RunKeepsWindow(decode, ss, rs, i - 1);
      assert Answered(decode, ss[i - 1], rs[i - 1], ss[i]) && Disciplined(ss[i - 1], rs[i - 1]);
      DisciplinedStep(decode, ss[i - 1], rs[i - 1], ss[i]);
    }
    WindowsByEviction(decode, ss, rs, i);
  }

  lemma DisciplinedStep(decode: Decoder, s: State, r: Request, s': State)
    requires WindowOk(decode, s) && s.evicted == 0 && Answered(decode, s, r, s') && Disciplined(s, r)
    ensures s'.alive && s'.evicted == 0
  {
    WindowByEviction(decode, s);
    if r.TxIds? { ServeCounts(decode, s, r); }
  }

  // ----- Bodies

  function Bodies(inflight: seq<Tx>, hashes: seq<Hash>): (r: seq<Body>)
    ensures |r| <= |hashes|
  {
    if hashes == [] then []
    else
      var k := IndexOf(inflight, hashes[|hashes| - 1]);
      Bodies(inflight, hashes[..|hashes| - 1]) +
        (if k < |inflight| then [Body(inflight[k].era, inflight[k].bytes)] else [])
  }

  predicate Knows(txs: seq<Tx>, hash: Hash) { exists i :: 0 <= i < |txs| && txs[i].hash == hash }

  /** Body k decodes to hash k, in the era it is sent with. */
  ghost predicate OnePerHash(decode: Decoder, hashes: seq<Hash>, bodies: seq<Body>) {
    && |bodies| == |hashes|
    && forall k :: 0 <= k < |hashes| ==> decode(bodies[k].bytes) == Some(Decoded(hashes[k], bodies[k].era + 1))
  }

  lemma {:induction false} BodiesCount(inflight: seq<Tx>, hashes: seq<Hash>)
    ensures |Bodies(inflight, hashes)| == |hashes| <==> forall k :: 0 <= k < |hashes| ==> Knows(inflight, hashes[k])
  {
    if hashes != [] {
      var init, last := hashes[..|hashes| - 1], hashes[|hashes| - 1];
      BodiesCount(inflight, init);
      assert hashes == init + [last];
      assert IndexOf(inflight, last) < |inflight| <==> Knows(inflight, last);
    }
  }

  lemma {:induction false} BodiesMatch(decode: Decoder, inflight: seq<Tx>, hashes: seq<Hash>)
    requires Genuine(decode, inflight) && |Bodies(inflight, hashes)| == |hashes|
    ensures OnePerHash(decode, hashes, Bodies(inflight, hashes))
  {
    if hashes != [] { BodiesMatch(decode, inflight, hashes[..|hashes| - 1]); }
  }

  /** One body per requested id exactly when all of them are in flight, and then each body
      decodes to the id asked for at its place. */
  lemma BodiesExact(decode: Decoder, inflight: seq<Tx>, hashes: seq<Hash>)
    requires Genuine(decode, inflight)
    ensures |Bodies(inflight, hashes)| == |hashes| <==> forall k :: 0 <= k < |hashes| ==> Knows(inflight, hashes[k])
    ensures |Bodies(inflight, hashes)| == |hashes| ==> OnePerHash(decode, hashes, Bodies(inflight, hashes))
  {
    BodiesCount(inflight, hashes);
    if |Bodies(inflight, hashes)| == |hashes| { BodiesMatch(decode, inflight, hashes); }
  }

  /** In every run with a disciplined remote side, asking for outstanding ids yields exactly one
      body for each, in order. */
  lemma {:induction false} OutstandingBodies(decode: Decoder, ss: seq<State>, rs: seq<Request>, i: nat, hashes: seq<Hash>)
    requires Run(decode, ss, rs) && i < |ss|
    requires forall k :: 0 <= k < |rs| ==> Disciplined(ss[k], rs[k])
    requires forall k :: 0 <= k < |hashes| ==> Announced(Outstanding(ss[i]), hashes[k])
    ensures OnePerHash(decode, hashes, Bodies(ss[i].inflight, hashes))
  {
    DisciplinedWindow(decode, ss, rs, i);
    RunKeepsWindow(decode, ss, rs, i);
    AnnouncedBodies(decode, ss[i], hashes);
  }

  lemma AnnouncedBodies(decode: Decoder, s: State, hashes: seq<Hash>)
    requires WindowOk(decode, s) && Announcements(s.inflight) == Outstanding(s)
    requires forall k :: 0 <= k < |hashes| ==> Announced(Outstanding(s), hashes[k])
    ensures OnePerHash(decode, hashes, Bodies(s.inflight, hashes))
  {
    forall k | 0 <= k < |hashes| ensures Knows(s.inflight, hashes[k]) { AnnouncedIsKnown(s.inflight, hashes[k]); }
    GenuineSuffix(decode, s.received, s.acked + s.evicted);
    BodiesExact(decode, s.inflight, hashes);
  }

  lemma GenuineSuffix(decode: Decoder, txs: seq<Tx>, n: nat)
    requires n <= |txs| && Genuine(decode, txs)
    ensures Genuine(decode, txs[n..])
  {
  }

  predicate Announced(ids: seq<TxId>, hash: Hash) { exists j :: 0 <= j < |ids| && ids[j].hash == hash }

  lemma AnnouncedIsKnown(txs: seq<Tx>, hash: Hash)
    ensures Announced(Announcements(txs), hash) <==> Knows(txs, hash)
  {
    if Announced(Announcements(txs), hash) {
      var j :| 0 <= j < |txs| && Announcements(txs)[j].hash == hash;
      assert txs[j].hash == hash;
    }
    if Knows(txs, hash) {
      var j :| 0 <= j < |txs| && txs[j].hash == hash;
      assert Announcements(txs)[j].hash == hash;
    }
  }

  // ----- The loop body

  lemma AdmitView(s: State, t: State, tx: Tx)
    requires Suffix(s) && Suffix(t) && t.received == s.received + [tx] && t.acked == s.acked
    requires t.evicted == s.evicted + (if |s.inflight| == CAP then 1 else 0)
    requires t.announced == s.announced && t.alive == s.alive
    ensures t == Admit(s, tx)
  {
    AdmitOne(s, tx);
  }

  lemma AdmitNext(s: State, txs: seq<Tx>, tx: Tx)
    ensures AdmitAll(s, txs + [tx]) == Admit(AdmitAll(s, txs), tx)
  {
    assert (txs + [tx])[..|txs|] == txs;
  }

  lemma DecodeOne(decode: Decoder, raws: seq<Bytes>, i: nat)
    requires i < |raws|
    ensures Decode(decode, raws[..i + 1]) ==
            Decode(decode, raws[..i]) + (if FromRaw(decode, raws[i]).Some? then [FromRaw(decode, raws[i]).value] else [])
  {
    assert raws[..i + 1][..i] == raws[..i];
  }

  class Responder {
    const mempool: Mempool
    const decode: Decoder
    var replies: seq<TxId>            // every id announced so far

    constructor (decode: Decoder)
      ensures this.decode == decode && replies == [] && fresh(mempool)
      ensures mempool.Valid() && mempool.received == [] && mempool.acknowledged == mempool.evicted == 0
    {
      this.decode, replies := decode, [];
      mempool := new Mempool();
    }

    /** The connection as the protocol sees it. */
    ghost function View(): State
      reads this, mempool
    {
      State(mempool.inflight, mempool.received, mempool.acknowledged, mempool.evicted, replies, true)
    }

    /** Acknowledges, takes in the collected payloads and announces them. */
    method HandleTxIds(ack: nat, req: nat, raws: seq<Bytes>) returns (ok: bool)
      requires mempool.Valid()
      modifies this, mempool
      ensures ok ==> mempool.Valid()
      ensures Serve(decode, old(View()), TxIds(ack, req, raws)) == if ok then View() else old(View()).(alive := false)
    {
      ghost var s := View();
      ok := mempool.Acknowledge(ack);
      if !ok { return; }
      assert View() == Acknowledged(s, ack);
      var txs := TakeIn(raws);
      ghost var t := View();
      replies := replies + Announcements(txs);
      assert View() == t.(announced := t.announced + Announcements(txs));
    }

    method TakeIn(raws: seq<Bytes>) returns (txs: seq<Tx>)
      requires mempool.Valid()
      modifies mempool
      ensures mempool.Valid()
      ensures txs == Decode(decode, raws) && View() == AdmitAll(old(View()), txs)
    {
      txs := [];
      for i := 0 to |raws|
        invariant mempool.Valid()
        invariant txs == Decode(decode, raws[..i]) && View() == AdmitAll(old(View()), txs)
      {
        ghost var before := View();
        var r := mempool.ReceiveRaw(decode, raws[i]);
        DecodeOne(decode, raws, i);
        if r.Some? {
          AdmitView(before, View(), r.value);
          AdmitNext(old(View()), txs, r.value);
          txs := txs + [r.value];
        }
      }
      assert raws[..|raws|] == raws;
    }

    method HandleTxs(hashes: seq<Hash>) returns (bodies: seq<Body>)
      ensures bodies == Bodies(mempool.inflight, hashes)
    {
      bodies := [];
      for i := 0 to |hashes|
        invariant bodies == Bodies(mempool.inflight, hashes[..i])
      {
        assert hashes[..i + 1][..i] == hashes[..i];
        var r := mempool.FindInflight(hashes[i]);
        if r.Some? {
          bodies := bodies + [Body(r.value.era, r.value.bytes)];
        }
      }
      assert hashes[..|hashes|] == hashes;
    }
  }
}
