/** The lock manager of chained queues.

One manager per queue takes lock requests in turn, puts a fresh token into a map shared by
all of them, answers the client and then waits for an unlock signal or a timeout before it removes
the token.  Unlock signals carry nothing: whoever waits next consumes the oldest one. */
module Chaining {
  import opened Storage

  type Token = string
  type Request = nat

  const LOCK_CHANNEL: nat := 256
  const UNLOCK_CHANNEL: nat := 64

  datatype Phase =
    | Waiting
    | Granting(request: Request, token: Token)    // token in the map, client not answered yet
    | Held(token: Token)                          // client answered, waiting for unlock or timeout
    | Releasing(token: Token)                     // wait over, token still in the map

  datatype Reply = Granted(request: Request, token: Token) | Errored(request: Request) | Lost(request: Request)

  /** A wait ended by a signal: who held the lock and whose submit had sent the signal. */
  datatype Release = Release(holder: Token, sender: Token)

  /** What happened so far; no step reads it. */
  datatype Log = Log(
    arrived: seq<Request>, replies: seq<Reply>, issued: seq<Token>, delivered: seq<Token>, ended: seq<Token>,
    accepted: seq<Token>, sent: seq<Token>, released: seq<Release>, expired: seq<Token>)

  /** `signals` are the buffered unlocks (tagged with their senders, for the record) and
      `checked` the submits that passed their token check and have not signalled yet. */
  datatype Task = Task(requests: seq<Request>, signals: seq<Token>, phase: Phase, checked: multiset<Token>, log: Log)

  datatype QueueState = QueueState(task: Task, valid: Option<Token>)

  datatype Action =
    | Idle
    | Lock(request: Request)
    | Take(token: Token)
    | StorageError
    | ClientGone
    | Answer
    | Consume
    | Expire
    | Clear
    | Check(token: Token)
    | Signal(token: Token)
    | Drop(token: Token)      // the submit fails after its check and sends nothing

  /** A send to a channel: done, still waiting for room, or refused because there is no such queue. */
  datatype SendResult = Sent | Blocked | NoSuchQueue

  const EMPTY_LOG := Log([], [], [], [], [], [], [], [], [])
  const IDLE_TASK := Task([], [], Waiting, multiset{}, EMPTY_LOG)

  // ----- One queue

  predicate Enabled(s: QueueState, a: Action) {
    var t := s.task;
    match a
    case Idle => true
    case Lock(_) => |t.requests| < LOCK_CHANNEL
    case Take(token) => t.phase.Waiting? && t.requests != [] && token !in t.log.issued
    case StorageError => t.phase.Granting?
    case ClientGone => t.phase.Granting?
    case Answer => t.phase.Granting?
    case Consume => t.phase.Held? && t.signals != []
    case Expire => t.phase.Held?
    case Clear => t.phase.Releasing?
    case Check(_) => true
    case Signal(_) => |t.signals| < UNLOCK_CHANNEL
    case Drop(token) => token in t.checked
  }

  function Apply(s: QueueState, a: Action): QueueState
    requires Enabled(s, a)
  {
    var t, log := s.task, s.task.log;
    match a
    case Idle => s
    case Lock(r) => s.(task := t.(requests := t.requests + [r], log := log.(arrived := log.arrived + [r])))
    case Take(token) =>
      QueueState(
        t.(requests := t.requests[1..], phase := Granting(t.requests[0], token), log := log.(issued := log.issued + [token])),
        Some(token))
    case StorageError =>
      s.(task := t.(phase := Waiting, log := log.(replies := log.replies + [Errored(t.phase.request)])))
    case ClientGone =>
      s.(task := t.(phase := Waiting, log := log.(replies := log.replies + [Lost(t.phase.request)])))
    case Answer =>
      s.(task := t.(phase := Held(t.phase.token),
                    log := log.(replies := log.replies + [Granted(t.phase.request, t.phase.token)],
                                delivered := log.delivered + [t.phase.token])))
    case Consume =>
      s.(task := t.(signals := t.signals[1..], phase := Releasing(t.phase.token),
                    log := log.(released := log.released + [Release(t.phase.token, t.signals[0])])))
    case Expire =>
      s.(task := t.(phase := Releasing(t.phase.token), log := log.(expired := log.expired + [t.phase.token])))
    case Clear =>
      QueueState(t.(phase := Waiting, log := log.(ended := log.ended + [t.phase.token])), None)
    case Check(token) =>
      if s.valid == Some(token) then
        s.(task := t.(checked := t.checked + multiset{token}, log := log.(accepted := log.accepted + [token])))
      else s
    case Signal(token) =>
      s.(task := t.(checked := t.checked - multiset{token}, signals := t.signals + [token],
                    log := log.(sent := log.sent + [token])))
    case Drop(token) => s.(task := t.(checked := t.checked - multiset{token}))
  }

  ghost predicate Run(ss: seq<QueueState>, acts: seq<Action>) {
    && |ss| == |acts| + 1 && ss[0] == QueueState(IDLE_TASK, None)
    && forall i :: 0 <= i < |acts| ==> Enabled(ss[i], acts[i]) && ss[i + 1] == Apply(ss[i], acts[i])
  }

  // ----- What every step keeps

  /** The token in the map is the last one issued, and while a request is served it is the
      token of that request. */
  predicate TokensOk(s: QueueState) {
    var t := s.task;
    && (s.valid.Some? ==> t.log.issued != [] && s.valid.value == t.log.issued[|t.log.issued| - 1])
    && (!t.phase.Waiting? ==> s.valid == Some(t.phase.token))
  }

  function Requests(replies: seq<Reply>): (r: seq<Request>)
    ensures |r| == |replies|
  {
    if replies == [] then [] else Requests(replies[..|replies| - 1]) + [replies[|replies| - 1].request]
  }

  function Senders(released: seq<Release>): (r: seq<Token>)
    ensures |r| == |released|
  {
    if released == [] then [] else Senders(released[..|released| - 1]) + [released[|released| - 1].sender]
  }

  lemma RequestsPush(replies: seq<Reply>, r: Reply)
    ensures Requests(replies + [r]) == Requests(replies) + [r.request]
  {
    assert (replies + [r])[..|replies|] == replies;
  }

  lemma SendersPush(released: seq<Release>, r: Release)
    ensures Senders(released + [r]) == Senders(released) + [r.sender]
  {
    assert (released + [r])[..|released|] == released;
  }

  function Serving(p: Phase): seq<Request> { if p.Granting? then [p.request] else [] }
  function Holding(p: Phase): seq<Token> { if p.Held? || p.Releasing? then [p.token] else [] }

  /** Requests are answered in the order they came in, each with one response attempt. */
  predicate OrderOk(s: QueueState) {
    s.task.log.arrived == Requests(s.task.log.replies) + Serving(s.task.phase) + s.task.requests
  }

  /** Every grant a client received has ended, in order, but for the one that is held. */
  predicate ExclusionOk(s: QueueState) {
    s.task.log.delivered == s.task.log.ended + Holding(s.task.phase)
  }

  /** Signals are consumed in the order they were sent, and none is lost. */
  predicate SignalsOk(s: QueueState) {
    && s.task.log.sent == Senders(s.task.log.released) + s.task.signals
    && |s.task.log.released| + |s.task.log.expired| == |s.task.log.ended| + (if s.task.phase.Releasing? then 1 else 0)
    && |s.task.signals| <= UNLOCK_CHANNEL && |s.task.requests| <= LOCK_CHANNEL
  }

  function GrantedTokens(replies: seq<Reply>): (r: seq<Token>) {
    if replies == [] then []
    else
      var last := replies[|replies| - 1];
      GrantedTokens(replies[..|replies| - 1]) + (if last.Granted? then [last.token] else [])
  }

  lemma GrantedPush(replies: seq<Reply>, r: Reply)
    ensures GrantedTokens(replies + [r]) == GrantedTokens(replies) + if r.Granted? then [r.token] else []
  {
    assert (replies + [r])[..|replies|] == replies;
  }

  /** The k-th request is served with the k-th token: a client that is granted the lock is sent the
      token issued for its own request, and these are the grants on record. */
  predicate GrantsOk(s: QueueState) {
    var t, log := s.task, s.task.log;
    && |log.issued| == |log.replies| + (if t.phase.Granting? then 1 else 0)
    && (t.phase.Granting? ==> t.phase.token == log.issued[|log.replies|])
    && (forall k :: 0 <= k < |log.replies| && log.replies[k].Granted? ==> log.replies[k].token == log.issued[k])
    && log.delivered == GrantedTokens(log.replies)
  }

  function Holders(released: seq<Release>): (r: seq<Token>) {
    if released == [] then [] else Holders(released[..|released| - 1]) + [released[|released| - 1].holder]
  }

  lemma HoldersPush(released: seq<Release>, r: Release)
    ensures Holders(released + [r]) == Holders(released) + [r.holder]
  {
    assert (released + [r])[..|released|] == released;
  }

  /** The grants that ended, or are about to, are those a signal or a timeout took from their
      holders, as often. */
  ghost predicate EndsOk(s: QueueState) {
    forall t :: EndedAs(s, t)
  }

  predicate EndedAs(s: QueueState, t: Token) {
    var log := s.task.log;
    multiset(Holders(log.released))[t] + multiset(log.expired)[t] ==
    multiset(log.ended)[t] + if s.task.phase == Releasing(t) then 1 else 0
  }

  lemma ReplyKeepsGrants(s: QueueState, s': QueueState, r: Reply)
    requires GrantsOk(s) && s.task.phase.Granting? && !s'.task.phase.Granting?
    requires s'.task.log.issued == s.task.log.issued && s'.task.log.replies == s.task.log.replies + [r]
    requires r.Granted? ==> r.token == s.task.phase.token
    requires s'.task.log.delivered == s.task.log.delivered + if r.Granted? then [r.token] else []
    ensures GrantsOk(s')
  {
    GrantedPush(s.task.log.replies, r);
  }

  lemma StepKeepsGrants(s: QueueState, a: Action)
    requires GrantsOk(s) && Enabled(s, a)
    ensures GrantsOk(Apply(s, a))
  {
    var p, s' := s.task.phase, Apply(s, a);
    match a {
      case StorageError => ReplyKeepsGrants(s, s', Errored(p.request));
      case ClientGone => ReplyKeepsGrants(s, s', Lost(p.request));
      case Answer => ReplyKeepsGrants(s, s', Granted(p.request, p.token));
      case _ =>
    }
  }

  lemma StepKeepsEnds(s: QueueState, a: Action)
    requires EndsOk(s) && Enabled(s, a)
    ensures EndsOk(Apply(s, a))
  {
    forall t ensures EndedAs(Apply(s, a), t) {
      assert EndedAs(s, t);
      StepKeepsEnded(s, a, t);
    }
  }

  lemma StepKeepsEnded(s: QueueState, a: Action, t: Token)
    requires EndedAs(s, t) && Enabled(s, a)
    ensures EndedAs(Apply(s, a), t)
  {
    if a.Consume? { HoldersPush(s.task.log.released, Release(s.task.phase.token, s.task.signals[0])); }
  }

  lemma StepKeepsTokens(s: QueueState, a: Action)
    requires TokensOk(s) && Enabled(s, a)
    ensures TokensOk(Apply(s, a))
  {
  }

  lemma ReplyKeepsOrder(s: QueueState, s': QueueState, r: Reply)
    requires OrderOk(s) && s.task.phase.Granting? && r.request == s.task.phase.request
    requires Serving(s'.task.phase) == [] && s'.task.requests == s.task.requests
    requires s'.task.log.arrived == s.task.log.arrived && s'.task.log.replies == s.task.log.replies + [r]
    ensures OrderOk(s')
  {
    RequestsPush(s.task.log.replies, r);
  }

  lemma TakeKeepsOrder(s: QueueState, s': QueueState)
    requires OrderOk(s) && Serving(s.task.phase) == [] && s.task.requests != []
    requires Serving(s'.task.phase) == [s.task.requests[0]] && s'.task.requests == s.task.requests[1..]
    requires s'.task.log.arrived == s.task.log.arrived && s'.task.log.replies == s.task.log.replies
    ensures OrderOk(s')
  {
    assert s.task.requests == [s.task.requests[0]] + s.task.requests[1..];
  }

  lemma ArrivalKeepsOrder(s: QueueState, s': QueueState, more: seq<Request>)
    requires OrderOk(s) && Serving(s'.task.phase) == Serving(s.task.phase) && s'.task.requests == s.task.requests + more
    requires s'.task.log.arrived == s.task.log.arrived + more && s'.task.log.replies == s.task.log.replies
    ensures OrderOk(s')
  {
  }

  lemma StepKeepsOrder(s: QueueState, a: Action)
    requires OrderOk(s) && Enabled(s, a)
    ensures OrderOk(Apply(s, a))
  {
    var p, s' := s.task.phase, Apply(s, a);
    match a {
      case StorageError => ReplyKeepsOrder(s, s', Errored(p.request));
      case ClientGone => ReplyKeepsOrder(s, s', Lost(p.request));
      case Answer => ReplyKeepsOrder(s, s', Granted(p.request, p.token));
      case Take(_) => TakeKeepsOrder(s, s');
      case Lock(r) => ArrivalKeepsOrder(s, s', [r]);
      case _ =>
    }
  }

  lemma StepKeepsExclusion(s: QueueState, a: Action)
    requires ExclusionOk(s) && Enabled(s, a)
    ensures ExclusionOk(Apply(s, a))
  {
  }

  lemma StepKeepsSignals(s: QueueState, a: Action)
    requires SignalsOk(s) && Enabled(s, a)
    ensures SignalsOk(Apply(s, a))
  {
    if a.Consume? {
      SendersPush(s.task.log.released, Release(s.task.phase.token, s.task.signals[0]));
      assert s.task.signals == [s.task.signals[0]] + s.task.signals[1..];
    }
  }

  lemma {:induction false} RunKeeps(ss: seq<QueueState>, acts: seq<Action>, i: nat)
    requires Run(ss, acts) && i < |ss|
    ensures TokensOk(ss[i]) && OrderOk(ss[i]) && ExclusionOk(ss[i]) && SignalsOk(ss[i]) && GrantsOk(ss[i]) && EndsOk(ss[i])
  {
    if i > 0 {
      RunKeeps(ss, acts, i - 1);
      StepKeepsTokens(ss[i - 1], acts[i - 1]);
      StepKeepsOrder(ss[i - 1], acts[i - 1]);
      StepKeepsExclusion(ss[i - 1], acts[i - 1]);
      StepKeepsSignals(ss[i - 1], acts[i - 1]);
      StepKeepsGrants(ss[i - 1], acts[i - 1]);
      StepKeepsEnds(ss[i - 1], acts[i - 1]);
    }
  }

  // ----- Tokens over time

  lemma {:induction false} NeverAgain(ss: seq<QueueState>, acts: seq<Action>, j: nat, k: nat, token: Token)
    requires Run(ss, acts) && j <= k < |ss|
    requires token in ss[j].task.log.issued && ss[j].valid != Some(token)
    ensures token in ss[k].task.log.issued && ss[k].valid != Some(token)
  {
    if j < k { NeverAgain(ss, acts, j, k - 1, token); }
  }

  lemma {:induction false} StaysIssued(ss: seq<QueueState>, acts: seq<Action>, i: nat, j: nat)
    requires Run(ss, acts) && i <= j < |ss|
    ensures ss[i].task.log.issued <= ss[j].task.log.issued
  {
    if i < j { StaysIssued(ss, acts, i, j - 1); }
  }

  /** A token is valid during one contiguous stretch of a run and never again. */
  lemma TokenValidOnce(ss: seq<QueueState>, acts: seq<Action>, i: nat, j: nat, k: nat, token: Token)
    requires Run(ss, acts) && i <= j <= k < |ss|
    requires ss[i].valid == Some(token) && ss[k].valid == Some(token)
    ensures ss[j].valid == Some(token)
  {
    RunKeeps(ss, acts, i);
    StaysIssued(ss, acts, i, j);
    var n := |ss[i].task.log.issued| - 1;
    assert ss[j].task.log.issued[n] == token;
    if ss[j].valid != Some(token) { NeverAgain(ss, acts, j, k, token); }
  }

  /** A valid token stops being valid exactly when it is removed after its wait or replaced by the
      next request's; in particular a failed answer leaves it valid. */
  lemma TokenEndsExactly(ss: seq<QueueState>, acts: seq<Action>, i: nat, token: Token)
    requires Run(ss, acts) && i < |acts| && ss[i].valid == Some(token)
    ensures ss[i + 1].valid != Some(token) <==> acts[i].Clear? || acts[i].Take?
  {
    RunKeeps(ss, acts, i);
  }

  /** Only the last token issued is ever valid, and it stays in the map as long as its request
      is being served. */
  lemma OnlyLastTokenValid(ss: seq<QueueState>, acts: seq<Action>, i: nat, token: Token)
    requires Run(ss, acts) && i < |ss| && ss[i].valid == Some(token)
    ensures var issued := ss[i].task.log.issued; issued != [] && token == issued[|issued| - 1]
    ensures !ss[i].task.phase.Waiting? ==> ss[i].task.phase.token == token
  {
    RunKeeps(ss, acts, i);
  }

  /** Service order and mutual exclusion: replies follow arrivals one to one, and when a client
      is answered every earlier grant has ended by unlock or timeout. */
  lemma ServiceInOrder(ss: seq<QueueState>, acts: seq<Action>, i: nat)
    requires Run(ss, acts) && i < |acts|
    ensures Requests(ss[i].task.log.replies) <= ss[i].task.log.arrived
    ensures acts[i].Answer? ==>
              && ss[i].task.log.delivered == ss[i].task.log.ended
              && |ss[i].task.log.ended| == |ss[i].task.log.released| + |ss[i].task.log.expired|
  {
    RunKeeps(ss, acts, i);
  }

  lemma {:induction false} RequestAt(replies: seq<Reply>, k: nat)
    requires k < |replies|
    ensures Requests(replies)[k] == replies[k].request
  {
    if k < |replies| - 1 { RequestAt(replies[..|replies| - 1], k); }
  }

  /** In every run, the k-th reply goes to the k-th request that arrived, and a grant in it carries the
      k-th token issued. */
  lemma RepliesMatch(ss: seq<QueueState>, acts: seq<Action>, i: nat, k: nat)
    requires Run(ss, acts) && i < |ss| && k < |ss[i].task.log.replies|
    ensures var log := ss[i].task.log;
            && k < |log.arrived| && log.replies[k].request == log.arrived[k]
            && k < |log.issued| && (log.replies[k].Granted? ==> log.replies[k].token == log.issued[k])
  {
    RunKeeps(ss, acts, i);
    RequestAt(ss[i].task.log.replies, k);
  }

  /** A client that is answered is sent the token that is in the map at that moment, the last one
      issued, and is the one whose request is the oldest not answered yet. */
  lemma AnswerCarriesToken(ss: seq<QueueState>, acts: seq<Action>, i: nat)
    requires Run(ss, acts) && i < |acts| && acts[i].Answer?
    ensures var log, n := ss[i].task.log, |ss[i].task.log.replies|;
            && ss[i].valid.Some? && n < |log.arrived| && |log.issued| == n + 1 && ss[i].valid.value == log.issued[n]
            && ss[i + 1].task.log.replies == log.replies + [Granted(log.arrived[n], ss[i].valid.value)]
  {
    RunKeeps(ss, acts, i);
  }

  // ----- All queues

  /** The managers of all queues and the token map they share. */
  datatype System = System(tasks: map<Queue, Task>, state: map<Queue, Token>)

  function View(sys: System, q: Queue): QueueState
    requires q in sys.tasks
  {
    QueueState(sys.tasks[q], if q in sys.state then Some(sys.state[q]) else None)
  }

  function SystemApply(sys: System, q: Queue, a: Action): System
    requires q in sys.tasks && Enabled(View(sys, q), a)
  {
    var s := Apply(View(sys, q), a);
    System(sys.tasks[q := s.task], if s.valid.Some? then sys.state[q := s.valid.value] else sys.state - {q})
  }

  /** A step on one queue is that queue's step on its view and leaves every other view alone. */
  lemma StepIsLocal(sys: System, q: Queue, a: Action, other: Queue)
    requires q in sys.tasks && other in sys.tasks && Enabled(View(sys, q), a)
    ensures SystemApply(sys, q, a).tasks.Keys == sys.tasks.Keys
    ensures View(SystemApply(sys, q, a), other) == if other == q then Apply(View(sys, q), a) else View(sys, other)
  {
  }

  ghost predicate SystemRun(sys: seq<System>, acts: seq<(Queue, Action)>, queues: set<Queue>) {
    && |sys| == |acts| + 1
    && sys[0] == System(map q | q in queues :: IDLE_TASK, map[])
    && forall i :: 0 <= i < |acts| ==> SystemStep(sys[i], acts[i], sys[i + 1])
  }

  ghost predicate SystemStep(sys: System, a: (Queue, Action), sys': System) {
    a.0 in sys.tasks && Enabled(View(sys, a.0), a.1) && sys' == SystemApply(sys, a.0, a.1)
  }

  lemma Longer(ss: seq<QueueState>, acts: seq<Action>, a: Action) returns (ss': seq<QueueState>, acts': seq<Action>)
    requires Run(ss, acts) && Enabled(ss[|acts|], a)
    ensures ss' == ss + [Apply(ss[|acts|], a)] && acts' == acts + [a] && Run(ss', acts')
  {
    ss', acts' := ss + [Apply(ss[|acts|], a)], acts + [a];
    forall i | 0 <= i < |acts'| ensures Enabled(ss'[i], acts'[i]) && ss'[i + 1] == Apply(ss'[i], acts'[i]) {
      if i < |acts| { assert ss'[i] == ss[i] && ss'[i + 1] == ss[i + 1] && acts'[i] == acts[i]; }
    }
  }

  /** What a queue sees of a run of the system is a run of its own, so everything proved of one
      queue's runs holds of every queue of every run of the system. */
  lemma {:induction false} Projection(sys: seq<System>, acts: seq<(Queue, Action)>, queues: set<Queue>, q: Queue)
    returns (ss: seq<QueueState>, own: seq<Action>)
    requires SystemRun(sys, acts, queues) && q in queues
    ensures |own| == |acts| && Run(ss, own)
    ensures forall i :: 0 <= i < |sys| ==> q in sys[i].tasks && View(sys[i], q) == ss[i]
    ensures forall i :: 0 <= i < |acts| ==> own[i] == if acts[i].0 == q then acts[i].1 else Idle
  {
    if acts == [] {
      ss, own := [QueueState(IDLE_TASK, None)], [];
    } else {
      var n := |acts| - 1;
      var sys0, acts0 := sys[..n + 1], acts[..n];
      forall i | 0 <= i < n ensures SystemStep(sys0[i], acts0[i], sys0[i + 1]) { assert SystemStep(sys[i], acts[i], sys[i + 1]); }
      var ss0, own0 := Projection(sys0, acts0, queues, q);
      assert SystemStep(sys[n], acts[n], sys[n + 1]) && sys0[n] == sys[n];
      StepIsLocal(sys[n], acts[n].0, acts[n].1, q);
      ss, own := Longer(ss0, own0, if acts[n].0 == q then acts[n].1 else Idle);
      assert forall i :: 0 <= i <= n ==> sys0[i] == sys[i];
    }
  }

  // ----- The manager itself, cut at its await points

  class TxChaining {
    var tasks: map<Queue, Task>
    var state: map<Queue, Token>

    ghost function Sys(): System
      reads this
    {
      System(tasks, state)
    }

    /** The queues configured as chained. */
    ghost const chained: set<Queue>

    ghost predicate Valid()
      reads this
    {
      tasks.Keys == chained
    }

    /** Starts a manager for every queue whose configuration says so. */
    constructor (queues: map<Queue, bool>)
      ensures Valid() && chained == (set q | q in queues && queues[q])
      ensures Sys() == System(map q | q in chained :: IDLE_TASK, map[])
    {
      chained := set q | q in queues && queues[q];
      tasks := map q | q in queues && queues[q] :: IDLE_TASK;
      state := map[];
    }

    /** Sends a request to the queue's manager; while the channel is full the send keeps waiting. */
    method Lock(queue: Queue, request: Request) returns (r: SendResult)
      requires Valid()
      modifies this
      ensures Valid()
      ensures r.NoSuchQueue? <==> queue !in old(tasks)
      ensures r.Blocked? <==> queue in old(tasks) && |old(tasks)[queue].requests| >= 256
      ensures Sys() == if r.Sent? then SystemApply(old(Sys()), queue, Action.Lock(request)) else old(Sys())
    {
      if queue !in tasks {
        return NoSuchQueue;
      }
      var t := tasks[queue];
      if |t.requests| >= LOCK_CHANNEL {
        return Blocked;
      }
      tasks := tasks[queue := t.(requests := t.requests + [request], log := t.log.(arrived := t.log.arrived + [request]))];
      assert queue !in state ==> state == state - {queue};
      return Sent;
    }

    /** Sends a signal; `sender` is the token of the submit that sends it, kept for the record. */
    method Unlock(queue: Queue, sender: Token) returns (r: SendResult)
      requires Valid()
      modifies this
      ensures Valid()
      ensures r.NoSuchQueue? <==> queue !in old(tasks)
      ensures r.Blocked? <==> queue in old(tasks) && |old(tasks)[queue].signals| >= 64
      ensures Sys() == if r.Sent? then SystemApply(old(Sys()), queue, Signal(sender)) else old(Sys())
    {
      if queue !in tasks {
        return NoSuchQueue;
      }
      var t := tasks[queue];
      if |t.signals| >= UNLOCK_CHANNEL {
        return Blocked;
      }
      tasks := tasks[queue := t.(checked := t.checked - multiset{sender}, signals := t.signals + [sender],
                                 log := t.log.(sent := t.log.sent + [sender]))];
      assert queue !in state ==> state == state - {queue};
      return Sent;
    }

    /** Whatever has been locked and unlocked since, these are the queues configured as chained. */
    method IsChainedQueue(queue: Queue) returns (b: bool)
      requires Valid()
      ensures b <==> queue in chained
    {
      b := queue in tasks;
    }

    method IsValidToken(queue: Queue, token: Token) returns (b: bool)
      ensures queue in tasks ==> (b <==> View(Sys(), queue).valid == Some(token))
      ensures b ==> queue in state
    {
      b := queue in state && state[queue] == token;
    }

    /** The loop takes the next request and publishes its token. */
    method TakeRequest(queue: Queue, token: Token)
      requires queue in tasks && Enabled(View(Sys(), queue), Take(token))
      requires Valid()
      modifies this
      ensures Valid()
      ensures Sys() == SystemApply(old(Sys()), queue, Take(token))
    {
      var t := tasks[queue];
      tasks := tasks[queue := t.(requests := t.requests[1..], phase := Granting(t.requests[0], token),
                                 log := t.log.(issued := t.log.issued + [token]))];
      state := state[queue := token];
    }

    /** It reads the latest transaction and answers; on either failure it goes on to the next
        request and leaves the token where it is. */
    method AnswerRequest(queue: Queue, storageOk: bool, clientThere: bool)
      requires queue in tasks && tasks[queue].phase.Granting?
      requires Valid()
      modifies this
      ensures Valid()
      ensures Sys() == SystemApply(old(Sys()), queue,
                                   if !storageOk then StorageError else if !clientThere then ClientGone else Answer)
    {
      var t := tasks[queue];
      var request, token := t.phase.request, t.phase.token;
      if !storageOk {
        tasks := tasks[queue := t.(phase := Waiting, log := t.log.(replies := t.log.replies + [Errored(request)]))];
      } else if !clientThere {
        tasks := tasks[queue := t.(phase := Waiting, log := t.log.(replies := t.log.replies + [Lost(request)]))];
      } else {
        tasks := tasks[queue := t.(phase := Held(token),
                                   log := t.log.(replies := t.log.replies + [Granted(request, token)],
                                                 delivered := t.log.delivered + [token]))];
      }
      assert queue !in state ==> state == state - {queue};
    }

    /** It waits for a signal or for the timeout. */
    method AwaitRelease(queue: Queue, timeout: bool)
      requires queue in tasks && tasks[queue].phase.Held? && (!timeout ==> tasks[queue].signals != [])
      requires Valid()
      modifies this
      ensures Valid()
      ensures Sys() == SystemApply(old(Sys()), queue, if timeout then Expire else Consume)
    {
      var t := tasks[queue];
      var token := t.phase.token;
      if timeout {
        tasks := tasks[queue := t.(phase := Releasing(token), log := t.log.(expired := t.log.expired + [token]))];
      } else {
        tasks := tasks[queue := t.(signals := t.signals[1..], phase := Releasing(token),
                                   log := t.log.(released := t.log.released + [Release(token, t.signals[0])]))];
      }
      assert queue !in state ==> state == state - {queue};
    }

    method RemoveToken(queue: Queue)
      requires queue in tasks && tasks[queue].phase.Releasing?
      requires Valid()
      modifies this
      ensures Valid()
      ensures Sys() == SystemApply(old(Sys()), queue, Clear)
    {
      var t := tasks[queue];
      tasks := tasks[queue := t.(phase := Waiting, log := t.log.(ended := t.log.ended + [t.phase.token]))];
      state := state - {queue};
    }
  }
}
