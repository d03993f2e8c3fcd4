/** Submit handlers at work on the lock managers.

Any number of requests are handled at the same time, each cut at its await points: one step per
item, at which the token map is read as it is then, one for storing the rows, and one per unlock.
A handler may fail or be cancelled anywhere; it then sends no more unlocks. */
module Handlers {
  import opened Storage
  import opened Chaining
  import opened LockRules
  import opened Submit

  datatype Stage = Looking | Sending | Failing

  /** A check that passed: the queue and the token presented for it. */
  type Pass = (Queue, Token)

  /** `seen` is what it learned about its items so far, `owed` the checks passed and not followed
      by an unlock yet. */
  datatype Handler = Handler(items: seq<Item>, seen: seq<Seen>, stage: Stage, owed: seq<Pass>)

  datatype World = World(lock: System, handlers: seq<Handler>)

  datatype Step =
    | Manage(queue: Queue, action: Chaining.Action)     // a client asks for a lock, or a manager moves on
    | Begin(items: seq<Item>)
    | Look(h: nat, seen: Seen)
    | Stored(h: nat)
    | GiveUp(h: nat)
    | Settle(h: nat)                                    // one unlock, or one check dropped

  /** An item that is decoded and, if need be, valid, and names a chained queue. */
  predicate Asks(cfg: Config, item: Item, seen: Seen) {
    seen.hash.Some? && (ShouldValidate(cfg, item) ==> seen.valid) && NamesChained(cfg, item)
  }

  function Passes(cfg: Config, item: Item, seen: Seen): (r: seq<Pass>) {
    if Asks(cfg, item, seen) && TokenOk(item, seen) then [(item.queue.value, Presented(item))] else []
  }

  predicate CanLook(h: Handler) { h.stage.Looking? && |h.seen| < |h.items| }

  predicate Ready(w: World, s: Step) {
    match s
    case Manage(_, a) => !a.Check? && !a.Signal? && !a.Drop?
    case Begin(_) => true
    case Look(h, seen) => h < |w.handlers| && CanLook(w.handlers[h]) && seen.state == w.lock.state
    case Stored(h) => h < |w.handlers| && w.handlers[h].stage.Looking? && |w.handlers[h].seen| == |w.handlers[h].items|
    case GiveUp(h) => h < |w.handlers|
    case Settle(h) => h < |w.handlers| && !w.handlers[h].stage.Looking? && w.handlers[h].owed != []
  }

  /** What a step does to a lock manager, if anything. */
  function OnLock(cfg: Config, w: World, s: Step): Option<(Queue, Chaining.Action)>
    requires Ready(w, s)
  {
    match s
    case Manage(q, a) => Some((q, a))
    case Look(h, seen) =>
      var item := w.handlers[h].items[|w.handlers[h].seen|];
      if Asks(cfg, item, seen) then Some((item.queue.value, Check(Presented(item)))) else None
    case Settle(h) =>
      var p := w.handlers[h].owed[0];
      Some((p.0, if w.handlers[h].stage.Sending? then Signal(p.1) else Drop(p.1)))
    case _ => None
  }

  function After(cfg: Config, h: Handler, seen: Seen): Handler
    requires CanLook(h)
  {
    var item := h.items[|h.seen|];
    var v := Judge(cfg, item, seen);
    Handler(h.items, h.seen + [seen], if v.Fit? || v.Unfit? then Looking else Failing, h.owed + Passes(cfg, item, seen))
  }

  /** The handler a step works on, afterwards. */
  function Changed(cfg: Config, w: World, s: Step): (nat, Handler)
    requires Ready(w, s) && !s.Manage?
  {
    var hs := w.handlers;
    match s
    case Begin(items) => (|hs|, Handler(items, [], Looking, []))
    case Look(h, seen) => (h, After(cfg, hs[h], seen))
    case Stored(h) => (h, hs[h].(stage := Sending))
    case GiveUp(h) => (h, hs[h].(stage := Failing))
    case Settle(h) => (h, hs[h].(owed := hs[h].owed[1..]))
  }

  function NewHandlers(cfg: Config, w: World, s: Step): seq<Handler>
    requires Ready(w, s)
  {
    if s.Manage? then w.handlers
    else
      var (h, x) := Changed(cfg, w, s);
      if h < |w.handlers| then w.handlers[h := x] else w.handlers + [x]
  }

  ghost predicate Moves(cfg: Config, w: World, s: Step, w': World) {
    && Ready(w, s) && w'.handlers == NewHandlers(cfg, w, s)
    && match OnLock(cfg, w, s)
       case None => w'.lock == w.lock
       case Some(act) => SystemStep(w.lock, act, w'.lock)
  }

  function Initially(cfg: Config): World { World(System(map q | q in cfg.chained :: IDLE_TASK, map[]), []) }

  ghost predicate Run(cfg: Config, ws: seq<World>, steps: seq<Step>) {
    && |ws| == |steps| + 1 && ws[0] == Initially(cfg)
    && forall i :: 0 <= i < |steps| ==> Moves(cfg, ws[i], steps[i], ws[i + 1])
  }

  // ----- What one queue sees

  /** The action on one queue, Idle for a step that does not concern it. */
  function Own(cfg: Config, w: World, s: Step, q: Queue): Chaining.Action
    requires Ready(w, s)
  {
    match OnLock(cfg, w, s)
    case None => Idle
    case Some(act) => if act.0 == q then act.1 else Idle
  }

  lemma MoveOnQueue(cfg: Config, w: World, s: Step, w': World, q: Queue)
    requires Moves(cfg, w, s, w') && q in w.lock.tasks
    ensures w'.lock.tasks.Keys == w.lock.tasks.Keys
    ensures Enabled(View(w.lock, q), Own(cfg, w, s, q)) && View(w'.lock, q) == Apply(View(w.lock, q), Own(cfg, w, s, q))
  {
    match OnLock(cfg, w, s)
    case None =>
    case Some(act) => StepIsLocal(w.lock, act.0, act.1, q);
  }

  // ----- Every unlock follows a check of its own

  /** The tokens of the passes for one queue, in order. */
  function Of(q: Queue, ps: seq<Pass>): (r: seq<Token>) {
    if ps == [] then []
    else Of(q, ps[..|ps| - 1]) + (if ps[|ps| - 1].0 == q then [ps[|ps| - 1].1] else [])
  }

  lemma {:induction false} OfFirst(q: Queue, ps: seq<Pass>)
    requires ps != []
    ensures Of(q, ps) == (if ps[0].0 == q then [ps[0].1] else []) + Of(q, ps[1..])
  {
    var n := |ps| - 1;
    if n > 0 {
      assert ps[..n][1..] == ps[1..][..n - 1];
      OfFirst(q, ps[..n]);
    }
  }

  /** How often a token is still owed to a queue, by one handler and by all of them. */
  function Due(h: Handler, q: Queue, t: Token): nat { multiset(Of(q, h.owed))[t] }

  function AllDue(hs: seq<Handler>, q: Queue, t: Token): nat {
    if hs == [] then 0 else AllDue(hs[..|hs| - 1], q, t) + Due(hs[|hs| - 1], q, t)
  }

  lemma {:induction false} DueReplaced(hs: seq<Handler>, h: nat, x: Handler, q: Queue, t: Token)
    requires h < |hs|
    ensures AllDue(hs[h := x], q, t) + Due(hs[h], q, t) == AllDue(hs, q, t) + Due(x, q, t)
  {
    var n := |hs| - 1;
    if h < n {
      assert hs[h := x][..n] == hs[..n][h := x];
      DueReplaced(hs[..n], h, x, q, t);
    } else {
      assert hs[h := x][..n] == hs[..n];
    }
  }

  lemma DueAdded(hs: seq<Handler>, x: Handler, q: Queue, t: Token)
    ensures AllDue(hs + [x], q, t) == AllDue(hs, q, t) + Due(x, q, t)
  {
    assert (hs + [x])[..|hs|] == hs;
  }

  lemma {:induction false} DueIn(hs: seq<Handler>, h: nat, q: Queue, t: Token)
    requires h < |hs|
    ensures Due(hs[h], q, t) <= AllDue(hs, q, t)
  {
    if h < |hs| - 1 { DueIn(hs[..|hs| - 1], h, q, t); }
  }

  lemma OfBoth(q: Queue, ps: seq<Pass>, p: Pass)
    ensures Of(q, ps + [p]) == Of(q, ps) + if p.0 == q then [p.1] else []
  {
    assert (ps + [p])[..|ps|] == ps;
  }

  /** By how much a step changes what its handler owes. */
  lemma DueAfterLook(cfg: Config, h: Handler, seen: Seen, q: Queue, t: Token)
    requires CanLook(h)
    ensures var item := h.items[|h.seen|];
            Due(After(cfg, h, seen), q, t) ==
            Due(h, q, t) + if Passes(cfg, item, seen) == [(q, t)] then 1 else 0
  {
    var ps := Passes(cfg, h.items[|h.seen|], seen);
    if ps == [] { assert h.owed + ps == h.owed; } else { OfBoth(q, h.owed, ps[0]); }
  }

  lemma DueAfterSettle(h: Handler, q: Queue, t: Token)
    requires h.owed != []
    ensures Due(h, q, t) == Due(h.(owed := h.owed[1..]), q, t) + if h.owed[0] == (q, t) then 1 else 0
  {
    OfFirst(q, h.owed);
  }

  /** The checks a queue has on record are those its handlers have not followed up yet. */
  ghost predicate DueOk(w: World, q: Queue) {
    q in w.lock.tasks && forall t :: w.lock.tasks[q].checked[t] == AllDue(w.handlers, q, t)
  }

  /** How the record of a queue changes with an action on it. */
  lemma Recorded(s: QueueState, a: Chaining.Action, t: Token)
    requires Enabled(s, a) && Paired(s, a)
    ensures Apply(s, a).task.checked[t] ==
            if a == Check(t) && s.valid == Some(t) then s.task.checked[t] + 1
            else if a == Signal(t) || a == Drop(t) then s.task.checked[t] - 1
            else s.task.checked[t]
  {
  }

  lemma {:induction false} LookKeepsDue(cfg: Config, w: World, s: Step, w': World, q: Queue, t: Token)
    requires DueOk(w, q) && q in cfg.chained && Moves(cfg, w, s, w') && s.Look?
    ensures q in w'.lock.tasks && w'.lock.tasks[q].checked[t] == AllDue(w'.handlers, q, t)
  {
    var h := w.handlers[s.h];
    MoveOnQueue(cfg, w, s, w', q);
    Recorded(View(w.lock, q), Own(cfg, w, s, q), t);
    DueAfterLook(cfg, h, s.seen, q, t);
    DueReplaced(w.handlers, s.h, After(cfg, h, s.seen), q, t);
  }

  /** Every unlock is sent for a check that passed and was not followed by one yet. */
  lemma SettleIsPaired(cfg: Config, w: World, s: Step, q: Queue)
    requires DueOk(w, q) && Ready(w, s)
    ensures Paired(View(w.lock, q), Own(cfg, w, s, q))
  {
    if s.Settle? {
      var p := w.handlers[s.h].owed[0];
      DueAfterSettle(w.handlers[s.h], q, p.1);
      DueIn(w.handlers, s.h, q, p.1);
    }
  }

  lemma {:induction false} SettleKeepsDue(cfg: Config, w: World, s: Step, w': World, q: Queue, t: Token)
    requires DueOk(w, q) && Moves(cfg, w, s, w') && s.Settle?
    ensures q in w'.lock.tasks && w'.lock.tasks[q].checked[t] == AllDue(w'.handlers, q, t)
  {
    var h := w.handlers[s.h];
    SettleIsPaired(cfg, w, s, q);
    MoveOnQueue(cfg, w, s, w', q);
    Recorded(View(w.lock, q), Own(cfg, w, s, q), t);
    DueAfterSettle(h, q, t);
    DueReplaced(w.handlers, s.h, h.(owed := h.owed[1..]), q, t);
  }

  lemma {:induction false} OtherKeepsDue(cfg: Config, w: World, s: Step, w': World, q: Queue, t: Token)
    requires DueOk(w, q) && Moves(cfg, w, s, w') && !s.Look? && !s.Settle?
    ensures q in w'.lock.tasks && w'.lock.tasks[q].checked[t] == AllDue(w'.handlers, q, t)
  {
    MoveOnQueue(cfg, w, s, w', q);
    Recorded(View(w.lock, q), Own(cfg, w, s, q), t);
    if s.Begin? {
      DueAdded(w.handlers, Changed(cfg, w, s).1, q, t);
    } else if !s.Manage? {
      DueReplaced(w.handlers, s.h, Changed(cfg, w, s).1, q, t);
    }
  }

  lemma MoveKeepsDue(cfg: Config, w: World, s: Step, w': World, q: Queue)
    requires DueOk(w, q) && q in cfg.chained && Moves(cfg, w, s, w')
    ensures DueOk(w', q)
  {
    MoveOnQueue(cfg, w, s, w', q);
    forall t ensures w'.lock.tasks[q].checked[t] == AllDue(w'.handlers, q, t) {
      if s.Look? { LookKeepsDue(cfg, w, s, w', q, t); }
      else if s.Settle? { SettleKeepsDue(cfg, w, s, w', q, t); }
      else { OtherKeepsDue(cfg, w, s, w', q, t); }
    }
  }

  // ----- Runs

  lemma {:induction false} RunKeepsDue(cfg: Config, ws: seq<World>, steps: seq<Step>, i: nat, q: Queue)
    requires Run(cfg, ws, steps) && i < |ws| && q in cfg.chained
    ensures DueOk(ws[i], q)
  {
    if i > 0 {
      RunKeepsDue(cfg, ws, steps, i - 1, q);
      assert Moves(cfg, ws[i - 1], steps[i - 1], ws[i]);
      MoveKeepsDue(cfg, ws[i - 1], steps[i - 1], ws[i], q);
    }
  }

  /** What a queue sees of any run of handlers is a run of its own in which every unlock is sent for
      a check that passed: that rule is kept by the handler, not by its clients. */
  lemma HandlersPair(cfg: Config, ws: seq<World>, steps: seq<Step>, q: Queue)
    returns (ss: seq<QueueState>, own: seq<Chaining.Action>)
    requires Run(cfg, ws, steps) && q in cfg.chained
    ensures |own| == |steps| && Chaining.Run(ss, own)
    ensures forall i :: 0 <= i < |ws| ==> q in ws[i].lock.tasks && ss[i] == View(ws[i].lock, q)
    ensures forall i :: 0 <= i < |steps| ==>
              Ready(ws[i], steps[i]) && own[i] == Own(cfg, ws[i], steps[i], q) && Paired(ss[i], own[i])
  {
    forall i | 0 <= i < |ws| ensures DueOk(ws[i], q) { RunKeepsDue(cfg, ws, steps, i, q); }
    forall i | 0 <= i < |steps| ensures Ready(ws[i], steps[i]) { assert Moves(cfg, ws[i], steps[i], ws[i + 1]); }
    ss := seq(|ws|, i requires 0 <= i < |ws| && q in ws[i].lock.tasks => View(ws[i].lock, q));
    own := seq(|steps|, i requires 0 <= i < |steps| && i < |ws| && Ready(ws[i], steps[i]) => Own(cfg, ws[i], steps[i], q));
    forall i | 0 <= i < |steps|
      ensures Enabled(ss[i], own[i]) && ss[i + 1] == Apply(ss[i], own[i]) && Paired(ss[i], own[i])
    {
      assert Moves(cfg, ws[i], steps[i], ws[i + 1]);
      MoveOnQueue(cfg, ws[i], steps[i], ws[i + 1], q);
      SettleIsPaired(cfg, ws[i], steps[i], q);
    }
  }

  // ----- The rules left to the clients

  /** The step keeps the clients' rules of `r` on this queue. */
  predicate Keeps(cfg: Config, w: World, s: Step, q: Queue, r: Rules) {
    q in w.lock.tasks && Ready(w, s) ==> Allowed(View(w.lock, q), Own(cfg, w, s, q), r.(paired := false))
  }

  ghost predicate EndsIn(cfg: Config, ws: seq<World>, steps: seq<Step>, q: Queue, r: Rules, w: World) {
    Run(cfg, ws, steps) && ws[|steps|] == w && forall i :: 0 <= i < |steps| ==> Keeps(cfg, ws[i], steps[i], q, r)
  }

  /** Some run of handlers in which the clients keep the rules leads here. */
  ghost predicate At(cfg: Config, q: Queue, r: Rules, w: World) { exists ws, steps :: EndsIn(cfg, ws, steps, q, r, w) }

  lemma Go(cfg: Config, q: Queue, r: Rules, w: World, s: Step, w': World)
    requires At(cfg, q, r, w) && Moves(cfg, w, s, w') && Keeps(cfg, w, s, q, r)
    ensures At(cfg, q, r, w')
  {
    var ws, steps :| EndsIn(cfg, ws, steps, q, r, w);
    var ws', steps' := ws + [w'], steps + [s];
    forall i | 0 <= i < |steps'|
      ensures Moves(cfg, ws'[i], steps'[i], ws'[i + 1]) && Keeps(cfg, ws'[i], steps'[i], q, r)
    {
      if i < |steps| {
        assert Moves(cfg, ws[i], steps[i], ws[i + 1]) && Keeps(cfg, ws[i], steps[i], q, r);
        assert ws'[i] == ws[i] && ws'[i + 1] == ws[i + 1] && steps'[i] == steps[i];
      }
    }
    assert EndsIn(cfg, ws', steps', q, r, w');
  }

  lemma AtKeepsDue(cfg: Config, q: Queue, r: Rules, w: World)
    requires At(cfg, q, r, w) && q in cfg.chained
    ensures DueOk(w, q)
  {
    var ws, steps :| EndsIn(cfg, ws, steps, q, r, w);
    RunKeepsDue(cfg, ws, steps, |steps|, q);
  }

  /** Every handler has one transaction, for this queue, and owes nothing once it has been stored. */
  predicate Simple(hs: seq<Handler>, q: Queue) {
    forall h :: 0 <= h < |hs| && hs[h].owed != [] ==>
      hs[h].stage.Looking? && |hs[h].seen| == |hs[h].items| && |hs[h].owed| == 1 && hs[h].owed[0].0 == q
  }

  lemma {:induction false} FindDue(hs: seq<Handler>, q: Queue, t: Token) returns (h: nat)
    requires AllDue(hs, q, t) > 0
    ensures h < |hs| && Due(hs[h], q, t) > 0
  {
    h := |hs| - 1;
    if Due(hs[h], q, t) == 0 { h := FindDue(hs[..h], q, t); }
  }

  lemma FindOwner(hs: seq<Handler>, q: Queue, t: Token) returns (h: nat)
    requires AllDue(hs, q, t) > 0 && Simple(hs, q)
    ensures h < |hs| && hs[h].owed == [(q, t)] && hs[h].stage.Looking? && |hs[h].seen| == |hs[h].items|
  {
    h := FindDue(hs, q, t);
    if hs[h].owed != [] { OfFirst(q, hs[h].owed); }
  }

  /** The lock as it is after an action on one queue. */
  lemma LockStep(sys: System, q: Queue, a: Chaining.Action) returns (sys': System)
    requires q in sys.tasks && Enabled(View(sys, q), a)
    ensures SystemStep(sys, (q, a), sys') && q in sys'.tasks && View(sys', q) == Apply(View(sys, q), a)
  {
    sys' := SystemApply(sys, q, a);
    StepIsLocal(sys, q, a, q);
  }

  /** A check, by a request made for it. */
  lemma PlayCheck(cfg: Config, q: Queue, r: Rules, w: World, t: Token) returns (w': World)
    requires At(cfg, q, r, w) && q in cfg.chained && q in w.lock.tasks && Simple(w.handlers, q)
    requires Allowed(View(w.lock, q), Check(t), r)
    ensures At(cfg, q, r, w') && Simple(w'.handlers, q)
    ensures q in w'.lock.tasks && View(w'.lock, q) == Apply(View(w.lock, q), Check(t))
  {
    var item, seen, h := Item([], Some(q), Some(t)), Seen(Some(""), true, w.lock.state, 0), |w.handlers|;
    var begun := World(w.lock, w.handlers + [Handler([item], [], Looking, [])]);
    Go(cfg, q, r, w, Begin([item]), begun);
    var sys := LockStep(w.lock, q, Check(t));
    w' := World(sys, begun.handlers[h := After(cfg, begun.handlers[h], seen)]);
    Go(cfg, q, r, begun, Look(h, seen), w');
  }

  /** An unlock, or a check dropped, by the request that made the check. */
  lemma PlaySettle(cfg: Config, q: Queue, r: Rules, w: World, a: Chaining.Action) returns (w': World)
    requires At(cfg, q, r, w) && q in cfg.chained && DueOk(w, q) && Simple(w.handlers, q)
    requires (a.Signal? || a.Drop?) && Enabled(View(w.lock, q), a) && Paired(View(w.lock, q), a)
    ensures At(cfg, q, r, w') && Simple(w'.handlers, q)
    ensures q in w'.lock.tasks && View(w'.lock, q) == Apply(View(w.lock, q), a)
  {
    var h := FindOwner(w.handlers, q, a.token);
    var first := if a.Signal? then Stored(h) else GiveUp(h);
    var ready := World(w.lock, w.handlers[h := w.handlers[h].(stage := if a.Signal? then Sending else Failing)]);
    Go(cfg, q, r, w, first, ready);
    var sys := LockStep(w.lock, q, a);
    assert ready.handlers[h].owed[1..] == [];
    w' := World(sys, ready.handlers[h := ready.handlers[h].(owed := [])]);
    Go(cfg, q, r, ready, Settle(h), w');
  }

  lemma PlayOther(cfg: Config, q: Queue, r: Rules, w: World, a: Chaining.Action) returns (w': World)
    requires At(cfg, q, r, w) && q in w.lock.tasks && Simple(w.handlers, q)
    requires !a.Check? && !a.Signal? && !a.Drop? && Enabled(View(w.lock, q), a) && Allowed(View(w.lock, q), a, r)
    ensures At(cfg, q, r, w') && Simple(w'.handlers, q)
    ensures q in w'.lock.tasks && View(w'.lock, q) == Apply(View(w.lock, q), a)
  {
    var sys := LockStep(w.lock, q, a);
    w' := World(sys, w.handlers);
    Go(cfg, q, r, w, Manage(q, a), w');
  }

  /** Conversely every run of a queue in which unlocks follow checks is what the queue sees of some run
      of handlers. */
  lemma {:induction false} PairedIsHandled(cfg: Config, q: Queue, r: Rules, acts: seq<Chaining.Action>) returns (w: World)
    requires q in cfg.chained && r.paired && Reach(START, acts, r).Some?
    ensures At(cfg, q, r, w) && Simple(w.handlers, q) && q in w.lock.tasks && View(w.lock, q) == Reach(START, acts, r).value
  {
    if acts == [] {
      w := Initially(cfg);
      assert EndsIn(cfg, [w], [], q, r, w);
    } else {
      var a := acts[|acts| - 1];
      w := PairedIsHandled(cfg, q, r, acts[..|acts| - 1]);
      AtKeepsDue(cfg, q, r, w);
      if a.Check? { w := PlayCheck(cfg, q, r, w, a.token); }
      else if a.Signal? || a.Drop? { w := PlaySettle(cfg, q, r, w, a); }
      else { w := PlayOther(cfg, q, r, w, a); }
    }
  }

  predicate OwnOnly(w: World, q: Queue) { q in w.lock.tasks ==> OwnSignals(w.lock.tasks[q].log.released) }

  /** With submit handlers as the only senders of unlocks, three rules are left to the clients, and a set
      of them makes every signalled end of a grant the holder's own exactly when it is all three. */
  lemma ClientRulesExactly(cfg: Config, q: Queue, r: Rules)
    requires q in cfg.chained
    ensures (forall w :: At(cfg, q, r, w) ==> OwnOnly(w, q)) <==> r.solo && r.timely && r.patient
  {
    if r.solo && r.timely && r.patient {
      forall w | At(cfg, q, r, w) ensures OwnOnly(w, q) {
        var ws, steps :| EndsIn(cfg, ws, steps, q, r, w);
        var ss, own := HandlersPair(cfg, ws, steps, q);
        forall i | 0 <= i < |own| ensures Allowed(ss[i], own[i], ALL_RULES) { assert Keeps(cfg, ws[i], steps[i], q, r); }
        OwnSignalEndsGrant(ss, own, |own|);
      }
    } else {
      var r' := r.(paired := true);
      RulesExactly(r');
      var acts :| Breaks(acts, r');
      var w := PairedIsHandled(cfg, q, r', acts);
      assert At(cfg, q, r, w) by {
        var ws, steps :| EndsIn(cfg, ws, steps, q, r', w);
        forall i | 0 <= i < |steps| ensures Keeps(cfg, ws[i], steps[i], q, r) { assert Keeps(cfg, ws[i], steps[i], q, r'); }
        assert EndsIn(cfg, ws, steps, q, r, w);
      }
    }
  }

  // ----- One request on one lock

  /** All checks passed while the items were looked at. */
  function Passed(cfg: Config, items: seq<Item>, seen: seq<Seen>): (r: seq<Pass>)
    requires |seen| <= |items|
  {
    if seen == [] then []
    else
      var n := |seen| - 1;
      Passed(cfg, items, seen[..n]) + Passes(cfg, items[n], seen[n])
  }

  function Queues(ps: seq<Pass>): (r: seq<Queue>) {
    if ps == [] then [] else Queues(ps[..|ps| - 1]) + [ps[|ps| - 1].0]
  }

  lemma {:induction false} OfQueues(q: Queue, ps: seq<Pass>)
    ensures |Of(q, ps)| == multiset(Queues(ps))[q]
  {
    if ps != [] { OfQueues(q, ps[..|ps| - 1]); }
  }

  lemma {:induction false} SignalsOfPrefix(cfg: Config, items: seq<Item>, n: nat, picks: seq<nat>)
    requires n <= |items| && forall k :: 0 <= k < |picks| ==> picks[k] < n
    ensures Signals(cfg, items[..n], picks) == Signals(cfg, items, picks)
  {
    if picks != [] { SignalsOfPrefix(cfg, items, n, picks[..|picks| - 1]); }
  }

  lemma SignalsOne(cfg: Config, items: seq<Item>, seen: seq<Seen>, picks: seq<nat>, n: nat)
    requires n < |items| && |seen| == |items| && Judge(cfg, items[n], seen[n]).Fit?
    requires forall k :: 0 <= k < |picks| ==> picks[k] < |items|
    ensures Signals(cfg, items, picks + [n]) == Signals(cfg, items, picks) + Queues(Passes(cfg, items[n], seen[n]))
  {
    assert (picks + [n])[..|picks|] == picks;
    var ps := Passes(cfg, items[n], seen[n]);
    assert ps != [] ==> ps[..0] == [];
  }

  lemma AdmitLast(cfg: Config, items: seq<Item>, seen: seq<Seen>)
    requires |seen| == |items| && items != [] && Admit(cfg, items, seen).Picked?
    ensures var n := |items| - 1;
            && Admit(cfg, items[..n], seen[..n]).Picked?
            && Admit(cfg, items, seen).picks ==
               Admit(cfg, items[..n], seen[..n]).picks + (if Judge(cfg, items[n], seen[n]).Fit? then [n] else [])
            && (Judge(cfg, items[n], seen[n]).Fit? || Passes(cfg, items[n], seen[n]) == [])
  {
  }

  lemma {:induction false} SignalsNext(cfg: Config, items: seq<Item>, seen: seq<Seen>)
    requires |seen| == |items| && items != [] && Admit(cfg, items, seen).Picked?
    ensures var n := |items| - 1;
            && Admit(cfg, items[..n], seen[..n]).Picked?
            && Decoded(items[..n], seen[..n], Admit(cfg, items[..n], seen[..n]).picks)
            && Decoded(items, seen, Admit(cfg, items, seen).picks)
            && Signals(cfg, items, Admit(cfg, items, seen).picks) ==
               Signals(cfg, items[..n], Admit(cfg, items[..n], seen[..n]).picks) + Queues(Passes(cfg, items[n], seen[n]))
  {
    var n := |items| - 1;
    AdmitLast(cfg, items, seen);
    PicksInOrder(cfg, items, seen);
    PicksInOrder(cfg, items[..n], seen[..n]);
    var picks := Admit(cfg, items[..n], seen[..n]).picks;
    SignalsOfPrefix(cfg, items, n, picks);
    if Judge(cfg, items[n], seen[n]).Fit? { SignalsOne(cfg, items, seen, picks, n); }
  }

  lemma QueuesBoth(a: seq<Pass>, b: seq<Pass>)
    requires |b| <= 1
    ensures Queues(a + b) == Queues(a) + Queues(b)
  {
    if b == [] { assert a + b == a; } else { assert (a + b)[..|a|] == a && b[..0] == []; }
  }

  /** The unlocks of an admitted request are its passed checks, in order. */
  lemma {:induction false} PassedAreSignals(cfg: Config, items: seq<Item>, seen: seq<Seen>)
    requires |seen| == |items| && Admit(cfg, items, seen).Picked?
    ensures Decoded(items, seen, Admit(cfg, items, seen).picks)
    ensures Queues(Passed(cfg, items, seen)) == Signals(cfg, items, Admit(cfg, items, seen).picks)
  {
    if items != [] {
      var n := |items| - 1;
      SignalsNext(cfg, items, seen);
      PassedAreSignals(cfg, items[..n], seen[..n]);
      PassedOfPrefix(cfg, items, seen[..n], n);
      QueuesBoth(Passed(cfg, items, seen[..n]), Passes(cfg, items[n], seen[n]));
    }
  }

  lemma {:induction false} PassedOfPrefix(cfg: Config, items: seq<Item>, seen: seq<Seen>, n: nat)
    requires |seen| <= n <= |items|
    ensures Passed(cfg, items[..n], seen) == Passed(cfg, items, seen)
  {
    if seen != [] { PassedOfPrefix(cfg, items, seen[..|seen| - 1], n); }
  }

  ghost predicate HandlerOk(cfg: Config, h: Handler) {
    && |h.seen| <= |h.items|
    && var all := Passed(cfg, h.items, h.seen);
       && (h.stage.Looking? ==> h.owed == all && Admit(cfg, h.items[..|h.seen|], h.seen).Picked?)
       && (h.stage.Sending? ==>
             && |h.seen| == |h.items| && Admit(cfg, h.items, h.seen).Picked?
             && |h.owed| <= |all| && h.owed == all[|all| - |h.owed|..])
  }

  lemma LookKeepsHandler(cfg: Config, h: Handler, seen: Seen)
    requires HandlerOk(cfg, h) && CanLook(h)
    ensures HandlerOk(cfg, After(cfg, h, seen))
  {
    var n := |h.seen|;
    assert (h.seen + [seen])[..n] == h.seen;
    assert h.items[..n + 1][..n] == h.items[..n] && h.items[..n + 1][n] == h.items[n];
  }

  lemma StepKeepsHandler(cfg: Config, w: World, s: Step, h: nat)
    requires Ready(w, s) && h < |NewHandlers(cfg, w, s)|
    requires h < |w.handlers| ==> HandlerOk(cfg, w.handlers[h])
    ensures HandlerOk(cfg, NewHandlers(cfg, w, s)[h])
  {
    if s.Look? && s.h == h {
      LookKeepsHandler(cfg, w.handlers[h], s.seen);
    } else if s.Stored? && s.h == h {
      var x := w.handlers[h];
      assert x.items[..|x.items|] == x.items;
    } else if s.Begin? && h == |w.handlers| {
      assert s.items[..0] == [];
    }
  }

  lemma {:induction false} RunKeepsHandlers(cfg: Config, ws: seq<World>, steps: seq<Step>, i: nat, h: nat)
    requires Run(cfg, ws, steps) && i < |ws| && h < |ws[i].handlers|
    ensures HandlerOk(cfg, ws[i].handlers[h])
  {
    if i > 0 {
      assert Moves(cfg, ws[i - 1], steps[i - 1], ws[i]);
      if h < |ws[i - 1].handlers| { RunKeepsHandlers(cfg, ws, steps, i - 1, h); }
      StepKeepsHandler(cfg, ws[i - 1], steps[i - 1], h);
    }
  }

  /** Step `j` is the one at which the handler looked at item `n`. */
  ghost predicate LooksAt(ws: seq<World>, steps: seq<Step>, j: nat, h: nat, n: nat, seen: Seen)
    requires j < |steps| < |ws|
  {
    steps[j] == Look(h, seen) && h < |ws[j].handlers| && |ws[j].handlers[h].seen| == n && seen.state == ws[j].lock.state
  }

  lemma SeenBefore(cfg: Config, w: World, s: Step, w': World, h: nat, n: nat)
    requires Moves(cfg, w, s, w') && h < |w'.handlers| && n < |w'.handlers[h].seen|
    ensures h < |w.handlers|
    ensures if n < |w.handlers[h].seen| then w.handlers[h].seen[n] == w'.handlers[h].seen[n]
            else s == Look(h, w'.handlers[h].seen[n]) && |w.handlers[h].seen| == n
  {
  }

  lemma {:induction false} LookedAt(cfg: Config, ws: seq<World>, steps: seq<Step>, i: nat, h: nat, n: nat) returns (j: nat)
    requires Run(cfg, ws, steps) && i < |ws| && h < |ws[i].handlers| && n < |ws[i].handlers[h].seen|
    ensures j < i && LooksAt(ws, steps, j, h, n, ws[i].handlers[h].seen[n])
  {
    j := i - 1;
    assert Moves(cfg, ws[j], steps[j], ws[i]);
    SeenBefore(cfg, ws[j], steps[j], ws[i], h, n);
    if n < |ws[j].handlers[h].seen| { j := LookedAt(cfg, ws, steps, j, h, n); }
  }

  /** At step `j` item `n` was looked at and presented the token that was valid for the queue then. */
  ghost predicate PassedAt(ws: seq<World>, steps: seq<Step>, j: nat, h: nat, n: nat, x: Handler, q: Queue)
    requires |steps| < |ws| && n < |x.seen| == |x.items|
  {
    && j < |steps| && LooksAt(ws, steps, j, h, n, x.seen[n])
    && q in ws[j].lock.tasks && View(ws[j].lock, q).valid == Some(Presented(x.items[n]))
  }

  /** A request whose rows have been stored was admitted, and every stored transaction that names the
      queue presented the token that was valid at the moment it was looked at. */
  lemma RequestOnLock(cfg: Config, ws: seq<World>, steps: seq<Step>, i: nat, h: nat, q: Queue)
    requires Run(cfg, ws, steps) && i < |ws| && q in cfg.chained
    requires h < |ws[i].handlers| && ws[i].handlers[h].stage.Sending?
    ensures var x := ws[i].handlers[h];
            && |x.seen| == |x.items| && Admit(cfg, x.items, x.seen).Picked?
            && var picks := Admit(cfg, x.items, x.seen).picks;
               forall k :: k in Naming(x.items, picks, q) ==> exists j :: 0 <= j < i && PassedAt(ws, steps, j, h, picks[k], x, q)
  {
    RunKeepsHandlers(cfg, ws, steps, i, h);
    var x := ws[i].handlers[h];
    var picks := Admit(cfg, x.items, x.seen).picks;
    PicksInOrder(cfg, x.items, x.seen);
    forall k | k in Naming(x.items, picks, q) ensures exists j :: 0 <= j < i && PassedAt(ws, steps, j, h, picks[k], x, q) {
      assert picks[k] in picks;
      AdmitExact(cfg, x.items, x.seen, picks[k]);
      var j := LookedAt(cfg, ws, steps, i, h, picks[k]);
      RunKeepsDue(cfg, ws, steps, j, q);
      assert PassedAt(ws, steps, j, h, picks[k], x, q);
    }
  }

  /** The unlocks it still owes the queue are checks on the queue's record, one for each such
      transaction to begin with.  It can send them all before another request is taken exactly when
      they fit the channel beside what it holds, but for one more while a grant has not ended, and
      it can neither get stuck nor have to wait exactly when they fit without that. */
  lemma RequestFinishesExactly(cfg: Config, ws: seq<World>, steps: seq<Step>, i: nat, h: nat, q: Queue)
    requires Run(cfg, ws, steps) && i < |ws| && q in cfg.chained
    requires h < |ws[i].handlers| && ws[i].handlers[h].stage.Sending?
    ensures var x := ws[i].handlers[h];
            && |x.seen| == |x.items| && Admit(cfg, x.items, x.seen).Picked?
            && (|x.owed| == |Passed(cfg, x.items, x.seen)| ==>
                  |Of(q, x.owed)| == |Naming(x.items, Admit(cfg, x.items, x.seen).picks, q)|)
    ensures q in ws[i].lock.tasks
    ensures var s, tokens := View(ws[i].lock, q), Of(q, ws[i].handlers[h].owed);
            && multiset(tokens) <= s.task.checked
            && (CanFinish(s, tokens) <==> |s.task.signals| + |tokens| <= UNLOCK_CHANNEL + Budget(s.task.phase))
            && (NeverStuck(s, tokens) <==> |s.task.signals| + |tokens| <= UNLOCK_CHANNEL)
            && (NeverWaits(s, tokens) <==> |s.task.signals| + |tokens| <= UNLOCK_CHANNEL)
  {
    RunKeepsHandlers(cfg, ws, steps, i, h);
    if |ws[i].handlers[h].owed| == |Passed(cfg, ws[i].handlers[h].items, ws[i].handlers[h].seen)| {
      OwedPerQueue(cfg, ws[i].handlers[h], q);
    }
    var s, tokens := OwedOnRecord(cfg, ws, steps, i, h, q);
    CanFinishExactly(s, tokens);
    NeverStuckExactly(s, tokens);
  }

  lemma OwedPerQueue(cfg: Config, x: Handler, q: Queue)
    requires HandlerOk(cfg, x) && x.stage.Sending? && q in cfg.chained && |x.owed| == |Passed(cfg, x.items, x.seen)|
    ensures |Of(q, x.owed)| == |Naming(x.items, Admit(cfg, x.items, x.seen).picks, q)|
  {
    assert x.owed == Passed(cfg, x.items, x.seen);
    PassedAreSignals(cfg, x.items, x.seen);
    OfQueues(q, x.owed);
    SignalsPerQueue(cfg, x.items, Admit(cfg, x.items, x.seen).picks, q);
  }

  lemma OwedOnRecord(cfg: Config, ws: seq<World>, steps: seq<Step>, i: nat, h: nat, q: Queue)
    returns (s: QueueState, tokens: seq<Token>)
    requires Run(cfg, ws, steps) && i < |ws| && q in cfg.chained && h < |ws[i].handlers|
    ensures q in ws[i].lock.tasks && s == View(ws[i].lock, q) && tokens == Of(q, ws[i].handlers[h].owed)
    ensures SignalsOk(s) && multiset(tokens) <= s.task.checked
  {
    RunKeepsDue(cfg, ws, steps, i, q);
    s, tokens := View(ws[i].lock, q), Of(q, ws[i].handlers[h].owed);
    forall t ensures multiset(tokens)[t] <= s.task.checked[t] { DueIn(ws[i].handlers, h, q, t); }
    var ss, own := HandlersPair(cfg, ws, steps, q);
    RunKeeps(ss, own, i);
  }
}
