/** Whose unlock signal ends a grant, and how many signals a submit can send.

A signal says nothing about who sent it.  Four rules together make every signalled end the
holder's own; dropping any of them lets a grant be ended by a signal that was meant for another
one.  Three are for the clients; the fourth is about the handlers that send the signals. */
module LockRules {
  import opened Storage
  import opened Chaining

  /** A check that the manager lets pass; one it refuses changes nothing and is free to anyone. */
  predicate Passes(s: QueueState, a: Action) { a.Check? && s.valid == Some(a.token) }

  /** A token serves one submit with one transaction for the queue. */
  predicate Solo(s: QueueState, a: Action) { Passes(s, a) ==> a.token !in s.task.log.accepted }

  /** A token passes only after it was handed to its client and before its timeout has fired. */
  predicate Timely(s: QueueState, a: Action) { Passes(s, a) ==> s.task.phase == Held(a.token) }

  /** No timeout fires between the check of a token and the consumption of its signal. */
  predicate Patient(s: QueueState, a: Action) { a.Expire? ==> s.task.checked == multiset{} && s.task.signals == [] }

  /** A signal is sent by a submit that passed its token check and has not signalled yet. */
  predicate Paired(s: QueueState, a: Action) { a.Signal? ==> a.token in s.task.checked }

  /** Which of the rules are kept. */
  datatype Rules = Rules(solo: bool, timely: bool, patient: bool, paired: bool)

  const ALL_RULES := Rules(true, true, true, true)

  predicate Allowed(s: QueueState, a: Action, r: Rules) {
    && (r.solo ==> Solo(s, a)) && (r.timely ==> Timely(s, a))
    && (r.patient ==> Patient(s, a)) && (r.paired ==> Paired(s, a))
  }

  predicate OwnSignals(released: seq<Release>) {
    forall i :: 0 <= i < |released| ==> released[i].sender == released[i].holder
  }

  /** At most one submit is under way, it is the holder's, and its signal is the only one. */
  predicate UseOk(s: QueueState) {
    var t := s.task;
    && OwnSignals(t.log.released)
    && match t.phase
       case Held(token) =>
         || (t.checked == multiset{} && t.signals == [])
         || (token in t.log.accepted && t.checked == multiset{token} && t.signals == [])
         || (token in t.log.accepted && t.checked == multiset{} && t.signals == [token])
       case _ => t.checked == multiset{} && t.signals == []
  }

  lemma StepKeepsUse(s: QueueState, a: Action)
    requires TokensOk(s) && UseOk(s) && Enabled(s, a) && Allowed(s, a, ALL_RULES)
    ensures UseOk(Apply(s, a))
  {
  }

  lemma {:induction false} RunKeepsUse(ss: seq<QueueState>, acts: seq<Action>, i: nat)
    requires Run(ss, acts) && i < |ss|
    requires forall k :: 0 <= k < |acts| ==> Allowed(ss[k], acts[k], ALL_RULES)
    ensures UseOk(ss[i])
  {
    if i > 0 {
      var s, a := ss[i - 1], acts[i - 1];
      RunKeepsUse(ss, acts, i - 1);
      assert TokensOk(s) by { RunKeeps(ss, acts, i - 1); }
      StepKeepsUse(s, a);
    }
  }

  /** In every run that keeps the rules each grant that a signal ends is ended by its holder's own
      signal, and no signal is buffered whenever a lock is not held, in particular at every
      grant. */
  lemma OwnSignalEndsGrant(ss: seq<QueueState>, acts: seq<Action>, i: nat)
    requires Run(ss, acts) && i < |ss|
    requires forall k :: 0 <= k < |acts| ==> Allowed(ss[k], acts[k], ALL_RULES)
    ensures OwnSignals(ss[i].task.log.released)
    ensures !ss[i].task.phase.Held? ==> ss[i].task.signals == []
    ensures i < |acts| && acts[i].Consume? ==> ss[i].task.signals == [ss[i].task.phase.token]
  {
    RunKeepsUse(ss, acts, i);
  }

  // ----- Where a list of actions leads

  const START := QueueState(IDLE_TASK, None)

  /** From `s`, if the actions are possible and keep the rules. */
  function Reach(s: QueueState, acts: seq<Action>, r: Rules): Option<QueueState> {
    if acts == [] then Some(s)
    else
      var before, a := Reach(s, acts[..|acts| - 1], r), acts[|acts| - 1];
      if before.Some? && Enabled(before.value, a) && Allowed(before.value, a, r) then Some(Apply(before.value, a)) else None
  }

  lemma Then(s0: QueueState, acts: seq<Action>, s: QueueState, a: Action, r: Rules)
    returns (acts': seq<Action>, s': QueueState)
    requires Reach(s0, acts, r) == Some(s) && Enabled(s, a) && Allowed(s, a, r)
    ensures acts' == acts + [a] && s' == Apply(s, a) && Reach(s0, acts', r) == Some(s')
  {
    acts', s' := acts + [a], Apply(s, a);
    assert acts'[..|acts|] == acts;
  }

  /** From the start such a list of actions is a run. */
  lemma {:induction false} ReachIsRun(acts: seq<Action>, r: Rules) returns (ss: seq<QueueState>)
    requires Reach(START, acts, r).Some?
    ensures Run(ss, acts) && ss[|acts|] == Reach(START, acts, r).value
    ensures forall k :: 0 <= k < |acts| ==> Allowed(ss[k], acts[k], r)
  {
    if acts == [] {
      ss := [START];
    } else {
      var n := |acts| - 1;
      var init := acts[..n];
      var before := ReachIsRun(init, r);
      ss := before + [Reach(START, acts, r).value];
      forall k | 0 <= k < |acts|
        ensures Enabled(ss[k], acts[k]) && Allowed(ss[k], acts[k], r) && ss[k + 1] == Apply(ss[k], acts[k])
      {
        if k < n { assert ss[k] == before[k] && ss[k + 1] == before[k + 1] && acts[k] == init[k]; }
      }
    }
  }

  predicate Looser(a: Rules, b: Rules) {
    (a.solo ==> b.solo) && (a.timely ==> b.timely) && (a.patient ==> b.patient) && (a.paired ==> b.paired)
  }

  lemma {:induction false} LooserReach(s: QueueState, acts: seq<Action>, a: Rules, b: Rules)
    requires Looser(a, b) && Reach(s, acts, b).Some?
    ensures Reach(s, acts, a) == Reach(s, acts, b)
  {
    if acts != [] { LooserReach(s, acts[..|acts| - 1], a, b); }
  }

  // ----- Each rule is needed

  /** The actions break the property although they keep the rules. */
  predicate Breaks(acts: seq<Action>, r: Rules) {
    Reach(START, acts, r).Some? && !OwnSignals(Reach(START, acts, r).value.task.log.released)
  }

  lemma FirstRequest(r: Rules) returns (acts: seq<Action>, s: QueueState)
    ensures Reach(START, acts, r) == Some(s)
    ensures s == QueueState(Task([], [], Granting(1, "a"), multiset{}, Log([1], [], ["a"], [], [], [], [], [], [])), Some("a"))
  {
    acts, s := Then(START, [], START, Lock(1), r);
    assert s == QueueState(Task([1], [], Waiting, multiset{}, EMPTY_LOG.(arrived := [1])), None);
    acts, s := Then(START, acts, s, Take("a"), r);
  }

  lemma FirstGrant(r: Rules) returns (acts: seq<Action>, s: QueueState)
    ensures Reach(START, acts, r) == Some(s)
    ensures s == QueueState(
                   Task([], [], Held("a"), multiset{}, Log([1], [Granted(1, "a")], ["a"], ["a"], [], [], [], [], [])), Some("a"))
  {
    acts, s := FirstRequest(r);
    acts, s := Then(START, acts, s, Answer, r);
  }

  /** A submit that outlives its grant ends the next one. */
  lemma StrayEndsNext(before: seq<Action>, s0: QueueState, r: Rules) returns (acts: seq<Action>)
    requires Reach(START, before, r) == Some(s0)
    requires s0.task.phase.Waiting? && s0.task.requests == [] && s0.task.signals == []
    requires "a" in s0.task.checked && "b" !in s0.task.log.issued
    ensures Breaks(acts, r)
  {
    var s := s0;
    acts, s := Then(START, before, s, Lock(2), r);
    acts, s := Then(START, acts, s, Take("b"), r);
    acts, s := Then(START, acts, s, Answer, r);
    acts, s := Then(START, acts, s, Signal("a"), r);
    acts, s := Then(START, acts, s, Consume, r);
    assert s.task.log.released[|s.task.log.released| - 1] == Release("b", "a");
  }

  lemma TimeoutDuringSubmit() returns (acts: seq<Action>)
    ensures Breaks(acts, ALL_RULES.(patient := false))
  {
    var r, s := ALL_RULES.(patient := false), START;
    acts, s := FirstGrant(r);
    acts, s := Then(START, acts, s, Check("a"), r);
    acts, s := Then(START, acts, s, Expire, r);
    acts, s := Then(START, acts, s, Clear, r);
    acts := StrayEndsNext(acts, s, r);
  }

  lemma CheckAfterTimeout() returns (acts: seq<Action>)
    ensures Breaks(acts, ALL_RULES.(timely := false))
  {
    var r, s := ALL_RULES.(timely := false), START;
    acts, s := FirstGrant(r);
    acts, s := Then(START, acts, s, Expire, r);
    acts, s := Then(START, acts, s, Check("a"), r);
    acts, s := Then(START, acts, s, Clear, r);
    acts := StrayEndsNext(acts, s, r);
  }

  lemma BothChecked(r: Rules) returns (acts: seq<Action>, s: QueueState)
    requires !r.solo
    ensures Reach(START, acts, r) == Some(s) && s.valid == Some("a")
    ensures s.task == Task([], [], Held("a"), multiset{"a", "a"},
                           Log([1], [Granted(1, "a")], ["a"], ["a"], [], ["a", "a"], [], [], []))
  {
    acts, s := FirstGrant(r);
    acts, s := Then(START, acts, s, Check("a"), r);
    acts, s := Then(START, acts, s, Check("a"), r);
  }

  lemma TwoTransactionsOneToken() returns (acts: seq<Action>)
    ensures Breaks(acts, ALL_RULES.(solo := false))
  {
    var r, s := ALL_RULES.(solo := false), START;
    acts, s := BothChecked(r);
    acts, s := Then(START, acts, s, Signal("a"), r);
    acts, s := Then(START, acts, s, Consume, r);
    acts, s := Then(START, acts, s, Clear, r);
    acts := StrayEndsNext(acts, s, r);
  }

  lemma UnaskedSignal() returns (acts: seq<Action>)
    ensures Breaks(acts, ALL_RULES.(paired := false))
  {
    var r, s := ALL_RULES.(paired := false), START;
    acts, s := FirstGrant(r);
    acts, s := Then(START, acts, s, Signal("b"), r);
    acts, s := Then(START, acts, s, Consume, r);
    assert s.task.log.released[0] == Release("a", "b");
  }

  /** A set of rules makes every signalled end the holder's own exactly when it is all four. */
  lemma RulesExactly(r: Rules)
    ensures (forall acts :: !Breaks(acts, r)) <==> r == ALL_RULES
  {
    if r == ALL_RULES {
      forall acts ensures !Breaks(acts, r) {
        if Reach(START, acts, r).Some? {
          var ss := ReachIsRun(acts, r);
          OwnSignalEndsGrant(ss, acts, |acts|);
        }
      }
    } else {
      var worst := ALL_RULES;
      var acts: seq<Action> := [];
      if !r.solo {
        worst := ALL_RULES.(solo := false);
        acts := TwoTransactionsOneToken();
      } else if !r.timely {
        worst := ALL_RULES.(timely := false);
        acts := CheckAfterTimeout();
      } else if !r.patient {
        worst := ALL_RULES.(patient := false);
        acts := TimeoutDuringSubmit();
      } else {
        worst := ALL_RULES.(paired := false);
        acts := UnaskedSignal();
      }
      LooserReach(START, acts, r, worst);
      assert Breaks(acts, r);
    }
  }

  // ----- How many signals one grant lets through

  const PAIRED_ONLY := Rules(false, false, false, true)

  predicate NoTake(acts: seq<Action>) { forall i :: 0 <= i < |acts| ==> !acts[i].Take? }

  /** How many more waits can end before another request is taken. */
  function Budget(p: Phase): nat { if p.Granting? || p.Held? then 1 else 0 }

  lemma {:induction false} BudgetSpent(s: QueueState, acts: seq<Action>, r: Rules)
    requires SignalsOk(s) && NoTake(acts) && Reach(s, acts, r).Some?
    ensures var t := Reach(s, acts, r).value;
            && SignalsOk(t)
            && |t.task.log.released| + Budget(t.task.phase) <= |s.task.log.released| + Budget(s.task.phase)
  {
    if acts != [] {
      var init, a := acts[..|acts| - 1], acts[|acts| - 1];
      BudgetSpent(s, init, r);
      StepKeepsSignals(Reach(s, init, r).value, a);
    }
  }

  lemma {:induction false} ReleasedGrows(s: QueueState, acts: seq<Action>, r: Rules)
    requires SignalsOk(s) && Reach(s, acts, r).Some?
    ensures SignalsOk(Reach(s, acts, r).value)
    ensures |s.task.log.released| <= |Reach(s, acts, r).value.task.log.released|
  {
    if acts != [] {
      var init, a := acts[..|acts| - 1], acts[|acts| - 1];
      ReleasedGrows(s, init, r);
      StepKeepsSignals(Reach(s, init, r).value, a);
    }
  }

  /** A submit that owes the signals of `tokens` has sent the first `j` of them, nobody else has
      sent any, and the rest is still to come. */
  predicate SentSoFar(s: QueueState, acts: seq<Action>, tokens: seq<Token>, j: nat)
    requires j <= |tokens|
  {
    && Reach(s, acts, PAIRED_ONLY).Some?
    && var t := Reach(s, acts, PAIRED_ONLY).value.task;
       t.log.sent == s.task.log.sent + tokens[..j] && multiset(tokens[j..]) <= t.checked
  }

  /** It can send them all before another request is taken. */
  ghost predicate CanFinish(s: QueueState, tokens: seq<Token>) {
    exists acts :: NoTake(acts) && SentSoFar(s, acts, tokens, |tokens|)
  }

  /** Whatever happens meanwhile, it can still send the rest before another request is taken. */
  ghost predicate NeverStuck(s: QueueState, tokens: seq<Token>) {
    forall acts, j :: 0 <= j <= |tokens| && NoTake(acts) && SentSoFar(s, acts, tokens, j) ==>
      CanFinish(Reach(s, acts, PAIRED_ONLY).value, tokens[j..])
  }

  /** Whatever happens meanwhile, the channel has room for its next signal. */
  ghost predicate NeverWaits(s: QueueState, tokens: seq<Token>) {
    forall acts, j :: 0 <= j < |tokens| && SentSoFar(s, acts, tokens, j) ==>
      |Reach(s, acts, PAIRED_ONLY).value.task.signals| < UNLOCK_CHANNEL
  }

  /** `t` is as `s` but for the first `j` signals, which have been sent. */
  predicate FirstSent(s: QueueState, t: QueueState, tokens: seq<Token>, j: nat)
    requires j <= |tokens|
  {
    && t.task.signals == s.task.signals + tokens[..j] && t.task.log.sent == s.task.log.sent + tokens[..j]
    && multiset(tokens[j..]) <= t.task.checked && t.task.phase == s.task.phase
  }

  lemma SendNext(s: QueueState, t: QueueState, tokens: seq<Token>, j: nat)
    requires j < |tokens| && FirstSent(s, t, tokens, j) && |t.task.signals| < UNLOCK_CHANNEL
    ensures Enabled(t, Signal(tokens[j])) && Paired(t, Signal(tokens[j]))
    ensures FirstSent(s, Apply(t, Signal(tokens[j])), tokens, j + 1)
  {
    assert tokens[j..] == [tokens[j]] + tokens[j + 1..];
    assert tokens[..j + 1] == tokens[..j] + [tokens[j]];
  }

  /** The first `j` signals go out one after the other while the manager does nothing. */
  lemma {:induction false} SendFirst(s0: QueueState, before: seq<Action>, s: QueueState, tokens: seq<Token>, j: nat)
    returns (acts: seq<Action>, t: QueueState)
    requires NoTake(before) && Reach(s0, before, PAIRED_ONLY) == Some(s)
    requires j <= |tokens| && multiset(tokens) <= s.task.checked && |s.task.signals| + j <= UNLOCK_CHANNEL
    ensures NoTake(acts) && Reach(s0, acts, PAIRED_ONLY) == Some(t) && FirstSent(s, t, tokens, j)
  {
    acts, t := before, s;
    if j == 0 {
      assert tokens[0..] == tokens;
    } else {
      acts, t := SendFirst(s0, before, s, tokens, j - 1);
      SendNext(s, t, tokens, j - 1);
      acts, t := Then(s0, acts, t, Signal(tokens[j - 1]), PAIRED_ONLY);
    }
  }

  /** A full channel and a grant that can still end: one signal is consumed. */
  lemma MakeRoom(s0: QueueState, before: seq<Action>, s: QueueState) returns (acts: seq<Action>, t: QueueState)
    requires NoTake(before) && Reach(s0, before, PAIRED_ONLY) == Some(s)
    requires s.task.signals != [] && Budget(s.task.phase) == 1
    ensures NoTake(acts) && Reach(s0, acts, PAIRED_ONLY) == Some(t)
    ensures t.task.signals == s.task.signals[1..] && t.task.log.sent == s.task.log.sent && t.task.checked == s.task.checked
  {
    acts, t := before, s;
    if s.task.phase.Granting? { acts, t := Then(s0, acts, t, Answer, PAIRED_ONLY); }
    acts, t := Then(s0, acts, t, Consume, PAIRED_ONLY);
  }

  lemma Finish(s: QueueState, tokens: seq<Token>) returns (acts: seq<Action>)
    requires multiset(tokens) <= s.task.checked && |s.task.signals| <= UNLOCK_CHANNEL
    requires |s.task.signals| + |tokens| <= UNLOCK_CHANNEL + Budget(s.task.phase)
    ensures NoTake(acts) && SentSoFar(s, acts, tokens, |tokens|)
  {
    var k := |tokens|;
    var room, t := UNLOCK_CHANNEL - |s.task.signals|, s;
    var j := if k <= room then k else room;
    acts, t := SendFirst(s, [], s, tokens, j);
    if j < k {
      acts, t := MakeRoom(s, acts, t);
      assert tokens[j..] == [tokens[j]] && tokens == tokens[..j] + [tokens[j]];
      acts, t := Then(s, acts, t, Signal(tokens[j]), PAIRED_ONLY);
    }
    assert tokens[..k] == tokens && tokens[k..] == [];
  }

  /** A submit that owes k signals to a queue can send them all before another request is taken
      exactly when they fit the channel beside what it holds, but for one more if the current
      grant has not ended: 65 from the holder of a lock whose channel is empty. */
  lemma CanFinishExactly(s: QueueState, tokens: seq<Token>)
    requires SignalsOk(s) && multiset(tokens) <= s.task.checked
    ensures CanFinish(s, tokens) <==> |s.task.signals| + |tokens| <= UNLOCK_CHANNEL + Budget(s.task.phase)
  {
    if |s.task.signals| + |tokens| <= UNLOCK_CHANNEL + Budget(s.task.phase) {
      var acts := Finish(s, tokens);
    } else {
      forall acts | NoTake(acts) && SentSoFar(s, acts, tokens, |tokens|) ensures false {
        BudgetSpent(s, acts, PAIRED_ONLY);
      }
    }
  }

  lemma OneStep(s: QueueState, a: Action) returns (acts: seq<Action>)
    requires Enabled(s, a) && Allowed(s, a, PAIRED_ONLY) && !a.Take?
    ensures NoTake(acts) && Reach(s, acts, PAIRED_ONLY) == Some(Apply(s, a))
  {
    var t;
    acts, t := Then(s, [], s, a, PAIRED_ONLY);
  }

  /** The current grant ends without consuming anything. */
  lemma TimesOut(s: QueueState) returns (acts: seq<Action>, t: QueueState)
    ensures NoTake(acts) && Reach(s, acts, PAIRED_ONLY) == Some(t) && Budget(t.task.phase) == 0
    ensures t.task.signals == s.task.signals && t.task.log.sent == s.task.log.sent && t.task.checked == s.task.checked
  {
    if s.task.phase.Granting? {
      acts := OneStep(s, StorageError);
      t := Apply(s, StorageError);
    } else if s.task.phase.Held? {
      acts := OneStep(s, Expire);
      t := Apply(s, Expire);
    } else {
      acts, t := [], s;
    }
  }

  /** It can never get stuck, and never has to wait, exactly when they fit the channel beside what it
      holds: 64 in an empty one.  With one more a timeout before the first signal leaves the submit
      waiting until somebody else asks for the lock. */
  lemma NeverStuckExactly(s: QueueState, tokens: seq<Token>)
    requires SignalsOk(s) && multiset(tokens) <= s.task.checked
    ensures NeverStuck(s, tokens) <==> |s.task.signals| + |tokens| <= UNLOCK_CHANNEL
    ensures NeverWaits(s, tokens) <==> |s.task.signals| + |tokens| <= UNLOCK_CHANNEL
  {
    if |s.task.signals| + |tokens| <= UNLOCK_CHANNEL {
      StaysRoomy(s, tokens);
    } else {
      GetsStuck(s, tokens);
      var j := UNLOCK_CHANNEL - |s.task.signals|;
      var acts, t := SendFirst(s, [], s, tokens, j);
      assert SentSoFar(s, acts, tokens, j);
    }
  }

  /** A submit with k transactions for the queue its client holds, nothing being buffered: it can send
      all its unlocks before another request is taken exactly when k is at most 65, and nothing can
      keep it from that, nor make it wait, exactly when k is at most 64. */
  lemma SubmitFinishesExactly(s: QueueState, tokens: seq<Token>)
    requires SignalsOk(s) && multiset(tokens) <= s.task.checked && s.task.phase.Held? && s.task.signals == []
    ensures CanFinish(s, tokens) <==> |tokens| <= 65
    ensures NeverStuck(s, tokens) <==> |tokens| <= 64
    ensures NeverWaits(s, tokens) <==> |tokens| <= 64
  {
    CanFinishExactly(s, tokens);
    NeverStuckExactly(s, tokens);
  }

  lemma GetsStuck(s: QueueState, tokens: seq<Token>)
    requires SignalsOk(s) && multiset(tokens) <= s.task.checked && |s.task.signals| + |tokens| > UNLOCK_CHANNEL
    ensures !NeverStuck(s, tokens)
  {
    var acts, t := TimesOut(s);
    assert tokens[0..] == tokens && s.task.log.sent + tokens[..0] == s.task.log.sent;
    assert SentSoFar(s, acts, tokens, 0);
    ReleasedGrows(s, acts, PAIRED_ONLY);
    CanFinishExactly(t, tokens);
  }

  lemma StaysRoomy(s: QueueState, tokens: seq<Token>)
    requires SignalsOk(s) && |s.task.signals| + |tokens| <= UNLOCK_CHANNEL
    ensures NeverStuck(s, tokens) && NeverWaits(s, tokens)
  {
    forall acts, j | 0 <= j <= |tokens| && SentSoFar(s, acts, tokens, j)
      ensures |Reach(s, acts, PAIRED_ONLY).value.task.signals| <= |s.task.signals| + j
      ensures CanFinish(Reach(s, acts, PAIRED_ONLY).value, tokens[j..])
    {
      ReleasedGrows(s, acts, PAIRED_ONLY);
      CanFinishExactly(Reach(s, acts, PAIRED_ONLY).value, tokens[j..]);
    }
  }
}
