/** How full the output port of ingest gets over many rounds.

A round computes the capacity left from the length of the port, in 16 bits, and fetches a batch
for it.  Rounding lets a batch exceed that capacity, and a port longer than CAP makes the next
subtraction underflow: with overflow checks that is a panic, without them a huge capacity. */
module Backlog {
  import opened Storage
  import opened Query
  import opened Priority

  const CAP: nat := 50
  const U16: nat := 0x1_0000

  /** `CAP - queued_len as u16`; None is a panic. */
  function Capacity(checked: bool, queued: nat): (cap: Option<nat>)
    ensures cap.None? <==> checked && queued % 0x1_0000 > 50
    ensures cap.Some? ==> cap.value < 0x1_0000 && (cap.value + queued) % 0x1_0000 == 50
  {
    var len := queued % U16;
    Rounds16(queued / U16, len);
    if len <= CAP then Some(CAP - len)
    else if checked then None
    else Some(CAP - len + U16)
  }

  lemma Rounds16(d: nat, len: nat)
    requires len < U16
    ensures len <= CAP ==> (CAP - len + (d * U16 + len)) % U16 == CAP
    ensures len > CAP ==> (CAP - len + U16 + (d * U16 + len)) % U16 == CAP
  {
    assert CAP - len + (d * U16 + len) == d * U16 + CAP;
    assert CAP - len + U16 + (d * U16 + len) == (d + 1) * U16 + CAP;
  }

  lemma CapacityWithin(checked: bool, queued: nat)
    requires queued <= 2 * CAP
    ensures Capacity(checked, queued) ==
            if queued <= CAP then Some(CAP - queued) else if checked then None else Some(U16 + CAP - queued)
  {
    assert queued % U16 == queued;
  }

  datatype Port = Port(queued: nat) | Panicked

  /** A round finds the rows of `table` pending, sends some of its batch, and meanwhile the peers
      take messages off the port. */
  datatype Round = Round(table: Table, shares: seq<Share>, sent: nat, drained: nat)

  function BatchSize(shares: seq<Share>): nat { SumLimits(Limits(shares)) }

  ghost predicate Step(checked: bool, weights: map<Queue, nat>, p: Port, r: Round, p': Port) {
    && p.Port?
    && match Capacity(checked, p.queued)
       case None => p' == Panicked
       case Some(cap) =>
         && (if cap == 0 then r.sent == 0
             else IsPlan(r.table, Pending, weights, cap, r.shares) && r.sent <= BatchSize(r.shares))
         && r.drained <= p.queued + r.sent
         && p' == Port(p.queued + r.sent - r.drained)
  }

  ghost predicate Run(checked: bool, weights: map<Queue, nat>, ports: seq<Port>, rounds: seq<Round>) {
    && |ports| == |rounds| + 1
    && forall i :: 0 <= i < |rounds| ==> Step(checked, weights, ports[i], rounds[i], ports[i + 1])
  }

  predicate Within(p: Port) { p.Port? && p.queued <= CAP }

  // ----- Upper bounds

  /** A batch of n queues exceeds the capacity it is made for by at most n / 2, and never more than
      doubles it. */
  lemma BatchBound(t: Table, weights: map<Queue, nat>, cap: nat, shares: seq<Share>)
    requires IsPlan(t, Pending, weights, cap, shares)
    ensures BatchSize(shares) <= SumQuota(shares) <= 2 * cap && 2 * SumQuota(shares) <= 2 * cap + |shares|
  {
    QuotaSum(shares, cap);
    QuotaSumDouble(shares, cap);
    CascadeConserves(shares);
  }

  /** By how much that can be more than the capacity. */
  function Excess(n: nat, cap: nat): nat { Min(n / 2, cap) }

  /** One round of a run from a length within CAP. */
  lemma RunStep(checked: bool, weights: map<Queue, nat>, ports: seq<Port>, rounds: seq<Round>, i: nat)
    requires Run(checked, weights, ports, rounds) && i < |rounds| && Within(ports[i])
    ensures ports[i + 1].Port? && ports[i + 1].queued <= CAP + Excess(|rounds[i].shares|, CAP)
  {
    var p, r := ports[i], rounds[i];
    assert Step(checked, weights, p, r, ports[i + 1]);
    CapacityWithin(checked, p.queued);
    var cap := CAP - p.queued;
    if cap > 0 { BatchBound(r.table, weights, cap, r.shares); }
  }

  /** As long as at most one queue has pending rows no run ever leaves the capacity, so the
      subtraction never underflows, whatever the build. */
  lemma {:induction false} OneQueueStaysWithin(
    checked: bool, weights: map<Queue, nat>, ports: seq<Port>, rounds: seq<Round>, i: nat)
    requires Run(checked, weights, ports, rounds) && Within(ports[0]) && i < |ports|
    requires forall k :: 0 <= k < |rounds| ==> |rounds[k].shares| <= 1
    ensures Within(ports[i])
  {
    if i > 0 {
      OneQueueStaysWithin(checked, weights, ports, rounds, i - 1);
      RunStep(checked, weights, ports, rounds, i - 1);
    }
  }

  /** With at most n queues per round, a run that starts within the capacity either stays within it
      or has a first length above it, and that one exceeds it by at most n / 2 and CAP. */
  lemma {:induction false} FirstOverrun(
    checked: bool, weights: map<Queue, nat>, ports: seq<Port>, rounds: seq<Round>, n: nat) returns (i: nat)
    requires Run(checked, weights, ports, rounds) && Within(ports[0])
    requires forall k :: 0 <= k < |rounds| ==> |rounds[k].shares| <= n
    ensures i <= |ports| && forall k :: 0 <= k < i ==> Within(ports[k])
    ensures i < |ports| ==> ports[i].Port? && CAP < ports[i].queued <= CAP + Excess(n, CAP)
  {
    i := 1;
    while i < |ports|
      invariant 1 <= i <= |ports| && forall k :: 0 <= k < i ==> Within(ports[k])
    {
      RunStep(checked, weights, ports, rounds, i - 1);
      if !Within(ports[i]) { return; }
      i := i + 1;
    }
  }

  // ----- They are reached: one row in each of n queues, 2k of them with weight 1

  function Name(i: nat): (s: string)
    ensures |s| == i
  {
    seq(i, _ => 'q')
  }

  function Names(base: nat, n: nat): (r: seq<string>)
    ensures |r| == n && forall i :: 0 <= i < n ==> r[i] == Name(base + i)
  {
    seq(n, i requires 0 <= i => Name(base + i))
  }

  lemma Named(base: nat, n: nat, s: string)
    ensures s in Names(base, n) <==> base <= |s| < base + n && s == Name(|s|)
  {
    if base <= |s| < base + n { assert Names(base, n)[|s| - base] == Name(|s|); }
  }

  /** A row in each of n queues, under ids of lengths from `base` on. */
  function Crowd(n: nat, base: nat): (t: Table) {
    map id | id in Names(base, n) :: Transaction(id, [], Pending, Name(|id| - base), None, 0)
  }

  function CrowdWeight(k: nat, i: nat): nat { if i < 2 * k then 1 else 0 }

  function CrowdWeights(n: nat, k: nat): (w: map<Queue, nat>) {
    map q | q in Names(0, n) :: CrowdWeight(k, |q|)
  }

  function CrowdShare(k: nat, cap: nat, i: nat): Share {
    Share(Name(i), CrowdWeight(k, i), Quota(CrowdWeight(k, i), 2 * k, cap), 1)
  }

  function CrowdShares(n: nat, k: nat, cap: nat): (s: seq<Share>)
    ensures |s| == n && forall i :: 0 <= i < n ==> s[i] == CrowdShare(k, cap, i)
  {
    seq(n, i requires 0 <= i => CrowdShare(k, cap, i))
  }

  lemma CrowdQuota(k: nat, cap: nat)
    requires 0 < k <= cap
    ensures Quota(0, 2 * k, cap) == 0 && Quota(1, 2 * k, cap) >= 1
    ensures cap == k ==> Quota(1, 2 * k, cap) == 1
  {
    var x, d := 2 * cap + 2 * k, 4 * k;
    Division(x, d);
  }

  lemma {:induction false} CrowdSums(n: nat, k: nat, cap: nat)
    requires 0 < k <= cap
    ensures TotalWeight(CrowdShares(n, k, cap)) == SumMin(CrowdShares(n, k, cap)) == Min(n, 2 * k)
    ensures cap == k ==> SumQuota(CrowdShares(n, k, cap)) == Min(n, 2 * k)
  {
    if n > 0 {
      CrowdSums(n - 1, k, cap);
      CrowdQuota(k, cap);
      assert CrowdShares(n, k, cap)[..n - 1] == CrowdShares(n - 1, k, cap);
    }
  }

  lemma CrowdCount(n: nat, base: nat, q: Queue)
    ensures Count(Crowd(n, base), Pending, q) == if |q| < n && q == Name(|q|) then 1 else 0
  {
    var t, id := Crowd(n, base), Name(base + |q|);
    Named(base, n, id);
    forall x | x in t ensures base <= |x| && x == Name(|x|) { Named(base, n, x); }
    assert Matching(t, Pending, q) == if |q| < n && q == Name(|q|) then {id} else {};
  }

  lemma CrowdCovers(n: nat, k: nat, cap: nat, base: nat, q: Queue)
    requires Count(Crowd(n, base), Pending, q) > 0
    ensures exists i :: 0 <= i < n && CrowdShares(n, k, cap)[i].queue == q
  {
    CrowdCount(n, base, q);
    assert CrowdShares(n, k, cap)[|q|].queue == q;
  }

  lemma CrowdShareOk(n: nat, k: nat, cap: nat, base: nat, i: nat)
    requires i < n
    ensures var s := CrowdShare(k, cap, i);
            && s.count == Count(Crowd(n, base), Pending, s.queue) > 0
            && s.weight == Weight(CrowdWeights(n, k), s.queue)
            && IsQuota(s.weight, 2 * k, cap, s.quota)
  {
    CrowdCount(n, base, Name(i));
    Named(0, n, Name(i));
  }

  lemma CrowdPlan(n: nat, k: nat, cap: nat, base: nat)
    requires 0 < k <= cap && 2 * k <= n
    ensures IsPlan(Crowd(n, base), Pending, CrowdWeights(n, k), cap, CrowdShares(n, k, cap))
  {
    var shares := CrowdShares(n, k, cap);
    CrowdSums(n, k, cap);
    forall i | 0 <= i < |shares|
      ensures shares[i].count == Count(Crowd(n, base), Pending, shares[i].queue) > 0
      ensures shares[i].weight == Weight(CrowdWeights(n, k), shares[i].queue)
      ensures IsQuota(shares[i].weight, TotalWeight(shares), cap, shares[i].quota)
    {
      CrowdShareOk(n, k, cap, base, i);
    }
    forall q | Count(Crowd(n, base), Pending, q) > 0 ensures exists i :: 0 <= i < |shares| && shares[i].queue == q {
      CrowdCovers(n, k, cap, base, q);
    }
  }

  lemma CrowdBatch(n: nat, k: nat, cap: nat)
    requires 0 < k <= cap && 2 * k <= n
    ensures BatchSize(CrowdShares(n, k, cap)) >= 2 * k
  {
    CrowdSums(n, k, cap);
    TotalBounds(CrowdShares(n, k, cap));
  }

  /** A round of n queues whose quotas, rounded half up, exceed a capacity the port can have by
      `over`. */
  ghost predicate Overshoots(n: nat, over: nat, t: Table, weights: map<Queue, nat>, cap: nat, shares: seq<Share>) {
    && IsPlan(t, Pending, weights, cap, shares) && |shares| == n
    && 0 < cap <= 50 && SumQuota(shares) == cap + over
    && (forall q :: q in weights ==> weights[q] < 256)
    && forall i :: 0 <= i < n ==> shares[i].quota == Quota(shares[i].weight, TotalWeight(shares), cap)
  }

  /** Rounding can grant so much more than the capacity exactly when it is at most n / 2 and CAP; in
      particular it can grant more at all exactly when at least two queues have rows. */
  lemma OvershootExactly(n: nat, over: nat)
    requires over > 0
    ensures (exists t, weights, cap, shares :: Overshoots(n, over, t, weights, cap, shares)) <==> over <= Excess(n, 50)
  {
    if over <= Excess(n, CAP) {
      CrowdOvershoots(n, over);
    } else {
      forall t, weights, cap, shares | Overshoots(n, over, t, weights, cap, shares) ensures false {
        BatchBound(t, weights, cap, shares);
      }
    }
  }

  lemma CrowdOvershoots(n: nat, k: nat)
    requires 0 < k <= Excess(n, CAP)
    ensures Overshoots(n, k, Crowd(n, 0), CrowdWeights(n, k), k, CrowdShares(n, k, k))
  {
    CrowdPlan(n, k, k, 0);
    CrowdSums(n, k, k);
    var w, shares := CrowdWeights(n, k), CrowdShares(n, k, k);
    assert forall q :: q in w ==> w[q] < 256;
    assert TotalWeight(shares) == 2 * k && SumQuota(shares) == 2 * k;
  }

  // ----- In a run

  predicate AllOf(rounds: seq<Round>, n: nat) { forall i :: 0 <= i < |rounds| ==> |rounds[i].shares| == n }

  /** No row is pending in two rounds. */
  predicate Fresh(rounds: seq<Round>) {
    forall i, j :: 0 <= i < j < |rounds| ==> rounds[i].table.Keys !! rounds[j].table.Keys
  }

  /** A run from the empty port with n queues in every round, all lengths but the last within CAP. */
  ghost predicate Fills(checked: bool, n: nat, weights: map<Queue, nat>, ports: seq<Port>, rounds: seq<Round>, last: Port) {
    && Run(checked, weights, ports, rounds) && AllOf(rounds, n) && Fresh(rounds)
    && ports[0] == Port(0) && ports[|rounds|] == last
    && forall i :: 0 <= i < |rounds| ==> Within(ports[i])
  }

  /** The ids used so far are shorter than `m`. */
  predicate Below(rounds: seq<Round>, m: nat) {
    forall i, id :: 0 <= i < |rounds| && id in rounds[i].table ==> |id| < m
  }

  lemma Longer(
    checked: bool, n: nat, weights: map<Queue, nat>, ports: seq<Port>, rounds: seq<Round>, last: Port, r: Round, p: Port)
    returns (ports': seq<Port>, rounds': seq<Round>)
    requires Run(checked, weights, ports, rounds) && AllOf(rounds, n) && ports[|rounds|] == last
    requires Step(checked, weights, last, r, p) && |r.shares| == n
    ensures ports' == ports + [p] && rounds' == rounds + [r]
    ensures Run(checked, weights, ports', rounds') && AllOf(rounds', n)
  {
    ports', rounds' := ports + [p], rounds + [r];
    forall i | 0 <= i < |rounds'| ensures Step(checked, weights, ports'[i], rounds'[i], ports'[i + 1]) {
      if i < |rounds| { assert ports'[i] == ports[i] && ports'[i + 1] == ports[i + 1] && rounds'[i] == rounds[i]; }
    }
  }

  /** A round on a crowd with ids from `base` on that sends `sent` of its at least 2k messages. */
  function CrowdRound(n: nat, k: nat, cap: nat, base: nat, sent: nat): Round {
    Round(Crowd(n, base), CrowdShares(n, k, cap), sent, 0)
  }

  lemma CrowdSends(n: nat, k: nat, cap: nat, base: nat, sent: nat) returns (r: Round)
    requires 0 < k <= cap && 2 * k <= n && sent <= 2 * k
    ensures r.table == Crowd(n, base) && |r.shares| == n && r.sent == sent && r.drained == 0
    ensures IsPlan(r.table, Pending, CrowdWeights(n, k), cap, r.shares) && r.sent <= BatchSize(r.shares)
  {
    r := CrowdRound(n, k, cap, base, sent);
    assert r.sent <= BatchSize(r.shares) by { CrowdBatch(n, k, cap); }
    CrowdPlan(n, k, cap, base);
  }

  lemma CrowdStep(checked: bool, n: nat, k: nat, queued: nat, base: nat, sent: nat) returns (r: Round)
    requires 0 < k && 2 * k <= n && queued + k <= CAP && sent <= 2 * k
    ensures r.table == Crowd(n, base) && |r.shares| == n
    ensures Step(checked, CrowdWeights(n, k), Port(queued), r, Port(queued + sent))
  {
    var cap := CAP - queued;
    r := CrowdSends(n, k, cap, base, sent);
    PlannedStep(checked, CrowdWeights(n, k), Port(queued), cap, r, Port(queued + sent));
  }

  /** A round that sends some of the batch of a plan. */
  lemma PlannedStep(checked: bool, weights: map<Queue, nat>, p: Port, cap: nat, r: Round, p': Port)
    requires p.Port? && p.queued + cap == CAP && cap > 0 && r.drained == 0 && p' == Port(p.queued + r.sent)
    requires IsPlan(r.table, Pending, weights, cap, r.shares) && r.sent <= BatchSize(r.shares)
    ensures Step(checked, weights, p, r, p')
  {
    CapacityWithin(checked, p.queued);
  }

  lemma CrowdIds(n: nat, base: nat, id: Id)
    requires id in Crowd(n, base)
    ensures base <= |id| < base + n
  {
    Named(base, n, id);
  }

  lemma FreshLonger(n: nat, rounds: seq<Round>, r: Round, m: nat)
    requires Fresh(rounds) && Below(rounds, m) && r.table == Crowd(n, m)
    ensures Fresh(rounds + [r]) && Below(rounds + [r], m + n)
  {
    forall id | id in r.table ensures m <= |id| < m + n { CrowdIds(n, m, id); }
    var all := rounds + [r];
    forall i, j | 0 <= i < j < |all| ensures all[i].table.Keys !! all[j].table.Keys {
      assert j < |rounds| ==> rounds[i].table.Keys !! rounds[j].table.Keys;
    }
  }

  lemma FillsLonger(
    checked: bool, n: nat, weights: map<Queue, nat>, ports: seq<Port>, rounds: seq<Round>, last: Port, r: Round, p: Port)
    returns (ports': seq<Port>, rounds': seq<Round>)
    requires Fills(checked, n, weights, ports, rounds, last) && Within(last) && Fresh(rounds + [r])
    requires Step(checked, weights, last, r, p) && |r.shares| == n
    ensures rounds' == rounds + [r] && Fills(checked, n, weights, ports', rounds', p)
  {
    ports', rounds' := Longer(checked, n, weights, ports, rounds, last, r, p);
  }

  lemma FillOne(
    checked: bool, n: nat, k: nat, queued: nat, sent: nat, ports: seq<Port>, rounds: seq<Round>, m: nat)
    returns (ports': seq<Port>, rounds': seq<Round>)
    requires 0 < k && 2 * k <= n && queued + k <= CAP && sent <= 2 * k
    requires Fills(checked, n, CrowdWeights(n, k), ports, rounds, Port(queued)) && Below(rounds, m)
    ensures Fills(checked, n, CrowdWeights(n, k), ports', rounds', Port(queued + sent)) && Below(rounds', m + n)
  {
    var r := CrowdStep(checked, n, k, queued, m, sent);
    FreshLonger(n, rounds, r, m);
    ports', rounds' := FillsLonger(checked, n, CrowdWeights(n, k), ports, rounds, Port(queued), r, Port(queued + sent));
  }

  lemma {:induction false} FillTo(checked: bool, n: nat, k: nat, queued: nat)
    returns (ports: seq<Port>, rounds: seq<Round>, m: nat)
    requires 0 < k && 2 * k <= n && queued + k <= CAP
    ensures Fills(checked, n, CrowdWeights(n, k), ports, rounds, Port(queued)) && Below(rounds, m)
  {
    ports, rounds, m := [Port(0)], [], 0;
    if queued > 0 {
      ports, rounds, m := FillTo(checked, n, k, queued - 1);
      ports, rounds := FillOne(checked, n, k, queued - 1, 1, ports, rounds, m);
      m := m + n;
    }
  }

  /** With n queues in every round, none of whose rows is ever seen twice, the first length above
      CAP that a run can reach exceeds it by exactly 1 up to the smaller of n / 2 and CAP. */
  lemma OverrunExactly(checked: bool, n: nat, queued: nat)
    requires queued > 50
    ensures (exists weights, ports, rounds :: Fills(checked, n, weights, ports, rounds, Port(queued))) <==>
            queued <= 50 + Excess(n, 50)
  {
    if queued <= CAP + Excess(n, CAP) {
      var ports, rounds, m := Overrun(checked, n, queued);
    } else {
      forall weights, ports, rounds | Fills(checked, n, weights, ports, rounds, Port(queued)) ensures false {
        var i := FirstOverrun(checked, weights, ports, rounds, n);
      }
    }
  }

  lemma Overrun(checked: bool, n: nat, queued: nat) returns (ports: seq<Port>, rounds: seq<Round>, m: nat)
    requires CAP < queued <= CAP + Excess(n, CAP)
    ensures Fills(checked, n, CrowdWeights(n, queued - CAP), ports, rounds, Port(queued)) && Below(rounds, m)
  {
    var k := queued - CAP;
    ports, rounds, m := FillTo(checked, n, k, CAP - k);
    ports, rounds := FillOne(checked, n, k, CAP - k, 2 * k, ports, rounds, m);
    m := m + n;
  }

  /** A run from the empty port, with n queues in every round and no row pending twice, that ends in
      the panic. */
  ghost predicate EndsInPanic(n: nat, weights: map<Queue, nat>, ports: seq<Port>, rounds: seq<Round>) {
    && Run(true, weights, ports, rounds) && AllOf(rounds, n) && Fresh(rounds)
    && ports[0] == Port(0) && ports[|rounds|] == Panicked
  }

  /** With n queues in every round the subtraction can underflow exactly when n is at least 2. */
  lemma UnderflowExactly(n: nat)
    ensures (exists weights, ports, rounds :: EndsInPanic(n, weights, ports, rounds)) <==> n >= 2
  {
    if n >= 2 {
      UnderflowRun(n);
    } else {
      forall weights, ports, rounds | EndsInPanic(n, weights, ports, rounds) ensures false {
        OneQueueStaysWithin(true, weights, ports, rounds, |rounds|);
      }
    }
  }

  lemma UnderflowRun(n: nat)
    requires n >= 2
    ensures exists weights, ports, rounds :: EndsInPanic(n, weights, ports, rounds)
  {
    var w := CrowdWeights(n, 1);
    var ports, rounds, m := Overrun(true, n, CAP + 1);
    var r := CrowdRound(n, 1, 1, m, 0);
    CapacityWithin(true, CAP + 1);
    var ports', rounds' := Longer(true, n, w, ports, rounds, Port(CAP + 1), r, Panicked);
    FreshLonger(n, rounds, r, m);
    assert EndsInPanic(n, w, ports', rounds');
  }
}
