/** The weighted scheduler: how many rows of each queue go into the next batch.

Each queue with pending rows gets a rounded share of the capacity; what a queue does not
use goes on to the next one.  The shares come out of a hash map, so the order in which they
are visited is arbitrary and every statement below is about every order. */
module Priority {
  import opened Storage
  import opened Query

  const DEFAULT_WEIGHT: nat := 1

  /** A queue as the loop meets it: its rounded quota and its number of rows. */
  datatype Share = Share(queue: Queue, weight: nat, quota: nat, count: nat)

  // ----- Quotas

  function TotalWeight(shares: seq<Share>): (w: nat) {
    if shares == [] then 0 else TotalWeight(shares[..|shares| - 1]) + shares[|shares| - 1].weight
  }

  function SumQuota(shares: seq<Share>): (q: nat) {
    if shares == [] then 0 else SumQuota(shares[..|shares| - 1]) + shares[|shares| - 1].quota
  }

  function SumCount(shares: seq<Share>): (q: nat) {
    if shares == [] then 0 else SumCount(shares[..|shares| - 1]) + shares[|shares| - 1].count
  }

  function Abs(x: int): nat { if x < 0 then -x else x }

  /** `quota` is an integer nearest to weight / total * cap, ties going either way.  With no
      weight at all the quotient is not a number and becomes 0. */
  predicate IsQuota(weight: nat, total: nat, cap: nat, quota: nat) {
    if total == 0 then quota == 0 else 2 * Abs(quota * total - weight * cap) <= total
  }

  /** Rounding half away from zero. */
  function Quota(weight: nat, total: nat, cap: nat): (quota: nat)
    ensures IsQuota(weight, total, cap, quota)
  {
    if total == 0 then 0
    else
      var x, d := 2 * (weight * cap) + total, 2 * total;
      Division(x, d);
      Halve(x / d, total, weight * cap, x % d);
      x / d
  }

  lemma Division(x: nat, d: nat)
    requires d > 0
    ensures x == (x / d) * d + x % d && 0 <= x % d < d && x / d >= 0
  {
  }

  lemma Halve(q: nat, total: nat, y: nat, r: nat)
    requires 2 * y + total == q * (2 * total) + r && r < 2 * total
    ensures 2 * Abs(q * total - y) <= total
  {
    assert q * (2 * total) == 2 * (q * total);
  }

  ghost predicate Quotas(shares: seq<Share>, total: nat, cap: nat) {
    forall i {:trigger IsQuota(shares[i].weight, total, cap, shares[i].quota)} ::
      0 <= i < |shares| ==> IsQuota(shares[i].weight, total, cap, shares[i].quota)
  }

  lemma Spread(a: int, b: int, c: int)
    ensures (a + b) * c == a * c + b * c
    ensures (a - b) * c == a * c - b * c
  {
  }

  lemma Grows(a: int, b: int, c: nat)
    requires a < b && c > 0
    ensures a * c < b * c
  {
  }

  lemma {:induction false} QuotaError(shares: seq<Share>, total: nat, cap: nat)
    requires total > 0 && Quotas(shares, total, cap)
    ensures 2 * Abs(SumQuota(shares) * total - TotalWeight(shares) * cap) <= |shares| * total
  {
    if shares != [] {
      var init, s := shares[..|shares| - 1], shares[|shares| - 1];
      QuotaError(init, total, cap);
      assert IsQuota(s.weight, total, cap, s.quota);
      Spread(SumQuota(init), s.quota, total);
      Spread(TotalWeight(init), s.weight, cap);
      Spread(|init|, 1, total);
      AddErrors(SumQuota(init) * total - TotalWeight(init) * cap, s.quota * total - s.weight * cap,
                |init| * total, total);
    }
  }

  lemma AddErrors(x: int, y: int, m: int, n: int)
    requires 2 * Abs(x) <= m && 2 * Abs(y) <= n
    ensures 2 * Abs(x + y) <= m + n
  {
  }

  lemma {:induction false} NoWeightNoQuota(shares: seq<Share>, cap: nat)
    requires Quotas(shares, 0, cap)
    ensures SumQuota(shares) == 0
  {
    if shares != [] {
      var init, s := shares[..|shares| - 1], shares[|shares| - 1];
      NoWeightNoQuota(init, cap);
      assert IsQuota(s.weight, 0, cap, s.quota);
    }
  }

  /** The quotas of n queues miss the capacity by at most n / 2 together; one queue gets
      exactly the capacity; and without any weight nothing is granted. */
  lemma {:induction false} QuotaSum(shares: seq<Share>, cap: nat)
    requires Quotas(shares, TotalWeight(shares), cap)
    ensures TotalWeight(shares) > 0 ==> 2 * Abs(SumQuota(shares) - cap) <= |shares|
    ensures TotalWeight(shares) == 0 ==> SumQuota(shares) == 0
    ensures 2 * SumQuota(shares) <= 2 * cap + |shares|
    ensures TotalWeight(shares) > 0 && |shares| == 1 ==> SumQuota(shares) == cap
  {
    var total := TotalWeight(shares);
    if total > 0 {
      QuotaError(shares, total, cap);
      Spread(SumQuota(shares), cap, total);
      Cancel(SumQuota(shares) - cap, SumQuota(shares) * total - total * cap, |shares|, total);
    } else {
      NoWeightNoQuota(shares, cap);
    }
  }

  lemma {:induction false} QuotaDouble(shares: seq<Share>, total: nat, cap: nat)
    requires total > 0 && Quotas(shares, total, cap)
    ensures SumQuota(shares) * total <= 2 * (TotalWeight(shares) * cap)
  {
    if shares != [] {
      var init, s := shares[..|shares| - 1], shares[|shares| - 1];
      QuotaDouble(init, total, cap);
      assert IsQuota(s.weight, total, cap, s.quota);
      Spread(SumQuota(init), s.quota, total);
      Spread(TotalWeight(init), s.weight, cap);
      if s.quota > 0 { Spread(s.quota - 1, 1, total); }
    }
  }

  lemma CancelDouble(x: nat, cap: nat, total: nat)
    requires total > 0 && x * total <= 2 * (total * cap)
    ensures x <= 2 * cap
  {
    Spread(cap, cap, total);
    if cap + cap < x { Grows(cap + cap, x, total); }
  }

  /** Rounding never more than doubles the capacity. */
  lemma QuotaSumDouble(shares: seq<Share>, cap: nat)
    requires Quotas(shares, TotalWeight(shares), cap)
    ensures SumQuota(shares) <= 2 * cap
  {
    var total := TotalWeight(shares);
    if total > 0 {
      QuotaDouble(shares, total, cap);
      CancelDouble(SumQuota(shares), cap, total);
    } else {
      NoWeightNoQuota(shares, cap);
    }
  }

  lemma Cancel(d: int, scaled: int, n: nat, total: nat)
    requires total > 0 && scaled == d * total && 2 * Abs(scaled) <= n * total
    ensures 2 * Abs(d) <= n
  {
    Spread(d, -d, total);
    Spread(d, d, total);
    Spread(-d, -d, total);
    if d + d > n {
      Grows(n, d + d, total);
    } else if -d - d > n {
      Grows(n, -d - d, total);
    }
  }

  // ----- The cascade

  /** What is left over after the queues visited so far. */
  function Leftover(shares: seq<Share>): (left: nat) {
    if shares == [] then 0
    else
      var s := shares[|shares| - 1];
      var current := s.quota + Leftover(shares[..|shares| - 1]);
      current - Min(s.count, current)
  }

  function Limits(shares: seq<Share>): (limits: seq<Limit>)
    ensures |limits| == |shares|
    ensures forall i :: 0 <= i < |shares| ==> limits[i].queue == shares[i].queue
  {
    if shares == [] then []
    else
      var s, init := shares[|shares| - 1], shares[..|shares| - 1];
      Limits(init) + [Limit(s.queue, Min(s.count, s.quota + Leftover(init)))]
  }

  function SumLimits(limits: seq<Limit>): (n: nat) {
    if limits == [] then 0 else SumLimits(limits[..|limits| - 1]) + limits[|limits| - 1].limit
  }

  /** The loop of the scheduler. */
  method ComputeLimits(shares: seq<Share>) returns (limits: seq<Limit>, leftover: nat)
    ensures limits == Limits(shares) && leftover == Leftover(shares)
  {
    leftover, limits := 0, [];
    for i := 0 to |shares|
      invariant limits == Limits(shares[..i]) && leftover == Leftover(shares[..i])
    {
      assert shares[..i + 1][..i] == shares[..i];
      var currentQuota := shares[i].quota + leftover;
      var usedQuota := if shares[i].count <= currentQuota then shares[i].count else currentQuota;
      limits := limits + [Limit(shares[i].queue, usedQuota)];
      leftover := currentQuota - usedQuota;
    }
    assert shares[..|shares|] == shares;
  }

  /** Nothing is lost: what the queues use and what is left over make up the quotas. */
  lemma {:induction false} CascadeConserves(shares: seq<Share>)
    ensures SumLimits(Limits(shares)) + Leftover(shares) == SumQuota(shares)
  {
    if shares != [] {
      var init := shares[..|shares| - 1];
      CascadeConserves(init);
      assert Limits(shares)[..|shares| - 1] == Limits(init);
    }
  }

  /** The excess of quota over rows, from queue `i` of the order on. */
  function Surplus(shares: seq<Share>, i: nat): (d: int)
    requires i <= |shares|
  {
    if i == |shares| then 0
    else
      var s := shares[|shares| - 1];
      Surplus(shares[..|shares| - 1], i) + s.quota - s.count
  }

  /** What is finally left over is the largest excess of any tail of the order. */
  lemma {:induction false} LeftoverIsBestTail(shares: seq<Share>)
    ensures exists i :: 0 <= i <= |shares| && Leftover(shares) == Surplus(shares, i)
    ensures forall i :: 0 <= i <= |shares| ==> Surplus(shares, i) <= Leftover(shares)
  {
    if shares == [] {
      assert Surplus(shares, 0) == 0;
    } else {
      var init, s := shares[..|shares| - 1], shares[|shares| - 1];
      LeftoverIsBestTail(init);
      var k :| 0 <= k <= |init| && Leftover(init) == Surplus(init, k);
      if s.count <= s.quota + Leftover(init) {
        assert Surplus(shares, k) == Leftover(shares);
      } else {
        assert Surplus(shares, |shares|) == Leftover(shares);
      }
    }
  }

  function SumMin(shares: seq<Share>): (n: nat) {
    if shares == [] then 0
    else
      var s := shares[|shares| - 1];
      SumMin(shares[..|shares| - 1]) + Min(s.count, s.quota)
  }

  /** Every queue gets at least what its own quota allows and at most what it has. */
  lemma {:induction false} LimitBounds(shares: seq<Share>, i: nat)
    requires i < |shares|
    ensures Min(shares[i].count, shares[i].quota) <= Limits(shares)[i].limit <= shares[i].count
  {
    var init := shares[..|shares| - 1];
    if i < |init| {
      LimitBounds(init, i);
      assert Limits(shares)[i] == Limits(init)[i];
    }
  }

  lemma {:induction false} TotalBounds(shares: seq<Share>)
    ensures SumMin(shares) <= SumLimits(Limits(shares)) <= Min(SumQuota(shares), SumCount(shares))
  {
    CascadeConserves(shares);
    if shares != [] {
      var init := shares[..|shares| - 1];
      TotalBounds(init);
      assert Limits(shares)[..|shares| - 1] == Limits(init);
    }
  }

  /** Intermediate quotas stay below the sum of the quotas, so 16 bits suffice whenever they
      suffice for that sum. */
  lemma {:induction false} NoOverflow(shares: seq<Share>, i: nat)
    requires i < |shares|
    ensures shares[i].quota + Leftover(shares[..i]) <= SumQuota(shares)
  {
    var init := shares[..|shares| - 1];
    if i < |init| {
      NoOverflow(init, i);
      assert init[..i] == shares[..i];
    } else {
      CascadeConserves(init);
    }
  }

  // ----- Which orders waste capacity

  /** The batch is as large as the quotas and the rows together allow. */
  predicate Optimal(shares: seq<Share>) {
    SumLimits(Limits(shares)) == Min(SumQuota(shares), SumCount(shares))
  }

  predicate Rich(s: Share) { s.quota > s.count }
  predicate Poor(s: Share) { s.quota < s.count }

  ghost predicate Reordered(a: seq<Share>, b: seq<Share>) { multiset(a) == multiset(b) }

  function Keep(shares: seq<Share>, rich: bool): (r: seq<Share>)
    ensures forall s :: s in r ==> s in shares && Rich(s) == rich
  {
    if shares == [] then []
    else
      var init := Keep(shares[..|shares| - 1], rich);
      if Rich(shares[|shares| - 1]) == rich then init + [shares[|shares| - 1]] else init
  }

  lemma {:induction false} KeepCount(shares: seq<Share>, s: Share)
    ensures multiset(Keep(shares, false))[s] + multiset(Keep(shares, true))[s] == multiset(shares)[s]
  {
    if shares != [] {
      var init, last := shares[..|shares| - 1], shares[|shares| - 1];
      KeepCount(init, s);
      assert shares == init + [last];
    }
  }

  lemma KeepBoth(shares: seq<Share>)
    ensures multiset(Keep(shares, false)) + multiset(Keep(shares, true)) == multiset(shares)
  {
    forall s ensures multiset(Keep(shares, false))[s] + multiset(Keep(shares, true))[s] == multiset(shares)[s] {
      KeepCount(shares, s);
    }
  }

  lemma {:induction false} SurplusAppend(a: seq<Share>, b: seq<Share>)
    ensures Surplus(a + b, |a|) == Surplus(b, 0)
    ensures Surplus(a + b, 0) == Surplus(a, 0) + Surplus(b, 0)
  {
    if b == [] {
      assert a + b == a;
    } else {
      assert (a + b)[..|a + b| - 1] == a + b[..|b| - 1];
      SurplusAppend(a, b[..|b| - 1]);
    }
  }

  lemma {:induction false} SurplusIsDifference(shares: seq<Share>)
    ensures Surplus(shares, 0) == SumQuota(shares) - SumCount(shares)
  {
    if shares != [] { SurplusIsDifference(shares[..|shares| - 1]); }
  }

  lemma {:induction false} SurplusSign(shares: seq<Share>, i: nat)
    requires i <= |shares|
    ensures (forall s :: s in shares ==> !Rich(s)) ==> Surplus(shares, 0) <= Surplus(shares, i) <= 0
    ensures (forall s :: s in shares ==> !Poor(s)) ==> 0 <= Surplus(shares, i) <= Surplus(shares, 0)
    ensures (forall s :: s in shares ==> Rich(s)) && shares != [] ==> 0 < Surplus(shares, 0)
  {
    if shares != [] {
      var init := shares[..|shares| - 1];
      assert forall s :: s in init ==> s in shares;
      assert shares[|shares| - 1] in shares;
      SurplusSign(init, Min(i, |init|));
    }
  }

  lemma {:induction false} SurplusNegative(shares: seq<Share>, p: Share)
    requires p in shares && Poor(p) && forall s :: s in shares ==> !Rich(s)
    ensures Surplus(shares, 0) < 0
  {
    var init, last := shares[..|shares| - 1], shares[|shares| - 1];
    assert shares == init + [last];
    assert last in shares;
    assert forall s :: s in init ==> s in shares;
    if p in init {
      SurplusNegative(init, p);
    } else {
      SurplusSign(init, 0);
    }
  }

  /** The order is optimal exactly when the best tail is the empty one or the whole order. */
  lemma {:induction false} OptimalExactly(shares: seq<Share>)
    ensures Optimal(shares) <==> forall i :: 0 <= i <= |shares| ==>
              Surplus(shares, i) <= 0 || Surplus(shares, i) <= Surplus(shares, 0)
  {
    CascadeConserves(shares);
    LeftoverIsBestTail(shares);
    SurplusIsDifference(shares);
    assert Surplus(shares, |shares|) == 0;
  }

  /** Visiting the queues that have room to spare first wastes nothing. */
  lemma RichFirstIsOptimal(shares: seq<Share>)
    ensures var order := Keep(shares, true) + Keep(shares, false);
            Reordered(order, shares) && Optimal(order)
  {
    var a, b := Keep(shares, true), Keep(shares, false);
    var order := a + b;
    KeepBoth(shares);
    forall i | 0 <= i <= |order| ensures Surplus(order, i) <= 0 || Surplus(order, i) <= Surplus(order, 0) {
      RichFirstTail(a, b, i);
    }
    OptimalExactly(order);
  }

  lemma RichFirstTail(a: seq<Share>, b: seq<Share>, i: nat)
    requires i <= |a| + |b| && (forall s :: s in a ==> Rich(s)) && (forall s :: s in b ==> !Rich(s))
    ensures Surplus(a + b, i) <= 0 || Surplus(a + b, i) <= Surplus(a + b, 0)
  {
    TailOf(a, b, i);
    TailOf(a, b, 0);
    if i <= |a| { SurplusSign(a, i); } else { SurplusSign(b, i - |a|); }
  }

  lemma {:induction false} TailOf(a: seq<Share>, b: seq<Share>, i: nat)
    requires i <= |a| + |b|
    ensures Surplus(a + b, i) == if i <= |a| then Surplus(a, i) + Surplus(b, 0) else Surplus(b, i - |a|)
  {
    if b == [] {
      assert a + b == a;
    } else if i < |a| + |b| {
      assert (a + b)[..|a + b| - 1] == a + b[..|b| - 1];
      TailOf(a, b[..|b| - 1], i);
    }
  }

  /** Every order is optimal exactly when no queue with room to spare meets a queue that
      wants more than its quota.  As soon as both kinds exist, an order that visits the
      first kind last leaves capacity unused while rows are waiting. */
  lemma EveryOrderOptimal(shares: seq<Share>)
    ensures (forall order :: Reordered(order, shares) ==> Optimal(order)) <==>
            !(exists r, p :: r in shares && p in shares && Rich(r) && Poor(p))
  {
    if r, p :| r in shares && p in shares && Rich(r) && Poor(p) {
      PoorFirstWastes(shares, r, p);
    } else {
      forall order | Reordered(order, shares) ensures Optimal(order) {
        OneKindOptimal(shares, order);
      }
    }
  }

  lemma PoorFirstWastes(shares: seq<Share>, r: Share, p: Share)
    requires r in shares && p in shares && Rich(r) && Poor(p)
    ensures exists order :: Reordered(order, shares) && !Optimal(order)
  {
    var a, b := Keep(shares, false), Keep(shares, true);
    KeepBoth(shares);
    assert Reordered(a + b, shares);
    assert r in multiset(a) + multiset(b) && p in multiset(a) + multiset(b);
    assert p in a && r in b;
    SurplusAppend(a, b);
    SurplusNegative(a, p);
    SurplusSign(b, 0);
    OptimalExactly(a + b);
  }

  lemma OneKindOptimal(shares: seq<Share>, order: seq<Share>)
    requires Reordered(order, shares) && !(exists r, p :: r in shares && p in shares && Rich(r) && Poor(p))
    ensures Optimal(order)
  {
    forall s | s in order ensures s in shares { assert s in multiset(order); }
    forall i | 0 <= i <= |order| ensures Surplus(order, i) <= 0 || Surplus(order, i) <= Surplus(order, 0) {
      SurplusSign(order, i);
    }
    OptimalExactly(order);
  }

  // ----- The batch

  function Weight(weights: map<Queue, nat>, q: Queue): nat {
    if q in weights then weights[q] else DEFAULT_WEIGHT
  }

  /** `shares` is what a scheduling round can meet on table `t`, in one of the possible orders. */
  ghost predicate IsPlan(t: Table, status: Status, weights: map<Queue, nat>, cap: nat, shares: seq<Share>) {
    && (forall i, j :: 0 <= i < j < |shares| ==> shares[i].queue != shares[j].queue)
    && (forall i :: 0 <= i < |shares| ==>
          && shares[i].count == Count(t, status, shares[i].queue) > 0
          && shares[i].weight == Weight(weights, shares[i].queue))
    && (forall q :: Count(t, status, q) > 0 ==> exists i :: 0 <= i < |shares| && shares[i].queue == q)
    && Quotas(shares, TotalWeight(shares), cap)
  }

  // ----- What a plan is, in terms of the table and the configuration

  /** The configured weights of some queues together, 1 for a queue that is not configured. */
  ghost function WeightOf(weights: map<Queue, nat>, qs: set<Queue>): nat {
    if qs == {} then 0
    else
      var q :| q in qs;
      (if q in weights then weights[q] else 1) + WeightOf(weights, qs - {q})
  }

  lemma {:induction false} WeightWithout(weights: map<Queue, nat>, qs: set<Queue>, q: Queue)
    requires q in qs
    ensures WeightOf(weights, qs) == (if q in weights then weights[q] else 1) + WeightOf(weights, qs - {q})
  {
    var p :| p in qs && WeightOf(weights, qs) == (if p in weights then weights[p] else 1) + WeightOf(weights, qs - {p});
    if p != q {
      WeightWithout(weights, qs - {p}, q);
      WeightWithout(weights, qs - {q}, p);
      assert qs - {p} - {q} == qs - {q} - {p};
    }
  }

  ghost function QueuesOf(shares: seq<Share>): set<Queue> { set i | 0 <= i < |shares| :: shares[i].queue }

  lemma {:induction false} TotalIsWeight(weights: map<Queue, nat>, shares: seq<Share>)
    requires forall i, j :: 0 <= i < j < |shares| ==> shares[i].queue != shares[j].queue
    requires forall i :: 0 <= i < |shares| ==> shares[i].weight == Weight(weights, shares[i].queue)
    ensures TotalWeight(shares) == WeightOf(weights, QueuesOf(shares))
  {
    if shares != [] {
      var n := |shares| - 1;
      var init, q := shares[..n], shares[n].queue;
      TotalIsWeight(weights, init);
      assert shares[n].queue in QueuesOf(shares);
      WeightWithout(weights, QueuesOf(shares), q);
      QueuesWithout(shares);
    }
  }

  lemma QueuesWithout(shares: seq<Share>)
    requires shares != [] && forall i, j :: 0 <= i < j < |shares| ==> shares[i].queue != shares[j].queue
    ensures QueuesOf(shares) - {shares[|shares| - 1].queue} == QueuesOf(shares[..|shares| - 1])
  {
    var n := |shares| - 1;
    var init := shares[..n];
    forall q | q in QueuesOf(shares) && q != shares[n].queue ensures q in QueuesOf(init) {
      var i :| 0 <= i < |shares| && shares[i].queue == q;
      assert init[i].queue == q;
    }
    forall q | q in QueuesOf(init) ensures q in QueuesOf(shares) && q != shares[n].queue {
      var i :| 0 <= i < n && init[i].queue == q;
      assert shares[i].queue == q;
    }
  }

  ghost function QueuesWithRows(t: Table, status: Status): set<Queue> {
    set id | id in t && t[id].status == status :: t[id].queue
  }

  lemma PlannedQueues(t: Table, status: Status, weights: map<Queue, nat>, cap: nat, shares: seq<Share>)
    requires IsPlan(t, status, weights, cap, shares)
    ensures QueuesOf(shares) == QueuesWithRows(t, status)
  {
    forall q | q in QueuesWithRows(t, status) ensures q in QueuesOf(shares) {
      var id :| id in t && t[id].status == status && t[id].queue == q;
      assert id in Matching(t, status, q) && Count(t, status, q) > 0;
      var i :| 0 <= i < |shares| && shares[i].queue == q;
    }
    forall q | q in QueuesOf(shares) ensures q in QueuesWithRows(t, status) {
      var i :| 0 <= i < |shares| && shares[i].queue == q;
      assert Matching(t, status, q) != {};
      var id :| id in Matching(t, status, q);
    }
  }

  /** Within half a row of the weight's part of the capacity; nothing when there is no weight. */
  predicate WithinHalf(quota: nat, weight: nat, total: nat, cap: nat) {
    if total == 0 then quota == 0
    else 2 * (quota * total) <= 2 * (weight * cap) + total && 2 * (weight * cap) <= 2 * (quota * total) + total
  }

  /** Every plan gives each queue that has rows its configured weight, 1 by default, the number of its
      rows, and a quota within half a row of that weight's part of the capacity. */
  lemma PlanMeaning(t: Table, status: Status, weights: map<Queue, nat>, cap: nat, shares: seq<Share>, i: nat)
    requires IsPlan(t, status, weights, cap, shares) && i < |shares|
    ensures QueuesOf(shares) == QueuesWithRows(t, status)
    ensures var s, total := shares[i], WeightOf(weights, QueuesWithRows(t, status));
            && (s.queue in weights ==> s.weight == weights[s.queue])
            && (s.queue !in weights ==> s.weight == 1)
            && s.count == |set id | id in t && t[id].status == status && t[id].queue == s.queue| > 0
            && WithinHalf(s.quota, s.weight, total, cap)
  {
    PlannedQueues(t, status, weights, cap, shares);
    TotalIsWeight(weights, shares);
    assert IsQuota(shares[i].weight, TotalWeight(shares), cap, shares[i].quota);
  }

  /** In one plan more weight never means less quota. */
  lemma MoreWeightMoreQuota(t: Table, status: Status, weights: map<Queue, nat>, cap: nat, shares: seq<Share>, i: nat, j: nat)
    requires IsPlan(t, status, weights, cap, shares) && i < |shares| && j < |shares|
    requires shares[i].weight < shares[j].weight
    ensures shares[i].quota <= shares[j].quota
  {
    var total := TotalWeight(shares);
    assert IsQuota(shares[i].weight, total, cap, shares[i].quota) && IsQuota(shares[j].weight, total, cap, shares[j].quota);
    if total > 0 { QuotaGrows(shares[i].weight, shares[j].weight, total, cap, shares[i].quota, shares[j].quota); }
  }

  lemma QuotaGrows(v: nat, w: nat, total: nat, cap: nat, p: nat, q: nat)
    requires v < w && total > 0 && IsQuota(v, total, cap, p) && IsQuota(w, total, cap, q)
    ensures p <= q
  {
    if p > q {
      Spread(p, q, total);
      Spread(p - q - 1, 1, total);
      NearBoth(p * total, q * total, v * cap, w * cap, total);
      Spread(w, v, cap);
      if cap > 0 { Grows(0, w - v, cap); } else { ZeroQuota(p, total); }
    }
  }

  lemma NearBoth(pt: int, qt: int, vc: int, wc: int, total: int)
    requires 2 * Abs(pt - vc) <= total && 2 * Abs(qt - wc) <= total && pt >= qt + total
    ensures wc <= vc
  {
  }

  lemma ZeroQuota(p: nat, total: nat)
    requires total > 0 && 2 * Abs(p * total) <= total
    ensures p == 0
  {
    if p > 0 { Spread(p - 1, 1, total); }
  }

  /** Every queue still has the rows its limit counts on. */
  ghost predicate Backed(t: Table, status: Status, limits: seq<Limit>) {
    DistinctQueues(limits) && forall i :: 0 <= i < |limits| ==> limits[i].limit <= Count(t, status, limits[i].queue)
  }

  lemma PlanIsBacked(t: Table, status: Status, weights: map<Queue, nat>, cap: nat, shares: seq<Share>)
    requires IsPlan(t, status, weights, cap, shares)
    ensures Backed(t, status, Limits(shares))
  {
    forall i | 0 <= i < |shares| ensures Limits(shares)[i].limit <= Count(t, status, Limits(shares)[i].queue) {
      LimitBounds(shares, i);
    }
  }

  lemma {:induction false} BackedTotal(t: Table, status: Status, limits: seq<Limit>)
    requires forall i :: 0 <= i < |limits| ==> limits[i].limit <= Count(t, status, limits[i].queue)
    ensures Total(t, status, limits) == SumLimits(limits)
  {
    if limits != [] { BackedTotal(t, status, limits[..|limits| - 1]); }
  }

  /** A batch fetched from a table that has not lost rows since the limits were computed has
      exactly the computed size, and exactly the computed part of each queue. */
  lemma BatchExact(t: Table, status: Status, limits: seq<Limit>, rows: seq<Transaction>)
    requires Backed(t, status, limits) && IsNext(t, status, limits, rows)
    ensures |rows| == SumLimits(limits)
    ensures forall i :: 0 <= i < |limits| ==> |OfQueue(rows, limits[i].queue)| == limits[i].limit
  {
    NextMeaning(t, status, limits, rows);
    BackedTotal(t, status, limits);
    forall i | 0 <= i < |limits| ensures |OfQueue(rows, limits[i].queue)| == limits[i].limit {
      assert IsOldest(t, status, limits[i], OfQueue(rows, limits[i].queue));
    }
  }

  /** One scheduling round on a table nobody else touches. */
  method Next(t: Table, status: Status, weights: map<Queue, nat>, cap: nat)
    returns (rows: seq<Transaction>, ghost shares: seq<Share>)
    requires Keyed(t)
    ensures IsPlan(t, status, weights, cap, shares)
    ensures IsNext(t, status, Limits(shares), rows)
    ensures |rows| == SumQuota(shares) - Leftover(shares)
    ensures 2 * |rows| <= 2 * cap + |shares|
    ensures rows != [] ==> exists id :: id in t && t[id].status == status
  {
    var plan := Shares(t, status, weights, cap);
    shares := plan;
    var limits, leftover := ComputeLimits(plan);
    rows := Query.Next(t, status, limits);
    RoundExact(t, status, weights, cap, plan, rows);
    RoundNonempty(t, status, weights, cap, plan, rows);
  }

  lemma RoundExact(
    t: Table, status: Status, weights: map<Queue, nat>, cap: nat, shares: seq<Share>, rows: seq<Transaction>)
    requires IsPlan(t, status, weights, cap, shares) && IsNext(t, status, Limits(shares), rows)
    ensures |rows| == SumQuota(shares) - Leftover(shares) && 2 * |rows| <= 2 * cap + |shares|
  {
    assert |rows| == SumLimits(Limits(shares)) by {
      PlanIsBacked(t, status, weights, cap, shares);
      BatchExact(t, status, Limits(shares), rows);
    }
    CascadeConserves(shares);
    QuotaSum(shares, cap);
  }

  lemma {:induction false} RoundNonempty(
    t: Table, status: Status, weights: map<Queue, nat>, cap: nat, shares: seq<Share>, rows: seq<Transaction>)
    requires IsPlan(t, status, weights, cap, shares) && IsNext(t, status, Limits(shares), rows)
    ensures rows != [] ==> exists id :: id in t && t[id].status == status
  {
    if rows != [] {
      var parts :| IsUnion(t, status, Limits(shares), parts) && rows == Flatten(parts);
      var i := FlattenRow(t, status, Limits(shares), parts, rows[0]);
    }
  }

  method Shares(t: Table, status: Status, weights: map<Queue, nat>, cap: nat) returns (shares: seq<Share>)
    ensures IsPlan(t, status, weights, cap, shares)
  {
    var names := ListQueues(State(t, status).Keys);
    var bare := Bare(t, status, weights, names);
    shares := Fill(bare, TotalWeight(bare), cap);
    Covered(t, status, names, shares);
    FilledQuotas(bare, shares, cap);
  }

  lemma FilledQuotas(bare: seq<Share>, shares: seq<Share>, cap: nat)
    requires |shares| == |bare| && TotalWeight(shares) == TotalWeight(bare)
    requires forall i :: 0 <= i < |bare| ==> shares[i] == bare[i].(quota := Quota(bare[i].weight, TotalWeight(bare), cap))
    ensures Quotas(shares, TotalWeight(shares), cap)
  {
  }

  lemma Covered(t: Table, status: Status, names: seq<Queue>, shares: seq<Share>)
    requires forall q :: q in State(t, status) ==> q in names
    requires |shares| == |names| && forall i :: 0 <= i < |names| ==> shares[i].queue == names[i]
    ensures forall q :: Count(t, status, q) > 0 ==> exists i :: 0 <= i < |shares| && shares[i].queue == q
  {
    forall q | Count(t, status, q) > 0 ensures exists i :: 0 <= i < |shares| && shares[i].queue == q {
      assert q in State(t, status) && q in names;
      var i :| 0 <= i < |names| && names[i] == q;
      assert shares[i].queue == q;
    }
  }

  method Bare(t: Table, status: Status, weights: map<Queue, nat>, names: seq<Queue>) returns (bare: seq<Share>)
    requires forall i :: 0 <= i < |names| ==> Count(t, status, names[i]) > 0
    ensures |bare| == |names|
    ensures forall i :: 0 <= i < |names| ==>
              && bare[i].queue == names[i] && bare[i].weight == Weight(weights, names[i])
              && bare[i].count == Count(t, status, names[i]) > 0
  {
    bare := [];
    for k := 0 to |names|
      invariant |bare| == k
      invariant forall i :: 0 <= i < k ==>
                  && bare[i].queue == names[i] && bare[i].weight == Weight(weights, names[i])
                  && bare[i].count == Count(t, status, names[i]) > 0
    {
      bare := bare + [Share(names[k], Weight(weights, names[k]), 0, Count(t, status, names[k]))];
    }
  }

  method ListQueues(qs: set<Queue>) returns (names: seq<Queue>)
    ensures forall i, j :: 0 <= i < j < |names| ==> names[i] != names[j]
    ensures forall q :: q in qs ==> q in names
    ensures forall i :: 0 <= i < |names| ==> names[i] in qs
  {
    names := [];
    var todo := qs;
    while todo != {}
      invariant todo <= qs
      invariant forall i, j :: 0 <= i < j < |names| ==> names[i] != names[j]
      invariant forall q :: q in names <==> q in qs && q !in todo
    {
      var q :| q in todo;
      names := names + [q];
      todo := todo - {q};
    }
  }

  lemma WeightPush(shares: seq<Share>, s: Share)
    ensures TotalWeight(shares + [s]) == TotalWeight(shares) + s.weight
  {
    assert (shares + [s])[..|shares|] == shares;
  }

  /** Gives every share its quota. */
  method Fill(bare: seq<Share>, total: nat, cap: nat) returns (shares: seq<Share>)
    requires total == TotalWeight(bare)
    ensures |shares| == |bare| && TotalWeight(shares) == total
    ensures forall i :: 0 <= i < |bare| ==> shares[i] == bare[i].(quota := Quota(bare[i].weight, total, cap))
  {
    shares := [];
    for k := 0 to |bare|
      invariant |shares| == k && TotalWeight(shares) == TotalWeight(bare[..k])
      invariant forall i :: 0 <= i < k ==> shares[i] == bare[i].(quota := Quota(bare[i].weight, total, cap))
    {
      var s := bare[k].(quota := Quota(bare[k].weight, total, cap));
      WeightPush(shares, s);
      WeightPush(bare[..k], bare[k]);
      assert bare[..k + 1] == bare[..k] + [bare[k]];
      shares := shares + [s];
    }
    assert bare[..|bare|] == bare;
  }
}
