/** The generated query that fetches the next batch: one SELECT per queue, joined by
UNION ALL, with the queue name and the limit of each SELECT bound by position. */
module Query {
  import opened Storage

  /** One arm of the union names its parameters by number. */
  datatype Arm = Arm(statusParam: nat, queueParam: nat, limitParam: nat)

  datatype Param = Text(text: string) | Number(number: nat)

  datatype Limit = Limit(queue: Queue, limit: nat)

  function Min(a: int, b: int): int { if a <= b then a else b }

  function StatusText(s: Status): string {
    match s
    case Pending => "pending"
    case Validated => "validated"
    case InFlight => "inflight"
    case Confirmed => "confirmed"
    case Failed => "failed"
  }

  function ParseStatus(s: string): Option<Status> {
    if s == "pending" then Some(Pending)
    else if s == "validated" then Some(Validated)
    else if s == "inflight" then Some(InFlight)
    else if s == "confirmed" then Some(Confirmed)
    else if s == "failed" then Some(Failed)
    else None
  }

  /** A status survives being stored as text, and no other text is read as one. */
  lemma StatusRoundTrip(s: Status, text: string)
    ensures ParseStatus(StatusText(s)) == Some(s)
    ensures ParseStatus(text) == Some(s) <==> text == StatusText(s)
  {
  }

  /** The status, as text, and the queue and limit an arm asks for. */
  datatype Ask = Ask(status: string, limit: Limit)

  /** What an arm asks for, given the bound parameters: `$k` is the k-th of them. */
  function Resolve(params: seq<Param>, arm: Arm): (r: Option<Ask>) {
    if && 0 < arm.statusParam <= |params| && params[arm.statusParam - 1].Text?
       && 0 < arm.queueParam <= |params| && params[arm.queueParam - 1].Text?
       && 0 < arm.limitParam <= |params| && params[arm.limitParam - 1].Number?
    then Some(Ask(params[arm.statusParam - 1].text, Limit(params[arm.queueParam - 1].text, params[arm.limitParam - 1].number)))
    else None
  }

  /** Builds the arms with a running parameter index and binds the parameters in a second
      pass; `$1` is the status, which every arm compares with, and arm i asks for entry i. */
  method BuildQuery(status: Status, queues: seq<Limit>) returns (arms: seq<Arm>, params: seq<Param>)
    ensures |arms| == |queues|
    ensures |params| == 1 + 2 * |queues| && params[0] == Text(StatusText(status))
    ensures forall i :: 0 <= i < |queues| ==>
              params[1 + 2 * i] == Text(queues[i].queue) && params[2 + 2 * i] == Number(queues[i].limit)
    ensures forall i :: 0 <= i < |queues| ==> arms[i] == Arm(1, 2 + 2 * i, 3 + 2 * i)
    ensures forall i :: 0 <= i < |queues| ==> Resolve(params, arms[i]) == Some(Ask(StatusText(status), queues[i]))
  {
    var paramIndex := 2;
    arms := [];
    for i := 0 to |queues|
      invariant paramIndex == 2 + 2 * i && |arms| == i
      invariant forall k :: 0 <= k < i ==> arms[k] == Arm(1, 2 + 2 * k, 3 + 2 * k)
    {
      arms := arms + [Arm(1, paramIndex, paramIndex + 1)];
      paramIndex := paramIndex + 2;
    }
    params := BindParams(status, queues);
  }

  /** The second pass: the status, then queue and limit of each entry. */
  method BindParams(status: Status, queues: seq<Limit>) returns (params: seq<Param>)
    ensures |params| == 1 + 2 * |queues| && params[0] == Text(StatusText(status))
    ensures forall k :: 0 <= k < |queues| ==>
              params[1 + 2 * k] == Text(queues[k].queue) && params[2 + 2 * k] == Number(queues[k].limit)
  {
    params := [Text(StatusText(status))];
    for i := 0 to |queues|
      invariant |params| == 1 + 2 * i && params[0] == Text(StatusText(status))
      invariant forall k :: 0 <= k < i ==>
                  params[1 + 2 * k] == Text(queues[k].queue) && params[2 + 2 * k] == Number(queues[k].limit)
    {
      params := params + [Text(queues[i].queue)] + [Number(queues[i].limit)];
    }
  }

  // ----- What an arm returns

  /** `ORDER BY created_at LIMIT n` over the rows of one queue with one status; rows of the
      same age may come in any order. */
  ghost predicate IsOldest(t: Table, status: Status, l: Limit, rows: seq<Transaction>) {
    && |rows| == Min(l.limit, Count(t, status, l.queue))
    && OldestOf(t, Matching(t, status, l.queue), rows)
  }

  /** Some of the rows `ids`, by age, and no other of them is older than one of these. */
  ghost predicate OldestOf(t: Table, ids: set<Id>, rows: seq<Transaction>) {
    && Distinct(rows)
    && (forall i :: 0 <= i < |rows| ==> Taken(t, ids, rows[i]))
    && (forall i, j :: 0 <= i < j < |rows| ==> rows[i].createdAt <= rows[j].createdAt)
    && (forall id :: id in ids && id in t && t[id] !in rows ==> NoneYounger(rows, t[id]))
  }

  predicate NoneYounger(rows: seq<Transaction>, row: Transaction) {
    forall i :: 0 <= i < |rows| ==> rows[i].createdAt <= row.createdAt
  }

  ghost predicate Taken(t: Table, ids: set<Id>, row: Transaction) {
    row.id in ids && row.id in t && t[row.id] == row
  }

  /** The rows an arm's WHERE clause lets through: it compares the texts of the two columns. */
  function Selected(t: Table, ask: Ask): set<Id> {
    set id | id in t && StatusText(t[id].status) == ask.status && t[id].queue == ask.limit.queue
  }

  lemma SelectedIsMatching(t: Table, status: Status, l: Limit)
    ensures Selected(t, Ask(StatusText(status), l)) == Matching(t, status, l.queue)
  {
    forall id | id in t ensures StatusText(t[id].status) == StatusText(status) <==> t[id].status == status {
      StatusRoundTrip(status, StatusText(t[id].status));
      StatusRoundTrip(t[id].status, "");
    }
  }

  /** The rows of one arm, oldest first. */
  method SelectOldest(t: Table, ask: Ask) returns (rows: seq<Transaction>)
    requires Keyed(t)
    ensures forall status :: ask.status == StatusText(status) ==> IsOldest(t, status, ask.limit, rows)
  {
    var l := ask.limit;
    rows := SelectRows(t, Selected(t, ask), l.limit);
    forall status | ask.status == StatusText(status) ensures IsOldest(t, status, l, rows) { SelectedIsMatching(t, status, l); }
  }

  /** `ORDER BY created_at LIMIT n` over some rows. */
  method SelectRows(t: Table, all: set<Id>, limit: nat) returns (rows: seq<Transaction>)
    requires Keyed(t) && all <= t.Keys
    ensures |rows| == Min(limit, |all|) && OldestOf(t, all, rows)
  {
    rows := [];
    var todo := all;
    while |rows| < limit && todo != {}
      invariant todo <= all && |rows| + |todo| == |all| && |rows| <= limit
      invariant OldestOf(t, all, rows)
      invariant forall id :: id in all ==> (id in todo <==> t[id] !in rows)
    {
      var id := Eldest(t, todo);
      ExtendOldest(t, all, rows, id);
      rows := rows + [t[id]];
      todo := todo - {id};
    }
  }

  lemma ExtendOldest(t: Table, ids: set<Id>, rows: seq<Transaction>, id: Id)
    requires Keyed(t) && ids <= t.Keys && OldestOf(t, ids, rows)
    requires id in ids && t[id] !in rows
    requires forall k :: k in ids && t[k] !in rows ==> t[id].createdAt <= t[k].createdAt
    ensures OldestOf(t, ids, rows + [t[id]])
  {
    var more := rows + [t[id]];
    assert forall i {:trigger more[i]} :: 0 <= i < |rows| ==> more[i] == rows[i] && rows[i] in rows;
  }

  method Eldest(t: Table, ids: set<Id>) returns (id: Id)
    requires ids != {} && ids <= t.Keys
    ensures id in ids && forall k :: k in ids ==> t[id].createdAt <= t[k].createdAt
  {
    id :| id in ids;
    var todo := ids - {id};
    while todo != {}
      invariant id in ids && todo <= ids
      invariant forall k :: k in ids && k !in todo ==> t[id].createdAt <= t[k].createdAt
    {
      var k :| k in todo;
      if t[k].createdAt < t[id].createdAt { id := k; }
      todo := todo - {k};
    }
  }

  ghost predicate NoTies(t: Table, ids: set<Id>) {
    forall x, y :: x in ids && x in t && y in ids && y in t && x != y ==> t[x].createdAt != t[y].createdAt
  }

  /** Without ties the arm has one possible result. */
  lemma OldestUnique(t: Table, status: Status, l: Limit, a: seq<Transaction>, b: seq<Transaction>)
    requires IsOldest(t, status, l, a) && IsOldest(t, status, l, b) && NoTies(t, Matching(t, status, l.queue))
    ensures a == b
  {
    if a != b {
      var i := FirstDifference(a, b);
      SameRow(t, Matching(t, status, l.queue), a, b, i);
    }
  }

  lemma {:induction false} FirstDifference(a: seq<Transaction>, b: seq<Transaction>) returns (i: nat)
    requires |a| == |b| && a != b
    ensures i < |a| && a[i] != b[i] && forall k :: 0 <= k < i ==> a[k] == b[k]
  {
    i := 0;
    if a[0] == b[0] {
      i := FirstDifference(a[1..], b[1..]);
      i := i + 1;
      forall k | 0 <= k < i ensures a[k] == b[k] { if k > 0 { assert a[1..][k - 1] == b[1..][k - 1]; } }
    }
  }

  lemma SameRow(t: Table, ids: set<Id>, a: seq<Transaction>, b: seq<Transaction>, i: nat)
    requires OldestOf(t, ids, a) && OldestOf(t, ids, b) && NoTies(t, ids)
    requires i < |a| == |b| && forall k :: 0 <= k < i ==> a[k] == b[k]
    ensures a[i] == b[i]
  {
    OlderIsTaken(t, ids, a, b, i);
    OlderIsTaken(t, ids, b, a, i);
    assert Taken(t, ids, a[i]) && Taken(t, ids, b[i]);
  }

  lemma OlderIsTaken(t: Table, ids: set<Id>, a: seq<Transaction>, b: seq<Transaction>, i: nat)
    requires OldestOf(t, ids, a) && OldestOf(t, ids, b)
    requires i < |a| == |b| && forall k :: 0 <= k < i ==> a[k] == b[k]
    ensures a[i].createdAt <= b[i].createdAt
  {
    var row := b[i];
    assert Taken(t, ids, row);
    if row !in a {
      assert NoneYounger(a, row);
    } else {
      var j :| 0 <= j < |a| && a[j] == row;
      assert i <= j;
    }
  }

  // ----- The union

  function Flatten(parts: seq<seq<Transaction>>): (rows: seq<Transaction>) {
    if parts == [] then [] else Flatten(parts[..|parts| - 1]) + parts[|parts| - 1]
  }

  function Total(t: Table, status: Status, limits: seq<Limit>): (n: nat) {
    if limits == [] then 0
    else
      var l := limits[|limits| - 1];
      Total(t, status, limits[..|limits| - 1]) + Min(l.limit, Count(t, status, l.queue))
  }

  predicate DistinctQueues(limits: seq<Limit>) {
    forall i, j :: 0 <= i < j < |limits| ==> limits[i].queue != limits[j].queue
  }

  ghost predicate IsUnion(t: Table, status: Status, limits: seq<Limit>, parts: seq<seq<Transaction>>) {
    |parts| == |limits| && forall i :: 0 <= i < |limits| ==> IsOldest(t, status, limits[i], parts[i])
  }

  /** A possible result of the generated query. */
  ghost predicate IsNext(t: Table, status: Status, limits: seq<Limit>, rows: seq<Transaction>) {
    exists parts :: IsUnion(t, status, limits, parts) && rows == Flatten(parts)
  }

  ghost function OfQueue(rows: seq<Transaction>, q: Queue): (r: seq<Transaction>) {
    if rows == [] then []
    else
      var init := OfQueue(rows[..|rows| - 1], q);
      if rows[|rows| - 1].queue == q then init + [rows[|rows| - 1]] else init
  }

  lemma {:induction false} OfQueueAppend(a: seq<Transaction>, b: seq<Transaction>, q: Queue)
    ensures OfQueue(a + b, q) == OfQueue(a, q) + OfQueue(b, q)
  {
    if b == [] {
      assert a + b == a;
    } else {
      var init := b[..|b| - 1];
      assert (a + b)[..|a + b| - 1] == a + init;
      OfQueueAppend(a, init, q);
    }
  }

  lemma {:induction false} OfQueueAll(rows: seq<Transaction>, q: Queue)
    ensures (forall i :: 0 <= i < |rows| ==> rows[i].queue == q) ==> OfQueue(rows, q) == rows
    ensures (forall i :: 0 <= i < |rows| ==> rows[i].queue != q) ==> OfQueue(rows, q) == []
  {
    if rows != [] {
      var init := rows[..|rows| - 1];
      assert forall i {:trigger init[i]} :: 0 <= i < |init| ==> init[i] == rows[i];
      OfQueueAll(init, q);
      assert rows == init + [rows[|rows| - 1]];
    }
  }

  lemma {:induction false} FlattenSize(t: Table, status: Status, limits: seq<Limit>, parts: seq<seq<Transaction>>)
    requires IsUnion(t, status, limits, parts)
    ensures |Flatten(parts)| == Total(t, status, limits)
  {
    if parts != [] {
      UnionInit(t, status, limits, parts);
      FlattenSize(t, status, limits[..|limits| - 1], parts[..|parts| - 1]);
    }
  }

  /** Every row of the union is one of an arm's. */
  lemma {:induction false} FlattenRow(
    t: Table, status: Status, limits: seq<Limit>, parts: seq<seq<Transaction>>, row: Transaction) returns (i: nat)
    requires IsUnion(t, status, limits, parts) && row in Flatten(parts)
    ensures i < |limits| && Taken(t, Matching(t, status, limits[i].queue), row)
  {
    i := |parts| - 1;
    UnionInit(t, status, limits, parts);
    if row !in parts[i] {
      i := FlattenRow(t, status, limits[..i], parts[..i], row);
    }
  }

  lemma AppendPart(rows: seq<Transaction>, last: seq<Transaction>, lq: Queue, q: Queue)
    requires forall row :: row in rows ==> row.queue != lq
    requires forall row :: row in last ==> row.queue == lq
    ensures OfQueue(rows + last, q) == if q == lq then last else OfQueue(rows, q)
  {
    OfQueueAppend(rows, last, q);
    OfQueueAll(last, q);
    if q == lq { OfQueueAll(rows, q); }
  }

  lemma DistinctAppend(t: Table, rows: seq<Transaction>, last: seq<Transaction>, lq: Queue)
    requires Distinct(rows) && Distinct(last)
    requires forall row :: row in rows ==> row.queue != lq && row.id in t && t[row.id] == row
    requires forall row :: row in last ==> row.queue == lq && row.id in t && t[row.id] == row
    ensures Distinct(rows + last)
  {
    var all := rows + last;
    assert forall i {:trigger all[i]} :: 0 <= i < |rows| ==> all[i] == rows[i] && rows[i] in rows;
    assert forall i {:trigger all[i]} :: |rows| <= i < |all| ==> all[i] == last[i - |rows|] && all[i] in last;
  }

  lemma PartRows(t: Table, status: Status, limits: seq<Limit>, parts: seq<seq<Transaction>>, q: Queue)
    requires IsUnion(t, status, limits, parts)
    requires forall i :: 0 <= i < |limits| ==> limits[i].queue != q
    ensures forall row :: row in Flatten(parts) ==> row.queue != q && row.id in t && t[row.id] == row
  {
    forall row | row in Flatten(parts) ensures row.queue != q && row.id in t && t[row.id] == row {
      var i := FlattenRow(t, status, limits, parts, row);
    }
  }

  lemma UnionInit(t: Table, status: Status, limits: seq<Limit>, parts: seq<seq<Transaction>>)
    requires IsUnion(t, status, limits, parts) && parts != []
    ensures IsUnion(t, status, limits[..|limits| - 1], parts[..|parts| - 1])
    ensures var last, l := parts[|parts| - 1], limits[|limits| - 1];
            && Distinct(last) && |last| == Min(l.limit, Count(t, status, l.queue))
            && forall row :: row in last ==> Taken(t, Matching(t, status, l.queue), row)
  {
    var last, l := parts[|parts| - 1], limits[|limits| - 1];
    assert IsOldest(t, status, l, last);
    forall row | row in last ensures Taken(t, Matching(t, status, l.queue), row) {
      var i :| 0 <= i < |last| && last[i] == row;
    }
  }

  /** The last arm against the rest of the union. */
  lemma UnionLast(t: Table, status: Status, limits: seq<Limit>, parts: seq<seq<Transaction>>)
    requires IsUnion(t, status, limits, parts) && DistinctQueues(limits) && parts != []
    ensures var n := |parts| - 1;
            && IsUnion(t, status, limits[..n], parts[..n]) && DistinctQueues(limits[..n]) && Distinct(parts[n])
            && (forall row :: row in Flatten(parts[..n]) ==> row.queue != limits[n].queue && row.id in t && t[row.id] == row)
            && (forall row :: row in parts[n] ==> row.queue == limits[n].queue && row.id in t && t[row.id] == row)
  {
    var n := |parts| - 1;
    UnionInit(t, status, limits, parts);
    assert forall i {:trigger limits[..n][i]} :: 0 <= i < n ==> limits[..n][i] == limits[i];
    PartRows(t, status, limits[..n], parts[..n], limits[n].queue);
  }

  /** Of each queue the union has the rows of its arm. */
  lemma {:induction false} UnionByQueue(t: Table, status: Status, limits: seq<Limit>, parts: seq<seq<Transaction>>, i: nat)
    requires IsUnion(t, status, limits, parts) && DistinctQueues(limits) && i < |limits|
    ensures OfQueue(Flatten(parts), limits[i].queue) == parts[i]
  {
    var n := |parts| - 1;
    UnionSplit(t, status, limits, parts, limits[i].queue);
    if i < n {
      UnionByQueue(t, status, limits[..n], parts[..n], i);
      assert limits[i].queue != limits[n].queue;
    }
  }

  lemma UnionSplit(t: Table, status: Status, limits: seq<Limit>, parts: seq<seq<Transaction>>, q: Queue)
    requires IsUnion(t, status, limits, parts) && DistinctQueues(limits) && parts != []
    ensures var n := |parts| - 1;
            && IsUnion(t, status, limits[..n], parts[..n]) && DistinctQueues(limits[..n])
            && OfQueue(Flatten(parts), q) == if q == limits[n].queue then parts[n] else OfQueue(Flatten(parts[..n]), q)
  {
    var n := |parts| - 1;
    UnionLast(t, status, limits, parts);
    AppendPart(Flatten(parts[..n]), parts[n], limits[n].queue, q);
  }

  lemma {:induction false} UnionDistinct(t: Table, status: Status, limits: seq<Limit>, parts: seq<seq<Transaction>>)
    requires IsUnion(t, status, limits, parts) && DistinctQueues(limits)
    ensures Distinct(Flatten(parts))
  {
    if parts != [] {
      var n := |parts| - 1;
      UnionLast(t, status, limits, parts);
      UnionDistinct(t, status, limits[..n], parts[..n]);
      DistinctAppend(t, Flatten(parts[..n]), parts[n], limits[n].queue);
    }
  }

  /** Whatever the order of the limits, the batch holds, for each queue, its oldest rows up to
      the limit, each row once, and nothing else. */
  lemma {:induction false} NextMeaning(t: Table, status: Status, limits: seq<Limit>, rows: seq<Transaction>)
    requires DistinctQueues(limits) && IsNext(t, status, limits, rows)
    ensures Distinct(rows)
    ensures |rows| == Total(t, status, limits)
    ensures forall row :: row in rows ==> row.status == status && row.id in t && t[row.id] == row
    ensures forall row :: row in rows ==> exists i :: 0 <= i < |limits| && limits[i].queue == row.queue
    ensures forall i :: 0 <= i < |limits| ==> IsOldest(t, status, limits[i], OfQueue(rows, limits[i].queue))
  {
    var parts :| IsUnion(t, status, limits, parts) && rows == Flatten(parts);
    UnionDistinct(t, status, limits, parts);
    FlattenSize(t, status, limits, parts);
    forall i | 0 <= i < |limits| ensures IsOldest(t, status, limits[i], OfQueue(rows, limits[i].queue)) {
      UnionByQueue(t, status, limits, parts, i);
    }
    forall row | row in rows
      ensures row.status == status && row.id in t && t[row.id] == row
      ensures exists i :: 0 <= i < |limits| && limits[i].queue == row.queue
    {
      var k := FlattenRow(t, status, limits, parts, row);
    }
  }

  /** Nothing is passed over: a row of a listed queue with the status is in the batch, or the limit of
      its queue was reached with rows that are no younger; the rows of a queue come by age. */
  lemma NextComplete(t: Table, status: Status, limits: seq<Limit>, rows: seq<Transaction>, i: nat, id: Id)
    requires DistinctQueues(limits) && IsNext(t, status, limits, rows)
    requires i < |limits| && id in t && t[id].id == id && t[id].status == status && t[id].queue == limits[i].queue
    ensures var own := OfQueue(rows, limits[i].queue);
            && |own| <= limits[i].limit
            && (forall k, l :: 0 <= k < l < |own| ==> own[k].createdAt <= own[l].createdAt)
            && (t[id] in own || (|own| == limits[i].limit && forall k :: 0 <= k < |own| ==> own[k].createdAt <= t[id].createdAt))
  {
    NextMeaning(t, status, limits, rows);
    var own, ids := OfQueue(rows, limits[i].queue), Matching(t, status, limits[i].queue);
    assert IsOldest(t, status, limits[i], own) && id in ids;
    if t[id] !in own && |own| < limits[i].limit { TooFew(t, ids, own, id); }
    if t[id] !in own { assert NoneYounger(own, t[id]); }
  }

  /** Rows of a set that miss one of its ids are fewer than the set. */
  lemma {:induction false} TooFew(t: Table, ids: set<Id>, rows: seq<Transaction>, id: Id)
    requires Distinct(rows) && id in ids && forall k :: 0 <= k < |rows| ==> rows[k].id in ids && rows[k].id != id
    ensures |rows| < |ids|
  {
    if rows != [] {
      var last, init := rows[|rows| - 1].id, rows[..|rows| - 1];
      forall k | 0 <= k < |init| ensures init[k].id in ids - {last} && init[k].id != id { assert init[k] == rows[k]; }
      TooFew(t, ids - {last}, init, id);
    }
  }

  /** Without ties in age, two iteration orders of the same limits fetch the same rows of each queue. */
  lemma {:induction false} OrderIrrelevant(t: Table, status: Status, a: seq<Limit>, b: seq<Limit>, ra: seq<Transaction>, rb: seq<Transaction>, l: Limit)
    requires DistinctQueues(a) && DistinctQueues(b) && multiset(a) == multiset(b) && l in a
    requires IsNext(t, status, a, ra) && IsNext(t, status, b, rb) && NoTies(t, Matching(t, status, l.queue))
    ensures OfQueue(ra, l.queue) == OfQueue(rb, l.queue)
  {
    assert l in multiset(b);
    NextMeaning(t, status, a, ra);
    NextMeaning(t, status, b, rb);
    OldestUnique(t, status, l, OfQueue(ra, l.queue), OfQueue(rb, l.queue));
  }

  lemma AddArm(t: Table, status: Status, limits: seq<Limit>, parts: seq<seq<Transaction>>, part: seq<Transaction>, i: nat)
    requires i < |limits| && IsUnion(t, status, limits[..i], parts) && IsOldest(t, status, limits[i], part)
    ensures IsUnion(t, status, limits[..i + 1], parts + [part]) && Flatten(parts + [part]) == Flatten(parts) + part
  {
    assert (parts + [part])[..i] == parts;
    assert forall k {:trigger limits[..i][k]} :: 0 <= k < i ==> limits[..i + 1][k] == limits[..i][k];
  }

  /** Runs the generated query arm by arm. */
  method Next(t: Table, status: Status, queues: seq<Limit>) returns (rows: seq<Transaction>)
    requires Keyed(t)
    ensures IsNext(t, status, queues, rows)
  {
    var arms, params := BuildQuery(status, queues);
    rows := [];
    ghost var parts: seq<seq<Transaction>> := [];
    for i := 0 to |arms|
      invariant |parts| == i && rows == Flatten(parts)
      invariant IsUnion(t, status, queues[..i], parts)
    {
      var part := SelectOldest(t, Resolve(params, arms[i]).value);
      AddArm(t, status, queues, parts, part, i);
      parts := parts + [part];
      rows := rows + part;
    }
    assert queues[..|queues|] == queues;
  }
}
