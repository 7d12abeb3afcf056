/** Routing of task notifications to the turns that wait for them. */
module Routing {
  import opened Collections
  import opened Rows

  const MAX_STASHED := 50

  /** A closed turn kept back until its agents have reported. */
  datatype Deferred = Deferred(pending: seq<string>, resolved: seq<string>, rows: seq<Row>)

  datatype Routed = Routed(deferred: seq<Deferred>, remaining: seq<Row>, stashed: seq<Row>)

  predicate Knows(d: Deferred, id: string) {
    id in d.pending || id in d.resolved
  }

  /** First deferred turn that waits, or waited, for the tool call; else the length. */
  function OwnerOf(ds: seq<Deferred>, id: string): (k: nat)
    ensures k <= |ds|
    ensures k < |ds| ==> Knows(ds[k], id)
    ensures forall j :: 0 <= j < k ==> !Knows(ds[j], id)
  {
    if ds == [] then 0
    else
      var k := OwnerOf(ds[..|ds| - 1], id);
      if k < |ds| - 1 then k
      else if Knows(ds[|ds| - 1], id) then |ds| - 1
      else |ds|
  }

  /** Python's `list.remove`: drops the first occurrence. */
  function Without(ids: seq<string>, id: string): seq<string> {
    if ids == [] then []
    else if ids[0] == id then ids[1..]
    else [ids[0]] + Without(ids[1..], id)
  }

  function Received(d: Deferred, row: Row, id: string): Deferred {
    if id in d.pending then
      Deferred(Without(d.pending, id), d.resolved + [id], d.rows + [row])
    else d.(rows := d.rows + [row])
  }

  function AfterStashed(r: Routed, row: Row, tasks: map<string, string>): Routed {
    var target := NoticeTarget(row, tasks);
    if target.None? || target.value == "" then r.(stashed := r.stashed + [row])
    else
      var k := OwnerOf(r.deferred, target.value);
      if k == |r.deferred| then r.(stashed := r.stashed + [row])
      else r.(deferred := r.deferred[k := Received(r.deferred[k], row, target.value)])
  }

  function AfterBatchRow(r: Routed, row: Row, tasks: map<string, string>): Routed {
    if row.notice.None? then r.(remaining := r.remaining + [row])
    else
      var target := NoticeTarget(row, tasks);
      if target.None? then r.(stashed := r.stashed + [row])
      else
        var k := OwnerOf(r.deferred, target.value);
        if k == |r.deferred| then r.(remaining := r.remaining + [row])
        else r.(deferred := r.deferred[k := Received(r.deferred[k], row, target.value)])
  }

  function RouteStash(ds: seq<Deferred>, stash: seq<Row>, tasks: map<string, string>): Routed {
    if stash == [] then Routed(ds, [], [])
    else AfterStashed(RouteStash(ds, stash[..|stash| - 1], tasks), stash[|stash| - 1], tasks)
  }

  function RouteBatch(r: Routed, batch: seq<Row>, tasks: map<string, string>): Routed {
    if batch == [] then r
    else AfterBatchRow(RouteBatch(r, batch[..|batch| - 1], tasks), batch[|batch| - 1], tasks)
  }

  /** Both passes: the stash of earlier runs first, then the batch. */
  function Route(ds: seq<Deferred>, stash: seq<Row>, batch: seq<Row>, tasks: map<string, string>): Routed {
    RouteBatch(RouteStash(ds, stash, tasks), batch, tasks)
  }

  predicate Done(d: Deferred) { d.pending == [] }
  predicate Waiting(d: Deferred) { d.pending != [] }
  function RowsOf(d: Deferred): seq<Row> { d.rows }

  // ------------------------------------------------------------ where each row goes

  /** Attribution does not change while rows are routed, so where a row goes can
      be read off the deferred turns as they were before the run. */
  ghost predicate SameKnowledge(ds: seq<Deferred>, es: seq<Deferred>) {
    |ds| == |es| && forall i, id :: 0 <= i < |ds| ==> (Knows(ds[i], id) <==> Knows(es[i], id))
  }

  lemma {:induction false} WithoutMembers(ids: seq<string>, id: string)
    ensures forall x :: x != id ==> (x in Without(ids, id) <==> x in ids)
    ensures multiset(Without(ids, id)) == multiset(ids) - multiset{id}
  {
    if ids != [] {
      assert ids == [ids[0]] + ids[1..];
      if ids[0] != id {
        WithoutMembers(ids[1..], id);
      }
    }
  }

  lemma {:induction false} ReceivedKnows(ds: seq<Deferred>, k: nat, row: Row, id: string)
    requires k < |ds| && Knows(ds[k], id)
    ensures SameKnowledge(ds, ds[k := Received(ds[k], row, id)])
  {
    WithoutMembers(ds[k].pending, id);
  }

  lemma {:induction false} OwnerStable(ds: seq<Deferred>, es: seq<Deferred>, id: string)
    requires SameKnowledge(ds, es)
    ensures OwnerOf(ds, id) == OwnerOf(es, id)
  {
  }

  /** The deferred turn a notification belongs to, by the state before the run. */
  ghost predicate OwnedBy(ds: seq<Deferred>, tasks: map<string, string>, k: nat, row: Row) {
    var target := NoticeTarget(row, tasks);
    k < |ds| && target.Some? && OwnerOf(ds, target.value) == k
  }

  ghost predicate Kept(ds: seq<Deferred>, tasks: map<string, string>, row: Row) {
    var target := NoticeTarget(row, tasks);
    row.notice.None? || (target.Some? && OwnerOf(ds, target.value) == |ds|)
  }

  ghost predicate Unattributed(tasks: map<string, string>, row: Row) {
    row.notice.Some? && NoticeTarget(row, tasks).None?
  }

  ghost predicate Unclaimed(ds: seq<Deferred>, tasks: map<string, string>, row: Row) {
    var target := NoticeTarget(row, tasks);
    target.None? || OwnerOf(ds, target.value) == |ds|
  }

  function TargetId(tasks: map<string, string>, row: Row): string {
    var target := NoticeTarget(row, tasks);
    if target.Some? then target.value else ""
  }

  /** No turn waits for the empty id. */
  ghost predicate WellFormed(ds: seq<Deferred>) {
    forall d :: d in ds ==> !Knows(d, "")
  }

  ghost function KeptRows(ds: seq<Deferred>, tasks: map<string, string>, batch: seq<Row>): seq<Row> {
    Filter(batch, r => Kept(ds, tasks, r))
  }

  ghost function UnattributedRows(tasks: map<string, string>, batch: seq<Row>): seq<Row> {
    Filter(batch, r => Unattributed(tasks, r))
  }

  ghost function UnclaimedRows(ds: seq<Deferred>, tasks: map<string, string>, stash: seq<Row>): seq<Row> {
    Filter(stash, r => Unclaimed(ds, tasks, r))
  }

  ghost function OwnedRows(ds: seq<Deferred>, tasks: map<string, string>, k: nat, rows: seq<Row>): seq<Row> {
    Filter(rows, r => OwnedBy(ds, tasks, k, r))
  }

  ghost function Targets(tasks: map<string, string>, rows: seq<Row>): seq<string> {
    Map(rows, r => TargetId(tasks, r))
  }

  /** A deferred turn after the rows `sent` have reached it. */
  ghost predicate TurnAfter(before: Deferred, sent: seq<Row>, tasks: map<string, string>, after: Deferred) {
    && after.rows == before.rows + sent
    && multiset(after.pending) == multiset(before.pending) - multiset(Targets(tasks, sent))
  }

  ghost predicate TurnsAfter(ds: seq<Deferred>, stash: seq<Row>, batch: seq<Row>, tasks: map<string, string>, es: seq<Deferred>) {
    |ds| == |es| &&
    forall k :: 0 <= k < |ds| ==>
      TurnAfter(ds[k], OwnedRows(ds, tasks, k, stash) + OwnedRows(ds, tasks, k, batch), tasks, es[k])
  }

  /** The whole effect of one run in closed form. */
  ghost predicate RoutedAs(ds: seq<Deferred>, stash: seq<Row>, batch: seq<Row>, tasks: map<string, string>, r: Routed) {
    && SameKnowledge(ds, r.deferred)
    && r.remaining == KeptRows(ds, tasks, batch)
    && r.stashed == UnclaimedRows(ds, tasks, stash) + UnattributedRows(tasks, batch)
    && TurnsAfter(ds, stash, batch, tasks, r.deferred)
  }

  lemma {:induction false} MinusBoth<T>(a: multiset<T>, b: multiset<T>, c: multiset<T>)
    ensures a - b - c == a - (b + c)
  {
  }

  lemma {:induction false} PendingAfter(d: Deferred, row: Row, id: string)
    ensures multiset(Received(d, row, id).pending) == multiset(d.pending) - multiset{id}
  {
    WithoutMembers(d.pending, id);
  }

  lemma {:induction false} TargetsSnoc(tasks: map<string, string>, sent: seq<Row>, row: Row)
    ensures multiset(Targets(tasks, sent + [row])) == multiset(Targets(tasks, sent)) + multiset{TargetId(tasks, row)}
  {
    assert Targets(tasks, sent + [row]) == Targets(tasks, sent) + [TargetId(tasks, row)];
  }

  lemma {:induction false} RowsReceived(before: seq<Row>, sent: seq<Row>, d: Deferred, row: Row, id: string)
    requires d.rows == before + sent
    ensures Received(d, row, id).rows == before + (sent + [row])
  {
    assert before + sent + [row] == before + (sent + [row]);
  }

  lemma {:induction false} PendingReceived(before: multiset<string>, sent: seq<Row>, tasks: map<string, string>, d: Deferred, row: Row)
    requires multiset(d.pending) == before - multiset(Targets(tasks, sent))
    ensures multiset(Received(d, row, TargetId(tasks, row)).pending) == before - multiset(Targets(tasks, sent + [row]))
  {
    var id := TargetId(tasks, row);
    PendingAfter(d, row, id);
    TargetsSnoc(tasks, sent, row);
    MinusBoth(before, multiset(Targets(tasks, sent)), multiset{id});
  }

  lemma {:induction false} TurnReceives(before: Deferred, sent: seq<Row>, tasks: map<string, string>, d: Deferred, row: Row)
    requires TurnAfter(before, sent, tasks, d)
    ensures TurnAfter(before, sent + [row], tasks, Received(d, row, TargetId(tasks, row)))
  {
    RowsReceived(before.rows, sent, d, row, TargetId(tasks, row));
    PendingReceived(multiset(before.pending), sent, tasks, d, row);
  }

  lemma {:induction false} OwnedRowsSnoc(ds: seq<Deferred>, tasks: map<string, string>, k: nat, rows: seq<Row>, row: Row)
    ensures OwnedRows(ds, tasks, k, rows + [row]) ==
            OwnedRows(ds, tasks, k, rows) + if OwnedBy(ds, tasks, k, row) then [row] else []
  {
    assert (rows + [row])[..|rows|] == rows;
  }

  lemma {:induction false} OtherRowsSnoc(ds: seq<Deferred>, tasks: map<string, string>, rows: seq<Row>, row: Row)
    ensures KeptRows(ds, tasks, rows + [row]) ==
            KeptRows(ds, tasks, rows) + if Kept(ds, tasks, row) then [row] else []
    ensures UnattributedRows(tasks, rows + [row]) ==
            UnattributedRows(tasks, rows) + if Unattributed(tasks, row) then [row] else []
    ensures UnclaimedRows(ds, tasks, rows + [row]) ==
            UnclaimedRows(ds, tasks, rows) + if Unclaimed(ds, tasks, row) then [row] else []
  {
    assert (rows + [row])[..|rows|] == rows;
  }

  /** Routing one row, as seen from the deferred turns: its owner, if any, gets it. */
  ghost function Delivered(ds: seq<Deferred>, tasks: map<string, string>, es: seq<Deferred>, row: Row): seq<Deferred> {
    var id := TargetId(tasks, row);
    var k := OwnerOf(ds, id);
    if NoticeTarget(row, tasks).Some? && k < |ds| && k < |es| then es[k := Received(es[k], row, id)] else es
  }

  lemma {:induction false} OwnerKnows(ds: seq<Deferred>, tasks: map<string, string>, es: seq<Deferred>, row: Row)
    requires SameKnowledge(ds, es)
    ensures SameKnowledge(ds, Delivered(ds, tasks, es, row))
  {
    var id := TargetId(tasks, row);
    var owner := OwnerOf(ds, id);
    if NoticeTarget(row, tasks).Some? && owner < |ds| {
      OwnerStable(ds, es, id);
      ReceivedKnows(es, owner, row, id);
    }
  }

  lemma {:induction false} OwnerReceives(ds: seq<Deferred>, tasks: map<string, string>, es: seq<Deferred>, row: Row, k: nat, sent: seq<Row>)
    requires |ds| == |es| && k < |ds| && TurnAfter(ds[k], sent, tasks, es[k])
    ensures TurnAfter(ds[k], sent + (if OwnedBy(ds, tasks, k, row) then [row] else []), tasks,
                      Delivered(ds, tasks, es, row)[k])
  {
    if OwnedBy(ds, tasks, k, row) {
      TurnReceives(ds[k], sent, tasks, es[k], row);
    } else {
      assert sent + [] == sent;
    }
  }

  lemma {:induction false} StashedStep(ds: seq<Deferred>, r: Routed, row: Row, tasks: map<string, string>)
    requires WellFormed(ds) && SameKnowledge(ds, r.deferred)
    ensures AfterStashed(r, row, tasks) ==
            Routed(Delivered(ds, tasks, r.deferred, row), r.remaining,
                   r.stashed + if Unclaimed(ds, tasks, row) then [row] else [])
  {
    var id := TargetId(tasks, row);
    OwnerStable(ds, r.deferred, id);
    if OwnerOf(ds, id) < |ds| {
      assert ds[OwnerOf(ds, id)] in ds;
    }
  }

  lemma {:induction false} BatchStep(ds: seq<Deferred>, r: Routed, row: Row, tasks: map<string, string>)
    requires SameKnowledge(ds, r.deferred)
    ensures AfterBatchRow(r, row, tasks) ==
            Routed(Delivered(ds, tasks, r.deferred, row),
                   r.remaining + (if Kept(ds, tasks, row) then [row] else []),
                   r.stashed + if Unattributed(tasks, row) then [row] else [])
  {
    OwnerStable(ds, r.deferred, TargetId(tasks, row));
  }

  lemma {:induction false} StashTurns(ds: seq<Deferred>, less: seq<Row>, row: Row, tasks: map<string, string>, es: seq<Deferred>)
    requires TurnsAfter(ds, less, [], tasks, es)
    ensures TurnsAfter(ds, less + [row], [], tasks, Delivered(ds, tasks, es, row))
  {
    forall k | 0 <= k < |ds|
      ensures TurnAfter(ds[k], OwnedRows(ds, tasks, k, less + [row]) + OwnedRows(ds, tasks, k, []), tasks,
                        Delivered(ds, tasks, es, row)[k])
    {
      var none := OwnedRows(ds, tasks, k, []);
      var sent := OwnedRows(ds, tasks, k, less) + none;
      OwnedRowsSnoc(ds, tasks, k, less, row);
      OwnerReceives(ds, tasks, es, row, k, sent);
      assert OwnedRows(ds, tasks, k, less + [row]) + none == sent + (if OwnedBy(ds, tasks, k, row) then [row] else []);
    }
  }

  lemma {:induction false} BatchTurns(ds: seq<Deferred>, stash: seq<Row>, less: seq<Row>, row: Row, tasks: map<string, string>, es: seq<Deferred>)
    requires TurnsAfter(ds, stash, less, tasks, es)
    ensures TurnsAfter(ds, stash, less + [row], tasks, Delivered(ds, tasks, es, row))
  {
    forall k | 0 <= k < |ds|
      ensures TurnAfter(ds[k], OwnedRows(ds, tasks, k, stash) + OwnedRows(ds, tasks, k, less + [row]), tasks,
                        Delivered(ds, tasks, es, row)[k])
    {
      var early := OwnedRows(ds, tasks, k, stash);
      var sent := early + OwnedRows(ds, tasks, k, less);
      OwnedRowsSnoc(ds, tasks, k, less, row);
      OwnerReceives(ds, tasks, es, row, k, sent);
      assert early + OwnedRows(ds, tasks, k, less + [row]) == sent + (if OwnedBy(ds, tasks, k, row) then [row] else []);
    }
  }

  lemma {:induction false} StashRoutes(ds: seq<Deferred>, stash: seq<Row>, tasks: map<string, string>)
    requires WellFormed(ds)
    ensures RoutedAs(ds, stash, [], tasks, RouteStash(ds, stash, tasks))
  {
    if stash == [] {
      assert forall k :: 0 <= k < |ds| ==> OwnedRows(ds, tasks, k, []) + OwnedRows(ds, tasks, k, []) == [];
      assert Targets(tasks, []) == [];
    } else {
      var less, row := stash[..|stash| - 1], stash[|stash| - 1];
      StashRoutes(ds, less, tasks);
      assert stash == less + [row];
      var before := RouteStash(ds, less, tasks);
      StashedStep(ds, before, row, tasks);
      OtherRowsSnoc(ds, tasks, less, row);
      OwnerKnows(ds, tasks, before.deferred, row);
      StashTurns(ds, less, row, tasks, before.deferred);
    }
  }

  lemma {:induction false} BatchRoutes(ds: seq<Deferred>, stash: seq<Row>, batch: seq<Row>, tasks: map<string, string>)
    requires WellFormed(ds)
    ensures RoutedAs(ds, stash, batch, tasks, Route(ds, stash, batch, tasks))
  {
    if batch == [] {
      StashRoutes(ds, stash, tasks);
    } else {
      var less, row := batch[..|batch| - 1], batch[|batch| - 1];
      BatchRoutes(ds, stash, less, tasks);
      assert batch == less + [row];
      var before := Route(ds, stash, less, tasks);
      BatchStep(ds, before, row, tasks);
      OtherRowsSnoc(ds, tasks, less, row);
      OwnerKnows(ds, tasks, before.deferred, row);
      BatchTurns(ds, stash, less, row, tasks, before.deferred);
    }
  }

  /** Every batch row has exactly one destination. */
  lemma {:induction false} OneDestination(ds: seq<Deferred>, tasks: map<string, string>, row: Row)
    ensures Kept(ds, tasks, row) || Unattributed(tasks, row) || exists k :: OwnedBy(ds, tasks, k, row)
    ensures !(Kept(ds, tasks, row) && Unattributed(tasks, row))
    ensures forall k :: OwnedBy(ds, tasks, k, row) ==> !Kept(ds, tasks, row) && !Unattributed(tasks, row)
    ensures forall j, k :: OwnedBy(ds, tasks, j, row) && OwnedBy(ds, tasks, k, row) ==> j == k
  {
    var target := NoticeTarget(row, tasks);
    if target.Some? && OwnerOf(ds, target.value) < |ds| {
      assert OwnedBy(ds, tasks, OwnerOf(ds, target.value), row);
    }
  }

  // ------------------------------------------------------------ conservation

  function RowBag(d: Deferred): multiset<Row> { multiset(d.rows) }
  function Bag(rows: seq<Row>): multiset<Row> { multiset(rows) }

  ghost function RowsIn(ds: seq<Deferred>): multiset<Row> {
    Pooled(ds, RowBag)
  }

  lemma {:induction false} RowsInUpdate(ds: seq<Deferred>, k: nat, d: Deferred, row: Row)
    requires k < |ds| && d.rows == ds[k].rows + [row]
    ensures RowsIn(ds[k := d]) == RowsIn(ds) + multiset{row}
  {
    PooledUpdate(ds, k, d, RowBag);
    OneMore(ds[k].rows, row);
    SumsShift(RowsIn(ds), multiset{row}, RowsIn(ds) + multiset{row}, multiset{}, RowBag(ds[k]));
    SumsCancel(RowsIn(ds[k := d]), RowsIn(ds) + multiset{row}, RowBag(ds[k]));
  }

  ghost function Accounted(r: Routed): multiset<Row> {
    RowsIn(r.deferred) + multiset(r.remaining) + multiset(r.stashed)
  }

  lemma {:induction false} DeliveryConserves(r: Routed, k: nat, row: Row, id: string)
    requires k < |r.deferred|
    ensures Accounted(r.(deferred := r.deferred[k := Received(r.deferred[k], row, id)])) == Accounted(r) + multiset{row}
  {
    RowsInUpdate(r.deferred, k, Received(r.deferred[k], row, id), row);
  }

  lemma {:induction false} StepConserves(r: Routed, row: Row, tasks: map<string, string>)
    ensures Accounted(AfterStashed(r, row, tasks)) == Accounted(r) + multiset{row}
    ensures Accounted(AfterBatchRow(r, row, tasks)) == Accounted(r) + multiset{row}
  {
    var target := NoticeTarget(row, tasks);
    if target.Some? {
      var k := OwnerOf(r.deferred, target.value);
      if k < |r.deferred| {
        DeliveryConserves(r, k, row, target.value);
      }
    }
  }

  lemma {:induction false} StashConserved(ds: seq<Deferred>, stash: seq<Row>, tasks: map<string, string>)
    ensures Accounted(RouteStash(ds, stash, tasks)) == RowsIn(ds) + multiset(stash)
  {
    if stash != [] {
      var less, row := stash[..|stash| - 1], stash[|stash| - 1];
      StashConserved(ds, less, tasks);
      StepConserves(RouteStash(ds, less, tasks), row, tasks);
      OneMore(less, row);
      assert multiset(stash) == multiset(less) + multiset{row} by {
        assert stash == less + [row];
      }
    }
  }

  lemma {:induction false} RouteConserved(ds: seq<Deferred>, stash: seq<Row>, batch: seq<Row>, tasks: map<string, string>)
    ensures Accounted(Route(ds, stash, batch, tasks)) == RowsIn(ds) + multiset(stash) + multiset(batch)
  {
    if batch == [] {
      StashConserved(ds, stash, tasks);
    } else {
      var less, row := batch[..|batch| - 1], batch[|batch| - 1];
      RouteConserved(ds, stash, less, tasks);
      StepConserves(Route(ds, stash, less, tasks), row, tasks);
      OneMore(less, row);
      assert multiset(batch) == multiset(less) + multiset{row} by {
        assert batch == less + [row];
      }
    }
  }

  lemma {:induction false} RowsInSplit(ds: seq<Deferred>)
    ensures RowsIn(ds) == RowsIn(Filter(ds, Waiting)) + RowsIn(Filter(ds, Done))
  {
    PooledSplit(ds, Waiting, Done, RowBag);
  }

  /** What one run leaves behind: deferred turns still waiting, turns released in
      deferral order, rows left in the batch, and the newest stashed notifications. */
  datatype Outcome = Outcome(waiting: seq<Deferred>, released: seq<seq<Row>>, remaining: seq<Row>, stash: seq<Row>)

  function Resolve(ds: seq<Deferred>, stash: seq<Row>, batch: seq<Row>, tasks: map<string, string>): Outcome {
    var r := Route(ds, stash, batch, tasks);
    Outcome(Filter(r.deferred, Waiting), Map(Filter(r.deferred, Done), RowsOf), r.remaining, Newest(r.stashed, MAX_STASHED))
  }

  // ------------------------------------------------------------ which turns are released

  /** The rows one run brings to the `k`-th deferred turn. */
  ghost function Brought(ds: seq<Deferred>, stash: seq<Row>, batch: seq<Row>, tasks: map<string, string>, k: nat): seq<Row> {
    OwnedRows(ds, tasks, k, stash) + OwnedRows(ds, tasks, k, batch)
  }

  /** The run brings a notification for every occurrence of every id waited for. */
  ghost predicate AllReported(ds: seq<Deferred>, stash: seq<Row>, batch: seq<Row>, tasks: map<string, string>, k: nat)
    requires k < |ds|
  {
    multiset(ds[k].pending) <= multiset(Targets(tasks, Brought(ds, stash, batch, tasks, k)))
  }

  lemma {:induction false} DoneIff(ds: seq<Deferred>, stash: seq<Row>, batch: seq<Row>, tasks: map<string, string>, k: nat)
    requires WellFormed(ds) && k < |ds|
    ensures var d := Route(ds, stash, batch, tasks).deferred;
            && |d| == |ds| && d[k].rows == ds[k].rows + Brought(ds, stash, batch, tasks, k)
            && (Done(d[k]) <==> AllReported(ds, stash, batch, tasks, k))
  {
    BatchRoutes(ds, stash, batch, tasks);
    var d := Route(ds, stash, batch, tasks).deferred[k];
    var told := multiset(Targets(tasks, Brought(ds, stash, batch, tasks, k)));
    assert TurnAfter(ds[k], Brought(ds, stash, batch, tasks, k), tasks, d);
    NothingLeft(multiset(ds[k].pending), told);
    assert d.pending != [] ==> d.pending[0] in multiset(d.pending);
  }

  lemma {:induction false} NothingLeft<T>(a: multiset<T>, b: multiset<T>)
    ensures a - b == multiset{} <==> a <= b
  {
    forall x | a - b == multiset{} ensures a[x] <= b[x] {
      assert (a - b)[x] == 0;
    }
    forall x | a <= b ensures (a - b)[x] == 0 {
    }
  }

  /** The rows of the first `n` deferred turns that have all they waited for. */
  ghost function Complete(ds: seq<Deferred>, stash: seq<Row>, batch: seq<Row>, tasks: map<string, string>, n: nat): seq<seq<Row>>
    requires n <= |ds|
  {
    if n == 0 then []
    else
      Complete(ds, stash, batch, tasks, n - 1) +
      if AllReported(ds, stash, batch, tasks, n - 1) then [ds[n - 1].rows + Brought(ds, stash, batch, tasks, n - 1)] else []
  }

  lemma {:induction false} ReleasedSoFar(ds: seq<Deferred>, stash: seq<Row>, batch: seq<Row>, tasks: map<string, string>, n: nat)
    requires WellFormed(ds) && n <= |ds| == |Route(ds, stash, batch, tasks).deferred|
    ensures Map(Filter(Route(ds, stash, batch, tasks).deferred[..n], Done), RowsOf) == Complete(ds, stash, batch, tasks, n)
  {
    if n > 0 {
      var all := Route(ds, stash, batch, tasks).deferred;
      assert all[..n][..n - 1] == all[..n - 1];
      ReleasedSoFar(ds, stash, batch, tasks, n - 1);
      DoneIff(ds, stash, batch, tasks, n - 1);
    }
  }

  /** A run releases exactly the deferred turns for which every id waited for has been
      reported by the stash and the batch, in deferral order, each with its own rows
      followed by the notifications brought to it. */
  lemma {:induction false} ReleasedAre(ds: seq<Deferred>, stash: seq<Row>, batch: seq<Row>, tasks: map<string, string>)
    requires WellFormed(ds)
    ensures Resolve(ds, stash, batch, tasks).released == Complete(ds, stash, batch, tasks, |ds|)
  {
    BatchRoutes(ds, stash, batch, tasks);
    var all := Route(ds, stash, batch, tasks).deferred;
    ReleasedSoFar(ds, stash, batch, tasks, |ds|);
    assert all[..|ds|] == all;
  }

  ghost function RowsInLists(lists: seq<seq<Row>>): multiset<Row> {
    Pooled(lists, Bag)
  }

  lemma {:induction false} RowsInReleased(ds: seq<Deferred>)
    ensures RowsInLists(Map(ds, RowsOf)) == RowsIn(ds)
  {
    PooledMap(ds, RowsOf, Bag, RowBag);
  }

  /** No row is lost or duplicated by a run: what waits, what is released, what remains
      and what is stashed holds every row there was, short only of the oldest
      unattributed notifications when more than 50 are stashed. */
  lemma {:induction false} ResolveConserves(ds: seq<Deferred>, stash: seq<Row>, batch: seq<Row>, tasks: map<string, string>)
    returns (dropped: seq<Row>)
    requires WellFormed(ds)
    ensures var o := Resolve(ds, stash, batch, tasks);
            && dropped + o.stash == UnclaimedRows(ds, tasks, stash) + UnattributedRows(tasks, batch)
            && (dropped != [] ==> |o.stash| == MAX_STASHED)
            && RowsIn(o.waiting) + RowsInLists(o.released) + multiset(o.remaining) + multiset(dropped) + multiset(o.stash)
               == RowsIn(ds) + multiset(stash) + multiset(batch)
  {
    var all := Route(ds, stash, batch, tasks);
    BatchRoutes(ds, stash, batch, tasks);
    RouteConserved(ds, stash, batch, tasks);
    RowsInSplit(all.deferred);
    RowsInReleased(Filter(all.deferred, Done));
    dropped := OlderThanNewest(all.stashed, MAX_STASHED);
  }

  lemma {:induction false} OlderThanNewest<T>(s: seq<T>, n: nat) returns (older: seq<T>)
    ensures older + Newest(s, n) == s && (older != [] ==> |Newest(s, n)| == n)
    ensures multiset(older) + multiset(Newest(s, n)) == multiset(s)
  {
    older := if |s| <= n then [] else s[..|s| - n];
    assert older + Newest(s, n) == s;
  }

  /** Without notifications a run touches nothing that waits. */
  lemma {:induction false} QuietBatch(r: Routed, batch: seq<Row>, tasks: map<string, string>)
    requires NoNotices(batch)
    ensures RouteBatch(r, batch, tasks) == r.(remaining := r.remaining + batch)
  {
    if batch != [] {
      QuietBatch(r, batch[..|batch| - 1], tasks);
      assert batch[|batch| - 1].notice.None?;
    }
  }
}
