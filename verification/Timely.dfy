/** Notifications that reach deferred turns: when routing a batch and assembling what
    is left gives the turns that one pass over everything gives. */
module Timely {
  import opened Collections
  import opened Rows
  import opened Assembly
  import opened Routing
  import opened Session

  // ------------------------------------------------------------ the turns deferred rows stand for

  ghost function StandFor(tasks: map<string, string>): seq<Row> -> multiset<Turn> {
    (rows: seq<Row>) => multiset(AllTurns(rows, tasks))
  }

  ghost function Waiters(ds: seq<Deferred>, tasks: map<string, string>): multiset<Turn> {
    Pooled(Map(ds, Routing.RowsOf), StandFor(tasks))
  }

  lemma {:induction false} WaitersUpdate(ds: seq<Deferred>, k: nat, d: Deferred, was: Turn, now: Turn, tasks: map<string, string>)
    requires k < |ds| && AllTurns(ds[k].rows, tasks) == [was] && AllTurns(d.rows, tasks) == [now]
    ensures Waiters(ds[k := d], tasks) + multiset{was} == Waiters(ds, tasks) + multiset{now}
  {
    assert Map(ds[k := d], Routing.RowsOf) == Map(ds, Routing.RowsOf)[k := d.rows];
    PooledUpdate(Map(ds, Routing.RowsOf), k, d.rows, StandFor(tasks));
  }

  lemma {:induction false} WaitersRebuilt(lists: seq<seq<Row>>, tasks: map<string, string>)
    ensures multiset(Rebuilt(lists, tasks)) == Pooled(lists, StandFor(tasks))
  {
    if lists != [] {
      WaitersRebuilt(lists[..|lists| - 1], tasks);
    }
  }

  lemma {:induction false} WaitersAre(ds: seq<Deferred>, tasks: map<string, string>)
    ensures Waiters(ds, tasks) == Pooled(ds, (d: Deferred) => StandFor(tasks)(d.rows))
  {
    PooledMap(ds, Routing.RowsOf, StandFor(tasks), (d: Deferred) => StandFor(tasks)(d.rows));
  }

  lemma {:induction false} WaitersSplit(ds: seq<Deferred>, tasks: map<string, string>)
    ensures Waiters(ds, tasks) == Waiters(Filter(ds, Waiting), tasks) + Waiters(Filter(ds, Done), tasks)
  {
    var f := (d: Deferred) => StandFor(tasks)(d.rows);
    WaitersAre(ds, tasks);
    WaitersAre(Filter(ds, Waiting), tasks);
    WaitersAre(Filter(ds, Done), tasks);
    PooledSplit(ds, Waiting, Done, f);
    assert Pooled(ds, f) == Waiters(ds, tasks);
  }

  lemma {:induction false} WaitersWithRows(ds: seq<Deferred>, tasks: map<string, string>)
    ensures Waiters(Filter(ds, HasRows), tasks) == Waiters(ds, tasks)
  {
    var f := (d: Deferred) => StandFor(tasks)(d.rows);
    WaitersAre(ds, tasks);
    WaitersAre(Filter(ds, HasRows), tasks);
    assert AllTurns([], tasks) == [];
    PooledFilter(ds, HasRows, f);
  }

  lemma {:induction false} WaitersConcat(a: seq<Deferred>, b: seq<Deferred>, tasks: map<string, string>)
    ensures Waiters(a + b, tasks) == Waiters(a, tasks) + Waiters(b, tasks)
  {
    MapConcat(a, b, Routing.RowsOf);
    PooledConcat(Map(a, Routing.RowsOf), Map(b, Routing.RowsOf), StandFor(tasks));
  }

  /** Turns put aside stand for themselves. */
  lemma {:induction false} WaitersAside(turns: seq<Turn>, tasks: map<string, string>)
    requires forall t :: t in turns ==> Whole(t, tasks)
    ensures Waiters(Map(turns, Deferral), tasks) == multiset(turns)
  {
    var f := (t: Turn) => StandFor(tasks)(t.rows);
    assert Map(Map(turns, Deferral), Routing.RowsOf) == Map(turns, (t: Turn) => t.rows);
    PooledMap(turns, (t: Turn) => t.rows, StandFor(tasks), f);
    forall t | t in turns ensures f(t) == multiset{t} {
      WholeTurns(t, tasks);
    }
    PooledSingles(turns, f);
  }

  // ------------------------------------------------------------ a notification in time

  /** Routing agrees with one pass over everything about where the row goes. `whole` is
      that pass so far, the first `n` of whose closed turns were closed by earlier runs.
      The row goes to a deferred turn if and only if one pass gives it to one of those
      `n`, and the deferred turn is that very one. */
  ghost predicate Expected(n: nat, whole: Progress, ds: seq<Deferred>, row: Row, tasks: map<string, string>) {
    row.notice.Some? ==>
      NoticeTarget(row, tasks).Some? &&
      var id := NoticeTarget(row, tasks).value;
      var k, i := OwnerOf(ds, id), LatestKnowing(whole.closed, id);
      if k < |ds| then
        Reports(row, tasks) && !OpenKnows(whole.open, id) && i < n && i < |whole.closed| && whole.closed[i].rows == ds[k].rows
      else !Reports(row, tasks) || OpenKnows(whole.open, id) || i >= n
  }

  /** Every row is expected at its turn. */
  ghost predicate InTime(n: nat, start: Progress, r: Routed, rows: seq<Row>, tasks: map<string, string>) {
    rows == [] ||
    (InTime(n, start, r, rows[..|rows| - 1], tasks) &&
     Expected(n, Fold(start, rows[..|rows| - 1], tasks), RouteBatch(r, rows[..|rows| - 1], tasks).deferred, rows[|rows| - 1], tasks))
  }

  /** One pass and the routed run agree: `since` is what the run makes of the rows kept. */
  ghost predicate Agree(n: nat, whole: Progress, since: Progress) {
    n <= |whole.closed| && whole.closed[n..] == since.closed && whole.open == since.open
  }

  /** What was emitted and what waits are together the turns closed by earlier runs. */
  ghost predicate Covers(n: nat, whole: Progress, emitted: multiset<Turn>, ds: seq<Deferred>, tasks: map<string, string>) {
    n <= |whole.closed| && multiset(whole.closed[..n]) == emitted + Waiters(ds, tasks)
  }

  lemma {:induction false} KeptStep(n: nat, whole: Progress, since: Progress, ds: seq<Deferred>, row: Row, tasks: map<string, string>)
    requires Agree(n, whole, since) && Expected(n, whole, ds, row, tasks)
    requires row.notice.Some? ==> OwnerOf(ds, NoticeTarget(row, tasks).value) == |ds|
    ensures Agree(n, Step(whole, row, tasks), Step(since, row, tasks))
    ensures Step(whole, row, tasks).closed[..n] == whole.closed[..n]
  {
    var before := whole.closed[..n];
    assert whole.closed == before + since.closed;
    if Reports(row, tasks) {
      LatestConcat(before, since.closed, NoticeTarget(row, tasks).value);
    }
    CleanStep(before, since, row, tasks);
    var after := Step(whole, row, tasks);
    assert after == Step(Progress(before + since.closed, since.open), row, tasks);
    assert after.closed == before + Step(since, row, tasks).closed;
  }

  /** One pass over the row alone, when the row belongs to an earlier turn. */
  lemma {:induction false} OwnedClosed(n: nat, whole: Progress, row: Row, tasks: map<string, string>) returns (t: Turn)
    requires Reports(row, tasks)
    requires var id := NoticeTarget(row, tasks).value;
             !OpenKnows(whole.open, id) && LatestKnowing(whole.closed, id) < n <= |whole.closed|
    ensures var i := LatestKnowing(whole.closed, NoticeTarget(row, tasks).value);
            && Step(whole, row, tasks) == whole.(closed := whole.closed[i := t])
            && t.rows == whole.closed[i].rows + [row]
            && (Whole(whole.closed[i], tasks) ==> Whole(t, tasks))
  {
    var id := NoticeTarget(row, tasks).value;
    var was := whole.closed[LatestKnowing(whole.closed, id)];
    t := was.(results := was.results[id := Finished(was.results[id], row)], rows := was.rows + [row]);
    if Whole(was, tasks) {
      WholeNoticed(was, row, tasks);
    }
  }

  lemma {:induction false} WholeTurns(t: Turn, tasks: map<string, string>)
    requires Whole(t, tasks)
    ensures AllTurns(t.rows, tasks) == [t]
  {
    assert AllTurns(t.rows, tasks) == [] + [t];
  }

  lemma {:induction false} Swapped(closed: seq<Turn>, n: nat, i: nat, t: Turn)
    requires i < n <= |closed|
    ensures closed[i := t][n..] == closed[n..]
    ensures multiset(closed[i := t][..n]) + multiset{closed[i]} == multiset(closed[..n]) + multiset{t}
  {
    assert closed[i := t][..n] == closed[..n][i := t];
  }

  lemma {:induction false} SwapBoth(m: multiset<Turn>, m': multiset<Turn>, e: multiset<Turn>, w: multiset<Turn>, w': multiset<Turn>,
                                    was: multiset<Turn>, now: multiset<Turn>)
    requires m == e + w && m' + was == m + now && w' + was == w + now
    ensures m' == e + w'
  {
    assert m' + was == (e + w) + now == e + (w + now) == e + (w' + was) == (e + w') + was;
    SumsCancel(m', e + w', was);
  }

  /** A row that belongs to a deferred turn, seen from the two turns it changes. */
  lemma {:induction false} OwnedCovers(n: nat, closed: seq<Turn>, i: nat, t: Turn, emitted: multiset<Turn>,
                                       ds: seq<Deferred>, k: nat, d: Deferred, tasks: map<string, string>)
    requires i < n <= |closed| && multiset(closed[..n]) == emitted + Waiters(ds, tasks)
    requires k < |ds| && ds[k].rows == closed[i].rows && d.rows == t.rows
    requires Whole(closed[i], tasks) && Whole(t, tasks)
    ensures multiset(closed[i := t][..n]) == emitted + Waiters(ds[k := d], tasks)
  {
    Swapped(closed, n, i, t);
    WholeTurns(closed[i], tasks);
    WholeTurns(t, tasks);
    WaitersUpdate(ds, k, d, closed[i], t, tasks);
    SwapBoth(multiset(closed[..n]), multiset(closed[i := t][..n]), emitted, Waiters(ds, tasks), Waiters(ds[k := d], tasks),
             multiset{closed[i]}, multiset{t});
  }

  lemma {:induction false} OwnedStep(n: nat, whole: Progress, since: Progress, emitted: multiset<Turn>, ds: seq<Deferred>, row: Row, tasks: map<string, string>)
    requires Agree(n, whole, since) && Expected(n, whole, ds, row, tasks)
    requires Covers(n, whole, emitted, ds, tasks)
    requires row.notice.Some? && OwnerOf(ds, NoticeTarget(row, tasks).value) < |ds|
    requires forall t :: t in whole.closed ==> Whole(t, tasks)
    ensures var id := NoticeTarget(row, tasks).value; var k := OwnerOf(ds, id);
            && Agree(n, Step(whole, row, tasks), since)
            && Covers(n, Step(whole, row, tasks), emitted, ds[k := Received(ds[k], row, id)], tasks)
  {
    var id := NoticeTarget(row, tasks).value;
    var k, i := OwnerOf(ds, id), LatestKnowing(whole.closed, id);
    var t := OwnedClosed(n, whole, row, tasks);
    Swapped(whole.closed, n, i, t);
    assert Whole(whole.closed[i], tasks);
    OwnedCovers(n, whole.closed, i, t, emitted, ds, k, Received(ds[k], row, id), tasks);
  }

  lemma {:induction false} WholeFold(rows: seq<Row>, more: seq<Row>, tasks: map<string, string>)
    ensures forall t :: t in Fold(Assembled(rows, tasks), more, tasks).closed ==> Whole(t, tasks)
  {
    ClosedRebuild(rows + more, tasks);
    FoldConcat(Progress([], START), rows, more, tasks);
  }

  /** Routing rows that arrive in time, and assembling those that are left, keeps pace
      with one pass over all of them. */
  lemma {:induction false} KeepsPace(rows: seq<Row>, ds: seq<Deferred>, held: seq<Row>, more: seq<Row>, emitted: multiset<Turn>, tasks: map<string, string>)
    returns (kept: seq<Row>)
    requires var whole := Assembled(rows, tasks);
             && InTime(|whole.closed|, whole, Routed(ds, held, []), more, tasks)
             && Covers(|whole.closed|, whole, emitted, ds, tasks)
    ensures var whole := Assembled(rows, tasks); var n := |whole.closed|;
            var after, r := Fold(whole, more, tasks), RouteBatch(Routed(ds, held, []), more, tasks);
            && r.remaining == held + kept && r.stashed == []
            && Agree(n, after, Fold(Progress([], whole.open), kept, tasks))
            && Covers(n, after, emitted, r.deferred, tasks)
  {
    var whole := Assembled(rows, tasks);
    var n := |whole.closed|;
    if more == [] {
      kept := [];
      assert held + [] == held;
    } else {
      var less, row := more[..|more| - 1], more[|more| - 1];
      var front := KeepsPace(rows, ds, held, less, emitted, tasks);
      var es := RouteBatch(Routed(ds, held, []), less, tasks).deferred;
      var before, since := Fold(whole, less, tasks), Fold(Progress([], whole.open), front, tasks);
      WholeFold(rows, less, tasks);
      if row.notice.Some? && OwnerOf(es, NoticeTarget(row, tasks).value) < |es| {
        kept := front;
        OwnedStep(n, before, since, emitted, es, row, tasks);
      } else {
        kept := front + [row];
        assert kept[..|front|] == front && held + kept == held + front + [row];
        KeptStep(n, before, since, es, row, tasks);
      }
    }
  }

  // ------------------------------------------------------------ one run

  /** Notifications the open turn already holds belong to no deferred turn. */
  ghost predicate HeldSettled(ds: seq<Deferred>, held: seq<Row>, tasks: map<string, string>) {
    forall r :: r in held && r.notice.Some? ==> NoticeTarget(r, tasks).Some? && OwnerOf(ds, NoticeTarget(r, tasks).value) == |ds|
  }

  /** Every notification a run reads comes in time: `rows` were read before, `more` now. */
  ghost predicate RunInTime(ds: seq<Deferred>, held: seq<Row>, rows: seq<Row>, more: seq<Row>, tasks: map<string, string>) {
    var whole := Assembled(rows, tasks);
    HeldSettled(ds, held, tasks) && InTime(|whole.closed|, whole, Routed(ds, held, []), more, tasks)
  }

  lemma {:induction false} Stays(r: Routed, row: Row, tasks: map<string, string>)
    requires row.notice.Some? ==> NoticeTarget(row, tasks).Some? && OwnerOf(r.deferred, NoticeTarget(row, tasks).value) == |r.deferred|
    ensures AfterBatchRow(r, row, tasks) == r.(remaining := r.remaining + [row])
  {
  }

  lemma {:induction false} HeldStays(ds: seq<Deferred>, held: seq<Row>, tasks: map<string, string>)
    requires HeldSettled(ds, held, tasks)
    ensures RouteBatch(Routed(ds, [], []), held, tasks) == Routed(ds, held, [])
  {
    if held != [] {
      var less, row := held[..|held| - 1], held[|held| - 1];
      assert row in held;
      HeldStays(ds, less, tasks);
      Stays(Routed(ds, less, []), row, tasks);
      assert held == less + [row];
    }
  }

  lemma {:induction false} BatchConcat(r: Routed, a: seq<Row>, b: seq<Row>, tasks: map<string, string>)
    ensures RouteBatch(r, a + b, tasks) == RouteBatch(RouteBatch(r, a, tasks), b, tasks)
  {
    if b == [] {
      assert a + b == a;
    } else {
      assert (a + b)[..|a + b| - 1] == a + b[..|b| - 1];
      BatchConcat(r, a, b[..|b| - 1], tasks);
    }
  }

  /** Assembling rows behind the held ones goes on where the open turn stands. */
  lemma {:induction false} HeldResumes(rows: seq<Row>, kept: seq<Row>, tasks: map<string, string>)
    ensures var open := Assembled(rows, tasks).open;
            var since, batch := Fold(Progress([], open), kept, tasks), Assembled(Held(open) + kept, tasks);
            batch.closed == since.closed && Interchangeable(since.open, batch.open)
  {
    var open := Assembled(rows, tasks).open;
    HeldRebuilds(rows, tasks);
    FoldConcat(Progress([], START), Held(open), kept, tasks);
    var again := Assembled(Held(open), tasks);
    assert again.closed == [] && Interchangeable(open, again.open);
    FoldInterchangeable(open, again.open, kept, tasks);
  }

  lemma {:induction false} HeldFirst(ds: seq<Deferred>, held: seq<Row>, more: seq<Row>, tasks: map<string, string>)
    requires HeldSettled(ds, held, tasks)
    ensures Route(ds, [], held + more, tasks) == RouteBatch(Routed(ds, held, []), more, tasks)
  {
    HeldStays(ds, held, tasks);
    BatchConcat(Routed(ds, [], []), held, more, tasks);
    assert RouteStash(ds, [], tasks) == Routed(ds, [], []);
  }

  /** One run's routing and assembly against one pass over everything read by then. */
  lemma {:induction false} RunKeepsPace(ds: seq<Deferred>, rows: seq<Row>, more: seq<Row>, emitted: multiset<Turn>, tasks: map<string, string>)
    requires var held := Held(Assembled(rows, tasks).open); RunInTime(ds, held, rows, more, tasks)
    requires var whole := Assembled(rows, tasks); Covers(|whole.closed|, whole, emitted, ds, tasks)
    ensures var whole, after := Assembled(rows, tasks), Assembled(rows + more, tasks);
            var r := Route(ds, [], Held(whole.open) + more, tasks);
            var batch := Assembled(r.remaining, tasks);
            && r.stashed == []
            && multiset(after.closed) == emitted + Waiters(r.deferred, tasks) + multiset(batch.closed)
            && Build(after.open) == Build(batch.open) && Held(after.open) == Held(batch.open)
  {
    var whole, after := Assembled(rows, tasks), Assembled(rows + more, tasks);
    var n, held := |whole.closed|, Held(whole.open);
    HeldFirst(ds, held, more, tasks);
    FoldConcat(Progress([], START), rows, more, tasks);
    var kept := KeepsPace(rows, ds, held, more, emitted, tasks);
    HeldResumes(rows, kept, tasks);
    SplitAt(after.closed, n);
  }

  lemma {:induction false} SplitAt(closed: seq<Turn>, n: nat)
    requires n <= |closed|
    ensures multiset(closed) == multiset(closed[..n]) + multiset(closed[n..])
  {
    assert closed == closed[..n] + closed[n..];
  }
}
