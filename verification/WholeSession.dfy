/** Whole sessions: any number of open firings and the flush that ends them give the
    turns of one pass over the whole transcript, task notifications included, as long
    as every notification comes in time. */
module WholeSession {
  import opened Collections
  import opened Rows
  import opened Assembly
  import opened Routing
  import opened Session
  import opened Timely
  import Lines

  // ------------------------------------------------------------ task ids known later

  /** Every row the deferred turns hold is one of `rows`. */
  ghost predicate HeldFrom(ds: seq<Deferred>, rows: seq<Row>) {
    forall i :: 0 <= i < |ds| ==> AllIn(ds[i].rows, rows)
  }

  ghost predicate AllIn(some: seq<Row>, rows: seq<Row>) {
    forall r :: r in some ==> r in rows
  }

  ghost predicate RoutedFrom(r: Routed, rows: seq<Row>) {
    HeldFrom(r.deferred, rows) && AllIn(r.remaining, rows) && AllIn(r.stashed, rows)
  }

  lemma {:induction false} RoutingDraws(r: Routed, batch: seq<Row>, tasks: map<string, string>, rows: seq<Row>)
    requires RoutedFrom(r, rows) && AllIn(batch, rows)
    ensures RoutedFrom(RouteBatch(r, batch, tasks), rows)
  {
    if batch != [] {
      var less, row := batch[..|batch| - 1], batch[|batch| - 1];
      assert row in rows && AllIn(less, rows) by {
        assert row in batch && forall x :: x in less ==> x in batch;
      }
      RoutingDraws(r, less, tasks, rows);
    }
  }

  lemma {:induction false} RoutingSame(r: Routed, batch: seq<Row>, rows: seq<Row>, tasks: map<string, string>, later: map<string, string>)
    requires AllIn(batch, rows) && SameTargets(rows, tasks, later)
    ensures RouteBatch(r, batch, tasks) == RouteBatch(r, batch, later)
  {
    if batch != [] {
      var less, row := batch[..|batch| - 1], batch[|batch| - 1];
      assert row in batch && forall x :: x in less ==> x in batch;
      RoutingSame(r, less, rows, tasks, later);
    }
  }

  lemma {:induction false} AssemblySame(some: seq<Row>, rows: seq<Row>, tasks: map<string, string>, later: map<string, string>)
    requires AllIn(some, rows) && SameTargets(rows, tasks, later)
    ensures Assembled(some, tasks) == Assembled(some, later) && AllTurns(some, tasks) == AllTurns(some, later)
  {
    TasksInert(Progress([], START), some, tasks, later);
  }

  lemma {:induction false} RebuiltSame(lists: seq<seq<Row>>, rows: seq<Row>, tasks: map<string, string>, later: map<string, string>)
    requires SameTargets(rows, tasks, later) && forall i :: 0 <= i < |lists| ==> AllIn(lists[i], rows)
    ensures Rebuilt(lists, tasks) == Rebuilt(lists, later)
  {
    if lists != [] {
      RebuiltSame(lists[..|lists| - 1], rows, tasks, later);
      AssemblySame(lists[|lists| - 1], rows, tasks, later);
    }
  }

  lemma {:induction false} FilteredFrom(ds: seq<Deferred>, keep: Deferred -> bool, rows: seq<Row>)
    requires HeldFrom(ds, rows)
    ensures HeldFrom(Filter(ds, keep), rows)
  {
    FilterMembers(ds, keep);
    forall i | 0 <= i < |Filter(ds, keep)| ensures AllIn(Filter(ds, keep)[i].rows, rows) {
      assert Filter(ds, keep)[i] in Filter(ds, keep);
    }
  }

  /** One run is the same under any task ids that name the same tool calls. */
  lemma {:induction false} RunSame(s: State, file: Option<string>, parse: string -> Option<Row>, rows: seq<Row>,
                                   tasks: map<string, string>, later: map<string, string>, flush: bool)
    requires s.stash == [] && HeldFrom(s.deferred, rows) && SameTargets(rows, tasks, later)
    requires var (s1, read) := ReadNew(s, file, parse);
             s1 == s.(offset := s1.offset, buffer := s1.buffer) && AllIn(s.openRows + read, rows)
    ensures Fire(s, file, parse, tasks, flush) == Fire(s, file, parse, later, flush)
  {
    var batch := s.openRows + ReadNew(s, file, parse).1;
    assert RouteStash(s.deferred, [], tasks) == RouteStash(s.deferred, [], later) == Routed(s.deferred, [], []);
    RoutingSame(Routed(s.deferred, [], []), batch, rows, tasks, later);
    RoutingDraws(Routed(s.deferred, [], []), batch, tasks, rows);
    var r := Route(s.deferred, [], batch, tasks);
    OwedSame(r, rows, tasks, later, flush);
  }

  lemma {:induction false} OwedSame(r: Routed, rows: seq<Row>, tasks: map<string, string>, later: map<string, string>, flush: bool)
    requires RoutedFrom(r, rows) && SameTargets(rows, tasks, later)
    ensures var o := Outcome(Filter(r.deferred, Waiting), Map(Filter(r.deferred, Done), Routing.RowsOf), r.remaining, Newest(r.stashed, MAX_STASHED));
            && Assembled(BatchRows(o, flush), tasks) == Assembled(BatchRows(o, flush), later)
            && Rebuilt(Owed(o, flush), tasks) == Rebuilt(Owed(o, flush), later)
  {
    var o := Outcome(Filter(r.deferred, Waiting), Map(Filter(r.deferred, Done), Routing.RowsOf), r.remaining, Newest(r.stashed, MAX_STASHED));
    FilteredFrom(r.deferred, Waiting, rows);
    FilteredFrom(r.deferred, Done, rows);
    FilteredFrom(o.waiting, HasRows, rows);
    AssemblySame(BatchRows(o, flush), rows, tasks, later);
    RebuiltSame(Owed(o, flush), rows, tasks, later);
  }

  // ------------------------------------------------------------ one run

  /** What open runs leave behind when `rows` is all they read: the turns emitted and
      those still waiting are together the closed turns of one pass over `rows`. */
  ghost predicate Tracks(s: State, emitted: seq<Turn>, rows: seq<Row>, tasks: map<string, string>) {
    var whole := Assembled(rows, tasks);
    && s.stash == []
    && s.openRows == Held(whole.open)
    && HeldFrom(s.deferred, rows)
    && multiset(whole.closed) == multiset(emitted) + Waiters(s.deferred, tasks)
  }

  ghost predicate Reads(s: State, file: Option<string>, parse: string -> Option<Row>, read: seq<Row>) {
    var (s1, now) := ReadNew(s, file, parse);
    s1 == s.(offset := s1.offset, buffer := s1.buffer) && now == read
  }

  /** The turns a run rebuilds or closes, and those that go on waiting. */
  lemma {:induction false} OpenTurns(ds: seq<Deferred>, batch: Progress, tasks: map<string, string>)
    ensures multiset(Rebuilt(Map(Filter(ds, Done), Routing.RowsOf), tasks) + batch.closed) + Waiters(Filter(ds, Waiting), tasks)
            == Waiters(ds, tasks) + multiset(batch.closed)
  {
    WaitersSplit(ds, tasks);
    WaitersRebuilt(Map(Filter(ds, Done), Routing.RowsOf), tasks);
  }

  lemma {:induction false} Shares(all: multiset<Turn>, turns: seq<Turn>, emitted: seq<Turn>, out: seq<Turn>, aside: seq<Turn>, waiting: multiset<Turn>)
    requires all == multiset(emitted) + (multiset(turns) + waiting)
    requires multiset(out) + multiset(aside) == multiset(turns)
    ensures all == multiset(emitted + out) + (waiting + multiset(aside))
  {
    assert multiset(emitted + out) == multiset(emitted) + multiset(out);
  }

  lemma {:induction false} AsideDrawn(ds: seq<Deferred>, aside: seq<Turn>, rows: seq<Row>)
    requires HeldFrom(ds, rows) && forall t :: t in aside ==> TurnFrom(t, rows)
    ensures HeldFrom(ds + Map(aside, Deferral), rows)
  {
    var all := ds + Map(aside, Deferral);
    forall i | 0 <= i < |all| ensures AllIn(all[i].rows, rows) {
      if i >= |ds| {
        assert aside[i - |ds|] in aside && all[i] == Deferral(aside[i - |ds|]);
      }
    }
  }

  lemma {:induction false} RowsMerge(ds: seq<Deferred>, held: seq<Row>, rows: seq<Row>, read: seq<Row>)
    requires HeldFrom(ds, rows) && AllIn(held, rows)
    ensures HeldFrom(ds, rows + read) && AllIn(held + read, rows + read)
  {
    forall i | 0 <= i < |ds| ensures AllIn(ds[i].rows, rows + read) {
      assert AllIn(ds[i].rows, rows);
    }
  }

  /** The closed turns of one pass after a run, shared out between what was emitted
      before, what the run brings out, and what goes on waiting. */
  lemma {:induction false} RunShares(s: State, emitted: seq<Turn>, rows: seq<Row>, read: seq<Row>, tasks: map<string, string>)
    requires Tracks(s, emitted, rows, tasks) && RunInTime(s.deferred, s.openRows, rows, read, tasks)
    ensures var after := Assembled(rows + read, tasks);
            var r := Route(s.deferred, [], s.openRows + read, tasks);
            var batch := Assembled(r.remaining, tasks);
            && r.stashed == []
            && multiset(after.closed) == multiset(emitted) +
                 (multiset(Rebuilt(Map(Filter(r.deferred, Done), Routing.RowsOf), tasks) + batch.closed) + Waiters(Filter(r.deferred, Waiting), tasks))
            && Build(after.open) == Build(batch.open) && Held(after.open) == Held(batch.open)
            && HeldFrom(Filter(r.deferred, Waiting), rows + read)
  {
    var r := Route(s.deferred, [], s.openRows + read, tasks);
    var whole := Assembled(rows, tasks);
    assert whole.closed[..|whole.closed|] == whole.closed;
    RunKeepsPace(s.deferred, rows, read, multiset(emitted), tasks);
    OpenTurns(r.deferred, Assembled(r.remaining, tasks), tasks);
    RowsDrawn(rows, tasks);
    RowsMerge(s.deferred, s.openRows, rows, read);
    assert RouteStash(s.deferred, [], tasks) == Routed(s.deferred, [], []);
    RoutingDraws(Routed(s.deferred, [], []), s.openRows + read, tasks, rows + read);
    FilteredFrom(r.deferred, Waiting, rows + read);
  }

  /** One open run. */
  lemma {:induction false} OpenRun(s: State, emitted: seq<Turn>, file: Option<string>, parse: string -> Option<Row>,
                                   rows: seq<Row>, read: seq<Row>, tasks: map<string, string>)
    requires Tracks(s, emitted, rows, tasks) && Reads(s, file, parse, read)
    requires RunInTime(s.deferred, s.openRows, rows, read, tasks)
    ensures var (s1, out) := Fire(s, file, parse, tasks, false);
            Tracks(s1, emitted + out, rows + read, tasks)
  {
    RunShares(s, emitted, rows, read, tasks);
    var after := Assembled(rows + read, tasks);
    var r := Route(s.deferred, [], s.openRows + read, tasks);
    var batch := Assembled(r.remaining, tasks);
    var turns := Rebuilt(Map(Filter(r.deferred, Done), Routing.RowsOf), tasks) + batch.closed;
    var out, aside := Filter(turns, Settled), Filter(turns, Unsettled);
    assert Collect(s, file, parse, tasks, false).1 == turns by {
      assert batch.closed + [] == batch.closed;
    }
    FilterPartition(turns, Settled, Unsettled);
    Shares(multiset(after.closed), turns, emitted, out, aside, Waiters(Filter(r.deferred, Waiting), tasks));
    AsideWhole(rows + read, turns, tasks);
    WaitersAside(aside, tasks);
    WaitersConcat(Filter(r.deferred, Waiting), Map(aside, Deferral), tasks);
    AsideDrawn(Filter(r.deferred, Waiting), aside, rows + read);
  }

  lemma {:induction false} AsideWhole(rows: seq<Row>, turns: seq<Turn>, tasks: map<string, string>)
    requires multiset(turns) <= multiset(Assembled(rows, tasks).closed)
    ensures forall t :: t in Filter(turns, Unsettled) ==> Whole(t, tasks) && TurnFrom(t, rows)
  {
    ClosedRebuild(rows, tasks);
    RowsDrawn(rows, tasks);
    FilterMembers(turns, Unsettled);
    forall t | t in turns ensures t in Assembled(rows, tasks).closed {
      assert t in multiset(turns);
    }
  }

  /** The run that ends the session emits everything not emitted before. */
  lemma {:induction false} LastRun(s: State, emitted: seq<Turn>, file: Option<string>, parse: string -> Option<Row>,
                                   rows: seq<Row>, read: seq<Row>, tasks: map<string, string>)
    requires Tracks(s, emitted, rows, tasks) && Reads(s, file, parse, read)
    requires RunInTime(s.deferred, s.openRows, rows, read, tasks)
    ensures multiset(emitted + Fire(s, file, parse, tasks, true).1) == multiset(AllTurns(rows + read, tasks))
  {
    RunShares(s, emitted, rows, read, tasks);
    var r := Route(s.deferred, [], s.openRows + read, tasks);
    var batch := Assembled(r.remaining, tasks);
    var waiting, done := Filter(r.deferred, Waiting), Filter(r.deferred, Done);
    var o := Outcome(waiting, Map(done, Routing.RowsOf), r.remaining, []);
    assert Resolve(s.deferred, [], s.openRows + read, tasks) == o;
    assert BatchRows(o, true) == r.remaining;
    var last := Map(Filter(waiting, HasRows), Routing.RowsOf);
    WaitersRebuilt(Map(done, Routing.RowsOf), tasks);
    WaitersRebuilt(Map(done, Routing.RowsOf) + last, tasks);
    PooledConcat(Map(done, Routing.RowsOf), last, StandFor(tasks));
    WaitersWithRows(waiting, tasks);
    LastShares(multiset(Assembled(rows + read, tasks).closed), emitted, Rebuilt(Map(done, Routing.RowsOf), tasks),
               Rebuilt(Map(done, Routing.RowsOf) + last, tasks), Waiters(waiting, tasks), batch.closed, AsSeq(Build(batch.open)));
  }

  lemma {:induction false} LastShares(all: multiset<Turn>, emitted: seq<Turn>, released: seq<Turn>, owed: seq<Turn>, waiting: multiset<Turn>,
                                      closed: seq<Turn>, open: seq<Turn>)
    requires all == multiset(emitted) + (multiset(released + closed) + waiting)
    requires multiset(owed) == multiset(released) + waiting
    ensures multiset(emitted + (owed + (closed + open))) == all + multiset(open)
  {
  }

  // ------------------------------------------------------------ out of time

  lemma {:induction false} ClosedThenOpen(rows: seq<Row>, tasks: map<string, string>)
    ensures Assembled(rows, tasks).closed != [] ==> Assembled(rows, tasks).open.user.Some?
  {
    if rows != [] {
      ClosedThenOpen(rows[..|rows| - 1], tasks);
    }
  }

  /** A notification about a call that only turns of earlier runs know, none of them
      deferred: one pass leaves the open turn alone, the run files it there. */
  lemma {:induction false} LateIsHeld(s: State, rows: seq<Row>, row: Row, tasks: map<string, string>)
    requires s.openRows == Held(Assembled(rows, tasks).open)
    requires Stray(Assembled(rows, tasks).closed, Progress([], Assembled(rows, tasks).open), row, tasks)
    ensures Held(Assembled(s.openRows + [row], tasks).open) != Held(Assembled(rows + [row], tasks).open)
  {
    var whole := Assembled(rows, tasks);
    ClosedThenOpen(rows, tasks);
    HeldRebuilds(rows, tasks);
    AssembledSnoc(rows, row, tasks);
    AssembledSnoc(s.openRows, row, tasks);
    assert |Held(Assembled(s.openRows + [row], tasks).open)| == |whole.open.rows| + 1;
  }

  lemma {:induction false} OneInTime(n: nat, whole: Progress, r: Routed, row: Row, tasks: map<string, string>)
    ensures InTime(n, whole, r, [row], tasks) <==> Expected(n, whole, r.deferred, row, tasks)
    ensures RouteBatch(r, [row], tasks) == AfterBatchRow(r, row, tasks)
  {
    var none := [row][..|[row]| - 1];
    assert none == [];
    assert InTime(n, whole, r, none, tasks) && RouteBatch(r, none, tasks) == r && Fold(whole, none, tasks) == whole;
  }

  /** For a run that reads one row no deferred turn waits for, coming in time is not
      only enough: the run keeps the checkpoint if and only if the row does. */
  lemma {:induction false} UnownedIff(s: State, emitted: seq<Turn>, file: Option<string>, parse: string -> Option<Row>,
                                      rows: seq<Row>, row: Row, tasks: map<string, string>)
    requires Tracks(s, emitted, rows, tasks) && Reads(s, file, parse, [row]) && HeldSettled(s.deferred, s.openRows, tasks)
    requires NoticeTarget(row, tasks).Some? ==> OwnerOf(s.deferred, NoticeTarget(row, tasks).value) == |s.deferred|
    ensures var (s1, out) := Fire(s, file, parse, tasks, false);
            Tracks(s1, emitted + out, rows + [row], tasks) <==> RunInTime(s.deferred, s.openRows, rows, [row], tasks)
  {
    if RunInTime(s.deferred, s.openRows, rows, [row], tasks) {
      OpenRun(s, emitted, file, parse, rows, [row], tasks);
    } else {
      var whole := Assembled(rows, tasks);
      var r := Routed(s.deferred, s.openRows, []);
      OneInTime(|whole.closed|, whole, r, row, tasks);
      HeldFirst(s.deferred, s.openRows, [row], tasks);
      if NoticeTarget(row, tasks).Some? {
        LateIsHeld(s, rows, row, tasks);
      } else {
        assert [] + [row] == [row];
      }
    }
  }

  // ------------------------------------------------------------ all runs

  /** The notifications every open firing reads come in time. */
  ghost predicate AllInTime(firings: seq<Firing>, parse: string -> Option<Row>, tasks: map<string, string>) {
    firings == [] ||
    (AllInTime(firings[..|firings| - 1], parse, tasks) &&
     NextInTime(firings[..|firings| - 1], firings[|firings| - 1].text, parse, tasks))
  }

  /** So do those in `text`, read by the run after the firings. */
  ghost predicate NextInTime(firings: seq<Firing>, text: string, parse: string -> Option<Row>, tasks: map<string, string>) {
    var (s, _) := OpenFirings(firings, parse);
    RunInTime(s.deferred, s.openRows, Transcript(Texts(firings), parse), ReadNew(s, Some(Texts(firings) + text), parse).1, tasks)
  }

  /** At each open firing the task ids known by then name the same tool calls as those
      known in the end, on all that was read by then. */
  ghost predicate KnownInTime(firings: seq<Firing>, parse: string -> Option<Row>, tasks: map<string, string>) {
    firings == [] ||
    (KnownInTime(firings[..|firings| - 1], parse, tasks) &&
     SameTargets(Transcript(Texts(firings), parse), firings[|firings| - 1].tasks, tasks))
  }

  lemma {:induction false} TextGrows(s: State, file: string, text: string, parse: string -> Option<Row>)
    requires HasRead(s, file)
    ensures var (s1, read) := ReadNew(s, Some(file + text), parse);
            && HasRead(s1, file + text) && Reads(s, Some(file + text), parse, read)
            && Transcript(file + text, parse) == Transcript(file, parse) + read
            && AllIn(Transcript(file, parse), Transcript(file + text, parse)) && AllIn(read, Transcript(file + text, parse))
  {
    ReadResumes(s, file, text, parse);
  }

  lemma {:induction false} NothingRead(parse: string -> Option<Row>, tasks: map<string, string>)
    ensures HasRead(EMPTY, "") && Transcript("", parse) == [] && Tracks(EMPTY, [], [], tasks)
  {
    assert Assembled([], tasks) == Progress([], START);
    assert Waiters([], tasks) == multiset{};
  }

  /** A run under the task ids known by then is the run under those known in the end. */
  lemma {:induction false} KnownLater(s: State, emitted: seq<Turn>, file: string, text: string, parse: string -> Option<Row>,
                                      known: map<string, string>, tasks: map<string, string>, flush: bool)
    requires HasRead(s, file) && SameTargets(Transcript(file + text, parse), known, tasks)
    requires Tracks(s, emitted, Transcript(file, parse), tasks)
    ensures Fire(s, Some(file + text), parse, known, flush) == Fire(s, Some(file + text), parse, tasks, flush)
  {
    var all := Transcript(file + text, parse);
    TextGrows(s, file, text, parse);
    RowsDrawn(Transcript(file, parse), tasks);
    forall i | 0 <= i < |s.deferred| ensures AllIn(s.deferred[i].rows, all) {
      assert AllIn(s.deferred[i].rows, Transcript(file, parse));
    }
    RunSame(s, Some(file + text), parse, all, known, tasks, flush);
  }

  /** After any number of open firings the turns emitted and those put aside are
      together, as a multiset, exactly the closed turns of one pass, and the held rows
      are its open turn's, if the notifications read so far came in time. */
  lemma {:induction false} OpenFiringsEquivalent(firings: seq<Firing>, parse: string -> Option<Row>, tasks: map<string, string>)
    requires KnownInTime(firings, parse, tasks) && AllInTime(firings, parse, tasks)
    ensures var (s, emitted) := OpenFirings(firings, parse);
            HasRead(s, Texts(firings)) && Tracks(s, emitted, Transcript(Texts(firings), parse), tasks)
  {
    if firings == [] {
      NothingRead(parse, tasks);
    } else {
      var less, f := firings[..|firings| - 1], firings[|firings| - 1];
      var file := Texts(less);
      OpenFiringsEquivalent(less, parse, tasks);
      var (s, emitted) := OpenFirings(less, parse);
      TextGrows(s, file, f.text, parse);
      KnownLater(s, emitted, file, f.text, parse, f.tasks, tasks, false);
      var read := ReadNew(s, Some(file + f.text), parse).1;
      OpenRun(s, emitted, Some(file + f.text), parse, Transcript(file, parse), read, tasks);
    }
  }

  /** However a transcript is cut into reads and runs, a session that ends with a flush
      emits every turn of one pass over the whole transcript exactly once, with the
      outcomes its notifications report, if they come in time. Task ids may become known
      as agents start: what a firing knows must only suffice for what was read by then. */
  lemma {:induction false} SessionEquivalent(firings: seq<Firing>, last: Firing, parse: string -> Option<Row>)
    requires KnownInTime(firings, parse, last.tasks)
    requires AllInTime(firings, parse, last.tasks) && NextInTime(firings, last.text, parse, last.tasks)
    ensures var file := Texts(firings) + last.text;
            var (s, early) := OpenFirings(firings, parse);
            var (_, late) := Fire(s, Some(file), parse, last.tasks, true);
            multiset(early + late) == multiset(AllTurns(Transcript(file, parse), last.tasks))
  {
    var file, tasks := Texts(firings), last.tasks;
    OpenFiringsEquivalent(firings, parse, tasks);
    var (s, early) := OpenFirings(firings, parse);
    TextGrows(s, file, last.text, parse);
    LastRun(s, early, Some(file + last.text), parse, Transcript(file, parse), ReadNew(s, Some(file + last.text), parse).1, tasks);
  }

  // ------------------------------------------------------------ without notifications

  lemma {:induction false} QuietInTime(n: nat, start: Progress, r: Routed, rows: seq<Row>, tasks: map<string, string>)
    requires NoNotices(rows)
    ensures InTime(n, start, r, rows, tasks)
  {
    if rows != [] {
      QuietInTime(n, start, r, rows[..|rows| - 1], tasks);
      assert rows[|rows| - 1] in rows;
    }
  }

  lemma {:induction false} QuietPrefix(file: string, text: string, parse: string -> Option<Row>)
    requires NoNotices(Transcript(file + text, parse))
    ensures NoNotices(Transcript(file, parse))
  {
    TextGrows(EMPTY.(offset := |file|, buffer := Lines.Tail(file, '\n')), file, text, parse);
  }

  lemma {:induction false} QuietNext(firings: seq<Firing>, text: string, parse: string -> Option<Row>, tasks: map<string, string>)
    requires NoNotices(Transcript(Texts(firings) + text, parse))
    requires KnownInTime(firings, parse, tasks) && AllInTime(firings, parse, tasks)
    ensures NextInTime(firings, text, parse, tasks)
  {
    var file := Texts(firings);
    OpenFiringsEquivalent(firings, parse, tasks);
    var (s, emitted) := OpenFirings(firings, parse);
    TextGrows(s, file, text, parse);
    RowsDrawn(Transcript(file, parse), tasks);
    var whole := Assembled(Transcript(file, parse), tasks);
    QuietInTime(|whole.closed|, whole, Routed(s.deferred, s.openRows, []), ReadNew(s, Some(file + text), parse).1, tasks);
  }

  lemma {:induction false} QuietFirings(firings: seq<Firing>, parse: string -> Option<Row>, tasks: map<string, string>)
    requires NoNotices(Transcript(Texts(firings), parse))
    ensures KnownInTime(firings, parse, tasks) && AllInTime(firings, parse, tasks)
  {
    if firings != [] {
      var less, f := firings[..|firings| - 1], firings[|firings| - 1];
      QuietPrefix(Texts(less), f.text, parse);
      QuietFirings(less, parse, tasks);
      QuietNext(less, f.text, parse, tasks);
    }
  }

  /** Without notifications nothing is asked of the session at all. */
  lemma {:induction false} QuietSession(firings: seq<Firing>, last: Firing, parse: string -> Option<Row>, tasks: map<string, string>)
    requires NoNotices(Transcript(Texts(firings) + last.text, parse))
    ensures var file := Texts(firings) + last.text;
            var (s, early) := OpenFirings(firings, parse);
            var (_, late) := Fire(s, Some(file), parse, last.tasks, true);
            multiset(early + late) == multiset(AllTurns(Transcript(file, parse), tasks))
  {
    var all := Transcript(Texts(firings) + last.text, parse);
    QuietPrefix(Texts(firings), last.text, parse);
    QuietFirings(firings, parse, last.tasks);
    QuietNext(firings, last.text, parse, last.tasks);
    SessionEquivalent(firings, last, parse);
    AssemblySame(all, all, last.tasks, tasks);
  }
}
