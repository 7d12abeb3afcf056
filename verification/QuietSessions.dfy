/** Sessions without task notifications: open firings emit in the order of one pass. */
module QuietSessions {
  import opened Collections
  import opened Rows
  import opened Assembly
  import opened Routing
  import opened Session
  import Lines

  /** What the state is after open runs over a notification-free transcript. */
  ghost predicate Checkpoint(s: State, file: string, parse: string -> Option<Row>) {
    var p := Assembled(Transcript(file, parse), map[]);
    && HasRead(s, file)
    && s.stash == []
    && s.openRows == Held(p.open)
    && s.deferred == Map(Filter(p.closed, Unsettled), Deferral)
  }

  lemma {:induction false} NoneDone(ds: seq<Deferred>)
    requires forall d :: d in ds ==> d.pending != []
    ensures Filter(ds, Waiting) == ds && Filter(ds, Done) == []
  {
    FilterAll(ds, Waiting);
    FilterNone(ds, Done);
  }

  lemma {:induction false} DeferralsWait(turns: seq<Turn>)
    ensures forall d :: d in Map(Filter(turns, Unsettled), Deferral) ==> d.pending != []
  {
    FilterMembers(turns, Unsettled);
    var aside := Filter(turns, Unsettled);
    forall i | 0 <= i < |aside| ensures Deferral(aside[i]).pending != [] {
      assert aside[i] in aside;
    }
  }

  lemma {:induction false} QuietResolve(ds: seq<Deferred>, batch: seq<Row>, tasks: map<string, string>)
    requires NoNotices(batch) && forall d :: d in ds ==> d.pending != []
    ensures Resolve(ds, [], batch, tasks) == Outcome(ds, [], batch, [])
  {
    QuietBatch(Routed(ds, [], []), batch, tasks);
    NoneDone(ds);
  }

  lemma {:induction false} NoNoticesConcat(a: seq<Row>, b: seq<Row>)
    requires NoNotices(a + b)
    ensures NoNotices(a) && NoNotices(b)
  {
    assert forall r :: r in a ==> r in a + b;
    assert forall r :: r in b ==> r in a + b;
  }

  /** A run that meets no notification, in closed form. */
  lemma {:induction false} QuietOpen(s: State, file: Option<string>, parse: string -> Option<Row>, tasks: map<string, string>)
    requires s.stash == [] && forall d :: d in s.deferred ==> d.pending != []
    requires var (s1, read) := ReadNew(s, file, parse);
             s1 == s.(offset := s1.offset, buffer := s1.buffer) && NoNotices(s.openRows + read)
    ensures var (s1, read) := ReadNew(s, file, parse);
            var batch := Assembled(s.openRows + read, tasks);
            var (s2, turns) := Collect(s, file, parse, tasks, false);
            && s2 == s1.(openRows := Held(batch.open), numbers := s2.numbers)
            && turns == batch.closed
  {
    var (s1, read) := ReadNew(s, file, parse);
    QuietResolve(s.deferred, s.openRows + read, tasks);
    assert Rebuilt([], tasks) == [];
  }

  lemma {:induction false} CheckpointQuiet(s: State, file: string, parse: string -> Option<Row>)
    requires Checkpoint(s, file, parse)
    ensures forall d :: d in s.deferred ==> d.pending != []
  {
    DeferralsWait(Assembled(Transcript(file, parse), map[]).closed);
  }

  /** What `more` text contributes, seen from a checkpoint. */
  lemma {:induction false} GrowFrom(s: State, file: string, more: string, parse: string -> Option<Row>, tasks: map<string, string>)
    requires Checkpoint(s, file, parse)
    requires NoNotices(Transcript(file + more, parse))
    ensures var (s1, read) := ReadNew(s, Some(file + more), parse);
            var before, after := Assembled(Transcript(file, parse), map[]), Assembled(Transcript(file + more, parse), map[]);
            var batch := Assembled(s.openRows + read, tasks);
            && HasRead(s1, file + more)
            && s1 == s.(offset := s1.offset, buffer := s1.buffer)
            && NoNotices(s.openRows + read)
            && after.closed == before.closed + batch.closed
            && Build(after.open) == Build(batch.open)
            && Held(after.open) == Held(batch.open)
  {
    ReadResumes(s, file, more, parse);
    var (s1, read) := ReadNew(s, Some(file + more), parse);
    NoNoticesConcat(Transcript(file, parse), read);
    RowsDrawn(Transcript(file, parse), map[]);
    assert NoNotices(s.openRows + read);
    var first := Assembled(Transcript(file, parse), map[]);
    QuietIsClean(first.closed, Progress([], first.open), read, tasks);
    Resume(Transcript(file, parse), read, map[], tasks);
    TasksInert(Progress([], START), Transcript(file + more, parse), map[], tasks);
  }

  /** One open run over a longer file closes exactly the turns that one pass over
      the longer file closes beyond those closed before. */
  lemma {:induction false} QuietRun(s: State, file: string, more: string, parse: string -> Option<Row>, tasks: map<string, string>)
    requires Checkpoint(s, file, parse)
    requires NoNotices(Transcript(file + more, parse))
    ensures var before := Assembled(Transcript(file, parse), map[]).closed;
            var after := Assembled(Transcript(file + more, parse), map[]).closed;
            var (s1, turns) := Collect(s, Some(file + more), parse, tasks, false);
            var (s2, emitted) := Fire(s, Some(file + more), parse, tasks, false);
            && after == before + turns
            && emitted == Filter(turns, Settled)
            && Checkpoint(s2, file + more, parse)
  {
    GrowFrom(s, file, more, parse, tasks);
    CheckpointQuiet(s, file, parse);
    QuietOpen(s, Some(file + more), parse, tasks);
    var before := Assembled(Transcript(file, parse), map[]).closed;
    var turns := Collect(s, Some(file + more), parse, tasks, false).1;
    FilterConcat(before, turns, Unsettled);
    MapConcat(Filter(before, Unsettled), Filter(turns, Unsettled), Deferral);
  }

  /** After any number of open firings the emitted turns are exactly the settled
      closed turns of one pass, in order, and the state is a checkpoint. */
  lemma {:induction false} EmittedInOrder(firings: seq<Firing>, parse: string -> Option<Row>)
    requires NoNotices(Transcript(Texts(firings), parse))
    ensures var (s, emitted) := OpenFirings(firings, parse);
            && Checkpoint(s, Texts(firings), parse)
            && emitted == Filter(Assembled(Transcript(Texts(firings), parse), map[]).closed, Settled)
  {
    if firings == [] {
      assert Transcript("", parse) == [];
      assert Assembled([], map[]) == Progress([], START);
    } else {
      var less, f := firings[..|firings| - 1], firings[|firings| - 1];
      var file := Texts(less);
      Lines.SplitGrow(file, f.text, '\n');
      ParsedConcat(Lines.Complete(file, '\n'), Lines.Complete(Lines.Tail(file, '\n') + f.text, '\n'), parse);
      NoNoticesConcat(Transcript(file, parse), Parsed(Lines.Complete(Lines.Tail(file, '\n') + f.text, '\n'), parse));
      EmittedInOrder(less, parse);
      var (s, emitted) := OpenFirings(less, parse);
      QuietRun(s, file, f.text, parse, f.tasks);
      var (s1, turns) := Collect(s, Some(file + f.text), parse, f.tasks, false);
      FilterConcat(Assembled(Transcript(file, parse), map[]).closed, turns, Settled);
    }
  }
}
