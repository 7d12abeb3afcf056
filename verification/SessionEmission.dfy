/** Emission over whole sessions: what the firings on a turn still open put out, what
    its closing run puts out, and that together this is every observation once. */
module SessionEmission {
  import opened Collections
  import opened Rows
  import opened Assembly
  import opened Routing
  import opened Session
  import opened Timely
  import opened WholeSession
  import opened Emission
  import opened EmissionOnce

  // ------------------------------------------------------------ an open turn becomes a closed one

  /** The turn begins with the rows of `p` and goes on without another user row. */
  ghost predicate GrewInto(p: Partial, t: Turn) {
    && p.user == Some(t.user) && p.rows <= t.rows
    && forall r :: r in t.rows[|p.rows|..] ==> !StartsTurn(r)
  }

  /** The turn that was open as `p`, as the `c`-th, is now the `c`-th turn, closed or open. */
  ghost predicate Became(c: nat, p: Partial, s: Progress) {
    if c < |s.closed| then GrewInto(p, s.closed[c])
    else c == |s.closed| && Build(s.open).Some? && GrewInto(p, Build(s.open).value)
  }

  lemma {:induction false} GrewOneMore(p: Partial, t: Turn, u: Turn, row: Row)
    requires GrewInto(p, t) && u.user == t.user && u.rows == t.rows + [row] && !StartsTurn(row)
    ensures GrewInto(p, u)
  {
    assert u.rows[|p.rows|..] == t.rows[|p.rows|..] + [row];
  }

  lemma {:induction false} ClosedStill(s: Progress, row: Row, tasks: map<string, string>, c: nat)
    requires c < |s.closed|
    ensures var after := Step(s, row, tasks);
            && c < |after.closed| && after.closed[c].user == s.closed[c].user
            && (after.closed[c].rows == s.closed[c].rows || (after.closed[c].rows == s.closed[c].rows + [row] && !StartsTurn(row)))
  {
  }

  lemma {:induction false} OpenStill(s: Progress, row: Row, tasks: map<string, string>)
    requires Build(s.open).Some?
    ensures var after, t := Step(s, row, tasks), Build(s.open).value;
            if StartsTurn(row) then after.closed == s.closed + [t]
            else
              && |after.closed| == |s.closed| && Build(after.open).Some? && Build(after.open).value.user == t.user
              && (Build(after.open).value.rows == t.rows || Build(after.open).value.rows == t.rows + [row])
  {
  }

  lemma {:induction false} BecameStep(c: nat, p: Partial, s: Progress, row: Row, tasks: map<string, string>)
    requires Became(c, p, s)
    ensures Became(c, p, Step(s, row, tasks))
  {
    var after := Step(s, row, tasks);
    if c < |s.closed| {
      ClosedStill(s, row, tasks, c);
      if after.closed[c].rows != s.closed[c].rows {
        GrewOneMore(p, s.closed[c], after.closed[c], row);
      }
    } else {
      OpenStill(s, row, tasks);
      if !StartsTurn(row) && Build(after.open).value.rows != Build(s.open).value.rows {
        GrewOneMore(p, Build(s.open).value, Build(after.open).value, row);
      }
    }
  }

  /** Whatever is read later, an open turn with a message stays the same one of the
      turns and only grows. */
  lemma {:induction false} OpenBecomes(s: Progress, more: seq<Row>, tasks: map<string, string>)
    requires Build(s.open).Some?
    ensures Became(|s.closed|, s.open, Fold(s, more, tasks))
  {
    if more != [] {
      var n := |more| - 1;
      OpenBecomes(s, more[..n], tasks);
      BecameStep(|s.closed|, s.open, Fold(s, more[..n], tasks), more[n], tasks);
    }
  }

  // ------------------------------------------------------------ the session's progress entries

  /** One hook run: what it reads and knows, and the agent transcripts known by then. */
  datatype Run = Run(f: Session.Firing, world: World)

  function FiringsOf(runs: seq<Run>): seq<Session.Firing> {
    Map(runs, (r: Run) => r.f)
  }

  lemma {:induction false} FiringsLess(runs: seq<Run>)
    requires runs != []
    ensures FiringsOf(runs)[..|runs| - 1] == FiringsOf(runs[..|runs| - 1])
    ensures FiringsOf(runs)[|runs| - 1] == runs[|runs| - 1].f
  {
  }

  function Look(progress: map<string, set<string>>, u: string): set<string> {
    if u in progress then progress[u] else {}
  }

  /** Closing turns consume their entries. */
  function Consumed(progress: map<string, set<string>>, turns: seq<Turn>): map<string, set<string>> {
    map u | u in progress && (forall t :: t in turns ==> t.user.uuid != u) :: progress[u]
  }

  /** The open firing that follows a run, on the turn it holds. */
  function OpenFiring(s: State, r: Run): EmissionOnce.Firing {
    EmissionOnce.Firing.Firing(s.openRows, r.f.tasks, r.world)
  }

  function TurnSeen(f: EmissionOnce.Firing): Option<Turn> {
    Build(Assembled(f.rows, f.tasks).open)
  }

  function Advanced(progress: map<string, set<string>>, f: EmissionOnce.Firing): map<string, set<string>> {
    var turn := TurnSeen(f);
    if turn.None? || turn.value.user.uuid == "" then progress
    else progress[turn.value.user.uuid := AfterFiring(Look(progress, turn.value.user.uuid), f)]
  }

  /** What one open run emits as closed. */
  ghost function Closes(runs: seq<Run>, parse: string -> Option<Row>): seq<Turn>
    requires runs != []
  {
    var n := |runs| - 1;
    Fire(OpenFirings(FiringsOf(runs[..n]), parse).0, Some(Texts(FiringsOf(runs))), parse, runs[n].f.tasks, false).1
  }

  /** The progress entries after open runs. */
  ghost function Entries(runs: seq<Run>, parse: string -> Option<Row>): map<string, set<string>> {
    if runs == [] then map[]
    else
      var n := |runs| - 1;
      Advanced(Consumed(Entries(runs[..n], parse), Closes(runs, parse)), OpenFiring(OpenFirings(FiringsOf(runs), parse).0, runs[n]))
  }

  ghost predicate On(f: EmissionOnce.Firing, u: string) {
    TurnSeen(f).Some? && TurnSeen(f).value.user.uuid == u
  }

  /** The open firings on the turn whose user row is `u`. */
  ghost function FiringsOn(runs: seq<Run>, parse: string -> Option<Row>, u: string): seq<EmissionOnce.Firing> {
    if runs == [] then []
    else
      var f := OpenFiring(OpenFirings(FiringsOf(runs), parse).0, runs[|runs| - 1]);
      FiringsOn(runs[..|runs| - 1], parse, u) + if On(f, u) then [f] else []
  }

  ghost predicate NeverClosed(runs: seq<Run>, parse: string -> Option<Row>, u: string) {
    forall t :: t in OpenFirings(FiringsOf(runs), parse).1 ==> t.user.uuid != u
  }

  lemma {:induction false} OneMoreRun(runs: seq<Run>, parse: string -> Option<Row>)
    requires runs != []
    ensures OpenFirings(FiringsOf(runs), parse).1 == OpenFirings(FiringsOf(runs[..|runs| - 1]), parse).1 + Closes(runs, parse)
  {
    FiringsLess(runs);
  }

  lemma {:induction false} AdvancedOn(progress: map<string, set<string>>, f: EmissionOnce.Firing, u: string)
    requires u != ""
    ensures Look(Advanced(progress, f), u) == if On(f, u) then AfterFiring(Look(progress, u), f) else Look(progress, u)
  {
  }

  lemma {:induction false} FiringsSnoc(fs: seq<EmissionOnce.Firing>, f: EmissionOnce.Firing)
    ensures AfterFirings(fs + [f]) == AfterFiring(AfterFirings(fs), f)
  {
    assert (fs + [f])[..|fs|] == fs;
  }

  lemma {:induction false} EntryStep(progress: map<string, set<string>>, turns: seq<Turn>, f: EmissionOnce.Firing, fs: seq<EmissionOnce.Firing>, u: string)
    requires u != "" && Look(progress, u) == AfterFirings(fs) && forall t :: t in turns ==> t.user.uuid != u
    ensures Look(Advanced(Consumed(progress, turns), f), u) == AfterFirings(fs + if On(f, u) then [f] else [])
  {
    AdvancedOn(Consumed(progress, turns), f, u);
    FiringsSnoc(fs, f);
    assert fs + [] == fs;
  }

  /** As long as the turn is not closed its entry is what the firings on it put out. */
  lemma {:induction false} EntryIs(runs: seq<Run>, parse: string -> Option<Row>, u: string)
    requires u != "" && NeverClosed(runs, parse, u)
    ensures Look(Entries(runs, parse), u) == AfterFirings(FiringsOn(runs, parse, u))
  {
    if runs != [] {
      var n := |runs| - 1;
      OneMoreRun(runs, parse);
      EntryIs(runs[..n], parse, u);
      EntryStep(Entries(runs[..n], parse), Closes(runs, parse), OpenFiring(OpenFirings(FiringsOf(runs), parse).0, runs[n]),
                FiringsOn(runs[..n], parse, u), u);
    }
  }

  // ------------------------------------------------------------ one closing run

  /** No two turns share a named user row. */
  ghost predicate OwnUuids(turns: seq<Turn>) {
    forall i, j :: 0 <= i < j < |turns| && turns[i].user.uuid != "" ==> turns[i].user.uuid != turns[j].user.uuid
  }

  /** The run after `runs` comes in time, as do they. */
  ghost predicate InTimeSoFar(runs: seq<Run>, next: Run, parse: string -> Option<Row>) {
    && KnownInTime(FiringsOf(runs), parse, next.f.tasks) && AllInTime(FiringsOf(runs), parse, next.f.tasks)
    && NextInTime(FiringsOf(runs), next.f.text, parse, next.f.tasks)
  }

  function AllRows(runs: seq<Run>, next: Run, parse: string -> Option<Row>): seq<Row> {
    Transcript(Texts(FiringsOf(runs)) + next.f.text, parse)
  }

  /** What the run after `runs` closes; `flush` ends the session. */
  ghost function ClosedNext(runs: seq<Run>, next: Run, parse: string -> Option<Row>, flush: bool): seq<Turn> {
    Fire(OpenFirings(FiringsOf(runs), parse).0, Some(Texts(FiringsOf(runs)) + next.f.text), parse, next.f.tasks, flush).1
  }

  lemma {:induction false} PartOf<T>(a: multiset<T>, b: multiset<T>, c: multiset<T>)
    requires a == b + c
    ensures b <= a
  {
  }

  /** Everything emitted up to and with the next run is among the turns of one pass. */
  lemma {:induction false} AmongTurns(runs: seq<Run>, next: Run, parse: string -> Option<Row>, flush: bool)
    requires InTimeSoFar(runs, next, parse)
    ensures multiset(OpenFirings(FiringsOf(runs), parse).1 + ClosedNext(runs, next, parse, flush))
            <= multiset(AllTurns(AllRows(runs, next, parse), next.f.tasks))
  {
    var file, tasks := Texts(FiringsOf(runs)), next.f.tasks;
    OpenFiringsEquivalent(FiringsOf(runs), parse, tasks);
    var (s, emitted) := OpenFirings(FiringsOf(runs), parse);
    TextGrows(s, file, next.f.text, parse);
    var read := ReadNew(s, Some(file + next.f.text), parse).1;
    if flush {
      LastRun(s, emitted, Some(file + next.f.text), parse, Transcript(file, parse), read, tasks);
    } else {
      OpenRun(s, emitted, Some(file + next.f.text), parse, Transcript(file, parse), read, tasks);
      var (s1, out) := Fire(s, Some(file + next.f.text), parse, tasks, false);
      var whole := Assembled(AllRows(runs, next, parse), tasks);
      PartOf(multiset(whole.closed), multiset(emitted + out), Waiters(s1.deferred, tasks));
      assert multiset(whole.closed) <= multiset(whole.closed + AsSeq(Build(whole.open)));
    }
  }

  lemma {:induction false} OneOf(turns: seq<Turn>, i: nat, t: Turn)
    requires OwnUuids(turns) && i < |turns| && t in turns && t.user.uuid == turns[i].user.uuid != ""
    ensures t == turns[i]
  {
    var j :| 0 <= j < |turns| && turns[j] == t;
    OwnPair(turns, i, j);
    OwnPair(turns, j, i);
  }

  lemma {:induction false} OwnPair(turns: seq<Turn>, i: nat, j: nat)
    requires OwnUuids(turns) && i < |turns| && j < |turns|
    ensures i < j && turns[i].user.uuid != "" ==> turns[i].user.uuid != turns[j].user.uuid
  {
  }

  lemma {:induction false} SameTurn(turns: seq<Turn>, e: Turn, t: Turn)
    requires OwnUuids(turns) && e in turns && t in turns && t.user.uuid != ""
    ensures e.user.uuid == t.user.uuid ==> e == t
  {
    if e.user.uuid == t.user.uuid {
      var i :| 0 <= i < |turns| && turns[i] == e;
      OneOf(turns, i, t);
    }
  }

  lemma {:induction false} OwnOnce(turns: seq<Turn>, t: Turn)
    requires OwnUuids(turns) && t.user.uuid != ""
    ensures multiset(turns)[t] <= 1
  {
    if turns != [] {
      var less, last := turns[..|turns| - 1], turns[|turns| - 1];
      assert turns == less + [last];
      OwnOnce(less, t);
      if last == t {
        assert t !in less;
      }
    }
  }

  /** A turn closed now was not closed before, nor was another with its user row. */
  lemma {:induction false} ClosedNow(emitted: seq<Turn>, out: seq<Turn>, turns: seq<Turn>, t: Turn)
    requires multiset(emitted + out) <= multiset(turns) && OwnUuids(turns)
    requires t in out && t.user.uuid != ""
    ensures t in turns && forall e :: e in emitted ==> e.user.uuid != t.user.uuid
  {
    assert multiset(emitted + out) == multiset(emitted) + multiset(out);
    OwnOnce(turns, t);
    assert t in multiset(out) && t in multiset(turns);
    assert multiset(emitted)[t] + multiset(out)[t] <= multiset(turns)[t];
    forall e | e in emitted ensures e.user.uuid != t.user.uuid {
      assert e in multiset(emitted) && e in multiset(turns);
      SameTurn(turns, e, t);
    }
  }

  /** Every turn of one pass can be rebuilt from its rows. */
  lemma {:induction false} TurnRebuilds(rows: seq<Row>, tasks: map<string, string>, t: Turn)
    requires t in AllTurns(rows, tasks)
    ensures Build(Assembled(t.rows, tasks).open) == Some(t)
  {
    ClosedRebuild(rows, tasks);
    HeldRebuilds(rows, tasks);
    var s := Assembled(rows, tasks);
    if t !in s.closed {
      assert Build(s.open) == Some(t);
    }
  }

  // ------------------------------------------------------------ firings on a turn and its closing

  /** A firing that saw the turn's user row saw a prefix of what the turn became. */
  lemma {:induction false} SeenBefore(rows: seq<Row>, more: seq<Row>, tasks: map<string, string>, f: EmissionOnce.Firing, t: Turn)
    requires f.rows == Held(Assembled(rows, tasks).open) && t.user.uuid != "" && On(f, t.user.uuid)
    requires t in AllTurns(rows + more, tasks) && OwnUuids(AllTurns(rows + more, tasks))
    ensures f.rows <= t.rows && forall r :: r in t.rows[|f.rows|..] ==> !StartsTurn(r)
  {
    var s := Assembled(rows, tasks);
    HeldRebuilds(rows, tasks);
    MessagesIgnoreTasks(f.rows, f.tasks, tasks);
    assert Assembled([], tasks).open == START;
    assert Build(s.open).Some? && s.open.user.value.uuid == t.user.uuid;
    OpenBecomes(s, more, tasks);
    FoldConcat(Progress([], START), rows, more, tasks);
    var turns := AllTurns(rows + more, tasks);
    OneOf(turns, |s.closed|, t);
  }

  /** The firing that follows a run which has read `read`. */
  lemma {:induction false} LastContinues(s: State, emitted: seq<Turn>, r: Run, read: seq<Row>, rows: seq<Row>, tasks: map<string, string>, t: Turn,
                                         last: EmissionOnce.Firing)
    requires Tracks(s, emitted, read, tasks) && read <= rows
    requires t in AllTurns(rows, tasks) && OwnUuids(AllTurns(rows, tasks)) && t.user.uuid != ""
    requires last.rows == t.rows && r.world.subagents <= last.world.subagents
    ensures On(OpenFiring(s, r), t.user.uuid) ==> Continues(OpenFiring(s, r), last)
  {
    if On(OpenFiring(s, r), t.user.uuid) {
      assert rows == read + rows[|read|..];
      SeenBefore(read, rows[|read|..], tasks, OpenFiring(s, r), t);
    }
  }

  /** What was read before the last run is part of what was read by it. */
  lemma {:induction false} ReadBefore(runs: seq<Run>, parse: string -> Option<Row>, tasks: map<string, string>)
    requires runs != [] && KnownInTime(FiringsOf(runs), parse, tasks) && AllInTime(FiringsOf(runs), parse, tasks)
    ensures var less := runs[..|runs| - 1];
            && KnownInTime(FiringsOf(less), parse, tasks) && AllInTime(FiringsOf(less), parse, tasks)
            && Transcript(Texts(FiringsOf(less)), parse) <= Transcript(Texts(FiringsOf(runs)), parse)
  {
    var less, r := runs[..|runs| - 1], runs[|runs| - 1];
    FiringsLess(runs);
    OpenFiringsEquivalent(FiringsOf(less), parse, tasks);
    TextGrows(OpenFirings(FiringsOf(less), parse).0, Texts(FiringsOf(less)), r.f.text, parse);
  }

  ghost predicate AllContinue(fs: seq<EmissionOnce.Firing>, last: EmissionOnce.Firing) {
    forall f :: f in fs ==> Continues(f, last)
  }

  lemma {:induction false} FiringsContinue(runs: seq<Run>, parse: string -> Option<Row>, tasks: map<string, string>, rows: seq<Row>, t: Turn,
                                           last: EmissionOnce.Firing)
    requires KnownInTime(FiringsOf(runs), parse, tasks) && AllInTime(FiringsOf(runs), parse, tasks)
    requires Transcript(Texts(FiringsOf(runs)), parse) <= rows
    requires t in AllTurns(rows, tasks) && OwnUuids(AllTurns(rows, tasks)) && t.user.uuid != ""
    requires last.rows == t.rows && forall r :: r in runs ==> r.world.subagents <= last.world.subagents
    ensures AllContinue(FiringsOn(runs, parse, t.user.uuid), last)
  {
    if runs != [] {
      var less, r := runs[..|runs| - 1], runs[|runs| - 1];
      assert r in runs && forall x :: x in less ==> x in runs;
      ReadBefore(runs, parse, tasks);
      FiringsContinue(less, parse, tasks, rows, t, last);
      OpenFiringsEquivalent(FiringsOf(runs), parse, tasks);
      var (s, emitted) := OpenFirings(FiringsOf(runs), parse);
      LastContinues(s, emitted, r, Transcript(Texts(FiringsOf(runs)), parse), rows, tasks, t, last);
    }
  }

  /** Over a whole session, through open, closed, deferred and released, every
      observation of a turn is emitted once: whenever a run closes a turn, its entry
      holds what the firings on it put out while it was open, no key of which two of
      them put out, and the closing run puts out exactly the keys still owed. */
  lemma {:induction false} EmittedOnce(runs: seq<Run>, next: Run, parse: string -> Option<Row>, flush: bool, t: Turn)
    requires InTimeSoFar(runs, next, parse)
    requires OwnUuids(AllTurns(AllRows(runs, next, parse), next.f.tasks))
    requires t in ClosedNext(runs, next, parse, flush) && t.user.uuid != ""
    requires Tidy(Progress([], START), t.rows, next.f.tasks)
    requires forall r :: r in runs ==> r.world.subagents <= next.world.subagents
    ensures var fs := FiringsOn(runs, parse, t.user.uuid);
            var entry := Look(Entries(runs, parse), t.user.uuid);
            var closing := Emitted(t, next.world, true) - entry;
            && NewlyAll(fs, |fs|) == entry
            && (forall i, j :: 0 <= i < j < |fs| ==> Newly(fs, i) !! Newly(fs, j))
            && CoreKeys(t, next.world) <= entry + closing
            && entry + closing <= CoreKeys(t, next.world) + FlowKeysOf(fs + [EmissionOnce.Firing.Firing(t.rows, next.f.tasks, next.world)])
  {
    var tasks, rows, u := next.f.tasks, AllRows(runs, next, parse), t.user.uuid;
    var fs, last := FiringsOn(runs, parse, u), EmissionOnce.Firing.Firing(t.rows, tasks, next.world);
    AmongTurns(runs, next, parse, flush);
    ClosedNow(OpenFirings(FiringsOf(runs), parse).1, ClosedNext(runs, next, parse, flush), AllTurns(rows, tasks), t);
    EntryIs(runs, parse, u);
    TurnRebuilds(rows, tasks, t);
    OpenFiringsEquivalent(FiringsOf(runs), parse, tasks);
    TextGrows(OpenFirings(FiringsOf(runs), parse).0, Texts(FiringsOf(runs)), next.f.text, parse);
    FiringsContinue(runs, parse, tasks, rows, t, last);
    ExactlyOnce(fs, last, t);
  }
}
