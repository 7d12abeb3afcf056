/** One transcript's hook runs: read what is new, put the held open turn in front,
    route notifications, assemble, decide what to emit. The functions give the
    meaning of each stage; `HookSession` is the persisted state updated in place. */
module Session {
  import opened Collections
  import opened Rows
  import opened Assembly
  import opened Routing
  import Lines

  datatype State = State(
    offset: nat,
    buffer: string,
    turnCount: nat,
    deferred: seq<Deferred>,
    stash: seq<Row>,
    openRows: seq<Row>,
    numbers: map<string, nat>)

  const EMPTY := State(0, "", 0, [], [], [], map[])

  // ------------------------------------------------------------ reading

  /** The rows of complete lines; `parse` strips and decodes one line, and gives
      nothing for a blank or unreadable one. */
  function Parsed(lines: seq<string>, parse: string -> Option<Row>): seq<Row> {
    if lines == [] then []
    else
      var row := parse(lines[|lines| - 1]);
      Parsed(lines[..|lines| - 1], parse) + if row.Some? then [row.value] else []
  }

  /** Every row of the complete lines of a transcript. */
  function Transcript(file: string, parse: string -> Option<Row>): seq<Row> {
    Parsed(Lines.Complete(file, '\n'), parse)
  }

  function Rewound(s: State): State {
    s.(offset := 0, buffer := "", deferred := [], stash := [], openRows := [], numbers := map[])
  }

  function ReadNew(s: State, file: Option<string>, parse: string -> Option<Row>): (State, seq<Row>) {
    if file.None? then (s, [])
    else
      var text := file.value;
      var s1 := if |text| < s.offset then Rewound(s) else s;
      if s1.offset == |text| then (s1, [])
      else
        var combined := s1.buffer + text[s1.offset..];
        (s1.(buffer := Lines.Tail(combined, '\n'), offset := |text|),
         Parsed(Lines.Complete(combined, '\n'), parse))
  }

  lemma {:induction false} ParsedConcat(a: seq<string>, b: seq<string>, parse: string -> Option<Row>)
    ensures Parsed(a + b, parse) == Parsed(a, parse) + Parsed(b, parse)
  {
    if b == [] {
      assert a + b == a;
    } else {
      assert (a + b)[..|a + b| - 1] == a + b[..|b| - 1];
      ParsedConcat(a, b[..|b| - 1], parse);
    }
  }

  /** The session has consumed exactly `file`. */
  ghost predicate HasRead(s: State, file: string) {
    s.offset == |file| && s.buffer == Lines.Tail(file, '\n')
  }

  /** Offset and line buffer are a sufficient reading checkpoint. */
  lemma {:induction false} ReadResumes(s: State, file: string, more: string, parse: string -> Option<Row>)
    requires HasRead(s, file)
    ensures var (s1, rows) := ReadNew(s, Some(file + more), parse);
            && HasRead(s1, file + more)
            && s1 == s.(offset := s1.offset, buffer := s1.buffer)
            && Transcript(file + more, parse) == Transcript(file, parse) + rows
  {
    Lines.SplitGrow(file, more, '\n');
    ParsedConcat(Lines.Complete(file, '\n'), Lines.Complete(s.buffer + more, '\n'), parse);
    if more == "" {
      assert file + more == file;
    } else {
      assert (file + more)[|file|..] == more;
    }
  }

  // ------------------------------------------------------------ pending agents

  predicate At(text: string, part: string, i: nat) {
    i + |part| <= |text| && text[i..i + |part|] == part
  }

  predicate Contains(text: string, part: string) {
    exists i | 0 <= i <= |text| :: At(text, part, i)
  }

  predicate IsAsyncLaunch(entry: ToolEntry) {
    if entry.asyncLaunch.Some? then entry.asyncLaunch.value
    else
      || Contains(entry.output, "Async agent launched successfully")
      || (Contains(entry.output, "agentId:") && Contains(entry.output, "output_file:")
          && Contains(entry.output, "You will be notified automatically"))
  }

  predicate Launches(b: Block) {
    b.ToolUse? && b.name in {"Agent", "Task", "Workflow"} && b.id != ""
  }

  predicate AwaitsAgent(b: Block, results: map<string, ToolEntry>) {
    Launches(b) && b.id in results && results[b.id].finalOutput.None? && IsAsyncLaunch(results[b.id])
  }

  function PendingIn(blocks: seq<Block>, results: map<string, ToolEntry>): seq<string> {
    if blocks == [] then []
    else
      var b := blocks[|blocks| - 1];
      PendingIn(blocks[..|blocks| - 1], results) + if AwaitsAgent(b, results) then [b.id] else []
  }

  function PendingOf(messages: seq<Message>, results: map<string, ToolEntry>): seq<string> {
    if messages == [] then []
    else PendingOf(messages[..|messages| - 1], results) + PendingIn(messages[|messages| - 1].blocks, results)
  }

  /** Tool calls of the turn that launched an agent which has not reported yet. */
  function PendingAgents(turn: Turn): seq<string> {
    PendingOf(turn.assistants, turn.results)
  }

  predicate Settled(turn: Turn) { PendingAgents(turn) == [] }
  predicate Unsettled(turn: Turn) { PendingAgents(turn) != [] }

  function Deferral(turn: Turn): Deferred {
    Deferred(PendingAgents(turn), [], turn.rows)
  }

  // ------------------------------------------------------------ numbering

  /** The highest assigned number, 0 when there is none. */
  ghost predicate IsHighest(numbers: map<string, nat>, n: nat) {
    && (forall u :: u in numbers ==> numbers[u] <= n)
    && (n == 0 || exists u :: u in numbers && numbers[u] == n)
  }

  ghost function Highest(numbers: map<string, nat>): nat
  {
    if numbers == map[] then 0
    else
      var u :| u in numbers;
      assert numbers == (numbers - {u})[u := numbers[u]];
      Max(numbers[u], Highest(numbers - {u}))
  }

  lemma {:induction false} HighestIsHighest(numbers: map<string, nat>)
    ensures IsHighest(numbers, Highest(numbers))
  {
    if numbers != map[] {
      var u :| u in numbers && Highest(numbers) == Max(numbers[u], Highest(numbers - {u}));
      var rest := numbers - {u};
      HighestIsHighest(rest);
      var high := Highest(rest);
      assert Highest(numbers) == Max(numbers[u], high);
      forall v | v in numbers ensures numbers[v] <= Highest(numbers) {
        if v != u {
          assert v in rest && rest[v] == numbers[v];
        }
      }
      if high > numbers[u] {
        var v :| v in rest && rest[v] == high;
        assert v in numbers && numbers[v] == Highest(numbers);
      }
    }
  }

  function Numbered(turns: seq<Turn>, next: nat, numbers: map<string, nat>): (map<string, nat>, nat)
  {
    if turns == [] then (numbers, next)
    else
      var (before, n) := Numbered(turns[..|turns| - 1], next, numbers);
      var u := turns[|turns| - 1].user.uuid;
      if u == "" || u in before then (before, n) else (before[u := n], n + 1)
  }

  ghost predicate Injective(numbers: map<string, nat>) {
    forall u, v :: u in numbers && v in numbers && numbers[u] == numbers[v] ==> u == v
  }

  /** Numbers are never changed or shared, and every turn with a user-row id has one. */
  lemma {:induction false} NumberingSafe(turns: seq<Turn>, next: nat, numbers: map<string, nat>)
    requires Injective(numbers)
    requires forall u :: u in numbers ==> numbers[u] < next
    ensures var (after, n) := Numbered(turns, next, numbers);
            && Injective(after)
            && (forall u :: u in numbers ==> u in after && after[u] == numbers[u])
            && (forall u :: u in after ==> after[u] < n && (u in numbers || after[u] >= next))
            && (forall t :: t in turns && t.user.uuid != "" ==> t.user.uuid in after)
            && next <= n
  {
    if turns != [] {
      NumberingSafe(turns[..|turns| - 1], next, numbers);
      assert turns == turns[..|turns| - 1] + [turns[|turns| - 1]];
    }
  }

  // ------------------------------------------------------------ one run

  function Rebuilt(lists: seq<seq<Row>>, tasks: map<string, string>): seq<Turn> {
    if lists == [] then []
    else Rebuilt(lists[..|lists| - 1], tasks) + AllTurns(lists[|lists| - 1], tasks)
  }

  predicate HasRows(d: Deferred) { d.rows != [] }

  /** Numbering starts past everything counted or assigned so far. */
  ghost function NextNumber(turnCount: nat, numbers: map<string, nat>): nat {
    1 + Max(turnCount, Highest(numbers))
  }

  /** Row lists that are complete turns of earlier runs. */
  function Owed(o: Outcome, flush: bool): seq<seq<Row>> {
    if flush then o.released + Map(Filter(o.waiting, HasRows), Routing.RowsOf) else o.released
  }

  /** The rows assembled as this run's own batch. */
  function BatchRows(o: Outcome, flush: bool): seq<Row> {
    if flush then o.remaining + o.stash else o.remaining
  }

  function TurnsOf(owed: seq<seq<Row>>, batch: Progress, tasks: map<string, string>, flush: bool): seq<Turn> {
    Rebuilt(owed, tasks) + (batch.closed + if flush then AsSeq(Build(batch.open)) else [])
  }

  /** The state once notifications are routed and owed turns are taken out. */
  function Gathered(s: State, o: Outcome, flush: bool): State {
    s.(deferred := if flush then [] else o.waiting, stash := if flush then [] else o.stash, openRows := [])
  }

  /** The state once this run's batch has been assembled and numbered. */
  ghost function Settle(s: State, batch: Progress, turns: seq<Turn>, flush: bool): State {
    s.(openRows := if flush then [] else Held(batch.open),
       numbers := Numbered(turns + AsSeq(Build(batch.open)), NextNumber(s.turnCount, s.numbers), s.numbers).0)
  }

  /** The turns of one run and the state it leaves. */
  ghost function Collect(s: State, file: Option<string>, parse: string -> Option<Row>, tasks: map<string, string>, flush: bool)
    : (State, seq<Turn>)
  {
    var (s1, read) := ReadNew(s, file, parse);
    var o := Resolve(s1.deferred, s1.stash, s1.openRows + read, tasks);
    var batch := Assembled(BatchRows(o, flush), tasks);
    var turns := TurnsOf(Owed(o, flush), batch, tasks, flush);
    (Settle(Gathered(s1, o, flush), batch, turns, flush), turns)
  }

  /** The turns emitted now, and those put aside until their agents report. */
  function ReadyNow(turns: seq<Turn>, flush: bool): seq<Turn> {
    if flush then turns else Filter(turns, Settled)
  }

  function PutAside(turns: seq<Turn>, flush: bool): seq<Deferred> {
    if flush then [] else Map(Filter(turns, Unsettled), Deferral)
  }

  function Emitting(s: State, turns: seq<Turn>, flush: bool): State {
    s.(deferred := s.deferred + PutAside(turns, flush), turnCount := s.turnCount + |ReadyNow(turns, flush)|)
  }

  /** A whole run: turns with agents still out are put aside, the rest is emitted. */
  ghost function Fire(s: State, file: Option<string>, parse: string -> Option<Row>, tasks: map<string, string>, flush: bool)
    : (State, seq<Turn>)
  {
    var (s1, turns) := Collect(s, file, parse, tasks, flush);
    (Emitting(s1, turns, flush), ReadyNow(turns, flush))
  }

  /** Across runs that do not meet a shrunken file, turns keep their numbers and no
      two turns share one. */
  lemma {:induction false} NumbersStable(s: State, file: Option<string>, parse: string -> Option<Row>, tasks: map<string, string>, flush: bool)
    requires Injective(s.numbers)
    requires file.Some? ==> |file.value| >= s.offset
    ensures var (s1, emitted) := Fire(s, file, parse, tasks, flush);
            && Injective(s1.numbers)
            && (forall u :: u in s.numbers ==> u in s1.numbers && s1.numbers[u] == s.numbers[u])
            && (forall u :: u in s1.numbers && u !in s.numbers ==> s1.numbers[u] > s.turnCount)
            && (forall t :: t in emitted && t.user.uuid != "" ==> t.user.uuid in s1.numbers)
  {
    var (s1, read) := ReadNew(s, file, parse);
    var o := Resolve(s1.deferred, s1.stash, s1.openRows + read, tasks);
    var batch := Assembled(BatchRows(o, flush), tasks);
    var turns := TurnsOf(Owed(o, flush), batch, tasks, flush);
    HighestIsHighest(s.numbers);
    NumberingSafe(turns + AsSeq(Build(batch.open)), NextNumber(s.turnCount, s.numbers), s.numbers);
    FilterMembers(turns, Settled);
    assert forall t :: t in turns ==> t in turns + AsSeq(Build(batch.open));
  }

  // ------------------------------------------------------------ many runs

  /** One firing sees `text` more of the file and the task ids known by then. */
  datatype Firing = Firing(text: string, tasks: map<string, string>)

  function Texts(firings: seq<Firing>): string {
    if firings == [] then ""
    else Texts(firings[..|firings| - 1]) + firings[|firings| - 1].text
  }

  /** The state and everything emitted after open firings. */
  ghost function OpenFirings(firings: seq<Firing>, parse: string -> Option<Row>): (State, seq<Turn>) {
    if firings == [] then (EMPTY, [])
    else
      var (s, emitted) := OpenFirings(firings[..|firings| - 1], parse);
      var (s1, turns) := Fire(s, Some(Texts(firings)), parse, firings[|firings| - 1].tasks, false);
      (s1, emitted + turns)
  }

  // ------------------------------------------------------------ what every run keeps

  lemma {:induction false} PendingNamed(blocks: seq<Block>, results: map<string, ToolEntry>)
    ensures "" !in PendingIn(blocks, results)
  {
    if blocks != [] {
      PendingNamed(blocks[..|blocks| - 1], results);
    }
  }

  lemma {:induction false} PendingAllNamed(messages: seq<Message>, results: map<string, ToolEntry>)
    ensures "" !in PendingOf(messages, results)
  {
    if messages != [] {
      PendingAllNamed(messages[..|messages| - 1], results);
      PendingNamed(messages[|messages| - 1].blocks, results);
    }
  }

  lemma {:induction false} AsideNamed(turns: seq<Turn>, flush: bool)
    ensures WellFormed(PutAside(turns, flush))
  {
    forall d | d in PutAside(turns, flush) ensures !Knows(d, "") {
      var i :| 0 <= i < |Filter(turns, Unsettled)| && d == Deferral(Filter(turns, Unsettled)[i]);
      PendingAllNamed(Filter(turns, Unsettled)[i].assistants, Filter(turns, Unsettled)[i].results);
    }
  }

  lemma {:induction false} StillNamed(ds: seq<Deferred>, stash: seq<Row>, batch: seq<Row>, tasks: map<string, string>)
    requires WellFormed(ds)
    ensures WellFormed(Resolve(ds, stash, batch, tasks).waiting)
  {
    var es := Route(ds, stash, batch, tasks).deferred;
    BatchRoutes(ds, stash, batch, tasks);
    FilterMembers(es, Waiting);
    forall d | d in es ensures !Knows(d, "") {
      var i :| 0 <= i < |es| && es[i] == d;
      assert ds[i] in ds;
    }
  }

  /** No deferred turn ever waits for the empty id: every run keeps it so, whatever the
      file holds by then, and a new session starts so. */
  lemma {:induction false} RunKeepsWellFormed(s: State, file: Option<string>, parse: string -> Option<Row>, tasks: map<string, string>, flush: bool)
    requires WellFormed(s.deferred)
    ensures WellFormed(Fire(s, file, parse, tasks, flush).0.deferred)
    ensures WellFormed(EMPTY.deferred)
  {
    var (s1, read) := ReadNew(s, file, parse);
    StillNamed(s1.deferred, s1.stash, s1.openRows + read, tasks);
    AsideNamed(Collect(s, file, parse, tasks, flush).1, flush);
  }
}
