/** Turn assembly: transcript rows are grouped into turns, each opened by a user
    row. The functions give the meaning of one row; `TurnAssembly` is the object
    the hook updates in place, proved to follow them. */
module Assembly {
  import opened Collections
  import opened Rows
  import Decimal

  /** The assembly state as a value. */
  datatype Partial = Partial(
    user: Option<Row>,
    ids: seq<string>,
    rowsById: map<string, seq<Row>>,
    results: map<string, ToolEntry>,
    useStamps: map<string, Stamp>,
    injected: map<string, string>,
    rows: seq<Row>)

  const START := Partial(None, [], map[], map[], map[], map[], [])

  datatype Progress = Progress(closed: seq<Turn>, open: Partial)

  // ------------------------------------------------------------ one row

  function AfterInjected(p: Partial, row: Row): Partial {
    var text := TextOf(row.content);
    if row.sourceToolUseId != "" && text != "" then
      p.(injected := p.injected[row.sourceToolUseId := text], rows := p.rows + [row])
    else p
  }

  function AfterResultBlocks(results: map<string, ToolEntry>, blocks: seq<Block>, row: Row): map<string, ToolEntry> {
    if blocks == [] then results
    else
      var earlier := AfterResultBlocks(results, blocks[..|blocks| - 1], row);
      var b := blocks[|blocks| - 1];
      if b.ToolResult? && b.toolUseId != "" then
        earlier[b.toolUseId := ToolEntry(b.output, row.stamp, row.asyncLaunch, row.workflow, None, None)]
      else earlier
  }

  function AfterToolResult(p: Partial, row: Row): Partial {
    p.(rows := p.rows + [row], results := AfterResultBlocks(p.results, BlocksOf(row.content), row))
  }

  function Finished(entry: ToolEntry, row: Row): ToolEntry
    requires row.notice.Some?
  {
    entry.(finalOutput := Some(row.notice.value.result), finalStamp := row.stamp)
  }

  /** The most recently closed turn that knows the tool call, or the length. */
  function LatestKnowing(closed: seq<Turn>, id: string): (k: nat)
    ensures k <= |closed|
    ensures k < |closed| ==> id in closed[k].results
    ensures forall j :: (if k < |closed| then k + 1 else 0) <= j < |closed| ==> id !in closed[j].results
  {
    if closed == [] then 0
    else if id in closed[|closed| - 1].results then |closed| - 1
    else
      var k := LatestKnowing(closed[..|closed| - 1], id);
      if k == |closed| - 1 then |closed| else k
  }

  function AfterNotice(s: Progress, row: Row, tasks: map<string, string>): Progress
    requires row.notice.Some?
  {
    var p := s.open;
    var target := NoticeTarget(row, tasks);
    if target.None? || target.value == "" then
      if p.user.Some? then s.(open := p.(rows := p.rows + [row])) else s
    else
      var id := target.value;
      if p.user.Some? && id in p.results then
        s.(open := p.(results := p.results[id := Finished(p.results[id], row)], rows := p.rows + [row]))
      else
        var k := LatestKnowing(s.closed, id);
        if k < |s.closed| then
          var t := s.closed[k];
          s.(closed := s.closed[k := t.(results := t.results[id := Finished(t.results[id], row)],
                                         rows := t.rows + [row])])
        else if p.user.None? then s
        else
          s.(open := p.(results := p.results[id := ToolEntry(row.notice.value.result, row.stamp, None, None, None, None)],
                        rows := p.rows + [row]))
  }

  function Merge(rows: seq<Row>): seq<Block> {
    if rows == [] then []
    else
      var row := rows[|rows| - 1];
      Merge(rows[..|rows| - 1]) +
      if !row.hasMessage then []
      else match row.content
        case Blocks(bs) => bs
        case Prose(text) => if text == "" then [] else [Text(text)]
        case Absent => []
  }

  function Messages(ids: seq<string>, rowsById: map<string, seq<Row>>): seq<Message> {
    if ids == [] then []
    else
      var id := ids[|ids| - 1];
      Messages(ids[..|ids| - 1], rowsById) +
      if id in rowsById && rowsById[id] != [] then
        [Message(rowsById[id][|rowsById[id]| - 1], Merge(rowsById[id]))]
      else []
  }

  function Build(p: Partial): Option<Turn> {
    if p.user.None? || p.rowsById == map[] then None
    else Some(Turn(p.user.value, Messages(p.ids, p.rowsById), p.results, p.useStamps, p.injected, p.rows))
  }

  function Opened(row: Row): Partial {
    Partial(Some(row), [], map[], map[], map[], map[], [row])
  }

  function AfterUser(s: Progress, row: Row): Progress {
    var turn := Build(s.open);
    Progress(if turn.Some? then s.closed + [turn.value] else s.closed, Opened(row))
  }

  function AfterUses(stamps: map<string, Stamp>, uses: seq<Block>, stamp: Stamp): map<string, Stamp> {
    if uses == [] then stamps
    else
      var earlier := AfterUses(stamps, uses[..|uses| - 1], stamp);
      var b := uses[|uses| - 1];
      if b.ToolUse? && b.id != "" && b.id !in earlier then earlier[b.id := stamp] else earlier
  }

  function MessageKey(row: Row, position: nat): string {
    if row.messageId != "" then row.messageId else "noid:" + Decimal.Render(position)
  }

  function AfterAssistant(p: Partial, row: Row): Partial {
    if p.user.None? then p
    else
      var id := MessageKey(row, |p.ids|);
      p.(ids := if id in p.rowsById then p.ids else p.ids + [id],
         rowsById := p.rowsById[id := (if id in p.rowsById then p.rowsById[id] else []) + [row]],
         useStamps := AfterUses(p.useStamps, ToolUses(row.content), row.stamp),
         rows := p.rows + [row])
  }

  function Step(s: Progress, row: Row, tasks: map<string, string>): Progress {
    if row.meta then s.(open := AfterInjected(s.open, row))
    else if IsToolResultRow(row) then s.(open := AfterToolResult(s.open, row))
    else if row.notice.Some? then AfterNotice(s, row, tasks)
    else if row.role == Some(User) then AfterUser(s, row)
    else if row.role == Some(Assistant) then s.(open := AfterAssistant(s.open, row))
    else s
  }

  // ------------------------------------------------------------ all rows

  function Fold(s: Progress, rows: seq<Row>, tasks: map<string, string>): Progress {
    if rows == [] then s
    else Step(Fold(s, rows[..|rows| - 1], tasks), rows[|rows| - 1], tasks)
  }

  function Assembled(rows: seq<Row>, tasks: map<string, string>): Progress {
    Fold(Progress([], START), rows, tasks)
  }

  /** Raw rows of the turn still open: what one hook run hands to the next. */
  function Held(p: Partial): seq<Row> {
    if p.user.Some? then p.rows else []
  }

  function AsSeq(turn: Option<Turn>): seq<Turn> {
    if turn.Some? then [turn.value] else []
  }

  /** Every turn of a complete row list, the trailing one included. */
  function AllTurns(rows: seq<Row>, tasks: map<string, string>): seq<Turn> {
    var s := Assembled(rows, tasks);
    s.closed + AsSeq(Build(s.open))
  }

  // ------------------------------------------------------------ resumability

  lemma {:induction false} FoldConcat(s: Progress, a: seq<Row>, b: seq<Row>, tasks: map<string, string>)
    ensures Fold(s, a + b, tasks) == Fold(Fold(s, a, tasks), b, tasks)
  {
    if b == [] {
      assert a + b == a;
    } else {
      assert (a + b)[..|a + b| - 1] == a + b[..|b| - 1];
      FoldConcat(s, a, b[..|b| - 1], tasks);
    }
  }

  /** The rows' notifications name the same tool calls under both task maps. */
  ghost predicate SameTargets(rows: seq<Row>, tasks: map<string, string>, later: map<string, string>) {
    forall r :: r in rows ==> NoticeTarget(r, tasks) == NoticeTarget(r, later)
  }

  lemma {:induction false} TasksInert(s: Progress, rows: seq<Row>, tasks: map<string, string>, later: map<string, string>)
    requires SameTargets(rows, tasks, later)
    ensures Fold(s, rows, tasks) == Fold(s, rows, later)
  {
    if rows != [] {
      TasksInert(s, rows[..|rows| - 1], tasks, later);
      assert rows[|rows| - 1] in rows;
    }
  }

  /** Before the first user row whatever was gathered is discarded. */
  ghost predicate Interchangeable(p: Partial, q: Partial) {
    p == q || (p.user.None? && q.user.None?)
  }

  lemma {:induction false} FoldInterchangeable(p: Partial, q: Partial, rows: seq<Row>, tasks: map<string, string>)
    requires Interchangeable(p, q)
    ensures Fold(Progress([], p), rows, tasks).closed == Fold(Progress([], q), rows, tasks).closed
    ensures Interchangeable(Fold(Progress([], p), rows, tasks).open, Fold(Progress([], q), rows, tasks).open)
  {
    if rows != [] {
      FoldInterchangeable(p, q, rows[..|rows| - 1], tasks);
    }
  }

  predicate StartsTurn(row: Row) {
    !row.meta && !IsToolResultRow(row) && row.notice.None? && row.role == Some(User)
  }

  predicate AddsMessage(row: Row) {
    !row.meta && !IsToolResultRow(row) && row.notice.None? && row.role == Some(Assistant)
  }

  ghost predicate Rebuilds(p: Partial, tasks: map<string, string>) {
    p.user.Some? ==> p.rows != [] && Assembled(p.rows, tasks) == Progress([], p)
  }

  lemma {:induction false} FoldOne(s: Progress, row: Row, tasks: map<string, string>)
    ensures Fold(s, [row], tasks) == Step(s, row, tasks)
  {
    assert [row][..0] == [];
    assert Fold(s, [], tasks) == s;
  }

  lemma {:induction false} AssembledSnoc(rows: seq<Row>, row: Row, tasks: map<string, string>)
    ensures Assembled(rows + [row], tasks) == Step(Assembled(rows, tasks), row, tasks)
  {
    assert (rows + [row])[..|rows|] == rows;
  }

  lemma {:induction false} RebuildStep(s: Progress, row: Row, tasks: map<string, string>)
    requires Rebuilds(s.open, tasks)
    ensures Rebuilds(Step(s, row, tasks).open, tasks)
  {
    var p, q := s.open, Step(s, row, tasks).open;
    if StartsTurn(row) {
      FoldOne(Progress([], START), row, tasks);
    } else if q.user.Some? && q.rows != p.rows {
      assert q.rows == p.rows + [row];
      AssembledSnoc(p.rows, row, tasks);
    }
  }

  /** The held rows rebuild the open turn's whole assembly state. */
  lemma {:induction false} HeldRebuilds(rows: seq<Row>, tasks: map<string, string>)
    ensures Rebuilds(Assembled(rows, tasks).open, tasks)
  {
    if rows != [] {
      HeldRebuilds(rows[..|rows| - 1], tasks);
      RebuildStep(Assembled(rows[..|rows| - 1], tasks), rows[|rows| - 1], tasks);
    }
  }

  /** Every row a turn holds is one of the rows assembled. */
  ghost predicate DrawnFrom(s: Progress, rows: seq<Row>) {
    && (forall r :: r in s.open.rows ==> r in rows)
    && (forall t :: t in s.closed ==> TurnFrom(t, rows))
  }

  ghost predicate TurnFrom(t: Turn, rows: seq<Row>) {
    forall r :: r in t.rows ==> r in rows
  }

  lemma {:induction false} RowsDrawn(rows: seq<Row>, tasks: map<string, string>)
    ensures DrawnFrom(Assembled(rows, tasks), rows)
  {
    if rows != [] {
      var less, row := rows[..|rows| - 1], rows[|rows| - 1];
      RowsDrawn(less, tasks);
      assert rows == less + [row];
      DrawnStep(Assembled(less, tasks), less, row, tasks);
    }
  }

  lemma {:induction false} DrawnTurns(s: Progress, rows: seq<Row>, row: Row, after: seq<Turn>)
    requires DrawnFrom(s, rows)
    requires forall t :: t in after ==> t in s.closed || t.rows == s.open.rows || exists u :: u in s.closed && t.rows == u.rows + [row]
    ensures forall t :: t in after ==> TurnFrom(t, rows + [row])
  {
    forall t | t in after ensures TurnFrom(t, rows + [row]) {
      if t !in s.closed && t.rows != s.open.rows {
        var u :| u in s.closed && t.rows == u.rows + [row];
        assert TurnFrom(u, rows);
      }
    }
  }

  lemma {:induction false} DrawnStep(s: Progress, rows: seq<Row>, row: Row, tasks: map<string, string>)
    requires DrawnFrom(s, rows)
    ensures DrawnFrom(Step(s, row, tasks), rows + [row])
  {
    var after := Step(s, row, tasks);
    forall t | t in after.closed && t !in s.closed && t.rows != s.open.rows ensures exists u :: u in s.closed && t.rows == u.rows + [row] {
      var k :| 0 <= k < |after.closed| && after.closed[k] == t;
      assert s.closed[k] in s.closed && t.rows == s.closed[k].rows + [row];
    }
    DrawnTurns(s, rows, row, after.closed);
  }

  // ------------------------------------------------------------ when assembly resumes

  /** The row is read as a notification about a named tool call. */
  predicate Reports(row: Row, tasks: map<string, string>) {
    && !row.meta && !IsToolResultRow(row)
    && NoticeTarget(row, tasks).Some? && NoticeTarget(row, tasks).value != ""
  }

  predicate OpenKnows(p: Partial, id: string) {
    p.user.Some? && id in p.results
  }

  predicate Known(closed: seq<Turn>, id: string) {
    LatestKnowing(closed, id) < |closed|
  }

  /** A notification whose tool call is known to neither the open turn nor a turn
      closed since, but to one closed before. */
  predicate Stray(before: seq<Turn>, s: Progress, row: Row, tasks: map<string, string>) {
    Reports(row, tasks) &&
    var id := NoticeTarget(row, tasks).value;
    !OpenKnows(s.open, id) && !Known(s.closed, id) && Known(before, id)
  }

  /** No row strays at its turn, starting from the state `s`. */
  predicate Clean(before: seq<Turn>, s: Progress, rows: seq<Row>, tasks: map<string, string>) {
    rows == [] ||
    (Clean(before, s, rows[..|rows| - 1], tasks) &&
     !Stray(before, Fold(s, rows[..|rows| - 1], tasks), rows[|rows| - 1], tasks))
  }

  lemma {:induction false} LatestConcat(a: seq<Turn>, b: seq<Turn>, id: string)
    ensures LatestKnowing(a + b, id) ==
            if Known(b, id) then |a| + LatestKnowing(b, id)
            else if Known(a, id) then LatestKnowing(a, id) else |a| + |b|
  {
    if b == [] {
      assert a + b == a;
    } else {
      assert (a + b)[..|a + b| - 1] == a + b[..|b| - 1];
      LatestConcat(a, b[..|b| - 1], id);
    }
  }

  lemma {:induction false} CleanNotice(before: seq<Turn>, s: Progress, row: Row, tasks: map<string, string>)
    requires row.notice.Some? && !row.meta && !IsToolResultRow(row) && !Stray(before, s, row, tasks)
    ensures AfterNotice(Progress(before + s.closed, s.open), row, tasks) ==
            Progress(before + AfterNotice(s, row, tasks).closed, AfterNotice(s, row, tasks).open)
  {
    if Reports(row, tasks) {
      LatestConcat(before, s.closed, NoticeTarget(row, tasks).value);
      var k := LatestKnowing(s.closed, NoticeTarget(row, tasks).value);
      if !OpenKnows(s.open, NoticeTarget(row, tasks).value) && k < |s.closed| {
        UpdateBehind(before, s.closed, k, AfterNotice(s, row, tasks).closed[k]);
      }
    }
  }

  lemma {:induction false} UpdateBehind(before: seq<Turn>, closed: seq<Turn>, k: nat, t: Turn)
    requires k < |closed|
    ensures (before + closed)[|before| + k] == closed[k]
    ensures (before + closed)[|before| + k := t] == before + closed[k := t]
  {
  }

  /** Turns closed before play no part in a row that does not stray. */
  lemma {:induction false} CleanStep(before: seq<Turn>, s: Progress, row: Row, tasks: map<string, string>)
    requires !Stray(before, s, row, tasks)
    ensures Step(Progress(before + s.closed, s.open), row, tasks) ==
            Progress(before + Step(s, row, tasks).closed, Step(s, row, tasks).open)
  {
    if row.notice.Some? && !row.meta && !IsToolResultRow(row) {
      CleanNotice(before, s, row, tasks);
    }
  }

  /** Some turn closed before has grown. */
  ghost predicate Grown(before: seq<Turn>, closed: seq<Turn>) {
    |before| <= |closed| && exists k :: 0 <= k < |before| && |closed[k].rows| > |before[k].rows|
  }

  lemma {:induction false} StrayStep(before: seq<Turn>, s: Progress, row: Row, tasks: map<string, string>)
    requires Stray(before, s, row, tasks)
    ensures Grown(before, Step(Progress(before + s.closed, s.open), row, tasks).closed)
  {
    var id := NoticeTarget(row, tasks).value;
    LatestConcat(before, s.closed, id);
    var k := LatestKnowing(before, id);
    assert (before + s.closed)[k] == before[k];
    var w := Step(Progress(before + s.closed, s.open), row, tasks);
    assert w.closed[k].rows == before[k].rows + [row];
  }

  lemma {:induction false} StillGrown(before: seq<Turn>, s: Progress, row: Row, tasks: map<string, string>)
    requires Grown(before, s.closed)
    ensures Grown(before, Step(s, row, tasks).closed)
  {
    var k :| 0 <= k < |before| && |s.closed[k].rows| > |before[k].rows|;
    assert |Step(s, row, tasks).closed[k].rows| >= |s.closed[k].rows|;
  }

  lemma {:induction false} CleanOrGrown(before: seq<Turn>, p: Partial, rows: seq<Row>, tasks: map<string, string>)
    ensures var whole, since := Fold(Progress(before, p), rows, tasks), Fold(Progress([], p), rows, tasks);
            if Clean(before, Progress([], p), rows, tasks) then whole == Progress(before + since.closed, since.open)
            else Grown(before, whole.closed)
  {
    if rows == [] {
      assert before + [] == before;
    } else {
      var less, row := rows[..|rows| - 1], rows[|rows| - 1];
      CleanOrGrown(before, p, less, tasks);
      var since := Fold(Progress([], p), less, tasks);
      if !Clean(before, Progress([], p), less, tasks) {
        StillGrown(before, Fold(Progress(before, p), less, tasks), row, tasks);
      } else if Stray(before, since, row, tasks) {
        StrayStep(before, since, row, tasks);
      } else {
        CleanStep(before, since, row, tasks);
      }
    }
  }

  /** Assembling a second batch behind the held rows gives what one pass over both
      batches gives, with all the task ids known by then, if and only if no notification
      of the second batch strays: none reports, at its turn, a tool call that only turns
      closed in the first batch know. The task ids known at the first batch need only
      name the tool calls its own rows report. */
  lemma {:induction false} Resume(a: seq<Row>, b: seq<Row>, tasks: map<string, string>, later: map<string, string>)
    requires SameTargets(a, tasks, later)
    ensures var whole, first := Assembled(a + b, later), Assembled(a, tasks);
            var second := Assembled(Held(first.open) + b, later);
            (&& whole.closed == first.closed + second.closed
             && Build(whole.open) == Build(second.open)
             && Held(whole.open) == Held(second.open))
            <==> Clean(first.closed, Progress([], first.open), b, later)
  {
    TasksInert(Progress([], START), a, tasks, later);
    var first := Assembled(a, later);
    var held := Held(first.open);
    HeldRebuilds(a, later);
    FoldConcat(Progress([], START), a, b, later);
    FoldConcat(Progress([], START), held, b, later);
    var again := Assembled(held, later);
    assert again.closed == [] && Interchangeable(first.open, again.open);
    FoldInterchangeable(first.open, again.open, b, later);
    CleanOrGrown(first.closed, first.open, b, later);
    var whole, second := Assembled(a + b, later), Assembled(held + b, later);
    if Grown(first.closed, whole.closed) {
      var k :| 0 <= k < |first.closed| && |whole.closed[k].rows| > |first.closed[k].rows|;
      assert (first.closed + second.closed)[k] == first.closed[k];
    }
  }

  /** Batches without notifications always resume. */
  lemma {:induction false} QuietIsClean(before: seq<Turn>, s: Progress, rows: seq<Row>, tasks: map<string, string>)
    requires NoNotices(rows)
    ensures Clean(before, s, rows, tasks)
  {
    if rows != [] {
      QuietIsClean(before, s, rows[..|rows| - 1], tasks);
      assert rows[|rows| - 1].notice.None?;
    }
  }

  /** An input that does not: a notification that arrives in a later batch than the
      user row that closed its turn finds the turn in a single pass, but lands in the
      turn still open when the batches are assembled one after the other. */
  lemma {:induction false} NoticeAfterItsTurn(a: seq<Row>, notice: Row, tasks: map<string, string>)
    requires Reports(notice, tasks)
    requires var id := NoticeTarget(notice, tasks).value; var s := Assembled(a, tasks);
             Known(s.closed, id) && s.open.user.Some? && id !in s.open.results
    ensures var whole, first := Assembled(a + [notice], tasks), Assembled(a, tasks);
            var second := Assembled(Held(first.open) + [notice], tasks);
            && !Clean(first.closed, Progress([], first.open), [notice], tasks)
            && NoticeTarget(notice, tasks).value !in whole.open.results
            && NoticeTarget(notice, tasks).value in second.open.results
  {
    var first := Assembled(a, tasks);
    HeldRebuilds(a, tasks);
    assert [notice][..0] == [];
    AssembledSnoc(a, notice, tasks);
    AssembledSnoc(Held(first.open), notice, tasks);
  }

  // ------------------------------------------------------------ closed turns stand alone

  /** The turn's own rows assemble to that turn and nothing else. */
  ghost predicate Whole(t: Turn, tasks: map<string, string>) {
    var s := Assembled(t.rows, tasks);
    t.rows != [] && s.closed == [] && Build(s.open) == Some(t)
  }

  lemma {:induction false} WholeNoticed(t: Turn, row: Row, tasks: map<string, string>)
    requires Whole(t, tasks) && Reports(row, tasks) && NoticeTarget(row, tasks).value in t.results
    ensures var id := NoticeTarget(row, tasks).value;
            Whole(t.(results := t.results[id := Finished(t.results[id], row)], rows := t.rows + [row]), tasks)
  {
    AssembledSnoc(t.rows, row, tasks);
  }

  lemma {:induction false} WholeStep(s: Progress, row: Row, tasks: map<string, string>)
    requires Rebuilds(s.open, tasks) && forall t :: t in s.closed ==> Whole(t, tasks)
    ensures forall t :: t in Step(s, row, tasks).closed ==> Whole(t, tasks)
  {
    var after := Step(s, row, tasks);
    forall t | t in after.closed ensures Whole(t, tasks) {
      if t !in s.closed && !StartsTurn(row) {
        var k := LatestKnowing(s.closed, NoticeTarget(row, tasks).value);
        WholeNoticed(s.closed[k], row, tasks);
      }
    }
  }

  /** A closed turn can be rebuilt from its own rows, also after notifications that
      came in once it was closed. */
  lemma {:induction false} ClosedRebuild(rows: seq<Row>, tasks: map<string, string>)
    ensures forall t :: t in Assembled(rows, tasks).closed ==> Whole(t, tasks)
  {
    if rows != [] {
      var n := |rows| - 1;
      ClosedRebuild(rows[..n], tasks);
      HeldRebuilds(rows[..n], tasks);
      WholeStep(Assembled(rows[..n], tasks), rows[n], tasks);
    }
  }

  // ------------------------------------------------------------ the object

  class TurnAssembly {
    var user: Option<Row>
    var ids: seq<string>
    var rowsById: map<string, seq<Row>>
    var results: map<string, ToolEntry>
    var useStamps: map<string, Stamp>
    var injected: map<string, string>
    var rows: seq<Row>

    function State(): Partial
      reads this
    {
      Partial(user, ids, rowsById, results, useStamps, injected, rows)
    }

    constructor ()
      ensures State() == START
    {
      user, ids, rowsById, results := None, [], map[], map[];
      useStamps, injected, rows := map[], map[], [];
    }

    method AddInjectedContextRow(row: Row) returns (handled: bool)
      modifies this
      ensures handled == row.meta
      ensures State() == if handled then AfterInjected(old(State()), row) else old(State())
    {
      if !row.meta {
        return false;
      }
      if row.sourceToolUseId != "" {
        var text := TextOf(row.content);
        if text != "" {
          injected := injected[row.sourceToolUseId := text];
          rows := rows + [row];
        }
      }
      return true;
    }

    method AddToolResultRow(row: Row) returns (handled: bool)
      modifies this
      ensures handled == IsToolResultRow(row)
      ensures State() == if handled then AfterToolResult(old(State()), row) else old(State())
    {
      if !IsToolResultRow(row) {
        return false;
      }
      rows := rows + [row];
      var blocks := BlocksOf(row.content);
      for i := 0 to |blocks|
        invariant State() == old(State()).(rows := old(rows) + [row],
                                           results := AfterResultBlocks(old(results), blocks[..i], row))
      {
        assert blocks[..i + 1][..i] == blocks[..i];
        var b := blocks[i];
        if b.ToolResult? && b.toolUseId != "" {
          results := results[b.toolUseId := ToolEntry(b.output, row.stamp, row.asyncLaunch, row.workflow, None, None)];
        }
      }
      assert blocks[..|blocks|] == blocks;
      return true;
    }

    /** Searches closed turns from the newest backwards. */
    static method SearchKnowing(closed: seq<Turn>, id: string) returns (k: nat)
      ensures k == LatestKnowing(closed, id)
    {
      k := |closed|;
      while k > 0
        invariant 0 <= k <= |closed|
        invariant LatestKnowing(closed, id) == var j := LatestKnowing(closed[..k], id); if j == k then |closed| else j
      {
        k := k - 1;
        assert closed[..k + 1][..k] == closed[..k];
        if id in closed[k].results {
          return k;
        }
      }
      return |closed|;
    }

    method AddTaskNotificationRow(row: Row, tasks: map<string, string>, closed: seq<Turn>)
      returns (handled: bool, closed': seq<Turn>)
      modifies this
      ensures handled == row.notice.Some?
      ensures Progress(closed', State()) ==
              if handled then AfterNotice(Progress(closed, old(State())), row, tasks)
              else Progress(closed, old(State()))
    {
      closed' := closed;
      if row.notice.None? {
        return false, closed;
      }
      var target := NoticeTarget(row, tasks);
      if target.None? || target.value == "" {
        if user.Some? {
          rows := rows + [row];
        }
        return true, closed;
      }
      var id := target.value;
      if user.Some? && id in results {
        results := results[id := Finished(results[id], row)];
        rows := rows + [row];
        return true, closed;
      }
      var k := SearchKnowing(closed, id);
      if k < |closed| {
        var t := closed[k];
        closed' := closed[k := t.(results := t.results[id := Finished(t.results[id], row)], rows := t.rows + [row])];
        return true, closed';
      }
      if user.None? {
        return true, closed;
      }
      results := results[id := ToolEntry(row.notice.value.result, row.stamp, None, None, None, None)];
      rows := rows + [row];
      return true, closed;
    }

    method BuildTurn() returns (turn: Option<Turn>)
      ensures turn == Build(State())
    {
      if user.None? || rowsById == map[] {
        return None;
      }
      var messages: seq<Message> := [];
      for i := 0 to |ids|
        invariant messages == Messages(ids[..i], rowsById)
      {
        assert ids[..i + 1][..i] == ids[..i];
        if ids[i] in rowsById && rowsById[ids[i]] != [] {
          var raw := rowsById[ids[i]];
          messages := messages + [Message(raw[|raw| - 1], Merge(raw))];
        }
      }
      assert ids[..|ids|] == ids;
      return Some(Turn(user.value, messages, results, useStamps, injected, rows));
    }

    method StartNewTurn(row: Row)
      modifies this
      ensures State() == Opened(row)
    {
      user, ids, rowsById, results := Some(row), [], map[], map[];
      useStamps, injected, rows := map[], map[], [row];
    }

    method AddAssistantRow(row: Row)
      modifies this
      ensures State() == AfterAssistant(old(State()), row)
    {
      if user.None? {
        return;
      }
      var id := MessageKey(row, |ids|);
      if id !in rowsById {
        ids := ids + [id];
        rowsById := rowsById[id := []];
      }
      rowsById := rowsById[id := rowsById[id] + [row]];
      DateUses(ToolUses(row.content), row.stamp);
      rows := rows + [row];
    }

    /** Each tool call is dated by the first row that shows it. */
    method DateUses(uses: seq<Block>, stamp: Stamp)
      modifies this`useStamps
      ensures useStamps == AfterUses(old(useStamps), uses, stamp)
    {
      for i := 0 to |uses|
        invariant useStamps == AfterUses(old(useStamps), uses[..i], stamp)
      {
        assert uses[..i + 1][..i] == uses[..i];
        if uses[i].ToolUse? && uses[i].id != "" && uses[i].id !in useStamps {
          useStamps := useStamps[uses[i].id := stamp];
        }
      }
      assert uses[..|uses|] == uses;
    }
  }

  /** Groups rows into closed turns, the turn left open, and that turn's rows. */
  method AssembleTurns(rows: seq<Row>, tasks: map<string, string>)
    returns (closed: seq<Turn>, trailing: Option<Turn>, held: seq<Row>)
    ensures closed == Assembled(rows, tasks).closed
    ensures trailing == Build(Assembled(rows, tasks).open)
    ensures held == Held(Assembled(rows, tasks).open)
  {
    closed := [];
    var state := new TurnAssembly();
    for i := 0 to |rows|
      invariant fresh(state)
      invariant Progress(closed, state.State()) == Assembled(rows[..i], tasks)
    {
      assert rows[..i + 1][..i] == rows[..i];
      var row := rows[i];
      var handled := state.AddInjectedContextRow(row);
      if handled {
        continue;
      }
      handled := state.AddToolResultRow(row);
      if handled {
        continue;
      }
      handled, closed := state.AddTaskNotificationRow(row, tasks, closed);
      if handled {
        continue;
      }
      if row.role == Some(User) {
        var turn := state.BuildTurn();
        if turn.Some? {
          closed := closed + [turn.value];
        }
        state.StartNewTurn(row);
      } else if row.role == Some(Assistant) {
        state.AddAssistantRow(row);
      }
    }
    assert rows[..|rows|] == rows;
    trailing := state.BuildTurn();
    held := if state.user.Some? then state.rows else [];
  }
}
