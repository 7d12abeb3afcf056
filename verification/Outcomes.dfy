/** What a turn knows about a tool call, read off the turn's own rows: the launch
    comes from the last tool result, the outcome from the last notification. Stated
    over the rows alone, without the functions that assemble them. */
module Outcomes {
  import opened Collections
  import opened Rows
  import opened Assembly

  // ------------------------------------------------------------ rows that mention a tool call

  /** The row is a notification about the tool call, by its id or by its task's. */
  predicate Names(row: Row, id: string, tasks: map<string, string>) {
    && !row.meta && !IsToolResultRow(row) && row.notice.Some? && id != ""
    && var n := row.notice.value;
       n.toolUseId == id || (n.toolUseId == "" && n.taskId != "" && n.taskId in tasks && tasks[n.taskId] == id)
  }

  predicate IsResultOf(b: Block, id: string) {
    b.ToolResult? && b.toolUseId == id
  }

  /** The row carries a result block of the tool call. */
  predicate Carries(row: Row, id: string) {
    && !row.meta && row.role == Some(User) && id != ""
    && exists b :: b in BlocksOf(row.content) && IsResultOf(b, id)
  }

  predicate Mentions(row: Row, id: string, tasks: map<string, string>) {
    Carries(row, id) || Names(row, id, tasks)
  }

  // ------------------------------------------------------------ one notification

  /** Only this tool call's outcome moves: it is now the notification's, and what
      was known of the launch stays. */
  ghost predicate Reported(before: map<string, ToolEntry>, after: map<string, ToolEntry>, id: string, row: Row)
    requires row.notice.Some?
  {
    && id in before && after.Keys == before.Keys
    && (forall j :: j in before && j != id ==> after[j] == before[j])
    && after[id].finalOutput == Some(row.notice.value.result)
    && after[id].finalStamp == row.stamp
    && SameLaunch(before[id], after[id])
  }

  predicate SameLaunch(before: ToolEntry, after: ToolEntry) {
    && after.output == before.output && after.stamp == before.stamp
    && after.asyncLaunch == before.asyncLaunch && after.workflow == before.workflow
  }

  /** A tool call the open turn knows: the outcome lands there and nowhere else. */
  lemma {:induction false} ReportReachesOpen(s: Progress, row: Row, id: string, tasks: map<string, string>)
    requires Names(row, id, tasks) && s.open.user.Some? && id in s.open.results
    ensures var after := Step(s, row, tasks);
            && after.closed == s.closed
            && Reported(s.open.results, after.open.results, id, row)
            && after.open == s.open.(results := after.open.results, rows := s.open.rows + [row])
  {
  }

  /** Else the newest closed turn that knows it gets the outcome, and no other turn
      changes. */
  lemma {:induction false} ReportReachesClosed(s: Progress, row: Row, id: string, tasks: map<string, string>, k: nat)
    requires Names(row, id, tasks) && !(s.open.user.Some? && id in s.open.results)
    requires k < |s.closed| && id in s.closed[k].results
    requires forall j :: k < j < |s.closed| ==> id !in s.closed[j].results
    ensures var after := Step(s, row, tasks);
            && after.open == s.open && |after.closed| == |s.closed|
            && (forall j :: 0 <= j < |s.closed| && j != k ==> after.closed[j] == s.closed[j])
            && Reported(s.closed[k].results, after.closed[k].results, id, row)
            && after.closed[k] == s.closed[k].(results := after.closed[k].results, rows := s.closed[k].rows + [row])
  {
    assert LatestKnowing(s.closed, id) == k;
  }

  /** Known to no turn, the notification opens an entry in the open turn; with no
      turn open it is dropped. */
  lemma {:induction false} ReportOpensEntry(s: Progress, row: Row, id: string, tasks: map<string, string>)
    requires Names(row, id, tasks) && !(s.open.user.Some? && id in s.open.results)
    requires forall j :: 0 <= j < |s.closed| ==> id !in s.closed[j].results
    ensures var after := Step(s, row, tasks);
            && after.closed == s.closed
            && (s.open.user.None? ==> after.open == s.open)
            && (s.open.user.Some? ==>
                  after.open == s.open.(
                    results := s.open.results[id := ToolEntry(row.notice.value.result, row.stamp, None, None, None, None)],
                    rows := s.open.rows + [row]))
  {
    assert LatestKnowing(s.closed, id) == |s.closed|;
  }

  // ------------------------------------------------------------ one row of tool results

  predicate LastResultOf(blocks: seq<Block>, id: string, i: nat) {
    && i < |blocks| && IsResultOf(blocks[i], id)
    && forall j :: i < j < |blocks| ==> !IsResultOf(blocks[j], id)
  }

  lemma {:induction false} BlocksSet(results: map<string, ToolEntry>, blocks: seq<Block>, row: Row, id: string, i: nat)
    requires id != "" && LastResultOf(blocks, id, i)
    ensures var after := AfterResultBlocks(results, blocks, row);
            id in after && after[id] == ToolEntry(blocks[i].output, row.stamp, row.asyncLaunch, row.workflow, None, None)
  {
    if i < |blocks| - 1 {
      assert blocks[..|blocks| - 1][i] == blocks[i];
      assert !IsResultOf(blocks[|blocks| - 1], id);
      BlocksSet(results, blocks[..|blocks| - 1], row, id, i);
    }
  }

  lemma {:induction false} BlocksSkip(results: map<string, ToolEntry>, blocks: seq<Block>, row: Row, id: string)
    requires id == "" || forall b :: b in blocks ==> !IsResultOf(b, id)
    ensures var after := AfterResultBlocks(results, blocks, row);
            (id in after <==> id in results) && (id in results ==> after[id] == results[id])
  {
    if blocks != [] {
      assert blocks[|blocks| - 1] in blocks;
      BlocksSkip(results, blocks[..|blocks| - 1], row, id);
    }
  }

  lemma {:induction false} SomeLastResult(blocks: seq<Block>, id: string) returns (i: nat)
    requires exists b :: b in blocks && IsResultOf(b, id)
    ensures LastResultOf(blocks, id, i)
  {
    var n := |blocks| - 1;
    if IsResultOf(blocks[n], id) {
      return n;
    }
    i := SomeLastResult(blocks[..n], id);
    forall j | i < j < |blocks| ensures !IsResultOf(blocks[j], id) {
      assert j < n ==> blocks[..n][j] == blocks[j];
    }
  }

  // ------------------------------------------------------------ a turn's rows

  /** One of the first `n` rows mentions the tool call. */
  predicate MentionedBy(rows: seq<Row>, id: string, tasks: map<string, string>, n: int) {
    exists j :: 0 <= j < n && j < |rows| && Mentions(rows[j], id, tasks)
  }

  /** A row from `n` on carries a result of it. */
  predicate CarriedFrom(rows: seq<Row>, id: string, n: int) {
    exists j :: 0 <= j < |rows| && n <= j && Carries(rows[j], id)
  }

  predicate LastMention(rows: seq<Row>, id: string, tasks: map<string, string>, k: int) {
    && 0 <= k < |rows| && Mentions(rows[k], id, tasks)
    && forall j :: k < j < |rows| ==> !Mentions(rows[j], id, tasks)
  }

  /** The row the launch is known from: the last one with a result of the tool call,
      or the notification that first mentioned it if there is none. */
  predicate Launcher(rows: seq<Row>, id: string, tasks: map<string, string>, k: int) {
    && 0 <= k < |rows|
    && (if Carries(rows[k], id) then !CarriedFrom(rows, id, k + 1)
        else Names(rows[k], id, tasks) && !CarriedFrom(rows, id, 0) && !MentionedBy(rows, id, tasks, k))
  }

  /** The outcome known when row `k` was the last to mention the tool call: what a
      notification says of a tool call mentioned before, and none otherwise. */
  ghost predicate OutcomeFrom(entry: ToolEntry, row: Row, id: string, before: bool)
    requires !Carries(row, id) && before ==> row.notice.Some?
  {
    if !Carries(row, id) && before then
      entry.finalOutput == Some(row.notice.value.result) && entry.finalStamp == row.stamp
    else entry.finalOutput.None? && entry.finalStamp.None?
  }

  ghost predicate LaunchFrom(entry: ToolEntry, row: Row, id: string)
    requires Carries(row, id) || row.notice.Some?
  {
    entry.stamp == row.stamp &&
    if Carries(row, id) then
      && entry.asyncLaunch == row.asyncLaunch && entry.workflow == row.workflow
      && exists i: nat :: LastResultOf(BlocksOf(row.content), id, i) && entry.output == BlocksOf(row.content)[i].output
    else entry.output == row.notice.value.result && entry.asyncLaunch.None? && entry.workflow.None?
  }

  ghost predicate OutcomeTold(entry: ToolEntry, rows: seq<Row>, id: string, tasks: map<string, string>) {
    forall k :: LastMention(rows, id, tasks, k) ==> OutcomeFrom(entry, rows[k], id, MentionedBy(rows, id, tasks, k))
  }

  ghost predicate LaunchTold(entry: ToolEntry, rows: seq<Row>, id: string, tasks: map<string, string>) {
    forall k :: Launcher(rows, id, tasks, k) ==> LaunchFrom(entry, rows[k], id)
  }

  /** The entry of one tool call is what the rows say. */
  ghost predicate Tells(results: map<string, ToolEntry>, rows: seq<Row>, id: string, tasks: map<string, string>) {
    && (id in results <==> MentionedBy(rows, id, tasks, |rows|))
    && (id in results ==> OutcomeTold(results[id], rows, id, tasks) && LaunchTold(results[id], rows, id, tasks))
  }

  // ------------------------------------------------------------ one more row

  lemma {:induction false} MoreMentions(rows: seq<Row>, row: Row, id: string, tasks: map<string, string>)
    ensures forall n :: n <= |rows| ==> MentionedBy(rows + [row], id, tasks, n) == MentionedBy(rows, id, tasks, n)
    ensures MentionedBy(rows + [row], id, tasks, |rows| + 1) == (MentionedBy(rows, id, tasks, |rows|) || Mentions(row, id, tasks))
  {
    var all := rows + [row];
    forall n | n <= |rows| ensures MentionedBy(all, id, tasks, n) == MentionedBy(rows, id, tasks, n) {
      if MentionedBy(rows, id, tasks, n) {
        var j :| 0 <= j < n && j < |rows| && Mentions(rows[j], id, tasks);
        assert Mentions(all[j], id, tasks);
      }
    }
    if MentionedBy(rows, id, tasks, |rows|) {
      var j :| 0 <= j < |rows| && Mentions(rows[j], id, tasks);
      assert Mentions(all[j], id, tasks);
    }
    assert all[|rows|] == row;
  }

  lemma {:induction false} MoreCarried(rows: seq<Row>, row: Row, id: string)
    ensures forall n :: n <= |rows| ==> CarriedFrom(rows + [row], id, n) == (CarriedFrom(rows, id, n) || Carries(row, id))
    ensures !CarriedFrom(rows + [row], id, |rows| + 1)
  {
    var all := rows + [row];
    assert all[|rows|] == row;
    forall n | n <= |rows| ensures CarriedFrom(all, id, n) == (CarriedFrom(rows, id, n) || Carries(row, id)) {
      if CarriedFrom(rows, id, n) {
        var j :| 0 <= j < |rows| && n <= j && Carries(rows[j], id);
        assert Carries(all[j], id);
      }
    }
  }

  /** The last mention among one more row. */
  lemma {:induction false} LastOfMore(rows: seq<Row>, row: Row, id: string, tasks: map<string, string>, k: int)
    requires LastMention(rows + [row], id, tasks, k)
    ensures if Mentions(row, id, tasks) then k == |rows| else LastMention(rows, id, tasks, k)
  {
    var all := rows + [row];
    assert all[|rows|] == row;
    if !Mentions(row, id, tasks) {
      forall j | k < j < |rows| ensures !Mentions(rows[j], id, tasks) {
        assert all[j] == rows[j];
      }
    }
  }

  lemma {:induction false} LauncherOfMore(rows: seq<Row>, row: Row, id: string, tasks: map<string, string>, k: int)
    requires Launcher(rows + [row], id, tasks, k)
    ensures if Carries(row, id) || (Names(row, id, tasks) && !MentionedBy(rows, id, tasks, |rows|)) then k == |rows|
            else Launcher(rows, id, tasks, k)
  {
    MoreMentions(rows, row, id, tasks);
    MoreCarried(rows, row, id);
    var all := rows + [row];
    assert all[|rows|] == row;
    assert k < |rows| ==> all[k] == rows[k];
    if k < |rows| && !MentionedBy(rows, id, tasks, |rows|) {
      assert Mentions(rows[k], id, tasks);
      assert false;
    }
    if k == |rows| && MentionedBy(rows, id, tasks, |rows|) {
      MoreMentions(rows, row, id, tasks);
    }
  }

  /** A row that does not mention the tool call tells nothing new of it. */
  lemma {:induction false} TellsStill(results: map<string, ToolEntry>, after: map<string, ToolEntry>, rows: seq<Row>, row: Row, id: string, tasks: map<string, string>)
    requires Tells(results, rows, id, tasks) && !Mentions(row, id, tasks)
    requires (id in after <==> id in results) && (id in results ==> after[id] == results[id])
    ensures Tells(after, rows + [row], id, tasks)
  {
    MoreMentions(rows, row, id, tasks);
    if id in results {
      forall k | LastMention(rows + [row], id, tasks, k)
        ensures OutcomeFrom(after[id], (rows + [row])[k], id, MentionedBy(rows + [row], id, tasks, k))
      {
        LastOfMore(rows, row, id, tasks, k);
      }
      forall k | Launcher(rows + [row], id, tasks, k) ensures LaunchFrom(after[id], (rows + [row])[k], id) {
        LauncherOfMore(rows, row, id, tasks, k);
      }
    }
  }

  /** A row that sets the entry anew: a result, or the first mention. */
  lemma {:induction false} TellsAnew(after: map<string, ToolEntry>, rows: seq<Row>, row: Row, id: string, tasks: map<string, string>)
    requires Mentions(row, id, tasks) && id in after
    requires Carries(row, id) || !MentionedBy(rows, id, tasks, |rows|)
    requires OutcomeFrom(after[id], row, id, false) && LaunchFrom(after[id], row, id)
    ensures Tells(after, rows + [row], id, tasks)
  {
    MoreMentions(rows, row, id, tasks);
    forall k | LastMention(rows + [row], id, tasks, k)
      ensures OutcomeFrom(after[id], (rows + [row])[k], id, MentionedBy(rows + [row], id, tasks, k))
    {
      LastOfMore(rows, row, id, tasks, k);
    }
    forall k | Launcher(rows + [row], id, tasks, k) ensures LaunchFrom(after[id], (rows + [row])[k], id) {
      LauncherOfMore(rows, row, id, tasks, k);
    }
  }

  /** A notification about a tool call already known. */
  lemma {:induction false} TellsReport(results: map<string, ToolEntry>, after: map<string, ToolEntry>, rows: seq<Row>, row: Row, id: string, tasks: map<string, string>)
    requires Tells(results, rows, id, tasks) && Names(row, id, tasks) && !Carries(row, id)
    requires Reported(results, after, id, row)
    ensures Tells(after, rows + [row], id, tasks)
  {
    MoreMentions(rows, row, id, tasks);
    forall k | LastMention(rows + [row], id, tasks, k)
      ensures OutcomeFrom(after[id], (rows + [row])[k], id, MentionedBy(rows + [row], id, tasks, k))
    {
      LastOfMore(rows, row, id, tasks, k);
    }
    forall k | Launcher(rows + [row], id, tasks, k) ensures LaunchFrom(after[id], (rows + [row])[k], id) {
      LauncherOfMore(rows, row, id, tasks, k);
    }
  }

  // ------------------------------------------------------------ every turn

  ghost predicate AllTell(s: Progress, id: string, tasks: map<string, string>) {
    && Tells(s.open.results, s.open.rows, id, tasks)
    && forall t :: t in s.closed ==> Tells(t.results, t.rows, id, tasks)
  }

  lemma {:induction false} ResultRowTells(p: Partial, row: Row, id: string, tasks: map<string, string>)
    requires Tells(p.results, p.rows, id, tasks) && !row.meta && IsToolResultRow(row)
    ensures Tells(AfterToolResult(p, row).results, p.rows + [row], id, tasks)
  {
    var blocks, after := BlocksOf(row.content), AfterToolResult(p, row).results;
    if Carries(row, id) {
      var i := SomeLastResult(blocks, id);
      BlocksSet(p.results, blocks, row, id, i);
      TellsAnew(after, p.rows, row, id, tasks);
    } else {
      BlocksSkip(p.results, blocks, row, id);
      TellsStill(p.results, after, p.rows, row, id, tasks);
    }
  }

  /** A notification about another tool call, or about none. */
  lemma {:induction false} OtherNoticeTells(s: Progress, row: Row, id: string, tasks: map<string, string>)
    requires AllTell(s, id, tasks) && !row.meta && !IsToolResultRow(row) && row.notice.Some?
    requires !Names(row, id, tasks)
    ensures AllTell(AfterNotice(s, row, tasks), id, tasks)
  {
    var after := AfterNotice(s, row, tasks);
    assert !Carries(row, id);
    if after.open.rows != s.open.rows {
      TellsStill(s.open.results, after.open.results, s.open.rows, row, id, tasks);
    }
    forall t | t in after.closed ensures Tells(t.results, t.rows, id, tasks) {
      if t !in s.closed {
        var k := LatestKnowing(s.closed, NoticeTarget(row, tasks).value);
        assert s.closed[k] in s.closed;
        TellsStill(s.closed[k].results, t.results, s.closed[k].rows, row, id, tasks);
      }
    }
  }

  lemma {:induction false} NoticeTells(s: Progress, row: Row, id: string, tasks: map<string, string>)
    requires AllTell(s, id, tasks) && Names(row, id, tasks)
    ensures AllTell(Step(s, row, tasks), id, tasks)
  {
    var after, k := Step(s, row, tasks), LatestKnowing(s.closed, id);
    assert !Carries(row, id);
    if s.open.user.Some? && id in s.open.results {
      ReportReachesOpen(s, row, id, tasks);
      TellsReport(s.open.results, after.open.results, s.open.rows, row, id, tasks);
    } else if k < |s.closed| {
      ReportReachesClosed(s, row, id, tasks, k);
      assert s.closed[k] in s.closed;
      TellsReport(s.closed[k].results, after.closed[k].results, s.closed[k].rows, row, id, tasks);
    } else {
      ReportOpensEntry(s, row, id, tasks);
      if s.open.user.Some? {
        TellsAnew(after.open.results, s.open.rows, row, id, tasks);
      }
    }
  }

  lemma {:induction false} StepTells(s: Progress, row: Row, id: string, tasks: map<string, string>)
    requires AllTell(s, id, tasks)
    ensures AllTell(Step(s, row, tasks), id, tasks)
  {
    var after := Step(s, row, tasks);
    if !row.meta && IsToolResultRow(row) {
      ResultRowTells(s.open, row, id, tasks);
    } else if !row.meta && row.notice.Some? {
      if Names(row, id, tasks) {
        NoticeTells(s, row, id, tasks);
      } else {
        OtherNoticeTells(s, row, id, tasks);
      }
    } else {
      assert !Mentions(row, id, tasks);
      if after.open.rows == s.open.rows + [row] {
        TellsStill(s.open.results, after.open.results, s.open.rows, row, id, tasks);
      } else if StartsTurn(row) {
        assert [] + [row] == [row];
        TellsStill(map[], map[], [], row, id, tasks);
      }
    }
  }

  /** In every turn assembled, closed or open, a tool call has an entry exactly when a
      row of the turn mentions it; the entry's launch is the last result's, its outcome
      the one the last notification since gave, and none if none came. */
  lemma {:induction false} EntriesTold(rows: seq<Row>, tasks: map<string, string>, id: string)
    ensures Tells(Assembled(rows, tasks).open.results, Assembled(rows, tasks).open.rows, id, tasks)
    ensures forall t :: t in Assembled(rows, tasks).closed ==> Tells(t.results, t.rows, id, tasks)
  {
    if rows != [] {
      var less, row := rows[..|rows| - 1], rows[|rows| - 1];
      assert rows == less + [row];
      EntriesTold(less, tasks, id);
      AssembledSnoc(less, row, tasks);
      StepTells(Assembled(less, tasks), row, id, tasks);
    }
  }
}
