/** What else a turn is made of, read off its own rows: the user row that opened it,
    when each tool call was made, the texts injected under it, its messages, and when a
    turn is one at all. Stated without the functions that assemble it. */
module TurnContents {
  import opened Collections
  import opened Rows
  import opened Assembly

  /** The row makes the tool call. */
  predicate Calls(row: Row, id: string) {
    AddsMessage(row) && id != "" && exists b :: b in BlocksOf(row.content) && b.ToolUse? && b.id == id
  }

  /** The row injects a text under the tool call. */
  predicate Injects(row: Row, id: string) {
    row.meta && id != "" && row.sourceToolUseId == id && TextOf(row.content) != ""
  }

  ghost predicate FirstCall(rows: seq<Row>, id: string, k: int) {
    0 <= k < |rows| && Calls(rows[k], id) && forall j :: 0 <= j < k ==> !Calls(rows[j], id)
  }

  ghost predicate LastInjection(rows: seq<Row>, id: string, k: int) {
    0 <= k < |rows| && Injects(rows[k], id) && forall j :: k < j < |rows| ==> !Injects(rows[j], id)
  }

  /** The call is dated by the first row that shows it. */
  ghost predicate CallsTold(stamps: map<string, Stamp>, rows: seq<Row>, id: string) {
    && (id in stamps <==> exists r :: r in rows && Calls(r, id))
    && (id in stamps ==> forall k :: FirstCall(rows, id, k) ==> stamps[id] == rows[k].stamp)
  }

  /** The text kept is the last one injected. */
  ghost predicate InjectionsTold(injected: map<string, string>, rows: seq<Row>, id: string) {
    && (id in injected <==> exists r :: r in rows && Injects(r, id))
    && (id in injected ==> forall k :: LastInjection(rows, id, k) ==> injected[id] == TextOf(rows[k].content))
  }

  // ------------------------------------------------------------ one more row

  lemma {:induction false} StampsAre(stamps: map<string, Stamp>, uses: seq<Block>, stamp: Stamp, id: string)
    ensures var after := AfterUses(stamps, uses, stamp);
            && (id in after <==> id in stamps || (id != "" && exists b :: b in uses && b.ToolUse? && b.id == id))
            && (id in after ==> after[id] == if id in stamps then stamps[id] else stamp)
  {
    if uses != [] {
      var less, b := uses[..|uses| - 1], uses[|uses| - 1];
      StampsAre(stamps, less, stamp, id);
      assert forall x :: x in uses <==> x in less || x == b;
    }
  }

  lemma {:induction false} UsesOf(row: Row, id: string)
    ensures (exists b :: b in ToolUses(row.content) && b.ToolUse? && b.id == id) <==>
            exists b :: b in BlocksOf(row.content) && b.ToolUse? && b.id == id
  {
    FilterMembers(BlocksOf(row.content), IsToolUse);
  }

  lemma {:induction false} CallsMore(stamps: map<string, Stamp>, after: map<string, Stamp>, rows: seq<Row>, row: Row, id: string)
    requires CallsTold(stamps, rows, id)
    requires id in after <==> id in stamps || Calls(row, id)
    requires id in after ==> after[id] == if id in stamps then stamps[id] else row.stamp
    ensures CallsTold(after, rows + [row], id)
  {
    var all := rows + [row];
    assert forall r :: r in all <==> r in rows || r == row;
    if id in stamps {
      var j :| 0 <= j < |rows| && Calls(rows[j], id);
      assert all[j] == rows[j];
      assert !FirstCall(all, id, |rows|);
    }
    forall k | FirstCall(all, id, k) && k < |rows| ensures id in stamps && FirstCall(rows, id, k) {
      assert forall j :: 0 <= j <= k ==> all[j] == rows[j];
      assert rows[k] in rows;
    }
  }

  lemma {:induction false} InjectionsMore(injected: map<string, string>, after: map<string, string>, rows: seq<Row>, row: Row, id: string)
    requires InjectionsTold(injected, rows, id)
    requires id in after <==> id in injected || Injects(row, id)
    requires id in after ==> after[id] == if Injects(row, id) then TextOf(row.content) else injected[id]
    ensures InjectionsTold(after, rows + [row], id)
  {
    var all := rows + [row];
    assert forall r :: r in all <==> r in rows || r == row;
    if id in after {
      forall k | LastInjection(all, id, k) ensures after[id] == TextOf(all[k].content) {
        assert all[|rows|] == row;
        if k < |rows| {
          forall j | k < j < |rows| ensures !Injects(rows[j], id) {
            assert all[j] == rows[j];
          }
          assert LastInjection(rows, id, k);
        }
      }
    }
  }

  // ------------------------------------------------------------ the open turn

  /** A turn is opened by a user row, and has messages once an assistant row came. */
  ghost predicate OpenShape(p: Partial) {
    && (p.user.Some? ==> p.rows != [] && p.user == Some(p.rows[0]) && StartsTurn(p.rows[0]))
    && (p.user.Some? ==> forall k :: 0 < k < |p.rows| ==> !StartsTurn(p.rows[k]))
    && (p.rowsById != map[] <==> exists r :: r in p.rows && AddsMessage(r))
  }

  ghost predicate Told(p: Partial, id: string) {
    OpenShape(p) && CallsTold(p.useStamps, p.rows, id) && InjectionsTold(p.injected, p.rows, id)
  }

  ghost predicate TurnTold(t: Turn, id: string) {
    && t.rows != [] && t.user == t.rows[0] && StartsTurn(t.rows[0])
    && (forall k :: 0 < k < |t.rows| ==> !StartsTurn(t.rows[k]))
    && CallsTold(t.useStamps, t.rows, id) && InjectionsTold(t.injected, t.rows, id)
  }

  lemma {:induction false} AssistantTold(p: Partial, row: Row, id: string)
    requires Told(p, id) && AddsMessage(row)
    ensures Told(AfterAssistant(p, row), id)
  {
    var q := AfterAssistant(p, row);
    if p.user.Some? {
      UsesOf(row, id);
      StampsAre(p.useStamps, ToolUses(row.content), row.stamp, id);
      CallsMore(p.useStamps, q.useStamps, p.rows, row, id);
      InjectionsMore(p.injected, q.injected, p.rows, row, id);
      MessageShape(p, row);
    }
  }

  lemma {:induction false} MessageShape(p: Partial, row: Row)
    requires OpenShape(p) && p.user.Some? && AddsMessage(row)
    ensures OpenShape(AfterAssistant(p, row))
  {
    var q := AfterAssistant(p, row);
    assert MessageKey(row, |p.ids|) in q.rowsById;
    assert row in q.rows;
  }

  /** A row that is added to the turn's rows and may change its injections or results. */
  lemma {:induction false} SilentTold(p: Partial, q: Partial, row: Row, id: string)
    requires Told(p, id) && !AddsMessage(row) && !StartsTurn(row)
    requires q.user == p.user && q.rowsById == p.rowsById && q.useStamps == p.useStamps && q.rows == p.rows + [row]
    requires id in q.injected <==> id in p.injected || Injects(row, id)
    requires id in q.injected ==> q.injected[id] == if Injects(row, id) then TextOf(row.content) else p.injected[id]
    ensures Told(q, id)
  {
    CallsMore(p.useStamps, q.useStamps, p.rows, row, id);
    InjectionsMore(p.injected, q.injected, p.rows, row, id);
  }

  /** What the remaining rows leave of the open turn. */
  lemma {:induction false} OtherRows(s: Progress, row: Row, id: string, tasks: map<string, string>)
    requires !AddsMessage(row) && !StartsTurn(row)
    ensures var p, q := s.open, Step(s, row, tasks).open;
            q == p ||
            (&& q.user == p.user && q.rowsById == p.rowsById && q.useStamps == p.useStamps && q.rows == p.rows + [row]
             && (id in q.injected <==> id in p.injected || Injects(row, id))
             && (id in q.injected ==> q.injected[id] == if Injects(row, id) then TextOf(row.content) else p.injected[id]))
  {
    if row.meta {
      assert Step(s, row, tasks).open == AfterInjected(s.open, row);
    } else {
      assert !Injects(row, id);
    }
  }

  lemma {:induction false} OpenedTold(row: Row, id: string)
    requires StartsTurn(row)
    ensures Told(Opened(row), id)
  {
    assert !AddsMessage(row) && !Injects(row, id) && !Calls(row, id);
  }

  lemma {:induction false} OpenStepTold(s: Progress, row: Row, id: string, tasks: map<string, string>)
    requires Told(s.open, id)
    ensures Told(Step(s, row, tasks).open, id)
  {
    if StartsTurn(row) {
      OpenedTold(row, id);
      assert Step(s, row, tasks).open == Opened(row);
    } else if AddsMessage(row) {
      AssistantTold(s.open, row, id);
      assert Step(s, row, tasks).open == AfterAssistant(s.open, row);
    } else {
      var q := Step(s, row, tasks).open;
      OtherRows(s, row, id, tasks);
      if q != s.open {
        SilentTold(s.open, q, row, id);
      }
    }
  }

  lemma {:induction false} TurnAfterNotice(t: Turn, row: Row, id: string, results: map<string, ToolEntry>)
    requires TurnTold(t, id) && row.notice.Some? && !row.meta && !IsToolResultRow(row)
    ensures TurnTold(t.(results := results, rows := t.rows + [row]), id)
  {
    CallsMore(t.useStamps, t.useStamps, t.rows, row, id);
    InjectionsMore(t.injected, t.injected, t.rows, row, id);
  }

  lemma {:induction false} ClosedStepTold(s: Progress, row: Row, id: string, tasks: map<string, string>)
    requires Told(s.open, id) && forall t :: t in s.closed ==> TurnTold(t, id)
    ensures forall t :: t in Step(s, row, tasks).closed ==> TurnTold(t, id)
  {
    var after := Step(s, row, tasks);
    forall t | t in after.closed ensures TurnTold(t, id) {
      if t !in s.closed && !StartsTurn(row) {
        var k := LatestKnowing(s.closed, NoticeTarget(row, tasks).value);
        assert s.closed[k] in s.closed;
        TurnAfterNotice(s.closed[k], row, id, t.results);
      }
    }
  }

  /** In every turn assembled, closed or open: it begins with its user row and holds no
      other; a tool call has a date exactly when an assistant row makes it, that of the
      first; and an injected text exactly when a row injects one, the last. */
  lemma {:induction false} TurnsTold(rows: seq<Row>, tasks: map<string, string>, id: string)
    ensures Told(Assembled(rows, tasks).open, id)
    ensures forall t :: t in Assembled(rows, tasks).closed ==> TurnTold(t, id)
  {
    if rows != [] {
      var n := |rows| - 1;
      TurnsTold(rows[..n], tasks, id);
      OpenStepTold(Assembled(rows[..n], tasks), rows[n], id, tasks);
      ClosedStepTold(Assembled(rows[..n], tasks), rows[n], id, tasks);
    }
  }

  /** A user row closes the turn before it exactly when that turn has an assistant row;
      one without is dropped. No other row closes a turn. */
  lemma {:induction false} ClosesIff(rows: seq<Row>, row: Row, tasks: map<string, string>)
    ensures var s, after := Assembled(rows, tasks), Assembled(rows + [row], tasks);
            && (StartsTurn(row) && s.open.user.Some? && (exists r :: r in s.open.rows && AddsMessage(r)) ==>
                  |after.closed| == |s.closed| + 1 && after.closed[..|s.closed|] == s.closed
                  && after.closed[|s.closed|].rows == s.open.rows && after.closed[|s.closed|].results == s.open.results)
            && (StartsTurn(row) && !(s.open.user.Some? && exists r :: r in s.open.rows && AddsMessage(r)) ==> after.closed == s.closed)
            && (!StartsTurn(row) ==> |after.closed| == |s.closed|)
  {
    AssembledSnoc(rows, row, tasks);
    TurnsTold(rows, tasks, "");
  }

  // ------------------------------------------------------------ texts

  predicate ShowsText(b: Block) { b.Text? && b.text != "" }

  function TextIn(b: Block): string { if b.Text? then b.text else "" }

  /** Texts put together line by line. */
  function Joined(texts: seq<string>): string {
    if texts == [] then ""
    else if |texts| == 1 then texts[0]
    else texts[0] + "\n" + Joined(texts[1..])
  }

  lemma {:induction false} JoinedSnoc(texts: seq<string>, text: string)
    ensures Joined(texts + [text]) == if texts == [] then text else Joined(texts) + "\n" + text
  {
    if |texts| <= 1 {
      assert |texts| == 1 ==> (texts + [text])[1..] == [text];
      assert texts == [] ==> texts + [text] == [text];
    } else {
      assert (texts + [text])[1..] == texts[1..] + [text];
      JoinedSnoc(texts[1..], text);
      assert texts[0] + "\n" + (Joined(texts[1..]) + "\n" + text) == texts[0] + "\n" + Joined(texts[1..]) + "\n" + text;
    }
  }

  lemma {:induction false} JoinedEmpty(texts: seq<string>)
    requires forall t :: t in texts ==> t != ""
    ensures Joined(texts) == "" <==> texts == []
  {
    if texts != [] {
      assert texts[0] in texts;
    }
  }

  function Texts(blocks: seq<Block>): seq<string> {
    Map(Filter(blocks, ShowsText), TextIn)
  }

  lemma {:induction false} TextsSnoc(blocks: seq<Block>, b: Block)
    ensures Texts(blocks + [b]) == Texts(blocks) + if ShowsText(b) then [TextIn(b)] else []
  {
    assert (blocks + [b])[..|blocks|] == blocks;
  }

  lemma {:induction false} TextsShow(blocks: seq<Block>)
    ensures forall t :: t in Texts(blocks) ==> t != ""
  {
    FilterMembers(blocks, ShowsText);
    forall t | t in Texts(blocks) ensures t != "" {
      var i :| 0 <= i < |Texts(blocks)| && t == Texts(blocks)[i];
      assert Filter(blocks, ShowsText)[i] in Filter(blocks, ShowsText);
    }
  }

  /** The text of a content made of blocks: its non-empty text blocks, line by line. */
  lemma {:induction false} TextIs(blocks: seq<Block>)
    ensures TextOf(Blocks(blocks)) == Joined(Texts(blocks))
  {
    if blocks != [] {
      var less, b := blocks[..|blocks| - 1], blocks[|blocks| - 1];
      TextIs(less);
      TextsSnoc(less, b);
      assert blocks == less + [b];
      TextsShow(less);
      JoinedEmpty(Texts(less));
      JoinedSnoc(Texts(less), TextIn(b));
      assert Texts(less) + [] == Texts(less);
    }
  }
}
