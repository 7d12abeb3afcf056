/** The messages of a turn, read off its rows: all rows of one message id make one
    message, with their blocks in row order and everything else from the last of them. */
module TurnMessages {
  import opened Collections
  import opened Rows
  import opened Assembly
  import opened TurnContents

  /** A message id that no row without one falls back to. */
  predicate OwnId(id: string) {
    id != "" && !("noid:" <= id)
  }

  predicate OfMessage(row: Row, id: string) {
    AddsMessage(row) && row.messageId == id
  }

  function RowsOfMessage(rows: seq<Row>, id: string): seq<Row> {
    Filter(rows, r => OfMessage(r, id))
  }

  /** The blocks a row shows; plain text counts as one text block. */
  function BlocksIn(row: Row): seq<Block> {
    if !row.hasMessage || row.content.Absent? then []
    else if row.content.Blocks? then row.content.blocks
    else if row.content.text == "" then [] else [Text(row.content.text)]
  }

  function Shown(rows: seq<Row>): seq<Block> {
    if rows == [] then [] else BlocksIn(rows[0]) + Shown(rows[1..])
  }

  lemma {:induction false} ShownSnoc(rows: seq<Row>, row: Row)
    ensures Shown(rows + [row]) == Shown(rows) + BlocksIn(row)
  {
    if rows == [] {
      assert [] + [row] == [row] && Shown([row][1..]) == [];
    } else {
      assert (rows + [row])[1..] == rows[1..] + [row];
      ShownSnoc(rows[1..], row);
    }
  }

  lemma {:induction false} MergeShows(rows: seq<Row>)
    ensures Merge(rows) == Shown(rows)
  {
    if rows != [] {
      var n := |rows| - 1;
      MergeShows(rows[..n]);
      ShownSnoc(rows[..n], rows[n]);
      assert rows[..n] + [rows[n]] == rows;
    }
  }

  lemma {:induction false} FallbackDiffers(row: Row, position: nat, id: string)
    requires OwnId(id)
    ensures MessageKey(row, position) == id <==> row.messageId == id
  {
    if row.messageId == "" {
      assert "noid:" <= MessageKey(row, position);
    }
  }

  // ------------------------------------------------------------ the open turn

  ghost predicate Gathers(p: Partial, id: string) {
    var raw := RowsOfMessage(p.rows, id);
    && (id in p.rowsById <==> raw != [])
    && (id in p.rowsById ==> p.rowsById[id] == raw && id in p.ids)
  }

  lemma {:induction false} RowsSnoc(rows: seq<Row>, row: Row, id: string)
    ensures RowsOfMessage(rows + [row], id) == RowsOfMessage(rows, id) + if OfMessage(row, id) then [row] else []
  {
    assert (rows + [row])[..|rows|] == rows;
  }

  lemma {:induction false} AssistantGathers(p: Partial, row: Row, id: string)
    requires OwnId(id) && Gathers(p, id) && AddsMessage(row)
    ensures Gathers(AfterAssistant(p, row), id)
  {
    if p.user.Some? {
      RowsSnoc(p.rows, row, id);
      FallbackDiffers(row, |p.ids|, id);
    }
  }

  lemma {:induction false} StepGathers(s: Progress, row: Row, id: string, tasks: map<string, string>)
    requires OwnId(id) && Gathers(s.open, id)
    ensures Gathers(Step(s, row, tasks).open, id)
  {
    if StartsTurn(row) {
      assert !OfMessage(row, id) && [] + [row] == [row];
      RowsSnoc([], row, id);
      assert Step(s, row, tasks).open == Opened(row);
    } else if AddsMessage(row) {
      AssistantGathers(s.open, row, id);
      assert Step(s, row, tasks).open == AfterAssistant(s.open, row);
    } else {
      RowsSnoc(s.open.rows, row, id);
      OtherKeeps(s, row, tasks);
    }
  }

  lemma {:induction false} OtherKeeps(s: Progress, row: Row, tasks: map<string, string>)
    requires !AddsMessage(row) && !StartsTurn(row)
    ensures var p, q := s.open, Step(s, row, tasks).open;
            q.ids == p.ids && q.rowsById == p.rowsById && (q.rows == p.rows || q.rows == p.rows + [row])
  {
    if row.meta {
      assert Step(s, row, tasks).open == AfterInjected(s.open, row);
    }
  }

  // ------------------------------------------------------------ turns

  /** The rows of a message id make one message of the turn. */
  ghost predicate MessageTold(t: Turn, id: string) {
    var raw := RowsOfMessage(t.rows, id);
    raw != [] ==> Message(raw[|raw| - 1], Shown(raw)) in t.assistants
  }

  lemma {:induction false} InMessages(ids: seq<string>, rowsById: map<string, seq<Row>>, id: string)
    requires id in ids && id in rowsById && rowsById[id] != []
    ensures Message(rowsById[id][|rowsById[id]| - 1], Merge(rowsById[id])) in Messages(ids, rowsById)
  {
    var n := |ids| - 1;
    if ids[n] != id {
      assert ids == ids[..n] + [ids[n]];
      InMessages(ids[..n], rowsById, id);
    }
  }

  lemma {:induction false} BuiltTold(p: Partial, id: string)
    requires Gathers(p, id) && Build(p).Some?
    ensures MessageTold(Build(p).value, id)
  {
    if id in p.rowsById {
      InMessages(p.ids, p.rowsById, id);
      MergeShows(p.rowsById[id]);
    }
  }

  lemma {:induction false} NoticedTold(t: Turn, row: Row, id: string, results: map<string, ToolEntry>)
    requires MessageTold(t, id) && !AddsMessage(row)
    ensures MessageTold(t.(results := results, rows := t.rows + [row]), id)
  {
    RowsSnoc(t.rows, row, id);
  }

  lemma {:induction false} ClosedTold(s: Progress, row: Row, id: string, tasks: map<string, string>)
    requires Gathers(s.open, id) && forall t :: t in s.closed ==> MessageTold(t, id)
    ensures forall t :: t in Step(s, row, tasks).closed ==> MessageTold(t, id)
  {
    var after := Step(s, row, tasks);
    forall t | t in after.closed ensures MessageTold(t, id) {
      if t !in s.closed {
        if StartsTurn(row) {
          BuiltTold(s.open, id);
        } else {
          var k := LatestKnowing(s.closed, NoticeTarget(row, tasks).value);
          assert s.closed[k] in s.closed;
          NoticedTold(s.closed[k], row, id, t.results);
        }
      }
    }
  }

  /** In every turn assembled, closed or open, all assistant rows of one message id are
      one message: the last row, with the blocks of all of them in row order. */
  lemma {:induction false} MessagesTold(rows: seq<Row>, tasks: map<string, string>, id: string)
    requires OwnId(id)
    ensures var s := Assembled(rows, tasks);
            && Gathers(s.open, id)
            && (forall t :: t in s.closed ==> MessageTold(t, id))
            && (Build(s.open).Some? ==> MessageTold(Build(s.open).value, id))
  {
    if rows != [] {
      var n := |rows| - 1;
      MessagesTold(rows[..n], tasks, id);
      StepGathers(Assembled(rows[..n], tasks), rows[n], id, tasks);
      ClosedTold(Assembled(rows[..n], tasks), rows[n], id, tasks);
    }
    if Build(Assembled(rows, tasks).open).Some? {
      BuiltTold(Assembled(rows, tasks).open, id);
    }
  }
}
