/** Parsed transcript rows and the turns assembled from them. A string field that
    the transcript leaves out is "", which every reader of it treats alike; a
    missing or unreadable timestamp is `None`. */
module Rows {
  import opened Collections

  datatype Role = User | Assistant

  datatype Block =
    | Text(text: string)
    | ToolUse(id: string, name: string)
    | ToolResult(toolUseId: string, output: string)
    | Other

  datatype Content = Prose(text: string) | Blocks(blocks: seq<Block>) | Absent

  type Stamp = Option<int>

  /** The tags read out of a task-notification row. */
  datatype Notice = Notice(toolUseId: string, taskId: string, result: string)

  datatype Workflow = Workflow(runId: string, name: string)

  datatype Row = Row(
    uuid: string,
    role: Option<Role>,
    meta: bool,
    queued: bool,
    sourceToolUseId: string,
    hasMessage: bool,
    messageId: string,
    content: Content,
    stamp: Stamp,
    asyncLaunch: Option<bool>,
    workflow: Option<Workflow>,
    notice: Option<Notice>)

  /** What a turn knows about one tool call's outcome. */
  datatype ToolEntry = ToolEntry(
    output: string,
    stamp: Stamp,
    asyncLaunch: Option<bool>,
    workflow: Option<Workflow>,
    finalOutput: Option<string>,
    finalStamp: Stamp)

  /** One logical assistant message: the last raw row, with the content blocks of
      every raw row that shared its message id. */
  datatype Message = Message(base: Row, blocks: seq<Block>)

  datatype Turn = Turn(
    user: Row,
    assistants: seq<Message>,
    results: map<string, ToolEntry>,
    useStamps: map<string, Stamp>,
    injected: map<string, string>,
    rows: seq<Row>)

  function BlocksOf(content: Content): seq<Block> {
    match content
    case Blocks(bs) => bs
    case _ => []
  }

  predicate IsToolUse(b: Block) { b.ToolUse? }

  function ToolUses(content: Content): seq<Block> {
    Filter(BlocksOf(content), IsToolUse)
  }

  predicate IsToolResultRow(row: Row) {
    row.role == Some(User) && exists b :: b in BlocksOf(row.content) && b.ToolResult?
  }

  function JoinTexts(blocks: seq<Block>): string {
    if blocks == [] then ""
    else
      var front := JoinTexts(blocks[..|blocks| - 1]);
      var b := blocks[|blocks| - 1];
      if !b.Text? || b.text == "" then front
      else if front == "" then b.text
      else front + "\n" + b.text
  }

  function TextOf(content: Content): string {
    match content
    case Prose(text) => text
    case Blocks(bs) => JoinTexts(bs)
    case Absent => ""
  }

  /** The tool call a notification is about: named outright, or through the task
      ids known so far. */
  function NoticeTarget(row: Row, tasks: map<string, string>): Option<string>
  {
    if row.notice.None? then None
    else if row.notice.value.toolUseId != "" then Some(row.notice.value.toolUseId)
    else if row.notice.value.taskId != "" && row.notice.value.taskId in tasks then
      Some(tasks[row.notice.value.taskId])
    else None
  }

  /** No row is a task notification. */
  ghost predicate NoNotices(rows: seq<Row>) {
    forall r :: r in rows ==> r.notice.None?
  }
}
