/** Exactly-once emission over all firings of one turn: firings while the turn is
    open put out what is complete, the closing one the rest. */
module EmissionOnce {
  import opened Collections
  import opened Rows
  import opened Assembly
  import opened Session
  import opened Emission
  import Decimal

  // ------------------------------------------------------------ message identity

  /** All rows gathered under one id would be keyed by it at position `i`. */
  ghost predicate Keyed(rows: seq<Row>, i: nat, id: string) {
    rows != [] && forall r :: r in rows ==> MessageKey(r, i) == id
  }

  ghost predicate Sound(p: Partial) {
    && Distinct(p.ids)
    && (forall id :: id in p.ids <==> id in p.rowsById)
    && (forall i :: 0 <= i < |p.ids| ==> Keyed(p.rowsById[p.ids[i]], i, p.ids[i]))
  }

  /** An assistant row without a message id arrives while the id it falls back to is
      already taken, so it does not open a message of its own. */
  predicate Collides(p: Partial, row: Row) {
    AddsMessage(row) && p.user.Some? && row.messageId == "" && MessageKey(row, |p.ids|) in p.rowsById
  }

  /** No row of the turn open in the end collides. */
  predicate Tidy(s: Progress, rows: seq<Row>, tasks: map<string, string>) {
    rows == [] || StartsTurn(rows[|rows| - 1]) ||
    (Tidy(s, rows[..|rows| - 1], tasks) && !Collides(Fold(s, rows[..|rows| - 1], tasks).open, rows[|rows| - 1]))
  }

  lemma {:induction false} RenderInjective(m: nat, n: nat)
    requires "noid:" + Decimal.Render(m) == "noid:" + Decimal.Render(n)
    ensures m == n
  {
    var prefix := "noid:";
    assert (prefix + Decimal.Render(m))[|prefix|..] == Decimal.Render(m);
    assert (prefix + Decimal.Render(n))[|prefix|..] == Decimal.Render(n);
    Decimal.ParseRender(m);
    Decimal.ParseRender(n);
  }

  lemma {:induction false} FreshKeySound(p: Partial, row: Row)
    requires Sound(p)
    requires MessageKey(row, |p.ids|) !in p.rowsById
    ensures var id := MessageKey(row, |p.ids|);
            Sound(p.(ids := p.ids + [id], rowsById := p.rowsById[id := [row]]))
  {
    var n, id := |p.ids|, MessageKey(row, |p.ids|);
    assert Keyed([row], n, id);
    var q := p.(ids := p.ids + [id], rowsById := p.rowsById[id := [row]]);
    forall i | 0 <= i < n ensures p.ids[i] in p.rowsById && p.ids[i] != id {
      assert p.ids[i] in p.ids;
    }
    forall i | 0 <= i < |q.ids| ensures Keyed(q.rowsById[q.ids[i]], i, q.ids[i]) {
      if i < n {
        assert Keyed(p.rowsById[p.ids[i]], i, p.ids[i]);
      }
    }
  }

  lemma {:induction false} KnownKeySound(p: Partial, row: Row)
    requires Sound(p) && row.messageId != ""
    requires MessageKey(row, |p.ids|) in p.rowsById
    ensures var id := MessageKey(row, |p.ids|);
            Sound(p.(rowsById := p.rowsById[id := p.rowsById[id] + [row]]))
  {
    var id := MessageKey(row, |p.ids|);
    assert id in p.ids;
    var k :| 0 <= k < |p.ids| && p.ids[k] == id;
    var q := p.(rowsById := p.rowsById[id := p.rowsById[id] + [row]]);
    assert Keyed(p.rowsById[id], k, id);
    forall i | 0 <= i < |q.ids| ensures Keyed(q.rowsById[q.ids[i]], i, q.ids[i]) {
      assert Keyed(p.rowsById[p.ids[i]], i, p.ids[i]);
    }
  }

  lemma {:induction false} AssistantSound(p: Partial, row: Row)
    requires Sound(p) && (p.user.Some? && row.messageId == "" ==> MessageKey(row, |p.ids|) !in p.rowsById)
    ensures Sound(AfterAssistant(p, row))
  {
    if p.user.Some? {
      if MessageKey(row, |p.ids|) in p.rowsById {
        KnownKeySound(p, row);
      } else {
        FreshKeySound(p, row);
      }
    }
  }

  lemma {:induction false} StepSound(s: Progress, row: Row, tasks: map<string, string>)
    requires StartsTurn(row) || (Sound(s.open) && !Collides(s.open, row))
    ensures Sound(Step(s, row, tasks).open)
  {
    StepSkeleton(s, row, tasks);
    if AddsMessage(row) {
      AssistantSound(s.open, row);
    }
  }

  lemma {:induction false} TidySound(s: Progress, rows: seq<Row>, tasks: map<string, string>)
    requires Sound(s.open) && Tidy(s, rows, tasks)
    ensures Sound(Fold(s, rows, tasks).open)
  {
    if rows != [] {
      var n := |rows| - 1;
      if !StartsTurn(rows[n]) {
        TidySound(s, rows[..n], tasks);
      }
      StepSound(Fold(s, rows[..n], tasks), rows[n], tasks);
    }
  }

  /** Rows that do not start a turn leave the tidiness of those before them alone. */
  lemma {:induction false} TidyPrefix(s: Progress, rows: seq<Row>, more: seq<Row>, tasks: map<string, string>)
    requires Tidy(s, rows + more, tasks) && forall r :: r in more ==> !StartsTurn(r)
    ensures Tidy(s, rows, tasks)
  {
    if more == [] {
      assert rows + more == rows;
    } else {
      assert (rows + more)[..|rows + more| - 1] == rows + more[..|more| - 1];
      assert more[|more| - 1] in more;
      TidyPrefix(s, rows, more[..|more| - 1], tasks);
    }
  }

  /** Only user and assistant rows touch a turn's messages. */
  lemma {:induction false} StepSkeleton(s: Progress, row: Row, tasks: map<string, string>)
    ensures var p, q := s.open, Step(s, row, tasks).open;
            if StartsTurn(row) then q == Opened(row)
            else if row.meta || IsToolResultRow(row) || row.notice.Some? || row.role != Some(Assistant) then
              q.user == p.user && q.ids == p.ids && q.rowsById == p.rowsById
            else q == AfterAssistant(p, row)
  {
  }

  // ------------------------------------------------------------ growth

  ghost predicate SameMessages(p: Partial, q: Partial) {
    p.user == q.user && p.ids == q.ids && p.rowsById == q.rowsById
  }

  /** The messages of a turn do not depend on which task ids were known. */
  lemma {:induction false} MessagesIgnoreTasks(rows: seq<Row>, tasks: map<string, string>, later: map<string, string>)
    ensures SameMessages(Assembled(rows, tasks).open, Assembled(rows, later).open)
  {
    if rows != [] {
      var n := |rows| - 1;
      MessagesIgnoreTasks(rows[..n], tasks, later);
      StepSkeleton(Assembled(rows[..n], tasks), rows[n], tasks);
      StepSkeleton(Assembled(rows[..n], later), rows[n], later);
    }
  }

  ghost predicate Grows(p: Partial, q: Partial) {
    && p.user == q.user
    && p.ids <= q.ids
    && forall id :: id in p.rowsById ==> id in q.rowsById && p.rowsById[id] <= q.rowsById[id]
  }

  lemma {:induction false} FoldGrows(s: Progress, more: seq<Row>, tasks: map<string, string>)
    requires forall r :: r in more ==> !StartsTurn(r)
    ensures Grows(s.open, Fold(s, more, tasks).open)
  {
    if more != [] {
      var n := |more| - 1;
      FoldGrows(s, more[..n], tasks);
      assert more[n] in more;
      StepSkeleton(Fold(s, more[..n], tasks), more[n], tasks);
    }
  }

  lemma {:induction false} MergeGrows(a: seq<Row>, b: seq<Row>)
    requires a <= b
    ensures Merge(a) <= Merge(b)
    decreases |b|
  {
    if |a| < |b| {
      MergeGrows(a, b[..|b| - 1]);
    } else {
      assert a == b;
    }
  }

  lemma {:induction false} UsesGrow(a: seq<Block>, b: seq<Block>)
    requires a <= b
    ensures Filter(a, IsToolUse) <= Filter(b, IsToolUse)
  {
    assert b == a + b[|a|..];
    FilterConcat(a, b[|a|..], IsToolUse);
  }

  /** What emission needs of two views of one turn, the later having more rows. */
  ghost predicate Extends(before: seq<Message>, after: seq<Message>) {
    && |before| <= |after|
    && forall i :: 0 <= i < |before| ==>
         && GenerationKey(i, before[i]) == GenerationKey(i, after[i])
         && Uses(before[i]) <= Uses(after[i])
  }

  function MessageOf(rows: seq<Row>): Message
    requires rows != []
  {
    Message(rows[|rows| - 1], Merge(rows))
  }

  lemma {:induction false} MessageAt(ids: seq<string>, rowsById: map<string, seq<Row>>)
    requires forall id :: id in ids ==> id in rowsById && rowsById[id] != []
    ensures |Messages(ids, rowsById)| == |ids|
    ensures forall i :: 0 <= i < |ids| ==>
              Messages(ids, rowsById)[i] == MessageOf(rowsById[ids[i]])
  {
    if ids != [] {
      MessageAt(ids[..|ids| - 1], rowsById);
    }
  }

  lemma {:induction false} MessageExtends(a: seq<Row>, b: seq<Row>, i: nat, id: string)
    requires a != [] && a <= b && Keyed(b, i, id)
    ensures GenerationKey(i, MessageOf(a)) == GenerationKey(i, MessageOf(b))
    ensures Uses(MessageOf(a)) <= Uses(MessageOf(b))
  {
    assert a[|a| - 1] in b && b[|b| - 1] in b;
    MergeGrows(a, b);
    UsesGrow(Merge(a), Merge(b));
  }

  lemma {:induction false} SoundMessages(p: Partial)
    requires Sound(p)
    ensures |Messages(p.ids, p.rowsById)| == |p.ids|
    ensures forall i :: 0 <= i < |p.ids| ==>
              && p.ids[i] in p.rowsById && p.rowsById[p.ids[i]] != []
              && Messages(p.ids, p.rowsById)[i] == MessageOf(p.rowsById[p.ids[i]])
  {
    forall id | id in p.ids ensures id in p.rowsById && p.rowsById[id] != [] {
      var i :| 0 <= i < |p.ids| && p.ids[i] == id;
      assert Keyed(p.rowsById[p.ids[i]], i, p.ids[i]);
    }
    MessageAt(p.ids, p.rowsById);
  }

  lemma {:induction false} ExtendsAt(p: Partial, q: Partial, i: nat)
    requires Sound(q) && Grows(p, q) && i < |p.ids|
    requires p.ids[i] in p.rowsById && p.rowsById[p.ids[i]] != []
    ensures i < |q.ids| && p.ids[i] == q.ids[i] && p.ids[i] in q.rowsById && q.rowsById[p.ids[i]] != []
    ensures var m, m' := MessageOf(p.rowsById[p.ids[i]]), MessageOf(q.rowsById[p.ids[i]]);
            GenerationKey(i, m) == GenerationKey(i, m') && Uses(m) <= Uses(m')
  {
    assert q.ids[i] == p.ids[i];
    assert Keyed(q.rowsById[q.ids[i]], i, q.ids[i]);
    MessageExtends(p.rowsById[p.ids[i]], q.rowsById[p.ids[i]], i, p.ids[i]);
  }

  lemma {:induction false} GrowsExtends(p: Partial, q: Partial)
    requires Sound(p) && Sound(q) && Grows(p, q)
    ensures Extends(Messages(p.ids, p.rowsById), Messages(q.ids, q.rowsById))
  {
    SoundMessages(p);
    SoundMessages(q);
    forall i | 0 <= i < |p.ids|
      ensures GenerationKey(i, Messages(p.ids, p.rowsById)[i]) == GenerationKey(i, Messages(q.ids, q.rowsById)[i])
      ensures Uses(Messages(p.ids, p.rowsById)[i]) <= Uses(Messages(q.ids, q.rowsById)[i])
    {
      ExtendsAt(p, q, i);
    }
  }

  // ------------------------------------------------------------ when keys keep

  function View(s: Progress, rows: seq<Row>, tasks: map<string, string>): seq<Message> {
    var p := Fold(s, rows, tasks).open;
    Messages(p.ids, p.rowsById)
  }

  ghost predicate SameKeys(before: seq<Message>, after: seq<Message>) {
    |before| <= |after| && forall i :: 0 <= i < |before| ==> GenerationKey(i, before[i]) == GenerationKey(i, after[i])
  }

  /** Every message keeps its generation key over all later views of the turn. */
  ghost predicate KeysKeep(s: Progress, rows: seq<Row>, tasks: map<string, string>) {
    forall i, j :: 0 <= i <= j <= |rows| ==> SameKeys(View(s, rows[..i], tasks), View(s, rows[..j], tasks))
  }

  lemma {:induction false} TidyKeeps(s: Progress, rows: seq<Row>, tasks: map<string, string>, i: nat, j: nat)
    requires Sound(s.open) && Tidy(s, rows, tasks) && forall r :: r in rows ==> !StartsTurn(r)
    requires i <= j <= |rows|
    ensures SameKeys(View(s, rows[..i], tasks), View(s, rows[..j], tasks))
  {
    assert rows == rows[..j] + rows[j..] && rows[..j] == rows[..i] + rows[i..j];
    TidyPrefix(s, rows[..j], rows[j..], tasks);
    TidyPrefix(s, rows[..i], rows[i..j], tasks);
    TidySound(s, rows[..i], tasks);
    TidySound(s, rows[..j], tasks);
    FoldConcat(s, rows[..i], rows[i..j], tasks);
    FoldGrows(Fold(s, rows[..i], tasks), rows[i..j], tasks);
    GrowsExtends(Fold(s, rows[..i], tasks).open, Fold(s, rows[..j], tasks).open);
  }

  /** A row that collides changes the key of the message it joins. */
  lemma {:induction false} CollisionMoves(s: Progress, row: Row, tasks: map<string, string>)
    requires Sound(s.open) && Collides(s.open, row)
    ensures var p, q := s.open, Step(s, row, tasks).open;
            !SameKeys(Messages(p.ids, p.rowsById), Messages(q.ids, q.rowsById))
  {
    var p, q := s.open, Step(s, row, tasks).open;
    StepSkeleton(s, row, tasks);
    var n, id := |p.ids|, MessageKey(row, |p.ids|);
    SoundMessages(p);
    assert id in p.ids;
    var k :| 0 <= k < n && p.ids[k] == id;
    assert Keyed(p.rowsById[id], k, id);
    assert p.rowsById[id][|p.rowsById[id]| - 1] in p.rowsById[id];
    assert q.ids == p.ids && q.rowsById == p.rowsById[id := p.rowsById[id] + [row]];
    forall x | x in q.ids ensures x in q.rowsById && q.rowsById[x] != [] {
      var i :| 0 <= i < n && p.ids[i] == x;
    }
    MessageAt(q.ids, q.rowsById);
    if GenerationKey(k, MessageOf(p.rowsById[id])) == GenerationKey(k, MessageOf(q.rowsById[id])) {
      assert MessageKey(row, k) == id by {
        assert ("gen:" + MessageKey(row, k))[4..] == ("gen:" + id)[4..];
        assert ("gen:" + MessageKey(row, k))[4..] == MessageKey(row, k) && ("gen:" + id)[4..] == id;
      }
      RenderInjective(k, n);
    }
  }

  lemma {:induction false} UntidyMoves(s: Progress, rows: seq<Row>, tasks: map<string, string>)
    requires Sound(s.open) && !Tidy(s, rows, tasks) && forall r :: r in rows ==> !StartsTurn(r)
    ensures exists k :: 0 <= k < |rows| && !SameKeys(View(s, rows[..k], tasks), View(s, rows[..k + 1], tasks))
  {
    var n := |rows| - 1;
    var less := rows[..n];
    assert rows[n] in rows && forall r :: r in less ==> r in rows;
    assert rows[..n + 1] == rows;
    if Tidy(s, less, tasks) {
      TidySound(s, less, tasks);
      CollisionMoves(Fold(s, less, tasks), rows[n], tasks);
    } else {
      UntidyMoves(s, less, tasks);
      var k :| 0 <= k < |less| && !SameKeys(View(s, less[..k], tasks), View(s, less[..k + 1], tasks));
      assert less[..k] == rows[..k] && less[..k + 1] == rows[..k + 1];
    }
  }

  /** The generation keys of a turn keep their values over all its later views if and
      only if every assistant row without a message id opens a message of its own. */
  lemma {:induction false} KeysKeepIff(s: Progress, rows: seq<Row>, tasks: map<string, string>)
    requires Sound(s.open) && forall r :: r in rows ==> !StartsTurn(r)
    ensures KeysKeep(s, rows, tasks) <==> Tidy(s, rows, tasks)
  {
    if Tidy(s, rows, tasks) {
      forall i, j | 0 <= i <= j <= |rows| ensures SameKeys(View(s, rows[..i], tasks), View(s, rows[..j], tasks)) {
        TidyKeeps(s, rows, tasks, i, j);
      }
    } else {
      UntidyMoves(s, rows, tasks);
    }
  }

  // ------------------------------------------------------------ ids that never collide

  /** No message id imitates the fallback ids given to messages without one. */
  ghost predicate Unreserved(row: Row) {
    !("noid:" <= row.messageId)
  }

  /** A fallback id names its own position. */
  ghost predicate Fallbacks(p: Partial) {
    && (forall id :: id in p.rowsById ==> id in p.ids)
    && forall i :: 0 <= i < |p.ids| ==> ("noid:" <= p.ids[i] ==> p.ids[i] == "noid:" + Decimal.Render(i))
  }

  lemma {:induction false} FallbackFree(p: Partial, row: Row)
    requires Fallbacks(p) && row.messageId == ""
    ensures MessageKey(row, |p.ids|) !in p.rowsById
  {
    var id := MessageKey(row, |p.ids|);
    if id in p.rowsById {
      var k :| 0 <= k < |p.ids| && p.ids[k] == id;
      RenderInjective(k, |p.ids|);
    }
  }

  lemma {:induction false} FallbacksStep(s: Progress, row: Row, tasks: map<string, string>)
    requires Fallbacks(s.open) && Unreserved(row)
    ensures Fallbacks(Step(s, row, tasks).open)
  {
    StepSkeleton(s, row, tasks);
  }

  /** Ids that do not begin like the fallback never collide. */
  lemma {:induction false} UnreservedTidy(rows: seq<Row>, tasks: map<string, string>)
    requires forall r :: r in rows ==> Unreserved(r)
    ensures Tidy(Progress([], START), rows, tasks)
    ensures Fallbacks(Assembled(rows, tasks).open)
  {
    if rows != [] {
      var n := |rows| - 1;
      UnreservedTidy(rows[..n], tasks);
      assert rows[n] in rows;
      FallbacksStep(Assembled(rows[..n], tasks), rows[n], tasks);
      if rows[n].messageId == "" {
        FallbackFree(Assembled(rows[..n], tasks).open, rows[n]);
      }
    }
  }

  // ------------------------------------------------------------ the key set

  function CoreKeys(turn: Turn, world: World): set<string> {
    Offered(CoreVisits(turn.assistants, turn.results, world), true)
  }

  function FlowKeys(turn: Turn, world: World): set<string> {
    Offered(WorkflowVisits(turn.assistants, turn.results, world), true)
  }

  /** The keys of one tool call, emitted or not. */
  function UseKeys(generation: string, index: nat, use: Block, world: World): set<string>
    requires use.ToolUse?
  {
    {ToolKey(generation, index, use)} +
    if use.id != "" && use.id in world.subagents then {SubagentKey(use.id)} else {}
  }

  function BatchKeys(generation: string, uses: seq<Block>, world: World): set<string>
    requires forall b :: b in uses ==> b.ToolUse?
  {
    if uses == [] then {}
    else BatchKeys(generation, uses[..|uses| - 1], world) + UseKeys(generation, |uses| - 1, uses[|uses| - 1], world)
  }

  function KeysOf(messages: seq<Message>, world: World): set<string> {
    if messages == [] then {}
    else
      var n := |messages| - 1;
      KeysOf(messages[..n], world) + {GenerationKey(n, messages[n])} +
      BatchKeys(GenerationKey(n, messages[n]), Uses(messages[n]), world)
  }

  lemma {:induction false} BatchKeysAre(generation: string, uses: seq<Block>, results: map<string, ToolEntry>, world: World)
    requires forall b :: b in uses ==> b.ToolUse?
    ensures Offered(ToolBatchVisits(generation, uses, results, world), true) == BatchKeys(generation, uses, world)
  {
    if uses != [] {
      var n := |uses| - 1;
      BatchKeysAre(generation, uses[..n], results, world);
      OfferedConcat(ToolBatchVisits(generation, uses[..n], results, world), ToolVisits(generation, n, uses[n], results, world), true);
      ToolOffers(generation, n, uses[n], results, world, true);
    }
  }

  /** At close the walk offers exactly the keys that messages and transcripts name. */
  lemma {:induction false} CoreKeysAre(messages: seq<Message>, results: map<string, ToolEntry>, world: World)
    ensures Offered(CoreVisits(messages, results, world), true) == KeysOf(messages, world)
  {
    if messages != [] {
      var n := |messages| - 1;
      var generation, uses := GenerationKey(n, messages[n]), Uses(messages[n]);
      CoreKeysAre(messages[..n], results, world);
      BatchKeysAre(generation, uses, results, world);
      var v := Visit(generation, !OutstandingBefore(messages[..n], results) && AllAnswered(uses, results));
      var front := CoreVisits(messages[..n], results, world);
      OfferedConcat(front + [v], ToolBatchVisits(generation, uses, results, world), true);
      OfferedConcat(front, [v], true);
      OfferedOne(v, true);
    }
  }

  lemma {:induction false} BatchKeysGrow(generation: string, a: seq<Block>, b: seq<Block>, world: World, later: World)
    requires forall x :: x in b ==> x.ToolUse?
    requires a <= b && world.subagents <= later.subagents
    ensures (forall x :: x in a ==> x.ToolUse?) && BatchKeys(generation, a, world) <= BatchKeys(generation, b, later)
    decreases |b|
  {
    assert forall x :: x in a ==> x in b;
    if |a| < |b| {
      BatchKeysGrow(generation, a, b[..|b| - 1], world, later);
    } else if b != [] {
      assert a == b;
      BatchKeysGrow(generation, a[..|a| - 1], b[..|b| - 1], world, later);
    }
  }

  lemma {:induction false} KeysGrow(a: seq<Message>, b: seq<Message>, world: World, later: World)
    requires Extends(a, b) && world.subagents <= later.subagents
    ensures KeysOf(a, world) <= KeysOf(b, later)
    decreases |b|
  {
    if |a| < |b| {
      KeysGrow(a, b[..|b| - 1], world, later);
    } else if b != [] {
      var n := |b| - 1;
      KeysGrow(a[..n], b[..n], world, later);
      BatchKeysGrow(GenerationKey(n, a[n]), Uses(a[n]), Uses(b[n]), world, later);
    }
  }

  /** Keys of an earlier view of the turn are keys of the later one. */
  lemma {:induction false} CoreKeysGrow(before: Turn, after: Turn, world: World, later: World)
    requires Extends(before.assistants, after.assistants) && world.subagents <= later.subagents
    ensures CoreKeys(before, world) <= CoreKeys(after, later)
  {
    CoreKeysAre(before.assistants, before.results, world);
    CoreKeysAre(after.assistants, after.results, later);
    KeysGrow(before.assistants, after.assistants, world, later);
  }

  lemma {:induction false} OfferedGrows(visits: seq<Visit>)
    ensures Offered(visits, false) <= Offered(visits, true)
  {
  }

  // ------------------------------------------------------------ firings

  /** One firing on a turn still open: the rows held by then, the task ids and the
      transcripts known by then. */
  datatype Firing = Firing(rows: seq<Row>, tasks: map<string, string>, world: World)

  function UndeliveredTo(rows: seq<Row>): set<string> {
    (set r | r in rows && r.notice.Some? && r.queued :: r.notice.value.toolUseId) -
    (set r | r in rows && r.notice.Some? && !r.queued :: r.notice.value.toolUseId) - {""}
  }

  /** The turn can provably still change, so nothing may be emitted yet. */
  predicate Gated(turn: Turn) {
    PendingAgents(turn) != [] || UndeliveredTo(turn.rows) != {}
  }

  /** The emitted keys after an open firing. */
  function AfterFiring(emitted: set<string>, f: Firing): set<string> {
    var turn := Build(Assembled(f.rows, f.tasks).open);
    if turn.None? || Gated(turn.value) || turn.value.user.uuid == "" then emitted
    else emitted + Emitted(turn.value, f.world, false)
  }

  function AfterFirings(fs: seq<Firing>): set<string> {
    if fs == [] then {} else AfterFiring(AfterFirings(fs[..|fs| - 1]), fs[|fs| - 1])
  }

  /** What the `i`-th firing newly emits. */
  function Newly(fs: seq<Firing>, i: nat): set<string>
    requires i < |fs|
  {
    AfterFirings(fs[..i + 1]) - AfterFirings(fs[..i])
  }

  /** `last` sees the same turn as `f`, with no fewer rows and subagents. */
  ghost predicate Continues(f: Firing, last: Firing) {
    && f.rows <= last.rows
    && (forall r :: r in last.rows[|f.rows|..] ==> !StartsTurn(r))
    && f.world.subagents <= last.world.subagents
  }

  /** Keys of workflow agents that some firing offered. */
  ghost function FlowKeysOf(fs: seq<Firing>): set<string> {
    if fs == [] then {}
    else
      var f := fs[|fs| - 1];
      var turn := Build(Assembled(f.rows, f.tasks).open);
      FlowKeysOf(fs[..|fs| - 1]) + if turn.Some? then FlowKeys(turn.value, f.world) else {}
  }

  lemma {:induction false} FiringKeys(f: Firing, last: Firing, final: Turn)
    requires Continues(f, last) && Tidy(Progress([], START), last.rows, last.tasks)
    requires Build(Assembled(last.rows, last.tasks).open) == Some(final)
    ensures Build(Assembled(f.rows, f.tasks).open).Some? ==>
              CoreKeys(Build(Assembled(f.rows, f.tasks).open).value, f.world) <= CoreKeys(final, last.world)
  {
    var p, q := Assembled(f.rows, f.tasks).open, Assembled(last.rows, last.tasks).open;
    if Build(p).Some? {
      var more := last.rows[|f.rows|..];
      assert last.rows == f.rows + more;
      FoldConcat(Progress([], START), f.rows, more, last.tasks);
      FoldGrows(Assembled(f.rows, last.tasks), more, last.tasks);
      MessagesIgnoreTasks(f.rows, f.tasks, last.tasks);
      TidyPrefix(Progress([], START), f.rows, more, last.tasks);
      TidySound(Progress([], START), f.rows, last.tasks);
      TidySound(Progress([], START), last.rows, last.tasks);
      assert Sound(p);
      GrowsExtends(p, q);
      CoreKeysGrow(Build(p).value, final, f.world, last.world);
    }
  }

  lemma {:induction false} EarlierKeys(fs: seq<Firing>, last: Firing, final: Turn)
    requires forall f :: f in fs ==> Continues(f, last)
    requires Tidy(Progress([], START), last.rows, last.tasks)
    requires Build(Assembled(last.rows, last.tasks).open) == Some(final)
    ensures AfterFirings(fs) <= CoreKeys(final, last.world) + FlowKeysOf(fs)
  {
    if fs != [] {
      var f := fs[|fs| - 1];
      EarlierKeys(fs[..|fs| - 1], last, final);
      assert f in fs;
      FiringKeys(f, last, final);
      var turn := Build(Assembled(f.rows, f.tasks).open);
      if turn.Some? {
        OfferedGrows(CoreVisits(turn.value.assistants, turn.value.results, f.world));
        OfferedGrows(WorkflowVisits(turn.value.assistants, turn.value.results, f.world));
      }
    }
  }

  lemma {:induction false} FiringsMonotone(fs: seq<Firing>, i: nat, j: nat)
    requires i <= j <= |fs|
    ensures AfterFirings(fs[..i]) <= AfterFirings(fs[..j])
    decreases j
  {
    if i < j {
      FiringsMonotone(fs, i, j - 1);
      assert fs[..j - 1] + [fs[j - 1]] == fs[..j];
      OneMoreFiring(fs[..j - 1], fs[j - 1]);
    }
  }

  lemma {:induction false} OneMoreFiring(fs: seq<Firing>, f: Firing)
    ensures AfterFirings(fs) <= AfterFirings(fs + [f])
  {
    assert (fs + [f])[..|fs|] == fs;
  }

  /** No key is newly emitted by two firings. */
  lemma {:induction false} NewlyDisjoint(fs: seq<Firing>, i: nat, j: nat)
    requires i < j < |fs|
    ensures Newly(fs, i) !! Newly(fs, j)
  {
    FiringsMonotone(fs, i + 1, j);
  }

  ghost function NewlyAll(fs: seq<Firing>, n: nat): set<string>
    requires n <= |fs|
  {
    if n == 0 then {} else NewlyAll(fs, n - 1) + Newly(fs, n - 1)
  }

  lemma {:induction false} NewlyCovers(fs: seq<Firing>, n: nat)
    requires n <= |fs|
    ensures NewlyAll(fs, n) == AfterFirings(fs[..n])
  {
    if n > 0 {
      NewlyCovers(fs, n - 1);
      FiringsMonotone(fs, n - 1, n);
    }
  }

  /** Open firings and then the closing one: what they newly emit is pairwise
      disjoint, and together it is every generation, tool and subagent key of the
      final turn, plus only workflow-agent keys offered on the way. */
  lemma {:induction false} ExactlyOnce(fs: seq<Firing>, last: Firing, final: Turn)
    requires forall f :: f in fs ==> Continues(f, last)
    requires Tidy(Progress([], START), last.rows, last.tasks)
    requires Build(Assembled(last.rows, last.tasks).open) == Some(final)
    ensures var before := AfterFirings(fs);
            var closing := Emitted(final, last.world, true) - before;
            && (forall i, j :: 0 <= i < j < |fs| ==> Newly(fs, i) !! Newly(fs, j))
            && NewlyAll(fs, |fs|) == before
            && before !! closing
            && CoreKeys(final, last.world) <= before + closing
            && before + closing <= CoreKeys(final, last.world) + FlowKeysOf(fs + [last])
  {
    forall i, j | 0 <= i < j < |fs| ensures Newly(fs, i) !! Newly(fs, j) {
      NewlyDisjoint(fs, i, j);
    }
    NewlyCovers(fs, |fs|);
    assert fs[..|fs|] == fs;
    EarlierKeys(fs, last, final);
    assert (fs + [last])[..|fs|] == fs;
  }

  // ------------------------------------------------------------ why ids must not imitate fallbacks

  predicate PlainAssistant(row: Row, id: string) {
    !row.meta && row.notice.None? && row.role == Some(Assistant) && row.messageId == id && row.content == Absent
  }

  /** A turn of one user row and two empty assistant rows, before and after the second. */
  lemma {:induction false} TwoRowTurn(u: Row, a: Row, b: Row, tasks: map<string, string>)
    requires StartsTurn(u) && PlainAssistant(a, "noid:1") && PlainAssistant(b, "")
    ensures var p, q := Assembled([u, a], tasks).open, Assembled([u, a, b], tasks).open;
            && p.user == q.user == Some(u) && p.ids == q.ids == ["noid:1"] && p.rows == [u, a]
            && p.rowsById == map["noid:1" := [a]] && q.rowsById == map["noid:1" := [a, b]]
  {
    assert [u][..0] == [] && [u, a][..1] == [u] && [u, a, b][..2] == [u, a];
    assert Fold(Progress([], START), [], tasks) == Progress([], START);
    assert Assembled([u], tasks) == Step(Progress([], START), u, tasks);
    assert MessageKey(a, 0) == "noid:1";
    assert !IsToolResultRow(a) && !IsToolResultRow(b);
    assert Decimal.Render(1) == "1";
    assert MessageKey(b, 1) == "noid:1";
    var p := Assembled([u, a], tasks).open;
    assert p == AfterAssistant(Opened(u), a);
    assert [] + [a] == [a] && map[]["noid:1" := [a]] == map["noid:1" := [a]];
    assert Assembled([u, a, b], tasks).open == AfterAssistant(p, b);
    assert [a] + [b] == [a, b] && map["noid:1" := [a]]["noid:1" := [a, b]] == map["noid:1" := [a, b]];
  }

  lemma {:induction false} OneMessage(id: string, rows: seq<Row>)
    requires rows != [] && forall r :: r in rows ==> r.content == Absent
    ensures Messages([id], map[id := rows]) == [Message(rows[|rows| - 1], [])]
  {
    assert [id][..0] == [];
    NothingMerged(rows);
    assert Messages([], map[id := rows]) == [];
  }

  lemma {:induction false} NothingMerged(rows: seq<Row>)
    requires forall r :: r in rows ==> r.content == Absent
    ensures Merge(rows) == []
  {
    if rows != [] {
      assert rows[|rows| - 1] in rows;
      NothingMerged(rows[..|rows| - 1]);
    }
  }

  lemma {:induction false} OneEmptyMessage(m: Message, results: map<string, ToolEntry>, world: World)
    requires m.blocks == []
    ensures CoreVisits([m], results, world) == [Visit(GenerationKey(0, m), true)]
    ensures PendingOf([m], results) == []
  {
    assert [m][..0] == [];
    assert Uses(m) == [];
    assert CoreVisits([], results, world) == [] && PendingOf([], results) == [];
    assert ToolBatchVisits(GenerationKey(0, m), [], results, world) == [];
    assert PendingIn(m.blocks, results) == [];
  }

  /** The turn built from one message of empty rows. */
  lemma {:induction false} BuiltTurn(p: Partial, id: string, rows: seq<Row>)
    requires p.user.Some? && p.ids == [id] && p.rowsById == map[id := rows]
    requires rows != [] && forall r :: r in rows ==> r.content == Absent
    ensures Build(p).Some? && Build(p).value.assistants == [Message(rows[|rows| - 1], [])]
    ensures Build(p).value.rows == p.rows && Build(p).value.user == p.user.value
  {
    OneMessage(id, rows);
    assert id in p.rowsById;
  }

  /** A firing on an ungated turn puts out every complete key the turn offers. */
  lemma {:induction false} FirstFiring(f: Firing, turn: Turn, key: string)
    requires Build(Assembled(f.rows, f.tasks).open) == Some(turn)
    requires !Gated(turn) && turn.user.uuid != ""
    requires Visit(key, true) in CoreVisits(turn.assistants, turn.results, f.world)
    ensures key in AfterFirings([f])
  {
    assert [f][..0] == [] && AfterFirings([]) == {};
    assert AfterFirings([f]) == AfterFiring({}, f);
  }

  lemma {:induction false} EmittedEarly(f: Firing, u: Row, a: Row)
    requires StartsTurn(u) && u.uuid != "" && PlainAssistant(a, "noid:1") && f.rows == [u, a]
    ensures "gen:noid:1" in AfterFirings([f])
  {
    TwoRowTurn(u, a, a.(messageId := ""), f.tasks);
    var p := Assembled([u, a], f.tasks).open;
    BuiltTurn(p, "noid:1", [a]);
    var early := Build(p).value;
    OneEmptyMessage(Message(a, []), early.results, f.world);
    assert GenerationKey(0, Message(a, [])) == "gen:noid:1";
    FirstFiring(f, early, "gen:noid:1");
  }

  lemma {:induction false} FinalKeys(last: Firing, u: Row, a: Row, b: Row)
    requires StartsTurn(u) && PlainAssistant(a, "noid:1") && PlainAssistant(b, "") && last.rows == [u, a, b]
    ensures Build(Assembled(last.rows, last.tasks).open).Some?
    ensures CoreKeys(Build(Assembled(last.rows, last.tasks).open).value, last.world) == {"gen:noid:0"}
  {
    TwoRowTurn(u, a, b, last.tasks);
    var q := Assembled([u, a, b], last.tasks).open;
    BuiltTurn(q, "noid:1", [a, b]);
    OneMessageKeys(Build(q).value, b, last.world);
  }

  lemma {:induction false} OneMessageKeys(turn: Turn, b: Row, world: World)
    requires turn.assistants == [Message(b, [])] && b.messageId == ""
    ensures CoreKeys(turn, world) == {"gen:noid:0"}
  {
    OneEmptyMessage(Message(b, []), turn.results, world);
    assert Decimal.Render(0) == "0";
    assert GenerationKey(0, Message(b, [])) == "gen:noid:0";
    OfferedOne(Visit("gen:noid:0", true), true);
  }

  /** Without the condition the exactly-once law fails: a message whose own id imitates
      the fallback of the second position is emitted under that id, then merged with a
      row that has none, and the key it was emitted under is no key of the final turn. */
  lemma {:induction false} ImitatedIdStrays(u: Row, a: Row, b: Row, tasks: map<string, string>, world: World)
    requires StartsTurn(u) && u.uuid != "" && PlainAssistant(a, "noid:1") && PlainAssistant(b, "")
    ensures var f, last := Firing.Firing([u, a], tasks, world), Firing.Firing([u, a, b], tasks, world);
            && Continues(f, last)
            && Build(Assembled(last.rows, tasks).open).Some?
            && "gen:noid:1" in AfterFirings([f])
            && "gen:noid:1" !in CoreKeys(Build(Assembled(last.rows, tasks).open).value, world)
  {
    var f, last := Firing.Firing([u, a], tasks, world), Firing.Firing([u, a, b], tasks, world);
    EmittedEarly(f, u, a);
    FinalKeys(last, u, a, b);
    assert [u, a, b][2..] == [b] && [u, a] <= [u, a, b];
    assert "gen:noid:1"[9] != "gen:noid:0"[9];
  }

  /** The hook's own firing on the held open turn follows `AfterFiring`. */
  method EmitReadyObservations(f: Firing, progress: set<string>) returns (emitted: set<string>)
    ensures emitted == AfterFiring(progress, f)
  {
    var _, trailing, _ := AssembleTurns(f.rows, f.tasks);
    if trailing.None? {
      return progress;
    }
    if Gated(trailing.value) || trailing.value.user.uuid == "" {
      return progress;
    }
    var cursor := new EmissionCursor(progress, true);
    cursor.EmitTurnObservations(trailing.value, f.world);
    return cursor.emitted;
  }

  /** The closing emission puts out everything the turn still owes. */
  method EmitClosing(turn: Turn, world: World, progress: set<string>) returns (newly: seq<string>)
    ensures Distinct(newly)
    ensures forall k :: k in newly <==> k in Emitted(turn, world, true) && k !in progress
  {
    var cursor := new EmissionCursor(progress, false);
    cursor.EmitTurnObservations(turn, world);
    return cursor.newly;
  }
}
