/** Which keys a firing on an open turn may put out, read off the message blocks and
    the results alone: an exported span is never corrected, so a key must not go out
    while what it stands for can still change. */
module Readiness {
  import opened Collections
  import opened Rows
  import opened Assembly
  import opened Session
  import opened Emission
  import opened EmissionOnce

  // ------------------------------------------------------------ what may go out

  /** A tool call that launched an agent whose outcome is not in. */
  predicate Waiting(b: Block, results: map<string, ToolEntry>) {
    b.ToolUse? && b.id in results && IsAsyncLaunch(results[b.id]) && results[b.id].finalOutput.None?
  }

  /** Every tool call of the message has a result, and no earlier message launched an
      agent that is still out. */
  predicate GenerationReady(messages: seq<Message>, results: map<string, ToolEntry>, i: nat)
    requires i < |messages|
  {
    && (forall b :: b in messages[i].blocks && b.ToolUse? ==> b.id in results)
    && (forall j, b :: 0 <= j < i && b in messages[j].blocks ==> !Waiting(b, results))
  }

  /** The tool call is one of the message's and has a result. */
  predicate HasResult(m: Message, b: Block, results: map<string, ToolEntry>) {
    b in m.blocks && b.ToolUse? && b.id != "" && b.id in results
  }

  ghost predicate GenerationOut(messages: seq<Message>, results: map<string, ToolEntry>, key: string) {
    exists i: nat :: i < |messages| && key == GenerationKey(i, messages[i]) && GenerationReady(messages, results, i)
  }

  ghost predicate ToolOut(m: Message, results: map<string, ToolEntry>, key: string) {
    exists b :: HasResult(m, b, results) && key == "tool:" + b.id
  }

  /** A subagent may go out once it can no longer be running. */
  ghost predicate SubagentOut(m: Message, results: map<string, ToolEntry>, world: World, key: string) {
    exists b :: HasResult(m, b, results) && b.id in world.subagents && !Waiting(b, results) && key == SubagentKey(b.id)
  }

  /** A workflow agent may go out once the run's outcome is in, or the turn closes. */
  ghost predicate AgentOut(m: Message, results: map<string, ToolEntry>, world: World, closing: bool, key: string) {
    exists b, a ::
      && HasResult(m, b, results) && (closing || results[b.id].finalOutput.Some?)
      && results[b.id].workflow.Some? && results[b.id].workflow.value.runId in world.agents
      && a in world.agents[results[b.id].workflow.value.runId] && a != "" && key == AgentKey(b.id, a)
  }

  ghost predicate MessageOut(m: Message, results: map<string, ToolEntry>, world: World, key: string) {
    ToolOut(m, results, key) || SubagentOut(m, results, world, key)
  }

  /** One tool call's own key and its subagent's. */
  ghost predicate UseOut(b: Block, results: map<string, ToolEntry>, world: World, key: string) {
    && b.ToolUse? && b.id != "" && b.id in results
    && (key == "tool:" + b.id || (b.id in world.subagents && !Waiting(b, results) && key == SubagentKey(b.id)))
  }

  ghost predicate FlowOut(b: Block, results: map<string, ToolEntry>, world: World, closing: bool, key: string) {
    && b.ToolUse? && b.id != "" && b.id in results && (closing || results[b.id].finalOutput.Some?)
    && results[b.id].workflow.Some? && results[b.id].workflow.value.runId in world.agents
    && exists a :: a in world.agents[results[b.id].workflow.value.runId] && a != "" && key == AgentKey(b.id, a)
  }

  /** The phrase occurs somewhere in the text. */
  ghost predicate Occurs(text: string, phrase: string) {
    exists a: string, b: string :: text == a + phrase + b
  }

  lemma {:induction false} ContainsIff(text: string, phrase: string)
    ensures Contains(text, phrase) <==> Occurs(text, phrase)
  {
    if Contains(text, phrase) {
      var i :| 0 <= i <= |text| && At(text, phrase, i);
      assert text == text[..i] + phrase + text[i + |phrase|..];
    }
    if Occurs(text, phrase) {
      var a: string, b: string :| text == a + phrase + b;
      assert text[|a|..|a| + |phrase|] == phrase;
      assert At(text, phrase, |a|);
    }
  }

  /** A result is an async launch as its flag says, or without a flag as its text does. */
  lemma {:induction false} AsyncLaunchIs(entry: ToolEntry)
    ensures IsAsyncLaunch(entry) <==>
            || entry.asyncLaunch == Some(true)
            || (entry.asyncLaunch == None &&
                (|| Occurs(entry.output, "Async agent launched successfully")
                 || (Occurs(entry.output, "agentId:") && Occurs(entry.output, "output_file:")
                     && Occurs(entry.output, "You will be notified automatically"))))
  {
    ContainsIff(entry.output, "Async agent launched successfully");
    ContainsIff(entry.output, "agentId:");
    ContainsIff(entry.output, "output_file:");
    ContainsIff(entry.output, "You will be notified automatically");
  }

  // ------------------------------------------------------------ one message

  lemma {:induction false} UsesAre(m: Message)
    ensures forall b :: b in Uses(m) <==> b in m.blocks && b.ToolUse?
  {
    FilterMembers(m.blocks, IsToolUse);
  }

  lemma {:induction false} AnsweredIff(m: Message, results: map<string, ToolEntry>)
    ensures AllAnswered(Uses(m), results) <==> forall b :: b in m.blocks && b.ToolUse? ==> b.id in results
  {
    UsesAre(m);
    if AllAnswered(Uses(m), results) {
      forall b | b in m.blocks && b.ToolUse? ensures b.id in results {
        assert Answered(b, results);
      }
    }
  }

  lemma {:induction false} LeavesIff(m: Message, results: map<string, ToolEntry>)
    ensures LeavesOutstanding(Uses(m), results) <==> exists b :: b in m.blocks && Waiting(b, results)
  {
    UsesAre(m);
  }

  lemma {:induction false} OutstandingIff(messages: seq<Message>, results: map<string, ToolEntry>)
    ensures OutstandingBefore(messages, results) <==>
            exists j, b :: 0 <= j < |messages| && b in messages[j].blocks && Waiting(b, results)
  {
    if messages != [] {
      var n := |messages| - 1;
      OutstandingIff(messages[..n], results);
      LeavesIff(messages[n], results);
      if OutstandingBefore(messages[..n], results) {
        var j, b :| 0 <= j < n && b in messages[..n][j].blocks && Waiting(b, results);
        assert b in messages[j].blocks;
      }
      if j, b :| 0 <= j < |messages| && b in messages[j].blocks && Waiting(b, results) {
        assert j < n ==> messages[..n][j] == messages[j];
      }
    }
  }

  lemma {:induction false} ReadyIff(messages: seq<Message>, results: map<string, ToolEntry>, i: nat)
    requires i < |messages|
    ensures (!OutstandingBefore(messages[..i], results) && AllAnswered(Uses(messages[i]), results)) <==> GenerationReady(messages, results, i)
  {
    OutstandingIff(messages[..i], results);
    AnsweredIff(messages[i], results);
    if OutstandingBefore(messages[..i], results) {
      var j, b :| 0 <= j < i && b in messages[..i][j].blocks && Waiting(b, results);
      assert b in messages[j].blocks;
    } else {
      forall j, b | 0 <= j < i && b in messages[j].blocks ensures !Waiting(b, results) {
        assert b in messages[..i][j].blocks;
      }
    }
  }

  lemma {:induction false} UseOffers(generation: string, n: nat, b: Block, results: map<string, ToolEntry>, world: World, key: string)
    requires b.ToolUse?
    ensures key in Offered(ToolVisits(generation, n, b, results, world), false) <==> UseOut(b, results, world, key)
  {
    ToolOffers(generation, n, b, results, world, false);
  }

  lemma {:induction false} BatchOffers(generation: string, uses: seq<Block>, results: map<string, ToolEntry>, world: World, key: string)
    requires forall b :: b in uses ==> b.ToolUse?
    ensures key in Offered(ToolBatchVisits(generation, uses, results, world), false) <==>
            exists b :: b in uses && UseOut(b, results, world, key)
  {
    if uses != [] {
      var n := |uses| - 1;
      assert uses == uses[..n] + [uses[n]];
      BatchOffers(generation, uses[..n], results, world, key);
      UseOffers(generation, n, uses[n], results, world, key);
      OfferedConcat(ToolBatchVisits(generation, uses[..n], results, world), ToolVisits(generation, n, uses[n], results, world), false);
    }
  }

  lemma {:induction false} AgentsOffer(scope: string, agents: seq<string>, resolved: bool, closing: bool, key: string)
    ensures key in Offered(AgentVisits(scope, agents, resolved), closing) <==>
            (closing || resolved) && exists a :: a in agents && a != "" && key == AgentKey(scope, a)
  {
    if agents != [] {
      var n := |agents| - 1;
      assert agents == agents[..n] + [agents[n]];
      AgentsOffer(scope, agents[..n], resolved, closing, key);
      var last := if agents[n] != "" then [Visit(AgentKey(scope, agents[n]), resolved)] else [];
      OfferedConcat(AgentVisits(scope, agents[..n], resolved), last, closing);
      if agents[n] != "" {
        OfferedOne(Visit(AgentKey(scope, agents[n]), resolved), closing);
      }
    }
  }

  lemma {:induction false} FlowOffers(generation: string, n: nat, b: Block, results: map<string, ToolEntry>, world: World, closing: bool, key: string)
    requires b.ToolUse?
    ensures var entry := EntryOf(results, b.id);
            key in Offered(AgentVisits(Scope(generation, n, b), AgentList(entry, world), WorkflowResolved(entry)), closing) <==>
            FlowOut(b, results, world, closing, key)
  {
    var entry := EntryOf(results, b.id);
    AgentsOffer(Scope(generation, n, b), AgentList(entry, world), WorkflowResolved(entry), closing, key);
  }

  lemma {:induction false} FlowBatchOffers(generation: string, uses: seq<Block>, results: map<string, ToolEntry>, world: World, closing: bool, key: string)
    requires forall b :: b in uses ==> b.ToolUse?
    ensures key in Offered(AgentBatchVisits(generation, uses, results, world), closing) <==>
            exists b :: b in uses && FlowOut(b, results, world, closing, key)
  {
    if uses != [] {
      var n := |uses| - 1;
      var entry := EntryOf(results, uses[n].id);
      assert uses == uses[..n] + [uses[n]];
      FlowBatchOffers(generation, uses[..n], results, world, closing, key);
      FlowOffers(generation, n, uses[n], results, world, closing, key);
      OfferedConcat(AgentBatchVisits(generation, uses[..n], results, world),
                    AgentVisits(Scope(generation, n, uses[n]), AgentList(entry, world), WorkflowResolved(entry)), closing);
    }
  }

  lemma {:induction false} MessageOffersIff(i: nat, m: Message, results: map<string, ToolEntry>, world: World, key: string)
    ensures key in Offered(ToolBatchVisits(GenerationKey(i, m), Uses(m), results, world), false) <==> MessageOut(m, results, world, key)
    ensures forall closing :: key in Offered(AgentBatchVisits(GenerationKey(i, m), Uses(m), results, world), closing) <==> AgentOut(m, results, world, closing, key)
  {
    UsesAre(m);
    BatchOffers(GenerationKey(i, m), Uses(m), results, world, key);
    forall closing ensures key in Offered(AgentBatchVisits(GenerationKey(i, m), Uses(m), results, world), closing) <==> AgentOut(m, results, world, closing, key) {
      FlowBatchOffers(GenerationKey(i, m), Uses(m), results, world, closing, key);
    }
  }

  // ------------------------------------------------------------ the whole walk

  ghost predicate SomeMessageOut(messages: seq<Message>, results: map<string, ToolEntry>, world: World, key: string) {
    exists j :: 0 <= j < |messages| && MessageOut(messages[j], results, world, key)
  }

  ghost predicate SomeAgentOut(messages: seq<Message>, results: map<string, ToolEntry>, world: World, closing: bool, key: string) {
    exists j :: 0 <= j < |messages| && AgentOut(messages[j], results, world, closing, key)
  }

  lemma {:induction false} GenerationsSnoc(messages: seq<Message>, results: map<string, ToolEntry>, key: string)
    requires messages != []
    ensures var n := |messages| - 1;
            GenerationOut(messages, results, key) <==>
            GenerationOut(messages[..n], results, key) || (key == GenerationKey(n, messages[n]) && GenerationReady(messages, results, n))
  {
    var n := |messages| - 1;
    forall i: nat | i < n ensures GenerationReady(messages, results, i) <==> GenerationReady(messages[..n], results, i) {
      assert forall j :: 0 <= j <= i ==> messages[..n][j] == messages[j];
    }
    if GenerationOut(messages[..n], results, key) {
      var i: nat :| i < n && key == GenerationKey(i, messages[..n][i]) && GenerationReady(messages[..n], results, i);
      assert GenerationReady(messages, results, i);
    }
  }

  lemma {:induction false} MessagesSnoc(messages: seq<Message>, results: map<string, ToolEntry>, world: World, closing: bool, key: string)
    requires messages != []
    ensures var n := |messages| - 1;
            && (SomeMessageOut(messages, results, world, key) <==>
                SomeMessageOut(messages[..n], results, world, key) || MessageOut(messages[n], results, world, key))
            && (SomeAgentOut(messages, results, world, closing, key) <==>
                SomeAgentOut(messages[..n], results, world, closing, key) || AgentOut(messages[n], results, world, closing, key))
  {
    var n := |messages| - 1;
    assert forall j :: 0 <= j < n ==> messages[..n][j] == messages[j];
  }

  lemma {:induction false} CoreIff(messages: seq<Message>, results: map<string, ToolEntry>, world: World, key: string)
    ensures key in Offered(CoreVisits(messages, results, world), false) <==>
            GenerationOut(messages, results, key) || SomeMessageOut(messages, results, world, key)
  {
    if messages != [] {
      var n := |messages| - 1;
      CoreIff(messages[..n], results, world, key);
      GenerationsSnoc(messages, results, key);
      MessagesSnoc(messages, results, world, false, key);
      ReadyIff(messages, results, n);
      LastMessageOffers(messages, results, world, key);
      MessageOffersIff(n, messages[n], results, world, key);
    }
  }

  lemma {:induction false} LastMessageOffers(messages: seq<Message>, results: map<string, ToolEntry>, world: World, key: string)
    requires messages != []
    ensures var n := |messages| - 1;
            var generation, uses := GenerationKey(n, messages[n]), Uses(messages[n]);
            key in Offered(CoreVisits(messages, results, world), false) <==>
            || key in Offered(CoreVisits(messages[..n], results, world), false)
            || (key == generation && !OutstandingBefore(messages[..n], results) && AllAnswered(uses, results))
            || key in Offered(ToolBatchVisits(generation, uses, results, world), false)
  {
    var n := |messages| - 1;
    var generation, uses := GenerationKey(n, messages[n]), Uses(messages[n]);
    var v := Visit(generation, !OutstandingBefore(messages[..n], results) && AllAnswered(uses, results));
    var front := CoreVisits(messages[..n], results, world);
    OfferedConcat(front + [v], ToolBatchVisits(generation, uses, results, world), false);
    OfferedConcat(front, [v], false);
    OfferedOne(v, false);
  }

  /** The keys of workflow agents, while the turn is open and when it closes. */
  lemma {:induction false} FlowIff(messages: seq<Message>, results: map<string, ToolEntry>, world: World, closing: bool, key: string)
    ensures key in Offered(WorkflowVisits(messages, results, world), closing) <==> SomeAgentOut(messages, results, world, closing, key)
  {
    if messages != [] {
      var n := |messages| - 1;
      FlowIff(messages[..n], results, world, closing, key);
      MessagesSnoc(messages, results, world, closing, key);
      MessageOffersIff(n, messages[n], results, world, key);
      OfferedConcat(WorkflowVisits(messages[..n], results, world),
                    AgentBatchVisits(GenerationKey(n, messages[n]), Uses(messages[n]), results, world), closing);
    }
  }

  /** The keys of a turn that may go out while it is still open. */
  ghost predicate MayGoOut(turn: Turn, world: World, key: string) {
    || GenerationOut(turn.assistants, turn.results, key)
    || SomeMessageOut(turn.assistants, turn.results, world, key)
    || SomeAgentOut(turn.assistants, turn.results, world, false, key)
  }

  // ------------------------------------------------------------ when a firing may emit at all

  /** A tool call that launched an agent which has not reported. */
  predicate Awaited(b: Block, results: map<string, ToolEntry>) {
    b.ToolUse? && b.name in {"Agent", "Task", "Workflow"} && b.id != "" && Waiting(b, results)
  }

  ghost predicate AgentStillOut(turn: Turn) {
    exists j :: 0 <= j < |turn.assistants| && MessageAwaits(turn.assistants[j], turn.results)
  }

  ghost predicate MessageAwaits(m: Message, results: map<string, ToolEntry>) {
    exists b :: b in m.blocks && Awaited(b, results)
  }

  /** A notification about a named tool call is queued in the turn's rows and not yet
      delivered there. */
  ghost predicate DeliveryDue(turn: Turn) {
    exists r :: r in turn.rows && r.notice.Some? && r.queued && r.notice.value.toolUseId != "" &&
      forall x :: x in turn.rows && x.notice.Some? && !x.queued ==> x.notice.value.toolUseId != r.notice.value.toolUseId
  }

  lemma {:induction false} PendingInIff(blocks: seq<Block>, results: map<string, ToolEntry>)
    ensures PendingIn(blocks, results) != [] <==> exists b :: b in blocks && Awaited(b, results)
  {
    if blocks != [] {
      var less, last := blocks[..|blocks| - 1], blocks[|blocks| - 1];
      PendingInIff(less, results);
      assert Awaited(last, results) <==> AwaitsAgent(last, results);
      assert forall b :: b in blocks <==> b in less || b == last;
    }
  }

  ghost predicate SomeAwaited(messages: seq<Message>, results: map<string, ToolEntry>) {
    exists j :: 0 <= j < |messages| && MessageAwaits(messages[j], results)
  }

  lemma {:induction false} PendingOfIff(messages: seq<Message>, results: map<string, ToolEntry>)
    ensures PendingOf(messages, results) != [] <==> SomeAwaited(messages, results)
  {
    if messages != [] {
      var n := |messages| - 1;
      PendingOfIff(messages[..n], results);
      PendingInIff(messages[n].blocks, results);
      var front, last := PendingOf(messages[..n], results), PendingIn(messages[n].blocks, results);
      assert PendingOf(messages, results) == front + last;
      assert MessageAwaits(messages[n], results) <==> last != [];
      if front != [] {
        var j :| 0 <= j < n && MessageAwaits(messages[..n][j], results);
        assert MessageAwaits(messages[j], results);
      } else {
        forall j | 0 <= j < n ensures !MessageAwaits(messages[j], results) {
          assert !MessageAwaits(messages[..n][j], results);
        }
      }
    }
  }

  function AllBlocks(messages: seq<Message>): seq<Block> {
    if messages == [] then [] else messages[0].blocks + AllBlocks(messages[1..])
  }

  function IdIn(b: Block): string {
    if b.ToolUse? then b.id else ""
  }

  lemma {:induction false} BlocksSnoc(messages: seq<Message>, m: Message)
    ensures AllBlocks(messages + [m]) == AllBlocks(messages) + m.blocks
  {
    if messages == [] {
      assert [] + [m] == [m] && [m][1..] == [];
    } else {
      assert (messages + [m])[1..] == messages[1..] + [m];
      BlocksSnoc(messages[1..], m);
    }
  }

  lemma {:induction false} PendingInIs(blocks: seq<Block>, results: map<string, ToolEntry>)
    ensures PendingIn(blocks, results) == Map(Filter(blocks, b => Awaited(b, results)), IdIn)
  {
    if blocks != [] {
      var n := |blocks| - 1;
      PendingInIs(blocks[..n], results);
      assert Awaited(blocks[n], results) <==> AwaitsAgent(blocks[n], results);
    }
  }

  /** A turn waits for the launches among its tool calls, in the order they were made,
      that have not reported. */
  lemma {:induction false} PendingAre(messages: seq<Message>, results: map<string, ToolEntry>)
    ensures PendingOf(messages, results) == Map(Filter(AllBlocks(messages), b => Awaited(b, results)), IdIn)
  {
    if messages != [] {
      var less, m := messages[..|messages| - 1], messages[|messages| - 1];
      PendingAre(less, results);
      PendingInIs(m.blocks, results);
      assert messages == less + [m];
      BlocksSnoc(less, m);
      FilterConcat(AllBlocks(less), m.blocks, b => Awaited(b, results));
      MapConcat(Filter(AllBlocks(less), b => Awaited(b, results)), Filter(m.blocks, b => Awaited(b, results)), IdIn);
    }
  }

  lemma {:induction false} GatedIff(turn: Turn)
    ensures Gated(turn) <==> AgentStillOut(turn) || DeliveryDue(turn)
  {
    PendingOfIff(turn.assistants, turn.results);
    if UndeliveredTo(turn.rows) != {} {
      var id :| id in UndeliveredTo(turn.rows);
      var r :| r in turn.rows && r.notice.Some? && r.queued && r.notice.value.toolUseId == id;
      assert DeliveryDue(turn);
    }
    if DeliveryDue(turn) {
      var r :| r in turn.rows && r.notice.Some? && r.queued && r.notice.value.toolUseId != "" &&
        forall x :: x in turn.rows && x.notice.Some? && !x.queued ==> x.notice.value.toolUseId != r.notice.value.toolUseId;
      assert r.notice.value.toolUseId in UndeliveredTo(turn.rows);
    }
  }

  /** A firing on the open turn adds a key if and only if the turn has a known user row,
      no agent still out and no delivery due, and the key may go out. */
  lemma {:induction false} OpenFiringAdds(emitted: set<string>, f: EmissionOnce.Firing, key: string)
    ensures key in AfterFiring(emitted, f) <==>
            || key in emitted
            || (var turn := Build(Assembled(f.rows, f.tasks).open);
                && turn.Some? && turn.value.user.uuid != "" && !AgentStillOut(turn.value) && !DeliveryDue(turn.value)
                && MayGoOut(turn.value, f.world, key))
  {
    var turn := Build(Assembled(f.rows, f.tasks).open);
    if turn.Some? {
      GatedIff(turn.value);
      CoreIff(turn.value.assistants, turn.value.results, f.world, key);
      FlowIff(turn.value.assistants, turn.value.results, f.world, false, key);
    }
  }

  // ------------------------------------------------------------ one message's generation

  /** In a tidy turn the key stands for one message only. */
  lemma {:induction false} GenerationKeysDiffer(rows: seq<Row>, tasks: map<string, string>, turn: Turn, i: nat, j: nat)
    requires Tidy(Progress([], START), rows, tasks) && Build(Assembled(rows, tasks).open) == Some(turn)
    requires i < |turn.assistants| && j < |turn.assistants|
    requires GenerationKey(i, turn.assistants[i]) == GenerationKey(j, turn.assistants[j])
    ensures i == j
  {
    var p := Assembled(rows, tasks).open;
    TidySound(Progress([], START), rows, tasks);
    SoundMessages(p);
    KeyIs(p, i);
    KeyIs(p, j);
    SamePrefix("gen:", p.ids[i], p.ids[j]);
  }

  lemma {:induction false} KeyIs(p: Partial, i: nat)
    requires Sound(p) && i < |p.ids| && i < |Messages(p.ids, p.rowsById)|
    ensures GenerationKey(i, Messages(p.ids, p.rowsById)[i]) == "gen:" + p.ids[i]
  {
    SoundMessages(p);
    var raw := p.rowsById[p.ids[i]];
    assert Keyed(raw, i, p.ids[i]) && raw[|raw| - 1] in raw;
  }

  lemma {:induction false} SamePrefix(prefix: string, a: string, b: string)
    requires prefix + a == prefix + b
    ensures a == b
  {
    assert (prefix + a)[|prefix|..] == a && (prefix + b)[|prefix|..] == b;
  }

  lemma {:induction false} GenerationsApart(i: nat, m: Message, messages: seq<Message>, results: map<string, ToolEntry>, world: World)
    ensures !SomeMessageOut(messages, results, world, GenerationKey(i, m))
    ensures !SomeAgentOut(messages, results, world, false, GenerationKey(i, m))
  {
    var key := GenerationKey(i, m);
    assert key[0] == 'g';
    forall b: Block | b.ToolUse? ensures key != "tool:" + b.id && key != SubagentKey(b.id) {
      assert ("tool:" + b.id)[0] == 't' && SubagentKey(b.id)[0] == 's';
    }
    forall scope, a ensures key != AgentKey(scope, a) {
      assert AgentKey(scope, a)[0] == 'w';
    }
  }

  /** Message by message: a firing on an open, tidy turn that may emit newly puts out a
      generation if and only if every tool call of the message has a result and no
      earlier message waits for an agent. */
  lemma {:induction false} GenerationGoesOutIff(emitted: set<string>, f: EmissionOnce.Firing, turn: Turn, i: nat)
    requires Tidy(Progress([], START), f.rows, f.tasks) && Build(Assembled(f.rows, f.tasks).open) == Some(turn)
    requires i < |turn.assistants| && turn.user.uuid != "" && !AgentStillOut(turn) && !DeliveryDue(turn)
    requires GenerationKey(i, turn.assistants[i]) !in emitted
    ensures GenerationKey(i, turn.assistants[i]) in AfterFiring(emitted, f) <==>
            && (forall b :: b in turn.assistants[i].blocks && b.ToolUse? ==> b.id in turn.results)
            && (forall j, b :: 0 <= j < i && b in turn.assistants[j].blocks ==> !Waiting(b, turn.results))
  {
    var key := GenerationKey(i, turn.assistants[i]);
    OpenFiringAdds(emitted, f, key);
    GenerationsApart(i, turn.assistants[i], turn.assistants, turn.results, f.world);
    if GenerationOut(turn.assistants, turn.results, key) {
      var k: nat :| k < |turn.assistants| && key == GenerationKey(k, turn.assistants[k]) && GenerationReady(turn.assistants, turn.results, k);
      GenerationKeysDiffer(f.rows, f.tasks, turn, i, k);
    }
  }
}
