/** Incremental emission of a turn's observations. A turn is walked in full on
    every firing; the cursor decides which keys are new. Only the keys are kept:
    spans, timestamps and metadata of the exported observations are not modelled. */
module Emission {
  import opened Collections
  import opened Rows
  import opened Assembly
  import opened Session
  import Decimal

  /** Transcripts found on disk: tool calls with a subagent transcript, and agents
      of each workflow run. */
  datatype World = World(subagents: set<string>, agents: map<string, seq<string>>)

  /** A key the walk passes, and whether its emitted form can no longer change. */
  datatype Visit = Visit(key: string, complete: bool)

  // ------------------------------------------------------------ keys

  function GenerationKey(index: nat, message: Message): string {
    "gen:" + MessageKey(message.base, index)
  }

  function ToolKey(generation: string, index: nat, use: Block): string
    requires use.ToolUse?
  {
    if use.id != "" then "tool:" + use.id else "tool:" + generation + ":" + Decimal.Render(index)
  }

  function SubagentKey(id: string): string {
    "subagent:" + id
  }

  function AgentKey(scope: string, agent: string): string {
    "workflow-agent:" + scope + ":" + agent
  }

  function EntryOf(results: map<string, ToolEntry>, id: string): Option<ToolEntry> {
    if id != "" && id in results then Some(results[id]) else None
  }

  predicate Outstanding(entry: ToolEntry) {
    IsAsyncLaunch(entry) && entry.finalOutput.None?
  }

  function FinalStamp(entry: Option<ToolEntry>): Stamp {
    if entry.Some? && entry.value.finalOutput.Some? then entry.value.finalStamp else None
  }

  predicate StillRunning(entry: Option<ToolEntry>) {
    entry.None? || Outstanding(entry.value)
  }

  // ------------------------------------------------------------ visits

  function Uses(message: Message): (uses: seq<Block>)
    ensures forall b :: b in uses ==> b.ToolUse?
  {
    FilterMembers(message.blocks, IsToolUse);
    Filter(message.blocks, IsToolUse)
  }

  function ToolVisits(generation: string, index: nat, use: Block, results: map<string, ToolEntry>, world: World): seq<Visit>
    requires use.ToolUse?
  {
    var entry := EntryOf(results, use.id);
    [Visit(ToolKey(generation, index, use), entry.Some?)] +
    if use.id != "" && use.id in world.subagents then
      [Visit(SubagentKey(use.id), FinalStamp(entry).Some? || !StillRunning(entry))]
    else []
  }

  function Scope(generation: string, index: nat, use: Block): string
    requires use.ToolUse?
  {
    if use.id != "" then use.id else ToolKey(generation, index, use)
  }

  function AgentList(entry: Option<ToolEntry>, world: World): seq<string> {
    if entry.Some? && entry.value.workflow.Some? && entry.value.workflow.value.runId in world.agents then
      world.agents[entry.value.workflow.value.runId]
    else []
  }

  function AgentVisits(scope: string, agents: seq<string>, resolved: bool): seq<Visit> {
    if agents == [] then []
    else
      AgentVisits(scope, agents[..|agents| - 1], resolved) +
      if agents[|agents| - 1] != "" then [Visit(AgentKey(scope, agents[|agents| - 1]), resolved)] else []
  }

  predicate WorkflowResolved(entry: Option<ToolEntry>) {
    entry.Some? && entry.value.finalOutput.Some?
  }

  function ToolBatchVisits(generation: string, uses: seq<Block>, results: map<string, ToolEntry>, world: World): seq<Visit>
    requires forall b :: b in uses ==> b.ToolUse?
  {
    if uses == [] then []
    else
      var n := |uses| - 1;
      ToolBatchVisits(generation, uses[..n], results, world) + ToolVisits(generation, n, uses[n], results, world)
  }

  function AgentBatchVisits(generation: string, uses: seq<Block>, results: map<string, ToolEntry>, world: World): seq<Visit>
    requires forall b :: b in uses ==> b.ToolUse?
  {
    if uses == [] then []
    else
      var n := |uses| - 1;
      var entry := EntryOf(results, uses[n].id);
      AgentBatchVisits(generation, uses[..n], results, world) +
      AgentVisits(Scope(generation, n, uses[n]), AgentList(entry, world), WorkflowResolved(entry))
  }

  predicate Answered(b: Block, results: map<string, ToolEntry>) {
    b.ToolUse? && b.id in results
  }

  predicate AllAnswered(uses: seq<Block>, results: map<string, ToolEntry>) {
    forall b :: b in uses ==> Answered(b, results)
  }

  predicate LeavesOutstanding(uses: seq<Block>, results: map<string, ToolEntry>) {
    exists b :: b in uses && b.ToolUse? && b.id in results && Outstanding(results[b.id])
  }

  predicate OutstandingBefore(messages: seq<Message>, results: map<string, ToolEntry>) {
    messages != [] &&
    (OutstandingBefore(messages[..|messages| - 1], results) || LeavesOutstanding(Uses(messages[|messages| - 1]), results))
  }

  /** Generation, tool and subagent keys in walking order. */
  function CoreVisits(messages: seq<Message>, results: map<string, ToolEntry>, world: World): seq<Visit> {
    if messages == [] then []
    else
      var n := |messages| - 1;
      var uses, key := Uses(messages[n]), GenerationKey(n, messages[n]);
      CoreVisits(messages[..n], results, world) +
      [Visit(key, !OutstandingBefore(messages[..n], results) && AllAnswered(uses, results))] +
      ToolBatchVisits(key, uses, results, world)
  }

  /** Keys of agents a workflow run has spawned. */
  function WorkflowVisits(messages: seq<Message>, results: map<string, ToolEntry>, world: World): seq<Visit> {
    if messages == [] then []
    else
      var n := |messages| - 1;
      WorkflowVisits(messages[..n], results, world) +
      AgentBatchVisits(GenerationKey(n, messages[n]), Uses(messages[n]), results, world)
  }

  /** The keys a walk puts out: all of them at close, else the complete ones. */
  function Offered(visits: seq<Visit>, closing: bool): set<string> {
    set v | v in visits && (closing || v.complete) :: v.key
  }

  function Emitted(turn: Turn, world: World, closing: bool): set<string> {
    Offered(CoreVisits(turn.assistants, turn.results, world), closing) +
    Offered(WorkflowVisits(turn.assistants, turn.results, world), closing)
  }

  lemma {:induction false} OfferedConcat(a: seq<Visit>, b: seq<Visit>, closing: bool)
    ensures Offered(a + b, closing) == Offered(a, closing) + Offered(b, closing)
  {
  }

  lemma {:induction false} OfferedOne(v: Visit, closing: bool)
    ensures Offered([v], closing) == if closing || v.complete then {v.key} else {}
  {
  }

  // ------------------------------------------------------------ the cursor

  /** A subagent whose end is known but not yet reached by the walk. */
  datatype Pending = Pending(id: string, ready: int)

  ghost function PendingKeys(pending: seq<Pending>): set<string> {
    set p | p in pending :: SubagentKey(p.id)
  }

  class EmissionCursor {
    var emitted: set<string>
    var newly: seq<string>
    const completedOnly: bool

    constructor (emitted: set<string>, completedOnly: bool)
      ensures this.emitted == emitted && newly == [] && this.completedOnly == completedOnly
    {
      this.emitted, this.newly, this.completedOnly := emitted, [], completedOnly;
    }

    /** `newly` lists, once each, the keys added since `base`. */
    ghost predicate Tracks(base: set<string>)
      reads this
    {
      && base <= emitted
      && Distinct(newly)
      && forall k :: k in newly <==> k in emitted && k !in base
    }

    method ShouldEmit(key: string, complete: bool, ghost base: set<string>) returns (emit: bool)
      requires Tracks(base)
      modifies this
      ensures Tracks(base)
      ensures emit == (key !in old(emitted) && (!completedOnly || complete))
      ensures emitted == old(emitted) + if !completedOnly || complete then {key} else {}
    {
      if key in emitted {
        return false;
      }
      if completedOnly && !complete {
        return false;
      }
      emitted := emitted + {key};
      newly := newly + [key];
      return true;
    }

    /** Emits pending subagents that were ready by `stamp`; the rest stay pending. */
    method EmitReady(pending: seq<Pending>, stamp: Stamp, ghost base: set<string>) returns (rest: seq<Pending>)
      requires Tracks(base)
      modifies this
      ensures Tracks(base)
      ensures emitted + PendingKeys(rest) == old(emitted) + PendingKeys(pending)
      ensures stamp.None? ==> rest == []
    {
      rest := [];
      for i := 0 to |pending|
        invariant Tracks(base)
        invariant emitted + PendingKeys(rest) == old(emitted) + PendingKeys(pending[..i])
        invariant stamp.None? ==> rest == []
      {
        assert pending[..i + 1] == pending[..i] + [pending[i]];
        ghost var before := rest;
        if stamp.None? || pending[i].ready <= stamp.value {
          var _ := ShouldEmit(SubagentKey(pending[i].id), true, base);
        } else {
          rest := rest + [pending[i]];
          assert PendingKeys(rest) == PendingKeys(before) + {SubagentKey(pending[i].id)};
        }
        assert PendingKeys(pending[..i + 1]) == PendingKeys(pending[..i]) + {SubagentKey(pending[i].id)};
      }
      assert pending[..|pending|] == pending;
    }

    method EmitAgents(scope: string, agents: seq<string>, resolved: bool, ghost base: set<string>)
      requires Tracks(base)
      modifies this
      ensures Tracks(base)
      ensures emitted == old(emitted) + Offered(AgentVisits(scope, agents, resolved), !completedOnly)
    {
      for i := 0 to |agents|
        invariant Tracks(base)
        invariant emitted == old(emitted) + Offered(AgentVisits(scope, agents[..i], resolved), !completedOnly)
      {
        assert agents[..i + 1][..i] == agents[..i];
        if agents[i] == "" {
          continue;
        }
        OfferedConcat(AgentVisits(scope, agents[..i], resolved), [Visit(AgentKey(scope, agents[i]), resolved)], !completedOnly);
        OfferedOne(Visit(AgentKey(scope, agents[i]), resolved), !completedOnly);
        var _ := ShouldEmit(AgentKey(scope, agents[i]), resolved, base);
      }
      assert agents[..|agents|] == agents;
    }

    /** A subagent whose end is known is held back until the walk reaches that end. */
    method EmitSubagent(id: string, entry: Option<ToolEntry>, pending: seq<Pending>, ghost base: set<string>)
      returns (pending': seq<Pending>)
      requires Tracks(base)
      modifies this
      ensures Tracks(base)
      ensures var ended := FinalStamp(entry).Some? || !StillRunning(entry);
              emitted + PendingKeys(pending') == old(emitted) + PendingKeys(pending) +
                if !completedOnly || ended then {SubagentKey(id)} else {}
    {
      var final := FinalStamp(entry);
      if final.Some? {
        pending' := pending + [Pending(id, final.value)];
        assert PendingKeys(pending') == PendingKeys(pending) + {SubagentKey(id)};
      } else {
        pending' := pending;
        var _ := ShouldEmit(SubagentKey(id), !StillRunning(entry), base);
      }
    }

    /** One tool call: its own span, its subagent now or later, its workflow agents. */
    method EmitTool(generation: string, index: nat, use: Block, turn: Turn, world: World, pending: seq<Pending>, ghost base: set<string>)
      returns (pending': seq<Pending>)
      requires use.ToolUse? && Tracks(base)
      modifies this
      ensures Tracks(base)
      ensures var entry := EntryOf(turn.results, use.id);
              emitted + PendingKeys(pending') == old(emitted) + PendingKeys(pending) +
                Offered(ToolVisits(generation, index, use, turn.results, world), !completedOnly) +
                Offered(AgentVisits(Scope(generation, index, use), AgentList(entry, world), WorkflowResolved(entry)), !completedOnly)
    {
      pending' := pending;
      var entry := EntryOf(turn.results, use.id);
      var key := ToolKey(generation, index, use);
      ToolOffers(generation, index, use, turn.results, world, !completedOnly);
      ghost var tools := Offered(ToolVisits(generation, index, use, turn.results, world), !completedOnly);
      var _ := ShouldEmit(key, entry.Some?, base);
      if use.id != "" && use.id in world.subagents {
        pending' := EmitSubagent(use.id, entry, pending, base);
      }
      assert emitted + PendingKeys(pending') == old(emitted) + PendingKeys(pending) + tools;
      EmitAgents(Scope(generation, index, use), AgentList(entry, world), WorkflowResolved(entry), base);
    }

    method EmitToolBatch(generation: string, uses: seq<Block>, turn: Turn, world: World, pending: seq<Pending>, ghost base: set<string>)
      returns (pending': seq<Pending>)
      requires (forall b :: b in uses ==> b.ToolUse?) && Tracks(base)
      modifies this
      ensures Tracks(base)
      ensures emitted + PendingKeys(pending') == old(emitted) + PendingKeys(pending) +
                Offered(ToolBatchVisits(generation, uses, turn.results, world), !completedOnly) +
                Offered(AgentBatchVisits(generation, uses, turn.results, world), !completedOnly)
    {
      pending' := pending;
      for i := 0 to |uses|
        invariant Tracks(base)
        invariant emitted + PendingKeys(pending') == old(emitted) + PendingKeys(pending) +
                    Offered(ToolBatchVisits(generation, uses[..i], turn.results, world), !completedOnly) +
                    Offered(AgentBatchVisits(generation, uses[..i], turn.results, world), !completedOnly)
      {
        assert uses[..i + 1][..i] == uses[..i];
        var entry := EntryOf(turn.results, uses[i].id);
        OfferedConcat(ToolBatchVisits(generation, uses[..i], turn.results, world),
                      ToolVisits(generation, i, uses[i], turn.results, world), !completedOnly);
        OfferedConcat(AgentBatchVisits(generation, uses[..i], turn.results, world),
                      AgentVisits(Scope(generation, i, uses[i]), AgentList(entry, world), WorkflowResolved(entry)), !completedOnly);
        pending' := EmitTool(generation, i, uses[i], turn, world, pending', base);
      }
      assert uses[..|uses|] == uses;
    }

    /** One assistant message: its generation, then its tool calls. */
    method EmitMessage(i: nat, m: Message, complete: bool, turn: Turn, world: World, pending: seq<Pending>, ghost base: set<string>)
      returns (pending': seq<Pending>)
      requires Tracks(base)
      modifies this
      ensures Tracks(base)
      ensures emitted + PendingKeys(pending') == old(emitted) + PendingKeys(pending) +
                MessageOffers(i, m, complete, turn.results, world, !completedOnly) +
                AgentOffers(i, m, turn.results, world, !completedOnly)
    {
      var key, uses := GenerationKey(i, m), Uses(m);
      var _ := ShouldEmit(key, complete, base);
      ghost var mid := emitted;
      pending' := EmitToolBatch(key, uses, turn, world, pending, base);
    }

    /** The walk has passed the first `i` messages: every key it owes by then is
        emitted or belongs to a subagent still held back. */
    ghost predicate Walked(base: set<string>, turn: Turn, world: World, i: nat, pending: seq<Pending>)
      reads this
      requires i <= |turn.assistants|
    {
      && Tracks(base)
      && emitted + PendingKeys(pending) == base + OwedAfter(turn, world, i, !completedOnly)
    }

    method WalkMessage(i: nat, outstanding: bool, turn: Turn, world: World, pending: seq<Pending>, ghost base: set<string>)
      returns (pending': seq<Pending>)
      requires i < |turn.assistants| && Walked(base, turn, world, i, pending)
      requires outstanding == OutstandingBefore(turn.assistants[..i], turn.results)
      modifies this
      ensures Walked(base, turn, world, i + 1, pending')
    {
      var m := turn.assistants[i];
      pending' := pending;
      if i > 0 && pending' != [] {
        pending' := EmitReady(pending', m.base.stamp, base);
      }
      var complete := !outstanding && AllAnswered(Uses(m), turn.results);
      WalkStep(turn, world, i, !completedOnly, complete);
      pending' := EmitMessage(i, m, complete, turn, world, pending', base);
    }

    /** The walk over a whole turn. Which subagents are held back on the way depends
        on timestamps; which keys end up emitted does not. */
    method EmitTurnObservations(turn: Turn, world: World)
      requires newly == []
      modifies this
      ensures Tracks(old(emitted))
      ensures emitted == old(emitted) + Emitted(turn, world, !completedOnly)
    {
      ghost var base := emitted;
      var pending: seq<Pending> := [];
      var outstanding := false;
      for i := 0 to |turn.assistants|
        invariant outstanding == OutstandingBefore(turn.assistants[..i], turn.results)
        invariant Walked(base, turn, world, i, pending)
      {
        pending := WalkMessage(i, outstanding, turn, world, pending, base);
        outstanding := outstanding || LeavesOutstanding(Uses(turn.assistants[i]), turn.results);
        assert turn.assistants[..i + 1][..i] == turn.assistants[..i];
      }
      assert turn.assistants[..|turn.assistants|] == turn.assistants;
      pending := EmitReady(pending, None, base);
      assert PendingKeys(pending) == {};
    }
  }

  /** The keys the walk owes after the first `i` messages. */
  ghost function OwedAfter(turn: Turn, world: World, i: nat, closing: bool): set<string>
    requires i <= |turn.assistants|
  {
    Offered(CoreVisits(turn.assistants[..i], turn.results, world), closing) +
    Offered(WorkflowVisits(turn.assistants[..i], turn.results, world), closing)
  }

  ghost function MessageOffers(i: nat, m: Message, complete: bool, results: map<string, ToolEntry>, world: World, closing: bool): set<string> {
    (if closing || complete then {GenerationKey(i, m)} else {}) +
    Offered(ToolBatchVisits(GenerationKey(i, m), Uses(m), results, world), closing)
  }

  ghost function AgentOffers(i: nat, m: Message, results: map<string, ToolEntry>, world: World, closing: bool): set<string> {
    Offered(AgentBatchVisits(GenerationKey(i, m), Uses(m), results, world), closing)
  }

  lemma {:induction false} WalkStep(turn: Turn, world: World, i: nat, closing: bool, complete: bool)
    requires i < |turn.assistants|
    requires complete == (!OutstandingBefore(turn.assistants[..i], turn.results) && AllAnswered(Uses(turn.assistants[i]), turn.results))
    ensures OwedAfter(turn, world, i + 1, closing) ==
            OwedAfter(turn, world, i, closing) +
            MessageOffers(i, turn.assistants[i], complete, turn.results, world, closing) +
            AgentOffers(i, turn.assistants[i], turn.results, world, closing)
  {
    var messages := turn.assistants;
    assert messages[..i + 1][..i] == messages[..i];
    var key, uses := GenerationKey(i, messages[i]), Uses(messages[i]);
    var front := CoreVisits(messages[..i], turn.results, world);
    OfferedConcat(front + [Visit(key, complete)], ToolBatchVisits(key, uses, turn.results, world), closing);
    OfferedConcat(front, [Visit(key, complete)], closing);
    OfferedOne(Visit(key, complete), closing);
    OfferedConcat(WorkflowVisits(messages[..i], turn.results, world), AgentBatchVisits(key, uses, turn.results, world), closing);
  }

  lemma {:induction false} ToolOffers(generation: string, index: nat, use: Block, results: map<string, ToolEntry>, world: World, closing: bool)
    requires use.ToolUse?
    ensures var entry := EntryOf(results, use.id);
            var ended := FinalStamp(entry).Some? || !StillRunning(entry);
            Offered(ToolVisits(generation, index, use, results, world), closing) ==
            (if closing || entry.Some? then {ToolKey(generation, index, use)} else {}) +
            (if use.id != "" && use.id in world.subagents && (closing || ended) then {SubagentKey(use.id)} else {})
  {
    var entry := EntryOf(results, use.id);
    var tool := Visit(ToolKey(generation, index, use), entry.Some?);
    OfferedOne(tool, closing);
    if use.id != "" && use.id in world.subagents {
      var sub := Visit(SubagentKey(use.id), FinalStamp(entry).Some? || !StillRunning(entry));
      OfferedOne(sub, closing);
      OfferedConcat([tool], [sub], closing);
    }
  }
}
