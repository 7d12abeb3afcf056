/** The persisted per-transcript state of the Langfuse hook, updated in place by
    each hook run. Every method is proved to follow the stage functions of
    `Session` and `Routing`. */
module HookSessions {
  import opened Collections
  import opened Rows
  import opened Assembly
  import opened Routing
  import opened Session
  import Lines

  class HookSession {
    var offset: nat
    var buffer: string
    var turnCount: nat
    var pendingAgentTurns: seq<Deferred>
    var pendingTaskNotifications: seq<Row>
    var openTurn: seq<Row>
    var turnNumbers: map<string, nat>

    function Value(): State
      reads this
    {
      State(offset, buffer, turnCount, pendingAgentTurns, pendingTaskNotifications, openTurn, turnNumbers)
    }

    constructor ()
      ensures Value() == EMPTY
    {
      offset, buffer, turnCount := 0, "", 0;
      pendingAgentTurns, pendingTaskNotifications, openTurn, turnNumbers := [], [], [], map[];
    }

    /** Reads only what the file holds past `offset`; a shrunken file restarts. */
    method ReadNewJsonl(file: Option<string>, parse: string -> Option<Row>) returns (rows: seq<Row>)
      modifies this
      ensures (Value(), rows) == ReadNew(old(Value()), file, parse)
    {
      if file.None? {
        return [];
      }
      if |file.value| < offset {
        offset, buffer := 0, "";
        pendingAgentTurns, pendingTaskNotifications, openTurn, turnNumbers := [], [], [], map[];
      }
      var chunk := file.value[offset..];
      if chunk == "" {
        return [];
      }
      var lines := Lines.Split(buffer + chunk, '\n');
      buffer := lines[|lines| - 1];
      offset := |file.value|;
      var complete := lines[..|lines| - 1];
      rows := [];
      for i := 0 to |complete|
        invariant rows == Parsed(complete[..i], parse)
      {
        assert complete[..i + 1][..i] == complete[..i];
        var row := parse(complete[i]);
        if row.Some? {
          rows := rows + [row.value];
        }
      }
      assert complete[..|complete|] == complete;
    }

    method RouteToPendingTurn(k: nat, row: Row, id: string)
      requires k < |pendingAgentTurns|
      modifies this`pendingAgentTurns
      ensures pendingAgentTurns == old(pendingAgentTurns)[k := Received(old(pendingAgentTurns)[k], row, id)]
    {
      var d := pendingAgentTurns[k];
      d := d.(rows := d.rows + [row]);
      if id in d.pending {
        d := d.(pending := Without(d.pending, id), resolved := d.resolved + [id]);
      }
      pendingAgentTurns := pendingAgentTurns[k := d];
    }

    method FindPendingAgentTurn(id: string) returns (k: nat)
      ensures k == OwnerOf(pendingAgentTurns, id)
    {
      var ds := pendingAgentTurns;
      k := 0;
      while k < |ds| && !Knows(ds[k], id)
        invariant k <= |ds|
        invariant forall j :: 0 <= j < k ==> !Knows(ds[j], id)
      {
        k := k + 1;
      }
    }

    /** Stashed notifications first: those that now have a turn waiting for them leave. */
    method RouteStashed(tasks: map<string, string>) returns (stashed: seq<Row>)
      modifies this`pendingAgentTurns
      ensures Routed(pendingAgentTurns, [], stashed) == RouteStash(old(pendingAgentTurns), pendingTaskNotifications, tasks)
    {
      var stash := pendingTaskNotifications;
      stashed := [];
      for i := 0 to |stash|
        invariant Routed(pendingAgentTurns, [], stashed) == RouteStash(old(pendingAgentTurns), stash[..i], tasks)
      {
        assert stash[..i + 1][..i] == stash[..i];
        var row := stash[i];
        var target := NoticeTarget(row, tasks);
        var k := |pendingAgentTurns|;
        if target.Some? && target.value != "" {
          k := FindPendingAgentTurn(target.value);
        }
        if k == |pendingAgentTurns| {
          stashed := stashed + [row];
        } else {
          RouteToPendingTurn(k, row, target.value);
        }
      }
      assert stash[..|stash|] == stash;
    }

    /** The batch's own notifications go to the turn waiting for them, or stay. */
    method RouteBatched(kept: seq<Row>, rows: seq<Row>, tasks: map<string, string>)
      returns (remaining: seq<Row>, stashed: seq<Row>)
      modifies this`pendingAgentTurns
      ensures Routed(pendingAgentTurns, remaining, stashed) == RouteBatch(Routed(old(pendingAgentTurns), [], kept), rows, tasks)
    {
      remaining, stashed := [], kept;
      for i := 0 to |rows|
        invariant Routed(pendingAgentTurns, remaining, stashed) == RouteBatch(Routed(old(pendingAgentTurns), [], kept), rows[..i], tasks)
      {
        assert rows[..i + 1][..i] == rows[..i];
        var row := rows[i];
        if row.notice.None? {
          remaining := remaining + [row];
          continue;
        }
        var target := NoticeTarget(row, tasks);
        if target.None? {
          stashed := stashed + [row];
          continue;
        }
        var k := FindPendingAgentTurn(target.value);
        if k == |pendingAgentTurns| {
          remaining := remaining + [row];
        } else {
          RouteToPendingTurn(k, row, target.value);
        }
      }
      assert rows[..|rows|] == rows;
    }

    /** Moves notifications from the stash and the batch to the turns waiting for
        them and releases the turns nothing is missing from any more. */
    method ResolveDeferredAgentTurns(rows: seq<Row>, tasks: map<string, string>)
      returns (released: seq<seq<Row>>, remaining: seq<Row>)
      modifies this`pendingAgentTurns, this`pendingTaskNotifications
      ensures Outcome(pendingAgentTurns, released, remaining, pendingTaskNotifications) ==
              Resolve(old(pendingAgentTurns), old(pendingTaskNotifications), rows, tasks)
    {
      var ds, stash := pendingAgentTurns, pendingTaskNotifications;
      var stashed := RouteStashed(tasks);
      remaining, stashed := RouteBatched(stashed, rows, tasks);
      pendingTaskNotifications := Newest(stashed, MAX_STASHED);
      var routed := pendingAgentTurns;
      released := [];
      var still: seq<Deferred> := [];
      for i := 0 to |routed|
        invariant still == Filter(routed[..i], Waiting)
        invariant released == Map(Filter(routed[..i], Done), Routing.RowsOf)
      {
        assert routed[..i + 1][..i] == routed[..i];
        if routed[i].pending != [] {
          still := still + [routed[i]];
        } else {
          released := released + [routed[i].rows];
        }
      }
      assert routed[..|routed|] == routed;
      pendingAgentTurns := still;
    }

    method PopAllDeferred() returns (lists: seq<seq<Row>>)
      modifies this`pendingAgentTurns
      ensures pendingAgentTurns == []
      ensures lists == Map(Filter(old(pendingAgentTurns), HasRows), Routing.RowsOf)
    {
      var ds := pendingAgentTurns;
      lists := [];
      for i := 0 to |ds|
        invariant lists == Map(Filter(ds[..i], HasRows), Routing.RowsOf)
      {
        assert ds[..i + 1][..i] == ds[..i];
        if ds[i].rows != [] {
          lists := lists + [ds[i].rows];
        }
      }
      assert ds[..|ds|] == ds;
      pendingAgentTurns := [];
    }

    method HighestNumber() returns (highest: nat)
      ensures highest == Highest(turnNumbers)
    {
      highest := 0;
      var keys := turnNumbers.Keys;
      ghost var done: set<string> := {};
      while keys != {}
        invariant keys + done == turnNumbers.Keys
        invariant forall u :: u in done ==> turnNumbers[u] <= highest
        invariant highest == 0 || exists u :: u in done && turnNumbers[u] == highest
        decreases |keys|
      {
        var u :| u in keys;
        highest := Max(highest, turnNumbers[u]);
        keys, done := keys - {u}, done + {u};
      }
      HighestIsHighest(turnNumbers);
    }

    /** Numbers each turn the first time it is seen, past every number so far. */
    method AssignTurnNumbers(turns: seq<Turn>, trailing: Option<Turn>)
      modifies this`turnNumbers
      ensures turnNumbers == Numbered(turns + AsSeq(trailing), NextNumber(turnCount, old(turnNumbers)), old(turnNumbers)).0
    {
      ghost var first, given := NextNumber(turnCount, turnNumbers), turnNumbers;
      var highest := HighestNumber();
      var next := 1 + Max(turnCount, highest);
      var all := turns + if trailing.Some? then [trailing.value] else [];
      for i := 0 to |all|
        invariant (turnNumbers, next) == Numbered(all[..i], first, given)
      {
        assert all[..i + 1][..i] == all[..i];
        var u := all[i].user.uuid;
        if u != "" && u !in turnNumbers {
          turnNumbers := turnNumbers[u := next];
          next := next + 1;
        }
      }
      assert all[..|all|] == all;
    }

    method Rebuild(owed: seq<seq<Row>>, tasks: map<string, string>) returns (turns: seq<Turn>)
      ensures turns == Rebuilt(owed, tasks)
    {
      turns := [];
      for i := 0 to |owed|
        invariant turns == Rebuilt(owed[..i], tasks)
      {
        assert owed[..i + 1][..i] == owed[..i];
        var closed, last, _ := AssembleTurns(owed[i], tasks);
        turns := turns + (closed + if last.Some? then [last.value] else []);
      }
      assert owed[..|owed|] == owed;
    }

    method TakeOwed(released: seq<seq<Row>>, flush: bool) returns (owed: seq<seq<Row>>)
      modifies this`pendingAgentTurns
      ensures owed == released + if flush then Map(Filter(old(pendingAgentTurns), HasRows), Routing.RowsOf) else []
      ensures pendingAgentTurns == if flush then [] else old(pendingAgentTurns)
    {
      owed := released;
      if flush && pendingAgentTurns != [] {
        var flushed := PopAllDeferred();
        owed := owed + flushed;
      }
    }

    /** Reads, reattaches the held rows and routes; gives the complete turns owed
        and the rows of this run's own batch. */
    method Gather(file: Option<string>, parse: string -> Option<Row>, tasks: map<string, string>, flush: bool)
      returns (owed: seq<seq<Row>>, rows: seq<Row>)
      modifies this
      ensures var (s1, read) := ReadNew(old(Value()), file, parse);
              var o := Resolve(s1.deferred, s1.stash, s1.openRows + read, tasks);
              Value() == Gathered(s1, o, flush) && owed == Owed(o, flush) && rows == BatchRows(o, flush)
    {
      rows := ReadNewJsonl(file, parse);
      ghost var s1 := Value();
      rows := openTurn + rows;
      openTurn := [];
      ghost var o := Resolve(s1.deferred, s1.stash, rows, tasks);
      owed, rows := ResolveDeferredAgentTurns(rows, tasks);
      owed, rows := TakeAll(o, owed, rows, flush);
      assert Value() == Gathered(s1, o, flush);
    }

    /** At the closing firing everything deferred and stashed comes out. */
    method TakeAll(ghost o: Outcome, released: seq<seq<Row>>, remaining: seq<Row>, flush: bool)
      returns (owed: seq<seq<Row>>, rows: seq<Row>)
      requires pendingAgentTurns == o.waiting && pendingTaskNotifications == o.stash
      requires released == o.released && remaining == o.remaining
      modifies this`pendingAgentTurns, this`pendingTaskNotifications
      ensures owed == Owed(o, flush) && rows == BatchRows(o, flush)
      ensures pendingAgentTurns == (if flush then [] else o.waiting)
      ensures pendingTaskNotifications == if flush then [] else o.stash
    {
      owed := TakeOwed(released, flush);
      rows := remaining;
      if flush && pendingTaskNotifications != [] {
        rows := rows + pendingTaskNotifications;
        pendingTaskNotifications := [];
      }
    }

    /** Owed turns first, then the batch; the turn left open is held unless flushing. */
    method AssembleBatch(owed: seq<seq<Row>>, rows: seq<Row>, tasks: map<string, string>, flush: bool)
      returns (turns: seq<Turn>)
      requires openTurn == []
      modifies this`openTurn, this`turnNumbers
      ensures turns == TurnsOf(owed, Assembled(rows, tasks), tasks, flush)
      ensures Value() == Settle(old(Value()), Assembled(rows, tasks), turns, flush)
    {
      turns := Rebuild(owed, tasks);
      var closed, trailing, held := AssembleTurns(rows, tasks);
      turns := turns + (closed + if flush && trailing.Some? then [trailing.value] else []);
      if !flush {
        openTurn := held;
      }
      AssignTurnNumbers(turns, trailing);
    }

    method GetNewTurns(file: Option<string>, parse: string -> Option<Row>, tasks: map<string, string>, flush: bool)
      returns (turns: seq<Turn>)
      modifies this
      ensures Value() == Collect(old(Value()), file, parse, tasks, flush).0
      ensures turns == Collect(old(Value()), file, parse, tasks, flush).1
    {
      var owed, rows := Gather(file, parse, tasks, flush);
      turns := AssembleBatch(owed, rows, tasks, flush);
    }

    /** Puts unsettled turns aside until their agents report, unless flushing. */
    method GetTurnsToEmit(turns: seq<Turn>, flush: bool) returns (ready: seq<Turn>)
      modifies this`pendingAgentTurns
      ensures ready == ReadyNow(turns, flush)
      ensures pendingAgentTurns == old(pendingAgentTurns) + PutAside(turns, flush)
    {
      ready := [];
      for i := 0 to |turns|
        invariant ready == ReadyNow(turns[..i], flush)
        invariant pendingAgentTurns == old(pendingAgentTurns) + PutAside(turns[..i], flush)
      {
        assert turns[..i + 1][..i] == turns[..i];
        var pending := PendingAgents(turns[i]);
        if pending != [] && !flush {
          MapConcat(Filter(turns[..i], Unsettled), [turns[i]], Deferral);
          pendingAgentTurns := pendingAgentTurns + [Deferred(pending, [], turns[i].rows)];
          continue;
        }
        ready := ready + [turns[i]];
      }
      assert turns[..|turns|] == turns;
    }

    /** One hook run: the turns it emits and the state it leaves. */
    method Run(file: Option<string>, parse: string -> Option<Row>, tasks: map<string, string>, flush: bool)
      returns (emitted: seq<Turn>)
      modifies this
      ensures Value() == Fire(old(Value()), file, parse, tasks, flush).0
      ensures emitted == Fire(old(Value()), file, parse, tasks, flush).1
    {
      var turns := GetNewTurns(file, parse, tasks, flush);
      emitted := EmitTurns(turns, flush);
    }

    method EmitTurns(turns: seq<Turn>, flush: bool) returns (emitted: seq<Turn>)
      modifies this
      ensures emitted == ReadyNow(turns, flush) && Value() == Emitting(old(Value()), turns, flush)
    {
      emitted := GetTurnsToEmit(turns, flush);
      turnCount := turnCount + |emitted|;
    }
  }
}
