/** How large the outbox log grows: compaction keeps the tombstones in it bounded. */
module OutboxCompaction {
  import opened Collections
  import opened OutboxLog
  import opened Outbox

  predicate Dead(r: Record) { r.op == DelOp }

  function Tombstones(disk: seq<Record>): seq<Record> {
    Filter(disk, Dead)
  }

  /** Every compaction of the run reaches the disk. */
  predicate Compactable(steps: seq<Step>) {
    forall s :: s in steps && s.Settle? ==> s.io
  }

  lemma {:induction false} NoneInAdds(items: seq<Item>)
    ensures Tombstones(Adds(items)) == []
  {
    FilterNone(Adds(items), Dead);
  }

  lemma {:induction false} OneMoreRecord(disk: seq<Record>, r: Record)
    ensures |Tombstones(disk + [r])| == |Tombstones(disk)| + if r.op == DelOp then 1 else 0
  {
    assert (disk + [r])[..|disk|] == disk;
  }

  /** The counter counts the tombstones on disk, below the threshold except between a
      tombstone and the compaction it calls for. */
  ghost predicate Counted(w: World) {
    match w.up
    case Some(p) =>
      && |Tombstones(w.disk)| == p.dels
      && p.dels <= (if w.flush.Retired? then COMPACT_THRESHOLD else COMPACT_THRESHOLD - 1)
    case None => |Tombstones(w.disk)| <= COMPACT_THRESHOLD
  }

  lemma {:induction false} CountedStep(w: World, step: Step)
    requires Counted(w) && Enabled(w, step) && (step.Settle? ==> step.io)
    ensures Counted(Next(w, step))
  {
    match step
    case Enqueue(ev, io) => OneMoreRecord(w.disk, Added(Item(w.up.value.counter + 1, ev)));
    case Tombstone(io) => OneMoreRecord(w.disk, Deleted(w.flush.item.seqNo));
    case Settle(io) => NoneInAdds(w.up.value.queue);
    case Open => NoneInAdds(Replay(w.disk));
    case _ =>
  }

  /** As long as compactions reach the disk, the log holds at most 256 tombstones at any
      time, whatever is enqueued and delivered. */
  lemma {:induction false} TombstonesBounded(steps: seq<Step>)
    requires Runs(steps) && Compactable(steps)
    ensures Counted(After(steps)) && |Tombstones(After(steps).disk)| <= 256
  {
    if steps != [] {
      var less, step := steps[..|steps| - 1], steps[|steps| - 1];
      assert step in steps && forall s :: s in less ==> s in steps;
      TombstonesBounded(less);
      CountedStep(After(less), step);
    } else {
      assert Tombstones([]) == [];
    }
  }

  /** Settling rewrites the log exactly when it holds 256 tombstones. */
  lemma {:induction false} RewritesWhenFull(steps: seq<Step>)
    requires Runs(steps) && Compactable(steps) && Enabled(After(steps), Settle(true))
    ensures var w := After(steps);
            Next(w, Settle(true)).disk == if |Tombstones(w.disk)| == 256 then Adds(w.up.value.queue) else w.disk
  {
    TombstonesBounded(steps);
  }
}
