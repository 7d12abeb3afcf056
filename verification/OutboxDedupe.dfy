/** Which enqueues the outbox drops, over whole runs: what the running process has
    recorded decides, and every other event is queued, logged and recorded once. */
module OutboxDedupe {
  import opened Collections
  import opened OutboxLog
  import opened DedupeWindow
  import opened Outbox

  function IdOf(it: Item): string { it.ev.id }
  predicate Named(id: string) { id != "" }

  /** The ids of some events, in order, without the empty ones. */
  function Ids(items: seq<Item>): seq<string> {
    Filter(Map(items, IdOf), Named)
  }

  /** The ids the running process has recorded: those of the events it reloaded, then
      those of the events it has taken in since. */
  ghost function Recorded(steps: seq<Step>): seq<string>
    requires Runs(steps)
  {
    if steps == [] then []
    else
      var less, step := steps[..|steps| - 1], steps[|steps| - 1];
      match step
      case Open => Ids(After(steps).up.value.queue)
      case Enqueue(ev, _) =>
        if ev.id != "" && |After(steps).ledger| > |After(less).ledger| then Recorded(less) + [ev.id] else Recorded(less)
      case _ => Recorded(less)
  }

  lemma {:induction false} IdsAre(items: seq<Item>)
    ensures Ids(items) == IdsOf(items)
  {
    if items != [] {
      var less, it := items[..|items| - 1], items[|items| - 1];
      IdsAre(less);
      assert Map(items, IdOf) == Map(less, IdOf) + [it.ev.id];
      assert Map(items, IdOf)[..|items| - 1] == Map(less, IdOf);
    }
  }

  lemma {:induction false} WindowMoves(w: World, step: Step)
    requires Enabled(w, step) && Next(w, step).up.Some? && !step.Open?
    ensures w.up.Some?
    ensures if step.Enqueue? && step.ev.id != "" && |Next(w, step).ledger| > |w.ledger| then
              Shaped(w.up.value.window) && Next(w, step).up.value.window == Marked(w.up.value.window, step.ev.id)
            else Next(w, step).up.value.window == w.up.value.window
  {
  }

  lemma {:induction false} WindowIs(steps: seq<Step>)
    requires Runs(steps) && After(steps).up.Some?
    ensures After(steps).up.value.window == MarkedAll(Cleared(WINDOW), Recorded(steps))
  {
    var less, step := steps[..|steps| - 1], steps[|steps| - 1];
    if step.Open? {
      IdsAre(After(steps).up.value.queue);
    } else {
      WindowMoves(After(less), step);
      WindowIs(less);
      if step.Enqueue? {
        MarkedSnoc(Cleared(WINDOW), Recorded(less), step.ev.id);
      }
    }
  }

  /** The event is taken in: one more mark, one more queued item under the next
      number, one more record if the append reached the disk, nothing else. */
  ghost predicate TakenIn(w: World, after: World, ev: Event, io: bool)
    requires w.up.Some?
  {
    var it := Item(w.up.value.counter + 1, ev);
    && after.up.Some? && after.flush == w.flush
    && after.ledger == w.ledger + [Mark(it, io, io, true, false, 0, false)]
    && after.disk == w.disk + (if io then [Added(it)] else [])
    && after.up.value.queue == w.up.value.queue + [it]
    && after.up.value.counter == w.up.value.counter + 1 && after.up.value.dels == w.up.value.dels
  }

  /** One enqueue, by what the window holds: an id in the set changes nothing, any
      other event is taken in. */
  lemma {:induction false} EnqueueStep(w: World, ev: Event, io: bool)
    requires Enabled(w, Enqueue(ev, io))
    ensures ev.id != "" && ev.id in w.up.value.window.seen ==> Next(w, Enqueue(ev, io)) == w
    ensures ev.id == "" || ev.id !in w.up.value.window.seen ==> TakenIn(w, Next(w, Enqueue(ev, io)), ev, io)
  {
    assert w.disk + [] == w.disk;
  }

  /** An enqueue is dropped if and only if the process has recorded its id and some
      occurrence of it survives in the window; any other is taken in. */
  lemma {:induction false} DroppedIff(steps: seq<Step>, ev: Event, io: bool)
    requires Runs(steps) && After(steps).up.Some?
    ensures var w := After(steps);
            && Enabled(w, Enqueue(ev, io))
            && (ev.id != "" && Kept(Recorded(steps), WINDOW, ev.id) ==> Next(w, Enqueue(ev, io)) == w)
            && (ev.id == "" || !Kept(Recorded(steps), WINDOW, ev.id) ==> TakenIn(w, Next(w, Enqueue(ev, io)), ev, io))
  {
    WindowIs(steps);
    SeenAre(WINDOW, Recorded(steps), ev.id);
    EnqueueStep(After(steps), ev, io);
  }

  /** No copy of the id stands in `before` where it would be pushed out of the ring
      between this recording of it and the end. */
  ghost predicate NoneLeaving(before: seq<string>, id: string, n: nat, m: nat) {
    forall i :: 0 <= i < |before| && |before| - n < i <= |before| + m - n ==> before[i] != id
  }

  lemma {:induction false} KeptIff(before: seq<string>, id: string, later: seq<string>, n: nat)
    requires n > 0 && id !in later
    ensures Kept(before + [id] + later, n, id) <==> |later| < n && NoneLeaving(before, id, n, |later|)
  {
    var ids, at := before + [id] + later, |before|;
    assert ids[at] == id && forall i :: 0 <= i < at ==> ids[i] == before[i];
    assert forall i :: at < i < |ids| ==> ids[i] == later[i - at - 1];
    if |later| < n && NoneLeaving(before, id, n, |later|) {
      assert Survives(ids, n, at);
    }
    if Kept(ids, n, id) {
      var j: nat :| Survives(ids, n, j) && ids[j] == id;
      assert j <= at;
      forall i | 0 <= i < at && at - n < i <= at + |later| - n ensures before[i] != id {
        assert ids[i] == before[i];
      }
    }
  }

  /** An id enqueued before is dropped again exactly as long as fewer than a window's
      worth of ids have been recorded since, unless an earlier copy of it has left the
      ring in between. */
  lemma {:induction false} RepeatDroppedIff(steps: seq<Step>, ev: Event, io: bool, before: seq<string>, later: seq<string>)
    requires Runs(steps) && After(steps).up.Some? && ev.id != ""
    requires Recorded(steps) == before + [ev.id] + later && ev.id !in later
    ensures Enabled(After(steps), Enqueue(ev, io))
    ensures Next(After(steps), Enqueue(ev, io)) == After(steps) <==>
            |later| < WINDOW && NoneLeaving(before, ev.id, WINDOW, |later|)
  {
    DroppedIff(steps, ev, io);
    KeptIff(before, ev.id, later, WINDOW);
  }

  /** The same event twice in a row: the second is always dropped. */
  lemma {:induction false} TwiceInARow(steps: seq<Step>, ev: Event, io: bool, again: bool)
    requires Runs(steps) && After(steps).up.Some? && ev.id != ""
    ensures var once := steps + [Enqueue(ev, io)];
            && Runs(once) && After(once).up.Some? && Enabled(After(once), Enqueue(ev, again))
            && Next(After(once), Enqueue(ev, again)) == After(once)
  {
    DroppedIff(steps, ev, io);
    OneMoreStep(After(steps), steps, Enqueue(ev, io));
    var once := steps + [Enqueue(ev, io)];
    assert once[..|steps|] == steps;
    DroppedIff(once, ev, again);
    if !Kept(Recorded(steps), WINDOW, ev.id) {
      KeptIff(Recorded(steps), ev.id, [], WINDOW);
      assert Recorded(steps) + [ev.id] + [] == Recorded(once);
    } else {
      assert Recorded(once) == Recorded(steps);
    }
  }

  /** The process started from a log whose equal ids stand a window apart, an empty
      log among them. */
  ghost predicate SpacedStart(steps: seq<Step>)
    requires Runs(steps)
  {
    steps != [] &&
    var less, step := steps[..|steps| - 1], steps[|steps| - 1];
    if step.Open? then WellSpaced(Ids(After(steps).up.value.queue), WINDOW) else SpacedStart(less)
  }

  lemma {:induction false} SpacedExact(steps: seq<Step>)
    requires Runs(steps) && After(steps).up.Some? && SpacedStart(steps)
    ensures Exact(After(steps).up.value.window)
  {
    var less, step := steps[..|steps| - 1], steps[|steps| - 1];
    if step.Open? {
      WindowIs(steps);
      ReloadExact(WINDOW, Recorded(steps));
    } else {
      SpacedExact(less);
      var p := After(less).up.value;
      if step.Enqueue? && After(steps) != After(less) && step.ev.id != "" {
        DroppedIff(less, step.ev, step.io);
        WindowIs(less);
        SeenAre(WINDOW, Recorded(less), step.ev.id);
        MarkedExact(p.window, step.ev.id);
      }
    }
  }

  /** From such a start an id is dropped for exactly one window: until as many other
      ids have been recorded after it as the ring holds. */
  lemma {:induction false} OncePerWindow(steps: seq<Step>, ev: Event, io: bool, before: seq<string>, later: seq<string>)
    requires Runs(steps) && After(steps).up.Some? && SpacedStart(steps) && ev.id != ""
    requires Recorded(steps) == before + [ev.id] + later && ev.id !in later
    ensures Enabled(After(steps), Enqueue(ev, io))
    ensures Next(After(steps), Enqueue(ev, io)) == After(steps) <==> |later| < WINDOW
  {
    SpacedExact(steps);
    WindowIs(steps);
    Reloaded(WINDOW, Recorded(steps));
    NewestHolds(before, ev.id, later, WINDOW);
    SeenAre(WINDOW, Recorded(steps), ev.id);
    DroppedIff(steps, ev, io);
  }
}
