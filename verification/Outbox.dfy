/** The crash-safe event outbox: every interleaving of enqueues, the steps of a
    flush, crashes and restarts. A ledger of all enqueued events, kept only to state
    the properties, records what has happened to each. */
module Outbox {
  import opened Collections
  import opened OutboxLog
  import opened DedupeWindow

  /** Where a flush stands: what is still to be sent, or the event between its
      confirmed send and the end of its removal. */
  datatype Flush =
    | Idle
    | Sending(rest: seq<Item>)
    | Sent(item: Item, rest: seq<Item>)
    | Removed(item: Item, rest: seq<Item>)
    | Retired(rest: seq<Item>)

  datatype Process = Process(queue: seq<Item>, counter: nat, window: Window, dels: nat)

  // ------------------------------------------------------------ the operations

  predicate Suppressed(p: Process, ev: Event) {
    ev.id != "" && ev.id in p.window.seen
  }

  function Enqueued(p: Process, ev: Event): Process
    requires Shaped(p.window)
  {
    p.(counter := p.counter + 1,
       queue := p.queue + [Item(p.counter + 1, ev)],
       window := if ev.id != "" then Marked(p.window, ev.id) else p.window)
  }

  function RemoveFirst(queue: seq<Item>, s: nat): seq<Item> {
    if queue == [] then []
    else if queue[0].seqNo == s then queue[1..]
    else [queue[0]] + RemoveFirst(queue[1..], s)
  }

  lemma {:induction false} FirstRemoved(queue: seq<Item>, s: nat, i: nat)
    requires i <= |queue| && (forall k :: 0 <= k < i ==> queue[k].seqNo != s)
    requires i < |queue| ==> queue[i].seqNo == s
    ensures RemoveFirst(queue, s) == if i < |queue| then queue[..i] + queue[i + 1..] else queue
  {
    if i > 0 {
      var rest := queue[1..];
      assert forall k :: 0 <= k < i - 1 ==> rest[k] == queue[k + 1];
      FirstRemoved(rest, s, i - 1);
      assert RemoveFirst(queue, s) == [queue[0]] + RemoveFirst(rest, s);
      if i < |queue| {
        Reattached(queue, i);
      } else {
        assert [queue[0]] + rest == queue;
      }
    } else if queue != [] {
      assert queue[..0] + queue[1..] == queue[1..];
    }
  }

  lemma {:induction false} Reattached(queue: seq<Item>, i: nat)
    requires 0 < i < |queue|
    ensures [queue[0]] + (queue[1..][..i - 1] + queue[1..][i..]) == queue[..i] + queue[i + 1..]
  {
    assert queue[1..][..i - 1] == queue[1..i] && queue[1..][i..] == queue[i + 1..];
    assert [queue[0]] + queue[1..i] == queue[..i];
  }

  function Unqueued(p: Process, s: nat): Process {
    p.(queue := RemoveFirst(p.queue, s))
  }

  function Tombstoned(p: Process, disk: seq<Record>, s: nat, io: bool): (Process, seq<Record>) {
    if io then (p.(dels := p.dels + 1), disk + [Deleted(s)]) else (p, disk)
  }

  predicate Compacts(p: Process, io: bool) {
    p.dels >= COMPACT_THRESHOLD && io
  }

  function Settled(p: Process, disk: seq<Record>, io: bool): (Process, seq<Record>) {
    if Compacts(p, io) then (p.(dels := 0), Adds(p.queue)) else (p, disk)
  }

  function IdsOf(items: seq<Item>): seq<string> {
    if items == [] then []
    else IdsOf(items[..|items| - 1]) + if items[|items| - 1].ev.id != "" then [items[|items| - 1].ev.id] else []
  }

  function MarkedItem(w: Window, it: Item): Window
    requires Shaped(w)
  {
    if it.ev.id != "" then Marked(w, it.ev.id) else w
  }

  /** A restart: the live items of the log, the log compacted to them. */
  function Opened(disk: seq<Record>): (Process, seq<Record>) {
    var items := Replay(disk);
    (Process(items, MaxSeq(disk), MarkedAll(Cleared(WINDOW), IdsOf(items)), 0), Adds(items))
  }

  // ------------------------------------------------------------ the ledger

  /** One enqueued event: whether its append was reported durable, whether the log
      holds it, whether the queue does, whether a send was ever confirmed, how often
      this process confirmed one, and whether its tombstone was written. */
  datatype Mark = Mark(item: Item, durable: bool, onDisk: bool, queued: bool, confirmed: bool, sends: nat, tombstoned: bool)

  predicate OnDisk(m: Mark) { m.onDisk }
  predicate InQueue(m: Mark) { m.queued }
  predicate Owed(m: Mark) { m.durable && !m.confirmed }
  predicate Live(m: Mark) { m.onDisk || m.queued }
  function ItemOf(m: Mark): Item { m.item }

  function DiskItems(ledger: seq<Mark>): seq<Item> { Map(Filter(ledger, OnDisk), ItemOf) }
  function QueuedItems(ledger: seq<Mark>): seq<Item> { Map(Filter(ledger, InQueue), ItemOf) }
  function OwedItems(ledger: seq<Mark>): seq<Item> { Map(Filter(ledger, Owed), ItemOf) }

  datatype Change = Confirm(s: nat) | Unqueue(s: nat) | Retire(s: nat) | Rewrite | Lose | Reload

  function ChangedMark(m: Mark, c: Change): Mark {
    match c
    case Confirm(s) => if m.queued && m.item.seqNo == s then m.(confirmed := true, sends := m.sends + 1) else m
    case Unqueue(s) => if m.queued && m.item.seqNo == s then m.(queued := false) else m
    case Retire(s) => if m.onDisk && m.item.seqNo == s then m.(onDisk := false, tombstoned := true) else m
    case Rewrite => m.(onDisk := m.queued)
    case Lose => m.(queued := false)
    case Reload => m.(queued := m.onDisk, sends := 0)
  }

  function Changed(ledger: seq<Mark>, c: Change): (r: seq<Mark>)
    ensures |r| == |ledger|
    ensures forall i :: 0 <= i < |ledger| ==> r[i] == ChangedMark(ledger[i], c)
  {
    Map(ledger, m => ChangedMark(m, c))
  }

  // ------------------------------------------------------------ the steps

  datatype World = World(disk: seq<Record>, up: Option<Process>, flush: Flush, ledger: seq<Mark>)

  datatype Step =
    | Enqueue(ev: Event, io: bool)
    | StartFlush
    | SendOk
    | SendFail
    | Remove
    | Tombstone(io: bool)
    | Settle(io: bool)
    | Crash
    | Open

  const INITIAL := World([], None, Idle, [])

  ghost predicate Enabled(w: World, step: Step) {
    match step
    case Enqueue(_, _) => w.up.Some? && Shaped(w.up.value.window)
    case StartFlush => w.up.Some? && w.flush.Idle?
    case SendOk => w.up.Some? && w.flush.Sending? && w.flush.rest != []
    case SendFail => w.up.Some? && w.flush.Sending? && w.flush.rest != []
    case Remove => w.up.Some? && w.flush.Sent?
    case Tombstone(_) => w.up.Some? && w.flush.Removed?
    case Settle(_) => w.up.Some? && w.flush.Retired?
    case Crash => w.up.Some?
    case Open => w.up.None?
  }

  function Resume(rest: seq<Item>): Flush {
    if rest == [] then Idle else Sending(rest)
  }

  ghost function Next(w: World, step: Step): World
    requires Enabled(w, step)
  {
    match step
    case Enqueue(ev, io) =>
      var p := w.up.value;
      if Suppressed(p, ev) then w
      else
        var it := Item(p.counter + 1, ev);
        w.(up := Some(Enqueued(p, ev)),
           disk := if io then w.disk + [Added(it)] else w.disk,
           ledger := w.ledger + [Mark(it, io, io, true, false, 0, false)])
    case StartFlush => w.(flush := Resume(w.up.value.queue))
    case SendOk =>
      w.(flush := Sent(w.flush.rest[0], w.flush.rest[1..]), ledger := Changed(w.ledger, Confirm(w.flush.rest[0].seqNo)))
    case SendFail => w.(flush := Idle)
    case Remove =>
      w.(up := Some(Unqueued(w.up.value, w.flush.item.seqNo)),
         flush := Removed(w.flush.item, w.flush.rest),
         ledger := Changed(w.ledger, Unqueue(w.flush.item.seqNo)))
    case Tombstone(io) =>
      var (p, disk) := Tombstoned(w.up.value, w.disk, w.flush.item.seqNo, io);
      w.(up := Some(p), disk := disk, flush := Retired(w.flush.rest),
         ledger := if io then Changed(w.ledger, Retire(w.flush.item.seqNo)) else w.ledger)
    case Settle(io) =>
      var (p, disk) := Settled(w.up.value, w.disk, io);
      w.(up := Some(p), disk := disk, flush := Resume(w.flush.rest),
         ledger := if Compacts(w.up.value, io) then Changed(w.ledger, Rewrite) else w.ledger)
    case Crash => w.(up := None, flush := Idle, ledger := Changed(w.ledger, Lose))
    case Open =>
      var (p, disk) := Opened(w.disk);
      w.(up := Some(p), disk := disk, flush := Idle, ledger := Changed(w.ledger, Reload))
  }

  // ------------------------------------------------------------ the invariant

  ghost predicate LiveRising(ledger: seq<Mark>) {
    forall i, j :: 0 <= i < j < |ledger| && Live(ledger[i]) && Live(ledger[j]) ==>
      ledger[i].item.seqNo < ledger[j].item.seqNo
  }

  ghost predicate SafeMark(m: Mark) {
    && (m.durable && !m.confirmed ==> m.onDisk)
    && m.sends <= 1
    && (m.tombstoned ==> m.confirmed && !m.onDisk && !m.queued)
  }

  ghost predicate UpMark(m: Mark, counter: nat) {
    (Live(m) ==> m.item.seqNo <= counter) && (m.onDisk && !m.confirmed ==> m.queued)
  }

  /** A queued event has been sent by this process only if the flush has just done so. */
  ghost predicate FlushMark(m: Mark, f: Flush) {
    match f
    case Sent(it, _) => m.queued ==> if m.item.seqNo == it.seqNo then m.confirmed && m.sends == 1 else m.sends == 0
    case Removed(it, _) => (m.queued ==> m.sends == 0 && m.item.seqNo != it.seqNo) && (m.onDisk && m.item.seqNo == it.seqNo ==> m.confirmed)
    case _ => m.queued ==> m.sends == 0
  }

  ghost predicate GoodMark(m: Mark, counter: nat, f: Flush) {
    SafeMark(m) && UpMark(m, counter) && FlushMark(m, f)
  }

  ghost predicate FlushFits(f: Flush, queue: seq<Item>, counter: nat) {
    match f
    case Idle => true
    case Sending(rest) => rest <= queue
    case Sent(it, rest) => [it] + rest <= queue
    case Removed(it, rest) => rest <= queue && it.seqNo <= counter
    case Retired(rest) => rest <= queue
  }

  ghost predicate Inv(w: World) {
    && LiveRising(w.ledger)
    && Replay(w.disk) == DiskItems(w.ledger)
    && match w.up
       case None => w.flush.Idle? && forall m :: m in w.ledger ==> SafeMark(m) && !m.queued
       case Some(p) =>
         && Shaped(p.window)
         && p.queue == QueuedItems(w.ledger)
         && AllBelow(w.disk, p.counter + 1)
         && FlushFits(w.flush, p.queue, p.counter)
         && forall m :: m in w.ledger ==> GoodMark(m, p.counter, w.flush)
  }

  // ------------------------------------------------------------ views under change

  lemma {:induction false} ViewSnoc(ledger: seq<Mark>, m: Mark)
    ensures DiskItems(ledger + [m]) == DiskItems(ledger) + if m.onDisk then [m.item] else []
    ensures QueuedItems(ledger + [m]) == QueuedItems(ledger) + if m.queued then [m.item] else []
  {
    assert (ledger + [m])[..|ledger|] == ledger;
  }

  lemma {:induction false} ViewsChanged(ledger: seq<Mark>, c: Change)
    ensures DiskItems(Changed(ledger, c)) ==
            match c { case Retire(s) => Excluding(DiskItems(ledger), s) case Rewrite => QueuedItems(ledger) case _ => DiskItems(ledger) }
    ensures QueuedItems(Changed(ledger, c)) ==
            match c { case Unqueue(s) => Excluding(QueuedItems(ledger), s) case Lose => [] case Reload => DiskItems(ledger) case _ => QueuedItems(ledger) }
  {
    if ledger != [] {
      var less, m := ledger[..|ledger| - 1], ledger[|ledger| - 1];
      ViewsChanged(less, c);
      assert ledger == less + [m];
      ChangedSnoc(less, m, c);
      ViewSnoc(less, m);
      match c
      case Retire(s) => ExcludingSnoc(DiskItems(less), m.item, s);
      case Unqueue(s) => ExcludingSnoc(QueuedItems(less), m.item, s);
      case _ =>
    }
  }

  lemma {:induction false} ChangedSnoc(ledger: seq<Mark>, m: Mark, c: Change)
    ensures var after := ChangedMark(m, c);
            && DiskItems(Changed(ledger + [m], c)) == DiskItems(Changed(ledger, c)) + (if after.onDisk then [m.item] else [])
            && QueuedItems(Changed(ledger + [m], c)) == QueuedItems(Changed(ledger, c)) + (if after.queued then [m.item] else [])
  {
    assert Changed(ledger + [m], c) == Changed(ledger, c) + [ChangedMark(m, c)];
    ViewSnoc(Changed(ledger, c), ChangedMark(m, c));
  }

  lemma {:induction false} ViewMembers(ledger: seq<Mark>, it: Item)
    ensures it in DiskItems(ledger) <==> exists m :: m in ledger && m.onDisk && m.item == it
    ensures it in QueuedItems(ledger) <==> exists m :: m in ledger && m.queued && m.item == it
  {
    if ledger != [] {
      var less, m := ledger[..|ledger| - 1], ledger[|ledger| - 1];
      ViewMembers(less, it);
      assert ledger == less + [m];
      ViewSnoc(less, m);
      assert m in ledger && forall x :: x in less ==> x in ledger;
    }
  }

  lemma {:induction false} RisingSnoc(items: seq<Item>, it: Item)
    requires Rising(items) && forall x :: x in items ==> x.seqNo < it.seqNo
    ensures Rising(items + [it])
  {
  }

  lemma {:induction false} ViewsRising(ledger: seq<Mark>)
    requires LiveRising(ledger)
    ensures Rising(DiskItems(ledger)) && Rising(QueuedItems(ledger))
  {
    if ledger != [] {
      var less, m := ledger[..|ledger| - 1], ledger[|ledger| - 1];
      ViewsRising(less);
      assert ledger == less + [m];
      ViewSnoc(less, m);
      forall x | x in DiskItems(less) ensures m.onDisk ==> x.seqNo < m.item.seqNo {
        ViewMembers(less, x);
      }
      forall x | x in QueuedItems(less) ensures m.queued ==> x.seqNo < m.item.seqNo {
        ViewMembers(less, x);
      }
      if m.onDisk { RisingSnoc(DiskItems(less), m.item); }
      if m.queued { RisingSnoc(QueuedItems(less), m.item); }
    }
  }

  lemma {:induction false} ChangedRising(ledger: seq<Mark>, c: Change)
    requires LiveRising(ledger)
    ensures LiveRising(Changed(ledger, c))
  {
    assert forall i :: 0 <= i < |ledger| && Live(Changed(ledger, c)[i]) ==> Live(ledger[i]);
  }

  lemma {:induction false} RemoveFirstRising(queue: seq<Item>, s: nat)
    requires Rising(queue) && queue != [] && queue[0].seqNo == s
    ensures Excluding(queue, s) == queue[1..] == RemoveFirst(queue, s)
  {
    assert queue == [queue[0]] + queue[1..];
    FilterConcat([queue[0]], queue[1..], it => Differs(it, s));
    assert [queue[0]][..0] == [];
    FilterAll(queue[1..], it => Differs(it, s));
  }

  lemma {:induction false} ReplayBelow(disk: seq<Record>, s: nat)
    requires AllBelow(disk, s)
    ensures forall it :: it in Replay(disk) ==> it.seqNo < s
  {
    LoadBelow(disk, s);
    ItemsFrom(Load(disk).order, Load(disk).live);
  }

  lemma {:induction false} ItemsFrom(order: seq<nat>, live: map<nat, Event>)
    ensures forall it :: it in ItemsOf(order, live) ==> it.seqNo in order
  {
    if order != [] {
      ItemsFrom(order[..|order| - 1], live);
      assert order == order[..|order| - 1] + [order[|order| - 1]];
    }
  }

  // ------------------------------------------------------------ preservation

  lemma {:induction false} EnqueueKeeps(w: World, ev: Event, io: bool)
    requires Inv(w) && Enabled(w, Enqueue(ev, io))
    ensures Inv(Next(w, Enqueue(ev, io)))
  {
    var p := w.up.value;
    if !Suppressed(p, ev) {
      var it := Item(p.counter + 1, ev);
      var m := Mark(it, io, io, true, false, 0, false);
      EnqueuedShaped(p, ev);
      DiskGrows(w.disk, it, io);
      ViewSnoc(w.ledger, m);
      QueueGrows(w.flush, p.queue, it, p.counter);
      LedgerGrows(w, m);
    }
  }

  lemma {:induction false} EnqueuedShaped(p: Process, ev: Event)
    requires Shaped(p.window)
    ensures Shaped(Enqueued(p, ev).window)
  {
    MarkedRecent(p.window, ev.id);
  }

  lemma {:induction false} DiskGrows(disk: seq<Record>, it: Item, io: bool)
    requires AllBelow(disk, it.seqNo)
    ensures var after := if io then disk + [Added(it)] else disk;
            && Replay(after) == Replay(disk) + (if io then [it] else [])
            && AllBelow(after, it.seqNo + 1)
  {
    if io {
      ReplayAdd(disk, it);
    }
  }

  lemma {:induction false} LedgerGrows(w: World, m: Mark)
    requires Inv(w) && w.up.Some? && m == Mark(m.item, m.durable, m.durable, true, false, 0, false)
    requires m.item.seqNo == w.up.value.counter + 1
    ensures LiveRising(w.ledger + [m])
    ensures forall x :: x in w.ledger + [m] ==> GoodMark(x, w.up.value.counter + 1, w.flush)
  {
    var counter := w.up.value.counter;
    NewMarkFits(w, m);
    forall x | x in w.ledger
      ensures (Live(x) ==> x.item.seqNo <= counter) && GoodMark(x, counter + 1, w.flush)
    {
      assert GoodMark(x, counter, w.flush);
      CounterGrows(x, counter, w.flush);
    }
    NewestLive(w.ledger, m, counter);
  }

  lemma {:induction false} NewestLive(ledger: seq<Mark>, m: Mark, counter: nat)
    requires LiveRising(ledger) && m.item.seqNo == counter + 1
    requires forall x :: x in ledger ==> Live(x) ==> x.item.seqNo <= counter
    ensures LiveRising(ledger + [m])
  {
    assert forall i :: 0 <= i < |ledger| ==> ledger[i] in ledger;
  }

  lemma {:induction false} QueueGrows(f: Flush, queue: seq<Item>, it: Item, counter: nat)
    requires FlushFits(f, queue, counter)
    ensures FlushFits(f, queue + [it], counter + 1)
  {
  }

  lemma {:induction false} CounterGrows(m: Mark, counter: nat, f: Flush)
    requires GoodMark(m, counter, f)
    ensures GoodMark(m, counter + 1, f)
  {
  }

  lemma {:induction false} HeadInLedger(w: World)
    requires Inv(w) && w.up.Some? && w.flush.Sent?
    ensures w.up.value.queue != [] && w.up.value.queue[0] == w.flush.item
    ensures w.flush.rest <= w.up.value.queue[1..]
    ensures w.flush.item.seqNo <= w.up.value.counter
  {
    var it, rest, queue := w.flush.item, w.flush.rest, w.up.value.queue;
    assert queue[0] == ([it] + rest)[0];
    assert rest == ([it] + rest)[1..] <= queue[1..];
    ViewMembers(w.ledger, it);
    var m :| m in w.ledger && m.queued && m.item == it;
    assert GoodMark(m, w.up.value.counter, w.flush);
  }

  lemma {:induction false} NewMarkFits(w: World, m: Mark)
    requires Inv(w) && w.up.Some? && m == Mark(m.item, m.durable, m.durable, true, false, 0, false)
    requires m.item.seqNo == w.up.value.counter + 1
    ensures GoodMark(m, w.up.value.counter + 1, w.flush)
  {
    if w.flush.Sent? {
      HeadInLedger(w);
    }
  }

  /** Every mark of a changed ledger is the change of a mark that was good before. */
  ghost predicate Carries(c: Change, counter: nat, f: Flush, counterAfter: nat, fAfter: Flush) {
    forall m: Mark :: GoodMark(m, counter, f) ==> GoodMark(ChangedMark(m, c), counterAfter, fAfter)
  }

  lemma {:induction false} AllCarried(ledger: seq<Mark>, c: Change, counter: nat, f: Flush, fAfter: Flush)
    requires forall m :: m in ledger ==> GoodMark(m, counter, f)
    requires Carries(c, counter, f, counter, fAfter)
    ensures forall m :: m in Changed(ledger, c) ==> GoodMark(m, counter, fAfter)
  {
    forall x | x in Changed(ledger, c) ensures GoodMark(x, counter, fAfter) {
      var i :| 0 <= i < |ledger| && x == ChangedMark(ledger[i], c);
      assert ledger[i] in ledger;
    }
  }

  lemma {:induction false} SendOkKeeps(w: World)
    requires Inv(w) && Enabled(w, SendOk)
    ensures Inv(Next(w, SendOk))
  {
    var it, rest := w.flush.rest[0], w.flush.rest[1..];
    var c := Confirm(it.seqNo);
    ViewsChanged(w.ledger, c);
    ChangedRising(w.ledger, c);
    assert [it] + rest == w.flush.rest;
    ConfirmCarries(it, rest, w.up.value.counter);
    assert w.flush == Sending([it] + rest);
    AllCarried(w.ledger, c, w.up.value.counter, w.flush, Sent(it, rest));
  }

  lemma {:induction false} ConfirmCarries(it: Item, rest: seq<Item>, counter: nat)
    ensures Carries(Confirm(it.seqNo), counter, Sending([it] + rest), counter, Sent(it, rest))
  {
  }

  lemma {:induction false} RemoveKeeps(w: World)
    requires Inv(w) && Enabled(w, Remove)
    ensures Inv(Next(w, Remove))
  {
    var it, rest := w.flush.item, w.flush.rest;
    var c := Unqueue(it.seqNo);
    ViewsChanged(w.ledger, c);
    ChangedRising(w.ledger, c);
    HeadInLedger(w);
    HeadRemoved(w.ledger, w.up.value.queue);
    AllCarried(w.ledger, c, w.up.value.counter, w.flush, Removed(it, rest));
  }

  lemma {:induction false} HeadRemoved(ledger: seq<Mark>, queue: seq<Item>)
    requires LiveRising(ledger) && queue == QueuedItems(ledger) && queue != []
    ensures Excluding(queue, queue[0].seqNo) == queue[1..] == RemoveFirst(queue, queue[0].seqNo)
  {
    ViewsRising(ledger);
    RemoveFirstRising(queue, queue[0].seqNo);
  }

  lemma {:induction false} TombstoneKeeps(w: World, io: bool)
    requires Inv(w) && Enabled(w, Tombstone(io))
    ensures Inv(Next(w, Tombstone(io)))
  {
    var it, rest, counter := w.flush.item, w.flush.rest, w.up.value.counter;
    if io {
      var c := Retire(it.seqNo);
      ViewsChanged(w.ledger, c);
      ChangedRising(w.ledger, c);
      ReplayDel(w.disk, it.seqNo);
      AllCarried(w.ledger, c, counter, w.flush, Retired(rest));
    } else {
      forall m | m in w.ledger ensures GoodMark(m, counter, Retired(rest)) {
        assert GoodMark(m, counter, w.flush);
      }
    }
  }

  lemma {:induction false} SettleKeeps(w: World, io: bool)
    requires Inv(w) && Enabled(w, Settle(io))
    ensures Inv(Next(w, Settle(io)))
  {
    var p := w.up.value;
    if Compacts(p, io) {
      ViewsChanged(w.ledger, Rewrite);
      ViewsRising(w.ledger);
      ChangedRising(w.ledger, Rewrite);
      ReplayAdds(p.queue);
      AllCarried(w.ledger, Rewrite, p.counter, w.flush, Resume(w.flush.rest));
      QueueBelow(w);
    } else {
      forall m | m in w.ledger ensures GoodMark(m, p.counter, Resume(w.flush.rest)) {
        assert GoodMark(m, p.counter, w.flush);
      }
    }
  }

  lemma {:induction false} QueueBelow(w: World)
    requires Inv(w) && w.up.Some?
    ensures AllBelow(Adds(w.up.value.queue), w.up.value.counter + 1)
  {
    var p := w.up.value;
    forall r | r in Adds(p.queue) ensures r.seqNo < p.counter + 1 {
      var i :| 0 <= i < |p.queue| && r == Added(p.queue[i]);
      ViewMembers(w.ledger, p.queue[i]);
      var m :| m in w.ledger && m.queued && m.item == p.queue[i];
      assert GoodMark(m, p.counter, w.flush);
    }
  }

  lemma {:induction false} CrashKeeps(w: World)
    requires Inv(w) && Enabled(w, Crash)
    ensures Inv(Next(w, Crash))
  {
    ViewsChanged(w.ledger, Lose);
    ChangedRising(w.ledger, Lose);
    forall x | x in Changed(w.ledger, Lose) ensures SafeMark(x) && !x.queued {
      var i :| 0 <= i < |w.ledger| && x == ChangedMark(w.ledger[i], Lose);
      assert w.ledger[i] in w.ledger;
    }
  }

  lemma {:induction false} OpenKeeps(w: World)
    requires Inv(w) && Enabled(w, Open)
    ensures Inv(Next(w, Open))
  {
    var items, counter := Replay(w.disk), MaxSeq(w.disk);
    ViewsChanged(w.ledger, Reload);
    ViewsRising(w.ledger);
    ChangedRising(w.ledger, Reload);
    ReplayAdds(items);
    MaxSeqBounds(w.disk);
    ReplayBelow(w.disk, counter + 1);
    forall x | x in Changed(w.ledger, Reload) ensures GoodMark(x, counter, Idle) {
      var i :| 0 <= i < |w.ledger| && x == ChangedMark(w.ledger[i], Reload);
      assert w.ledger[i] in w.ledger;
      if x.onDisk {
        ViewMembers(w.ledger, x.item);
      }
    }
    forall r | r in Adds(items) ensures r.seqNo < counter + 1 {
      var i :| 0 <= i < |items| && r == Added(items[i]);
      assert items[i] in items;
    }
  }

  /** Starting or abandoning a flush changes nothing but where the flush stands. */
  lemma {:induction false} FlushMoves(w: World, f: Flush)
    requires Inv(w) && w.up.Some? && (w.flush.Idle? || w.flush.Sending?)
    requires f == Idle || (f == Sending(w.up.value.queue))
    ensures Inv(w.(flush := f))
  {
    forall m | m in w.ledger ensures GoodMark(m, w.up.value.counter, f) {
      assert GoodMark(m, w.up.value.counter, w.flush);
    }
  }

  lemma {:induction false} StepKeeps(w: World, step: Step)
    requires Inv(w) && Enabled(w, step)
    ensures Inv(Next(w, step))
  {
    match step
    case Enqueue(ev, io) => EnqueueKeeps(w, ev, io);
    case SendOk => SendOkKeeps(w);
    case Remove => RemoveKeeps(w);
    case Tombstone(io) => TombstoneKeeps(w, io);
    case Settle(io) => SettleKeeps(w, io);
    case Crash => CrashKeeps(w);
    case Open => OpenKeeps(w);
    case StartFlush => FlushMoves(w, Resume(w.up.value.queue));
    case SendFail => FlushMoves(w, Idle);
  }

  // ------------------------------------------------------------ whole runs

  ghost predicate Runs(steps: seq<Step>)
    decreases |steps|, 0
  {
    steps == [] || (Runs(steps[..|steps| - 1]) && Enabled(After(steps[..|steps| - 1]), steps[|steps| - 1]))
  }

  ghost function After(steps: seq<Step>): World
    requires Runs(steps)
    decreases |steps|, 1
  {
    if steps == [] then INITIAL else Next(After(steps[..|steps| - 1]), steps[|steps| - 1])
  }

  lemma {:induction false} RunKeeps(steps: seq<Step>)
    requires Runs(steps)
    ensures Inv(After(steps))
  {
    if steps == [] {
      assert Replay([]) == [];
    } else {
      RunKeeps(steps[..|steps| - 1]);
      StepKeeps(After(steps[..|steps| - 1]), steps[|steps| - 1]);
    }
  }

  lemma {:induction false} SubsequenceSnoc<T>(s: seq<T>, t: seq<T>, x: T)
    requires Subsequence(s, t)
    ensures Subsequence(s, t + [x]) && Subsequence(s + [x], t + [x])
  {
    assert (t + [x])[..|t|] == t && (s + [x])[..|s|] == s;
    if s != [] && s[|s| - 1] == x {
      SubsequenceShorter(s, t);
    }
  }

  lemma {:induction false} OwedOnDisk(ledger: seq<Mark>)
    requires forall m :: m in ledger ==> SafeMark(m)
    ensures Subsequence(OwedItems(ledger), DiskItems(ledger))
  {
    if ledger != [] {
      var less, m := ledger[..|ledger| - 1], ledger[|ledger| - 1];
      assert ledger == less + [m] && m in ledger;
      OwedOnDisk(less);
      ViewSnoc(less, m);
      SubsequenceSnoc(OwedItems(less), DiskItems(less), m.item);
      OwedSnoc(less, m);
    }
  }

  lemma {:induction false} OwedSnoc(ledger: seq<Mark>, m: Mark)
    ensures OwedItems(ledger + [m]) == OwedItems(ledger) + if Owed(m) then [m.item] else []
  {
    assert (ledger + [m])[..|ledger|] == ledger;
  }

  /** Crash safety. In every run, replaying the log gives, in enqueue order, exactly
      the events the log owes: none that was never enqueued, every one whose enqueue
      was reported durable and whose send was never confirmed, and beyond those
      unconfirmed ones only confirmed events whose tombstone was not written. While a
      process is up nothing unconfirmed on disk is missing from its queue, and no event
      is confirmed twice by one process. */
  lemma {:induction false} NothingLost(steps: seq<Step>)
    requires Runs(steps)
    ensures var w := After(steps);
            && Replay(w.disk) == DiskItems(w.ledger)
            && Subsequence(OwedItems(w.ledger), Replay(w.disk))
            && (forall it :: it in Replay(w.disk) ==> exists m :: m in w.ledger && m.item == it && Replayed(m))
            && (w.up.Some? ==> forall m :: m in w.ledger && m.onDisk && !m.confirmed ==> m.item in w.up.value.queue)
            && (forall m :: m in w.ledger ==> m.sends <= 1)
  {
    RunKeeps(steps);
    var w := After(steps);
    forall m | m in w.ledger ensures SafeMark(m) {
      assert w.up.Some? ==> GoodMark(m, w.up.value.counter, w.flush);
    }
    OwedOnDisk(w.ledger);
    forall it | it in Replay(w.disk) ensures exists m :: m in w.ledger && m.item == it && Replayed(m) {
      ViewMembers(w.ledger, it);
      var m :| m in w.ledger && m.onDisk && m.item == it;
      assert SafeMark(m);
    }
    if w.up.Some? {
      forall m | m in w.ledger && m.onDisk && !m.confirmed ensures m.item in w.up.value.queue {
        assert GoodMark(m, w.up.value.counter, w.flush);
        ViewMembers(w.ledger, m.item);
      }
    }
  }

  /** An event the log may replay: not confirmed yet, or confirmed with no tombstone
      written for it. */
  predicate Replayed(m: Mark) {
    m.onDisk && (!m.confirmed || !m.tombstoned)
  }

  /** Neither the log nor the queue holds the `i`-th enqueued event. */
  predicate Gone(w: World, i: nat) {
    i < |w.ledger| && !w.ledger[i].onDisk && !w.ledger[i].queued
  }

  lemma {:induction false} StaysGone(w: World, step: Step, i: nat)
    requires Enabled(w, step) && Gone(w, i)
    ensures Gone(Next(w, step), i)
  {
  }

  /** An event that is gone never comes back, and one whose tombstone was written is
      gone: whatever crashes and restarts follow, the log never replays it again and no
      queue holds it. */
  lemma {:induction false} GoneForGood(steps: seq<Step>, more: seq<Step>, i: nat)
    requires Runs(steps) && Runs(steps + more)
    requires i < |After(steps).ledger| && (Gone(After(steps), i) || After(steps).ledger[i].tombstoned)
    ensures Gone(After(steps + more), i)
  {
    if more == [] {
      assert steps + more == steps;
      RunKeeps(steps);
      var w := After(steps);
      assert w.ledger[i] in w.ledger;
      assert SafeMark(w.ledger[i]) by {
        assert w.up.Some? ==> GoodMark(w.ledger[i], w.up.value.counter, w.flush);
      }
    } else {
      var less := more[..|more| - 1];
      assert (steps + more)[..|steps + more| - 1] == steps + less;
      GoneForGood(steps, less, i);
      StaysGone(After(steps + less), more[|more| - 1], i);
    }
  }

  /** After a crash and a restart the queue is what the log replayed to, so every
      durable unconfirmed event is queued again and events keep their order. */
  lemma {:induction false} RestartRequeues(steps: seq<Step>)
    requires Runs(steps) && After(steps).up.None?
    ensures var w := After(steps);
            var again := Next(w, Open);
            && again.up.value.queue == Replay(w.disk)
            && Subsequence(OwedItems(w.ledger), again.up.value.queue)
            && Replay(again.disk) == Replay(w.disk)
  {
    NothingLost(steps);
    RunKeeps(steps);
    OpenKeeps(After(steps));
    ViewsChanged(After(steps).ledger, Reload);
  }

  // ------------------------------------------------------------ an id queued twice

  ghost predicate Follows(w: World, steps: seq<Step>) {
    Runs(steps) && After(steps) == w
  }

  lemma {:induction false} OneMoreStep(w: World, steps: seq<Step>, step: Step)
    requires Follows(w, steps) && Enabled(w, step)
    ensures Follows(Next(w, step), steps + [step])
  {
    assert (steps + [step])[..|steps|] == steps;
  }

  /** Events enqueued while the log cannot be written. */
  function Unwritten(others: seq<Event>): seq<Step> {
    Map(others, (ev: Event) => Enqueue(ev, false))
  }

  function EventIds(others: seq<Event>): seq<string> {
    Map(others, (ev: Event) => ev.id)
  }

  ghost predicate AfterUnwritten(w: World, a: Event, others: seq<Event>) {
    && w.up.Some? && w.up.value.counter == 1 + |others|
    && w.disk == [Added(Item(1, a))]
    && w.up.value.window == MarkedAll(Cleared(WINDOW), [a.id] + EventIds(others))
  }

  /** A fresh id is none of the ids recorded before, so it is accepted. */
  lemma {:induction false} FreshAccepted(ids: seq<string>, id: string)
    requires id !in ids
    ensures id !in MarkedAll(Cleared(WINDOW), ids).seen
  {
    Reloaded(WINDOW, ids);
  }

  lemma {:induction false} FirstDurable(a: Event) returns (w: World)
    requires a.id != ""
    ensures Follows(w, [Open, Enqueue(a, true)]) && AfterUnwritten(w, a, [])
  {
    assert Replay([]) == [] && IdsOf([]) == [];
    OneMoreStep(INITIAL, [], Open);
    assert [] + [Open] == [Open];
    var w1 := Next(INITIAL, Open);
    FreshAccepted([], a.id);
    assert MarkedAll(Cleared(WINDOW), []) == Cleared(WINDOW);
    OneMoreStep(w1, [Open], Enqueue(a, true));
    assert [Open] + [Enqueue(a, true)] == [Open, Enqueue(a, true)];
    w := Next(w1, Enqueue(a, true));
    assert Adds([]) + [Added(Item(1, a))] == [Added(Item(1, a))];
    MarkedSnoc(Cleared(WINDOW), [], a.id);
    assert [] + [a.id] == [a.id] + EventIds([]);
  }

  lemma {:induction false} OthersUnwritten(a: Event, others: seq<Event>) returns (w: World)
    requires a.id != "" && Distinct([a.id] + EventIds(others)) && "" !in EventIds(others)
    ensures Follows(w, [Open, Enqueue(a, true)] + Unwritten(others)) && AfterUnwritten(w, a, others)
  {
    var head := [Open, Enqueue(a, true)];
    if others == [] {
      w := FirstDurable(a);
      assert head + Unwritten([]) == head;
    } else {
      var less, ev := others[..|others| - 1], others[|others| - 1];
      var ids := [a.id] + EventIds(less);
      LastFresh(a, others);
      var before := OthersUnwritten(a, less);
      FreshAccepted(ids, ev.id);
      OneMoreStep(before, head + Unwritten(less), Enqueue(ev, false));
      assert head + Unwritten(less) + [Enqueue(ev, false)] == head + Unwritten(others);
      MarkedSnoc(Cleared(WINDOW), ids, ev.id);
      w := Next(before, Enqueue(ev, false));
    }
  }

  lemma {:induction false} LastFresh(a: Event, others: seq<Event>)
    requires others != [] && Distinct([a.id] + EventIds(others)) && "" !in EventIds(others)
    ensures var less, ev := others[..|others| - 1], others[|others| - 1];
            var ids := [a.id] + EventIds(less);
            && [a.id] + EventIds(others) == ids + [ev.id]
            && Distinct(ids) && "" !in EventIds(less) && ev.id != "" && ev.id !in ids
  {
    var less, ev := others[..|others| - 1], others[|others| - 1];
    var ids, all := [a.id] + EventIds(less), [a.id] + EventIds(others);
    assert EventIds(others)[|less|] == ev.id && forall i :: 0 <= i < |less| ==> EventIds(others)[i] == EventIds(less)[i];
    assert all == ids + [ev.id] && all[|ids|] == ev.id;
    assert forall i :: 0 <= i < |ids| ==> ids[i] == all[i];
    assert forall x :: x in EventIds(less) ==> x in EventIds(others);
    assert EventIds(others)[|less|] in EventIds(others);
  }

  /** How an id comes to be queued twice less than a window apart: it is logged, a
      window's worth of other events is enqueued while the log cannot be written, it is
      accepted and logged again, and the process crashes. The restart then leaves set
      and ring in disagreement. */
  lemma {:induction false} QueuedTwice(a: Event, others: seq<Event>)
    requires a.id != "" && |others| == WINDOW
    requires Distinct([a.id] + EventIds(others)) && "" !in EventIds(others)
    ensures var steps := [Open, Enqueue(a, true)] + Unwritten(others) + [Enqueue(a, true), Crash, Open];
            && Runs(steps) && After(steps).up.Some?
            && IdsOf(After(steps).up.value.queue) == [a.id, a.id]
            && !Exact(After(steps).up.value.window)
  {
    var head := [Open, Enqueue(a, true)] + Unwritten(others);
    var w := OthersUnwritten(a, others);
    Forgotten(a.id, EventIds(others));
    var w1 := Next(w, Enqueue(a, true));
    var w2 := Next(w1, Crash);
    OneMoreStep(w, head, Enqueue(a, true));
    OneMoreStep(w1, head + [Enqueue(a, true)], Crash);
    OneMoreStep(w2, head + [Enqueue(a, true)] + [Crash], Open);
    assert head + [Enqueue(a, true)] + [Crash] + [Open] == head + [Enqueue(a, true), Crash, Open];
    assert w2.disk == [Added(Item(1, a))] + [Added(Item(2 + |others|, a))];
    ReopenedTwice(w2.disk, Item(1, a), Item(2 + |others|, a));
  }

  lemma {:induction false} ReopenedTwice(disk: seq<Record>, first: Item, second: Item)
    requires disk == [Added(first)] + [Added(second)]
    requires first.seqNo < second.seqNo && first.ev.id == second.ev.id != ""
    ensures var p := Opened(disk).0;
            IdsOf(p.queue) == [first.ev.id, first.ev.id] && Shaped(p.window) && !Exact(p.window)
  {
    TwoAdds(first, second);
    TwoIds(first, second);
    TwiceInexact(WINDOW, first.ev.id);
  }

  lemma {:induction false} TwiceInexact(n: nat, id: string)
    requires n > 1
    ensures !Exact(MarkedAll(Cleared(n), [id, id]))
  {
    ReloadExact(n, [id, id]);
    assert [id, id][0] == [id, id][1];
  }

  lemma {:induction false} Forgotten(id: string, ids: seq<string>)
    requires |ids| == WINDOW && Distinct([id] + ids)
    ensures id !in MarkedAll(Cleared(WINDOW), [id] + ids).seen
  {
    Reloaded(WINDOW, [id] + ids);
    assert Newest([id] + ids, WINDOW) == ids;
    assert forall k :: 0 <= k < |ids| ==> ([id] + ids)[k + 1] == ids[k] && ([id] + ids)[0] == id;
  }

  lemma {:induction false} OneAdd(first: Item)
    ensures Replay([Added(first)]) == [first]
  {
    assert Replay([]) == [];
    ReplayAdd([], first);
    assert [] + [Added(first)] == [Added(first)] && [] + [first] == [first];
  }

  lemma {:induction false} TwoAdds(first: Item, second: Item)
    requires first.seqNo < second.seqNo
    ensures Replay([Added(first)] + [Added(second)]) == [first, second]
  {
    OneAdd(first);
    ReplayAdd([Added(first)], second);
    assert [first] + [second] == [first, second];
  }

  lemma {:induction false} TwoIds(first: Item, second: Item)
    requires first.ev.id != "" && second.ev.id != ""
    ensures IdsOf([first, second]) == [first.ev.id, second.ev.id]
  {
    var items := [first, second];
    assert items[..1] == [first] && [first][..0] == [];
    assert IdsOf([first]) == [first.ev.id];
    assert [first.ev.id] + [second.ev.id] == [first.ev.id, second.ev.id];
  }

  // ------------------------------------------------------------ the object

  /** What the outside world answers for one event of a flush: whether its send is
      confirmed, and whether its tombstone and a compaction reach the disk. */
  datatype Outcome = Outcome(sent: bool, tombstone: bool, compact: bool)

  function Delivered(p: Process, disk: seq<Record>, s: nat, o: Outcome): (Process, seq<Record>) {
    var (q, d) := Tombstoned(Unqueued(p, s), disk, s, o.tombstone);
    Settled(q, d, o.compact)
  }

  /** A flush of `items`, up to the first send that fails. */
  function Flushed(p: Process, disk: seq<Record>, items: seq<Item>, outcomes: seq<Outcome>): (Process, seq<Record>)
    requires |items| == |outcomes|
    decreases |items|
  {
    if items == [] || !outcomes[0].sent then (p, disk)
    else
      var (q, d) := Delivered(p, disk, items[0].seqNo, outcomes[0]);
      Flushed(q, d, items[1..], outcomes[1..])
  }

  class EventOutbox {
    var queue: seq<Item>
    var counter: nat
    const recent: RecentIds
    const log: AppendLog

    function State(): Process
      reads this, recent, recent.ring, log
    {
      Process(queue, counter, recent.Value(), log.dels)
    }

    constructor Open(records: seq<Record>)
      ensures (State(), log.records) == Opened(records)
      ensures fresh(recent) && fresh(recent.ring) && fresh(log)
    {
      var items, maxSeq := LoadOutbox(records);
      recent := new RecentIds();
      log := new AppendLog(Adds(items));
      queue, counter := items, maxSeq;
      new;
      Reseed(items);
    }

    /** Records the ids of the reloaded events in the dedupe window, in order. */
    method Reseed(items: seq<Item>)
      requires recent.Value() == Cleared(WINDOW)
      modifies recent, recent.ring
      ensures recent.Value() == MarkedAll(Cleared(WINDOW), IdsOf(items))
    {
      for i := 0 to |items|
        invariant recent.Value() == MarkedAll(Cleared(WINDOW), IdsOf(items[..i]))
      {
        assert items[..i + 1] == items[..i] + [items[i]];
        ReseededSnoc(Cleared(WINDOW), items[..i], items[i]);
        MarkItem(items[i]);
      }
      assert items[..|items|] == items;
    }

    method MarkItem(it: Item)
      requires Shaped(recent.Value())
      modifies recent, recent.ring
      ensures recent.Value() == MarkedItem(old(recent.Value()), it)
    {
      if it.ev.id != "" {
        recent.MarkSeen(it.ev.id);
      }
    }

    method Enqueue(ev: Event, io: bool) returns (ok: bool)
      requires Shaped(State().window)
      modifies this, recent, recent.ring, log
      ensures ev.id != "" && old(ev.id in recent.seen) ==> ok && State() == old(State()) && log.records == old(log.records)
      ensures ev.id == "" || old(ev.id !in recent.seen) ==>
                && ok == io && State() == Enqueued(old(State()), ev)
                && queue == old(queue) + [Item(old(counter) + 1, ev)]
                && log.records == old(log.records) + if io then [Added(Item(old(counter) + 1, ev))] else []
    {
      if ev.id != "" {
        if ev.id in recent.seen {
          return true;
        }
        recent.MarkSeen(ev.id);
      }
      counter := counter + 1;
      ok := log.AppendAdd(Item(counter, ev), io);
      queue := queue + [Item(counter, ev)];
    }

    method Drop(s: nat)
      modifies this`queue
      ensures queue == RemoveFirst(old(queue), s)
    {
      var i := 0;
      while i < |queue| && queue[i].seqNo != s
        invariant i <= |queue|
        invariant forall k :: 0 <= k < i ==> queue[k].seqNo != s
      {
        i := i + 1;
      }
      FirstRemoved(queue, s, i);
      if i < |queue| {
        queue := queue[..i] + queue[i + 1..];
      }
    }

    method DeleteDelivered(s: nat, o: Outcome)
      modifies this, log
      ensures State() == old(Delivered(State(), log.records, s, o)).0
      ensures log.records == old(Delivered(State(), log.records, s, o)).1
    {
      Drop(s);
      assert State() == old(Unqueued(State(), s));
      var _ := log.AppendDel(s, o.tombstone);
      if log.ShouldCompact() {
        var _ := log.Compact(queue, o.compact);
      }
    }

    /** Sends every event queued at the start, in order, deleting each one only once
        its send is confirmed, and stopping at the first that is not. */
    method Flush(outcomes: seq<Outcome>) returns (ok: bool)
      requires |outcomes| == |queue|
      modifies this, log
      ensures (State(), log.records) == old(Flushed(State(), log.records, queue, outcomes))
      ensures ok <==> forall o :: o in outcomes ==> o.sent
    {
      var snapshot := queue;
      for i := 0 to |snapshot|
        invariant Flushed(State(), log.records, snapshot[i..], outcomes[i..]) == old(Flushed(State(), log.records, queue, outcomes))
        invariant forall k :: 0 <= k < i ==> outcomes[k].sent
      {
        if !outcomes[i].sent {
          assert outcomes[i] in outcomes && outcomes[i..][0] == outcomes[i];
          return false;
        }
        DeleteDelivered(snapshot[i].seqNo, outcomes[i]);
        assert snapshot[i..][1..] == snapshot[i + 1..] && outcomes[i..][1..] == outcomes[i + 1..];
      }
      assert snapshot[|snapshot|..] == [];
      return true;
    }
  }

  lemma {:induction false} IdsSnoc(items: seq<Item>, it: Item)
    ensures IdsOf(items + [it]) == IdsOf(items) + if it.ev.id != "" then [it.ev.id] else []
  {
    assert (items + [it])[..|items|] == items;
  }

  lemma {:induction false} MarkedSnoc(w: Window, ids: seq<string>, id: string)
    requires Shaped(w)
    ensures MarkedAll(w, ids + [id]) == Marked(MarkedAll(w, ids), id)
  {
    assert (ids + [id])[..|ids|] == ids;
  }

  lemma {:induction false} ReseededSnoc(w: Window, items: seq<Item>, it: Item)
    requires Shaped(w)
    ensures MarkedAll(w, IdsOf(items + [it])) == MarkedItem(MarkedAll(w, IdsOf(items)), it)
  {
    IdsSnoc(items, it);
    if it.ev.id != "" {
      MarkedSnoc(w, IdsOf(items), it.ev.id);
    } else {
      assert IdsOf(items) + [] == IdsOf(items);
    }
  }

  // ------------------------------------------------------------ a flush is a run of the machine

  ghost predicate Executes(w: World, steps: seq<Step>)
    decreases |steps|
  {
    steps == [] || (Enabled(w, steps[0]) && Executes(Next(w, steps[0]), steps[1..]))
  }

  ghost function Executed(w: World, steps: seq<Step>): World
    requires Executes(w, steps)
    decreases |steps|
  {
    if steps == [] then w else Executed(Next(w, steps[0]), steps[1..])
  }

  function DeliverySteps(o: Outcome): seq<Step> {
    [SendOk, Remove, Tombstone(o.tombstone), Settle(o.compact)]
  }

  function FlushSteps(n: nat, outcomes: seq<Outcome>): seq<Step>
    requires n == |outcomes|
  {
    if n == 0 then []
    else if !outcomes[0].sent then [SendFail]
    else DeliverySteps(outcomes[0]) + FlushSteps(n - 1, outcomes[1..])
  }

  lemma {:induction false} ExecutedCons(w: World, step: Step, rest: seq<Step>)
    requires Enabled(w, step) && Executes(Next(w, step), rest)
    ensures Executes(w, [step] + rest) && Executed(w, [step] + rest) == Executed(Next(w, step), rest)
  {
    assert ([step] + rest)[1..] == rest;
  }

  lemma {:induction false} ExecutedFour(w: World, a: Step, b: Step, c: Step, d: Step, rest: seq<Step>)
    requires Enabled(w, a) && Enabled(Next(w, a), b) && Enabled(Next(Next(w, a), b), c)
    requires Enabled(Next(Next(Next(w, a), b), c), d)
    requires Executes(Next(Next(Next(Next(w, a), b), c), d), rest)
    ensures Executes(w, [a, b, c, d] + rest)
    ensures Executed(w, [a, b, c, d] + rest) == Executed(Next(Next(Next(Next(w, a), b), c), d), rest)
  {
    ExecutedCons(Next(Next(Next(w, a), b), c), d, rest);
    ExecutedCons(Next(Next(w, a), b), c, [d] + rest);
    ExecutedCons(Next(w, a), b, [c] + ([d] + rest));
    ExecutedCons(w, a, [b] + ([c] + ([d] + rest)));
    assert [a, b, c, d] + rest == [a] + ([b] + ([c] + ([d] + rest)));
  }

  ghost function AfterDelivery(w: World, o: Outcome): (x: World)
    requires w.up.Some? && w.flush.Sending? && w.flush.rest != []
    ensures (x.up, x.flush) == (Some(Delivered(w.up.value, w.disk, w.flush.rest[0].seqNo, o).0), Resume(w.flush.rest[1..]))
    ensures x.disk == Delivered(w.up.value, w.disk, w.flush.rest[0].seqNo, o).1
  {
    Next(Next(Next(Next(w, SendOk), Remove), Tombstone(o.tombstone)), Settle(o.compact))
  }

  lemma {:induction false} OneDelivery(w: World, o: Outcome, rest: seq<Step>)
    requires w.up.Some? && w.flush.Sending? && w.flush.rest != []
    requires Executes(AfterDelivery(w, o), rest)
    ensures Executes(w, DeliverySteps(o) + rest)
    ensures Executed(w, DeliverySteps(o) + rest) == Executed(AfterDelivery(w, o), rest)
  {
    ExecutedFour(w, SendOk, Remove, Tombstone(o.tombstone), Settle(o.compact), rest);
  }

  /** The flush method is a run of the machine: its steps are enabled one after the
      other and end in the state and the log that the method leaves. */
  lemma {:induction false} FlushIsARun(w: World, outcomes: seq<Outcome>)
    requires w.up.Some? && (w.flush.Sending? || w.flush.Idle?)
    requires var items := if w.flush.Sending? then w.flush.rest else []; |outcomes| == |items| && (w.flush.Sending? ==> items != [])
    ensures Executes(w, FlushSteps(|outcomes|, outcomes))
    ensures var items := if w.flush.Sending? then w.flush.rest else [];
            var x := Executed(w, FlushSteps(|outcomes|, outcomes));
            && x.flush == Idle && x.up.Some?
            && (x.up.value, x.disk) == Flushed(w.up.value, w.disk, items, outcomes)
    decreases |outcomes|
  {
    if w.flush.Sending? {
      if outcomes[0].sent {
        FlushIsARun(AfterDelivery(w, outcomes[0]), outcomes[1..]);
        OneDelivery(w, outcomes[0], FlushSteps(|outcomes| - 1, outcomes[1..]));
      } else {
        assert [SendFail][1..] == [];
      }
    }
  }
}
