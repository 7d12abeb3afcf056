/** The outbox on top of the transport: the live drain that waits for a confirmed
    send, the flush a reconnect makes directly on the new stream, and crashes that
    take both down. What is dropped from the log has been on the wire. */
module Delivery {
  import opened Collections
  import opened OutboxLog
  import Box = Outbox
  import Net = Transport

  /** Who holds the flush: nobody yet, a reconnect, or the live drain, which may be
      waiting on the channel of a confirmed send. */
  datatype Flusher = Nobody | Reconnect | Live(waiting: Option<nat>)

  /** `past` is what crashed processes put on the wire. */
  datatype World = World(box: Box.World, net: Net.Client, flusher: Flusher, past: seq<Net.Frame>)

  const INITIAL := World(Box.INITIAL, Net.FRESH, Nobody, [])

  datatype Step =
    | BoxMoves(box: Box.Step)
    | NetMoves(net: Net.Step)
    | BeginReconnectFlush
    | BeginLiveFlush
    | SendDirect(ok: bool)
    | QueueConfirmed
    | Refused
    | Learn
    | Crash
    | Open

  ghost predicate Sending(w: World) {
    w.box.up.Some? && w.box.flush.Sending? && w.box.flush.rest != []
  }

  ghost predicate Enabled(w: World, step: Step) {
    match step
    case BoxMoves(s) => (s.Enqueue? || s.Remove? || s.Tombstone? || s.Settle?) && Box.Enabled(w.box, s)
    case NetMoves(s) =>
      && w.box.up.Some? && Net.Enabled(w.net, s)
      && (s.StartPump? || s.ConnectFails? ==> w.flusher == Reconnect ==> w.box.flush.Idle?)
    case BeginReconnectFlush => w.net.phase == Net.Connecting && Box.Enabled(w.box, Box.StartFlush)
    case BeginLiveFlush => Box.Enabled(w.box, Box.StartFlush)
    case SendDirect(_) => Sending(w) && w.flusher == Reconnect && w.net.phase == Net.Connecting
    case QueueConfirmed =>
      Sending(w) && w.flusher == Live(None) && Net.Enabled(w.net, Net.Offer(EventOf(w), true))
    case Refused => Sending(w) && w.flusher == Live(None) && w.net.closed
    case Learn =>
      && Sending(w) && w.flusher.Live? && w.flusher.waiting.Some?
      && w.flusher.waiting.value in w.net.channels && w.net.channels[w.flusher.waiting.value] != []
    case Crash => w.box.up.Some?
    case Open => w.box.up.None?
  }

  ghost function EventOf(w: World): Net.Message
    requires Sending(w)
  {
    Net.EventMessage(w.box.flush.rest[0].ev)
  }

  ghost function Next(w: World, step: Step): World
    requires Enabled(w, step)
  {
    match step
    case BoxMoves(s) => w.(box := Box.Next(w.box, s))
    case NetMoves(s) => w.(net := Net.Next(w.net, s))
    case BeginReconnectFlush => w.(box := Box.Next(w.box, Box.StartFlush), flusher := Reconnect)
    case BeginLiveFlush => w.(box := Box.Next(w.box, Box.StartFlush), flusher := Live(None))
    case SendDirect(ok) =>
      w.(net := Net.Next(w.net, Net.Direct(EventOf(w), ok)),
         box := Box.Next(w.box, if ok then Box.SendOk else Box.SendFail))
    case QueueConfirmed =>
      w.(net := Net.Next(w.net, Net.Offer(EventOf(w), true)), flusher := Live(Some(|w.net.accepted|)))
    case Refused => w.(box := Box.Next(w.box, Box.SendFail))
    case Learn =>
      w.(box := Box.Next(w.box, if w.net.channels[w.flusher.waiting.value][0] == Net.Sent then Box.SendOk else Box.SendFail),
         flusher := Live(None))
    case Crash => World(Box.Next(w.box, Box.Crash), Net.FRESH, Nobody, w.past + w.net.wire)
    case Open => w.(box := Box.Next(w.box, Box.Open))
  }

  // ------------------------------------------------------------ what was seen

  function MessageOf(f: Net.Frame): Net.Message {
    match f
    case Piped(job) => job.msg
    case Plain(msg) => msg
  }

  ghost predicate Carried(wire: seq<Net.Frame>, ev: Event) {
    exists f :: f in wire && MessageOf(f) == Net.EventMessage(ev)
  }

  ghost function Seen(w: World): seq<Net.Frame> { w.past + w.net.wire }

  ghost predicate ConfirmedSeen(ledger: seq<Box.Mark>, wire: seq<Net.Frame>) {
    forall m :: m in ledger && m.confirmed ==> Carried(wire, m.item.ev)
  }

  /** The drain waits on a confirmed send of the very event it is about to delete. */
  ghost predicate Waits(w: World) {
    w.flusher.Live? && w.flusher.waiting.Some? && w.box.flush.Sending? ==>
      && w.box.flush.rest != []
      && w.flusher.waiting.value < |w.net.accepted|
      && w.net.accepted[w.flusher.waiting.value] ==
         Net.Job(w.flusher.waiting.value, Net.EventMessage(w.box.flush.rest[0].ev), true)
  }

  /** Between two sends the drain waits on nothing. */
  ghost predicate Paused(w: World) {
    w.flusher.Live? && !w.box.flush.Sending? ==> w.flusher.waiting == None
  }

  ghost predicate Inv(w: World) {
    && Box.Inv(w.box) && Net.Inv(w.net)
    && Waits(w) && Paused(w)
    && ConfirmedSeen(w.box.ledger, Seen(w))
  }

  // ------------------------------------------------------------ preservation

  /** The wire only grows. */
  lemma {:induction false} MoreSeen(ledger: seq<Box.Mark>, wire: seq<Net.Frame>, more: seq<Net.Frame>)
    requires ConfirmedSeen(ledger, wire) && forall f :: f in wire ==> f in more
    ensures ConfirmedSeen(ledger, more)
  {
    forall m | m in ledger && m.confirmed ensures Carried(more, m.item.ev) {
      var f :| f in wire && MessageOf(f) == Net.EventMessage(m.item.ev);
      assert f in more;
    }
  }

  lemma {:induction false} NetExtends(c: Net.Client, s: Net.Step)
    requires Net.Enabled(c, s)
    ensures c.wire <= Net.Next(c, s).wire && c.accepted <= Net.Next(c, s).accepted
  {
  }

  /** Only a confirmed send confirms a mark. */
  lemma {:induction false} ChangeConfirms(ledger: seq<Box.Mark>, c: Box.Change, wire: seq<Net.Frame>)
    requires ConfirmedSeen(ledger, wire)
    requires c.Confirm? ==> forall m :: m in ledger && m.queued && m.item.seqNo == c.s ==> Carried(wire, m.item.ev)
    ensures ConfirmedSeen(Box.Changed(ledger, c), wire)
  {
    forall x | x in Box.Changed(ledger, c) && x.confirmed ensures Carried(wire, x.item.ev) {
      var i :| 0 <= i < |ledger| && x == Box.ChangedMark(ledger[i], c);
      assert ledger[i] in ledger;
    }
  }

  lemma {:induction false} BoxConfirms(box: Box.World, s: Box.Step, wire: seq<Net.Frame>)
    requires Box.Enabled(box, s) && !s.SendOk? && ConfirmedSeen(box.ledger, wire)
    ensures ConfirmedSeen(Box.Next(box, s).ledger, wire)
  {
    match s
    case Remove => ChangeConfirms(box.ledger, Box.Unqueue(box.flush.item.seqNo), wire);
    case Tombstone(io) => ChangeConfirms(box.ledger, Box.Retire(box.flush.item.seqNo), wire);
    case Settle(io) => ChangeConfirms(box.ledger, Box.Rewrite, wire);
    case Crash => ChangeConfirms(box.ledger, Box.Lose, wire);
    case Open => ChangeConfirms(box.ledger, Box.Reload, wire);
    case _ =>
  }

  /** The queued event with the number being confirmed is the event that was sent. */
  lemma {:induction false} SameNumberSameEvent(box: Box.World, m: Box.Mark)
    requires Box.Inv(box) && box.up.Some? && box.flush.Sending? && box.flush.rest != []
    requires m in box.ledger && m.queued && m.item.seqNo == box.flush.rest[0].seqNo
    ensures m.item == box.flush.rest[0]
  {
    var queue := box.up.value.queue;
    Box.ViewsRising(box.ledger);
    Box.ViewMembers(box.ledger, m.item);
    assert queue[0] == box.flush.rest[0];
    var i :| 0 <= i < |queue| && queue[i] == m.item;
    assert i > 0 ==> queue[0].seqNo < queue[i].seqNo;
  }

  lemma {:induction false} SendConfirms(box: Box.World, wire: seq<Net.Frame>)
    requires Box.Inv(box) && Box.Enabled(box, Box.SendOk)
    requires ConfirmedSeen(box.ledger, wire) && Carried(wire, box.flush.rest[0].ev)
    ensures ConfirmedSeen(Box.Next(box, Box.SendOk).ledger, wire)
  {
    var s := box.flush.rest[0].seqNo;
    forall m | m in box.ledger && m.queued && m.item.seqNo == s ensures Carried(wire, m.item.ev) {
      SameNumberSameEvent(box, m);
    }
    ChangeConfirms(box.ledger, Box.Confirm(s), wire);
  }

  lemma {:induction false} PipedOnWire(wire: seq<Net.Frame>, job: Net.Job)
    requires job in Net.PipedJobs(wire)
    ensures Net.Piped(job) in wire
  {
    if job in Net.PipedJobs(wire[..|wire| - 1]) {
      PipedOnWire(wire[..|wire| - 1], job);
    } else {
      assert wire[|wire| - 1] in wire;
    }
  }

  /** A waiter that reads success knows its event is on the wire. */
  lemma {:induction false} SuccessSeen(c: Net.Client, i: nat, ev: Event)
    requires Net.Inv(c) && i < |c.accepted| && c.accepted[i] == Net.Job(i, Net.EventMessage(ev), true)
    requires i in c.channels && c.channels[i] != [] && c.channels[i][0] == Net.Sent
    ensures Carried(c.wire, ev)
  {
    assert Net.Told(c, i);
    Net.AnswerOnWire(c, i);
    PipedOnWire(c.wire, c.accepted[i]);
    assert MessageOf(Net.Piped(c.accepted[i])) == Net.EventMessage(ev);
  }

  lemma {:induction false} CarriedLater(past: seq<Net.Frame>, wire: seq<Net.Frame>, ev: Event)
    requires Carried(wire, ev)
    ensures Carried(past + wire, ev)
  {
    var f :| f in wire && MessageOf(f) == Net.EventMessage(ev);
    assert f in past + wire;
  }

  lemma {:induction false} LearnKeeps(w: World)
    requires Inv(w) && Enabled(w, Learn)
    ensures Inv(Next(w, Learn))
  {
    var i := w.flusher.waiting.value;
    if w.net.channels[i][0] == Net.Sent {
      SuccessSeen(w.net, i, w.box.flush.rest[0].ev);
      CarriedLater(w.past, w.net.wire, w.box.flush.rest[0].ev);
      Box.StepKeeps(w.box, Box.SendOk);
      SendConfirms(w.box, Seen(w));
    } else {
      Box.StepKeeps(w.box, Box.SendFail);
      BoxConfirms(w.box, Box.SendFail, Seen(w));
    }
  }

  lemma {:induction false} SendDirectKeeps(w: World, ok: bool)
    requires Inv(w) && Enabled(w, SendDirect(ok))
    ensures Inv(Next(w, SendDirect(ok)))
  {
    var s := Net.Direct(EventOf(w), ok);
    Net.StepKeeps(w.net, s);
    NetExtends(w.net, s);
    var wire := w.past + Net.Next(w.net, s).wire;
    MoreSeen(w.box.ledger, Seen(w), wire);
    if ok {
      assert Net.Plain(EventOf(w)) in wire && MessageOf(Net.Plain(EventOf(w))) == EventOf(w);
      Box.StepKeeps(w.box, Box.SendOk);
      SendConfirms(w.box, wire);
    } else {
      Box.StepKeeps(w.box, Box.SendFail);
      BoxConfirms(w.box, Box.SendFail, wire);
    }
  }

  lemma {:induction false} NetMoveKeeps(w: World, s: Net.Step, flusher: Flusher)
    requires Inv(w) && Net.Enabled(w.net, s)
    requires Waits(w.(net := Net.Next(w.net, s), flusher := flusher)) && Paused(w.(flusher := flusher))
    ensures Inv(w.(net := Net.Next(w.net, s), flusher := flusher))
  {
    Net.StepKeeps(w.net, s);
    NetExtends(w.net, s);
    MoreSeen(w.box.ledger, Seen(w), w.past + Net.Next(w.net, s).wire);
  }

  lemma {:induction false} BoxMoveKeeps(w: World, s: Box.Step, flusher: Flusher)
    requires Inv(w) && Box.Enabled(w.box, s) && !s.SendOk?
    requires Waits(w.(box := Box.Next(w.box, s), flusher := flusher))
    requires Paused(w.(box := Box.Next(w.box, s), flusher := flusher))
    ensures Inv(w.(box := Box.Next(w.box, s), flusher := flusher))
  {
    Box.StepKeeps(w.box, s);
    BoxConfirms(w.box, s, Seen(w));
  }

  lemma {:induction false} CrashKeeps(w: World)
    requires Inv(w) && Enabled(w, Crash)
    ensures Inv(Next(w, Crash))
  {
    Box.StepKeeps(w.box, Box.Crash);
    BoxConfirms(w.box, Box.Crash, Seen(w));
    assert Seen(w) + [] == Seen(w);
  }

  lemma {:induction false} StepKeeps(w: World, step: Step)
    requires Inv(w) && Enabled(w, step)
    ensures Inv(Next(w, step))
  {
    match step
    case BoxMoves(s) => BoxMoveKeeps(w, s, w.flusher);
    case NetMoves(s) =>
      NetExtends(w.net, s);
      NetMoveKeeps(w, s, w.flusher);
    case BeginReconnectFlush => BoxMoveKeeps(w, Box.StartFlush, Reconnect);
    case BeginLiveFlush => BoxMoveKeeps(w, Box.StartFlush, Live(None));
    case SendDirect(ok) => SendDirectKeeps(w, ok);
    case QueueConfirmed => NetMoveKeeps(w, Net.Offer(EventOf(w), true), Live(Some(|w.net.accepted|)));
    case Refused => BoxMoveKeeps(w, Box.SendFail, w.flusher);
    case Learn => LearnKeeps(w);
    case Crash => CrashKeeps(w);
    case Open => BoxMoveKeeps(w, Box.Open, w.flusher);
  }

  // ------------------------------------------------------------ whole runs

  ghost predicate Runs(steps: seq<Step>)
    decreases |steps|, 0
  {
    steps == [] || (Runs(steps[..|steps| - 1]) && Enabled(After(steps[..|steps| - 1]), steps[|steps| - 1]))
  }

  ghost function After(steps: seq<Step>): World
    requires Runs(steps)
    decreases |steps|, 1
  {
    if steps == [] then INITIAL else Next(After(steps[..|steps| - 1]), steps[|steps| - 1])
  }

  lemma {:induction false} RunKeeps(steps: seq<Step>)
    requires Runs(steps)
    ensures Inv(After(steps))
  {
    if steps == [] {
      assert Replay([]) == [];
    } else {
      RunKeeps(steps[..|steps| - 1]);
      StepKeeps(After(steps[..|steps| - 1]), steps[|steps| - 1]);
    }
  }

  /** End to end, over every run with crashes and reconnects: an event whose send was
      confirmed is on the wire; an event whose enqueue was reported durable is on the
      wire or comes back when the log is replayed; and no process confirms an event
      twice. */
  lemma {:induction false} OnTheWireOrOnDisk(steps: seq<Step>)
    requires Runs(steps)
    ensures var w := After(steps);
            forall m :: m in w.box.ledger ==>
              && (m.confirmed ==> Carried(Seen(w), m.item.ev))
              && (m.durable ==> Carried(Seen(w), m.item.ev) || m.item in Replay(w.box.disk))
              && m.sends <= 1
  {
    RunKeeps(steps);
    var w := After(steps);
    forall m | m in w.box.ledger
      ensures m.confirmed ==> Carried(Seen(w), m.item.ev)
      ensures m.durable ==> Carried(Seen(w), m.item.ev) || m.item in Replay(w.box.disk)
      ensures m.sends <= 1
    {
      assert w.box.up.Some? ==> Box.GoodMark(m, w.box.up.value.counter, w.box.flush);
      assert Box.SafeMark(m);
      if m.onDisk {
        Box.ViewMembers(w.box.ledger, m.item);
      }
    }
  }

  /** The step the outbox itself takes, if any. */
  ghost function BoxPart(w: World, step: Step): Option<Box.Step>
    requires Enabled(w, step)
  {
    match step
    case BoxMoves(s) => Some(s)
    case NetMoves(_) => None
    case BeginReconnectFlush => Some(Box.StartFlush)
    case BeginLiveFlush => Some(Box.StartFlush)
    case SendDirect(ok) => Some(if ok then Box.SendOk else Box.SendFail)
    case QueueConfirmed => None
    case Refused => Some(Box.SendFail)
    case Learn => Some(if w.net.channels[w.flusher.waiting.value][0] == Net.Sent then Box.SendOk else Box.SendFail)
    case Crash => Some(Box.Crash)
    case Open => Some(Box.Open)
  }

  lemma {:induction false} BoxMoved(w: World, step: Step)
    requires Enabled(w, step)
    ensures match BoxPart(w, step)
            case None => Next(w, step).box == w.box
            case Some(s) => Box.Enabled(w.box, s) && Next(w, step).box == Box.Next(w.box, s) && (s == Box.Crash <==> step == Crash)
  {
  }

  lemma {:induction false} BoxDropsConfirmed(box: Box.World, s: Box.Step, i: nat)
    requires Box.Inv(box) && Box.Enabled(box, s) && i < |box.ledger|
    requires var m, x := box.ledger[i], Box.Next(box, s).ledger[i];
             (m.onDisk && !x.onDisk) || (m.queued && !x.queued && s != Box.Crash)
    ensures box.ledger[i].confirmed
  {
    var m := box.ledger[i];
    assert m in box.ledger;
    assert box.up.Some? ==> Box.GoodMark(m, box.up.value.counter, box.flush);
  }

  /** A single step takes an event off the disk, or out of the queue of a process that
      goes on running, only if its send was confirmed and it is on the wire. */
  lemma {:induction false} DroppedOnlyOnceSeen(steps: seq<Step>, step: Step, i: nat)
    requires Runs(steps) && Enabled(After(steps), step) && i < |After(steps).box.ledger|
    ensures i < |Next(After(steps), step).box.ledger|
    ensures var m, x := After(steps).box.ledger[i], Next(After(steps), step).box.ledger[i];
            (m.onDisk && !x.onDisk) || (m.queued && !x.queued && step != Crash) ==>
              m.confirmed && Carried(Seen(After(steps)), m.item.ev)
  {
    RunKeeps(steps);
    var w := After(steps);
    assert w.box.ledger[i] in w.box.ledger;
    BoxMoved(w, step);
    if BoxPart(w, step).Some? {
      var s := BoxPart(w, step).value;
      var m, x := w.box.ledger[i], Box.Next(w.box, s).ledger[i];
      if (m.onDisk && !x.onDisk) || (m.queued && !x.queued && s != Box.Crash) {
        BoxDropsConfirmed(w.box, s, i);
      }
    }
  }
}
