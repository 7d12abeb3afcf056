/** The confirmed transport: a send buffer, the one pump that calls the stream's send,
    the teardown that fails what a dead session left behind, and the reconnect loop
    around them, as steps of an interleaving. Only safety is claimed. */
module Transport {
  import opened Collections
  import opened OutboxLog

  datatype Message = EventMessage(ev: Event) | OtherMessage(text: string)

  /** A buffered send; `confirmed` ones carry a channel that waits for the result. */
  datatype Job = Job(id: nat, msg: Message, confirmed: bool)

  datatype Answer = Sent | Failed

  /** What the pump holds: nothing, a job not yet sent, or a job whose send has
      returned but whose waiter has not been told. */
  datatype Hand = Free | Holding(job: Job) | Answered(job: Job, answer: Answer)

  datatype Phase = Away | Connecting | Pumping | TearingDown | Draining | Stopping | Stopped

  /** What the far side sees: a job the pump sent, or a message sent while connecting. */
  datatype Frame = Piped(job: Job) | Plain(msg: Message)

  datatype Settled = Settled(job: Job, answer: Answer)

  datatype Client = Client(
    accepted: seq<Job>,
    buffer: seq<Job>,
    hand: Hand,
    settled: seq<Settled>,
    channels: map<nat, seq<Answer>>,
    wire: seq<Frame>,
    phase: Phase,
    closed: bool)

  const FRESH := Client([], [], Free, [], map[], [], Away, false)

  const BUFFER_SIZE := 64

  datatype Step =
    | Offer(msg: Message, confirmed: bool)
    | Close
    | Connect
    | Direct(msg: Message, ok: bool)
    | ConnectFails
    | StartPump
    | Take
    | StreamSend(ok: bool)
    | Report
    | TearDown
    | PumpGone
    | DrainOne
    | DrainDone
    | RunExits

  /** An offer can still be accepted after a close: a sender that saw the client open
      may find both of its cases ready. The pump, too, may take a job after it. */
  predicate Enabled(c: Client, step: Step) {
    match step
    case Offer(_, _) => |c.buffer| < BUFFER_SIZE
    case Close => true
    case Connect => c.phase == Away
    case Direct(_, _) => c.phase == Connecting
    case ConnectFails => c.phase == Connecting
    case StartPump => c.phase == Connecting
    case Take => (c.phase == Pumping || c.phase == TearingDown) && c.hand == Free && c.buffer != []
    case StreamSend(_) => c.hand.Holding?
    case Report => c.hand.Answered?
    case TearDown => c.phase == Pumping
    case PumpGone => c.phase == TearingDown && c.hand == Free
    case DrainOne => (c.phase == Draining || c.phase == Stopping) && c.buffer != []
    case DrainDone => (c.phase == Draining || c.phase == Stopping) && c.buffer == []
    case RunExits => c.phase == Away
  }

  /** Hands an answer to the waiter, if there is one. */
  function Resolved(c: Client, job: Job, answer: Answer): Client {
    c.(settled := c.settled + [Settled(job, answer)],
       channels := if job.confirmed && job.id in c.channels then c.channels[job.id := c.channels[job.id] + [answer]] else c.channels)
  }

  function Next(c: Client, step: Step): Client
    requires Enabled(c, step)
  {
    match step
    case Offer(msg, confirmed) =>
      var job := Job(|c.accepted|, msg, confirmed);
      c.(accepted := c.accepted + [job], buffer := c.buffer + [job],
         channels := if confirmed then c.channels[job.id := []] else c.channels)
    case Close => c.(closed := true)
    case Connect => c.(phase := Connecting)
    case Direct(msg, ok) => if ok then c.(wire := c.wire + [Plain(msg)]) else c
    case ConnectFails => c.(phase := Away)
    case StartPump => c.(phase := Pumping)
    case Take => c.(hand := Holding(c.buffer[0]), buffer := c.buffer[1..])
    case StreamSend(ok) =>
      c.(hand := Answered(c.hand.job, if ok then Sent else Failed),
         wire := if ok then c.wire + [Piped(c.hand.job)] else c.wire)
    case Report =>
      var after := Resolved(c, c.hand.job, c.hand.answer).(hand := Free);
      if c.hand.answer == Failed then after.(phase := Draining) else after
    case TearDown => c.(phase := TearingDown)
    case PumpGone => c.(phase := Draining)
    case DrainOne => Resolved(c, c.buffer[0], Failed).(buffer := c.buffer[1..])
    case DrainDone => c.(phase := if c.phase == Draining then Away else Stopped)
    case RunExits => c.(phase := Stopping)
  }

  // ------------------------------------------------------------ the invariant

  function JobOf(s: Settled): Job { s.job }

  function InHand(hand: Hand): seq<Job> {
    if hand == Free then [] else [hand.job]
  }

  /** Every accepted job is in exactly one place, and the places, one after the other,
      hold the jobs in the order they were accepted. */
  ghost predicate Conserved(c: Client) {
    c.accepted == Map(c.settled, JobOf) + InHand(c.hand) + c.buffer
  }

  ghost predicate Numbered(jobs: seq<Job>) {
    forall i :: 0 <= i < |jobs| ==> jobs[i].id == i
  }

  /** A waiter's channel holds what its job was settled with, and nothing before. */
  ghost predicate Told(c: Client, i: nat)
    requires i < |c.accepted|
  {
    c.accepted[i].confirmed ==>
      i in c.channels && c.channels[i] == if i < |c.settled| then [c.settled[i].answer] else []
  }

  ghost predicate AllTold(c: Client) {
    forall i :: 0 <= i < |c.accepted| ==> Told(c, i)
  }

  function PipedJobs(wire: seq<Frame>): seq<Job> {
    if wire == [] then []
    else
      var f := wire[|wire| - 1];
      PipedJobs(wire[..|wire| - 1]) + if f.Piped? then [f.job] else []
  }

  function SentJobs(settled: seq<Settled>): seq<Job> {
    if settled == [] then []
    else
      var s := settled[|settled| - 1];
      SentJobs(settled[..|settled| - 1]) + if s.answer == Sent then [s.job] else []
  }

  /** The pump put on the wire exactly the jobs answered with success, in order. */
  ghost predicate OnWire(c: Client) {
    PipedJobs(c.wire) == SentJobs(c.settled) + if c.hand.Answered? && c.hand.answer == Sent then [c.hand.job] else []
  }

  /** Nobody else pulls from the buffer while a drain runs, and only a running pump
      holds a job. */
  ghost predicate OnePuller(c: Client) {
    c.hand != Free ==> c.phase == Pumping || c.phase == TearingDown
  }

  ghost predicate Inv(c: Client) {
    Numbered(c.accepted) && Conserved(c) && AllTold(c) && OnWire(c) && OnePuller(c) && |c.buffer| <= BUFFER_SIZE
  }

  lemma {:induction false} MapSnoc(settled: seq<Settled>, s: Settled)
    ensures Map(settled + [s], JobOf) == Map(settled, JobOf) + [s.job]
  {
  }

  /** Settling the oldest job that is not settled yet. */
  lemma {:induction false} ResolvedTold(c: Client, job: Job, answer: Answer)
    requires Numbered(c.accepted) && AllTold(c) && |c.settled| < |c.accepted| && c.accepted[|c.settled|] == job
    ensures AllTold(Resolved(c, job, answer))
    ensures job.confirmed ==> job.id in c.channels && c.channels[job.id] == []
  {
    assert Told(c, |c.settled|);
    forall i | 0 <= i < |c.accepted| ensures Told(Resolved(c, job, answer), i) {
      assert Told(c, i) && c.accepted[i].id == i;
    }
  }

  lemma {:induction false} OfferKeeps(c: Client, msg: Message, confirmed: bool)
    requires Inv(c) && Enabled(c, Offer(msg, confirmed))
    ensures Inv(Next(c, Offer(msg, confirmed)))
  {
    var after := Next(c, Offer(msg, confirmed));
    forall i | 0 <= i < |after.accepted| ensures Told(after, i) {
      if i < |c.accepted| {
        assert Told(c, i);
      }
    }
  }

  lemma {:induction false} ReportKeeps(c: Client)
    requires Inv(c) && Enabled(c, Report)
    ensures Inv(Next(c, Report))
  {
    var job, answer := c.hand.job, c.hand.answer;
    ResolvedTold(c, job, answer);
    QuietKeeps(Resolved(c, job, answer), Next(c, Report));
    MapSnoc(c.settled, Settled(job, answer));
    assert Map(c.settled, JobOf) + [job] + c.buffer == Map(c.settled, JobOf) + [job] + [] + c.buffer;
    SentSnoc(c.settled, Settled(job, answer));
  }

  lemma {:induction false} SentSnoc(settled: seq<Settled>, s: Settled)
    ensures SentJobs(settled + [s]) == SentJobs(settled) + if s.answer == Sent then [s.job] else []
  {
    assert (settled + [s])[..|settled|] == settled;
  }

  lemma {:induction false} PipedSnoc(wire: seq<Frame>, f: Frame)
    ensures PipedJobs(wire + [f]) == PipedJobs(wire) + if f.Piped? then [f.job] else []
  {
    assert (wire + [f])[..|wire|] == wire;
  }

  lemma {:induction false} DrainOneKeeps(c: Client)
    requires Inv(c) && Enabled(c, DrainOne)
    ensures Inv(Next(c, DrainOne))
  {
    var job := c.buffer[0];
    assert c.buffer == [job] + c.buffer[1..];
    ResolvedTold(c, job, Failed);
    QuietKeeps(Resolved(c, job, Failed), Next(c, DrainOne));
    MapSnoc(c.settled, Settled(job, Failed));
    assert Map(c.settled, JobOf) + [] + c.buffer == Map(c.settled, JobOf) + [job] + [] + c.buffer[1..];
    SentSnoc(c.settled, Settled(job, Failed));
  }

  lemma {:induction false} TakeKeeps(c: Client)
    requires Inv(c) && Enabled(c, Take)
    ensures Inv(Next(c, Take))
  {
    assert c.buffer == [c.buffer[0]] + c.buffer[1..];
    QuietKeeps(c, Next(c, Take));
  }

  /** A step that settles nothing and accepts nothing leaves every waiter as told. */
  lemma {:induction false} QuietKeeps(c: Client, after: Client)
    requires AllTold(c)
    requires after.accepted == c.accepted && after.settled == c.settled && after.channels == c.channels
    ensures AllTold(after)
  {
    forall i | 0 <= i < |c.accepted| ensures Told(after, i) {
      assert Told(c, i);
    }
  }

  lemma {:induction false} StepKeeps(c: Client, step: Step)
    requires Inv(c) && Enabled(c, step)
    ensures Inv(Next(c, step))
  {
    match step
    case Offer(msg, confirmed) => OfferKeeps(c, msg, confirmed);
    case Report => ReportKeeps(c);
    case DrainOne => DrainOneKeeps(c);
    case Take => TakeKeeps(c);
    case StreamSend(ok) =>
      PipedSnoc(c.wire, Piped(c.hand.job));
      QuietKeeps(c, Next(c, step));
    case Direct(msg, ok) =>
      PipedSnoc(c.wire, Plain(msg));
      QuietKeeps(c, Next(c, step));
    case _ => QuietKeeps(c, Next(c, step));
  }

  // ------------------------------------------------------------ whole runs

  ghost predicate Runs(steps: seq<Step>)
    decreases |steps|, 0
  {
    steps == [] || (Runs(steps[..|steps| - 1]) && Enabled(After(steps[..|steps| - 1]), steps[|steps| - 1]))
  }

  ghost function After(steps: seq<Step>): Client
    requires Runs(steps)
    decreases |steps|, 1
  {
    if steps == [] then FRESH else Next(After(steps[..|steps| - 1]), steps[|steps| - 1])
  }

  lemma {:induction false} RunKeeps(steps: seq<Step>)
    requires Runs(steps)
    ensures Inv(After(steps))
  {
    if steps != [] {
      RunKeeps(steps[..|steps| - 1]);
      StepKeeps(After(steps[..|steps| - 1]), steps[|steps| - 1]);
    }
  }

  ghost predicate Rising(jobs: seq<Job>) {
    forall i, j :: 0 <= i < j < |jobs| ==> jobs[i].id < jobs[j].id
  }

  lemma {:induction false} SentRising(settled: seq<Settled>)
    requires Numbered(Map(settled, JobOf))
    ensures Rising(SentJobs(settled))
    ensures forall job :: job in SentJobs(settled) <==> exists i :: 0 <= i < |settled| && settled[i] == Settled(job, Sent)
    ensures forall job :: job in SentJobs(settled) ==> job.id < |settled|
  {
    if settled != [] {
      var n := |settled| - 1;
      var less, s := settled[..n], settled[n];
      assert Map(less, JobOf) == Map(settled, JobOf)[..n];
      SentRising(less);
      assert s.job.id == n by { assert Map(settled, JobOf)[n] == s.job; }
      assert settled == less + [s];
      SentSnoc(less, s);
      forall job | exists i :: 0 <= i < |settled| && settled[i] == Settled(job, Sent)
        ensures job in SentJobs(settled)
      {
        var i :| 0 <= i < |settled| && settled[i] == Settled(job, Sent);
        assert i < n ==> less[i] == settled[i];
      }
      forall job | job in SentJobs(settled) ensures exists i :: 0 <= i < |settled| && settled[i] == Settled(job, Sent) {
        if job in SentJobs(less) {
          var i :| 0 <= i < |less| && less[i] == Settled(job, Sent);
          assert settled[i] == Settled(job, Sent);
        } else {
          assert settled[n] == Settled(job, Sent);
        }
      }
    }
  }

  /** A waiter has one answer once its job is settled and none before, and the answer
      is success exactly if the pump put the job on the wire. */
  ghost predicate AnsweredOnce(c: Client, i: nat)
    requires i < |c.accepted|
  {
    c.accepted[i].confirmed ==>
      && i in c.channels
      && |c.channels[i]| == (if i < |c.settled| then 1 else 0)
      && (i < |c.settled| ==> (c.channels[i] == [Sent] <==> c.accepted[i] in PipedJobs(c.wire)))
  }

  /** Exactly-once confirmation. In every run each accepted job is in exactly one of
      settled, the pump's hand and the buffer, in acceptance order; the pump put jobs
      on the wire at most once and in acceptance order; and every waiter is answered
      at most once, with success exactly for a job on the wire. */
  lemma {:induction false} ExactlyOnce(steps: seq<Step>)
    requires Runs(steps)
    ensures var c := After(steps);
            && c.accepted == Map(c.settled, JobOf) + InHand(c.hand) + c.buffer
            && Rising(PipedJobs(c.wire))
            && forall i :: 0 <= i < |c.accepted| ==> AnsweredOnce(c, i)
  {
    RunKeeps(steps);
    var c := After(steps);
    WireRising(c);
    forall i | 0 <= i < |c.accepted| ensures AnsweredOnce(c, i) {
      WaiterAnswered(c, i);
    }
  }

  lemma {:induction false} WireRising(c: Client)
    requires Inv(c)
    ensures Rising(PipedJobs(c.wire))
  {
    SettledNumbered(c);
    SentRising(c.settled);
  }

  lemma {:induction false} WaiterAnswered(c: Client, i: nat)
    requires Inv(c) && i < |c.accepted|
    ensures AnsweredOnce(c, i)
  {
    assert Told(c, i);
    if i < |c.settled| {
      AnswerOnWire(c, i);
    }
  }

  lemma {:induction false} SettledNumbered(c: Client)
    requires Numbered(c.accepted) && Conserved(c)
    ensures Numbered(Map(c.settled, JobOf))
    ensures c.hand != Free ==> c.hand.job.id == |c.settled|
    ensures forall i :: 0 <= i < |c.settled| ==> c.settled[i].job == c.accepted[i]
  {
    assert forall i :: 0 <= i < |c.settled| ==> Map(c.settled, JobOf)[i] == c.accepted[i];
    assert c.hand != Free ==> c.accepted[|c.settled|] == c.hand.job;
  }

  lemma {:induction false} AnswerOnWire(c: Client, i: nat)
    requires Inv(c) && i < |c.settled|
    ensures c.settled[i].answer == Sent <==> c.accepted[i] in PipedJobs(c.wire)
  {
    SettledNumbered(c);
    SentRising(c.settled);
    assert c.settled[i].answer == Sent ==> c.settled[i] == Settled(c.accepted[i], Sent);
    if c.accepted[i] in PipedJobs(c.wire) {
      assert c.accepted[i].id == i;
      var k :| 0 <= k < |c.settled| && c.settled[k] == Settled(c.accepted[i], Sent);
      assert c.settled[k].job.id == k;
    }
  }

  /** A waiter's channel has room when its answer arrives, so telling never blocks. */
  lemma {:induction false} ReportHasRoom(steps: seq<Step>)
    requires Runs(steps)
    ensures var c := After(steps);
            && (Enabled(c, Report) && c.hand.job.confirmed ==> c.hand.job.id in c.channels && c.channels[c.hand.job.id] == [])
            && (Enabled(c, DrainOne) && c.buffer[0].confirmed ==> c.buffer[0].id in c.channels && c.channels[c.buffer[0].id] == [])
  {
    RunKeeps(steps);
    var c := After(steps);
    if Enabled(c, Report) {
      ResolvedTold(c, c.hand.job, c.hand.answer);
    }
    if Enabled(c, DrainOne) {
      ResolvedTold(c, c.buffer[0], Failed);
    }
  }

  // ------------------------------------------------------------ the object

  /** What one turn of the pump makes of a client. */
  function Pumped(c: Client, ok: bool): Client
    requires Enabled(c, Take)
  {
    Next(Next(Next(c, Take), StreamSend(ok)), Report)
  }

  lemma {:induction false} PumpedKeeps(c: Client, ok: bool)
    requires Inv(c) && Enabled(c, Take)
    ensures Inv(Pumped(c, ok))
  {
    TakeKeeps(c);
    StepKeeps(Next(c, Take), StreamSend(ok));
    ReportKeeps(Next(Next(c, Take), StreamSend(ok)));
  }

  function DrainedOnce(c: Client): Client
    requires c.buffer != []
  {
    Resolved(c, c.buffer[0], Failed).(buffer := c.buffer[1..])
  }

  /** What a drain makes of the buffer: every job fails, oldest first. */
  function Drained(c: Client): Client
    decreases |c.buffer|
  {
    if c.buffer == [] then c else Drained(DrainedOnce(c))
  }

  function Failing(job: Job): Settled { Settled(job, Failed) }

  function AllFailed(jobs: seq<Job>): seq<Settled> {
    Map(jobs, Failing)
  }

  lemma {:induction false} FailedFirst(before: seq<Settled>, jobs: seq<Job>)
    requires jobs != []
    ensures before + AllFailed(jobs) == before + [Settled(jobs[0], Failed)] + AllFailed(jobs[1..])
  {
  }

  /** A drain settles every buffered job with a failure, and leaves none waiting. */
  lemma {:induction false} DrainFailsAll(c: Client)
    ensures Drained(c).buffer == []
    ensures Drained(c).settled == c.settled + AllFailed(c.buffer)
    ensures Drained(c).wire == c.wire && Drained(c).accepted == c.accepted
    decreases |c.buffer|
  {
    if c.buffer == [] {
      assert c.settled + AllFailed(c.buffer) == c.settled;
    } else {
      var next := DrainedOnce(c);
      DrainFailsAll(next);
      FailedFirst(c.settled, c.buffer);
      assert Drained(c) == Drained(next);
    }
  }

  lemma {:induction false} DrainedKeeps(c: Client)
    requires Inv(c) && (c.phase == Draining || c.phase == Stopping)
    ensures Inv(Drained(c))
    decreases |c.buffer|
  {
    if c.buffer != [] {
      DrainOneKeeps(c);
      assert Next(c, DrainOne) == DrainedOnce(c);
      DrainedKeeps(DrainedOnce(c));
    }
  }

  /** After the drain of a teardown nobody is left waiting: every confirmed send that
      was accepted has its one answer. */
  lemma {:induction false} TearDownAnswersAll(c: Client)
    requires Inv(c) && (c.phase == Draining || c.phase == Stopping)
    ensures var after := Drained(c);
            forall i :: 0 <= i < |c.accepted| && c.accepted[i].confirmed ==> i in after.channels && |after.channels[i]| == 1
  {
    DrainedKeeps(c);
    DrainFailsAll(c);
    var after := Drained(c);
    DrainKeepsHand(c);
    NobodyWaits(after);
    forall i | 0 <= i < |c.accepted| && c.accepted[i].confirmed ensures i in after.channels && |after.channels[i]| == 1 {
      WaiterAnswered(after, i);
    }
  }

  lemma {:induction false} NobodyWaits(c: Client)
    requires Conserved(c) && c.hand == Free && c.buffer == []
    ensures |c.settled| == |c.accepted|
  {
    assert |c.accepted| == |Map(c.settled, JobOf)| + |InHand(c.hand)| + |c.buffer|;
  }

  lemma {:induction false} DrainKeepsHand(c: Client)
    ensures Drained(c).hand == c.hand && Drained(c).phase == c.phase
    decreases |c.buffer|
  {
    if c.buffer != [] {
      DrainKeepsHand(DrainedOnce(c));
    }
  }

  class SendQueue {
    var sendCh: seq<Job>
    var closed: bool
    var phase: Phase
    var hand: Hand
    var done: map<nat, seq<Answer>>
    var stream: seq<Frame>
    ghost var accepted: seq<Job>
    ghost var settled: seq<Settled>
    var count: nat

    ghost function View(): Client
      reads this
    {
      Client(accepted, sendCh, hand, settled, done, stream, phase, closed)
    }

    ghost predicate Valid()
      reads this
    {
      count == |accepted| && Inv(View())
    }

    constructor Dial()
      ensures View() == FRESH && Valid()
    {
      sendCh, closed, phase, hand, done, stream := [], false, Away, Free, map[], [];
      accepted, settled, count := [], [], 0;
    }

    /** Returns the waiter's channel, or nothing once the client is closed. A full
        buffer blocks the caller, so the call goes through only when there is room. */
    method SendConfirmed(msg: Message) returns (channel: Option<nat>)
      requires Valid() && (closed || |sendCh| < BUFFER_SIZE)
      modifies this
      ensures Valid()
      ensures old(closed) ==> channel == None && View() == old(View())
      ensures !old(closed) ==> channel == Some(old(|accepted|)) && View() == old(Next(View(), Offer(msg, true)))
    {
      if closed {
        return None;
      }
      OfferKeeps(View(), msg, true);
      done := done[count := []];
      Accept(msg, true);
      return Some(count - 1);
    }

    method Accept(msg: Message, confirmed: bool)
      modifies this`sendCh, this`accepted, this`count
      ensures sendCh == old(sendCh) + [Job(old(count), msg, confirmed)]
      ensures accepted == old(accepted) + [Job(old(count), msg, confirmed)]
      ensures count == old(count) + 1
    {
      var job := Job(count, msg, confirmed);
      sendCh, accepted, count := sendCh + [job], accepted + [job], count + 1;
    }

    /** Never blocks: a full buffer or a closed client drops the message. Once closed,
        `slips` says whether the message got in all the same. */
    method TrySend(msg: Message, slips: bool) returns (ok: bool)
      requires Valid()
      modifies this
      ensures Valid()
      ensures ok <==> (!old(closed) || slips) && old(|sendCh|) < BUFFER_SIZE
      ensures View() == if ok then old(Next(View(), Offer(msg, false))) else old(View())
    {
      if (closed && !slips) || |sendCh| >= BUFFER_SIZE {
        return false;
      }
      OfferKeeps(View(), msg, false);
      Accept(msg, false);
      return true;
    }

    method Resolve(job: Job, answer: Answer)
      modifies this`done, this`settled
      ensures View() == old(Resolved(View(), job, answer))
    {
      if job.confirmed && job.id in done {
        done := done[job.id := done[job.id] + [answer]];
      }
      settled := settled + [Settled(job, answer)];
    }

    /** One turn of the pump: takes the oldest job, sends it, tells its waiter. */
    method PumpOne(ok: bool)
      requires Valid() && phase == Pumping && hand == Free && sendCh != []
      modifies this
      ensures Valid()
      ensures View() == Pumped(old(View()), ok)
    {
      PumpedKeeps(View(), ok);
      Forward(ok);
    }

    method Forward(ok: bool)
      requires phase == Pumping && hand == Free && sendCh != []
      modifies this`sendCh, this`stream, this`done, this`settled, this`phase
      ensures View() == Pumped(old(View()), ok) && count == old(count)
    {
      var job := sendCh[0];
      sendCh := sendCh[1..];
      if ok {
        stream := stream + [Piped(job)];
      }
      Resolve(job, if ok then Sent else Failed);
      if !ok {
        phase := Draining;
      }
    }

    method DrainSendQueue()
      requires Valid() && (phase == Draining || phase == Stopping)
      modifies this`sendCh, this`done, this`settled
      ensures Valid() && sendCh == [] && View() == old(Drained(View()))
    {
      DrainedKeeps(View());
      while sendCh != []
        invariant Drained(View()) == old(Drained(View()))
        decreases |sendCh|
      {
        var job := sendCh[0];
        Resolve(job, Failed);
        sendCh := sendCh[1..];
      }
    }
  }
}
