/** The alert webhook drain: instances reserve due rows under a lease token, post
    outside any lock, and settle the outcome of the rows they still own. Settling is
    one atomic step. */
module Webhook {
  import opened Collections

  const BATCH_SIZE := 20
  const MAX_ATTEMPTS := 8
  const BACKOFF_BASE := 60
  const BACKOFF_CAP := 3600
  const LEASE := 300

  function Pow2(n: nat): (r: nat)
    ensures r >= 1
  {
    if n == 0 then 1 else 2 * Pow2(n - 1)
  }

  /** Seconds until the next try after `attempt` failures. */
  function BackoffSeconds(attempt: int): int {
    Min(BACKOFF_BASE * Pow2(Max(0, attempt - 1)), BACKOFF_CAP)
  }

  lemma {:induction false} Pow2Grows(a: nat, b: nat)
    requires a <= b
    ensures Pow2(a) <= Pow2(b)
    decreases b
  {
    if a < b {
      Pow2Grows(a, b - 1);
    }
  }

  /** Waiting never shortens from one failure to the next, starts at a minute, and is
      an hour from the seventh failure on. */
  lemma {:induction false} BackoffGrows(a: int, b: int)
    requires a <= b
    ensures BACKOFF_BASE <= BackoffSeconds(a) <= BackoffSeconds(b) <= BACKOFF_CAP
    ensures BackoffSeconds(b) == BACKOFF_CAP <==> b >= 7
    ensures b <= 1 ==> BackoffSeconds(b) == BACKOFF_BASE
  {
    Pow2Grows(Max(0, a - 1), Max(0, b - 1));
    assert Pow2(5) == 32 && Pow2(6) == 64 by {
      assert Pow2(3) == 8;
    }
    if b >= 7 {
      Pow2Grows(6, b - 1);
    } else {
      Pow2Grows(Max(0, b - 1), 5);
    }
  }

  // ------------------------------------------------------------ rows

  /** An outbox row: failed attempts so far, when it is next due, whose lease it
      carries; `body` stands for the alert it reports. */
  datatype Row = Row(body: string, attempt: nat, due: int, lease: Option<nat>)

  datatype Snapshot = Snapshot(id: nat, body: string, attempt: nat)

  predicate Owned(rows: map<nat, Row>, token: nat, id: nat) {
    id in rows && rows[id].lease == Some(token)
  }

  function Reserved(rows: map<nat, Row>, picks: set<nat>, token: nat, now: int): map<nat, Row> {
    map id | id in rows :: if id in picks then rows[id].(due := now + LEASE, lease := Some(token)) else rows[id]
  }

  function AfterFailure(r: Row, attempt: nat, now: int): Row {
    r.(attempt := attempt, due := now + BackoffSeconds(attempt))
  }

  /** The attempts a batch was reserved with. */
  function Held(snaps: seq<Snapshot>): map<nat, nat> {
    if snaps == [] then map[]
    else Held(snaps[..|snaps| - 1])[snaps[|snaps| - 1].id := snaps[|snaps| - 1].attempt]
  }

  predicate GivesUp(failed: map<nat, nat>, id: nat) {
    id in failed && failed[id] + 1 >= MAX_ATTEMPTS
  }

  /** What settling leaves: owned rows go when delivered or given up, owned failures
      back off, and rows not owned any more are as they were. */
  function Finalized(rows: map<nat, Row>, token: nat, done: set<nat>, failed: map<nat, nat>, now: int): map<nat, Row> {
    map id | id in rows && !(Owned(rows, token, id) && (id in done || GivesUp(failed, id))) ::
      if Owned(rows, token, id) && id in failed then AfterFailure(rows[id], failed[id] + 1, now) else rows[id]
  }

  // ------------------------------------------------------------ the machine

  datatype End = Delivered | Dropped

  /** What became of a staged row: its owned failures, and how it left. */
  datatype Fate = Fate(failures: nat, end: Option<End>)

  /** `flights` are the batches out for posting, each under its token; row `i` is the
      `i`-th ever staged. */
  datatype World = World(rows: map<nat, Row>, minted: nat, flights: map<nat, map<nat, nat>>, fates: seq<Fate>)

  const INITIAL := World(map[], 0, map[], [])

  datatype Step =
    | Stage(body: string, due: int)
    | Reserve(picks: set<nat>, now: int)
    | Finalize(token: nat, ok: set<nat>, now: int)
    | Lose(token: nat)

  predicate Due(rows: map<nat, Row>, id: nat, now: int) {
    id in rows && rows[id].due <= now
  }

  ghost predicate Enabled(w: World, step: Step) {
    match step
    case Stage(_, _) => true
    case Reserve(picks, now) => 0 < |picks| <= BATCH_SIZE && forall id :: id in picks ==> Due(w.rows, id, now)
    case Finalize(token, _, _) => token in w.flights
    case Lose(token) => token in w.flights
  }

  function Attempts(rows: map<nat, Row>, picks: set<nat>): map<nat, nat> {
    map id | id in picks && id in rows :: rows[id].attempt
  }

  function AfterFate(w: World, token: nat, ok: set<nat>, i: nat): Fate
    requires i < |w.fates| && token in w.flights
  {
    var f := w.fates[i];
    if !Owned(w.rows, token, i) || i !in w.flights[token] then f
    else if i in ok then f.(end := Some(Delivered))
    else Fate(f.failures + 1, if f.failures + 1 >= MAX_ATTEMPTS then Some(Dropped) else None)
  }

  function AfterFates(w: World, token: nat, ok: set<nat>): (r: seq<Fate>)
    requires token in w.flights
    ensures |r| == |w.fates|
    ensures forall i :: 0 <= i < |r| ==> r[i] == AfterFate(w, token, ok, i)
  {
    seq(|w.fates|, i requires 0 <= i < |w.fates| => AfterFate(w, token, ok, i))
  }

  function Next(w: World, step: Step): World
    requires Enabled(w, step)
  {
    match step
    case Stage(body, due) =>
      w.(rows := w.rows[|w.fates| := Row(body, 0, due, None)], fates := w.fates + [Fate(0, None)])
    case Reserve(picks, now) =>
      w.(rows := Reserved(w.rows, picks, w.minted, now), minted := w.minted + 1,
         flights := w.flights[w.minted := Attempts(w.rows, picks)])
    case Finalize(token, ok, now) =>
      var held := w.flights[token];
      World(Finalized(w.rows, token, held.Keys * ok, held - ok, now), w.minted, w.flights - {token}, AfterFates(w, token, ok))
    case Lose(token) => w.(flights := w.flights - {token})
  }

  // ------------------------------------------------------------ the invariant

  /** A row that is still there has failed as often as it says, at most seven times. */
  ghost predicate RowFits(w: World, id: nat)
    requires id in w.rows
  {
    && id < |w.fates| && w.fates[id] == Fate(w.rows[id].attempt, None)
    && w.rows[id].attempt < MAX_ATTEMPTS
    && (w.rows[id].lease.Some? ==> w.rows[id].lease.value < w.minted)
  }

  /** A row that is gone was delivered, or dropped at its eighth failure. */
  ghost predicate GoneFits(f: Fate) {
    && f.end.Some?
    && (f.end.value == Delivered ==> f.failures < MAX_ATTEMPTS)
    && (f.end.value == Dropped ==> f.failures == MAX_ATTEMPTS)
  }

  /** A batch knows the true attempt of every row it still owns. */
  ghost predicate FlightFits(rows: map<nat, Row>, token: nat, held: map<nat, nat>) {
    forall id :: id in held && Owned(rows, token, id) ==> held[id] == rows[id].attempt
  }

  ghost predicate Inv(w: World) {
    && (forall id :: id in w.rows ==> RowFits(w, id))
    && (forall i :: 0 <= i < |w.fates| && i !in w.rows ==> GoneFits(w.fates[i]))
    && (forall t :: t in w.flights ==> t < w.minted && FlightFits(w.rows, t, w.flights[t]))
  }

  // ------------------------------------------------------------ preservation

  lemma {:induction false} StageKeeps(w: World, body: string, due: int)
    requires Inv(w)
    ensures Inv(Next(w, Stage(body, due)))
  {
    var after := Next(w, Stage(body, due));
    forall id | id in w.rows ensures id < |w.fates| {
      assert RowFits(w, id);
    }
    forall id | id in after.rows ensures RowFits(after, id) {
      if id != |w.fates| { assert RowFits(w, id); }
    }
  }

  lemma {:induction false} ReserveKeeps(w: World, picks: set<nat>, now: int)
    requires Inv(w) && Enabled(w, Reserve(picks, now))
    ensures Inv(Next(w, Reserve(picks, now)))
  {
    var after := Next(w, Reserve(picks, now));
    forall id | id in after.rows ensures RowFits(after, id) {
      assert RowFits(w, id);
    }
    forall t | t in after.flights ensures t < after.minted && FlightFits(after.rows, t, after.flights[t]) {
      if t == w.minted {
        forall id | id in after.flights[t] && Owned(after.rows, t, id)
          ensures after.flights[t][id] == after.rows[id].attempt
        {
        }
      } else {
        assert FlightFits(w.rows, t, w.flights[t]);
        forall id | id in w.flights[t] && Owned(after.rows, t, id) ensures Owned(w.rows, t, id) {
        }
      }
    }
  }

  /** How settling treats a row its batch owns. */
  lemma {:induction false} SettledRow(w: World, token: nat, ok: set<nat>, now: int, id: nat)
    requires Inv(w) && token in w.flights && id in w.rows
    ensures var after := Next(w, Finalize(token, ok, now));
            if !Owned(w.rows, token, id) || id !in w.flights[token] then
              id in after.rows && after.rows[id] == w.rows[id] && after.fates[id] == w.fates[id]
            else if id in ok then
              id !in after.rows && after.fates[id] == Fate(w.rows[id].attempt, Some(Delivered))
            else if w.rows[id].attempt + 1 == MAX_ATTEMPTS then
              id !in after.rows && after.fates[id] == Fate(MAX_ATTEMPTS, Some(Dropped))
            else
              id in after.rows && after.rows[id] == AfterFailure(w.rows[id], w.rows[id].attempt + 1, now)
              && after.fates[id] == Fate(w.rows[id].attempt + 1, None)
    ensures id < |w.fates| == |Next(w, Finalize(token, ok, now)).fates|
  {
    assert RowFits(w, id);
    assert FlightFits(w.rows, token, w.flights[token]);
  }

  lemma {:induction false} FinalizeKeeps(w: World, token: nat, ok: set<nat>, now: int)
    requires Inv(w) && Enabled(w, Finalize(token, ok, now))
    ensures Inv(Next(w, Finalize(token, ok, now)))
  {
    var after := Next(w, Finalize(token, ok, now));
    forall id | id in after.rows ensures RowFits(after, id) {
      assert RowFits(w, id);
      SettledRow(w, token, ok, now, id);
    }
    forall i | 0 <= i < |after.fates| && i !in after.rows ensures GoneFits(after.fates[i]) {
      if i in w.rows {
        assert RowFits(w, i);
        SettledRow(w, token, ok, now, i);
      } else {
        assert GoneFits(w.fates[i]);
      }
    }
    forall t | t in after.flights ensures t < after.minted && FlightFits(after.rows, t, after.flights[t]) {
      assert FlightFits(w.rows, t, w.flights[t]);
      OtherFlightFits(w, token, ok, now, t);
    }
  }

  lemma {:induction false} OtherFlightFits(w: World, token: nat, ok: set<nat>, now: int, t: nat)
    requires Inv(w) && token in w.flights && t in w.flights && t != token
    ensures FlightFits(Next(w, Finalize(token, ok, now)).rows, t, w.flights[t])
  {
    var after := Next(w, Finalize(token, ok, now));
    assert FlightFits(w.rows, t, w.flights[t]);
    forall id | id in w.flights[t] && Owned(after.rows, t, id) ensures w.flights[t][id] == after.rows[id].attempt {
      SettledRow(w, token, ok, now, id);
    }
  }

  lemma {:induction false} StepKeeps(w: World, step: Step)
    requires Inv(w) && Enabled(w, step)
    ensures Inv(Next(w, step))
  {
    match step
    case Stage(body, due) => StageKeeps(w, body, due);
    case Reserve(picks, now) => ReserveKeeps(w, picks, now);
    case Finalize(token, ok, now) => FinalizeKeeps(w, token, ok, now);
    case Lose(token) =>
      forall id | id in w.rows ensures RowFits(Next(w, step), id) {
        assert RowFits(w, id);
      }
  }

  // ------------------------------------------------------------ the budget

  function Left(f: Fate): nat {
    if f.end.None? && f.failures < MAX_ATTEMPTS then MAX_ATTEMPTS - f.failures else 0
  }

  /** The failures the staged rows can still absorb: the sum of eight minus attempt. */
  function Budget(fates: seq<Fate>): nat {
    if fates == [] then 0 else Budget(fates[..|fates| - 1]) + Left(fates[|fates| - 1])
  }

  lemma {:induction false} BudgetPointwise(a: seq<Fate>, b: seq<Fate>)
    requires |a| == |b| && forall i :: 0 <= i < |a| ==> Left(b[i]) <= Left(a[i])
    ensures Budget(b) <= Budget(a)
    ensures (exists i :: 0 <= i < |a| && Left(b[i]) < Left(a[i])) ==> Budget(b) < Budget(a)
  {
    if a != [] {
      BudgetPointwise(a[..|a| - 1], b[..|b| - 1]);
      if i :| 0 <= i < |a| && Left(b[i]) < Left(a[i]) {
        assert i < |a| - 1 ==> a[..|a| - 1][i] == a[i] && b[..|b| - 1][i] == b[i];
      }
    }
  }

  ghost predicate OwnsSome(w: World, token: nat)
    requires token in w.flights
  {
    exists id :: id in w.flights[token] && Owned(w.rows, token, id)
  }

  /** Settling a batch that owns a row uses up some of the budget. */
  lemma {:induction false} BudgetFalls(w: World, token: nat, ok: set<nat>, now: int)
    requires Inv(w) && token in w.flights
    ensures var after := Next(w, Finalize(token, ok, now));
            if OwnsSome(w, token) then Budget(after.fates) < Budget(w.fates) else Budget(after.fates) <= Budget(w.fates)
  {
    var after := Next(w, Finalize(token, ok, now));
    forall i | 0 <= i < |w.fates|
      ensures Left(after.fates[i]) <= Left(w.fates[i])
      ensures i in w.flights[token] && Owned(w.rows, token, i) ==> Left(after.fates[i]) < Left(w.fates[i])
    {
      if i in w.rows {
        assert RowFits(w, i);
        SettledRow(w, token, ok, now, i);
      }
    }
    if OwnsSome(w, token) {
      var id :| id in w.flights[token] && Owned(w.rows, token, id);
      assert RowFits(w, id);
    }
    BudgetPointwise(w.fates, after.fates);
  }

  // ------------------------------------------------------------ what a step may do to a row

  /** Only the batch that holds a row's latest token can take the row away or change
      its attempt, and it knows the row's attempt when it does; the row leaves only
      when delivered or at its eighth failure. Settling never adds a row. */
  lemma {:induction false} OnlyTheHolder(w: World, step: Step, id: nat)
    requires Inv(w) && Enabled(w, step) && id in w.rows
    ensures id !in Next(w, step).rows || Next(w, step).rows[id].attempt != w.rows[id].attempt ==>
              && step.Finalize? && Owned(w.rows, step.token, id)
              && id in w.flights[step.token] && w.flights[step.token][id] == w.rows[id].attempt
    ensures id !in Next(w, step).rows ==> id in step.ok || w.rows[id].attempt == MAX_ATTEMPTS - 1
    ensures step.Finalize? ==> Next(w, step).rows.Keys <= w.rows.Keys
    ensures id in Next(w, step).rows && Next(w, step).rows[id].lease != w.rows[id].lease ==>
              step.Reserve? && w.rows[id].due <= step.now
  {
    assert RowFits(w, id);
    if step.Finalize? {
      assert FlightFits(w.rows, step.token, w.flights[step.token]);
      SettledRow(w, step.token, step.ok, step.now, id);
    }
  }

  /** A batch whose rows were all reserved again by others settles nothing. */
  lemma {:induction false} StaleBatchIsIdle(w: World, token: nat, ok: set<nat>, now: int)
    requires Inv(w) && token in w.flights && !OwnsSome(w, token)
    ensures Next(w, Finalize(token, ok, now)).rows == w.rows
    ensures Next(w, Finalize(token, ok, now)).fates == w.fates
  {
  }

  // ------------------------------------------------------------ whole runs

  ghost predicate Runs(steps: seq<Step>)
    decreases |steps|, 0
  {
    steps == [] || (Runs(steps[..|steps| - 1]) && Enabled(After(steps[..|steps| - 1]), steps[|steps| - 1]))
  }

  ghost function After(steps: seq<Step>): World
    requires Runs(steps)
    decreases |steps|, 1
  {
    if steps == [] then INITIAL else Next(After(steps[..|steps| - 1]), steps[|steps| - 1])
  }

  lemma {:induction false} RunKeeps(steps: seq<Step>)
    requires Runs(steps)
    ensures Inv(After(steps))
  {
    if steps != [] {
      RunKeeps(steps[..|steps| - 1]);
      StepKeeps(After(steps[..|steps| - 1]), steps[|steps| - 1]);
    }
  }

  /** How many steps of a run settled a row they owned. */
  ghost function OwnedSettlings(steps: seq<Step>): nat
    requires Runs(steps)
  {
    if steps == [] then 0
    else
      var w, step := After(steps[..|steps| - 1]), steps[|steps| - 1];
      OwnedSettlings(steps[..|steps| - 1]) + if step.Finalize? && OwnsSome(w, step.token) then 1 else 0
  }

  lemma {:induction false} BudgetStep(w: World, step: Step)
    requires Inv(w) && Enabled(w, step)
    ensures Budget(Next(w, step).fates) + (if step.Finalize? && OwnsSome(w, step.token) then 1 else 0)
            <= Budget(w.fates) + MAX_ATTEMPTS * (|Next(w, step).fates| - |w.fates|)
  {
    match step
    case Finalize(token, ok, now) => BudgetFalls(w, token, ok, now);
    case Stage(_, _) => assert Next(w, step).fates[..|w.fates|] == w.fates;
    case _ =>
  }

  lemma {:induction false} BudgetOverRuns(steps: seq<Step>)
    requires Runs(steps)
    ensures OwnedSettlings(steps) + Budget(After(steps).fates) <= MAX_ATTEMPTS * |After(steps).fates|
  {
    if steps != [] {
      var less := steps[..|steps| - 1];
      BudgetOverRuns(less);
      RunKeeps(less);
      BudgetStep(After(less), steps[|steps| - 1]);
    }
  }

  /** Lease safety over whole runs: every staged row is either still there with as many
      failures as its attempt says, at most seven, or was delivered before its eighth
      failure, or was dropped at it; and the number of batches that settled a row is at
      most eight per staged row. */
  lemma {:induction false} EveryRowAccountedFor(steps: seq<Step>)
    requires Runs(steps)
    ensures var w := After(steps);
            && (forall i :: 0 <= i < |w.fates| ==>
                  if i in w.rows then w.fates[i] == Fate(w.rows[i].attempt, None) && w.rows[i].attempt <= 7
                  else w.fates[i] == Fate(8, Some(Dropped)) || (w.fates[i].end == Some(Delivered) && w.fates[i].failures <= 7))
            && (forall id :: id in w.rows ==> id < |w.fates|)
            && OwnedSettlings(steps) <= 8 * |w.fates|
  {
    RunKeeps(steps);
    BudgetOverRuns(steps);
    var w := After(steps);
    forall i | 0 <= i < |w.fates|
      ensures if i in w.rows then w.fates[i] == Fate(w.rows[i].attempt, None) && w.rows[i].attempt <= 7
              else w.fates[i] == Fate(8, Some(Dropped)) || (w.fates[i].end == Some(Delivered) && w.fates[i].failures <= 7)
    {
      if i in w.rows { assert RowFits(w, i); } else { assert GoneFits(w.fates[i]); }
    }
    forall id | id in w.rows ensures id < |w.fates| {
      assert RowFits(w, id);
    }
  }

  // ------------------------------------------------------------ the object

  ghost predicate DistinctIds(snaps: seq<Snapshot>) {
    forall i, j :: 0 <= i < j < |snaps| ==> snaps[i].id != snaps[j].id
  }

  function IdSet(snaps: seq<Snapshot>): set<nat> {
    set s | s in snaps :: s.id
  }

  ghost predicate TakenFrom(snaps: seq<Snapshot>, rows: map<nat, Row>, lockable: set<nat>, now: int) {
    forall s :: s in snaps ==>
      && s.id in lockable && Due(rows, s.id, now)
      && s.body == rows[s.id].body && s.attempt == rows[s.id].attempt
  }

  /** Whatever due row could be locked and was left behind is due no earlier than
      those taken. */
  ghost predicate EarliestTaken(snaps: seq<Snapshot>, rows: map<nat, Row>, lockable: set<nat>, now: int) {
    forall id, s :: id in lockable && Due(rows, id, now) && id !in IdSet(snaps) && s in snaps && s.id in rows ==>
      rows[s.id].due <= rows[id].due
  }

  function AsSet(ids: seq<nat>): set<nat> {
    set id | id in ids
  }

  function PostedRows(snaps: seq<Snapshot>, posted: nat -> bool): seq<Snapshot> {
    Filter(snaps, (s: Snapshot) => posted(s.id))
  }

  function FailedRows(snaps: seq<Snapshot>, posted: nat -> bool): seq<Snapshot> {
    Filter(snaps, (s: Snapshot) => !posted(s.id))
  }

  predicate Hopeless(rows: map<nat, Row>, token: nat, s: Snapshot) {
    Owned(rows, token, s.id) && s.attempt + 1 >= MAX_ATTEMPTS
  }

  function GivenUpRows(rows: map<nat, Row>, token: nat, failed: seq<Snapshot>): seq<Snapshot> {
    Filter(failed, (s: Snapshot) => Hopeless(rows, token, s))
  }

  function PostedOf(ids: set<nat>, posted: nat -> bool): set<nat> {
    set id | id in ids && posted(id)
  }

  predicate Waiting(rows: map<nat, Row>, lockable: set<nat>, now: int, taken: set<nat>, id: nat) {
    id in lockable && Due(rows, id, now) && id !in taken
  }

  /** The due, lockable row not yet taken that was due first, if there is one. */
  method NextDue(rows: map<nat, Row>, lockable: set<nat>, now: int, taken: set<nat>) returns (pick: Option<nat>)
    ensures match pick
            case None => forall id :: !Waiting(rows, lockable, now, taken, id)
            case Some(p) =>
              && Waiting(rows, lockable, now, taken, p)
              && forall id :: Waiting(rows, lockable, now, taken, id) ==> rows[p].due <= rows[id].due
  {
    pick := None;
    var rest := lockable;
    while rest != {}
      invariant rest <= lockable
      invariant match pick
                case None => forall id :: Waiting(rows, lockable, now, taken, id) ==> id in rest
                case Some(p) =>
                  && Waiting(rows, lockable, now, taken, p)
                  && forall id :: Waiting(rows, lockable, now, taken, id) && id !in rest ==> rows[p].due <= rows[id].due
      decreases |rest|
    {
      var id :| id in rest;
      rest := rest - {id};
      if Waiting(rows, lockable, now, taken, id) && (pick.None? || rows[id].due < rows[pick.value].due) {
        pick := Some(id);
      }
    }
  }

  class WebhookOutbox {
    var rows: map<nat, Row>
    var minted: nat

    constructor ()
      ensures rows == map[] && minted == 0
    {
      rows, minted := map[], 0;
    }

    /** Takes up to a batch of the rows that are due, earliest first, skipping those
        another transaction has locked, and leases them under a fresh token. Without
        the drain's own lock it takes nothing. */
    method ReserveDue(now: int, locked: bool, lockable: set<nat>) returns (snaps: seq<Snapshot>, token: Option<nat>)
      modifies this
      ensures DistinctIds(snaps) && |snaps| <= BATCH_SIZE && TakenFrom(snaps, old(rows), lockable, now)
      ensures EarliestTaken(snaps, old(rows), lockable, now)
      ensures locked && |snaps| < BATCH_SIZE ==> forall id :: id in lockable && Due(old(rows), id, now) ==> id in IdSet(snaps)
      ensures !locked ==> snaps == []
      ensures token.Some? <==> snaps != []
      ensures snaps == [] ==> rows == old(rows) && minted == old(minted)
      ensures token.Some? ==>
                && token.value == old(minted) && minted == old(minted) + 1
                && rows == Reserved(old(rows), IdSet(snaps), token.value, now)
    {
      snaps, token := [], None;
      if !locked {
        return;
      }
      snaps := SelectDue(now, lockable);
      if snaps != [] {
        token := Some(minted);
        rows := Reserved(rows, IdSet(snaps), minted, now);
        minted := minted + 1;
      }
    }

    method SelectDue(now: int, lockable: set<nat>) returns (snaps: seq<Snapshot>)
      ensures DistinctIds(snaps) && |snaps| <= BATCH_SIZE && TakenFrom(snaps, rows, lockable, now)
      ensures EarliestTaken(snaps, rows, lockable, now)
      ensures |snaps| < BATCH_SIZE ==> forall id :: id in lockable && Due(rows, id, now) ==> id in IdSet(snaps)
    {
      snaps := [];
      while |snaps| < BATCH_SIZE
        invariant DistinctIds(snaps) && |snaps| <= BATCH_SIZE && TakenFrom(snaps, rows, lockable, now)
        invariant EarliestTaken(snaps, rows, lockable, now)
      {
        var pick := NextDue(rows, lockable, now, IdSet(snaps));
        if pick.None? {
          forall id | id in lockable && Due(rows, id, now) ensures id in IdSet(snaps) {
            assert !Waiting(rows, lockable, now, IdSet(snaps), id);
          }
          return;
        }
        var p := pick.value;
        TakeNext(snaps, Snapshot(p, rows[p].body, rows[p].attempt), rows, lockable, now);
        snaps := snaps + [Snapshot(p, rows[p].body, rows[p].attempt)];
      }
    }

    /** Deletes the delivered rows this token still owns, puts its failures off or, at
        the eighth, gives them up; the given-up ones are returned for their alerts. */
    method Finalize(delivered: seq<nat>, failed: seq<Snapshot>, token: nat, now: int) returns (discarded: seq<Snapshot>)
      requires DistinctIds(failed)
      modifies this`rows
      ensures rows == Finalized(old(rows), token, AsSet(delivered), Held(failed), now)
      ensures discarded == GivenUpRows(old(rows), token, failed)
    {
      var before := rows;
      var done := AsSet(delivered);
      rows := map id | id in rows && !(Owned(rows, token, id) && id in done) :: rows[id];
      discarded := [];
      for i := 0 to |failed|
        invariant rows == PutOff(before, token, done, failed[..i], now)
        invariant discarded == GivenUpRows(before, token, failed[..i])
      {
        assert failed[..i + 1] == failed[..i] + [failed[i]];
        PutOffSnoc(before, token, done, failed[..i], failed[i], now);
        assert failed[..i + 1][..i] == failed[..i];
        var s := failed[i];
        if Owned(before, token, s.id) {
          if s.attempt + 1 >= MAX_ATTEMPTS {
            discarded := discarded + [s];
          } else if s.id in rows {
            rows := rows[s.id := AfterFailure(rows[s.id], s.attempt + 1, now)];
          }
        }
      }
      assert failed[..|failed|] == failed;
      GivenUp(before, token, done, failed, discarded, now);
      rows := map id | id in rows && id !in IdSet(discarded) :: rows[id];
    }

    /** One drain: reserve, post each row, settle. Every row it changed was due; a row
        that was posted or gave up is gone and counted when posted; the others back off
        under this drain's token. */
    method Sweep(enabled: bool, now: int, locked: bool, lockable: set<nat>, posted: nat -> bool, later: int)
      returns (count: nat, ghost taken: set<nat>)
      modifies this
      ensures taken <= lockable && |taken| <= BATCH_SIZE && (!enabled || !locked ==> taken == {})
      ensures forall id :: id in taken ==> Due(old(rows), id, now)
      ensures rows == Swept(old(rows), taken, posted, old(minted), later)
      ensures count == |PostedOf(taken, posted)|
    {
      taken := {};
      SweptNothing(rows, posted, minted, later);
      if !enabled {
        return 0, taken;
      }
      var snaps, token := ReserveDue(now, locked, lockable);
      if token.None? {
        return 0, taken;
      }
      taken := IdSet(snaps);
      DistinctCount(snaps);
      var delivered, failed := Post(snaps, posted);
      PostedParts(snaps, posted, delivered, failed);
      SweptAsFinalized(old(rows), snaps, posted, failed, token.value, now, later);
      var _ := Finalize(delivered, failed, token.value, later);
      count := |delivered|;
    }

    static method Post(snaps: seq<Snapshot>, posted: nat -> bool) returns (delivered: seq<nat>, failed: seq<Snapshot>)
      ensures delivered == Map(PostedRows(snaps, posted), IdOf)
      ensures failed == FailedRows(snaps, posted)
    {
      delivered, failed := [], [];
      for i := 0 to |snaps|
        invariant delivered == Map(PostedRows(snaps[..i], posted), IdOf)
        invariant failed == FailedRows(snaps[..i], posted)
      {
        assert snaps[..i + 1] == snaps[..i] + [snaps[i]] && snaps[..i + 1][..i] == snaps[..i];
        if posted(snaps[i].id) {
          delivered := delivered + [snaps[i].id];
        } else {
          failed := failed + [snaps[i]];
        }
      }
      assert snaps[..|snaps|] == snaps;
    }
  }

  /** What a drain does to the rows it took: the posted and the given-up leave, the
      others carry the drain's token and wait. */
  function Swept(rows: map<nat, Row>, taken: set<nat>, posted: nat -> bool, token: nat, later: int): map<nat, Row> {
    map id | id in rows && !(id in taken && (posted(id) || rows[id].attempt + 1 >= MAX_ATTEMPTS)) ::
      if id in taken then AfterFailure(rows[id], rows[id].attempt + 1, later).(lease := Some(token)) else rows[id]
  }

  lemma {:induction false} SweptNothing(rows: map<nat, Row>, posted: nat -> bool, token: nat, later: int)
    ensures Swept(rows, {}, posted, token, later) == rows
  {
  }

  lemma {:induction false} FilterDistinct(snaps: seq<Snapshot>, keep: Snapshot -> bool)
    requires DistinctIds(snaps)
    ensures DistinctIds(Filter(snaps, keep))
  {
    if snaps != [] {
      var n := |snaps| - 1;
      FilterDistinct(snaps[..n], keep);
      FilterMembers(snaps[..n], keep);
      var front := Filter(snaps[..n], keep);
      forall i | 0 <= i < |front| ensures front[i].id != snaps[n].id {
        assert front[i] in snaps[..n];
      }
    }
  }

  lemma {:induction false} DistinctCount(snaps: seq<Snapshot>)
    requires DistinctIds(snaps)
    ensures |IdSet(snaps)| == |snaps|
  {
    if snaps != [] {
      var n := |snaps| - 1;
      DistinctCount(snaps[..n]);
      assert snaps == snaps[..n] + [snaps[n]];
      assert IdSet(snaps) == IdSet(snaps[..n]) + {snaps[n].id};
      assert snaps[n].id !in IdSet(snaps[..n]);
    }
  }

  lemma {:induction false} MappedIds(snaps: seq<Snapshot>)
    ensures AsSet(Map(snaps, IdOf)) == IdSet(snaps)
  {
    forall id | id in IdSet(snaps) ensures id in AsSet(Map(snaps, IdOf)) {
      var i :| 0 <= i < |snaps| && snaps[i].id == id;
      assert Map(snaps, IdOf)[i] == id;
    }
  }

  /** What posting a batch leaves to settle. */
  lemma {:induction false} PostedParts(snaps: seq<Snapshot>, posted: nat -> bool, delivered: seq<nat>, failed: seq<Snapshot>)
    requires DistinctIds(snaps)
    requires delivered == Map(PostedRows(snaps, posted), IdOf) && failed == FailedRows(snaps, posted)
    ensures DistinctIds(failed)
    ensures AsSet(delivered) == PostedOf(IdSet(snaps), posted)
    ensures |delivered| == |PostedOf(IdSet(snaps), posted)|
  {
    var sent := PostedRows(snaps, posted);
    FilterDistinct(snaps, (s: Snapshot) => posted(s.id));
    FilterDistinct(snaps, (s: Snapshot) => !posted(s.id));
    FilterMembers(snaps, (s: Snapshot) => posted(s.id));
    MappedIds(sent);
    DistinctCount(sent);
    assert IdSet(sent) == PostedOf(IdSet(snaps), posted);
  }

  /** Reserving a batch and settling it at once is what a drain does. */
  lemma {:induction false} SweptAsFinalized(rows: map<nat, Row>, snaps: seq<Snapshot>, posted: nat -> bool, failed: seq<Snapshot>,
                         token: nat, now: int, later: int)
    requires DistinctIds(snaps) && failed == FailedRows(snaps, posted)
    requires forall s :: s in snaps ==> s.id in rows && s.attempt == rows[s.id].attempt
    ensures Swept(rows, IdSet(snaps), posted, token, later) ==
            Finalized(Reserved(rows, IdSet(snaps), token, now), token, PostedOf(IdSet(snaps), posted), Held(failed), later)
  {
    FilterDistinct(snaps, (s: Snapshot) => !posted(s.id));
    FilterMembers(snaps, (s: Snapshot) => !posted(s.id));
    HeldIds(failed);
    forall id ensures id in Held(failed) <==> id in IdSet(snaps) && !posted(id) {
      if id in IdSet(snaps) && !posted(id) {
        var s :| s in snaps && s.id == id;
        assert s in failed;
      }
    }
    SettledAtOnce(rows, IdSet(snaps), posted, Held(failed), token, now, later);
  }

  lemma {:induction false} SettledAtOnce(rows: map<nat, Row>, taken: set<nat>, posted: nat -> bool, held: map<nat, nat>,
                      token: nat, now: int, later: int)
    requires forall id :: id in held <==> id in taken && !posted(id)
    requires forall id :: id in held ==> id in rows && held[id] == rows[id].attempt
    ensures Swept(rows, taken, posted, token, later) ==
            Finalized(Reserved(rows, taken, token, now), token, PostedOf(taken, posted), held, later)
  {
    var mid := Reserved(rows, taken, token, now);
    var a, b := Swept(rows, taken, posted, token, later), Finalized(mid, token, PostedOf(taken, posted), held, later);
    forall id | id in rows ensures (id in a <==> id in b) && (id in a ==> a[id] == b[id]) {
      if id in taken {
        assert Owned(mid, token, id);
      }
    }
  }

  function IdOf(s: Snapshot): nat { s.id }

  lemma {:induction false} TakeNext(snaps: seq<Snapshot>, s: Snapshot, rows: map<nat, Row>, lockable: set<nat>, now: int)
    requires DistinctIds(snaps) && TakenFrom(snaps, rows, lockable, now) && EarliestTaken(snaps, rows, lockable, now)
    requires Waiting(rows, lockable, now, IdSet(snaps), s.id) && s == Snapshot(s.id, rows[s.id].body, rows[s.id].attempt)
    requires forall id :: Waiting(rows, lockable, now, IdSet(snaps), id) ==> rows[s.id].due <= rows[id].due
    ensures DistinctIds(snaps + [s]) && TakenFrom(snaps + [s], rows, lockable, now)
    ensures EarliestTaken(snaps + [s], rows, lockable, now)
  {
    assert forall i :: 0 <= i < |snaps| ==> snaps[i] in snaps && snaps[i].id in IdSet(snaps);
    assert IdSet(snaps + [s]) == IdSet(snaps) + {s.id};
    forall id, x | id in lockable && Due(rows, id, now) && id !in IdSet(snaps + [s]) && x in snaps + [s] && x.id in rows
      ensures rows[x.id].due <= rows[id].due
    {
      assert Waiting(rows, lockable, now, IdSet(snaps), id);
    }
  }

  /** The rows while failures are being put off, before the given-up ones go. */
  function PutOffBy(rows: map<nat, Row>, token: nat, done: set<nat>, failed: map<nat, nat>, now: int): map<nat, Row> {
    map id | id in rows && !(Owned(rows, token, id) && id in done) ::
      if Owned(rows, token, id) && id in failed && !GivesUp(failed, id) then AfterFailure(rows[id], failed[id] + 1, now)
      else rows[id]
  }

  function PutOff(rows: map<nat, Row>, token: nat, done: set<nat>, failed: seq<Snapshot>, now: int): map<nat, Row> {
    PutOffBy(rows, token, done, Held(failed), now)
  }

  lemma {:induction false} PutOffOneMore(rows: map<nat, Row>, token: nat, done: set<nat>, failed: map<nat, nat>, id: nat, attempt: nat, now: int)
    requires id !in failed
    ensures var before, after := PutOffBy(rows, token, done, failed, now), PutOffBy(rows, token, done, failed[id := attempt], now);
            if id in before && Owned(rows, token, id) && attempt + 1 < MAX_ATTEMPTS then
              after == before[id := AfterFailure(before[id], attempt + 1, now)]
            else after == before
  {
  }

  lemma {:induction false} HeldIds(snaps: seq<Snapshot>)
    ensures Held(snaps).Keys == IdSet(snaps)
    ensures DistinctIds(snaps) ==> forall s :: s in snaps ==> Held(snaps)[s.id] == s.attempt
  {
    if snaps != [] {
      var n := |snaps| - 1;
      HeldIds(snaps[..n]);
      assert snaps == snaps[..n] + [snaps[n]];
    }
  }

  lemma {:induction false} PutOffSnoc(rows: map<nat, Row>, token: nat, done: set<nat>, failed: seq<Snapshot>, s: Snapshot, now: int)
    requires DistinctIds(failed + [s])
    ensures var before, after := PutOff(rows, token, done, failed, now), PutOff(rows, token, done, failed + [s], now);
            if s.id in before && Owned(rows, token, s.id) && s.attempt + 1 < MAX_ATTEMPTS then
              after == before[s.id := AfterFailure(before[s.id], s.attempt + 1, now)]
            else after == before
  {
    assert (failed + [s])[..|failed|] == failed;
    assert Held(failed + [s]) == Held(failed)[s.id := s.attempt];
    HeldIds(failed);
    forall i | 0 <= i < |failed| ensures failed[i].id != s.id {
      assert (failed + [s])[i] == failed[i] && (failed + [s])[|failed|] == s;
    }
    PutOffOneMore(rows, token, done, Held(failed), s.id, s.attempt, now);
  }

  /** Removing the given-up rows last is what settling says. */
  lemma {:induction false} GivenUp(rows: map<nat, Row>, token: nat, done: set<nat>, failed: seq<Snapshot>, discarded: seq<Snapshot>, now: int)
    requires DistinctIds(failed)
    requires discarded == GivenUpRows(rows, token, failed)
    ensures Finalized(rows, token, done, Held(failed), now) ==
            map id | id in PutOff(rows, token, done, failed, now) && id !in IdSet(discarded) :: PutOff(rows, token, done, failed, now)[id]
  {
    HeldIds(failed);
    FilterMembers(failed, (s: Snapshot) => Hopeless(rows, token, s));
    forall id ensures id in IdSet(discarded) <==> Owned(rows, token, id) && GivesUp(Held(failed), id) {
      if Owned(rows, token, id) && GivesUp(Held(failed), id) {
        var s :| s in failed && s.id == id;
        assert s in discarded;
      }
    }
  }
}
