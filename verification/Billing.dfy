/** The billing sweep: a watermark over UTC days that survives clock steps, a purge
    mark that retention leaves behind, and insert-once billing events. Retention runs
    as one atomic step. Times are seconds. */
module Billing {
  import opened Collections
  import opened BillingDay

  // ------------------------------------------------------------ days

  const DAY := 86400

  predicate Aligned(t: int) { t % 86400 == 0 }

  function FloorDay(t: int): (r: int)
    ensures Aligned(r) && r <= t < r + DAY
  {
    t - t % 86400
  }

  function CeilDay(t: int): (r: int)
    ensures Aligned(r) && t <= r < t + DAY
  {
    if FloorDay(t) == t then t else FloorDay(t) + DAY
  }

  lemma {:induction false} NextDayAligned(t: int)
    requires Aligned(t)
    ensures Aligned(t + DAY)
  {
  }

  lemma {:induction false} AlignedGap(a: int, b: int)
    requires Aligned(a) && Aligned(b) && a < b
    ensures a + DAY <= b
  {
  }

  // ------------------------------------------------------------ the database

  datatype Snapshot = Snapshot(id: nat, tenant: nat, server: nat, usage: bool, at: int, report: Report)

  datatype Kind = Daily | Void | Reagg
  datatype Key = Key(tenant: nat, kind: Kind, start: int)
  datatype Payload = Usage(agg: Aggregate) | Reversal(voids: Key, voided: Payload)
  datatype Status = Pending | Exported
  datatype Event = Event(payload: Payload, status: Status)

  datatype Db = Db(ledger: seq<Snapshot>, cursor: Option<int>, purge: Option<int>, events: map<Key, Event>)

  const EMPTY := Db([], None, None, map[])

  predicate InDay(s: Snapshot, day: int) { s.usage && day <= s.at < day + DAY }

  predicate InTenantDay(s: Snapshot, tenant: nat, day: int) { s.tenant == tenant && InDay(s, day) }

  function RowOf(s: Snapshot): Row { Row(s.report, s.server) }

  /** A tenant's usage rows of one day. */
  function DayRows(ledger: seq<Snapshot>, tenant: nat, day: int): seq<Row> {
    Map(Filter(ledger, (s: Snapshot) => InTenantDay(s, tenant, day)), RowOf)
  }

  function DayAggregate(ledger: seq<Snapshot>, tenant: nat, day: int): Aggregate {
    AggregateOf(DayRows(ledger, tenant, day))
  }

  function TenantsOn(ledger: seq<Snapshot>, day: int): set<nat> {
    set s | s in ledger && InDay(s, day) :: s.tenant
  }

  predicate Bills(ledger: seq<Snapshot>, tenant: nat, day: int) {
    tenant in TenantsOn(ledger, day) && DayAggregate(ledger, tenant, day).snapshots > 0
  }

  /** One event per tenant with at least one well-formed snapshot that day. */
  function DayEvents(ledger: seq<Snapshot>, day: int): map<Key, Event> {
    map t | t in TenantsOn(ledger, day) && Bills(ledger, t, day) ::
      Key(t, Daily, day) := Event(Usage(DayAggregate(ledger, t, day)), Pending)
  }

  /** What a function of days gives, from one midnight up to another. */
  function Gathered(of: int -> map<Key, Event>, start: int, end: int): map<Key, Event>
    decreases end - start
  {
    if start >= end then map[] else of(start) + Gathered(of, start + DAY, end)
  }

  function EventsBetween(ledger: seq<Snapshot>, start: int, end: int): map<Key, Event> {
    Gathered(day => DayEvents(ledger, day), start, end)
  }

  /** Rows that are already there win. */
  function InsertNew(events: map<Key, Event>, incoming: map<Key, Event>): map<Key, Event> {
    incoming + events
  }

  function FirstUsage(ledger: seq<Snapshot>): Option<int> {
    if ledger == [] then None
    else
      var first, s := FirstUsage(ledger[..|ledger| - 1]), ledger[|ledger| - 1];
      if s.usage && (first.None? || s.at < first.value) then Some(s.at) else first
  }

  function StartOf(db: Db): Option<int> {
    if db.cursor.Some? then db.cursor
    else
      var first := FirstUsage(db.ledger);
      if first.None? then None else Some(FloorDay(first.value))
  }

  function RewindTo(db: Db, closed: int): int {
    if db.purge.Some? && db.purge.value > closed then db.purge.value else closed
  }

  /** A sweep whose newest closed day ends at `closed`. */
  function Swept(db: Db, closed: int): Db {
    var start := StartOf(db);
    if start.None? then db
    else if start.value > closed then db.(cursor := Some(RewindTo(db, closed)))
    else if start.value == closed then db
    else db.(events := InsertNew(db.events, EventsBetween(db.ledger, start.value, closed)), cursor := Some(closed))
  }

  /** The newest midnight that lies at least the grace period back. */
  function ClosedEnd(now: int, grace: int): (r: int)
    ensures Aligned(r) && r <= now - grace < r + DAY
  {
    FloorDay(now - grace)
  }

  // ------------------------------------------------------------ which days are billed

  lemma {:induction false} DayEventsIs(ledger: seq<Snapshot>, day: int, key: Key)
    ensures key in DayEvents(ledger, day) <==> key.kind == Daily && key.start == day && Bills(ledger, key.tenant, day)
    ensures key in DayEvents(ledger, day) ==> DayEvents(ledger, day)[key] == BilledEvent(ledger, key)
  {
  }

  function BilledEvent(ledger: seq<Snapshot>, key: Key): Event {
    Event(Usage(DayAggregate(ledger, key.tenant, key.start)), Pending)
  }

  predicate BilledKey(ledger: seq<Snapshot>, start: int, end: int, key: Key) {
    key.kind == Daily && Aligned(key.start) && start <= key.start < end && Bills(ledger, key.tenant, key.start)
  }

  lemma {:induction false} GatheredIs(of: int -> map<Key, Event>, start: int, end: int, key: Key)
    requires Aligned(start) && Aligned(end)
    requires forall day :: key in of(day) ==> day == key.start
    ensures key in Gathered(of, start, end) <==> Aligned(key.start) && start <= key.start < end && key in of(key.start)
    ensures key in Gathered(of, start, end) ==> Gathered(of, start, end)[key] == of(key.start)[key]
    decreases end - start
  {
    if start < end {
      NextDayAligned(start);
      GatheredIs(of, start + DAY, end, key);
      if Aligned(key.start) && start < key.start {
        AlignedGap(start, key.start);
      }
    }
  }

  lemma {:induction false} BetweenIs(ledger: seq<Snapshot>, start: int, end: int, key: Key)
    requires Aligned(start) && Aligned(end)
    ensures key in EventsBetween(ledger, start, end) <==> BilledKey(ledger, start, end, key)
    ensures key in EventsBetween(ledger, start, end) ==> EventsBetween(ledger, start, end)[key] == BilledEvent(ledger, key)
  {
    forall day ensures key in DayEvents(ledger, day) ==> day == key.start {
      DayEventsIs(ledger, day, key);
    }
    DayEventsIs(ledger, key.start, key);
    GatheredIs(day => DayEvents(ledger, day), start, end, key);
  }

  /** Billing up to one closed day and on to a later one is billing straight through. */
  lemma {:induction false} BetweenSplits(ledger: seq<Snapshot>, start: int, mid: int, end: int)
    requires Aligned(start) && Aligned(mid) && Aligned(end) && start <= mid <= end
    ensures EventsBetween(ledger, mid, end) + EventsBetween(ledger, start, mid) == EventsBetween(ledger, start, end)
  {
    var whole, first, second :=
      EventsBetween(ledger, start, end), EventsBetween(ledger, start, mid), EventsBetween(ledger, mid, end);
    forall key
      ensures key in whole <==> key in first || key in second
      ensures key in first ==> key in whole && whole[key] == first[key]
      ensures key in second ==> key in whole && whole[key] == second[key]
    {
      BetweenIs(ledger, start, end, key);
      BetweenIs(ledger, start, mid, key);
      BetweenIs(ledger, mid, end, key);
    }
    MapsMerge(whole, first, second);
  }

  lemma {:induction false} MapsMerge<K, V>(whole: map<K, V>, first: map<K, V>, second: map<K, V>)
    requires forall k :: k in whole <==> k in first || k in second
    requires forall k :: k in first ==> whole[k] == first[k]
    requires forall k :: k in second ==> whole[k] == second[k]
    ensures second + first == whole
  {
  }

  lemma {:induction false} MapsAssociate<K, V>(a: map<K, V>, b: map<K, V>, c: map<K, V>)
    ensures a + (b + c) == (a + b) + c
  {
  }

  ghost predicate Nondecreasing(ends: seq<int>) {
    forall i, j :: 0 <= i < j < |ends| ==> ends[i] <= ends[j]
  }

  function Chain(db: Db, ends: seq<int>): Db {
    if ends == [] then db else Swept(Chain(db, ends[..|ends| - 1]), ends[|ends| - 1])
  }

  ghost predicate AlignedDb(db: Db) {
    (db.cursor.Some? ==> Aligned(db.cursor.value)) && (db.purge.Some? ==> Aligned(db.purge.value))
  }

  lemma {:induction false} SweptTwice(db: Db, mid: int, end: int)
    requires AlignedDb(db) && Aligned(mid) && Aligned(end) && mid <= end
    requires StartOf(db).Some? ==> StartOf(db).value <= mid
    ensures Swept(Swept(db, mid), end) == Swept(db, end)
  {
    if StartOf(db).Some? && StartOf(db).value < mid < end {
      BetweenSplits(db.ledger, StartOf(db).value, mid, end);
      MapsAssociate(EventsBetween(db.ledger, mid, end), EventsBetween(db.ledger, StartOf(db).value, mid), db.events);
    }
  }

  /** Batch independence: over a fixed ledger, sweeping through any chain of closed
      days ends as one sweep straight to the last, as long as the clock does not run
      backwards below where the watermark was. */
  lemma {:induction false} BatchIndependent(db: Db, ends: seq<int>, last: int)
    requires AlignedDb(db) && Aligned(last)
    requires Nondecreasing(ends + [last]) && forall e :: e in ends ==> Aligned(e)
    requires StartOf(db).Some? && ends != [] ==> StartOf(db).value <= ends[0]
    ensures Swept(Chain(db, ends), last) == Swept(db, last)
  {
    if ends != [] {
      var n := |ends| - 1;
      var less, mid := ends[..n], ends[n];
      assert forall i :: 0 <= i < |less + [mid]| ==> (less + [mid])[i] == (ends + [last])[i];
      assert mid in ends && (ends + [last])[n] == mid && (ends + [last])[n + 1] == last;
      assert (ends + [last])[0] == ends[0];
      BatchIndependent(db, less, mid);
      SweptTwice(db, mid, last);
    }
  }

  /** A sweep that advances bills exactly the tenant-days with a well-formed snapshot
      between the watermark and the newest closed day, and leaves older events alone. */
  lemma {:induction false} OneEventPerTenantDay(db: Db, closed: int, key: Key)
    requires AlignedDb(db) && Aligned(closed)
    requires StartOf(db).Some? && StartOf(db).value < closed
    ensures key in Swept(db, closed).events <==>
              key in db.events ||
              BilledKey(db.ledger, StartOf(db).value, closed, key)
    ensures key in db.events ==> Swept(db, closed).events[key] == db.events[key]
    ensures key in Swept(db, closed).events && key !in db.events ==>
              Swept(db, closed).events[key] == BilledEvent(db.ledger, key)
  {
    BetweenIs(db.ledger, StartOf(db).value, closed, key);
  }

  // ------------------------------------------------------------ retention

  predicate Expired(s: Snapshot, before: int, spared: set<nat>) {
    s.usage && s.at < before && s.id !in spared
  }

  function Kept(ledger: seq<Snapshot>, before: int, spared: set<nat>): seq<Snapshot> {
    Filter(ledger, (s: Snapshot) => !Expired(s, before, spared))
  }

  function Raised(mark: Option<int>, bound: int): Option<int> {
    if mark.None? || mark.value < bound then Some(bound) else mark
  }

  /** A retention sweep; `spared` are rows it did not get to before it lost its lock. */
  function Retained(db: Db, now: int, days: int, rollup: Option<int>, spared: set<nat>): Db {
    if days <= 0 || rollup.None? || db.cursor.None? then db
    else
      var boundary := Min(rollup.value, db.cursor.value);
      if boundary > now then db
      else
        var before := Min(now - days * DAY, boundary);
        var left := Kept(db.ledger, before, spared);
        if |left| == |db.ledger| then db
        else db.(ledger := left, purge := Raised(db.purge, CeilDay(before)))
  }

  // ------------------------------------------------------------ export and void

  datatype VoidAnswer = NotFound | NotApplicable | NotExported | Voided | AlreadyVoided

  function Exporting(db: Db, tenant: nat, key: Key): Db {
    if key !in db.events || key.tenant != tenant then db
    else db.(events := db.events[key := db.events[key].(status := Exported)])
  }

  function VoidAnswerFor(db: Db, tenant: nat, key: Key): VoidAnswer {
    if key !in db.events || key.tenant != tenant then NotFound
    else if key.kind != Daily then NotApplicable
    else if db.events[key].status != Exported then NotExported
    else if key.(kind := Void) in db.events then AlreadyVoided
    else Voided
  }

  function Corrections(db: Db, key: Key): map<Key, Event>
    requires key in db.events
  {
    var again := DayAggregate(db.ledger, key.tenant, FloorDay(key.start));
    (if again.snapshots > 0 then map[key.(kind := Reagg) := Event(Usage(again), Pending)] else map[])
    + map[key.(kind := Void) := Event(Reversal(key, db.events[key].payload), Pending)]
  }

  function Voiding(db: Db, tenant: nat, key: Key): Db {
    if VoidAnswerFor(db, tenant, key) == Voided then db.(events := InsertNew(db.events, Corrections(db, key))) else db
  }

  /** A void never touches an event that is there, reverses exactly the aggregate that
      was exported, and a second void changes nothing. */
  lemma {:induction false} VoidOnce(db: Db, tenant: nat, key: Key)
    ensures var once := Voiding(db, tenant, key);
            && (forall k :: k in db.events ==> k in once.events && once.events[k] == db.events[k])
            && (VoidAnswerFor(db, tenant, key) == Voided ==>
                  && once.events[key.(kind := Void)] == Event(Reversal(key, db.events[key].payload), Pending)
                  && VoidAnswerFor(once, tenant, key) == AlreadyVoided)
            && Voiding(once, tenant, key) == once
            && once.cursor == db.cursor
  {
  }

  // ------------------------------------------------------------ the machine

  /** `recorded` is every snapshot ever reported; `sealedAt` tells how many of them were
      there when a daily event was created. */
  datatype World = World(db: Db, recorded: seq<Snapshot>, sealedAt: map<Key, nat>)

  datatype Step =
    | Record(s: Snapshot)
    | Sweep(now: int, grace: int)
    | Retain(now: int, days: int, rollup: Option<int>, spared: set<nat>)
    | Export(tenant: nat, key: Key)
    | VoidEvent(tenant: nat, key: Key)

  const INITIAL := World(EMPTY, [], map[])

  function Sealed(w: World, after: map<Key, Event>): map<Key, nat> {
    map key | key in after && key.kind == Daily :: if key in w.sealedAt then w.sealedAt[key] else |w.recorded|
  }

  function Next(w: World, step: Step): World {
    match step
    case Record(s) => w.(db := w.db.(ledger := w.db.ledger + [s]), recorded := w.recorded + [s])
    case Sweep(now, grace) =>
      var after := Swept(w.db, ClosedEnd(now, grace));
      w.(db := after, sealedAt := Sealed(w, after.events))
    case Retain(now, days, rollup, spared) => w.(db := Retained(w.db, now, days, rollup, spared))
    case Export(tenant, key) => w.(db := Exporting(w.db, tenant, key))
    case VoidEvent(tenant, key) => w.(db := Voiding(w.db, tenant, key))
  }

  function After(steps: seq<Step>): World {
    if steps == [] then INITIAL else Next(After(steps[..|steps| - 1]), steps[|steps| - 1])
  }

  // ------------------------------------------------------------ the invariant

  /** The purge mark never passes the watermark; both are midnights. */
  ghost predicate MarksOrdered(db: Db) {
    AlignedDb(db) && (db.purge.Some? ==> db.cursor.Some? && db.purge.value <= db.cursor.value)
  }

  predicate Unpurged(db: Db, day: int) {
    db.purge.None? || db.purge.value <= day
  }

  /** From the purge mark on, the ledger has every row that was ever reported. */
  ghost predicate Whole(db: Db, recorded: seq<Snapshot>) {
    forall tenant: nat, day: int :: Unpurged(db, day) ==> DayRows(db.ledger, tenant, day) == DayRows(recorded, tenant, day)
  }

  /** A daily event holds the aggregate of all rows reported when it was sealed. */
  ghost predicate SealedWhole(w: World, key: Key)
    requires key in w.db.events
  {
    key.kind == Daily ==>
      && key in w.sealedAt && w.sealedAt[key] <= |w.recorded|
      && w.db.events[key].payload == Usage(DayAggregate(w.recorded[..w.sealedAt[key]], key.tenant, key.start))
      && DayAggregate(w.recorded[..w.sealedAt[key]], key.tenant, key.start).snapshots > 0
      && Aligned(key.start)
  }

  ghost predicate AllSealedWhole(w: World) {
    forall key :: key in w.db.events ==> SealedWhole(w, key)
  }

  ghost predicate Inv(w: World) {
    && MarksOrdered(w.db) && Whole(w.db, w.recorded) && AllSealedWhole(w)
    && forall key :: key in w.sealedAt ==> key in w.db.events
  }

  // ------------------------------------------------------------ preservation

  lemma {:induction false} SweptMarks(db: Db, closed: int)
    requires MarksOrdered(db) && Aligned(closed)
    ensures MarksOrdered(Swept(db, closed))
  {
  }

  lemma {:induction false} RetainedMarks(db: Db, now: int, days: int, rollup: Option<int>, spared: set<nat>)
    requires MarksOrdered(db)
    ensures MarksOrdered(Retained(db, now, days, rollup, spared))
  {
    if Retained(db, now, days, rollup, spared) != db {
      var before := Min(now - days * DAY, Min(rollup.value, db.cursor.value));
      if CeilDay(before) > db.cursor.value {
        AlignedGap(db.cursor.value, CeilDay(before));
      }
    }
  }

  lemma {:induction false} FilterTwice<T>(s: seq<T>, keep: T -> bool, pick: T -> bool)
    requires forall x :: x in s && pick(x) ==> keep(x)
    ensures Filter(Filter(s, keep), pick) == Filter(s, pick)
  {
    if s != [] {
      var n := |s| - 1;
      FilterTwice(s[..n], keep, pick);
      var front := Filter(s[..n], keep);
      if keep(s[n]) {
        assert (front + [s[n]])[..|front|] == front;
      }
    }
  }

  /** Retention cuts nothing out of a day at or past its bound. */
  lemma {:induction false} KeptDays(ledger: seq<Snapshot>, before: int, spared: set<nat>, tenant: nat, day: int)
    requires before <= day
    ensures DayRows(Kept(ledger, before, spared), tenant, day) == DayRows(ledger, tenant, day)
  {
    FilterTwice(ledger, (s: Snapshot) => !Expired(s, before, spared), (s: Snapshot) => InTenantDay(s, tenant, day));
  }

  lemma {:induction false} RetainedWhole(db: Db, recorded: seq<Snapshot>, now: int, days: int, rollup: Option<int>, spared: set<nat>)
    requires Whole(db, recorded)
    ensures Whole(Retained(db, now, days, rollup, spared), recorded)
  {
    var after := Retained(db, now, days, rollup, spared);
    if after != db {
      var before := Min(now - days * DAY, Min(rollup.value, db.cursor.value));
      forall tenant: nat, day: int | Unpurged(after, day)
        ensures DayRows(after.ledger, tenant, day) == DayRows(recorded, tenant, day)
      {
        KeptDays(db.ledger, before, spared, tenant, day);
        assert Unpurged(db, day);
      }
    }
  }

  lemma {:induction false} DayRowsSnoc(ledger: seq<Snapshot>, s: Snapshot, tenant: nat, day: int)
    ensures DayRows(ledger + [s], tenant, day) ==
            DayRows(ledger, tenant, day) + if InTenantDay(s, tenant, day) then [RowOf(s)] else []
  {
    assert (ledger + [s])[..|ledger|] == ledger;
  }

  lemma {:induction false} RecordedWhole(db: Db, recorded: seq<Snapshot>, s: Snapshot)
    requires Whole(db, recorded)
    ensures Whole(db.(ledger := db.ledger + [s]), recorded + [s])
  {
    forall tenant: nat, day: int | Unpurged(db, day)
      ensures DayRows(db.ledger + [s], tenant, day) == DayRows(recorded + [s], tenant, day)
    {
      DayRowsSnoc(db.ledger, s, tenant, day);
      DayRowsSnoc(recorded, s, tenant, day);
    }
  }

  /** Where a sweep starts, nothing has been purged. */
  lemma {:induction false} StartUnpurged(db: Db, day: int)
    requires MarksOrdered(db) && StartOf(db).Some? && StartOf(db).value <= day
    ensures Unpurged(db, day)
  {
  }

  lemma {:induction false} SweepSeals(w: World, now: int, grace: int)
    requires Inv(w)
    ensures AllSealedWhole(Next(w, Sweep(now, grace)))
  {
    var after := Next(w, Sweep(now, grace));
    var closed := ClosedEnd(now, grace);
    forall key | key in after.db.events ensures SealedWhole(after, key) {
      if key in w.db.events {
        assert SealedWhole(w, key);
      } else {
        OneEventPerTenantDay(w.db, closed, key);
        StartUnpurged(w.db, key.start);
        assert w.recorded[..|w.recorded|] == w.recorded;
      }
    }
  }

  lemma {:induction false} RecordKeeps(w: World, s: Snapshot)
    requires Inv(w)
    ensures Inv(Next(w, Record(s)))
  {
    var after := Next(w, Record(s));
    RecordedWhole(w.db, w.recorded, s);
    forall key | key in after.db.events ensures SealedWhole(after, key) {
      assert SealedWhole(w, key);
      if key.kind == Daily {
        assert after.recorded[..w.sealedAt[key]] == w.recorded[..w.sealedAt[key]];
      }
    }
  }

  /** Steps that leave ledger and marks alone and add no daily event. */
  lemma {:induction false} EditKeeps(w: World, db: Db)
    requires Inv(w) && db.ledger == w.db.ledger && db.cursor == w.db.cursor && db.purge == w.db.purge
    requires forall key :: key in w.db.events ==> key in db.events
    requires forall key :: key in db.events && key.kind == Daily ==>
               key in w.db.events && db.events[key].payload == w.db.events[key].payload
    ensures Inv(w.(db := db))
  {
    forall tenant: nat, day: int | Unpurged(db, day)
      ensures DayRows(db.ledger, tenant, day) == DayRows(w.recorded, tenant, day)
    {
      assert Unpurged(w.db, day);
    }
    forall key | key in db.events ensures SealedWhole(w.(db := db), key) {
      if key.kind == Daily { assert SealedWhole(w, key); }
    }
  }

  lemma {:induction false} SweepKeeps(w: World, now: int, grace: int)
    requires Inv(w)
    ensures Inv(Next(w, Sweep(now, grace)))
  {
    var after := Next(w, Sweep(now, grace));
    SweptMarks(w.db, ClosedEnd(now, grace));
    SweepSeals(w, now, grace);
    forall tenant: nat, day: int | Unpurged(after.db, day)
      ensures DayRows(after.db.ledger, tenant, day) == DayRows(w.recorded, tenant, day)
    {
      assert Unpurged(w.db, day);
    }
  }

  lemma {:induction false} RetainKeeps(w: World, now: int, days: int, rollup: Option<int>, spared: set<nat>)
    requires Inv(w)
    ensures Inv(Next(w, Retain(now, days, rollup, spared)))
  {
    var after := Next(w, Retain(now, days, rollup, spared));
    RetainedMarks(w.db, now, days, rollup, spared);
    RetainedWhole(w.db, w.recorded, now, days, rollup, spared);
    forall key | key in after.db.events ensures SealedWhole(after, key) {
      assert SealedWhole(w, key);
    }
  }

  lemma {:induction false} StepKeeps(w: World, step: Step)
    requires Inv(w)
    ensures Inv(Next(w, step))
  {
    match step
    case Record(s) => RecordKeeps(w, s);
    case Sweep(now, grace) => SweepKeeps(w, now, grace);
    case Retain(now, days, rollup, spared) => RetainKeeps(w, now, days, rollup, spared);
    case Export(tenant, key) => EditKeeps(w, Exporting(w.db, tenant, key));
    case VoidEvent(tenant, key) =>
      VoidOnce(w.db, tenant, key);
      EditKeeps(w, Voiding(w.db, tenant, key));
  }

  lemma {:induction false} RunKeeps(steps: seq<Step>)
    ensures Inv(After(steps))
  {
    if steps != [] {
      RunKeeps(steps[..|steps| - 1]);
      StepKeeps(After(steps[..|steps| - 1]), steps[|steps| - 1]);
    }
  }

  // ------------------------------------------------------------ over whole runs

  /** Clock-jump safety. Under any clock, the purge mark stays at or below the
      watermark, and every daily event was aggregated from all the rows reported by
      then: none from what a purge happened to leave. */
  lemma {:induction false} ClockJumpSafety(steps: seq<Step>)
    ensures var w := After(steps);
            && (w.db.purge.Some? ==> w.db.cursor.Some? && w.db.purge.value <= w.db.cursor.value)
            && (forall key :: key in w.db.events && key.kind == Daily ==>
                  && key in w.sealedAt && w.sealedAt[key] <= |w.recorded|
                  && w.db.events[key].payload == Usage(DayAggregate(w.recorded[..w.sealedAt[key]], key.tenant, key.start)))
  {
    RunKeeps(steps);
    var w := After(steps);
    forall key | key in w.db.events && key.kind == Daily
      ensures && key in w.sealedAt && w.sealedAt[key] <= |w.recorded|
              && w.db.events[key].payload == Usage(DayAggregate(w.recorded[..w.sealedAt[key]], key.tenant, key.start))
    {
      assert SealedWhole(w, key);
    }
  }

  /** A sweep bills no day below the purge mark and none that ended less than the grace
      period ago. */
  lemma {:induction false} PurgedDaysStaySealed(steps: seq<Step>, now: int, grace: int, key: Key)
    ensures var w := After(steps);
            key in Next(w, Sweep(now, grace)).db.events && key !in w.db.events ==>
              Unpurged(w.db, key.start) && Aligned(key.start) && key.start + DAY <= now - grace
  {
    RunKeeps(steps);
    var w := After(steps);
    var closed := ClosedEnd(now, grace);
    if key in Next(w, Sweep(now, grace)).db.events && key !in w.db.events {
      OneEventPerTenantDay(w.db, closed, key);
      StartUnpurged(w.db, key.start);
      AlignedGap(key.start, closed);
    }
  }

  /** Once there, an event stays, with its payload; exporting is all that happens to it. */
  lemma {:induction false} EventsNeverChange(steps: seq<Step>, more: seq<Step>, key: Key)
    requires key in After(steps).db.events
    ensures key in After(steps + more).db.events
    ensures After(steps + more).db.events[key].payload == After(steps).db.events[key].payload
    ensures After(steps).db.events[key].status == Exported ==> After(steps + more).db.events[key] == After(steps).db.events[key]
  {
    if more == [] {
      assert steps + more == steps;
    } else {
      var n := |more| - 1;
      EventsNeverChange(steps, more[..n], key);
      assert (steps + more)[..|steps + more| - 1] == steps + more[..n];
      var w := After(steps + more[..n]);
      assert After(steps + more) == Next(w, more[n]);
      EventKept(w, more[n], key);
    }
  }

  lemma {:induction false} EventKept(w: World, step: Step, key: Key)
    requires key in w.db.events
    ensures key in Next(w, step).db.events
    ensures Next(w, step).db.events[key].payload == w.db.events[key].payload
    ensures Next(w, step).db.events[key] == w.db.events[key] || Next(w, step).db.events[key].status == Exported
  {
    if step.VoidEvent? {
      VoidOnce(w.db, step.tenant, step.key);
    }
  }

  /** Healing a forward clock step: when nothing past the true closed day was purged,
      one idle sweep brings the watermark back, and the next one bills every day from
      there, each at most once. */
  lemma {:induction false} RewindHeals(db: Db, closed: int, later: int, key: Key)
    requires MarksOrdered(db) && Aligned(closed) && Aligned(later) && closed < later
    requires db.cursor.Some? && db.cursor.value > closed && Unpurged(db, closed)
    ensures Swept(db, closed) == db.(cursor := Some(closed))
    ensures key.kind == Daily && Aligned(key.start) && closed <= key.start < later && Bills(db.ledger, key.tenant, key.start) ==>
              key in Swept(Swept(db, closed), later).events
    ensures key in db.events ==> Swept(Swept(db, closed), later).events[key] == db.events[key]
  {
    OneEventPerTenantDay(Swept(db, closed), later, key);
  }

  // ------------------------------------------------------------ the object

  function Grouped(ledger: seq<Snapshot>, day: int): map<nat, seq<Row>> {
    map t | t in TenantsOn(ledger, day) :: DayRows(ledger, t, day)
  }

  lemma {:induction false} GroupedSnoc(ledger: seq<Snapshot>, s: Snapshot, day: int)
    ensures Grouped(ledger + [s], day) ==
            if !InDay(s, day) then Grouped(ledger, day)
            else Grouped(ledger, day)[s.tenant := (if s.tenant in Grouped(ledger, day) then Grouped(ledger, day)[s.tenant] else []) + [RowOf(s)]]
  {
    var all := ledger + [s];
    assert TenantsOn(all, day) == TenantsOn(ledger, day) + if InDay(s, day) then {s.tenant} else {} by {
      assert s in all && forall x :: x in ledger ==> x in all;
    }
    forall t ensures DayRows(all, t, day) == DayRows(ledger, t, day) + if InTenantDay(s, t, day) then [RowOf(s)] else [] {
      DayRowsSnoc(ledger, s, t, day);
    }
    if s.tenant !in TenantsOn(ledger, day) {
      NoRows(ledger, s.tenant, day);
    }
  }

  lemma {:induction false} NoRows(ledger: seq<Snapshot>, tenant: nat, day: int)
    requires tenant !in TenantsOn(ledger, day)
    ensures DayRows(ledger, tenant, day) == []
  {
    FilterNone(ledger, (s: Snapshot) => InTenantDay(s, tenant, day));
  }

  lemma {:induction false} DayAppended(ledger: seq<Snapshot>, start: int, day: int)
    requires Aligned(start) && Aligned(day) && start <= day
    ensures DayEvents(ledger, day) + EventsBetween(ledger, start, day) == EventsBetween(ledger, start, day + DAY)
  {
    NextDayAligned(day);
    BetweenSplits(ledger, start, day, day + DAY);
    assert Gathered(d => DayEvents(ledger, d), day + DAY, day + DAY) == map[];
    assert EventsBetween(ledger, day, day + DAY) == DayEvents(ledger, day) + map[];
    assert DayEvents(ledger, day) + map[] == DayEvents(ledger, day);
  }

  function EventsFor(ledger: seq<Snapshot>, tenants: set<nat>, day: int): map<Key, Event> {
    map t | t in tenants && Bills(ledger, t, day) :: Key(t, Daily, day) := Event(Usage(DayAggregate(ledger, t, day)), Pending)
  }

  lemma {:induction false} EventsForOneMore(ledger: seq<Snapshot>, tenants: set<nat>, t: nat, day: int)
    ensures EventsFor(ledger, tenants + {t}, day) ==
            if Bills(ledger, t, day) then
              EventsFor(ledger, tenants, day)[Key(t, Daily, day) := Event(Usage(DayAggregate(ledger, t, day)), Pending)]
            else EventsFor(ledger, tenants, day)
  {
  }

  lemma {:induction false} CorrectionsInserted(db: Db, key: Key)
    requires key in db.events && key.(kind := Void) !in db.events
    ensures var again := DayAggregate(db.ledger, key.tenant, FloorDay(key.start));
            var reagg := key.(kind := Reagg);
            InsertNew(db.events, Corrections(db, key)) ==
            (if again.snapshots > 0 && reagg !in db.events then db.events[reagg := Event(Usage(again), Pending)] else db.events)
              [key.(kind := Void) := Event(Reversal(key, db.events[key].payload), Pending)]
  {
  }

  class BillingDb {
    var ledger: seq<Snapshot>
    var cursor: Option<int>
    var purge: Option<int>
    var events: map<Key, Event>

    function State(): Db
      reads this
    {
      Db(ledger, cursor, purge, events)
    }

    constructor ()
      ensures State() == EMPTY
    {
      ledger, cursor, purge, events := [], None, None, map[];
    }

    method FirstReported() returns (first: Option<int>)
      ensures first == FirstUsage(ledger)
    {
      first := None;
      for i := 0 to |ledger|
        invariant first == FirstUsage(ledger[..i])
      {
        assert ledger[..i + 1][..i] == ledger[..i];
        if ledger[i].usage && (first.None? || ledger[i].at < first.value) {
          first := Some(ledger[i].at);
        }
      }
      assert ledger[..|ledger|] == ledger;
    }

    method GroupByTenant(day: int) returns (groups: map<nat, seq<Row>>)
      ensures groups == Grouped(ledger, day)
    {
      groups := map[];
      for i := 0 to |ledger|
        invariant groups == Grouped(ledger[..i], day)
      {
        var s := ledger[i];
        assert ledger[..i + 1] == ledger[..i] + [s];
        GroupedSnoc(ledger[..i], s, day);
        if s.usage && day <= s.at < day + DAY {
          groups := groups[s.tenant := (if s.tenant in groups then groups[s.tenant] else []) + [RowOf(s)]];
        }
      }
      assert ledger[..|ledger|] == ledger;
    }

    method DayValues(day: int) returns (values: map<Key, Event>)
      ensures values == DayEvents(ledger, day)
    {
      var groups := GroupByTenant(day);
      values := map[];
      var left := groups.Keys;
      ghost var done := {};
      while left != {}
        invariant done + left == TenantsOn(ledger, day) == groups.Keys
        invariant values == EventsFor(ledger, done, day)
        decreases |left|
      {
        var t :| t in left;
        EventsForOneMore(ledger, done, t, day);
        values := WithTenant(values, t, day, groups[t]);
        left, done := left - {t}, done + {t};
      }
    }

    static method WithTenant(values: map<Key, Event>, tenant: nat, day: int, rows: seq<Row>) returns (r: map<Key, Event>)
      ensures r == if AggregateOf(rows).snapshots > 0 then values[Key(tenant, Daily, day) := Event(Usage(AggregateOf(rows)), Pending)] else values
    {
      var agg := AggregateDay(rows);
      if agg.snapshots == 0 {
        return values;
      }
      r := values[Key(tenant, Daily, day) := Event(Usage(agg), Pending)];
    }

    /** Bills every closed day from the watermark on; without the sweep's lock nothing
        happens. Returns how many events were created. */
    method SweepBilling(now: int, grace: int, locked: bool) returns (created: nat)
      requires MarksOrdered(State())
      modifies this`cursor, this`events
      ensures State() == if locked then Swept(old(State()), ClosedEnd(now, grace)) else old(State())
      ensures created == |events.Keys - old(events).Keys|
    {
      assert events.Keys - events.Keys == {};
      if !locked {
        return 0;
      }
      var closed := ClosedEnd(now, grace);
      var start := cursor;
      if start.None? {
        var first := FirstReported();
        if first.None? {
          return 0;
        }
        start := Some(FloorDay(first.value));
      }
      if start.value > closed {
        var rewindTo := closed;
        if purge.Some? && purge.value > rewindTo {
          rewindTo := purge.value;
        }
        cursor := Some(rewindTo);
        return 0;
      }
      if start.value >= closed {
        return 0;
      }
      var values := ClosedDays(start.value, closed);
      created := Insert(values);
      cursor := Some(closed);
    }

    /** Rows that conflict with one that is there are left out and not counted. */
    method Insert(values: map<Key, Event>) returns (created: nat)
      modifies this`events
      ensures events == InsertNew(old(events), values)
      ensures created == |events.Keys - old(events).Keys|
    {
      created := |values.Keys - events.Keys|;
      assert (values + events).Keys - events.Keys == values.Keys - events.Keys;
      events := values + events;
    }

    method ClosedDays(start: int, closed: int) returns (values: map<Key, Event>)
      requires Aligned(start) && Aligned(closed) && start < closed
      ensures values == EventsBetween(ledger, start, closed)
    {
      values := map[];
      var day := start;
      while day < closed
        invariant Aligned(day) && start <= day <= closed
        invariant values == EventsBetween(ledger, start, day)
      {
        AlignedGap(day, closed);
        var fromDay := DayValues(day);
        DayAppended(ledger, start, day);
        values := fromDay + values;
        day := day + DAY;
      }
    }

    method Retain(now: int, days: int, rollup: Option<int>, spared: set<nat>) returns (total: nat)
      modifies this`ledger, this`purge
      ensures State() == Retained(old(State()), now, days, rollup, spared)
      ensures total == old(|ledger|) - |ledger|
    {
      if days <= 0 {
        return 0;
      }
      if rollup.None? || cursor.None? {
        return 0;
      }
      var boundary := Min(rollup.value, cursor.value);
      if boundary > now {
        return 0;
      }
      var before := Min(now - days * DAY, boundary);
      var left := Kept(ledger, before, spared);
      total := |ledger| - |left|;
      if total > 0 {
        ledger := left;
        purge := Raised(purge, CeilDay(before));
      }
    }

    method ExportBillingEvent(tenant: nat, key: Key) returns (found: bool)
      modifies this`events
      ensures State() == Exporting(old(State()), tenant, key)
      ensures found <==> key in old(events) && key.tenant == tenant
    {
      if key !in events || key.tenant != tenant {
        return false;
      }
      if events[key].status == Pending {
        events := events[key := events[key].(status := Exported)];
      }
      return true;
    }

    method VoidBillingEvent(tenant: nat, key: Key) returns (answer: VoidAnswer)
      modifies this`events
      ensures State() == Voiding(old(State()), tenant, key)
      ensures answer == VoidAnswerFor(old(State()), tenant, key)
    {
      if key !in events || key.tenant != tenant {
        return NotFound;
      }
      if key.kind != Daily {
        return NotApplicable;
      }
      if events[key].status != Exported {
        return NotExported;
      }
      var voidKey := key.(kind := Void);
      if voidKey in events {
        return AlreadyVoided;
      }
      CorrectionsInserted(State(), key);
      var reversal := Event(Reversal(key, events[key].payload), Pending);
      var agg := AggregateDay(DayRows(ledger, key.tenant, FloorDay(key.start)));
      if agg.snapshots > 0 && key.(kind := Reagg) !in events {
        events := events[key.(kind := Reagg) := Event(Usage(agg), Pending)];
      }
      events := events[voidKey := reversal];
      return Voided;
    }
  }
}
